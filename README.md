# PSX ticker widget: cache and render model

This project models the two pieces of logic in `psx-ticker.js`, an embeddable script. The script draws a scrolling strip of Pakistan Stock Exchange quotes for one market (`KSE30` by default).

- **Cache or fetch.** `fetchDataAndRender` keeps two module-level variables, `cachedData` and `cacheTimestamp`. On each call it either re-renders the cached list (when the list is present and less than 180000 ms old) or fetches fresh data. A successful fetch overwrites the cache and renders the new list. A failed fetch shows an error and leaves the cache as it was (except a `null` entry, below).
- **Rendering.** `renderTicker` classifies each quote's change as up, down or neutral, which picks its CSS class and arrow. An empty list shows a "No data available" message. Otherwise the item markup is written twice so the scroll can loop.

Files:

- `values.dfy` (`TickerValues`): `Option` and `Quote`.
- `decimal.dfy` (`Decimal`): the decimal text of an HTTP status, with a parser that reads it back.
- `render.dfy` (`TickerRender`): classification, item markup, `RenderTicker`, and the messages shown in the strip.
- `cache.dfy` (`TickerCache`): the network outcome, the specification function `Step` for one call, and the class `Ticker`. The class holds the two cache fields and a `Refresh` method proved equal to `Step`. The file also has properties of one call, two calls and whole runs of calls (`Run`).

Modelling choices:

- The clock (`Date.now()`) becomes the `now` parameter of `Refresh`. It is an unbounded integer and is not assumed to be monotonic.
- The network becomes the `outcome` parameter. It is either a response with a status and a body, or a rejection with its message. `res.ok` is a status from 200 to 299. The body either parses to an object whose `entry` is missing, `null` or a list, or fails to parse with a message.
- Parsed numbers are `Option<real>`, where `None` stands for NaN.
- The source still runs when `entry` is `null`. It stores `null` and the new timestamp, and then `renderTicker(null)` throws while reading `length`. That error is caught, so the call shows an error and the next call fetches again. The text of that error comes from the browser, so the model takes it from the outcome (`Null(typeError)`).
- The repository holds several versions of this widget. This model follows `psx-ticker.js` only, which differs from the others in five ways:
  - it does not clear the cache on an error;
  - it has no refresh timer and calls `fetchDataAndRender` once, at load;
  - it does not upper-case the market;
  - it does not truncate error bodies to 100 characters;
  - it does not drop quotes whose `current` does not parse: such a quote is rendered with a NaN price (`current` is `None`).

## Model

| member | source | states |
|---|---|---|
| `TickerCache.Step` | psx-ticker.js:149-174 | A cached render happens exactly when data is present and `now - cacheTimestamp < 180000`; it serves the cached list unchanged and changes no state. A fetch that reaches a parsed body sets both fields, with the timestamp from the start of the call. Every other fetch leaves both fields unchanged and shows an error. A fresh render shows exactly the list just stored. A non-ok status shows `"HTTP " + status`. A rejection, an unparsable body and the error thrown for a `null` entry each show that error's message. |
| `TickerCache.Ticker.Refresh` | psx-ticker.js:149-174 | The imperative call: its new `cachedData`/`cacheTimestamp` and its display decision are exactly those of `Step` on the old fields. The strip contents it writes are exactly `Shown` of that decision. |
| `TickerCache.Ticker.constructor` | psx-ticker.js:7-10 | Takes its market from the `data-market` attribute through `ConfiguredMarket`, and starts with no cached data and timestamp 0. |
| `TickerCache.Shown` | psx-ticker.js:152-172 | A hit writes the strip once; a fetch writes it twice. The loading message is shown exactly when the call goes to the network, and it is never the last display. Renders (hit or fresh) end with `RenderTicker` of the rendered list. Errors end with the red "Error loading data: " + message. |
| `TickerCache.ConfiguredMarket` | psx-ticker.js:10 | The market is the `data-market` attribute when it is present and non-empty. Otherwise it is `KSE30`. The market is never empty. |
| `TickerCache.FirstCallFetches` | psx-ticker.js:152 | From the initial state (`null`, 0), a call never serves the cache. |
| `TickerCache.WindowBoundary` | psx-ticker.js:152 | The window is strict: a list stored at `t` is still fresh at `t + 179999` and stale at `t + 180000`. |
| `TickerCache.SuccessThenHit` | psx-ticker.js:150-168 | After a fresh render at `now`, any call at a time in `[now, now + 180000)` renders the same list from the cache and keeps the state. |
| `TickerCache.MissingEntryIsCached` | psx-ticker.js:165-166 | An ok body without `entry` stores and renders the empty list as present data. A call inside the window then serves that empty list from the cache. |
| `TickerCache.ErrorKeepsStaleData` | psx-ticker.js:162-173 | A non-ok response on a stale cache, whatever its body, keeps the stale list and its timestamp and shows `"HTTP " + status`. |
| `TickerCache.ErrorThenRefetch` | psx-ticker.js:152-173 | After any error display, a call at the same time or later goes to the network again. |
| `TickerCache.HitsAreIdempotent` | psx-ticker.js:152-156 | Two cache hits in a row give the same display and the same state. |
| `TickerCache.CacheProvenance` | psx-ticker.js:152-167 | In any run of calls from the initial state, cached data was rendered fresh by an earlier call of that run. The cache timestamp is the start time of that call. |
| `TickerCache.CachedRenderIsRecent` | psx-ticker.js:150-167 | In any run, a cached render at call `k` shows the list of a fresh render at some earlier call `j`. Call `k` started less than 180000 ms after call `j` started. |
| `TickerCache.RunStartsWithFetch` | psx-ticker.js:149-156 | The first call of every run goes to the network. |
| `TickerRender.Classify` | psx-ticker.js:125-127 | The class chain and the arrow chain follow one sign classification: up (`ticker-up`, ▲) exactly when change > 0, down (`ticker-down`, ▼) exactly when change < 0, neutral (`ticker-neutral`, −) exactly when change = 0. So class and arrow always agree. |
| `TickerRender.ClassAndArrowDetermineEachOther` | psx-ticker.js:126-127 | The three classes are pairwise distinct, and so are the three arrows. Either one therefore determines the direction. |
| `TickerRender.UnparseableIsNeutral` | psx-ticker.js:125-127 | A `change_percent` that parses to NaN counts as 0 and renders as neutral. |
| `TickerRender.Item` | psx-ticker.js:124-134 | An item keeps the quote's symbol and current price. Its change is the parsed `change_percent`, or 0 when that is NaN. Its class and arrow are those of the direction of that change. |
| `TickerRender.TickerContent` | psx-ticker.js:124-135 | Exactly one item per quote, in the endpoint's order. |
| `TickerRender.RenderTicker` | psx-ticker.js:118-138 | An empty list gives exactly the "No data available for <market>" message, which does not scroll. A non-empty list gives a scrolling strip of `2n` items. Its two halves are equal, and item `i` of the first half renders quote `i`. |
| `Decimal.NatToString` | psx-ticker.js:164 | The status text is non-empty and all digits, with no leading zero unless the status is 0. |
| `Decimal.ParseNatToString` | psx-ticker.js:164 | Reading the status text back as a decimal number gives the status. |
| `Decimal.NatToStringInjective` | psx-ticker.js:164 | Different statuses give different texts. |

## Left out

- DOM and CSS construction (meta tag, style sheet, container, footer note and its placement) is not modelled. It is presentation only.
- `fetch` and `res.json()` are replaced by the `outcome` parameter. `entry` values other than missing, `null` or a list (a number, a string, a plain object) are not modelled.
- The animation duration (`scrollWidth / 2 / 100`, computed on the next animation frame) depends on floating point and layout. A strip is modelled only as scrolling (`ScrollLeft`) and a message as still.
- Number formatting (`toFixed(2)`, `Number(...)`, `parseFloat`) is not modelled. Numbers are `Option<real>`, and infinities are not represented.
- `Item`: the title attribute and the markup text are not produced. The model states only the fields they are built from, because they are pure formatting.
- Console logging is not modelled.
- A `null` element inside the `entry` list is not modelled: list elements are taken to be objects. In the source, a fetch stores such a list, and then `renderTicker` throws on `null.change_percent`. That throw is caught and shown as an error. A later call inside the window takes the cache-hit path, which is outside the `try`. There the same throw escapes `fetchDataAndRender`, and the strip keeps its previous contents. So "one display per call" holds only for lists of objects.
- Async interleaving is not modelled: each call is treated as atomic. The script makes one call at load and has no timer, so overlapping calls do not arise in this version.
