/** The cache-or-fetch decision of `fetchDataAndRender` and the two pieces of
    state it keeps between calls. */
module TickerCache {
  import opened TickerValues
  import opened TickerRender
  import Decimal

  /** How long a successful response is reused, in milliseconds (three minutes). */
  const CacheDuration: int := 180000

  /** The `entry` field of a parsed response body. A missing key defaults to
      the empty list; an explicit `null` is stored as it is. */
  datatype Entry = Missing | Null(typeError: string) | Quotes(quotes: seq<Quote>)

  /** What `res.json()` gives: a destructurable object, or an error with its
      message (`res.json()` rejects because the body is not JSON, or the
      destructuring of its result throws because the body is JSON `null`). */
  datatype Body = Json(entry: Entry) | Unparsable(reason: string)

  /** What `fetch` gives: a response with its status and body, or a rejection
      with the error's message. */
  datatype Outcome = Response(status: nat, body: Body) | Rejected(reason: string)

  /** The display decision of one call. */
  datatype Action = RenderCached(quotes: seq<Quote>) | RenderFresh(quotes: seq<Quote>) | ShowError(message: string)

  /** `cachedData` (`null` is `None`; any list, even an empty one, is truthy)
      and `cacheTimestamp`. */
  datatype CacheState = CacheState(data: Option<seq<Quote>>, timestamp: int)

  /** The state the script starts in. */
  const Initial: CacheState := CacheState(None, 0)

  datatype StepResult = StepResult(next: CacheState, action: Action)

  /** `res.ok`: a status in the range 200 to 299. */
  predicate Ok(status: nat) {
    200 <= status <= 299
  }

  /** The guard of the cache hit: data present and strictly younger than the window. */
  predicate IsFresh(s: CacheState, now: int) {
    s.data.Some? && now - s.timestamp < CacheDuration
  }

  /** The message of the error thrown for a status that is not ok. */
  function HttpErrorMessage(status: nat): string {
    "HTTP " + Decimal.NatToString(status)
  }

  /** `stocks`, after the destructuring default. */
  function Stocks(entry: Entry): Option<seq<Quote>> {
    match entry
    case Missing => Some([])
    case Null(_) => None
    case Quotes(q) => Some(q)
  }

  /** Whether a fetch with this outcome assigns the cache. */
  predicate Stores(outcome: Outcome) {
    outcome.Response? && Ok(outcome.status) && outcome.body.Json?
  }

  /** One call of `fetchDataAndRender` at time `now` (read once, at its start),
      with `outcome` the network's answer should it fetch. */
  function Step(s: CacheState, now: int, outcome: Outcome): (r: StepResult)
    // a hit exactly when the guard holds; it serves the cache as it is and changes nothing
    ensures r.action.RenderCached? <==> IsFresh(s, now)
    ensures r.action.RenderCached? ==> r.action.quotes == s.data.value && r.next == s
    // a fetch that stores overwrites both fields, with the start time
    ensures !IsFresh(s, now) && Stores(outcome) ==> r.next == CacheState(Stocks(outcome.body.entry), now)
    // any other fetch leaves both fields alone
    ensures !IsFresh(s, now) && !Stores(outcome) ==> r.next == s && r.action.ShowError?
    // what is rendered fresh is what was stored
    ensures r.action.RenderFresh? <==> !IsFresh(s, now) && Stores(outcome) && Stocks(outcome.body.entry).Some?
    ensures r.action.RenderFresh? ==> r.next == CacheState(Some(r.action.quotes), now)
    // the error messages
    ensures !IsFresh(s, now) && outcome.Response? && !Ok(outcome.status) ==>
              r.action == ShowError(HttpErrorMessage(outcome.status))
    ensures !IsFresh(s, now) && outcome.Rejected? ==> r.action == ShowError(outcome.reason)
    ensures !IsFresh(s, now) && outcome.Response? && Ok(outcome.status) && outcome.body.Unparsable? ==>
              r.action == ShowError(outcome.body.reason)
    ensures !IsFresh(s, now) && Stores(outcome) && outcome.body.entry.Null? ==>
              r.action == ShowError(outcome.body.entry.typeError)
  {
    if IsFresh(s, now) then StepResult(s, RenderCached(s.data.value))
    else
      match outcome
      case Rejected(reason) => StepResult(s, ShowError(reason))
      case Response(status, body) =>
        if !Ok(status) then StepResult(s, ShowError(HttpErrorMessage(status)))
        else
          match body
          case Unparsable(reason) => StepResult(s, ShowError(reason))
          case Json(entry) =>
            match entry
            // `renderTicker(null)` throws on `stocks.length`, after the assignments
            case Null(typeError) => StepResult(CacheState(None, now), ShowError(typeError))
            case Missing => StepResult(CacheState(Some([]), now), RenderFresh([]))
            case Quotes(q) => StepResult(CacheState(Some(q), now), RenderFresh(q))
  }

  /** The contents the ticker element takes during one call, in order: a hit
      renders at once; a fetch shows the loading message first. */
  function Shown(market: string, action: Action): (views: seq<View>)
    ensures |views| == if action.RenderCached? then 1 else 2
    ensures views[|views| - 1] != LoadingView(market)
    ensures LoadingView(market) in views <==> !action.RenderCached?
    ensures action.ShowError? ==> views[|views| - 1] == ErrorView(action.message)
    ensures !action.ShowError? ==> views[|views| - 1] == RenderTicker(market, action.quotes)
  {
    assert NoDataView(market).text[0] != LoadingView(market).text[0];
    match action
    case RenderCached(q) => [RenderTicker(market, q)]
    case RenderFresh(q) => [LoadingView(market), RenderTicker(market, q)]
    case ShowError(m) => [LoadingView(market), ErrorView(m)]
  }

  /** The market the widget shows: the script tag's `data-market` attribute,
      or `KSE30` when the attribute is absent or empty (both are falsy). */
  function ConfiguredMarket(attribute: Option<string>): (market: string)
    ensures market != []
    ensures attribute.Some? && attribute.value != [] ==> market == attribute.value
    ensures attribute.None? || attribute.value == [] ==> market == "KSE30"
  {
    match attribute
    case Some(a) => if a != [] then a else "KSE30"
    case None => "KSE30"
  }

  /** The widget instance: its market and its module-level cache variables. */
  class Ticker {
    const market: string
    var cachedData: Option<seq<Quote>>
    var cacheTimestamp: int

    /** Set up from the script tag's `data-market` attribute. */
    constructor (attribute: Option<string>)
      ensures market == ConfiguredMarket(attribute) && State() == Initial
    {
      market := ConfiguredMarket(attribute);
      cachedData := None;
      cacheTimestamp := 0;
    }

    function State(): CacheState
      reads this
    {
      CacheState(cachedData, cacheTimestamp)
    }

    /** `fetchDataAndRender`. Returns the display decision and the contents the
        ticker element takes. */
    method Refresh(now: int, outcome: Outcome) returns (action: Action, views: seq<View>)
      modifies this
      ensures StepResult(State(), action) == Step(old(State()), now, outcome)
      ensures views == Shown(market, action)
    {
      if cachedData.Some? && now - cacheTimestamp < CacheDuration {
        action := RenderCached(cachedData.value);
        views := [RenderTicker(market, cachedData.value)];
        return;
      }
      views := [LoadingView(market)];
      match outcome {
        case Rejected(reason) =>
          action := ShowError(reason);
        case Response(status, body) =>
          if !Ok(status) {
            action := ShowError(HttpErrorMessage(status));
          } else {
            match body {
              case Unparsable(reason) =>
                action := ShowError(reason);
              case Json(entry) =>
                var stocks := Stocks(entry);
                cachedData := stocks;
                cacheTimestamp := now;
                match stocks {
                  case None => action := ShowError(entry.typeError);
                  case Some(q) => action := RenderFresh(q);
                }
            }
          }
      }
      match action {
        case ShowError(m) => views := views + [ErrorView(m)];
        case RenderFresh(q) => views := views + [RenderTicker(market, q)];
        case RenderCached(_) =>
      }
    }
  }

  // ---- Properties of one and of two calls ----

  /** The first call of the script always fetches. */
  lemma FirstCallFetches(now: int, outcome: Outcome)
    ensures !Step(Initial, now, outcome).action.RenderCached?
  {
  }

  /** The window is strict: at exactly three minutes the cache is stale. */
  lemma WindowBoundary(q: seq<Quote>, t: int)
    ensures IsFresh(CacheState(Some(q), t), t + CacheDuration - 1)
    ensures !IsFresh(CacheState(Some(q), t), t + CacheDuration)
  {
  }

  /** After a successful fetch, a call inside the window started at `now`
      renders the same list from the cache, even when the list is empty. */
  lemma SuccessThenHit(s: CacheState, now: int, o1: Outcome, later: int, o2: Outcome)
    requires Step(s, now, o1).action.RenderFresh?
    requires now <= later < now + CacheDuration
    ensures Step(Step(s, now, o1).next, later, o2) ==
            StepResult(Step(s, now, o1).next, RenderCached(Step(s, now, o1).action.quotes))
  {
  }

  /** A body without `entry` is stored as an empty, present list, so the next
      call inside the window is a hit on it rather than a fetch. */
  lemma MissingEntryIsCached(s: CacheState, now: int, status: nat, later: int, o2: Outcome)
    requires !IsFresh(s, now) && Ok(status)
    requires now <= later < now + CacheDuration
    ensures Step(s, now, Response(status, Json(Missing))) == StepResult(CacheState(Some([]), now), RenderFresh([]))
    ensures Step(CacheState(Some([]), now), later, o2).action == RenderCached([])
  {
  }

  /** An error leaves the cache as it was, so a stale list stays in place. */
  lemma ErrorKeepsStaleData(q: seq<Quote>, t: int, now: int, status: nat, b: Body)
    requires now - t >= CacheDuration && !Ok(status)
    ensures Step(CacheState(Some(q), t), now, Response(status, b)) ==
            StepResult(CacheState(Some(q), t), ShowError(HttpErrorMessage(status)))
  {
  }

  /** After an error, a call at the same time or later fetches again. */
  lemma ErrorThenRefetch(s: CacheState, now: int, o1: Outcome, later: int, o2: Outcome)
    requires Step(s, now, o1).action.ShowError?
    requires now <= later
    ensures !Step(Step(s, now, o1).next, later, o2).action.RenderCached?
  {
  }

  /** Two hits in a row give the same display and leave the state alone. */
  lemma HitsAreIdempotent(s: CacheState, t1: int, o1: Outcome, t2: int, o2: Outcome)
    requires IsFresh(s, t1) && IsFresh(s, t2)
    ensures Step(s, t1, o1) == Step(Step(s, t1, o1).next, t2, o2)
  {
  }

  // ---- Properties of a whole run of calls ----

  /** One call: the time it reads and the network's answer should it fetch. */
  datatype Call = Call(now: int, outcome: Outcome)

  datatype Trace = Trace(final: CacheState, actions: seq<Action>)

  /** The calls in order, from the initial state. */
  function Run(calls: seq<Call>): (t: Trace)
    ensures |t.actions| == |calls|
  {
    if calls == [] then Trace(Initial, [])
    else
      var before := Run(calls[..|calls| - 1]);
      var c := calls[|calls| - 1];
      var r := Step(before.final, c.now, c.outcome);
      Trace(r.next, before.actions + [r.action])
  }

  /** A run's actions extend the actions of each of its prefixes. */
  lemma {:induction false} RunPrefix(calls: seq<Call>, k: nat)
    requires k <= |calls|
    ensures Run(calls[..k]).actions == Run(calls).actions[..k]
    decreases |calls|
  {
    if k < |calls| {
      var init := calls[..|calls| - 1];
      assert init[..k] == calls[..k];
      RunPrefix(init, k);
    } else {
      assert calls[..k] == calls;
    }
  }

  /** Whatever the cache holds was rendered fresh by an earlier call of the
      run, and the timestamp is the time that call started. */
  lemma {:induction false} CacheProvenance(calls: seq<Call>)
    requires Run(calls).final.data.Some?
    ensures exists j :: 0 <= j < |calls| && calls[j].now == Run(calls).final.timestamp
                        && Run(calls).actions[j] == RenderFresh(Run(calls).final.data.value)
  {
    var init := calls[..|calls| - 1];
    var before := Run(init);
    var c := calls[|calls| - 1];
    var r := Step(before.final, c.now, c.outcome);
    assert Run(calls) == Trace(r.next, before.actions + [r.action]);
    if r.next == before.final {
      CacheProvenance(init);
      var j :| 0 <= j < |init| && init[j].now == before.final.timestamp
               && before.actions[j] == RenderFresh(before.final.data.value);
      assert calls[j] == init[j];
      assert Run(calls).actions[j] == before.actions[j];
    } else {
      var j := |calls| - 1;
      assert Run(calls).actions[j] == r.action;
    }
  }

  /** A cached render shows the list of an earlier fresh render whose call
      started less than three minutes before it. */
  lemma {:induction false} CachedRenderIsRecent(calls: seq<Call>, k: nat)
    requires k < |calls| && Run(calls).actions[k].RenderCached?
    ensures exists j :: 0 <= j < k && Run(calls).actions[j] == RenderFresh(Run(calls).actions[k].quotes)
                        && calls[k].now - calls[j].now < CacheDuration
  {
    var prefix := calls[..k + 1];
    RunPrefix(calls, k + 1);
    RunPrefix(calls, k);
    var init := prefix[..k];
    assert init == calls[..k];
    var before := Run(init);
    assert Run(prefix).actions[k] == Run(calls).actions[k];
    assert Step(before.final, calls[k].now, calls[k].outcome).action == Run(calls).actions[k];
    CacheProvenance(init);
    var j :| 0 <= j < k && init[j].now == before.final.timestamp
             && before.actions[j] == RenderFresh(before.final.data.value);
    assert Run(calls).actions[j] == before.actions[j];
  }

  /** The first call of every run fetches. */
  lemma {:induction false} RunStartsWithFetch(calls: seq<Call>)
    requires |calls| > 0
    ensures !Run(calls).actions[0].RenderCached?
  {
    RunPrefix(calls, 1);
    assert calls[..1][..0] == [];
  }
}
