/** What `renderTicker` writes into the ticker strip, and the other messages
    the widget shows there. */
module TickerRender {
  import opened TickerValues

  /** The three ways a quote can have moved. */
  datatype Direction = Up | Down | Neutral

  /** `parseFloat(stock.change_percent) || 0`: NaN (like 0) falls back to 0. */
  function EffectiveChange(q: Quote): real {
    match q.changePercent
    case None => 0.0
    case Some(x) => x
  }

  /** The CSS class chosen by the first ternary chain. */
  function ChangeClass(change: real): string {
    if change > 0.0 then "ticker-up" else if change < 0.0 then "ticker-down" else "ticker-neutral"
  }

  /** The arrow chosen by the second, separate ternary chain. */
  function Arrow(change: real): string {
    if change > 0.0 then "▲" else if change < 0.0 then "▼" else "−"
  }

  function ClassOf(d: Direction): string {
    match d
    case Up => "ticker-up"
    case Down => "ticker-down"
    case Neutral => "ticker-neutral"
  }

  function ArrowOf(d: Direction): string {
    match d
    case Up => "▲"
    case Down => "▼"
    case Neutral => "−"
  }

  /** The sign of a change. Both ternary chains of the renderer follow it, so
      the class and the arrow of an item always agree. */
  function Classify(change: real): (d: Direction)
    ensures ChangeClass(change) == ClassOf(d) && Arrow(change) == ArrowOf(d)
    ensures d == Up <==> change > 0.0
    ensures d == Down <==> change < 0.0
    ensures d == Neutral <==> change == 0.0
  {
    if change > 0.0 then Up else if change < 0.0 then Down else Neutral
  }

  /** Distinct directions give distinct classes and distinct arrows. */
  lemma ClassAndArrowDetermineEachOther(d: Direction, e: Direction)
    ensures ClassOf(d) == ClassOf(e) <==> d == e
    ensures ArrowOf(d) == ArrowOf(e) <==> d == e
  {
  }

  /** An unparseable `change_percent` renders as a neutral item. */
  lemma UnparseableIsNeutral(q: Quote)
    requires q.changePercent.None?
    ensures Classify(EffectiveChange(q)) == Neutral
    ensures ChangeClass(EffectiveChange(q)) == "ticker-neutral" && Arrow(EffectiveChange(q)) == "−"
  {
  }

  /** The markup of one `.ticker-item`: symbol, current price, and the change
      with its class and arrow. The number formatting is left abstract. */
  datatype ItemView = ItemView(symbol: string, current: Option<real>, change: real, changeClass: string, arrow: string)

  function Item(q: Quote): (v: ItemView)
    ensures v.symbol == q.symbol && v.current == q.current
    ensures q.changePercent.None? ==> v.change == 0.0
    ensures q.changePercent.Some? ==> v.change == q.changePercent.value
    ensures v.changeClass == ClassOf(Classify(v.change)) && v.arrow == ArrowOf(Classify(v.change))
  {
    var change := EffectiveChange(q);
    ItemView(q.symbol, q.current, change, ChangeClass(change), Arrow(change))
  }

  /** `stocks.map(...).join('')`: one item per quote, in the endpoint's order. */
  function TickerContent(stocks: seq<Quote>): (r: seq<ItemView>)
    ensures |r| == |stocks|
    ensures forall i :: 0 <= i < |stocks| ==> r[i] == Item(stocks[i])
  {
    if stocks == [] then [] else [Item(stocks[0])] + TickerContent(stocks[1..])
  }

  /** The text colours of the messages shown in place of the strip. */
  datatype Tone = Grey | Red

  /** Whether the strip scrolls: messages set `animation: none`; a rendered
      strip gets the `scroll-left` animation on the next frame. */
  datatype Animation = Still | ScrollLeft

  /** The contents of the ticker element. */
  datatype View = Message(tone: Tone, text: string) | Strip(items: seq<ItemView>)

  function AnimationOf(v: View): Animation {
    if v.Strip? then ScrollLeft else Still
  }

  function NoDataView(market: string): View {
    Message(Grey, "No data available for " + market)
  }

  function LoadingView(market: string): View {
    Message(Grey, "Loading " + market + "...")
  }

  function ErrorView(message: string): View {
    Message(Red, "Error loading data: " + message)
  }

  /** `renderTicker`: an empty list shows the no-data message and does not
      scroll; otherwise the items are written twice, back to back, so the
      scroll by half the strip's width loops seamlessly. */
  function RenderTicker(market: string, stocks: seq<Quote>): (v: View)
    ensures stocks == [] <==> v.Message?
    ensures stocks == [] ==> v == NoDataView(market) && AnimationOf(v) == Still
    ensures stocks != [] ==> v.Strip? && AnimationOf(v) == ScrollLeft
    ensures v.Strip? ==> |v.items| == 2 * |stocks|
                         && v.items[..|stocks|] == v.items[|stocks|..]
                         && forall i :: 0 <= i < |stocks| ==> v.items[i] == Item(stocks[i])
  {
    if |stocks| == 0 then NoDataView(market)
    else
      var content := TickerContent(stocks);
      Strip(content + content)
  }
}
