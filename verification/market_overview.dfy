/**
 * The watchlist panel's polled state: the last price snapshot, the percentage
 * changes between consecutive snapshots, the loading flag and the error
 * message, and the predicates that decide what a row displays. Prices are
 * exact reals; `None` stands for a price that is `NaN`.
 */
module MarketOverview {
  import opened Wrappers
  import opened BinanceApi

  /**
   * A stored percentage change: a finite number, or the infinity that a
   * change from a zero price to a non-zero one produces. `NaN` is never stored.
   */
  datatype Change = Percent(value: real) | PlusInfinity | MinusInfinity

  /** `parseFloat(prevPrices[symbol])`: an absent symbol reads as `undefined`, hence `NaN`. */
  function PreviousPrice(prices: PriceMap, symbol: string): (r: Option<real>)
    ensures symbol !in prices ==> r == None
    ensures symbol in prices ==> r == prices[symbol]
    ensures r.Some? ==> symbol in prices && prices[symbol] == r
  {
    if symbol in prices then prices[symbol] else None
  }

  /**
   * `((current - previous) / previous) * 100`, or `None` when the result is
   * `NaN`: either price is `NaN`, or both are zero. A zero previous price and
   * a non-zero current one give an infinity of the current price's sign.
   */
  function PercentChange(previous: Option<real>, current: Option<real>): (r: Option<Change>)
    ensures r.None? <==> previous.None? || current.None? || (previous == Some(0.0) && current == Some(0.0))
    ensures r.Some? && r.value.Percent? ==>
      previous.value != 0.0 && previous.value + previous.value * r.value.value / 100.0 == current.value
    ensures r == Some(PlusInfinity) <==> previous == Some(0.0) && current.Some? && current.value > 0.0
    ensures r == Some(MinusInfinity) <==> previous == Some(0.0) && current.Some? && current.value < 0.0
  {
    match (previous, current)
    case (Some(p), Some(c)) =>
      if p != 0.0 then Some(Percent((c - p) / p * 100.0))
      else if c > 0.0 then Some(PlusInfinity)
      else if c < 0.0 then Some(MinusInfinity)
      else None
    case _ => None
  }

  /** A rise from 100 to 105 is a change of 5 percent; from 0 to 0 there is none. */
  lemma PercentChangeExamples()
    ensures PercentChange(Some(100.0), Some(105.0)) == Some(Percent(5.0))
    ensures PercentChange(Some(0.0), Some(0.0)) == None
    ensures PercentChange(Some(0.0), Some(3.0)) == Some(PlusInfinity)
  {
  }

  /** The changes computed for the symbols in `keys` of the new snapshot `data`. */
  ghost function ChangesOver(previous: PriceMap, data: PriceMap, keys: set<string>): map<string, Change>
    requires keys <= data.Keys
  {
    map s | s in keys && PercentChange(PreviousPrice(previous, s), data[s]).Some? ::
      PercentChange(PreviousPrice(previous, s), data[s]).value
  }

  /**
   * The `newChanges` of a poll: a change for each symbol of the new snapshot
   * whose previous and current prices give one. A symbol seen for the first
   * time gets none.
   */
  ghost function NewChanges(previous: PriceMap, data: PriceMap): (r: map<string, Change>)
    ensures forall s :: s in r <==>
      s in data && s in previous && previous[s].Some? && data[s].Some?
      && !(previous[s] == Some(0.0) && data[s] == Some(0.0))
    ensures forall s :: s in r ==> Some(r[s]) == PercentChange(previous[s], data[s])
  {
    ChangesOver(previous, data, data.Keys)
  }

  /** The `forEach` over the snapshot's entries that fills `newChanges`. */
  method ComputeChanges(previous: PriceMap, data: PriceMap) returns (newChanges: map<string, Change>)
    ensures newChanges == NewChanges(previous, data)
  {
    newChanges := map[];
    var pending := data.Keys;
    while pending != {}
      invariant pending <= data.Keys
      invariant newChanges == ChangesOver(previous, data, data.Keys - pending)
      decreases pending
    {
      var symbol :| symbol in pending;
      var currentPrice := data[symbol];
      var previousPrice := PreviousPrice(previous, symbol);
      var change := PercentChange(previousPrice, currentPrice);
      if change.Some? {
        newChanges := newChanges[symbol := change.value];
      }
      pending := pending - {symbol};
    }
  }

  const FetchFailedMessage: string := "Failed to fetch latest prices"

  class Overview {
    var prices: PriceMap
    var changes: map<string, Change>
    var loading: bool
    var error: Option<string>

    constructor ()
      ensures prices == map[] && changes == map[] && loading && error == None
    {
      prices := map[];
      changes := map[];
      loading := true;
      error := None;
    }

    /**
     * `fetchPrices` with the outcome of the price request for the watchlist.
     * An empty watchlist sends no request and only ends loading. A failed
     * request keeps prices and changes and reports the error. A successful
     * one replaces the prices by the snapshot, merges the new changes over
     * the old ones and clears the error. The snapshot answers a request
     * for the watchlist's symbols, so it holds no other key (as
     * `BinanceApi.TickerPrices` guarantees for the tickers of that request).
     */
    method FetchPrices(watchlist: seq<string>, poll: Result<PriceMap, FetchError>)
      requires poll.Success? ==> forall s :: s in poll.value ==> s in watchlist
      modifies this
      ensures !loading
      ensures watchlist == [] ==> prices == old(prices) && changes == old(changes) && error == old(error)
      ensures watchlist != [] && poll.Failure? ==>
        prices == old(prices) && changes == old(changes) && error == Some(FetchFailedMessage)
      ensures watchlist != [] && poll.Success? ==>
        && prices == poll.value
        && (forall s :: s in prices ==> s in watchlist)
        && changes == old(changes) + NewChanges(old(prices), poll.value)
        && error == None
    {
      if |watchlist| == 0 {
        loading := false;
        return;
      }
      match poll {
        case Success(data) =>
          var newChanges := ComputeChanges(prices, data);
          changes := changes + newChanges;
          prices := data;
          error := None;
        case Failure(_) =>
          error := Some(FetchFailedMessage);
      }
      loading := false;
    }
  }

  /**
   * After a successful poll: a symbol missing from the snapshot has no price,
   * a symbol without a new change keeps its old change, and a new change
   * overwrites the old one.
   */
  lemma PollMerge(oldPrices: PriceMap, oldChanges: map<string, Change>, data: PriceMap, s: string)
    ensures s !in data ==> s !in NewChanges(oldPrices, data)
    ensures s !in NewChanges(oldPrices, data) ==>
      (s in oldChanges + NewChanges(oldPrices, data) <==> s in oldChanges)
      && (s in oldChanges ==> (oldChanges + NewChanges(oldPrices, data))[s] == oldChanges[s])
    ensures s in NewChanges(oldPrices, data) ==>
      (oldChanges + NewChanges(oldPrices, data))[s] == NewChanges(oldPrices, data)[s]
  {
  }

  /** The price a row shows, or `None` for '-': an absent, `NaN` or zero price is falsy. */
  function PriceShown(prices: PriceMap, symbol: string): (r: Option<real>)
    ensures r.Some? <==> symbol in prices && prices[symbol].Some? && prices[symbol].value != 0.0
    ensures r.Some? ==> r.value == prices[symbol].value
  {
    if symbol in prices then
      match prices[symbol]
      case Some(p) => if p != 0.0 then Some(p) else None
      case None => None
    else None
  }

  /** The magnitude a change badge prints. */
  datatype Magnitude = Finite(value: real) | Infinite

  /** A change badge: the arrow (up or down) and the absolute change. */
  datatype Badge = Badge(up: bool, magnitude: Magnitude)

  /**
   * The change badge of a row: shown only when a change is stored (every
   * stored change is a number); the arrow points up exactly when the change
   * is at least zero, and the magnitude is its absolute value.
   */
  function ChangeShown(changes: map<string, Change>, symbol: string): (r: Option<Badge>)
    ensures r.Some? <==> symbol in changes
    ensures r.Some? ==> (r.value.up <==> changes[symbol] == PlusInfinity || (changes[symbol].Percent? && changes[symbol].value >= 0.0))
    ensures r.Some? && changes[symbol].Percent? ==>
      r.value.magnitude.Finite? && r.value.magnitude.value >= 0.0
      && (r.value.magnitude.value == changes[symbol].value || r.value.magnitude.value == -changes[symbol].value)
    ensures r.Some? && !changes[symbol].Percent? ==> r.value.magnitude == Infinite
  {
    if symbol !in changes then None
    else
      match changes[symbol]
      case Percent(v) => Some(Badge(v >= 0.0, Finite(if v >= 0.0 then v else -v)))
      case PlusInfinity => Some(Badge(true, Infinite))
      case MinusInfinity => Some(Badge(false, Infinite))
  }
}
