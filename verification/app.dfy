/**
 * The application's watchlist: an ordered list of symbols without repeats,
 * grown by appending and shrunk by filtering. Each operation returns the new
 * list, which replaces the old one wholesale.
 */
module App {
  import opened Wrappers
  import opened Sequences

  /** The list used when no saved watchlist exists. */
  const DefaultWatchlist: seq<string> := ["BTCUSDT", "ETHUSDT", "BNBUSDT"]

  /**
   * The initial watchlist: the saved list when storage holds one, otherwise
   * the default three symbols.
   */
  function InitialWatchlist(saved: Option<seq<string>>): (w: seq<string>)
    ensures saved.Some? ==> w == saved.value
    ensures saved.None? ==> w == DefaultWatchlist && NoDuplicates(w)
  {
    match saved
    case Some(list) => list
    case None => DefaultWatchlist
  }

  /** `addToWatchlist`: append the symbol unless it is already listed. */
  function AddToWatchlist(watchlist: seq<string>, symbol: string): (w: seq<string>)
    ensures symbol in w
    ensures symbol in watchlist ==> w == watchlist
    ensures symbol !in watchlist ==> |w| == |watchlist| + 1 && w[..|watchlist|] == watchlist && w[|watchlist|] == symbol
    ensures NoDuplicates(watchlist) ==> NoDuplicates(w)
  {
    if symbol !in watchlist then watchlist + [symbol] else watchlist
  }

  /** `removeFromWatchlist`: drop every occurrence of the symbol, keeping the others in order. */
  function RemoveFromWatchlist(watchlist: seq<string>, symbol: string): (w: seq<string>)
    ensures symbol !in w
    ensures forall s :: s in w <==> s in watchlist && s != symbol
    ensures |w| <= |watchlist|
  {
    Filter(s => s != symbol, watchlist)
  }

  /** Removing an unlisted symbol leaves the watchlist as it is. */
  lemma RemoveAbsentIsNoOp(watchlist: seq<string>, symbol: string)
    requires symbol !in watchlist
    ensures RemoveFromWatchlist(watchlist, symbol) == watchlist
  {
    FilterKeepsAll(s => s != symbol, watchlist);
  }

  /** Removal keeps the relative order: removing from a concatenation removes from each part. */
  lemma RemovePreservesOrder(front: seq<string>, back: seq<string>, symbol: string)
    ensures RemoveFromWatchlist(front + back, symbol) == RemoveFromWatchlist(front, symbol) + RemoveFromWatchlist(back, symbol)
  {
    FilterAppend(s => s != symbol, front, back);
  }

  /** Removal keeps a watchlist free of repeats. */
  lemma {:induction false} RemoveKeepsNoDuplicates(watchlist: seq<string>, symbol: string)
    requires NoDuplicates(watchlist)
    ensures NoDuplicates(RemoveFromWatchlist(watchlist, symbol))
  {
    if watchlist != [] {
      var rest := watchlist[1..];
      assert NoDuplicates(rest);
      RemoveKeepsNoDuplicates(rest, symbol);
      assert watchlist == [watchlist[0]] + rest;
      RemovePreservesOrder([watchlist[0]], rest, symbol);
      assert [watchlist[0]][1..] == [];
      var tail := RemoveFromWatchlist(rest, symbol);
      assert watchlist[0] !in tail by {
        assert watchlist[0] !in rest;
      }
    }
  }

  /** Adding a symbol and then removing it gives back a watchlist that did not hold it. */
  lemma AddThenRemove(watchlist: seq<string>, symbol: string)
    requires symbol !in watchlist
    ensures RemoveFromWatchlist(AddToWatchlist(watchlist, symbol), symbol) == watchlist
  {
    RemovePreservesOrder(watchlist, [symbol], symbol);
    RemoveAbsentIsNoOp(watchlist, symbol);
    assert [symbol][1..] == [];
  }
}
