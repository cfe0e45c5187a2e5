/**
 * The data transforms of the exchange REST client: the kline normaliser, the
 * ticker price map, the trading-symbol filters and the HTTP status rule. The
 * requests themselves are not modelled: every operation takes the response,
 * status and already-decoded JSON body, as its input.
 */
module BinanceApi {
  import opened Wrappers
  import opened Sequences

  /** A scalar JSON value of a decoded response body. */
  datatype Json = JNull | JBool(b: bool) | JNum(n: real) | JStr(s: string)

  /** One element of the klines response: a JSON array of fields, or any other JSON value. */
  datatype RawRecord = RawArray(items: seq<Json>) | RawOther

  /**
   * JavaScript's two conversions of a string to a number: `parseFloat` reads
   * the longest numeric prefix and `Number` the whole string. `None` is `NaN`.
   */
  datatype StringNumbers = StringNumbers(parseFloat: string -> Option<real>, toNumber: string -> Option<real>)

  /** JavaScript truthiness of a JSON scalar (JSON has no `NaN`). */
  predicate Truthy(v: Json): (b: bool)
    ensures !b <==> v == JNull || v == JBool(false) || v == JNum(0.0) || v == JStr("")
  {
    match v
    case JNull => false
    case JBool(b) => b
    case JNum(n) => n != 0.0
    case JStr(s) => s != ""
  }

  /** `parseFloat(v)`: the value is first turned into its string form. */
  function ParseFloat(v: Json, conv: StringNumbers): (r: Option<real>)
    ensures v.JNum? ==> r == Some(v.n)
    ensures v.JNull? || v.JBool? ==> r == None
    ensures v.JStr? ==> r == conv.parseFloat(v.s)
  {
    match v
    case JNum(n) => Some(n)
    case JStr(s) => conv.parseFloat(s)
    case _ => None // "null", "true" and "false" have no numeric prefix
  }

  /** The numeric coercion `v / 1000` applies to its left operand. */
  function ToNumber(v: Json, conv: StringNumbers): (r: Option<real>)
    ensures !v.JStr? ==> r.Some?
    ensures v.JNum? ==> r == ParseFloat(v, conv)
    ensures v.JNull? ==> r == Some(0.0) && ParseFloat(v, conv) == None
    ensures v.JBool? ==> r == Some(if v.b then 1.0 else 0.0)
    ensures v.JStr? ==> r == conv.toNumber(v.s)
  {
    match v
    case JNum(n) => Some(n)
    case JStr(s) => conv.toNumber(s)
    case JNull => Some(0.0)
    case JBool(b) => Some(if b then 1.0 else 0.0)
  }

  /** `x || 0` on a number: `NaN` (and zero) become zero. */
  function OrZero(x: Option<real>): (r: real)
    ensures r == 0.0 <==> x == None || x == Some(0.0)
    ensures x.Some? ==> r == x.value
  {
    match x
    case Some(v) => v
    case None => 0.0
  }

  /** A normalised candle: time in seconds, prices and volume as numbers. */
  datatype Kline = Kline(time: real, open: real, high: real, low: real, close: real, volume: real)

  /** The first filter of `fetchKlines`: an array of at least six fields with truthy time and close. */
  predicate WellFormed(r: RawRecord): (b: bool)
    ensures b ==> r.RawArray? && |r.items| >= 6
    ensures b ==> r.items[0] !in {JNull, JNum(0.0), JStr("")} && r.items[4] !in {JNull, JNum(0.0), JStr("")}
  {
    r.RawArray? && |r.items| >= 6 && Truthy(r.items[0]) && Truthy(r.items[4])
  }

  /**
   * One record through `fetchKlines`' filter, map and filter stages. Each
   * stage looks at one record alone, so the chain is this per-record step
   * applied in order. The final `!isNaN(close)` test is always passed: the
   * `|| 0` of the map stage has already replaced `NaN` by zero.
   */
  function Normalize(r: RawRecord, conv: StringNumbers): (k: Option<Kline>)
    ensures k.Some? <==> WellFormed(r) && ToNumber(r.items[0], conv).Some? && ToNumber(r.items[0], conv).value > 0.0
    ensures k.Some? ==> k.value.time > 0.0 && k.value.time * 1000.0 == ToNumber(r.items[0], conv).value
    ensures k.Some? ==>
      && k.value.open == OrZero(ParseFloat(r.items[1], conv))
      && k.value.high == OrZero(ParseFloat(r.items[2], conv))
      && k.value.low == OrZero(ParseFloat(r.items[3], conv))
      && k.value.close == OrZero(ParseFloat(r.items[4], conv))
      && k.value.volume == OrZero(ParseFloat(r.items[5], conv))
  {
    if !WellFormed(r) then None
    else
      var fields := r.items;
      var time := match ToNumber(fields[0], conv) case Some(ms) => Some(ms / 1000.0) case None => None;
      match time
      case Some(t) =>
        if t > 0.0 then
          Some(Kline(t, OrZero(ParseFloat(fields[1], conv)), OrZero(ParseFloat(fields[2], conv)),
                     OrZero(ParseFloat(fields[3], conv)), OrZero(ParseFloat(fields[4], conv)),
                     OrZero(ParseFloat(fields[5], conv))))
        else None
      case None => None
  }

  /** The candles `fetchKlines` returns for a decoded klines body. */
  function NormalizeKlines(raw: seq<RawRecord>, conv: StringNumbers): (candles: seq<Kline>)
    ensures |candles| <= |raw|
    ensures forall k :: 0 <= k < |candles| ==> candles[k].time > 0.0
  {
    FilterMap(r => Normalize(r, conv), raw)
  }

  /** Normalising a concatenation normalises each part: order is preserved. */
  lemma NormalizeKlinesAppend(a: seq<RawRecord>, b: seq<RawRecord>, conv: StringNumbers)
    ensures NormalizeKlines(a + b, conv) == NormalizeKlines(a, conv) + NormalizeKlines(b, conv)
  {
    FilterMapAppend(r => Normalize(r, conv), a, b);
  }

  /**
   * A record that is not an array of six fields, or whose time or close field
   * is falsy, contributes nothing: the output is that of the input without it.
   */
  lemma NormalizeDropsMalformed(raw: seq<RawRecord>, i: nat, conv: StringNumbers)
    requires i < |raw| && !WellFormed(raw[i])
    ensures NormalizeKlines(raw, conv) == NormalizeKlines(raw[..i] + raw[i + 1..], conv)
  {
    var f := (r: RawRecord) => Normalize(r, conv);
    assert raw == raw[..i] + ([raw[i]] + raw[i + 1..]);
    FilterMapAppend(f, raw[..i], [raw[i]] + raw[i + 1..]);
    FilterMapAppend(f, [raw[i]], raw[i + 1..]);
    FilterMapSingle(f, raw[i]);
    FilterMapAppend(f, raw[..i], raw[i + 1..]);
  }

  /** A one-record body yields that record's candle, or nothing. */
  lemma NormalizeSingle(r: RawRecord, conv: StringNumbers)
    ensures NormalizeKlines([r], conv) == match Normalize(r, conv) case Some(k) => [k] case None => []
  {
    FilterMapSingle(r' => Normalize(r', conv), r);
  }

  /**
   * The REST path keeps the fractional seconds of a millisecond time; the
   * streaming path floors them, so the two disagree on a time such as 1500 ms.
   */
  function StreamCandleTime(ms: int): (t: int)
    ensures t * 1000 <= ms < t * 1000 + 1000
  {
    ms / 1000
  }

  lemma RestAndStreamTimesDiffer(conv: StringNumbers)
    ensures var r := RawArray([JNum(1500.0), JStr("1"), JStr("1"), JStr("1"), JNum(1.0), JStr("1")]);
      && Normalize(r, conv).Some?
      && Normalize(r, conv).value.time == 1.5
      && StreamCandleTime(1500) == 1
  {
  }

  /** Why a request failed: a non-success HTTP status. */
  datatype FetchError = HttpStatus(status: int)

  /** A received response: its status and its decoded body. */
  datatype Response<T> = Response(status: int, body: T) {
    /** The Fetch API's `response.ok`. */
    predicate Ok() { 200 <= status <= 299 }
  }

  /** `fetchKlines`: the normalised candles, or the status error. */
  function FetchKlines(response: Response<seq<RawRecord>>, conv: StringNumbers): (r: Result<seq<Kline>, FetchError>)
    ensures r.Failure? <==> !response.Ok()
    ensures r.Failure? ==> r.error == HttpStatus(response.status)
    ensures r.Success? ==> r.value == NormalizeKlines(response.body, conv)
  {
    if !response.Ok() then Failure(HttpStatus(response.status))
    else Success(NormalizeKlines(response.body, conv))
  }

  /** One entry of the ticker price list. */
  datatype Ticker = Ticker(symbol: string, price: string)

  /** Prices by symbol; `None` is a price that parsed to `NaN`. */
  type PriceMap = map<string, Option<real>>

  /**
   * The price map `fetchSymbolsPrice` builds from the first `|tickers|`
   * entries: each requested symbol that occurs is mapped to the parsed price
   * of its last occurrence.
   */
  function TickerPrices(tickers: seq<Ticker>, symbols: seq<string>, parse: string -> Option<real>): (m: PriceMap)
    ensures forall s :: s in m <==> s in symbols && exists i :: 0 <= i < |tickers| && tickers[i].symbol == s
    decreases |tickers|
  {
    if tickers == [] then map[]
    else
      var n := |tickers| - 1;
      var m := TickerPrices(tickers[..n], symbols, parse);
      assert forall i :: 0 <= i < n ==> tickers[..n][i] == tickers[i];
      if tickers[n].symbol in symbols then m[tickers[n].symbol := parse(tickers[n].price)] else m
  }

  /** The value for a symbol is the parsed price of its last occurrence in the list. */
  lemma {:induction false} LastTickerWins(tickers: seq<Ticker>, symbols: seq<string>, parse: string -> Option<real>, i: nat)
    requires i < |tickers| && tickers[i].symbol in symbols
    requires forall j :: i < j < |tickers| ==> tickers[j].symbol != tickers[i].symbol
    ensures tickers[i].symbol in TickerPrices(tickers, symbols, parse)
    ensures TickerPrices(tickers, symbols, parse)[tickers[i].symbol] == parse(tickers[i].price)
  {
    var n := |tickers| - 1;
    if i < n {
      assert tickers[..n][i] == tickers[i];
      LastTickerWins(tickers[..n], symbols, parse, i);
    }
  }

  /** The `forEach` loop of `fetchSymbolsPrice`, filling the price map entry by entry. */
  method CollectPrices(tickers: seq<Ticker>, symbols: seq<string>, parse: string -> Option<real>) returns (priceMap: PriceMap)
    ensures priceMap == TickerPrices(tickers, symbols, parse)
  {
    priceMap := map[];
    for i := 0 to |tickers|
      invariant priceMap == TickerPrices(tickers[..i], symbols, parse)
    {
      assert tickers[..i + 1][..i] == tickers[..i];
      if tickers[i].symbol in symbols {
        priceMap := priceMap[tickers[i].symbol := parse(tickers[i].price)];
      }
    }
    assert tickers[..|tickers|] == tickers;
  }

  /** `fetchSymbolsPrice`: the price map of the requested symbols, or the status error. */
  method FetchSymbolsPrice(response: Response<seq<Ticker>>, symbols: seq<string>, parse: string -> Option<real>)
    returns (r: Result<PriceMap, FetchError>)
    ensures r.Failure? <==> !response.Ok()
    ensures r.Failure? ==> r.error == HttpStatus(response.status)
    ensures r.Success? ==> r.value == TickerPrices(response.body, symbols, parse)
  {
    if !response.Ok() {
      return Failure(HttpStatus(response.status));
    }
    var priceMap := CollectPrices(response.body, symbols, parse);
    return Success(priceMap);
  }

  /** One entry of the exchange's symbol list. */
  datatype SymbolInfo = SymbolInfo(symbol: string, status: string, baseAsset: string, quoteAsset: string)

  /** The projection `searchSymbols` returns. */
  datatype SymbolSummary = SymbolSummary(symbol: string, baseAsset: string, quoteAsset: string)

  const Trading: string := "TRADING"

  predicate IsTrading(info: SymbolInfo) { info.status == Trading }

  function Summarize(info: SymbolInfo): SymbolSummary
  {
    SymbolSummary(info.symbol, info.baseAsset, info.quoteAsset)
  }

  /** The trading entries, projected, in list order. */
  function TradingSummaries(infos: seq<SymbolInfo>): (r: seq<SymbolSummary>)
    ensures |r| <= |infos|
    ensures forall x :: x in r <==> exists i :: 0 <= i < |infos| && IsTrading(infos[i]) && Summarize(infos[i]) == x
  {
    var trading := Filter(IsTrading, infos);
    var r := Map(Summarize, trading);
    assert forall x :: x in r ==> exists i :: 0 <= i < |infos| && IsTrading(infos[i]) && Summarize(infos[i]) == x by {
      forall x | x in r ensures exists i :: 0 <= i < |infos| && IsTrading(infos[i]) && Summarize(infos[i]) == x {
        var k :| 0 <= k < |r| && r[k] == x;
        assert trading[k] in infos;
        var i :| 0 <= i < |infos| && infos[i] == trading[k];
      }
    }
    assert forall i :: 0 <= i < |infos| && IsTrading(infos[i]) ==> Summarize(infos[i]) in r by {
      forall i | 0 <= i < |infos| && IsTrading(infos[i]) ensures Summarize(infos[i]) in r {
        assert infos[i] in trading;
        var k :| 0 <= k < |trading| && trading[k] == infos[i];
        assert r[k] == Summarize(infos[i]);
      }
    }
    r
  }

  /** The trading list keeps input order: projecting a concatenation projects each part. */
  lemma TradingSummariesAppend(a: seq<SymbolInfo>, b: seq<SymbolInfo>)
    ensures TradingSummaries(a + b) == TradingSummaries(a) + TradingSummaries(b)
  {
    FilterAppend(IsTrading, a, b);
    MapAppend(Summarize, Filter(IsTrading, a), Filter(IsTrading, b));
  }

  /** A single entry is kept, projected, exactly when it is trading. */
  lemma TradingSummariesSingle(info: SymbolInfo)
    ensures TradingSummaries([info]) == if IsTrading(info) then [Summarize(info)] else []
  {
    assert [info][1..] == [];
  }

  /** `String.prototype.toLowerCase` on ASCII letters; other characters are kept. */
  function Lower(s: string): (r: string)
    ensures |r| == |s|
    ensures forall i :: 0 <= i < |s| && 'A' <= s[i] <= 'Z' ==> r[i] as int == s[i] as int + 32
    ensures forall i :: 0 <= i < |s| && !('A' <= s[i] <= 'Z') ==> r[i] == s[i]
    ensures forall i :: 0 <= i < |s| ==> !('A' <= r[i] <= 'Z')
  {
    seq(|s|, i requires 0 <= i < |s| => if 'A' <= s[i] <= 'Z' then (s[i] as int + 32) as char else s[i])
  }

  /** `hay.includes(needle)`: the needle occurs as a contiguous run of the hay, from some position on. */
  predicate Includes(hay: string, needle: string): (found: bool)
    ensures found ==> |needle| <= |hay|
    ensures needle == [] ==> found
    decreases |hay|
  {
    |needle| <= |hay| && (hay[..|needle|] == needle || Includes(hay[1..], needle))
  }

  /** The needle occurs in the hay starting at position `i`. */
  predicate OccursAt(hay: string, needle: string, i: nat)
  {
    i + |needle| <= |hay| && hay[i..i + |needle|] == needle
  }

  /** What is found occurs at some position: with `IncludesAt`, `Includes` is substring containment. */
  lemma {:induction false} IncludesOccurs(hay: string, needle: string)
    requires Includes(hay, needle)
    ensures exists i: nat :: OccursAt(hay, needle, i)
    decreases |hay|
  {
    if hay[..|needle|] == needle {
      assert OccursAt(hay, needle, 0);
    } else {
      IncludesOccurs(hay[1..], needle);
      var i: nat :| OccursAt(hay[1..], needle, i);
      assert hay[1..][i..i + |needle|] == hay[i + 1..i + 1 + |needle|];
      assert OccursAt(hay, needle, i + 1);
    }
  }

  /** A run of the hay at any position is found. */
  lemma {:induction false} IncludesAt(hay: string, needle: string, i: nat)
    requires i + |needle| <= |hay| && hay[i..i + |needle|] == needle
    ensures Includes(hay, needle)
    decreases i
  {
    if i > 0 {
      assert hay[1..][i - 1..i - 1 + |needle|] == hay[i..i + |needle|];
      IncludesAt(hay[1..], needle, i - 1);
    }
  }

  /** Case is ignored on both sides: "btc" finds the BTC/USDT pair by its symbol and its base asset. */
  lemma SearchIgnoresCase()
    ensures MatchesQuery("btc", SymbolSummary("BTCUSDT", "BTC", "USDT"))
    ensures !MatchesQuery("eth", SymbolSummary("BTCUSDT", "BTC", "USDT"))
  {
    assert Lower("BTC") == "btc";
    assert Lower("btc") == "btc";
    IncludesAt(Lower("BTC"), Lower("btc"), 0);
    assert Lower("eth") == "eth";
    assert Lower("BTCUSDT") == "btcusdt";
    assert Lower("USDT") == "usdt";
    FirstCharMissing("btcusdt", "eth");
    FirstCharMissing("btc", "eth");
    FirstCharMissing("usdt", "eth");
  }

  /** A needle whose first character does not occur in the hay is not found. */
  lemma {:induction false} FirstCharMissing(hay: string, needle: string)
    requires needle != [] && needle[0] !in hay
    ensures !Includes(hay, needle)
    decreases |hay|
  {
    if |needle| <= |hay| {
      assert hay[..|needle|][0] == hay[0];
      FirstCharMissing(hay[1..], needle);
    }
  }

  /** The search filter: the lower-cased query occurs in the lower-cased symbol, base or quote asset. */
  predicate MatchesQuery(query: string, item: SymbolSummary): (m: bool)
    ensures query == "" ==> m
  {
    var q := Lower(query);
    Includes(Lower(item.symbol), q) || Includes(Lower(item.baseAsset), q) || Includes(Lower(item.quoteAsset), q)
  }

  /** Lower-casing twice is lower-casing once. */
  lemma LowerIdempotent(s: string)
    ensures Lower(Lower(s)) == Lower(s)
  {
  }

  /** The query's case does not matter: a query matches exactly when its lower-cased form does. */
  lemma MatchesQueryIgnoresQueryCase(query: string, item: SymbolSummary)
    ensures MatchesQuery(query, item) == MatchesQuery(Lower(query), item)
  {
    LowerIdempotent(query);
  }

  /** The search keeps input order: searching a concatenation searches each part. */
  lemma FilterSymbolsAppend(a: seq<SymbolInfo>, b: seq<SymbolInfo>, query: string)
    ensures FilterSymbols(a + b, query) == FilterSymbols(a, query) + FilterSymbols(b, query)
  {
    TradingSummariesAppend(a, b);
    if query != "" {
      FilterAppend(item => MatchesQuery(query, item), TradingSummaries(a), TradingSummaries(b));
    }
  }

  /**
   * The body of `searchSymbols`: the trading entries, projected, narrowed to
   * the query's matches when the query is non-empty, in list order.
   */
  function FilterSymbols(infos: seq<SymbolInfo>, query: string): (r: seq<SymbolSummary>)
    ensures |r| <= |infos|
    ensures forall x :: x in r <==>
      (exists i :: 0 <= i < |infos| && IsTrading(infos[i]) && Summarize(infos[i]) == x)
      && (query != "" ==> MatchesQuery(query, x))
    ensures query == "" ==> r == TradingSummaries(infos)
  {
    var symbols := TradingSummaries(infos);
    if query != "" then Filter(item => MatchesQuery(query, item), symbols) else symbols
  }

  /** `searchSymbols`: the matching trading symbols, or the status error. */
  function SearchSymbols(response: Response<seq<SymbolInfo>>, query: string): (r: Result<seq<SymbolSummary>, FetchError>)
    ensures r.Failure? <==> !response.Ok()
    ensures r.Failure? ==> r.error == HttpStatus(response.status)
    ensures r.Success? ==> r.value == FilterSymbols(response.body, query)
  {
    if !response.Ok() then Failure(HttpStatus(response.status))
    else Success(FilterSymbols(response.body, query))
  }

  /** The body of `fetchSymbols`: the names of the trading entries, in list order. */
  function TradingSymbols(infos: seq<SymbolInfo>): (r: seq<string>)
    ensures forall s :: s in r <==> exists i :: 0 <= i < |infos| && IsTrading(infos[i]) && infos[i].symbol == s
  {
    var trading := Filter(IsTrading, infos);
    var r := Map((info: SymbolInfo) => info.symbol, trading);
    assert forall s :: s in r ==> exists i :: 0 <= i < |infos| && IsTrading(infos[i]) && infos[i].symbol == s by {
      forall s | s in r ensures exists i :: 0 <= i < |infos| && IsTrading(infos[i]) && infos[i].symbol == s {
        var k :| 0 <= k < |r| && r[k] == s;
        assert trading[k] in infos;
        var i :| 0 <= i < |infos| && infos[i] == trading[k];
      }
    }
    assert forall i :: 0 <= i < |infos| && IsTrading(infos[i]) ==> infos[i].symbol in r by {
      forall i | 0 <= i < |infos| && IsTrading(infos[i]) ensures infos[i].symbol in r {
        assert infos[i] in trading;
        var k :| 0 <= k < |trading| && trading[k] == infos[i];
        assert r[k] == infos[i].symbol;
      }
    }
    r
  }

  /** The symbol list keeps input order: listing a concatenation lists each part. */
  lemma TradingSymbolsAppend(a: seq<SymbolInfo>, b: seq<SymbolInfo>)
    ensures TradingSymbols(a + b) == TradingSymbols(a) + TradingSymbols(b)
  {
    FilterAppend(IsTrading, a, b);
    MapAppend((info: SymbolInfo) => info.symbol, Filter(IsTrading, a), Filter(IsTrading, b));
  }

  /** `fetchSymbols` lists exactly the symbols of an unfiltered search, in the same order. */
  lemma TradingSymbolsAreSearchSymbols(infos: seq<SymbolInfo>)
    ensures TradingSymbols(infos) == Map((x: SymbolSummary) => x.symbol, FilterSymbols(infos, ""))
  {
    var a := TradingSymbols(infos);
    var b := Map((x: SymbolSummary) => x.symbol, FilterSymbols(infos, ""));
    assert |a| == |b|;
    forall k | 0 <= k < |a| ensures a[k] == b[k] {
    }
  }

  /** `fetchSymbols`: the trading symbol names, or the status error. */
  function FetchSymbols(response: Response<seq<SymbolInfo>>): (r: Result<seq<string>, FetchError>)
    ensures r.Failure? <==> !response.Ok()
    ensures r.Failure? ==> r.error == HttpStatus(response.status)
    ensures r.Success? ==> r.value == TradingSymbols(response.body)
  {
    if !response.Ok() then Failure(HttpStatus(response.status))
    else Success(TradingSymbols(response.body))
  }
}
