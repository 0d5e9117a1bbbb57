/** ExchangeDataProxy.js: the simulated exchange's market state — balances
    ("stacks"), candles per pair, the market registry, the order queue and the
    wire line the queue is flushed as.

    The first half states every operation as a function on `ProxyState`; the
    class `ExchangeDataProxy` at the end keeps the same state in fields,
    updated in place, and each of its methods is proved to perform the
    corresponding function. */
module Exchange {
  import opened Wrappers
  import opened Strings
  import opened JsNumbers

  /** A stored candle field: a number, or the raw text for keys that are not coerced. */
  datatype Field = Num(value: real) | Str(text: string)

  /** A candle as an object of named fields. */
  type Candle = map<string, Field>

  /** The field order used until `candle_format` is set. */
  const DefaultCandleFormat: seq<string> := ["pair", "date", "high", "low", "open", "close", "volume"]

  /** An entry of the market registry. */
  datatype Market = Market(id: string, symbol: string, baseAsset: string, quoteAsset: string)

  /** The market argument of `addOrder`; its `id` may be undefined. */
  datatype OrderMarket = OrderMarket(id: Option<string>, base: string, quote: string, symbol: string)

  /** A queued order, as flushed to the engine. */
  datatype Order = Order(side: string, marketId: string, amount: real)

  /** The confirmation `addOrder` returns (its `cost` and `fee` are always
      undefined; its `price` is undefined for a sell on a candle without `close`). */
  datatype Receipt = Receipt(
    time: Option<real>, orderId: nat, orderType: string, side: string, price: Option<real>,
    amount: real, filled: real, remaining: real, status: string, symbol: string)

  /** Why an operation was refused. */
  datatype ProxyError =
    | MalformedBatch(text: string)
    | MalformedMarketId(marketId: string)
    | MissingMarketId
    | NoCandles(marketId: string)
    | NoClosePrice(marketId: string)
    | UnknownBalance(currency: string)
    | InsufficientFunds(side: string, amount: real, requiredAmount: real, currency: string, available: real)

  /** Everything the proxy holds. */
  datatype ProxyState = ProxyState(
    orderCount: nat,
    orders: seq<Order>,
    stacks: map<string, real>,
    markets: seq<Market>,
    candles: map<string, seq<Candle>>,
    lastDate: Option<real>,
    candleFormat: seq<string>)

  const InitialState: ProxyState := ProxyState(0, [], map[], [], map[], None, DefaultCandleFormat)

  // ---------------------------------------------------------------------------
  // Balances
  // ---------------------------------------------------------------------------

  /** One `asset:amount` entry: the asset is the text before the first `:`,
      the amount the text after it up to any second `:`, read by `parseFloat`. */
  function StackEntry(entry: string): Option<(string, real)>
  {
    var parts := Split(entry, ':');
    if |parts| < 2 then None
    else
      var amount := ParseFloat(parts[1]);
      if amount.None? then None else Some((parts[0], amount.value))
  }

  /** Every entry of a batch, converted. */
  function StackEntries(batch: string): (xs: seq<Option<(string, real)>>)
    ensures var entries := Split(batch, ',');
            && |xs| == |entries|
            && forall i :: 0 <= i < |entries| ==> xs[i] == StackEntry(entries[i])
  {
    var entries := Split(batch, ',');
    seq(|entries|, i requires 0 <= i < |entries| => StackEntry(entries[i]))
  }

  predicate AllSome<T>(xs: seq<Option<T>>)
  {
    forall i :: 0 <= i < |xs| ==> xs[i].Some?
  }

  /** The table obtained by installing the entries one after another into an empty table. */
  function Installed(xs: seq<Option<(string, real)>>): (table: map<string, real>)
    requires AllSome(xs)
    ensures forall a :: a in table <==> exists i :: 0 <= i < |xs| && xs[i].value.0 == a
  {
    if |xs| == 0 then map[]
    else
      var prefix := xs[..|xs| - 1];
      assert forall i :: 0 <= i < |prefix| ==> prefix[i] == xs[i];
      Installed(prefix)[xs[|xs| - 1].value.0 := xs[|xs| - 1].value.1]
  }

  /** An asset is mapped to the amount of its last entry: a later duplicate wins. */
  lemma {:induction false} InstalledLastWins(xs: seq<Option<(string, real)>>, i: nat)
    requires AllSome(xs) && i < |xs|
    requires forall j :: i < j < |xs| ==> xs[j].value.0 != xs[i].value.0
    ensures xs[i].value.0 in Installed(xs)
    ensures Installed(xs)[xs[i].value.0] == xs[i].value.1
  {
    if i < |xs| - 1 {
      var prefix := xs[..|xs| - 1];
      assert forall j :: 0 <= j < |prefix| ==> prefix[j] == xs[j];
      InstalledLastWins(prefix, i);
    }
  }

  /** `updateStacks`: a full replace of the balance table by the comma-separated batch. */
  function StacksUpdated(s: ProxyState, batch: string): Result<ProxyState, ProxyError>
  {
    var xs := StackEntries(batch);
    if AllSome(xs) then Success(s.(stacks := Installed(xs)))
    else Failure(MalformedBatch(batch))
  }

  /** After `updateStacks` the assets are exactly those named in the batch, each
      with the amount of its last entry, and nothing but the balances changed;
      a batch with an unreadable entry is refused. */
  lemma UpdateStacksReplaces(s: ProxyState, batch: string)
    ensures var r := StacksUpdated(s, batch);
            var xs := StackEntries(batch);
            && (r.Success? <==> forall i :: 0 <= i < |xs| ==> xs[i].Some?)
            && (r.Success? ==>
                  && r.value == s.(stacks := r.value.stacks)
                  && (forall a :: a in r.value.stacks <==> exists i :: 0 <= i < |xs| && xs[i].value.0 == a)
                  && (forall i :: 0 <= i < |xs| && (forall j :: i < j < |xs| ==> xs[j].value.0 != xs[i].value.0)
                        ==> r.value.stacks[xs[i].value.0] == xs[i].value.1))
  {
    var xs := StackEntries(batch);
    if AllSome(xs) {
      forall i | 0 <= i < |xs| && (forall j :: i < j < |xs| ==> xs[j].value.0 != xs[i].value.0)
        ensures Installed(xs)[xs[i].value.0] == xs[i].value.1
      {
        InstalledLastWins(xs, i);
      }
    }
  }

  // ---------------------------------------------------------------------------
  // Market registry
  // ---------------------------------------------------------------------------

  /** The registry entry for `QUOTE_BASE`: the text before the first `_` is the
      quote asset, the text after it (up to any second `_`) the base asset. */
  function MarketFrom(marketId: string): Option<Market>
  {
    var parts := Split(marketId, '_');
    if |parts| < 2 then None
    else Some(Market(marketId, parts[1] + "/" + parts[0], parts[1], parts[0]))
  }

  /** A market id splits when, and only when, it contains `_`; then `id` starts
      with `quote_base`, followed by nothing or by a further `_`. */
  lemma MarketFromSplits(marketId: string)
    ensures MarketFrom(marketId).Some? <==> '_' in marketId
    ensures MarketFrom(marketId).Some? ==>
      var m := MarketFrom(marketId).value;
      var n := |m.quoteAsset| + 1 + |m.baseAsset|;
      && m.id == marketId
      && m.symbol == m.baseAsset + "/" + m.quoteAsset
      && '_' !in m.quoteAsset && '_' !in m.baseAsset
      && n <= |marketId| && marketId[..n] == m.quoteAsset + "_" + m.baseAsset
      && (n == |marketId| || marketId[n] == '_')
  {
    var parts := Split(marketId, '_');
    SplitCount(marketId, '_');
    CountZero(marketId, '_');
    SplitPartsFree(marketId, '_');
    if |parts| >= 2 {
      JoinSplit(marketId, '_');
      var q, b := parts[0], parts[1];
      var tail := Join(parts[1..], '_');
      assert marketId == q + "_" + tail;
      assert parts[1..][0] == b;
      if |parts| == 2 {
        assert tail == b;
      } else {
        assert tail == b + "_" + Join(parts[2..], '_') by {
          assert parts[1..][1..] == parts[2..];
        }
      }
      var n := |q| + 1 + |b|;
      assert marketId[..n] == q + "_" + b;
    }
  }

  /** `addMarket`: appends one registry entry and changes nothing else. */
  function MarketAdded(s: ProxyState, marketId: string): Result<ProxyState, ProxyError>
  {
    var m := MarketFrom(marketId);
    if m.None? then Failure(MalformedMarketId(marketId)) else Success(s.(markets := s.markets + [m.value]))
  }

  /** `addMarket` of an id with `_` appends exactly one entry and keeps the
      earlier ones (a duplicate id is appended again); an id without `_` is
      refused with the registry unchanged. */
  lemma AddMarketAppends(s: ProxyState, marketId: string)
    ensures var r := MarketAdded(s, marketId);
            && (r.Success? <==> '_' in marketId)
            && (r.Failure? ==> r.error == MalformedMarketId(marketId))
            && (r.Success? ==>
                  && |r.value.markets| == |s.markets| + 1
                  && r.value.markets[..|s.markets|] == s.markets
                  && r.value.markets[|s.markets|] == MarketFrom(marketId).value
                  && r.value.markets[|s.markets|].id == marketId
                  && r.value == s.(markets := r.value.markets))
  {
    MarketFromSplits(marketId);
    var r := MarketAdded(s, marketId);
    if r.Success? {
      assert r.value.markets == s.markets + [MarketFrom(marketId).value];
    }
  }

  // ---------------------------------------------------------------------------
  // Candles
  // ---------------------------------------------------------------------------

  /** The keys read with `parseFloat`. */
  predicate IsPriceKey(key: string)
  {
    key == "high" || key == "low" || key == "open" || key == "close" || key == "volume"
  }

  /** `formatCandleValue`: `date` is coerced with `Number` and scaled from seconds
      to milliseconds, the price and volume keys are read with `parseFloat`, and
      every other key keeps its text. `None` is a value that would be NaN. */
  function FormatCandleValue(key: string, value: string): Option<Field>
  {
    if key == "date" then
      var d := ToNumber(value);
      if d.None? then None else Some(Num(d.value * 1000.0))
    else if IsPriceKey(key) then
      var x := ParseFloat(value);
      if x.None? then None else Some(Num(x.value))
    else Some(Str(value))
  }

  /** A date in seconds becomes milliseconds. */
  lemma FormatDate(n: nat)
    ensures FormatCandleValue("date", NatToString(n)) == Some(Num(n as real * 1000.0))
  {
    ToNumberNatToString(n);
  }

  /** A price or volume written in digits is read as that number. */
  lemma FormatPrice(key: string, n: nat)
    requires IsPriceKey(key)
    ensures FormatCandleValue(key, NatToString(n)) == Some(Num(n as real))
  {
    ParseFloatNat(n, "");
    assert NatToString(n) + "" == NatToString(n);
  }

  /** Any other key keeps its text. */
  lemma FormatOther(key: string, text: string)
    requires key != "date" && !IsPriceKey(key)
    ensures FormatCandleValue(key, text) == Some(Str(text))
  {
  }

  /** The fields of a group converted under the format's keys, position by position. */
  function FieldValues(format: seq<string>, fields: seq<string>): (vs: seq<Option<Field>>)
    requires |fields| <= |format|
    ensures |vs| == |fields|
    ensures forall i :: 0 <= i < |fields| ==> vs[i] == FormatCandleValue(format[i], fields[i])
  {
    seq(|fields|, i requires 0 <= i < |fields| => FormatCandleValue(format[i], fields[i]))
  }

  /** The candle object built from converted values, key by key; a later value
      with the same key overwrites an earlier one. */
  function Assemble(keys: seq<string>, vs: seq<Option<Field>>): Option<Candle>
    requires |vs| <= |keys|
  {
    if |vs| == 0 then Some(map[])
    else
      var n := |vs| - 1;
      var c := Assemble(keys, vs[..n]);
      if c.None? || vs[n].None? then None else Some(c.value[keys[n] := vs[n].value])
  }

  /** The candle is built exactly when every value converted. */
  lemma {:induction false} AssembleSome(keys: seq<string>, vs: seq<Option<Field>>)
    requires |vs| <= |keys|
    ensures Assemble(keys, vs).Some? <==> AllSome(vs)
  {
    if |vs| > 0 {
      var n := |vs| - 1;
      AssembleSome(keys, vs[..n]);
      assert AllSome(vs) <==> AllSome(vs[..n]) && vs[n].Some? by {
        if AllSome(vs[..n]) && vs[n].Some? {
          forall i | 0 <= i < |vs| ensures vs[i].Some? {
            if i < n { assert vs[..n][i] == vs[i]; }
          }
        }
      }
    }
  }

  /** Each key holds the value of its last position, and there are no other keys. */
  lemma {:induction false} AssembleValues(keys: seq<string>, vs: seq<Option<Field>>, i: nat)
    requires |vs| <= |keys| && Assemble(keys, vs).Some?
    requires i < |vs|
    requires forall j :: i < j < |vs| ==> keys[j] != keys[i]
    ensures vs[i].Some?
    ensures keys[i] in Assemble(keys, vs).value
    ensures Assemble(keys, vs).value[keys[i]] == vs[i].value
  {
    var n := |vs| - 1;
    if i < n {
      assert vs[..n][i] == vs[i];
      AssembleValues(keys, vs[..n], i);
    }
  }

  lemma {:induction false} AssembleKeys(keys: seq<string>, vs: seq<Option<Field>>)
    requires |vs| <= |keys| && Assemble(keys, vs).Some?
    ensures forall k :: k in Assemble(keys, vs).value <==> k in keys[..|vs|]
  {
    if |vs| > 0 {
      var n := |vs| - 1;
      AssembleKeys(keys, vs[..n]);
      assert keys[..|vs|] == keys[..n] + [keys[n]];
    }
  }

  /** `addCandleByString`'s object for one group: it exists exactly when every
      field converts; its keys are the first `|fields|` names of the format,
      and each holds the converted field at that name's last position. */
  lemma CandleFromFields(format: seq<string>, fields: seq<string>)
    requires |fields| <= |format|
    ensures var c := Assemble(format, FieldValues(format, fields));
            && (c.Some? <==> forall i :: 0 <= i < |fields| ==> FormatCandleValue(format[i], fields[i]).Some?)
            && (c.Some? ==> forall k :: k in c.value <==> k in format[..|fields|])
            && (c.Some? ==>
                  forall i :: 0 <= i < |fields| && (forall j :: i < j < |fields| ==> format[j] != format[i]) ==>
                    c.value[format[i]] == FormatCandleValue(format[i], fields[i]).value)
  {
    var vs := FieldValues(format, fields);
    AssembleSome(format, vs);
    var c := Assemble(format, vs);
    if c.Some? {
      AssembleKeys(format, vs);
      forall i | 0 <= i < |fields| && (forall j :: i < j < |fields| ==> format[j] != format[i])
        ensures c.value[format[i]] == FormatCandleValue(format[i], fields[i]).value
      {
        AssembleValues(format, vs, i);
      }
    }
  }

  /** The candle carries its pair as text. */
  predicate HasPair(c: Candle)
  {
    "pair" in c && c["pair"].Str?
  }

  function PairOf(c: Candle): string
    requires HasPair(c)
  {
    c["pair"].text
  }

  /** One `;`-group: split on `,`, converted field by field. More fields than
      keys, a field that does not convert, or a missing pair refuse the group;
      so does, when markets are being registered, a pair without `_`. */
  function ParseGroup(format: seq<string>, group: string, initializeMarkets: bool): (r: Result<Candle, ProxyError>)
    ensures r.Success? ==> HasPair(r.value)
    ensures r.Success? && initializeMarkets ==> MarketFrom(PairOf(r.value)).Some?
  {
    var fields := Split(group, ',');
    if |fields| > |format| then Failure(MalformedBatch(group))
    else
      var c := Assemble(format, FieldValues(format, fields));
      if c.None? || !HasPair(c.value) then Failure(MalformedBatch(group))
      else if initializeMarkets && MarketFrom(PairOf(c.value)).None? then Failure(MalformedMarketId(PairOf(c.value)))
      else Success(c.value)
  }

  /** The outcome of every group of a batch, position by position. */
  function GroupResults(format: seq<string>, groups: seq<string>, initializeMarkets: bool): (rs: seq<Result<Candle, ProxyError>>)
    ensures |rs| == |groups|
    ensures forall i :: 0 <= i < |groups| ==> rs[i] == ParseGroup(format, groups[i], initializeMarkets)
  {
    seq(|groups|, i requires 0 <= i < |groups| => ParseGroup(format, groups[i], initializeMarkets))
  }

  /** The values of all results in order, or the error of the first failure. */
  function Collect<T, E>(rs: seq<Result<T, E>>): (r: Result<seq<T>, E>)
    ensures r.Success? ==> |r.value| == |rs| && forall i :: 0 <= i < |rs| ==> rs[i] == Success(r.value[i])
  {
    if |rs| == 0 then Success([])
    else
      var n := |rs| - 1;
      var done := Collect(rs[..n]);
      if done.Failure? then done
      else if rs[n].Failure? then Failure(rs[n].error)
      else
        assert forall i :: 0 <= i < n ==> rs[..n][i] == rs[i];
        Success(done.value + [rs[n].value])
  }

  /** A failed prefix decides the outcome of the whole sequence. */
  lemma {:induction false} CollectFailureStays<T, E>(rs: seq<Result<T, E>>, k: nat)
    requires k <= |rs|
    requires Collect(rs[..k]).Failure?
    ensures Collect(rs) == Collect(rs[..k])
  {
    if k < |rs| {
      var n := |rs| - 1;
      assert rs[..n][..k] == rs[..k];
      CollectFailureStays(rs[..n], k);
    } else {
      assert rs[..k] == rs;
    }
  }

  /** Collecting one more result. */
  lemma CollectStep<T, E>(rs: seq<Result<T, E>>, i: nat, next: Result<T, E>)
    requires i < |rs| && rs[i] == next && Collect(rs[..i]).Success?
    ensures Collect(rs[..i + 1]) == if next.Failure? then Failure(next.error) else Success(Collect(rs[..i]).value + [next.value])
  {
    assert rs[..i + 1][..i] == rs[..i];
  }

  /** A failure is the first failing result's error. */
  lemma {:induction false} CollectFirstFailure<T, E>(rs: seq<Result<T, E>>)
    requires Collect(rs).Failure?
    ensures exists i :: 0 <= i < |rs| && rs[i] == Failure(Collect(rs).error) && forall j :: 0 <= j < i ==> rs[j].Success?
  {
    var n := |rs| - 1;
    assert forall i :: 0 <= i < n ==> rs[..n][i] == rs[i];
    if Collect(rs[..n]).Failure? {
      CollectFirstFailure(rs[..n]);
    } else {
      assert forall j :: 0 <= j < n ==> rs[j] == Success(Collect(rs[..n]).value[j]);
    }
  }

  /** All groups converted, in order; the first group that is refused decides the error. */
  function ParseGroups(format: seq<string>, groups: seq<string>, initializeMarkets: bool): Result<seq<Candle>, ProxyError>
  {
    Collect(GroupResults(format, groups, initializeMarkets))
  }

  /** The candles of a pair, or none. */
  function Series(candles: map<string, seq<Candle>>, pair: string): seq<Candle>
  {
    if pair in candles then candles[pair] else []
  }

  /** The numeric field `key` of a candle, when it has one. */
  function NumField(c: Candle, key: string): Option<real>
  {
    if key in c && c[key].Num? then Some(c[key].value) else None
  }

  /** `date` of a stored candle, when it has one. */
  function DateOf(c: Candle): Option<real>
  {
    NumField(c, "date")
  }

  predicate AllHavePair(cs: seq<Candle>, initializeMarkets: bool)
  {
    forall i :: 0 <= i < |cs| ==> HasPair(cs[i]) && (initializeMarkets ==> MarketFrom(PairOf(cs[i])).Some?)
  }

  /** `addCandle` (preceded by `addMarket` when markets are being registered):
      the pair is taken out of the candle, which is appended to that pair's
      series, and `lastDate` becomes the candle's date. */
  function CandleAdded(s: ProxyState, c: Candle, initializeMarkets: bool): ProxyState
    requires HasPair(c) && (initializeMarkets ==> MarketFrom(PairOf(c)).Some?)
  {
    var pair := PairOf(c);
    var stored := c - {"pair"};
    s.(markets := if initializeMarkets then s.markets + [MarketFrom(pair).value] else s.markets,
       candles := s.candles[pair := Series(s.candles, pair) + [stored]],
       lastDate := DateOf(stored))
  }

  /** The candles added one after another. */
  function CandlesCommitted(s: ProxyState, cs: seq<Candle>, initializeMarkets: bool): ProxyState
    requires AllHavePair(cs, initializeMarkets)
  {
    if |cs| == 0 then s
    else CandleAdded(CandlesCommitted(s, cs[..|cs| - 1], initializeMarkets), cs[|cs| - 1], initializeMarkets)
  }

  /** The stored candles of `pair` among `cs`, in input order, from the front. */
  function StoredFor(cs: seq<Candle>, pair: string): seq<Candle>
    requires AllHavePair(cs, false)
  {
    if |cs| == 0 then []
    else (if PairOf(cs[0]) == pair then [cs[0] - {"pair"}] else []) + StoredFor(cs[1..], pair)
  }

  /** Committing one more candle of a batch is one `CandleAdded` step. */
  lemma CommittedStep(s: ProxyState, cs: seq<Candle>, init: bool, j: nat)
    requires AllHavePair(cs, init) && j < |cs|
    ensures AllHavePair(cs[..j], init) && AllHavePair(cs[..j + 1], init)
    ensures HasPair(cs[j]) && (init ==> MarketFrom(PairOf(cs[j])).Some?)
    ensures CandlesCommitted(s, cs[..j + 1], init) == CandleAdded(CandlesCommitted(s, cs[..j], init), cs[j], init)
  {
    AllHavePairPrefix(cs, init, j);
    AllHavePairPrefix(cs, init, j + 1);
    assert cs[..j + 1][..j] == cs[..j] && cs[..j + 1][j] == cs[j];
  }

  /** The registry entries for the pairs among `cs`, in input order. */
  function MarketsFor(cs: seq<Candle>): seq<Market>
    requires AllHavePair(cs, true)
  {
    if |cs| == 0 then [] else [MarketFrom(PairOf(cs[0])).value] + MarketsFor(cs[1..])
  }

  lemma {:induction false} StoredForSnoc(cs: seq<Candle>, c: Candle, pair: string)
    requires AllHavePair(cs, false) && HasPair(c)
    ensures AllHavePair(cs + [c], false)
    ensures StoredFor(cs + [c], pair) == StoredFor(cs, pair) + (if PairOf(c) == pair then [c - {"pair"}] else [])
  {
    assert forall i :: 0 <= i < |cs| ==> (cs + [c])[i] == cs[i];
    if |cs| > 0 {
      assert (cs + [c])[1..] == cs[1..] + [c];
      assert forall i :: 0 <= i < |cs| - 1 ==> cs[1..][i] == cs[i + 1];
      StoredForSnoc(cs[1..], c, pair);
    } else {
      assert cs + [c] == [c];
    }
  }

  lemma {:induction false} MarketsForSnoc(cs: seq<Candle>, c: Candle)
    requires AllHavePair(cs, true) && HasPair(c) && MarketFrom(PairOf(c)).Some?
    ensures AllHavePair(cs + [c], true)
    ensures MarketsFor(cs + [c]) == MarketsFor(cs) + [MarketFrom(PairOf(c)).value]
  {
    assert forall i :: 0 <= i < |cs| ==> (cs + [c])[i] == cs[i];
    if |cs| > 0 {
      assert (cs + [c])[1..] == cs[1..] + [c];
      assert forall i :: 0 <= i < |cs| - 1 ==> cs[1..][i] == cs[i + 1];
      MarketsForSnoc(cs[1..], c);
    } else {
      assert cs + [c] == [c];
    }
  }

  lemma AllHavePairPrefix(cs: seq<Candle>, init: bool, n: nat)
    requires AllHavePair(cs, init) && n <= |cs|
    ensures AllHavePair(cs[..n], init) && AllHavePair(cs, false)
  {
    assert forall i :: 0 <= i < n ==> cs[..n][i] == cs[i];
  }

  /** Committing a batch appends, for every pair, exactly its candles of the
      batch in input order (without their `pair` field), and leaves the other
      pairs' series alone. */
  lemma {:induction false} CommittedSeries(s: ProxyState, cs: seq<Candle>, init: bool, pair: string)
    requires AllHavePair(cs, init)
    ensures AllHavePair(cs, false)
    ensures Series(CandlesCommitted(s, cs, init).candles, pair) == Series(s.candles, pair) + StoredFor(cs, pair)
  {
    AllHavePairPrefix(cs, init, |cs|);
    if |cs| > 0 {
      var n := |cs| - 1;
      var prefix := cs[..n];
      AllHavePairPrefix(cs, init, n);
      assert cs == prefix + [cs[n]];
      CommittedSeries(s, prefix, init, pair);
      StoredForSnoc(prefix, cs[n], pair);
      SeriesAdded(CandlesCommitted(s, prefix, init), cs[n], init, pair);
    }
  }

  /** Storing one candle extends its own pair's series by it and no other series. */
  lemma SeriesAdded(s: ProxyState, c: Candle, init: bool, pair: string)
    requires HasPair(c) && (init ==> MarketFrom(PairOf(c)).Some?)
    ensures Series(CandleAdded(s, c, init).candles, pair)
         == Series(s.candles, pair) + (if PairOf(c) == pair then [c - {"pair"}] else [])
  {
  }

  /** Committing registers one market per candle, in input order, when asked, and none otherwise. */
  lemma {:induction false} CommittedMarkets(s: ProxyState, cs: seq<Candle>, init: bool)
    requires AllHavePair(cs, init)
    ensures CandlesCommitted(s, cs, init).markets == s.markets + (if init then MarketsFor(cs) else [])
  {
    if |cs| > 0 {
      var n := |cs| - 1;
      var prefix := cs[..n];
      AllHavePairPrefix(cs, init, n);
      assert cs == prefix + [cs[n]];
      CommittedMarkets(s, prefix, init);
      if init {
        MarketsForSnoc(prefix, cs[n]);
      }
    }
  }

  /** Committing sets `lastDate` to the date of the last candle and touches
      neither balances, orders, the counter nor the format. */
  lemma {:induction false} CommittedRest(s: ProxyState, cs: seq<Candle>, init: bool)
    requires AllHavePair(cs, init)
    ensures var t := CandlesCommitted(s, cs, init);
            && (|cs| > 0 ==> t.lastDate == DateOf(cs[|cs| - 1] - {"pair"}))
            && t.stacks == s.stacks && t.orders == s.orders && t.orderCount == s.orderCount
            && t.candleFormat == s.candleFormat
  {
    if |cs| > 0 {
      AllHavePairPrefix(cs, init, |cs| - 1);
      CommittedRest(s, cs[..|cs| - 1], init);
    }
  }

  /** `addCandleByString`: every `;`-group of the batch becomes one candle,
      committed in order; a refused group refuses the whole batch. */
  function CandlesAdded(s: ProxyState, batch: string, initializeMarkets: bool): Result<ProxyState, ProxyError>
  {
    var parsed := ParseGroups(s.candleFormat, Split(batch, ';'), initializeMarkets);
    if parsed.Failure? then Failure(parsed.error)
    else
      assert AllHavePair(parsed.value, initializeMarkets);
      Success(CandlesCommitted(s, parsed.value, initializeMarkets))
  }

  /** An accepted batch has one candle per group, each the group's own
      outcome, and every candle carries its pair. */
  lemma GroupsParsed(format: seq<string>, groups: seq<string>, init: bool)
    requires ParseGroups(format, groups, init).Success?
    ensures var cs := ParseGroups(format, groups, init).value;
            && |cs| == |groups|
            && (forall i :: 0 <= i < |groups| ==> ParseGroup(format, groups[i], init) == Success(cs[i]))
            && AllHavePair(cs, init) && AllHavePair(cs, false)
  {
    var cs := ParseGroups(format, groups, init).value;
    assert AllHavePair(cs, init);
    AllHavePairPrefix(cs, init, |cs|);
  }

  /** An accepted batch adds exactly one candle per `;`-group to its pair's series,
      in input order, and `lastDate` ends as the last group's date. */
  lemma AddCandlesOnePerGroup(s: ProxyState, batch: string, init: bool)
    requires CandlesAdded(s, batch, init).Success?
    ensures var t := CandlesAdded(s, batch, init).value;
            var groups := Split(batch, ';');
            var cs := ParseGroups(s.candleFormat, groups, init).value;
            && |cs| == |groups|
            && (forall i :: 0 <= i < |groups| ==> ParseGroup(s.candleFormat, groups[i], init) == Success(cs[i]))
            && AllHavePair(cs, init) && AllHavePair(cs, false)
            && (forall pair :: Series(t.candles, pair) == Series(s.candles, pair) + StoredFor(cs, pair))
            && t.lastDate == DateOf(cs[|cs| - 1] - {"pair"})
            && t.markets == s.markets + (if init then MarketsFor(cs) else [])
            && t.stacks == s.stacks && t.orders == s.orders && t.orderCount == s.orderCount
  {
    var groups := Split(batch, ';');
    GroupsParsed(s.candleFormat, groups, init);
    var cs := ParseGroups(s.candleFormat, groups, init).value;
    var t := CandlesCommitted(s, cs, init);
    assert CandlesAdded(s, batch, init).value == t;
    forall pair ensures Series(t.candles, pair) == Series(s.candles, pair) + StoredFor(cs, pair) {
      CommittedSeries(s, cs, init, pair);
    }
    CommittedMarkets(s, cs, init);
    CommittedRest(s, cs, init);
  }

  /** `setCandleFormat`: the comma-separated field names become the format.
      The names are at least one and free of commas, so with `SplitJoin` they
      are the only such names that join to the format string. */
  function FormatSet(s: ProxyState, formatString: string): (t: ProxyState)
    ensures |t.candleFormat| >= 1
    ensures forall i :: 0 <= i < |t.candleFormat| ==> ',' !in t.candleFormat[i]
    ensures Join(t.candleFormat, ',') == formatString
    ensures t == s.(candleFormat := t.candleFormat)
  {
    JoinSplit(formatString, ',');
    SplitPartsFree(formatString, ',');
    s.(candleFormat := Split(formatString, ','))
  }

  /** The format string determines the format: any comma-free names that join
      to it are exactly the names installed. */
  lemma FormatSetUnique(s: ProxyState, formatString: string, names: seq<string>)
    requires |names| >= 1 && forall i :: 0 <= i < |names| ==> ',' !in names[i]
    requires Join(names, ',') == formatString
    ensures FormatSet(s, formatString).candleFormat == names
  {
    SplitJoin(names, ',');
  }

  // ---------------------------------------------------------------------------
  // Orders
  // ---------------------------------------------------------------------------

  /** The currency an order is paid in: the quote asset for a buy, the base asset otherwise. */
  function FundingCurrency(market: OrderMarket, side: string): string
  {
    if side == "buy" then market.quote else market.base
  }

  /** The market has a last candle; without one, reading its `close` is a TypeError. */
  predicate HasCandles(candles: map<string, seq<Candle>>, marketId: string)
  {
    marketId in candles && |candles[marketId]| > 0
  }

  /** The `close` of the market's last candle; undefined when that candle has none. */
  function LastClose(candles: map<string, seq<Candle>>, marketId: string): Option<real>
    requires HasCandles(candles, marketId)
  {
    NumField(candles[marketId][|candles[marketId]| - 1], "close")
  }

  /** The order can be priced: its market id is defined and has candles, and a
      buy, which is converted at the close, also has a close. */
  predicate Priced(s: ProxyState, market: OrderMarket, side: string)
  {
    && market.id.Some?
    && HasCandles(s.candles, market.id.value)
    && (side == "buy" ==> LastClose(s.candles, market.id.value).Some?)
  }

  /** The amount of the funding currency needed: `amount × close` for a buy, `amount` otherwise. */
  function RequiredAmount(s: ProxyState, market: OrderMarket, amount: real, side: string): real
    requires Priced(s, market, side)
  {
    if side == "buy" then amount * LastClose(s.candles, market.id.value).value else amount
  }

  /** `addOrder`: check, then commit. The order is refused, with nothing
      changed, when the market has no id or no candles, when a buy has no close
      price, when the funding balance was never recorded, or when it is below
      the required amount. Otherwise only the funding balance is debited
      (see `OrderNeverCredits` for when that is a decrease), the order is
      queued and the counter advances. */
  function OrderPlaced(s: ProxyState, market: OrderMarket, amount: real, side: string): (r: Result<(Receipt, ProxyState), ProxyError>)
    ensures market.id.None? ==> r == Failure(MissingMarketId)
    ensures market.id.Some? && !HasCandles(s.candles, market.id.value) ==> r == Failure(NoCandles(market.id.value))
    ensures (market.id.Some? && HasCandles(s.candles, market.id.value) && side == "buy"
             && LastClose(s.candles, market.id.value).None?)
              ==> r == Failure(NoClosePrice(market.id.value))
    ensures (Priced(s, market, side) && FundingCurrency(market, side) !in s.stacks)
              ==> r == Failure(UnknownBalance(FundingCurrency(market, side)))
    ensures (Priced(s, market, side) && FundingCurrency(market, side) in s.stacks
             && s.stacks[FundingCurrency(market, side)] < RequiredAmount(s, market, amount, side))
              ==> r == Failure(InsufficientFunds(side, amount, RequiredAmount(s, market, amount, side),
                                                 FundingCurrency(market, side), s.stacks[FundingCurrency(market, side)]))
    ensures r.Success? <==>
      && Priced(s, market, side)
      && FundingCurrency(market, side) in s.stacks
      && s.stacks[FundingCurrency(market, side)] >= RequiredAmount(s, market, amount, side)
    ensures r.Success? ==>
      var (receipt, t) := r.value;
      var currency := FundingCurrency(market, side);
      && t.stacks.Keys == s.stacks.Keys
      && t.stacks[currency] == s.stacks[currency] - RequiredAmount(s, market, amount, side)
      && t.stacks[currency] >= 0.0
      && (forall a :: a in s.stacks && a != currency ==> t.stacks[a] == s.stacks[a])
      && t.orders == s.orders + [Order(side, market.id.value, amount)]
      && t.orderCount == s.orderCount + 1
      && t.markets == s.markets && t.candles == s.candles && t.lastDate == s.lastDate
      && t.candleFormat == s.candleFormat
      && receipt == Receipt(s.lastDate, t.orderCount, "market", side, LastClose(s.candles, market.id.value),
                            amount, amount, 0.0, "open", market.symbol)
  {
    var currency := FundingCurrency(market, side);
    if market.id.None? then Failure(MissingMarketId)
    else
      var id := market.id.value;
      if !HasCandles(s.candles, id) then Failure(NoCandles(id))
      else
        var close := LastClose(s.candles, id);
        if side == "buy" && close.None? then Failure(NoClosePrice(id))
        else
          var required := RequiredAmount(s, market, amount, side);
          if currency !in s.stacks then Failure(UnknownBalance(currency))
          else
            var balance := s.stacks[currency];
            if balance < required then Failure(InsufficientFunds(side, amount, required, currency, balance))
            else
              var t := s.(stacks := s.stacks[currency := balance - required],
                          orders := s.orders + [Order(side, id, amount)],
                          orderCount := s.orderCount + 1);
              Success((Receipt(s.lastDate, t.orderCount, "market", side, close, amount, amount, 0.0, "open", market.symbol), t))
  }

  /** Worked example: with a last close of 10000 and 1000 USDT, buying 0.05 BTC
      on USDT_BTC spends 500 USDT; a further buy of 0.06 BTC (600 USDT) is
      refused and the 500 USDT stay. Successive orders are numbered 1, 2, ... */
  lemma BuyThenRefusedExample(s: ProxyState, c: Candle)
    requires s.orderCount == 0 && s.stacks == map["USDT" := 1000.0]
    requires "close" in c && c["close"] == Num(10000.0)
    requires s.candles == map["USDT_BTC" := [c]]
    ensures var market := OrderMarket(Some("USDT_BTC"), "BTC", "USDT", "BTC/USDT");
            var first := OrderPlaced(s, market, 0.05, "buy");
            && first.Success?
            && first.value.0.orderId == 1
            && first.value.1.stacks["USDT"] == 500.0
            && var second := OrderPlaced(first.value.1, market, 0.06, "buy");
               && second.Failure?
               && second.error == InsufficientFunds("buy", 0.06, 600.0, "USDT", 500.0)
  {
  }

  /** Worked example: a sell is not converted, so it needs no close. With 5 BTC
      and a last candle without `close`, selling 1 BTC leaves 4 BTC and the
      receipt's price is undefined. */
  lemma SellWithoutCloseExample(s: ProxyState)
    requires s.stacks == map["BTC" := 5.0] && s.candles == map["USDT_BTC" := [map[]]]
    ensures var r := OrderPlaced(s, OrderMarket(Some("USDT_BTC"), "BTC", "USDT", "BTC/USDT"), 1.0, "sell");
            && r.Success? && r.value.1.stacks["BTC"] == 4.0 && r.value.0.price == None
  {
  }

  /** With a non-negative amount and, for a buy, a non-negative close, an
      accepted order never raises the funding balance. */
  lemma OrderNeverCredits(s: ProxyState, market: OrderMarket, amount: real, side: string)
    requires OrderPlaced(s, market, amount, side).Success?
    requires amount >= 0.0
    requires market.id.Some? && HasCandles(s.candles, market.id.value)
    requires side == "buy" ==> LastClose(s.candles, market.id.value).Some? && LastClose(s.candles, market.id.value).value >= 0.0
    ensures var t := OrderPlaced(s, market, amount, side).value.1;
            var currency := FundingCurrency(market, side);
            && currency in s.stacks
            && t.stacks[currency] <= s.stacks[currency]
  {
    if side == "buy" {
      var close := LastClose(s.candles, market.id.value).value;
      assert amount * close >= 0.0;
    }
  }

  /** Worked example: nothing stops a negative close, and then a buy credits its
      funding currency. With 0 USDT and a last close of -5, buying 1 BTC is
      accepted and leaves 5 USDT. */
  lemma NegativeCloseCreditsExample(s: ProxyState)
    requires s.stacks == map["USDT" := 0.0] && s.candles == map["USDT_BTC" := [map["close" := Num(-5.0)]]]
    ensures var r := OrderPlaced(s, OrderMarket(Some("USDT_BTC"), "BTC", "USDT", "BTC/USDT"), 1.0, "buy");
            && r.Success? && r.value.1.stacks["USDT"] == 5.0
  {
  }

  // ---------------------------------------------------------------------------
  // Flushing the queue
  // ---------------------------------------------------------------------------

  /** One queued order on the wire: `side marketId amount`; `show` is the
      JavaScript conversion of a number to text. */
  function OrderLine(o: Order, show: real -> string): string
  {
    o.side + " " + o.marketId + " " + show(o.amount)
  }

  function OrderLines(orders: seq<Order>, show: real -> string): (lines: seq<string>)
    ensures |lines| == |orders|
    ensures forall i :: 0 <= i < |orders| ==> lines[i] == OrderLine(orders[i], show)
  {
    if |orders| == 0 then [] else [OrderLine(orders[0], show)] + OrderLines(orders[1..], show)
  }

  /** `flushOrders`' command: `pass` when the queue is empty, otherwise the
      order lines joined by `;`. */
  function OrderCommand(orders: seq<Order>, show: real -> string): string
  {
    if |orders| == 0 then "pass" else Join(OrderLines(orders, show), ';')
  }

  /** Text that can stand as one token of the command. */
  predicate TokenSafe(t: string)
  {
    ' ' !in t && ';' !in t
  }

  /** The engine reads the command back: split on `;` it gives one line per
      queued order, in queue order, and each line split on spaces gives
      `[side, marketId, amount]`. */
  lemma OrderCommandRoundTrip(orders: seq<Order>, show: real -> string)
    requires |orders| > 0
    requires forall i :: 0 <= i < |orders| ==> TokenSafe(orders[i].side) && TokenSafe(orders[i].marketId)
    requires forall x :: TokenSafe(show(x))
    ensures var lines := Split(OrderCommand(orders, show), ';');
            && |lines| == |orders|
            && forall i :: 0 <= i < |orders| ==>
                 Split(lines[i], ' ') == [orders[i].side, orders[i].marketId, show(orders[i].amount)]
  {
    var lines := OrderLines(orders, show);
    forall i | 0 <= i < |orders| ensures ';' !in lines[i] {
      assert TokenSafe(show(orders[i].amount));
    }
    SplitJoin(lines, ';');
    forall i | 0 <= i < |orders|
      ensures Split(lines[i], ' ') == [orders[i].side, orders[i].marketId, show(orders[i].amount)]
    {
      var o := orders[i];
      assert TokenSafe(show(o.amount));
      SplitThree(o.side, o.marketId, show(o.amount), ' ');
    }
  }

  /** The command is `pass` exactly when the queue is empty. */
  lemma OrderCommandPass(orders: seq<Order>, show: real -> string)
    ensures OrderCommand(orders, show) == "pass" <==> |orders| == 0
  {
    if |orders| > 0 {
      var lines := OrderLines(orders, show);
      var cmd := OrderCommand(orders, show);
      assert ' ' in lines[0] by {
        var o := orders[0];
        assert lines[0][|o.side|] == ' ';
      }
      JoinHolds(lines, ';', ' ');
      assert ' ' in cmd;
      assert ' ' !in "pass";
    }
  }

  /** A character of the first piece occurs in the join. */
  lemma {:induction false} JoinHolds(parts: seq<string>, sep: char, c: char)
    requires |parts| > 0 && c in parts[0]
    ensures c in Join(parts, sep)
  {
    if |parts| > 1 {
      assert Join(parts, sep) == parts[0] + ([sep] + Join(parts[1..], sep));
    }
  }

  // ---------------------------------------------------------------------------
  // The proxy object
  // ---------------------------------------------------------------------------

  /** The proxy, its state in fields that its methods update in place. */
  class ExchangeDataProxy {
    var orderCount: nat
    var orders: seq<Order>
    var stacks: map<string, real>
    var markets: seq<Market>
    var candles: map<string, seq<Candle>>
    var lastDate: Option<real>
    var candleIndexToKey: seq<string>

    /** The fields as one value. */
    function State(): ProxyState
      reads this
    {
      ProxyState(orderCount, orders, stacks, markets, candles, lastDate, candleIndexToKey)
    }

    constructor()
      ensures State() == InitialState
    {
      orderCount := 0;
      orders := [];
      stacks := map[];
      markets := [];
      candles := map[];
      lastDate := None;
      candleIndexToKey := DefaultCandleFormat;
    }

    method ClearStacks()
      modifies this
      ensures State() == old(State()).(stacks := map[])
    {
      stacks := map[];
    }

    method UpdateStack(asset: string, amount: real)
      modifies this
      ensures State() == old(State()).(stacks := old(stacks)[asset := amount])
    {
      stacks := stacks[asset := amount];
    }

    /** `getBalance`: the recorded amount, undefined for an asset never recorded. */
    function GetBalance(symbol: string): (balance: Option<real>)
      reads this
      ensures balance.Some? <==> symbol in stacks
      ensures balance.Some? ==> balance.value == stacks[symbol]
    {
      if symbol in stacks then Some(stacks[symbol]) else None
    }

    /** `getOrders`: the queue, in the order the orders were placed. */
    function GetOrders(): seq<Order>
      reads this
    {
      orders
    }

    /** `updateStacks`: clears the table, then installs each `asset:amount` entry in turn. */
    method UpdateStacks(batch: string) returns (outcome: Outcome<ProxyError>)
      modifies this
      ensures var r := StacksUpdated(old(State()), batch);
              && (r.Success? ==> outcome == Pass && State() == r.value)
              && (r.Failure? ==> outcome == Fail(r.error) && State() == old(State()))
    {
      var xs := StackEntries(batch);
      if !AllSome(xs) {
        return Fail(MalformedBatch(batch));
      }
      InstallStacks(xs);
      return Pass;
    }

    /** The body of `updateStacks` once every entry is read: clear the table,
        then record the entries in order. */
    method InstallStacks(xs: seq<Option<(string, real)>>)
      requires AllSome(xs)
      modifies this
      ensures State() == old(State()).(stacks := Installed(xs))
    {
      ClearStacks();
      var i := 0;
      while i < |xs|
        invariant 0 <= i <= |xs|
        invariant State() == old(State()).(stacks := Installed(xs[..i]))
      {
        var (asset, amount) := xs[i].value;
        UpdateStack(asset, amount);
        assert xs[..i + 1][..i] == xs[..i];
        i := i + 1;
      }
      assert xs[..i] == xs;
    }

    /** `addMarket`. */
    method AddMarket(marketId: string) returns (outcome: Outcome<ProxyError>)
      modifies this
      ensures var r := MarketAdded(old(State()), marketId);
              && (r.Success? ==> outcome == Pass && State() == r.value)
              && (r.Failure? ==> outcome == Fail(r.error) && State() == old(State()))
    {
      var parts := Split(marketId, '_');
      if |parts| < 2 {
        return Fail(MalformedMarketId(marketId));
      }
      var quote, base := parts[0], parts[1];
      var market := Market(marketId, base + "/" + quote, base, quote);
      markets := markets + [market];
      return Pass;
    }

    /** The field loop of `addCandleByString`: each field converted under the
        key at its position and stored, refusing the group at the first field
        that does not convert. */
    method ConvertFields(fields: seq<string>) returns (c: Option<Candle>)
      requires |fields| <= |candleIndexToKey|
      ensures c == Assemble(candleIndexToKey, FieldValues(candleIndexToKey, fields))
    {
      ghost var vs := FieldValues(candleIndexToKey, fields);
      var candleData: Candle := map[];
      var index := 0;
      while index < |fields|
        invariant 0 <= index <= |fields|
        invariant Assemble(candleIndexToKey, vs[..index]) == Some(candleData)
      {
        var key := candleIndexToKey[index];
        var value := FormatCandleValue(key, fields[index]);
        if value.None? {
          AssembleSome(candleIndexToKey, vs);
          return None;
        }
        assert vs[..index + 1][..index] == vs[..index] && vs[..index + 1][index] == value;
        candleData := candleData[key := value.value];
        index := index + 1;
      }
      assert vs[..index] == vs;
      return Some(candleData);
    }

    /** One group of `addCandleByString`, converted into a candle object. */
    method ParseCandle(group: string, initializeMarkets: bool) returns (r: Result<Candle, ProxyError>)
      ensures r == ParseGroup(candleIndexToKey, group, initializeMarkets)
    {
      var fields := Split(group, ',');
      if |fields| > |candleIndexToKey| {
        return Failure(MalformedBatch(group));
      }
      var candleData := ConvertFields(fields);
      if candleData.None? || !HasPair(candleData.value) {
        return Failure(MalformedBatch(group));
      }
      if initializeMarkets && MarketFrom(PairOf(candleData.value)).None? {
        return Failure(MalformedMarketId(PairOf(candleData.value)));
      }
      return Success(candleData.value);
    }

    /** `addCandle`: the pair is removed from the candle, the candle appended to
        its pair's series (created when absent) and `lastDate` updated. */
    method AddCandle(candleData: Candle)
      requires HasPair(candleData)
      modifies this
      ensures State() == CandleAdded(old(State()), candleData, false)
    {
      var marketId := PairOf(candleData);
      var stored := candleData - {"pair"};
      if marketId !in candles {
        candles := candles[marketId := []];
      }
      candles := candles[marketId := candles[marketId] + [stored]];
      lastDate := DateOf(stored);
    }

    /** The first loop of `addCandleByString`: every group converted, in order,
        stopping at the first group that is refused. */
    method ParseCandles(groups: seq<string>, initializeMarkets: bool) returns (r: Result<seq<Candle>, ProxyError>)
      ensures r == ParseGroups(candleIndexToKey, groups, initializeMarkets)
    {
      ghost var rs := GroupResults(candleIndexToKey, groups, initializeMarkets);
      var parsed: seq<Candle> := [];
      var i := 0;
      while i < |groups|
        invariant 0 <= i <= |groups|
        invariant Collect(rs[..i]) == Success(parsed)
      {
        var candleData := ParseCandle(groups[i], initializeMarkets);
        CollectStep(rs, i, candleData);
        if candleData.Failure? {
          CollectFailureStays(rs, i + 1);
          return Failure(candleData.error);
        }
        parsed := parsed + [candleData.value];
        i := i + 1;
      }
      assert rs[..i] == rs;
      return Success(parsed);
    }

    /** The second loop of `addCandleByString`: each candle stored in turn,
        its pair registered as a market first when asked. */
    method CommitCandles(parsed: seq<Candle>, initializeMarkets: bool)
      requires AllHavePair(parsed, initializeMarkets)
      modifies this
      ensures State() == CandlesCommitted(old(State()), parsed, initializeMarkets)
    {
      var j := 0;
      while j < |parsed|
        invariant 0 <= j <= |parsed|
        invariant State() == CandlesCommitted(old(State()), parsed[..j], initializeMarkets)
      {
        CommittedStep(old(State()), parsed, initializeMarkets, j);
        CommitCandle(parsed[j], initializeMarkets);
        j := j + 1;
      }
      assert parsed[..j] == parsed;
    }

    /** One candle of the second loop of `addCandleByString`. */
    method CommitCandle(candleData: Candle, initializeMarkets: bool)
      requires HasPair(candleData) && (initializeMarkets ==> MarketFrom(PairOf(candleData)).Some?)
      modifies this
      ensures State() == CandleAdded(old(State()), candleData, initializeMarkets)
    {
      if initializeMarkets {
        var _ := AddMarket(PairOf(candleData));
      }
      AddCandle(candleData);
    }

    /** `addCandleByString`: the groups are converted first, and committed in
        order (registering each pair as a market first when asked) only when
        every group converted. */
    method AddCandleByString(multiCandleString: string, initializeMarkets: bool) returns (outcome: Outcome<ProxyError>)
      modifies this
      ensures var r := CandlesAdded(old(State()), multiCandleString, initializeMarkets);
              && (r.Success? ==> outcome == Pass && State() == r.value)
              && (r.Failure? ==> outcome == Fail(r.error) && State() == old(State()))
    {
      var parsed := ParseCandles(Split(multiCandleString, ';'), initializeMarkets);
      if parsed.Failure? {
        return Fail(parsed.error);
      }
      assert AllHavePair(parsed.value, initializeMarkets);
      CommitCandles(parsed.value, initializeMarkets);
      return Pass;
    }

    /** `setCandleFormat`. */
    method SetCandleFormat(formatString: string)
      modifies this
      ensures State() == FormatSet(old(State()), formatString)
    {
      candleIndexToKey := Split(formatString, ',');
    }

    /** `addOrder`: prices a buy against the last close, refuses the order with
        nothing changed when it cannot be priced or funds are short, and otherwise debits the funding
        currency, queues the order and advances the counter. */
    method AddOrder(market: OrderMarket, amount: real, side: string) returns (r: Result<Receipt, ProxyError>)
      modifies this
      ensures var p := OrderPlaced(old(State()), market, amount, side);
              && (p.Success? ==> r == Success(p.value.0) && State() == p.value.1)
              && (p.Failure? ==> r == Failure(p.error) && State() == old(State()))
    {
      var requiredBalanceCurrency := if side == "buy" then market.quote else market.base;
      if market.id.None? {
        return Failure(MissingMarketId);
      }
      var id := market.id.value;
      if id !in candles || |candles[id]| == 0 {
        return Failure(NoCandles(id));
      }
      var candlesForMarket := candles[id];
      var last := candlesForMarket[|candlesForMarket| - 1];
      var tickerClosePrice := if "close" in last && last["close"].Num? then Some(last["close"].value) else None;
      if side == "buy" && tickerClosePrice.None? {
        return Failure(NoClosePrice(id));
      }
      var balance := GetBalance(requiredBalanceCurrency);
      var requiredAmount := amount;
      if side == "buy" {
        requiredAmount := requiredAmount * tickerClosePrice.value;
      }
      if balance.None? {
        return Failure(UnknownBalance(requiredBalanceCurrency));
      }
      if balance.value < requiredAmount {
        return Failure(InsufficientFunds(side, amount, requiredAmount, requiredBalanceCurrency, balance.value));
      }
      stacks := stacks[requiredBalanceCurrency := stacks[requiredBalanceCurrency] - requiredAmount];
      orders := orders + [Order(side, id, amount)];
      orderCount := orderCount + 1;
      return Success(Receipt(lastDate, orderCount, "market", side, tickerClosePrice, amount, amount, 0.0, "open", market.symbol));
    }

    /** `flushOrders`: the command written to the engine, `pass` exactly when
        nothing is queued; the queue is left as it is. */
    function FlushOrders(show: real -> string): (command: string)
      reads this
      ensures command == "pass" <==> |orders| == 0
    {
      OrderCommandPass(orders, show);
      OrderCommand(orders, show)
    }
  }
}
