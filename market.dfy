/**
 * The market snapshot as the core sees it, the analysis results it inspects, and the
 * pure selection behind the top-gainers command: a stable descending sort on one
 * percent-change field, cut to the first ten.
 */
module Market {
  import opened Common

  /** An abstract instant, standing for `datetime.datetime.now()`. */
  type Time = int

  /** One entry of the snapshot dict: the symbol (its key) and the numeric fields of its record. */
  datatype Coin = Coin(symbol: string, fields: map<string, real>)

  /**
   * The snapshot dict in insertion order; the order is what `sorted` sees. An empty
   * sequence stands for every falsy fetch result (`None` or `{}`).
   */
  type MarketData = seq<Coin>

  /** The keys of the snapshot dict. */
  function Listed(md: MarketData): set<string> {
    set c | c in md :: c.symbol
  }

  /** One analysis record; a Python dict, truthy when it has at least one entry. */
  datatype Analysis = Analysis(fields: map<string, real>)

  /** An analysis collaborator's result: symbol to record. */
  type Results = map<string, Analysis>

  /** `results.get(symbol, {})` is truthy. */
  predicate Reported(results: Results, symbol: string) {
    symbol in results && results[symbol].fields != map[]
  }

  /** The sort key of top_gainers: `record.get("percent_change_" + timeframe, 0)`. */
  function Key(c: Coin, timeframe: string): real {
    var field := "percent_change_" + timeframe;
    if field in c.fields then c.fields[field] else 0.0
  }

  ghost predicate Descending(s: seq<Coin>, timeframe: string) {
    forall i, j :: 0 <= i < j < |s| ==> Key(s[i], timeframe) >= Key(s[j], timeframe)
  }

  /** The coins of `s` whose key equals `k`, in their order in `s`. */
  function WithKey(s: seq<Coin>, timeframe: string, k: real): (r: seq<Coin>)
    ensures |r| <= |s|
  {
    if s == [] then [] else (if Key(s[0], timeframe) == k then [s[0]] else []) + WithKey(s[1..], timeframe, k)
  }

  /** Puts `c` before the first coin of `sorted` whose key is not larger. */
  function Insert(c: Coin, sorted: seq<Coin>, timeframe: string): (r: seq<Coin>)
    ensures multiset(r) == multiset(sorted) + multiset{c}
  {
    if sorted == [] || Key(sorted[0], timeframe) <= Key(c, timeframe) then [c] + sorted
    else
      assert sorted == [sorted[0]] + sorted[1..];
      [sorted[0]] + Insert(c, sorted[1..], timeframe)
  }

  /** Inserting a coin whose key is at most `bound` among such coins keeps every key at most `bound`. */
  lemma {:induction false} InsertBelow(c: Coin, sorted: seq<Coin>, timeframe: string, bound: real)
    requires Key(c, timeframe) <= bound
    requires forall i :: 0 <= i < |sorted| ==> Key(sorted[i], timeframe) <= bound
    ensures forall i :: 0 <= i < |Insert(c, sorted, timeframe)| ==> Key(Insert(c, sorted, timeframe)[i], timeframe) <= bound
  {
    if sorted == [] || Key(sorted[0], timeframe) <= Key(c, timeframe) {
      var r := [c] + sorted;
      forall i | 0 <= i < |r|
        ensures Key(r[i], timeframe) <= bound
      {
        if i > 0 {
          assert r[i] == sorted[i - 1];
        }
      }
    } else {
      var tail := sorted[1..];
      forall i | 0 <= i < |tail|
        ensures Key(tail[i], timeframe) <= bound
      {
        assert tail[i] == sorted[i + 1];
      }
      InsertBelow(c, tail, timeframe, bound);
      var rest := Insert(c, tail, timeframe);
      var r := [sorted[0]] + rest;
      forall i | 0 <= i < |r|
        ensures Key(r[i], timeframe) <= bound
      {
        if i > 0 {
          assert r[i] == rest[i - 1];
        }
      }
    }
  }

  lemma {:induction false} InsertDescending(c: Coin, sorted: seq<Coin>, timeframe: string)
    requires Descending(sorted, timeframe)
    ensures Descending(Insert(c, sorted, timeframe), timeframe)
  {
    if sorted == [] || Key(sorted[0], timeframe) <= Key(c, timeframe) {
      var r := [c] + sorted;
      forall i, j | 0 <= i < j < |r|
        ensures Key(r[i], timeframe) >= Key(r[j], timeframe)
      {
        if i == 0 {
          assert r[j] == sorted[j - 1];
        } else {
          assert r[i] == sorted[i - 1] && r[j] == sorted[j - 1];
        }
      }
    } else {
      var tail := sorted[1..];
      forall i, j | 0 <= i < j < |tail|
        ensures Key(tail[i], timeframe) >= Key(tail[j], timeframe)
      {
        assert tail[i] == sorted[i + 1] && tail[j] == sorted[j + 1];
      }
      forall i | 0 <= i < |tail|
        ensures Key(tail[i], timeframe) <= Key(sorted[0], timeframe)
      {
        assert tail[i] == sorted[i + 1];
      }
      InsertDescending(c, tail, timeframe);
      InsertBelow(c, tail, timeframe, Key(sorted[0], timeframe));
      var rest := Insert(c, tail, timeframe);
      var r := [sorted[0]] + rest;
      forall i, j | 0 <= i < j < |r|
        ensures Key(r[i], timeframe) >= Key(r[j], timeframe)
      {
        assert r[j] == rest[j - 1];
        if i > 0 {
          assert r[i] == rest[i - 1];
        }
      }
    }
  }

  /**
   * `sorted(coins, key=..., reverse=True)`: Python's sort is stable also when reversed,
   * so coins with equal keys keep their input order.
   */
  function SortDescending(s: seq<Coin>, timeframe: string): (r: seq<Coin>)
    ensures multiset(r) == multiset(s)
    ensures |r| == |s|
    ensures Descending(r, timeframe)
  {
    if s == [] then []
    else
      assert s == [s[0]] + s[1..];
      var t := SortDescending(s[1..], timeframe);
      InsertDescending(s[0], t, timeframe);
      var r := Insert(s[0], t, timeframe);
      assert |r| == |multiset(r)|;
      r
  }

  lemma WithKeyCons(x: Coin, s: seq<Coin>, timeframe: string, k: real)
    ensures WithKey([x] + s, timeframe, k) == (if Key(x, timeframe) == k then [x] else []) + WithKey(s, timeframe, k)
  {
    assert ([x] + s)[1..] == s;
  }

  lemma {:induction false} InsertWithKey(c: Coin, sorted: seq<Coin>, timeframe: string, k: real)
    ensures WithKey(Insert(c, sorted, timeframe), timeframe, k)
         == (if Key(c, timeframe) == k then [c] else []) + WithKey(sorted, timeframe, k)
  {
    if sorted == [] || Key(sorted[0], timeframe) <= Key(c, timeframe) {
      WithKeyCons(c, sorted, timeframe, k);
    } else {
      var tail := sorted[1..];
      var rest := Insert(c, tail, timeframe);
      InsertWithKey(c, tail, timeframe, k);
      WithKeyCons(sorted[0], rest, timeframe, k);
      assert sorted == [sorted[0]] + tail;
      WithKeyCons(sorted[0], tail, timeframe, k);
      var first, inserted := if Key(sorted[0], timeframe) == k then [sorted[0]] else [],
                             if Key(c, timeframe) == k then [c] else [];
      assert first + (inserted + WithKey(tail, timeframe, k)) == inserted + (first + WithKey(tail, timeframe, k));
    }
  }

  /** Stability: for every key, the coins with that key appear in the same order as in the input. */
  lemma {:induction false} SortStable(s: seq<Coin>, timeframe: string, k: real)
    ensures WithKey(SortDescending(s, timeframe), timeframe, k) == WithKey(s, timeframe, k)
  {
    if s != [] {
      SortStable(s[1..], timeframe, k);
      InsertWithKey(s[0], SortDescending(s[1..], timeframe), timeframe, k);
    }
  }

  const TOP_GAINERS_LIMIT: nat := 10

  /** The coins listed by the top-gainers command (main.py:190-195). */
  function TopGainers(md: MarketData, timeframe: string): (r: seq<Coin>)
    ensures |r| == Min(TOP_GAINERS_LIMIT, |md|)
    ensures r <= SortDescending(md, timeframe)
    ensures Descending(r, timeframe)
  {
    Take(SortDescending(md, timeframe), TOP_GAINERS_LIMIT)
  }

  /** An element counted in `s` but not in its first `n` elements lies after them. */
  lemma OutsidePrefix(s: seq<Coin>, n: nat, x: Coin)
    requires n <= |s| && x in multiset(s) - multiset(s[..n])
    ensures x in s[n..]
  {
    assert s == s[..n] + s[n..];
    assert multiset(s) == multiset(s[..n]) + multiset(s[n..]);
  }

  /** No coin left out of the top gainers has a larger key than any coin on the list. */
  lemma TopGainersAreTheLargest(md: MarketData, timeframe: string, x: Coin, y: Coin)
    requires x in multiset(md) - multiset(TopGainers(md, timeframe))
    requires y in TopGainers(md, timeframe)
    ensures Key(x, timeframe) <= Key(y, timeframe)
  {
    var sorted := SortDescending(md, timeframe);
    var top := TopGainers(md, timeframe);
    var n := |top|;
    assert top == sorted[..n];
    OutsidePrefix(sorted, n, x);
    var j :| n <= j < |sorted| && sorted[j] == x;
    var i :| 0 <= i < n && top[i] == y;
    assert sorted[i] == y;
  }

  /** The symbols of the listed coins, in order; a coin always has one, its key in the snapshot. */
  function CoinSymbols(cs: seq<Coin>): (syms: seq<string>)
    ensures |syms| == |cs|
    ensures forall i :: 0 <= i < |cs| ==> syms[i] == cs[i].symbol
  {
    if cs == [] then [] else [cs[0].symbol] + CoinSymbols(cs[1..])
  }

  /** `str.upper()` on one character, ASCII letters only. */
  function UpperChar(ch: char): char {
    if 'a' <= ch <= 'z' then ch - 'a' + 'A' else ch
  }

  function Upper(s: string): (r: string)
    ensures |r| == |s|
    ensures forall i :: 0 <= i < |s| ==> r[i] == UpperChar(s[i])
  {
    if s == [] then [] else [UpperChar(s[0])] + Upper(s[1..])
  }

  /** The upper-cased symbol has no lower-case letter left, and upper-casing it again changes nothing. */
  lemma UpperNormalises(s: string)
    ensures forall i :: 0 <= i < |s| ==> !('a' <= Upper(s)[i] <= 'z')
    ensures Upper(Upper(s)) == Upper(s)
  {
  }
}
