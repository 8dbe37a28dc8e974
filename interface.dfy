/** The rate commands of the command-line interface
    (valutatrade_hub/cli/interface.py): the pair-map transforms of
    `show-rates` (--currency, --top, --base, the final sort) and the choice
    of clients in `update-rates`. The pairs come in the order of the cache
    file; nothing is printed: a command's result is the outcome it would
    display. */
module Interface {
  import opened Text
  import opened Results
  import PyDict
  import opened PairKeys
  import opened Storage
  import opened ParserConfig
  import opened Updater
  import ApiClients

  /** The "pairs" object of the cache in file order. */
  type Pairs = PyDict.Dict<CacheEntry>

  /** The FROM part of a key: what `key.split("_")[0]` gives. */
  function FromOf(key: string): string
  {
    Split(key, '_')[0]
  }

  /** Every key unpacks into exactly two pieces. */
  predicate AllUnpack(pairs: Pairs)
  {
    forall i :: 0 <= i < |pairs| ==> |Split(pairs[i].0, '_')| == 2
  }

  // ---------------------------------------------------------------------------
  // Selecting pairs by their FROM code (--currency, the crypto part of --top)
  // ---------------------------------------------------------------------------

  /** The pairs whose FROM code passes `keep`, in order: the reference the
      selection loop is proved against. */
  function Selected(pairs: Pairs, keep: string -> bool): Pairs
  {
    if |pairs| == 0 then []
    else
      var n := |pairs| - 1;
      Selected(pairs[..n], keep) + (if keep(FromOf(pairs[n].0)) then [pairs[n]] else [])
  }

  /** An entry is selected exactly when it is one of the pairs and its FROM
      code passes. */
  lemma {:induction false} SelectedMembers(pairs: Pairs, keep: string -> bool, x: (string, CacheEntry))
    ensures x in Selected(pairs, keep) <==> x in pairs && keep(FromOf(x.0))
  {
    if |pairs| > 0 {
      var n := |pairs| - 1;
      SelectedMembers(pairs[..n], keep, x);
      assert pairs == pairs[..n] + [pairs[n]];
    }
  }

  /** The selection loop over the first pairs: `a, b = key.split("_")` on
      every key, then `selected[key] = data` when the FROM code passes. */
  function Keep(pairs: Pairs, keep: string -> bool): Result<Pairs, string>
  {
    if |pairs| == 0 then Ok([])
    else
      var n := |pairs| - 1;
      match Keep(pairs[..n], keep)
      case Err(e) => Err(e)
      case Ok(acc) =>
        match Unpack(pairs[n].0)
        case Err(e) => Err(e)
        case Ok((from, _)) => Ok(if keep(from) then PyDict.Put(acc, pairs[n].0, pairs[n].1) else acc)
  }

  /** The loop raises exactly when some key does not unpack; otherwise it
      keeps exactly the selected pairs, in the order of the cache. */
  lemma {:induction false} KeepIsSelected(pairs: Pairs, keep: string -> bool)
    requires PyDict.DistinctKeys(pairs)
    ensures Keep(pairs, keep).Ok? <==> AllUnpack(pairs)
    ensures Keep(pairs, keep).Ok? ==> Keep(pairs, keep).value == Selected(pairs, keep)
  {
    if |pairs| > 0 {
      var n := |pairs| - 1;
      var init := pairs[..n];
      PyDict.KeySetSnoc(pairs);
      KeepIsSelected(init, keep);
      assert forall i :: 0 <= i < n ==> init[i] == pairs[i];
      if Keep(init, keep).Ok? && Unpack(pairs[n].0).Ok? && keep(FromOf(pairs[n].0)) {
        var acc := Selected(init, keep);
        var key := pairs[n].0;
        if key in PyDict.KeySet(acc) {
          var i :| 0 <= i < |acc| && acc[i].0 == key;
          assert acc[i] in acc;
          SelectedMembers(init, keep, acc[i]);
          assert false;
        }
        PyDict.PutOrder(acc, key, pairs[n].1);
      }
    }
  }

  /** The selection loop, as `cmd_show_rates` writes it. */
  method KeepPairs(pairs: Pairs, keep: string -> bool) returns (r: Result<Pairs, string>)
    ensures r == Keep(pairs, keep)
  {
    var selected: Pairs := [];
    for i := 0 to |pairs|
      invariant Keep(pairs[..i], keep) == Ok(selected)
    {
      assert pairs[..i + 1][..i] == pairs[..i];
      var (key, data) := pairs[i];
      var parts := Unpack(key);
      if parts.Err? {
        KeepErrorSticks(pairs, keep, i + 1);
        return Err(parts.error);
      }
      if keep(parts.value.0) {
        selected := PyDict.Put(selected, key, data);
      }
    }
    assert pairs[..|pairs|] == pairs;
    return Ok(selected);
  }

  lemma {:induction false} KeepErrorSticks(pairs: Pairs, keep: string -> bool, n: nat)
    requires n <= |pairs| && Keep(pairs[..n], keep).Err?
    ensures Keep(pairs, keep) == Keep(pairs[..n], keep)
    decreases |pairs| - n
  {
    if n < |pairs| {
      assert pairs[..n + 1][..n] == pairs[..n];
      KeepErrorSticks(pairs, keep, n + 1);
    } else {
      assert pairs[..n] == pairs;
    }
  }

  /** `--currency C`: the FROM code is `C.upper()`. */
  function IsCode(code: string): string -> bool
  {
    (from: string) => from == code
  }

  /** The crypto part of `--top`: the FROM code is one of `CRYPTO_CURRENCIES`. */
  function InList(codes: seq<string>): string -> bool
  {
    (from: string) => from in codes
  }

  // ---------------------------------------------------------------------------
  // --top: sorted by rate, highest first, stable
  // ---------------------------------------------------------------------------

  predicate RateDescending(s: Pairs)
  {
    forall i, j :: 0 <= i < j < |s| ==> s[i].1.rate >= s[j].1.rate
  }

  /** The entries with rate `v`, in order. */
  function WithRate(s: Pairs, v: real): Pairs
  {
    if |s| == 0 then []
    else (if s[0].1.rate == v then [s[0]] else []) + WithRate(s[1..], v)
  }

  /** Puts `x` in front of the first entry whose rate is not above its own. */
  function InsertByRate(x: (string, CacheEntry), s: Pairs): Pairs
  {
    if |s| == 0 || s[0].1.rate <= x.1.rate then [x] + s
    else [s[0]] + InsertByRate(x, s[1..])
  }

  /** `sorted(items, key=rate, reverse=True)`. */
  function SortByRate(s: Pairs): Pairs
  {
    if |s| == 0 then [] else InsertByRate(s[0], SortByRate(s[1..]))
  }

  /** Inserting adds `x` and loses nothing. */
  lemma {:induction false} InsertByRatePerm(x: (string, CacheEntry), s: Pairs)
    ensures multiset(InsertByRate(x, s)) == multiset(s) + multiset{x}
  {
    if |s| > 0 && s[0].1.rate > x.1.rate {
      InsertByRatePerm(x, s[1..]);
      assert s == [s[0]] + s[1..];
    }
  }

  /** A rate bounding `x` and all of `s` bounds the insertion too. */
  lemma {:induction false} InsertByRateBound(x: (string, CacheEntry), s: Pairs, b: real)
    requires x.1.rate <= b && forall j :: 0 <= j < |s| ==> s[j].1.rate <= b
    ensures forall j :: 0 <= j < |InsertByRate(x, s)| ==> InsertByRate(x, s)[j].1.rate <= b
  {
    if |s| > 0 && s[0].1.rate > x.1.rate {
      InsertByRateBound(x, s[1..], b);
    }
  }

  lemma {:induction false} InsertByRateSorted(x: (string, CacheEntry), s: Pairs)
    requires RateDescending(s)
    ensures RateDescending(InsertByRate(x, s))
  {
    var r := InsertByRate(x, s);
    if |s| == 0 || s[0].1.rate <= x.1.rate {
      assert r == [x] + s;
    } else {
      var t := InsertByRate(x, s[1..]);
      InsertByRateSorted(x, s[1..]);
      InsertByRateBound(x, s[1..], s[0].1.rate);
      assert r == [s[0]] + t;
      forall i, j | 0 <= i < j < |r| ensures r[i].1.rate >= r[j].1.rate {
        assert r[j] == t[j - 1];
        if i > 0 {
          assert r[i] == t[i - 1];
        }
      }
    }
  }

  /** Inserting `x` keeps the relative order of equal rates, with `x` first
      among them. */
  lemma {:induction false} InsertByRateStable(x: (string, CacheEntry), s: Pairs, v: real)
    ensures WithRate(InsertByRate(x, s), v) == (if x.1.rate == v then [x] else []) + WithRate(s, v)
  {
    var r := InsertByRate(x, s);
    var hx := if x.1.rate == v then [x] else [];
    if |s| == 0 || s[0].1.rate <= x.1.rate {
      assert r[0] == x && r[1..] == s;
      assert WithRate(r, v) == hx + WithRate(r[1..], v);
    } else {
      var t := InsertByRate(x, s[1..]);
      var h0 := if s[0].1.rate == v then [s[0]] else [];
      InsertByRateStable(x, s[1..], v);
      assert r[0] == s[0] && r[1..] == t;
      assert WithRate(r, v) == h0 + WithRate(t, v);
      assert WithRate(s, v) == h0 + WithRate(s[1..], v);
      if hx == [] {
        assert hx + WithRate(s, v) == WithRate(s, v);
        assert WithRate(t, v) == WithRate(s[1..], v);
      } else {
        assert h0 == [];
        assert WithRate(r, v) == WithRate(t, v);
        assert WithRate(s, v) == WithRate(s[1..], v);
      }
    }
  }

  /** The rate sort orders by rate, highest first, and is a permutation. */
  lemma {:induction false} SortByRateShape(s: Pairs)
    ensures RateDescending(SortByRate(s))
    ensures multiset(SortByRate(s)) == multiset(s)
  {
    if |s| > 0 {
      SortByRateShape(s[1..]);
      InsertByRatePerm(s[0], SortByRate(s[1..]));
      InsertByRateSorted(s[0], SortByRate(s[1..]));
      assert s == [s[0]] + s[1..];
    }
  }

  /** The rate sort is stable: the entries of any one rate keep their order. */
  lemma {:induction false} SortByRateStable(s: Pairs, v: real)
    ensures WithRate(SortByRate(s), v) == WithRate(s, v)
  {
    if |s| > 0 {
      SortByRateStable(s[1..], v);
      InsertByRateStable(s[0], SortByRate(s[1..]), v);
    }
  }

  /** `s[:n]` for any integer `n`: a negative `n` drops the last `-n` entries. */
  function Head<T>(s: seq<T>, n: int): (r: seq<T>)
    ensures r <= s
    ensures n >= 0 ==> |r| == if n <= |s| then n else |s|
    ensures n < 0 ==> |r| == if |s| + n > 0 then |s| + n else 0
  {
    if n >= 0 then (if n <= |s| then s[..n] else s)
    else (if |s| + n > 0 then s[..|s| + n] else [])
  }

  /** The pairs `--top N` shows: the crypto pairs sorted by rate, highest
      first, cut at `N`. */
  function Top(pairs: Pairs, n: int, crypto: seq<string>): Result<Pairs, string>
  {
    var cryptoPairs :- Keep(pairs, InList(crypto));
    Ok(Head(SortByRate(cryptoPairs), n))
  }

  /** In a list sorted by rate, highest first, nothing after the first `k`
      entries has a higher rate than any of them. */
  lemma PrefixDominates(sorted: Pairs, k: nat)
    requires RateDescending(sorted) && k <= |sorted|
    ensures multiset(sorted[..k]) <= multiset(sorted)
    ensures forall x: (string, CacheEntry), i :: x in multiset(sorted) - multiset(sorted[..k]) && 0 <= i < k ==>
      x.1.rate <= sorted[i].1.rate
  {
    assert sorted == sorted[..k] + sorted[k..];
    assert multiset(sorted) == multiset(sorted[..k]) + multiset(sorted[k..]);
    forall x: (string, CacheEntry), i | x in multiset(sorted) - multiset(sorted[..k]) && 0 <= i < k
      ensures x.1.rate <= sorted[i].1.rate
    {
      assert x in multiset(sorted[k..]);
      var j :| 0 <= j < |sorted[k..]| && sorted[k..][j] == x;
      assert sorted[k + j] == x;
    }
  }

  /** Without malformed keys `--top N` cannot fail: it cuts the rate-sorted
      crypto pairs at `N`. */
  lemma TopValue(pairs: Pairs, n: int, crypto: seq<string>)
    requires PyDict.DistinctKeys(pairs) && AllUnpack(pairs)
    ensures Top(pairs, n, crypto) == Ok(Head(SortByRate(Selected(pairs, InList(crypto))), n))
  {
    KeepIsSelected(pairs, InList(crypto));
  }

  /** The pairs shown by `--top N` are crypto pairs, at most `N` of them
      (`N > 0`), and none of the crypto pairs left out has a higher rate than
      any shown. */
  lemma TopIsHighest(pairs: Pairs, n: int, crypto: seq<string>)
    requires PyDict.DistinctKeys(pairs) && AllUnpack(pairs)
    ensures Top(pairs, n, crypto).Ok?
    ensures var top := Top(pairs, n, crypto).value;
      var cryptoPairs := Selected(pairs, InList(crypto));
      (n > 0 ==> |top| == if n <= |cryptoPairs| then n else |cryptoPairs|)
      && (forall x :: x in top ==> x in pairs && FromOf(x.0) in crypto)
      && multiset(top) <= multiset(cryptoPairs)
      && forall x: (string, CacheEntry), i :: x in multiset(cryptoPairs) - multiset(top) && 0 <= i < |top| ==> x.1.rate <= top[i].1.rate
  {
    TopValue(pairs, n, crypto);
    var cryptoPairs := Selected(pairs, InList(crypto));
    var sorted := SortByRate(cryptoPairs);
    var top := Head(sorted, n);
    assert Top(pairs, n, crypto).value == top;
    SortByRateShape(cryptoPairs);
    assert |sorted| == |multiset(sorted)| == |multiset(cryptoPairs)| == |cryptoPairs|;
    assert top == sorted[..|top|];
    PrefixDominates(sorted, |top|);
    SortedPrefixMembers(pairs, crypto, |top|);
  }

  /** Every entry among the first `k` of the rate-sorted crypto pairs is a
      cached crypto pair. */
  lemma SortedPrefixMembers(pairs: Pairs, crypto: seq<string>, k: nat)
    requires k <= |SortByRate(Selected(pairs, InList(crypto)))|
    ensures forall x :: x in SortByRate(Selected(pairs, InList(crypto)))[..k] ==> x in pairs && FromOf(x.0) in crypto
  {
    var cryptoPairs := Selected(pairs, InList(crypto));
    var sorted := SortByRate(cryptoPairs);
    SortByRateShape(cryptoPairs);
    forall x | x in sorted[..k] ensures x in pairs && FromOf(x.0) in crypto {
      assert x in sorted;
      assert x in multiset(cryptoPairs);
      SelectedMembers(pairs, InList(crypto), x);
    }
  }

  // ---------------------------------------------------------------------------
  // The final sort by pair key
  // ---------------------------------------------------------------------------

  predicate KeysAscending(s: Pairs)
  {
    forall i, j :: 0 <= i < j < |s| ==> LessEq(s[i].0, s[j].0)
  }

  /** Puts `x` in front of the first entry whose key is above its own. */
  function InsertByKey(x: (string, CacheEntry), s: Pairs): Pairs
  {
    if |s| == 0 || Less(x.0, s[0].0) then [x] + s
    else [s[0]] + InsertByKey(x, s[1..])
  }

  /** `sorted(filtered_pairs.items())`: by key (keys are distinct, so the
      values are never compared). */
  function SortByKey(s: Pairs): Pairs
  {
    if |s| == 0 then [] else InsertByKey(s[0], SortByKey(s[1..]))
  }

  lemma LessEqTransitive(a: string, b: string, c: string)
    requires LessEq(a, b) && LessEq(b, c)
    ensures LessEq(a, c)
  {
    if Less(a, b) && Less(b, c) {
      LessTransitive(a, b, c);
    }
  }

  /** Inserting adds `x` and loses nothing. */
  lemma {:induction false} InsertByKeyPerm(x: (string, CacheEntry), s: Pairs)
    ensures multiset(InsertByKey(x, s)) == multiset(s) + multiset{x}
  {
    if |s| > 0 && !Less(x.0, s[0].0) {
      InsertByKeyPerm(x, s[1..]);
      assert s == [s[0]] + s[1..];
    }
  }

  /** A key below `x` and all of `s` is below the insertion too. */
  lemma {:induction false} InsertByKeyBound(x: (string, CacheEntry), s: Pairs, b: string)
    requires LessEq(b, x.0) && forall j :: 0 <= j < |s| ==> LessEq(b, s[j].0)
    ensures forall j :: 0 <= j < |InsertByKey(x, s)| ==> LessEq(b, InsertByKey(x, s)[j].0)
  {
    if |s| > 0 && !Less(x.0, s[0].0) {
      InsertByKeyBound(x, s[1..], b);
    }
  }

  lemma {:induction false} InsertByKeySorted(x: (string, CacheEntry), s: Pairs)
    requires KeysAscending(s)
    ensures KeysAscending(InsertByKey(x, s))
  {
    var r := InsertByKey(x, s);
    if |s| == 0 || Less(x.0, s[0].0) {
      assert r == [x] + s;
      forall j | 0 < j < |r| ensures LessEq(x.0, r[j].0) {
        if j > 1 {
          LessEqTransitive(x.0, s[0].0, s[j - 1].0);
        }
      }
    } else {
      LessTrichotomy(x.0, s[0].0);
      var t := InsertByKey(x, s[1..]);
      InsertByKeySorted(x, s[1..]);
      InsertByKeyBound(x, s[1..], s[0].0);
      assert r == [s[0]] + t;
      forall i, j | 0 <= i < j < |r| ensures LessEq(r[i].0, r[j].0) {
        assert r[j] == t[j - 1];
        if i > 0 {
          assert r[i] == t[i - 1];
        }
      }
    }
  }

  /** The key sort orders by key and is a permutation. */
  lemma {:induction false} SortByKeyShape(s: Pairs)
    ensures KeysAscending(SortByKey(s))
    ensures multiset(SortByKey(s)) == multiset(s)
  {
    if |s| > 0 {
      SortByKeyShape(s[1..]);
      InsertByKeyPerm(s[0], SortByKey(s[1..]));
      InsertByKeySorted(s[0], SortByKey(s[1..]));
      assert s == [s[0]] + s[1..];
    }
  }

  // ---------------------------------------------------------------------------
  // --base: the B_USD lookup and the rebase
  // ---------------------------------------------------------------------------

  /** The lookup loop over the first pairs: every key is unpacked until one
      reads `B`, "USD"; its rate is the answer (`break`). */
  function BaseLookup(pairs: Pairs, base: string): Result<Option<real>, string>
  {
    if |pairs| == 0 then Ok(None)
    else
      var n := |pairs| - 1;
      match BaseLookup(pairs[..n], base)
      case Err(e) => Err(e)
      case Ok(Some(rate)) => Ok(Some(rate))
      case Ok(None) =>
        match Unpack(pairs[n].0)
        case Err(e) => Err(e)
        case Ok((from, to)) => Ok(if from == base && to == "USD" then Some(pairs[n].1.rate) else None)
  }

  /** A key unpacks into `B`, "USD" exactly when it is the key `B_USD` and
      `B` has no "_". */
  lemma UnpackIsBaseUsd(key: string, base: string)
    requires |Split(key, '_')| == 2
    ensures (Unpack(key).value.0 == base && Unpack(key).value.1 == "USD") <==> ('_' !in base && key == PairKey(base, "USD"))
  {
    if '_' !in base && key == PairKey(base, "USD") {
      UnpackPairKey(base, "USD");
    }
  }

  /** Without malformed keys the lookup finds a rate exactly when the pairs
      hold `B_USD` (for a `B` without "_"), and the rate is that entry's. */
  lemma {:induction false} BaseLookupFinds(pairs: Pairs, base: string)
    requires AllUnpack(pairs)
    ensures BaseLookup(pairs, base).Ok?
    ensures BaseLookup(pairs, base).value.Some? <==> '_' !in base && PairKey(base, "USD") in PyDict.KeySet(pairs)
    ensures BaseLookup(pairs, base).value.Some? ==>
      exists i :: 0 <= i < |pairs| && pairs[i].0 == PairKey(base, "USD") && pairs[i].1.rate == BaseLookup(pairs, base).value.value
  {
    if |pairs| > 0 {
      var n := |pairs| - 1;
      assert forall i :: 0 <= i < n ==> pairs[..n][i] == pairs[i];
      BaseLookupFinds(pairs[..n], base);
      PyDict.KeySetSnoc(pairs);
      UnpackIsBaseUsd(pairs[n].0, base);
    }
  }

  /** The loop of the lookup, as `cmd_show_rates` writes it. */
  method FindBaseRate(pairs: Pairs, base: string) returns (r: Result<Option<real>, string>)
    ensures r == BaseLookup(pairs, base)
  {
    var found: Option<real> := None;
    var i := 0;
    while i < |pairs|
      invariant 0 <= i <= |pairs|
      invariant BaseLookup(pairs[..i], base) == Ok(found)
      invariant found.Some? ==> BaseLookup(pairs, base) == Ok(found)
    {
      assert pairs[..i + 1][..i] == pairs[..i];
      var parts := Unpack(pairs[i].0);
      if parts.Err? {
        LookupStops(pairs, base, i + 1);
        return Err(parts.error);
      }
      if parts.value.0 == base && parts.value.1 == "USD" {
        found := Some(pairs[i].1.rate);
        LookupStops(pairs, base, i + 1);
        break;
      }
      i := i + 1;
    }
    if found.None? {
      assert pairs[..i] == pairs;
    }
    return Ok(found);
  }

  /** Once the lookup has an answer or has raised on a prefix, the rest of
      the pairs do not change it. */
  lemma {:induction false} LookupStops(pairs: Pairs, base: string, n: nat)
    requires n <= |pairs| && (BaseLookup(pairs[..n], base).Err? || BaseLookup(pairs[..n], base).value.Some?)
    ensures BaseLookup(pairs, base) == BaseLookup(pairs[..n], base)
    decreases |pairs| - n
  {
    if n < |pairs| {
      assert pairs[..n + 1][..n] == pairs[..n];
      LookupStops(pairs, base, n + 1);
    } else {
      assert pairs[..n] == pairs;
    }
  }

  /** An entry re-expressed against the new base: the rate divided by the
      base's USD rate, the date kept, the source defaulted to "unknown". */
  function Rebased(e: CacheEntry, baseRate: real): CacheEntry
    requires baseRate != 0.0
  {
    CacheEntry(e.rate / baseRate, e.updatedAt, Some(e.source.GetOr("unknown")))
  }

  /** One turn of the rebase loop: the base's own pairs are dropped; the
      division raises on a zero base rate, the copy of "updated_at" on an
      entry without one. */
  function RebaseStep(acc: Pairs, key: string, e: CacheEntry, base: string, baseRate: real): Result<Pairs, string>
  {
    match Unpack(key)
    case Err(err) => Err(err)
    case Ok((from, _)) =>
      if from == base then Ok(acc)
      else if baseRate == 0.0 then Err("float division by zero")
      else if e.updatedAt.None? then Err("'updated_at'")
      else Ok(PyDict.Put(acc, PairKey(from, base), Rebased(e, baseRate)))
  }

  /** The rebase loop over the first filtered pairs. */
  function Rebase(pairs: Pairs, base: string, baseRate: real): Result<Pairs, string>
  {
    if |pairs| == 0 then Ok([])
    else
      var n := |pairs| - 1;
      match Rebase(pairs[..n], base, baseRate)
      case Err(e) => Err(e)
      case Ok(acc) => RebaseStep(acc, pairs[n].0, pairs[n].1, base, baseRate)
  }

  /** The condition under which one pair is rebased without raising. */
  predicate RebaseOkAt(key: string, e: CacheEntry, base: string, baseRate: real)
  {
    |Split(key, '_')| == 2 && (FromOf(key) != base ==> baseRate != 0.0 && e.updatedAt.Some?)
  }

  /** The rebase raises exactly when some pair cannot be rebased. */
  lemma {:induction false} RebaseOkIff(pairs: Pairs, base: string, baseRate: real)
    ensures Rebase(pairs, base, baseRate).Ok? <==>
      forall i :: 0 <= i < |pairs| ==> RebaseOkAt(pairs[i].0, pairs[i].1, base, baseRate)
  {
    if |pairs| > 0 {
      var n := |pairs| - 1;
      assert forall i :: 0 <= i < n ==> pairs[..n][i] == pairs[i];
      RebaseOkIff(pairs[..n], base, baseRate);
    }
  }

  /** What one turn does to the keys and values of the result. */
  lemma RebaseStepShape(acc: Pairs, key: string, e: CacheEntry, base: string, baseRate: real, k: string)
    requires RebaseStep(acc, key, e, base, baseRate).Ok?
    ensures var r := RebaseStep(acc, key, e, base, baseRate).value;
      var moved := FromOf(key) != base;
      PyDict.KeySet(r) == PyDict.KeySet(acc) + (if moved then {PairKey(FromOf(key), base)} else {})
      && (PyDict.DistinctKeys(acc) ==> PyDict.DistinctKeys(r))
      && PyDict.Get(r, k) == (if moved && k == PairKey(FromOf(key), base) then Some(Rebased(e, baseRate)) else PyDict.Get(acc, k))
  {
    if FromOf(key) != base {
      var nk := PairKey(FromOf(key), base);
      PyDict.PutKeys(acc, nk, Rebased(e, baseRate));
      PyDict.PutGet(acc, nk, Rebased(e, baseRate), k);
    }
  }

  /** The rebased pairs have distinct keys. */
  lemma {:induction false} RebaseDistinct(pairs: Pairs, base: string, baseRate: real)
    requires Rebase(pairs, base, baseRate).Ok?
    ensures PyDict.DistinctKeys(Rebase(pairs, base, baseRate).value)
  {
    if |pairs| > 0 {
      var n := |pairs| - 1;
      RebaseDistinct(pairs[..n], base, baseRate);
      RebaseStepShape(Rebase(pairs[..n], base, baseRate).value, pairs[n].0, pairs[n].1, base, baseRate, "");
    }
  }

  /** Every FROM code `X` other than `B` among the filtered pairs gets a key
      `X_B`. */
  lemma {:induction false} RebaseCovers(pairs: Pairs, base: string, baseRate: real, i: nat)
    requires Rebase(pairs, base, baseRate).Ok?
    requires i < |pairs| && FromOf(pairs[i].0) != base
    ensures PairKey(FromOf(pairs[i].0), base) in PyDict.KeySet(Rebase(pairs, base, baseRate).value)
  {
    var n := |pairs| - 1;
    RebaseStepShape(Rebase(pairs[..n], base, baseRate).value, pairs[n].0, pairs[n].1, base, baseRate, "");
    if i < n {
      assert pairs[..n][i] == pairs[i];
      RebaseCovers(pairs[..n], base, baseRate, i);
    }
  }

  /** Every rebased key is `X_B` for the FROM code `X` of some filtered pair
      other than `B`. */
  lemma {:induction false} RebaseKeysFrom(pairs: Pairs, base: string, baseRate: real, k: string)
    requires Rebase(pairs, base, baseRate).Ok?
    requires k in PyDict.KeySet(Rebase(pairs, base, baseRate).value)
    ensures exists i :: 0 <= i < |pairs| && FromOf(pairs[i].0) != base && k == PairKey(FromOf(pairs[i].0), base)
  {
    var n := |pairs| - 1;
    var acc := Rebase(pairs[..n], base, baseRate).value;
    RebaseStepShape(acc, pairs[n].0, pairs[n].1, base, baseRate, k);
    if k in PyDict.KeySet(acc) {
      RebaseKeysFrom(pairs[..n], base, baseRate, k);
      var i :| 0 <= i < n && FromOf(pairs[..n][i].0) != base && k == PairKey(FromOf(pairs[..n][i].0), base);
      assert pairs[..n][i] == pairs[i];
    }
  }

  /** The rebased value of `X_B` comes from the last filtered pair with FROM
      code `X`: its rate divided by the rate of `B_USD`. */
  lemma {:induction false} RebaseValue(pairs: Pairs, base: string, baseRate: real, i: nat)
    requires Rebase(pairs, base, baseRate).Ok? && baseRate != 0.0
    requires i < |pairs| && FromOf(pairs[i].0) != base
    requires forall j :: i < j < |pairs| ==> FromOf(pairs[j].0) != FromOf(pairs[i].0)
    ensures PyDict.Get(Rebase(pairs, base, baseRate).value, PairKey(FromOf(pairs[i].0), base)) == Some(Rebased(pairs[i].1, baseRate))
  {
    var n := |pairs| - 1;
    var key := PairKey(FromOf(pairs[i].0), base);
    var acc := Rebase(pairs[..n], base, baseRate).value;
    RebaseStepShape(acc, pairs[n].0, pairs[n].1, base, baseRate, key);
    if i < n {
      assert forall j :: 0 <= j < n ==> pairs[..n][j] == pairs[j];
      RebaseValue(pairs[..n], base, baseRate, i);
      if FromOf(pairs[n].0) != base && key == PairKey(FromOf(pairs[n].0), base) {
        PairKeyInjective(FromOf(pairs[i].0), FromOf(pairs[n].0), base);
      }
    }
  }

  /** The rebase loop, as `cmd_show_rates` writes it. */
  method RebasePairs(pairs: Pairs, base: string, baseRate: real) returns (r: Result<Pairs, string>)
    ensures r == Rebase(pairs, base, baseRate)
  {
    var rebased: Pairs := [];
    for i := 0 to |pairs|
      invariant Rebase(pairs[..i], base, baseRate) == Ok(rebased)
    {
      assert pairs[..i + 1][..i] == pairs[..i];
      var (key, data) := pairs[i];
      var parts := Unpack(key);
      if parts.Err? {
        RebaseErrorSticks(pairs, base, baseRate, i + 1);
        return Err(parts.error);
      }
      var from := parts.value.0;
      if from != base {
        if baseRate == 0.0 {
          RebaseErrorSticks(pairs, base, baseRate, i + 1);
          return Err("float division by zero");
        }
        if data.updatedAt.None? {
          RebaseErrorSticks(pairs, base, baseRate, i + 1);
          return Err("'updated_at'");
        }
        rebased := PyDict.Put(rebased, PairKey(from, base), Rebased(data, baseRate));
      }
    }
    assert pairs[..|pairs|] == pairs;
    return Ok(rebased);
  }

  lemma {:induction false} RebaseErrorSticks(pairs: Pairs, base: string, baseRate: real, n: nat)
    requires n <= |pairs| && Rebase(pairs[..n], base, baseRate).Err?
    ensures Rebase(pairs, base, baseRate) == Rebase(pairs[..n], base, baseRate)
    decreases |pairs| - n
  {
    if n < |pairs| {
      assert pairs[..n + 1][..n] == pairs[..n];
      RebaseErrorSticks(pairs, base, baseRate, n + 1);
    } else {
      assert pairs[..n] == pairs;
    }
  }

  // ---------------------------------------------------------------------------
  // show-rates
  // ---------------------------------------------------------------------------

  datatype ShowOptions = ShowOptions(currency: Option<string>, top: int, base: Option<string>)

  /** One line of the table: the pair, its rate, its source ("unknown" when
      missing) and its date ("N/A" when missing). */
  datatype Row = Row(pair: string, rate: real, source: string, updatedAt: string)

  /** What `show-rates` reports. */
  datatype Shown =
    | ReadFailed(message: string)                 // a StorageError from reading the cache
    | CacheEmpty
    | BaseMissing(base: string, available: set<string>)
    | NoneMatched
    | Table(lastRefresh: Option<string>, rows: seq<Row>)
    | Unexpected(message: string)                 // any other exception, as str(e)

  /** A command-line option that is present and not empty. */
  predicate Given(s: Option<string>)
  {
    s.Some? && |s.value| > 0
  }

  /** The pairs left after --currency and --top. */
  function Selection(pairs: Pairs, opts: ShowOptions, crypto: seq<string>): Result<Pairs, string>
  {
    var byCurrency :- if Given(opts.currency) then Keep(pairs, IsCode(Upper(opts.currency.value))) else Ok(pairs);
    if opts.top != 0 then Top(byCurrency, opts.top, crypto) else Ok(byCurrency)
  }

  function RowOf(p: (string, CacheEntry)): Row
  {
    Row(p.0, p.1.rate, p.1.source.GetOr("unknown"), p.1.updatedAt.GetOr("N/A"))
  }

  /** The end of the command: nothing left, or the table sorted by pair. */
  function Finish(filtered: Pairs, lastRefresh: Option<string>): Shown
  {
    if |filtered| == 0 then NoneMatched
    else
      var sorted := SortByKey(filtered);
      Table(if Given(lastRefresh) then lastRefresh else None, seq(|sorted|, i requires 0 <= i < |sorted| => RowOf(sorted[i])))
  }

  /** The FROM codes of all pairs, listed when the base is missing. */
  function FromCodes(pairs: Pairs): set<string>
  {
    set i | 0 <= i < |pairs| :: FromOf(pairs[i].0)
  }

  /** `cmd_show_rates` on the result of reading the cache (the pairs in file
      order and "last_refresh"). */
  function ShowRates(cache: Result<(Pairs, Option<string>), StoreError>, opts: ShowOptions, crypto: seq<string>): (r: Shown)
    ensures r.ReadFailed? <==> cache.Err? && cache.error.StorageError?
    ensures cache.Err? && !cache.error.StorageError? ==> r == Unexpected(cache.error.message)
    ensures r == CacheEmpty <==> cache.Ok? && |cache.value.0| == 0
    ensures r.NoneMatched? || r.Table? || r.BaseMissing? ==> cache.Ok? && |cache.value.0| > 0
  {
    match cache
    case Err(e) => if e.StorageError? then ReadFailed(e.message) else Unexpected(e.message)
    case Ok((pairs, lastRefresh)) =>
      if |pairs| == 0 then CacheEmpty
      else
        match Selection(pairs, opts, crypto)
        case Err(e) => Unexpected(e)
        case Ok(filtered) =>
          if !Given(opts.base) then Finish(filtered, lastRefresh)
          else
            var base := Upper(opts.base.value);
            match BaseLookup(pairs, base)
            case Err(e) => Unexpected(e)
            case Ok(None) => BaseMissing(base, FromCodes(pairs))
            case Ok(Some(rate)) =>
              match Rebase(filtered, base, rate)
              case Err(e) => Unexpected(e)
              case Ok(rebased) => Finish(rebased, lastRefresh)
  }

  /** The table holds one row per remaining pair, sorted by pair key. */
  lemma FinishTable(filtered: Pairs, lastRefresh: Option<string>)
    ensures Finish(filtered, lastRefresh).NoneMatched? <==> |filtered| == 0
    ensures var r := Finish(filtered, lastRefresh);
      r.Table? ==>
        |r.rows| == |filtered|
        && (forall i, j :: 0 <= i < j < |r.rows| ==> LessEq(r.rows[i].pair, r.rows[j].pair))
        && (forall x :: x in filtered ==> RowOf(x) in r.rows)
        && (forall row :: row in r.rows ==> exists x :: x in filtered && row == RowOf(x))
  {
    if |filtered| > 0 {
      var sorted := SortByKey(filtered);
      SortByKeyShape(filtered);
      var rows := Finish(filtered, lastRefresh).rows;
      forall x | x in filtered ensures RowOf(x) in rows {
        assert x in multiset(sorted);
        var i :| 0 <= i < |sorted| && sorted[i] == x;
        assert rows[i] == RowOf(x);
      }
      forall row | row in rows ensures exists x :: x in filtered && row == RowOf(x) {
        var i :| 0 <= i < |rows| && rows[i] == row;
        assert sorted[i] in multiset(filtered);
      }
    }
  }

  /** Selecting keeps the keys distinct and every key unpackable. */
  lemma {:induction false} SelectedKeeps(pairs: Pairs, keep: string -> bool)
    requires PyDict.DistinctKeys(pairs) && AllUnpack(pairs)
    ensures PyDict.DistinctKeys(Selected(pairs, keep)) && AllUnpack(Selected(pairs, keep))
  {
    if |pairs| > 0 {
      var n := |pairs| - 1;
      var init := pairs[..n];
      PyDict.KeySetSnoc(pairs);
      assert forall i :: 0 <= i < n ==> init[i] == pairs[i];
      SelectedKeeps(init, keep);
      var s := Selected(init, keep);
      forall i | 0 <= i < |s| ensures s[i].0 != pairs[n].0 && |Split(s[i].0, '_')| == 2 {
        assert s[i] in s;
        SelectedMembers(init, keep, s[i]);
        var j :| 0 <= j < n && init[j] == s[i];
      }
    }
  }

  /** `--currency C` alone shows exactly the pairs whose FROM code is
      `C.upper()`, sorted by key. */
  lemma ShowCurrency(pairs: Pairs, lastRefresh: Option<string>, currency: string, crypto: seq<string>)
    requires |pairs| > 0 && |currency| > 0 && PyDict.DistinctKeys(pairs) && AllUnpack(pairs)
    ensures ShowRates(Ok((pairs, lastRefresh)), ShowOptions(Some(currency), 0, None), crypto)
         == Finish(Selected(pairs, IsCode(Upper(currency))), lastRefresh)
  {
    KeepIsSelected(pairs, IsCode(Upper(currency)));
  }

  /** Without malformed keys --currency and --top cannot fail. */
  lemma SelectionOk(pairs: Pairs, opts: ShowOptions, crypto: seq<string>)
    requires PyDict.DistinctKeys(pairs) && AllUnpack(pairs)
    ensures Selection(pairs, opts, crypto).Ok?
  {
    if Given(opts.currency) {
      KeepIsSelected(pairs, IsCode(Upper(opts.currency.value)));
      SelectedKeeps(pairs, IsCode(Upper(opts.currency.value)));
      if opts.top != 0 {
        TopValue(Selected(pairs, IsCode(Upper(opts.currency.value))), opts.top, crypto);
      }
    } else if opts.top != 0 {
      TopValue(pairs, opts.top, crypto);
    }
  }

  /** `--base B` needs `B_USD` among all the cached pairs (whatever the
      other filters keep): without it the command reports the missing base
      and the FROM codes there are. */
  lemma ShowBaseMissing(pairs: Pairs, lastRefresh: Option<string>, opts: ShowOptions, crypto: seq<string>)
    requires |pairs| > 0 && PyDict.DistinctKeys(pairs) && AllUnpack(pairs) && Given(opts.base)
    ensures var b := Upper(opts.base.value);
      var r := ShowRates(Ok((pairs, lastRefresh)), opts, crypto);
      (r.BaseMissing? <==> !('_' !in b && PairKey(b, "USD") in PyDict.KeySet(pairs)))
      && (r.BaseMissing? ==> r == BaseMissing(b, FromCodes(pairs)))
  {
    SelectionOk(pairs, opts, crypto);
    BaseLookupFinds(pairs, Upper(opts.base.value));
  }

  /** `cmd_show_rates` with its loops. */
  method CmdShowRates(cache: Result<(Pairs, Option<string>), StoreError>, opts: ShowOptions, crypto: seq<string>)
    returns (shown: Shown)
    ensures shown == ShowRates(cache, opts, crypto)
  {
    if cache.Err? {
      if cache.error.StorageError? {
        return ReadFailed(cache.error.message);
      }
      return Unexpected(cache.error.message);
    }
    var (pairs, lastRefresh) := cache.value;
    if |pairs| == 0 {
      return CacheEmpty;
    }
    var filtered := pairs;
    if Given(opts.currency) {
      var kept := KeepPairs(pairs, IsCode(Upper(opts.currency.value)));
      if kept.Err? {
        return Unexpected(kept.error);
      }
      filtered := kept.value;
    }
    if opts.top != 0 {
      var cryptoPairs := KeepPairs(filtered, InList(crypto));
      if cryptoPairs.Err? {
        return Unexpected(cryptoPairs.error);
      }
      filtered := Head(SortByRate(cryptoPairs.value), opts.top);
    }
    if Given(opts.base) {
      var base := Upper(opts.base.value);
      var baseRate := FindBaseRate(pairs, base);
      if baseRate.Err? {
        return Unexpected(baseRate.error);
      }
      if baseRate.value.None? {
        return BaseMissing(base, FromCodes(pairs));
      }
      var rebased := RebasePairs(filtered, base, baseRate.value.value);
      if rebased.Err? {
        return Unexpected(rebased.error);
      }
      filtered := rebased.value;
    }
    return Finish(filtered, lastRefresh);
  }

  // ---------------------------------------------------------------------------
  // update-rates
  // ---------------------------------------------------------------------------

  /** The clients `update-rates --source S` polls, given what each would
      fetch: both without S, one for "coingecko" or "exchangerate", none
      (the command refuses) for anything else. */
  function ClientsFor(source: Option<string>, coinGecko: Result<PyDict.Dict<real>, string>,
                      exchangeRate: Result<PyDict.Dict<real>, string>): Option<seq<Client>>
  {
    var cg := Client(CoinGeckoKind, "CoinGeckoClient", coinGecko);
    var er := Client(ExchangeRateKind, "ExchangeRateApiClient", exchangeRate);
    if !Given(source) then Some([cg, er])
    else if source.value == "coingecko" then Some([cg])
    else if source.value == "exchangerate" then Some([er])
    else None
  }

  /** What `update-rates` reports. */
  datatype UpdateReport =
    | UnknownSource(message: string)
    | Updated(stats: Stats, clean: bool)   // `clean`: the success message is shown
    | ApiFailed(message: string)           // str() of the ApiRequestError
    | SaveFailed(message: string)          // str() of the StorageError
    | UpdateCrashed(message: string)       // any other exception

  /** `cmd_update_rates`. */
  method CmdUpdateRates(config: Config, source: Option<string>, coinGecko: Result<PyDict.Dict<real>, string>,
                        exchangeRate: Result<PyDict.Dict<real>, string>, store: DataDir, ts: string,
                        elapsed: (nat, nat) -> int)
    returns (report: UpdateReport)
    modifies store
    ensures ClientsFor(source, coinGecko, exchangeRate).None? ==>
      report == UnknownSource("Неизвестный источник: " + source.value + ". Допустимые значения: coingecko, exchangerate")
      && store.historyFile == old(store.historyFile) && store.ratesFile == old(store.ratesFile)
    ensures ClientsFor(source, coinGecko, exchangeRate).Some? ==>
      var p := PollAll(ClientsFor(source, coinGecko, exchangeRate).value, old(store.historyFile), config.cryptoIdMap,
                       store.writeError, ts, elapsed);
      store.historyFile == p.history
      && (|p.allRates| == 0 ==>
            report == ApiFailed(ApiClients.ApiRequestError(AllFailedMessage(p.errors)).Message())
            && store.ratesFile == old(store.ratesFile))
      && (report.Updated? ==> report.stats == p.stats.(totalCount := |p.allRates|) && (report.clean <==> p.stats.errors == 0))
      && (|p.allRates| > 0 && Partition(p.allRates, config.cryptoCurrencies).Err? ==>
            report == UpdateCrashed(Partition(p.allRates, config.cryptoCurrencies).error)
            && store.ratesFile == old(store.ratesFile))
      && (|p.allRates| > 0 && Partition(p.allRates, config.cryptoCurrencies).Ok? ==>
            var crypto := Partition(p.allRates, config.cryptoCurrencies).value.0;
            var fiat := Partition(p.allRates, config.cryptoCurrencies).value.1;
            var outcome := CycleOutcome(old(store.ratesFile), store.writeError, crypto, fiat, ts);
            store.ratesFile == CacheAfterCycle(old(store.ratesFile), store.writeError, crypto, fiat, ts)
            && (outcome.Ok? ==> report == Updated(p.stats.(totalCount := |p.allRates|), p.stats.errors == 0))
            && (outcome.Err? && outcome.error.StorageError? ==> report == SaveFailed(outcome.error.message))
            && (outcome.Err? && !outcome.error.StorageError? ==> report == UpdateCrashed(outcome.error.message)))
    ensures store.writeError == old(store.writeError)
  {
    var clients := ClientsFor(source, coinGecko, exchangeRate);
    if clients.None? {
      return UnknownSource("Неизвестный источник: " + source.value + ". Допустимые значения: coingecko, exchangerate");
    }
    var r := RunUpdate(config, clients.value, store, ts, elapsed);
    match r {
      case Ok(stats) =>
        return Updated(stats, stats.errors == 0);
      case Err(AllSourcesFailed(message)) =>
        return ApiFailed(ApiClients.ApiRequestError(message).Message());
      case Err(SplitFailed(message)) =>
        return UpdateCrashed(message);
      case Err(CacheFailed(StorageError(message))) =>
        return SaveFailed(message);
      case Err(CacheFailed(ValueError(message))) =>
        return UpdateCrashed(message);
      case Err(CacheFailed(OtherError(_, message))) =>
        return UpdateCrashed(message);
    }
  }
}
