/** Currency codes, pair keys and history record ids of the rate store
    (valutatrade_hub/parser_service/storage.py, lines 28-100). */
module PairKeys {
  import opened Text
  import opened Results

  /** The `ValueError`s raised by the key helpers, with their messages. */
  datatype KeyError =
    | InvalidPairFormat(pair: string)
    | InvalidFromInPair(code: string)
    | InvalidToInPair(code: string)
    | InvalidFromCode(code: string)
    | InvalidToCode(code: string)
  {
    function Message(): string
    {
      match this
      case InvalidPairFormat(pair) => "Invalid pair format: " + pair + ". Expected FROM_TO"
      case InvalidFromInPair(code) => "Invalid FROM currency in pair: " + code
      case InvalidToInPair(code) => "Invalid TO currency in pair: " + code
      case InvalidFromCode(code) => "Invalid FROM currency code: " + code
      case InvalidToCode(code) => "Invalid TO currency code: " + code
    }
  }

  /** Every character is a capital letter A-Z (a left-to-right scan). */
  predicate AllCapitals(s: string)
  {
    |s| == 0 || (IsUpperLetter(s[0]) && AllCapitals(s[1..]))
  }

  lemma {:induction false} AllCapitalsIff(s: string)
    ensures AllCapitals(s) <==> forall i :: 0 <= i < |s| ==> IsUpperLetter(s[i])
  {
    if |s| > 0 {
      AllCapitalsIff(s[1..]);
      assert forall i :: 1 <= i < |s| ==> s[i] == s[1..][i - 1];
    }
  }

  /** `validate_currency_code` with the pattern read as intended: the code is
      two to five characters, each a capital letter A-Z. */
  function ValidateCurrencyCode(code: string): (ok: bool)
    ensures ok <==> 2 <= |code| <= 5 && forall i :: 0 <= i < |code| ==> IsUpperLetter(code[i])
  {
    AllCapitalsIff(code);
    2 <= |code| <= 5 && AllCapitals(code)
  }

  /** A valid code never contains the pair separator. */
  lemma ValidCodeHasNoSeparator(code: string)
    requires ValidateCurrencyCode(code)
    ensures '_' !in code && '\n' !in code
  {
    assert forall c :: c in code ==> IsUpperLetter(c);
  }

  // ---------------------------------------------------------------------------
  // The pattern as the source writes it
  // ---------------------------------------------------------------------------

  /** Python's `$` without MULTILINE: the end of the string, or the position
      just before a newline that ends it. */
  predicate DollarAt(s: string, pos: nat)
  {
    pos == |s| || (pos + 1 == |s| && s[pos] == '\n')
  }

  /** `re.match(r"^[A-Z]{2,5}$", code)` succeeds: some run of two to five
      leading capitals is followed by a position where `$` matches. */
  predicate CodePatternMatches(code: string)
  {
    exists n :: 2 <= n <= 5 && n <= |code| && DollarAt(code, n) && AllCapitals(code[..n])
  }

  /** The pattern as written accepts exactly the valid codes plus the valid
      codes followed by one trailing newline. */
  lemma CodePatternMatchesIff(code: string)
    ensures CodePatternMatches(code) <==>
      ValidateCurrencyCode(code)
      || (|code| >= 1 && code[|code| - 1] == '\n' && ValidateCurrencyCode(code[..|code| - 1]))
  {
    if ValidateCurrencyCode(code) {
      assert code[..|code|] == code;
      assert DollarAt(code, |code|);
    } else if |code| >= 1 && code[|code| - 1] == '\n' && ValidateCurrencyCode(code[..|code| - 1]) {
      assert DollarAt(code, |code| - 1);
    }
    if CodePatternMatches(code) {
      var n :| 2 <= n <= 5 && n <= |code| && DollarAt(code, n) && AllCapitals(code[..n]);
      AllCapitalsIff(code[..n]);
      if n == |code| {
        assert code[..n] == code;
      }
    }
  }

  /** The discrepancy: "USD\n" passes the pattern as written but is not a
      currency code. */
  lemma TrailingNewlineAccepted()
    ensures CodePatternMatches("USD\n")
    ensures !ValidateCurrencyCode("USD\n")
  {
    var s := "USD\n";
    assert s[..3] == "USD";
    assert AllCapitals("USD"[1..][1..][1..]);
    assert DollarAt(s, 3);
  }

  // ---------------------------------------------------------------------------
  // Pair keys and record ids
  // ---------------------------------------------------------------------------

  /** The canonical key `"{FROM}_{TO}"`. */
  function PairKey(from: string, to: string): string
  {
    from + "_" + to
  }

  /** Keys with the same TO part differ exactly when their FROM parts differ. */
  lemma PairKeyInjective(a: string, b: string, to: string)
    requires PairKey(a, to) == PairKey(b, to)
    ensures a == b
  {
    assert |a| == |b|;
    assert a == PairKey(a, to)[..|a|];
    assert b == PairKey(b, to)[..|b|];
  }

  /** `PairKeyInjective` for every pair of FROM parts at once. */
  lemma PairKeyInjectiveAll(to: string)
    ensures forall a, b :: PairKey(a, to) == PairKey(b, to) ==> a == b
  {
    forall a, b | PairKey(a, to) == PairKey(b, to)
      ensures a == b
    {
      PairKeyInjective(a, b, to);
    }
  }

  /** `parse_pair`: split on "_", demand exactly two pieces, then a valid FROM,
      then a valid TO. */
  function ParsePair(pair: string): (r: Result<(string, string), KeyError>)
    ensures r.Ok? <==>
      (var parts := Split(pair, '_');
       |parts| == 2 && ValidateCurrencyCode(parts[0]) && ValidateCurrencyCode(parts[1]))
    ensures |Split(pair, '_')| != 2 ==> r == Err(InvalidPairFormat(pair))
    ensures r.Ok? ==>
      pair == PairKey(r.value.0, r.value.1)
      && ValidateCurrencyCode(r.value.0) && ValidateCurrencyCode(r.value.1)
  {
    var parts := Split(pair, '_');
    if |parts| != 2 then Err(InvalidPairFormat(pair))
    else
      SplitTwoInverse(pair, '_');
      if !ValidateCurrencyCode(parts[0]) then Err(InvalidFromInPair(parts[0]))
      else if !ValidateCurrencyCode(parts[1]) then Err(InvalidToInPair(parts[1]))
      else Ok((parts[0], parts[1]))
  }

  /** Round trip: the key built from two valid codes parses back to them, in order. */
  lemma ParsePairRoundTrip(from: string, to: string)
    requires ValidateCurrencyCode(from) && ValidateCurrencyCode(to)
    ensures ParsePair(PairKey(from, to)) == Ok((from, to))
  {
    ValidCodeHasNoSeparator(from);
    ValidCodeHasNoSeparator(to);
    SplitTwo(from, '_', to);
  }

  /** A key parses exactly when it is some valid FROM and valid TO joined by "_". */
  lemma ParsePairAcceptsExactlyPairKeys(pair: string)
    ensures ParsePair(pair).Ok? <==>
      exists from, to :: ValidateCurrencyCode(from) && ValidateCurrencyCode(to) && pair == PairKey(from, to)
  {
    if exists from, to :: ValidateCurrencyCode(from) && ValidateCurrencyCode(to) && pair == PairKey(from, to) {
      var from, to :| ValidateCurrencyCode(from) && ValidateCurrencyCode(to) && pair == PairKey(from, to);
      ParsePairRoundTrip(from, to);
    }
  }

  /** `generate_record_id`: FROM is checked first, then TO, and the id is
      `"{FROM}_{TO}_{timestamp}"`. */
  function GenerateRecordId(from: string, to: string, timestamp: string): (r: Result<string, KeyError>)
    ensures r.Ok? <==> ValidateCurrencyCode(from) && ValidateCurrencyCode(to)
    ensures !ValidateCurrencyCode(from) ==> r == Err(InvalidFromCode(from))
    ensures ValidateCurrencyCode(from) && !ValidateCurrencyCode(to) ==> r == Err(InvalidToCode(to))
    ensures r.Ok? ==> r.value == PairKey(from, to) + "_" + timestamp
  {
    if !ValidateCurrencyCode(from) then Err(InvalidFromCode(from))
    else if !ValidateCurrencyCode(to) then Err(InvalidToCode(to))
    else Ok(from + "_" + to + "_" + timestamp)
  }

  /** A record id splits back into FROM, TO and a timestamp free of "_"; its
      first two pieces parse as the record's pair. */
  lemma RecordIdDecodes(from: string, to: string, timestamp: string)
    requires GenerateRecordId(from, to, timestamp).Ok?
    requires '_' !in timestamp
    ensures Split(GenerateRecordId(from, to, timestamp).value, '_') == [from, to, timestamp]
    ensures ParsePair(PairKey(from, to)) == Ok((from, to))
  {
    ValidCodeHasNoSeparator(from);
    ValidCodeHasNoSeparator(to);
    var id := from + "_" + to + "_" + timestamp;
    assert id == from + ['_'] + (to + ['_'] + timestamp);
    SplitCons(from, '_', to + ['_'] + timestamp);
    SplitTwo(to, '_', timestamp);
    ParsePairRoundTrip(from, to);
  }
}
