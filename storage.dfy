/** The two JSON stores of the parser service
    (valutatrade_hub/parser_service/storage.py): the append-only history log
    `exchange_rates.json` and the rate cache `rates.json`. A file is an
    abstract value that a successful write replaces whole; a failed write
    leaves it as it was. */
module Storage {
  import opened Text
  import opened Results
  import opened PairKeys
  import PyDict

  /** `StorageError`, the `ValueError` of `parse_pair`, and any other
      exception the storage code lets escape (its class name and `str()`). */
  datatype StoreError =
    | StorageError(message: string)
    | ValueError(message: string)
    | OtherError(kind: string, message: string)

  /** The scalar JSON values, by the Python type `json.load` gives them. */
  datatype Scalar = IntValue | FloatValue | BoolValue | NullValue

  /** A decoded document whose top level is not an object: an array (only
      its string elements can be equal to a key), a string, or a scalar. */
  datatype TopLevel = ListValue(strings: seq<string>) | TextValue(text: string) | ScalarValue(scalar: Scalar)

  /** The Python type name of the decoded value. */
  function PyTypeName(v: TopLevel): string
  {
    match v
    case ListValue(_) => "list"
    case TextValue(_) => "str"
    case ScalarValue(IntValue) => "int"
    case ScalarValue(FloatValue) => "float"
    case ScalarValue(BoolValue) => "bool"
    case ScalarValue(NullValue) => "NoneType"
  }

  /** `str(type(v))`, as the f-strings of the storage errors print it. */
  function TypeRepr(v: TopLevel): string
  {
    "<class '" + PyTypeName(v) + "'>"
  }

  /** Python's `key in v` on a list or a string (a scalar raises `TypeError`
      instead): list membership, or substring. */
  predicate Has(v: TopLevel, key: string)
    requires !v.ScalarValue?
  {
    match v
    case ListValue(strings) => key in strings
    case TextValue(text) => Contains(text, key)
  }

  /** What opening and decoding a JSON file can meet: `Unreadable` is an
      `OSError` of `open` or `read`, `NotUtf8` a `UnicodeDecodeError` of the
      UTF-8 text layer, `Undecodable` a `JSONDecodeError`. */
  datatype JsonFile<T> =
    | Missing
    | Unreadable(reason: string)
    | NotUtf8(reason: string)
    | Undecodable(reason: string)
    | NotObject(value: TopLevel)
    | Present(doc: T)

  // ---------------------------------------------------------------------------
  // History log
  // ---------------------------------------------------------------------------

  /** The optional meta fields of a history record; `None` means the argument was `None`. */
  datatype RecordMeta = RecordMeta(
    rawId: Option<string>,
    requestMs: Option<int>,
    statusCode: Option<int>,
    etag: Option<string>)

  /** The keyword defaults of `add_history_record`: only `status_code=200` is set. */
  const DefaultMeta := RecordMeta(None, None, Some(200), None)

  datatype HistoryRecord = HistoryRecord(
    id: string,
    from: string,
    to: string,
    rate: real,
    updatedAt: string,
    source: string,
    meta: RecordMeta)

  const MandatoryRecordKeys: set<string> := {"id", "from", "to", "rate", "updated_at", "source"}

  /** The keys of the JSON object a record is written as. */
  function RecordKeys(r: HistoryRecord): set<string>
  {
    MandatoryRecordKeys
    + (if r.meta.rawId.Some? then {"raw_id"} else {})
    + (if r.meta.requestMs.Some? then {"request_ms"} else {})
    + (if r.meta.statusCode.Some? then {"status_code"} else {})
    + (if r.meta.etag.Some? then {"etag"} else {})
  }

  /** The record built for a parsed pair: its id is the generated record id,
      the six mandatory keys are always there, and each meta key is there
      exactly when its argument is not `None`. */
  function NewRecord(from: string, to: string, rate: real, source: string, at: string, meta: RecordMeta): (r: HistoryRecord)
    requires ValidateCurrencyCode(from) && ValidateCurrencyCode(to)
    ensures GenerateRecordId(from, to, at) == Ok(r.id)
    ensures r.from == from && r.to == to && r.rate == rate && r.updatedAt == at && r.source == source
    ensures MandatoryRecordKeys <= RecordKeys(r)
    ensures ("raw_id" in RecordKeys(r) <==> meta.rawId.Some?)
         && ("request_ms" in RecordKeys(r) <==> meta.requestMs.Some?)
         && ("status_code" in RecordKeys(r) <==> meta.statusCode.Some?)
         && ("etag" in RecordKeys(r) <==> meta.etag.Some?)
  {
    HistoryRecord(from + "_" + to + "_" + at, from, to, rate, at, source, meta)
  }

  datatype HistoryDoc = HistoryDoc(history: Option<seq<HistoryRecord>>, lastUpdated: Option<string>)

  /** `read_exchange_rates_history`: a missing file reads as an empty log, a
      missing "history" key is repaired to an empty list, and unreadable,
      undecodable or non-object content is a `StorageError`. A file that is
      not UTF-8 raises `UnicodeDecodeError`, which neither handler catches. */
  function ReadHistory(file: JsonFile<HistoryDoc>): (r: Result<HistoryDoc, StoreError>)
    ensures r.Ok? <==> file.Missing? || file.Present?
    ensures r.Ok? ==> r.value.history.Some?
    ensures r.Err? && !file.NotUtf8? ==> r.error.StorageError?
    ensures file.NotUtf8? ==> r == Err(OtherError("UnicodeDecodeError", file.reason))
  {
    match file
    case Missing => Ok(HistoryDoc(Some([]), None))
    case Unreadable(reason) => Err(StorageError("Error reading history file: " + reason))
    case NotUtf8(reason) => Err(OtherError("UnicodeDecodeError", reason))
    case Undecodable(reason) => Err(StorageError("Invalid JSON in history file: " + reason))
    case NotObject(v) => Err(StorageError("Invalid history file format: expected dict, got " + TypeRepr(v)))
    case Present(doc) => if doc.history.None? then Ok(doc.(history := Some([]))) else Ok(doc)
  }

  /** Reading back a written log gives the written document. */
  lemma ReadHistoryAfterWrite(doc: HistoryDoc)
    requires doc.history.Some?
    ensures ReadHistory(Present(doc)) == Ok(doc)
  {
  }

  /** The outcome of `add_history_record` on a history file, as a value:
      the result and the file afterwards. */
  function AddHistory(
    file: JsonFile<HistoryDoc>, writeError: Option<string>,
    pair: string, rate: real, source: string, timestamp: Option<string>, clock: string, meta: RecordMeta
  ): (out: (Result<HistoryRecord, StoreError>, JsonFile<HistoryDoc>))
    ensures ParsePair(pair).Err? ==> out == (Err(ValueError(ParsePair(pair).error.Message())), file)
    ensures out.0.Err? ==> out.1 == file
    ensures out.0.Ok? <==> ParsePair(pair).Ok? && ReadHistory(file).Ok? && writeError.None?
    ensures out.0.Ok? ==>
      var rec := out.0.value;
      PairKey(rec.from, rec.to) == pair && rec.rate == rate && rec.source == source
      && rec.updatedAt == timestamp.GetOr(clock) && rec.meta == meta
  {
    match ParsePair(pair)
    case Err(e) => (Err(ValueError(e.Message())), file)
    case Ok((from, to)) =>
      var at := timestamp.GetOr(clock);
      var rec := NewRecord(from, to, rate, source, at, meta);
      match ReadHistory(file)
      case Err(e) => (Err(e), file)
      case Ok(doc) =>
        if writeError.Some? then (Err(StorageError("Error writing history file: " + writeError.value)), file)
        else (Ok(rec), Present(doc.(history := Some(doc.history.value + [rec]), lastUpdated := Some(at))))
  }

  /** Append-only: a successful `add_history_record` adds exactly one record at
      the end, keeps the earlier records, and sets `last_updated` to the
      record's timestamp. */
  lemma AddHistoryAppendsOne(
    file: JsonFile<HistoryDoc>, writeError: Option<string>,
    pair: string, rate: real, source: string, timestamp: Option<string>, clock: string, meta: RecordMeta)
    requires AddHistory(file, writeError, pair, rate, source, timestamp, clock, meta).0.Ok?
    ensures
      var (r, after) := AddHistory(file, writeError, pair, rate, source, timestamp, clock, meta);
      var before := ReadHistory(file).value;
      ReadHistory(after).Ok?
      && ReadHistory(after).value.history.value == before.history.value + [r.value]
      && ReadHistory(after).value.lastUpdated == Some(r.value.updatedAt)
      && r.value.updatedAt == timestamp.GetOr(clock)
  {
  }

  // ---------------------------------------------------------------------------
  // Rate cache
  // ---------------------------------------------------------------------------

  /** One entry of "pairs"; `None` stands for a missing key. */
  datatype CacheEntry = CacheEntry(rate: real, updatedAt: Option<string>, source: Option<string>)

  /** The top-level keys of `rates.json` the model distinguishes: the current
      "pairs"/"last_refresh" and the legacy "rates"/"base_currency"/"updated_at". */
  datatype RatesDoc = RatesDoc(
    pairs: Option<map<string, CacheEntry>>,
    lastRefresh: Option<string>,
    legacyRates: Option<map<string, real>>,
    baseCurrency: Option<string>,
    updatedAt: Option<string>)

  const EmptyCache := RatesDoc(Some(map[]), None, None, None, None)

  /** The legacy migration: one `"{CODE}_{BASE}"` entry per legacy code other
      than the base, dated `at` and marked "migrated". */
  function LegacyPairs(rates: map<string, real>, base: string, at: string): (pairs: map<string, CacheEntry>)
    ensures forall code :: code in rates && code != base ==>
      PairKey(code, base) in pairs
      && pairs[PairKey(code, base)] == CacheEntry(rates[code], Some(at), Some("migrated"))
    ensures forall key :: key in pairs ==>
      exists code :: code in rates && code != base && key == PairKey(code, base)
  {
    PairKeyInjectiveAll(base);
    map code | code in rates && code != base :: PairKey(code, base) := CacheEntry(rates[code], Some(at), Some("migrated"))
  }

  /** `read_rates_cache` on a document that is not an object. The migration
      test `"rates" in data and "pairs" not in data` runs before the type
      check: on a scalar it raises `TypeError`, on a list or string that
      holds "rates" but not "pairs" the `data.get` that follows raises
      `AttributeError`; neither is caught. Only what passes the test reaches
      the `StorageError`. */
  function NotObjectOnRead(v: TopLevel): (e: StoreError)
    ensures e.StorageError? <==> !v.ScalarValue? && !(Has(v, "rates") && !Has(v, "pairs"))
    ensures e.OtherError? && e.kind == "TypeError" <==> v.ScalarValue?
    ensures e.StorageError? ==> e.message == "Invalid cache file format: expected dict, got " + TypeRepr(v)
  {
    if v.ScalarValue? then OtherError("TypeError", "argument of type '" + PyTypeName(v) + "' is not iterable")
    else if Has(v, "rates") && !Has(v, "pairs") then OtherError("AttributeError", "'" + PyTypeName(v) + "' object has no attribute 'get'")
    else StorageError("Invalid cache file format: expected dict, got " + TypeRepr(v))
  }

  /** The number `5` as a cache document raises `TypeError`. */
  lemma ScalarCacheIsTypeError()
    ensures NotObjectOnRead(ScalarValue(IntValue)) == OtherError("TypeError", "argument of type 'int' is not iterable")
  {
  }

  /** The string "rates" and the list `["rates"]` as a cache document pass
      the migration test and raise `AttributeError` at `data.get`. */
  lemma RatesTextIsAttributeError()
    ensures var e := NotObjectOnRead(TextValue("rates")); e.OtherError? && e.kind == "AttributeError"
    ensures var e := NotObjectOnRead(ListValue(["rates"])); e.OtherError? && e.kind == "AttributeError"
  {
    assert "rates" <= "rates";
    assert "rates"[0] != "pairs"[0];
    ContainsLonger("rates"[1..], "pairs");
  }

  /** An empty list as a cache document is the `StorageError`. */
  lemma EmptyListIsStorageError()
    ensures NotObjectOnRead(ListValue([])).StorageError?
  {
  }

  /** `read_rates_cache`: a missing file reads as an empty cache; a file with
      "rates" and no "pairs" is migrated; a missing "pairs" is repaired to an
      empty map; unreadable and undecodable files are `StorageError`s, a
      file that is not UTF-8 raises the uncaught `UnicodeDecodeError`, and a
      non-object document fails as `NotObjectOnRead` says. */
  function RatesOnRead(file: JsonFile<RatesDoc>, clock: string): (r: Result<RatesDoc, StoreError>)
    ensures r.Ok? <==> file.Missing? || file.Present?
    ensures r.Ok? ==> r.value.pairs.Some?
    ensures r.Err? && !file.NotObject? && !file.NotUtf8? ==> r.error.StorageError?
    ensures file.NotUtf8? ==> r == Err(OtherError("UnicodeDecodeError", file.reason))
    ensures file.NotObject? ==> r == Err(NotObjectOnRead(file.value))
  {
    match file
    case Missing => Ok(EmptyCache)
    case Unreadable(reason) => Err(StorageError("Error reading cache file: " + reason))
    case NotUtf8(reason) => Err(OtherError("UnicodeDecodeError", reason))
    case Undecodable(reason) => Err(StorageError("Invalid JSON in cache file: " + reason))
    case NotObject(v) => Err(NotObjectOnRead(v))
    case Present(doc) =>
      if doc.legacyRates.Some? && doc.pairs.None? then
        var at := doc.updatedAt.GetOr(clock);
        Ok(RatesDoc(Some(LegacyPairs(doc.legacyRates.value, doc.baseCurrency.GetOr("USD"), at)), Some(at), None, None, None))
      else if doc.pairs.None? then Ok(doc.(pairs := Some(map[])))
      else Ok(doc)
  }

  /** Reading a legacy file: every non-base code becomes `"{CODE}_{BASE}"`
      (base "USD" when absent) with source "migrated", nothing else is in
      "pairs", and `last_refresh` is the old `updated_at`, or the clock when
      that is absent. */
  lemma LegacyMigration(doc: RatesDoc, clock: string)
    requires doc.legacyRates.Some? && doc.pairs.None?
    ensures
      var r := RatesOnRead(Present(doc), clock);
      var base := doc.baseCurrency.GetOr("USD");
      var at := doc.updatedAt.GetOr(clock);
      r.Ok? && r.value.lastRefresh == Some(at)
      && (forall code :: code in doc.legacyRates.value && code != base ==>
            PairKey(code, base) in r.value.pairs.value
            && r.value.pairs.value[PairKey(code, base)] == CacheEntry(doc.legacyRates.value[code], Some(at), Some("migrated")))
      && (forall key :: key in r.value.pairs.value ==> r.value.pairs.value[key].source == Some("migrated"))
      && PairKey(base, base) !in r.value.pairs.value
  {
    var base := doc.baseCurrency.GetOr("USD");
    var pairs := RatesOnRead(Present(doc), clock).value.pairs.value;
    if PairKey(base, base) in pairs {
      var code :| code in doc.legacyRates.value && code != base && PairKey(base, base) == PairKey(code, base);
      PairKeyInjective(base, code, base);
    }
  }

  /** Reading back a written cache gives the written document. */
  lemma RatesOnReadAfterWrite(doc: RatesDoc, clock: string)
    requires doc.pairs.Some?
    ensures RatesOnRead(Present(doc), clock) == Ok(doc)
  {
  }

  /** The loop of the legacy branch that builds "pairs" entry by entry. */
  method MigrateLegacy(rates: map<string, real>, base: string, at: string) returns (pairs: map<string, CacheEntry>)
    ensures pairs == LegacyPairs(rates, base, at)
  {
    PairKeyInjectiveAll(base);
    pairs := map[];
    var todo := rates.Keys;
    while todo != {}
      invariant todo <= rates.Keys
      invariant forall code :: code in rates && code !in todo && code != base ==>
        PairKey(code, base) in pairs
        && pairs[PairKey(code, base)] == CacheEntry(rates[code], Some(at), Some("migrated"))
      invariant forall key :: key in pairs ==>
        exists code :: code in rates && code !in todo && code != base && key == PairKey(code, base)
      decreases todo
    {
      var code :| code in todo;
      if code != base {
        pairs := pairs[PairKey(code, base) := CacheEntry(rates[code], Some(at), Some("migrated"))];
      }
      todo := todo - {code};
    }
    SameLegacyPairs(pairs, rates, base, at);
  }

  /** A map with the characterisation of `LegacyPairs` is `LegacyPairs`. */
  lemma SameLegacyPairs(pairs: map<string, CacheEntry>, rates: map<string, real>, base: string, at: string)
    requires forall code :: code in rates && code != base ==>
      PairKey(code, base) in pairs
      && pairs[PairKey(code, base)] == CacheEntry(rates[code], Some(at), Some("migrated"))
    requires forall key :: key in pairs ==>
      exists code :: code in rates && code != base && key == PairKey(code, base)
    ensures pairs == LegacyPairs(rates, base, at)
  {
    var spec := LegacyPairs(rates, base, at);
    forall key | key in pairs
      ensures key in spec && spec[key] == pairs[key]
    {
      var code :| code in rates && code != base && key == PairKey(code, base);
    }
    forall key | key in spec
      ensures key in pairs
    {
      var code :| code in rates && code != base && key == PairKey(code, base);
    }
  }

  /** `read_rates_cache` as the step-by-step operation on a file value. */
  method ReadRatesCache(file: JsonFile<RatesDoc>, clock: string) returns (r: Result<RatesDoc, StoreError>)
    ensures r == RatesOnRead(file, clock)
  {
    match file {
      case Missing =>
        return Ok(EmptyCache);
      case Unreadable(reason) =>
        return Err(StorageError("Error reading cache file: " + reason));
      case NotUtf8(reason) =>
        return Err(OtherError("UnicodeDecodeError", reason));
      case Undecodable(reason) =>
        return Err(StorageError("Invalid JSON in cache file: " + reason));
      case NotObject(v) =>
        if v.ScalarValue? {
          return Err(OtherError("TypeError", "argument of type '" + PyTypeName(v) + "' is not iterable"));
        }
        if Has(v, "rates") && !Has(v, "pairs") {
          return Err(OtherError("AttributeError", "'" + PyTypeName(v) + "' object has no attribute 'get'"));
        }
        return Err(StorageError("Invalid cache file format: expected dict, got " + TypeRepr(v)));
      case Present(doc) =>
        var data := doc;
        if data.legacyRates.Some? && data.pairs.None? {
          var base := data.baseCurrency.GetOr("USD");
          var at := data.updatedAt.GetOr(clock);
          var pairs := MigrateLegacy(data.legacyRates.value, base, at);
          data := RatesDoc(Some(pairs), Some(at), None, None, None);
        }
        if data.pairs.None? {
          data := data.(pairs := Some(map[]));
        }
        return Ok(data);
    }
  }

  // ---------------------------------------------------------------------------
  // The no-regression merge of `update_rates_cache`
  // ---------------------------------------------------------------------------

  /** The cached timestamp of a pair, "" when the entry has none. */
  function CachedAt(pairs: map<string, CacheEntry>, pair: string): string
    requires pair in pairs
  {
    pairs[pair].updatedAt.GetOr("")
  }

  /** An incoming pair is written unless the cached entry's timestamp is
      greater than or equal to the incoming one. */
  predicate Applies(pairs: map<string, CacheEntry>, pair: string, ts: string)
  {
    pair !in pairs || Less(CachedAt(pairs, pair), ts)
  }

  /** "pairs" after merging `rates` from `source` at `ts`. */
  function Merged(pairs: map<string, CacheEntry>, rates: map<string, real>, source: string, ts: string): map<string, CacheEntry>
  {
    map pair | pair in pairs.Keys + rates.Keys ::
      if pair in rates && Applies(pairs, pair, ts) then CacheEntry(rates[pair], Some(ts), Some(source))
      else pairs[pair]
  }

  /** The merge keeps every cached key and adds the incoming ones; an incoming
      pair that applies gets the new rate, the timestamp and the source; a
      cached pair that is not incoming, or does not apply, is left as it was. */
  lemma MergedShape(pairs: map<string, CacheEntry>, rates: map<string, real>, source: string, ts: string)
    ensures var m := Merged(pairs, rates, source, ts);
      m.Keys == pairs.Keys + rates.Keys
      && (forall pair :: pair in rates && Applies(pairs, pair, ts) ==>
            m[pair] == CacheEntry(rates[pair], Some(ts), Some(source)))
      && (forall pair :: pair in pairs && !(pair in rates && Applies(pairs, pair, ts)) ==> m[pair] == pairs[pair])
  {
  }

  /** No regression: an entry whose cached timestamp is at least the incoming
      one is kept, equal timestamps included. */
  lemma MergeNoRegression(pairs: map<string, CacheEntry>, rates: map<string, real>, source: string, ts: string, pair: string)
    requires pair in pairs && LessEq(ts, CachedAt(pairs, pair))
    ensures Merged(pairs, rates, source, ts)[pair] == pairs[pair]
  {
    NotLessIsGreaterEq(CachedAt(pairs, pair), ts);
  }

  /** An entry's timestamp never goes backwards under a merge. */
  lemma MergeMonotone(pairs: map<string, CacheEntry>, rates: map<string, real>, source: string, ts: string, pair: string)
    requires pair in pairs
    ensures LessEq(CachedAt(pairs, pair), CachedAt(Merged(pairs, rates, source, ts), pair))
  {
  }

  /** Repeating a merge with the same timestamp changes nothing. */
  lemma {:induction false} MergeIdempotent(pairs: map<string, CacheEntry>, rates: map<string, real>, source: string, ts: string)
    ensures Merged(Merged(pairs, rates, source, ts), rates, source, ts) == Merged(pairs, rates, source, ts)
  {
    var once := Merged(pairs, rates, source, ts);
    forall pair | pair in rates
      ensures !Applies(once, pair, ts)
    {
      if Applies(pairs, pair, ts) {
        LessIrreflexive(ts);
      } else {
        NotLessIsGreaterEq(CachedAt(pairs, pair), ts);
      }
    }
  }

  /** A later batch overwrites what an earlier batch wrote. */
  lemma {:induction false} MergeLaterWins(
    pairs: map<string, CacheEntry>, early: map<string, real>, late: map<string, real>,
    s1: string, s2: string, t1: string, t2: string, pair: string)
    requires Less(t1, t2)
    requires pair in early && pair in late && Applies(pairs, pair, t1)
    ensures Merged(Merged(pairs, early, s1, t1), late, s2, t2)[pair] == CacheEntry(late[pair], Some(t2), Some(s2))
  {
    assert CachedAt(Merged(pairs, early, s1, t1), pair) == t1;
  }

  /** An earlier batch arriving after a later one does not undo it. */
  lemma {:induction false} MergeStaleBatchIgnored(
    pairs: map<string, CacheEntry>, early: map<string, real>, late: map<string, real>,
    s1: string, s2: string, t1: string, t2: string, pair: string)
    requires LessEq(t1, t2)
    requires pair in late && Applies(pairs, pair, t2)
    ensures Merged(Merged(pairs, late, s2, t2), early, s1, t1)[pair] == CacheEntry(late[pair], Some(t2), Some(s2))
  {
    var once := Merged(pairs, late, s2, t2);
    assert CachedAt(once, pair) == t2;
    MergeNoRegression(once, early, s1, t1, pair);
  }

  /** A map that agrees with the merge key by key is the merge. */
  lemma MergedByKey(current: map<string, CacheEntry>, pairs: map<string, CacheEntry>, rates: map<string, real>, source: string, ts: string)
    requires current.Keys == pairs.Keys + rates.Keys
    requires forall pair :: pair in current ==>
      current[pair] == if pair in rates && Applies(pairs, pair, ts)
                       then CacheEntry(rates[pair], Some(ts), Some(source)) else pairs[pair]
    ensures current == Merged(pairs, rates, source, ts)
  {
  }

  /** The position of the first key of `rates`, in insertion order, that
      `parse_pair` rejects; `None` when every key is a valid pair. */
  function FirstInvalid(rates: PyDict.Dict<real>): (r: Option<nat>)
    ensures r.None? <==> forall j :: 0 <= j < |rates| ==> ParsePair(rates[j].0).Ok?
    ensures r.Some? ==>
      r.value < |rates| && ParsePair(rates[r.value].0).Err?
      && (forall j :: 0 <= j < r.value ==> ParsePair(rates[j].0).Ok?)
  {
    if |rates| == 0 then None
    else if ParsePair(rates[0].0).Err? then Some(0)
    else
      match FirstInvalid(rates[1..])
      case None => None
      case Some(i) => Some(i + 1)
  }

  /** A key that `parse_pair` rejects after only valid ones is the first invalid key. */
  lemma FirstInvalidAt(rates: PyDict.Dict<real>, i: nat)
    requires i < |rates| && ParsePair(rates[i].0).Err?
    requires forall j :: 0 <= j < i ==> ParsePair(rates[j].0).Ok?
    ensures FirstInvalid(rates) == Some(i)
  {
  }

  /** The `ValueError` the merge loop raises: that of the first invalid key. */
  function InvalidPairError(rates: PyDict.Dict<real>): StoreError
    requires FirstInvalid(rates).Some?
  {
    ValueError(ParsePair(rates[FirstInvalid(rates).value].0).error.Message())
  }

  /** One turn of the merge loop: merging the entries seen so far and one
      more is merging the entries seen so far, then writing the new pair if
      it applies. A key met again changes nothing. */
  lemma MergeStep(pairs: map<string, CacheEntry>, seen: PyDict.Dict<real>, pair: string, rate: real, source: string, ts: string)
    ensures var current := Merged(pairs, PyDict.ToMap(seen), source, ts);
      Merged(pairs, PyDict.ToMap(seen + [(pair, rate)]), source, ts)
      == if Applies(current, pair, ts) then current[pair := CacheEntry(rate, Some(ts), Some(source))] else current
  {
    PyDict.ToMapSnoc(seen, pair, rate);
    var m := PyDict.ToMap(seen);
    var current := Merged(pairs, m, source, ts);
    if pair in m {
      if Applies(pairs, pair, ts) {
        LessIrreflexive(ts);
      } else {
        NotLessIsGreaterEq(CachedAt(pairs, pair), ts);
      }
      assert !Applies(current, pair, ts);
    } else {
      assert Applies(current, pair, ts) == Applies(pairs, pair, ts);
      MergedByKey(
        if Applies(current, pair, ts) then current[pair := CacheEntry(rate, Some(ts), Some(source))] else current,
        pairs, m[pair := rate], source, ts);
    }
  }

  /** Before the first turn nothing is merged. */
  lemma MergeNothing(pairs: map<string, CacheEntry>, rates: PyDict.Dict<real>, source: string, ts: string)
    ensures Merged(pairs, PyDict.ToMap(rates[..0]), source, ts) == pairs
  {
    assert PyDict.KeySet(rates[..0]) == {};
  }

  /** `MergeStep` at position `i` of the incoming dict. */
  lemma MergeTurn(pairs: map<string, CacheEntry>, rates: PyDict.Dict<real>, i: nat, source: string, ts: string)
    requires i < |rates|
    ensures var current := Merged(pairs, PyDict.ToMap(rates[..i]), source, ts);
      Merged(pairs, PyDict.ToMap(rates[..i + 1]), source, ts)
      == if Applies(current, rates[i].0, ts) then current[rates[i].0 := CacheEntry(rates[i].1, Some(ts), Some(source))] else current
  {
    assert rates[..i + 1] == rates[..i] + [(rates[i].0, rates[i].1)];
    MergeStep(pairs, rates[..i], rates[i].0, rates[i].1, source, ts);
  }

  /** The merge loop's map after its first `i` turns. */
  function MergedUpTo(pairs: map<string, CacheEntry>, rates: PyDict.Dict<real>, i: nat, source: string, ts: string): map<string, CacheEntry>
    requires i <= |rates|
  {
    if i == 0 then pairs
    else
      var current := MergedUpTo(pairs, rates, i - 1, source, ts);
      if Applies(current, rates[i - 1].0, ts) then current[rates[i - 1].0 := CacheEntry(rates[i - 1].1, Some(ts), Some(source))]
      else current
  }

  /** Turn by turn, the loop computes the merge of the entries it has seen. */
  lemma {:induction false} MergedUpToIsMerged(pairs: map<string, CacheEntry>, rates: PyDict.Dict<real>, i: nat, source: string, ts: string)
    requires i <= |rates|
    ensures MergedUpTo(pairs, rates, i, source, ts) == Merged(pairs, PyDict.ToMap(rates[..i]), source, ts)
  {
    if i == 0 {
      MergeNothing(pairs, rates, source, ts);
    } else {
      MergedUpToIsMerged(pairs, rates, i - 1, source, ts);
      var current := Merged(pairs, PyDict.ToMap(rates[..i - 1]), source, ts);
      var pair := rates[i - 1].0;
      var rate := rates[i - 1].1;
      assert MergedUpTo(pairs, rates, i, source, ts)
        == if Applies(current, pair, ts) then current[pair := CacheEntry(rate, Some(ts), Some(source))] else current;
      MergeTurn(pairs, rates, i - 1, source, ts);
    }
  }

  /** The loop of `update_rates_cache`: the incoming pairs are taken in
      insertion order, each validated with `parse_pair` (the first invalid
      one raises its `ValueError`) and written when it applies. */
  method MergeRates(pairs: map<string, CacheEntry>, rates: PyDict.Dict<real>, source: string, ts: string)
    returns (r: Result<map<string, CacheEntry>, StoreError>)
    ensures r.Err? <==> FirstInvalid(rates).Some?
    ensures r.Err? ==> r.error == InvalidPairError(rates)
    ensures r.Ok? ==> r.value == Merged(pairs, PyDict.ToMap(rates), source, ts)
  {
    var current := pairs;
    for i := 0 to |rates|
      invariant forall j :: 0 <= j < i ==> ParsePair(rates[j].0).Ok?
      invariant current == MergedUpTo(pairs, rates, i, source, ts)
    {
      var pair := rates[i].0;
      var parsed := ParsePair(pair);
      if parsed.Err? {
        FirstInvalidAt(rates, i);
        return Err(ValueError(parsed.error.Message()));
      }
      if Applies(current, pair, ts) {
        current := current[pair := CacheEntry(rates[i].1, Some(ts), Some(source))];
      }
    }
    MergedUpToIsMerged(pairs, rates, |rates|, source, ts);
    assert rates[..|rates|] == rates;
    return Ok(current);
  }

  // ---------------------------------------------------------------------------
  // `update_rates_cache` on a file
  // ---------------------------------------------------------------------------

  /** Every incoming key is a valid pair. */
  predicate AllPairsValid(rates: PyDict.Dict<real>)
  {
    FirstInvalid(rates).None?
  }

  /** The cache file after `update_rates_cache`: unchanged unless the read, the
      key validation and the write all succeed; then the merged pairs with
      `last_refresh` set to the timestamp, every other key kept. */
  function CacheAfterUpdate(
    file: JsonFile<RatesDoc>, writeError: Option<string>,
    rates: PyDict.Dict<real>, source: string, ts: string, clock: string
  ): (after: JsonFile<RatesDoc>)
    ensures after != file ==> after.Present? && after.doc.lastRefresh == Some(ts) && after.doc.pairs.Some?
  {
    match RatesOnRead(file, clock)
    case Err(_) => file
    case Ok(doc) =>
      if !AllPairsValid(rates) || writeError.Some? then file
      else Present(doc.(pairs := Some(Merged(doc.pairs.value, PyDict.ToMap(rates), source, ts)), lastRefresh := Some(ts)))
  }

  /** `update_rates_cache` succeeds exactly when the cache reads, every key is
      valid, and the write goes through. */
  predicate CacheUpdateSucceeds(file: JsonFile<RatesDoc>, writeError: Option<string>, rates: PyDict.Dict<real>, clock: string)
  {
    RatesOnRead(file, clock).Ok? && AllPairsValid(rates) && writeError.None?
  }

  /** What `update_rates_cache` raises, if anything: the read error as
      raised, then the `ValueError` of the first invalid key, then the
      write's `StorageError`. Only a non-object document or an invalid key
      raises something other than a `StorageError`. */
  function CacheUpdateOutcome(file: JsonFile<RatesDoc>, writeError: Option<string>, rates: PyDict.Dict<real>, clock: string)
    : (r: Result<(), StoreError>)
    ensures r.Ok? <==> CacheUpdateSucceeds(file, writeError, rates, clock)
    ensures RatesOnRead(file, clock).Err? ==> r == Err(RatesOnRead(file, clock).error)
    ensures RatesOnRead(file, clock).Ok? && !AllPairsValid(rates) ==> r == Err(InvalidPairError(rates))
    ensures r.Err? && !r.error.StorageError? <==>
      (file.NotObject? && !NotObjectOnRead(file.value).StorageError?)
      || file.NotUtf8?
      || (RatesOnRead(file, clock).Ok? && !AllPairsValid(rates))
  {
    match RatesOnRead(file, clock)
    case Err(e) => Err(e)
    case Ok(_) =>
      if !AllPairsValid(rates) then Err(InvalidPairError(rates))
      else if writeError.Some? then Err(StorageError("Error writing cache file: " + writeError.value))
      else Ok(())
  }

  /** A successful update sets `last_refresh` even when no pair applied, and
      keeps every cached pair that is not in the input. */
  lemma CacheUpdateRefreshes(
    file: JsonFile<RatesDoc>, writeError: Option<string>,
    rates: PyDict.Dict<real>, source: string, ts: string, clock: string)
    requires CacheUpdateSucceeds(file, writeError, rates, clock)
    ensures
      var before := RatesOnRead(file, clock).value;
      var after := CacheAfterUpdate(file, writeError, rates, source, ts, clock);
      after.Present? && after.doc.lastRefresh == Some(ts)
      && (forall pair :: pair in before.pairs.value && pair !in PyDict.KeySet(rates) ==> pair in after.doc.pairs.value && after.doc.pairs.value[pair] == before.pairs.value[pair])
      && after.doc.pairs.value.Keys == before.pairs.value.Keys + PyDict.KeySet(rates)
  {
  }

  /** Repeating the same `update_rates_cache` call leaves the cache as the
      first call left it. */
  lemma CacheUpdateIdempotent(
    file: JsonFile<RatesDoc>, writeError: Option<string>,
    rates: PyDict.Dict<real>, source: string, ts: string, clock: string)
    requires CacheUpdateSucceeds(file, writeError, rates, clock)
    ensures
      var once := CacheAfterUpdate(file, writeError, rates, source, ts, clock);
      CacheAfterUpdate(once, writeError, rates, source, ts, clock) == once
  {
    var before := RatesOnRead(file, clock).value;
    var once := CacheAfterUpdate(file, writeError, rates, source, ts, clock);
    RatesOnReadAfterWrite(once.doc, clock);
    MergeIdempotent(before.pairs.value, PyDict.ToMap(rates), source, ts);
  }

  /** The data directory the parser service writes: both files, and whether a
      write would fail (and with which `OSError` text). */
  class DataDir {
    var historyFile: JsonFile<HistoryDoc>
    var ratesFile: JsonFile<RatesDoc>
    var writeError: Option<string>

    constructor(historyFile: JsonFile<HistoryDoc>, ratesFile: JsonFile<RatesDoc>, writeError: Option<string>)
      ensures this.historyFile == historyFile && this.ratesFile == ratesFile && this.writeError == writeError
    {
      this.historyFile := historyFile;
      this.ratesFile := ratesFile;
      this.writeError := writeError;
    }

    /** `add_history_record`: validate the pair, read the log, append one
        record, set `last_updated`, write the log back. */
    method AddHistoryRecord(pair: string, rate: real, source: string, timestamp: Option<string>, clock: string, meta: RecordMeta)
      returns (r: Result<HistoryRecord, StoreError>)
      modifies this
      ensures (r, historyFile) == AddHistory(old(historyFile), writeError, pair, rate, source, timestamp, clock, meta)
      ensures ratesFile == old(ratesFile) && writeError == old(writeError)
    {
      var parsed := ParsePair(pair);
      if parsed.Err? {
        return Err(ValueError(parsed.error.Message()));
      }
      var (from, to) := parsed.value;
      var at := if timestamp.Some? then timestamp.value else clock;
      var record := NewRecord(from, to, rate, source, at, meta);
      var read := ReadHistory(historyFile);
      if read.Err? {
        return Err(read.error);
      }
      var data := read.value;
      data := data.(history := Some(data.history.value + [record]));
      data := data.(lastUpdated := Some(at));
      if writeError.Some? {
        return Err(StorageError("Error writing history file: " + writeError.value));
      }
      historyFile := Present(data);
      return Ok(record);
    }

    /** `update_rates_cache`: read the cache, merge the pairs that apply, set
        `last_refresh`, write the cache back; returns nothing on success. */
    method UpdateRatesCache(rates: PyDict.Dict<real>, source: string, timestamp: Option<string>, clock: string)
      returns (r: Result<(), StoreError>)
      modifies this
      ensures var ts := timestamp.GetOr(clock);
        ratesFile == CacheAfterUpdate(old(ratesFile), writeError, rates, source, ts, clock)
      ensures r.Ok? <==> CacheUpdateSucceeds(old(ratesFile), writeError, rates, clock)
      ensures RatesOnRead(old(ratesFile), clock).Err? ==> r == Err(RatesOnRead(old(ratesFile), clock).error)
      ensures RatesOnRead(old(ratesFile), clock).Ok? && !AllPairsValid(rates) ==> r == Err(InvalidPairError(rates))
      ensures r == CacheUpdateOutcome(old(ratesFile), writeError, rates, clock)
      ensures historyFile == old(historyFile) && writeError == old(writeError)
    {
      var ts := if timestamp.Some? then timestamp.value else clock;
      var read := ReadRatesCache(ratesFile, clock);
      if read.Err? {
        return Err(read.error);
      }
      var data := read.value;
      var merged := MergeRates(data.pairs.value, rates, source, ts);
      if merged.Err? {
        return Err(merged.error);
      }
      data := data.(pairs := Some(merged.value));
      data := data.(lastRefresh := Some(ts));
      if writeError.Some? {
        return Err(StorageError("Error writing cache file: " + writeError.value));
      }
      ratesFile := Present(data);
      return Ok(());
    }
  }
}
