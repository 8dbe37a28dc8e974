/** The update coordinator of the parser service
    (valutatrade_hub/parser_service/updater.py): `RatesUpdater.run_update`
    and the single-source `update_crypto_rates` / `update_fiat_rates`.
    A client is the value its `fetch_rates` produced: the rates dict, or the
    text of the exception it raised. The clock is a parameter: `ts` is the
    cycle's timestamp, `elapsed(i, j)` the `request_ms` reading taken for the
    j-th pair of the i-th client. */
module Updater {
  import opened Text
  import opened Results
  import PyDict
  import opened PairKeys
  import opened Storage
  import opened ParserConfig

  datatype ClientKind = CoinGeckoKind | ExchangeRateKind | OtherKind

  /** A client: its class, its class name, and what `fetch_rates()` gave. */
  datatype Client = Client(kind: ClientKind, name: string, response: Result<PyDict.Dict<real>, string>)

  /** Every fetched dict is a real dict: no key twice. */
  predicate WellFormed(clients: seq<Client>)
  {
    forall i :: 0 <= i < |clients| && clients[i].response.Ok? ==> PyDict.DistinctKeys(clients[i].response.value)
  }

  /** The "source" written with a client's history records. */
  function Source(c: Client): string
  {
    match c.kind
    case CoinGeckoKind => "CoinGecko"
    case ExchangeRateKind => "ExchangeRate-API"
    case OtherKind => c.name
  }

  datatype Stats = Stats(cryptoCount: int, fiatCount: int, totalCount: int, errors: int, success: int, failed: int)

  const ZeroStats := Stats(0, 0, 0, 0, 0, 0)

  /** Why `run_update` raised. */
  datatype UpdateError =
    | AllSourcesFailed(message: string)  // ApiRequestError: nothing was fetched
    | SplitFailed(message: string)       // ValueError from unpacking pair.split("_")
    | CacheFailed(error: StoreError)     // from update_rates_cache

  /** `a, b = pair.split("_")`: the two pieces, or the `ValueError` text
      when the split does not give exactly two. */
  function Unpack(pair: string): (r: Result<(string, string), string>)
    ensures r.Ok? <==> |Split(pair, '_')| == 2
    ensures r.Ok? ==> r.value == (Split(pair, '_')[0], Split(pair, '_')[1])
    ensures r.Ok? ==> pair == PairKey(r.value.0, r.value.1) && '_' !in r.value.0 && '_' !in r.value.1
  {
    var parts := Split(pair, '_');
    if |parts| == 2 then
      SplitTwoInverse(pair, '_');
      Ok((parts[0], parts[1]))
    else if |parts| > 2 then Err("too many values to unpack (expected 2)")
    else Err("not enough values to unpack (expected 2, got 1)")
  }

  /** `from_currency, _ = pair.split("_")`. */
  function FromPart(pair: string): (r: Result<string, string>)
    ensures r.Ok? <==> |Split(pair, '_')| == 2
    ensures r.Ok? ==> r.value == Split(pair, '_')[0]
  {
    match Unpack(pair)
    case Ok((from, _)) => Ok(from)
    case Err(e) => Err(e)
  }

  /** A key built from two pieces without "_" unpacks into those pieces. */
  lemma UnpackPairKey(from: string, to: string)
    requires '_' !in from && '_' !in to
    ensures Unpack(PairKey(from, to)) == Ok((from, to))
  {
    SplitTwo(from, '_', to);
  }

  // ---------------------------------------------------------------------------
  // History appends of one client
  // ---------------------------------------------------------------------------

  /** The meta fields of the j-th record of client `client`: the CoinGecko id
      of the FROM code when looked up, the elapsed milliseconds, status 200. */
  function PairMeta(rawId: Option<string>, elapsed: (nat, nat) -> int, client: nat, j: nat): RecordMeta
  {
    RecordMeta(rawId, Some(elapsed(client, j)), Some(200), None)
  }

  /** One `add_history_record` call of the loop over a client's rates. With
      `lookupId` the pair is split first and its FROM code looked up in
      `CRYPTO_ID_MAP` (run_update, update_crypto_rates); without it no id is
      passed (update_fiat_rates). The result is the error text, if any. */
  function HistoryStep(
    file: JsonFile<HistoryDoc>, writeError: Option<string>, pair: string, rate: real,
    source: string, ts: string, idMap: PyDict.Dict<string>, lookupId: bool,
    elapsed: (nat, nat) -> int, client: nat, j: nat
  ): (Result<(), string>, JsonFile<HistoryDoc>)
  {
    var from := FromPart(pair);
    if lookupId && from.Err? then (Err(from.error), file)
    else
      var rawId := if lookupId then PyDict.Get(idMap, from.value) else None;
      var (r, after) := AddHistory(file, writeError, pair, rate, source, Some(ts), ts, PairMeta(rawId, elapsed, client, j));
      if r.Err? then (Err(r.error.message), after) else (Ok(()), after)
  }

  /** The history loop over the first pairs of a client's rates; it stops at
      the first failure. */
  function HistoryAppends(
    file: JsonFile<HistoryDoc>, writeError: Option<string>, rates: PyDict.Dict<real>,
    source: string, ts: string, idMap: PyDict.Dict<string>, lookupId: bool,
    elapsed: (nat, nat) -> int, client: nat
  ): (Result<(), string>, JsonFile<HistoryDoc>)
  {
    if |rates| == 0 then (Ok(()), file)
    else
      var n := |rates| - 1;
      var (r, f) := HistoryAppends(file, writeError, rates[..n], source, ts, idMap, lookupId, elapsed, client);
      if r.Err? then (r, f)
      else HistoryStep(f, writeError, rates[n].0, rates[n].1, source, ts, idMap, lookupId, elapsed, client, n)
  }

  /** The history as read back, or the empty list for a file that cannot be read. */
  function Records(file: JsonFile<HistoryDoc>): seq<HistoryRecord>
  {
    var r := ReadHistory(file);
    if r.Ok? then r.value.history.value else []
  }

  /** `after` is `before` followed by records of the cycle at `ts`, all
      with status 200. */
  predicate Extends(before: seq<HistoryRecord>, after: seq<HistoryRecord>, ts: string)
  {
    |before| <= |after| && after[..|before|] == before
    && forall k :: |before| <= k < |after| ==> after[k].updatedAt == ts && after[k].meta.statusCode == Some(200)
  }

  lemma ExtendsTrans(a: seq<HistoryRecord>, b: seq<HistoryRecord>, c: seq<HistoryRecord>, ts: string)
    requires Extends(a, b, ts) && Extends(b, c, ts)
    ensures Extends(a, c, ts)
  {
    assert c[..|a|] == c[..|b|][..|a|];
  }

  /** One pair of the history loop appends exactly one record for that pair,
      stamped with the cycle's timestamp and status 200; a failure appends
      nothing. */
  lemma HistoryStepShape(
    file: JsonFile<HistoryDoc>, writeError: Option<string>, pair: string, rate: real,
    source: string, ts: string, idMap: PyDict.Dict<string>, lookupId: bool,
    elapsed: (nat, nat) -> int, client: nat, j: nat)
    requires ReadHistory(file).Ok?
    ensures var (r, after) := HistoryStep(file, writeError, pair, rate, source, ts, idMap, lookupId, elapsed, client, j);
      ReadHistory(after).Ok?
      && (r.Err? ==> Records(after) == Records(file))
      && (r.Ok? ==>
            |Records(after)| == |Records(file)| + 1
            && Records(after) == Records(file) + [Records(after)[|Records(file)|]]
            && ReadHistory(after).value.lastUpdated == Some(ts)
            && Records(after)[|Records(file)|].updatedAt == ts
            && Records(after)[|Records(file)|].meta.statusCode == Some(200)
            && Records(after)[|Records(file)|].source == source
            && PairKey(Records(after)[|Records(file)|].from, Records(after)[|Records(file)|].to) == pair
            && Records(after)[|Records(file)|].rate == rate)
  {
    var from := FromPart(pair);
    if !(lookupId && from.Err?) {
      var rawId := if lookupId then PyDict.Get(idMap, from.value) else None;
      var meta := PairMeta(rawId, elapsed, client, j);
      var step := AddHistory(file, writeError, pair, rate, source, Some(ts), ts, meta);
      if step.0.Ok? {
        AddHistoryAppendsOne(file, writeError, pair, rate, source, Some(ts), ts, meta);
        assert Records(step.1) == Records(file) + [step.0.value];
      }
    }
  }

  /** Appending one record of the cycle extends the log. */
  lemma ExtendsOne(before: seq<HistoryRecord>, rec: HistoryRecord, ts: string)
    requires rec.updatedAt == ts && rec.meta.statusCode == Some(200)
    ensures Extends(before, before + [rec], ts)
  {
    assert (before + [rec])[..|before|] == before;
  }

  /** The history loop only appends: the log afterwards is the log before
      plus at most one record per pair, each with the cycle's timestamp and
      status 200; on success there is exactly one record per pair. */
  lemma {:induction false} HistoryAppendsShape(
    file: JsonFile<HistoryDoc>, writeError: Option<string>, rates: PyDict.Dict<real>,
    source: string, ts: string, idMap: PyDict.Dict<string>, lookupId: bool,
    elapsed: (nat, nat) -> int, client: nat)
    requires ReadHistory(file).Ok?
    ensures var (r, after) := HistoryAppends(file, writeError, rates, source, ts, idMap, lookupId, elapsed, client);
      ReadHistory(after).Ok?
      && Extends(Records(file), Records(after), ts)
      && |Records(after)| <= |Records(file)| + |rates|
      && (r.Ok? ==> |Records(after)| == |Records(file)| + |rates|)
    decreases |rates|
  {
    if |rates| > 0 {
      var n := |rates| - 1;
      HistoryAppendsShape(file, writeError, rates[..n], source, ts, idMap, lookupId, elapsed, client);
      var prefix := HistoryAppends(file, writeError, rates[..n], source, ts, idMap, lookupId, elapsed, client);
      if prefix.0.Ok? {
        var f0 := prefix.1;
        HistoryStepShape(f0, writeError, rates[n].0, rates[n].1, source, ts, idMap, lookupId, elapsed, client, n);
        var step := HistoryStep(f0, writeError, rates[n].0, rates[n].1, source, ts, idMap, lookupId, elapsed, client, n);
        assert HistoryAppends(file, writeError, rates, source, ts, idMap, lookupId, elapsed, client) == step;
        if step.0.Ok? {
          ExtendsOne(Records(f0), Records(step.1)[|Records(f0)|], ts);
          ExtendsTrans(Records(file), Records(f0), Records(step.1), ts);
        }
      } else {
        assert HistoryAppends(file, writeError, rates, source, ts, idMap, lookupId, elapsed, client) == prefix;
      }
    }
  }

  /** The records the history loop adds are the pairs of the rates, in order,
      with their rates and the client's source. */
  lemma {:induction false} HistoryAppendsRecords(
    file: JsonFile<HistoryDoc>, writeError: Option<string>, rates: PyDict.Dict<real>,
    source: string, ts: string, idMap: PyDict.Dict<string>, lookupId: bool,
    elapsed: (nat, nat) -> int, client: nat, k: nat)
    requires ReadHistory(file).Ok?
    requires var after := HistoryAppends(file, writeError, rates, source, ts, idMap, lookupId, elapsed, client).1;
      |Records(file)| <= k < |Records(after)|
    ensures var rec := Records(HistoryAppends(file, writeError, rates, source, ts, idMap, lookupId, elapsed, client).1)[k];
      k - |Records(file)| < |rates|
      && rec.source == source
      && PairKey(rec.from, rec.to) == rates[k - |Records(file)|].0
      && rec.rate == rates[k - |Records(file)|].1
    decreases |rates|
  {
    var n := |rates| - 1;
    var i := k - |Records(file)|;
    HistoryAppendsShape(file, writeError, rates[..n], source, ts, idMap, lookupId, elapsed, client);
    var (r0, f0) := HistoryAppends(file, writeError, rates[..n], source, ts, idMap, lookupId, elapsed, client);
    var after := HistoryAppends(file, writeError, rates, source, ts, idMap, lookupId, elapsed, client).1;
    if r0.Ok? {
      HistoryStepShape(f0, writeError, rates[n].0, rates[n].1, source, ts, idMap, lookupId, elapsed, client, n);
      var f1 := HistoryStep(f0, writeError, rates[n].0, rates[n].1, source, ts, idMap, lookupId, elapsed, client, n).1;
      assert after == f1;
      if k < |Records(f0)| {
        HistoryAppendsRecords(file, writeError, rates[..n], source, ts, idMap, lookupId, elapsed, client, k);
        assert Records(f1)[k] == Records(f0)[k];
        assert rates[..n][i] == rates[i];
      } else {
        assert |Records(f0)| == |Records(file)| + n;
        assert i == n;
      }
    } else {
      assert after == f0;
      HistoryAppendsRecords(file, writeError, rates[..n], source, ts, idMap, lookupId, elapsed, client, k);
      assert rates[..n][i] == rates[i];
    }
  }

  /** One more turn of the history loop after turns that all succeeded is
      one `HistoryStep` on the file they left. */
  lemma HistoryAppendsTurn(
    file: JsonFile<HistoryDoc>, writeError: Option<string>, rates: PyDict.Dict<real>,
    source: string, ts: string, idMap: PyDict.Dict<string>, lookupId: bool,
    elapsed: (nat, nat) -> int, client: nat, j: nat)
    requires j < |rates|
    requires HistoryAppends(file, writeError, rates[..j], source, ts, idMap, lookupId, elapsed, client).0.Ok?
    ensures HistoryAppends(file, writeError, rates[..j + 1], source, ts, idMap, lookupId, elapsed, client)
      == HistoryStep(HistoryAppends(file, writeError, rates[..j], source, ts, idMap, lookupId, elapsed, client).1,
                     writeError, rates[j].0, rates[j].1, source, ts, idMap, lookupId, elapsed, client, j)
  {
    assert rates[..j + 1][..j] == rates[..j];
  }

  /** The history loop of one client, as `run_update` writes it. */
  method AppendHistory(
    store: DataDir, rates: PyDict.Dict<real>, source: string, ts: string,
    idMap: PyDict.Dict<string>, lookupId: bool, elapsed: (nat, nat) -> int, client: nat)
    returns (r: Result<(), string>)
    modifies store
    ensures (r, store.historyFile)
      == HistoryAppends(old(store.historyFile), store.writeError, rates, source, ts, idMap, lookupId, elapsed, client)
    ensures store.ratesFile == old(store.ratesFile) && store.writeError == old(store.writeError)
  {
    for j := 0 to |rates|
      invariant (Ok(()), store.historyFile)
        == HistoryAppends(old(store.historyFile), store.writeError, rates[..j], source, ts, idMap, lookupId, elapsed, client)
      invariant store.ratesFile == old(store.ratesFile) && store.writeError == old(store.writeError)
    {
      HistoryAppendsTurn(old(store.historyFile), store.writeError, rates, source, ts, idMap, lookupId, elapsed, client, j);
      var pair := rates[j].0;
      var rate := rates[j].1;
      var rawId: Option<string> := None;
      if lookupId {
        var from := FromPart(pair);
        if from.Err? {
          HistoryErrorSticks(old(store.historyFile), store.writeError, rates, source, ts, idMap, lookupId, elapsed, client, j + 1);
          return Err(from.error);
        }
        rawId := PyDict.Get(idMap, from.value);
      }
      var added := store.AddHistoryRecord(pair, rate, source, Some(ts), ts, PairMeta(rawId, elapsed, client, j));
      if added.Err? {
        HistoryErrorSticks(old(store.historyFile), store.writeError, rates, source, ts, idMap, lookupId, elapsed, client, j + 1);
        return Err(added.error.message);
      }
    }
    assert rates[..|rates|] == rates;
    return Ok(());
  }

  /** Once the history loop has failed on a prefix, the whole loop ends there. */
  lemma {:induction false} HistoryErrorSticks(
    file: JsonFile<HistoryDoc>, writeError: Option<string>, rates: PyDict.Dict<real>,
    source: string, ts: string, idMap: PyDict.Dict<string>, lookupId: bool,
    elapsed: (nat, nat) -> int, client: nat, n: nat)
    requires n <= |rates|
    requires HistoryAppends(file, writeError, rates[..n], source, ts, idMap, lookupId, elapsed, client).0.Err?
    ensures HistoryAppends(file, writeError, rates, source, ts, idMap, lookupId, elapsed, client)
         == HistoryAppends(file, writeError, rates[..n], source, ts, idMap, lookupId, elapsed, client)
    decreases |rates| - n
  {
    if n < |rates| {
      assert rates[..n + 1][..n] == rates[..n];
      HistoryErrorSticks(file, writeError, rates, source, ts, idMap, lookupId, elapsed, client, n + 1);
    } else {
      assert rates[..n] == rates;
    }
  }

  // ---------------------------------------------------------------------------
  // The client loop of run_update
  // ---------------------------------------------------------------------------

  /** The loop state: `all_rates`, `errors`, `stats` and the history file. */
  datatype Poll = Poll(allRates: PyDict.Dict<real>, errors: seq<string>, stats: Stats, history: JsonFile<HistoryDoc>)

  /** A CoinGecko fetch sets `crypto_count`, an ExchangeRate-API fetch
      `fiat_count`, to the number of pairs fetched. */
  function CountFetched(s: Stats, kind: ClientKind, n: int): Stats
  {
    match kind
    case CoinGeckoKind => s.(cryptoCount := n)
    case ExchangeRateKind => s.(fiatCount := n)
    case OtherKind => s
  }

  /** One turn of the client loop: a failed fetch is recorded; a fetched dict
      sets the crypto or fiat count, is merged into `all_rates`, and has its
      history written; a history failure is recorded like a failed fetch. */
  function PollStep(p: Poll, c: Client, i: nat, idMap: PyDict.Dict<string>, writeError: Option<string>,
                    ts: string, elapsed: (nat, nat) -> int): Poll
  {
    match c.response
    case Err(msg) =>
      p.(errors := p.errors + [c.name + ": " + msg],
         stats := p.stats.(errors := p.stats.errors + 1, failed := p.stats.failed + 1))
    case Ok(rates) =>
      var stats := CountFetched(p.stats, c.kind, |rates|);
      var all := PyDict.Update(p.allRates, rates);
      var (h, file) := HistoryAppends(p.history, writeError, rates, Source(c), ts, idMap, true, elapsed, i);
      if h.Err? then
        Poll(all, p.errors + [c.name + ": " + h.error], stats.(errors := stats.errors + 1, failed := stats.failed + 1), file)
      else
        Poll(all, p.errors, stats.(success := stats.success + 1), file)
  }

  /** The client loop over the first clients. */
  function PollAll(clients: seq<Client>, history: JsonFile<HistoryDoc>, idMap: PyDict.Dict<string>,
                   writeError: Option<string>, ts: string, elapsed: (nat, nat) -> int): Poll
  {
    if |clients| == 0 then Poll([], [], ZeroStats, history)
    else
      var n := |clients| - 1;
      PollStep(PollAll(clients[..n], history, idMap, writeError, ts, elapsed), clients[n], n, idMap, writeError, ts, elapsed)
  }

  /** One turn counts its client once, as a success or as a failure with
      its message. */
  lemma PollStepCounts(p: Poll, c: Client, i: nat, idMap: PyDict.Dict<string>, writeError: Option<string>,
                       ts: string, elapsed: (nat, nat) -> int)
    ensures var q := PollStep(p, c, i, idMap, writeError, ts, elapsed);
      q.stats.success + q.stats.failed == p.stats.success + p.stats.failed + 1
      && q.stats.success >= p.stats.success && q.stats.failed >= p.stats.failed
      && q.stats.errors - q.stats.failed == p.stats.errors - p.stats.failed
      && |q.errors| - q.stats.failed == |p.errors| - p.stats.failed
  {
  }

  /** Every client is counted once, as a success or a failure; `errors`
      equals `failed` and there is one message per failed client. */
  lemma {:induction false} PollCounts(clients: seq<Client>, history: JsonFile<HistoryDoc>, idMap: PyDict.Dict<string>,
                                     writeError: Option<string>, ts: string, elapsed: (nat, nat) -> int)
    ensures var s := PollAll(clients, history, idMap, writeError, ts, elapsed).stats;
      s.success + s.failed == |clients| && s.errors == s.failed && s.success >= 0 && s.failed >= 0
    ensures var p := PollAll(clients, history, idMap, writeError, ts, elapsed);
      |p.errors| == p.stats.failed
  {
    if |clients| > 0 {
      var n := |clients| - 1;
      PollCounts(clients[..n], history, idMap, writeError, ts, elapsed);
      PollStepCounts(PollAll(clients[..n], history, idMap, writeError, ts, elapsed), clients[n], n, idMap, writeError, ts, elapsed);
    }
  }

  /** `all_rates` as the client loop leaves it: the fetched dicts of the
      successful clients merged in client order. */
  function FetchedRates(clients: seq<Client>): PyDict.Dict<real>
  {
    if |clients| == 0 then []
    else
      var n := |clients| - 1;
      if clients[n].response.Ok? then PyDict.Update(FetchedRates(clients[..n]), clients[n].response.value)
      else FetchedRates(clients[..n])
  }

  /** The merge into `all_rates` does not depend on how the history went. */
  lemma {:induction false} PollRates(clients: seq<Client>, history: JsonFile<HistoryDoc>, idMap: PyDict.Dict<string>,
                                     writeError: Option<string>, ts: string, elapsed: (nat, nat) -> int)
    ensures PollAll(clients, history, idMap, writeError, ts, elapsed).allRates == FetchedRates(clients)
  {
    if |clients| > 0 {
      PollRates(clients[..|clients| - 1], history, idMap, writeError, ts, elapsed);
    }
  }

  /** The keys fetched by the successful clients among the first ones. */
  function FetchedKeys(clients: seq<Client>): set<string>
  {
    if |clients| == 0 then {}
    else
      var c := clients[|clients| - 1];
      FetchedKeys(clients[..|clients| - 1]) + (if c.response.Ok? then PyDict.KeySet(c.response.value) else {})
  }

  /** `all_rates` holds exactly the keys fetched by the clients whose fetch
      succeeded (whatever happened to their history), once each; so
      `total_count` counts the distinct fetched keys. */
  lemma {:induction false} FetchedRatesKeys(clients: seq<Client>)
    ensures PyDict.KeySet(FetchedRates(clients)) == FetchedKeys(clients)
    ensures PyDict.DistinctKeys(FetchedRates(clients))
    ensures |FetchedRates(clients)| == |FetchedKeys(clients)|
  {
    if |clients| > 0 {
      var n := |clients| - 1;
      FetchedRatesKeys(clients[..n]);
      if clients[n].response.Ok? {
        PyDict.UpdateKeys(FetchedRates(clients[..n]), clients[n].response.value);
      }
    }
    PyDict.SizeIsKeyCount(FetchedRates(clients));
  }

  /** On a key fetched by several clients the later one wins: the value in
      `all_rates` is the one of the last successful client that has the key. */
  lemma {:induction false} LaterClientWins(clients: seq<Client>, i: nat, key: string)
    requires WellFormed(clients)
    requires i < |clients| && clients[i].response.Ok? && key in PyDict.KeySet(clients[i].response.value)
    requires forall j :: i < j < |clients| && clients[j].response.Ok? ==> key !in PyDict.KeySet(clients[j].response.value)
    ensures PyDict.Get(FetchedRates(clients), key) == PyDict.Get(clients[i].response.value, key)
  {
    var n := |clients| - 1;
    assert forall j :: 0 <= j < n ==> clients[..n][j] == clients[j];
    if i < n {
      LaterClientWins(clients[..n], i, key);
    }
    if clients[n].response.Ok? {
      PyDict.UpdateGet(FetchedRates(clients[..n]), clients[n].response.value, key);
    }
  }

  /** Nothing fetched at all exactly when every successful client returned an
      empty dict. */
  lemma {:induction false} NothingFetchedIff(clients: seq<Client>)
    ensures FetchedKeys(clients) == {} <==>
      forall i :: 0 <= i < |clients| && clients[i].response.Ok? ==> |clients[i].response.value| == 0
  {
    if |clients| > 0 {
      var n := |clients| - 1;
      NothingFetchedIff(clients[..n]);
      assert forall j :: 0 <= j < n ==> clients[..n][j] == clients[j];
      if clients[n].response.Ok? {
        var d := clients[n].response.value;
        if |d| > 0 {
          assert d[0].0 in PyDict.KeySet(d);
        }
      }
    }
  }

  /** One turn of the client loop only appends records of the cycle. */
  lemma PollStepHistory(p: Poll, c: Client, i: nat, idMap: PyDict.Dict<string>, writeError: Option<string>,
                        ts: string, elapsed: (nat, nat) -> int)
    requires ReadHistory(p.history).Ok?
    ensures var q := PollStep(p, c, i, idMap, writeError, ts, elapsed);
      ReadHistory(q.history).Ok? && Extends(Records(p.history), Records(q.history), ts)
  {
    if c.response.Ok? {
      HistoryAppendsShape(p.history, writeError, c.response.value, Source(c), ts, idMap, true, elapsed, i);
    } else {
      assert Records(p.history)[..|Records(p.history)|] == Records(p.history);
    }
  }

  /** The client loop only appends to the history: every record it adds
      carries the cycle's timestamp and status 200. */
  lemma {:induction false} PollHistoryAppendsOnly(clients: seq<Client>, history: JsonFile<HistoryDoc>, idMap: PyDict.Dict<string>,
                                                  writeError: Option<string>, ts: string, elapsed: (nat, nat) -> int)
    requires ReadHistory(history).Ok?
    ensures var after := PollAll(clients, history, idMap, writeError, ts, elapsed).history;
      ReadHistory(after).Ok? && Extends(Records(history), Records(after), ts)
  {
    if |clients| > 0 {
      var n := |clients| - 1;
      PollHistoryAppendsOnly(clients[..n], history, idMap, writeError, ts, elapsed);
      var p := PollAll(clients[..n], history, idMap, writeError, ts, elapsed);
      PollStepHistory(p, clients[n], n, idMap, writeError, ts, elapsed);
      ExtendsTrans(Records(history), Records(p.history), Records(PollStep(p, clients[n], n, idMap, writeError, ts, elapsed).history), ts);
    } else {
      assert Records(history)[..|Records(history)|] == Records(history);
    }
  }

  // ---------------------------------------------------------------------------
  // Partition into crypto and fiat
  // ---------------------------------------------------------------------------

  /** One turn of the partition loop: the pair goes to the crypto part when
      its FROM code is a crypto code, to the fiat part otherwise; a key that
      does not unpack raises. */
  function Place(parts: (PyDict.Dict<real>, PyDict.Dict<real>), pair: string, rate: real, crypto: seq<string>)
    : Result<(PyDict.Dict<real>, PyDict.Dict<real>), string>
  {
    match FromPart(pair)
    case Err(e) => Err(e)
    case Ok(from) =>
      if from in crypto then Ok((PyDict.Put(parts.0, pair, rate), parts.1))
      else Ok((parts.0, PyDict.Put(parts.1, pair, rate)))
  }

  /** The partition loop over the first pairs of `all_rates`. */
  function Partition(pairs: PyDict.Dict<real>, crypto: seq<string>)
    : Result<(PyDict.Dict<real>, PyDict.Dict<real>), string>
  {
    if |pairs| == 0 then Ok(([], []))
    else
      var n := |pairs| - 1;
      match Partition(pairs[..n], crypto)
      case Err(e) => Err(e)
      case Ok(parts) => Place(parts, pairs[n].0, pairs[n].1, crypto)
  }

  /** The partition fails exactly when some key does not split into two
      pieces. */
  lemma {:induction false} PartitionOkIff(pairs: PyDict.Dict<real>, crypto: seq<string>)
    ensures Partition(pairs, crypto).Ok? <==> forall i :: 0 <= i < |pairs| ==> FromPart(pairs[i].0).Ok?
  {
    if |pairs| > 0 {
      var n := |pairs| - 1;
      PartitionOkIff(pairs[..n], crypto);
      assert forall i :: 0 <= i < n ==> pairs[..n][i] == pairs[i];
    }
  }

  /** What one turn does to the keys and values of the two parts. */
  lemma PlaceShape(parts: (PyDict.Dict<real>, PyDict.Dict<real>), pair: string, rate: real, crypto: seq<string>, k: string)
    requires Place(parts, pair, rate, crypto).Ok?
    ensures var (c, f) := Place(parts, pair, rate, crypto).value;
      var toCrypto := FromPart(pair).value in crypto;
      PyDict.KeySet(c) == PyDict.KeySet(parts.0) + (if toCrypto then {pair} else {})
      && PyDict.KeySet(f) == PyDict.KeySet(parts.1) + (if toCrypto then {} else {pair})
      && (PyDict.DistinctKeys(parts.0) ==> PyDict.DistinctKeys(c))
      && (PyDict.DistinctKeys(parts.1) ==> PyDict.DistinctKeys(f))
      && PyDict.Get(c, k) == (if toCrypto && k == pair then Some(rate) else PyDict.Get(parts.0, k))
      && PyDict.Get(f, k) == (if !toCrypto && k == pair then Some(rate) else PyDict.Get(parts.1, k))
  {
    PyDict.PutKeys(parts.0, pair, rate);
    PyDict.PutKeys(parts.1, pair, rate);
    PyDict.PutGet(parts.0, pair, rate, k);
    PyDict.PutGet(parts.1, pair, rate, k);
  }

  /** The two parts hold the keys of `all_rates` between them: the crypto
      part exactly those whose FROM code is a crypto code, the fiat part the
      others; both keep distinct keys. */
  lemma {:induction false} PartitionKeys(pairs: PyDict.Dict<real>, crypto: seq<string>)
    requires Partition(pairs, crypto).Ok?
    ensures var (c, f) := Partition(pairs, crypto).value;
      PyDict.KeySet(c) + PyDict.KeySet(f) == PyDict.KeySet(pairs)
      && PyDict.DistinctKeys(c) && PyDict.DistinctKeys(f)
      && (forall k :: k in PyDict.KeySet(c) ==> FromPart(k).Ok? && FromPart(k).value in crypto)
      && (forall k :: k in PyDict.KeySet(f) ==> FromPart(k).Ok? && FromPart(k).value !in crypto)
  {
    if |pairs| > 0 {
      var n := |pairs| - 1;
      PartitionKeys(pairs[..n], crypto);
      PyDict.KeySetSnoc(pairs);
      PlaceShape(Partition(pairs[..n], crypto).value, pairs[n].0, pairs[n].1, crypto, pairs[n].0);
    }
  }

  /** Every pair of `all_rates` lands in the part its FROM code selects,
      with its rate. */
  lemma {:induction false} PartitionPlacement(pairs: PyDict.Dict<real>, crypto: seq<string>, i: nat)
    requires PyDict.DistinctKeys(pairs) && i < |pairs|
    requires Partition(pairs, crypto).Ok?
    ensures FromPart(pairs[i].0).Ok?
    ensures var (c, f) := Partition(pairs, crypto).value;
      if FromPart(pairs[i].0).value in crypto then PyDict.Get(c, pairs[i].0) == Some(pairs[i].1)
      else PyDict.Get(f, pairs[i].0) == Some(pairs[i].1)
  {
    var n := |pairs| - 1;
    PyDict.KeySetSnoc(pairs);
    if i < n {
      assert pairs[..n][i] == pairs[i];
      PartitionPlacement(pairs[..n], crypto, i);
      assert pairs[i].0 in PyDict.KeySet(pairs[..n]);
    }
    PlaceShape(Partition(pairs[..n], crypto).value, pairs[n].0, pairs[n].1, crypto, pairs[i].0);
  }

  /** The partition loop, as `run_update` writes it. */
  method PartitionRates(pairs: PyDict.Dict<real>, crypto: seq<string>)
    returns (r: Result<(PyDict.Dict<real>, PyDict.Dict<real>), string>)
    ensures r == Partition(pairs, crypto)
  {
    var cryptoRates: PyDict.Dict<real> := [];
    var fiatRates: PyDict.Dict<real> := [];
    for i := 0 to |pairs|
      invariant Partition(pairs[..i], crypto) == Ok((cryptoRates, fiatRates))
    {
      assert pairs[..i + 1][..i] == pairs[..i];
      var (pair, rate) := pairs[i];
      var from := FromPart(pair);
      if from.Err? {
        PartitionErrorSticks(pairs, crypto, i + 1);
        return Err(from.error);
      }
      if from.value in crypto {
        cryptoRates := PyDict.Put(cryptoRates, pair, rate);
      } else {
        fiatRates := PyDict.Put(fiatRates, pair, rate);
      }
    }
    assert pairs[..|pairs|] == pairs;
    return Ok((cryptoRates, fiatRates));
  }

  lemma {:induction false} PartitionErrorSticks(pairs: PyDict.Dict<real>, crypto: seq<string>, n: nat)
    requires n <= |pairs| && Partition(pairs[..n], crypto).Err?
    ensures Partition(pairs, crypto) == Partition(pairs[..n], crypto)
    decreases |pairs| - n
  {
    if n < |pairs| {
      assert pairs[..n + 1][..n] == pairs[..n];
      PartitionErrorSticks(pairs, crypto, n + 1);
    } else {
      assert pairs[..n] == pairs;
    }
  }

  // ---------------------------------------------------------------------------
  // run_update
  // ---------------------------------------------------------------------------

  /** The message of the `ApiRequestError` raised when nothing was fetched. */
  function AllFailedMessage(errors: seq<string>): string
  {
    "Failed to fetch rates from all sources. " + Join(errors, "; ")
  }

  /** The cache file after the two merges of a cycle: crypto pairs with source
      "CoinGecko" if there are any, then, if that worked, fiat pairs with
      source "ExchangeRate-API" if there are any. */
  function CacheAfterCycle(file: JsonFile<RatesDoc>, writeError: Option<string>,
                           crypto: PyDict.Dict<real>, fiat: PyDict.Dict<real>, ts: string): JsonFile<RatesDoc>
  {
    var afterCrypto := if |crypto| > 0 then CacheAfterUpdate(file, writeError, crypto, "CoinGecko", ts, ts) else file;
    var cryptoOk := |crypto| == 0 || CacheUpdateSucceeds(file, writeError, crypto, ts);
    if cryptoOk && |fiat| > 0 then CacheAfterUpdate(afterCrypto, writeError, fiat, "ExchangeRate-API", ts, ts)
    else afterCrypto
  }

  /** What the two merges of a cycle raise: the error of the crypto merge if
      it fails, otherwise that of the fiat merge run on the cache the crypto
      merge left; an empty part is not merged and cannot fail. */
  function CycleOutcome(file: JsonFile<RatesDoc>, writeError: Option<string>,
                        crypto: PyDict.Dict<real>, fiat: PyDict.Dict<real>, ts: string): (r: Result<(), StoreError>)
    ensures r.Ok? <==>
      (|crypto| == 0 || CacheUpdateSucceeds(file, writeError, crypto, ts))
      && (|fiat| == 0 || CacheUpdateSucceeds(
            if |crypto| > 0 then CacheAfterUpdate(file, writeError, crypto, "CoinGecko", ts, ts) else file,
            writeError, fiat, ts))
    ensures |crypto| > 0 && !CacheUpdateSucceeds(file, writeError, crypto, ts) ==>
      r == CacheUpdateOutcome(file, writeError, crypto, ts)
  {
    var c := if |crypto| > 0 then CacheUpdateOutcome(file, writeError, crypto, ts) else Ok(());
    if c.Err? then c
    else if |fiat| > 0 then
      var afterCrypto := if |crypto| > 0 then CacheAfterUpdate(file, writeError, crypto, "CoinGecko", ts, ts) else file;
      CacheUpdateOutcome(afterCrypto, writeError, fiat, ts)
    else Ok(())
  }

  /** `RatesUpdater.run_update`. */
  method RunUpdate(config: Config, clients: seq<Client>, store: DataDir, ts: string, elapsed: (nat, nat) -> int)
    returns (r: Result<Stats, UpdateError>)
    modifies store
    ensures var p := PollAll(clients, old(store.historyFile), config.cryptoIdMap, store.writeError, ts, elapsed);
      store.historyFile == p.history
      && (|p.allRates| == 0 ==>
            r == Err(AllSourcesFailed(AllFailedMessage(p.errors))) && store.ratesFile == old(store.ratesFile))
      && (|p.allRates| > 0 && Partition(p.allRates, config.cryptoCurrencies).Err? ==>
            r == Err(SplitFailed(Partition(p.allRates, config.cryptoCurrencies).error))
            && store.ratesFile == old(store.ratesFile))
      && (|p.allRates| > 0 && Partition(p.allRates, config.cryptoCurrencies).Ok? ==>
            var (crypto, fiat) := Partition(p.allRates, config.cryptoCurrencies).value;
            store.ratesFile == CacheAfterCycle(old(store.ratesFile), store.writeError, crypto, fiat, ts)
            && (r.Ok? ==> r.value == p.stats.(totalCount := |p.allRates|))
            && (r.Ok? <==>
                  (|crypto| == 0 || CacheUpdateSucceeds(old(store.ratesFile), store.writeError, crypto, ts))
                  && (|fiat| == 0 || CacheUpdateSucceeds(
                        if |crypto| > 0 then CacheAfterUpdate(old(store.ratesFile), store.writeError, crypto, "CoinGecko", ts, ts)
                        else old(store.ratesFile),
                        store.writeError, fiat, ts)))
            && (r.Err? ==> r.error.CacheFailed?)
            && (r.Err? ==> r == Err(CacheFailed(CycleOutcome(old(store.ratesFile), store.writeError, crypto, fiat, ts).error))))
    ensures store.writeError == old(store.writeError)
  {
    var stats := ZeroStats;
    var allRates: PyDict.Dict<real> := [];
    var errors: seq<string> := [];
    ghost var history0 := store.historyFile;
    for i := 0 to |clients|
      invariant Poll(allRates, errors, stats, store.historyFile)
        == PollAll(clients[..i], history0, config.cryptoIdMap, store.writeError, ts, elapsed)
      invariant store.ratesFile == old(store.ratesFile) && store.writeError == old(store.writeError)
    {
      assert clients[..i + 1][..i] == clients[..i];
      var client := clients[i];
      match client.response
      case Err(msg) =>
        errors := errors + [client.name + ": " + msg];
        stats := stats.(errors := stats.errors + 1, failed := stats.failed + 1);
      case Ok(rates) =>
        var source := Source(client);
        stats := CountFetched(stats, client.kind, |rates|);
        allRates := PyDict.Update(allRates, rates);
        var h := AppendHistory(store, rates, source, ts, config.cryptoIdMap, true, elapsed, i);
        if h.Err? {
          errors := errors + [client.name + ": " + h.error];
          stats := stats.(errors := stats.errors + 1, failed := stats.failed + 1);
        } else {
          stats := stats.(success := stats.success + 1);
        }
    }
    assert clients[..|clients|] == clients;
    if |allRates| == 0 {
      return Err(AllSourcesFailed(AllFailedMessage(errors)));
    }
    var parts := PartitionRates(allRates, config.cryptoCurrencies);
    if parts.Err? {
      return Err(SplitFailed(parts.error));
    }
    var (cryptoRates, fiatRates) := parts.value;
    if |cryptoRates| > 0 {
      var c := store.UpdateRatesCache(cryptoRates, "CoinGecko", Some(ts), ts);
      if c.Err? {
        return Err(CacheFailed(c.error));
      }
    }
    if |fiatRates| > 0 {
      var f := store.UpdateRatesCache(fiatRates, "ExchangeRate-API", Some(ts), ts);
      if f.Err? {
        return Err(CacheFailed(f.error));
      }
    }
    stats := stats.(totalCount := |allRates|);
    return Ok(stats);
  }

  // ---------------------------------------------------------------------------
  // update_crypto_rates / update_fiat_rates
  // ---------------------------------------------------------------------------

  /** Why a single-source update raised. */
  datatype SingleError = FetchFailed(message: string) | HistoryFailed(message: string) | CacheWriteFailed(error: StoreError)

  /** `update_crypto_rates` (`crypto` true: source "CoinGecko", ids looked up)
      and `update_fiat_rates` (source "ExchangeRate-API", no ids): fetch,
      write every pair to the history, merge all of them into the cache.
      Nothing here is tolerated: the first failure propagates. */
  method UpdateSingleSource(config: Config, crypto: bool, fetched: Result<PyDict.Dict<real>, string>,
                            store: DataDir, ts: string, elapsed: (nat, nat) -> int)
    returns (r: Result<PyDict.Dict<real>, SingleError>)
    modifies store
    ensures var source := if crypto then "CoinGecko" else "ExchangeRate-API";
      (fetched.Err? ==> r == Err(FetchFailed(fetched.error)) && store.historyFile == old(store.historyFile)
                         && store.ratesFile == old(store.ratesFile))
      && (fetched.Ok? ==>
            var (h, file) := HistoryAppends(old(store.historyFile), store.writeError, fetched.value, source, ts,
                                            config.cryptoIdMap, crypto, elapsed, 0);
            store.historyFile == file
            && (h.Err? ==> r == Err(HistoryFailed(h.error)) && store.ratesFile == old(store.ratesFile))
            && (h.Ok? ==>
                  store.ratesFile == CacheAfterUpdate(old(store.ratesFile), store.writeError, fetched.value, source, ts, ts)
                  && (r.Ok? <==> CacheUpdateSucceeds(old(store.ratesFile), store.writeError, fetched.value, ts))
                  && (r.Ok? ==> r.value == fetched.value)
                  && (r.Err? ==> r == Err(CacheWriteFailed(CacheUpdateOutcome(old(store.ratesFile), store.writeError, fetched.value, ts).error)))))
    ensures store.writeError == old(store.writeError)
  {
    if fetched.Err? {
      return Err(FetchFailed(fetched.error));
    }
    var rates := fetched.value;
    var source := if crypto then "CoinGecko" else "ExchangeRate-API";
    var h := AppendHistory(store, rates, source, ts, config.cryptoIdMap, crypto, elapsed, 0);
    if h.Err? {
      return Err(HistoryFailed(h.error));
    }
    var c := store.UpdateRatesCache(rates, source, Some(ts), ts);
    if c.Err? {
      return Err(CacheWriteFailed(c.error));
    }
    return Ok(rates);
  }
}
