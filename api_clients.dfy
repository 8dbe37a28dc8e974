/** The HTTP clients of the parser service
    (valutatrade_hub/parser_service/api_clients.py): the retry loop of
    `BaseApiClient._make_request` and the response normalisation of
    `CoinGeckoClient.fetch_rates` and `ExchangeRateApiClient.fetch_rates`.
    The network is a function from the attempt number to what that
    request produced; `time.sleep` calls are returned as the list of
    their durations. */
module ApiClients {
  import opened Text
  import opened Results
  import PyDict
  import opened ParserConfig
  import PairKeys

  /** A decoded JSON value. */
  datatype Json =
    | JNull
    | JBool(b: bool)
    | JNum(n: real)
    | JStr(s: string)
    | JList(items: seq<Json>)
    | JObj(fields: map<string, Json>)

  /** An HTTP response: status, text, and `response.json()` (an `Err` holds
      the decoder's message). */
  datatype Response = Response(status: int, text: string, body: Result<Json, string>)

  /** What one `session.get` produced. */
  datatype Attempt =
    | Reply(response: Response)
    | Timeout(message: string)          // requests.exceptions.Timeout
    | ConnectionFailed(message: string) // requests.exceptions.ConnectionError
    | RequestFailed(message: string)    // any other RequestException

  /** The exceptions a fetch can raise: `ApiRequestError(reason)`, or another
      Python exception (a `TypeError`/`AttributeError` on an unexpected
      response shape), named by its class. */
  datatype FetchError = ApiRequestError(reason: string) | OtherError(kind: string)
  {
    /** `str(e)`. */
    function Message(): string
    {
      match this
      case ApiRequestError(reason) => "Ошибка при обращении к внешнему API: " + reason
      case OtherError(kind) => kind
    }
  }

  // ---------------------------------------------------------------------------
  // _make_request
  // ---------------------------------------------------------------------------

  /** `max_retries or self.config.MAX_RETRIES`: an absent or zero argument
      falls back to the configured count. */
  function EffectiveRetries(maxRetries: Option<int>, configured: int): (n: int)
    ensures maxRetries.Some? && maxRetries.value != 0 ==> n == maxRetries.value
    ensures maxRetries.None? || maxRetries == Some(0) ==> n == configured
  {
    if maxRetries.Some? && maxRetries.value != 0 then maxRetries.value else configured
  }

  /** The reason of the final `ApiRequestError` once every attempt is used up;
      `str(None)` when no timeout or connection error happened. */
  function ExhaustedReason(retries: int, last: Option<string>): string
  {
    "Не удалось получить данные после " + IntToString(retries)
    + " попыток. Последняя ошибка: " + (if last.Some? then last.value else "None")
  }

  /** The outcome of the request loop, the sleeps it made, and how many
      requests it sent. */
  datatype RequestRun = RequestRun(outcome: Result<Response, FetchError>, sleeps: seq<int>, attempts: nat)

  /** Whether an attempt lets the loop go on to the next one. */
  predicate Retryable(a: Attempt)
  {
    (a.Reply? && a.response.status == 429) || a.Timeout? || a.ConnectionFailed?
  }

  /** The loop from attempt number `attempt` on, with `last` the last timeout
      or connection error seen so far. */
  function Retry(respond: nat -> Attempt, retries: int, delay: int, attempt: nat, last: Option<string>): (run: RequestRun)
    ensures run.attempts >= attempt
    ensures attempt < retries ==> run.attempts <= retries
    ensures attempt >= retries ==> run.attempts == attempt
    decreases if attempt < retries then retries - attempt else 0
  {
    if attempt >= retries then
      RequestRun(Err(ApiRequestError(ExhaustedReason(retries, last))), [], attempt)
    else
      match respond(attempt)
      case Reply(response) =>
        if response.status == 200 then RequestRun(Ok(response), [], attempt + 1)
        else if response.status == 429 then
          var rest := Retry(respond, retries, delay, attempt + 1, last);
          rest.(sleeps := [delay * (attempt + 2)] + rest.sleeps)
        else
          RequestRun(Err(ApiRequestError("HTTP " + IntToString(response.status) + ": " + Take(response.text, 200))), [], attempt + 1)
      case Timeout(m) => RetryAfterError(respond, retries, delay, attempt, m)
      case ConnectionFailed(m) => RetryAfterError(respond, retries, delay, attempt, m)
      case RequestFailed(m) =>
        RequestRun(Err(ApiRequestError("Ошибка при обращении к API: " + m)), [], attempt + 1)
  }

  /** After a timeout or connection error: sleep unless it was the last attempt, go on. */
  function RetryAfterError(respond: nat -> Attempt, retries: int, delay: int, attempt: nat, m: string): (run: RequestRun)
    requires attempt < retries
    ensures attempt + 1 <= run.attempts <= retries
    decreases retries - attempt, 0
  {
    var rest := Retry(respond, retries, delay, attempt + 1, Some(m));
    if attempt < retries - 1 then rest.(sleeps := [delay] + rest.sleeps) else rest
  }

  /** `_make_request(url, max_retries)`. */
  method MakeRequest(respond: nat -> Attempt, maxRetries: Option<int>, config: Config)
    returns (outcome: Result<Response, FetchError>, sleeps: seq<int>, attempts: nat)
    ensures RequestRun(outcome, sleeps, attempts)
      == Retry(respond, EffectiveRetries(maxRetries, config.maxRetries), config.retryDelay, 0, None)
  {
    var retries := EffectiveRetries(maxRetries, config.maxRetries);
    var delay := config.retryDelay;
    var last: Option<string> := None;
    sleeps := [];
    var attempt: nat := 0;
    while attempt < retries
      invariant Retry(respond, retries, delay, 0, None)
        == var rest := Retry(respond, retries, delay, attempt, last); rest.(sleeps := sleeps + rest.sleeps)
      decreases retries - attempt
    {
      var stop;
      ghost var before := sleeps;
      stop, outcome, sleeps, last := TryOnce(respond, retries, delay, attempt, sleeps, last);
      if stop {
        assert before + [] == before;
        return outcome, sleeps, attempt + 1;
      }
      attempt := attempt + 1;
    }
    return Err(ApiRequestError(ExhaustedReason(retries, last))), sleeps, attempt;
  }

  /** One pass of the loop body of `_make_request`: a 200, another status or a
      request error ends the loop with its outcome; a 429, a timeout or a
      connection error lets it go on after the sleep the source makes. */
  method TryOnce(respond: nat -> Attempt, retries: int, delay: int, attempt: nat,
                 sleeps: seq<int>, last: Option<string>)
    returns (stop: bool, outcome: Result<Response, FetchError>, sleeps': seq<int>, last': Option<string>)
    requires attempt < retries
    ensures stop <==> !Retryable(respond(attempt))
    ensures stop ==> sleeps' == sleeps && Retry(respond, retries, delay, attempt, last) == RequestRun(outcome, [], attempt + 1)
    ensures !stop ==>
      (var rest := Retry(respond, retries, delay, attempt, last); rest.(sleeps := sleeps + rest.sleeps))
      == (var rest := Retry(respond, retries, delay, attempt + 1, last'); rest.(sleeps := sleeps' + rest.sleeps))
  {
    outcome, sleeps', last' := Err(OtherError("")), sleeps, last;
    match respond(attempt)
    case Reply(response) =>
      if response.status == 200 {
        return true, Ok(response), sleeps, last;
      } else if response.status == 429 {
        ghost var rest := Retry(respond, retries, delay, attempt + 1, last);
        assert sleeps + ([delay * (attempt + 2)] + rest.sleeps) == (sleeps + [delay * (attempt + 2)]) + rest.sleeps;
        return false, outcome, sleeps + [delay * (attempt + 2)], last;
      } else {
        var error := ApiRequestError("HTTP " + IntToString(response.status) + ": " + Take(response.text, 200));
        return true, Err(error), sleeps, last;
      }
    case RequestFailed(m) =>
      return true, Err(ApiRequestError("Ошибка при обращении к API: " + m)), sleeps, last;
    case Timeout(m) =>
      sleeps', last' := SleepAfterError(respond, retries, delay, attempt, m, sleeps, last);
      stop := false;
    case ConnectionFailed(m) =>
      sleeps', last' := SleepAfterError(respond, retries, delay, attempt, m, sleeps, last);
      stop := false;
  }

  /** The loop tail after a timeout or connection error: remember it and sleep
      `RETRY_DELAY` unless this was the last attempt. */
  method SleepAfterError(ghost respond: nat -> Attempt, retries: int, delay: int, attempt: nat, m: string,
                         sleeps: seq<int>, ghost last: Option<string>)
    returns (sleeps': seq<int>, last': Option<string>)
    requires attempt < retries
    requires Retryable(respond(attempt)) && !respond(attempt).Reply? && respond(attempt).message == m
    ensures last' == Some(m)
    ensures sleeps' == sleeps + (if attempt < retries - 1 then [delay] else [])
    ensures (var rest := Retry(respond, retries, delay, attempt, last); rest.(sleeps := sleeps + rest.sleeps))
         == (var rest := Retry(respond, retries, delay, attempt + 1, last'); rest.(sleeps := sleeps' + rest.sleeps))
  {
    last' := Some(m);
    ghost var rest := Retry(respond, retries, delay, attempt + 1, last');
    if attempt < retries - 1 {
      assert sleeps + ([delay] + rest.sleeps) == (sleeps + [delay]) + rest.sleeps;
      sleeps' := sleeps + [delay];
    } else {
      sleeps' := sleeps;
    }
  }

  /** The first 200 among retryable attempts is returned, after exactly that
      many requests. */
  lemma {:induction false} FirstOkReturned(respond: nat -> Attempt, retries: int, delay: int, attempt: nat, last: Option<string>, k: nat)
    requires attempt <= k < retries
    requires forall i :: attempt <= i < k ==> Retryable(respond(i))
    requires respond(k).Reply? && respond(k).response.status == 200
    ensures Retry(respond, retries, delay, attempt, last).outcome == Ok(respond(k).response)
    ensures Retry(respond, retries, delay, attempt, last).attempts == k + 1
    decreases k - attempt
  {
    if attempt < k {
      match respond(attempt)
      case Reply(_) =>
        FirstOkReturned(respond, retries, delay, attempt + 1, last, k);
      case Timeout(m) =>
        FirstOkReturned(respond, retries, delay, attempt + 1, Some(m), k);
      case ConnectionFailed(m) =>
        FirstOkReturned(respond, retries, delay, attempt + 1, Some(m), k);
    }
  }

  /** Any other status, or a request error that is neither a timeout nor a
      connection error, ends the loop with an `ApiRequestError` at once: no
      later attempt is made. */
  lemma {:induction false} FatalStopsAtOnce(respond: nat -> Attempt, retries: int, delay: int, attempt: nat, last: Option<string>, k: nat)
    requires attempt <= k < retries
    requires forall i :: attempt <= i < k ==> Retryable(respond(i))
    requires !Retryable(respond(k)) && !(respond(k).Reply? && respond(k).response.status == 200)
    ensures Retry(respond, retries, delay, attempt, last).outcome.Err?
    ensures Retry(respond, retries, delay, attempt, last).outcome.error.ApiRequestError?
    ensures Retry(respond, retries, delay, attempt, last).attempts == k + 1
    decreases k - attempt
  {
    if attempt < k {
      match respond(attempt)
      case Reply(_) =>
        FatalStopsAtOnce(respond, retries, delay, attempt + 1, last, k);
      case Timeout(m) =>
        FatalStopsAtOnce(respond, retries, delay, attempt + 1, Some(m), k);
      case ConnectionFailed(m) =>
        FatalStopsAtOnce(respond, retries, delay, attempt + 1, Some(m), k);
    }
  }

  /** When every attempt is a 429, all attempts are used and the final error
      names the count and `None` as the last error. */
  lemma {:induction false} AllRateLimited(respond: nat -> Attempt, retries: int, delay: int, attempt: nat, last: Option<string>)
    requires forall i :: attempt <= i < retries ==> respond(i).Reply? && respond(i).response.status == 429
    ensures Retry(respond, retries, delay, attempt, last).outcome == Err(ApiRequestError(ExhaustedReason(retries, last)))
    ensures Retry(respond, retries, delay, attempt, last).attempts == if attempt < retries then retries else attempt
    decreases if attempt < retries then retries - attempt else 0
  {
    if attempt < retries {
      AllRateLimited(respond, retries, delay, attempt + 1, last);
    }
  }

  /** When every attempt is a 429, the waits are `RETRY_DELAY * (n + 2)` for
      each attempt number `n`, the last one included. */
  lemma {:induction false} RateLimitWaits(respond: nat -> Attempt, retries: int, delay: int, attempt: nat, last: Option<string>)
    requires forall i :: attempt <= i < retries ==> respond(i).Reply? && respond(i).response.status == 429
    ensures var sleeps := Retry(respond, retries, delay, attempt, last).sleeps;
      |sleeps| == (if attempt < retries then retries - attempt else 0)
      && forall j :: 0 <= j < |sleeps| ==> sleeps[j] == delay * (attempt + j + 2)
    decreases if attempt < retries then retries - attempt else 0
  {
    if attempt < retries {
      RateLimitWaits(respond, retries, delay, attempt + 1, last);
      var rest := Retry(respond, retries, delay, attempt + 1, last).sleeps;
      var sleeps := Retry(respond, retries, delay, attempt, last).sleeps;
      assert sleeps == [delay * (attempt + 2)] + rest;
      assert forall j :: 1 <= j < |sleeps| ==> sleeps[j] == rest[j - 1];
    }
  }

  /** When every attempt times out or fails to connect: all attempts are used,
      `RETRY_DELAY` is slept between them but not after the last, and the
      final error carries the last failure's message. */
  lemma {:induction false} AllTransientFailures(respond: nat -> Attempt, retries: int, delay: int, attempt: nat, last: Option<string>)
    requires attempt < retries
    requires forall i :: attempt <= i < retries ==> respond(i).Timeout? || respond(i).ConnectionFailed?
    ensures var run := Retry(respond, retries, delay, attempt, last);
      run.outcome == Err(ApiRequestError(ExhaustedReason(retries, Some(respond(retries - 1).message))))
      && run.attempts == retries
      && run.sleeps == seq(retries - 1 - attempt, _ => delay)
    decreases retries - attempt
  {
    var m := respond(attempt).message;
    if attempt + 1 < retries {
      AllTransientFailures(respond, retries, delay, attempt + 1, Some(m));
      var rest := Retry(respond, retries, delay, attempt + 1, Some(m));
      assert Retry(respond, retries, delay, attempt, last) == RetryAfterError(respond, retries, delay, attempt, m);
      assert [delay] + rest.sleeps == seq(retries - 1 - attempt, _ => delay);
    } else {
      assert Retry(respond, retries, delay, attempt, last) == RetryAfterError(respond, retries, delay, attempt, m);
    }
  }

  // ---------------------------------------------------------------------------
  // `in`, `[]` and float() on JSON values
  // ---------------------------------------------------------------------------

  /** Python's `key in v` for a string key: a key of an object, an element
      of a list (only an equal string is), a substring of a string; `None`
      where Python raises `TypeError` (numbers, booleans, null). Indexing
      `v[key]` succeeds only on an object. */
  function In(key: string, v: Json): (r: Option<bool>)
    ensures r.None? <==> v.JNull? || v.JBool? || v.JNum?
    ensures v.JObj? ==> r == Some(key in v.fields)
    ensures v.JList? ==> r == Some(JStr(key) in v.items)
    ensures v.JStr? ==> (r == Some(true) <==> exists i :: 0 <= i <= |v.s| && key <= v.s[i..])
  {
    match v
    case JObj(fields) => Some(key in fields)
    case JList(items) => Some(JStr(key) in items)
    case JStr(s) => ContainsIff(s, key); Some(Contains(s, key))
    case _ => None
  }

  /** Why `float(v)` failed: a `ValueError` for a string, a `TypeError` for
      null, a list or an object. */
  datatype FloatError = NotANumber(text: string) | WrongType(typeName: string)

  function TypeName(j: Json): string
  {
    match j
    case JNull => "NoneType"
    case JBool(_) => "bool"
    case JNum(_) => "float"
    case JStr(_) => "str"
    case JList(_) => "list"
    case JObj(_) => "dict"
  }

  /** `float(v)` for a JSON value. `floatOf` is what `float()` makes of a
      string: its value, or `None` where it raises `ValueError`. */
  function ToFloat(j: Json, floatOf: string -> Option<real>): (r: Result<real, FloatError>)
    ensures j.JNum? ==> r == Ok(j.n)
    ensures j.JBool? ==> r == Ok(if j.b then 1.0 else 0.0)
    ensures j.JStr? ==> (r.Ok? <==> floatOf(j.s).Some?) && (r.Ok? ==> r.value == floatOf(j.s).value)
    ensures r.Err? && r.error.WrongType? <==> j.JNull? || j.JList? || j.JObj?
  {
    match j
    case JNum(x) => Ok(x)
    case JBool(b) => Ok(if b then 1.0 else 0.0)
    case JStr(s) =>
      (match floatOf(s)
       case Some(x) => Ok(x)
       case None => Err(NotANumber("could not convert string to float: '" + s + "'")))
    case _ => Err(WrongType(TypeName(j)))
  }

  // ---------------------------------------------------------------------------
  // CoinGeckoClient.fetch_rates
  // ---------------------------------------------------------------------------

  const CoinGeckoEmpty := "CoinGecko API вернул пустой результат или данные в неожиданном формате"
  const CoinGeckoParsePrefix := "Ошибка парсинга ответа CoinGecko API: "

  /** The CoinGecko price of `id` in `data`, if the response has one:
      `data[id][usdKey]` when both lookups succeed. */
  predicate HasPrice(data: Json, id: string, usdKey: string)
  {
    data.JObj? && id in data.fields && data.fields[id].JObj? && usdKey in data.fields[id].fields
  }

  /** One turn of the loop over `CRYPTO_ID_MAP`: `id in data`, then
      `usd_key in data[id]`, then `float(data[id][usd_key])`; a `False` test
      skips the entry, a `TypeError` (from `in` or from indexing a list or a
      string) escapes, a `ValueError` becomes an `ApiRequestError`. */
  function CoinGeckoStep(rates: PyDict.Dict<real>, data: Json, code: string, id: string, base: string,
                         floatOf: string -> Option<real>)
    : Result<PyDict.Dict<real>, FetchError>
  {
    match In(id, data)
    case None => Err(OtherError("TypeError"))
    case Some(false) => Ok(rates)
    case Some(true) =>
      if !data.JObj? then Err(OtherError("TypeError"))
      else
        var entry := data.fields[id];
        match In(Lower(base), entry)
        case None => Err(OtherError("TypeError"))
        case Some(false) => Ok(rates)
        case Some(true) =>
          if !entry.JObj? then Err(OtherError("TypeError"))
          else
            match ToFloat(entry.fields[Lower(base)], floatOf)
            case Ok(x) => Ok(PyDict.Put(rates, PairKeys.PairKey(code, base), x))
            case Err(NotANumber(msg)) => Err(ApiRequestError(CoinGeckoParsePrefix + msg))
            case Err(WrongType(_)) => Err(OtherError("TypeError"))
  }

  /** A turn that does not raise writes the pair exactly when the entry has a
      price, with `float()` of that price, and otherwise leaves `rates` alone. */
  lemma CoinGeckoStepShape(rates: PyDict.Dict<real>, data: Json, code: string, id: string, base: string,
                           floatOf: string -> Option<real>)
    requires CoinGeckoStep(rates, data, code, id, base, floatOf).Ok?
    ensures HasPrice(data, id, Lower(base)) ==>
      ToFloat(data.fields[id].fields[Lower(base)], floatOf).Ok?
      && CoinGeckoStep(rates, data, code, id, base, floatOf).value
         == PyDict.Put(rates, PairKeys.PairKey(code, base), ToFloat(data.fields[id].fields[Lower(base)], floatOf).value)
    ensures !HasPrice(data, id, Lower(base)) ==> CoinGeckoStep(rates, data, code, id, base, floatOf).value == rates
  {
  }

  /** The loop over the first entries of the id map. */
  function CoinGeckoLoop(entries: PyDict.Dict<string>, data: Json, base: string, floatOf: string -> Option<real>)
    : Result<PyDict.Dict<real>, FetchError>
  {
    if |entries| == 0 then Ok([])
    else
      var last := entries[|entries| - 1];
      match CoinGeckoLoop(entries[..|entries| - 1], data, base, floatOf)
      case Ok(rates) => CoinGeckoStep(rates, data, last.0, last.1, base, floatOf)
      case Err(e) => Err(e)
  }

  /** The normalisation of a decoded CoinGecko body. */
  function CoinGeckoNormalise(idMap: PyDict.Dict<string>, base: string, body: Result<Json, string>,
                              floatOf: string -> Option<real>)
    : (r: Result<PyDict.Dict<real>, FetchError>)
    ensures r.Ok? ==> |r.value| > 0
    ensures body.Err? ==> r == Err(ApiRequestError(CoinGeckoParsePrefix + body.error))
  {
    match body
    case Err(msg) => Err(ApiRequestError(CoinGeckoParsePrefix + msg))
    case Ok(json) =>
      match CoinGeckoLoop(idMap, json, base, floatOf)
      case Err(e) => Err(e)
      case Ok(rates) => if |rates| == 0 then Err(ApiRequestError(CoinGeckoEmpty)) else Ok(rates)
  }

  /** The loop filling `rates`, as `fetch_rates` writes it. */
  method CoinGeckoParse(idMap: PyDict.Dict<string>, base: string, data: Json, floatOf: string -> Option<real>)
    returns (r: Result<PyDict.Dict<real>, FetchError>)
    ensures r == CoinGeckoLoop(idMap, data, base, floatOf)
  {
    var rates: PyDict.Dict<real> := [];
    var usdKey := Lower(base);
    for i := 0 to |idMap|
      invariant CoinGeckoLoop(idMap[..i], data, base, floatOf) == Ok(rates)
    {
      assert idMap[..i + 1][..i] == idMap[..i];
      var (code, id) := idMap[i];
      var found := In(id, data);
      if found.None? || (found == Some(true) && !data.JObj?) {
        PrefixErrorSticks(idMap, data, base, floatOf, i + 1);
        return Err(OtherError("TypeError"));
      }
      if found == Some(true) {
        var entry := data.fields[id];
        var hasKey := In(usdKey, entry);
        if hasKey.None? || (hasKey == Some(true) && !entry.JObj?) {
          PrefixErrorSticks(idMap, data, base, floatOf, i + 1);
          return Err(OtherError("TypeError"));
        }
        if hasKey == Some(true) {
          var f := ToFloat(entry.fields[usdKey], floatOf);
          if f.Err? {
            PrefixErrorSticks(idMap, data, base, floatOf, i + 1);
            return match f.error
              case NotANumber(msg) => Err(ApiRequestError(CoinGeckoParsePrefix + msg))
              case WrongType(_) => Err(OtherError("TypeError"));
          }
          rates := PyDict.Put(rates, PairKeys.PairKey(code, base), f.value);
        }
      }
    }
    assert idMap[..|idMap|] == idMap;
    return Ok(rates);
  }

  /** Once the loop has raised on a prefix, it raises the same on the whole map. */
  lemma {:induction false} PrefixErrorSticks(idMap: PyDict.Dict<string>, data: Json, base: string,
                                             floatOf: string -> Option<real>, n: nat)
    requires n <= |idMap|
    requires CoinGeckoLoop(idMap[..n], data, base, floatOf).Err?
    ensures CoinGeckoLoop(idMap, data, base, floatOf) == CoinGeckoLoop(idMap[..n], data, base, floatOf)
    decreases |idMap| - n
  {
    if n < |idMap| {
      assert idMap[..n + 1][..n] == idMap[..n];
      PrefixErrorSticks(idMap, data, base, floatOf, n + 1);
    } else {
      assert idMap[..n] == idMap;
    }
  }

  /** The keys the CoinGecko loop emits: when it succeeds, exactly
      `"{CODE}_{BASE}"` for the entries whose id has a price in the response. */
  lemma {:induction false} CoinGeckoLoopKeys(entries: PyDict.Dict<string>, data: Json, base: string,
                                             floatOf: string -> Option<real>)
    requires CoinGeckoLoop(entries, data, base, floatOf).Ok?
    ensures PyDict.KeySet(CoinGeckoLoop(entries, data, base, floatOf).value)
      == set i | 0 <= i < |entries| && HasPrice(data, entries[i].1, Lower(base)) :: PairKeys.PairKey(entries[i].0, base)
    decreases |entries|
  {
    if |entries| > 0 {
      var n := |entries| - 1;
      var init := entries[..n];
      var (code, id) := entries[n];
      var rates := CoinGeckoLoop(init, data, base, floatOf).value;
      CoinGeckoLoopKeys(init, data, base, floatOf);
      CoinGeckoStepShape(rates, data, code, id, base, floatOf);
      if HasPrice(data, id, Lower(base)) {
        PyDict.PutKeys(rates, PairKeys.PairKey(code, base), ToFloat(data.fields[id].fields[Lower(base)], floatOf).value);
      }
      assert forall i :: 0 <= i < n ==> init[i] == entries[i];
    }
  }

  /** The values the CoinGecko loop emits: for distinct codes, each entry with
      a price in the response gets `float(data[id][lower(BASE)])`. */
  lemma {:induction false} CoinGeckoLoopValues(entries: PyDict.Dict<string>, data: Json, base: string,
                                               floatOf: string -> Option<real>, i: nat)
    requires CoinGeckoLoop(entries, data, base, floatOf).Ok?
    requires PyDict.DistinctKeys(entries)
    requires i < |entries| && HasPrice(data, entries[i].1, Lower(base))
    ensures ToFloat(data.fields[entries[i].1].fields[Lower(base)], floatOf).Ok?
    ensures PyDict.Get(CoinGeckoLoop(entries, data, base, floatOf).value, PairKeys.PairKey(entries[i].0, base))
      == Some(ToFloat(data.fields[entries[i].1].fields[Lower(base)], floatOf).value)
    decreases |entries|
  {
    var n := |entries| - 1;
    var init := entries[..n];
    var (code, id) := entries[n];
    var rates := CoinGeckoLoop(init, data, base, floatOf).value;
    var key := PairKeys.PairKey(entries[i].0, base);
    CoinGeckoStepShape(rates, data, code, id, base, floatOf);
    if i == n {
      PyDict.PutGet(rates, key, ToFloat(data.fields[id].fields[Lower(base)], floatOf).value, key);
    } else {
      assert init[i] == entries[i];
      CoinGeckoLoopValues(init, data, base, floatOf, i);
      if HasPrice(data, id, Lower(base)) {
        PairKeys.PairKeyInjectiveAll(base);
        PyDict.PutGet(rates, PairKeys.PairKey(code, base), ToFloat(data.fields[id].fields[Lower(base)], floatOf).value, key);
      }
    }
  }

  /** The CoinGecko normalisation raises "empty result" exactly when the loop
      does not raise and no entry of the id map has a price in the response,
      and otherwise returns what the loop built or raised. */
  lemma CoinGeckoEmptyIff(idMap: PyDict.Dict<string>, base: string, json: Json, floatOf: string -> Option<real>)
    ensures CoinGeckoNormalise(idMap, base, Ok(json), floatOf)
      == if CoinGeckoLoop(idMap, json, base, floatOf).Ok?
            && !exists i :: 0 <= i < |idMap| && HasPrice(json, idMap[i].1, Lower(base))
         then Err(ApiRequestError(CoinGeckoEmpty))
         else CoinGeckoLoop(idMap, json, base, floatOf)
  {
    if CoinGeckoLoop(idMap, json, base, floatOf).Ok? {
      var rates := CoinGeckoLoop(idMap, json, base, floatOf).value;
      CoinGeckoLoopKeys(idMap, json, base, floatOf);
      if exists i :: 0 <= i < |idMap| && HasPrice(json, idMap[i].1, Lower(base)) {
        var i :| 0 <= i < |idMap| && HasPrice(json, idMap[i].1, Lower(base));
        assert PairKeys.PairKey(idMap[i].0, base) in PyDict.KeySet(rates);
      } else {
        assert PyDict.KeySet(rates) == {};
      }
    }
  }

  /** A body that is not an object never yields rates: a list or a string
      body raises "empty result" or a `TypeError`, whatever it holds. */
  lemma NonObjectBodyYieldsNothing(idMap: PyDict.Dict<string>, base: string, json: Json, floatOf: string -> Option<real>)
    requires !json.JObj?
    ensures CoinGeckoNormalise(idMap, base, Ok(json), floatOf).Err?
  {
    CoinGeckoEmptyIff(idMap, base, json, floatOf);
  }

  /** An empty list as the body (no id is `in` it) is the "empty result". */
  lemma {:induction false} EmptyListBody(idMap: PyDict.Dict<string>, base: string, floatOf: string -> Option<real>)
    ensures CoinGeckoLoop(idMap, JList([]), base, floatOf) == Ok([])
    ensures CoinGeckoNormalise(idMap, base, Ok(JList([])), floatOf) == Err(ApiRequestError(CoinGeckoEmpty))
    decreases |idMap|
  {
    if |idMap| > 0 {
      EmptyListBody(idMap[..|idMap| - 1], base, floatOf);
    }
  }

  /** `CoinGeckoClient.fetch_rates`: request the CoinGecko URL, then normalise. */
  method FetchCoinGecko(config: Config, respond: nat -> Attempt, floatOf: string -> Option<real>)
    returns (r: Result<PyDict.Dict<real>, FetchError>, sleeps: seq<int>)
    ensures var run := Retry(respond, EffectiveRetries(None, config.maxRetries), config.retryDelay, 0, None);
      sleeps == run.sleeps
      && (run.outcome.Err? ==> r == Err(run.outcome.error))
      && (run.outcome.Ok? ==> r == CoinGeckoNormalise(config.cryptoIdMap, config.baseCurrency, run.outcome.value.body, floatOf))
  {
    var outcome, attempts;
    outcome, sleeps, attempts := MakeRequest(respond, None, config);
    if outcome.Err? {
      return Err(outcome.error), sleeps;
    }
    match outcome.value.body
    case Err(msg) =>
      r := Err(ApiRequestError(CoinGeckoParsePrefix + msg));
    case Ok(json) =>
      r := CoinGeckoParse(config.cryptoIdMap, config.baseCurrency, json, floatOf);
      if r.Ok? && |r.value| == 0 {
        r := Err(ApiRequestError(CoinGeckoEmpty));
      }
  }

  // ---------------------------------------------------------------------------
  // ExchangeRateApiClient.fetch_rates
  // ---------------------------------------------------------------------------

  const ExchangeRateNoRates := "ExchangeRate-API не вернул курсы (пустой conversion_rates)"
  const ExchangeRateParsePrefix := "Ошибка парсинга ответа ExchangeRate-API: "
  const ExchangeRateNoneFound := "ExchangeRate-API: ни одна из запрошенных валют не найдена"

  /** `str(v)` for the `error-type` field: strings, null and booleans as
      Python prints them; other values are not rendered. */
  function ErrorTypeText(j: Json): string
  {
    match j
    case JStr(s) => s
    case JNull => "None"
    case JBool(b) => if b then "True" else "False"
    case _ => TypeName(j)
  }

  /** Python truthiness of a JSON value. */
  predicate Truthy(j: Json)
  {
    match j
    case JNull => false
    case JBool(b) => b
    case JNum(x) => x != 0.0
    case JStr(s) => s != ""
    case JList(items) => items != []
    case JObj(fields) => fields != map[]
  }

  /** `1.0 / x if x != 0 else 0.0`: the rate from the fiat to the base. */
  function Invert(j: Json): (r: Result<real, FetchError>)
    ensures j.JNum? && j.n != 0.0 ==> r == Ok(1.0 / j.n)
    ensures j.JNum? && j.n == 0.0 ==> r == Ok(0.0)
  {
    match j
    case JNum(x) => Ok(if x != 0.0 then 1.0 / x else 0.0)
    case JBool(b) => Ok(if b then 1.0 else 0.0)
    case _ => Err(OtherError("TypeError"))
  }

  /** `conversion_rates` is an object that has a rate for `code`. */
  predicate Listed(conv: Json, code: string)
  {
    conv.JObj? && code in conv.fields
  }

  /** The loop over the first configured fiat codes: `code in
      conversion_rates`, then `conversion_rates[code]`, which raises
      `TypeError` on a list or a string that the test let through. */
  function ExchangeRateLoop(fiats: seq<string>, conv: Json, base: string)
    : Result<PyDict.Dict<real>, FetchError>
  {
    if |fiats| == 0 then Ok([])
    else
      var code := fiats[|fiats| - 1];
      match ExchangeRateLoop(fiats[..|fiats| - 1], conv, base)
      case Err(e) => Err(e)
      case Ok(rates) =>
        match In(code, conv)
        case None => Err(OtherError("TypeError"))
        case Some(false) => Ok(rates)
        case Some(true) =>
          if !conv.JObj? then Err(OtherError("TypeError"))
          else
            match Invert(conv.fields[code])
            case Err(e) => Err(e)
            case Ok(x) => Ok(PyDict.Put(rates, PairKeys.PairKey(code, base), x))
  }

  /** The normalisation of a decoded ExchangeRate body. */
  function ExchangeRateNormalise(fiats: seq<string>, base: string, body: Result<Json, string>)
    : (r: Result<PyDict.Dict<real>, FetchError>)
    ensures r.Ok? ==> |r.value| > 0
    ensures r.Ok? ==>
      (body.Ok? && body.value.JObj? && "result" in body.value.fields
       && body.value.fields["result"] == JStr("success"))
  {
    match body
    case Err(msg) => Err(ApiRequestError(ExchangeRateParsePrefix + msg))
    case Ok(json) =>
      if !json.JObj? then Err(OtherError("AttributeError"))
      else
        var data := json.fields;
        if !("result" in data && data["result"] == JStr("success")) then
          Err(ApiRequestError("ExchangeRate-API вернул ошибку: "
            + (if "error-type" in data then ErrorTypeText(data["error-type"]) else "unknown")))
        else
          var conv := if "conversion_rates" in data then data["conversion_rates"] else JObj(map[]);
          if !Truthy(conv) then Err(ApiRequestError(ExchangeRateNoRates))
          else
            match ExchangeRateLoop(fiats, conv, base)
            case Err(e) => Err(e)
            case Ok(rates) => if |rates| == 0 then Err(ApiRequestError(ExchangeRateNoneFound)) else Ok(rates)
  }

  /** The loop filling `rates`, as `fetch_rates` writes it. */
  method ExchangeRateParse(fiats: seq<string>, base: string, conv: Json)
    returns (r: Result<PyDict.Dict<real>, FetchError>)
    ensures r == ExchangeRateLoop(fiats, conv, base)
  {
    var rates: PyDict.Dict<real> := [];
    for i := 0 to |fiats|
      invariant ExchangeRateLoop(fiats[..i], conv, base) == Ok(rates)
    {
      assert fiats[..i + 1][..i] == fiats[..i];
      var code := fiats[i];
      var found := In(code, conv);
      if found.None? || (found == Some(true) && !conv.JObj?) {
        FiatErrorSticks(fiats, conv, base, i + 1);
        return Err(OtherError("TypeError"));
      }
      if found == Some(true) {
        var x := Invert(conv.fields[code]);
        if x.Err? {
          FiatErrorSticks(fiats, conv, base, i + 1);
          return Err(x.error);
        }
        rates := PyDict.Put(rates, PairKeys.PairKey(code, base), x.value);
      }
    }
    assert fiats[..|fiats|] == fiats;
    return Ok(rates);
  }

  lemma {:induction false} FiatErrorSticks(fiats: seq<string>, conv: Json, base: string, n: nat)
    requires n <= |fiats|
    requires ExchangeRateLoop(fiats[..n], conv, base).Err?
    ensures ExchangeRateLoop(fiats, conv, base) == ExchangeRateLoop(fiats[..n], conv, base)
    decreases |fiats| - n
  {
    if n < |fiats| {
      assert fiats[..n + 1][..n] == fiats[..n];
      FiatErrorSticks(fiats, conv, base, n + 1);
    } else {
      assert fiats[..n] == fiats;
    }
  }

  /** The last turn of a loop that does not raise: a listed code is written
      with its inverted rate, any other code leaves `rates` alone. */
  lemma ExchangeRateStepShape(fiats: seq<string>, conv: Json, base: string)
    requires |fiats| > 0 && ExchangeRateLoop(fiats, conv, base).Ok?
    ensures var n := |fiats| - 1;
      var rates := ExchangeRateLoop(fiats[..n], conv, base);
      rates.Ok?
      && (Listed(conv, fiats[n]) ==>
            Invert(conv.fields[fiats[n]]).Ok?
            && ExchangeRateLoop(fiats, conv, base).value
               == PyDict.Put(rates.value, PairKeys.PairKey(fiats[n], base), Invert(conv.fields[fiats[n]]).value))
      && (!Listed(conv, fiats[n]) ==> ExchangeRateLoop(fiats, conv, base).value == rates.value)
  {
  }

  /** The keys the ExchangeRate loop emits: when it succeeds, exactly
      `"{FIAT}_{BASE}"` for the configured codes listed in `conversion_rates`. */
  lemma {:induction false} ExchangeRateLoopKeys(fiats: seq<string>, conv: Json, base: string)
    requires ExchangeRateLoop(fiats, conv, base).Ok?
    ensures PyDict.KeySet(ExchangeRateLoop(fiats, conv, base).value)
      == set i | 0 <= i < |fiats| && Listed(conv, fiats[i]) :: PairKeys.PairKey(fiats[i], base)
    decreases |fiats|
  {
    if |fiats| > 0 {
      var n := |fiats| - 1;
      var init := fiats[..n];
      var code := fiats[n];
      ExchangeRateLoopKeys(init, conv, base);
      ExchangeRateStepShape(fiats, conv, base);
      var rates := ExchangeRateLoop(init, conv, base).value;
      var before := set i | 0 <= i < n && Listed(conv, init[i]) :: PairKeys.PairKey(init[i], base);
      var now := set i | 0 <= i < |fiats| && Listed(conv, fiats[i]) :: PairKeys.PairKey(fiats[i], base);
      var added := if Listed(conv, code) then {PairKeys.PairKey(code, base)} else {};
      assert now == before + added by {
        forall y | y in now ensures y in before + added {
          var i :| 0 <= i < |fiats| && Listed(conv, fiats[i]) && y == PairKeys.PairKey(fiats[i], base);
          if i < n {
            assert init[i] == fiats[i];
          }
        }
        forall y | y in before + added ensures y in now {
          if y in before {
            var i :| 0 <= i < n && Listed(conv, init[i]) && y == PairKeys.PairKey(init[i], base);
            assert fiats[i] == init[i];
          } else {
            assert fiats[n] == code;
          }
        }
      }
      if Listed(conv, code) {
        PyDict.PutKeys(rates, PairKeys.PairKey(code, base), Invert(conv.fields[code]).value);
      }
    }
  }

  /** The values the ExchangeRate loop emits: when it succeeds, each
      configured code listed in `conversion_rates` has the inverted rate
      (0.0 for a zero rate). */
  lemma {:induction false} ExchangeRateLoopValues(fiats: seq<string>, conv: Json, base: string)
    requires ExchangeRateLoop(fiats, conv, base).Ok?
    ensures forall code :: code in fiats && Listed(conv, code) ==>
      Invert(conv.fields[code]).Ok?
      && PyDict.Get(ExchangeRateLoop(fiats, conv, base).value, PairKeys.PairKey(code, base)) == Some(Invert(conv.fields[code]).value)
    decreases |fiats|
  {
    if |fiats| > 0 {
      var n := |fiats| - 1;
      var init := fiats[..n];
      var code := fiats[n];
      ExchangeRateLoopValues(init, conv, base);
      ExchangeRateStepShape(fiats, conv, base);
      var rates := ExchangeRateLoop(init, conv, base).value;
      var result := ExchangeRateLoop(fiats, conv, base).value;
      assert forall c :: c in fiats ==> c in init || c == code;
      if Listed(conv, code) {
        var x := Invert(conv.fields[code]).value;
        var key := PairKeys.PairKey(code, base);
        PairKeys.PairKeyInjectiveAll(base);
        forall c | c in fiats && Listed(conv, c)
          ensures Invert(conv.fields[c]).Ok? && PyDict.Get(result, PairKeys.PairKey(c, base)) == Some(Invert(conv.fields[c]).value)
        {
          PyDict.PutGet(rates, key, x, PairKeys.PairKey(c, base));
        }
      }
    }
  }

  /** What the ExchangeRate loop emits: when it succeeds, the keys are exactly
      `"{FIAT}_{BASE}"` for the configured codes listed in
      `conversion_rates`, each with the inverted rate (0.0 for a zero rate). */
  lemma ExchangeRateLoopEmits(fiats: seq<string>, conv: Json, base: string)
    requires ExchangeRateLoop(fiats, conv, base).Ok?
    ensures var rates := ExchangeRateLoop(fiats, conv, base).value;
      PyDict.KeySet(rates) == set i | 0 <= i < |fiats| && Listed(conv, fiats[i]) :: PairKeys.PairKey(fiats[i], base)
    ensures var rates := ExchangeRateLoop(fiats, conv, base).value;
      forall code :: code in fiats && Listed(conv, code) ==>
        Invert(conv.fields[code]).Ok? && PyDict.Get(rates, PairKeys.PairKey(code, base)) == Some(Invert(conv.fields[code]).value)
  {
    ExchangeRateLoopKeys(fiats, conv, base);
    ExchangeRateLoopValues(fiats, conv, base);
  }

  /** `ExchangeRateApiClient.fetch_rates`: request the ExchangeRate URL, then normalise. */
  method FetchExchangeRate(config: Config, respond: nat -> Attempt)
    returns (r: Result<PyDict.Dict<real>, FetchError>, sleeps: seq<int>)
    ensures var run := Retry(respond, EffectiveRetries(None, config.maxRetries), config.retryDelay, 0, None);
      sleeps == run.sleeps
      && (run.outcome.Err? ==> r == Err(run.outcome.error))
      && (run.outcome.Ok? ==> r == ExchangeRateNormalise(config.fiatCurrencies, config.baseCurrency, run.outcome.value.body))
  {
    var outcome, attempts;
    outcome, sleeps, attempts := MakeRequest(respond, None, config);
    if outcome.Err? {
      return Err(outcome.error), sleeps;
    }
    match outcome.value.body
    case Err(msg) =>
      r := Err(ApiRequestError(ExchangeRateParsePrefix + msg));
    case Ok(json) =>
      if !json.JObj? {
        return Err(OtherError("AttributeError")), sleeps;
      }
      var data := json.fields;
      if !("result" in data && data["result"] == JStr("success")) {
        var errorType := if "error-type" in data then ErrorTypeText(data["error-type"]) else "unknown";
        return Err(ApiRequestError("ExchangeRate-API вернул ошибку: " + errorType)), sleeps;
      }
      var conv := if "conversion_rates" in data then data["conversion_rates"] else JObj(map[]);
      if !Truthy(conv) {
        return Err(ApiRequestError(ExchangeRateNoRates)), sleeps;
      }
      r := ExchangeRateParse(config.fiatCurrencies, config.baseCurrency, conv);
      if r.Ok? && |r.value| == 0 {
        r := Err(ApiRequestError(ExchangeRateNoneFound));
      }
  }

  /** Past the status checks and the truthiness test, the ExchangeRate
      normalisation raises "none found" exactly when the loop does not raise
      and no configured code is listed in `conversion_rates`, and otherwise
      returns what the loop built or raised. */
  lemma ExchangeRateNoneFoundIff(fiats: seq<string>, base: string, json: Json)
    requires json.JObj? && "result" in json.fields && json.fields["result"] == JStr("success")
    requires "conversion_rates" in json.fields && Truthy(json.fields["conversion_rates"])
    ensures var conv := json.fields["conversion_rates"];
      ExchangeRateNormalise(fiats, base, Ok(json))
        == if ExchangeRateLoop(fiats, conv, base).Ok? && !exists i :: 0 <= i < |fiats| && Listed(conv, fiats[i])
           then Err(ApiRequestError(ExchangeRateNoneFound))
           else ExchangeRateLoop(fiats, conv, base)
  {
    var conv := json.fields["conversion_rates"];
    if ExchangeRateLoop(fiats, conv, base).Ok? {
      var rates := ExchangeRateLoop(fiats, conv, base).value;
      ExchangeRateLoopEmits(fiats, conv, base);
      if exists i :: 0 <= i < |fiats| && Listed(conv, fiats[i]) {
        var i :| 0 <= i < |fiats| && Listed(conv, fiats[i]);
        assert PairKeys.PairKey(fiats[i], base) in PyDict.KeySet(rates);
      } else {
        assert PyDict.KeySet(rates) == {};
      }
    }
  }

  /** A list of strings as `conversion_rates` that holds none of the
      configured codes is truthy but lists nothing: "none found". */
  lemma {:induction false} UnlistedCodesFindNothing(fiats: seq<string>, items: seq<Json>, base: string)
    requires forall i :: 0 <= i < |fiats| ==> JStr(fiats[i]) !in items
    ensures ExchangeRateLoop(fiats, JList(items), base) == Ok([])
    decreases |fiats|
  {
    if |fiats| > 0 {
      UnlistedCodesFindNothing(fiats[..|fiats| - 1], items, base);
    }
  }
}
