/** Validators, the rate table of the core and conversion through USD
    (valutatrade_hub/core/utils.py). */
module Utils {
  import opened Text
  import opened Results
  import Storage
  import PyDict

  /** What the helpers raise. */
  datatype UtilsError =
    | ValueError(message: string)
    | PermissionError(message: string)
    | ZeroDivisionError
    | ReadError(reason: string)        // an OSError or UnicodeDecodeError of load_json
    | AttributeError(typeName: string)
  {
    function Message(): string
    {
      match this
      case ValueError(m) => m
      case PermissionError(m) => m
      case ZeroDivisionError => "float division by zero"
      case ReadError(reason) => reason
      case AttributeError(typeName) => "'" + typeName + "' object has no attribute 'get'"
    }
  }

  const AmountNotPositive := "Сумма должна быть положительной"
  const EmptyCode := "Код валюты не может быть пустым"
  const LoginRequired := "Требуется авторизация. Выполните команду login."

  function RateMissing(code: string): string
  {
    "Курс для валюты " + code + " не найден"
  }

  // ---------------------------------------------------------------------------
  // Validators
  // ---------------------------------------------------------------------------

  /** `validate_amount`: a positive amount is returned as it is; anything
      else is a `ValueError`. */
  function ValidateAmount(amount: real): (r: Result<real, UtilsError>)
    ensures r.Ok? <==> amount > 0.0
    ensures r.Ok? ==> r.value == amount
    ensures r.Err? ==> r.error == ValueError(AmountNotPositive)
  {
    if amount <= 0.0 then Err(ValueError(AmountNotPositive)) else Ok(amount)
  }

  /** Upper-casing keeps a trimmed text trimmed. */
  lemma UpperKeepsTrimmed(s: string)
    requires Trimmed(s)
    ensures Trimmed(Upper(s))
  {
  }

  /** `validate_currency_code`: the code stripped and upper-cased; a blank
      code is a `ValueError`. The result is trimmed and in upper case. */
  function ValidateCurrencyCode(code: string): (r: Result<string, UtilsError>)
    ensures r.Ok? <==> NotBlank(code)
    ensures r.Err? ==> r.error == ValueError(EmptyCode)
    ensures r.Ok? ==> r.value == Upper(Strip(code))
    ensures r.Ok? ==> Trimmed(r.value) && Upper(r.value) == r.value
  {
    BlankIffStripEmpty(code);
    var normal := Upper(Strip(code));
    if normal == "" then Err(ValueError(EmptyCode))
    else
      UpperKeepsTrimmed(Strip(code));
      UpperIdempotent(Strip(code));
      Ok(normal)
  }

  /** Validating a validated code gives it back. */
  lemma ValidateCurrencyCodeIdempotent(code: string)
    requires ValidateCurrencyCode(code).Ok?
    ensures ValidateCurrencyCode(ValidateCurrencyCode(code).value) == ValidateCurrencyCode(code)
  {
    NormalCodeFixed(ValidateCurrencyCode(code).value);
  }

  /** A trimmed code in upper case is its own normal form. */
  lemma NormalCodeFixed(code: string)
    requires Trimmed(code) && Upper(code) == code
    ensures ValidateCurrencyCode(code) == Ok(code)
  {
    StripTrimmed(code);
    assert NotBlank(code) by { assert !IsSpace(code[0]); }
  }

  /** `require_login`: raises exactly when nobody is logged in. */
  function RequireLogin<U>(user: Option<U>): (r: Result<(), UtilsError>)
    ensures r.Err? <==> user.None?
    ensures r.Err? ==> r.error.PermissionError? && r.error.Message() == LoginRequired
  {
    if user.None? then Err(PermissionError(LoginRequired)) else Ok(())
  }

  // ---------------------------------------------------------------------------
  // The rate table
  // ---------------------------------------------------------------------------

  /** `DEFAULT_RATES`: units of USD per unit of each code. */
  function DefaultRates(): (rates: map<string, real>)
    ensures rates.Keys == {"USD", "EUR", "GBP", "RUB", "CNY", "JPY", "BTC", "ETH"}
    ensures rates["USD"] == 1.0
    ensures forall code :: code in rates ==> rates[code] > 0.0
  {
    map["USD" := 1.0, "EUR" := 1.08, "GBP" := 1.27, "RUB" := 0.011,
        "CNY" := 0.14, "JPY" := 0.0067, "BTC" := 95000.0, "ETH" := 3500.0]
  }

  /** `get_rates()` over the current content of rates.json: the "rates" key
      of the document, or the defaults when the key is absent, the file is
      missing or it is not valid JSON. Any other read failure propagates, and
      a document that is not an object fails on `.get`. */
  function GetRates(file: Storage.JsonFile<Storage.RatesDoc>): (r: Result<map<string, real>, UtilsError>)
    ensures r.Ok? <==> !file.Unreadable? && !file.NotUtf8? && !file.NotObject?
    ensures file.Missing? || file.Undecodable? ==> r == Ok(DefaultRates())
    ensures file.Present? && file.doc.legacyRates.Some? ==> r == Ok(file.doc.legacyRates.value)
    ensures file.Present? && file.doc.legacyRates.None? ==> r == Ok(DefaultRates())
  {
    match file
    case Missing => Ok(DefaultRates())
    case Undecodable(_) => Ok(DefaultRates())
    case Unreadable(reason) => Err(ReadError(reason))
    case NotUtf8(reason) => Err(ReadError(reason))
    case NotObject(v) => Err(AttributeError(Storage.PyTypeName(v)))
    case Present(doc) => Ok(doc.legacyRates.GetOr(DefaultRates()))
  }

  /** rates.json is the file the parser's `update_rates_cache` writes. After a
      successful update of a missing file or of a cache in the current or
      the legacy shape, the document has no "rates" key, so `get_rates`
      falls back to `DEFAULT_RATES` whatever rates were fetched. */
  lemma RatesAfterCacheUpdate(
    file: Storage.JsonFile<Storage.RatesDoc>, rates: PyDict.Dict<real>,
    source: string, ts: string, clock: string)
    requires Storage.CacheUpdateSucceeds(file, None, rates, clock)
    requires file.Present? ==> file.doc.legacyRates.None? || file.doc.pairs.None?
    ensures GetRates(Storage.CacheAfterUpdate(file, None, rates, source, ts, clock)) == Ok(DefaultRates())
  {
  }

  /** What `get_rates_info()` returns. */
  datatype RatesInfo = RatesInfo(rates: map<string, real>, baseCurrency: string, updatedAt: Option<string>)

  /** `get_rates_info()`: the same table as `get_rates()`, with the base
      currency ("USD" when absent) and the document's `updated_at`. */
  function GetRatesInfo(file: Storage.JsonFile<Storage.RatesDoc>): (r: Result<RatesInfo, UtilsError>)
    ensures r.Ok? <==> GetRates(file).Ok?
    ensures r.Ok? ==> r.value.rates == GetRates(file).value
    ensures r.Ok? && !file.Present? ==> r.value.baseCurrency == "USD" && r.value.updatedAt.None?
    ensures r.Ok? && file.Present? ==>
      r.value.baseCurrency == file.doc.baseCurrency.GetOr("USD") && r.value.updatedAt == file.doc.updatedAt
  {
    match file
    case Missing => Ok(RatesInfo(DefaultRates(), "USD", None))
    case Undecodable(_) => Ok(RatesInfo(DefaultRates(), "USD", None))
    case Unreadable(reason) => Err(ReadError(reason))
    case NotUtf8(reason) => Err(ReadError(reason))
    case NotObject(v) => Err(AttributeError(Storage.PyTypeName(v)))
    case Present(doc) => Ok(RatesInfo(doc.legacyRates.GetOr(DefaultRates()), doc.baseCurrency.GetOr("USD"), doc.updatedAt))
  }

  /** `get_rate(code)`: the table's rate for the normalised code; a code
      absent from the table is a `ValueError` naming the normalised code. */
  function GetRate(code: string, file: Storage.JsonFile<Storage.RatesDoc>): (r: Result<real, UtilsError>)
    ensures r.Ok? <==> NotBlank(code) && GetRates(file).Ok? && Upper(Strip(code)) in GetRates(file).value
    ensures r.Ok? ==> r.value == GetRates(file).value[Upper(Strip(code))]
    ensures NotBlank(code) && GetRates(file).Ok? && Upper(Strip(code)) !in GetRates(file).value ==>
      r == Err(ValueError(RateMissing(Upper(Strip(code)))))
  {
    var normal :- ValidateCurrencyCode(code);
    var rates :- GetRates(file);
    if normal !in rates then Err(ValueError(RateMissing(normal))) else Ok(rates[normal])
  }

  // ---------------------------------------------------------------------------
  // Conversion
  // ---------------------------------------------------------------------------

  /** The exchange rate between two USD rates. */
  function Ratio(fromRate: real, toRate: real): real
    requires toRate != 0.0
  {
    fromRate / toRate
  }

  /** The arithmetic of `convert_currency`: the amount in USD divided by the
      target's rate, which over the reals is the amount times the ratio. */
  function Scaled(amount: real, fromRate: real, toRate: real): real
    requires toRate != 0.0
  {
    amount * Ratio(fromRate, toRate)
  }

  /** Scaling multiplies by the ratio of the rates. */
  lemma ScaledByRatio(amount: real, fromRate: real, toRate: real, ratio: real)
    requires toRate != 0.0 && ratio == Ratio(fromRate, toRate)
    ensures Scaled(amount, fromRate, toRate) == amount * ratio
  {
  }

  /** Scaling by equal rates is the identity. */
  lemma ScaledSame(amount: real, rate: real)
    requires rate != 0.0
    ensures Scaled(amount, rate, rate) == amount
  {
    assert Ratio(rate, rate) == 1.0;
  }

  /** Scaling back undoes a scaling, and positive rates keep a positive
      amount positive. */
  lemma ScaledBack(amount: real, fromRate: real, toRate: real)
    requires fromRate > 0.0 && toRate > 0.0
    ensures amount > 0.0 ==> Scaled(amount, fromRate, toRate) > 0.0
    ensures Scaled(Scaled(amount, fromRate, toRate), toRate, fromRate) == amount
  {
    var there := Ratio(fromRate, toRate);
    var back := Ratio(toRate, fromRate);
    assert there * back == 1.0;
    assert there > 0.0;
    calc {
      Scaled(Scaled(amount, fromRate, toRate), toRate, fromRate);
      (amount * there) * back;
      amount * (there * back);
      amount;
    }
  }

  /** Scaling through a rate of one in two steps is scaling in one step. */
  lemma ScaledThroughOne(amount: real, fromRate: real, toRate: real)
    requires toRate != 0.0
    ensures Scaled(Scaled(amount, fromRate, 1.0), 1.0, toRate) == Scaled(amount, fromRate, toRate)
  {
    assert Ratio(fromRate, 1.0) == fromRate;
    assert Ratio(1.0, toRate) * fromRate == Ratio(fromRate, toRate);
  }

  /** The rate table `convert_currency` uses: the one passed in, or
      `get_rates()` when none is. */
  function TableFor(rates: Option<map<string, real>>, file: Storage.JsonFile<Storage.RatesDoc>): (r: Result<map<string, real>, UtilsError>)
    ensures rates.Some? ==> r == Ok(rates.value)
    ensures rates.None? ==> r == GetRates(file)
  {
    match rates
    case Some(table) => Ok(table)
    case None => GetRates(file)
  }

  /** `convert_currency`: the amount and both codes are validated in that
      order, then the table is fetched; a missing FROM code is reported
      before a missing TO code; the result is the amount in USD divided by
      the TO rate. */
  function ConvertCurrency(
    amount: real, from: string, to: string,
    rates: Option<map<string, real>>, file: Storage.JsonFile<Storage.RatesDoc>
  ): (r: Result<real, UtilsError>)
    ensures r.Ok? ==> amount > 0.0 && NotBlank(from) && NotBlank(to) && TableFor(rates, file).Ok?
    ensures r.Ok? ==>
      var table := TableFor(rates, file).value;
      var f := Upper(Strip(from));
      var t := Upper(Strip(to));
      f in table && t in table && table[t] != 0.0 && r.value == Scaled(amount, table[f], table[t])
    ensures amount > 0.0 && NotBlank(from) && NotBlank(to) && TableFor(rates, file).Ok? ==>
      var table := TableFor(rates, file).value;
      var f := Upper(Strip(from));
      var t := Upper(Strip(to));
      (f !in table ==> r == Err(ValueError(RateMissing(f))))
      && (f in table && t !in table ==> r == Err(ValueError(RateMissing(t))))
      && (f in table && t in table && table[t] == 0.0 ==> r == Err(ZeroDivisionError))
      && (f in table && t in table && table[t] != 0.0 ==> r.Ok?)
  {
    var amount :- ValidateAmount(amount);
    var f :- ValidateCurrencyCode(from);
    var t :- ValidateCurrencyCode(to);
    var table :- TableFor(rates, file);
    if f !in table then Err(ValueError(RateMissing(f)))
    else if t !in table then Err(ValueError(RateMissing(t)))
    else if table[t] == 0.0 then Err(ZeroDivisionError)
    else Ok(Scaled(amount, table[f], table[t]))
  }

  /** Converting to the same currency returns the amount. */
  lemma ConvertSameCode(amount: real, from: string, to: string, rates: Option<map<string, real>>, file: Storage.JsonFile<Storage.RatesDoc>)
    requires ConvertCurrency(amount, from, to, rates, file).Ok?
    requires Upper(Strip(from)) == Upper(Strip(to))
    ensures ConvertCurrency(amount, from, to, rates, file).value == amount
  {
    var table := TableFor(rates, file).value;
    ScaledSame(amount, table[Upper(Strip(from))]);
  }

  /** With positive rates, converting there and back returns the original amount. */
  lemma ConvertRoundTrip(amount: real, from: string, to: string, rates: Option<map<string, real>>, file: Storage.JsonFile<Storage.RatesDoc>)
    requires ConvertCurrency(amount, from, to, rates, file).Ok?
    requires TableFor(rates, file).value[Upper(Strip(from))] > 0.0
    requires TableFor(rates, file).value[Upper(Strip(to))] > 0.0
    ensures
      var there := ConvertCurrency(amount, from, to, rates, file).value;
      ConvertCurrency(there, to, from, rates, file) == Ok(amount)
  {
    var table := TableFor(rates, file).value;
    ScaledBack(amount, table[Upper(Strip(from))], table[Upper(Strip(to))]);
  }

  /** "USD" is already a normalised code. */
  lemma UsdIsNormal()
    ensures ValidateCurrencyCode("USD") == Ok("USD")
  {
    UpperOfCapitals("USD");
    NormalCodeFixed("USD");
  }

  /** Converting goes through USD: with USD at rate 1 and positive rates,
      converting to USD and then on to the target gives the direct result. */
  lemma ConvertThroughUsd(amount: real, from: string, to: string, rates: Option<map<string, real>>, file: Storage.JsonFile<Storage.RatesDoc>)
    requires ConvertCurrency(amount, from, to, rates, file).Ok?
    requires "USD" in TableFor(rates, file).value && TableFor(rates, file).value["USD"] == 1.0
    requires TableFor(rates, file).value[Upper(Strip(from))] > 0.0
    ensures ConvertCurrency(amount, from, "USD", rates, file).Ok?
    ensures
      var usd := ConvertCurrency(amount, from, "USD", rates, file).value;
      ConvertCurrency(usd, "USD", to, rates, file) == ConvertCurrency(amount, from, to, rates, file)
  {
    var table := TableFor(rates, file).value;
    var rf := table[Upper(Strip(from))];
    UsdIsNormal();
    ScaledBack(amount, rf, 1.0);
    ScaledThroughOne(amount, rf, table[Upper(Strip(to))]);
  }
}
