/** Currencies and the currency registry (valutatrade_hub/core/currencies.py). */
module Currencies {
  import opened Text
  import opened Results
  import PairKeys

  /** What the currency constructors and `get_currency` raise: an
      `InvalidCurrencyCodeError`, one of the plain `ValueError`s, or a
      `CurrencyNotFoundError`. */
  datatype CurrencyError =
    | InvalidCurrencyCode(code: string, reason: string)
    | EmptyName
    | EmptyCountry
    | EmptyAlgorithm
    | NegativeMarketCap
    | CurrencyNotFound(code: string)
  {
    function Message(): string
    {
      match this
      case InvalidCurrencyCode(code, reason) => "Невалидный код валюты '" + code + "': " + reason
      case EmptyName => "Имя валюты не может быть пустым"
      case EmptyCountry => "Страна эмиссии не может быть пустой"
      case EmptyAlgorithm => "Алгоритм не может быть пустым"
      case NegativeMarketCap => "Рыночная капитализация не может быть отрицательной"
      case CurrencyNotFound(code) => "Неизвестная валюта '" + code + "'"
    }
  }

  const EmptyCodeReason := "код не может быть пустым"
  const LengthReason := "длина кода должна быть 2-5 символов"
  const SpaceReason := "код не может содержать пробелы"
  const AlnumReason := "код должен содержать только буквы и цифры"

  // ---------------------------------------------------------------------------
  // Code validation
  // ---------------------------------------------------------------------------

  /** Upper-casing neither creates nor removes a space or an alphanumeric character. */
  lemma UpperKeepsClasses(s: string)
    ensures (' ' in Upper(s)) <==> (' ' in s)
    ensures IsAlnum(Upper(s)) <==> IsAlnum(s)
  {
    var u := Upper(s);
    if ' ' in u {
      var i :| 0 <= i < |u| && u[i] == ' ';
      assert s[i] == ' ';
    }
    if ' ' in s {
      var i :| 0 <= i < |s| && s[i] == ' ';
      assert u[i] == ' ';
    }
  }

  /** `Currency._validate_code`: the checks run in source order on the
      upper-cased code and the first that fails names the reason. A code
      passes exactly when it has two to five characters, all letters or
      digits; the error always carries the code as given. */
  function ValidateCode(code: string): (r: Result<(), CurrencyError>)
    ensures r.Ok? <==> 2 <= |code| <= 5 && IsAlnum(code)
    ensures r.Err? ==> r.error.InvalidCurrencyCode? && r.error.code == code
    ensures |code| == 0 ==> r.Err? && r.error.reason == EmptyCodeReason
    ensures |code| == 1 || |code| > 5 ==> r.Err? && r.error.reason == LengthReason
    ensures 2 <= |code| <= 5 && ' ' in code ==> r.Err? && r.error.reason == SpaceReason
    ensures 2 <= |code| <= 5 && ' ' !in code && !IsAlnum(code) ==>
      r.Err? && r.error.reason == AlnumReason
  {
    UpperKeepsClasses(code);
    if code == "" then Err(InvalidCurrencyCode(code, EmptyCodeReason))
    else
      var upper := Upper(code);
      if |upper| < 2 || |upper| > 5 then Err(InvalidCurrencyCode(code, LengthReason))
      else if ' ' in upper then Err(InvalidCurrencyCode(code, SpaceReason))
      else if !IsAlnum(upper) then Err(InvalidCurrencyCode(code, AlnumReason))
      else Ok(())
  }

  /** Every code the rate store accepts (two to five capitals) is a currency
      code, already in upper case. */
  lemma StoreCodesAreCurrencyCodes(code: string)
    requires PairKeys.ValidateCurrencyCode(code)
    ensures ValidateCode(code).Ok? && Upper(code) == code
  {
  }

  /** The converse fails: a currency code may hold digits, which the rate
      store rejects. */
  lemma CurrencyCodesMayHoldDigits()
    ensures ValidateCode("B2").Ok? && !PairKeys.ValidateCurrencyCode("B2")
  {
    assert !IsUpperLetter("B2"[1]);
  }

  // ---------------------------------------------------------------------------
  // Currency objects
  // ---------------------------------------------------------------------------

  /** A `FiatCurrency` or a `CryptoCurrency`; nothing changes their
      attributes after construction. */
  datatype Currency =
    | Fiat(name: string, code: string, issuingCountry: string)
    | Crypto(name: string, code: string, algorithm: string, marketCap: real)

  /** The invariants the class documentation states for every currency:
      the name and the country or algorithm are trimmed and non-empty, the
      code is a valid code in upper case, and a market cap is not negative. */
  predicate WellFormed(c: Currency)
  {
    Trimmed(c.name) && ValidateCode(c.code).Ok? && Upper(c.code) == c.code
    && match c
       case Fiat(_, _, country) => Trimmed(country)
       case Crypto(_, _, algorithm, cap) => Trimmed(algorithm) && cap >= 0.0
  }

  /** `Currency.__init__`: the name is checked first, then the code; the
      result is the stripped name and the upper-cased code. */
  function NewBase(name: string, code: string): (r: Result<(string, string), CurrencyError>)
    ensures r.Ok? <==> NotBlank(name) && ValidateCode(code).Ok?
    ensures !NotBlank(name) ==> r == Err(EmptyName)
    ensures NotBlank(name) && ValidateCode(code).Err? ==> r == Err(ValidateCode(code).error)
    ensures r.Ok? ==> r.value.0 == Strip(name) && Trimmed(r.value.0)
    ensures r.Ok? ==> r.value.1 == Upper(code) && ValidateCode(r.value.1).Ok?
  {
    BlankIffStripEmpty(name);
    UpperKeepsClasses(code);
    if name == "" || Strip(name) == "" then Err(EmptyName)
    else
      var _ :- ValidateCode(code);
      Ok((Strip(name), Upper(code)))
  }

  /** `FiatCurrency(name, code, issuing_country)`. */
  function NewFiat(name: string, code: string, country: string): (r: Result<Currency, CurrencyError>)
    ensures r.Ok? <==> NotBlank(name) && ValidateCode(code).Ok? && NotBlank(country)
    ensures NewBase(name, code).Err? ==> r == Err(NewBase(name, code).error)
    ensures NewBase(name, code).Ok? && !NotBlank(country) ==> r == Err(EmptyCountry)
    ensures r.Ok? ==> r.value == Fiat(Strip(name), Upper(code), Strip(country))
    ensures r.Ok? ==> WellFormed(r.value)
  {
    BlankIffStripEmpty(country);
    UpperIdempotent(code);
    var (n, c) :- NewBase(name, code);
    if country == "" || Strip(country) == "" then Err(EmptyCountry)
    else Ok(Fiat(n, c, Strip(country)))
  }

  /** `CryptoCurrency(name, code, algorithm, market_cap)`: after the base
      checks, the algorithm and then the market cap. */
  function NewCrypto(name: string, code: string, algorithm: string, marketCap: real): (r: Result<Currency, CurrencyError>)
    ensures r.Ok? <==> NotBlank(name) && ValidateCode(code).Ok? && NotBlank(algorithm) && marketCap >= 0.0
    ensures NewBase(name, code).Err? ==> r == Err(NewBase(name, code).error)
    ensures NewBase(name, code).Ok? && !NotBlank(algorithm) ==> r == Err(EmptyAlgorithm)
    ensures NewBase(name, code).Ok? && NotBlank(algorithm) && marketCap < 0.0 ==> r == Err(NegativeMarketCap)
    ensures r.Ok? ==> r.value == Crypto(Strip(name), Upper(code), Strip(algorithm), marketCap)
    ensures r.Ok? ==> WellFormed(r.value)
  {
    BlankIffStripEmpty(algorithm);
    UpperIdempotent(code);
    var (n, c) :- NewBase(name, code);
    if algorithm == "" || Strip(algorithm) == "" then Err(EmptyAlgorithm)
    else if marketCap < 0.0 then Err(NegativeMarketCap)
    else Ok(Crypto(n, c, Strip(algorithm), marketCap))
  }

  // ---------------------------------------------------------------------------
  // The registry
  // ---------------------------------------------------------------------------

  /** `_CURRENCY_REGISTRY`: code -> currency. */
  type Entries = map<string, Currency>

  /** `register_currency(c)` as a value: the entry under `c.code` is `c`, and
      every other entry is kept. */
  function WithCurrency(entries: Entries, c: Currency): (r: Entries)
    ensures r.Keys == entries.Keys + {c.code}
    ensures r[c.code] == c
    ensures forall k :: k in entries && k != c.code ==> r[k] == entries[k]
  {
    entries[c.code := c]
  }

  /** `get_currency(code)`: the entry under the upper-cased code, or
      `CurrencyNotFoundError` naming the upper-cased code. */
  function Lookup(entries: Entries, code: string): (r: Result<Currency, CurrencyError>)
    ensures r.Ok? <==> Upper(code) in entries
    ensures r.Err? ==> r.error.Message() == "Неизвестная валюта '" + Upper(code) + "'"
  {
    var key := Upper(code);
    if key !in entries then Err(CurrencyNotFound(key)) else Ok(entries[key])
  }

  /** `is_currency_registered(code)`. */
  predicate IsRegistered(entries: Entries, code: string)
  {
    Upper(code) in entries
  }

  /** `is_currency_registered` answers whether `get_currency` would succeed,
      and does not depend on the letter case of its argument. */
  lemma IsRegisteredIffFound(entries: Entries, code: string)
    ensures IsRegistered(entries, code) <==> Lookup(entries, code).Ok?
    ensures IsRegistered(entries, code) <==> IsRegistered(entries, Lower(code))
  {
    UpperOfLower(code);
  }

  /** Lower-casing first does not change the upper case. */
  lemma UpperOfLower(s: string)
    ensures Upper(Lower(s)) == Upper(s)
  {
  }

  /** After `register_currency(c)`, `get_currency` finds `c` under every
      spelling of its code whose upper case is the code; for a well-formed
      currency that includes the code itself and its lower case. */
  lemma RegisterThenGet(entries: Entries, c: Currency, code: string)
    requires Upper(code) == c.code
    ensures Lookup(WithCurrency(entries, c), code) == Ok(c)
  {
  }

  lemma WellFormedCodeAnyCase(entries: Entries, c: Currency)
    requires WellFormed(c)
    ensures Lookup(WithCurrency(entries, c), c.code) == Ok(c)
    ensures Lookup(WithCurrency(entries, c), Lower(c.code)) == Ok(c)
  {
    UpperOfLower(c.code);
  }

  /** Registering leaves every other code's lookup as it was. */
  lemma RegisterKeepsOthers(entries: Entries, c: Currency, code: string)
    requires Upper(code) != c.code
    ensures Lookup(WithCurrency(entries, c), code) == Lookup(entries, code)
  {
  }

  /** Registering a second currency under the same code replaces the first. */
  lemma ReRegisterReplaces(entries: Entries, c1: Currency, c2: Currency)
    requires c1.code == c2.code
    ensures WithCurrency(WithCurrency(entries, c1), c2) == WithCurrency(entries, c2)
    ensures Lookup(WithCurrency(WithCurrency(entries, c1), c2), c2.code) == Lookup(WithCurrency(entries, c2), c2.code)
  {
  }

  /** Every entry sits under its own code. */
  predicate Keyed(entries: Entries)
  {
    forall k :: k in entries ==> entries[k].code == k
  }

  /** Registering keeps the registry keyed, and in a keyed registry the
      currency `get_currency` returns carries the upper-cased argument as
      its code. */
  lemma RegisterKeepsKeyed(entries: Entries, c: Currency)
    requires Keyed(entries)
    ensures Keyed(WithCurrency(entries, c))
  {
  }

  lemma KeyedLookup(entries: Entries, code: string)
    requires Keyed(entries)
    ensures Lookup(entries, code).Ok? ==> Lookup(entries, code).value.code == Upper(code)
  {
  }

  /** Registering the currencies of a list one after another. */
  function WithAll(entries: Entries, cs: seq<Currency>): (r: Entries)
    ensures r.Keys == entries.Keys + set c | c in cs :: c.code
    decreases |cs|
  {
    if |cs| == 0 then entries
    else WithAll(WithCurrency(entries, cs[0]), cs[1..])
  }

  lemma {:induction false} WithAllKeepsKeyed(entries: Entries, cs: seq<Currency>)
    requires Keyed(entries)
    ensures Keyed(WithAll(entries, cs))
    decreases |cs|
  {
    if |cs| > 0 {
      RegisterKeepsKeyed(entries, cs[0]);
      WithAllKeepsKeyed(WithCurrency(entries, cs[0]), cs[1..]);
    }
  }

  // ---------------------------------------------------------------------------
  // The default currencies
  // ---------------------------------------------------------------------------

  /** The eight currencies `_init_default_currencies` registers, in order. */
  function Defaults(): (cs: seq<Currency>)
    ensures |cs| == 8
  {
    [ Fiat("US Dollar", "USD", "United States"),
      Fiat("Euro", "EUR", "Eurozone"),
      Fiat("British Pound", "GBP", "United Kingdom"),
      Fiat("Russian Ruble", "RUB", "Russia"),
      Fiat("Chinese Yuan", "CNY", "China"),
      Fiat("Japanese Yen", "JPY", "Japan"),
      Crypto("Bitcoin", "BTC", "SHA-256", 1120000000000.0),
      Crypto("Ethereum", "ETH", "Ethash", 450000000000.0) ]
  }

  /** Constructing from the attributes of a well-formed currency gives it
      back unchanged. */
  lemma FiatRoundTrip(c: Currency)
    requires c.Fiat? && WellFormed(c)
    ensures NewFiat(c.name, c.code, c.issuingCountry) == Ok(c)
  {
    StripTrimmed(c.name);
    StripTrimmed(c.issuingCountry);
  }

  lemma CryptoRoundTrip(c: Currency)
    requires c.Crypto? && WellFormed(c)
    ensures NewCrypto(c.name, c.code, c.algorithm, c.marketCap) == Ok(c)
  {
    StripTrimmed(c.name);
    StripTrimmed(c.algorithm);
  }

  /** Three capitals make a valid code in upper case. */
  lemma CapitalCode(code: string)
    requires |code| == 3 && IsUpperLetter(code[0]) && IsUpperLetter(code[1]) && IsUpperLetter(code[2])
    ensures ValidateCode(code).Ok? && Upper(code) == code
  {
    assert PairKeys.ValidateCurrencyCode(code);
    StoreCodesAreCurrencyCodes(code);
  }

  /** The default codes are valid and in upper case. */
  lemma DefaultCodes(i: nat)
    requires i < 8
    ensures ValidateCode(Defaults()[i].code).Ok? && Upper(Defaults()[i].code) == Defaults()[i].code
  {
    if i == 0 { CapitalCode("USD"); }
    else if i == 1 { CapitalCode("EUR"); }
    else if i == 2 { CapitalCode("GBP"); }
    else if i == 3 { CapitalCode("RUB"); }
    else if i == 4 { CapitalCode("CNY"); }
    else if i == 5 { CapitalCode("JPY"); }
    else if i == 6 { CapitalCode("BTC"); }
    else { CapitalCode("ETH"); }
  }

  /** Every default currency is well formed, so by the round trips above
      none of the constructor calls of `_init_default_currencies` raises and
      each builds exactly the listed currency. */
  lemma DefaultWellFormed(i: nat)
    requires i < 8
    ensures WellFormed(Defaults()[i])
  {
    DefaultCodes(i);
  }

  /** After import the registry holds exactly the eight default codes, each
      under its own code. */
  lemma DefaultRegistry()
    ensures WithAll(map[], Defaults()).Keys == {"USD", "EUR", "GBP", "RUB", "CNY", "JPY", "BTC", "ETH"}
  {
  }

  lemma DefaultRegistryKeyed()
    ensures Keyed(WithAll(map[], Defaults()))
  {
    WithAllKeepsKeyed(map[], Defaults());
  }

  /** The mutable `_CURRENCY_REGISTRY` of the module. */
  class Registry {
    var entries: Entries

    /** Importing the module: an empty registry, then the defaults. */
    constructor()
      ensures entries == WithAll(map[], Defaults())
    {
      entries := map[];
      new;
      InitDefaults();
    }

    /** `register_currency(currency)`. */
    method Register(c: Currency)
      modifies this
      ensures entries == WithCurrency(old(entries), c)
    {
      entries := entries[c.code := c];
    }

    /** `_init_default_currencies()`. */
    method InitDefaults()
      modifies this
      ensures entries == WithAll(old(entries), Defaults())
    {
      Register(Fiat("US Dollar", "USD", "United States"));
      Register(Fiat("Euro", "EUR", "Eurozone"));
      Register(Fiat("British Pound", "GBP", "United Kingdom"));
      Register(Fiat("Russian Ruble", "RUB", "Russia"));
      Register(Fiat("Chinese Yuan", "CNY", "China"));
      Register(Fiat("Japanese Yen", "JPY", "Japan"));
      Register(Crypto("Bitcoin", "BTC", "SHA-256", 1120000000000.0));
      Register(Crypto("Ethereum", "ETH", "Ethash", 450000000000.0));
    }
  }
}
