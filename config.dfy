/** `ParserConfig` of the parser service
    (valutatrade_hub/parser_service/config.py): the settings record with
    its defaults, the two provider URLs and `validate_config`. The
    environment and the file system are parameters. */
module ParserConfig {
  import opened Text
  import opened Results
  import PyDict
  import PairKeys

  /** The configuration fields. `CRYPTO_ID_MAP` keeps its insertion order,
      because `get_coingecko_url` joins its values in that order. */
  datatype Config = Config(
    exchangeRateApiKey: string,
    coinGeckoApiKey: string,
    coinGeckoUrl: string,
    exchangeRateApiUrl: string,
    baseCurrency: string,
    fiatCurrencies: seq<string>,
    cryptoCurrencies: seq<string>,
    cryptoIdMap: PyDict.Dict<string>,
    ratesFilePath: string,
    historyFilePath: string,
    requestTimeout: int,
    maxRetries: int,
    retryDelay: int)

  /** `os.getenv(name, default)`. */
  function Getenv(env: map<string, string>, name: string, default: string): string
  {
    if name in env then env[name] else default
  }

  /** Placeholders for the built-in fallback keys: the model only relies
      on their being non-empty, so the real credentials are not copied. */
  const DefaultExchangeRateKey := "exchangerate-fallback-key"
  const DefaultCoinGeckoKey := "coingecko-fallback-key"
  const DefaultIdMap: PyDict.Dict<string> := [("BTC", "bitcoin"), ("ETH", "ethereum"), ("SOL", "solana")]

  /** The `data` directory three levels above config.py. */
  function DataDir(projectRoot: string): string
  {
    projectRoot + "/data"
  }

  /** `ParserConfig()`: the keys come from the environment (with built-in
      fallbacks), the data files sit in `data/` under the project root. */
  function DefaultConfig(env: map<string, string>, projectRoot: string): (c: Config)
    ensures c.exchangeRateApiKey == (if "EXCHANGERATE_API_KEY" in env then env["EXCHANGERATE_API_KEY"] else DefaultExchangeRateKey)
    ensures c.coinGeckoApiKey == (if "COINGECKO_API_KEY" in env then env["COINGECKO_API_KEY"] else DefaultCoinGeckoKey)
    ensures c.ratesFilePath == DataDir(projectRoot) + "/" + "rates.json"
    ensures c.historyFilePath == DataDir(projectRoot) + "/" + "exchange_rates.json"
  {
    Config(
      Getenv(env, "EXCHANGERATE_API_KEY", DefaultExchangeRateKey),
      Getenv(env, "COINGECKO_API_KEY", DefaultCoinGeckoKey),
      "https://api.coingecko.com/api/v3/simple/price",
      "https://v6.exchangerate-api.com/v6",
      "USD",
      ["EUR", "GBP", "RUB", "CNY", "JPY"],
      ["BTC", "ETH", "SOL"],
      DefaultIdMap,
      DataDir(projectRoot) + "/" + "rates.json",
      DataDir(projectRoot) + "/" + "exchange_rates.json",
      10, 3, 2)
  }

  /** In the defaults the CoinGecko id map has exactly the crypto codes as
      keys, in the same order and without repetition. */
  lemma DefaultIdMapMatchesCrypto(env: map<string, string>, projectRoot: string)
    ensures var c := DefaultConfig(env, projectRoot);
      PyDict.Keys(c.cryptoIdMap) == c.cryptoCurrencies && PyDict.DistinctKeys(c.cryptoIdMap)
  {
    var c := DefaultConfig(env, projectRoot);
    assert PyDict.Keys(c.cryptoIdMap) == ["BTC", "ETH", "SOL"];
  }

  /** In the defaults no code is both fiat and crypto, and the base is in
      neither list. */
  lemma DefaultListsDisjoint(env: map<string, string>, projectRoot: string)
    ensures var c := DefaultConfig(env, projectRoot);
      (forall f, k :: f in c.fiatCurrencies && k in c.cryptoCurrencies ==> f != k)
      && c.baseCurrency !in c.fiatCurrencies && c.baseCurrency !in c.cryptoCurrencies
  {
  }

  /** Three capital letters make a valid currency code. */
  lemma ThreeCapitals(code: string)
    requires |code| == 3 && IsUpperLetter(code[0]) && IsUpperLetter(code[1]) && IsUpperLetter(code[2])
    ensures PairKeys.ValidateCurrencyCode(code)
  {
  }

  /** Every default code, and the base, is a valid currency code. */
  lemma DefaultCodesValid(env: map<string, string>, projectRoot: string)
    ensures var c := DefaultConfig(env, projectRoot);
      (forall code :: code in c.fiatCurrencies ==> PairKeys.ValidateCurrencyCode(code))
      && (forall code :: code in c.cryptoCurrencies ==> PairKeys.ValidateCurrencyCode(code))
      && PairKeys.ValidateCurrencyCode(c.baseCurrency)
  {
    var c := DefaultConfig(env, projectRoot);
    ThreeCapitals(c.baseCurrency);
    forall code | code in c.fiatCurrencies ensures PairKeys.ValidateCurrencyCode(code) {
      var i :| 0 <= i < 5 && c.fiatCurrencies[i] == code;
      ThreeCapitals(c.fiatCurrencies[i]);
    }
    forall code | code in c.cryptoCurrencies ensures PairKeys.ValidateCurrencyCode(code) {
      var i :| 0 <= i < 3 && c.cryptoCurrencies[i] == code;
      ThreeCapitals(c.cryptoCurrencies[i]);
    }
  }

  // ---------------------------------------------------------------------------
  // URLs
  // ---------------------------------------------------------------------------

  /** `get_exchangerate_url`. */
  function ExchangeRateUrl(c: Config): string
  {
    c.exchangeRateApiUrl + "/" + c.exchangeRateApiKey + "/latest/" + c.baseCurrency
  }

  /** The ExchangeRate URL is the endpoint followed by three path segments:
      the API key, "latest" and the base currency (when the key and the base
      contain no "/"). */
  lemma ExchangeRateUrlSegments(c: Config)
    requires '/' !in c.exchangeRateApiKey && '/' !in c.baseCurrency
    ensures Split(ExchangeRateUrl(c), '/')
      == Split(c.exchangeRateApiUrl, '/') + [c.exchangeRateApiKey, "latest", c.baseCurrency]
  {
    var url := c.exchangeRateApiUrl;
    var key := c.exchangeRateApiKey;
    var base := c.baseCurrency;
    assert ExchangeRateUrl(c) == url + ['/'] + (key + ['/'] + ("latest" + ['/'] + base));
    SplitAppend(url, '/', key + ['/'] + ("latest" + ['/'] + base));
    SplitCons(key, '/', "latest" + ['/'] + base);
    SplitTwo("latest", '/', base);
  }

  /** The ids of `CRYPTO_ID_MAP` joined by "," in map order. */
  function CryptoIds(c: Config): string
  {
    Join(PyDict.Values(c.cryptoIdMap), ",")
  }

  /** The three "&"-separated parts of the CoinGecko URL. */
  function CoinGeckoUrlParts(c: Config): seq<string>
  {
    [c.coinGeckoUrl + "?vs_currencies=" + Lower(c.baseCurrency),
     "ids=" + CryptoIds(c),
     "x_cg_demo_api_key=" + c.coinGeckoApiKey]
  }

  /** `get_coingecko_url`. */
  function CoinGeckoUrl(c: Config): string
  {
    Join(CoinGeckoUrlParts(c), "&")
  }

  /** The query string of the CoinGecko URL carries the lower-cased base, the
      ids in map order (recoverable by splitting on ","), and the key. */
  lemma CoinGeckoUrlQuery(c: Config)
    requires '&' !in c.coinGeckoUrl && '&' !in c.baseCurrency && '&' !in c.coinGeckoApiKey
    requires |c.cryptoIdMap| >= 1
    requires forall i :: 0 <= i < |c.cryptoIdMap| ==> '&' !in c.cryptoIdMap[i].1 && ',' !in c.cryptoIdMap[i].1
    ensures Split(CoinGeckoUrl(c), '&')
      == [c.coinGeckoUrl + "?vs_currencies=" + Lower(c.baseCurrency),
          "ids=" + CryptoIds(c),
          "x_cg_demo_api_key=" + c.coinGeckoApiKey]
    ensures Split(CryptoIds(c), ',') == PyDict.Values(c.cryptoIdMap)
  {
    var ids := PyDict.Values(c.cryptoIdMap);
    SplitJoin(ids, ',');
    NoCharInJoin(ids, ",", '&');
    var parts := CoinGeckoUrlParts(c);
    assert '&' !in Lower(c.baseCurrency);
    assert '&' !in parts[0] && '&' !in parts[1] && '&' !in parts[2];
    SplitJoin(parts, '&');
  }

  /** A character absent from the pieces and the separator is absent from the join. */
  lemma {:induction false} NoCharInJoin(parts: seq<string>, sep: string, ch: char)
    requires ch !in sep
    requires forall i :: 0 <= i < |parts| ==> ch !in parts[i]
    ensures ch !in Join(parts, sep)
    decreases |parts|
  {
    if |parts| > 1 {
      NoCharInJoin(parts[1..], sep, ch);
    }
  }

  /** With the defaults, the CoinGecko query asks for "usd". */
  lemma DefaultVsCurrency(env: map<string, string>, projectRoot: string)
    ensures Lower(DefaultConfig(env, projectRoot).baseCurrency) == "usd"
  {
    var u := Lower("USD");
    assert u[0] == 'u' && u[1] == 's' && u[2] == 'd';
  }

  /** With the defaults, the CoinGecko query lists the ids bitcoin,
      ethereum and solana, in that order. */
  lemma DefaultCryptoIds(env: map<string, string>, projectRoot: string)
    ensures Split(CryptoIds(DefaultConfig(env, projectRoot)), ',') == ["bitcoin", "ethereum", "solana"]
  {
    var ids := ["bitcoin", "ethereum", "solana"];
    assert PyDict.Values(DefaultIdMap) == ids;
    SplitJoin(ids, ',');
  }

  // ---------------------------------------------------------------------------
  // validate_config
  // ---------------------------------------------------------------------------

  /** `Path(p).parent` for a path written with "/" separators and no trailing
      "/": everything before the last "/", "/" for a top-level entry, "." for
      a bare name. */
  function Parent(path: string): (p: string)
    ensures '/' !in path ==> p == "."
    ensures |p| <= |path| || p == "."
  {
    if |path| == 0 then "."
    else if path[|path| - 1] == '/' then
      (if |path| == 1 then "/" else path[..|path| - 1])
    else Parent(path[..|path| - 1])
  }

  /** The parent of `dir + "/" + name` is `dir` when `name` has no "/" and
      `dir` is not empty. */
  lemma {:induction false} ParentOfChild(dir: string, name: string)
    requires '/' !in name && |dir| >= 1
    ensures Parent(dir + "/" + name) == dir
    decreases |name|
  {
    var path := dir + "/" + name;
    if |name| == 0 {
      assert path[..|path| - 1] == dir;
    } else {
      assert path[..|path| - 1] == dir + "/" + name[..|name| - 1];
      ParentOfChild(dir, name[..|name| - 1]);
    }
  }

  // The `ValueError` messages of `validate_config`.
  const MissingExchangeRateKey := "EXCHANGERATE_API_KEY не найден. Установите переменную окружения EXCHANGERATE_API_KEY"
  const MissingCoinGeckoKey := "COINGECKO_API_KEY не найден. Установите переменную окружения COINGECKO_API_KEY"
  const NoCurrencies := "Не указаны валюты для отслеживания. Добавьте валюты в FIAT_CURRENCIES или CRYPTO_CURRENCIES"

  /** `validate_config`: the first failing guard raises its `ValueError`;
      `existingDirs` stands for the directories that exist. */
  function ValidateConfig(c: Config, existingDirs: set<string>): (r: Result<bool, string>)
    ensures r.Ok? <==>
      c.exchangeRateApiKey != "" && c.coinGeckoApiKey != ""
      && (c.fiatCurrencies != [] || c.cryptoCurrencies != [])
      && Parent(c.ratesFilePath) in existingDirs && Parent(c.historyFilePath) in existingDirs
    ensures r.Ok? ==> r.value
    ensures c.exchangeRateApiKey == "" ==>
      r == Err(MissingExchangeRateKey)
    ensures c.exchangeRateApiKey != "" && c.coinGeckoApiKey == "" ==>
      r == Err(MissingCoinGeckoKey)
    ensures c.exchangeRateApiKey != "" && c.coinGeckoApiKey != "" && c.fiatCurrencies == [] && c.cryptoCurrencies == [] ==>
      r == Err(NoCurrencies)
  {
    if c.exchangeRateApiKey == "" then
      Err(MissingExchangeRateKey)
    else if c.coinGeckoApiKey == "" then
      Err(MissingCoinGeckoKey)
    else if c.fiatCurrencies == [] && c.cryptoCurrencies == [] then
      Err(NoCurrencies)
    else if Parent(c.ratesFilePath) !in existingDirs then
      Err("Директория для rates.json не существует: " + Parent(c.ratesFilePath))
    else if Parent(c.historyFilePath) !in existingDirs then
      Err("Директория для exchange_rates.json не существует: " + Parent(c.historyFilePath))
    else Ok(true)
  }

  /** The default configuration is valid exactly when neither key is set to
      the empty string and the data directory exists. */
  lemma DefaultsValidate(env: map<string, string>, projectRoot: string, existingDirs: set<string>)
    requires |projectRoot| >= 1
    ensures ValidateConfig(DefaultConfig(env, projectRoot), existingDirs).Ok? <==>
      Getenv(env, "EXCHANGERATE_API_KEY", DefaultExchangeRateKey) != ""
      && Getenv(env, "COINGECKO_API_KEY", DefaultCoinGeckoKey) != ""
      && DataDir(projectRoot) in existingDirs
  {
    ParentOfChild(DataDir(projectRoot), "rates.json");
    ParentOfChild(DataDir(projectRoot), "exchange_rates.json");
  }
}
