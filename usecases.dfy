/** Registration, login and rate look-ups of the core
    (valutatrade_hub/core/usecases.py). */
module Usecases {
  import opened Text
  import opened Results
  import Storage
  import Models
  import Utils

  /** What the use cases raise. */
  datatype UsecaseError =
    | UserAlreadyExists(username: string)
    | UserNotFound(username: string)
    | WrongPassword
    | Model(modelError: Models.ModelError)
    | Util(utilsError: Utils.UtilsError)
  {
    function Message(): string
    {
      match this
      case UserAlreadyExists(username) => "Пользователь '" + username + "' уже существует"
      case UserNotFound(username) => "Пользователь '" + username + "' не найден"
      case WrongPassword => "Неверный пароль"
      case Model(e) => e.Message()
      case Util(e) => e.Message()
    }
  }

  /** A record of users.json. */
  datatype UserRecord = UserRecord(
    userId: int, username: string, hashedPassword: string, salt: string, registrationDate: string)

  /** A record of portfolios.json; registration only ever writes empty wallets. */
  datatype PortfolioRecord = PortfolioRecord(userId: int, wallets: map<string, real>)

  // ---------------------------------------------------------------------------
  // Specification functions over users.json
  // ---------------------------------------------------------------------------

  /** Some record carries exactly this username. */
  predicate Taken(users: seq<UserRecord>, username: string)
  {
    exists i :: 0 <= i < |users| && users[i].username == username
  }

  /** `max((u["user_id"] for u in users_data), default=0)`. */
  function MaxId(users: seq<UserRecord>): (m: int)
    ensures |users| == 0 ==> m == 0
    ensures forall i :: 0 <= i < |users| ==> users[i].userId <= m
    ensures |users| > 0 ==> exists i :: 0 <= i < |users| && users[i].userId == m
  {
    if |users| == 0 then 0
    else if |users| == 1 then users[0].userId
    else
      var m := MaxId(users[..|users| - 1]);
      var last := users[|users| - 1].userId;
      if last > m then last else m
  }

  /** The id a registration allocates: larger than every existing id. */
  function NewId(users: seq<UserRecord>): (id: int)
    ensures forall i :: 0 <= i < |users| ==> users[i].userId < id
    ensures |users| == 0 ==> id == 1
  {
    MaxId(users) + 1
  }

  /** The position of the first record with this username. */
  function FirstMatch(users: seq<UserRecord>, username: string): (r: Option<nat>)
    ensures r.Some? ==> r.value < |users| && users[r.value].username == username
    ensures r.Some? ==> forall j :: 0 <= j < r.value ==> users[j].username != username
    ensures r.None? <==> !Taken(users, username)
  {
    if |users| == 0 then None
    else if users[0].username == username then Some(0)
    else
      match FirstMatch(users[1..], username)
      case None =>
        assert forall j :: 1 <= j < |users| ==> users[j] == users[1..][j - 1];
        None
      case Some(k) =>
        assert forall j :: 1 <= j <= k + 1 ==> users[j] == users[1..][j - 1];
        Some(k + 1)
  }

  /** Usernames in users.json are pairwise distinct. */
  predicate UniqueNames(users: seq<UserRecord>)
  {
    forall i, j :: 0 <= i < j < |users| ==> users[i].username != users[j].username
  }

  /** The record `register_user` appends, or what it raises, as written: the
      uniqueness check compares the argument as given with the stored names,
      which are stripped. */
  function RegisterRecord(users: seq<UserRecord>, username: string, password: string,
                          now: string, salt: string, hash: string -> string): (r: Result<UserRecord, UsecaseError>)
    ensures r.Ok? <==> !Taken(users, username) && |password| >= Models.MinPasswordLength && NotBlank(username)
    ensures Taken(users, username) ==> r == Err(UserAlreadyExists(username))
    ensures r.Ok? ==> Trimmed(r.value.username) && r.value.salt == salt && r.value.registrationDate == now
    ensures r.Ok? ==> forall i :: 0 <= i < |users| ==> users[i].userId < r.value.userId
  {
    BlankIffStripEmpty(username);
    if Taken(users, username) then Err(UserAlreadyExists(username))
    else if |password| < Models.MinPasswordLength then Err(Model(Models.ShortPassword))
    else if !NotBlank(username) then Err(Model(Models.EmptyUsername))
    else Ok(UserRecord(NewId(users), Strip(username), hash(password + salt), salt, now))
  }

  /** A trimmed name with one leading space strips back to the name, is not
      blank, and differs from the name. */
  lemma PaddedStripsBack(name: string)
    requires Trimmed(name)
    ensures Strip([' '] + name) == name && NotBlank([' '] + name) && [' '] + name != name
  {
    var padded := [' '] + name;
    assert padded[1..] == name;
    assert StripLeft(padded) == StripLeft(name) == name;
    StripTrimmed(name);
    assert !IsSpace(padded[1]);
    assert |padded| != |name|;
  }

  /** The check as written lets a padded name through: with `name` stored,
      registering a space followed by `name` appends a second `name`. */
  lemma RegisterDuplicatesPaddedName(stored: UserRecord, name: string, password: string,
                                     now: string, salt: string, hash: string -> string)
    requires stored.username == name && Trimmed(name)
    requires |password| >= Models.MinPasswordLength
    ensures UniqueNames([stored])
    ensures RegisterRecord([stored], [' '] + name, password, now, salt, hash).Ok?
    ensures !UniqueNames([stored] + [RegisterRecord([stored], [' '] + name, password, now, salt, hash).value])
  {
    var users := [stored];
    var padded := [' '] + name;
    PaddedStripsBack(name);
    assert !Taken(users, padded);
    var r := RegisterRecord(users, padded, password, now, salt, hash);
    assert r.Ok? && r.value.username == name;
    var after := users + [r.value];
    assert after[0].username == after[1].username;
  }

  /** The check as evidently intended: the stripped name, the one that is
      stored, must not be taken. */
  function RegisterRecordStripped(users: seq<UserRecord>, username: string, password: string,
                                  now: string, salt: string, hash: string -> string): (r: Result<UserRecord, UsecaseError>)
    ensures r.Ok? <==> !Taken(users, Strip(username)) && |password| >= Models.MinPasswordLength && NotBlank(username)
    ensures r.Ok? ==> r.value.username == Strip(username) && Trimmed(r.value.username)
  {
    BlankIffStripEmpty(username);
    if Taken(users, Strip(username)) then Err(UserAlreadyExists(username))
    else if |password| < Models.MinPasswordLength then Err(Model(Models.ShortPassword))
    else if !NotBlank(username) then Err(Model(Models.EmptyUsername))
    else Ok(UserRecord(NewId(users), Strip(username), hash(password + salt), salt, now))
  }

  /** With the intended check, registration keeps usernames unique. */
  lemma RegisterStrippedKeepsUnique(users: seq<UserRecord>, username: string, password: string,
                                    now: string, salt: string, hash: string -> string)
    requires UniqueNames(users)
    requires RegisterRecordStripped(users, username, password, now, salt, hash).Ok?
    ensures UniqueNames(users + [RegisterRecordStripped(users, username, password, now, salt, hash).value])
  {
    var after := users + [RegisterRecordStripped(users, username, password, now, salt, hash).value];
    forall i, j | 0 <= i < j < |after|
      ensures after[i].username != after[j].username
    {
      if j == |users| {
        assert after[i] == users[i];
      }
    }
  }

  // ---------------------------------------------------------------------------
  // users.json and portfolios.json
  // ---------------------------------------------------------------------------

  /** The two JSON lists the use cases load, append to and save. The hash of
      a salted password is the abstract function `hash`. */
  class UserStore {
    var users: seq<UserRecord>
    var portfolios: seq<PortfolioRecord>
    const hash: string -> string

    constructor(users: seq<UserRecord>, portfolios: seq<PortfolioRecord>, hash: string -> string)
      ensures this.users == users && this.portfolios == portfolios && this.hash == hash
    {
      this.users := users;
      this.portfolios := portfolios;
      this.hash := hash;
    }

    /** `register_user`: a username already present is refused before the
        password is looked at; then the `User` checks run; on success one
        user record and one portfolio with empty wallets are appended, both
        under the new id. The salt and the clock reading are parameters. */
    method RegisterUser(username: string, password: string, now: string, salt: string)
      returns (r: Result<Models.User, UsecaseError>)
      modifies this
      ensures r.Ok? <==> RegisterRecord(old(users), username, password, now, salt, hash).Ok?
      ensures r.Err? ==> r.error == RegisterRecord(old(users), username, password, now, salt, hash).error
      ensures r.Err? ==> users == old(users) && portfolios == old(portfolios)
      ensures r.Ok? ==> users == old(users) + [RegisterRecord(old(users), username, password, now, salt, hash).value]
      ensures r.Ok? ==> portfolios == old(portfolios) + [PortfolioRecord(NewId(old(users)), map[])]
      ensures r.Ok? ==> fresh(r.value) && r.value.userId == NewId(old(users)) && r.value.username == Strip(username)
    {
      ghost var spec := RegisterRecord(users, username, password, now, salt, hash);
      var taken := FindUsername(username);
      if taken {
        assert spec == Err(UserAlreadyExists(username));
        return Err(UserAlreadyExists(username));
      }
      var maxId := MaxUserId();
      var made := Models.User.New(maxId + 1, username, password, None, now, salt, hash);
      if made.Err? {
        assert spec == Err(Model(made.error));
        return Err(Model(made.error));
      }
      var user := made.value;
      var record := UserRecord(user.userId, user.username, user.hashedPassword, user.salt, user.registrationDate);
      assert record == UserRecord(NewId(users), Strip(username), hash(password + salt), salt, now);
      assert spec == Ok(record);
      users := users + [record];
      CreatePortfolio(user.userId);
      return Ok(user);
    }

    /** The uniqueness scan of `register_user`: stops at the first record
        with this exact username. */
    method FindUsername(username: string) returns (taken: bool)
      ensures taken <==> Taken(users, username)
    {
      var i := 0;
      while i < |users|
        invariant 0 <= i <= |users|
        invariant forall j :: 0 <= j < i ==> users[j].username != username
      {
        if users[i].username == username {
          return true;
        }
        i := i + 1;
      }
      return false;
    }

    /** The id scan of `register_user`: the largest id, 0 for no users. */
    method MaxUserId() returns (maxId: int)
      ensures maxId == MaxId(users)
    {
      maxId := 0;
      var k := 0;
      while k < |users|
        invariant 0 <= k <= |users|
        invariant maxId == MaxId(users[..k])
      {
        assert users[..k + 1][..k] == users[..k];
        if k == 0 || users[k].userId > maxId {
          maxId := users[k].userId;
        }
        k := k + 1;
      }
      assert users[..k] == users;
    }

    /** `_create_portfolio`: one portfolio with no wallets appended. */
    method CreatePortfolio(userId: int)
      modifies this
      ensures portfolios == old(portfolios) + [PortfolioRecord(userId, map[])]
      ensures users == old(users)
    {
      portfolios := portfolios + [PortfolioRecord(userId, map[])];
    }

    /** `login_user`: the first record with this exact username decides; its
        salt and hash are checked against the password. No match is "not
        found", a failed check on the first match is "wrong password" even if
        a later record would match. */
    method LoginUser(username: string, password: string) returns (r: Result<Models.User, UsecaseError>)
      ensures FirstMatch(users, username).None? ==> r == Err(UserNotFound(username))
      ensures FirstMatch(users, username).Some? ==>
        var u := users[FirstMatch(users, username).value];
        (r.Ok? <==> NotBlank(u.username) && u.hashedPassword == hash(password + u.salt))
        && (NotBlank(u.username) && u.hashedPassword != hash(password + u.salt) ==> r == Err(WrongPassword))
        && (!NotBlank(u.username) ==> r == Err(Model(Models.EmptyUsername)))
      ensures r.Ok? ==>
        var u := users[FirstMatch(users, username).value];
        fresh(r.value) && r.value.userId == u.userId && r.value.username == Strip(u.username)
        && r.value.salt == u.salt && r.value.hashedPassword == u.hashedPassword
        && r.value.registrationDate == u.registrationDate
    {
      var i := 0;
      while i < |users|
        invariant 0 <= i <= |users|
        invariant forall j :: 0 <= j < i ==> users[j].username != username
      {
        if users[i].username == username {
          var u := users[i];
          var restored := RestoreUser(u);
          if restored.Err? {
            return Err(Model(restored.error));
          }
          var user := restored.value;
          var ok := user.VerifyPassword(password);
          if ok {
            return Ok(user);
          }
          return Err(WrongPassword);
        }
        i := i + 1;
      }
      return Err(UserNotFound(username));
    }

    /** `_restore_user`: a `User` built with a placeholder password whose salt
        and hash are then overwritten with the stored ones. */
    method RestoreUser(u: UserRecord) returns (r: Result<Models.User, Models.ModelError>)
      ensures r.Ok? <==> NotBlank(u.username)
      ensures r.Err? ==> r.error == Models.EmptyUsername
      ensures r.Ok? ==> fresh(r.value) && r.value.userId == u.userId && r.value.username == Strip(u.username)
      ensures r.Ok? ==> r.value.salt == u.salt && r.value.hashedPassword == u.hashedPassword
      ensures r.Ok? ==> r.value.registrationDate == u.registrationDate && r.value.hash == hash
    {
      var made := Models.User.New(u.userId, u.username, "temp", Some(u.registrationDate), u.registrationDate, u.salt, hash);
      if made.Err? {
        return Err(made.error);
      }
      var user := made.value;
      user.salt := u.salt;
      user.hashedPassword := u.hashedPassword;
      return Ok(user);
    }
  }

  // ---------------------------------------------------------------------------
  // Rates
  // ---------------------------------------------------------------------------

  /** What `get_exchange_rate` returns. */
  datatype RateInfo = RateInfo(currency: string, rateToUsd: real, baseCurrency: string)

  /** `get_exchange_rate`: the normalised code, its rate and the base "USD";
      it fails exactly when `get_rate` fails on the argument. */
  function GetExchangeRate(code: string, file: Storage.JsonFile<Storage.RatesDoc>): (r: Result<RateInfo, UsecaseError>)
    ensures r.Ok? <==> Utils.GetRate(code, file).Ok?
    ensures r.Ok? ==> r.value == RateInfo(Upper(Strip(code)), Utils.GetRate(code, file).value, "USD")
    ensures r.Err? ==> r == Err(Util(Utils.GetRate(code, file).error))
  {
    match Utils.ValidateCurrencyCode(code)
    case Err(e) => Err(Util(e))
    case Ok(normal) =>
      Utils.ValidateCurrencyCodeIdempotent(code);
      match Utils.GetRate(normal, file)
      case Err(e) => Err(Util(e))
      case Ok(rate) => Ok(RateInfo(normal, rate, "USD"))
  }

  /** What `get_exchange_rate_between` returns (the formatted description
      is not modelled). */
  datatype Between = Between(fromCurrency: string, toCurrency: string, rate: real, updatedAt: Option<string>, baseCurrency: string)

  /** `get_exchange_rate_between`: both codes normalised, the table of
      `get_rates_info()`, a missing FROM reported before a missing TO, and
      the rate FROM/TO, dated and based as that table is. */
  function GetExchangeRateBetween(from: string, to: string, file: Storage.JsonFile<Storage.RatesDoc>): (r: Result<Between, UsecaseError>)
    ensures r.Ok? ==> NotBlank(from) && NotBlank(to) && Utils.GetRates(file).Ok?
    ensures r.Ok? ==>
      var table := Utils.GetRates(file).value;
      var f := Upper(Strip(from));
      var t := Upper(Strip(to));
      f in table && t in table && table[t] != 0.0
      && r.value == Between(f, t, Utils.Ratio(table[f], table[t]),
                            Utils.GetRatesInfo(file).value.updatedAt, Utils.GetRatesInfo(file).value.baseCurrency)
    ensures r.Ok? && file.Present? ==> r.value.baseCurrency == file.doc.baseCurrency.GetOr("USD")
    ensures NotBlank(from) && NotBlank(to) && Utils.GetRates(file).Ok? ==>
      var table := Utils.GetRates(file).value;
      var f := Upper(Strip(from));
      var t := Upper(Strip(to));
      (f !in table ==> r == Err(Util(Utils.ValueError(Utils.RateMissing(f)))))
      && (f in table && t !in table ==> r == Err(Util(Utils.ValueError(Utils.RateMissing(t)))))
      && (f in table && t in table && table[t] != 0.0 ==> r.Ok?)
      && (f in table && t in table && table[t] == 0.0 ==> r == Err(Util(Utils.ZeroDivisionError)))
  {
    var f :- ValidateCode(from);
    var t :- ValidateCode(to);
    match Utils.GetRatesInfo(file)
    case Err(e) => Err(Util(e))
    case Ok(info) =>
      var rates := info.rates;
      if f !in rates then Err(Util(Utils.ValueError(Utils.RateMissing(f))))
      else if t !in rates then Err(Util(Utils.ValueError(Utils.RateMissing(t))))
      else if rates[t] == 0.0 then Err(Util(Utils.ZeroDivisionError))
      else Ok(Between(f, t, Utils.Ratio(rates[f], rates[t]), info.updatedAt, info.baseCurrency))
  }

  /** `validate_currency_code` with its error lifted. */
  function ValidateCode(code: string): (r: Result<string, UsecaseError>)
    ensures r.Ok? <==> Utils.ValidateCurrencyCode(code).Ok?
    ensures r.Ok? ==> r.value == Utils.ValidateCurrencyCode(code).value
  {
    match Utils.ValidateCurrencyCode(code)
    case Err(e) => Err(Util(e))
    case Ok(c) => Ok(c)
  }

  /** The quoted exchange rate agrees with `convert_currency` on the same
      rate table: it is what converting one unit yields. */
  lemma BetweenAgreesWithConvert(from: string, to: string, file: Storage.JsonFile<Storage.RatesDoc>)
    requires GetExchangeRateBetween(from, to, file).Ok?
    ensures Utils.ConvertCurrency(1.0, from, to, None, file) == Ok(GetExchangeRateBetween(from, to, file).value.rate)
  {
    var table := Utils.GetRates(file).value;
    var f := Upper(Strip(from));
    var t := Upper(Strip(to));
    assert f in table && t in table && table[t] != 0.0;
    assert Utils.TableFor(None, file) == Utils.GetRates(file);
    Utils.ScaledByRatio(1.0, table[f], table[t], Utils.Ratio(table[f], table[t]));
  }
}
