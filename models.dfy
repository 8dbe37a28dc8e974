/** The `User` model (valutatrade_hub/core/models.py). */
module Models {
  import opened Text
  import opened Results

  /** The `ValueError`s raised by `User`. */
  datatype ModelError = ShortPassword | EmptyUsername
  {
    function Message(): string
    {
      match this
      case ShortPassword => "Пароль должен быть не короче 4 символов"
      case EmptyUsername => "Имя пользователя не может быть пустым"
    }
  }

  /** The smallest password length the model accepts. */
  const MinPasswordLength := 4

  /** What `get_user_info` returns: the public fields and nothing about the
      password. */
  datatype UserInfo = UserInfo(userId: int, username: string, registrationDate: string)

  /** With a fixed salt, appending the salt is injective, so an injective hash
      of the salted password tells passwords apart. */
  lemma {:induction false} SaltedInjective(hash: string -> string, p: string, q: string, salt: string)
    requires forall a, b :: hash(a) == hash(b) ==> a == b
    requires hash(p + salt) == hash(q + salt)
    ensures p == q
  {
    assert p + salt == q + salt;
    assert |p| == |q|;
    assert p == (p + salt)[..|p|];
    assert q == (q + salt)[..|q|];
  }

  /** A registered user. The SHA-256 digest of `password + salt` is the
      abstract function `hash`; the salt `secrets.token_hex` would draw and
      the clock reading of `datetime.now()` are passed in. */
  class User {
    const userId: int
    const registrationDate: string
    const hash: string -> string
    var username: string
    var salt: string
    var hashedPassword: string

    /** The class invariant: the username is stripped and not empty. */
    predicate Valid()
      reads this
    {
      Trimmed(username)
    }

    /** `User(user_id, username, password, registration_date)` once its
        checks passed; `New` performs them. */
    constructor(userId: int, username: string, password: string, registrationDate: Option<string>,
                now: string, salt: string, hash: string -> string)
      requires |password| >= MinPasswordLength && NotBlank(username)
      ensures Valid()
      ensures this.userId == userId && this.username == Strip(username)
      ensures this.salt == salt && this.hashedPassword == hash(password + salt)
      ensures this.registrationDate == registrationDate.GetOr(now) && this.hash == hash
    {
      BlankIffStripEmpty(username);
      this.userId := userId;
      this.username := Strip(username);
      this.salt := salt;
      this.hashedPassword := hash(password + salt);
      this.registrationDate := registrationDate.GetOr(now);
      this.hash := hash;
    }

    /** The constructor's checks: the password length first, then the
        username setter's. */
    static method New(userId: int, username: string, password: string, registrationDate: Option<string>,
                      now: string, salt: string, hash: string -> string)
      returns (r: Result<User, ModelError>)
      ensures r.Ok? <==> |password| >= MinPasswordLength && NotBlank(username)
      ensures |password| < MinPasswordLength ==> r == Err(ShortPassword)
      ensures |password| >= MinPasswordLength && !NotBlank(username) ==> r == Err(EmptyUsername)
      ensures r.Ok? ==> fresh(r.value) && r.value.Valid()
      ensures r.Ok? ==> r.value.userId == userId && r.value.username == Strip(username)
      ensures r.Ok? ==> r.value.salt == salt && r.value.hashedPassword == hash(password + salt)
      ensures r.Ok? ==> r.value.hash == hash && r.value.registrationDate == registrationDate.GetOr(now)
    {
      if |password| < MinPasswordLength {
        return Err(ShortPassword);
      }
      if !NotBlank(username) {
        return Err(EmptyUsername);
      }
      var user := new User(userId, username, password, registrationDate, now, salt, hash);
      return Ok(user);
    }

    /** The `username` setter: a blank value is refused and nothing changes;
        otherwise the stripped value is stored. */
    method SetUsername(value: string) returns (r: Result<(), ModelError>)
      modifies this
      ensures r.Ok? <==> NotBlank(value)
      ensures r.Err? ==> r.error == EmptyUsername && username == old(username)
      ensures r.Ok? ==> username == Strip(value) && Valid()
      ensures old(Valid()) ==> Valid()
      ensures salt == old(salt) && hashedPassword == old(hashedPassword)
    {
      BlankIffStripEmpty(value);
      if value == "" || Strip(value) == "" {
        return Err(EmptyUsername);
      }
      username := Strip(value);
      return Ok(());
    }

    /** `change_password`: a short password is refused with salt and hash
        untouched; otherwise the fresh salt replaces the old one and the hash
        is recomputed. The username never changes. */
    method ChangePassword(newPassword: string, newSalt: string) returns (r: Result<(), ModelError>)
      modifies this
      ensures r.Ok? <==> |newPassword| >= MinPasswordLength
      ensures r.Err? ==> r.error == ShortPassword && salt == old(salt) && hashedPassword == old(hashedPassword)
      ensures r.Ok? ==> salt == newSalt && hashedPassword == hash(newPassword + newSalt)
      ensures username == old(username)
      ensures old(Valid()) ==> Valid()
    {
      if |newPassword| < MinPasswordLength {
        return Err(ShortPassword);
      }
      salt := newSalt;
      hashedPassword := hash(newPassword + newSalt);
      return Ok(());
    }

    /** `verify_password`: true exactly when the salted hash matches. For an
        injective hash that singles out the password last hashed. */
    method VerifyPassword(password: string) returns (ok: bool)
      ensures ok <==> hashedPassword == hash(password + salt)
      ensures forall p :: hashedPassword == hash(p + salt) && (forall a, b :: hash(a) == hash(b) ==> a == b) ==>
        (ok <==> password == p)
    {
      ok := hashedPassword == hash(password + salt);
      forall p | hashedPassword == hash(p + salt) && (forall a, b :: hash(a) == hash(b) ==> a == b)
        ensures ok <==> password == p
      {
        if ok {
          SaltedInjective(hash, password, p, salt);
        }
      }
    }

    /** `get_user_info`: the id, the username and the registration date. */
    method GetUserInfo() returns (info: UserInfo)
      ensures info.userId == userId && info.username == username && info.registrationDate == registrationDate
    {
      info := UserInfo(userId, username, registrationDate);
    }
  }
}
