/** The authentication controller of the server: registration, login, and
    password reset by a one-time code sent by e-mail.  It keeps a user table
    keyed by normalised e-mail address and a one-time-code table keyed the
    same way.  Password hashing and token signing are modelled symbolically;
    the random draw, the hashing salt and the clock are parameters. */
module AuthController {
  import opened Text
  import opened Records

  /** A field of a JSON request body: absent, or the text sent. */
  type Field = Option<string>

  /** JavaScript's `!x` on a request field: absent or empty. */
  predicate Blank(f: Field) {
    f.None? || f.value == ""
  }

  /** A bcrypt hash: the random salt it was made with and the part of the
      password it commits to.  Nothing in the model reads `secret` except
      `Verify`. */
  datatype Digest = Digest(salt: nat, secret: string)

  /** bcrypt reads at most this many bytes of a password. */
  const BcryptMaxBytes: nat := 72

  /** The part of a password that bcrypt reads: the first 72 bytes, one
      byte per character here; anything after them is ignored. */
  function Significant(password: string): (r: string)
    ensures |r| <= BcryptMaxBytes
    ensures |r| <= |password| && r == password[..|r|]
    ensures |r| < BcryptMaxBytes ==> r == password
  {
    if |password| <= BcryptMaxBytes then password else password[..BcryptMaxBytes]
  }

  /** `bcrypt.hash(password, 10)` with the salt it draws. */
  function Hash(password: string, salt: nat): Digest {
    Digest(salt, Significant(password))
  }

  /** `bcrypt.compare(password, digest)`. */
  predicate Verify(password: string, digest: Digest) {
    Significant(password) == digest.secret
  }

  /** A hash verifies against the password it was made from, and against
      another exactly when the two agree on their first 72 bytes; for
      passwords no longer than that, only against the same password. */
  lemma HashVerifies(password: string, other: string, salt: nat)
    ensures Verify(password, Hash(password, salt))
    ensures Verify(other, Hash(password, salt)) <==> other[..Min(|other|, BcryptMaxBytes)] == password[..Min(|password|, BcryptMaxBytes)]
    ensures |other| <= BcryptMaxBytes && |password| <= BcryptMaxBytes ==>
      (Verify(other, Hash(password, salt)) <==> other == password)
  {
    assert Significant(other) == other[..Min(|other|, BcryptMaxBytes)];
    assert Significant(password) == password[..Min(|password|, BcryptMaxBytes)];
  }

  function Min(a: nat, b: nat): nat {
    if a < b then a else b
  }

  /** The lifetime of a session token, seven days in milliseconds. */
  const TokenLifetime: int := 7 * 24 * 60 * 60 * 1000

  /** A signed session token: its only claim is the user's id. */
  datatype Token = Token(subject: Id, expiresAt: int)

  /** `jwt.sign({ id }, secret, { expiresIn: '7d' })` at time `now`. */
  function Sign(id: Id, now: int): Token {
    Token(id, now + TokenLifetime)
  }

  /** Checking a token at time `now`: the id it carries, until it expires. */
  function TokenSubject(t: Token, now: int): Option<Id> {
    if now < t.expiresAt then Some(t.subject) else None
  }

  /** A token resolves to the id it was issued for during the seven days
      after issue and is rejected from then on. */
  lemma SignedTokenResolves(id: Id, issued: int, now: int)
    ensures issued <= now < issued + TokenLifetime ==> TokenSubject(Sign(id, issued), now) == Some(id)
    ensures now >= issued + TokenLifetime ==> TokenSubject(Sign(id, issued), now) == None
  {
  }

  /** A stored user.  `email` is the normalised address. */
  datatype User = User(id: Id, name: string, email: string, password: Digest)

  /** What a reply tells about a user: no password hash. */
  datatype UserView = UserView(id: Id, name: string, email: string)

  function View(u: User): UserView {
    UserView(u.id, u.name, u.email)
  }

  /** The body of a successful register or login. */
  datatype AuthReply = AuthReply(token: Token, user: UserView)

  /** A stored one-time code and the instant, in milliseconds, it expires. */
  datatype OtpRecord = OtpRecord(code: string, expiresAt: int)

  /** Ten minutes in milliseconds. */
  const OtpLifetime: int := 10 * 60 * 1000

  /** `Math.floor(100000 + Math.random() * 900000).toString()`, where `draw`
      is `Math.floor(Math.random() * 900000)`: six decimal digits, never a
      leading zero, and different draws give different codes. */
  function OtpCode(draw: nat): (code: string)
    requires draw < 900000
    ensures |code| == 6 && code[0] != '0'
    ensures forall i :: 0 <= i < 6 ==> IsDigit(code[i])
    ensures ParseDigits(code) == 100000 + draw
  {
    assert Pow10(2) == 100 && Pow10(4) == 10000 && Pow10(5) == 100000 && Pow10(6) == 1000000;
    NatToStringLength(100000 + draw, 6);
    ParseNatToString(100000 + draw);
    NatToString(100000 + draw)
  }

  /** Every user is stored under its own address, ids are below `nextId`,
      and no two users share an id. */
  ghost predicate UsersValid(users: map<string, User>, nextId: Id) {
    && (forall e :: e in users ==> users[e].email == e && users[e].id < nextId)
    && (forall e1, e2 :: e1 in users && e2 in users && users[e1].id == users[e2].id ==> e1 == e2)
  }

  /** Storing a new user under a free address with the next id keeps the
      table consistent. */
  lemma AddUserKeepsValid(users: map<string, User>, nextId: Id, u: User)
    requires UsersValid(users, nextId)
    requires u.email !in users && u.id == nextId
    ensures UsersValid(users[u.email := u], nextId + 1)
  {
  }

  class AuthService {
    /** The user collection, keyed by normalised e-mail (its unique index). */
    var users: map<string, User>
    /** The one-time-code collection, keyed by normalised e-mail. */
    var otps: map<string, OtpRecord>
    /** The next user id to hand out. */
    var nextId: Id

    /** Every user is stored under its own address, and ids are unique. */
    ghost predicate Valid()
      reads this
    {
      UsersValid(users, nextId)
    }

    constructor ()
      ensures Valid()
      ensures users == map[] && otps == map[]
    {
      users := map[];
      otps := map[];
      nextId := 0;
    }

    /** `register`: fails with 400 when a field is missing or the address is
        taken; otherwise stores the user with a hash of the password and
        answers 201 with a token and the user without the hash. */
    method Register(name: Field, email: Field, password: Field, salt: nat, now: int)
      returns (r: Response<AuthReply>)
      requires Valid()
      modifies this
      ensures Valid()
      ensures otps == old(otps)
      ensures Blank(name) || Blank(email) || Blank(password) ==>
        r == Error(400, "Name, email, and password are required")
        && users == old(users) && nextId == old(nextId)
      ensures !Blank(name) && !Blank(email) && !Blank(password) ==>
        var key := NormalizeEmail(email.value);
        if key in old(users) then
          r == Error(400, "Email already exists") && users == old(users) && nextId == old(nextId)
        else
          var u := User(old(nextId), name.value, key, Hash(password.value, salt));
          && users == old(users)[key := u]
          && nextId == old(nextId) + 1
          && r == Ok(201, AuthReply(Sign(u.id, now), View(u)))
    {
      if Blank(name) || Blank(email) || Blank(password) {
        return Error(400, "Name, email, and password are required");
      }
      var key := NormalizeEmail(email.value);
      if key in users {
        return Error(400, "Email already exists");
      }
      var digest := Hash(password.value, salt);
      var u := User(nextId, name.value, key, digest);
      AddUserKeepsValid(users, nextId, u);
      users := users[key := u];
      nextId := nextId + 1;
      var token := Sign(u.id, now);
      r := Ok(201, AuthReply(token, View(u)));
    }

    /** `login`: looks the user up by normalised address and checks the
        password.  A missing address or password makes the controller throw,
        which it answers with 500. */
    method Login(email: Field, password: Field, now: int) returns (r: Response<AuthReply>)
      ensures email.None? ==> r == Error(500, "Server error during login")
      ensures email.Some? ==>
        var key := NormalizeEmail(email.value);
        if key !in users then r == Error(400, "User not found")
        else if password.None? then r == Error(500, "Server error during login")
        else if !Verify(password.value, users[key].password) then r == Error(400, "Incorrect password")
        else r == Ok(200, AuthReply(Sign(users[key].id, now), View(users[key])))
    {
      if email.None? {
        return Error(500, "Server error during login");
      }
      var key := NormalizeEmail(email.value);
      if key !in users {
        return Error(400, "User not found");
      }
      var user := users[key];
      if password.None? {
        return Error(500, "Server error during login");
      }
      if !Verify(password.value, user.password) {
        return Error(400, "Incorrect password");
      }
      r := Ok(200, AuthReply(Sign(user.id, now), View(user)));
    }

    /** `requestOtp`: for a known user, replaces that address's code with a
        fresh one valid for ten minutes.  The e-mail that carries it is not
        modelled (its sender swallows every error). */
    method RequestOtp(email: Field, draw: nat, now: int) returns (r: Response<string>)
      requires draw < 900000
      modifies this`otps
      ensures Blank(email) ==> r == Error(400, "Email is required") && otps == old(otps)
      ensures !Blank(email) ==>
        var key := NormalizeEmail(email.value);
        if key !in users then
          r == Error(404, "User not found") && otps == old(otps)
        else
          r == Ok(200, "OTP sent to your email")
          && otps == old(otps)[key := OtpRecord(OtpCode(draw), now + OtpLifetime)]
    {
      if Blank(email) {
        return Error(400, "Email is required");
      }
      var key := NormalizeEmail(email.value);
      if key !in users {
        return Error(404, "User not found");
      }
      var code := OtpCode(draw);
      var expiresAt := now + OtpLifetime;
      otps := otps[key := OtpRecord(code, expiresAt)];
      r := Ok(200, "OTP sent to your email");
    }

    /** `verifyOtp`: accepts a code equal to the stored one up to and
        including its expiry instant, and leaves the record in place. */
    method VerifyOtp(email: Field, otp: Field, now: int) returns (r: Response<string>)
      ensures Blank(email) || Blank(otp) ==> r == Error(400, "Email and OTP are required")
      ensures !Blank(email) && !Blank(otp) ==>
        var key := NormalizeEmail(email.value);
        if key !in otps then r == Error(400, "OTP not found")
        else if otps[key].code == otp.value && now <= otps[key].expiresAt then
          r == Ok(200, "OTP verified successfully")
        else r == Error(400, "Invalid or expired OTP")
    {
      if Blank(email) || Blank(otp) {
        return Error(400, "Email and OTP are required");
      }
      var key := NormalizeEmail(email.value);
      if key !in otps {
        return Error(400, "OTP not found");
      }
      var record := otps[key];
      if record.code != otp.value || record.expiresAt < now {
        return Error(400, "Invalid or expired OTP");
      }
      r := Ok(200, "OTP verified successfully");
    }

    /** `resetPassword`: sets the password of the user with that address, if
        there is one, and deletes the address's code.  It checks no code and
        reports success whether or not a user matched. */
    method ResetPassword(email: Field, newPassword: Field, salt: nat) returns (r: Response<string>)
      requires Valid()
      modifies this`users, this`otps
      ensures Valid()
      ensures Blank(email) || Blank(newPassword) ==>
        r == Error(400, "Email and new password are required")
        && users == old(users) && otps == old(otps)
      ensures !Blank(email) && !Blank(newPassword) ==>
        var key := NormalizeEmail(email.value);
        && r == Ok(200, "Password reset successful")
        && otps == old(otps) - {key}
        && users == if key in old(users)
                    then old(users)[key := old(users)[key].(password := Hash(newPassword.value, salt))]
                    else old(users)
    {
      if Blank(email) || Blank(newPassword) {
        return Error(400, "Email and new password are required");
      }
      var key := NormalizeEmail(email.value);
      var digest := Hash(newPassword.value, salt);
      if key in users {
        users := users[key := users[key].(password := digest)];
      }
      otps := otps - {key};
      r := Ok(200, "Password reset successful");
    }
  }

  /** Registering an address that differs from a registered one only in
      letter case and surrounding white space is refused and changes
      nothing. */
  method DuplicateRegistration(svc: AuthService, name: string, email: string, other: string,
                               password: string, salt: nat, salt2: nat, now: int)
    returns (first: Response<AuthReply>, second: Response<AuthReply>)
    requires svc.Valid()
    requires name != "" && email != "" && other != "" && password != ""
    requires NormalizeEmail(other) == NormalizeEmail(email)
    modifies svc
    ensures first.Ok? ==> second == Error(400, "Email already exists")
    ensures first.Ok? ==> |svc.users| == |old(svc.users)| + 1
  {
    first := svc.Register(Some(name), Some(email), Some(password), salt, now);
    ghost var afterFirst := svc.users;
    second := svc.Register(Some(name), Some(other), Some(password), salt2, now);
    assert svc.users == afterFirst;
  }

  /** After registering, logging in with the same password succeeds and the
      token names the new user. */
  method RegisterThenLogin(svc: AuthService, name: string, email: string, password: string,
                           salt: nat, now: int, later: int)
    returns (reg: Response<AuthReply>, login: Response<AuthReply>)
    requires svc.Valid()
    requires name != "" && email != "" && password != ""
    requires now <= later < now + TokenLifetime
    modifies svc
    ensures reg.Ok? ==> login.Ok? && login.body.user == reg.body.user
    ensures reg.Ok? ==> TokenSubject(login.body.token, later) == Some(reg.body.user.id)
  {
    reg := svc.Register(Some(name), Some(email), Some(password), salt, now);
    login := svc.Login(Some(email), Some(password), later);
  }

  /** A code is accepted up to and including its expiry instant, rejected
      one millisecond later, and rejected if one digit differs. */
  method CodeLifetime(svc: AuthService, email: string, draw: nat, now: int, wrong: string)
    returns (atExpiry: Response<string>, afterExpiry: Response<string>, mistyped: Response<string>)
    requires draw < 900000 && email != "" && wrong != "" && wrong != OtpCode(draw)
    requires NormalizeEmail(email) in svc.users
    modifies svc
    ensures atExpiry == Ok(200, "OTP verified successfully")
    ensures afterExpiry == Error(400, "Invalid or expired OTP")
    ensures mistyped == Error(400, "Invalid or expired OTP")
  {
    var sent := svc.RequestOtp(Some(email), draw, now);
    var code := OtpCode(draw);
    atExpiry := svc.VerifyOtp(Some(email), Some(code), now + OtpLifetime);
    afterExpiry := svc.VerifyOtp(Some(email), Some(code), now + OtpLifetime + 1);
    mistyped := svc.VerifyOtp(Some(email), Some(wrong), now);
  }

  /** A second request replaces the first code: afterwards the second code
      verifies while it is fresh, and the first one verifies only if the
      two draws happened to be equal. */
  method SecondRequestReplacesCode(svc: AuthService, email: string, draw1: nat, draw2: nat,
                                   t1: int, t2: int, t3: int)
    returns (first: Response<string>, second: Response<string>)
    requires draw1 < 900000 && draw2 < 900000 && email != ""
    requires NormalizeEmail(email) in svc.users
    modifies svc
    ensures first.Ok? ==> draw1 == draw2
    ensures t3 <= t2 + OtpLifetime ==> second == Ok(200, "OTP verified successfully")
    ensures t3 <= t2 + OtpLifetime ==> (first.Ok? <==> draw1 == draw2)
  {
    var a := svc.RequestOtp(Some(email), draw1, t1);
    var b := svc.RequestOtp(Some(email), draw2, t2);
    first := svc.VerifyOtp(Some(email), Some(OtpCode(draw1)), t3);
    second := svc.VerifyOtp(Some(email), Some(OtpCode(draw2)), t3);
    if first.Ok? {
      NatToStringInjective(100000 + draw1, 100000 + draw2);
    }
  }

  /** After a reset, the old password logs in only if bcrypt cannot tell it
      from the new one (they share their first 72 bytes), the new one does,
      and the consumed code is gone. */
  method ResetThenLogin(svc: AuthService, email: string, oldPassword: string, newPassword: string,
                        code: string, salt: nat, now: int)
    returns (withOld: Response<AuthReply>, withNew: Response<AuthReply>, verify: Response<string>)
    requires svc.Valid()
    requires email != "" && newPassword != "" && code != ""
    requires NormalizeEmail(email) in svc.users
    modifies svc
    ensures if Significant(oldPassword) == Significant(newPassword) then withOld.Ok?
            else withOld == Error(400, "Incorrect password")
    ensures NormalizeEmail(email) in svc.users
    ensures withNew.Ok? && withNew.body.user == View(svc.users[NormalizeEmail(email)])
    ensures verify == Error(400, "OTP not found")
  {
    var reset := svc.ResetPassword(Some(email), Some(newPassword), salt);
    withOld := svc.Login(Some(email), Some(oldPassword), now);
    withNew := svc.Login(Some(email), Some(newPassword), now);
    verify := svc.VerifyOtp(Some(email), Some(code), now);
  }
}
