/**
 * The account routes: signup, login, and the password reset by one-time code
 * (store a code, then check it, set the new password and clear the code),
 * over the user collection keyed by e-mail address.
 *
 * Tokens (JWT), password hashing and the expiry of a stored code belong to
 * collaborators that are not part of this model.  `comparePassword` is a
 * relation between the stored credential and the candidate, given as a
 * parameter; `Math.random()` is the parameter `draw`; whether a mail is
 * delivered is a boolean.
 */
module Auth {
  import opened Wrappers
  import opened Models
  import opened Http

  /** The `user` object of the signup and login replies. */
  datatype UserSummary = UserSummary(id: UserId, name: string, email: Email, role: string)

  function Summary(u: User): UserSummary {
    UserSummary(u.id, u.name, u.email, u.role)
  }

  /** `role || 'user'`: a missing or empty role becomes 'user'. */
  function RoleOrDefault(role: Option<string>): (r: string)
    ensures role.Some? && role.value != "" ==> r == role.value
    ensures role.None? || role.value == "" ==> r == "user"
  {
    if role.Some? && role.value != "" then role.value else "user"
  }

  const InvalidCredentials := "Invalid credentials"
  const Deactivated := "Your account has been deactivated. Please contact support."

  // ----- one-time codes -----

  function Pow10(k: nat): (p: nat)
    ensures p >= 1
  {
    if k == 0 then 1 else 10 * Pow10(k - 1)
  }

  function DigitChar(d: nat): (c: char)
    requires d < 10
    ensures '0' <= c <= '9'
  {
    ('0' as int + d) as char
  }

  predicate IsDigits(s: string) {
    forall i :: 0 <= i < |s| ==> '0' <= s[i] <= '9'
  }

  /** `Number.prototype.toString` of a whole number: its decimal digits, without leading zeros. */
  function Decimal(n: nat): (s: string)
    ensures |s| >= 1 && IsDigits(s)
    ensures s[0] == '0' ==> n == 0
  {
    if n < 10 then [DigitChar(n)] else Decimal(n / 10) + [DigitChar(n % 10)]
  }

  /** Reads a string of decimal digits back: the inverse of `Decimal`. */
  function ParseDecimal(s: string): nat
    requires IsDigits(s)
  {
    if s == [] then 0
    else ParseDecimal(s[..|s| - 1]) * 10 + (s[|s| - 1] as int - '0' as int)
  }

  lemma {:induction false} DecimalRoundTrip(n: nat)
    ensures ParseDecimal(Decimal(n)) == n
  {
    if n >= 10 {
      var s := Decimal(n / 10) + [DigitChar(n % 10)];
      assert s[..|s| - 1] == Decimal(n / 10);
      DecimalRoundTrip(n / 10);
    }
  }

  /** A number with k + 1 decimal digits is written with k + 1 characters. */
  lemma {:induction false} DecimalLength(n: nat, k: nat)
    requires Pow10(k) <= n < Pow10(k + 1)
    ensures |Decimal(n)| == k + 1
  {
    if k > 0 {
      DecimalLength(n / 10, k - 1);
    }
  }

  /** `Math.floor(100000 + Math.random() * 900000)`, with `draw` the reading of `Math.random()`. */
  function OtpNumber(draw: real): (n: int)
    requires 0.0 <= draw < 1.0
    ensures 100000 <= n <= 999999
  {
    (100000.0 + draw * 900000.0).Floor
  }

  /** The code sent by forgot-password: six decimal digits, the first one not zero. */
  function GenerateOtp(draw: real): (otp: string)
    requires 0.0 <= draw < 1.0
    ensures |otp| == 6 && IsDigits(otp) && otp[0] != '0'
    ensures 100000 <= ParseDecimal(otp) <= 999999
  {
    var n := OtpNumber(draw);
    DecimalLength(n, 5);
    DecimalRoundTrip(n);
    Decimal(n)
  }

  /**
   * The check of reset-password, `!storedOTP || storedOTP !== otp` negated: the
   * supplied code is accepted exactly when it is the stored one and not empty.
   */
  predicate OtpAccepted(stored: Option<string>, given: string)
    ensures OtpAccepted(stored, given) <==> given != "" && stored == Some(given)
  {
    stored.Some? && stored.value != "" && stored.value == given
  }

  /** The user collection. */
  class UserStore {
    var users: map<Email, User>

    /** Each user is stored under its own e-mail address, and ids are distinct. */
    ghost predicate Valid()
      reads this
    {
      && (forall e :: e in users ==> users[e].email == e)
      && (forall e, f :: e in users && f in users && e != f ==> users[e].id != users[f].id)
    }

    constructor ()
      ensures Valid() && users == map[]
    {
      users := map[];
    }

    /**
     * POST /signup: `newId` is the id the store assigns, `mailOk` whether the
     * confirmation mail goes out; its failure is only logged.
     */
    method Signup(name: string, email: Email, password: string, role: Option<string>, newId: UserId, mailOk: bool)
      returns (resp: Response<UserSummary>)
      requires Valid()
      requires forall e :: e in users ==> users[e].id != newId
      modifies this
      ensures Valid()
      ensures email in old(users) ==> resp == Failure(400, "User already exists") && users == old(users)
      ensures email !in old(users) ==>
        users == old(users)[email := User(newId, name, email, password, RoleOrDefault(role), true, None)]
        && resp == Success(201, Summary(users[email]))
    {
      if email in users {
        return Failure(400, "User already exists");
      }
      var user := User(newId, name, email, password, RoleOrDefault(role), true, None);
      users := users[email := user];
      // sendSignupConfirmation runs here; whatever `mailOk` says, a failure is only logged
      resp := Success(201, Summary(user));
    }

    /**
     * POST /login.  An unknown address and a wrong password give the same
     * reply; the deactivated flag is looked at only once the password matched.
     */
    method Login(email: Email, password: string, comparePassword: (string, string) -> bool)
      returns (resp: Response<UserSummary>)
      requires Valid()
      ensures email !in users ==> resp == Failure(400, InvalidCredentials)
      ensures email in users && !comparePassword(users[email].password, password) ==> resp == Failure(400, InvalidCredentials)
      ensures resp.status == 403 <==>
        email in users && comparePassword(users[email].password, password) && !users[email].isActive
      ensures resp.status == 403 ==> resp == Failure(403, Deactivated)
      ensures resp.Success? <==>
        email in users && comparePassword(users[email].password, password) && users[email].isActive
      ensures resp.Success? ==> resp == Success(200, Summary(users[email]))
    {
      if email !in users {
        return Failure(400, InvalidCredentials);
      }
      var user := users[email];
      if !comparePassword(user.password, password) {
        return Failure(400, InvalidCredentials);
      }
      if !user.isActive {
        return Failure(403, Deactivated);
      }
      resp := Success(200, Summary(user));
    }

    /**
     * POST /forgot-password: `draw` is the reading of `Math.random()`,
     * `mailOk` whether `sendOTP` succeeds.  The code is stored before the
     * mail goes out and stays stored when it fails.
     */
    method ForgotPassword(email: Email, draw: real, mailOk: bool) returns (resp: Response<string>, otp: Option<string>)
      requires Valid()
      requires 0.0 <= draw < 1.0
      modifies this
      ensures Valid()
      ensures email !in old(users) ==> resp == Failure(404, "User not found") && users == old(users) && otp == None
      ensures email in old(users) ==>
        otp == Some(GenerateOtp(draw)) && users == old(users)[email := old(users)[email].(otp := otp)]
      ensures resp.Success? <==> email in old(users) && mailOk
      ensures resp.Success? ==> resp == Success(200, "OTP sent to your email")
      ensures email in old(users) && !mailOk ==> resp == ServerError()
    {
      if email !in users {
        return Failure(404, "User not found"), None;
      }
      otp := Some(GenerateOtp(draw));
      users := users[email := users[email].(otp := otp)];
      if !mailOk {
        return ServerError(), otp;
      }
      resp := Success(200, "OTP sent to your email");
    }

    /** POST /reset-password: check the code, save the new password, then clear the code. */
    method ResetPassword(email: Email, otp: string, newPassword: string) returns (resp: Response<string>)
      requires Valid()
      modifies this
      ensures Valid()
      ensures email !in old(users) ==> resp == Failure(404, "User not found") && users == old(users)
      ensures email in old(users) && !OtpAccepted(old(users)[email].otp, otp) ==>
        resp == Failure(400, "Invalid or expired OTP") && users == old(users)
      ensures email in old(users) && OtpAccepted(old(users)[email].otp, otp) ==>
        users == old(users)[email := old(users)[email].(password := newPassword, otp := None)]
        && resp == Success(200, "Password reset successfully")
    {
      if email !in users {
        return Failure(404, "User not found");
      }
      var user := users[email];
      if !OtpAccepted(user.otp, otp) {
        return Failure(400, "Invalid or expired OTP");
      }
      users := users[email := user.(password := newPassword)];
      users := users[email := users[email].(otp := None)];
      resp := Success(200, "Password reset successfully");
    }
  }
}
