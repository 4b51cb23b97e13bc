/** The account flow of controllers/authController.js: `register` with its guards in
    order, the one-time-password check of `verifyOtp`, `resendOtp`, and the
    verification gate of `login`. The user lookup, the password hash comparison,
    the mail delivery, `Math.random` and `Date.now` are parameters. */
module AuthController {
  import opened Common
  import Validation

  /** The schema's `role` enum. */
  datatype Role = Collaborator | ProjectOwner

  /** The role a request names; an absent role ("") takes the schema default, and
      any other string is refused by the enum when the record is saved. */
  function RoleOf(name: string): (r: Option<Role>)
    ensures r == Some(Collaborator) <==> name == "" || name == "collaborator"
    ensures r == Some(ProjectOwner) <==> name == "project_owner"
  {
    if name == "" || name == "collaborator" then Some(Collaborator)
    else if name == "project_owner" then Some(ProjectOwner)
    else None
  }

  /** The fields of a user record the handlers read and write. `otp` is the
      schema's string field (absent or cleared is `None`); `otpExpires` is a time in
      milliseconds. */
  datatype UserState = UserState(
    fullName: string,
    email: string,
    role: Role,
    otp: Option<string>,
    otpExpires: Option<int>,
    isVerified: bool)

  /** A stored user. The password and its hash are not part of this model. */
  class User {
    var fullName: string
    var email: string
    var role: Role
    var otp: Option<string>
    var otpExpires: Option<int>
    var isVerified: bool

    constructor (s: UserState)
      ensures State() == s
    {
      fullName := s.fullName;
      email := s.email;
      role := s.role;
      otp := s.otp;
      otpExpires := s.otpExpires;
      isVerified := s.isVerified;
    }

    function State(): UserState
      reads this
    {
      UserState(fullName, email, role, otp, otpExpires, isVerified)
    }
  }

  // ---------------------------------------------------------------------------
  // One-time passwords

  const TenMinutes: int := 10 * 60 * 1000
  const FifteenMinutes: int := 15 * 60 * 1000

  /** `Math.floor(100000 + Math.random() * 900000)`, where `Math.random()` returned
      `draw / range`. */
  function GenerateOtp(draw: nat, range: nat): (otp: nat)
    requires draw < range
    ensures 100000 <= otp <= 999999
  {
    DivBelow(900000 * draw, range, 900000);
    100000 + (900000 * draw) / range
  }

  lemma DivBelow(a: nat, b: nat, k: nat)
    requires 0 < b && a < k * b
    ensures a / b < k
  {
    var q := a / b;
    assert b * q + a % b == a;
    MulLeftMono(b, k, q);
  }

  lemma MulLeftMono(b: nat, x: nat, y: nat)
    ensures x <= y ==> b * x <= b * y
  {
  }

  function Pow10(k: nat): (p: nat)
    ensures p >= 1
  {
    if k == 0 then 1 else 10 * Pow10(k - 1)
  }

  /** A number in `[10^k, 10^(k+1))` is written with `k + 1` digits. */
  lemma {:induction false} DigitCount(n: nat, k: nat)
    requires Pow10(k) <= n < Pow10(k + 1)
    ensures |NatToString(n)| == k + 1
  {
    if k > 0 {
      DigitCount(n / 10, k - 1);
    }
  }

  /** Every generated code is six decimal digits without a leading zero. */
  lemma OtpHasSixDigits(draw: nat, range: nat)
    requires draw < range
    ensures var code := NatToString(GenerateOtp(draw, range));
      |code| == 6 && code[0] != '0'
  {
    assert Pow10(5) == 100000 && Pow10(6) == 1000000;
    DigitCount(GenerateOtp(draw, range), 5);
  }

  /** `user.otpExpires < Date.now()`; a cleared expiry is `null`, which compares as
      0. */
  predicate Expired(otpExpires: Option<int>, now: int)
  {
    (if otpExpires.Some? then otpExpires.value else 0) < now
  }

  // ---------------------------------------------------------------------------
  // register

  datatype RegisterRequest = RegisterRequest(
    fullName: string,
    email: string,
    password: string,
    confirmPassword: string,
    role: string)

  datatype RegisterOutcome =
    | InvalidEmail
    | ShortPassword
    | PasswordMismatch
    | EmailTaken
    | OtpMailFailed
    | SaveRejected
    | Registered
  {
    function Code(): nat
    {
      match this
      case InvalidEmail => 400
      case ShortPassword => 400
      case PasswordMismatch => 400
      case EmailTaken => 400
      case OtpMailFailed => 500
      case SaveRejected => 500
      case Registered => 201
    }
  }

  /** What the schema demands when the record is saved: a full name and a role
      from the enum. */
  predicate Storable(req: RegisterRequest)
  {
    req.fullName != "" && RoleOf(req.role).Some?
  }

  /** `register` with the OTP mail sent to the user's own name: the guards in order,
      then the mail, then the save. `emailTaken` is whether `findOne({ email })`
      found a record; `mailSent` whether the mail went out. */
  function RegisterCheck(req: RegisterRequest, emailTaken: bool, mailSent: bool): (r: RegisterOutcome)
    ensures r == InvalidEmail <==> !Validation.ValidateEmail(req.email)
    ensures r == ShortPassword <==>
      Validation.ValidateEmail(req.email) && !Validation.ValidatePassword(req.password)
    ensures r == PasswordMismatch <==>
      Validation.ValidateEmail(req.email) && Validation.ValidatePassword(req.password)
      && req.password != req.confirmPassword
    ensures r == EmailTaken <==>
      && Validation.ValidateEmail(req.email) && Validation.ValidatePassword(req.password)
      && req.password == req.confirmPassword && emailTaken
    ensures r == OtpMailFailed <==>
      && Validation.ValidateEmail(req.email) && Validation.ValidatePassword(req.password)
      && req.password == req.confirmPassword && !emailTaken && !mailSent
    ensures r == SaveRejected <==>
      && Validation.ValidateEmail(req.email) && Validation.ValidatePassword(req.password)
      && req.password == req.confirmPassword && !emailTaken && mailSent && !Storable(req)
    ensures r == Registered <==>
      && Validation.ValidateEmail(req.email) && Validation.ValidatePassword(req.password)
      && req.password == req.confirmPassword && !emailTaken && mailSent && Storable(req)
    ensures r.Code() == 201 <==> r == Registered
  {
    if !Validation.ValidateEmail(req.email) then InvalidEmail
    else if !Validation.ValidatePassword(req.password) then ShortPassword
    else if req.password != req.confirmPassword then PasswordMismatch
    else if emailTaken then EmailTaken
    else if !mailSent then OtpMailFailed
    else if !Storable(req) then SaveRejected
    else Registered
  }

  /** `register` as written: the mail call names `schoolName`, which is not
      declared anywhere, so evaluating its arguments throws; the inner `catch`
      answers "Failed to send OTP email." before anything is saved. */
  function RegisterAsWritten(req: RegisterRequest, emailTaken: bool): (r: RegisterOutcome)
    ensures r != Registered
    ensures r == OtpMailFailed <==>
      && Validation.ValidateEmail(req.email) && Validation.ValidatePassword(req.password)
      && req.password == req.confirmPassword && !emailTaken
  {
    if !Validation.ValidateEmail(req.email) then InvalidEmail
    else if !Validation.ValidatePassword(req.password) then ShortPassword
    else if req.password != req.confirmPassword then PasswordMismatch
    else if emailTaken then EmailTaken
    else OtpMailFailed
  }

  /** As written, no request ever registers an account: past the guards the
      handler always behaves as if the mail had failed. */
  lemma RegisterAsWrittenNeverRegisters(req: RegisterRequest, emailTaken: bool)
    ensures RegisterAsWritten(req, emailTaken) != Registered
    ensures RegisterAsWritten(req, emailTaken) == RegisterCheck(req, emailTaken, false)
  {
  }

  /** `register` with the mail sent to `fullName`: on success a new unverified user
      holds the lower-cased email, a six-digit code and an expiry ten minutes
      ahead. */
  method Register(req: RegisterRequest, emailTaken: bool, mailSent: bool,
                  draw: nat, range: nat, now: int)
    returns (outcome: RegisterOutcome, user: User?)
    requires draw < range
    ensures outcome == RegisterCheck(req, emailTaken, mailSent)
    ensures user != null <==> outcome == Registered
    ensures user != null ==>
      && fresh(user)
      && user.State() == UserState(req.fullName, Lower(req.email), RoleOf(req.role).value,
                                   Some(NatToString(GenerateOtp(draw, range))),
                                   Some(now + TenMinutes), false)
  {
    outcome := RegisterCheck(req, emailTaken, mailSent);
    user := null;
    if outcome == Registered {
      var otp := GenerateOtp(draw, range);
      var otpExpires := now + TenMinutes;
      user := new User(UserState(req.fullName, Lower(req.email), RoleOf(req.role).value,
                                 Some(NatToString(otp)), Some(otpExpires), false));
    }
  }

  // ---------------------------------------------------------------------------
  // verifyOtp

  datatype VerifyOutcome =
    | OtpFieldsMissing
    | VerifyUserNotFound
    | AlreadyVerified
    | InvalidOtp
    | OtpExpired
    | Verified
  {
    function Code(): nat
    {
      match this
      case OtpFieldsMissing => 400
      case VerifyUserNotFound => 404
      case AlreadyVerified => 400
      case InvalidOtp => 400
      case OtpExpired => 400
      case Verified => 200
    }
  }

  /** The guards of `verifyOtp` in order; `user` is the record found for `email`. */
  function VerifyCheck(email: string, otp: string, user: Option<UserState>, now: int): (r: VerifyOutcome)
    ensures r == Verified <==>
      && email != "" && otp != "" && user.Some? && !user.value.isVerified
      && user.value.otp == Some(otp) && !Expired(user.value.otpExpires, now)
    ensures r == AlreadyVerified <==> email != "" && otp != "" && user.Some? && user.value.isVerified
    ensures r == OtpFieldsMissing <==> email == "" || otp == ""
    ensures r == VerifyUserNotFound <==> email != "" && otp != "" && user.None?
    ensures r == InvalidOtp <==>
      && email != "" && otp != "" && user.Some? && !user.value.isVerified
      && user.value.otp != Some(otp)
    ensures r == OtpExpired <==>
      && email != "" && otp != "" && user.Some? && !user.value.isVerified
      && user.value.otp == Some(otp) && Expired(user.value.otpExpires, now)
    ensures r.Code() == 404 <==> r == VerifyUserNotFound
  {
    if email == "" || otp == "" then OtpFieldsMissing
    else if user.None? then VerifyUserNotFound
    else if user.value.isVerified then AlreadyVerified
    else if user.value.otp != Some(otp) then InvalidOtp
    else if Expired(user.value.otpExpires, now) then OtpExpired
    else Verified
  }

  /** The record after a successful verification. */
  function VerifiedState(s: UserState): (t: UserState)
    ensures t.isVerified && t.otp.None? && t.otpExpires.None?
    ensures t.fullName == s.fullName && t.email == s.email && t.role == s.role
  {
    s.(isVerified := true, otp := None, otpExpires := None)
  }

  /** `verifyOtp`: on success the account is verified and its code and expiry are
      cleared; on every other outcome the record is unchanged. */
  method VerifyOtp(email: string, otp: string, user: User?, now: int) returns (outcome: VerifyOutcome)
    modifies user
    ensures outcome == VerifyCheck(email, otp, if user == null then None else Some(old(user.State())), now)
    ensures user != null ==>
      user.State() == if outcome == Verified then VerifiedState(old(user.State())) else old(user.State())
  {
    outcome := VerifyCheck(email, otp, if user == null then None else Some(user.State()), now);
    if outcome == Verified {
      user.isVerified := true;
      user.otp := None;
      user.otpExpires := None;
    }
  }

  /** A code works once: after a verification every further attempt, with any code,
      is told the account is already verified. */
  lemma VerifyOnlyOnce(email: string, otp: string, otp': string, s: UserState, now: int, later: int)
    requires VerifyCheck(email, otp, Some(s), now) == Verified && otp' != ""
    ensures VerifyCheck(email, otp', Some(VerifiedState(s)), later) == AlreadyVerified
  {
  }

  /** A freshly registered user who sends the mailed code within ten minutes is
      verified. */
  lemma RegisterThenVerify(req: RegisterRequest, draw: nat, range: nat, now: int, later: int)
    requires draw < range && now <= later <= now + TenMinutes
    requires RegisterCheck(req, false, true) == Registered
    ensures var code := NatToString(GenerateOtp(draw, range));
      var s := UserState(req.fullName, Lower(req.email), RoleOf(req.role).value,
                         Some(code), Some(now + TenMinutes), false);
      VerifyCheck(req.email, code, Some(s), later) == Verified
  {
    Validation.EmailShape(req.email);
  }

  // ---------------------------------------------------------------------------
  // resendOtp

  datatype ResendOutcome =
    | ResendEmailMissing
    | ResendUserNotFound
    | ResendAlreadyVerified
    | ResendMailFailed
    | OtpResent
  {
    function Code(): nat
    {
      match this
      case ResendEmailMissing => 400
      case ResendUserNotFound => 404
      case ResendAlreadyVerified => 400
      case ResendMailFailed => 500
      case OtpResent => 200
    }
  }

  /** The guards of `resendOtp` in order; `mailSent` is whether the mail went out. */
  function ResendCheck(email: string, user: Option<UserState>, mailSent: bool): (r: ResendOutcome)
    ensures r == OtpResent <==> email != "" && user.Some? && !user.value.isVerified && mailSent
    ensures (r == OtpResent || r == ResendMailFailed) <==>
      email != "" && user.Some? && !user.value.isVerified
    ensures r == ResendEmailMissing <==> email == ""
    ensures r == ResendUserNotFound <==> email != "" && user.None?
    ensures r == ResendAlreadyVerified <==> email != "" && user.Some? && user.value.isVerified
    ensures r == ResendMailFailed <==> email != "" && user.Some? && !user.value.isVerified && !mailSent
  {
    if email == "" then ResendEmailMissing
    else if user.None? then ResendUserNotFound
    else if user.value.isVerified then ResendAlreadyVerified
    else if !mailSent then ResendMailFailed
    else OtpResent
  }

  /** `resendOtp` as written: the mail goes through `transporter`, which
      middleware/sendEmail.js does not export, so the call throws after the new code
      has been saved. */
  function ResendAsWritten(email: string, user: Option<UserState>): (r: ResendOutcome)
    ensures r != OtpResent
    ensures r == ResendMailFailed <==> email != "" && user.Some? && !user.value.isVerified
  {
    if email == "" then ResendEmailMissing
    else if user.None? then ResendUserNotFound
    else if user.value.isVerified then ResendAlreadyVerified
    else ResendMailFailed
  }

  /** As written, a resend never answers 200: it fails with 500 exactly where the
      corrected handler would have sent the code. */
  lemma ResendAsWrittenNeverSucceeds(email: string, user: Option<UserState>)
    ensures ResendAsWritten(email, user) != OtpResent
    ensures ResendAsWritten(email, user) == ResendCheck(email, user, false)
  {
  }

  /** The record after a new code is issued. */
  function ReissuedState(s: UserState, code: nat, now: int): (t: UserState)
    ensures t.otp == Some(NatToString(code)) && t.otpExpires == Some(now + FifteenMinutes)
    ensures t.isVerified == s.isVerified && t.fullName == s.fullName && t.email == s.email
  {
    s.(otp := Some(NatToString(code)), otpExpires := Some(now + FifteenMinutes))
  }

  /** `resendOtp`: past the guards a new code with a fifteen-minute expiry is saved,
      whether or not the mail then goes out; otherwise nothing changes. */
  method ResendOtp(email: string, user: User?, mailSent: bool, draw: nat, range: nat, now: int)
    returns (outcome: ResendOutcome)
    requires draw < range
    modifies user
    ensures outcome == ResendCheck(email, if user == null then None else Some(old(user.State())), mailSent)
    ensures user != null ==>
      user.State() == if outcome == OtpResent || outcome == ResendMailFailed
                      then ReissuedState(old(user.State()), GenerateOtp(draw, range), now)
                      else old(user.State())
  {
    outcome := ResendCheck(email, if user == null then None else Some(user.State()), mailSent);
    if outcome == OtpResent || outcome == ResendMailFailed {
      var newOtp := GenerateOtp(draw, range);
      user.otp := Some(NatToString(newOtp));
      user.otpExpires := Some(now + FifteenMinutes);
    }
  }

  /** After a resend, the new code verifies the account for fifteen minutes and
      the previous code no longer does. */
  lemma ResendThenVerify(email: string, s: UserState, code: nat, oldOtp: string, now: int, later: int)
    requires ResendCheck(email, Some(s), true) == OtpResent
    requires now <= later <= now + FifteenMinutes
    requires oldOtp != NatToString(code)
    ensures VerifyCheck(email, NatToString(code), Some(ReissuedState(s, code, now)), later) == Verified
    ensures oldOtp != "" ==>
      VerifyCheck(email, oldOtp, Some(ReissuedState(s, code, now)), later) == InvalidOtp
  {
  }

  // ---------------------------------------------------------------------------
  // login

  datatype LoginOutcome = NoSuchUser | WrongPassword | NotVerified | LoggedIn
  {
    function Code(): nat
    {
      match this
      case NoSuchUser => 404
      case WrongPassword => 400
      case NotVerified => 403
      case LoggedIn => 200
    }
  }

  /** The gate as written:
      `role !== "collaborator" || (role !== "project_owner" && !isVerified)`. */
  predicate GateAsWritten(u: UserState)
    ensures GateAsWritten(u) <==> u.role == ProjectOwner || !u.isVerified
  {
    u.role != Collaborator || (u.role != ProjectOwner && !u.isVerified)
  }

  /** The evidently intended gate: only an unverified user who is not a project
      owner is turned away. */
  predicate Gate(u: UserState)
    ensures Gate(u) <==> u.role == Collaborator && !u.isVerified
  {
    u.role != ProjectOwner && !u.isVerified
  }

  /** `login` as written; `user` is the record found for the email and role, and
      `passwordMatches` the result of the hash comparison. */
  function LoginAsWritten(user: Option<UserState>, passwordMatches: bool): (r: LoginOutcome)
    ensures r == NoSuchUser <==> user.None?
    ensures r == LoggedIn <==>
      user.Some? && passwordMatches && user.value.role == Collaborator && user.value.isVerified
    ensures r == NotVerified <==>
      user.Some? && passwordMatches && (user.value.role == ProjectOwner || !user.value.isVerified)
  {
    if user.None? then NoSuchUser
    else if !passwordMatches then WrongPassword
    else if GateAsWritten(user.value) then NotVerified
    else LoggedIn
  }

  /** `login` with the intended gate. */
  function Login(user: Option<UserState>, passwordMatches: bool): (r: LoginOutcome)
    ensures r == NoSuchUser <==> user.None?
    ensures r == WrongPassword <==> user.Some? && !passwordMatches
    ensures r == LoggedIn <==>
      user.Some? && passwordMatches && (user.value.role == ProjectOwner || user.value.isVerified)
    ensures r == NotVerified <==>
      user.Some? && passwordMatches && user.value.role == Collaborator && !user.value.isVerified
  {
    if user.None? then NoSuchUser
    else if !passwordMatches then WrongPassword
    else if Gate(user.value) then NotVerified
    else LoggedIn
  }

  /** As written, every project owner with the right password is refused with
      "Your email is not verified", verified or not; the intended gate lets them
      in. */
  lemma OwnersLockedOut(u: UserState)
    requires u.role == ProjectOwner
    ensures LoginAsWritten(Some(u), true) == NotVerified
    ensures Login(Some(u), true) == LoggedIn
  {
  }

  /** For collaborators the written gate and the intended one agree: they log in
      exactly when verified. */
  lemma CollaboratorsAgree(user: Option<UserState>, passwordMatches: bool)
    requires user.Some? ==> user.value.role == Collaborator
    ensures LoginAsWritten(user, passwordMatches) == Login(user, passwordMatches)
    ensures LoginAsWritten(user, passwordMatches) == LoggedIn <==>
      user.Some? && passwordMatches && user.value.isVerified
  {
  }
}
