/** The authentication state machine of `CustomUser`
    (core_apps/user_auth/models.py): one-time passwords with an expiry,
    counting failed logins, locking at a threshold, and unlocking manually
    or once the lockout duration has passed.

    The pure functions ending in `Step` give each operation's effect on the
    five authentication columns (the `Account` value); the class
    `CustomUser` holds those columns as fields, updates them step by step as
    the source does, and its methods promise to agree with the `Step`
    functions. The lemmas at the end state what the source promises about
    the functions, alone and in sequence.

    Time is an integer `now` passed in by the caller in place of
    `timezone.now()`; the settings OTP_EXPIRATION, LOGIN_ATTEMPTS and
    LOCKOUT_DURATION are a `Settings` value given to the constructor. */
module UserAuth {
  import opened Wrappers

  /** CustomUser.AccountStatus (models.py:30-32). */
  datatype AccountStatus = Active | Locked

  /** CustomUser.RoleChoices (models.py:34-38); `Value` is the string
      stored in the `role` column. */
  datatype Role = Customer | AccountExecutive | Teller | BranchManager {
    function Value(): string {
      match this
      case Customer => "customer"
      case AccountExecutive => "account_executive"
      case Teller => "teller"
      case BranchManager => "branch_manager"
    }
  }

  /** What the `otp` attribute holds in memory: None, a string, or the
      one-element tuple `(code,)` that the trailing comma of `set_otp`
      builds (models.py:80). */
  datatype StoredOtp = NoOtp | Text(code: string) | OneTuple(item: string)

  /** Python truthiness of the `otp` attribute: None and "" are false, any
      non-empty string and any one-element tuple are true. */
  predicate OtpTruthy(o: StoredOtp) {
    match o
    case NoOtp => false
    case Text(s) => s != ""
    case OneTuple(_) => true
  }

  /** Python's `self.otp == otp` for a string `otp`: None and a tuple never
      equal a string. */
  predicate OtpEquals(o: StoredOtp, code: string) {
    o.Text? && o.code == code
  }

  datatype AuthSettings = AuthSettings(otpExpiration: nat, loginAttempts: nat, lockoutDuration: nat)

  /** The settings the state machine reads; the lockout threshold is positive. */
  type Settings = s: AuthSettings | s.loginAttempts > 0 witness AuthSettings(0, 1, 0)

  /** The five columns the state machine reads and writes (models.py:53-66). */
  datatype Account = Account(
    status: AccountStatus,
    failedLoginAttempts: nat,
    lastFailedLogin: Option<int>,
    otp: StoredOtp,
    otpExpiryTime: Option<int>)

  /** The columns of a freshly created user (the field defaults). */
  const NewAccount := Account(Active, 0, None, NoOtp, None)

  /** The states the operations below keep: the account is locked exactly
      when the counter has reached the threshold, a failure time is
      recorded exactly when the counter is non-zero, and a truthy otp always
      has an expiry. */
  predicate Consistent(a: Account, cfg: Settings) {
    && (a.status == Locked <==> a.failedLoginAttempts >= cfg.loginAttempts)
    && (a.failedLoginAttempts == 0 <==> a.lastFailedLogin == None)
    && (OtpTruthy(a.otp) ==> a.otpExpiryTime.Some?)
  }

  // ---------------------------------------------------------------------
  // One step of each operation, on values
  // ---------------------------------------------------------------------

  /** `set_otp` as written (models.py:79-82): it stores the tuple `(code,)`. */
  function SetOtpStep(a: Account, code: string, now: int, cfg: Settings): (r: Account)
    ensures r.status == a.status && r.failedLoginAttempts == a.failedLoginAttempts
    ensures r.lastFailedLogin == a.lastFailedLogin
    ensures OtpTruthy(r.otp) && r.otpExpiryTime == Some(now + cfg.otpExpiration)
    ensures forall supplied :: !OtpEquals(r.otp, supplied)
  {
    a.(otp := OneTuple(code), otpExpiryTime := Some(now + cfg.otpExpiration))
  }

  /** `set_otp` as evidently intended: the code itself is stored. */
  function SetOtpIntendedStep(a: Account, code: string, now: int, cfg: Settings): (r: Account)
    ensures r.status == a.status && r.failedLoginAttempts == a.failedLoginAttempts
    ensures r.lastFailedLogin == a.lastFailedLogin
    ensures forall supplied :: OtpEquals(r.otp, supplied) <==> supplied == code
    ensures OtpTruthy(r.otp) <==> code != ""
    ensures r.otpExpiryTime == Some(now + cfg.otpExpiration)
  {
    a.(otp := Text(code), otpExpiryTime := Some(now + cfg.otpExpiration))
  }

  /** What `verify_otp` does: it returns True, returns False, or raises
      TypeError when the code matches but no expiry is stored, because
      `None > now` cannot be evaluated (models.py:85). */
  datatype VerifyOutcome = Verified | Rejected | ExpiryCompareError

  /** `verify_otp` (models.py:84-91). */
  function VerifyOtpStep(a: Account, code: string, now: int): (r: (VerifyOutcome, Account))
    ensures r.0 == Verified <==> OtpEquals(a.otp, code) && a.otpExpiryTime.Some? && a.otpExpiryTime.value > now
    ensures r.0 == ExpiryCompareError <==> OtpEquals(a.otp, code) && a.otpExpiryTime == None
    ensures r.0 == Verified ==> r.1 == a.(otp := Text(""), otpExpiryTime := None)
    ensures r.0 != Verified ==> r.1 == a
  {
    if !OtpEquals(a.otp, code) then (Rejected, a)
    else match a.otpExpiryTime
      case None => (ExpiryCompareError, a)
      case Some(expiry) =>
        if expiry > now then (Verified, a.(otp := Text(""), otpExpiryTime := None))
        else (Rejected, a)
  }

  /** Whether a failed attempt on `a` takes the lock branch of
      `handle_failed_login_attempt` (models.py:96). */
  predicate LockBranchTaken(a: Account, cfg: Settings) {
    a.failedLoginAttempts + 1 >= cfg.loginAttempts
  }

  /** `handle_failed_login_attempt` (models.py:93-100). */
  function FailedLoginStep(a: Account, now: int, cfg: Settings): (r: Account)
    ensures r.failedLoginAttempts == a.failedLoginAttempts + 1 && r.lastFailedLogin == Some(now)
    ensures r.status == Locked <==> a.status == Locked || r.failedLoginAttempts >= cfg.loginAttempts
    ensures r.otp == a.otp && r.otpExpiryTime == a.otpExpiryTime
  {
    a.(failedLoginAttempts := a.failedLoginAttempts + 1,
       lastFailedLogin := Some(now),
       status := if LockBranchTaken(a, cfg) then Locked else a.status)
  }

  /** `reset_failed_login_attempts` (models.py:102-106). */
  function ResetStep(a: Account): (r: Account)
    ensures r.status == Active && r.failedLoginAttempts == 0 && r.lastFailedLogin == None
    ensures r.otp == a.otp && r.otpExpiryTime == a.otpExpiryTime
  {
    a.(failedLoginAttempts := 0, lastFailedLogin := None, status := Active)
  }

  /** `unlock_account` (models.py:108-110). */
  function UnlockStep(a: Account): (r: Account)
    ensures a.status == Active ==> r == a
    ensures a.status == Locked ==> r.status == Active && r.failedLoginAttempts == 0 && r.lastFailedLogin == None
    ensures r.otp == a.otp && r.otpExpiryTime == a.otpExpiryTime
  {
    if a.status == Locked then ResetStep(a) else a
  }

  /** Whether the lockout of `a` has run out at `now` (models.py:113-117). */
  predicate LockoutExpired(a: Account, now: int, cfg: Settings) {
    a.status == Locked && a.lastFailedLogin.Some? && now - a.lastFailedLogin.value > cfg.lockoutDuration
  }

  /** `unlock_if_expired` (models.py:112-120). */
  function UnlockIfExpiredStep(a: Account, now: int, cfg: Settings): (r: (bool, Account))
    ensures r.0 <==> a.status == Locked && a.lastFailedLogin.Some? && now - a.lastFailedLogin.value > cfg.lockoutDuration
    ensures r.0 ==> r.1.status == Active && r.1.failedLoginAttempts == 0 && r.1.lastFailedLogin == None
    ensures !r.0 ==> r.1 == a
    ensures r.1.otp == a.otp && r.1.otpExpiryTime == a.otpExpiryTime
  {
    if LockoutExpired(a, now, cfg) then (true, UnlockStep(a)) else (false, a)
  }

  /** The account after a failed login attempt at each of `times`, in order. */
  function FailedRun(a: Account, times: seq<int>, cfg: Settings): Account
    decreases |times|
  {
    if times == [] then a else FailedRun(FailedLoginStep(a, times[0], cfg), times[1..], cfg)
  }

  /** How many of the attempts of `FailedRun` take the lock branch, each of
      which calls the lock notification. */
  function LockBranchesInRun(a: Account, times: seq<int>, cfg: Settings): nat
    decreases |times|
  {
    if times == [] then 0
    else (if LockBranchTaken(a, cfg) then 1 else 0)
         + LockBranchesInRun(FailedLoginStep(a, times[0], cfg), times[1..], cfg)
  }

  // ---------------------------------------------------------------------
  // The user object
  // ---------------------------------------------------------------------

  /** CustomUser (models.py:11-139), restricted to the fields the state
      machine and the getters use. Persisting (`self.save()`) is not
      modelled: the fields are the state. */
  class CustomUser {
    const settings: Settings
    var firstName: string
    var lastName: string
    var role: Role
    var accountStatus: AccountStatus
    var failedLoginAttempts: nat
    var lastFailedLogin: Option<int>
    var otp: StoredOtp
    var otpExpiryTime: Option<int>
    /** Lock notifications delivered; only the corrected failed-login
        handler delivers any, since the source's call raises first. */
    var lockNotices: nat

    /** The authentication columns as one value. */
    function State(): Account
      reads this
    {
      Account(accountStatus, failedLoginAttempts, lastFailedLogin, otp, otpExpiryTime)
    }

    /** A new user with the field defaults (models.py:53-66). */
    constructor (firstName: string, lastName: string, settings: Settings)
      ensures this.firstName == firstName && this.lastName == lastName
      ensures this.settings == settings && role == Customer && lockNotices == 0
      ensures State() == NewAccount && Consistent(State(), settings)
    {
      this.firstName := firstName;
      this.lastName := lastName;
      this.settings := settings;
      role := Customer;
      accountStatus := Active;
      failedLoginAttempts := 0;
      lastFailedLogin := None;
      otp := NoOtp;
      otpExpiryTime := None;
      lockNotices := 0;
    }

    /** `set_otp` (models.py:79-82), as written: the trailing comma makes
        the stored value the tuple `(code,)`. Any earlier code is
        overwritten. */
    method SetOtp(code: string, now: int)
      modifies this`otp, this`otpExpiryTime
      ensures otp == OneTuple(code)
      ensures otpExpiryTime == Some(now + settings.otpExpiration)
      ensures State() == SetOtpStep(old(State()), code, now, settings)
      ensures Consistent(old(State()), settings) ==> Consistent(State(), settings)
    {
      otp := OneTuple(code);
      otpExpiryTime := Some(now + settings.otpExpiration);
    }

    /** `set_otp` without the trailing comma: the code itself is stored. */
    method SetOtpIntended(code: string, now: int)
      modifies this`otp, this`otpExpiryTime
      ensures otp == Text(code)
      ensures otpExpiryTime == Some(now + settings.otpExpiration)
      ensures State() == SetOtpIntendedStep(old(State()), code, now, settings)
      ensures Consistent(old(State()), settings) ==> Consistent(State(), settings)
    {
      otp := Text(code);
      otpExpiryTime := Some(now + settings.otpExpiration);
    }

    /** `verify_otp` (models.py:84-91): succeeds exactly when the stored otp
        equals `code` and its expiry lies strictly after `now`; success
        clears the otp to "" and the expiry to None, anything else changes
        nothing. A matching code with no stored expiry raises TypeError. */
    method VerifyOtp(code: string, now: int) returns (outcome: VerifyOutcome)
      modifies this`otp, this`otpExpiryTime
      ensures outcome == Verified <==>
                OtpEquals(old(otp), code) && old(otpExpiryTime).Some? && old(otpExpiryTime).value > now
      ensures outcome == ExpiryCompareError <==> OtpEquals(old(otp), code) && old(otpExpiryTime) == None
      ensures outcome == Verified ==> otp == Text("") && otpExpiryTime == None
      ensures outcome != Verified ==> otp == old(otp) && otpExpiryTime == old(otpExpiryTime)
      ensures (outcome, State()) == VerifyOtpStep(old(State()), code, now)
      ensures Consistent(old(State()), settings) ==> Consistent(State(), settings)
    {
      if otp == Text(code) {
        match otpExpiryTime {
          case None =>
            outcome := ExpiryCompareError;
          case Some(expiry) =>
            if expiry > now {
              otp := Text("");
              otpExpiryTime := None;
              outcome := Verified;
            } else {
              outcome := Rejected;
            }
        }
      } else {
        outcome := Rejected;
      }
    }

    /** `handle_failed_login_attempt` (models.py:93-100), as written. The
        counter grows by one and the failure time is recorded; at or past
        the threshold the account is locked, whether or not it already
        was. The lock branch then calls `send_account_locked_email(self)`
        with one of its two arguments (emails.py:29), so it raises
        TypeError after the locked state was saved: `raised` says so. */
    method HandleFailedLoginAttempt(now: int) returns (raised: bool)
      modifies this`failedLoginAttempts, this`lastFailedLogin, this`accountStatus
      ensures failedLoginAttempts == old(failedLoginAttempts) + 1
      ensures lastFailedLogin == Some(now)
      ensures accountStatus == if failedLoginAttempts >= settings.loginAttempts then Locked else old(accountStatus)
      ensures raised <==> failedLoginAttempts >= settings.loginAttempts
      ensures State() == FailedLoginStep(old(State()), now, settings)
      ensures Consistent(old(State()), settings) ==> Consistent(State(), settings)
    {
      failedLoginAttempts := failedLoginAttempts + 1;
      lastFailedLogin := Some(now);
      raised := false;
      if failedLoginAttempts >= settings.loginAttempts {
        accountStatus := Locked;
        raised := true;
      }
    }

    /** `handle_failed_login_attempt` with the notification call given the
        user's address: every failure at or past the threshold delivers one
        lock notice and nothing is raised. */
    method HandleFailedLoginAttemptIntended(now: int)
      modifies this`failedLoginAttempts, this`lastFailedLogin, this`accountStatus, this`lockNotices
      ensures failedLoginAttempts == old(failedLoginAttempts) + 1
      ensures lastFailedLogin == Some(now)
      ensures accountStatus == if failedLoginAttempts >= settings.loginAttempts then Locked else old(accountStatus)
      ensures lockNotices == old(lockNotices) + if failedLoginAttempts >= settings.loginAttempts then 1 else 0
      ensures State() == FailedLoginStep(old(State()), now, settings)
      ensures Consistent(old(State()), settings) ==> Consistent(State(), settings)
    {
      failedLoginAttempts := failedLoginAttempts + 1;
      lastFailedLogin := Some(now);
      if failedLoginAttempts >= settings.loginAttempts {
        accountStatus := Locked;
        lockNotices := lockNotices + 1;
      }
    }

    /** `reset_failed_login_attempts` (models.py:102-106). */
    method ResetFailedLoginAttempts()
      modifies this`failedLoginAttempts, this`lastFailedLogin, this`accountStatus
      ensures failedLoginAttempts == 0 && lastFailedLogin == None && accountStatus == Active
      ensures State() == ResetStep(old(State()))
      ensures Consistent(old(State()), settings) ==> Consistent(State(), settings)
    {
      failedLoginAttempts := 0;
      lastFailedLogin := None;
      accountStatus := Active;
    }

    /** The `is_locked` property (models.py:122-124); in a consistent
        user it says that the counter has reached the threshold. */
    predicate IsLocked()
      reads this
      ensures Consistent(State(), settings) ==> (IsLocked() <==> failedLoginAttempts >= settings.loginAttempts)
    {
      accountStatus == Locked
    }

    /** `unlock_account` (models.py:108-110): resets only a locked account. */
    method UnlockAccount()
      modifies this`failedLoginAttempts, this`lastFailedLogin, this`accountStatus
      ensures old(IsLocked()) ==> failedLoginAttempts == 0 && lastFailedLogin == None && accountStatus == Active
      ensures !old(IsLocked()) ==> State() == old(State())
      ensures State() == UnlockStep(old(State()))
      ensures Consistent(old(State()), settings) ==> Consistent(State(), settings)
    {
      if IsLocked() {
        ResetFailedLoginAttempts();
      }
    }

    /** `unlock_if_expired` (models.py:112-120): unlocks and answers true
        exactly when the account is locked, a failure time is recorded and
        strictly more than the lockout duration has passed since it. */
    method UnlockIfExpired(now: int) returns (unlocked: bool)
      modifies this`failedLoginAttempts, this`lastFailedLogin, this`accountStatus
      ensures unlocked <==> old(accountStatus) == Locked && old(lastFailedLogin).Some?
                            && now - old(lastFailedLogin).value > settings.lockoutDuration
      ensures unlocked ==> failedLoginAttempts == 0 && lastFailedLogin == None && accountStatus == Active
      ensures !unlocked ==> State() == old(State())
      ensures (unlocked, State()) == UnlockIfExpiredStep(old(State()), now, settings)
      ensures Consistent(old(State()), settings) ==> Consistent(State(), settings)
    {
      unlocked := false;
      if IsLocked() && lastFailedLogin.Some? {
        if now - lastFailedLogin.value > settings.lockoutDuration {
          UnlockAccount();
          unlocked := true;
        }
      }
    }

    /** The `full_name` property (models.py:126-128): the first name and the
        last name joined by one space, from which both can be read back. */
    function FullName(): (r: string)
      reads this
      ensures |r| == |firstName| + 1 + |lastName|
      ensures r[..|firstName|] == firstName && r[|firstName|] == ' '
      ensures r[|firstName| + 1..] == lastName
    {
      firstName + " " + lastName
    }

    /** `has_role` (models.py:135-136). The `role` attribute always exists,
        so the `hasattr` test is always true. */
    predicate HasRole(roleName: string)
      reads this
      ensures HasRole(roleName) ==> roleName in {"customer", "account_executive", "teller", "branch_manager"}
    {
      role.Value() == roleName
    }
  }

  // ---------------------------------------------------------------------
  // Properties
  // ---------------------------------------------------------------------

  /** Every operation keeps `Consistent`, and a new user satisfies it. */
  lemma ConsistentIsInvariant(a: Account, cfg: Settings, code: string, now: int)
    requires Consistent(a, cfg)
    ensures Consistent(NewAccount, cfg)
    ensures Consistent(SetOtpStep(a, code, now, cfg), cfg)
    ensures Consistent(SetOtpIntendedStep(a, code, now, cfg), cfg)
    ensures Consistent(VerifyOtpStep(a, code, now).1, cfg)
    ensures Consistent(FailedLoginStep(a, now, cfg), cfg)
    ensures Consistent(ResetStep(a), cfg)
    ensures Consistent(UnlockStep(a), cfg)
    ensures Consistent(UnlockIfExpiredStep(a, now, cfg).1, cfg)
  {
  }

  /** In a consistent account `verify_otp` raises only for the empty code,
      and only on an account whose otp is "": a truthy otp always has its
      expiry, so `None > now` is reached only after a success cleared it. */
  lemma ExpiryErrorOnlyForEmptyCode(a: Account, code: string, now: int, cfg: Settings)
    requires Consistent(a, cfg)
    ensures VerifyOtpStep(a, code, now).0 == ExpiryCompareError ==> code == "" && a.otp == Text("")
  {
  }

  /** A new `set_otp` replaces whatever code and expiry were there before. */
  lemma SetOtpOverwrites(a: Account, first: string, t1: int, second: string, t2: int, cfg: Settings)
    ensures SetOtpStep(SetOtpStep(a, first, t1, cfg), second, t2, cfg) == SetOtpStep(a, second, t2, cfg)
    ensures SetOtpStep(a, second, t2, cfg).otpExpiryTime == Some(t2 + cfg.otpExpiration)
  {
  }

  /** As written, no code set by `set_otp` can ever be verified: the stored
      tuple equals no string. */
  lemma SetOtpNeverVerifies(a: Account, code: string, t: int, supplied: string, now: int, cfg: Settings)
    ensures VerifyOtpStep(SetOtpStep(a, code, t, cfg), supplied, now).0 == Rejected
    ensures VerifyOtpStep(SetOtpStep(a, code, t, cfg), supplied, now).1 == SetOtpStep(a, code, t, cfg)
  {
  }

  /** With the code stored as a string, the issued code verifies exactly
      while `now` is before the expiry; verifying clears it, and a second
      verification of the same non-empty code fails. */
  lemma SetOtpIntendedRoundTrip(a: Account, code: string, t: int, now: int, later: int, cfg: Settings)
    ensures (VerifyOtpStep(SetOtpIntendedStep(a, code, t, cfg), code, now).0 == Verified)
              == (now < t + cfg.otpExpiration)
    ensures cfg.otpExpiration > 0 ==> VerifyOtpStep(SetOtpIntendedStep(a, code, t, cfg), code, t).0 == Verified
    ensures var (o, b) := VerifyOtpStep(SetOtpIntendedStep(a, code, t, cfg), code, now);
            code != "" && o == Verified ==> VerifyOtpStep(b, code, later).0 == Rejected
  {
  }

  /** A successful verification spends the code: its otp is falsy with no
      expiry, a second verification of any non-empty code fails without
      changing anything, and the lockout columns are untouched. */
  lemma VerifiedOtpIsSpent(a: Account, code: string, now: int, again: string, later: int)
    requires VerifyOtpStep(a, code, now).0 == Verified
    requires again != ""
    ensures var b := VerifyOtpStep(a, code, now).1;
            && !OtpTruthy(b.otp) && b.otpExpiryTime == None
            && b.status == a.status && b.failedLoginAttempts == a.failedLoginAttempts
            && b.lastFailedLogin == a.lastFailedLogin
            && VerifyOtpStep(b, again, later) == (Rejected, b)
  {
  }

  /** Verifying the empty code after a success raises: the stored otp is ""
      and the expiry None, so `None > now` is evaluated. */
  lemma EmptyCodeAfterSuccessRaises(a: Account, code: string, now: int, later: int)
    requires VerifyOtpStep(a, code, now).0 == Verified
    ensures VerifyOtpStep(VerifyOtpStep(a, code, now).1, "", later).0 == ExpiryCompareError
  {
  }

  /** After a run of failed attempts the counter has grown by the run's
      length, the last failure time is the last attempt's, the otp columns
      are untouched, and the account is locked exactly when the run is
      non-empty and the final count reaches the threshold (or it was
      locked before). */
  lemma {:induction false} FailedRunEffect(a: Account, times: seq<int>, cfg: Settings)
    ensures var b := FailedRun(a, times, cfg);
            && b.failedLoginAttempts == a.failedLoginAttempts + |times|
            && b.lastFailedLogin == (if times == [] then a.lastFailedLogin else Some(times[|times| - 1]))
            && b.otp == a.otp && b.otpExpiryTime == a.otpExpiryTime
            && b.status == (if times != [] && a.failedLoginAttempts + |times| >= cfg.loginAttempts
                            then Locked else a.status)
    decreases |times|
  {
    if times != [] {
      var next := FailedLoginStep(a, times[0], cfg);
      FailedRunEffect(next, times[1..], cfg);
      if times[1..] != [] {
        assert times[1..][|times[1..]| - 1] == times[|times| - 1];
      }
    }
  }

  /** Fewer failures than the threshold, from a clear active account,
      leave it active with exactly that many failures counted; reaching
      the threshold locks it with the count equal to the run's length. */
  lemma FailuresFromClearAccount(times: seq<int>, cfg: Settings)
    ensures |times| < cfg.loginAttempts ==>
              FailedRun(NewAccount, times, cfg).status == Active
              && FailedRun(NewAccount, times, cfg).failedLoginAttempts == |times|
    ensures |times| >= cfg.loginAttempts ==>
              FailedRun(NewAccount, times, cfg).status == Locked
              && FailedRun(NewAccount, times, cfg).failedLoginAttempts == |times|
  {
    FailedRunEffect(NewAccount, times, cfg);
  }

  /** The lock branch, and with it the notification, fires on every failure
      from the one that reaches the threshold onwards, not once: from a
      counter `c`, a run of `n` failures takes it `n - m` times when `n`
      exceeds the `m` failures still allowed, and never otherwise. */
  lemma {:induction false} LockBranchesCount(a: Account, times: seq<int>, cfg: Settings)
    ensures var m := if a.failedLoginAttempts + 1 >= cfg.loginAttempts then 0
                     else cfg.loginAttempts - a.failedLoginAttempts - 1;
            LockBranchesInRun(a, times, cfg) == if |times| > m then |times| - m else 0
    decreases |times|
  {
    if times != [] {
      LockBranchesCount(FailedLoginStep(a, times[0], cfg), times[1..], cfg);
    }
  }

  /** `reset_failed_login_attempts` clears the counter, the failure time and
      the lock, touches no otp column, and doing it twice is doing it once;
      `unlock_account` is a no-op on an active account. */
  lemma ResetAndUnlock(a: Account)
    ensures ResetStep(ResetStep(a)) == ResetStep(a)
    ensures ResetStep(a).otp == a.otp && ResetStep(a).otpExpiryTime == a.otpExpiryTime
    ensures a.status == Active ==> UnlockStep(a) == a
    ensures a.status == Locked ==> UnlockStep(a) == ResetStep(a)
  {
  }

  /** A lockout triggered by a failure at `t` lasts: `unlock_if_expired`
      answers false and changes nothing up to and including
      `t + lockoutDuration`, and from any later time answers true and
      leaves an active account with a zero counter. */
  lemma LockoutLastsItsDuration(a: Account, t: int, now: int, cfg: Settings)
    requires LockBranchTaken(a, cfg)
    ensures var locked := FailedLoginStep(a, t, cfg);
            && locked.status == Locked
            && (now <= t + cfg.lockoutDuration ==> UnlockIfExpiredStep(locked, now, cfg) == (false, locked))
            && (now > t + cfg.lockoutDuration ==>
                  UnlockIfExpiredStep(locked, now, cfg).0
                  && UnlockIfExpiredStep(locked, now, cfg).1 == ResetStep(locked))
  {
  }

  /** Once `unlock_if_expired` would succeed at some time, it would also
      succeed at any later time: a lockout, once expired, stays expired. */
  lemma LockoutExpiryIsMonotone(a: Account, now: int, later: int, cfg: Settings)
    requires UnlockIfExpiredStep(a, now, cfg).0 && now <= later
    ensures UnlockIfExpiredStep(a, later, cfg).0
  {
  }

  /** Five failures a few seconds apart with a threshold of five and a
      thirty-minute lockout: locked with count five after the fifth; still
      locked ten minutes later; active with count zero thirty-one minutes
      later. Times are in seconds. */
  lemma LockoutScenario()
    ensures var cfg: Settings := AuthSettings(300, 5, 1800);
            var b := FailedRun(NewAccount, [0, 3, 6, 9, 12], cfg);
            && b.status == Locked && b.failedLoginAttempts == 5
            && UnlockIfExpiredStep(b, 12 + 600, cfg) == (false, b)
            && UnlockIfExpiredStep(b, 12 + 1860, cfg).0
            && UnlockIfExpiredStep(b, 12 + 1860, cfg).1.status == Active
            && UnlockIfExpiredStep(b, 12 + 1860, cfg).1.failedLoginAttempts == 0
  {
  }

  /** `has_role` holds for the string of the user's own role and for the
      string of no other role. */
  lemma HasRoleSelectsOwnRole(u: CustomUser, other: Role)
    ensures u.HasRole(other.Value()) <==> other == u.role
  {
  }
}
