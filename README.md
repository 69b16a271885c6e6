# Account authentication and KYC rules of a Django banking API, in Dafny

This project models the authentication core of a banking web application's
user accounts, together with the validation rules around it:

- **`UserAuth`** (`user_auth.dfy`): the state machine on `CustomUser`.
  It covers issuing and verifying a one-time password (OTP) with an expiry,
  counting failed logins, locking the account at a threshold, and
  unlocking it. Unlocking is either manual or happens once the lockout
  duration has passed. Each operation is a pure `...Step` function on the
  five authentication columns (`Account`). The class `CustomUser` holds
  those columns as fields, updates them step by step as the source does,
  and its methods promise to agree with the `Step` functions. The invariant
  `Consistent` says: locked exactly when the counter reached the threshold;
  a failure time exactly when the counter is non-zero; a truthy OTP always
  has an expiry.
- **`UserAuthForms`** (`user_auth_forms.dfy`): the admin forms' validators.
  Email and ID-number must be unique among existing users; the change form
  leaves out the user being edited. A non-superuser must give a security
  question and answer.
- **`UserProfile`** (`user_profile.dfy`): the KYC profile rules. The ID
  expiry date may not precede the issue date. A profile is complete when
  eighteen columns are truthy and it has a next-of-kin. A profile may have
  at most one primary next-of-kin. The class `KycStore` holds the two
  tables; its `save` methods validate before storing, so its invariant
  `Valid` holds of every store built through them.
- **`Wrappers`** (`wrappers.dfy`): `Option`, `Result` and `Outcome`.

Time is an integer `now` given by the caller in place of `timezone.now()`.
The settings `OTP_EXPIRATION`, `LOGIN_ATTEMPTS` and `LOCKOUT_DURATION` are
not defined in config/settings/base.py. They are a `Settings` value
(durations as `nat`, a positive threshold) given to the `CustomUser`
constructor. A validator that raises `ValidationError` returns `Failure` or
`Fail`.

Python quirks the model keeps, as the code has them:

- `set_otp` stores the tuple `(otp,)` because of a trailing comma
  (models.py:80). A tuple never equals a string, so no code it stores can
  ever be verified.
- A successful `verify_otp` sets `otp` to `""` but the expiry to `None`.
  Verifying the empty code afterwards evaluates `None > now` and raises
  `TypeError` (`ExpiryCompareError`).
- `handle_failed_login_attempt` does not look at `is_locked`. The counter
  keeps growing past the threshold, and the lock branch runs again on every
  later failure.
- That branch calls `send_account_locked_email(self)` with one of the
  function's two arguments (emails.py:29), so it raises `TypeError` after
  the locked state was saved.

## Model

| member | source | states |
|---|---|---|
| `UserAuth.CustomUser.constructor` | core_apps/user_auth/models.py:53-66 | a new user is active, with no failures, no failure time, no OTP and no expiry, has the customer role, and satisfies `Consistent` |
| `UserAuth.SetOtpStep` | core_apps/user_auth/models.py:79-82 | `set_otp` as written: the lockout columns are unchanged, the otp is truthy with expiry `now + OTP_EXPIRATION`, and it equals no string |
| `UserAuth.SetOtpIntendedStep` | core_apps/user_auth/models.py:79-82 | the corrected `set_otp`: the lockout columns are unchanged, the otp equals exactly the issued code, is truthy iff the code is non-empty, and expires at `now + OTP_EXPIRATION` |
| `UserAuth.VerifyOtpStep` | core_apps/user_auth/models.py:84-91 | verified iff the otp equals the code and its expiry is after `now`, then both OTP columns are cleared and nothing else changes; the TypeError iff the code matches with no expiry; every non-success leaves the account unchanged |
| `UserAuth.FailedLoginStep` | core_apps/user_auth/models.py:93-100 | the counter grows by one and the failure time is `now`; the result is locked iff the account was locked or the new count reached the threshold; the OTP columns are unchanged |
| `UserAuth.ResetStep` | core_apps/user_auth/models.py:102-106 | active, count 0, no failure time; the OTP columns are unchanged |
| `UserAuth.UnlockStep` | core_apps/user_auth/models.py:108-110 | an active account is unchanged; a locked one becomes active with count 0 and no failure time; the OTP columns are unchanged |
| `UserAuth.UnlockIfExpiredStep` | core_apps/user_auth/models.py:112-120 | true iff locked with a failure time more than the lockout duration before `now`, and then active with count 0 and no failure time; false leaves the account unchanged |
| `UserAuth.CustomUser.SetOtp` | core_apps/user_auth/models.py:79-82 | stores the tuple `(code,)` and the expiry `now + OTP_EXPIRATION`, overwriting any earlier code; no other field changes; keeps `Consistent` |
| `UserAuth.CustomUser.SetOtpIntended` | core_apps/user_auth/models.py:79-82 | the corrected `set_otp`: stores the code itself and the same expiry; keeps `Consistent` |
| `UserAuth.CustomUser.VerifyOtp` | core_apps/user_auth/models.py:84-91 | succeeds iff the stored OTP equals the code and its expiry is strictly after `now`; success clears the OTP to `""` and the expiry to None; otherwise nothing changes; a matching code with no expiry raises; keeps `Consistent` |
| `UserAuth.CustomUser.HandleFailedLoginAttempt` | core_apps/user_auth/models.py:93-100 | the counter grows by exactly one and the failure time becomes `now`; at or past the threshold the status becomes locked and the call raises, below it the status is unchanged; keeps `Consistent` |
| `UserAuth.CustomUser.HandleFailedLoginAttemptIntended` | core_apps/user_auth/models.py:93-100 | the same state change, with one lock notice delivered on every failure at or past the threshold and nothing raised; keeps `Consistent` |
| `UserAuth.CustomUser.ResetFailedLoginAttempts` | core_apps/user_auth/models.py:102-106 | counter 0, no failure time, status active; OTP fields untouched; keeps `Consistent` |
| `UserAuth.CustomUser.UnlockAccount` | core_apps/user_auth/models.py:108-110 | resets a locked account and leaves an active one unchanged; keeps `Consistent` |
| `UserAuth.CustomUser.UnlockIfExpired` | core_apps/user_auth/models.py:112-120 | answers true iff locked, a failure time is set and strictly more than the lockout duration has passed; then the account is active with count 0; otherwise nothing changes; keeps `Consistent` |
| `UserAuth.CustomUser.IsLocked` | core_apps/user_auth/models.py:122-124 | in a consistent user, `is_locked` holds iff the counter has reached the threshold |
| `UserAuth.CustomUser.FullName` | core_apps/user_auth/models.py:126-128 | the first name, one space, the last name; given the first name's length, both names can be read back |
| `UserAuth.CustomUser.HasRole` | core_apps/user_auth/models.py:135-136 | only the stored string of one of the four roles can be answered true |
| `UserAuth.HasRoleSelectsOwnRole` | core_apps/user_auth/models.py:135-136 | `has_role` holds for the user's own role string and for no other role's |
| `UserAuth.ConsistentIsInvariant` | core_apps/user_auth/models.py:79-120 | a new account is `Consistent` and every operation keeps it so |
| `UserAuth.ExpiryErrorOnlyForEmptyCode` | core_apps/user_auth/models.py:84-88 | in a consistent account, `verify_otp` raises only for the empty code on an account whose otp is `""` |
| `UserAuth.SetOtpOverwrites` | core_apps/user_auth/models.py:79-82 | a second `set_otp` replaces the first one's code and expiry |
| `UserAuth.SetOtpNeverVerifies` | core_apps/user_auth/models.py:79-91 | after `set_otp` as written, every verification fails and changes nothing, whatever code and time |
| `UserAuth.SetOtpIntendedRoundTrip` | core_apps/user_auth/models.py:79-91 | with the corrected `set_otp`, the issued code verifies iff `now` is before the expiry (so at issue time when the window is positive), and a second verification of the same non-empty code fails |
| `UserAuth.VerifiedOtpIsSpent` | core_apps/user_auth/models.py:84-91 | after a success the OTP is falsy with no expiry, the lockout columns are unchanged, and verifying any non-empty code fails without change |
| `UserAuth.EmptyCodeAfterSuccessRaises` | core_apps/user_auth/models.py:84-88 | after a success, verifying `""` raises, since the expiry is None |
| `UserAuth.FailedRunEffect` | core_apps/user_auth/models.py:93-100 | after n failures the counter grew by n, the failure time is the last attempt's, the OTP is untouched, and the account is locked iff it was, or the final count reached the threshold |
| `UserAuth.FailuresFromClearAccount` | core_apps/user_auth/models.py:93-100 | from a new account, fewer than threshold failures leave it active with count n; threshold or more lock it with count n |
| `UserAuth.LockBranchesCount` | core_apps/user_auth/models.py:96-99 | over a run of n failures the lock branch and its notification run n - m times, with m the failures still allowed, so repeatedly after the threshold |
| `UserAuth.ResetAndUnlock` | core_apps/user_auth/models.py:102-110 | reset is idempotent and keeps the OTP fields; unlock is a no-op when active and a reset when locked |
| `UserAuth.LockoutLastsItsDuration` | core_apps/user_auth/models.py:93-120 | after a locking failure at t, `unlock_if_expired` is false and changes nothing up to t + duration, and true with a reset after it |
| `UserAuth.LockoutExpiryIsMonotone` | core_apps/user_auth/models.py:112-120 | once `unlock_if_expired` would succeed, it would succeed at any later time |
| `UserAuth.LockoutScenario` | core_apps/user_auth/models.py:93-120 | five failures with threshold 5 and a 30-minute lockout: locked with count 5; still locked 10 minutes later; active with count 0 at 31 minutes |
| `UserAuthForms.CreationCleanEmail` | core_apps/user_auth/forms.py:26-30 | passes iff no user has the email, and then returns it unchanged; otherwise the duplicate-email error |
| `UserAuthForms.CreationCleanIdNo` | core_apps/user_auth/forms.py:32-36 | passes iff no user has the ID number, and then returns it unchanged |
| `UserAuthForms.ChangeCleanEmail` | core_apps/user_auth/forms.py:71-75 | passes iff no user other than the edited one has the email, and then returns it unchanged |
| `UserAuthForms.ChangeCleanIdNo` | core_apps/user_auth/forms.py:77-81 | passes iff no user other than the edited one has the ID number, and then returns it unchanged |
| `UserAuthForms.CleanSecurity` | core_apps/user_auth/forms.py:38-48 | fails iff the user is not a superuser and the security question or answer is missing or empty; on success the cleaned data comes back unchanged |
| `UserAuthForms.SuperuserAlwaysPasses` | core_apps/user_auth/forms.py:83-93 | the change form's identical `clean` passes every superuser, whatever the security fields hold |
| `UserAuthForms.ChangeFormWithoutInstanceIsCreationForm` | core_apps/user_auth/forms.py:71-81 | when the edited user is not in the table, the change form's validators answer as the creation form's |
| `UserAuthForms.CreationKeepsUnique` | core_apps/user_auth/forms.py:26-36 | adding a user whose email and ID number passed keeps both columns unique |
| `UserAuthForms.KeepingOwnValuePasses` | core_apps/user_auth/forms.py:71-81 | keeping one's own email or ID number passes; an email held by another user fails |
| `UserAuthForms.ChangeKeepsUnique` | core_apps/user_auth/forms.py:71-75 | changing a user's email to one that passed keeps the column unique |
| `UserProfile.ProfileClean` | core_apps/user_profile/models.py:162-166 | passes iff, when both dates are set, the expiry is not before the issue date |
| `UserProfile.ProfileDateBoundary` | core_apps/user_profile/models.py:164-166 | equal dates pass; an expiry one day before the issue fails |
| `UserProfile.AllMeansNoFalse` | core_apps/user_profile/models.py:194 | Python's `all` is true iff no element is false |
| `UserProfile.IsCompleteWithNextOfKin` | core_apps/user_profile/models.py:172-194 | complete iff no required column is falsy and some next-of-kin belongs to the profile |
| `UserProfile.CompleteIffFieldsAndKin` | core_apps/user_profile/models.py:172-194 | complete iff each of the eighteen listed columns is truthy and some next-of-kin belongs to the profile |
| `UserProfile.NoKinNeverComplete` | core_apps/user_profile/models.py:194 | with no next-of-kin a profile is never complete, even after adding another profile's next-of-kin |
| `UserProfile.KinClean` | core_apps/user_profile/models.py:223-231 | passes iff the row is not primary or every primary row of its profile is the row itself |
| `UserProfile.KinCleanCases` | core_apps/user_profile/models.py:223-231 | a non-primary row always passes; a primary row fails when another primary row of its profile is stored under another key |
| `UserProfile.ExistingPrimaryRevalidates` | core_apps/user_profile/models.py:225-229 | re-validating a stored row under its own key passes |
| `UserProfile.SavedKinKeepsSinglePrimary` | core_apps/user_profile/models.py:240-249 | storing a row that passed `clean` keeps one primary per profile, so the unique constraint is never violated |
| `UserProfile.KycStore.SaveProfile` | core_apps/user_profile/models.py:168-170 | stores the profile iff `clean` passes, under its key or a fresh one, and otherwise changes nothing; keeps `Valid` |
| `UserProfile.KycStore.SaveNextOfKin` | core_apps/user_profile/models.py:233-235 | stores the row iff `clean` passes against the stored rows, and otherwise changes nothing; keeps `Valid` |

## Findings

| source | as written | input that shows it | evidently intended | confidence | as-written member | corrected member |
|---|---|---|---|---|---|---|
| core_apps/user_auth/models.py:80 | `self.otp = otp,` stores the tuple `(otp,)` | `set_otp("123456")`: the in-memory object holds the tuple, and `verify_otp("123456")` before the expiry returns False; on PostgreSQL (config/settings/base.py:86) the `save()` at line 82 already raises DataError, because the tuple's text `('123456',)` has 11 characters and the column 6 | store the string, so the issued code verifies until it expires | high; not executed | `UserAuth.SetOtpNeverVerifies` | `UserAuth.SetOtpIntendedRoundTrip` |
| core_apps/user_auth/models.py:99 | `send_account_locked_email(self)` passes one argument to a two-argument function | the `LOGIN_ATTEMPTS`-th failed login raises TypeError, after the lock is saved | pass the user's email as the second argument, so a notice goes out and nothing is raised | high; not executed | `UserAuth.CustomUser.HandleFailedLoginAttempt` | `UserAuth.CustomUser.HandleFailedLoginAttemptIntended` |

## Left out

- Persistence: `self.save()` and the ORM queries are not modelled. The fields and the in-memory tables are the state.
- UserAuth.CustomUser.SetOtp: the DataError raised by `self.save()` is not modelled. Django saves the tuple as its text, such as `('123456',)`, which is longer than the six-character PostgreSQL column for any code of two or more characters. The model keeps the in-memory tuple and expiry, as the object holds them before the save.
- UserAuth.CustomUser.HandleFailedLoginAttempt: `failed_login_attempts` is a `nat`. The column's 32767 cap, which the unbounded growth past the threshold could reach, is not modelled.
- Email sending: template rendering and SMTP are not modelled. The lock notification is the `lockNotices` counter; the OTP email is never called by the core.
- Time zones and `datetime` arithmetic: times are integers, and durations are integers of the same unit.
- UserProfile.KycStore.SaveProfile: of `full_clean` only `Profile.clean` is modelled. `clean_fields` (a blank required column such as `marital_status`, choices, max_length), `validate_unique` (a second profile for the same user, models.py:48) and `validate_constraints` would also reject rows the model stores.
- UserProfile.KycStore.SaveNextOfKin: of `full_clean` only `NextOfKin.clean` is modelled. `clean_fields` (blank required names, max_length, foreign-key existence) and `validate_constraints` would also reject rows the model stores.
- Django's own form and model validation (`super().clean()` and password matching, `clean_fields`: blank, choices, max_length, foreign-key existence) is not modelled. Nor is the `validate_constraints` step of `full_clean` or the user-to-profile one-to-one uniqueness. Only the source's own `clean` methods are modelled.
- UserProfile.IsCompleteWithNextOfKin: country, phone-number and Cloudinary media columns are modelled as their text. Each is truthy when non-empty, standing in for the library objects' own truthiness.
- NextOfKin and Profile columns that no rule reads (contact details, employer fields, `annual_income`, photo URLs) are left out.
- Password hashing, the security-question choices, `__str__` methods, the user manager and the form `save` methods are persistence or presentation glue.
- Concurrency: each operation runs alone, as the source assumes.
