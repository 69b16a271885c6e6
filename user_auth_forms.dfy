/** The validators of the admin user forms (core_apps/user_auth/forms.py):
    email and ID-number uniqueness against the existing users, and the
    security question and answer demanded of non-superusers.

    The user table is a sequence of `UserRecord`s; `filter(...).exists()`
    becomes a quantifier over it. A validator that raises ValidationError
    returns `Failure`, one that returns its value returns `Success`. */
module UserAuthForms {
  import opened Wrappers

  /** The columns of a user that the validators look at. */
  datatype UserRecord = UserRecord(pk: nat, email: string, idNo: string)

  /** The column a uniqueness validator filters on. */
  datatype Column = Email | IdNo

  function Get(u: UserRecord, c: Column): string {
    match c
    case Email => u.email
    case IdNo => u.idNo
  }

  datatype FormError = DuplicateEmail | DuplicateIdNo | MissingSecurityAnswer

  /** `User.objects[.exclude(pk=excluded)].filter(<column>=value).exists()`. */
  predicate Taken(users: seq<UserRecord>, excluded: Option<nat>, c: Column, value: string) {
    exists i :: 0 <= i < |users| && Some(users[i].pk) != excluded && Get(users[i], c) == value
  }

  /** No two users share a value of the column. */
  predicate Unique(users: seq<UserRecord>, c: Column) {
    forall i, j :: 0 <= i < |users| && 0 <= j < |users| && Get(users[i], c) == Get(users[j], c) ==> i == j
  }

  /** `UserCreationForm.clean_email` (forms.py:26-30). */
  function CreationCleanEmail(users: seq<UserRecord>, email: string): (r: Result<string, FormError>)
    ensures r.Success? <==> forall u :: u in users ==> u.email != email
    ensures r.Success? ==> r.value == email
    ensures r.Failure? ==> r.error == DuplicateEmail
  {
    if Taken(users, None, Email, email) then Failure(DuplicateEmail) else Success(email)
  }

  /** `UserCreationForm.clean_id_no` (forms.py:32-36). */
  function CreationCleanIdNo(users: seq<UserRecord>, idNo: string): (r: Result<string, FormError>)
    ensures r.Success? <==> forall u :: u in users ==> u.idNo != idNo
    ensures r.Success? ==> r.value == idNo
    ensures r.Failure? ==> r.error == DuplicateIdNo
  {
    if Taken(users, None, IdNo, idNo) then Failure(DuplicateIdNo) else Success(idNo)
  }

  /** `UserChangeForm.clean_email` (forms.py:71-75): the edited user
      `instancePk` is left out of the search. Its primary key always
      exists, since it defaults to a fresh UUID. */
  function ChangeCleanEmail(users: seq<UserRecord>, instancePk: nat, email: string): (r: Result<string, FormError>)
    ensures r.Success? <==> forall u :: u in users && u.pk != instancePk ==> u.email != email
    ensures r.Success? ==> r.value == email
    ensures r.Failure? ==> r.error == DuplicateEmail
  {
    if Taken(users, Some(instancePk), Email, email) then Failure(DuplicateEmail) else Success(email)
  }

  /** `UserChangeForm.clean_id_no` (forms.py:77-81). */
  function ChangeCleanIdNo(users: seq<UserRecord>, instancePk: nat, idNo: string): (r: Result<string, FormError>)
    ensures r.Success? <==> forall u :: u in users && u.pk != instancePk ==> u.idNo != idNo
    ensures r.Success? ==> r.value == idNo
    ensures r.Failure? ==> r.error == DuplicateIdNo
  {
    if Taken(users, Some(instancePk), IdNo, idNo) then Failure(DuplicateIdNo) else Success(idNo)
  }

  /** The keys of the form's cleaned data that `clean` reads; a key is None
      when it is missing (`cleaned_data.get`). The other keys are carried
      along untouched. */
  datatype CleanedData = CleanedData(
    isSuperuser: Option<bool>,
    securityQuestion: Option<string>,
    securityAnswer: Option<string>,
    others: map<string, string>)

  /** Python truthiness of an optional flag and an optional string. */
  predicate FlagSet(b: Option<bool>) { b == Some(true) }
  predicate Filled(s: Option<string>) { s.Some? && s.value != "" }

  /** `clean` of both forms (forms.py:38-48, and the identical
      forms.py:83-93): a user that is not a superuser needs a non-empty
      security question and answer. The message raised speaks of a
      "Superuser", though the check is for everyone else. */
  function CleanSecurity(data: CleanedData): (r: Result<CleanedData, FormError>)
    ensures r.Failure? <==> !FlagSet(data.isSuperuser) && !(Filled(data.securityQuestion) && Filled(data.securityAnswer))
    ensures r.Success? ==> r.value == data
    ensures r.Failure? ==> r.error == MissingSecurityAnswer
  {
    if !FlagSet(data.isSuperuser) && (!Filled(data.securityQuestion) || !Filled(data.securityAnswer))
    then Failure(MissingSecurityAnswer)
    else Success(data)
  }

  // ---------------------------------------------------------------------
  // Properties
  // ---------------------------------------------------------------------

  /** When the edited user is not in the table, the change form's
      validators answer exactly as the creation form's do. */
  lemma ChangeFormWithoutInstanceIsCreationForm(users: seq<UserRecord>, instancePk: nat, email: string, idNo: string)
    requires forall u :: u in users ==> u.pk != instancePk
    ensures ChangeCleanEmail(users, instancePk, email) == CreationCleanEmail(users, email)
    ensures ChangeCleanIdNo(users, instancePk, idNo) == CreationCleanIdNo(users, idNo)
  {
  }

  /** Adding a user whose email and ID number the creation form accepted
      keeps both columns unique. */
  lemma CreationKeepsUnique(users: seq<UserRecord>, u: UserRecord)
    requires Unique(users, Email) && Unique(users, IdNo)
    requires CreationCleanEmail(users, u.email).Success?
    requires CreationCleanIdNo(users, u.idNo).Success?
    ensures Unique(users + [u], Email) && Unique(users + [u], IdNo)
  {
  }

  /** On a table whose primary keys, emails and ID numbers are unique,
      keeping one's own email or ID number passes the change form, while an
      email held by another user fails. */
  lemma KeepingOwnValuePasses(users: seq<UserRecord>, i: nat, value: string)
    requires i < |users|
    requires forall j, k :: 0 <= j < |users| && 0 <= k < |users| && users[j].pk == users[k].pk ==> j == k
    requires Unique(users, Email) && Unique(users, IdNo)
    ensures ChangeCleanEmail(users, users[i].pk, users[i].email).Success?
    ensures ChangeCleanIdNo(users, users[i].pk, users[i].idNo).Success?
    ensures (exists j :: 0 <= j < |users| && j != i && users[j].email == value)
              ==> ChangeCleanEmail(users, users[i].pk, value) == Failure(DuplicateEmail)
  {
  }

  /** Editing a user's email to one the change form accepted keeps the
      column unique. */
  lemma ChangeKeepsUnique(users: seq<UserRecord>, i: nat, email: string)
    requires i < |users|
    requires forall j, k :: 0 <= j < |users| && 0 <= k < |users| && users[j].pk == users[k].pk ==> j == k
    requires Unique(users, Email)
    requires ChangeCleanEmail(users, users[i].pk, email).Success?
    ensures Unique(users[i := users[i].(email := email)], Email)
  {
  }

  /** A superuser always passes `clean`, whatever the security fields hold. */
  lemma SuperuserAlwaysPasses(data: CleanedData)
    requires data.isSuperuser == Some(true)
    ensures CleanSecurity(data) == Success(data)
  {
  }
}
