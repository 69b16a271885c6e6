/** The KYC rules of core_apps/user_profile/models.py: the ID date order a
    profile must respect, the completeness check over a profile and its
    next-of-kin, the "one primary next-of-kin per profile" rule, and the
    `save` methods that run those checks before anything is stored.

    Dates are day numbers, None when unset. The database is the class
    `KycStore`: two tables keyed by primary key. */
module UserProfile {
  import opened Wrappers

  /** The Profile columns the rules read (models.py:48-160). Country,
      phone number and media columns are their text (country code, number,
      Cloudinary public id), truthy when non-empty. */
  datatype Profile = Profile(
    user: nat,
    title: string,
    gender: string,
    dateOfBirth: Option<int>,
    countryOfBirth: string,
    placeOfBirth: string,
    maritalStatus: string,
    identificationMeans: string,
    idIssueDate: Option<int>,
    idExpiryDate: Option<int>,
    nationality: string,
    phoneNumber: string,
    address: string,
    city: string,
    country: string,
    employmentStatus: string,
    photo: Option<string>,
    idPhoto: Option<string>,
    signaturePhoto: Option<string>)

  /** The NextOfKin columns the rules read (models.py:209-221); `profile`
      is the primary key of the owning profile. */
  datatype NextOfKin = NextOfKin(profile: nat, isPrimary: bool, firstName: string, lastName: string)

  datatype ProfileError = ExpiryBeforeIssue | SecondPrimaryKin

  /** Python truthiness of the three kinds of column. */
  predicate TextSet(s: string) { s != "" }
  predicate DateSet(d: Option<int>) { d.Some? }
  predicate MediaSet(m: Option<string>) { m.Some? && m.value != "" }

  /** The ID expires no earlier than it was issued, when both dates are set. */
  ghost predicate DatesOrdered(p: Profile) {
    forall issue, expiry :: p.idIssueDate == Some(issue) && p.idExpiryDate == Some(expiry) ==> issue <= expiry
  }

  /** `Profile.clean` (models.py:162-166): rejects an expiry date strictly
      before the issue date; equal dates, and a missing date, pass. */
  function ProfileClean(p: Profile): (r: Outcome<ProfileError>)
    ensures r.Pass? <==> DatesOrdered(p)
    ensures r.Fail? ==> r.error == ExpiryBeforeIssue
  {
    if p.idExpiryDate.Some? && p.idIssueDate.Some? && p.idExpiryDate.value < p.idIssueDate.value
    then Fail(ExpiryBeforeIssue)
    else Pass
  }

  /** The list `required_fields` of models.py:173-192, as truth values. */
  function RequiredFields(p: Profile): seq<bool> {
    [TextSet(p.title), TextSet(p.gender), DateSet(p.dateOfBirth), TextSet(p.countryOfBirth),
     TextSet(p.placeOfBirth), TextSet(p.maritalStatus), TextSet(p.identificationMeans),
     DateSet(p.idIssueDate), DateSet(p.idExpiryDate), TextSet(p.nationality),
     TextSet(p.phoneNumber), TextSet(p.address), TextSet(p.city), TextSet(p.country),
     TextSet(p.employmentStatus), MediaSet(p.photo), MediaSet(p.idPhoto), MediaSet(p.signaturePhoto)]
  }

  /** Python's `all`. */
  function All(bs: seq<bool>): bool {
    if bs == [] then true else bs[0] && All(bs[1..])
  }

  /** `self.next_of_kin.exists()`: some next-of-kin row belongs to profile `pk`. */
  predicate HasNextOfKin(kin: map<nat, NextOfKin>, pk: nat) {
    exists k :: k in kin && kin[k].profile == pk
  }

  /** `Profile.is_complete_with_next_of_kin` (models.py:172-194) for the
      profile stored under `pk`; it reads and changes nothing else. */
  predicate IsCompleteWithNextOfKin(p: Profile, pk: nat, kin: map<nat, NextOfKin>)
    ensures IsCompleteWithNextOfKin(p, pk, kin) <==> false !in RequiredFields(p) && HasNextOfKin(kin, pk)
  {
    AllMeansNoFalse(RequiredFields(p));
    All(RequiredFields(p)) && HasNextOfKin(kin, pk)
  }

  /** The keys of the primary next-of-kin rows of profile `profile`. */
  function PrimaryKeys(kin: map<nat, NextOfKin>, profile: nat): set<nat> {
    set k | k in kin && kin[k].isPrimary && kin[k].profile == profile
  }

  /** No profile has two primary next-of-kin rows. */
  predicate SinglePrimary(kin: map<nat, NextOfKin>) {
    forall a, b ::
      (a in kin && b in kin && kin[a].isPrimary && kin[b].isPrimary && kin[a].profile == kin[b].profile) ==> a == b
  }

  /** `NextOfKin.clean` (models.py:223-231) for a row whose own primary key
      is `selfPk` (None before its first save, when `exclude(pk=None)`
      excludes no row): a primary row is rejected when another primary row
      of the same profile exists. */
  function KinClean(kin: map<nat, NextOfKin>, k: NextOfKin, selfPk: Option<nat>): (r: Outcome<ProfileError>)
    ensures r.Pass? <==> !k.isPrimary || forall other :: other in PrimaryKeys(kin, k.profile) ==> Some(other) == selfPk
    ensures r.Fail? ==> r.error == SecondPrimaryKin
  {
    if k.isPrimary && exists other :: other in kin && kin[other].profile == k.profile
                                      && kin[other].isPrimary && Some(other) != selfPk
    then Fail(SecondPrimaryKin)
    else Pass
  }

  // ---------------------------------------------------------------------
  // The store, written to only through the validating saves
  // ---------------------------------------------------------------------

  /** The Profile and NextOfKin tables. Every row got there through
      `SaveProfile` or `SaveNextOfKin`, so `Valid` holds: no stored profile
      has its ID dates out of order and no profile has two primary
      next-of-kin. */
  class KycStore {
    var profiles: map<nat, Profile>
    var kin: map<nat, NextOfKin>
    /** The next primary key each table hands out. */
    var nextProfilePk: nat
    var nextKinPk: nat

    ghost predicate Valid()
      reads this
    {
      && (forall pk :: pk in profiles ==> DatesOrdered(profiles[pk]))
      && SinglePrimary(kin)
      && (forall pk :: pk in profiles ==> pk < nextProfilePk)
      && (forall pk :: pk in kin ==> pk < nextKinPk)
    }

    constructor ()
      ensures Valid() && profiles == map[] && kin == map[]
    {
      profiles := map[];
      kin := map[];
      nextProfilePk := 0;
      nextKinPk := 0;
    }

    /** `Profile.save` (models.py:168-170): `full_clean`, which runs
        `Profile.clean`, then an insert (no `pk`) or an update of row `pk`.
        Returns the row's key, or the validation error with nothing stored. */
    method SaveProfile(p: Profile, pk: Option<nat>) returns (r: Result<nat, ProfileError>)
      requires Valid()
      modifies this`profiles, this`nextProfilePk
      ensures Valid()
      ensures r.Failure? <==> ProfileClean(p).Fail?
      ensures r.Failure? ==> r.error == ExpiryBeforeIssue && profiles == old(profiles)
      ensures r.Success? ==> profiles == old(profiles)[r.value := p]
      ensures r.Success? ==> if pk.Some? then r.value == pk.value else r.value !in old(profiles)
    {
      var check := ProfileClean(p);
      if check.Fail? {
        return Failure(check.error);
      }
      var key: nat;
      if pk.Some? {
        key := pk.value;
      } else {
        key := nextProfilePk;
      }
      if key >= nextProfilePk {
        nextProfilePk := key + 1;
      }
      profiles := profiles[key := p];
      r := Success(key);
    }

    /** `NextOfKin.save` (models.py:233-235): `full_clean`, which runs
        `NextOfKin.clean` against the stored rows, then an insert or an
        update of row `pk`. */
    method SaveNextOfKin(k: NextOfKin, pk: Option<nat>) returns (r: Result<nat, ProfileError>)
      requires Valid()
      modifies this`kin, this`nextKinPk
      ensures Valid()
      ensures r.Failure? <==> KinClean(old(kin), k, pk).Fail?
      ensures r.Failure? ==> r.error == SecondPrimaryKin && kin == old(kin)
      ensures r.Success? ==> kin == old(kin)[r.value := k]
      ensures r.Success? ==> if pk.Some? then r.value == pk.value else r.value !in old(kin)
    {
      var check := KinClean(kin, k, pk);
      if check.Fail? {
        return Failure(check.error);
      }
      var key: nat;
      if pk.Some? {
        key := pk.value;
      } else {
        key := nextKinPk;
      }
      SavedKinKeepsSinglePrimary(kin, k, pk, key);
      if key >= nextKinPk {
        nextKinPk := key + 1;
      }
      kin := kin[key := k];
      r := Success(key);
    }
  }

  // ---------------------------------------------------------------------
  // Properties
  // ---------------------------------------------------------------------

  /** `all` is true exactly when no element is false. */
  lemma {:induction false} AllMeansNoFalse(bs: seq<bool>)
    ensures All(bs) <==> false !in bs
  {
    if bs != [] {
      AllMeansNoFalse(bs[1..]);
      assert bs == [bs[0]] + bs[1..];
    }
  }

  /** A profile is complete exactly when each of the eighteen listed
      columns is truthy and it has at least one next-of-kin; the order in
      which they were filled does not enter. */
  lemma CompleteIffFieldsAndKin(p: Profile, pk: nat, kin: map<nat, NextOfKin>)
    ensures IsCompleteWithNextOfKin(p, pk, kin) <==>
      && TextSet(p.title) && TextSet(p.gender) && DateSet(p.dateOfBirth)
      && TextSet(p.countryOfBirth) && TextSet(p.placeOfBirth) && TextSet(p.maritalStatus)
      && TextSet(p.identificationMeans) && DateSet(p.idIssueDate) && DateSet(p.idExpiryDate)
      && TextSet(p.nationality) && TextSet(p.phoneNumber) && TextSet(p.address)
      && TextSet(p.city) && TextSet(p.country) && TextSet(p.employmentStatus)
      && MediaSet(p.photo) && MediaSet(p.idPhoto) && MediaSet(p.signaturePhoto)
      && (exists k :: k in kin && kin[k].profile == pk)
  {
    AllMeansNoFalse(RequiredFields(p));
  }

  /** Without a next-of-kin a profile is never complete, whatever its
      columns hold; adding a next-of-kin for another profile changes
      nothing. */
  lemma NoKinNeverComplete(p: Profile, pk: nat, kin: map<nat, NextOfKin>, key: nat, k: NextOfKin)
    requires forall x :: x in kin ==> kin[x].profile != pk
    requires k.profile != pk && key !in kin
    ensures !IsCompleteWithNextOfKin(p, pk, kin)
    ensures !IsCompleteWithNextOfKin(p, pk, kin[key := k])
  {
  }

  /** Equal issue and expiry dates pass `Profile.clean`; an expiry one day
      before the issue fails it. */
  lemma ProfileDateBoundary(p: Profile, d: int)
    ensures ProfileClean(p.(idIssueDate := Some(d), idExpiryDate := Some(d))).Pass?
    ensures ProfileClean(p.(idIssueDate := Some(d), idExpiryDate := Some(d - 1))) == Fail(ExpiryBeforeIssue)
  {
  }

  /** A non-primary next-of-kin is never rejected, however many rows the
      profile has; a primary one is rejected when another primary row of
      its profile is stored under a different key. */
  lemma KinCleanCases(kin: map<nat, NextOfKin>, k: NextOfKin, selfPk: Option<nat>, other: nat)
    ensures !k.isPrimary ==> KinClean(kin, k, selfPk).Pass?
    ensures (k.isPrimary && other in kin && kin[other].isPrimary && kin[other].profile == k.profile
             && selfPk != Some(other)) ==> KinClean(kin, k, selfPk) == Fail(SecondPrimaryKin)
  {
  }

  /** Re-validating a stored row under its own key passes, in a store
      without two primaries for one profile. */
  lemma ExistingPrimaryRevalidates(kin: map<nat, NextOfKin>, pk: nat)
    requires SinglePrimary(kin) && pk in kin
    ensures KinClean(kin, kin[pk], Some(pk)).Pass?
  {
  }

  /** Storing a row that `NextOfKin.clean` accepted, under its own key or
      under a fresh key for a new row, keeps one primary per profile. */
  lemma SavedKinKeepsSinglePrimary(kin: map<nat, NextOfKin>, k: NextOfKin, selfPk: Option<nat>, key: nat)
    requires SinglePrimary(kin)
    requires KinClean(kin, k, selfPk).Pass?
    requires selfPk == Some(key) || (selfPk == None && key !in kin)
    ensures SinglePrimary(kin[key := k])
  {
  }
}
