/**
 * `ProfileViewModel`: the user's names, employment status and photo, kept in the
 * `profile_prefs` file. A photo URI is kept as the string it prints as.
 */
module Profile {
  import opened Wrappers
  import opened Preferences

  /** The employment status enum of the profile screen. */
  datatype LaboralStatus = EMPLOYED | SELF_EMPLOYED | STUDENT | RETIRED

  function StatusDisplayName(s: LaboralStatus): string {
    match s
    case EMPLOYED => "Asalariado"
    case SELF_EMPLOYED => "Autónomo"
    case STUDENT => "Estudiante"
    case RETIRED => "Jubilado"
  }

  /** `LaboralStatus.name`. */
  function StatusName(s: LaboralStatus): string {
    match s
    case EMPLOYED => "EMPLOYED"
    case SELF_EMPLOYED => "SELF_EMPLOYED"
    case STUDENT => "STUDENT"
    case RETIRED => "RETIRED"
  }

  /** `LaboralStatus.valueOf`: the case with that name; any other string throws. */
  function StatusValueOf(s: string): (r: Option<LaboralStatus>)
    ensures r.Some? ==> StatusName(r.value) == s
    ensures forall t :: StatusName(t) == s ==> r == Some(t)
  {
    if s == "EMPLOYED" then Some(EMPLOYED)
    else if s == "SELF_EMPLOYED" then Some(SELF_EMPLOYED)
    else if s == "STUDENT" then Some(STUDENT)
    else if s == "RETIRED" then Some(RETIRED)
    else None
  }

  /** A URI, as the string `toString` gives and `Uri.parse` accepts. */
  type Uri = string

  const FirstNameKey := "firstName"
  const LastNameKey := "lastName"
  const StatusKey := "laboralStatus"
  const PhotoKey := "profilePhotoUri"

  /** The four fields of a profile. */
  datatype ProfileData = ProfileData(firstName: string, lastName: string, laboralStatus: Option<LaboralStatus>, photoUri: Option<Uri>)

  /** All four keys are absent or hold strings. */
  predicate ProfileTyped(entries: map<string, PrefValue>) {
    HoldsText(entries, FirstNameKey) && HoldsText(entries, LastNameKey)
    && HoldsText(entries, StatusKey) && HoldsText(entries, PhotoKey)
  }

  /** The stored status: null when absent or when the name is not a case (`valueOf` throws and is caught). */
  function ReadStatus(entries: map<string, PrefValue>): (r: Option<LaboralStatus>)
    requires HoldsText(entries, StatusKey)
    ensures StatusKey !in entries ==> r == None
    ensures forall t :: StatusKey in entries && entries[StatusKey] == Text(StatusName(t)) ==> r == Some(t)
    ensures StatusKey in entries && StatusValueOf(entries[StatusKey].text).None? ==> r == None
  {
    match GetString(entries, StatusKey, None)
    case None => None
    case Some(s) => StatusValueOf(s)
  }

  /** The field initialisers: names default to "", the status and the photo to null. */
  function ReadProfile(entries: map<string, PrefValue>): (p: ProfileData)
    requires ProfileTyped(entries)
    ensures p.firstName == if FirstNameKey in entries then entries[FirstNameKey].text else ""
    ensures p.lastName == if LastNameKey in entries then entries[LastNameKey].text else ""
    ensures p.laboralStatus == ReadStatus(entries)
    ensures p.photoUri == if PhotoKey in entries then Some(entries[PhotoKey].text) else None
  {
    ProfileData(
      GetString(entries, FirstNameKey, Some("")).GetOr(""),
      GetString(entries, LastNameKey, Some("")).GetOr(""),
      ReadStatus(entries),
      GetString(entries, PhotoKey, None))
  }

  /** `laboralStatus?.name`. */
  function StatusText(s: Option<LaboralStatus>): Option<string> {
    match s
    case None => None
    case Some(t) => Some(StatusName(t))
  }

  /** The editor of `saveProfileData`: four `putString` calls, null values removing their key. */
  function WriteProfile(entries: map<string, PrefValue>, p: ProfileData): (r: map<string, PrefValue>)
    ensures ProfileTyped(r)
    ensures FirstNameKey in r && r[FirstNameKey] == Text(p.firstName)
    ensures LastNameKey in r && r[LastNameKey] == Text(p.lastName)
    ensures p.laboralStatus.None? ==> StatusKey !in r
    ensures p.laboralStatus.Some? ==> StatusKey in r && r[StatusKey] == Text(StatusName(p.laboralStatus.value))
    ensures p.photoUri.None? ==> PhotoKey !in r
    ensures p.photoUri.Some? ==> PhotoKey in r && r[PhotoKey] == Text(p.photoUri.value)
    ensures forall k :: k !in {FirstNameKey, LastNameKey, StatusKey, PhotoKey} ==>
      (k in r <==> k in entries) && (k in r ==> r[k] == entries[k])
  {
    var e1 := PutString(entries, FirstNameKey, Some(p.firstName));
    var e2 := PutString(e1, LastNameKey, Some(p.lastName));
    var e3 := PutString(e2, StatusKey, StatusText(p.laboralStatus));
    PutString(e3, PhotoKey, p.photoUri)
  }

  /** Saving and then reading a fresh view model yields the saved profile, whatever the file held before. */
  lemma ProfileRoundTrip(entries: map<string, PrefValue>, p: ProfileData)
    ensures ReadProfile(WriteProfile(entries, p)) == p
  {
    var r := WriteProfile(entries, p);
    match p.laboralStatus
    case None =>
    case Some(t) =>
      assert r[StatusKey] == Text(StatusName(t));
  }

  /** The view model's four fields and its preference file. */
  class ProfileViewModel {
    const prefs: SharedPreferences
    var firstName: string
    var lastName: string
    var laboralStatus: Option<LaboralStatus>
    var profilePhotoUri: Option<Uri>

    function Data(): ProfileData
      reads this
    {
      ProfileData(firstName, lastName, laboralStatus, profilePhotoUri)
    }

    constructor (prefs: SharedPreferences)
      requires ProfileTyped(prefs.entries)
      ensures this.prefs == prefs
      ensures Data() == ReadProfile(prefs.entries)
    {
      this.prefs := prefs;
      var p := ReadProfile(prefs.entries);
      firstName := p.firstName;
      lastName := p.lastName;
      laboralStatus := p.laboralStatus;
      profilePhotoUri := p.photoUri;
    }

    /** `saveProfileData`: the four fields take the arguments and the four keys are written. */
    method SaveProfileData(firstName: string, lastName: string, laboralStatus: Option<LaboralStatus>, photoUri: Option<Uri>)
      modifies this, prefs
      ensures Data() == ProfileData(firstName, lastName, laboralStatus, photoUri)
      ensures prefs.entries == WriteProfile(old(prefs.entries), Data())
    {
      this.firstName := firstName;
      this.lastName := lastName;
      this.laboralStatus := laboralStatus;
      this.profilePhotoUri := photoUri;
      prefs.PutStringAndApply(FirstNameKey, Some(firstName));
      prefs.PutStringAndApply(LastNameKey, Some(lastName));
      prefs.PutStringAndApply(StatusKey, StatusText(laboralStatus));
      prefs.PutStringAndApply(PhotoKey, photoUri);
    }
  }

  /** A view model opened on the file after a save shows what was saved. */
  method SaveThenReload(vm: ProfileViewModel, p: ProfileData) returns (reloaded: ProfileViewModel)
    modifies vm, vm.prefs
    ensures reloaded.Data() == p == vm.Data()
  {
    vm.SaveProfileData(p.firstName, p.lastName, p.laboralStatus, p.photoUri);
    ProfileRoundTrip(old(vm.prefs.entries), p);
    reloaded := new ProfileViewModel(vm.prefs);
  }
}
