/** The admin side of the core app: the settings form's password check,
    the admin's save path for the settings row, the read-only display
    helpers, and the permission answers of the two admin pages.
 */
module CoreAdmin {
  import opened Hashers
  import opened CoreModels

  // ---------------------------------------------------------------------
  // SystemSettingsForm.clean
  // ---------------------------------------------------------------------

  /** The shortest new password the form accepts. */
  const MinPasswordLength: nat := 6

  /** The four ways the form rejects a password change. */
  datatype PasswordError = MissingNewPassword | MissingConfirmation | Mismatch | TooShort

  datatype Verdict = Accepted | Rejected(error: PasswordError)

  /** `SystemSettingsForm.clean` on the two password fields. The strings are
      the cleaned values, already stripped of surrounding whitespace by the
      form's `CharField`. An empty string stands for both an absent field and
      a blank one, as Python's `not` treats them alike. Nothing is checked
      unless one field is filled; then the checks run in order and the first
      failure is raised. */
  function Clean(newPw: string, confirmPw: string): (r: Verdict)
    ensures r == Accepted <==>
              (newPw == "" && confirmPw == "")
              || (newPw == confirmPw && |newPw| >= MinPasswordLength)
    ensures r == Rejected(MissingNewPassword) <==> newPw == "" && confirmPw != ""
    ensures r == Rejected(MissingConfirmation) <==> newPw != "" && confirmPw == ""
    ensures r == Rejected(Mismatch) <==> newPw != "" && confirmPw != "" && newPw != confirmPw
    ensures r == Rejected(TooShort) <==>
              newPw != "" && newPw == confirmPw && |newPw| < MinPasswordLength
  {
    if newPw != "" || confirmPw != "" then
      if newPw == "" then Rejected(MissingNewPassword)
      else if confirmPw == "" then Rejected(MissingConfirmation)
      else if newPw != confirmPw then Rejected(Mismatch)
      else if |newPw| < MinPasswordLength then Rejected(TooShort)
      else Accepted
    else
      Accepted
  }

  /** Position of each check in the form's sequence of checks. */
  function Rank(e: PasswordError): nat {
    match e
    case MissingNewPassword => 0
    case MissingConfirmation => 1
    case Mismatch => 2
    case TooShort => 3
  }

  /** Every check that fails on its own, each judged independently of the others. */
  function Violations(newPw: string, confirmPw: string): set<PasswordError> {
    if newPw == "" && confirmPw == "" then {}
    else
      (if newPw == "" then {MissingNewPassword} else {})
      + (if confirmPw == "" then {MissingConfirmation} else {})
      + (if newPw != confirmPw then {Mismatch} else {})
      + (if |newPw| < MinPasswordLength then {TooShort} else {})
  }

  /** The form accepts exactly when no check fails, and when several fail it
      reports the earliest one in the order of the checks. */
  lemma CleanReportsFirstViolation(newPw: string, confirmPw: string)
    ensures Clean(newPw, confirmPw) == Accepted <==> Violations(newPw, confirmPw) == {}
    ensures Clean(newPw, confirmPw).Rejected? ==>
              var e := Clean(newPw, confirmPw).error;
              e in Violations(newPw, confirmPw)
              && forall v | v in Violations(newPw, confirmPw) :: Rank(e) <= Rank(v)
  {
  }

  // ---------------------------------------------------------------------
  // SystemSettingsAdmin.save_model
  // ---------------------------------------------------------------------

  /** The form field whose presence in `changed_data` marks a change of the active flag. */
  const IsActiveField: string := "is_active"

  /** First lookup of the stored row: keep its hash when no new password is
      given, and its active flag when the form did not change it. */
  function CopyFromStored(t: Table, obj: SystemSettings, newPw: string, changed: set<string>): SystemSettings {
    if SettingsPk in t then
      var stored := t[SettingsPk];
      var o := if newPw == "" then obj.(hash := stored.hash) else obj;
      if IsActiveField !in changed then o.(isActive := stored.isActive) else o
    else
      obj
  }

  /** Second lookup of the stored row, written differently for the active
      flag; with no stored row and no new password, the default password. */
  function CopyFromStoredAgain(t: Table, obj: SystemSettings, newPw: string, changed: set<string>,
                               h: Hasher, salt: string): SystemSettings {
    if SettingsPk in t then
      var stored := t[SettingsPk];
      var o := if newPw == "" then obj.(hash := stored.hash) else obj;
      if changed == {} || IsActiveField !in changed then
        o.(isActive := if changed == {} then stored.isActive else o.isActive)
      else
        o
    else if newPw == "" then
      SetPassword(obj, DefaultPassword, h, salt)
    else
      obj
  }

  /** Hash the new password, if one was given. */
  function ApplyNewPassword(obj: SystemSettings, newPw: string, h: Hasher, salt: string): SystemSettings {
    if newPw != "" then SetPassword(obj, newPw, h, salt) else obj
  }

  /** An object still without a hash gets the default password. */
  function FallBackToDefault(obj: SystemSettings, h: Hasher, salt: string): SystemSettings {
    if obj.hash == "" then SetPassword(obj, DefaultPassword, h, salt) else obj
  }

  /** Re-read the saved row; if a new password was given and the row does not
      verify it, set it again and save once more. */
  function VerifyAndRetry(t: Table, newPw: string, h: Hasher, salt: string, now: Timestamp): Table {
    if newPw != "" && SettingsPk in t && !CheckPassword(t[SettingsPk], newPw, h) then
      Save(t, SetPassword(t[SettingsPk], newPw, h, salt), now)
    else
      t
  }

  /** `SystemSettingsAdmin.save_model`. `obj` is the object the form built,
      `newPw` the cleaned `new_password`, `changed` the form's `changed_data`.
      Its net effect: the row under key 1 ends up verifying the new password
      if one was given, otherwise keeps the stored hash (or gets the default
      password when there is none); the active flag is the form's only when
      the form changed it; the creation time and every other row stay. */
  function SaveModel(t: Table, obj: SystemSettings, newPw: string, changed: set<string>,
                     h: Hasher, salt: string, now: Timestamp): (r: Table)
    ensures r.Keys == t.Keys + {SettingsPk}
    ensures forall k | k in t && k != SettingsPk :: r[k] == t[k]
    ensures newPw != "" && Sound(h) ==> CheckPassword(r[SettingsPk], newPw, h)
    ensures newPw == "" && SettingsPk in t && t[SettingsPk].hash != "" ==>
              r[SettingsPk].hash == t[SettingsPk].hash
    ensures newPw == "" && (SettingsPk !in t || t[SettingsPk].hash == "") && Sound(h) ==>
              CheckPassword(r[SettingsPk], DefaultPassword, h)
    ensures Sound(h) ==> r[SettingsPk].hash != ""
    ensures r[SettingsPk].isActive ==
              if SettingsPk in t && IsActiveField !in changed then t[SettingsPk].isActive
              else obj.isActive
    ensures r[SettingsPk].createdAt ==
              if SettingsPk in t then t[SettingsPk].createdAt else now
  {
    var o1 := CopyFromStored(t, obj, newPw, changed);
    var o2 := CopyFromStoredAgain(t, o1, newPw, changed, h, salt);
    var o3 := ApplyNewPassword(o2, newPw, h, salt);
    var o4 := FallBackToDefault(o3, h, salt);
    VerifyAndRetry(Save(t, o4, now), newPw, h, salt, now)
  }

  /** Of the object the form built, only its active flag reaches the table:
      its hash and creation time are always overwritten. */
  lemma SaveModelReadsOnlyFormActiveFlag(t: Table, a: SystemSettings, b: SystemSettings, newPw: string,
                                         changed: set<string>, h: Hasher, salt: string, now: Timestamp)
    requires a.isActive == b.isActive
    ensures SaveModel(t, a, newPw, changed, h, salt, now) == SaveModel(t, b, newPw, changed, h, salt, now)
  {
  }

  /** A password change the form accepts is the password the system opens
      with afterwards: `get_settings` returns a row that verifies it. */
  lemma AcceptedPasswordIsTheNewAccessPassword(t: Table, obj: SystemSettings, newPw: string, confirmPw: string,
                                               changed: set<string>, h: Hasher, salt: string, now: Timestamp,
                                               laterSalt: string, later: Timestamp)
    requires Sound(h)
    requires Clean(newPw, confirmPw) == Accepted && newPw != ""
    ensures |confirmPw| >= MinPasswordLength
    ensures var saved := SaveModel(t, obj, newPw, changed, h, salt, now);
            CheckPassword(GetSettings(saved, h, laterSalt, later).settings, confirmPw, h)
  {
  }

  // ---------------------------------------------------------------------
  // Read-only display helpers
  // ---------------------------------------------------------------------

  function Min(a: int, b: int): int {
    if a <= b then a else b
  }

  /** How many characters of the hash the preview shows. */
  const PreviewLength: nat := 20

  const Ellipsis: string := "..."

  /** The text of `password_hash_preview`, or `NotSet` for the "no password" message. */
  datatype HashPreview = NotSet | Shown(text: string)

  /** `SystemSettingsAdmin.password_hash_preview`, without its HTML wrapping. */
  function PasswordHashPreview(hash: string): (r: HashPreview)
    ensures r.NotSet? <==> hash == ""
    ensures r.Shown? && |hash| <= PreviewLength ==> r.text == hash
    ensures r.Shown? && |hash| > PreviewLength ==>
              |r.text| == PreviewLength + |Ellipsis|
              && r.text[..PreviewLength] == hash[..PreviewLength]
              && r.text[PreviewLength..] == Ellipsis
  {
    if hash != "" then
      Shown(if |hash| > PreviewLength then hash[..PreviewLength] + Ellipsis else hash)
    else
      NotSet
  }

  /** Two hashes look the same in the preview exactly when they are equal or
      both are long and agree on the shown prefix. */
  lemma PreviewsCollideOnlyOnLongHashes(a: string, b: string)
    ensures PasswordHashPreview(a) == PasswordHashPreview(b) <==>
              a == b || (|a| > PreviewLength && |b| > PreviewLength && a[..PreviewLength] == b[..PreviewLength])
  {
  }

  /** How many characters of a room id the activity log list shows. */
  const RoomIdPrefixLength: nat := 8

  const NoRoomId: string := "N/A"

  /** `RoomActivityLogAdmin.room_id_short`: a prefix of the room id followed
      by an ellipsis, even when the id is no longer than the prefix. */
  function RoomIdShort(roomId: string): (r: string)
    ensures roomId == "" ==> r == NoRoomId
    ensures roomId != "" ==>
              var n := Min(|roomId|, RoomIdPrefixLength);
              |r| == n + |Ellipsis| && r[..n] == roomId[..n] && r[n..] == Ellipsis
  {
    if roomId != "" then roomId[..Min(|roomId|, RoomIdPrefixLength)] + Ellipsis else NoRoomId
  }

  /** A missing room id is never confused with a real one. */
  lemma RoomIdShortMarksMissingIds(roomId: string)
    ensures RoomIdShort(roomId) == NoRoomId <==> roomId == ""
  {
  }

  // ---------------------------------------------------------------------
  // Permissions of the two admin pages
  // ---------------------------------------------------------------------

  /** `SystemSettingsAdmin.has_add_permission`: adding is allowed only while
      the settings table holds no row at all. */
  function SettingsHasAddPermission(t: Table): (r: bool)
    ensures Singleton(t) ==> (r <==> SettingsPk !in t)
  {
    t == map[]
  }

  /** `SystemSettingsAdmin.has_delete_permission`: never. */
  function SettingsHasDeletePermission(t: Table): bool {
    false
  }

  /** The settings page's permissions keep the table a singleton: once any
      save has happened, adding is closed, and deleting never opens. */
  lemma SettingsPageKeepsOneRow(t: Table, obj: SystemSettings, newPw: string, changed: set<string>,
                                h: Hasher, salt: string, now: Timestamp)
    ensures !SettingsHasAddPermission(Save(t, obj, now))
    ensures !SettingsHasAddPermission(SaveModel(t, obj, newPw, changed, h, salt, now))
    ensures !SettingsHasAddPermission(GetSettings(t, h, salt, now).table)
    ensures !SettingsHasDeletePermission(t)
  {
  }

  /** The user asking an admin page for permission. */
  datatype Requester = Requester(isSuperuser: bool)

  /** `RoomActivityLogAdmin.has_add_permission`: never. */
  function LogHasAddPermission(u: Requester): bool {
    false
  }

  /** `RoomActivityLogAdmin.has_change_permission`: never. */
  function LogHasChangePermission(u: Requester): bool {
    false
  }

  /** `RoomActivityLogAdmin.has_delete_permission`: superusers only. */
  function LogHasDeletePermission(u: Requester): bool {
    u.isSuperuser
  }

  /** The activity log is read-only through the admin: nobody adds or edits
      entries, and only superusers remove them. */
  lemma ActivityLogIsReadOnly(u: Requester)
    ensures !LogHasAddPermission(u) && !LogHasChangePermission(u)
    ensures LogHasDeletePermission(u) <==> u.isSuperuser
  {
  }
}
