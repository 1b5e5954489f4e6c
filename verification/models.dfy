/** The `SystemSettings` model of the core app: a settings table that is
    meant to hold a single row, always under primary key 1.

    The database table is a map from primary key to row. The ORM, its
    queries and `refresh_from_db` are reduced to reads and updates of that
    map; the clock behind `auto_now_add` is the parameter `now`.
 */
module CoreModels {
  import opened Hashers

  type Timestamp = int

  /** The primary key every settings row is written under. */
  const SettingsPk: int := 1

  /** The password a fresh settings row is created with. */
  const DefaultPassword: string := "admin123"

  /** One row of the settings table (`access_password_hash`, `is_active`, `created_at`). */
  datatype SystemSettings = SystemSettings(hash: string, isActive: bool, createdAt: Timestamp)

  /** The table: primary key to row. */
  type Table = map<int, SystemSettings>

  /** The singleton discipline: no row under any key other than 1. */
  predicate Singleton(t: Table) {
    t.Keys <= {SettingsPk}
  }

  /** Every stored row carries a password hash. */
  predicate HashesSet(t: Table) {
    forall k | k in t :: t[k].hash != ""
  }

  /** `SystemSettings.check_password`: does `raw` match the stored hash?
      With a sound hasher, any hash made from `raw` is accepted, whatever its salt. */
  function CheckPassword(s: SystemSettings, raw: string, h: Hasher): (ok: bool)
    ensures Sound(h) && (exists salt :: s.hash == h.make(raw, salt)) ==> ok
  {
    Verifies(h, raw, s.hash)
  }

  /** `SystemSettings.set_password`: replace the hash by a fresh encoding of `raw`. */
  function SetPassword(s: SystemSettings, raw: string, h: Hasher, salt: string): (r: SystemSettings)
    ensures r.isActive == s.isActive && r.createdAt == s.createdAt
    ensures Sound(h) ==> r.hash != "" && CheckPassword(r, raw, h)
  {
    s.(hash := MakePassword(h, raw, salt))
  }

  /** What `get_settings` hands back: the table afterwards and the row it returns. */
  datatype Fetched = Fetched(table: Table, settings: SystemSettings)

  /** `SystemSettings.get_settings`: return the row under key 1, creating it
      (active, with the default password) when there is none. */
  function GetSettings(t: Table, h: Hasher, salt: string, now: Timestamp): (r: Fetched)
    ensures SettingsPk in r.table && r.table[SettingsPk] == r.settings
    ensures SettingsPk in t ==> r.table == t && r.settings == t[SettingsPk]
    ensures SettingsPk !in t ==> r.table == t[SettingsPk := r.settings]
    ensures SettingsPk !in t ==> r.settings.isActive && r.settings.createdAt == now
    ensures SettingsPk !in t && Sound(h) ==>
              r.settings.hash != "" && CheckPassword(r.settings, DefaultPassword, h)
  {
    if SettingsPk in t then
      Fetched(t, t[SettingsPk])
    else
      var created := SystemSettings(MakePassword(h, DefaultPassword, salt), true, now);
      Fetched(t[SettingsPk := created], created)
  }

  /** `SystemSettings.save`: the object always goes to key 1. If that row
      exists, only its hash and active flag are overwritten; otherwise the
      object is inserted, stamped with the current time. */
  function Save(t: Table, obj: SystemSettings, now: Timestamp): (r: Table)
    ensures r.Keys == t.Keys + {SettingsPk}
    ensures forall k | k in t && k != SettingsPk :: r[k] == t[k]
    ensures r[SettingsPk].hash == obj.hash && r[SettingsPk].isActive == obj.isActive
    ensures r[SettingsPk].createdAt == if SettingsPk in t then t[SettingsPk].createdAt else now
  {
    if SettingsPk in t then
      t[SettingsPk := t[SettingsPk].(hash := obj.hash, isActive := obj.isActive)]
    else
      t[SettingsPk := obj.(createdAt := now)]
  }

  /** `SystemSettings.delete` does nothing: the settings row cannot be
      removed through `delete` (a queryset delete bypasses it and is not modelled). */
  function Delete(t: Table, obj: SystemSettings): (r: Table)
    ensures r == t
  {
    t
  }

  /** `save` never puts a second row into a singleton table, and never
      removes a hash when the object it stores has one. */
  lemma SaveKeepsInvariants(t: Table, obj: SystemSettings, now: Timestamp)
    ensures Singleton(t) ==> Singleton(Save(t, obj, now))
    ensures HashesSet(t) && obj.hash != "" ==> HashesSet(Save(t, obj, now))
    ensures Save(t, obj, now).Keys == {SettingsPk} <==> Singleton(t)
  {
  }
}
