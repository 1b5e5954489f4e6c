/** The settings table over any sequence of the operations that touch it:
    a programmatic `save`, `delete`, `get_settings` and the admin's
    `save_model`. Each operation carries the salt and the time it would
    draw from the outside world.
 */
module SettingsLifecycle {
  import opened Hashers
  import opened CoreModels
  import opened CoreAdmin

  datatype Op =
    | SaveOp(obj: SystemSettings, now: Timestamp)
    | DeleteOp(obj: SystemSettings)
    | GetSettingsOp(salt: string, now: Timestamp)
    | SaveModelOp(obj: SystemSettings, newPw: string, changed: set<string>, salt: string, now: Timestamp)

  /** The table after one operation. */
  function Step(t: Table, op: Op, h: Hasher): Table {
    match op
    case SaveOp(obj, now) => Save(t, obj, now)
    case DeleteOp(obj) => Delete(t, obj)
    case GetSettingsOp(salt, now) => GetSettings(t, h, salt, now).table
    case SaveModelOp(obj, newPw, changed, salt, now) => SaveModel(t, obj, newPw, changed, h, salt, now)
  }

  /** The table after a sequence of operations, applied first to last. */
  function Run(t: Table, ops: seq<Op>, h: Hasher): Table
    decreases |ops|
  {
    if ops == [] then t else Run(Step(t, ops[0], h), ops[1..], h)
  }

  /** One operation never removes a row, keeps the table a singleton, keeps
      the settings row's creation time, and, with a sound hasher, only a
      programmatic save of a hash-less object can leave a row without a hash. */
  lemma StepKeepsInvariants(t: Table, op: Op, h: Hasher)
    ensures t.Keys <= Step(t, op, h).Keys
    ensures Singleton(t) ==> Singleton(Step(t, op, h))
    ensures SettingsPk in t ==>
              SettingsPk in Step(t, op, h) && Step(t, op, h)[SettingsPk].createdAt == t[SettingsPk].createdAt
    ensures HashesSet(t) && Sound(h) && (op.SaveOp? ==> op.obj.hash != "") ==> HashesSet(Step(t, op, h))
  {
  }

  /** No sequence of operations ever puts a second row in the table. */
  lemma {:induction false} RunKeepsSingleton(t: Table, ops: seq<Op>, h: Hasher)
    requires Singleton(t)
    ensures Singleton(Run(t, ops, h))
    decreases |ops|
  {
    if ops != [] {
      StepKeepsInvariants(t, ops[0], h);
      RunKeepsSingleton(Step(t, ops[0], h), ops[1..], h);
    }
  }

  /** Once the settings row exists it is never removed and its creation
      time never changes: `delete` is a no-op and every write updates in place. */
  lemma {:induction false} RunKeepsSettingsRow(t: Table, ops: seq<Op>, h: Hasher)
    requires SettingsPk in t
    ensures SettingsPk in Run(t, ops, h)
    ensures Run(t, ops, h)[SettingsPk].createdAt == t[SettingsPk].createdAt
    decreases |ops|
  {
    if ops != [] {
      StepKeepsInvariants(t, ops[0], h);
      RunKeepsSettingsRow(Step(t, ops[0], h), ops[1..], h);
    }
  }

  /** With a sound hasher, the stored rows always carry a hash as long as no
      programmatic save writes an object without one. */
  lemma {:induction false} RunKeepsHashesSet(t: Table, ops: seq<Op>, h: Hasher)
    requires Sound(h) && HashesSet(t)
    requires forall i | 0 <= i < |ops| :: ops[i].SaveOp? ==> ops[i].obj.hash != ""
    ensures HashesSet(Run(t, ops, h))
    decreases |ops|
  {
    if ops != [] {
      StepKeepsInvariants(t, ops[0], h);
      RunKeepsHashesSet(Step(t, ops[0], h), ops[1..], h);
    }
  }

  /** Once the table holds any row, the admin never again offers to add one:
      no operation removes a row. */
  lemma {:induction false} AddPermissionStaysClosed(t: Table, ops: seq<Op>, h: Hasher)
    requires t != map[]
    ensures !SettingsHasAddPermission(Run(t, ops, h))
    decreases |ops|
  {
    if ops != [] {
      StepKeepsInvariants(t, ops[0], h);
      AddPermissionStaysClosed(Step(t, ops[0], h), ops[1..], h);
    }
  }
}
