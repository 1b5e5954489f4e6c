# Core settings of the video-call backend, in Dafny

This project models the `core` Django app of the video-call backend: the
system-wide settings row that holds the access password, and the admin pages
that manage it.

- `hashers.dfy` (module `Hashers`): password hashing as a pair of foreign
  functions, `make` and `check`, with one assumption, `Sound`. Every encoding
  `make` produces is non-empty and verifies the password it was made from. No
  concrete algorithm is modelled. The random salt is a parameter.
- `models.dfy` (module `CoreModels`): the `SystemSettings` row (hash, active
  flag, creation time) and the table as a map from primary key to row.
  `set_password`, `check_password`, `get_settings`, `save` and `delete` are
  pure transitions of that table. The clock behind `auto_now_add` is the
  parameter `now`.
- `admin.dfy` (module `CoreAdmin`): the settings form's password check
  (`clean`), the admin's `save_model` as the composition of its blocks, the
  hash preview, the room-id shortener and the permission answers of the
  settings page and the activity-log page.
- `lifecycle.dfy` (module `SettingsLifecycle`): any sequence of those
  operations. It proves the table stays a singleton, that the settings row is
  never removed and keeps its creation time, and that, with a sound hasher,
  stored hashes stay non-empty unless a programmatic `save` writes an object
  without a hash.

Python's `not x` treats `None` and `''` alike, so an empty Dafny string
stands for both an absent and a blank password field. The strings `clean`
receives are the cleaned field values, which Django's `CharField` has already
stripped of surrounding whitespace.

The table is a map keyed by primary key rather than an optional single row.
This makes "only key 1 is ever written" a property to prove rather than a
property of the representation. `has_add_permission` asks whether the table
holds any row at all, and the map lets the model say that too.

## Model

| member | source | states |
|---|---|---|
| Hashers.MakePassword | backend/apps/core/models.py:24-26 | with a sound hasher, the encoding of a password is non-empty and verifies that password |
| CoreModels.SetPassword | backend/apps/core/models.py:24-30 | `set_password` changes only the hash; with a sound hasher the new hash is non-empty, so afterwards `check_password(raw)` holds |
| CoreModels.CheckPassword | backend/apps/core/models.py:28-30 | with a sound hasher, `check_password(raw)` accepts any hash made from `raw`, whatever salt was drawn; `CoreModels.SetPassword` states the set-then-check round trip |
| CoreModels.GetSettings | backend/apps/core/models.py:32-47 | on a table with no row under key 1, it creates one there: active, stamped now, with a hash verifying 'admin123'; otherwise it returns the stored row and leaves the table unchanged |
| CoreModels.Save | backend/apps/core/models.py:49-74 | the object always lands under key 1 and no other row changes; an existing row gets only the new hash and active flag and keeps its creation time; on an empty key the object is inserted with the current time |
| CoreModels.SaveKeepsInvariants | backend/apps/core/models.py:52-74 | `save` keeps a singleton table singleton, leaves exactly one row exactly when the table was singleton, and keeps every row hashed when the object has a hash |
| CoreModels.Delete | backend/apps/core/models.py:76-78 | `delete` leaves the table unchanged |
| CoreAdmin.Clean | backend/apps/core/admin.py:32-51 | both fields empty gives acceptance; once one field is filled, each error holds exactly in its case: new password missing, then confirmation missing, then mismatch, then shorter than 6; otherwise accepted |
| CoreAdmin.CleanReportsFirstViolation | backend/apps/core/admin.py:38-49 | the form accepts iff no check fails when each is judged on its own; a rejection names a failing check, and no failing check comes earlier in the order |
| CoreAdmin.SaveModel | backend/apps/core/admin.py:78-149 | after `save_model`, the row under key 1 verifies the new password if one was given. Without one, it keeps a non-empty stored hash, or else verifies 'admin123'. With a sound hasher the hash is never empty. The active flag is the stored one unless 'is_active' is in `changed_data`, the creation time is kept, and no other row changes |
| CoreAdmin.SaveModelReadsOnlyFormActiveFlag | backend/apps/core/admin.py:86-134 | two form objects that agree on `is_active` lead to the same table: the form object's hash and creation time never reach the database |
| CoreAdmin.AcceptedPasswordIsTheNewAccessPassword | backend/apps/core/admin.py:45-116 | a new password the form accepts is at least 6 long, and after `save_model` the row `get_settings` returns verifies it |
| CoreAdmin.PasswordHashPreview | backend/apps/core/admin.py:162-170 | an empty hash shows the "not set" message; a hash of at most 20 characters is shown whole; a longer one shows its first 20 characters followed by '...' |
| CoreAdmin.PreviewsCollideOnlyOnLongHashes | backend/apps/core/admin.py:165 | two hashes get the same preview iff they are equal, or both are longer than 20 and share their first 20 characters |
| CoreAdmin.RoomIdShort | backend/apps/core/admin.py:205-209 | an empty room id shows 'N/A'; any other shows its first min(8, length) characters followed by '...' |
| CoreAdmin.RoomIdShortMarksMissingIds | backend/apps/core/admin.py:205-209 | the display is 'N/A' iff the room id is empty: a real id's display always ends in '...' |
| CoreAdmin.SettingsHasAddPermission | backend/apps/core/admin.py:173-177 | on a singleton table, adding is allowed iff there is no row under key 1 |
| CoreAdmin.SettingsHasDeletePermission | backend/apps/core/admin.py:179-181 | no contract of its own (it is the constant "never"); its promise is stated by `CoreAdmin.SettingsPageKeepsOneRow` |
| CoreAdmin.LogHasAddPermission | backend/apps/core/admin.py:212-214 | no contract of its own: the source's constant answer "never", restated in `CoreAdmin.ActivityLogIsReadOnly` |
| CoreAdmin.LogHasChangePermission | backend/apps/core/admin.py:216-218 | no contract of its own: the source's constant answer "never", restated in `CoreAdmin.ActivityLogIsReadOnly` |
| CoreAdmin.LogHasDeletePermission | backend/apps/core/admin.py:220-222 | no contract of its own: the source's answer "superusers only", restated in `CoreAdmin.ActivityLogIsReadOnly` |
| CoreAdmin.SettingsPageKeepsOneRow | backend/apps/core/admin.py:173-181 | after any `save`, `save_model` or `get_settings`, adding is no longer allowed, and deleting never is |
| CoreAdmin.ActivityLogIsReadOnly | backend/apps/core/admin.py:212-222 | restates the source's constant answers: activity-log entries cannot be added or changed through the admin, and only superusers may delete them |
| SettingsLifecycle.StepKeepsInvariants | backend/apps/core/models.py:49-78 | each operation removes no row, keeps the table singleton, keeps the settings row and its creation time, and, with a sound hasher, keeps rows hashed except for a programmatic save of a hash-less object |
| SettingsLifecycle.RunKeepsSingleton | backend/apps/core/models.py:52-74 | no sequence of operations puts a second row in the table |
| SettingsLifecycle.RunKeepsSettingsRow | backend/apps/core/models.py:56-78 | once the settings row exists, no sequence of operations removes it or changes its creation time |
| SettingsLifecycle.RunKeepsHashesSet | backend/apps/core/admin.py:124-127 | with a sound hasher, stored rows stay hashed through any sequence of operations whose programmatic saves carry a hash |
| SettingsLifecycle.AddPermissionStaysClosed | backend/apps/core/admin.py:173-177 | once the table holds any row, no sequence of operations removes it, so the admin never again offers to add one |

## Left out

- The password hashing algorithm is left out. `make_password` and `check_password` are a salted foreign library. They are a parameter of type `Hasher`, and the model assumes only `Sound`.
- Salt: one salt is supplied per operation and every `make_password` call inside that operation uses it. Within `save_model`, only the last hash survives, and the retry re-hashes the same password. So no stated property depends on the salts being distinct.
- `updated_at` is not modelled: no behaviour in the core depends on it. `save` copies it back into the object after an update (backend/apps/core/models.py:67) and the admin lists, filters and shows it (backend/apps/core/admin.py:60-62 and 73), but nothing branches on it. One consequence the model does not record: the update path of `save` uses a queryset `update()`, which bypasses `auto_now`, so after insertion `updated_at` never changes.
- The ORM, SQL and `refresh_from_db` are left out. So is `save`'s refresh of the object's own `id` and timestamps after an update, because `save_model` never reads the object again. The race between the existence check and the update in `save` is a concurrency concern.
- `save_model`'s `except Exception` branch around the final check is left out. Under the model, `save` always leaves a row under key 1, so the re-read cannot fail.
- Logging, `message_user`, `format_html` and the HTML of the previews are presentation only. So are `password_status`, `Media`, the `admin.site` headers, `Meta`, `get_queryset` (it returns the default queryset) and the `__str__` methods.
- `delete_old_logs` is left out. It depends on `datetime.now()` and a bulk delete on `RoomActivityLog`, and that model's fields are not part of this model.
- `CoreModels.Delete`: its contract is the whole of its behaviour (the source's `delete` does nothing). The point it serves is `SettingsLifecycle.RunKeepsSettingsRow`.
- The repository's deployment and provisioning shell scripts are not part of this model. They are I/O glue around package managers, containers and certificates.
