# Device management backend, modelled in Dafny

The system is the server side of a remote device-management tool. Phones
register themselves, report incoming SMS and form submissions, and poll
for commands queued by an operator's panel. The panel also stores a few
global settings: an SMS forwarding number and Telegram credentials. There
are two versions of the backend, and both are modelled.

- `main.py` (FastAPI over SQLite) keeps five tables: `devices`,
  `commands`, `sms_logs`, `form_submissions` and `global_settings`.
  Module `Registry` (`registry.dfy`) models it.
  - Class `Registry.Backend` holds each table as a sequence of rows in
    storage order. `global_settings` is a map.
  - Each HTTP handler is a method that changes those fields.
  - Each SELECT and DELETE, and the command-status UPDATE, is a function
    over the sequences. The other inserts and updates are inline
    assignments to the fields in the handler methods.
  - `AUTOINCREMENT` ids are per-table counters.
- `server.py` (Flask over a JSON file) keeps one in-memory dictionary,
  `data_store`. Module `DataStore` (`datastore.dfy`) models it.
  - Class `DataStore.Store` holds the `devices` dictionary and the two
    configuration dictionaries.
  - Request bodies are decoded JSON values (module `Json`, `json.dfy`),
    together with Python's truthiness, `dict.get` and hashability.

Shared modules:

- `Text` (`text.dfy`): Python's `str.strip()` and `str(n)` with its
  decimal inverse, and Python's string order.
- `Seqs` (`seqs.dfy`): an order-keeping filter (a `WHERE` clause) and an
  insertion sort under a given comparison (`ORDER BY`, `sorted`).
- `Base` (`base.dfy`): `Option` and the handler reply
  `Ok | BadRequest | NotFound | ServerError`.

Time is an integer number of seconds, passed in as `now`. A `last_seen`
text that cannot be parsed is `None`.

Main properties proved:

- **Command lifecycle (SQLite backend).** Commands only move forward:
  pending → sent → executed (`StatusesAdvance`).
  - The lemmas `MarkedSentAdvances`, `ExecuteAdvances`, `RemovalAdvances`
    and `AppendAdvances` prove it for each step.
  - Every handler of `Backend` that touches commands also ensures it.
  - A poll hands out exactly the device's pending commands and marks
    exactly those as sent, so a second poll returns nothing. The one
    exception is a backlog longer than SQLite's host-parameter limit: then
    the update fails and nothing changes. Every later poll fails while
    the device's pending backlog stays above the limit. Executing commands
    by id, or deleting the device, brings it back under.
- **Identifiers and ids.** Device identifiers are stored stripped and
  unique. AUTOINCREMENT ids grow along each table.
- **Deletes (SQLite backend).** The cascading device delete and the
  single-SMS delete remove exactly the rows they name, and keep every
  other row.
- **Positional ids (JSON backend).** Each device's `sms` and `forms`
  lists are numbered `"1".."n"` by position. Every handler except
  registration keeps this. Registration keeps it when the request body has
  neither key; such a key replaces the list and can break it.
- **SMS reads (JSON backend).** They return a permutation of the stored
  list, ordered newest first under Python's own comparison.
  - They fail exactly when Python's `sorted` would raise, except on
    list-valued sort keys (see "Left out").
  - One consequence, proved in `DataStore.EntryRanks`: a historical SMS
    whose date is a string cannot be sorted next to an SMS received later
    through the single-SMS route. Sorting compares that string date with
    the later SMS's integer `received_at`, and Python raises `TypeError`.

`main.py` strips the registering identifier but does not reject one that
is empty after stripping (main.py:137); `RegisterDevice` registers it like
any other. The battery level is not range-checked, except that SQLite
cannot bind an integer outside the signed 64-bit range: such a value, like
such a command or SMS id, makes the handler fail before anything is
written.

## Model

| member | source | states |
|---|---|---|
| Text.IsSpace | main.py:137 | definition: the characters Python's `str.isspace` accepts, which `strip()` removes |
| Text.Trim | main.py:137 | `strip()` never lengthens the identifier, and its result has no whitespace at either end |
| Text.TrimIsSlice | main.py:137 | the input is some whitespace, then the stripped result, then some whitespace: only whitespace at the two ends is removed |
| Text.TrimmedIsFixed | main.py:137 | stripping leaves a string unchanged exactly when it has no whitespace at either end |
| Text.TrimIdempotent | main.py:137 | stripping a stored, already stripped identifier gives it back, so every later lookup by a stripped identifier finds it |
| Text.TrimEmpty | main.py:137 | the stripped identifier is empty exactly when the input was all whitespace |
| Text.NatToString | server.py:102 | `str(n)` is a non-empty run of decimal digits with no leading zero |
| Text.DecimalRoundTrip | server.py:102 | `int(str(n)) == n` for every natural `n` |
| Text.NatToStringInjective | server.py:102 | distinct positions give distinct `str()` ids |
| Text.StrLe | server.py:161 | definition: Python's `<=` on two strings, code point by code point, a prefix first |
| Text.StrLeTotal | server.py:161 | any two string sort keys compare one way round or the other |
| Text.StrLeTransitive | server.py:161 | Python's string order is transitive |
| Text.StrLeAntisymmetric | server.py:161 | two strings each at most the other are equal |
| Seqs.Keep | main.py:295 | a `WHERE` keeps exactly the rows satisfying the condition, never adds rows, and keeps every row exactly when all satisfy it |
| Seqs.KeepDistinct | main.py:328 | deleting rows keeps a unique column unique |
| Seqs.SortBy | main.py:175 | sorting returns a permutation of its input in which no key is followed by a larger one |
| Registry.FitsInt64 | main.py:149-152 | definition: the signed 64-bit range of integers SQLite can bind |
| Registry.ViewOf | main.py:185-193 | definition: the answer entry for a device row, with its online flag against `now` |
| Registry.IsOnline | main.py:180-184 | online iff `last_seen` parsed and `now - last_seen < 20`; exactly 20 seconds is offline; an unparseable `last_seen` is always offline |
| Registry.ByCreation | main.py:175 | `ORDER BY created_at ASC` returns every device row once, oldest first |
| Registry.FindDevice | main.py:139-140 | the lookup finds a row with that identifier, or reports none exactly when no row has it |
| Registry.DevicesExceptKeepsKeys | main.py:328 | deleting a device keeps exactly the other rows, and keeps identifiers unique and stripped |
| Registry.AppendLogTable | main.py:258-261 | an insert takes the next AUTOINCREMENT id and keeps ids increasing |
| Registry.KeepLogTable | main.py:329-331 | a `DELETE ... WHERE` keeps a logged table's ids increasing and in range |
| Registry.Views | main.py:299 | definition: id, type and payload of each selected row, in table order |
| Registry.SetStatusWhereIdIn | main.py:303 | definition: `UPDATE commands SET status = ? WHERE id IN (...)`, also used with one id for main.py:312; stated by `ExecuteAdvances` and `UpdateByIdsIsMarkedSent` |
| Registry.PendingFor | main.py:294-297 | the poll selects exactly that device's pending commands |
| Registry.SetStatusKeepsTable | main.py:303 | a status update keeps the command table's ids and owners |
| Registry.MarkedSent | main.py:303 | marking a device's pending commands as sent keeps every row's id and owner |
| Registry.MarkedSentKeepsTable | main.py:303 | marking as sent keeps the command table well formed |
| Registry.SuccessorNeverReturnsToPending | main.py:295 | a command that left pending never returns to it, and an executed command never changes |
| Registry.UpdateByIdsIsMarkedSent | main.py:300-303 | updating by the ids just selected marks exactly that device's pending commands as sent |
| Registry.BatchIds | main.py:301 | the ids read back from the answer are exactly those of the selected rows |
| Registry.NothingPending | main.py:300 | with nothing pending the poll changes nothing |
| Registry.PollDrains | main.py:290-306 | after a poll the device has nothing pending, so a second poll returns an empty list |
| Registry.MarkedSentAdvances | main.py:303 | a poll is a lifecycle step (`StatusesAdvance`), and every row either stays as it was or was pending and becomes sent |
| Registry.ExecuteAdvances | main.py:312 | executing is a lifecycle step (`StatusesAdvance`): the row with that id becomes executed whatever its status, and every other row stays as it was |
| Registry.ExecuteUnknownIsNoOp | main.py:312 | executing an unknown id changes nothing |
| Registry.RemovalAdvances | main.py:331 | deleting commands is a lifecycle step (`StatusesAdvance`), and every row left is a row of the table before, unchanged |
| Registry.AppendAdvances | main.py:258-261 | queuing a command with a fresh id is a lifecycle step (`StatusesAdvance`), and the existing rows stay as they were, in place |
| Registry.CommandsExceptKeeps | main.py:331 | deleting a device's commands keeps exactly the other devices' commands, unchanged, and keeps the table well formed |
| Registry.SmsExceptDeviceKeeps | main.py:329 | deleting a device's SMS keeps exactly the other devices' SMS |
| Registry.FormsExceptDeviceKeeps | main.py:330 | deleting a device's forms keeps exactly the other devices' forms |
| Registry.DeleteSmsRemovesOne | main.py:340 | deleting an existing SMS id removes exactly that one row, in place |
| Registry.SmsOf | main.py:361 | definition: the SMS rows stored under an identifier, in table order |
| Registry.FormsOf | main.py:352 | definition: the form rows stored under an identifier, in table order |
| Registry.DevicesExcept | main.py:328 | definition: `DELETE FROM devices WHERE device_id = ?` keeps the other rows in order; stated by `DevicesExceptKeepsKeys` |
| Registry.SmsExceptDevice | main.py:329 | definition: `DELETE FROM sms_logs WHERE device_id = ?`; stated by `SmsExceptDeviceKeeps` |
| Registry.FormsExceptDevice | main.py:330 | definition: `DELETE FROM form_submissions WHERE device_id = ?`; stated by `FormsExceptDeviceKeeps` |
| Registry.CommandsExcept | main.py:331 | definition: `DELETE FROM commands WHERE device_id = ?`; stated by `CommandsExceptKeeps` |
| Registry.SmsExceptId | main.py:340 | definition: `DELETE FROM sms_logs WHERE id = ?`; stated by `SmsExceptIdKeeps` and `DeleteSmsRemovesOne` |
| Registry.SmsExceptIdKeeps | main.py:340-343 | deleting by SMS id removes one row when the id exists and none otherwise |
| Registry.SmsByRecency | main.py:361 | a device's SMS, all of them and only them, newest first |
| Registry.FormsByRecency | main.py:352 | a device's form submissions, all of them and only them, newest first |
| Registry.Setting | main.py:234-237 | definition: the stored value of a settings key, or `""` when no row has it |
| Registry.Upserted | main.py:216-220 | definition: a run of upserts, a later key overwriting an earlier one |
| Registry.UniqueFind | main.py:139-140 | with unique identifiers the lookup finds the one row that has it |
| Registry.UniqueDevicesDropOne | main.py:328 | deleting an existing device removes exactly one row |
| Registry.DistinctIds | main.py:43 | increasing ids never repeat |
| Registry.AdvanceReflexive | main.py:324-326 | a step that changes nothing keeps the command lifecycle |
| Registry.Backend.constructor | main.py:23-79 | a fresh database has five empty tables |
| Registry.Backend.RegisterDevice | main.py:132-169 | one row per stripped identifier: a repeat registration overwrites all four optional fields, even with `None`, sets `last_seen = now` and keeps `created_at`; a first one appends a row with `created_at = last_seen = now`; a battery level outside the signed 64-bit range fails with nothing changed; nothing else changes |
| Registry.Backend.GetDevices | main.py:171-195 | one entry per device row, oldest registration first, each with its online flag against `now`; no state changes |
| Registry.Backend.UpdateSmsForwardConfig | main.py:199-209 | upserts the forwarding number, which the next read returns; nothing else changes |
| Registry.Backend.UpdateTelegramConfig | main.py:211-223 | upserts both Telegram keys in turn; nothing else changes |
| Registry.Backend.SmsForwardConfig | main.py:229-237 | the last written forwarding number, or `""` if none was ever written, whatever device id the route carries |
| Registry.Backend.TelegramConfig | main.py:239-250 | exactly the two Telegram keys, each with its stored value or `""` |
| Registry.Backend.SendCommand | main.py:254-264 | appends one pending command under the stripped identifier, with an id above every existing one, without checking that the device exists; other commands and tables unchanged |
| Registry.Backend.SubmitForm | main.py:266-276 | appends one submission under the stripped identifier with the next id; nothing else changes |
| Registry.Backend.LogSms | main.py:278-288 | appends one SMS under the stripped identifier with the next id; nothing else changes |
| Registry.Backend.GetPendingCommands | main.py:290-306 | fails, with the table unchanged, exactly when the device has more pending commands than the SQLite build binds parameters; later polls keep failing while the backlog stays above the limit, which executing commands by id or deleting the device ends; otherwise returns the device's pending commands in table order and turns exactly those to sent, and a second poll finds none; statuses only advance |
| Registry.Backend.UpdateStatus | main.py:303 | the status update statement on the command table, keeping the tables well formed |
| Registry.Backend.MarkCommandExecuted | main.py:308-315 | sets the command with that id to executed whatever its status; an unknown id within the signed 64-bit range changes nothing and is still a success; an id outside that range fails with nothing changed; other commands unchanged |
| Registry.Backend.DeleteDevice | main.py:317-334 | NotFound iff no row has the stripped identifier, and then nothing changes; otherwise the device and all its SMS, forms and commands go, and every other row stays |
| Registry.Backend.DeleteDeviceRow | main.py:328 | removes the device row and keeps identifiers unique and stripped |
| Registry.Backend.DeleteSmsOf | main.py:329 | removes the device's SMS and keeps the rest |
| Registry.Backend.DeleteFormsOf | main.py:330 | removes the device's forms and keeps the rest |
| Registry.Backend.DeleteCommandsOf | main.py:331 | removes the device's commands and keeps the rest unchanged |
| Registry.Backend.DeleteSmsLog | main.py:336-346 | an id outside the signed 64-bit range fails with nothing changed; otherwise NotFound iff no SMS row has that id, and then nothing changes; otherwise exactly that row goes |
| Registry.Backend.DeleteSmsRow | main.py:340-341 | the row count of the delete is 1 when the id exists and 0 otherwise |
| Registry.Backend.FormSubmissions | main.py:348-355 | the submissions under the stripped identifier, all and only those, newest first |
| Registry.Backend.SmsLogs | main.py:357-364 | the SMS under the stripped identifier, all and only those, newest first |
| Json.Truthy | server.py:69 | definition: Python's `bool()` of a decoded JSON value |
| Json.Get | server.py:67 | definition: `dict.get(k)`, `None` for a missing key |
| Json.Hashable | server.py:72 | definition: the values Python accepts as dict keys |
| DataStore.NewRecord | server.py:73-77 | definition: the record a first registration starts from |
| DataStore.Merged | server.py:80-81 | definition: `update(body)` then `last_seen`; stated by `MergedKeys` |
| DataStore.NewSmsEntry | server.py:101-107 | definition: the `"new"` entry appended to a list of a given length |
| DataStore.FormEntry | server.py:189-193 | definition: the form entry appended to a list of a given length |
| DataStore.HistoricalEntry | server.py:138-145 | definition: the `"historical"` entry stored for a kept batch item |
| DataStore.Complete | server.py:134 | definition: a dict item with truthy address, body and date |
| DataStore.SortKey | server.py:161 | definition: `date`, else `received_at`, else 0 |
| DataStore.RankOf | server.py:161 | definition: what Python compares a sort key as: a number, a string, or neither |
| DataStore.RankLe | server.py:161 | definition: Python's `<=` between two numbers or two strings; false for any other pair |
| DataStore.Sortable | server.py:161 | definition: all items are dicts and, from two items on, all keys are numbers or all are strings |
| DataStore.MergedKeys | server.py:79-81 | request keys overwrite stored ones, other stored keys are kept, and `last_seen` is the given time whatever the request said |
| DataStore.AppendPositional | server.py:102 | appending the entry numbered `len + 1` keeps the ids `"1".."n"` by position |
| DataStore.PositionalIdsDistinct | server.py:102 | positional ids never repeat within a list |
| DataStore.MergedWellFormed | server.py:80 | registration keeps a record's two lists when the request has no `sms` or `forms` key |
| DataStore.SetListKeepsWellFormed | server.py:108 | storing a positionally numbered list keeps every record well formed |
| DataStore.OverwrittenSmsBreaksRecord | server.py:80 | a request with an `sms` key that is not a list overwrites the list and breaks the record |
| DataStore.Accepted | server.py:128-135 | the batch items kept are exactly those with truthy address, body and date, each as many times as it occurs in the batch |
| DataStore.Historical | server.py:137-145 | one stored entry per kept item, numbered by position |
| DataStore.HistoricalCopiesItems | server.py:137-145 | each stored entry copies the address, body and date of a kept item |
| DataStore.HistoricalStep | server.py:128-146 | one more batch item adds one entry, at the end, exactly when it is complete, so the stored entries follow batch order |
| DataStore.FirstNonObject | server.py:129 | the position of the first batch item that is not a dict, whose `.get` raises |
| DataStore.CollectHistorical | server.py:128-146 | the loop stops at the first item that is not a dict and has stored exactly the entries for the kept items before it |
| DataStore.RankLeTransitive | server.py:161 | Python's comparison of sort keys is transitive |
| DataStore.SortableIsTotal | server.py:161 | in a list Python can sort, every two keys compare |
| DataStore.NewestFirst | server.py:161 | the sort succeeds exactly when Python's would, list-valued keys aside: on a list of dicts whose keys are all numbers or all strings, or on at most one dict, and on an empty string or dict; the result is a permutation, largest key first |
| DataStore.MixedKeysFail | server.py:161 | a numeric key and a string key in the same list make the sort fail |
| DataStore.EntryRanks | server.py:101-108 | a new SMS sorts by its integer arrival time and a historical one by its reported date, so a string date cannot be sorted next to a new SMS |
| DataStore.NewestFirstIsPermutation | server.py:161 | the read returns every stored entry, each once |
| DataStore.Store.constructor | server.py:14-19 | the default store: no devices, the placeholder forwarding number and `None` Telegram values |
| DataStore.Store.Register | server.py:50-83 | a non-dict body fails; a falsy `device_id` is a 400 with no change; an unhashable one fails; otherwise a new device starts from the first clock reading as `created_at` and two empty lists, the request keys are merged in, `last_seen` is the second reading, and the lists stay numbered when the body has neither list key |
| DataStore.Store.ReceiveNewSms | server.py:85-110 | a missing sender or body is a 400, decided before the 404 for an unknown device; otherwise one entry with id `str(len + 1)` and type `"new"` is appended and earlier entries are untouched |
| DataStore.Store.ReceiveAllSms | server.py:112-149 | a non-list body is a 400 and an unknown device a 404, both with no change; otherwise the list is replaced by the kept items, numbered by position; the reply counts the whole batch, which is at least the number stored; a non-dict item fails after the entries before it were stored |
| DataStore.Store.RefillSms | server.py:128-146 | resets the `sms` list and refills it from the batch up to the first item that is not a dict; other records and the configuration unchanged |
| DataStore.Store.SmsNewestFirst | server.py:151-162 | 404 iff the device is unknown; otherwise a permutation of the stored list, largest key first; on a well-formed store it succeeds exactly when Python's sort would, list-valued sort keys aside |
| DataStore.Store.SmsForwardConfig | server.py:164-167 | definition: the stored forwarding config dict as it is; its contents are stated by the constructor and `AdminSetSmsForward` |
| DataStore.Store.TelegramConfig | server.py:169-172 | definition: the stored Telegram config dict as it is; its contents are stated by the constructor and `AdminSetTelegramConfig` |
| DataStore.Store.ReceiveFormDetails | server.py:174-196 | a falsy `custom_data` is a 400, then an unknown device a 404; otherwise one entry with id `str(len + 1)` is appended |
| DataStore.Store.AdminSetSmsForward | server.py:215-224 | 400 iff `forward_number` is falsy; otherwise that key is overwritten and read back; nothing else changes |
| DataStore.Store.AdminSetTelegramConfig | server.py:226-237 | 400 unless both `bot_token` and `chat_id` are truthy; otherwise both are overwritten and read back; nothing else changes |
| DataStore.DeviceCommands | server.py:200-206 | every device is told it has no commands, and no state is read |
| DataStore.MarkCommandExecuted | server.py:208-212 | every command id is acknowledged as executed, and no state is read or changed |

## Left out

- The HTTP layer is not modelled: routing, CORS, response bodies and the
  status codes themselves. Handlers return a `Reply` instead.
  - pydantic's 422 for a malformed body is not modelled.
  - An uncaught Python exception appears as `ServerError`.
- Storage I/O is not modelled. This covers SQLite connections, commits
  and `CREATE TABLE`, and `load_data`/`save_data` of the JSON file. The
  tables and the dictionary are in-memory state.
  - JSON serialisation turns integer dictionary keys into strings across a
    save and a load. Not modelled.
- Clocks are not read. `datetime.now`, `strftime`, `strptime` and
  `time.time()` become parameters: `now`, and for the JSON-file
  registration, which reads the clock twice, `createdAt` and `lastSeen`.
  - `main.py` stores its timestamps as `"%Y-%m-%d %H:%M:%S"` text and
    `ORDER BY` compares that text. The model uses integers, which order
    the same way for four-digit years.
  - `receive_all_sms` calls `time.time()` once per item. The model uses
    one `now` for the whole batch.
- `main.py` stores `json.dumps(command_data)` (main.py:260). The model
  takes the payload as an already serialised string.
- Concurrency is not modelled: the gunicorn worker setting and the
  check-then-act races in register and delete. Each handler runs alone.
- Floating-point JSON numbers are not modelled.
- Python's `True == 1` dictionary-key collision is not modelled: a
  `device_id` of `true` and one of `1` would share a record.
- `DataStore.NewestFirst`: list-valued sort keys are reported as failing.
  Python compares lists element by element and can sort them.
- `DataStore.Store.SmsNewestFirst`: for the same reason, a stored list
  whose sort keys (`date`, or `received_at` when there is no `date`) are
  lists is reported as failing where Python may sort it.
- `Registry.ByCreation`, `Registry.SmsByRecency`, `Registry.FormsByRecency`
  `DataStore.NewestFirst` and `DataStore.Store.SmsNewestFirst` do not
  claim an order among rows with equal
  keys. SQLite leaves that order unspecified, and Python's stable order is
  not modelled.
- `DataStore.Store.Register` and `DataStore.Store.RefillSms` build the
  record or list and store it in one assignment. Python mutates it in
  place. No other handler runs in between, so the store passes through
  the same states.
- `Registry.AppendLogTable`: the AUTOINCREMENT counters are unbounded.
  SQLite fails an insert with `SQLITE_FULL` once the largest rowid is
  2^63-1; the model never reaches that failure.
- The root handler, the HTML status page, `admin_get_devices`, the unused
  `commands` entry of `data_store` and the `__main__` runners are not
  modelled. They only return constants or the raw dictionary.
