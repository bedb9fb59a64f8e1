/** The SQLite-backed backend: a device registry, a command queue, SMS and form
    logs and a global key/value settings table, all updated in place by the
    HTTP handlers. Each table is a sequence of rows in storage order; each SQL
    statement a handler issues is a function over those sequences. Time is an
    integer number of seconds since the epoch, passed in as `now`. */
module Registry {
  import opened Base
  import opened Text
  import opened Seqs

  /** A device is online when it was seen less than this many seconds ago. */
  const OnlineThresholdSeconds: int := 20
  /** `timedelta(days=1)`: how long ago an unparseable `last_seen` is taken to be. */
  const OneDaySeconds: int := 86400

  /** The integers SQLite can bind: Python's `sqlite3` raises `OverflowError`
      for an `int` parameter outside the signed 64-bit range, before the
      statement runs. */
  const Int64Min: int := -0x8000_0000_0000_0000
  const Int64Max: int := 0x7FFF_FFFF_FFFF_FFFF

  predicate FitsInt64(n: int) {
    Int64Min <= n <= Int64Max
  }

  const SmsForwardKey: string := "sms_forward_number"
  const TelegramTokenKey: string := "telegram_bot_token"
  const TelegramChatKey: string := "telegram_chat_id"

  /** The body of `POST /api/device/register`. */
  datatype RegisterRequest = RegisterRequest(
    deviceId: string,
    deviceName: Option<string>,
    osVersion: Option<string>,
    phoneNumber: Option<string>,
    batteryLevel: Option<int>)

  /** A row of `devices`. `lastSeen` is the stored `last_seen` text as the
      "%Y-%m-%d %H:%M:%S" parser reads it: `None` when it cannot be parsed. */
  datatype Device = Device(
    deviceId: string,
    deviceName: Option<string>,
    osVersion: Option<string>,
    phoneNumber: Option<string>,
    batteryLevel: Option<int>,
    lastSeen: Option<int>,
    createdAt: int)

  /** One entry of the `GET /api/devices` answer. */
  datatype DeviceView = DeviceView(
    deviceId: string,
    deviceName: Option<string>,
    osVersion: Option<string>,
    phoneNumber: Option<string>,
    batteryLevel: Option<int>,
    isOnline: bool,
    createdAt: int)

  datatype CommandStatus = Pending | Sent | Executed

  /** A row of `commands`; `commandData` is the payload already serialised. */
  datatype Command = Command(
    id: int,
    deviceId: string,
    commandType: string,
    commandData: string,
    status: CommandStatus,
    createdAt: int)

  /** What a poll hands to the device for each pending command. */
  datatype CommandView = CommandView(id: int, commandType: string, commandData: string)

  datatype SmsLog = SmsLog(id: int, deviceId: string, sender: string, messageBody: string, receivedAt: int)

  datatype FormSubmission = FormSubmission(id: int, deviceId: string, customData: string, submittedAt: int)

  // ----- the online flag -----

  /** The online flag of `get_devices`: an unparseable `last_seen` is replaced
      by "one day before now", so such a device is always offline; otherwise
      the device is online exactly when it was seen strictly less than 20
      seconds ago. */
  function IsOnline(now: int, lastSeen: Option<int>): (online: bool)
    ensures online <==> lastSeen.Some? && now - lastSeen.value < OnlineThresholdSeconds
    ensures lastSeen.Some? && now - lastSeen.value == OnlineThresholdSeconds ==> !online
  {
    var seen := if lastSeen.Some? then lastSeen.value else now - OneDaySeconds;
    now - seen < OnlineThresholdSeconds
  }

  function ViewOf(d: Device, now: int): DeviceView {
    DeviceView(d.deviceId, d.deviceName, d.osVersion, d.phoneNumber, d.batteryLevel,
               IsOnline(now, d.lastSeen), d.createdAt)
  }

  function CreatedAt(d: Device): int { d.createdAt }

  /** `SELECT * FROM devices ORDER BY created_at ASC`: every row once, oldest
      registration first. */
  function ByCreation(devices: seq<Device>): (rows: seq<Device>)
    ensures multiset(rows) == multiset(devices) && |rows| == |devices|
    ensures forall i, j :: 0 <= i < j < |rows| ==> rows[i].createdAt <= rows[j].createdAt
  {
    IntegerOrders(devices, CreatedAt);
    var rows := SortBy(devices, CreatedAt, AtLeast);
    assert forall i, j :: 0 <= i < j < |rows| ==> AtLeast(CreatedAt(rows[j]), CreatedAt(rows[i]));
    rows
  }

  // ----- devices table -----

  ghost predicate UniqueDeviceIds(devices: seq<Device>) {
    forall i, j :: 0 <= i < j < |devices| ==> devices[i].deviceId != devices[j].deviceId
  }

  /** `SELECT id FROM devices WHERE device_id = ?`: the position of the row
      with that identifier, if any. */
  function FindDevice(devices: seq<Device>, id: string): (r: Option<nat>)
    ensures r.Some? ==> r.value < |devices| && devices[r.value].deviceId == id
    ensures r.None? <==> forall i :: 0 <= i < |devices| ==> devices[i].deviceId != id
    decreases |devices|
  {
    if devices == [] then None
    else if devices[0].deviceId == id then Some(0)
    else
      match FindDevice(devices[1..], id)
      case None =>
        assert forall i :: 1 <= i < |devices| ==> devices[i] == devices[1..][i - 1];
        None
      case Some(k) => Some(k + 1)
  }

  /** `DELETE FROM devices WHERE device_id = ?` */
  function DevicesExcept(devices: seq<Device>, id: string): seq<Device> {
    Keep(devices, (d: Device) => d.deviceId != id)
  }

  /** Deleting a device's row keeps every other row and keeps the
      identifiers unique and stripped. */
  lemma DevicesExceptKeepsKeys(devices: seq<Device>, id: string)
    requires UniqueDeviceIds(devices)
    requires forall i :: 0 <= i < |devices| ==> Trimmed(devices[i].deviceId)
    ensures UniqueDeviceIds(DevicesExcept(devices, id))
    ensures forall i :: 0 <= i < |DevicesExcept(devices, id)| ==> Trimmed(DevicesExcept(devices, id)[i].deviceId)
    ensures forall d :: d in DevicesExcept(devices, id) <==> d in devices && d.deviceId != id
  {
    var key := (d: Device) => d.deviceId;
    assert DistinctKeys(devices, key);
    KeepDistinct(devices, (d: Device) => d.deviceId != id, key);
    KeepAllHave(devices, (d: Device) => d.deviceId != id, (d: Device) => Trimmed(d.deviceId));
  }

  // ----- commands table -----

  function CommandId(c: Command): int { c.id }
  function CommandOwner(c: Command): string { c.deviceId }

  /** A table keyed by SQLite's AUTOINCREMENT whose rows belong to devices:
      every id is at least 1 and below the next id to be handed out, ids grow
      along the table, and every owning identifier is stored stripped. */
  ghost predicate LogTable<T>(rows: seq<T>, id: T -> int, owner: T -> string, next: int) {
    && 1 <= next
    && StrictlyIncreasing(rows, id)
    && (forall i :: 0 <= i < |rows| ==> 1 <= id(rows[i]) < next)
    && (forall i :: 0 <= i < |rows| ==> Trimmed(owner(rows[i])))
  }

  /** An `INSERT` takes the next id and moves the counter on. */
  lemma AppendLogTable<T>(rows: seq<T>, x: T, id: T -> int, owner: T -> string, next: int)
    requires LogTable(rows, id, owner, next)
    requires id(x) == next && Trimmed(owner(x))
    ensures LogTable(rows + [x], id, owner, next + 1)
  {
  }

  /** A `DELETE ... WHERE` on such a table keeps it one. */
  lemma KeepLogTable<T(!new)>(rows: seq<T>, p: T -> bool, id: T -> int, owner: T -> string, next: int)
    requires LogTable(rows, id, owner, next)
    ensures LogTable(Keep(rows, p), id, owner, next)
  {
    KeepIncreasing(rows, p, id);
    KeepAllHave(rows, p, (x: T) => 1 <= id(x) < next && Trimmed(owner(x)));
  }

  /** `SELECT ... FROM commands WHERE device_id = ? AND status = 'pending'` */
  function PendingFor(commands: seq<Command>, deviceId: string): (r: seq<Command>)
    ensures forall c :: c in r <==> c in commands && c.deviceId == deviceId && c.status == Pending
  {
    Keep(commands, (c: Command) => c.deviceId == deviceId && c.status == Pending)
  }

  /** The list a poll answers with: id, type and payload of each selected
      row, in table order. */
  function Views(rows: seq<Command>): seq<CommandView> {
    seq(|rows|, i requires 0 <= i < |rows| => CommandView(rows[i].id, rows[i].commandType, rows[i].commandData))
  }

  function IdsOf(rows: seq<Command>): set<int> {
    set c | c in rows :: c.id
  }

  /** `UPDATE commands SET status = ? WHERE id IN (...)` */
  function SetStatusWhereIdIn(commands: seq<Command>, ids: set<int>, status: CommandStatus): seq<Command> {
    seq(|commands|, i requires 0 <= i < |commands| =>
      if commands[i].id in ids then commands[i].(status := status) else commands[i])
  }

  /** A status update changes no id and no owner, so the command table
      stays well formed. */
  lemma SetStatusKeepsTable(commands: seq<Command>, ids: set<int>, status: CommandStatus, next: int)
    requires LogTable(commands, CommandId, CommandOwner, next)
    ensures LogTable(SetStatusWhereIdIn(commands, ids, status), CommandId, CommandOwner, next)
  {
    var r := SetStatusWhereIdIn(commands, ids, status);
    assert forall i :: 0 <= i < |r| ==> CommandId(r[i]) == CommandId(commands[i]) && CommandOwner(r[i]) == CommandOwner(commands[i]);
  }

  /** The effect a poll by `deviceId` is meant to have: exactly that device's
      pending commands become sent. */
  function MarkedSent(commands: seq<Command>, deviceId: string): (r: seq<Command>)
    ensures |r| == |commands|
    ensures forall i :: 0 <= i < |r| ==> r[i].id == commands[i].id && r[i].deviceId == commands[i].deviceId
  {
    seq(|commands|, i requires 0 <= i < |commands| =>
      if commands[i].deviceId == deviceId && commands[i].status == Pending
      then commands[i].(status := Sent) else commands[i])
  }

  /** A poll changes statuses only, so the command table stays well formed. */
  lemma MarkedSentKeepsTable(commands: seq<Command>, deviceId: string, next: int)
    requires LogTable(commands, CommandId, CommandOwner, next)
    ensures LogTable(MarkedSent(commands, deviceId), CommandId, CommandOwner, next)
  {
    var m := MarkedSent(commands, deviceId);
    assert forall i :: 0 <= i < |m| ==> CommandId(m[i]) == CommandId(commands[i]) && CommandOwner(m[i]) == CommandOwner(commands[i]);
  }

  /** `d` is what `c` may become: same row with a status that stayed put,
      went from pending to sent, or became executed. */
  ghost predicate Successor(c: Command, d: Command) {
    && d == c.(status := d.status)
    && (d.status == c.status || (c.status == Pending && d.status == Sent) || d.status == Executed)
  }

  /** Every command present before and after a step has moved forward in the
      lifecycle pending -> sent -> executed. In particular no command goes
      back to pending and an executed command is never altered. */
  ghost predicate StatusesAdvance(before: seq<Command>, after: seq<Command>) {
    forall i, j :: 0 <= i < |before| && 0 <= j < |after| && before[i].id == after[j].id ==>
      Successor(before[i], after[j])
  }

  lemma SuccessorNeverReturnsToPending(c: Command, d: Command)
    requires Successor(c, d)
    ensures c.status != Pending ==> d.status != Pending
    ensures c.status == Executed ==> d == c
  {
  }

  /** Updating by the id set the poll selected is the same as marking exactly
      that device's pending commands as sent, because ids are unique. */
  lemma {:induction false} UpdateByIdsIsMarkedSent(commands: seq<Command>, deviceId: string)
    requires StrictlyIncreasing(commands, CommandId)
    ensures SetStatusWhereIdIn(commands, IdsOf(PendingFor(commands, deviceId)), Sent) == MarkedSent(commands, deviceId)
  {
    var rows := PendingFor(commands, deviceId);
    var r := SetStatusWhereIdIn(commands, IdsOf(rows), Sent);
    var m := MarkedSent(commands, deviceId);
    DistinctIds(commands);
    forall i | 0 <= i < |commands| ensures r[i] == m[i] {
      var c := commands[i];
      if c.deviceId == deviceId && c.status == Pending {
        assert c in rows;
      }
    }
  }

  /** The ids the poll reads back from its batch are those of the rows it selected. */
  lemma BatchIds(rows: seq<Command>, batch: seq<CommandView>)
    requires |batch| == |rows|
    requires forall i :: 0 <= i < |rows| ==> batch[i].id == rows[i].id
    ensures (set j | 0 <= j < |batch| :: batch[j].id) == IdsOf(rows)
  {
    var ids := set j | 0 <= j < |batch| :: batch[j].id;
    forall x | x in IdsOf(rows) ensures x in ids {
      var c :| c in rows && c.id == x;
      var j :| 0 <= j < |rows| && rows[j] == c;
      assert batch[j].id == x;
    }
  }

  /** With nothing pending for the device, a poll changes nothing. */
  lemma NothingPending(commands: seq<Command>, deviceId: string)
    requires PendingFor(commands, deviceId) == []
    ensures MarkedSent(commands, deviceId) == commands
  {
    forall i | 0 <= i < |commands|
      ensures !(commands[i].deviceId == deviceId && commands[i].status == Pending)
    {
      assert commands[i] in commands;
    }
  }

  /** After a poll the device has nothing pending: an immediate second poll
      returns an empty list. */
  lemma PollDrains(commands: seq<Command>, deviceId: string)
    ensures PendingFor(MarkedSent(commands, deviceId), deviceId) == []
  {
    var m := MarkedSent(commands, deviceId);
    KeepNone(m, (c: Command) => c.deviceId == deviceId && c.status == Pending);
  }

  /** A poll only moves pending commands to sent: every other row stays as
      it was. */
  lemma {:induction false} MarkedSentAdvances(commands: seq<Command>, deviceId: string)
    requires StrictlyIncreasing(commands, CommandId)
    ensures StatusesAdvance(commands, MarkedSent(commands, deviceId))
    ensures forall i :: 0 <= i < |commands| ==>
      var m := MarkedSent(commands, deviceId);
      m[i] == commands[i] || (commands[i].status == Pending && m[i] == commands[i].(status := Sent))
  {
    var m := MarkedSent(commands, deviceId);
    DistinctIds(commands);
    forall i, j | 0 <= i < |commands| && 0 <= j < |m| && commands[i].id == m[j].id
      ensures Successor(commands[i], m[j])
    {
    }
  }

  /** Acknowledging moves the command with that id to executed, whatever it
      was, and leaves every other row as it was. */
  lemma {:induction false} ExecuteAdvances(commands: seq<Command>, id: int)
    requires StrictlyIncreasing(commands, CommandId)
    ensures StatusesAdvance(commands, SetStatusWhereIdIn(commands, {id}, Executed))
    ensures |SetStatusWhereIdIn(commands, {id}, Executed)| == |commands|
    ensures forall i :: 0 <= i < |commands| ==>
      SetStatusWhereIdIn(commands, {id}, Executed)[i] ==
        if commands[i].id == id then commands[i].(status := Executed) else commands[i]
  {
    var r := SetStatusWhereIdIn(commands, {id}, Executed);
    DistinctIds(commands);
    forall i, j | 0 <= i < |commands| && 0 <= j < |r| && commands[i].id == r[j].id
      ensures Successor(commands[i], r[j])
    {
    }
  }

  /** An unknown id leaves the table as it was. */
  lemma {:induction false} ExecuteUnknownIsNoOp(commands: seq<Command>, id: int)
    requires forall i :: 0 <= i < |commands| ==> commands[i].id != id
    ensures SetStatusWhereIdIn(commands, {id}, Executed) == commands
  {
    var r := SetStatusWhereIdIn(commands, {id}, Executed);
    assert forall i :: 0 <= i < |r| ==> r[i] == commands[i];
  }

  /** Removing rows keeps every surviving command as it was: each row left
      is a row of the table before, unchanged. */
  lemma {:induction false} RemovalAdvances(commands: seq<Command>, p: Command -> bool)
    requires StrictlyIncreasing(commands, CommandId)
    ensures StatusesAdvance(commands, Keep(commands, p))
    ensures forall c :: c in Keep(commands, p) ==> c in commands
  {
    var r := Keep(commands, p);
    DistinctIds(commands);
    forall i, j | 0 <= i < |commands| && 0 <= j < |r| && commands[i].id == r[j].id
      ensures Successor(commands[i], r[j])
    {
      assert r[j] in r;
    }
  }

  /** Appending a command with a fresh id leaves the existing ones alone. */
  lemma {:induction false} AppendAdvances(commands: seq<Command>, c: Command)
    requires StrictlyIncreasing(commands, CommandId)
    requires forall i :: 0 <= i < |commands| ==> commands[i].id < c.id
    ensures StatusesAdvance(commands, commands + [c])
    ensures (commands + [c])[..|commands|] == commands
  {
    var r := commands + [c];
    DistinctIds(commands);
    forall i, j | 0 <= i < |commands| && 0 <= j < |r| && commands[i].id == r[j].id
      ensures Successor(commands[i], r[j])
    {
    }
  }

  function CommandsExcept(commands: seq<Command>, deviceId: string): seq<Command> {
    Keep(commands, (c: Command) => c.deviceId != deviceId)
  }

  /** Deleting a device's commands keeps the table well formed, keeps every
      other command as it was, and leaves none of that device's. */
  lemma CommandsExceptKeeps(commands: seq<Command>, id: string, next: int)
    requires LogTable(commands, CommandId, CommandOwner, next)
    ensures LogTable(CommandsExcept(commands, id), CommandId, CommandOwner, next)
    ensures StatusesAdvance(commands, CommandsExcept(commands, id))
    ensures forall c :: c in CommandsExcept(commands, id) <==> c in commands && c.deviceId != id
  {
    KeepLogTable(commands, (c: Command) => c.deviceId != id, CommandId, CommandOwner, next);
    RemovalAdvances(commands, (c: Command) => c.deviceId != id);
  }

  // ----- sms_logs and form_submissions tables -----

  function SmsId(s: SmsLog): int { s.id }
  function SmsOwner(s: SmsLog): string { s.deviceId }
  function ReceivedAt(s: SmsLog): int { s.receivedAt }
  function FormId(f: FormSubmission): int { f.id }
  function FormOwner(f: FormSubmission): string { f.deviceId }
  function SubmittedAt(f: FormSubmission): int { f.submittedAt }

  function SmsOf(logs: seq<SmsLog>, deviceId: string): seq<SmsLog> {
    Keep(logs, (s: SmsLog) => s.deviceId == deviceId)
  }

  function SmsExceptDevice(logs: seq<SmsLog>, deviceId: string): seq<SmsLog> {
    Keep(logs, (s: SmsLog) => s.deviceId != deviceId)
  }

  /** `DELETE FROM sms_logs WHERE id = ?` */
  function SmsExceptId(logs: seq<SmsLog>, id: int): seq<SmsLog> {
    Keep(logs, (s: SmsLog) => s.id != id)
  }

  function FormsOf(forms: seq<FormSubmission>, deviceId: string): seq<FormSubmission> {
    Keep(forms, (f: FormSubmission) => f.deviceId == deviceId)
  }

  function FormsExceptDevice(forms: seq<FormSubmission>, deviceId: string): seq<FormSubmission> {
    Keep(forms, (f: FormSubmission) => f.deviceId != deviceId)
  }

  /** Deleting a device's SMS keeps the table well formed and every other row. */
  lemma SmsExceptDeviceKeeps(logs: seq<SmsLog>, id: string, next: int)
    requires LogTable(logs, SmsId, SmsOwner, next)
    ensures LogTable(SmsExceptDevice(logs, id), SmsId, SmsOwner, next)
    ensures forall s :: s in SmsExceptDevice(logs, id) <==> s in logs && s.deviceId != id
  {
    KeepLogTable(logs, (s: SmsLog) => s.deviceId != id, SmsId, SmsOwner, next);
  }

  /** Deleting a device's forms keeps the table well formed and every other row. */
  lemma FormsExceptDeviceKeeps(forms: seq<FormSubmission>, id: string, next: int)
    requires LogTable(forms, FormId, FormOwner, next)
    ensures LogTable(FormsExceptDevice(forms, id), FormId, FormOwner, next)
    ensures forall f :: f in FormsExceptDevice(forms, id) <==> f in forms && f.deviceId != id
  {
    KeepLogTable(forms, (f: FormSubmission) => f.deviceId != id, FormId, FormOwner, next);
  }

  /** Deleting one SMS by id removes exactly one row when some row has that
      id, because AUTOINCREMENT ids are unique. */
  lemma DeleteSmsRemovesOne(logs: seq<SmsLog>, id: int, k: nat)
    requires StrictlyIncreasing(logs, SmsId)
    requires k < |logs| && logs[k].id == id
    ensures SmsExceptId(logs, id) == logs[..k] + logs[k + 1..]
    ensures |SmsExceptId(logs, id)| == |logs| - 1
  {
    KeepDropsOne(logs, (s: SmsLog) => s.id != id, SmsId, id, k);
  }

  /** Deleting by id keeps the table well formed and removes at most one
      row: none when the id is absent, and the table is then unchanged. */
  lemma SmsExceptIdKeeps(logs: seq<SmsLog>, id: int, next: int)
    requires LogTable(logs, SmsId, SmsOwner, next)
    ensures LogTable(SmsExceptId(logs, id), SmsId, SmsOwner, next)
    ensures (forall i :: 0 <= i < |logs| ==> logs[i].id != id) ==> SmsExceptId(logs, id) == logs
    ensures (exists i :: 0 <= i < |logs| && logs[i].id == id) ==> |SmsExceptId(logs, id)| == |logs| - 1
  {
    if forall i :: 0 <= i < |logs| ==> logs[i].id != id {
      KeepAll(logs, (s: SmsLog) => s.id != id);
    } else {
      var k :| 0 <= k < |logs| && logs[k].id == id;
      DeleteSmsRemovesOne(logs, id, k);
    }
    KeepLogTable(logs, (s: SmsLog) => s.id != id, SmsId, SmsOwner, next);
  }

  /** `SELECT * ... WHERE device_id = ? ORDER BY ... DESC` on one table. */
  function SmsByRecency(rows: seq<SmsLog>, deviceId: string): (r: seq<SmsLog>)
    ensures forall s :: s in r <==> s in rows && s.deviceId == deviceId
    ensures multiset(r) == multiset(SmsOf(rows, deviceId))
    ensures forall i, j :: 0 <= i < j < |r| ==> r[i].receivedAt >= r[j].receivedAt
  {
    var mine := SmsOf(rows, deviceId);
    IntegerOrders(mine, ReceivedAt);
    var r := SortBy(mine, ReceivedAt, AtMost);
    SameMembers(r, mine);
    assert forall i, j :: 0 <= i < j < |r| ==> AtMost(ReceivedAt(r[j]), ReceivedAt(r[i]));
    r
  }

  /** `SELECT * ... WHERE device_id = ? ORDER BY ... DESC` on one table. */
  function FormsByRecency(rows: seq<FormSubmission>, deviceId: string): (r: seq<FormSubmission>)
    ensures forall f :: f in r <==> f in rows && f.deviceId == deviceId
    ensures multiset(r) == multiset(FormsOf(rows, deviceId))
    ensures forall i, j :: 0 <= i < j < |r| ==> r[i].submittedAt >= r[j].submittedAt
  {
    var mine := FormsOf(rows, deviceId);
    IntegerOrders(mine, SubmittedAt);
    var r := SortBy(mine, SubmittedAt, AtMost);
    SameMembers(r, mine);
    assert forall i, j :: 0 <= i < j < |r| ==> AtMost(SubmittedAt(r[j]), SubmittedAt(r[i]));
    r
  }

  // ----- global_settings table -----

  /** `SELECT setting_value ... WHERE setting_key = ?`, with `""` for a
      missing row. */
  function Setting(settings: map<string, string>, key: string): string {
    if key in settings then settings[key] else ""
  }

  /** A run of `INSERT ... ON CONFLICT(setting_key) DO UPDATE` statements. */
  function Upserted(settings: map<string, string>, pairs: seq<(string, string)>): map<string, string>
    decreases |pairs|
  {
    if pairs == [] then settings
    else Upserted(settings, pairs[..|pairs| - 1])[pairs[|pairs| - 1].0 := pairs[|pairs| - 1].1]
  }

  // ----- the backend -----

  class Backend {
    var devices: seq<Device>
    var commands: seq<Command>
    var smsLogs: seq<SmsLog>
    var forms: seq<FormSubmission>
    var settings: map<string, string>
    // the AUTOINCREMENT counters of the three logged tables
    var nextCommandId: int
    var nextSmsId: int
    var nextFormId: int

    /** One row per device identifier; every stored identifier is already
        stripped; ids of commands, SMS and forms are AUTOINCREMENT ids. */
    ghost predicate Valid()
      reads this
    {
      && UniqueDeviceIds(devices)
      && (forall i :: 0 <= i < |devices| ==> Trimmed(devices[i].deviceId))
      && LogTable(commands, CommandId, CommandOwner, nextCommandId)
      && LogTable(smsLogs, SmsId, SmsOwner, nextSmsId)
      && LogTable(forms, FormId, FormOwner, nextFormId)
    }

    /** A fresh database: `init_db` creates five empty tables. */
    constructor ()
      ensures Valid()
      ensures devices == [] && commands == [] && smsLogs == [] && forms == [] && settings == map[]
    {
      devices, commands, smsLogs, forms, settings := [], [], [], [], map[];
      nextCommandId, nextSmsId, nextFormId := 1, 1, 1;
    }

    /** `POST /api/device/register`. The identifier is stripped but not
        checked: an empty identifier is registered like any other. A battery
        level SQLite cannot bind makes the `UPDATE` or `INSERT` raise before
        anything is written. */
    method RegisterDevice(req: RegisterRequest, now: int) returns (r: Reply<()>)
      requires Valid()
      modifies this
      ensures Valid() && (r == Ok(()) || r == ServerError)
      ensures r == ServerError <==> req.batteryLevel.Some? && !FitsInt64(req.batteryLevel.value)
      ensures r == ServerError ==> devices == old(devices)
      ensures r.Ok? ==> var id := Trim(req.deviceId);
        match FindDevice(old(devices), id)
        case Some(k) =>
          devices == old(devices)[k := Device(id, req.deviceName, req.osVersion, req.phoneNumber, req.batteryLevel,
                                              Some(now), old(devices)[k].createdAt)]
        case None =>
          devices == old(devices) + [Device(id, req.deviceName, req.osVersion, req.phoneNumber, req.batteryLevel,
                                            Some(now), now)]
      ensures r.Ok? ==> FindDevice(devices, Trim(req.deviceId)).Some?
      ensures commands == old(commands) && smsLogs == old(smsLogs) && forms == old(forms) && settings == old(settings)
      ensures nextCommandId == old(nextCommandId) && nextSmsId == old(nextSmsId) && nextFormId == old(nextFormId)
    {
      if req.batteryLevel.Some? && !FitsInt64(req.batteryLevel.value) {
        return ServerError;
      }
      var id := Trim(req.deviceId);
      match FindDevice(devices, id) {
        case Some(k) =>
          devices := devices[k := devices[k].(deviceName := req.deviceName, osVersion := req.osVersion,
                                              phoneNumber := req.phoneNumber, batteryLevel := req.batteryLevel,
                                              lastSeen := Some(now))];
          assert devices[k].deviceId == id;
        case None =>
          devices := devices + [Device(id, req.deviceName, req.osVersion, req.phoneNumber, req.batteryLevel, Some(now), now)];
          assert devices[|devices| - 1].deviceId == id;
      }
      r := Ok(());
    }

    /** `GET /api/devices`: every device row once, in order of registration,
        each with its online flag computed against `now`. */
    method GetDevices(now: int) returns (views: seq<DeviceView>)
      ensures |views| == |devices|
      ensures var rows := ByCreation(devices);
        forall i :: 0 <= i < |rows| ==> i < |views| && views[i] == ViewOf(rows[i], now)
      ensures var rows := ByCreation(devices);
        forall i :: 0 <= i < |rows| ==>
          i < |views| && (views[i].isOnline <==> rows[i].lastSeen.Some? && now - rows[i].lastSeen.value < OnlineThresholdSeconds)
      ensures forall i, j :: 0 <= i < j < |views| ==> views[i].createdAt <= views[j].createdAt
    {
      var rows := ByCreation(devices);
      views := [];
      var i := 0;
      while i < |rows|
        invariant 0 <= i <= |rows|
        invariant |views| == i
        invariant forall k :: 0 <= k < i ==> views[k] == ViewOf(rows[k], now)
      {
        views := views + [ViewOf(rows[i], now)];
        i := i + 1;
      }
    }

    /** `POST /api/config/sms_forward` */
    method UpdateSmsForwardConfig(forwardNumber: string) returns (r: Reply<()>)
      requires Valid()
      modifies this
      ensures Valid() && r == Ok(())
      ensures settings == old(settings)[SmsForwardKey := forwardNumber]
      ensures SmsForwardConfig(None) == forwardNumber
      ensures devices == old(devices) && commands == old(commands) && smsLogs == old(smsLogs) && forms == old(forms)
      ensures nextCommandId == old(nextCommandId) && nextSmsId == old(nextSmsId) && nextFormId == old(nextFormId)
    {
      settings := settings[SmsForwardKey := forwardNumber];
      r := Ok(());
    }

    /** `POST /api/config/telegram`: both keys are upserted in turn. */
    method UpdateTelegramConfig(botToken: string, chatId: string) returns (r: Reply<()>)
      requires Valid()
      modifies this
      ensures Valid() && r == Ok(())
      ensures settings == old(settings)[TelegramTokenKey := botToken][TelegramChatKey := chatId]
      ensures devices == old(devices) && commands == old(commands) && smsLogs == old(smsLogs) && forms == old(forms)
      ensures nextCommandId == old(nextCommandId) && nextSmsId == old(nextSmsId) && nextFormId == old(nextFormId)
    {
      var pairs := [(TelegramTokenKey, botToken), (TelegramChatKey, chatId)];
      var i := 0;
      while i < |pairs|
        invariant 0 <= i <= |pairs|
        invariant settings == Upserted(old(settings), pairs[..i])
        invariant devices == old(devices) && commands == old(commands) && smsLogs == old(smsLogs) && forms == old(forms)
        invariant nextCommandId == old(nextCommandId) && nextSmsId == old(nextSmsId) && nextFormId == old(nextFormId)
      {
        assert pairs[..i + 1][..i] == pairs[..i];
        settings := settings[pairs[i].0 := pairs[i].1];
        i := i + 1;
      }
      assert pairs[..1][..0] == [];
      assert pairs[..2][..1] == pairs[..1];
      r := Ok(());
    }

    /** `GET /api/config/sms_forward` and `GET /api/device/{id}/sms_forward`:
        the stored number, or `""` when none was ever set. The device id of
        the second route is accepted and ignored: the setting is global. */
    function SmsForwardConfig(deviceId: Option<string>): (forwardNumber: string)
      reads this
      ensures SmsForwardKey in settings ==> forwardNumber == settings[SmsForwardKey]
      ensures SmsForwardKey !in settings ==> forwardNumber == ""
    {
      Setting(settings, SmsForwardKey)
    }

    /** `GET /api/config/telegram`: both Telegram keys, each with its stored
        value or `""`. */
    method TelegramConfig() returns (results: map<string, string>)
      ensures results.Keys == {TelegramTokenKey, TelegramChatKey}
      ensures forall k :: k in results ==> (k in settings ==> results[k] == settings[k]) && (k !in settings ==> results[k] == "")
    {
      var keys := [TelegramTokenKey, TelegramChatKey];
      results := map[];
      var i := 0;
      while i < |keys|
        invariant 0 <= i <= |keys|
        invariant results.Keys == set j | 0 <= j < i :: keys[j]
        invariant forall k :: k in results ==> results[k] == Setting(settings, k)
      {
        results := results[keys[i] := Setting(settings, keys[i])];
        i := i + 1;
      }
      assert keys[0] in results.Keys && keys[1] in results.Keys;
    }

    /** `POST /api/command/send`: queues one pending command under the
        stripped identifier, without checking that the device exists. */
    method SendCommand(deviceId: string, commandType: string, commandData: string, now: int) returns (r: Reply<()>)
      requires Valid()
      modifies this
      ensures Valid() && r == Ok(())
      ensures commands == old(commands) + [Command(old(nextCommandId), Trim(deviceId), commandType, commandData, Pending, now)]
      ensures forall i :: 0 <= i < |old(commands)| ==> old(commands)[i].id < old(nextCommandId)
      ensures StatusesAdvance(old(commands), commands)
      ensures devices == old(devices) && smsLogs == old(smsLogs) && forms == old(forms) && settings == old(settings)
      ensures nextSmsId == old(nextSmsId) && nextFormId == old(nextFormId)
    {
      var c := Command(nextCommandId, Trim(deviceId), commandType, commandData, Pending, now);
      AppendLogTable(commands, c, CommandId, CommandOwner, nextCommandId);
      AppendAdvances(commands, c);
      commands := commands + [c];
      nextCommandId := nextCommandId + 1;
      r := Ok(());
    }

    /** `POST /api/device/{id}/forms`: appends one submission, without
        checking that the device exists. */
    method SubmitForm(deviceId: string, customData: string, now: int) returns (r: Reply<()>)
      requires Valid()
      modifies this
      ensures Valid() && r == Ok(())
      ensures forms == old(forms) + [FormSubmission(old(nextFormId), Trim(deviceId), customData, now)]
      ensures forall i :: 0 <= i < |old(forms)| ==> old(forms)[i].id < old(nextFormId)
      ensures devices == old(devices) && commands == old(commands) && smsLogs == old(smsLogs) && settings == old(settings)
      ensures nextCommandId == old(nextCommandId) && nextSmsId == old(nextSmsId)
    {
      AppendLogTable(forms, FormSubmission(nextFormId, Trim(deviceId), customData, now), FormId, FormOwner, nextFormId);
      forms := forms + [FormSubmission(nextFormId, Trim(deviceId), customData, now)];
      nextFormId := nextFormId + 1;
      r := Ok(());
    }

    /** `POST /api/device/{id}/sms`: appends one SMS, without checking that
        the device exists. */
    method LogSms(deviceId: string, sender: string, messageBody: string, now: int) returns (r: Reply<()>)
      requires Valid()
      modifies this
      ensures Valid() && r == Ok(())
      ensures smsLogs == old(smsLogs) + [SmsLog(old(nextSmsId), Trim(deviceId), sender, messageBody, now)]
      ensures forall i :: 0 <= i < |old(smsLogs)| ==> old(smsLogs)[i].id < old(nextSmsId)
      ensures devices == old(devices) && commands == old(commands) && forms == old(forms) && settings == old(settings)
      ensures nextCommandId == old(nextCommandId) && nextFormId == old(nextFormId)
    {
      AppendLogTable(smsLogs, SmsLog(nextSmsId, Trim(deviceId), sender, messageBody, now), SmsId, SmsOwner, nextSmsId);
      smsLogs := smsLogs + [SmsLog(nextSmsId, Trim(deviceId), sender, messageBody, now)];
      nextSmsId := nextSmsId + 1;
      r := Ok(());
    }

    /** `GET /api/device/{id}/commands`: returns the device's pending commands
        in table order and marks exactly those as sent. The update binds one
        parameter per pending command; past the SQLite build's host-parameter
        limit `maxVariables` (999 before SQLite 3.32, 32766 from it on) the
        statement fails and nothing is committed. Later polls fail too while
        the backlog stays above the limit. */
    method GetPendingCommands(deviceId: string, maxVariables: nat) returns (r: Reply<seq<CommandView>>)
      requires Valid()
      modifies this
      ensures Valid() && (r.Ok? || r == ServerError)
      ensures r == ServerError <==> |PendingFor(old(commands), Trim(deviceId))| > maxVariables
      ensures r == ServerError ==> commands == old(commands)
      ensures r.Ok? ==> r.value == Views(PendingFor(old(commands), Trim(deviceId)))
      ensures r.Ok? ==> commands == MarkedSent(old(commands), Trim(deviceId))
      ensures r.Ok? ==> PendingFor(commands, Trim(deviceId)) == []
      ensures StatusesAdvance(old(commands), commands)
      ensures devices == old(devices) && smsLogs == old(smsLogs) && forms == old(forms) && settings == old(settings)
      ensures nextCommandId == old(nextCommandId) && nextSmsId == old(nextSmsId) && nextFormId == old(nextFormId)
    {
      var id := Trim(deviceId);
      var rows := PendingFor(commands, id);
      if |rows| > maxVariables {
        AdvanceReflexive(commands);
        return ServerError;
      }
      var batch := Views(rows);
      UpdateByIdsIsMarkedSent(commands, id);
      MarkedSentAdvances(commands, id);
      PollDrains(commands, id);
      if |batch| > 0 {
        var ids := set j | 0 <= j < |batch| :: batch[j].id;
        BatchIds(rows, batch);
        UpdateStatus(ids, Sent);
      } else {
        NothingPending(commands, id);
      }
      r := Ok(batch);
    }

    /** `UPDATE commands SET status = ? WHERE id IN (...)`: only statuses
        change, so the tables stay well formed. */
    method UpdateStatus(ids: set<int>, status: CommandStatus)
      requires Valid()
      modifies this
      ensures Valid()
      ensures commands == SetStatusWhereIdIn(old(commands), ids, status)
      ensures devices == old(devices) && smsLogs == old(smsLogs) && forms == old(forms) && settings == old(settings)
      ensures nextCommandId == old(nextCommandId) && nextSmsId == old(nextSmsId) && nextFormId == old(nextFormId)
    {
      SetStatusKeepsTable(commands, ids, status, nextCommandId);
      commands := SetStatusWhereIdIn(commands, ids, status);
    }

    /** `POST /api/command/{id}/execute`: marks the command executed whatever
        its status; an unknown id is still answered with success. An id
        SQLite cannot bind raises before the `UPDATE` runs. */
    method MarkCommandExecuted(commandId: int) returns (r: Reply<()>)
      requires Valid()
      modifies this
      ensures Valid() && (r == Ok(()) || r == ServerError)
      ensures r == ServerError <==> !FitsInt64(commandId)
      ensures |commands| == |old(commands)|
      ensures r.Ok? ==> forall i :: 0 <= i < |commands| ==>
        commands[i] == if old(commands)[i].id == commandId then old(commands)[i].(status := Executed) else old(commands)[i]
      ensures r == ServerError ==> commands == old(commands)
      ensures (forall i :: 0 <= i < |old(commands)| ==> old(commands)[i].id != commandId) ==> commands == old(commands)
      ensures StatusesAdvance(old(commands), commands)
      ensures devices == old(devices) && smsLogs == old(smsLogs) && forms == old(forms) && settings == old(settings)
      ensures nextCommandId == old(nextCommandId) && nextSmsId == old(nextSmsId) && nextFormId == old(nextFormId)
    {
      if !FitsInt64(commandId) {
        AdvanceReflexive(commands);
        return ServerError;
      }
      ExecuteAdvances(commands, commandId);
      if forall i :: 0 <= i < |commands| ==> commands[i].id != commandId {
        ExecuteUnknownIsNoOp(commands, commandId);
      }
      UpdateStatus({commandId}, Executed);
      r := Ok(());
    }

    /** `DELETE /api/device/{id}`: 404 when no device row has the stripped
        identifier; otherwise the device row and all of its SMS, forms and
        commands are removed, one `DELETE` statement per table, and every
        other row stays. */
    method DeleteDevice(deviceId: string) returns (r: Reply<()>)
      requires Valid()
      modifies this
      ensures Valid()
      ensures r == NotFound || r == Ok(())
      ensures r == NotFound <==> forall i :: 0 <= i < |old(devices)| ==> old(devices)[i].deviceId != Trim(deviceId)
      ensures r == NotFound ==>
        devices == old(devices) && commands == old(commands) && smsLogs == old(smsLogs) && forms == old(forms)
      ensures r.Ok? ==>
        && devices == DevicesExcept(old(devices), Trim(deviceId))
        && smsLogs == SmsExceptDevice(old(smsLogs), Trim(deviceId))
        && forms == FormsExceptDevice(old(forms), Trim(deviceId))
        && commands == CommandsExcept(old(commands), Trim(deviceId))
      ensures r.Ok? ==>
        && |devices| == |old(devices)| - 1
        && (forall d :: d in devices <==> d in old(devices) && d.deviceId != Trim(deviceId))
        && (forall c :: c in commands <==> c in old(commands) && c.deviceId != Trim(deviceId))
        && (forall s :: s in smsLogs <==> s in old(smsLogs) && s.deviceId != Trim(deviceId))
        && (forall f :: f in forms <==> f in old(forms) && f.deviceId != Trim(deviceId))
      ensures StatusesAdvance(old(commands), commands)
      ensures settings == old(settings)
      ensures nextCommandId == old(nextCommandId) && nextSmsId == old(nextSmsId) && nextFormId == old(nextFormId)
    {
      var id := Trim(deviceId);
      if FindDevice(devices, id).None? {
        r := NotFound;
        AdvanceReflexive(commands);
        return;
      }
      var k := FindDevice(devices, id).value;
      UniqueDevicesDropOne(devices, id, k);
      DeleteDeviceRow(id);
      DeleteSmsOf(id);
      DeleteFormsOf(id);
      DeleteCommandsOf(id);
      r := Ok(());
    }

    /** `DELETE FROM devices WHERE device_id = ?` */
    method DeleteDeviceRow(id: string)
      requires UniqueDeviceIds(devices) && forall i :: 0 <= i < |devices| ==> Trimmed(devices[i].deviceId)
      modifies this
      ensures devices == DevicesExcept(old(devices), id)
      ensures UniqueDeviceIds(devices) && forall i :: 0 <= i < |devices| ==> Trimmed(devices[i].deviceId)
      ensures forall d :: d in devices <==> d in old(devices) && d.deviceId != id
      ensures commands == old(commands) && smsLogs == old(smsLogs) && forms == old(forms) && settings == old(settings)
      ensures nextCommandId == old(nextCommandId) && nextSmsId == old(nextSmsId) && nextFormId == old(nextFormId)
    {
      DevicesExceptKeepsKeys(devices, id);
      devices := DevicesExcept(devices, id);
    }

    /** `DELETE FROM sms_logs WHERE device_id = ?` */
    method DeleteSmsOf(id: string)
      requires LogTable(smsLogs, SmsId, SmsOwner, nextSmsId)
      modifies this
      ensures smsLogs == SmsExceptDevice(old(smsLogs), id)
      ensures LogTable(smsLogs, SmsId, SmsOwner, nextSmsId)
      ensures forall s :: s in smsLogs <==> s in old(smsLogs) && s.deviceId != id
      ensures devices == old(devices) && commands == old(commands) && forms == old(forms) && settings == old(settings)
      ensures nextCommandId == old(nextCommandId) && nextSmsId == old(nextSmsId) && nextFormId == old(nextFormId)
    {
      SmsExceptDeviceKeeps(smsLogs, id, nextSmsId);
      smsLogs := SmsExceptDevice(smsLogs, id);
    }

    /** `DELETE FROM form_submissions WHERE device_id = ?` */
    method DeleteFormsOf(id: string)
      requires LogTable(forms, FormId, FormOwner, nextFormId)
      modifies this
      ensures forms == FormsExceptDevice(old(forms), id)
      ensures LogTable(forms, FormId, FormOwner, nextFormId)
      ensures forall f :: f in forms <==> f in old(forms) && f.deviceId != id
      ensures devices == old(devices) && commands == old(commands) && smsLogs == old(smsLogs) && settings == old(settings)
      ensures nextCommandId == old(nextCommandId) && nextSmsId == old(nextSmsId) && nextFormId == old(nextFormId)
    {
      FormsExceptDeviceKeeps(forms, id, nextFormId);
      forms := FormsExceptDevice(forms, id);
    }

    /** `DELETE FROM commands WHERE device_id = ?` */
    method DeleteCommandsOf(id: string)
      requires LogTable(commands, CommandId, CommandOwner, nextCommandId)
      modifies this
      ensures commands == CommandsExcept(old(commands), id)
      ensures LogTable(commands, CommandId, CommandOwner, nextCommandId)
      ensures StatusesAdvance(old(commands), commands)
      ensures forall c :: c in commands <==> c in old(commands) && c.deviceId != id
      ensures devices == old(devices) && smsLogs == old(smsLogs) && forms == old(forms) && settings == old(settings)
      ensures nextCommandId == old(nextCommandId) && nextSmsId == old(nextSmsId) && nextFormId == old(nextFormId)
    {
      CommandsExceptKeeps(commands, id, nextCommandId);
      commands := CommandsExcept(commands, id);
    }

    /** `DELETE /api/sms/{id}`: an id SQLite cannot bind raises before the
        `DELETE` runs; otherwise 404 when no SMS row has that id, and
        exactly that row is removed when one has. */
    method DeleteSmsLog(smsId: int) returns (r: Reply<()>)
      requires Valid()
      modifies this
      ensures Valid()
      ensures r == NotFound || r == Ok(()) || r == ServerError
      ensures r == ServerError <==> !FitsInt64(smsId)
      ensures r == ServerError ==> smsLogs == old(smsLogs)
      ensures FitsInt64(smsId) ==>
        (r == NotFound <==> forall i :: 0 <= i < |old(smsLogs)| ==> old(smsLogs)[i].id != smsId)
      ensures r == NotFound ==> smsLogs == old(smsLogs)
      ensures r.Ok? ==>
        && |smsLogs| == |old(smsLogs)| - 1
        && forall s :: s in smsLogs <==> s in old(smsLogs) && s.id != smsId
      ensures devices == old(devices) && commands == old(commands) && forms == old(forms) && settings == old(settings)
      ensures nextCommandId == old(nextCommandId) && nextSmsId == old(nextSmsId) && nextFormId == old(nextFormId)
    {
      if !FitsInt64(smsId) {
        return ServerError;
      }
      var rowcount := DeleteSmsRow(smsId);
      if rowcount == 0 {
        r := NotFound;
        return;
      }
      r := Ok(());
    }

    /** `DELETE FROM sms_logs WHERE id = ?`, answering the number of rows it
        removed: one when the id is present, since ids are unique, else none. */
    method DeleteSmsRow(smsId: int) returns (rowcount: nat)
      requires Valid()
      modifies this
      ensures Valid()
      ensures smsLogs == SmsExceptId(old(smsLogs), smsId)
      ensures rowcount == |old(smsLogs)| - |smsLogs|
      ensures rowcount == 0 <==> forall i :: 0 <= i < |old(smsLogs)| ==> old(smsLogs)[i].id != smsId
      ensures rowcount == 0 ==> smsLogs == old(smsLogs)
      ensures rowcount != 0 ==> rowcount == 1
      ensures forall s :: s in smsLogs <==> s in old(smsLogs) && s.id != smsId
      ensures devices == old(devices) && commands == old(commands) && forms == old(forms) && settings == old(settings)
      ensures nextCommandId == old(nextCommandId) && nextSmsId == old(nextSmsId) && nextFormId == old(nextFormId)
    {
      var remaining := SmsExceptId(smsLogs, smsId);
      SmsExceptIdKeeps(smsLogs, smsId, nextSmsId);
      rowcount := |smsLogs| - |remaining|;
      smsLogs := remaining;
    }

    /** `GET /api/device/{id}/forms`: the submissions stored under the
        stripped identifier, newest first. */
    function FormSubmissions(deviceId: string): (r: seq<FormSubmission>)
      reads this
      ensures forall f :: f in r <==> f in forms && f.deviceId == Trim(deviceId)
      ensures multiset(r) == multiset(FormsOf(forms, Trim(deviceId)))
      ensures forall i, j :: 0 <= i < j < |r| ==> r[i].submittedAt >= r[j].submittedAt
    {
      FormsByRecency(forms, Trim(deviceId))
    }

    /** `GET /api/device/{id}/sms`: the SMS stored under the stripped
        identifier, newest first. */
    function SmsLogs(deviceId: string): (r: seq<SmsLog>)
      reads this
      ensures forall s :: s in r <==> s in smsLogs && s.deviceId == Trim(deviceId)
      ensures multiset(r) == multiset(SmsOf(smsLogs, Trim(deviceId)))
      ensures forall i, j :: 0 <= i < j < |r| ==> r[i].receivedAt >= r[j].receivedAt
    {
      SmsByRecency(smsLogs, Trim(deviceId))
    }
  }

  // ----- helper lemmas for the backend -----

  lemma UniqueFind(devices: seq<Device>, id: string, k: nat)
    requires UniqueDeviceIds(devices)
    requires k < |devices| && devices[k].deviceId == id
    ensures FindDevice(devices, id) == Some(k)
  {
    assert FindDevice(devices, id).Some?;
  }

  lemma UniqueDevicesDropOne(devices: seq<Device>, id: string, k: nat)
    requires UniqueDeviceIds(devices)
    requires k < |devices| && devices[k].deviceId == id
    ensures |DevicesExcept(devices, id)| == |devices| - 1
  {
    assert forall i :: 0 <= i < |devices| && i != k ==> devices[i].deviceId != id by {
      forall i | 0 <= i < |devices| && i != k ensures devices[i].deviceId != id {
        if i < k { assert devices[i].deviceId != devices[k].deviceId; }
        else { assert devices[k].deviceId != devices[i].deviceId; }
      }
    }
    KeepOnlyOneFails(devices, (d: Device) => d.deviceId != id, k);
  }

  lemma DistinctIds(commands: seq<Command>)
    requires StrictlyIncreasing(commands, CommandId)
    ensures forall i, j :: 0 <= i < |commands| && 0 <= j < |commands| && commands[i].id == commands[j].id ==> i == j
  {
    forall i, j | 0 <= i < |commands| && 0 <= j < |commands| && commands[i].id == commands[j].id
      ensures i == j
    {
      assert CommandId(commands[i]) == CommandId(commands[j]);
    }
  }

  lemma AdvanceReflexive(commands: seq<Command>)
    requires StrictlyIncreasing(commands, CommandId)
    ensures StatusesAdvance(commands, commands)
  {
    DistinctIds(commands);
    forall i, j | 0 <= i < |commands| && 0 <= j < |commands| && commands[i].id == commands[j].id
      ensures Successor(commands[i], commands[j])
    {
    }
  }
}
