/** The JSON-file backend: one in-memory `data_store` dictionary whose
    `devices` entry maps a device identifier to a record (a dict holding the
    registration fields and the device's `sms` and `forms` lists), plus the
    two configuration dicts. The Flask handlers update it in place; each is a
    method of `Store`. Request bodies are decoded JSON values and time is an
    integer number of seconds, passed in as `now`. */
module DataStore {
  import opened Base
  import opened Json
  import opened Text
  import opened Seqs

  const DefaultForwardNumber: string := "YOUR_DEFAULT_FORWARD_NUMBER"

  // ----- records and their lists -----

  /** The record a first registration starts from. */
  function NewRecord(now: int): map<string, Json> {
    map["created_at" := Int(now), "sms" := Arr([]), "forms" := Arr([])]
  }

  /** `record.update(body)` followed by `record["last_seen"] = now`. */
  function Merged(record: map<string, Json>, fields: map<string, Json>, now: int): map<string, Json> {
    (record + fields)["last_seen" := Int(now)]
  }

  /** What registration does to one record: every request key overwrites the
      stored one, every other stored key is kept, and `last_seen` is `now`
      whatever the request said. */
  lemma MergedKeys(record: map<string, Json>, fields: map<string, Json>, now: int)
    ensures Merged(record, fields, now).Keys == record.Keys + fields.Keys + {"last_seen"}
    ensures Merged(record, fields, now)["last_seen"] == Int(now)
    ensures forall k :: k in fields && k != "last_seen" ==> Merged(record, fields, now)[k] == fields[k]
    ensures forall k :: k in record && k !in fields && k != "last_seen" ==> Merged(record, fields, now)[k] == record[k]
  {
  }

  /** The `id` of every entry of a device's `sms` or `forms` list is its
      one-based position written in decimal: `"1"`, `"2"`, ... */
  ghost predicate PositionalIds(items: seq<Json>) {
    forall i :: 0 <= i < |items| ==> items[i].Obj? && Get(items[i].fields, "id") == Str(NatToString(i + 1))
  }

  /** A record as registration creates it: both lists present and numbered
      by position. */
  ghost predicate RecordWellFormed(record: map<string, Json>) {
    && "sms" in record && record["sms"].Arr? && PositionalIds(record["sms"].items)
    && "forms" in record && record["forms"].Arr? && PositionalIds(record["forms"].items)
  }

  /** Appending an entry numbered `len + 1` keeps the numbering. */
  lemma AppendPositional(items: seq<Json>, entry: Json)
    requires PositionalIds(items)
    requires entry.Obj? && Get(entry.fields, "id") == Str(NatToString(|items| + 1))
    ensures PositionalIds(items + [entry])
  {
    var r := items + [entry];
    forall i | 0 <= i < |r| ensures r[i].Obj? && Get(r[i].fields, "id") == Str(NatToString(i + 1)) {
      if i < |items| {
        assert r[i] == items[i];
      }
    }
  }

  /** Positional ids never repeat within one list. */
  lemma PositionalIdsDistinct(items: seq<Json>)
    requires PositionalIds(items)
    ensures forall i, j :: 0 <= i < j < |items| ==> Get(items[i].fields, "id") != Get(items[j].fields, "id")
  {
    forall i, j | 0 <= i < j < |items|
      ensures Get(items[i].fields, "id") != Get(items[j].fields, "id")
    {
      if Get(items[i].fields, "id") == Get(items[j].fields, "id") {
        NatToStringInjective(i + 1, j + 1);
      }
    }
  }

  /** A registration keeps the record well formed when its body carries
      neither an `sms` nor a `forms` key; such a key would replace the list. */
  lemma MergedWellFormed(record: map<string, Json>, fields: map<string, Json>, now: int)
    requires RecordWellFormed(record)
    requires "sms" !in fields && "forms" !in fields
    ensures RecordWellFormed(Merged(record, fields, now))
  {
    MergedKeys(record, fields, now);
  }

  /** Every record of the store is well formed. */
  ghost predicate AllWellFormed(devices: map<Json, map<string, Json>>) {
    forall k :: k in devices ==> RecordWellFormed(devices[k])
  }

  /** Storing a positionally numbered list as one device's `sms` or `forms`
      keeps every record well formed. */
  lemma SetListKeepsWellFormed(devices: map<Json, map<string, Json>>, key: Json, list: string, items: seq<Json>)
    requires AllWellFormed(devices) && key in devices
    requires list == "sms" || list == "forms"
    requires PositionalIds(items)
    ensures AllWellFormed(devices[key := devices[key][list := Arr(items)]])
  {
  }

  /** A register body whose `sms` key is not a list leaves a record on which
      the SMS handlers fail. */
  lemma OverwrittenSmsBreaksRecord(record: map<string, Json>, fields: map<string, Json>, now: int)
    requires "sms" in fields && !fields["sms"].Arr?
    ensures !RecordWellFormed(Merged(record, fields, now))
  {
    MergedKeys(record, fields, now);
  }

  // ----- new SMS and forms -----

  /** The entry `receive_new_sms` appends to a list of `count` entries. */
  function NewSmsEntry(count: nat, sender: Json, messageBody: Json, now: int): Json {
    Obj(map["id" := Str(NatToString(count + 1)), "sender" := sender, "message_body" := messageBody,
            "received_at" := Int(now), "type" := Str("new")])
  }

  /** The entry `receive_form_details` appends to a list of `count` entries. */
  function FormEntry(count: nat, customData: Json, now: int): Json {
    Obj(map["id" := Str(NatToString(count + 1)), "custom_data" := customData, "received_at" := Int(now)])
  }

  // ----- the batch SMS replace -----

  /** An item of the batch that is stored: a dict with a truthy `address`,
      `body` and `date`. */
  predicate Complete(item: Json) {
    item.Obj? && Truthy(Get(item.fields, "address")) && Truthy(Get(item.fields, "body"))
      && Truthy(Get(item.fields, "date"))
  }

  /** The complete items of a batch, in batch order. */
  function Accepted(items: seq<Json>): (r: seq<Json>)
    ensures |r| <= |items|
    ensures forall x :: x in r <==> x in items && Complete(x)
    ensures forall x :: multiset(r)[x] == if Complete(x) then multiset(items)[x] else 0
    decreases |items|
  {
    if items == [] then []
    else
      var init := items[..|items| - 1];
      var last := items[|items| - 1];
      assert items == init + [last];
      assert multiset(items) == multiset(init) + multiset{last};
      if Complete(last) then
        assert multiset(Accepted(init) + [last]) == multiset(Accepted(init)) + multiset{last};
        Accepted(init) + [last]
      else Accepted(init)
  }

  /** The entry stored for the `n`-th complete item. */
  function HistoricalEntry(n: nat, item: Json, now: int): Json
    requires item.Obj?
  {
    Obj(map["id" := Str(NatToString(n)), "sender" := Get(item.fields, "address"),
            "message_body" := Get(item.fields, "body"), "date" := Get(item.fields, "date"),
            "received_at" := Int(now), "type" := Str("historical")])
  }

  /** The list `receive_all_sms` stores for a batch: one entry per complete
      item, in batch order, numbered by position. */
  function Historical(items: seq<Json>, now: int): (r: seq<Json>)
    ensures |r| <= |items|
    ensures PositionalIds(r)
    ensures |r| == |Accepted(items)|
  {
    var acc := Accepted(items);
    assert forall i :: 0 <= i < |acc| ==> acc[i] in acc;
    seq(|acc|, i requires 0 <= i < |acc| => HistoricalEntry(i + 1, acc[i], now))
  }

  /** Each stored entry copies the address, body and date of a complete item. */
  lemma HistoricalCopiesItems(items: seq<Json>, now: int)
    ensures forall i :: 0 <= i < |Historical(items, now)| ==>
      var item := Accepted(items)[i];
      && Complete(item) && item in items
      && Historical(items, now)[i] == HistoricalEntry(i + 1, item, now)
  {
    var acc := Accepted(items);
    var h := Historical(items, now);
    forall i | 0 <= i < |h| ensures Complete(acc[i]) && acc[i] in items && h[i] == HistoricalEntry(i + 1, acc[i], now) {
      assert acc[i] in acc;
    }
  }

  /** One more item of the batch adds at most one entry, at the end. */
  lemma HistoricalStep(items: seq<Json>, i: nat, now: int)
    requires i < |items|
    ensures var before := Historical(items[..i], now);
      Historical(items[..i + 1], now) ==
        if Complete(items[i]) then before + [HistoricalEntry(|before| + 1, items[i], now)] else before
  {
    var p := items[..i + 1];
    assert p[..|p| - 1] == items[..i] && p[|p| - 1] == items[i];
    var acc := Accepted(items[..i]);
    if Complete(items[i]) {
      assert Accepted(p) == acc + [items[i]];
      var before := Historical(items[..i], now);
      var after := Historical(p, now);
      assert |after| == |before| + 1;
      forall k | 0 <= k < |after|
        ensures after[k] == (before + [HistoricalEntry(|before| + 1, items[i], now)])[k]
      {
        if k < |before| {
          assert Accepted(p)[k] == acc[k];
        }
      }
    } else {
      assert Accepted(p) == acc;
    }
  }

  /** The position of the first batch item that is not a dict, or the length
      of the batch when there is none. */
  function FirstNonObject(items: seq<Json>): (k: nat)
    ensures k <= |items|
    ensures forall j :: 0 <= j < k ==> items[j].Obj?
    ensures k < |items| ==> !items[k].Obj?
    decreases |items|
  {
    if items == [] then 0
    else if !items[0].Obj? then 0
    else
      var k := FirstNonObject(items[1..]);
      assert forall j :: 1 <= j < k + 1 ==> items[j] == items[1..][j - 1];
      k + 1
  }

  /** The loop of `receive_all_sms`: walks the batch in order, numbering
      each complete item by its position among those kept, and stops at the
      first item that is not a dict, whose position it returns. */
  method CollectHistorical(items: seq<Json>, now: int) returns (k: nat, stored: seq<Json>)
    ensures k == FirstNonObject(items)
    ensures stored == Historical(items[..k], now)
  {
    stored := [];
    k := 0;
    assert items[..0] == [];
    while k < |items|
      invariant k <= FirstNonObject(items)
      invariant stored == Historical(items[..k], now)
    {
      var item := items[k];
      if !item.Obj? {
        break;
      }
      HistoricalStep(items, k, now);
      if Complete(item) {
        stored := stored + [HistoricalEntry(|stored| + 1, item, now)];
      }
      k := k + 1;
    }
  }

  // ----- the sorted SMS reads -----

  /** `x.get("date", x.get("received_at", 0))` */
  function SortKey(entry: map<string, Json>): Json {
    if "date" in entry then entry["date"]
    else if "received_at" in entry then entry["received_at"]
    else Int(0)
  }

  /** What Python compares a sort key as: integers and booleans (as 0 and 1)
      order against each other, strings against strings. `None`, a list or a
      dict key, or any mixed pair, raises `TypeError`; so does an entry that
      is not a dict, whose key cannot be read at all. */
  datatype Rank = NumKey(n: int) | StrKey(s: string) | NoKey

  function RankOf(entry: Json): Rank {
    if entry.Obj? then
      match SortKey(entry.fields)
      case Int(i) => NumKey(i)
      case Bool(b) => NumKey(if b then 1 else 0)
      case Str(s) => StrKey(s)
      case _ => NoKey
    else NoKey
  }

  /** Python's `<=` between two ranks of the same kind. */
  predicate RankLe(a: Rank, b: Rank) {
    match (a, b)
    case (NumKey(x), NumKey(y)) => x <= y
    case (StrKey(x), StrKey(y)) => StrLe(x, y)
    case _ => false
  }

  lemma RankLeTransitive()
    ensures Transitive(RankLe)
  {
    forall a: Rank, b: Rank, c: Rank | RankLe(a, b) && RankLe(b, c) ensures RankLe(a, c) {
      if a.StrKey? {
        StrLeTransitive(a.s, b.s, c.s);
      }
    }
  }

  /** `sorted` can order `items` by that key: every item is a dict and, once
      there are two of them, their keys are all numbers or all strings. */
  predicate Sortable(items: seq<Json>) {
    && (forall x :: x in items ==> x.Obj?)
    && (|items| <= 1
        || (forall x :: x in items ==> RankOf(x).NumKey?)
        || (forall x :: x in items ==> RankOf(x).StrKey?))
  }

  /** Within a sortable list of two or more, every pair of keys compares. */
  lemma SortableIsTotal(items: seq<Json>)
    requires Sortable(items) && |items| >= 2
    ensures TotalOn(items, RankOf, RankLe)
  {
    forall x, y | x in items && y in items
      ensures RankLe(RankOf(x), RankOf(y)) || RankLe(RankOf(y), RankOf(x))
    {
      if RankOf(x).StrKey? {
        StrLeTotal(RankOf(x).s, RankOf(y).s);
      }
    }
  }

  /** `sorted(sms, key=..., reverse=True)` applied to the stored `sms` value:
      the entries largest key first. Iterating an empty string or dict yields
      nothing; any other value that is not a list fails. */
  function NewestFirst(stored: Json): (r: Reply<seq<Json>>)
    ensures r.Ok? <==> (stored.Arr? && Sortable(stored.items)) || stored == Str("") || stored == Obj(map[])
    ensures r.Ok? && stored.Arr? ==> multiset(r.value) == multiset(stored.items)
    ensures r.Ok? ==> Descending(r.value, RankOf, RankLe)
    ensures r.Ok? && !stored.Arr? ==> r.value == []
  {
    match stored
    case Arr(items) =>
      if !Sortable(items) then ServerError
      else if |items| <= 1 then Ok(items)
      else
        RankLeTransitive();
        SortableIsTotal(items);
        Ok(SortBy(items, RankOf, RankLe))
    case Str(s) => if s == "" then Ok([]) else ServerError
    case Obj(fields) => if fields == map[] then Ok([]) else ServerError
    case _ => ServerError
  }

  /** One numeric and one string key in the same list make the read fail,
      since Python cannot compare `int` with `str`. */
  lemma MixedKeysFail(items: seq<Json>, i: nat, j: nat)
    requires i < |items| && j < |items|
    requires RankOf(items[i]).NumKey? && RankOf(items[j]).StrKey?
    ensures NewestFirst(Arr(items)) == ServerError
  {
    assert items[i] in items && items[j] in items;
  }

  /** A new SMS is ranked by the integer time it arrived, a historical one by
      the date the phone reported; a string date therefore cannot be sorted
      next to an SMS received later through `receive_new_sms`. */
  lemma EntryRanks(count: nat, sender: Json, messageBody: Json, n: nat, item: Json, now: int, later: int)
    requires item.Obj? && Get(item.fields, "date").Str?
    ensures RankOf(NewSmsEntry(count, sender, messageBody, later)) == NumKey(later)
    ensures RankOf(HistoricalEntry(n, item, now)) == StrKey(Get(item.fields, "date").s)
    ensures NewestFirst(Arr([HistoricalEntry(n, item, now), NewSmsEntry(count, sender, messageBody, later)])) == ServerError
  {
    var items := [HistoricalEntry(n, item, now), NewSmsEntry(count, sender, messageBody, later)];
    MixedKeysFail(items, 1, 0);
  }

  /** Sorting returns the stored entries themselves, each exactly once. */
  lemma NewestFirstIsPermutation(stored: Json)
    requires stored.Arr? && NewestFirst(stored).Ok?
    ensures forall x :: x in NewestFirst(stored).value <==> x in stored.items
    ensures |NewestFirst(stored).value| == |stored.items|
  {
    var r := NewestFirst(stored).value;
    SameMembers(r, stored.items);
    assert |r| == |multiset(r)| == |multiset(stored.items)| == |stored.items|;
  }

  // ----- the store -----

  class Store {
    /** `data_store["devices"]`, keyed by whatever identifier registered. */
    var devices: map<Json, map<string, Json>>
    /** `data_store["sms_forward_config"]` */
    var smsForwardConfig: map<string, Json>
    /** `data_store["telegram_config"]` */
    var telegramConfig: map<string, Json>

    /** Every record has both of its lists, numbered by position. Registration
        can break this (see `Register`); the other handlers keep it. */
    ghost predicate WellFormed()
      reads this
    {
      AllWellFormed(devices)
    }

    /** The default `data_store` the server starts from when there is no
        data file. */
    constructor ()
      ensures devices == map[]
      ensures smsForwardConfig == map["forward_number" := Str(DefaultForwardNumber)]
      ensures telegramConfig == map["bot_token" := Null, "chat_id" := Null]
      ensures WellFormed()
    {
      devices := map[];
      smsForwardConfig := map["forward_number" := Str(DefaultForwardNumber)];
      telegramConfig := map["bot_token" := Null, "chat_id" := Null];
    }

    /** `POST /api/device/register`. A body that is not a dict fails on
        `.get`; a falsy `device_id` is a 400; an unhashable one fails on the
        dict lookup. Otherwise the record (a fresh one for a new identifier)
        takes every request key and then `last_seen`. The clock is read
        twice: `createdAt` is the first reading, taken only for a new
        identifier, and `lastSeen` the second. The record is built and then
        stored in one step; no other handler runs in between, so the store
        passes through the same states. */
    method Register(body: Json, createdAt: int, lastSeen: int) returns (r: Reply<Json>)
      modifies this
      ensures !body.Obj? ==> r == ServerError
      ensures body.Obj? ==>
        var id := Get(body.fields, "device_id");
        && (!Truthy(id) ==> r == BadRequest)
        && (Truthy(id) && !Hashable(id) ==> r == ServerError)
        && (Truthy(id) && Hashable(id) ==> r == Ok(id))
      ensures r.Ok? ==>
        var id := r.value;
        var record := if id in old(devices) then old(devices)[id] else NewRecord(createdAt);
        devices == old(devices)[id := Merged(record, body.fields, lastSeen)]
      ensures !r.Ok? ==> devices == old(devices)
      ensures old(WellFormed()) && body.Obj? && "sms" !in body.fields && "forms" !in body.fields ==> WellFormed()
      ensures smsForwardConfig == old(smsForwardConfig) && telegramConfig == old(telegramConfig)
    {
      if !body.Obj? {
        return ServerError;
      }
      var id := Get(body.fields, "device_id");
      if !Truthy(id) {
        return BadRequest;
      }
      if !Hashable(id) {
        return ServerError;
      }
      var record := if id in devices then devices[id] else NewRecord(createdAt);
      if WellFormed() && "sms" !in body.fields && "forms" !in body.fields {
        MergedWellFormed(record, body.fields, lastSeen);
      }
      record := record + body.fields;
      record := record["last_seen" := Int(lastSeen)];
      devices := devices[id := record];
      r := Ok(id);
    }

    /** `POST /api/device/{id}/sms`. The 400 for a falsy `sender` or
        `message_body` is decided before the device lookup, so it wins over
        the 404. The record's `sms` value must be a list to be appended to. */
    method ReceiveNewSms(deviceId: string, body: Json, now: int) returns (r: Reply<()>)
      modifies this
      ensures !body.Obj? ==> r == ServerError
      ensures body.Obj? && !(Truthy(Get(body.fields, "sender")) && Truthy(Get(body.fields, "message_body"))) ==>
        r == BadRequest
      ensures body.Obj? && Truthy(Get(body.fields, "sender")) && Truthy(Get(body.fields, "message_body")) ==>
        && (Str(deviceId) !in old(devices) ==> r == NotFound)
        && (Str(deviceId) in old(devices) ==> (r.Ok? <==> Get(old(devices)[Str(deviceId)], "sms").Arr?))
      ensures r.Ok? ==>
        var record := old(devices)[Str(deviceId)];
        var items := record["sms"].items;
        devices == old(devices)[Str(deviceId) := record["sms" := Arr(items + [
          NewSmsEntry(|items|, body.fields["sender"], body.fields["message_body"], now)])]]
      ensures r == Ok(()) || r == BadRequest || r == NotFound || r == ServerError
      ensures !r.Ok? ==> devices == old(devices)
      ensures old(WellFormed()) ==> WellFormed()
      ensures smsForwardConfig == old(smsForwardConfig) && telegramConfig == old(telegramConfig)
    {
      if !body.Obj? {
        return ServerError;
      }
      var sender := Get(body.fields, "sender");
      var messageBody := Get(body.fields, "message_body");
      if !(Truthy(sender) && Truthy(messageBody)) {
        return BadRequest;
      }
      var key := Str(deviceId);
      if key !in devices {
        return NotFound;
      }
      var stored := Get(devices[key], "sms");
      if !stored.Arr? {
        return ServerError;
      }
      var entry := NewSmsEntry(|stored.items|, sender, messageBody, now);
      if old(WellFormed()) {
        AppendPositional(stored.items, entry);
        SetListKeepsWellFormed(devices, key, "sms", stored.items + [entry]);
      }
      devices := devices[key := devices[key]["sms" := Arr(stored.items + [entry])]];
      r := Ok(());
    }

    /** `POST /api/device/{id}/all_sms`. The `sms` list is emptied and then
        refilled from the batch, one complete item at a time. An item that
        is not a dict fails on `.get` part-way, leaving the entries stored so
        far. The reply reports the size of the batch, not the number kept. */
    method ReceiveAllSms(deviceId: string, body: Json, now: int) returns (r: Reply<nat>)
      modifies this
      ensures !body.Arr? ==> r == BadRequest && devices == old(devices)
      ensures body.Arr? && Str(deviceId) !in old(devices) ==> r == NotFound && devices == old(devices)
      ensures body.Arr? && Str(deviceId) in old(devices) ==>
        var k := FirstNonObject(body.items);
        && (k == |body.items| ==> r == Ok(|body.items|))
        && (k < |body.items| ==> r == ServerError)
        && devices == old(devices)[Str(deviceId) := old(devices)[Str(deviceId)]["sms" := Arr(Historical(body.items[..k], now))]]
      ensures r.Ok? ==> |devices[Str(deviceId)]["sms"].items| <= r.value
      ensures old(WellFormed()) ==> WellFormed()
      ensures smsForwardConfig == old(smsForwardConfig) && telegramConfig == old(telegramConfig)
    {
      if !body.Arr? {
        return BadRequest;
      }
      var key := Str(deviceId);
      if key !in devices {
        return NotFound;
      }
      var k := RefillSms(key, body.items, now);
      if k < |body.items| {
        r := ServerError;
      } else {
        r := Ok(|body.items|);
      }
    }

    /** The body of `receive_all_sms` once the device is known: the `sms`
        list is emptied, then each complete item of the batch is appended in
        turn, numbered by position. Stops at the first item that is not a
        dict, whose `.get` raises; its position is returned. The entries are
        gathered in `stored` and written back once: no other handler runs in
        between, so the store passes through the same states. */
    method RefillSms(key: Json, items: seq<Json>, now: int) returns (k: nat)
      requires key in devices
      modifies this
      ensures k == FirstNonObject(items)
      ensures devices == old(devices)[key := old(devices)[key]["sms" := Arr(Historical(items[..k], now))]]
      ensures old(WellFormed()) ==> WellFormed()
      ensures smsForwardConfig == old(smsForwardConfig) && telegramConfig == old(telegramConfig)
    {
      var record := devices[key];
      devices := devices[key := record["sms" := Arr([])]];
      var stored;
      k, stored := CollectHistorical(items, now);
      devices := devices[key := record["sms" := Arr(stored)]];
      if old(WellFormed()) {
        SetListKeepsWellFormed(old(devices), key, "sms", stored);
      }
    }

    /** `GET /api/device/{id}/all_sms` and `GET /api/admin/device/{id}/sms`:
        404 for an unknown device, otherwise the stored SMS newest first. */
    function SmsNewestFirst(deviceId: string): (r: Reply<seq<Json>>)
      reads this
      ensures Str(deviceId) !in devices <==> r == NotFound
      ensures r.Ok? ==> "sms" in devices[Str(deviceId)]
      ensures r.Ok? ==>
        var stored := devices[Str(deviceId)]["sms"];
        && (stored.Arr? ==> multiset(r.value) == multiset(stored.items))
        && Descending(r.value, RankOf, RankLe)
      ensures WellFormed() && Str(deviceId) in devices ==>
        (r.Ok? <==> Sortable(devices[Str(deviceId)]["sms"].items))
    {
      var key := Str(deviceId);
      if key !in devices then NotFound
      else if "sms" !in devices[key] then ServerError
      else
        var stored := devices[key]["sms"];
        var sorted := NewestFirst(stored);
        if !sorted.Ok? then ServerError else sorted
    }

    /** `POST /api/device/{id}/forms`: a falsy `custom_data` is a 400, checked
        before the device lookup; the record's `forms` value must be a list. */
    method ReceiveFormDetails(deviceId: string, body: Json, now: int) returns (r: Reply<()>)
      modifies this
      ensures !body.Obj? ==> r == ServerError
      ensures body.Obj? && !Truthy(Get(body.fields, "custom_data")) ==> r == BadRequest
      ensures body.Obj? && Truthy(Get(body.fields, "custom_data")) ==>
        && (Str(deviceId) !in old(devices) ==> r == NotFound)
        && (Str(deviceId) in old(devices) ==> (r.Ok? <==> Get(old(devices)[Str(deviceId)], "forms").Arr?))
      ensures r.Ok? ==>
        var record := old(devices)[Str(deviceId)];
        var items := record["forms"].items;
        devices == old(devices)[Str(deviceId) := record["forms" := Arr(items + [
          FormEntry(|items|, body.fields["custom_data"], now)])]]
      ensures r == Ok(()) || r == BadRequest || r == NotFound || r == ServerError
      ensures !r.Ok? ==> devices == old(devices)
      ensures old(WellFormed()) ==> WellFormed()
      ensures smsForwardConfig == old(smsForwardConfig) && telegramConfig == old(telegramConfig)
    {
      if !body.Obj? {
        return ServerError;
      }
      var customData := Get(body.fields, "custom_data");
      if !Truthy(customData) {
        return BadRequest;
      }
      var key := Str(deviceId);
      if key !in devices {
        return NotFound;
      }
      var stored := Get(devices[key], "forms");
      if !stored.Arr? {
        return ServerError;
      }
      var entry := FormEntry(|stored.items|, customData, now);
      if old(WellFormed()) {
        AppendPositional(stored.items, entry);
        SetListKeepsWellFormed(devices, key, "forms", stored.items + [entry]);
      }
      devices := devices[key := devices[key]["forms" := Arr(stored.items + [entry])]];
      r := Ok(());
    }

    /** `POST /api/admin/set_sms_forward`: a falsy `forward_number` is a 400;
        otherwise that one key is overwritten. */
    method AdminSetSmsForward(body: Json) returns (r: Reply<()>)
      modifies this
      ensures !body.Obj? ==> r == ServerError
      ensures body.Obj? ==> (r == BadRequest <==> !Truthy(Get(body.fields, "forward_number")))
      ensures r.Ok? <==> body.Obj? && Truthy(Get(body.fields, "forward_number"))
      ensures r.Ok? ==> smsForwardConfig == old(smsForwardConfig)["forward_number" := body.fields["forward_number"]]
      ensures r.Ok? ==> SmsForwardConfig()["forward_number"] == body.fields["forward_number"]
      ensures !r.Ok? ==> smsForwardConfig == old(smsForwardConfig)
      ensures devices == old(devices) && telegramConfig == old(telegramConfig)
    {
      if !body.Obj? {
        return ServerError;
      }
      var forwardNumber := Get(body.fields, "forward_number");
      if !Truthy(forwardNumber) {
        return BadRequest;
      }
      smsForwardConfig := smsForwardConfig["forward_number" := forwardNumber];
      r := Ok(());
    }

    /** `POST /api/admin/set_telegram_config`: both `bot_token` and `chat_id`
        must be truthy; then both keys are overwritten. */
    method AdminSetTelegramConfig(body: Json) returns (r: Reply<()>)
      modifies this
      ensures !body.Obj? ==> r == ServerError
      ensures body.Obj? ==>
        (r == BadRequest <==> !(Truthy(Get(body.fields, "bot_token")) && Truthy(Get(body.fields, "chat_id"))))
      ensures r.Ok? <==> body.Obj? && Truthy(Get(body.fields, "bot_token")) && Truthy(Get(body.fields, "chat_id"))
      ensures r.Ok? ==>
        telegramConfig == old(telegramConfig)["bot_token" := body.fields["bot_token"]]["chat_id" := body.fields["chat_id"]]
      ensures r.Ok? ==>
        TelegramConfig()["bot_token"] == body.fields["bot_token"] && TelegramConfig()["chat_id"] == body.fields["chat_id"]
      ensures !r.Ok? ==> telegramConfig == old(telegramConfig)
      ensures devices == old(devices) && smsForwardConfig == old(smsForwardConfig)
    {
      if !body.Obj? {
        return ServerError;
      }
      var botToken := Get(body.fields, "bot_token");
      var chatId := Get(body.fields, "chat_id");
      if !(Truthy(botToken) && Truthy(chatId)) {
        return BadRequest;
      }
      telegramConfig := telegramConfig["bot_token" := botToken];
      telegramConfig := telegramConfig["chat_id" := chatId];
      r := Ok(());
    }

    /** `GET /api/config/sms_forward` */
    function SmsForwardConfig(): map<string, Json>
      reads this
    {
      smsForwardConfig
    }

    /** `GET /api/config/telegram` */
    function TelegramConfig(): map<string, Json>
      reads this
    {
      telegramConfig
    }
  }

  // ----- the command stubs -----

  /** `GET /api/device/{id}/commands`: no command queue is kept, so every
      device is told it has nothing to do; no state is read. */
  function DeviceCommands(deviceId: string): (r: seq<Json>)
    ensures r == []
  {
    []
  }

  /** `POST /api/command/{id}/execute`: acknowledged for every id without
      reading or changing any state. */
  function MarkCommandExecuted(commandId: string): (r: Reply<()>)
    ensures r.Ok?
  {
    Ok(())
  }
}
