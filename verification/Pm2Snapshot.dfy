/** Acquisition and validation of a PM2 snapshot
    (internal/installation/pm2_quiescence.go, linux_pm2_snapshot.go,
    linux_socket_snapshot.go), from decoded JSON items and lines of text. */
module Pm2Snapshot {
  import opened Basics
  import opened Decimal
  import opened Paths
  import opened Pm2Correlation

  datatype Snapshot = Snapshot(records: seq<Record>, sockets: seq<SocketOwner>, proc: map<int, ProcIdentity>)

  // ------------------------------------------------------------ inventory

  /** One decoded element of `pm2 jlist`. */
  datatype RawItem = RawItem(
    id: int, pid: int, name: string, execPath: string,
    envCwd: string, envPmCwd: string, envStatus: string, envPid: int, envExec: string)

  function ItemCwd(item: RawItem): string {
    if item.envCwd == "" then item.envPmCwd else item.envCwd
  }

  function ItemPid(item: RawItem): int {
    if item.pid == 0 then item.envPid else item.pid
  }

  function ItemExec(item: RawItem): string {
    if item.execPath == "" then item.envExec else item.execPath
  }

  /** The record of one item on its own, if its duplicated fields agree. */
  function ItemRecord(item: RawItem): Option<Record> {
    if item.envCwd != "" && item.envPmCwd != "" && !SamePath(item.envCwd, item.envPmCwd) then None
    else if item.pid < 0 || item.envPid < 0 then None
    else if item.pid > 0 && item.envPid > 0 && item.pid != item.envPid then None
    else if item.execPath != "" && item.envExec != "" && !SamePath(item.execPath, item.envExec) then None
    else if item.id < 0 || item.name == "" || ItemCwd(item) == "" || ItemExec(item) == "" then None
    else if item.envStatus == "online" then
      if ItemPid(item) <= 0 then None
      else Some(Record(item.id, ItemPid(item), item.name, Clean(ItemCwd(item)), Clean(ItemExec(item)), Online))
    else if item.envStatus == "stopped" then
      if item.pid != 0 || item.envPid != 0 then None
      else Some(Record(item.id, 0, item.name, Clean(ItemCwd(item)), Clean(ItemExec(item)), Stopped))
    else None
  }

  function Ids(items: seq<RawItem>): set<int> {
    set item | item in items :: item.id
  }

  function OnlineItemPids(items: seq<RawItem>): set<int> {
    set item | item in items && item.envStatus == "online" :: ItemPid(item)
  }

  /** Every item is consistent and repeats no earlier id or online process id. */
  predicate Consistent(items: seq<RawItem>) {
    items == [] ||
    (var item, earlier := Last(items), Front(items);
     && Consistent(earlier)
     && ItemRecord(item).Some?
     && item.id !in Ids(earlier)
     && (item.envStatus == "online" ==> ItemPid(item) !in OnlineItemPids(earlier)))
  }

  function RecordsOf(items: seq<RawItem>): (records: seq<Record>)
    requires Consistent(items)
    ensures |records| == |items|
  {
    if items == [] then [] else RecordsOf(Front(items)) + [ItemRecord(Last(items)).value]
  }

  lemma {:induction false} ConsistentPrefix(items: seq<RawItem>, i: nat)
    requires i <= |items| && Consistent(items)
    ensures Consistent(items[..i])
  {
    if i < |items| {
      ConsistentPrefix(Front(items), i);
      assert Front(items)[..i] == items[..i];
    } else {
      assert items[..i] == items;
    }
  }

  predicate Fresh(item: RawItem, ids: set<int>, pids: set<int>) {
    ItemRecord(item).Some? && item.id !in ids && (item.envStatus == "online" ==> ItemPid(item) !in pids)
  }

  lemma SeenStep(items: seq<RawItem>, i: nat)
    requires i < |items|
    ensures Ids(items[..i + 1]) == Ids(items[..i]) + {items[i].id}
    ensures OnlineItemPids(items[..i + 1]) ==
            OnlineItemPids(items[..i]) + if items[i].envStatus == "online" then {ItemPid(items[i])} else {}
  {
    assert items[..i + 1] == items[..i] + [items[i]];
  }

  lemma ConsistentStep(items: seq<RawItem>, i: nat)
    requires i < |items| && Consistent(items[..i])
    ensures Consistent(items[..i + 1]) <==> Fresh(items[i], Ids(items[..i]), OnlineItemPids(items[..i]))
    ensures Consistent(items[..i + 1]) ==>
              RecordsOf(items[..i + 1]) == RecordsOf(items[..i]) + [ItemRecord(items[i]).value]
  {
    assert Front(items[..i + 1]) == items[..i] && Last(items[..i + 1]) == items[i];
  }

  /** `ParsePM2Inventory` after decoding. */
  method ParseInventory(items: seq<RawItem>) returns (result: Option<seq<Record>>)
    ensures result == if items != [] && Consistent(items) then Some(RecordsOf(items)) else None
  {
    if items == [] {
      return None;
    }
    var seenIds: set<int>, seenPids: set<int> := {}, {};
    var records: seq<Record> := [];
    for i := 0 to |items|
      invariant Consistent(items[..i])
      invariant records == RecordsOf(items[..i])
      invariant seenIds == Ids(items[..i])
      invariant seenPids == OnlineItemPids(items[..i])
    {
      var item := items[i];
      var record := ItemRecord(item);
      ConsistentStep(items, i);
      SeenStep(items, i);
      if Consistent(items) { ConsistentPrefix(items, i + 1); }
      if record.None? || item.id in seenIds {
        return None;
      }
      if item.envStatus == "online" {
        if ItemPid(item) in seenPids {
          return None;
        }
        seenPids := seenPids + {ItemPid(item)};
      }
      seenIds := seenIds + {item.id};
      records := records + [record.value];
    }
    assert items[..|items|] == items;
    return Some(records);
  }

  // --------------------------------------------------- provider validation

  predicate RecordComplete(r: Record) {
    && r.id >= 0 && r.cwd != "" && r.execPath != "" && r.name != ""
    && (r.status.Stopped? ==> r.pid == 0)
    && (!r.status.Stopped? ==> r.status.Online? && r.pid > 0)
  }

  ghost predicate ValidRecords(records: seq<Record>) {
    && (forall r :: r in records ==> RecordComplete(r))
    && DistinctIds(records)
    && DistinctOnlinePids(records)
  }

  lemma ItemRecordComplete(item: RawItem)
    requires ItemRecord(item).Some?
    ensures RecordComplete(ItemRecord(item).value)
    ensures ItemRecord(item).value.id == item.id
    ensures ItemRecord(item).value.status.Online? <==> item.envStatus == "online"
    ensures item.envStatus == "online" ==> ItemRecord(item).value.pid == ItemPid(item)
  {
    CleanIdempotent(ItemCwd(item));
    CleanIdempotent(ItemExec(item));
  }

  /** Whatever `ParsePM2Inventory` lets through passes every record check the
      snapshot provider repeats. */
  lemma {:induction false} AcceptedInventoryIsValid(items: seq<RawItem>)
    requires Consistent(items)
    ensures ValidRecords(RecordsOf(items))
    ensures forall i :: 0 <= i < |items| ==> ItemRecord(items[i]) == Some(RecordsOf(items)[i])
  {
    hide ItemRecord, ItemPid, RecordComplete;
    if items != [] {
      AcceptedInventoryIsValid(Front(items));
      ItemRecordComplete(Last(items));
      var earlier, added := RecordsOf(Front(items)), ItemRecord(Last(items)).value;
      forall i | 0 <= i < |earlier|
        ensures earlier[i].id != added.id
        ensures earlier[i].status.Online? && added.status.Online? ==> earlier[i].pid != added.pid
      {
        ItemRecordComplete(Front(items)[i]);
        assert Front(items)[i] in Front(items);
      }
    }
  }

  /** An item as PM2 prints a record, with nothing said twice. */
  function ItemOf(r: Record): RawItem {
    RawItem(r.id, r.pid, r.name, r.execPath, r.cwd, "", if r.status.Online? then "online" else "stopped", 0, "")
  }

  function Cleaned(r: Record): Record {
    r.(cwd := Clean(r.cwd), execPath := Clean(r.execPath))
  }

  lemma PrintedItem(r: Record)
    requires RecordComplete(r)
    ensures ItemRecord(ItemOf(r)) == Some(Cleaned(r)) && ItemPid(ItemOf(r)) == r.pid
  {
    assert "online"[0] == 'o' && "stopped"[0] == 's';
  }

  function Items(records: seq<Record>): (items: seq<RawItem>)
    ensures |items| == |records| && forall i :: 0 <= i < |items| ==> items[i] == ItemOf(records[i])
  {
    seq(|records|, i requires 0 <= i < |records| => ItemOf(records[i]))
  }

  /** Every valid inventory is accepted, and comes back with its paths cleaned. */
  lemma {:induction false} PrintedInventoryIsRead(records: seq<Record>)
    requires ValidRecords(records)
    ensures Consistent(Items(records))
    ensures forall i :: 0 <= i < |records| ==> RecordsOf(Items(records))[i] == Cleaned(records[i])
    decreases |records|
  {
    hide ItemRecord, ItemPid, RecordComplete, ItemOf, Cleaned, ValidRecords, Ids, OnlineItemPids, Items;
    if records != [] {
      var earlier, r := Front(records), Last(records);
      FrontIsValid(records);
      PrintedInventoryIsRead(earlier);
      assert Front(Items(records)) == Items(earlier) && Last(Items(records)) == ItemOf(r);
      PrintedItem(r);
      PrintedNew(records);
      assert RecordsOf(Items(records)) == RecordsOf(Items(earlier)) + [Cleaned(r)];
    }
  }

  lemma FrontIsValid(records: seq<Record>)
    requires records != [] && ValidRecords(records)
    ensures ValidRecords(Front(records)) && RecordComplete(Last(records))
  {
    hide RecordComplete;
    assert forall x :: x in Front(records) ==> x in records;
  }

  lemma PrintedNew(records: seq<Record>)
    requires records != [] && ValidRecords(records)
    ensures var items := Items(Front(records));
            && ItemOf(Last(records)).id !in Ids(items)
            && (Last(records).status.Online? ==> ItemPid(ItemOf(Last(records))) !in OnlineItemPids(items))
            && (ItemOf(Last(records)).envStatus == "online" <==> Last(records).status.Online?)
  {
    hide ItemRecord;
    var items, r := Items(Front(records)), Last(records);
    assert "online"[0] == 'o' && "stopped"[0] == 's';
    forall item | item in items
      ensures item.id != r.id && (item.envStatus == "online" && r.status.Online? ==> ItemPid(item) != r.pid)
    {
      var i :| 0 <= i < |items| && items[i] == item;
      assert records[i] in records;
      PrintedItem(records[i]);
    }
    PrintedItem(r);
  }

  predicate ProcComplete(record: Record, identity: ProcIdentity) {
    identity.cwd != "" && identity.execPath != "" && identity.startTicks != 0 && SamePath(record.cwd, identity.cwd)
  }

  ghost predicate ProcReadable(records: seq<Record>, proc: map<int, ProcIdentity>) {
    forall r :: r in records && r.status.Online? ==> r.pid in proc && ProcComplete(r, proc[r.pid])
  }

  function OnlinePids(records: seq<Record>): set<int> {
    set r | r in records && r.status.Online? :: r.pid
  }

  /** A snapshot the provider can hand out. */
  ghost predicate ValidSnapshot(s: Snapshot) {
    && ValidRecords(s.records)
    && ProcReadable(s.records, s.proc)
    && s.proc.Keys == OnlinePids(s.records)
  }

  /** What the provider returns when its context stays alive for `live` polls. */
  ghost function Provided(
      records: Option<seq<Record>>, sockets: Option<seq<SocketOwner>>, proc: map<int, ProcIdentity>, live: nat)
    : Option<Snapshot>
  {
    if records.Some? && sockets.Some? && ValidRecords(records.value) && ProcReadable(records.value, proc)
       && live >= |records.value| + 3
    then Some(Snapshot(records.value, sockets.value, Restrict(proc, OnlinePids(records.value))))
    else None
  }

  function Restrict(proc: map<int, ProcIdentity>, pids: set<int>): map<int, ProcIdentity> {
    map pid | pid in pids && pid in proc :: proc[pid]
  }

  function RecordIds(records: seq<Record>): set<int> {
    set r | r in records :: r.id
  }

  /** The tests of the provider's loop body. */
  predicate Passes(record: Record, seenIds: set<int>, proc: map<int, ProcIdentity>, readable: map<int, ProcIdentity>) {
    && RecordComplete(record) && record.id !in seenIds
    && (record.status.Online? ==>
          record.pid !in proc && record.pid in readable && ProcComplete(record, readable[record.pid]))
  }

  lemma IdsAdd(earlier: seq<Record>, record: Record)
    ensures RecordIds(earlier + [record]) == RecordIds(earlier) + {record.id}
    ensures OnlinePids(earlier + [record]) == OnlinePids(earlier) + if record.status.Online? then {record.pid} else {}
  {
    assert forall r :: r in earlier + [record] <==> r in earlier || r == record;
  }

  lemma ValidAdd(earlier: seq<Record>, record: Record)
    requires ValidRecords(earlier)
    ensures ValidRecords(earlier + [record]) <==>
              && RecordComplete(record) && record.id !in RecordIds(earlier)
              && (record.status.Online? ==> record.pid !in OnlinePids(earlier))
  {
    hide RecordComplete;
    var all, i := earlier + [record], |earlier|;
    assert all[i] == record && forall k :: 0 <= k < i ==> all[k] == earlier[k] && all[k] in earlier;
    if record.id in RecordIds(earlier) {
      var k :| 0 <= k < i && earlier[k].id == record.id;
      assert all[k].id == all[i].id;
    }
    if record.status.Online? && record.pid in OnlinePids(earlier) {
      var k :| 0 <= k < i && earlier[k].status.Online? && earlier[k].pid == record.pid;
      assert all[k].pid == all[i].pid;
    }
  }

  lemma ReadableAdd(earlier: seq<Record>, record: Record, readable: map<int, ProcIdentity>)
    requires ProcReadable(earlier, readable)
    ensures ProcReadable(earlier + [record], readable) <==>
              (record.status.Online? ==> record.pid in readable && ProcComplete(record, readable[record.pid]))
  {
    hide ProcComplete;
    assert record in earlier + [record];
  }

  /** One more record keeps a checked prefix checked exactly when those tests pass. */
  lemma CheckedStep(records: seq<Record>, i: nat, readable: map<int, ProcIdentity>)
    requires i < |records| && ValidRecords(records[..i]) && ProcReadable(records[..i], readable)
    ensures var seenIds, proc := RecordIds(records[..i]), Restrict(readable, OnlinePids(records[..i]));
            && RecordIds(records[..i + 1]) == seenIds + {records[i].id}
            && (ValidRecords(records[..i + 1]) && ProcReadable(records[..i + 1], readable) <==>
                  Passes(records[i], seenIds, proc, readable))
            && (records[i].status.Stopped? ==> OnlinePids(records[..i + 1]) == OnlinePids(records[..i]))
            && (records[i].status.Online? && records[i].pid in readable ==>
                  Restrict(readable, OnlinePids(records[..i + 1])) == proc[records[i].pid := readable[records[i].pid]])
  {
    hide RecordComplete, ProcComplete, ValidRecords, ProcReadable, RecordIds, OnlinePids;
    assert records[..i + 1] == records[..i] + [records[i]];
    IdsAdd(records[..i], records[i]);
    ValidAdd(records[..i], records[i]);
    ReadableAdd(records[..i], records[i], readable);
  }

  lemma PassedStatus(record: Record, seenIds: set<int>, proc: map<int, ProcIdentity>, readable: map<int, ProcIdentity>)
    requires Passes(record, seenIds, proc, readable)
    ensures record.status.Stopped? || record.status.Online?
  {
  }

  lemma NothingChecked(readable: map<int, ProcIdentity>)
    ensures ValidRecords([]) && ProcReadable([], readable)
    ensures RecordIds([]) == {} && OnlinePids([]) == {}
  {
  }

  lemma CheckedPrefix(records: seq<Record>, i: nat, readable: map<int, ProcIdentity>)
    requires i <= |records| && ValidRecords(records) && ProcReadable(records, readable)
    ensures ValidRecords(records[..i]) && ProcReadable(records[..i], readable)
  {
  }

  /** `LinuxPM2SnapshotProvider.Snapshot`: `live` is the number of context polls
      that still find the context alive; an unreadable `/proc` entry is absent. */
  method ProvideSnapshot(
      records: Option<seq<Record>>, sockets: Option<seq<SocketOwner>>, readable: map<int, ProcIdentity>, live: nat)
    returns (result: Option<Snapshot>)
    ensures result == Provided(records, sockets, readable, live)
  {
    if live < 1 || records.None? || live < 2 || sockets.None? {
      return None;
    }
    hide RecordComplete, ProcComplete, ValidRecords, ProcReadable, RecordIds, OnlinePids;
    var proc: map<int, ProcIdentity> := map[];
    var seenIds: set<int> := {};
    var all := records.value;
    NothingChecked(readable);
    assert all[..0] == [] && all[..|all|] == all;
    for i := 0 to |all|
      invariant live >= i + 2
      invariant ValidRecords(all[..i]) && ProcReadable(all[..i], readable)
      invariant seenIds == RecordIds(all[..i])
      invariant proc == Restrict(readable, OnlinePids(all[..i]))
    {
      var record := all[i];
      CheckedStep(all, i, readable);
      if live < i + 3 {
        return None;
      }
      if !Passes(record, seenIds, proc, readable) {
        if ValidRecords(all) && ProcReadable(all, readable) { CheckedPrefix(all, i + 1, readable); }
        return None;
      }
      PassedStatus(record, seenIds, proc, readable);
      seenIds := seenIds + {record.id};
      if record.status.Stopped? {
        continue;
      }
      proc := proc[record.pid := readable[record.pid]];
    }
    if live < |all| + 3 {
      return None;
    }
    return Some(Snapshot(all, sockets.value, proc));
  }
}
