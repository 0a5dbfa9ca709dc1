/** The process table while selected services are stopped and brought back: what a
    truthful PM2 does to it, one command at a time. */
module Pm2World {
  import opened Basics
  import opened Paths
  import opened Pm2Correlation
  import opened Pm2Snapshot
  import opened Pm2Quiescence

  ghost predicate Healthy(w: Snapshot) {
    ValidSnapshot(w) && SocketsUnambiguous(w.sockets) && Distinct(w.sockets)
  }

  /** Where a selected service stands. */
  datatype Service = Running | Down | Reborn(pid: int, ticks: nat)

  /** The identity a service shows once it is running again. */
  function Refresh(p: Identity, s: Service): Identity {
    if s.Reborn? then p.(pid := s.pid, startTicks := s.ticks) else p
  }

  function ShownRecord(p: Identity, s: Service): Record {
    if s.Down? then Record(p.pmid, 0, p.name, p.cwd, p.execPath, Stopped)
    else Record(p.pmid, Refresh(p, s).pid, p.name, p.cwd, p.execPath, Online)
  }

  ghost predicate FollowsContract(p: Identity) {
    ContractOf(p.name, p.cwd) == Some(Contract(p.name, p.cwd, p.execPath, p.runtimeExecPath, p.port))
  }

  /** What is known of the identities a correlation selected. */
  ghost predicate Selection(w: Snapshot, ps: seq<Identity>) {
    && Healthy(w)
    && Correlated(w) == Ok(ps)
    && Ascending(ps)
    && (forall k :: 0 <= k < |ps| ==> FollowsContract(ps[k]) && SocketOwner(ps[k].pid, ps[k].port) in w.sockets)
    && DistinctServices(ps)
  }

  ghost predicate DistinctServices(ps: seq<Identity>) {
    forall j, k :: 0 <= j < |ps| && 0 <= k < |ps| && j != k ==>
      ps[j].pmid != ps[k].pmid && ps[j].pid != ps[k].pid && ps[j].port != ps[k].port
  }

  ghost predicate IsSelected(ps: seq<Identity>, pmid: int) {
    exists k :: 0 <= k < |ps| && ps[k].pmid == pmid
  }

  ghost predicate KeptSocket(w: Snapshot, ps: seq<Identity>, st: seq<Service>, s: SocketOwner)
    requires |st| == |ps|
  {
    s in w.sockets && forall k :: 0 <= k < |ps| && ps[k].pid == s.pid ==> st[k].Running?
  }

  ghost predicate RebornSocket(ps: seq<Identity>, st: seq<Service>, s: SocketOwner)
    requires |st| == |ps|
  {
    exists k :: 0 <= k < |ps| && st[k].Reborn? && s == SocketOwner(st[k].pid, ps[k].port)
  }

  ghost predicate RebornPid(st: seq<Service>, pid: int) {
    exists k :: 0 <= k < |st| && st[k].Reborn? && st[k].pid == pid
  }

  ghost predicate RelatedRecords(records0: seq<Record>, records: seq<Record>, ps: seq<Identity>, st: seq<Service>)
    requires |st| == |ps|
  {
    && |records| == |records0|
    && (forall i :: 0 <= i < |records| ==> records[i].id == records0[i].id)
    && (forall k :: 0 <= k < |ps| ==> ShownRecord(ps[k], st[k]) in records)
    && (forall r: Record :: !IsSelected(ps, r.id) ==> (r in records <==> r in records0))
  }

  ghost predicate RelatedSockets(w0: Snapshot, sockets: seq<SocketOwner>, ps: seq<Identity>, st: seq<Service>)
    requires |st| == |ps|
  {
    forall s :: s in sockets <==> KeptSocket(w0, ps, st, s) || RebornSocket(ps, st, s)
  }

  ghost predicate RelatedProc(proc0: map<int, ProcIdentity>, proc: map<int, ProcIdentity>, ps: seq<Identity>, st: seq<Service>)
    requires |st| == |ps|
  {
    && (forall pid :: pid in proc && !RebornPid(st, pid) ==> pid in proc0 && proc[pid] == proc0[pid])
    && (forall k :: 0 <= k < |ps| && st[k].Reborn? ==>
          st[k].pid in proc && proc[st[k].pid] == ProcIdentity(ps[k].cwd, ps[k].runtimeExecPath, st[k].ticks))
  }

  /** `w` is the world `w0` in which only the services `ps` differ, each standing
      where `st` says; every other record, socket and process is untouched. */
  ghost predicate Related(w0: Snapshot, w: Snapshot, ps: seq<Identity>, st: seq<Service>) {
    && |st| == |ps|
    && Healthy(w)
    && RelatedRecords(w0.records, w.records, ps, st)
    && RelatedSockets(w0, w.sockets, ps, st)
    && RelatedProc(w0.proc, w.proc, ps, st)
  }

  lemma {:induction false} LookupFinds(records: seq<Record>, r: Record)
    requires DistinctIds(records) && r in records
    ensures Lookup(records, r.id) == Some(r)
  {
    if records[0] != r {
      assert records == [records[0]] + records[1..];
      assert r in records[1..];
      var i :| 0 <= i < |records[1..]| && records[1..][i] == r;
      assert records[0].id != records[i + 1].id;
      LookupFinds(records[1..], r);
    }
  }

  lemma SameIdSameRecord(records: seq<Record>, a: Record, b: Record)
    requires DistinctIds(records) && a in records && b in records && a.id == b.id
    ensures a == b
  {
    var i :| 0 <= i < |records| && records[i] == a;
    var j :| 0 <= j < |records| && records[j] == b;
  }

  lemma SamePidSameRecord(records: seq<Record>, a: Record, b: Record)
    requires DistinctOnlinePids(records) && a in records && b in records
    requires a.status.Online? && b.status.Online? && a.pid == b.pid
    ensures a == b
  {
    var i :| 0 <= i < |records| && records[i] == a;
    var j :| 0 <= j < |records| && records[j] == b;
  }

  lemma {:induction false} WithoutPidDistinct(sockets: seq<SocketOwner>, pid: int)
    requires Distinct(sockets)
    ensures Distinct(WithoutPid(sockets, pid))
  {
    if sockets != [] {
      WithoutPidDistinct(sockets[1..], pid);
      var rest := WithoutPid(sockets[1..], pid);
      if sockets[0].pid != pid {
        forall i | 0 <= i < |rest| ensures rest[i] != sockets[0] {
          assert rest[i] in rest && rest[i] in sockets[1..];
        }
      }
    }
  }

  lemma StopRecordsMembers(records: seq<Record>, pmid: int)
    requires DistinctIds(records)
    ensures DistinctIds(StopRecords(records, pmid))
    ensures forall r: Record :: r.id != pmid ==> (r in StopRecords(records, pmid) <==> r in records)
    ensures forall r :: r in StopRecords(records, pmid) && r.id == pmid ==> r.status.Stopped? && r.pid == 0
    ensures forall r :: r in records && r.id == pmid ==> r.(pid := 0, status := Stopped) in StopRecords(records, pmid)
    ensures forall r :: r in StopRecords(records, pmid) ==> exists q :: q in records && r == StopRecord(q, pmid)
  {
    var stopped := StopRecords(records, pmid);
    forall r | r in records ensures StopRecord(r, pmid) in stopped {
      var i :| 0 <= i < |records| && records[i] == r;
      assert stopped[i] == StopRecord(r, pmid);
    }
    forall r | r in stopped ensures exists q :: q in records && r == StopRecord(q, pmid) {
      var i :| 0 <= i < |stopped| && stopped[i] == r;
      assert records[i] in records;
    }
    forall r: Record | r.id != pmid && r in records ensures r in stopped {
      assert StopRecord(r, pmid) == r;
    }
  }

  lemma StopOnline(records: seq<Record>, record: Record)
    requires ValidRecords(records) && record in records && record.status.Online?
    ensures ValidRecords(StopRecords(records, record.id))
    ensures forall r :: r in StopRecords(records, record.id) && r.status.Online? <==>
              r in records && r.status.Online? && r != record
    ensures OnlinePids(StopRecords(records, record.id)) == OnlinePids(records) - {record.pid}
  {
    var stopped := StopRecords(records, record.id);
    StopRecordsMembers(records, record.id);
    forall r | r in records && r.id == record.id ensures r == record {
      SameIdSameRecord(records, r, record);
    }
    forall r | r in records && r.status.Online? && r.pid == record.pid ensures r == record {
      SamePidSameRecord(records, r, record);
    }
  }

  lemma StopKeepsHealthy(w: Snapshot, record: Record)
    requires Healthy(w) && record in w.records && record.status.Online?
    ensures Healthy(StopEffect(w, record.id))
    ensures StopEffect(w, record.id) ==
            Snapshot(StopRecords(w.records, record.id), WithoutPid(w.sockets, record.pid), w.proc - {record.pid})
  {
    hide ProcComplete, RecordComplete, StopRecords, DistinctOnlinePids;
    LookupFinds(w.records, record);
    StopOnline(w.records, record);
    WithoutPidDistinct(w.sockets, record.pid);
    var v := StopEffect(w, record.id);
    forall r | r in v.records && r.status.Online?
      ensures r.pid in v.proc && ProcComplete(r, v.proc[r.pid])
    {
      assert r.pid in OnlinePids(v.records);
      assert r.pid in w.proc && ProcComplete(r, w.proc[r.pid]);
    }
  }

  lemma StopStepRecords(records0: seq<Record>, records: seq<Record>, ps: seq<Identity>, st: seq<Service>, k: nat)
    requires |st| == |ps| && DistinctServices(ps) && DistinctIds(records)
    requires RelatedRecords(records0, records, ps, st) && k < |ps| && st[k].Running?
    ensures RelatedRecords(records0, StopRecords(records, ps[k].pmid), ps, st[k := Down])
  {
    var stopped, st' := StopRecords(records, ps[k].pmid), st[k := Down];
    StopRecordsMembers(records, ps[k].pmid);
    forall j | 0 <= j < |ps| ensures ShownRecord(ps[j], st'[j]) in stopped {
      assert ShownRecord(ps[j], st[j]) in records;
      if j == k {
        assert ShownRecord(ps[k], Running).(pid := 0, status := Stopped) == ShownRecord(ps[k], Down);
      }
    }
    assert IsSelected(ps, ps[k].pmid);
  }

  lemma StopStepSockets(w0: Snapshot, sockets: seq<SocketOwner>, ps: seq<Identity>, st: seq<Service>, k: nat)
    requires |st| == |ps| && DistinctServices(ps)
    requires RelatedSockets(w0, sockets, ps, st) && k < |ps| && st[k].Running?
    requires forall j :: 0 <= j < |st| ==> !st[j].Reborn?
    ensures RelatedSockets(w0, WithoutPid(sockets, ps[k].pid), ps, st[k := Down])
  {
    var st' := st[k := Down];
    forall s ensures KeptSocket(w0, ps, st', s) <==> KeptSocket(w0, ps, st, s) && s.pid != ps[k].pid {
      assert st'[k].Down?;
      if KeptSocket(w0, ps, st', s) {
        forall j | 0 <= j < |ps| && ps[j].pid == s.pid ensures st[j].Running? {
          assert st'[j].Running?;
        }
      }
    }
  }

  lemma StopStepProc(proc0: map<int, ProcIdentity>, proc: map<int, ProcIdentity>, ps: seq<Identity>, st: seq<Service>, k: nat)
    requires |st| == |ps| && RelatedProc(proc0, proc, ps, st) && k < |ps|
    requires forall j :: 0 <= j < |st| ==> !st[j].Reborn?
    ensures RelatedProc(proc0, proc - {ps[k].pid}, ps, st[k := Down])
  {
  }

  lemma RelatedShows(w0: Snapshot, w: Snapshot, ps: seq<Identity>, st: seq<Service>, k: nat)
    requires Related(w0, w, ps, st) && k < |ps|
    ensures ShownRecord(ps[k], st[k]) in w.records && RecordComplete(ShownRecord(ps[k], st[k]))
    ensures DistinctIds(w.records) && DistinctOnlinePids(w.records)
  {
  }

  /** Stopping one running selected service takes exactly that service down. */
  lemma StopStep(w0: Snapshot, w: Snapshot, ps: seq<Identity>, st: seq<Service>, k: nat)
    requires Selection(w0, ps) && Related(w0, w, ps, st)
    requires k < |ps| && st[k].Running?
    requires forall j :: 0 <= j < |st| ==> !st[j].Reborn?
    ensures Related(w0, StopEffect(w, ps[k].pmid), ps, st[k := Down])
  {
    hide StopEffect, RelatedSockets, RelatedRecords, RelatedProc, Healthy, Correlated, FollowsContract, DistinctServices;
    var shown := ShownRecord(ps[k], Running);
    RelatedShows(w0, w, ps, st, k);
    StopKeepsHealthy(w, shown);
    StopStepRecords(w0.records, w.records, ps, st, k);
    StopStepSockets(w0, w.sockets, ps, st, k);
    StopStepProc(w0.proc, w.proc, ps, st, k);
  }

  lemma StartRecordsMembers(records: seq<Record>, pmid: int, pid: int)
    requires DistinctIds(records)
    ensures DistinctIds(StartRecords(records, pmid, pid))
    ensures forall r: Record :: r.id != pmid ==> (r in StartRecords(records, pmid, pid) <==> r in records)
    ensures forall r :: r in records && r.id == pmid ==> r.(pid := pid, status := Online) in StartRecords(records, pmid, pid)
    ensures forall r :: r in StartRecords(records, pmid, pid) ==> exists q :: q in records && r == StartRecord(q, pmid, pid)
  {
    var started := StartRecords(records, pmid, pid);
    forall r | r in records ensures StartRecord(r, pmid, pid) in started {
      var i :| 0 <= i < |records| && records[i] == r;
      assert started[i] == StartRecord(r, pmid, pid);
    }
    forall r | r in started ensures exists q :: q in records && r == StartRecord(q, pmid, pid) {
      var i :| 0 <= i < |started| && started[i] == r;
      assert records[i] in records;
    }
    forall r: Record | r.id != pmid && r in records ensures r in started {
      assert StartRecord(r, pmid, pid) == r;
    }
  }

  lemma StartOnline(records: seq<Record>, down: Record, pid: int)
    requires ValidRecords(records) && down in records && down.status.Stopped?
    requires pid > 0 && pid !in OnlinePids(records)
    ensures ValidRecords(StartRecords(records, down.id, pid))
    ensures forall r :: r in StartRecords(records, down.id, pid) && r.status.Online? <==>
              (r in records && r.status.Online?) || r == down.(pid := pid, status := Online)
    ensures OnlinePids(StartRecords(records, down.id, pid)) == OnlinePids(records) + {pid}
  {
    var started, shown := StartRecords(records, down.id, pid), down.(pid := pid, status := Online);
    StartRecordsMembers(records, down.id, pid);
    forall r | r in records && r.id == down.id ensures r == down {
      SameIdSameRecord(records, r, down);
    }
    forall r | r in started && r.id == down.id ensures r == shown {
      SameIdSameRecord(started, r, shown);
    }
    forall i, j | 0 <= i < j < |started| && started[i].status.Online? && started[j].status.Online?
      ensures started[i].pid != started[j].pid
    {
      assert records[i] in records && records[j] in records;
      assert records[i].id != records[j].id;
    }
  }

  lemma StartShape(w: Snapshot, p: Identity, pid: int, ticks: nat)
    requires DistinctIds(w.records) && ShownRecord(p, Down) in w.records && FollowsContract(p)
    ensures StartEffect(w, p.pmid, pid, ticks) ==
            Snapshot(StartRecords(w.records, p.pmid, pid), w.sockets + [SocketOwner(pid, p.port)],
                     w.proc[pid := ProcIdentity(p.cwd, p.runtimeExecPath, ticks)])
  {
    hide StartRecords, ContractOf, DistinctIds;
    LookupFinds(w.records, ShownRecord(p, Down));
  }

  lemma StartReadable(w: Snapshot, v: Snapshot, p: Identity, pid: int, ticks: nat)
    requires ProcReadable(w.records, w.proc) && w.proc.Keys == OnlinePids(w.records) && pid !in w.proc && ticks != 0
    requires FollowsContract(p) && v.proc == w.proc[pid := ProcIdentity(p.cwd, p.runtimeExecPath, ticks)]
    requires forall r :: r in v.records && r.status.Online? <==>
               (r in w.records && r.status.Online?) || r == ShownRecord(p, Reborn(pid, ticks))
    ensures ProcReadable(v.records, v.proc)
  {
    forall r | r in v.records && r.status.Online? ensures r.pid in v.proc && ProcComplete(r, v.proc[r.pid]) {
      if r in w.records {
        assert r.pid in OnlinePids(w.records) && r.pid != pid;
      } else {
        SamePathReflexive(p.cwd);
      }
    }
  }

  lemma StartKeepsHealthy(w: Snapshot, p: Identity, pid: int, ticks: nat)
    requires Healthy(w) && ShownRecord(p, Down) in w.records && FollowsContract(p)
    requires pid > 0 && !InUse(w, pid) && ticks != 0 && p.port != 0
    requires forall s :: s in w.sockets ==> s.port != p.port
    ensures StartEffect(w, p.pmid, pid, ticks) ==
            Snapshot(StartRecords(w.records, p.pmid, pid), w.sockets + [SocketOwner(pid, p.port)],
                     w.proc[pid := ProcIdentity(p.cwd, p.runtimeExecPath, ticks)])
    ensures Healthy(StartEffect(w, p.pmid, pid, ticks))
    ensures ShownRecord(p, Reborn(pid, ticks)) in StartEffect(w, p.pmid, pid, ticks).records
  {
    hide RecordComplete, StartRecords, DistinctOnlinePids, DistinctIds, SamePath, StartEffect, ProcReadable, FollowsContract, Lookup;
    var down := ShownRecord(p, Down);
    StartShape(w, p, pid, ticks);
    StartOnline(w.records, down, pid);
    var v := StartEffect(w, p.pmid, pid, ticks);
    assert down.(pid := pid, status := Online) == ShownRecord(p, Reborn(pid, ticks));
    StartReadable(w, v, p, pid, ticks);
    assert v.proc.Keys == OnlinePids(v.records);
    assert SocketOwner(pid, p.port) !in w.sockets;
  }

  lemma SamePathReflexive(path: string)
    ensures SamePath(path, path)
  {
  }

  /** No socket holds the port of a service that is down. */
  lemma DownPortIsFree(w0: Snapshot, w: Snapshot, ps: seq<Identity>, st: seq<Service>, k: nat)
    requires Selection(w0, ps) && Related(w0, w, ps, st)
    requires k < |ps| && st[k].Down?
    ensures forall s :: s in w.sockets ==> s.port != ps[k].port
  {
    hide Healthy, Correlated, ShownRecord;
    var own := SocketOwner(ps[k].pid, ps[k].port);
    assert own in w0.sockets;
    assert SocketsUnambiguous(w0.sockets) by { HealthyMeans(w0); }
    forall s | s in w.sockets ensures s.port != ps[k].port {
      assert KeptSocket(w0, ps, st, s) ==> s.port != own.port;
      assert RebornSocket(ps, st, s) ==> s.port != own.port;
    }
  }

  lemma HealthyMeans(w: Snapshot)
    requires Healthy(w)
    ensures ValidSnapshot(w) && SocketsUnambiguous(w.sockets) && Distinct(w.sockets)
  {
  }

  lemma StartStepRecords(records0: seq<Record>, records: seq<Record>, ps: seq<Identity>, st: seq<Service>, k: nat, pid: int, ticks: nat)
    requires |st| == |ps| && DistinctServices(ps) && DistinctIds(records)
    requires RelatedRecords(records0, records, ps, st) && k < |ps| && st[k].Down?
    ensures RelatedRecords(records0, StartRecords(records, ps[k].pmid, pid), ps, st[k := Reborn(pid, ticks)])
  {
    var started, st' := StartRecords(records, ps[k].pmid, pid), st[k := Reborn(pid, ticks)];
    StartRecordsMembers(records, ps[k].pmid, pid);
    forall j | 0 <= j < |ps| ensures ShownRecord(ps[j], st'[j]) in started {
      assert ShownRecord(ps[j], st[j]) in records;
      if j == k {
        assert ShownRecord(ps[k], Down).(pid := pid, status := Online) == ShownRecord(ps[k], Reborn(pid, ticks));
      }
    }
    assert IsSelected(ps, ps[k].pmid);
  }

  lemma StartStepSockets(w0: Snapshot, sockets: seq<SocketOwner>, ps: seq<Identity>, st: seq<Service>, k: nat, pid: int, ticks: nat)
    requires |st| == |ps|
    requires RelatedSockets(w0, sockets, ps, st) && k < |ps| && st[k].Down?
    ensures RelatedSockets(w0, sockets + [SocketOwner(pid, ps[k].port)], ps, st[k := Reborn(pid, ticks)])
  {
    var st' := st[k := Reborn(pid, ticks)];
    forall s ensures KeptSocket(w0, ps, st', s) <==> KeptSocket(w0, ps, st, s) {
    }
    forall s ensures RebornSocket(ps, st', s) <==> RebornSocket(ps, st, s) || s == SocketOwner(pid, ps[k].port) {
      if RebornSocket(ps, st, s) {
        var j :| 0 <= j < |ps| && st[j].Reborn? && s == SocketOwner(st[j].pid, ps[j].port);
        assert st'[j] == st[j];
      }
      assert st'[k] == Reborn(pid, ticks);
    }
  }

  lemma StartStepProc(proc0: map<int, ProcIdentity>, proc: map<int, ProcIdentity>, ps: seq<Identity>, st: seq<Service>, k: nat, pid: int, ticks: nat)
    requires |st| == |ps| && pid !in proc
    requires RelatedProc(proc0, proc, ps, st) && k < |ps| && st[k].Down?
    ensures RelatedProc(proc0, proc[pid := ProcIdentity(ps[k].cwd, ps[k].runtimeExecPath, ticks)], ps, st[k := Reborn(pid, ticks)])
  {
    var st' := st[k := Reborn(pid, ticks)];
    forall q | RebornPid(st, q) ensures RebornPid(st', q) {
      var j :| 0 <= j < |st| && st[j].Reborn? && st[j].pid == q;
      assert st'[j] == st[j];
    }
    assert st'[k].Reborn? && RebornPid(st', pid);
  }

  /** Starting one stopped selected service brings back exactly that service. */
  lemma StartStep(w0: Snapshot, w: Snapshot, ps: seq<Identity>, st: seq<Service>, k: nat, pid: int, ticks: nat)
    requires Selection(w0, ps) && Related(w0, w, ps, st)
    requires k < |ps| && st[k].Down?
    requires pid > 0 && !InUse(w, pid) && ticks != 0
    ensures Related(w0, StartEffect(w, ps[k].pmid, pid, ticks), ps, st[k := Reborn(pid, ticks)])
  {
    hide StartEffect, RelatedSockets, RelatedProc, Correlated, ContractOf, ProcReadable, DistinctServices;
    var p := ps[k];
    DownPortIsFree(w0, w, ps, st, k);
    assert SocketOwner(p.pid, p.port) in w0.sockets;
    assert ShownRecord(p, Down) in w.records;
    StartKeepsHealthy(w, p, pid, ticks);
    StartStepRecords(w0.records, w.records, ps, st, k, pid, ticks);
    StartStepSockets(w0, w.sockets, ps, st, k, pid, ticks);
    StartStepProc(w0.proc, w.proc, ps, st, k, pid, ticks);
  }

  /** What a correlation selected stands running in that same world. */
  lemma SelectionHolds(w: Snapshot, ps: seq<Identity>)
    requires Healthy(w) && Correlated(w) == Ok(ps)
    ensures Selection(w, ps)
    ensures Related(w, w, ps, seq(|ps|, _ => Running))
  {
    CorrelationMeans(w.records, w.sockets, w.proc, ps);
    CorrelationIsInjective(w.records, w.sockets, w.proc, ps);
    var st := seq(|ps|, _ => Running);
    forall k | 0 <= k < |ps|
      ensures FollowsContract(ps[k]) && SocketOwner(ps[k].pid, ps[k].port) in w.sockets
      ensures ShownRecord(ps[k], st[k]) in w.records
    {
      assert ps[k] in ps;
      SelectedIsRunning(w, ps[k]);
    }
    assert forall s :: !RebornSocket(ps, st, s);
    assert forall pid :: !RebornPid(st, pid);
  }

  lemma SelectedIsRunning(w: Snapshot, p: Identity)
    requires exists r :: r in w.records && Qualifies(r, w.sockets) && Proven(r, w.proc) && p == IdentityOf(r, w.proc)
    ensures FollowsContract(p) && SocketOwner(p.pid, p.port) in w.sockets && ShownRecord(p, Running) in w.records
  {
    var r :| r in w.records && Qualifies(r, w.sockets) && Proven(r, w.proc) && p == IdentityOf(r, w.proc);
    assert r == ShownRecord(p, Running);
  }

  /** Correlating such a world selects exactly the services that run, with the
      process ids and start ticks they run under now. */
  lemma CorrelatedWorld(w0: Snapshot, w: Snapshot, ps: seq<Identity>, st: seq<Service>, live: seq<Identity>)
    requires Selection(w0, ps) && Related(w0, w, ps, st)
    requires Ascending(live) && live != []
    requires forall x :: x in live <==> exists k :: 0 <= k < |ps| && !st[k].Down? && x == Refresh(ps[k], st[k])
    requires forall k :: 0 <= k < |ps| && st[k].Reborn? ==> st[k].ticks != 0
    ensures Correlated(w) == Ok(live)
  {
    CorrelationMeans(w0.records, w0.sockets, w0.proc, ps);
    CorrelationMeans(w.records, w.sockets, w.proc, live);
    forall r | r in w.records && Qualifies(r, w.sockets)
      ensures Proven(r, w.proc) && IdentityOf(r, w.proc) in live
    {
      QualifiedIsSelected(w0, w, ps, st, r);
      var k :| 0 <= k < |ps| && ps[k].pmid == r.id;
      SameIdSameRecord(w.records, r, ShownRecord(ps[k], st[k]));
      RunningIsProven(w0, w, ps, st, k);
    }
    forall x | x in live
      ensures exists r :: r in w.records && Qualifies(r, w.sockets) && Proven(r, w.proc) && x == IdentityOf(r, w.proc)
    {
      var k :| 0 <= k < |ps| && !st[k].Down? && x == Refresh(ps[k], st[k]);
      RunningIsProven(w0, w, ps, st, k);
      var r := ShownRecord(ps[k], st[k]);
      assert r in w.records;
    }
  }

  lemma KeptOwnerIsSelected(w: Snapshot, ps: seq<Identity>, r: Record)
    requires Selection(w, ps) && r in w.records && Qualifies(r, w.sockets)
    ensures IsSelected(ps, r.id)
  {
    hide ContractOf, FollowsContract, DistinctServices, ProcReadable, DistinctIds, DistinctOnlinePids;
    CorrelationMeans(w.records, w.sockets, w.proc, ps);
    assert IdentityOf(r, w.proc) in ps;
    var k :| 0 <= k < |ps| && ps[k] == IdentityOf(r, w.proc);
    assert ps[k].pmid == r.id;
  }

  lemma QualifiedIsSelected(w0: Snapshot, w: Snapshot, ps: seq<Identity>, st: seq<Service>, r: Record)
    requires Selection(w0, ps) && Related(w0, w, ps, st)
    requires r in w.records && Qualifies(r, w.sockets)
    ensures IsSelected(ps, r.id)
  {
    hide ContractOf, Correlated, Healthy, FollowsContract, DistinctServices, RelatedProc, DistinctIds, DistinctOnlinePids;
    var s := SocketOwner(r.pid, ContractOf(r.name, r.cwd).value.port);
    if RebornSocket(ps, st, s) {
      var k :| 0 <= k < |ps| && st[k].Reborn? && s == SocketOwner(st[k].pid, ps[k].port);
      RelatedShows(w0, w, ps, st, k);
      SamePidSameRecord(w.records, r, ShownRecord(ps[k], st[k]));
    } else if r in w0.records {
      KeptOwnerIsSelected(w0, ps, r);
    }
  }

  /** Two services that run never share a process id. */
  lemma RunningPidsDiffer(w0: Snapshot, w: Snapshot, ps: seq<Identity>, st: seq<Service>, j: nat, k: nat)
    requires Selection(w0, ps) && Related(w0, w, ps, st)
    requires j < |ps| && k < |ps| && !st[j].Down? && !st[k].Down?
    requires ShownRecord(ps[j], st[j]).pid == ShownRecord(ps[k], st[k]).pid
    ensures j == k
  {
    SamePidSameRecord(w.records, ShownRecord(ps[j], st[j]), ShownRecord(ps[k], st[k]));
  }

  lemma RunningIsProven(w0: Snapshot, w: Snapshot, ps: seq<Identity>, st: seq<Service>, k: nat)
    requires Selection(w0, ps) && Related(w0, w, ps, st)
    requires k < |ps| && !st[k].Down?
    requires st[k].Reborn? ==> st[k].ticks != 0
    ensures var r := ShownRecord(ps[k], st[k]);
            Qualifies(r, w.sockets) && Proven(r, w.proc) && IdentityOf(r, w.proc) == Refresh(ps[k], st[k])
  {
    hide ContractOf, Correlated, Healthy, DistinctIds, DistinctOnlinePids;
    var p, r := ps[k], ShownRecord(ps[k], st[k]);
    RelatedShows(w0, w, ps, st, k);
    var s := SocketOwner(r.pid, p.port);
    if st[k].Reborn? {
      assert RebornSocket(ps, st, s);
    } else {
      assert KeptSocket(w0, ps, st, s);
      SelectedProc(w0, ps, k);
      OnlineHasProc(w, r);
      forall j | 0 <= j < |ps| && st[j].Reborn? && st[j].pid == p.pid ensures j == k {
        RunningPidsDiffer(w0, w, ps, st, j, k);
      }
      assert !RebornPid(st, p.pid);
    }
  }

  lemma OnlineHasProc(w: Snapshot, r: Record)
    requires Healthy(w) && r in w.records && r.status.Online?
    ensures r.pid in w.proc
  {
  }

  lemma SelectedProc(w: Snapshot, ps: seq<Identity>, k: nat)
    requires Selection(w, ps) && k < |ps|
    ensures ps[k].pid in w.proc
    ensures w.proc[ps[k].pid] == ProcIdentity(ps[k].cwd, ps[k].runtimeExecPath, ps[k].startTicks) && ps[k].startTicks != 0
  {
    hide ContractOf, FollowsContract, DistinctServices, ProcReadable, DistinctIds, DistinctOnlinePids;
    CorrelationMeans(w.records, w.sockets, w.proc, ps);
    assert ps[k] in ps;
    var q :| q in w.records && Qualifies(q, w.sockets) && ps[k] == IdentityOf(q, w.proc);
  }

  lemma SameIdSameIndex(records: seq<Record>, i: int, j: int)
    requires DistinctIds(records) && 0 <= i < |records| && 0 <= j < |records| && records[i].id == records[j].id
    ensures i == j
  {
  }

  lemma ShownIsUnique(w: Snapshot, p: Identity, s: Service) returns (i: int)
    requires Healthy(w) && ShownRecord(p, s) in w.records
    ensures ExactRecord(w.records, p, i) && w.records[i] == ShownRecord(p, s)
    ensures forall j :: 0 <= j < |w.records| && w.records[j].id == p.pmid ==> j == i
  {
    hide SamePath;
    i :| 0 <= i < |w.records| && w.records[i] == ShownRecord(p, s);
    forall j | 0 <= j < |w.records| && w.records[j].id == p.pmid ensures j == i {
      SameIdSameIndex(w.records, i, j);
    }
    SamePathReflexive(p.cwd);
    SamePathReflexive(p.execPath);
  }

  /** A service that is down passes both the stop proof and the check before a start. */
  lemma DownIsProven(w0: Snapshot, w: Snapshot, ps: seq<Identity>, st: seq<Service>, k: nat)
    requires Selection(w0, ps) && Related(w0, w, ps, st) && k < |ps| && st[k].Down?
    ensures StoppedAndReleased(w, ps[k]) && ReadyToStart(w, ps[k])
  {
    DownPortIsFree(w0, w, ps, st, k);
    var i := ShownIsUnique(w, ps[k], Down);
  }

  /** A reborn service passes the recovery proof exactly when its process id and
      start ticks differ from the old ones, and never the check before a start. */
  lemma RebornIsProven(w0: Snapshot, w: Snapshot, ps: seq<Identity>, st: seq<Service>, k: nat)
    requires Selection(w0, ps) && Related(w0, w, ps, st) && k < |ps| && st[k].Reborn? && st[k].ticks != 0
    ensures Restarted(w, ps[k]) <==> st[k].pid != ps[k].pid && st[k].ticks != ps[k].startTicks
    ensures !ReadyToStart(w, ps[k])
  {
    var p, r := ps[k], ShownRecord(ps[k], st[k]);
    var i := ShownIsUnique(w, p, st[k]);
    assert forall j :: ExactRecord(w.records, p, j) ==> j == i;
    assert w.records[i] == r && RecordComplete(r);
    var own := SocketOwner(st[k].pid, p.port);
    assert RebornSocket(ps, st, own) && own in w.sockets;
    OnlyOwner(w.sockets, own);
  }

  lemma OnlyOwner(sockets: seq<SocketOwner>, own: SocketOwner)
    requires SocketsUnambiguous(sockets) && Distinct(sockets) && own in sockets
    ensures OwnsAlone(sockets, own.port, own.pid)
  {
    var a :| 0 <= a < |sockets| && sockets[a] == own;
    forall j | 0 <= j < |sockets| && sockets[j].port == own.port ensures j == a {
      assert sockets[j] in sockets;
      assert sockets[j] == sockets[a];
    }
  }
}
