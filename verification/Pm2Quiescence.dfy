/** Stopping and recovering the correlated PM2 services
    (internal/installation/pm2_quiescence.go).

    Every outside call is answered by `Host.oracle`, an arbitrary function of the
    call number, so a statement about all hosts is a statement about every run:
    failing commands, failing or lying observations, slow calls and cancellation at
    any moment. `Conduct` adds what an honest PM2 owes:
      Hostile   - observations are arbitrary;
      Truthful  - an observation that succeeds shows the real process table, a
                  command that reports success took effect, and a failing command
                  may or may not have taken effect;
      Prompt    - truthful, and nothing fails or takes time. */
module Pm2Quiescence {
  import opened Basics
  import opened Paths
  import opened Pm2Correlation
  import opened Pm2Snapshot

  datatype Evidence = Evidence(
    pmid: int, originalPid: int, port: Port, startTicks: nat,
    stopCommandSucceeded: bool, stopVerified: bool)

  datatype Quiescence = Quiescence(processes: seq<Identity>, evidence: seq<Evidence>, noopVerified: bool)

  datatype QuiesceCode =
    | Quiesced
    | ObservationUnavailable
    | CorrelationFailed
    | FinalStateUnproven
    | StateChanged
    | StopFailed
    | StopUnproven

  datatype RecoveryCode = RecoveryVerified | RecoveryUnproven | RecoveryInvalid

  datatype Recovery = Recovery(attempted: nat, recovered: nat, verified: bool, code: RecoveryCode)

  // ----------------------------------------------------------------- host

  datatype Conduct = Hostile | Truthful | Prompt

  /** One answer of the outside world; each call reads the part it needs. */
  datatype Reply = Reply(
    records: Option<seq<Record>>, sockets: Option<seq<SocketOwner>>, proc: map<int, ProcIdentity>, live: nat,
    took: nat, ok: bool, tookEffect: bool, pid: int, ticks: nat, timerFirst: bool)

  datatype Command = StopCommand(pmid: int) | StartCommand(pmid: int)

  /** What the quiescer did, with the time when it was done: it looked, or it sent a
      command that did or did not report success. */
  datatype Entry = Saw(s: Option<Snapshot>, at: nat) | Sent(command: Command, ok: bool, at: nat)

  datatype Host = Host(
    conduct: Conduct, oracle: nat -> Reply, calls: nat, clock: nat, cancelAt: Option<nat>,
    world: Snapshot, nextPid: int, nextTicks: nat, commands: seq<Command>, log: seq<Entry>)

  ghost function Observation(h: Host): Option<Snapshot> {
    var reply := h.oracle(h.calls);
    match h.conduct
    case Hostile => Provided(reply.records, reply.sockets, reply.proc, reply.live)
    case Truthful => Provided(Some(h.world.records), Some(h.world.sockets), h.world.proc, reply.live)
    case Prompt => Provided(Some(h.world.records), Some(h.world.sockets), h.world.proc, |h.world.records| + 3)
  }

  function AfterSeeing(h: Host, s: Option<Snapshot>): (h': Host)
    ensures h'.clock >= h.clock && h'.world == h.world && h'.commands == h.commands
  {
    var took := if h.conduct.Prompt? then 0 else h.oracle(h.calls).took;
    h.(calls := h.calls + 1, clock := h.clock + took, log := h.log + [Saw(s, h.clock + took)])
  }

  ghost function AfterObservation(h: Host): (h': Host)
    ensures h'.clock >= h.clock && h'.world == h.world && h'.commands == h.commands
    ensures h'.log == h.log + [Saw(Observation(h), h'.clock)]
  {
    AfterSeeing(h, Observation(h))
  }

  /** The guard of `RootPM2Boundary.mutate`. */
  predicate MutationAllowed(target: Identity) {
    && target.pmid >= 0 && target.pid > 0 && target.port != 0 && target.startTicks != 0
    && target.cwd != "" && target.execPath != "" && target.runtimeExecPath != ""
  }

  function StopRecord(r: Record, pmid: int): Record {
    if r.id == pmid then r.(pid := 0, status := Stopped) else r
  }

  function StopRecords(records: seq<Record>, pmid: int): (r: seq<Record>)
    ensures |r| == |records| && forall i :: 0 <= i < |r| ==> r[i] == StopRecord(records[i], pmid)
  {
    seq(|records|, i requires 0 <= i < |records| => StopRecord(records[i], pmid))
  }

  function WithoutPid(sockets: seq<SocketOwner>, pid: int): (r: seq<SocketOwner>)
    ensures forall s :: s in r <==> s in sockets && s.pid != pid
  {
    if sockets == [] then []
    else
      var rest := WithoutPid(sockets[1..], pid);
      if sockets[0].pid == pid then rest else [sockets[0]] + rest
  }

  /** The record with a given id, if any. */
  function Lookup(records: seq<Record>, pmid: int): (r: Option<Record>)
    ensures r.Some? ==> r.value in records && r.value.id == pmid
    ensures r.None? ==> forall x :: x in records ==> x.id != pmid
  {
    if records == [] then None
    else if records[0].id == pmid then Some(records[0])
    else Lookup(records[1..], pmid)
  }

  /** What `pm2 stop` does to the process table. */
  function StopEffect(w: Snapshot, pmid: int): Snapshot {
    var record := Lookup(w.records, pmid);
    if record.None? || !record.value.status.Online? then w
    else
      Snapshot(StopRecords(w.records, pmid), WithoutPid(w.sockets, record.value.pid), w.proc - {record.value.pid})
  }

  function StartRecord(r: Record, pmid: int, pid: int): Record {
    if r.id == pmid then r.(pid := pid, status := Online) else r
  }

  function StartRecords(records: seq<Record>, pmid: int, pid: int): (r: seq<Record>)
    ensures |r| == |records| && forall i :: 0 <= i < |r| ==> r[i] == StartRecord(records[i], pmid, pid)
  {
    seq(|records|, i requires 0 <= i < |records| => StartRecord(records[i], pmid, pid))
  }

  /** What `pm2 start` does: the service comes back as a new process that listens
      on its contract's port, if it has one. */
  function StartEffect(w: Snapshot, pmid: int, pid: int, ticks: nat): Snapshot {
    var record := Lookup(w.records, pmid);
    if record.None? || record.value.status.Online? then w
    else
      var contract := ContractOf(record.value.name, record.value.cwd);
      var identity := if contract.Some? then ProcIdentity(contract.value.cwd, contract.value.runtimeExecPath, ticks)
                      else ProcIdentity(record.value.cwd, record.value.execPath, ticks);
      var sockets := if contract.Some? then w.sockets + [SocketOwner(pid, contract.value.port)] else w.sockets;
      Snapshot(StartRecords(w.records, pmid, pid), sockets, w.proc[pid := identity])
  }

  /** `PM2Controller.Stop`: whether it reported success, and the host afterwards. */
  function Stop(h: Host, target: Identity): (r: (bool, Host))
    ensures r.1.commands == h.commands + if MutationAllowed(target) then [StopCommand(target.pmid)] else []
    ensures r.1.log == h.log + if MutationAllowed(target) then [Sent(StopCommand(target.pmid), r.0, r.1.clock)] else []
    ensures r.0 ==> MutationAllowed(target)
  {
    if !MutationAllowed(target) then (false, h)
    else
      var reply := h.oracle(h.calls);
      var ok := h.conduct.Prompt? || reply.ok;
      var effective := !h.conduct.Hostile? && (ok || reply.tookEffect);
      var done := h.clock + if h.conduct.Prompt? then 0 else reply.took;
      (ok, h.(calls := h.calls + 1,
              world := if effective then StopEffect(h.world, target.pmid) else h.world,
              commands := h.commands + [StopCommand(target.pmid)], clock := done,
              log := h.log + [Sent(StopCommand(target.pmid), ok, done)]))
  }

  predicate InUse(w: Snapshot, pid: int) {
    pid in w.proc || exists i :: 0 <= i < |w.sockets| && w.sockets[i].pid == pid
  }

  /** The process id the system hands out: never one in use. */
  function FreshPid(h: Host): int {
    var wanted := h.oracle(h.calls).pid;
    if h.conduct.Prompt? || wanted <= 0 || InUse(h.world, wanted) then h.nextPid else wanted
  }

  function FreshTicks(h: Host): nat {
    if h.conduct.Prompt? || h.oracle(h.calls).ticks == 0 then h.nextTicks else h.oracle(h.calls).ticks
  }

  /** `PM2Controller.Start`. */
  function Start(h: Host, target: Identity): (r: (bool, Host))
    ensures r.1.commands == h.commands + if MutationAllowed(target) then [StartCommand(target.pmid)] else []
    ensures r.1.log == h.log + if MutationAllowed(target) then [Sent(StartCommand(target.pmid), r.0, r.1.clock)] else []
    ensures r.0 ==> MutationAllowed(target)
  {
    if !MutationAllowed(target) then (false, h)
    else
      var reply := h.oracle(h.calls);
      var ok := h.conduct.Prompt? || reply.ok;
      var effective := !h.conduct.Hostile? && (ok || reply.tookEffect);
      var done := h.clock + if h.conduct.Prompt? then 0 else reply.took;
      var pid, ticks := FreshPid(h), FreshTicks(h);
      (ok, h.(calls := h.calls + 1,
              world := if effective then StartEffect(h.world, target.pmid, pid, ticks) else h.world,
              nextPid := if h.nextPid <= pid then pid + 1 else h.nextPid,
              nextTicks := if h.nextTicks <= ticks then ticks + 1 else h.nextTicks,
              commands := h.commands + [StartCommand(target.pmid)], clock := done,
              log := h.log + [Sent(StartCommand(target.pmid), ok, done)]))
  }

  // --------------------------------------------------------------- proofs

  predicate RecordStopped(r: Record, target: Identity) {
    r.status.Stopped? && r.pid == 0 && SamePath(r.cwd, target.cwd) && SamePath(r.execPath, target.execPath)
  }

  /** Exactly one record carries the id, it is stopped, and nobody holds the port. */
  ghost predicate StoppedAndReleased(s: Snapshot, target: Identity) {
    && (exists i :: 0 <= i < |s.records| && s.records[i].id == target.pmid && RecordStopped(s.records[i], target) &&
                    forall j :: 0 <= j < |s.records| && s.records[j].id == target.pmid ==> j == i)
    && (forall o :: o in s.sockets ==> o.port != target.port)
  }

  ghost predicate AllStoppedAndReleased(s: Snapshot, targets: seq<Identity>) {
    forall t :: t in targets ==> StoppedAndReleased(s, t)
  }

  /** `exactRecoveryRecord`. */
  ghost predicate ExactRecord(records: seq<Record>, target: Identity, i: int) {
    && 0 <= i < |records| && records[i].id == target.pmid
    && records[i].name == target.name
    && SamePath(records[i].cwd, target.cwd) && SamePath(records[i].execPath, target.execPath)
    && forall j :: 0 <= j < |records| && records[j].id == target.pmid ==> j == i
  }

  /** `recoverySnapshotProves` before a start. */
  ghost predicate ReadyToStart(s: Snapshot, target: Identity) {
    exists i :: ExactRecord(s.records, target, i) && s.records[i].status.Stopped? &&
                forall o :: o in s.sockets ==> o.port != target.port
  }

  /** `recoverySnapshotProves` after a start: the same service runs as another
      process, alone on the port. */
  ghost predicate Restarted(s: Snapshot, target: Identity) {
    exists i :: ExactRecord(s.records, target, i) && RestartedAs(s, target, s.records[i])
  }

  ghost predicate RestartedAs(s: Snapshot, target: Identity, r: Record) {
    && r.status.Online? && r.pid > 0 && r.pid != target.pid
    && OwnsAlone(s.sockets, target.port, r.pid)
    && r.pid in s.proc
    && s.proc[r.pid].startTicks != 0 && s.proc[r.pid].startTicks != target.startTicks
    && s.proc[r.pid].cwd == target.cwd && s.proc[r.pid].execPath == target.runtimeExecPath
  }

  /** Exactly one listed socket holds the port, and the process owns it. */
  ghost predicate OwnsAlone(sockets: seq<SocketOwner>, port: Port, pid: int) {
    exists i :: 0 <= i < |sockets| && sockets[i] == SocketOwner(pid, port) &&
                forall j :: 0 <= j < |sockets| && sockets[j].port == port ==> j == i
  }

  datatype Timing = Timing(timeout: int, interval: int)

  const DEFAULT_TIMEOUT: nat := 10_000
  const DEFAULT_INTERVAL: nat := 100

  function Timeout(t: Timing): (n: nat)
    ensures n > 0
  {
    if t.timeout <= 0 then DEFAULT_TIMEOUT else t.timeout
  }

  function Interval(t: Timing): (n: nat)
    ensures n > 0
  {
    if t.interval <= 0 then DEFAULT_INTERVAL else t.interval
  }

  /** The instant at which the proof context ends. */
  function DoneAt(h: Host, deadline: nat): nat {
    if h.cancelAt.Some? && h.cancelAt.value < deadline then h.cancelAt.value else deadline
  }

  predicate Expired(h: Host, deadline: nat) {
    h.clock >= DoneAt(h, deadline)
  }

  /** Whether the poll timer wins over the end of the context. */
  predicate TimerFires(h: Host, deadline: nat, t: Timing): (fires: bool)
    ensures fires ==> h.clock < h.clock + Interval(t) <= deadline
  {
    var wake := h.clock + Interval(t);
    wake < DoneAt(h, deadline) ||
    (wake == DoneAt(h, deadline) && h.clock < wake && h.oracle(h.calls).timerFirst)
  }

  /** `waitForStoppedAndReleased`. */
  ghost function AwaitStopped(h: Host, target: Identity, deadline: nat, t: Timing): (bool, Host)
    decreases if h.clock < deadline then deadline - h.clock else 0
  {
    var seen := Observation(h);
    var h1 := AfterObservation(h);
    if seen.Some? && !Expired(h1, deadline) && StoppedAndReleased(seen.value, target) then (true, h1)
    else if !TimerFires(h1, deadline, t) then (false, h1)
    else AwaitStopped(h1.(clock := h1.clock + Interval(t)), target, deadline, t)
  }

  /** `waitForRecoveryProof`. */
  ghost function AwaitRestarted(h: Host, target: Identity, deadline: nat, t: Timing): (bool, Host)
    decreases if h.clock < deadline then deadline - h.clock else 0
  {
    if Expired(h, deadline) then (false, h)
    else
      var seen := Observation(h);
      var h1 := AfterObservation(h);
      if seen.Some? && !Expired(h1, deadline) && Restarted(seen.value, target) then (true, h1)
      else if !TimerFires(h1, deadline, t) then (false, h1)
      else AwaitRestarted(h1.(clock := h1.clock + Interval(t)), target, deadline, t)
  }

  // -------------------------------------------------------------- quiesce

  ghost function Correlated(s: Snapshot): Result<seq<Identity>, CorrelationError> {
    Correlation(s.records, s.sockets, s.proc)
  }

  function StopEvidence(target: Identity, verified: bool): Evidence {
    Evidence(target.pmid, target.pid, target.port, target.startTicks, true, verified)
  }

  /** The stop loop and the final proof of `Quiesce`. */
  ghost function StopEach(h: Host, pending: seq<Identity>, stopped: Quiescence, t: Timing): (Quiescence, QuiesceCode, Host)
    decreases |pending|
  {
    if pending == [] then
      var final := Observation(h);
      var h1 := AfterObservation(h);
      if final.None? || !AllStoppedAndReleased(final.value, stopped.processes) then (stopped, FinalStateUnproven, h1)
      else (stopped, Quiesced, h1)
    else
      var current := Observation(h);
      var h1 := AfterObservation(h);
      if current.None? then (stopped, ObservationUnavailable, h1)
      else if Correlated(current.value) != Ok(pending) then (stopped, StateChanged, h1)
      else
        var (ok, h2) := Stop(h1, pending[0]);
        if !ok then (stopped, StopFailed, h2)
        else
          var (proven, h3) := AwaitStopped(h2, pending[0], h2.clock + Timeout(t), t);
          if !proven then
            (stopped.(evidence := stopped.evidence + [StopEvidence(pending[0], false)]), StopUnproven, h3)
          else
            StopEach(h3, pending[1..], stopped.(evidence := stopped.evidence + [StopEvidence(pending[0], true)]), t)
  }

  const NOTHING := Quiescence([], [], false)

  /** A whole `Quiesce` call. */
  ghost function Quiesce(h: Host, t: Timing): (Quiescence, QuiesceCode, Host) {
    var initial := Observation(h);
    var h1 := AfterObservation(h);
    if initial.None? then (NOTHING, ObservationUnavailable, h1)
    else if Correlated(initial.value).Err? then (NOTHING, CorrelationFailed, h1)
    else
      var pending := Correlated(initial.value).value;
      var stopped := Quiescence(pending, [], false);
      if pending != [] then StopEach(h1, pending, stopped, t)
      else
        var final := Observation(h1);
        var h2 := AfterObservation(h1);
        if final.None? then (stopped, ObservationUnavailable, h2)
        else if Correlated(final.value) != Ok([]) then (stopped, FinalStateUnproven, h2)
        else (stopped.(noopVerified := true), Quiesced, h2)
  }

  // -------------------------------------------------------------- recover

  predicate RecoverableIdentity(id: Identity) {
    && id.pmid >= 0 && id.pid > 0 && id.port != 0 && id.startTicks != 0
    && id.cwd != "" && id.execPath != "" && id.runtimeExecPath != ""
  }

  predicate EvidenceMatches(e: Evidence, id: Identity) {
    && e.pmid == id.pmid && e.originalPid == id.pid && e.port == id.port && e.startTicks == id.startTicks
    && (e.stopCommandSucceeded || e.stopVerified)
  }

  ghost predicate Acknowledged(q: Quiescence, targets: seq<Identity>) {
    && (forall p :: p in q.processes ==> RecoverableIdentity(p))
    && DistinctPmids(q.processes)
    && targets != []
    && |targets| == |q.evidence|
    && DistinctPmids(targets)
    && (forall i :: 0 <= i < |targets| ==> targets[i] in q.processes && EvidenceMatches(q.evidence[i], targets[i]))
  }

  lemma AcknowledgedEvidence(q: Quiescence, targets: seq<Identity>, i: nat)
    requires Acknowledged(q, targets) && i < |q.evidence|
    ensures exists p :: p in q.processes && EvidenceMatches(q.evidence[i], p)
    ensures forall k :: 0 <= k < i ==> q.evidence[k].pmid != q.evidence[i].pmid
  {
    assert EvidenceMatches(q.evidence[i], targets[i]) && targets[i] in q.processes;
    forall k | 0 <= k < i ensures q.evidence[k].pmid != q.evidence[i].pmid {
      assert EvidenceMatches(q.evidence[k], targets[k]);
    }
  }

  /** `acknowledgedRecoveryTargets`: the identities to restart, in stop order. */
  method AcknowledgedRecoveryTargets(q: Quiescence) returns (result: Option<seq<Identity>>)
    ensures result.Some? <==> exists targets :: Acknowledged(q, targets)
    ensures result.Some? ==> Acknowledged(q, result.value)
  {
    var byId: map<int, Identity> := map[];
    for i := 0 to |q.processes|
      invariant forall p :: p in q.processes[..i] ==> RecoverableIdentity(p)
      invariant DistinctPmids(q.processes[..i])
      invariant forall p :: p in q.processes[..i] ==> p.pmid in byId && byId[p.pmid] == p
      invariant forall id :: id in byId ==> byId[id] in q.processes[..i] && byId[id].pmid == id
    {
      var identity := q.processes[i];
      assert q.processes[..i + 1] == q.processes[..i] + [identity];
      assert identity in q.processes;
      if !RecoverableIdentity(identity) {
        return None;
      }
      if identity.pmid in byId {
        var k :| 0 <= k < i && q.processes[k] == byId[identity.pmid];
        assert !DistinctPmids(q.processes);
        return None;
      }
      byId := byId[identity.pmid := identity];
    }
    assert q.processes[..|q.processes|] == q.processes;
    var targets: seq<Identity> := [];
    var seen: set<int> := {};
    for i := 0 to |q.evidence|
      invariant |targets| == i
      invariant forall k :: 0 <= k < i ==> targets[k] in q.processes && EvidenceMatches(q.evidence[k], targets[k])
      invariant DistinctPmids(targets)
      invariant forall id :: id in seen <==> exists k :: 0 <= k < i && targets[k].pmid == id
    {
      var evidence := q.evidence[i];
      if evidence.pmid !in byId || !EvidenceMatches(evidence, byId[evidence.pmid]) || evidence.pmid in seen {
        forall other: seq<Identity> | Acknowledged(q, other) ensures false {
          AcknowledgedEvidence(q, other, i);
        }
        return None;
      }
      seen := seen + {evidence.pmid};
      targets := targets + [byId[evidence.pmid]];
    }
    if |targets| == 0 {
      return None;
    }
    assert Acknowledged(q, targets);
    return Some(targets);
  }

  /** The acknowledged targets are unique, so they are a function of the quiescence. */
  lemma AcknowledgedIsUnique(q: Quiescence, a: seq<Identity>, b: seq<Identity>)
    requires Acknowledged(q, a) && Acknowledged(q, b)
    ensures a == b
  {
    forall i | 0 <= i < |a| ensures a[i] == b[i] {
      var k :| 0 <= k < |q.processes| && q.processes[k] == a[i];
      var l :| 0 <= l < |q.processes| && q.processes[l] == b[i];
      assert EvidenceMatches(q.evidence[i], a[i]) && EvidenceMatches(q.evidence[i], b[i]);
      assert k == l;
    }
  }

  ghost function Targets(q: Quiescence): Option<seq<Identity>> {
    if exists targets :: Acknowledged(q, targets)
    then var targets :| Acknowledged(q, targets); Some(targets)
    else None
  }

  /** The recovery loop: `todo` is restarted from its last element to its first. */
  ghost function StartEach(h: Host, todo: seq<Identity>, r: Recovery, t: Timing): (Recovery, Host)
    decreases |todo|
  {
    if todo == [] then (r.(verified := true, code := RecoveryVerified), h)
    else
      var target := Last(todo);
      var before := Observation(h);
      var h1 := AfterObservation(h);
      if before.None? || !ReadyToStart(before.value, target) then (r, h1)
      else
        var (ok, h2) := Start(h1, target);
        var attempted := r.(attempted := r.attempted + 1);
        if !ok then (attempted, h2)
        else
          var (proven, h3) := AwaitRestarted(h2, target, h2.clock + Timeout(t), t);
          if !proven then (attempted, h3)
          else StartEach(h3, Front(todo), attempted.(recovered := attempted.recovered + 1), t)
  }

  /** A whole `Recover` call. */
  ghost function Recover(h: Host, q: Quiescence, t: Timing): (Recovery, Host) {
    if q.noopVerified && q.processes == [] && q.evidence == [] then (Recovery(0, 0, true, RecoveryVerified), h)
    else if Targets(q).None? then (Recovery(0, 0, false, RecoveryInvalid), h)
    else StartEach(h, Targets(q).value, Recovery(0, 0, false, RecoveryUnproven), t)
  }
}
