/** The imperative quiescer (internal/installation/pm2_quiescence.go), proved to
    compute the runs `Pm2Quiescence` specifies. */
module Pm2Quiescer {
  import opened Basics
  import opened Paths
  import opened Pm2Correlation
  import opened Pm2Snapshot
  import opened Pm2Quiescence

  /** `stoppedAndReleased`. */
  method CheckStopped(s: Snapshot, targets: seq<Identity>) returns (proven: bool)
    ensures proven <==> AllStoppedAndReleased(s, targets)
  {
    for k := 0 to |targets|
      invariant AllStoppedAndReleased(s, targets[..k])
    {
      var target := targets[k];
      assert target in targets && targets[..k + 1] == targets[..k] + [target];
      var found := -1;
      for i := 0 to |s.records|
        invariant -1 <= found < i
        invariant found >= 0 ==> s.records[found].id == target.pmid && RecordStopped(s.records[found], target)
        invariant forall j :: 0 <= j < i && s.records[j].id == target.pmid ==> j == found
      {
        if s.records[i].id == target.pmid {
          if found >= 0 || !RecordStopped(s.records[i], target) {
            return false;
          }
          found := i;
        }
      }
      if found < 0 {
        return false;
      }
      for i := 0 to |s.sockets|
        invariant forall j :: 0 <= j < i ==> s.sockets[j].port != target.port
      {
        if s.sockets[i].port == target.port {
          assert s.sockets[i] in s.sockets;
          return false;
        }
      }
      assert StoppedAndReleased(s, target);
    }
    assert targets[..|targets|] == targets;
    return true;
  }

  /** `exactRecoveryRecord`: the index of the matching record, or -1. */
  method FindExactRecord(records: seq<Record>, target: Identity) returns (found: int)
    ensures found >= 0 ==> ExactRecord(records, target, found)
    ensures found < 0 ==> forall i :: !ExactRecord(records, target, i)
  {
    found := -1;
    for i := 0 to |records|
      invariant -1 <= found < i
      invariant found >= 0 ==>
                  && records[found].id == target.pmid && records[found].name == target.name
                  && SamePath(records[found].cwd, target.cwd) && SamePath(records[found].execPath, target.execPath)
      invariant forall j :: 0 <= j < i && records[j].id == target.pmid ==> j == found
    {
      if records[i].id != target.pmid {
        continue;
      }
      if found >= 0 || records[i].name != target.name
         || !SamePath(records[i].cwd, target.cwd) || !SamePath(records[i].execPath, target.execPath)
      {
        forall k ensures !ExactRecord(records, target, k) {
        }
        return -1;
      }
      found := i;
    }
  }

  /** The socket loop of `recoverySnapshotProves`: how many sockets hold the port, or
      none at all when another process holds it. */
  method CountOwners(sockets: seq<SocketOwner>, port: Port, pid: int) returns (owners: Option<nat>)
    ensures owners.None? <==> exists o :: o in sockets && o.port == port && o.pid != pid
    ensures owners.Some? ==>
              && (owners.value == 0 <==> forall o :: o in sockets ==> o.port != port)
              && (owners.value == 1 <==> OwnsAlone(sockets, port, pid))
  {
    var count := 0;
    ghost var first := -1;
    for i := 0 to |sockets|
      invariant forall j :: 0 <= j < i && sockets[j].port == port ==> sockets[j].pid == pid
      invariant -1 <= first < i
      invariant count == 0 <==> first == -1
      invariant first >= 0 ==> sockets[first] == SocketOwner(pid, port)
      invariant count <= 1 ==> forall j :: 0 <= j < i && sockets[j].port == port ==> j == first
      invariant count > 1 ==> exists j, k :: 0 <= j < k < i && sockets[j].port == port && sockets[k].port == port
    {
      if sockets[i].port == port {
        count := count + 1;
        if sockets[i].pid != pid {
          assert sockets[i] in sockets;
          return None;
        }
        if first == -1 { first := i; } else { assert sockets[first].port == port; }
      }
    }
    if first >= 0 { assert sockets[first] in sockets; }
    return Some(count);
  }

  /** `recoverySnapshotProves`. */
  method RecoverySnapshotProves(s: Snapshot, target: Identity, started: bool) returns (proven: bool)
    ensures proven <==> if started then Restarted(s, target) else ReadyToStart(s, target)
  {
    var at := FindExactRecord(s.records, target);
    if at < 0 {
      return false;
    }
    assert forall i :: ExactRecord(s.records, target, i) ==> i == at;
    var record := s.records[at];
    var owners := CountOwners(s.sockets, target.port, record.pid);
    if owners.None? {
      assert !OwnsAlone(s.sockets, target.port, record.pid);
      return false;
    }
    if !started {
      return record.status.Stopped? && owners.value == 0;
    }
    return record.status.Online? && record.pid > 0 && record.pid != target.pid && owners.value == 1
        && record.pid in s.proc
        && s.proc[record.pid].startTicks != 0 && s.proc[record.pid].startTicks != target.startTicks
        && s.proc[record.pid].cwd == target.cwd && s.proc[record.pid].execPath == target.runtimeExecPath;
  }

  class PM2Quiescer {
    var host: Host
    const timing: Timing

    constructor (host: Host, timing: Timing)
      ensures this.host == host && this.timing == timing
    {
      this.host := host;
      this.timing := timing;
    }

    method Observe() returns (s: Option<Snapshot>)
      modifies this
      ensures s == Observation(old(host)) && host == AfterObservation(old(host))
    {
      var reply := host.oracle(host.calls);
      match host.conduct {
        case Hostile => s := ProvideSnapshot(reply.records, reply.sockets, reply.proc, reply.live);
        case Truthful => s := ProvideSnapshot(Some(host.world.records), Some(host.world.sockets), host.world.proc, reply.live);
        case Prompt => s := ProvideSnapshot(Some(host.world.records), Some(host.world.sockets), host.world.proc, |host.world.records| + 3);
      }
      host := AfterSeeing(host, s);
    }

    method StopTarget(target: Identity) returns (ok: bool)
      modifies this
      ensures (ok, host) == Stop(old(host), target)
    {
      var (result, next) := Stop(host, target);
      ok, host := result, next;
    }

    method StartTarget(target: Identity) returns (ok: bool)
      modifies this
      ensures (ok, host) == Start(old(host), target)
    {
      var (result, next) := Start(host, target);
      ok, host := result, next;
    }

    method WaitForStoppedAndReleased(target: Identity) returns (proven: bool)
      modifies this
      ensures (proven, host) == AwaitStopped(old(host), target, old(host).clock + Timeout(timing), timing)
    {
      hide StoppedAndReleased, Observation, AfterObservation, Expired, TimerFires;
      var deadline := host.clock + Timeout(timing);
      while true
        invariant AwaitStopped(host, target, deadline, timing) == AwaitStopped(old(host), target, deadline, timing)
        decreases if host.clock < deadline then deadline - host.clock else 0
      {
        var after := Observe();
        if after.Some? && !Expired(host, deadline) {
          var released := CheckStopped(after.value, [target]);
          assert released <==> StoppedAndReleased(after.value, target);
          if released {
            return true;
          }
        }
        if !TimerFires(host, deadline, timing) {
          return false;
        }
        host := host.(clock := host.clock + Interval(timing));
      }
    }

    method WaitForRecoveryProof(target: Identity) returns (proven: bool)
      modifies this
      ensures (proven, host) == AwaitRestarted(old(host), target, old(host).clock + Timeout(timing), timing)
    {
      hide Restarted, Observation, AfterObservation, Expired, TimerFires;
      var deadline := host.clock + Timeout(timing);
      while true
        invariant AwaitRestarted(host, target, deadline, timing) == AwaitRestarted(old(host), target, deadline, timing)
        decreases if host.clock < deadline then deadline - host.clock else 0
      {
        if Expired(host, deadline) {
          return false;
        }
        var after := Observe();
        if after.Some? && !Expired(host, deadline) {
          var restarted := RecoverySnapshotProves(after.value, target, true);
          if restarted {
            return true;
          }
        }
        if !TimerFires(host, deadline, timing) {
          return false;
        }
        host := host.(clock := host.clock + Interval(timing));
      }
    }

    method QuiesceServices() returns (stopped: Quiescence, code: QuiesceCode)
      modifies this
      ensures (stopped, code, host) == Quiesce(old(host), timing)
    {
      hide Correlation, Observation, AfterObservation, AllStoppedAndReleased, Stop, AwaitStopped;
      var initial := Observe();
      if initial.None? {
        return NOTHING, ObservationUnavailable;
      }
      var correlated := CorrelatePM2(initial.value.records, initial.value.sockets, initial.value.proc);
      if correlated.Err? {
        return NOTHING, CorrelationFailed;
      }
      var pending := correlated.value;
      stopped := Quiescence(pending, [], false);
      if pending == [] {
        var final := Observe();
        if final.None? {
          return stopped, ObservationUnavailable;
        }
        var active := CorrelatePM2(final.value.records, final.value.sockets, final.value.proc);
        if active != Ok([]) {
          return stopped, FinalStateUnproven;
        }
        return stopped.(noopVerified := true), Quiesced;
      }
      while pending != []
        invariant StopEach(host, pending, stopped, timing) == Quiesce(old(host), timing)
        decreases |pending|
      {
        var current := Observe();
        if current.None? {
          return stopped, ObservationUnavailable;
        }
        var active := CorrelatePM2(current.value.records, current.value.sockets, current.value.proc);
        if active != Ok(pending) {
          return stopped, StateChanged;
        }
        var target := pending[0];
        var ok := StopTarget(target);
        if !ok {
          return stopped, StopFailed;
        }
        stopped := stopped.(evidence := stopped.evidence + [StopEvidence(target, false)]);
        var proven := WaitForStoppedAndReleased(target);
        if !proven {
          return stopped, StopUnproven;
        }
        var last := |stopped.evidence| - 1;
        stopped := stopped.(evidence := stopped.evidence[last := stopped.evidence[last].(stopVerified := true)]);
        assert stopped.evidence == Front(stopped.evidence) + [StopEvidence(target, true)];
        pending := pending[1..];
      }
      var final := Observe();
      if final.None? {
        return stopped, FinalStateUnproven;
      }
      var released := CheckStopped(final.value, stopped.processes);
      return stopped, if released then Quiesced else FinalStateUnproven;
    }

    method RecoverServices(stopped: Quiescence) returns (recovery: Recovery)
      modifies this
      ensures (recovery, host) == Recover(old(host), stopped, timing)
    {
      hide Acknowledged, Observation, AfterObservation, ReadyToStart, Start, AwaitRestarted;
      if stopped.noopVerified && |stopped.processes| == 0 && |stopped.evidence| == 0 {
        return Recovery(0, 0, true, RecoveryVerified);
      }
      var targets := AcknowledgedRecoveryTargets(stopped);
      if targets.None? {
        return Recovery(0, 0, false, RecoveryInvalid);
      }
      AcknowledgedIsUnique(stopped, targets.value, Targets(stopped).value);
      recovery := Recovery(0, 0, false, RecoveryUnproven);
      var index := |targets.value| - 1;
      assert targets.value[..index + 1] == targets.value;
      while index >= 0
        invariant -1 <= index < |targets.value|
        invariant StartEach(host, targets.value[..index + 1], recovery, timing) == Recover(old(host), stopped, timing)
      {
        var target := targets.value[index];
        assert Last(targets.value[..index + 1]) == target && Front(targets.value[..index + 1]) == targets.value[..index];
        var before := Observe();
        if before.None? {
          return recovery;
        }
        var ready := RecoverySnapshotProves(before.value, target, false);
        if !ready {
          return recovery;
        }
        recovery := recovery.(attempted := recovery.attempted + 1);
        var ok := StartTarget(target);
        if !ok {
          return recovery;
        }
        var proven := WaitForRecoveryProof(target);
        if !proven {
          return recovery;
        }
        recovery := recovery.(recovered := recovery.recovered + 1);
        index := index - 1;
      }
      return recovery.(verified := true, code := RecoveryVerified);
    }
  }
}
