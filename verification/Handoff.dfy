/** Handing a legacy deployment over: revalidate the backup, quiesce PM2, stop or
    remove the database container, and hold a single-use lease that either keeps the
    stop or undoes it (internal/migration/handoff.go and disposition.go).

    PM2 is the quiescer of `Pm2Quiescence`; the container obeys `oracle` the way the
    PM2 host obeys its own. */
module Handoff {
  import opened Basics
  import opened Pm2Correlation
  import opened Pm2Quiescence
  import opened Pm2Safety

  datatype Disposition = StopContainer | RemoveContainer

  datatype ContainerState = Running | Halted | Removed

  /** What a successful or failed `Apply` reports. */
  datatype Applied = NotStopped | StoppedCode | RemovedCode

  datatype Event =
    | Revalidated(ok: bool)
    | QuiesceRan(q: Quiescence, code: QuiesceCode)
    | RecoverRan(q: Quiescence, verified: bool)
    | DockerStop(ok: bool)
    | DockerRemove(ok: bool)
    | DockerStart(ok: bool)
    | DockerInspect(running: bool)

  datatype DockerReply = DockerReply(ok: bool, tookEffect: bool, took: nat, recoveryEnd: Option<nat>)

  datatype Site = Site(host: Host, container: ContainerState, oracle: nat -> DockerReply, calls: nat, trace: seq<Event>)

  type Context = Option<nat>

  predicate Ended(ctx: Context, s: Site) {
    ctx.Some? && s.host.clock >= ctx.value
  }

  /** One call: it takes time and is recorded. */
  function Called(s: Site, e: Event): (s': Site)
    ensures s'.trace == s.trace + [e] && s'.container == s.container && s'.host.commands == s.host.commands
  {
    s.(host := s.host.(clock := s.host.clock + s.oracle(s.calls).took), calls := s.calls + 1, trace := s.trace + [e])
  }

  function Revalidate(s: Site): (bool, Site) {
    var ok := s.oracle(s.calls).ok;
    (ok, Called(s, Revalidated(ok)))
  }

  const RECOVERY_TIMEOUT: nat := 10_000

  /** `recoveryContext`: at most ten seconds, whatever the caller's context. */
  function RecoveryContext(s: Site): (ctx: Context)
    ensures ctx.Some? && ctx.value <= s.host.clock + RECOVERY_TIMEOUT
  {
    var end := s.oracle(s.calls).recoveryEnd;
    if end.Some? && end.value < s.host.clock + RECOVERY_TIMEOUT then end else Some(s.host.clock + RECOVERY_TIMEOUT)
  }

  ghost function QuiescePm2(s: Site, ctx: Context, t: Timing): (r: (Quiescence, QuiesceCode, Site))
    ensures r.2.trace == s.trace + [QuiesceRan(r.0, r.1)] && r.2.container == s.container
  {
    var (q, code, h) := Quiesce(s.host.(cancelAt := ctx), t);
    (q, code, s.(host := h, calls := s.calls + 1, trace := s.trace + [QuiesceRan(q, code)]))
  }

  ghost function RecoverPm2(s: Site, q: Quiescence, t: Timing): (r: (Recovery, Site))
    ensures r.1.trace == s.trace + [RecoverRan(q, r.0.verified)] && r.1.container == s.container
  {
    var (r, h) := Recover(s.host.(cancelAt := RecoveryContext(s)), q, t);
    (r, s.(host := h, calls := s.calls + 1, trace := s.trace + [RecoverRan(q, r.verified)]))
  }

  // ------------------------------------------------------------- container

  function StopIt(s: Site): (r: (bool, Site))
    ensures r.1.trace == s.trace + [DockerStop(r.0)] && (r.0 && s.container.Running? ==> r.1.container.Halted?)
  {
    var reply := s.oracle(s.calls);
    var ok := reply.ok && !s.container.Removed?;
    (ok, Called(s, DockerStop(ok)).(container := if s.container.Running? && (ok || reply.tookEffect) then Halted else s.container))
  }

  function RemoveIt(s: Site): (r: (bool, Site))
    ensures r.1.trace == s.trace + [DockerRemove(r.0)] && (r.0 ==> r.1.container.Removed?)
  {
    var reply := s.oracle(s.calls);
    var ok := reply.ok && !s.container.Removed?;
    (ok, Called(s, DockerRemove(ok)).(container := if ok || reply.tookEffect then Removed else s.container))
  }

  function StartIt(s: Site): (r: (bool, Site))
    ensures r.1.trace == s.trace + [DockerStart(r.0)] && (r.0 ==> r.1.container.Running?)
  {
    var reply := s.oracle(s.calls);
    var ok := reply.ok && !s.container.Removed?;
    (ok, Called(s, DockerStart(ok)).(container := if s.container.Halted? && (ok || reply.tookEffect) then Running else s.container))
  }

  /** `docker inspect` of the running state: the answer is true. */
  function InspectIt(s: Site): (r: (bool, Site))
    ensures r.1.trace == s.trace + [DockerInspect(r.0)] && r.1.container == s.container
    ensures r.0 ==> s.container.Running?
  {
    var running := s.oracle(s.calls).ok && s.container.Running?;
    (running, Called(s, DockerInspect(running)))
  }

  /** `DockerLegacyContainerController.Apply`: the reported code, and whether it
      succeeded. */
  function Apply(s: Site, d: Disposition): (Applied, bool, Site) {
    var (stopped, s1) := StopIt(s);
    if !stopped then (NotStopped, false, s1)
    else if d.StopContainer? then (StoppedCode, true, s1)
    else
      var (removed, s2) := RemoveIt(s1);
      (if removed then RemovedCode else StoppedCode, removed, s2)
  }

  /** `DockerLegacyContainerController.Recover`: whether the restart is verified. A
      removed container is left to the operator. */
  function RecoverContainer(s: Site, d: Disposition): (bool, Site) {
    if d.RemoveContainer? then (false, s)
    else
      var (started, s1) := StartIt(s);
      if !started then (false, s1) else InspectIt(s1)
  }

  // ----------------------------------------------------------------- begin

  /** `completeQuiescence`. */
  predicate CompleteQuiescence(q: Quiescence) {
    if q.noopVerified then q.processes == [] && q.evidence == []
    else
      && q.processes != [] && |q.processes| == |q.evidence|
      && forall i :: 0 <= i < |q.evidence| ==> Confirms(q.evidence[i], q.processes[i])
  }

  predicate Confirms(e: Evidence, id: Identity) {
    e.stopVerified && e.pmid == id.pmid && e.originalPid == id.pid && e.port == id.port && e.startTicks == id.startTicks
  }

  datatype Lease = Lease(quiescence: Quiescence, disposition: Disposition, pm2Only: bool)

  datatype BeginError = Unavailable | BackupInvalid | RecoveryFailed | QuiescenceIncomplete | DispositionFailed

  datatype Begun = Begun(lease: Option<Lease>, error: Option<BeginError>)

  /** The exits of `Begin` once PM2 was quiesced incompletely. */
  ghost function GiveBack(s: Site, q: Quiescence, t: Timing): (Begun, Site) {
    if q.evidence == [] then (Begun(None, Some(QuiescenceIncomplete)), s)
    else
      var (r, s1) := RecoverPm2(s, q, t);
      if !r.verified then (Begun(Some(Lease(q, StopContainer, true)), Some(RecoveryFailed)), s1)
      else (Begun(None, Some(QuiescenceIncomplete)), s1)
  }

  /** The container commands of `Begin`: whether they fail it. */
  function Disposal(s: Site, ctx: Context, d: Disposition): (bool, Site) {
    var (code, ok, s1) := Apply(s, d);
    if ok && !Ended(ctx, s1) then (false, s1)
    else (true, if d.RemoveContainer? && code.StoppedCode? then RecoverContainer(s1, StopContainer).1 else s1)
  }

  /** The part of `Begin` after a complete quiescence. */
  ghost function Dispose(s: Site, ctx: Context, d: Disposition, q: Quiescence, t: Timing): (Begun, Site) {
    var (failed, s1) := Disposal(s, ctx, d);
    if !failed then (Begun(Some(Lease(q, d, false)), None), s1)
    else (Begun(None, Some(DispositionFailed)), RecoverPm2(s1, q, t).1)
  }

  /** `PreInstallMigrationCoordinator.Begin`; `ready` is its check of the wiring and
      of the container id. */
  ghost function Begin(s: Site, ctx: Context, ready: bool, d: Disposition, t: Timing): (Begun, Site) {
    if !ready || Ended(ctx, s) then (Begun(None, Some(Unavailable)), s)
    else
      var (valid, s1) := Revalidate(s);
      if !valid || Ended(ctx, s1) then (Begun(None, Some(BackupInvalid)), s1)
      else
        var (q, code, s2) := QuiescePm2(s1, ctx, t);
        if !code.Quiesced? || Ended(ctx, s2) || !CompleteQuiescence(q) then GiveBack(s2, q, t)
        else Dispose(s2, ctx, d, q, t)
  }

  // ------------------------------------------------------------ completion

  datatype CompletionCode = Pm2(code: RecoveryCode) | ManualRecovery | ContainerUnproven

  datatype Completion = Completion(recovery: Recovery, code: CompletionCode, failed: bool)

  /** `CompleteFailure` by the one caller that consumes the lease. */
  ghost function Undo(s: Site, lease: Lease, t: Timing): (Completion, Site) {
    var (verified, s1) := if lease.pm2Only then (true, s) else RecoverContainer(s, lease.disposition);
    var (r, s2) := RecoverPm2(s1, lease.quiescence, t);
    var code := if !lease.pm2Only && lease.disposition.RemoveContainer? then ManualRecovery
                else if !verified then ContainerUnproven
                else Pm2(r.code);
    (Completion(r, code, !r.verified || (!verified && !lease.disposition.RemoveContainer?)), s2)
  }

  datatype Ending = Success | Failure

  /** Any number of completions of one lease, one after the other. */
  ghost function Complete(s: Site, lease: Lease, consumed: bool, endings: seq<Ending>, t: Timing): Site
    decreases |endings|
  {
    if endings == [] then s
    else
      var s1 := if endings[0].Failure? && !consumed then Undo(s, lease, t).1 else s;
      Complete(s1, lease, true, endings[1..], t)
  }

  // -------------------------------------------------------------- theorems

  function Recoveries(trace: seq<Event>): nat {
    if trace == [] then 0 else Recoveries(Front(trace)) + if Last(trace).RecoverRan? then 1 else 0
  }

  predicate IsDocker(e: Event) {
    e.DockerStop? || e.DockerRemove? || e.DockerStart? || e.DockerInspect?
  }

  /** A quiesce that reports success is complete, whatever the outside world did, so
      `Begin`'s own completeness check never rejects one. */
  lemma SuccessIsComplete(h: Host, t: Timing)
    ensures var (q, code, _) := Quiesce(h, t);
            code.Quiesced? ==> CompleteQuiescence(q)
  {
    hide Quiesce;
    QuiesceSafety(h, t);
  }

  /** What the recovery of a stopped set needs is always there: evidence left by any
      quiesce names targets to restart, in stop order. */
  lemma EvidenceCanBeRecovered(s: Site, ctx: Context, t: Timing)
    requires QuiescePm2(s, ctx, t).0.evidence != []
    ensures var q := QuiescePm2(s, ctx, t).0;
            |q.evidence| <= |q.processes| && Targets(q) == Some(q.processes[..|q.evidence|])
  {
    hide Quiesce;
    EvidenceIsRecoverable(s.host.(cancelAt := ctx), t);
  }

  /** The events `Begin` added. */
  function Added(s: Site, s': Site): seq<Event> {
    if |s.trace| <= |s'.trace| then s'.trace[|s.trace|..] else []
  }

  predicate TouchedContainer(added: seq<Event>) {
    exists i :: 0 <= i < |added| && IsDocker(added[i])
  }

  /** The quiescence recorded by a `Begin` that got that far. */
  predicate Quiescing(added: seq<Event>) {
    |added| >= 2 && added[0] == Revalidated(true) && added[1].QuiesceRan?
  }

  lemma RecoveriesOfTail(head: seq<Event>, e: Event)
    ensures Recoveries(head + [e]) == Recoveries(head) + if e.RecoverRan? then 1 else 0
  {
    assert Front(head + [e]) == head;
  }

  /** What the container part of `Begin` adds, command by command. */
  ghost predicate ContainerRun(d: Disposition, docker: seq<Event>, failed: bool) {
    || (failed && docker == [DockerStop(false)])
    || (d.StopContainer? && docker == [DockerStop(true)])
    || (d.RemoveContainer? && docker == [DockerStop(true), DockerRemove(true)])
    || (d.RemoveContainer? && failed && docker == [DockerStop(true), DockerRemove(false), DockerStart(false)])
    || (d.RemoveContainer? && failed && |docker| == 4 && docker[3].DockerInspect? &&
        docker[..3] == [DockerStop(true), DockerRemove(false), DockerStart(true)])
  }

  lemma DisposalRun(s: Site, ctx: Context, d: Disposition) returns (docker: seq<Event>)
    ensures var (failed, s') := Disposal(s, ctx, d);
            && s'.trace == s.trace + docker && ContainerRun(d, docker, failed)
            && (s.container.Running? && docker == [DockerStop(true)] ==> s'.container.Halted?)
            && (DockerRemove(true) in docker ==> s'.container.Removed?)
            && (DockerInspect(true) in docker ==> s'.container.Running?)
    ensures docker != [] && forall i :: 0 <= i < |docker| ==> IsDocker(docker[i])
  {
    hide Called;
    var (stopped, s1) := StopIt(s);
    var (removed, s2) := RemoveIt(s1);
    var (started, s3) := StartIt(s2);
    var (running, s4) := InspectIt(s3);
    if !stopped {
      docker := [DockerStop(false)];
    } else if d.StopContainer? {
      docker := [DockerStop(true)];
    } else if removed {
      docker := [DockerStop(true), DockerRemove(true)];
    } else if !started {
      docker := [DockerStop(true), DockerRemove(false), DockerStart(false)];
    } else {
      docker := [DockerStop(true), DockerRemove(false), DockerStart(true), DockerInspect(running)];
    }
  }

  lemma DisposeRun(s: Site, ctx: Context, d: Disposition, q: Quiescence, t: Timing) returns (docker: seq<Event>)
    ensures var (b, s') := Dispose(s, ctx, d, q, t);
            && ContainerRun(d, docker, b.error.Some?)
            && (b.error.None? ==> b.lease == Some(Lease(q, d, false)) && s'.trace == s.trace + docker)
            && (b.error.Some? ==> b == Begun(None, Some(DispositionFailed)) &&
                                  exists verified :: s'.trace == s.trace + docker + [RecoverRan(q, verified)])
            && (s.container.Running? && docker == [DockerStop(true)] ==> s'.container.Halted?)
            && (DockerRemove(true) in docker ==> s'.container.Removed?)
            && (DockerInspect(true) in docker ==> s'.container.Running?)
    ensures docker != [] && forall i :: 0 <= i < |docker| ==> IsDocker(docker[i])
  {
    hide Recover, Called, Disposal, ContainerRun;
    docker := DisposalRun(s, ctx, d);
    var (failed, s1) := Disposal(s, ctx, d);
    if failed {
      var (r, s2) := RecoverPm2(s1, q, t);
      assert s2.trace == s.trace + docker + [RecoverRan(q, r.verified)];
    }
  }

  /** The shape of every `Begin`. No PM2 command precedes a valid backup; the
      container is touched only after a complete quiescence; recovery is the last
      thing a failing run does, it is run at most once and with the very evidence of
      that quiescence, and it is run whenever there is evidence or the container was
      touched; a run that succeeds recovers nothing and hands out a complete lease. */
  ghost predicate BeginRun(b: Begun, added: seq<Event>) {
    && (TouchedContainer(added) ==> Quiescing(added) && added[1].code.Quiesced? && CompleteQuiescence(added[1].q))
    && (b.error.None? ==>
          && Quiescing(added) && added[1].code.Quiesced? && CompleteQuiescence(added[1].q)
          && b.lease.Some? && b.lease.value.quiescence == added[1].q && !b.lease.value.pm2Only
          && Recoveries(added) == 0)
    && (b.error.Some? ==>
          if Quiescing(added) && (added[1].q.evidence != [] || TouchedContainer(added))
          then Recoveries(added) == 1 && Last(added).RecoverRan? && Last(added).q == added[1].q
          else Recoveries(added) == 0 && b.lease.None?)
  }

  /** An unverified recovery leaves a lease to retry exactly when the container was
      never touched; on the disposition path it leaves none. */
  ghost predicate RetryLease(b: Begun, added: seq<Event>) {
    && (b.error.Some? && b.lease.Some? ==>
          b.lease.value.pm2Only && Quiescing(added) && b.lease.value.quiescence == added[1].q && added[1].q.evidence != [])
    && (b.error.Some? && added != [] && Last(added).RecoverRan? ==>
          (b.lease.Some? <==> !Last(added).verified && !TouchedContainer(added)))
  }

  lemma GiveBackRun(s: Site, before: Site, q: Quiescence, code: QuiesceCode, t: Timing)
    requires before.trace <= s.trace && Added(before, s) == [Revalidated(true), QuiesceRan(q, code)]
    ensures var (b, s') := GiveBack(s, q, t);
            && before.trace <= s'.trace
            && BeginRun(b, Added(before, s')) && RetryLease(b, Added(before, s'))
            && Quiescing(Added(before, s')) && !TouchedContainer(Added(before, s'))
  {
    hide Recover, Called;
    var head := Added(before, s);
    RecoveriesOfTail([], Revalidated(true));
    RecoveriesOfTail([Revalidated(true)], QuiesceRan(q, code));
    assert [] + [Revalidated(true)] == [Revalidated(true)];
    assert [Revalidated(true)] + [QuiesceRan(q, code)] == head;
    if q.evidence != [] {
      var (r, s1) := RecoverPm2(s, q, t);
      RecoveriesOfTail(head, RecoverRan(q, r.verified));
      assert Added(before, s1) == head + [RecoverRan(q, r.verified)];
    }
  }

  lemma {:induction false} RecoveriesOfDocker(head: seq<Event>, docker: seq<Event>)
    requires forall i :: 0 <= i < |docker| ==> IsDocker(docker[i])
    ensures Recoveries(head + docker) == Recoveries(head)
  {
    if docker == [] {
      assert head + docker == head;
    } else {
      RecoveriesOfDocker(head, Front(docker));
      assert Front(head + docker) == head + Front(docker);
    }
  }

  lemma DisposeIsBegin(s: Site, before: Site, ctx: Context, d: Disposition, q: Quiescence, t: Timing)
    requires before.trace <= s.trace && Added(before, s) == [Revalidated(true), QuiesceRan(q, QuiesceCode.Quiesced)]
    requires CompleteQuiescence(q)
    ensures var (b, s') := Dispose(s, ctx, d, q, t);
            && before.trace <= s'.trace
            && BeginRun(b, Added(before, s')) && RetryLease(b, Added(before, s'))
            && Quiescing(Added(before, s')) && TouchedContainer(Added(before, s'))
  {
    hide Recover, Called, Apply, RecoverContainer, Dispose, ContainerRun;
    var head := Added(before, s);
    var docker := DisposeRun(s, ctx, d, q, t);
    var (b, s') := Dispose(s, ctx, d, q, t);
    RecoveriesOfTail([], Revalidated(true));
    RecoveriesOfTail([Revalidated(true)], QuiesceRan(q, QuiesceCode.Quiesced));
    assert [] + [Revalidated(true)] == [Revalidated(true)];
    assert [Revalidated(true)] + [QuiesceRan(q, QuiesceCode.Quiesced)] == head;
    RecoveriesOfDocker(head, docker);
    assert (head + docker)[2] == docker[0];
    if b.error.Some? {
      var verified :| s'.trace == s.trace + docker + [RecoverRan(q, verified)];
      RecoveriesOfTail(head + docker, RecoverRan(q, verified));
      assert Added(before, s') == head + docker + [RecoverRan(q, verified)];
      assert Added(before, s')[2] == docker[0];
    } else {
      assert Added(before, s') == head + docker;
    }
  }

  lemma EarlyExit(s: Site, ctx: Context, ready: bool, d: Disposition, t: Timing)
    requires !ready || Ended(ctx, s) || !Revalidate(s).0 || Ended(ctx, Revalidate(s).1)
    ensures var (b, s') := Begin(s, ctx, ready, d, t);
            && s.trace <= s'.trace
            && BeginRun(b, Added(s, s')) && RetryLease(b, Added(s, s'))
            && s'.host.commands == s.host.commands
  {
    var added := Added(s, Begin(s, ctx, ready, d, t).1);
    assert added == [] || added == [Revalidated(Revalidate(s).0)];
    assert Recoveries(added) == 0;
  }

  lemma BeginKeepsOrder(s: Site, ctx: Context, ready: bool, d: Disposition, t: Timing)
    ensures var (b, s') := Begin(s, ctx, ready, d, t);
            && s.trace <= s'.trace
            && BeginRun(b, Added(s, s')) && RetryLease(b, Added(s, s'))
            && (s'.host.commands != s.host.commands ==> Quiescing(Added(s, s')))
  {
    hide Quiesce, Called, GiveBack, Dispose, CompleteQuiescence, BeginRun, RetryLease, TouchedContainer, Quiescing;
    var (valid, s1) := Revalidate(s);
    if !ready || Ended(ctx, s) || !valid || Ended(ctx, s1) {
      EarlyExit(s, ctx, ready, d, t);
    } else {
      var (q, code, s2) := QuiescePm2(s1, ctx, t);
      assert Added(s, s2) == [Revalidated(true), QuiesceRan(q, code)];
      if !code.Quiesced? || Ended(ctx, s2) || !CompleteQuiescence(q) {
        GiveBackRun(s2, s, q, code, t);
      } else {
        DisposeIsBegin(s2, s, ctx, d, q, t);
      }
    }
  }

  /** What a failed disposition leaves of a container that ran. A restart is tried
      exactly when a removal failed after its stop; a container that was only to be
      stopped, and was, stays halted; an inspected restart leaves it running. */
  lemma FailedDispositionLeaves(s: Site, ctx: Context, d: Disposition, q: Quiescence, t: Timing)
    requires s.container.Running?
    ensures var (b, s') := Dispose(s, ctx, d, q, t);
            var added := Added(s, s');
            b.error.Some? ==>
              && ((exists i :: 0 <= i < |added| && added[i].DockerStart?) <==> DockerRemove(false) in added)
              && (d.StopContainer? && DockerStop(true) in added ==> s'.container.Halted?)
              && (DockerInspect(true) in added ==> s'.container.Running?)
              && (DockerRemove(true) in added ==> s'.container.Removed?)
  {
    hide Dispose, Called;
    var docker := DisposeRun(s, ctx, d, q, t);
    var (b, s') := Dispose(s, ctx, d, q, t);
    if b.error.Some? {
      var verified :| s'.trace == s.trace + docker + [RecoverRan(q, verified)];
      var added := Added(s, s');
      assert added == docker + [RecoverRan(q, verified)];
      assert forall e: Event :: e in added <==> e in docker || e == RecoverRan(q, verified);
      if |docker| >= 3 {
        assert docker[..3][1] == docker[1] && docker[..3][2] == docker[2];
        assert added[2].DockerStart? && added[1] == DockerRemove(false);
      }
    }
  }

  // ----------------------------------------------------------- completions

  lemma VerifiedCode(h: Host, q: Quiescence, t: Timing)
    ensures var (r, _) := Recover(h, q, t); r.verified <==> r.code == RecoveryVerified
  {
    hide StartEach;
    if Targets(q).Some? && !(q.noopVerified && q.processes == [] && q.evidence == []) {
      RecoverSafety(h, q, t);
    }
  }

  /** `CompleteFailure` reports a verified recovery exactly when PM2 was recovered and
      no container had to be, or the stopped container was seen running again. */
  lemma UndoMeans(s: Site, lease: Lease, t: Timing)
    ensures var (c, s') := Undo(s, lease, t);
            var added := Added(s, s');
            && s.trace <= s'.trace
            && (c.code == Pm2(RecoveryVerified) <==>
                  RecoverRan(lease.quiescence, true) in added && (lease.pm2Only || DockerInspect(true) in added))
            && (DockerInspect(true) in added ==> s'.container.Running?)
            && (c.code == ManualRecovery <==> !lease.pm2Only && lease.disposition.RemoveContainer?)
            && Recoveries(s'.trace) == Recoveries(s.trace) + 1
            && (lease.pm2Only ==> |added| == 1)
  {
    hide Recover, Called, RecoverContainer, RecoveryContext, Recoveries;
    var docker := RestartRun(s, lease);
    var (verified, s1) := if lease.pm2Only then (true, s) else RecoverContainer(s, lease.disposition);
    VerifiedCode(s1.host.(cancelAt := RecoveryContext(s1)), lease.quiescence, t);
    var (r, s2) := RecoverPm2(s1, lease.quiescence, t);
    var last := RecoverRan(lease.quiescence, r.verified);
    RecoveriesOfDocker(s.trace, docker);
    RecoveriesOfTail(s1.trace, last);
    assert Added(s, s2) == docker + [last];
    assert forall e: Event :: e in docker + [last] <==> e in docker || e == last;
    assert RecoverRan(lease.quiescence, true) !in docker;
  }

  lemma RestartRun(s: Site, lease: Lease) returns (docker: seq<Event>)
    ensures var (verified, s1) := if lease.pm2Only then (true, s) else RecoverContainer(s, lease.disposition);
            && s1.trace == s.trace + docker
            && (verified <==> lease.pm2Only || DockerInspect(true) in docker)
            && (DockerInspect(true) in docker ==> s1.container.Running?)
            && (lease.pm2Only ==> docker == [])
            && (!lease.pm2Only && lease.disposition.RemoveContainer? ==> !verified)
    ensures forall i :: 0 <= i < |docker| ==> IsDocker(docker[i])
    ensures forall q, verified :: RecoverRan(q, verified) !in docker
  {
    hide Called;
    if lease.pm2Only || lease.disposition.RemoveContainer? {
      docker := [];
    } else {
      var (started, s1) := StartIt(s);
      var (running, s2) := InspectIt(s1);
      docker := if started then [DockerStart(true), DockerInspect(running)] else [DockerStart(false)];
    }
  }

  lemma {:induction false} ConsumedStays(s: Site, lease: Lease, endings: seq<Ending>, t: Timing)
    ensures Complete(s, lease, true, endings, t) == s
    decreases |endings|
  {
    if endings != [] {
      ConsumedStays(s, lease, endings[1..], t);
    }
  }

  /** Over any sequence of completions a lease triggers recovery at most once: exactly
      once when the first completion is a failure, and never once it succeeded. */
  lemma RecoveryAtMostOnce(s: Site, lease: Lease, endings: seq<Ending>, t: Timing)
    ensures var s' := Complete(s, lease, false, endings, t);
            if endings != [] && endings[0].Failure?
            then s' == Undo(s, lease, t).1 && Recoveries(s'.trace) == Recoveries(s.trace) + 1
            else s' == s
  {
    hide Undo;
    if endings != [] {
      UndoMeans(s, lease, t);
      ConsumedStays(if endings[0].Failure? then Undo(s, lease, t).1 else s, lease, endings[1..], t);
    }
  }
}
