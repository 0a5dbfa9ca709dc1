/** When a hand-over succeeds and what makes it fail (internal/migration/handoff.go,
    disposition.go): over the trace, over the answers of the outside world, and on an
    honest site. */
module HandoffProgress {
  import opened Basics
  import opened Pm2Correlation
  import opened Pm2Snapshot
  import opened Pm2Quiescence
  import opened Pm2Safety
  import opened Pm2World
  import opened Pm2RoundTrip
  import opened Handoff

  // ---------------------------------------------------------------- clocks

  lemma {:induction false} AwaitStoppedClock(h: Host, target: Identity, deadline: nat, t: Timing)
    ensures AwaitStopped(h, target, deadline, t).1.clock >= h.clock
    decreases if h.clock < deadline then deadline - h.clock else 0
  {
    hide StoppedAndReleased, Observation;
    var h1 := AfterObservation(h);
    if TimerFires(h1, deadline, t) {
      AwaitStoppedClock(h1.(clock := h1.clock + Interval(t)), target, deadline, t);
    }
  }

  lemma StopClock(h: Host, target: Identity)
    ensures Stop(h, target).1.clock >= h.clock
  {
  }

  lemma {:induction false} StopEachClock(h: Host, pending: seq<Identity>, stopped: Quiescence, t: Timing)
    ensures StopEach(h, pending, stopped, t).2.clock >= h.clock
    decreases |pending|
  {
    hide Observation, Correlated, Stop, AwaitStopped, AllStoppedAndReleased;
    if pending != [] {
      var h1 := AfterObservation(h);
      StopClock(h1, pending[0]);
      var (ok, h2) := Stop(h1, pending[0]);
      AwaitStoppedClock(h2, pending[0], h2.clock + Timeout(t), t);
      var (proven, h3) := AwaitStopped(h2, pending[0], h2.clock + Timeout(t), t);
      StopEachClock(h3, pending[1..], stopped.(evidence := stopped.evidence + [StopEvidence(pending[0], true)]), t);
    }
  }

  lemma QuiesceClock(h: Host, t: Timing)
    ensures Quiesce(h, t).2.clock >= h.clock
  {
    hide Observation, Correlated, StopEach;
    if Observation(h).Some? && Correlated(Observation(h).value).Ok? {
      var pending := Correlated(Observation(h).value).value;
      StopEachClock(AfterObservation(h), pending, Quiescence(pending, [], false), t);
    }
  }

  lemma {:induction false} AwaitRestartedClock(h: Host, target: Identity, deadline: nat, t: Timing)
    ensures AwaitRestarted(h, target, deadline, t).1.clock >= h.clock
    decreases if h.clock < deadline then deadline - h.clock else 0
  {
    hide Restarted, Observation;
    if !Expired(h, deadline) {
      var h1 := AfterObservation(h);
      if TimerFires(h1, deadline, t) {
        AwaitRestartedClock(h1.(clock := h1.clock + Interval(t)), target, deadline, t);
      }
    }
  }

  lemma StartClock(h: Host, target: Identity)
    ensures Start(h, target).1.clock >= h.clock
  {
  }

  lemma {:induction false} StartEachClock(h: Host, todo: seq<Identity>, r: Recovery, t: Timing)
    ensures StartEach(h, todo, r, t).1.clock >= h.clock
    decreases |todo|
  {
    hide Observation, Start, AwaitRestarted, ReadyToStart;
    if todo != [] {
      var target, h1 := Last(todo), AfterObservation(h);
      StartClock(h1, target);
      var (ok, h2) := Start(h1, target);
      var attempted := r.(attempted := r.attempted + 1);
      AwaitRestartedClock(h2, target, h2.clock + Timeout(t), t);
      var (proven, h3) := AwaitRestarted(h2, target, h2.clock + Timeout(t), t);
      StartEachClock(h3, Front(todo), attempted.(recovered := attempted.recovered + 1), t);
    }
  }

  lemma RecoverClock(h: Host, q: Quiescence, t: Timing)
    ensures Recover(h, q, t).1.clock >= h.clock
  {
    hide StartEach, Acknowledged;
    if Targets(q).Some? {
      StartEachClock(h, Targets(q).value, Recovery(0, 0, false, RecoveryUnproven), t);
    }
  }

  // ----------------------------------------------------------------- begin

  /** The step failed. A recovery is no step of `Begin` itself. */
  predicate Failed(e: Event) {
    || e == Revalidated(false) || (e.QuiesceRan? && !e.code.Quiesced?)
    || e == DockerStop(false) || e == DockerRemove(false)
  }

  predicate AnyFailed(added: seq<Event>) {
    exists i :: 0 <= i < |added| && Failed(added[i])
  }

  /** The steps of a hand-over that succeeds. */
  predicate HandedOver(d: Disposition, added: seq<Event>) {
    && |added| == (if d.RemoveContainer? then 4 else 3)
    && added[0] == Revalidated(true) && added[1].QuiesceRan? && added[1].code.Quiesced?
    && added[2] == DockerStop(true)
    && (d.RemoveContainer? ==> added[3] == DockerRemove(true))
  }

  /** The error of a run that does not succeed. */
  predicate Reports(error: BeginError, added: seq<Event>) {
    match error
    case Unavailable => added == []
    case BackupInvalid => |added| == 1 && added[0].Revalidated?
    case DispositionFailed => TouchedContainer(added)
    case RecoveryFailed => Quiescing(added) && !TouchedContainer(added) && |added| == 3 && added[2] == RecoverRan(added[1].q, false)
    case QuiescenceIncomplete =>
      && Quiescing(added) && !TouchedContainer(added)
      && added[2..] == if added[1].q.evidence == [] then [] else [RecoverRan(added[1].q, true)]
  }

  ghost predicate BeginTells(s: Site, ctx: Context, ready: bool, d: Disposition, b: Begun, s': Site) {
    var added := Added(s, s');
    && s.trace <= s'.trace && s'.host.clock >= s.host.clock
    && (added == [] <==> !ready || Ended(ctx, s))
    && (b.error.None? ==> HandedOver(d, added) && !AnyFailed(added) && !Ended(ctx, s'))
    && (b.error.Some? ==> Reports(b.error.value, added) && (!ready || AnyFailed(added) || Ended(ctx, s')))
  }

  lemma EndedLater(ctx: Context, s: Site, s': Site)
    requires s.host.clock <= s'.host.clock
    ensures Ended(ctx, s) ==> Ended(ctx, s')
  {
  }

  lemma DisposalTells(s: Site, ctx: Context, d: Disposition) returns (docker: seq<Event>)
    ensures var (failed, s') := Disposal(s, ctx, d);
            && s'.trace == s.trace + docker && docker != [] && s'.host.clock >= s.host.clock
            && (forall i :: 0 <= i < |docker| ==> IsDocker(docker[i]))
            && (!failed ==> !Ended(ctx, s') && docker == if d.RemoveContainer? then [DockerStop(true), DockerRemove(true)] else [DockerStop(true)])
            && (failed ==> AnyFailed(docker) || Ended(ctx, s'))
  {
    var (stopped, s1) := StopIt(s);
    var (removed, s2) := RemoveIt(s1);
    var (started, s3) := StartIt(s2);
    var (running, s4) := InspectIt(s3);
    if !stopped {
      docker := [DockerStop(false)];
      assert Failed(docker[0]);
    } else if d.StopContainer? {
      docker := [DockerStop(true)];
    } else if removed {
      docker := [DockerStop(true), DockerRemove(true)];
    } else {
      docker := [DockerStop(true), DockerRemove(false), DockerStart(started)] + if started then [DockerInspect(running)] else [];
      assert Failed(docker[1]);
    }
  }

  lemma PutsTogether(s: Site, s2: Site, q: Quiescence, code: QuiesceCode, rest: seq<Event>, s': Site)
    requires s2.trace == s.trace + [Revalidated(true), QuiesceRan(q, code)] && s'.trace == s2.trace + rest
    ensures s.trace <= s'.trace && Added(s, s') == [Revalidated(true), QuiesceRan(q, code)] + rest
    ensures Quiescing(Added(s, s')) && Added(s, s')[2..] == rest
    ensures TouchedContainer(Added(s, s')) <==> TouchedContainer(rest)
    ensures AnyFailed(Added(s, s')) <==> AnyFailed(rest) || !code.Quiesced?
  {
    hide TouchedContainer, AnyFailed;
    assert Added(s, s') == [Revalidated(true), QuiesceRan(q, code)] + rest;
    HeadAndRest(Revalidated(true), QuiesceRan(q, code), rest);
  }

  lemma HeadAndRest(a: Event, b: Event, rest: seq<Event>)
    requires !IsDocker(a) && !IsDocker(b)
    ensures TouchedContainer([a, b] + rest) <==> TouchedContainer(rest)
    ensures AnyFailed([a, b] + rest) <==> Failed(a) || Failed(b) || AnyFailed(rest)
  {
    hide Failed, IsDocker;
    var all := [a, b] + rest;
    assert all[0] == a && all[1] == b && forall i :: 0 <= i < |rest| ==> all[2 + i] == rest[i];
    if AnyFailed(rest) {
      var i :| 0 <= i < |rest| && Failed(rest[i]);
      assert Failed(all[2 + i]);
    }
    if TouchedContainer(rest) {
      var i :| 0 <= i < |rest| && IsDocker(rest[i]);
      assert IsDocker(all[2 + i]);
    }
  }

  lemma GiveBackTells(s: Site, ctx: Context, ready: bool, d: Disposition, s2: Site, q: Quiescence, code: QuiesceCode, t: Timing)
    requires ready && !Ended(ctx, s) && s.host.clock <= s2.host.clock
    requires s2.trace == s.trace + [Revalidated(true), QuiesceRan(q, code)]
    requires !code.Quiesced? || Ended(ctx, s2)
    ensures var (b, s') := GiveBack(s2, q, t); BeginTells(s, ctx, ready, d, b, s')
  {
    hide Recover, Quiescing, TouchedContainer, AnyFailed, RecoveryContext;
    if q.evidence == [] {
      NothingTouched();
      PutsTogether(s, s2, q, code, [], s2);
    } else {
      RecoverClock(s2.host.(cancelAt := RecoveryContext(s2)), q, t);
      var (r, s3) := RecoverPm2(s2, q, t);
      TouchesAt([RecoverRan(q, r.verified)], 0);
      PutsTogether(s, s2, q, code, [RecoverRan(q, r.verified)], s3);
      EndedLater(ctx, s2, s3);
    }
  }

  lemma DisposeTells(s: Site, ctx: Context, ready: bool, d: Disposition, s2: Site, q: Quiescence, t: Timing)
    requires ready && !Ended(ctx, s) && s.host.clock <= s2.host.clock
    requires s2.trace == s.trace + [Revalidated(true), QuiesceRan(q, QuiesceCode.Quiesced)]
    ensures var (b, s') := Dispose(s2, ctx, d, q, t); BeginTells(s, ctx, ready, d, b, s')
  {
    hide Recover, Quiescing, TouchedContainer, AnyFailed, RecoveryContext, Disposal;
    var docker := DisposalTells(s2, ctx, d);
    var (failed, s3) := Disposal(s2, ctx, d);
    if !failed {
      PutsTogether(s, s2, q, QuiesceCode.Quiesced, docker, s3);
      NoneFailed(d, Added(s, s3));
    } else {
      RecoverClock(s3.host.(cancelAt := RecoveryContext(s3)), q, t);
      var (r, s4) := RecoverPm2(s3, q, t);
      var rest := docker + [RecoverRan(q, r.verified)];
      FailedStays(docker, RecoverRan(q, r.verified));
      assert s4.trace == s2.trace + rest && rest[0] == docker[0];
      TouchesAt(rest, 0);
      PutsTogether(s, s2, q, QuiesceCode.Quiesced, rest, s4);
      EndedLater(ctx, s3, s4);
    }
  }

  lemma DeniedBackup(valid: bool)
    ensures !valid ==> AnyFailed([Revalidated(valid)])
  {
    assert !valid ==> Failed([Revalidated(valid)][0]);
  }

  lemma NothingTouched()
    ensures !TouchedContainer([])
  {
  }

  lemma TouchesAt(added: seq<Event>, i: nat)
    requires i < |added|
    ensures IsDocker(added[i]) ==> TouchedContainer(added)
    ensures |added| == 1 && !IsDocker(added[0]) ==> !TouchedContainer(added)
  {
  }

  lemma NoneFailed(d: Disposition, added: seq<Event>)
    requires HandedOver(d, added)
    ensures !AnyFailed(added)
  {
  }

  lemma FailedStays(docker: seq<Event>, e: Event)
    ensures AnyFailed(docker) ==> AnyFailed(docker + [e])
  {
    if AnyFailed(docker) {
      var i :| 0 <= i < |docker| && Failed(docker[i]);
      assert Failed((docker + [e])[i]);
    }
  }

  /** `Begin` succeeds exactly when it is ready, no step it made failed and the
      context has not ended; then it made exactly the steps of a hand-over. Otherwise
      the steps it made tell its error. */
  lemma BeginExactly(s: Site, ctx: Context, ready: bool, d: Disposition, t: Timing)
    ensures var (b, s') := Begin(s, ctx, ready, d, t);
            && BeginTells(s, ctx, ready, d, b, s')
            && (b.error.None? <==> ready && !Ended(ctx, s') && !AnyFailed(Added(s, s')))
  {
    BeginIsTold(s, ctx, ready, d, t);
    var (b, s') := Begin(s, ctx, ready, d, t);
    ToldExactly(s, ctx, ready, d, b, s');
  }

  lemma ToldExactly(s: Site, ctx: Context, ready: bool, d: Disposition, b: Begun, s': Site)
    requires BeginTells(s, ctx, ready, d, b, s')
    ensures b.error.None? <==> ready && !Ended(ctx, s') && !AnyFailed(Added(s, s'))
  {
    hide AnyFailed, Ended;
    assert b.error.None? ==> ready by { assert HandedOver(d, []) ==> false; }
  }

  lemma BeginIsTold(s: Site, ctx: Context, ready: bool, d: Disposition, t: Timing)
    ensures var (b, s') := Begin(s, ctx, ready, d, t); BeginTells(s, ctx, ready, d, b, s')
  {
    hide Quiesce, GiveBack, Dispose, CompleteQuiescence, HandedOver, TouchedContainer, Quiescing, AnyFailed, Failed;
    var (valid, s1) := Revalidate(s);
    if !ready || Ended(ctx, s) {
      assert Added(s, s) == [];
    } else if !valid || Ended(ctx, s1) {
      assert Added(s, s1) == [Revalidated(valid)];
      DeniedBackup(valid);
    } else {
      var h := s1.host.(cancelAt := ctx);
      QuiesceClock(h, t);
      SuccessIsComplete(h, t);
      var (q, code, s2) := QuiescePm2(s1, ctx, t);
      assert s2.trace == s.trace + [Revalidated(true), QuiesceRan(q, code)];
      if !code.Quiesced? || Ended(ctx, s2) {
        GiveBackTells(s, ctx, ready, d, s2, q, code, t);
      } else {
        DisposeTells(s, ctx, ready, d, s2, q, t);
      }
    }
  }

  /** What a hand-over needs of the outside world: the backup is valid, PM2 is
      quiesced, the commands on the container are answered with success, and the
      context outlasts them. */
  ghost predicate WillHandOver(s: Site, ctx: Context, d: Disposition, t: Timing) {
    var h := s.host.(clock := s.host.clock + s.oracle(s.calls).took, cancelAt := ctx);
    var (_, code, h') := Quiesce(h, t);
    var halted := h'.clock + s.oracle(s.calls + 2).took;
    var end := if d.RemoveContainer? then halted + s.oracle(s.calls + 3).took else halted;
    && s.oracle(s.calls).ok && code.Quiesced?
    && !s.container.Removed? && s.oracle(s.calls + 2).ok && (d.RemoveContainer? ==> s.oracle(s.calls + 3).ok)
    && (ctx.Some? ==> end < ctx.value)
  }

  lemma DisposalSucceeds(s: Site, ctx: Context, d: Disposition)
    ensures var (failed, s') := Disposal(s, ctx, d);
            var halted := s.host.clock + s.oracle(s.calls).took;
            var end := if d.RemoveContainer? then halted + s.oracle(s.calls + 1).took else halted;
            && (!failed <==>
                  && !s.container.Removed? && s.oracle(s.calls).ok && (d.RemoveContainer? ==> s.oracle(s.calls + 1).ok)
                  && (ctx.Some? ==> end < ctx.value))
            && (!failed ==> s'.container == if d.RemoveContainer? then Removed else Halted)
  {
    hide RecoverContainer;
  }

  /** `Begin` hands out a lease for the requested disposition exactly when it is ready
      and the outside world goes along; the container is then halted, or removed. */
  lemma BeginSucceedsExactly(s: Site, ctx: Context, ready: bool, d: Disposition, t: Timing)
    ensures var (b, s') := Begin(s, ctx, ready, d, t);
            && (b.error.None? <==> ready && WillHandOver(s, ctx, d, t))
            && (b.error.None? ==>
                  && b.lease.Some? && b.lease.value.disposition == d && !b.lease.value.pm2Only
                  && s'.container == if d.RemoveContainer? then Removed else Halted)
  {
    hide Quiesce, GiveBack, RecoverPm2, CompleteQuiescence, Disposal;
    var (valid, s1) := Revalidate(s);
    var h := s1.host.(cancelAt := ctx);
    QuiesceClock(h, t);
    SuccessIsComplete(h, t);
    var (q, code, s2) := QuiescePm2(s1, ctx, t);
    DisposalSucceeds(s2, ctx, d);
    GiveBackFails(s2, q, t);
  }

  lemma GiveBackFails(s: Site, q: Quiescence, t: Timing)
    ensures GiveBack(s, q, t).0.error.Some?
  {
  }

  // ------------------------------------------------------------ completion

  /** The restart of the container is seen: it is not gone, and both the start and the
      inspection are answered with success. */
  predicate WillRestart(s: Site) {
    !s.container.Removed? && s.oracle(s.calls).ok && s.oracle(s.calls + 1).ok
  }

  /** What `CompleteFailure` does, call by call, and when it reports a verified
      recovery: the container, if it is to be restarted, is started and inspected
      first, and PM2 is recovered with the very quiescence of the lease in any case. */
  lemma UndoExactly(s: Site, lease: Lease, t: Timing)
    ensures var (c, s') := Undo(s, lease, t);
            var added := Added(s, s');
            var restarts := !lease.pm2Only && lease.disposition.StopContainer?;
            && s.trace <= s'.trace && added != []
            && Last(added) == RecoverRan(lease.quiescence, c.recovery.verified)
            && (if !restarts then |added| == 1
                else if s.container.Removed? || !s.oracle(s.calls).ok then |added| == 2 && added[0] == DockerStart(false)
                else |added| == 3 && added[0] == DockerStart(true) && added[1] == DockerInspect(s.oracle(s.calls + 1).ok))
            && (c.code == Pm2(RecoveryVerified) <==>
                  (lease.pm2Only || (restarts && WillRestart(s))) && c.recovery.verified)
            && (c.failed <==> !c.recovery.verified || (restarts && !WillRestart(s)))
            && (restarts && WillRestart(s) ==> s'.container.Running?)
  {
    hide Recover, RecoveryContext;
    var (verified, s1) := if lease.pm2Only then (true, s) else RecoverContainer(s, lease.disposition);
    VerifiedCode(s1.host.(cancelAt := RecoveryContext(s1)), lease.quiescence, t);
  }

  // -------------------------------------------------------- an honest site

  /** On a site whose PM2 is prompt and correlates, whose container is there and whose
      docker answers with success, a hand-over succeeds: exactly the selected services
      are down and the container is halted or removed. */
  lemma PromptSiteHandsOver(s: Site, d: Disposition, t: Timing)
    requires Honest(s.host) && s.host.conduct.Prompt? && Correlated(s.host.world).Ok?
    requires !s.container.Removed? && forall at :: s.oracle(at).ok
    ensures var (b, s') := Begin(s, None, true, d, t);
            && b.error.None? && b.lease.Some?
            && s'.container == (if d.RemoveContainer? then Removed else Halted)
            && var ps := b.lease.value.quiescence.processes;
               && Correlated(s.host.world) == Ok(ps) && AllStoppedAndReleased(s'.host.world, ps)
               && Related(s.host.world, s'.host.world, ps, StopState(|ps|, |ps|))
  {
    hide Quiesce, Correlated, Related, AllStoppedAndReleased, CompleteQuiescence, GiveBack, RecoverPm2;
    var (valid, s1) := Revalidate(s);
    var h := s1.host.(cancelAt := None);
    assert Honest(h);
    QuiesceStopsExactlyTheSelected(h, t);
    SuccessIsComplete(h, t);
    BeginSucceedsExactly(s, None, true, d, t);
    SelectedBy(s.host.world, Quiesce(h, t).0.processes);
  }

  lemma SelectedBy(w: Snapshot, ps: seq<Identity>)
    ensures Selection(w, ps) ==> Correlated(w) == Ok(ps)
  {
  }
}
