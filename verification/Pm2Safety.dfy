/** What every run of the quiescer keeps, whatever the outside world answers. */
module Pm2Safety {
  import opened Basics
  import opened Pm2Correlation
  import opened Pm2Snapshot
  import opened Pm2Quiescence

  function StopCommands(targets: seq<Identity>): (r: seq<Command>)
    ensures |r| == |targets|
    ensures forall i :: 0 <= i < |r| ==> r[i] == StopCommand(targets[i].pmid)
  {
    seq(|targets|, i requires 0 <= i < |targets| => StopCommand(targets[i].pmid))
  }

  function StartCommands(targets: seq<Identity>): (r: seq<Command>)
    ensures |r| == |targets|
    ensures forall i :: 0 <= i < |r| ==> r[i] == StartCommand(targets[i].pmid)
  {
    seq(|targets|, i requires 0 <= i < |targets| => StartCommand(targets[i].pmid))
  }

  /** The commands and the evidence of a quiesce call: the stop commands are the
      first identities in order; the evidence is those stops, without the last one
      exactly when that command failed; every entry is verified, except the last one
      exactly when its proof is what failed; success leaves nothing out. */
  ghost predicate StopRun(q: Quiescence, code: QuiesceCode, before: seq<Command>, after: seq<Command>) {
    var issued := |after| - |before|;
    && 0 <= issued <= |q.processes|
    && after == before + StopCommands(q.processes[..issued])
    && |q.evidence| == (if code.StopFailed? then issued - 1 else issued)
    && (forall i :: 0 <= i < |q.evidence| ==>
          q.evidence[i] == StopEvidence(q.processes[i], !(code.StopUnproven? && i == |q.evidence| - 1)))
    && (code.StopFailed? || code.StopUnproven? ==> issued > 0)
    && (code.Quiesced? ==> issued == |q.processes|)
  }

  lemma {:induction false} AwaitStoppedFrame(h: Host, target: Identity, deadline: nat, t: Timing)
    ensures var h' := AwaitStopped(h, target, deadline, t).1;
            && h'.commands == h.commands && h'.world == h.world
            && h'.conduct == h.conduct && h'.oracle == h.oracle && h'.cancelAt == h.cancelAt
            && h'.nextPid == h.nextPid && h'.nextTicks == h.nextTicks
    decreases if h.clock < deadline then deadline - h.clock else 0
  {
    var h1 := AfterObservation(h);
    if TimerFires(h1, deadline, t) {
      AwaitStoppedFrame(h1.(clock := h1.clock + Interval(t)), target, deadline, t);
    }
  }

  lemma {:induction false} AwaitRestartedFrame(h: Host, target: Identity, deadline: nat, t: Timing)
    ensures var h' := AwaitRestarted(h, target, deadline, t).1;
            && h'.commands == h.commands && h'.world == h.world
            && h'.conduct == h.conduct && h'.oracle == h.oracle && h'.cancelAt == h.cancelAt
            && h'.nextPid == h.nextPid && h'.nextTicks == h.nextTicks
    decreases if h.clock < deadline then deadline - h.clock else 0
  {
    if !Expired(h, deadline) {
      var h1 := AfterObservation(h);
      if TimerFires(h1, deadline, t) {
        AwaitRestartedFrame(h1.(clock := h1.clock + Interval(t)), target, deadline, t);
      }
    }
  }

  lemma ObservationIsValid(h: Host)
    ensures Observation(h).Some? ==> ValidSnapshot(Observation(h).value)
  {
  }

  /** Every correlated identity may be stopped, started and recovered. */
  lemma CorrelatedIsRecoverable(s: Snapshot, ids: seq<Identity>)
    requires ValidSnapshot(s) && Correlated(s) == Ok(ids)
    ensures Ascending(ids)
    ensures forall p :: p in ids ==> MutationAllowed(p) && RecoverableIdentity(p)
  {
    CorrelationMeans(s.records, s.sockets, s.proc, ids);
    forall p | p in ids ensures MutationAllowed(p) && RecoverableIdentity(p) {
      var r :| r in s.records && Qualifies(r, s.sockets) && p == IdentityOf(r, s.proc);
    }
  }

  /** Between two rounds of the stop loop: every command so far is on the verified
      evidence, in order. */
  ghost predicate Stopping(stopped: Quiescence, before: seq<Command>, now: seq<Command>) {
    && |stopped.evidence| <= |stopped.processes|
    && (forall i :: 0 <= i < |stopped.evidence| ==> stopped.evidence[i] == StopEvidence(stopped.processes[i], true))
    && now == before + StopCommands(stopped.processes[..|stopped.evidence|])
  }

  /** The ways out of the stop loop, and the way on. */
  lemma StoppingEnds(stopped: Quiescence, code: QuiesceCode, before: seq<Command>, now: seq<Command>)
    requires Stopping(stopped, before, now)
    ensures !code.StopFailed? && !code.StopUnproven? && (code.Quiesced? ==> |stopped.evidence| == |stopped.processes|) ==>
              StopRun(stopped, code, before, now)
    ensures |stopped.evidence| < |stopped.processes| ==>
              var target := stopped.processes[|stopped.evidence|];
              var after := now + [StopCommand(target.pmid)];
              && StopRun(stopped, StopFailed, before, after)
              && StopRun(stopped.(evidence := stopped.evidence + [StopEvidence(target, false)]), StopUnproven, before, after)
              && Stopping(stopped.(evidence := stopped.evidence + [StopEvidence(target, true)]), before, after)
  {
    var k := |stopped.evidence|;
    if k < |stopped.processes| {
      assert stopped.processes[..k + 1] == stopped.processes[..k] + [stopped.processes[k]];
      assert StopCommands(stopped.processes[..k + 1]) ==
             StopCommands(stopped.processes[..k]) + [StopCommand(stopped.processes[k].pmid)];
    }
  }

  lemma {:induction false} StopEachIsStopRun(h: Host, pending: seq<Identity>, stopped: Quiescence, t: Timing, before: seq<Command>)
    requires Stopping(stopped, before, h.commands)
    requires |stopped.evidence| + |pending| == |stopped.processes|
    requires pending == stopped.processes[|stopped.evidence|..]
    requires forall p :: p in pending ==> MutationAllowed(p)
    ensures var (q, code, h') := StopEach(h, pending, stopped, t);
            && StopRun(q, code, before, h'.commands)
            && q.processes == stopped.processes && q.noopVerified == stopped.noopVerified
    decreases |pending|
  {
    hide Observation, Correlated, AllStoppedAndReleased, AfterObservation, AwaitStopped, MutationAllowed, Stop, StopRun, Stopping;
    var (q, code, h') := StopEach(h, pending, stopped, t);
    StoppingEnds(stopped, code, before, h.commands);
    if pending != [] && Observation(h).Some? && Correlated(Observation(h).value) == Ok(pending) {
      var target := pending[0];
      assert target in pending;
      var (ok, h2) := Stop(AfterObservation(h), target);
      if ok {
        AwaitStoppedFrame(h2, target, h2.clock + Timeout(t), t);
        var (proven, h3) := AwaitStopped(h2, target, h2.clock + Timeout(t), t);
        if proven {
          var next := stopped.(evidence := stopped.evidence + [StopEvidence(target, true)]);
          StopEachIsStopRun(h3, pending[1..], next, t, before);
        }
      }
    }
  }

  /** Over every world and every failure: stop commands form a prefix of the
      ascending initial set, hence without repetition, and the evidence is that
      prefix with at most the last command missing and at most the last entry
      unverified. */
  lemma QuiesceSafety(h: Host, t: Timing)
    ensures var (q, code, h') := Quiesce(h, t);
            && StopRun(q, code, h.commands, h'.commands)
            && Ascending(q.processes)
            && (forall p :: p in q.processes ==> RecoverableIdentity(p))
            && (q.noopVerified <==> code.Quiesced? && q.processes == [])
  {
    hide Observation, Correlated, StoppedAndReleased, AfterObservation;
    var initial := Observation(h);
    var h1 := AfterObservation(h);
    if initial.Some? && Correlated(initial.value).Ok? {
      var pending := Correlated(initial.value).value;
      ObservationIsValid(h);
      CorrelatedIsRecoverable(initial.value, pending);
      if pending != [] {
        StopEachIsStopRun(h1, pending, Quiescence(pending, [], false), t, h.commands);
      }
    }
  }

  /** Any result that holds evidence is accepted for recovery, and the targets are
      the stopped identities in stop order. */
  lemma EvidenceIsRecoverable(h: Host, t: Timing)
    requires Quiesce(h, t).0.evidence != []
    ensures var q := Quiesce(h, t).0;
            |q.evidence| <= |q.processes| && Targets(q) == Some(q.processes[..|q.evidence|])
  {
    var q := Quiesce(h, t).0;
    QuiesceSafety(h, t);
    var targets := q.processes[..|q.evidence|];
    assert Acknowledged(q, targets);
    AcknowledgedIsUnique(q, targets, Targets(q).value);
  }

  /** The commands and counts of a recovery over `todo`: its elements from the last
      to the first, each once, stopping at the first one not proven. */
  ghost predicate StartRun(todo: seq<Identity>, tried: int, proven: int, before: seq<Command>, after: seq<Command>) {
    && 0 <= tried <= |todo|
    && after == before + StartCommands(Reverse(todo)[..tried])
    && proven <= tried <= proven + 1
  }

  lemma StartRunStep(todo: seq<Identity>, tried: int, proven: int, before: seq<Command>, after: seq<Command>)
    requires todo != []
    requires StartRun(Front(todo), tried, proven, before + [StartCommand(Last(todo).pmid)], after)
    ensures StartRun(todo, tried + 1, proven + 1, before, after)
  {
    var earlier := Reverse(Front(todo))[..tried];
    assert Reverse(todo)[..tried + 1] == [Last(todo)] + earlier;
    assert StartCommands(Reverse(todo)[..tried + 1]) == [StartCommand(Last(todo).pmid)] + StartCommands(earlier);
  }

  lemma StartRunFirst(todo: seq<Identity>, before: seq<Command>)
    ensures StartRun(todo, 0, 0, before, before)
    ensures todo != [] ==> StartRun(todo, 1, 0, before, before + [StartCommand(Last(todo).pmid)])
  {
    if todo != [] {
      assert Reverse(todo)[..1] == [Last(todo)];
    }
  }

  lemma {:induction false} StartEachSafety(h: Host, todo: seq<Identity>, r: Recovery, t: Timing)
    requires forall p :: p in todo ==> MutationAllowed(p)
    requires !r.verified && r.code == RecoveryUnproven
    ensures var (r', h') := StartEach(h, todo, r, t);
            && StartRun(todo, r'.attempted - r.attempted, r'.recovered - r.recovered, h.commands, h'.commands)
            && (r'.verified <==> r'.recovered - r.recovered == |todo|)
            && r'.code == (if r'.verified then RecoveryVerified else RecoveryUnproven)
    decreases |todo|
  {
    hide Observation, AfterObservation, AwaitRestarted, ReadyToStart, Start, StartRun;
    StartRunFirst(todo, h.commands);
    if todo != [] {
      var target := Last(todo);
      var h1 := AfterObservation(h);
      assert target in todo;
      if Observation(h).Some? && ReadyToStart(Observation(h).value, target) {
        var (ok, h2) := Start(h1, target);
        if ok {
          AwaitRestartedFrame(h2, target, h2.clock + Timeout(t), t);
          var (proven, h3) := AwaitRestarted(h2, target, h2.clock + Timeout(t), t);
          if proven {
            var next := r.(attempted := r.attempted + 1, recovered := r.recovered + 1);
            StartEachSafety(h3, Front(todo), next, t);
            var (r', h') := StartEach(h3, Front(todo), next, t);
            StartRunStep(todo, r'.attempted - next.attempted, r'.recovered - next.recovered, h.commands, h'.commands);
          }
        }
      }
    }
  }

  /** Over every world and every failure: recovery starts the acknowledged targets in
      reverse stop order, each at most once, stops at the first failure, counts what
      it did, and is verified exactly when it proved every one of them. */
  lemma RecoverSafety(h: Host, q: Quiescence, t: Timing)
    requires Targets(q).Some? && !(q.noopVerified && q.processes == [] && q.evidence == [])
    ensures var (r, h') := Recover(h, q, t);
            var targets := Targets(q).value;
            && StartRun(targets, r.attempted, r.recovered, h.commands, h'.commands)
            && (r.verified <==> r.recovered == |targets|)
            && (r.verified <==> r.code == RecoveryVerified)
  {
    var targets := Targets(q).value;
    StartEachSafety(h, targets, Recovery(0, 0, false, RecoveryUnproven), t);
  }
}
