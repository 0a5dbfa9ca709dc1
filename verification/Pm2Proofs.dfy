/** What the quiescer had seen when it acted, and what it had seen when it called
    something proven (internal/installation/pm2_quiescence.go): statements about the
    log of observations and commands, for every outside world. */
module Pm2Proofs {
  import opened Basics
  import opened Pm2Correlation
  import opened Pm2Snapshot
  import opened Pm2Quiescence
  import opened Pm2Safety

  ghost predicate ShowsExactly(e: Entry, running: seq<Identity>) {
    e.Saw? && e.s.Some? && Correlated(e.s.value) == Ok(running)
  }

  ghost predicate ShowsStopped(e: Entry, targets: seq<Identity>) {
    e.Saw? && e.s.Some? && AllStoppedAndReleased(e.s.value, targets)
  }

  ghost predicate ShowsReady(e: Entry, target: Identity) {
    e.Saw? && e.s.Some? && ReadyToStart(e.s.value, target)
  }

  ghost predicate ShowsRestarted(e: Entry, target: Identity) {
    e.Saw? && e.s.Some? && Restarted(e.s.value, target)
  }

  predicate IsSent(e: Entry, command: Command) {
    e.Sent? && e.command == command
  }

  /** Entry `j` was followed by looks only, up to entry `k`. */
  predicate OnlyLooks(log: seq<Entry>, j: int, k: int) {
    0 <= j < k < |log| && forall m :: j < m <= k ==> log[m].Saw?
  }

  // ------------------------------------------------------------- stopping

  /** Entry `j` stops service `i`, just after seeing that exactly `ps[i..]` run. */
  ghost predicate StopsAt(log: seq<Entry>, from: nat, ps: seq<Identity>, j: int, i: int) {
    && from < j < |log| && 0 <= i < |ps|
    && IsSent(log[j], StopCommand(ps[i].pmid)) && ShowsExactly(log[j - 1], ps[i..])
  }

  ghost predicate StopsJustified(log: seq<Entry>, from: nat, ps: seq<Identity>) {
    forall j :: from <= j < |log| && log[j].Sent? ==> exists i :: StopsAt(log, from, ps, j, i)
  }

  /** Entry `k` shows the service stopped and its port released, after its stop at
      entry `j` with no command in between. */
  ghost predicate StopProvenBy(log: seq<Entry>, from: nat, p: Identity, j: int, k: int) {
    from <= j && OnlyLooks(log, j, k) && IsSent(log[j], StopCommand(p.pmid)) && ShowsStopped(log[k], [p])
  }

  ghost predicate SeenStopped(log: seq<Entry>, from: nat, p: Identity) {
    exists j, k :: StopProvenBy(log, from, p, j, k)
  }

  ghost predicate StopsProven(log: seq<Entry>, from: nat, q: Quiescence) {
    && |q.evidence| <= |q.processes|
    && forall i :: 0 <= i < |q.evidence| && q.evidence[i].stopVerified ==> SeenStopped(log, from, q.processes[i])
  }

  ghost predicate StopLog(log: seq<Entry>, from: nat, q: Quiescence) {
    StopsJustified(log, from, q.processes) && StopsProven(log, from, q)
  }

  lemma LooksJustifyNothing(log: seq<Entry>, from: nat, q: Quiescence, looks: seq<Entry>)
    requires StopLog(log, from, q) && forall m :: 0 <= m < |looks| ==> looks[m].Saw?
    ensures StopLog(log + looks, from, q)
  {
    var more := log + looks;
    forall j | from <= j < |more| && more[j].Sent? ensures exists i :: StopsAt(more, from, q.processes, j, i) {
      var i :| StopsAt(log, from, q.processes, j, i);
      assert StopsAt(more, from, q.processes, j, i);
    }
    ProvenLater(log, from, q, looks);
  }

  lemma ProvenLater(log: seq<Entry>, from: nat, q: Quiescence, more: seq<Entry>)
    requires StopsProven(log, from, q)
    ensures StopsProven(log + more, from, q)
  {
    forall i | 0 <= i < |q.evidence| && q.evidence[i].stopVerified ensures SeenStopped(log + more, from, q.processes[i]) {
      var j, k :| StopProvenBy(log, from, q.processes[i], j, k);
      assert StopProvenBy(log + more, from, q.processes[i], j, k);
    }
  }

  lemma StopIsJustified(log: seq<Entry>, from: nat, q: Quiescence, i: nat, e: Entry)
    requires StopLog(log, from, q) && i < |q.processes| && IsSent(e, StopCommand(q.processes[i].pmid))
    requires from < |log| && ShowsExactly(Last(log), q.processes[i..])
    ensures StopLog(log + [e], from, q)
  {
    hide ShowsExactly, StopProvenBy;
    var more := log + [e];
    forall j | from <= j < |more| && more[j].Sent? ensures exists i :: StopsAt(more, from, q.processes, j, i) {
      if j < |log| {
        var i' :| StopsAt(log, from, q.processes, j, i');
        assert StopsAt(more, from, q.processes, j, i');
      } else {
        assert StopsAt(more, from, q.processes, j, i);
      }
    }
    ProvenLater(log, from, q, [e]);
  }

  /** The polling loop only looks. It is proven exactly by its last look, made before
      the end of its context and the first such look to show the target stopped; it
      gives up only when the context ends before the next poll. */
  lemma {:induction false} AwaitStoppedLooks(h: Host, target: Identity, deadline: nat, t: Timing) returns (looks: seq<Entry>)
    ensures var (proven, h') := AwaitStopped(h, target, deadline, t);
            && h'.log == h.log + looks && looks != []
            && (forall m :: 0 <= m < |looks| ==> looks[m].Saw?)
            && (proven <==> Last(looks).at < DoneAt(h, deadline) && ShowsStopped(Last(looks), [target]))
            && (forall m :: 0 <= m < |looks| - 1 && looks[m].at < DoneAt(h, deadline) ==> !ShowsStopped(looks[m], [target]))
            && (!proven ==> h'.clock + Interval(t) >= DoneAt(h, deadline))
    decreases if h.clock < deadline then deadline - h.clock else 0
  {
    hide Observation, StoppedAndReleased, Interval, TimerFires, DoneAt;
    var h1 := AfterObservation(h);
    looks := [Saw(Observation(h), h1.clock)];
    TimerEnds(h1, deadline, t);
    SameEnd(h, h1, deadline);
    if Observation(h).Some? && !Expired(h1, deadline) && StoppedAndReleased(Observation(h).value, target) {
    } else if TimerFires(h1, deadline, t) {
      var h2 := h1.(clock := h1.clock + Interval(t));
      SameEnd(h, h2, deadline);
      var more := AwaitStoppedLooks(h2, target, deadline, t);
      looks := looks + more;
    }
  }

  /** The poll timer fires within the deadline, or not before the end of the context. */
  lemma TimerEnds(h: Host, deadline: nat, t: Timing)
    ensures TimerFires(h, deadline, t) ==> h.clock < h.clock + Interval(t) <= deadline
    ensures !TimerFires(h, deadline, t) ==> h.clock + Interval(t) >= DoneAt(h, deadline)
  {
  }

  /** A proof after a stop verifies its evidence. */
  lemma VerifiedByLooks(log: seq<Entry>, from: nat, stopped: Quiescence, e: Entry, looks: seq<Entry>)
    requires |stopped.evidence| < |stopped.processes| && from <= |log|
    requires var target := stopped.processes[|stopped.evidence|];
             && IsSent(e, StopCommand(target.pmid)) && StopLog(log + [e], from, stopped)
             && looks != [] && ShowsStopped(Last(looks), [target])
    requires forall m :: 0 <= m < |looks| ==> looks[m].Saw?
    ensures var target := stopped.processes[|stopped.evidence|];
            StopLog(log + [e] + looks, from,
                    stopped.(evidence := stopped.evidence + [StopEvidence(target, true)]))
  {
    hide ShowsStopped, StopsAt;
    var target := stopped.processes[|stopped.evidence|];
    var sent := log + [e];
    LooksJustifyNothing(sent, from, stopped, looks);
    var all := sent + looks;
    assert all[|log|] == e && all[|all| - 1] == Last(looks);
    assert StopProvenBy(all, from, target, |log|, |all| - 1);
    assert SeenStopped(all, from, target);
  }

  lemma UnverifiedAdds(log: seq<Entry>, from: nat, stopped: Quiescence)
    requires |stopped.evidence| < |stopped.processes| && StopLog(log, from, stopped)
    ensures StopLog(log, from, stopped.(evidence := stopped.evidence + [StopEvidence(stopped.processes[|stopped.evidence|], false)]))
  {
    hide StopProvenBy, StopsAt;
  }

  /** The wait after the command at entry `j` was given up: its context ended before
      the next poll, and no look made before that end shows what was awaited. */
  ghost predicate GaveUp(log: seq<Entry>, from: nat, command: Command, p: Identity, j: int, h': Host, t: Timing) {
    && from <= j < |log| && IsSent(log[j], command) && log[j].ok
    && (forall m :: j < m < |log| ==> log[m].Saw?)
    && var end := DoneAt(h', log[j].at + Timeout(t));
       && h'.clock + Interval(t) >= end
       && forall m :: j < m < |log| && log[m].at < end ==>
            if command.StopCommand? then !ShowsStopped(log[m], [p]) else !ShowsRestarted(log[m], p)
  }

  ghost predicate Abandoned(log: seq<Entry>, from: nat, command: Command, p: Identity, h': Host, t: Timing) {
    exists j :: GaveUp(log, from, command, p, j, h', t)
  }

  /** Why a quiesce ended with its code; `from` is where its log starts. */
  ghost predicate QuiesceCause(q: Quiescence, code: QuiesceCode, from: nat, h': Host, t: Timing)
    requires h'.log != []
  {
    var e, done := Last(h'.log), |q.evidence|;
    match code
    case Quiesced => if q.processes != [] then ShowsStopped(e, q.processes) else ShowsExactly(e, [])
    case ObservationUnavailable => e.Saw? && e.s.None?
    case CorrelationFailed => |h'.log| == from + 1 && e.Saw? && e.s.Some? && Correlated(e.s.value).Err?
    case StateChanged => done < |q.processes| && e.Saw? && e.s.Some? && !ShowsExactly(e, q.processes[done..])
    case StopFailed => done < |q.processes| && IsSent(e, StopCommand(q.processes[done].pmid)) && !e.ok
    case StopUnproven =>
      0 < done <= |q.processes| &&
      Abandoned(h'.log, from, StopCommand(q.processes[done - 1].pmid), q.processes[done - 1], h', t)
    case FinalStateUnproven =>
      done == |q.processes| && e.Saw? && if q.processes != [] then !ShowsStopped(e, q.processes) else e.s.Some? && !ShowsExactly(e, [])
  }

  lemma StopWaitGivesUp(log: seq<Entry>, from: nat, p: Identity, e: Entry, looks: seq<Entry>, h': Host, t: Timing)
    requires from <= |log| && IsSent(e, StopCommand(p.pmid)) && e.ok && h'.log == log + [e] + looks
    requires var end := DoneAt(h', e.at + Timeout(t));
             && h'.clock + Interval(t) >= end
             && forall m :: 0 <= m < |looks| ==> looks[m].Saw? && (looks[m].at < end ==> !ShowsStopped(looks[m], [p]))
    ensures GaveUp(h'.log, from, StopCommand(p.pmid), p, |log|, h', t)
  {
    hide ShowsStopped;
  }

  /** One stop and its wait, after a look at entry `Last(h1.log)` that justifies it. */
  lemma StopRound(h1: Host, stopped: Quiescence, t: Timing, from: nat)
    requires from < |h1.log| && StopLog(h1.log, from, stopped) && |stopped.evidence| < |stopped.processes|
    requires ShowsExactly(Last(h1.log), stopped.processes[|stopped.evidence|..])
    requires MutationAllowed(stopped.processes[|stopped.evidence|])
    ensures var target := stopped.processes[|stopped.evidence|];
            var (ok, h2) := Stop(h1, target);
            && h1.log <= h2.log && StopLog(h2.log, from, stopped) && h2.log != []
            && IsSent(Last(h2.log), StopCommand(target.pmid)) && Last(h2.log).ok == ok
            && var (proven, h3) := AwaitStopped(h2, target, h2.clock + Timeout(t), t);
               && h2.log <= h3.log && h3.log != []
               && (ok ==> StopLog(h3.log, from, stopped.(evidence := stopped.evidence + [StopEvidence(target, proven)])))
               && (ok && !proven ==> Abandoned(h3.log, from, StopCommand(target.pmid), target, h3, t))
  {
    hide Stop, AwaitStopped, MutationAllowed, StopLog, GaveUp, ShowsExactly, ShowsStopped, DoneAt, Interval, Timeout;
    var target := stopped.processes[|stopped.evidence|];
    var (ok, h2) := Stop(h1, target);
    var e := Sent(StopCommand(target.pmid), ok, h2.clock);
    StopIsJustified(h1.log, from, stopped, |stopped.evidence|, e);
    var (proven, h3) := AwaitStopped(h2, target, h2.clock + Timeout(t), t);
    var looks := AwaitStoppedLooks(h2, target, h2.clock + Timeout(t), t);
    AwaitStoppedFrame(h2, target, h2.clock + Timeout(t), t);
    SameEnd(h2, h3, h2.clock + Timeout(t));
    LooksJustifyNothing(h2.log, from, stopped, looks);
    if proven {
      VerifiedByLooks(h1.log, from, stopped, e, looks);
    } else if ok {
      StopWaitGivesUp(h1.log, from, target, e, looks, h3, t);
      UnverifiedAdds(h3.log, from, stopped);
    }
  }

  lemma {:induction false} StopEachIsProven(h: Host, pending: seq<Identity>, stopped: Quiescence, t: Timing, from: nat)
    requires from < |h.log| && StopLog(h.log, from, stopped)
    requires |stopped.evidence| + |pending| == |stopped.processes| && pending == stopped.processes[|stopped.evidence|..]
    requires stopped.processes != [] && forall p :: p in pending ==> MutationAllowed(p)
    ensures var (q, code, h') := StopEach(h, pending, stopped, t);
            && h.log <= h'.log && StopLog(h'.log, from, q) && q.processes == stopped.processes
            && QuiesceCause(q, code, from, h', t)
    decreases |pending|
  {
    hide Observation, Correlated, StoppedAndReleased, AllStoppedAndReleased, AwaitStopped, MutationAllowed, Stop, StopLog,
         Abandoned, Timeout;
    var h1 := AfterObservation(h);
    LooksJustifyNothing(h.log, from, stopped, [Saw(Observation(h), h1.clock)]);
    if pending != [] && Observation(h).Some? && Correlated(Observation(h).value) == Ok(pending) {
      var target := pending[0];
      assert target in pending && target == stopped.processes[|stopped.evidence|];
      StopRound(h1, stopped, t, from);
      var (ok, h2) := Stop(h1, target);
      var (proven, h3) := AwaitStopped(h2, target, h2.clock + Timeout(t), t);
      if ok && proven {
        StopEachIsProven(h3, pending[1..], stopped.(evidence := stopped.evidence + [StopEvidence(target, true)]), t, from);
      }
    }
  }

  lemma SameEnd(h: Host, h': Host, deadline: nat)
    requires h'.cancelAt == h.cancelAt
    ensures DoneAt(h', deadline) == DoneAt(h, deadline)
  {
  }

  /** Over every outside world: the services are what the first observation
      correlated; each stop command was sent just after seeing that exactly the
      services not yet stopped were running; each verified entry of the evidence was
      seen stopped with its port released, after its own stop and before any other
      command; and success was seen for all of them at once, at the end. Every other code has
      its cause: the last observation failed, correlated to nothing or to something
      else, the last command failed, or a wait was given up at the end of its context
      without a look before that end that would have proven it. */
  lemma QuiesceIsProven(h: Host, t: Timing)
    ensures var (q, code, h') := Quiesce(h, t);
            && h.log < h'.log && StopLog(h'.log, |h.log|, q)
            && (q.processes != [] ==> ShowsExactly(h'.log[|h.log|], q.processes))
            && (code.Quiesced? && q.processes == [] ==> ShowsExactly(h'.log[|h.log|], []))
            && QuiesceCause(q, code, |h.log|, h', t)
  {
    hide Observation, Correlated, StoppedAndReleased, AllStoppedAndReleased;
    var initial := Observation(h);
    var h1 := AfterObservation(h);
    assert forall q: Quiescence :: q.evidence == [] ==> StopLog(h1.log, |h.log|, q);
    if initial.Some? && Correlated(initial.value).Ok? {
      var pending := Correlated(initial.value).value;
      ObservationIsValid(h);
      CorrelatedIsRecoverable(initial.value, pending);
      if pending != [] {
        StopEachIsProven(h1, pending, Quiescence(pending, [], false), t, |h.log|);
      }
    }
  }

  // ----------------------------------------------------------- restarting

  /** Entry `j` starts a target just after seeing it stopped with its port free. */
  ghost predicate StartsAt(log: seq<Entry>, from: nat, targets: seq<Identity>, j: int, i: int) {
    && from < j < |log| && 0 <= i < |targets|
    && IsSent(log[j], StartCommand(targets[i].pmid)) && ShowsReady(log[j - 1], targets[i])
  }

  ghost predicate StartsJustified(log: seq<Entry>, from: nat, targets: seq<Identity>) {
    forall j :: from <= j < |log| && log[j].Sent? ==> exists i :: StartsAt(log, from, targets, j, i)
  }

  /** Entry `k` shows the target running afresh, after its start at entry `j` with no
      command in between. */
  ghost predicate StartProvenBy(log: seq<Entry>, from: nat, p: Identity, j: int, k: int) {
    from <= j && OnlyLooks(log, j, k) && IsSent(log[j], StartCommand(p.pmid)) && ShowsRestarted(log[k], p)
  }

  ghost predicate SeenRestarted(log: seq<Entry>, from: nat, p: Identity) {
    exists j, k :: StartProvenBy(log, from, p, j, k)
  }

  /** The last `proven` targets were seen restarted. */
  ghost predicate StartsProven(log: seq<Entry>, from: nat, targets: seq<Identity>, proven: int) {
    && 0 <= proven <= |targets|
    && forall i :: |targets| - proven <= i < |targets| ==> SeenRestarted(log, from, targets[i])
  }

  ghost predicate StartLog(log: seq<Entry>, from: nat, targets: seq<Identity>, proven: int) {
    StartsJustified(log, from, targets) && StartsProven(log, from, targets, proven)
  }

  lemma StartsProvenLater(log: seq<Entry>, from: nat, targets: seq<Identity>, proven: int, more: seq<Entry>)
    requires StartsProven(log, from, targets, proven)
    ensures StartsProven(log + more, from, targets, proven)
  {
    forall i | |targets| - proven <= i < |targets| ensures SeenRestarted(log + more, from, targets[i]) {
      var j, k :| StartProvenBy(log, from, targets[i], j, k);
      assert StartProvenBy(log + more, from, targets[i], j, k);
    }
  }

  lemma LooksStartNothing(log: seq<Entry>, from: nat, targets: seq<Identity>, proven: int, looks: seq<Entry>)
    requires StartLog(log, from, targets, proven) && forall m :: 0 <= m < |looks| ==> looks[m].Saw?
    ensures StartLog(log + looks, from, targets, proven)
  {
    var more := log + looks;
    forall j | from <= j < |more| && more[j].Sent? ensures exists i :: StartsAt(more, from, targets, j, i) {
      var i :| StartsAt(log, from, targets, j, i);
      assert StartsAt(more, from, targets, j, i);
    }
    StartsProvenLater(log, from, targets, proven, looks);
  }

  lemma StartIsJustified(log: seq<Entry>, from: nat, targets: seq<Identity>, proven: int, i: nat, e: Entry)
    requires StartLog(log, from, targets, proven) && i < |targets| && IsSent(e, StartCommand(targets[i].pmid))
    requires from < |log| && ShowsReady(Last(log), targets[i])
    ensures StartLog(log + [e], from, targets, proven)
  {
    hide ShowsReady, StartProvenBy;
    var more := log + [e];
    forall j | from <= j < |more| && more[j].Sent? ensures exists i :: StartsAt(more, from, targets, j, i) {
      if j < |log| {
        var i' :| StartsAt(log, from, targets, j, i');
        assert StartsAt(more, from, targets, j, i');
      } else {
        assert StartsAt(more, from, targets, j, i);
      }
    }
    StartsProvenLater(log, from, targets, proven, [e]);
  }

  /** As `AwaitStoppedLooks`, but a context that has ended already is not looked at. */
  lemma {:induction false} AwaitRestartedLooks(h: Host, target: Identity, deadline: nat, t: Timing) returns (looks: seq<Entry>)
    ensures var (proven, h') := AwaitRestarted(h, target, deadline, t);
            && h'.log == h.log + looks
            && (forall m :: 0 <= m < |looks| ==> looks[m].Saw?)
            && (proven <==> looks != [] && Last(looks).at < DoneAt(h, deadline) && ShowsRestarted(Last(looks), target))
            && (forall m :: 0 <= m < |looks| - 1 && looks[m].at < DoneAt(h, deadline) ==> !ShowsRestarted(looks[m], target))
            && (!proven ==> h'.clock + Interval(t) >= DoneAt(h, deadline))
    decreases if h.clock < deadline then deadline - h.clock else 0
  {
    hide Observation, Restarted, Interval, TimerFires, DoneAt;
    looks := [];
    if !Expired(h, deadline) {
      var h1 := AfterObservation(h);
      looks := [Saw(Observation(h), h1.clock)];
      TimerEnds(h1, deadline, t);
      SameEnd(h, h1, deadline);
      if Observation(h).Some? && !Expired(h1, deadline) && Restarted(Observation(h).value, target) {
      } else if TimerFires(h1, deadline, t) {
        var h2 := h1.(clock := h1.clock + Interval(t));
        SameEnd(h, h2, deadline);
        var more := AwaitRestartedLooks(h2, target, deadline, t);
        looks := looks + more;
      }
    }
  }

  lemma RestartedByLooks(log: seq<Entry>, from: nat, targets: seq<Identity>, proven: int, e: Entry, looks: seq<Entry>)
    requires 0 <= proven < |targets| && from <= |log|
    requires var target := targets[|targets| - proven - 1];
             && IsSent(e, StartCommand(target.pmid)) && StartLog(log + [e], from, targets, proven)
             && looks != [] && ShowsRestarted(Last(looks), target)
    requires forall m :: 0 <= m < |looks| ==> looks[m].Saw?
    ensures var target := targets[|targets| - proven - 1];
            StartLog(log + [e] + looks, from, targets, proven + 1)
  {
    hide ShowsRestarted, StartsAt;
    var target := targets[|targets| - proven - 1];
    var sent := log + [e];
    LooksStartNothing(sent, from, targets, proven, looks);
    var all := sent + looks;
    assert all[|log|] == e && all[|all| - 1] == Last(looks);
    assert StartProvenBy(all, from, target, |log|, |all| - 1);
    assert SeenRestarted(all, from, target);
    assert StartsProven(all, from, targets, proven);
  }

  /** Why a recovery stopped short of its next target. */
  ghost predicate RecoveryCause(targets: seq<Identity>, r: Recovery, from: nat, h': Host, t: Timing)
    requires 0 <= r.recovered < |targets|
  {
    var target := targets[|targets| - r.recovered - 1];
    && h'.log != []
    && var e := Last(h'.log);
       if r.attempted == r.recovered then e.Saw? && !ShowsReady(e, target)
       else
         || (IsSent(e, StartCommand(target.pmid)) && !e.ok)
         || Abandoned(h'.log, from, StartCommand(target.pmid), target, h', t)
  }

  lemma StartWaitGivesUp(log: seq<Entry>, from: nat, p: Identity, e: Entry, looks: seq<Entry>, h': Host, t: Timing)
    requires from <= |log| && IsSent(e, StartCommand(p.pmid)) && e.ok && h'.log == log + [e] + looks
    requires var end := DoneAt(h', e.at + Timeout(t));
             && h'.clock + Interval(t) >= end
             && forall m :: 0 <= m < |looks| ==> looks[m].Saw? && (looks[m].at < end ==> !ShowsRestarted(looks[m], p))
    ensures GaveUp(h'.log, from, StartCommand(p.pmid), p, |log|, h', t)
  {
    hide ShowsRestarted;
  }

  /** One start and its wait, after a look that justifies it. */
  lemma StartRound(h1: Host, targets: seq<Identity>, n: nat, t: Timing, from: nat)
    requires 0 < n <= |targets| && from < |h1.log| && StartLog(h1.log, from, targets, |targets| - n)
    requires ShowsReady(Last(h1.log), targets[n - 1]) && MutationAllowed(targets[n - 1])
    ensures var target := targets[n - 1];
            var (ok, h2) := Start(h1, target);
            && h1.log <= h2.log && StartLog(h2.log, from, targets, |targets| - n) && h2.log != []
            && IsSent(Last(h2.log), StartCommand(target.pmid)) && Last(h2.log).ok == ok
            && var (proven, h3) := AwaitRestarted(h2, target, h2.clock + Timeout(t), t);
               && h2.log <= h3.log && h3.log != []
               && StartLog(h3.log, from, targets, |targets| - n + if proven then 1 else 0)
               && (ok && !proven ==> Abandoned(h3.log, from, StartCommand(target.pmid), target, h3, t))
  {
    hide Start, AwaitRestarted, MutationAllowed, StartLog, GaveUp, ShowsReady, ShowsRestarted, DoneAt, Interval, Timeout;
    var target := targets[n - 1];
    var (ok, h2) := Start(h1, target);
    var e := Sent(StartCommand(target.pmid), ok, h2.clock);
    StartIsJustified(h1.log, from, targets, |targets| - n, n - 1, e);
    var (proven, h3) := AwaitRestarted(h2, target, h2.clock + Timeout(t), t);
    var looks := AwaitRestartedLooks(h2, target, h2.clock + Timeout(t), t);
    AwaitRestartedFrame(h2, target, h2.clock + Timeout(t), t);
    SameEnd(h2, h3, h2.clock + Timeout(t));
    LooksStartNothing(h2.log, from, targets, |targets| - n, looks);
    if proven {
      RestartedByLooks(h1.log, from, targets, |targets| - n, e, looks);
    } else if ok {
      StartWaitGivesUp(h1.log, from, target, e, looks, h3, t);
    }
  }

  lemma NotReadyIsCause(targets: seq<Identity>, n: nat, r: Recovery, from: nat, h': Host, t: Timing)
    requires 0 < n <= |targets| && r.recovered == |targets| - n && r.attempted == r.recovered
    requires h'.log != [] && Last(h'.log).Saw? && !ShowsReady(Last(h'.log), targets[n - 1])
    ensures RecoveryCause(targets, r, from, h', t)
  {
    hide ShowsReady;
  }

  lemma StartIsCause(targets: seq<Identity>, n: nat, r: Recovery, from: nat, h': Host, t: Timing)
    requires 0 < n <= |targets| && r.recovered == |targets| - n && r.attempted == r.recovered + 1 && h'.log != []
    requires || (IsSent(Last(h'.log), StartCommand(targets[n - 1].pmid)) && !Last(h'.log).ok)
             || Abandoned(h'.log, from, StartCommand(targets[n - 1].pmid), targets[n - 1], h', t)
    ensures RecoveryCause(targets, r, from, h', t)
  {
    hide Abandoned;
  }

  lemma {:induction false} StartEachIsProven(h: Host, targets: seq<Identity>, n: nat, r: Recovery, t: Timing, from: nat)
    requires n <= |targets| && r.recovered == |targets| - n && r.attempted == r.recovered && !r.verified
    requires from <= |h.log| && StartLog(h.log, from, targets, r.recovered)
    requires forall p :: p in targets ==> MutationAllowed(p)
    ensures var (r', h') := StartEach(h, targets[..n], r, t);
            && h.log <= h'.log && StartLog(h'.log, from, targets, r'.recovered)
            && (!r'.verified ==> r'.recovered < |targets| && RecoveryCause(targets, r', from, h', t))
    decreases n
  {
    hide Observation, AwaitRestarted, ReadyToStart, Start, StartLog, MutationAllowed, Abandoned, Timeout, RecoveryCause, IsSent;
    var todo := targets[..n];
    if n > 0 {
      var target := Last(todo);
      assert target == targets[n - 1] && Front(todo) == targets[..n - 1] && target in targets;
      var h1 := AfterObservation(h);
      LooksStartNothing(h.log, from, targets, r.recovered, [Saw(Observation(h), h1.clock)]);
      if Observation(h).Some? && ReadyToStart(Observation(h).value, target) {
        StartRound(h1, targets, n, t, from);
        var (ok, h2) := Start(h1, target);
        var (proven, h3) := AwaitRestarted(h2, target, h2.clock + Timeout(t), t);
        var tried := r.(attempted := r.attempted + 1);
        if !ok {
          StartIsCause(targets, n, tried, from, h2, t);
        } else if !proven {
          StartIsCause(targets, n, tried, from, h3, t);
        } else {
          StartEachIsProven(h3, targets, n - 1, tried.(recovered := r.recovered + 1), t, from);
        }
      } else {
        NotReadyIsCause(targets, n, r, from, h1, t);
      }
    }
  }

  /** Over every outside world: each start command was sent just after seeing its
      target stopped with its port free, and each target counted as recovered was seen
      running afresh, alone on its port, after its own start and before any other
      command. A recovery that is not verified has its cause at the next target: the
      last observation does not show it ready, its start failed, or the wait for it was
      given up at the end of its context without a look before that end that would
      have proven it. A recovery without targets sends and sees nothing. */
  lemma RecoverIsProven(h: Host, q: Quiescence, t: Timing)
    ensures var (r, h') := Recover(h, q, t);
            && h.log <= h'.log
            && StartLog(h'.log, |h.log|, if Targets(q).Some? then Targets(q).value else [], r.recovered)
            && (Targets(q).Some? && !r.verified ==>
                  r.recovered < |Targets(q).value| && RecoveryCause(Targets(q).value, r, |h.log|, h', t))
            && (Targets(q).None? ==> h'.log == h.log && (r.verified <==> q == Quiescence([], [], true)))
  {
    hide StartEach, Acknowledged, RecoveryCause;
    if Targets(q).Some? {
      var targets := Targets(q).value;
      TargetsAreAllowed(q);
      assert targets[..|targets|] == targets;
      StartEachIsProven(h, targets, |targets|, Recovery(0, 0, false, RecoveryUnproven), t, |h.log|);
    }
  }

  lemma TargetsAreAllowed(q: Quiescence)
    requires Targets(q).Some?
    ensures forall p :: p in Targets(q).value ==> MutationAllowed(p)
    ensures q.evidence != []
  {
  }
}
