/** Quiesce and Recover against a truthful PM2: what success means for the process
    table, that a prompt PM2 always succeeds, and what a second recovery does. */
module Pm2RoundTrip {
  import opened Basics
  import opened Paths
  import opened Pm2Correlation
  import opened Pm2Snapshot
  import opened Pm2Quiescence
  import opened Pm2Safety
  import opened Pm2World

  /** A host that tells the truth and whose fresh ids are fresh. */
  ghost predicate Honest(h: Host) {
    && !h.conduct.Hostile?
    && Healthy(h.world)
    && h.nextPid > 0 && h.nextTicks > 0
    && (forall pid :: pid in h.world.proc ==> pid < h.nextPid && h.world.proc[pid].startTicks < h.nextTicks)
    && (forall s :: s in h.world.sockets ==> s.pid < h.nextPid)
    && (h.conduct.Prompt? ==> h.cancelAt.None?)
  }

  /** The identities were taken before anything was started, so they are older than
      any id or tick handed out since. */
  ghost predicate Older(ps: seq<Identity>, h: Host) {
    forall k :: 0 <= k < |ps| ==> ps[k].pid < h.nextPid && ps[k].startTicks < h.nextTicks
  }

  lemma TruthfulObservation(h: Host)
    requires Honest(h)
    ensures Observation(h).Some? ==> Observation(h).value == h.world
    ensures h.conduct.Prompt? ==> Observation(h) == Some(h.world)
    ensures Honest(AfterObservation(h))
  {
    assert Restrict(h.world.proc, OnlinePids(h.world.records)) == h.world.proc;
  }

  function StopState(n: nat, k: nat): (st: seq<Service>)
    requires k <= n
    ensures |st| == n && forall j :: 0 <= j < n ==> st[j] == if j < k then Down else Running
  {
    seq(n, j => if j < k then Down else Running)
  }

  /** On an honest host a stop leaves the host honest and, when it reports success,
      takes the service down; a prompt host always reports success. */
  lemma HonestStop(h: Host, w0: Snapshot, ps: seq<Identity>, k: nat)
    requires Honest(h) && Selection(w0, ps) && k < |ps| && MutationAllowed(ps[k])
    requires Related(w0, h.world, ps, StopState(|ps|, k))
    ensures var (ok, h') := Stop(h, ps[k]);
            && (ok ==> Honest(h') && Related(w0, h'.world, ps, StopState(|ps|, k + 1)))
            && (h.conduct.Prompt? ==> ok)
            && h'.conduct == h.conduct && h'.nextPid == h.nextPid && h'.nextTicks == h.nextTicks
  {
    hide Related, Healthy, Selection, StopEffect;
    var st := StopState(|ps|, k);
    StopStep(w0, h.world, ps, st, k);
    assert st[k := Down] == StopState(|ps|, k + 1);
    StopShrinks(h.world, ps[k].pmid);
    assert Healthy(StopEffect(h.world, ps[k].pmid)) by {
      RelatedIsHealthy(w0, StopEffect(h.world, ps[k].pmid), ps, StopState(|ps|, k + 1));
    }
  }

  lemma RelatedIsHealthy(w0: Snapshot, w: Snapshot, ps: seq<Identity>, st: seq<Service>)
    requires Related(w0, w, ps, st)
    ensures Healthy(w)
  {
  }

  lemma StopShrinks(w: Snapshot, pmid: int)
    ensures var v := StopEffect(w, pmid);
            && (forall pid :: pid in v.proc ==> pid in w.proc && v.proc[pid] == w.proc[pid])
            && (forall s :: s in v.sockets ==> s in w.sockets)
  {
  }

  /** A stop proof on an honest host is about the world as it is; a prompt host gives
      it at the first poll. */
  lemma {:induction false} HonestStopProof(h: Host, target: Identity, deadline: nat, t: Timing)
    requires Honest(h)
    ensures var (proven, h') := AwaitStopped(h, target, deadline, t);
            && Honest(h') && h'.world == h.world && h'.conduct == h.conduct
            && h'.nextPid == h.nextPid && h'.nextTicks == h.nextTicks
            && (h.conduct.Prompt? && h.clock < deadline && StoppedAndReleased(h.world, target) ==> proven)
    decreases if h.clock < deadline then deadline - h.clock else 0
  {
    hide Observation, StoppedAndReleased, Healthy;
    TruthfulObservation(h);
    var h1 := AfterObservation(h);
    if TimerFires(h1, deadline, t) {
      HonestStopProof(h1.(clock := h1.clock + Interval(t)), target, deadline, t);
    }
  }

  lemma {:induction false} HonestRestartProof(h: Host, target: Identity, deadline: nat, t: Timing)
    requires Honest(h)
    ensures var (proven, h') := AwaitRestarted(h, target, deadline, t);
            && Honest(h') && h'.world == h.world && h'.conduct == h.conduct
            && h'.nextPid == h.nextPid && h'.nextTicks == h.nextTicks
            && (proven ==> Restarted(h.world, target))
            && (h.conduct.Prompt? && h.clock < deadline && Restarted(h.world, target) ==> proven)
    decreases if h.clock < deadline then deadline - h.clock else 0
  {
    hide Observation, Restarted, Healthy;
    if !Expired(h, deadline) {
      TruthfulObservation(h);
      var h1 := AfterObservation(h);
      if TimerFires(h1, deadline, t) {
        HonestRestartProof(h1.(clock := h1.clock + Interval(t)), target, deadline, t);
      }
    }
  }

  /** With the first `k` services down, correlating the world gives the others. */
  lemma CorrelatedAfterStops(w0: Snapshot, w: Snapshot, ps: seq<Identity>, k: nat)
    requires Selection(w0, ps) && k < |ps|
    requires Related(w0, w, ps, StopState(|ps|, k))
    ensures Correlated(w) == Ok(ps[k..])
  {
    hide Related, Selection, Correlated;
    var st, live := StopState(|ps|, k), ps[k..];
    assert Ascending(ps) by { SelectionAscends(w0, ps); }
    forall x | x in live ensures exists j :: 0 <= j < |ps| && !st[j].Down? && x == Refresh(ps[j], st[j]) {
      var i :| 0 <= i < |live| && live[i] == x;
      assert x == Refresh(ps[k + i], st[k + i]);
    }
    forall j | 0 <= j < |ps| && !st[j].Down? ensures Refresh(ps[j], st[j]) in live {
      assert live[j - k] == ps[j];
    }
    CorrelatedWorld(w0, w, ps, st, live);
  }

  lemma SelectionAscends(w0: Snapshot, ps: seq<Identity>)
    requires Selection(w0, ps)
    ensures Ascending(ps)
  {
  }

  lemma AllDownIsProven(w0: Snapshot, w: Snapshot, ps: seq<Identity>)
    requires Selection(w0, ps) && Related(w0, w, ps, StopState(|ps|, |ps|))
    ensures AllStoppedAndReleased(w, ps)
  {
    forall p | p in ps ensures StoppedAndReleased(w, p) {
      var k :| 0 <= k < |ps| && ps[k] == p;
      DownIsProven(w0, w, ps, StopState(|ps|, |ps|), k);
    }
  }

  /** The stop loop on an honest host: success means that exactly the selected
      services are down, and a prompt host always succeeds. */
  lemma {:induction false} HonestStopEach(h: Host, w0: Snapshot, ps: seq<Identity>, k: nat, stopped: Quiescence, t: Timing)
    requires Honest(h) && Selection(w0, ps) && k <= |ps|
    requires Related(w0, h.world, ps, StopState(|ps|, k))
    requires forall p :: p in ps ==> MutationAllowed(p)
    requires stopped.processes == ps && Older(ps, h)
    ensures var (q, code, h') := StopEach(h, ps[k..], stopped, t);
            && (code.Quiesced? ==> Honest(h') && h'.conduct == h.conduct && Older(ps, h'))
            && (code.Quiesced? ==> Related(w0, h'.world, ps, StopState(|ps|, |ps|)))
            && (h.conduct.Prompt? ==> code.Quiesced?)
    decreases |ps| - k
  {
    hide Honest, Related, Selection, Observation, Correlated, StoppedAndReleased, Stop, AwaitStopped, Older;
    TruthfulObservation(h);
    var h1 := AfterObservation(h);
    if k == |ps| {
      AllDownIsProven(w0, h.world, ps);
      AfterObservationKeeps(h, ps);
    } else {
      var target := ps[k];
      assert ps[k..][0] == target && ps[k..][1..] == ps[k + 1..];
      CorrelatedAfterStops(w0, h.world, ps, k);
      AfterObservationKeeps(h, ps);
      HonestStop(h1, w0, ps, k);
      var (ok, h2) := Stop(h1, target);
      if ok {
        HonestStopProof(h2, target, h2.clock + Timeout(t), t);
        DownIsProven(w0, h2.world, ps, StopState(|ps|, k + 1), k);
        var (proven, h3) := AwaitStopped(h2, target, h2.clock + Timeout(t), t);
        if proven {
          OlderStays(ps, h, h3);
          var next := stopped.(evidence := stopped.evidence + [StopEvidence(target, true)]);
          HonestStopEach(h3, w0, ps, k + 1, next, t);
        }
      }
    }
  }

  lemma AfterObservationKeeps(h: Host, ps: seq<Identity>)
    requires Honest(h) && Older(ps, h)
    ensures Honest(AfterObservation(h)) && Older(ps, AfterObservation(h))
    ensures AfterObservation(h).conduct == h.conduct
    ensures AfterObservation(h).nextPid == h.nextPid && AfterObservation(h).nextTicks == h.nextTicks
  {
  }

  lemma OlderStays(ps: seq<Identity>, h: Host, h': Host)
    requires Older(ps, h) && h.nextPid <= h'.nextPid && h.nextTicks <= h'.nextTicks
    ensures Older(ps, h')
  {
  }

  /** A completed quiesce of an honest PM2 stopped exactly the correlated services,
      released their ports and touched nothing else; a prompt PM2 with a correlated
      world always completes. */
  lemma QuiesceStopsExactlyTheSelected(h: Host, t: Timing)
    requires Honest(h)
    ensures var (q, code, h') := Quiesce(h, t);
            && (code.Quiesced? ==>
                  && Selection(h.world, q.processes)
                  && Honest(h') && h'.conduct == h.conduct && Older(q.processes, h')
                  && Related(h.world, h'.world, q.processes, StopState(|q.processes|, |q.processes|))
                  && AllStoppedAndReleased(h'.world, q.processes))
            && (h.conduct.Prompt? && Correlated(h.world).Ok? ==> code.Quiesced?)
  {
    hide Honest, Related, Selection, Observation, Correlated, AllStoppedAndReleased, Older;
    TruthfulObservation(h);
    var h1 := AfterObservation(h);
    if Observation(h).Some? && Correlated(h.world).Ok? {
      var ps := Correlated(h.world).value;
      HonestIsHealthy(h);
      SelectionHolds(h.world, ps);
      SelectedIsOlder(h, ps);
      AfterObservationKeeps(h, ps);
      ObservationIsValid(h);
      CorrelatedIsRecoverable(h.world, ps);
      assert StopState(|ps|, 0) == seq(|ps|, _ => Running);
      if ps != [] {
        var stopped := Quiescence(ps, [], false);
        assert ps[0..] == ps;
        HonestStopEach(h1, h.world, ps, 0, stopped, t);
        var (q, code, h') := StopEach(h1, ps, stopped, t);
        StopEachIsStopRun(h1, ps, stopped, t, h1.commands);
        if code.Quiesced? {
          AllDownIsProven(h.world, h'.world, ps);
        }
      } else {
        TruthfulObservation(h1);
        AfterObservationKeeps(h1, ps);
        assert StopState(0, 0) == seq(0, _ => Running);
        assert AllStoppedAndReleased(h.world, []) by { NothingToStop(h.world); }
      }
    }
  }

  lemma NothingToStop(w: Snapshot)
    ensures AllStoppedAndReleased(w, [])
  {
  }

  lemma HonestIsHealthy(h: Host)
    requires Honest(h)
    ensures Healthy(h.world)
  {
  }

  lemma SelectedIsOlder(h: Host, ps: seq<Identity>)
    requires Honest(h) && Selection(h.world, ps)
    ensures Older(ps, h)
  {
    hide Healthy, Correlated, FollowsContract, DistinctServices;
    forall k | 0 <= k < |ps| ensures ps[k].pid < h.nextPid && ps[k].startTicks < h.nextTicks {
      SelectedProc(h.world, ps, k);
    }
  }

  // -------------------------------------------------------------- recover

  /** The first `k` services are still down, the others are reborn. */
  ghost predicate RebornFrom(st: seq<Service>, ps: seq<Identity>, k: nat) {
    && |st| == |ps| && k <= |ps|
    && (forall j :: 0 <= j < k ==> st[j].Down?)
    && (forall j :: k <= j < |ps| ==> RebornFresh(st[j], ps[j]))
  }

  predicate RebornFresh(s: Service, p: Identity) {
    s.Reborn? && s.ticks != 0 && s.pid != p.pid && s.ticks != p.startTicks
  }

  /** A start on an honest host that reports success brings the service back under a
      process id nobody uses; a prompt host succeeds, with a fresh id and ticks. */
  lemma HonestStart(h: Host, w0: Snapshot, ps: seq<Identity>, st: seq<Service>, k: nat)
    requires Honest(h) && Selection(w0, ps) && |st| == |ps| && Related(w0, h.world, ps, st)
    requires k < |ps| && st[k].Down? && MutationAllowed(ps[k]) && Older(ps, h)
    ensures var (ok, h') := Start(h, ps[k]);
            && (ok ==> Honest(h') && FreshTicks(h) != 0)
            && (ok ==> Related(w0, h'.world, ps, st[k := Reborn(FreshPid(h), FreshTicks(h))]))
            && (h.conduct.Prompt? ==> ok && RebornFresh(Reborn(FreshPid(h), FreshTicks(h)), ps[k]))
            && h'.conduct == h.conduct && Older(ps, h')
  {
    hide Related, Healthy, Selection, StartEffect;
    var pid, ticks := FreshPid(h), FreshTicks(h);
    assert pid > 0 && !InUse(h.world, pid) && ticks != 0;
    StartStep(w0, h.world, ps, st, k, pid, ticks);
    var w := StartEffect(h.world, ps[k].pmid, pid, ticks);
    RelatedIsHealthy(w0, w, ps, st[k := Reborn(pid, ticks)]);
    StartGrows(h.world, ps[k].pmid, pid, ticks);
  }

  lemma StartGrows(w: Snapshot, pmid: int, pid: int, ticks: nat)
    ensures var v := StartEffect(w, pmid, pid, ticks);
            && (forall q :: q in v.proc ==> (q == pid && v.proc[q].startTicks == ticks) || (q in w.proc && v.proc[q] == w.proc[q]))
            && (forall s :: s in v.sockets ==> s in w.sockets || s.pid == pid)
  {
  }

  /** One round of the recovery loop, from the observation to the proof. */
  ghost function StartOne(h: Host, target: Identity, t: Timing): (bool, Host) {
    var h1 := AfterObservation(h);
    var (ok, h2) := Start(h1, target);
    if ok then AwaitRestarted(h2, target, h2.clock + Timeout(t), t) else (false, h2)
  }

  /** A round that succeeds on an honest host brings one more service back; a prompt
      host always succeeds. */
  lemma HonestStartOne(h: Host, w0: Snapshot, ps: seq<Identity>, st: seq<Service>, k: nat, t: Timing)
    requires Honest(h) && Selection(w0, ps) && |st| == |ps| && Related(w0, h.world, ps, st)
    requires k < |ps| && RebornFrom(st, ps, k + 1) && Older(ps, h) && MutationAllowed(ps[k])
    ensures var (proven, h') := StartOne(h, ps[k], t);
            var h1 := AfterObservation(h);
            var next := st[k := Reborn(FreshPid(h1), FreshTicks(h1))];
            && h'.conduct == h.conduct
            && (proven ==> Honest(h') && Older(ps, h') && Related(w0, h'.world, ps, next) && RebornFrom(next, ps, k))
            && (h.conduct.Prompt? ==> proven)
  {
    hide Honest, Related, Selection, Observation, Start, AwaitRestarted, Older, FreshPid, FreshTicks, Restarted;
    var h1 := AfterObservation(h);
    AfterObservationKeeps(h, ps);
    HonestStart(h1, w0, ps, st, k);
    var (ok, h2) := Start(h1, ps[k]);
    if ok {
      var next := st[k := Reborn(FreshPid(h1), FreshTicks(h1))];
      HonestRestartProof(h2, ps[k], h2.clock + Timeout(t), t);
      var (proven, h3) := AwaitRestarted(h2, ps[k], h2.clock + Timeout(t), t);
      OlderStays(ps, h2, h3);
      RebornWhenProven(w0, h2.world, ps, next, k);
    }
  }

  lemma RebornWhenProven(w0: Snapshot, w: Snapshot, ps: seq<Identity>, st: seq<Service>, k: nat)
    requires Selection(w0, ps) && |st| == |ps| && Related(w0, w, ps, st) && k < |ps| && st[k].Reborn? && st[k].ticks != 0
    ensures Restarted(w, ps[k]) <==> RebornFresh(st[k], ps[k])
  {
    hide Related, Selection, Restarted;
    RebornIsProven(w0, w, ps, st, k);
  }

  /** The recovery loop on an honest host: success means every service is back under
      a new process id and new start ticks, and a prompt host always succeeds. */
  lemma {:induction false} HonestStartEach(h: Host, w0: Snapshot, ps: seq<Identity>, st: seq<Service>, k: nat, r: Recovery, t: Timing)
    returns (st': seq<Service>)
    requires Honest(h) && Selection(w0, ps) && |st| == |ps| && Related(w0, h.world, ps, st)
    requires k <= |ps| && RebornFrom(st, ps, k) && Older(ps, h)
    requires forall p :: p in ps ==> MutationAllowed(p)
    requires !r.verified
    ensures var (r', h') := StartEach(h, ps[..k], r, t);
            && (r'.verified ==> Honest(h') && RebornFrom(st', ps, 0) && Related(w0, h'.world, ps, st'))
            && (h.conduct.Prompt? ==> r'.verified)
    decreases k
  {
    hide Honest, Related, Selection, Observation, ReadyToStart, Start, AwaitRestarted, Older, FreshPid, FreshTicks,
         AfterObservation, MutationAllowed;
    st' := st;
    if k > 0 {
      var target := ps[k - 1];
      assert Last(ps[..k]) == target && Front(ps[..k]) == ps[..k - 1];
      TruthfulObservation(h);
      DownIsReady(w0, h.world, ps, st, k - 1);
      HonestStartOne(h, w0, ps, st, k - 1, t);
      var (proven, h3) := StartOne(h, target, t);
      if proven && Observation(h).Some? {
        var h1 := AfterObservation(h);
        var counted := r.(attempted := r.attempted + 1, recovered := r.recovered + 1);
        st' := HonestStartEach(h3, w0, ps, st[k - 1 := Reborn(FreshPid(h1), FreshTicks(h1))], k - 1, counted, t);
      }
    }
  }

  lemma DownIsReady(w0: Snapshot, w: Snapshot, ps: seq<Identity>, st: seq<Service>, k: nat)
    requires Selection(w0, ps) && |st| == |ps| && Related(w0, w, ps, st) && k < |ps| && st[k].Down?
    ensures ReadyToStart(w, ps[k])
  {
    hide Related, Selection, ReadyToStart;
    DownIsProven(w0, w, ps, st, k);
  }

  function Refreshed(ps: seq<Identity>, st: seq<Service>): (ids: seq<Identity>)
    requires |st| == |ps|
    ensures |ids| == |ps|
  {
    seq(|ps|, k requires 0 <= k < |ps| => Refresh(ps[k], st[k]))
  }

  lemma CorrelatedAfterRecovery(w0: Snapshot, w: Snapshot, ps: seq<Identity>, st: seq<Service>)
    requires Selection(w0, ps) && Related(w0, w, ps, st) && RebornFrom(st, ps, 0) && ps != []
    ensures Correlated(w) == Ok(Refreshed(ps, st))
  {
    hide Related, Selection, Correlated;
    var live := Refreshed(ps, st);
    SelectionAscends(w0, ps);
    forall x | x in live ensures exists j :: 0 <= j < |ps| && !st[j].Down? && x == Refresh(ps[j], st[j]) {
      var j :| 0 <= j < |live| && live[j] == x;
      assert st[j].Reborn?;
    }
    forall j | 0 <= j < |ps| && !st[j].Down? ensures Refresh(ps[j], st[j]) in live {
      assert live[j] == Refresh(ps[j], st[j]);
    }
    CorrelatedWorld(w0, w, ps, st, live);
  }

  /** The round trip: when both calls succeed against an honest PM2, the world is the
      original one in which only the selected services run under a new process id and
      new start ticks, and correlating it selects the same services again. A prompt
      PM2 with a correlated world always gets there. */
  lemma RoundTrip(h: Host, t: Timing) returns (st: seq<Service>)
    requires Honest(h)
    ensures var (q, code, h1) := Quiesce(h, t);
            var (r, h2) := Recover(h1, q, t);
            && (code.Quiesced? && r.verified ==>
                  && RebornFrom(st, q.processes, 0)
                  && Related(h.world, h2.world, q.processes, st)
                  && Correlated(h.world) == Ok(q.processes)
                  && Correlated(h2.world) == Ok(Refreshed(q.processes, st)))
            && (h.conduct.Prompt? && Correlated(h.world).Ok? ==> code.Quiesced? && r.verified)
  {
    hide Honest, Related, Observation, Correlated, AllStoppedAndReleased, Older, Quiesce, StopEach, StartEach;
    var (q, code, h1) := Quiesce(h, t);
    st := StopState(|q.processes|, |q.processes|);
    QuiesceStopsExactlyTheSelected(h, t);
    QuiesceSafety(h, t);
    if code.Quiesced? {
      if q.processes == [] {
        NothingSelected(h.world, h1.world, st);
      } else {
        EvidenceIsRecoverable(h, t);
        var ps := q.processes;
        assert ps[..|ps|] == ps;
        RecoverableIsAllowed(ps);
        st := HonestStartEach(h1, h.world, ps, st, |ps|, Recovery(0, 0, false, RecoveryUnproven), t);
        var (r, h2) := Recover(h1, q, t);
        if r.verified {
          CorrelatedAfterRecovery(h.world, h2.world, ps, st);
        }
      }
    }
  }

  lemma RecoverableIsAllowed(ps: seq<Identity>)
    requires forall p :: p in ps ==> RecoverableIdentity(p)
    ensures forall p :: p in ps ==> MutationAllowed(p)
  {
  }

  /** With nothing selected, a related world correlates to nothing as well. */
  lemma NothingSelected(w0: Snapshot, w: Snapshot, st: seq<Service>)
    requires Selection(w0, []) && Related(w0, w, [], st)
    ensures Correlated(w) == Ok([])
  {
    hide Healthy;
    assert forall r: Record :: !IsSelected([], r.id);
    assert forall s :: !RebornSocket([], st, s) && (KeptSocket(w0, [], st, s) <==> s in w0.sockets);
    HealthyMeans(w0);
    HealthyMeans(w);
    CorrelationMeans(w0.records, w0.sockets, w0.proc, []);
    CorrelationMeans(w.records, w.sockets, w.proc, []);
    SameMembersSameEmptiness(w.sockets, w0.sockets);
    assert forall r: Record :: r in w.records <==> r in w0.records;
    assert forall r: Record :: Qualifies(r, w.sockets) <==> Qualifies(r, w0.sockets);
  }

  // ------------------------------------------------------- second recovery

  ghost predicate IsOnline(w: Snapshot, pmid: int) {
    exists i :: 0 <= i < |w.records| && w.records[i].id == pmid && w.records[i].status.Online?
  }

  lemma NeverLies(h: Host)
    requires !h.conduct.Hostile?
    ensures Observation(h).Some? ==> Observation(h).value.records == h.world.records
    ensures AfterObservation(h).conduct == h.conduct
  {
  }

  lemma OnlineIsNotReady(s: Snapshot, target: Identity)
    requires IsOnline(s, target.pmid)
    ensures !ReadyToStart(s, target)
  {
  }

  lemma {:induction false} ProofShowsOnline(h: Host, target: Identity, deadline: nat, t: Timing)
    requires !h.conduct.Hostile?
    ensures AwaitRestarted(h, target, deadline, t).0 ==> IsOnline(h.world, target.pmid)
    decreases if h.clock < deadline then deadline - h.clock else 0
  {
    hide Observation;
    if !Expired(h, deadline) {
      NeverLies(h);
      var h1 := AfterObservation(h);
      if TimerFires(h1, deadline, t) {
        ProofShowsOnline(h1.(clock := h1.clock + Interval(t)), target, deadline, t);
      }
    }
  }

  lemma StartKeepsOnline(w: Snapshot, pmid: int, other: int, pid: int, ticks: nat)
    requires IsOnline(w, pmid)
    ensures IsOnline(StartEffect(w, other, pid, ticks), pmid)
  {
    var i :| 0 <= i < |w.records| && w.records[i].id == pmid && w.records[i].status.Online?;
    var v := StartEffect(w, other, pid, ticks);
    assert v.records[i].id == pmid && v.records[i].status.Online?;
  }

  lemma {:induction false} StartEachKeepsOnline(h: Host, todo: seq<Identity>, r: Recovery, t: Timing, pmid: int)
    requires !h.conduct.Hostile? && IsOnline(h.world, pmid)
    ensures IsOnline(StartEach(h, todo, r, t).1.world, pmid)
    ensures StartEach(h, todo, r, t).1.conduct == h.conduct
    decreases |todo|
  {
    hide Observation, ReadyToStart, IsOnline, StartEffect, AwaitRestarted;
    if todo != [] {
      var target := Last(todo);
      NeverLies(h);
      var h1 := AfterObservation(h);
      StartKeepsOnline(h1.world, pmid, target.pmid, FreshPid(h1), FreshTicks(h1));
      var (ok, h2) := Start(h1, target);
      AwaitRestartedFrame(h2, target, h2.clock + Timeout(t), t);
      var (proven, h3) := AwaitRestarted(h2, target, h2.clock + Timeout(t), t);
      var counted := r.(attempted := r.attempted + 1, recovered := r.recovered + 1);
      StartEachKeepsOnline(h3, Front(todo), counted, t, pmid);
    }
  }

  lemma FirstTargetStaysOnline(h: Host, todo: seq<Identity>, t: Timing)
    requires !h.conduct.Hostile? && todo != []
    requires StartEach(h, todo, Recovery(0, 0, false, RecoveryUnproven), t).0.recovered > 0
    ensures var h' := StartEach(h, todo, Recovery(0, 0, false, RecoveryUnproven), t).1;
            IsOnline(h'.world, Last(todo).pmid) && h'.conduct == h.conduct
  {
    hide Observation, ReadyToStart, IsOnline, Start, AwaitRestarted;
    var target := Last(todo);
    NeverLies(h);
    var h1 := AfterObservation(h);
    StartKeepsConduct(h1, target);
    var (ok, h2) := Start(h1, target);
    ProofShowsOnline(h2, target, h2.clock + Timeout(t), t);
    AwaitRestartedFrame(h2, target, h2.clock + Timeout(t), t);
    var (proven, h3) := AwaitRestarted(h2, target, h2.clock + Timeout(t), t);
    assert ok && proven;
    StartEachKeepsOnline(h3, Front(todo), Recovery(1, 1, false, RecoveryUnproven), t, target.pmid);
  }

  lemma StartKeepsConduct(h: Host, target: Identity)
    ensures Start(h, target).1.conduct == h.conduct
  {
  }

  /** Once a recovery restarted even one service, calling it again on the same
      evidence fails before any command: the last target is already online. This
      needs no more than observations that do not lie. */
  lemma SecondRecoveryFailsAtOnce(h: Host, q: Quiescence, t: Timing)
    requires !h.conduct.Hostile? && Targets(q).Some? && !(q.noopVerified && q.processes == [] && q.evidence == [])
    requires Recover(h, q, t).0.recovered > 0
    ensures var h1 := Recover(h, q, t).1;
            var (r, h2) := Recover(h1, q, t);
            !r.verified && r.attempted == 0 && h2.commands == h1.commands
  {
    hide Observation, ReadyToStart, IsOnline, Start, AwaitRestarted, Acknowledged;
    var targets := Targets(q).value;
    TargetsNotEmpty(q);
    FirstTargetStaysOnline(h, targets, t);
    var h1 := Recover(h, q, t).1;
    NeverLies(h1);
    if Observation(h1).Some? {
      OnlineSeen(h1.world, Observation(h1).value, Last(targets).pmid);
      OnlineIsNotReady(Observation(h1).value, Last(targets));
    }
  }

  /** A recovery, a first or a repeated one, sends a command exactly when its first
      observation succeeds and the last target is really down with its port free. */
  lemma RecoverySendsExactly(h: Host, q: Quiescence, t: Timing)
    requires !h.conduct.Hostile? && Targets(q).Some?
    ensures var (r, h') := Recover(h, q, t);
            var ready := Observation(h).Some? && ReadyToStart(h.world, Last(Targets(q).value));
            && (h'.commands != h.commands <==> ready)
            && (r.attempted > 0 <==> ready)
  {
    hide Observation, ReadyToStart, AwaitRestarted, Acknowledged;
    var targets := Targets(q).value;
    TargetsNotEmpty(q);
    RecoverableTargets(q);
    SeesSockets(h, Last(targets));
    FirstStartSends(h, targets, t);
  }

  lemma FirstStartSends(h: Host, todo: seq<Identity>, t: Timing)
    requires todo != [] && forall p :: p in todo ==> MutationAllowed(p)
    ensures var (r, h') := StartEach(h, todo, Recovery(0, 0, false, RecoveryUnproven), t);
            var ready := Observation(h).Some? && ReadyToStart(Observation(h).value, Last(todo));
            && (h'.commands != h.commands <==> ready)
            && (r.attempted > 0 <==> ready)
  {
    hide Observation, ReadyToStart, AwaitRestarted, Start, MutationAllowed;
    StartEachSafety(h, todo, Recovery(0, 0, false, RecoveryUnproven), t);
    var (r, h') := StartEach(h, todo, Recovery(0, 0, false, RecoveryUnproven), t);
    assert |h'.commands| == |h.commands| + r.attempted;
    if Observation(h).Some? && ReadyToStart(Observation(h).value, Last(todo)) {
      var (ok, h2) := Start(AfterObservation(h), Last(todo));
      if ok {
        var (proven, h3) := AwaitRestarted(h2, Last(todo), h2.clock + Timeout(t), t);
        if proven {
          StartEachSafety(h3, Front(todo), Recovery(1, 1, false, RecoveryUnproven), t);
        }
      }
    }
  }

  lemma RecoverableTargets(q: Quiescence)
    requires Targets(q).Some?
    ensures forall p :: p in Targets(q).value ==> MutationAllowed(p)
    ensures q.evidence != []
  {
  }

  lemma SeesSockets(h: Host, target: Identity)
    requires !h.conduct.Hostile?
    ensures Observation(h).Some? ==> (ReadyToStart(Observation(h).value, target) <==> ReadyToStart(h.world, target))
  {
    hide Paths.SamePath, ExactRecord;
    if Observation(h).Some? {
      assert Observation(h).value.records == h.world.records && Observation(h).value.sockets == h.world.sockets;
    }
  }

  lemma OnlineSeen(w: Snapshot, s: Snapshot, pmid: int)
    requires s.records == w.records && IsOnline(w, pmid)
    ensures IsOnline(s, pmid)
  {
  }

  lemma TargetsNotEmpty(q: Quiescence)
    requires Targets(q).Some?
    ensures Targets(q).value != []
  {
  }
}
