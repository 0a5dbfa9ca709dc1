/** Runs of a hand-over that end worse than one might hope. */
module HandoffWitness {
  import opened Basics
  import opened Paths
  import opened Pm2Correlation
  import opened Pm2Snapshot
  import opened Pm2Quiescence
  import opened Pm2Safety
  import opened Pm2World
  import opened Pm2RoundTrip
  import opened Handoff

  function PromptHost(world: Snapshot): Host {
    Host(Prompt, _ => Reply(None, None, map[], 0, 0, false, false, 0, 0, false), 0, 0, None, world, 1000, 1000, [], [])
  }

  // ------------------------------------- a stop that nobody takes back

  function IdleRecord(): Record {
    Record(1, 0, WS_CONTRACT.name, WS_CONTRACT.cwd, WS_CONTRACT.pm2ExecPath, Status.Stopped)
  }

  /** Call 0 revalidates, call 2 stops the container and takes ten units. */
  function IdleSite(): Site {
    Site(PromptHost(Snapshot([IdleRecord()], [], map[])), Handoff.Running,
         call => DockerReply(true, true, if call == 2 then 10 else 0, None), 0, [])
  }

  lemma IdleCorrelates()
    ensures Correlated(Snapshot([IdleRecord()], [], map[])) == Ok([])
  {
    var r := IdleRecord();
    assert [r][0] == r;
    CorrelationMeans([r], [], map[], []);
    ContractsHaveDistinctNames();
    MatchesContractMeans(r);
    assert MatchesContract(r);
  }

  lemma IdleQuiesces(h: Host, t: Timing)
    requires h.conduct.Prompt? && h.world == Snapshot([IdleRecord()], [], map[])
    ensures var (q, code, h') := Quiesce(h, t);
            code.Quiesced? && q == Quiescence([], [], true) && h'.clock == h.clock
  {
    hide Correlated;
    IdleCorrelates();
    assert IdleRecord().cwd != "" && IdleRecord().execPath != "" && IdleRecord().name != "";
    assert Restrict(h.world.proc, OnlinePids(h.world.records)) == h.world.proc;
  }

  /** A cancellation during a container stop that succeeds fails the hand-over and
      leaves the container halted. */
  lemma CancelledStopStaysHalted(t: Timing)
    ensures var (b, s') := Begin(IdleSite(), Some(5), true, StopContainer, t);
            b == Begun(None, Some(DispositionFailed)) && s'.container.Halted?
  {
    hide Quiesce, Recover;
    var (valid, s1) := Revalidate(IdleSite());
    IdleQuiesces(s1.host.(cancelAt := Some(5)), t);
  }

  // ----------------------------- services nobody holds a lease for

  function OnlineWorld(): Snapshot {
    Snapshot(
      [Record(1, 100, WS_CONTRACT.name, WS_CONTRACT.cwd, WS_CONTRACT.pm2ExecPath, Online)],
      [SocketOwner(100, 4550)],
      map[100 := ProcIdentity(WS_CONTRACT.cwd, NODE_RUNTIME, 7)])
  }

  /** Revalidation succeeds, the container stop fails, and the recovery context has
      already ended. */
  function OnlineSite(): Site {
    Site(PromptHost(OnlineWorld()), Handoff.Running,
         call => DockerReply(call == 0, false, 0, Some(0)), 0, [])
  }

  lemma SamePathReflexive(p: string)
    ensures SamePath(p, p)
  {
  }

  lemma OnlineIsHonest()
    ensures Honest(PromptHost(OnlineWorld()))
  {
    var r := OnlineWorld().records[0];
    assert r.cwd != "" && r.execPath != "" && r.name != "";
    SamePathReflexive(r.cwd);
  }

  lemma OnlineCorrelates()
    ensures exists id :: Correlated(OnlineWorld()) == Ok([id])
  {
    var w := OnlineWorld();
    var r := w.records[0];
    ContractsHaveDistinctNames();
    assert ContractOf(r.name, r.cwd) == Some(WS_CONTRACT);
    assert w.sockets[0] == SocketOwner(100, 4550);
    assert Qualifies(r, w.sockets) && Proven(r, w.proc);
    var id := IdentityOf(r, w.proc);
    assert [id][0] == id;
    CorrelationMeans(w.records, w.sockets, w.proc, [id]);
  }

  lemma EndedRecoveryProvesNothing(h: Host, q: Quiescence, t: Timing)
    requires q.processes != [] && Expired(h, 0)
    requires h.cancelAt.Some? && h.cancelAt.value <= h.clock
    ensures !Recover(h, q, t).0.verified
  {
    hide Acknowledged, Observation, ReadyToStart, Restarted;
    if Targets(q).Some? {
      TargetsNotEmpty(q);
    }
  }

  /** A container stop that fails after PM2 was quiesced, followed by a recovery that
      cannot be proven, leaves stopped services and no lease to retry with. */
  lemma UnprovenRecoveryLeavesNoLease(t: Timing)
    ensures var (b, s') := Begin(OnlineSite(), None, true, StopContainer, t);
            && b == Begun(None, Some(DispositionFailed))
            && Recoveries(s'.trace) == 1 && Last(s'.trace).RecoverRan?
            && Last(s'.trace).q.evidence != [] && !Last(s'.trace).verified
  {
    hide Quiesce, Recover, Correlated, Honest, Related, Older;
    var s := OnlineSite();
    var (valid, s1) := Revalidate(s);
    OnlineIsHonest();
    OnlineCorrelates();
    assert s1.host == s.host && s1.host.(cancelAt := None) == s.host;
    QuiesceStopsExactlyTheSelected(s.host, t);
    SuccessIsComplete(s.host, t);
    var (q, code, s2) := QuiescePm2(s1, None, t);
    SelectionOf(OnlineWorld(), q.processes);
    var (stopped, s3) := StopIt(s2);
    EndedRecoveryProvesNothing(s3.host.(cancelAt := RecoveryContext(s3)), q, t);
    BeginKeepsOrder(s, None, true, StopContainer, t);
  }

  lemma SelectionOf(w: Snapshot, ps: seq<Identity>)
    requires Selection(w, ps)
    ensures Correlated(w) == Ok(ps)
  {
  }
}
