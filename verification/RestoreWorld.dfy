/** The world a database restore acts on: the backend, the database, the retained
    dumps, and a trace of every outside call with its outcome.

    `oracle` answers the calls, so a statement about all worlds is a statement about
    every run. A call that reports success took effect; a call that fails may or may
    not have. While the backend runs, it may write to the database during any call. */
module RestoreWorld {
  import opened Basics

  /** Database contents as the sequence of everything written so far. */
  datatype Database = Missing | Rows(rows: seq<int>)

  /** `b` is `a` with zero or more later writes. */
  predicate Grows(a: Database, b: Database) {
    a == b || (a.Rows? && b.Rows? && a.rows <= b.rows)
  }

  datatype Question =
    | Waited | IdentityProven | Reached | Configured | Revalidated(dump: nat) | Healthy
    | CredentialPrepared | PlanBuilt | CredentialCleaned

  /** The five commands of a replacement, in order. */
  datatype Step = TerminateSessions | DropDatabase | CreateDatabase | RestoreArchive | Validate

  datatype Event =
    | Asked(what: Question, ok: bool)
    | Stop(ok: bool)
    | Start(ok: bool)
    | Probed(stopped: bool)
    | Dumped(ok: bool)
    | Ran(step: Step, source: nat, ok: bool)

  datatype Reply = Reply(
    ok: bool, tookEffect: bool, panics: bool, marked: bool, writes: seq<int>, mess: Database,
    output: seq<string>, deadline: Option<nat>)

  datatype World = World(
    oracle: nat -> Reply, calls: nat, trace: seq<Event>, running: bool,
    db: Database, dumps: seq<Database>, dropped: seq<Database>)

  /** A context ends at a call number, or never. */
  type Context = Option<nat>

  predicate Done(ctx: Context, w: World) {
    ctx.Some? && w.calls >= ctx.value
  }

  /** A fresh recovery context may end at any moment as well. */
  function RecoveryContext(w: World): Context {
    w.oracle(w.calls).deadline
  }

  // ---------------------------------------------------------------- trace

  /** What a trace has established: where its last successful stop with no later
      start is, the latest successful proofs and the latest revalidation since then
      (of the dump `source`), the latest probe that saw it stopped, the latest accepted
      dump (-1 when there is none), and counts. */
  datatype Watch = Watch(
    stop: int, identity: int, reached: int, valid: int, source: nat, probed: int, dump: int,
    stops: nat, drops: nat, prepared: nat, cleaned: nat)

  function Advance(g: Watch, e: Event, at: nat): Watch {
    match e
    case Stop(ok) => if ok then g.(stop := at, identity := -1, reached := -1, valid := -1, probed := -1, stops := g.stops + 1) else g
    case Start(_) => g.(stop := -1, identity := -1, reached := -1, valid := -1, probed := -1)
    case Probed(stopped) => g.(probed := if stopped then at else -1)
    case Dumped(ok) => if ok then g.(dump := at) else g
    case Ran(step, _, _) => if step.DropDatabase? then g.(drops := g.drops + 1) else g
    case Asked(what, ok) =>
      (match what
       case IdentityProven => g.(identity := if ok then at else -1)
       case Reached => g.(reached := if ok then at else -1)
       case Revalidated(dump) => if ok then g.(valid := at, source := dump) else g.(valid := -1)
       case CredentialPrepared => if ok then g.(prepared := g.prepared + 1) else g
       case CredentialCleaned => g.(cleaned := g.cleaned + 1)
       case _ => g)
  }

  function Watched(trace: seq<Event>): (g: Watch)
    ensures g.stop >= 0 ==> g.stop < |trace| && trace[g.stop] == Stop(true)
    ensures g.stop >= 0 ==> forall m :: g.stop < m < |trace| ==> !trace[m].Start?
    ensures g.identity >= 0 ==> g.stop < g.identity < |trace| && trace[g.identity] == Asked(IdentityProven, true)
    ensures g.reached >= 0 ==> g.stop < g.reached < |trace| && trace[g.reached] == Asked(Reached, true)
    ensures g.valid >= 0 ==> g.stop < g.valid < |trace| && trace[g.valid] == Asked(Revalidated(g.source), true)
    ensures g.probed >= 0 ==> g.stop < g.probed < |trace| && trace[g.probed] == Probed(true)
    ensures g.dump >= 0 ==> g.dump < |trace| && trace[g.dump] == Dumped(true)
  {
    if trace == [] then Watch(-1, -1, -1, -1, 0, -1, -1, 0, 0, 0, 0)
    else Advance(Watched(Front(trace)), Last(trace), |trace| - 1)
  }

  /** What a drop in favour of the dump `source` needs. */
  predicate Armed(g: Watch, source: nat) {
    g.stop >= 0 && g.identity >= 0 && g.reached >= 0 && g.valid >= 0 && g.source == source && g.dump >= 0
    && (g.drops > 0 ==> g.probed >= 0)
  }

  predicate IsDrop(e: Event) {
    e.Ran? && e.step.DropDatabase?
  }

  predicate DropsArmed(trace: seq<Event>) {
    trace == [] || (DropsArmed(Front(trace)) && (IsDrop(Last(trace)) ==> Armed(Watched(Front(trace)), Last(trace).source)))
  }

  ghost predicate GuardedBy(
      trace: seq<Event>, n: nat, source: nat, stop: int, identity: int, reached: int, valid: int, dump: int, probed: int)
    requires n <= |trace|
  {
    && 0 <= stop < n && trace[stop] == Stop(true) && (forall m :: stop < m < n ==> !trace[m].Start?)
    && stop < identity < n && trace[identity] == Asked(IdentityProven, true)
    && stop < reached < n && trace[reached] == Asked(Reached, true)
    && stop < valid < n && trace[valid] == Asked(Revalidated(source), true)
    && 0 <= dump < n && trace[dump] == Dumped(true)
    && ((stop < probed < n && trace[probed] == Probed(true)) || forall m :: 0 <= m < n ==> !IsDrop(trace[m]))
  }

  /** Before position `n`: the backend was stopped with success and not started
      since, after that stop the PostgreSQL identity and its reachability were
      proven and the very dump to restore was revalidated, and a validated target
      dump was taken; and if there was a drop before, the backend was also seen
      stopped since. */
  ghost predicate Guarded(trace: seq<Event>, n: nat, source: nat)
    requires n <= |trace|
  {
    exists stop, identity, reached, valid, dump, probed ::
      GuardedBy(trace, n, source, stop, identity, reached, valid, dump, probed)
  }

  lemma DropAdvances(g: Watch, e: Event, at: nat)
    ensures Advance(g, e, at).drops == g.drops + if IsDrop(e) then 1 else 0
  {
  }

  lemma {:induction false} NoDropCounted(trace: seq<Event>)
    ensures Watched(trace).drops == 0 <==> forall i :: 0 <= i < |trace| ==> !IsDrop(trace[i])
  {
    hide Advance;
    if trace != [] {
      NoDropCounted(Front(trace));
      DropAdvances(Watched(Front(trace)), Last(trace), |trace| - 1);
      assert forall i :: 0 <= i < |trace| - 1 ==> Front(trace)[i] == trace[i];
    }
  }

  lemma GuardedLater(trace: seq<Event>, n: nat, source: nat)
    requires trace != [] && n < |trace| && Guarded(Front(trace), n, source)
    ensures Guarded(trace, n, source)
  {
    var stop, identity, reached, valid, dump, probed :|
      GuardedBy(Front(trace), n, source, stop, identity, reached, valid, dump, probed);
    assert GuardedBy(trace, n, source, stop, identity, reached, valid, dump, probed);
  }

  lemma ArmedIsGuarded(trace: seq<Event>, source: nat)
    requires Armed(Watched(trace), source)
    ensures Guarded(trace, |trace|, source)
  {
    var g := Watched(trace);
    NoDropCounted(trace);
    assert GuardedBy(trace, |trace|, source, g.stop, g.identity, g.reached, g.valid, g.dump, g.probed);
  }

  lemma {:induction false} ArmedDropsAreGuarded(trace: seq<Event>)
    requires DropsArmed(trace)
    ensures forall i :: 0 <= i < |trace| && IsDrop(trace[i]) ==> Guarded(trace, i, trace[i].source)
  {
    hide Guarded, Watched, Armed;
    if trace != [] {
      var earlier, n := Front(trace), |trace| - 1;
      ArmedDropsAreGuarded(earlier);
      forall i | 0 <= i < |trace| && IsDrop(trace[i]) ensures Guarded(trace, i, trace[i].source) {
        if i == n {
          ArmedIsGuarded(earlier, trace[i].source);
        }
        GuardedLater(trace, i, trace[i].source);
      }
    }
  }

  // ---------------------------------------------------------------- calls

  /** The trace does not claim a stopped backend that runs. */
  ghost predicate Truthful(w: World) {
    (Watched(w.trace).stop >= 0 ==> !w.running) && DropsArmed(w.trace)
  }

  /** One outside call: it is recorded, and a running backend may write meanwhile. */
  function Called(w: World, e: Event): (w': World)
    ensures w'.oracle == w.oracle && w'.calls == w.calls + 1 && w'.trace == w.trace + [e]
    ensures w'.running == w.running && w'.dumps == w.dumps && w'.dropped == w.dropped
    ensures Grows(w.db, w'.db) && (!w.running ==> w'.db == w.db)
    ensures Watched(w'.trace) == Advance(Watched(w.trace), e, |w.trace|)
    ensures DropsArmed(w'.trace) <==> DropsArmed(w.trace) && (IsDrop(e) ==> Armed(Watched(w.trace), e.source))
  {
    assert Front(w.trace + [e]) == w.trace;
    var writes := w.oracle(w.calls).writes;
    w.(calls := w.calls + 1, trace := w.trace + [e],
       db := if w.running && w.db.Rows? then Rows(w.db.rows + writes) else w.db)
  }

  function Ask(w: World, what: Question): (r: (bool, World))
    ensures r.1 == Called(w, Asked(what, r.0))
  {
    var ok := w.oracle(w.calls).ok;
    (ok, Called(w, Asked(what, ok)))
  }

  function StopBackend(w: World): (r: (bool, World))
    ensures r.1 == Called(w, Stop(r.0)).(running := r.1.running)
    ensures r.1.running ==> w.running && !r.0
  {
    var reply := w.oracle(w.calls);
    (reply.ok, Called(w, Stop(reply.ok)).(running := w.running && !reply.ok && !reply.tookEffect))
  }

  function StartBackend(w: World): (r: (bool, World))
    ensures r.1 == Called(w, Start(r.0)).(running := r.1.running)
    ensures w.running || r.0 ==> r.1.running
  {
    var reply := w.oracle(w.calls);
    (reply.ok, Called(w, Start(reply.ok)).(running := w.running || reply.ok || reply.tookEffect))
  }

  /** The backend-stopped probe: true only of a stopped backend. */
  function Probe(w: World): (r: (bool, World))
    ensures r.1 == Called(w, Probed(r.0))
    ensures r.0 ==> !w.running
  {
    var stopped := w.oracle(w.calls).ok && !w.running;
    (stopped, Called(w, Probed(stopped)))
  }

  /** A new validated dump of the target database, if one is accepted. */
  function DumpTarget(w: World): (r: (Option<nat>, World))
    ensures r.0 == None ==> r.1 == Called(w, Dumped(false))
    ensures r.0.Some? ==> r.0.value == |w.dumps| && r.1 == Called(w, Dumped(true)).(dumps := w.dumps + [w.db])
  {
    var reply := w.oracle(w.calls);
    if reply.ok && reply.marked then (Some(|w.dumps|), Called(w, Dumped(true)).(dumps := w.dumps + [w.db]))
    else (None, Called(w, Dumped(false)))
  }

  function StepEffect(db: Database, step: Step, ok: bool, reply: Reply, dump: Database): Database {
    match step
    case TerminateSessions => db
    case DropDatabase => if ok || reply.tookEffect then Missing else db
    case CreateDatabase => if ok || reply.tookEffect then Rows([]) else db
    case RestoreArchive => if ok then dump else reply.mess
    case Validate => db
  }

  function RunStep(w: World, step: Step, source: nat): (r: (bool, World))
    requires source < |w.dumps|
    ensures var e := Called(w, Ran(step, source, r.0));
            && r.1 == e.(db := r.1.db, dropped := r.1.dropped)
            && r.1.dropped == w.dropped + (if step.DropDatabase? then [e.db] else [])
            && (step.TerminateSessions? || step.Validate? ==> r.1.db == e.db)
            && (step.RestoreArchive? && r.0 ==> r.1.db == w.dumps[source])
  {
    var reply := w.oracle(w.calls);
    var ok := reply.ok && !reply.panics;
    var e := Called(w, Ran(step, source, ok));
    (ok, e.(db := StepEffect(e.db, step, ok, reply, w.dumps[source]),
            dropped := w.dropped + if step.DropDatabase? then [e.db] else []))
  }
}
