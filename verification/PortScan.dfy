/** Planning the ports of an installation and resolving their conflicts
    (internal/tui/port_scan.go). */
module PortScan {
  import opened Basics
  import D = Decimal
  import T = Text

  datatype Conflict = Conflict(key: string, requested: int)

  /** Whether a port is free when asked the n-th time; `udp` names the protocol. */
  type Scanner = (nat, bool, int) -> bool

  /** The ports to plan: default TCP and UDP ports by environment key, with their
      keys listed in scanning order. */
  datatype Required = Required(tcp: map<string, int>, udp: map<string, int>, tcpKeys: seq<string>, udpKeys: seq<string>)

  ghost predicate Lists(keys: seq<string>, m: map<string, int>) {
    Distinct(keys) && forall k :: k in keys <==> k in m
  }

  ghost predicate ValidRequired(r: Required) {
    Lists(r.tcpKeys, r.tcp) && Lists(r.udpKeys, r.udp) && r.tcp.Keys !! r.udp.Keys
  }

  function AllKeys(r: Required): set<string> {
    r.tcp.Keys + r.udp.Keys
  }

  /** The default port of a key. */
  function Default(r: Required, key: string): int
    requires key in AllKeys(r)
  {
    if key in r.udp then r.udp[key] else r.tcp[key]
  }

  function ConflictKeys(conflicts: seq<Conflict>): (keys: set<string>)
    ensures forall k :: k in keys <==> exists c :: c in conflicts && c.key == k
  {
    set c | c in conflicts :: c.key
  }

  ghost predicate DistinctConflicts(conflicts: seq<Conflict>) {
    forall i, j :: 0 <= i < j < |conflicts| ==> conflicts[i].key != conflicts[j].key
  }

  /** Planned keys and conflicting keys share out the given keys, each once. */
  ghost predicate Partition(keys: set<string>, plan: map<string, int>, conflicts: seq<Conflict>) {
    plan.Keys + ConflictKeys(conflicts) == keys && plan.Keys !! ConflictKeys(conflicts) && DistinctConflicts(conflicts)
  }

  datatype Found = Found(udp: bool, port: int)

  /** Every planned port was exempt or found free, on the protocol of its key. */
  ghost predicate Justified(r: Required, exemptTcp: set<int>, exemptUdp: set<int>, found: set<Found>, plan: map<string, int>) {
    forall k :: k in plan ==>
      if k in r.udp then plan[k] in exemptUdp || Found(true, plan[k]) in found
      else plan[k] in exemptTcp || Found(false, plan[k]) in found
  }

  /** Every planned port is the default of its key. */
  ghost predicate PlansDefaults(r: Required, plan: map<string, int>) {
    forall k :: k in plan ==> k in AllKeys(r) && plan[k] == Default(r, k)
  }

  /** A call numbered from `from` up to `to` answered `free` about the port. */
  ghost predicate Answered(scanner: Scanner, from: nat, to: nat, udp: bool, port: int, free: bool) {
    exists n: nat :: from <= n < to && scanner(n, udp, port) == free
  }

  /** Every conflict asks for the default port of its key, which is not exempt on the
      protocol of the key and was answered not to be free. */
  ghost predicate Refused(
      r: Required, exemptTcp: set<int>, exemptUdp: set<int>, scanner: Scanner, from: nat, to: nat, clashes: seq<Conflict>) {
    forall c :: c in clashes ==>
      && c.key in AllKeys(r) && c.requested == Default(r, c.key)
      && c.requested !in (if c.key in r.udp then exemptUdp else exemptTcp)
      && Answered(scanner, from, to, c.key in r.udp, c.requested, false)
  }

  /** Every port that counts as found was answered to be free. */
  ghost predicate Witnessed(scanner: Scanner, from: nat, to: nat, seen: set<Found>) {
    forall f :: f in seen ==> Answered(scanner, from, to, f.udp, f.port, true)
  }

  lemma RefusedLater(
      r: Required, exemptTcp: set<int>, exemptUdp: set<int>, scanner: Scanner, from: nat, to: nat, more: nat,
      clashes: seq<Conflict>, seen: set<Found>)
    requires Refused(r, exemptTcp, exemptUdp, scanner, from, to, clashes) && Witnessed(scanner, from, to, seen) && to <= more
    ensures Refused(r, exemptTcp, exemptUdp, scanner, from, more, clashes) && Witnessed(scanner, from, more, seen)
  {
    hide Answered, AllKeys, Default;
    assert forall udp, port, free :: Answered(scanner, from, to, udp, port, free) ==> Answered(scanner, from, more, udp, port, free) by {
      AnsweredLater(scanner, from, to, more);
    }
  }

  lemma AnsweredLater(scanner: Scanner, from: nat, to: nat, more: nat)
    requires to <= more
    ensures forall udp, port, free :: Answered(scanner, from, to, udp, port, free) ==> Answered(scanner, from, more, udp, port, free)
  {
  }

  lemma AnsweredNow(scanner: Scanner, from: nat, at: nat, udp: bool, port: int)
    requires from <= at
    ensures Answered(scanner, from, at + 1, udp, port, scanner(at, udp, port))
  {
  }

  lemma AddWitnessed(scanner: Scanner, from: nat, to: nat, seen: set<Found>, f: Found)
    requires Witnessed(scanner, from, to, seen) && Answered(scanner, from, to, f.udp, f.port, true)
    ensures Witnessed(scanner, from, to, seen + {f})
  {
    hide Answered;
  }

  lemma AddRefused(
      r: Required, exemptTcp: set<int>, exemptUdp: set<int>, scanner: Scanner, from: nat, to: nat, clashes: seq<Conflict>, key: string)
    requires Refused(r, exemptTcp, exemptUdp, scanner, from, to, clashes) && key in AllKeys(r)
    requires Default(r, key) !in (if key in r.udp then exemptUdp else exemptTcp)
    requires Answered(scanner, from, to, key in r.udp, Default(r, key), false)
    ensures Refused(r, exemptTcp, exemptUdp, scanner, from, to, clashes + [Conflict(key, Default(r, key))])
  {
    hide Answered, AllKeys, Default;
  }

  // ---------------------------------------------------------------- screen

  /** The screen. `found` and `granted...` remember every port found free and every
      exemption there ever was; the other fields are the source's. */
  datatype Scan = Scan(
    required: Required, exemptTcp: set<int>, exemptUdp: set<int>, result: Option<seq<Conflict>>, resolving: bool,
    conflicts: seq<Conflict>, freePlan: map<string, int>, currentKey: string, input: string,
    calls: nat, found: set<Found>, grantedTcp: set<int>, grantedUdp: set<int>)

  function NewScan(r: Required): (m: Scan)
    ensures ValidRequired(r) ==> Invariant(m)
    ensures m.freePlan == map[] && m.required == r && m.result.None?
  {
    Scan(r, {}, {}, None, false, [], map[], "", "", 0, {}, {}, {})
  }

  /** What can happen to the screen: the result of a scan that found `seen` free, the
      keys it knows, typing, and `setExemptPorts`. Results come in at any moment. */
  datatype Step =
    | Scanned(plan: map<string, int>, clashes: seq<Conflict>, seen: set<Found>)
    | CtrlR
    | Enter
    | Typed(text: string)
    | Exempted(tcp: set<int>, udp: set<int>)

  datatype Cmd = Nothing | Rescan | Confirm(ports: map<string, int>)

  /** The typed port, if it is a number in range. */
  function TypedPort(m: Scan): Option<int> {
    var port := D.ParseInt(T.TrimSpace(m.input));
    if port.Some? && 0 < port.value <= 65535 then port else None
  }

  /** Asking once whether a port is free. */
  function Asked(m: Scan, scanner: Scanner, udp: bool, port: int): Scan {
    m.(calls := m.calls + 1, found := if scanner(m.calls, udp, port) then m.found + {Found(udp, port)} else m.found)
  }

  /** The typed port is tried on TCP, and for a UDP key on UDP as well, which then
      decides. */
  function Tried(m: Scan, scanner: Scanner, port: int): (bool, Scan) {
    var m1 := Asked(m, scanner, false, port);
    if m.currentKey in m.required.udp then (scanner(m1.calls, true, port), Asked(m1, scanner, true, port))
    else (scanner(m.calls, false, port), m1)
  }

  /** Whether Enter takes the typed port. */
  predicate Takes(m: Scan, scanner: Scanner) {
    m.resolving && TypedPort(m).Some? && Tried(m, scanner, TypedPort(m).value).0
  }

  /** A port that was found free resolves the first conflict; after the last one the
      ports are confirmed. */
  function Take(m: Scan, port: int): (Scan, Cmd)
    requires m.conflicts != []
  {
    var plan, rest := m.freePlan[m.currentKey := port], m.conflicts[1..];
    if rest == [] then (m.(freePlan := plan, conflicts := [], resolving := false), Confirm(plan))
    else (m.(freePlan := plan, conflicts := rest, currentKey := rest[0].key, input := ""), Nothing)
  }

  /** `handleAlternatePort`. */
  function Resolve(m: Scan, scanner: Scanner): (Scan, Cmd)
    requires m.conflicts != []
  {
    var port := TypedPort(m);
    if port.None? then (m, Nothing)
    else
      var (available, m1) := Tried(m, scanner, port.value);
      if available then Take(m1, port.value) else (m1, Nothing)
  }

  /** `PortScanModel.Update`. A clean result confirms its plan and leaves the conflicts
      of an earlier one on the screen. */
  function Update(m: Scan, scanner: Scanner, step: Step): (Scan, Cmd)
    requires m.resolving ==> m.conflicts != []
  {
    match step
    case Scanned(plan, clashes, seen) =>
      var m1 := m.(result := Some(clashes), freePlan := plan, found := m.found + seen);
      if clashes == [] then (m1, Confirm(plan))
      else (m1.(conflicts := clashes, resolving := true, currentKey := clashes[0].key, input := ""), Nothing)
    case CtrlR => (m, Rescan)
    case Enter => if m.resolving then Resolve(m, scanner) else (m, Nothing)
    case Typed(text) => (if m.resolving then m.(input := text) else m, Nothing)
    case Exempted(tcp, udp) =>
      (m.(exemptTcp := tcp, exemptUdp := udp, grantedTcp := m.grantedTcp + tcp, grantedUdp := m.grantedUdp + udp), Nothing)
  }

  /** A result that some scan of this screen may have sent. */
  ghost predicate Genuine(m: Scan, step: Step) {
    step.Scanned? ==>
      && Partition(AllKeys(m.required), step.plan, step.clashes)
      && PlansDefaults(m.required, step.plan)
      && Justified(m.required, m.grantedTcp, m.grantedUdp, step.seen, step.plan)
  }

  ghost predicate Invariant(m: Scan) {
    && ValidRequired(m.required) && m.exemptTcp <= m.grantedTcp && m.exemptUdp <= m.grantedUdp
    && Justified(m.required, m.grantedTcp, m.grantedUdp, m.found, m.freePlan)
    && DistinctConflicts(m.conflicts)
    && (m.resolving <==> m.conflicts != [])
    && (m.resolving ==>
          && m.currentKey == m.conflicts[0].key && m.result.Some?
          && m.freePlan.Keys + ConflictKeys(m.conflicts) == AllKeys(m.required)
          && (if m.result.value == [] then m.freePlan.Keys == AllKeys(m.required)
              else m.freePlan.Keys !! ConflictKeys(m.conflicts)))
  }

  // ---------------------------------------------------------- small steps

  lemma AddConflict(keys: set<string>, plan: map<string, int>, conflicts: seq<Conflict>, key: string, port: int)
    requires Partition(keys, plan, conflicts) && key !in keys
    ensures Partition(keys + {key}, plan, conflicts + [Conflict(key, port)])
  {
    var more := conflicts + [Conflict(key, port)];
    assert Last(more) == Conflict(key, port);
    assert forall c :: c in more <==> c in conflicts || c == Conflict(key, port);
    assert ConflictKeys(more) == ConflictKeys(conflicts) + {key};
    forall i | 0 <= i < |conflicts| ensures conflicts[i].key != key {
      assert conflicts[i] in conflicts;
    }
  }

  lemma AddFree(keys: set<string>, plan: map<string, int>, conflicts: seq<Conflict>, key: string, port: int)
    requires Partition(keys, plan, conflicts) && key !in keys
    ensures Partition(keys + {key}, plan[key := port], conflicts)
  {
    assert plan[key := port].Keys == plan.Keys + {key};
  }

  lemma NothingPlanned(r: Required, exemptTcp: set<int>, exemptUdp: set<int>, found: set<Found>)
    ensures Partition({}, map[], []) && PlansDefaults(r, map[]) && Justified(r, exemptTcp, exemptUdp, found, map[])
  {
    assert ConflictKeys([]) == {};
  }

  /** The first of distinct conflicts is in none of the others. */
  lemma FirstConflict(conflicts: seq<Conflict>)
    requires DistinctConflicts(conflicts) && conflicts != []
    ensures DistinctConflicts(conflicts[1..])
    ensures ConflictKeys(conflicts) == ConflictKeys(conflicts[1..]) + {conflicts[0].key}
    ensures conflicts[0].key !in ConflictKeys(conflicts[1..])
  {
    var c, rest := conflicts[0], conflicts[1..];
    assert conflicts == [c] + rest;
    forall x | x in rest ensures x.key != c.key {
      var i :| 0 <= i < |rest| && rest[i] == x;
      assert conflicts[i + 1] == x;
    }
  }

  /** Resolving the first conflict keeps the partition. */
  lemma ResolveConflict(keys: set<string>, plan: map<string, int>, conflicts: seq<Conflict>, port: int)
    requires Partition(keys, plan, conflicts) && conflicts != []
    ensures Partition(keys, plan[conflicts[0].key := port], conflicts[1..])
  {
    FirstConflict(conflicts);
  }

  // -------------------------------------------------------------- the runs

  /** What one step owes: the invariant, and confirmed ports for every key, each
      exempt or found free. */
  ghost predicate Good(m: Scan, next: (Scan, Cmd)) {
    && Invariant(next.0) && next.0.required == m.required
    && (next.1.Confirm? ==>
          next.1.ports == next.0.freePlan && next.1.ports.Keys == AllKeys(m.required))
  }

  lemma TriedMeans(m: Scan, scanner: Scanner, port: int)
    ensures var (available, m1) := Tried(m, scanner, port);
            && m1 == m.(calls := m1.calls, found := m1.found) && m.found <= m1.found
            && (available ==> Found(m.currentKey in m.required.udp, port) in m1.found)
  {
  }

  lemma MoreFound(m: Scan, m1: Scan)
    requires Invariant(m) && m1 == m.(calls := m1.calls, found := m1.found) && m.found <= m1.found
    ensures Invariant(m1)
  {
    hide DistinctConflicts, ValidRequired;
  }

  lemma NoConflicts()
    ensures ConflictKeys([]) == {} && DistinctConflicts([])
  {
  }

  lemma PlanJustified(r: Required, exemptTcp: set<int>, exemptUdp: set<int>, found: set<Found>, plan: map<string, int>, key: string, port: int)
    requires Justified(r, exemptTcp, exemptUdp, found, plan)
    requires if key in r.udp then port in exemptUdp || Found(true, port) in found else port in exemptTcp || Found(false, port) in found
    ensures Justified(r, exemptTcp, exemptUdp, found, plan[key := port])
  {
  }

  lemma TakeKeeps(m: Scan, port: int)
    requires Invariant(m) && m.resolving && Found(m.currentKey in m.required.udp, port) in m.found
    ensures Good(m, Take(m, port))
  {
    hide DistinctConflicts, ValidRequired, Justified, ConflictKeys, AllKeys;
    FirstConflict(m.conflicts);
    NoConflicts();
    PlanJustified(m.required, m.grantedTcp, m.grantedUdp, m.found, m.freePlan, m.currentKey, port);
    assert m.freePlan[m.currentKey := port].Keys == m.freePlan.Keys + {m.currentKey};
  }

  lemma ResolveKeeps(m: Scan, scanner: Scanner)
    requires Invariant(m) && m.resolving
    ensures Good(m, Resolve(m, scanner))
  {
    hide Take, Tried, TypedPort, DistinctConflicts, ValidRequired, Justified, ConflictKeys;
    var port := TypedPort(m);
    if port.Some? {
      TriedMeans(m, scanner, port.value);
      var (available, m1) := Tried(m, scanner, port.value);
      MoreFound(m, m1);
      if available {
        TakeKeeps(m1, port.value);
      }
    }
  }

  lemma UpdateKeeps(m: Scan, scanner: Scanner, step: Step)
    requires Invariant(m) && Genuine(m, step)
    ensures Good(m, Update(m, scanner, step))
  {
    hide Resolve, AllKeys, DistinctConflicts, ConflictKeys;
    NoConflicts();
    if step.Enter? && m.resolving {
      ResolveKeeps(m, scanner);
    }
  }

  ghost predicate AllGenuine(m: Scan, scanner: Scanner, steps: seq<Step>)
    requires Invariant(m)
    decreases |steps|
  {
    steps == [] ||
    (Genuine(m, steps[0]) &&
     (UpdateKeeps(m, scanner, steps[0]); AllGenuine(Update(m, scanner, steps[0]).0, scanner, steps[1..])))
  }

  ghost function After(m: Scan, scanner: Scanner, steps: seq<Step>): (m': Scan)
    requires Invariant(m) && AllGenuine(m, scanner, steps)
    ensures Invariant(m') && m'.required == m.required
    decreases |steps|
  {
    if steps == [] then m
    else
      UpdateKeeps(m, scanner, steps[0]);
      After(Update(m, scanner, steps[0]).0, scanner, steps[1..])
  }

  /** Over every run: whatever ports are confirmed, they cover every required key, and
      each is exempt or was found free on the protocol of its key. */
  lemma ConfirmedPortsAreCovered(r: Required, scanner: Scanner, steps: seq<Step>, step: Step)
    requires ValidRequired(r)
    requires AllGenuine(NewScan(r), scanner, steps)
    requires Genuine(After(NewScan(r), scanner, steps), step)
    ensures var m := After(NewScan(r), scanner, steps);
            var (m', cmd) := Update(m, scanner, step);
            cmd.Confirm? ==>
              cmd.ports.Keys == AllKeys(r) && Justified(r, m'.grantedTcp, m'.grantedUdp, m'.found, cmd.ports)
  {
    hide Update, Justified, AllKeys;
    UpdateKeeps(After(NewScan(r), scanner, steps), scanner, step);
  }

  // ---------------------------------------------------------- the partition

  /** The conflicts of the last result that came in. */
  function LastResult(before: Option<seq<Conflict>>, steps: seq<Step>): Option<seq<Conflict>>
    decreases |steps|
  {
    if steps == [] then before
    else LastResult(if steps[0].Scanned? then Some(steps[0].clashes) else before, steps[1..])
  }

  lemma {:induction false} ResultIsLast(m: Scan, scanner: Scanner, steps: seq<Step>)
    requires Invariant(m) && AllGenuine(m, scanner, steps)
    ensures After(m, scanner, steps).result == LastResult(m.result, steps)
    decreases |steps|
  {
    hide Invariant, Genuine, Take, Tried, TypedPort;
    if steps != [] {
      ResolvingMeans(m);
      var next := Update(m, scanner, steps[0]).0;
      UpdateKeeps(m, scanner, steps[0]);
      StepResult(m, scanner, steps[0]);
      ResultIsLast(next, scanner, steps[1..]);
    }
  }

  lemma StepResult(m: Scan, scanner: Scanner, step: Step)
    requires m.resolving ==> m.conflicts != []
    ensures Update(m, scanner, step).0.result == if step.Scanned? then Some(step.clashes) else m.result
  {
    hide TypedPort;
  }

  /** Over every run: while conflicts are being resolved, planned and conflicting keys
      partition the required keys if and only if the last scan result was not clean. */
  lemma PartitionExactly(r: Required, scanner: Scanner, steps: seq<Step>)
    requires ValidRequired(r)
    requires AllGenuine(NewScan(r), scanner, steps)
    ensures var m := After(NewScan(r), scanner, steps);
            m.resolving ==>
              && m.freePlan.Keys + ConflictKeys(m.conflicts) == AllKeys(r)
              && (Partition(AllKeys(r), m.freePlan, m.conflicts) <==> LastResult(None, steps) != Some([]))
  {
    ResultIsLast(NewScan(r), scanner, steps);
    var m := After(NewScan(r), scanner, steps);
    if m.resolving {
      assert m.conflicts[0] in m.conflicts && m.conflicts[0].key in ConflictKeys(m.conflicts);
    }
  }

  // ------------------------------------------------------------ distinctness

  ghost predicate Injective(plan: map<string, int>) {
    forall a, b :: a in plan && b in plan && a != b ==> plan[a] != plan[b]
  }

  ghost predicate DefaultsDiffer(r: Required, keys: set<string>)
    requires keys <= AllKeys(r)
  {
    forall a, b :: a in keys && b in keys && a != b ==> Default(r, a) != Default(r, b)
  }

  /** What a scan plans is injective exactly when the defaults of its keys differ. */
  lemma PlannedIsInjective(r: Required, plan: map<string, int>)
    requires PlansDefaults(r, plan)
    ensures Injective(plan) <==> DefaultsDiffer(r, plan.Keys)
  {
    hide Default, AllKeys;
    if DefaultsDiffer(r, plan.Keys) {
      forall a, b | a in plan && b in plan && a != b ensures plan[a] != plan[b] {
        assert a in plan.Keys && b in plan.Keys;
      }
    }
  }

  /** The part of the plan that no remaining conflict will overwrite. */
  function Settled(m: Scan): (plan: map<string, int>)
    ensures plan.Keys == m.freePlan.Keys - ConflictKeys(m.conflicts)
  {
    map k | k in m.freePlan && k !in ConflictKeys(m.conflicts) :: m.freePlan[k]
  }

  /** The guard a typed port must meet: no settled key has it already. */
  ghost predicate Differs(m: Scan, port: int) {
    forall k :: k in Settled(m) ==> Settled(m)[k] != port
  }

  /** Setting one key of an injective plan keeps it injective exactly when no other
      key has that port. */
  lemma InjectiveUpdate(plan: map<string, int>, key: string, port: int)
    requires Injective(plan)
    ensures Injective(plan[key := port]) <==> forall k :: k in plan && k != key ==> plan[k] != port
  {
    var more := plan[key := port];
    if Injective(more) {
      forall k | k in plan && k != key ensures plan[k] != port {
        assert more[k] == plan[k] && more[key] == port;
      }
    }
  }

  /** An injective plan stays so after a taken port exactly when the port is not the
      value of another key. */
  lemma TypedKeepsInjective(m: Scan, port: int)
    requires m.conflicts != [] && Injective(m.freePlan)
    ensures Injective(Take(m, port).0.freePlan) <==>
              forall k :: k in m.freePlan && k != m.currentKey ==> m.freePlan[k] != port
  {
    hide Injective;
    InjectiveUpdate(m.freePlan, m.currentKey, port);
  }

  /** A taken port settles its key: the settled plan stays injective exactly when it
      was and the port meets the guard. */
  lemma TakeSettles(m: Scan, port: int)
    requires Invariant(m) && m.resolving
    ensures Settled(Take(m, port).0) == Settled(m)[m.currentKey := port]
    ensures Injective(Settled(Take(m, port).0)) <==> Injective(Settled(m)) && Differs(m, port)
    ensures Take(m, port).1.Confirm? ==> Take(m, port).1.ports == Settled(Take(m, port).0)
  {
    hide Invariant, Justified, AllKeys, Injective;
    SettlesFirst(m, port);
    SettledInjective(Settled(m), m.currentKey, port);
  }

  lemma SettlesFirst(m: Scan, port: int)
    requires Invariant(m) && m.resolving
    ensures m.currentKey !in Settled(m)
    ensures Settled(Take(m, port).0) == Settled(m)[m.currentKey := port]
    ensures Take(m, port).1.Confirm? ==> Take(m, port).1.ports == Settled(Take(m, port).0)
  {
    hide Justified, AllKeys, ConflictKeys, DistinctConflicts;
    FirstConflict(m.conflicts);
    NoConflicts();
  }

  lemma SettledInjective(plan: map<string, int>, key: string, port: int)
    requires key !in plan
    ensures Injective(plan[key := port]) <==> Injective(plan) && forall k :: k in plan ==> plan[k] != port
  {
    var more := plan[key := port];
    if Injective(more) {
      forall a, b | a in plan && b in plan && a != b ensures plan[a] != plan[b] {
        assert more[a] == plan[a] && more[b] == plan[b];
      }
      InjectiveUpdate(plan, key, port);
    }
  }

  /** Whether the settled plan is injective after a step, told from the screen before. */
  ghost predicate Careful(m: Scan, scanner: Scanner, ok: bool, step: Step)
    requires Genuine(m, step)
  {
    match step
    case Scanned(plan, clashes, _) =>
      DefaultsDiffer(m.required, if clashes == [] then plan.Keys - ConflictKeys(m.conflicts) else plan.Keys)
    case Enter => ok && (Takes(m, scanner) ==> Differs(m, TypedPort(m).value))
    case _ => ok
  }

  /** Over a run: the defaults last planned differ, and every port taken since then met
      the guard when it was typed. */
  ghost predicate AllCareful(m: Scan, scanner: Scanner, ok: bool, steps: seq<Step>)
    requires Invariant(m) && AllGenuine(m, scanner, steps)
    decreases |steps|
  {
    if steps == [] then ok
    else
      UpdateKeeps(m, scanner, steps[0]);
      AllCareful(Update(m, scanner, steps[0]).0, scanner, Careful(m, scanner, ok, steps[0]), steps[1..])
  }

  lemma ScanSettles(m: Scan, scanner: Scanner, step: Step)
    requires Invariant(m) && Genuine(m, step) && step.Scanned?
    ensures Injective(Settled(Update(m, scanner, step).0)) <==> Careful(m, scanner, true, step)
    ensures step.clashes == [] ==> (Injective(step.plan) <==> DefaultsDiffer(m.required, AllKeys(m.required)))
  {
    hide Justified, Invariant, DistinctConflicts, Default;
    ResolvingMeans(m);
    var settled := Settled(Update(m, scanner, step).0);
    assert forall k :: k in settled ==> settled[k] == step.plan[k];
    NoConflicts();
  }

  lemma StepSettles(m: Scan, scanner: Scanner, step: Step)
    requires Invariant(m) && Genuine(m, step)
    ensures Injective(Settled(Update(m, scanner, step).0)) <==> Careful(m, scanner, Injective(Settled(m)), step)
  {
    hide Injective, Take, Tried, TypedPort, Differs, Justified, AllKeys;
    match step
    case Scanned(_, _, _) => ScanSettles(m, scanner, step);
    case Enter =>
      if m.resolving && TypedPort(m).Some? {
        var port := TypedPort(m).value;
        TriedMeans(m, scanner, port);
        var (available, m1) := Tried(m, scanner, port);
        MoreFound(m, m1);
        SameSettled(m, m1, port);
        if available {
          TakeSettles(m1, port);
        }
      }
    case _ => SameSettledOnly(m, Update(m, scanner, step).0);
  }

  lemma SameSettled(m: Scan, m1: Scan, port: int)
    requires m1 == m.(calls := m1.calls, found := m1.found)
    ensures Settled(m1) == Settled(m) && Differs(m1, port) == Differs(m, port)
  {
  }

  lemma SameSettledOnly(m: Scan, m1: Scan)
    requires m1.freePlan == m.freePlan && m1.conflicts == m.conflicts
    ensures Settled(m1) == Settled(m)
  {
  }

  lemma {:induction false} RunSettles(m: Scan, scanner: Scanner, steps: seq<Step>)
    requires Invariant(m) && AllGenuine(m, scanner, steps)
    ensures Injective(Settled(After(m, scanner, steps))) <==> AllCareful(m, scanner, Injective(Settled(m)), steps)
    decreases |steps|
  {
    hide Invariant, Injective, Careful, Genuine, Update, Settled;
    if steps != [] {
      ResolvingMeans(m);
      UpdateKeeps(m, scanner, steps[0]);
      StepSettles(m, scanner, steps[0]);
      RunSettles(Update(m, scanner, steps[0]).0, scanner, steps[1..]);
    }
  }

  /** Over every run, confirmed ports are pairwise different if and only if the
      defaults of the last result's plan are, and every port typed since then was, when
      it was taken, not the port of a key already settled. */
  lemma DistinctExactly(r: Required, scanner: Scanner, steps: seq<Step>, step: Step)
    requires ValidRequired(r)
    requires AllGenuine(NewScan(r), scanner, steps)
    requires Genuine(After(NewScan(r), scanner, steps), step)
    ensures var m := After(NewScan(r), scanner, steps);
            var cmd := Update(m, scanner, step).1;
            cmd.Confirm? ==>
              (Injective(cmd.ports) <==>
                 if step.Scanned? then DefaultsDiffer(r, AllKeys(r))
                 else AllCareful(NewScan(r), scanner, true, steps) && Differs(m, TypedPort(m).value))
  {
    hide Invariant, Injective, Differs, DefaultsDiffer, Tried, TypedPort, Take, AllKeys, Justified;
    var m := After(NewScan(r), scanner, steps);
    ResolvingMeans(m);
    var cmd := Update(m, scanner, step).1;
    if step.Scanned? {
      ScanSettles(m, scanner, step);
    } else if cmd.Confirm? {
      RunSettles(NewScan(r), scanner, steps);
      assert Settled(NewScan(r)) == map[];
      NothingInjective();
      var port := TypedPort(m).value;
      TriedMeans(m, scanner, port);
      var m1 := Tried(m, scanner, port).1;
      MoreFound(m, m1);
      SameSettled(m, m1, port);
      TakeSettles(m1, port);
    }
  }

  lemma NothingInjective()
    ensures Injective(map[])
  {
  }

  lemma ResolvingMeans(m: Scan)
    requires Invariant(m)
    ensures m.resolving <==> m.conflicts != []
  {
  }

  // -------------------------------------------------------------- witnesses

  const OTHER_FREE: Scanner := (n, udp, port) => port == 90

  /** One key, whose port is occupied at first. */
  const ONE_KEY := Required(map["A" := 80], map[], ["A"], [])

  /** The conflict of key A comes in, the port becomes free, a rescan confirms it. */
  const CLEAN_RESCAN := [Scanned(map[], [Conflict("A", 80)], {}), CtrlR, Scanned(map["A" := 80], [], {Found(false, 80)})]

  lemma TypedNinety()
    ensures D.ParseInt(T.TrimSpace("90")) == Some(90)
  {
    var text := "90";
    assert T.TrimSpace(text) == text;
    assert Front(text) == "9" && Front("9") == "";
    assert D.Value("9") == 9;
    assert D.Value(text) == 90;
  }

  lemma OneConflict(key: string, port: int)
    ensures ConflictKeys([Conflict(key, port)]) == {key} && DistinctConflicts([Conflict(key, port)])
    ensures [Conflict(key, port)][1..] == []
  {
    assert [Conflict(key, port)][0] in [Conflict(key, port)];
  }

  lemma AfterStep(m: Scan, scanner: Scanner, step: Step, rest: seq<Step>)
    requires Invariant(m) && Genuine(m, step)
    requires Invariant(Update(m, scanner, step).0) && AllGenuine(Update(m, scanner, step).0, scanner, rest)
    ensures AllGenuine(m, scanner, [step] + rest)
    ensures After(m, scanner, [step] + rest) == After(Update(m, scanner, step).0, scanner, rest)
  {
    assert ([step] + rest)[1..] == rest;
  }

  /** After a clean rescan the old conflict is still on the screen, against its planned
      key: typing a port and Enter then overwrites the port that was just confirmed,
      and confirms another. */
  lemma CleanRescanIsOverwritten()
    ensures ValidRequired(ONE_KEY) && AllGenuine(NewScan(ONE_KEY), OTHER_FREE, CLEAN_RESCAN + [Typed("90")])
    ensures var m := After(NewScan(ONE_KEY), OTHER_FREE, CLEAN_RESCAN + [Typed("90")]);
            && m.resolving && m.freePlan == map["A" := 80]
            && !Partition(AllKeys(ONE_KEY), m.freePlan, m.conflicts)
            && Update(m, OTHER_FREE, Enter).1 == Confirm(map["A" := 90])
  {
    hide D.ParseInt, T.TrimSpace, Partition, Justified, PlansDefaults, DistinctConflicts, ConflictKeys;
    OneKeyIsGenuine();
    var m0 := NewScan(ONE_KEY);
    var a, b, c, d := CLEAN_RESCAN[0], CLEAN_RESCAN[1], CLEAN_RESCAN[2], Typed("90");
    UpdateKeeps(m0, OTHER_FREE, a);
    var m1 := Update(m0, OTHER_FREE, a).0;
    UpdateKeeps(m1, OTHER_FREE, b);
    UpdateKeeps(m1, OTHER_FREE, c);
    var m2 := Update(m1, OTHER_FREE, c).0;
    UpdateKeeps(m2, OTHER_FREE, d);
    var m := Update(m2, OTHER_FREE, d).0;
    assert AllGenuine(m, OTHER_FREE, []) && After(m, OTHER_FREE, []) == m;
    AfterStep(m2, OTHER_FREE, d, []);
    AfterStep(m1, OTHER_FREE, c, [d] + []);
    AfterStep(m1, OTHER_FREE, b, [c] + ([d] + []));
    AfterStep(m0, OTHER_FREE, a, [b] + ([c] + ([d] + [])));
    assert CLEAN_RESCAN + [d] == [a] + ([b] + ([c] + ([d] + [])));
    TypedNinety();
    OneConflict("A", 80);
    assert m.freePlan[m.currentKey := 90] == map["A" := 90];
    PartitionExactly(ONE_KEY, OTHER_FREE, CLEAN_RESCAN + [d]);
    assert m.result == Some([]);
    ResultIsLast(m0, OTHER_FREE, CLEAN_RESCAN + [d]);
  }

  lemma OneKeyIsGenuine()
    ensures ValidRequired(ONE_KEY)
    ensures forall m: Scan :: m.required == ONE_KEY ==> Genuine(m, CLEAN_RESCAN[0]) && Genuine(m, CLEAN_RESCAN[2])
  {
    OneConflict("A", 80);
    NoConflicts();
    assert ONE_KEY.tcpKeys[0] == "A";
    assert AllKeys(ONE_KEY) == {"A"};
  }

  const TWO_KEYS := Required(map["A" := 80, "B" := 90], map[], ["A", "B"], [])

  const OCCUPIED := Scanned(map["B" := 90], [Conflict("A", 80)], {Found(false, 90)})

  /** A typed port may be one that is already planned: a run that starts a new screen,
      shows the one conflict, and confirms the same port for both keys. */
  lemma ChosenPortMayCoincide()
    ensures ValidRequired(TWO_KEYS) && AllGenuine(NewScan(TWO_KEYS), OTHER_FREE, [OCCUPIED, Typed("90")])
    ensures var m := After(NewScan(TWO_KEYS), OTHER_FREE, [OCCUPIED, Typed("90")]);
            Update(m, OTHER_FREE, Enter).1 == Confirm(map["A" := 90, "B" := 90])
  {
    hide D.ParseInt, T.TrimSpace, Partition, Justified, PlansDefaults, DistinctConflicts, ConflictKeys;
    OccupiedIsGenuine();
    var m0 := NewScan(TWO_KEYS);
    var d := Typed("90");
    UpdateKeeps(m0, OTHER_FREE, OCCUPIED);
    var m1 := Update(m0, OTHER_FREE, OCCUPIED).0;
    UpdateKeeps(m1, OTHER_FREE, d);
    var m := Update(m1, OTHER_FREE, d).0;
    assert AllGenuine(m, OTHER_FREE, []) && After(m, OTHER_FREE, []) == m;
    AfterStep(m1, OTHER_FREE, d, []);
    AfterStep(m0, OTHER_FREE, OCCUPIED, [d] + []);
    assert [OCCUPIED, d] == [OCCUPIED] + ([d] + []);
    TypedNinety();
    OneConflict("A", 80);
    assert m.freePlan[m.currentKey := 90] == map["A" := 90, "B" := 90];
  }

  lemma OccupiedIsGenuine()
    ensures ValidRequired(TWO_KEYS) && Genuine(NewScan(TWO_KEYS), OCCUPIED)
  {
    OneConflict("A", 80);
    assert TWO_KEYS.tcpKeys[0] == "A" && TWO_KEYS.tcpKeys[1] == "B" && "A"[0] != "B"[0];
    assert AllKeys(TWO_KEYS) == {"A", "B"};
  }

  // ------------------------------------------------------------------ screen

  class PortScanModel {
    const required: Required
    const scanner: Scanner
    var exemptTcp: set<int>
    var exemptUdp: set<int>
    var result: Option<seq<Conflict>>
    var resolving: bool
    var conflicts: seq<Conflict>
    var freePlan: map<string, int>
    var currentKey: string
    var input: string
    var calls: nat
    ghost var found: set<Found>
    ghost var grantedTcp: set<int>
    ghost var grantedUdp: set<int>

    constructor (required: Required, scanner: Scanner)
      ensures this.required == required && this.scanner == scanner && Value() == NewScan(required)
    {
      this.required, this.scanner := required, scanner;
      exemptTcp, exemptUdp, calls, resolving, result := {}, {}, 0, false, None;
      conflicts, freePlan, currentKey, input := [], map[], "", "";
      found, grantedTcp, grantedUdp := {}, {}, {};
    }

    ghost function Value(): (m: Scan)
      reads this
      ensures m.required == required
    {
      Scan(required, exemptTcp, exemptUdp, result, resolving, conflicts, freePlan, currentKey, input, calls, found,
           grantedTcp, grantedUdp)
    }

    /** `setExemptPorts`. */
    method SetExemptPorts(tcp: set<int>, udp: set<int>)
      requires resolving ==> conflicts != []
      modifies this
      ensures Value() == Update(old(Value()), scanner, Exempted(tcp, udp)).0
    {
      exemptTcp, exemptUdp := tcp, udp;
      grantedTcp, grantedUdp := grantedTcp + tcp, grantedUdp + udp;
    }

    method IsAvailable(udp: bool, port: int) returns (free: bool)
      modifies this
      ensures free == scanner(old(calls), udp, port) && Value() == Asked(old(Value()), scanner, udp, port)
    {
      free := scanner(calls, udp, port);
      found := if free then found + {Found(udp, port)} else found;
      calls := calls + 1;
    }

    /** One loop of `scanAll`: the listed keys join the plan or the conflicts. */
    method ScanKeys(keys: seq<string>, ports: map<string, int>, udp: bool, sofar: Step, ghost before: set<string>, ghost from: nat)
      returns (scan: Step)
      requires ValidRequired(required) && sofar.Scanned?
      requires Lists(keys, ports) && ports == (if udp then required.udp else required.tcp) && before !! ports.Keys
      requires Partition(before, sofar.plan, sofar.clashes) && PlansDefaults(required, sofar.plan)
      requires Justified(required, exemptTcp, exemptUdp, sofar.seen, sofar.plan)
      requires from <= calls && Refused(required, exemptTcp, exemptUdp, scanner, from, calls, sofar.clashes)
      requires Witnessed(scanner, from, calls, sofar.seen)
      modifies `calls
      ensures scan.Scanned? && Partition(before + ports.Keys, scan.plan, scan.clashes)
      ensures PlansDefaults(required, scan.plan) && Justified(required, exemptTcp, exemptUdp, scan.seen, scan.plan)
      ensures calls >= old(calls) && Refused(required, exemptTcp, exemptUdp, scanner, from, calls, scan.clashes)
      ensures Witnessed(scanner, from, calls, scan.seen)
    {
      hide Partition, Justified, PlansDefaults, Refused, Witnessed, Answered;
      var plan, clashes, seen := sofar.plan, sofar.clashes, sofar.seen;
      ghost var done: set<string> := {};
      var exempt := if udp then exemptUdp else exemptTcp;
      assert before + done == before;
      for i := 0 to |keys|
        invariant done == set k | k in keys[..i]
        invariant Partition(before + done, plan, clashes) && PlansDefaults(required, plan)
        invariant Justified(required, exemptTcp, exemptUdp, seen, plan)
        invariant calls >= old(calls) && Refused(required, exemptTcp, exemptUdp, scanner, from, calls, clashes)
        invariant Witnessed(scanner, from, calls, seen)
      {
        var k := keys[i];
        assert keys[..i + 1] == keys[..i] + [k] && k in keys;
        assert k !in keys[..i];
        var port := ports[k];
        var free := port in exempt;
        if !free {
          free := scanner(calls, udp, port);
          RefusedLater(required, exemptTcp, exemptUdp, scanner, from, calls, calls + 1, clashes, seen);
          AnsweredNow(scanner, from, calls, udp, port);
          calls := calls + 1;
          if free {
            AddWitnessed(scanner, from, calls, seen, Found(udp, port));
            JustifiedMore(required, exemptTcp, exemptUdp, seen, seen + {Found(udp, port)}, plan);
            seen := seen + {Found(udp, port)};
          }
        }
        if free {
          AddFree(before + done, plan, clashes, k, port);
          PlanJustified(required, exemptTcp, exemptUdp, seen, plan, k, port);
          PlanDefault(required, plan, k);
          plan := plan[k := port];
        } else {
          AddConflict(before + done, plan, clashes, k, port);
          AddRefused(required, exemptTcp, exemptUdp, scanner, from, calls, clashes, k);
          clashes := clashes + [Conflict(k, port)];
        }
        assert before + done + {k} == before + (done + {k});
        done := done + {k};
      }
      assert keys[..|keys|] == keys;
      assert done == ports.Keys;
      return Scanned(plan, clashes, seen);
    }

    /** `scanAll`: what it sends is a genuine result, whenever it comes in; a key is in
        conflict only when its port was answered not to be free during this scan, and a
        port counts as found only when it was answered to be. */
    method ScanAll() returns (scan: Step)
      requires ValidRequired(required) && exemptTcp <= grantedTcp && exemptUdp <= grantedUdp
      modifies `calls
      ensures scan.Scanned?
      ensures forall m: Scan :: m.required == required && grantedTcp <= m.grantedTcp && grantedUdp <= m.grantedUdp ==>
                Genuine(m, scan)
      ensures Refused(required, exemptTcp, exemptUdp, scanner, old(calls), calls, scan.clashes)
      ensures Witnessed(scanner, old(calls), calls, scan.seen)
    {
      hide Partition, Justified, PlansDefaults;
      NothingPlanned(required, exemptTcp, exemptUdp, {});
      scan := ScanKeys(required.tcpKeys, required.tcp, false, Scanned(map[], [], {}), {}, old(calls));
      assert {} + required.tcp.Keys == required.tcp.Keys;
      scan := ScanKeys(required.udpKeys, required.udp, true, scan, required.tcp.Keys, old(calls));
      GenuineLater(required, exemptTcp, exemptUdp, scan);
    }

    /** The result message: confirmed at once, or the first conflict is shown. */
    method ShowResult(scan: Step) returns (cmd: Cmd)
      requires scan.Scanned? && (resolving ==> conflicts != [])
      modifies this
      ensures (Value(), cmd) == Update(old(Value()), scanner, scan)
    {
      result, freePlan := Some(scan.clashes), scan.plan;
      found := found + scan.seen;
      if |scan.clashes| == 0 {
        return Confirm(freePlan);
      }
      conflicts := scan.clashes;
      resolving := true;
      currentKey := conflicts[0].key;
      input := "";
      return Nothing;
    }

    /** `handleAlternatePort`. */
    method HandleAlternatePort() returns (cmd: Cmd)
      requires conflicts != []
      modifies this
      ensures (Value(), cmd) == Resolve(old(Value()), scanner)
    {
      hide D.ParseInt, T.TrimSpace;
      var port := D.ParseInt(T.TrimSpace(input));
      if port.None? || port.value <= 0 || port.value > 65535 {
        return Nothing;
      }
      var available := IsAvailable(false, port.value);
      if currentKey in required.udp {
        available := IsAvailable(true, port.value);
      }
      if !available {
        return Nothing;
      }
      freePlan := freePlan[currentKey := port.value];
      conflicts := conflicts[1..];
      if |conflicts| == 0 {
        resolving := false;
        return Confirm(freePlan);
      }
      currentKey := conflicts[0].key;
      input := "";
      return Nothing;
    }

    /** The dispatch of `PortScanModel.Update`, and the port policy of the caller. */
    method Dispatch(step: Step) returns (cmd: Cmd)
      requires Invariant(Value()) && Genuine(Value(), step)
      modifies this
      ensures (Value(), cmd) == Update(old(Value()), scanner, step)
      ensures Good(old(Value()), (Value(), cmd))
    {
      hide Resolve, Justified, Partition, PlansDefaults, DistinctConflicts, ConflictKeys, AllKeys;
      UpdateKeeps(Value(), scanner, step);
      cmd := Nothing;
      match step {
        case Scanned(_, _, _) => cmd := ShowResult(step);
        case CtrlR => cmd := Rescan;
        case Enter =>
          if resolving {
            cmd := HandleAlternatePort();
          }
        case Typed(text) => input := if resolving then text else input;
        case Exempted(tcp, udp) => SetExemptPorts(tcp, udp);
      }
    }
  }

  lemma JustifiedMore(r: Required, exemptTcp: set<int>, exemptUdp: set<int>, found: set<Found>, more: set<Found>, plan: map<string, int>)
    ensures found <= more && Justified(r, exemptTcp, exemptUdp, found, plan) ==> Justified(r, exemptTcp, exemptUdp, more, plan)
  {
  }

  lemma PlanDefault(r: Required, plan: map<string, int>, key: string)
    requires PlansDefaults(r, plan) && key in AllKeys(r)
    ensures PlansDefaults(r, plan[key := Default(r, key)])
  {
  }

  /** Exemptions only add up, so a result stays genuine however late it comes. */
  lemma GenuineLater(r: Required, exemptTcp: set<int>, exemptUdp: set<int>, scan: Step)
    requires scan.Scanned? && Partition(AllKeys(r), scan.plan, scan.clashes) && PlansDefaults(r, scan.plan)
    requires Justified(r, exemptTcp, exemptUdp, scan.seen, scan.plan)
    ensures forall m: Scan :: m.required == r && exemptTcp <= m.grantedTcp && exemptUdp <= m.grantedUdp ==> Genuine(m, scan)
  {
    hide Partition, PlansDefaults;
  }
}
