/** Correlation of the PM2 process table with listening sockets and `/proc`
    identities (internal/installation/pm2_quiescence.go).

    `Correlation` is the specification: it speaks of sets of records and sockets
    and never of the order in which they were listed. `CorrelatePM2` is the
    source's map-building loop, proved to compute it. */
module Pm2Correlation {
  import opened Basics

  datatype Status = Online | Stopped | OtherStatus(text: string)

  datatype Record = Record(id: int, pid: int, name: string, cwd: string, execPath: string, status: Status)

  datatype SocketOwner = SocketOwner(pid: int, port: Port)

  datatype ProcIdentity = ProcIdentity(cwd: string, execPath: string, startTicks: nat)

  datatype Identity = Identity(
    pmid: int, name: string, pid: int, cwd: string,
    execPath: string, runtimeExecPath: string, port: Port, startTicks: nat)

  datatype Contract = Contract(name: string, cwd: string, pm2ExecPath: string, runtimeExecPath: string, port: Port)

  datatype CorrelationError = SocketAmbiguous | ProcessIdentityInvalid | NoQualifyingIdentity

  const GUARDIAN_ROOT := "/opt/alice-guardian"
  const BACKEND_ROOT := "/opt/backend_alice_guardian"
  const NODE_RUNTIME := "/usr/local/bin/node"

  const FRONT_CONTRACT := Contract("front-guardian", GUARDIAN_ROOT, "/usr/bin/bash", NODE_RUNTIME, 8080)
  const WS_CONTRACT := Contract("ws", BACKEND_ROOT + "/websocket", "/usr/bin/bash", NODE_RUNTIME, 4550)
  const NODE_CONTRACT := Contract("node", BACKEND_ROOT + "/node", BACKEND_ROOT + "/node/bin/www", NODE_RUNTIME, 9090)

  const CONTRACTS := [FRONT_CONTRACT, WS_CONTRACT, NODE_CONTRACT]

  function FirstContract(contracts: seq<Contract>, name: string, cwd: string, port: Port): Option<Contract> {
    if contracts == [] then None
    else if name == contracts[0].name && cwd == contracts[0].cwd && port == contracts[0].port then Some(contracts[0])
    else FirstContract(contracts[1..], name, cwd, port)
  }

  function AllowedContract(name: string, cwd: string, port: Port): Option<Contract> {
    FirstContract(CONTRACTS, name, cwd, port)
  }

  /** The contract a service is held to, decided by its name and directory alone. */
  function ContractOf(name: string, cwd: string): Option<Contract> {
    if name == FRONT_CONTRACT.name && cwd == FRONT_CONTRACT.cwd then Some(FRONT_CONTRACT)
    else if name == WS_CONTRACT.name && cwd == WS_CONTRACT.cwd then Some(WS_CONTRACT)
    else if name == NODE_CONTRACT.name && cwd == NODE_CONTRACT.cwd then Some(NODE_CONTRACT)
    else None
  }

  lemma ContractsHaveDistinctNames()
    ensures FRONT_CONTRACT.name != WS_CONTRACT.name
    ensures FRONT_CONTRACT.name != NODE_CONTRACT.name
    ensures WS_CONTRACT.name != NODE_CONTRACT.name
  {
    assert FRONT_CONTRACT.name[0] == 'f' && WS_CONTRACT.name[0] == 'w' && NODE_CONTRACT.name[0] == 'n';
  }

  /** At most one port is allowed for a service, so the source's "more than one
      match" error can never be taken. */
  lemma AllowedPortIsUnique(name: string, cwd: string, port: Port)
    ensures AllowedContract(name, cwd, port).Some? <==>
            ContractOf(name, cwd).Some? && ContractOf(name, cwd).value.port == port
    ensures AllowedContract(name, cwd, port).Some? ==> AllowedContract(name, cwd, port) == ContractOf(name, cwd)
  {
    ContractsHaveDistinctNames();
    var tail, end := [WS_CONTRACT, NODE_CONTRACT], [NODE_CONTRACT];
    assert CONTRACTS[1..] == tail && tail[1..] == end && end[1..] == [];
    assert FirstContract([], name, cwd, port) == None;
    assert FirstContract(end, name, cwd, port) == FirstContract(end, name, cwd, port);
    assert FirstContract(tail, name, cwd, port).Some? ==> FirstContract(tail, name, cwd, port).value in tail;
  }

  predicate RunsContractOn(record: Record, port: Port) {
    var contract := AllowedContract(record.name, record.cwd, port);
    contract.Some? && record.execPath == contract.value.pm2ExecPath
  }

  /** `matchesPM2ContractRecord`. */
  predicate MatchesContract(record: Record) {
    RunsContractOn(record, 4550) || RunsContractOn(record, 8080) || RunsContractOn(record, 9090)
  }

  lemma MatchesContractMeans(record: Record)
    ensures MatchesContract(record) <==>
            ContractOf(record.name, record.cwd).Some? &&
            record.execPath == ContractOf(record.name, record.cwd).value.pm2ExecPath
  {
    AllowedPortIsUnique(record.name, record.cwd, 4550);
    AllowedPortIsUnique(record.name, record.cwd, 8080);
    AllowedPortIsUnique(record.name, record.cwd, 9090);
  }

  // ------------------------------------------------------ specification

  ghost predicate SocketsUnambiguous(sockets: seq<SocketOwner>) {
    && (forall s :: s in sockets ==> s.pid > 0 && s.port != 0)
    && (forall s, t :: s in sockets && t in sockets && s.port == t.port ==> s.pid == t.pid)
  }

  /** An online record that owns its contract's port. */
  ghost predicate Qualifies(record: Record, sockets: seq<SocketOwner>) {
    && record.id >= 0
    && record.status.Online?
    && var contract := ContractOf(record.name, record.cwd);
       contract.Some? && SocketOwner(record.pid, contract.value.port) in sockets
  }

  /** The `/proc` evidence agrees with the contract of a qualifying record. */
  ghost predicate Proven(record: Record, proc: map<int, ProcIdentity>)
    requires ContractOf(record.name, record.cwd).Some?
  {
    var contract := ContractOf(record.name, record.cwd).value;
    && record.pid in proc
    && proc[record.pid].startTicks != 0
    && record.execPath == contract.pm2ExecPath
    && proc[record.pid].execPath == contract.runtimeExecPath
    && proc[record.pid].cwd == contract.cwd
  }

  ghost function IdentityOf(record: Record, proc: map<int, ProcIdentity>): Identity
    requires ContractOf(record.name, record.cwd).Some? && Proven(record, proc)
  {
    var contract := ContractOf(record.name, record.cwd).value;
    Identity(record.id, record.name, record.pid, contract.cwd, contract.pm2ExecPath,
             contract.runtimeExecPath, contract.port, proc[record.pid].startTicks)
  }

  ghost predicate AllProven(records: seq<Record>, sockets: seq<SocketOwner>, proc: map<int, ProcIdentity>) {
    forall r :: r in records && Qualifies(r, sockets) ==> Proven(r, proc)
  }

  ghost function Selected(records: seq<Record>, sockets: seq<SocketOwner>, proc: map<int, ProcIdentity>): seq<Identity>
    requires AllProven(records, sockets, proc)
  {
    if records == [] then []
    else
      assert Front(records) <= records && forall r :: r in Front(records) ==> r in records;
      var earlier := Selected(Front(records), sockets, proc);
      if Qualifies(Last(records), sockets) then earlier + [IdentityOf(Last(records), proc)] else earlier
  }

  ghost predicate IdleInstallation(records: seq<Record>, sockets: seq<SocketOwner>) {
    && (exists r :: r in records && MatchesContract(r) && r.status.Stopped?)
    && (forall r :: r in records && MatchesContract(r) ==> !r.status.Online?)
    && sockets == []
  }

  ghost function Correlation(records: seq<Record>, sockets: seq<SocketOwner>, proc: map<int, ProcIdentity>)
    : Result<seq<Identity>, CorrelationError>
  {
    if !SocketsUnambiguous(sockets) then Err(SocketAmbiguous)
    else if !AllProven(records, sockets, proc) then Err(ProcessIdentityInvalid)
    else
      var selected := Selected(records, sockets, proc);
      if selected == [] then
        if IdleInstallation(records, sockets) then Ok([]) else Err(NoQualifyingIdentity)
      else Ok(SortById(selected))
  }

  // -------------------------------------------------------------- sorting

  /** `sort.Slice` by PM2 id; ids are distinct on every validated snapshot. */
  function InsertById(x: Identity, sorted: seq<Identity>): seq<Identity> {
    if sorted == [] then [x]
    else if x.pmid < sorted[0].pmid then [x] + sorted
    else [sorted[0]] + InsertById(x, sorted[1..])
  }

  function SortById(s: seq<Identity>): seq<Identity> {
    if s == [] then [] else InsertById(Last(s), SortById(Front(s)))
  }

  predicate DistinctPmids(s: seq<Identity>) {
    forall i, j :: 0 <= i < j < |s| ==> s[i].pmid != s[j].pmid
  }

  predicate Ascending(s: seq<Identity>) {
    forall i, j :: 0 <= i < j < |s| ==> s[i].pmid < s[j].pmid
  }

  lemma {:induction false} InsertKeepsMembers(x: Identity, sorted: seq<Identity>)
    ensures forall y :: y in InsertById(x, sorted) <==> y == x || y in sorted
    ensures |InsertById(x, sorted)| == |sorted| + 1
  {
    if sorted != [] {
      InsertKeepsMembers(x, sorted[1..]);
      assert sorted == [sorted[0]] + sorted[1..];
    }
  }

  lemma {:induction false} InsertKeepsAscending(x: Identity, sorted: seq<Identity>)
    requires Ascending(sorted)
    requires forall y :: y in sorted ==> y.pmid != x.pmid
    ensures Ascending(InsertById(x, sorted))
  {
    if sorted != [] && sorted[0].pmid <= x.pmid {
      InsertKeepsAscending(x, sorted[1..]);
      InsertKeepsMembers(x, sorted[1..]);
      var rest := InsertById(x, sorted[1..]);
      forall j | 0 <= j < |rest| ensures sorted[0].pmid < rest[j].pmid {
        assert rest[j] in rest;
        if rest[j] != x {
          var k :| 0 <= k < |sorted[1..]| && sorted[1..][k] == rest[j];
          assert sorted[k + 1] == rest[j];
        }
      }
    }
  }

  lemma {:induction false} SortByIdSorts(s: seq<Identity>)
    requires DistinctPmids(s)
    ensures Ascending(SortById(s))
    ensures forall y :: y in SortById(s) <==> y in s
    ensures |SortById(s)| == |s|
  {
    if s != [] {
      SortByIdSorts(Front(s));
      forall y | y in Front(s) ensures y.pmid != Last(s).pmid {
        var k :| 0 <= k < |Front(s)| && Front(s)[k] == y;
        assert s[k] == y;
      }
      InsertKeepsAscending(Last(s), SortById(Front(s)));
      InsertKeepsMembers(Last(s), SortById(Front(s)));
      assert s == Front(s) + [Last(s)];
    }
  }

  lemma AscendingTail(s: seq<Identity>)
    requires Ascending(s) && s != []
    ensures Ascending(s[1..])
    ensures forall y :: y in s[1..] <==> y in s && y != s[0]
    ensures forall y :: y in s ==> s[0].pmid <= y.pmid && (y.pmid == s[0].pmid ==> y == s[0])
  {
    assert s == [s[0]] + s[1..];
    assert s[0] !in s[1..];
  }

  lemma {:induction false} AscendingIsUnique(a: seq<Identity>, b: seq<Identity>)
    requires Ascending(a) && Ascending(b)
    requires forall y :: y in a <==> y in b
    ensures a == b
  {
    SameMembersSameEmptiness(a, b);
    if a != [] {
      AscendingTail(a);
      AscendingTail(b);
      assert a[0] in b && b[0] in a;
      assert a[0] == b[0];
      AscendingIsUnique(a[1..], b[1..]);
      assert a == [a[0]] + a[1..] && b == [b[0]] + b[1..];
    }
  }

  // ---------------------------------------------- what a correlation means

  ghost predicate DistinctIds(records: seq<Record>) {
    forall i, j :: 0 <= i < j < |records| ==> records[i].id != records[j].id
  }

  lemma {:induction false} SelectedMembers(records: seq<Record>, sockets: seq<SocketOwner>, proc: map<int, ProcIdentity>)
    requires AllProven(records, sockets, proc)
    ensures forall x :: x in Selected(records, sockets, proc) <==>
              exists r :: r in records && Qualifies(r, sockets) && x == IdentityOf(r, proc)
  {
    if records != [] {
      SelectedMembers(Front(records), sockets, proc);
      assert records == Front(records) + [Last(records)];
    }
  }

  lemma {:induction false} SelectedIdsDistinct(records: seq<Record>, sockets: seq<SocketOwner>, proc: map<int, ProcIdentity>)
    requires AllProven(records, sockets, proc) && DistinctIds(records)
    ensures DistinctPmids(Selected(records, sockets, proc))
  {
    if records != [] {
      assert records == Front(records) + [Last(records)];
      SelectedIdsDistinct(Front(records), sockets, proc);
      SelectedMembers(Front(records), sockets, proc);
      var earlier := Selected(Front(records), sockets, proc);
      forall i | 0 <= i < |earlier| ensures earlier[i].pmid != Last(records).id {
        assert earlier[i] in earlier;
        var r :| r in Front(records) && Qualifies(r, sockets) && earlier[i] == IdentityOf(r, proc);
        var k :| 0 <= k < |Front(records)| && Front(records)[k] == r;
        assert records[k] == r;
      }
    }
  }

  /** The exact meaning of a correlation of records with distinct ids: it succeeds
      with `ids` if and only if the sockets are unambiguous, every qualifying
      record is proven, and `ids` lists in ascending id order exactly the
      identities of the qualifying records, where an empty list further needs an
      installation that is wholly stopped. */
  lemma CorrelationMeans(records: seq<Record>, sockets: seq<SocketOwner>, proc: map<int, ProcIdentity>, ids: seq<Identity>)
    requires DistinctIds(records)
    ensures Correlation(records, sockets, proc) == Ok(ids) <==>
            && SocketsUnambiguous(sockets)
            && AllProven(records, sockets, proc)
            && Ascending(ids)
            && (forall x :: x in ids <==> exists r :: r in records && Qualifies(r, sockets) && x == IdentityOf(r, proc))
            && (ids == [] ==> IdleInstallation(records, sockets))
  {
    if SocketsUnambiguous(sockets) && AllProven(records, sockets, proc) {
      var selected := Selected(records, sockets, proc);
      SelectedMembers(records, sockets, proc);
      SelectedIdsDistinct(records, sockets, proc);
      SortByIdSorts(selected);
      var sorted := SortById(selected);
      if selected == [] {
        assert forall x :: x !in selected;
        if forall x :: x in ids <==> exists r :: r in records && Qualifies(r, sockets) && x == IdentityOf(r, proc) {
          SameMembersSameEmptiness(ids, selected);
        }
      } else {
        assert selected[0] in selected && selected[0] in sorted && sorted != [];
        if Ascending(ids) && forall x :: x in ids <==> exists r :: r in records && Qualifies(r, sockets) && x == IdentityOf(r, proc) {
          assert forall x :: x in ids <==> x in selected;
          AscendingIsUnique(ids, sorted);
        }
      }
    }
  }

  /** Which error a correlation that does not succeed reports. */
  lemma CorrelationFails(records: seq<Record>, sockets: seq<SocketOwner>, proc: map<int, ProcIdentity>)
    ensures var result := Correlation(records, sockets, proc);
            && (result == Err(SocketAmbiguous) <==> !SocketsUnambiguous(sockets))
            && (result == Err(ProcessIdentityInvalid) <==>
                  SocketsUnambiguous(sockets) && exists r :: r in records && Qualifies(r, sockets) && !Proven(r, proc))
            && (result == Err(NoQualifyingIdentity) <==>
                  && SocketsUnambiguous(sockets) && !IdleInstallation(records, sockets)
                  && forall r :: r in records ==> !Qualifies(r, sockets))
            && (result.Err? ==> result.error in {SocketAmbiguous, ProcessIdentityInvalid, NoQualifyingIdentity})
  {
    hide IdleInstallation, SocketsUnambiguous, SortById;
    if SocketsUnambiguous(sockets) && AllProven(records, sockets, proc) {
      SelectedMembers(records, sockets, proc);
      var selected := Selected(records, sockets, proc);
      if selected != [] {
        assert selected[0] in selected;
      } else {
        forall r | r in records ensures !Qualifies(r, sockets) {
          assert Qualifies(r, sockets) ==> IdentityOf(r, proc) in selected;
        }
      }
    }
  }

  /** Neither the order of the records nor the order or repetition of the sockets
      can change the outcome: success, result and error are all the same. */
  lemma CorrelationIgnoresOrder(
      a: seq<Record>, b: seq<Record>, sa: seq<SocketOwner>, sb: seq<SocketOwner>, proc: map<int, ProcIdentity>)
    requires DistinctIds(a) && DistinctIds(b)
    requires forall r :: r in a <==> r in b
    requires forall s :: s in sa <==> s in sb
    ensures Correlation(a, sa, proc) == Correlation(b, sb, proc)
  {
    assert SocketsUnambiguous(sa) == SocketsUnambiguous(sb);
    forall r ensures Qualifies(r, sa) == Qualifies(r, sb) {
    }
    assert AllProven(a, sa, proc) == AllProven(b, sb, proc);
    if SocketsUnambiguous(sa) && AllProven(a, sa, proc) {
      SelectedMembers(a, sa, proc);
      SelectedMembers(b, sb, proc);
      SelectedIdsDistinct(a, sa, proc);
      SelectedIdsDistinct(b, sb, proc);
      var x, y := Selected(a, sa, proc), Selected(b, sb, proc);
      assert forall i :: i in x <==> i in y;
      SortByIdSorts(x);
      SortByIdSorts(y);
      AscendingIsUnique(SortById(x), SortById(y));
      SameMembersSameEmptiness(x, y);
      SameMembersSameEmptiness(sa, sb);
    }
  }

  /** Online records own pairwise different process ids. */
  ghost predicate DistinctOnlinePids(records: seq<Record>) {
    forall i, j :: 0 <= i < j < |records| && records[i].status.Online? && records[j].status.Online? ==>
      records[i].pid != records[j].pid
  }

  /** Where a selected identity comes from: an online record with its id and process,
      whose contract has its port. */
  lemma SelectedFrom(records: seq<Record>, sockets: seq<SocketOwner>, proc: map<int, ProcIdentity>, ids: seq<Identity>, x: Identity)
    returns (k: nat)
    requires DistinctIds(records) && Correlation(records, sockets, proc) == Ok(ids) && x in ids
    ensures k < |records| && records[k].status.Online? && records[k].id == x.pmid && records[k].pid == x.pid
    ensures SocketOwner(x.pid, x.port) in sockets && x.port in {4550, 8080, 9090}
  {
    hide Correlation, DistinctIds, Ascending, SocketsUnambiguous, IdleInstallation;
    CorrelationMeans(records, sockets, proc, ids);
    var r :| r in records && Qualifies(r, sockets) && x == IdentityOf(r, proc);
    k :| 0 <= k < |records| && records[k] == r;
  }

  lemma SelectedPairDiffers(records: seq<Record>, sockets: seq<SocketOwner>, proc: map<int, ProcIdentity>, ids: seq<Identity>, i: nat, j: nat)
    requires DistinctIds(records) && DistinctOnlinePids(records) && Correlation(records, sockets, proc) == Ok(ids)
    requires i < j < |ids|
    ensures ids[i].pmid != ids[j].pmid && ids[i].pid != ids[j].pid && ids[i].port != ids[j].port
  {
    hide Correlation, DistinctIds, Qualifies, Proven, IdentityOf, IdleInstallation;
    CorrelationMeans(records, sockets, proc, ids);
    var k := SelectedFrom(records, sockets, proc, ids, ids[i]);
    var l := SelectedFrom(records, sockets, proc, ids, ids[j]);
    if k < l { assert records[k].pid != records[l].pid; } else { assert records[l].pid != records[k].pid; }
  }

  /** The selected identities differ pairwise in id, process id and port; as only
      three ports have a contract, at most three are ever selected. */
  lemma CorrelationIsInjective(records: seq<Record>, sockets: seq<SocketOwner>, proc: map<int, ProcIdentity>, ids: seq<Identity>)
    requires DistinctIds(records) && DistinctOnlinePids(records)
    requires Correlation(records, sockets, proc) == Ok(ids)
    ensures forall i, j :: 0 <= i < j < |ids| ==>
              ids[i].pmid != ids[j].pmid && ids[i].pid != ids[j].pid && ids[i].port != ids[j].port
    ensures forall x :: x in ids ==> x.port in {4550, 8080, 9090}
    ensures |ids| <= 3
  {
    hide Correlation, DistinctIds, DistinctOnlinePids;
    forall x | x in ids ensures x.port in {4550, 8080, 9090} {
      var _ := SelectedFrom(records, sockets, proc, ids, x);
    }
    forall i: nat, j: nat | i < j < |ids|
      ensures ids[i].pmid != ids[j].pmid && ids[i].pid != ids[j].pid && ids[i].port != ids[j].port
    {
      SelectedPairDiffers(records, sockets, proc, ids, i, j);
    }
    AtMostThree(ids);
  }

  lemma AtMostThree(ids: seq<Identity>)
    requires forall i, j :: 0 <= i < j < |ids| ==> ids[i].port != ids[j].port
    requires forall x :: x in ids ==> x.port in {4550, 8080, 9090}
    ensures |ids| <= 3
  {
    PortsAreCounted(ids);
    SubsetSize(PortSet(ids), {4550, 8080, 9090});
  }

  function PortSet(ids: seq<Identity>): (ports: set<Port>)
    ensures forall p :: p in ports <==> exists x :: x in ids && x.port == p
  {
    if ids == [] then {}
    else
      assert ids == Front(ids) + [Last(ids)];
      PortSet(Front(ids)) + {Last(ids).port}
  }

  lemma {:induction false} PortsAreCounted(ids: seq<Identity>)
    requires forall i, j :: 0 <= i < j < |ids| ==> ids[i].port != ids[j].port
    ensures |PortSet(ids)| == |ids|
  {
    if ids != [] {
      PortsAreCounted(Front(ids));
      assert Last(ids).port !in PortSet(Front(ids));
    }
  }

  // -------------------------------------------------------- implementation

  ghost predicate IndexesSockets(owners: map<int, set<Port>>, sockets: seq<SocketOwner>) {
    forall pid: int, port: Port :: (pid in owners && port in owners[pid]) <==> SocketOwner(pid, port) in sockets
  }

  /** The first loop of `CorrelatePM2`: group the listed ports by owner. */
  method OwnersByPid(sockets: seq<SocketOwner>) returns (result: Result<map<int, set<Port>>, CorrelationError>)
    ensures result.Ok? <==> SocketsUnambiguous(sockets)
    ensures result.Ok? ==> IndexesSockets(result.value, sockets)
    ensures result.Err? ==> result.error == SocketAmbiguous
  {
    var owners: map<int, set<Port>> := map[];
    var ports: map<Port, int> := map[];
    for i := 0 to |sockets|
      invariant forall s :: s in sockets[..i] ==> s.pid > 0 && s.port != 0
      invariant forall s :: s in sockets[..i] ==> s.port in ports && ports[s.port] == s.pid
      invariant forall p :: p in ports ==> SocketOwner(ports[p], p) in sockets[..i]
      invariant IndexesSockets(owners, sockets[..i])
    {
      var socket := sockets[i];
      assert sockets[..i + 1] == sockets[..i] + [socket];
      assert socket in sockets;
      if socket.pid <= 0 || socket.port == 0 {
        return Err(SocketAmbiguous);
      }
      if socket.port in ports && ports[socket.port] != socket.pid {
        assert SocketOwner(ports[socket.port], socket.port) in sockets;
        return Err(SocketAmbiguous);
      }
      ports := ports[socket.port := socket.pid];
      if socket.pid !in owners {
        owners := owners[socket.pid := {}];
      }
      owners := owners[socket.pid := owners[socket.pid] + {socket.port}];
    }
    assert sockets[..|sockets|] == sockets;
    return Ok(owners);
  }

  /** The inner loop of `CorrelatePM2`, over the ports one process owns in any order. */
  method MatchPorts(record: Record, candidates: set<Port>) returns (matches: nat, port: Port, contract: Option<Contract>)
    ensures var wanted := ContractOf(record.name, record.cwd);
            && matches == (if wanted.Some? && wanted.value.port in candidates then 1 else 0)
            && (matches == 1 ==> contract == wanted && port == wanted.value.port)
  {
    matches, port, contract := 0, 0, None;
    ghost var wanted := ContractOf(record.name, record.cwd);
    var unseen := candidates;
    while unseen != {}
      invariant unseen <= candidates
      invariant matches == if wanted.Some? && wanted.value.port in candidates - unseen then 1 else 0
      invariant matches == 1 ==> contract == wanted && port == wanted.value.port
    {
      var candidate :| candidate in unseen;
      unseen := unseen - {candidate};
      AllowedPortIsUnique(record.name, record.cwd, candidate);
      var allowed := AllowedContract(record.name, record.cwd, candidate);
      if allowed.Some? {
        port, contract, matches := candidate, allowed, matches + 1;
      }
    }
  }

  method CorrelatePM2(records: seq<Record>, sockets: seq<SocketOwner>, proc: map<int, ProcIdentity>)
    returns (result: Result<seq<Identity>, CorrelationError>)
    ensures result == Correlation(records, sockets, proc)
  {
    hide SocketsUnambiguous, MatchesContract, SortById, ContractOf;
    var indexed := OwnersByPid(sockets);
    if indexed.Err? {
      return Err(indexed.error);
    }
    var owners := indexed.value;
    var selected: seq<Identity> := [];
    var relevantStopped, relevantOnline := false, false;
    for i := 0 to |records|
      invariant AllProven(records[..i], sockets, proc)
      invariant selected == Selected(records[..i], sockets, proc)
      invariant relevantStopped <==> exists r :: r in records[..i] && MatchesContract(r) && r.status.Stopped?
      invariant relevantOnline <==> exists r :: r in records[..i] && MatchesContract(r) && r.status.Online?
    {
      var record := records[i];
      assert records[..i + 1] == records[..i] + [record];
      assert Front(records[..i + 1]) == records[..i] && Last(records[..i + 1]) == record;
      assert record in records;
      if MatchesContract(record) {
        relevantStopped := relevantStopped || record.status.Stopped?;
        relevantOnline := relevantOnline || record.status.Online?;
      }
      if record.id < 0 {
        continue;
      }
      var candidates := if record.pid in owners then owners[record.pid] else {};
      var matches, port, contract := MatchPorts(record, candidates);
      if matches == 0 || !record.status.Online? {
        continue;
      }
      if matches != 1 {
        return Err(SocketAmbiguous);
      }
      assert Qualifies(record, sockets);
      if record.pid !in proc || proc[record.pid].startTicks == 0
         || record.execPath != contract.value.pm2ExecPath
         || proc[record.pid].execPath != contract.value.runtimeExecPath
         || proc[record.pid].cwd != contract.value.cwd
      {
        return Err(ProcessIdentityInvalid);
      }
      var identity := proc[record.pid];
      selected := selected + [Identity(record.id, record.name, record.pid, identity.cwd, record.execPath,
                                       identity.execPath, port, identity.startTicks)];
    }
    assert records[..|records|] == records;
    if selected == [] {
      if relevantStopped && !relevantOnline && |sockets| == 0 {
        return Ok([]);
      }
      return Err(NoQualifyingIdentity);
    }
    return Ok(SortById(selected));
  }
}
