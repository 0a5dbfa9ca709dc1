/** The staging file and the lock of a backup
    (internal/migration/destination_store.go). */
module DestinationStore {
  import opened Basics
  import opened BackupDisk

  datatype PrepareError = Locked | DestinationFailure

  const ATTEMPTS: nat := 8

  /** `osStagedArtifact`. */
  datatype Artifact = Artifact(path: Name, closed: bool)

  /** Choosing a staging name, `left` attempts before giving up; the lock is held. */
  function NameStaging(d: Disk, left: nat): (Result<Artifact, PrepareError>, Disk)
    decreases left
  {
    var reply, d1 := d.oracle(d.calls), Called(d);
    if left == 0 then (Err(DestinationFailure), Remove(d, Lock))
    else if !reply.ok then (Err(DestinationFailure), Remove(d1, Lock))
    else if Staged(reply.id) in d.files then NameStaging(d1, left - 1)
    else if !reply.accepted then (Err(DestinationFailure), Remove(d1, Lock))
    else
      var path := Staged(reply.id);
      var (protected, d2) := Ask(d1.(files := d1.files[path := Bytes([])]));
      if protected then (Ok(Artifact(path, false)), d2)
      else (Err(DestinationFailure), Remove(Remove(d2, path), Lock))
  }

  /** The lock and staging part of `OSDestinationStore.Prepare`. */
  function PrepareDisk(d: Disk): (Result<Artifact, PrepareError>, Disk) {
    if Lock in d.files then (Err(Locked), Called(d))
    else if !d.oracle(d.calls).ok then (Err(DestinationFailure), Called(d))
    else
      var (closed, d1) := Ask(Called(d).(files := d.files[Lock := Bytes([])]));
      if closed then NameStaging(d1, ATTEMPTS) else (Err(DestinationFailure), Remove(d1, Lock))
  }

  lemma {:induction false} NamingMeans(d0: Disk, d: Disk, left: nat)
    requires Lock !in d0.files && d == d0.(calls := d.calls, files := d0.files[Lock := Bytes([])])
    ensures var (result, d') := NameStaging(d, left);
            && d' == d.(calls := d'.calls, files := d'.files) && d'.calls >= d.calls
            && (result.Err? ==> d'.files == d0.files)
            && (result.Ok? ==>
                  && !result.value.closed && result.value.path.Staged? && result.value.path !in d0.files
                  && d'.files == d0.files[Lock := Bytes([])][result.value.path := Bytes([])])
    decreases left
  {
    assert d.files - {Lock} == d0.files;
    var path := Staged(d.oracle(d.calls).id);
    if path !in d.files {
      assert d.files[path := Bytes([])] - {path} - {Lock} == d0.files;
    } else if left > 0 {
      NamingMeans(d0, Called(d), left - 1);
    }
  }

  /** The name of call `at` is taken already. */
  predicate Taken(d: Disk, at: nat) {
    d.oracle(at).ok && Staged(d.oracle(at).id) in d.files
  }

  /** The name of call `at` is free, and its file is created and protected. */
  predicate Names(d: Disk, at: nat) {
    d.oracle(at).ok && Staged(d.oracle(at).id) !in d.files && d.oracle(at).accepted && d.oracle(at + 1).ok
  }

  /** The attempts from call `from` on come to a name with call `at`. */
  ghost predicate Chooses(d: Disk, from: nat, at: nat) {
    (forall i: nat :: from <= i < at ==> Taken(d, i)) && Names(d, at)
  }

  ghost predicate ChoosesWithin(d: Disk, from: nat, left: nat) {
    exists at: nat :: from <= at < from + left && Chooses(d, from, at)
  }

  lemma {:induction false} NamingSucceeds(d: Disk, left: nat)
    ensures var (result, _) := NameStaging(d, left);
            && (result.Ok? <==> ChoosesWithin(d, d.calls, left))
            && (forall at: nat :: d.calls <= at < d.calls + left && Chooses(d, d.calls, at) ==>
                  result == Ok(Artifact(Staged(d.oracle(at).id), false)))
    decreases left
  {
    hide Taken, Names, Chooses;
    var d1 := Called(d);
    if left > 0 {
      NamesOrPasses(d, left);
      forall at: nat | d.calls <= at
        ensures Chooses(d, d.calls, at) <==> if at == d.calls then Names(d, at) else Taken(d, d.calls) && Chooses(d1, d1.calls, at)
      {
        ChoosesLater(d, at);
      }
      if Taken(d, d.calls) {
        NamingSucceeds(d1, left - 1);
        if NameStaging(d1, left - 1).0.Ok? {
          var at: nat :| d1.calls <= at < d1.calls + (left - 1) && Chooses(d1, d1.calls, at);
          assert Chooses(d, d.calls, at);
        }
      } else if Names(d, d.calls) {
        assert Chooses(d, d.calls, d.calls);
      }
    }
  }

  lemma NamesOrPasses(d: Disk, left: nat)
    requires left > 0
    ensures Taken(d, d.calls) ==> NameStaging(d, left) == NameStaging(Called(d), left - 1)
    ensures !Taken(d, d.calls) && !Names(d, d.calls) ==> NameStaging(d, left).0.Err?
    ensures Names(d, d.calls) ==> !Taken(d, d.calls) && NameStaging(d, left).0 == Ok(Artifact(Staged(d.oracle(d.calls).id), false))
  {
  }

  lemma ChoosesLater(d: Disk, at: nat)
    requires d.calls <= at
    ensures Chooses(d, d.calls, at) <==>
              if at == d.calls then Names(d, at) else Taken(d, d.calls) && Chooses(Called(d), d.calls + 1, at)
  {
    var d1 := Called(d);
    assert forall i: nat :: Taken(d, i) == Taken(d1, i);
    assert Names(d, at) == Names(d1, at);
  }

  /** A preparation succeeds exactly when the directory is not locked, the lock file is
      written and closed, and one of the eight attempts chooses a name; that name it is. */
  lemma PrepareSucceeds(d: Disk)
    ensures var (result, _) := PrepareDisk(d);
            && (result.Ok? <==>
                  && Lock !in d.files && d.oracle(d.calls).ok && d.oracle(d.calls + 1).ok
                  && ChoosesWithin(d, d.calls + 2, ATTEMPTS))
            && (forall at: nat :: result.Ok? && at < d.calls + 2 + ATTEMPTS && Chooses(d, d.calls + 2, at) && at >= d.calls + 2 ==>
                  result == Ok(Artifact(Staged(d.oracle(at).id), false)))
  {
    hide NameStaging;
    var d1 := Called(Called(d).(files := d.files[Lock := Bytes([])]));
    NamingSucceeds(d1, ATTEMPTS);
    assert forall i: nat :: Taken(d1, i) == Taken(d, i);
    assert forall i: nat :: Names(d1, i) == Names(d, i);
    assert forall at: nat :: Chooses(d1, d1.calls, at) <==> Chooses(d, d.calls + 2, at);
  }

  /** `OSDestinationStore.Prepare`. Success adds exactly the lock and an empty staging
      file under a name that was free; every failure leaves the directory as it was,
      and a directory already locked is refused. */
  method Prepare(d: Disk) returns (result: Result<Artifact, PrepareError>, d': Disk)
    ensures (result, d') == PrepareDisk(d)
    ensures d' == d.(calls := d'.calls, files := d'.files) && d'.calls >= d.calls
    ensures result.Ok? ==>
              && Lock !in d.files && !result.value.closed
              && result.value.path.Staged? && result.value.path !in d.files
              && d'.files == d.files[Lock := Bytes([])][result.value.path := Bytes([])]
    ensures result.Err? ==> d'.files == d.files
    ensures Lock in d.files ==> result == Err(Locked)
  {
    PrepareMeans(d);
    if Lock in d.files {
      return Err(Locked), Called(d);
    }
    if !d.oracle(d.calls).ok {
      return Err(DestinationFailure), Called(d);
    }
    d' := Called(d).(files := d.files[Lock := Bytes([])]);
    var closed, next := Ask(d').0, Ask(d').1;
    d' := next;
    if !closed {
      return Err(DestinationFailure), Remove(d', Lock);
    }
    for attempt := 0 to ATTEMPTS
      invariant NameStaging(d', ATTEMPTS - attempt) == PrepareDisk(d)
    {
      var reply := d'.oracle(d'.calls);
      if !reply.ok {
        return Err(DestinationFailure), Remove(Called(d'), Lock);
      }
      var path := Staged(reply.id);
      if path in d'.files {
        d' := Called(d');
        continue;
      }
      d' := Called(d');
      if !reply.accepted {
        return Err(DestinationFailure), Remove(d', Lock);
      }
      d' := d'.(files := d'.files[path := Bytes([])]);
      var protected, after := Ask(d').0, Ask(d').1;
      d' := after;
      if !protected {
        return Err(DestinationFailure), Remove(Remove(d', path), Lock);
      }
      return Ok(Artifact(path, false)), d';
    }
    return Err(DestinationFailure), Remove(d', Lock);
  }

  lemma PrepareMeans(d: Disk)
    ensures var (result, d') := PrepareDisk(d);
            && d' == d.(calls := d'.calls, files := d'.files) && d'.calls >= d.calls
            && (result.Err? ==> d'.files == d.files)
            && (Lock in d.files ==> result == Err(Locked))
            && (result.Ok? ==>
                  && Lock !in d.files && !result.value.closed && result.value.path.Staged? && result.value.path !in d.files
                  && d'.files == d.files[Lock := Bytes([])][result.value.path := Bytes([])])
  {
    hide NameStaging;
    if Lock !in d.files && d.oracle(d.calls).ok {
      var (closed, d1) := Ask(Called(d).(files := d.files[Lock := Bytes([])]));
      NamingMeans(d, d1, ATTEMPTS);
      assert d1.files - {Lock} == d.files;
    }
  }

  /** The staging file of an operation, with the disk it lives on. */
  class StagedArtifact {
    const path: Name
    var closed: bool
    var disk: Disk

    constructor (path: Name, disk: Disk)
      ensures this.path == path && this.disk == disk && !closed
    {
      this.path, this.disk, this.closed := path, disk, false;
    }

    /** `Close`: once, and then the lock is gone; a failing file close keeps it. */
    method Close() returns (ok: bool)
      modifies this
      ensures closed
      ensures disk == CloseDisk(old(disk), old(closed))
      ensures ok <==> old(closed) || old(disk).oracle(old(disk).calls).ok
    {
      if closed {
        return true;
      }
      closed := true;
      ok := disk.oracle(disk.calls).ok;
      disk := Called(disk);
      if ok {
        disk := Remove(disk, Lock);
      }
    }

    /** `Cleanup`: a close and a sweep; neither the staging file nor any lock is left,
        whoever holds it. */
    method Cleanup()
      modifies this
      ensures closed
      ensures disk == Sweep(CloseDisk(old(disk), old(closed)), path)
      ensures disk.files == old(disk).files - {path, Lock}
      ensures disk == old(disk).(calls := disk.calls, files := disk.files) && disk.calls >= old(disk).calls
    {
      var _ := Close();
      disk := Remove(disk, path);
      disk := Remove(disk, Lock);
    }
  }

  function CloseDisk(d: Disk, closed: bool): Disk {
    if closed then d
    else if d.oracle(d.calls).ok then Remove(Called(d), Lock) else Called(d)
  }

  /** The removals at the end of `Cleanup`: made whatever was closed or cleaned before. */
  function Sweep(d: Disk, path: Name): Disk {
    Remove(Remove(d, path), Lock)
  }

  // ---------------------------------------------------------- lock protocol

  /** What operations sharing the directory do, one outside effect at a time: a cleanup
      is a close and then a sweep, and other operations may act in between. */
  datatype Action = Prepared(op: nat) | ClosedBy(op: nat) | SweptBy(op: nat)

  /** The shared directory, and the artifact of each operation that prepared one. */
  datatype Sharing = Sharing(disk: Disk, artifacts: map<nat, Artifact>)

  /** An operation that prepared its artifact and did not close it. */
  predicate Live(s: Sharing, op: nat) {
    op in s.artifacts && !s.artifacts[op].closed
  }

  /** Each operation prepares at most once; without an artifact there is nothing to
      close or to sweep, and a sweep comes after the own close. */
  function Act(s: Sharing, a: Action): Sharing {
    match a
    case Prepared(op) =>
      if op in s.artifacts then s
      else
        var (result, d) := PrepareDisk(s.disk);
        Sharing(d, if result.Ok? then s.artifacts[op := result.value] else s.artifacts)
    case ClosedBy(op) =>
      if op !in s.artifacts then s
      else
        var artifact := s.artifacts[op];
        Sharing(CloseDisk(s.disk, artifact.closed), s.artifacts[op := artifact.(closed := true)])
    case SweptBy(op) =>
      if op !in s.artifacts || !s.artifacts[op].closed then s
      else s.(disk := Sweep(s.disk, s.artifacts[op].path))
  }

  function Run(s: Sharing, actions: seq<Action>): Sharing
    decreases |actions|
  {
    if actions == [] then s else Run(Act(s, actions[0]), actions[1..])
  }

  /** At most one operation is live, and then the directory is locked. */
  ghost predicate Exclusive(s: Sharing) {
    && (forall a, b :: Live(s, a) && Live(s, b) ==> a == b)
    && (forall a :: Live(s, a) ==> Lock in s.disk.files)
  }

  /** A sweep while an operation is live: of a cleanup after the own close, of a second
      cleanup, or of one that another operation came into. */
  ghost predicate LateSweep(s: Sharing, a: Action) {
    a.SweptBy? && a.op in s.artifacts && s.artifacts[a.op].closed && exists other :: Live(s, other)
  }

  ghost predicate NoLateSweep(s: Sharing, actions: seq<Action>)
    decreases |actions|
  {
    actions == [] || (!LateSweep(s, actions[0]) && NoLateSweep(Act(s, actions[0]), actions[1..]))
  }

  /** A late sweep is exactly what breaks mutual exclusion, in one step. */
  lemma OnlyLateSweepBreaks(s: Sharing, a: Action)
    requires Exclusive(s)
    ensures Exclusive(Act(s, a)) <==> !LateSweep(s, a)
  {
    hide PrepareDisk;
    var t := Act(s, a);
    assert forall op: nat :: op != a.op ==> Live(t, op) == Live(s, op);
    PrepareMeans(s.disk);
    match a
    case Prepared(op) =>
      assert Live(t, op) ==> Live(s, op) || Lock in t.disk.files;
    case ClosedBy(op) =>
      assert !Live(t, op);
      assert Live(s, op) || t.disk == s.disk;
    case SweptBy(op) =>
      assert t.artifacts == s.artifacts;
      assert forall other :: Live(t, other) <==> Live(s, other);
  }

  /** Without late sweeps at most one operation is live at any time, over every
      interleaving; the first late sweep breaks it. */
  lemma {:induction false} ExclusiveRun(s: Sharing, actions: seq<Action>)
    requires Exclusive(s)
    ensures NoLateSweep(s, actions) <==> forall n: nat :: n <= |actions| ==> Exclusive(Run(s, actions[..n]))
    decreases |actions|
  {
    hide Act, Exclusive, LateSweep;
    assert actions[..0] == [];
    if actions != [] {
      var t, rest := Act(s, actions[0]), actions[1..];
      OnlyLateSweepBreaks(s, actions[0]);
      assert forall n: nat :: n < |actions| ==> actions[..n + 1] == [actions[0]] + rest[..n];
      assert forall n: nat :: n < |actions| ==> Run(s, actions[..n + 1]) == Run(t, rest[..n]);
      assert Run(t, rest[..0]) == t;
      if Exclusive(t) {
        ExclusiveRun(t, rest);
        RunsAgree(s, actions);
      }
    }
  }

  lemma RunsAgree(s: Sharing, actions: seq<Action>)
    requires actions != []
    requires forall n: nat :: n < |actions| ==> Run(s, actions[..n + 1]) == Run(Act(s, actions[0]), actions[1..][..n])
    requires Exclusive(s)
    ensures (forall n: nat :: n <= |actions| ==> Exclusive(Run(s, actions[..n]))) <==>
              forall n: nat :: n <= |actions[1..]| ==> Exclusive(Run(Act(s, actions[0]), actions[1..][..n]))
  {
    hide Act, Exclusive;
    assert actions[..0] == [];
    if forall n: nat :: n <= |actions| ==> Exclusive(Run(s, actions[..n])) {
      forall n: nat | n <= |actions[1..]| ensures Exclusive(Run(Act(s, actions[0]), actions[1..][..n])) {
        assert Exclusive(Run(s, actions[..n + 1]));
      }
    }
    if forall n: nat :: n <= |actions[1..]| ==> Exclusive(Run(Act(s, actions[0]), actions[1..][..n])) {
      forall n: nat | n <= |actions| ensures Exclusive(Run(s, actions[..n])) {
        if n > 0 {
          assert Exclusive(Run(Act(s, actions[0]), actions[1..][..n - 1]));
        }
      }
    }
  }

  /** A whole cleanup with nobody in between keeps mutual exclusion exactly when no
      other operation is live. */
  lemma CleanupExactly(s: Sharing, op: nat)
    requires Exclusive(s) && op in s.artifacts
    ensures Exclusive(Act(Act(s, ClosedBy(op)), SweptBy(op))) <==> forall other :: Live(s, other) ==> other == op
  {
    var t := Act(s, ClosedBy(op));
    OnlyLateSweepBreaks(s, ClosedBy(op));
    OnlyLateSweepBreaks(t, SweptBy(op));
    assert forall other: nat :: other != op ==> Live(t, other) == Live(s, other);
    assert !Live(t, op);
  }

  // -------------------------------------------------------------- witnesses

  /** A directory in which every call succeeds and staging names follow the calls. */
  function QuietDisk(): Disk {
    Disk((n: nat) => Reply(true, [], n, 0, true), _ => "s", 0, map[], 0, 0)
  }

  lemma QuietPrepare(s: Sharing, op: nat)
    requires s.disk.oracle == QuietDisk().oracle && Lock !in s.disk.files && op !in s.artifacts
    requires forall id: nat :: id > s.disk.calls ==> Staged(id) !in s.disk.files
    ensures var t := Act(s, Prepared(op));
            && t.disk.oracle == s.disk.oracle && t.artifacts == s.artifacts[op := Artifact(Staged(s.disk.calls + 2), false)]
            && t.disk.calls == s.disk.calls + 4
            && t.disk.files == s.disk.files[Lock := Bytes([])][Staged(s.disk.calls + 2) := Bytes([])]
  {
    assert ATTEMPTS == 8;
  }

  /** Two operations live together, after the first was cleaned up twice: the second
      cleanup took the lock of the next operation away. */
  lemma SecondCleanupAdmitsTwo()
    ensures var s := Run(Sharing(QuietDisk(), map[]),
                         [Prepared(0), ClosedBy(0), SweptBy(0), Prepared(1), ClosedBy(0), SweptBy(0), Prepared(2)]);
            Live(s, 1) && Live(s, 2)
  {
    hide Act;
    var s0 := Sharing(QuietDisk(), map[]);
    QuietPrepare(s0, 0);
    var s1 := Act(s0, Prepared(0));
    var s3 := CleanedUp(s1, 0);
    QuietPrepare(s3, 1);
    var s4 := Act(s3, Prepared(1));
    var s6 := CleanedUp(s4, 0);
    QuietPrepare(s6, 2);
    RunFour(s0, Prepared(0), ClosedBy(0), SweptBy(0), Prepared(1), [ClosedBy(0), SweptBy(0), Prepared(2)]);
    RunThree(s4, ClosedBy(0), SweptBy(0), Prepared(2));
    assert [Prepared(0), ClosedBy(0), SweptBy(0), Prepared(1), ClosedBy(0), SweptBy(0), Prepared(2)] ==
           [Prepared(0), ClosedBy(0), SweptBy(0), Prepared(1)] + [ClosedBy(0), SweptBy(0), Prepared(2)];
  }

  /** The same by a single cleanup, when the next operation comes between its close and
      its sweep, or between an own close and a late cleanup. */
  lemma LateCleanupAdmitsTwo()
    ensures var s := Run(Sharing(QuietDisk(), map[]), [Prepared(0), ClosedBy(0), Prepared(1), SweptBy(0), Prepared(2)]);
            Live(s, 1) && Live(s, 2)
  {
    hide Act;
    var s0 := Sharing(QuietDisk(), map[]);
    QuietPrepare(s0, 0);
    var s1 := Act(s0, Prepared(0));
    var s2 := ClosedUp(s1, 0);
    QuietPrepare(s2, 1);
    var s3 := Act(s2, Prepared(1));
    var s4 := SweptUp(s3, 0);
    QuietPrepare(s4, 2);
    RunFour(s0, Prepared(0), ClosedBy(0), Prepared(1), SweptBy(0), [Prepared(2)]);
    var last: seq<Action> := [Prepared(2)];
    assert last[1..] == [] && Run(s4, last) == Act(s4, Prepared(2));
    assert [Prepared(0), ClosedBy(0), Prepared(1), SweptBy(0), Prepared(2)] ==
           [Prepared(0), ClosedBy(0), Prepared(1), SweptBy(0)] + [Prepared(2)];
  }

  lemma ClosedUp(s: Sharing, op: nat) returns (t: Sharing)
    requires s.disk.oracle == QuietDisk().oracle && Live(s, op)
    ensures t == Act(s, ClosedBy(op)) && t.disk.oracle == s.disk.oracle && s.disk.calls <= t.disk.calls
    ensures t.disk.files == s.disk.files - {Lock} && t.artifacts == s.artifacts[op := s.artifacts[op].(closed := true)]
  {
    t := Act(s, ClosedBy(op));
  }

  lemma SweptUp(s: Sharing, op: nat) returns (t: Sharing)
    requires op in s.artifacts && s.artifacts[op].closed
    ensures t == Act(s, SweptBy(op)) && t.disk.oracle == s.disk.oracle && s.disk.calls <= t.disk.calls
    ensures t.disk.files == s.disk.files - {s.artifacts[op].path} - {Lock} && t.artifacts == s.artifacts
  {
    t := Act(s, SweptBy(op));
  }

  lemma CleanedUp(s: Sharing, op: nat) returns (t: Sharing)
    requires s.disk.oracle == QuietDisk().oracle && op in s.artifacts
    ensures t == Act(Act(s, ClosedBy(op)), SweptBy(op)) && t.disk.oracle == s.disk.oracle && s.disk.calls <= t.disk.calls
    ensures t.disk.files == s.disk.files - {s.artifacts[op].path} - {Lock}
    ensures t.artifacts == s.artifacts[op := s.artifacts[op].(closed := true)]
  {
    t := Act(Act(s, ClosedBy(op)), SweptBy(op));
  }

  lemma RunThree(s: Sharing, a: Action, b: Action, c: Action)
    ensures Run(s, [a, b, c]) == Act(Act(Act(s, a), b), c)
  {
    hide Act;
    assert [a, b, c][1..] == [b, c] && [b, c][1..] == [c] && [c][1..] == [];
    assert Run(Act(Act(s, a), b), [c]) == Act(Act(Act(s, a), b), c);
  }

  lemma RunFour(s: Sharing, a: Action, b: Action, c: Action, d: Action, rest: seq<Action>)
    ensures Run(s, [a, b, c, d] + rest) == Run(Act(Act(Act(Act(s, a), b), c), d), rest)
  {
    hide Act;
    assert ([a, b, c, d] + rest)[1..] == [b, c, d] + rest && ([b, c, d] + rest)[1..] == [c, d] + rest;
    assert ([c, d] + rest)[1..] == [d] + rest && ([d] + rest)[1..] == rest;
    assert Run(Act(Act(s, a), b), [c, d] + rest) == Run(Act(Act(Act(s, a), b), c), [d] + rest);
  }
}
