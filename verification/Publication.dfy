/** Publishing a validated dump with its manifest
    (internal/migration/manifest.go and restore_backup.go). */
module Publication {
  import opened Basics
  import opened BackupDisk

  /** The one moment at which a staged manifest is left behind: it was written, and
      the context ended during that very write. */
  predicate Window(d: Disk, ctx: Context, from: Name) {
    && !Done(ctx, d)
    && Hash(d, from).0.Some? && Hash(d, from).0.value.1 > 0 && !Done(ctx, Called(d))
    && StagedManifest(Hash(d, from).0.value.0) !in d.files && d.oracle(d.calls + 1).ok
    && Done(ctx, Called(Called(d)))
  }

  /** What a publication adds for the dump `from`. */
  function Published(files: Files, from: Name, sum: Sum): Files
    requires from in files
  {
    (files - {from})[Dump(sum) := files[from]][Manifest(sum) := ManifestFor(sum, SizeOf(files[from]))]
  }

  /** What a failed publication of an accepted dump leaves. */
  function GivenUp(d: Disk, ctx: Context, from: Name): Files {
    if Window(d, ctx, from) then
      var sum := d.sha(d.files[from]);
      (d.files - {from})[StagedManifest(sum) := ManifestFor(sum, SizeOf(d.files[from]))]
    else d.files - {from}
  }

  /** The flags of `publishBackupPair`: which of its names exist through it. */
  datatype Created = Created(dumpStaged: bool, manifestStaged: bool, dumpFinal: bool, manifestFinal: bool)

  /** The directory a publication has reached when it stops, before its cleanup. */
  ghost predicate Reached(d: Disk, ctx: Context, from: Name, sum: Sum, c: Created, files: Files) {
    if c.dumpStaged then
      && !c.dumpFinal && !c.manifestFinal
      && (if c.manifestStaged then from in d.files && StagedManifest(sum) !in d.files && !Window(d, ctx, from) &&
                                   files == d.files[StagedManifest(sum) := ManifestFor(sum, SizeOf(d.files[from]))]
          else if Window(d, ctx, from) then files - {from} == GivenUp(d, ctx, from)
          else files == d.files)
    else
      && from in d.files && Dump(sum) !in d.files && StagedManifest(sum) !in d.files && !Window(d, ctx, from)
      && (if c.manifestStaged then
            && c.dumpFinal && !c.manifestFinal
            && files == (d.files - {from})[Dump(sum) := d.files[from]][StagedManifest(sum) := ManifestFor(sum, SizeOf(d.files[from]))]
          else
            Manifest(sum) !in d.files && c.dumpFinal == c.manifestFinal && files == Published(d.files, from, sum))
  }

  /** The names a publication under `sum` needs. */
  predicate NamesFree(files: Files, sum: Sum) {
    StagedManifest(sum) !in files && Dump(sum) !in files && Manifest(sum) !in files
  }

  /** The calls of a publication from number `at` on are answered with success, and
      the context has not ended before the last of them. */
  predicate CallsPublish(d: Disk, ctx: Context, at: nat) {
    && d.oracle(at).ok && d.oracle(at + 1).ok && d.oracle(at + 2).ok && d.oracle(at + 3).ok && d.oracle(at + 4).ok
    && Alive(ctx, at + 4)
  }

  /** What a publication needs of the directory and of the outside world. */
  predicate Publishable(d: Disk, ctx: Context, from: Name) {
    && from in d.files && SizeOf(d.files[from]) > 0 && NamesFree(d.files, d.sha(d.files[from]))
    && CallsPublish(d, ctx, d.calls)
  }

  ghost predicate SameBut(d: Disk, d': Disk) {
    d'.oracle == d.oracle && d'.sha == d.sha && d'.prepared == d.prepared && d'.cleaned == d.cleaned
  }

  /** The body of `publishBackupPair`: how far it came, and whether it succeeded. */
  method Attempt(d: Disk, ctx: Context, from: Name) returns (c: Created, sum: Sum, ok: bool, d': Disk)
    requires from.Staged?
    ensures SameBut(d, d')
    ensures Reached(d, ctx, from, sum, c, d'.files)
    ensures ok <==> !c.dumpStaged && !c.manifestStaged && !c.dumpFinal
    ensures ok ==> sum == d.sha(d.files[from]) && SizeOf(d.files[from]) > 0
    ensures ok <==> Publishable(d, ctx, from)
  {
    c, sum, ok, d' := Created(true, false, false, false), "", false, d;
    if Done(ctx, d') {
      return;
    }
    var hashed;
    hashed, d' := Hash(d', from).0, Hash(d', from).1;
    if hashed.None? || hashed.value.1 == 0 || Done(ctx, d') {
      return;
    }
    var size := hashed.value.1;
    sum := hashed.value.0;
    var done, next := WriteNew(d', StagedManifest(sum), ManifestFor(sum, size)).0, WriteNew(d', StagedManifest(sum), ManifestFor(sum, size)).1;
    d' := next;
    if !done || Done(ctx, d') {
      return;
    }
    c := c.(manifestStaged := true);
    done, next := Rename(d', from, Dump(sum)).0, Rename(d', from, Dump(sum)).1;
    d' := next;
    if !done {
      return;
    }
    c := c.(dumpStaged := false, dumpFinal := true);
    assert d'.files == (d.files - {from})[Dump(sum) := d.files[from]][StagedManifest(sum) := ManifestFor(sum, size)];
    done, next := Rename(d', StagedManifest(sum), Manifest(sum)).0, Rename(d', StagedManifest(sum), Manifest(sum)).1;
    d' := next;
    if !done {
      return;
    }
    c := c.(manifestStaged := false, manifestFinal := true);
    assert d'.files == Published(d.files, from, sum);
    if Done(ctx, d') {
      return;
    }
    done, next := Ask(d').0, Ask(d').1;
    d' := next;
    if !done {
      return;
    }
    c, ok := c.(dumpFinal := false, manifestFinal := false), true;
  }

  /** The deferred cleanup of `publishBackupPair`. */
  method CleanUp(d: Disk, from: Name, sum: Sum, c: Created) returns (d': Disk)
    ensures d' == d.(files := d.files - Owned(from, sum, c))
  {
    d' := d;
    if c.dumpStaged {
      d' := Remove(d', from);
    }
    if c.manifestStaged {
      d' := Remove(d', StagedManifest(sum));
    }
    if c.dumpFinal {
      d' := Remove(d', Dump(sum));
    }
    if c.manifestFinal {
      d' := Remove(d', Manifest(sum));
    }
    assert d'.files == d.files - Owned(from, sum, c);
  }

  function Owned(from: Name, sum: Sum, c: Created): set<Name> {
    (if c.dumpStaged then {from} else {}) + (if c.manifestStaged then {StagedManifest(sum)} else {}) +
    (if c.dumpFinal then {Dump(sum)} else {}) + (if c.manifestFinal then {Manifest(sum)} else {})
  }

  /** Whatever a failed publication had reached, removing what it owns gives back
      the directory without the staged dump. */
  lemma CleanUpUndoes(d: Disk, ctx: Context, from: Name, sum: Sum, c: Created, files: Files)
    requires from.Staged? && Reached(d, ctx, from, sum, c, files)
    requires c.dumpStaged || c.manifestStaged || c.dumpFinal
    ensures files - Owned(from, sum, c) == GivenUp(d, ctx, from)
  {
    hide Window;
    var rest := files - Owned(from, sum, c);
    if c.dumpStaged {
      if c.manifestStaged {
        assert rest == d.files - {from};
      } else if Window(d, ctx, from) {
        assert rest == files - {from};
      } else {
        assert rest == d.files - {from};
      }
    } else if c.manifestStaged {
      assert rest == d.files - {from};
    } else {
      assert rest == d.files - {from};
    }
  }

  /** `publishBackupPair` of a staged dump whose request was `accepted`.

      It succeeds exactly when the request is accepted, the dump is there and not
      empty, its three names are free, and its calls go through. Success removes the
      staging name and adds exactly two names that were absent, and the pair passes the
      later revalidation. Failure removes only the staged
      dump, and leaves the staged manifest behind exactly in the window; a refused
      request changes nothing. */
  method PublishBackupPair(d: Disk, ctx: Context, from: Name, accepted: bool) returns (ref: Option<BackupRef>, d': Disk)
    requires from.Staged? && forall c :: d.sha(c) != ""
    ensures SameBut(d, d')
    ensures ref.Some? ==>
              && from in d.files && ref.value.dump !in d.files && ref.value.manifest !in d.files
              && ref.value.dump == Dump(ref.value.sum) && ref.value.manifest == Manifest(ref.value.sum)
              && d'.files == Published(d.files, from, ref.value.sum)
              && ValidRestoreBackup(d'.files, d.sha, ref.value)
    ensures ref.None? ==> d'.files == if accepted then GivenUp(d, ctx, from) else d.files
    ensures accepted && Window(d, ctx, from) ==> ref.None?
    ensures ref.Some? <==> accepted && Publishable(d, ctx, from)
  {
    hide Window, GivenUp, Publishable;
    if !accepted {
      return None, d;
    }
    var c, sum, ok, reached := Attempt(d, ctx, from);
    d' := CleanUp(reached, from, sum, c);
    if !ok {
      ref := None;
      CleanUpUndoes(d, ctx, from, sum, c, reached.files);
    } else {
      ref := Some(BackupRef(Dump(sum), Manifest(sum), sum, SizeOf(d'.files[Dump(sum)])));
      assert d'.files == reached.files;
    }
  }

  // ------------------------------------------------------- target rollback

  /** The rename of the staged target dump meets a name that is already taken: its
      manifest could be written, the dump of the same operation and digest exists. */
  predicate Collision(d: Disk, from: Name, operation: string) {
    && Hash(d, from).0.Some?
    && var sum := d.sha(d.files[from]);
       TargetManifest(operation, sum) !in d.files && d.oracle(d.calls + 1).ok && TargetDump(operation, sum) in d.files
  }

  /** What `publishTargetRollback` needs. */
  predicate TargetPublishable(d: Disk, from: Name, operation: string) {
    && d.oracle(d.calls).ok && d.oracle(d.calls + 1).ok && d.oracle(d.calls + 2).ok && d.oracle(d.calls + 3).ok
    && from in d.files
    && var sum := d.sha(d.files[from]);
       TargetManifest(operation, sum) !in d.files && TargetDump(operation, sum) !in d.files
  }

  /** `publishTargetRollback`.

      It succeeds exactly when the staged dump is there, both names are free and its
      calls are answered with success. Success removes the staging name and adds exactly
      the dump and its manifest, both absent before. Failure leaves every name as it was except in a collision,
      and then removes the dump that was there before. */
  method PublishTargetRollback(d: Disk, from: Name, operation: string) returns (ref: Option<BackupRef>, d': Disk)
    requires from == TargetStaged(operation) && forall c :: d.sha(c) != ""
    ensures d'.oracle == d.oracle && d'.sha == d.sha
    ensures ref.Some? ==>
              && from in d.files && ref.value.dump !in d.files && ref.value.manifest !in d.files
              && ref.value.dump == TargetDump(operation, ref.value.sum)
              && ref.value.manifest == TargetManifest(operation, ref.value.sum)
              && d'.files == (d.files - {from})[ref.value.dump := d.files[from]]
                               [ref.value.manifest := ManifestFor(ref.value.sum, ref.value.size)]
              && ref.value.sum == d.sha(d.files[from]) && ref.value.size == SizeOf(d.files[from])
              && (ref.value.size > 0 ==> ValidRestoreBackup(d'.files, d.sha, ref.value))
    ensures ref.None? ==>
              d'.files - {from} == if Collision(d, from, operation)
                                   then d.files - {from} - {TargetDump(operation, d.sha(d.files[from]))}
                                   else d.files - {from}
    ensures Collision(d, from, operation) ==> ref.None?
    ensures ref.Some? <==> TargetPublishable(d, from, operation)
  {
    var hashed;
    hashed, d' := Hash(d, from).0, Hash(d, from).1;
    if hashed.None? {
      return None, d';
    }
    var (sum, size) := hashed.value;
    var dump, manifest := TargetDump(operation, sum), TargetManifest(operation, sum);
    var ok;
    ok, d' := WriteNew(d', manifest, ManifestFor(sum, size)).0, WriteNew(d', manifest, ManifestFor(sum, size)).1;
    if !ok {
      return None, d';
    }
    ok, d' := Rename(d', from, dump).0, Rename(d', from, dump).1;
    if ok {
      ok, d' := Ask(d').0, Ask(d').1;
    }
    if !ok {
      d' := Remove(d', dump);
      d' := Remove(d', manifest);
      return None, d';
    }
    return Some(BackupRef(dump, manifest, sum, size)), d';
  }

  /** `CreateValidated` from the staged dump on: `staged` says that staging succeeded
      and passed its checks. It succeeds exactly when the dump passes its validation
      before the context ends and can be published. Failure removes the staged dump and nothing else, except
      that a context that had already ended leaves even the staged dump, and that a
      collision takes the colliding dump along. */
  method CreateValidated(d: Disk, ctx: Context, operation: string, staged: bool) returns (ref: Option<BackupRef>, d': Disk)
    requires staged ==> TargetStaged(operation) in d.files && SizeOf(d.files[TargetStaged(operation)]) > 0
    requires forall c :: d.sha(c) != ""
    ensures ref.Some? <==>
              && staged && Alive(ctx, d.calls + 1) && d.oracle(d.calls).ok
              && TargetPublishable(Called(d), TargetStaged(operation), operation)
    ensures ref.Some? ==> staged && ref.value.dump !in d.files && ref.value.manifest !in d.files
    ensures ref.Some? ==> ValidRestoreBackup(d'.files, d.sha, ref.value)
    ensures ref.Some? ==> d'.files - {ref.value.dump, ref.value.manifest} == d.files - {TargetStaged(operation)}
    ensures var from := TargetStaged(operation);
            ref.None? ==>
              d'.files ==
                if !staged || Done(ctx, d) then d.files
                else if d.oracle(d.calls).ok && !Done(ctx, Called(d)) && Collision(Called(d), from, operation) then
                  d.files - {from} - {TargetDump(operation, d.sha(d.files[from]))}
                else d.files - {from}
  {
    if !staged || Done(ctx, d) {
      return None, d;
    }
    var from := TargetStaged(operation);
    var valid;
    valid, d' := Ask(d).0, Ask(d).1;
    if !valid || Done(ctx, d') {
      return None, Remove(d', from);
    }
    ghost var asked := d';
    ref, d' := PublishTargetRollback(d', from, operation);
    if ref.None? {
      d' := Remove(d', from);
      assert d'.files == if Collision(asked, from, operation)
                         then d.files - {from} - {TargetDump(operation, d.sha(d.files[from]))} else d.files - {from};
    }
  }

  /** A collision is possible: a dump this operation never made is lost. */
  lemma CollisionRemovesForeignDump()
    ensures exists d: Disk, operation: string ::
              && Collision(d, TargetStaged(operation), operation)
              && TargetDump(operation, d.sha(d.files[TargetStaged(operation)])) in d.files
              && d.files[TargetDump(operation, d.sha(d.files[TargetStaged(operation)]))] != d.files[TargetStaged(operation)]
  {
    var files := map[TargetStaged("op") := Bytes([1]), TargetDump("op", "s") := Bytes([2])];
    var d := Disk(_ => Reply(true, [], 0, 0, true), _ => "s", 0, files, 0, 0);
    assert Hash(d, TargetStaged("op")).0.Some?;
    assert Collision(d, TargetStaged("op"), "op");
  }
}
