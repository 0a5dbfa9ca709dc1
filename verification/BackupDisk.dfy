/** The backup directory as a map from names to contents. A file name is a value
    that says how it was formed, so names of different forms never coincide. */
module BackupDisk {
  import opened Basics

  type Sum = string

  datatype Name =
    | Staged(id: nat)
    | StagedManifest(sum: Sum)
    | Dump(sum: Sum)
    | Manifest(sum: Sum)
    | Lock
    | TargetStaged(operation: string)
    | TargetDump(operation: string, sum: Sum)
    | TargetManifest(operation: string, sum: Sum)
    | Other(text: string)

  datatype Content = Bytes(bytes: seq<int>) | ManifestText(format: string, validation: string, sum: Sum, size: nat)

  type Files = map<Name, Content>

  datatype Reply = Reply(ok: bool, bytes: seq<int>, id: nat, process: int, accepted: bool)

  /** `oracle` answers every call; `sha` is any function of the contents. */
  datatype Disk = Disk(oracle: nat -> Reply, sha: Content -> Sum, calls: nat, files: Files, prepared: nat, cleaned: nat)

  type Context = Option<nat>

  predicate Done(ctx: Context, d: Disk) {
    ctx.Some? && d.calls >= ctx.value
  }

  /** The context has not ended when call `at` is next. */
  predicate Alive(ctx: Context, at: nat) {
    ctx.Some? ==> at < ctx.value
  }

  function SizeOf(c: Content): nat {
    if c.Bytes? then |c.bytes| else 1
  }

  function Called(d: Disk): Disk {
    d.(calls := d.calls + 1)
  }

  /** A call with no effect on the directory. */
  function Ask(d: Disk): (r: (bool, Disk))
    ensures r.1 == Called(d)
  {
    (d.oracle(d.calls).ok, Called(d))
  }

  /** `cleanupPath`: removals succeed. */
  function Remove(d: Disk, name: Name): (d': Disk)
    ensures d' == d.(files := d.files - {name})
  {
    d.(files := d.files - {name})
  }

  /** `writeProtectedFile`: an existing name is refused, and a failed write is
      removed again. */
  function WriteNew(d: Disk, name: Name, content: Content): (r: (bool, Disk))
    ensures r.0 ==> name !in d.files && r.1 == Called(d).(files := d.files[name := content])
    ensures !r.0 ==> r.1 == Called(d)
  {
    if name in d.files || !d.oracle(d.calls).ok then (false, Called(d))
    else (true, Called(d).(files := d.files[name := content]))
  }

  /** `renameNoReplace`. */
  function Rename(d: Disk, from: Name, to: Name): (r: (bool, Disk))
    requires from != to
    ensures r.0 ==> from in d.files && to !in d.files
    ensures r.0 ==> r.1 == Called(d).(files := (d.files - {from})[to := d.files[from]])
    ensures !r.0 ==> r.1 == Called(d)
  {
    if from !in d.files || to in d.files || !d.oracle(d.calls).ok then (false, Called(d))
    else (true, Called(d).(files := (d.files - {from})[to := d.files[from]]))
  }

  /** `hashFile`: the digest and the size of a readable file. */
  function Hash(d: Disk, name: Name): (r: (Option<(Sum, nat)>, Disk))
    ensures r.1 == Called(d)
    ensures r.0.Some? ==> name in d.files && r.0.value == (d.sha(d.files[name]), SizeOf(d.files[name]))
  {
    if name !in d.files || !d.oracle(d.calls).ok then (None, Called(d))
    else (Some((d.sha(d.files[name]), SizeOf(d.files[name]))), Called(d))
  }

  // ------------------------------------------------------------ validation

  datatype BackupRef = BackupRef(dump: Name, manifest: Name, sum: Sum, size: nat)

  const FORMAT := "postgresql-custom"
  const VALIDATED := "validated"

  function ManifestFor(sum: Sum, size: nat): Content {
    ManifestText(FORMAT, VALIDATED, sum, size)
  }

  /** `validRestoreBackup`. */
  predicate ValidRestoreBackup(files: Files, sha: Content -> Sum, ref: BackupRef) {
    && ref.dump in files && ref.manifest in files && SizeOf(files[ref.dump]) > 0 && SizeOf(files[ref.manifest]) > 0
    && ref.sum != "" && ref.size > 0
    && sha(files[ref.dump]) == ref.sum && SizeOf(files[ref.dump]) == ref.size
    && files[ref.manifest] == ManifestFor(ref.sum, ref.size)
  }
}
