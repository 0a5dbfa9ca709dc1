/** One backup run: its stages, its credential and what it leaves behind
    (internal/migration/backup_action.go and process.go). */
module BackupAction {
  import opened Basics
  import opened BackupDisk
  import opened Publication
  import opened DestinationStore

  datatype Status = NotRun | Passed | Failed

  datatype Outcome =
    | Validated | Cancelled | TimedOut | PreconditionFailed | DestinationFailed | DumpFailed | ValidationFailed

  /** The code that is shown for a failure. */
  datatype Code =
    | NoFailure | CancelledCode | EngineUnavailable | ConfigInvalid | ContainerInvalid | DestinationCode
    | CredentialsCode | HelperPrecondition | DumpTimeout | DumpCode | HelperCleanup
    | StagedSync | StagedClose | StagedEmpty | ArchiveCode | PublicationCode

  datatype Failure = Failure(outcome: Outcome, code: Code)

  const CANCELLED := Failure(Cancelled, CancelledCode)

  /** What is decided before a run: its parts are wired, the configuration and the
      container of the plan are valid, the helper command can be built, and the
      publication accepts the request. */
  datatype Setup = Setup(wired: bool, validConfig: bool, trusted: bool, helperBuilt: bool, accepted: bool)

  datatype Process = ProcessSucceeded | ProcessFailed | ProcessTimedOut | ProcessCancelled | ProcessCleanupFailed

  const STAGES: nat := 7
  const PRECONDITIONS: nat := 0
  const DESTINATION: nat := 1
  const CREDENTIALS: nat := 2
  const DUMP: nat := 3
  const STAGED_FILE: nat := 4
  const ARCHIVE_VALIDATION: nat := 5
  const PUBLICATION: nat := 6

  /** `passed` stages passed, the next one failed unless all passed, no other ran. */
  function StageVector(passed: nat): (v: seq<Status>)
    requires passed <= STAGES
    ensures |v| == STAGES
  {
    seq(STAGES, k => if k < passed then Passed else if k == passed then Failed else NotRun)
  }

  /** `passed` stages passed and nothing failed yet. */
  ghost predicate Underway(v: seq<Status>, passed: nat) {
    |v| == STAGES && passed <= STAGES && forall k :: 0 <= k < STAGES ==> v[k] == if k < passed then Passed else NotRun
  }

  function ProcessOf(code: int): Process {
    if code == 0 then ProcessSucceeded else if code == 1 then ProcessTimedOut else if code == 2 then ProcessCancelled else ProcessFailed
  }

  datatype Result = Result(outcome: Outcome, ref: Option<BackupRef>, code: Code)

  // ------------------------------------------------------- what stages need

  /** The credential file is prepared; `at` is the first call after the staging file. */
  predicate CredentialGoes(d: Disk, ctx: Context, at: nat) {
    Alive(ctx, at) && d.oracle(at).ok
  }

  function CredentialFails(d: Disk, ctx: Context, at: nat): Failure {
    if !Alive(ctx, at) then CANCELLED else Failure(PreconditionFailed, CredentialsCode)
  }

  /** The dump command exits with success and both its cleanups succeed. */
  predicate DumpGoes(d: Disk, ctx: Context, helperBuilt: bool, at: nat) {
    && helperBuilt && Alive(ctx, at + 1) && ProcessOf(d.oracle(at + 1).process).ProcessSucceeded?
    && d.oracle(at + 2).ok && d.oracle(at + 3).ok
  }

  /** A failed cleanup counts more than whatever the command did. */
  function DumpFails(d: Disk, ctx: Context, helperBuilt: bool, at: nat): Failure {
    var exit := ProcessOf(d.oracle(at + 1).process);
    if !helperBuilt then Failure(PreconditionFailed, HelperPrecondition)
    else if !Alive(ctx, at + 1) then CANCELLED
    else if !d.oracle(at + 2).ok || !d.oracle(at + 3).ok then Failure(DumpFailed, HelperCleanup)
    else if exit.ProcessCancelled? then CANCELLED
    else if exit.ProcessTimedOut? then Failure(TimedOut, DumpTimeout)
    else Failure(DumpFailed, DumpCode)
  }

  /** The staged file is synced and closed, and the command wrote something. */
  predicate FileGoes(d: Disk, ctx: Context, at: nat) {
    Alive(ctx, at + 4) && d.oracle(at + 4).ok && d.oracle(at + 5).ok && d.oracle(at + 1).bytes != []
  }

  function FileFails(d: Disk, ctx: Context, at: nat): Failure {
    if !Alive(ctx, at + 4) then CANCELLED
    else if !d.oracle(at + 4).ok then Failure(DestinationFailed, StagedSync)
    else if !d.oracle(at + 5).ok then Failure(DestinationFailed, StagedClose)
    else Failure(DumpFailed, StagedEmpty)
  }

  predicate ArchiveGoes(d: Disk, ctx: Context, at: nat) {
    Alive(ctx, at + 6) && d.oracle(at + 6).ok
  }

  function ArchiveFails(d: Disk, ctx: Context, at: nat): Failure {
    if !Alive(ctx, at + 6) then CANCELLED else Failure(ValidationFailed, ArchiveCode)
  }

  /** The names of what the command wrote are free, and the publication goes through. */
  predicate PublicationGoes(d: Disk, ctx: Context, accepted: bool, at: nat) {
    accepted && CallsPublish(d, ctx, at + 7) && NamesFree(d.files, d.sha(Bytes(d.oracle(at + 1).bytes)))
  }

  function PublicationFails(d: Disk, ctx: Context, at: nat): Failure {
    if !Alive(ctx, at + 7) then CANCELLED else Failure(DestinationFailed, PublicationCode)
  }

  /** Stage `k` of a run started on `d` does its work: a statement about the answers
      of its own calls, the end of the context and the directory it found. */
  predicate StageGoes(d: Disk, ctx: Context, setup: Setup, k: nat)
    requires k < STAGES
  {
    var at := PrepareDisk(d).1.calls;
    if k == PRECONDITIONS then Alive(ctx, d.calls) && setup.wired && setup.validConfig && setup.trusted
    else if k == DESTINATION then PrepareDisk(d).0.Ok?
    else if k == CREDENTIALS then CredentialGoes(d, ctx, at)
    else if k == DUMP then DumpGoes(d, ctx, setup.helperBuilt, at)
    else if k == STAGED_FILE then FileGoes(d, ctx, at)
    else if k == ARCHIVE_VALIDATION then ArchiveGoes(d, ctx, at)
    else PublicationGoes(d, ctx, setup.accepted, at)
  }

  /** What is reported when stage `k` is the first that does not. */
  function StageFails(d: Disk, ctx: Context, setup: Setup, k: nat): Failure
    requires k < STAGES
  {
    var at := PrepareDisk(d).1.calls;
    if k == PRECONDITIONS then
      if !Alive(ctx, d.calls) then CANCELLED
      else Failure(PreconditionFailed,
                   if !setup.wired then EngineUnavailable else if !setup.validConfig then ConfigInvalid else ContainerInvalid)
    else if k == DESTINATION then Failure(DestinationFailed, DestinationCode)
    else if k == CREDENTIALS then CredentialFails(d, ctx, at)
    else if k == DUMP then DumpFails(d, ctx, setup.helperBuilt, at)
    else if k == STAGED_FILE then FileFails(d, ctx, at)
    else if k == ARCHIVE_VALIDATION then ArchiveFails(d, ctx, at)
    else PublicationFails(d, ctx, at)
  }

  /** `RunHelper`: the command may write to the staging file; then the helper and the
      credential are cleaned, each once, whatever the command did; a failed cleanup
      overrides the verdict. */
  method RunHelper(d: Disk, path: Name) returns (result: Process, d': Disk)
    requires path in d.files
    ensures d' == d.(calls := d.calls + 3, files := d'.files, cleaned := d.cleaned + 1)
    ensures d'.files - {path} == d.files - {path} && path in d'.files && d'.files[path] == Bytes(d.oracle(d.calls).bytes)
    ensures result ==
            if !d.oracle(d.calls + 1).ok || !d.oracle(d.calls + 2).ok then ProcessCleanupFailed
            else ProcessOf(d.oracle(d.calls).process)
  {
    var reply := d.oracle(d.calls);
    result := ProcessOf(reply.process);
    d' := Called(d).(files := d.files[path := Bytes(reply.bytes)]);
    var helperGone, next := Ask(d').0, Ask(d').1;
    d' := next;
    var credentialGone, after := Ask(d').0, Ask(d').1;
    d' := after.(cleaned := after.cleaned + 1);
    if !helperGone || !credentialGone {
      result := ProcessCleanupFailed;
    }
  }

  /** The publication a run came to: the directory it found, and its staging name. */
  datatype Publishing = Publishing(disk: Disk, path: Name)

  /** It started from the run's own staging file beside `files`. */
  ghost predicate Starts(files: Files, d: Disk, p: Publishing) {
    && p.path.Staged? && p.path in p.disk.files && p.path !in files
    && Lock !in p.disk.files && p.disk.files - {p.path, Lock} == files && p.disk.sha == d.sha
  }

  /** The directory after a run that is not validated: the one it found, with the
      staged manifest more exactly in the window of its publication. */
  ghost function Leftover(files: Files, ctx: Context, accepted: bool, p: Option<Publishing>): Files {
    if p.Some? && accepted && p.value.path in p.value.disk.files && Window(p.value.disk, ctx, p.value.path) then
      var dump := p.value.disk.files[p.value.path];
      var sum := p.value.disk.sha(dump);
      files[StagedManifest(sum) := ManifestFor(sum, SizeOf(dump))]
    else files
  }

  /** What a validated run leaves: exactly its new pair. */
  ghost predicate LeavesPair(files: Files, d': Disk, ref: Option<BackupRef>) {
    && ref.Some? && ref.value.dump !in files && ref.value.manifest !in files
    && d'.files - {ref.value.dump, ref.value.manifest} == files
    && ValidRestoreBackup(d'.files, d'.sha, ref.value)
  }

  ghost predicate Balanced(d: Disk, d': Disk) {
    d'.sha == d.sha && d'.oracle == d.oracle && d'.prepared - d.prepared == d'.cleaned - d.cleaned
  }

  method Mark(stages: array<Status>, stage: nat, status: Status)
    requires stages.Length == STAGES && stage < STAGES
    modifies stages
    ensures stages[..] == old(stages[..])[stage := status]
  {
    stages[stage] := status;
  }

  lemma BothGone(files: Files, path: Name)
    ensures files - {path, Lock} == (files - {path}) - {Lock}
  {
  }

  /** From the staging file to the dump in it. */
  method DumpToStaging(artifact: StagedArtifact, ctx: Context, helperBuilt: bool, stages: array<Status>, ghost d0: Disk, ghost at: nat)
    returns (failure: Option<Failure>, passed: nat)
    requires artifact.path in artifact.disk.files && !artifact.closed && artifact.path.Staged?
    requires artifact.disk.files - {artifact.path, Lock} == d0.files && artifact.disk.oracle == d0.oracle && artifact.disk.sha == d0.sha
    requires stages.Length == STAGES && Underway(stages[..], 2) && artifact.disk.calls == at
    modifies artifact, stages
    ensures Balanced(old(artifact.disk), artifact.disk) && !artifact.closed
    ensures artifact.path in artifact.disk.files && artifact.disk.files - {artifact.path, Lock} == d0.files && artifact.disk.oracle == d0.oracle && artifact.disk.sha == d0.sha
    ensures var d := d0;
            && (failure.None? <==> CredentialGoes(d, ctx, at) && DumpGoes(d, ctx, helperBuilt, at))
            && (failure.Some? ==>
                  && passed == (if CredentialGoes(d, ctx, at) then DUMP else CREDENTIALS) && stages[..] == StageVector(passed)
                  && failure.value == (if CredentialGoes(d, ctx, at) then DumpFails(d, ctx, helperBuilt, at) else CredentialFails(d, ctx, at))
                  && !failure.value.outcome.Validated?)
            && (failure.None? ==>
                  && Underway(stages[..], 4) && artifact.disk.calls == at + 4
                  && artifact.disk.files[artifact.path] == Bytes(d.oracle(at + 1).bytes))
  {
    passed := CREDENTIALS;
    if Done(ctx, artifact.disk) {
      Mark(stages, passed, Failed);
      return Some(CANCELLED), passed;
    }
    var ok, next := Ask(artifact.disk).0, Ask(artifact.disk).1;
    artifact.disk := next;
    if !ok {
      Mark(stages, passed, Failed);
      return Some(Failure(PreconditionFailed, CredentialsCode)), passed;
    }
    artifact.disk := artifact.disk.(prepared := artifact.disk.prepared + 1);
    Mark(stages, CREDENTIALS, Passed);
    passed := DUMP;
    if !helperBuilt || Done(ctx, artifact.disk) {
      artifact.disk := artifact.disk.(cleaned := artifact.disk.cleaned + 1);
      Mark(stages, passed, Failed);
      return Some(if !helperBuilt then Failure(PreconditionFailed, HelperPrecondition) else CANCELLED), passed;
    }
    var process, after := RunHelper(artifact.disk, artifact.path);
    BothGone(after.files, artifact.path);
    BothGone(artifact.disk.files, artifact.path);
    artifact.disk := after;
    if !process.ProcessSucceeded? {
      Mark(stages, passed, Failed);
      return Some(match process
                  case ProcessCancelled => CANCELLED
                  case ProcessTimedOut => Failure(TimedOut, DumpTimeout)
                  case ProcessCleanupFailed => Failure(DumpFailed, HelperCleanup)
                  case _ => Failure(DumpFailed, DumpCode)), passed;
    }
    Mark(stages, DUMP, Passed);
    return None, 4;
  }

  /** From the dump to a synced, closed and non-empty staging file. */
  method CloseStaging(artifact: StagedArtifact, ctx: Context, stages: array<Status>, ghost d0: Disk, ghost at: nat)
    returns (failure: Option<Failure>, passed: nat)
    requires artifact.path in artifact.disk.files && !artifact.closed && artifact.path.Staged?
    requires artifact.disk.files - {artifact.path, Lock} == d0.files && artifact.disk.oracle == d0.oracle && artifact.disk.sha == d0.sha
    requires stages.Length == STAGES && Underway(stages[..], 4)
    requires artifact.disk.calls == at + 4 && artifact.disk.files[artifact.path] == Bytes(artifact.disk.oracle(at + 1).bytes)
    modifies artifact, stages
    ensures Balanced(old(artifact.disk), artifact.disk)
    ensures artifact.disk.files - {artifact.path, Lock} == d0.files && artifact.disk.oracle == d0.oracle && artifact.disk.sha == d0.sha
    ensures failure.None? <==> FileGoes(d0, ctx, at)
    ensures failure.Some? ==>
              && passed == STAGED_FILE && stages[..] == StageVector(passed) && failure.value == FileFails(d0, ctx, at)
              && !failure.value.outcome.Validated?
    ensures failure.None? ==>
              && Underway(stages[..], 5) && artifact.path in artifact.disk.files && Lock !in artifact.disk.files
              && artifact.disk.calls == at + 6
              && artifact.disk.files[artifact.path] == Bytes(artifact.disk.oracle(at + 1).bytes)
              && d0.oracle(at + 1).bytes != []
  {
    passed := STAGED_FILE;
    if Done(ctx, artifact.disk) {
      Mark(stages, passed, Failed);
      return Some(CANCELLED), passed;
    }
    var ok, next := Ask(artifact.disk).0, Ask(artifact.disk).1;
    artifact.disk := next;
    if !ok {
      Mark(stages, passed, Failed);
      return Some(Failure(DestinationFailed, StagedSync)), passed;
    }
    ok := artifact.Close();
    if !ok {
      Mark(stages, passed, Failed);
      return Some(Failure(DestinationFailed, StagedClose)), passed;
    }
    if SizeOf(artifact.disk.files[artifact.path]) == 0 {
      Mark(stages, passed, Failed);
      return Some(Failure(DumpFailed, StagedEmpty)), passed;
    }
    Mark(stages, STAGED_FILE, Passed);
    return None, 5;
  }

  /** From the closed dump to its publication. */
  method ValidateAndPublish(artifact: StagedArtifact, ctx: Context, accepted: bool, stages: array<Status>, ghost d0: Disk, ghost at: nat)
    returns (result: Result, passed: nat, ghost published: Option<Publishing>)
    requires artifact.path in artifact.disk.files && artifact.path.Staged? && artifact.path !in d0.files && Lock !in d0.files
    requires Lock !in artifact.disk.files && artifact.disk.files - {artifact.path, Lock} == d0.files && artifact.disk.oracle == d0.oracle && artifact.disk.sha == d0.sha
    requires forall c :: artifact.disk.sha(c) != ""
    requires stages.Length == STAGES && Underway(stages[..], 5)
    requires artifact.disk.calls == at + 6 && artifact.disk.files[artifact.path] == Bytes(artifact.disk.oracle(at + 1).bytes)
    requires artifact.disk.oracle(at + 1).bytes != []
    modifies artifact, stages
    ensures Balanced(old(artifact.disk), artifact.disk) && artifact.closed == old(artifact.closed)
    ensures 5 <= passed <= STAGES && stages[..] == StageVector(passed) && (passed == STAGES <==> result.outcome.Validated?)
    ensures var d := d0;
            && (passed > ARCHIVE_VALIDATION <==> ArchiveGoes(d, ctx, at))
            && (passed > PUBLICATION <==> ArchiveGoes(d, ctx, at) && PublicationGoes(d, ctx, accepted, at))
            && Failure(result.outcome, result.code) ==
               (if passed == ARCHIVE_VALIDATION then ArchiveFails(d, ctx, at)
                else if passed == PUBLICATION then PublicationFails(d, ctx, at)
                else Failure(Validated, NoFailure))
    ensures published.Some? ==> Starts(d0.files, old(artifact.disk), published.value) && passed >= PUBLICATION
    ensures published.Some? ==> published.value.path == artifact.path
    ensures if result.outcome.Validated? then published.Some? && LeavesPair(d0.files, artifact.disk, result.ref)
            else result.ref.None? && artifact.disk.files - {artifact.path, Lock} == Leftover(d0.files, ctx, accepted, published)
  {
    published := None;
    passed := ARCHIVE_VALIDATION;
    if Done(ctx, artifact.disk) {
      Mark(stages, passed, Failed);
      return Result(Cancelled, None, CancelledCode), passed, None;
    }
    var ok, next := Ask(artifact.disk).0, Ask(artifact.disk).1;
    artifact.disk := next;
    if !ok {
      Mark(stages, passed, Failed);
      return Result(ValidationFailed, None, ArchiveCode), passed, None;
    }
    Mark(stages, ARCHIVE_VALIDATION, Passed);
    passed := PUBLICATION;
    if Done(ctx, artifact.disk) {
      Mark(stages, passed, Failed);
      return Result(Cancelled, None, CancelledCode), passed, None;
    }
    published := Some(Publishing(artifact.disk, artifact.path));
    var ref, after := PublishBackupPair(artifact.disk, ctx, artifact.path, accepted);
    artifact.disk := after;
    SamePublication(published.value, ctx, d0, at);
    PublicationLeaves(published.value, ctx, accepted, d0.files, ref, after);
    if ref.None? {
      Mark(stages, passed, Failed);
      return Result(DestinationFailed, None, PublicationCode), passed, published;
    }
    Mark(stages, PUBLICATION, Passed);
    return Result(Validated, ref, NoFailure), STAGES, published;
  }

  /** The three names are free beside the staging file exactly when they were before. */
  lemma SamePublication(p: Publishing, ctx: Context, d0: Disk, at: nat)
    requires Starts(d0.files, p.disk, p) && Lock !in d0.files && p.disk.calls == at + 7
    requires p.disk.oracle == d0.oracle && p.disk.sha == d0.sha
    requires p.disk.files[p.path] == Bytes(p.disk.oracle(at + 1).bytes) && p.disk.oracle(at + 1).bytes != []
    ensures Publishable(p.disk, ctx, p.path) <==> PublicationGoes(d0, ctx, true, at)
  {
    assert forall name: Name :: !name.Staged? && !name.Lock? ==> (name in p.disk.files <==> name in d0.files) by {
      assert forall name: Name :: name in d0.files <==> name in p.disk.files - {p.path, Lock};
    }
  }

  lemma PublicationLeaves(p: Publishing, ctx: Context, accepted: bool, files: Files, ref: Option<BackupRef>, d': Disk)
    requires Starts(files, p.disk, p) && Lock !in files && d'.sha == p.disk.sha
    requires ref.Some? ==>
               && ref.value.dump !in p.disk.files && ref.value.manifest !in p.disk.files
               && ref.value.dump == Dump(ref.value.sum) && ref.value.manifest == Manifest(ref.value.sum)
               && d'.files == Published(p.disk.files, p.path, ref.value.sum)
               && ValidRestoreBackup(d'.files, p.disk.sha, ref.value)
    requires ref.None? ==> d'.files == if accepted then GivenUp(p.disk, ctx, p.path) else p.disk.files
    ensures ref.Some? ==> LeavesPair(files, d', ref)
    ensures ref.None? ==> d'.files - {p.path, Lock} == Leftover(files, ctx, accepted, Some(p))
  {
    if ref.Some? {
      assert d'.files - {ref.value.dump, ref.value.manifest} == files;
    }
  }

  /** From the prepared staging file on; without a validated pair it is cleaned up. */
  method RunStaged(artifact: StagedArtifact, ctx: Context, setup: Setup, vector: array<Status>, ghost d: Disk, ghost at: nat)
    returns (result: Result, passed: nat, ghost published: Option<Publishing>)
    requires forall c :: d.sha(c) != ""
    requires artifact.path.Staged? && artifact.path in artifact.disk.files && artifact.path !in d.files && Lock !in d.files
    requires artifact.disk.files - {artifact.path, Lock} == d.files && artifact.disk.oracle == d.oracle && artifact.disk.sha == d.sha
    requires artifact.disk.calls == at && !artifact.closed && vector.Length == STAGES && Underway(vector[..], 2)
    modifies artifact, vector
    ensures 2 <= passed <= STAGES && vector[..] == StageVector(passed) && (passed == STAGES <==> result.outcome.Validated?)
    ensures Staging(d, ctx, setup, at, passed, Failure(result.outcome, result.code))
    ensures Balanced(old(artifact.disk), artifact.disk)
    ensures published.Some? ==> Starts(d.files, d, published.value) && passed >= PUBLICATION
    ensures if result.outcome.Validated? then published.Some? && LeavesPair(d.files, artifact.disk, result.ref)
            else result.ref.None? && artifact.disk.files == Leftover(d.files, ctx, setup.accepted, published)
  {
    hide CredentialGoes, DumpGoes, FileGoes, ArchiveGoes, PublicationGoes, CredentialFails, DumpFails, FileFails, ArchiveFails,
         PublicationFails, Leftover, LeavesPair, Underway, StageVector;
    published := None;
    NothingPublished(d.files, ctx, setup.accepted);
    var failure;
    failure, passed := DumpToStaging(artifact, ctx, setup.helperBuilt, vector, d, at);
    if failure.None? {
      failure, passed := CloseStaging(artifact, ctx, vector, d, at);
    }
    if failure.Some? {
      result := Result(failure.value.outcome, None, failure.value.code);
    } else {
      result, passed, published := ValidateAndPublish(artifact, ctx, setup.accepted, vector, d, at);
    }
    if !result.outcome.Validated? {
      artifact.Cleanup();
    }
  }

  lemma NothingPublished(files: Files, ctx: Context, accepted: bool)
    ensures Leftover(files, ctx, accepted, None) == files
  {
  }

  /** The stages from the credential on: the first that does not go decides. */
  predicate Staging(d: Disk, ctx: Context, setup: Setup, at: nat, passed: nat, failure: Failure) {
    if !CredentialGoes(d, ctx, at) then passed == CREDENTIALS && failure == CredentialFails(d, ctx, at)
    else if !DumpGoes(d, ctx, setup.helperBuilt, at) then passed == DUMP && failure == DumpFails(d, ctx, setup.helperBuilt, at)
    else if !FileGoes(d, ctx, at) then passed == STAGED_FILE && failure == FileFails(d, ctx, at)
    else if !ArchiveGoes(d, ctx, at) then passed == ARCHIVE_VALIDATION && failure == ArchiveFails(d, ctx, at)
    else if !PublicationGoes(d, ctx, setup.accepted, at) then passed == PUBLICATION && failure == PublicationFails(d, ctx, at)
    else passed == STAGES && failure == Failure(Validated, NoFailure)
  }

  lemma StagingMeans(d: Disk, ctx: Context, setup: Setup, passed: nat, failure: Failure)
    requires Staging(d, ctx, setup, PrepareDisk(d).1.calls, passed, failure)
    ensures 2 <= passed <= STAGES
    ensures forall k :: 2 <= k < passed ==> StageGoes(d, ctx, setup, k)
    ensures passed < STAGES ==> !StageGoes(d, ctx, setup, passed) && failure == StageFails(d, ctx, setup, passed)
    ensures passed == STAGES ==> failure == Failure(Validated, NoFailure)
  {
    hide CredentialGoes, DumpGoes, FileGoes, ArchiveGoes, PublicationGoes, CredentialFails, DumpFails, FileFails, ArchiveFails,
         PublicationFails, PrepareDisk;
  }

  /** `RunWithProgress`. A stage passes exactly when it and every stage before it did
      its work, and the first that did not decides the outcome and its code. The stage
      vector is a run of passed stages, then one failed stage unless the backup is
      validated, then stages that never ran; every
      prepared credential is cleaned exactly once; a run that is not validated
      leaves neither a staged dump nor a lock behind, and a staged manifest exactly in
      the window of the publication it came to. */
  method RunWithProgress(d: Disk, ctx: Context, setup: Setup)
    returns (result: Result, stages: seq<Status>, passed: nat, d': Disk, ghost published: Option<Publishing>)
    requires forall c :: d.sha(c) != ""
    ensures passed <= STAGES && stages == StageVector(passed) && (passed == STAGES <==> result.outcome.Validated?)
    ensures result.outcome.Validated? <==> forall k :: 0 <= k < STAGES ==> StageGoes(d, ctx, setup, k)
    ensures forall k :: 0 <= k < passed ==> StageGoes(d, ctx, setup, k)
    ensures passed < STAGES ==>
              && !StageGoes(d, ctx, setup, passed)
              && Failure(result.outcome, result.code) == StageFails(d, ctx, setup, passed)
    ensures Balanced(d, d')
    ensures published.Some? ==> Starts(d.files, d, published.value) && passed >= PUBLICATION
    ensures if result.outcome.Validated? then published.Some? && LeavesPair(d.files, d', result.ref)
            else result.ref.None? && d'.files == Leftover(d.files, ctx, setup.accepted, published)
    ensures Lock in d.files ==> d'.files == d.files && !result.outcome.Validated?
  {
    hide Staging, PrepareDisk, LeavesPair, Window;
    var vector := new Status[STAGES](_ => NotRun);
    if Done(ctx, d) {
      Mark(vector, PRECONDITIONS, Failed);
      assert !StageGoes(d, ctx, setup, PRECONDITIONS);
      return Result(Cancelled, None, CancelledCode), vector[..], 0, d, None;
    }
    if !setup.wired || !setup.validConfig || !setup.trusted {
      Mark(vector, PRECONDITIONS, Failed);
      var code := if !setup.wired then EngineUnavailable else if !setup.validConfig then ConfigInvalid else ContainerInvalid;
      assert !StageGoes(d, ctx, setup, PRECONDITIONS);
      return Result(PreconditionFailed, None, code), vector[..], 0, d, None;
    }
    Mark(vector, PRECONDITIONS, Passed);
    var prepared;
    prepared, d' := Prepare(d);
    if prepared.Err? {
      Mark(vector, DESTINATION, Failed);
      assert !StageGoes(d, ctx, setup, DESTINATION);
      return Result(DestinationFailed, None, DestinationCode), vector[..], 1, d', None;
    }
    Mark(vector, DESTINATION, Passed);
    var artifact := new StagedArtifact(prepared.value.path, d');
    assert artifact.disk.files - {artifact.path, Lock} == d.files;
    result, passed, published := RunStaged(artifact, ctx, setup, vector, d, d'.calls);
    StagingMeans(d, ctx, setup, passed, Failure(result.outcome, result.code));
    stages := vector[..];
    d' := artifact.disk;
  }

  /** An empty directory where every call succeeds and the command writes something. */
  function SmoothDisk(): Disk {
    Disk((n: nat) => Reply(true, [1], n, 0, true), _ => "s", 0, map[], 0, 0)
  }

  /** Every stage goes there, so the run is validated. */
  lemma SmoothRunGoes(setup: Setup)
    requires setup == Setup(true, true, true, true, true)
    ensures forall k :: 0 <= k < STAGES ==> StageGoes(SmoothDisk(), None, setup, k)
  {
    var d := SmoothDisk();
    assert Names(d, 2);
    assert Chooses(d, 2, 2);
    PrepareSucceeds(d);
  }
}
