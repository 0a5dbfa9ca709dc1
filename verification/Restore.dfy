/** The database restore with its compensations (internal/migration/restore.go). */
module Restore {
  import opened Basics
  import opened RestoreWorld
  import opened Replacement

  datatype Stage =
    | StagePlatformGate | StageWait | StageCredentials | StageLegacyRevalidation | StageBackendStop
    | StagePostgresCheck | StageTargetBackup | StageTargetReplacement | StageRestoreValidation
    | StageBackendStart | StageBackendHealth

  datatype RestoreOutcome =
    | RestoreSucceeded | FailedBeforeCutover | CancelledBeforeCutover | PartialCutover | Unsupported

  datatype RollbackStatus = NotRequired | RollbackSucceeded | RollbackFailed | RollbackCancelled

  datatype Code =
    | UnsupportedCode | Precondition | WaitFailed | PostgresIdentity | BackendStopFailed | CredentialsFailed
    | LegacyFailed | PostgresFailed | TargetBackupFailed | PrimaryFailed | BackendStartFailed
    | BackendHealthFailed | Succeeded | BackendRecoveryFailed | Cancelled
    | RollbackPostgres | RollbackStop | RollbackRevalidate | RollbackReplaceFailed | RollbackRecovery

  datatype Request = Request(goos: string, goarch: string, wired: bool, legacy: nat)

  datatype RestoreResult = RestoreResult(
    outcome: RestoreOutcome, failedStage: Stage, mutated: bool, rollback: RollbackStatus,
    legacyValidated: bool, targetBackup: Option<nat>, database: DatabaseEvidence, backendHealthy: bool, code: Code)

  const INITIAL := RestoreResult(RestoreSucceeded, StagePlatformGate, false, NotRequired, false, None, NO_EVIDENCE, false, Precondition)

  predicate Supported(request: Request) {
    request.goos == "linux" && (request.goarch == "amd64" || request.goarch == "arm64")
  }

  /** `beforeCutover`. */
  function BeforeCutover(result: RestoreResult, stage: Stage, cancelled: bool, code: Code): RestoreResult {
    if cancelled then result.(failedStage := stage, outcome := CancelledBeforeCutover, code := Cancelled)
    else result.(failedStage := stage, outcome := FailedBeforeCutover, code := code)
  }

  function StatusOf(cancelled: bool): RollbackStatus {
    if cancelled then RollbackCancelled else RollbackFailed
  }

  /** Start the backend and wait until it is healthy. */
  function BringUp(w: World): (bool, World) {
    var (started, w1) := StartBackend(w);
    if !started then (false, w1) else Ask(w1, Healthy)
  }

  /** The PostgreSQL identity is proven and the server is reachable. */
  function ProvePostgres(w: World): (bool, World) {
    var (proven, w1) := Ask(w, IdentityProven);
    if !proven then (false, w1) else Ask(w1, Reached)
  }

  /** `recoverBeforeCutover` of a backend that was stopped. */
  function RecoverBackend(w: World, ctx: Context, result: RestoreResult, stage: Stage, code: Code): (RestoreResult, World) {
    var (up, w1) := BringUp(w);
    (BeforeCutover(result, stage, Done(ctx, w1), if up then code else BackendRecoveryFailed), w1)
  }

  /** The end of `rollback`: restore the target dump and bring the backend up. */
  function PutBack(w: World, ctx: Context, target: nat, result: RestoreResult): (RestoreResult, World)
    requires target < |w.dumps|
  {
    var (replaced, w1) := Replace(w, ctx, target);
    var seen := result.(database := replaced.evidence);
    if !replaced.ok || !DatabaseValid(replaced.evidence) then
      (seen.(rollback := StatusOf(Done(ctx, w1)), code := RollbackReplaceFailed), w1)
    else
      var (up, w2) := BringUp(w1);
      if up then (seen.(rollback := RollbackSucceeded, backendHealthy := true), w2)
      else
        var (_, w3) := StopBackend(w2);
        (seen.(rollback := StatusOf(Done(ctx, w3)), code := RollbackRecovery), w3)
  }

  /** `rollback` from the proven stop on. */
  function RollbackStopped(w: World, ctx: Context, target: nat, result: RestoreResult): (RestoreResult, World)
    requires target < |w.dumps|
  {
    var (valid, w1) := Ask(w, Revalidated(target));
    if !valid then (result.(rollback := StatusOf(Done(ctx, w1)), code := RollbackRevalidate), w1)
    else
      var (proven, w2) := ProvePostgres(w1);
      if !proven then (result.(rollback := StatusOf(Done(ctx, w2)), code := RollbackPostgres), w2)
      else PutBack(w2, ctx, target, result)
  }

  /** `rollback` from its first proofs on. */
  function RollbackProven(w: World, ctx: Context, target: nat, result: RestoreResult): (RestoreResult, World)
    requires target < |w.dumps|
  {
    var (stopOk, w1) := StopBackend(w);
    var (stopped, w2) := Probe(w1);
    if !stopOk || !stopped then
      (result.(rollback := if !stopped then RollbackFailed else StatusOf(Done(ctx, w2)), code := RollbackStop), w2)
    else RollbackStopped(w2, ctx, target, result)
  }

  /** `rollback`. */
  function Rollback(w: World, target: nat, before: RestoreResult, stage: Stage, code: Code): (RestoreResult, World)
    requires target < |w.dumps|
  {
    var result := before.(outcome := PartialCutover, failedStage := stage, code := code);
    var ctx := RecoveryContext(w);
    var (proven, w1) := ProvePostgres(w);
    if !proven then (result.(rollback := StatusOf(Done(ctx, w1)), code := RollbackPostgres), w1)
    else RollbackProven(w1, ctx, target, result)
  }

  /** From the restored database on. */
  function Finish(w: World, target: nat, result: RestoreResult): (RestoreResult, World)
    requires target < |w.dumps|
  {
    var (proven, w1) := Ask(w, IdentityProven);
    if !proven then Rollback(w1, target, result, StageRestoreValidation, PostgresIdentity)
    else
      var (started, w2) := StartBackend(w1);
      if !started then Rollback(w2, target, result, StageBackendStart, BackendStartFailed)
      else
        var (healthy, w3) := Ask(w2, Healthy);
        if !healthy then Rollback(w3, target, result, StageBackendHealth, BackendHealthFailed)
        else
          (result.(outcome := RestoreSucceeded, rollback := NotRequired, backendHealthy := true, code := Succeeded), w3)
  }

  /** From the accepted target dump on. */
  function Cutover(w: World, ctx: Context, legacy: nat, target: nat, before: RestoreResult): (RestoreResult, World)
    requires legacy < |w.dumps| && target < |w.dumps|
  {
    var (replaced, w1) := Replace(w, ctx, legacy);
    var result := before.(database := replaced.evidence, mutated := replaced.mutated);
    if !replaced.ok || !DatabaseValid(replaced.evidence) then
      if !replaced.mutated then RecoverBackend(w1, ctx, result, StageTargetReplacement, PrimaryFailed)
      else Rollback(w1, target, result, StageTargetReplacement, PrimaryFailed)
    else Finish(w1, target, result)
  }

  /** From the stopped backend to the target dump. */
  function Secure(w: World, ctx: Context, legacy: nat): (RestoreResult, World)
    requires legacy < |w.dumps|
  {
    var (configured, w1) := Ask(w, Configured);
    if !configured then RecoverBackend(w1, ctx, INITIAL, StageCredentials, CredentialsFailed)
    else
      var (valid, w2) := Ask(w1, Revalidated(legacy));
      if !valid then RecoverBackend(w2, ctx, INITIAL, StageLegacyRevalidation, LegacyFailed)
      else
        var result := INITIAL.(legacyValidated := true);
        var (proven, w3) := ProvePostgres(w2);
        if !proven then RecoverBackend(w3, ctx, result, StagePostgresCheck, PostgresFailed)
        else
          var (target, w4) := DumpTarget(w3);
          if target.None? then RecoverBackend(w4, ctx, result, StageTargetBackup, TargetBackupFailed)
          else Cutover(w4, ctx, legacy, target.value, result.(targetBackup := target))
  }

  /** `RestoreCoordinator.Run`. */
  function Run(w: World, ctx: Context, request: Request): (RestoreResult, World)
    requires request.legacy < |w.dumps|
  {
    if !Supported(request) then (INITIAL.(outcome := Unsupported, code := UnsupportedCode), w)
    else if !request.wired then (BeforeCutover(INITIAL, StagePlatformGate, Done(ctx, w), Precondition), w)
    else
      var (waited, w1) := Ask(w, Waited);
      if !waited then (BeforeCutover(INITIAL, StageWait, Done(ctx, w1), WaitFailed), w1)
      else
        var (proven, w2) := Ask(w1, IdentityProven);
        if !proven then (BeforeCutover(INITIAL, StagePostgresCheck, Done(ctx, w2), PostgresIdentity), w2)
        else
          var (stopped, w3) := StopBackend(w2);
          if !stopped then (BeforeCutover(INITIAL, StageBackendStop, Done(ctx, w3), BackendStopFailed), w3)
          else Secure(w3, ctx, request.legacy)
  }

  // ------------------------------------------------------- what a run keeps

  /** What every phase keeps of the world it found. */
  ghost predicate Kept(w: World, w': World) {
    && w.dumps <= w'.dumps
    && w.dropped <= w'.dropped
    && |w'.dropped| - |w.dropped| == Watched(w'.trace).drops - Watched(w.trace).drops
    && (Truthful(w) ==> Truthful(w'))
    && Watched(w.trace).stops <= Watched(w'.trace).stops
    && Watched(w'.trace).prepared - Watched(w.trace).prepared == Watched(w'.trace).cleaned - Watched(w.trace).cleaned
  }

  /** The last two calls were a successful start and a passed health check. */
  predicate EndsHealthy(w: World) {
    && |w.trace| >= 2 && w.trace[|w.trace| - 2] == Start(true) && w.trace[|w.trace| - 1] == Asked(Healthy, true)
    && w.running
  }

  /** Just before, the PostgreSQL identity was proven. */
  predicate EndsProven(w: World) {
    |w.trace| >= 3 && w.trace[|w.trace| - 3] == Asked(IdentityProven, true)
  }

  /** A proven stop with no start submitted since. */
  predicate SurelyStopped(w: World) {
    Watched(w.trace).stop >= 0
  }

  lemma BringUpKeeps(w: World)
    ensures var (up, w') := BringUp(w);
            && Kept(w, w') && w'.dumps == w.dumps && w'.dropped == w.dropped && Grows(w.db, w'.db)
            && !SurelyStopped(w') && Watched(w'.trace).stops == Watched(w.trace).stops
            && (up <==> EndsHealthy(w'))
            && w'.calls > w.calls
  {
    hide Watched, DropsArmed;
  }

  lemma ProvePostgresKeeps(w: World)
    ensures var (proven, w') := ProvePostgres(w);
            && Kept(w, w') && w'.dumps == w.dumps && w'.dropped == w.dropped && w'.running == w.running
            && Grows(w.db, w'.db) && (!w.running ==> w'.db == w.db)
            && Watched(w'.trace).stop == Watched(w.trace).stop
            && Watched(w'.trace).stops == Watched(w.trace).stops && Watched(w'.trace).dump == Watched(w.trace).dump
            && Watched(w'.trace).valid == Watched(w.trace).valid && Watched(w'.trace).source == Watched(w.trace).source
            && Watched(w'.trace).probed == Watched(w.trace).probed
            && (proven ==> Watched(w'.trace).identity >= 0 && Watched(w'.trace).reached >= 0)
            && w'.calls > w.calls
  {
    hide Watched, DropsArmed;
  }

  /** Recovering the backend before the cutover leaves the data alone and never
      claims health. The reported code hides a failed restart exactly when the
      caller had cancelled. */
  lemma RecoverBackendKeeps(w: World, ctx: Context, result: RestoreResult, stage: Stage, code: Code)
    requires code != BackendRecoveryFailed && code != Cancelled
    ensures var (r, w') := RecoverBackend(w, ctx, result, stage, code);
            && Kept(w, w') && w'.dumps == w.dumps && w'.dropped == w.dropped && Grows(w.db, w'.db)
            && !SurelyStopped(w')
            && (r.outcome.FailedBeforeCutover? || r.outcome.CancelledBeforeCutover?)
            && r == result.(failedStage := stage, outcome := r.outcome, code := r.code)
            && (r.code == BackendRecoveryFailed <==> !EndsHealthy(w') && !Done(ctx, w'))
            && (r.code == Cancelled <==> Done(ctx, w'))
  {
    hide Watched, DropsArmed, BringUp, Kept;
    BringUpKeeps(w);
  }

  /** Where the backend surely stands after a rollback that did not succeed: an
      earlier stop still counts, a later one makes sure, and after a failed restart
      only the very last stop decides. */
  ghost predicate StoppedAfterRollback(w: World, r: RestoreResult, w': World) {
    SurelyStopped(w') <==>
      if r.code == RollbackRecovery then w'.trace != [] && Last(w'.trace) == Stop(true)
      else SurelyStopped(w) || Watched(w'.trace).stops > Watched(w.trace).stops
  }

  ghost predicate RollbackContract(w: World, target: nat, before: RestoreResult, stage: Stage, r: RestoreResult, w': World)
    requires target < |w.dumps|
  {
    && Kept(w, w')
    && r.outcome.PartialCutover? && r.failedStage == stage && r.mutated == before.mutated
    && r.targetBackup == before.targetBackup
    && !r.rollback.NotRequired?
    && (r.backendHealthy <==> r.rollback.RollbackSucceeded?)
    && (r.rollback.RollbackSucceeded? ==>
          EndsHealthy(w') && Grows(w.dumps[target], w'.db) && DatabaseValid(r.database))
    && (!r.rollback.RollbackSucceeded? ==> StoppedAfterRollback(w, r, w'))
  }

  lemma PutBackKeeps(w: World, ctx: Context, target: nat, result: RestoreResult)
    requires target < |w.dumps| && Truthful(w) && Armed(Watched(w.trace), target)
    requires !result.backendHealthy && result.outcome.PartialCutover?
    ensures var (r, w') := PutBack(w, ctx, target, result);
            RollbackContract(w, target, result, result.failedStage, r, w')
  {
    hide Watched, DropsArmed, BringUp, Replace, EndsHealthy, DatabaseValid, Done, Kept, Truthful, StopBackend, Called, Advance;
    NotRunning(w);
    ReplaceKeeps(w, ctx, target);
    var (replaced, w1) := Replace(w, ctx, target);
    ReplaceIsKept(w, target, replaced, w1);
    BringUpKeeps(w1);
    var (up, w2) := BringUp(w1);
    KeptTwice(w, w1, w2);
    LastStop(w2);
    KeptTwice(w, w2, StopBackend(w2).1);
  }

  /** A stop after a start submitted makes sure exactly when it is the last call and
      succeeds. */
  lemma LastStop(w: World)
    requires !SurelyStopped(w)
    ensures var (_, w1) := StopBackend(w);
            Kept(w, w1) && (SurelyStopped(w1) <==> w1.trace != [] && Last(w1.trace) == Stop(true))
  {
    hide Watched, DropsArmed;
  }

  lemma RollbackContractLater(
      w: World, mid: World, target: nat, before: RestoreResult, result: RestoreResult, stage: Stage, r: RestoreResult, w': World)
    requires target < |w.dumps| && Kept(w, mid) && SurelyStopped(mid)
    requires SurelyStopped(w) || Watched(mid.trace).stops > Watched(w.trace).stops
    requires RollbackContract(mid, target, result, stage, r, w')
    requires result.mutated == before.mutated && result.targetBackup == before.targetBackup
    ensures RollbackContract(w, target, before, stage, r, w')
  {
    hide Watched, DropsArmed, EndsHealthy;
  }

  /** A rollback that gave up after `mid`, short of replacing anything. */
  lemma GaveUp(w: World, w': World, target: nat, before: RestoreResult, stage: Stage, r: RestoreResult)
    requires target < |w.dumps| && Kept(w, w')
    requires r == before.(outcome := PartialCutover, failedStage := stage, rollback := r.rollback, code := r.code)
    requires !before.backendHealthy && r.code != RollbackRecovery
    requires !r.rollback.NotRequired? && !r.rollback.RollbackSucceeded?
    requires SurelyStopped(w') <==> SurelyStopped(w) || Watched(w'.trace).stops > Watched(w.trace).stops
    ensures RollbackContract(w, target, before, stage, r, w')
  {
    hide Watched, Kept;
  }

  /** The stop and the probe of `rollback`. */
  lemma StopKeeps(w: World)
    ensures var (stopOk, w1) := StopBackend(w);
            var (stopped, w2) := Probe(w1);
            && Kept(w, w2) && w2.dumps == w.dumps && Watched(w2.trace).dump == Watched(w.trace).dump
            && Watched(w2.trace).stops == Watched(w.trace).stops + (if stopOk then 1 else 0)
            && (SurelyStopped(w2) <==> SurelyStopped(w) || stopOk)
            && (stopped ==> Watched(w2.trace).probed >= 0)
  {
    hide Watched, DropsArmed;
  }

  lemma AskKeeps(w: World, what: Question)
    requires !what.CredentialPrepared? && !what.CredentialCleaned?
    ensures var (ok, w1) := Ask(w, what);
            && Kept(w, w1) && w1.dumps == w.dumps && w1.dropped == w.dropped
            && Watched(w1.trace).dump == Watched(w.trace).dump && Watched(w1.trace).stop == Watched(w.trace).stop
            && Watched(w1.trace).stops == Watched(w.trace).stops
            && (what.Revalidated? && ok ==> Watched(w1.trace).valid >= 0 && Watched(w1.trace).source == what.dump)
            && Watched(w1.trace).probed == Watched(w.trace).probed
            && Grows(w.db, w1.db) && (!w.running ==> w1.db == w.db && !w1.running)
            && w1.calls > w.calls
  {
    hide Watched, DropsArmed;
  }

  lemma KeptTwice(a: World, b: World, c: World)
    requires Kept(a, b) && Kept(b, c)
    ensures Kept(a, c)
  {
    hide Watched, Truthful;
  }

  lemma RollbackStoppedKeeps(w: World, ctx: Context, target: nat, result: RestoreResult)
    requires target < |w.dumps| && Truthful(w) && SurelyStopped(w) && Watched(w.trace).dump >= 0
    requires Watched(w.trace).probed >= 0
    requires !result.backendHealthy && result.outcome.PartialCutover?
    ensures var (r, w') := RollbackStopped(w, ctx, target, result);
            RollbackContract(w, target, result, result.failedStage, r, w')
  {
    hide Watched, ProvePostgres, PutBack, RollbackContract, Kept, Ask, Truthful, Called, Advance, Done, Grows;
    var (r, w') := RollbackStopped(w, ctx, target, result);
    AskKeeps(w, Revalidated(target));
    var (valid, w1) := Ask(w, Revalidated(target));
    if !valid {
      GaveUp(w, w', target, result, result.failedStage, r);
    } else {
      ProvePostgresKeeps(w1);
      var (proven, w2) := ProvePostgres(w1);
      KeptTwice(w, w1, w2);
      if !proven {
        GaveUp(w, w', target, result, result.failedStage, r);
      } else {
        KeepsTruth(w, w2);
        PutBackKeeps(w2, ctx, target, result);
        RollbackContractLater(w, w2, target, result, result, result.failedStage, r, w');
      }
    }
  }

  lemma RollbackProvenKeeps(w: World, mid: World, ctx: Context, target: nat, before: RestoreResult, stage: Stage, code: Code)
    requires target < |w.dumps| && Truthful(w) && Kept(w, mid) && mid.dumps == w.dumps
    requires Watched(w.trace).dump >= 0 && Watched(mid.trace).dump == Watched(w.trace).dump
    requires Watched(mid.trace).stop == Watched(w.trace).stop && Watched(mid.trace).stops == Watched(w.trace).stops
    requires !before.backendHealthy && code != RollbackRecovery
    ensures var result := before.(outcome := PartialCutover, failedStage := stage, code := code);
            var (r, w') := RollbackProven(mid, ctx, target, result);
            RollbackContract(w, target, before, stage, r, w')
  {
    hide Watched, RollbackStopped, RollbackContract, Kept, StopBackend, Probe, Truthful, Called, Advance, Done, Grows;
    var result := before.(outcome := PartialCutover, failedStage := stage, code := code);
    var (r, w') := RollbackProven(mid, ctx, target, result);
    StopKeeps(mid);
    var (stopOk, w1) := StopBackend(mid);
    var (stopped, w2) := Probe(w1);
    KeptTwice(w, mid, w2);
    if !stopOk || !stopped {
      GaveUp(w, w', target, before, stage, r);
    } else {
      KeepsTruth(w, w2);
      RollbackStoppedKeeps(w2, ctx, target, result);
      RollbackContractLater(w, w2, target, before, result, stage, r, w');
    }
  }

  lemma RollbackKeeps(w: World, target: nat, before: RestoreResult, stage: Stage, code: Code)
    requires target < |w.dumps| && Truthful(w) && Watched(w.trace).dump >= 0 && !before.backendHealthy
    requires code != RollbackRecovery
    ensures var (r, w') := Rollback(w, target, before, stage, code);
            RollbackContract(w, target, before, stage, r, w')
  {
    hide Watched, ProvePostgres, RollbackProven, RollbackContract, Kept, Truthful, Called, Advance, Done, RecoveryContext, Grows;
    var (r, w') := Rollback(w, target, before, stage, code);
    ProvePostgresKeeps(w);
    var (proven, w1) := ProvePostgres(w);
    if !proven {
      GaveUp(w, w', target, before, stage, r);
    } else {
      RollbackProvenKeeps(w, w1, RecoveryContext(w), target, before, stage, code);
    }
  }

  lemma KeepsTruth(w: World, w': World)
    requires Kept(w, w') && Truthful(w)
    ensures Truthful(w')
  {
  }

  // ----------------------------------------------------------- whole runs

  predicate StoppedShort(r: RestoreResult) {
    r.outcome.FailedBeforeCutover? || r.outcome.CancelledBeforeCutover?
  }

  /** The backend may be running although the rollback did not succeed: the last
      restart was not undone, or the failure came after the primary start and no stop
      has succeeded since the first one. */
  ghost predicate MayStillRun(r: RestoreResult, w': World) {
    if r.code == RollbackRecovery then w'.trace == [] || Last(w'.trace) != Stop(true)
    else (r.failedStage.StageBackendStart? || r.failedStage.StageBackendHealth?) && Watched(w'.trace).stops == 1
  }

  /** After the database was dropped once, holding `lost`. */
  ghost predicate AfterDrop(w: World, legacy: Database, target: nat, dump: Database, r: RestoreResult, w': World) {
    && Kept(w, w')
    && r.targetBackup == Some(target)
    && (r.outcome.RestoreSucceeded? || r.outcome.PartialCutover?)
    && r.mutated
    && (r.outcome.RestoreSucceeded? ==>
          r.backendHealthy && r.rollback.NotRequired? && EndsHealthy(w') && EndsProven(w') && Grows(legacy, w'.db)
          && DatabaseValid(r.database))
    && (r.outcome.PartialCutover? ==>
          && !r.rollback.NotRequired?
          && (r.backendHealthy <==> r.rollback.RollbackSucceeded?)
          && (r.rollback.RollbackSucceeded? ==> EndsHealthy(w') && Grows(dump, w'.db) && DatabaseValid(r.database))
          && (!r.rollback.RollbackSucceeded? ==> (SurelyStopped(w') <==> !MayStillRun(r, w'))))
  }

  lemma StartKeeps(w: World)
    ensures var (started, w1) := StartBackend(w);
            && Kept(w, w1) && w1.dumps == w.dumps && w1.dropped == w.dropped
            && Watched(w1.trace).dump == Watched(w.trace).dump && !SurelyStopped(w1)
            && Watched(w1.trace).stops == Watched(w.trace).stops && Grows(w.db, w1.db)
            && (started ==> w1.running && w1.trace == w.trace + [Start(true)])
  {
    hide Watched, DropsArmed;
  }

  lemma RolledBack(w: World, mid: World, target: nat, before: RestoreResult, stage: Stage, code: Code, legacy: Database)
    requires target < |mid.dumps| && Kept(w, mid) && Truthful(w) && Watched(mid.trace).dump >= 0
    requires !before.backendHealthy && before.mutated && before.targetBackup == Some(target) && code != RollbackRecovery
    requires Watched(mid.trace).stops == 1
    requires SurelyStopped(mid) <==> !(stage.StageBackendStart? || stage.StageBackendHealth?)
    ensures var (r, w') := Rollback(mid, target, before, stage, code);
            AfterDrop(w, legacy, target, mid.dumps[target], r, w')
  {
    hide Watched, Rollback, Truthful, EndsHealthy;
    KeepsTruth(w, mid);
    RollbackKeeps(mid, target, before, stage, code);
    var (r, w') := Rollback(mid, target, before, stage, code);
    KeptTwice(w, mid, w');
  }

  lemma FinishKeeps(w: World, target: nat, result: RestoreResult)
    requires target < |w.dumps| && Truthful(w) && SurelyStopped(w)
    requires Watched(w.trace).dump >= 0 && Watched(w.trace).stops == 1
    requires !result.backendHealthy && result.mutated && result.targetBackup == Some(target)
    requires DatabaseValid(result.database)
    ensures var (r, w') := Finish(w, target, result);
            AfterDrop(w, w.db, target, w.dumps[target], r, w')
  {
    hide Watched, Rollback, Kept, Truthful, Called, Advance, StartBackend, EndsHealthy, EndsProven, MayStillRun, Done;
    AskKeeps(w, IdentityProven);
    var (proven, w1) := Ask(w, IdentityProven);
    if !proven {
      RolledBack(w, w1, target, result, StageRestoreValidation, PostgresIdentity, w.db);
    } else {
      StartKeeps(w1);
      var (started, w2) := StartBackend(w1);
      KeptTwice(w, w1, w2);
      if !started {
        RolledBack(w, w2, target, result, StageBackendStart, BackendStartFailed, w.db);
      } else {
        AskKeeps(w2, Healthy);
        var (healthy, w3) := Ask(w2, Healthy);
        KeptTwice(w, w2, w3);
        if !healthy {
          RolledBack(w, w3, target, result, StageBackendHealth, BackendHealthFailed, w.db);
        } else {
          HealthyEnd(w, w1, w2, w3);
        }
      }
    }
  }

  lemma HealthyEnd(w: World, w1: World, w2: World, w3: World)
    requires w1.trace == w.trace + [Asked(IdentityProven, true)]
    requires w2.trace == w1.trace + [Start(true)] && w2.running && w3 == Called(w2, Asked(Healthy, true))
    ensures EndsHealthy(w3) && EndsProven(w3)
  {
    hide Watched, DropsArmed;
  }

  /** A run that ended before anything was dropped. */
  ghost predicate Untouched(w: World, ctx: Context, r: RestoreResult, w': World) {
    && Kept(w, w')
    && StoppedShort(r)
    && w'.dropped == w.dropped && Grows(w.db, w'.db)
    && !r.mutated && !r.backendHealthy && r.rollback.NotRequired?
    && (r.code == Cancelled <==> Done(ctx, w'))
    && (r.code == BackendRecoveryFailed <==> Watched(w'.trace).stops > 0 && !EndsHealthy(w') && !Done(ctx, w'))
  }

  /** A run that dropped the database: first of all, and holding exactly what the
      target dump of this run holds. */
  ghost predicate Cut(w: World, legacy: Database, r: RestoreResult, w': World) {
    && |w'.dropped| > |w.dropped|
    && Grows(w.db, w'.dropped[|w.dropped|])
    && r.targetBackup.Some? && r.targetBackup.value < |w'.dumps|
    && w'.dumps[r.targetBackup.value] == w'.dropped[|w.dropped|]
    && AfterDrop(w, legacy, r.targetBackup.value, w'.dropped[|w.dropped|], r, w')
  }

  lemma UntouchedEarlier(w: World, mid: World, ctx: Context, r: RestoreResult, w': World)
    requires Kept(w, mid) && mid.dropped == w.dropped && Grows(w.db, mid.db)
    requires Untouched(mid, ctx, r, w')
    ensures Untouched(w, ctx, r, w')
  {
    hide Watched, Kept, EndsHealthy, Done;
    KeptTwice(w, mid, w');
  }

  lemma CutEarlier(w: World, mid: World, legacy: Database, r: RestoreResult, w': World)
    requires Kept(w, mid) && mid.dropped == w.dropped && Grows(w.db, mid.db)
    requires Cut(mid, legacy, r, w')
    ensures Cut(w, legacy, r, w')
  {
    hide Watched, Kept, EndsHealthy, MayStillRun, SurelyStopped;
    KeptTwice(w, mid, w');
  }

  lemma RecoverIsUntouched(w: World, mid: World, ctx: Context, result: RestoreResult, stage: Stage, code: Code)
    requires code != BackendRecoveryFailed && code != Cancelled
    requires Kept(w, mid) && mid.dropped == w.dropped && Grows(w.db, mid.db) && Watched(mid.trace).stops > 0
    requires !result.mutated && !result.backendHealthy && result.rollback.NotRequired?
    ensures var (r, w') := RecoverBackend(mid, ctx, result, stage, code); Untouched(w, ctx, r, w')
  {
    hide Watched, EndsHealthy, RecoverBackend;
    RecoverBackendKeeps(mid, ctx, result, stage, code);
    KeptTwice(w, mid, RecoverBackend(mid, ctx, result, stage, code).1);
  }

  lemma ReplaceIsKept(w: World, source: nat, r: Replaced, w': World)
    requires source < |w.dumps| && ReplaceContract(w, source, r, w')
    requires Truthful(w) && !w.running && Armed(Watched(w.trace), source)
    ensures Kept(w, w') && Watched(w'.trace).stop == Watched(w.trace).stop
    ensures Watched(w'.trace).stops == Watched(w.trace).stops && Watched(w'.trace).dump == Watched(w.trace).dump
  {
    hide Watched;
  }

  lemma KeptSelf(w: World)
    ensures Kept(w, w)
  {
  }

  lemma DropSurvives(w: World, w1: World, target: nat, legacy: Database, r: RestoreResult, w': World)
    requires target < |w.dumps| && w.dumps[target] == w.db
    requires Kept(w, w1) && w1.dropped == w.dropped + [w.db]
    requires AfterDrop(w1, legacy, target, w.db, r, w')
    ensures Cut(w, legacy, r, w')
  {
    hide Watched, EndsHealthy, MayStillRun, SurelyStopped, Truthful;
    KeptTwice(w, w1, w');
    assert w'.dropped[|w.dropped|] == w1.dropped[|w.dropped|];
  }

  lemma CutoverKeeps(w: World, ctx: Context, legacy: nat, target: nat, before: RestoreResult)
    requires legacy < |w.dumps| && target < |w.dumps| && w.dumps[target] == w.db
    requires Truthful(w) && !w.running && Armed(Watched(w.trace), legacy) && Watched(w.trace).stops == 1
    requires !before.mutated && !before.backendHealthy && before.rollback.NotRequired? && before.targetBackup == Some(target)
    ensures var (r, w') := Cutover(w, ctx, legacy, target, before);
            Untouched(w, ctx, r, w') || Cut(w, w.dumps[legacy], r, w')
  {
    hide Watched, Replace, Rollback, RecoverBackend, Finish, Kept, EndsHealthy, Truthful, MayStillRun, Done;
    var (r, w') := Cutover(w, ctx, legacy, target, before);
    ReplaceKeeps(w, ctx, legacy);
    var (replaced, w1) := Replace(w, ctx, legacy);
    ReplaceIsKept(w, legacy, replaced, w1);
    KeepsTruth(w, w1);
    var result := before.(database := replaced.evidence, mutated := replaced.mutated);
    if !replaced.mutated {
      RecoverIsUntouched(w, w1, ctx, result, StageTargetReplacement, PrimaryFailed);
    } else {
      if replaced.ok {
        FinishKeeps(w1, target, result);
      } else {
        KeptSelf(w1);
        RolledBack(w1, w1, target, result, StageTargetReplacement, PrimaryFailed, w.dumps[legacy]);
      }
      DropSurvives(w, w1, target, w.dumps[legacy], r, w');
    }
  }

  lemma DumpKeeps(w: World)
    requires !w.running
    ensures var (target, w1) := DumpTarget(w);
            && Kept(w, w1) && w1.dropped == w.dropped && w1.db == w.db && !w1.running
            && w.dumps <= w1.dumps
            && Watched(w1.trace).stops == Watched(w.trace).stops && Watched(w1.trace).stop == Watched(w.trace).stop
            && Watched(w1.trace).identity == Watched(w.trace).identity && Watched(w1.trace).reached == Watched(w.trace).reached
            && Watched(w1.trace).valid == Watched(w.trace).valid && Watched(w1.trace).source == Watched(w.trace).source
            && (target.Some? ==> target.value < |w1.dumps| && w1.dumps[target.value] == w1.db && Watched(w1.trace).dump >= 0)
  {
    hide Watched, DropsArmed;
  }

  lemma SecureKeeps(w: World, ctx: Context, legacy: nat)
    requires legacy < |w.dumps| && Truthful(w) && SurelyStopped(w) && Watched(w.trace).stops == 1
    requires Watched(w.trace).drops == 0
    ensures var (r, w') := Secure(w, ctx, legacy);
            Untouched(w, ctx, r, w') || Cut(w, w.dumps[legacy], r, w')
  {
    hide Watched, RecoverBackend, Cutover, ProvePostgres, Kept, EndsHealthy, Truthful, Done, Untouched, Cut, Called, Advance, DumpTarget;
    var (r, w') := Secure(w, ctx, legacy);
    NotRunning(w);
    AskKeeps(w, Configured);
    var (configured, w1) := Ask(w, Configured);
    if !configured {
      RecoverIsUntouched(w, w1, ctx, INITIAL, StageCredentials, CredentialsFailed);
    } else {
      AskKeeps(w1, Revalidated(legacy));
      var (valid, w2) := Ask(w1, Revalidated(legacy));
      KeptTwice(w, w1, w2);
      if !valid {
        RecoverIsUntouched(w, w2, ctx, INITIAL, StageLegacyRevalidation, LegacyFailed);
      } else {
        var result := INITIAL.(legacyValidated := true);
        ProvePostgresKeeps(w2);
        var (proven, w3) := ProvePostgres(w2);
        KeptTwice(w, w2, w3);
        if !proven {
          RecoverIsUntouched(w, w3, ctx, result, StagePostgresCheck, PostgresFailed);
        } else {
          NothingDropped(w, w3);
          SecureDump(w, w3, ctx, legacy, result);
        }
      }
    }
  }

  lemma NotRunning(w: World)
    requires Truthful(w) && SurelyStopped(w)
    ensures !w.running
  {
  }

  lemma NothingDropped(w: World, mid: World)
    requires Kept(w, mid) && mid.dropped == w.dropped
    ensures Watched(mid.trace).drops == Watched(w.trace).drops
  {
  }

  /** The last part of `Secure`. */
  lemma SecureDump(w: World, mid: World, ctx: Context, legacy: nat, result: RestoreResult)
    requires legacy < |w.dumps| && w.dumps <= mid.dumps && Truthful(w) && Kept(w, mid)
    requires mid.dropped == w.dropped && Grows(w.db, mid.db)
    requires !mid.running && Watched(mid.trace).stops == 1 && SurelyStopped(mid)
    requires Watched(mid.trace).identity >= 0 && Watched(mid.trace).reached >= 0
    requires Watched(mid.trace).valid >= 0 && Watched(mid.trace).source == legacy && Watched(mid.trace).drops == 0
    requires !result.mutated && !result.backendHealthy && result.rollback.NotRequired?
    ensures var (target, w4) := DumpTarget(mid);
            w.dumps <= w4.dumps && (target.Some? ==> target.value < |w4.dumps|)
    ensures var (target, w4) := DumpTarget(mid);
            var (r, w') := if target.None? then RecoverBackend(w4, ctx, result, StageTargetBackup, TargetBackupFailed)
                           else Cutover(w4, ctx, legacy, target.value, result.(targetBackup := target));
            Untouched(w, ctx, r, w') || Cut(w, w.dumps[legacy], r, w')
  {
    hide Watched, RecoverBackend, Cutover, Kept, EndsHealthy, Truthful, Done, Untouched, Cut, DumpTarget;
    DumpKeeps(mid);
    var (target, w4) := DumpTarget(mid);
    KeptTwice(w, mid, w4);
    if target.None? {
      RecoverIsUntouched(w, w4, ctx, result, StageTargetBackup, TargetBackupFailed);
    } else {
      KeepsTruth(w, w4);
      var seen := result.(targetBackup := target);
      CutoverKeeps(w4, ctx, legacy, target.value, seen);
      var (r, w') := Cutover(w4, ctx, legacy, target.value, seen);
      if Untouched(w4, ctx, r, w') {
        UntouchedEarlier(w, w4, ctx, r, w');
      } else {
        CutEarlier(w, w4, w.dumps[legacy], r, w');
      }
    }
  }

  /** The start of a run: nothing called, nothing dropped. */
  ghost predicate Fresh(w: World) {
    w.trace == [] && w.dropped == []
  }

  lemma StopAtFirst(w: World)
    ensures var (stopOk, w1) := StopBackend(w);
            && Kept(w, w1) && w1.dumps == w.dumps && w1.dropped == w.dropped && Grows(w.db, w1.db)
            && Watched(w1.trace).stops == Watched(w.trace).stops + (if stopOk then 1 else 0)
            && (stopOk ==> SurelyStopped(w1))
  {
    hide Watched, DropsArmed;
  }

  /** An early exit, before the backend was stopped. */
  lemma EarlyIsUntouched(w: World, mid: World, ctx: Context, stage: Stage, code: Code)
    requires Kept(w, mid) && mid.dropped == w.dropped && Grows(w.db, mid.db) && Watched(mid.trace).stops == 0
    requires code != BackendRecoveryFailed && code != Cancelled
    ensures Untouched(w, ctx, BeforeCutover(INITIAL, stage, Done(ctx, mid), code), mid)
  {
    hide Watched, Kept, EndsHealthy;
  }

  lemma RunKeeps(w: World, ctx: Context, request: Request)
    requires request.legacy < |w.dumps| && Fresh(w)
    ensures var (r, w') := Run(w, ctx, request);
            if !Supported(request) then w' == w && r == INITIAL.(outcome := Unsupported, code := UnsupportedCode)
            else Untouched(w, ctx, r, w') || Cut(w, w.dumps[request.legacy], r, w')
  {
    hide Secure, Kept, EndsHealthy, Truthful, Done, Untouched, Cut, Called, Advance, StopBackend, BeforeCutover, Supported;
    assert Watched(w.trace).stops == 0 && Watched(w.trace).drops == 0 && Watched(w.trace).stop < 0;
    FreshIsTruthful(w);
    if Supported(request) {
      RunSupportedKeeps(w, ctx, request);
    }
  }

  lemma FreshIsTruthful(w: World)
    requires Fresh(w)
    ensures Truthful(w) && Kept(w, w) && Watched(w.trace).stops == 0
  {
  }

  lemma RunSupportedKeeps(w: World, ctx: Context, request: Request)
    requires request.legacy < |w.dumps| && Truthful(w) && Watched(w.trace).stops == 0 && Watched(w.trace).drops == 0 && Supported(request)
    ensures var (r, w') := Run(w, ctx, request);
            Untouched(w, ctx, r, w') || Cut(w, w.dumps[request.legacy], r, w')
  {
    hide Watched, Secure, Kept, EndsHealthy, Truthful, Done, Untouched, Cut, Called, Advance, StopBackend, BeforeCutover, Supported;
    var (r, w') := Run(w, ctx, request);
    KeptSelf(w);
    if !request.wired {
      EarlyIsUntouched(w, w, ctx, StagePlatformGate, Precondition);
    } else {
      AskKeeps(w, Waited);
      var (waited, w1) := Ask(w, Waited);
      if !waited {
        EarlyIsUntouched(w, w1, ctx, StageWait, WaitFailed);
      } else {
        AskKeeps(w1, IdentityProven);
        var (proven, w2) := Ask(w1, IdentityProven);
        KeptTwice(w, w1, w2);
        if !proven {
          EarlyIsUntouched(w, w2, ctx, StagePostgresCheck, PostgresIdentity);
        } else {
          StopAtFirst(w2);
          var (stopped, w3) := StopBackend(w2);
          KeptTwice(w, w2, w3);
          if !stopped {
            EarlyIsUntouched(w, w3, ctx, StageBackendStop, BackendStopFailed);
          } else {
            KeepsTruth(w, w3);
            NothingDropped(w, w3);
            SecureKeeps(w3, ctx, request.legacy);
            if Untouched(w3, ctx, r, w') {
              UntouchedEarlier(w, w3, ctx, r, w');
            } else {
              CutEarlier(w, w3, w.dumps[request.legacy], r, w');
            }
          }
        }
      }
    }
  }

  // ------------------------------------------------------------- theorems

  /** The outcome says what the database holds. Before a cutover no drop was ever
      submitted and the data only grew; a successful run holds the legacy dump and
      later writes; every other run dropped the database with nothing lost: its
      content at that moment is the original with every later write, the target dump
      taken in this same run holds exactly that content, and a successful rollback
      brings it back. */
  lemma OutcomeDeterminesData(w: World, ctx: Context, request: Request)
    requires request.legacy < |w.dumps| && Fresh(w)
    ensures var (r, w') := Run(w, ctx, request);
            if StoppedShort(r) || r.outcome.Unsupported? then
              (forall i :: 0 <= i < |w'.trace| ==> !IsDrop(w'.trace[i])) && Grows(w.db, w'.db) && !r.mutated
            else
              && r.mutated && w'.dropped != [] && Grows(w.db, w'.dropped[0])
              && r.targetBackup.Some? && r.targetBackup.value < |w'.dumps|
              && w'.dumps[r.targetBackup.value] == w'.dropped[0]
              && (r.outcome.RestoreSucceeded? ==> Grows(w.dumps[request.legacy], w'.db))
              && (r.rollback.RollbackSucceeded? ==> Grows(w'.dropped[0], w'.db))
  {
    hide Run, EndsHealthy, MayStillRun, Supported;
    var (r, w') := Run(w, ctx, request);
    RunKeeps(w, ctx, request);
    NoDropCounted(w'.trace);
  }

  /** In every run, each `dropdb` follows a successful backend stop with no start in
      between, proofs of the PostgreSQL identity and its reachability and a revalidation
      of the very dump about to be restored, all made after that stop, and a validated
      dump of the target; the drop of a rollback further follows a probe that saw the
      backend stopped. */
  lemma EveryDropIsGuarded(w: World, ctx: Context, request: Request)
    requires request.legacy < |w.dumps| && Fresh(w)
    ensures var w' := Run(w, ctx, request).1;
            forall i :: 0 <= i < |w'.trace| && IsDrop(w'.trace[i]) ==> Guarded(w'.trace, i, w'.trace[i].source)
  {
    hide Run, EndsHealthy, MayStillRun, Supported, Guarded;
    RunKeeps(w, ctx, request);
    FreshIsTruthful(w);
    ArmedDropsAreGuarded(Run(w, ctx, request).1.trace);
  }

  /** A run reports a healthy backend exactly when it succeeded or rolled back with
      success, and then the last two calls are a successful start and a passed health
      check, and the backend runs; a success proved the PostgreSQL identity once more
      just before. Both report valid evidence of the restored database. */
  lemma HealthyExactly(w: World, ctx: Context, request: Request)
    requires request.legacy < |w.dumps| && Fresh(w)
    ensures var (r, w') := Run(w, ctx, request);
            && (r.backendHealthy <==> r.outcome.RestoreSucceeded? || r.rollback.RollbackSucceeded?)
            && (r.backendHealthy ==> EndsHealthy(w'))
            && (r.outcome.RestoreSucceeded? ==> EndsProven(w'))
            && (r.backendHealthy ==> DatabaseValid(r.database))
            && (r.mutated <==> r.outcome.RestoreSucceeded? || r.outcome.PartialCutover?)
  {
    hide Run, EndsHealthy, MayStillRun, Supported;
    RunKeeps(w, ctx, request);
  }

  /** When a rollback does not succeed, the backend is proven stopped with no start
      submitted since, and so does not run, except exactly in the runs of
      `MayStillRun`. */
  lemma FailedRollbackLeavesStopped(w: World, ctx: Context, request: Request)
    requires request.legacy < |w.dumps| && Fresh(w)
    ensures var (r, w') := Run(w, ctx, request);
            r.outcome.PartialCutover? && !r.rollback.RollbackSucceeded? ==>
              && (SurelyStopped(w') <==> !MayStillRun(r, w'))
              && (SurelyStopped(w') ==> !w'.running)
  {
    hide Run, EndsHealthy, MayStillRun, Supported, Watched;
    RunKeeps(w, ctx, request);
    FreshIsTruthful(w);
  }

  /** Once the backend was stopped and nothing was dropped, a failed restart of it is
      reported exactly when the caller has not cancelled; a cancellation replaces
      the code. */
  lemma CancellationHidesFailedRestart(w: World, ctx: Context, request: Request)
    requires request.legacy < |w.dumps| && Fresh(w)
    ensures var (r, w') := Run(w, ctx, request);
            StoppedShort(r) ==>
              && (r.code == Cancelled <==> Done(ctx, w'))
              && (r.code == BackendRecoveryFailed <==>
                    Watched(w'.trace).stops > 0 && !EndsHealthy(w') && !Done(ctx, w'))
  {
    hide Run, EndsHealthy, MayStillRun, Supported, Watched;
    RunKeeps(w, ctx, request);
  }

  /** Every prepared credential is cleaned exactly once, whatever happens. */
  lemma CredentialsAreCleaned(w: World, ctx: Context, request: Request)
    requires request.legacy < |w.dumps| && Fresh(w)
    ensures var g := Watched(Run(w, ctx, request).1.trace); g.prepared == g.cleaned
  {
    hide Run, EndsHealthy, MayStillRun, Supported;
    RunKeeps(w, ctx, request);
  }

  // ------------------------------------------------------------ witnesses

  /** Replies of a world where the first `n` calls succeed and the others fail
      without effect. */
  function FirstSucceed(n: nat): nat -> Reply {
    call => Reply(call < n, false, false, true, [], Missing, [Printed(1)], None)
  }

  function StartWorld(n: nat): (w: World)
    ensures Fresh(w)
  {
    World(FirstSucceed(n), 0, [], true, Rows([7]), [Rows([8])], [])
  }

  lemma {:induction false} SmoothSteps(w: World, n: nat, source: nat, i: nat, mutated: bool, output: string)
    requires w.oracle == FirstSucceed(n) && source < |w.dumps| && i <= |STEPS| && w.calls + (|STEPS| - i) <= n
    requires i == |STEPS| ==> output == Printed(1)
    ensures var (r, w') := RunSteps(w, None, source, i, mutated, output);
            && r.process.ProcessSucceeded? && r.output == Printed(1)
            && w'.oracle == w.oracle && w'.calls == w.calls + (|STEPS| - i) && w'.running == w.running
            && (r.mutated <==> mutated || i <= 1)
    decreases |STEPS| - i
  {
    hide Watched, DropsArmed, Armed, Advance, Grows, Printed, Clipped, Joined;
    if i < |STEPS| {
      var step := STEPS[i];
      var (ok, w1) := RunStep(w, step, source);
      assert Joined([Printed(1)]) == Printed(1) && Clipped(Printed(1)) == Printed(1) by {
        PrintedOne();
      }
      SmoothSteps(w1, n, source, i + 1, mutated || step.DropDatabase?, if step.Validate? then Printed(1) else output);
    }
  }

  lemma PrintedOne()
    ensures Joined([Printed(1)]) == Printed(1) && Clipped(Printed(1)) == Printed(1)
  {
    assert |Printed(1)| == 6;
    assert Joined([Printed(1)]) == Printed(1) + Joined([]);
  }

  lemma SmoothReplace(w: World, n: nat, source: nat)
    requires w.oracle == FirstSucceed(n) && source < |w.dumps| && w.calls + 8 <= n
    ensures var (r, w') := Replace(w, None, source);
            && r.ok && r.mutated && DatabaseValid(r.evidence)
            && w'.oracle == w.oracle && w'.calls == w.calls + 8 && w'.running == w.running
  {
    hide Watched, DropsArmed, RunSteps, ParseEvidence;
    SmoothSteps(w.(calls := w.calls + 2), n, source, 0, false, "");
    ValidationRoundTrip(1);
    AcceptedEvidenceIsValid(Printed(1));
    var (_, w1) := Ask(w, CredentialPrepared);
    var (_, w2) := Ask(w1, PlanBuilt);
    SmoothSteps(w2, n, source, 0, false, "");
  }

  /** A run whose health check fails right after the primary start, and whose first
      rollback proof fails as well: a partial cutover that is not rolled back leaves
      the backend running. */
  lemma FailedRollbackMayLeaveRunning()
    ensures var (r, w') := Run(StartWorld(18), None, Request("linux", "amd64", true, 0));
            && r.outcome.PartialCutover? && r.rollback.RollbackFailed? && r.code == RollbackPostgres
            && r.failedStage.StageBackendHealth? && w'.running
  {
    hide Watched, DropsArmed, Replace, Secure;
    var w := StartWorld(18);
    var (_, w1) := Ask(w, Waited);
    var (_, w2) := Ask(w1, IdentityProven);
    var (_, w3) := StopBackend(w2);
    SecureThenFail(w3);
  }

  lemma SecureThenFail(w: World)
    requires w.oracle == FirstSucceed(18) && w.calls == 3 && |w.dumps| == 1
    ensures var (r, w') := Secure(w, None, 0);
            && r.outcome.PartialCutover? && r.rollback.RollbackFailed? && r.code == RollbackPostgres
            && r.failedStage.StageBackendHealth? && w'.running
  {
    hide Watched, DropsArmed, Replace, RollbackStopped;
    var (_, w1) := Ask(w, Configured);
    var (_, w2) := Ask(w1, Revalidated(0));
    var (_, w3) := ProvePostgres(w2);
    var (target, w4) := DumpTarget(w3);
    assert w4.calls == 8;
    SmoothReplace(w4, 18, 0);
  }

  /** A cancelled run that failed to bring the backend back reports only the
      cancellation. */
  lemma CancellationMayHide()
    ensures var (r, w') := Run(StartWorld(3), Some(5), Request("linux", "amd64", true, 0));
            r.outcome.CancelledBeforeCutover? && r.code == Cancelled && !w'.running
  {
    hide Watched, DropsArmed, Cutover;
  }
}
