/** The imperative restore (internal/migration/restore.go and restore_process.go),
    proved to compute the runs `Restore` specifies. */
module Restorer {
  import opened Basics
  import opened RestoreWorld
  import opened Replacement
  import opened Restore

  class RestoreCoordinator {
    var world: World

    constructor (w: World)
      ensures world == w
    {
      world := w;
    }

    method Call(what: Question) returns (ok: bool)
      modifies this
      ensures (ok, world) == Ask(old(world), what)
    {
      ok, world := Ask(world, what).0, Ask(world, what).1;
    }

    method StopService() returns (ok: bool)
      modifies this
      ensures (ok, world) == StopBackend(old(world))
    {
      ok, world := StopBackend(world).0, StopBackend(world).1;
    }

    method StartService() returns (ok: bool)
      modifies this
      ensures (ok, world) == StartBackend(old(world))
    {
      ok, world := StartBackend(world).0, StartBackend(world).1;
    }

    /** The step loop of `RunTargetReplacement`. The source's test for validation
        output above the limit cannot fire: the bounded buffer never exceeds it. */
    method RunPlan(ctx: Context, source: nat) returns (result: Outcome)
      requires source < |world.dumps|
      modifies this
      ensures (result, world) == RunSteps(old(world), ctx, source, 0, false, "")
    {
      hide Watched, DropsArmed, Called, Advance, RunStep, Clipped, Joined;
      var mutated := false;
      var validation := new BoundedOutput();
      for i := 0 to |STEPS|
        invariant fresh(validation)
        invariant i < |STEPS| ==> validation.buffer == ""
        invariant source < |world.dumps|
        invariant RunSteps(world, ctx, source, i, mutated, validation.buffer) ==
                  RunSteps(old(world), ctx, source, 0, false, "")
      {
        var step := STEPS[i];
        if Done(ctx, world) {
          return Outcome(ProcessCancelled, step, mutated, "");
        }
        if step.DropDatabase? {
          mutated := true;
        }
        var reply := world.oracle(world.calls);
        if step.Validate? {
          validation.Drain(reply.output);
          assert |validation.buffer| <= OUTPUT_LIMIT;
        }
        var (ok, next) := RunStep(world, step, source);
        world := next;
        if reply.panics {
          return Outcome(ProcessCleanupFailed, TerminateSessions, mutated, "");
        }
        if !ok {
          return Outcome(ProcessFailed, step, mutated, "");
        }
      }
      return Outcome(ProcessSucceeded, TerminateSessions, mutated, validation.buffer);
    }

    /** `RunTargetReplacement`. */
    method RunTargetReplacement(ctx: Context, source: nat) returns (result: Outcome)
      requires source < |world.dumps|
      modifies this
      ensures (result, world) == RunReplacement(old(world), ctx, source)
    {
      result := RunPlan(ctx, source);
      var cleaned := Call(CredentialCleaned);
      if !cleaned {
        result := result.(process := ProcessCleanupFailed);
      }
    }

    /** `TargetReplacementAdapter.Replace`. */
    method ReplaceDatabase(ctx: Context, source: nat) returns (result: Replaced)
      requires source < |world.dumps|
      modifies this
      ensures (result, world) == Replace(old(world), ctx, source)
    {
      var prepared := Call(CredentialPrepared);
      if !prepared {
        return Replaced(NO_EVIDENCE, false, false);
      }
      var planned := Call(PlanBuilt);
      if !planned {
        var _ := Call(CredentialCleaned);
        return Replaced(NO_EVIDENCE, false, false);
      }
      var run := RunTargetReplacement(ctx, source);
      if !run.process.ProcessSucceeded? {
        return Replaced(NO_EVIDENCE, run.mutated, false);
      }
      var evidence := ParseEvidence(run.output);
      if evidence.None? {
        return Replaced(NO_EVIDENCE, run.mutated, false);
      }
      return Replaced(evidence.value, run.mutated, true);
    }

    method BackendUp() returns (up: bool)
      modifies this
      ensures (up, world) == BringUp(old(world))
    {
      up := StartService();
      if up {
        up := Call(Healthy);
      }
    }

    /** `recoverBeforeCutover`. */
    method RecoverBeforeCutover(ctx: Context, result: RestoreResult, stage: Stage, code: Code) returns (r: RestoreResult)
      modifies this
      ensures (r, world) == RecoverBackend(old(world), ctx, result, stage, code)
    {
      hide Watched, DropsArmed, BringUp, BeforeCutover, Done;
      var up := BackendUp();
      r := BeforeCutover(result, stage, Done(ctx, world), if up then code else BackendRecoveryFailed);
    }

    method PostgresProven() returns (proven: bool)
      modifies this
      ensures (proven, world) == ProvePostgres(old(world))
    {
      proven := Call(IdentityProven);
      if proven {
        proven := Call(Reached);
      }
    }

    /** `rollback`. */
    method RollBack(target: nat, before: RestoreResult, stage: Stage, code: Code) returns (result: RestoreResult)
      requires target < |world.dumps|
      modifies this
      ensures (result, world) == Rollback(old(world), target, before, stage, code)
    {
      hide Watched, DropsArmed, PutBack, Called, Advance, StopBackend, Ask, Probe, RecoveryContext;
      result := before.(outcome := PartialCutover, failedStage := stage, code := code);
      var ctx := RecoveryContext(world);
      var proven := PostgresProven();
      if !proven {
        result := result.(rollback := StatusOf(Done(ctx, world)), code := RollbackPostgres);
        return;
      }
      var stopOk := StopService();
      var (stopped, next) := Probe(world);
      world := next;
      if !stopOk || !stopped {
        result := result.(rollback := StatusOf(Done(ctx, world)), code := RollbackStop);
        if result.rollback.RollbackCancelled? && !stopped {
          result := result.(rollback := RollbackFailed);
        }
        return;
      }
      var valid := Call(Revalidated(target));
      if !valid {
        result := result.(rollback := StatusOf(Done(ctx, world)), code := RollbackRevalidate);
        return;
      }
      proven := PostgresProven();
      if !proven {
        result := result.(rollback := StatusOf(Done(ctx, world)), code := RollbackPostgres);
        return;
      }
      result := PutTargetBack(ctx, target, result);
    }

    /** The end of `rollback`. */
    method PutTargetBack(ctx: Context, target: nat, before: RestoreResult) returns (result: RestoreResult)
      requires target < |world.dumps|
      modifies this
      ensures (result, world) == PutBack(old(world), ctx, target, before)
    {
      hide Watched, DropsArmed, Replace, Called, Advance, BringUp, StopBackend;
      result := before;
      var replaced := ReplaceDatabase(ctx, target);
      result := result.(database := replaced.evidence);
      if !replaced.ok || !DatabaseValid(result.database) {
        result := result.(rollback := StatusOf(Done(ctx, world)), code := RollbackReplaceFailed);
        return;
      }
      var up := BackendUp();
      if !up {
        var _ := StopService();
        result := result.(rollback := StatusOf(Done(ctx, world)), code := RollbackRecovery);
        return;
      }
      result := result.(rollback := RollbackSucceeded, backendHealthy := true);
    }

    /** `RestoreCoordinator.Run` after the target dump was accepted. */
    method CutOver(ctx: Context, legacy: nat, target: nat, before: RestoreResult) returns (result: RestoreResult)
      requires legacy < |world.dumps| && target < |world.dumps|
      modifies this
      ensures (result, world) == Cutover(old(world), ctx, legacy, target, before)
    {
      hide Watched, DropsArmed, Replace, Rollback, RecoverBackend, Called, Advance, StartBackend, Ask;
      result := before;
      var replaced := ReplaceDatabase(ctx, legacy);
      result := result.(database := replaced.evidence, mutated := replaced.mutated);
      if !replaced.ok || !DatabaseValid(result.database) {
        if !result.mutated {
          result := RecoverBeforeCutover(ctx, result, StageTargetReplacement, PrimaryFailed);
          return;
        }
        result := RollBack(target, result, StageTargetReplacement, PrimaryFailed);
        return;
      }
      var proven := Call(IdentityProven);
      if !proven {
        result := RollBack(target, result, StageRestoreValidation, PostgresIdentity);
        return;
      }
      var started := StartService();
      if !started {
        result := RollBack(target, result, StageBackendStart, BackendStartFailed);
        return;
      }
      var healthy := Call(Healthy);
      if !healthy {
        result := RollBack(target, result, StageBackendHealth, BackendHealthFailed);
        return;
      }
      result := result.(outcome := RestoreSucceeded, rollback := NotRequired, backendHealthy := true, code := Succeeded);
    }

    /** `RestoreCoordinator.Run`. */
    method RunRestore(ctx: Context, request: Request) returns (result: RestoreResult)
      requires request.legacy < |world.dumps|
      modifies this
      ensures (result, world) == Run(old(world), ctx, request)
    {
      hide Watched, DropsArmed, Cutover, RecoverBackend, Called, Advance, StopBackend, Ask, DumpTarget;
      result := INITIAL;
      if request.goos != "linux" || (request.goarch != "amd64" && request.goarch != "arm64") {
        result := result.(outcome := Unsupported, code := UnsupportedCode);
        return;
      }
      if !request.wired {
        return BeforeCutover(result, StagePlatformGate, Done(ctx, world), Precondition);
      }
      var ok := Call(Waited);
      if !ok {
        return BeforeCutover(result, StageWait, Done(ctx, world), WaitFailed);
      }
      ok := Call(IdentityProven);
      if !ok {
        return BeforeCutover(result, StagePostgresCheck, Done(ctx, world), PostgresIdentity);
      }
      ok := StopService();
      if !ok {
        return BeforeCutover(result, StageBackendStop, Done(ctx, world), BackendStopFailed);
      }
      ok := Call(Configured);
      if !ok {
        result := RecoverBeforeCutover(ctx, result, StageCredentials, CredentialsFailed);
        return;
      }
      ok := Call(Revalidated(request.legacy));
      if !ok {
        result := RecoverBeforeCutover(ctx, result, StageLegacyRevalidation, LegacyFailed);
        return;
      }
      result := result.(legacyValidated := true);
      ok := PostgresProven();
      if !ok {
        result := RecoverBeforeCutover(ctx, result, StagePostgresCheck, PostgresFailed);
        return;
      }
      var (target, next) := DumpTarget(world);
      world := next;
      if target.None? {
        result := RecoverBeforeCutover(ctx, result, StageTargetBackup, TargetBackupFailed);
        return;
      }
      result := result.(targetBackup := target);
      result := CutOver(ctx, request.legacy, target.value, result);
    }
  }
}
