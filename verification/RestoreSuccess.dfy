/** When a restore and a rollback succeed (internal/migration/restore.go,
    restore_process.go), in terms of the answers of the outside world alone. */
module RestoreSuccess {
  import opened Basics
  import opened RestoreWorld
  import opened Replacement
  import opened Restore
  import opened RestoreProgress

  /** Every call numbered from `from` up to `to` is answered with success. */
  ghost predicate AllOk(w: World, from: nat, to: nat) {
    forall at: nat :: from <= at < to ==> w.oracle(at).ok
  }

  /** The command submitted as call `at` does its work: the context has not ended
      before it, and its process neither fails nor breaks down. */
  predicate Works(w: World, ctx: Context, at: nat) {
    w.oracle(at).ok && !w.oracle(at).panics && (ctx.Some? ==> at < ctx.value)
  }

  ghost predicate AllWork(w: World, ctx: Context, from: nat, to: nat) {
    forall at: nat :: from <= at < to ==> Works(w, ctx, at)
  }

  lemma {:induction false} StepsSucceed(w: World, ctx: Context, source: nat, i: nat, mutated: bool, output: string)
    requires source < |w.dumps| && i <= |STEPS|
    ensures var (r, w') := RunSteps(w, ctx, source, i, mutated, output);
            && (r.process.ProcessSucceeded? <==> AllWork(w, ctx, w.calls, w.calls + (|STEPS| - i)))
            && w'.oracle == w.oracle
            && (r.process.ProcessSucceeded? ==>
                  && w'.calls == w.calls + (|STEPS| - i) && w'.running == w.running
                  && r.output == if i == |STEPS| then output else Clipped(Joined(w.oracle(w.calls + (4 - i)).output)))
    decreases |STEPS| - i
  {
    hide Clipped, Joined, AllWork, Works, RunSteps;
    if i == |STEPS| {
      NoneWork(w, ctx);
      StepsEnd(w, ctx, source, mutated, output);
    } else {
      var on := StepsGoOn(w, ctx, source, i, mutated, output);
      if Works(w, ctx, w.calls) {
        StepsSucceed(on.0, ctx, source, i + 1, mutated || STEPS[i].DropDatabase?, on.1);
        WorkSplits(w, on.0, ctx, w.calls + (|STEPS| - i));
      }
    }
  }

  /** One step that works leads to the next, and any other ends the replacement. */
  lemma StepsGoOn(w: World, ctx: Context, source: nat, i: nat, mutated: bool, output: string) returns (next: (World, string))
    requires source < |w.dumps| && i < |STEPS|
    ensures next.0.dumps == w.dumps && next.0.oracle == w.oracle && next.0.calls == w.calls + 1 && next.0.running == w.running
    ensures next.1 == if i == 4 then Clipped(Joined(w.oracle(w.calls).output)) else output
    ensures if Works(w, ctx, w.calls) then
              RunSteps(w, ctx, source, i, mutated, output)
                == RunSteps(next.0, ctx, source, i + 1, mutated || STEPS[i].DropDatabase?, next.1)
            else
              && !RunSteps(w, ctx, source, i, mutated, output).0.process.ProcessSucceeded?
              && RunSteps(w, ctx, source, i, mutated, output).1.oracle == w.oracle
              && !AllWork(w, ctx, w.calls, w.calls + (|STEPS| - i))
  {
    hide Clipped, Joined, AllWork, Works, RunStep;
    StepSucceeds(w, ctx, STEPS[i], source, w.calls + (|STEPS| - i));
    StepPlanned(source, i);
    next := (RunStep(w, STEPS[i], source).1, if i == 4 then Clipped(Joined(w.oracle(w.calls).output)) else output);
  }

  lemma NoneWork(w: World, ctx: Context)
    ensures AllWork(w, ctx, w.calls, w.calls)
  {
  }

  lemma StepSucceeds(w: World, ctx: Context, step: Step, source: nat, to: nat)
    requires source < |w.dumps| && w.calls < to
    ensures var (ok, w1) := RunStep(w, step, source);
            && w1.dumps == w.dumps && w1.oracle == w.oracle && w1.calls == w.calls + 1 && w1.running == w.running
            && (Works(w, ctx, w.calls) <==> !Done(ctx, w) && !w.oracle(w.calls).panics && ok)
    ensures !Works(w, ctx, w.calls) ==> !AllWork(w, ctx, w.calls, to)
  {
    hide Watched, DropsArmed, Armed, Advance, Grows, StepEffect;
  }

  lemma WorkSplits(w: World, w1: World, ctx: Context, to: nat)
    requires w1.oracle == w.oracle && w1.calls == w.calls + 1 <= to
    ensures AllWork(w, ctx, w.calls, to) <==> Works(w, ctx, w.calls) && AllWork(w1, ctx, w1.calls, to)
  {
    assert forall at: nat :: Works(w, ctx, at) == Works(w1, ctx, at);
  }

  ghost predicate ReplacementGoes(w: World, ctx: Context) {
    && AllOk(w, w.calls, w.calls + 8)
    && AllWork(w, ctx, w.calls + 2, w.calls + 7)
    && Parsed(w, w.calls + BEFORE_VALIDATION)
  }

  lemma ReplaceSucceeds(w: World, ctx: Context, source: nat)
    requires source < |w.dumps|
    ensures var (r, w') := Replace(w, ctx, source);
            && (r.ok <==> ReplacementGoes(w, ctx))
            && (r.ok ==> DatabaseValid(r.evidence) && w'.oracle == w.oracle && w'.calls == w.calls + 8 && w'.running == w.running)
  {
    hide Watched, DropsArmed, Armed, Advance, Grows, Clipped, Joined, RunSteps, ParseEvidence, DatabaseValid;
    AcceptedIsValid(w, ctx, source);
    var (prepared, w1) := Ask(w, CredentialPrepared);
    var (planned, w2) := Ask(w1, PlanBuilt);
    StepsSucceed(w2, ctx, source, 0, false, "");
    assert AllWork(w, ctx, w.calls + 2, w.calls + 7) <==> AllWork(w2, ctx, w2.calls, w2.calls + 5) by {
      assert forall at: nat :: Works(w, ctx, at) == Works(w2, ctx, at);
    }
    if prepared && planned && AllWork(w2, ctx, w2.calls, w2.calls + 5) {
      OkOfEight(w, ctx);
    }
  }

  lemma OkOfEight(w: World, ctx: Context)
    requires AllWork(w, ctx, w.calls + 2, w.calls + 7) && w.oracle(w.calls).ok && w.oracle(w.calls + 1).ok
    ensures AllOk(w, w.calls, w.calls + 8) <==> w.oracle(w.calls + 7).ok
  {
    forall at: nat | w.calls <= at < w.calls + 7 ensures w.oracle(at).ok {
      assert at >= w.calls + 2 ==> Works(w, ctx, at);
    }
  }

  // -------------------------------------------------------------- rollback

  /** What a rollback needs of the world. */
  ghost predicate RollbackGoes(w: World) {
    && AllOk(w, w.calls, w.calls + 17)
    && AllWork(w, RecoveryContext(w), w.calls + 9, w.calls + 14)
    && Parsed(w, w.calls + 13)
  }

  lemma PutBackSucceeds(w: World, ctx: Context, target: nat, result: RestoreResult)
    requires target < |w.dumps| && !result.rollback.RollbackSucceeded?
    ensures var (r, _) := PutBack(w, ctx, target, result);
            r.rollback.RollbackSucceeded? <==>
              ReplacementGoes(w, ctx) && w.oracle(w.calls + 8).ok && w.oracle(w.calls + 9).ok
  {
    hide Watched, DropsArmed, Armed, Advance, Grows, Replace, ReplacementGoes, DatabaseValid;
    ReplaceSucceeds(w, ctx, target);
  }

  /** The answers of seven calls, then those of a replacement, then two more. */
  lemma SplitAnswers(w: World, w1: World, ctx: Context, before: nat, after: nat)
    requires w1.oracle == w.oracle && w1.calls == w.calls + before
    ensures (&& AllOk(w, w.calls, w.calls + before + 8 + after)
             && AllWork(w, ctx, w.calls + before + 2, w.calls + before + 7) && Parsed(w, w.calls + before + BEFORE_VALIDATION))
            <==> (&& AllOk(w, w.calls, w.calls + before) && ReplacementGoes(w1, ctx)
                  && AllOk(w, w.calls + before + 8, w.calls + before + 8 + after))
  {
    hide Parsed;
    SameParsed(w, w1, before + BEFORE_VALIDATION);
    assert forall at: nat :: Works(w, ctx, at) == Works(w1, ctx, at);
    if AllOk(w, w.calls, w.calls + before) && AllOk(w1, w1.calls, w1.calls + 8)
       && AllOk(w, w.calls + before + 8, w.calls + before + 8 + after) {
      forall at: nat | w.calls <= at < w.calls + before + 8 + after ensures w.oracle(at).ok {
        assert w1.calls <= at < w1.calls + 8 ==> w1.oracle(at).ok;
      }
    }
  }

  lemma ProofSucceeds(w: World)
    ensures var (proven, w') := ProvePostgres(w);
            && (proven <==> w.oracle(w.calls).ok && w.oracle(w.calls + 1).ok)
            && (proven ==> w'.oracle == w.oracle && w'.calls == w.calls + 2)
            && w'.dumps == w.dumps
  {
    hide Watched, DropsArmed, Armed, Advance, Grows;
  }

  /** A backend whose stop reported success is always probed stopped. */
  lemma StopSucceeds(w: World)
    ensures var (stopOk, w1) := StopBackend(w);
            var (stopped, w2) := Probe(w1);
            && (stopOk && stopped <==> w.oracle(w.calls).ok && w.oracle(w.calls + 1).ok)
            && w2.oracle == w.oracle && w2.calls == w.calls + 2 && w2.dumps == w.dumps
  {
    hide Watched, DropsArmed, Armed, Advance, Grows;
  }

  lemma AskSucceeds(w: World, what: Question)
    ensures var (ok, w') := Ask(w, what);
            && (ok <==> w.oracle(w.calls).ok) && w'.oracle == w.oracle && w'.calls == w.calls + 1 && w'.dumps == w.dumps
            && w'.running == w.running
  {
    hide Watched, DropsArmed, Armed, Advance, Grows;
  }

  lemma StoppedSucceeds(w: World, ctx: Context, target: nat, result: RestoreResult)
    requires target < |w.dumps| && !result.rollback.RollbackSucceeded?
    ensures var mid := w.(calls := w.calls + 3);
            RollbackStopped(w, ctx, target, result).0.rollback.RollbackSucceeded? <==>
              && w.oracle(w.calls).ok && w.oracle(w.calls + 1).ok && w.oracle(w.calls + 2).ok
              && ReplacementGoes(mid, ctx) && w.oracle(w.calls + 11).ok && w.oracle(w.calls + 12).ok
  {
    hide ProvePostgres, Ask, PutBack, ReplacementGoes;
    AskSucceeds(w, Revalidated(target));
    var (valid, w1) := Ask(w, Revalidated(target));
    if valid {
      ProofSucceeds(w1);
      var (proven, w2) := ProvePostgres(w1);
      if proven {
        PutBackSucceeds(w2, ctx, target, result);
        SameReplacement(w.(calls := w.calls + 3), w2, ctx);
      }
    }
  }

  lemma SameReplacement(w: World, w1: World, ctx: Context)
    requires w1.oracle == w.oracle && w1.calls == w.calls
    ensures ReplacementGoes(w, ctx) <==> ReplacementGoes(w1, ctx)
  {
    assert forall at: nat :: Works(w, ctx, at) == Works(w1, ctx, at);
  }

  /** A rollback succeeds exactly when all its seventeen calls are answered with
      success, its commands work within its own context, and the validation is
      accepted. */
  lemma RollbackSucceedsExactly(w: World, target: nat, before: RestoreResult, stage: Stage, code: Code)
    requires target < |w.dumps| && !before.rollback.RollbackSucceeded?
    ensures Rollback(w, target, before, stage, code).0.rollback.RollbackSucceeded? <==> RollbackGoes(w)
  {
    hide ProvePostgres, StopBackend, Probe, RollbackStopped, ReplacementGoes, Parsed, RecoveryContext, AllOk, AllWork;
    var ctx := RecoveryContext(w);
    var result := before.(outcome := PartialCutover, failedStage := stage, code := code);
    ProofSucceeds(w);
    var (proven, w1) := ProvePostgres(w);
    AnswersOf(w);
    if proven {
      StopSucceeds(w1);
      var (stopOk, w2) := StopBackend(w1);
      var (stopped, w3) := Probe(w2);
      if stopOk && stopped {
        StoppedSucceeds(w3, ctx, target, result);
        SplitAnswers(w, w3.(calls := w3.calls + 3), ctx, 7, 2);
      }
    }
  }

  lemma AnswersOf(w: World)
    ensures AllOk(w, w.calls, w.calls + 17) ==> AllOk(w, w.calls, w.calls + 7)
    ensures AllOk(w, w.calls, w.calls + 7) <==>
            && w.oracle(w.calls).ok && w.oracle(w.calls + 1).ok && w.oracle(w.calls + 2).ok && w.oracle(w.calls + 3).ok
            && w.oracle(w.calls + 4).ok && w.oracle(w.calls + 5).ok && w.oracle(w.calls + 6).ok
    ensures AllOk(w, w.calls + 15, w.calls + 17) <==> w.oracle(w.calls + 15).ok && w.oracle(w.calls + 16).ok
  {
  }

  // ------------------------------------------------------------- whole runs

  /** What a restore needs of the world. */
  ghost predicate RestoreGoes(w: World, ctx: Context) {
    && AllOk(w, w.calls, w.calls + 19) && w.oracle(w.calls + 7).marked
    && AllWork(w, ctx, w.calls + 10, w.calls + 15)
    && Parsed(w, w.calls + 14)
  }

  lemma RollbackIsPartial(w: World, target: nat, before: RestoreResult, stage: Stage, code: Code)
    requires target < |w.dumps|
    ensures Rollback(w, target, before, stage, code).0.outcome.PartialCutover?
  {
    hide Rollback, Passed, RollbackPlan, Parsed, RollbackHasCause, RecoveryContext, Done;
    RollbackExactly(w, target, before, stage, code);
  }

  lemma FinishSucceeds(w: World, target: nat, result: RestoreResult)
    requires target < |w.dumps|
    ensures Finish(w, target, result).0.outcome.RestoreSucceeded? <==>
              w.oracle(w.calls).ok && w.oracle(w.calls + 1).ok && w.oracle(w.calls + 2).ok
  {
    hide Ask, StartBackend, Rollback;
    AskSucceeds(w, IdentityProven);
    var (_, w1) := Ask(w, IdentityProven);
    StartOk(w1);
    var (_, w2) := StartBackend(w1);
    AskSucceeds(w2, Healthy);
    var (_, w3) := Ask(w2, Healthy);
    RollbackIsPartial(w1, target, result, StageRestoreValidation, PostgresIdentity);
    RollbackIsPartial(w2, target, result, StageBackendStart, BackendStartFailed);
    RollbackIsPartial(w3, target, result, StageBackendHealth, BackendHealthFailed);
  }

  lemma CutoverSucceeds(w: World, ctx: Context, legacy: nat, target: nat, before: RestoreResult)
    requires legacy < |w.dumps| && target < |w.dumps|
    ensures Cutover(w, ctx, legacy, target, before).0.outcome.RestoreSucceeded? <==>
              ReplacementGoes(w, ctx) && w.oracle(w.calls + 8).ok && w.oracle(w.calls + 9).ok && w.oracle(w.calls + 10).ok
  {
    hide Replace, ReplacementGoes, DatabaseValid, Finish, Rollback, BringUp, Done;
    ReplaceSucceeds(w, ctx, legacy);
    var (replaced, w1) := Replace(w, ctx, legacy);
    var result := before.(database := replaced.evidence, mutated := replaced.mutated);
    FinishSucceeds(w1, target, result);
    RollbackIsPartial(w1, target, result, StageTargetReplacement, PrimaryFailed);
  }

  lemma DumpSucceeds(w: World)
    ensures var (target, w') := DumpTarget(w);
            && (target.Some? <==> w.oracle(w.calls).ok && w.oracle(w.calls).marked)
            && w'.oracle == w.oracle && w'.calls == w.calls + 1 && w.dumps <= w'.dumps
  {
    hide Watched, DropsArmed, Armed, Advance, Grows;
  }

  lemma SecureSucceeds(w: World, ctx: Context, legacy: nat)
    requires legacy < |w.dumps|
    ensures var mid := w.(calls := w.calls + 5);
            Secure(w, ctx, legacy).0.outcome.RestoreSucceeded? <==>
              && w.oracle(w.calls).ok && w.oracle(w.calls + 1).ok && w.oracle(w.calls + 2).ok && w.oracle(w.calls + 3).ok
              && w.oracle(w.calls + 4).ok && w.oracle(w.calls + 4).marked
              && ReplacementGoes(mid, ctx)
              && w.oracle(w.calls + 13).ok && w.oracle(w.calls + 14).ok && w.oracle(w.calls + 15).ok
  {
    hide ProvePostgres, Ask, DumpTarget, Cutover, ReplacementGoes, BringUp, Done;
    AskSucceeds(w, Configured);
    var (configured, w1) := Ask(w, Configured);
    if configured {
      AskSucceeds(w1, Revalidated(legacy));
      var (valid, w2) := Ask(w1, Revalidated(legacy));
      if valid {
        ProofSucceeds(w2);
        var (proven, w3) := ProvePostgres(w2);
        if proven {
          DumpSucceeds(w3);
          var (target, w4) := DumpTarget(w3);
          if target.Some? {
            CutoverSucceeds(w4, ctx, legacy, target.value, INITIAL.(legacyValidated := true, targetBackup := target));
            SameReplacement(w.(calls := w.calls + 5), w4, ctx);
          }
        }
      }
    }
  }

  /** A restore succeeds exactly when the platform is supported, everything is wired,
      all nineteen calls are answered with success, the target dump is marked valid,
      the five commands of the replacement work before the caller's context ends, and
      what the validation prints is accepted. */
  lemma SucceedsExactly(w: World, ctx: Context, request: Request)
    requires request.legacy < |w.dumps|
    ensures Run(w, ctx, request).0.outcome.RestoreSucceeded? <==>
              Supported(request) && request.wired && RestoreGoes(w, ctx)
  {
    hide Run, Secure, ReplacementGoes, AllOk, AllWork, Parsed, Supported;
    AnswersOfRun(w);
    var w3 := RunReaches(w, ctx, request);
    if Supported(request) && request.wired && w.oracle(w.calls).ok && w.oracle(w.calls + 1).ok && w.oracle(w.calls + 2).ok {
      SecureSucceeds(w3, ctx, request.legacy);
      SplitAnswers(w, w3.(calls := w3.calls + 5), ctx, 8, 3);
    }
  }

  /** A run reaches the stopped backend with its first three calls. */
  lemma RunReaches(w: World, ctx: Context, request: Request) returns (w3: World)
    requires request.legacy < |w.dumps|
    ensures w3.oracle == w.oracle && w3.calls == w.calls + 3 && w3.dumps == w.dumps
    ensures if Supported(request) && request.wired && w.oracle(w.calls).ok && w.oracle(w.calls + 1).ok && w.oracle(w.calls + 2).ok
            then Run(w, ctx, request) == Secure(w3, ctx, request.legacy)
            else !Run(w, ctx, request).0.outcome.RestoreSucceeded?
  {
    hide Ask, StopBackend, Secure, Supported, Done;
    AskSucceeds(w, Waited);
    var (_, w1) := Ask(w, Waited);
    AskSucceeds(w1, IdentityProven);
    var (_, w2) := Ask(w1, IdentityProven);
    StopOk(w2);
    w3 := StopBackend(w2).1;
  }

  lemma StartOk(w: World)
    ensures var (ok, w') := StartBackend(w);
            && (ok <==> w.oracle(w.calls).ok) && w'.oracle == w.oracle && w'.calls == w.calls + 1 && w'.dumps == w.dumps
  {
    hide Watched, DropsArmed, Armed, Advance, Grows;
  }

  /** A world that answers everything with success: the database ends with the legacy
      data and later writes alone. */
  lemma SmoothWorldSucceeds()
    ensures var (r, w') := Run(StartWorld(19), None, Request("linux", "amd64", true, 0));
            && r.outcome.RestoreSucceeded? && r.code == Succeeded && r.backendHealthy
            && Grows(Rows([8]), w'.db)
  {
    hide Run, Clipped, Joined, ParseEvidence, Printed, Watched, EndsHealthy, Passed, StoppedAt, RestorePlan;
    var w, request := StartWorld(19), Request("linux", "amd64", true, 0);
    PrintedOne();
    ValidationRoundTrip(1);
    assert Parsed(w, 14);
    SucceedsExactly(w, None, request);
    OutcomeDeterminesData(w, None, request);
    HealthyExactly(w, None, request);
    RunExactly(w, None, request);
  }

  lemma StopOk(w: World)
    ensures var (ok, w') := StopBackend(w);
            && (ok <==> w.oracle(w.calls).ok) && w'.oracle == w.oracle && w'.calls == w.calls + 1 && w'.dumps == w.dumps
  {
    hide Watched, DropsArmed, Armed, Advance, Grows;
  }

  lemma AnswersOfRun(w: World)
    ensures AllOk(w, w.calls, w.calls + 8) <==>
            && w.oracle(w.calls).ok && w.oracle(w.calls + 1).ok && w.oracle(w.calls + 2).ok && w.oracle(w.calls + 3).ok
            && w.oracle(w.calls + 4).ok && w.oracle(w.calls + 5).ok && w.oracle(w.calls + 6).ok && w.oracle(w.calls + 7).ok
    ensures AllOk(w, w.calls, w.calls + 19) ==> AllOk(w, w.calls, w.calls + 8)
    ensures AllOk(w, w.calls + 16, w.calls + 19) <==>
            w.oracle(w.calls + 16).ok && w.oracle(w.calls + 17).ok && w.oracle(w.calls + 18).ok
  {
  }
}
