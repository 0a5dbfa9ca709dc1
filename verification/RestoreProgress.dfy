/** How far a restore gets (internal/migration/restore.go, restore_process.go): the
    calls of a run that succeeds, in order, and what the first one that is not made
    with success decides. Stated over the trace of outside calls alone. */
module RestoreProgress {
  import opened Basics
  import opened RestoreWorld
  import opened Replacement
  import opened Restore

  /** The calls of a replacement that succeeds. */
  function ReplacementPlan(source: nat): (plan: seq<Event>)
    ensures |plan| == 8
  {
    [Asked(CredentialPrepared, true), Asked(PlanBuilt, true),
     Ran(TerminateSessions, source, true), Ran(DropDatabase, source, true), Ran(CreateDatabase, source, true),
     Ran(RestoreArchive, source, true), Ran(Validate, source, true), Asked(CredentialCleaned, true)]
  }

  const BEFORE_VALIDATION: nat := 6

  /** The calls of a restore that succeeds. */
  function RestorePlan(legacy: nat): (plan: seq<Event>)
    ensures |plan| == 19
  {
    [Asked(Waited, true), Asked(IdentityProven, true), Stop(true), Asked(Configured, true),
     Asked(Revalidated(legacy), true), Asked(IdentityProven, true), Asked(Reached, true), Dumped(true)]
    + ReplacementPlan(legacy)
    + [Asked(IdentityProven, true), Start(true), Asked(Healthy, true)]
  }

  /** The calls of a rollback that succeeds. */
  function RollbackPlan(target: nat): (plan: seq<Event>)
    ensures |plan| == 17
  {
    [Asked(IdentityProven, true), Asked(Reached, true), Stop(true), Probed(true),
     Asked(Revalidated(target), true), Asked(IdentityProven, true), Asked(Reached, true)]
    + ReplacementPlan(target)
    + [Start(true), Asked(Healthy, true)]
  }

  const RECOVERY_PLAN: seq<Event> := [Start(true), Asked(Healthy, true)]

  /** How many calls of a plan a trace begins with. */
  function Passed(trace: seq<Event>, plan: seq<Event>): (n: nat)
    ensures n <= |plan| && n <= |trace|
  {
    if trace == [] || plan == [] || trace[0] != plan[0] then 0 else 1 + Passed(trace[1..], plan[1..])
  }

  /** The same call, answered with failure. */
  function Denied(e: Event): Event {
    match e
    case Asked(what, _) => Asked(what, false)
    case Stop(_) => Stop(false)
    case Start(_) => Start(false)
    case Probed(_) => Probed(false)
    case Dumped(_) => Dumped(false)
    case Ran(step, source, _) => Ran(step, source, false)
  }

  function Added(w: World, w': World): seq<Event>
    requires w.trace <= w'.trace
  {
    w'.trace[|w.trace|..]
  }

  /** The validation at call `at` printed what is accepted. */
  predicate Parsed(w: World, at: nat) {
    ParseEvidence(Clipped(Joined(w.oracle(at).output))).Some?
  }

  /** The trace goes through the first `n` calls of the plan. */
  ghost predicate Follows(w0: World, w: World, plan: seq<Event>, n: nat) {
    n <= |plan| && w.trace == w0.trace + plan[..n] && w.calls == w0.calls + n && w.oracle == w0.oracle
  }

  /** It stops there: the next call was denied, or was a command of the replacement
      that was not submitted because the context had ended. */
  ghost predicate StoppedAt(w0: World, w': World, plan: seq<Event>, n: nat, ctx: Context) {
    && n < |plan| && w0.trace <= w'.trace && Passed(Added(w0, w'), plan) == n
    && |Added(w0, w')| > n
    && (|| Added(w0, w')[n] == Denied(plan[n])
        || (plan[n].Ran? && ctx.Some? && w0.calls + n >= ctx.value))
  }

  ghost predicate StopsSomewhere(w0: World, w': World, plan: seq<Event>, ctx: Context) {
    exists n: nat :: StoppedAt(w0, w', plan, n, ctx)
  }

  lemma {:induction false} PassedIs(trace: seq<Event>, plan: seq<Event>, n: nat)
    requires n <= |plan| && n <= |trace| && trace[..n] == plan[..n]
    requires n < |plan| && n < |trace| ==> trace[n] != plan[n]
    requires n == |plan| || n < |trace|
    ensures Passed(trace, plan) == n
    decreases n
  {
    if n > 0 {
      assert trace[..n][0] == plan[..n][0];
      assert trace[1..][..n - 1] == trace[..n][1..] && plan[1..][..n - 1] == plan[..n][1..];
      PassedIs(trace[1..], plan[1..], n - 1);
    }
  }

  lemma FollowsOn(w0: World, w: World, w1: World, plan: seq<Event>, n: nat)
    requires Follows(w0, w, plan, n) && n < |plan|
    requires w1.trace == w.trace + [plan[n]] && w1.calls == w.calls + 1 && w1.oracle == w.oracle
    ensures Follows(w0, w1, plan, n + 1)
  {
    assert plan[..n + 1] == plan[..n] + [plan[n]];
  }

  lemma StopsHere(w0: World, w: World, w1: World, w': World, plan: seq<Event>, n: nat, ctx: Context, e: Event)
    requires Follows(w0, w, plan, n) && n < |plan| && w1.trace == w.trace + [e] && w1.trace <= w'.trace && e != plan[n]
    requires e == Denied(plan[n]) || (plan[n].Ran? && ctx.Some? && w.calls >= ctx.value)
    ensures StoppedAt(w0, w', plan, n, ctx)
  {
    assert w0.trace <= w'.trace;
    var added := Added(w0, w');
    assert added[..n] == plan[..n] && added[n] == e;
    PassedIs(added, plan, n);
  }

  lemma StopsEarlier(w0: World, w1: World, w': World, plan: seq<Event>, n: nat, ctx: Context)
    requires StoppedAt(w0, w1, plan, n, ctx) && w1.trace <= w'.trace
    ensures StoppedAt(w0, w', plan, n, ctx)
  {
    var added, more := Added(w0, w1), Added(w0, w');
    assert added <= more;
    PassedPrefix(added, more, plan);
  }

  lemma {:induction false} PassedPrefix(trace: seq<Event>, more: seq<Event>, plan: seq<Event>)
    requires trace <= more && Passed(trace, plan) < |trace|
    ensures Passed(more, plan) == Passed(trace, plan)
    decreases |trace|
  {
    if trace != [] && plan != [] && trace[0] == plan[0] {
      PassedPrefix(trace[1..], more[1..], plan[1..]);
    }
  }

  /** A plan followed to its end. */
  lemma FollowsAll(w0: World, w: World, w': World, plan: seq<Event>)
    requires Follows(w0, w, plan, |plan|) && w.trace <= w'.trace
    ensures w0.trace <= w'.trace && Passed(Added(w0, w'), plan) == |plan|
  {
    assert plan[..|plan|] == plan;
    PassedIs(Added(w0, w'), plan, |plan|);
  }

  // ----------------------------------------------------------- replacement

  /** The steps from `i` on: they all succeed, or stop at one that was denied or not
      submitted; the credential is cleaned next. */
  lemma {:induction false} StepsProgress(w0: World, w: World, ctx: Context, source: nat, i: nat, mutated: bool, output: string)
    requires source < |w.dumps| && i <= |STEPS| && Follows(w0, w, ReplacementPlan(source), 2 + i)
    requires i == |STEPS| ==> output == Clipped(Joined(w0.oracle(w0.calls + BEFORE_VALIDATION).output))
    ensures var (r, w1) := RunSteps(w, ctx, source, i, mutated, output);
            var w2 := Ask(w1, CredentialCleaned).1;
            if r.process.ProcessSucceeded? then
              && Follows(w0, w1, ReplacementPlan(source), 7)
              && r.output == Clipped(Joined(w0.oracle(w0.calls + BEFORE_VALIDATION).output))
            else StopsSomewhere(w0, w2, ReplacementPlan(source), ctx)
    decreases |STEPS| - i
  {
    hide Clipped, Joined, Follows, StopsSomewhere, ReplacementPlan, RunSteps, RunStep, Ask, Done;
    if i == |STEPS| {
      StepsEnd(w, ctx, source, mutated, output);
    } else {
      StepsNext(w, ctx, source, i, mutated, output);
      StepProgress(w0, w, ctx, source, i);
      StepPlanned(source, i);
      if !Done(ctx, w) {
        var (ok, next) := RunStep(w, STEPS[i], source);
        if ok {
          var out := if STEPS[i].Validate? then Clipped(Joined(w.oracle(w.calls).output)) else output;
          StepsProgress(w0, next, ctx, source, i + 1, mutated || STEPS[i].DropDatabase?, out);
        }
      }
    }
  }

  lemma StepsEnd(w: World, ctx: Context, source: nat, mutated: bool, output: string)
    requires source < |w.dumps|
    ensures RunSteps(w, ctx, source, |STEPS|, mutated, output) == (Outcome(ProcessSucceeded, TerminateSessions, mutated, output), w)
  {
  }

  lemma StepsNext(w: World, ctx: Context, source: nat, i: nat, mutated: bool, output: string)
    requires source < |w.dumps| && i < |STEPS|
    ensures var (r, w') := RunSteps(w, ctx, source, i, mutated, output);
            var (ok, next) := RunStep(w, STEPS[i], source);
            && next.dumps == w.dumps
            && (Done(ctx, w) ==> !r.process.ProcessSucceeded? && w' == w)
            && (!Done(ctx, w) && !ok ==> !r.process.ProcessSucceeded? && w' == next)
            && (!Done(ctx, w) && ok ==>
                  (r, w') == RunSteps(next, ctx, source, i + 1, mutated || STEPS[i].DropDatabase?,
                                      if STEPS[i].Validate? then Clipped(Joined(w.oracle(w.calls).output)) else output))
  {
    hide Clipped, Joined, Called, StepEffect, Done, Watched, DropsArmed, Grows, Advance, Armed;
  }

  /** One step: it is not submitted, is denied, or leads on. */
  lemma StepProgress(w0: World, w: World, ctx: Context, source: nat, i: nat)
    requires source < |w.dumps| && i < |STEPS| && Follows(w0, w, ReplacementPlan(source), 2 + i)
    ensures var plan := ReplacementPlan(source);
            var (ok, next) := RunStep(w, STEPS[i], source);
            && (Done(ctx, w) ==> StopsSomewhere(w0, Ask(w, CredentialCleaned).1, plan, ctx))
            && (!Done(ctx, w) && !ok ==> StopsSomewhere(w0, Ask(next, CredentialCleaned).1, plan, ctx))
            && (ok ==> Follows(w0, next, plan, 3 + i))
            && (w.oracle(w.calls).panics ==> !ok)
            && next.dumps == w.dumps && w.calls == w0.calls + 2 + i && w.oracle == w0.oracle
  {
    hide Watched, DropsArmed, StepEffect, Follows, StoppedAt, ReplacementPlan, Armed, Advance, Grows;
    var plan, step := ReplacementPlan(source), STEPS[i];
    StepPlanned(source, i);
    FollowsCalls(w0, w, plan, 2 + i);
    var (ok, next) := RunStep(w, step, source);
    if Done(ctx, w) {
      var (cleaned, w') := Ask(w, CredentialCleaned);
      StopsHere(w0, w, w', w', plan, 2 + i, ctx, Asked(CredentialCleaned, cleaned));
    } else if !ok {
      StopsHere(w0, w, next, Ask(next, CredentialCleaned).1, plan, 2 + i, ctx, Ran(step, source, false));
    }
    if ok {
      FollowsOn(w0, w, next, plan, 2 + i);
    }
  }

  lemma StepPlanned(source: nat, i: nat)
    requires i < |STEPS|
    ensures ReplacementPlan(source)[2 + i] == Ran(STEPS[i], source, true)
    ensures STEPS[i].Validate? <==> i == 4
  {
  }

  lemma FollowsCalls(w0: World, w: World, plan: seq<Event>, n: nat)
    requires Follows(w0, w, plan, n)
    ensures w.calls == w0.calls + n && w.oracle == w0.oracle && n <= |plan|
  {
  }

  /** A replacement succeeds exactly when it goes through its whole plan and the
      validation is accepted; otherwise it has its place to stop, or a plan gone
      through with a validation that is not accepted. */
  lemma ReplaceProgress(w: World, ctx: Context, source: nat)
    requires source < |w.dumps|
    ensures var (r, w') := Replace(w, ctx, source);
            var plan, parsed := ReplacementPlan(source), Parsed(w, w.calls + BEFORE_VALIDATION);
            && w.trace <= w'.trace
            && (r.ok ==> Follows(w, w', plan, 8) && parsed)
            && (!r.ok ==> (Follows(w, w', plan, 8) && !parsed) || StopsSomewhere(w, w', plan, ctx))
  {
    hide Watched, DropsArmed, Clipped, Joined, Follows, StoppedAt, ReplacementPlan, RunSteps, ParseEvidence, Armed, Advance;
    var plan := ReplacementPlan(source);
    PlanEnds(w, source);
    var (prepared, w1) := Ask(w, CredentialPrepared);
    if !prepared {
      StopsHere(w, w, w1, w1, plan, 0, ctx, Asked(CredentialPrepared, false));
    } else {
      FollowsOn(w, w, w1, plan, 0);
      var (planned, w2) := Ask(w1, PlanBuilt);
      if !planned {
        StopsHere(w, w1, w2, Ask(w2, CredentialCleaned).1, plan, 1, ctx, Asked(PlanBuilt, false));
      } else {
        FollowsOn(w, w1, w2, plan, 1);
        StepsProgress(w, w2, ctx, source, 0, false, "");
        var (result, w3) := RunSteps(w2, ctx, source, 0, false, "");
        var (cleaned, w4) := Ask(w3, CredentialCleaned);
        if result.process.ProcessSucceeded? {
          FollowsCalls(w, w3, plan, 7);
          TraceOf(w, w3, plan, 7);
          if cleaned {
            FollowsOn(w, w3, w4, plan, 7);
          } else {
            StopsHere(w, w3, w4, w4, plan, 7, ctx, Asked(CredentialCleaned, false));
          }
        } else {
          var n: nat :| StoppedAt(w, w4, plan, n, ctx);
          StoppedGrows(w, w4, plan, n, ctx);
        }
      }
    }
  }

  lemma PlanEnds(w: World, source: nat)
    ensures var plan := ReplacementPlan(source);
            && plan[0] == Asked(CredentialPrepared, true) && plan[1] == Asked(PlanBuilt, true)
            && plan[7] == Asked(CredentialCleaned, true) && Follows(w, w, plan, 0)
  {
  }

  lemma TraceOf(w0: World, w: World, plan: seq<Event>, n: nat)
    requires Follows(w0, w, plan, n)
    ensures w0.trace <= w.trace
  {
  }

  lemma StoppedGrows(w0: World, w': World, plan: seq<Event>, n: nat, ctx: Context)
    requires StoppedAt(w0, w', plan, n, ctx)
    ensures w0.trace <= w'.trace && n < |plan|
  {
  }

  /** A replacement inside a longer plan, from position `at` on. */
  lemma FollowsInside(w0: World, w: World, w': World, plan: seq<Event>, at: nat, source: nat, n: nat)
    requires Follows(w0, w, plan, at) && at + 8 <= |plan| && plan[at..at + 8] == ReplacementPlan(source)
    requires Follows(w, w', ReplacementPlan(source), n)
    ensures Follows(w0, w', plan, at + n)
  {
    assert plan[..at + n] == plan[..at] + plan[at..at + 8][..n];
  }

  lemma StopsInside(w0: World, w: World, w': World, plan: seq<Event>, at: nat, source: nat, n: nat, ctx: Context)
    requires Follows(w0, w, plan, at) && at + 8 <= |plan| && plan[at..at + 8] == ReplacementPlan(source)
    requires StoppedAt(w, w', ReplacementPlan(source), n, ctx)
    ensures StoppedAt(w0, w', plan, at + n, ctx)
  {
    hide ReplacementPlan, Denied, Passed, StoppedAt;
    var inner := StoppedInner(w, w', source, n, ctx);
    var added := Added(w0, w');
    assert added == plan[..at] + inner;
    InsideSlices(plan, at, inner, n);
    PassedIs(added, plan, at + n);
    StoppedIs(w0, w', plan, at + n, ctx);
  }

  lemma InsideSlices(plan: seq<Event>, at: nat, inner: seq<Event>, n: nat)
    requires at + 8 <= |plan| && n < 8 && n < |inner| && inner[..n] == plan[at..at + 8][..n]
    ensures plan[at + n] == plan[at..at + 8][n]
    ensures (plan[..at] + inner)[at + n] == inner[n] && (plan[..at] + inner)[..at + n] == plan[..at + n]
  {
    assert plan[..at + n] == plan[..at] + plan[at..at + 8][..n];
    assert (plan[..at] + inner)[..at + n] == plan[..at] + inner[..n];
  }

  lemma StoppedInner(w: World, w': World, source: nat, n: nat, ctx: Context) returns (inner: seq<Event>)
    requires StoppedAt(w, w', ReplacementPlan(source), n, ctx)
    ensures var plan := ReplacementPlan(source);
            && n < 8 && w.trace <= w'.trace && inner == Added(w, w') && n < |inner|
            && inner[..n] == plan[..n] && inner[n] != plan[n]
            && (inner[n] == Denied(plan[n]) || (plan[n].Ran? && ctx.Some? && w.calls + n >= ctx.value))
  {
    hide Denied, Passed, ReplacementPlan;
    inner := Added(w, w');
    PassedMeans(inner, ReplacementPlan(source));
  }

  lemma StoppedIs(w0: World, w': World, plan: seq<Event>, n: nat, ctx: Context)
    requires w0.trace <= w'.trace && n < |plan| && Passed(Added(w0, w'), plan) == n && n < |Added(w0, w')|
    requires Added(w0, w')[n] == Denied(plan[n]) || (plan[n].Ran? && ctx.Some? && w0.calls + n >= ctx.value)
    ensures StoppedAt(w0, w', plan, n, ctx)
  {
    hide Denied, Passed;
  }

  lemma {:induction false} PassedMeans(trace: seq<Event>, plan: seq<Event>)
    ensures var n := Passed(trace, plan);
            trace[..n] == plan[..n] && (n < |trace| && n < |plan| ==> trace[n] != plan[n])
    decreases |trace|
  {
    if trace != [] && plan != [] && trace[0] == plan[0] {
      PassedMeans(trace[1..], plan[1..]);
      var n := Passed(trace[1..], plan[1..]);
      assert trace[..n + 1] == [trace[0]] + trace[1..][..n] && plan[..n + 1] == [plan[0]] + plan[1..][..n];
    }
  }

  // -------------------------------------------------------------- rollback

  function RollbackCodeAt(n: nat, parsed: bool): Code {
    if n >= 15 && !parsed then RollbackReplaceFailed
    else if n < 2 || n == 5 || n == 6 then RollbackPostgres
    else if n < 4 then RollbackStop
    else if n == 4 then RollbackRevalidate
    else if n < 15 then RollbackReplaceFailed
    else RollbackRecovery
  }

  /** The probe after the stop did not see the backend stopped. */
  predicate ProbeDenied(added: seq<Event>, n: nat) {
    n == 3 || (n == 2 && |added| > 3 && added[3] == Probed(false))
  }

  predicate RollbackTells(w: World, target: nat, stage: Stage, code: Code, r: RestoreResult, w': World)
    requires w.trace <= w'.trace
  {
    var n, parsed := Passed(Added(w, w'), RollbackPlan(target)), Parsed(w, w.calls + 13);
    var succeeded := r.rollback.RollbackSucceeded?;
    && r.outcome.PartialCutover? && r.failedStage == stage
    && (succeeded <==> n == 17 && parsed)
    && r.code == (if succeeded then code else RollbackCodeAt(n, parsed))
    && !r.rollback.NotRequired?
    && (r.rollback.RollbackCancelled? <==> !succeeded && Done(RecoveryContext(w), w') && !ProbeDenied(Added(w, w'), n))
  }

  /** It gave up at a place of its plan, or with a validation that is not accepted. */
  ghost predicate RollbackHasCause(w: World, target: nat, w': World) {
    var plan := RollbackPlan(target);
    || StopsSomewhere(w, w', plan, RecoveryContext(w))
    || (w.trace <= w'.trace && Passed(Added(w, w'), plan) >= 15 && !Parsed(w, w.calls + 13))
  }

  ghost predicate RollbackExplained(w: World, target: nat, stage: Stage, code: Code, r: RestoreResult, w': World) {
    && w.trace <= w'.trace && RollbackTells(w, target, stage, code, r, w')
    && (!r.rollback.RollbackSucceeded? ==> RollbackHasCause(w, target, w'))
  }

  lemma RollbackPlanIs(w: World, target: nat)
    ensures var plan := RollbackPlan(target);
            && plan[0] == plan[5] == Asked(IdentityProven, true) && plan[1] == plan[6] == Asked(Reached, true)
            && plan[2] == Stop(true) && plan[3] == Probed(true) && plan[4] == Asked(Revalidated(target), true)
            && plan[7..15] == ReplacementPlan(target) && plan[15] == Start(true) && plan[16] == Asked(Healthy, true)
            && Follows(w, w, plan, 0)
  {
  }

  /** A rollback that stopped at place `n` of its plan. */
  lemma RollbackStopsAt(w: World, target: nat, stage: Stage, code: Code, r: RestoreResult, w': World, n: nat)
    requires StoppedAt(w, w', RollbackPlan(target), n, RecoveryContext(w))
    requires r.outcome.PartialCutover? && r.failedStage == stage && (n >= 15 ==> Parsed(w, w.calls + 13))
    requires r.code == RollbackCodeAt(n, n >= 15)
    requires r.rollback == if Done(RecoveryContext(w), w') && !ProbeDenied(Added(w, w'), n) then RollbackCancelled else RollbackFailed
    ensures RollbackExplained(w, target, stage, code, r, w')
  {
    hide Parsed, RollbackPlan;
  }

  /** The call at place `n` of the plan was denied. */
  lemma RollbackDeniedAt(w0: World, w: World, w1: World, target: nat, stage: Stage, code: Code, r: RestoreResult, w': World, n: nat)
    requires n < 17 && n != 2 && n != 3 && Follows(w0, w, RollbackPlan(target), n) && (n >= 15 ==> Parsed(w0, w0.calls + 13))
    requires w1.trace == w.trace + [Denied(RollbackPlan(target)[n])] && w1.trace <= w'.trace
    requires r.outcome.PartialCutover? && r.failedStage == stage && r.code == RollbackCodeAt(n, n >= 15)
    requires r.rollback == StatusOf(Done(RecoveryContext(w0), w'))
    ensures RollbackExplained(w0, target, stage, code, r, w')
  {
    hide Follows, StoppedAt, Parsed, RollbackExplained, RecoveryContext, Done, RollbackCodeAt;
    var plan, ctx := RollbackPlan(target), RecoveryContext(w0);
    StopsHere(w0, w, w1, w', plan, n, ctx, Denied(plan[n]));
    StoppedGrows(w0, w', plan, n, ctx);
    NotProbing(Added(w0, w'), n);
    RollbackStopsAt(w0, target, stage, code, r, w', n);
  }

  lemma NotProbing(added: seq<Event>, n: nat)
    requires n != 2 && n != 3
    ensures !ProbeDenied(added, n)
  {
  }

  lemma PutBackProgress(w0: World, w: World, ctx: Context, target: nat, result: RestoreResult)
    requires target < |w.dumps| && ctx == RecoveryContext(w0) && Follows(w0, w, RollbackPlan(target), 7)
    requires result.outcome.PartialCutover?
    ensures var (r, w') := PutBack(w, ctx, target, result);
            RollbackExplained(w0, target, result.failedStage, result.code, r, w')
  {
    hide Watched, DropsArmed, Follows, StoppedAt, RollbackPlan, Replace, Parsed, Armed, Advance, RollbackExplained, ProbeDenied,
         RecoveryContext, DatabaseValid;
    var plan := RollbackPlan(target);
    RollbackPlanIs(w0, target);
    FollowsCalls(w0, w, plan, 7);
    var (r, w') := PutBack(w, ctx, target, result);
    ReplaceProgress(w, ctx, target);
    AcceptedIsValid(w, ctx, target);
    var (replaced, w1) := Replace(w, ctx, target);
    SameParsed(w0, w, 13);
    if replaced.ok {
      FollowsInside(w0, w, w1, plan, 7, target, 8);
      BringUpProgress(w0, w1, ctx, target, result.(database := replaced.evidence), r, w');
    } else if Follows(w, w1, ReplacementPlan(target), 8) && !Parsed(w, w.calls + BEFORE_VALIDATION) {
      FollowsInside(w0, w, w1, plan, 7, target, 8);
      Unparsed(w0, w1, target, r, result);
    } else {
      var n: nat :| StoppedAt(w, w1, ReplacementPlan(target), n, ctx);
      StoppedGrows(w, w1, ReplacementPlan(target), n, ctx);
      StopsInside(w0, w, w1, plan, 7, target, n, ctx);
      StoppedGrows(w0, w1, plan, 7 + n, ctx);
      NotProbing(Added(w0, w1), 7 + n);
      RollbackStopsAt(w0, target, result.failedStage, result.code, r, w1, 7 + n);
    }
  }

  lemma AcceptedIsValid(w: World, ctx: Context, source: nat)
    requires source < |w.dumps|
    ensures var (r, _) := Replace(w, ctx, source); r.ok ==> DatabaseValid(r.evidence)
  {
    hide RunReplacement, ParseEvidence, DatabaseValid;
    var (_, w1) := Ask(w, CredentialPrepared);
    var (_, w2) := Ask(w1, PlanBuilt);
    AcceptedEvidenceIsValid(RunReplacement(w2, ctx, source).0.output);
  }

  lemma SameParsed(w0: World, w: World, at: nat)
    requires w.oracle == w0.oracle && w.calls + BEFORE_VALIDATION == w0.calls + at
    ensures Parsed(w, w.calls + BEFORE_VALIDATION) == Parsed(w0, w0.calls + at)
  {
  }

  lemma Unparsed(w0: World, w1: World, target: nat, r: RestoreResult, result: RestoreResult)
    requires Follows(w0, w1, RollbackPlan(target), 15) && !Parsed(w0, w0.calls + 13)
    requires r.outcome.PartialCutover? && r.failedStage == result.failedStage && r.code == RollbackReplaceFailed
    requires r.rollback == StatusOf(Done(RecoveryContext(w0), w1))
    ensures RollbackExplained(w0, target, result.failedStage, result.code, r, w1)
  {
    hide Parsed, RollbackPlan;
    FollowsExactly(w0, w1, RollbackPlan(target), 15);
  }

  lemma FollowsExactly(w0: World, w1: World, plan: seq<Event>, n: nat)
    requires Follows(w0, w1, plan, n)
    ensures w0.trace <= w1.trace && Added(w0, w1) == plan[..n] && Passed(Added(w0, w1), plan) == n
  {
    PassedWhole(plan, n);
  }

  lemma {:induction false} PassedWhole(plan: seq<Event>, n: nat)
    requires n <= |plan|
    ensures Passed(plan[..n], plan) == n
    decreases n
  {
    if n > 0 {
      assert plan[..n][1..] == plan[1..][..n - 1];
      PassedWhole(plan[1..], n - 1);
    }
  }

  lemma BringUpProgress(w0: World, w1: World, ctx: Context, target: nat, seen: RestoreResult, r: RestoreResult, w': World)
    requires ctx == RecoveryContext(w0) && Follows(w0, w1, RollbackPlan(target), 15) && Parsed(w0, w0.calls + 13)
    requires seen.outcome.PartialCutover?
    requires var (up, w2) := BringUp(w1);
             if up then w' == w2 && r == seen.(rollback := RollbackSucceeded, backendHealthy := true)
             else
               var (_, w3) := StopBackend(w2);
               w' == w3 && r == seen.(rollback := StatusOf(Done(ctx, w3)), code := RollbackRecovery)
    ensures RollbackExplained(w0, target, seen.failedStage, seen.code, r, w')
  {
    hide Ask, StartBackend, StopBackend, Called, Watched, DropsArmed, Follows, StoppedAt, RollbackPlan, Parsed, Armed, Advance, ProbeDenied, RecoveryContext, RollbackExplained, Grows, Done;
    var plan := RollbackPlan(target);
    RollbackPlanIs(w0, target);
    var (started, wa) := StartBackend(w1);
    if !started {
      RollbackDeniedAt(w0, w1, wa, target, seen.failedStage, seen.code, r, w', 15);
    } else {
      FollowsOn(w0, w1, wa, plan, 15);
      var (healthy, wb) := Ask(wa, Healthy);
      if !healthy {
        RollbackDeniedAt(w0, wa, wb, target, seen.failedStage, seen.code, r, w', 16);
      } else {
        FollowsOn(w0, wa, wb, plan, 16);
        RollbackDone(w0, target, seen.failedStage, seen.code, r, w');
      }
    }
  }

  lemma RollbackDone(w: World, target: nat, stage: Stage, code: Code, r: RestoreResult, w': World)
    requires Follows(w, w', RollbackPlan(target), 17) && Parsed(w, w.calls + 13)
    requires r.outcome.PartialCutover? && r.failedStage == stage && r.code == code && r.rollback.RollbackSucceeded?
    ensures RollbackExplained(w, target, stage, code, r, w')
  {
    hide Parsed, RollbackPlan;
    FollowsExactly(w, w', RollbackPlan(target), 17);
  }

  lemma ProofProgress(w0: World, w: World, plan: seq<Event>, n: nat, ctx: Context)
    requires Follows(w0, w, plan, n) && n + 2 <= |plan|
    requires plan[n] == Asked(IdentityProven, true) && plan[n + 1] == Asked(Reached, true)
    ensures var (proven, w') := ProvePostgres(w);
            && w'.oracle == w.oracle && w'.dumps == w.dumps && w.trace <= w'.trace
            && (proven ==> Follows(w0, w', plan, n + 2))
            && (!proven ==> StoppedAt(w0, w', plan, n, ctx) || StoppedAt(w0, w', plan, n + 1, ctx))
  {
    hide Watched, DropsArmed, Follows, StoppedAt, Armed, Advance;
    FollowsCalls(w0, w, plan, n);
    var (identity, w1) := Ask(w, IdentityProven);
    if !identity {
      StopsHere(w0, w, w1, w1, plan, n, ctx, Asked(IdentityProven, false));
    } else {
      FollowsOn(w0, w, w1, plan, n);
      var (reached, w2) := Ask(w1, Reached);
      if reached {
        FollowsOn(w0, w1, w2, plan, n + 1);
      } else {
        StopsHere(w0, w1, w2, w2, plan, n + 1, ctx, Asked(Reached, false));
      }
    }
  }

  lemma RollbackStoppedProgress(w0: World, w: World, ctx: Context, target: nat, result: RestoreResult)
    requires target < |w.dumps| && ctx == RecoveryContext(w0) && Follows(w0, w, RollbackPlan(target), 4)
    requires result.outcome.PartialCutover?
    ensures var (r, w') := RollbackStopped(w, ctx, target, result);
            RollbackExplained(w0, target, result.failedStage, result.code, r, w')
  {
    hide Watched, DropsArmed, Follows, StoppedAt, RollbackPlan, Parsed, Armed, Advance, ProbeDenied, RecoveryContext,
         RollbackExplained, PutBack, ProvePostgres;
    var plan := RollbackPlan(target);
    RollbackPlanIs(w0, target);
    FollowsCalls(w0, w, plan, 4);
    var (r, w') := RollbackStopped(w, ctx, target, result);
    var (valid, w1) := Ask(w, Revalidated(target));
    if !valid {
      RollbackDeniedAt(w0, w, w1, target, result.failedStage, result.code, r, w', 4);
    } else {
      FollowsOn(w0, w, w1, plan, 4);
      ProofProgress(w0, w1, plan, 5, ctx);
      var (proven, w2) := ProvePostgres(w1);
      if proven {
        PutBackProgress(w0, w2, ctx, target, result);
      } else {
        var n := if StoppedAt(w0, w2, plan, 5, ctx) then 5 else 6;
        NotProbing(Added(w0, w2), n);
        RollbackStopsAt(w0, target, result.failedStage, result.code, r, w', n);
      }
    }
  }

  lemma StopDenied(w0: World, w: World, w1: World, w2: World, target: nat, result: RestoreResult, stopped: bool, r: RestoreResult)
    requires Follows(w0, w, RollbackPlan(target), 2)
    requires w1.trace == w.trace + [Stop(false)] && w2.trace == w1.trace + [Probed(stopped)]
    requires result.outcome.PartialCutover?
    requires r == result.(rollback := if !stopped then RollbackFailed else StatusOf(Done(RecoveryContext(w0), w2)), code := RollbackStop)
    ensures RollbackExplained(w0, target, result.failedStage, result.code, r, w2)
  {
    hide StoppedAt, RollbackPlan, RecoveryContext, RollbackExplained, Done, Parsed;
    var plan, ctx := RollbackPlan(target), RecoveryContext(w0);
    RollbackPlanIs(w0, target);
    StopsHere(w0, w, w1, w2, plan, 2, ctx, Stop(false));
    assert Added(w0, w2) == plan[..2] + [Stop(false), Probed(stopped)];
    RollbackStopsAt(w0, target, result.failedStage, result.code, r, w2, 2);
  }

  lemma ProbeIsDenied(w0: World, w: World, w1: World, target: nat, result: RestoreResult, r: RestoreResult)
    requires Follows(w0, w, RollbackPlan(target), 3) && w1.trace == w.trace + [Probed(false)]
    requires result.outcome.PartialCutover? && r == result.(rollback := RollbackFailed, code := RollbackStop)
    ensures RollbackExplained(w0, target, result.failedStage, result.code, r, w1)
  {
    hide Follows, StoppedAt, RollbackPlan, RecoveryContext, RollbackExplained, Done, Parsed;
    var plan, ctx := RollbackPlan(target), RecoveryContext(w0);
    RollbackPlanIs(w0, target);
    StopsHere(w0, w, w1, w1, plan, 3, ctx, Probed(false));
    StoppedGrows(w0, w1, plan, 3, ctx);
    RollbackStopsAt(w0, target, result.failedStage, result.code, r, w1, 3);
  }

  lemma RollbackProvenProgress(w0: World, w: World, ctx: Context, target: nat, result: RestoreResult)
    requires target < |w.dumps| && ctx == RecoveryContext(w0) && Follows(w0, w, RollbackPlan(target), 2)
    requires result.outcome.PartialCutover?
    ensures var (r, w') := RollbackProven(w, ctx, target, result);
            RollbackExplained(w0, target, result.failedStage, result.code, r, w')
  {
    hide Watched, DropsArmed, Follows, StoppedAt, RollbackPlan, Parsed, Armed, Advance, RecoveryContext, Done, ProbeDenied,
         RollbackExplained, RollbackStopped, Grows;
    var plan := RollbackPlan(target);
    RollbackPlanIs(w0, target);
    var (r, w') := RollbackProven(w, ctx, target, result);
    var (stopOk, w1) := StopBackend(w);
    var (stopped, w2) := Probe(w1);
    if !stopOk {
      StopDenied(w0, w, w1, w2, target, result, stopped, r);
    } else {
      FollowsOn(w0, w, w1, plan, 2);
      if !stopped {
        ProbeIsDenied(w0, w1, w2, target, result, r);
      } else {
        FollowsOn(w0, w1, w2, plan, 3);
        RollbackStoppedProgress(w0, w2, ctx, target, result);
      }
    }
  }

  /** A rollback succeeds exactly when it goes through its whole plan and the
      validation is accepted. Otherwise the first call that was denied or not submitted,
      or the validation, decides its code, and the context whether it was cancelled. */
  lemma RollbackExactly(w: World, target: nat, before: RestoreResult, stage: Stage, code: Code)
    requires target < |w.dumps|
    ensures var (r, w') := Rollback(w, target, before, stage, code);
            RollbackExplained(w, target, stage, code, r, w')
  {
    hide Watched, DropsArmed, Follows, StoppedAt, RollbackPlan, Parsed, Armed, Advance, ProbeDenied, RecoveryContext,
         RollbackExplained, RollbackProven, ProvePostgres;
    var plan, ctx := RollbackPlan(target), RecoveryContext(w);
    var result := before.(outcome := PartialCutover, failedStage := stage, code := code);
    RollbackPlanIs(w, target);
    var (r, w') := Rollback(w, target, before, stage, code);
    ProofProgress(w, w, plan, 0, ctx);
    var (proven, w1) := ProvePostgres(w);
    if proven {
      RollbackProvenProgress(w, w1, ctx, target, result);
    } else {
      var n := if StoppedAt(w, w1, plan, 0, ctx) then 0 else 1;
      NotProbing(Added(w, w1), n);
      RollbackStopsAt(w, target, stage, code, r, w', n);
    }
  }

  // ------------------------------------------------------------- whole runs

  /** The stage that is reported when a run gets `n` calls far. */
  function StageAt(n: nat, parsed: bool): Stage {
    if n >= 16 && !parsed then StageTargetReplacement
    else if n == 0 then StageWait
    else if n == 1 || n == 5 || n == 6 then StagePostgresCheck
    else if n == 2 then StageBackendStop
    else if n == 3 then StageCredentials
    else if n == 4 then StageLegacyRevalidation
    else if n == 7 then StageTargetBackup
    else if n < 16 then StageTargetReplacement
    else if n == 16 then StageRestoreValidation
    else if n == 17 then StageBackendStart
    else StageBackendHealth
  }

  /** The code, where no cancellation, failed restart or failed rollback replaces it. */
  function CodeAt(n: nat, parsed: bool): Code {
    if n >= 16 && !parsed then PrimaryFailed
    else if n == 0 then WaitFailed
    else if n == 1 || n == 16 then PostgresIdentity
    else if n == 2 then BackendStopFailed
    else if n == 3 then CredentialsFailed
    else if n == 4 then LegacyFailed
    else if n < 7 then PostgresFailed
    else if n == 7 then TargetBackupFailed
    else if n < 16 then PrimaryFailed
    else if n == 17 then BackendStartFailed
    else BackendHealthFailed
  }

  /** Where a rollback starts in the trace: after the call that failed, or after a
      replacement whose validation is not accepted. */
  function RollbackFrom(n: nat, parsed: bool): nat {
    if n >= 16 && !parsed then 16 else n + 1
  }

  /** Every call between the two worlds is in the trace. */
  ghost predicate Counts(w: World, w': World) {
    w.trace <= w'.trace && w'.calls - w.calls == |w'.trace| - |w.trace| && w'.oracle == w.oracle
  }

  /** After at least `from` calls, the rest of the run is a rollback to the target dump
      of this run, with the result this rollback has. */
  ghost predicate RolledBack(w0: World, r: RestoreResult, w': World, code: Code, from: nat) {
    exists w1: World ::
      && Counts(w1, w') && w1.oracle == w0.oracle && |w1.trace| >= |w0.trace| + from
      && r.targetBackup.Some? && RollbackExplained(w1, r.targetBackup.value, r.failedStage, code, r, w')
  }

  /** The code is the one of the place, or says why not: the caller cancelled, the
      backend did not come back, or a rollback ran and explains its own code. */
  ghost predicate CodeExplained(w0: World, ctx: Context, r: RestoreResult, w': World, code: Code, from: nat) {
    if StoppedShort(r) then
      if Done(ctx, w') then r.code == Cancelled && r.outcome.CancelledBeforeCutover?
      else r.outcome.FailedBeforeCutover? && (r.code == code || r.code == BackendRecoveryFailed)
    else r.outcome.PartialCutover? && RolledBack(w0, r, w', code, from)
  }

  /** What a run tells of a supported and wired request, over its trace. */
  ghost predicate RunExplained(w: World, ctx: Context, legacy: nat, r: RestoreResult, w': World) {
    && w.trace <= w'.trace
    && var n, parsed := Passed(Added(w, w'), RestorePlan(legacy)), Parsed(w, w.calls + 14);
       && (r.outcome.RestoreSucceeded? <==> n == 19 && parsed)
       && (r.outcome.RestoreSucceeded? ==> r.code == Succeeded)
       && (!r.outcome.RestoreSucceeded? ==>
             && ((n >= 16 && !parsed) || StoppedAt(w, w', RestorePlan(legacy), n, ctx))
             && r.failedStage == StageAt(n, parsed)
             && CodeExplained(w, ctx, r, w', CodeAt(n, parsed), RollbackFrom(n, parsed)))
  }

  lemma RestorePlanIs(w: World, legacy: nat)
    ensures var plan := RestorePlan(legacy);
            && plan[0] == Asked(Waited, true) && plan[1] == plan[5] == plan[16] == Asked(IdentityProven, true)
            && plan[2] == Stop(true) && plan[3] == Asked(Configured, true) && plan[4] == Asked(Revalidated(legacy), true)
            && plan[6] == Asked(Reached, true) && plan[7] == Dumped(true) && plan[8..16] == ReplacementPlan(legacy)
            && plan[17] == Start(true) && plan[18] == Asked(Healthy, true) && Follows(w, w, plan, 0)
  {
  }

  lemma RunStopsAt(w: World, ctx: Context, legacy: nat, r: RestoreResult, w': World, n: nat)
    requires StoppedAt(w, w', RestorePlan(legacy), n, ctx) && (n >= 16 ==> Parsed(w, w.calls + 14))
    requires !r.outcome.RestoreSucceeded? && r.failedStage == StageAt(n, n >= 16) && CodeExplained(w, ctx, r, w', CodeAt(n, n >= 16), n + 1)
    ensures RunExplained(w, ctx, legacy, r, w')
  {
    hide Parsed, RestorePlan, CodeExplained;
  }

  lemma RunDeniedAt(w0: World, w: World, w1: World, ctx: Context, legacy: nat, r: RestoreResult, w': World, n: nat)
    requires n < 19 && Follows(w0, w, RestorePlan(legacy), n) && (n >= 16 ==> Parsed(w0, w0.calls + 14))
    requires w1.trace == w.trace + [Denied(RestorePlan(legacy)[n])] && w1.trace <= w'.trace
    requires !r.outcome.RestoreSucceeded? && r.failedStage == StageAt(n, n >= 16) && CodeExplained(w0, ctx, r, w', CodeAt(n, n >= 16), n + 1)
    ensures RunExplained(w0, ctx, legacy, r, w')
  {
    hide Follows, StoppedAt, Parsed, RunExplained, CodeExplained, StageAt, CodeAt;
    var plan := RestorePlan(legacy);
    StopsHere(w0, w, w1, w', plan, n, ctx, Denied(plan[n]));
    RunStopsAt(w0, ctx, legacy, r, w', n);
  }

  lemma RecoveryCodes(w0: World, ctx: Context, result: RestoreResult, stage: Stage, code: Code, from: nat, up: bool, w': World)
    ensures var r := BeforeCutover(result, stage, Done(ctx, w'), if up then code else BackendRecoveryFailed);
            && !r.outcome.RestoreSucceeded? && r.failedStage == stage && CodeExplained(w0, ctx, r, w', code, from)
            && (!Done(ctx, w') ==> r.code == if up then code else BackendRecoveryFailed)
  {
    hide Done, RolledBack;
  }

  /** A recovery of the backend explains its code, and fails only at a denied call. */
  lemma RecoveryExplains(w0: World, w: World, ctx: Context, result: RestoreResult, stage: Stage, code: Code, from: nat)
    ensures var (r, w') := RecoverBackend(w, ctx, result, stage, code);
            && w.trace <= w'.trace && !r.outcome.RestoreSucceeded? && r.failedStage == stage
            && CodeExplained(w0, ctx, r, w', code, from)
            && var n := Passed(Added(w, w'), RECOVERY_PLAN);
               && (n < 2 ==> StoppedAt(w, w', RECOVERY_PLAN, n, None))
               && (!Done(ctx, w') ==> r.code == if n == 2 then code else BackendRecoveryFailed)
  {
    hide BringUp, StoppedAt, Done, Passed, CodeExplained, BeforeCutover, Added;
    BringUpPlan(w);
    var (up, w') := BringUp(w);
    RecoveryCodes(w0, ctx, result, stage, code, from, up, w');
  }

  lemma BringUpPlan(w: World)
    ensures var (up, w') := BringUp(w);
            && w.trace <= w'.trace
            && var n := Passed(Added(w, w'), RECOVERY_PLAN);
               && (up <==> n == 2)
               && (n < 2 ==> StoppedAt(w, w', RECOVERY_PLAN, n, None))
  {
    hide Watched, DropsArmed, Armed, Advance, Grows, Follows, StoppedAt, Passed;
    RecoveryPlanIs(w);
    var (started, w1) := StartBackend(w);
    if !started {
      StopsHere(w, w, w1, w1, RECOVERY_PLAN, 0, None, Start(false));
      StoppedPassed(w, w1, RECOVERY_PLAN, 0, None);
    } else {
      FollowsOn(w, w, w1, RECOVERY_PLAN, 0);
      var (healthy, w2) := Ask(w1, Healthy);
      if healthy {
        FollowsOn(w, w1, w2, RECOVERY_PLAN, 1);
        FollowsExactly(w, w2, RECOVERY_PLAN, 2);
      } else {
        StopsHere(w, w1, w2, w2, RECOVERY_PLAN, 1, None, Asked(Healthy, false));
        StoppedPassed(w, w2, RECOVERY_PLAN, 1, None);
      }
    }
  }

  lemma RecoveryPlanIs(w: World)
    ensures |RECOVERY_PLAN| == 2 && RECOVERY_PLAN[0] == Start(true) && RECOVERY_PLAN[1] == Asked(Healthy, true)
    ensures Follows(w, w, RECOVERY_PLAN, 0)
  {
  }

  lemma StoppedPassed(w0: World, w': World, plan: seq<Event>, n: nat, ctx: Context)
    requires StoppedAt(w0, w', plan, n, ctx)
    ensures w0.trace <= w'.trace && Passed(Added(w0, w'), plan) == n
  {
  }

  lemma RollbackExplains(w0: World, w: World, ctx: Context, target: nat, before: RestoreResult, stage: Stage, code: Code, from: nat)
    requires target < |w.dumps| && before.targetBackup == Some(target)
    requires w.oracle == w0.oracle && |w.trace| >= |w0.trace| + from
    ensures var (r, w') := Rollback(w, target, before, stage, code);
            && w.trace <= w'.trace && !r.outcome.RestoreSucceeded? && r.failedStage == stage
            && CodeExplained(w0, ctx, r, w', code, from)
  {
    hide Rollback, Passed, RollbackPlan, Parsed, RollbackHasCause, RecoveryContext, Done, Counts;
    RollbackExactly(w, target, before, stage, code);
    RollbackCounts(w, target, before, stage, code);
    var (r, w') := Rollback(w, target, before, stage, code);
    assert RollbackExplained(w, target, stage, code, r, w');
    assert RolledBack(w0, r, w', code, from);
  }

  lemma CountsTwice(w: World, w1: World, w2: World)
    requires Counts(w, w1) && Counts(w1, w2)
    ensures Counts(w, w2)
  {
  }

  lemma CallsCount(w: World)
    ensures forall what :: Counts(w, Ask(w, what).1) && Ask(w, what).1.dumps == w.dumps
    ensures Counts(w, StopBackend(w).1) && StopBackend(w).1.dumps == w.dumps
    ensures Counts(w, StartBackend(w).1) && StartBackend(w).1.dumps == w.dumps
    ensures Counts(w, Probe(w).1) && Probe(w).1.dumps == w.dumps
  {
    hide Watched, DropsArmed, Armed, Advance, Grows;
  }

  lemma BringUpCounts(w: World)
    ensures Counts(w, BringUp(w).1)
  {
    hide StartBackend, Ask;
    CallsCount(w);
    CallsCount(StartBackend(w).1);
  }

  lemma ProofCounts(w: World)
    ensures Counts(w, ProvePostgres(w).1) && ProvePostgres(w).1.dumps == w.dumps
  {
    hide Ask;
    CallsCount(w);
    CallsCount(Ask(w, IdentityProven).1);
  }

  lemma {:induction false} StepsCount(w: World, ctx: Context, source: nat, i: nat, mutated: bool, output: string)
    requires source < |w.dumps| && i <= |STEPS|
    ensures Counts(w, RunSteps(w, ctx, source, i, mutated, output).1)
    decreases |STEPS| - i
  {
    hide Done, RunStep, Clipped, Joined;
    if i < |STEPS| {
      var step := STEPS[i];
      StepCounts(w, step, source);
      var w1 := RunStep(w, step, source).1;
      var out := if step.Validate? then Clipped(Joined(w.oracle(w.calls).output)) else output;
      StepsCount(w1, ctx, source, i + 1, mutated || step.DropDatabase?, out);
    }
  }

  lemma StepCounts(w: World, step: Step, source: nat)
    requires source < |w.dumps|
    ensures Counts(w, RunStep(w, step, source).1) && RunStep(w, step, source).1.dumps == w.dumps
  {
    hide Watched, DropsArmed, Armed, Advance, Grows, StepEffect;
  }

  lemma ReplaceCounts(w: World, ctx: Context, source: nat)
    requires source < |w.dumps|
    ensures Counts(w, Replace(w, ctx, source).1)
  {
    hide Counts, Ask, RunSteps, ParseEvidence;
    CallsCount(w);
    var w1 := Ask(w, CredentialPrepared).1;
    CallsCount(w1);
    var w2 := Ask(w1, PlanBuilt).1;
    CountsTwice(w, w1, w2);
    CallsCount(w2);
    CountsTwice(w, w2, Ask(w2, CredentialCleaned).1);
    StepsCount(w2, ctx, source, 0, false, "");
    var w3 := RunSteps(w2, ctx, source, 0, false, "").1;
    CountsTwice(w, w2, w3);
    CallsCount(w3);
    CountsTwice(w, w3, Ask(w3, CredentialCleaned).1);
  }

  lemma PutBackCounts(w: World, ctx: Context, target: nat, result: RestoreResult)
    requires target < |w.dumps|
    ensures Counts(w, PutBack(w, ctx, target, result).1)
  {
    hide Counts, Replace, BringUp, StopBackend, DatabaseValid, Done;
    ReplaceCounts(w, ctx, target);
    var w1 := Replace(w, ctx, target).1;
    BringUpCounts(w1);
    var w2 := BringUp(w1).1;
    CallsCount(w2);
    CountsTwice(w, w1, w2);
    CountsTwice(w, w2, StopBackend(w2).1);
  }

  lemma StoppedCounts(w: World, ctx: Context, target: nat, result: RestoreResult)
    requires target < |w.dumps|
    ensures Counts(w, RollbackStopped(w, ctx, target, result).1)
  {
    hide Counts, Ask, ProvePostgres, PutBack, Done;
    CallsCount(w);
    var w1 := Ask(w, Revalidated(target)).1;
    ProofCounts(w1);
    var w2 := ProvePostgres(w1).1;
    CountsTwice(w, w1, w2);
    PutBackCounts(w2, ctx, target, result);
    CountsTwice(w, w2, PutBack(w2, ctx, target, result).1);
  }

  /** A rollback makes no call outside its trace, and keeps which dump it went back to. */
  lemma RollbackCounts(w: World, target: nat, before: RestoreResult, stage: Stage, code: Code)
    requires target < |w.dumps|
    ensures var (r, w') := Rollback(w, target, before, stage, code);
            Counts(w, w') && r.targetBackup == before.targetBackup
  {
    hide Counts, PutBack, StopBackend, Probe, ProvePostgres, RollbackStopped, Done, RecoveryContext;
    var ctx, result := RecoveryContext(w), before.(outcome := PartialCutover, failedStage := stage, code := code);
    ProofCounts(w);
    var w1 := ProvePostgres(w).1;
    CallsCount(w1);
    var w2 := StopBackend(w1).1;
    CallsCount(w2);
    var w3 := Probe(w2).1;
    CountsTwice(w, w1, w2);
    CountsTwice(w, w2, w3);
    StoppedCounts(w3, ctx, target, result);
    StoppedKeepsTarget(w3, ctx, target, result);
    CountsTwice(w, w3, RollbackStopped(w3, ctx, target, result).1);
  }

  lemma StoppedKeepsTarget(w: World, ctx: Context, target: nat, result: RestoreResult)
    requires target < |w.dumps|
    ensures RollbackStopped(w, ctx, target, result).0.targetBackup == result.targetBackup
  {
    hide Ask, ProvePostgres, Replace, BringUp, StopBackend, DatabaseValid, Done;
  }

  /** After a call of the end of a run that was denied, the rest is a rollback. */
  lemma FinishFails(
      w0: World, w: World, w1: World, ctx: Context, legacy: nat, target: nat, result: RestoreResult, stage: Stage, code: Code, n: nat)
    requires 16 <= n < 19 && Follows(w0, w, RestorePlan(legacy), n) && Parsed(w0, w0.calls + 14)
    requires w1.trace == w.trace + [Denied(RestorePlan(legacy)[n])] && w1.oracle == w.oracle
    requires target < |w1.dumps| && result.targetBackup == Some(target)
    requires stage == StageAt(n, true) && code == CodeAt(n, true)
    ensures var (r, w') := Rollback(w1, target, result, stage, code); RunExplained(w0, ctx, legacy, r, w')
  {
    hide Denied, Follows, RestorePlan, Parsed, Rollback, RunExplained, CodeExplained, Done, StageAt, CodeAt;
    FollowsLength(w0, w, RestorePlan(legacy), n);
    FollowsCalls(w0, w, RestorePlan(legacy), n);
    RollbackExplains(w0, w1, ctx, target, result, stage, code, n + 1);
    var (r, w') := Rollback(w1, target, result, stage, code);
    RunDeniedAt(w0, w, w1, ctx, legacy, r, w', n);
  }

  lemma FinishProgress(w0: World, w: World, ctx: Context, legacy: nat, target: nat, result: RestoreResult)
    requires target < |w.dumps| && Follows(w0, w, RestorePlan(legacy), 16) && Parsed(w0, w0.calls + 14)
    requires result.targetBackup == Some(target)
    ensures var (r, w') := Finish(w, target, result); RunExplained(w0, ctx, legacy, r, w')
  {
    hide Ask, StartBackend, Called, Watched, DropsArmed, Armed, Advance, Grows, Follows, RestorePlan, Parsed, Rollback, RunExplained;
    var plan := RestorePlan(legacy);
    RestorePlanIs(w0, legacy);
    var (proven, w1) := Ask(w, IdentityProven);
    if !proven {
      FinishFails(w0, w, w1, ctx, legacy, target, result, StageRestoreValidation, PostgresIdentity, 16);
    } else {
      FollowsOn(w0, w, w1, plan, 16);
      var (started, w2) := StartBackend(w1);
      if !started {
        FinishFails(w0, w1, w2, ctx, legacy, target, result, StageBackendStart, BackendStartFailed, 17);
      } else {
        FollowsOn(w0, w1, w2, plan, 17);
        var (healthy, w3) := Ask(w2, Healthy);
        if !healthy {
          FinishFails(w0, w2, w3, ctx, legacy, target, result, StageBackendHealth, BackendHealthFailed, 18);
        } else {
          FollowsOn(w0, w2, w3, plan, 18);
          RunDone(w0, ctx, legacy, Finish(w, target, result).0, w3);
        }
      }
    }
  }

  lemma RunDone(w: World, ctx: Context, legacy: nat, r: RestoreResult, w': World)
    requires Follows(w, w', RestorePlan(legacy), 19) && Parsed(w, w.calls + 14) && r.outcome.RestoreSucceeded? && r.code == Succeeded
    ensures RunExplained(w, ctx, legacy, r, w')
  {
    hide Parsed, RestorePlan;
    FollowsExactly(w, w', RestorePlan(legacy), 19);
  }

  /** A replacement whose validation is not accepted, whatever follows. */
  lemma RunUnparsed(w: World, w1: World, ctx: Context, legacy: nat, r: RestoreResult, w': World)
    requires Follows(w, w1, RestorePlan(legacy), 16) && !Parsed(w, w.calls + 14) && w1.trace <= w'.trace
    requires !r.outcome.RestoreSucceeded? && r.failedStage == StageTargetReplacement
    requires CodeExplained(w, ctx, r, w', PrimaryFailed, 16)
    ensures RunExplained(w, ctx, legacy, r, w')
  {
    hide Parsed, RestorePlan, CodeExplained;
    FollowsExactly(w, w1, RestorePlan(legacy), 16);
    PassedMore(Added(w, w1), Added(w, w'), RestorePlan(legacy));
  }

  lemma {:induction false} PassedMore(trace: seq<Event>, more: seq<Event>, plan: seq<Event>)
    requires trace <= more
    ensures Passed(trace, plan) <= Passed(more, plan)
    decreases |trace|
  {
    if trace != [] && plan != [] && trace[0] == plan[0] {
      PassedMore(trace[1..], more[1..], plan[1..]);
    }
  }

  lemma CutoverProgress(w0: World, w: World, ctx: Context, legacy: nat, target: nat, before: RestoreResult)
    requires legacy < |w.dumps| && target < |w.dumps| && Follows(w0, w, RestorePlan(legacy), 8)
    requires before.targetBackup == Some(target)
    ensures var (r, w') := Cutover(w, ctx, legacy, target, before); RunExplained(w0, ctx, legacy, r, w')
  {
    hide Watched, DropsArmed, Armed, Advance, Grows, Follows, StoppedAt, RestorePlan, ReplacementPlan, Parsed, Rollback, RunExplained,
         CodeExplained, Done, Replace, Finish, RecoverBackend, DatabaseValid;
    var plan := RestorePlan(legacy);
    RestorePlanIs(w0, legacy);
    FollowsCalls(w0, w, plan, 8);
    var (r, w') := Cutover(w, ctx, legacy, target, before);
    ReplaceProgress(w, ctx, legacy);
    AcceptedIsValid(w, ctx, legacy);
    var (replaced, w1) := Replace(w, ctx, legacy);
    SameParsed(w0, w, 14);
    if replaced.ok {
      FollowsInside(w0, w, w1, plan, 8, legacy, 8);
      FinishProgress(w0, w1, ctx, legacy, target, before.(database := replaced.evidence, mutated := replaced.mutated));
    } else {
      var result := before.(database := replaced.evidence, mutated := replaced.mutated);
      ReplaceCounts(w, ctx, legacy);
      if Follows(w, w1, ReplacementPlan(legacy), 8) && !Parsed(w, w.calls + BEFORE_VALIDATION) {
        FollowsInside(w0, w, w1, plan, 8, legacy, 8);
        FollowsLength(w0, w1, plan, 16);
        GivesUpReplacement(w0, w1, ctx, target, result, r, w', 16);
        RunUnparsed(w0, w1, ctx, legacy, r, w');
      } else {
        var n: nat :| StoppedAt(w, w1, ReplacementPlan(legacy), n, ctx);
        StoppedGrows(w, w1, ReplacementPlan(legacy), n, ctx);
        StopsInside(w0, w, w1, plan, 8, legacy, n, ctx);
        StoppedLength(w0, w1, plan, 8 + n, ctx);
        GivesUpReplacement(w0, w1, ctx, target, result, r, w', 9 + n);
        StopsEarlier(w0, w1, w', plan, 8 + n, ctx);
        RunStopsAt(w0, ctx, legacy, r, w', 8 + n);
      }
    }
  }

  /** Either way out of a replacement that did not succeed. */
  lemma GivesUpReplacement(
      w0: World, w1: World, ctx: Context, target: nat, result: RestoreResult, r: RestoreResult, w': World, from: nat)
    requires target < |w1.dumps| && result.targetBackup == Some(target)
    requires w1.oracle == w0.oracle && |w1.trace| >= |w0.trace| + from
    requires (r, w') == if !result.mutated then RecoverBackend(w1, ctx, result, StageTargetReplacement, PrimaryFailed)
                        else Rollback(w1, target, result, StageTargetReplacement, PrimaryFailed)
    ensures w1.trace <= w'.trace && !r.outcome.RestoreSucceeded? && r.failedStage == StageTargetReplacement
    ensures CodeExplained(w0, ctx, r, w', PrimaryFailed, from)
  {
    hide RecoverBackend, Rollback, Done, Passed, CodeExplained;
    RecoveryExplains(w0, w1, ctx, result, StageTargetReplacement, PrimaryFailed, from);
    RollbackExplains(w0, w1, ctx, target, result, StageTargetReplacement, PrimaryFailed, from);
  }

  lemma FollowsLength(w0: World, w: World, plan: seq<Event>, n: nat)
    requires Follows(w0, w, plan, n)
    ensures |w.trace| == |w0.trace| + n
  {
  }

  lemma StoppedLength(w0: World, w': World, plan: seq<Event>, n: nat, ctx: Context)
    requires StoppedAt(w0, w', plan, n, ctx)
    ensures |w'.trace| > |w0.trace| + n
  {
  }

  lemma SecureProgress(w0: World, w: World, ctx: Context, legacy: nat)
    requires legacy < |w.dumps| && Follows(w0, w, RestorePlan(legacy), 3)
    ensures var (r, w') := Secure(w, ctx, legacy); RunExplained(w0, ctx, legacy, r, w')
  {
    hide Watched, DropsArmed, Armed, Advance, Grows, Follows, StoppedAt, RestorePlan, Parsed, RunExplained, CodeExplained, Done,
         Cutover, RecoverBackend, ProvePostgres, Passed;
    var plan := RestorePlan(legacy);
    RestorePlanIs(w0, legacy);
    var (r, w') := Secure(w, ctx, legacy);
    var (configured, w1) := Ask(w, Configured);
    if !configured {
      RecoveryExplains(w0, w1, ctx, INITIAL, StageCredentials, CredentialsFailed, 4);
      RunDeniedAt(w0, w, w1, ctx, legacy, r, w', 3);
    } else {
      FollowsOn(w0, w, w1, plan, 3);
      var (valid, w2) := Ask(w1, Revalidated(legacy));
      if !valid {
        RecoveryExplains(w0, w2, ctx, INITIAL, StageLegacyRevalidation, LegacyFailed, 5);
        RunDeniedAt(w0, w1, w2, ctx, legacy, r, w', 4);
      } else {
        FollowsOn(w0, w1, w2, plan, 4);
        SecureDumpProgress(w0, w2, ctx, legacy);
      }
    }
  }

  lemma SecureDumpProgress(w0: World, w2: World, ctx: Context, legacy: nat)
    requires legacy < |w2.dumps| && Follows(w0, w2, RestorePlan(legacy), 5)
    ensures var result := INITIAL.(legacyValidated := true);
            var (proven, w3) := ProvePostgres(w2);
            && w2.dumps <= w3.dumps
            && var (target, w4) := DumpTarget(w3);
            && w2.dumps <= w4.dumps && (target.Some? ==> target.value < |w4.dumps|)
            && var (r, w') := if !proven then RecoverBackend(w3, ctx, result, StagePostgresCheck, PostgresFailed)
                              else if target.None? then RecoverBackend(w4, ctx, result, StageTargetBackup, TargetBackupFailed)
                              else Cutover(w4, ctx, legacy, target.value, result.(targetBackup := target));
               RunExplained(w0, ctx, legacy, r, w')
  {
    hide Watched, DropsArmed, Armed, Advance, Grows, Follows, StoppedAt, RestorePlan, Parsed, RunExplained, CodeExplained, Done,
         Cutover, RecoverBackend, ProvePostgres, Passed;
    var plan, result := RestorePlan(legacy), INITIAL.(legacyValidated := true);
    RestorePlanIs(w0, legacy);
    ProofProgress(w0, w2, plan, 5, ctx);
    var (proven, w3) := ProvePostgres(w2);
    var (target, w4) := DumpTarget(w3);
    if !proven {
      var n := if StoppedAt(w0, w3, plan, 5, ctx) then 5 else 6;
      RecoveryExplains(w0, w3, ctx, result, StagePostgresCheck, PostgresFailed, n + 1);
      var (r, w') := RecoverBackend(w3, ctx, result, StagePostgresCheck, PostgresFailed);
      StopsEarlier(w0, w3, w', plan, n, ctx);
      RunStopsAt(w0, ctx, legacy, r, w', n);
    } else if target.None? {
      RecoveryExplains(w0, w4, ctx, result, StageTargetBackup, TargetBackupFailed, 8);
      var (r, w') := RecoverBackend(w4, ctx, result, StageTargetBackup, TargetBackupFailed);
      RunDeniedAt(w0, w3, w4, ctx, legacy, r, w', 7);
    } else {
      FollowsOn(w0, w3, w4, plan, 7);
      CutoverProgress(w0, w4, ctx, legacy, target.value, result.(targetBackup := target));
    }
  }

  /** A supported and wired restore succeeds exactly when it goes through its whole
      plan - every call made and answered with success, no context ended before a
      command of the replacement - and the validation is accepted. Otherwise the first
      call that was denied or not submitted, or the validation, decides the stage that
      is reported, and the code where no cancellation, failed restart or failed
      rollback replaces it. */
  lemma RunExactly(w: World, ctx: Context, request: Request)
    requires request.legacy < |w.dumps| && Supported(request) && request.wired
    ensures var (r, w') := Run(w, ctx, request); RunExplained(w, ctx, request.legacy, r, w')
  {
    hide Watched, DropsArmed, Armed, Advance, Grows, Follows, StoppedAt, RestorePlan, Parsed, RunExplained, Done, Secure, Supported, Passed,
         RolledBack;
    var plan := RestorePlan(request.legacy);
    RestorePlanIs(w, request.legacy);
    var (r, w') := Run(w, ctx, request);
    var (waited, w1) := Ask(w, Waited);
    if !waited {
      RunDeniedAt(w, w, w1, ctx, request.legacy, r, w', 0);
    } else {
      FollowsOn(w, w, w1, plan, 0);
      var (proven, w2) := Ask(w1, IdentityProven);
      if !proven {
        RunDeniedAt(w, w1, w2, ctx, request.legacy, r, w', 1);
      } else {
        FollowsOn(w, w1, w2, plan, 1);
        var (stopped, w3) := StopBackend(w2);
        if !stopped {
          RunDeniedAt(w, w2, w3, ctx, request.legacy, r, w', 2);
        } else {
          FollowsOn(w, w2, w3, plan, 2);
          SecureProgress(w, w3, ctx, request.legacy);
        }
      }
    }
  }
}
