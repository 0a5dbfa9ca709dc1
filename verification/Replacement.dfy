/** Dropping, creating, restoring and validating the target database
    (internal/migration/restore_process.go). */
module Replacement {
  import opened Basics
  import opened Decimal
  import T = Text
  import opened RestoreWorld

  const OUTPUT_LIMIT: nat := 128
  const MAX_UINT64: nat := 0xFFFF_FFFF_FFFF_FFFF
  const STEPS: seq<Step> := [TerminateSessions, DropDatabase, CreateDatabase, RestoreArchive, Validate]

  // --------------------------------------------------- validation evidence

  datatype DatabaseEvidence = DatabaseEvidence(restoreExitOk: bool, connectionOk: bool, tables: nat, reachable: bool)

  const NO_EVIDENCE := DatabaseEvidence(false, false, 0, false)

  /** `parseValidationEvidence`. */
  function ParseEvidence(output: string): Option<DatabaseEvidence> {
    var fields := T.Fields(output);
    if |fields| != 3 || fields[0] != "t" || fields[2] != "t" then None
    else
      var tables := ParseUint(fields[1], MAX_UINT64);
      if tables.None? || tables.value == 0 then None
      else Some(DatabaseEvidence(true, true, tables.value, true))
  }

  /** `databaseValid`. */
  predicate DatabaseValid(e: DatabaseEvidence) {
    e.restoreExitOk && e.connectionOk && e.tables > 0 && e.reachable
  }

  /** What psql prints for the three validation queries. */
  function Printed(tables: nat): string {
    "t\n" + Text(tables) + "\nt\n"
  }

  lemma {:induction false} WordIsAll(word: string, rest: string)
    requires forall i :: 0 <= i < |word| ==> !T.IsSpace(word[i])
    requires rest != "" && T.IsSpace(rest[0])
    ensures T.WordLength(word + rest) == |word|
  {
    if word != "" {
      assert (word + rest)[0] == word[0] && (word + rest)[1..] == word[1..] + rest;
      WordIsAll(word[1..], rest);
    } else {
      assert word + rest == rest;
    }
  }

  lemma FieldsHead(word: string, space: char, rest: string)
    requires word != "" && T.IsSpace(space)
    requires forall i :: 0 <= i < |word| ==> !T.IsSpace(word[i])
    ensures T.Fields(word + [space] + rest) == [word] + T.Fields(rest)
  {
    var tail := [space] + rest;
    var whole := word + tail;
    assert word + [space] + rest == whole;
    WordIsAll(word, tail);
    assert whole[..|word|] == word && whole[|word|..] == tail && tail[1..] == rest;
    assert whole[0] == word[0];
  }

  lemma NoFields()
    ensures T.Fields("") == []
  {
  }

  /** The printed validation is accepted exactly for a table count that is positive
      and fits 64 bits, and then the evidence carries that count. */
  lemma ValidationRoundTrip(tables: nat)
    ensures ParseEvidence(Printed(tables)).Some? <==> 0 < tables <= MAX_UINT64
    ensures ParseEvidence(Printed(tables)).Some? ==> ParseEvidence(Printed(tables)).value.tables == tables
  {
    hide T.Fields, T.WordLength, Text, Value;
    var n := Text(tables);
    assert T.Fields("") == [] by { NoFields(); }
    assert forall i :: 0 <= i < |n| ==> IsDigit(n[i]) && !T.IsSpace(n[i]);
    assert Printed(tables) == "t" + ['\n'] + (n + ['\n'] + ("t" + ['\n'] + ""));
    FieldsHead("t", '\n', n + ['\n'] + ("t" + ['\n'] + ""));
    FieldsHead(n, '\n', "t" + ['\n'] + "");
    FieldsHead("t", '\n', "");
    ValueOfText(tables);
  }

  /** Evidence that parses is always valid, so the coordinator's own check of it
      never decides anything. */
  lemma AcceptedEvidenceIsValid(output: string)
    ensures ParseEvidence(output).Some? ==> DatabaseValid(ParseEvidence(output).value)
  {
  }

  // -------------------------------------------------------- bounded output

  function Joined(chunks: seq<string>): string {
    if chunks == [] then "" else chunks[0] + Joined(chunks[1..])
  }

  function Clipped(s: string): (r: string)
    ensures |r| <= OUTPUT_LIMIT
  {
    if |s| <= OUTPUT_LIMIT then s else s[..OUTPUT_LIMIT]
  }

  /** `boundedOutput`: keeps the first 128 bytes written to it. */
  class BoundedOutput {
    var buffer: string

    constructor ()
      ensures buffer == ""
    {
      buffer := "";
    }

    /** Whether everything was taken. */
    method Write(p: string) returns (taken: nat, short: bool)
      requires |buffer| <= OUTPUT_LIMIT
      modifies this
      ensures buffer == Clipped(old(buffer) + p)
      ensures |buffer| == |old(buffer)| + taken
      ensures short <==> |old(buffer)| == OUTPUT_LIMIT || |old(buffer) + p| > OUTPUT_LIMIT
    {
      var remaining := OUTPUT_LIMIT - |buffer|;
      if remaining <= 0 {
        assert (buffer + p)[..OUTPUT_LIMIT] == buffer;
        return 0, true;
      }
      if |p| > remaining {
        assert (buffer + p)[..OUTPUT_LIMIT] == buffer + p[..remaining];
        buffer := buffer + p[..remaining];
        return remaining, true;
      }
      buffer := buffer + p;
      return |p|, false;
    }

    /** A command's output, chunk by chunk, until a short write. */
    method Drain(chunks: seq<string>)
      requires buffer == ""
      modifies this
      ensures buffer == Clipped(Joined(chunks))
    {
      var i := 0;
      while i < |chunks|
        invariant 0 <= i <= |chunks| && |buffer| <= OUTPUT_LIMIT
        invariant Clipped(buffer + Joined(chunks[i..])) == Clipped(Joined(chunks))
      {
        ghost var before, rest := buffer, Joined(chunks[i + 1..]);
        assert chunks[i..][0] == chunks[i] && chunks[i..][1..] == chunks[i + 1..];
        ClipFirst(before, chunks[i], rest);
        var _, short := Write(chunks[i]);
        if short {
          FullStays(before + chunks[i], rest);
          assert before + Joined(chunks[i..]) == before + chunks[i] + rest;
          return;
        }
        i := i + 1;
      }
      assert buffer + Joined(chunks[i..]) == buffer;
    }
  }

  lemma ClipFirst(a: string, b: string, c: string)
    ensures a + (b + c) == a + b + c
    ensures Clipped(Clipped(a + b) + c) == Clipped(a + (b + c))
  {
    assert a + (b + c) == a + b + c;
    if |a + b| > OUTPUT_LIMIT {
      assert ((a + b)[..OUTPUT_LIMIT] + c)[..OUTPUT_LIMIT] == (a + b)[..OUTPUT_LIMIT];
      assert (a + b + c)[..OUTPUT_LIMIT] == (a + b)[..OUTPUT_LIMIT];
    }
  }

  lemma FullStays(a: string, c: string)
    requires |a| >= OUTPUT_LIMIT
    ensures Clipped(a + c) == Clipped(a)
  {
    assert (a + c)[..OUTPUT_LIMIT] == a[..OUTPUT_LIMIT];
    assert a[..|a|] == a;
  }

  // ----------------------------------------------------------- replacement

  datatype Process = ProcessSucceeded | ProcessFailed | ProcessCancelled | ProcessCleanupFailed

  datatype Outcome = Outcome(process: Process, failedStep: Step, mutated: bool, output: string)

  /** The steps from `i` on; `mutated` is set right before `dropdb` is submitted. */
  function RunSteps(w: World, ctx: Context, source: nat, i: nat, mutated: bool, output: string): (r: (Outcome, World))
    requires source < |w.dumps| && i <= |STEPS|
    ensures r.1.dumps == w.dumps
    decreases |STEPS| - i
  {
    if i == |STEPS| then (Outcome(ProcessSucceeded, TerminateSessions, mutated, output), w)
    else
      var step := STEPS[i];
      if Done(ctx, w) then (Outcome(ProcessCancelled, step, mutated, ""), w)
      else
        var dropped := mutated || step.DropDatabase?;
        var reply := w.oracle(w.calls);
        var out := if step.Validate? then Clipped(Joined(reply.output)) else output;
        var (ok, w1) := RunStep(w, step, source);
        if reply.panics then (Outcome(ProcessCleanupFailed, TerminateSessions, dropped, ""), w1)
        else if !ok then (Outcome(ProcessFailed, step, dropped, ""), w1)
        else RunSteps(w1, ctx, source, i + 1, dropped, out)
  }

  /** `RunTargetReplacement`: whatever happened, the credential is removed once, and
      a failed removal overrides the verdict but not `mutated`. */
  function RunReplacement(w: World, ctx: Context, source: nat): (r: (Outcome, World))
    requires source < |w.dumps|
    ensures r.1.dumps == w.dumps
  {
    var (result, w1) := RunSteps(w, ctx, source, 0, false, "");
    var (cleaned, w2) := Ask(w1, CredentialCleaned);
    (if cleaned then result else result.(process := ProcessCleanupFailed), w2)
  }

  datatype Replaced = Replaced(evidence: DatabaseEvidence, mutated: bool, ok: bool)

  /** `TargetReplacementAdapter.Replace`. */
  function Replace(w: World, ctx: Context, source: nat): (r: (Replaced, World))
    requires source < |w.dumps|
    ensures r.1.dumps == w.dumps
  {
    var (prepared, w1) := Ask(w, CredentialPrepared);
    if !prepared then (Replaced(NO_EVIDENCE, false, false), w1)
    else
      var (planned, w2) := Ask(w1, PlanBuilt);
      if !planned then (Replaced(NO_EVIDENCE, false, false), Ask(w2, CredentialCleaned).1)
      else
        var (result, w3) := RunReplacement(w2, ctx, source);
        var evidence := ParseEvidence(result.output);
        if !result.process.ProcessSucceeded? || evidence.None? then (Replaced(NO_EVIDENCE, result.mutated, false), w3)
        else (Replaced(evidence.value, result.mutated, true), w3)
  }

  // ---------------------------------------------- what a replacement keeps

  /** Between steps on a stopped backend. */
  ghost predicate Midway(w0: World, w: World, source: nat, i: nat, mutated: bool) {
    && !w.running && w.dumps == w0.dumps && source < |w.dumps|
    && Watched(w.trace) == Watched(w0.trace).(drops := Watched(w0.trace).drops + if mutated then 1 else 0)
    && (DropsArmed(w0.trace) && Armed(Watched(w0.trace), source) ==> DropsArmed(w.trace))
    && (mutated <==> i > 1)
    && w.dropped == w0.dropped + (if mutated then [w0.db] else [])
    && (!mutated ==> w.db == w0.db && (DropsArmed(w0.trace) ==> DropsArmed(w.trace)))
    && (i > 3 ==> w.db == w0.dumps[source])
  }

  lemma {:induction false} StepsKeep(w0: World, w: World, ctx: Context, source: nat, i: nat, mutated: bool, output: string)
    requires i <= |STEPS| && Midway(w0, w, source, i, mutated)
    ensures var (r, w') := RunSteps(w, ctx, source, i, mutated, output);
            && Midway(w0, w', source, if r.mutated then 2 else 0, r.mutated)
            && (r.process.ProcessSucceeded? ==> r.mutated && w'.db == w0.dumps[source])
    decreases |STEPS| - i
  {
    hide Watched, DropsArmed, Armed;
    if i < |STEPS| && !Done(ctx, w) {
      var step := STEPS[i];
      var reply := w.oracle(w.calls);
      var out := if step.Validate? then Clipped(Joined(reply.output)) else output;
      var (ok, w1) := RunStep(w, step, source);
      if ok {
        StepsKeep(w0, w1, ctx, source, i + 1, mutated || step.DropDatabase?, out);
      }
    }
  }

  /** At most one credential was prepared, as many were cleaned, and no stop, proof or
      dump was gained or lost. */
  predicate CleanedOnce(before: Watch, after: Watch) {
    && after == before.(prepared := after.prepared, cleaned := after.cleaned, drops := after.drops)
    && before.prepared <= after.prepared <= before.prepared + 1
    && after.cleaned - before.cleaned == after.prepared - before.prepared
  }

  /** What `Replace` does to a world whose backend is stopped. The database is
      dropped at most once, exactly when `mutated` says so, and otherwise untouched;
      success means it now holds the source dump; every prepared credential is
      cleaned exactly once; no proof is lost on the way. */
  ghost predicate ReplaceContract(w: World, source: nat, r: Replaced, w': World)
    requires source < |w.dumps|
  {
    && !w'.running && w'.dumps == w.dumps
    && CleanedOnce(Watched(w.trace), Watched(w'.trace))
    && Watched(w'.trace).drops == Watched(w.trace).drops + (if r.mutated then 1 else 0)
    && (DropsArmed(w.trace) && (Armed(Watched(w.trace), source) || !r.mutated) ==> DropsArmed(w'.trace))
    && w'.dropped == w.dropped + (if r.mutated then [w.db] else [])
    && (!r.mutated ==> w'.db == w.db)
    && (r.ok ==> r.mutated && w'.db == w.dumps[source] && DatabaseValid(r.evidence))
  }

  /** `RunReplacement` of a prepared credential keeps the contract, but for counting
      that credential. */
  lemma RunReplacementKeeps(w: World, ctx: Context, source: nat)
    requires !w.running && source < |w.dumps|
    ensures var (r, w') := RunReplacement(w, ctx, source);
            && Midway(w, w'.(trace := Front(w'.trace)), source, if r.mutated then 2 else 0, r.mutated)
            && w'.trace != [] && Last(w'.trace).Asked? && Last(w'.trace).what.CredentialCleaned?
            && (r.process.ProcessSucceeded? ==> r.mutated && w'.db == w.dumps[source])
  {
    hide Watched, DropsArmed, Armed, RunSteps;
    StepsKeep(w, w, ctx, source, 0, false, "");
    var (result, w1) := RunSteps(w, ctx, source, 0, false, "");
    var (cleaned, w2) := Ask(w1, CredentialCleaned);
    assert Front(w2.trace) == w1.trace;
  }

  lemma CleaningCounts(trace: seq<Event>)
    requires trace != [] && Last(trace).Asked? && Last(trace).what.CredentialCleaned?
    ensures Watched(trace) == Watched(Front(trace)).(cleaned := Watched(Front(trace)).cleaned + 1)
    ensures DropsArmed(trace) == DropsArmed(Front(trace))
  {
  }

  /** Preparing the credential and building the plan change nothing but the counts. */
  lemma PreparationKeeps(w: World, what: Question)
    requires !w.running && (what.CredentialPrepared? || what.PlanBuilt? || what.CredentialCleaned?)
    ensures var (ok, w1) := Ask(w, what);
            && !w1.running && w1.dumps == w.dumps && w1.dropped == w.dropped && w1.db == w.db
            && (DropsArmed(w1.trace) <==> DropsArmed(w.trace))
            && Watched(w1.trace) ==
               (match what
                case CredentialPrepared => Watched(w.trace).(prepared := Watched(w.trace).prepared + if ok then 1 else 0)
                case CredentialCleaned => Watched(w.trace).(cleaned := Watched(w.trace).cleaned + 1)
                case _ => Watched(w.trace))
  {
    hide Watched, DropsArmed;
  }

  lemma ReplaceKeeps(w: World, ctx: Context, source: nat)
    requires !w.running && source < |w.dumps|
    ensures var (r, w') := Replace(w, ctx, source); ReplaceContract(w, source, r, w')
  {
    hide Watched, DropsArmed, RunReplacement, ParseEvidence, DatabaseValid, Ask, Armed, Called, Advance, Grows;
    PreparationKeeps(w, CredentialPrepared);
    var (prepared, w1) := Ask(w, CredentialPrepared);
    if prepared {
      PreparationKeeps(w1, PlanBuilt);
      var (planned, w2) := Ask(w1, PlanBuilt);
      if planned {
        RunReplacementKeeps(w2, ctx, source);
        var (result, w3) := RunReplacement(w2, ctx, source);
        CleaningCounts(w3.trace);
        AcceptedEvidenceIsValid(result.output);
        SameArmed(Watched(w.trace), Watched(w2.trace), source);
      } else {
        PreparationKeeps(w2, CredentialCleaned);
      }
    }
  }

  lemma SameArmed(g: Watch, h: Watch, source: nat)
    requires h == g.(prepared := h.prepared, cleaned := h.cleaned)
    ensures Armed(g, source) == Armed(h, source)
  {
  }
}
