/** What the terminal interface keeps over every sequence of messages. */
module TuiSafety {
  import opened Basics
  import opened Bootstrap
  import opened Tui
  import opened TuiTable
  import TuiPaths

  // ------------------------------------------------------------------ runs

  /** A model together with the leases a completion was ever issued for. */
  datatype Run = Run(model: Model, issued: set<LeaseId>)

  function Issued(cmds: seq<Cmd>): set<LeaseId> {
    set c | c in cmds && (c.IssueFailure? || c.IssueSuccess?) :: c.lease
  }

  function Step(r: Run, msg: Msg): Run {
    var (m, cmds) := Update(r.model, msg);
    Run(m, r.issued + Issued(cmds))
  }

  function After(r: Run, msgs: seq<Msg>): Run
    decreases |msgs|
  {
    if msgs == [] then r else After(Step(r, msgs[0]), msgs[1..])
  }

  function Start(deps: Deps, env: Env): Run {
    Run(NewModel(deps, env), {})
  }

  /** The three places that hold port exemptions agree, and hold any only while a
      lease is live. */
  ghost predicate PortsAgree(m: Model) {
    && m.coordinator == m.preflight == m.portscan
    && (m.coordinator != NO_EXEMPTIONS ==> Live(m))
  }

  /** Where the model stands with its lease. */
  ghost predicate LeaseInvariant(r: Run) {
    var m := r.model;
    && (m.pending <==> m.lease.Some?)
    && (m.lease.Some? ==> m.deps.handoff)
    && (HandsOver(m.state) || m.quiescenceAuthPending ==> m.deps.handoff)
    && (m.state.StateResult? ==> m.lease.None?)
    && (m.state.StateMigrationRecovery? || m.state.StateMigrationSuccess? ==> m.lease.Some? && m.lease.value in r.issued)
  }

  predicate HandsOver(s: State) {
    s.StateMigrationConfirm? || s.StateMigrationDisposition? || s.StateMigrationRemoveConfirm? || s.StateMigrationQuiescence?
  }

  /** The bootstrap screen carries no banner, and while it is shown its actions are
      ones that were never attempted. */
  ghost predicate BootstrapInvariant(m: Model) {
    && Plain(m.screen)
    && (m.state.StateBootstrap? ==> m.screen.actions != [] && forall a :: a in m.screen.actions ==> a.id !in m.attempted)
  }

  ghost predicate Invariant(r: Run) {
    PortsAgree(r.model) && LeaseInvariant(r) && BootstrapInvariant(r.model)
  }

  lemma StartInvariant(deps: Deps, env: Env)
    ensures Invariant(Start(deps, env))
  {
  }

  /** The lease field changes only by a completed hand-over, or after a completion of
      the lease was issued. */
  ghost predicate LeaseKept(r: Run, msg: Msg, m: Model) {
    || m.lease == r.model.lease
    || (msg.QuiescenceCompleted? && r.model.state.StateMigrationQuiescence? && m.lease == msg.lease && m.lease.Some?)
    || (r.model.lease.Some? && r.model.lease.value in r.issued && m.lease.None?)
  }

  function Reach(r: Run, next: Next): Run {
    Run(next.0, r.issued + Issued(next.1))
  }

  /** What every update owes. */
  ghost predicate Good(r: Run, msg: Msg, next: Next) {
    && Invariant(Reach(r, next))
    && (Quit in next.1 ==> !Live(r.model))
    && LeaseKept(r, msg, next.0)
    && (!msg.BootstrapComplete? ==> next.0.attempted == r.model.attempted)
  }

  // --------------------------------------- what the table of updates keeps

  /** What the table tells of one update. */
  lemma UpdateAsTold(m: Model, msg: Msg)
    ensures var (n, cmds) := Update(m, msg);
            && (n.state != m.state ==> Leads(m, msg, n.state)) && (forall s :: Leads(m, msg, s) ==> n.state == s)
            && CommandsTold(m, msg, n, cmds) && LeaseTold(m, msg, n) && PortsTold(m, msg, n) && ScreenTold(m, msg, n)
            && n.attempted == (if msg.BootstrapComplete? then m.attempted + Ids(m.screen.actions) else m.attempted)
  {
    hide Update, Leads, CommandsTold, LeaseTold, PortsTold, ScreenTold, CancelsTold, Ids;
    TuiPaths.UpdateIsTold(m, msg);
  }

  lemma PortsKeep(m: Model, msg: Msg, n: Model)
    requires PortsAgree(m) && LeaseTold(m, msg, n) && PortsTold(m, msg, n) && (m.pending <==> m.lease.Some?)
    ensures PortsAgree(n)
  {
    hide Grants, RecoveryAsked, RefreshAnswer, Selects;
  }

  /** The states that matter for the lease, and what leads there. */
  lemma LeaseStates(m: Model, msg: Msg)
    ensures Leads(m, msg, StateMigrationQuiescence) ==> Grants(m, msg) || m.quiescenceAuthPending
    ensures Leads(m, msg, StateMigrationRecovery) ==> Live(m) && RecoveryAnswered(m, msg)
    ensures Leads(m, msg, StateMigrationSuccess) ==> Live(m) && msg.InstallSuccess?
    ensures Grants(m, msg) ==> HandsOver(m.state)
  {
    hide Live, Interrupts, Fixes;
  }

  lemma ResultStates(m: Model, msg: Msg)
    ensures Leads(m, msg, StateResult) ==> Finishes(m, msg) || (!Live(m) && !Delivered(m, msg))
    ensures m.state.StateResult? ==> !Delivered(m, msg)
    ensures RecoveryAnswered(m, msg) || msg.InstallSuccess? ==> !Delivered(m, msg) && !Finishes(m, msg)
  {
    hide Live;
  }

  lemma IssuedNow(cmds: seq<Cmd>, lease: LeaseId)
    ensures IssueFailure(lease) in cmds || IssueSuccess(lease) in cmds ==> lease in Issued(cmds)
  {
    if IssueFailure(lease) in cmds {
      assert IssueFailure(lease).lease in Issued(cmds);
    } else if IssueSuccess(lease) in cmds {
      assert IssueSuccess(lease).lease in Issued(cmds);
    }
  }

  lemma LeaseKeeps(r: Run, msg: Msg, n: Model, cmds: seq<Cmd>)
    requires LeaseInvariant(r) && LeaseTold(r.model, msg, n) && CommandsTold(r.model, msg, n, cmds)
    requires n.state != r.model.state ==> Leads(r.model, msg, n.state)
    requires forall s :: Leads(r.model, msg, s) ==> n.state == s
    ensures LeaseInvariant(Reach(r, (n, cmds)))
  {
    hide Leads, Grants, RecoveryAsked, RefreshAnswer, Selects, RecoveryAnswered, Begins, Quits, Issued, Delivered, Finishes;
    var m := r.model;
    LeaseStates(m, msg);
    TuiPaths.GrantStates(m, msg);
    ResultStates(m, msg);
    FinishLeaves(m, msg);
    if m.lease.Some? {
      IssuedNow(cmds, m.lease.value);
    }
  }

  /** A delivery comes in the quiescence state, and a completion leads on. */
  lemma FinishLeaves(m: Model, msg: Msg)
    ensures Delivered(m, msg) ==> m.state.StateMigrationQuiescence? && msg.lease.Some?
    ensures Delivered(m, msg) ==> exists s :: Leads(m, msg, s) && !s.StateMigrationRecovery? && !s.StateMigrationSuccess? && !s.StateResult?
    ensures Finishes(m, msg) ==> exists s :: Leads(m, msg, s) && !s.StateMigrationRecovery? && !s.StateMigrationSuccess?
  {
    hide LeadsInstall, LeadsBackup;
    if Delivered(m, msg) {
      var s := if msg.ok then StatePreflight else if m.deps.handoff then StateMigrationAuthRefresh else StateMigrationResult;
      assert LeadsLease(m, msg, s);
      assert Leads(m, msg, s);
    }
    if Finishes(m, msg) {
      var s := if msg.SuccessCompleted? && msg.ok then StateResult else StateMigrationResult;
      assert LeadsLease(m, msg, s);
      assert Leads(m, msg, s);
    }
  }

  lemma BootstrapKeeps(m: Model, msg: Msg, n: Model)
    requires BootstrapInvariant(m) && ScreenTold(m, msg, n)
    requires n.state != m.state ==> Leads(m, msg, n.state)
    requires forall s :: Leads(m, msg, s) ==> n.state == s
    requires n.attempted == (if msg.BootstrapComplete? then m.attempted + Ids(m.screen.actions) else m.attempted)
    ensures BootstrapInvariant(n)
  {
    hide Leads, UpdateScreen, Ids, Fixable, NonFixable;
    BootstrapStates(m, msg);
    if Fixes(m, msg) {
      FixableMeans(msg.items, m.env);
      var untried := FreshActions(Fixable(msg.items, m.env), m.attempted);
      var a :| a in Fixable(msg.items, m.env) && a.id !in m.attempted;
      assert a in untried;
    } else if Screens(m, msg) {
      PlainNeverQuits(m.screen, if msg.Pressed? then Press(msg.key) else ActionResult(msg.failed));
    }
  }

  lemma BootstrapStates(m: Model, msg: Msg)
    ensures Leads(m, msg, StateBootstrap) <==> Fixes(m, msg)
    ensures msg.BootstrapComplete? ==> Leads(m, msg, StatePreflight)
  {
    hide Fixes, Live;
  }

  lemma QuitKeeps(r: Run, msg: Msg)
    requires Invariant(r) && Quits(r.model, msg)
    ensures !Live(r.model)
  {
    hide UpdateScreen, Interrupts;
    if !Global(r.model, msg) && r.model.state.StateBootstrap? {
      PlainNeverQuits(r.model.screen, if msg.Pressed? then Press(msg.key) else ActionResult(msg.failed));
    }
  }

  lemma LeaseStays(r: Run, msg: Msg, n: Model)
    requires LeaseInvariant(r) && LeaseTold(r.model, msg, n)
    ensures LeaseKept(r, msg, n)
  {
    hide Grants, RecoveryAsked, RefreshAnswer, Selects;
  }

  /** Every update owes what `Good` says, whatever the message. */
  lemma UpdateIsGood(r: Run, msg: Msg)
    requires Invariant(r)
    ensures Good(r, msg, Update(r.model, msg))
  {
    hide Update, Leads, LeaseTold, PortsTold, ScreenTold, PortsAgree, BootstrapInvariant, Quits, Begins, RecoveryAnswered, Ids, LeaseKept;
    var (n, cmds) := Update(r.model, msg);
    UpdateAsTold(r.model, msg);
    PortsKeep(r.model, msg, n);
    LeaseKeeps(r, msg, n, cmds);
    BootstrapKeeps(r.model, msg, n);
    LeaseStays(r, msg, n);
    if Quit in cmds {
      QuitKeeps(r, msg);
    }
  }

  lemma {:induction false} RunKeeps(r: Run, msgs: seq<Msg>)
    requires Invariant(r)
    ensures Invariant(After(r, msgs))
    decreases |msgs|
  {
    hide Invariant, Update;
    if msgs != [] {
      UpdateIsGood(r, msgs[0]);
      GoodStep(r, msgs[0]);
      RunKeeps(Step(r, msgs[0]), msgs[1..]);
    }
  }

  lemma GoodStep(r: Run, msg: Msg)
    requires Good(r, msg, Update(r.model, msg))
    ensures Invariant(Step(r, msg))
  {
    hide Invariant, Update;
  }

  // -------------------------------------------------------------- theorems

  /** Over any messages in any order: the installer never quits while a lease is live,
      the three places holding port exemptions agree and hold any only then, and the
      lease field is cleared only after a completion of that lease was issued. A
      later hand-over alone can replace it. */
  lemma LeaseIsProtected(deps: Deps, env: Env, msgs: seq<Msg>, msg: Msg)
    ensures var r := After(Start(deps, env), msgs);
            var (m, cmds) := Update(r.model, msg);
            && (Live(r.model) ==> Quit !in cmds)
            && PortsAgree(m)
            && (r.model.lease.Some? && m.lease.None? ==> r.model.lease.value in r.issued)
            && (r.model.lease.Some? && m.lease != r.model.lease && m.lease.Some? ==>
                  msg.QuiescenceCompleted? && r.model.state.StateMigrationQuiescence?)
  {
    hide Invariant, Update, After;
    StartInvariant(deps, env);
    var r := After(Start(deps, env), msgs);
    RunKeeps(Start(deps, env), msgs);
    UpdateIsGood(r, msg);
    GoodMeans(r, msg, Update(r.model, msg));
  }

  /** A held lease is given up without a completion exactly when another one is
      delivered in the quiescence state: over any messages, and any next one. */
  lemma LostExactly(deps: Deps, env: Env, msgs: seq<Msg>, msg: Msg)
    ensures var r := After(Start(deps, env), msgs);
            var held := r.model.lease;
            held.Some? && held.value !in r.issued ==>
              (Update(r.model, msg).0.lease != held <==>
                 msg.QuiescenceCompleted? && msg.lease.Some? && msg.lease != held && r.model.state.StateMigrationQuiescence?)
  {
    hide Invariant, Update, After;
    StartInvariant(deps, env);
    var r := After(Start(deps, env), msgs);
    RunKeeps(Start(deps, env), msgs);
    UpdateIsGood(r, msg);
    GoodKeepsLease(r, msg, Update(r.model, msg));
    if msg.QuiescenceCompleted? && msg.lease.Some? {
      DeliveredExactly(r.model, msg.lease.value, msg.ok);
    }
  }

  lemma GoodKeepsLease(r: Run, msg: Msg, next: Next)
    requires Good(r, msg, next)
    ensures LeaseKept(r, msg, next.0)
  {
    hide Invariant, LeaseKept;
  }

  /** A delivered lease is held exactly in the quiescence state; anywhere else the
      model is left as it was, whatever was delivered. */
  lemma DeliveredExactly(m: Model, lease: LeaseId, ok: bool)
    ensures var n := Update(m, QuiescenceCompleted(Some(lease), ok)).0;
            if m.state.StateMigrationQuiescence? then n.lease == Some(lease) && n.pending else n == m
  {
    hide GlobalKey, Delegate, Live, Transition;
    DeliveryTransition(m, Some(lease), ok);
  }

  lemma DeliveryTransition(m: Model, lease: Option<LeaseId>, ok: bool)
    ensures Transition(m, QuiescenceCompleted(lease, ok)) == Some(HandedOver(m, lease, ok))
  {
    hide Live, Classified, Bootstrapped, InstallFailed, Installed, Restored, GivenUp, Disposed, ConfirmRemoval, BackedUp,
         ConfirmBackup, Authenticated, Selected, Succeeded, Recovered, HandedOver, Checked, Refreshed, To, Working;
  }

  /** The quit behind a bootstrap banner is unreachable: the classifier queues no
      action that has one. */
  lemma BannerQuitIsUnreachable(deps: Deps, env: Env, msgs: seq<Msg>, msg: BootstrapMsg)
    ensures !UpdateScreen(After(Start(deps, env), msgs).model.screen, msg).1.PrintAndQuit?
  {
    hide After, Start, Plain;
    StartInvariant(deps, env);
    RunKeeps(Start(deps, env), msgs);
    PlainNeverQuits(After(Start(deps, env), msgs).model.screen, msg);
  }

  lemma GoodMeans(r: Run, msg: Msg, next: Next)
    requires Good(r, msg, next)
    ensures (Live(r.model) ==> Quit !in next.1) && PortsAgree(next.0)
    ensures r.model.lease.Some? && next.0.lease.None? ==> r.model.lease.value in r.issued
    ensures r.model.lease.Some? && next.0.lease != r.model.lease && next.0.lease.Some? ==>
              msg.QuiescenceCompleted? && r.model.state.StateMigrationQuiescence?
  {
    hide LeaseInvariant, BootstrapInvariant;
  }

  /** A second hand-over: from any model that can migrate and needs no refresh, these
      messages hold a new lease, whatever lease was held before. */
  function HandOver(lease: LeaseId): (msgs: seq<Msg>)
    ensures |msgs| == 10
  {
    [DetectionCompleted({Migrate}), ContextActionSelected(Migrate), EnvironmentSelected(true), MigrationAuthenticated(true),
     BackupPreflighted(true), BackupConfirmed, BackupCompleted(true), Pressed(Enter), DispositionSelected(true, false),
     QuiescenceCompleted(Some(lease), true)]
  }

  lemma {:induction false} AfterTwo(r: Run, first: seq<Msg>, second: seq<Msg>)
    ensures After(r, first + second) == After(After(r, first), second)
    decreases |first|
  {
    if first == [] {
      assert first + second == second;
    } else {
      assert (first + second)[1..] == first[1..] + second;
      AfterTwo(Step(r, first[0]), first[1..], second);
    }
  }

  lemma AfterOne(r: Run, msg: Msg, rest: seq<Msg>)
    ensures After(r, [msg] + rest) == After(Step(r, msg), rest)
  {
    assert ([msg] + rest)[1..] == rest;
  }

  predicate Harmless(cmds: seq<Cmd>) {
    cmds == [] || cmds == [Work] || cmds == [IssueBegin]
  }

  lemma HarmlessIssuesNothing(cmds: seq<Cmd>)
    requires Harmless(cmds)
    ensures Issued(cmds) == {} && Quit !in cmds
  {
  }

  /** A transition that issues no completion. */
  lemma TransitionStep(r: Run, msg: Msg)
    requires !msg.Pressed? && Transition(r.model, msg).Some? && Harmless(Transition(r.model, msg).value.1)
    ensures Step(r, msg) == Run(Transition(r.model, msg).value.0, r.issued)
  {
    hide Transition, Harmless;
    HarmlessIssuesNothing(Transition(r.model, msg).value.1);
  }

  lemma EnterConfirms(r: Run)
    requires r.model.state.StateMigrationConfirm?
    ensures Step(r, Pressed(Enter)) == Run(r.model.(state := StateMigrationDisposition), r.issued)
  {
    HarmlessIssuesNothing([]);
  }

  lemma AfterFive(r: Run, a: Msg, b: Msg, c: Msg, d: Msg, e: Msg)
    ensures After(r, [a, b, c, d, e]) == Step(Step(Step(Step(Step(r, a), b), c), d), e)
  {
    hide Step;
    assert [a, b, c, d, e] == [a] + ([b] + ([c] + ([d] + ([e] + []))));
    AfterOne(r, a, [b] + ([c] + ([d] + ([e] + []))));
    AfterOne(Step(r, a), b, [c] + ([d] + ([e] + [])));
    AfterOne(Step(Step(r, a), b), c, [d] + ([e] + []));
    AfterOne(Step(Step(Step(r, a), b), c), d, [e] + []);
    AfterOne(Step(Step(Step(Step(r, a), b), c), d), e, []);
  }

  lemma DetectionReaches(r: Run)
    requires Capable(r.model.deps)
    ensures var r' := Step(Step(r, DetectionCompleted({Migrate})), ContextActionSelected(Migrate));
            && r'.model == r.model.(actions := {Migrate}, state := StateMigrationEnv) && r'.issued == r.issued
  {
    hide Step;
    TransitionStep(r, DetectionCompleted({Migrate}));
    TransitionStep(Step(r, DetectionCompleted({Migrate})), ContextActionSelected(Migrate));
  }

  lemma AuthenticationReaches(r: Run)
    requires r.model.state.StateMigrationEnv?
    ensures var r' := Step(Step(Step(r, EnvironmentSelected(true)), MigrationAuthenticated(true)), BackupPreflighted(true));
            && r'.model == r.model.(state := StateBackupConfirm) && r'.issued == r.issued
  {
    hide Step;
    TransitionStep(r, EnvironmentSelected(true));
    var r1 := Step(r, EnvironmentSelected(true));
    TransitionStep(r1, MigrationAuthenticated(true));
    TransitionStep(Step(r1, MigrationAuthenticated(true)), BackupPreflighted(true));
  }

  lemma SetUpReaches(r: Run) returns (r': Run)
    requires Capable(r.model.deps)
    ensures r' == After(r, HandOver(0)[..5])
    ensures r'.model.state.StateBackupConfirm? && r'.model.deps == r.model.deps && r'.issued == r.issued
    ensures r'.model.lease == r.model.lease && r'.model.pending == r.model.pending
  {
    hide Step, After;
    var a, b, c, d, e := DetectionCompleted({Migrate}), ContextActionSelected(Migrate), EnvironmentSelected(true),
                         MigrationAuthenticated(true), BackupPreflighted(true);
    DetectionReaches(r);
    var r2 := Step(Step(r, a), b);
    AuthenticationReaches(r2);
    r' := Step(Step(Step(r2, c), d), e);
    AfterFive(r, a, b, c, d, e);
    assert HandOver(0)[..5] == [a, b, c, d, e];
  }

  lemma BackupReaches(r: Run)
    requires r.model.deps.handoff && r.model.deps.restoreAction && r.model.deps.backupAction && r.model.state.StateBackupConfirm?
    ensures var r' := Step(Step(Step(r, BackupConfirmed), BackupCompleted(true)), Pressed(Enter));
            && r'.model.state.StateMigrationDisposition? && r'.model.deps == r.model.deps && r'.issued == r.issued
            && r'.model.lease == r.model.lease && r'.model.pending == r.model.pending
  {
    hide Step;
    TransitionStep(r, BackupConfirmed);
    var r1 := Step(r, BackupConfirmed);
    TransitionStep(r1, BackupCompleted(true));
    EnterConfirms(Step(r1, BackupCompleted(true)));
  }

  lemma DispositionHandsLease(r: Run, lease: LeaseId)
    requires r.model.deps.handoff && !r.model.deps.refresher && r.model.state.StateMigrationDisposition?
    ensures var r' := Step(Step(r, DispositionSelected(true, false)), QuiescenceCompleted(Some(lease), true));
            r'.model.lease == Some(lease) && Live(r'.model) && r'.issued == r.issued && r'.model.deps == r.model.deps
  {
    hide Step;
    TransitionStep(r, DispositionSelected(true, false));
    var r1 := Step(r, DispositionSelected(true, false));
    TransitionStep(r1, QuiescenceCompleted(Some(lease), true));
  }

  lemma HandsLease(r: Run, lease: LeaseId)
    requires Capable(r.model.deps) && !r.model.deps.refresher && r.model.state.StateBackupConfirm?
    ensures var r' := After(r, HandOver(lease)[5..]);
            r'.model.lease == Some(lease) && Live(r'.model) && r'.issued == r.issued && r'.model.deps == r.model.deps
  {
    hide Step, After, Live;
    BackupReaches(r);
    DispositionHandsLease(Step(Step(Step(r, BackupConfirmed), BackupCompleted(true)), Pressed(Enter)), lease);
    AfterFive(r, BackupConfirmed, BackupCompleted(true), Pressed(Enter), DispositionSelected(true, false),
              QuiescenceCompleted(Some(lease), true));
    assert HandOver(lease)[5..] ==
           [BackupConfirmed, BackupCompleted(true), Pressed(Enter), DispositionSelected(true, false),
            QuiescenceCompleted(Some(lease), true)];
  }

  lemma HandOverHolds(r: Run, lease: LeaseId)
    requires Capable(r.model.deps) && !r.model.deps.refresher
    ensures var r' := After(r, HandOver(lease));
            r'.model.lease == Some(lease) && Live(r'.model) && r'.issued == r.issued && r'.model.deps == r.model.deps
  {
    hide Update, After;
    var r1 := SetUpReaches(r);
    HandsLease(r1, lease);
    assert HandOver(0)[..5] == HandOver(lease)[..5];
    assert HandOver(lease) == HandOver(lease)[..5] + HandOver(lease)[5..];
    AfterTwo(r, HandOver(lease)[..5], HandOver(lease)[5..]);
  }

  /** Handing over twice loses the first lease: no completion was ever issued for it. */
  lemma SecondHandOverLosesLease(env: Env)
    ensures var r := After(Start(Deps(true, false, false, true, true, true), env), HandOver(1) + HandOver(2));
            r.model.lease == Some(2) && r.issued == {}
  {
    hide Update, After, HandOver;
    var start := Start(Deps(true, false, false, true, true, true), env);
    HandOverHolds(start, 1);
    AfterTwo(start, HandOver(1), HandOver(2));
    HandOverHolds(After(start, HandOver(1)), 2);
  }

  /** A lease delivered late is lost at once: a preflight message leaves the quiescence
      state while the hand-over is under way, its lease is then dropped, and ctrl-C
      quits with no completion ever issued. */
  lemma LateDeliveryIsDropped(env: Env)
    ensures var late := HandOver(1)[..9] + [PreflightStarted, QuiescenceCompleted(Some(1), true)];
            var r := After(Start(Deps(true, false, false, true, true, true), env), late);
            && r.model.lease.None? && r.issued == {}
            && Quit in Update(r.model, Pressed(CtrlC)).1
  {
    hide Step, After, HandOver, Update;
    var start := Start(Deps(true, false, false, true, true, true), env);
    var r1 := SetUpReaches(start);
    BackupReaches(r1);
    var r2 := Step(Step(Step(r1, BackupConfirmed), BackupCompleted(true)), Pressed(Enter));
    LeavesLate(r2);
    var r4 := Step(Step(r2, DispositionSelected(true, false)), PreflightStarted);
    var delivered := QuiescenceCompleted(Some(1), true);
    var rest := [BackupConfirmed, BackupCompleted(true), Pressed(Enter), DispositionSelected(true, false), PreflightStarted];
    AfterFive(r1, rest[0], rest[1], rest[2], rest[3], rest[4]);
    LateMessages();
    AfterTwo(start, HandOver(0)[..5], rest + [delivered]);
    AfterTwo(r1, rest, [delivered]);
    AfterLast(r4, delivered);
    CtrlCQuits(Step(r4, delivered).model);
  }

  lemma LeavesLate(r: Run)
    requires r.model.deps.handoff && !r.model.deps.refresher && r.model.state.StateMigrationDisposition?
    requires r.model.lease.None?
    ensures var r' := Step(Step(Step(r, DispositionSelected(true, false)), PreflightStarted), QuiescenceCompleted(Some(1), true));
            r'.model.state.StatePreflight? && r'.model.lease.None? && r'.issued == r.issued
  {
    hide Step;
    TransitionStep(r, DispositionSelected(true, false));
    var r1 := Step(r, DispositionSelected(true, false));
    TransitionStep(r1, PreflightStarted);
    TransitionStep(Step(r1, PreflightStarted), QuiescenceCompleted(Some(1), true));
  }

  lemma CtrlCQuits(m: Model)
    requires m.state.StatePreflight? && m.lease.None?
    ensures Quit in Update(m, Pressed(CtrlC)).1
  {
    hide Transition, Delegate;
  }

  lemma LateMessages()
    ensures HandOver(1)[..9] + [PreflightStarted, QuiescenceCompleted(Some(1), true)] ==
            HandOver(0)[..5] + ([BackupConfirmed, BackupCompleted(true), Pressed(Enter), DispositionSelected(true, false),
                                 PreflightStarted] + [QuiescenceCompleted(Some(1), true)])
  {
  }

  lemma AfterLast(r: Run, msg: Msg)
    ensures After(r, [msg]) == Step(r, msg)
  {
    hide Step;
    assert [msg] == [msg] + [];
    AfterOne(r, msg, []);
  }

  lemma PullTransition(m: Model)
    ensures Transition(m, PullComplete) == if Live(m) then Some(Working(m, StateMigrationAuthCheck)) else None
  {
    hide Live, Classified, Bootstrapped, InstallFailed, Installed, Restored, GivenUp, Disposed, ConfirmRemoval, BackedUp,
         ConfirmBackup, Authenticated, Selected, Succeeded, Recovered, HandedOver, Checked, Refreshed, To;
  }

  lemma PullDelegated(m: Model)
    ensures Delegate(m, PullComplete).0 == m
  {
    hide UpdateScreen, ConfirmBackup, ConfirmRemoval, To;
  }

  /** A finished pull is not tied to any state: with a live lease it moves on from
      anywhere, and without one it moves nothing on. */
  lemma PullIsUnguarded(m: Model)
    ensures Update(m, PullComplete).0.state.StateMigrationAuthCheck? <==> Live(m) || m.state.StateMigrationAuthCheck?
    ensures Update(m, PullComplete).0 == if Live(m) then m.(state := StateMigrationAuthCheck) else m
  {
    hide Transition, Delegate, GlobalKey, Live;
    PullTransition(m);
    PullDelegated(m);
  }

  /** So it can pull the machine out of a recovery under way: the recovery's own
      completion is then ignored and the lease stays live. */
  lemma PullLeavesRecovery(r: Run)
    requires r.model.state.StateMigrationRecovery? && Live(r.model)
    ensures var r' := After(r, [PullComplete, RecoveryCompleted]);
            r'.model == r.model.(state := StateMigrationAuthCheck) && Live(r'.model)
  {
    var r1 := Step(r, PullComplete);
    assert [PullComplete, RecoveryCompleted] == [PullComplete] + ([RecoveryCompleted] + []);
    AfterOne(r, PullComplete, [RecoveryCompleted] + []);
    AfterOne(r1, RecoveryCompleted, []);
  }

  // ------------------------------------------------------- bootstrap rounds

  /** The completed bootstrap rounds of a run. */
  function Rounds(r: Run, msgs: seq<Msg>): nat
    decreases |msgs|
  {
    if msgs == [] then 0
    else
      (if msgs[0].BootstrapComplete? && r.model.state.StateBootstrap? then 1 else 0) + Rounds(Step(r, msgs[0]), msgs[1..])
  }

  const ALL_ACTIONS: set<ActionId> := {DockerInstall, SystemdStart, DockerGroup, MediaDir, ConfigDir, WorkspaceDir}

  lemma AllActionsAreKnown(ids: set<ActionId>)
    ensures |ids| <= 6
  {
    forall id | id in ids ensures id in ALL_ACTIONS {
      match id {
        case DockerInstall => case SystemdStart => case DockerGroup =>
        case MediaDir => case ConfigDir => case WorkspaceDir =>
      }
    }
    SubsetSize(ids, ALL_ACTIONS);
    assert |ALL_ACTIONS| == 6;
  }

  /** Attempted actions stay attempted, and a completed round attempts a new one. */
  lemma AttemptedGrows(r: Run, msg: Msg)
    requires Invariant(r)
    ensures r.model.attempted <= Step(r, msg).model.attempted
    ensures msg.BootstrapComplete? && r.model.state.StateBootstrap? ==>
              |Step(r, msg).model.attempted| > |r.model.attempted|
  {
    UpdateIsGood(r, msg);
    var next := Step(r, msg).model;
    if msg.BootstrapComplete? {
      assert next.attempted == r.model.attempted + Ids(r.model.screen.actions);
      if r.model.state.StateBootstrap? {
        var a := r.model.screen.actions[0];
        assert a in r.model.screen.actions && a.id in Ids(r.model.screen.actions) && a.id !in r.model.attempted;
        SubsetSize(r.model.attempted + {a.id}, next.attempted);
      }
    }
  }

  /** Over any messages, no attempted action is queued again, and no more bootstrap
      rounds complete than there are actions not yet attempted. */
  lemma {:induction false} RoundsAreBounded(r: Run, msgs: seq<Msg>)
    requires Invariant(r)
    ensures Rounds(r, msgs) <= 6 - |r.model.attempted|
    ensures After(r, msgs).model.state.StateBootstrap? ==>
              forall a :: a in After(r, msgs).model.screen.actions ==> a.id !in After(r, msgs).model.attempted
    decreases |msgs|
  {
    hide Update, Good;
    AllActionsAreKnown(r.model.attempted);
    if msgs != [] {
      UpdateIsGood(r, msgs[0]);
      GoodStep(r, msgs[0]);
      AttemptedGrows(r, msgs[0]);
      SubsetSize(r.model.attempted, Step(r, msgs[0]).model.attempted);
      RoundsAreBounded(Step(r, msgs[0]), msgs[1..]);
    }
  }
}
