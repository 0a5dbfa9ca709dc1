/** What must have come before a hand-over begins, over all message sequences, and
    what leads to the deployment. */
module TuiHistory {
  import opened Basics
  import opened Bootstrap
  import opened Tui
  import opened TuiTable
  import opened TuiPaths

  /** What the messages so far established: a backup was validated while it ran; the
      last disposition selected after such a backup; the last one that was granted, a
      stop when it is selected and a removal when it is confirmed; and whether the last
      selected one was. */
  datatype Past = Past(backedUp: bool, chosen: Option<bool>, granted: Option<bool>, settled: bool)

  const NOTHING := Past(false, None, None, false)

  function Remembered(p: Past, m: Model, msg: Msg): Past {
    if m.state.StateBackupRunning? && msg == BackupCompleted(true) then p.(backedUp := true)
    else if p.backedUp && m.state.StateMigrationDisposition? && msg == DispositionSelected(true, false) then
      p.(chosen := Some(false), granted := Some(false), settled := true)
    else if p.backedUp && m.state.StateMigrationDisposition? && msg == DispositionSelected(true, true) then
      p.(chosen := Some(true), settled := false)
    else if p.chosen == Some(true) && m.state.StateMigrationRemoveConfirm? && (msg == RemoveConfirmed || msg == Pressed(Enter)) then
      p.(granted := Some(true), settled := true)
    else p
  }

  datatype Trail = Trail(model: Model, past: Past)

  function Onward(t: Trail, msg: Msg): Trail {
    Trail(Update(t.model, msg).0, Remembered(t.past, t.model, msg))
  }

  function Follow(t: Trail, msgs: seq<Msg>): Trail
    decreases |msgs|
  {
    if msgs == [] then t else Follow(Onward(t, msgs[0]), msgs[1..])
  }

  function Beginning(deps: Deps, env: Env): Trail {
    Trail(NewModel(deps, env), NOTHING)
  }

  /** What the model knows agrees with the past. */
  predicate Earned(t: Trail) {
    var m, p := t.model, t.past;
    && (Confirming(m.state) ==> p.backedUp)
    && (m.state.StateMigrationRemoveConfirm? ==> p.chosen == Some(true) && !p.settled)
    && (p.chosen.Some? ==> p.backedUp && p.chosen == Some(m.removal))
    && (m.quiescenceAuthPending || m.state.StateMigrationQuiescence? ==> p.granted.Some?)
    && (p.granted.Some? ==> p.chosen.Some?)
    && (!m.deps.refresher ==> !m.quiescenceAuthPending)
  }

  // ---------------------------------------------------------- single steps

  lemma StateIsTold(m: Model, msg: Msg)
    ensures var (n, cmds) := Update(m, msg);
            && (n.state != m.state ==> Leads(m, msg, n.state))
            && (forall s :: Leads(m, msg, s) ==> n.state == s)
            && LeaseTold(m, msg, n) && CommandsTold(m, msg, n, cmds)
  {
    hide Update, Leads, LeaseTold, CommandsTold, CancelsTold, ChoicesTold, PortsTold;
    UpdateIsTold(m, msg);
  }

  /** A hand-over begins exactly when one is granted and no refresher is wired, or when
      the refresh that was asked for it reports success; and the quiescence state is
      entered exactly then. */
  lemma BeginsExactly(m: Model, msg: Msg)
    ensures var (n, cmds) := Update(m, msg);
            && (IssueBegin in cmds <==>
                  || (!m.deps.refresher && Grants(m, msg))
                  || (m.state.StateMigrationAuthRefresh? && msg == AuthorizationRefreshed(true)
                      && m.quiescenceAuthPending && !m.recoveryAuthPending))
            && (IssueBegin in cmds ==> n.state.StateMigrationQuiescence?)
            && (n.state.StateMigrationQuiescence? && !m.state.StateMigrationQuiescence? ==> IssueBegin in cmds)
  {
    hide Update, LeaseTold, Grants, Live;
    StateIsTold(m, msg);
    OnlyBeginQuiesces(m, msg);
  }

  lemma OnlyBeginQuiesces(m: Model, msg: Msg)
    ensures Leads(m, msg, StateMigrationQuiescence) <==> Begins(m, msg)
  {
    hide Begins;
  }

  /** The deployment is entered exactly on these messages, so a refused authorization
      never leads there. */
  lemma DeploysExactly(m: Model, msg: Msg)
    ensures var n := Update(m, msg).0;
            var leads := || msg.DeployStarted?
                         || (m.state.StateMigrationAuthCheck? && msg == AuthorizationChecked(true))
                         || (m.state.StateMigrationAuthRefresh? && msg == AuthorizationRefreshed(true)
                             && !m.recoveryAuthPending && !m.quiescenceAuthPending)
                         || (m.state.StateDatabaseRestore? && msg == RestoreCompleted(true));
            && (leads ==> n.state.StateDeploy?)
            && (n.state.StateDeploy? && !m.state.StateDeploy? ==> leads)
            && (msg == AuthorizationChecked(false) || msg == AuthorizationRefreshed(false) ==> !leads)
  {
    hide Update, LeaseTold, CommandsTold, Live;
    StateIsTold(m, msg);
    OnlyDeploys(m, msg);
  }

  lemma OnlyDeploys(m: Model, msg: Msg)
    ensures Leads(m, msg, StateDeploy) <==> Deploys(m, msg)
  {
    hide Deploys;
  }

  /** An update that changes what the past is compared with. */
  lemma OnwardIsEarned(t: Trail, msg: Msg)
    requires Earned(t)
    ensures Earned(Onward(t, msg))
  {
    hide Update, Leads, Begins, RecoveryAsked, RefreshAnswer, CommandsTold, Live, Delivered, Finishes;
    var m := t.model;
    StateIsTold(m, msg);
    GrantStates(m, msg);
    OnlyBeginQuiesces(m, msg);
    BeginMeans(m, msg);
    if Grants(m, msg) {
      GrantIsRemembered(t, msg);
      GrantMovesOn(m, msg);
    }
    SelectionIsRemembered(t, msg);
  }

  lemma GrantMovesOn(m: Model, msg: Msg)
    requires Grants(m, msg)
    ensures Leads(m, msg, if m.deps.refresher then StateMigrationAuthRefresh else StateMigrationQuiescence)
  {
    hide LeadsInstall, LeadsBackup, LeadsLease;
    GrantLeads(m, msg);
  }

  lemma BeginMeans(m: Model, msg: Msg)
    ensures Begins(m, msg) ==> Grants(m, msg) || m.quiescenceAuthPending
  {
  }

  lemma GrantIsRemembered(t: Trail, msg: Msg)
    requires Earned(t) && Grants(t.model, msg)
    ensures var p := Remembered(t.past, t.model, msg);
            p.backedUp && p.settled && p.granted.Some? && p.chosen == p.granted
  {
  }

  lemma SelectionIsRemembered(t: Trail, msg: Msg)
    requires Earned(t)
    ensures var p := Remembered(t.past, t.model, msg);
            && (Selects(t.model, msg) ==> p.chosen == Some(msg.remove))
            && (!Selects(t.model, msg) ==> p.chosen == t.past.chosen)
            && (t.past.backedUp || BackupEnds(t.model, msg, true) ==> p.backedUp)
            && (t.past.granted.Some? ==> p.granted.Some?)
            && (p.settled && !t.past.settled ==> Grants(t.model, msg))
  {
  }

  lemma {:induction false} FollowIsEarned(t: Trail, msgs: seq<Msg>)
    requires Earned(t)
    ensures Earned(Follow(t, msgs)) && Follow(t, msgs).model.deps == t.model.deps
    decreases |msgs|
  {
    hide Earned, Update, Remembered;
    if msgs != [] {
      OnwardIsEarned(t, msgs[0]);
      DepsStay(t.model, msgs[0]);
      FollowIsEarned(Onward(t, msgs[0]), msgs[1..]);
    }
  }

  lemma DepsStay(m: Model, msg: Msg)
    ensures Update(m, msg).0.deps == m.deps
  {
    hide Update, Leads, Grants, RecoveryAsked, RefreshAnswer, CommandsTold, Delivered, Finishes, Selects;
    StateIsTold(m, msg);
  }

  // ---------------------------------------------------------- whole runs

  lemma {:induction false} FollowLast(t: Trail, msgs: seq<Msg>)
    requires msgs != []
    ensures Follow(t, msgs) == Onward(Follow(t, Front(msgs)), Last(msgs))
    decreases |msgs|
  {
    hide Update, Remembered;
    if |msgs| > 1 {
      assert Front(msgs)[1..] == Front(msgs[1..]) && Front(msgs)[0] == msgs[0];
      FollowLast(Onward(t, msgs[0]), msgs[1..]);
    }
  }

  function Before(t: Trail, msgs: seq<Msg>, i: nat): Trail
    requires i <= |msgs|
  {
    Follow(t, msgs[..i])
  }

  ghost predicate BackupAt(t: Trail, msgs: seq<Msg>, i: nat) {
    i < |msgs| && msgs[i] == BackupCompleted(true) && Before(t, msgs, i).model.state.StateBackupRunning?
  }

  ghost predicate SelectionAt(t: Trail, msgs: seq<Msg>, j: nat, remove: bool) {
    j < |msgs| && msgs[j] == DispositionSelected(true, remove) && Before(t, msgs, j).model.state.StateMigrationDisposition?
  }

  /** Message `k` grants the disposition that message `j` selected. */
  ghost predicate GrantAt(t: Trail, msgs: seq<Msg>, j: nat, k: nat, remove: bool) {
    && SelectionAt(t, msgs, j, remove)
    && if !remove then k == j
       else j < k < |msgs| && (msgs[k] == RemoveConfirmed || msgs[k] == Pressed(Enter))
            && Before(t, msgs, k).model.state.StateMigrationRemoveConfirm?
  }

  /** What happened in a run happened in every longer one. */
  lemma StillHappened(t: Trail, msgs: seq<Msg>)
    requires msgs != []
    ensures forall i: nat :: BackupAt(t, Front(msgs), i) ==> BackupAt(t, msgs, i)
    ensures forall j: nat, remove :: SelectionAt(t, Front(msgs), j, remove) ==> SelectionAt(t, msgs, j, remove)
    ensures forall j: nat, k: nat, remove :: GrantAt(t, Front(msgs), j, k, remove) ==> GrantAt(t, msgs, j, k, remove)
  {
    hide Follow;
    assert forall i: nat :: i < |msgs| ==> msgs[..i] == Front(msgs)[..i];
  }

  lemma {:induction false} BackupHappened(t: Trail, msgs: seq<Msg>)
    requires !t.past.backedUp && Follow(t, msgs).past.backedUp
    ensures exists i: nat :: BackupAt(t, msgs, i)
    decreases |msgs|
  {
    hide Update;
    if msgs != [] {
      var earlier := Front(msgs);
      FollowLast(t, msgs);
      StillHappened(t, msgs);
      if Follow(t, earlier).past.backedUp {
        BackupHappened(t, earlier);
      } else {
        assert BackupAt(t, msgs, |msgs| - 1);
      }
    }
  }

  lemma {:induction false} SelectionHappened(t: Trail, msgs: seq<Msg>, remove: bool)
    requires !t.past.backedUp && t.past.chosen.None? && Follow(t, msgs).past.chosen == Some(remove)
    ensures exists i: nat, j: nat :: i < j && BackupAt(t, msgs, i) && SelectionAt(t, msgs, j, remove)
    decreases |msgs|
  {
    hide Update, Follow, Remembered, BackupAt, SelectionAt;
    if msgs == [] {
      NothingFollows(t);
    } else {
      var earlier := Front(msgs);
      FollowLast(t, msgs);
      StillHappened(t, msgs);
      if Follow(t, earlier).past.chosen == Some(remove) {
        SelectionHappened(t, earlier, remove);
      } else {
        SelectsNow(t, msgs, remove);
        BackupHappened(t, earlier);
        BackupIsEarlier(t, earlier);
        assert SelectionAt(t, msgs, |msgs| - 1, remove);
      }
    }
  }

  lemma SelectsNow(t: Trail, msgs: seq<Msg>, remove: bool)
    requires msgs != [] && Follow(t, msgs) == Onward(Follow(t, Front(msgs)), Last(msgs))
    requires Follow(t, msgs).past.chosen == Some(remove) != Follow(t, Front(msgs)).past.chosen
    ensures Follow(t, Front(msgs)).past.backedUp && SelectionAt(t, msgs, |msgs| - 1, remove)
  {
    hide Update, Follow;
  }

  lemma GrantsNow(t: Trail, msgs: seq<Msg>, remove: bool)
    requires msgs != [] && Follow(t, msgs) == Onward(Follow(t, Front(msgs)), Last(msgs))
    requires Follow(t, msgs).past.granted == Some(remove) != Follow(t, Front(msgs)).past.granted
    ensures if remove then
              && Follow(t, Front(msgs)).past.chosen == Some(true)
              && forall j: nat :: j < |msgs| - 1 && SelectionAt(t, msgs, j, true) ==> GrantAt(t, msgs, j, |msgs| - 1, true)
            else Follow(t, Front(msgs)).past.backedUp && GrantAt(t, msgs, |msgs| - 1, |msgs| - 1, false)
  {
    hide Update, Follow;
  }

  lemma BackupIsEarlier(t: Trail, msgs: seq<Msg>)
    ensures forall i: nat :: BackupAt(t, msgs, i) ==> i < |msgs|
    ensures forall j: nat, remove :: SelectionAt(t, msgs, j, remove) ==> j < |msgs|
  {
    hide Follow;
  }

  lemma {:induction false} GrantHappened(t: Trail, msgs: seq<Msg>, remove: bool)
    requires t.past == NOTHING && Follow(t, msgs).past.granted == Some(remove)
    ensures exists i: nat, j: nat, k: nat :: i < j && BackupAt(t, msgs, i) && GrantAt(t, msgs, j, k, remove)
    decreases |msgs|
  {
    hide Update, Follow, Remembered, BackupAt, SelectionAt, GrantAt;
    if msgs == [] {
      NothingFollows(t);
    } else {
      var earlier, last := Front(msgs), |msgs| - 1;
      FollowLast(t, msgs);
      StillHappened(t, msgs);
      if Follow(t, earlier).past.granted == Some(remove) {
        GrantHappened(t, earlier, remove);
      } else {
        GrantsNow(t, msgs, remove);
        BackupIsEarlier(t, earlier);
        if remove {
          SelectionHappened(t, earlier, true);
          var i: nat, j: nat :| i < j && BackupAt(t, earlier, i) && SelectionAt(t, earlier, j, true);
          assert BackupAt(t, msgs, i) && GrantAt(t, msgs, j, last, true);
        } else {
          BackupHappened(t, earlier);
          var i: nat :| BackupAt(t, earlier, i);
          assert BackupAt(t, msgs, i) && GrantAt(t, msgs, last, last, false);
        }
      }
    }
  }

  lemma NothingFollows(t: Trail)
    ensures Follow(t, []) == t
  {
  }

  lemma BeginningIsEarned(deps: Deps, env: Env)
    ensures Earned(Beginning(deps, env)) && Beginning(deps, env).past == NOTHING
  {
  }

  /** Over any messages in any order, a hand-over begins only after a backup was
      validated while it ran, a disposition was selected after that, and one selected
      after it was granted: a stop by the selection itself, a removal by its
      confirmation. What is handed over is the last disposition selected. With a
      refresher it begins only on a refresh that reports success; without one, the last
      disposition selected is the one that was granted. */
  lemma HandOverIsEarned(deps: Deps, env: Env, msgs: seq<Msg>, msg: Msg)
    ensures var start := Beginning(deps, env);
            var m := Follow(start, msgs).model;
            var (n, cmds) := Update(m, msg);
            var past := Follow(start, msgs + [msg]).past;
            IssueBegin in cmds ==>
              && past.chosen == Some(n.removal)
              && (exists i: nat, j: nat :: i < j && BackupAt(start, msgs + [msg], i) && SelectionAt(start, msgs + [msg], j, n.removal))
              && (exists i: nat, j: nat, k: nat, remove ::
                    i < j && BackupAt(start, msgs + [msg], i) && GrantAt(start, msgs + [msg], j, k, remove))
              && (deps.refresher ==> msg == AuthorizationRefreshed(true))
              && (!deps.refresher ==> past.settled && past.granted == Some(n.removal))
  {
    hide Update, Earned, Remembered, Grants, BackupAt, SelectionAt, GrantAt;
    var start, all := Beginning(deps, env), msgs + [msg];
    BeginningIsEarned(deps, env);
    FollowIsEarned(start, msgs);
    var t := Follow(start, msgs);
    assert Front(all) == msgs && Last(all) == msg;
    FollowLast(start, all);
    BeginsExactly(t.model, msg);
    if IssueBegin in Update(t.model, msg).1 {
      OnwardIsEarned(t, msg);
      BeginIsEarned(t, msg);
      var past := Follow(start, all).past;
      SelectionHappened(start, all, past.chosen.value);
      GrantHappened(start, all, past.granted.value);
    }
  }

  lemma BeginIsEarned(t: Trail, msg: Msg)
    requires Earned(t) && Earned(Onward(t, msg)) && IssueBegin in Update(t.model, msg).1
    ensures var p := Onward(t, msg).past;
            && p.chosen == Some(Update(t.model, msg).0.removal) && p.granted.Some?
            && (!t.model.deps.refresher ==> p.settled && p.granted == p.chosen)
  {
    hide Update, Remembered;
    BeginsExactly(t.model, msg);
    if Grants(t.model, msg) {
      GrantIsRemembered(t, msg);
    }
  }

  // ------------------------------------------------------------ witness

  /** From anywhere to the confirmation of a backup. */
  const SET_UP: seq<Msg> :=
    [DetectionCompleted({Migrate}), ContextActionSelected(Migrate), EnvironmentSelected(true), MigrationAuthenticated(true),
     BackupPreflighted(true)]

  /** From there to the choice of a disposition. */
  const BACK_UP: seq<Msg> := [BackupConfirmed, BackupCompleted(true), Pressed(Enter)]

  /** A first hand-over, a second one whose authorization is never answered, and a third
      that selects a removal without confirming it. */
  const STALE: seq<Msg> :=
    SET_UP + BACK_UP + [DispositionSelected(true, false), AuthorizationRefreshed(true), QuiescenceCompleted(Some(1), true)]
    + SET_UP + BACK_UP + [DispositionSelected(true, false)]
    + SET_UP + BACK_UP + [DispositionSelected(true, true), PullComplete, AuthorizationChecked(false)]

  lemma {:induction false} FollowTwo(t: Trail, first: seq<Msg>, second: seq<Msg>)
    ensures Follow(t, first + second) == Follow(Follow(t, first), second)
    decreases |first|
  {
    hide Update, Remembered;
    if first == [] {
      assert first + second == second;
    } else {
      assert (first + second)[1..] == first[1..] + second;
      FollowTwo(Onward(t, first[0]), first[1..], second);
    }
  }

  lemma FollowOne(t: Trail, msg: Msg)
    ensures Follow(t, [msg]) == Onward(t, msg)
  {
    hide Update, Remembered;
    assert Follow(Onward(t, msg), []) == Onward(t, msg);
  }

  lemma TransitionMoves(t: Trail, msg: Msg)
    requires !msg.Pressed? && Transition(t.model, msg).Some?
    ensures Onward(t, msg) == Trail(Transition(t.model, msg).value.0, Remembered(t.past, t.model, msg))
  {
    hide Transition, Remembered;
  }

  lemma Detects(t: Trail)
    requires Capable(t.model.deps)
    ensures Onward(Onward(t, DetectionCompleted({Migrate})), ContextActionSelected(Migrate)) ==
            t.(model := t.model.(actions := {Migrate}, state := StateMigrationEnv))
  {
    hide Onward;
    TransitionMoves(t, DetectionCompleted({Migrate}));
    TransitionMoves(Onward(t, DetectionCompleted({Migrate})), ContextActionSelected(Migrate));
  }

  lemma Authenticates(t: Trail)
    requires t.model.state.StateMigrationEnv?
    ensures Onward(Onward(Onward(t, EnvironmentSelected(true)), MigrationAuthenticated(true)), BackupPreflighted(true)) ==
            t.(model := t.model.(state := StateBackupConfirm))
  {
    hide Onward;
    TransitionMoves(t, EnvironmentSelected(true));
    var t1 := Onward(t, EnvironmentSelected(true));
    TransitionMoves(t1, MigrationAuthenticated(true));
    TransitionMoves(Onward(t1, MigrationAuthenticated(true)), BackupPreflighted(true));
  }

  lemma FollowThree(t: Trail, a: Msg, b: Msg, c: Msg)
    ensures Follow(t, [a, b, c]) == Onward(Onward(Onward(t, a), b), c)
  {
    hide Onward;
    assert [a, b, c] == [a] + ([b] + [c]);
    FollowTwo(t, [a], [b] + [c]);
    FollowOne(t, a);
    FollowTwo(Onward(t, a), [b], [c]);
    FollowOne(Onward(t, a), b);
    FollowOne(Onward(Onward(t, a), b), c);
  }

  lemma SetUpAndBackUp(t: Trail)
    requires Capable(t.model.deps)
    ensures Follow(t, SET_UP + BACK_UP) ==
            Trail(t.model.(actions := {Migrate}, backupCancel := false, state := StateMigrationDisposition), t.past.(backedUp := true))
  {
    hide Onward, Follow;
    var a, b := DetectionCompleted({Migrate}), ContextActionSelected(Migrate);
    var c, d, e := EnvironmentSelected(true), MigrationAuthenticated(true), BackupPreflighted(true);
    Detects(t);
    var t2 := Onward(Onward(t, a), b);
    Authenticates(t2);
    var t5 := Onward(Onward(Onward(t2, c), d), e);
    assert SET_UP + BACK_UP == [a] + ([b] + ([c, d, e] + BACK_UP));
    FollowTwo(t, [a], [b] + ([c, d, e] + BACK_UP));
    FollowOne(t, a);
    FollowTwo(Onward(t, a), [b], [c, d, e] + BACK_UP);
    FollowOne(Onward(t, a), b);
    FollowTwo(t2, [c, d, e], BACK_UP);
    FollowThree(t2, c, d, e);
    FollowThree(t5, BackupConfirmed, BackupCompleted(true), Pressed(Enter));
    BacksUp(t5);
  }

  lemma BacksUp(t: Trail)
    requires t.model.state.StateBackupConfirm? && Capable(t.model.deps)
    ensures Onward(Onward(Onward(t, BackupConfirmed), BackupCompleted(true)), Pressed(Enter)) ==
            Trail(t.model.(backupCancel := false, state := StateMigrationDisposition), t.past.(backedUp := true))
  {
    hide Onward;
    TransitionMoves(t, BackupConfirmed);
    var t1 := Onward(t, BackupConfirmed);
    TransitionMoves(t1, BackupCompleted(true));
    EnterMoves(Onward(t1, BackupCompleted(true)));
  }

  lemma EnterMoves(t: Trail)
    requires t.model.state.StateMigrationConfirm?
    ensures Onward(t, Pressed(Enter)) == t.(model := t.model.(state := StateMigrationDisposition))
  {
  }

  lemma FirstHandOver(t: Trail)
    requires t.model.state.StateMigrationDisposition? && t.model.deps.handoff && t.model.deps.refresher
    requires t.past.backedUp && !t.model.recoveryAuthPending
    ensures var t' := Follow(t, [DispositionSelected(true, false), AuthorizationRefreshed(true), QuiescenceCompleted(Some(1), true)]);
            && Live(t'.model) && t'.model.deps == t.model.deps && !t'.model.recoveryAuthPending
  {
    hide Onward, Follow, Selected, Authenticated, Classified, Bootstrapped, BackedUp, ConfirmBackup, Checked, Restored, Installed, InstallFailed,
         GivenUp, Recovered, Succeeded;
    var a, b, c := DispositionSelected(true, false), AuthorizationRefreshed(true), QuiescenceCompleted(Some(1), true);
    FollowThree(t, a, b, c);
    TransitionMoves(t, a);
    TransitionMoves(Onward(t, a), b);
    TransitionMoves(Onward(Onward(t, a), b), c);
  }

  lemma LeavesGrant(t: Trail)
    requires t.model.state.StateMigrationDisposition? && t.model.deps.refresher && t.past.backedUp
    ensures Follow(t, [DispositionSelected(true, false)]) ==
            Trail(t.model.(removal := false, quiescenceAuthPending := true, state := StateMigrationAuthRefresh),
                  Past(true, Some(false), Some(false), true))
  {
    hide Onward, Follow;
    FollowOne(t, DispositionSelected(true, false));
    TransitionMoves(t, DispositionSelected(true, false));
  }

  lemma TakesStaleGrant(t: Trail)
    requires t.model.state.StateMigrationDisposition? && t.model.deps.refresher && t.past.backedUp && Live(t.model)
    requires t.model.quiescenceAuthPending && !t.model.recoveryAuthPending
    ensures var t' := Follow(t, [DispositionSelected(true, true), PullComplete, AuthorizationChecked(false)]);
            && t'.model.removal && t'.past.chosen == Some(true) && !t'.past.settled
            && IssueBegin in Update(t'.model, AuthorizationRefreshed(true)).1
  {
    hide Onward, Follow, Grants, Selected, Authenticated, Classified, Bootstrapped, BackedUp, ConfirmBackup, Refreshed, Restored, Installed,
         InstallFailed, GivenUp, Recovered, Succeeded, HandedOver;
    var a, b, c := DispositionSelected(true, true), PullComplete, AuthorizationChecked(false);
    FollowThree(t, a, b, c);
    TransitionMoves(t, a);
    TransitionMoves(Onward(t, a), b);
    TransitionMoves(Onward(Onward(t, a), b), c);
    BeginsExactly(Onward(Onward(Onward(t, a), b), c).model, AuthorizationRefreshed(true));
  }

  /** With a refresher, an authorization that was asked for an earlier selection and
      not answered serves a removal that was selected later and never confirmed. */
  lemma StaleGrantHandsOver(env: Env)
    ensures var t := Follow(Beginning(Deps(true, false, true, true, true, true), env), STALE);
            && IssueBegin in Update(t.model, AuthorizationRefreshed(true)).1
            && t.model.removal && t.past.chosen == Some(true) && !t.past.settled
  {
    hide Onward, Follow, Update;
    var t := Beginning(Deps(true, false, true, true, true, true), env);
    var one := [DispositionSelected(true, false), AuthorizationRefreshed(true), QuiescenceCompleted(Some(1), true)];
    var two, three := [DispositionSelected(true, false)], [DispositionSelected(true, true), PullComplete, AuthorizationChecked(false)];
    var round := SET_UP + BACK_UP;
    assert STALE == round + (one + (round + (two + (round + three))));
    FollowTwo(t, round, one + (round + (two + (round + three))));
    SetUpAndBackUp(t);
    var t1 := Follow(t, round);
    FollowTwo(t1, one, round + (two + (round + three)));
    FirstHandOver(t1);
    var t2 := Follow(t1, one);
    FollowTwo(t2, round, two + (round + three));
    SetUpAndBackUp(t2);
    var t3 := Follow(t2, round);
    FollowTwo(t3, two, round + three);
    LeavesGrant(t3);
    var t4 := Follow(t3, two);
    FollowTwo(t4, round, three);
    SetUpAndBackUp(t4);
    TakesStaleGrant(Follow(t4, round));
  }
}
