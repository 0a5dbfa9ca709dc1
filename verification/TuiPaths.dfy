/** The proof that every update of the terminal interface is as the table tells:
    one lemma for each handler, over all models. */
module TuiPaths {
  import opened Basics
  import opened Bootstrap
  import opened Tui
  import opened TuiTable

  // -------------------------------------------- at most one state is led to

  predicate InstallMessage(msg: Msg) {
    || msg.PreflightStarted? || msg.BootstrapSkipped? || msg.BootstrapComplete? || msg.ContextActionSelected?
    || msg.DockerAuthenticated? || msg.PreflightResult? || msg.PreflightPassed? || msg.WorkspaceEntered?
    || msg.PackagesConfirmed? || msg.PortsConfirmed? || msg.EnvWritten? || msg.PullStarted? || msg.HealthTick?
    || msg.DetectionStarted? || msg.DetectionCompleted? || msg.BlockedDismissed? || msg.UpdateCompleted?
  }

  predicate LeaseMessage(msg: Msg) {
    || msg.AuthorizationChecked? || msg.AuthorizationRefreshed? || msg.QuiescenceCompleted? || msg.RecoveryCompleted?
    || msg.SuccessCompleted? || msg.Abandoned? || msg.RestoreCompleted? || msg.InstallSuccess? || msg.InstallFailure?
    || msg.PullComplete? || msg.DeployStarted? || msg.DeployComplete?
  }

  predicate GrantMessage(msg: Msg) {
    msg.Pressed? || msg.DispositionSelected? || msg.RemoveConfirmed?
  }

  lemma OnlyResultsFix(m: Model, msg: Msg)
    ensures Fixes(m, msg) ==> msg.PreflightResult?
  {
  }

  lemma InstallKind(m: Model, msg: Msg, s: State)
    requires LeadsInstall(m, msg, s)
    ensures InstallMessage(msg)
    ensures !(msg.ContextActionSelected? && msg.action.Migrate? && Capable(m.deps))
  {
    hide Fixes, Capable;
    OnlyResultsFix(m, msg);
  }

  lemma BackupKind(m: Model, msg: Msg, s: State)
    requires LeadsBackup(m, msg, s)
    ensures !LeaseMessage(msg) && (InstallMessage(msg) ==> msg.ContextActionSelected? && msg.action.Migrate? && Capable(m.deps))
  {
  }

  lemma LeaseKind(m: Model, msg: Msg, s: State)
    requires LeadsLease(m, msg, s)
    ensures LeaseMessage(msg) || GrantMessage(msg)
  {
    hide Live, Cancellable;
  }

  lemma OnceInstall(m: Model, msg: Msg, s: State, t: State)
    requires LeadsInstall(m, msg, s) && LeadsInstall(m, msg, t)
    ensures s == t
  {
    hide Fixes;
    OnlyResultsFix(m, msg);
  }

  lemma OnceBackup(m: Model, msg: Msg, s: State, t: State)
    requires LeadsBackup(m, msg, s) && LeadsBackup(m, msg, t)
    ensures s == t
  {
  }

  /** A refresh answers one thing. */
  lemma OnceAnswered(m: Model, msg: Msg, s: State, t: State)
    requires msg.AuthorizationChecked? || msg.AuthorizationRefreshed?
    requires LeadsLease(m, msg, s) && LeadsLease(m, msg, t)
    ensures s == t
  {
    hide Live, Cancellable;
  }

  lemma OnceGranted(m: Model, msg: Msg, s: State, t: State)
    requires GrantMessage(msg) && LeadsLease(m, msg, s) && LeadsLease(m, msg, t)
    ensures s == t
  {
    hide Live, Cancellable, Capable;
  }

  lemma NoAnswer(m: Model, msg: Msg)
    ensures RefreshAnswer(m, msg).Some? ==> msg.AuthorizationChecked? || msg.AuthorizationRefreshed?
    ensures Grants(m, msg) ==> GrantMessage(msg)
  {
  }

  lemma OnceOtherwise(m: Model, msg: Msg, s: State, t: State)
    requires !GrantMessage(msg) && !msg.AuthorizationChecked? && !msg.AuthorizationRefreshed?
    requires LeadsLease(m, msg, s) && LeadsLease(m, msg, t)
    ensures s == t
  {
    hide Live, Cancellable, RefreshAnswer, Grants;
    NoAnswer(m, msg);
  }

  lemma BackupNotLease(m: Model, msg: Msg, s: State, t: State)
    requires GrantMessage(msg) && LeadsBackup(m, msg, s)
    ensures !LeadsLease(m, msg, t)
  {
    hide Live, Cancellable;
  }

  lemma InstallIsApart(m: Model, msg: Msg, s: State, t: State)
    requires LeadsInstall(m, msg, s)
    ensures !LeadsBackup(m, msg, t) && !LeadsLease(m, msg, t)
  {
    hide LeadsInstall, LeadsBackup, LeadsLease, Capable;
    InstallKind(m, msg, s);
    if LeadsBackup(m, msg, t) {
      BackupKind(m, msg, t);
    }
    if LeadsLease(m, msg, t) {
      LeaseKind(m, msg, t);
    }
  }

  lemma BackupIsApart(m: Model, msg: Msg, s: State, t: State)
    requires LeadsBackup(m, msg, s)
    ensures !LeadsLease(m, msg, t)
  {
    hide LeadsBackup, LeadsLease;
    BackupKind(m, msg, s);
    if LeadsLease(m, msg, t) {
      LeaseKind(m, msg, t);
      BackupNotLease(m, msg, s, t);
    }
  }

  lemma OnceLease(m: Model, msg: Msg, s: State, t: State)
    requires LeadsLease(m, msg, s) && LeadsLease(m, msg, t)
    ensures s == t
  {
    hide LeadsLease;
    if GrantMessage(msg) {
      OnceGranted(m, msg, s, t);
    } else if msg.AuthorizationChecked? || msg.AuthorizationRefreshed? {
      OnceAnswered(m, msg, s, t);
    } else {
      OnceOtherwise(m, msg, s, t);
    }
  }

  /** A message leads to at most one state. */
  lemma LeadsOnce(m: Model, msg: Msg, s: State)
    requires Leads(m, msg, s)
    ensures forall t :: Leads(m, msg, t) ==> t == s
  {
    hide LeadsInstall, LeadsBackup, LeadsLease;
    forall t | Leads(m, msg, t) ensures t == s {
      if LeadsInstall(m, msg, s) {
        InstallIsApart(m, msg, s, t);
        OnceInstall(m, msg, s, t);
      } else if LeadsBackup(m, msg, s) {
        BackupIsApart(m, msg, s, t);
        if LeadsInstall(m, msg, t) {
          InstallIsApart(m, msg, t, s);
        }
        OnceBackup(m, msg, s, t);
      } else {
        if LeadsInstall(m, msg, t) {
          InstallIsApart(m, msg, t, s);
        } else if LeadsBackup(m, msg, t) {
          BackupIsApart(m, msg, t, s);
        }
        OnceLease(m, msg, s, t);
      }
    }
  }

  // --------------------------------------------------- ways to be as told

  /** The message changes no field but the state and the bootstrap screen. */
  predicate PlainRest(m: Model, msg: Msg) {
    && !Delivered(m, msg) && !Finishes(m, msg) && !Grants(m, msg) && RefreshAnswer(m, msg).None? && !RecoveryAsked(m, msg)
    && !Selects(m, msg) && !StartsBackup(m, msg) && !(m.state.StateBackupRunning? && msg.BackupCompleted?)
    && !StartsRestore(m, msg) && !(m.state.StateDatabaseRestore? && msg.RestoreCompleted?)
    && !(m.state.StateMigrationQuiescence? && msg.QuiescenceCompleted?)
    && !((Chosen(m, msg, Install) || Chosen(m, msg, Update_)) && m.deps.dockerAuthenticator)
    && !msg.DetectionCompleted? && !msg.PackagesConfirmed? && !msg.BootstrapComplete?
  }

  /** Nor does it change the screen. */
  ghost predicate Plain(m: Model, msg: Msg) {
    PlainRest(m, msg) && !Fixes(m, msg) && !Screens(m, msg)
  }

  /** It issues no completion, no hand-over and no quit. */
  predicate Quietly(m: Model, msg: Msg) {
    !Begins(m, msg) && !(Live(m) && RecoveryAnswered(m, msg)) && !(Live(m) && msg.InstallSuccess?) && !Quits(m, msg)
  }

  lemma PlainLease(m: Model, msg: Msg, n: Model)
    requires PlainRest(m, msg) && n == m.(state := n.state, screen := n.screen)
    ensures LeaseTold(m, msg, n)
  {
    hide Delivered, Finishes, Grants, RefreshAnswer, RecoveryAsked, Selects;
  }

  lemma PlainCancels(m: Model, msg: Msg, n: Model)
    requires PlainRest(m, msg) && n == m.(state := n.state, screen := n.screen)
    ensures CancelsTold(m, msg, n)
  {
    hide Delivered, Finishes, Grants, RefreshAnswer, RecoveryAsked, Selects, StartsBackup, StartsRestore;
  }

  lemma PlainChoices(m: Model, msg: Msg, n: Model)
    requires PlainRest(m, msg) && n == m.(state := n.state, screen := n.screen)
    ensures ChoicesTold(m, msg, n)
  {
    hide Delivered, Finishes, Grants, RefreshAnswer, RecoveryAsked, Selects, StartsBackup, StartsRestore, Chosen;
  }

  lemma PlainPorts(m: Model, msg: Msg, n: Model)
    requires PlainRest(m, msg) && n == m.(state := n.state, screen := n.screen)
    ensures PortsTold(m, msg, n)
  {
    hide Delivered, Finishes, Grants, RefreshAnswer, RecoveryAsked, Selects, StartsBackup, StartsRestore, Chosen;
  }

  lemma PlainScreen(m: Model, msg: Msg, n: Model)
    requires Plain(m, msg) && n.screen == m.screen
    ensures ScreenTold(m, msg, n)
  {
    hide PlainRest, Fixes, Screens;
  }

  lemma PlainFields(m: Model, msg: Msg, n: Model)
    requires PlainRest(m, msg) && ScreenTold(m, msg, n) && n == m.(state := n.state, screen := n.screen)
    ensures FieldsTold(m, msg, n)
  {
    hide PlainRest, LeaseTold, CancelsTold, ChoicesTold, PortsTold, ScreenTold;
    PlainLease(m, msg, n);
    PlainCancels(m, msg, n);
    PlainChoices(m, msg, n);
    PlainPorts(m, msg, n);
  }

  lemma QuietCommands(m: Model, msg: Msg, n: Model, cmds: seq<Cmd>)
    requires Quietly(m, msg) && (cmds == [Work] || (cmds == [] && (n.state == m.state || !NeedsWork(n.state))))
    ensures CommandsTold(m, msg, n, cmds)
  {
    hide Begins, RecoveryAnswered, Quits, Live;
  }

  lemma LedTo(m: Model, msg: Msg, n: Model)
    requires Leads(m, msg, n.state)
    ensures StateTold(m, msg, n)
  {
    hide Leads;
    LeadsOnce(m, msg, n.state);
  }

  lemma GoesOn(m: Model, msg: Msg, n: Model, cmds: seq<Cmd>)
    requires PlainRest(m, msg) && ScreenTold(m, msg, n) && Quietly(m, msg) && Leads(m, msg, n.state)
    requires n == m.(state := n.state, screen := n.screen)
    requires cmds == [Work] || (cmds == [] && !NeedsWork(n.state))
    ensures Told(m, msg, (n, cmds))
  {
    hide PlainRest, ScreenTold, Quietly, Leads, NeedsWork, StateTold, CommandsTold, FieldsTold;
    PlainFields(m, msg, n);
    QuietCommands(m, msg, n, cmds);
    LedTo(m, msg, n);
  }

  lemma Goes(m: Model, msg: Msg, n: Model, cmds: seq<Cmd>)
    requires Plain(m, msg) && Quietly(m, msg) && Leads(m, msg, n.state) && n == m.(state := n.state)
    requires cmds == [Work] || (cmds == [] && !NeedsWork(n.state))
    ensures Told(m, msg, (n, cmds))
  {
    hide PlainRest, Fixes, Screens, ScreenTold, Quietly, Leads, NeedsWork, Told;
    PlainScreen(m, msg, n);
    GoesOn(m, msg, n, cmds);
  }

  lemma Stays(m: Model, msg: Msg, n: Model, cmds: seq<Cmd>)
    requires PlainRest(m, msg) && ScreenTold(m, msg, n) && (forall t :: !Leads(m, msg, t))
    requires n == m.(screen := n.screen)
    requires CommandsTold(m, msg, n, cmds)
    ensures Told(m, msg, (n, cmds))
  {
    hide PlainRest, ScreenTold, Leads, CommandsTold, FieldsTold;
    PlainFields(m, msg, n);
  }

  lemma StaysQuietly(m: Model, msg: Msg, cmds: seq<Cmd>)
    requires Plain(m, msg) && Quietly(m, msg) && (forall t :: !Leads(m, msg, t)) && (cmds == [] || cmds == [Work])
    ensures Told(m, msg, (m, cmds))
  {
    hide PlainRest, Fixes, Screens, ScreenTold, Quietly, Leads, Told, CommandsTold, NeedsWork;
    PlainScreen(m, msg, m);
    QuietCommands(m, msg, m, cmds);
    Stays(m, msg, m, cmds);
  }

  predicate PlainMessage(msg: Msg) {
    || msg.DetectionStarted? || msg.DockerAuthenticated? || msg.UpdateCompleted? || msg.BlockedDismissed?
    || msg.PreflightStarted? || msg.PreflightResult? || msg.BootstrapSkipped? || msg.PreflightPassed? || msg.WorkspaceEntered?
    || msg.PortsConfirmed? || msg.EnvWritten? || msg.PullStarted? || msg.HealthTick? || msg.EnvironmentSelected?
    || msg.MigrationAuthenticated? || msg.BackupPreflighted? || msg.PullComplete? || msg.DeployStarted? || msg.OtherMsg?
  }

  lemma PlainMessages(m: Model, msg: Msg)
    requires PlainMessage(msg)
    ensures PlainRest(m, msg)
    ensures Quietly(m, msg)
    ensures Fixes(m, msg) || Plain(m, msg)
  {
    hide Live, Fixes;
  }

  /** A message that is no result of the checks needs only its other parts. */
  lemma PlainHere(m: Model, msg: Msg)
    requires PlainRest(m, msg) && !msg.PreflightResult? && !Screens(m, msg)
    ensures Plain(m, msg)
  {
    hide PlainRest, Screens;
  }

  // ------------------------------------------------ installation messages

  /** The messages that move on from anywhere to a fixed state. */
  lemma MovesTold(m: Model, msg: Msg, s: State, cmds: seq<Cmd>)
    requires match s
             case StateDetecting => msg.DetectionStarted? && cmds == [Work]
             case StateActionResult => msg.UpdateCompleted? && cmds == []
             case StateContextMenu => msg.BlockedDismissed? && cmds == []
             case StatePreflight => (msg.PreflightStarted? && cmds == [Work]) || (msg.BootstrapSkipped? && cmds == [])
             case StateWorkspaceInput => msg.PreflightPassed? && cmds == [Work]
             case StateOptionalPackages => msg.WorkspaceEntered? && cmds == [Work]
             case StateEnvWrite => msg.PortsConfirmed? && cmds == [Work]
             case StatePull => (msg.PullStarted? || (msg.EnvWritten? && !m.asterisk)) && cmds == [Work]
             case StateAsteriskSetup => msg.EnvWritten? && m.asterisk && cmds == [Work]
             case StateVerify => msg.HealthTick? && m.state.StateDeploy? && cmds == [Work]
             case StateDeploy => msg.DeployStarted? && cmds == [Work]
             case StateMigrationAuthCheck => msg.PullComplete? && Live(m) && cmds == [Work]
             case _ => false
    ensures Told(m, msg, (m.(state := s), cmds))
  {
    hide Plain, Quietly, Told, Live;
    PlainMessages(m, msg);
    OnlyResultsFix(m, msg);
    assert Leads(m, msg, s);
    Goes(m, msg, m.(state := s), cmds);
  }

  lemma SelectedTold(m: Model, action: ContextAction)
    ensures Told(m, ContextActionSelected(action), Selected(m, action))
  {
    hide Plain, Quietly, Told, LeadsInstall, LeadsBackup, LeadsLease, Capable;
    var msg := ContextActionSelected(action);
    SelectionIsPlain(m, action);
    SelectionLeads(m, action);
    if !m.state.StateContextMenu? || action !in m.actions {
      StaysQuietly(m, msg, []);
    } else if action.Uninstall? || (action.Migrate? && !Capable(m.deps)) {
      Goes(m, msg, m.(state := StateBlockedOperation), []);
    } else if action.Migrate? {
      Goes(m, msg, m.(state := StateMigrationEnv), []);
    } else if m.deps.dockerAuthenticator {
      DockerTold(m, action);
    } else {
      Goes(m, msg, m.(state := if action.Install? then StatePreflight else StateUpdating), [Work]);
    }
  }

  lemma Combined(m: Model, msg: Msg, n: Model, cmds: seq<Cmd>)
    requires StateTold(m, msg, n) && CommandsTold(m, msg, n, cmds) && FieldsTold(m, msg, n)
    ensures Told(m, msg, (n, cmds))
  {
    hide StateTold, CommandsTold, FieldsTold;
  }

  lemma DockerTold(m: Model, action: ContextAction)
    requires m.state.StateContextMenu? && action in m.actions && m.deps.dockerAuthenticator && (action.Install? || action.Update_?)
    ensures Told(m, ContextActionSelected(action), (m.(dockerAction := action, state := StateDockerAuth), [Work]))
  {
    hide Plain, Quietly, Told, Live, StateTold, FieldsTold, CommandsTold, LeadsBackup, LeadsLease;
    var msg, n := ContextActionSelected(action), m.(dockerAction := action, state := StateDockerAuth);
    assert LeadsInstall(m, msg, StateDockerAuth);
    LedTo(m, msg, n);
    DockerFields(m, action, n);
    SelectionIsPlain(m, action);
    QuietCommands(m, msg, n, [Work]);
    Combined(m, msg, n, [Work]);
  }

  lemma SelectionIsPlain(m: Model, action: ContextAction)
    ensures Quietly(m, ContextActionSelected(action))
    ensures (m.state.StateContextMenu? && action in m.actions && m.deps.dockerAuthenticator && !action.Uninstall? && !action.Migrate?)
            || Plain(m, ContextActionSelected(action))
  {
    hide Live, Fixes;
    OnlyResultsFix(m, ContextActionSelected(action));
  }

  lemma SelectionLeads(m: Model, action: ContextAction)
    ensures var msg := ContextActionSelected(action);
            if !m.state.StateContextMenu? || action !in m.actions then forall t :: !Leads(m, msg, t)
            else
              match action
              case Uninstall => LeadsInstall(m, msg, StateBlockedOperation)
              case Migrate => if Capable(m.deps) then LeadsBackup(m, msg, StateMigrationEnv) else LeadsInstall(m, msg, StateBlockedOperation)
              case Install => m.deps.dockerAuthenticator || LeadsInstall(m, msg, StatePreflight)
              case Update_ => m.deps.dockerAuthenticator || LeadsInstall(m, msg, StateUpdating)
  {
    hide Fixes, Live, Capable;
    OnlyResultsFix(m, ContextActionSelected(action));
  }

  lemma DockerFields(m: Model, action: ContextAction, n: Model)
    requires m.state.StateContextMenu? && action in m.actions && m.deps.dockerAuthenticator && (action.Install? || action.Update_?)
    requires n == m.(dockerAction := action, state := n.state)
    ensures FieldsTold(m, ContextActionSelected(action), n)
  {
    hide LeaseTold, CancelsTold, ChoicesTold, PortsTold, Live;
    DockerParts(m, action, n);
    FieldsAre(m, ContextActionSelected(action), n);
  }

  lemma DockerParts(m: Model, action: ContextAction, n: Model)
    requires m.state.StateContextMenu? && action in m.actions && m.deps.dockerAuthenticator && (action.Install? || action.Update_?)
    requires n == m.(dockerAction := action, state := n.state)
    ensures LeaseTold(m, ContextActionSelected(action), n)
    ensures CancelsTold(m, ContextActionSelected(action), n)
    ensures ChoicesTold(m, ContextActionSelected(action), n)
    ensures PortsTold(m, ContextActionSelected(action), n)
  {
    hide Live;
  }

  lemma AuthenticatedTold(m: Model, ok: bool)
    ensures Told(m, DockerAuthenticated(ok), Authenticated(m, ok))
  {
    hide Plain, Quietly, Told, Live, LeadsBackup, LeadsLease;
    var msg := DockerAuthenticated(ok);
    PlainMessages(m, msg);
    OnlyResultsFix(m, msg);
    if !m.state.StateDockerAuth? || (ok && !m.dockerAction.Install? && !m.dockerAction.Update_?) {
      AuthenticationLeads(m, ok);
      StaysQuietly(m, msg, []);
    } else if !ok {
      assert LeadsInstall(m, msg, StateDockerAuthFailed);
      Goes(m, msg, m.(state := StateDockerAuthFailed), []);
    } else if m.dockerAction.Install? {
      assert LeadsInstall(m, msg, StatePreflight);
      Goes(m, msg, m.(state := StatePreflight), [Work]);
    } else {
      assert LeadsInstall(m, msg, StateUpdating);
      Goes(m, msg, m.(state := StateUpdating), [Work]);
    }
  }

  lemma AuthenticationLeads(m: Model, ok: bool)
    requires !m.state.StateDockerAuth? || (ok && !m.dockerAction.Install? && !m.dockerAction.Update_?)
    ensures forall t :: !Leads(m, DockerAuthenticated(ok), t)
  {
    hide Fixes, Live;
    OnlyResultsFix(m, DockerAuthenticated(ok));
  }

  lemma DetectedTold(m: Model, actions: set<ContextAction>)
    ensures Told(m, DetectionCompleted(actions), To(m.(actions := actions), StateContextMenu))
  {
    hide Told, Live, StateTold, FieldsTold, CommandsTold, LeadsBackup, LeadsLease;
    var msg, n := DetectionCompleted(actions), m.(actions := actions, state := StateContextMenu);
    assert LeadsInstall(m, msg, StateContextMenu);
    LedTo(m, msg, n);
    DetectedParts(m, actions, n);
    FieldsAre(m, msg, n);
    QuietCommands(m, msg, n, []);
    Combined(m, msg, n, []);
  }

  lemma FieldsAre(m: Model, msg: Msg, n: Model)
    requires LeaseTold(m, msg, n) && CancelsTold(m, msg, n) && ChoicesTold(m, msg, n) && PortsTold(m, msg, n)
    requires !msg.PreflightResult? && !Screens(m, msg) && n.screen == m.screen
    ensures FieldsTold(m, msg, n)
  {
    hide LeaseTold, CancelsTold, ChoicesTold, PortsTold, Screens;
    OnlyResultsFix(m, msg);
  }

  lemma DetectedParts(m: Model, actions: set<ContextAction>, n: Model)
    requires n == m.(actions := actions, state := n.state)
    ensures LeaseTold(m, DetectionCompleted(actions), n)
    ensures CancelsTold(m, DetectionCompleted(actions), n)
    ensures ChoicesTold(m, DetectionCompleted(actions), n)
    ensures PortsTold(m, DetectionCompleted(actions), n)
    ensures Quietly(m, DetectionCompleted(actions))
  {
    hide Live;
  }

  lemma PackagesTold(m: Model, asterisk: bool)
    ensures Told(m, PackagesConfirmed(asterisk), Working(m.(asterisk := asterisk), StatePortScan))
  {
    hide Told, Live, StateTold, FieldsTold, CommandsTold, LeadsBackup, LeadsLease;
    var msg, n := PackagesConfirmed(asterisk), m.(asterisk := asterisk, state := StatePortScan);
    assert LeadsInstall(m, msg, StatePortScan);
    LedTo(m, msg, n);
    PackagesParts(m, asterisk, n);
    FieldsAre(m, msg, n);
    QuietCommands(m, msg, n, [Work]);
    Combined(m, msg, n, [Work]);
  }

  lemma PackagesParts(m: Model, asterisk: bool, n: Model)
    requires n == m.(asterisk := asterisk, state := n.state)
    ensures LeaseTold(m, PackagesConfirmed(asterisk), n)
    ensures CancelsTold(m, PackagesConfirmed(asterisk), n)
    ensures ChoicesTold(m, PackagesConfirmed(asterisk), n)
    ensures PortsTold(m, PackagesConfirmed(asterisk), n)
    ensures Quietly(m, PackagesConfirmed(asterisk))
  {
    hide Live;
  }

  lemma BootstrappedTold(m: Model, env: Env)
    ensures Told(m, BootstrapComplete(env), Bootstrapped(m, env))
  {
    hide Told, Live, StateTold, FieldsTold, CommandsTold, LeadsBackup, LeadsLease, Ids;
    var msg := BootstrapComplete(env);
    var n := Bootstrapped(m, env).0;
    assert LeadsInstall(m, msg, StatePreflight);
    LedTo(m, msg, n);
    BootstrappedParts(m, env, n);
    FieldsAre(m, msg, n);
    QuietCommands(m, msg, n, [Work]);
    Combined(m, msg, n, [Work]);
  }

  lemma BootstrappedParts(m: Model, env: Env, n: Model)
    requires n == Bootstrapped(m, env).0
    ensures LeaseTold(m, BootstrapComplete(env), n)
    ensures CancelsTold(m, BootstrapComplete(env), n)
    ensures ChoicesTold(m, BootstrapComplete(env), n)
    ensures PortsTold(m, BootstrapComplete(env), n)
    ensures Quietly(m, BootstrapComplete(env))
  {
    hide Live, Ids;
  }

  lemma ClassifiedTold(m: Model, items: seq<CheckItem>)
    ensures Told(m, PreflightResult(items), Classified(m, items))
  {
    hide PlainRest, Quietly, Told, Live, FreshActions, Fixable, NonFixable, LeadsBackup, LeadsLease, NewScreen;
    var msg := PreflightResult(items);
    PlainMessages(m, msg);
    var untried := FreshActions(Fixable(items, m.env), m.attempted);
    if Fixes(m, msg) {
      var a :| a in Fixable(items, m.env) && a.id !in m.attempted;
      assert a in untried;
      assert LeadsInstall(m, msg, StateBootstrap);
      GoesOn(m, msg, m.(state := StateBootstrap, screen := NewScreen(untried)), []);
    } else {
      assert untried != [] ==> untried[0] in untried;
      ResultLeads(m, items);
      StaysQuietly(m, msg, []);
    }
  }

  lemma ResultLeads(m: Model, items: seq<CheckItem>)
    requires !Fixes(m, PreflightResult(items))
    ensures forall t :: !Leads(m, PreflightResult(items), t)
  {
    hide Fixes, Live;
  }

  // -------------------------------------------------- backup messages

  lemma EnvironmentTold(m: Model, valid: bool)
    ensures Told(m, EnvironmentSelected(valid), if m.state.StateMigrationEnv? && valid then Working(m, StateMigrationAuth) else (m, []))
  {
    hide Plain, Quietly, Told, Live, LeadsInstall, LeadsLease;
    var msg := EnvironmentSelected(valid);
    PlainMessages(m, msg);
    OnlyResultsFix(m, msg);
    if m.state.StateMigrationEnv? && valid {
      assert LeadsBackup(m, msg, StateMigrationAuth);
      Goes(m, msg, m.(state := StateMigrationAuth), [Work]);
    } else {
      SetupLeads(m, msg);
      StaysQuietly(m, msg, []);
    }
  }

  lemma SetupLeads(m: Model, msg: Msg)
    requires || (msg.EnvironmentSelected? && !(m.state.StateMigrationEnv? && msg.valid))
             || (msg.MigrationAuthenticated? && !m.state.StateMigrationAuth?)
             || (msg.BackupPreflighted? && !m.state.StateBackupPreflight?)
             || (msg.BackupConfirmed? && !(m.state.StateBackupConfirm? && m.deps.backupAction))
             || (msg.BackupCompleted? && !m.state.StateBackupRunning?)
    ensures forall t :: !Leads(m, msg, t)
  {
    hide Fixes, Live;
    OnlyResultsFix(m, msg);
  }

  lemma LoggedInTold(m: Model, ok: bool)
    ensures Told(m, MigrationAuthenticated(ok),
                 if !m.state.StateMigrationAuth? then (m, [])
                 else if ok then Working(m, StateBackupPreflight) else To(m, StateMigrationAuthFailed))
  {
    hide Plain, Quietly, Told, Live, LeadsInstall, LeadsLease;
    var msg := MigrationAuthenticated(ok);
    PlainMessages(m, msg);
    OnlyResultsFix(m, msg);
    if !m.state.StateMigrationAuth? {
      SetupLeads(m, msg);
      StaysQuietly(m, msg, []);
    } else if ok {
      assert LeadsBackup(m, msg, StateBackupPreflight);
      Goes(m, msg, m.(state := StateBackupPreflight), [Work]);
    } else {
      assert LeadsBackup(m, msg, StateMigrationAuthFailed);
      Goes(m, msg, m.(state := StateMigrationAuthFailed), []);
    }
  }

  lemma PreflightedTold(m: Model, ok: bool)
    ensures Told(m, BackupPreflighted(ok),
                 if !m.state.StateBackupPreflight? then (m, []) else To(m, if ok then StateBackupConfirm else StateBackupResult))
  {
    hide Plain, Quietly, Told, Live, LeadsInstall, LeadsLease;
    var msg := BackupPreflighted(ok);
    PlainMessages(m, msg);
    OnlyResultsFix(m, msg);
    if !m.state.StateBackupPreflight? {
      SetupLeads(m, msg);
      StaysQuietly(m, msg, []);
    } else {
      var s := if ok then StateBackupConfirm else StateBackupResult;
      assert LeadsBackup(m, msg, s);
      Goes(m, msg, m.(state := s), []);
    }
  }

  lemma BackupStartTold(m: Model, msg: Msg)
    requires StartsBackup(m, msg)
    ensures Told(m, msg, ConfirmBackup(m))
  {
    hide Screens, Told, Live, StateTold, FieldsTold, CommandsTold, LeadsInstall, LeadsLease;
    var n := m.(backupCancel := true, state := StateBackupRunning);
    assert LeadsBackup(m, msg, StateBackupRunning);
    LedTo(m, msg, n);
    BackupStartParts(m, msg, n);
    FieldsAre(m, msg, n);
    QuietCommands(m, msg, n, [Work]);
    Combined(m, msg, n, [Work]);
  }

  lemma BackupStartParts(m: Model, msg: Msg, n: Model)
    requires StartsBackup(m, msg) && n == m.(backupCancel := true, state := n.state)
    ensures LeaseTold(m, msg, n)
    ensures CancelsTold(m, msg, n)
    ensures ChoicesTold(m, msg, n)
    ensures PortsTold(m, msg, n)
    ensures !msg.PreflightResult? && !Screens(m, msg)
    ensures Quietly(m, msg)
  {
    hide Live;
  }

  lemma BackupConfirmedTold(m: Model)
    ensures Told(m, BackupConfirmed, ConfirmBackup(m))
  {
    hide Plain, Quietly, Told, Live;
    var msg := BackupConfirmed;
    if StartsBackup(m, msg) {
      BackupStartTold(m, msg);
    } else {
      IdleBackup(m, msg);
      SetupLeads(m, msg);
      StaysQuietly(m, msg, []);
    }
  }

  /** Messages about a backup that is not awaited. */
  lemma IdleBackup(m: Model, msg: Msg)
    requires (msg.BackupConfirmed? && !StartsBackup(m, msg)) || (msg.BackupCompleted? && !m.state.StateBackupRunning?)
    ensures Plain(m, msg)
    ensures Quietly(m, msg)
  {
    hide Live, Fixes;
    OnlyResultsFix(m, msg);
  }

  lemma BackedUpTold(m: Model, validated: bool)
    ensures Told(m, BackupCompleted(validated), BackedUp(m, validated))
  {
    hide Plain, Quietly, Told, Live, LeadsInstall, LeadsBackup, LeadsLease, NeedsWork;
    var msg := BackupCompleted(validated);
    if !m.state.StateBackupRunning? {
      IdleBackup(m, msg);
      SetupLeads(m, msg);
      StaysQuietly(m, msg, []);
    } else {
      BackedUpLeads(m, validated);
      if !validated {
        BackupRan(m, msg, StateBackupResult);
      } else if !m.deps.restoreAction || !m.deps.handoff {
        BackupRan(m, msg, StateMigrationBlocked);
      } else {
        BackupRan(m, msg, StateMigrationConfirm);
      }
    }
  }

  lemma BackedUpLeads(m: Model, validated: bool)
    requires m.state.StateBackupRunning?
    ensures !validated ==> LeadsBackup(m, BackupCompleted(validated), StateBackupResult)
    ensures validated && (!m.deps.restoreAction || !m.deps.handoff) ==> LeadsBackup(m, BackupCompleted(validated), StateMigrationBlocked)
    ensures validated && m.deps.restoreAction && m.deps.handoff ==> LeadsBackup(m, BackupCompleted(validated), StateMigrationConfirm)
    ensures !NeedsWork(StateBackupResult) && !NeedsWork(StateMigrationBlocked) && !NeedsWork(StateMigrationConfirm)
  {
  }

  lemma BackupRan(m: Model, msg: Msg, s: State)
    requires m.state.StateBackupRunning? && msg.BackupCompleted? && LeadsBackup(m, msg, s) && !NeedsWork(s)
    ensures Told(m, msg, (m.(backupCancel := false, state := s), []))
  {
    hide Quietly, Told, Live, StateTold, FieldsTold, CommandsTold, LeadsInstall, LeadsBackup, LeadsLease, NeedsWork;
    var n := m.(backupCancel := false, state := s);
    LedTo(m, msg, n);
    BackedUpParts(m, msg, n);
    FieldsAre(m, msg, n);
    QuietCommands(m, msg, n, []);
    Combined(m, msg, n, []);
  }

  lemma BackedUpParts(m: Model, msg: Msg, n: Model)
    requires m.state.StateBackupRunning? && msg.BackupCompleted? && n == m.(backupCancel := false, state := n.state)
    ensures LeaseTold(m, msg, n)
    ensures CancelsTold(m, msg, n)
    ensures ChoicesTold(m, msg, n)
    ensures PortsTold(m, msg, n)
    ensures Quietly(m, msg)
  {
    hide Live;
  }

  // --------------------------------------------------- lease messages

  lemma AnswerParts(m: Model, msg: Msg, n: Model)
    requires RefreshAnswer(m, msg).Some?
    requires n == m.(state := n.state, recoveryAuthPending := false,
                     quiescenceAuthPending := m.recoveryAuthPending && m.quiescenceAuthPending,
                     quiescenceCancel := m.quiescenceCancel || QuiescenceAnswered(m, msg, true))
    ensures LeaseTold(m, msg, n)
    ensures CancelsTold(m, msg, n)
    ensures ChoicesTold(m, msg, n)
    ensures PortsTold(m, msg, n)
    ensures !msg.PreflightResult? && !Screens(m, msg)
    ensures !Quits(m, msg) && !msg.InstallSuccess?
  {
    hide Live;
  }

  lemma AnswerLeads(m: Model, msg: Msg, ok: bool)
    requires RefreshAnswer(m, msg) == Some(ok)
    ensures m.recoveryAuthPending || (!m.quiescenceAuthPending && !ok) ==>
              RecoveryAnswered(m, msg) && !Begins(m, msg)
              && LeadsLease(m, msg, if Live(m) then StateMigrationRecovery else StateMigrationResult)
    ensures !m.recoveryAuthPending && m.quiescenceAuthPending ==>
              !RecoveryAnswered(m, msg) && (Begins(m, msg) <==> ok)
              && LeadsLease(m, msg, if ok then StateMigrationQuiescence else StateMigrationResult)
    ensures !m.recoveryAuthPending && !m.quiescenceAuthPending && ok ==>
              !RecoveryAnswered(m, msg) && !Begins(m, msg) && LeadsLease(m, msg, StateDeploy)
  {
    hide Live;
  }

  lemma RecoveryCommands(m: Model, msg: Msg, n: Model)
    requires Live(m) && RecoveryAnswered(m, msg) && !Begins(m, msg) && !msg.InstallSuccess? && !Quits(m, msg) && !NeedsWork(n.state)
    ensures CommandsTold(m, msg, n, [IssueFailure(m.lease.value)])
  {
    hide RecoveryAnswered, Begins, Quits;
    assert [IssueFailure(m.lease.value)][0] == IssueFailure(m.lease.value);
  }

  lemma BeginCommands(m: Model, msg: Msg, n: Model)
    requires Begins(m, msg) && !RecoveryAnswered(m, msg) && !msg.InstallSuccess? && !Quits(m, msg) && !NeedsWork(n.state)
    ensures CommandsTold(m, msg, n, [IssueBegin])
  {
    hide RecoveryAnswered, Begins, Quits;
    assert [IssueBegin][0] == IssueBegin;
  }

  /** The model after an answer that leads to `s`. */
  function Answered(m: Model, msg: Msg, s: State): Model {
    m.(state := s, recoveryAuthPending := false,
       quiescenceAuthPending := m.recoveryAuthPending && m.quiescenceAuthPending,
       quiescenceCancel := m.quiescenceCancel || QuiescenceAnswered(m, msg, true))
  }

  lemma AnswerGoes(m: Model, msg: Msg, s: State, cmds: seq<Cmd>)
    requires RefreshAnswer(m, msg).Some? && LeadsLease(m, msg, s) && CommandsTold(m, msg, Answered(m, msg, s), cmds)
    ensures Told(m, msg, (Answered(m, msg, s), cmds))
  {
    hide Screens, Told, StateTold, FieldsTold, CommandsTold, LeadsInstall, LeadsBackup, LeadsLease, RefreshAnswer, LeaseTold, CancelsTold,
         ChoicesTold, PortsTold, Quits, QuiescenceAnswered;
    var n := Answered(m, msg, s);
    AnswerParts(m, msg, n);
    FieldsAre(m, msg, n);
    LedTo(m, msg, n);
    Combined(m, msg, n, cmds);
  }

  /** What `Refreshed` is when the recovery asked, when the hand-over asked, and when
      nobody did. */
  lemma RecoveryAnswerIs(m: Model, msg: Msg, ok: bool)
    requires RefreshAnswer(m, msg) == Some(ok) && m.recoveryAuthPending
    ensures Refreshed(m.(state := StateMigrationAuthRefresh), ok) ==
            if Live(m) then (Answered(m, msg, StateMigrationRecovery), [IssueFailure(m.lease.value)])
            else (Answered(m, msg, StateMigrationResult), [])
  {
    hide RefreshAnswer;
  }

  lemma QuiescenceAnswerIs(m: Model, msg: Msg, ok: bool)
    requires RefreshAnswer(m, msg) == Some(ok) && !m.recoveryAuthPending && m.quiescenceAuthPending
    ensures Refreshed(m.(state := StateMigrationAuthRefresh), ok) ==
            if ok then (Answered(m, msg, StateMigrationQuiescence), [IssueBegin])
            else (Answered(m, msg, StateMigrationResult), [])
  {
    hide RefreshAnswer;
  }

  lemma DeploymentAnswerIs(m: Model, msg: Msg, ok: bool)
    requires RefreshAnswer(m, msg) == Some(ok) && !m.recoveryAuthPending && !m.quiescenceAuthPending
    ensures Refreshed(m.(state := StateMigrationAuthRefresh), ok) ==
            if ok then (Answered(m, msg, StateDeploy), [Work])
            else if Live(m) then (Answered(m, msg, StateMigrationRecovery), [IssueFailure(m.lease.value)])
            else (Answered(m, msg, StateMigrationResult), [])
  {
    hide RefreshAnswer;
  }

  /** An arrived answer, whoever asked. */
  lemma AnswerTold(m: Model, msg: Msg, ok: bool)
    requires RefreshAnswer(m, msg) == Some(ok)
    ensures Told(m, msg, Refreshed(m.(state := StateMigrationAuthRefresh), ok))
  {
    hide Told, CommandsTold, LeadsLease, RefreshAnswer, RecoveryAnswered, Begins, Quits, Answered, Refreshed;
    AnswerLeads(m, msg, ok);
    AnswerIsQuiet(m, msg);
    if m.recoveryAuthPending {
      RecoveryAnswerIs(m, msg, ok);
    } else if m.quiescenceAuthPending {
      QuiescenceAnswerIs(m, msg, ok);
    } else {
      DeploymentAnswerIs(m, msg, ok);
    }
    if m.recoveryAuthPending || (!m.quiescenceAuthPending && !ok) {
      if Live(m) {
        RecoveryCommands(m, msg, Answered(m, msg, StateMigrationRecovery));
        AnswerGoes(m, msg, StateMigrationRecovery, [IssueFailure(m.lease.value)]);
      } else {
        QuietCommands(m, msg, Answered(m, msg, StateMigrationResult), []);
        AnswerGoes(m, msg, StateMigrationResult, []);
      }
    } else if m.quiescenceAuthPending {
      if ok {
        BeginCommands(m, msg, Answered(m, msg, StateMigrationQuiescence));
        AnswerGoes(m, msg, StateMigrationQuiescence, [IssueBegin]);
      } else {
        QuietCommands(m, msg, Answered(m, msg, StateMigrationResult), []);
        AnswerGoes(m, msg, StateMigrationResult, []);
      }
    } else {
      QuietCommands(m, msg, Answered(m, msg, StateDeploy), [Work]);
      AnswerGoes(m, msg, StateDeploy, [Work]);
    }
  }

  lemma AnswerIsQuiet(m: Model, msg: Msg)
    requires RefreshAnswer(m, msg).Some?
    ensures !Quits(m, msg) && !msg.InstallSuccess?
    ensures forall s :: Answered(m, msg, s).state == s
  {
    hide Live;
  }

  lemma RefreshedTold(m: Model, ok: bool)
    ensures Told(m, AuthorizationRefreshed(ok), Refreshed(m, ok))
  {
    hide Plain, Quietly, Told;
    var msg := AuthorizationRefreshed(ok);
    if m.state.StateMigrationAuthRefresh? {
      assert m.(state := StateMigrationAuthRefresh) == m;
      AnswerTold(m, msg, ok);
    } else {
      Unanswered(m, msg);
      StaysQuietly(m, msg, []);
    }
  }

  /** An answer nobody waits for. */
  lemma Unanswered(m: Model, msg: Msg)
    requires (msg.AuthorizationRefreshed? && !m.state.StateMigrationAuthRefresh?) || (msg.AuthorizationChecked? && !m.state.StateMigrationAuthCheck?)
    ensures Plain(m, msg)
    ensures Quietly(m, msg)
    ensures forall t :: !Leads(m, msg, t)
  {
    hide Live, Fixes;
    OnlyResultsFix(m, msg);
  }

  lemma CheckedTold(m: Model, ok: bool)
    ensures Told(m, AuthorizationChecked(ok), Checked(m, ok))
  {
    hide Plain, Quietly, Told, LeadsInstall, LeadsBackup, LeadsLease, Refreshed, Live;
    var msg := AuthorizationChecked(ok);
    if !m.state.StateMigrationAuthCheck? {
      Unanswered(m, msg);
      StaysQuietly(m, msg, []);
    } else if ok || m.deps.refresher {
      CheckLeads(m, ok);
      Goes(m, msg, m.(state := if ok then StateDeploy else StateMigrationAuthRefresh), [Work]);
    } else {
      AnswerTold(m, msg, false);
    }
  }

  lemma CheckLeads(m: Model, ok: bool)
    requires m.state.StateMigrationAuthCheck? && (ok || m.deps.refresher)
    ensures Plain(m, AuthorizationChecked(ok))
    ensures Quietly(m, AuthorizationChecked(ok))
    ensures LeadsLease(m, AuthorizationChecked(ok), if ok then StateDeploy else StateMigrationAuthRefresh)
  {
    hide Live, Fixes;
    OnlyResultsFix(m, AuthorizationChecked(ok));
  }

  /** A message that moves fields but issues nothing. */
  lemma Tells(m: Model, msg: Msg, n: Model, cmds: seq<Cmd>)
    requires LeaseTold(m, msg, n) && CancelsTold(m, msg, n) && ChoicesTold(m, msg, n) && PortsTold(m, msg, n)
    requires !msg.PreflightResult? && !Screens(m, msg) && n.screen == m.screen
    requires Quietly(m, msg) && Leads(m, msg, n.state)
    requires cmds == [Work] || (cmds == [] && !NeedsWork(n.state))
    ensures Told(m, msg, (n, cmds))
  {
    hide Told, StateTold, FieldsTold, CommandsTold, Leads, LeaseTold, CancelsTold, ChoicesTold, PortsTold, Quietly, NeedsWork;
    FieldsAre(m, msg, n);
    LedTo(m, msg, n);
    QuietCommands(m, msg, n, cmds);
    Combined(m, msg, n, cmds);
  }

  lemma DeliveredParts(m: Model, msg: Msg, n: Model)
    requires Delivered(m, msg)
    requires var held := m.(lease := msg.lease, pending := true, quiescenceCancel := false);
             if msg.ok then n == ApplyPortPolicy(held).(state := StatePreflight)
             else if m.deps.handoff then n == held.(restoreCancel := false, recoveryAuthPending := true, state := StateMigrationAuthRefresh)
             else n == held.(state := StateMigrationResult)
    ensures LeaseTold(m, msg, n)
    ensures CancelsTold(m, msg, n)
    ensures ChoicesTold(m, msg, n)
    ensures PortsTold(m, msg, n)
    ensures n.screen == m.screen
    ensures Quietly(m, msg)
    ensures LeadsLease(m, msg, n.state)
  {
  }

  lemma HandedOverTold(m: Model, lease: Option<LeaseId>, ok: bool)
    ensures Told(m, QuiescenceCompleted(lease, ok), HandedOver(m, lease, ok))
  {
    hide Plain, Quietly, Told, HandedOver;
    var msg := QuiescenceCompleted(lease, ok);
    HandedOverIs(m, lease, ok);
    if !m.state.StateMigrationQuiescence? {
      Unexpected(m, msg);
      StaysQuietly(m, msg, []);
    } else if lease.None? {
      RefusedTold(m, msg);
    } else {
      DeliveredTold(m, msg);
    }
  }

  /** The model after a delivery. */
  function Holding(m: Model, msg: Msg): Model
    requires Delivered(m, msg)
  {
    var held := m.(lease := msg.lease, pending := true, quiescenceCancel := false);
    if msg.ok then ApplyPortPolicy(held).(state := StatePreflight)
    else if m.deps.handoff then held.(restoreCancel := false, recoveryAuthPending := true, state := StateMigrationAuthRefresh)
    else held.(state := StateMigrationResult)
  }

  lemma HandedOverIs(m: Model, lease: Option<LeaseId>, ok: bool)
    ensures HandedOver(m, lease, ok) ==
            if !m.state.StateMigrationQuiescence? then (m, [])
            else if lease.None? then (m.(quiescenceCancel := false, state := StateMigrationResult), [])
            else (Holding(m, QuiescenceCompleted(lease, ok)), if ok || m.deps.handoff then [Work] else [])
  {
  }

  lemma DeliveredTold(m: Model, msg: Msg)
    requires Delivered(m, msg)
    ensures Told(m, msg, (Holding(m, msg), if msg.ok || m.deps.handoff then [Work] else []))
  {
    hide Quietly, Told, LeaseTold, CancelsTold, ChoicesTold, PortsTold, LeadsInstall, LeadsBackup, LeadsLease, ApplyPortPolicy;
    DeliveredParts(m, msg, Holding(m, msg));
    Tells(m, msg, Holding(m, msg), if msg.ok || m.deps.handoff then [Work] else []);
  }

  lemma RefusedTold(m: Model, msg: Msg)
    requires m.state.StateMigrationQuiescence? && msg.QuiescenceCompleted? && msg.lease.None?
    ensures Told(m, msg, (m.(quiescenceCancel := false, state := StateMigrationResult), []))
  {
    hide Quietly, Told, LeaseTold, CancelsTold, ChoicesTold, PortsTold, LeadsInstall, LeadsBackup, LeadsLease;
    var n := m.(quiescenceCancel := false, state := StateMigrationResult);
    RefusedParts(m, msg, n);
    Tells(m, msg, n, []);
  }

  lemma RefusedParts(m: Model, msg: Msg, n: Model)
    requires m.state.StateMigrationQuiescence? && msg.QuiescenceCompleted? && msg.lease.None?
    requires n == m.(quiescenceCancel := false, state := StateMigrationResult)
    ensures LeaseTold(m, msg, n)
    ensures CancelsTold(m, msg, n)
    ensures ChoicesTold(m, msg, n)
    ensures PortsTold(m, msg, n)
    ensures Quietly(m, msg)
    ensures LeadsLease(m, msg, n.state)
  {
    hide Live;
  }

  /** Completions nobody waits for. */
  lemma Unexpected(m: Model, msg: Msg)
    requires || (msg.QuiescenceCompleted? && !m.state.StateMigrationQuiescence?)
             || (msg.RecoveryCompleted? && !m.state.StateMigrationRecovery?)
             || (msg.SuccessCompleted? && !m.state.StateMigrationSuccess?)
             || (msg.RestoreCompleted? && !m.state.StateDatabaseRestore?)
    ensures Plain(m, msg)
    ensures Quietly(m, msg)
    ensures forall t :: !Leads(m, msg, t)
  {
    hide Live, Fixes;
    OnlyResultsFix(m, msg);
  }

  lemma FinishParts(m: Model, msg: Msg, n: Model)
    requires Finishes(m, msg) && n == ApplyPortPolicy(m.(lease := None, pending := false)).(state := n.state)
    ensures LeaseTold(m, msg, n)
    ensures CancelsTold(m, msg, n)
    ensures ChoicesTold(m, msg, n)
    ensures PortsTold(m, msg, n)
    ensures n.screen == m.screen
    ensures Quietly(m, msg)
    ensures n.state == (if msg.SuccessCompleted? && msg.ok then StateResult else StateMigrationResult) ==> LeadsLease(m, msg, n.state)
  {
  }

  lemma RecoveredTold(m: Model)
    ensures Told(m, RecoveryCompleted, Recovered(m))
  {
    hide Plain, Quietly, Told, LeaseTold, CancelsTold, ChoicesTold, PortsTold, LeadsInstall, LeadsBackup, LeadsLease, ApplyPortPolicy;
    var n := Recovered(m).0;
    if m.state.StateMigrationRecovery? {
      FinishParts(m, RecoveryCompleted, n);
      Tells(m, RecoveryCompleted, n, []);
    } else {
      Unexpected(m, RecoveryCompleted);
      StaysQuietly(m, RecoveryCompleted, []);
    }
  }

  lemma SucceededTold(m: Model, ok: bool)
    ensures Told(m, SuccessCompleted(ok), Succeeded(m, ok))
  {
    hide Plain, Quietly, Told, LeaseTold, CancelsTold, ChoicesTold, PortsTold, LeadsInstall, LeadsBackup, LeadsLease, ApplyPortPolicy;
    var n := Succeeded(m, ok).0;
    if m.state.StateMigrationSuccess? {
      FinishParts(m, SuccessCompleted(ok), n);
      Tells(m, SuccessCompleted(ok), n, []);
    } else {
      Unexpected(m, SuccessCompleted(ok));
      StaysQuietly(m, SuccessCompleted(ok), []);
    }
  }

  /** The recovery of a live lease is asked for by the operator or by a failure. */
  predicate Recovering(m: Model, msg: Msg) {
    Live(m) && (Interrupts(m, msg) || msg.InstallFailure? || RestoreFails(m, msg))
  }

  lemma RecoveringParts(m: Model, msg: Msg, n: Model)
    requires Recovering(m, msg) && !msg.Pressed?
    requires n == m.(restoreCancel := false, quiescenceCancel := false, recoveryAuthPending := true, state := StateMigrationAuthRefresh)
    ensures LeaseTold(m, msg, n)
    ensures CancelsTold(m, msg, n)
    ensures ChoicesTold(m, msg, n)
    ensures PortsTold(m, msg, n)
    ensures !msg.PreflightResult? && !Screens(m, msg)
    ensures Quietly(m, msg)
    ensures LeadsLease(m, msg, n.state)
  {
    hide Live;
  }

  lemma RecoveringKeys(m: Model, msg: Msg, n: Model)
    requires Recovering(m, msg) && msg.Pressed?
    requires n == m.(restoreCancel := false, quiescenceCancel := false, recoveryAuthPending := true, state := StateMigrationAuthRefresh)
    ensures LeaseTold(m, msg, n)
    ensures CancelsTold(m, msg, n)
    ensures ChoicesTold(m, msg, n)
    ensures PortsTold(m, msg, n)
    ensures !msg.PreflightResult? && !Screens(m, msg)
    ensures Quietly(m, msg)
    ensures LeadsLease(m, msg, n.state)
  {
    hide Live;
  }

  lemma RecoveringTold(m: Model, msg: Msg)
    requires Recovering(m, msg)
    ensures Told(m, msg, BeginRecovery(m))
    ensures BeginRecovery(m.(restoreCancel := false)) == BeginRecovery(m)
  {
    hide Screens, Quietly, Told, LeaseTold, CancelsTold, ChoicesTold, PortsTold, LeadsInstall, LeadsBackup, LeadsLease, Interrupts, RestoreFails;
    var n := BeginRecovery(m).0;
    if msg.Pressed? {
      RecoveringKeys(m, msg, n);
    } else {
      RecoveringParts(m, msg, n);
    }
    Tells(m, msg, n, [Work]);
  }

  lemma RestoredTold(m: Model, ok: bool)
    ensures Told(m, RestoreCompleted(ok), Restored(m, ok))
  {
    hide Plain, Quietly, Told, BeginRecovery, Live;
    var msg := RestoreCompleted(ok);
    if !m.state.StateDatabaseRestore? {
      Unexpected(m, msg);
      StaysQuietly(m, msg, []);
    } else if ok || !Live(m) {
      RestoreIs(m, ok);
      RestoreEnds(m, msg);
    } else {
      RecoveringTold(m, msg);
    }
  }

  lemma RestoreIs(m: Model, ok: bool)
    requires m.state.StateDatabaseRestore? && (ok || !Live(m))
    ensures Restored(m, ok) ==
            (m.(restoreCancel := false, state := if ok then StateDeploy else StateMigrationResult), if ok then [Work] else [])
  {
  }

  lemma RestoreEnds(m: Model, msg: Msg)
    requires m.state.StateDatabaseRestore? && msg.RestoreCompleted? && (msg.ok || !Live(m))
    ensures Told(m, msg, (m.(restoreCancel := false, state := if msg.ok then StateDeploy else StateMigrationResult),
                          if msg.ok then [Work] else []))
  {
    hide Quietly, Told, LeaseTold, CancelsTold, ChoicesTold, PortsTold, LeadsInstall, LeadsBackup, LeadsLease, Live;
    var n := m.(restoreCancel := false, state := if msg.ok then StateDeploy else StateMigrationResult);
    RestoreParts(m, msg, n);
    Tells(m, msg, n, if msg.ok then [Work] else []);
  }

  lemma RestoreParts(m: Model, msg: Msg, n: Model)
    requires m.state.StateDatabaseRestore? && msg.RestoreCompleted? && (msg.ok || !Live(m))
    requires n == m.(restoreCancel := false, state := if msg.ok then StateDeploy else StateMigrationResult)
    ensures LeaseTold(m, msg, n)
    ensures CancelsTold(m, msg, n)
    ensures ChoicesTold(m, msg, n)
    ensures PortsTold(m, msg, n)
    ensures Quietly(m, msg)
    ensures LeadsLease(m, msg, n.state)
  {
    hide Live;
  }

  lemma DeployedTold(m: Model)
    requires m.state.StateDeploy? && m.pending
    ensures Told(m, DeployComplete, Working(m.(restoreCancel := true), StateDatabaseRestore))
  {
    hide Quietly, Told, LeaseTold, CancelsTold, ChoicesTold, PortsTold, LeadsInstall, LeadsBackup, LeadsLease, Live;
    var n := m.(restoreCancel := true, state := StateDatabaseRestore);
    DeployedParts(m, DeployComplete, n);
    Tells(m, DeployComplete, n, [Work]);
  }

  lemma DeployedParts(m: Model, msg: Msg, n: Model)
    requires m.state.StateDeploy? && m.pending && msg.DeployComplete?
    requires n == m.(restoreCancel := true, state := StateDatabaseRestore)
    ensures LeaseTold(m, msg, n)
    ensures CancelsTold(m, msg, n)
    ensures ChoicesTold(m, msg, n)
    ensures PortsTold(m, msg, n)
    ensures Quietly(m, msg)
    ensures LeadsLease(m, msg, n.state)
  {
    hide Live;
  }

  lemma InstallationEnds(m: Model, msg: Msg)
    requires msg.InstallSuccess? || (msg.InstallFailure? && !Live(m))
    ensures Plain(m, msg)
    ensures !Live(m) ==> Quietly(m, msg)
    ensures !Begins(m, msg) && !RecoveryAnswered(m, msg) && !Quits(m, msg)
    ensures LeadsLease(m, msg, if Live(m) then StateMigrationSuccess else StateResult)
  {
    hide Live, Fixes;
    OnlyResultsFix(m, msg);
  }

  lemma InstalledTold(m: Model)
    ensures Told(m, InstallSuccess, Installed(m))
  {
    hide Plain, Quietly, Told, StateTold, CommandsTold, FieldsTold, LeadsInstall, LeadsBackup, LeadsLease, Begins, RecoveryAnswered, Quits;
    var msg := InstallSuccess;
    InstallationEnds(m, msg);
    if Live(m) {
      var n := m.(state := StateMigrationSuccess);
      SuccessCommands(m, msg, n);
      LedTo(m, msg, n);
      PlainScreen(m, msg, n);
      PlainFields(m, msg, n);
      Combined(m, msg, n, [IssueSuccess(m.lease.value)]);
    } else {
      Goes(m, msg, m.(state := StateResult), []);
    }
  }

  lemma SuccessCommands(m: Model, msg: Msg, n: Model)
    requires Live(m) && msg.InstallSuccess? && !RecoveryAnswered(m, msg) && !Begins(m, msg) && !Quits(m, msg) && !NeedsWork(n.state)
    ensures CommandsTold(m, msg, n, [IssueSuccess(m.lease.value)])
  {
    hide RecoveryAnswered, Begins, Quits;
    assert [IssueSuccess(m.lease.value)][0] == IssueSuccess(m.lease.value);
  }

  lemma InstallFailedTold(m: Model)
    ensures Told(m, InstallFailure, InstallFailed(m))
  {
    hide Plain, Quietly, Told, LeadsInstall, LeadsBackup, LeadsLease, BeginRecovery, Live;
    if Live(m) {
      RecoveringTold(m, InstallFailure);
    } else {
      InstallationEnds(m, InstallFailure);
      Goes(m, InstallFailure, m.(state := StateResult), []);
    }
  }

  lemma GivenUpTold(m: Model)
    ensures Told(m, Abandoned, GivenUp(m))
  {
    hide Plain, Quietly, Told, BeginRecovery, Live;
    if Recovering(m, Abandoned) {
      RecoveringTold(m, Abandoned);
    } else {
      NotAbandoned(m, Abandoned);
      StaysQuietly(m, Abandoned, []);
    }
  }

  lemma NotAbandoned(m: Model, msg: Msg)
    requires msg.Abandoned? && !Recovering(m, msg)
    ensures Plain(m, msg)
    ensures Quietly(m, msg)
    ensures forall t :: !Leads(m, msg, t)
  {
    hide Live, Fixes;
    OnlyResultsFix(m, msg);
  }

  // --------------------------------------------------- grants

  /** The model after a grant. */
  function Granted(m: Model): Next {
    if m.deps.refresher then (m.(quiescenceAuthPending := true, state := StateMigrationAuthRefresh), [Work])
    else (m.(quiescenceCancel := true, state := StateMigrationQuiescence), [IssueBegin])
  }

  lemma GrantFields(m: Model, msg: Msg, n: Model)
    requires Grants(m, msg)
    requires n == m.(removal := Confirms(m, msg), quiescenceAuthPending := m.quiescenceAuthPending || m.deps.refresher,
                     quiescenceCancel := m.quiescenceCancel || !m.deps.refresher, state := n.state)
    ensures LeaseTold(m, msg, n)
    ensures CancelsTold(m, msg, n)
    ensures ChoicesTold(m, msg, n)
    ensures PortsTold(m, msg, n)
    ensures !msg.PreflightResult? && !Screens(m, msg)
  {
    hide Grants, Live;
    GrantMeans(m, msg);
  }

  lemma GrantMeans(m: Model, msg: Msg)
    requires Grants(m, msg)
    ensures GrantMessage(msg) && (msg.Pressed? ==> msg.key.Enter?)
    ensures Confirms(m, msg) ==> m.removal && !Selects(m, msg)
    ensures !Confirms(m, msg) ==> Selects(m, msg) && !msg.remove
    ensures !m.state.StateBootstrap? && !m.state.StateBackupConfirm? && !m.state.StateMigrationAuthRefresh? && !m.state.StateMigrationAuthCheck?
  {
  }

  lemma GrantLeads(m: Model, msg: Msg)
    requires Grants(m, msg)
    ensures LeadsLease(m, msg, if m.deps.refresher then StateMigrationAuthRefresh else StateMigrationQuiescence)
    ensures Begins(m, msg) <==> !m.deps.refresher
    ensures !RecoveryAnswered(m, msg) && !Quits(m, msg) && !msg.InstallSuccess?
  {
    hide Live;
  }

  lemma GrantTold(m: Model, msg: Msg)
    requires Grants(m, msg)
    ensures Told(m, msg, Granted(m.(removal := Confirms(m, msg))))
  {
    hide Told, LeadsLease, Begins, RecoveryAnswered, Quits, Grants, Confirms, CommandsTold;
    GrantLeads(m, msg);
    var n := Granted(m.(removal := Confirms(m, msg))).0;
    if m.deps.refresher {
      QuietCommands(m, msg, n, [Work]);
      GrantGoes(m, msg, n, [Work]);
    } else {
      BeginCommands(m, msg, n);
      GrantGoes(m, msg, n, [IssueBegin]);
    }
  }

  lemma GrantGoes(m: Model, msg: Msg, n: Model, cmds: seq<Cmd>)
    requires Grants(m, msg) && LeadsLease(m, msg, n.state) && CommandsTold(m, msg, n, cmds)
    requires n == m.(removal := Confirms(m, msg), quiescenceAuthPending := m.quiescenceAuthPending || m.deps.refresher,
                     quiescenceCancel := m.quiescenceCancel || !m.deps.refresher, state := n.state)
    ensures Told(m, msg, (n, cmds))
  {
    hide Screens, Told, StateTold, FieldsTold, CommandsTold, LeaseTold, CancelsTold, ChoicesTold, PortsTold, LeadsInstall, LeadsBackup, LeadsLease,
         Grants, Confirms;
    GrantFields(m, msg, n);
    FieldsAre(m, msg, n);
    LedTo(m, msg, n);
    Combined(m, msg, n, cmds);
  }

  lemma DisposedTold(m: Model, valid: bool, remove: bool)
    ensures Told(m, DispositionSelected(valid, remove), Disposed(m, valid, remove))
  {
    hide Plain, Quietly, Told;
    var msg := DispositionSelected(valid, remove);
    if !m.state.StateMigrationDisposition? || !valid {
      Ungranted(m, msg);
      StaysQuietly(m, msg, []);
    } else if remove {
      RemovalAsked(m, msg);
    } else {
      GrantTold(m, msg);
      assert AuthorizeQuiescence(m.(removal := false)) == Granted(m.(removal := false));
    }
  }

  lemma Ungranted(m: Model, msg: Msg)
    requires (msg.DispositionSelected? && !Selects(m, msg)) || (msg.RemoveConfirmed? && !Confirms(m, msg))
    ensures Plain(m, msg)
    ensures Quietly(m, msg)
    ensures forall t :: !Leads(m, msg, t)
  {
    hide Live, Fixes;
    OnlyResultsFix(m, msg);
  }

  lemma RemovalAsked(m: Model, msg: Msg)
    requires Selects(m, msg) && msg.remove
    ensures Told(m, msg, To(m.(removal := true), StateMigrationRemoveConfirm))
  {
    hide Quietly, Told, LeaseTold, CancelsTold, ChoicesTold, PortsTold, LeadsInstall, LeadsLease, Live;
    var n := m.(removal := true, state := StateMigrationRemoveConfirm);
    RemovalParts(m, msg, n);
    Tells(m, msg, n, []);
  }

  lemma RemovalParts(m: Model, msg: Msg, n: Model)
    requires Selects(m, msg) && msg.remove && n == m.(removal := true, state := StateMigrationRemoveConfirm)
    ensures LeaseTold(m, msg, n)
    ensures CancelsTold(m, msg, n)
    ensures ChoicesTold(m, msg, n)
    ensures PortsTold(m, msg, n)
    ensures Quietly(m, msg)
    ensures LeadsBackup(m, msg, n.state)
  {
    hide Live;
  }

  lemma RemoveConfirmedTold(m: Model)
    ensures Told(m, RemoveConfirmed, ConfirmRemoval(m))
  {
    hide Plain, Quietly, Told;
    if Confirms(m, RemoveConfirmed) {
      GrantTold(m, RemoveConfirmed);
      assert m.(removal := true) == m;
    } else {
      Ungranted(m, RemoveConfirmed);
      StaysQuietly(m, RemoveConfirmed, []);
    }
  }

  // --------------------------------------------------- keys and screens

  /** The root takes a key that changes nothing: it cancels work, or is swallowed. */
  predicate Swallows(m: Model, msg: Msg) {
    Global(m, msg) && !Interrupts(m, msg) && !Cancels(m, msg)
  }

  predicate Cancels(m: Model, msg: Msg) {
    (IsEsc(msg) && Confirming(m.state)) || (IsRune(msg, "q") && m.state.StateMigrationConfirm?)
  }

  lemma KeyIs(m: Model, key: Key)
    ensures var msg := Pressed(key);
            && (GlobalKey(m, key).Some? <==> Global(m, msg))
            && (Global(m, msg) ==>
                  GlobalKey(m, key).value ==
                  if Cancels(m, msg) then (m.(state := StateMigrationCancelled), [])
                  else if Swallows(m, msg) then (m, [])
                  else if Live(m) then BeginRecovery(m)
                  else (m, [Quit]))
  {
    hide Live;
  }

  lemma SwallowedLeads(m: Model, msg: Msg)
    requires msg.Pressed? && Swallows(m, msg)
    ensures Plain(m, msg)
    ensures Quietly(m, msg)
    ensures forall t :: !Leads(m, msg, t)
  {
    hide Live, Fixes;
    OnlyResultsFix(m, msg);
  }

  lemma CancelLeads(m: Model, msg: Msg)
    requires Cancels(m, msg)
    ensures Plain(m, msg)
    ensures Quietly(m, msg)
    ensures LeadsBackup(m, msg, StateMigrationCancelled)
  {
    hide Live, Fixes;
    OnlyResultsFix(m, msg);
  }

  lemma QuitLeads(m: Model, msg: Msg)
    requires msg.Pressed? && Global(m, msg) && !Cancels(m, msg) && !Swallows(m, msg) && !Live(m)
    ensures PlainRest(m, msg)
    ensures Plain(m, msg)
    ensures Quits(m, msg) && !Begins(m, msg) && !RecoveryAnswered(m, msg)
    ensures forall t :: !Leads(m, msg, t)
  {
    hide Fixes;
    OnlyResultsFix(m, msg);
  }

  lemma QuitCommands(m: Model, msg: Msg, n: Model)
    requires Quits(m, msg) && !Begins(m, msg) && !RecoveryAnswered(m, msg) && !msg.InstallSuccess? && n.state == m.state
    ensures CommandsTold(m, msg, n, [Quit])
  {
    hide RecoveryAnswered, Begins, Quits;
    assert [Quit][0] == Quit;
  }

  lemma GlobalKeyTold(m: Model, key: Key)
    requires GlobalKey(m, key).Some?
    ensures Told(m, Pressed(key), GlobalKey(m, key).value)
  {
    hide Plain, Quietly, Told, CommandsTold, Leads, LeadsInstall, LeadsBackup, LeadsLease, GlobalKey, BeginRecovery, Live, Global, Cancels, Interrupts,
         Begins, RecoveryAnswered, Quits;
    var msg := Pressed(key);
    KeyIs(m, key);
    if Cancels(m, msg) {
      CancelLeads(m, msg);
      LeadsByBackup(m, msg, StateMigrationCancelled);
      Goes(m, msg, m.(state := StateMigrationCancelled), []);
    } else if Swallows(m, msg) {
      SwallowedLeads(m, msg);
      StaysQuietly(m, msg, []);
    } else if Live(m) {
      RecoveringTold(m, msg);
    } else {
      QuitLeads(m, msg);
      QuitCommands(m, msg, m);
      PlainScreen(m, msg, m);
      Stays(m, msg, m, [Quit]);
    }
  }

  lemma LeadsByBackup(m: Model, msg: Msg, s: State)
    requires LeadsBackup(m, msg, s)
    ensures Leads(m, msg, s)
  {
    hide LeadsInstall, LeadsBackup, LeadsLease;
  }

  /** A message the root neither takes as a key nor as a transition. */
  predicate Passed(m: Model, msg: Msg) {
    || (msg.Pressed? && !Global(m, msg)) || msg.BootstrapAction? || msg.OtherMsg?
    || (msg.PullComplete? && !Live(m)) || (msg.DeployComplete? && !(m.state.StateDeploy? && m.pending))
    || (msg.HealthTick? && !m.state.StateDeploy?)
  }

  lemma PassedLeads(m: Model, msg: Msg)
    requires Passed(m, msg)
    requires IsEnter(msg) ==> !m.state.StateBackupConfirm? && !m.state.StateMigrationConfirm? && !m.state.StateMigrationRemoveConfirm?
    ensures PlainRest(m, msg)
    ensures !Begins(m, msg) && !RecoveryAnswered(m, msg) && !msg.InstallSuccess?
    ensures Quits(m, msg) <==> ScreenQuits(m, msg)
  {
    hide UpdateScreen;
  }

  lemma PassedStays(m: Model, msg: Msg)
    requires Passed(m, msg)
    requires IsEnter(msg) ==> !m.state.StateBackupConfirm? && !m.state.StateMigrationConfirm? && !m.state.StateMigrationRemoveConfirm?
    ensures forall t :: !Leads(m, msg, t)
  {
    hide Fixes, UpdateScreen;
    OnlyResultsFix(m, msg);
  }

  lemma PassedTold(m: Model, msg: Msg, n: Model, cmds: seq<Cmd>)
    requires Passed(m, msg)
    requires IsEnter(msg) ==> !m.state.StateBackupConfirm? && !m.state.StateMigrationConfirm? && !m.state.StateMigrationRemoveConfirm?
    requires n == m.(screen := n.screen) && ScreenTold(m, msg, n)
    requires if ScreenQuits(m, msg) then cmds == [Quit] else cmds == [] || cmds == [Work]
    ensures Told(m, msg, (n, cmds))
  {
    hide PlainRest, ScreenTold, Told, CommandsTold, Leads, ScreenQuits, Quits, Begins, RecoveryAnswered, Passed;
    PassedLeads(m, msg);
    PassedStays(m, msg);
    if ScreenQuits(m, msg) {
      QuitCommands(m, msg, n);
    } else {
      QuietCommands(m, msg, n, cmds);
    }
    Stays(m, msg, n, cmds);
  }

  lemma UnchangedScreen(m: Model, msg: Msg)
    requires Passed(m, msg) && !m.state.StateBootstrap?
    ensures ScreenTold(m, msg, m)
  {
    hide Fixes, UpdateScreen, NewScreen, Live, Global;
    OnlyResultsFix(m, msg);
  }

  lemma BootstrapIs(m: Model, msg: Msg)
    requires m.state.StateBootstrap? && Passed(m, msg)
    ensures var (n, cmds) := OnBootstrap(m, msg);
            && n == m.(screen := n.screen) && ScreenTold(m, msg, n)
            && if ScreenQuits(m, msg) then cmds == [Quit] else cmds == [] || cmds == [Work]
  {
    hide UpdateScreen, Fixes, Live, Global;
    OnlyResultsFix(m, msg);
  }

  lemma ResultIs(m: Model, msg: Msg)
    requires m.state.StateResult?
    ensures var (n, cmds) := OnResult(m, msg);
            && n == m
            && if ScreenQuits(m, msg) then cmds == [Quit] else cmds == [] || cmds == [Work]
  {
    hide UpdateScreen;
  }

  lemma OtherScreenIs(m: Model, msg: Msg)
    requires !m.state.StateBootstrap? && !m.state.StateResult?
    ensures !ScreenQuits(m, msg)
  {
    hide UpdateScreen;
  }

  lemma BootstrapTold(m: Model, msg: Msg)
    requires m.state.StateBootstrap? && Passed(m, msg)
    ensures Told(m, msg, OnBootstrap(m, msg))
  {
    hide ScreenTold, Told, Passed, OnBootstrap, ScreenQuits;
    BootstrapIs(m, msg);
    PassedTold(m, msg, OnBootstrap(m, msg).0, OnBootstrap(m, msg).1);
  }

  lemma UnchangedTold(m: Model, msg: Msg, cmds: seq<Cmd>)
    requires Passed(m, msg) && !m.state.StateBootstrap? && !m.state.StateBackupConfirm? && !Confirming(m.state)
    requires cmds == if m.state.StateResult? then OnResult(m, msg).1 else [Work]
    ensures Told(m, msg, (m, cmds))
  {
    hide ScreenTold, Told, Passed, OnResult, ScreenQuits;
    UnchangedScreen(m, msg);
    if m.state.StateResult? {
      ResultIs(m, msg);
    } else {
      OtherScreenIs(m, msg);
    }
    PassedTold(m, msg, m, cmds);
  }

  /** A disposition is chosen on a screen of its own, which issues its own work. */
  lemma DispositionTold(m: Model, msg: Msg)
    requires Passed(m, msg) && m.state.StateMigrationDisposition?
    ensures Told(m, msg, (m, [Work]))
  {
    hide ScreenTold, Told, Passed, ScreenQuits;
    UnchangedScreen(m, msg);
    OtherScreenIs(m, msg);
    PassedTold(m, msg, m, [Work]);
  }

  lemma DelegateTold(m: Model, msg: Msg)
    requires Passed(m, msg)
    ensures Told(m, msg, Delegate(m, msg))
  {
    hide Told, Passed, OnBootstrap, OnConfirmation;
    if m.state.StateBootstrap? {
      BootstrapTold(m, msg);
    } else if m.state.StateBackupConfirm? || m.state.StateMigrationConfirm? || m.state.StateMigrationRemoveConfirm? {
      ConfirmationTold(m, msg);
    } else if m.state.StateMigrationDisposition? {
      DispositionTold(m, msg);
    } else {
      UnchangedTold(m, msg, Delegate(m, msg).1);
    }
  }

  lemma ConfirmationTold(m: Model, msg: Msg)
    requires Passed(m, msg)
    requires m.state.StateBackupConfirm? || m.state.StateMigrationConfirm? || m.state.StateMigrationRemoveConfirm?
    ensures Told(m, msg, OnConfirmation(m, msg))
  {
    hide Told, Passed, Plain, Quietly, ConfirmBackup, ConfirmRemoval;
    if !IsEnter(msg) {
      UnchangedScreen(m, msg);
      PassedTold(m, msg, m, []);
    } else if m.state.StateMigrationConfirm? {
      EnterLeads(m, msg);
      Goes(m, msg, m.(state := StateMigrationDisposition), []);
    } else if m.state.StateBackupConfirm? {
      EnterBackup(m, msg);
    } else {
      EnterRemoval(m, msg);
    }
  }

  lemma EnterLeads(m: Model, msg: Msg)
    requires IsEnter(msg) && m.state.StateMigrationConfirm?
    ensures Plain(m, msg)
    ensures Quietly(m, msg)
    ensures Leads(m, msg, StateMigrationDisposition)
  {
    hide Live, Fixes;
    OnlyResultsFix(m, msg);
  }

  lemma EnterBackup(m: Model, msg: Msg)
    requires IsEnter(msg) && m.state.StateBackupConfirm?
    ensures Told(m, msg, ConfirmBackup(m))
  {
    hide Told, Plain, Quietly;
    if StartsBackup(m, msg) {
      BackupStartTold(m, msg);
    } else {
      EnterIdle(m, msg);
      StaysQuietly(m, msg, []);
    }
  }

  lemma EnterRemoval(m: Model, msg: Msg)
    requires IsEnter(msg) && m.state.StateMigrationRemoveConfirm?
    ensures Told(m, msg, ConfirmRemoval(m))
  {
    hide Told, Plain, Quietly;
    if Confirms(m, msg) {
      GrantTold(m, msg);
      assert m.(removal := true) == m;
    } else {
      EnterIdle(m, msg);
      StaysQuietly(m, msg, []);
    }
  }

  lemma EnterIdle(m: Model, msg: Msg)
    requires IsEnter(msg)
    requires (m.state.StateBackupConfirm? && !StartsBackup(m, msg)) || (m.state.StateMigrationRemoveConfirm? && !Confirms(m, msg))
    ensures Plain(m, msg)
    ensures Quietly(m, msg)
    ensures forall t :: !Leads(m, msg, t)
  {
    hide Live, Fixes;
    OnlyResultsFix(m, msg);
  }

  // --------------------------------------------------- whole updates

  predicate Fixed(msg: Msg) {
    || msg.DetectionStarted? || msg.UpdateCompleted? || msg.BlockedDismissed? || msg.PreflightStarted? || msg.BootstrapSkipped?
    || msg.PreflightPassed? || msg.WorkspaceEntered? || msg.PortsConfirmed? || msg.PullStarted? || msg.HealthTick? || msg.EnvWritten?
  }

  lemma FixedTransitions(m: Model, msg: Msg)
    requires Fixed(msg) && Transition(m, msg).Some?
    ensures Told(m, msg, Transition(m, msg).value)
  {
    hide Told, Live, Checked, Refreshed, HandedOver, Recovered, Succeeded, GivenUp, Restored, Installed, InstallFailed,
         Selected, Authenticated, Classified, Bootstrapped, Disposed, ConfirmRemoval, ConfirmBackup, BackedUp;
    match msg {
      case DetectionStarted => MovesTold(m, msg, StateDetecting, [Work]);
      case UpdateCompleted => MovesTold(m, msg, StateActionResult, []);
      case BlockedDismissed => MovesTold(m, msg, StateContextMenu, []);
      case PreflightStarted => MovesTold(m, msg, StatePreflight, [Work]);
      case BootstrapSkipped => MovesTold(m, msg, StatePreflight, []);
      case PreflightPassed => MovesTold(m, msg, StateWorkspaceInput, [Work]);
      case WorkspaceEntered => MovesTold(m, msg, StateOptionalPackages, [Work]);
      case PortsConfirmed => MovesTold(m, msg, StateEnvWrite, [Work]);
      case PullStarted => MovesTold(m, msg, StatePull, [Work]);
      case HealthTick => MovesTold(m, msg, StateVerify, [Work]);
      case EnvWritten => MovesTold(m, msg, if m.asterisk then StateAsteriskSetup else StatePull, [Work]);
    }
  }

  lemma InstallTransitions(m: Model, msg: Msg)
    requires InstallMessage(msg) && Transition(m, msg).Some?
    ensures Told(m, msg, Transition(m, msg).value)
  {
    hide Told, Selected, Authenticated, Classified, Bootstrapped, To, Working, Live;
    match msg {
      case ContextActionSelected(action) => SelectedTold(m, action);
      case DockerAuthenticated(ok) => AuthenticatedTold(m, ok);
      case DetectionCompleted(actions) => DetectedTold(m, actions);
      case PreflightResult(items) => ClassifiedTold(m, items);
      case BootstrapComplete(env) => BootstrappedTold(m, env);
      case PackagesConfirmed(asterisk) => PackagesTold(m, asterisk);
      case _ => FixedTransitions(m, msg);
    }
  }

  lemma LeaseTransitions(m: Model, msg: Msg)
    requires LeaseMessage(msg) && Transition(m, msg).Some?
    ensures Told(m, msg, Transition(m, msg).value)
  {
    hide Told, Checked, Refreshed, HandedOver, Recovered, Succeeded, GivenUp, Restored, Installed, InstallFailed, Live,
         Selected, Authenticated, Classified, Bootstrapped, Disposed, ConfirmRemoval, ConfirmBackup, BackedUp;
    match msg {
      case AuthorizationChecked(ok) => CheckedTold(m, ok);
      case AuthorizationRefreshed(ok) => RefreshedTold(m, ok);
      case QuiescenceCompleted(lease, ok) => HandedOverTold(m, lease, ok);
      case RecoveryCompleted => RecoveredTold(m);
      case SuccessCompleted(ok) => SucceededTold(m, ok);
      case Abandoned => GivenUpTold(m);
      case RestoreCompleted(ok) => RestoredTold(m, ok);
      case InstallSuccess => InstalledTold(m);
      case InstallFailure => InstallFailedTold(m);
      case DeployStarted => MovesTold(m, msg, StateDeploy, [Work]);
      case PullComplete => MovesTold(m, msg, StateMigrationAuthCheck, [Work]);
      case DeployComplete => DeployedTold(m);
    }
  }

  lemma BackupTransitions(m: Model, msg: Msg)
    requires !InstallMessage(msg) && !LeaseMessage(msg) && Transition(m, msg).Some?
    ensures Told(m, msg, Transition(m, msg).value)
  {
    hide Told, ConfirmBackup, BackedUp, Disposed, ConfirmRemoval;
    match msg {
      case EnvironmentSelected(valid) => EnvironmentTold(m, valid);
      case MigrationAuthenticated(ok) => LoggedInTold(m, ok);
      case BackupPreflighted(ok) => PreflightedTold(m, ok);
      case BackupConfirmed => BackupConfirmedTold(m);
      case BackupCompleted(validated) => BackedUpTold(m, validated);
      case DispositionSelected(valid, remove) => DisposedTold(m, valid, remove);
      case RemoveConfirmed => RemoveConfirmedTold(m);
    }
  }

  lemma NoTransition(m: Model, msg: Msg)
    requires Transition(m, msg).None?
    requires msg.Pressed? ==> !Global(m, msg)
    ensures Passed(m, msg)
  {
    hide Live, Global;
  }

  /** The whole update: state, commands and fields are as told, for every message in
      every model. */
  lemma UpdateIsTold(m: Model, msg: Msg)
    ensures Told(m, msg, Update(m, msg))
  {
    hide Told, GlobalKey, Transition, Delegate, Global;
    if msg.Pressed? && GlobalKey(m, msg.key).Some? {
      GlobalKeyTold(m, msg.key);
    } else if Transition(m, msg).Some? {
      if InstallMessage(msg) {
        InstallTransitions(m, msg);
      } else if LeaseMessage(msg) {
        LeaseTransitions(m, msg);
      } else {
        BackupTransitions(m, msg);
      }
    } else {
      if msg.Pressed? {
        KeyIs(m, msg.key);
      }
      NoTransition(m, msg);
      DelegateTold(m, msg);
    }
  }

  /** The states that ask for a hand-over, and what leads there. */
  lemma GrantStates(m: Model, msg: Msg)
    ensures Leads(m, msg, StateMigrationConfirm) ==> BackupEnds(m, msg, true) && m.deps.handoff
    ensures Leads(m, msg, StateMigrationDisposition) ==> m.state.StateMigrationConfirm?
    ensures Leads(m, msg, StateMigrationRemoveConfirm) ==> m.state.StateMigrationDisposition? && Selects(m, msg) && msg.remove
  {
    hide LeadsLease;
    LeaseAsksNothing(m, msg);
  }

  lemma LeaseAsksNothing(m: Model, msg: Msg)
    ensures !LeadsLease(m, msg, StateMigrationConfirm) && !LeadsLease(m, msg, StateMigrationDisposition)
    ensures !LeadsLease(m, msg, StateMigrationRemoveConfirm)
  {
  }
}
