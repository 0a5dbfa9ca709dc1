/** The root state machine of the terminal interface
    (internal/tui/model.go, internal/tui/migration_quiescence.go).

    As in the source, an update maps a model and a message to a new model and the
    commands to issue. Messages may arrive in any order whatsoever. Commands matter
    here only as quitting and as completing or beginning a hand-over. */
module Tui {
  import opened Basics
  import opened Bootstrap

  datatype State =
    | StateSplash | StatePreflight | StateBootstrap | StateWorkspaceInput | StateOptionalPackages | StatePortScan
    | StateEnvWrite | StateAsteriskSetup | StatePull | StateDeploy | StateVerify | StateResult | StateDetecting
    | StateContextMenu | StateUpdating | StateBlockedOperation | StateActionResult | StateMigrationEnv
    | StateMigrationAuth | StateMigrationAuthFailed | StateBackupPreflight | StateBackupConfirm | StateBackupRunning
    | StateBackupResult | StateMigrationBlocked | StateDatabaseRestore | StateMigrationResult
    | StateMigrationQuiescence | StateMigrationRecovery | StateMigrationSuccess | StateMigrationConfirm
    | StateMigrationCancelled | StateMigrationDisposition | StateMigrationRemoveConfirm | StateDockerAuth
    | StateDockerAuthFailed | StateMigrationAuthCheck | StateMigrationAuthRefresh

  datatype ContextAction = Install | Update_ | Uninstall | Migrate

  type LeaseId = nat

  datatype Exemptions = Exemptions(tcp: set<int>, udp: set<int>)

  const NO_EXEMPTIONS := Exemptions({}, {})

  /** `MigrationPortExemptions`. */
  const MIGRATION_EXEMPTIONS := Exemptions({6379, 8554, 1935, 8888, 8889, 19530, 9091, 9000, 9001}, {8890, 8189})

  /** Which collaborators are wired in. */
  datatype Deps = Deps(
    handoff: bool, dockerAuthenticator: bool, refresher: bool, backupAction: bool, restoreAction: bool, authenticator: bool)

  /** `hasMigrationCapability`. */
  predicate Capable(deps: Deps) {
    deps.authenticator && deps.backupAction && deps.restoreAction && deps.handoff
  }

  datatype Msg =
    | Pressed(key: Key)
    | DetectionStarted
    | DetectionCompleted(actions: set<ContextAction>)
    | ContextActionSelected(action: ContextAction)
    | DockerAuthenticated(ok: bool)
    | EnvironmentSelected(valid: bool)
    | MigrationAuthenticated(ok: bool)
    | PullComplete
    | AuthorizationChecked(ok: bool)
    | AuthorizationRefreshed(ok: bool)
    | BackupPreflighted(ok: bool)
    | BackupConfirmed
    | BackupCompleted(validated: bool)
    | DispositionSelected(valid: bool, remove: bool)
    | RemoveConfirmed
    | QuiescenceCompleted(lease: Option<LeaseId>, ok: bool)
    | RecoveryCompleted
    | SuccessCompleted(ok: bool)
    | Abandoned
    | UpdateCompleted
    | BlockedDismissed
    | PreflightStarted
    | PreflightResult(items: seq<CheckItem>)
    | BootstrapComplete(env: Env)
    | BootstrapSkipped
    | BootstrapAction(failed: bool)
    | PreflightPassed
    | WorkspaceEntered
    | PackagesConfirmed(asterisk: bool)
    | PortsConfirmed
    | EnvWritten
    | PullStarted
    | DeployStarted
    | DeployComplete
    | RestoreCompleted(ok: bool)
    | HealthTick
    | InstallSuccess
    | InstallFailure
    | OtherMsg

  datatype Cmd = Quit | IssueFailure(lease: LeaseId) | IssueSuccess(lease: LeaseId) | IssueBegin | Work

  datatype Model = Model(
    deps: Deps, state: State, lease: Option<LeaseId>, pending: bool,
    backupCancel: bool, restoreCancel: bool, quiescenceCancel: bool,
    recoveryAuthPending: bool, quiescenceAuthPending: bool, dockerAction: ContextAction, removal: bool,
    actions: set<ContextAction>, asterisk: bool, screen: Screen, env: Env, attempted: set<ActionId>,
    coordinator: Exemptions, preflight: Exemptions, portscan: Exemptions)

  function NewModel(deps: Deps, env: Env): Model {
    Model(deps, StateSplash, None, false, false, false, false, false, false, Install, false, {}, false,
          NewScreen([]), env, {}, NO_EXEMPTIONS, NO_EXEMPTIONS, NO_EXEMPTIONS)
  }

  /** `hasLiveMigrationLease`. */
  predicate Live(m: Model) {
    m.pending && m.lease.Some? && m.deps.handoff
  }

  /** `applyMigrationPortPolicy`. */
  function ApplyPortPolicy(m: Model): Model {
    var exempt := if Live(m) then MIGRATION_EXEMPTIONS else NO_EXEMPTIONS;
    m.(coordinator := exempt, preflight := exempt, portscan := exempt)
  }

  type Next = (Model, seq<Cmd>)

  function To(m: Model, state: State): Next {
    (m.(state := state), [])
  }

  function Working(m: Model, state: State): Next {
    (m.(state := state), [Work])
  }

  // ------------------------------------------------- migration transitions

  /** `beginMigrationRecovery`. */
  function BeginRecovery(m: Model): Next {
    if !Live(m) then To(m, StateMigrationResult)
    else
      Working(m.(restoreCancel := false, quiescenceCancel := false, recoveryAuthPending := true), StateMigrationAuthRefresh)
  }

  /** `beginAuthorizedMigrationRecovery`. */
  function BeginAuthorizedRecovery(m: Model): Next {
    if !Live(m) then To(m, StateMigrationResult)
    else (m.(state := StateMigrationRecovery), [IssueFailure(m.lease.value)])
  }

  /** `beginMigrationQuiescence`. */
  function BeginQuiescence(m: Model): Next {
    (m.(state := StateMigrationQuiescence, quiescenceCancel := true), [IssueBegin])
  }

  /** `authorizeMigrationQuiescence`. */
  function AuthorizeQuiescence(m: Model): Next {
    if !m.deps.refresher then BeginQuiescence(m)
    else Working(m.(quiescenceAuthPending := true), StateMigrationAuthRefresh)
  }

  function Refreshed(m: Model, ok: bool): Next {
    if !m.state.StateMigrationAuthRefresh? then (m, [])
    else if m.recoveryAuthPending then BeginAuthorizedRecovery(m.(recoveryAuthPending := false))
    else if m.quiescenceAuthPending then
      var m1 := m.(quiescenceAuthPending := false);
      if ok then BeginQuiescence(m1) else To(m1, StateMigrationResult)
    else if ok then Working(m, StateDeploy)
    else BeginAuthorizedRecovery(m)
  }

  function Checked(m: Model, ok: bool): Next {
    if !m.state.StateMigrationAuthCheck? then (m, [])
    else if ok then Working(m, StateDeploy)
    else if !m.deps.refresher then Refreshed(m.(state := StateMigrationAuthRefresh), false)
    else Working(m, StateMigrationAuthRefresh)
  }

  function HandedOver(m: Model, lease: Option<LeaseId>, ok: bool): Next {
    if !m.state.StateMigrationQuiescence? then (m, [])
    else
      var m1 := m.(quiescenceCancel := false);
      if lease.None? then To(m1, StateMigrationResult)
      else
        var m2 := m1.(lease := lease, pending := true);
        if !ok then BeginRecovery(m2) else Working(ApplyPortPolicy(m2), StatePreflight)
  }

  function Recovered(m: Model): Next {
    if !m.state.StateMigrationRecovery? then (m, [])
    else To(ApplyPortPolicy(m.(lease := None, pending := false)), StateMigrationResult)
  }

  function Succeeded(m: Model, ok: bool): Next {
    if !m.state.StateMigrationSuccess? then (m, [])
    else To(ApplyPortPolicy(m.(lease := None, pending := false)), if ok then StateResult else StateMigrationResult)
  }

  /** What an abandonment, ctrl-C or `q` does before it may quit. */
  function Interrupted(m: Model): Option<Next> {
    if m.state.StateBackupRunning? && m.backupCancel then Some((m, []))
    else if m.state.StateMigrationQuiescence? && m.quiescenceCancel then Some((m, []))
    else if m.state.StateDatabaseRestore? && m.restoreCancel then Some((m, []))
    else if Live(m) then Some(BeginRecovery(m))
    else None
  }

  /** The key handlers that come before everything else. */
  function GlobalKey(m: Model, key: Key): Option<Next> {
    match key
    case CtrlC =>
      var interrupted := Interrupted(m);
      if interrupted.Some? then interrupted else Some((m, [Quit]))
    case Esc =>
      if m.state.StateBackupRunning? then Some((m, []))
      else if m.state.StateMigrationConfirm? || m.state.StateMigrationDisposition? || m.state.StateMigrationRemoveConfirm? then
        Some(To(m, StateMigrationCancelled))
      else if m.state.StateMigrationQuiescence? && m.quiescenceCancel then Some((m, []))
      else if m.state.StateDatabaseRestore? then Some((m, []))
      else if Live(m) then Some(BeginRecovery(m))
      else if m.state.StateDetecting? || m.state.StateContextMenu? then Some((m, [Quit]))
      else None
    case Rune(text) =>
      if text != "q" then None
      else if m.state.StateMigrationConfirm? then Some(To(m, StateMigrationCancelled))
      else
        var interrupted := Interrupted(m);
        if interrupted.Some? then interrupted
        else if !m.state.StateWorkspaceInput? then Some((m, [Quit]))
        else None
    case _ => None
  }

  // ------------------------------------------------ bootstrap transitions

  function FreshActions(actions: seq<Action>, attempted: set<ActionId>): (r: seq<Action>)
    ensures forall a :: a in r <==> a in actions && a.id !in attempted
  {
    if actions == [] then []
    else (if actions[0].id !in attempted then [actions[0]] else []) + FreshActions(actions[1..], attempted)
  }

  function Ids(actions: seq<Action>): set<ActionId> {
    set a | a in actions :: a.id
  }

  function Classified(m: Model, items: seq<CheckItem>): Next {
    var untried := FreshActions(Fixable(items, m.env), m.attempted);
    if NonFixable(items, m.env) != [] || untried == [] then (m, [])
    else (m.(state := StateBootstrap, screen := NewScreen(untried)), [])
  }

  // ------------------------------------------------------ other transitions

  function Selected(m: Model, action: ContextAction): Next {
    if !m.state.StateContextMenu? || action !in m.actions then (m, [])
    else
      match action
      case Install =>
        if m.deps.dockerAuthenticator then Working(m.(dockerAction := action), StateDockerAuth) else Working(m, StatePreflight)
      case Update_ =>
        if m.deps.dockerAuthenticator then Working(m.(dockerAction := action), StateDockerAuth) else Working(m, StateUpdating)
      case Uninstall => To(m, StateBlockedOperation)
      case Migrate => if Capable(m.deps) then To(m, StateMigrationEnv) else To(m, StateBlockedOperation)
  }

  function Authenticated(m: Model, ok: bool): Next {
    if !m.state.StateDockerAuth? then (m, [])
    else if !ok then To(m, StateDockerAuthFailed)
    else if m.dockerAction.Install? then Working(m, StatePreflight)
    else if m.dockerAction.Update_? then Working(m, StateUpdating)
    else (m, [])
  }

  function ConfirmBackup(m: Model): Next {
    if !m.state.StateBackupConfirm? || !m.deps.backupAction then (m, [])
    else Working(m.(backupCancel := true), StateBackupRunning)
  }

  function BackedUp(m: Model, validated: bool): Next {
    if !m.state.StateBackupRunning? then (m, [])
    else
      var m1 := m.(backupCancel := false);
      if !validated then To(m1, StateBackupResult)
      else if !m.deps.restoreAction || !m.deps.handoff then To(m1, StateMigrationBlocked)
      else To(m1, StateMigrationConfirm)
  }

  function ConfirmRemoval(m: Model): Next {
    if !m.state.StateMigrationRemoveConfirm? || !m.removal then (m, []) else AuthorizeQuiescence(m)
  }

  function Disposed(m: Model, valid: bool, remove: bool): Next {
    if !m.state.StateMigrationDisposition? || !valid then (m, [])
    else
      var m1 := m.(removal := remove);
      if remove then To(m1, StateMigrationRemoveConfirm) else AuthorizeQuiescence(m1)
  }

  function GivenUp(m: Model): Next {
    if m.state.StateMigrationQuiescence? && m.quiescenceCancel then (m, [])
    else if m.state.StateDatabaseRestore? && m.restoreCancel then (m, [])
    else if Live(m) then BeginRecovery(m)
    else (m, [])
  }

  function Restored(m: Model, ok: bool): Next {
    if !m.state.StateDatabaseRestore? then (m, [])
    else if ok then Working(m.(restoreCancel := false), StateDeploy)
    else BeginRecovery(m.(restoreCancel := false))
  }

  function Installed(m: Model): Next {
    if Live(m) then (m.(state := StateMigrationSuccess), [IssueSuccess(m.lease.value)]) else To(m, StateResult)
  }

  function InstallFailed(m: Model): Next {
    if Live(m) then BeginRecovery(m) else To(m, StateResult)
  }

  function Bootstrapped(m: Model, env: Env): Next {
    Working(m.(attempted := m.attempted + Ids(m.screen.actions), env := env), StatePreflight)
  }

  /** The state-transition messages; None hands the message to the active screen. */
  function Transition(m: Model, msg: Msg): Option<Next> {
    match msg
    case DetectionStarted => Some(Working(m, StateDetecting))
    case DetectionCompleted(actions) => Some(To(m.(actions := actions), StateContextMenu))
    case ContextActionSelected(action) => Some(Selected(m, action))
    case DockerAuthenticated(ok) => Some(Authenticated(m, ok))
    case EnvironmentSelected(valid) =>
      Some(if m.state.StateMigrationEnv? && valid then Working(m, StateMigrationAuth) else (m, []))
    case MigrationAuthenticated(ok) =>
      Some(if !m.state.StateMigrationAuth? then (m, [])
           else if ok then Working(m, StateBackupPreflight) else To(m, StateMigrationAuthFailed))
    case PullComplete => if Live(m) then Some(Working(m, StateMigrationAuthCheck)) else None
    case AuthorizationChecked(ok) => Some(Checked(m, ok))
    case AuthorizationRefreshed(ok) => Some(Refreshed(m, ok))
    case BackupPreflighted(ok) =>
      Some(if !m.state.StateBackupPreflight? then (m, []) else To(m, if ok then StateBackupConfirm else StateBackupResult))
    case BackupConfirmed => Some(ConfirmBackup(m))
    case BackupCompleted(validated) => Some(BackedUp(m, validated))
    case DispositionSelected(valid, remove) => Some(Disposed(m, valid, remove))
    case RemoveConfirmed => Some(ConfirmRemoval(m))
    case QuiescenceCompleted(lease, ok) => Some(HandedOver(m, lease, ok))
    case RecoveryCompleted => Some(Recovered(m))
    case SuccessCompleted(ok) => Some(Succeeded(m, ok))
    case Abandoned => Some(GivenUp(m))
    case UpdateCompleted => Some(To(m, StateActionResult))
    case BlockedDismissed => Some(To(m, StateContextMenu))
    case PreflightStarted => Some(Working(m, StatePreflight))
    case PreflightResult(items) => Some(Classified(m, items))
    case BootstrapComplete(env) => Some(Bootstrapped(m, env))
    case BootstrapSkipped => Some(To(m, StatePreflight))
    case PreflightPassed => Some(Working(m, StateWorkspaceInput))
    case WorkspaceEntered => Some(Working(m, StateOptionalPackages))
    case PackagesConfirmed(asterisk) => Some(Working(m.(asterisk := asterisk), StatePortScan))
    case PortsConfirmed => Some(Working(m, StateEnvWrite))
    case EnvWritten => Some(Working(m, if m.asterisk then StateAsteriskSetup else StatePull))
    case PullStarted => Some(Working(m, StatePull))
    case DeployStarted => Some(Working(m, StateDeploy))
    case DeployComplete =>
      if m.state.StateDeploy? && m.pending then Some(Working(m.(restoreCancel := true), StateDatabaseRestore)) else None
    case RestoreCompleted(ok) => Some(Restored(m, ok))
    case HealthTick => if m.state.StateDeploy? then Some(Working(m, StateVerify)) else None
    case InstallSuccess => Some(Installed(m))
    case InstallFailure => Some(InstallFailed(m))
    case _ => None
  }

  /** The bootstrap screen. */
  function OnBootstrap(m: Model, msg: Msg): Next {
    if !msg.Pressed? && !msg.BootstrapAction? then (m, [])
    else
      var (screen, cmd) := UpdateScreen(m.screen, if msg.Pressed? then Press(msg.key) else ActionResult(msg.failed));
      (m.(screen := screen), if cmd.PrintAndQuit? then [Quit] else if cmd.Nothing? then [] else [Work])
  }

  /** `ResultModel.Update`. */
  function OnResult(m: Model, msg: Msg): Next {
    (m, if msg == Pressed(Enter) || msg == Pressed(Rune("q")) || msg == Pressed(Rune("r")) then [Quit] else [])
  }

  /** Enter on a confirmation. */
  function OnConfirmation(m: Model, msg: Msg): Next {
    if msg != Pressed(Enter) then (m, [])
    else if m.state.StateBackupConfirm? then ConfirmBackup(m)
    else if m.state.StateMigrationConfirm? then To(m, StateMigrationDisposition)
    else ConfirmRemoval(m)
  }

  /** The active screen. Screens other than bootstrap and result issue commands of
      their own, but never quit. */
  function Delegate(m: Model, msg: Msg): Next {
    if m.state.StateBootstrap? then OnBootstrap(m, msg)
    else if m.state.StateResult? then OnResult(m, msg)
    else if m.state.StateBackupConfirm? || m.state.StateMigrationConfirm? || m.state.StateMigrationRemoveConfirm? then
      OnConfirmation(m, msg)
    else (m, [Work])
  }

  /** `Model.Update`. */
  function Update(m: Model, msg: Msg): Next {
    var global := if msg.Pressed? then GlobalKey(m, msg.key) else None;
    if global.Some? then global.value
    else
      var transition := Transition(m, msg);
      if transition.Some? then transition.value else Delegate(m, msg)
  }
}
