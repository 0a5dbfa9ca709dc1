/** The whole update of the terminal interface, read backwards: for every state the
    messages that lead there, for every command and field what brings it about. */
module TuiTable {
  import opened Basics
  import opened Bootstrap
  import opened Tui

  // ------------------------------------------------------ what a message is

  predicate IsEnter(msg: Msg) {
    msg.Pressed? && msg.key.Enter?
  }

  predicate IsEsc(msg: Msg) {
    msg.Pressed? && msg.key.Esc?
  }

  predicate IsRune(msg: Msg, text: string) {
    msg.Pressed? && msg.key.Rune? && msg.key.text == text
  }

  predicate Checks(m: Model, msg: Msg, ok: bool) {
    m.state.StateMigrationAuthCheck? && msg.AuthorizationChecked? && msg.ok == ok
  }

  /** A disposition is selected where one is asked for. */
  predicate Selects(m: Model, msg: Msg) {
    m.state.StateMigrationDisposition? && msg.DispositionSelected? && msg.valid
  }

  predicate BackupEnds(m: Model, msg: Msg, validated: bool) {
    m.state.StateBackupRunning? && msg.BackupCompleted? && msg.validated == validated
  }

  /** A removal is confirmed. */
  predicate Confirms(m: Model, msg: Msg) {
    m.removal && m.state.StateMigrationRemoveConfirm? && (msg.RemoveConfirmed? || IsEnter(msg))
  }

  /** A hand-over is granted: a stop is selected, or a removal is confirmed. */
  predicate Grants(m: Model, msg: Msg) {
    (Selects(m, msg) && !msg.remove) || Confirms(m, msg)
  }

  predicate StartsBackup(m: Model, msg: Msg) {
    m.deps.backupAction && m.state.StateBackupConfirm? && (msg.BackupConfirmed? || IsEnter(msg))
  }

  /** The answer to a refresh of the authorization; without a refresher a failed check
      is answered at once. */
  function RefreshAnswer(m: Model, msg: Msg): Option<bool> {
    if m.state.StateMigrationAuthRefresh? && msg.AuthorizationRefreshed? then Some(msg.ok)
    else if Checks(m, msg, false) && !m.deps.refresher then Some(false)
    else None
  }

  /** The refresh was asked for a recovery, or for nothing else and is refused. */
  predicate RecoveryAnswered(m: Model, msg: Msg) {
    (m.recoveryAuthPending && RefreshAnswer(m, msg).Some?) || (!m.recoveryAuthPending && !m.quiescenceAuthPending && RefreshAnswer(m, msg) == Some(false))
  }

  predicate QuiescenceAnswered(m: Model, msg: Msg, ok: bool) {
    !m.recoveryAuthPending && m.quiescenceAuthPending && RefreshAnswer(m, msg) == Some(ok)
  }

  /** Work that is cancelled instead of quitting. */
  predicate Cancellable(m: Model) {
    || (m.state.StateBackupRunning? && m.backupCancel)
    || (m.state.StateMigrationQuiescence? && m.quiescenceCancel)
    || (m.state.StateDatabaseRestore? && m.restoreCancel)
  }

  predicate Confirming(s: State) {
    s.StateMigrationConfirm? || s.StateMigrationDisposition? || s.StateMigrationRemoveConfirm?
  }

  /** The operator gives up, and nothing cancellable takes it. */
  predicate Interrupts(m: Model, msg: Msg) {
    match msg
    case Pressed(CtrlC) => !Cancellable(m)
    case Pressed(Rune(text)) => text == "q" && !m.state.StateMigrationConfirm? && !Cancellable(m)
    case Pressed(Esc) =>
      !m.state.StateBackupRunning? && !Confirming(m.state) && !m.state.StateDatabaseRestore?
      && !(m.state.StateMigrationQuiescence? && m.quiescenceCancel)
    case Abandoned => !(Cancellable(m) && !m.state.StateBackupRunning?)
    case _ => false
  }

  predicate RestoreFails(m: Model, msg: Msg) {
    m.state.StateDatabaseRestore? && msg.RestoreCompleted? && !msg.ok
  }

  predicate Delivered(m: Model, msg: Msg) {
    m.state.StateMigrationQuiescence? && msg.QuiescenceCompleted? && msg.lease.Some?
  }

  /** The recovery of a live lease is asked for. */
  predicate RecoveryAsked(m: Model, msg: Msg) {
    || (Live(m) && (Interrupts(m, msg) || msg.InstallFailure? || RestoreFails(m, msg)))
    || (Delivered(m, msg) && !msg.ok && m.deps.handoff)
  }

  predicate Chosen(m: Model, msg: Msg, action: ContextAction) {
    m.state.StateContextMenu? && msg.ContextActionSelected? && msg.action == action && action in m.actions
  }

  predicate Unlocked(m: Model, msg: Msg, action: ContextAction) {
    m.state.StateDockerAuth? && msg.DockerAuthenticated? && msg.ok && m.dockerAction == action
  }

  /** The completion of a lease arrives. */
  predicate Finishes(m: Model, msg: Msg) {
    || (m.state.StateMigrationRecovery? && msg.RecoveryCompleted?)
    || (m.state.StateMigrationSuccess? && msg.SuccessCompleted?)
  }

  /** All blockers can be fixed, and a remedy was not attempted yet. */
  ghost predicate Fixes(m: Model, msg: Msg) {
    && msg.PreflightResult? && NonFixable(msg.items, m.env) == []
    && exists a :: a in Fixable(msg.items, m.env) && a.id !in m.attempted
  }

  /** A hand-over begins: it is granted and no refresher is wired, or the refresh it
      waited for reports success. */
  predicate Begins(m: Model, msg: Msg) {
    (Grants(m, msg) && !m.deps.refresher) || QuiescenceAnswered(m, msg, true)
  }

  predicate Deploys(m: Model, msg: Msg) {
    || msg.DeployStarted?
    || Checks(m, msg, true)
    || (!m.recoveryAuthPending && !m.quiescenceAuthPending && RefreshAnswer(m, msg) == Some(true))
    || (m.state.StateDatabaseRestore? && msg.RestoreCompleted? && msg.ok)
  }

  predicate StartsRestore(m: Model, msg: Msg) {
    m.state.StateDeploy? && msg.DeployComplete? && m.pending
  }

  // ------------------------------------------------- what leads to a state

  /** The states of the installation. */
  ghost predicate LeadsInstall(m: Model, msg: Msg, s: State) {
    match s
    case StatePreflight =>
      || msg.PreflightStarted? || msg.BootstrapSkipped? || msg.BootstrapComplete?
      || (Chosen(m, msg, Install) && !m.deps.dockerAuthenticator) || Unlocked(m, msg, Install)
    case StateBootstrap => Fixes(m, msg)
    case StateWorkspaceInput => msg.PreflightPassed?
    case StateOptionalPackages => msg.WorkspaceEntered?
    case StatePortScan => msg.PackagesConfirmed?
    case StateEnvWrite => msg.PortsConfirmed?
    case StateAsteriskSetup => msg.EnvWritten? && m.asterisk
    case StatePull => msg.PullStarted? || (msg.EnvWritten? && !m.asterisk)
    case StateVerify => m.state.StateDeploy? && msg.HealthTick?
    case StateDetecting => msg.DetectionStarted?
    case StateContextMenu => msg.DetectionCompleted? || msg.BlockedDismissed?
    case StateUpdating => (Chosen(m, msg, Update_) && !m.deps.dockerAuthenticator) || Unlocked(m, msg, Update_)
    case StateBlockedOperation => Chosen(m, msg, Uninstall) || (Chosen(m, msg, Migrate) && !Capable(m.deps))
    case StateActionResult => msg.UpdateCompleted?
    case StateDockerAuth => (Chosen(m, msg, Install) || Chosen(m, msg, Update_)) && m.deps.dockerAuthenticator
    case StateDockerAuthFailed => m.state.StateDockerAuth? && msg.DockerAuthenticated? && !msg.ok
    case _ => false
  }

  /** The states of a migration up to the hand-over. */
  ghost predicate LeadsBackup(m: Model, msg: Msg, s: State) {
    match s
    case StateMigrationEnv => Chosen(m, msg, Migrate) && Capable(m.deps)
    case StateMigrationAuth => m.state.StateMigrationEnv? && msg.EnvironmentSelected? && msg.valid
    case StateMigrationAuthFailed => m.state.StateMigrationAuth? && msg.MigrationAuthenticated? && !msg.ok
    case StateBackupPreflight => m.state.StateMigrationAuth? && msg.MigrationAuthenticated? && msg.ok
    case StateBackupConfirm => m.state.StateBackupPreflight? && msg.BackupPreflighted? && msg.ok
    case StateBackupRunning => StartsBackup(m, msg)
    case StateBackupResult =>
      (m.state.StateBackupPreflight? && msg.BackupPreflighted? && !msg.ok) || BackupEnds(m, msg, false)
    case StateMigrationBlocked => BackupEnds(m, msg, true) && !(m.deps.restoreAction && m.deps.handoff)
    case StateMigrationConfirm => BackupEnds(m, msg, true) && m.deps.restoreAction && m.deps.handoff
    case StateMigrationCancelled => (IsEsc(msg) && Confirming(m.state)) || (IsRune(msg, "q") && m.state.StateMigrationConfirm?)
    case StateMigrationDisposition => m.state.StateMigrationConfirm? && IsEnter(msg)
    case StateMigrationRemoveConfirm => Selects(m, msg) && msg.remove
    case _ => false
  }

  /** The states from the hand-over on. */
  predicate LeadsLease(m: Model, msg: Msg, s: State) {
    match s
    case StatePreflight => Delivered(m, msg) && msg.ok
    case StateMigrationQuiescence => Begins(m, msg)
    case StateMigrationAuthCheck => Live(m) && msg.PullComplete?
    case StateMigrationAuthRefresh =>
      || (Grants(m, msg) && m.deps.refresher) || RecoveryAsked(m, msg)
      || (Checks(m, msg, false) && m.deps.refresher)
    case StateDeploy => Deploys(m, msg)
    case StateDatabaseRestore => StartsRestore(m, msg)
    case StateMigrationRecovery => Live(m) && RecoveryAnswered(m, msg)
    case StateMigrationSuccess => Live(m) && msg.InstallSuccess?
    case StateResult =>
      (!Live(m) && (msg.InstallSuccess? || msg.InstallFailure?)) || (m.state.StateMigrationSuccess? && msg.SuccessCompleted? && msg.ok)
    case StateMigrationResult =>
      || (m.state.StateMigrationQuiescence? && msg.QuiescenceCompleted? && msg.lease.None?)
      || (Delivered(m, msg) && !msg.ok && !m.deps.handoff)
      || (!Live(m) && (RecoveryAnswered(m, msg) || RestoreFails(m, msg)))
      || QuiescenceAnswered(m, msg, false)
      || (m.state.StateMigrationRecovery? && msg.RecoveryCompleted?)
      || (m.state.StateMigrationSuccess? && msg.SuccessCompleted? && !msg.ok)
    case _ => false
  }

  /** What leads to a state; nothing leads back to the splash screen. */
  ghost predicate Leads(m: Model, msg: Msg, s: State) {
    LeadsInstall(m, msg, s) || LeadsBackup(m, msg, s) || LeadsLease(m, msg, s)
  }

  /** An update changes the state exactly as `Leads` says. */
  ghost predicate StateTold(m: Model, msg: Msg, n: Model) {
    (n.state != m.state ==> Leads(m, msg, n.state)) && forall s :: Leads(m, msg, s) ==> n.state == s
  }

  // ------------------------------------------------------------- commands

  /** The states that cannot be entered without their work being started. */
  predicate NeedsWork(s: State) {
    || s.StateWorkspaceInput? || s.StateOptionalPackages? || s.StatePortScan? || s.StateEnvWrite? || s.StateAsteriskSetup?
    || s.StatePull? || s.StateDeploy? || s.StateVerify? || s.StateDetecting? || s.StateUpdating? || s.StateMigrationAuth?
    || s.StateBackupPreflight? || s.StateBackupRunning? || s.StateDatabaseRestore? || s.StateDockerAuth?
    || s.StateMigrationAuthCheck? || s.StateMigrationAuthRefresh?
  }

  predicate ScreenQuits(m: Model, msg: Msg) {
    || (m.state.StateResult? && (IsEnter(msg) || IsRune(msg, "q") || IsRune(msg, "r")))
    || (m.state.StateBootstrap? && (msg.Pressed? || msg.BootstrapAction?)
        && UpdateScreen(m.screen, if msg.Pressed? then Press(msg.key) else ActionResult(msg.failed)).1.PrintAndQuit?)
  }

  /** The keys the root handles before any screen sees them. */
  predicate Global(m: Model, msg: Msg) {
    match msg
    case Pressed(CtrlC) => true
    case Pressed(Rune(text)) =>
      text == "q" && (m.state.StateMigrationConfirm? || Cancellable(m) || Live(m) || !m.state.StateWorkspaceInput?)
    case Pressed(Esc) =>
      || Confirming(m.state) || m.state.StateBackupRunning? || m.state.StateDatabaseRestore? || Live(m)
      || (m.state.StateMigrationQuiescence? && m.quiescenceCancel) || m.state.StateDetecting? || m.state.StateContextMenu?
    case _ => false
  }

  predicate Quits(m: Model, msg: Msg) {
    if Global(m, msg) then
      && !Live(m) && Interrupts(m, msg)
      && (IsEsc(msg) ==> m.state.StateDetecting? || m.state.StateContextMenu?)
    else ScreenQuits(m, msg)
  }

  /** The commands: completing or beginning a hand-over, quitting, and work. */
  ghost predicate CommandsTold(m: Model, msg: Msg, n: Model, cmds: seq<Cmd>) {
    && (IssueBegin in cmds <==> Begins(m, msg))
    && (forall l: LeaseId :: IssueFailure(l) in cmds <==> Live(m) && RecoveryAnswered(m, msg) && m.lease == Some(l))
    && (forall l: LeaseId :: IssueSuccess(l) in cmds <==> Live(m) && msg.InstallSuccess? && m.lease == Some(l))
    && (Quit in cmds <==> Quits(m, msg))
    && (n.state != m.state && NeedsWork(n.state) ==> Work in cmds)
  }

  // --------------------------------------------------------------- fields

  /** The lease and the authorizations it waits for. */
  predicate LeaseTold(m: Model, msg: Msg, n: Model) {
    && n.deps == m.deps
    && n.lease == (if Delivered(m, msg) then msg.lease else if Finishes(m, msg) then None else m.lease)
    && n.pending == (Delivered(m, msg) || (m.pending && !Finishes(m, msg)))
    && n.quiescenceAuthPending ==
         ((Grants(m, msg) && m.deps.refresher)
          || (m.quiescenceAuthPending && (m.recoveryAuthPending || RefreshAnswer(m, msg).None?)))
    && n.recoveryAuthPending == (RecoveryAsked(m, msg) || (m.recoveryAuthPending && RefreshAnswer(m, msg).None?))
    && n.removal == (if Selects(m, msg) then msg.remove else m.removal)
  }

  /** What can be cancelled. */
  predicate CancelsTold(m: Model, msg: Msg, n: Model) {
    && n.backupCancel == (StartsBackup(m, msg) || (m.backupCancel && !(m.state.StateBackupRunning? && msg.BackupCompleted?)))
    && n.restoreCancel ==
         (StartsRestore(m, msg)
          || (m.restoreCancel && !RecoveryAsked(m, msg) && !(m.state.StateDatabaseRestore? && msg.RestoreCompleted?)))
    && n.quiescenceCancel ==
         (Begins(m, msg)
          || (m.quiescenceCancel && !RecoveryAsked(m, msg) && !(m.state.StateMigrationQuiescence? && msg.QuiescenceCompleted?)))
  }

  /** What was selected or found out. */
  predicate ChoicesTold(m: Model, msg: Msg, n: Model) {
    && n.dockerAction ==
         (if (Chosen(m, msg, Install) || Chosen(m, msg, Update_)) && m.deps.dockerAuthenticator then msg.action else m.dockerAction)
    && n.actions == (if msg.DetectionCompleted? then msg.actions else m.actions)
    && n.asterisk == (if msg.PackagesConfirmed? then msg.asterisk else m.asterisk)
    && n.env == (if msg.BootstrapComplete? then msg.env else m.env)
    && n.attempted == (if msg.BootstrapComplete? then m.attempted + Ids(m.screen.actions) else m.attempted)
  }

  predicate Ports(n: Model, exempt: Exemptions) {
    n.coordinator == exempt && n.preflight == exempt && n.portscan == exempt
  }

  predicate PortsTold(m: Model, msg: Msg, n: Model) {
    if Delivered(m, msg) && msg.ok then Ports(n, if m.deps.handoff then MIGRATION_EXEMPTIONS else NO_EXEMPTIONS)
    else if Finishes(m, msg) then Ports(n, NO_EXEMPTIONS)
    else n.coordinator == m.coordinator && n.preflight == m.preflight && n.portscan == m.portscan
  }

  /** The message reaches the bootstrap screen. */
  predicate Screens(m: Model, msg: Msg) {
    m.state.StateBootstrap? && (msg.BootstrapAction? || (msg.Pressed? && !Global(m, msg)))
  }

  /** The bootstrap screen: a new one for the remedies not attempted yet, or what the
      screen itself makes of the message. */
  ghost predicate ScreenTold(m: Model, msg: Msg, n: Model) {
    n.screen ==
      if Fixes(m, msg) then NewScreen(FreshActions(Fixable(msg.items, m.env), m.attempted))
      else if Screens(m, msg) then UpdateScreen(m.screen, if msg.Pressed? then Press(msg.key) else ActionResult(msg.failed)).0
      else m.screen
  }

  /** The fields are as told. */
  ghost predicate FieldsTold(m: Model, msg: Msg, n: Model) {
    LeaseTold(m, msg, n) && CancelsTold(m, msg, n) && ChoicesTold(m, msg, n) && PortsTold(m, msg, n) && ScreenTold(m, msg, n)
  }

  ghost predicate Told(m: Model, msg: Msg, next: Next) {
    StateTold(m, msg, next.0) && CommandsTold(m, msg, next.0, next.1) && FieldsTold(m, msg, next.0)
  }
}
