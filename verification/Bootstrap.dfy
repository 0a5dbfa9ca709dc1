/** The elevated setup phase: which failing checks it can fix, and its screen
    (internal/bootstrap/bootstrap.go, internal/tui/bootstrap.go). */
module Bootstrap {
  import opened Basics

  datatype CheckId =
    | CheckOs | CheckArch | CheckDockerDaemon | CheckDockerVersion | CheckComposeVersion | CheckGpu
    | CheckMediaWritable | CheckConfigWritable | CheckWorkspaceWritable | CheckPortsAvailable

  datatype CheckItem = CheckItem(id: CheckId, failed: bool)

  datatype ActionId = DockerInstall | SystemdStart | DockerGroup | MediaDir | ConfigDir | WorkspaceDir

  datatype Action = Action(id: ActionId, banner: string)

  datatype Env = Env(dockerBinary: bool, systemd: bool)

  const GROUP_BANNER := "Log out and back in (or run `newgrp docker`) for the new group membership to take effect."

  function DockerGroupAddAction(): Action { Action(DockerGroup, GROUP_BANNER) }

  /** The action that remedies a failing check, if there is one. */
  function Remedy(id: CheckId, env: Env): Option<Action> {
    match id
    case CheckDockerDaemon =>
      if !env.dockerBinary then Some(Action(DockerInstall, ""))
      else if env.systemd then Some(Action(SystemdStart, "")) else None
    case CheckMediaWritable => Some(Action(MediaDir, ""))
    case CheckConfigWritable => Some(Action(ConfigDir, ""))
    case CheckWorkspaceWritable => Some(Action(WorkspaceDir, ""))
    case _ => None
  }

  /** A version check of a docker that is not there; installing it will decide. */
  predicate Deferred(id: CheckId, env: Env) {
    (id.CheckDockerVersion? || id.CheckComposeVersion?) && !env.dockerBinary
  }

  function Rank(id: ActionId): nat {
    match id
    case DockerInstall => 0
    case SystemdStart => 2
    case _ => 1
  }

  /** The remedies of one rank, in the order of the checks. */
  function Remedies(items: seq<CheckItem>, env: Env, rank: nat): (r: seq<Action>)
    ensures forall a :: a in r <==>
              exists x :: x in items && x.failed && Remedy(x.id, env) == Some(a) && Rank(a.id) == rank
  {
    if items == [] then []
    else
      assert items == Front(items) + [Last(items)];
      var x := Last(items);
      var remedy := Remedy(x.id, env);
      Remedies(Front(items), env, rank) +
      if x.failed && remedy.Some? && Rank(remedy.value.id) == rank then [remedy.value] else []
  }

  function Fixable(items: seq<CheckItem>, env: Env): seq<Action> {
    Remedies(items, env, 0) + Remedies(items, env, 1) + Remedies(items, env, 2)
  }

  function NonFixable(items: seq<CheckItem>, env: Env): (r: seq<CheckItem>)
    ensures forall x :: x in r <==> x in items && x.failed && Remedy(x.id, env).None? && !Deferred(x.id, env)
  {
    if items == [] then []
    else
      assert items == Front(items) + [Last(items)];
      var x := Last(items);
      NonFixable(Front(items), env) +
      if x.failed && Remedy(x.id, env).None? && !Deferred(x.id, env) then [x] else []
  }

  lemma NothingYet(items: seq<CheckItem>, env: Env)
    ensures forall rank: nat :: rank <= 2 ==> Remedies(items[..0], env, rank) == []
    ensures NonFixable(items[..0], env) == []
  {
  }

  lemma ClassifyStep(items: seq<CheckItem>, env: Env, i: nat)
    requires i < |items|
    ensures forall rank: nat :: rank <= 2 ==>
              Remedies(items[..i + 1], env, rank) == Remedies(items[..i], env, rank) +
                var remedy := Remedy(items[i].id, env);
                if items[i].failed && remedy.Some? && Rank(remedy.value.id) == rank then [remedy.value] else []
    ensures NonFixable(items[..i + 1], env) == NonFixable(items[..i], env) +
              if items[i].failed && Remedy(items[i].id, env).None? && !Deferred(items[i].id, env) then [items[i]] else []
  {
    assert Front(items[..i + 1]) == items[..i] && Last(items[..i + 1]) == items[i];
  }

  /** `ClassifyBlockers`. */
  method ClassifyBlockers(items: seq<CheckItem>, env: Env) returns (fixable: seq<Action>, nonFixable: seq<CheckItem>)
    ensures fixable == Fixable(items, env) && nonFixable == NonFixable(items, env)
  {
    hide Remedies, NonFixable;
    var install: seq<Action>, dirs: seq<Action>, systemd: seq<Action> := [], [], [];
    nonFixable := [];
    NothingYet(items, env);
    for i := 0 to |items|
      invariant install == Remedies(items[..i], env, 0)
      invariant dirs == Remedies(items[..i], env, 1)
      invariant systemd == Remedies(items[..i], env, 2)
      invariant nonFixable == NonFixable(items[..i], env)
    {
      var item := items[i];
      ClassifyStep(items, env, i);
      if !item.failed {
        continue;
      }
      match item.id {
        case CheckDockerDaemon =>
          if !env.dockerBinary {
            install := install + [Action(DockerInstall, "")];
          } else if env.systemd {
            systemd := systemd + [Action(SystemdStart, "")];
          } else {
            nonFixable := nonFixable + [item];
          }
        case CheckDockerVersion =>
          if env.dockerBinary { nonFixable := nonFixable + [item]; }
        case CheckComposeVersion =>
          if env.dockerBinary { nonFixable := nonFixable + [item]; }
        case CheckMediaWritable => dirs := dirs + [Action(MediaDir, "")];
        case CheckConfigWritable => dirs := dirs + [Action(ConfigDir, "")];
        case CheckWorkspaceWritable => dirs := dirs + [Action(WorkspaceDir, "")];
        case _ => nonFixable := nonFixable + [item];
      }
    }
    assert items[..|items|] == items;
    return install + dirs + systemd, nonFixable;
  }

  /** Every failing check gets its remedy, or is reported as not fixable, or is
      deferred, and nothing else is returned: docker first, systemd last, and no
      action carries a banner or is the group action. */
  lemma FixableMeans(items: seq<CheckItem>, env: Env)
    ensures forall a :: a in Fixable(items, env) <==> exists x :: x in items && x.failed && Remedy(x.id, env) == Some(a)
    ensures forall i, j :: 0 <= i < j < |Fixable(items, env)| ==>
              Rank(Fixable(items, env)[i].id) <= Rank(Fixable(items, env)[j].id)
    ensures forall a :: a in Fixable(items, env) ==> a.banner == "" && !a.id.DockerGroup?
  {
    hide Remedies;
    var first, second, third := Remedies(items, env, 0), Remedies(items, env, 1), Remedies(items, env, 2);
    var all := Fixable(items, env);
    forall a ensures a in all <==> exists x :: x in items && x.failed && Remedy(x.id, env) == Some(a) {
      assert Rank(a.id) <= 2;
    }
    forall i | 0 <= i < |all|
      ensures Rank(all[i].id) == if i < |first| then 0 else if i < |first| + |second| then 1 else 2
    {
      assert i < |first| ==> all[i] == first[i] && all[i] in first;
      assert |first| <= i < |first| + |second| ==> all[i] == second[i - |first|] && all[i] in second;
      assert |first| + |second| <= i ==> all[i] == third[i - |first| - |second|] && all[i] in third;
    }
  }

  /** Nothing at all is returned exactly when every failing check is deferred: a
      version check while docker is not installed. */
  lemma NothingReturned(items: seq<CheckItem>, env: Env)
    ensures Fixable(items, env) == [] && NonFixable(items, env) == [] <==>
            forall x :: x in items && x.failed ==> Deferred(x.id, env)
  {
    hide Fixable;
    FixableMeans(items, env);
    var fixable, nonFixable := Fixable(items, env), NonFixable(items, env);
    assert forall x :: x in items && x.failed && Remedy(x.id, env).Some? ==> Remedy(x.id, env).value in fixable;
    assert forall x :: x in items && x.failed && Remedy(x.id, env).None? && !Deferred(x.id, env) ==> x in nonFixable;
    if forall x :: x in items && x.failed ==> Deferred(x.id, env) {
      SameMembersSameEmptiness(fixable, []);
      SameMembersSameEmptiness(nonFixable, []);
    }
  }

  // ---------------------------------------------------------------- screen

  datatype Key = CtrlC | CtrlR | Esc | Enter | Rune(text: string) | OtherKey

  datatype BootstrapMsg = Press(key: Key) | ActionResult(failed: bool)

  datatype BootstrapCmd = Nothing | Execute | Completed | Skipped | ReportFailure | PrintAndQuit

  /** `BootstrapModel`. */
  datatype Screen = Screen(
    actions: seq<Action>, current: nat, confirming: bool, done: bool, failed: bool, declined: bool,
    showingBanner: bool, banners: seq<string>)

  function NewScreen(actions: seq<Action>): Screen {
    Screen(actions, 0, true, false, false, false, false, [])
  }

  function Banners(actions: seq<Action>): (r: seq<string>)
    ensures (forall a :: a in actions ==> a.banner == "") ==> r == []
  {
    if actions == [] then []
    else (if actions[0].banner != "" then [actions[0].banner] else []) + Banners(actions[1..])
  }

  predicate IsYes(key: Key) { key == Rune("y") || key == Rune("Y") }

  predicate IsNo(key: Key) { key == Rune("n") || key == Rune("N") }

  /** `BootstrapModel.Update`. */
  function UpdateScreen(s: Screen, msg: BootstrapMsg): (Screen, BootstrapCmd) {
    match msg
    case Press(key) =>
      if s.showingBanner then
        (s, if !key.Enter? then Nothing else if s.banners != [] then PrintAndQuit else Completed)
      else if !s.confirming then (s, Nothing)
      else if IsYes(key) || key.Enter? then
        (s.(confirming := false), if s.actions == [] then Completed else Execute)
      else if IsNo(key) || key.Esc? then (s.(declined := true), Skipped)
      else (s, Nothing)
    case ActionResult(failed) =>
      if failed then (s.(failed := true), ReportFailure)
      else
        var next := s.(current := s.current + 1);
        if next.current < |s.actions| then (next, Execute)
        else
          var banners := Banners(s.actions);
          if banners != [] then (next.(done := true, showingBanner := true, banners := banners), Nothing)
          else (next.(done := true), Completed)
  }

  /** A screen whose actions carry no banner. */
  predicate Plain(s: Screen) {
    (forall a :: a in s.actions ==> a.banner == "") && !s.showingBanner
  }

  /** Such a screen never prints and quits, and stays that way. */
  lemma PlainNeverQuits(s: Screen, msg: BootstrapMsg)
    requires Plain(s)
    ensures Plain(UpdateScreen(s, msg).0) && !UpdateScreen(s, msg).1.PrintAndQuit?
    ensures UpdateScreen(s, msg).0.actions == s.actions
  {
  }

  /** With a banner the quit is real: after the last action, Enter leaves. */
  lemma BannerQuits(msg: BootstrapMsg)
    requires msg == Press(Enter)
    ensures var s := UpdateScreen(UpdateScreen(NewScreen([DockerGroupAddAction()]), msg).0, ActionResult(false)).0;
            UpdateScreen(s, msg).1.PrintAndQuit?
  {
    var actions := [DockerGroupAddAction()];
    assert |GROUP_BANNER| > 0;
    assert Banners(actions) == [GROUP_BANNER] + Banners(actions[1..]);
  }
}
