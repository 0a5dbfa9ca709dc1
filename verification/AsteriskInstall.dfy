/** Installing Asterisk as a transaction (internal/asterisk/installer.go). */
module AsteriskInstall {
  import opened Basics
  import opened ManagedSections
  import opened ResourceTree

  /** What an installation touches of the host. */
  datatype Host = Host(
    installed: bool, enabled: bool, active: bool, manager: Option<string>, extensions: Option<string>, tree: Tree)

  /** One answer of the outside world. A failed call may leave anything in what it was
      changing: the file, the tree, the enablement, the service, or for a package all
      but the tree; installing a package may bring configurations and a running
      service. */
  datatype Reply = Reply(
    ok: bool, text: Option<string>, other: Option<string>, tree: Tree, installs: bool, enables: bool, starts: bool)

  datatype Snapshot = Snapshot(
    installed: bool, enabled: bool, active: bool, manager: Option<string>, extensions: Option<string>,
    paths: seq<Path>, entries: seq<Entry>)

  datatype InstallError =
    | SnapshotFailed | PackageFailed | ConfigurationFailed | ResourcesFailed | EnableFailed | RestartFailed | VerificationFailed

  /** `Services.Stop`, `Disable` and `Packages.Remove` in a rollback, after both
      configurations and the tree were put back; rollback calls succeed. */
  function Rollback(h: Host, s: Snapshot, installedByUs: bool, managerFirst: bool): Host {
    var h1 := h.(tree := PutAll(map[], s.entries));
    var h2 := if managerFirst then h1.(manager := s.manager).(extensions := s.extensions)
              else h1.(extensions := s.extensions).(manager := s.manager);
    var h3 := if !s.active then h2.(active := false) else h2;
    var h4 := if !s.enabled then h3.(enabled := false) else h3;
    if installedByUs && !s.installed then h4.(installed := false) else h4
  }

  /** A snapshot of a host. */
  ghost predicate Snapped(h: Host, s: Snapshot) {
    && s.installed == h.installed && s.enabled == h.enabled && s.active == h.active
    && s.manager == h.manager && s.extensions == h.extensions
    && Walk(s.paths, h.tree) && Saved(h.tree, s.paths, s.entries)
  }

  /** Rolling back from any state gives the original host with plain modes in its tree,
      in either order of the configurations, exactly when the service did not lose an
      enablement or activity it had and the package is there as before but for what
      was installed. That is the original host itself exactly for plain modes. */
  lemma RollbackRestores(h0: Host, h: Host, s: Snapshot, installedByUs: bool, managerFirst: bool)
    requires Snapped(h0, s)
    ensures Rollback(h, s, installedByUs, managerFirst) == h0.(tree := PlainTree(h0.tree)) <==>
            && (h0.enabled ==> h.enabled) && (h0.active ==> h.active)
            && (if installedByUs && !h0.installed then true else h.installed == h0.installed)
    ensures h0.(tree := PlainTree(h0.tree)) == h0 <==> PlainModes(h0.tree)
  {
    hide PutAll, Walk, Saved, PlainModes;
    RestoreAll(h0.tree, s.paths, s.entries);
    PlainExactly(h0.tree);
  }

  /** What a failed package installation may leave. */
  function LeftByPackage(h: Host, reply: Reply): Host {
    h.(installed := reply.installs, enabled := reply.enables, active := reply.starts,
       manager := reply.text, extensions := reply.other)
  }

  function TextOf(config: Option<string>): string {
    if config.None? then "" else config.value
  }

  /** The error of the configuration steps by their answers from call `at` on: reading
      and writing either file, the resources, the enable, the restart and the probe.
      `safe` says whether the manager file found may be managed. */
  function ConfigureError(oracle: nat -> Reply, at: nat, safe: bool): Option<InstallError> {
    if !(oracle(at).ok && safe && oracle(at + 1).ok && oracle(at + 2).ok && oracle(at + 3).ok) then Some(ConfigurationFailed)
    else if !oracle(at + 4).ok then Some(ResourcesFailed)
    else if !oracle(at + 5).ok then Some(EnableFailed)
    else if !oracle(at + 6).ok then Some(RestartFailed)
    else if !oracle(at + 7).ok then Some(VerificationFailed)
    else None
  }

  class Installer {
    const oracle: nat -> Reply
    var calls: nat
    var host: Host

    constructor (oracle: nat -> Reply, host: Host)
      ensures this.oracle == oracle && this.host == host
    {
      this.oracle, this.host, calls := oracle, host, 0;
    }

    method Call() returns (reply: Reply)
      modifies `calls
      ensures calls == old(calls) + 1 && reply == oracle(old(calls))
    {
      reply := oracle(calls);
      calls := calls + 1;
    }

    /** `writeManagedConfigs`; `safe` is `validateExistingManagerConfig`. */
    method WriteManagedConfigs(ami: string, extensions: string, safe: string -> bool) returns (ok: bool)
      modifies this
      ensures host == old(host).(manager := host.manager, extensions := host.extensions) && calls > old(calls)
      ensures var at := old(calls);
              && (ok <==> oracle(at).ok && safe(TextOf(old(host).manager)) && oracle(at + 1).ok && oracle(at + 2).ok && oracle(at + 3).ok)
              && (ok ==> calls == at + 4)
      ensures ok ==>
                && safe(TextOf(old(host).manager))
                && host.manager == Some(Replace(TextOf(old(host).manager), "ami", ami))
                && host.extensions == Some(Replace(TextOf(old(host).extensions), "extensions", extensions))
    {
      hide Replace, TextOf;
      var reply := Call();
      if !reply.ok || !safe(TextOf(host.manager)) {
        return false;
      }
      var text := Replace(TextOf(host.manager), "ami", ami);
      reply := Call();
      if !reply.ok {
        host := host.(manager := reply.text);
        return false;
      }
      host := host.(manager := Some(text));
      reply := Call();
      if !reply.ok {
        return false;
      }
      text := Replace(TextOf(host.extensions), "extensions", extensions);
      reply := Call();
      host := host.(extensions := if reply.ok then Some(text) else reply.text);
      return reply.ok;
    }

    /** `rollback`; the snapshot's map of configurations is walked in either order. */
    method RollBack(s: Snapshot, installedByUs: bool, managerFirst: bool)
      modifies this
      ensures host == Rollback(old(host), s, installedByUs, managerFirst) && calls == old(calls)
    {
      hide PutAll;
      var tree := RestoreBundle(host.tree, s.entries);
      host := host.(tree := tree);
      if managerFirst {
        host := host.(manager := s.manager);
        host := host.(extensions := s.extensions);
      } else {
        host := host.(extensions := s.extensions);
        host := host.(manager := s.manager);
      }
      if !s.active {
        host := host.(active := false);
      }
      if !s.enabled {
        host := host.(enabled := false);
      }
      if installedByUs && !s.installed {
        host := host.(installed := false);
      }
    }

    /** `Packages.Install`. */
    method InstallPackage() returns (ok: bool)
      modifies this
      ensures calls == old(calls) + 1 && (ok <==> oracle(old(calls)).ok)
      ensures ok ==> host.manager == oracle(old(calls)).text
      ensures !ok ==> host == LeftByPackage(old(host), oracle(calls - 1))
      ensures ok ==> host == old(host).(installed := true, enabled := host.enabled, active := host.active,
                                        manager := host.manager, extensions := host.extensions)
      ensures ok ==> (old(host).enabled ==> host.enabled) && (old(host).active ==> host.active)
    {
      var reply := Call();
      if reply.ok {
        host := host.(installed := true, enabled := host.enabled || reply.enables, active := host.active || reply.starts,
                      manager := reply.text, extensions := reply.other);
      } else {
        host := LeftByPackage(host, reply);
      }
      ok := reply.ok;
    }

    /** The steps of `Install` between the package and the result. Only a failed enable
        can lose the enablement there was, only a failed restart the service. */
    method Configure(ami: string, extensions: string, safe: string -> bool, bundle: Tree -> Tree)
      returns (error: Option<InstallError>)
      modifies this
      ensures host.installed == old(host).installed
      ensures error == ConfigureError(oracle, old(calls), safe(TextOf(old(host).manager)))
      ensures error != Some(SnapshotFailed) && error != Some(PackageFailed)
      ensures calls > old(calls)
      ensures if error == Some(EnableFailed) then host.enabled == oracle(calls - 1).enables else old(host).enabled ==> host.enabled
      ensures if error == Some(RestartFailed) then host.active == oracle(calls - 1).starts else old(host).active ==> host.active
      ensures error.None? ==>
                && host.enabled && host.active && host.tree == bundle(old(host).tree)
                && host.manager == Some(Replace(TextOf(old(host).manager), "ami", ami))
                && host.extensions == Some(Replace(TextOf(old(host).extensions), "extensions", extensions))
    {
      hide Replace, TextOf;
      var ok := WriteManagedConfigs(ami, extensions, safe);
      if !ok {
        return Some(ConfigurationFailed);
      }
      var reply := Call();
      host := host.(tree := if reply.ok then bundle(host.tree) else reply.tree);
      if !reply.ok {
        return Some(ResourcesFailed);
      }
      reply := Call();
      host := host.(enabled := reply.ok || reply.enables);
      if !reply.ok {
        return Some(EnableFailed);
      }
      reply := Call();
      host := host.(active := reply.ok || reply.starts);
      if !reply.ok {
        return Some(RestartFailed);
      }
      reply := Call();
      if !reply.ok {
        return Some(VerificationFailed);
      }
      return None;
    }

    /** `Install` from the snapshot on; `oracle(calls - 1)` is the answer to its last call.
        Its error is the one of the first answer that is no success, or of a manager
        file that may not be managed; without any it succeeds.
        It is transactional with two exceptions: a failed package installation is not
        rolled back, and a service that was enabled or active and was lost by a failed
        enable or restart is not given back. Every other error leaves the host as it
        was, but for mode bits beyond the permissions in the resource tree; success
        leaves both managed sections written into what the files held, the resources
        created and the service running. */
    method Install(ami: string, extensions: string, safe: string -> bool, bundle: Tree -> Tree, paths: seq<Path>, managerFirst: bool)
      returns (error: Option<InstallError>)
      requires Walk(paths, host.tree)
      modifies this
      ensures calls > old(calls)
      ensures var at := old(calls);
              error ==
                if !oracle(at).ok then Some(SnapshotFailed)
                else if old(host).installed then ConfigureError(oracle, at + 1, safe(TextOf(old(host).manager)))
                else if !oracle(at + 1).ok then Some(PackageFailed)
                else ConfigureError(oracle, at + 2, safe(TextOf(oracle(at + 1).text)))
      ensures error == Some(SnapshotFailed) ==> host == old(host)
      ensures error == Some(PackageFailed) ==> host == LeftByPackage(old(host), oracle(calls - 1))
      ensures error.Some? && error != Some(SnapshotFailed) && error != Some(PackageFailed) ==>
                (host == old(host).(tree := PlainTree(old(host).tree)) <==>
                   && (error == Some(EnableFailed) && old(host).enabled ==> oracle(calls - 1).enables)
                   && (error == Some(RestartFailed) && old(host).active ==> oracle(calls - 1).starts))
      ensures PlainModes(old(host).tree) <==> old(host).(tree := PlainTree(old(host).tree)) == old(host)
      ensures error.None? ==>
                && host.installed && host.enabled && host.active && host.tree == bundle(old(host).tree)
                && host.manager.Some? && host.extensions.Some?
      ensures error.None? && old(host).installed ==>
                && host.manager == Some(Replace(TextOf(old(host).manager), "ami", ami))
                && host.extensions == Some(Replace(TextOf(old(host).extensions), "extensions", extensions))
    {
      hide Rollback, Walk, Saved, PlainModes, Replace, TextOf, PutAll, PlainTree, LeftByPackage, ConfigureError;
      PlainExactly(host.tree);
      var reply := Call();
      if !reply.ok {
        return Some(SnapshotFailed);
      }
      var entries := SnapshotBundle(host.tree, paths);
      assert Walk(paths, host.tree) && Saved(host.tree, paths, entries);
      var s := Snapshot(host.installed, host.enabled, host.active, host.manager, host.extensions, paths, entries);
      var installedByUs := false;
      if !s.installed {
        installedByUs := InstallPackage();
        if !installedByUs {
          return Some(PackageFailed);
        }
      }
      error := Configure(ami, extensions, safe, bundle);
      if error.Some? {
        RollbackRestores(old(host), host, s, installedByUs, managerFirst);
        RollBack(s, installedByUs, managerFirst);
      }
    }
  }
}
