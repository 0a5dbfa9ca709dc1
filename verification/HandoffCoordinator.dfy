/** The imperative hand-over (internal/migration/handoff.go), proved to compute the
    runs `Handoff` specifies. */
module HandoffCoordinator {
  import opened Basics
  import opened Pm2Correlation
  import opened Pm2Quiescence
  import opened Pm2Quiescer
  import opened Handoff

  class PreInstallMigrationLease {
    const owner: PreInstallMigrationCoordinator
    const terms: Lease
    var consumed: bool

    constructor (owner: PreInstallMigrationCoordinator, terms: Lease)
      ensures this.owner == owner && this.terms == terms && !consumed
    {
      this.owner, this.terms, this.consumed := owner, terms, false;
    }
  }

  class PreInstallMigrationCoordinator {
    var site: Site
    const timing: Timing

    constructor (site: Site, timing: Timing)
      ensures this.site == site && this.timing == timing
    {
      this.site, this.timing := site, timing;
    }

    /** `PM2.Quiesce` under the caller's context. */
    method Quiesce(ctx: Context) returns (q: Quiescence, code: QuiesceCode)
      modifies this
      ensures (q, code, site) == QuiescePm2(old(site), ctx, timing)
    {
      hide Pm2Quiescence.Quiesce;
      var quiescer := new PM2Quiescer(site.host.(cancelAt := ctx), timing);
      q, code := quiescer.QuiesceServices();
      site := site.(host := quiescer.host, calls := site.calls + 1, trace := site.trace + [QuiesceRan(q, code)]);
    }

    /** `recover`: `PM2.Recover` under a recovery context. */
    method Recover(q: Quiescence) returns (r: Recovery)
      modifies this
      ensures (r, site) == RecoverPm2(old(site), q, timing)
    {
      hide Pm2Quiescence.Recover;
      var quiescer := new PM2Quiescer(site.host.(cancelAt := RecoveryContext(site)), timing);
      r := quiescer.RecoverServices(q);
      site := site.(host := quiescer.host, calls := site.calls + 1, trace := site.trace + [RecoverRan(q, r.verified)]);
    }

    method ApplyDisposition(d: Disposition) returns (code: Applied, ok: bool)
      modifies this
      ensures (code, ok, site) == Apply(old(site), d)
    {
      hide Called;
      var (stopped, next) := StopIt(site);
      site := next;
      if !stopped {
        return NotStopped, false;
      }
      if d.RemoveContainer? {
        var (removed, after) := RemoveIt(site);
        site := after;
        if !removed {
          return StoppedCode, false;
        }
        return RemovedCode, true;
      }
      return StoppedCode, true;
    }

    method RestartContainer(d: Disposition) returns (verified: bool)
      modifies this
      ensures (verified, site) == RecoverContainer(old(site), d)
    {
      hide Called;
      if d.RemoveContainer? {
        return false;
      }
      var (started, next) := StartIt(site);
      site := next;
      if !started {
        return false;
      }
      var (running, after) := InspectIt(site);
      site := after;
      return running;
    }

    /** The loop of `completeQuiescence`. */
    static method CheckComplete(q: Quiescence) returns (complete: bool)
      ensures complete == CompleteQuiescence(q)
    {
      if q.noopVerified {
        return |q.processes| == 0 && |q.evidence| == 0;
      }
      if |q.processes| == 0 || |q.processes| != |q.evidence| {
        return false;
      }
      for i := 0 to |q.evidence|
        invariant forall k :: 0 <= k < i ==> Confirms(q.evidence[k], q.processes[k])
      {
        var evidence, identity := q.evidence[i], q.processes[i];
        if !evidence.stopVerified || evidence.pmid != identity.pmid || evidence.originalPid != identity.pid
           || evidence.port != identity.port || evidence.startTicks != identity.startTicks
        {
          return false;
        }
      }
      return true;
    }

    /** `Begin`. The lease, when there is one, is new, unconsumed and this
        coordinator's own. */
    method BeginHandoff(ctx: Context, ready: bool, d: Disposition)
      returns (lease: PreInstallMigrationLease?, error: Option<BeginError>)
      modifies this
      ensures var (b, s') := Begin(old(site), ctx, ready, d, timing);
              && site == s' && error == b.error
              && (lease == null <==> b.lease.None?)
              && (lease != null ==> fresh(lease) && lease.owner == this && !lease.consumed && b.lease == Some(lease.terms))
    {
      hide QuiescePm2, RecoverPm2, Called, RecoverContainer, Apply;
      if !ready || Ended(ctx, site) {
        return null, Some(Unavailable);
      }
      var (valid, next) := Revalidate(site);
      site := next;
      if !valid || Ended(ctx, site) {
        return null, Some(BackupInvalid);
      }
      var q, code := Quiesce(ctx);
      var complete := CheckComplete(q);
      if !code.Quiesced? || Ended(ctx, site) || !complete {
        if |q.evidence| > 0 {
          var recovery := Recover(q);
          if !recovery.verified {
            lease := new PreInstallMigrationLease(this, Lease(q, StopContainer, true));
            return lease, Some(RecoveryFailed);
          }
        }
        return null, Some(QuiescenceIncomplete);
      }
      var applied, ok := ApplyDisposition(d);
      if !ok || Ended(ctx, site) {
        if d.RemoveContainer? && applied.StoppedCode? {
          var _ := RestartContainer(StopContainer);
        }
        var _ := Recover(q);
        return null, Some(DispositionFailed);
      }
      lease := new PreInstallMigrationLease(this, Lease(q, d, false));
      return lease, None;
    }

    /** `consume`: whether the lease is this coordinator's, and whether this is the
        first completion of it. */
    method Consume(lease: PreInstallMigrationLease?) returns (valid: bool, first: bool)
      modifies lease
      ensures valid <==> lease != null && lease.owner == this
      ensures valid ==> first == !old(lease.consumed) && lease.consumed
      ensures !valid ==> !first && (lease != null ==> lease.consumed == old(lease.consumed))
    {
      if lease == null || lease.owner != this {
        return false, false;
      }
      if lease.consumed {
        return true, false;
      }
      lease.consumed := true;
      return true, true;
    }

    method CompleteSuccess(lease: PreInstallMigrationLease?) returns (valid: bool)
      modifies lease
      ensures valid <==> lease != null && lease.owner == this
      ensures valid ==> lease.consumed
      ensures lease != null && !valid ==> lease.consumed == old(lease.consumed)
    {
      var first;
      valid, first := Consume(lease);
    }

    /** `CompleteFailure`: the first completion undoes the hand-over, any later one
        and any foreign lease leaves everything alone. */
    method CompleteFailure(lease: PreInstallMigrationLease?) returns (valid: bool, completion: Option<Completion>)
      modifies this, lease
      ensures valid <==> lease != null && lease.owner == this
      ensures valid && !old(lease.consumed) ==>
                && completion.Some? && (completion.value, site) == Undo(old(site), lease.terms, timing)
      ensures !valid || old(lease.consumed) ==> completion.None? && site == old(site)
      ensures valid ==> lease.consumed
      ensures lease != null && !valid ==> lease.consumed == old(lease.consumed)
    {
      hide RecoverPm2, Called, RecoverContainer;
      var first;
      valid, first := Consume(lease);
      if !valid || !first {
        return valid, None;
      }
      var terms := lease.terms;
      var verified := true;
      if !terms.pm2Only {
        verified := RestartContainer(terms.disposition);
      }
      var recovery := Recover(terms.quiescence);
      var code := Pm2(recovery.code);
      if !terms.pm2Only && terms.disposition.RemoveContainer? {
        code := ManualRecovery;
      } else if !verified {
        code := ContainerUnproven;
      }
      var failed := !recovery.verified || (!verified && !terms.disposition.RemoveContainer?);
      return true, Some(Completion(recovery, code, failed));
    }

    /** Any sequence of completions of one lease, as several callers may issue them. */
    method CompleteAll(lease: PreInstallMigrationLease, endings: seq<Ending>)
      requires lease.owner == this
      modifies this, lease
      ensures site == Complete(old(site), lease.terms, old(lease.consumed), endings, timing)
      ensures lease.consumed <==> old(lease.consumed) || endings != []
    {
      hide Undo;
      var i := 0;
      while i < |endings|
        invariant 0 <= i <= |endings|
        invariant Complete(site, lease.terms, lease.consumed, endings[i..], timing) ==
                  Complete(old(site), lease.terms, old(lease.consumed), endings, timing)
        invariant lease.consumed <==> old(lease.consumed) || i > 0
      {
        assert endings[i..][0] == endings[i] && endings[i..][1..] == endings[i + 1..];
        if endings[i].Success? {
          var _ := CompleteSuccess(lease);
        } else {
          var _, _ := CompleteFailure(lease);
        }
        i := i + 1;
      }
    }
  }
}
