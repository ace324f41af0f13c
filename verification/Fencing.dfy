/** Lease ids as fences: who may speak for a slot, over every history of a run. */
module Fencing {
  import opened Basics
  import opened Apportion
  import opened RunModel
  import opened Lifecycle
  import opened Frames

  /** The id was drawn once and is on no slot any more. */
  predicate Retired(r: Run, id: LeaseId) {
    id < r.minted && forall i :: 0 <= i < |r.leases| ==> r.leases[i].id != id
  }

  /** Reissuing a slot retires the id that was on it. */
  lemma IssueRetires(r: Run, i: nat, holder: string, now: real)
    requires WellFormed(r) && i < |r.leases|
    ensures Retired(IssueAt(r, i, holder, now), r.leases[i].id)
    ensures IssueAt(r, i, holder, now).leases[i].id == r.minted
  {
    hide Splittable, TakeoverSplit;
    var lease := Issued(r.leases[i], holder, r.minted, r.t0, now);
    SplitsKeepGrants(r.(leases := r.leases[i := lease], minted := r.minted + 1), lease.id);
  }

  /** Removing a slot retires its id. */
  lemma ShrinkRetires(r: Run, workers: int, i: nat)
    requires WellFormed(r) && i < |r.leases| && |Scale(r, workers, true).leases| <= i
    ensures Retired(Scale(r, workers, true), r.leases[i].id)
  {
    hide Splittable, EqualShares;
  }

  lemma GrantsKeepRetired(r: Run, s: Run, id: LeaseId)
    requires Retired(r, id) && s.minted >= r.minted
    requires SameIds(r.leases, s.leases)
    ensures Retired(s, id)
  {
  }

  lemma GrantsAreIds(a: seq<Lease>, b: seq<Lease>)
    requires SameGrants(a, b) || SameButShares(a, b)
    ensures SameIds(a, b)
  {
  }

  lemma ClaimKeepsRetired(r: Run, holder: string, hint: Option<nat>, now: real, id: LeaseId)
    requires Retired(r, id)
    ensures Retired(Claim(r, holder, hint, now), id)
  {
    hide HeldBy, NextClaimable, TakeoverSplit, SameButShares, Retired;
    var g := GrantFor(r, holder, hint);
    if g.Issue? {
      var lease := Issued(r.leases[g.index], holder, r.minted, r.t0, now);
      var claimed := r.(leases := r.leases[g.index := lease], minted := r.minted + 1);
      OneNewId(r, claimed, g.index, id);
      SplitsKeepGrants(claimed, lease.id);
      GrantsAreIds(claimed.leases, TakeoverSplit(claimed, lease.id));
      GrantsKeepRetired(claimed, claimed.(leases := TakeoverSplit(claimed, lease.id)), id);
    } else if g.Held? {
      GrantsKeepRetired(r, Claim(r, holder, hint, now), id);
    }
  }

  lemma OneNewId(r: Run, s: Run, i: nat, id: LeaseId)
    requires Retired(r, id) && i < |r.leases| && s.minted == r.minted + 1
    requires |s.leases| == |r.leases| && s.leases == r.leases[i := s.leases[i]] && s.leases[i].id == r.minted
    ensures Retired(s, id)
  {
  }

  lemma ScaleKeepsRetired(r: Run, workers: int, driverOk: bool, id: LeaseId)
    requires WellFormed(r) && Retired(r, id)
    ensures Retired(Scale(r, workers, driverOk), id)
  {
    hide Splittable, EqualShares, Each;
    var n := EffectiveWorkers(r.snap.replay, workers);
    var shares := ShareList(r, n);
    var sized := Resized(r, n);
    assert Retired(sized, id);
    if shares.Success? {
      EachKeepsGrants(sized.leases, Reassign(shares.value));
    }
  }

  /** Only claiming and scaling touch who is on which slot. */
  lemma OtherStepsKeepIds(cfg: Settings, r: Run, a: Action, now: real)
    requires !a.DoClaim? && !a.DoScale?
    ensures var s := Step(cfg, r, a, now); SameIds(r.leases, s.leases) && s.minted == r.minted
  {
    hide SameIds, EvaluateRelease, Heartbeat, Final, Stop, Rescale, Tick, Reconcile, MarkReady, SameGrants;
    var s := Step(cfg, r, a, now);
    match a {
      case DoEvaluate => ReleaseKeepsFleet(r, false, now);
      case DoHeartbeat(slot, hid, beat) => HeartbeatKeepsIds(r, slot, hid, beat, now);
      case DoFinal(slot, fid, summary) => FinalKeepsIds(r, slot, fid, summary, now);
      case DoStop(force) => StopKeepsIds(r, force, now);
      case DoRescale(rate) => RescaleKeepsFleet(r, rate);
      case DoTick(boot) => TickKeepsFleet(cfg, r, boot, now);
      case DoReconcile(probe) => ReconcileKeepsIds(r, probe, now);
      case DoReady(slot, hid) => ReadyKeepsIds(r, slot, hid, now);
      case _ => SameLeases(r.leases);
    }
    if SameGrants(r.leases, s.leases) {
      GrantsAreIds(r.leases, s.leases);
    }
  }

  lemma HeartbeatKeepsIds(r: Run, slot: nat, id: Option<LeaseId>, beat: Beat, now: real)
    ensures var s := Heartbeat(r, slot, id, beat, now).0; SameIds(r.leases, s.leases) && s.minted == r.minted
  {
    hide HolderIndex, CommandFor, Reported;
    var i := HolderIndex(r.leases, slot, id);
    if i.Some? {
      CommandKeepsIds(Renewed(r, i.value, beat, now), i.value, beat.protocolOk, now);
    }
  }

  lemma FinalKeepsIds(r: Run, slot: nat, id: Option<LeaseId>, summary: Counters, now: real)
    ensures var s := Final(r, slot, id, summary, now); SameIds(r.leases, s.leases) && s.minted == r.minted
  {
    hide SlotIndex, MayComplete, TerminalStateFor, DefaultEndReason, Fold;
  }

  lemma StopKeepsIds(r: Run, force: bool, now: real)
    ensures var s := Stop(r, force, now); SameIds(r.leases, s.leases) && s.minted == r.minted
  {
    hide Each, LiveTotals, MayComplete, TerminalStateFor, DefaultEndReason;
    EachKeepsGrants(r.leases, Finalise);
  }

  lemma ReconcileKeepsIds(r: Run, probe: Probe, now: real)
    ensures var s := Reconcile(r, probe, now); SameIds(r.leases, s.leases) && s.minted == r.minted
  {
    hide Each;
    EachKeepsGrants(r.leases, GiveUp);
  }

  lemma ReadyKeepsIds(r: Run, slot: nat, id: Option<LeaseId>, now: real)
    ensures var s := MarkReady(r, slot, id, now); SameIds(r.leases, s.leases) && s.minted == r.minted
  {
    hide HolderIndex;
  }

  lemma StepKeepsRetired(cfg: Settings, r: Run, a: Action, now: real, id: LeaseId)
    requires WellFormed(r) && Retired(r, id)
    ensures Retired(Step(cfg, r, a, now), id)
  {
    hide WellFormed, Retired, Claim, Scale;
    match a
    case DoClaim(holder, hint) => ClaimKeepsRetired(r, holder, hint, now, id);
    case DoScale(workers, driverOk) => ScaleKeepsRetired(r, workers, driverOk, id);
    case _ =>
      hide Step, SameIds;
      OtherStepsKeepIds(cfg, r, a, now);
      GrantsKeepRetired(r, Step(cfg, r, a, now), id);
  }

  /** Once off its slot an id never comes back to any slot. */
  lemma {:induction false} RetiredForever(cfg: Settings, start: Run, trace: seq<Timed>, k: nat, id: LeaseId)
    requires Launched(start) && k <= |trace|
    requires Retired(Exec(cfg, start, trace[..k]), id)
    ensures Retired(Exec(cfg, start, trace), id)
  {
    hide WellFormed, Launched, Step, Retired;
    var n := |trace| - 1;
    if k <= n {
      assert trace[..n][..k] == trace[..k];
      RetiredForever(cfg, start, trace[..n], k, id);
      AlwaysWellFormed(cfg, start, trace[..n]);
      StepKeepsRetired(cfg, Exec(cfg, start, trace[..n]), trace[n].action, trace[n].at, id);
    } else {
      assert trace[..k] == trace;
    }
  }

  /** A call an agent makes in the name of a lease id. */
  predicate Speaks(a: Action, id: LeaseId) {
    (a.DoReady? || a.DoHeartbeat? || a.DoFinal?) && a.id == Some(id)
  }

  lemma RetiredIsPowerless(cfg: Settings, r: Run, a: Action, now: real, id: LeaseId)
    requires Retired(r, id) && Speaks(a, id)
    ensures Step(cfg, r, a, now) == r
  {
    hide First, CommandFor, MaybeComplete, Fold;
  }

  /** Fencing: whatever the holder of a retired id goes on to say, however often and
      however late, the run ends up exactly as if it had said nothing. */
  lemma {:induction false} StaleCallsAreErased(
    cfg: Settings, start: Run, before: seq<Timed>, stale: Timed, after: seq<Timed>, id: LeaseId)
    requires Launched(start) && Speaks(stale.action, id)
    requires Retired(Exec(cfg, start, before), id)
    ensures Exec(cfg, start, before + [stale] + after) == Exec(cfg, start, before + after)
    ensures Retired(Exec(cfg, start, before + [stale] + after), id)
  {
    hide Launched, Step, Retired, Exec;
    var n := |after| - 1;
    if after == [] {
      assert before + after == before && before + [stale] + after == before + [stale];
      RetiredIsPowerless(cfg, Exec(cfg, start, before), stale.action, stale.at, id);
      OneMore(cfg, start, before, stale);
    } else {
      StaleCallsAreErased(cfg, start, before, stale, after[..n], id);
      var long, short := before + [stale] + after[..n], before + after[..n];
      assert before + [stale] + after == long + [after[n]] && before + after == short + [after[n]];
      OneMore(cfg, start, long, after[n]);
      OneMore(cfg, start, short, after[n]);
      assert (before + after)[..|before|] == before;
      RetiredForever(cfg, start, before + after, |before|, id);
    }
  }

  lemma OneMore(cfg: Settings, start: Run, trace: seq<Timed>, last: Timed)
    ensures Exec(cfg, start, trace + [last]) == Step(cfg, Exec(cfg, start, trace), last.action, last.at)
  {
    hide Step;
    assert (trace + [last])[..|trace|] == trace;
  }

  // ----- the latest claimant ----------------------------------------------------------------------

  datatype Claimant = Nobody | By(id: LeaseId, holder: string)

  /** Who last claimed a slot since its row was made: told from the claims alone. */
  function LatestClaimant(cfg: Settings, start: Run, trace: seq<Timed>, slot: nat): Claimant {
    if trace == [] then Nobody
    else
      var n := |trace| - 1;
      var r := Exec(cfg, start, trace[..n]);
      var before := LatestClaimant(cfg, start, trace[..n], slot);
      match trace[n].action
      case DoClaim(holder, hint) => if GrantFor(r, holder, hint) == Issue(slot) then By(r.minted, holder) else before
      case DoScale(_, _) => if |Exec(cfg, start, trace).leases| <= slot then Nobody else before
      case _ => before
  }

  /** A slot's lease carries the id and the holder of its latest claimant. */
  predicate Carries(r: Run, slot: nat, c: Claimant) {
    if slot >= |r.leases| then c.Nobody?
    else if c.Nobody? then r.leases[slot].holder.None?
    else r.leases[slot].id == c.id && r.leases[slot].holder == Some(c.holder)
  }

  lemma IdsCarry(r: Run, s: Run, slot: nat, c: Claimant)
    requires Carries(r, slot, c) && SameIds(r.leases, s.leases)
    ensures Carries(s, slot, c)
  {
  }

  lemma ClaimCarries(r: Run, holder: string, hint: Option<nat>, now: real, slot: nat, c: Claimant)
    requires Carries(r, slot, c)
    ensures Carries(Claim(r, holder, hint, now), slot,
                    if GrantFor(r, holder, hint) == Issue(slot) then By(r.minted, holder) else c)
  {
    hide HeldBy, NextClaimable, TakeoverSplit, SameButShares;
    var g := GrantFor(r, holder, hint);
    if g.Issue? {
      var lease := Issued(r.leases[g.index], holder, r.minted, r.t0, now);
      var claimed := r.(leases := r.leases[g.index := lease], minted := r.minted + 1);
      SplitsKeepGrants(claimed, lease.id);
      GrantsAreIds(claimed.leases, TakeoverSplit(claimed, lease.id));
    }
  }

  lemma ScaleCarries(r: Run, workers: int, driverOk: bool, slot: nat, c: Claimant)
    requires WellFormed(r) && Carries(r, slot, c)
    ensures var s := Scale(r, workers, driverOk); Carries(s, slot, if |s.leases| <= slot then Nobody else c)
  {
    hide Splittable, EqualShares, Each;
    var n := EffectiveWorkers(r.snap.replay, workers);
    var shares := ShareList(r, n);
    var sized := Resized(r, n);
    if shares.Success? {
      EachKeepsGrants(sized.leases, Reassign(shares.value));
      GrantsAreIds(sized.leases, Each(sized.leases, Reassign(shares.value)));
    }
  }

  lemma StepCarries(cfg: Settings, r: Run, a: Action, now: real, slot: nat, c: Claimant)
    requires WellFormed(r) && Carries(r, slot, c)
    ensures var s := Step(cfg, r, a, now);
            Carries(s, slot,
                    match a
                    case DoClaim(holder, hint) =>
                      if GrantFor(r, holder, hint) == Issue(slot) then By(r.minted, holder) else c
                    case DoScale(_, _) => if |s.leases| <= slot then Nobody else c
                    case _ => c)
  {
    hide WellFormed, Carries, Claim, Scale, GrantFor;
    match a
    case DoClaim(holder, hint) => ClaimCarries(r, holder, hint, now, slot, c);
    case DoScale(workers, driverOk) => ScaleCarries(r, workers, driverOk, slot, c);
    case _ =>
      hide Step, SameIds;
      OtherStepsKeepIds(cfg, r, a, now);
      IdsCarry(r, Step(cfg, r, a, now), slot, c);
  }

  /** Over every history, the id on a slot is the one its latest claimant was given, and a
      slot nobody has claimed is held by nobody. */
  lemma {:induction false} SlotBelongsToLatestClaimant(cfg: Settings, start: Run, trace: seq<Timed>, slot: nat)
    requires Launched(start)
    ensures Carries(Exec(cfg, start, trace), slot, LatestClaimant(cfg, start, trace, slot))
  {
    hide WellFormed, Launched, Step, Carries, GrantFor;
    if trace == [] {
      LaunchCarries(start, slot);
    } else {
      var n := |trace| - 1;
      SlotBelongsToLatestClaimant(cfg, start, trace[..n], slot);
      AlwaysWellFormed(cfg, start, trace[..n]);
      StepCarries(cfg, Exec(cfg, start, trace[..n]), trace[n].action, trace[n].at, slot,
                  LatestClaimant(cfg, start, trace[..n], slot));
    }
  }

  lemma LaunchCarries(r: Run, slot: nat)
    requires Launched(r)
    ensures Carries(r, slot, Nobody)
  {
    hide EqualShares;
    var spec: Snapshot, ok: bool :| Provision(spec, ok, r.createdAt) == Success(r);
  }
}
