/** Conservation of the run's rate across its slots. */
module Rates {
  import opened Basics
  import opened Apportion
  import opened RunModel
  import opened Lifecycle
  import opened Frames
  import opened RunMachine

  function Target(r: Run): real { RateTotal(r.snap.mode, r.snap.rate) }

  /** Until something degrades the run, the shares on its slots add up to its rate. */
  predicate Conserves(r: Run) {
    !r.degraded ==> RateOf(r.leases, Everyone) == Target(r)
  }

  predicate SameRates(a: seq<Lease>, b: seq<Lease>) {
    |a| == |b| && forall i :: 0 <= i < |a| ==> b[i].share.rate == a[i].share.rate
  }

  lemma {:induction false} SameRatesSum(a: seq<Lease>, b: seq<Lease>)
    requires SameRates(a, b)
    ensures RateOf(a, Everyone) == RateOf(b, Everyone)
  {
    if a != [] {
      assert a[0].share.rate == b[0].share.rate;
      SameRatesSum(a[1..], b[1..]);
    }
  }

  /** Slot i holds the i-th share. */
  predicate Holds(leases: seq<Lease>, shares: seq<Share>) {
    |leases| == |shares| && forall i :: 0 <= i < |leases| ==> leases[i].share.rate == shares[i]
  }

  lemma {:induction false} HeldSharesSum(leases: seq<Lease>, shares: seq<Share>)
    requires Holds(leases, shares)
    ensures RateOf(leases, Everyone) == Sum(ShareValues(shares))
  {
    if leases != [] {
      assert leases[0].share.rate == shares[0];
      HeldSharesSum(leases[1..], shares[1..]);
      assert ShareValues(shares)[1..] == ShareValues(shares[1..]);
    }
  }

  lemma ReassignedHold(leases: seq<Lease>, minted: nat, shares: seq<Share>)
    requires LeasesInOrder(leases, minted) && |shares| == |leases|
    ensures Holds(Each(leases, Reassign(shares)), shares)
  {
    hide Each;
    var b := Each(leases, Reassign(shares));
    assert forall i :: 0 <= i < |b| ==> b[i] == Changed(leases[i], Reassign(shares));
  }

  lemma SplitSum(r: Run, n: nat)
    requires n > 0 && Splittable(r.snap.mode, r.snap.rate)
    ensures ShareList(r, n).Success? && Sum(ShareValues(ShareList(r, n).value)) == Target(r)
  {
    hide EqualShares, Sum, RateTotal, Splittable;
    EqualSharesAreExact(r.snap.mode, r.snap.rate, n);
  }

  // ----- steps that leave the shares alone ------------------------------------------------

  /** If the run is not degraded afterwards, it was not before, and no share has moved. */
  predicate RatesKept(r: Run, s: Run) {
    !s.degraded ==>
      && !r.degraded && SameRates(r.leases, s.leases)
      && s.snap.mode == r.snap.mode && s.snap.rate == r.snap.rate
  }

  lemma KeptRatesConserve(r: Run, s: Run)
    requires Conserves(r) && RatesKept(r, s)
    ensures Conserves(s)
  {
    hide SameRates, RateTotal, RateOf;
    if !s.degraded {
      SameRatesSum(r.leases, s.leases);
    }
  }

  lemma EachKeepsRates(a: seq<Lease>, c: Change)
    requires !c.Reassign?
    ensures SameRates(a, Each(a, c))
  {
    hide Each;
    var b := Each(a, c);
    assert forall i :: 0 <= i < |a| ==> b[i] == Changed(a[i], c);
  }

  lemma ClaimKeepsRates(r: Run, holder: string, hint: Option<nat>, now: real)
    ensures RatesKept(r, Claim(r, holder, hint, now))
  {
    hide HeldBy, NextClaimable, EqualShares, Spread, Count;
  }

  lemma AgentCallsKeepRates(r: Run, slot: nat, id: Option<LeaseId>, summary: Counters, now: real)
    ensures RatesKept(r, MarkReady(r, slot, id, now))
    ensures RatesKept(r, Final(r, slot, id, summary, now))
  {
    hide HolderIndex, SlotIndex, MayComplete, TerminalStateFor, DefaultEndReason, Fold;
  }

  lemma CommandKeepsRates(r: Run, i: nat, protocolOk: bool, now: real)
    requires i < |r.leases|
    ensures RatesKept(r, CommandFor(r, i, protocolOk, now).0)
  {
  }

  lemma HeartbeatKeepsRates(r: Run, slot: nat, id: Option<LeaseId>, beat: Beat, now: real)
    ensures RatesKept(r, Heartbeat(r, slot, id, beat, now).0)
  {
    hide HolderIndex, CommandFor;
    var i := HolderIndex(r.leases, slot, id);
    if i.Some? {
      CommandKeepsRates(Renewed(r, i.value, beat, now), i.value, beat.protocolOk, now);
    }
  }

  lemma StopAndReconcileKeepRates(r: Run, force: bool, probe: Probe, now: real)
    ensures RatesKept(r, Stop(r, force, now)) && RatesKept(r, Reconcile(r, probe, now))
  {
    hide Each, SameRates, LiveTotals, MayComplete, TerminalStateFor, DefaultEndReason;
    EachKeepsRates(r.leases, Finalise);
    EachKeepsRates(r.leases, GiveUp);
    RatesOf(r.leases);
  }

  lemma RatesOf(a: seq<Lease>)
    ensures SameRates(a, a)
  {
  }

  lemma RatesCompose(a: seq<Lease>, b: seq<Lease>, c: seq<Lease>)
    requires SameRates(a, b) && SameRates(b, c)
    ensures SameRates(a, c)
  {
  }

  lemma ReleaseKeepsRates(r: Run, forcePartial: bool, now: real)
    ensures RatesKept(r, EvaluateRelease(r, forcePartial, now))
  {
    hide Each, ReadySplit, Any, SameRates;
    RatesOf(r.leases);
    EachKeepsRates(r.leases, MissRelease);
  }

  lemma ChecksKeepRates(r: Run, boot: real, now: real)
    ensures RatesKept(r, TickChecks(r, boot, now))
  {
    hide Each, EvaluateRelease, Any, SameRates, DurationOver, TooManyLost, TooManyAuthFailures;
    var lapsed := LapseLeases(r, boot, now);
    EachKeepsRates(r.leases, Lapse(r.createdAt, boot, now));
    ReleaseKeepsRates(lapsed, true, now);
    if !EvaluateRelease(lapsed, true, now).degraded {
      RatesCompose(r.leases, lapsed.leases, EvaluateRelease(lapsed, true, now).leases);
    }
  }

  lemma TickKeepsRates(cfg: Settings, r: Run, boot: real, now: real)
    ensures RatesKept(r, Tick(cfg, r, boot, now))
  {
    hide Each, TickChecks, SameRates, Rescale, Judged, FailingNow, OpenSince, SteppedRate, FloorRate, DrainSince,
         MayComplete, TerminalStateFor, DefaultEndReason;
    RatesOf(r.leases);
    var checked := TickChecks(r, boot, now);
    ChecksKeepRates(r, boot, now);
    EachKeepsRates(checked.leases, GiveUp);
    if !checked.degraded {
      RatesCompose(r.leases, checked.leases, Each(checked.leases, GiveUp));
    }
  }

  // ----- steps that split the rate anew -----------------------------------------------------

  lemma ScaleConserves(r: Run, workers: int, driverOk: bool)
    requires WellFormed(r) && Conserves(r)
    ensures Conserves(Scale(r, workers, driverOk))
  {
    hide Splittable, EqualShares, Each, Resized, LeasesInOrder, RateOf, Target, RateTotal, Sum, ShareValues, Holds;
    var n := EffectiveWorkers(r.snap.replay, workers);
    var sized := Resized(r, n);
    ResizedInOrder(r, n);
    SplitSum(r, n);
    var shares := ShareList(r, n).value;
    ReassignedHold(sized.leases, sized.minted, shares);
    HeldSharesSum(Each(sized.leases, Reassign(shares)), shares);
    SameTarget(r, Scale(r, workers, driverOk));
  }

  lemma SameTarget(r: Run, s: Run)
    requires s.snap.mode == r.snap.mode && s.snap.rate == r.snap.rate
    ensures Target(s) == Target(r)
  {
  }

  lemma RescaleConserves(r: Run, rate: real)
    requires WellFormed(r) && Conserves(r)
    ensures Conserves(Rescale(r, rate))
    ensures Rescale(r, rate) != r ==> RateOf(Rescale(r, rate).leases, Everyone) == Target(Rescale(r, rate))
  {
    hide EqualShares, Each, LeasesInOrder, RateOf, Target, RateTotal, Sum, ShareValues, Holds;
    var retuned := r.(snap := r.snap.(rate := Some(rate)));
    if !r.state.Terminal() && ShareList(retuned, |r.leases|).Success? {
      SplitSum(retuned, |r.leases|);
      var shares := ShareList(retuned, |r.leases|).value;
      ReassignedHold(r.leases, r.minted, shares);
      HeldSharesSum(Each(r.leases, Reassign(shares)), shares);
      SameTarget(retuned, Rescale(r, rate));
    }
  }

  lemma LaunchConserves(r: Run)
    requires Launched(r)
    ensures Conserves(r)
  {
    LaunchIsWellFormed(r);
    LaunchHolds(r);
    hide Launched, RateOf, Sum, ShareValues, Holds, EqualShares, RateTotal, Splittable, LeasesInOrder;
    var shares := ShareList(r, |r.leases|).value;
    SplitSum(r, |r.leases|);
    HeldSharesSum(r.leases, shares);
  }

  lemma LaunchHolds(r: Run)
    requires Launched(r)
    ensures ShareList(r, |r.leases|).Success? && Holds(r.leases, ShareList(r, |r.leases|).value)
  {
    hide EqualValue, Splittable;
    var spec: Snapshot, ok: bool :| Provision(spec, ok, r.createdAt) == Success(r);
  }

  lemma StepConserves(cfg: Settings, r: Run, a: Action, now: real)
    requires WellFormed(r) && Conserves(r)
    ensures Conserves(Step(cfg, r, a, now))
  {
    hide WellFormed, Conserves, RatesKept, Claim, MarkReady, EvaluateRelease, Heartbeat, Final, Stop, Scale,
         Rescale, Tick, Reconcile;
    match a {
      case DoScale(workers, driverOk) => ScaleConserves(r, workers, driverOk);
      case DoRescale(rate) => RescaleConserves(r, rate);
      case DoClaim(holder, hint) => ClaimKeepsRates(r, holder, hint, now);
      case DoReady(slot, id) => AgentCallsKeepRates(r, slot, id, map[], now);
      case DoEvaluate => ReleaseKeepsRates(r, false, now);
      case DoHeartbeat(slot, id, beat) => HeartbeatKeepsRates(r, slot, id, beat, now);
      case DoFinal(slot, id, summary) => AgentCallsKeepRates(r, slot, id, summary, now);
      case DoStop(force) => StopAndReconcileKeepRates(r, force, NoRef, now);
      case DoPause => PauseKeepsRates(r, now);
      case DoResume => PauseKeepsRates(r, now);
      case DoTick(boot) => TickKeepsRates(cfg, r, boot, now);
      case DoReconcile(probe) => StopAndReconcileKeepRates(r, false, probe, now);
    }
    if !a.DoScale? && !a.DoRescale? {
      KeptRatesConserve(r, Step(cfg, r, a, now));
    }
  }

  lemma PauseKeepsRates(r: Run, now: real)
    ensures RatesKept(r, Pause(r, now)) && RatesKept(r, Resume(r, now))
  {
    hide PausedSeconds;
  }

  /** In every reachable run that has not been degraded the shares over all slots add up
      to exactly the run's rate, and the slots are exactly the worker count, one for a
      replay. */
  lemma {:induction false} RateIsConserved(cfg: Settings, start: Run, trace: seq<Timed>)
    requires Launched(start)
    ensures var r := Exec(cfg, start, trace);
            && Conserves(r)
            && |r.leases| == r.snap.workers && (r.snap.replay ==> |r.leases| == 1)
            && forall i :: 0 <= i < |r.leases| ==> r.leases[i].slot == i
  {
    hide Conserves, Launched, Step, Splittable;
    AlwaysWellFormed(cfg, start, trace);
    if trace == [] {
      LaunchConserves(start);
    } else {
      var n := |trace| - 1;
      RateIsConserved(cfg, start, trace[..n]);
      AlwaysWellFormed(cfg, start, trace[..n]);
      StepConserves(cfg, Exec(cfg, start, trace[..n]), trace[n].action, trace[n].at);
    }
  }

  // ----- degraded runs -----------------------------------------------------------------------

  lemma {:induction false} SpreadSums(leases: seq<Lease>, p: Pick, claimer: Option<LeaseId>, shares: seq<Share>)
    requires p.Live? || p.Warmed?
    requires |shares| == Count(leases, p)
    ensures RateOf(Spread(leases, p, claimer, shares), p) == Sum(ShareValues(shares))
  {
    if leases != [] {
      if Is(leases[0], p) {
        SpreadSums(leases[1..], p, claimer, shares[1..]);
        assert ShareValues(shares)[1..] == ShareValues(shares[1..]);
      } else {
        SpreadSums(leases[1..], p, claimer, shares);
      }
      var b := Spread(leases, p, claimer, shares);
      assert b[1..] == Spread(leases[1..], p, claimer, if Is(leases[0], p) then shares[1..] else shares);
    }
  }

  lemma {:induction false} SamePickSums(leases: seq<Lease>, p: Pick, q: Pick)
    requires forall i :: 0 <= i < |leases| ==> (Is(leases[i], p) <==> Is(leases[i], q))
    ensures RateOf(leases, p) == RateOf(leases, q)
  {
    if leases != [] {
      assert Is(leases[0], p) <==> Is(leases[0], q);
      SamePickSums(leases[1..], p, q);
    }
  }

  lemma SplitOverPicked(r: Run, p: Pick, claimer: Option<LeaseId>)
    requires (p.Live? || p.Warmed?) && Any(r.leases, p) && Splittable(r.snap.mode, r.snap.rate)
    ensures ShareList(r, Count(r.leases, p)).Success?
    ensures RateOf(Spread(r.leases, p, claimer, ShareList(r, Count(r.leases, p)).value), p) == Target(r)
  {
    hide Any, EqualShares, Spread, RateOf, Sum, ShareValues, Target, Splittable, Count;
    CountPositive(r.leases, p);
    SplitSum(r, Count(r.leases, p));
    SpreadSums(r.leases, p, claimer, ShareList(r, Count(r.leases, p)).value);
  }

  /** A partial release spreads the whole rate over the workers that made it. */
  lemma PartialReleaseKeepsRateOnTheLive(r: Run, now: real)
    requires WellFormed(r) && Sound(r) && Releasable(r) && !r.snap.strictRelease
    ensures var s := PartialRelease(r, now);
            s.degraded && s.t0.Some? && RateOf(s.leases, Pick.Live) == Target(s)
  {
    hide EqualShares, Spread, RateOf, Target, Splittable, Count, Each, SameButShares, Delivered, LeasesInOrder;
    var missed := r.(leases := Each(r.leases, MissRelease));
    StillReady(r);
    SplitOverPicked(missed, Warmed, None);
    SplitsKeepGrants(missed, 0);
    OnlyReadyLive(r, ReadySplit(missed));
    SamePickSums(ReadySplit(missed), Warmed, Pick.Live);
    SameTarget(missed, PartialRelease(r, now));
  }

  lemma StillReady(r: Run)
    requires Any(r.leases, Warmed)
    ensures Any(Each(r.leases, MissRelease), Warmed)
  {
    hide Each;
    var i :| 0 <= i < |r.leases| && Is(r.leases[i], Warmed);
    assert Is(Each(r.leases, MissRelease)[i], Warmed);
  }

  lemma OnlyReadyLive(r: Run, b: seq<Lease>)
    requires NoneRunning(r.leases) && SameButShares(Each(r.leases, MissRelease), b)
    ensures forall i :: 0 <= i < |b| ==> (Is(b[i], Warmed) <==> Is(b[i], Pick.Live))
  {
    hide Each;
    var a := Each(r.leases, MissRelease);
    forall i | 0 <= i < |b| ensures Is(b[i], Warmed) <==> Is(b[i], Pick.Live) {
      assert a[i] == Changed(r.leases[i], MissRelease) && b[i] == a[i].(share := b[i].share);
    }
  }

  /** When a lost slot is claimed back in a degraded run that is not winding down, the
      whole rate is spread over every worker now live, the newcomer included. */
  lemma TakeoverKeepsRateOnTheLive(r: Run, i: nat, holder: string, now: real)
    requires WellFormed(r) && i < |r.leases| && r.leases[i].state.Lost?
    requires r.degraded && r.t0.Some? && !r.state.Terminal() && !r.state.Draining?
    ensures var s := IssueAt(r, i, holder, now);
            s.leases[i].state.Claimed? && RateOf(s.leases, Pick.Live) == Target(s)
  {
    hide EqualShares, Spread, RateOf, Target, Splittable, Count, SameButShares, LeasesInOrder;
    var lease := Issued(r.leases[i], holder, r.minted, r.t0, now);
    var claimed := r.(leases := r.leases[i := lease], minted := r.minted + 1);
    assert Is(claimed.leases[i], Pick.Live);
    SplitOverPicked(claimed, Pick.Live, Some(lease.id));
    SplitsKeepGrants(claimed, lease.id);
    ShareChangeAt(claimed.leases, TakeoverSplit(claimed, lease.id), i);
    SameTarget(claimed, IssueAt(r, i, holder, now));
  }

  lemma ShareChangeAt(a: seq<Lease>, b: seq<Lease>, i: nat)
    requires SameButShares(a, b) && i < |a|
    ensures |b| == |a| && b[i].state == a[i].state
  {
  }
}
