/** What the steps of a run leave alone, and the shape that every run keeps. */
module Frames {
  import opened Basics
  import opened Apportion
  import opened RunModel
  import opened Lifecycle

  lemma EachKeepsGrants(leases: seq<Lease>, c: Change)
    ensures SameGrants(leases, Each(leases, c))
  {
  }

  lemma SpreadKeepsGrants(leases: seq<Lease>, p: Pick, claimer: Option<LeaseId>, shares: seq<Share>)
    requires |shares| == Count(leases, p)
    ensures SameButShares(leases, Spread(leases, p, claimer, shares))
  {
    hide Spread;
    var r := Spread(leases, p, claimer, shares);
    forall i | 0 <= i < |leases| ensures r[i] == leases[i].(share := r[i].share) {
      assert Is(leases[i], p) || r[i] == leases[i];
    }
  }

  lemma SplitsKeepGrants(r: Run, claimer: LeaseId)
    ensures SameButShares(r.leases, ReadySplit(r))
    ensures SameButShares(r.leases, TakeoverSplit(r, claimer))
  {
    hide EqualShares, SameButShares, Spread, Count;
    var ready, live := ShareList(r, Count(r.leases, Warmed)), ShareList(r, Count(r.leases, Pick.Live));
    if ready.Success? {
      SpreadKeepsGrants(r.leases, Warmed, None, ready.value);
    }
    if live.Success? {
      SpreadKeepsGrants(r.leases, Pick.Live, Some(claimer), live.value);
    }
    SameLeases(r.leases);
  }

  lemma SameLeases(leases: seq<Lease>)
    ensures SameButShares(leases, leases) && SameGrants(leases, leases)
  {
  }

  lemma GrantsCompose(a: seq<Lease>, b: seq<Lease>, c: seq<Lease>)
    requires SameGrants(a, b) && (SameGrants(b, c) || SameButShares(b, c))
    ensures SameGrants(a, c)
  {
  }

  /** Everything about a run that no supervisor pass, report or operator call but
      scaling and claiming can change. */
  predicate SameFleet(r: Run, s: Run) {
    && SameGrants(r.leases, s.leases)
    && s.minted == r.minted && s.createdAt == r.createdAt
    && s.snap == r.snap.(rate := s.snap.rate, bpOriginal := s.snap.bpOriginal)
  }

  lemma ReleaseKeepsFleet(r: Run, forcePartial: bool, now: real)
    ensures SameFleet(r, EvaluateRelease(r, forcePartial, now))
    ensures EvaluateRelease(r, forcePartial, now).snap == r.snap
  {
    hide Each, ReadySplit, SameGrants, SameButShares, Any;
    var missed := r.(leases := Each(r.leases, MissRelease));
    EachKeepsGrants(r.leases, MissRelease);
    SplitsKeepGrants(missed, 0);
    GrantsCompose(r.leases, missed.leases, ReadySplit(missed));
    SameLeases(r.leases);
  }

  lemma ChecksKeepFleet(r: Run, boot: real, now: real)
    ensures SameFleet(r, TickChecks(r, boot, now))
    ensures TickChecks(r, boot, now).snap == r.snap
  {
    hide Each, EvaluateRelease, SameGrants, Any, DurationOver, TooManyLost, TooManyAuthFailures;
    var lapsed := LapseLeases(r, boot, now);
    EachKeepsGrants(r.leases, Lapse(r.createdAt, boot, now));
    ReleaseKeepsFleet(lapsed, true, now);
    SameLeases(lapsed.leases);
    GrantsCompose(r.leases, lapsed.leases, EvaluateRelease(lapsed, true, now).leases);
  }

  lemma RescaleKeepsFleet(r: Run, rate: real)
    ensures SameFleet(r, Rescale(r, rate))
    ensures Splittable(r.snap.mode, r.snap.rate) ==>
              Splittable(r.snap.mode, Rescale(r, rate).snap.rate)
    ensures Rescale(r, rate).snap == r.snap.(rate := Rescale(r, rate).snap.rate)
  {
    hide Each, SameGrants, Splittable;
    SameLeases(r.leases);
    var shares := ShareList(r.(snap := r.snap.(rate := Some(rate))), |r.leases|);
    if shares.Success? {
      EachKeepsGrants(r.leases, Reassign(shares.value));
    }
  }

  lemma BackpressureKeepsFleet(cfg: Settings, r: Run, now: real)
    ensures SameFleet(r, CheckBackpressure(cfg, r, now))
    ensures Splittable(r.snap.mode, r.snap.rate) ==>
              Splittable(r.snap.mode, CheckBackpressure(cfg, r, now).snap.rate)
  {
    hide Rescale, SameGrants, Splittable, SteppedRate, FloorRate, OpenSince, FailingNow, Judged;
    SameLeases(r.leases);
    if HasRate(r) {
      RescaleKeepsFleet(Noted(r), SteppedRate(cfg, r));
    }
  }

  lemma TickKeepsFleet(cfg: Settings, r: Run, boot: real, now: real)
    ensures SameFleet(r, Tick(cfg, r, boot, now))
    ensures Splittable(r.snap.mode, r.snap.rate) ==>
              Splittable(r.snap.mode, Tick(cfg, r, boot, now).snap.rate)
  {
    hide TickChecks, CheckBackpressure, Each, SameGrants, Splittable, DrainSince, MayComplete,
         TerminalStateFor, DefaultEndReason;
    var checked := TickChecks(r, boot, now);
    var judged := CheckBackpressure(cfg, checked, now);
    ChecksKeepFleet(r, boot, now);
    BackpressureKeepsFleet(cfg, checked, now);
    EachKeepsGrants(judged.leases, GiveUp);
    SameLeases(r.leases);
    GrantsCompose(r.leases, checked.leases, judged.leases);
    GrantsCompose(r.leases, judged.leases, Each(judged.leases, GiveUp));
  }

  /** Only leases, snapshot and the id counter may differ. */
  predicate Quiet(r: Run, s: Run) {
    s == r.(leases := s.leases, snap := s.snap, minted := s.minted)
  }

  /** Claiming, readying, scaling and rescaling touch neither the state of a run nor its
      clock, its log, its samples or its totals. */
  lemma QuietStep(cfg: Settings, r: Run, a: Action, now: real)
    requires a.DoClaim? || a.DoReady? || a.DoScale? || a.DoRescale?
    ensures Quiet(r, Step(cfg, r, a, now))
  {
    hide HeldBy, NextClaimable, TakeoverSplit, HolderIndex, Each, EqualShares, Kept, Grown;
  }

  // ----- shape ------------------------------------------------------------------------

  /** The shape every reachable run has: one lease per slot in slot order, ids drawn
      so far and all different, a rate that can be split, one slot for a replay. */
  predicate WellFormed(r: Run) {
    && |r.leases| == r.snap.workers >= 1
    && (r.snap.replay ==> r.snap.workers == 1)
    && Splittable(r.snap.mode, r.snap.rate)
    && LeasesInOrder(r.leases, r.minted)
  }

  predicate LeasesInOrder(leases: seq<Lease>, minted: nat) {
    && (forall i :: 0 <= i < |leases| ==> leases[i].slot == i && leases[i].id < minted)
    && (forall i, j :: 0 <= i < j < |leases| ==> leases[i].id != leases[j].id)
  }

  lemma OrderFromGrants(a: seq<Lease>, b: seq<Lease>, minted: nat)
    requires LeasesInOrder(a, minted) && (SameGrants(a, b) || SameButShares(a, b))
    ensures LeasesInOrder(b, minted)
  {
  }

  lemma LaunchIsWellFormed(r: Run)
    requires Launched(r)
    ensures WellFormed(r)
  {
    hide Splittable;
    var spec: Snapshot, ok: bool :| Provision(spec, ok, r.createdAt) == Success(r);
  }

  lemma ScaleKeepsShape(r: Run, workers: int, driverOk: bool)
    requires WellFormed(r)
    ensures WellFormed(Scale(r, workers, driverOk))
  {
    hide Each, Resized, LeasesInOrder, Splittable, EqualShares, SameGrants;
    var n := EffectiveWorkers(r.snap.replay, workers);
    var sized := Resized(r, n);
    ResizedInOrder(r, n);
    var shares := ShareList(r, n);
    if shares.Success? {
      EachKeepsGrants(sized.leases, Reassign(shares.value));
      OrderFromGrants(sized.leases, Each(sized.leases, Reassign(shares.value)), sized.minted);
    }
  }

  lemma ResizedInOrder(r: Run, n: nat)
    requires LeasesInOrder(r.leases, r.minted)
    ensures var s := Resized(r, n);
            LeasesInOrder(s.leases, s.minted) && |s.leases| == n && s.minted >= r.minted
  {
  }

  lemma ClaimKeepsShape(r: Run, holder: string, hint: Option<nat>, now: real)
    requires WellFormed(r)
    ensures WellFormed(Claim(r, holder, hint, now))
  {
    hide Splittable, HeldBy, NextClaimable, IssueAt;
    var g := GrantFor(r, holder, hint);
    if g.Issue? {
      IssueKeepsShape(r, g.index, holder, now);
    }
  }

  lemma IssueKeepsShape(r: Run, i: nat, holder: string, now: real)
    requires WellFormed(r) && i < |r.leases|
    ensures WellFormed(IssueAt(r, i, holder, now))
    ensures IssueAt(r, i, holder, now).minted == r.minted + 1
  {
    hide Splittable, TakeoverSplit, SameButShares;
    var lease := Issued(r.leases[i], holder, r.minted, r.t0, now);
    var claimed := r.(leases := r.leases[i := lease], minted := r.minted + 1);
    SplitsKeepGrants(claimed, lease.id);
    OrderFromGrants(claimed.leases, TakeoverSplit(claimed, lease.id), claimed.minted);
  }

  /** The slots, ids and holders of two lists of leases agree. */
  predicate SameIds(a: seq<Lease>, b: seq<Lease>) {
    && |a| == |b|
    && forall j :: 0 <= j < |a| ==> b[j].slot == a[j].slot && b[j].id == a[j].id && b[j].holder == a[j].holder
  }

  lemma CommandKeepsIds(r: Run, i: nat, protocolOk: bool, now: real)
    requires i < |r.leases|
    ensures var s := CommandFor(r, i, protocolOk, now).0;
            SameIds(r.leases, s.leases) && s.snap == r.snap && s.minted == r.minted
  {
    hide MaybeMarkRunning;
    CommandLeases(r, i, protocolOk, now);
    hide CommandFor;
  }

  lemma CommandLeases(r: Run, i: nat, protocolOk: bool, now: real)
    requires i < |r.leases|
    ensures var s := CommandFor(r, i, protocolOk, now).0;
            && s.snap == r.snap && s.minted == r.minted
            && |s.leases| == |r.leases|
            && s.leases == r.leases[i := r.leases[i].(state := s.leases[i].state, share := s.leases[i].share)]
  {
    var l := r.leases[i];
    assert r.leases == r.leases[i := l];
  }

  lemma HeartbeatKeepsShape(r: Run, slot: nat, id: Option<LeaseId>, beat: Beat, now: real)
    requires WellFormed(r)
    ensures WellFormed(Heartbeat(r, slot, id, beat, now).0)
  {
    hide Splittable, HolderIndex, Reported, CommandFor;
    var i := HolderIndex(r.leases, slot, id);
    if i.Some? {
      CommandKeepsIds(Renewed(r, i.value, beat, now), i.value, beat.protocolOk, now);
    }
  }

  lemma FinalKeepsShape(r: Run, slot: nat, id: Option<LeaseId>, summary: Counters, now: real)
    requires WellFormed(r)
    ensures WellFormed(Final(r, slot, id, summary, now))
  {
    hide Splittable, SlotIndex, MayComplete, TerminalStateFor, DefaultEndReason;
  }

  lemma StopKeepsShape(r: Run, force: bool, now: real)
    requires WellFormed(r)
    ensures WellFormed(Stop(r, force, now))
  {
    hide Splittable, LeasesInOrder, Each, LiveTotals, MayComplete, TerminalStateFor, DefaultEndReason;
    EachKeepsGrants(r.leases, Finalise);
    OrderFromGrants(r.leases, Each(r.leases, Finalise), r.minted);
  }

  lemma ReadyKeepsShape(r: Run, slot: nat, id: Option<LeaseId>, now: real)
    requires WellFormed(r)
    ensures WellFormed(MarkReady(r, slot, id, now))
  {
    hide Splittable, HolderIndex;
  }

  lemma OtherStepsKeepShape(r: Run, probe: Probe, now: real)
    requires WellFormed(r)
    ensures WellFormed(Reconcile(r, probe, now)) && WellFormed(Pause(r, now)) && WellFormed(Resume(r, now))
  {
    hide Splittable, Each, LeasesInOrder;
    EachKeepsGrants(r.leases, GiveUp);
    OrderFromGrants(r.leases, Each(r.leases, GiveUp), r.minted);
  }

  lemma StepKeepsShape(cfg: Settings, r: Run, a: Action, now: real)
    requires WellFormed(r)
    ensures WellFormed(Step(cfg, r, a, now))
  {
    hide WellFormed, Claim, MarkReady, EvaluateRelease, Heartbeat, Final, Stop, Pause, Resume, Scale,
         Rescale, Tick, Reconcile, Splittable, SameGrants;
    match a
    case DoClaim(holder, hint) => ClaimKeepsShape(r, holder, hint, now);
    case DoReady(slot, id) => ReadyKeepsShape(r, slot, id, now);
    case DoEvaluate => ReleaseKeepsFleet(r, false, now); FleetStep(r, EvaluateRelease(r, false, now));
    case DoHeartbeat(slot, id, beat) => HeartbeatKeepsShape(r, slot, id, beat, now);
    case DoFinal(slot, id, summary) => FinalKeepsShape(r, slot, id, summary, now);
    case DoStop(force) => StopKeepsShape(r, force, now);
    case DoPause => OtherStepsKeepShape(r, NoRef, now);
    case DoResume => OtherStepsKeepShape(r, NoRef, now);
    case DoScale(workers, driverOk) => ScaleKeepsShape(r, workers, driverOk);
    case DoRescale(rate) => RescaleKeepsFleet(r, rate); FleetStep(r, Rescale(r, rate));
    case DoTick(boot) => TickKeepsFleet(cfg, r, boot, now); FleetStep(r, Tick(cfg, r, boot, now));
    case DoReconcile(probe) => OtherStepsKeepShape(r, probe, now);
  }

  lemma FleetStep(r: Run, s: Run)
    requires WellFormed(r) && SameFleet(r, s)
    requires Splittable(r.snap.mode, r.snap.rate) ==> Splittable(r.snap.mode, s.snap.rate)
    ensures WellFormed(s)
  {
    hide Splittable;
    OrderFromGrants(r.leases, s.leases, r.minted);
  }

  /** Slots are exactly 0 .. workers-1 and ids all different, after every history. */
  lemma {:induction false} AlwaysWellFormed(cfg: Settings, start: Run, trace: seq<Timed>)
    requires Launched(start)
    ensures WellFormed(Exec(cfg, start, trace))
  {
    hide WellFormed, Launched, Step;
    if trace == [] {
      LaunchIsWellFormed(start);
    } else {
      var n := |trace| - 1;
      AlwaysWellFormed(cfg, start, trace[..n]);
      StepKeepsShape(cfg, Exec(cfg, start, trace[..n]), trace[n].action, trace[n].at);
    }
  }
}
