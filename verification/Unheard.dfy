/** Whom a new share misses: over every history, exactly the holders that were not live when
    their share was rewritten and have been told nothing since. */
module Unheard {
  import opened Basics
  import opened Apportion
  import opened RunModel
  import opened Lifecycle
  import opened Frames
  import opened Clocks
  import opened Dialogue

  predicate SameShare(l: Lease, m: Lease) {
    m.share.rate == l.share.rate && m.share.retarget == l.share.retarget
  }

  /** The ids whose stored share a step rewrote, on leases live after it or not. */
  function Rewritten(a: seq<Lease>, b: seq<Lease>, live: bool): set<LeaseId> {
    set i | 0 <= i < |a| && i < |b| && b[i].id == a[i].id && !SameShare(a[i], b[i]) && b[i].state.Live() == live
      :: b[i].id
  }

  /** The ids a step's answer sent a share to. */
  function ToldNow(r: Run, a: Action, s: Run, now: real): set<LeaseId> {
    match a
    case DoClaim(holder, hint) =>
      (match GrantFor(r, holder, hint)
       case Refused => {}
       case Held(i) => if i < |s.leases| then {s.leases[i].id} else {}
       case Issue(i) => if i < |s.leases| then {s.leases[i].id} else {})
    case DoHeartbeat(slot, id, beat) =>
      if Heartbeat(r, slot, id, beat, now).1.Retarget? && id.Some? then {id.value} else {}
    case _ => {}
  }

  function Missed(r: Run, a: Action, s: Run, now: real, u: set<LeaseId>): set<LeaseId> {
    u + Rewritten(r.leases, s.leases, false) - Rewritten(r.leases, s.leases, true) - ToldNow(r, a, s, now)
  }

  /** The ids that were not live when their share was last rewritten, and not told since. */
  function UnheardIds(cfg: Settings, start: Run, trace: seq<Timed>): set<LeaseId> {
    if trace == [] then {}
    else
      var n := |trace| - 1;
      var r := Exec(cfg, start, trace[..n]);
      Missed(r, trace[n].action, Exec(cfg, start, trace), trace[n].at, UnheardIds(cfg, start, trace[..n]))
  }

  /** A held lease: unmarked if its id went unheard, else marked or told what it has. */
  predicate Heard(l: Lease, told: map<LeaseId, Share>, u: set<LeaseId>) {
    l.holder.Some? ==>
      && l.id in told
      && (if l.id in u then !l.share.retarget else l.share.retarget || told[l.id] == l.share.rate)
  }

  predicate AllHeard(r: Run, told: map<LeaseId, Share>, u: set<LeaseId>) {
    && (forall id :: id in u ==> id < r.minted)
    && (forall i :: 0 <= i < |r.leases| ==> Heard(r.leases[i], told, u))
  }

  // ----- what a step does to the shares --------------------------------------------------------------

  predicate AllSame(a: seq<Lease>, b: seq<Lease>) {
    |a| == |b| && forall i :: 0 <= i < |a| ==> b[i].id == a[i].id && b[i].holder == a[i].holder && SameShare(a[i], b[i])
  }

  /** The share is as before, or it was rewritten and marked exactly if the lease is live. */
  predicate Touched(l: Lease, m: Lease) {
    && m.id == l.id && m.holder == l.holder
    && (SameShare(l, m) || (m.share.retarget <==> m.state.Live()))
  }

  predicate AllTouched(a: seq<Lease>, b: seq<Lease>) {
    |a| == |b| && forall i :: 0 <= i < |a| ==> Touched(a[i], b[i])
  }

  lemma SameIsTouched(a: seq<Lease>, b: seq<Lease>)
    requires AllSame(a, b)
    ensures AllTouched(a, b)
  {
  }

  lemma SameRefl(a: seq<Lease>)
    ensures AllSame(a, a)
  {
  }

  lemma SameThenTouched(a: seq<Lease>, b: seq<Lease>, c: seq<Lease>)
    requires AllSame(a, b) && AllTouched(b, c)
    ensures AllTouched(a, c)
  {
    forall i | 0 <= i < |a| ensures Touched(a[i], c[i]) {
      assert Touched(b[i], c[i]);
    }
  }

  lemma SameTrans(a: seq<Lease>, b: seq<Lease>, c: seq<Lease>)
    requires AllSame(a, b) && AllSame(b, c)
    ensures AllSame(a, c)
  {
  }

  lemma StatesOnly(a: seq<Lease>, c: Change)
    requires !c.Reassign?
    ensures AllSame(a, Each(a, c))
  {
    hide Each;
    var b := Each(a, c);
    assert forall i :: 0 <= i < |b| ==> b[i] == Changed(a[i], c);
  }

  predicate SlotsBelow(a: seq<Lease>, n: nat) { forall i :: 0 <= i < |a| ==> a[i].slot < n }

  /** Dealing shares to every slot marks the live and clears the mark of everyone else. */
  predicate Remarked(a: seq<Lease>, b: seq<Lease>) {
    && |a| == |b|
    && forall i :: 0 <= i < |a| ==>
         && b[i].id == a[i].id && b[i].holder == a[i].holder && b[i].state == a[i].state
         && (b[i].share.retarget <==> b[i].state.Live())
  }

  lemma ReassignRemarks(a: seq<Lease>, shares: seq<Share>)
    requires SlotsBelow(a, |shares|)
    ensures Remarked(a, Each(a, Reassign(shares)))
  {
    hide Each;
    var b := Each(a, Reassign(shares));
    assert forall i :: 0 <= i < |b| ==> b[i] == Changed(a[i], Reassign(shares)) && a[i].slot < |shares|;
  }

  lemma TouchedThenRemarked(a: seq<Lease>, b: seq<Lease>, c: seq<Lease>)
    requires AllTouched(a, b) && Remarked(b, c)
    ensures AllTouched(a, c)
  {
    forall i | 0 <= i < |a| ensures Touched(a[i], c[i]) {
      assert Touched(a[i], b[i]);
    }
  }

  lemma ReadySplitTouches(r: Run)
    ensures AllTouched(r.leases, ReadySplit(r))
  {
    hide EqualShares, Spread, Count;
    SameRefl(r.leases);
    var shares := ShareList(r, Count(r.leases, Warmed));
    if shares.Success? {
      var b := Spread(r.leases, Warmed, None, shares.value);
      forall i | 0 <= i < |b| ensures Touched(r.leases[i], b[i]) {
        assert Is(r.leases[i], Warmed) || b[i] == r.leases[i];
      }
    }
  }

  lemma ReleaseTouches(r: Run, forcePartial: bool, now: real)
    ensures AllTouched(r.leases, EvaluateRelease(r, forcePartial, now).leases)
  {
    hide AllTouched, AllSame, Each, ReadySplit, Any;
    SameRefl(r.leases);
    SameIsTouched(r.leases, r.leases);
    var missed := r.(leases := Each(r.leases, MissRelease));
    StatesOnly(r.leases, MissRelease);
    SameIsTouched(r.leases, missed.leases);
    ReadySplitTouches(missed);
    SameThenTouched(r.leases, missed.leases, ReadySplit(missed));
  }

  /** A rescale leaves the leases alone or remarks them all. */
  lemma RescaleRemarks(r: Run, rate: real)
    requires SlotsBelow(r.leases, |r.leases|)
    ensures Rescale(r, rate).leases == r.leases || Remarked(r.leases, Rescale(r, rate).leases)
  {
    hide Each, EqualShares, Remarked;
    var shares := ShareList(r.(snap := r.snap.(rate := Some(rate))), |r.leases|);
    if shares.Success? {
      ReassignRemarks(r.leases, shares.value);
    }
  }

  lemma ChecksTouch(r: Run, boot: real, now: real)
    ensures AllTouched(r.leases, TickChecks(r, boot, now).leases)
  {
    hide AllTouched, AllSame, Each, EvaluateRelease, Any, DurationOver, TooManyLost, TooManyAuthFailures;
    var lapsed := LapseLeases(r, boot, now);
    StatesOnly(r.leases, Lapse(r.createdAt, boot, now));
    SameIsTouched(r.leases, lapsed.leases);
    ReleaseTouches(lapsed, true, now);
    SameThenTouched(r.leases, lapsed.leases, EvaluateRelease(lapsed, true, now).leases);
  }

  lemma BackpressureRemarks(cfg: Settings, r: Run, now: real)
    requires SlotsBelow(r.leases, |r.leases|)
    ensures var s := CheckBackpressure(cfg, r, now); s.leases == r.leases || Remarked(r.leases, s.leases)
  {
    hide Rescale, FailingNow, OpenSince, SteppedRate, FloorRate, Judged, Remarked, SlotsBelow;
    if HasRate(r) {
      RescaleRemarks(Noted(r), SteppedRate(cfg, r));
    }
  }

  // A pass that begins a drain does not reap it: the grace runs from that very instant.

  lemma DurationDrainsNow(r: Run, now: real)
    requires !r.state.Draining? && CheckDuration(r, now).state.Draining?
    ensures DrainSince(CheckDuration(r, now).events) == Some(now)
  {
    hide DrainSince, DurationOver;
    StartsAppend(r.events, StateChange(now, r.state, Draining));
  }

  lemma ChecksDrainNow(r: Run, boot: real, now: real)
    requires !r.state.Draining? && TickChecks(r, boot, now).state.Draining?
    ensures DrainSince(TickChecks(r, boot, now).events) == Some(now)
  {
    hide DrainSince, Each, EvaluateRelease, Any, CheckDuration, TooManyLost, TooManyAuthFailures;
    var released := ReleaseTimeout(LapseLeases(r, boot, now), now);
    ReleaseNeverDrains(LapseLeases(r, boot, now), now);
    if CheckDuration(released, now).state.Draining? {
      DurationDrainsNow(released, now);
    }
  }

  lemma ReleaseNeverDrains(r: Run, now: real)
    requires !r.state.Draining?
    ensures !ReleaseTimeout(r, now).state.Draining?
  {
    hide Each, ReadySplit, Any;
  }

  lemma BackpressureDrainsNow(cfg: Settings, r: Run, now: real)
    requires CheckBackpressure(cfg, r, now).state.Draining? && !r.state.Draining?
    ensures DrainSince(CheckBackpressure(cfg, r, now).events) == Some(now)
  {
    hide DrainSince, FailingNow, OpenSince, SteppedRate, FloorRate, Any, Rescale;
    StartsAppend(r.events, StateChange(now, r.state, Draining));
    if HasRate(r) {
      RescaleKeepsDraining(Noted(r), SteppedRate(cfg, r));
    }
  }

  lemma RescaleKeepsDraining(r: Run, rate: real)
    ensures Rescale(r, rate).state == r.state
  {
  }

  lemma BackpressureOnDraining(cfg: Settings, r: Run, now: real)
    requires r.state.Draining?
    ensures CheckBackpressure(cfg, r, now) == r
  {
  }

  lemma NewDrainIsNotReaped(cfg: Settings, r: Run, boot: real, now: real)
    requires !r.state.Draining?
    ensures var judged := CheckBackpressure(cfg, TickChecks(r, boot, now), now); ReapDraining(judged, now) == judged
  {
    hide DrainSince, TickChecks, CheckBackpressure, Each;
    var checked := TickChecks(r, boot, now);
    if checked.state.Draining? {
      BackpressureOnDraining(cfg, checked, now);
      ChecksDrainNow(r, boot, now);
    } else if CheckBackpressure(cfg, checked, now).state.Draining? {
      BackpressureDrainsNow(cfg, checked, now);
    }
  }

  lemma CompletionKeepsLeases(r: Run, now: real)
    ensures MaybeComplete(r, now).leases == r.leases
  {
    hide MayComplete, TerminalStateFor, DefaultEndReason;
  }

  lemma FleetSlots(r: Run, s: Run)
    requires WellFormed(r) && SameFleet(r, s)
    ensures SlotsBelow(s.leases, |s.leases|)
  {
    hide Splittable;
  }

  lemma TickTouches(cfg: Settings, r: Run, boot: real, now: real)
    requires WellFormed(r)
    ensures AllTouched(r.leases, Tick(cfg, r, boot, now).leases)
  {
    hide WellFormed, AllTouched, AllSame, Remarked, SameFleet, SlotsBelow, TickChecks, CheckBackpressure, Each,
         MaybeComplete, DrainSince;
    SameRefl(r.leases);
    SameIsTouched(r.leases, r.leases);
    if !r.state.Terminal() && !r.state.Pending? {
      var checked := TickChecks(r, boot, now);
      var judged := CheckBackpressure(cfg, checked, now);
      CompletionKeepsLeases(ReapDraining(judged, now), now);
      if r.state.Draining? {
        DrainingSkipsChecks(cfg, r, boot, now);
        StatesOnly(r.leases, Lapse(r.createdAt, boot, now));
        StatesOnly(judged.leases, GiveUp);
        SameTrans(r.leases, judged.leases, Each(judged.leases, GiveUp));
        SameIsTouched(r.leases, judged.leases);
        SameIsTouched(r.leases, Each(judged.leases, GiveUp));
      } else {
        NewDrainIsNotReaped(cfg, r, boot, now);
        ChecksTouch(r, boot, now);
        ChecksKeepFleet(r, boot, now);
        FleetSlots(r, checked);
        BackpressureRemarks(cfg, checked, now);
        if Remarked(checked.leases, judged.leases) {
          TouchedThenRemarked(r.leases, checked.leases, judged.leases);
        }
      }
    }
  }

  lemma ReportTouches(r: Run, slot: nat, id: Option<LeaseId>, summary: Counters, now: real)
    ensures AllTouched(r.leases, Final(r, slot, id, summary, now).leases)
    ensures AllTouched(r.leases, MarkReady(r, slot, id, now).leases)
  {
    hide SlotIndex, MaybeComplete, Fold;
    CompletionKeepsLeases(r, now);
    var i := SlotIndex(r.leases, slot);
    if i.Some? {
      CompletionKeepsLeases(WithState(r, i.value, Done).(totals := Fold(r.totals, summary)), now);
    }
  }

  lemma StopTouches(r: Run, force: bool, probe: Probe, now: real)
    ensures AllTouched(r.leases, Stop(r, force, now).leases)
    ensures AllTouched(r.leases, Reconcile(r, probe, now).leases)
  {
    hide AllTouched, AllSame, Each, LiveTotals, MayComplete, TerminalStateFor, DefaultEndReason, PausedSeconds;
    SameRefl(r.leases);
    SameIsTouched(r.leases, r.leases);
    StatesOnly(r.leases, Finalise);
    StatesOnly(r.leases, GiveUp);
    SameIsTouched(r.leases, Each(r.leases, Finalise));
    SameIsTouched(r.leases, Each(r.leases, GiveUp));
  }

  /** Every step but claims, heartbeats and scaling. */
  lemma StepTouches(cfg: Settings, r: Run, a: Action, now: real)
    requires WellFormed(r) && !a.DoClaim? && !a.DoHeartbeat? && !a.DoScale?
    ensures AllTouched(r.leases, Step(cfg, r, a, now).leases)
  {
    hide WellFormed, AllTouched, Remarked, SlotsBelow, EvaluateRelease, Final, Stop, Rescale, Tick, Reconcile,
         MarkReady, PausedSeconds, SameFleet;
    SameRefl(r.leases);
    SameIsTouched(r.leases, r.leases);
    match a
    case DoEvaluate => ReleaseTouches(r, false, now);
    case DoFinal(slot, id, summary) => ReportTouches(r, slot, id, summary, now);
    case DoReady(slot, id) => ReportTouches(r, slot, id, map[], now);
    case DoStop(force) => StopTouches(r, force, NoRef, now);
    case DoReconcile(probe) => StopTouches(r, false, probe, now);
    case DoTick(boot) => TickTouches(cfg, r, boot, now);
    case DoRescale(rate) =>
      OwnSlots(r);
      RescaleRemarks(r, rate);
      if Remarked(r.leases, Rescale(r, rate).leases) {
        TouchedThenRemarked(r.leases, r.leases, Rescale(r, rate).leases);
      }
    case _ =>
  }

  lemma OwnSlots(r: Run)
    requires WellFormed(r)
    ensures SlotsBelow(r.leases, |r.leases|)
  {
    hide Splittable;
  }

  // ----- keeping the invariant -----------------------------------------------------------------------------

  lemma TouchedIsHeard(l: Lease, m: Lease, told: map<LeaseId, Share>, u: set<LeaseId>, v: set<LeaseId>)
    requires Heard(l, told, u) && Touched(l, m)
    requires m.id in v <==> if SameShare(l, m) then m.id in u else !m.state.Live()
    ensures Heard(m, told, v)
  {
  }

  /** Who is added and who is taken off, slot by slot. */
  lemma MissedAt(r: Run, a: Action, s: Run, now: real, u: set<LeaseId>, i: nat)
    requires WellFormed(s) && i < |s.leases| && i < |r.leases| && s.leases[i].id == r.leases[i].id
    requires s.leases[i].id !in ToldNow(r, a, s, now)
    ensures s.leases[i].id in Missed(r, a, s, now, u) <==>
            if SameShare(r.leases[i], s.leases[i]) then s.leases[i].id in u else !s.leases[i].state.Live()
  {
    hide Splittable, ToldNow, SameShare;
    var id := s.leases[i].id;
    forall live: bool
      ensures id in Rewritten(r.leases, s.leases, live) <==>
              !SameShare(r.leases[i], s.leases[i]) && s.leases[i].state.Live() == live
    {
      if id in Rewritten(r.leases, s.leases, live) {
        var j :| 0 <= j < |r.leases| && j < |s.leases| && s.leases[j].id == id && !SameShare(r.leases[j], s.leases[j])
                 && s.leases[j].state.Live() == live;
        assert j == i;
      }
    }
  }

  lemma MissedDrawn(r: Run, a: Action, s: Run, now: real, u: set<LeaseId>)
    requires WellFormed(s) && r.minted <= s.minted && forall id :: id in u ==> id < r.minted
    ensures forall id :: id in Missed(r, a, s, now, u) ==> id < s.minted
  {
    hide Splittable, ToldNow, SameShare;
  }

  lemma TouchedStepHeard(cfg: Settings, r: Run, a: Action, now: real, k: Ledger, u: set<LeaseId>)
    requires WellFormed(r) && AllHeard(r, k.told, u) && !a.DoClaim? && !a.DoHeartbeat? && !a.DoScale?
    ensures var s := Step(cfg, r, a, now); AllHeard(s, Observe(r, a, s, now, k).told, Missed(r, a, s, now, u))
  {
    hide WellFormed, Step, Heard, Touched, SameShare, Missed;
    var s := Step(cfg, r, a, now);
    StepTouches(cfg, r, a, now);
    StepKeepsShape(cfg, r, a, now);
    CalmStepKeepsMinted(cfg, r, a, now);
    MissedDrawn(r, a, s, now, u);
    forall i | 0 <= i < |s.leases| ensures Heard(s.leases[i], k.told, Missed(r, a, s, now, u)) {
      TouchedId(r.leases[i], s.leases[i]);
      MissedAt(r, a, s, now, u, i);
      TouchedIsHeard(r.leases[i], s.leases[i], k.told, u, Missed(r, a, s, now, u));
    }
  }

  lemma TouchedId(l: Lease, m: Lease)
    requires Touched(l, m)
    ensures m.id == l.id
  {
  }

  lemma ScaledTouches(r: Run, workers: int, driverOk: bool, i: nat)
    requires WellFormed(r) && i < |Scale(r, workers, driverOk).leases|
    ensures var s := Scale(r, workers, driverOk);
            if i < |r.leases| then Touched(r.leases[i], s.leases[i]) else s.leases[i].holder.None?
  {
    hide Splittable, EqualShares, Each, Resized;
    var n := EffectiveWorkers(r.snap.replay, workers);
    var sized := Resized(r, n);
    var shares := ShareList(r, n);
    if shares.Success? {
      ResizedLease(r, n, i);
      var b := Each(sized.leases, Reassign(shares.value));
      if i < n {
        assert b[i] == Changed(sized.leases[i], Reassign(shares.value));
        ResizedSlot(r, n, i);
      }
    }
  }

  lemma ResizedSlot(r: Run, n: nat, i: nat)
    requires WellFormed(r) && i < n
    ensures |Resized(r, n).leases| == n && Resized(r, n).leases[i].slot < n
  {
    hide Splittable;
  }

  lemma ScaleHeard(cfg: Settings, r: Run, workers: int, driverOk: bool, now: real, k: Ledger, u: set<LeaseId>)
    requires WellFormed(r) && AllHeard(r, k.told, u)
    ensures var a := DoScale(workers, driverOk);
            var s := Step(cfg, r, a, now);
            AllHeard(s, Observe(r, a, s, now, k).told, Missed(r, a, s, now, u))
  {
    hide WellFormed, Scale, Heard, Touched, SameShare, Missed;
    var a := DoScale(workers, driverOk);
    var s := Step(cfg, r, a, now);
    ScaleKeepsShape(r, workers, driverOk);
    NotEmpty(s);
    ScaledLeases(r, workers, driverOk, 0);
    MissedDrawn(r, a, s, now, u);
    forall i | 0 <= i < |s.leases| ensures Heard(s.leases[i], k.told, Missed(r, a, s, now, u)) {
      ScaledTouches(r, workers, driverOk, i);
      if i < |r.leases| {
        TouchedId(r.leases[i], s.leases[i]);
        MissedAt(r, a, s, now, u, i);
        TouchedIsHeard(r.leases[i], s.leases[i], k.told, u, Missed(r, a, s, now, u));
      } else {
        UnheldIsHeard(s.leases[i], k.told, Missed(r, a, s, now, u));
      }
    }
  }

  lemma UnheldIsHeard(l: Lease, told: map<LeaseId, Share>, u: set<LeaseId>)
    requires l.holder.None?
    ensures Heard(l, told, u)
  {
  }

  // Claims.

  lemma TakeoverTouches(r: Run, claimer: LeaseId, i: nat)
    requires i < |r.leases| && r.leases[i].id != claimer
    ensures Touched(r.leases[i], TakeoverSplit(r, claimer)[i])
  {
    hide EqualShares, Spread, Count;
    var shares := ShareList(r, Count(r.leases, Pick.Live));
    if shares.Success? {
      var b := Spread(r.leases, Pick.Live, Some(claimer), shares.value);
      assert Is(r.leases[i], Pick.Live) || b[i] == r.leases[i];
    }
  }

  lemma IssueTouches(r: Run, i: nat, holder: string, now: real, j: nat)
    requires WellFormed(r) && i < |r.leases| && j < |r.leases| && j != i
    ensures Touched(r.leases[j], IssueAt(r, i, holder, now).leases[j])
  {
    hide Splittable, TakeoverSplit;
    var lease := Issued(r.leases[i], holder, r.minted, r.t0, now);
    var claimed := r.(leases := r.leases[i := lease], minted := r.minted + 1);
    assert claimed.leases[j] == r.leases[j];
    TakeoverTouches(claimed, lease.id, j);
  }

  lemma IssueHeard(cfg: Settings, r: Run, holder: string, hint: Option<nat>, now: real, k: Ledger, u: set<LeaseId>)
    requires WellFormed(r) && AllHeard(r, k.told, u) && GrantFor(r, holder, hint).Issue?
    ensures var a := DoClaim(holder, hint);
            var s := Step(cfg, r, a, now);
            AllHeard(s, Observe(r, a, s, now, k).told, Missed(r, a, s, now, u))
  {
    hide WellFormed, IssueAt, Heard, Touched, SameShare, HeldBy, NextClaimable, Rewritten;
    var a, i := DoClaim(holder, hint), GrantFor(r, holder, hint).index;
    var s := IssueAt(r, i, holder, now);
    var v, told := Missed(r, a, s, now, u), k.told[s.leases[i].id := s.leases[i].share.rate];
    IssuedLeases(r, i, holder, now, i);
    IssueKeepsShape(r, i, holder, now);
    MissedDrawn(r, a, s, now, u);
    forall j | 0 <= j < |s.leases| ensures Heard(s.leases[j], told, v) {
      if j == i {
        ToldIsHeard(s.leases[i], told, v);
      } else {
        IssueTouches(r, i, holder, now, j);
        IdsDrawn(r, j);
        TouchedId(r.leases[j], s.leases[j]);
        MissedAt(r, a, s, now, u, j);
        OtherTold(r.leases[j], k.told, u, s.leases[i].id, s.leases[i].share.rate);
        TouchedIsHeard(r.leases[j], s.leases[j], told, u, v);
      }
    }
  }

  lemma ToldIsHeard(l: Lease, told: map<LeaseId, Share>, u: set<LeaseId>)
    requires l.id in told && told[l.id] == l.share.rate && l.id !in u
    ensures Heard(l, told, u)
  {
  }

  lemma OtherTold(l: Lease, told: map<LeaseId, Share>, u: set<LeaseId>, id: LeaseId, share: Share)
    requires Heard(l, told, u) && l.id != id
    ensures Heard(l, told[id := share], u)
  {
  }

  lemma HeldHeard(cfg: Settings, r: Run, holder: string, hint: Option<nat>, now: real, k: Ledger, u: set<LeaseId>)
    requires WellFormed(r) && AllHeard(r, k.told, u) && GrantFor(r, holder, hint).Held?
    ensures var a := DoClaim(holder, hint);
            var s := Step(cfg, r, a, now);
            AllHeard(s, Observe(r, a, s, now, k).told, Missed(r, a, s, now, u))
  {
    hide WellFormed, Heard, HeldBy, NextClaimable, Rewritten;
    var a, i := DoClaim(holder, hint), GrantFor(r, holder, hint).index;
    var s := Step(cfg, r, a, now);
    var v, told := Missed(r, a, s, now, u), k.told[s.leases[i].id := s.leases[i].share.rate];
    StepKeepsShape(cfg, r, a, now);
    MissedDrawn(r, a, s, now, u);
    forall j | 0 <= j < |s.leases| ensures Heard(s.leases[j], told, v) {
      if j == i {
        ToldIsHeard(s.leases[i], told, v);
      } else {
        DifferentIds(r, i, j);
        MissedAt(r, a, s, now, u, j);
        OtherTold(r.leases[j], k.told, u, s.leases[i].id, s.leases[i].share.rate);
        TouchedIsHeard(r.leases[j], s.leases[j], told, u, v);
      }
    }
  }

  lemma DifferentIds(r: Run, i: nat, j: nat)
    requires WellFormed(r) && i < |r.leases| && j < |r.leases| && i != j
    ensures r.leases[i].id != r.leases[j].id
  {
    hide Splittable;
  }

  lemma ClaimHeard(cfg: Settings, r: Run, holder: string, hint: Option<nat>, now: real, k: Ledger, u: set<LeaseId>)
    requires WellFormed(r) && AllHeard(r, k.told, u)
    ensures var a := DoClaim(holder, hint);
            var s := Step(cfg, r, a, now);
            AllHeard(s, Observe(r, a, s, now, k).told, Missed(r, a, s, now, u))
  {
    hide WellFormed, AllHeard, IssueAt, HeldBy, NextClaimable;
    match GrantFor(r, holder, hint)
    case Issue(i) => IssueHeard(cfg, r, holder, hint, now, k, u);
    case Held(i) => HeldHeard(cfg, r, holder, hint, now, k, u);
    case Refused =>
      NothingRewritten(r.leases);
      assert Missed(r, DoClaim(holder, hint), r, now, u) == u;
  }

  lemma NothingRewritten(a: seq<Lease>)
    ensures Rewritten(a, a, true) == {} && Rewritten(a, a, false) == {}
  {
  }

  // Heartbeats.

  lemma AnsweredIsHeard(l: Lease, m: Lease, cmd: Command, told: map<LeaseId, Share>, u: set<LeaseId>, v: set<LeaseId>)
    requires Heard(l, told, u) && Answered(l, m, cmd)
    requires cmd.Retarget? ==> m.id !in v
    requires !cmd.Retarget? ==> (m.id in v <==> if SameShare(l, m) then m.id in u else !m.state.Live())
    ensures Heard(m, if cmd.Retarget? then told[m.id := cmd.share] else told, v)
  {
  }

  lemma HeartbeatHeard(cfg: Settings, r: Run, slot: nat, id: Option<LeaseId>, beat: Beat, now: real, k: Ledger,
                       u: set<LeaseId>)
    requires WellFormed(r) && AllHeard(r, k.told, u)
    ensures var a := DoHeartbeat(slot, id, beat);
            var s := Step(cfg, r, a, now);
            AllHeard(s, Observe(r, a, s, now, k).told, Missed(r, a, s, now, u))
  {
    hide WellFormed, Heartbeat, Heard, Answered, SameShare, Rewritten;
    var a := DoHeartbeat(slot, id, beat);
    var s, cmd := Heartbeat(r, slot, id, beat, now).0, Heartbeat(r, slot, id, beat, now).1;
    var v, told := Missed(r, a, s, now, u), Observe(r, a, s, now, k).told;
    CalmStepKeepsMinted(cfg, r, a, now);
    NoIdIsSuperseded(r, slot, beat, now);
    HeartbeatKeepsShape(r, slot, id, beat, now);
    MissedDrawn(r, a, s, now, u);
    NotEmpty(r);
    HeartbeatAnswers(r, slot, id, beat, now, 0);
    forall j | 0 <= j < |s.leases| ensures Heard(s.leases[j], told, v) {
      HeartbeatAnswers(r, slot, id, beat, now, j);
      if id == Some(r.leases[j].id) && slot == j {
        AnsweredId(r.leases[j], s.leases[j], cmd);
        if !cmd.Retarget? {
          MissedAt(r, a, s, now, u, j);
        }
        AnsweredIsHeard(r.leases[j], s.leases[j], cmd, k.told, u, v);
      } else {
        MissedAt(r, a, s, now, u, j);
        SameIsSame(r.leases[j]);
        if cmd.Retarget? && id.Some? {
          OtherTold(r.leases[j], k.told, u, id.value, cmd.share);
        }
        TouchedIsHeard(r.leases[j], s.leases[j], told, u, v);
      }
    }
  }

  lemma SameIsSame(l: Lease)
    ensures SameShare(l, l) && Touched(l, l)
  {
  }

  // ----- every history ----------------------------------------------------------------------------------

  lemma StepHeard(cfg: Settings, r: Run, a: Action, now: real, k: Ledger, u: set<LeaseId>)
    requires WellFormed(r) && AllHeard(r, k.told, u)
    ensures var s := Step(cfg, r, a, now); AllHeard(s, Observe(r, a, s, now, k).told, Missed(r, a, s, now, u))
  {
    hide WellFormed, AllHeard, Observe, Step, Missed;
    match a
    case DoClaim(holder, hint) => ClaimHeard(cfg, r, holder, hint, now, k, u);
    case DoHeartbeat(slot, id, beat) => HeartbeatHeard(cfg, r, slot, id, beat, now, k, u);
    case DoScale(workers, driverOk) => ScaleHeard(cfg, r, workers, driverOk, now, k, u);
    case _ => TouchedStepHeard(cfg, r, a, now, k, u);
  }

  lemma LaunchHeard(r: Run)
    requires Launched(r)
    ensures AllHeard(r, Blank.told, {})
  {
    hide EqualShares;
    var spec: Snapshot, ok: bool :| Provision(spec, ok, r.createdAt) == Success(r);
  }

  lemma {:induction false} AlwaysHeard(cfg: Settings, start: Run, trace: seq<Timed>)
    requires Launched(start)
    ensures AllHeard(Exec(cfg, start, trace), Notes(cfg, start, trace).told, UnheardIds(cfg, start, trace))
  {
    hide WellFormed, AllHeard, Observe, Step, Launched, Missed;
    if trace == [] {
      LaunchHeard(start);
    } else {
      var n := |trace| - 1;
      AlwaysHeard(cfg, start, trace[..n]);
      AlwaysWellFormed(cfg, start, trace[..n]);
      StepHeard(cfg, Exec(cfg, start, trace[..n]), trace[n].action, trace[n].at, Notes(cfg, start, trace[..n]),
                UnheardIds(cfg, start, trace[..n]));
    }
  }

  /** Over every history of scales, rescales, steps down, releases and takeovers: a held lease
      whose share is not the one its holder was told is marked for sending exactly if its id
      did not go unheard. */
  lemma ToldOrMarkedIff(cfg: Settings, start: Run, trace: seq<Timed>, i: nat)
    requires Launched(start) && i < |Exec(cfg, start, trace).leases|
    requires Exec(cfg, start, trace).leases[i].holder.Some?
    ensures var l, told := Exec(cfg, start, trace).leases[i], Notes(cfg, start, trace).told;
            && l.id in told
            && (told[l.id] != l.share.rate ==> (l.share.retarget <==> l.id !in UnheardIds(cfg, start, trace)))
  {
    hide Exec, Notes, Launched, UnheardIds;
    AlwaysHeard(cfg, start, trace);
    assert Heard(Exec(cfg, start, trace).leases[i], Notes(cfg, start, trace).told, UnheardIds(cfg, start, trace));
  }

  /** A rate change that is taken, by rescale or by scale, is pushed to exactly the live. */
  lemma ChangeMarksExactlyTheLive(r: Run, rate: real, workers: int, i: nat)
    requires WellFormed(r) && i < |r.leases|
    ensures Rescale(r, rate) != r ==>
              var l := Rescale(r, rate).leases[i]; l.share.retarget <==> r.leases[i].state.Live()
    ensures var s := Scale(r, workers, true);
            s != r && i < |s.leases| ==> (s.leases[i].share.retarget <==> r.leases[i].state.Live())
  {
    hide Splittable, EqualShares, Each, Resized;
    var changed := ShareList(r.(snap := r.snap.(rate := Some(rate))), |r.leases|);
    if changed.Success? {
      var b := Each(r.leases, Reassign(changed.value));
      assert b[i] == Changed(r.leases[i], Reassign(changed.value));
    }
    var n := EffectiveWorkers(r.snap.replay, workers);
    var shares := ShareList(r, n);
    if shares.Success? {
      ResizedLease(r, n, i);
    }
    if shares.Success? && i < n {
      ResizedSlot(r, n, i);
      var b := Each(Resized(r, n).leases, Reassign(shares.value));
      assert b[i] == Changed(Resized(r, n).leases[i], Reassign(shares.value));
    }
  }
}
