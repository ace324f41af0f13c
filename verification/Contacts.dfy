/** When a worker last called, and what its silence leads to. */
module Contacts {
  import opened Basics
  import opened Apportion
  import opened RunModel
  import opened Lifecycle
  import opened Frames
  import opened RunMachine
  import opened Dialogue
  import opened Promotion
  import opened Grants

  // ----- calls, slot by slot --------------------------------------------------------------------

  /** The last call taken in from a slot's holder, and how often the slot was taken over. */
  datatype Account = Account(last: Option<real>, takeovers: nat)

  const NoCalls := Account(None, 0)

  /** The account of one slot after one more step. */
  function Credited(r: Run, a: Action, s: Run, now: real, slot: nat, c: Account): Account {
    match a
    case DoClaim(holder, hint) =>
      (match GrantFor(r, holder, hint)
       case Held(i) => if i == slot then c.(last := Some(now)) else c
       case Issue(i) =>
         if i == slot then Account(Some(now), c.takeovers + (if r.leases[i].state.Lost? then 1 else 0)) else c
       case Refused => c)
    case DoReady(at, id) =>
      if at == slot && slot < |r.leases| && id == Some(r.leases[slot].id) then c.(last := Some(now)) else c
    case DoHeartbeat(at, id, beat) =>
      if at == slot && Heartbeat(r, at, id, beat, now).1 != Superseded then c.(last := Some(now)) else c
    case DoScale(_, _) => if slot < |s.leases| then c else NoCalls
    case _ => c
  }

  function Calls(cfg: Settings, start: Run, trace: seq<Timed>, slot: nat): Account {
    if trace == [] then NoCalls
    else
      var n := |trace| - 1;
      Credited(Exec(cfg, start, trace[..n]), trace[n].action, Exec(cfg, start, trace), trace[n].at, slot,
                       Calls(cfg, start, trace[..n], slot))
  }

  /** The slot's row says what the account says. */
  predicate InAccount(r: Run, slot: nat, c: Account) {
    if slot < |r.leases| then r.leases[slot].lastHb == c.last && r.leases[slot].restarts == c.takeovers
    else c == NoCalls
  }

  lemma GrantsKeep(r: Run, s: Run, slot: nat, c: Account)
    requires InAccount(r, slot, c) && SameGrants(r.leases, s.leases)
    ensures InAccount(s, slot, c)
  {
  }

  lemma ClaimKeeps(r: Run, holder: string, hint: Option<nat>, now: real, slot: nat, c: Account)
    requires WellFormed(r) && InAccount(r, slot, c)
    ensures var s := Claim(r, holder, hint, now);
            InAccount(s, slot, Credited(r, DoClaim(holder, hint), s, now, slot, c))
  {
    hide WellFormed, IssueAt, HeldBy, NextClaimable;
    var g := GrantFor(r, holder, hint);
    if g.Issue? {
      IssuedLeaseIs(r, g.index, holder, now);
      if slot < |r.leases| && slot != g.index {
        OtherLeasesStay(r, g.index, holder, now, slot);
      }
    }
  }

  lemma OtherLeasesStay(r: Run, i: nat, holder: string, now: real, j: nat)
    requires i < |r.leases| && j < |r.leases| && i != j
    ensures var m := IssueAt(r, i, holder, now).leases[j]; m == r.leases[j].(share := m.share)
  {
    hide TakeoverSplit, SameButShares;
    var lease := Issued(r.leases[i], holder, r.minted, r.t0, now);
    var claimed := r.(leases := r.leases[i := lease], minted := r.minted + 1);
    SplitsKeepGrants(claimed, lease.id);
    SplitAt(claimed.leases, TakeoverSplit(claimed, lease.id), j);
  }

  lemma ReadyKeeps(r: Run, at: nat, id: Option<LeaseId>, now: real, slot: nat, c: Account)
    requires WellFormed(r) && InAccount(r, slot, c)
    ensures var s := MarkReady(r, at, id, now);
            InAccount(s, slot, Credited(r, DoReady(at, id), s, now, slot, c))
  {
    hide Splittable;
    if at < |r.leases| {
      SlotFound(r.leases, at, r.minted);
    }
    hide First;
  }

  lemma HeartbeatKeeps(r: Run, at: nat, id: Option<LeaseId>, beat: Beat, now: real, slot: nat, c: Account)
    requires WellFormed(r) && InAccount(r, slot, c)
    ensures var s := Heartbeat(r, at, id, beat, now).0;
            InAccount(s, slot, Credited(r, DoHeartbeat(at, id, beat), s, now, slot, c))
  {
    hide WellFormed, Heartbeat;
    StrangerOr(r, at, id, beat, now);
    if at < |r.leases| && id == Some(r.leases[at].id) {
      HeartbeatPromotes(r, at, beat, now);
      HeartbeatRenewsOne(r, at, beat, now, slot);
    }
  }

  lemma HeartbeatRenewsOne(r: Run, i: nat, beat: Beat, now: real, j: nat)
    requires WellFormed(r) && i < |r.leases|
    ensures var (s, cmd) := Heartbeat(r, i, Some(r.leases[i].id), beat, now);
            && |s.leases| == |r.leases| && !cmd.Superseded?
            && s.leases[i].restarts == r.leases[i].restarts
            && (j < |r.leases| && j != i ==> s.leases[j] == r.leases[j])
  {
    hide Splittable, First, Reported;
    SlotFound(r.leases, i, r.minted);
  }

  lemma ScaleKeeps(r: Run, workers: int, driverOk: bool, slot: nat, c: Account)
    requires WellFormed(r) && InAccount(r, slot, c)
    ensures var s := Scale(r, workers, driverOk); InAccount(s, slot, if slot < |s.leases| then c else NoCalls)
  {
    hide Splittable, EqualShares, Each;
    var n := EffectiveWorkers(r.snap.replay, workers);
    var shares := ShareList(r, n);
    var sized := Resized(r, n);
    if shares.Success? {
      EachKeepsGrants(sized.leases, Reassign(shares.value));
    }
  }

  lemma OthersKeep(cfg: Settings, r: Run, a: Action, now: real)
    requires !a.DoClaim? && !a.DoReady? && !a.DoHeartbeat? && !a.DoScale?
    ensures SameGrants(r.leases, Step(cfg, r, a, now).leases)
  {
    hide EvaluateRelease, Final, Stop, Rescale, Tick, Reconcile, SameGrants, PausedSeconds;
    match a
    case DoEvaluate => ReleaseKeepsFleet(r, false, now);
    case DoFinal(slot, id, summary) => FinalKeepsGrants(r, slot, id, summary, now);
    case DoStop(force) => StopKeepsGrants(r, force, now);
    case DoRescale(rate) => RescaleKeepsFleet(r, rate);
    case DoTick(boot) => TickKeepsFleet(cfg, r, boot, now);
    case DoReconcile(probe) => ReconcileKeepsGrants(r, probe, now);
    case _ => SameLeases(r.leases);
  }

  lemma FinalKeepsGrants(r: Run, slot: nat, id: Option<LeaseId>, summary: Counters, now: real)
    ensures SameGrants(r.leases, Final(r, slot, id, summary, now).leases)
  {
    hide SlotIndex, MayComplete, TerminalStateFor, DefaultEndReason, Fold;
  }

  lemma StopKeepsGrants(r: Run, force: bool, now: real)
    ensures SameGrants(r.leases, Stop(r, force, now).leases)
  {
    hide Each, LiveTotals, MayComplete, TerminalStateFor, DefaultEndReason;
    EachKeepsGrants(r.leases, Finalise);
  }

  lemma ReconcileKeepsGrants(r: Run, probe: Probe, now: real)
    ensures SameGrants(r.leases, Reconcile(r, probe, now).leases)
  {
    hide Each;
    EachKeepsGrants(r.leases, GiveUp);
  }

  lemma StepKeepsAccount(cfg: Settings, r: Run, a: Action, now: real, slot: nat, c: Account)
    requires WellFormed(r) && InAccount(r, slot, c)
    ensures var s := Step(cfg, r, a, now); InAccount(s, slot, Credited(r, a, s, now, slot, c))
  {
    hide WellFormed, InAccount, Claim, MarkReady, Heartbeat, Scale, GrantFor;
    match a
    case DoClaim(holder, hint) => ClaimKeeps(r, holder, hint, now, slot, c);
    case DoReady(at, id) => ReadyKeeps(r, at, id, now, slot, c);
    case DoHeartbeat(at, id, beat) => HeartbeatKeeps(r, at, id, beat, now, slot, c);
    case DoScale(workers, driverOk) => ScaleKeeps(r, workers, driverOk, slot, c);
    case _ =>
      hide Step;
      OthersKeep(cfg, r, a, now);
      GrantsKeep(r, Step(cfg, r, a, now), slot, c);
  }

  /** After every history a slot's row has the instant of its holder's last call, and counts
      how often it was taken over from a lost holder. */
  lemma {:induction false} RowsKeepTheCalls(cfg: Settings, start: Run, trace: seq<Timed>, slot: nat)
    requires Launched(start)
    ensures InAccount(Exec(cfg, start, trace), slot, Calls(cfg, start, trace, slot))
  {
    hide WellFormed, Launched, Step, InAccount, Credited;
    if trace == [] {
      LaunchKept(start, slot);
    } else {
      var n := |trace| - 1;
      RowsKeepTheCalls(cfg, start, trace[..n], slot);
      AlwaysWellFormed(cfg, start, trace[..n]);
      StepKeepsAccount(cfg, Exec(cfg, start, trace[..n]), trace[n].action, trace[n].at, slot,
                       Calls(cfg, start, trace[..n], slot));
    }
  }

  lemma LaunchKept(r: Run, slot: nat)
    requires Launched(r)
    ensures InAccount(r, slot, NoCalls)
  {
    hide EqualShares;
    var spec: Snapshot, ok: bool :| Provision(spec, ok, r.createdAt) == Success(r);
  }

  // ----- silence -----------------------------------------------------------------------------------

  /** Nothing heard for half a minute, nor is the control plane itself just up. */
  predicate Silent(r: Run, last: Option<real>, boot: real, now: real) {
    now > (if last.Some? then last.value else r.createdAt) + 30.0 && now > boot + 60.0
  }

  /** The wait for the fleet to get ready is over. */
  predicate TimedOut(r: Run, now: real) { r.state.Provisioning? && r.t0.None? && now - r.createdAt > 120.0 }

  /** A drain has used up its grace. */
  predicate Reaped(r: Run, now: real) {
    r.state.Draining? && DrainSince(r.events).Some? && now - DrainSince(r.events).value >= 45.0
  }

  /** A draining run is not checked further. */
  lemma DrainGoesOn(cfg: Settings, r: Run, boot: real, now: real)
    requires r.state.Draining?
    ensures var judged := CheckBackpressure(cfg, TickChecks(r, boot, now), now);
            judged.state == r.state && judged.events == r.events
  {
    hide Any, Each, EvaluateRelease, OpenSince, FailingNow, Rescale;
  }

  lemma LapseIs(r: Run, boot: real, now: real, i: nat)
    requires i < |r.leases|
    ensures var l, m := r.leases[i], LapseLeases(r, boot, now).leases[i];
            m == if l.state.Live() && Silent(r, l.lastHb, boot, now) then l.(state := Lost) else l
  {
  }

  lemma ChecksStates(r: Run, boot: real, now: real, i: nat)
    requires i < |r.leases|
    ensures var l, m := LapseLeases(r, boot, now).leases[i], TickChecks(r, boot, now).leases;
            && |m| == |r.leases|
            && (l.state.Lost? || !TimedOut(r, now) ==> m[i].state == l.state)
  {
    hide Any, DurationOver, TooManyLost, TooManyAuthFailures, EvaluateRelease, Each;
    ReleaseStates(LapseLeases(r, boot, now), now, i);
  }

  lemma ReleaseStates(r: Run, now: real, i: nat)
    requires i < |r.leases|
    ensures var m := EvaluateRelease(r, true, now).leases;
            |m| == |r.leases| && (r.leases[i].state.Lost? ==> m[i].state.Lost?)
  {
    hide Any, SameButShares, ReadySplit;
    var missed := r.(leases := Each(r.leases, MissRelease));
    assert missed.leases[i] == Changed(r.leases[i], MissRelease);
    hide Each;
    SplitsKeepGrants(missed, 0);
    SplitAt(missed.leases, ReadySplit(missed), i);
  }

  lemma BackpressureStates(cfg: Settings, r: Run, now: real, i: nat)
    requires i < |r.leases|
    ensures var m := CheckBackpressure(cfg, r, now).leases; |m| == |r.leases| && m[i].state == r.leases[i].state
  {
    hide Judged, OpenSince, FailingNow, SteppedRate, FloorRate, EqualShares;
    if HasRate(r) {
      RescaleStates(Noted(r), SteppedRate(cfg, r), i);
      hide Rescale;
    }
  }

  lemma RescaleStates(r: Run, rate: real, i: nat)
    requires i < |r.leases|
    ensures var m := Rescale(r, rate).leases; |m| == |r.leases| && m[i].state == r.leases[i].state
  {
    hide EqualShares;
  }

  /** A drain that begins in this pass is timed from now. */
  lemma NewDrainIsTimed(cfg: Settings, r: Run, boot: real, now: real)
    requires !r.state.Draining?
    ensures var judged := CheckBackpressure(cfg, TickChecks(r, boot, now), now);
            judged.state.Draining? ==> DrainSince(judged.events) == Some(now)
  {
    hide TickChecks, Each;
    var checked := TickChecks(r, boot, now);
    CheckedDrain(r, boot, now);
    JudgedDrain(cfg, checked, now);
  }

  lemma CheckedDrain(r: Run, boot: real, now: real)
    requires !r.state.Draining?
    ensures var checked := TickChecks(r, boot, now);
            checked.state.Draining? ==> DrainSince(checked.events) == Some(now)
  {
    hide Any, Each, ReadySplit, DurationOver, TooManyLost, TooManyAuthFailures;
  }

  lemma JudgedDrain(cfg: Settings, r: Run, now: real)
    requires r.state.Draining? ==> DrainSince(r.events) == Some(now)
    ensures var judged := CheckBackpressure(cfg, r, now);
            judged.state.Draining? ==> DrainSince(judged.events) == Some(now)
  {
    hide OpenSince, FailingNow, Rescale, SteppedRate, FloorRate, Any;
    if HasRate(r) {
      RescaleKeepsControl(Noted(r), SteppedRate(cfg, r));
    }
  }

  lemma CompletionLeases(r: Run, now: real)
    ensures MaybeComplete(r, now).leases == r.leases
  {
    hide MayComplete, TerminalStateFor, DefaultEndReason;
  }

  /** What a supervisor pass does to one lease: silence loses it; without silence it stays as it
      is, unless the wait for readiness or the grace of a drain runs out. */
  lemma PassOverOne(cfg: Settings, r: Run, boot: real, now: real, i: nat)
    requires !r.state.Terminal() && !r.state.Pending? && i < |r.leases|
    ensures var l, m := r.leases[i], Tick(cfg, r, boot, now).leases;
            && |m| == |r.leases|
            && (l.state.Live() && Silent(r, l.lastHb, boot, now) ==> m[i].state.Lost?)
            && (!(l.state.Live() && Silent(r, l.lastHb, boot, now)) && !TimedOut(r, now) && !Reaped(r, now) ==>
                  m[i].state == l.state)
  {
    hide Silent, TimedOut, LapseLeases, TickChecks, CheckBackpressure, MaybeComplete, DrainSince;
    LapseIs(r, boot, now, i);
    ChecksStates(r, boot, now, i);
    var checked := TickChecks(r, boot, now);
    BackpressureStates(cfg, checked, now, i);
    var judged := CheckBackpressure(cfg, checked, now);
    CompletionLeases(ReapDraining(judged, now), now);
    if r.state.Draining? {
      DrainGoesOn(cfg, r, boot, now);
    } else {
      NewDrainIsTimed(cfg, r, boot, now);
    }
  }

  /** After every history, told from the calls taken in: a supervisor pass loses every live slot
      not heard from for 30 seconds, and touches no other while the run is neither waiting past
      its time nor 45 seconds into a drain. */
  lemma LostExactlyAfterSilence(cfg: Settings, start: Run, trace: seq<Timed>, boot: real, now: real, slot: nat)
    requires Launched(start) && slot < |Exec(cfg, start, trace).leases|
    requires var r := Exec(cfg, start, trace); !r.state.Terminal() && !r.state.Pending?
    ensures var r, last := Exec(cfg, start, trace), Calls(cfg, start, trace, slot).last;
            var l, m := r.leases[slot], Tick(cfg, r, boot, now).leases;
            && |m| == |r.leases|
            && (l.state.Live() && Silent(r, last, boot, now) ==> m[slot].state.Lost?)
            && (!(l.state.Live() && Silent(r, last, boot, now)) && !TimedOut(r, now) && !Reaped(r, now) ==>
                  m[slot].state == l.state)
  {
    hide Launched, Exec, Calls, Silent, TimedOut, Reaped, Tick;
    RowsKeepTheCalls(cfg, start, trace, slot);
    PassOverOne(cfg, Exec(cfg, start, trace), boot, now, slot);
  }
}
