/** When a fleet is released, for which instant, and when the wait for it is given up. */
module Releases {
  import opened Basics
  import opened Apportion
  import opened RunModel
  import opened Lifecycle
  import opened Frames
  import opened RunMachine
  import opened Dialogue
  import opened Endings
  import opened Contacts

  predicate SomeReady(leases: seq<Lease>) { exists i :: 0 <= i < |leases| && leases[i].state.Ready? }

  predicate SomeWaiting(leases: seq<Lease>) {
    exists i :: 0 <= i < |leases| && (leases[i].state.Free? || leases[i].state.Claimed?)
  }

  lemma WaitingMeans(leases: seq<Lease>)
    ensures Any(leases, Warmed) <==> SomeReady(leases)
    ensures Any(leases, Awaited) <==> SomeWaiting(leases)
  {
    if i :| 0 <= i < |leases| && leases[i].state.Ready? {
      assert Is(leases[i], Warmed);
    }
    if i :| 0 <= i < |leases| && (leases[i].state.Free? || leases[i].state.Claimed?) {
      assert Is(leases[i], Awaited);
    }
    if i :| 0 <= i < |leases| && Is(leases[i], Awaited) {
      assert leases[i].state.Free? || leases[i].state.Claimed?;
    }
  }

  /** A worker's readiness releases the fleet exactly when it was the last one waited for, and
      then for two seconds on. */
  lemma ReleasedIff(r: Run, now: real)
    requires Sound(r)
    ensures var s := EvaluateRelease(r, false, now);
            var all := r.t0.None? && (r.state.Provisioning? || r.state.Preparing?)
                       && SomeReady(r.leases) && !SomeWaiting(r.leases);
            && (all ==> s.t0 == Some(now + 2.0) && s.state.Releasing? && s.leases == r.leases
                        && s.degraded == r.degraded)
            && (!all ==> s == r)
  {
    hide Any, NoneRunning, Delivered;
    WaitingMeans(r.leases);
    hide SomeReady, SomeWaiting;
  }

  // ----- the wait ----------------------------------------------------------------------------------

  /** Ready, or waited for, once the pass has lost the silent. */
  predicate ReadyStill(r: Run, boot: real, now: real) {
    exists i :: 0 <= i < |r.leases| && r.leases[i].state.Ready? && !Silent(r, r.leases[i].lastHb, boot, now)
  }

  predicate WaitingStill(r: Run, boot: real, now: real) {
    exists i :: 0 <= i < |r.leases| &&
      (r.leases[i].state.Free? || (r.leases[i].state.Claimed? && !Silent(r, r.leases[i].lastHb, boot, now)))
  }

  lemma StillAre(r: Run, boot: real, now: real)
    ensures var lapsed := LapseLeases(r, boot, now).leases;
            && (SomeReady(lapsed) <==> ReadyStill(r, boot, now))
            && (SomeWaiting(lapsed) <==> WaitingStill(r, boot, now))
  {
    hide Silent;
    var lapsed := LapseLeases(r, boot, now).leases;
    hide Each;
    forall i | 0 <= i < |r.leases|
      ensures lapsed[i] == if r.leases[i].state.Live() && Silent(r, r.leases[i].lastHb, boot, now)
                           then r.leases[i].(state := Lost) else r.leases[i]
    {
      LapseIs(r, boot, now, i);
    }
    if i :| 0 <= i < |r.leases| && r.leases[i].state.Ready? && !Silent(r, r.leases[i].lastHb, boot, now) {
      assert lapsed[i].state.Ready?;
    }
    if i :| 0 <= i < |r.leases| &&
            (r.leases[i].state.Free? || (r.leases[i].state.Claimed? && !Silent(r, r.leases[i].lastHb, boot, now))) {
      assert lapsed[i].state.Free? || lapsed[i].state.Claimed?;
    }
  }

  /** What the wait comes to in a pass over a run not yet released. */
  predicate WaitEnds(r: Run, s: Run, boot: real, now: real) {
    if !TimedOut(r, now) then s.t0 == r.t0
    else if ReadyStill(r, boot, now) then
      if WaitingStill(r, boot, now) && r.snap.strictRelease then
        s.t0.None? && s.state.Failed? && s.endReason == Some(StrictReleaseTimeout)
      else s.t0 == Some(now + 2.0) && (WaitingStill(r, boot, now) ==> s.degraded)
    else if WaitingStill(r, boot, now) then s.t0.None?
    else s.t0.None? && s.state.Failed? && s.endReason == Some(ProvisionTimeout)
  }

  lemma TimeoutEnds(r: Run, boot: real, now: real)
    requires !r.state.Terminal()
    ensures WaitEnds(r, ReleaseTimeout(LapseLeases(r, boot, now), now), boot, now)
  {
    hide Any, Each, ReadySplit, ReadyStill, WaitingStill, SomeReady, SomeWaiting;
    StillAre(r, boot, now);
    WaitingMeans(LapseLeases(r, boot, now).leases);
  }

  /** The later checks of a pass leave that as it is. */
  predicate Stays(a: Run, b: Run) {
    && b.t0 == a.t0 && (a.degraded ==> b.degraded)
    && (a.state.Terminal() ==> b.state == a.state && b.endReason == a.endReason)
  }

  lemma LaterChecksStay(r: Run, now: real)
    ensures Stays(r, CheckAutoAbort(CheckDuration(r, now), now))
  {
    hide DurationOver, TooManyLost, TooManyAuthFailures;
    if r.state.Terminal() {
      NotOver(r, now);
    }
  }

  lemma NotOver(r: Run, now: real)
    requires r.state.Terminal()
    ensures !DurationOver(r, now)
  {
  }

  lemma JudgingStays(cfg: Settings, r: Run, now: real)
    ensures Stays(r, CheckBackpressure(cfg, r, now))
  {
    hide OpenSince, FailingNow, Rescale, SteppedRate, FloorRate, Any;
    if HasRate(r) {
      RescaleKeepsControl(Noted(r), SteppedRate(cfg, r));
    }
  }

  lemma CompletionStays(r: Run, now: real)
    ensures Stays(r, MaybeComplete(r, now))
  {
    hide Any, TerminalStateFor, DefaultEndReason;
  }

  lemma StaysTrans(a: Run, b: Run, c: Run)
    requires Stays(a, b) && Stays(b, c)
    ensures Stays(a, c)
  {
  }

  lemma WaitStays(r: Run, a: Run, b: Run, boot: real, now: real)
    requires WaitEnds(r, a, boot, now) && Stays(a, b)
    ensures WaitEnds(r, b, boot, now)
  {
    hide TimedOut, ReadyStill, WaitingStill;
  }

  /** A supervisor pass sets T0 only when the wait is over and somebody is ready, two seconds on;
      it fails the run when nobody is left to wait for, or when all had to be ready and are not. */
  lemma PassEndsTheWait(cfg: Settings, r: Run, boot: real, now: real)
    requires !r.state.Terminal() && !r.state.Pending?
    ensures WaitEnds(r, Tick(cfg, r, boot, now), boot, now)
  {
    hide WaitEnds, ReleaseTimeout, CheckAutoAbort, CheckDuration, CheckBackpressure, MaybeComplete, Stays, DrainSince,
         LapseLeases, Each;
    var waited := ReleaseTimeout(LapseLeases(r, boot, now), now);
    TimeoutEnds(r, boot, now);
    LaterChecksStay(waited, now);
    var checked := TickChecks(r, boot, now);
    JudgingStays(cfg, checked, now);
    var judged := CheckBackpressure(cfg, checked, now);
    StaysTrans(waited, checked, judged);
    var reaped := ReapDraining(judged, now);
    ReapStays(judged, now);
    CompletionStays(reaped, now);
    StaysTrans(waited, judged, reaped);
    StaysTrans(waited, reaped, MaybeComplete(reaped, now));
    WaitStays(r, waited, Tick(cfg, r, boot, now), boot, now);
  }

  lemma ReapStays(r: Run, now: real)
    ensures Stays(r, ReapDraining(r, now))
  {
    hide Each, DrainSince;
  }

  // ----- every history ----------------------------------------------------------------------------------

  lemma StepSetsT0(cfg: Settings, r: Run, a: Action, now: real)
    requires Sound(r) && r.t0.None? && Step(cfg, r, a, now).t0.Some?
    ensures (a.DoEvaluate? || a.DoTick?) && Step(cfg, r, a, now).t0 == Some(now + 2.0)
  {
    hide Sound, Claim, MarkReady, EvaluateRelease, CommandFor, Final, MaybeComplete, Scale, Rescale, Tick, Each,
         HolderIndex, LiveTotals, Reported, PausedSeconds;
    if a.DoClaim? || a.DoReady? || a.DoScale? || a.DoRescale? {
      QuietStep(cfg, r, a, now);
      return;
    }
    match a
    case DoEvaluate => ReleasedIff(r, now);
    case DoHeartbeat(slot, id, beat) =>
      var i := HolderIndex(r.leases, slot, id);
      if i.Some? {
        CommandControl(Renewed(r, i.value, beat, now), i.value, beat.protocolOk, now);
      }
    case DoFinal(slot, id, summary) => FinalKeepsT0(r, slot, id, summary, now);
    case DoStop(force) => StopKeepsT0(r, force, now);
    case DoTick(boot) => TickSetsT0(cfg, r, boot, now);
    case _ =>
  }

  lemma FinalKeepsT0(r: Run, slot: nat, id: Option<LeaseId>, summary: Counters, now: real)
    ensures Final(r, slot, id, summary, now).t0 == r.t0
  {
    hide SlotIndex, MaybeComplete, Fold, Stays;
    CompletionT0(r, now);
    var i := SlotIndex(r.leases, slot);
    if i.Some? {
      CompletionT0(WithState(r, i.value, Done).(totals := Fold(r.totals, summary)), now);
    }
  }

  lemma CompletionT0(r: Run, now: real)
    ensures MaybeComplete(r, now).t0 == r.t0
  {
    hide MaybeComplete;
    CompletionStays(r, now);
  }

  lemma StopKeepsT0(r: Run, force: bool, now: real)
    ensures Stop(r, force, now).t0 == r.t0
  {
    hide MaybeComplete, LiveTotals, Each, PausedSeconds;
    var folded := HeartbeatsFolded(Transition(EndPause(r, now), Draining, Some(OperatorStop), now));
    CompletionT0(folded.(leases := Each(folded.leases, Finalise)), now);
  }

  lemma TickSetsT0(cfg: Settings, r: Run, boot: real, now: real)
    requires r.t0.None? && Tick(cfg, r, boot, now).t0.Some?
    ensures Tick(cfg, r, boot, now).t0 == Some(now + 2.0)
  {
    hide TickChecks, CheckBackpressure, MaybeComplete, ReapDraining, TimedOut, ReadyStill, WaitingStill;
    if !r.state.Terminal() && !r.state.Pending? {
      PassEndsTheWait(cfg, r, boot, now);
    }
  }

  /** T0 is two seconds after the step that released the fleet. */
  lemma {:induction false} T0IsTwoSecondsOn(cfg: Settings, start: Run, trace: seq<Timed>) returns (k: nat)
    requires Launched(start) && Exec(cfg, start, trace).t0.Some?
    ensures k < |trace| && (trace[k].action.DoEvaluate? || trace[k].action.DoTick?)
    ensures Exec(cfg, start, trace[..k]).t0.None? && Exec(cfg, start, trace).t0 == Some(trace[k].at + 2.0)
  {
    hide Launched, Step, Sound;
    if trace == [] {
      LaunchHasNoT0(start);
    } else {
      var n := |trace| - 1;
      var r := Exec(cfg, start, trace[..n]);
      AlwaysSound(cfg, start, trace[..n]);
      if r.t0.Some? {
        k := T0IsTwoSecondsOn(cfg, start, trace[..n]);
        assert trace[..n][..k] == trace[..k];
        StepKeepsEndAndT0(cfg, r, trace[n].action, trace[n].at);
      } else {
        k := n;
        StepSetsT0(cfg, r, trace[n].action, trace[n].at);
      }
    }
  }

  lemma LaunchHasNoT0(r: Run)
    requires Launched(r)
    ensures r.t0.None?
  {
    hide EqualShares;
  }
}
