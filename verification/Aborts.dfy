/** When a supervisor pass gives a run up, told from the calls its workers made. */
module Aborts {
  import opened Basics
  import opened Apportion
  import opened RunModel
  import opened Lifecycle
  import opened Frames
  import opened RunMachine
  import opened Dialogue
  import opened Endings
  import opened Contacts

  // ----- counting slots --------------------------------------------------------------------------

  function SlotsFrom(leases: seq<Lease>, p: Pick, k: nat): set<nat> {
    set i | k <= i < |leases| && Is(leases[i], p)
  }

  lemma {:induction false} CountIsSize(leases: seq<Lease>, p: Pick, k: nat)
    requires k <= |leases|
    ensures Count(leases[k..], p) == |SlotsFrom(leases, p, k)|
    decreases |leases| - k
  {
    hide Is, SlotsFrom;
    if k == |leases| {
      NoSlots(leases, p);
    } else {
      CountIsSize(leases, p, k + 1);
      OneSlot(leases, p, k);
      assert leases[k..][0] == leases[k] && leases[k..][1..] == leases[k + 1..];
    }
  }

  lemma NoSlots(leases: seq<Lease>, p: Pick)
    ensures SlotsFrom(leases, p, |leases|) == {}
  {
  }

  lemma OneSlot(leases: seq<Lease>, p: Pick, k: nat)
    requires k < |leases|
    ensures k !in SlotsFrom(leases, p, k + 1)
    ensures SlotsFrom(leases, p, k) ==
            if Is(leases[k], p) then SlotsFrom(leases, p, k + 1) + {k} else SlotsFrom(leases, p, k + 1)
  {
    hide Is;
  }

  /** The latest lapse lies far enough back exactly when each does. */
  lemma {:induction false} LatestBounds(leases: seq<Lease>, k: nat, limit: real)
    requires k <= |leases|
    ensures LatestLapse(leases[k..]).Some? <==> SlotsFrom(leases, LostAfterRunning, k) != {}
    ensures LatestLapse(leases[k..]).Some? ==>
              (LatestLapse(leases[k..]).value <= limit <==>
               forall i :: i in SlotsFrom(leases, LostAfterRunning, k) ==> leases[i].lastHb.value <= limit)
    decreases |leases| - k
  {
    if k == |leases| {
      NoSlots(leases, LostAfterRunning);
    } else {
      LatestBounds(leases, k + 1, limit);
      OneSlot(leases, LostAfterRunning, k);
      assert leases[k..][0] == leases[k] && leases[k..][1..] == leases[k + 1..];
    }
  }

  // ----- the slots that are gone ------------------------------------------------------------------------

  /** The slots lost by the end of the pass whose holders once called. */
  function Gone(cfg: Settings, start: Run, trace: seq<Timed>, boot: real, now: real): set<nat> {
    var r := Exec(cfg, start, trace);
    set i | 0 <= i < |r.leases| && Calls(cfg, start, trace, i).last.Some?
            && (r.leases[i].state.Lost?
                || (r.leases[i].state.Live() && Silent(r, Calls(cfg, start, trace, i).last, boot, now)))
  }

  /** More than half the fleet is gone, none of it heard from for five minutes. */
  predicate FleetGone(cfg: Settings, start: Run, trace: seq<Timed>, boot: real, now: real) {
    var gone := Gone(cfg, start, trace, boot, now);
    && 2 * |gone| > |Exec(cfg, start, trace).leases|
    && forall i :: i in gone ==> now - Calls(cfg, start, trace, i).last.value >= 300.0
  }

  lemma GoneAre(cfg: Settings, start: Run, trace: seq<Timed>, boot: real, now: real)
    requires Launched(start)
    ensures var lapsed := LapseLeases(Exec(cfg, start, trace), boot, now).leases;
            && SlotsFrom(lapsed, LostAfterRunning, 0) == Gone(cfg, start, trace, boot, now)
            && forall i :: i in Gone(cfg, start, trace, boot, now) ==>
                 i < |lapsed| && lapsed[i].lastHb == Calls(cfg, start, trace, i).last
  {
    hide Launched, Exec, Calls, Silent, LapseLeases;
    var r := Exec(cfg, start, trace);
    var lapsed := LapseLeases(r, boot, now).leases;
    LapseLength(r, boot, now);
    forall i | 0 <= i < |r.leases|
      ensures i in SlotsFrom(lapsed, LostAfterRunning, 0) <==> i in Gone(cfg, start, trace, boot, now)
      ensures lapsed[i].lastHb == Calls(cfg, start, trace, i).last
    {
      RowsKeepTheCalls(cfg, start, trace, i);
      LapseIs(r, boot, now, i);
    }
  }

  lemma LapseLength(r: Run, boot: real, now: real)
    ensures |LapseLeases(r, boot, now).leases| == |r.leases|
  {
  }

  lemma TooManyLostIs(cfg: Settings, start: Run, trace: seq<Timed>, boot: real, now: real)
    requires Launched(start) && Exec(cfg, start, trace).t0.Some?
    ensures TooManyLost(LapseLeases(Exec(cfg, start, trace), boot, now), now) <==>
            FleetGone(cfg, start, trace, boot, now)
  {
    hide Launched, Exec, Calls, Silent, Count, LatestLapse, Each, Gone;
    var r := Exec(cfg, start, trace);
    var lapsed := LapseLeases(r, boot, now);
    GoneAre(cfg, start, trace, boot, now);
    CountIsSize(lapsed.leases, LostAfterRunning, 0);
    LatestBounds(lapsed.leases, 0, now - 300.0);
    assert lapsed.leases[0..] == lapsed.leases;
    LapseLength(r, boot, now);
  }

  // ----- refused credentials -----------------------------------------------------------------------------

  /** The slots whose heartbeats have reported refused credentials. */
  function Refused(cfg: Settings, start: Run, trace: seq<Timed>): set<nat> {
    if trace == [] then {}
    else
      var n := |trace| - 1;
      var r, rest := Exec(cfg, start, trace[..n]), Refused(cfg, start, trace[..n]);
      match trace[n].action
      case DoHeartbeat(slot, id, beat) =>
        if beat.authFailed && Heartbeat(r, slot, id, beat, trace[n].at).1 != Superseded then rest + {slot} else rest
      case _ => rest
  }

  /** The same auth failures are on record. */
  ghost predicate SameFailures(a: seq<Event>, b: seq<Event>) {
    forall e: Event :: e.AuthFailed? ==> (e in b <==> e in a)
  }

  lemma FailuresAppend(a: seq<Event>, e: Event)
    requires !e.AuthFailed?
    ensures SameFailures(a, a + [e])
  {
  }

  lemma FailuresSets(a: seq<Event>, b: seq<Event>)
    requires SameFailures(a, b)
    ensures AuthFailedSlots(b) == AuthFailedSlots(a)
  {
    forall slot ensures slot in AuthFailedSlots(b) <==> slot in AuthFailedSlots(a) {
      if slot in AuthFailedSlots(b) {
        var e :| e in b && e.AuthFailed? && e.slot == slot;
        assert e in a;
      }
      if slot in AuthFailedSlots(a) {
        var e :| e in a && e.AuthFailed? && e.slot == slot;
        assert e in b;
      }
    }
  }

  lemma TransitionFailures(r: Run, to: RunState, reason: Option<EndReason>, now: real)
    ensures SameFailures(r.events, Transition(r, to, reason, now).events)
  {
    hide SameFailures;
    FailuresAppend(r.events, StateChange(now, r.state, to));
    FailuresRefl(r.events);
  }

  lemma FailuresRefl(a: seq<Event>)
    ensures SameFailures(a, a)
  {
  }

  lemma FailuresTrans(a: seq<Event>, b: seq<Event>, c: seq<Event>)
    requires SameFailures(a, b) && SameFailures(b, c)
    ensures SameFailures(a, c)
  {
  }

  lemma CompletionFailures(r: Run, now: real)
    ensures SameFailures(r.events, MaybeComplete(r, now).events)
  {
    hide SameFailures, MayComplete, Transition, TerminalStateFor, DefaultEndReason;
    FailuresRefl(r.events);
    var terminal := TerminalStateFor(r);
    var reason := if r.endReason.Some? then r.endReason.value else DefaultEndReason(r, terminal);
    TransitionFailures(r, terminal, Some(reason), now);
  }

  lemma ReleaseFailures(r: Run, forcePartial: bool, now: real)
    ensures SameFailures(r.events, EvaluateRelease(r, forcePartial, now).events)
  {
    hide SameFailures, Any, Each, ReadySplit, Transition;
    FailuresRefl(r.events);
    var missed := r.(leases := Each(r.leases, MissRelease));
    TransitionFailures(missed, RunState.Failed, Some(StrictReleaseTimeout), now);
    TransitionFailures(r.(t0 := Some(now + RELEASE_DELAY_S)), Releasing, None, now);
    var degraded := missed.(degraded := true, leases := ReadySplit(missed));
    TransitionFailures(degraded.(t0 := Some(now + RELEASE_DELAY_S)), Releasing, None, now);
  }

  lemma ChecksFailures(r: Run, boot: real, now: real)
    ensures SameFailures(r.events, TickChecks(r, boot, now).events)
  {
    hide SameFailures, Any, Each, EvaluateRelease, Transition, DurationOver, TooManyLost, TooManyAuthFailures;
    var lapsed := LapseLeases(r, boot, now);
    FailuresRefl(r.events);
    ReleaseFailures(lapsed, true, now);
    TransitionFailures(lapsed, RunState.Failed, Some(ProvisionTimeout), now);
    var waited := ReleaseTimeout(lapsed, now);
    TransitionFailures(waited, Draining, Some(DurationComplete), now);
    FailuresTrans(r.events, waited.events, Transition(waited, Draining, Some(DurationComplete), now).events);
    var timed := CheckDuration(waited, now);
    TransitionFailures(timed, RunState.Failed, Some(AutoAbortLost), now);
    TransitionFailures(timed, RunState.Failed, Some(AutoAbortAuth), now);
    FailuresTrans(r.events, timed.events, Transition(timed, RunState.Failed, Some(AutoAbortLost), now).events);
    FailuresTrans(r.events, timed.events, Transition(timed, RunState.Failed, Some(AutoAbortAuth), now).events);
  }

  lemma BackpressureFailures(cfg: Settings, r: Run, now: real)
    ensures SameFailures(r.events, CheckBackpressure(cfg, r, now).events)
  {
    hide SameFailures, Judged, OpenSince, FailingNow, Rescale, SteppedRate, FloorRate, Transition;
    FailuresRefl(r.events);
    FailuresAppend(r.events, Cleared(now));
    FailuresAppend(r.events, Detected(now));
    FailuresAppend(r.events, SteppedDown(now));
    TransitionFailures(r, Draining, Some(BackpressureDrain), now);
  }

  lemma TickFailures(cfg: Settings, r: Run, boot: real, now: real)
    ensures SameFailures(r.events, Tick(cfg, r, boot, now).events)
  {
    hide SameFailures, TickChecks, CheckBackpressure, Each, DrainSince, MaybeComplete;
    FailuresRefl(r.events);
    var checked := TickChecks(r, boot, now);
    var judged := CheckBackpressure(cfg, checked, now);
    ChecksFailures(r, boot, now);
    BackpressureFailures(cfg, checked, now);
    FailuresTrans(r.events, checked.events, judged.events);
    CompletionFailures(ReapDraining(judged, now), now);
    FailuresTrans(r.events, judged.events, MaybeComplete(ReapDraining(judged, now), now).events);
  }

  lemma FinalFailures(r: Run, slot: nat, id: Option<LeaseId>, summary: Counters, now: real)
    ensures SameFailures(r.events, Final(r, slot, id, summary, now).events)
  {
    hide SameFailures, SlotIndex, MaybeComplete, Fold;
    FailuresRefl(r.events);
    CompletionFailures(r, now);
    var i := SlotIndex(r.leases, slot);
    if i.Some? {
      CompletionFailures(WithState(r, i.value, Done).(totals := Fold(r.totals, summary)), now);
    }
  }

  lemma OperatorFailures(r: Run, force: bool, probe: Probe, now: real)
    ensures SameFailures(r.events, Stop(r, force, now).events)
    ensures SameFailures(r.events, Pause(r, now).events) && SameFailures(r.events, Resume(r, now).events)
    ensures SameFailures(r.events, Reconcile(r, probe, now).events)
  {
    hide SameFailures, Transition, MaybeComplete, LiveTotals, Each, PausedSeconds;
    FailuresRefl(r.events);
    var ended := EndPause(r, now);
    var draining := Transition(ended, Draining, Some(OperatorStop), now);
    TransitionFailures(ended, Draining, Some(OperatorStop), now);
    var folded := HeartbeatsFolded(draining);
    var last := folded.(leases := Each(folded.leases, Finalise));
    CompletionFailures(last, now);
    FailuresTrans(r.events, draining.events, MaybeComplete(last, now).events);
    TransitionFailures(r.(pausedAt := Some(now)), Paused, None, now);
    TransitionFailures(ended, RunState.Running, None, now);
    TransitionFailures(r, RunState.Failed, Some(Orphaned), now);
  }

  lemma StepFailures(cfg: Settings, r: Run, a: Action, now: real)
    requires !a.DoHeartbeat?
    ensures SameFailures(r.events, Step(cfg, r, a, now).events)
  {
    hide SameFailures, Claim, MarkReady, EvaluateRelease, Final, Stop, Pause, Resume, Scale, Rescale, Tick, Reconcile;
    FailuresRefl(r.events);
    match a
    case DoEvaluate => ReleaseFailures(r, false, now);
    case DoFinal(slot, id, summary) => FinalFailures(r, slot, id, summary, now);
    case DoStop(force) => OperatorFailures(r, force, NoRef, now);
    case DoPause => OperatorFailures(r, false, NoRef, now);
    case DoResume => OperatorFailures(r, false, NoRef, now);
    case DoReconcile(probe) => OperatorFailures(r, false, probe, now);
    case DoTick(boot) => TickFailures(cfg, r, boot, now);
    case _ => QuietStep(cfg, r, a, now);
  }

  lemma HeartbeatFailures(r: Run, slot: nat, id: Option<LeaseId>, beat: Beat, now: real)
    ensures var (s, cmd) := Heartbeat(r, slot, id, beat, now);
            AuthFailedSlots(s.events) ==
            AuthFailedSlots(r.events) + (if beat.authFailed && cmd != Superseded then {slot} else {})
  {
    hide CommandFor, Reported, First, AuthFailedSlots;
    var i := HolderIndex(r.leases, slot, id);
    if i.Some? {
      var renewed := Renewed(r, i.value, beat, now);
      CommandEvents(renewed, i.value, beat.protocolOk, now);
      FailuresSets(renewed.events, CommandFor(renewed, i.value, beat.protocolOk, now).0.events);
      OneFailure(r.events, now, slot);
    }
  }

  lemma OneFailure(events: seq<Event>, now: real, slot: nat)
    ensures AuthFailedSlots(events + [AuthFailed(now, slot)]) == AuthFailedSlots(events) + {slot}
  {
    var more := events + [AuthFailed(now, slot)];
    assert AuthFailed(now, slot) in more;
    assert forall e :: e in more <==> e in events || e == AuthFailed(now, slot);
  }

  lemma CommandEvents(r: Run, i: nat, protocolOk: bool, now: real)
    requires i < |r.leases|
    ensures SameFailures(r.events, CommandFor(r, i, protocolOk, now).0.events)
    ensures !CommandFor(r, i, protocolOk, now).1.Superseded?
  {
    hide SameFailures;
    FailuresRefl(r.events);
    FailuresAppend(r.events, StateChange(now, r.state, RunState.Running));
  }

  /** The log names exactly the slots whose heartbeats reported refused credentials. */
  lemma {:induction false} LogNamesTheRefused(cfg: Settings, start: Run, trace: seq<Timed>)
    requires Launched(start)
    ensures AuthFailedSlots(Exec(cfg, start, trace).events) == Refused(cfg, start, trace)
  {
    hide Launched, Heartbeat, AuthFailedSlots, SameFailures;
    if trace == [] {
      LaunchRefused(start);
    } else {
      var n := |trace| - 1;
      var r, a, now := Exec(cfg, start, trace[..n]), trace[n].action, trace[n].at;
      LogNamesTheRefused(cfg, start, trace[..n]);
      if a.DoHeartbeat? {
        HeartbeatFailures(r, a.slot, a.id, a.beat, now);
      } else {
        hide Step;
        StepFailures(cfg, r, a, now);
        FailuresSets(r.events, Step(cfg, r, a, now).events);
      }
    }
  }

  lemma LaunchRefused(r: Run)
    requires Launched(r)
    ensures AuthFailedSlots(r.events) == {}
  {
    hide EqualShares;
  }

  // ----- the verdict --------------------------------------------------------------------------------------

  /** A pass over a run that is neither winding down nor past its duration or its wait. */
  predicate Ongoing(r: Run, now: real) {
    && !r.state.Terminal() && !r.state.Pending? && !r.state.Draining?
    && !TimedOut(r, now) && !DurationOver(r, now)
  }

  lemma ChecksAre(r: Run, boot: real, now: real)
    requires Ongoing(r, now)
    ensures TickChecks(r, boot, now) == CheckAutoAbort(LapseLeases(r, boot, now), now)
  {
    hide Any, Each, CheckAutoAbort, EvaluateRelease;
  }

  /** A pass that gives the run up changes nothing more; any other gives no such reason. */
  lemma RestOfPass(cfg: Settings, r: Run, boot: real, now: real)
    requires Ongoing(r, now) && r.endReason.None?
    ensures var checked, s := TickChecks(r, boot, now), Tick(cfg, r, boot, now);
            if checked.state.Terminal() then s == checked
            else s.endReason != Some(AutoAbortLost) && s.endReason != Some(AutoAbortAuth)
  {
    hide TickChecks, CheckBackpressure, MaybeComplete, Each, DrainSince, DurationOver;
    var checked := TickChecks(r, boot, now);
    var judged := CheckBackpressure(cfg, checked, now);
    BackpressureDecides(cfg, checked, now);
    ChecksDecide(r, boot, now);
    var reaped := ReapDraining(judged, now);
    CompletesResolved(reaped, now);
    if checked.state.Terminal() {
      NotResolved(reaped);
    } else if MaybeComplete(reaped, now).state.Terminal() {
      CompletionIff(reaped, now);
    }
  }

  lemma AbortIs(r: Run, boot: real, now: real)
    requires Ongoing(r, now) && r.leases != [] && r.endReason.None?
    ensures var lapsed, s := LapseLeases(r, boot, now), TickChecks(r, boot, now);
            var lost, auth := TooManyLost(lapsed, now), TooManyAuthFailures(lapsed);
            && (s.state.Terminal() <==> lost || auth)
            && (lost || auth ==> s.state.Failed? && s.endReason == Some(if lost then AutoAbortLost else AutoAbortAuth))
  {
    hide Each, TooManyLost, TooManyAuthFailures, TickChecks;
    ChecksAre(r, boot, now);
  }

  /** After every history, told from the calls taken in: a pass over an ongoing run gives it up
      for lost workers exactly when it is released, more than half its slots are gone and none
      of those was heard from for five minutes; and otherwise for refused credentials exactly
      when at least half its slots, and one at least, have reported them. */
  lemma GivenUpIff(cfg: Settings, start: Run, trace: seq<Timed>, boot: real, now: real)
    requires Launched(start) && Ongoing(Exec(cfg, start, trace), now)
    ensures var r := Exec(cfg, start, trace);
            var s, refused := Tick(cfg, r, boot, now), |Refused(cfg, start, trace)|;
            var lost := r.t0.Some? && FleetGone(cfg, start, trace, boot, now);
            && (s.endReason == Some(AutoAbortLost) <==> lost)
            && (s.endReason == Some(AutoAbortAuth) <==> !lost && refused > 0 && refused >= |r.leases| / 2)
            && (s.endReason == Some(AutoAbortLost) || s.endReason == Some(AutoAbortAuth) ==> s.state.Failed?)
  {
    hide Launched, Exec, Tick, TickChecks, FleetGone, Refused, Ongoing, AuthFailedSlots, Sound, WellFormed, Count,
         LatestLapse;
    var r := Exec(cfg, start, trace);
    AlwaysSound(cfg, start, trace);
    AlwaysWellFormed(cfg, start, trace);
    NotEmpty(r);
    NoReasonYet(r, now);
    AbortIs(r, boot, now);
    RestOfPass(cfg, r, boot, now);
    LogNamesTheRefused(cfg, start, trace);
    LapseLength(r, boot, now);
    if r.t0.Some? {
      TooManyLostIs(cfg, start, trace, boot, now);
    }
  }

  lemma NoReasonYet(r: Run, now: real)
    requires Sound(r) && Ongoing(r, now)
    ensures r.endReason.None?
  {
    hide Any, NoneRunning, DurationOver, TimedOut;
  }
}
