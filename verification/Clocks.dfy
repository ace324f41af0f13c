/** The run's clocks: how long a drain can last and what a pause does to a duration. */
module Clocks {
  import opened Basics
  import opened Apportion
  import opened RunModel
  import opened Lifecycle
  import opened Frames
  import opened RunMachine

  // ----- bounded drain --------------------------------------------------------------------

  /** How many times the log says the run began to drain. */
  function DrainStarts(events: seq<Event>): nat {
    if events == [] then 0
    else
      var e := events[|events| - 1];
      DrainStarts(events[..|events| - 1]) + (if e.StateChange? && e.to.Draining? then 1 else 0)
  }

  lemma StartsAppend(events: seq<Event>, e: Event)
    ensures DrainStarts(events + [e]) == DrainStarts(events) + (if e.StateChange? && e.to.Draining? then 1 else 0)
    ensures DrainSince(events + [e]) == if e.StateChange? && e.to.Draining? then Some(e.ts) else DrainSince(events)
  {
    assert (events + [e])[..|events|] == events;
  }

  /** The drain clock starts when the run begins to drain and can be restarted once, by an
      operator who stops a run that was draining for another reason. */
  predicate DrainClock(r: Run) {
    && (!r.state.Draining? && !r.state.Terminal() ==> DrainStarts(r.events) == 0)
    && (r.state.Draining? ==>
          && DrainSince(r.events).Some?
          && 1 <= DrainStarts(r.events) <= if r.endReason == Some(OperatorStop) then 2 else 1)
    && DrainStarts(r.events) <= 2
  }

  lemma TransitionKeepsDrainClock(r: Run, to: RunState, reason: Option<EndReason>, now: real)
    requires DrainClock(r) && !r.state.Terminal()
    requires to.Terminal() || (r.state.Draining? ==> to.Draining? && reason == Some(OperatorStop))
    requires to.Draining? ==> reason.Some?
    ensures DrainClock(Transition(r, to, reason, now))
  {
    StartsAppend(r.events, StateChange(now, r.state, to));
  }

  lemma LogKeepsDrainClock(r: Run, e: Event)
    requires DrainClock(r) && !e.StateChange?
    ensures DrainClock(r.(events := r.events + [e]))
  {
    StartsAppend(r.events, e);
  }

  /** The clock reads only the state, the reason and the log. */
  lemma SameDrainClock(r: Run, s: Run)
    requires DrainClock(r) && s.state == r.state && s.endReason == r.endReason && s.events == r.events
    ensures DrainClock(s)
  {
  }

  lemma CompletionKeepsDrainClock(r: Run, now: real)
    requires DrainClock(r)
    ensures DrainClock(MaybeComplete(r, now))
  {
    hide DrainClock, Any, Delivered;
    if MayComplete(r) {
      var terminal := TerminalStateFor(r);
      TransitionKeepsDrainClock(r, terminal,
        Some(if r.endReason.Some? then r.endReason.value else DefaultEndReason(r, terminal)), now);
    }
  }

  lemma HeartbeatKeepsDrainClock(r: Run, slot: nat, id: Option<LeaseId>, beat: Beat, now: real)
    requires DrainClock(r)
    ensures DrainClock(Heartbeat(r, slot, id, beat, now).0)
  {
    hide DrainClock, HolderIndex, Reported, CommandFor;
    var i := HolderIndex(r.leases, slot, id);
    if i.Some? {
      var renewed := Renewed(r, i.value, beat, now);
      LogKeepsDrainClock(r, AuthFailed(now, r.leases[i.value].slot));
      if beat.authFailed {
        SameDrainClock(r.(events := r.events + [AuthFailed(now, r.leases[i.value].slot)]), renewed);
      } else {
        SameDrainClock(r, renewed);
      }
      CommandKeepsDrainClock(renewed, i.value, beat.protocolOk, now);
    }
  }

  lemma CommandKeepsDrainClock(r: Run, i: nat, protocolOk: bool, now: real)
    requires DrainClock(r) && i < |r.leases|
    ensures DrainClock(CommandFor(r, i, protocolOk, now).0)
  {
    hide DrainClock;
    CommandLog(r, i, protocolOk, now);
    hide CommandFor;
    var s := CommandFor(r, i, protocolOk, now).0;
    if s.events == r.events {
      SameDrainClock(r, s);
    } else {
      TransitionKeepsDrainClock(r, RunState.Running, None, now);
      SameDrainClock(Transition(r, RunState.Running, None, now), s);
    }
  }

  lemma CommandLog(r: Run, i: nat, protocolOk: bool, now: real)
    requires i < |r.leases|
    ensures var s := CommandFor(r, i, protocolOk, now).0;
            && s.endReason == r.endReason
            && ((s.events == r.events && s.state == r.state)
                || (r.state.Releasing? && s.state.Running?
                    && s.events == Transition(r, RunState.Running, None, now).events))
  {
  }

  lemma StopKeepsDrainClock(r: Run, force: bool, now: real)
    requires DrainClock(r)
    ensures DrainClock(Stop(r, force, now))
  {
    hide DrainClock, PausedSeconds, Each, LiveTotals, MaybeComplete;
    if !r.state.Terminal() {
      var open := EndPause(r, now);
      SameDrainClock(r, open);
      TransitionKeepsDrainClock(open, Draining, Some(OperatorStop), now);
      var draining := Transition(open, Draining, Some(OperatorStop), now);
      var folded := HeartbeatsFolded(draining);
      var final := folded.(leases := Each(folded.leases, Finalise));
      SameDrainClock(draining, final);
      CompletionKeepsDrainClock(final, now);
    }
  }

  lemma PauseKeepsDrainClock(r: Run, now: real)
    requires DrainClock(r)
    ensures DrainClock(Pause(r, now)) && DrainClock(Resume(r, now))
  {
    hide DrainClock, PausedSeconds;
    if r.state.Running? {
      var held := r.(pausedAt := Some(now));
      SameDrainClock(r, held);
      TransitionKeepsDrainClock(held, Paused, None, now);
    }
    if r.state.Paused? {
      SameDrainClock(r, EndPause(r, now));
      TransitionKeepsDrainClock(EndPause(r, now), RunState.Running, None, now);
    }
  }

  lemma ReleaseKeepsDrainClock(r: Run, forcePartial: bool, now: real)
    requires DrainClock(r)
    ensures DrainClock(EvaluateRelease(r, forcePartial, now))
  {
    hide DrainClock, Each, ReadySplit, Any;
    var s := EvaluateRelease(r, forcePartial, now);
    if Releasable(r) {
      TransitionKeepsDrainClock(r, Releasing, None, now);
      TransitionKeepsDrainClock(r, RunState.Failed, Some(StrictReleaseTimeout), now);
      var released := Transition(r, Releasing, None, now);
      var failed := Transition(r, RunState.Failed, Some(StrictReleaseTimeout), now);
      if s.state.Failed? {
        SameDrainClock(failed, s);
      } else if s.t0.Some? {
        SameDrainClock(released, s);
      }
    }
  }

  lemma ChecksKeepDrainClock(r: Run, boot: real, now: real)
    requires DrainClock(r) && !r.state.Terminal()
    ensures DrainClock(TickChecks(r, boot, now))
  {
    hide DrainClock, Each, EvaluateRelease, Any, PausedSeconds, TooManyLost, TooManyAuthFailures;
    var lapsed := LapseLeases(r, boot, now);
    SameDrainClock(r, lapsed);
    ReleaseKeepsDrainClock(lapsed, true, now);
    TransitionKeepsDrainClock(lapsed, RunState.Failed, Some(ProvisionTimeout), now);
    var released := ReleaseTimeout(lapsed, now);
    if DurationOver(released, now) {
      TransitionKeepsDrainClock(released, Draining, Some(DurationComplete), now);
    }
    var timed := CheckDuration(released, now);
    if !timed.state.Terminal() {
      TransitionKeepsDrainClock(timed, RunState.Failed, Some(AutoAbortLost), now);
      TransitionKeepsDrainClock(timed, RunState.Failed, Some(AutoAbortAuth), now);
    }
  }

  lemma BackpressureKeepsDrainClock(cfg: Settings, r: Run, now: real)
    requires DrainClock(r)
    ensures DrainClock(CheckBackpressure(cfg, r, now))
  {
    hide DrainClock, Any, FailingNow, OpenSince, Rescale, SteppedRate, FloorRate;
    LogKeepsDrainClock(r, Cleared(now));
    LogKeepsDrainClock(r, Detected(now));
    LogKeepsDrainClock(r, SteppedDown(now));
    if Delivering(r) {
      TransitionKeepsDrainClock(r, Draining, Some(BackpressureDrain), now);
      if HasRate(r) {
        RescaleKeepsControl(Noted(r), SteppedRate(cfg, r));
        if CanStep(cfg, r) {
          SameDrainClock(r.(events := r.events + [SteppedDown(now)]), StepDown(cfg, r, now));
        }
      }
    }
  }

  lemma TickKeepsDrainClock(cfg: Settings, r: Run, boot: real, now: real)
    requires DrainClock(r)
    ensures DrainClock(Tick(cfg, r, boot, now))
  {
    hide DrainClock, TickChecks, CheckBackpressure, Each, DrainSince, MaybeComplete;
    if !r.state.Terminal() {
      ChecksKeepDrainClock(r, boot, now);
      BackpressureKeepsDrainClock(cfg, TickChecks(r, boot, now), now);
      var judged := CheckBackpressure(cfg, TickChecks(r, boot, now), now);
      SameDrainClock(judged, ReapDraining(judged, now));
      CompletionKeepsDrainClock(ReapDraining(judged, now), now);
    }
  }

  lemma FinalKeepsDrainClock(r: Run, slot: nat, id: Option<LeaseId>, summary: Counters, now: real)
    requires DrainClock(r)
    ensures DrainClock(Final(r, slot, id, summary, now))
  {
    hide DrainClock, SlotIndex, MaybeComplete, Fold;
    var i := SlotIndex(r.leases, slot);
    CompletionKeepsDrainClock(r, now);
    if i.Some? {
      var folded := WithState(r, i.value, Done).(totals := Fold(r.totals, summary));
      SameDrainClock(r, folded);
      CompletionKeepsDrainClock(folded, now);
    }
  }

  lemma ReconcileKeepsDrainClock(r: Run, probe: Probe, now: real)
    requires DrainClock(r)
    ensures DrainClock(Reconcile(r, probe, now))
  {
    hide DrainClock, Each;
    if !r.state.Terminal() {
      TransitionKeepsDrainClock(r, RunState.Failed, Some(Orphaned), now);
      var failed := Transition(r, RunState.Failed, Some(Orphaned), now);
      SameDrainClock(failed, failed.(leases := Each(r.leases, GiveUp)));
    }
  }

  lemma StepKeepsDrainClock(cfg: Settings, r: Run, a: Action, now: real)
    requires DrainClock(r)
    ensures DrainClock(Step(cfg, r, a, now))
  {
    hide DrainClock, Claim, MarkReady, EvaluateRelease, Heartbeat, Final, Stop, Pause, Resume, Scale,
         Rescale, Tick, Reconcile;
    match a
    case DoEvaluate => ReleaseKeepsDrainClock(r, false, now);
    case DoHeartbeat(slot, id, beat) => HeartbeatKeepsDrainClock(r, slot, id, beat, now);
    case DoFinal(slot, id, summary) => FinalKeepsDrainClock(r, slot, id, summary, now);
    case DoStop(force) => StopKeepsDrainClock(r, force, now);
    case DoPause => PauseKeepsDrainClock(r, now);
    case DoResume => PauseKeepsDrainClock(r, now);
    case DoTick(boot) => TickKeepsDrainClock(cfg, r, boot, now);
    case DoReconcile(probe) => ReconcileKeepsDrainClock(r, probe, now);
    case _ =>
      QuietStep(cfg, r, a, now);
      SameDrainClock(r, Step(cfg, r, a, now));
  }

  lemma LaunchStartsClocks(r: Run)
    requires Launched(r)
    ensures DrainClock(r) && r.pausedS == 0.0 && r.pausedAt.None?
    ensures r.state.Provisioning? || r.state.Failed?
  {
    hide EqualShares;
    var spec: Snapshot, ok: bool :| Provision(spec, ok, r.createdAt) == Success(r);
    var e1, e2 := r.events[0], r.events[1];
    assert r.events == [] + [e1] + [e2];
    StartsAppend([], e1);
    StartsAppend([e1], e2);
  }

  lemma {:induction false} AlwaysDrainClock(cfg: Settings, start: Run, trace: seq<Timed>)
    requires Launched(start)
    ensures DrainClock(Exec(cfg, start, trace))
  {
    hide DrainClock, Launched, Step;
    if trace == [] {
      LaunchStartsClocks(start);
    } else {
      var n := |trace| - 1;
      AlwaysDrainClock(cfg, start, trace[..n]);
      StepKeepsDrainClock(cfg, Exec(cfg, start, trace[..n]), trace[n].action, trace[n].at);
    }
  }

  // The grace.

  lemma DrainingSkipsChecks(cfg: Settings, r: Run, boot: real, now: real)
    requires r.state.Draining?
    ensures CheckBackpressure(cfg, TickChecks(r, boot, now), now) == LapseLeases(r, boot, now)
  {
    hide Each, Any, PausedSeconds, TooManyLost, TooManyAuthFailures, FailingNow, OpenSince;
  }

  lemma GivenUpIsResolved(leases: seq<Lease>)
    requires leases != []
    ensures var b := Each(leases, GiveUp);
            !Any(b, Pick.Live) && (Any(b, Finished) || Any(b, Missing))
  {
    hide Each;
    var b := Each(leases, GiveUp);
    assert forall i :: 0 <= i < |b| ==> b[i] == Changed(leases[i], GiveUp);
    assert Is(b[0], Finished) || Is(b[0], Missing);
  }

  /** After the grace a supervisor pass ends a draining run, whatever its leases are doing. */
  lemma GraceEndsDrain(cfg: Settings, r: Run, boot: real, now: real)
    requires r.state.Draining? && r.leases != []
    requires DrainSince(r.events).Some? && now - DrainSince(r.events).value >= STOP_GRACE_S
    ensures Tick(cfg, r, boot, now).state.Terminal()
  {
    hide TickChecks, CheckBackpressure, Each, Any, DrainSince;
    DrainingSkipsChecks(cfg, r, boot, now);
    GivenUpIsResolved(LapseLeases(r, boot, now).leases);
  }

  /** Bounded drain: a draining run has restarted its clock at most once, and the first
      supervisor pass at least 45 s after the clock last started leaves it ended, through
      every history of claims, heartbeats and whatever else came before. */
  lemma DrainIsBounded(cfg: Settings, start: Run, trace: seq<Timed>, boot: real, now: real)
    requires Launched(start)
    requires Exec(cfg, start, trace).state.Draining?
    ensures var r := Exec(cfg, start, trace);
            && 1 <= DrainStarts(r.events) <= 2
            && DrainSince(r.events).Some?
            && (now - DrainSince(r.events).value >= 45.0 ==>
                  Exec(cfg, start, trace + [Timed(DoTick(boot), now)]).state.Terminal())
  {
    hide Launched, Tick, DrainStarts, DrainSince, Splittable;
    var r := Exec(cfg, start, trace);
    AlwaysDrainClock(cfg, start, trace);
    AlwaysWellFormed(cfg, start, trace);
    var longer := trace + [Timed(DoTick(boot), now)];
    assert longer[..|longer| - 1] == trace;
    if now - DrainSince(r.events).value >= STOP_GRACE_S {
      GraceEndsDrain(cfg, r, boot, now);
    }
  }

  // ----- pauses and duration ------------------------------------------------------------------

  /** The time a run has actually spent paused: the gaps between steps it sat through in
      the paused state. */
  function TimePaused(cfg: Settings, start: Run, trace: seq<Timed>): real {
    if trace == [] then 0.0
    else
      var n := |trace| - 1;
      TimePaused(cfg, start, trace[..n])
      + (if Exec(cfg, start, trace[..n]).state.Paused?
         then trace[n].at - Clock(start.createdAt, trace[..n]) else 0.0)
  }

  /** The pause fields of a run that has not ended, at instant c, account for p seconds. */
  predicate PauseClock(r: Run, c: real, p: real) {
    !r.state.Terminal() ==>
      && (r.state.Paused? <==> r.pausedAt.Some?)
      && (r.pausedAt.Some? ==> r.pausedAt.value <= c)
      && r.pausedS + (if r.pausedAt.Some? then c - r.pausedAt.value else 0.0) == p
  }

  /** Every step but pause, resume and stop leaves the pause fields alone, and moves
      neither into nor out of the paused state unless it ends the run. */
  predicate PauseKept(r: Run, s: Run) {
    && s.pausedAt == r.pausedAt && s.pausedS == r.pausedS
    && (!s.state.Terminal() ==> (s.state.Paused? <==> r.state.Paused?) && !r.state.Terminal())
  }

  lemma TickKeepsPause(cfg: Settings, r: Run, boot: real, now: real)
    ensures PauseKept(r, Tick(cfg, r, boot, now))
  {
    hide TickChecks, CheckBackpressure, Each, DrainSince, Any, Delivered;
    ChecksKeepPause(r, boot, now);
    BackpressureKeepsPause(cfg, TickChecks(r, boot, now), now);
  }

  lemma ReleaseKeepsPause(r: Run, now: real)
    ensures PauseKept(r, ReleaseTimeout(r, now))
  {
    hide Each, ReadySplit, Any;
  }

  lemma LaterChecksKeepPause(r: Run, now: real)
    ensures PauseKept(r, CheckAutoAbort(CheckDuration(r, now), now))
  {
    hide Each, PausedSeconds, TooManyLost, TooManyAuthFailures;
  }

  lemma ChecksKeepPause(r: Run, boot: real, now: real)
    ensures PauseKept(r, TickChecks(r, boot, now))
  {
    hide ReleaseTimeout, CheckAutoAbort, CheckDuration, Each;
    var lapsed := LapseLeases(r, boot, now);
    ReleaseKeepsPause(lapsed, now);
    LaterChecksKeepPause(ReleaseTimeout(lapsed, now), now);
  }

  lemma BackpressureKeepsPause(cfg: Settings, r: Run, now: real)
    ensures PauseKept(r, CheckBackpressure(cfg, r, now))
  {
    hide Any, FailingNow, OpenSince, Rescale, SteppedRate, FloorRate;
    if HasRate(r) {
      RescaleKeepsControl(Noted(r), SteppedRate(cfg, r));
    }
  }

  lemma HeartbeatKeepsPause(r: Run, slot: nat, id: Option<LeaseId>, beat: Beat, now: real)
    ensures PauseKept(r, Heartbeat(r, slot, id, beat, now).0)
  {
    hide HolderIndex, CommandFor, Reported;
    var i := HolderIndex(r.leases, slot, id);
    if i.Some? {
      CommandControl(Renewed(r, i.value, beat, now), i.value, beat.protocolOk, now);
    }
  }

  lemma StepKeepsPause(cfg: Settings, r: Run, a: Action, now: real)
    requires !a.DoPause? && !a.DoResume? && !a.DoStop?
    ensures PauseKept(r, Step(cfg, r, a, now))
  {
    hide Claim, MarkReady, Heartbeat, Scale, Rescale, Tick, Each, ReadySplit, Any, SlotIndex, Fold, Delivered;
    match a
    case DoHeartbeat(slot, id, beat) => HeartbeatKeepsPause(r, slot, id, beat, now);
    case DoTick(boot) => TickKeepsPause(cfg, r, boot, now);
    case DoEvaluate =>
    case DoFinal(slot, id, summary) =>
    case DoReconcile(probe) =>
    case _ => QuietStep(cfg, r, a, now);
  }

  lemma StepKeepsPauseClock(cfg: Settings, r: Run, a: Action, c: real, now: real, p: real)
    requires PauseClock(r, c, p) && c <= now
    ensures PauseClock(Step(cfg, r, a, now), now, p + (if r.state.Paused? then now - c else 0.0))
  {
    hide Step;
    match a
    case DoPause => OperatorPause(cfg, r, a, c, now, p);
    case DoResume => OperatorPause(cfg, r, a, c, now, p);
    case DoStop(force) => OperatorPause(cfg, r, a, c, now, p);
    case _ => StepKeepsPause(cfg, r, a, now);
  }

  lemma OperatorPause(cfg: Settings, r: Run, a: Action, c: real, now: real, p: real)
    requires a.DoPause? || a.DoResume? || a.DoStop?
    requires PauseClock(r, c, p) && c <= now
    ensures PauseClock(Step(cfg, r, a, now), now, p + (if r.state.Paused? then now - c else 0.0))
  {
    hide Each, LiveTotals, Any, Delivered;
  }

  lemma {:induction false} AlwaysPauseClock(cfg: Settings, start: Run, trace: seq<Timed>)
    requires Launched(start) && Clocked(start.createdAt, trace)
    ensures PauseClock(Exec(cfg, start, trace), Clock(start.createdAt, trace), TimePaused(cfg, start, trace))
  {
    hide PauseClock, Launched, Step;
    if trace == [] {
      LaunchStartsClocks(start);
      NoPauseYet(start);
    } else {
      var n := |trace| - 1;
      ClockedPrefix(start.createdAt, trace);
      AlwaysPauseClock(cfg, start, trace[..n]);
      StepKeepsPauseClock(cfg, Exec(cfg, start, trace[..n]), trace[n].action,
                          Clock(start.createdAt, trace[..n]), trace[n].at, TimePaused(cfg, start, trace[..n]));
    }
  }

  lemma ClockedPrefix(start: real, trace: seq<Timed>)
    requires Clocked(start, trace) && trace != []
    ensures Clocked(start, trace[..|trace| - 1])
    ensures Clock(start, trace[..|trace| - 1]) <= trace[|trace| - 1].at
  {
    var n := |trace| - 1;
    assert trace[n].at >= Clock(start, trace[..n]);
    forall i | 0 <= i < n ensures trace[..n][i].at >= Clock(start, trace[..n][..i]) {
      assert trace[..n][..i] == trace[..i] && trace[i].at >= Clock(start, trace[..i]);
    }
  }

  lemma NoPauseYet(r: Run)
    requires r.pausedS == 0.0 && r.pausedAt.None? && !r.state.Paused?
    ensures PauseClock(r, r.createdAt, 0.0)
  {
  }

  /** paused_seconds is exactly the time spent paused so far, over any number of pauses. */
  lemma PausedSecondsIsTimePaused(cfg: Settings, start: Run, trace: seq<Timed>, now: real)
    requires Launched(start) && Clocked(start.createdAt, trace) && now >= Clock(start.createdAt, trace)
    requires !Exec(cfg, start, trace).state.Terminal()
    ensures var r := Exec(cfg, start, trace);
            PausedSeconds(r, now) == TimePaused(cfg, start, trace)
              + (if r.state.Paused? then now - Clock(start.createdAt, trace) else 0.0)
  {
    hide Exec, TimePaused, Launched;
    AlwaysPauseClock(cfg, start, trace);
  }

  /** How long a run has been delivering at an instant: since T0, less the time paused. */
  function TimeDelivering(cfg: Settings, start: Run, trace: seq<Timed>, now: real): real
    requires Exec(cfg, start, trace).t0.Some?
  {
    now - Exec(cfg, start, trace).t0.value - TimePaused(cfg, start, trace)
  }

  lemma ChecksAtEnd(r: Run, boot: real, now: real)
    requires Delivering(r) && r.endReason.None?
    ensures var s := TickChecks(r, boot, now);
            if DurationOver(r, now) then s.state.Draining? && s.endReason == Some(DurationComplete)
            else s.endReason != Some(DurationComplete)
  {
    hide Each, Any, Max, TooManyLost, TooManyAuthFailures;
  }

  lemma BackpressureAtEnd(cfg: Settings, r: Run, now: real)
    ensures var s := CheckBackpressure(cfg, r, now);
            && (r.state.Draining? ==> s.state.Draining? && s.endReason == r.endReason)
            && (r.endReason != Some(DurationComplete) ==> s.endReason != Some(DurationComplete))
  {
    hide Any, FailingNow, OpenSince, Rescale, SteppedRate, FloorRate;
    if HasRate(r) {
      RescaleKeepsControl(Noted(r), SteppedRate(cfg, r));
    }
  }

  lemma ChecksAtDurationEnd(cfg: Settings, r: Run, boot: real, now: real)
    requires Delivering(r) && r.endReason.None?
    requires r.snap.duration.Some? && r.snap.duration.value != 0.0
    ensures DurationOver(r, now) ==>
              Tick(cfg, r, boot, now).state.Draining? || Tick(cfg, r, boot, now).state.Terminal()
    ensures Tick(cfg, r, boot, now).endReason == Some(DurationComplete) <==> DurationOver(r, now)
  {
    hide TickChecks, CheckBackpressure, Each, Any, DrainSince, Delivered;
    ChecksAtEnd(r, boot, now);
    BackpressureAtEnd(cfg, TickChecks(r, boot, now), now);
  }

  /** A run without a duration, or with one of zero, is never ended for it. */
  lemma NoDurationNeverEnds(cfg: Settings, r: Run, boot: real, now: real)
    requires r.snap.duration.None? || r.snap.duration.value == 0.0
    requires r.endReason != Some(DurationComplete)
    ensures Tick(cfg, r, boot, now).endReason != Some(DurationComplete)
  {
    hide TickChecks, CheckBackpressure, MaybeComplete, Each, DrainSince;
    var checked := TickChecks(r, boot, now);
    ChecksWithoutDuration(r, boot, now);
    JudgedReason(cfg, checked, now);
    CompletedReason(ReapDraining(CheckBackpressure(cfg, checked, now), now), now);
  }

  lemma ChecksWithoutDuration(r: Run, boot: real, now: real)
    requires r.snap.duration.None? || r.snap.duration.value == 0.0
    requires r.endReason != Some(DurationComplete)
    ensures TickChecks(r, boot, now).endReason != Some(DurationComplete)
  {
    hide ReleaseTimeout, Each, TooManyLost, TooManyAuthFailures, PausedSeconds;
    ReleaseGivesNoDuration(LapseLeases(r, boot, now), now);
  }

  lemma ReleaseGivesNoDuration(r: Run, now: real)
    requires r.endReason != Some(DurationComplete)
    ensures var s := ReleaseTimeout(r, now); s.endReason != Some(DurationComplete) && s.snap == r.snap
  {
    hide Any, Each, ReadySplit;
  }

  lemma JudgedReason(cfg: Settings, r: Run, now: real)
    ensures var s := CheckBackpressure(cfg, r, now);
            s.endReason == r.endReason || s.endReason == Some(BackpressureDrain)
  {
    hide Judged, OpenSince, FailingNow, Rescale, SteppedRate, FloorRate;
    if HasRate(r) {
      RescaleKeepsControl(Noted(r), SteppedRate(cfg, r));
    }
  }

  lemma CompletedReason(r: Run, now: real)
    requires r.endReason != Some(DurationComplete)
    ensures MaybeComplete(r, now).endReason != Some(DurationComplete)
  {
    hide Any, Delivered;
  }

  /** A supervisor pass ends a delivering run for its duration exactly when the time it has
      been delivering, pauses not counted, has reached that duration. */
  lemma DurationCountsDeliveryOnly(cfg: Settings, start: Run, trace: seq<Timed>, boot: real, now: real)
    requires Launched(start) && Clocked(start.createdAt, trace) && now >= Clock(start.createdAt, trace)
    requires Delivering(Exec(cfg, start, trace))
    requires var d := Exec(cfg, start, trace).snap.duration; d.Some? && d.value != 0.0
    ensures var r := Exec(cfg, start, trace);
            var s := Tick(cfg, r, boot, now);
            && (s.endReason == Some(DurationComplete) <==>
                  TimeDelivering(cfg, start, trace, now) >= r.snap.duration.value)
            && (s.endReason == Some(DurationComplete) ==> s.state.Draining? || s.state.Terminal())
  {
    hide Exec, TimePaused, Launched, Tick, NoneRunning, Any;
    AlwaysSound(cfg, start, trace);
    PausedSecondsIsTimePaused(cfg, start, trace, now);
    ChecksAtDurationEnd(cfg, Exec(cfg, start, trace), boot, now);
  }
}
