/** Backpressure: a clock kept in the event log, and a rate that steps down. */
module Backpressure {
  import opened Basics
  import opened Apportion
  import opened RunModel
  import opened Lifecycle
  import opened Frames
  import opened RunMachine
  import opened Clocks

  // ----- the log as a state variable ---------------------------------------------------------

  predicate Bystander(e: Event) { e.StateChange? || e.AuthFailed? }

  /** The log has grown by entries that say nothing about backpressure. */
  predicate Grew(a: seq<Event>, b: seq<Event>) {
    |a| <= |b| && b[..|a|] == a && forall j :: |a| <= j < |b| ==> Bystander(b[j])
  }

  lemma {:induction false} GrewKeepsSince(a: seq<Event>, b: seq<Event>)
    requires Grew(a, b)
    ensures OpenSince(b) == OpenSince(a)
    decreases |b|
  {
    if |b| > |a| {
      var n := |b| - 1;
      assert b[..n][..|a|] == a && Bystander(b[n]);
      GrewKeepsSince(a, b[..n]);
    } else {
      assert b == a;
    }
  }

  lemma GrewRefl(a: seq<Event>)
    ensures Grew(a, a)
  {
  }

  lemma GrewOne(a: seq<Event>, e: Event)
    requires Bystander(e)
    ensures Grew(a, a + [e])
  {
  }

  lemma GrewTrans(a: seq<Event>, b: seq<Event>, c: seq<Event>)
    requires Grew(a, b) && Grew(b, c)
    ensures Grew(a, c)
  {
    assert c[..|a|] == c[..|b|][..|a|];
    forall j | |a| <= j < |c| ensures Bystander(c[j]) {
      if j < |b| {
        assert c[j] == b[j];
      }
    }
  }

  lemma TransitionGrows(r: Run, to: RunState, reason: Option<EndReason>, now: real)
    ensures Grew(r.events, Transition(r, to, reason, now).events)
  {
    GrewOne(r.events, StateChange(now, r.state, to));
    GrewRefl(r.events);
  }

  lemma CompletionGrows(r: Run, now: real)
    ensures Grew(r.events, MaybeComplete(r, now).events)
  {
    hide Grew, MayComplete, TerminalStateFor, DefaultEndReason, Transition;
    GrewRefl(r.events);
    var terminal := TerminalStateFor(r);
    TransitionGrows(r, terminal,
      Some(if r.endReason.Some? then r.endReason.value else DefaultEndReason(r, terminal)), now);
  }

  lemma HeartbeatGrows(r: Run, slot: nat, id: Option<LeaseId>, beat: Beat, now: real)
    ensures Grew(r.events, Heartbeat(r, slot, id, beat, now).0.events)
  {
    hide Grew, HolderIndex, CommandFor, Reported;
    GrewRefl(r.events);
    var i := HolderIndex(r.leases, slot, id);
    if i.Some? {
      var renewed := Renewed(r, i.value, beat, now);
      GrewOne(r.events, AuthFailed(now, r.leases[i.value].slot));
      CommandLog(renewed, i.value, beat.protocolOk, now);
      GrewRefl(renewed.events);
      TransitionGrows(renewed, RunState.Running, None, now);
      GrewTrans(r.events, renewed.events, CommandFor(renewed, i.value, beat.protocolOk, now).0.events);
    }
  }

  lemma ReleaseGrows(r: Run, forcePartial: bool, now: real)
    ensures Grew(r.events, EvaluateRelease(r, forcePartial, now).events)
  {
    hide Grew, Each, ReadySplit, Any;
    GrewRefl(r.events);
    GrewOne(r.events, StateChange(now, r.state, Releasing));
    GrewOne(r.events, StateChange(now, r.state, RunState.Failed));
  }

  lemma ChecksGrow(r: Run, boot: real, now: real)
    ensures Grew(r.events, TickChecks(r, boot, now).events)
  {
    hide Grew, Each, EvaluateRelease, Any, DurationOver, TooManyLost, TooManyAuthFailures, Transition;
    var lapsed := LapseLeases(r, boot, now);
    GrewRefl(r.events);
    ReleaseGrows(lapsed, true, now);
    TransitionGrows(lapsed, RunState.Failed, Some(ProvisionTimeout), now);
    var released := ReleaseTimeout(lapsed, now);
    assert Grew(r.events, released.events);
    TransitionGrows(released, Draining, Some(DurationComplete), now);
    var timed := CheckDuration(released, now);
    GrewTrans(r.events, released.events, Transition(released, Draining, Some(DurationComplete), now).events);
    TransitionGrows(timed, RunState.Failed, Some(AutoAbortLost), now);
    TransitionGrows(timed, RunState.Failed, Some(AutoAbortAuth), now);
    GrewTrans(r.events, timed.events, Transition(timed, RunState.Failed, Some(AutoAbortLost), now).events);
    GrewTrans(r.events, timed.events, Transition(timed, RunState.Failed, Some(AutoAbortAuth), now).events);
  }

  lemma OperatorCallsGrow(r: Run, force: bool, now: real)
    ensures Grew(r.events, Stop(r, force, now).events)
    ensures Grew(r.events, Pause(r, now).events) && Grew(r.events, Resume(r, now).events)
  {
    hide Grew, Each, LiveTotals, MaybeComplete, Transition, PausedSeconds;
    GrewRefl(r.events);
    var draining := Transition(EndPause(r, now), Draining, Some(OperatorStop), now);
    TransitionGrows(EndPause(r, now), Draining, Some(OperatorStop), now);
    var folded := HeartbeatsFolded(draining);
    var final := folded.(leases := Each(folded.leases, Finalise));
    CompletionGrows(final, now);
    GrewTrans(r.events, draining.events, MaybeComplete(final, now).events);
    TransitionGrows(r.(pausedAt := Some(now)), Paused, None, now);
    TransitionGrows(EndPause(r, now), RunState.Running, None, now);
  }

  lemma ReportsGrow(r: Run, slot: nat, id: Option<LeaseId>, summary: Counters, probe: Probe, now: real)
    ensures Grew(r.events, Final(r, slot, id, summary, now).events)
    ensures Grew(r.events, Reconcile(r, probe, now).events)
  {
    hide Grew, SlotIndex, MaybeComplete, Fold, Each, Transition;
    GrewRefl(r.events);
    CompletionGrows(r, now);
    var i := SlotIndex(r.leases, slot);
    if i.Some? {
      CompletionGrows(WithState(r, i.value, Done).(totals := Fold(r.totals, summary)), now);
    }
    TransitionGrows(r, RunState.Failed, Some(Orphaned), now);
  }

  /** No step but the supervisor's writes about backpressure. */
  lemma StepGrows(cfg: Settings, r: Run, a: Action, now: real)
    requires !a.DoTick?
    ensures Grew(r.events, Step(cfg, r, a, now).events)
  {
    hide Grew, Claim, MarkReady, EvaluateRelease, Heartbeat, Final, Stop, Pause, Resume, Scale, Rescale, Reconcile;
    match a
    case DoEvaluate => ReleaseGrows(r, false, now);
    case DoHeartbeat(slot, id, beat) => HeartbeatGrows(r, slot, id, beat, now);
    case DoFinal(slot, id, summary) => ReportsGrow(r, slot, id, summary, NoRef, now);
    case DoStop(force) => OperatorCallsGrow(r, force, now);
    case DoPause => OperatorCallsGrow(r, false, now);
    case DoResume => OperatorCallsGrow(r, false, now);
    case DoReconcile(probe) => ReportsGrow(r, 0, None, map[], probe, now);
    case _ => QuietStep(cfg, r, a, now); GrewRefl(r.events);
  }

  // ----- one optional instant, and the verdicts it stands for ------------------------------------

  datatype Verdict = Verdict(ts: real, failing: bool)

  /** The clock as a plain variable: when the streak being timed began and which verdict
      began it, with every verdict so far and the instants of the steps taken. */
  datatype Watch = Watch(since: Option<real>, mark: nat, verdicts: seq<Verdict>, steps: seq<real>)

  const Unwatched := Watch(None, 0, [], [])

  /** How the clock moves when delivery is judged in state r. */
  function Judge(cfg: Settings, r: Run, now: real, w: Watch): Watch {
    if !Judged(cfg, r) then w
    else
      var failing := FailingNow(cfg, r);
      var seen := w.(verdicts := w.verdicts + [Verdict(now, failing)]);
      if !failing then seen.(since := None)
      else if w.since.None? then seen.(since := Some(now), mark := |w.verdicts|)
      else if now - w.since.value >= cfg.sustainedS && cfg.stepDown && CanStep(cfg, r)
        then seen.(since := None, steps := w.steps + [now])
      else seen
  }

  predicate Supervised(r: Run, a: Action) { a.DoTick? && !r.state.Terminal() && !r.state.Pending? }

  function Watching(cfg: Settings, start: Run, trace: seq<Timed>): Watch {
    if trace == [] then Unwatched
    else
      var n := |trace| - 1;
      var r := Exec(cfg, start, trace[..n]);
      var w := Watching(cfg, start, trace[..n]);
      if Supervised(r, trace[n].action) then
        Judge(cfg, TickChecks(r, trace[n].action.boot, trace[n].at), trace[n].at, w)
      else w
  }

  /** Two steps in a row are a sustained window apart. */
  predicate Spaced(steps: seq<real>, window: real) {
    forall i :: 0 < i < |steps| ==> steps[i] - steps[i - 1] >= window
  }

  /** The log says what the variable says; the streak is unbroken failure from the verdict
      that began it; and it began no earlier than the last step. */
  predicate InStep(cfg: Settings, r: Run, w: Watch, c: real) {
    && OpenSince(r.events) == w.since
    && (w.since.Some? ==>
          && w.mark < |w.verdicts| && w.verdicts[w.mark].ts == w.since.value <= c
          && (forall j :: w.mark <= j < |w.verdicts| ==> w.verdicts[j].failing)
          && (w.steps != [] ==> w.steps[|w.steps| - 1] <= w.since.value))
    && (w.steps != [] ==> w.steps[|w.steps| - 1] <= c)
    && Spaced(w.steps, cfg.sustainedS)
  }

  lemma SinceAppend(events: seq<Event>, e: Event)
    ensures OpenSince(events + [e]) ==
              match e
              case Cleared(_) => None
              case SteppedDown(_) => None
              case Detected(ts) => (if OpenSince(events).None? then Some(ts) else OpenSince(events))
              case _ => OpenSince(events)
  {
    assert (events + [e])[..|events|] == events;
  }

  /** What the check writes, in terms of the clock. */
  lemma CheckMovesClock(cfg: Settings, r: Run, now: real, w: Watch)
    requires OpenSince(r.events) == w.since
    ensures OpenSince(CheckBackpressure(cfg, r, now).events) == Judge(cfg, r, now, w).since
  {
    hide Any, FailingNow, OpenSince, Rescale, SteppedRate, FloorRate;
    SinceAppend(r.events, Cleared(now));
    SinceAppend(r.events, Detected(now));
    SinceAppend(r.events, SteppedDown(now));
    SinceAppend(r.events, StateChange(now, r.state, Draining));
  }

  lemma JudgeKeepsTimed(cfg: Settings, r: Run, now: real, w: Watch, c: real)
    requires InStep(cfg, r, w, c) && c <= now
    ensures InStep(cfg, CheckBackpressure(cfg, r, now), Judge(cfg, r, now, w), now)
  {
    hide CheckBackpressure, OpenSince, Judged, FailingNow, CanStep;
    CheckMovesClock(cfg, r, now, w);
  }

  lemma EventsDecide(cfg: Settings, r: Run, s: Run, w: Watch, c: real, now: real)
    requires InStep(cfg, r, w, c) && Grew(r.events, s.events) && c <= now
    ensures InStep(cfg, s, w, now)
  {
    hide OpenSince, Grew;
    GrewKeepsSince(r.events, s.events);
  }

  lemma TickKeepsTimed(cfg: Settings, r: Run, boot: real, now: real, w: Watch, c: real)
    requires InStep(cfg, r, w, c) && c <= now && !r.state.Terminal() && !r.state.Pending?
    ensures InStep(cfg, Tick(cfg, r, boot, now), Judge(cfg, TickChecks(r, boot, now), now, w), now)
  {
    hide InStep, TickChecks, CheckBackpressure, Judge, Grew, Each, DrainSince, MaybeComplete;
    var checked := TickChecks(r, boot, now);
    ChecksGrow(r, boot, now);
    EventsDecide(cfg, r, checked, w, c, now);
    JudgeKeepsTimed(cfg, checked, now, w, now);
    var judged := CheckBackpressure(cfg, checked, now);
    GrewRefl(judged.events);
    CompletionGrows(ReapDraining(judged, now), now);
    EventsDecide(cfg, judged, Tick(cfg, r, boot, now), Judge(cfg, checked, now, w), now, now);
  }

  /** Folding the event log gives exactly the one optional instant, after every history. */
  lemma {:induction false} LogRefinesClock(cfg: Settings, start: Run, trace: seq<Timed>)
    requires Launched(start) && Clocked(start.createdAt, trace)
    ensures InStep(cfg, Exec(cfg, start, trace), Watching(cfg, start, trace), Clock(start.createdAt, trace))
  {
    hide InStep, Launched, Step, Judge, TickChecks, Grew;
    if trace == [] {
      LaunchUnwatched(cfg, start);
    } else {
      var n := |trace| - 1;
      ClockedPrefix(start.createdAt, trace);
      LogRefinesClock(cfg, start, trace[..n]);
      var r, c := Exec(cfg, start, trace[..n]), Clock(start.createdAt, trace[..n]);
      var w, a, now := Watching(cfg, start, trace[..n]), trace[n].action, trace[n].at;
      if Supervised(r, a) {
        TickKeepsTimed(cfg, r, a.boot, now, w, c);
        TickIsStep(cfg, r, a, now);
      } else {
        UnsupervisedGrows(cfg, r, a, now);
        EventsDecide(cfg, r, Step(cfg, r, a, now), w, c, now);
      }
    }
  }

  lemma TickIsStep(cfg: Settings, r: Run, a: Action, now: real)
    requires a.DoTick?
    ensures Step(cfg, r, a, now) == Tick(cfg, r, a.boot, now)
  {
    hide Tick;
  }

  lemma UnsupervisedGrows(cfg: Settings, r: Run, a: Action, now: real)
    requires !Supervised(r, a)
    ensures Grew(r.events, Step(cfg, r, a, now).events)
  {
    hide Grew, Step;
    if a.DoTick? {
      NoTick(cfg, r, a, now);
      GrewRefl(r.events);
    } else {
      StepGrows(cfg, r, a, now);
    }
  }

  lemma NoTick(cfg: Settings, r: Run, a: Action, now: real)
    requires a.DoTick? && !Supervised(r, a)
    ensures Step(cfg, r, a, now) == r
  {
    hide TickChecks, CheckBackpressure, MaybeComplete, ReapDraining;
  }

  lemma LaunchUnwatched(cfg: Settings, r: Run)
    requires Launched(r)
    ensures InStep(cfg, r, Unwatched, r.createdAt)
  {
    hide EqualShares;
    var spec: Snapshot, ok: bool :| Provision(spec, ok, r.createdAt) == Success(r);
    var e1, e2 := r.events[0], r.events[1];
    assert r.events == [] + [e1] + [e2];
    SinceAppend([], e1);
    SinceAppend([e1], e2);
  }

  /** The supervisor acted on the target: it lowered the rate or began to drain. */
  predicate Acted(r: Run, s: Run) {
    s.snap.rate != r.snap.rate || (s.endReason == Some(BackpressureDrain) && r.endReason != s.endReason)
  }

  lemma ActingNeedsAWindow(cfg: Settings, r: Run, now: real)
    requires Acted(r, CheckBackpressure(cfg, r, now))
    ensures Judged(cfg, r) && FailingNow(cfg, r)
    ensures OpenSince(r.events).Some? && now - OpenSince(r.events).value >= cfg.sustainedS
  {
    hide Any, FailingNow, OpenSince, Rescale, SteppedRate, FloorRate;
  }

  /** It acts only at the end of a sustained window in which every judged pass, from the
      one that opened it to the present one, was failing. */
  lemma ActsOnlyOnSustainedFailure(cfg: Settings, start: Run, trace: seq<Timed>, boot: real, now: real)
    requires Launched(start) && Clocked(start.createdAt, trace) && now >= Clock(start.createdAt, trace)
    requires Supervised(Exec(cfg, start, trace), DoTick(boot))
    requires var r := Exec(cfg, start, trace);
             Acted(TickChecks(r, boot, now), CheckBackpressure(cfg, TickChecks(r, boot, now), now))
    ensures var r := Exec(cfg, start, trace);
            var before := Watching(cfg, start, trace);
            var after := Judge(cfg, TickChecks(r, boot, now), now, before);
            && before.since.Some? && now - before.since.value >= cfg.sustainedS
            && before.mark < |after.verdicts| && after.verdicts[before.mark].ts == before.since.value
            && (forall j :: before.mark <= j < |after.verdicts| ==> after.verdicts[j].failing)
  {
    hide Launched, Exec, Watching, TickChecks, CheckBackpressure, Acted, OpenSince, Grew, FailingNow, CanStep, Judged;
    var r := Exec(cfg, start, trace);
    LogRefinesClock(cfg, start, trace);
    ChecksGrow(r, boot, now);
    GrewKeepsSince(r.events, TickChecks(r, boot, now).events);
    ActingNeedsAWindow(cfg, TickChecks(r, boot, now), now);
  }

  /** Two steps down are never closer together than the sustained window. */
  lemma StepsAreSpaced(cfg: Settings, start: Run, trace: seq<Timed>)
    requires Launched(start) && Clocked(start.createdAt, trace)
    ensures Spaced(Watching(cfg, start, trace).steps, cfg.sustainedS)
  {
    hide Launched, Exec, Watching, OpenSince;
    LogRefinesClock(cfg, start, trace);
  }

  // ----- the rate steps down geometrically, to a floor ---------------------------------------------

  function Pow(x: real, k: nat): real { if k == 0 then 1.0 else x * Pow(x, k - 1) }

  lemma {:induction false} PowPositive(x: real, k: nat)
    requires x > 0.0
    ensures Pow(x, k) > 0.0
  {
    if k > 0 {
      PowPositive(x, k - 1);
    }
  }

  /** A requested rate after k steps. */
  function After(cfg: Settings, requested: real, k: nat): real { requested * Pow(cfg.stepFactor, k) }

  lemma AfterStep(cfg: Settings, requested: real, k: nat)
    ensures After(cfg, requested, k + 1) == After(cfg, requested, k) * cfg.stepFactor
    ensures After(cfg, requested, 0) == requested
  {
    var p := Pow(cfg.stepFactor, k);
    assert Pow(cfg.stepFactor, k + 1) == cfg.stepFactor * p;
  }

  lemma AfterPositive(cfg: Settings, requested: real, k: nat)
    requires requested > 0.0 && cfg.stepFactor > 0.0
    ensures After(cfg, requested, k) > 0.0
  {
    hide Pow;
    PowPositive(cfg.stepFactor, k);
    ProductPositive(requested, Pow(cfg.stepFactor, k));
  }

  /** What of the snapshot the supervisor's answer to backpressure turns on. */
  predicate SamePlan(r: Run, s: Run) {
    s.snap.mode == r.snap.mode && s.snap.rate == r.snap.rate && s.snap.bpOriginal == r.snap.bpOriginal
  }

  lemma CompletionKeepsPlan(r: Run, now: real)
    ensures SamePlan(r, MaybeComplete(r, now))
  {
    hide MayComplete, TerminalStateFor, DefaultEndReason;
  }

  lemma HeartbeatKeepsPlan(r: Run, slot: nat, id: Option<LeaseId>, beat: Beat, now: real)
    ensures SamePlan(r, Heartbeat(r, slot, id, beat, now).0)
  {
    hide HolderIndex, CommandFor, Reported;
    var i := HolderIndex(r.leases, slot, id);
    if i.Some? {
      CommandLeases(Renewed(r, i.value, beat, now), i.value, beat.protocolOk, now);
    }
  }

  lemma OperatorKeepsPlan(r: Run, force: bool, now: real)
    ensures SamePlan(r, Stop(r, force, now)) && SamePlan(r, Pause(r, now)) && SamePlan(r, Resume(r, now))
  {
    hide Each, LiveTotals, MaybeComplete, PausedSeconds;
    var folded := HeartbeatsFolded(Transition(EndPause(r, now), Draining, Some(OperatorStop), now));
    CompletionKeepsPlan(folded.(leases := Each(folded.leases, Finalise)), now);
  }

  lemma ReportsKeepPlan(r: Run, slot: nat, id: Option<LeaseId>, summary: Counters, probe: Probe, now: real)
    ensures SamePlan(r, Final(r, slot, id, summary, now)) && SamePlan(r, Reconcile(r, probe, now))
  {
    hide Each, MaybeComplete, SlotIndex, Fold;
    CompletionKeepsPlan(r, now);
    var i := SlotIndex(r.leases, slot);
    if i.Some? {
      CompletionKeepsPlan(WithState(r, i.value, Done).(totals := Fold(r.totals, summary)), now);
    }
  }

  lemma ClaimKeepsPlan(r: Run, holder: string, hint: Option<nat>, now: real)
    ensures SamePlan(r, Claim(r, holder, hint, now))
  {
    hide HeldBy, NextClaimable, TakeoverSplit, SlotIndex;
  }

  lemma FleetCallsKeepPlan(r: Run, slot: nat, id: Option<LeaseId>, workers: int, driverOk: bool, now: real)
    ensures SamePlan(r, MarkReady(r, slot, id, now)) && SamePlan(r, Scale(r, workers, driverOk))
  {
    hide HolderIndex, Each, Grown, Kept, EffectiveWorkers;
  }

  lemma StepKeepsPlan(cfg: Settings, r: Run, a: Action, now: real)
    requires !a.DoTick? && !a.DoRescale?
    ensures SamePlan(r, Step(cfg, r, a, now))
  {
    hide SamePlan, Claim, MarkReady, EvaluateRelease, Heartbeat, Final, Stop, Pause, Resume, Scale, Rescale,
         Tick, Reconcile;
    match a
    case DoClaim(holder, hint) => ClaimKeepsPlan(r, holder, hint, now);
    case DoReady(slot, id) => FleetCallsKeepPlan(r, slot, id, 0, false, now);
    case DoEvaluate => EvaluationKeepsPlan(r, now);
    case DoHeartbeat(slot, id, beat) => HeartbeatKeepsPlan(r, slot, id, beat, now);
    case DoFinal(slot, id, summary) => ReportsKeepPlan(r, slot, id, summary, NoRef, now);
    case DoStop(force) => OperatorKeepsPlan(r, force, now);
    case DoPause => OperatorKeepsPlan(r, false, now);
    case DoResume => OperatorKeepsPlan(r, false, now);
    case DoScale(workers, driverOk) => FleetCallsKeepPlan(r, 0, None, workers, driverOk, now);
    case DoReconcile(probe) => ReportsKeepPlan(r, 0, None, map[], probe, now);
  }

  lemma EvaluationKeepsPlan(r: Run, now: real)
    ensures SamePlan(r, EvaluateRelease(r, false, now))
  {
    hide EvaluateRelease;
    ReleaseKeepsFleet(r, false, now);
  }

  /** The rate after k steps from a requested rate, never below the floor. */
  predicate Stepped(cfg: Settings, r: Run, requested: real, k: nat) {
    && r.snap.mode != CountInterval
    && r.snap.rate == Some(After(cfg, requested, k))
    && r.snap.bpOriginal == (if k == 0 then None else Some(requested))
    && (k > 0 ==> After(cfg, requested, k) >= requested * cfg.minRateFraction)
  }

  lemma PlanStepped(cfg: Settings, r: Run, s: Run, requested: real, k: nat)
    requires Stepped(cfg, r, requested, k) && SamePlan(r, s)
    ensures Stepped(cfg, s, requested, k)
  {
    hide After;
  }

  lemma SteppedHasRate(cfg: Settings, r: Run, requested: real, k: nat)
    requires Stepped(cfg, r, requested, k) && requested > 0.0 && cfg.stepFactor > 0.0
    ensures HasRate(r) && Noted(r).snap.bpOriginal == Some(requested)
    ensures FloorRate(cfg, r) == requested * cfg.minRateFraction
    ensures SteppedRate(cfg, r) == After(cfg, requested, k + 1) > 0.0
  {
    hide After;
    AfterStep(cfg, requested, k);
    AfterPositive(cfg, requested, k);
    AfterPositive(cfg, requested, k + 1);
  }

  lemma ProductPositive(a: real, b: real)
    requires a > 0.0 && b > 0.0
    ensures a * b > 0.0
  {
  }

  /** A positive rate can always be split, so a rescale by the supervisor takes. */
  lemma RescaleTakes(r: Run, rate: real)
    requires !r.state.Terminal() && r.leases != [] && rate > 0.0 && r.snap.mode != CountInterval
    ensures Rescale(r, rate).snap == r.snap.(rate := Some(rate))
  {
    hide Each, EqualShares;
  }

  lemma JudgedHasSlots(cfg: Settings, r: Run)
    requires Judged(cfg, r)
    ensures r.leases != [] && !r.state.Terminal()
  {
  }

  lemma StepDownSteps(cfg: Settings, r: Run, requested: real, k: nat, now: real)
    requires Stepped(cfg, r, requested, k) && requested > 0.0 && cfg.stepFactor > 0.0
    requires Judged(cfg, r) && CanStep(cfg, r)
    ensures Stepped(cfg, StepDown(cfg, r, now), requested, k + 1)
  {
    hide After, Rescale, Judged, SteppedRate, FloorRate;
    SteppedHasRate(cfg, r, requested, k);
    JudgedHasSlots(cfg, r);
    RescaleTakes(Noted(r), SteppedRate(cfg, r));
  }

  lemma CheckSteps(cfg: Settings, r: Run, requested: real, w: Watch, now: real)
    requires Stepped(cfg, r, requested, |w.steps|) && requested > 0.0 && cfg.stepFactor > 0.0
    requires OpenSince(r.events) == w.since
    ensures Stepped(cfg, CheckBackpressure(cfg, r, now), requested, |Judge(cfg, r, now, w).steps|)
  {
    hide Stepped, Judged, FailingNow, OpenSince, CanStep, StepDown;
    var k := |w.steps|;
    if Judged(cfg, r) && CanStep(cfg, r) {
      StepDownSteps(cfg, r, requested, k, now);
    }
    UnsteppedPlan(cfg, r, requested, k, now);
  }

  lemma UnsteppedPlan(cfg: Settings, r: Run, requested: real, k: nat, now: real)
    requires Stepped(cfg, r, requested, k)
    ensures Stepped(cfg, r.(events := r.events + [Cleared(now)]), requested, k)
    ensures Stepped(cfg, r.(events := r.events + [Detected(now)]), requested, k)
    ensures Stepped(cfg, Transition(r, Draining, Some(BackpressureDrain), now), requested, k)
  {
    hide After;
  }

  lemma TickSteps(cfg: Settings, r: Run, boot: real, requested: real, w: Watch, now: real)
    requires Stepped(cfg, r, requested, |w.steps|) && requested > 0.0 && cfg.stepFactor > 0.0
    requires OpenSince(r.events) == w.since && !r.state.Terminal() && !r.state.Pending?
    ensures Stepped(cfg, Tick(cfg, r, boot, now), requested, |Judge(cfg, TickChecks(r, boot, now), now, w).steps|)
  {
    hide Stepped, TickChecks, CheckBackpressure, Judge, MaybeComplete, OpenSince, Grew, Each, DrainSince, SameGrants;
    var checked := TickChecks(r, boot, now);
    ChecksGrow(r, boot, now);
    GrewKeepsSince(r.events, checked.events);
    ChecksKeepFleet(r, boot, now);
    PlanStepped(cfg, r, checked, requested, |w.steps|);
    CheckSteps(cfg, checked, requested, w, now);
    var judged := CheckBackpressure(cfg, checked, now);
    var reaped := ReapDraining(judged, now);
    CompletionKeepsPlan(reaped, now);
    PlanStepped(cfg, judged, MaybeComplete(reaped, now), requested, |Judge(cfg, checked, now, w).steps|);
  }

  predicate NoRescale(trace: seq<Timed>) {
    forall i :: 0 <= i < |trace| ==> !trace[i].action.DoRescale?
  }

  /** With no operator rescale, the rate is the requested one times the factor once per
      step, and no step has taken it below the floor. */
  lemma {:induction false} RateIsGeometric(cfg: Settings, start: Run, trace: seq<Timed>)
    requires Launched(start) && HasRate(start) && cfg.stepFactor > 0.0
    requires Clocked(start.createdAt, trace) && NoRescale(trace)
    ensures Stepped(cfg, Exec(cfg, start, trace), start.snap.rate.value, |Watching(cfg, start, trace).steps|)
  {
    hide Stepped, Launched, Step, Judge, TickChecks, InStep, OpenSince;
    var requested := start.snap.rate.value;
    if trace == [] {
      LaunchUnstepped(cfg, start);
    } else {
      var n := |trace| - 1;
      ClockedPrefix(start.createdAt, trace);
      RateIsGeometric(cfg, start, trace[..n]);
      var r, w := Exec(cfg, start, trace[..n]), Watching(cfg, start, trace[..n]);
      var a, now := trace[n].action, trace[n].at;
      assert !a.DoRescale?;
      if Supervised(r, a) {
        LogRefinesClock(cfg, start, trace[..n]);
        InStepSince(cfg, r, w, Clock(start.createdAt, trace[..n]));
        TickSteps(cfg, r, a.boot, requested, w, now);
        TickIsStep(cfg, r, a, now);
      } else {
        UnsupervisedPlan(cfg, r, a, now);
        PlanStepped(cfg, r, Step(cfg, r, a, now), requested, |w.steps|);
      }
    }
  }

  lemma InStepSince(cfg: Settings, r: Run, w: Watch, c: real)
    requires InStep(cfg, r, w, c)
    ensures OpenSince(r.events) == w.since
  {
  }

  lemma UnsupervisedPlan(cfg: Settings, r: Run, a: Action, now: real)
    requires !Supervised(r, a) && !a.DoRescale?
    ensures SamePlan(r, Step(cfg, r, a, now))
  {
    hide Step;
    if a.DoTick? {
      NoTick(cfg, r, a, now);
    } else {
      StepKeepsPlan(cfg, r, a, now);
    }
  }

  lemma LaunchUnstepped(cfg: Settings, r: Run)
    requires Launched(r) && HasRate(r)
    ensures Stepped(cfg, r, r.snap.rate.value, 0)
  {
    hide EqualShares;
    var spec: Snapshot, ok: bool :| Provision(spec, ok, r.createdAt) == Success(r);
  }

  lemma FloorBoundsPower(cfg: Settings, requested: real, k: nat)
    requires requested > 0.0
    ensures After(cfg, requested, k) >= requested * cfg.minRateFraction <==>
            Pow(cfg.stepFactor, k) >= cfg.minRateFraction
  {
    var p, floor := Pow(cfg.stepFactor, k), cfg.minRateFraction;
    assert requested * (p - floor) == requested * p - requested * floor;
    if p >= floor {
    } else {
      ProductPositive(requested, floor - p);
    }
  }

  /** So the number of steps is bounded: the factor raised to it never passes the floor. */
  lemma StepsAreBounded(cfg: Settings, start: Run, trace: seq<Timed>)
    requires Launched(start) && HasRate(start) && cfg.stepFactor > 0.0
    requires Clocked(start.createdAt, trace) && NoRescale(trace)
    ensures var k := |Watching(cfg, start, trace).steps|;
            k > 0 ==> Pow(cfg.stepFactor, k) >= cfg.minRateFraction
  {
    hide Launched, Exec, Watching, After;
    RateIsGeometric(cfg, start, trace);
    var k := |Watching(cfg, start, trace).steps|;
    FloorBoundsPower(cfg, start.snap.rate.value, k);
  }

  // Products under a name, so that each law is used where it is called for and nowhere else.

  function Mul(a: real, b: real): real { a * b }

  lemma MulLaws(a: real, b: real, c: real)
    ensures Mul(Mul(a, b), c) == Mul(a, Mul(b, c)) && Mul(a, b) == Mul(b, a)
    ensures Mul(a, b + c) == Mul(a, b) + Mul(a, c) && Mul(a, 1.0) == a
  {
  }

  lemma MulOrder(c: real, a: real, b: real)
    requires c >= 0.0 && a <= b
    ensures Mul(c, a) <= Mul(c, b)
  {
  }

  lemma MulPositive(a: real, b: real)
    requires a > 0.0 && b > 0.0
    ensures Mul(a, b) > 0.0
  {
  }

  lemma PowMul(x: real, k: nat)
    requires k > 0
    ensures Pow(x, k) == Mul(x, Pow(x, k - 1))
  {
  }

  /** How far k equal steps of 1 - x reach from x. */
  function Reach(x: real, n: real): real { x + Mul(n, 1.0 - x) }

  lemma ReachNext(x: real, n: real)
    ensures Reach(x, n + 1.0) == Reach(x, n) + (1.0 - x)
  {
    hide Mul;
    var e := 1.0 - x;
    MulLaws(e, n, 1.0);
    MulLaws(n, e, 1.0);
    MulLaws(n + 1.0, e, 1.0);
  }

  lemma FallsOnce(x: real, p: real, d: real)
    requires 0.0 < x <= 1.0 && 0.0 < p <= 1.0 && Mul(p, d) <= x
    ensures 0.0 < Mul(x, p) <= 1.0 && Mul(Mul(x, p), d + (1.0 - x)) <= x
  {
    hide Mul;
    var e := 1.0 - x;
    MulPositive(x, p);
    MulOrder(x, p, 1.0);
    MulLaws(x, p, d + e);
    MulLaws(p, d, e);
    MulOrder(e, p, 1.0);
    MulLaws(e, p, 1.0);
    MulOrder(x, Mul(p, d + e), 1.0);
  }

  /** Bernoulli's inequality, turned over. */
  lemma {:induction false} PowBernoulli(x: real, k: nat)
    requires 0.0 < x <= 1.0
    ensures 0.0 < Pow(x, k) <= 1.0 && Mul(Pow(x, k), Reach(x, k as real)) <= x
  {
    if k > 0 {
      PowBernoulli(x, k - 1);
      PowStepFalls(x, k);
    }
  }

  lemma PowStepFalls(x: real, k: nat)
    requires 0.0 < x <= 1.0 && k > 0
    requires 0.0 < Pow(x, k - 1) <= 1.0 && Mul(Pow(x, k - 1), Reach(x, (k - 1) as real)) <= x
    ensures 0.0 < Pow(x, k) <= 1.0 && Mul(Pow(x, k), Reach(x, k as real)) <= x
  {
    hide Mul, Reach, Pow;
    FallsOnce(x, Pow(x, k - 1), Reach(x, (k - 1) as real));
    ReachNext(x, (k - 1) as real);
    PowMul(x, k);
    assert k as real == (k - 1) as real + 1.0;
  }

  /** So for a factor between 0 and 1 the number of steps has a bound known from the settings
      alone: fraction * (factor + k * (1 - factor)) <= factor. */
  lemma StepCountIsBounded(cfg: Settings, start: Run, trace: seq<Timed>)
    requires Launched(start) && HasRate(start) && 0.0 < cfg.stepFactor < 1.0
    requires Clocked(start.createdAt, trace) && NoRescale(trace)
    ensures var k := |Watching(cfg, start, trace).steps|;
            k > 0 ==> cfg.minRateFraction * (cfg.stepFactor + k as real * (1.0 - cfg.stepFactor)) <= cfg.stepFactor
  {
    hide Launched, Exec, Watching, Pow, HasRate, Clocked, NoRescale, Mul;
    var k := |Watching(cfg, start, trace).steps|;
    var x, m, reach := cfg.stepFactor, cfg.minRateFraction, Reach(cfg.stepFactor, k as real);
    StepsAreBounded(cfg, start, trace);
    PowBernoulli(x, k);
    MulLaws(reach, m, 1.0);
    MulLaws(reach, Pow(x, k), 1.0);
    MulOrder(1.0 - x, 0.0, k as real);
    MulLaws(1.0 - x, 0.0, 0.0);
    MulLaws(1.0 - x, k as real, 0.0);
    if k > 0 {
      MulOrder(reach, m, Pow(x, k));
      MulIs(m, x, k as real);
    }
  }

  lemma MulIs(m: real, x: real, n: real)
    ensures Mul(m, Reach(x, n)) == m * (x + n * (1.0 - x))
  {
  }

  /** A judged pass that ends a sustained window steps down exactly when the next power of
      the factor is still at or above the floor fraction, and otherwise drains. */
  lemma StepsUntilTheFloorThenDrains(cfg: Settings, start: Run, trace: seq<Timed>, boot: real, now: real)
    requires Launched(start) && HasRate(start) && cfg.stepFactor > 0.0 && cfg.stepDown
    requires Clocked(start.createdAt, trace) && NoRescale(trace)
    requires Supervised(Exec(cfg, start, trace), DoTick(boot))
    requires var checked := TickChecks(Exec(cfg, start, trace), boot, now);
             Judged(cfg, checked) && FailingNow(cfg, checked)
    requires var since := Watching(cfg, start, trace).since;
             since.Some? && now - since.value >= cfg.sustainedS
    ensures var checked := TickChecks(Exec(cfg, start, trace), boot, now);
            var k := |Watching(cfg, start, trace).steps|;
            var s := CheckBackpressure(cfg, checked, now);
            if Pow(cfg.stepFactor, k + 1) >= cfg.minRateFraction
            then s.snap.rate == Some(After(cfg, start.snap.rate.value, k + 1)) && s.state == checked.state
            else s.state.Draining? && s.endReason == Some(BackpressureDrain)
  {
    hide Launched, Exec, Watching, After, TickChecks, Judged, FailingNow, OpenSince, Grew, SameGrants, SteppedRate,
         FloorRate, InStep, Stepped, Rescale;
    var r, w := Exec(cfg, start, trace), Watching(cfg, start, trace);
    var checked, requested, k := TickChecks(r, boot, now), start.snap.rate.value, |w.steps|;
    LogRefinesClock(cfg, start, trace);
    InStepSince(cfg, r, w, Clock(start.createdAt, trace));
    RateIsGeometric(cfg, start, trace);
    ChecksGrow(r, boot, now);
    GrewKeepsSince(r.events, checked.events);
    ChecksKeepFleet(r, boot, now);
    PlanStepped(cfg, r, checked, requested, k);
    SteppedHasRate(cfg, checked, requested, k);
    FloorBoundsPower(cfg, requested, k + 1);
    JudgedState(cfg, checked);
    RescaleTakes(Noted(checked), SteppedRate(cfg, checked));
    RescaleKeepsState(Noted(checked), SteppedRate(cfg, checked));
  }

  lemma RescaleKeepsState(r: Run, rate: real)
    ensures Rescale(r, rate).state == r.state
  {
  }

  lemma JudgedState(cfg: Settings, r: Run)
    requires Judged(cfg, r)
    ensures r.leases != [] && (r.state == RunState.Running || r.state.Releasing?)
  {
  }

  /** The rate the floor is measured against is written once. */
  predicate OriginalKept(r: Run, s: Run) { r.snap.bpOriginal.Some? ==> s.snap.bpOriginal == r.snap.bpOriginal }

  lemma CheckKeepsOriginal(cfg: Settings, r: Run, now: real)
    ensures OriginalKept(r, CheckBackpressure(cfg, r, now))
  {
    hide Judged, FailingNow, OpenSince, Rescale, SteppedRate, FloorRate;
    if HasRate(r) {
      RescaleKeepsFleet(Noted(r), SteppedRate(cfg, r));
    }
  }

  lemma TickKeepsOriginal(cfg: Settings, r: Run, boot: real, now: real)
    ensures OriginalKept(r, Tick(cfg, r, boot, now))
  {
    hide TickChecks, CheckBackpressure, MaybeComplete, Each, DrainSince, SameGrants;
    var checked := TickChecks(r, boot, now);
    ChecksKeepFleet(r, boot, now);
    CheckKeepsOriginal(cfg, checked, now);
    CompletionKeepsPlan(ReapDraining(CheckBackpressure(cfg, checked, now), now), now);
  }

  lemma StepKeepsOriginal(cfg: Settings, r: Run, a: Action, now: real)
    ensures OriginalKept(r, Step(cfg, r, a, now))
  {
    hide Step, Tick, Rescale, SameGrants, Splittable;
    if a.DoTick? {
      TickIsStep(cfg, r, a, now);
      TickKeepsOriginal(cfg, r, a.boot, now);
    } else if a.DoRescale? {
      RescaleIsStep(cfg, r, a, now);
      RescaleKeepsFleet(r, a.rate);
    } else {
      StepKeepsPlan(cfg, r, a, now);
    }
  }

  lemma RescaleIsStep(cfg: Settings, r: Run, a: Action, now: real)
    requires a.DoRescale?
    ensures Step(cfg, r, a, now) == Rescale(r, a.rate)
  {
    hide Rescale;
  }

  /** Whatever happens after the first step, operator rescales included, the floor is still
      measured against the rate that was asked for when it happened. */
  lemma {:induction false} OriginalIsWrittenOnce(cfg: Settings, r: Run, trace: seq<Timed>)
    ensures OriginalKept(r, Exec(cfg, r, trace))
  {
    hide Step;
    if trace != [] {
      var n := |trace| - 1;
      OriginalIsWrittenOnce(cfg, r, trace[..n]);
      StepKeepsOriginal(cfg, Exec(cfg, r, trace[..n]), trace[n].action, trace[n].at);
    }
  }
}
