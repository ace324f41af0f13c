/** How runs end: in which state, for which reason, and that a resolved run does end. */
module Endings {
  import opened Basics
  import opened Apportion
  import opened RunModel
  import opened Lifecycle
  import opened Frames
  import opened RunMachine

  // ----- completion ---------------------------------------------------------------------------

  predicate SomeDone(leases: seq<Lease>) { exists i :: 0 <= i < |leases| && leases[i].state.Done? }

  predicate SomeLive(leases: seq<Lease>) {
    exists i :: 0 <= i < |leases| &&
      (leases[i].state.Claimed? || leases[i].state.Ready? || leases[i].state.Running?)
  }

  predicate SomeLost(leases: seq<Lease>) { exists i :: 0 <= i < |leases| && leases[i].state.Lost? }

  lemma PicksMean(leases: seq<Lease>)
    ensures Any(leases, Finished) <==> SomeDone(leases)
    ensures Any(leases, Pick.Live) <==> SomeLive(leases)
    ensures Any(leases, Missing) <==> SomeLost(leases)
  {
    if i :| 0 <= i < |leases| && leases[i].state.Done? {
      assert Is(leases[i], Finished);
    }
    if i :| 0 <= i < |leases| && leases[i].state.Live() {
      assert Is(leases[i], Pick.Live);
    }
    if i :| 0 <= i < |leases| && leases[i].state.Lost? {
      assert Is(leases[i], Missing);
    }
  }

  /** The reasons a run is wound down for that are no fault of its own. */
  predicate Benign(reason: EndReason) {
    reason == NaturalEnd || reason == DurationComplete || reason == BackpressureDrain
  }

  /** The reasons that are. */
  predicate Fault(reason: EndReason) {
    || reason == ProvisionFailed || reason == StrictReleaseTimeout || reason == AutoAbortLost
    || reason == AutoAbortAuth || reason == AllWorkersLost || reason == Orphaned || reason == NoEvents
  }

  /** A run that its last report, or a supervisor pass, ends: in which state, and why. */
  lemma CompletionIff(r: Run, now: real)
    requires !r.state.Terminal() && MaybeComplete(r, now).state.Terminal()
    ensures var s := MaybeComplete(r, now);
            var bad := r.endReason.Some? && (Fault(r.endReason.value) || r.endReason.value == OperatorStop);
            var good := SomeDone(r.leases) && At(r.totals, "events_total") > 0;
            && s == r.(state := s.state, endReason := s.endReason, endedAt := s.endedAt, events := s.events)
            && s.endedAt == (if r.endedAt.Some? then r.endedAt else Some(now))
            && (s.state.Completed? <==> good && !bad)
            && (s.state.Stopped? <==> r.endReason == Some(OperatorStop))
            && s.endReason.Some?
            && (r.endReason.Some? ==> s.endReason == r.endReason)
            && (r.endReason.None? ==>
                  s.endReason.value == if good then NaturalEnd
                                       else if SomeDone(r.leases) then NoEvents else AllWorkersLost)
  {
    hide Any;
    PicksMean(r.leases);
    hide SomeDone, SomeLive, SomeLost;
  }

  /** Nobody is at work any more, and somebody finished or, in a drain, was lost. */
  predicate Resolved(r: Run) {
    && (r.state.Running? || r.state.Releasing? || r.state.Paused? || r.state.Draining?)
    && !SomeLive(r.leases)
    && (SomeDone(r.leases) || (r.state.Draining? && SomeLost(r.leases)))
  }

  lemma CompletesResolved(r: Run, now: real)
    ensures !Resolved(MaybeComplete(r, now))
    ensures !Resolved(r) ==> MaybeComplete(r, now) == r
    ensures Resolved(r) ==> MaybeComplete(r, now).state.Terminal()
  {
    hide Any, Delivered;
    PicksMean(r.leases);
    hide SomeDone, SomeLive, SomeLost;
  }

  /** A report or a supervisor pass never leaves a resolved run standing. */
  lemma ResolvedRunEnds(cfg: Settings, r: Run, slot: nat, id: Option<LeaseId>, summary: Counters, boot: real, now: real)
    requires WellFormed(r)
    ensures slot < |r.leases| && (id.None? || id == Some(r.leases[slot].id)) ==>
              !Resolved(Final(r, slot, id, summary, now))
    ensures !Resolved(Tick(cfg, r, boot, now))
  {
    hide Resolved, MaybeComplete, TickChecks, CheckBackpressure, ReapDraining, Fold, First, Splittable;
    if slot < |r.leases| {
      CompletesResolved(r, now);
      CompletesResolved(WithState(r, slot, Done).(totals := Fold(r.totals, summary)), now);
      assert r.leases[slot].slot == slot;
    }
    CompletesResolved(ReapDraining(CheckBackpressure(cfg, TickChecks(r, boot, now), now), now), now);
    if r.state.Terminal() || r.state.Pending? {
      NotResolved(r);
    }
  }

  lemma NotResolved(r: Run)
    requires r.state.Terminal() || r.state.Pending?
    ensures !Resolved(r)
  {
  }

  // ----- every ending of every history ---------------------------------------------------------------

  /** Why a run ended completed: a finished worker, data delivered, and no fault. */
  predicate EndedWell(s: Run) {
    SomeDone(s.leases) && At(s.totals, "events_total") > 0 && s.endReason.Some? && Benign(s.endReason.value)
  }

  lemma CompletionEnds(r: Run, now: real)
    requires Sound(r) && !r.state.Terminal() && MaybeComplete(r, now).state.Terminal()
    requires r.endReason.Some? ==> Benign(r.endReason.value) || r.endReason.value == OperatorStop
    ensures var s := MaybeComplete(r, now); s.state.Completed? <==> EndedWell(s)
  {
    hide Sound, MaybeComplete, SomeDone;
    CompletionIff(r, now);
  }

  /** The reasons a run that has not ended can have. */
  predicate Wound(r: Run) {
    !r.state.Terminal() && r.endReason.Some? ==> Benign(r.endReason.value) || r.endReason.value == OperatorStop
  }

  /** Either the state is still to be decided by completion, or the run failed for a fault. */
  predicate Undecided(r: Run, s: Run) {
    if s.state.Terminal() then
      s.state.Failed? && s.endReason.Some? && !Benign(s.endReason.value)
    else s.endReason == r.endReason || (s.endReason.Some? && Benign(s.endReason.value))
  }

  lemma ReleaseDecides(r: Run, forcePartial: bool, now: real)
    requires !r.state.Terminal()
    ensures Undecided(r, EvaluateRelease(r, forcePartial, now))
  {
    hide Any, Each, ReadySplit;
  }

  lemma ChecksDecide(r: Run, boot: real, now: real)
    requires !r.state.Terminal()
    ensures Undecided(r, TickChecks(r, boot, now))
  {
    hide Any, Each, EvaluateRelease, DurationOver, TooManyLost, TooManyAuthFailures;
    ReleaseDecides(LapseLeases(r, boot, now), true, now);
  }

  lemma BackpressureDecides(cfg: Settings, r: Run, now: real)
    ensures var s := CheckBackpressure(cfg, r, now);
            && (r.state.Terminal() ==> s == r)
            && (!r.state.Terminal() ==> !s.state.Terminal() && Undecided(r, s))
  {
    hide Any, OpenSince, FailingNow, Rescale, SteppedRate, FloorRate;
    if HasRate(r) {
      RescaleKeepsControl(Noted(r), SteppedRate(cfg, r));
    }
  }

  lemma TickEnds(cfg: Settings, r: Run, boot: real, now: real)
    requires Sound(r) && Wound(r) && !r.state.Terminal()
    ensures var s := Tick(cfg, r, boot, now);
            Wound(s) && (s.state.Terminal() ==> (s.state.Completed? <==> EndedWell(s)))
  {
    hide Sound, TickChecks, CheckBackpressure, MaybeComplete, Each, DrainSince, SomeDone;
    var checked := TickChecks(r, boot, now);
    var judged := CheckBackpressure(cfg, checked, now);
    ChecksDecide(r, boot, now);
    BackpressureDecides(cfg, checked, now);
    ChecksAreSound(r, boot, now);
    BackpressureIsSound(cfg, checked, now);
    var reaped := ReapDraining(judged, now);
    if judged.state.Draining? {
      EachIsSound(judged, GiveUp);
    }
    CompletionSettles(reaped, now);
  }

  lemma CompletionSettles(r: Run, now: real)
    requires Sound(r) && Wound(r)
    ensures var s := MaybeComplete(r, now);
            && (r.state.Terminal() ==> s == r)
            && Wound(s)
            && (!r.state.Terminal() && s.state.Terminal() ==> (s.state.Completed? <==> EndedWell(s)))
  {
    hide Sound, MaybeComplete, SomeDone, EndedWell;
    CompletesResolved(r, now);
    if r.state.Terminal() {
      NotResolved(r);
    } else if MaybeComplete(r, now).state.Terminal() {
      CompletionEnds(r, now);
    }
  }

  lemma FinalEnds(r: Run, slot: nat, id: Option<LeaseId>, summary: Counters, now: real)
    requires Sound(r) && Wound(r) && !r.state.Terminal()
    ensures var s := Final(r, slot, id, summary, now);
            Wound(s) && (s.state.Terminal() ==> (s.state.Completed? <==> EndedWell(s)))
  {
    hide Sound, MaybeComplete, SlotIndex, Fold, SomeDone;
    var i := SlotIndex(r.leases, slot);
    CompletionSettles(r, now);
    if i.Some? {
      ReportIsSound(r, i.value, summary);
      CompletionSettles(WithState(r, i.value, Done).(totals := Fold(r.totals, summary)), now);
    }
  }

  lemma StopEnds(r: Run, force: bool, now: real)
    requires Sound(r) && !r.state.Terminal()
    ensures var s := Stop(r, force, now);
            s.endReason == Some(OperatorStop) && (s.state.Draining? || s.state.Stopped?)
  {
    hide MaybeComplete, Each, LiveTotals, PausedSeconds, Sound;
    var draining := Transition(EndPause(r, now), Draining, Some(OperatorStop), now);
    var folded := HeartbeatsFolded(draining);
    var last := folded.(leases := Each(folded.leases, Finalise));
    CompletesResolved(last, now);
    if MaybeComplete(last, now).state.Terminal() {
      CompletionIff(last, now);
    }
  }

  lemma StepEnds(cfg: Settings, r: Run, a: Action, now: real)
    requires Sound(r) && Wound(r) && !r.state.Terminal()
    ensures var s := Step(cfg, r, a, now);
            Wound(s) && (s.state.Terminal() ==> (s.state.Completed? <==> EndedWell(s)))
  {
    hide Sound, Claim, MarkReady, EvaluateRelease, CommandFor, Final, Stop, Scale, Rescale, Tick, Each, SomeDone,
         HolderIndex, PausedSeconds;
    if a.DoClaim? || a.DoReady? || a.DoScale? || a.DoRescale? {
      QuietStep(cfg, r, a, now);
      return;
    }
    match a
    case DoEvaluate => ReleaseDecides(r, false, now);
    case DoHeartbeat(slot, id, beat) =>
      var i := HolderIndex(r.leases, slot, id);
      if i.Some? {
        CommandControl(Renewed(r, i.value, beat, now), i.value, beat.protocolOk, now);
      }
    case DoFinal(slot, id, summary) => FinalEnds(r, slot, id, summary, now);
    case DoStop(force) => StopEnds(r, force, now);
    case DoTick(boot) => TickEnds(cfg, r, boot, now);
    case _ =>
  }

  lemma {:induction false} AlwaysWound(cfg: Settings, start: Run, trace: seq<Timed>)
    requires Launched(start)
    ensures Wound(Exec(cfg, start, trace))
  {
    hide Sound, Launched, Step, Wound;
    if trace == [] {
      LaunchWound(start);
    } else {
      var n := |trace| - 1;
      var r := Exec(cfg, start, trace[..n]);
      AlwaysWound(cfg, start, trace[..n]);
      AlwaysSound(cfg, start, trace[..n]);
      if !r.state.Terminal() {
        StepEnds(cfg, r, trace[n].action, trace[n].at);
      } else {
        StepKeepsEndAndT0(cfg, r, trace[n].action, trace[n].at);
        EndedWound(Step(cfg, r, trace[n].action, trace[n].at));
      }
    }
  }

  lemma LaunchWound(r: Run)
    requires Launched(r)
    ensures Wound(r)
  {
    hide EqualShares;
  }

  lemma EndedWound(r: Run)
    requires r.state.Terminal()
    ensures Wound(r)
  {
  }

  /** In every history, the step that ends a run leaves it completed exactly when a worker has
      finished, events were delivered, and it was not stopped, aborted or orphaned. */
  lemma EndsCompletedIff(cfg: Settings, start: Run, trace: seq<Timed>, a: Action, now: real)
    requires Launched(start)
    requires !Exec(cfg, start, trace).state.Terminal() && Step(cfg, Exec(cfg, start, trace), a, now).state.Terminal()
    ensures var s := Step(cfg, Exec(cfg, start, trace), a, now); s.state.Completed? <==> EndedWell(s)
  {
    hide Sound, Launched, Step, Wound, EndedWell, Exec;
    AlwaysSound(cfg, start, trace);
    AlwaysWound(cfg, start, trace);
    StepEnds(cfg, Exec(cfg, start, trace), a, now);
  }

  /** A forced stop ends a run there and then. */
  lemma ForcedStopEnds(r: Run, now: real)
    requires Sound(r) && !r.state.Terminal() && r.leases != []
    ensures Stop(r, true, now).state.Stopped? && Stop(r, true, now).endedAt == Some(now)
    ensures forall i :: 0 <= i < |r.leases| ==>
              var l, m := r.leases[i], Stop(r, true, now).leases[i];
              m == l.(state := if l.state.Live() then LeaseState.Done else if l.state.Free? then LeaseState.Lost
                               else l.state)
  {
    hide MaybeComplete, LiveTotals, Sound, PausedSeconds;
    var draining := Transition(EndPause(r, now), Draining, Some(OperatorStop), now);
    var folded := HeartbeatsFolded(draining);
    var last := folded.(leases := Each(folded.leases, Finalise));
    assert forall i :: 0 <= i < |r.leases| ==> last.leases[i] == Changed(r.leases[i], Finalise);
    hide Each;
    assert last.leases[0].state.Done? || last.leases[0].state.Lost?;
    NotEnded(r);
    CompletesResolved(last, now);
    CompletionIff(last, now);
  }

  lemma NotEnded(r: Run)
    requires Sound(r) && !r.state.Terminal()
    ensures r.endedAt.None?
  {
    hide Any, NoneRunning;
  }
}
