/** What a heartbeat answers, and how answers move a released run on to running. */
module Promotion {
  import opened Basics
  import opened Apportion
  import opened RunModel
  import opened Lifecycle
  import opened Frames
  import opened RunMachine
  import opened Dialogue

  // ----- one heartbeat ------------------------------------------------------------------------

  /** Claimed, and not told to start yet. */
  predicate Unstarted(l: Lease) { l.state.Claimed? || l.state.Ready? }

  /** The answer to a heartbeat, told from the run and the lease before it. */
  lemma AnswerIff(r: Run, i: nat, beat: Beat, now: real)
    requires WellFormed(r) && i < |r.leases|
    ensures var l, cmd := r.leases[i], Heartbeat(r, i, Some(r.leases[i].id), beat, now).1;
            var over := r.state.Draining? || r.state.Terminal() || !beat.protocolOk;
            var start := r.t0.Some? && Unstarted(l);
            && (cmd == Drain <==> over)
            && (cmd.Release? <==> !over && start) && (cmd.Release? ==> r.t0 == Some(cmd.t0))
            && (cmd == Hold <==> !over && !start && r.state.Paused?)
            && (cmd.Retarget? <==> !over && !start && !r.state.Paused? && l.share.retarget)
            && (cmd.Retarget? ==> cmd.share == l.share.rate)
            && (cmd == Continue <==> !over && !start && !r.state.Paused? && !l.share.retarget)
  {
    hide Reported, Splittable, First;
    SlotFound(r.leases, i, r.minted);
    ReportsKeepShare(r.leases[i].share, beat);
  }

  /** A caller that does not hold the slot is told so and changes nothing. */
  lemma StrangerIsSuperseded(r: Run, slot: nat, id: Option<LeaseId>, beat: Beat, now: real)
    requires WellFormed(r)
    requires slot < |r.leases| ==> id != Some(r.leases[slot].id)
    ensures Heartbeat(r, slot, id, beat, now) == (r, Superseded)
  {
    hide CommandFor, Renewed, First, Splittable;
  }

  /** What a heartbeat leaves of the lease and the run: its instant and its sample are kept, a
      lost lease is live again, and from T0 on a release starts the worker and the run. */
  lemma HeartbeatPromotes(r: Run, i: nat, beat: Beat, now: real)
    requires WellFormed(r) && i < |r.leases|
    ensures var (s, cmd) := Heartbeat(r, i, Some(r.leases[i].id), beat, now);
            && |s.leases| == |r.leases|
            && s.leases[i].lastHb == Some(now)
            && s.samples == r.samples + [Sample(i, now, beat.counters)]
            && (cmd.Release? ==>
                  if now >= cmd.t0 then s.leases[i].state.Running? && !s.state.Releasing?
                  else s.leases[i].state == r.leases[i].state && s.state == r.state)
            && (r.leases[i].state.Lost? && cmd != Drain ==>
                  s.leases[i].state == if r.t0.Some? then LeaseState.Running else Ready)
            && (cmd == Drain ==> s.leases[i].state == r.leases[i].state && s.state == r.state)
            && s.leases[i].share.rate == r.leases[i].share.rate
            && (s.leases[i].share.retarget <==> r.leases[i].share.retarget && !cmd.Retarget?)
            && (s.state != r.state ==> r.state.Releasing? && s.state.Running? && cmd.Release?)
  {
    hide Reported, Splittable, First;
    SlotFound(r.leases, i, r.minted);
    ReportsKeepShare(r.leases[i].share, beat);
  }

  /** What a heartbeat reports of the worker's work and engine is stored beside its share: a
      reason only where there is no work, cut to 300 characters; a report left out changes
      nothing. */
  lemma ReportsAreStored(r: Run, i: nat, beat: Beat, now: real)
    requires WellFormed(r) && i < |r.leases|
    ensures var s := Heartbeat(r, i, Some(r.leases[i].id), beat, now).0;
            && |s.leases| == |r.leases|
            && s.leases[i].share.engine == (if beat.engine.Some? then beat.engine else r.leases[i].share.engine)
            && (beat.work.None? ==> s.leases[i].share.work == r.leases[i].share.work)
            && (beat.work.Some? ==>
                  var was, is_ := beat.work.value, s.leases[i].share.work;
                  && is_.Some? && is_.value.count == was.count
                  && (is_.value.reason.Some? <==> was.count <= 0 && was.reason.Some?)
                  && (is_.value.reason.Some? ==>
                        is_.value.reason.value <= was.reason.value &&
                        |is_.value.reason.value| == if |was.reason.value| < 300 then |was.reason.value| else 300))
  {
    hide Splittable, First, CommandFor;
    SlotFound(r.leases, i, r.minted);
    CommandKeepsReports(Renewed(r, i, beat, now), i, beat.protocolOk, now);
  }

  lemma CommandKeepsReports(r: Run, i: nat, protocolOk: bool, now: real)
    requires i < |r.leases|
    ensures var s := CommandFor(r, i, protocolOk, now).0;
            && |s.leases| == |r.leases|
            && s.leases[i].share.work == r.leases[i].share.work && s.leases[i].share.engine == r.leases[i].share.engine
  {
  }

  // ----- every history ---------------------------------------------------------------------------

  /** While the run is releasing, only leases that were lost at some time are running. */
  predicate Waits(r: Run, lost: set<LeaseId>) {
    r.state.Releasing? ==>
      forall i :: 0 <= i < |r.leases| && r.leases[i].state.Running? ==> r.leases[i].id in lost
  }

  /** A run comes to be releasing only from before its release. */
  lemma ReleasingBefore(cfg: Settings, r: Run, a: Action, now: real)
    requires Sound(r) && Step(cfg, r, a, now).state.Releasing?
    ensures r.state.Releasing? || NoneRunning(r.leases)
  {
    hide Sound, NoneRunning, Claim, MarkReady, EvaluateRelease, Heartbeat, Final, Stop, Scale, Rescale, Tick,
         Reconcile;
    if a.DoClaim? || a.DoReady? || a.DoScale? || a.DoRescale? {
      QuietStep(cfg, r, a, now);
    } else {
      match a
      case DoEvaluate => EvaluateReleasing(r, false, now);
      case DoHeartbeat(slot, id, beat) => BeatReleasing(r, slot, id, beat, now);
      case DoTick(boot) => TickReleasing(cfg, r, boot, now);
      case DoFinal(slot, id, summary) => FinalReleasing(r, slot, id, summary, now);
      case DoStop(force) => StopReleasing(r, force, now);
      case DoReconcile(probe) => ReconcileReleasing(r, probe, now);
      case _ =>
    }
  }

  lemma EvaluateReleasing(r: Run, forcePartial: bool, now: real)
    requires Sound(r) && EvaluateRelease(r, forcePartial, now).state.Releasing?
    ensures r.state.Releasing? || NoneRunning(r.leases)
  {
    hide NoneRunning, Any, PartialRelease, Released, Delivered;
  }

  lemma BeatReleasing(r: Run, slot: nat, id: Option<LeaseId>, beat: Beat, now: real)
    requires Heartbeat(r, slot, id, beat, now).0.state.Releasing?
    ensures r.state.Releasing?
  {
    hide CommandFor, HolderIndex, Reported;
    var i := HolderIndex(r.leases, slot, id);
    if i.Some? {
      CommandControl(Renewed(r, i.value, beat, now), i.value, beat.protocolOk, now);
    }
  }

  lemma CompletionState(r: Run, now: real)
    ensures var s := MaybeComplete(r, now); s.state == r.state || s.state.Terminal()
  {
    hide Any, Delivered;
  }

  lemma ChecksReleasing(r: Run, boot: real, now: real)
    requires Sound(r) && TickChecks(r, boot, now).state.Releasing?
    ensures r.state.Releasing? || NoneRunning(r.leases)
  {
    hide NoneRunning, Any, Each, ReadySplit, DurationOver, TooManyLost, TooManyAuthFailures, Delivered;
  }

  lemma BackpressureState(cfg: Settings, r: Run, now: real)
    ensures var s := CheckBackpressure(cfg, r, now); s.state == r.state || s.state.Draining?
  {
    hide Judged, OpenSince, FailingNow, Rescale, SteppedRate, FloorRate;
    if HasRate(r) {
      RescaleKeepsControl(Noted(r), SteppedRate(cfg, r));
    }
  }

  lemma TickReleasing(cfg: Settings, r: Run, boot: real, now: real)
    requires Sound(r) && Tick(cfg, r, boot, now).state.Releasing?
    ensures r.state.Releasing? || NoneRunning(r.leases)
  {
    hide Sound, NoneRunning, TickChecks, CheckBackpressure, MaybeComplete, Each, DrainSince;
    var checked := TickChecks(r, boot, now);
    var judged := CheckBackpressure(cfg, checked, now);
    BackpressureState(cfg, checked, now);
    CompletionState(ReapDraining(judged, now), now);
    if !r.state.Terminal() && checked.state.Releasing? {
      ChecksReleasing(r, boot, now);
    }
  }

  lemma FinalReleasing(r: Run, slot: nat, id: Option<LeaseId>, summary: Counters, now: real)
    requires Final(r, slot, id, summary, now).state.Releasing?
    ensures r.state.Releasing?
  {
    hide SlotIndex, MaybeComplete, Fold;
    CompletionState(r, now);
    var i := SlotIndex(r.leases, slot);
    if i.Some? {
      CompletionState(WithState(r, i.value, Done).(totals := Fold(r.totals, summary)), now);
    }
  }

  lemma StopReleasing(r: Run, force: bool, now: real)
    ensures !Stop(r, force, now).state.Releasing?
  {
    hide MaybeComplete, LiveTotals, Each, EndPause;
    var draining := Transition(EndPause(r, now), Draining, Some(OperatorStop), now);
    var folded := HeartbeatsFolded(draining);
    CompletionState(folded.(leases := Each(folded.leases, Finalise)), now);
  }

  lemma ReconcileReleasing(r: Run, probe: Probe, now: real)
    requires Reconcile(r, probe, now).state.Releasing?
    ensures r.state.Releasing?
  {
    hide Each;
  }

  lemma CalmStepWaits(cfg: Settings, r: Run, a: Action, now: real, lost: set<LeaseId>, more: set<LeaseId>)
    requires Sound(r) && Waits(r, lost) && lost <= more
    requires !a.DoClaim? && !a.DoHeartbeat? && !a.DoScale?
    ensures Waits(Step(cfg, r, a, now), more)
  {
    hide Sound, Step;
    var s := Step(cfg, r, a, now);
    if s.state.Releasing? {
      ReleasingBefore(cfg, r, a, now);
      CalmStep(cfg, r, a, now);
      forall i | 0 <= i < |s.leases| && s.leases[i].state.Running? ensures s.leases[i].id in more {
        assert Calm(r.leases[i], s.leases[i]);
      }
    }
  }

  lemma ClaimWaits(r: Run, holder: string, hint: Option<nat>, now: real, lost: set<LeaseId>, more: set<LeaseId>)
    requires WellFormed(r) && Waits(r, lost) && lost <= more
    ensures Waits(Claim(r, holder, hint, now), more)
  {
    hide WellFormed, IssueAt, HeldBy, NextClaimable;
    QuietStep(Settings(false, 0.0, 0.0, false, 0.0, 0.0), r, DoClaim(holder, hint), now);
    var g, s := GrantFor(r, holder, hint), Claim(r, holder, hint, now);
    if g.Issue? && s.state.Releasing? {
      forall j | 0 <= j < |s.leases| && s.leases[j].state.Running? ensures s.leases[j].id in more {
        IssuedLeases(r, g.index, holder, now, j);
      }
    }
  }

  lemma ScaleWaits(r: Run, workers: int, driverOk: bool, now: real, lost: set<LeaseId>, more: set<LeaseId>)
    requires WellFormed(r) && Waits(r, lost) && lost <= more
    ensures Waits(Scale(r, workers, driverOk), more)
  {
    hide WellFormed, Scale;
    QuietStep(Settings(false, 0.0, 0.0, false, 0.0, 0.0), r, DoScale(workers, driverOk), now);
    var s := Scale(r, workers, driverOk);
    if s.state.Releasing? {
      forall j | 0 <= j < |s.leases| && s.leases[j].state.Running? ensures s.leases[j].id in more {
        ScaledLeases(r, workers, driverOk, j);
      }
    }
  }

  lemma HeartbeatWaits(
    r: Run, slot: nat, id: Option<LeaseId>, beat: Beat, now: real, lost: set<LeaseId>, more: set<LeaseId>)
    requires WellFormed(r) && Waits(r, lost) && lost <= more
    requires forall i :: 0 <= i < |r.leases| && r.leases[i].state.Lost? ==> r.leases[i].id in lost
    ensures Waits(Heartbeat(r, slot, id, beat, now).0, more)
  {
    hide WellFormed, Heartbeat;
    var s := Heartbeat(r, slot, id, beat, now).0;
    if s.state.Releasing? {
      BeatReleasing(r, slot, id, beat, now);
      StrangerOr(r, slot, id, beat, now);
      NotEmpty(r);
      HeartbeatAnswers(r, slot, id, beat, now, 0);
      forall j | 0 <= j < |s.leases| && s.leases[j].state.Running? ensures s.leases[j].id in more {
        HeartbeatAnswers(r, slot, id, beat, now, j);
        if id == Some(r.leases[j].id) && slot == j {
          HeartbeatPromotes(r, j, beat, now);
        }
      }
    }
  }

  lemma StrangerOr(r: Run, slot: nat, id: Option<LeaseId>, beat: Beat, now: real)
    requires WellFormed(r)
    ensures (slot < |r.leases| && id == Some(r.leases[slot].id)) || Heartbeat(r, slot, id, beat, now) == (r, Superseded)
  {
    hide WellFormed, Heartbeat;
    if !(slot < |r.leases| && id == Some(r.leases[slot].id)) {
      StrangerIsSuperseded(r, slot, id, beat, now);
    }
  }

  lemma StepWaits(cfg: Settings, r: Run, a: Action, now: real, lost: set<LeaseId>, more: set<LeaseId>)
    requires WellFormed(r) && Sound(r) && Waits(r, lost) && lost <= more
    requires forall i :: 0 <= i < |r.leases| && r.leases[i].state.Lost? ==> r.leases[i].id in lost
    ensures Waits(Step(cfg, r, a, now), more)
  {
    hide WellFormed, Sound, Waits, Claim, Heartbeat, Scale;
    match a
    case DoClaim(holder, hint) => ClaimWaits(r, holder, hint, now, lost, more);
    case DoHeartbeat(slot, id, beat) => HeartbeatWaits(r, slot, id, beat, now, lost, more);
    case DoScale(workers, driverOk) => ScaleWaits(r, workers, driverOk, now, lost, more);
    case _ => CalmStepWaits(cfg, r, a, now, lost, more);
  }

  lemma LostGrow(r: Run, a: Action, s: Run, now: real, k: Ledger)
    ensures k.lost <= Observe(r, a, s, now, k).lost
  {
    hide GrantFor, Heartbeat;
  }

  lemma LostNoted(r: Run, k: Ledger)
    requires AllInformed(r, k)
    ensures forall i :: 0 <= i < |r.leases| && r.leases[i].state.Lost? ==> r.leases[i].id in k.lost
  {
  }

  /** After every history: once some worker that was never lost is running, so is the run, or
      it has been paused or is winding down. It is not left releasing. */
  lemma {:induction false} RunningWorkerMeansReleased(cfg: Settings, start: Run, trace: seq<Timed>)
    requires Launched(start)
    ensures Waits(Exec(cfg, start, trace), Notes(cfg, start, trace).lost)
  {
    hide WellFormed, Sound, Waits, Observe, Step, Launched, AllInformed;
    if trace == [] {
      LaunchWaits(start);
    } else {
      var n := |trace| - 1;
      var r, k := Exec(cfg, start, trace[..n]), Notes(cfg, start, trace[..n]);
      RunningWorkerMeansReleased(cfg, start, trace[..n]);
      AlwaysWellFormed(cfg, start, trace[..n]);
      AlwaysSound(cfg, start, trace[..n]);
      AlwaysInformed(cfg, start, trace[..n]);
      LostNoted(r, k);
      LostGrow(r, trace[n].action, Exec(cfg, start, trace), trace[n].at, k);
      StepWaits(cfg, r, trace[n].action, trace[n].at, k.lost, Notes(cfg, start, trace).lost);
    }
  }

  lemma LaunchWaits(r: Run)
    requires Launched(r)
    ensures Waits(r, {})
  {
    LaunchIsSound(r);
    hide Launched, Any, Delivered;
    if r.state.Releasing? {
      LaunchedNotReleasing(r);
    }
  }

  lemma LaunchedNotReleasing(r: Run)
    requires Launched(r)
    ensures !r.state.Releasing?
  {
    hide EqualShares;
  }
}
