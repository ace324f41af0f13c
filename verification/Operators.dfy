/** What each operator call, and each call without conditions of its own, does to a run. */
module Operators {
  import opened Basics
  import opened Apportion
  import opened RunModel
  import opened Lifecycle
  import opened Frames
  import opened RunMachine
  import opened Dialogue

  // ----- launch -------------------------------------------------------------------------------

  /** One slot for a replay, and never none. */
  function Slots(spec: Snapshot): nat { if spec.replay || spec.workers < 1 then 1 else spec.workers }

  /** A launch is refused exactly when the rate cannot be split; else it has its slots, all
      free, and waits for them, or has failed if the fleet could not be asked for. */
  lemma LaunchIff(spec: Snapshot, launched: bool, now: real)
    ensures Provision(spec, launched, now).Success? <==> Splittable(spec.mode, spec.rate)
    ensures Provision(spec, launched, now).Success? ==>
              var r, n := Provision(spec, launched, now).value, Slots(spec);
              && (if launched then r.state.Provisioning? && r.endReason.None? && r.endedAt.None?
                  else r.state.Failed? && r.endReason == Some(ProvisionFailed) && r.endedAt == Some(now))
              && r.createdAt == now && r.t0.None? && !r.degraded && r.pausedAt.None? && r.pausedS == 0.0
              && r.snap == spec.(workers := n, bpOriginal := None)
              && r.samples == [] && r.totals == map[] && r.minted == n && |r.leases| == n
              && forall i :: 0 <= i < n ==>
                   r.leases[i] == Lease(i, i, None, Free, None, None, 0,
                                        PlainShare(Share(spec.mode, EqualValue(spec.mode, spec.rate, n, i))))
  {
    hide Splittable, EqualValue;
  }

  // ----- pause, resume, stop -----------------------------------------------------------------------

  /** Only a running run is paused, only a paused one resumed; nothing but its state, its pause
      and its log changes. */
  lemma PauseIff(r: Run, now: real)
    ensures Pause(r, now) == if !r.state.Running? then r
                             else r.(state := Paused, pausedAt := Some(now),
                                     events := r.events + [StateChange(now, RunState.Running, Paused)])
    ensures Resume(r, now).state == if r.state.Paused? then RunState.Running else r.state
    ensures !r.state.Paused? ==> Resume(r, now) == r
  {
  }

  /** A pause that is resumed leaves the run as it was, but for the time it took. */
  lemma PauseThenResume(r: Run, from: real, to: real)
    requires r.state.Running? && from <= to
    ensures var out, back := StateChange(from, RunState.Running, Paused), StateChange(to, Paused, RunState.Running);
            Resume(Pause(r, from), to) ==
            r.(pausedAt := None, pausedS := r.pausedS + (to - from), events := r.events + [out, back])
  {
    var out, back := StateChange(from, RunState.Running, Paused), StateChange(to, Paused, RunState.Running);
    assert r.events + [out] + [back] == r.events + [out, back];
  }

  /** A stop drains a run that has not ended, ends its pause, and leaves its workers at work. */
  lemma StopIff(r: Run, now: real)
    ensures var s := Stop(r, false, now);
            if r.state.Terminal() then s == r
            else
              && s.state.Draining? && s.endReason == Some(OperatorStop) && s.pausedAt.None?
              && s.leases == r.leases && s.totals == r.totals && s.endedAt == r.endedAt && s.t0 == r.t0
              && s.pausedS == r.pausedS +
                 (if r.pausedAt.Some? && now > r.pausedAt.value then now - r.pausedAt.value else 0.0)
  {
  }

  // ----- the fleet -----------------------------------------------------------------------------------

  /** A lease given a new share: told of it if its holder is there to be told. */
  predicate GivenShare(l: Lease, m: Lease, share: Share) {
    if l.state.Live() then m == l.(share := l.share.(rate := share, retarget := true))
    else m == l.(share := ShareDoc(share, false, None, None))
  }

  /** A scale is refused exactly when it asks for none, the run has ended, its rotation pins
      another count, or the driver fails. Taken, it leaves that many slots, the old ones with
      their holders, the new ones free, and splits the rate evenly over them. */
  lemma ScaleIff(r: Run, workers: int, driverOk: bool)
    requires WellFormed(r)
    ensures var s, n := Scale(r, workers, driverOk), if r.snap.replay then 1 else workers;
            var pinned := r.snap.rotationPins && n != r.snap.workers;
            if workers < 1 || r.state.Terminal() || !driverOk || pinned then s == r
            else
              && s == r.(leases := s.leases, minted := s.minted, snap := r.snap.(workers := n)) && |s.leases| == n
              && (forall i :: 0 <= i < n && i < |r.leases| ==>
                    GivenShare(r.leases[i], s.leases[i],
                               Share(r.snap.mode, EqualValue(r.snap.mode, r.snap.rate, n, i))))
              && (forall i :: |r.leases| <= i < n ==>
                    s.leases[i] == Lease(i, r.minted + i - |r.leases|, None, Free, None, None, 0,
                                         PlainShare(Share(r.snap.mode, EqualValue(r.snap.mode, r.snap.rate, n, i)))))
  {
    hide EqualValue, Splittable;
    var n := EffectiveWorkers(r.snap.replay, workers);
    var shares := ShareList(r, n);
    if shares.Success? {
      var sized := Resized(r, n);
      ResizedLeases(r, n);
      hide Resized, Each;
      forall i | 0 <= i < n
        ensures GivenShare(sized.leases[i], Each(sized.leases, Reassign(shares.value))[i], shares.value[i])
      {
        Slotted(r, n, i);
        ShareIsGiven(sized.leases, shares.value, i);
      }
    }
  }

  lemma ShareIsGiven(leases: seq<Lease>, shares: seq<Share>, i: nat)
    requires i < |leases| && i < |shares| && leases[i].slot == i
    ensures |Each(leases, Reassign(shares))| == |leases|
    ensures GivenShare(leases[i], Each(leases, Reassign(shares))[i], shares[i])
  {
    assert Each(leases, Reassign(shares))[i] == Changed(leases[i], Reassign(shares));
    hide Each;
  }

  lemma ResizedLeases(r: Run, n: nat)
    requires LeasesInOrder(r.leases, r.minted)
    ensures |Resized(r, n).leases| == n
    ensures Resized(r, n) == r.(leases := Resized(r, n).leases, minted := Resized(r, n).minted)
    ensures forall i :: 0 <= i < n ==>
              Resized(r, n).leases[i] ==
              if i < |r.leases| then r.leases[i]
              else Lease(i, r.minted + i - |r.leases|, None, Free, None, None, 0, PlainShare(Share(r.snap.mode, 0.0)))
  {
  }

  lemma Slotted(r: Run, n: nat, i: nat)
    requires LeasesInOrder(r.leases, r.minted) && i < n
    ensures |Resized(r, n).leases| == n && Resized(r, n).leases[i].slot == i
  {
    ResizedLeases(r, n);
    hide Resized;
  }

  /** A new rate is refused exactly when the run has ended or it cannot be split. */
  lemma RescaleIff(r: Run, rate: real)
    requires WellFormed(r)
    ensures var s, n := Rescale(r, rate), |r.leases|;
            if r.state.Terminal() || !Splittable(r.snap.mode, Some(rate)) then s == r
            else
              && s == r.(leases := s.leases, snap := r.snap.(rate := Some(rate))) && |s.leases| == n
              && forall i :: 0 <= i < n ==>
                   GivenShare(r.leases[i], s.leases[i], Share(r.snap.mode, EqualValue(r.snap.mode, Some(rate), n, i)))
  {
    hide EqualValue, Splittable;
  }

  /** A ready call of the slot's holder is noted; a claimed lease is then ready. */
  lemma ReadyIff(r: Run, slot: nat, id: Option<LeaseId>, now: real)
    requires WellFormed(r)
    ensures var s := MarkReady(r, slot, id, now);
            if slot < |r.leases| && id == Some(r.leases[slot].id) then
              s == r.(leases := r.leases[slot := r.leases[slot].(
                        lastHb := Some(now),
                        state := if r.leases[slot].state.Claimed? then Ready else r.leases[slot].state)])
            else s == r
  {
    hide Splittable;
    if slot < |r.leases| {
      SlotFound(r.leases, slot, r.minted);
    }
    hide First;
  }

  // ----- restarts of the control plane ----------------------------------------------------------------

  /** At boot a run that has not ended is given up exactly when its workload is known to be gone
      or was never recorded, and only in the first case are its workers. */
  lemma ReconcileIff(r: Run, probe: Probe, now: real)
    ensures var s := Reconcile(r, probe, now);
            if r.state.Terminal() || probe == Unknown || probe == Present then s == r
            else
              && s.state.Failed? && s.endReason == Some(Orphaned)
              && s.endedAt == (if r.endedAt.Some? then r.endedAt else Some(now))
              && |s.leases| == |r.leases|
              && forall i :: 0 <= i < |r.leases| ==>
                   s.leases[i] == if probe == Gone && !r.leases[i].state.Done? then r.leases[i].(state := Lost)
                                  else r.leases[i]
  {
  }

  // ----- the log ----------------------------------------------------------------------------------------

  /** The state a log of events leads to from a given one, if each change begins where the last
      one ended. */
  function LeadsTo(events: seq<Event>, from: RunState): Option<RunState> {
    if events == [] then Some(from)
    else
      var st := LeadsTo(events[..|events| - 1], from);
      match events[|events| - 1]
      case StateChange(_, a, b) => if st == Some(a) then Some(b) else None
      case _ => st
  }

  /** The log tells the run's state. */
  predicate Logged(r: Run) { LeadsTo(r.events, Pending) == Some(r.state) }

  lemma LogAppend(events: seq<Event>, e: Event, from: RunState)
    ensures LeadsTo(events + [e], from) ==
            match e
            case StateChange(_, a, b) => (if LeadsTo(events, from) == Some(a) then Some(b) else None)
            case _ => LeadsTo(events, from)
  {
    assert (events + [e])[..|events|] == events;
  }

  lemma TransitionLogs(r: Run, to: RunState, reason: Option<EndReason>, now: real)
    requires Logged(r)
    ensures Logged(Transition(r, to, reason, now))
  {
    hide LeadsTo;
    LogAppend(r.events, StateChange(now, r.state, to), Pending);
  }

  lemma NoteLogs(r: Run, s: Run, e: Event)
    requires Logged(r) && s.state == r.state && s.events == r.events + [e] && !e.StateChange?
    ensures Logged(s)
  {
    hide LeadsTo;
    LogAppend(r.events, e, Pending);
  }

  lemma CompletionLogs(r: Run, now: real)
    requires Logged(r)
    ensures Logged(MaybeComplete(r, now))
  {
    hide Logged, Transition, MayComplete, TerminalStateFor, DefaultEndReason;
    var terminal := TerminalStateFor(r);
    var reason := if r.endReason.Some? then r.endReason.value else DefaultEndReason(r, terminal);
    TransitionLogs(r, terminal, Some(reason), now);
  }

  lemma SameLog(r: Run, s: Run)
    requires Logged(r) && s.events == r.events && s.state == r.state
    ensures Logged(s)
  {
  }

  lemma ReleaseLogs(r: Run, forcePartial: bool, now: real)
    requires Logged(r)
    ensures Logged(EvaluateRelease(r, forcePartial, now))
  {
    hide Logged, Transition, Any, Each, ReadySplit;
    var missed := r.(leases := Each(r.leases, MissRelease));
    var degraded := missed.(degraded := true, leases := ReadySplit(missed));
    var a, b := r.(t0 := Some(now + RELEASE_DELAY_S)), degraded.(t0 := Some(now + RELEASE_DELAY_S));
    SameLog(r, missed);
    SameLog(r, a);
    SameLog(r, b);
    TransitionLogs(missed, RunState.Failed, Some(StrictReleaseTimeout), now);
    TransitionLogs(a, Releasing, None, now);
    TransitionLogs(b, Releasing, None, now);
  }

  lemma ChecksLog(r: Run, boot: real, now: real)
    requires Logged(r)
    ensures Logged(TickChecks(r, boot, now))
  {
    hide Logged, Transition, Any, Each, EvaluateRelease, DurationOver, TooManyLost, TooManyAuthFailures;
    var lapsed := LapseLeases(r, boot, now);
    SameLog(r, lapsed);
    ReleaseLogs(lapsed, true, now);
    TransitionLogs(lapsed, RunState.Failed, Some(ProvisionTimeout), now);
    var waited := ReleaseTimeout(lapsed, now);
    TransitionLogs(waited, Draining, Some(DurationComplete), now);
    var timed := CheckDuration(waited, now);
    TransitionLogs(timed, RunState.Failed, Some(AutoAbortLost), now);
    TransitionLogs(timed, RunState.Failed, Some(AutoAbortAuth), now);
  }

  lemma BackpressureLogs(cfg: Settings, r: Run, now: real)
    requires Logged(r)
    ensures Logged(CheckBackpressure(cfg, r, now))
  {
    hide Logged, Transition, Judged, OpenSince, FailingNow, Rescale, SteppedRate, FloorRate;
    NoteLogs(r, r.(events := r.events + [Cleared(now)]), Cleared(now));
    NoteLogs(r, r.(events := r.events + [Detected(now)]), Detected(now));
    TransitionLogs(r, Draining, Some(BackpressureDrain), now);
    if HasRate(r) && CanStep(cfg, r) {
      RescaleKeepsControl(Noted(r), SteppedRate(cfg, r));
      NoteLogs(r, StepDown(cfg, r, now), SteppedDown(now));
    }
  }

  lemma TickLogs(cfg: Settings, r: Run, boot: real, now: real)
    requires Logged(r)
    ensures Logged(Tick(cfg, r, boot, now))
  {
    hide Logged, TickChecks, CheckBackpressure, MaybeComplete, Each, DrainSince;
    var checked := TickChecks(r, boot, now);
    var judged := CheckBackpressure(cfg, checked, now);
    ChecksLog(r, boot, now);
    BackpressureLogs(cfg, checked, now);
    SameLog(judged, ReapDraining(judged, now));
    CompletionLogs(ReapDraining(judged, now), now);
  }

  lemma HeartbeatLogs(r: Run, slot: nat, id: Option<LeaseId>, beat: Beat, now: real)
    requires Logged(r)
    ensures Logged(Heartbeat(r, slot, id, beat, now).0)
  {
    hide Logged, CommandFor, HolderIndex, Reported;
    var i := HolderIndex(r.leases, slot, id);
    if i.Some? {
      var renewed := Renewed(r, i.value, beat, now);
      if beat.authFailed {
        NoteLogs(r, renewed, AuthFailed(now, r.leases[i.value].slot));
      } else {
        SameLog(r, renewed);
      }
      CommandLogs(renewed, i.value, beat.protocolOk, now);
    }
  }

  lemma CommandLogs(r: Run, i: nat, protocolOk: bool, now: real)
    requires Logged(r) && i < |r.leases|
    ensures Logged(CommandFor(r, i, protocolOk, now).0)
  {
    hide LeadsTo;
    LogAppend(r.events, StateChange(now, r.state, RunState.Running), Pending);
  }

  lemma FinalLogs(r: Run, slot: nat, id: Option<LeaseId>, summary: Counters, now: real)
    requires Logged(r)
    ensures Logged(Final(r, slot, id, summary, now))
  {
    hide Logged, SlotIndex, MaybeComplete, Fold;
    CompletionLogs(r, now);
    var i := SlotIndex(r.leases, slot);
    if i.Some? {
      var folded := WithState(r, i.value, Done).(totals := Fold(r.totals, summary));
      SameLog(r, folded);
      CompletionLogs(folded, now);
    }
  }

  lemma StopLogs(r: Run, force: bool, now: real)
    requires Logged(r)
    ensures Logged(Stop(r, force, now))
  {
    hide Logged, Transition, MaybeComplete, LiveTotals, Each, PausedSeconds;
    var ended := EndPause(r, now);
    SameLog(r, ended);
    TransitionLogs(ended, Draining, Some(OperatorStop), now);
    var draining := Transition(ended, Draining, Some(OperatorStop), now);
    var folded := HeartbeatsFolded(draining);
    var last := folded.(leases := Each(folded.leases, Finalise));
    SameLog(draining, last);
    CompletionLogs(last, now);
  }

  lemma OthersLog(r: Run, probe: Probe, now: real)
    requires Logged(r)
    ensures Logged(Pause(r, now)) && Logged(Resume(r, now)) && Logged(Reconcile(r, probe, now))
  {
    hide Logged, Transition, Each, PausedSeconds;
    var paused, ended := r.(pausedAt := Some(now)), EndPause(r, now);
    SameLog(r, paused);
    SameLog(r, ended);
    TransitionLogs(paused, Paused, None, now);
    TransitionLogs(ended, RunState.Running, None, now);
    TransitionLogs(r, RunState.Failed, Some(Orphaned), now);
    var failed := Transition(r, RunState.Failed, Some(Orphaned), now);
    SameLog(failed, failed.(leases := Each(r.leases, GiveUp)));
  }

  lemma StepLogs(cfg: Settings, r: Run, a: Action, now: real)
    requires Logged(r)
    ensures Logged(Step(cfg, r, a, now))
  {
    hide Logged, Claim, MarkReady, EvaluateRelease, Heartbeat, Final, Stop, Pause, Resume, Scale, Rescale, Tick,
         Reconcile;
    if a.DoClaim? || a.DoReady? || a.DoScale? || a.DoRescale? {
      QuietStep(cfg, r, a, now);
      SameLog(r, Step(cfg, r, a, now));
      return;
    }
    match a
    case DoEvaluate => ReleaseLogs(r, false, now);
    case DoHeartbeat(slot, id, beat) => HeartbeatLogs(r, slot, id, beat, now);
    case DoFinal(slot, id, summary) => FinalLogs(r, slot, id, summary, now);
    case DoStop(force) => StopLogs(r, force, now);
    case DoTick(boot) => TickLogs(cfg, r, boot, now);
    case DoReconcile(probe) => OthersLog(r, probe, now);
    case _ => OthersLog(r, NoRef, now);
  }

  /** After every history the log's state changes follow on from one another, from pending to
      the state the run is in. */
  lemma {:induction false} LogTellsTheState(cfg: Settings, start: Run, trace: seq<Timed>)
    requires Launched(start)
    ensures LeadsTo(Exec(cfg, start, trace).events, Pending) == Some(Exec(cfg, start, trace).state)
  {
    hide Launched, Step, LeadsTo;
    if trace == [] {
      LaunchLogged(start);
    } else {
      var n := |trace| - 1;
      LogTellsTheState(cfg, start, trace[..n]);
      StepLogs(cfg, Exec(cfg, start, trace[..n]), trace[n].action, trace[n].at);
    }
  }

  lemma LaunchLogged(r: Run)
    requires Launched(r)
    ensures Logged(r)
  {
    hide EqualShares, LeadsTo;
    var spec: Snapshot, ok: bool :| Provision(spec, ok, r.createdAt) == Success(r);
    var first := StateChange(r.createdAt, Pending, Preparing);
    assert r.events == [] + [first] + [r.events[1]];
    LogAppend([], first, Pending);
    assert [] + [first] == [first];
    LogAppend([first], r.events[1], Pending);
    NoLog();
  }

  lemma NoLog()
    ensures LeadsTo([], Pending) == Some(Pending)
  {
  }
}
