/** The run's state machine: what holds of a run after every history of steps. */
module RunMachine {
  import opened Basics
  import opened Apportion
  import opened RunModel
  import opened Lifecycle
  import opened Frames

  /** No worker is generating. */
  predicate NoneRunning(leases: seq<Lease>) {
    forall i :: 0 <= i < |leases| ==> !leases[i].state.Running?
  }

  /** The invariant of the machine. */
  predicate Sound(r: Run) {
    // a run has ended exactly when its end is stamped
    && (r.state.Terminal() <==> r.endedAt.Some?)
    // T0 is set from release on, and not before it
    && (r.state.Releasing? || r.state.Running? || r.state.Paused? ==> r.t0.Some?)
    && (r.state.Pending? || r.state.Preparing? || r.state.Provisioning? ==> r.t0.None?)
    // nobody generates before T0
    && (r.t0.None? ==> NoneRunning(r.leases))
    // an end reason is recorded only once the run is winding down
    && (r.endReason.Some? ==> r.state.Draining? || r.state.Terminal())
    && (r.state.Draining? ==> r.endReason.Some? && !r.endReason.value.Failing())
    // stopped is what an operator's stop ends in, and nothing else
    && (r.state.Stopped? ==> r.endReason == Some(OperatorStop))
    && (r.endReason == Some(OperatorStop) ==> r.state.Draining? || r.state.Stopped?)
    // a completed run has a worker that finished and data that was delivered
    && (r.state.Completed? ==> Any(r.leases, Finished) && Delivered(r) > 0)
    // and neither it nor a stopped one has anybody left at work
    && (r.state.Completed? || r.state.Stopped? ==> !Any(r.leases, Pick.Live))
  }

  lemma LaunchIsSound(r: Run)
    requires Launched(r)
    ensures Sound(r)
  {
    hide EqualShares;
    var spec: Snapshot, ok: bool :| Provision(spec, ok, r.createdAt) == Success(r);
  }

  // ----- shared steps ------------------------------------------------------------------

  lemma CompletionIsSound(r: Run, now: real)
    requires Sound(r)
    ensures Sound(MaybeComplete(r, now))
  {
    hide NoneRunning, Any;
  }

  lemma EachIsSound(r: Run, c: Change)
    requires Sound(r) && !r.state.Terminal()
    ensures Sound(r.(leases := Each(r.leases, c)))
  {
    hide Any, Delivered;
    var s := Each(r.leases, c);
    hide Each;
    forall i | 0 <= i < |s| && s[i].state.Running? ensures r.leases[i].state.Running? {
      assert s[i] == Changed(r.leases[i], c);
    }
  }

  /** The invariant reads nothing but the control fields, the leases and the totals. */
  lemma SameControl(r: Run, s: Run)
    requires Sound(r)
    requires s == r.(snap := s.snap, minted := s.minted, events := s.events, degraded := s.degraded)
    ensures Sound(s)
  {
    hide Any, NoneRunning;
  }

  lemma AbortIsSound(r: Run, reason: EndReason, now: real)
    requires Sound(r) && !r.state.Terminal() && reason != OperatorStop
    ensures Sound(Transition(r, RunState.Failed, Some(reason), now))
  {
    hide NoneRunning, Any, Delivered;
  }

  lemma AnyUnderShares(a: seq<Lease>, b: seq<Lease>, p: Pick)
    requires SameButShares(a, b)
    ensures Any(a, p) <==> Any(b, p)
    ensures NoneRunning(a) ==> NoneRunning(b)
  {
    assert forall i :: 0 <= i < |a| ==> (Is(a[i], p) <==> Is(b[i], p));
  }

  lemma SharesDoNotMatter(r: Run, leases: seq<Lease>)
    requires Sound(r) && SameButShares(r.leases, leases)
    ensures Sound(r.(leases := leases))
  {
    hide Any, NoneRunning, SameButShares;
    AnyUnderShares(r.leases, leases, Pick.Live);
    AnyUnderShares(r.leases, leases, Finished);
  }

  /** One lease changes while the run goes on. */
  lemma LeaseChangeIsSound(r: Run, i: nat, l: Lease)
    requires Sound(r) && !r.state.Terminal() && i < |r.leases|
    requires r.t0.None? ==> !l.state.Running?
    ensures Sound(r.(leases := r.leases[i := l]))
  {
    hide Any, Delivered;
  }

  // ----- agent calls ----------------------------------------------------------------------

  lemma ClaimIsSound(r: Run, holder: string, hint: Option<nat>, now: real)
    requires Sound(r)
    ensures Sound(Claim(r, holder, hint, now))
  {
    hide HeldBy, NextClaimable, Sound, TakeoverSplit, SameButShares;
    var g := GrantFor(r, holder, hint);
    match g
    case Refused =>
    case Held(i) =>
      HeldLeaseNotNew(r, i);
      LeaseChangeIsSound(r, i, r.leases[i].(lastHb := Some(now)));
    case Issue(i) =>
      var lease := Issued(r.leases[i], holder, r.minted, r.t0, now);
      LeaseChangeIsSound(r, i, lease);
      var claimed := r.(leases := r.leases[i := lease], minted := r.minted + 1);
      SameControl(r.(leases := claimed.leases), claimed);
      SplitsKeepGrants(claimed, lease.id);
      SharesDoNotMatter(claimed, TakeoverSplit(claimed, lease.id));
  }

  lemma HeldLeaseNotNew(r: Run, i: nat)
    requires Sound(r) && i < |r.leases|
    ensures r.t0.None? ==> !r.leases[i].state.Running?
  {
  }

  lemma ReadyIsSound(r: Run, slot: nat, id: Option<LeaseId>, now: real)
    requires Sound(r)
    ensures Sound(MarkReady(r, slot, id, now))
  {
    hide HolderIndex;
    var i := HolderIndex(r.leases, slot, id);
    if i.Some? {
      var s := MarkReady(r, slot, id, now).leases;
      assert forall p: Pick :: p.Live? || p.Finished? ==> Is(s[i.value], p) == Is(r.leases[i.value], p);
      SameOutcomes(r.leases, s);
    }
  }

  /** Whether a lease is live, finished or generating: all that the invariant reads. */
  predicate SameOutcome(a: Lease, b: Lease) {
    && a.state.Live() == b.state.Live()
    && a.state.Done? == b.state.Done?
    && (b.state.Running? ==> a.state.Running?)
  }

  lemma SameOutcomes(a: seq<Lease>, b: seq<Lease>)
    requires |a| == |b| && forall i :: 0 <= i < |a| ==> SameOutcome(a[i], b[i])
    ensures Any(a, Pick.Live) <==> Any(b, Pick.Live)
    ensures Any(a, Finished) <==> Any(b, Finished)
    ensures NoneRunning(a) ==> NoneRunning(b)
  {
    assert forall i :: 0 <= i < |a| ==>
        SameOutcome(a[i], b[i])
        && Is(a[i], Pick.Live) == Is(b[i], Pick.Live) && Is(a[i], Finished) == Is(b[i], Finished);
  }

  lemma RenewalIsSound(r: Run, i: nat, beat: Beat, now: real)
    requires Sound(r) && i < |r.leases|
    ensures Sound(Renewed(r, i, beat, now))
  {
    hide Any, NoneRunning, Reported;
    SameOutcomes(r.leases, Renewed(r, i, beat, now).leases);
  }

  lemma CommandIsSound(r: Run, i: nat, protocolOk: bool, now: real)
    requires Sound(r) && i < |r.leases|
    ensures Sound(CommandFor(r, i, protocolOk, now).0)
  {
    hide Any, Delivered;
    var s := CommandFor(r, i, protocolOk, now).0;
    CommandLeases(r, i, protocolOk, now);
    CommandControl(r, i, protocolOk, now);
    hide CommandFor;
  }

  /** A heartbeat moves the run at most from releasing to running, and lets nobody
      generate before T0. */
  lemma CommandControl(r: Run, i: nat, protocolOk: bool, now: real)
    requires i < |r.leases|
    ensures var s := CommandFor(r, i, protocolOk, now).0;
            && s == r.(state := s.state, leases := s.leases, events := s.events)
            && (s.state == r.state || (r.state.Releasing? && s.state.Running?))
            && (r.t0.None? && !r.leases[i].state.Running? ==> !s.leases[i].state.Running?)
            && (r.state.Terminal() ==> s == r)
  {
  }

  lemma HeartbeatIsSound(r: Run, slot: nat, id: Option<LeaseId>, beat: Beat, now: real)
    requires Sound(r)
    ensures Sound(Heartbeat(r, slot, id, beat, now).0)
  {
    hide Sound, HolderIndex, Renewed, CommandFor;
    var i := HolderIndex(r.leases, slot, id);
    if i.Some? {
      RenewalIsSound(r, i.value, beat, now);
      CommandIsSound(Renewed(r, i.value, beat, now), i.value, beat.protocolOk, now);
    }
  }

  lemma FinalIsSound(r: Run, slot: nat, id: Option<LeaseId>, summary: Counters, now: real)
    requires Sound(r)
    ensures Sound(Final(r, slot, id, summary, now))
  {
    hide SlotIndex, MaybeComplete, Sound, WithState, Fold;
    var i := SlotIndex(r.leases, slot);
    CompletionIsSound(r, now);
    if i.Some? {
      var folded := WithState(r, i.value, Done).(totals := Fold(r.totals, summary));
      ReportIsSound(r, i.value, summary);
      CompletionIsSound(folded, now);
    }
  }

  lemma ReportIsSound(r: Run, i: nat, summary: Counters)
    requires Sound(r) && i < |r.leases|
    ensures Sound(WithState(r, i, Done).(totals := Fold(r.totals, summary)))
  {
    hide Fold;
    var s := WithState(r, i, Done).leases;
    assert Is(s[i], Finished);
    assert forall j :: 0 <= j < |s| && Is(s[j], Pick.Live) ==> Is(r.leases[j], Pick.Live);
  }

  // ----- operator calls ----------------------------------------------------------------------

  lemma StopIsSound(r: Run, force: bool, now: real)
    requires Sound(r)
    ensures Sound(Stop(r, force, now))
  {
    hide Sound, MaybeComplete, Each, LiveTotals;
    if !r.state.Terminal() {
      DrainIsSound(r, now);
      var draining := Transition(EndPause(r, now), Draining, Some(OperatorStop), now);
      var folded := HeartbeatsFolded(draining);
      TotalsDoNotMatter(draining, folded.totals);
      EachIsSound(folded, Finalise);
      CompletionIsSound(folded.(leases := Each(folded.leases, Finalise)), now);
    }
  }

  lemma DrainIsSound(r: Run, now: real)
    requires Sound(r) && !r.state.Terminal()
    ensures Sound(Transition(EndPause(r, now), Draining, Some(OperatorStop), now))
  {
    hide Any, NoneRunning, Delivered;
  }

  lemma TotalsDoNotMatter(r: Run, totals: Counters)
    requires Sound(r) && !r.state.Terminal()
    ensures Sound(r.(totals := totals))
  {
    hide Any, NoneRunning;
  }

  lemma PauseAndResumeAreSound(r: Run, now: real)
    requires Sound(r)
    ensures Sound(Pause(r, now)) && Sound(Resume(r, now))
  {
    hide Any, NoneRunning, Delivered, PausedSeconds;
  }

  lemma ScaleIsSound(r: Run, workers: int, driverOk: bool)
    requires Sound(r)
    ensures Sound(Scale(r, workers, driverOk))
  {
    hide Any, EqualShares, Each, Delivered;
    var n := EffectiveWorkers(r.snap.replay, workers);
    var sized := Resized(r, n);
    var shares := ShareList(r, n);
    if shares.Success? && !r.state.Terminal() {
      ResizedRunning(r, n);
      hide Resized;
      EachIsSound(sized, Reassign(shares.value));
    }
  }

  lemma ResizedRunning(r: Run, n: nat)
    ensures var s := Resized(r, n);
            s == r.(leases := s.leases, minted := s.minted) && (NoneRunning(r.leases) ==> NoneRunning(s.leases))
  {
    hide NoneRunning;
    if NoneRunning(r.leases) {
      KeptRunning(r.leases, n);
      GrownRunning(r, n);
    }
  }

  lemma KeptRunning(leases: seq<Lease>, n: nat)
    requires NoneRunning(leases)
    ensures NoneRunning(Kept(leases, n))
  {
    var kept := Kept(leases, n);
    forall i | 0 <= i < |kept| ensures !kept[i].state.Running? {
      assert kept[i] in kept;
    }
  }

  lemma GrownRunning(r: Run, n: nat)
    requires NoneRunning(r.leases)
    ensures |r.leases| <= n ==> NoneRunning(Grown(r.leases, n, r.minted, Share(r.snap.mode, 0.0)))
  {
  }

  lemma RescaleIsSound(r: Run, rate: real)
    requires Sound(r)
    ensures Sound(Rescale(r, rate))
    ensures Rescale(r, rate) == r.(snap := Rescale(r, rate).snap, leases := Rescale(r, rate).leases)
  {
    hide Sound, EqualShares, Each;
    var retuned := r.(snap := r.snap.(rate := Some(rate)));
    SameControl(r, retuned);
    var shares := ShareList(retuned, |r.leases|);
    if shares.Success? && !r.state.Terminal() {
      EachIsSound(retuned, Reassign(shares.value));
    }
  }

  // ----- supervisor -----------------------------------------------------------------------------

  lemma ReleaseIsSound(r: Run, forcePartial: bool, now: real)
    requires Sound(r)
    ensures Sound(EvaluateRelease(r, forcePartial, now))
  {
    hide Sound, Any, Released, PartialRelease;
    if Releasable(r) {
      NotYetReleased(r);
      T0IsSound(r, now);
      PartialReleaseIsSound(r, now);
    }
  }

  lemma NotYetReleased(r: Run)
    requires Sound(r) && Releasable(r)
    ensures !r.state.Terminal() && !r.state.Releasing? && !r.state.Draining?
  {
    hide Any, NoneRunning;
  }

  lemma T0IsSound(r: Run, now: real)
    requires Sound(r) && !r.state.Terminal() && !r.state.Draining?
    ensures Sound(Released(r, now))
  {
    hide Any, NoneRunning, Delivered;
  }

  lemma PartialReleaseIsSound(r: Run, now: real)
    requires Sound(r) && Releasable(r)
    ensures Sound(PartialRelease(r, now))
  {
    hide Sound, Any, Each, ReadySplit, Released, SameButShares;
    NotYetReleased(r);
    var missed := r.(leases := Each(r.leases, MissRelease));
    EachIsSound(r, MissRelease);
    AbortIsSound(missed, StrictReleaseTimeout, now);
    var degraded := missed.(degraded := true);
    SameControl(missed, degraded);
    SplitsKeepGrants(missed, 0);
    SharesDoNotMatter(degraded, ReadySplit(missed));
    T0IsSound(degraded.(leases := ReadySplit(missed)), now);
  }

  lemma ChecksAreSound(r: Run, boot: real, now: real)
    requires Sound(r) && !r.state.Terminal()
    ensures Sound(TickChecks(r, boot, now))
  {
    hide Sound, Each, EvaluateRelease, Any, DurationOver, TooManyLost, TooManyAuthFailures;
    var lapsed := LapseLeases(r, boot, now);
    EachIsSound(r, Lapse(r.createdAt, boot, now));
    ReleaseIsSound(lapsed, true, now);
    AbortIsSound(lapsed, ProvisionTimeout, now);
    var released := ReleaseTimeout(lapsed, now);
    DurationIsSound(released, now);
    var timed := CheckDuration(released, now);
    if !timed.state.Terminal() {
      AbortIsSound(timed, AutoAbortLost, now);
      AbortIsSound(timed, AutoAbortAuth, now);
    }
  }

  lemma DurationIsSound(r: Run, now: real)
    requires Sound(r)
    ensures Sound(CheckDuration(r, now))
  {
    hide Any, NoneRunning, Delivered, PausedSeconds;
  }

  lemma BackpressureIsSound(cfg: Settings, r: Run, now: real)
    requires Sound(r)
    ensures Sound(CheckBackpressure(cfg, r, now))
  {
    hide Sound, Any, Rescale, SteppedRate, FloorRate, OpenSince, FailingNow;
    if Judged(cfg, r) {
      BackpressureDrainIsSound(r, now);
      SameControl(r, r.(events := r.events + [Cleared(now)]));
      SameControl(r, r.(events := r.events + [Detected(now)]));
      if HasRate(r) {
        SameControl(r, Noted(r));
        var stepped := Rescale(Noted(r), SteppedRate(cfg, r));
        RescaleIsSound(Noted(r), SteppedRate(cfg, r));
        SameControl(stepped, stepped.(degraded := true, events := r.events + [SteppedDown(now)]));
      }
    }
  }

  lemma BackpressureDrainIsSound(r: Run, now: real)
    requires Sound(r) && Delivering(r)
    ensures Sound(Transition(r, Draining, Some(BackpressureDrain), now))
  {
    hide Any, NoneRunning, Delivered;
  }

  lemma TickIsSound(cfg: Settings, r: Run, boot: real, now: real)
    requires Sound(r)
    ensures Sound(Tick(cfg, r, boot, now))
  {
    hide Sound, TickChecks, CheckBackpressure, Each, DrainSince, MaybeComplete;
    if !r.state.Terminal() {
      ChecksAreSound(r, boot, now);
      var judged := CheckBackpressure(cfg, TickChecks(r, boot, now), now);
      BackpressureIsSound(cfg, TickChecks(r, boot, now), now);
      if judged.state.Draining? {
        EachIsSound(judged, GiveUp);
      }
      CompletionIsSound(ReapDraining(judged, now), now);
    }
  }

  lemma ReconcileIsSound(r: Run, probe: Probe, now: real)
    requires Sound(r)
    ensures Sound(Reconcile(r, probe, now))
  {
    hide Sound, Each;
    if !r.state.Terminal() {
      AbortIsSound(r, Orphaned, now);
      var gone := r.(leases := Each(r.leases, GiveUp));
      EachIsSound(r, GiveUp);
      AbortIsSound(gone, Orphaned, now);
    }
  }

  lemma StepIsSound(cfg: Settings, r: Run, a: Action, now: real)
    requires Sound(r)
    ensures Sound(Step(cfg, r, a, now))
  {
    hide Sound, Claim, MarkReady, EvaluateRelease, Heartbeat, Final, Stop, Pause, Resume, Scale,
         Rescale, Tick, Reconcile;
    match a
    case DoClaim(holder, hint) => ClaimIsSound(r, holder, hint, now);
    case DoReady(slot, id) => ReadyIsSound(r, slot, id, now);
    case DoEvaluate => ReleaseIsSound(r, false, now);
    case DoHeartbeat(slot, id, beat) => HeartbeatIsSound(r, slot, id, beat, now);
    case DoFinal(slot, id, summary) => FinalIsSound(r, slot, id, summary, now);
    case DoStop(force) => StopIsSound(r, force, now);
    case DoPause => PauseAndResumeAreSound(r, now);
    case DoResume => PauseAndResumeAreSound(r, now);
    case DoScale(workers, driverOk) => ScaleIsSound(r, workers, driverOk);
    case DoRescale(rate) => RescaleIsSound(r, rate);
    case DoTick(boot) => TickIsSound(cfg, r, boot, now);
    case DoReconcile(probe) => ReconcileIsSound(r, probe, now);
  }

  /** The invariant holds after every history. */
  lemma {:induction false} AlwaysSound(cfg: Settings, start: Run, trace: seq<Timed>)
    requires Launched(start)
    ensures Sound(Exec(cfg, start, trace))
  {
    hide Sound, Launched, Step;
    if trace == [] {
      LaunchIsSound(start);
    } else {
      var n := |trace| - 1;
      AlwaysSound(cfg, start, trace[..n]);
      StepIsSound(cfg, Exec(cfg, start, trace[..n]), trace[n].action, trace[n].at);
    }
  }

  // ----- what never changes again ------------------------------------------------------------

  /** A step of a run that has ended: its end stays as it was. */
  predicate EndKept(r: Run, s: Run) {
    r.state.Terminal() ==> s.state == r.state && s.endedAt == r.endedAt && s.endReason == r.endReason
  }

  predicate T0Kept(r: Run, s: Run) { r.t0.Some? ==> s.t0 == r.t0 }

  lemma StepKeepsEndAndT0(cfg: Settings, r: Run, a: Action, now: real)
    requires Sound(r)
    ensures EndKept(r, Step(cfg, r, a, now)) && T0Kept(r, Step(cfg, r, a, now))
  {
    hide Any, NoneRunning, HolderIndex, CommandFor, Fold, LiveTotals, Each, SlotIndex, Tick,
         Claim, MarkReady, Scale, Rescale;
    if a.DoClaim? || a.DoReady? || a.DoScale? || a.DoRescale? {
      QuietStep(cfg, r, a, now);
      return;
    }
    match a
    case DoHeartbeat(slot, id, beat) =>
      var i := HolderIndex(r.leases, slot, id);
      if i.Some? {
        CommandControl(Renewed(r, i.value, beat, now), i.value, beat.protocolOk, now);
      }
    case DoTick(boot) => TickKeepsEndAndT0(cfg, r, boot, now);
    case _ =>
  }

  lemma TickKeepsEndAndT0(cfg: Settings, r: Run, boot: real, now: real)
    ensures EndKept(r, Tick(cfg, r, boot, now)) && T0Kept(r, Tick(cfg, r, boot, now))
  {
    hide Any, Each, ReadySplit, DurationOver, TooManyLost, TooManyAuthFailures, OpenSince, FailingNow,
         Rescale, SteppedRate, FloorRate, DrainSince, MayComplete, TerminalStateFor, DefaultEndReason;
    if HasRate(TickChecks(r, boot, now)) {
      var checked := TickChecks(r, boot, now);
      RescaleKeepsControl(Noted(checked), SteppedRate(cfg, checked));
    }
  }

  lemma RescaleKeepsControl(r: Run, rate: real)
    ensures Rescale(r, rate) == r.(snap := Rescale(r, rate).snap, leases := Rescale(r, rate).leases)
  {
    hide EqualShares, Each;
  }

  /** Terminal states are absorbing and T0 is written once, across any further history. */
  lemma {:induction false} EndAndT0AreFinal(cfg: Settings, start: Run, trace: seq<Timed>, k: nat)
    requires Launched(start) && k <= |trace|
    ensures EndKept(Exec(cfg, start, trace[..k]), Exec(cfg, start, trace))
    ensures T0Kept(Exec(cfg, start, trace[..k]), Exec(cfg, start, trace))
  {
    hide Sound, Launched, Step;
    var n := |trace| - 1;
    if k <= n {
      EndAndT0AreFinal(cfg, start, trace[..n], k);
      assert trace[..n][..k] == trace[..k];
      AlwaysSound(cfg, start, trace[..n]);
      StepKeepsEndAndT0(cfg, Exec(cfg, start, trace[..n]), trace[n].action, trace[n].at);
    } else {
      assert trace[..k] == trace;
    }
  }

  // ----- stopped means stopped by an operator ----------------------------------------------------

  predicate NoReconcile(trace: seq<Timed>) {
    forall i :: 0 <= i < |trace| ==> !trace[i].action.DoReconcile?
  }

  /** Some stop in the history reached the run before it had ended. */
  ghost predicate StopAccepted(cfg: Settings, start: Run, trace: seq<Timed>) {
    exists i :: 0 <= i < |trace| && trace[i].action.DoStop? && !Exec(cfg, start, trace[..i]).state.Terminal()
  }

  lemma StepReason(cfg: Settings, r: Run, a: Action, now: real)
    requires Sound(r) && !a.DoReconcile?
    ensures Step(cfg, r, a, now).endReason == Some(OperatorStop) <==>
              r.endReason == Some(OperatorStop) || (a.DoStop? && !r.state.Terminal())
  {
    hide Any, NoneRunning, HolderIndex, CommandFor, Fold, LiveTotals, Each, SlotIndex, Tick,
         Claim, MarkReady, Scale, Rescale;
    if a.DoClaim? || a.DoReady? || a.DoScale? || a.DoRescale? {
      QuietStep(cfg, r, a, now);
      return;
    }
    match a
    case DoHeartbeat(slot, id, beat) =>
      var i := HolderIndex(r.leases, slot, id);
      if i.Some? {
        CommandControl(Renewed(r, i.value, beat, now), i.value, beat.protocolOk, now);
      }
    case DoTick(boot) => TickReason(cfg, r, boot, now);
    case _ =>
  }

  predicate SameStop(r: Run, s: Run) {
    s.endReason == Some(OperatorStop) <==> r.endReason == Some(OperatorStop)
  }

  lemma ChecksReason(r: Run, boot: real, now: real)
    requires Sound(r) && !r.state.Terminal()
    ensures SameStop(r, TickChecks(r, boot, now))
  {
    hide Any, Each, ReadySplit, NoneRunning, PausedSeconds, TooManyLost, TooManyAuthFailures, Delivered;
  }

  lemma BackpressureReason(cfg: Settings, r: Run, now: real)
    requires Sound(r)
    ensures SameStop(r, CheckBackpressure(cfg, r, now))
  {
    hide Any, NoneRunning, OpenSince, FailingNow, Rescale, SteppedRate, FloorRate, Delivered;
    if HasRate(r) {
      RescaleKeepsControl(Noted(r), SteppedRate(cfg, r));
    }
  }

  lemma CompletionReason(r: Run, now: real)
    ensures SameStop(r, MaybeComplete(r, now))
  {
    hide Any, Delivered;
  }

  lemma TickReason(cfg: Settings, r: Run, boot: real, now: real)
    requires Sound(r)
    ensures SameStop(r, Tick(cfg, r, boot, now))
  {
    hide Sound, TickChecks, CheckBackpressure, Each, DrainSince, MaybeComplete;
    if !r.state.Terminal() {
      ChecksReason(r, boot, now);
      ChecksAreSound(r, boot, now);
      BackpressureReason(cfg, TickChecks(r, boot, now), now);
      CompletionReason(ReapDraining(CheckBackpressure(cfg, TickChecks(r, boot, now), now), now), now);
    }
  }

  lemma {:induction false} ReasonTracksStop(cfg: Settings, start: Run, trace: seq<Timed>)
    requires Launched(start) && NoReconcile(trace)
    ensures Exec(cfg, start, trace).endReason == Some(OperatorStop) <==> StopAccepted(cfg, start, trace)
  {
    hide Sound, Step, Launched;
    if trace == [] {
      LaunchReason(start);
    } else {
      var n := |trace| - 1;
      var before := trace[..n];
      ReasonTracksStop(cfg, start, before);
      AlwaysSound(cfg, start, before);
      StepReason(cfg, Exec(cfg, start, before), trace[n].action, trace[n].at);
      assert forall i :: 0 <= i < n ==> before[..i] == trace[..i] && before[i] == trace[i];
      assert StopAccepted(cfg, start, trace) <==>
        StopAccepted(cfg, start, before) || (trace[n].action.DoStop? && !Exec(cfg, start, before).state.Terminal());
    }
  }

  lemma LaunchReason(r: Run)
    requires Launched(r)
    ensures r.endReason != Some(OperatorStop)
  {
    hide EqualShares;
  }

  /** Unless a restart orphaned it, a run that has ended is stopped exactly when an
      operator's stop was accepted. */
  lemma StoppedIffAsked(cfg: Settings, start: Run, trace: seq<Timed>)
    requires Launched(start) && NoReconcile(trace)
    requires Exec(cfg, start, trace).state.Terminal()
    ensures Exec(cfg, start, trace).state.Stopped? <==> StopAccepted(cfg, start, trace)
  {
    hide Launched, Step, Any, NoneRunning, StopAccepted;
    ReasonTracksStop(cfg, start, trace);
    AlwaysSound(cfg, start, trace);
  }
}
