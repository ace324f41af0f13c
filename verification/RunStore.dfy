/** The lifecycle as the control plane runs it: a stored run and its leases, updated in
    place and in loops. Every method leaves the store holding what the corresponding step
    function makes of what it held. */
module RunStore {
  import opened Basics
  import opened Apportion
  import opened RunModel
  import opened Lifecycle
  import LiveView

  class Store {
    var state: RunState
    var createdAt: real
    var t0: Option<real>
    var endedAt: Option<real>
    var endReason: Option<EndReason>
    var degraded: bool
    var pausedAt: Option<real>
    var pausedS: real
    var snap: Snapshot
    var leases: seq<Lease>
    var samples: seq<Sample>
    var totals: Counters
    var events: seq<Event>
    var minted: nat

    function View(): Run
      reads this
    {
      Run(state, createdAt, t0, endedAt, endReason, degraded, pausedAt, pausedS, snap, leases, samples,
          totals, events, minted)
    }

    constructor (r: Run)
      ensures View() == r
    {
      state, createdAt, t0, endedAt, endReason := r.state, r.createdAt, r.t0, r.endedAt, r.endReason;
      degraded, pausedAt, pausedS, snap := r.degraded, r.pausedAt, r.pausedS, r.snap;
      leases, samples, totals, events, minted := r.leases, r.samples, r.totals, r.events, r.minted;
    }

    // ----- looking through the leases -------------------------------------------------------

    method Find(p: Pick) returns (r: Option<nat>)
      ensures r == First(leases, p)
    {
      var i := 0;
      while i < |leases|
        invariant 0 <= i <= |leases|
        invariant var rest := First(leases[i..], p);
                  First(leases, p) == if rest.None? then None else Some(rest.value + i)
      {
        assert leases[i..][0] == leases[i] && leases[i..][1..] == leases[i + 1..];
        if Is(leases[i], p) {
          return Some(i);
        }
        i := i + 1;
      }
      r := None;
    }

    method Has(p: Pick) returns (found: bool)
      ensures found == Any(leases, p)
    {
      var i := Find(p);
      found := i.Some?;
    }

    method HowMany(p: Pick) returns (n: nat)
      ensures n == Count(leases, p)
    {
      n := 0;
      var i := 0;
      while i < |leases|
        invariant 0 <= i <= |leases|
        invariant n + Count(leases[i..], p) == Count(leases, p)
      {
        assert leases[i..][0] == leases[i] && leases[i..][1..] == leases[i + 1..];
        if Is(leases[i], p) {
          n := n + 1;
        }
        i := i + 1;
      }
    }

    /** _next_claimable: the hinted slot if it can be had, else the lowest that can. */
    method NextClaim(hint: Option<nat>) returns (r: Option<nat>)
      ensures r == NextClaimable(leases, hint)
    {
      if hint.Some? {
        r := Find(ClaimableAt(hint.value));
        if r.Some? {
          return;
        }
      }
      r := None;
      var i := |leases|;
      while i > 0
        invariant 0 <= i <= |leases|
        invariant var rest := LowestClaimable(leases[i..]);
                  r == if rest.None? then None else Some(rest.value + i)
      {
        i := i - 1;
        assert leases[i..][0] == leases[i] && leases[i..][1..] == leases[i + 1..];
        if leases[i].state.Claimable() && (r.None? || leases[i].slot <= leases[r.value].slot) {
          r := Some(i);
        }
      }
    }

    // ----- rewriting the leases ---------------------------------------------------------------

    method ForEach(c: Change)
      modifies `leases
      ensures leases == Each(old(leases), c)
    {
      var i := 0;
      while i < |leases|
        invariant 0 <= i <= |leases| == |old(leases)|
        invariant forall j :: 0 <= j < i ==> leases[j] == Changed(old(leases)[j], c)
        invariant forall j :: i <= j < |leases| ==> leases[j] == old(leases)[j]
      {
        leases := leases[i := Changed(leases[i], c)];
        i := i + 1;
      }
    }

    /** The k-th of the leases picked takes the k-th share. */
    method Deal(p: Pick, claimer: Option<LeaseId>, shares: seq<Share>)
      requires |shares| == Count(leases, p)
      modifies `leases
      ensures leases == Spread(old(leases), p, claimer, shares)
    {
      var dealt := Dealt(leases, p, claimer, shares);
      leases := dealt;
    }

    // ----- transitions and completion --------------------------------------------------------------

    /** transition_run. */
    method MoveTo(to: RunState, reason: Option<EndReason>, now: real)
      modifies this
      ensures View() == Transition(old(View()), to, reason, now)
    {
      var newReason := reason.Some? && endReason != reason;
      var ends := to.Terminal() && endedAt.None?;
      if state == to && !newReason && !ends {
        return;
      }
      events := events + [StateChange(now, state, to)];
      state := to;
      if reason.Some? {
        endReason := reason;
      }
      if ends {
        endedAt := Some(now);
      }
    }

    /** maybe_complete_run. */
    method CompleteIfResolved(now: real)
      modifies this
      ensures View() == MaybeComplete(old(View()), now)
    {
      if !(state.Running? || state.Releasing? || state.Paused? || state.Draining?) {
        return;
      }
      var live := Has(Pick.Live);
      if live {
        return;
      }
      var done := Has(Finished);
      var lost := Has(Missing);
      if !done && !(state.Draining? && lost) {
        return;
      }
      var delivered := At(totals, "events_total") > 0;
      var terminal := Completed;
      if endReason.Some? && endReason.value.Failing() {
        terminal := RunState.Failed;
      } else if endReason == Some(OperatorStop) {
        terminal := Stopped;
      } else if (lost && !done) || !delivered {
        terminal := RunState.Failed;
      }
      var reason := OtherFailure;
      if endReason.Some? {
        reason := endReason.value;
      } else if terminal.Completed? {
        reason := NaturalEnd;
      } else if terminal.Stopped? {
        reason := OperatorStop;
      } else if lost && !done {
        reason := AllWorkersLost;
      } else if done && !delivered {
        reason := NoEvents;
      }
      MoveTo(terminal, Some(reason), now);
    }

    // ----- operator calls ------------------------------------------------------------------------------

    /** _end_pause. */
    method BankPause(now: real)
      modifies `pausedS, `pausedAt
      ensures View() == EndPause(old(View()), now)
    {
      if pausedAt.Some? {
        pausedS := pausedS + Max(0.0, now - pausedAt.value);
        pausedAt := None;
      }
    }

    /** _fold_heartbeat_totals. */
    method FoldHeartbeats()
      requires LiveView.DistinctSlots(leases)
      modifies `totals
      ensures View() == HeartbeatsFolded(old(View()))
    {
      hide LiveTotals, LiveView.DistinctSlots;
      ghost var r := View();
      var live := LiveView.ShownTotals(View());
      var done, left := {}, LIVE_KEYS;
      NothingTaken(totals, live);
      while left != {}
        invariant done + left == LIVE_KEYS && done !! left && View() == r.(totals := Taken(r.totals, live, done))
        decreases left
      {
        var key :| key in left;
        OneTaken(r.totals, live, done, key);
        if key in live {
          totals := totals[key := live[key]];
        }
        done, left := done + {key}, left - {key};
      }
      assert done == LIVE_KEYS;
    }

    /** stop_run; a run's slots are distinct by the table's own constraint. */
    method StopRun(force: bool, now: real)
      requires LiveView.DistinctSlots(leases)
      modifies this
      ensures View() == Stop(old(View()), force, now)
    {
      hide LiveTotals, MaybeComplete, Each, HeartbeatsFolded, LiveView.DistinctSlots;
      if state.Terminal() {
        return;
      }
      BankPause(now);
      MoveTo(Draining, Some(OperatorStop), now);
      if force {
        FoldHeartbeats();
        ForEach(Finalise);
        CompleteIfResolved(now);
      }
    }

    /** pause_run. */
    method PauseRun(now: real) returns (ok: bool)
      modifies this
      ensures View() == Pause(old(View()), now) && ok == old(state).Running?
    {
      hide Transition;
      ok := state.Running?;
      if ok {
        pausedAt := Some(now);
        MoveTo(Paused, None, now);
      }
    }

    /** resume_run. */
    method ResumeRun(now: real) returns (ok: bool)
      modifies this
      ensures View() == Resume(old(View()), now) && ok == old(state).Paused?
    {
      hide Transition, EndPause;
      ok := state.Paused?;
      if ok {
        BankPause(now);
        MoveTo(RunState.Running, None, now);
      }
    }

    method AddSlots(workers: nat)
      requires workers > |leases|
      modifies `leases, `minted
      ensures View() == Resized(old(View()), workers)
    {
      ghost var r := View();
      ghost var n := |leases|;
      var slot := |leases|;
      while slot < workers
        invariant n <= slot <= workers && |leases| == slot && minted == r.minted + slot - n
        invariant forall j :: 0 <= j < n ==> leases[j] == r.leases[j]
        invariant forall j :: n <= j < slot ==>
                    leases[j] ==
                    Lease(j, r.minted + j - n, None, Free, None, None, 0, PlainShare(Share(snap.mode, 0.0)))
      {
        leases := leases + [Lease(slot, minted, None, Free, None, None, 0, PlainShare(Share(snap.mode, 0.0)))];
        minted := minted + 1;
        slot := slot + 1;
      }
      assert leases == Grown(r.leases, workers, r.minted, Share(r.snap.mode, 0.0));
    }

    method DropSlots(workers: nat)
      requires workers < |leases|
      modifies `leases
      ensures View() == Resized(old(View()), workers)
    {
      ghost var was := leases;
      var kept: seq<Lease> := [];
      var i := 0;
      while i < |leases|
        invariant 0 <= i <= |leases| && leases == was && kept == Kept(was[..i], workers)
      {
        assert was[..i + 1][..i] == was[..i] && was[..i + 1][i] == was[i];
        if leases[i].slot < workers {
          kept := kept + [leases[i]];
        }
        i := i + 1;
      }
      assert was[..i] == was;
      leases := kept;
    }

    /** scale_run; a driver that refuses leaves the run alone. */
    method ScaleRun(workers: int, driverOk: bool)
      modifies this
      ensures View() == Scale(old(View()), workers, driverOk)
    {
      hide EqualShares, Resized, Each;
      if workers < 1 || state.Terminal() {
        return;
      }
      var n := EffectiveWorkers(snap.replay, workers);
      if (snap.rotationPins && n != snap.workers) || !driverOk {
        return;
      }
      var shares := BuildShareList(snap.mode, snap.rate, n);
      if shares.Failure? {
        return;
      }
      ghost var r := View();
      if n > |leases| {
        AddSlots(n);
      } else if n < |leases| {
        DropSlots(n);
      } else {
        SameSize(r, n);
      }
      assert View() == Resized(r, n);
      ResizedOnlyRows(r, n);
      ForEach(Reassign(shares.value));
      snap := snap.(workers := n);
    }

    /** rescale_run. */
    method RescaleRun(rate: real)
      modifies this
      ensures View() == Rescale(old(View()), rate)
    {
      hide EqualShares, Each;
      if state.Terminal() || leases == [] {
        return;
      }
      var shares := BuildShareList(snap.mode, Some(rate), |leases|);
      if shares.Success? {
        ForEach(Reassign(shares.value));
        snap := snap.(rate := Some(rate));
      }
    }

    // ----- agent calls ----------------------------------------------------------------------------------

    /** claim_lease: the lease granted, if any. */
    method ClaimLease(holder: string, hint: Option<nat>, now: real) returns (granted: Option<nat>)
      modifies this
      ensures View() == Claim(old(View()), holder, hint, now)
      ensures granted == match GrantFor(old(View()), holder, hint)
                         case Refused => None
                         case Held(i) => Some(i)
                         case Issue(i) => Some(i)
    {
      hide NextClaimable, TakeoverSplit;
      if state.Terminal() {
        return None;
      }
      var held := Find(HeldLive(holder));
      if held.Some? {
        leases := leases[held.value := leases[held.value].(lastHb := Some(now))];
        return held;
      }
      granted := NextClaim(hint);
      if granted.Some? {
        var i := granted.value;
        var takeover := leases[i].state.Lost?;
        leases := leases[i := Issued(leases[i], holder, minted, t0, now)];
        minted := minted + 1;
        if takeover && t0.Some? {
          JoinFleet(leases[i].id);
        }
      }
    }

    /** _reapportion_on_takeover. */
    method JoinFleet(claimer: LeaseId)
      modifies `leases
      ensures View() == old(View()).(leases := TakeoverSplit(old(View()), claimer))
    {
      hide EqualShares, Spread, Count;
      if state.Terminal() || state.Draining? || !degraded {
        return;
      }
      var n := HowMany(Pick.Live);
      var shares := BuildShareList(snap.mode, snap.rate, n);
      if shares.Success? {
        Deal(Pick.Live, Some(claimer), shares.value);
      }
    }

    /** find_lease and the fencing test. */
    method Holder(slot: nat, id: Option<LeaseId>) returns (r: Option<nat>)
      ensures r == HolderIndex(leases, slot, id)
    {
      r := Find(AtSlot(slot));
      if r.Some? && Some(leases[r.value].id) != id {
        r := None;
      }
    }

    /** mark_ready up to its commit; refused unless the caller holds the slot. */
    method CommitReady(slot: nat, id: Option<LeaseId>, now: real) returns (ok: bool)
      modifies `leases
      ensures View() == MarkReady(old(View()), slot, id, now)
      ensures ok == HolderIndex(old(leases), slot, id).Some?
    {
      var i := Holder(slot, id);
      ok := i.Some?;
      if ok {
        var l := leases[i.value];
        leases := leases[i.value := l.(lastHb := Some(now), state := if l.state.Claimed? then Ready else l.state)];
      }
    }

    /** evaluate_release. */
    method ReleaseFleet(forcePartial: bool, now: real)
      modifies this
      ensures View() == EvaluateRelease(old(View()), forcePartial, now)
    {
      hide Transition, Each, EqualShares, Spread, Count;
      if t0.Some? || !(state.Provisioning? || state.Preparing? || state.Releasing?) {
        return;
      }
      var ready := Has(Warmed);
      if !ready {
        return;
      }
      var pending := Has(Awaited);
      if pending {
        if !forcePartial {
          return;
        }
        ForEach(MissRelease);
        if snap.strictRelease {
          MoveTo(RunState.Failed, Some(StrictReleaseTimeout), now);
          return;
        }
        SplitOverReady();
        degraded := true;
      }
      t0 := Some(now + RELEASE_DELAY_S);
      MoveTo(Releasing, None, now);
    }

    /** _reapportion_ready. */
    method SplitOverReady()
      modifies `leases
      ensures leases == ReadySplit(old(View()))
    {
      hide EqualShares, Spread, Count;
      var n := HowMany(Warmed);
      var shares := BuildShareList(snap.mode, snap.rate, n);
      if shares.Success? {
        Deal(Warmed, None, shares.value);
      }
    }

    /** record_heartbeat: the lease renewed, the counters stored, the command to answer. */
    method RecordHeartbeat(slot: nat, id: Option<LeaseId>, beat: Beat, now: real) returns (command: Command)
      modifies this
      ensures (View(), command) == Heartbeat(old(View()), slot, id, beat, now)
    {
      hide CommandFor, Lifecycle.Reported;
      var i := Holder(slot, id);
      if i.None? {
        return Superseded;
      }
      var l := leases[i.value];
      leases := leases[i.value := l.(lastHb := Some(now), share := Lifecycle.Reported(l.share, beat))];
      samples := samples + [Sample(l.slot, now, beat.counters)];
      if beat.authFailed {
        events := events + [AuthFailed(now, l.slot)];
      }
      command := Answer(i.value, beat.protocolOk, now);
    }

    method SetState(i: nat, st: LeaseState)
      requires i < |leases|
      modifies `leases
      ensures View() == WithState(old(View()), i, st) && |leases| == old(|leases|)
    {
      leases := leases[i := leases[i].(state := st)];
    }

    /** _heartbeat_command. Past the release branch a lease is ready only before T0, so the
        later promotions to running have nothing to do and are not repeated here. */
    method Answer(i: nat, protocolOk: bool, now: real) returns (command: Command)
      requires i < |leases|
      modifies this
      ensures (View(), command) == CommandFor(old(View()), i, protocolOk, now)
    {
      hide Transition;
      if state.Draining? || state.Terminal() || !protocolOk {
        return Drain;
      }
      if leases[i].state.Lost? {
        SetState(i, if t0.Some? then LeaseState.Running else Ready);
      }
      var waiting := leases[i].state.Claimed? || leases[i].state.Ready?;
      if t0.Some? && waiting {
        command := Release(t0.value);
        if now >= t0.value {
          SetState(i, LeaseState.Running);
          if state.Releasing? {
            MoveTo(RunState.Running, None, now);
          }
        }
        return;
      }
      if state.Paused? {
        return Hold;
      }
      if leases[i].share.retarget {
        var share := leases[i].share;
        leases := leases[i := leases[i].(share := share.(retarget := false))];
        return Retarget(share.rate);
      }
      return Continue;
    }

    /** record_final. */
    method RecordFinal(slot: nat, id: Option<LeaseId>, summary: Counters, now: real)
      modifies this
      ensures View() == Final(old(View()), slot, id, summary, now)
    {
      hide MaybeComplete, Fold;
      var i := Find(AtSlot(slot));
      if i.None? || (id.Some? && Some(leases[i.value].id) != id) {
        return;
      }
      if !leases[i.value].state.Done? {
        totals := Fold(totals, summary);
        SetState(i.value, Done);
      }
      CompleteIfResolved(now);
    }

    // ----- the supervisor ------------------------------------------------------------------------------------

    /** Step 2 of _supervise_run. */
    method TimeOutRelease(now: real)
      modifies this
      ensures View() == ReleaseTimeout(old(View()), now)
    {
      hide EvaluateRelease, Transition;
      if state.Provisioning? && t0.None? && now - createdAt > PROVISION_TIMEOUT_S {
        var ready := Has(Warmed);
        if ready {
          ReleaseFleet(true, now);
          return;
        }
        var pending := Has(Awaited);
        if !pending {
          MoveTo(RunState.Failed, Some(ProvisionTimeout), now);
        }
      }
    }

    /** The newest last word among the leases lost after running. */
    method NewestLapse() returns (r: Option<real>)
      ensures r == LatestLapse(leases)
    {
      r := None;
      var i := |leases|;
      while i > 0
        invariant 0 <= i <= |leases| && r == LatestLapse(leases[i..])
      {
        i := i - 1;
        assert leases[i..][0] == leases[i] && leases[i..][1..] == leases[i + 1..];
        if Is(leases[i], LostAfterRunning) {
          var last := leases[i].lastHb.value;
          r := Some(if r.Some? then Max(last, r.value) else last);
        }
      }
    }

    /** _auth_failed_slots. */
    method SlotsRefused() returns (slots: set<nat>)
      ensures slots == AuthFailedSlots(events)
    {
      slots := {};
      var i := 0;
      while i < |events|
        invariant 0 <= i <= |events| && slots == AuthFailedSlots(events[..i])
      {
        assert events[..i + 1] == events[..i] + [events[i]];
        if events[i].AuthFailed? {
          slots := slots + {events[i].slot};
        }
        i := i + 1;
      }
      assert events[..i] == events;
    }

    /** _check_auto_abort. */
    method AbortIfCollapsed(now: real)
      modifies this
      ensures View() == CheckAutoAbort(old(View()), now)
    {
      hide Transition, AuthFailedSlots, LatestLapse, Count;
      if state.Terminal() || state.Draining? || leases == [] {
        return;
      }
      if t0.Some? {
        var lost := HowMany(LostAfterRunning);
        var latest := NewestLapse();
        if 2 * lost > |leases| && latest.Some? && now - latest.value >= AUTO_ABORT_LOST_S {
          MoveTo(RunState.Failed, Some(AutoAbortLost), now);
          return;
        }
      }
      var slots := SlotsRefused();
      if |slots| > 0 && |slots| >= |leases| / 2 {
        MoveTo(RunState.Failed, Some(AutoAbortAuth), now);
      }
    }

    /** _recent_delivery_deltas. */
    method Deltas() returns (ok: nat, fail: nat)
      ensures (ok, fail) == RecentDeltas(leases, samples)
    {
      ok, fail := 0, 0;
      var i := 0;
      while i < |leases|
        invariant 0 <= i <= |leases| && (ok, fail) == RecentDeltas(leases[..i], samples)
      {
        assert leases[..i + 1][..i] == leases[..i] && leases[..i + 1][i] == leases[i];
        if leases[i].state.Live() {
          ok := ok + OkDelta(samples, leases[i].slot);
          fail := fail + FailDelta(samples, leases[i].slot);
        }
        i := i + 1;
      }
      assert leases[..i] == leases;
    }

    /** _open_backpressure_since. */
    method StreakStart() returns (since: Option<real>)
      ensures since == OpenSince(events)
    {
      since := None;
      var i := 0;
      while i < |events|
        invariant 0 <= i <= |events| && since == OpenSince(events[..i])
      {
        assert events[..i + 1][..i] == events[..i] && events[..i + 1][i] == events[i];
        if events[i].Cleared? || events[i].SteppedDown? {
          since := None;
        } else if events[i].Detected? && since.None? {
          since := Some(events[i].ts);
        }
        i := i + 1;
      }
      assert events[..i] == events;
    }

    /** _step_down_for_backpressure: true when the rate was stepped. */
    method LowerRate(cfg: Settings, now: real) returns (stepped: bool)
      modifies this
      ensures stepped == CanStep(cfg, old(View()))
      ensures View() == if stepped then StepDown(cfg, old(View()), now) else old(View())
    {
      hide Rescale;
      if snap.mode == CountInterval || snap.rate.None? || snap.rate.value <= 0.0 {
        return false;
      }
      var original := if snap.bpOriginal.Some? then snap.bpOriginal.value else snap.rate.value;
      var rate := snap.rate.value * cfg.stepFactor;
      if rate < original * cfg.minRateFraction {
        return false;
      }
      ghost var r := View();
      assert rate == SteppedRate(cfg, r) && original * cfg.minRateFraction == FloorRate(cfg, r);
      snap := snap.(bpOriginal := Some(original));
      assert View() == Noted(r);
      RescaleRun(rate);
      degraded := true;
      RescaleKeepsLog(Noted(r), rate);
      events := events + [SteppedDown(now)];
      return true;
    }

    /** _check_backpressure. */
    method AnswerBackpressure(cfg: Settings, now: real)
      modifies this
      ensures View() == CheckBackpressure(cfg, old(View()), now)
    {
      hide StepDown, CanStep, Transition, OpenSince, RecentDeltas;
      if !cfg.enabled || !(state.Running? || state.Releasing?) || t0.None? {
        return;
      }
      var live := Has(Pick.Live);
      if !live {
        return;
      }
      var ok, fail := Deltas();
      var failing := ok + fail > 0 && fail as real / (ok + fail) as real >= cfg.minFailedFraction;
      var since := StreakStart();
      if !failing {
        if since.Some? {
          events := events + [Cleared(now)];
        }
        return;
      }
      if since.None? {
        events := events + [Detected(now)];
        return;
      }
      if now - since.value >= cfg.sustainedS {
        if cfg.stepDown {
          var stepped := LowerRate(cfg, now);
          if stepped {
            return;
          }
        }
        MoveTo(Draining, Some(BackpressureDrain), now);
      }
    }

    /** _last_state_ts for draining: the log read from its end. */
    method DrainStart() returns (since: Option<real>)
      ensures since == DrainSince(events)
    {
      var i := |events|;
      assert events[..i] == events;
      while i > 0
        invariant 0 <= i <= |events| && DrainSince(events) == DrainSince(events[..i])
      {
        assert events[..i][i - 1] == events[i - 1] && events[..i][..i - 1] == events[..i - 1];
        i := i - 1;
        if events[i].StateChange? && events[i].to.Draining? {
          return Some(events[i].ts);
        }
      }
      since := None;
    }

    /** _reap_draining. */
    method ReapIfOverdue(now: real)
      modifies `leases
      ensures View() == ReapDraining(old(View()), now)
    {
      hide Each, DrainSince;
      if state.Draining? {
        var since := DrainStart();
        if since.Some? && now - since.value >= STOP_GRACE_S {
          ForEach(GiveUp);
        }
      }
    }

    /** _check_duration. */
    method DrainWhenOver(now: real)
      modifies this
      ensures View() == CheckDuration(old(View()), now)
    {
      hide Transition;
      if !(state.Running? || state.Releasing?) || t0.None? || snap.duration.None? || snap.duration.value == 0.0 {
        return;
      }
      var paused := pausedS;
      if pausedAt.Some? {
        paused := paused + Max(0.0, now - pausedAt.value);
      }
      if now >= t0.value + (snap.duration.value + paused) {
        MoveTo(Draining, Some(DurationComplete), now);
      }
    }

    /** _supervise_run. */
    method Supervise(cfg: Settings, boot: real, now: real)
      modifies this
      ensures View() == Tick(cfg, old(View()), boot, now)
    {
      hide Each, ReleaseTimeout, CheckDuration, CheckAutoAbort, CheckBackpressure, ReapDraining, MaybeComplete;
      if state.Terminal() || state.Pending? {
        return;
      }
      ForEach(Lapse(createdAt, boot, now));
      TimeOutRelease(now);
      DrainWhenOver(now);
      AbortIfCollapsed(now);
      AnswerBackpressure(cfg, now);
      ReapIfOverdue(now);
      CompleteIfResolved(now);
    }
  }

  /** build_share_list, by the loops of apportion_shares. */
  method BuildShareList(mode: RateMode, rate: Option<real>, n: int) returns (r: Result<seq<Share>>)
    ensures r == EqualShares(mode, rate, n)
  {
    hide Parts, Quotas, Sum, EqualValue, Settled, Ones;
    if n < 1 {
      return Failure("workers must be >= 1");
    }
    if !Splittable(mode, rate) {
      return Failure("rate_value cannot be split in this mode");
    }
    EqualSharesAreApportioned(mode, rate, n);
    var weights := Ones(n);
    if mode == CountInterval {
      var parts := LargestRemainder(if rate.Some? && rate.value != 0.0 then RoundHalfEven(rate.value) else 0, weights);
      return Success(SharesOf(mode, Reals(parts.value)));
    }
    var quotas := Quotas(rate.value, weights);
    var xs := new real[n](i requires 0 <= i < |quotas| => quotas[i]);
    assert xs[..] == quotas;
    FixResidue(xs, rate.value);
    return Success(SharesOf(mode, xs[..]));
  }

  /** The totals with what is shown live taken over under those keys. */
  function Taken(totals: Counters, live: Counters, keys: set<string>): Counters {
    map k | k in totals.Keys + (live.Keys * keys) :: if k in live && k in keys then live[k] else At(totals, k)
  }

  lemma NothingTaken(totals: Counters, live: Counters)
    ensures Taken(totals, live, {}) == totals
  {
  }

  lemma OneTaken(totals: Counters, live: Counters, keys: set<string>, key: string)
    ensures Taken(totals, live, keys + {key}) ==
            if key in live then Taken(totals, live, keys)[key := live[key]] else Taken(totals, live, keys)
  {
  }

  method Dealt(leases: seq<Lease>, p: Pick, claimer: Option<LeaseId>, shares: seq<Share>)
    returns (out: seq<Lease>)
    requires |shares| == Count(leases, p)
    ensures out == Spread(leases, p, claimer, shares)
  {
    hide DealtUpTo, Spread, Count;
    out := [];
    var i, k := 0, 0;
    DealBegins(leases, p, claimer, shares);
    while i < |leases|
      invariant 0 <= i <= |leases| && DealtUpTo(leases, p, claimer, shares, out, i, k)
    {
      DealOne(leases, p, claimer, shares, out, i, k);
      if Is(leases[i], p) {
        out := out + [Respread(leases[i], shares[k], claimer)];
        k := k + 1;
      } else {
        out := out + [leases[i]];
      }
      i := i + 1;
    }
    DealEnds(leases, p, claimer, shares, out, k);
  }

  /** The first i leases have been dealt the first k shares. */
  predicate DealtUpTo(leases: seq<Lease>, p: Pick, claimer: Option<LeaseId>, shares: seq<Share>, out: seq<Lease>,
                      i: nat, k: nat)
    requires |shares| == Count(leases, p) && i <= |leases|
  {
    && k <= |shares| && |shares| - k == Count(leases[i..], p)
    && out == Spread(leases, p, claimer, shares)[..i]
    && Spread(leases, p, claimer, shares)[i..] == Spread(leases[i..], p, claimer, shares[k..])
  }

  /** Dealing begins with the first lease. */
  lemma SpreadHead(leases: seq<Lease>, p: Pick, claimer: Option<LeaseId>, shares: seq<Share>)
    requires leases != [] && |shares| == Count(leases, p)
    ensures var s := Spread(leases, p, claimer, shares);
            if Is(leases[0], p) then
              && |shares| > 0 && |shares| - 1 == Count(leases[1..], p)
              && s[0] == Respread(leases[0], shares[0], claimer)
              && s[1..] == Spread(leases[1..], p, claimer, shares[1..])
            else
              && |shares| == Count(leases[1..], p)
              && s[0] == leases[0] && s[1..] == Spread(leases[1..], p, claimer, shares)
  {
    hide Is, Respread;
  }

  lemma DealBegins(leases: seq<Lease>, p: Pick, claimer: Option<LeaseId>, shares: seq<Share>)
    requires |shares| == Count(leases, p)
    ensures DealtUpTo(leases, p, claimer, shares, [], 0, 0)
  {
    assert leases[0..] == leases && shares[0..] == shares;
  }

  lemma DealOne(leases: seq<Lease>, p: Pick, claimer: Option<LeaseId>, shares: seq<Share>, out: seq<Lease>,
                i: nat, k: nat)
    requires |shares| == Count(leases, p) && i < |leases| && DealtUpTo(leases, p, claimer, shares, out, i, k)
    ensures Is(leases[i], p) ==>
              && k < |shares|
              && DealtUpTo(leases, p, claimer, shares, out + [Respread(leases[i], shares[k], claimer)], i + 1, k + 1)
    ensures !Is(leases[i], p) ==> DealtUpTo(leases, p, claimer, shares, out + [leases[i]], i + 1, k)
  {
    hide Is, Respread, Spread, Count;
    var tail, rest := leases[i..], shares[k..];
    var whole := Spread(leases, p, claimer, shares);
    assert tail[0] == leases[i] && tail[1..] == leases[i + 1..];
    SpreadHead(tail, p, claimer, rest);
    assert whole[i..][0] == whole[i] && whole[i..][1..] == whole[i + 1..];
    assert whole[..i + 1] == whole[..i] + [whole[i]];
    assert Is(leases[i], p) ==> rest[0] == shares[k] && rest[1..] == shares[k + 1..];
  }

  lemma DealEnds(leases: seq<Lease>, p: Pick, claimer: Option<LeaseId>, shares: seq<Share>, out: seq<Lease>, k: nat)
    requires |shares| == Count(leases, p) && DealtUpTo(leases, p, claimer, shares, out, |leases|, k)
    ensures out == Spread(leases, p, claimer, shares)
  {
    var whole := Spread(leases, p, claimer, shares);
    assert whole[..|leases|] == whole;
  }

  lemma SameSize(r: Run, n: nat)
    requires n == |r.leases|
    ensures Resized(r, n) == r
  {
  }

  lemma ResizedOnlyRows(r: Run, n: nat)
    ensures Resized(r, n) == r.(leases := Resized(r, n).leases, minted := Resized(r, n).minted)
  {
    hide Grown, Kept;
  }

  lemma RescaleKeepsLog(r: Run, rate: real)
    ensures Rescale(r, rate).events == r.events && Rescale(r, rate).degraded == r.degraded
  {
    hide EqualShares, Each;
  }
}
