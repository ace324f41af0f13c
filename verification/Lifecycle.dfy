/** Every step a run can take, as a function from the run before to the run after.

    One function per public operation of server/lifecycle.py, each atomic and at a
    single instant. Operations that raise leave the run as it was. */
module Lifecycle {
  import opened Basics
  import opened Apportion
  import opened RunModel

  // ----- transitions -------------------------------------------------------------

  /** transition_run: nothing is written, and no event appended, when nothing changes. */
  function Transition(r: Run, to: RunState, reason: Option<EndReason>, now: real): Run {
    var newReason := reason.Some? && r.endReason != reason;
    var ends := to.Terminal() && r.endedAt.None?;
    if r.state == to && !newReason && !ends then r
    else
      r.(state := to,
         endReason := if reason.Some? then reason else r.endReason,
         endedAt := if ends then Some(now) else r.endedAt,
         events := r.events + [StateChange(now, r.state, to)])
  }

  function ShareList(r: Run, n: int): (s: Result<seq<Share>>)
    ensures s.Success? ==> |s.value| == n
  {
    EqualShares(r.snap.mode, r.snap.rate, n)
  }

  function EffectiveWorkers(replay: bool, workers: int): (n: nat)
    ensures n >= 1
  {
    if replay then 1 else if workers < 1 then 1 else workers
  }

  // ----- provisioning ----------------------------------------------------------------

  function SeedLeases(shares: seq<Share>): (r: seq<Lease>)
    ensures |r| == |shares|
    ensures forall i :: 0 <= i < |shares| ==>
              r[i] == Lease(i, i, None, Free, None, None, 0, PlainShare(shares[i]))
  {
    seq(|shares|, i requires 0 <= i < |shares| =>
          Lease(i, i, None, Free, None, None, 0, PlainShare(shares[i])))
  }

  /** provision_run: shares apportioned, free leases seeded, the fleet asked for. */
  function Provision(spec: Snapshot, launched: bool, now: real): Result<Run> {
    var workers := EffectiveWorkers(spec.replay, spec.workers);
    var snap := spec.(workers := workers, bpOriginal := None);
    var blank := Run(Pending, now, None, None, None, false, None, 0.0, snap, [], [], map[], [], 0);
    var shares := ShareList(blank, workers);
    if shares.Failure? then Failure(shares.message)
    else
      var prepared := Transition(blank, Preparing, None, now);
      var seeded := prepared.(leases := SeedLeases(shares.value), minted := workers);
      Success(if launched then Transition(seeded, Provisioning, None, now)
              else Transition(seeded, RunState.Failed, Some(ProvisionFailed), now))
  }

  // ----- completion --------------------------------------------------------------------

  function Delivered(r: Run): nat { At(r.totals, "events_total") }

  function TerminalStateFor(r: Run): RunState {
    if r.endReason.Some? && r.endReason.value.Failing() then RunState.Failed
    else if r.endReason == Some(OperatorStop) then Stopped
    else if Any(r.leases, Missing) && !Any(r.leases, Finished) then RunState.Failed
    else if Delivered(r) == 0 then RunState.Failed
    else Completed
  }

  function DefaultEndReason(r: Run, terminal: RunState): EndReason {
    if terminal.Completed? then NaturalEnd
    else if terminal.Stopped? then OperatorStop
    else if Any(r.leases, Missing) && !Any(r.leases, Finished) then AllWorkersLost
    else if Any(r.leases, Finished) && Delivered(r) == 0 then NoEvents
    else OtherFailure
  }

  predicate MayComplete(r: Run) {
    && (r.state.Running? || r.state.Releasing? || r.state.Paused? || r.state.Draining?)
    && !Any(r.leases, Pick.Live)
    && (Any(r.leases, Finished) || (r.state.Draining? && Any(r.leases, Missing)))
  }

  /** maybe_complete_run. */
  function MaybeComplete(r: Run, now: real): Run {
    if !MayComplete(r) then r
    else
      var terminal := TerminalStateFor(r);
      var reason := if r.endReason.Some? then r.endReason.value else DefaultEndReason(r, terminal);
      Transition(r, terminal, Some(reason), now)
  }

  // ----- operator calls ------------------------------------------------------------------

  /** paused_seconds. */
  function PausedSeconds(r: Run, now: real): real {
    r.pausedS + (if r.pausedAt.Some? then Max(0.0, now - r.pausedAt.value) else 0.0)
  }

  function EndPause(r: Run, now: real): Run {
    if r.pausedAt.None? then r
    else r.(pausedS := PausedSeconds(r, now), pausedAt := None)
  }

  function PendingTotals(leases: seq<Lease>, samples: seq<Sample>): Counters {
    if leases == [] then map[]
    else
      var rest := PendingTotals(leases[..|leases| - 1], samples);
      var l := leases[|leases| - 1];
      if l.state.Done? then rest else Fold(rest, NewestCounters(samples, l.slot))
  }

  /** live_totals: what the workers reported, plus the newest heartbeat of each slot
      whose final report is still to come. */
  function LiveTotals(r: Run): Counters { Fold(r.totals, PendingTotals(r.leases, r.samples)) }

  /** _fold_heartbeat_totals: only the cumulative counters are taken over. */
  function HeartbeatsFolded(r: Run): Run {
    var live := LiveTotals(r);
    r.(totals := map k | k in r.totals.Keys + (live.Keys * LIVE_KEYS) ::
                   if k in live && k in LIVE_KEYS then live[k] else At(r.totals, k))
  }

  /** stop_run. */
  function Stop(r: Run, force: bool, now: real): Run {
    if r.state.Terminal() then r
    else
      var draining := Transition(EndPause(r, now), Draining, Some(OperatorStop), now);
      if !force then draining
      else
        var folded := HeartbeatsFolded(draining);
        MaybeComplete(folded.(leases := Each(folded.leases, Finalise)), now)
  }

  /** pause_run: refused unless running. */
  function Pause(r: Run, now: real): Run {
    if !r.state.Running? then r
    else Transition(r.(pausedAt := Some(now)), Paused, None, now)
  }

  /** resume_run: refused unless paused. */
  function Resume(r: Run, now: real): Run {
    if !r.state.Paused? then r
    else Transition(EndPause(r, now), RunState.Running, None, now)
  }

  function Kept(leases: seq<Lease>, workers: nat): (r: seq<Lease>)
    ensures forall l :: l in r ==> l in leases && l.slot < workers
    ensures (forall i :: 0 <= i < |leases| ==> leases[i].slot == i) ==>
              r == leases[..if workers < |leases| then workers else |leases|]
  {
    if leases == [] then []
    else
      var rest := Kept(leases[..|leases| - 1], workers);
      var l := leases[|leases| - 1];
      if l.slot < workers then rest + [l] else rest
  }

  function Grown(leases: seq<Lease>, workers: nat, minted: nat, blank: Share): (r: seq<Lease>)
    requires |leases| <= workers
    ensures |r| == workers
    ensures forall i :: 0 <= i < |leases| ==> r[i] == leases[i]
    ensures forall i :: |leases| <= i < workers ==>
              r[i] == Lease(i, minted + i - |leases|, None, Free, None, None, 0, PlainShare(blank))
  {
    leases + seq(workers - |leases|, i requires 0 <= i < workers - |leases| =>
                   Lease(|leases| + i, minted + i, None, Free, None, None, 0, PlainShare(blank)))
  }

  function Resized(r: Run, workers: nat): (s: Run)
    ensures |r.leases| <= workers ==> |s.leases| == workers
  {
    if workers > |r.leases| then
      r.(leases := Grown(r.leases, workers, r.minted, Share(r.snap.mode, 0.0)),
         minted := r.minted + workers - |r.leases|)
    else if workers < |r.leases| then r.(leases := Kept(r.leases, workers))
    else r
  }

  /** scale_run: rows added or removed, then the rate split over the new slot count. */
  function Scale(r: Run, workers: int, driverOk: bool): Run {
    if workers < 1 || r.state.Terminal() then r
    else
      var n := EffectiveWorkers(r.snap.replay, workers);
      if (r.snap.rotationPins && n != r.snap.workers) || !driverOk then r
      else
        var shares := ShareList(r, n);
        if shares.Failure? then r
        else
          var sized := Resized(r, n);
          sized.(leases := Each(sized.leases, Reassign(shares.value)),
                 snap := r.snap.(workers := n))
  }

  /** rescale_run: the new rate split over the existing slots. */
  function Rescale(r: Run, rate: real): Run {
    if r.state.Terminal() || r.leases == [] then r
    else
      var retuned := r.(snap := r.snap.(rate := Some(rate)));
      var shares := ShareList(retuned, |r.leases|);
      if shares.Failure? then r
      else retuned.(leases := Each(r.leases, Reassign(shares.value)))
  }

  // ----- agent calls ----------------------------------------------------------------------

  function HeldBy(leases: seq<Lease>, holder: string): Option<nat> {
    First(leases, HeldLive(holder))
  }

  /** _next_claimable: the hinted slot when it can be claimed, else the lowest. */
  function NextClaimable(leases: seq<Lease>, hint: Option<nat>): (r: Option<nat>)
    ensures r.Some? ==> r.value < |leases| && leases[r.value].state.Claimable()
    ensures r.None? ==> forall j :: 0 <= j < |leases| ==> !leases[j].state.Claimable()
  {
    var hinted := if hint.None? then None
                  else First(leases, ClaimableAt(hint.value));
    if hinted.Some? then hinted else LowestClaimable(leases)
  }

  /** _reapportion_on_takeover: the rate over every slot now live. */
  function TakeoverSplit(r: Run, claimer: LeaseId): (s: seq<Lease>)
    ensures |s| == |r.leases|
  {
    if r.state.Terminal() || r.state.Draining? || !r.degraded then r.leases
    else
      var shares := ShareList(r, Count(r.leases, Pick.Live));
      if shares.Failure? then r.leases else Spread(r.leases, Pick.Live, Some(claimer), shares.value)
  }

  function Issued(l: Lease, holder: string, newId: LeaseId, t0: Option<real>, now: real): Lease {
    var takeover := l.state.Lost?;
    l.(id := newId,
       restarts := if takeover then l.restarts + 1 else l.restarts,
       share := if takeover then l.share.(work := None) else l.share,
       effectiveT0 := if t0.Some? then Some(now) else None,
       holder := Some(holder),
       state := Claimed,
       lastHb := Some(now))
  }

  /** claim_lease, for a holder that does not already hold a live lease. */
  function IssueAt(r: Run, i: nat, holder: string, now: real): (s: Run)
    requires i < |r.leases|
    ensures |s.leases| == |r.leases|
  {
    var lease := Issued(r.leases[i], holder, r.minted, r.t0, now);
    var claimed := r.(leases := r.leases[i := lease], minted := r.minted + 1);
    if r.leases[i].state.Lost? && r.t0.Some? then
      claimed.(leases := TakeoverSplit(claimed, lease.id))
    else claimed
  }

  /** The lease claim_lease hands out: nothing, one already held, or a claimable one. */
  datatype Grant = Refused | Held(index: nat) | Issue(index: nat)

  function GrantFor(r: Run, holder: string, hint: Option<nat>): (g: Grant)
    ensures !g.Refused? ==> g.index < |r.leases|
    ensures g.Issue? ==> r.leases[g.index].state.Claimable()
    ensures g.Held? ==> r.leases[g.index].state.Live() && r.leases[g.index].holder == Some(holder)
    ensures !g.Refused? ==> !r.state.Terminal()
  {
    if r.state.Terminal() then Refused
    else
      var held := HeldBy(r.leases, holder);
      if held.Some? then Held(held.value)
      else
        var next := NextClaimable(r.leases, hint);
        if next.None? then Refused else Issue(next.value)
  }

  /** claim_lease. */
  function Claim(r: Run, holder: string, hint: Option<nat>, now: real): Run {
    match GrantFor(r, holder, hint)
    case Refused => r
    case Held(i) => r.(leases := r.leases[i := r.leases[i].(lastHb := Some(now))])
    case Issue(i) => IssueAt(r, i, holder, now)
  }

  function SlotIndex(leases: seq<Lease>, slot: nat): (r: Option<nat>)
    ensures r.Some? ==> r.value < |leases| && leases[r.value].slot == slot
    ensures r.None? ==> forall j :: 0 <= j < |leases| ==> leases[j].slot != slot
  {
    var r := First(leases, AtSlot(slot));
    assert r.None? ==> forall j :: 0 <= j < |leases| ==> !Is(leases[j], AtSlot(slot));
    r
  }

  /** The lease of a slot, provided the caller's id is the one on it. */
  function HolderIndex(leases: seq<Lease>, slot: nat, id: Option<LeaseId>): (r: Option<nat>)
    ensures r.Some? ==> r.value < |leases| && leases[r.value].slot == slot && Some(leases[r.value].id) == id
  {
    var i := SlotIndex(leases, slot);
    if i.Some? && Some(leases[i.value].id) == id then i else None
  }

  /** mark_ready up to its commit. */
  function MarkReady(r: Run, slot: nat, id: Option<LeaseId>, now: real): Run {
    var i := HolderIndex(r.leases, slot, id);
    if i.None? then r
    else
      var l := r.leases[i.value];
      r.(leases := r.leases[i.value :=
           l.(lastHb := Some(now), state := if l.state.Claimed? then Ready else l.state)])
  }

  /** _reapportion_ready: the whole rate over the slots that made it. */
  function ReadySplit(r: Run): (s: seq<Lease>)
    ensures |s| == |r.leases|
  {
    var shares := ShareList(r, Count(r.leases, Warmed));
    if shares.Failure? then r.leases else Spread(r.leases, Warmed, None, shares.value)
  }

  function Released(r: Run, now: real): Run {
    Transition(r.(t0 := Some(now + RELEASE_DELAY_S)), Releasing, None, now)
  }

  predicate Releasable(r: Run) {
    && r.t0.None?
    && (r.state.Provisioning? || r.state.Preparing? || r.state.Releasing?)
    && Any(r.leases, Warmed)
  }

  function PartialRelease(r: Run, now: real): Run {
    var missed := r.(leases := Each(r.leases, MissRelease));
    if r.snap.strictRelease then
      Transition(missed, RunState.Failed, Some(StrictReleaseTimeout), now)
    else
      Released(missed.(degraded := true, leases := ReadySplit(missed)), now)
  }

  /** evaluate_release. */
  function EvaluateRelease(r: Run, forcePartial: bool, now: real): Run {
    if !Releasable(r) then r
    else if !Any(r.leases, Awaited) then Released(r, now)
    else if forcePartial then PartialRelease(r, now)
    else r
  }

  // ----- heartbeats ---------------------------------------------------------------------

  datatype Beat = Beat(
    counters: Counters,
    authFailed: bool,
    protocolOk: bool,
    work: Option<Work>,
    engine: Option<Engine>)

  datatype Command =
    | Superseded | Drain | Release(t0: real) | Hold | Retarget(share: Share) | Continue

  function Prefix(s: string, n: nat): string { if |s| <= n then s else s[..n] }

  /** store_assigned_work and store_engine_report. */
  function Reported(doc: ShareDoc, beat: Beat): ShareDoc {
    doc.(work := if beat.work.None? then doc.work
                 else
                   var w := beat.work.value;
                   Some(Work(w.count,
                             if w.count > 0 || w.reason.None? then None
                             else Some(Prefix(w.reason.value, ASSIGNED_REASON_MAX)))),
         engine := if beat.engine.None? then doc.engine else beat.engine)
  }

  /** The renewal half of record_heartbeat: lease stamped, sample and flag appended. */
  function Renewed(r: Run, i: nat, beat: Beat, now: real): (s: Run)
    requires i < |r.leases|
    ensures |s.leases| == |r.leases|
  {
    var l := r.leases[i];
    r.(leases := r.leases[i := l.(lastHb := Some(now), share := Reported(l.share, beat))],
       samples := r.samples + [Sample(l.slot, now, beat.counters)],
       events := if beat.authFailed then r.events + [AuthFailed(now, l.slot)] else r.events)
  }

  function WithState(r: Run, i: nat, st: LeaseState): (s: Run)
    ensures |s.leases| == |r.leases|
  {
    if i < |r.leases| then r.(leases := r.leases[i := r.leases[i].(state := st)]) else r
  }

  function MaybeMarkRunning(r: Run, now: real): Run {
    if r.state.Releasing? then Transition(r, RunState.Running, None, now) else r
  }

  function Recovered(r: Run, i: nat): (s: Run)
    requires i < |r.leases|
    ensures |s.leases| == |r.leases|
  {
    if r.leases[i].state.Lost? then
      WithState(r, i, if r.t0.Some? then LeaseState.Running else Ready)
    else r
  }

  /** _heartbeat_command, branch for branch. */
  function CommandFor(run: Run, i: nat, protocolOk: bool, now: real): (Run, Command)
    requires i < |run.leases|
  {
    if run.state.Draining? || run.state.Terminal() then (run, Drain)
    else if !protocolOk then (run, Drain)
    else
      var r := Recovered(run, i);
      var l := r.leases[i];
      if r.t0.Some? && (l.state.Claimed? || l.state.Ready?) then
        (if now >= r.t0.value then MaybeMarkRunning(WithState(r, i, LeaseState.Running), now) else r,
         Release(r.t0.value))
      else if r.state.Paused? then
        (if l.state.Ready? && r.t0.Some? then WithState(r, i, LeaseState.Running) else r, Hold)
      else if l.share.retarget then
        var cleared := r.(leases := r.leases[i := l.(share := l.share.(retarget := false))]);
        (if (l.state.Claimed? || l.state.Ready?) && r.t0.Some?
           then WithState(cleared, i, LeaseState.Running) else cleared,
         Retarget(l.share.rate))
      else
        (if l.state.Ready? && r.t0.Some? then WithState(r, i, LeaseState.Running) else r, Continue)
  }

  /** record_heartbeat. */
  function Heartbeat(r: Run, slot: nat, id: Option<LeaseId>, beat: Beat, now: real): (Run, Command) {
    var i := HolderIndex(r.leases, slot, id);
    if i.None? then (r, Superseded)
    else CommandFor(Renewed(r, i.value, beat, now), i.value, beat.protocolOk, now)
  }

  /** record_final; a worker that predates lease ids sends none. */
  function Final(r: Run, slot: nat, id: Option<LeaseId>, summary: Counters, now: real): Run {
    var i := SlotIndex(r.leases, slot);
    if i.None? || (id.Some? && Some(r.leases[i.value].id) != id) then r
    else
      var l := r.leases[i.value];
      var folded := if l.state.Done? then r
                    else WithState(r, i.value, Done).(totals := Fold(r.totals, summary));
      MaybeComplete(folded, now)
  }

  // ----- the supervisor ---------------------------------------------------------------------

  function LapseLeases(r: Run, boot: real, now: real): Run {
    r.(leases := Each(r.leases, Lapse(r.createdAt, boot, now)))
  }

  function ReleaseTimeout(r: Run, now: real): Run {
    if !(r.state.Provisioning? && r.t0.None? && now - r.createdAt > PROVISION_TIMEOUT_S) then r
    else if Any(r.leases, Warmed) then EvaluateRelease(r, true, now)
    else if !Any(r.leases, Awaited) then
      Transition(r, RunState.Failed, Some(ProvisionTimeout), now)
    else r
  }

  /** The run is still delivering: released and neither paused nor winding down. */
  predicate Delivering(r: Run) { (r.state.Running? || r.state.Releasing?) && r.t0.Some? }

  predicate DurationOver(r: Run, now: real) {
    && Delivering(r)
    && r.snap.duration.Some? && r.snap.duration.value != 0.0
    && now >= r.t0.value + (r.snap.duration.value + PausedSeconds(r, now))
  }

  /** _check_duration. */
  function CheckDuration(r: Run, now: real): Run {
    if DurationOver(r, now) then Transition(r, Draining, Some(DurationComplete), now) else r
  }

  /** The most recent last word of a lease that was lost after running. */
  function LatestLapse(leases: seq<Lease>): (r: Option<real>)
  {
    if leases == [] then None
    else
      var rest := LatestLapse(leases[1..]);
      if !Is(leases[0], LostAfterRunning) then rest
      else Some(if rest.Some? then Max(leases[0].lastHb.value, rest.value) else leases[0].lastHb.value)
  }

  predicate TooManyLost(r: Run, now: real) {
    && r.t0.Some?
    && 2 * Count(r.leases, LostAfterRunning) > |r.leases|
    && LatestLapse(r.leases).Some?
    && now - LatestLapse(r.leases).value >= AUTO_ABORT_LOST_S
  }

  function AuthFailedSlots(events: seq<Event>): set<nat> {
    set e | e in events && e.AuthFailed? :: e.slot
  }

  predicate TooManyAuthFailures(r: Run) {
    var n := |AuthFailedSlots(r.events)|;
    n > 0 && n >= |r.leases| / 2
  }

  /** _check_auto_abort. */
  function CheckAutoAbort(r: Run, now: real): Run {
    if r.state.Terminal() || r.state.Draining? || r.leases == [] then r
    else if TooManyLost(r, now) then Transition(r, RunState.Failed, Some(AutoAbortLost), now)
    else if TooManyAuthFailures(r) then Transition(r, RunState.Failed, Some(AutoAbortAuth), now)
    else r
  }

  // Backpressure.

  function OkDelta(samples: seq<Sample>, slot: nat): nat {
    var two := NewestTwo(samples, slot);
    if |two| < 2 then 0 else Gain(At(two[0].counters, "hec_2xx"), At(two[1].counters, "hec_2xx"))
  }

  function FailDelta(samples: seq<Sample>, slot: nat): nat {
    var two := NewestTwo(samples, slot);
    if |two| < 2 then 0
    else Gain(At(two[0].counters, "hec_5xx") + At(two[0].counters, "hec_timeouts"),
              At(two[1].counters, "hec_5xx") + At(two[1].counters, "hec_timeouts"))
  }

  function Gain(newer: nat, older: nat): nat { if newer > older then newer - older else 0 }

  /** _recent_delivery_deltas over the live slots: (accepted, failed). */
  function RecentDeltas(leases: seq<Lease>, samples: seq<Sample>): (nat, nat) {
    if leases == [] then (0, 0)
    else
      var l := leases[|leases| - 1];
      var rest := RecentDeltas(leases[..|leases| - 1], samples);
      if l.state.Live() then (rest.0 + OkDelta(samples, l.slot), rest.1 + FailDelta(samples, l.slot))
      else rest
  }

  predicate FailingNow(cfg: Settings, r: Run) {
    var (ok, fail) := RecentDeltas(r.leases, r.samples);
    ok + fail > 0 && fail as real / (ok + fail) as real >= cfg.minFailedFraction
  }

  /** _open_backpressure_since: the start of the current unanswered streak, from the log. */
  function OpenSince(events: seq<Event>): Option<real> {
    if events == [] then None
    else
      var since := OpenSince(events[..|events| - 1]);
      match events[|events| - 1]
      case Cleared(_) => None
      case SteppedDown(_) => None
      case Detected(ts) => if since.None? then Some(ts) else since
      case _ => since
  }

  /** The rate first asked for, recorded before the first step rewrites it. */
  function Noted(r: Run): Run {
    r.(snap := r.snap.(bpOriginal := if r.snap.bpOriginal.Some? then r.snap.bpOriginal else r.snap.rate))
  }

  predicate HasRate(r: Run) {
    r.snap.mode != CountInterval && r.snap.rate.Some? && r.snap.rate.value > 0.0
  }

  function SteppedRate(cfg: Settings, r: Run): real
    requires HasRate(r)
  {
    r.snap.rate.value * cfg.stepFactor
  }

  function FloorRate(cfg: Settings, r: Run): real
    requires HasRate(r)
  {
    Noted(r).snap.bpOriginal.value * cfg.minRateFraction
  }

  predicate CanStep(cfg: Settings, r: Run) {
    HasRate(r) && SteppedRate(cfg, r) >= FloorRate(cfg, r)
  }

  /** _step_down_for_backpressure, when it applies. */
  function StepDown(cfg: Settings, r: Run, now: real): Run
    requires CanStep(cfg, r)
  {
    Rescale(Noted(r), SteppedRate(cfg, r)).(degraded := true, events := r.events + [SteppedDown(now)])
  }

  /** The supervisor judges delivery only on a delivering run with a live slot. */
  predicate Judged(cfg: Settings, r: Run) { cfg.enabled && Delivering(r) && Any(r.leases, Pick.Live) }

  /** _check_backpressure. */
  function CheckBackpressure(cfg: Settings, r: Run, now: real): Run {
    if !Judged(cfg, r) then r
    else
      var since := OpenSince(r.events);
      if !FailingNow(cfg, r) then
        if since.Some? then r.(events := r.events + [Cleared(now)]) else r
      else if since.None? then r.(events := r.events + [Detected(now)])
      else if now - since.value < cfg.sustainedS then r
      else if cfg.stepDown && CanStep(cfg, r) then StepDown(cfg, r, now)
      else Transition(r, Draining, Some(BackpressureDrain), now)
  }

  /** _last_state_ts for draining. */
  function DrainSince(events: seq<Event>): Option<real> {
    if events == [] then None
    else
      var e := events[|events| - 1];
      if e.StateChange? && e.to.Draining? then Some(e.ts) else DrainSince(events[..|events| - 1])
  }

  /** _reap_draining. */
  function ReapDraining(r: Run, now: real): Run {
    if !r.state.Draining? then r
    else
      var since := DrainSince(r.events);
      if since.None? || now - since.value < STOP_GRACE_S then r
      else r.(leases := Each(r.leases, GiveUp))
  }

  /** The checks of a supervisor pass that come before backpressure is judged. */
  function TickChecks(r: Run, boot: real, now: real): Run {
    CheckAutoAbort(CheckDuration(ReleaseTimeout(LapseLeases(r, boot, now), now), now), now)
  }

  /** _supervise_run; a terminal or pending run is not supervised. */
  function Tick(cfg: Settings, r: Run, boot: real, now: real): Run {
    if r.state.Terminal() || r.state.Pending? then r
    else MaybeComplete(ReapDraining(CheckBackpressure(cfg, TickChecks(r, boot, now), now), now), now)
  }

  // ----- boot reconciliation -------------------------------------------------------------------

  datatype Probe = NoRef | Unknown | Gone | Present

  /** Phase 1 of reconcile_on_boot. */
  function Reconcile(r: Run, probe: Probe, now: real): Run {
    if r.state.Terminal() then r
    else match probe
      case NoRef => Transition(r, RunState.Failed, Some(Orphaned), now)
      case Gone =>
        Transition(r, RunState.Failed, Some(Orphaned), now).(leases := Each(r.leases, GiveUp))
      case _ => r
  }

  // ----- runs of the machine ---------------------------------------------------------------------

  datatype Action =
    | DoClaim(holder: string, hint: Option<nat>)
    | DoReady(slot: nat, id: Option<LeaseId>)
    | DoEvaluate
    | DoHeartbeat(slot: nat, id: Option<LeaseId>, beat: Beat)
    | DoFinal(slot: nat, id: Option<LeaseId>, summary: Counters)
    | DoStop(force: bool)
    | DoPause
    | DoResume
    | DoScale(workers: int, driverOk: bool)
    | DoRescale(rate: real)
    | DoTick(boot: real)
    | DoReconcile(probe: Probe)

  function Step(cfg: Settings, r: Run, a: Action, now: real): Run {
    match a
    case DoClaim(holder, hint) => Claim(r, holder, hint, now)
    case DoReady(slot, id) => MarkReady(r, slot, id, now)
    case DoEvaluate => EvaluateRelease(r, false, now)
    case DoHeartbeat(slot, id, beat) => Heartbeat(r, slot, id, beat, now).0
    case DoFinal(slot, id, summary) => Final(r, slot, id, summary, now)
    case DoStop(force) => Stop(r, force, now)
    case DoPause => Pause(r, now)
    case DoResume => Resume(r, now)
    case DoScale(workers, driverOk) => Scale(r, workers, driverOk)
    case DoRescale(rate) => Rescale(r, rate)
    case DoTick(boot) => Tick(cfg, r, boot, now)
    case DoReconcile(probe) => Reconcile(r, probe, now)
  }

  datatype Timed = Timed(action: Action, at: real)

  /** The run after a whole history of steps, oldest first. */
  function Exec(cfg: Settings, start: Run, trace: seq<Timed>): Run {
    if trace == [] then start
    else
      var last := trace[|trace| - 1];
      Step(cfg, Exec(cfg, start, trace[..|trace| - 1]), last.action, last.at)
  }

  /** The instant of the last step so far. */
  function Clock(start: real, trace: seq<Timed>): real {
    if trace == [] then start else trace[|trace| - 1].at
  }

  /** The instants of a history never run backwards from the launch. */
  predicate Clocked(start: real, trace: seq<Timed>) {
    forall i :: 0 <= i < |trace| ==> trace[i].at >= Clock(start, trace[..i])
  }

  /** A run as provision_run leaves it. */
  ghost predicate Launched(r: Run) {
    exists spec: Snapshot, ok: bool :: Provision(spec, ok, r.createdAt) == Success(r)
  }
}
