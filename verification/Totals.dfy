/** Counting delivered work once: final reports, heartbeats and the total shown. */
module Totals {
  import opened Basics
  import opened Apportion
  import opened RunModel
  import opened Lifecycle
  import opened Frames

  /** A final report the control plane took in, under the id its slot then carried. */
  datatype Report = Report(id: LeaseId, summary: Counters)

  /** The report of a step, if it was one and was taken in. */
  function Accepted(r: Run, a: Action): Option<Report> {
    match a
    case DoFinal(slot, id, summary) =>
      var i := SlotIndex(r.leases, slot);
      if i.None? || (id.Some? && Some(r.leases[i.value].id) != id) || r.leases[i.value].state.Done? then None
      else Some(Report(r.leases[i.value].id, summary))
    case _ => None
  }

  function Reports(cfg: Settings, start: Run, trace: seq<Timed>): seq<Report> {
    if trace == [] then []
    else
      var n := |trace| - 1;
      var taken := Accepted(Exec(cfg, start, trace[..n]), trace[n].action);
      Reports(cfg, start, trace[..n]) + (if taken.Some? then [taken.value] else [])
  }

  function Reported(reports: seq<Report>, key: string): nat {
    if reports == [] then 0
    else Reported(reports[..|reports| - 1], key) + At(reports[|reports| - 1].summary, key)
  }

  predicate Has(reports: seq<Report>, id: LeaseId) {
    exists j :: 0 <= j < |reports| && reports[j].id == id
  }

  predicate OncePerId(reports: seq<Report>) {
    forall i, j :: 0 <= i < j < |reports| ==> reports[i].id != reports[j].id
  }

  predicate DoneMeansReported(leases: seq<Lease>, reports: seq<Report>) {
    forall i :: 0 <= i < |leases| ==> (leases[i].state.Done? <==> Has(reports, leases[i].id))
  }

  predicate AllDrawn(reports: seq<Report>, minted: nat) {
    forall j :: 0 <= j < |reports| ==> reports[j].id < minted
  }

  /** The totals are the sum of the reports, one per id, and a lease is done exactly when
      its holder's report is among them. */
  ghost predicate Tallied(r: Run, reports: seq<Report>) {
    && (forall key :: At(r.totals, key) == Reported(reports, key))
    && OncePerId(reports)
    && DoneMeansReported(r.leases, reports)
    && AllDrawn(reports, r.minted)
  }

  // ----- steps that finish nobody -----------------------------------------------------------

  /** Slot by slot the same id, and done exactly if done before. */
  predicate DoneKept(a: seq<Lease>, b: seq<Lease>) {
    |a| == |b| && forall i :: 0 <= i < |a| ==> b[i].id == a[i].id && (b[i].state.Done? <==> a[i].state.Done?)
  }

  lemma DoneRefl(a: seq<Lease>)
    ensures DoneKept(a, a)
  {
  }

  lemma DoneTrans(a: seq<Lease>, b: seq<Lease>, c: seq<Lease>)
    requires DoneKept(a, b) && DoneKept(b, c)
    ensures DoneKept(a, c)
  {
  }

  lemma EachKeepsDone(a: seq<Lease>, c: Change)
    requires !c.Finalise?
    ensures DoneKept(a, Each(a, c))
  {
    hide Each;
    var b := Each(a, c);
    assert forall i :: 0 <= i < |a| ==> b[i] == Changed(a[i], c);
  }

  lemma SharesKeepDone(a: seq<Lease>, b: seq<Lease>)
    requires SameButShares(a, b)
    ensures DoneKept(a, b)
  {
  }

  lemma ReleaseKeepsDone(r: Run, forcePartial: bool, now: real)
    ensures DoneKept(r.leases, EvaluateRelease(r, forcePartial, now).leases)
  {
    hide DoneKept, Each, ReadySplit, Any, SameButShares;
    DoneRefl(r.leases);
    var missed := r.(leases := Each(r.leases, MissRelease));
    EachKeepsDone(r.leases, MissRelease);
    SplitsKeepGrants(missed, 0);
    SharesKeepDone(missed.leases, ReadySplit(missed));
    DoneTrans(r.leases, missed.leases, ReadySplit(missed));
  }

  lemma RescaleKeepsDone(r: Run, rate: real)
    ensures DoneKept(r.leases, Rescale(r, rate).leases)
    ensures Rescale(r, rate) == r.(snap := Rescale(r, rate).snap, leases := Rescale(r, rate).leases)
  {
    hide DoneKept, Each, EqualShares;
    DoneRefl(r.leases);
    var shares := ShareList(r.(snap := r.snap.(rate := Some(rate))), |r.leases|);
    if shares.Success? {
      EachKeepsDone(r.leases, Reassign(shares.value));
    }
  }

  lemma ChecksKeepDone(r: Run, boot: real, now: real)
    ensures DoneKept(r.leases, TickChecks(r, boot, now).leases)
    ensures TickChecks(r, boot, now).totals == r.totals
  {
    hide DoneKept, Each, EvaluateRelease, Any, DurationOver, TooManyLost, TooManyAuthFailures;
    var lapsed := LapseLeases(r, boot, now);
    EachKeepsDone(r.leases, Lapse(r.createdAt, boot, now));
    ReleaseKeepsDone(lapsed, true, now);
    ReleaseKeepsTotals(lapsed, true, now);
    DoneTrans(r.leases, lapsed.leases, EvaluateRelease(lapsed, true, now).leases);
  }

  lemma TickKeepsDone(cfg: Settings, r: Run, boot: real, now: real)
    ensures DoneKept(r.leases, Tick(cfg, r, boot, now).leases)
    ensures Tick(cfg, r, boot, now).totals == r.totals
  {
    hide DoneKept, Each, TickChecks, Rescale, Judged, FailingNow, OpenSince, SteppedRate, FloorRate, DrainSince,
         MayComplete, TerminalStateFor, DefaultEndReason;
    DoneRefl(r.leases);
    var checked := TickChecks(r, boot, now);
    ChecksKeepDone(r, boot, now);
    if HasRate(checked) {
      RescaleKeepsDone(Noted(checked), SteppedRate(cfg, checked));
      DoneTrans(r.leases, checked.leases, Rescale(Noted(checked), SteppedRate(cfg, checked)).leases);
    }
    var judged := CheckBackpressure(cfg, checked, now);
    EachKeepsDone(judged.leases, GiveUp);
    DoneTrans(r.leases, judged.leases, Each(judged.leases, GiveUp));
  }

  lemma ReleaseKeepsTotals(r: Run, forcePartial: bool, now: real)
    ensures EvaluateRelease(r, forcePartial, now).totals == r.totals
  {
    hide Each, ReadySplit, Any;
  }

  lemma HeartbeatKeepsDone(r: Run, slot: nat, id: Option<LeaseId>, beat: Beat, now: real)
    ensures DoneKept(r.leases, Heartbeat(r, slot, id, beat, now).0.leases)
    ensures Heartbeat(r, slot, id, beat, now).0.totals == r.totals
  {
    hide HolderIndex, CommandFor, RunModel.Is;
    var i := HolderIndex(r.leases, slot, id);
    if i.Some? {
      CommandKeepsDone(Renewed(r, i.value, beat, now), i.value, beat.protocolOk, now);
    }
  }

  lemma CommandKeepsDone(r: Run, i: nat, protocolOk: bool, now: real)
    requires i < |r.leases|
    ensures DoneKept(r.leases, CommandFor(r, i, protocolOk, now).0.leases)
    ensures CommandFor(r, i, protocolOk, now).0.totals == r.totals
  {
    hide MaybeMarkRunning;
    CommandTotals(r, i, protocolOk, now);
    hide CommandFor;
  }

  lemma CommandTotals(r: Run, i: nat, protocolOk: bool, now: real)
    requires i < |r.leases|
    ensures var s := CommandFor(r, i, protocolOk, now).0;
            s.totals == r.totals && |s.leases| == |r.leases|
    ensures var s := CommandFor(r, i, protocolOk, now).0;
            s.leases == r.leases[i := s.leases[i]] && s.leases[i].id == r.leases[i].id
            && (s.leases[i].state.Done? <==> r.leases[i].state.Done?)
  {
    assert r.leases == r.leases[i := r.leases[i]];
  }

  lemma ReadyKeepsDone(r: Run, slot: nat, id: Option<LeaseId>, now: real)
    ensures var s := MarkReady(r, slot, id, now);
            DoneKept(r.leases, s.leases) && s.totals == r.totals && s.minted == r.minted
  {
    hide HolderIndex;
  }

  lemma OthersKeepDone(r: Run, probe: Probe, now: real)
    ensures var s := Reconcile(r, probe, now);
            DoneKept(r.leases, s.leases) && s.totals == r.totals && s.minted == r.minted
    ensures var s := Stop(r, false, now);
            DoneKept(r.leases, s.leases) && s.totals == r.totals && s.minted == r.minted
    ensures var s := Pause(r, now);
            DoneKept(r.leases, s.leases) && s.totals == r.totals && s.minted == r.minted
    ensures var s := Resume(r, now);
            DoneKept(r.leases, s.leases) && s.totals == r.totals && s.minted == r.minted
  {
    hide DoneKept, Each, PausedSeconds;
    DoneRefl(r.leases);
    EachKeepsDone(r.leases, GiveUp);
  }

  /** Every step but claims, scaling, final reports and forced stops. */
  lemma StepKeepsDone(cfg: Settings, r: Run, a: Action, now: real)
    requires !a.DoClaim? && !a.DoScale? && !a.DoFinal? && a != DoStop(true)
    ensures DoneKept(r.leases, Step(cfg, r, a, now).leases) && Step(cfg, r, a, now).totals == r.totals
    ensures Step(cfg, r, a, now).minted == r.minted
  {
    hide DoneKept, MarkReady, EvaluateRelease, Heartbeat, Stop, Pause, Resume, Rescale, Tick, Reconcile, SameGrants;
    match a
    case DoReady(slot, id) => ReadyKeepsDone(r, slot, id, now);
    case DoEvaluate =>
      ReleaseKeepsDone(r, false, now); ReleaseKeepsTotals(r, false, now); ReleaseKeepsFleet(r, false, now);
    case DoHeartbeat(slot, id, beat) =>
      HeartbeatKeepsDone(r, slot, id, beat, now); HeartbeatKeepsMinted(r, slot, id, beat, now);
    case DoStop(force) => OthersKeepDone(r, NoRef, now);
    case DoPause => OthersKeepDone(r, NoRef, now);
    case DoResume => OthersKeepDone(r, NoRef, now);
    case DoRescale(rate) => RescaleKeepsDone(r, rate);
    case DoTick(boot) => TickKeepsDone(cfg, r, boot, now); TickKeepsFleet(cfg, r, boot, now);
    case DoReconcile(probe) => OthersKeepDone(r, probe, now);
  }

  lemma HeartbeatKeepsMinted(r: Run, slot: nat, id: Option<LeaseId>, beat: Beat, now: real)
    ensures Heartbeat(r, slot, id, beat, now).0.minted == r.minted
  {
    hide HolderIndex, CommandFor, SameIds;
    var i := HolderIndex(r.leases, slot, id);
    if i.Some? {
      CommandKeepsIds(Renewed(r, i.value, beat, now), i.value, beat.protocolOk, now);
    }
  }

  lemma DoneKeptTallies(r: Run, s: Run, reports: seq<Report>)
    requires Tallied(r, reports) && DoneKept(r.leases, s.leases) && s.totals == r.totals && s.minted == r.minted
    ensures Tallied(s, reports)
  {
    hide Reported, At, OncePerId, Has;
  }

  // ----- steps that make or finish leases -----------------------------------------------------

  lemma FreshIdUnreported(reports: seq<Report>, minted: nat, id: LeaseId)
    requires AllDrawn(reports, minted) && id >= minted
    ensures !Has(reports, id)
  {
  }

  lemma ClaimTallies(r: Run, holder: string, hint: Option<nat>, now: real, reports: seq<Report>)
    requires WellFormed(r) && Tallied(r, reports)
    ensures Tallied(Claim(r, holder, hint, now), reports)
  {
    hide Splittable, HeldBy, NextClaimable, IssueAt, LeasesInOrder, Reported, Has, OncePerId, At;
    match GrantFor(r, holder, hint)
    case Refused =>
    case Held(i) =>
    case Issue(i) => IssueTallies(r, i, holder, now, reports);
  }

  lemma IssueTallies(r: Run, i: nat, holder: string, now: real, reports: seq<Report>)
    requires Tallied(r, reports) && i < |r.leases| && r.leases[i].state.Claimable()
    ensures Tallied(IssueAt(r, i, holder, now), reports)
  {
    hide TakeoverSplit, SameButShares, Reported, At, OncePerId, Has;
    var lease := Issued(r.leases[i], holder, r.minted, r.t0, now);
    var claimed := r.(leases := r.leases[i := lease], minted := r.minted + 1);
    FreshIdUnreported(reports, r.minted, r.minted);
    assert Tallied(claimed, reports);
    SplitsKeepGrants(claimed, lease.id);
    SharesKeepDone(claimed.leases, TakeoverSplit(claimed, lease.id));
    DoneKeptTallies(claimed, claimed.(leases := TakeoverSplit(claimed, lease.id)), reports);
  }

  lemma ScaleTallies(r: Run, workers: int, driverOk: bool, reports: seq<Report>)
    requires WellFormed(r) && Tallied(r, reports)
    ensures Tallied(Scale(r, workers, driverOk), reports)
  {
    hide Splittable, EqualShares, Each, Resized, LeasesInOrder, DoneKept, Tallied;
    var n := EffectiveWorkers(r.snap.replay, workers);
    var sized := Resized(r, n);
    ResizedTallies(r, n, reports);
    var shares := ShareList(r, n);
    if shares.Success? {
      EachKeepsDone(sized.leases, Reassign(shares.value));
      ResizedTotals(r, n);
      DoneKeptTallies(sized, Scale(r, workers, driverOk).(minted := sized.minted, totals := sized.totals,
                               leases := Each(sized.leases, Reassign(shares.value))), reports);
    }
  }

  lemma ResizedTotals(r: Run, n: nat)
    ensures Resized(r, n).totals == r.totals
    ensures Resized(r, n) == r.(leases := Resized(r, n).leases, minted := Resized(r, n).minted)
  {
    hide Kept, Grown;
  }

  lemma ResizedTallies(r: Run, n: nat, reports: seq<Report>)
    requires WellFormed(r) && Tallied(r, reports)
    ensures Tallied(Resized(r, n), reports)
  {
    hide Splittable, Reported, At, OncePerId, Has;
    var s := Resized(r, n);
    forall i | 0 <= i < |s.leases| ensures s.leases[i].state.Done? <==> Has(reports, s.leases[i].id) {
      if i >= |r.leases| {
        FreshIdUnreported(reports, r.minted, s.leases[i].id);
      }
    }
  }

  lemma HasAppend(reports: seq<Report>, x: Report, id: LeaseId)
    ensures Has(reports + [x], id) <==> Has(reports, id) || x.id == id
  {
    var all := reports + [x];
    assert all[|reports|] == x;
    assert forall j :: 0 <= j < |reports| ==> all[j] == reports[j];
  }

  lemma FinalTallies(r: Run, slot: nat, id: Option<LeaseId>, summary: Counters, now: real, reports: seq<Report>)
    requires WellFormed(r) && Tallied(r, reports)
    ensures var taken := Accepted(r, DoFinal(slot, id, summary));
            Tallied(Final(r, slot, id, summary, now), reports + if taken.Some? then [taken.value] else [])
  {
    hide Splittable, SlotIndex, LeasesInOrder, MayComplete, TerminalStateFor, DefaultEndReason, Tallied, Fold;
    var i := SlotIndex(r.leases, slot);
    assert reports + [] == reports;
    var s := Final(r, slot, id, summary, now);
    if i.Some? {
      DoneRefl(r.leases);
      var folded := WithState(r, i.value, Done).(totals := Fold(r.totals, summary));
      if Accepted(r, DoFinal(slot, id, summary)).Some? {
        ReportTallies(r, i.value, summary, reports);
        DoneRefl(folded.leases);
        DoneKeptTallies(folded, s, reports + [Report(r.leases[i.value].id, summary)]);
      } else {
        DoneKeptTallies(r, s, reports);
      }
    }
  }

  lemma ReportTallies(r: Run, i: nat, summary: Counters, reports: seq<Report>)
    requires WellFormed(r) && Tallied(r, reports) && i < |r.leases| && !r.leases[i].state.Done?
    ensures Tallied(WithState(r, i, Done).(totals := Fold(r.totals, summary)),
                    reports + [Report(r.leases[i].id, summary)])
  {
    hide Splittable, Has;
    var x := Report(r.leases[i].id, summary);
    var all := reports + [x];
    assert all[..|all| - 1] == reports;
    var s := WithState(r, i, Done).leases;
    forall j | 0 <= j < |s| ensures s[j].state.Done? <==> Has(all, s[j].id) {
      HasAppend(reports, x, s[j].id);
      assert j != i ==> r.leases[j].id != r.leases[i].id;
    }
    NotYet(reports, x.id);
  }

  lemma NotYet(reports: seq<Report>, id: LeaseId)
    requires !Has(reports, id)
    ensures forall j :: 0 <= j < |reports| ==> reports[j].id != id
  {
  }

  lemma LaunchTallies(r: Run)
    requires Launched(r)
    ensures Tallied(r, [])
  {
    hide EqualShares;
    var spec: Snapshot, ok: bool :| Provision(spec, ok, r.createdAt) == Success(r);
  }

  predicate NoForcedStop(trace: seq<Timed>) {
    forall i :: 0 <= i < |trace| ==> trace[i].action != DoStop(true)
  }

  lemma StepTallies(cfg: Settings, r: Run, a: Action, now: real, reports: seq<Report>)
    requires WellFormed(r) && Tallied(r, reports) && a != DoStop(true)
    ensures var taken := Accepted(r, a);
            Tallied(Step(cfg, r, a, now), reports + if taken.Some? then [taken.value] else [])
  {
    hide WellFormed, Tallied, Claim, Scale, Final, SlotIndex, DoneKept, MarkReady, EvaluateRelease, Heartbeat,
         Stop, Pause, Resume, Rescale, Tick, Reconcile;
    assert reports + [] == reports;
    match a
    case DoClaim(holder, hint) => ClaimTallies(r, holder, hint, now, reports);
    case DoScale(workers, driverOk) => ScaleTallies(r, workers, driverOk, reports);
    case DoFinal(slot, id, summary) => FinalTallies(r, slot, id, summary, now, reports);
    case _ =>
      StepKeepsDone(cfg, r, a, now);
      DoneKeptTallies(r, Step(cfg, r, a, now), reports);
  }

  /** Exactly once: under retries, supersession, takeover and scaling, a run's totals are
      the sum of one report per finished lease and nothing else, as long as nobody forces
      a stop. */
  lemma {:induction false} TotalsCountEachReportOnce(cfg: Settings, start: Run, trace: seq<Timed>)
    requires Launched(start) && NoForcedStop(trace)
    ensures Tallied(Exec(cfg, start, trace), Reports(cfg, start, trace))
  {
    hide WellFormed, Tallied, Launched, Step, Accepted;
    if trace == [] {
      LaunchTallies(start);
    } else {
      var n := |trace| - 1;
      TotalsCountEachReportOnce(cfg, start, trace[..n]);
      AlwaysWellFormed(cfg, start, trace[..n]);
      StepTallies(cfg, Exec(cfg, start, trace[..n]), trace[n].action, trace[n].at, Reports(cfg, start, trace[..n]));
    }
  }

  // ----- the total shown ----------------------------------------------------------------------

  /** The newest heartbeat of every slot that has not finished, on one counter. */
  function PendingAt(leases: seq<Lease>, samples: seq<Sample>, key: string): nat {
    if leases == [] then 0
    else
      var l := leases[|leases| - 1];
      PendingAt(leases[..|leases| - 1], samples, key)
      + (if l.state.Done? then 0 else At(NewestCounters(samples, l.slot), key))
  }

  lemma {:induction false} PendingTotalsAt(leases: seq<Lease>, samples: seq<Sample>, key: string)
    ensures At(PendingTotals(leases, samples), key) == PendingAt(leases, samples, key)
  {
    if leases != [] {
      hide NewestCounters, Fold;
      PendingTotalsAt(leases[..|leases| - 1], samples, key);
    }
  }

  /** live_totals: every report once, and every unfinished slot once by its newest
      heartbeat. */
  lemma ShownTotal(cfg: Settings, start: Run, trace: seq<Timed>, key: string)
    requires Launched(start) && NoForcedStop(trace)
    ensures var r := Exec(cfg, start, trace);
            At(LiveTotals(r), key) == Reported(Reports(cfg, start, trace), key) + PendingAt(r.leases, r.samples, key)
  {
    hide Exec, Reports, Launched, OncePerId, DoneMeansReported, AllDrawn, Reported, PendingTotals, PendingAt;
    TotalsCountEachReportOnce(cfg, start, trace);
    PendingTotalsAt(Exec(cfg, start, trace).leases, Exec(cfg, start, trace).samples, key);
  }

  // ----- forced stops ---------------------------------------------------------------------------

  /** The newest heartbeat of every slot that is lost or was never claimed. */
  function StrandedAt(leases: seq<Lease>, samples: seq<Sample>, key: string): nat {
    if leases == [] then 0
    else
      var l := leases[|leases| - 1];
      StrandedAt(leases[..|leases| - 1], samples, key)
      + (if l.state.Claimable() then At(NewestCounters(samples, l.slot), key) else 0)
  }

  lemma {:induction false} FinalisedPending(leases: seq<Lease>, samples: seq<Sample>, key: string)
    ensures PendingAt(Each(leases, Finalise), samples, key) == StrandedAt(leases, samples, key)
  {
    hide NewestCounters, Each;
    var b := Each(leases, Finalise);
    if leases != [] {
      var n := |leases| - 1;
      FinalisedPending(leases[..n], samples, key);
      assert b[..n] == Each(leases[..n], Finalise);
      assert b[n] == Changed(leases[n], Finalise);
    }
  }

  lemma {:induction false} PendingKeys(leases: seq<Lease>, samples: seq<Sample>)
    ensures PendingTotals(leases, samples).Keys <= LIVE_KEYS
  {
    if leases != [] {
      hide NewestCounters;
      PendingKeys(leases[..|leases| - 1], samples);
    }
  }

  lemma FoldedTotals(r: Run, key: string)
    ensures At(HeartbeatsFolded(r).totals, key) == At(LiveTotals(r), key)
  {
    hide PendingTotals;
    PendingKeys(r.leases, r.samples);
  }

  /** A forced stop adds what the lost and unclaimed slots last reported a second time: it
      is folded into the totals, and the view goes on adding it. */
  lemma ForcedStopShows(r: Run, now: real, key: string)
    requires !r.state.Terminal()
    ensures At(LiveTotals(Stop(r, true, now)), key)
         == At(LiveTotals(r), key) + StrandedAt(r.leases, r.samples, key)
  {
    hide Each, PendingTotals, MayComplete, TerminalStateFor, DefaultEndReason, PausedSeconds, HeartbeatsFolded,
         NewestCounters, StrandedAt, PendingAt;
    var draining := Transition(EndPause(r, now), Draining, Some(OperatorStop), now);
    FoldedTotals(draining, key);
    FoldedFields(draining);
    var s := Stop(r, true, now);
    PendingTotalsAt(s.leases, s.samples, key);
    FinalisedPending(r.leases, r.samples, key);
  }

  lemma FoldedFields(r: Run)
    ensures HeartbeatsFolded(r) == r.(totals := HeartbeatsFolded(r).totals)
  {
    hide LiveTotals;
  }

  ghost predicate SameShownTotal(r: Run, s: Run) {
    forall key: string :: At(LiveTotals(s), key) == At(LiveTotals(r), key)
  }

  ghost predicate NothingStranded(r: Run) {
    forall key: string :: StrandedAt(r.leases, r.samples, key) == 0
  }

  /** So the total shown survives a forced stop exactly when no lost or unclaimed slot has
      counted anything. */
  lemma ForcedStopPreservesShownTotalIff(r: Run, now: real)
    requires !r.state.Terminal()
    ensures SameShownTotal(r, Stop(r, true, now)) <==> NothingStranded(r)
  {
    hide Stop, LiveTotals, StrandedAt, At;
    var s := Stop(r, true, now);
    if SameShownTotal(r, s) {
      forall key: string ensures StrandedAt(r.leases, r.samples, key) == 0 {
        ForcedStopShows(r, now, key);
        assert At(LiveTotals(s), key) == At(LiveTotals(r), key);
      }
    }
    if NothingStranded(r) {
      forall key: string ensures At(LiveTotals(s), key) == At(LiveTotals(r), key) {
        ForcedStopShows(r, now, key);
        assert StrandedAt(r.leases, r.samples, key) == 0;
      }
    }
  }

  // ----- a run whose total is counted twice ---------------------------------------------------------

  /** One worker at ten events a second, and its slot as it goes through the history below. */
  const LONE_SPEC := Snapshot(false, Eps, Some(10.0), 1, None, false, false, None)

  function LoneLease(id: LeaseId, holder: Option<string>, state: LeaseState, lastHb: Option<real>): Lease {
    Lease(0, id, holder, state, lastHb, None, 0, PlainShare(Share(Eps, 10.0)))
  }

  function LoneRun(lease: Lease, samples: seq<Sample>, minted: nat): Run {
    Run(Provisioning, 0.0, None, None, None, false, None, 0.0, LONE_SPEC, [lease], samples, map[],
        [StateChange(0.0, Pending, Preparing), StateChange(0.0, Preparing, Provisioning)], minted)
  }

  function LoneBeat(n: nat): Beat { Beat(map["events_total" := n], false, true, None, None) }

  lemma LoneLaunch()
    ensures Provision(LONE_SPEC, true, 0.0) == Success(LoneRun(LoneLease(0, None, Free, None), [], 1))
    ensures Launched(LoneRun(LoneLease(0, None, Free, None), [], 1))
  {
    assert EvenQuota(10.0, 1) == 10.0;
    var shares := EqualShares(Eps, Some(10.0), 1).value;
    assert shares == [Share(Eps, 10.0)];
    assert SeedLeases(shares) == [LoneLease(0, None, Free, None)];
    var blank := Run(Pending, 0.0, None, None, None, false, None, 0.0, LONE_SPEC, [], [], map[], [], 0);
    var seeded := Transition(blank, Preparing, None, 0.0).(leases := [LoneLease(0, None, Free, None)], minted := 1);
    assert Transition(seeded, Provisioning, None, 0.0) == LoneRun(LoneLease(0, None, Free, None), [], 1);
  }

  lemma LoneClaim()
    ensures Claim(LoneRun(LoneLease(0, None, Free, None), [], 1), "w", None, 1.0) ==
            LoneRun(LoneLease(1, Some("w"), Claimed, Some(1.0)), [], 2)
  {
    hide EqualShares;
    var r := LoneRun(LoneLease(0, None, Free, None), [], 1);
    assert HeldBy(r.leases, "w") == None;
    assert LowestClaimable(r.leases) == Some(0);
  }

  lemma LoneHeartbeat(n: nat)
    ensures Heartbeat(LoneRun(LoneLease(1, Some("w"), Claimed, Some(1.0)), [], 2), 0, Some(1), LoneBeat(n), 2.0).0 ==
            LoneRun(LoneLease(1, Some("w"), Claimed, Some(2.0)), [Sample(0, 2.0, map["events_total" := n])], 2)
  {
    var r := LoneRun(LoneLease(1, Some("w"), Claimed, Some(1.0)), [], 2);
    assert Is(r.leases[0], AtSlot(0));
    assert HolderIndex(r.leases, 0, Some(1)) == Some(0);
  }

  lemma LoneLapse(cfg: Settings, samples: seq<Sample>)
    ensures Tick(cfg, LoneRun(LoneLease(1, Some("w"), Claimed, Some(2.0)), samples, 2), 0.0, 100.0) ==
            LoneRun(LoneLease(1, Some("w"), Lost, Some(2.0)), samples, 2)
  {
    hide OpenSince, DrainSince, RecentDeltas;
    var r := LoneRun(LoneLease(1, Some("w"), Claimed, Some(2.0)), samples, 2);
    assert Each(r.leases, Lapse(0.0, 0.0, 100.0)) == [LoneLease(1, Some("w"), Lost, Some(2.0))];
    NoAuthFailures(r.events);
  }

  lemma NoAuthFailures(events: seq<Event>)
    requires forall e :: e in events ==> !e.AuthFailed?
    ensures AuthFailedSlots(events) == {}
  {
  }

  /** The history: claimed, one heartbeat of n events, then silence until the lease lapses. */
  function LoneTrace(n: nat): seq<Timed> {
    [Timed(DoClaim("w", None), 1.0), Timed(DoHeartbeat(0, Some(1), LoneBeat(n)), 2.0), Timed(DoTick(0.0), 100.0)]
  }

  lemma LoneExec(cfg: Settings, n: nat)
    ensures Exec(cfg, LoneRun(LoneLease(0, None, Free, None), [], 1), LoneTrace(n)) ==
            LoneRun(LoneLease(1, Some("w"), Lost, Some(2.0)), [Sample(0, 2.0, map["events_total" := n])], 2)
  {
    hide Claim, Heartbeat, Tick, LoneRun;
    var start := LoneRun(LoneLease(0, None, Free, None), [], 1);
    var t := LoneTrace(n);
    assert t[..2][..1] == t[..1] && t[..1][..0] == [];
    LoneClaim();
    LoneHeartbeat(n);
    LoneLapse(cfg, [Sample(0, 2.0, map["events_total" := n])]);
    assert Exec(cfg, start, t[..1]) == Claim(start, "w", None, 1.0);
    assert Exec(cfg, start, t[..2]) == Heartbeat(Exec(cfg, start, t[..1]), 0, Some(1), LoneBeat(n), 2.0).0;
  }

  /** A reachable run that shows n events, and twice n once it is stopped by force. */
  lemma ForcedStopCountsTwice(cfg: Settings, n: nat)
    ensures var start := LoneRun(LoneLease(0, None, Free, None), [], 1);
            var r := Exec(cfg, start, LoneTrace(n));
            && Launched(start) && At(LiveTotals(r), "events_total") == n
            && At(LiveTotals(Stop(r, true, 101.0)), "events_total") == 2 * n
  {
    hide Exec, Launched, Stop, LiveTotals;
    LoneLaunch();
    LoneExec(cfg, n);
    var lease, sample := LoneLease(1, Some("w"), Lost, Some(2.0)), Sample(0, 2.0, map["events_total" := n]);
    ForcedStopShows(LoneRun(lease, [sample], 2), 101.0, "events_total");
    LoneTotal(lease, sample, n);
  }

  lemma LoneTotal(lease: Lease, sample: Sample, n: nat)
    requires lease.slot == 0 && lease.state.Lost? && sample == Sample(0, 2.0, map["events_total" := n])
    ensures At(LiveTotals(LoneRun(lease, [sample], 2)), "events_total") == n
    ensures StrandedAt([lease], [sample], "events_total") == n
  {
    assert [sample][..0] == [] && [lease][..0] == [];
    assert NewestTwo([], 0) == [];
    assert NewestTwo([sample], 0) == [sample];
    assert At(NewestCounters([sample], 0), "events_total") == n;
    PendingTotalsAt([lease], [sample], "events_total");
    assert PendingAt([], [sample], "events_total") == 0;
  }
}
