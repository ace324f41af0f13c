/** What each lease holder has been told: its share, and when to start.

    The ledger is an outside observer's notebook: it keeps what each answer of the control
    plane said, and forgets nothing. A claim is answered with the lease's stored share, so
    that share is noted as told at that moment; later changes to the lease are not. */
module Dialogue {
  import opened Basics
  import opened Apportion
  import opened RunModel
  import opened Lifecycle
  import opened Frames

  datatype Ledger = Ledger(
    owner: map<LeaseId, string>,     // who was handed the id
    told: map<LeaseId, Share>,       // the share last sent to it
    released: set<LeaseId>,          // answered "release" at least once
    lost: set<LeaseId>)              // on a lost lease at some point

  const Blank := Ledger(map[], map[], {}, {})

  function LostIds(leases: seq<Lease>): set<LeaseId> {
    set i | 0 <= i < |leases| && leases[i].state.Lost? :: leases[i].id
  }

  /** The answers of one step, entered in the notebook. */
  function Entered(r: Run, a: Action, s: Run, now: real, k: Ledger): Ledger {
    match a
    case DoClaim(holder, hint) =>
      (match GrantFor(r, holder, hint)
       case Issue(i) =>
         if i < |s.leases| then
           k.(owner := k.owner[s.leases[i].id := holder],
              told := k.told[s.leases[i].id := s.leases[i].share.rate])
         else k
       case Held(i) =>
         if i < |s.leases| then k.(told := k.told[s.leases[i].id := s.leases[i].share.rate]) else k
       case Refused => k)
    case DoHeartbeat(slot, id, beat) =>
      (match Heartbeat(r, slot, id, beat, now).1
       case Release(_) => if id.Some? then k.(released := k.released + {id.value}) else k
       case Retarget(share) => if id.Some? then k.(told := k.told[id.value := share]) else k
       case _ => k)
    case _ => k
  }

  function Observe(r: Run, a: Action, s: Run, now: real, k: Ledger): Ledger {
    var e := Entered(r, a, s, now, k);
    e.(lost := e.lost + LostIds(s.leases))
  }

  /** The notebook after a whole history. */
  function Notes(cfg: Settings, start: Run, trace: seq<Timed>): Ledger {
    if trace == [] then Blank
    else
      var n := |trace| - 1;
      var r := Exec(cfg, start, trace[..n]);
      Observe(r, trace[n].action, Exec(cfg, start, trace), trace[n].at, Notes(cfg, start, trace[..n]))
  }

  /** A lease whose id was never lost is known to its holder: the share on it has been
      sent or is marked to be, and nobody generates who was not told to. */
  predicate Informed(l: Lease, k: Ledger) {
    && (l.state.Lost? ==> l.id in k.lost)
    && (l.holder.Some? ==> l.id in k.owner && k.owner[l.id] == l.holder.value)
    && (l.holder.None? ==> l.id !in k.owner)
    && (l.state.Live() && l.id !in k.lost ==>
          && l.holder.Some?
          && l.id in k.told
          && (l.share.retarget || k.told[l.id] == l.share.rate)
          && (l.state.Running? ==> l.id in k.released))
  }

  /** The notebook speaks of no id that is still to be drawn. */
  predicate Drawn(k: Ledger, minted: nat) {
    && (forall id :: id in k.owner ==> id < minted)
    && (forall id :: id in k.lost ==> id < minted)
  }

  predicate AllInformed(r: Run, k: Ledger) {
    Drawn(k, r.minted) && forall i :: 0 <= i < |r.leases| ==> Informed(r.leases[i], k)
  }

  // ----- steps that say nothing to anybody ----------------------------------------------

  /** A lease after such a step: nobody came to life or began to generate, and a live
      lease's share is unchanged or marked to be sent. */
  predicate Calm(l: Lease, m: Lease) {
    && m.id == l.id && m.holder == l.holder
    && (m.state.Live() ==>
          && l.state.Live()
          && (m.share.retarget || (m.share.rate == l.share.rate && m.share.retarget == l.share.retarget))
          && (m.state.Running? ==> l.state.Running?))
  }

  predicate AllCalm(a: seq<Lease>, b: seq<Lease>) {
    |a| == |b| && forall i :: 0 <= i < |a| ==> Calm(a[i], b[i])
  }

  lemma CalmRefl(a: seq<Lease>)
    ensures AllCalm(a, a)
  {
  }

  lemma CalmTrans(a: seq<Lease>, b: seq<Lease>, c: seq<Lease>)
    requires AllCalm(a, b) && AllCalm(b, c)
    ensures AllCalm(a, c)
  {
    forall i | 0 <= i < |a| ensures Calm(a[i], c[i]) {
      assert Calm(a[i], b[i]) && Calm(b[i], c[i]);
    }
  }

  lemma EachIsCalm(a: seq<Lease>, c: Change)
    ensures AllCalm(a, Each(a, c))
  {
    var b := Each(a, c);
    hide Each;
    forall i | 0 <= i < |a| ensures Calm(a[i], b[i]) {
      assert b[i] == Changed(a[i], c);
    }
  }

  lemma ReadySplitIsCalm(r: Run)
    ensures AllCalm(r.leases, ReadySplit(r))
  {
    hide EqualShares, Spread, Count;
    CalmRefl(r.leases);
    var shares := ShareList(r, Count(r.leases, Warmed));
    if shares.Success? {
      var b := Spread(r.leases, Warmed, None, shares.value);
      forall i | 0 <= i < |b| ensures Calm(r.leases[i], b[i]) {
        assert Is(r.leases[i], Warmed) || b[i] == r.leases[i];
      }
    }
  }

  lemma ReleaseIsCalm(r: Run, forcePartial: bool, now: real)
    ensures AllCalm(r.leases, EvaluateRelease(r, forcePartial, now).leases)
  {
    hide AllCalm, Each, ReadySplit, Any;
    CalmRefl(r.leases);
    var missed := r.(leases := Each(r.leases, MissRelease));
    EachIsCalm(r.leases, MissRelease);
    ReadySplitIsCalm(missed);
    CalmTrans(r.leases, missed.leases, ReadySplit(missed));
  }

  lemma RescaleIsCalm(r: Run, rate: real)
    ensures AllCalm(r.leases, Rescale(r, rate).leases)
  {
    hide AllCalm, Each, EqualShares;
    CalmRefl(r.leases);
    var shares := ShareList(r.(snap := r.snap.(rate := Some(rate))), |r.leases|);
    if shares.Success? {
      EachIsCalm(r.leases, Reassign(shares.value));
    }
  }

  lemma ChecksAreCalm(r: Run, boot: real, now: real)
    ensures AllCalm(r.leases, TickChecks(r, boot, now).leases)
  {
    hide AllCalm, Each, EvaluateRelease, Any, DurationOver, TooManyLost, TooManyAuthFailures;
    var lapsed := LapseLeases(r, boot, now);
    EachIsCalm(r.leases, Lapse(r.createdAt, boot, now));
    ReleaseIsCalm(lapsed, true, now);
    CalmTrans(r.leases, lapsed.leases, EvaluateRelease(lapsed, true, now).leases);
  }

  lemma TickIsCalm(cfg: Settings, r: Run, boot: real, now: real)
    ensures AllCalm(r.leases, Tick(cfg, r, boot, now).leases)
  {
    hide AllCalm, Each, TickChecks, Rescale, FailingNow, OpenSince, SteppedRate, FloorRate, Judged, DrainSince,
         MayComplete, TerminalStateFor, DefaultEndReason;
    CalmRefl(r.leases);
    var checked := TickChecks(r, boot, now);
    ChecksAreCalm(r, boot, now);
    if HasRate(checked) {
      RescaleIsCalm(Noted(checked), SteppedRate(cfg, checked));
      CalmTrans(r.leases, checked.leases, Rescale(Noted(checked), SteppedRate(cfg, checked)).leases);
    }
    var judged := CheckBackpressure(cfg, checked, now);
    assert AllCalm(r.leases, judged.leases);
    EachIsCalm(judged.leases, GiveUp);
    CalmTrans(r.leases, judged.leases, Each(judged.leases, GiveUp));
  }

  lemma FinalIsCalm(r: Run, slot: nat, id: Option<LeaseId>, summary: Counters, now: real)
    ensures AllCalm(r.leases, Final(r, slot, id, summary, now).leases)
  {
    hide SlotIndex, MayComplete, TerminalStateFor, DefaultEndReason, Fold;
  }

  lemma ReadyIsCalm(r: Run, slot: nat, id: Option<LeaseId>, now: real)
    ensures AllCalm(r.leases, MarkReady(r, slot, id, now).leases)
  {
    hide HolderIndex;
  }

  lemma StopAndReconcileAreCalm(r: Run, force: bool, probe: Probe, now: real)
    ensures AllCalm(r.leases, Stop(r, force, now).leases)
    ensures AllCalm(r.leases, Reconcile(r, probe, now).leases)
  {
    hide AllCalm, Each, LiveTotals, MayComplete, TerminalStateFor, DefaultEndReason;
    CalmRefl(r.leases);
    EachIsCalm(r.leases, Finalise);
    EachIsCalm(r.leases, GiveUp);
  }

  lemma CalmStep(cfg: Settings, r: Run, a: Action, now: real)
    requires !a.DoClaim? && !a.DoHeartbeat? && !a.DoScale?
    ensures AllCalm(r.leases, Step(cfg, r, a, now).leases)
  {
    hide AllCalm, EvaluateRelease, Final, Stop, Rescale, Tick, Reconcile, MarkReady, PausedSeconds;
    match a
    case DoEvaluate => ReleaseIsCalm(r, false, now);
    case DoFinal(slot, id, summary) => FinalIsCalm(r, slot, id, summary, now);
    case DoReady(slot, id) => ReadyIsCalm(r, slot, id, now);
    case DoStop(force) => StopAndReconcileAreCalm(r, force, NoRef, now);
    case DoRescale(rate) => RescaleIsCalm(r, rate);
    case DoTick(boot) => TickIsCalm(cfg, r, boot, now);
    case DoReconcile(probe) => StopAndReconcileAreCalm(r, false, probe, now);
    case _ => CalmRefl(r.leases);
  }

  lemma CalmKeepsInformed(l: Lease, m: Lease, k: Ledger, k': Ledger)
    requires Informed(l, k) && Calm(l, m)
    requires k'.owner == k.owner && k'.told == k.told && k'.released == k.released && k.lost <= k'.lost
    requires m.state.Lost? ==> m.id in k'.lost
    ensures Informed(m, k')
  {
  }

  lemma CalmStepKeepsInformed(cfg: Settings, r: Run, a: Action, now: real, k: Ledger)
    requires WellFormed(r) && AllInformed(r, k)
    requires !a.DoClaim? && !a.DoHeartbeat? && !a.DoScale?
    ensures AllInformed(Step(cfg, r, a, now), Observe(r, a, Step(cfg, r, a, now), now, k))
  {
    hide Splittable, Informed, Step, Calm;
    var s := Step(cfg, r, a, now);
    CalmStep(cfg, r, a, now);
    StepKeepsShape(cfg, r, a, now);
    CalmStepKeepsMinted(cfg, r, a, now);
    forall i | 0 <= i < |s.leases| ensures Informed(s.leases[i], Observe(r, a, s, now, k)) {
      CalmKeepsInformed(r.leases[i], s.leases[i], k, Observe(r, a, s, now, k));
    }
  }

  lemma CalmStepKeepsMinted(cfg: Settings, r: Run, a: Action, now: real)
    requires !a.DoClaim? && !a.DoScale?
    ensures Step(cfg, r, a, now).minted == r.minted
  {
    hide EvaluateRelease, Heartbeat, Final, Rescale, Tick, Each, LiveTotals, MayComplete, TerminalStateFor,
         DefaultEndReason, HolderIndex, SameGrants, PausedSeconds;
    match a
    case DoEvaluate => ReleaseKeepsFleet(r, false, now);
    case DoHeartbeat(slot, id, beat) => HeartbeatMinted(r, slot, id, beat, now);
    case DoFinal(slot, id, summary) => FinalMinted(r, slot, id, summary, now);
    case DoRescale(rate) => RescaleKeepsFleet(r, rate);
    case DoTick(boot) => TickKeepsFleet(cfg, r, boot, now);
    case _ =>
  }

  lemma HeartbeatMinted(r: Run, slot: nat, id: Option<LeaseId>, beat: Beat, now: real)
    ensures Heartbeat(r, slot, id, beat, now).0.minted == r.minted
  {
    hide HolderIndex, CommandFor, Reported;
    var i := HolderIndex(r.leases, slot, id);
    if i.Some? {
      CommandKeepsIds(Renewed(r, i.value, beat, now), i.value, beat.protocolOk, now);
    }
  }

  lemma FinalMinted(r: Run, slot: nat, id: Option<LeaseId>, summary: Counters, now: real)
    ensures Final(r, slot, id, summary, now).minted == r.minted
  {
    hide SlotIndex, MayComplete, TerminalStateFor, DefaultEndReason, Fold;
  }

  // ----- scaling ------------------------------------------------------------------------

  lemma ScaledLeases(r: Run, workers: int, driverOk: bool, i: nat)
    requires WellFormed(r) && i < |Scale(r, workers, driverOk).leases|
    ensures var s := Scale(r, workers, driverOk);
            if i < |r.leases| then Calm(r.leases[i], s.leases[i])
            else !s.leases[i].state.Live() && s.leases[i].holder.None? && r.minted <= s.leases[i].id < s.minted
    ensures r.minted <= Scale(r, workers, driverOk).minted
  {
    hide Splittable, EqualShares, Each, Resized, Calm, AllCalm;
    CalmRefl(r.leases);
    CalmAt(r.leases, r.leases, i);
    var n := EffectiveWorkers(r.snap.replay, workers);
    var sized := Resized(r, n);
    var shares := ShareList(r, n);
    if shares.Success? {
      ResizedLease(r, n, i);
      EachIsCalm(sized.leases, Reassign(shares.value));
      CalmAt(sized.leases, Each(sized.leases, Reassign(shares.value)), i);
    }
  }

  lemma CalmAt(a: seq<Lease>, b: seq<Lease>, i: nat)
    requires AllCalm(a, b)
    ensures |a| == |b| && (i < |a| ==> Calm(a[i], b[i]) && (a[i].state.Free? ==> !b[i].state.Live()))
    ensures i < |a| ==> b[i].id == a[i].id && b[i].holder == a[i].holder
  {
  }

  lemma ResizedLease(r: Run, n: nat, i: nat)
    requires WellFormed(r)
    ensures |Resized(r, n).leases| == n && r.minted <= Resized(r, n).minted
    ensures i < n ==>
              var l := Resized(r, n).leases[i];
              if i < |r.leases| then l == r.leases[i]
              else l.state.Free? && l.holder.None? && r.minted <= l.id < Resized(r, n).minted
  {
    hide Splittable;
  }

  lemma ScaleKeepsInformed(cfg: Settings, r: Run, workers: int, driverOk: bool, now: real, k: Ledger)
    requires WellFormed(r) && AllInformed(r, k)
    ensures var a := DoScale(workers, driverOk);
            AllInformed(Step(cfg, r, a, now), Observe(r, a, Step(cfg, r, a, now), now, k))
  {
    hide WellFormed, Calm, Scale;
    var s := Scale(r, workers, driverOk);
    var k' := Observe(r, DoScale(workers, driverOk), s, now, k);
    forall i | 0 <= i < |s.leases| ensures Informed(s.leases[i], k') && s.leases[i].id < s.minted {
      ScaledLeases(r, workers, driverOk, i);
      ScaleKeepsShape(r, workers, driverOk);
      IdsDrawn(s, i);
      if i < |r.leases| {
        CalmKeepsInformed(r.leases[i], s.leases[i], k, k');
      }
    }
    if |s.leases| > 0 {
      ScaledLeases(r, workers, driverOk, 0);
    } else {
      ScaleKeepsShape(r, workers, driverOk);
      NotEmpty(s);
    }
  }

  lemma IdsDrawn(r: Run, i: nat)
    requires WellFormed(r) && i < |r.leases|
    ensures r.leases[i].id < r.minted
  {
    hide Splittable;
  }

  lemma NotEmpty(r: Run)
    requires WellFormed(r)
    ensures |r.leases| > 0
  {
    hide Splittable, LeasesInOrder;
  }

  // ----- claims ----------------------------------------------------------------------------

  lemma TakeoverIsCalm(r: Run, claimer: LeaseId, i: nat)
    requires i < |r.leases| && r.leases[i].id != claimer
    ensures |TakeoverSplit(r, claimer)| == |r.leases|
    ensures Calm(r.leases[i], TakeoverSplit(r, claimer)[i])
  {
    hide EqualShares, Spread, Count;
    var shares := ShareList(r, Count(r.leases, Pick.Live));
    if shares.Success? {
      var b := Spread(r.leases, Pick.Live, Some(claimer), shares.value);
      assert Is(r.leases[i], Pick.Live) || b[i] == r.leases[i];
    }
  }

  /** Issuing slot i: its lease is new in every respect, the others stay calm. */
  lemma IssuedLeases(r: Run, i: nat, holder: string, now: real, j: nat)
    requires WellFormed(r) && i < |r.leases| && j < |r.leases|
    ensures var m := IssueAt(r, i, holder, now).leases[j];
            if j == i then m.id == r.minted && m.holder == Some(holder) && m.state.Claimed?
            else Calm(r.leases[j], m)
  {
    hide Splittable, TakeoverSplit, SameButShares;
    var lease := Issued(r.leases[i], holder, r.minted, r.t0, now);
    var claimed := r.(leases := r.leases[i := lease], minted := r.minted + 1);
    SplitsKeepGrants(claimed, lease.id);
    SplitAt(claimed.leases, TakeoverSplit(claimed, lease.id), i);
    if j != i {
      assert claimed.leases[j] == r.leases[j];
      TakeoverIsCalm(claimed, lease.id, j);
    }
  }

  lemma SplitAt(a: seq<Lease>, b: seq<Lease>, i: nat)
    requires SameButShares(a, b) && i < |a|
    ensures |b| == |a| && b[i] == a[i].(share := b[i].share)
  {
  }

  lemma IssueKeepsInformed(r: Run, i: nat, holder: string, now: real, k: Ledger, k': Ledger)
    requires WellFormed(r) && i < |r.leases| && AllInformed(r, k)
    requires var s := IssueAt(r, i, holder, now);
             k' == k.(owner := k.owner[s.leases[i].id := holder],
                      told := k.told[s.leases[i].id := s.leases[i].share.rate],
                      lost := k.lost + LostIds(s.leases))
    ensures AllInformed(IssueAt(r, i, holder, now), k')
  {
    hide WellFormed, IssueAt, Calm;
    var s := IssueAt(r, i, holder, now);
    IssuedLeases(r, i, holder, now, i);
    IssueKeepsShape(r, i, holder, now);
    forall j | 0 <= j < |s.leases| ensures Informed(s.leases[j], k') && s.leases[j].id < s.minted {
      IssuedLeases(r, i, holder, now, j);
      IdsDrawn(r, j);
      IdsDrawn(s, j);
      if j != i {
        OthersStayInformed(r.leases[j], s.leases[j], k, k', r.minted, holder, s.leases[i].share.rate);
      } else {
        FreshIdNotLost(s, j, k, r.minted);
      }
    }
  }

  lemma FreshIdNotLost(s: Run, i: nat, k: Ledger, id: LeaseId)
    requires WellFormed(s) && i < |s.leases| && s.leases[i].id == id && !s.leases[i].state.Lost?
    requires id !in k.lost
    ensures id !in k.lost + LostIds(s.leases)
  {
    hide Splittable;
  }

  lemma OthersStayInformed(l: Lease, m: Lease, k: Ledger, k': Ledger, id: LeaseId, holder: string, rate: Share)
    requires Informed(l, k) && Calm(l, m) && l.id != id
    requires k'.owner == k.owner[id := holder] && k'.told == k.told[id := rate]
    requires k'.released == k.released && k.lost <= k'.lost
    requires m.state.Lost? ==> m.id in k'.lost
    ensures Informed(m, k')
  {
  }

  lemma ClaimKeepsInformed(cfg: Settings, r: Run, holder: string, hint: Option<nat>, now: real, k: Ledger)
    requires WellFormed(r) && AllInformed(r, k)
    ensures var a := DoClaim(holder, hint);
            AllInformed(Step(cfg, r, a, now), Observe(r, a, Step(cfg, r, a, now), now, k))
  {
    hide WellFormed, IssueAt, HeldBy, NextClaimable, AllInformed;
    var a := DoClaim(holder, hint);
    var s := Step(cfg, r, a, now);
    match GrantFor(r, holder, hint)
    case Issue(i) => IssueKeepsInformed(r, i, holder, now, k, Observe(r, a, s, now, k));
    case Held(i) => HeldKeepsInformed(r, i, now, k, Observe(r, a, s, now, k));
    case Refused => LostAlreadyNoted(r, k, Observe(r, a, s, now, k));
  }

  lemma LostAlreadyNoted(r: Run, k: Ledger, k': Ledger)
    requires WellFormed(r) && AllInformed(r, k)
    requires k' == k.(lost := k.lost + LostIds(r.leases))
    ensures AllInformed(r, k')
  {
    hide Splittable;
    assert LostIds(r.leases) <= k.lost;
    assert k' == k;
  }

  lemma HeldKeepsInformed(r: Run, i: nat, now: real, k: Ledger, k': Ledger)
    requires WellFormed(r) && AllInformed(r, k) && i < |r.leases| && r.leases[i].state.Live()
    requires var s := r.(leases := r.leases[i := r.leases[i].(lastHb := Some(now))]);
             k' == k.(told := k.told[r.leases[i].id := r.leases[i].share.rate], lost := k.lost + LostIds(s.leases))
    ensures AllInformed(r.(leases := r.leases[i := r.leases[i].(lastHb := Some(now))]), k')
  {
    hide Splittable;
    var s := r.leases[i := r.leases[i].(lastHb := Some(now))];
    assert forall j :: 0 <= j < |s| && s[j].state.Lost? ==> Informed(r.leases[j], k) && r.leases[j].id == s[j].id;
    assert LostIds(s) <= k.lost;
    forall j | 0 <= j < |s| ensures Informed(s[j], k') {
      assert Informed(r.leases[j], k);
      assert j != i ==> r.leases[j].id != r.leases[i].id;
    }
  }

  // ----- heartbeats --------------------------------------------------------------------------

  /** What one heartbeat does to the lease it renews, with its answer. */
  predicate Answered(l: Lease, m: Lease, cmd: Command) {
    && m.id == l.id && m.holder == l.holder
    && m.share.rate == l.share.rate
    && (m.state.Lost? ==> l.state.Lost?)
    && (m.state.Live() ==> l.state.Live() || l.state.Lost?)
    && (m.state.Running? ==> l.state.Running? || l.state.Lost? || cmd.Release?)
    && (m.share.retarget != l.share.retarget ==> cmd == Retarget(m.share.rate))
    && (cmd.Retarget? ==> cmd.share == m.share.rate)
  }

  lemma CommandAnswers(r: Run, i: nat, protocolOk: bool, now: real)
    requires i < |r.leases|
    ensures |CommandFor(r, i, protocolOk, now).0.leases| == |r.leases|
    ensures Answered(r.leases[i], CommandFor(r, i, protocolOk, now).0.leases[i], CommandFor(r, i, protocolOk, now).1)
  {
  }

  lemma HeartbeatAnswers(r: Run, slot: nat, id: Option<LeaseId>, beat: Beat, now: real, j: nat)
    requires WellFormed(r) && j < |r.leases|
    ensures var (s, cmd) := Heartbeat(r, slot, id, beat, now);
            && |s.leases| == |r.leases|
            && (if id == Some(r.leases[j].id) && slot == j then Answered(r.leases[j], s.leases[j], cmd)
                else s.leases[j] == r.leases[j])
    ensures id != Some(r.leases[j].id) || slot == j || Heartbeat(r, slot, id, beat, now).1.Superseded?
  {
    hide Splittable, CommandFor, First;
    var i := HolderIndex(r.leases, slot, id);
    if i.Some? {
      var renewed := Renewed(r, i.value, beat, now);
      CommandAnswers(renewed, i.value, beat.protocolOk, now);
      CommandLeases(renewed, i.value, beat.protocolOk, now);
    }
  }

  lemma AnswerKeepsInformed(l: Lease, m: Lease, cmd: Command, k: Ledger, k': Ledger)
    requires Informed(l, k) && Answered(l, m, cmd)
    requires k'.owner == k.owner && k.lost <= k'.lost
    requires k'.released == if cmd.Release? then k.released + {l.id} else k.released
    requires k'.told == if cmd.Retarget? then k.told[l.id := cmd.share] else k.told
    requires m.state.Lost? ==> m.id in k'.lost
    ensures Informed(m, k')
  {
  }

  lemma BystanderStaysInformed(l: Lease, cmd: Command, id: LeaseId, k: Ledger, k': Ledger)
    requires Informed(l, k) && (l.id != id || cmd.Superseded?)
    requires k'.owner == k.owner && k.lost <= k'.lost
    requires k'.released == if cmd.Release? then k.released + {id} else k.released
    requires k'.told == if cmd.Retarget? then k.told[id := cmd.share] else k.told
    ensures Informed(l, k')
  {
  }

  lemma HeartbeatKeepsInformed(
    cfg: Settings, r: Run, slot: nat, id: Option<LeaseId>, beat: Beat, now: real, k: Ledger)
    requires WellFormed(r) && AllInformed(r, k)
    ensures var a := DoHeartbeat(slot, id, beat);
            AllInformed(Step(cfg, r, a, now), Observe(r, a, Step(cfg, r, a, now), now, k))
  {
    hide WellFormed, Heartbeat, Informed, Answered;
    var a := DoHeartbeat(slot, id, beat);
    var s, cmd := Heartbeat(r, slot, id, beat, now).0, Heartbeat(r, slot, id, beat, now).1;
    var k' := Observe(r, a, s, now, k);
    CalmStepKeepsMinted(cfg, r, a, now);
    NoIdIsSuperseded(r, slot, beat, now);
    HeartbeatKeepsShape(r, slot, id, beat, now);
    NotEmpty(r);
    HeartbeatAnswers(r, slot, id, beat, now, 0);
    forall j | 0 <= j < |s.leases| ensures Informed(s.leases[j], k') && s.leases[j].id < s.minted {
      HeartbeatAnswers(r, slot, id, beat, now, j);
      IdsDrawn(s, j);
      if id == Some(r.leases[j].id) && slot == j {
        AnsweredId(r.leases[j], s.leases[j], cmd);
        AnswerKeepsInformed(r.leases[j], s.leases[j], cmd, k, k');
      } else {
        BystanderStaysInformed(r.leases[j], cmd, if id.Some? then id.value else 0, k, k');
      }
    }
  }

  lemma AnsweredId(l: Lease, m: Lease, cmd: Command)
    requires Answered(l, m, cmd)
    ensures m.id == l.id
  {
  }

  lemma NoIdIsSuperseded(r: Run, slot: nat, beat: Beat, now: real)
    ensures Heartbeat(r, slot, None, beat, now) == (r, Superseded)
  {
    hide First, CommandFor;
  }

  // ----- every history -------------------------------------------------------------------------

  lemma StepKeepsInformed(cfg: Settings, r: Run, a: Action, now: real, k: Ledger)
    requires WellFormed(r) && AllInformed(r, k)
    ensures AllInformed(Step(cfg, r, a, now), Observe(r, a, Step(cfg, r, a, now), now, k))
  {
    hide WellFormed, AllInformed, Observe, Step;
    match a
    case DoClaim(holder, hint) => ClaimKeepsInformed(cfg, r, holder, hint, now, k);
    case DoHeartbeat(slot, id, beat) => HeartbeatKeepsInformed(cfg, r, slot, id, beat, now, k);
    case DoScale(workers, driverOk) => ScaleKeepsInformed(cfg, r, workers, driverOk, now, k);
    case _ => CalmStepKeepsInformed(cfg, r, a, now, k);
  }

  lemma LaunchIsInformed(r: Run)
    requires Launched(r)
    ensures AllInformed(r, Blank)
  {
    hide EqualShares;
    var spec: Snapshot, ok: bool :| Provision(spec, ok, r.createdAt) == Success(r);
  }

  lemma {:induction false} AlwaysInformed(cfg: Settings, start: Run, trace: seq<Timed>)
    requires Launched(start)
    ensures AllInformed(Exec(cfg, start, trace), Notes(cfg, start, trace))
  {
    hide WellFormed, AllInformed, Observe, Step, Launched;
    if trace == [] {
      LaunchIsInformed(start);
    } else {
      var n := |trace| - 1;
      AlwaysInformed(cfg, start, trace[..n]);
      AlwaysWellFormed(cfg, start, trace[..n]);
      StepKeepsInformed(cfg, Exec(cfg, start, trace[..n]), trace[n].action, trace[n].at, Notes(cfg, start, trace[..n]));
    }
  }

  /** The id on a slot was handed to its holder; a live share that was changed is
      sent or still marked for sending; and nobody generates who was not released.
      All three for every slot, after every history, for ids never lost. */
  lemma SharesAndReleaseReachTheHolder(cfg: Settings, start: Run, trace: seq<Timed>, i: nat)
    requires Launched(start) && i < |Exec(cfg, start, trace).leases|
    ensures var l, k := Exec(cfg, start, trace).leases[i], Notes(cfg, start, trace);
            && (l.holder.Some? ==> l.id in k.owner && k.owner[l.id] == l.holder.value)
            && (l.state.Live() && l.id !in k.lost ==>
                  && l.id in k.told
                  && (l.share.retarget || k.told[l.id] == l.share.rate)
                  && (l.state.Running? ==> l.id in k.released))
  {
    hide Exec, Notes, Launched;
    AlwaysInformed(cfg, start, trace);
    assert Informed(Exec(cfg, start, trace).leases[i], Notes(cfg, start, trace));
  }

  // ----- where the guarantee stops -----------------------------------------------------------

  /** A lost lease takes a new share without a mark, and its holder does come back: the next
      heartbeat makes the lease live again and says nothing about the share it missed,
      whatever the run and the rate. */
  lemma LostHolderMissesARescale(r: Run, rate: real, i: nat, beat: Beat, now: real)
    requires WellFormed(r) && i < |r.leases| && r.leases[i].state.Lost?
    requires !r.state.Terminal() && !r.state.Draining? && beat.protocolOk
    requires Splittable(r.snap.mode, Some(rate))
    ensures var (s, cmd) := Heartbeat(Rescale(r, rate), i, Some(r.leases[i].id), beat, now);
            && i < |s.leases| && s.leases[i].state.Live() && !s.leases[i].share.retarget
            && s.leases[i].share.rate == Share(r.snap.mode, EqualValue(r.snap.mode, Some(rate), |r.leases|, i))
            && (cmd.Hold? || cmd.Continue?)
  {
    hide EqualValue, Splittable, First, Reported;
    var s := Rescale(r, rate);
    RescaleKeepsFleet(r, rate);
    SlotFound(s.leases, i, s.minted);
    ReportsKeepShare(s.leases[i].share, beat);
  }

  lemma SlotFound(leases: seq<Lease>, i: nat, minted: nat)
    requires LeasesInOrder(leases, minted) && i < |leases|
    ensures SlotIndex(leases, i) == Some(i)
  {
    hide First;
    assert Is(leases[i], AtSlot(i));
  }

  lemma ReportsKeepShare(doc: ShareDoc, beat: Beat)
    ensures Reported(doc, beat).rate == doc.rate && Reported(doc, beat).retarget == doc.retarget
  {
  }

  // ----- dead branches ---------------------------------------------------------------------------

  /** _heartbeat_command without the promotions to running in its pause, retarget and
      steady branches. */
  function CommandWithoutPromotions(run: Run, i: nat, protocolOk: bool, now: real): (Run, Command)
    requires i < |run.leases|
  {
    if run.state.Draining? || run.state.Terminal() || !protocolOk then (run, Drain)
    else
      var r := Recovered(run, i);
      var l := r.leases[i];
      if r.t0.Some? && (l.state.Claimed? || l.state.Ready?) then
        (if now >= r.t0.value then MaybeMarkRunning(WithState(r, i, LeaseState.Running), now) else r,
         Release(r.t0.value))
      else if r.state.Paused? then (r, Hold)
      else if l.share.retarget then
        (r.(leases := r.leases[i := l.(share := l.share.(retarget := false))]), Retarget(l.share.rate))
      else (r, Continue)
  }

  /** Those three promotions never fire: a lease is first promoted by the heartbeat that
      also answers release, so nobody is marked running without being told to start. */
  lemma PromotionsAreDead(r: Run, i: nat, protocolOk: bool, now: real)
    requires i < |r.leases|
    ensures CommandFor(r, i, protocolOk, now) == CommandWithoutPromotions(r, i, protocolOk, now)
  {
  }
}
