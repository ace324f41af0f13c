/** Backpressure's verdict, told from the heartbeats themselves. */
module Delivery {
  import opened Basics
  import opened Apportion
  import opened RunModel
  import opened Lifecycle
  import opened Frames
  import opened Dialogue
  import opened LiveView

  // ----- the heartbeats of a history -------------------------------------------------------------

  /** The heartbeats that were taken in, oldest first. */
  function Beats(cfg: Settings, start: Run, trace: seq<Timed>): seq<Sample> {
    if trace == [] then []
    else
      var n := |trace| - 1;
      var r, front := Exec(cfg, start, trace[..n]), Beats(cfg, start, trace[..n]);
      match trace[n].action
      case DoHeartbeat(slot, id, beat) =>
        if Heartbeat(r, slot, id, beat, trace[n].at).1.Superseded? then front
        else front + [Sample(slot, trace[n].at, beat.counters)]
      case _ => front
  }

  lemma CompletionKeepsSamples(r: Run, now: real)
    ensures MaybeComplete(r, now).samples == r.samples
  {
    hide MayComplete, TerminalStateFor, DefaultEndReason;
  }

  lemma RescaleKeepsSamples(r: Run, rate: real)
    ensures Rescale(r, rate).samples == r.samples
  {
    hide EqualShares, Each;
  }

  lemma ChecksKeepSamples(r: Run, boot: real, now: real)
    ensures TickChecks(r, boot, now).samples == r.samples
  {
    hide Any, Each, ReadySplit, DurationOver, TooManyLost, TooManyAuthFailures;
  }

  lemma TickKeepsSamples(cfg: Settings, r: Run, boot: real, now: real)
    ensures Tick(cfg, r, boot, now).samples == r.samples
  {
    hide Any, Each, TickChecks, OpenSince, FailingNow, Rescale, SteppedRate, FloorRate, DrainSince, MaybeComplete;
    var checked := TickChecks(r, boot, now);
    ChecksKeepSamples(r, boot, now);
    if HasRate(checked) {
      RescaleKeepsSamples(Noted(checked), SteppedRate(cfg, checked));
    }
    CompletionKeepsSamples(ReapDraining(CheckBackpressure(cfg, checked, now), now), now);
  }

  lemma CommandKeepsSamples(r: Run, i: nat, protocolOk: bool, now: real)
    requires i < |r.leases|
    ensures CommandFor(r, i, protocolOk, now).0.samples == r.samples
    ensures !CommandFor(r, i, protocolOk, now).1.Superseded?
  {
  }

  lemma HeartbeatAdds(r: Run, slot: nat, id: Option<LeaseId>, beat: Beat, now: real)
    ensures var (s, cmd) := Heartbeat(r, slot, id, beat, now);
            s.samples == if cmd.Superseded? then r.samples else r.samples + [Sample(slot, now, beat.counters)]
  {
    hide CommandFor, Reported, First;
    var i := HolderIndex(r.leases, slot, id);
    if i.Some? {
      CommandKeepsSamples(Renewed(r, i.value, beat, now), i.value, beat.protocolOk, now);
    }
  }

  lemma StepKeepsSamples(cfg: Settings, r: Run, a: Action, now: real)
    requires !a.DoHeartbeat?
    ensures Step(cfg, r, a, now).samples == r.samples
  {
    hide Claim, MarkReady, Scale, Rescale, Tick, MaybeComplete, Each, LiveTotals, SlotIndex, Fold, Any, ReadySplit,
         PausedSeconds;
    if a.DoClaim? || a.DoReady? || a.DoScale? || a.DoRescale? {
      QuietStep(cfg, r, a, now);
      return;
    }
    match a
    case DoTick(boot) => TickKeepsSamples(cfg, r, boot, now);
    case DoFinal(slot, id, summary) =>
      var i := SlotIndex(r.leases, slot);
      CompletionKeepsSamples(r, now);
      if i.Some? {
        CompletionKeepsSamples(WithState(r, i.value, Done).(totals := Fold(r.totals, summary)), now);
      }
    case DoStop(force) =>
      var folded := HeartbeatsFolded(Transition(EndPause(r, now), Draining, Some(OperatorStop), now));
      CompletionKeepsSamples(folded.(leases := Each(folded.leases, Finalise)), now);
    case _ =>
  }

  /** The stored samples are the heartbeats taken in, no more and no fewer, in their order. */
  lemma {:induction false} SamplesAreBeats(cfg: Settings, start: Run, trace: seq<Timed>)
    requires Launched(start)
    ensures Exec(cfg, start, trace).samples == Beats(cfg, start, trace)
  {
    hide Launched, Step, Heartbeat;
    if trace == [] {
      LaunchHasNone(start);
    } else {
      var n := |trace| - 1;
      var r := Exec(cfg, start, trace[..n]);
      SamplesAreBeats(cfg, start, trace[..n]);
      if trace[n].action.DoHeartbeat? {
        var a := trace[n].action;
        HeartbeatAdds(r, a.slot, a.id, a.beat, trace[n].at);
        HeartbeatIsStep(cfg, r, a, trace[n].at);
      } else {
        StepKeepsSamples(cfg, r, trace[n].action, trace[n].at);
      }
    }
  }

  lemma HeartbeatIsStep(cfg: Settings, r: Run, a: Action, now: real)
    requires a.DoHeartbeat?
    ensures Step(cfg, r, a, now) == Heartbeat(r, a.slot, a.id, a.beat, now).0
  {
    hide Heartbeat;
  }

  lemma LaunchHasNone(r: Run)
    requires Launched(r)
    ensures r.samples == []
  {
    hide EqualShares;
  }

  // ----- a slot's last two heartbeats -----------------------------------------------------------------

  /** Row j is the newest of its slot but for row i; of equal instants the first. */
  predicate NextNewest(beats: seq<Sample>, slot: nat, i: nat, j: nat) {
    && j < |beats| && j != i && beats[j].slot == slot
    && (forall k :: 0 <= k < |beats| && k != i && beats[k].slot == slot ==> beats[k].ts <= beats[j].ts)
    && (forall k :: 0 <= k < j && k != i && beats[k].slot == slot ==> beats[k].ts < beats[j].ts)
  }

  /** The last heartbeat of a slot is row i and the one before it row j. */
  predicate LastTwo(beats: seq<Sample>, slot: nat, i: nat, j: nat) {
    FirstNewest(beats, slot, i) && NextNewest(beats, slot, i, j)
  }

  /** What a function finds as the newest two are the last two of the list. */
  ghost predicate Finds(beats: seq<Sample>, slot: nat, two: seq<Sample>) {
    if |two| < 2 then
      forall i, j :: 0 <= i < |beats| && 0 <= j < |beats| && beats[i].slot == slot && beats[j].slot == slot ==> i == j
    else exists i: nat, j: nat ::
           i < |beats| && j < |beats| && LastTwo(beats, slot, i, j) && two == [beats[i], beats[j]]
  }

  lemma {:induction false} NewestTwoFinds(beats: seq<Sample>, slot: nat)
    ensures Finds(beats, slot, NewestTwo(beats, slot))
  {
    if beats != [] {
      var n := |beats| - 1;
      var front, s := beats[..n], beats[n];
      NewestTwoFinds(front, slot);
      var two := NewestTwo(front, slot);
      assert beats == front + [s];
      if s.slot == slot {
        OneMore(front, s, slot, two);
      } else {
        NoneMore(front, s, slot, two);
      }
    }
  }

  lemma NoneMore(front: seq<Sample>, s: Sample, slot: nat, two: seq<Sample>)
    requires Finds(front, slot, two) && s.slot != slot
    ensures Finds(front + [s], slot, two)
  {
    var beats := front + [s];
    assert forall k :: 0 <= k < |front| ==> beats[k] == front[k];
    if |two| >= 2 {
      var i: nat, j: nat :|
        i < |front| && j < |front| && LastTwo(front, slot, i, j) && two == [front[i], front[j]];
      assert LastTwo(beats, slot, i, j);
    }
  }

  lemma NewerComes(front: seq<Sample>, s: Sample, slot: nat, i: nat)
    requires FirstNewest(front, slot, i) && s.slot == slot && s.ts > front[i].ts
    ensures LastTwo(front + [s], slot, |front|, i)
  {
    var beats := front + [s];
    assert forall k :: 0 <= k < |front| ==> beats[k] == front[k];
  }

  lemma SecondComes(front: seq<Sample>, s: Sample, slot: nat, i: nat)
    requires FirstNewest(front, slot, i) && s.slot == slot && s.ts <= front[i].ts
    requires forall k :: 0 <= k < |front| && k != i && front[k].slot == slot ==> front[k].ts < s.ts
    ensures LastTwo(front + [s], slot, i, |front|)
  {
    var beats := front + [s];
    assert forall k :: 0 <= k < |front| ==> beats[k] == front[k];
  }

  lemma OlderComes(front: seq<Sample>, s: Sample, slot: nat, i: nat, j: nat)
    requires LastTwo(front, slot, i, j) && s.ts <= front[j].ts
    ensures LastTwo(front + [s], slot, i, j)
  {
    var beats := front + [s];
    assert forall k :: 0 <= k < |front| ==> beats[k] == front[k];
  }

  lemma OneMore(front: seq<Sample>, s: Sample, slot: nat, two: seq<Sample>)
    requires Finds(front, slot, two) && s.slot == slot && two == NewestTwo(front, slot)
    ensures Finds(front + [s], slot, NewestTwo(front + [s], slot))
  {
    var beats, n := front + [s], |front|;
    assert beats[..n] == front && beats[n] == s;
    assert forall k :: 0 <= k < n ==> beats[k] == front[k];
    assert NewestTwo(beats, slot) ==
           if |two| == 0 then [s]
           else if s.ts > two[0].ts then [s, two[0]]
           else if |two| == 1 then [two[0], s]
           else if s.ts > two[1].ts then [two[0], s] else two;
    hide NewestTwo, LastTwo;
    if |two| == 0 {
      NoneOfSlot(front, slot);
    } else {
      var i := NewestRow(front, slot);
      if s.ts > two[0].ts {
        NewerComes(front, s, slot, i);
      } else if |two| == 1 {
        SecondComes(front, s, slot, i);
      } else {
        var i': nat, j: nat :| LastTwo(front, slot, i', j) && i' < n && j < n && two == [front[i'], front[j]];
        TwoRows(front, slot, i', j);
        if s.ts > two[1].ts {
          NextBounds(front, slot, i', j);
          SecondComes(front, s, slot, i');
        } else {
          OlderComes(front, s, slot, i', j);
        }
      }
    }
  }

  lemma NextBounds(front: seq<Sample>, slot: nat, i: nat, j: nat)
    requires LastTwo(front, slot, i, j)
    ensures FirstNewest(front, slot, i) && j < |front|
    ensures forall k :: 0 <= k < |front| && k != i && front[k].slot == slot ==> front[k].ts <= front[j].ts
  {
  }

  lemma NoneOfSlot(front: seq<Sample>, slot: nat)
    requires NewestTwo(front, slot) == []
    ensures forall k :: 0 <= k < |front| ==> front[k].slot != slot
  {
    var i := NewestRow(front, slot);
  }

  // ----- the verdict ------------------------------------------------------------------------------------

  /** Sends the target took, and sends it refused or let time out, so far. */
  function Taken(c: Counters): nat { At(c, "hec_2xx") }

  function Failed(c: Counters): nat { At(c, "hec_5xx") + At(c, "hec_timeouts") }

  function Rise(newer: nat, older: nat): nat { if newer > older then newer - older else 0 }

  /** By how much each count rose from a slot's last heartbeat but one to its last: (taken,
      failed). */
  ghost function Rises(beats: seq<Sample>, slot: nat): (nat, nat) {
    if exists i: nat, j: nat :: LastTwo(beats, slot, i, j) then
      var i: nat, j: nat :| LastTwo(beats, slot, i, j);
      (Rise(Taken(beats[i].counters), Taken(beats[j].counters)),
       Rise(Failed(beats[i].counters), Failed(beats[j].counters)))
    else (0, 0)
  }

  lemma OnlyTwo(beats: seq<Sample>, slot: nat, i: nat, j: nat, i': nat, j': nat)
    requires LastTwo(beats, slot, i, j) && LastTwo(beats, slot, i', j')
    ensures i == i' && j == j'
  {
  }

  lemma RisesAre(beats: seq<Sample>, slot: nat)
    ensures Rises(beats, slot) == (OkDelta(beats, slot), FailDelta(beats, slot))
  {
    hide FirstNewest, NextNewest, NewestTwo;
    NewestTwoFinds(beats, slot);
    var two := NewestTwo(beats, slot);
    if i: nat, j: nat :| LastTwo(beats, slot, i, j) {
      if |two| < 2 {
        TwoRows(beats, slot, i, j);
      } else {
        var i': nat, j': nat :|
          i' < |beats| && j' < |beats| && LastTwo(beats, slot, i', j') && two == [beats[i'], beats[j']];
        forall k: nat, l: nat | LastTwo(beats, slot, k, l) ensures k == i' && l == j' {
          OnlyTwo(beats, slot, k, l, i', j');
        }
      }
    }
  }

  lemma TwoRows(beats: seq<Sample>, slot: nat, i: nat, j: nat)
    requires LastTwo(beats, slot, i, j)
    ensures i != j && i < |beats| && j < |beats| && beats[i].slot == slot && beats[j].slot == slot
  {
  }

  /** The rises of the live slots together. */
  ghost function LiveRises(leases: seq<Lease>, beats: seq<Sample>): (nat, nat) {
    if leases == [] then (0, 0)
    else
      var l, rest := leases[|leases| - 1], LiveRises(leases[..|leases| - 1], beats);
      if l.state.Live() then (rest.0 + Rises(beats, l.slot).0, rest.1 + Rises(beats, l.slot).1) else rest
  }

  lemma {:induction false} DeltasAreRises(leases: seq<Lease>, beats: seq<Sample>)
    ensures RecentDeltas(leases, beats) == LiveRises(leases, beats)
  {
    hide Rises, OkDelta, FailDelta;
    if leases != [] {
      DeltasAreRises(leases[..|leases| - 1], beats);
      RisesAre(beats, leases[|leases| - 1].slot);
    }
  }

  lemma FractionReached(fail: nat, all: nat, m: real)
    requires all > 0
    ensures fail as real / all as real >= m <==> fail as real >= m * all as real
  {
    var q := fail as real / all as real;
    assert q * all as real == fail as real;
    if q >= m {
      TimesAtLeast(q, m, all as real);
    } else {
      TimesMore(m, q, all as real);
    }
  }

  lemma TimesAtLeast(a: real, b: real, c: real)
    requires a >= b && c >= 0.0
    ensures a * c >= b * c
  {
  }

  lemma TimesMore(a: real, b: real, c: real)
    requires a > b && c > 0.0
    ensures a * c > b * c
  {
  }

  /** After every history delivery is failing exactly when, over the live slots' last two
      heartbeats, failed sends are at least the set fraction of all sends, and there were any. */
  lemma VerdictFromHeartbeats(cfg: Settings, start: Run, trace: seq<Timed>)
    requires Launched(start)
    ensures var r := Exec(cfg, start, trace);
            var (taken, failed) := LiveRises(r.leases, Beats(cfg, start, trace));
            FailingNow(cfg, r) <==>
              taken + failed > 0 && failed as real >= cfg.minFailedFraction * (taken + failed) as real
  {
    hide Launched, Exec, Beats, LiveRises, RecentDeltas;
    SamplesAreBeats(cfg, start, trace);
    var r := Exec(cfg, start, trace);
    DeltasAreRises(r.leases, r.samples);
    var (taken, failed) := LiveRises(r.leases, r.samples);
    if taken + failed > 0 {
      FractionReached(failed, taken + failed, cfg.minFailedFraction);
    }
  }

  /** No live slot had a failed send between its last two heartbeats. */
  ghost predicate NoneFailed(leases: seq<Lease>, beats: seq<Sample>) {
    forall k :: 0 <= k < |leases| && leases[k].state.Live() ==> Rises(beats, leases[k].slot).1 == 0
  }

  ghost predicate NoneTaken(leases: seq<Lease>, beats: seq<Sample>) {
    forall k :: 0 <= k < |leases| && leases[k].state.Live() ==> Rises(beats, leases[k].slot).0 == 0
  }

  lemma {:induction false} SumsVanish(leases: seq<Lease>, beats: seq<Sample>)
    ensures LiveRises(leases, beats).0 == 0 <==> NoneTaken(leases, beats)
    ensures LiveRises(leases, beats).1 == 0 <==> NoneFailed(leases, beats)
  {
    hide Rises;
    if leases != [] {
      var n := |leases| - 1;
      assert forall k :: 0 <= k < n ==> leases[..n][k] == leases[k];
      SumsVanish(leases[..n], beats);
    }
  }

  /** The leases a pass judges: those still live after its checks, on the same slots. */
  lemma ChecksOnlyLose(r: Run, boot: real, now: real, k: nat)
    requires k < |r.leases|
    ensures var s := TickChecks(r, boot, now);
            |s.leases| == |r.leases| && s.leases[k].slot == r.leases[k].slot
            && (s.leases[k].state.Live() ==> r.leases[k].state.Live())
  {
    hide TickChecks;
    ChecksAreCalm(r, boot, now);
    ChecksKeepFleet(r, boot, now);
    assert Calm(r.leases[k], TickChecks(r, boot, now).leases[k]);
  }

  /** A pass over a fleet whose last heartbeats show no failed send is never failing; one that
      shows failed sends and none taken is failing, whatever fraction is set. */
  lemma VerdictExtremes(cfg: Settings, start: Run, trace: seq<Timed>, boot: real, now: real)
    requires Launched(start) && 0.0 < cfg.minFailedFraction <= 1.0
    ensures var r, beats := Exec(cfg, start, trace), Beats(cfg, start, trace);
            var judged := TickChecks(r, boot, now);
            && (NoneFailed(r.leases, beats) ==> !FailingNow(cfg, judged))
            && (NoneTaken(r.leases, beats) && !NoneFailed(judged.leases, beats) ==> FailingNow(cfg, judged))
  {
    hide Launched, Exec, Beats, LiveRises, RecentDeltas, TickChecks, Rises;
    SamplesAreBeats(cfg, start, trace);
    var r, beats := Exec(cfg, start, trace), Beats(cfg, start, trace);
    var judged := TickChecks(r, boot, now);
    ChecksKeepSamples(r, boot, now);
    DeltasAreRises(judged.leases, beats);
    SumsVanish(judged.leases, beats);
    ChecksKeepFleet(r, boot, now);
    forall k | 0 <= k < |judged.leases| && judged.leases[k].state.Live()
      ensures r.leases[k].state.Live() && r.leases[k].slot == judged.leases[k].slot
    {
      ChecksOnlyLose(r, boot, now, k);
    }
    var (taken, failed) := LiveRises(judged.leases, beats);
    if taken + failed > 0 {
      FractionReached(failed, taken + failed, cfg.minFailedFraction);
      if failed == 0 {
        ProductIsPositive(cfg.minFailedFraction, (taken + failed) as real);
      } else if taken == 0 {
        TimesAtLeast(1.0, cfg.minFailedFraction, failed as real);
      }
    }
  }

  lemma ProductIsPositive(a: real, b: real)
    requires a > 0.0 && b > 0.0
    ensures a * b > 0.0
  {
  }

  /** Delivery is judged only where it is switched on, on a released run that is neither paused
      nor winding down and has a worker at work. */
  lemma JudgedOnlyWhileDelivering(cfg: Settings, r: Run, now: real)
    requires || !cfg.enabled || r.t0.None? || !(r.state.Running? || r.state.Releasing?)
             || forall i :: 0 <= i < |r.leases| ==> !r.leases[i].state.Live()
    ensures CheckBackpressure(cfg, r, now) == r
  {
    hide OpenSince, FailingNow, Rescale;
  }

  /** A pass that judges: what it writes down, and what it does when the failing has lasted. */
  lemma VerdictActs(cfg: Settings, r: Run, now: real, i: nat)
    requires cfg.enabled && r.t0.Some? && (r.state.Running? || r.state.Releasing?)
    requires i < |r.leases| && r.leases[i].state.Live()
    ensures var s, since := CheckBackpressure(cfg, r, now), OpenSince(r.events);
            && (!FailingNow(cfg, r) ==>
                  s == r.(events := r.events + (if since.Some? then [Cleared(now)] else [])))
            && (FailingNow(cfg, r) && since.None? ==> s == r.(events := r.events + [Detected(now)]))
            && (FailingNow(cfg, r) && since.Some? && now - since.value < cfg.sustainedS ==> s == r)
            && (FailingNow(cfg, r) && since.Some? && now - since.value >= cfg.sustainedS ==>
                  if cfg.stepDown && CanStep(cfg, r) then
                    s.degraded && s.state == r.state && s.events == r.events + [SteppedDown(now)]
                  else s.state.Draining? && s.endReason == Some(BackpressureDrain) && s.leases == r.leases)
  {
    hide OpenSince, FailingNow, Rescale, SteppedRate, FloorRate;
    assert Is(r.leases[i], Pick.Live);
    if HasRate(r) {
      StepKeepsState(Noted(r), SteppedRate(cfg, r));
    }
  }

  lemma StepKeepsState(r: Run, rate: real)
    ensures Rescale(r, rate).state == r.state
  {
    hide EqualShares, Each;
  }
}
