/** Samples through the whole of maintenance, pruning included, and what a run shows of them. */
module Retention {
  import opened Basics
  import opened RunModel
  import opened Lifecycle
  import opened LiveView
  import opened Rollup
  import opened Maintenance

  // ----- histories with pruning -------------------------------------------------------------------

  datatype Upkeep =
    | Sampled(ts: Instant, row: Row)
    | Collapsing(bucket: nat, cutoff: Instant)
    | Pruning(before: Instant)

  function Pruned(s: Series, before: Instant): Series { map t | t in s && before <= t :: s[t] }

  function Done(s: Series, w: Width, op: Upkeep): Series {
    match op
    case Sampled(ts, row) => s[ts := row]
    case Collapsing(b, c) => Collapsed(s, b, w, c)
    case Pruning(before) => Pruned(s, before)
  }

  function Upkept(w: Width, ops: seq<Upkeep>): Series {
    if ops == [] then map[] else Done(Upkept(w, ops[..|ops| - 1]), w, ops[|ops| - 1])
  }

  /** The counters of the newest sample, kept or not. */
  function LastSample(ops: seq<Upkeep>): Option<Counters> {
    if ops == [] then None
    else
      var op := ops[|ops| - 1];
      if op.Sampled? then Some(op.row.counters) else LastSample(ops[..|ops| - 1])
  }

  predicate InTime(ops: seq<Upkeep>) {
    forall i, j :: 0 <= i < j < |ops| && ops[i].Sampled? && ops[j].Sampled? ==> ops[i].ts < ops[j].ts
  }

  /** The instant the newest sample is stored under: its own, or its bucket's start from the
      first collapse that merges it with another row; none once a prune has passed that. */
  function StoredAt(w: Width, ops: seq<Upkeep>): Option<Instant> {
    if ops == [] then None
    else
      var front := ops[..|ops| - 1];
      var at := StoredAt(w, front);
      match ops[|ops| - 1]
      case Sampled(ts, _) => Some(ts)
      case Pruning(before) => if at.Some? && at.value < before then None else at
      case Collapsing(b, c) =>
        var m := Members(Upkept(w, front), b, w, c);
        if at.Some? && at.value in m && Several(m) then Some(BucketStart(b, w)) else at
  }

  /** Nothing is stored, or the newest row stored is the newest sample's. */
  predicate Keeps(s: Series, at: Option<Instant>, newest: Option<Counters>) {
    if at.None? then s == map[]
    else s.Keys != {} && Latest(s.Keys) == at.value && newest == Some(s[at.value].counters)
  }

  lemma PruneKeeps(s: Series, at: Option<Instant>, newest: Option<Counters>, before: Instant)
    requires Keeps(s, at, newest)
    ensures Keeps(Pruned(s, before), if at.Some? && at.value < before then None else at, newest)
  {
    hide Latest;
    if at.Some? {
      var r := Pruned(s, before);
      if at.value < before {
        assert r == map[];
      } else {
        LatestIs(r.Keys, at.value);
      }
    }
  }

  lemma CollapseKeeps(s: Series, at: Option<Instant>, newest: Option<Counters>, b: nat, w: Width, c: Instant)
    requires Keeps(s, at, newest)
    ensures var m := Members(s, b, w, c);
            Keeps(Collapsed(s, b, w, c),
                  if at.Some? && at.value in m && Several(m) then Some(BucketStart(b, w)) else at, newest)
  {
    hide BucketOf, BucketStart, Aggregate, Latest;
    if at.Some? {
      LatestAfterCollapse(s, b, w, c);
    } else {
      assert Members(s, b, w, c) == {};
    }
  }

  lemma SampleKeeps(s: Series, t: Instant, row: Row)
    requires Newer(s, t)
    ensures Keeps(s[t := row], Some(t), Some(row.counters))
  {
    LatestIs(s[t := row].Keys, t);
  }

  /** No row is as new as a sample yet to come. */
  lemma {:induction false} StoredBefore(w: Width, ops: seq<Upkeep>, t: Instant)
    requires forall i :: 0 <= i < |ops| && ops[i].Sampled? ==> ops[i].ts < t
    ensures Newer(Upkept(w, ops), t)
  {
    hide Collapsed;
    if ops != [] {
      var n := |ops| - 1;
      assert forall i :: 0 <= i < n ==> ops[..n][i] == ops[i];
      StoredBefore(w, ops[..n], t);
      if ops[n].Collapsing? {
        CollapseStaysOlder(Upkept(w, ops[..n]), ops[n].bucket, w, ops[n].cutoff, t);
      }
    }
  }

  lemma {:induction false} AlwaysKeeps(w: Width, ops: seq<Upkeep>)
    requires InTime(ops)
    ensures Keeps(Upkept(w, ops), StoredAt(w, ops), LastSample(ops))
  {
    hide Keeps, Collapsed, Members, Several, BucketStart;
    if ops == [] {
      NothingKept();
    } else {
      var n := |ops| - 1;
      var front, op := ops[..n], ops[n];
      assert forall i :: 0 <= i < n ==> front[i] == ops[i];
      AlwaysKeeps(w, front);
      var s := Upkept(w, front);
      match op
      case Sampled(ts, row) =>
        StoredBefore(w, front, ts);
        SampleKeeps(s, ts, row);
      case Collapsing(b, c) => CollapseKeeps(s, StoredAt(w, front), LastSample(front), b, w, c);
      case Pruning(before) => PruneKeeps(s, StoredAt(w, front), LastSample(front), before);
    }
  }

  lemma NothingKept()
    ensures Keeps(map[], None, None)
  {
  }

  /** A slot's newest cumulative values survive maintenance exactly as long as no prune passes
      the instant they are stored under; after that the slot shows nothing. */
  lemma NewestSurvivesIff(w: Width, ops: seq<Upkeep>)
    requires InTime(ops) && LastSample(ops).Some?
    ensures NewestOf(Upkept(w, ops)) == LastSample(ops) <==> StoredAt(w, ops).Some?
    ensures NewestOf(Upkept(w, ops)) == None <==> StoredAt(w, ops).None?
  {
    hide Upkept, StoredAt, LastSample, Latest;
    AlwaysKeeps(w, ops);
  }

  /** Prunes that stay behind the start of the newest sample's bucket never touch it. */
  lemma {:induction false} PruneBehindTheBucket(
    w: Width, front: seq<Upkeep>, t: Instant, row: Row, tail: seq<Upkeep>)
    requires InTime(front + [Sampled(t, row)] + tail)
    requires forall op :: op in tail ==> !op.Sampled?
    requires forall op :: op in tail && op.Pruning? ==> op.before <= BucketStart(BucketOf(t, w), w)
    ensures var at := StoredAt(w, front + [Sampled(t, row)] + tail);
            at == Some(t) || at == Some(BucketStart(BucketOf(t, w), w))
  {
    hide BucketOf, BucketStart, Several, Upkept, InTime;
    var ops := front + [Sampled(t, row)] + tail;
    if tail == [] {
      assert ops[|ops| - 1] == Sampled(t, row);
    } else {
      var n := |tail| - 1;
      var before := front + [Sampled(t, row)] + tail[..n];
      assert ops[..|ops| - 1] == before && ops[|ops| - 1] == tail[n] && tail[n] in tail;
      InTimePrefix(ops);
      PruneBehindTheBucket(w, front, t, row, tail[..n]);
      BucketBounds(t, w);
      StartIsInBucket(BucketOf(t, w), w);
    }
  }

  lemma InTimePrefix(ops: seq<Upkeep>)
    requires ops != [] && InTime(ops)
    ensures InTime(ops[..|ops| - 1])
  {
  }

  /** A collapse dates the newest sample back, so a prune that the sample itself is not due
      for can take it. */
  lemma RedatedSampleIsPruned(a: Row, b: Row)
    ensures var ops := [Sampled(61.0, a), Sampled(62.0, b), Collapsing(1, 100.0), Pruning(61.5)];
            InTime(ops) && LastSample(ops) == Some(b.counters) && NewestOf(Upkept(60, ops)) == None
  {
    hide Aggregate;
    var ops := [Sampled(61.0, a), Sampled(62.0, b), Collapsing(1, 100.0), Pruning(61.5)];
    assert ops[..3][..2] == ops[..2] && ops[..2][..1] == ops[..1] && ops[..1][..0] == [];
    assert LastSample(ops[..2]) == LastSample(ops[..3]) == LastSample(ops) == Some(b.counters);
    var s := Upkept(60, ops[..2]);
    assert Upkept(60, []) == map[];
    assert Upkept(60, ops[..1]) == Done(map[], 60, ops[0]) == map[61.0 := a];
    assert s == Done(map[61.0 := a], 60, ops[1]) == map[61.0 := a, 62.0 := b];
    assert BucketOf(61.0, 60) == 1 && BucketOf(62.0, 60) == 1;
    var m := Members(s, 1, 60, 100.0);
    assert 61.0 in m && 62.0 in m;
    assert m == {61.0, 62.0};
    var c := Upkept(60, ops[..3]);
    assert c == Collapsed(s, 1, 60, 100.0);
    assert BucketStart(1, 60) == 60.0;
    assert c.Keys == {60.0};
    assert Upkept(60, ops) == Pruned(c, 61.5) == map[];
  }

  // ----- what a run shows ----------------------------------------------------------------------------

  /** Samples of a slot have their own instants. */
  predicate Dated(samples: seq<Sample>, slot: nat) {
    && (forall i :: 0 <= i < |samples| && samples[i].slot == slot ==> samples[i].ts >= 0.0)
    && (forall i, j :: 0 <= i < j < |samples| && samples[i].slot == slot && samples[j].slot == slot ==>
          samples[i].ts != samples[j].ts)
  }

  function SeriesOf(samples: seq<Sample>, slot: nat): Series
    requires Dated(samples, slot)
  {
    if samples == [] then map[]
    else
      var rest := SeriesOf(samples[..|samples| - 1], slot);
      var s := samples[|samples| - 1];
      if s.slot == slot then rest[s.ts := Row(s.counters, None)] else rest
  }

  lemma {:induction false} SeriesHas(samples: seq<Sample>, slot: nat, t: Instant)
    requires Dated(samples, slot)
    ensures t in SeriesOf(samples, slot) <==>
            exists i :: 0 <= i < |samples| && samples[i].slot == slot && samples[i].ts == t
    ensures forall i :: 0 <= i < |samples| && samples[i].slot == slot && samples[i].ts == t ==>
              t in SeriesOf(samples, slot) && SeriesOf(samples, slot)[t].counters == samples[i].counters
  {
    if samples != [] {
      var n := |samples| - 1;
      assert forall i :: 0 <= i < n ==> samples[..n][i] == samples[i];
      SeriesHas(samples[..n], slot, t);
      if i :| 0 <= i < |samples[..n]| && samples[..n][i].slot == slot && samples[..n][i].ts == t {
        assert samples[i].ts == t;
      }
    }
  }

  /** The newest row of a slot is the one the totals take. */
  lemma NewestIsShown(samples: seq<Sample>, slot: nat)
    requires Dated(samples, slot)
    ensures NewestCounters(samples, slot) ==
            match NewestOf(SeriesOf(samples, slot))
            case None => map[]
            case Some(c) => Only(c, LIVE_KEYS)
  {
    hide NewestTwo, SeriesOf, Latest;
    var s := SeriesOf(samples, slot);
    var i := NewestRow(samples, slot);
    if NewestTwo(samples, slot) == [] {
      if s.Keys != {} {
        SeriesHas(samples, slot, Latest(s.Keys));
      }
    } else {
      var t: Instant := samples[i].ts;
      SeriesHas(samples, slot, t);
      forall u | u in s ensures u <= t {
        SeriesHas(samples, slot, u);
      }
      LatestIs(s.Keys, t);
    }
  }

  lemma {:induction false} SamePending(leases: seq<Lease>, a: seq<Sample>, b: seq<Sample>)
    requires forall slot: nat :: NewestCounters(b, slot) == NewestCounters(a, slot)
    ensures PendingTotals(leases, b) == PendingTotals(leases, a)
  {
    hide NewestCounters, Fold;
    if leases != [] {
      SamePending(leases[..|leases| - 1], a, b);
    }
  }

  /** A full pass keeps every slot's newest values, and so the totals a run shows. */
  lemma PassKeepsShownTotals(r: Run, samples: seq<Sample>, w: Width, cutoff: Instant)
    requires forall slot: nat ::
               && Dated(r.samples, slot) && Dated(samples, slot)
               && FullyRolled(SeriesOf(r.samples, slot), SeriesOf(samples, slot), w, cutoff)
    ensures LiveTotals(r.(samples := samples)) == LiveTotals(r)
  {
    hide FullyRolled, SeriesOf, Dated, NewestCounters, NewestOf, Fold;
    forall slot: nat ensures NewestCounters(samples, slot) == NewestCounters(r.samples, slot) {
      PassKeepsNewest(SeriesOf(r.samples, slot), SeriesOf(samples, slot), w, cutoff);
      NewestIsShown(r.samples, slot);
      NewestIsShown(samples, slot);
    }
    SamePending(r.leases, r.samples, samples);
  }

  // ----- the totals shown, through samples, roll-ups and prunes ---------------------------------------

  /** The rows of a slot, as a history of upkeep leaves them. */
  predicate Stores(samples: seq<Sample>, slot: nat, s: Series) {
    && Dated(samples, slot) && SeriesOf(samples, slot).Keys == s.Keys
    && forall t :: t in s ==> SeriesOf(samples, slot)[t].counters == s[t].counters
  }

  /** What a slot's newest sample counted under a key, stored still or not. */
  function Counted(ops: seq<Upkeep>, key: string): nat {
    match LastSample(ops)
    case None => 0
    case Some(c) => At(Only(c, LIVE_KEYS), key)
  }

  /** What the unfinished slots have counted. */
  function CountedPending(leases: seq<Lease>, h: nat -> seq<Upkeep>, key: string): nat {
    if leases == [] then 0
    else
      var l := leases[|leases| - 1];
      CountedPending(leases[..|leases| - 1], h, key) + (if l.state.Done? then 0 else Counted(h(l.slot), key))
  }

  /** The newest sample of the slot has been pruned. */
  predicate Gone(w: Width, ops: seq<Upkeep>) { LastSample(ops).Some? && StoredAt(w, ops).None? }

  /** How much of that is gone. */
  function PrunedPending(leases: seq<Lease>, w: Width, h: nat -> seq<Upkeep>, key: string): nat {
    if leases == [] then 0
    else
      var l := leases[|leases| - 1];
      var lost := !l.state.Done? && Gone(w, h(l.slot));
      PrunedPending(leases[..|leases| - 1], w, h, key) + (if lost then Counted(h(l.slot), key) else 0)
  }

  lemma StoredNewest(samples: seq<Sample>, slot: nat, s: Series)
    requires Stores(samples, slot, s)
    ensures NewestOf(SeriesOf(samples, slot)) == NewestOf(s)
  {
    hide SeriesOf, Latest, Dated;
  }

  lemma NeverSampled(w: Width, ops: seq<Upkeep>)
    requires InTime(ops) && LastSample(ops).None?
    ensures NewestOf(Upkept(w, ops)).None?
  {
    hide Upkept, StoredAt, LastSample, Latest;
    AlwaysKeeps(w, ops);
  }

  lemma SlotShows(samples: seq<Sample>, slot: nat, w: Width, ops: seq<Upkeep>, key: string)
    requires InTime(ops) && Stores(samples, slot, Upkept(w, ops))
    ensures At(NewestCounters(samples, slot), key) == if Gone(w, ops) then 0 else Counted(ops, key)
  {
    hide Upkept, StoredAt, LastSample, SeriesOf, Dated, NewestCounters, NewestOf, InTime, Only;
    StoredNewest(samples, slot, Upkept(w, ops));
    NewestIsShown(samples, slot);
    if LastSample(ops).Some? {
      NewestSurvivesIff(w, ops);
    } else {
      NeverSampled(w, ops);
    }
  }

  lemma {:induction false} PendingThrough(
    leases: seq<Lease>, samples: seq<Sample>, w: Width, h: nat -> seq<Upkeep>, key: string)
    requires forall slot: nat :: InTime(h(slot)) && Stores(samples, slot, Upkept(w, h(slot)))
    ensures At(PendingTotals(leases, samples), key) + PrunedPending(leases, w, h, key) ==
            CountedPending(leases, h, key)
  {
    hide InTime, Stores, Upkept, NewestCounters, Counted, Gone, Fold;
    if leases != [] {
      PendingThrough(leases[..|leases| - 1], samples, w, h, key);
      var l := leases[|leases| - 1];
      SlotShows(samples, l.slot, w, h(l.slot), key);
    }
  }

  lemma {:induction false} NonePrunedIff(leases: seq<Lease>, w: Width, h: nat -> seq<Upkeep>, key: string)
    ensures PrunedPending(leases, w, h, key) == 0 <==>
            forall i :: 0 <= i < |leases| && !leases[i].state.Done? && Gone(w, h(leases[i].slot)) ==>
              Counted(h(leases[i].slot), key) == 0
  {
    hide Counted, Gone;
    if leases != [] {
      var n := |leases| - 1;
      assert forall i :: 0 <= i < n ==> leases[..n][i] == leases[i];
      NonePrunedIff(leases[..n], w, h, key);
    }
  }

  /** Whatever samples, roll-ups and prunes each slot has been through: the total shown falls
      short of what its slots counted by exactly what the pruned newest samples of unfinished
      slots had counted, and so is unharmed exactly when those counted nothing. */
  lemma ShownThroughUpkeep(r: Run, w: Width, h: nat -> seq<Upkeep>, key: string)
    requires forall slot: nat :: InTime(h(slot)) && Stores(r.samples, slot, Upkept(w, h(slot)))
    ensures At(LiveTotals(r), key) + PrunedPending(r.leases, w, h, key) ==
            At(r.totals, key) + CountedPending(r.leases, h, key)
    ensures At(LiveTotals(r), key) == At(r.totals, key) + CountedPending(r.leases, h, key) <==>
            forall i :: 0 <= i < |r.leases| && !r.leases[i].state.Done? && Gone(w, h(r.leases[i].slot)) ==>
              Counted(h(r.leases[i].slot), key) == 0
  {
    hide InTime, Stores, Upkept, Counted, Gone, Fold, PendingTotals;
    PendingThrough(r.leases, r.samples, w, h, key);
    NonePrunedIff(r.leases, w, h, key);
  }
}
