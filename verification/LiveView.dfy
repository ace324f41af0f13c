/** live_totals as it reads the rows: newest sample per slot, each pending slot once. */
module LiveView {
  import opened Basics
  import opened RunModel
  import opened Lifecycle

  // ----- folding counters ------------------------------------------------------------------

  lemma FoldSwaps(a: Counters, b: Counters, c: Counters)
    ensures Fold(Fold(a, b), c) == Fold(Fold(a, c), b)
  {
    assert Fold(Fold(a, b), c).Keys == Fold(Fold(a, c), b).Keys;
  }

  lemma FoldAssociates(a: Counters, b: Counters, c: Counters)
    ensures Fold(Fold(a, b), c) == Fold(a, Fold(b, c))
  {
    assert Fold(Fold(a, b), c).Keys == Fold(a, Fold(b, c)).Keys;
  }

  lemma FoldNothing(a: Counters)
    ensures Fold(a, map[]) == a
  {
    assert Fold(a, map[]).Keys == a.Keys;
  }

  function Only(c: Counters, keys: set<string>): Counters { map k | k in c && k in keys :: c[k] }

  /** The inner loop: each cumulative counter the sample carries is added. */
  method AddCounters(totals: Counters, c: Counters) returns (out: Counters)
    ensures out == Fold(totals, Only(c, LIVE_KEYS))
  {
    hide Fold, Only;
    out := totals;
    var done, left := {}, LIVE_KEYS;
    NothingAdded(totals, c);
    while left != {}
      invariant done + left == LIVE_KEYS && done !! left && out == Fold(totals, Only(c, done))
      decreases left
    {
      var key :| key in left;
      OneAdded(totals, c, done, key);
      if key in c {
        out := out[key := At(out, key) + c[key]];
      }
      done, left := done + {key}, left - {key};
    }
    assert done == LIVE_KEYS;
  }

  lemma NothingAdded(totals: Counters, c: Counters)
    ensures Fold(totals, Only(c, {})) == totals
  {
    assert Only(c, {}) == map[];
    FoldNothing(totals);
  }

  lemma OneAdded(totals: Counters, c: Counters, done: set<string>, key: string)
    requires key !in done
    ensures var sum := Fold(totals, Only(c, done));
            Fold(totals, Only(c, done + {key})) == if key in c then sum[key := At(sum, key) + c[key]] else sum
  {
    var sum, next := Fold(totals, Only(c, done)), Fold(totals, Only(c, done + {key}));
    assert next.Keys == if key in c then sum.Keys + {key} else sum.Keys;
    assert At(sum, key) == At(totals, key);
  }

  // ----- the newest sample of a slot -------------------------------------------------------------

  /** Row i carries the newest instant of its slot, the join with the newest instants. */
  predicate Newest(samples: seq<Sample>, i: nat)
    requires i < |samples|
  {
    forall j :: 0 <= j < |samples| && samples[j].slot == samples[i].slot ==> samples[j].ts <= samples[i].ts
  }

  /** Of the rows with the newest instant, the first. */
  predicate FirstNewest(samples: seq<Sample>, slot: nat, i: nat) {
    && i < |samples| && samples[i].slot == slot && Newest(samples, i)
    && forall j :: 0 <= j < i && samples[j].slot == slot ==> samples[j].ts < samples[i].ts
  }

  lemma FirstNewestAppend(front: seq<Sample>, s: Sample, slot: nat, i: nat)
    requires FirstNewest(front, slot, i)
    ensures FirstNewest(front + [s], slot, if s.slot == slot && s.ts > front[i].ts then |front| else i)
  {
    var samples := front + [s];
    assert forall j :: 0 <= j < |front| ==> samples[j] == front[j];
  }

  lemma {:induction false} NewestRow(samples: seq<Sample>, slot: nat) returns (i: nat)
    ensures NewestTwo(samples, slot) == [] ==> forall j :: 0 <= j < |samples| ==> samples[j].slot != slot
    ensures NewestTwo(samples, slot) != [] ==>
              FirstNewest(samples, slot, i) && samples[i] == NewestTwo(samples, slot)[0]
  {
    i := 0;
    if samples != [] {
      var n := |samples| - 1;
      var front, s := samples[..n], samples[n];
      i := NewestRow(front, slot);
      assert samples == front + [s];
      var two := NewestTwo(front, slot);
      if two != [] {
        FirstNewestAppend(front, s, slot, i);
        i := if s.slot == slot && s.ts > two[0].ts then n else i;
      } else if s.slot == slot {
        i := n;
      }
    }
  }

  /** So the first newest row met is the one the totals take. */
  lemma NewestIsFirst(samples: seq<Sample>, i: nat)
    requires i < |samples| && Newest(samples, i)
    requires forall j :: 0 <= j < i && samples[j].slot == samples[i].slot ==> !Newest(samples, j)
    ensures NewestCounters(samples, samples[i].slot) == Only(samples[i].counters, LIVE_KEYS)
  {
    hide NewestTwo;
    var slot := samples[i].slot;
    var k := NewestRow(samples, slot);
    if NewestTwo(samples, slot) != [] {
      assert samples[k].ts == samples[i].ts;
      assert k == i;
    }
  }

  /** The counters a slot shows are these seven of its newest sample, and no others. */
  lemma SevenAreShown(samples: seq<Sample>, slot: nat, key: string)
    ensures var two, shown := NewestTwo(samples, slot), At(NewestCounters(samples, slot), key);
            if two != [] && (|| key == "events_total" || key == "bytes_total" || key == "hec_2xx" || key == "hec_4xx"
                             || key == "hec_5xx" || key == "hec_timeouts" || key == "retries") then
              shown == At(two[0].counters, key)
            else shown == 0
  {
    hide NewestTwo;
  }

  // ----- the loop over samples -----------------------------------------------------------------------

  predicate DistinctSlots(leases: seq<Lease>) {
    forall i, j :: 0 <= i < j < |leases| ==> leases[i].slot != leases[j].slot
  }

  /** The pending slots among those already counted. */
  function CountedSoFar(leases: seq<Lease>, samples: seq<Sample>, seen: set<nat>): Counters {
    if leases == [] then map[]
    else
      var rest := CountedSoFar(leases[..|leases| - 1], samples, seen);
      var l := leases[|leases| - 1];
      if l.state.Done? || l.slot !in seen then rest else Fold(rest, NewestCounters(samples, l.slot))
  }

  lemma {:induction false} NoneCounted(leases: seq<Lease>, samples: seq<Sample>)
    ensures CountedSoFar(leases, samples, {}) == map[]
  {
    if leases != [] {
      NoneCounted(leases[..|leases| - 1], samples);
    }
  }

  lemma {:induction false} OtherSlotCounted(leases: seq<Lease>, samples: seq<Sample>, seen: set<nat>, slot: nat)
    requires forall i :: 0 <= i < |leases| && !leases[i].state.Done? ==> leases[i].slot != slot
    ensures CountedSoFar(leases, samples, seen + {slot}) == CountedSoFar(leases, samples, seen)
  {
    if leases != [] {
      var n := |leases| - 1;
      OtherSlotCounted(leases[..n], samples, seen, slot);
    }
  }

  /** Counting one more pending slot adds its newest counters once. */
  lemma {:induction false} SlotCounted(leases: seq<Lease>, samples: seq<Sample>, seen: set<nat>, k: nat)
    requires DistinctSlots(leases) && k < |leases| && !leases[k].state.Done? && leases[k].slot !in seen
    ensures CountedSoFar(leases, samples, seen + {leases[k].slot}) ==
            Fold(CountedSoFar(leases, samples, seen), NewestCounters(samples, leases[k].slot))
  {
    hide Fold, NewestCounters;
    var n, slot := |leases| - 1, leases[k].slot;
    var front, l := leases[..n], leases[n];
    assert forall i :: 0 <= i < n ==> front[i] == leases[i];
    if k == n {
      OtherSlotCounted(front, samples, seen, slot);
    } else {
      SlotCounted(front, samples, seen, k);
      assert l.slot != slot;
      FoldSwaps(CountedSoFar(front, samples, seen), NewestCounters(samples, slot), NewestCounters(samples, l.slot));
    }
  }

  /** Once every pending slot with a sample has been seen, everything pending is counted. */
  lemma {:induction false} AllCounted(leases: seq<Lease>, samples: seq<Sample>, seen: set<nat>)
    requires forall i :: 0 <= i < |leases| && !leases[i].state.Done? && leases[i].slot !in seen ==>
               NewestTwo(samples, leases[i].slot) == []
    ensures CountedSoFar(leases, samples, seen) == PendingTotals(leases, samples)
  {
    hide Fold, NewestTwo;
    if leases != [] {
      var n := |leases| - 1;
      var l := leases[n];
      assert forall i :: 0 <= i < n ==> leases[..n][i] == leases[i];
      AllCounted(leases[..n], samples, seen);
      if !l.state.Done? && l.slot !in seen {
        assert NewestCounters(samples, l.slot) == map[];
        FoldNothing(PendingTotals(leases[..n], samples));
      }
    }
  }

  predicate Pending(leases: seq<Lease>, slot: nat) {
    exists i :: 0 <= i < |leases| && leases[i].slot == slot && !leases[i].state.Done?
  }

  method PendingSlots(leases: seq<Lease>) returns (slots: set<nat>)
    ensures forall slot :: slot in slots <==> Pending(leases, slot)
  {
    slots := {};
    for i := 0 to |leases|
      invariant forall slot :: slot in slots <==> Pending(leases[..i], slot)
    {
      var l := leases[i];
      assert forall slot :: Pending(leases[..i + 1], slot) <==>
                            Pending(leases[..i], slot) || (l.slot == slot && !l.state.Done?) by {
        PendingGrows(leases, i);
      }
      if !l.state.Done? {
        slots := slots + {l.slot};
      }
    }
    assert leases[..|leases|] == leases;
  }

  lemma PendingGrows(leases: seq<Lease>, i: nat)
    requires i < |leases|
    ensures forall slot :: Pending(leases[..i + 1], slot) <==>
                           Pending(leases[..i], slot) || (leases[i].slot == slot && !leases[i].state.Done?)
  {
    var a, b := leases[..i], leases[..i + 1];
    forall slot ensures Pending(b, slot) <==> Pending(a, slot) || (leases[i].slot == slot && !leases[i].state.Done?) {
      assert b[i] == leases[i] && forall j :: 0 <= j < i ==> a[j] == b[j];
    }
  }

  predicate Met(samples: seq<Sample>, slot: nat, n: nat)
    requires n <= |samples|
  {
    exists j :: 0 <= j < n && samples[j].slot == slot && Newest(samples, j)
  }

  /** live_totals, for one run. */
  method ShownTotals(r: Run) returns (out: Counters)
    requires DistinctSlots(r.leases)
    ensures out == LiveTotals(r)
  {
    hide Fold, NewestTwo, NewestCounters, PendingTotals, CountedSoFar, Newest, Only, DistinctSlots;
    out := r.totals;
    var pending := PendingSlots(r.leases);
    var seen: set<nat> := {};
    NoneCounted(r.leases, r.samples);
    FoldNothing(r.totals);
    var i := 0;
    while i < |r.samples|
      invariant 0 <= i <= |r.samples|
      invariant forall slot :: slot in seen <==> slot in pending && Met(r.samples, slot, i)
      invariant out == Fold(r.totals, CountedSoFar(r.leases, r.samples, seen))
    {
      var s := r.samples[i];
      if Newest(r.samples, i) && s.slot in pending && s.slot !in seen {
        NewestIsFirst(r.samples, i);
        ghost var k :| 0 <= k < |r.leases| && r.leases[k].slot == s.slot && !r.leases[k].state.Done?;
        SlotCounted(r.leases, r.samples, seen, k);
        FoldAssociates(r.totals, CountedSoFar(r.leases, r.samples, seen), NewestCounters(r.samples, s.slot));
        out := AddCounters(out, s.counters);
        seen := seen + {s.slot};
      }
      i := i + 1;
    }
    forall k | 0 <= k < |r.leases| && !r.leases[k].state.Done? && r.leases[k].slot !in seen
      ensures NewestTwo(r.samples, r.leases[k].slot) == []
    {
      var slot := r.leases[k].slot;
      assert slot in pending && !Met(r.samples, slot, |r.samples|);
      var row := NewestRow(r.samples, slot);
    }
    AllCounted(r.leases, r.samples, seen);
  }
}
