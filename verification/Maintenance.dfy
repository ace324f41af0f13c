/** The maintenance pass over the whole sample table: prune, then roll up. */
module Maintenance {
  import opened Basics
  import opened RunModel
  import opened Rollup

  datatype SlotId = SlotId(run: nat, slot: nat)

  datatype BucketKey = BucketKey(id: SlotId, bucket: nat)

  datatype RowKey = RowKey(id: SlotId, ts: Instant)

  type Table = map<SlotId, Series>

  // ----- what a pass does to one series ---------------------------------------------------------

  /** One instant of a series after a pass: where the bucket was due and had several old
      rows, their aggregate at its start and nothing else; otherwise as before. */
  predicate RowRolled(s: Series, r: Series, w: Width, cutoff: Instant, due: bool, t: Instant) {
    var b := BucketOf(t, w);
    var m := Members(s, b, w, cutoff);
    if due && t < cutoff && Several(m) then
      (t in r <==> t == BucketStart(b, w)) && (t in r ==> r[t] == Aggregate(s, m))
    else SameAt(s, r, t)
  }

  /** The pass has dealt with these buckets. */
  ghost predicate RolledOver(s: Series, r: Series, w: Width, cutoff: Instant, done: set<nat>) {
    forall t: Instant :: RowRolled(s, r, w, cutoff, BucketOf(t, w) in done, t)
  }

  ghost predicate FullyRolled(s: Series, r: Series, w: Width, cutoff: Instant) {
    forall t: Instant :: RowRolled(s, r, w, cutoff, true, t)
  }

  lemma NothingRolled(s: Series, w: Width, cutoff: Instant)
    ensures RolledOver(s, s, w, cutoff, {})
  {
    hide BucketOf;
  }

  /** A bucket not yet dealt with still has its old rows. */
  lemma UntouchedMembers(s: Series, r: Series, w: Width, cutoff: Instant, done: set<nat>, b: nat)
    requires RolledOver(s, r, w, cutoff, done) && b !in done
    ensures Members(r, b, w, cutoff) == Members(s, b, w, cutoff)
    ensures forall t :: t in Members(s, b, w, cutoff) ==> t in r && r[t] == s[t]
  {
    hide BucketOf;
    forall t: Instant | BucketOf(t, w) == b ensures SameAt(s, r, t) {
      assert RowRolled(s, r, w, cutoff, BucketOf(t, w) in done, t);
    }
  }

  lemma {:induction false} SameGauges(s: Series, r: Series, m: set<Instant>)
    requires m <= s.Keys && m <= r.Keys && forall t :: t in m ==> r[t] == s[t]
    ensures GaugeSum(r, m) == GaugeSum(s, m) && GaugeCount(r, m) == GaugeCount(s, m)
    decreases m
  {
    hide Latest;
    if m != {} {
      SameGauges(s, r, m - {Latest(m)});
    }
  }

  lemma SameAggregate(s: Series, r: Series, m: set<Instant>)
    requires m != {} && m <= s.Keys && m <= r.Keys && forall t :: t in m ==> r[t] == s[t]
    ensures Aggregate(r, m) == Aggregate(s, m)
  {
    hide Latest;
    SameGauges(s, r, m);
  }

  lemma RolledOne(s: Series, r: Series, w: Width, cutoff: Instant, done: set<nat>, b: nat)
    requires RolledOver(s, r, w, cutoff, done) && b !in done
    ensures RolledOver(s, Collapsed(r, b, w, cutoff), w, cutoff, done + {b})
  {
    hide BucketOf, BucketStart, Collapsed, Several, Aggregate;
    var m, r2 := Members(s, b, w, cutoff), Collapsed(r, b, w, cutoff);
    UntouchedMembers(s, r, w, cutoff, done, b);
    if Several(m) {
      SeveralSome(m);
      StartIsOld(s, b, w, cutoff);
      SameAggregate(s, r, m);
    }
    forall t: Instant ensures RowRolled(s, r2, w, cutoff, BucketOf(t, w) in done + {b}, t) {
      assert RowRolled(s, r, w, cutoff, BucketOf(t, w) in done, t);
      CollapsedAt(r, b, w, cutoff, t);
    }
  }

  /** Every bucket that has old rows dealt with is every bucket dealt with. */
  lemma AllRolled(s: Series, r: Series, w: Width, cutoff: Instant, done: set<nat>)
    requires RolledOver(s, r, w, cutoff, done)
    requires forall t :: t in s && t < cutoff ==> BucketOf(t, w) in done
    ensures FullyRolled(s, r, w, cutoff)
  {
    hide BucketOf, BucketStart, Aggregate;
    forall t: Instant ensures RowRolled(s, r, w, cutoff, true, t) {
      assert RowRolled(s, r, w, cutoff, BucketOf(t, w) in done, t);
      var m := Members(s, BucketOf(t, w), w, cutoff);
      if Several(m) {
        var u :| u in m;
        assert BucketOf(u, w) in done;
      }
    }
  }

  // ----- what a full pass achieves -----------------------------------------------------------------

  lemma RolledMembers(s: Series, r: Series, w: Width, cutoff: Instant, b: nat)
    requires FullyRolled(s, r, w, cutoff)
    ensures var m := Members(s, b, w, cutoff);
            if Several(m) then
              && Members(r, b, w, cutoff) == {BucketStart(b, w)}
              && BucketStart(b, w) in r && r[BucketStart(b, w)] == Aggregate(s, m)
            else Members(r, b, w, cutoff) == m && forall t :: t in m ==> t in r && r[t] == s[t]
  {
    hide BucketOf, BucketStart, Several, Aggregate;
    var m := Members(s, b, w, cutoff);
    if Several(m) {
      SeveralSome(m);
      StartIsOld(s, b, w, cutoff);
    }
    forall t: Instant | BucketOf(t, w) == b && t < cutoff
      ensures if Several(m) then (t in r <==> t == BucketStart(b, w)) && (t in r ==> r[t] == Aggregate(s, m))
              else SameAt(s, r, t)
    {
      assert RowRolled(s, r, w, cutoff, true, t);
    }
  }

  /** After a full pass nothing is left to collapse, and the series still shows what it
      would have shown. */
  lemma FullPass(s: Series, r: Series, w: Width, cutoff: Instant)
    requires FullyRolled(s, r, w, cutoff)
    ensures RolledTo(r, w, cutoff) && Alike(s, r, w, cutoff)
  {
    hide BucketOf, BucketStart, Several, Mean, FullyRolled, RowRolled;
    forall b: nat
      ensures !Several(Members(r, b, w, cutoff)) && FaceOf(s, b, w, cutoff) == FaceOf(r, b, w, cutoff)
    {
      RolledMembers(s, r, w, cutoff, b);
      if Several(Members(s, b, w, cutoff)) {
        SeveralSome(Members(s, b, w, cutoff));
        OneIsNotSeveral(Members(r, b, w, cutoff), BucketStart(b, w));
      }
    }
    forall t: Instant | cutoff <= t ensures SameAt(s, r, t) {
      YoungRowRolled(s, r, w, cutoff, t);
    }
  }

  lemma YoungRowRolled(s: Series, r: Series, w: Width, cutoff: Instant, t: Instant)
    requires FullyRolled(s, r, w, cutoff) && cutoff <= t
    ensures SameAt(s, r, t)
  {
    assert RowRolled(s, r, w, cutoff, true, t);
  }

  /** Passes at any cutoffs up to the last, stopped and re-run at will between samples,
      followed by a pass at the last cutoff, leave the counters that one pass at the last
      cutoff leaves. */
  lemma PassesEqualOnePass(w: Width, ops: seq<Op>, cutoff: Instant, many: Series, one: Series)
    requires InOrder(w, ops) && UpTo(ops, cutoff)
    requires FullyRolled(Ran(w, ops), many, w, cutoff)
    requires FullyRolled(Ran(w, Arrivals(ops)), one, w, cutoff)
    ensures SameCounters(many, one)
  {
    hide InOrder, UpTo, Ran, Arrivals, FullyRolled, Alike, RolledTo, SameCounters;
    var s, raw := Ran(w, ops), Ran(w, Arrivals(ops));
    MaintenanceIsInvisible(w, ops, cutoff);
    FullPass(s, many, w, cutoff);
    FullPass(raw, one, w, cutoff);
    AlikeTrans(many, s, raw, w, cutoff);
    AlikeSym(many, raw, w, cutoff);
    AlikeTrans(many, raw, one, w, cutoff);
    AlikeAndRolled(many, one, w, cutoff);
  }

  /** The newest row after a full pass carries the newest counters from before it. */
  lemma PassKeepsNewest(s: Series, r: Series, w: Width, cutoff: Instant)
    requires FullyRolled(s, r, w, cutoff)
    ensures NewestOf(r) == NewestOf(s)
  {
    hide BucketOf, BucketStart, Several, Mean, Latest, FullyRolled, RowRolled;
    if s.Keys == {} {
      forall t | t in r ensures false {
        PassedRow(s, r, w, cutoff, t);
      }
    } else {
      var top := Latest(s.Keys);
      var b := BucketOf(top, w);
      var m := Members(s, b, w, cutoff);
      RolledMembers(s, r, w, cutoff, b);
      var at := if top < cutoff && Several(m) then BucketStart(b, w) else top;
      if top < cutoff {
        LatestIs(m, top);
      } else {
        YoungRowRolled(s, r, w, cutoff, top);
      }
      forall u | u in r ensures u <= at {
        PassedRow(s, r, w, cutoff, u);
        PassedBelow(s, r, w, cutoff, u, top);
      }
      LatestIs(r.Keys, at);
    }
  }

  /** Every row after a pass comes from a row of its bucket, no older than itself. */
  lemma PassedRow(s: Series, r: Series, w: Width, cutoff: Instant, u: Instant)
    requires FullyRolled(s, r, w, cutoff) && u in r
    ensures exists t :: t in s && u <= t && BucketOf(t, w) == BucketOf(u, w)
  {
    hide BucketOf, BucketStart, Aggregate;
    assert RowRolled(s, r, w, cutoff, true, u);
    var m := Members(s, BucketOf(u, w), w, cutoff);
    if u < cutoff && Several(m) {
      SeveralSome(m);
      StartIsOld(s, BucketOf(u, w), w, cutoff);
      var t :| t in m;
    }
  }

  lemma PassedBelow(s: Series, r: Series, w: Width, cutoff: Instant, u: Instant, top: Instant)
    requires FullyRolled(s, r, w, cutoff) && u in r && top in s && forall t :: t in s ==> t <= top
    requires exists t :: t in s && u <= t && BucketOf(t, w) == BucketOf(u, w)
    ensures var m := Members(s, BucketOf(top, w), w, cutoff);
            u <= if top < cutoff && Several(m) then BucketStart(BucketOf(top, w), w) else top
  {
    hide BucketOf, BucketStart, Aggregate;
    var b := BucketOf(top, w);
    var m := Members(s, b, w, cutoff);
    var t :| t in s && u <= t && BucketOf(t, w) == BucketOf(u, w);
    if top < cutoff && Several(m) {
      assert RowRolled(s, r, w, cutoff, true, u);
      BucketRises(t, top, w);
      if BucketOf(u, w) < b {
        BucketsAscend(u, top, w);
      }
    }
  }

  // ----- the table ------------------------------------------------------------------------------------

  function OldRows(rows: Table, before: Instant): set<RowKey> {
    set id, t | id in rows && t in rows[id] && t < before :: RowKey(id, t)
  }

  function AllRows(rows: Table): set<RowKey> { set id, t | id in rows && t in rows[id] :: RowKey(id, t) }

  function KeysOf(id: SlotId, m: set<Instant>): set<RowKey> { set t | t in m :: RowKey(id, t) }

  lemma {:induction false} KeysCount(id: SlotId, m: set<Instant>)
    ensures |KeysOf(id, m)| == |m|
    decreases m
  {
    if m == {} {
      assert KeysOf(id, m) == {};
    } else {
      var t :| t in m;
      KeysCount(id, m - {t});
      assert KeysOf(id, m) == KeysOf(id, m - {t}) + {RowKey(id, t)};
    }
  }

  /** A collapse takes its members out of the table and puts one row in. */
  lemma CollapseCount(rows: Table, id: SlotId, m: set<Instant>, start: Instant, row: Row)
    requires id in rows && m <= rows[id].Keys && (start in rows[id] ==> start in m)
    ensures |AllRows(rows[id := Dropped(rows[id], m)[start := row]])| + |m| == |AllRows(rows)| + 1
  {
    var gone, added := KeysOf(id, m), RowKey(id, start);
    var next := rows[id := Dropped(rows[id], m)[start := row]];
    KeysCount(id, m);
    assert gone <= AllRows(rows);
    assert added !in AllRows(rows) - gone;
    forall k ensures k in AllRows(next) <==> k in (AllRows(rows) - gone) + {added} {
    }
    assert AllRows(next) == (AllRows(rows) - gone) + {added};
  }

  function Dropped(s: Series, m: set<Instant>): Series { map t | t in s && t !in m :: s[t] }

  /** The buckets dictionary: every old row is still to be read or in its bucket's list, and
      the lists hold nothing else. */
  predicate Grouped(rows: Table, w: Width, cutoff: Instant, todo: set<RowKey>, buckets: map<BucketKey, set<Instant>>) {
    && (forall k :: k in OldRows(rows, cutoff) && k !in todo ==>
          var b := BucketKey(k.id, BucketOf(k.ts, w)); b in buckets && k.ts in buckets[b])
    && (forall b, t :: b in buckets && t in buckets[b] ==>
          b.id in rows && t in Members(rows[b.id], b.bucket, w, cutoff))
  }

  lemma GroupedMembers(rows: Table, w: Width, cutoff: Instant, buckets: map<BucketKey, set<Instant>>, b: BucketKey)
    requires Grouped(rows, w, cutoff, {}, buckets) && b in buckets && b.id in rows
    ensures buckets[b] == Members(rows[b.id], b.bucket, w, cutoff)
  {
    hide BucketOf;
    forall t | t in Members(rows[b.id], b.bucket, w, cutoff) ensures t in buckets[b] {
      assert RowKey(b.id, t) in OldRows(rows, cutoff);
    }
  }

  function DoneFor(keys: set<BucketKey>, id: SlotId): set<nat> { set k | k in keys && k.id == id :: k.bucket }

  lemma TwoIsSeveral(m: set<Instant>)
    ensures |m| >= 2 <==> Several(m)
  {
    if |m| >= 2 {
      var t :| t in m;
      var rest := m - {t};
      assert |rest| == |m| - 1;
      var u :| u in rest;
    } else if m != {} {
      var t :| t in m;
      var rest := m - {t};
      assert |rest| == |m| - 1 == 0;
      assert m == {t};
    }
  }

  /** Rows older than a cutoff are gone; the rest are as they were. */
  ghost predicate PrunedTo(was: Table, rows: Table, before: Instant, left: set<RowKey>) {
    && rows.Keys == was.Keys
    && forall id :: id in was ==>
         rows[id] == map t | t in was[id] && (before <= t || RowKey(id, t) in left) :: was[id][t]
  }

  class SampleTable {
    var rows: Table

    constructor (rows: Table)
      ensures this.rows == rows
    {
      this.rows := rows;
    }

    /** _roll_up, with the rows it removed and the aggregates it wrote. */
    method RollUp(w: Width, cutoff: Instant) returns (removed: nat, written: nat)
      modifies this
      ensures rows.Keys == old(rows).Keys
      ensures forall id :: id in rows ==> FullyRolled(old(rows)[id], rows[id], w, cutoff)
      ensures |AllRows(rows)| + removed == |AllRows(old(rows))| + written && 2 * written <= removed
    {
      hide BucketOf, Collapsed, Several, RolledOver, FullyRolled, Grouped, BucketStart, Aggregate, AllRows;
      removed, written := 0, 0;
      ghost var was := rows;
      var buckets := Group(w, cutoff);
      forall id | id in was ensures RolledOver(was[id], rows[id], w, cutoff, DoneFor({}, id)) {
        NothingRolled(was[id], w, cutoff);
        assert DoneFor({}, id) == {};
      }
      var left := buckets.Keys;
      ghost var done: set<BucketKey> := {};
      while left != {}
        invariant left + done == buckets.Keys && left !! done
        invariant rows.Keys == was.Keys
        invariant |AllRows(rows)| + removed == |AllRows(was)| + written && 2 * written <= removed
        invariant forall id :: id in was ==> RolledOver(was[id], rows[id], w, cutoff, DoneFor(done, id))
        decreases left
      {
        var key :| key in left;
        GroupedId(was, w, cutoff, buckets, key);
        var members := buckets[key];
        GroupedMembers(was, w, cutoff, buckets, key);
        UntouchedMembers(was[key.id], rows[key.id], w, cutoff, DoneFor(done, key.id), key.bucket);
        TwoIsSeveral(members);
        ghost var before := rows;
        if |members| >= 2 {
          SeveralSome(members);
          var aggregate := Aggregate(rows[key.id], members);
          StartIsMember(rows[key.id], key.bucket, w, cutoff);
          CollapseCount(rows, key.id, members, BucketStart(key.bucket, w), aggregate);
          removed, written := removed + |members|, written + 1;
          rows := rows[key.id := Dropped(rows[key.id], members)[BucketStart(key.bucket, w) := aggregate]];
        }
        CollapseIs(before[key.id], key.bucket, w, cutoff);
        RolledOne(was[key.id], before[key.id], w, cutoff, DoneFor(done, key.id), key.bucket);
        DoneForGrows(done, key);
        left, done := left - {key}, done + {key};
      }
      assert done == buckets.Keys;
      forall id | id in was ensures FullyRolled(was[id], rows[id], w, cutoff) {
        GroupedAll(was, w, cutoff, buckets, id);
        AllRolled(was[id], rows[id], w, cutoff, DoneFor(done, id));
      }
    }

    /** Old rows grouped by run, slot and bucket. */
    method Group(w: Width, cutoff: Instant) returns (buckets: map<BucketKey, set<Instant>>)
      ensures Grouped(rows, w, cutoff, {}, buckets)
      ensures forall b :: b in buckets ==> buckets[b] != {}
    {
      hide BucketOf;
      buckets := map[];
      var todo := OldRows(rows, cutoff);
      while todo != {}
        invariant todo <= OldRows(rows, cutoff) && Grouped(rows, w, cutoff, todo, buckets)
        invariant forall b :: b in buckets ==> buckets[b] != {}
        decreases todo
      {
        var k :| k in todo;
        var b := BucketKey(k.id, BucketOf(k.ts, w));
        buckets := buckets[b := (if b in buckets then buckets[b] else {}) + {k.ts}];
        todo := todo - {k};
      }
    }

    /** _prune: old rows deleted, a chunk at a time. */
    method Prune(before: Instant, chunk: nat) returns (total: nat)
      requires chunk >= 1
      modifies this
      ensures PrunedTo(old(rows), rows, before, {})
      ensures total == |OldRows(old(rows), before)|
    {
      hide PrunedTo;
      total := 0;
      ghost var was := rows;
      var left := OldRows(rows, before);
      NothingPruned(was, before);
      while left != {}
        invariant left <= OldRows(was, before) && PrunedTo(was, rows, before, left)
        invariant total + |left| == |OldRows(was, before)|
        decreases |left|
      {
        ghost var n := |left|;
        var batch := 0;
        while batch < chunk && left != {}
          invariant left <= OldRows(was, before) && PrunedTo(was, rows, before, left)
          invariant total + |left| == |OldRows(was, before)|
          invariant batch + |left| == n
          decreases left
        {
          var k :| k in left;
          OnePruned(was, rows, before, left, k);
          rows := rows[k.id := Dropped(rows[k.id], {k.ts})];
          left := left - {k};
          total, batch := total + 1, batch + 1;
        }
      }
    }
  }

  lemma StartIsMember(s: Series, b: nat, w: Width, cutoff: Instant)
    requires Members(s, b, w, cutoff) != {}
    ensures BucketStart(b, w) in s ==> BucketStart(b, w) in Members(s, b, w, cutoff)
  {
    hide BucketOf, BucketStart;
    StartIsOld(s, b, w, cutoff);
  }

  lemma GroupedId(rows: Table, w: Width, cutoff: Instant, buckets: map<BucketKey, set<Instant>>, b: BucketKey)
    requires Grouped(rows, w, cutoff, {}, buckets) && b in buckets && buckets[b] != {}
    ensures b.id in rows
  {
    var t :| t in buckets[b];
  }

  lemma GroupedAll(rows: Table, w: Width, cutoff: Instant, buckets: map<BucketKey, set<Instant>>, id: SlotId)
    requires Grouped(rows, w, cutoff, {}, buckets) && id in rows
    ensures forall t :: t in rows[id] && t < cutoff ==> BucketOf(t, w) in DoneFor(buckets.Keys, id)
  {
    hide BucketOf;
    forall t | t in rows[id] && t < cutoff ensures BucketOf(t, w) in DoneFor(buckets.Keys, id) {
      assert RowKey(id, t) in OldRows(rows, cutoff);
      assert BucketKey(id, BucketOf(t, w)) in buckets;
    }
  }

  lemma CollapseIs(s: Series, b: nat, w: Width, cutoff: Instant)
    ensures var m := Members(s, b, w, cutoff);
            Collapsed(s, b, w, cutoff) ==
            if Several(m) then Dropped(s, m)[BucketStart(b, w) := Aggregate(s, m)] else s
  {
  }

  lemma DoneForGrows(done: set<BucketKey>, key: BucketKey)
    requires key !in done
    ensures key.bucket !in DoneFor(done, key.id)
    ensures forall id :: DoneFor(done + {key}, id) ==
                         if id == key.id then DoneFor(done, id) + {key.bucket} else DoneFor(done, id)
  {
    assert forall k :: k in done && k.id == key.id ==> k.bucket != key.bucket;
  }

  lemma NothingPruned(was: Table, before: Instant)
    ensures PrunedTo(was, was, before, OldRows(was, before))
  {
    var left := OldRows(was, before);
    forall id | id in was
      ensures was[id] == map t | t in was[id] && (before <= t || RowKey(id, t) in left) :: was[id][t]
    {
    }
  }

  lemma OnePruned(was: Table, rows: Table, before: Instant, left: set<RowKey>, k: RowKey)
    requires left <= OldRows(was, before) && PrunedTo(was, rows, before, left) && k in left
    ensures k.id in rows
    ensures PrunedTo(was, rows[k.id := Dropped(rows[k.id], {k.ts})], before, left - {k})
  {
    var next := rows[k.id := Dropped(rows[k.id], {k.ts})];
    forall id | id in was
      ensures next[id] == map t | t in was[id] && (before <= t || RowKey(id, t) in left - {k}) :: was[id][t]
    {
    }
  }
}
