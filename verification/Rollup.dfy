/** Down-sampling of old metric samples, one series of samples per run and slot. */
module Rollup {
  import opened Basics
  import opened RunModel

  /** Seconds since the epoch. */
  type Instant = t: real | 0.0 <= t witness 0.0

  /** The cumulative counters of a sample and one of its gauges. */
  datatype Row = Row(counters: Counters, gauge: Option<real>)

  /** The samples of one run and slot, by instant. */
  type Series = map<Instant, Row>

  type Width = w: nat | 1 <= w witness 1

  // ----- buckets ----------------------------------------------------------------------------

  function BucketOf(t: Instant, w: Width): nat { t.Floor / w }

  function BucketStart(b: nat, w: Width): Instant { (b * w) as real }

  lemma BucketBounds(t: Instant, w: Width)
    ensures BucketStart(BucketOf(t, w), w) <= t
    ensures t < BucketStart(BucketOf(t, w) + 1, w)
  {
    var n := t.Floor;
    assert n == n / w * w + n % w;
    assert (n / w + 1) * w == n / w * w + w;
    assert (n / w * w) as real <= n as real <= t < n as real + 1.0;
  }

  lemma LargeMultiple(gap: int, w: Width)
    requires gap >= 1
    ensures gap * w >= w
  {
  }

  lemma SmallMultiple(gap: int, w: Width)
    requires 0 <= gap * w < w
    ensures gap == 0
  {
    if gap >= 1 {
      LargeMultiple(gap, w);
    } else if gap <= -1 {
      LargeMultiple(-gap, w);
    }
  }

  lemma ExactQuotient(b: nat, w: Width, n: nat, q: nat)
    requires n == b * w && n == q * w + n % w
    ensures q == b
  {
    var gap: int := b - q;
    assert gap * w == b * w - q * w;
    assert 0 <= gap * w < w;
    SmallMultiple(gap, w);
  }

  lemma StartIsInBucket(b: nat, w: Width)
    ensures BucketOf(BucketStart(b, w), w) == b
  {
    var n: nat := b * w;
    var q: nat := n / w;
    assert (n as real).Floor == n;
    assert BucketOf(BucketStart(b, w), w) == q;
    assert n == q * w + n % w;
    ExactQuotient(b, w, n, q);
  }

  lemma BucketsAscend(t: Instant, u: Instant, w: Width)
    requires BucketOf(t, w) < BucketOf(u, w)
    ensures t < BucketStart(BucketOf(u, w), w)
  {
    hide BucketOf;
    BucketBounds(t, w);
    assert (BucketOf(t, w) + 1) * w <= BucketOf(u, w) * w;
  }

  /** The rows of a bucket that are older than a cutoff. */
  function Members(s: Series, b: nat, w: Width, cutoff: Instant): set<Instant> {
    set t | t in s && BucketOf(t, w) == b && t < cutoff
  }

  predicate Several(m: set<Instant>) { exists t, u :: t in m && u in m && t != u }

  predicate IsLatest(m: set<Instant>, t: Instant) { t in m && forall u :: u in m ==> u <= t }

  lemma {:induction false} LatestExists(m: set<Instant>) returns (top: Instant)
    requires m != {}
    ensures IsLatest(m, top)
  {
    top :| top in m;
    var rest := m - {top};
    if rest != {} {
      var other := LatestExists(rest);
      assert forall u :: u in m ==> u == top || u in rest;
      top := if top < other then other else top;
    } else {
      forall u | u in m ensures u <= top {
        assert u == top || u in rest;
      }
    }
  }

  function Latest(m: set<Instant>): (t: Instant)
    requires m != {}
    ensures t in m && forall u :: u in m ==> u <= t
  {
    assert exists t :: IsLatest(m, t) by { var t := LatestExists(m); }
    var t :| IsLatest(m, t);
    t
  }

  lemma LatestIs(m: set<Instant>, t: Instant)
    requires t in m && forall u :: u in m ==> u <= t
    ensures Latest(m) == t
  {
  }

  // ----- one aggregate ------------------------------------------------------------------------

  function GaugeSum(s: Series, m: set<Instant>): real
    requires m <= s.Keys
  {
    if m == {} then 0.0
    else
      var t := Latest(m);
      (if s[t].gauge.Some? then s[t].gauge.value else 0.0) + GaugeSum(s, m - {t})
  }

  function GaugeCount(s: Series, m: set<Instant>): nat
    requires m <= s.Keys
  {
    if m == {} then 0
    else
      var t := Latest(m);
      (if s[t].gauge.Some? then 1 else 0) + GaugeCount(s, m - {t})
  }

  /** _mean: over the values present. */
  function Mean(s: Series, m: set<Instant>): Option<real>
    requires m <= s.Keys
  {
    var n := GaugeCount(s, m);
    if n == 0 then None else Some(GaugeSum(s, m) / n as real)
  }

  /** _aggregate_bucket: the last cumulative counters, the mean gauge. */
  function Aggregate(s: Series, m: set<Instant>): Row
    requires m <= s.Keys && m != {}
  {
    Row(s[Latest(m)].counters, Mean(s, m))
  }

  /** A bucket's old rows replaced by one, dated at the bucket's start; a lone row is left. */
  function Collapsed(s: Series, b: nat, w: Width, cutoff: Instant): Series {
    var m := Members(s, b, w, cutoff);
    if !Several(m) then s
    else (map t | t in s && t !in m :: s[t])[BucketStart(b, w) := Aggregate(s, m)]
  }

  // ----- what a bucket shows once rolled up ------------------------------------------------------

  datatype Face = Nothing | Shown(ts: Instant, counters: Counters)

  /** The row a bucket has below a cutoff after a full pass at that cutoff, but its gauges. */
  function FaceOf(s: Series, b: nat, w: Width, cutoff: Instant): Face {
    var m := Members(s, b, w, cutoff);
    if m == {} then Nothing
    else Shown(if Several(m) then BucketStart(b, w) else Latest(m), s[Latest(m)].counters)
  }

  /** Where a collapse leaves the series. */
  lemma CollapsedAt(s: Series, b: nat, w: Width, cutoff: Instant, t: Instant)
    ensures var m := Members(s, b, w, cutoff);
            var r := Collapsed(s, b, w, cutoff);
            if !Several(m) then r == s
            else if t == BucketStart(b, w) then t in r && r[t] == Aggregate(s, m)
            else (t in r <==> t in s && t !in m) && (t in r ==> r[t] == s[t])
  {
    hide BucketOf, BucketStart, Aggregate, Several;
  }

  lemma StartIsOld(s: Series, b: nat, w: Width, cutoff: Instant)
    requires Members(s, b, w, cutoff) != {}
    ensures BucketStart(b, w) < cutoff && BucketOf(BucketStart(b, w), w) == b
    ensures forall t :: t in Members(s, b, w, cutoff) ==> BucketStart(b, w) <= t
  {
    hide BucketOf, BucketStart;
    StartIsInBucket(b, w);
    forall t | t in Members(s, b, w, cutoff) ensures BucketStart(b, w) <= t {
      BucketBounds(t, w);
    }
    var t :| t in Members(s, b, w, cutoff);
  }

  /** The rows of a bucket after that bucket has been collapsed at an earlier cutoff. */
  lemma CollapsedMembers(s: Series, b: nat, w: Width, c: Instant, b2: nat, cutoff: Instant)
    requires c <= cutoff && Several(Members(s, b, w, c))
    ensures Members(Collapsed(s, b, w, c), b2, w, cutoff) ==
            if b2 == b then (Members(s, b, w, cutoff) - Members(s, b, w, c)) + {BucketStart(b, w)}
            else Members(s, b2, w, cutoff)
  {
    hide BucketOf, BucketStart, Aggregate, Several;
    SeveralSome(Members(s, b, w, c));
    StartIsOld(s, b, w, c);
    forall t: Instant
      ensures t in Members(Collapsed(s, b, w, c), b2, w, cutoff) <==>
              t in if b2 == b then (Members(s, b, w, cutoff) - Members(s, b, w, c)) + {BucketStart(b, w)}
                   else Members(s, b2, w, cutoff)
    {
      CollapsedAt(s, b, w, c, t);
    }
  }

  lemma SeveralSome(m: set<Instant>)
    requires Several(m)
    ensures m != {}
  {
  }

  lemma SeveralGrows(m: set<Instant>, n: set<Instant>)
    requires Several(m) && m <= n
    ensures Several(n)
  {
  }

  lemma SeveralTwo(m: set<Instant>, t: Instant, u: Instant)
    requires t in m && u in m && t != u
    ensures Several(m)
  {
  }

  lemma OneIsNotSeveral(m: set<Instant>, t: Instant)
    requires m == {t}
    ensures !Several(m) && Latest(m) == t
  {
  }

  /** A collapse at any cutoff up to this one leaves what every bucket will show at this
      one, and the rows not yet due. */
  lemma FaceKept(s: Series, b: nat, w: Width, c: Instant, b2: nat, cutoff: Instant)
    requires c <= cutoff
    ensures FaceOf(Collapsed(s, b, w, c), b2, w, cutoff) == FaceOf(s, b2, w, cutoff)
  {
    hide BucketOf, BucketStart, Several, Collapsed, Mean;
    var m, n, r := Members(s, b, w, c), Members(s, b2, w, cutoff), Collapsed(s, b, w, c);
    if !Several(m) {
      CollapsedAt(s, b, w, c, 0.0);
    } else {
      CollapsedMembers(s, b, w, c, b2, cutoff);
      SeveralSome(m);
      StartIsOld(s, b, w, c);
      if b2 == b {
        CollapsedAt(s, b, w, c, BucketStart(b, w));
        SameBucketFace(s, b, w, c, cutoff);
      } else if n != {} {
        CollapsedAt(s, b, w, c, Latest(n));
      }
    }
  }

  lemma SameBucketFace(s: Series, b: nat, w: Width, c: Instant, cutoff: Instant)
    requires c <= cutoff && Several(Members(s, b, w, c))
    ensures FaceOf(Collapsed(s, b, w, c), b, w, cutoff) == FaceOf(s, b, w, cutoff)
  {
    hide BucketOf, BucketStart, Several, Collapsed, Mean;
    var start, r := BucketStart(b, w), Collapsed(s, b, w, c);
    var m, n, n2 := Members(s, b, w, c), Members(s, b, w, cutoff), Members(r, b, w, cutoff);
    SeveralSome(m);
    SeveralGrows(m, n);
    StartIsOld(s, b, w, c);
    CollapsedMembers(s, b, w, c, b, cutoff);
    CollapsedAt(s, b, w, c, start);
    var top := Latest(n);
    if top < c {
      assert n == m;
      OneIsNotSeveral(n2, start);
    } else {
      CollapsedAt(s, b, w, c, top);
      LatestIs(n2, top);
      SeveralTwo(n2, top, start);
    }
  }

  lemma YoungRowsKept(s: Series, b: nat, w: Width, c: Instant, t: Instant)
    requires c <= t
    ensures var r := Collapsed(s, b, w, c); (t in r <==> t in s) && (t in r ==> r[t] == s[t])
  {
    hide BucketOf, BucketStart, Several, Collapsed;
    CollapsedAt(s, b, w, c, t);
    if Several(Members(s, b, w, c)) {
      SeveralSome(Members(s, b, w, c));
      StartIsOld(s, b, w, c);
    }
  }

  // ----- histories ---------------------------------------------------------------------------------

  /** A sample arrives, or maintenance collapses one bucket at some cutoff. A pass is a
      run of collapses and may stop after any of them. */
  datatype Op = Arrive(ts: Instant, row: Row) | Collapse(bucket: nat, cutoff: Instant)

  function Done(s: Series, w: Width, op: Op): Series {
    match op
    case Arrive(ts, row) => s[ts := row]
    case Collapse(b, c) => Collapsed(s, b, w, c)
  }

  function Ran(w: Width, ops: seq<Op>): Series {
    if ops == [] then map[] else Done(Ran(w, ops[..|ops| - 1]), w, ops[|ops| - 1])
  }

  /** The samples alone. */
  function Arrivals(ops: seq<Op>): seq<Op> {
    if ops == [] then []
    else
      var rest := Arrivals(ops[..|ops| - 1]);
      if ops[|ops| - 1].Arrive? then rest + [ops[|ops| - 1]] else rest
  }

  /** No row is as new as t. */
  predicate Newer(s: Series, t: Instant) { forall u :: u in s ==> u < t }

  /** Each sample is newer than those before it. */
  predicate InOrder(w: Width, ops: seq<Op>) {
    forall i :: 0 <= i < |ops| && ops[i].Arrive? ==> Newer(Ran(w, Arrivals(ops[..i])), ops[i].ts)
  }

  predicate UpTo(ops: seq<Op>, cutoff: Instant) {
    forall i :: 0 <= i < |ops| && ops[i].Collapse? ==> ops[i].cutoff <= cutoff
  }

  predicate SameAt(s: Series, r: Series, t: Instant) { (t in s <==> t in r) && (t in s ==> s[t] == r[t]) }

  /** The same rows once rolled up at a cutoff: bucket by bucket below it, row by row above. */
  ghost predicate Alike(s: Series, r: Series, w: Width, cutoff: Instant) {
    && (forall b: nat :: FaceOf(s, b, w, cutoff) == FaceOf(r, b, w, cutoff))
    && (forall t: Instant :: cutoff <= t ==> SameAt(s, r, t))
  }

  lemma CollapseAlike(s: Series, b: nat, w: Width, c: Instant, cutoff: Instant)
    requires c <= cutoff
    ensures Alike(s, Collapsed(s, b, w, c), w, cutoff)
  {
    hide FaceOf, Collapsed;
    forall b2: nat ensures FaceOf(s, b2, w, cutoff) == FaceOf(Collapsed(s, b, w, c), b2, w, cutoff) {
      FaceKept(s, b, w, c, b2, cutoff);
    }
    forall t: Instant | cutoff <= t ensures SameAt(s, Collapsed(s, b, w, c), t)
    {
      YoungRowsKept(s, b, w, c, t);
    }
  }

  /** What a bucket shows after a newer sample depends only on what it showed before. */
  lemma ArrivalFace(s: Series, t: Instant, row: Row, b: nat, w: Width, cutoff: Instant)
    requires Newer(s, t)
    ensures FaceOf(s[t := row], b, w, cutoff) ==
            if BucketOf(t, w) != b || cutoff <= t then FaceOf(s, b, w, cutoff)
            else if FaceOf(s, b, w, cutoff).Nothing? then Shown(t, row.counters)
            else Shown(BucketStart(b, w), row.counters)
  {
    hide BucketOf, BucketStart, Several;
    var r := s[t := row];
    var m, n := Members(s, b, w, cutoff), Members(r, b, w, cutoff);
    if BucketOf(t, w) != b || cutoff <= t {
      assert n == m;
    } else {
      assert n == m + {t};
      LatestIs(n, t);
      if m == {} {
        OneIsNotSeveral(n, t);
      } else {
        SeveralTwo(n, t, Latest(m));
      }
    }
  }

  lemma ArrivalAlike(s: Series, r: Series, t: Instant, row: Row, w: Width, cutoff: Instant)
    requires Alike(s, r, w, cutoff) && Newer(s, t) && Newer(r, t)
    ensures Alike(s[t := row], r[t := row], w, cutoff)
  {
    hide FaceOf, BucketOf, BucketStart;
    var s2, r2 := s[t := row], r[t := row];
    forall b: nat ensures FaceOf(s2, b, w, cutoff) == FaceOf(r2, b, w, cutoff) {
      ArrivalFace(s, t, row, b, w, cutoff);
      ArrivalFace(r, t, row, b, w, cutoff);
    }
    forall u: Instant | cutoff <= u ensures SameAt(s2, r2, u) {
      assert SameAt(s, r, u);
    }
  }

  /** A collapse dates nothing later than it was. */
  lemma CollapseStaysOlder(s: Series, b: nat, w: Width, c: Instant, t: Instant)
    requires Newer(s, t)
    ensures Newer(Collapsed(s, b, w, c), t)
  {
    hide BucketOf, BucketStart, Several, Aggregate, Members;
    var m, r := Members(s, b, w, c), Collapsed(s, b, w, c);
    forall u | u in r ensures u < t {
      CollapsedAt(s, b, w, c, u);
      if Several(m) && u == BucketStart(b, w) {
        SeveralSome(m);
        StartIsOld(s, b, w, c);
        MembersAreRows(s, b, w, c);
        var v :| v in m;
      }
    }
  }

  lemma MembersAreRows(s: Series, b: nat, w: Width, c: Instant)
    ensures Members(s, b, w, c) <= s.Keys
  {
  }

  lemma InOrderPrefix(w: Width, ops: seq<Op>)
    requires ops != [] && InOrder(w, ops)
    ensures InOrder(w, ops[..|ops| - 1])
    ensures ops[|ops| - 1].Arrive? ==> Newer(Ran(w, Arrivals(ops[..|ops| - 1])), ops[|ops| - 1].ts)
  {
    hide Newer, Ran, Arrivals;
    var n := |ops| - 1;
    forall i | 0 <= i < n && ops[..n][i].Arrive?
      ensures Newer(Ran(w, Arrivals(ops[..n][..i])), ops[..n][i].ts)
    {
      assert ops[..n][..i] == ops[..i];
    }
  }

  lemma ArrivalsStep(w: Width, ops: seq<Op>)
    requires ops != []
    ensures var n := |ops| - 1;
            Ran(w, Arrivals(ops)) ==
            if ops[n].Arrive? then Ran(w, Arrivals(ops[..n]))[ops[n].ts := ops[n].row] else Ran(w, Arrivals(ops[..n]))
  {
    var n := |ops| - 1;
    var rest := Arrivals(ops[..n]);
    assert (rest + [ops[n]])[..|rest|] == rest;
  }

  /** Maintenance keeps every row no newer than the samples themselves. */
  lemma {:induction false} NewerThanBoth(w: Width, ops: seq<Op>, t: Instant)
    requires Newer(Ran(w, Arrivals(ops)), t) && InOrder(w, ops)
    ensures Newer(Ran(w, ops), t)
  {
    if ops != [] {
      var n := |ops| - 1;
      InOrderPrefix(w, ops);
      ArrivalsStep(w, ops);
      hide Arrivals, Collapsed;
      var raw := Ran(w, Arrivals(ops[..n]));
      if ops[n].Arrive? {
        assert ops[n].ts in Ran(w, Arrivals(ops));
        assert Newer(raw, t);
      }
      NewerThanBoth(w, ops[..n], t);
      if ops[n].Collapse? {
        CollapseStaysOlder(Ran(w, ops[..n]), ops[n].bucket, w, ops[n].cutoff, t);
      }
    }
  }

  /** Whatever maintenance ran in between, at cutoffs up to this one, the series is the one
      of the samples alone once both are rolled up at this cutoff. */
  lemma {:induction false} MaintenanceIsInvisible(w: Width, ops: seq<Op>, cutoff: Instant)
    requires InOrder(w, ops) && UpTo(ops, cutoff)
    ensures Alike(Ran(w, ops), Ran(w, Arrivals(ops)), w, cutoff)
  {
    hide Alike, Collapsed, Newer;
    if ops == [] {
      AlikeItself(map[], w, cutoff);
    } else {
      var n := |ops| - 1;
      var op := ops[n];
      InOrderPrefix(w, ops);
      ArrivalsStep(w, ops);
      MaintenanceIsInvisible(w, ops[..n], cutoff);
      var s, raw := Ran(w, ops[..n]), Ran(w, Arrivals(ops[..n]));
      if op.Arrive? {
        NewerThanBoth(w, ops[..n], op.ts);
        ArrivalAlike(s, raw, op.ts, op.row, w, cutoff);
      } else {
        CollapseAlike(s, op.bucket, w, op.cutoff, cutoff);
        AlikeTrans(Collapsed(s, op.bucket, w, op.cutoff), s, raw, w, cutoff);
      }
    }
  }

  lemma AlikeItself(s: Series, w: Width, cutoff: Instant)
    ensures Alike(s, s, w, cutoff)
  {
  }

  lemma AlikeSym(s: Series, r: Series, w: Width, cutoff: Instant)
    requires Alike(s, r, w, cutoff)
    ensures Alike(r, s, w, cutoff)
  {
    hide FaceOf;
    forall t: Instant | cutoff <= t ensures SameAt(r, s, t) {
      assert SameAt(s, r, t);
    }
  }

  lemma AlikeTrans(a: Series, b: Series, c: Series, w: Width, cutoff: Instant)
    requires Alike(b, a, w, cutoff) && Alike(b, c, w, cutoff)
    ensures Alike(a, c, w, cutoff)
  {
    hide FaceOf, SameAt;
    forall t: Instant | cutoff <= t ensures SameAt(a, c, t) {
      SameAtTrans(a, b, c, t, cutoff);
    }
    forall k: nat ensures FaceOf(a, k, w, cutoff) == FaceOf(c, k, w, cutoff) {
      assert FaceOf(b, k, w, cutoff) == FaceOf(a, k, w, cutoff);
    }
  }

  lemma SameAtTrans(a: Series, b: Series, c: Series, t: Instant, cutoff: Instant)
    requires cutoff <= t && SameAt(b, a, t) && SameAt(b, c, t)
    ensures SameAt(a, c, t)
  {
  }

  // ----- fully rolled up ------------------------------------------------------------------------------

  /** Nothing left to collapse below a cutoff. */
  ghost predicate RolledTo(s: Series, w: Width, cutoff: Instant) {
    forall b: nat :: !Several(Members(s, b, w, cutoff))
  }

  /** A series rolled up to a cutoff is its face, read off row by row. */
  lemma FaceIsTheRow(s: Series, w: Width, cutoff: Instant, t: Instant)
    requires RolledTo(s, w, cutoff) && t < cutoff
    ensures var face := FaceOf(s, BucketOf(t, w), w, cutoff);
            (t in s <==> face.Shown? && face.ts == t) && (t in s ==> s[t].counters == face.counters)
  {
    hide BucketOf, BucketStart;
    var m := Members(s, BucketOf(t, w), w, cutoff);
    assert !Several(m);
    if t in s {
      assert t in m && Latest(m) in m;
    }
  }

  ghost predicate SameCounters(s: Series, r: Series) {
    s.Keys == r.Keys && forall t :: t in s ==> s[t].counters == r[t].counters
  }

  lemma AlikeAndRolled(s: Series, r: Series, w: Width, cutoff: Instant)
    requires Alike(s, r, w, cutoff) && RolledTo(s, w, cutoff) && RolledTo(r, w, cutoff)
    ensures SameCounters(s, r)
  {
    hide FaceOf, RolledTo, BucketOf;
    forall t: Instant ensures (t in s <==> t in r) && (t in s ==> s[t].counters == r[t].counters) {
      if cutoff <= t {
        assert SameAt(s, r, t);
      } else {
        FaceIsTheRow(s, w, cutoff, t);
        FaceIsTheRow(r, w, cutoff, t);
      }
    }
  }

  /** Confluence: two histories of the same samples, with whatever passes in between and
      stopped wherever, agree on every row and cumulative counter once both are rolled up
      to one cutoff. */
  lemma RollupIsConfluent(w: Width, a: seq<Op>, b: seq<Op>, cutoff: Instant)
    requires InOrder(w, a) && InOrder(w, b) && UpTo(a, cutoff) && UpTo(b, cutoff) && Arrivals(a) == Arrivals(b)
    requires RolledTo(Ran(w, a), w, cutoff) && RolledTo(Ran(w, b), w, cutoff)
    ensures SameCounters(Ran(w, a), Ran(w, b))
  {
    hide InOrder, UpTo, RolledTo, Ran, Arrivals, Alike, SameCounters;
    MaintenanceIsInvisible(w, a, cutoff);
    MaintenanceIsInvisible(w, b, cutoff);
    var raw := Ran(w, Arrivals(a));
    AlikeSym(Ran(w, a), raw, w, cutoff);
    AlikeSym(Ran(w, b), raw, w, cutoff);
    AlikeTrans(Ran(w, a), raw, Ran(w, b), w, cutoff);
    AlikeAndRolled(Ran(w, a), Ran(w, b), w, cutoff);
  }

  /** A repeated pass has nothing to do. */
  lemma RepeatedPassIsIdle(s: Series, b: nat, w: Width, c: Instant, cutoff: Instant)
    requires RolledTo(s, w, cutoff) && c <= cutoff
    ensures Collapsed(s, b, w, c) == s
  {
    hide BucketOf, Aggregate;
    if Several(Members(s, b, w, c)) {
      SeveralGrows(Members(s, b, w, c), Members(s, b, w, cutoff));
      assert false;
    }
  }

  // ----- what readers of the samples see ------------------------------------------------------------------

  /** The newest cumulative values of a slot. */
  function NewestOf(s: Series): Option<Counters> {
    if s.Keys == {} then None else Some(s[Latest(s.Keys)].counters)
  }

  /** A collapse re-dates the newest row only if it takes it in, and then to its bucket's start. */
  lemma LatestAfterCollapse(s: Series, b: nat, w: Width, c: Instant)
    requires s.Keys != {}
    ensures var m, r, top := Members(s, b, w, c), Collapsed(s, b, w, c), Latest(s.Keys);
            && r.Keys != {}
            && Latest(r.Keys) == (if Several(m) && top in m then BucketStart(b, w) else top)
            && r[Latest(r.Keys)].counters == s[top].counters
  {
    hide BucketOf, BucketStart, Several, Collapsed, Mean;
    var m, r, start := Members(s, b, w, c), Collapsed(s, b, w, c), BucketStart(b, w);
    if !Several(m) {
      CollapsedAt(s, b, w, c, 0.0);
    } else {
      SeveralSome(m);
      StartIsOld(s, b, w, c);
      CollapsedAt(s, b, w, c, start);
      var top := Latest(s.Keys);
      forall u | u in r ensures u <= if top in m then start else top {
        CollapsedAt(s, b, w, c, u);
        if top in m && u != start {
          RowsBesideABucket(s, b, w, c, u, top);
        }
      }
      if top in m {
        LatestIs(m, top);
        LatestIs(r.Keys, start);
      } else {
        StartIsOlder(s, b, w, c, top);
        CollapsedAt(s, b, w, c, top);
        LatestIs(r.Keys, top);
      }
    }
  }

  lemma NewestKept(s: Series, b: nat, w: Width, c: Instant)
    ensures NewestOf(Collapsed(s, b, w, c)) == NewestOf(s)
  {
    hide BucketOf, BucketStart, Aggregate, Latest;
    if s.Keys != {} {
      LatestAfterCollapse(s, b, w, c);
    } else {
      assert Members(s, b, w, c) == {};
    }
  }

  /** With the newest row of all among a bucket's old rows, every other row is before it. */
  lemma RowsBesideABucket(s: Series, b: nat, w: Width, c: Instant, u: Instant, top: Instant)
    requires u in s && u !in Members(s, b, w, c) && top in Members(s, b, w, c) && u <= top
    ensures u < BucketStart(b, w)
  {
    hide BucketStart;
    BucketRises(u, top, w);
    hide BucketOf;
    BucketsAscend(u, top, w);
  }

  lemma BucketRises(t: Instant, u: Instant, w: Width)
    requires t <= u
    ensures BucketOf(t, w) <= BucketOf(u, w)
  {
    hide BucketOf, BucketStart;
    if BucketOf(u, w) < BucketOf(t, w) {
      BucketsAscend(u, t, w);
      BucketBounds(t, w);
    }
  }

  /** A row outside a bucket's old rows is not dated at the bucket's start when it is the newest. */
  lemma StartIsOlder(s: Series, b: nat, w: Width, c: Instant, top: Instant)
    requires Members(s, b, w, c) != {} && top !in Members(s, b, w, c) && top in s
    requires forall u :: u in s ==> u <= top
    ensures BucketStart(b, w) < top
  {
    hide BucketOf, BucketStart;
    StartIsOld(s, b, w, c);
    var v :| v in Members(s, b, w, c);
    assert v <= top && v != top;
  }

  /** After any roll-up a slot's newest cumulative values are those of its newest sample. */
  lemma {:induction false} NewestUnchanged(w: Width, ops: seq<Op>)
    requires InOrder(w, ops)
    ensures NewestOf(Ran(w, ops)) == NewestOf(Ran(w, Arrivals(ops)))
  {
    hide Collapsed, Newer, NewestOf;
    if ops != [] {
      var n := |ops| - 1;
      var op := ops[n];
      InOrderPrefix(w, ops);
      ArrivalsStep(w, ops);
      NewestUnchanged(w, ops[..n]);
      if op.Arrive? {
        NewerThanBoth(w, ops[..n], op.ts);
        NewestArrives(Ran(w, ops[..n]), op.ts, op.row);
        NewestArrives(Ran(w, Arrivals(ops[..n])), op.ts, op.row);
      } else {
        NewestKept(Ran(w, ops[..n]), op.bucket, w, op.cutoff);
      }
    }
  }

  lemma NewestArrives(s: Series, t: Instant, row: Row)
    requires Newer(s, t)
    ensures NewestOf(s[t := row]) == Some(row.counters)
  {
    var r := s[t := row];
    assert r.Keys == s.Keys + {t};
    LatestIs(r.Keys, t);
  }

  /** A counter that never falls. */
  predicate Rises(s: Series, key: string) {
    forall t, u :: t in s && u in s && t < u ==> At(s[t].counters, key) <= At(s[u].counters, key)
  }

  lemma CollapseKeepsRising(s: Series, b: nat, w: Width, c: Instant, key: string)
    requires Rises(s, key)
    ensures Rises(Collapsed(s, b, w, c), key)
  {
    hide BucketOf, BucketStart, Several, Collapsed, Mean, Members;
    var m, r, start := Members(s, b, w, c), Collapsed(s, b, w, c), BucketStart(b, w);
    if !Several(m) {
      CollapsedAt(s, b, w, c, 0.0);
    } else {
      forall t, u | t in r && u in r && t < u ensures At(r[t].counters, key) <= At(r[u].counters, key) {
        CollapsedAt(s, b, w, c, t);
        CollapsedAt(s, b, w, c, u);
        RisesPast(s, b, w, c, t, u, key);
      }
    }
  }

  lemma RisesPast(s: Series, b: nat, w: Width, c: Instant, t: Instant, u: Instant, key: string)
    requires Rises(s, key) && Several(Members(s, b, w, c)) && t < u
    requires t in Collapsed(s, b, w, c) && u in Collapsed(s, b, w, c)
    ensures At(Collapsed(s, b, w, c)[t].counters, key) <= At(Collapsed(s, b, w, c)[u].counters, key)
  {
    hide BucketOf, BucketStart, Several, Collapsed, Mean, Members;
    var m, start := Members(s, b, w, c), BucketStart(b, w);
    CollapsedAt(s, b, w, c, t);
    CollapsedAt(s, b, w, c, u);
    SeveralSome(m);
    MembersAreRows(s, b, w, c);
    var last := Latest(m);
    if t == start {
      AfterStart(s, b, w, c, u);
    } else if u == start {
      StartIsOld(s, b, w, c);
      assert t < last;
    }
  }

  /** A kept row after a bucket's start is after all its old rows. */
  lemma AfterStart(s: Series, b: nat, w: Width, c: Instant, u: Instant)
    requires u in s && u !in Members(s, b, w, c) && BucketStart(b, w) < u
    ensures forall t :: t in Members(s, b, w, c) ==> t < u
  {
    hide BucketOf, BucketStart;
    forall t | t in Members(s, b, w, c) ensures t < u {
      if u <= t {
        BucketRises(u, t, w);
        StartIsInBucket(b, w);
        BucketRises(BucketStart(b, w), u, w);
        assert false;
      }
    }
  }

  lemma RisesBelowNewest(s: Series, t: Instant, row: Row, key: string)
    requires Rises(s, key) && Newer(s, t)
    requires NewestOf(s).Some? ==> At(NewestOf(s).value, key) <= At(row.counters, key)
    ensures Rises(s[t := row], key)
  {
    hide Latest;
    var r := s[t := row];
    forall u, v | u in r && v in r && u < v ensures At(r[u].counters, key) <= At(r[v].counters, key) {
      if v == t {
        assert u in s.Keys;
        var top := Latest(s.Keys);
        assert At(s[u].counters, key) <= At(s[top].counters, key);
      }
    }
  }

  lemma RisingArrival(raw: Series, t: Instant, row: Row, key: string)
    requires Newer(raw, t) && Rises(raw[t := row], key)
    ensures Rises(raw, key)
    ensures NewestOf(raw).Some? ==> At(NewestOf(raw).value, key) <= At(row.counters, key)
  {
    var r := raw[t := row];
    forall u, v | u in raw && v in raw && u < v ensures At(raw[u].counters, key) <= At(raw[v].counters, key) {
      assert r[u] == raw[u] && r[v] == raw[v];
    }
    if raw.Keys != {} {
      var top := Latest(raw.Keys);
      assert top in r && t in r && r[top] == raw[top] && r[t] == row && top < t;
    }
  }

  /** A counter that never falls over the samples never falls over what maintenance made of
      them, whatever came in between. */
  lemma {:induction false} RisesThroughMaintenance(w: Width, ops: seq<Op>, key: string)
    requires InOrder(w, ops) && Rises(Ran(w, Arrivals(ops)), key)
    ensures Rises(Ran(w, ops), key)
  {
    hide Collapsed, Newer, Rises, NewestOf;
    if ops == [] {
      NothingRises(key);
    } else {
      var n := |ops| - 1;
      var op := ops[n];
      var s, raw := Ran(w, ops[..n]), Ran(w, Arrivals(ops[..n]));
      InOrderPrefix(w, ops);
      ArrivalsStep(w, ops);
      if op.Arrive? {
        RisingArrival(raw, op.ts, op.row, key);
        RisesThroughMaintenance(w, ops[..n], key);
        NewestUnchanged(w, ops[..n]);
        NewerThanBoth(w, ops[..n], op.ts);
        RisesBelowNewest(s, op.ts, op.row, key);
      } else {
        RisesThroughMaintenance(w, ops[..n], key);
        CollapseKeepsRising(s, op.bucket, w, op.cutoff, key);
      }
    }
  }

  lemma NothingRises(key: string)
    ensures Rises(map[], key)
  {
  }

  /** The gauges of a bucket lie in a range. */
  predicate Within(s: Series, b: nat, w: Width, lo: real, hi: real) {
    forall t :: t in s && BucketOf(t, w) == b && s[t].gauge.Some? ==> lo <= s[t].gauge.value <= hi
  }

  /** A sum of n values from a range. */
  predicate SumOf(sum: real, n: nat, lo: real, hi: real) { n as real * lo <= sum <= n as real * hi }

  lemma NoValues(lo: real, hi: real)
    ensures SumOf(0.0, 0, lo, hi)
  {
  }

  lemma OneMore(sum: real, n: nat, x: real, lo: real, hi: real)
    requires SumOf(sum, n, lo, hi) && lo <= x <= hi
    ensures SumOf(x + sum, 1 + n, lo, hi)
  {
    var d := n as real;
    assert (1 + n) as real == d + 1.0;
    assert (d + 1.0) * lo == d * lo + lo && (d + 1.0) * hi == d * hi + hi;
  }

  lemma {:induction false} SumWithin(s: Series, m: set<Instant>, lo: real, hi: real)
    requires m <= s.Keys && forall t :: t in m && s[t].gauge.Some? ==> lo <= s[t].gauge.value <= hi
    ensures SumOf(GaugeSum(s, m), GaugeCount(s, m), lo, hi)
    decreases m
  {
    hide SumOf, Latest;
    if m == {} {
      NoValues(lo, hi);
    } else {
      var t := Latest(m);
      var rest := m - {t};
      SumWithin(s, rest, lo, hi);
      if s[t].gauge.Some? {
        OneMore(GaugeSum(s, rest), GaugeCount(s, rest), s[t].gauge.value, lo, hi);
      }
    }
  }

  lemma NegativeProduct(x: real, d: real)
    requires x < 0.0 < d
    ensures x * d < 0.0
  {
  }

  lemma FactorSign(x: real, d: real)
    requires 0.0 < d && 0.0 <= x * d
    ensures 0.0 <= x
  {
    if x < 0.0 {
      NegativeProduct(x, d);
    }
  }

  lemma QuotientWithin(sum: real, n: nat, lo: real, hi: real)
    requires n > 0 && SumOf(sum, n, lo, hi)
    ensures lo <= sum / n as real <= hi
  {
    var q, d := sum / n as real, n as real;
    assert q * d == sum;
    assert (q - lo) * d == q * d - d * lo && (hi - q) * d == d * hi - q * d;
    FactorSign(q - lo, d);
    FactorSign(hi - q, d);
  }

  /** The mean of a bucket lies where its rows lay. */
  lemma GaugesStayWithin(s: Series, b: nat, w: Width, c: Instant, b2: nat, lo: real, hi: real)
    requires Within(s, b2, w, lo, hi)
    ensures Within(Collapsed(s, b, w, c), b2, w, lo, hi)
  {
    hide BucketOf, BucketStart, Several, Collapsed, GaugeCount, GaugeSum;
    var m, r := Members(s, b, w, c), Collapsed(s, b, w, c);
    forall t | t in r && BucketOf(t, w) == b2 && r[t].gauge.Some? ensures lo <= r[t].gauge.value <= hi {
      CollapsedAt(s, b, w, c, t);
      if Several(m) && t == BucketStart(b, w) {
        StartIsInBucket(b, w);
        SumWithin(s, m, lo, hi);
        QuotientWithin(GaugeSum(s, m), GaugeCount(s, m), lo, hi);
      }
    }
  }

  /** Every gauge maintenance leaves in a bucket, means and later means over means, lies where
      the bucket's samples lay. */
  lemma {:induction false} GaugesWithinThroughMaintenance(w: Width, ops: seq<Op>, b: nat, lo: real, hi: real)
    requires InOrder(w, ops) && Within(Ran(w, Arrivals(ops)), b, w, lo, hi)
    ensures Within(Ran(w, ops), b, w, lo, hi)
  {
    hide Collapsed, BucketOf, Newer;
    if ops != [] {
      var n := |ops| - 1;
      var op := ops[n];
      var s, raw := Ran(w, ops[..n]), Ran(w, Arrivals(ops[..n]));
      InOrderPrefix(w, ops);
      ArrivalsStep(w, ops);
      assert Within(raw, b, w, lo, hi) by { EarlierWithin(w, ops, b, lo, hi); }
      GaugesWithinThroughMaintenance(w, ops[..n], b, lo, hi);
      if op.Collapse? {
        GaugesStayWithin(s, op.bucket, w, op.cutoff, b, lo, hi);
      } else {
        assert op.ts in Ran(w, Arrivals(ops));
      }
    }
  }

  lemma EarlierWithin(w: Width, ops: seq<Op>, b: nat, lo: real, hi: real)
    requires ops != [] && InOrder(w, ops) && Within(Ran(w, Arrivals(ops)), b, w, lo, hi)
    ensures Within(Ran(w, Arrivals(ops[..|ops| - 1])), b, w, lo, hi)
  {
    hide BucketOf, Collapsed, Ran, Arrivals;
    var n := |ops| - 1;
    var raw, all := Ran(w, Arrivals(ops[..n])), Ran(w, Arrivals(ops));
    InOrderPrefix(w, ops);
    ArrivalsStep(w, ops);
    forall t | t in raw ensures t in all && all[t] == raw[t] {
    }
  }

  // ----- the mean of one collapse -----------------------------------------------------------------------

  /** The gauges of the rows at those instants, the missing ones left out. */
  function Gauges(s: Series, order: seq<Instant>): seq<real>
    requires forall t :: t in order ==> t in s
  {
    if order == [] then []
    else (if s[order[0]].gauge.Some? then [s[order[0]].gauge.value] else []) + Gauges(s, order[1..])
  }

  function Total(xs: seq<real>): real { if xs == [] then 0.0 else xs[0] + Total(xs[1..]) }

  /** Every member once, in some order. */
  ghost predicate Lists(order: seq<Instant>, m: set<Instant>) {
    && (forall t :: t in order <==> t in m)
    && forall i, j :: 0 <= i < j < |order| ==> order[i] != order[j]
  }

  lemma {:induction false} TotalPlus(a: seq<real>, b: seq<real>)
    ensures Total(a + b) == Total(a) + Total(b)
  {
    if a == [] {
      assert a + b == b;
    } else {
      TotalPlus(a[1..], b);
      assert (a + b)[1..] == a[1..] + b;
    }
  }

  lemma {:induction false} GaugesPlus(s: Series, a: seq<Instant>, b: seq<Instant>)
    requires forall t :: t in a + b ==> t in s
    ensures Gauges(s, a + b) == Gauges(s, a) + Gauges(s, b)
  {
    if a == [] {
      assert a + b == b;
    } else {
      assert (a + b)[1..] == a[1..] + b;
      GaugesPlus(s, a[1..], b);
    }
  }

  lemma GaugesSplit(s: Series, a: seq<Instant>, t: Instant, b: seq<Instant>)
    requires forall u :: u in a + ([t] + b) ==> u in s
    ensures t in s && forall u :: u in a + b ==> u in s
    ensures var whole, rest := Gauges(s, a + ([t] + b)), Gauges(s, a + b);
            if s[t].gauge.Some? then Total(whole) == s[t].gauge.value + Total(rest) && |whole| == 1 + |rest|
            else Total(whole) == Total(rest) && |whole| == |rest|
  {
    hide Gauges, Total;
    assert t in a + ([t] + b);
    forall u | u in a + b ensures u in a + ([t] + b) {
    }
    GaugesPlus(s, a, [t] + b);
    GaugesPlus(s, [t], b);
    GaugesPlus(s, a, b);
    OneGauge(s, t);
    var one := Gauges(s, [t]);
    TotalPlus(Gauges(s, a), one + Gauges(s, b));
    TotalPlus(one, Gauges(s, b));
    TotalPlus(Gauges(s, a), Gauges(s, b));
  }

  lemma OneGauge(s: Series, t: Instant)
    requires t in s
    ensures var one := Gauges(s, [t]);
            if s[t].gauge.Some? then Total(one) == s[t].gauge.value && |one| == 1 else Total(one) == 0.0 && |one| == 0
  {
    assert [t][1..] == [];
  }

  lemma NewestFirst(s: Series, m: set<Instant>)
    requires m <= s.Keys && m != {}
    ensures var t := Latest(m);
            if s[t].gauge.Some? then
              && GaugeSum(s, m) == s[t].gauge.value + GaugeSum(s, m - {t})
              && GaugeCount(s, m) == 1 + GaugeCount(s, m - {t})
            else GaugeSum(s, m) == GaugeSum(s, m - {t}) && GaugeCount(s, m) == GaugeCount(s, m - {t})
  {
    hide Latest;
  }

  lemma ListedAt(order: seq<Instant>, m: set<Instant>, t: Instant) returns (k: nat)
    requires Lists(order, m) && t in m
    ensures k < |order| && order[k] == t && order == order[..k] + ([t] + order[k + 1..])
  {
    k :| 0 <= k < |order| && order[k] == t;
  }

  lemma NoGauges(s: Series)
    ensures GaugeSum(s, {}) == Total(Gauges(s, [])) && GaugeCount(s, {}) == |Gauges(s, [])|
  {
  }

  /** The order does not matter. */
  lemma {:induction false} GaugesAdd(s: Series, m: set<Instant>, order: seq<Instant>)
    requires m <= s.Keys && Lists(order, m)
    ensures GaugeSum(s, m) == Total(Gauges(s, order)) && GaugeCount(s, m) == |Gauges(s, order)|
    decreases |order|
  {
    hide Latest, Gauges, Total, GaugeSum, GaugeCount;
    if m == {} {
      NoneListed(order);
      NoGauges(s);
    } else {
      var t := Latest(m);
      var k := ListedAt(order, m, t);
      Without(order, m, k);
      GaugesAdd(s, m - {t}, order[..k] + order[k + 1..]);
      GaugesSplit(s, order[..k], t, order[k + 1..]);
      NewestFirst(s, m);
    }
  }

  lemma NoneListed(order: seq<Instant>)
    requires Lists(order, {})
    ensures order == []
  {
    hide Lists;
    if order != [] {
      FirstIsListed(order, {});
    }
  }

  lemma FirstIsListed(order: seq<Instant>, m: set<Instant>)
    requires Lists(order, m) && order != []
    ensures order[0] in m
  {
    assert order[0] in order;
  }

  lemma Without(order: seq<Instant>, m: set<Instant>, k: nat)
    requires Lists(order, m) && k < |order|
    ensures Lists(order[..k] + order[k + 1..], m - {order[k]})
  {
    var rest := order[..k] + order[k + 1..];
    assert forall i :: 0 <= i < |rest| ==> rest[i] == order[if i < k then i else i + 1];
    forall t | t in m - {order[k]} ensures t in rest {
      var i :| 0 <= i < |order| && order[i] == t;
      assert rest[if i < k then i else i - 1] == t;
    }
  }

  /** A bucket that is collapsed has, at its start, the counters of its newest row and exactly
      the mean of the gauges its rows have; none if none has one. */
  lemma CollapseTakesTheMean(s: Series, b: nat, w: Width, c: Instant, order: seq<Instant>)
    requires var m := Members(s, b, w, c); Several(m) && Lists(order, m)
    ensures var m, r, at := Members(s, b, w, c), Collapsed(s, b, w, c), BucketStart(b, w);
            var gauges := Gauges(s, order);
            && at in r && r[at].counters == s[Latest(m)].counters
            && (gauges == [] ==> r[at].gauge.None?)
            && (gauges != [] ==> r[at].gauge.Some? && r[at].gauge.value * |gauges| as real == Total(gauges))
  {
    hide BucketOf, BucketStart, GaugeSum, GaugeCount, Gauges, Latest;
    var m := Members(s, b, w, c);
    SeveralSome(m);
    CollapsedAt(s, b, w, c, BucketStart(b, w));
    GaugesAdd(s, m, order);
  }
}
