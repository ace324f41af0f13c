/** Splitting a run's rate across worker slots (server/engines/apportion.py).

    Weights and rates are exact reals, so the theorems below are about the
    algorithm and not about rounding of the arithmetic it is computed in. */
module Apportion {
  import opened Basics

  // ----- sums ---------------------------------------------------------------

  function Sum(xs: seq<real>): real {
    if xs == [] then 0.0 else xs[0] + Sum(xs[1..])
  }

  function SumInt(xs: seq<int>): int {
    if xs == [] then 0 else xs[0] + SumInt(xs[1..])
  }

  /** Products are named so that a proof can do without what they stand for. */
  function Times(c: real, x: real): real { c * x }

  function Scaled(xs: seq<real>, c: real): (r: seq<real>)
    ensures |r| == |xs| && forall i :: 0 <= i < |xs| ==> r[i] == Times(c, xs[i])
    ensures Sum(r) == Times(c, Sum(xs))
  {
    if xs == [] then [] else [Times(c, xs[0])] + Scaled(xs[1..], c)
  }

  lemma ProductSign(x: real, y: real)
    ensures x >= 0.0 && y >= 0.0 ==> x * y >= 0.0
    ensures x > 0.0 && y > 0.0 ==> x * y > 0.0
  {
  }

  lemma Distribute(c: real, x: real, y: real)
    ensures c * (x + y) == c * x + c * y
  {
  }

  function Ones(n: nat): (r: seq<real>)
    ensures |r| == n && forall i :: 0 <= i < n ==> r[i] == 1.0
    ensures Sum(r) == n as real
  {
    if n == 0 then [] else [1.0] + Ones(n - 1)
  }

  lemma {:induction false} SumUpdated(xs: seq<real>, k: nat, v: real)
    requires k < |xs|
    ensures Sum(xs[k := v]) == Sum(xs) - xs[k] + v
  {
    if k > 0 {
      SumUpdated(xs[1..], k - 1, v);
      assert xs[k := v][1..] == xs[1..][k - 1 := v];
    }
  }

  lemma {:induction false} SumIntBumped(xs: seq<int>, k: nat)
    requires k < |xs|
    ensures SumInt(xs[k := xs[k] + 1]) == SumInt(xs) + 1
  {
    if k > 0 {
      SumIntBumped(xs[1..], k - 1);
      assert xs[k := xs[k] + 1][1..] == xs[1..][k - 1 := xs[1..][k - 1] + 1];
    }
  }

  lemma {:induction false} SumIntNearSum(xs: seq<int>, ys: seq<real>)
    requires |xs| == |ys|
    requires forall i :: 0 <= i < |xs| ==> xs[i] as real <= ys[i] < xs[i] as real + 1.0
    ensures SumInt(xs) as real <= Sum(ys) <= SumInt(xs) as real + |xs| as real
  {
    if xs != [] {
      SumIntNearSum(xs[1..], ys[1..]);
    }
  }

  // ----- largest remainder --------------------------------------------------

  /** Equal weights stand in for weights that do not add up to something positive. */
  function Effective(weights: seq<real>): (r: seq<real>)
    ensures |r| == |weights|
    ensures weights != [] ==> Sum(r) > 0.0
  {
    if Sum(weights) <= 0.0 then Ones(|weights|) else weights
  }

  /** What one unit of weight is entitled to. */
  function Unit(total: real, weights: seq<real>): (u: real)
    requires weights != []
    ensures Times(u, Sum(Effective(weights))) == total
    ensures total >= 0.0 ==> u >= 0.0
  {
    total / Sum(Effective(weights))
  }

  /** Each slot's exact, usually fractional, entitlement. */
  function Quotas(total: real, weights: seq<real>): (q: seq<real>)
    ensures |q| == |weights|
    ensures weights != [] ==> Sum(q) == total
  {
    if weights == [] then [] else Scaled(Effective(weights), Unit(total, weights))
  }

  function Floors(q: seq<real>): (r: seq<int>)
    ensures |r| == |q|
    ensures forall i :: 0 <= i < |q| ==> r[i] as real <= q[i] < r[i] as real + 1.0
  {
    seq(|q|, i requires 0 <= i < |q| => q[i].Floor)
  }

  function Fraction(x: real): (f: real)
    ensures 0.0 <= f < 1.0
  {
    x - x.Floor as real
  }

  /** Slot i is served before slot j: bigger fraction first, lower index on a tie. */
  predicate Before(q: seq<real>, i: nat, j: nat)
    requires i < |q| && j < |q|
  {
    Fraction(q[i]) > Fraction(q[j]) || (Fraction(q[i]) == Fraction(q[j]) && i < j)
  }

  predicate Indices(order: seq<nat>, n: nat) {
    forall k :: 0 <= k < |order| ==> order[k] < n
  }

  predicate Distinct(order: seq<nat>) {
    forall k, m :: 0 <= k < m < |order| ==> order[k] != order[m]
  }

  predicate Ordered(q: seq<real>, order: seq<nat>)
    requires Indices(order, |q|)
  {
    forall k, m :: 0 <= k < m < |order| ==> Before(q, order[k], order[m])
  }

  /** Insert a new index into an ordered list of indices. */
  function Insert(q: seq<real>, order: seq<nat>, x: nat): (r: seq<nat>)
    requires Indices(order, |q|) && Ordered(q, order)
    requires x < |q| && x !in order
    ensures |r| == |order| + 1 && (forall y: nat :: y in r <==> y == x || y in order)
    ensures Indices(r, |q|) && Ordered(q, r)
  {
    if order == [] then [x]
    else if Before(q, x, order[0]) then [x] + order
    else
      var rest := Insert(q, order[1..], x);
      assert forall k :: 0 <= k < |rest| ==> Before(q, order[0], rest[k]) by {
        assert forall k :: 0 <= k < |rest| ==> rest[k] in rest;
        assert forall y: nat :: y in order[1..] ==> y < |q| && Before(q, order[0], y);
      }
      [order[0]] + rest
  }

  /** The first n slots in the order in which they are served. */
  function ServiceOrder(q: seq<real>, n: nat): (order: seq<nat>)
    requires n <= |q|
    ensures |order| == n && (forall y: nat :: y in order <==> y < n)
    ensures Indices(order, |q|) && Ordered(q, order)
  {
    if n == 0 then [] else Insert(q, ServiceOrder(q, n - 1), n - 1)
  }

  /** The slots that get one unit more than their floor: the first k served. */
  function Winners(q: seq<real>, k: nat): (r: seq<nat>)
    requires k <= |q|
    ensures |r| == k && Indices(r, |q|) && Distinct(r)
  {
    ServiceOrder(q, |q|)[..k]
  }

  /** Whoever is served earlier than a winner is a winner too. */
  lemma ServedFirst(q: seq<real>, k: nat, i: nat, j: nat)
    requires k <= |q| && i < |q| && j < |q| && Before(q, i, j)
    ensures j in Winners(q, k) ==> i in Winners(q, k)
  {
    var order := ServiceOrder(q, |q|);
    assert i in order && j in order;
    var a :| 0 <= a < |order| && order[a] == i;
    var b :| 0 <= b < |order| && order[b] == j;
    assert !Before(q, j, i);
    assert a < b;
    if j in Winners(q, k) {
      var m :| 0 <= m < k && order[m] == j;
      assert m == b;
      assert order[..k][a] == i;
    }
  }

  /** One extra unit for each of the listed slots. */
  function Bump(floors: seq<int>, slots: seq<nat>): (r: seq<int>)
    requires Indices(slots, |floors|) && Distinct(slots)
    ensures |r| == |floors|
    ensures forall i :: 0 <= i < |floors| ==> r[i] == floors[i] + (if i in slots then 1 else 0)
    ensures SumInt(r) == SumInt(floors) + |slots|
  {
    if slots == [] then floors
    else
      var last := slots[|slots| - 1];
      var r := Bump(floors, slots[..|slots| - 1]);
      SumIntBumped(r, last);
      assert forall i :: i in slots <==> i == last || i in slots[..|slots| - 1];
      r[last := r[last] + 1]
  }

  function Shortfall(total: nat, q: seq<real>): (k: nat)
    requires q != [] ==> Sum(q) == total as real
    ensures k <= |q|
    ensures q != [] ==> k == total - SumInt(Floors(q))
  {
    if q == [] then 0
    else
      SumIntNearSum(Floors(q), q);
      total - SumInt(Floors(q))
  }

  /** The parts largest_remainder hands out. */
  function Parts(total: nat, weights: seq<real>): (p: seq<int>)
    ensures |p| == |weights|
    ensures weights != [] ==> SumInt(p) == total
    ensures var q := Quotas(total as real, weights);
            forall i :: 0 <= i < |q| ==>
              p[i] == q[i].Floor + (if i in Winners(q, Shortfall(total, q)) then 1 else 0)
  {
    var q := Quotas(total as real, weights);
    Bump(Floors(q), Winners(q, Shortfall(total, q)))
  }

  /** largest_remainder: the list of floors is bumped in place, one slot at a time. */
  method LargestRemainder(total: int, weights: seq<real>) returns (r: Result<seq<int>>)
    ensures r.Failure? <==> total < 0
    ensures total >= 0 ==> r == Success(Parts(total, weights))
  {
    if total < 0 {
      return Failure("total must be >= 0");
    }
    var q := Quotas(total as real, weights);
    var winners := Winners(q, Shortfall(total, q));
    var floors := BumpInPlace(Floors(q), winners);
    return Success(floors);
  }

  method BumpInPlace(start: seq<int>, slots: seq<nat>) returns (floors: seq<int>)
    requires Indices(slots, |start|) && Distinct(slots)
    ensures floors == Bump(start, slots)
  {
    floors := start;
    for k := 0 to |slots|
      invariant floors == Bump(start, slots[..k])
    {
      assert slots[..k + 1][..k] == slots[..k];
      floors := floors[slots[k] := floors[slots[k]] + 1];
    }
    assert slots[..|slots|] == slots;
  }

  lemma {:induction false} SumAtMost(ys: seq<real>, xs: seq<int>)
    requires |xs| == |ys|
    requires forall i :: 0 <= i < |xs| ==> ys[i] <= xs[i] as real
    ensures Sum(ys) <= SumInt(xs) as real
  {
    if xs != [] {
      SumAtMost(ys[1..], xs[1..]);
    }
  }

  /** A slot whose quota is already whole is never given a unit more. */
  lemma WholeQuotaNeverWins(q: seq<real>, total: nat, j: nat)
    requires j < |q| && Sum(q) == total as real && Fraction(q[j]) == 0.0
    ensures j !in Winners(q, Shortfall(total, q))
  {
    var k := Shortfall(total, q);
    if j in Winners(q, k) {
      WholeAfterWhole(q, k, j);
      SumAtMost(q, Bump(Floors(q), Winners(q, k - 1)));
    }
  }

  lemma WholeAfterWhole(q: seq<real>, k: nat, j: nat)
    requires j < |q| && 0 < k <= |q| && Fraction(q[j]) == 0.0 && j in Winners(q, k)
    ensures forall i :: 0 <= i < |q| && i !in Winners(q, k - 1) ==> Fraction(q[i]) == 0.0
  {
    var order := ServiceOrder(q, |q|);
    var m :| 0 <= m < k && order[m] == j;
    forall i | 0 <= i < |q| && i !in Winners(q, k - 1) ensures Fraction(q[i]) == 0.0 {
      assert i in order;
      var a :| 0 <= a < |order| && order[a] == i;
      assert forall b :: 0 <= b < k - 1 ==> order[b] in Winners(q, k - 1);
      assert a >= k - 1;
      assert m < a ==> Before(q, order[m], order[a]);
    }
  }

  lemma QuotaOrder(total: nat, weights: seq<real>, i: nat, j: nat)
    requires i < |weights| && j < |weights|
    ensures var q := Quotas(total as real, weights);
            if Sum(weights) > 0.0 && weights[i] > weights[j] then q[i] > q[j] || q[i] == 0.0 == q[j]
            else weights[i] == weights[j] || Sum(weights) <= 0.0 ==> q[i] == q[j]
  {
    QuotaAt(total as real, weights, i);
    QuotaAt(total as real, weights, j);
    hide Quotas, Unit, Sum, Times;
    ScaledOrder(Unit(total as real, weights), Effective(weights)[i], Effective(weights)[j]);
  }

  lemma QuotaAt(total: real, weights: seq<real>, i: nat)
    requires i < |weights|
    ensures Quotas(total, weights)[i] == Times(Unit(total, weights), Effective(weights)[i])
  {
    hide Unit, Effective, Sum, Times;
  }

  lemma ScaledOrder(c: real, x: real, y: real)
    requires c >= 0.0
    ensures x > y ==> Times(c, x) > Times(c, y) || Times(c, x) == 0.0 == Times(c, y)
  {
    if x > y && c > 0.0 {
      ProductSign(c, x - y);
      assert c * (x - y) == c * x - c * y;
    }
  }

  lemma WinnersFollowQuota(q: seq<real>, total: nat, i: nat, j: nat)
    requires i < |q| && j < |q| && Sum(q) == total as real
    requires q[i] > q[j] || q[i] == 0.0 == q[j] || (q[i] == q[j] && i < j)
    ensures q[i].Floor >= q[j].Floor
    ensures q[i].Floor == q[j].Floor && j in Winners(q, Shortfall(total, q)) ==>
              i in Winners(q, Shortfall(total, q))
  {
    hide Winners, Shortfall, Sum;
    FloorMonotone(q[j], q[i]);
    if q[i] == 0.0 == q[j] {
      WholeQuotaNeverWins(q, total, j);
    } else if q[i].Floor == q[j].Floor {
      assert Before(q, i, j);
      ServedFirst(q, Shortfall(total, q), i, j);
    }
  }

  lemma FloorMonotone(x: real, y: real)
    requires x <= y
    ensures x.Floor <= y.Floor
  {
  }

  lemma PartAt(total: nat, weights: seq<real>, i: nat)
    requires i < |weights|
    ensures var q := Quotas(total as real, weights);
            Parts(total, weights)[i] == q[i].Floor + (if i in Winners(q, Shortfall(total, q)) then 1 else 0)
  {
    hide Quotas, Winners, Shortfall;
  }

  /** A larger weight never gets a smaller part, and equal weights differ by at most
      one unit, in favour of the lower slot. When no weight is usable the split is
      equal, so there too the lower slot is the one favoured. */
  lemma PartsFollowWeights(total: nat, weights: seq<real>, i: nat, j: nat)
    requires i < |weights| && j < |weights|
    requires if Sum(weights) > 0.0 && weights[i] != weights[j] then weights[i] > weights[j] else i < j
    ensures Parts(total, weights)[i] >= Parts(total, weights)[j]
    ensures weights[i] == weights[j] || Sum(weights) <= 0.0 ==>
              Parts(total, weights)[i] <= Parts(total, weights)[j] + 1
  {
    QuotaOrder(total, weights, i, j);
    WinnersFollowQuota(Quotas(total as real, weights), total, i, j);
    PartAt(total, weights, i);
    PartAt(total, weights, j);
    hide *;
  }

  // ----- optimality -----------------------------------------------------------

  function Abs(x: real): real { if x < 0.0 then -x else x }

  /** Total absolute deviation of an integer split from the exact quotas. */
  function Deviation(split: seq<int>, q: seq<real>): real
    requires |split| == |q|
  {
    if split == [] then 0.0
    else Abs(split[0] as real - q[0]) + Deviation(split[1..], q[1..])
  }

  /** What a slot's holding costs when every unit carries a price. */
  function Priced(x: int, q: real, price: real): real {
    Abs(x as real - q) + price * x as real
  }

  /** At the price the cut-off fraction fixes, no slot would rather hold another number. */
  lemma CutoffPriceFits(q: real, bumped: bool, cutoff: real, x: int)
    requires 0.0 <= cutoff <= 1.0
    requires if bumped then Fraction(q) >= cutoff else Fraction(q) <= cutoff
    ensures Priced(q.Floor + (if bumped then 1 else 0), q, 2.0 * cutoff - 1.0)
         <= Priced(x, q, 2.0 * cutoff - 1.0)
  {
    var m := (x - q.Floor) as real;
    var price := 2.0 * cutoff - 1.0;
    assert price * x as real == price * q.Floor as real + price * m;
    assert price * (q.Floor + 1) as real == price * q.Floor as real + price;
    if m <= 0.0 {
      ProductSign(-m, 1.0 - cutoff);
      assert price * m == m + 2.0 * (-m * (1.0 - cutoff));
    } else {
      ProductSign(m - 1.0, cutoff);
      assert price * m == 2.0 * ((m - 1.0) * cutoff) + 2.0 * cutoff - m;
    }
  }

  function PricedTotal(split: seq<int>, q: seq<real>, price: real): real
    requires |split| == |q|
  {
    if split == [] then 0.0
    else Priced(split[0], q[0], price) + PricedTotal(split[1..], q[1..], price)
  }

  function Charge(split: seq<int>, price: real): real {
    if split == [] then 0.0 else price * split[0] as real + Charge(split[1..], price)
  }

  lemma {:induction false} ChargeDependsOnSum(split: seq<int>, price: real)
    ensures Charge(split, price) == price * SumInt(split) as real
  {
    if split != [] {
      ChargeDependsOnSum(split[1..], price);
      Distribute(price, split[0] as real, SumInt(split[1..]) as real);
    }
  }

  lemma EqualCharge(split: seq<int>, other: seq<int>, price: real)
    requires SumInt(split) == SumInt(other)
    ensures Charge(split, price) == Charge(other, price)
  {
    ChargeDependsOnSum(split, price);
    ChargeDependsOnSum(other, price);
  }

  lemma {:induction false} PricedTotalSplits(split: seq<int>, q: seq<real>, price: real)
    requires |split| == |q|
    ensures PricedTotal(split, q, price) == Deviation(split, q) + Charge(split, price)
  {
    if split != [] {
      PricedTotalSplits(split[1..], q[1..], price);
    }
  }

  lemma {:induction false} PricedTotalMonotone(split: seq<int>, other: seq<int>, q: seq<real>, price: real)
    requires |split| == |other| == |q|
    requires forall i :: 0 <= i < |q| ==> Priced(split[i], q[i], price) <= Priced(other[i], q[i], price)
    ensures PricedTotal(split, q, price) <= PricedTotal(other, q, price)
  {
    if q != [] {
      assert Priced(split[0], q[0], price) <= Priced(other[0], q[0], price);
      PricedTotalMonotone(split[1..], other[1..], q[1..], price);
    }
  }

  lemma CheaperAtAPrice(split: seq<int>, other: seq<int>, q: seq<real>, price: real)
    requires |split| == |other| == |q| && SumInt(split) == SumInt(other)
    requires forall i :: 0 <= i < |q| ==> Priced(split[i], q[i], price) <= Priced(other[i], q[i], price)
    ensures Deviation(split, q) <= Deviation(other, q)
  {
    PricedTotalMonotone(split, other, q, price);
    PricedTotalSplits(split, q, price);
    PricedTotalSplits(other, q, price);
    EqualCharge(split, other, price);
  }

  /** The fraction of the last slot served separates the winners from the rest. */
  lemma Cutoff(q: seq<real>, k: nat) returns (cutoff: real)
    requires k <= |q|
    ensures 0.0 <= cutoff <= 1.0
    ensures forall i :: 0 <= i < |q| ==>
              if i in Winners(q, k) then Fraction(q[i]) >= cutoff else Fraction(q[i]) <= cutoff
  {
    if k == 0 {
      return 1.0;
    }
    var order := ServiceOrder(q, |q|);
    cutoff := Fraction(q[order[k - 1]]);
    forall i | 0 <= i < |q|
      ensures if i in Winners(q, k) then Fraction(q[i]) >= cutoff else Fraction(q[i]) <= cutoff
    {
      assert i in order;
      var m :| 0 <= m < |order| && order[m] == i;
      if m < k {
        assert Winners(q, k)[m] == i;
        assert m < k - 1 ==> Before(q, order[m], order[k - 1]);
      } else {
        assert Before(q, order[k - 1], order[m]);
        assert i !in Winners(q, k);
      }
    }
  }

  lemma CutoffSplitIsOptimal(q: seq<real>, winners: seq<nat>, cutoff: real, p: seq<int>, other: seq<int>)
    requires |p| == |other| == |q| && SumInt(p) == SumInt(other)
    requires 0.0 <= cutoff <= 1.0
    requires forall i :: 0 <= i < |q| ==>
               if i in winners then Fraction(q[i]) >= cutoff else Fraction(q[i]) <= cutoff
    requires forall i :: 0 <= i < |q| ==> p[i] == q[i].Floor + (if i in winners then 1 else 0)
    ensures Deviation(p, q) <= Deviation(other, q)
  {
    hide Priced, SumInt, Deviation, Fraction;
    forall i | 0 <= i < |q|
      ensures Priced(p[i], q[i], 2.0 * cutoff - 1.0) <= Priced(other[i], q[i], 2.0 * cutoff - 1.0)
    {
      CutoffPriceFits(q[i], i in winners, cutoff, other[i]);
    }
    CheaperAtAPrice(p, other, q, 2.0 * cutoff - 1.0);
  }

  /** No other way of handing out the same total in whole units strays less from
      the exact proportional split. */
  lemma PartsAreOptimal(total: nat, weights: seq<real>, other: seq<int>)
    requires weights != [] && |other| == |weights| && SumInt(other) == total
    ensures Deviation(Parts(total, weights), Quotas(total as real, weights))
         <= Deviation(other, Quotas(total as real, weights))
  {
    var q := Quotas(total as real, weights);
    var k := Shortfall(total, q);
    var cutoff := Cutoff(q, k);
    CutoffSplitIsOptimal(q, Winners(q, k), cutoff, Parts(total, weights), other);
  }

  // ----- shares of a run's rate -------------------------------------------------

  datatype RateMode = Eps | PerDayGb | CountInterval

  /** The single-key share object a worker reads: which mode, and how much of it. */
  datatype Share = Share(mode: RateMode, value: real)

  /** Python's round: to the nearest integer, halves to the even one. */
  function RoundHalfEven(x: real): (n: int)
    ensures -0.5 <= n as real - x <= 0.5
  {
    var f := x.Floor;
    var d := x - f as real;
    if d < 0.5 || (d == 0.5 && f % 2 == 0) then f else f + 1
  }

  /** The amount a rate stands for once it is handed out: the rate itself, or for a
      conf-paced run the whole number of events it rounds to. */
  function RateTotal(mode: RateMode, rate: Option<real>): real {
    match mode
    case CountInterval => if rate.Some? then RoundHalfEven(rate.value) as real else 0.0
    case _ => if rate.Some? then rate.value else 0.0
  }

  predicate Splittable(mode: RateMode, rate: Option<real>) {
    if mode == CountInterval then RateTotal(mode, rate) >= 0.0
    else rate.Some? && rate.value > 0.0
  }

  /** A half goes to the even neighbour, so a rate rounds to a count exactly from -0.5 up; a
      rate per second or day has to be there and positive. */
  lemma SplittableIff(mode: RateMode, rate: Option<real>)
    ensures rate.Some? && rate.value - rate.value.Floor as real == 0.5 ==> RoundHalfEven(rate.value) % 2 == 0
    ensures Splittable(mode, rate) <==>
            match mode
            case CountInterval => rate.None? || rate.value >= -0.5
            case Eps => rate.Some? && rate.value > 0.0
            case PerDayGb => rate.Some? && rate.value > 0.0
  {
  }

  /** The last entry moved so that the list adds up to the total. */
  function Settled(xs: seq<real>, total: real): (r: seq<real>)
    ensures |r| == |xs|
    ensures xs != [] ==> Sum(r) == total
    ensures xs != [] && Sum(xs) == total ==> r == xs
  {
    if xs == [] then []
    else
      var last := |xs| - 1;
      SumUpdated(xs, last, xs[last] + (total - Sum(xs)));
      xs[last := xs[last] + (total - Sum(xs))]
  }

  /** _fix_float_residue: the residue goes into the last slot, in place. */
  method FixResidue(xs: array<real>, total: real)
    modifies xs
    ensures xs[..] == Settled(old(xs[..]), total)
  {
    if xs.Length == 0 {
      return;
    }
    var current := 0.0;
    var i := xs.Length;
    while i > 0
      invariant 0 <= i <= xs.Length
      invariant current == Sum(xs[i..])
    {
      i := i - 1;
      current := current + xs[i];
      assert xs[i..] == [xs[i]] + xs[i + 1..];
    }
    assert xs[0..] == xs[..];
    xs[xs.Length - 1] := xs[xs.Length - 1] + (total - current);
  }

  function SharesOf(mode: RateMode, xs: seq<real>): (r: seq<Share>)
    ensures |r| == |xs| && forall i :: 0 <= i < |xs| ==> r[i] == Share(mode, xs[i])
  {
    seq(|xs|, i requires 0 <= i < |xs| => Share(mode, xs[i]))
  }

  function Reals(xs: seq<int>): (r: seq<real>)
    ensures |r| == |xs| && forall i :: 0 <= i < |xs| ==> r[i] == xs[i] as real
    ensures Sum(r) == SumInt(xs) as real
  {
    if xs == [] then [] else [xs[0] as real] + Reals(xs[1..])
  }

  function ShareValues(shares: seq<Share>): (r: seq<real>)
    ensures |r| == |shares|
  {
    seq(|shares|, i requires 0 <= i < |shares| => shares[i].value)
  }

  function ValuesOf(mode: RateMode, rate: Option<real>, weights: seq<real>): (r: seq<real>)
    requires Splittable(mode, rate)
    ensures |r| == |weights|
  {
    if mode == CountInterval then
      Reals(Parts(if rate.Some? && rate.value != 0.0 then RoundHalfEven(rate.value) else 0, weights))
    else Settled(Quotas(rate.value, weights), rate.value)
  }

  lemma ValuesSum(mode: RateMode, rate: Option<real>, weights: seq<real>)
    requires Splittable(mode, rate) && weights != []
    ensures Sum(ValuesOf(mode, rate, weights)) == RateTotal(mode, rate)
  {
    hide Parts, Quotas;
  }

  /** apportion_shares: a run's rate as one share per worker slot. */
  function ApportionShares(mode: RateMode, rate: Option<real>, workers: int, weights: Option<seq<real>>)
      : (r: Result<seq<Share>>)
    ensures r.Success? ==> |r.value| == workers
  {
    if workers < 1 then Failure("workers must be >= 1")
    else
      var w := if weights.Some? then weights.value else Ones(workers);
      if |w| != workers then Failure("weights length differs from workers")
      else if !Splittable(mode, rate) then Failure("rate_value cannot be split in this mode")
      else Success(SharesOf(mode, ValuesOf(mode, rate, w)))
  }

  /** Which requests are refused, and that an accepted one hands out exactly the rate. */
  lemma SharesAreExact(mode: RateMode, rate: Option<real>, workers: int, weights: Option<seq<real>>)
    ensures var r := ApportionShares(mode, rate, workers, weights);
            r.Success? <==>
              workers >= 1 && (weights.Some? ==> |weights.value| == workers) && Splittable(mode, rate)
    ensures var r := ApportionShares(mode, rate, workers, weights);
            r.Success? ==>
              && (forall i :: 0 <= i < workers ==> r.value[i].mode == mode)
              && Sum(ShareValues(r.value)) == RateTotal(mode, rate)
  {
    hide ValuesOf, RateTotal, Splittable;
    if ApportionShares(mode, rate, workers, weights).Success? {
      var w := if weights.Some? then weights.value else Ones(workers);
      ValuesSum(mode, rate, w);
      var xs := ValuesOf(mode, rate, w);
      assert ShareValues(SharesOf(mode, xs)) == xs;
    }
  }

  // ----- equal weights ------------------------------------------------------------

  /** Every slot's quota when all weigh the same. */
  function EvenQuota(total: real, n: nat): real
    requires n > 0
  {
    total / n as real
  }

  /** What slot i of n gets when every slot weighs the same: an even split, and for
      whole units one more for each of the first slots that the remainder covers. */
  function EqualValue(mode: RateMode, rate: Option<real>, n: nat, i: nat): real
    requires Splittable(mode, rate) && n > 0
  {
    if mode == CountInterval then
      var total := RateTotal(mode, rate).Floor;
      (total / n + (if i < total % n then 1 else 0)) as real
    else EvenQuota(rate.value, n)
  }

  /** build_share_list: a rate over n equally weighted slots. */
  function EqualShares(mode: RateMode, rate: Option<real>, n: int): (r: Result<seq<Share>>)
    ensures r.Success? <==> n >= 1 && Splittable(mode, rate)
    ensures r.Success? ==> |r.value| == n
  {
    if n < 1 then Failure("workers must be >= 1")
    else if !Splittable(mode, rate) then Failure("rate_value cannot be split in this mode")
    else Success(seq(n, i requires 0 <= i < n => Share(mode, EqualValue(mode, rate, n, i))))
  }

  lemma {:induction false} InsertLast(q: seq<real>, order: seq<nat>, x: nat)
    requires Indices(order, |q|) && Ordered(q, order)
    requires x < |q| && x !in order
    requires forall y :: y in order ==> y < |q| && Before(q, y, x)
    ensures Insert(q, order, x) == order + [x]
  {
    if order != [] {
      assert order[0] in order;
      InsertLast(q, order[1..], x);
      assert [order[0]] + (order[1..] + [x]) == order + [x];
    }
  }

  lemma {:induction false} TiesServeInOrder(q: seq<real>, n: nat)
    requires n <= |q|
    requires forall i, j :: 0 <= i < |q| && 0 <= j < |q| ==> Fraction(q[i]) == Fraction(q[j])
    ensures ServiceOrder(q, n) == seq(n, i => i)
  {
    if n > 0 {
      TiesServeInOrder(q, n - 1);
      var order := ServiceOrder(q, n - 1);
      assert forall y: nat :: y in order <==> y < n - 1;
      InsertLast(q, order, n - 1);
      assert seq(n - 1, i => i) + [n - 1] == seq(n, i => i);
    }
  }

  lemma {:induction false} SumIntReplicated(xs: seq<int>, v: int)
    requires forall i :: 0 <= i < |xs| ==> xs[i] == v
    ensures SumInt(xs) == v * |xs|
  {
    if xs != [] {
      SumIntReplicated(xs[1..], v);
      assert v * |xs| == v + v * (|xs| - 1);
    }
  }

  lemma EqualQuota(total: real, n: nat, j: nat)
    requires j < n
    ensures Quotas(total, Ones(n))[j] == EvenQuota(total, n)
  {
    QuotaAt(total, Ones(n), j);
    hide Quotas;
  }

  lemma EvenQuotaFloor(total: nat, n: nat)
    requires n > 0
    ensures EvenQuota(total as real, n).Floor == total / n
  {
    RatioFloor(EvenQuota(total as real, n), total, n);
  }

  lemma RatioFloor(x: real, total: nat, n: nat)
    requires n > 0 && x * n as real == total as real
    ensures x.Floor == total / n
  {
    var d, m := total / n, total % n;
    assert (n * d) as real == n as real * d as real;
    Distribute(n as real, d as real, -x);
    Distribute(n as real, x, -d as real - 1.0);
    ProductSign(n as real, d as real - x);
    ProductSign(n as real, x - d as real - 1.0);
  }

  lemma EqualParts(total: nat, n: nat, i: nat)
    requires i < n
    ensures Parts(total, Ones(n))[i] == total / n + (if i < total % n then 1 else 0)
  {
    var q := Quotas(total as real, Ones(n));
    forall j | 0 <= j < n ensures q[j] == EvenQuota(total as real, n) {
      EqualQuota(total as real, n, j);
    }
    EvenQuotaFloor(total, n);
    Remainder(total, n);
    hide Quotas, Sum, Winners, Shortfall, EvenQuota;
    EqualWinners(q, total, EvenQuota(total as real, n), total / n, i);
  }

  lemma Remainder(total: nat, n: nat)
    requires n > 0
    ensures total - (total / n) * n == total % n
  {
  }

  lemma EqualWinners(q: seq<real>, total: nat, each: real, floor: int, i: nat)
    requires i < |q| && Sum(q) == total as real && each.Floor == floor
    requires forall j :: 0 <= j < |q| ==> q[j] == each
    ensures i in Winners(q, Shortfall(total, q)) <==> i < total - floor * |q|
  {
    SumIntReplicated(Floors(q), floor);
    TiesServeInOrder(q, |q|);
    var k := Shortfall(total, q);
    assert Winners(q, k) == seq(k, j => j);
    assert i < k ==> seq(k, j => j)[i] == i;
  }

  lemma EqualValueIsApportioned(mode: RateMode, rate: Option<real>, n: nat, i: nat)
    requires Splittable(mode, rate) && i < n
    ensures ValuesOf(mode, rate, Ones(n))[i] == EqualValue(mode, rate, n, i)
  {
    hide Parts, Quotas, Sum;
    if mode == CountInterval {
      EqualParts(RateTotal(mode, rate).Floor, n, i);
    } else {
      EqualQuota(rate.value, n, i);
    }
  }

  /** With equal weights largest remainder has a closed form, the one build_share_list
      always asks for. */
  lemma EqualSharesAreApportioned(mode: RateMode, rate: Option<real>, n: nat)
    requires Splittable(mode, rate) && n > 0
    ensures ApportionShares(mode, rate, n, Some(Ones(n))) == EqualShares(mode, rate, n)
  {
    var xs := ValuesOf(mode, rate, Ones(n));
    forall i | 0 <= i < n ensures xs[i] == EqualValue(mode, rate, n, i) {
      EqualValueIsApportioned(mode, rate, n, i);
    }
    hide ValuesOf, EqualValue;
    assert SharesOf(mode, xs) == EqualShares(mode, rate, n).value;
  }

  /** So the shares of a run add up to its rate, whatever its mode. */
  lemma EqualSharesAreExact(mode: RateMode, rate: Option<real>, n: nat)
    requires Splittable(mode, rate) && n > 0
    ensures Sum(ShareValues(EqualShares(mode, rate, n).value)) == RateTotal(mode, rate)
  {
    EqualSharesAreApportioned(mode, rate, n);
    SharesAreExact(mode, rate, n, Some(Ones(n)));
    hide ApportionShares, EqualShares;
  }
}
