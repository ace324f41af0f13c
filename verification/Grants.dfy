/** Which lease a claim is given, and that a claim can be sent again. */
module Grants {
  import opened Basics
  import opened Apportion
  import opened RunModel
  import opened Lifecycle
  import opened Frames
  import opened Dialogue

  predicate HeldHere(r: Run, holder: string, i: nat)
    requires i < |r.leases|
  {
    r.leases[i].holder == Some(holder)
    && (r.leases[i].state.Claimed? || r.leases[i].state.Ready? || r.leases[i].state.Running?)
  }

  predicate Open(r: Run, i: nat)
    requires i < |r.leases|
  {
    r.leases[i].state.Free? || r.leases[i].state.Lost?
  }

  predicate Holds(r: Run, holder: string) { exists i :: 0 <= i < |r.leases| && HeldHere(r, holder, i) }

  /** A claim on a run that has not ended is given, in this order: the lease its holder has; the
      slot it asks for, if nobody has that; the lowest slot nobody has. It is refused when there
      is none. */
  lemma GrantIff(r: Run, holder: string, hint: Option<nat>, i: nat)
    requires WellFormed(r) && i < |r.leases|
    ensures GrantFor(r, holder, hint) == Held(i) <==>
              !r.state.Terminal() && HeldHere(r, holder, i) && forall j :: 0 <= j < i ==> !HeldHere(r, holder, j)
    ensures GrantFor(r, holder, hint) == Issue(i) <==>
              !r.state.Terminal() && !Holds(r, holder) && Next(r, hint, i)
    ensures GrantFor(r, holder, hint) == Refused <==>
              r.state.Terminal() || (!Holds(r, holder) && forall j :: 0 <= j < |r.leases| ==> !Open(r, j))
  {
    hide Splittable, HeldBy, NextClaimable, HeldHere, Open, Holds;
    HeldIs(r, holder, i);
    NextIs(r, hint, i);
  }

  lemma HeldIs(r: Run, holder: string, i: nat)
    requires i < |r.leases|
    ensures HeldBy(r.leases, holder) == Some(i) <==>
              HeldHere(r, holder, i) && forall j :: 0 <= j < i ==> !HeldHere(r, holder, j)
    ensures HeldBy(r.leases, holder).Some? <==> Holds(r, holder)
  {
    hide HeldHere;
    HeldAre(r, holder);
    var f := First(r.leases, HeldLive(holder));
    hide First;
  }

  /** The slot asked for, else the lowest. */
  predicate Next(r: Run, hint: Option<nat>, i: nat)
    requires i < |r.leases|
  {
    Open(r, i) && (hint == Some(i) || ((hint.None? || hint.value >= |r.leases| || !Open(r, hint.value))
                                       && forall j :: 0 <= j < i ==> !Open(r, j)))
  }

  lemma NextIs(r: Run, hint: Option<nat>, i: nat)
    requires LeasesInOrder(r.leases, r.minted) && i < |r.leases|
    ensures NextClaimable(r.leases, hint) == Some(i) <==> Next(r, hint, i)
    ensures NextClaimable(r.leases, hint).None? <==> forall j :: 0 <= j < |r.leases| ==> !Open(r, j)
  {
    if hint.Some? {
      HintedIs(r, hint.value);
    }
    var low := LowestClaimable(r.leases);
    hide First, LowestClaimable;
    assert low.Some? ==> Open(r, low.value) && forall j :: 0 <= j < low.value ==> !Open(r, j);
  }

  lemma HeldAre(r: Run, holder: string)
    ensures forall j :: 0 <= j < |r.leases| ==> (Is(r.leases[j], HeldLive(holder)) <==> HeldHere(r, holder, j))
    ensures Any(r.leases, HeldLive(holder)) <==> Holds(r, holder)
  {
    forall j | 0 <= j < |r.leases| ensures Is(r.leases[j], HeldLive(holder)) <==> HeldHere(r, holder, j) {
    }
    if j :| 0 <= j < |r.leases| && HeldHere(r, holder, j) {
      assert Is(r.leases[j], HeldLive(holder));
    }
  }

  lemma HintedIs(r: Run, slot: nat)
    requires LeasesInOrder(r.leases, r.minted)
    ensures First(r.leases, ClaimableAt(slot)) == if slot < |r.leases| && Open(r, slot) then Some(slot) else None
  {
    var f := First(r.leases, ClaimableAt(slot));
    hide First;
    assert forall j :: 0 <= j < |r.leases| ==> (Is(r.leases[j], ClaimableAt(slot)) <==> j == slot && Open(r, j));
    if f.None? && slot < |r.leases| {
      assert !Is(r.leases[slot], ClaimableAt(slot));
    }
  }

  /** What a claim hands out on the slot it is issued. */
  lemma IssuedLeaseIs(r: Run, i: nat, holder: string, now: real)
    requires WellFormed(r) && i < |r.leases|
    ensures var s, l, m := IssueAt(r, i, holder, now), r.leases[i], IssueAt(r, i, holder, now).leases[i];
            && s.minted == r.minted + 1
            && m == Lease(i, r.minted, Some(holder), Claimed, Some(now), if r.t0.Some? then Some(now) else None,
                          if l.state.Lost? then l.restarts + 1 else l.restarts, m.share)
            && m.share.retarget == l.share.retarget && m.share.engine == l.share.engine
            && m.share.work == (if l.state.Lost? then None else l.share.work)
            && (!(l.state.Lost? && r.t0.Some? && r.degraded) ==> m.share.rate == l.share.rate)
  {
    hide Splittable, EqualShares, Spread, Count;
    var lease := Issued(r.leases[i], holder, r.minted, r.t0, now);
    var claimed := r.(leases := r.leases[i := lease], minted := r.minted + 1);
    var shares := ShareList(claimed, Count(claimed.leases, Pick.Live));
    if shares.Success? {
      ClaimerSpread(claimed.leases, lease.id, shares.value, i);
    }
  }

  lemma ClaimerSpread(leases: seq<Lease>, claimer: LeaseId, shares: seq<Share>, i: nat)
    requires |shares| == Count(leases, Pick.Live) && i < |leases| && leases[i].id == claimer
    ensures var m := Spread(leases, Pick.Live, Some(claimer), shares)[i];
            m == leases[i].(share := leases[i].share.(rate := m.share.rate))
  {
    var m := Spread(leases, Pick.Live, Some(claimer), shares)[i];
    hide Spread, Count;
    assert Is(leases[i], Pick.Live) || m == leases[i];
  }

  /** The claim takes over a lost slot of a degraded run at work. */
  predicate Resplit(r: Run, i: nat)
    requires i < |r.leases|
  {
    r.leases[i].state.Lost? && r.t0.Some? && r.degraded && !r.state.Terminal() && !r.state.Draining?
  }

  /** Taking over a lost slot re-splits the rate only in a released run that is degraded and not
      winding down; else no other lease changes at all. Where it does, a live holder is marked
      to be told exactly if its share is not the one it had. */
  lemma TakeoverTouches(r: Run, i: nat, holder: string, now: real, j: nat)
    requires WellFormed(r) && i < |r.leases| && j < |r.leases| && i != j
    ensures var l, m := r.leases[j], IssueAt(r, i, holder, now).leases[j];
            && m == l.(share := l.share.(rate := m.share.rate, retarget := m.share.retarget))
            && (m.share.retarget <==> l.share.retarget || m.share.rate != l.share.rate)
            && (!Resplit(r, i) || !l.state.Live() ==> m == l)
  {
    hide Splittable, EqualShares, Spread, Count;
    var lease := Issued(r.leases[i], holder, r.minted, r.t0, now);
    var claimed := r.(leases := r.leases[i := lease], minted := r.minted + 1);
    var shares := ShareList(claimed, Count(claimed.leases, Pick.Live));
    assert r.leases[j].id < r.minted;
    if shares.Success? {
      var b := Spread(claimed.leases, Pick.Live, Some(lease.id), shares.value);
      assert Is(claimed.leases[j], Pick.Live) || b[j] == claimed.leases[j];
    }
  }

  /** A holder that claims again, having missed the answer, is given the same lease. */
  lemma RetriedClaim(r: Run, holder: string, hint: Option<nat>, now: real, again: Option<nat>)
    requires WellFormed(r) && !GrantFor(r, holder, hint).Refused?
    ensures var i, s := GrantFor(r, holder, hint).index, Claim(r, holder, hint, now);
            GrantFor(s, holder, again) == Held(i)
  {
    hide Splittable, IssueAt, GrantFor;
    var g, s := GrantFor(r, holder, hint), Claim(r, holder, hint, now);
    GrantBounds(r, holder, hint);
    var i := g.index;
    ClaimKeepsShape(r, holder, hint, now);
    GrantIff(r, holder, hint, i);
    QuietClaim(r, holder, hint, now);
    if g.Issue? {
      forall j | 0 <= j < |s.leases| ensures HeldHere(s, holder, j) <==> j == i {
        IssuedLeases(r, i, holder, now, j);
        assert !HeldHere(r, holder, j);
      }
    } else {
      assert s.leases == r.leases[i := r.leases[i].(lastHb := Some(now))];
      forall j | 0 <= j < |s.leases| ensures HeldHere(s, holder, j) <==> HeldHere(r, holder, j) {
      }
    }
    GrantIff(s, holder, again, i);
  }

  lemma GrantBounds(r: Run, holder: string, hint: Option<nat>)
    ensures var g := GrantFor(r, holder, hint); !g.Refused? ==> g.index < |r.leases| && !r.state.Terminal()
  {
    hide HeldBy, NextClaimable;
  }

  lemma QuietClaim(r: Run, holder: string, hint: Option<nat>, now: real)
    ensures var s := Claim(r, holder, hint, now); s.state == r.state && |s.leases| == |r.leases|
  {
    hide HeldBy, NextClaimable, TakeoverSplit;
  }
}
