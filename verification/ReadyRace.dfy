/** Workers readying at once, each in a session of its own. */
module ReadyRace {
  import opened Basics
  import opened RunModel
  import opened Lifecycle
  import opened Frames

  /** Where one worker's ready call is: not begun, its READY committed, reading a snapshot
      taken after that commit, or returned. */
  datatype Call = Before | Committed | Reading(seen: Run) | Returned

  datatype Race = Race(db: Run, calls: seq<Call>)

  datatype Move = Commit(worker: nat, at: real) | Look(worker: nat) | Decide(worker: nat, at: real)

  /** What a session that saw one run and computed another writes over the stored row. */
  function Publish(db: Run, seen: Run, result: Run): Run {
    if result.t0 == seen.t0 || |result.events| < |seen.events| then db
    else db.(t0 := result.t0, state := result.state, events := db.events + result.events[|seen.events|..])
  }

  function Ready(db: Run, i: nat, now: real): Run
    requires i < |db.leases|
  {
    MarkReady(db, db.leases[i].slot, Some(db.leases[i].id), now)
  }

  /** One move of one session; a move that is not that session's next is no move. */
  function Moved(s: Race, m: Move): Race
    requires |s.calls| == |s.db.leases|
  {
    if m.worker >= |s.calls| then s
    else
      match (s.calls[m.worker], m)
      case (Before, Commit(i, now)) => Race(Ready(s.db, i, now), s.calls[i := Committed])
      case (Committed, Look(i)) => s.(calls := s.calls[i := Reading(s.db)])
      case (Reading(seen), Decide(i, now)) =>
        Race(Publish(s.db, seen, EvaluateRelease(seen, false, now)), s.calls[i := Returned])
      case _ => s
  }

  /** A fleet that has claimed every slot of a run not yet released. */
  predicate Fleet(r: Run) {
    && WellFormed(r) && r.t0.None?
    && (r.state.Provisioning? || r.state.Preparing? || r.state.Releasing?)
    && forall i :: 0 <= i < |r.leases| ==> r.leases[i].state.Claimed? || r.leases[i].state.Ready?
  }

  function Played(start: Run, moves: seq<Move>): (s: Race)
    requires Fleet(start)
    ensures |s.calls| == |s.db.leases| == |start.leases|
  {
    if moves == [] then Race(start, seq(|start.leases|, _ => Before))
    else Moved(Played(start, moves[..|moves| - 1]), moves[|moves| - 1])
  }

  // ----- what one move does --------------------------------------------------------------------

  lemma ReadyAt(db: Run, i: nat, now: real)
    requires LeasesInOrder(db.leases, db.minted) && i < |db.leases|
    requires db.leases[i].state.Claimed? || db.leases[i].state.Ready?
    ensures Ready(db, i, now) ==
            db.(leases := db.leases[i := db.leases[i].(lastHb := Some(now), state := LeaseState.Ready)])
  {
    var j := SlotIndex(db.leases, db.leases[i].slot);
    assert j.Some? && j.value == i;
  }

  predicate AllReady(r: Run) { forall i :: 0 <= i < |r.leases| ==> r.leases[i].state.Ready? }

  // ----- the invariant ---------------------------------------------------------------------------

  /** A call that will still look at, or has already looked at, a store with every slot ready. */
  predicate Decisive(c: Call) {
    c.Committed? || (c.Reading? && (c.seen.t0.Some? || (Releasable(c.seen) && AllReady(c.seen))))
  }

  predicate SeenByTime(db: Run, c: Call) {
    c.Reading? ==> (c.seen.t0.Some? ==> db.t0.Some?)
                   && (c.seen.t0.None? && AllReady(c.seen) ==> AllReady(db))
                   && |c.seen.leases| == |db.leases|
                   && (forall j :: 0 <= j < |db.leases| ==>
                         c.seen.leases[j].state.Ready? || c.seen.leases[j].state.Claimed?)
  }

  /** Slots are ready or claimed; a call past its commit has its slot ready; T0 is set only
      with every slot ready; and while it is not set although every call has committed,
      some call in flight will set it. */
  predicate Racing(s: Race) {
    && |s.calls| == |s.db.leases| > 0
    && LeasesInOrder(s.db.leases, s.db.minted)
    && (s.db.state.Provisioning? || s.db.state.Preparing? || s.db.state.Releasing?)
    && (forall i :: 0 <= i < |s.calls| ==>
          && (s.db.leases[i].state.Claimed? || s.db.leases[i].state.Ready?)
          && (!s.calls[i].Before? ==> s.db.leases[i].state.Ready?)
          && SeenByTime(s.db, s.calls[i]))
    && (s.db.t0.Some? ==> AllReady(s.db))
    && (s.db.t0.None? && (forall i :: 0 <= i < |s.calls| ==> !s.calls[i].Before?) ==>
          exists i :: 0 <= i < |s.calls| && Decisive(s.calls[i]))
  }

  lemma CommitRaces(s: Race, i: nat, now: real)
    requires Racing(s) && i < |s.calls| && s.calls[i].Before?
    ensures Racing(Moved(s, Commit(i, now)))
  {
    hide Releasable, Ready;
    ReadyAt(s.db, i, now);
    var t := Moved(s, Commit(i, now));
    assert Decisive(t.calls[i]);
    assert forall j :: 0 <= j < |s.calls| && j != i ==> t.calls[j] == s.calls[j] && t.db.leases[j] == s.db.leases[j];
    assert AllReady(s.db) ==> AllReady(t.db);
  }

  lemma LookRaces(s: Race, i: nat)
    requires Racing(s) && i < |s.calls| && s.calls[i].Committed?
    ensures Racing(Moved(s, Look(i)))
  {
    var t := Moved(s, Look(i));
    assert forall j :: 0 <= j < |s.calls| && j != i ==> t.calls[j] == s.calls[j];
    if t.db.t0.None? && (forall j :: 0 <= j < |t.calls| ==> !t.calls[j].Before?) {
      assert forall j :: 0 <= j < |s.calls| ==> !s.calls[j].Before?;
      assert Is(t.db.leases[i], Warmed);
      assert Decisive(t.calls[i]);
    }
  }

  lemma Verdict(r: Run, now: real)
    requires forall j :: 0 <= j < |r.leases| ==> r.leases[j].state.Ready? || r.leases[j].state.Claimed?
    ensures var out := EvaluateRelease(r, false, now);
            && |out.events| >= |r.events|
            && (out.t0 != r.t0 ==> r.t0.None? && out.t0.Some? && out.state.Releasing? && AllReady(r))
            && (Releasable(r) && AllReady(r) ==> out.t0.Some?)
  {
    if Releasable(r) && !Any(r.leases, Awaited) {
      assert forall j :: 0 <= j < |r.leases| ==> !Is(r.leases[j], Awaited);
    }
  }

  lemma DecideRaces(s: Race, i: nat, now: real)
    requires Racing(s) && i < |s.calls| && s.calls[i].Reading?
    ensures Racing(Moved(s, Decide(i, now)))
  {
    hide EvaluateRelease, Releasable;
    var seen := s.calls[i].seen;
    var t := Moved(s, Decide(i, now));
    Verdict(seen, now);
    assert forall j :: 0 <= j < |s.calls| && j != i ==> t.calls[j] == s.calls[j];
    assert t.db.leases == s.db.leases;
    if t.db.t0.None? && (forall j :: 0 <= j < |t.calls| ==> !t.calls[j].Before?) {
      assert forall j :: 0 <= j < |s.calls| ==> !s.calls[j].Before?;
      var k :| 0 <= k < |s.calls| && Decisive(s.calls[k]);
      assert k != i;
      assert Decisive(t.calls[k]);
    }
  }

  lemma StartRaces(start: Run)
    requires Fleet(start)
    ensures Racing(Played(start, []))
  {
    var s := Played(start, []);
    assert s.calls[0].Before?;
  }

  lemma {:induction false} AlwaysRacing(start: Run, moves: seq<Move>)
    requires Fleet(start)
    ensures Racing(Played(start, moves))
  {
    hide Racing, Fleet;
    if moves == [] {
      StartRaces(start);
    } else {
      var n := |moves| - 1;
      AlwaysRacing(start, moves[..n]);
      MoveRaces(Played(start, moves[..n]), moves[n]);
    }
  }

  lemma MoveRaces(s: Race, m: Move)
    requires Racing(s)
    ensures |s.calls| == |s.db.leases| && Racing(Moved(s, m))
  {
    if m.worker < |s.calls| {
      match (s.calls[m.worker], m)
      case (Before, Commit(i, now)) => CommitRaces(s, i, now);
      case (Committed, Look(i)) => LookRaces(s, i);
      case (Reading(_), Decide(i, now)) => DecideRaces(s, i, now);
      case _ =>
    }
  }

  predicate AllReturned(s: Race) { forall i :: 0 <= i < |s.calls| ==> s.calls[i].Returned? }

  /** However the calls interleave, T0 is set by the time the last one returns, and never
      before the last slot is ready. */
  lemma NoMissedRelease(start: Run, moves: seq<Move>)
    requires Fleet(start)
    ensures AllReturned(Played(start, moves)) ==> Played(start, moves).db.t0.Some?
    ensures Played(start, moves).db.t0.Some? ==> AllReady(Played(start, moves).db)
  {
    hide Fleet, Releasable, Played;
    AlwaysRacing(start, moves);
  }

  // ----- without the commit in between ---------------------------------------------------------------

  /** A ready call whose one transaction reads the store as it stood when the call began,
      adds its own READY, decides and commits. */
  function StaleCall(db: Run, began: Run, i: nat, now: real): Run
    requires i < |db.leases| && i < |began.leases|
  {
    var mine := Ready(began, i, now);
    Publish(Ready(db, i, now), mine, EvaluateRelease(mine, false, now))
  }

  /** Every call begins on the same store; then they finish in slot order. */
  function Overlapped(start: Run, n: nat, now: real): (r: Run)
    requires n <= |start.leases|
    ensures |r.leases| == |start.leases|
  {
    if n == 0 then start else StaleCall(Overlapped(start, n - 1, now), start, n - 1, now)
  }

  predicate AllClaimed(r: Run) { forall i :: 0 <= i < |r.leases| ==> r.leases[i].state.Claimed? }

  lemma OneReadyIsNotEnough(start: Run, i: nat, now: real)
    requires Fleet(start) && AllClaimed(start) && |start.leases| >= 2 && i < |start.leases|
    ensures var mine := Ready(start, i, now); EvaluateRelease(mine, false, now) == mine
  {
    hide Ready;
    ReadyAt(start, i, now);
    var mine := Ready(start, i, now);
    var other := if i == 0 then 1 else 0;
    assert mine.leases[other] == start.leases[other];
    assert Is(mine.leases[other], Awaited);
  }

  predicate ReadiedUpTo(start: Run, r: Run, n: nat) {
    && r.t0.None? && |r.leases| == |start.leases| && LeasesInOrder(r.leases, r.minted)
    && forall i :: 0 <= i < |r.leases| ==>
         if i < n then r.leases[i].state.Ready? else r.leases[i].state.Claimed?
  }

  lemma {:induction false} OverlappedReadies(start: Run, n: nat, now: real)
    requires Fleet(start) && AllClaimed(start) && |start.leases| >= 2 && n <= |start.leases|
    ensures ReadiedUpTo(start, Overlapped(start, n, now), n)
  {
    hide Ready, EvaluateRelease;
    if n > 0 {
      OverlappedReadies(start, n - 1, now);
      OneReadyIsNotEnough(start, n - 1, now);
      ReadyAt(Overlapped(start, n - 1, now), n - 1, now);
    }
  }

  /** For every fleet of two or more: all slots ready, every call returned, no T0. */
  lemma OverlapMissesTheRelease(start: Run, now: real)
    requires Fleet(start) && AllClaimed(start) && |start.leases| >= 2
    ensures var r := Overlapped(start, |start.leases|, now); AllReady(r) && r.t0.None?
  {
    hide Overlapped, Fleet;
    OverlappedReadies(start, |start.leases|, now);
  }
}
