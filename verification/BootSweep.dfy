/** The sweep of stray fleets at boot, racing with launches in other sessions. */
module BootSweep {
  import opened RunModel

  type RunId = nat

  /** How far a launch has come after committing its row. */
  datatype Launch = RowCommitted | WorkloadUp

  /** Where boot reconciliation is. Runs read in its first phase are failed together when
      that phase commits; a stray is checked once more just before it is destroyed. */
  datatype Sweeper =
    | Starting
    | Probing(read: set<RunId>, orphans: set<RunId>)
    | BetweenFleets
    | Listed(owned: set<RunId>)
    | Sweeping(strays: set<RunId>)
    | Condemned(id: RunId, rest: set<RunId>)

  /** Rows and workloads, the launches in flight, and the ids whose workload the sweep has
      destroyed since their row was committed. */
  datatype Estate = Estate(
    rows: map<RunId, RunState>,
    workloads: set<RunId>,
    launches: map<RunId, Launch>,
    sweeper: Sweeper,
    destroyed: set<RunId>)

  datatype Act =
    // provision_run, from its commit on
    | CommitRow(id: RunId) | CreateWorkload(id: RunId) | SetProvisioning(id: RunId) | LaunchFails(id: RunId)
    // whatever else happens to a row or a workload
    | Advance(id: RunId, to: RunState) | Purge(id: RunId) | Vanish(id: RunId)
    // reconcile_on_boot and _sweep_stray_fleets
    | ReadRuns | Orphan(id: RunId) | CommitOrphans
    | List(owned: set<RunId>) | ReadLive | Recheck(id: RunId) | Destroy

  predicate Live(e: Estate, id: RunId) { id in e.rows && !e.rows[id].Terminal() }

  function Without<V>(m: map<RunId, V>, id: RunId): map<RunId, V> { m - {id} }

  function Orphaned(rows: map<RunId, RunState>, orphans: set<RunId>): map<RunId, RunState> {
    map id | id in rows :: if id in orphans then RunState.Failed else rows[id]
  }

  /** One step of one session. A step that cannot be taken here changes nothing. */
  function Stepped(e: Estate, a: Act): Estate {
    match a
    case CommitRow(id) =>
      if id in e.rows || id in e.launches then e
      else e.(rows := e.rows[id := Preparing], launches := e.launches[id := RowCommitted],
              destroyed := e.destroyed - {id})
    case CreateWorkload(id) =>
      if id in e.launches && e.launches[id].RowCommitted? then
        e.(workloads := e.workloads + {id}, launches := e.launches[id := WorkloadUp])
      else e
    case SetProvisioning(id) =>
      if id in e.launches && e.launches[id].WorkloadUp? && id in e.rows then
        e.(rows := e.rows[id := Provisioning], launches := Without(e.launches, id))
      else e
    case LaunchFails(id) =>
      if id in e.launches && e.launches[id].RowCommitted? && id in e.rows then
        e.(rows := e.rows[id := RunState.Failed], launches := Without(e.launches, id))
      else e
    case Advance(id, to) => if Live(e, id) then e.(rows := e.rows[id := to]) else e
    case Purge(id) =>
      if id in e.rows && !Live(e, id) && id !in e.launches then e.(rows := Without(e.rows, id)) else e
    case Vanish(id) => e.(workloads := e.workloads - {id})
    case ReadRuns =>
      if e.sweeper.Starting? then e.(sweeper := Probing(set id | id in e.rows && Live(e, id), {})) else e
    case Orphan(id) =>
      if e.sweeper.Probing? && id in e.sweeper.read then
        e.(sweeper := e.sweeper.(orphans := e.sweeper.orphans + {id}))
      else e
    case CommitOrphans =>
      if e.sweeper.Probing? then
        e.(rows := Orphaned(e.rows, e.sweeper.orphans), sweeper := BetweenFleets)
      else e
    case List(owned) =>
      if e.sweeper.BetweenFleets? && owned <= e.workloads then e.(sweeper := Listed(owned)) else e
    case ReadLive =>
      if e.sweeper.Listed? then
        e.(sweeper := Sweeping(set id | id in e.sweeper.owned && !Live(e, id)))
      else e
    case Recheck(id) =>
      if !e.sweeper.Sweeping? then e
      else if e.sweeper.strays == {} then e.(sweeper := BetweenFleets)
      else if id !in e.sweeper.strays then e
      else if Live(e, id) then e.(sweeper := Sweeping(e.sweeper.strays - {id}))
      else e.(sweeper := Condemned(id, e.sweeper.strays - {id}))
    case Destroy =>
      if e.sweeper.Condemned? then
        e.(workloads := e.workloads - {e.sweeper.id}, destroyed := e.destroyed + {e.sweeper.id},
           sweeper := Sweeping(e.sweeper.rest))
      else e
  }

  function Ran(e: Estate, acts: seq<Act>): Estate {
    if acts == [] then e else Stepped(Ran(e, acts[..|acts| - 1]), acts[|acts| - 1])
  }

  /** Control plane just started: nothing in flight, the sweep not begun. */
  predicate Boot(e: Estate) { e.launches == map[] && e.sweeper.Starting? && e.destroyed == {} }

  /** What keeps a launch clear of the sweep: it begins after the first phase's read, under
      an id that read does not hold and that is not condemned at that moment, and nothing
      else ends the run while it is being launched. */
  predicate Orderly(e: Estate, a: Act) {
    match a
    case CommitRow(id) =>
      && !e.sweeper.Starting?
      && (e.sweeper.Probing? ==> id !in e.sweeper.read)
      && (e.sweeper.Condemned? ==> id != e.sweeper.id)
    case Advance(id, to) => id in e.launches ==> !to.Terminal()
    case _ => true
  }

  predicate OrderlyRun(e: Estate, acts: seq<Act>) {
    forall i :: 0 <= i < |acts| ==> Orderly(Ran(e, acts[..i]), acts[i])
  }

  /** A launch in flight has a live row that the first phase did not read; what is condemned
      or destroyed is neither live nor being launched. */
  predicate Safe(e: Estate) {
    && (forall id :: id in e.launches ==> Live(e, id))
    && (e.sweeper.Starting? ==> e.launches == map[])
    && (e.sweeper.Probing? ==> e.sweeper.orphans <= e.sweeper.read && e.sweeper.read !! e.launches.Keys)
    && (e.sweeper.Condemned? ==> !Live(e, e.sweeper.id))
    && (forall id :: id in e.destroyed ==> !Live(e, id))
  }

  lemma LaunchStepSafe(e: Estate, a: Act)
    requires Safe(e) && Orderly(e, a)
    requires a.CommitRow? || a.CreateWorkload? || a.SetProvisioning? || a.LaunchFails?
    ensures Safe(Stepped(e, a))
  {
    var f := Stepped(e, a);
    assert forall id :: id != a.id ==> (Live(f, id) <==> Live(e, id)) && (id in f.launches <==> id in e.launches);
    assert a.id in e.launches ==> Live(e, a.id) && a.id !in e.destroyed;
  }

  lemma RowStepSafe(e: Estate, a: Act)
    requires Safe(e) && Orderly(e, a) && (a.Advance? || a.Purge? || a.Vanish?)
    ensures Safe(Stepped(e, a))
  {
    var f := Stepped(e, a);
    assert forall id :: Live(f, id) ==> Live(e, id);
    assert forall id :: id in e.launches ==> Live(f, id);
  }

  lemma SweepStepSafe(e: Estate, a: Act)
    requires Safe(e)
    requires a.ReadRuns? || a.Orphan? || a.CommitOrphans? || a.List? || a.ReadLive? || a.Recheck? || a.Destroy?
    ensures Safe(Stepped(e, a))
  {
    var f := Stepped(e, a);
    assert forall id :: Live(f, id) ==> Live(e, id);
    assert forall id :: id in e.launches ==> Live(f, id);
  }

  lemma {:induction false} AlwaysSafe(e: Estate, acts: seq<Act>)
    requires Boot(e) && OrderlyRun(e, acts)
    ensures Safe(Ran(e, acts))
  {
    hide Safe, Orderly, Stepped;
    if acts == [] {
      BootSafe(e);
    } else {
      var n := |acts| - 1;
      OrderlyPrefix(e, acts);
      AlwaysSafe(e, acts[..n]);
      StepSafe(Ran(e, acts[..n]), acts[n]);
    }
  }

  lemma OrderlyPrefix(e: Estate, acts: seq<Act>)
    requires acts != [] && OrderlyRun(e, acts)
    ensures OrderlyRun(e, acts[..|acts| - 1])
    ensures Orderly(Ran(e, acts[..|acts| - 1]), acts[|acts| - 1])
  {
    hide Orderly, Ran;
    var n := |acts| - 1;
    forall i | 0 <= i < n ensures Orderly(Ran(e, acts[..n][..i]), acts[..n][i]) {
      assert acts[..n][..i] == acts[..i];
    }
  }

  lemma BootSafe(e: Estate)
    requires Boot(e)
    ensures Safe(e)
  {
  }

  lemma StepSafe(e: Estate, a: Act)
    requires Safe(e) && Orderly(e, a)
    ensures Safe(Stepped(e, a))
  {
    hide Safe, Orderly, Stepped;
    if a.CommitRow? || a.CreateWorkload? || a.SetProvisioning? || a.LaunchFails? {
      LaunchStepSafe(e, a);
    } else if a.Advance? || a.Purge? || a.Vanish? {
      RowStepSafe(e, a);
    } else {
      SweepStepSafe(e, a);
    }
  }

  /** Under every orderly interleaving a workload the sweep destroys belongs to a run that
      has no row or is terminal, at that moment and from then on. */
  lemma SweepNeverTakesALiveRun(e: Estate, acts: seq<Act>)
    requires Boot(e) && OrderlyRun(e, acts)
    ensures forall id :: id in Ran(e, acts).destroyed ==> !Live(Ran(e, acts), id)
    ensures Ran(e, acts).sweeper.Condemned? ==> !Live(Ran(e, acts), Ran(e, acts).sweeper.id)
  {
    hide Ran, OrderlyRun;
    AlwaysSafe(e, acts);
  }

  /** So no step of the sweep takes the workload of a live run. */
  lemma LiveRunKeepsItsWorkload(e: Estate, acts: seq<Act>, id: RunId)
    requires Boot(e) && OrderlyRun(e, acts) && Live(Ran(e, acts), id)
    requires id in Ran(e, acts).workloads
    ensures id in Stepped(Ran(e, acts), Destroy).workloads
  {
    hide Ran, OrderlyRun;
    AlwaysSafe(e, acts);
  }

  // ----- each condition is needed ----------------------------------------------------------------------

  predicate TookALiveRun(e: Estate, id: RunId) { id in e.destroyed && Live(e, id) }

  lemma Then(e: Estate, acts: seq<Act>, a: Act)
    ensures Ran(e, acts + [a]) == Stepped(Ran(e, acts), a)
  {
    assert (acts + [a])[..|acts|] == acts;
  }

  lemma Chain3(e: Estate, acts: seq<Act>, a: Act, b: Act, c: Act)
    ensures Ran(e, acts + [a, b, c]) == Stepped(Stepped(Stepped(Ran(e, acts), a), b), c)
  {
    hide Stepped;
    Then(e, acts, a);
    Then(e, acts + [a], b);
    Then(e, acts + [a] + [b], c);
    assert acts + [a] + [b] + [c] == acts + [a, b, c];
  }

  /** One pass over a fleet that owns just this workload, up to the destroy. */
  function Pass(id: RunId): seq<Act> { [List({id}), ReadLive, Recheck(id)] }

  lemma PassCondemns(e: Estate, acts: seq<Act>, id: RunId)
    requires var s := Ran(e, acts); s.sweeper.BetweenFleets? && id in s.workloads && !Live(s, id)
    ensures Ran(e, acts + Pass(id)) == Ran(e, acts).(sweeper := Condemned(id, {}))
  {
    hide Ran;
    var s := Ran(e, acts);
    Chain3(e, acts, List({id}), ReadLive, Recheck(id));
    var listed := Stepped(s, List({id}));
    assert listed == s.(sweeper := Listed({id}));
    var t := Stepped(listed, ReadLive);
    assert t.sweeper.strays == {id} && {id} - {id} == {};
    assert Stepped(t, Recheck(id)) == s.(sweeper := Condemned(id, {}));
    assert acts + [List({id}), ReadLive, Recheck(id)] == acts + Pass(id);
  }

  lemma Begins(e: Estate)
    ensures Ran(e, []) == e
  {
  }

  /** A launch whose run is down when the pass comes by: its last write revives a run whose
      workload is gone. */
  lemma SweptThenRevived(e: Estate, acts: seq<Act>, id: RunId)
    requires var s := Ran(e, acts);
             && s.sweeper.BetweenFleets? && id in s.workloads && id in s.rows && !Live(s, id)
             && id in s.launches && s.launches[id].WorkloadUp?
    ensures TookALiveRun(Ran(e, acts + Pass(id) + [Destroy, SetProvisioning(id)]), id)
  {
    hide Ran, Pass;
    PassCondemns(e, acts, id);
    var swept := acts + Pass(id);
    Then(e, swept, Destroy);
    Then(e, swept + [Destroy], SetProvisioning(id));
    assert swept + [Destroy] + [SetProvisioning(id)] == swept + [Destroy, SetProvisioning(id)];
  }

  // ----- what a sweep is for ---------------------------------------------------------------------------

  /** Recheck and destroy, one after the other. */
  function Taking(ids: seq<RunId>): seq<Act> {
    if ids == [] then [] else Taking(ids[..|ids| - 1]) + [Recheck(ids[|ids| - 1]), Destroy]
  }

  predicate NoneTwice(ids: seq<RunId>) { forall i, j :: 0 <= i < j < |ids| ==> ids[i] != ids[j] }

  function Among(ids: seq<RunId>): set<RunId> { set id | id in ids }

  lemma {:induction false} TakesAll(e: Estate, acts: seq<Act>, ids: seq<RunId>)
    requires var s := Ran(e, acts);
             && s.sweeper.Sweeping? && NoneTwice(ids)
             && forall id :: id in ids ==> id in s.sweeper.strays && !Live(s, id)
    ensures var s := Ran(e, acts);
            Ran(e, acts + Taking(ids)) ==
            s.(workloads := s.workloads - Among(ids), destroyed := s.destroyed + Among(ids),
               sweeper := Sweeping(s.sweeper.strays - Among(ids)))
  {
    hide Ran;
    var s := Ran(e, acts);
    if ids == [] {
      assert acts + [] == acts && Among(ids) == {};
      assert s.workloads - {} == s.workloads && s.destroyed + {} == s.destroyed;
      assert s.sweeper.strays - {} == s.sweeper.strays;
    } else {
      var n := |ids| - 1;
      var front, id := ids[..n], ids[n];
      assert forall x :: x in front ==> x in ids;
      TakesAll(e, acts, front);
      assert id !in front && Among(ids) == Among(front) + {id};
      var before := acts + Taking(front);
      var mid := Ran(e, before);
      assert id in mid.sweeper.strays && mid.rows == s.rows && !Live(mid, id);
      assert Stepped(mid, Recheck(id)) == mid.(sweeper := Condemned(id, mid.sweeper.strays - {id}));
      Then(e, before, Recheck(id));
      Then(e, before + [Recheck(id)], Destroy);
      assert before + [Recheck(id)] + [Destroy] == acts + Taking(ids);
      assert s.workloads - Among(front) - {id} == s.workloads - Among(ids);
      assert s.destroyed + Among(front) + {id} == s.destroyed + Among(ids);
      assert s.sweeper.strays - Among(front) - {id} == s.sweeper.strays - Among(ids);
    }
  }

  /** Left to itself, a sweep of a fleet destroys exactly the workloads it owns whose runs are
      not live, and spares all others. */
  lemma UndisturbedSweep(e: Estate, acts: seq<Act>, owned: set<RunId>, ids: seq<RunId>)
    requires var s := Ran(e, acts);
             && s.sweeper.BetweenFleets? && owned <= s.workloads && NoneTwice(ids)
             && forall id :: id in ids <==> id in owned && !Live(s, id)
    ensures var s := Ran(e, acts);
            var t := Ran(e, acts + [List(owned), ReadLive] + Taking(ids));
            && t.workloads == set id | id in s.workloads && (id in owned ==> Live(s, id))
            && t.rows == s.rows && t.launches == s.launches
            && t.destroyed == s.destroyed + Among(ids) && t.sweeper == Sweeping({})
  {
    hide Ran;
    var s := Ran(e, acts);
    Then(e, acts, List(owned));
    Then(e, acts + [List(owned)], ReadLive);
    assert acts + [List(owned)] + [ReadLive] == acts + [List(owned), ReadLive];
    TakesAll(e, acts + [List(owned), ReadLive], ids);
    assert Ran(e, acts + [List(owned), ReadLive]).sweeper.strays - Among(ids) == {};
  }

  /** Left to itself, a launch ends with its row provisioning and its workload up, or with its
      row failed and nothing else changed. */
  lemma UndisturbedLaunch(e: Estate, acts: seq<Act>, id: RunId)
    requires var s := Ran(e, acts); id !in s.rows && id !in s.launches && id !in s.destroyed
    ensures var s := Ran(e, acts);
            && Ran(e, acts + [CommitRow(id), CreateWorkload(id), SetProvisioning(id)]) ==
               s.(rows := s.rows[id := Provisioning], workloads := s.workloads + {id})
            && Ran(e, acts + [CommitRow(id)] + [LaunchFails(id)]) == s.(rows := s.rows[id := RunState.Failed])
  {
    hide Ran;
    var s := Ran(e, acts);
    Chain3(e, acts, CommitRow(id), CreateWorkload(id), SetProvisioning(id));
    Then(e, acts, CommitRow(id));
    Then(e, acts + [CommitRow(id)], LaunchFails(id));
    assert s.destroyed - {id} == s.destroyed;
    assert s.launches[id := RowCommitted] - {id} == s.launches;
    assert s.launches[id := RowCommitted][id := WorkloadUp] - {id} == s.launches;
    assert s.rows[id := Preparing][id := Provisioning] == s.rows[id := Provisioning];
    assert s.rows[id := Preparing][id := RunState.Failed] == s.rows[id := RunState.Failed];
  }

  // ----- each condition is needed: the launches -------------------------------------------------------

  /** A launch that takes a condemned orphan's id between the recheck and the destroy. */
  lemma ReusedIdIsTaken(id: RunId)
    ensures var e := Estate(map[], {id}, map[], Starting, {});
            && Boot(e)
            && TookALiveRun(
                 Ran(e, [ReadRuns, CommitOrphans] + Pass(id) + [CommitRow(id), CreateWorkload(id), Destroy]), id)
  {
    hide Ran, Pass;
    var e := Estate(map[], {id}, map[], Starting, {});
    Begins(e);
    var first := [ReadRuns, CommitOrphans];
    Then(e, [], ReadRuns);
    Then(e, [ReadRuns], CommitOrphans);
    assert [] + [ReadRuns] == [ReadRuns] && [ReadRuns] + [CommitOrphans] == first;
    PassCondemns(e, first, id);
    Chain3(e, first + Pass(id), CommitRow(id), CreateWorkload(id), Destroy);
  }

  /** A launch whose row is committed before the first phase reads is failed by it as never
      launched, swept, and then written back to provisioning. */
  lemma EarlyLaunchIsTaken(id: RunId)
    ensures var e := Estate(map[], {}, map[], Starting, {});
            Boot(e) && TookALiveRun(Ran(e, [CommitRow(id), CreateWorkload(id), ReadRuns, Orphan(id), CommitOrphans]
                                           + Pass(id) + [Destroy, SetProvisioning(id)]), id)
  {
    hide Ran, Pass;
    var e := Estate(map[], {}, map[], Starting, {});
    Begins(e);
    var first := [CommitRow(id), CreateWorkload(id), ReadRuns, Orphan(id), CommitOrphans];
    Chain3(e, [], CommitRow(id), CreateWorkload(id), ReadRuns);
    var up := [CommitRow(id), CreateWorkload(id), ReadRuns];
    assert [] + up == up && up + [Orphan(id)] + [CommitOrphans] == first;
    Then(e, up, Orphan(id));
    Then(e, up + [Orphan(id)], CommitOrphans);
    SweptThenRevived(e, first, id);
  }

  /** A run ended while its launch is still in flight is swept and then revived. */
  lemma EndedLaunchIsTaken(id: RunId)
    ensures var e := Estate(map[], {}, map[], Starting, {});
            var launch := [CommitRow(id), CreateWorkload(id), Advance(id, Stopped)];
            && Boot(e)
            && TookALiveRun(Ran(e, [ReadRuns, CommitOrphans] + launch + Pass(id) + [Destroy, SetProvisioning(id)]), id)
  {
    hide Ran, Pass;
    var e := Estate(map[], {}, map[], Starting, {});
    Begins(e);
    var launch := [CommitRow(id), CreateWorkload(id), Advance(id, Stopped)];
    var first := [ReadRuns, CommitOrphans] + launch;
    Chain3(e, [], ReadRuns, CommitOrphans, CommitRow(id));
    var up := [ReadRuns, CommitOrphans, CommitRow(id)];
    assert [] + up == up && up + [CreateWorkload(id)] + [Advance(id, Stopped)] == first;
    Then(e, up, CreateWorkload(id));
    Then(e, up + [CreateWorkload(id)], Advance(id, Stopped));
    SweptThenRevived(e, first, id);
  }
}
