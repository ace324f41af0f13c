/** A run, its worker leases and its event log, as values.

    One record per row of the source's tables: a run carries its leases in slot
    order, the heartbeat samples it has received and the part of its event log
    that later decisions read back. Instants and durations are real seconds. */
module RunModel {
  import opened Basics
  import opened Apportion

  // ----- constants (server/lifecycle.py:93-100) -------------------------------

  const RELEASE_DELAY_S := 2.0
  const PROVISION_TIMEOUT_S := 120.0
  const LEASE_LAPSE_S := 30.0
  const BOOT_GRACE_S := 60.0
  const STOP_GRACE_S := 45.0
  const AUTO_ABORT_LOST_S := 300.0
  const ASSIGNED_REASON_MAX := 300

  // ----- states ---------------------------------------------------------------

  datatype RunState =
    | Pending | Preparing | Provisioning | Releasing | Running | Paused | Draining
    | Completed | Stopped | Failed
  {
    predicate Terminal() { Completed? || Stopped? || Failed? }
  }

  datatype LeaseState = Free | Claimed | Ready | Running | Lost | Done {
    predicate Live() { Claimed? || Ready? || Running? }
    predicate Claimable() { Free? || Lost? }
    predicate Waiting() { Free? || Claimed? }
    predicate Resolved() { Done? || Lost? }
  }

  datatype EndReason =
    | ProvisionFailed | StrictReleaseTimeout | AutoAbortLost | AutoAbortAuth
    | AllWorkersLost | Orphaned | NoEvents
    | OperatorStop
    | ProvisionTimeout | DurationComplete | BackpressureDrain | NaturalEnd | OtherFailure
  {
    /** The reasons that make a fully resolved run end failed. */
    predicate Failing() {
      ProvisionFailed? || StrictReleaseTimeout? || AutoAbortLost? || AutoAbortAuth?
      || AllWorkersLost? || Orphaned? || NoEvents?
    }
  }

  // ----- leases -----------------------------------------------------------------

  /** Drawn from a counter, so two draws never agree. */
  type LeaseId = nat

  datatype Work = Work(count: int, reason: Option<string>)
  datatype Engine = Engine(impl: string, envelope: Option<string>)

  /** A lease's share_json: the wire-visible share and the private keys beside it. */
  datatype ShareDoc = ShareDoc(rate: Share, retarget: bool, work: Option<Work>, engine: Option<Engine>)

  datatype Lease = Lease(
    slot: nat,
    id: LeaseId,
    holder: Option<string>,
    state: LeaseState,
    lastHb: Option<real>,
    effectiveT0: Option<real>,
    restarts: nat,
    share: ShareDoc)

  function PlainShare(share: Share): ShareDoc { ShareDoc(share, false, None, None) }

  /** mark_retarget: the new share with a note to push it; worker reports are kept. */
  function MarkRetarget(l: Lease, share: Share): Lease {
    l.(share := l.share.(rate := share, retarget := true))
  }

  /** scale_run and rescale_run: a live lease is told, any other is just rewritten. */
  function Reassigned(l: Lease, share: Share): Lease {
    if l.state.Live() then MarkRetarget(l, share) else l.(share := PlainShare(share))
  }

  // ----- counters -----------------------------------------------------------------

  type Counters = map<string, nat>

  const LIVE_KEYS: set<string> :=
    {"events_total", "bytes_total", "hec_2xx", "hec_4xx", "hec_5xx", "hec_timeouts", "retries"}

  function At(c: Counters, key: string): nat { if key in c then c[key] else 0 }

  /** fold_totals on numeric keys: key by key, the sums. */
  function Fold(a: Counters, b: Counters): (r: Counters)
    ensures forall k :: At(r, k) == At(a, k) + At(b, k)
  {
    map k | k in a.Keys + b.Keys :: At(a, k) + At(b, k)
  }

  datatype Sample = Sample(slot: nat, ts: real, counters: Counters)

  /** A slot's two newest samples, newest first; of equal instants the earlier row. */
  function NewestTwo(samples: seq<Sample>, slot: nat): (r: seq<Sample>)
    ensures |r| <= 2 && forall i :: 0 <= i < |r| ==> r[i] in samples && r[i].slot == slot
  {
    if samples == [] then []
    else
      var two := NewestTwo(samples[..|samples| - 1], slot);
      var s := samples[|samples| - 1];
      if s.slot != slot then two
      else if |two| == 0 then [s]
      else if s.ts > two[0].ts then [s, two[0]]
      else if |two| == 1 then [two[0], s]
      else if s.ts > two[1].ts then [two[0], s]
      else two
  }

  /** The cumulative counters of a slot's newest sample; none before its first. */
  function NewestCounters(samples: seq<Sample>, slot: nat): (r: Counters)
    ensures r.Keys <= LIVE_KEYS
  {
    var two := NewestTwo(samples, slot);
    if two == [] then map[]
    else map k | k in two[0].counters && k in LIVE_KEYS :: two[0].counters[k]
  }

  // ----- runs -----------------------------------------------------------------------

  datatype Event =
    | StateChange(ts: real, from: RunState, to: RunState)
    | Detected(ts: real)
    | Cleared(ts: real)
    | SteppedDown(ts: real)
    | AuthFailed(ts: real, slot: nat)

  /** The frozen spec, with the two fields scale and rescale rewrite. */
  datatype Snapshot = Snapshot(
    replay: bool,
    mode: RateMode,
    rate: Option<real>,
    workers: nat,
    duration: Option<real>,
    strictRelease: bool,
    rotationPins: bool,
    bpOriginal: Option<real>)

  datatype Run = Run(
    state: RunState,
    createdAt: real,
    t0: Option<real>,
    endedAt: Option<real>,
    endReason: Option<EndReason>,
    degraded: bool,
    pausedAt: Option<real>,
    pausedS: real,
    snap: Snapshot,
    leases: seq<Lease>,
    samples: seq<Sample>,
    totals: Counters,
    events: seq<Event>,
    minted: nat)

  /** The process settings the supervisor's backpressure check reads. */
  datatype Settings = Settings(
    enabled: bool,
    minFailedFraction: real,
    sustainedS: real,
    stepDown: bool,
    stepFactor: real,
    minRateFraction: real)

  // ----- lists of leases --------------------------------------------------------------

  /** The ways the operations pick leases out of a run's list. */
  datatype Pick =
    | Everyone | Live | Finished | Missing | Warmed | Awaited | LostAfterRunning
    | AtSlot(slot: nat) | ClaimableAt(slot: nat) | HeldLive(holder: string)

  predicate Is(l: Lease, p: Pick) {
    match p
    case Everyone => true
    case Live => l.state.Live()
    case Finished => l.state.Done?
    case Missing => l.state.Lost?
    case Warmed => l.state.Ready?
    case Awaited => l.state.Waiting()
    case LostAfterRunning => l.state.Lost? && l.lastHb.Some?
    case AtSlot(slot) => l.slot == slot
    case ClaimableAt(slot) => l.state.Claimable() && l.slot == slot
    case HeldLive(holder) => l.holder == Some(holder) && l.state.Live()
  }

  predicate Any(leases: seq<Lease>, p: Pick) {
    exists i :: 0 <= i < |leases| && Is(leases[i], p)
  }

  /** The first lease picked. */
  function First(leases: seq<Lease>, p: Pick): (r: Option<nat>)
    ensures r.Some? ==> r.value < |leases| && Is(leases[r.value], p)
                        && forall j :: 0 <= j < r.value ==> !Is(leases[j], p)
    ensures r.None? ==> !Any(leases, p)
  {
    if leases == [] then None
    else if Is(leases[0], p) then Some(0)
    else
      var rest := First(leases[1..], p);
      assert forall j :: 1 <= j < |leases| ==> leases[j] == leases[1..][j - 1];
      if rest.None? then None else Some(rest.value + 1)
  }

  function Count(leases: seq<Lease>, p: Pick): (n: nat)
    ensures n <= |leases|
  {
    if leases == [] then 0 else Count(leases[1..], p) + (if Is(leases[0], p) then 1 else 0)
  }

  lemma {:induction false} CountPositive(leases: seq<Lease>, p: Pick)
    ensures Count(leases, p) > 0 <==> Any(leases, p)
  {
    if leases != [] {
      CountPositive(leases[1..], p);
      assert forall j :: 1 <= j < |leases| ==> leases[j] == leases[1..][j - 1];
      assert forall j :: 0 <= j < |leases[1..]| ==> leases[1..][j] == leases[j + 1];
    }
  }

  /** The ways the operations rewrite every lease of a run at once. */
  datatype Change =
    | Finalise | MissRelease | GiveUp
    | Lapse(created: real, boot: real, now: real)
    | Reassign(shares: seq<Share>)

  function Max(a: real, b: real): real { if a < b then b else a }

  function Lapsed(l: Lease, created: real, boot: real, now: real): Lease {
    var last := if l.lastHb.Some? then l.lastHb.value else created;
    if l.state.Live() && now > Max(last + LEASE_LAPSE_S, boot + BOOT_GRACE_S)
    then l.(state := Lost) else l
  }

  function Changed(l: Lease, c: Change): Lease {
    match c
    case Finalise => if l.state.Live() then l.(state := Done)
                     else if l.state.Free? then l.(state := Lost) else l
    case MissRelease => if l.state.Waiting() then l.(state := Lost) else l
    case GiveUp => if l.state.Resolved() then l else l.(state := Lost)
    case Lapse(created, boot, now) => Lapsed(l, created, boot, now)
    case Reassign(shares) => if l.slot < |shares| then Reassigned(l, shares[l.slot]) else l
  }

  function Each(leases: seq<Lease>, c: Change): (r: seq<Lease>)
    ensures |r| == |leases| && forall i :: 0 <= i < |leases| ==> r[i] == Changed(leases[i], c)
  {
    if leases == [] then [] else [Changed(leases[0], c)] + Each(leases[1..], c)
  }

  /** How a lease takes a share in a re-split: the lease being claimed has no worker to
      tell, so its share is written in place; an unchanged share is left alone there. */
  function Respread(l: Lease, share: Share, claimer: Option<LeaseId>): Lease {
    if claimer.None? then MarkRetarget(l, share)
    else if l.share.rate == share then l
    else if l.id == claimer.value then l.(share := l.share.(rate := share))
    else MarkRetarget(l, share)
  }

  /** The k-th lease picked is given the k-th share. */
  function Spread(leases: seq<Lease>, p: Pick, claimer: Option<LeaseId>, shares: seq<Share>)
      : (r: seq<Lease>)
    requires |shares| == Count(leases, p)
    ensures |r| == |leases|
    ensures forall i :: 0 <= i < |leases| ==>
              if Is(leases[i], p) then r[i] == Respread(leases[i], r[i].share.rate, claimer)
              else r[i] == leases[i]
  {
    if leases == [] then []
    else if Is(leases[0], p) then
      [Respread(leases[0], shares[0], claimer)] + Spread(leases[1..], p, claimer, shares[1..])
    else [leases[0]] + Spread(leases[1..], p, claimer, shares)
  }

  /** The combined rate of the leases picked. */
  function RateOf(leases: seq<Lease>, p: Pick): real {
    if leases == [] then 0.0
    else (if Is(leases[0], p) then leases[0].share.rate.value else 0.0) + RateOf(leases[1..], p)
  }

  /** The lease with the lowest slot among those free or lost. */
  function LowestClaimable(leases: seq<Lease>): (r: Option<nat>)
    ensures r.Some? ==> r.value < |leases| && leases[r.value].state.Claimable()
                        && forall j :: 0 <= j < |leases| && leases[j].state.Claimable() ==>
                                         leases[r.value].slot <= leases[j].slot
    ensures r.None? ==> forall j :: 0 <= j < |leases| ==> !leases[j].state.Claimable()
  {
    if leases == [] then None
    else
      var rest := LowestClaimable(leases[1..]);
      assert forall j :: 1 <= j < |leases| ==> leases[j] == leases[1..][j - 1];
      if !leases[0].state.Claimable() then (if rest.None? then None else Some(rest.value + 1))
      else if rest.Some? && leases[1..][rest.value].slot < leases[0].slot then Some(rest.value + 1)
      else Some(0)
  }

  /** The same grants: slot by slot, everything but state and share as before. */
  predicate SameGrants(a: seq<Lease>, b: seq<Lease>) {
    |a| == |b| && forall i :: 0 <= i < |a| ==> b[i] == a[i].(state := b[i].state, share := b[i].share)
  }

  /** Nothing but shares has changed. */
  predicate SameButShares(a: seq<Lease>, b: seq<Lease>) {
    |a| == |b| && forall i :: 0 <= i < |a| ==> b[i] == a[i].(share := b[i].share)
  }
}
