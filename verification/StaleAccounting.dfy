/**
 One node and the gateway that polls it, as two processes: requests travel, the
 node takes its snapshots at some instant of a poll, processes restart, and the
 gateway corrects the snapshot it holds by its own reservations.
 */
module StaleAccounting {
  import opened Options
  import opened FleetWire
  import opened FleetRegistry
  import opened FleetScheduler

  /** A snapshot in the making: when it was taken and which routes it counted. */
  datatype Sight = Sight(takenAt: real, inside: set<RouteId>)

  datatype Poll = Poll(started: real, report: Option<Report>)

  /** `process` numbers the node's processes in the order they start; only equality
      of these ids reaches the gateway. `targets` remembers the process each route was
      reserved on, `answered` when a route entered the node or was turned away, and `headers`
      when the gateway first had headers for it. */
  datatype World = World(
    now: real,
    // the node
    process: InstanceId, sequence: nat, inside: set<RouteId>,
    // the gateway
    fence: Fence, reservations: map<RouteId, Reservation>, poll: Option<Poll>,
    // history
    targets: map<RouteId, InstanceId>, answered: map<RouteId, real>, headers: map<RouteId, real>,
    sights: map<Stamp, Sight>)

  datatype Step =
    | Tick(now: real)
    | Reserve(route: RouteId, alias: string)
    | Enter(route: RouteId)
    | TurnAway(route: RouteId)
    | Headers(route: RouteId)
    | Leave(route: RouteId)
    | Release(route: RouteId)
    | StartPoll
    | Take(body: Snapshot)
    | Install
    | FailPoll
    | Restart

  const NODE: NodeId := 0

  predicate Enabled(w: World, e: Step) {
    match e
    case Tick(now) => w.now <= now
    case Reserve(route, alias) => w.fence.record.Some? && route !in w.targets
    case Enter(route) => route in w.targets && w.targets[route] == w.process && route !in w.answered
    case TurnAway(route) => route in w.targets && route !in w.answered
    case Headers(route) => route in w.reservations && route in w.answered
    case Leave(route) => route in w.inside
    case Release(route) => route in w.reservations
    case StartPoll => w.poll.None?
    case Take(body) => w.poll.Some? && w.poll.value.report.None? && |w.inside| <= Occupancy(body)
    case Install => w.poll.Some? && w.poll.value.report.Some?
    case FailPoll => w.poll.Some?
    case Restart => true
  }

  function Offered(w: World): Record
    requires w.poll.Some? && w.poll.value.report.Some?
  {
    Record(NODE, w.poll.value.report.value, w.now, w.poll.value.started)
  }

  function Apply(w: World, e: Step): World
    requires Enabled(w, e)
  {
    match e
    case Tick(now) => w.(now := now)
    case Reserve(route, alias) =>
      var instance := w.fence.record.value.report.stamp.instance;
      w.(reservations := w.reservations[route := Reservation(NODE, instance, alias, None)],
         targets := w.targets[route := instance])
    case Enter(route) => w.(inside := w.inside + {route}, answered := w.answered[route := w.now])
    case TurnAway(route) => w.(answered := w.answered[route := w.now])
    case Headers(route) =>
      w.(reservations := w.reservations[route := Marked(w.reservations[route], w.now)],
         headers := if route in w.headers then w.headers else w.headers[route := w.now])
    case Leave(route) => w.(inside := w.inside - {route})
    case Release(route) => w.(reservations := w.reservations - {route})
    case StartPoll => w.(poll := Some(Poll(w.now, None)))
    case Take(body) =>
      var stamp := Stamp(w.process, w.sequence + 1);
      w.(sequence := w.sequence + 1, sights := w.sights[stamp := Sight(w.now, w.inside)],
         poll := Some(Poll(w.poll.value.started, Some(Report(stamp, body)))))
    case Install => w.(fence := Offer(w.fence, Offered(w)).0, poll := None)
    case FailPoll => w.(poll := None)
    case Restart => w.(process := w.process + 1, sequence := 0, inside := {})
  }

  ghost predicate Run(w: World, es: seq<Step>)
    decreases |es|
  {
    es == [] || (Enabled(w, es[0]) && Run(Apply(w, es[0]), es[1..]))
  }

  ghost function Final(w: World, es: seq<Step>): World
    requires Run(w, es)
    decreases |es|
  {
    if es == [] then w else Final(Apply(w, es[0]), es[1..])
  }

  function Start(now: real): World {
    World(now, 0, 0, {}, Fence(None, {}), map[], None, map[], map[], map[], map[])
  }

  // ----- the invariant

  /** Whoever is inside was reserved on the running process and entered in the past. */
  ghost predicate InsideKept(w: World) {
    forall r :: r in w.inside ==> r in w.targets && w.targets[r] == w.process && r in w.answered
  }

  /** A reservation is on the process its route was aimed at, and was marked only after the node answered. */
  ghost predicate ReservationsKept(w: World) {
    forall r :: r in w.reservations ==>
      && w.reservations[r].node == NODE && r in w.targets && w.reservations[r].instance == w.targets[r]
      && (w.reservations[r].admittedAt.Some? ==> r in w.answered && w.answered[r] <= w.reservations[r].admittedAt.value)
  }

  ghost predicate Past(w: World) {
    && (forall x :: x in w.sights ==> w.sights[x].takenAt <= w.now)
    && (forall x :: x in w.sights ==> x.instance < w.process || (x.instance == w.process && x.sequence <= w.sequence))
    && (forall r :: r in w.answered ==> w.answered[r] <= w.now)
    && (w.poll.Some? ==> w.poll.value.started <= w.now)
  }

  /** Whoever is inside and was not seen by a snapshot of this process entered after it. */
  ghost predicate SightsKept(w: World) {
    forall x, r :: x in w.sights && x.instance == w.process && r in w.inside && r !in w.sights[x].inside ==>
      r in w.answered && w.sights[x].takenAt <= w.answered[r]
  }

  /** A report on its way, or installed, was taken after its poll started and counts what it saw. */
  ghost predicate Genuine(w: World, report: Report, started: real) {
    && report.stamp in w.sights
    && started <= w.sights[report.stamp].takenAt
    && |w.sights[report.stamp].inside| <= Occupancy(report.body)
  }

  ghost predicate ReportsKept(w: World) {
    && (w.poll.Some? && w.poll.value.report.Some? ==> Genuine(w, w.poll.value.report.value, w.poll.value.started))
    && (w.fence.record.Some? ==>
          w.fence.record.value.node == NODE &&
            Genuine(w, w.fence.record.value.report, w.fence.record.value.pollStarted))
  }

  /** Polls of one node follow one another, so believed processes only move forward. */
  ghost predicate FenceKept(w: World) {
    && (w.fence.record.None? ==> w.fence.retired == {} && w.targets == map[])
    && (w.fence.record.Some? ==>
          var current := w.fence.record.value.report.stamp.instance;
          && (forall i :: i in w.fence.retired ==> i < current)
          && (forall r :: r in w.targets ==> w.targets[r] <= current)
          && (w.poll.Some? && w.poll.value.report.Some? ==> current <= w.poll.value.report.value.stamp.instance))
  }

  /** A reservation is marked with the time of its first headers, and only then. */
  ghost predicate MarksKept(w: World) {
    && (forall r :: r in w.reservations ==>
          w.reservations[r].admittedAt == if r in w.headers then Some(w.headers[r]) else None)
    && (forall r :: r in w.headers ==> r in w.targets)
  }

  ghost predicate Inv(w: World) {
    MarksKept(w) && InsideKept(w) && ReservationsKept(w) && Past(w) && SightsKept(w) && ReportsKept(w) && FenceKept(w)
  }

  lemma MarksStep(w: World, e: Step)
    requires MarksKept(w) && ReservationsKept(w) && Enabled(w, e)
    ensures MarksKept(Apply(w, e))
  {
  }

  lemma InsideStep(w: World, e: Step)
    requires InsideKept(w) && FenceKept(w) && Enabled(w, e)
    ensures InsideKept(Apply(w, e))
  {
  }

  lemma ReservationsStep(w: World, e: Step)
    requires ReservationsKept(w) && Past(w) && Enabled(w, e)
    ensures ReservationsKept(Apply(w, e))
  {
  }

  lemma PastStep(w: World, e: Step)
    requires Past(w) && Enabled(w, e)
    ensures Past(Apply(w, e))
  {
  }

  lemma SightsStep(w: World, e: Step)
    requires SightsKept(w) && Past(w) && InsideKept(w) && Enabled(w, e)
    ensures SightsKept(Apply(w, e))
  {
  }

  lemma ReportsStep(w: World, e: Step)
    requires ReportsKept(w) && Past(w) && Enabled(w, e)
    ensures ReportsKept(Apply(w, e))
  {
  }

  lemma InstallStep(w: World)
    requires FenceKept(w) && w.poll.Some? && w.poll.value.report.Some?
    ensures FenceKept(w.(fence := Offer(w.fence, Offered(w)).0, poll := None))
  {
  }

  lemma FenceStep(w: World, e: Step)
    requires FenceKept(w) && ReportsKept(w) && Past(w) && Enabled(w, e)
    ensures FenceKept(Apply(w, e))
  {
    if e.Install? {
      InstallStep(w);
    } else {
      assert Apply(w, e).fence == w.fence;
    }
  }

  lemma StepKeeps(w: World, e: Step)
    requires Inv(w) && Enabled(w, e)
    ensures Inv(Apply(w, e))
  {
    MarksStep(w, e);
    InsideStep(w, e);
    ReservationsStep(w, e);
    PastStep(w, e);
    SightsStep(w, e);
    ReportsStep(w, e);
    FenceStep(w, e);
  }

  lemma {:induction false} RunKeeps(w: World, es: seq<Step>)
    requires Inv(w) && Run(w, es)
    ensures Inv(Final(w, es))
    decreases |es|
  {
    if es != [] {
      StepKeeps(w, es[0]);
      RunKeeps(Apply(w, es[0]), es[1..]);
    }
  }

  // ----- the theorems

  /** The installed snapshot counted the route, or the gateway's reservations do. */
  ghost predicate Accounted(w: World, r: RouteId)
    requires w.fence.record.Some? && w.fence.record.value.report.stamp in w.sights
  {
    var record := w.fence.record.value;
    r in w.sights[record.report.stamp].inside || r in Unaccounted(w.reservations, record)
  }

  /** Headers for the route came before the installed snapshot's poll was started. */
  ghost predicate AnsweredBefore(w: World, r: RouteId, record: Record) {
    r in w.headers && w.headers[r] < record.pollStarted
  }

  /** Over every run, exactly which reservations are added to what the snapshot shows:
      those held on its process whose headers did not come before its poll started. */
  lemma UnaccountedExactly(now: real, es: seq<Step>, r: RouteId)
    requires Run(Start(now), es) && Final(Start(now), es).fence.record.Some?
    ensures var w := Final(Start(now), es);
      var record := w.fence.record.value;
      r in Unaccounted(w.reservations, record) <==>
        && r in w.reservations && r in w.targets && w.targets[r] == record.report.stamp.instance
        && !AnsweredBefore(w, r, record)
  {
    RunKeeps(Start(now), es);
  }

  /** So a request is counted twice only if its headers were still to come when the poll
      that saw it was started. */
  lemma CountedTwiceOnlyIfLate(now: real, es: seq<Step>, r: RouteId)
    requires Run(Start(now), es) && Final(Start(now), es).fence.record.Some?
    requires var w := Final(Start(now), es); AnsweredBefore(w, r, w.fence.record.value)
    ensures var w := Final(Start(now), es); r !in Unaccounted(w.reservations, w.fence.record.value)
  {
    UnaccountedExactly(now, es, r);
  }

  /** And outstanding work is over-stated by no more than such requests: once all headers
      came before the poll, nothing is added to what the snapshot shows. */
  lemma NothingAddedOnceAnswered(now: real, es: seq<Step>)
    requires Run(Start(now), es) && Final(Start(now), es).fence.record.Some?
    requires var w := Final(Start(now), es);
      forall r :: r in w.reservations ==> AnsweredBefore(w, r, w.fence.record.value)
    ensures var w := Final(Start(now), es); Unaccounted(w.reservations, w.fence.record.value) == {}
  {
    var w := Final(Start(now), es);
    forall r ensures r !in Unaccounted(w.reservations, w.fence.record.value) {
      UnaccountedExactly(now, es, r);
    }
  }

  /** Exactly which requests are accounted for: a request that occupies the node is,
      unless its reservation was returned before any installed snapshot saw it. */
  lemma AccountedExactly(w: World, r: RouteId)
    requires Inv(w) && r in w.inside
    ensures w.fence.record.Some? && w.fence.record.value.report.stamp in w.sights
    ensures w.fence.record.value.report.stamp.instance == w.process
    ensures Accounted(w, r) <==> r in w.sights[w.fence.record.value.report.stamp].inside || r in w.reservations
  {
    assert r in w.targets;
    var x := w.fence.record.value.report.stamp;
    assert x in w.sights;
    if r !in w.sights[x].inside && r in w.reservations {
      assert w.sights[x].takenAt <= w.answered[r];
    }
  }

  /** The exception is real: from any state that believes the running process, a client
      that hangs up early has its reservation returned while the node still works, and
      the installed snapshot counts nothing of it. */
  lemma EarlyReturnIsMissed(w: World, r: RouteId, alias: string)
    requires Inv(w) && w.fence.record.Some? && w.fence.record.value.report.stamp.instance == w.process
    requires r !in w.targets && r !in w.answered && r !in w.sights[w.fence.record.value.report.stamp].inside
    ensures Enabled(w, Reserve(r, alias))
    ensures var w1 := Apply(w, Reserve(r, alias));
      Enabled(w1, Enter(r)) &&
      var w2 := Apply(w1, Enter(r));
      Enabled(w2, Release(r)) &&
      var w3 := Apply(w2, Release(r));
      r in w3.inside && w3.fence == w.fence && w3.sights == w.sights && !Accounted(w3, r)
  {
  }

  /** Over every run, a request that holds its reservation and a place on the node is counted. */
  lemma NeverUndercounts(now: real, es: seq<Step>, r: RouteId)
    requires Run(Start(now), es)
    requires var w := Final(Start(now), es); r in w.inside && r in w.reservations
    ensures var w := Final(Start(now), es);
      w.fence.record.Some? && w.fence.record.value.report.stamp in w.sights && Accounted(w, r)
  {
    RunKeeps(Start(now), es);
    AccountedExactly(Final(Start(now), es), r);
  }

  /** So the outstanding work on which nodes are compared is never too low. */
  lemma OutstandingIsEnough(now: real, es: seq<Step>)
    requires Run(Start(now), es)
    requires Final(Start(now), es).fence.record.Some?
    ensures var w := Final(Start(now), es);
      var record := w.fence.record.value;
      |w.inside * w.reservations.Keys| <= Occupancy(record.report.body) + |Unaccounted(w.reservations, record)|
  {
    RunKeeps(Start(now), es);
    var w := Final(Start(now), es);
    var record := w.fence.record.value;
    var seen, local := w.sights[record.report.stamp].inside, Unaccounted(w.reservations, record);
    forall r | r in w.inside * w.reservations.Keys ensures r in seen + local {
      AccountedExactly(w, r);
    }
    UnionBound(w.inside * w.reservations.Keys, seen, local);
  }

  lemma UnionBound(a: set<RouteId>, b: set<RouteId>, c: set<RouteId>)
    requires a <= b + c
    ensures |a| <= |b| + |c|
  {
    FewerMembers(a, b + c);
  }
}
