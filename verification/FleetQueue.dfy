/**
 The gateway's waiting room: bounded first-come queues over stale snapshots, as a
 state machine whose steps are the critical sections of the scheduler, the clock
 and the poller.
 */
module FleetQueue {
  import opened Options
  import opened FleetRegistry
  import opened FleetScheduler

  datatype Ticket = Ticket(name: string, id: nat, capability: string, excluded: set<NodeId>)

  /** `parked` holds the waiters no notification has reached since they last looked;
      `wakes` counts polls whose change callback is still to come. */
  datatype State = State(
    view: View, models: map<string, Model>, queues: map<string, seq<Ticket>>, counter: nat,
    parked: set<Ticket>, wakes: nat)

  function QueueOf(s: State, name: string): seq<Ticket> { if name in s.queues then s.queues[name] else [] }

  function DemandOf(s: State, t: Ticket): Demand
    requires t.name in s.models
  {
    Demand(s.models[t.name], t.capability, t.excluded)
  }

  // ----- the critical sections

  function NotifyAll(s: State): State { s.(parked := {}) }

  function Reserve(s: State, route: RouteId, c: Candidate): State {
    s.(view := Hold(s.view, route, c).(lastSelected := s.view.lastSelected[c.record.node := s.counter + 1]),
       counter := s.counter + 1)
  }

  function SetQueue(s: State, name: string, q: seq<Ticket>): State { s.(queues := s.queues[name := q]) }

  function Drop(q: seq<Ticket>, t: Ticket): seq<Ticket> {
    if q == [] then [] else if q[0] == t then q[1..] else [q[0]] + Drop(q[1..], t)
  }

  datatype Arrival = Placed | Full | Queued

  /** A newcomer is placed at once only if nobody waits. */
  function Arrive(s: State, t: Ticket, pick: Option<Candidate>, route: RouteId): (State, Arrival)
    requires t.name in s.models
  {
    var q := QueueOf(s, t.name);
    if q == [] && pick.Some? then (Reserve(s, route, pick.value), Placed)
    else if |q| >= s.models[t.name].queueDepth then (s, Full)
    else (SetQueue(s, t.name, q + [t]).(parked := s.parked + {t}), Queued)
  }

  /** A woken waiter looks again. */
  function Resume(s: State, t: Ticket, pick: Option<Candidate>, route: RouteId): State {
    var q := QueueOf(s, t.name);
    if q != [] && q[0] == t && pick.Some? then
      NotifyAll(Reserve(SetQueue(s, t.name, q[1..]), route, pick.value))
    else s.(parked := s.parked + {t})
  }

  /** A waiter times out or its client leaves. */
  function Abandon(s: State, t: Ticket): State { NotifyAll(SetQueue(s, t.name, Drop(QueueOf(s, t.name), t))) }

  function MarkAdmitted(v: View, route: RouteId): View
    requires route in v.reservations
  {
    v.(reservations := v.reservations[route := Marked(v.reservations[route], v.now)])
  }

  function Release(s: State, route: RouteId): State {
    NotifyAll(s.(view := s.view.(reservations := s.view.reservations - {route})))
  }

  // ----- runs

  datatype Step =
    | Tick(now: real)
    | Arriving(ticket: Ticket, pick: Option<Candidate>, route: RouteId)
    | Resuming(ticket: Ticket, pick: Option<Candidate>, route: RouteId)
    | Abandoning(ticket: Ticket)
    | Admitting(route: RouteId)
    | Releasing(route: RouteId)
    | Polled(installed: Option<Record>)
    | Waking

  /** `pick` is what selection returns. */
  ghost predicate Picks(v: View, demand: Demand, pick: Option<Candidate>) {
    if pick.None? then !Placeable(v, demand) else Chosen(v, demand, pick.value)
  }

  ghost predicate Enabled(s: State, e: Step) {
    match e
    case Tick(now) => s.view.now <= now
    case Arriving(t, pick, route) =>
      && t.name in s.models && t.capability in s.models[t.name].capabilities
      && t !in QueueOf(s, t.name) && route !in s.view.reservations
      && (QueueOf(s, t.name) == [] ==> Picks(s.view, DemandOf(s, t), pick))
    case Resuming(t, pick, route) =>
      && t.name in s.models && t in QueueOf(s, t.name) && t !in s.parked && route !in s.view.reservations
      && (QueueOf(s, t.name)[0] == t ==> Picks(s.view, DemandOf(s, t), pick))
    case Abandoning(t) => t in QueueOf(s, t.name)
    case Admitting(route) => route in s.view.reservations
    case Releasing(route) => true
    case Polled(installed) => installed.Some? ==> installed.value.pollStarted <= s.view.now
    case Waking => s.wakes > 0
  }

  function Apply(s: State, e: Step): State
    requires e.Arriving? ==> e.ticket.name in s.models
    requires e.Admitting? ==> e.route in s.view.reservations
  {
    match e
    case Tick(now) => s.(view := s.view.(now := now))
    case Arriving(t, pick, route) => Arrive(s, t, pick, route).0
    case Resuming(t, pick, route) => Resume(s, t, pick, route)
    case Abandoning(t) => Abandon(s, t)
    case Admitting(route) => s.(view := MarkAdmitted(s.view, route))
    case Releasing(route) => Release(s, route)
    case Polled(installed) =>
      if installed.None? then s.(wakes := s.wakes + 1)
      else s.(view := s.view.(records := s.view.records[installed.value.node := installed.value]), wakes := s.wakes + 1)
    case Waking => NotifyAll(s).(wakes := s.wakes - if s.wakes > 0 then 1 else 0)
  }

  ghost predicate Run(s: State, es: seq<Step>)
    decreases |es|
  {
    es == [] || (Enabled(s, es[0]) && Run(Apply(s, es[0]), es[1..]))
  }

  ghost function Final(s: State, es: seq<Step>): State
    requires Run(s, es)
    decreases |es|
  {
    if es == [] then s else Final(Apply(s, es[0]), es[1..])
  }

  // ----- the invariant

  ghost predicate QueuesKept(s: State) {
    forall name :: QueueOf(s, name) != [] ==>
      && name in s.models
      && |QueueOf(s, name)| <= s.models[name].queueDepth
      && forall t :: t in QueueOf(s, name) ==> t.name == name
  }

  /** A waiting head that could be placed has a wake-up coming. */
  ghost predicate HeadCovered(s: State, name: string)
    requires name in s.models
  {
    var q := QueueOf(s, name);
    q != [] && q[0].name == name && q[0] in s.parked && Placeable(s.view, DemandOf(s, q[0])) ==> s.wakes > 0
  }

  ghost predicate Dated(v: View) { forall n :: n in v.records ==> v.records[n].pollStarted <= v.now }

  /** Queues are bounded and sorted by model, and every placeable head is covered. */
  ghost predicate Covered(s: State) {
    && Filed(s.view) && Dated(s.view) && QueuesKept(s)
    && forall name :: name in s.models ==> HeadCovered(s, name)
  }

  /** No node was selected later than the counter says. */
  ghost predicate CounterKept(s: State) {
    forall n :: n in s.view.lastSelected ==> s.view.lastSelected[n] <= s.counter
  }

  ghost predicate Inv(s: State) { Covered(s) && CounterKept(s) }

  function Start(models: map<string, Model>, weights: map<NodeId, real>, ttl: real, now: real): State {
    State(View(map[], now, ttl, map[], weights, map[]), models, map[], 0, {}, 0)
  }

  lemma StartHolds(models: map<string, Model>, weights: map<NodeId, real>, ttl: real, now: real)
    ensures Inv(Start(models, weights, ttl, now))
  {
  }

  lemma {:induction false} DropKeeps(q: seq<Ticket>, t: Ticket)
    ensures |Drop(q, t)| <= |q| && forall u :: u in Drop(q, t) ==> u in q
  {
    if q != [] && q[0] != t {
      DropKeeps(q[1..], t);
    }
  }

  /** Steps after which nothing more can be placed than before. */
  ghost predicate Narrows(v: View, w: View) {
    forall demand :: Placeable(w, demand) ==> Placeable(v, demand)
  }

  lemma TickNarrows(v: View, now: real)
    requires v.now <= now
    ensures Narrows(v, v.(now := now))
  {
    forall demand | Placeable(v.(now := now), demand) ensures Placeable(v, demand) {
      LessIsPlaceable(v, v.(now := now), demand);
    }
  }

  lemma ReserveNarrows(s: State, route: RouteId, c: Candidate)
    requires route !in s.view.reservations
    ensures Narrows(s.view, Reserve(s, route, c).view)
  {
    var w := Reserve(s, route, c).view;
    forall demand | Placeable(w, demand) ensures Placeable(s.view, demand) {
      LessIsPlaceable(s.view, w, demand);
    }
  }

  /** Marking a request admitted never un-counts it against an installed snapshot. */
  lemma AdmitNarrows(v: View, route: RouteId)
    requires route in v.reservations && Dated(v)
    ensures Narrows(v, MarkAdmitted(v, route))
  {
    var w := MarkAdmitted(v, route);
    forall demand | Placeable(w, demand) ensures Placeable(v, demand) {
      LessIsPlaceable(v, w, demand);
    }
  }

  lemma NarrowingKeeps(s: State, w: View)
    requires Covered(s) && Filed(w) && Dated(w) && Narrows(s.view, w)
    ensures Covered(s.(view := w))
  {
    var z := s.(view := w);
    forall name | name in z.models ensures HeadCovered(z, name) {
      assert HeadCovered(s, name);
      assert QueueOf(z, name) == QueueOf(s, name);
    }
  }

  lemma ArrivingKeeps(s: State, t: Ticket, pick: Option<Candidate>, route: RouteId)
    requires Covered(s) && Enabled(s, Arriving(t, pick, route))
    ensures Covered(Arrive(s, t, pick, route).0)
  {
    var q := QueueOf(s, t.name);
    if q == [] && pick.Some? {
      ReserveNarrows(s, route, pick.value);
      NarrowingKeeps(s, Reserve(s, route, pick.value).view);
    } else if |q| < s.models[t.name].queueDepth {
      var z := Arrive(s, t, pick, route).0;
      forall name | name in z.models ensures HeadCovered(z, name) {
        assert HeadCovered(s, name);
      }
    }
  }

  lemma ResumingKeeps(s: State, t: Ticket, pick: Option<Candidate>, route: RouteId)
    requires Covered(s) && Enabled(s, Resuming(t, pick, route))
    ensures Covered(Resume(s, t, pick, route))
  {
    var z := Resume(s, t, pick, route);
    forall name | name in z.models ensures HeadCovered(z, name) {
      assert HeadCovered(s, name);
    }
  }

  lemma AbandoningKeeps(s: State, t: Ticket)
    requires Covered(s) && t in QueueOf(s, t.name)
    ensures Covered(Abandon(s, t))
  {
    DropKeeps(QueueOf(s, t.name), t);
  }

  lemma StepCovers(s: State, e: Step)
    requires Covered(s) && Enabled(s, e)
    ensures Covered(Apply(s, e))
  {
    match e
    case Tick(now) =>
      TickNarrows(s.view, now);
      NarrowingKeeps(s, s.view.(now := now));
    case Arriving(t, pick, route) => ArrivingKeeps(s, t, pick, route);
    case Resuming(t, pick, route) => ResumingKeeps(s, t, pick, route);
    case Abandoning(t) => AbandoningKeeps(s, t);
    case Admitting(route) =>
      AdmitNarrows(s.view, route);
      NarrowingKeeps(s, MarkAdmitted(s.view, route));
    case Releasing(route) =>
    case Polled(installed) =>
    case Waking =>
  }

  lemma StepCounts(s: State, e: Step)
    requires CounterKept(s) && Enabled(s, e)
    ensures CounterKept(Apply(s, e))
  {
  }

  lemma StepKeeps(s: State, e: Step)
    requires Inv(s) && Enabled(s, e)
    ensures Inv(Apply(s, e))
  {
    StepCovers(s, e);
    StepCounts(s, e);
  }

  lemma {:induction false} RunKeeps(s: State, es: seq<Step>)
    requires Inv(s) && Run(s, es)
    ensures Inv(Final(s, es))
    decreases |es|
  {
    if es != [] {
      StepKeeps(s, es[0]);
      RunKeeps(Apply(s, es[0]), es[1..]);
    }
  }

  /** No lost wake-up: whenever every waiter is parked and no callback is due, no
      head of any queue could be placed. */
  lemma NoLostWakeup(models: map<string, Model>, weights: map<NodeId, real>, ttl: real, now: real, es: seq<Step>,
      name: string)
    requires Run(Start(models, weights, ttl, now), es)
    ensures var s := Final(Start(models, weights, ttl, now), es);
      && |QueueOf(s, name)| <= (if name in s.models then s.models[name].queueDepth else 0)
      && (QueueOf(s, name) != [] && QueueOf(s, name)[0] in s.parked && s.wakes == 0 ==>
            QueueOf(s, name)[0].name == name && name in s.models &&
              !Placeable(s.view, DemandOf(s, QueueOf(s, name)[0])))
  {
    StartHolds(models, weights, ttl, now);
    RunKeeps(Start(models, weights, ttl, now), es);
    var s := Final(Start(models, weights, ttl, now), es);
    if QueueOf(s, name) != [] {
      assert HeadCovered(s, name);
    }
  }

  // ----- first come, first served

  ghost predicate Ahead(q: seq<Ticket>, a: Ticket, b: Ticket) {
    exists i, j :: 0 <= i < j < |q| && q[i] == a && q[j] == b
  }

  ghost predicate Distinct(q: seq<Ticket>) { forall i, j :: 0 <= i < j < |q| ==> q[i] != q[j] }

  ghost predicate AllDistinct(s: State) { forall name :: Distinct(QueueOf(s, name)) }

  lemma {:induction false} DropIs(q: seq<Ticket>, t: Ticket, k: nat)
    requires Distinct(q) && k < |q| && q[k] == t
    ensures |Drop(q, t)| == |q| - 1
    ensures forall i :: 0 <= i < k ==> Drop(q, t)[i] == q[i]
    ensures forall i :: k <= i < |q| - 1 ==> Drop(q, t)[i] == q[i + 1]
    decreases k
  {
    if k > 0 {
      assert q[1..][k - 1] == t;
      DropIs(q[1..], t, k - 1);
    }
  }

  lemma DropDistinct(q: seq<Ticket>, t: Ticket)
    requires Distinct(q) && t in q
    ensures Distinct(Drop(q, t)) && t !in Drop(q, t)
  {
    var k :| 0 <= k < |q| && q[k] == t;
    DropIs(q, t, k);
  }

  lemma DropOrders(q: seq<Ticket>, t: Ticket, a: Ticket, b: Ticket)
    requires Distinct(q) && t in q && t != b && Ahead(q, a, b)
    requires t != a
    ensures Ahead(Drop(q, t), a, b)
  {
    var k :| 0 <= k < |q| && q[k] == t;
    var i, j :| 0 <= i < j < |q| && q[i] == a && q[j] == b;
    var x := DroppedIndex(q, t, k, i);
    var y := DroppedIndex(q, t, k, j);
  }

  lemma DroppedIndex(q: seq<Ticket>, t: Ticket, k: nat, i: nat) returns (x: nat)
    requires Distinct(q) && k < |q| && q[k] == t && i < |q| && q[i] != t
    ensures x == (if i < k then i else i - 1) && x < |Drop(q, t)| && Drop(q, t)[x] == q[i]
  {
    DropIs(q, t, k);
    x := if i < k then i else i - 1;
  }

  /** The queue of `name` after a step: as it was, longer by a newcomer, without
      its head, or without one that left. */
  ghost predicate QueueMoves(q: seq<Ticket>, r: seq<Ticket>, e: Step) {
    || r == q
    || (e.Arriving? && e.ticket !in q && r == q + [e.ticket])
    || (e.Resuming? && q != [] && q[0] == e.ticket && r == q[1..])
    || (e.Abandoning? && e.ticket in q && r == Drop(q, e.ticket))
  }

  lemma StepMoves(s: State, e: Step, name: string)
    requires Enabled(s, e)
    ensures QueueMoves(QueueOf(s, name), QueueOf(Apply(s, e), name), e)
  {
  }

  lemma MovesKeepOrder(q: seq<Ticket>, r: seq<Ticket>, e: Step, a: Ticket, b: Ticket)
    requires Distinct(q) && QueueMoves(q, r, e) && e != Abandoning(b)
    ensures Distinct(r)
    ensures Ahead(q, a, b) ==> Ahead(r, a, b) || a !in r
    ensures a !in q && !(e.Arriving? && e.ticket == a) ==> a !in r
  {
    if e.Abandoning? && e.ticket in q {
      DropDistinct(q, e.ticket);
      DropKeeps(q, e.ticket);
      if Ahead(q, a, b) && e.ticket != a {
        DropOrders(q, e.ticket, a, b);
      }
    } else if Ahead(q, a, b) {
      var i, j :| 0 <= i < j < |q| && q[i] == a && q[j] == b;
      if e.Arriving? && r == q + [e.ticket] {
        assert r[i] == a && r[j] == b;
      } else if e.Resuming? && r == q[1..] && i > 0 {
        assert r[i - 1] == a && r[j - 1] == b;
      }
    }
  }

  lemma {:induction false} OrderOverRuns(s: State, es: seq<Step>, name: string, a: Ticket, b: Ticket)
    requires Run(s, es) && AllDistinct(s)
    requires forall e :: e in es ==> e != Abandoning(b) && !(e.Arriving? && e.ticket == a)
    requires Ahead(QueueOf(s, name), a, b) || a !in QueueOf(s, name)
    ensures Ahead(QueueOf(Final(s, es), name), a, b) || a !in QueueOf(Final(s, es), name)
    decreases |es|
  {
    if es != [] {
      var z := Apply(s, es[0]);
      assert es[0] in es;
      forall other ensures Distinct(QueueOf(z, other)) {
        StepMoves(s, es[0], other);
        MovesKeepOrder(QueueOf(s, other), QueueOf(z, other), es[0], a, b);
      }
      StepMoves(s, es[0], name);
      MovesKeepOrder(QueueOf(s, name), QueueOf(z, name), es[0], a, b);
      OrderOverRuns(z, es[1..], name, a, b);
    }
  }

  /** Nobody is overtaken: in every run a waiter that did not give up is served only
      after everyone ahead of it has left the queue. */
  lemma NoOvertaking(s: State, es: seq<Step>, name: string, a: Ticket, b: Ticket)
    requires Run(s, es) && AllDistinct(s) && Ahead(QueueOf(s, name), a, b)
    requires forall e :: e in es ==> e != Abandoning(b) && !(e.Arriving? && e.ticket == a)
    ensures b !in QueueOf(Final(s, es), name) ==> a !in QueueOf(Final(s, es), name)
  {
    OrderOverRuns(s, es, name, a, b);
  }

  // ----- what a request gets

  /** A reservation for what the request asked, on the chosen node's present process. */
  ghost predicate HeldFor(r: Reservation, demand: Demand, c: Candidate) {
    && r.node == c.record.node && r.instance == c.record.report.stamp.instance && r.admittedAt.None?
    && r.alias == c.deployment.alias && Serves(c.deployment, demand.model)
  }

  /** A newcomer is placed at once if and only if nobody waits and some node qualifies;
      otherwise it is refused if and only if the queue is full, and else queued last. */
  lemma ArrivalExactly(s: State, t: Ticket, pick: Option<Candidate>, route: RouteId)
    requires Enabled(s, Arriving(t, pick, route))
    ensures var (z, how) := Arrive(s, t, pick, route);
      var q, depth := QueueOf(s, t.name), s.models[t.name].queueDepth;
      && (how.Placed? <==> q == [] && Placeable(s.view, DemandOf(s, t)))
      && (how.Full? <==> !how.Placed? && |q| >= depth)
      && (how.Placed? ==>
            && z.view.reservations.Keys == s.view.reservations.Keys + {route}
            && HeldFor(z.view.reservations[route], DemandOf(s, t), pick.value) && z.queues == s.queues)
      && (how.Full? ==> z == s)
      && (how.Queued? ==> QueueOf(z, t.name) == q + [t] && z.view == s.view)
  {
    if QueueOf(s, t.name) == [] && pick.Some? {
      ChosenIsReportedEligible(s.view, DemandOf(s, t), pick.value);
      assert Qualifies(s.view, DemandOf(s, t), pick.value.record.node, pick.value);
    }
  }

  /** A woken waiter is placed if and only if it heads its queue and some node qualifies,
      and otherwise waits on. */
  lemma ResumptionExactly(s: State, t: Ticket, pick: Option<Candidate>, route: RouteId)
    requires Enabled(s, Resuming(t, pick, route)) && t.capability in s.models[t.name].capabilities
    ensures var z := Resume(s, t, pick, route);
      var q := QueueOf(s, t.name);
      if q[0] == t && Placeable(s.view, DemandOf(s, t)) then
        && QueueOf(z, t.name) == q[1..] && z.parked == {}
        && route in z.view.reservations && HeldFor(z.view.reservations[route], DemandOf(s, t), pick.value)
      else z == s.(parked := s.parked + {t})
  {
    if QueueOf(s, t.name)[0] == t && pick.Some? {
      ChosenIsReportedEligible(s.view, DemandOf(s, t), pick.value);
      assert Qualifies(s.view, DemandOf(s, t), pick.value.record.node, pick.value);
    }
  }

  /** Marking a request admitted lets every poll that starts later account for it. */
  lemma AdmittedIsLeftToPolls(v: View, route: RouteId, record: Record)
    requires route in v.reservations && v.reservations[route].admittedAt.None? && v.now < record.pollStarted
    ensures route !in Unaccounted(MarkAdmitted(v, route).reservations, record)
    ensures forall k :: k != route ==>
      (k in Unaccounted(MarkAdmitted(v, route).reservations, record) <==> k in Unaccounted(v.reservations, record))
  {
  }

  /** A release takes away that reservation and no other, and wakes everybody. */
  lemma ReleaseExactly(s: State, route: RouteId)
    ensures var z := Release(s, route);
      && route !in z.view.reservations && z.parked == {} && z.queues == s.queues
      && forall k :: k in s.view.reservations && k != route ==>
           k in z.view.reservations && z.view.reservations[k] == s.view.reservations[k]
  {
  }

  // ----- ties go round

  /** The node just chosen becomes the most recently selected of all, so that of two
      nodes that tie the other is chosen next. */
  lemma TiesGoRound(s: State, route: RouteId, c: Candidate, b: Candidate, again: Candidate)
    requires Inv(s) && b.record.node != c.record.node
    requires again.record.node == c.record.node && again.tier == b.tier && again.score == b.score
    ensures Before(Reserve(s, route, c).view, b, again)
  {
  }

  // ----- the placement bound

  function Larger(a: nat, b: nat): nat { if a < b then b else a }

  function Advertised(record: Record): nat { Larger(record.report.body.capacity.available, Room(record.report.body)) }

  lemma ReserveWithin(s: State, demand: Demand, route: RouteId, c: Candidate, n: NodeId, bound: nat)
    requires Filed(s.view) && Chosen(s.view, demand, c) && route !in s.view.reservations
    requires n in s.view.records && Advertised(s.view.records[n]) <= bound
    requires |Unaccounted(s.view.reservations, s.view.records[n])| <= bound
    ensures |Unaccounted(Reserve(s, route, c).view.reservations, s.view.records[n])| <= bound
  {
    var record := s.view.records[n];
    if c.record.node == n {
      assert c.record == record;
      PlacementFits(s.view, demand, route, c);
    } else {
      assert Unaccounted(Reserve(s, route, c).view.reservations, record) == Unaccounted(s.view.reservations, record);
    }
  }

  /** The step leaves node `n`'s snapshot in place. */
  ghost predicate Leaves(e: Step, n: NodeId) { e.Polled? && e.installed.Some? ==> e.installed.value.node != n }

  lemma StepWithin(s: State, e: Step, n: NodeId, bound: nat)
    requires Inv(s) && Enabled(s, e) && Leaves(e, n)
    requires n in s.view.records && Advertised(s.view.records[n]) <= bound
    requires |Unaccounted(s.view.reservations, s.view.records[n])| <= bound
    ensures var w := Apply(s, e).view;
      n in w.records && w.records[n] == s.view.records[n] && |Unaccounted(w.reservations, w.records[n])| <= bound
  {
    var record := s.view.records[n];
    match e
    case Arriving(t, pick, route) =>
      if QueueOf(s, t.name) == [] && pick.Some? {
        ReserveWithin(s, DemandOf(s, t), route, pick.value, n, bound);
      }
    case Resuming(t, pick, route) =>
      if QueueOf(s, t.name)[0] == t && pick.Some? {
        ReserveWithin(s, DemandOf(s, t), route, pick.value, n, bound);
      }
    case Admitting(route) =>
      assert Unaccounted(MarkAdmitted(s.view, route).reservations, record) == Unaccounted(s.view.reservations, record);
    case Releasing(route) =>
      FewerMembers(Unaccounted(s.view.reservations - {route}, record), Unaccounted(s.view.reservations, record));
    case _ =>
  }

  /** Against one unchanged snapshot, no burst of requests outruns what the node advertised. */
  lemma {:induction false} BurstsStayWithin(s: State, es: seq<Step>, n: NodeId, bound: nat)
    requires Inv(s) && Run(s, es) && forall e :: e in es ==> Leaves(e, n)
    requires n in s.view.records
    requires Advertised(s.view.records[n]) <= bound
    requires |Unaccounted(s.view.reservations, s.view.records[n])| <= bound
    ensures |Unaccounted(Final(s, es).view.reservations, s.view.records[n])| <= bound
    decreases |es|
  {
    if es != [] {
      assert es[0] in es;
      StepWithin(s, es[0], n, bound);
      StepKeeps(s, es[0]);
      BurstsStayWithin(Apply(s, es[0]), es[1..], n, bound);
    }
  }

  lemma PlacementBound(s: State, es: seq<Step>, n: NodeId)
    requires Inv(s) && Run(s, es) && forall e :: e in es ==> Leaves(e, n)
    requires n in s.view.records
    ensures var record := s.view.records[n];
      |Unaccounted(Final(s, es).view.reservations, record)|
        <= Larger(Advertised(record), |Unaccounted(s.view.reservations, record)|)
  {
    var record := s.view.records[n];
    BurstsStayWithin(s, es, n, Larger(Advertised(record), |Unaccounted(s.view.reservations, record)|));
  }
}
