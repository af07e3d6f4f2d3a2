/** The scheduler's critical sections, as methods on its fields. */
module SchedulerSections {
  import opened Options
  import opened FleetRegistry
  import opened FleetScheduler
  import opened FleetQueue

  /** What the registry and the clock show during one critical section;
      `order` is the registry's iteration order. */
  datatype Surroundings = Surroundings(records: map<NodeId, Record>, order: seq<NodeId>, now: real, ttl: real,
    wakes: nat)

  ghost predicate Sound(x: Surroundings) {
    (forall n :: n in x.records ==> x.records[n].node == n) && forall n :: n in x.records <==> n in x.order
  }

  class Scheduler {
    const models: map<string, Model>
    const weights: map<NodeId, real>
    var queues: map<string, seq<Ticket>>
    var reservations: map<RouteId, Reservation>
    var selectionCounter: nat
    var lastSelected: map<NodeId, nat>
    /** The waiters on the condition. */
    var waiting: set<Ticket>

    constructor (models: map<string, Model>, weights: map<NodeId, real>)
      ensures forall now, ttl ::
        Within(Surroundings(map[], [], now, ttl, 0)) == Start(models, weights, ttl, now)
    {
      this.models, this.weights := models, weights;
      queues, reservations, lastSelected := map[], map[], map[];
      selectionCounter := 0;
      waiting := {};
    }

    ghost function Within(x: Surroundings): State
      reads this
    {
      State(View(x.records, x.now, x.ttl, reservations, weights, lastSelected),
            models, queues, selectionCounter, waiting, x.wakes)
    }

    method SelectLocked(x: Surroundings, demand: Demand) returns (pick: Option<Candidate>)
      requires Sound(x)
      ensures Picks(Within(x).view, demand, pick)
    {
      pick := Select(View(x.records, x.now, x.ttl, reservations, weights, lastSelected), x.order, demand);
    }

    method ReserveLocked(ghost x: Surroundings, route: RouteId, c: Candidate)
      modifies this
      ensures Within(x) == Reserve(old(Within(x)), route, c)
    {
      reservations := reservations[route := Reservation(c.record.node, c.record.report.stamp.instance,
        c.deployment.alias, None)];
      selectionCounter := selectionCounter + 1;
      lastSelected := lastSelected[c.record.node := selectionCounter];
    }

    /** From the call up to the first wait. */
    method AcquireSection(x: Surroundings, t: Ticket, route: RouteId) returns (pick: Option<Candidate>, how: Arrival)
      requires Sound(x) && t.name in models
      modifies this
      ensures old(QueueOf(Within(x), t.name)) == [] ==> Picks(old(Within(x)).view, DemandOf(old(Within(x)), t), pick)
      ensures (Within(x), how) == Arrive(old(Within(x)), t, pick, route)
    {
      pick := None;
      var q := if t.name in queues then queues[t.name] else [];
      if q == [] {
        pick := SelectLocked(x, Demand(models[t.name], t.capability, t.excluded));
        if pick.Some? {
          ReserveLocked(x, route, pick.value);
          return pick, Placed;
        }
      }
      if |q| >= models[t.name].queueDepth {
        return pick, Full;
      }
      queues := queues[t.name := q + [t]];
      waiting := waiting + {t};
      how := Queued;
    }

    /** One turn of the waiting loop, after a wake-up. */
    method ResumeSection(x: Surroundings, t: Ticket, route: RouteId) returns (pick: Option<Candidate>)
      requires Sound(x) && t.name in models && t in QueueOf(Within(x), t.name)
      modifies this
      ensures old(QueueOf(Within(x), t.name))[0] == t ==> Picks(old(Within(x)).view, DemandOf(old(Within(x)), t), pick)
      ensures Within(x) == Resume(old(Within(x)), t, pick, route)
    {
      pick := None;
      var q := queues[t.name];
      if q[0] == t {
        pick := SelectLocked(x, Demand(models[t.name], t.capability, t.excluded));
        if pick.Some? {
          queues := queues[t.name := q[1..]];
          ReserveLocked(x, route, pick.value);
          waiting := {};
          return;
        }
      }
      waiting := waiting + {t};
    }

    method AbandonSection(ghost x: Surroundings, t: Ticket)
      requires t in QueueOf(Within(x), t.name)
      modifies this
      ensures Within(x) == Abandon(old(Within(x)), t)
    {
      queues := queues[t.name := Drop(queues[t.name], t)];
      waiting := {};
    }

    method ReleaseSection(ghost x: Surroundings, route: RouteId)
      modifies this
      ensures Within(x) == Release(old(Within(x)), route)
    {
      reservations := reservations - {route};
      waiting := {};
    }

    method WakeSection(ghost x: Surroundings)
      modifies this
      ensures Within(x) == NotifyAll(old(Within(x)))
    {
      waiting := {};
    }
  }
}
