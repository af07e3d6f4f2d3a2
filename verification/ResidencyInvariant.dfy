/**
 What every hazard-free run of the coordinator keeps: the count of active
 permits, their epoch and engine, the order of the queue, the driver that serves
 it, and the agreement of mode, resident, barrier and driver.
 */
module ResidencyInvariant {
  import opened Options
  import opened ResidencyCore
  import opened ResidencyProtocol

  ghost predicate Limits(c: Core) {
    c.capacity.derivedLimit >= 1 && Positive(c.configured, c.maxQueue)
  }

  /** Every outstanding permit is counted, current and held on the resident. */
  ghost predicate PermitsCounted(s: State) {
    && |s.permits| == s.core.active
    && (forall id :: id in s.permits ==>
          && s.permits[id].epoch == s.core.epoch
          && ResidentId(s.core) == Some(s.permits[id].deployment)
          && id < s.nextId)
  }

  /** Arrival order: ids grow along the queue and every grant so far is older. */
  ghost predicate QueueOrdered(s: State) {
    && s.lastGrant < s.nextId
    && (forall id :: id in s.core.cancelled ==> id < s.nextId)
    && (forall i, j :: 0 <= i < j < |s.core.queue| ==> s.core.queue[i].id < s.core.queue[j].id)
    && (forall i :: 0 <= i < |s.core.queue| ==>
          var id := s.core.queue[i].id;
          && s.lastGrant < id < s.nextId
          && id in s.waiting
          && id in s.core.futures && s.core.futures[id] == Pending)
  }

  /** A call that has not returned is queued, holds a permit or has failed. */
  ghost predicate WaitersAccounted(s: State) {
    forall id :: id in s.waiting ==>
      && id < s.nextId
      && id !in s.core.cancelled
      && id in s.core.futures
      && (s.core.futures[id].Pending? ==> id in Ids(s.core.queue))
      && (s.core.futures[id].Granted? <==> id in s.permits)
      && (s.core.futures[id].Granted? ==> s.core.futures[id].epoch == s.permits[id].epoch)
      && !s.core.futures[id].Cancelled?
  }

  predicate Transitioning(pc: DriverPc) {
    !(pc.NoTask? || pc.Deciding? || pc.Parked? || pc.Returning?)
  }

  /** Admission is closed for a barrier that has passed its closing section. */
  predicate Shut(b: Barrier) {
    !b.NoBarrier? && (b.Entering? ==> b.closed)
  }

  predicate Drained(b: Barrier) {
    b.DriverWait? || b.LockWait? || b.StopCall? || b.StopDone?
  }

  /** The head cannot be served yet. */
  predicate Blocked(c: Core) {
    && c.queue != []
    && if ResidentId(c) == Some(c.queue[0].profile.deployment) then c.active >= Limit(c) else c.active > 0
  }

  ghost predicate DriverConsistent(s: State) {
    && (s.pc.NoTask? <==> s.core.driver.None?)
    && (s.core.driver.Some? ==> s.core.driver.value < s.core.nextDriver)
    && (Transitioning(s.pc) ==> s.core.active == 0 && s.core.mode != Ready && s.core.mode != Idle)
    && (s.pc.Loaded? ==> s.engine == Some(s.pc.profile.deployment) && s.pc.capacity.derivedLimit >= 1)
    // A waiting caller always has a driver, and a parked driver a reason.
    && (s.core.queue != [] ==> s.core.driver.Some? || s.core.stopping)
    && (s.core.queue != [] && !s.core.accepting ==> s.pc.Deciding? || s.core.stopping)
    && (s.pc.Parked? ==> s.pc.since <= s.core.notified)
    && (s.pc.Parked? && s.pc.since == s.core.notified ==> Blocked(s.core))
  }

  ghost predicate BarrierConsistent(s: State) {
    && (!s.barrier.NoBarrier? && s.barrier.stop ==> s.core.stopping)
    && (s.barrier.Entering? && s.barrier.closed ==> !s.barrier.stop && s.core.active == 0)
    && (Shut(s.barrier) ==> !s.core.accepting && s.core.queue == [])
    && (Drained(s.barrier) ==> s.core.active == 0)
    && (s.barrier.DrainWait? ==> !Transitioning(s.pc) && s.core.authoritative && s.barrier.since <= s.core.notified)
    && (s.barrier.DrainWait? && s.barrier.since == s.core.notified ==> s.core.active > 0)
    && (s.barrier.DriverWait? && Transitioning(s.pc) ==> s.core.driver == Some(s.barrier.task))
    && (s.barrier.LockWait? || s.barrier.StopCall? || s.barrier.StopDone? ==> !Transitioning(s.pc))
  }

  /** Nobody is stopping or swapping a resident the coordinator vouches for and
      serves, or may come to serve again. */
  predicate EngineUndisturbed(s: State) {
    && s.core.authoritative && s.core.resident.Some? && !Transitioning(s.pc)
    && !s.barrier.StopCall? && !s.barrier.StopDone?
    && (s.core.accepting || s.core.active > 0 || s.barrier.DrainWait?)
  }

  ghost predicate ModeConsistent(s: State) {
    && (s.core.mode == Ready ==> s.core.resident.Some?)
    && (s.core.mode == Idle ==> s.core.resident.None?)
    && (s.core.target.Some? ==> s.core.mode in {Draining, Unloading, Loading})
    && (s.core.mode == Degraded ==> !s.core.accepting)
    && (s.core.mode == Stopping ==> s.core.stopping)
    && (s.core.accepting ==> s.core.authoritative)
    && (s.core.active > 0 ==> s.core.resident.Some? && s.core.authoritative)
    && (EngineUndisturbed(s) ==> s.engine == ResidentId(s.core))
  }

  /** Who holds or awaits a permit. */
  ghost predicate Ledger(s: State) {
    PermitsCounted(s) && QueueOrdered(s) && WaitersAccounted(s)
  }

  /** How mode, resident, engine, driver and barrier agree. */
  ghost predicate Control(s: State) {
    Limits(s.core) && DriverConsistent(s) && BarrierConsistent(s) && ModeConsistent(s)
  }

  ghost predicate Inv(s: State) { Ledger(s) && Control(s) }

  /** Permits, queue and waiting calls are the same in both states. */
  predicate SameLedger(s: State, t: State) {
    && t.core.queue == s.core.queue && t.core.futures == s.core.futures && t.core.cancelled == s.core.cancelled
    && t.permits == s.permits && t.waiting == s.waiting && t.nextId == s.nextId && t.lastGrant == s.lastGrant
    && t.core.active == s.core.active
  }

  lemma LedgerFrame(s: State, t: State)
    requires Ledger(s) && SameLedger(s, t)
    requires s.core.active == 0 || (t.core.epoch == s.core.epoch && ResidentId(t.core) == ResidentId(s.core))
    ensures Ledger(t)
  {
    assert s.core.active == 0 ==> s.permits == map[];
  }

  // ----- purging finds nothing: a cancelled waiter leaves the queue at once

  lemma {:induction false} RemainingAll(c: Core, q: seq<Waiter>)
    requires forall i :: 0 <= i < |q| ==> !Gone(c, q[i])
    ensures Remaining(c, q) == q
  {
    if q != [] { RemainingAll(c, q[1..]); }
  }

  lemma PurgeKeeps(s: State)
    requires QueueOrdered(s) && WaitersAccounted(s)
    ensures Purge(s.core) == s.core
  {
    RemainingAll(s.core, s.core.queue);
  }

  // ----- granting

  lemma GrantOneAccounted(s: State, w: Waiter, t: State)
    requires WaitersAccounted(s) && QueueOrdered(s) && s.core.queue != [] && w == s.core.queue[0]
    requires t.core.queue == s.core.queue[1..] && t.core.futures == s.core.futures[w.id := Granted(s.core.epoch)]
    requires t.permits == s.permits[w.id := Permit(w.profile.deployment, s.core.epoch)]
    requires t.core.cancelled == s.core.cancelled && t.waiting == s.waiting && t.nextId == s.nextId
    ensures WaitersAccounted(t)
  {
    forall id | id in t.waiting && t.core.futures[id].Pending?
      ensures id in Ids(t.core.queue)
    {
      var v :| v in s.core.queue && v.id == id;
      assert v in s.core.queue[1..];
    }
  }

  lemma GrantOne(s: State, w: Waiter, t: State)
    requires Ledger(s) && s.core.queue != [] && w == s.core.queue[0]
    requires ResidentId(s.core) == Some(w.profile.deployment)
    requires t == s.(core := Grant(s.core.(queue := s.core.queue[1..]), w), lastGrant := w.id,
                     permits := s.permits[w.id := Permit(w.profile.deployment, s.core.epoch)])
    ensures Ledger(t)
  {
    assert w.id !in s.permits;
    OneMorePermit(s.permits, w.id, Permit(w.profile.deployment, s.core.epoch));
    GrantOneAccounted(s, w, t);
    GrantOneOrdered(s, w, t);
  }

  lemma OneMorePermit(permits: map<nat, Permit>, id: nat, p: Permit)
    requires id !in permits
    ensures |permits[id := p]| == |permits| + 1
  {
    assert permits[id := p].Keys == permits.Keys + {id};
    assert |permits[id := p]| == |permits[id := p].Keys|;
  }

  lemma GrantOneOrdered(s: State, w: Waiter, t: State)
    requires QueueOrdered(s) && s.core.queue != [] && w == s.core.queue[0]
    requires t.core.queue == s.core.queue[1..] && t.core.futures == s.core.futures[w.id := Granted(s.core.epoch)]
    requires t.core.cancelled == s.core.cancelled && t.waiting == s.waiting && t.nextId == s.nextId &&
      t.lastGrant == w.id
    ensures QueueOrdered(t)
  {
  }

  /** What is granted is a prefix of the queue, and granting stops at the limit, at
      another deployment or at the end. */
  ghost predicate GrantsPrefix(c: Core, deployment: DeploymentId, d: Core, granted: seq<Waiter>) {
    && |granted| <= |c.queue| && granted == c.queue[..|granted|]
    && d == c.(queue := c.queue[|granted|..], active := c.active + |granted|, futures := d.futures)
    && (granted != [] ==> d.active <= Limit(c))
    && (d.queue != [] && d.queue[0].profile.deployment == deployment ==> d.active >= Limit(c))
  }

  lemma PrefixGrows(q: seq<Waiter>, rest: seq<Waiter>)
    requires q != [] && |rest| <= |q| - 1 && rest == q[1..][..|rest|]
    ensures [q[0]] + rest == q[..|rest| + 1] && q[1..][|rest|..] == q[|rest| + 1..]
  {
  }

  lemma GrantsOneMore(c: Core, deployment: DeploymentId, d: Core, rest: seq<Waiter>)
    requires c.queue != [] && c.active < Limit(c)
    requires GrantsPrefix(Grant(c.(queue := c.queue[1..]), c.queue[0]), deployment, d, rest)
    ensures GrantsPrefix(c, deployment, d, [c.queue[0]] + rest)
  {
    PrefixGrows(c.queue, rest);
  }

  lemma {:induction false} GrantHeadShape(c: Core, deployment: DeploymentId)
    requires forall i :: 0 <= i < |c.queue| ==> !Gone(c, c.queue[i])
    ensures GrantsPrefix(c, deployment, GrantHead(c, deployment).0, GrantHead(c, deployment).1)
    decreases |c.queue|
  {
    if c.queue != [] && c.queue[0].profile.deployment == deployment && c.active < Limit(c) {
      var w := c.queue[0];
      assert !Gone(c, w);
      var next := Grant(c.(queue := c.queue[1..]), w);
      NextNotGone(c, next);
      GrantHeadShape(next, deployment);
      GrantsOneMore(c, deployment, GrantHead(next, deployment).0, GrantHead(next, deployment).1);
    }
  }

  lemma NextNotGone(c: Core, next: Core)
    requires c.queue != [] && next == Grant(c.(queue := c.queue[1..]), c.queue[0])
    requires forall i :: 0 <= i < |c.queue| ==> !Gone(c, c.queue[i])
    ensures forall i :: 0 <= i < |next.queue| ==> !Gone(next, next.queue[i])
  {
  }

  /** Granting the head keeps the permits counted, current and in order. */
  lemma {:induction false} GrantHeadKeeps(s: State, deployment: DeploymentId)
    requires Ledger(s) && ResidentId(s.core) == Some(deployment)
    ensures var (d, granted) := GrantHead(s.core, deployment);
      Ledger(Issue(s.(core := d), granted, s.core.epoch))
    decreases |s.core.queue|
  {
    var c := s.core;
    if c.queue != [] && c.queue[0].profile.deployment == deployment && c.active < Limit(c) {
      var w := c.queue[0];
      assert !Gone(c, w);
      var next := Grant(c.(queue := c.queue[1..]), w);
      var t := s.(core := next, lastGrant := w.id, permits := s.permits[w.id := Permit(w.profile.deployment, c.epoch)]);
      IssueOne(s.(core := next), w, c.epoch);
      GrantOne(s, w, t);
      GrantHeadKeeps(t, deployment);
      IssueSplit(s, w, GrantHead(next, deployment).1, GrantHead(next, deployment).0, next, c.epoch);
    } else {
      assert s.(core := c) == s;
    }
  }

  lemma IssueOne(s: State, w: Waiter, epoch: nat)
    ensures Issue(s, [w], epoch)
         == s.(permits := s.permits[w.id := Permit(w.profile.deployment, epoch)], lastGrant := w.id)
  {
    assert [w][1..] == [];
  }

  lemma IssueSplit(s: State, w: Waiter, rest: seq<Waiter>, d: Core, next: Core, epoch: nat)
    ensures Issue(s.(core := d), [w] + rest, epoch)
         == Issue(Issue(s.(core := next), [w], epoch).(core := d), rest, epoch)
  {
    assert ([w] + rest)[1..] == rest;
  }

  lemma {:induction false} IssueFrame(s: State, ws: seq<Waiter>, epoch: nat)
    ensures var t := Issue(s, ws, epoch);
      t.core == s.core && t.pc == s.pc && t.barrier == s.barrier && t.engine == s.engine
      && t.waiting == s.waiting && t.nextId == s.nextId
    decreases |ws|
  {
    if ws != [] {
      var w := ws[0];
      IssueFrame(s.(permits := s.permits[w.id := Permit(w.profile.deployment, epoch)], lastGrant := w.id), ws[1..],
        epoch);
    }
  }
}
