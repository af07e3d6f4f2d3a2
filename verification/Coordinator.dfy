/**
 The coordinator as the program keeps it: one object that its critical sections
 update in place, field by field.  The fields are those of the record `Core`.  Each
 section is proved to do to them what its specification in `ResidencyCore` says,
 which is what the protocol interleaves.
 */
module Coordinator {
  import opened Options
  import opened ResidencyCore

  class CudaResidencyCoordinator {
    var fields: Core

    constructor (configured: Option<nat>, maxQueue: nat)
      ensures fields == Initial(configured, maxQueue)
    {
      fields := Initial(configured, maxQueue);
    }

    // ----- helpers that run under the condition

    method SetState(mode: Mode, target: Option<DeploymentId>, diagnostic: Option<Diagnostic>)
      modifies this
      ensures fields == SetMode(old(fields), mode, target, diagnostic)
    {
      fields := fields.(mode := mode, target := target, diagnostic := diagnostic);
    }

    method NotifyAll()
      modifies this
      ensures fields == Notify(old(fields))
    {
      fields := fields.(notified := fields.notified + 1);
    }

    method EnsureDriverLocked()
      modifies this
      ensures fields == EnsureDriver(old(fields))
    {
      if fields.driver.None? {
        fields := fields.(driver := Some(fields.nextDriver), nextDriver := fields.nextDriver + 1);
      }
    }

    method PurgeCancelled()
      modifies this
      ensures fields == Purge(old(fields))
    {
      var queue, kept, i := fields.queue, [], 0;
      while i < |queue|
        modifies {}
        invariant i <= |queue|
        invariant kept + Remaining(fields, queue[i..]) == Remaining(fields, queue)
      {
        assert queue[i..][1..] == queue[i + 1..];
        if !Gone(fields, queue[i]) { kept := kept + [queue[i]]; }
        i := i + 1;
      }
      fields := fields.(queue := kept);
    }

    method GrantOne()
      requires fields.queue != []
      modifies this
      ensures var c := old(fields); fields == Grant(c.(queue := c.queue[1..]), c.queue[0])
    {
      var waiter := fields.queue[0];
      fields := fields.(queue := fields.queue[1..]);
      fields := fields.(active := fields.active + 1);
      fields := fields.(futures := fields.futures[waiter.id := Granted(fields.epoch)]);
    }

    method GrantHeadLocked(deployment: DeploymentId) returns (granted: seq<Waiter>)
      modifies this
      ensures var (c, g) := GrantHead(old(fields), deployment);
        granted == g && fields == if g != [] then Notify(c) else c
    {
      granted := [];
      var limit := Limit(fields);
      while fields.queue != [] && fields.queue[0].profile.deployment == deployment && fields.active < limit
        invariant limit == Limit(fields)
        invariant GrantHead(old(fields), deployment).0 == GrantHead(fields, deployment).0
        invariant GrantHead(old(fields), deployment).1 == granted + GrantHead(fields, deployment).1
        decreases |fields.queue|
      {
        GrantHeadUnfolds(fields, deployment);
        var waiter := fields.queue[0];
        if Gone(fields, waiter) {
          fields := fields.(queue := fields.queue[1..]);
        } else {
          GrantOne();
          granted := granted + [waiter];
        }
      }
      if granted != [] { NotifyAll(); }
    }

    method FailOne()
      requires fields.queue != []
      modifies this
      ensures var c := old(fields); var id := c.queue[0].id;
        fields == c.(queue := c.queue[1..],
                     futures := if id in c.futures && c.futures[id].Pending? then c.futures[id := Failed]
                                else c.futures)
    {
      var waiter := fields.queue[0];
      fields := fields.(queue := fields.queue[1..]);
      if waiter.id in fields.futures && fields.futures[waiter.id].Pending? {
        fields := fields.(futures := fields.futures[waiter.id := Failed]);
      }
    }

    method FailHeadLocked(deployment: DeploymentId)
      modifies this
      ensures fields == FailHead(old(fields), deployment)
    {
      ghost var before, popped := fields, 0;
      FailNone(before.futures);
      while fields.queue != [] && fields.queue[0].profile.deployment == deployment
        invariant popped <= |before.queue| && fields.queue == before.queue[popped..]
        invariant popped + HeadRun(fields.queue, deployment) == HeadRun(before.queue, deployment)
        invariant fields == before.(queue := before.queue[popped..],
          futures := FailFutures(before.futures, before.queue[..popped]))
        decreases |fields.queue|
      {
        FailOneMore(before.futures, before.queue, popped);
        FailOne();
        popped := popped + 1;
      }
    }

    method FailAllLocked()
      modifies this
      ensures fields == FailAll(old(fields))
    {
      ghost var before, popped := fields, 0;
      FailNone(before.futures);
      while fields.queue != []
        invariant popped <= |before.queue| && fields.queue == before.queue[popped..]
        invariant fields == before.(queue := before.queue[popped..],
          futures := FailFutures(before.futures, before.queue[..popped]))
        decreases |fields.queue|
      {
        FailOneMore(before.futures, before.queue, popped);
        FailOne();
        popped := popped + 1;
      }
      assert before.queue[..popped] == before.queue;
    }

    method ReleasePermit(epoch: nat)
      modifies this
      ensures fields == ReleaseLocked(old(fields), epoch)
    {
      if epoch != fields.epoch || fields.active <= 0 { return; }
      fields := fields.(active := fields.active - 1);
    }

    // ----- clients

    method AcquireSection(id: nat, profile: Profile) returns (admission: Admission)
      modifies this
      ensures (fields, admission) == Acquire(old(fields), id, profile)
    {
      if fields.stopping || !fields.accepting || !fields.authoritative { return NotAccepting; }
      PurgeCancelled();
      if fields.queue == [] && ResidentId(fields) == Some(profile.deployment)
         && fields.mode == Ready && fields.active < Limit(fields) {
        fields := fields.(active := fields.active + 1);
        return Leased(fields.epoch);
      }
      if |fields.queue| >= fields.maxQueue { return QueueFull; }
      fields := fields.(queue := fields.queue + [Waiter(id, profile)], futures := fields.futures[id := Pending]);
      EnsureDriverLocked();
      NotifyAll();
      return Queued;
    }

    method AcquireCurrentSection() returns (admission: Admission)
      modifies this
      ensures (fields, admission) == AcquireCurrent(old(fields))
    {
      if fields.stopping || !fields.accepting || !fields.authoritative { return NotAccepting; }
      if fields.resident.None? || fields.queue != [] || fields.mode != Ready || fields.active >= Limit(fields) {
        return QueueFull;
      }
      fields := fields.(active := fields.active + 1);
      return Leased(fields.epoch);
    }

    method CancelWaiterSection(id: nat)
      modifies this
      ensures fields == CancelWaiter(old(fields), id)
    {
      if id in fields.cancelled { return; }
      fields := fields.(cancelled := fields.cancelled + {id});
      if id in fields.futures && fields.futures[id].Granted? {
        ReleasePermit(fields.futures[id].epoch);
      } else if id in fields.futures && fields.futures[id].Pending? {
        fields := fields.(futures := fields.futures[id := Cancelled]);
      }
      PurgeCancelled();
      NotifyAll();
    }

    method ReleaseSection(epoch: nat)
      modifies this
      ensures fields == Release(old(fields), epoch)
    {
      ReleasePermit(epoch);
      if fields.queue != [] && fields.accepting { EnsureDriverLocked(); }
      NotifyAll();
    }

    method ReconfigureSection(configured: Option<nat>, maxQueue: nat)
      modifies this
      ensures fields == Reconfigure(old(fields), configured, maxQueue)
    {
      fields := fields.(configured := configured, maxQueue := maxQueue);
      EnsureDriverLocked();
      NotifyAll();
    }

    // ----- the driver

    method DecideSection() returns (verdict: Verdict, granted: seq<Waiter>)
      modifies this
      ensures (fields, verdict, granted) == Decide(old(fields))
    {
      granted := [];
      PurgeCancelled();
      if !fields.accepting || !fields.authoritative || fields.stopping {
        FailAllLocked();
        return Return, [];
      }
      if fields.queue == [] {
        SetState(if fields.resident.Some? then Ready else Idle, None, None);
        return Return, [];
      }
      var head := fields.queue[0].profile;
      if ResidentId(fields) == Some(head.deployment) {
        granted := GrantHeadLocked(head.deployment);
        if granted != [] { return Continue, granted; }
        SetState(Ready, None, None);
        return Park, [];
      }
      if fields.active > 0 {
        SetState(Draining, Some(head.deployment), None);
        return Park, [];
      }
      SetState(Unloading, Some(head.deployment), None);
      return Transition(head), [];
    }

    method BeginLoadingSection(deployment: DeploymentId)
      modifies this
      ensures fields == BeginLoading(old(fields), deployment)
    {
      SetState(Loading, Some(deployment), None);
      NotifyAll();
    }

    method FailTransitionSection(deployment: DeploymentId, clean: bool)
      modifies this
      ensures fields == FailTransition(old(fields), deployment, clean)
    {
      fields := fields.(resident := None, capacity := NO_RESIDENT);
      fields := fields.(authoritative := clean, accepting := clean && !fields.stopping);
      SetState(if clean then Idle else Degraded, None, if clean then None else Some(TransitionCleanupFailed));
      FailHeadLocked(deployment);
      NotifyAll();
    }

    method CommitTransitionSection(profile: Profile, derived: CapacitySpec)
      modifies this
      ensures fields == CommitTransition(old(fields), profile, derived)
    {
      fields := fields.(resident := Some(profile), capacity := derived, epoch := fields.epoch + 1);
      if fields.accepting && fields.authoritative && !fields.stopping {
        SetState(Ready, None, None);
      } else {
        SetState(if fields.stopping then Stopping else Degraded, None,
                 if fields.diagnostic.Some? then fields.diagnostic else Some(AdmissionBarrierIncomplete));
      }
      NotifyAll();
    }

    method DriverExitSection()
      modifies this
      ensures fields == DriverExit(old(fields))
    {
      fields := fields.(driver := None);
      if fields.queue != [] && fields.accepting && !fields.stopping { EnsureDriverLocked(); }
    }

    // ----- the barrier

    /** Closes admission for an idle eviction, which needs the resident idle by `idleLongEnough`. */
    method EvictSection(idleLongEnough: bool) returns (eligible: bool)
      modifies this
      ensures eligible == (Evictable(old(fields)) && idleLongEnough)
      ensures fields == if eligible then old(fields).(accepting := false) else old(fields)
    {
      eligible := fields.resident.Some? && fields.active == 0 && fields.queue == []
                  && fields.accepting && fields.authoritative && idleLongEnough;
      if eligible { fields := fields.(accepting := false); }
    }

    /** One turn of the drain loop after a wake-up. */
    method DrainSection(stop: bool) returns (drained: bool)
      modifies this
      ensures drained == (old(fields).active == 0)
      ensures fields == if drained then old(fields) else DrainMode(old(fields), stop)
    {
      drained := fields.active == 0;
      if !drained { SetState(if stop then Stopping else Draining, None, None); }
    }

    /** Closes admission and fails every waiter; `drained` says whether the drain loop is over. */
    method CloseSection(stop: bool, closed: bool) returns (drained: bool)
      modifies this
      ensures var c := CloseAdmission(old(fields), stop, closed);
        drained == (c.active == 0) && fields == if drained then c else DrainMode(c, stop)
    {
      if !closed { fields := fields.(accepting := false); }
      if stop { SetState(Stopping, None, None); }
      FailAllLocked();
      NotifyAll();
      drained := DrainSection(stop);
    }

    method DrainTimeoutSection(stop: bool)
      modifies this
      ensures fields == DrainTimeout(old(fields), stop)
    {
      if stop {
        fields := fields.(diagnostic := Some(ShutdownDrainTimeout));
      } else {
        fields := fields.(accepting := true);
        SetState(if fields.resident.Some? then Ready else Idle, None, None);
      }
    }

    method BeginStopSection(stop: bool)
      modifies this
      ensures fields == BeginStop(old(fields), stop)
    {
      SetState(if stop then Stopping else Unloading, None, None);
      NotifyAll();
    }

    method GiveUpSection(stop: bool, code: Diagnostic)
      modifies this
      ensures fields == GiveUp(old(fields), stop, code)
    {
      fields := fields.(authoritative := false, accepting := false);
      SetState(if stop then Stopping else Degraded, None, Some(code));
    }

    method ReopenSection(stop: bool)
      modifies this
      ensures fields == Reopen(old(fields), stop)
    {
      fields := fields.(resident := None, capacity := NO_RESIDENT, epoch := fields.epoch + 1);
      fields := fields.(authoritative := true, accepting := !stop);
      SetState(if stop then Stopping else Idle, None, None);
      NotifyAll();
    }
  }

  lemma GrantHeadUnfolds(c: Core, deployment: DeploymentId)
    requires c.queue != [] && c.queue[0].profile.deployment == deployment && c.active < Limit(c)
    ensures var w := c.queue[0]; var popped := c.(queue := c.queue[1..]);
      var next := if Gone(c, w) then popped else Grant(popped, w);
      && Limit(next) == Limit(c)
      && GrantHead(c, deployment).0 == GrantHead(next, deployment).0
      && GrantHead(c, deployment).1 == (if Gone(c, w) then [] else [w]) + GrantHead(next, deployment).1
  {
  }

  lemma FailNone(futures: map<nat, Future>)
    ensures FailFutures(futures, []) == futures
  {
  }

  lemma FailOneMore(futures: map<nat, Future>, q: seq<Waiter>, n: nat)
    requires n < |q|
    ensures var f := FailFutures(futures, q[..n]); var id := q[n].id;
      FailFutures(futures, q[..n + 1]) == if id in f && f[id].Pending? then f[id := Failed] else f
  {
    assert q[..n + 1] == q[..n] + [q[n]];
    assert Ids(q[..n + 1]) == Ids(q[..n]) + {q[n].id} by {
      assert q[n] in q[..n + 1];
      forall w | w in q[..n] ensures w in q[..n + 1] {}
    }
  }
}
