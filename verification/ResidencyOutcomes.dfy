/**
 What the coordinator answers, said in the terms of its settings and of its clients:
 exactly when a permit is granted, what the driver does next, and how maintenance
 and failed swaps leave admission.
 */
module ResidencyOutcomes {
  import opened Options
  import opened ResidencyCore
  import opened ResidencyProtocol
  import opened ResidencyInvariant
  import opened ResidencySteps
  import opened ResidencyTheorems

  // ----- the limit

  lemma LimitIsLargestFit(c: Core, n: nat)
    ensures Fits(c, n) <==> n <= Limit(c)
  {
  }

  /** A reconfiguration takes away room that there was. */
  predicate Shrinks(s: State, e: Step) {
    && e.Client? && e.client.Reconfigured? && e.client.configured.Some?
    && Fits(s.core, e.client.configured.value + 1)
  }

  predicate NeverShrinks(s: State, es: seq<Step>)
    requires Run(s, es)
    decreases |es|
  {
    es == [] || (!Shrinks(s, es[0]) && NeverShrinks(Apply(s, es[0]), es[1..]))
  }

  lemma ShrinkingLowers(s: State, e: Step)
    requires Enabled(s, e) && Lowers(s, e)
    ensures Shrinks(s, e)
  {
    LimitIsLargestFit(s.core, e.client.configured.value + 1);
  }

  lemma {:induction false} NeverLowering(s: State, es: seq<Step>)
    requires Run(s, es) && NeverShrinks(s, es)
    ensures NeverLowers(s, es)
    decreases |es|
  {
    if es != [] {
      if Lowers(s, es[0]) { ShrinkingLowers(s, es[0]); }
      NeverLowering(Apply(s, es[0]), es[1..]);
    }
  }

  /** On every hazard-free run that never shrinks the settings, the count is within both
      the derived capacity and the configured ceiling. */
  lemma WithinSettings(configured: Option<nat>, maxQueue: nat, es: seq<Step>)
    requires Positive(configured, maxQueue) && Run(Start(configured, maxQueue), es)
    requires HazardFree(Start(configured, maxQueue), es) && NeverShrinks(Start(configured, maxQueue), es)
    ensures var c := Final(Start(configured, maxQueue), es).core;
      c.active <= c.capacity.derivedLimit && (c.configured.Some? ==> c.active <= c.configured.value)
  {
    var s := Start(configured, maxQueue);
    StartHolds(configured, maxQueue);
    NeverLowering(s, es);
    WithinLimit(s, es);
    LimitIsLargestFit(Final(s, es).core, Final(s, es).core.active);
  }

  // ----- requests

  /** The resident can take one more request at once. */
  predicate Free(c: Core) {
    && c.accepting && c.authoritative && !c.stopping
    && c.mode == Ready && c.queue == [] && Fits(c, c.active + 1)
  }

  /** Exactly when a request is leased at once, queued or refused. */
  lemma RequestExactly(s: State, profile: Profile)
    requires Inv(s)
    ensures var (c, admission) := Acquire(s.core, s.nextId, profile);
      && (admission.Leased? <==>
            Free(s.core) && s.core.resident.Some? && s.core.resident.value.deployment == profile.deployment)
      && (admission.NotAccepting? <==> !s.core.accepting || !s.core.authoritative || s.core.stopping)
      && (admission.QueueFull? <==>
            !admission.NotAccepting? && !admission.Leased? && |s.core.queue| >= s.core.maxQueue)
      && (admission.Leased? ==> admission.epoch == s.core.epoch && c.active == s.core.active + 1 && c.queue == [])
      && (admission.Queued? ==> c.queue == s.core.queue + [Waiter(s.nextId, profile)] && c.active == s.core.active)
  {
    PurgeKeeps(s);
    LimitIsLargestFit(s.core, s.core.active + 1);
  }

  /** Exactly when the current resident is leased to a request that names no model. */
  lemma RequestCurrentExactly(c: Core)
    ensures AcquireCurrent(c).1.Leased? <==> Free(c) && c.resident.Some?
    ensures AcquireCurrent(c).1.NotAccepting? <==> !c.accepting || !c.authoritative || c.stopping
    ensures !AcquireCurrent(c).1.Queued?
  {
    LimitIsLargestFit(c, c.active + 1);
  }

  /** A reconfiguration puts its settings in force and leaves permits and queue alone. */
  lemma ReconfigurationExactly(s: State, configured: Option<nat>, maxQueue: nat)
    ensures var t := ApplyReconfigured(s, configured, maxQueue);
      && (forall n: nat :: Fits(t.core, n) <==>
            n <= s.core.capacity.derivedLimit && (configured.Some? ==> n <= configured.value))
      && t.core.maxQueue == maxQueue && t.core.queue == s.core.queue && t.core.active == s.core.active
      && t.permits == s.permits
  {
  }

  // ----- the driver

  /** The first waiter wants the resident. */
  predicate HeadIsResident(c: Core) {
    c.queue != [] && c.resident.Some? && c.resident.value.deployment == c.queue[0].profile.deployment
  }

  /** What the driver does next, exactly: it leaves when admission is closed or nobody
      waits, serves the head's run as far as it fits, swaps to the head's model once no
      permit is out, and otherwise waits. */
  lemma DecisionExactly(s: State)
    requires Inv(s)
    ensures var (d, verdict, granted) := Decide(s.core);
      && (verdict.Return? <==> !Open(s.core) || s.core.queue == [])
      && (verdict.Continue? <==> Open(s.core) && HeadIsResident(s.core) && Fits(s.core, s.core.active + 1))
      && (verdict.Transition? <==>
            Open(s.core) && s.core.queue != [] && !HeadIsResident(s.core) && s.core.active == 0)
      && (verdict.Transition? ==> verdict.profile == s.core.queue[0].profile)
      && (verdict.Continue? <==> granted != [])
  {
    PurgeKeeps(s);
    LimitIsLargestFit(s.core, s.core.active + 1);
    if s.core.queue != [] { HeadGrants(s.core); }
  }

  /** While it waits or swaps for the head's model, the node shows that model as its target. */
  lemma DriverShows(s: State)
    requires Inv(s)
    ensures var (d, verdict, granted) := Decide(s.core);
      && (verdict.Transition? ==> d.mode == Unloading && d.target == Some(s.core.queue[0].profile.deployment))
      && (verdict.Park? && !HeadIsResident(s.core) ==>
            d.mode == Draining && d.target == Some(s.core.queue[0].profile.deployment))
      && (verdict.Park? && HeadIsResident(s.core) ==> d.mode == Ready && d.target.None?)
    ensures s.pc.OldStopping? ==>
      var t := ApplySwap(s, StopsOld(true));
      t.core.mode == Loading && t.core.target == Some(s.pc.profile.deployment) && t.pc == EngineStarting(s.pc.profile)
  {
    PurgeKeeps(s);
    DecisionExactly(s);
    if s.core.queue != [] { GrantHeadFrame(s.core, s.core.queue[0].profile.deployment); }
  }

  lemma HeadGrants(c: Core)
    requires c.queue != [] && !Gone(c, c.queue[0])
    ensures GrantHead(c, c.queue[0].profile.deployment).1 != [] <==> c.active < Limit(c)
  {
  }

  /** What it grants is the longest run of waiters for the resident that fits. */
  lemma GrantIsMaximal(s: State)
    requires Inv(s)
    ensures var (d, verdict, granted) := Decide(s.core);
      && |granted| <= |s.core.queue| && granted == s.core.queue[..|granted|]
      && (verdict.Continue? ==>
            && d.queue == s.core.queue[|granted|..] && d.active == s.core.active + |granted|
            && Fits(s.core, d.active)
            && (d.queue == [] || d.queue[0].profile.deployment != s.core.queue[0].profile.deployment
                || !Fits(s.core, d.active + 1)))
  {
    PurgeKeeps(s);
    DecisionExactly(s);
    if Decide(s.core).1.Continue? {
      var deployment := s.core.queue[0].profile.deployment;
      var (g, granted) := GrantHead(s.core, deployment);
      GrantHeadShape(s.core, deployment);
      LimitIsLargestFit(s.core, g.active);
      LimitIsLargestFit(s.core, g.active + 1);
    }
  }

  // ----- after a failed swap

  lemma {:induction false} HeadRunIs(q: seq<Waiter>, deployment: DeploymentId)
    ensures forall i :: 0 <= i < HeadRun(q, deployment) ==> q[i].profile.deployment == deployment
    ensures HeadRun(q, deployment) < |q| ==> q[HeadRun(q, deployment)].profile.deployment != deployment
  {
    if q != [] { HeadRunIs(q[1..], deployment); }
  }

  /** From queue `q` those in front are gone and told of the failure, all for the failed
      model; the others are left in order and still wait, the first for another model. */
  ghost predicate TellsHead(q: seq<Waiter>, failed: DeploymentId, left: seq<Waiter>, futures: map<nat, Future>) {
    var n := |q| - |left|;
    && 0 <= n && left == q[n..] && (forall i :: 0 <= i < |q| ==> q[i].id in futures)
    && (forall i :: 0 <= i < n ==> q[i].profile.deployment == failed && futures[q[i].id].Failed?)
    && (forall i :: n <= i < |q| ==> futures[q[i].id].Pending?)
    && (left != [] ==> left[0].profile.deployment != failed)
  }

  lemma FailHeadTells(q: seq<Waiter>, futures: map<nat, Future>, failed: DeploymentId)
    requires forall j, k :: 0 <= j < k < |q| ==> q[j].id < q[k].id
    requires forall i :: 0 <= i < |q| ==> q[i].id in futures && futures[q[i].id] == Pending
    ensures var n := HeadRun(q, failed); TellsHead(q, failed, q[n..], FailFutures(futures, q[..n]))
  {
    var n := HeadRun(q, failed);
    HeadRunIs(q, failed);
    forall i | 0 <= i < |q|
      ensures q[i].id in FailFutures(futures, q[..n])
      ensures FailFutures(futures, q[..n])[q[i].id] == if i < n then Failed else Pending
    {
      FailedOf(q, futures, n, i);
    }
  }

  /** Whoever headed the queue for the model that failed to load is told so, nobody else
      is, and the next in the queue wants another model. */
  lemma FailureTellsTheHead(s: State)
    requires Inv(s) && s.pc.Cleaned?
    ensures TellsHead(s.core.queue, s.pc.failed, ApplyFailure(s).core.queue, ApplyFailure(s).core.futures)
  {
    FailHeadTells(s.core.queue, s.core.futures, s.pc.failed);
  }

  lemma FailedOf(q: seq<Waiter>, futures: map<nat, Future>, n: nat, i: nat)
    requires n <= |q| && i < |q| && q[i].id in futures && futures[q[i].id] == Pending
    requires forall j, k :: 0 <= j < k < |q| ==> q[j].id < q[k].id
    ensures q[i].id in FailFutures(futures, q[..n])
    ensures FailFutures(futures, q[..n])[q[i].id] == if i < n then Failed else Pending
  {
    IdsOfPrefix(q, n, i);
  }

  // ----- admission after maintenance and swaps

  /** A node whose swap failed takes requests again exactly if it was cleaned up, is not
      stopping; one whose swap succeeded is ready exactly if admission is open. */
  lemma SwapOutcomes(s: State)
    requires Inv(s)
    ensures s.pc.Cleaned? ==> (Open(ApplyFailure(s).core) <==> s.pc.clean && !s.core.stopping)
    ensures s.pc.Cleaned? && s.pc.clean ==> ApplyFailure(s).core.mode == Idle && ApplyFailure(s).core.resident.None?
    ensures s.pc.Loaded? ==>
      && ApplyCommit(s).core.resident == Some(s.pc.profile) && ApplyCommit(s).core.capacity == s.pc.capacity
      && ApplyCommit(s).core.epoch == s.core.epoch + 1
      && (ApplyCommit(s).core.mode == Ready <==> Open(s.core))
  {
  }

  /** An unload or eviction that stopped the engine reopens the node empty; a shutdown
      never reopens it; one that could not drain in time puts it back as it was. */
  lemma BarrierOutcomes(s: State)
    requires Inv(s)
    ensures s.barrier.StopDone? ==>
      var c := Reopen(s.core, s.barrier.stop);
      && c.resident.None? && c.epoch == s.core.epoch + 1
      && (Open(c) <==> !s.barrier.stop && !s.core.stopping)
      && (!s.barrier.stop ==> c.mode == Idle)
    ensures s.barrier.DrainWait? ==>
      var c := DrainTimeout(s.core, s.barrier.stop);
      && c.resident == s.core.resident && c.active == s.core.active && c.epoch == s.core.epoch
      && (!s.barrier.stop ==> (Open(c) <==> !s.core.stopping) && c.mode == if c.resident.Some? then Ready else Idle)
      && (s.barrier.stop ==> !Open(c))
  {
  }

  /** A barrier that gives up leaves the node closed and no longer vouches for it. */
  lemma GivingUpCloses(c: Core, stop: bool, code: Diagnostic)
    ensures var d := GiveUp(c, stop, code);
      && !d.accepting && !d.authoritative && d.target.None? && d.diagnostic == Some(code)
      && (d.mode == Degraded || (stop && d.mode == Stopping)) && (stop ==> d.mode == Stopping)
      && d.resident == c.resident && d.active == c.active && d.epoch == c.epoch
  {
  }
}
