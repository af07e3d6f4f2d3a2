/** What the invariant buys the coordinator's clients, over whole runs. */
module ResidencyTheorems {
  import opened Options
  import opened ResidencyCore
  import opened ResidencyProtocol
  import opened ResidencyInvariant
  import opened ResidencySteps

  // ----- what a request does, in one of three ways

  ghost predicate LeasedTo(s: State, t: State) {
    && s.core.queue == [] && s.core.active < Limit(s.core) && s.core.resident.Some?
    && t == s.(core := s.core.(active := s.core.active + 1), nextId := s.nextId + 1, lastGrant := s.nextId,
               permits := s.permits[s.nextId := Permit(s.core.resident.value.deployment, s.core.epoch)])
  }

  ghost predicate QueuedTo(s: State, t: State, profile: Profile) {
    && |s.core.queue| < s.core.maxQueue
    && t == s.(core := t.core, pc := t.pc, nextId := s.nextId + 1, waiting := s.waiting + {s.nextId})
    && t.core == s.core.(queue := s.core.queue + [Waiter(s.nextId, profile)], futures := t.core.futures,
                         driver := t.core.driver, nextDriver := t.core.nextDriver, notified := s.core.notified + 1)
  }

  lemma RequestShape(s: State, profile: Profile)
    requires Purge(s.core) == s.core
    ensures var t := ApplyRequest(s, profile);
      t == s.(nextId := s.nextId + 1) || LeasedTo(s, t) || QueuedTo(s, t, profile)
  {
    var (c, admission) := Acquire(s.core, s.nextId, profile);
    if admission.Leased? {
      IssueOne(With(s, c).(nextId := s.nextId + 1), Waiter(s.nextId, profile), admission.epoch);
    }
  }

  lemma RequestCurrentShape(s: State)
    ensures var t := ApplyRequestCurrent(s); t == s.(nextId := s.nextId + 1) || LeasedTo(s, t)
  {
    var (c, admission) := AcquireCurrent(s.core);
    if admission.Leased? {
      IssueOne(With(s, c).(nextId := s.nextId + 1), Waiter(s.nextId, c.resident.value), admission.epoch);
    }
  }

  /** A decision grants a prefix of the queue within the limit, or grants nothing. */
  lemma DecisionShape(c: Core)
    requires Purge(c) == c && forall i :: 0 <= i < |c.queue| ==> !Gone(c, c.queue[i])
    ensures var (d, _, granted) := Decide(c);
      && |granted| <= |c.queue| && granted == c.queue[..|granted|]
      && d.active == c.active + |granted| && |d.queue| <= |c.queue|
      && d.capacity == c.capacity && d.configured == c.configured
      && (granted != [] ==> d.active <= Limit(c))
  {
    if c.queue != [] { GrantHeadShape(c, c.queue[0].profile.deployment); }
  }

  lemma DecisionIssues(s: State)
    requires s.pc.Deciding?
    ensures var (c, _, granted) := Decide(s.core);
      && ApplyDecision(s).core == c && ApplyDecision(s).permits == Issue(s, granted, s.core.epoch).permits
      && ApplyDecision(s).lastGrant == Issue(s, granted, s.core.epoch).lastGrant
  {
    var (c, _, granted) := Decide(s.core);
    IssueFrame(s.(core := c), granted, s.core.epoch);
    IssueCore(s, s.core, c, granted, s.core.epoch);
    assert s.(core := s.core) == s;
  }

  // ----- leases and the engine under them

  lemma InvIsSafe(s: State)
    requires Inv(s)
    ensures !Unsafe(s)
  {
    forall id | id in s.permits ensures s.engine == Some(s.permits[id].deployment) {
      assert s.permits.Keys != {};
      assert |s.permits| == |s.permits.Keys|;
    }
  }

  /** What a client may rely on at one step of a run: the count is the number of
      outstanding permits; all of them are current, on the resident and on its
      running engine; a returned permit is never discarded as stale; and epoch,
      engine and resident change only when no permit is out. */
  ghost predicate Honours(s: State, e: Step)
    requires Enabled(s, e)
  {
    var t := Apply(s, e);
    && |t.permits| == t.core.active
    && (forall id :: id in t.permits ==>
          && t.permits[id].epoch == t.core.epoch
          && ResidentId(t.core) == t.engine == Some(t.permits[id].deployment))
    && (e.Client? && e.client.ReturnPermit? ==> t.core.active == s.core.active - 1)
    && (e.Client? && e.client.Cancel? && e.client.id in s.permits ==> t.core.active == s.core.active - 1)
    && (t.core.epoch != s.core.epoch || t.engine != s.engine || t.core.resident != s.core.resident ==>
      s.permits == map[])
  }

  ghost predicate HonoursAll(s: State, es: seq<Step>)
    requires Run(s, es)
    decreases |es|
  {
    es == [] || (Honours(s, es[0]) && HonoursAll(Apply(s, es[0]), es[1..]))
  }

  lemma EmptyWhenIdle(s: State)
    requires Ledger(s)
    ensures s.core.active == 0 <==> s.permits == map[]
  {
    if s.core.active == 0 {
      assert |s.permits.Keys| == 0;
    }
  }

  lemma CancelCounts(s: State, id: nat)
    requires Inv(s) && id in s.waiting && id in s.permits
    ensures ApplyCancel(s, id).core.active == s.core.active - 1
  {
    CancelKeeps(s, id);
    RemovePermit(s, id);
  }

  lemma SwapLeavesPermits(s: State, e: Step)
    requires Control(s) && Enabled(s, e)
    ensures var t := Apply(s, e);
      t.core.epoch != s.core.epoch || t.engine != s.engine || t.core.resident != s.core.resident ==> s.core.active == 0
  {
    match e
    case Client(c) => ClientLeavesEngine(s, c);
    case Driver(d) => DriverChangesEngineIdle(s, d);
    case Maintenance(b) => BarrierChangesEngineIdle(s, b);
  }

  lemma BarrierChangesEngineIdle(s: State, e: BarrierStep)
    requires Control(s) && BarrierEnabled(s, e)
    ensures var t := ApplyBarrier(s, e);
      t.core.epoch != s.core.epoch || t.engine != s.engine || t.core.resident != s.core.resident ==> s.core.active == 0
  {
  }

  lemma ClientLeavesEngine(s: State, e: ClientStep)
    requires ClientEnabled(s, e)
    ensures var t := ApplyClient(s, e);
      && t.core.epoch == s.core.epoch && t.engine == s.engine && t.core.resident == s.core.resident
      && t.barrier == s.barrier && t.core.stopping == s.core.stopping
  {
    if e.Request? {
      var (c, admission) := Acquire(s.core, s.nextId, e.profile);
      if admission.Leased? {
        IssueFrame(With(s, c).(nextId := s.nextId + 1), [Waiter(s.nextId, e.profile)], admission.epoch);
      }
    }
    if e.RequestCurrent? { RequestCurrentShape(s); }
  }

  lemma {:induction false} GrantHeadFrame(c: Core, deployment: DeploymentId)
    ensures var (d, _) := GrantHead(c, deployment);
      d == c.(queue := d.queue, active := d.active, futures := d.futures)
    decreases |c.queue|
  {
    if c.queue != [] && c.queue[0].profile.deployment == deployment && c.active < Limit(c) {
      var popped := c.(queue := c.queue[1..]);
      GrantHeadFrame(popped, deployment);
      GrantHeadFrame(Grant(popped, c.queue[0]), deployment);
    }
  }

  lemma DriverChangesEngineIdle(s: State, e: DriverStep)
    requires Control(s) && DriverEnabled(s, e)
    ensures var t := ApplyDriver(s, e);
      t.core.epoch != s.core.epoch || t.engine != s.engine || t.core.resident != s.core.resident ==> s.core.active == 0
  {
    if e.Decides? {
      var (c, _, granted) := Decide(s.core);
      IssueFrame(s.(core := c), granted, s.core.epoch);
      var p := Purge(s.core);
      if p.queue != [] { GrantHeadFrame(p, p.queue[0].profile.deployment); }
    }
  }

  /** Lease conservation and one-resident safety at every step of a hazard-free run. */
  lemma {:induction false} RunHonours(s: State, es: seq<Step>)
    requires Inv(s) && Run(s, es) && HazardFree(s, es)
    ensures HonoursAll(s, es)
    decreases |es|
  {
    if es != [] {
      var e := es[0];
      StepKeeps(s, e);
      StepHonours(s, e);
      RunHonours(Apply(s, e), es[1..]);
    }
  }

  lemma StepHonours(s: State, e: Step)
    requires Inv(s) && Enabled(s, e) && Inv(Apply(s, e))
    ensures Honours(s, e)
  {
    InvIsSafe(Apply(s, e));
    SwapLeavesPermits(s, e);
    EmptyWhenIdle(s);
    if e.Client? && e.client.ReturnPermit? { ReturnKeeps(s, e.client.id); }
    if e.Client? && e.client.Cancel? && e.client.id in s.permits { CancelCounts(s, e.client.id); }
  }

  /** In every state a hazard-free run reaches, the fields a client can read agree. */
  lemma ReachableStatesAgree(configured: Option<nat>, maxQueue: nat, es: seq<Step>)
    requires Positive(configured, maxQueue)
    requires Run(Start(configured, maxQueue), es) && HazardFree(Start(configured, maxQueue), es)
    ensures var s := Final(Start(configured, maxQueue), es);
      && (s.core.mode == Ready ==> s.core.resident.Some?)
      && (s.core.mode == Idle ==> s.core.resident.None?)
      && (s.core.target.Some? ==> s.core.mode in {Draining, Unloading, Loading})
      && (s.permits != map[] ==> s.core.resident.Some? && s.core.authoritative)
      && (Transitioning(s.pc) ==> s.permits == map[] && s.core.mode != Ready)
  {
    StartHolds(configured, maxQueue);
    RunKeeps(Start(configured, maxQueue), es);
    EmptyWhenIdle(Final(Start(configured, maxQueue), es));
  }

  // ----- shutdown needs no hypothesis

  lemma StoppingLasts(s: State, e: Step)
    requires Enabled(s, e) && s.core.stopping
    ensures Apply(s, e).core.stopping && !Hazard(s, e)
  {
    match e
    case Client(c) => ClientLeavesEngine(s, c);
    case Driver(d) => DriverLeavesBarrier(s, d);
    case Maintenance(b) => BarrierStaysStopping(s, b);
  }

  lemma BarrierStaysStopping(s: State, e: BarrierStep)
    requires BarrierEnabled(s, e) && s.core.stopping
    ensures ApplyBarrier(s, e).core.stopping
  {
  }

  /** Once a shutdown has begun every continuation is safe, whatever swaps fail in it and
      whatever maintenance came before. */
  lemma {:induction false} ShutdownRunsAreSafe(s: State, es: seq<Step>)
    requires Inv(s) && s.core.stopping && Run(s, es)
    ensures HazardFree(s, es) && HonoursAll(s, es) && !Unsafe(Final(s, es))
    decreases |es|
  {
    if es == [] {
      InvIsSafe(s);
    } else {
      StoppingLasts(s, es[0]);
      StepKeeps(s, es[0]);
      StepHonours(s, es[0]);
      ShutdownRunsAreSafe(Apply(s, es[0]), es[1..]);
    }
  }

  predicate NeverUnloads(es: seq<Step>) {
    forall i :: 0 <= i < |es| ==> es[i] != Maintenance(BeginUnload) && es[i] != Maintenance(BeginEvict)
  }

  predicate NoReopeningBarrier(s: State) {
    s.barrier.NoBarrier? || s.core.stopping
  }

  lemma NoBarrierArises(s: State, e: Step)
    requires Enabled(s, e) && NoReopeningBarrier(s)
    requires e != Maintenance(BeginUnload) && e != Maintenance(BeginEvict)
    ensures NoReopeningBarrier(Apply(s, e)) && !Hazard(s, e)
  {
    if s.core.stopping {
      StoppingLasts(s, e);
    } else {
      match e
      case Client(c) => ClientLeavesEngine(s, c);
      case Driver(d) => DriverLeavesBarrier(s, d);
      case Maintenance(_) =>
    }
  }

  /** And so is, from its start, a run whose only maintenance is shutdown. */
  lemma {:induction false} RunsWithoutUnloadAreSafe(s: State, es: seq<Step>)
    requires Inv(s) && NoReopeningBarrier(s) && Run(s, es) && NeverUnloads(es)
    ensures HazardFree(s, es) && HonoursAll(s, es) && !Unsafe(Final(s, es))
    decreases |es|
  {
    if es == [] {
      InvIsSafe(s);
    } else {
      NoBarrierArises(s, es[0]);
      StepKeeps(s, es[0]);
      StepHonours(s, es[0]);
      RunsWithoutUnloadAreSafe(Apply(s, es[0]), es[1..]);
    }
  }

  lemma DriverLeavesBarrier(s: State, e: DriverStep)
    requires DriverEnabled(s, e)
    ensures ApplyDriver(s, e).barrier == s.barrier && ApplyDriver(s, e).core.stopping == s.core.stopping
  {
    if e.Decides? {
      var (c, _, granted) := Decide(s.core);
      IssueFrame(s.(core := c), granted, s.core.epoch);
      var p := Purge(s.core);
      if p.queue != [] { GrantHeadFrame(p, p.queue[0].profile.deployment); }
    }
  }

  // ----- the queue

  /** No waiter is overtaken: whoever obtains a permit in a step arrived before
      everybody still queued after it, and after everybody granted before it. */
  lemma NoOvertaking(s: State, e: Step, id: nat, w: Waiter)
    requires Inv(s) && Enabled(s, e) && !Hazard(s, e)
    requires id in Apply(s, e).permits && id !in s.permits && w in Apply(s, e).core.queue
    ensures s.lastGrant < id < w.id
  {
    StepKeeps(s, e);
    GrantsFollowOrder(s, e, id);
  }

  lemma GrantsFollowOrder(s: State, e: Step, id: nat)
    requires Inv(s) && Enabled(s, e) && !Hazard(s, e)
    requires id in Apply(s, e).permits && id !in s.permits
    ensures s.lastGrant < id <= Apply(s, e).lastGrant
  {
    PurgeKeeps(s);
    match e
    case Client(c) => ClientGrantsInOrder(s, c, id);
    case Driver(d) => DriverGrantsInOrder(s, d, id);
    case Maintenance(_) =>
  }

  lemma ClientGrantsInOrder(s: State, e: ClientStep, id: nat)
    requires Purge(s.core) == s.core && s.lastGrant < s.nextId && ClientEnabled(s, e)
    ensures id in ApplyClient(s, e).permits && id !in s.permits ==> s.lastGrant < id <= ApplyClient(s, e).lastGrant
  {
    if e.Request? { RequestShape(s, e.profile); }
    if e.RequestCurrent? { RequestCurrentShape(s); }
  }

  lemma DriverGrantsInOrder(s: State, e: DriverStep, id: nat)
    requires Purge(s.core) == s.core && QueueOrdered(s) && DriverEnabled(s, e)
    requires forall i :: 0 <= i < |s.core.queue| ==> !Gone(s.core, s.core.queue[i])
    ensures id in ApplyDriver(s, e).permits && id !in s.permits ==> s.lastGrant < id <= ApplyDriver(s, e).lastGrant
  {
    if e.Decides? {
      DecisionShape(s.core);
      DecisionIssues(s);
      IssuedInOrder(s, Decide(s.core).2, s.core.epoch, id);
    }
  }

  lemma {:induction false} IssuedInOrder(s: State, ws: seq<Waiter>, epoch: nat, id: nat)
    requires forall i :: 0 <= i < |ws| ==> s.lastGrant < ws[i].id
    requires forall i, j :: 0 <= i < j < |ws| ==> ws[i].id < ws[j].id
    ensures s.lastGrant <= Issue(s, ws, epoch).lastGrant
    ensures id in Issue(s, ws, epoch).permits && id !in s.permits ==> s.lastGrant < id <= Issue(s, ws, epoch).lastGrant
    decreases |ws|
  {
    if ws != [] {
      var w := ws[0];
      var t := s.(permits := s.permits[w.id := Permit(w.profile.deployment, epoch)], lastGrant := w.id);
      IssuedInOrder(t, ws[1..], epoch, id);
    }
  }

  // ----- nobody is stranded

  /** Somebody waits and no driver will look at the queue again. */
  predicate Unattended(s: State) {
    s.core.queue != [] && (s.core.driver.None? || s.pc.Returning?)
  }

  /** A shutdown is cancelled before its first critical section, which alone would
      have failed the queue. */
  predicate Deserts(s: State, e: Step) {
    e == Maintenance(Abandons) && s.barrier.Entering? && s.barrier.stop && Unattended(s)
  }

  predicate NeverDeserts(s: State, es: seq<Step>)
    requires Run(s, es)
    decreases |es|
  {
    es == [] || (!Deserts(s, es[0]) && NeverDeserts(Apply(s, es[0]), es[1..]))
  }

  /** The queue of a stopping coordinator is about to be failed. */
  ghost predicate Attended(s: State) {
    s.core.stopping && Unattended(s) ==> s.barrier.Entering? && s.barrier.stop
  }

  /** A stopping coordinator appends nothing and starts no driver that returns. */
  lemma ClientAttends(s: State, e: ClientStep)
    requires Inv(s) && ClientEnabled(s, e) && s.core.stopping
    ensures Unattended(ApplyClient(s, e)) ==> Unattended(s)
  {
    PurgeKeeps(s);
    if e.Cancel? { CancelShrinks(s, e.id); }
  }

  lemma DriverAttends(s: State, e: DriverStep)
    requires Inv(s) && DriverEnabled(s, e) && s.core.stopping
    ensures Unattended(ApplyDriver(s, e)) ==> Unattended(s)
  {
    PurgeKeeps(s);
    if e.Decides? { DecisionIssues(s); }
  }

  lemma BarrierAttends(s: State, e: BarrierStep)
    requires Attended(s) && BarrierEnabled(s, e) && !Deserts(s, Maintenance(e))
    ensures Attended(ApplyBarrier(s, e))
  {
  }

  lemma StepAttends(s: State, e: Step)
    requires Inv(s) && Attended(s) && Enabled(s, e) && !Deserts(s, e)
    ensures Attended(Apply(s, e))
  {
    match e
    case Client(c) =>
      ClientLeavesEngine(s, c);
      if s.core.stopping { ClientAttends(s, c); }
    case Driver(d) =>
      DriverLeavesBarrier(s, d);
      if s.core.stopping { DriverAttends(s, d); }
    case Maintenance(b) => BarrierAttends(s, b);
  }

  lemma {:induction false} RunAttends(s: State, es: seq<Step>)
    requires Inv(s) && Attended(s) && Run(s, es) && HazardFree(s, es) && NeverDeserts(s, es)
    ensures Inv(Final(s, es)) && Attended(Final(s, es))
    decreases |es|
  {
    if es != [] {
      StepKeeps(s, es[0]);
      StepAttends(s, es[0]);
      RunAttends(Apply(s, es[0]), es[1..]);
    }
  }

  /** A waiting caller is never stranded: while its future is pending it is queued, and a
      driver is alive or a shutdown is about to fail it; and a driver that sleeps without
      a pending wake-up is waiting for permits that are out. */
  lemma NobodyStranded(configured: Option<nat>, maxQueue: nat, es: seq<Step>, id: nat)
    requires Positive(configured, maxQueue) && Run(Start(configured, maxQueue), es)
    requires HazardFree(Start(configured, maxQueue), es) && NeverDeserts(Start(configured, maxQueue), es)
    requires var s := Final(Start(configured, maxQueue), es);
      id in s.waiting && id in s.core.futures && s.core.futures[id].Pending?
    ensures var s := Final(Start(configured, maxQueue), es);
      && id in Ids(s.core.queue)
      && ((s.core.driver.Some? && !s.pc.NoTask?) || (s.barrier.Entering? && s.barrier.stop))
      && (s.pc.Parked? && s.pc.since == s.core.notified ==> s.core.active > 0 && s.permits != map[])
  {
    StartHolds(configured, maxQueue);
    RunAttends(Start(configured, maxQueue), es);
    var s := Final(Start(configured, maxQueue), es);
    EmptyWhenIdle(s);
    assert s.core.queue != [] by { var w :| w in s.core.queue && w.id == id; }
  }

  // ----- capacity

  predicate Lowers(s: State, e: Step)
    requires Enabled(s, e)
  {
    e.Client? && e.client.Reconfigured? && Limit(Apply(s, e).core) < Limit(s.core)
  }

  /** No grant passes the limit and no append passes the queue's depth; derived
      capacity changes at zero; above a lowered limit the count can only fall. */
  ghost predicate WithinCapacity(s: State, t: State) {
    && (t.core.active > s.core.active ==> t.core.active <= Limit(t.core))
    && (|t.core.queue| > |s.core.queue| ==> |t.core.queue| <= t.core.maxQueue)
    && (t.core.capacity != s.core.capacity ==> s.core.active == t.core.active == 0)
  }

  lemma CapacityStep(s: State, e: Step)
    requires Inv(s) && Enabled(s, e) && !Hazard(s, e)
    ensures WithinCapacity(s, Apply(s, e))
    ensures s.core.active <= Limit(s.core) && !Lowers(s, e) ==> Apply(s, e).core.active <= Limit(Apply(s, e).core)
    ensures s.core.active > Limit(s.core) ==> Apply(s, e).core.active <= s.core.active
  {
    PurgeKeeps(s);
    match e
    case Client(c) => ClientCapacity(s, c);
    case Driver(d) => DriverCapacity(s, d);
    case Maintenance(b) => BarrierCapacity(s, b);
  }

  /** No client step changes the derived capacity, and only a reconfiguration the ceiling. */
  ghost predicate KeepsLimits(s: State, t: State) {
    WithinCapacity(s, t) && t.core.capacity == s.core.capacity && t.core.configured == s.core.configured
  }

  lemma RequestCapacity(s: State, profile: Profile)
    requires Purge(s.core) == s.core
    ensures KeepsLimits(s, ApplyRequest(s, profile))
  {
    RequestShape(s, profile);
  }

  lemma RequestCurrentCapacity(s: State)
    ensures KeepsLimits(s, ApplyRequestCurrent(s))
  {
    RequestCurrentShape(s);
  }

  lemma CancelCapacity(s: State, id: nat)
    requires Ledger(s) && id in s.waiting
    ensures KeepsLimits(s, ApplyCancel(s, id))
  {
    CancelShrinks(s, id);
  }

  lemma ReturnCapacity(s: State, id: nat)
    requires id in s.permits
    ensures KeepsLimits(s, ApplyReturn(s, id))
  {
  }

  lemma ReconfiguredCapacity(s: State, configured: Option<nat>, maxQueue: nat)
    ensures var t := ApplyReconfigured(s, configured, maxQueue);
      WithinCapacity(s, t) && t.core.capacity == s.core.capacity && t.core.active == s.core.active
  {
  }

  lemma ClientCapacity(s: State, e: ClientStep)
    requires Ledger(s) && Purge(s.core) == s.core && ClientEnabled(s, e)
    ensures var t := ApplyClient(s, e);
      if e.Reconfigured? then WithinCapacity(s, t) && t.core.capacity == s.core.capacity &&
        t.core.active == s.core.active
      else KeepsLimits(s, t)
  {
    match e
    case Request(profile) => RequestCapacity(s, profile);
    case RequestCurrent => RequestCurrentCapacity(s);
    case Cancel(id) => CancelCapacity(s, id);
    case ReturnPermit(id) => ReturnCapacity(s, id);
    case Reconfigured(configured, maxQueue) => ReconfiguredCapacity(s, configured, maxQueue);
    case _ =>
  }

  lemma CancelShrinks(s: State, id: nat)
    requires Ledger(s) && id in s.waiting
    ensures CancelledInto(s, id, ApplyCancel(s, id))
  {
    match s.core.futures[id]
    case Granted(_) => CancelGranted(s, id);
    case Pending => CancelPending(s, id);
    case _ => CancelFailed(s, id);
  }

  lemma DriverCapacity(s: State, e: DriverStep)
    requires Control(s) && Purge(s.core) == s.core && DriverEnabled(s, e)
    requires forall i :: 0 <= i < |s.core.queue| ==> !Gone(s.core, s.core.queue[i])
    ensures WithinCapacity(s, ApplyDriver(s, e)) && ApplyDriver(s, e).core.configured == s.core.configured
  {
    if e.Decides? {
      DecisionShape(s.core);
      DecisionIssues(s);
    }
  }

  lemma CloseCapacity(s: State)
    requires s.barrier.Entering?
    ensures KeepsLimits(s, ApplyClose(s))
  {
  }

  lemma StopCapacity(s: State, e: BarrierStep)
    requires Control(s) && BarrierEnabled(s, e) && (e.Reopens? || e.GivesUp? || e.DrainExpires? || e.LocksEngine?)
    ensures WithinCapacity(s, ApplyBarrier(s, e)) && ApplyBarrier(s, e).core.configured == s.core.configured
  {
  }

  lemma BarrierCapacity(s: State, e: BarrierStep)
    requires Control(s) && BarrierEnabled(s, e)
    ensures WithinCapacity(s, ApplyBarrier(s, e)) && ApplyBarrier(s, e).core.configured == s.core.configured
  {
    if e.Closes? {
      CloseCapacity(s);
    } else if e.Reopens? || e.GivesUp? || e.DrainExpires? || e.LocksEngine? {
      StopCapacity(s, e);
    }
  }

  predicate NeverLowers(s: State, es: seq<Step>)
    requires Run(s, es)
    decreases |es|
  {
    es == [] || (!Lowers(s, es[0]) && NeverLowers(Apply(s, es[0]), es[1..]))
  }

  /** Without a lowering reconfiguration the count never exceeds the limit. */
  lemma {:induction false} WithinLimit(s: State, es: seq<Step>)
    requires Inv(s) && Run(s, es) && HazardFree(s, es) && NeverLowers(s, es) && s.core.active <= Limit(s.core)
    ensures Final(s, es).core.active <= Limit(Final(s, es).core)
    decreases |es|
  {
    if es != [] {
      StepKeeps(s, es[0]);
      CapacityStep(s, es[0]);
      WithinLimit(Apply(s, es[0]), es[1..]);
    }
  }
}
