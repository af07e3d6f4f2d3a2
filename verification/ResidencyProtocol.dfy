/**
 The coordinator as a concurrent protocol: clients, one driver task and one
 maintenance barrier interleave their critical sections freely.  Engine calls,
 timeouts and cancellations resolve either way.
 */
module ResidencyProtocol {
  import opened Options
  import opened ResidencyCore

  /** A permit that was granted and not yet returned: a live lease, or a future
      that was resolved and not yet claimed. */
  datatype Permit = Permit(deployment: DeploymentId, epoch: nat)

  /** Where the driver task stands.  It holds the operation lock in
      `OldStopping`, `EngineStarting` and `CleanupStopping`. */
  datatype DriverPc =
    | NoTask
    | Deciding
    | Parked(since: nat)
    | LockWanted(profile: Profile)
    | OldStopping(profile: Profile)
    | EngineStarting(profile: Profile)
    | Loaded(profile: Profile, capacity: CapacitySpec)
    | Broken(failed: DeploymentId)
    | CleanupStopping(failed: DeploymentId)
    | Cleaned(failed: DeploymentId, clean: bool)
    | Returning

  /** Where the holder of the maintenance lock stands; `stop` is shutdown,
      `closed` is an idle eviction, which closes admission before it enters.
      It holds the operation lock in `StopCall`. */
  datatype Barrier =
    | NoBarrier
    | Entering(stop: bool, closed: bool)
    | DrainWait(stop: bool, since: nat)
    | DriverWait(stop: bool, task: nat)
    | LockWait(stop: bool)
    | StopCall(stop: bool)
    | StopDone(stop: bool)

  /** `engine` is the deployment whose process is known to run: it is dropped as
      soon as a stop is called and set once a start returned.  `waiting` holds the
      queued calls of `acquire` that have not returned. */
  datatype State = State(
    core: Core,
    pc: DriverPc,
    barrier: Barrier,
    engine: Option<DeploymentId>,
    permits: map<nat, Permit>,
    waiting: set<nat>,
    nextId: nat,
    lastGrant: int)

  datatype ClientStep =
    | Request(profile: Profile)
    | RequestCurrent
    | Claim(id: nat)
    | ObserveFailure(id: nat)
    | Cancel(id: nat)
    | ReturnPermit(id: nat)
    | Reconfigured(configured: Option<nat>, maxQueue: nat)
    | TakeStatus

  datatype DriverStep =
    | Decides
    | Wakes
    | Locks
    | StopsOld(ok: bool)
    | StartsNew(outcome: Option<CapacitySpec>)
    | LocksForCleanup
    | CleansUp(clean: bool)
    | Fails
    | Commits
    | Exits

  datatype BarrierStep =
    | BeginUnload
    | BeginEvict
    | BeginShutdown
    | Closes
    | SeesNotification
    | DrainExpires
    | SeesDriverGone
    | LocksEngine
    | StopsEngine
    | Reopens
    | GivesUp(code: Diagnostic)
    | Abandons

  datatype Step = Client(client: ClientStep) | Driver(driver: DriverStep) | Maintenance(barrier: BarrierStep)

  function Start(configured: Option<nat>, maxQueue: nat): State {
    State(Initial(configured, maxQueue), NoTask, NoBarrier, None, map[], {}, 0, -1)
  }

  predicate Positive(configured: Option<nat>, maxQueue: nat) {
    (configured.Some? ==> configured.value >= 1) && maxQueue >= 1
  }

  predicate DriverHoldsLock(pc: DriverPc) {
    pc.OldStopping? || pc.EngineStarting? || pc.CleanupStopping?
  }

  predicate FutureIs(s: State, id: nat, granted: bool) {
    && id in s.waiting
    && id in s.core.futures
    && if granted then s.core.futures[id].Granted? else s.core.futures[id].Failed?
  }

  predicate ClientEnabled(s: State, e: ClientStep) {
    match e
    case Request(_) => true
    case RequestCurrent => true
    case Claim(id) => FutureIs(s, id, true)
    case ObserveFailure(id) => FutureIs(s, id, false)
    case Cancel(id) => id in s.waiting
    case ReturnPermit(id) => id in s.permits && id !in s.waiting
    case Reconfigured(configured, maxQueue) => Positive(configured, maxQueue)
    case TakeStatus => true
  }

  predicate DriverEnabled(s: State, e: DriverStep) {
    match e
    case Decides => s.pc.Deciding?
    case Wakes => s.pc.Parked? && s.pc.since < s.core.notified
    case Locks => s.pc.LockWanted? && !s.barrier.StopCall?
    case StopsOld(_) => s.pc.OldStopping?
    case StartsNew(outcome) => s.pc.EngineStarting? && (outcome.Some? ==> outcome.value.derivedLimit >= 1)
    case LocksForCleanup => s.pc.Broken? && !s.barrier.StopCall?
    case CleansUp(_) => s.pc.CleanupStopping?
    case Fails => s.pc.Cleaned?
    case Commits => s.pc.Loaded?
    case Exits => s.pc.Returning?
  }

  predicate BarrierEnabled(s: State, e: BarrierStep) {
    match e
    case BeginUnload => s.barrier.NoBarrier?
    case BeginEvict => s.barrier.NoBarrier? && Evictable(s.core)
    case BeginShutdown => s.barrier.NoBarrier?
    case Closes => s.barrier.Entering?
    case SeesNotification => s.barrier.DrainWait? && s.barrier.since < s.core.notified
    case DrainExpires => s.barrier.DrainWait?
    case SeesDriverGone => s.barrier.DriverWait? && s.core.driver != Some(s.barrier.task)
    case LocksEngine => s.barrier.LockWait? && !DriverHoldsLock(s.pc)
    case StopsEngine => s.barrier.StopCall?
    case Reopens => s.barrier.StopDone?
    case GivesUp(_) => s.barrier.DriverWait? || s.barrier.LockWait? || s.barrier.StopCall?
    case Abandons => !s.barrier.NoBarrier?
  }

  predicate Enabled(s: State, e: Step) {
    match e
    case Client(c) => ClientEnabled(s, c)
    case Driver(d) => DriverEnabled(s, d)
    case Maintenance(b) => BarrierEnabled(s, b)
  }

  /** Installs a core; a driver task created by it begins by deciding. */
  function With(s: State, c: Core): State {
    s.(core := c, pc := if s.core.driver.None? && c.driver.Some? then Deciding else s.pc)
  }

  function Issue(s: State, ws: seq<Waiter>, epoch: nat): State
    decreases |ws|
  {
    if ws == [] then s
    else
      var w := ws[0];
      Issue(s.(permits := s.permits[w.id := Permit(w.profile.deployment, epoch)], lastGrant := w.id), ws[1..], epoch)
  }

  function ApplyRequest(s: State, profile: Profile): State {
    var (c, admission) := Acquire(s.core, s.nextId, profile);
    var t := With(s, c).(nextId := s.nextId + 1);
    match admission
    case Leased(epoch) => Issue(t, [Waiter(s.nextId, profile)], epoch)
    case Queued => t.(waiting := t.waiting + {s.nextId})
    case _ => t
  }

  function ApplyRequestCurrent(s: State): State {
    var (c, admission) := AcquireCurrent(s.core);
    var t := With(s, c).(nextId := s.nextId + 1);
    if admission.Leased? && c.resident.Some? then
      Issue(t, [Waiter(s.nextId, c.resident.value)], admission.epoch)
    else t
  }

  function ApplyCancel(s: State, id: nat): State {
    With(s, CancelWaiter(s.core, id)).(waiting := s.waiting - {id}, permits := s.permits - {id})
  }

  function ApplyReturn(s: State, id: nat): State
    requires id in s.permits
  {
    With(s, Release(s.core, s.permits[id].epoch)).(permits := s.permits - {id})
  }

  function ApplyReconfigured(s: State, configured: Option<nat>, maxQueue: nat): State {
    With(s, Reconfigure(s.core, configured, maxQueue))
  }

  function ApplyClient(s: State, e: ClientStep): State
    requires ClientEnabled(s, e)
  {
    match e
    case Request(profile) => ApplyRequest(s, profile)
    case RequestCurrent => ApplyRequestCurrent(s)
    case Claim(id) => s.(waiting := s.waiting - {id})
    case ObserveFailure(id) => s.(waiting := s.waiting - {id})
    case Cancel(id) => ApplyCancel(s, id)
    case ReturnPermit(id) => ApplyReturn(s, id)
    case Reconfigured(configured, maxQueue) => ApplyReconfigured(s, configured, maxQueue)
    case TakeStatus => s.(core := Purge(s.core))
  }

  function ApplyDecision(s: State): State
    requires s.pc.Deciding?
  {
    var (c, verdict, granted) := Decide(s.core);
    var t := Issue(s.(core := c), granted, s.core.epoch);
    t.(pc := match verdict
             case Return => Returning
             case Continue => Deciding
             case Park => Parked(c.notified)
             case Transition(profile) => LockWanted(profile))
  }

  function ApplyFailure(s: State): State
    requires s.pc.Cleaned?
  {
    s.(core := FailTransition(s.core, s.pc.failed, s.pc.clean), pc := Deciding)
  }

  function ApplyCommit(s: State): State
    requires s.pc.Loaded?
  {
    s.(core := CommitTransition(s.core, s.pc.profile, s.pc.capacity), pc := Deciding)
  }

  function ApplyExit(s: State): State {
    var c := DriverExit(s.core);
    s.(core := c, pc := if c.driver.Some? then Deciding else NoTask)
  }

  /** The steps of one swap between the driver's decision and its outcome. */
  function ApplySwap(s: State, e: DriverStep): State
    requires DriverEnabled(s, e)
  {
    match e
    case Locks => s.(pc := OldStopping(s.pc.profile), engine := None)
    case StopsOld(ok) =>
      if ok then s.(core := BeginLoading(s.core, s.pc.profile.deployment), pc := EngineStarting(s.pc.profile))
      else s.(pc := Broken(s.pc.profile.deployment))
    case StartsNew(outcome) =>
      if outcome.Some? then
        s.(pc := Loaded(s.pc.profile, outcome.value), engine := Some(s.pc.profile.deployment))
      else s.(pc := Broken(s.pc.profile.deployment))
    case LocksForCleanup => s.(pc := CleanupStopping(s.pc.failed), engine := None)
    case CleansUp(clean) => s.(pc := Cleaned(s.pc.failed, clean))
    case _ => s
  }

  function ApplyDriver(s: State, e: DriverStep): State
    requires DriverEnabled(s, e)
  {
    match e
    case Decides => ApplyDecision(s)
    case Wakes => s.(pc := Deciding)
    case Fails => ApplyFailure(s)
    case Commits => ApplyCommit(s)
    case Exits => ApplyExit(s)
    case _ => ApplySwap(s, e)
  }

  /** The head of the drain loop: wait while permits are out, then look for a driver. */
  function DrainCheck(s: State, stop: bool): State {
    if s.core.active > 0 then
      s.(core := DrainMode(s.core, stop), barrier := DrainWait(stop, s.core.notified))
    else if s.core.driver.Some? then s.(barrier := DriverWait(stop, s.core.driver.value))
    else s.(barrier := LockWait(stop))
  }

  function ApplyClose(s: State): State
    requires s.barrier.Entering?
  {
    DrainCheck(s.(core := CloseAdmission(s.core, s.barrier.stop, s.barrier.closed)), s.barrier.stop)
  }

  function ApplyBarrier(s: State, e: BarrierStep): State
    requires BarrierEnabled(s, e)
  {
    match e
    case BeginUnload => s.(barrier := Entering(false, false))
    case BeginEvict => s.(core := s.core.(accepting := false), barrier := Entering(false, true))
    case BeginShutdown => s.(core := s.core.(stopping := true), barrier := Entering(true, false))
    case Closes => ApplyClose(s)
    case SeesNotification => DrainCheck(s, s.barrier.stop)
    case DrainExpires => s.(core := DrainTimeout(s.core, s.barrier.stop), barrier := NoBarrier)
    case SeesDriverGone => s.(barrier := LockWait(s.barrier.stop))
    case LocksEngine =>
      s.(core := BeginStop(s.core, s.barrier.stop), barrier := StopCall(s.barrier.stop), engine := None)
    case StopsEngine => s.(barrier := StopDone(s.barrier.stop))
    case Reopens => s.(core := Reopen(s.core, s.barrier.stop), barrier := NoBarrier)
    case GivesUp(code) => s.(core := GiveUp(s.core, s.barrier.stop, code), barrier := NoBarrier)
    case Abandons => s.(barrier := NoBarrier)
  }

  function Apply(s: State, e: Step): State
    requires Enabled(s, e)
  {
    match e
    case Client(c) => ApplyClient(s, c)
    case Driver(d) => ApplyDriver(s, d)
    case Maintenance(b) => ApplyBarrier(s, b)
  }

  // ----- runs

  predicate Run(s: State, es: seq<Step>)
    decreases |es|
  {
    es == [] || (Enabled(s, es[0]) && Run(Apply(s, es[0]), es[1..]))
  }

  function Final(s: State, es: seq<Step>): State
    requires Run(s, es)
    decreases |es|
  {
    if es == [] then s else Final(Apply(s, es[0]), es[1..])
  }

  /** A transition whose cleanup succeeded reopens admission while an unload or
      an eviction, which counts on it being closed, is still on its way. */
  predicate Hazard(s: State, e: Step) {
    && e == Driver(Fails) && s.pc.Cleaned? && s.pc.clean && !s.core.stopping
    && (s.barrier.DriverWait? || (s.barrier.Entering? && s.barrier.closed))
  }

  predicate HazardFree(s: State, es: seq<Step>)
    requires Run(s, es)
    decreases |es|
  {
    es == [] || (!Hazard(s, es[0]) && HazardFree(Apply(s, es[0]), es[1..]))
  }

  /** Some outstanding permit no longer has its engine under it. */
  ghost predicate Unsafe(s: State) {
    exists id :: id in s.permits && s.engine != Some(s.permits[id].deployment)
  }
}
