/**
 The fields of the CUDA residency coordinator and what each of its critical
 sections does to them.  The functions here are the specification against which
 the class in `Coordinator.dfy` is proved; the protocol in
 `ResidencyProtocol.dfy` interleaves them.
 */
module ResidencyCore {
  import opened Options

  /** A canonical identity document.  It stands for its own SHA-256 digest, so
      two deployments have the same id exactly when they have the same identity. */
  datatype DeploymentId = DeploymentId(engine: string, capabilities: set<string>, document: string)

  datatype Confidence = Authoritative | Configured | Derived | Conservative

  datatype Source = NoResident | Reported(name: string)

  datatype CapacitySpec = CapacitySpec(derivedLimit: nat, source: Source, confidence: Confidence)

  /** A resolved profile; `cold` is the capacity its arguments alone imply, `pinned`
      says its revision is immutable and `portable` that its model is a public one. */
  datatype Profile = Profile(alias: string, deployment: DeploymentId, cold: CapacitySpec, pinned: bool, portable: bool)

  datatype Mode = Idle | Draining | Unloading | Loading | Ready | Degraded | Stopping

  datatype Diagnostic =
    | TransitionCleanupFailed
    | AdmissionBarrierIncomplete
    | ShutdownDrainTimeout
    | TransitionDrainTimeout
    | UnloadDeadlineExpired
    | EngineStopTimeout
    | EngineStopFailed

  datatype Future = Pending | Granted(epoch: nat) | Failed | Cancelled

  datatype Waiter = Waiter(id: nat, profile: Profile)

  const NO_RESIDENT := CapacitySpec(1, NoResident, Conservative)

  /** `driver` names the task held in `_driver_task`; `notified` counts calls of
      `notify_all`, so a task parked at count n is awake once the count passes n. */
  datatype Core = Core(
    queue: seq<Waiter>,
    futures: map<nat, Future>,
    cancelled: set<nat>,
    resident: Option<Profile>,
    capacity: CapacitySpec,
    configured: Option<nat>,
    maxQueue: nat,
    epoch: nat,
    active: nat,
    mode: Mode,
    diagnostic: Option<Diagnostic>,
    target: Option<DeploymentId>,
    driver: Option<nat>,
    nextDriver: nat,
    accepting: bool,
    authoritative: bool,
    stopping: bool,
    notified: nat)

  function Initial(configured: Option<nat>, maxQueue: nat): Core {
    Core([], map[], {}, None, NO_RESIDENT, configured, maxQueue, 0, 0, Idle, None, None,
         None, 0, true, true, false, 0)
  }

  function Min(a: nat, b: nat): nat { if a <= b then a else b }

  /** `n` permits are within what the engine can serve and what the operator allows. */
  predicate Fits(c: Core, n: nat) {
    n <= c.capacity.derivedLimit && (c.configured.Some? ==> n <= c.configured.value)
  }

  /** The largest number of permits that fits. */
  function Limit(c: Core): (limit: nat)
    ensures Fits(c, limit) && !Fits(c, limit + 1)
  {
    match c.configured
    case None => c.capacity.derivedLimit
    case Some(ceiling) => Min(c.capacity.derivedLimit, ceiling)
  }

  function ResidentId(c: Core): Option<DeploymentId> {
    if c.resident.Some? then Some(c.resident.value.deployment) else None
  }

  predicate Open(c: Core) { c.accepting && c.authoritative && !c.stopping }

  function SetMode(c: Core, mode: Mode, target: Option<DeploymentId>, diagnostic: Option<Diagnostic>): Core {
    c.(mode := mode, target := target, diagnostic := diagnostic)
  }

  /** READY with a resident, IDLE without one. */
  function Settle(c: Core): Core {
    SetMode(c, if c.resident.Some? then Ready else Idle, None, None)
  }

  function Notify(c: Core): Core { c.(notified := c.notified + 1) }

  function EnsureDriver(c: Core): Core {
    if c.driver.None? then c.(driver := Some(c.nextDriver), nextDriver := c.nextDriver + 1) else c
  }

  predicate Gone(c: Core, w: Waiter) {
    w.id in c.cancelled || (w.id in c.futures && c.futures[w.id] == Cancelled)
  }

  function Remaining(c: Core, q: seq<Waiter>): seq<Waiter> {
    if q == [] then []
    else if Gone(c, q[0]) then Remaining(c, q[1..])
    else [q[0]] + Remaining(c, q[1..])
  }

  function Purge(c: Core): Core { c.(queue := Remaining(c, c.queue)) }

  /** Pops matching waiters off the head, granting each that is still wanted. */
  function GrantHead(c: Core, deployment: DeploymentId): (Core, seq<Waiter>)
    decreases |c.queue|
  {
    if c.queue != [] && c.queue[0].profile.deployment == deployment && c.active < Limit(c) then
      var w := c.queue[0];
      var popped := c.(queue := c.queue[1..]);
      if Gone(c, w) then GrantHead(popped, deployment)
      else
        var (d, granted) := GrantHead(Grant(popped, w), deployment);
        (d, [w] + granted)
    else (c, [])
  }

  function Grant(c: Core, w: Waiter): Core {
    c.(active := c.active + 1, futures := c.futures[w.id := Granted(c.epoch)])
  }

  function HeadRun(q: seq<Waiter>, deployment: DeploymentId): (n: nat)
    ensures n <= |q|
  {
    if q != [] && q[0].profile.deployment == deployment then 1 + HeadRun(q[1..], deployment) else 0
  }

  function Ids(ws: seq<Waiter>): set<nat> { set w | w in ws :: w.id }

  function FailFutures(futures: map<nat, Future>, ws: seq<Waiter>): map<nat, Future> {
    map id | id in futures ::
      if id in Ids(ws) && futures[id].Pending? then Failed else futures[id]
  }

  function FailHead(c: Core, deployment: DeploymentId): Core {
    var n := HeadRun(c.queue, deployment);
    c.(queue := c.queue[n..], futures := FailFutures(c.futures, c.queue[..n]))
  }

  function FailAll(c: Core): Core {
    c.(queue := [], futures := FailFutures(c.futures, c.queue))
  }

  // ----- critical sections of the clients

  datatype Admission = NotAccepting | QueueFull | Leased(epoch: nat) | Queued

  function Acquire(c: Core, id: nat, profile: Profile): (Core, Admission) {
    if !Open(c) then (c, NotAccepting)
    else
      var p := Purge(c);
      if p.queue == [] && ResidentId(p) == Some(profile.deployment) && p.mode == Ready && p.active < Limit(p) then
        (p.(active := p.active + 1), Leased(p.epoch))
      else if |p.queue| >= p.maxQueue then (p, QueueFull)
      else
        var appended := p.(queue := p.queue + [Waiter(id, profile)], futures := p.futures[id := Pending]);
        (Notify(EnsureDriver(appended)), Queued)
  }

  function AcquireCurrent(c: Core): (Core, Admission) {
    if !Open(c) then (c, NotAccepting)
    else if c.resident.None? || c.queue != [] || c.mode != Ready || c.active >= Limit(c) then (c, QueueFull)
    else (c.(active := c.active + 1), Leased(c.epoch))
  }

  function ReleaseLocked(c: Core, epoch: nat): Core {
    if epoch != c.epoch || c.active <= 0 then c else c.(active := c.active - 1)
  }

  function Release(c: Core, epoch: nat): Core {
    var r := ReleaseLocked(c, epoch);
    Notify(if r.queue != [] && r.accepting then EnsureDriver(r) else r)
  }

  function CancelWaiter(c: Core, id: nat): Core {
    if id in c.cancelled then c
    else
      var marked := c.(cancelled := c.cancelled + {id});
      var settled :=
        if id in c.futures && c.futures[id].Granted? then ReleaseLocked(marked, c.futures[id].epoch)
        else if id in c.futures && c.futures[id].Pending? then marked.(futures := c.futures[id := Cancelled])
        else marked;
      Notify(Purge(settled))
  }

  function Reconfigure(c: Core, configured: Option<nat>, maxQueue: nat): Core {
    Notify(EnsureDriver(c.(configured := configured, maxQueue := maxQueue)))
  }

  // ----- critical sections of the driver

  datatype Verdict = Return | Continue | Park | Transition(profile: Profile)

  function Decide(c: Core): (Core, Verdict, seq<Waiter>) {
    var p := Purge(c);
    if !Open(p) then (FailAll(p), Return, [])
    else if p.queue == [] then (Settle(p), Return, [])
    else
      var head := p.queue[0].profile;
      if ResidentId(p) == Some(head.deployment) then
        var (g, granted) := GrantHead(p, head.deployment);
        if granted != [] then (Notify(g), Continue, granted)
        else (SetMode(g, Ready, None, None), Park, [])
      else if p.active > 0 then (SetMode(p, Draining, Some(head.deployment), None), Park, [])
      else (SetMode(p, Unloading, Some(head.deployment), None), Transition(head), [])
  }

  function BeginLoading(c: Core, deployment: DeploymentId): Core {
    Notify(SetMode(c, Loading, Some(deployment), None))
  }

  function FailTransition(c: Core, deployment: DeploymentId, clean: bool): Core {
    var reset := c.(resident := None, capacity := NO_RESIDENT, authoritative := clean,
                    accepting := clean && !c.stopping);
    var moded := SetMode(reset, if clean then Idle else Degraded, None,
                         if clean then None else Some(TransitionCleanupFailed));
    Notify(FailHead(moded, deployment))
  }

  function CommitTransition(c: Core, profile: Profile, capacity: CapacitySpec): Core {
    var loaded := c.(resident := Some(profile), capacity := capacity, epoch := c.epoch + 1);
    Notify(
      if Open(loaded) then SetMode(loaded, Ready, None, None)
      else SetMode(loaded, if c.stopping then Stopping else Degraded, None,
                   if c.diagnostic.Some? then c.diagnostic else Some(AdmissionBarrierIncomplete)))
  }

  function DriverExit(c: Core): Core {
    var none := c.(driver := None);
    if c.queue != [] && c.accepting && !c.stopping then EnsureDriver(none) else none
  }

  // ----- critical sections of the maintenance barrier

  predicate Evictable(c: Core) {
    c.resident.Some? && c.active == 0 && c.queue == [] && c.accepting && c.authoritative
  }

  function CloseAdmission(c: Core, stop: bool, closed: bool): Core {
    var shut := if closed then c else c.(accepting := false);
    var moded := if stop then SetMode(shut, Stopping, None, None) else shut;
    Notify(FailAll(moded))
  }

  function DrainMode(c: Core, stop: bool): Core {
    SetMode(c, if stop then Stopping else Draining, None, None)
  }

  function DrainTimeout(c: Core, stop: bool): Core {
    if stop then c.(diagnostic := Some(ShutdownDrainTimeout))
    else Settle(c.(accepting := true))
  }

  function BeginStop(c: Core, stop: bool): Core {
    Notify(SetMode(c, if stop then Stopping else Unloading, None, None))
  }

  function GiveUp(c: Core, stop: bool, code: Diagnostic): Core {
    SetMode(c.(authoritative := false, accepting := false),
            if stop then Stopping else Degraded, None, Some(code))
  }

  function Reopen(c: Core, stop: bool): Core {
    var reset := c.(resident := None, capacity := NO_RESIDENT, epoch := c.epoch + 1,
                    authoritative := true, accepting := !stop);
    Notify(SetMode(reset, if stop then Stopping else Idle, None, None))
  }
}
