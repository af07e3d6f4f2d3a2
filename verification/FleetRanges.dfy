/**
 The numeric ranges of the snapshot protocol, and that a coordinator whose inputs
 are within them never leaves them.
 */
module FleetRanges {
  import opened Options
  import opened ResidencyCore
  import opened ResidencyProtocol
  import opened ResidencyModes

  const MILLION := 1000000
  const MAX_LIMIT := 100000

  predicate InRange(low: int, n: int, high: int) { low <= n <= high }

  predicate SpecInRange(spec: CapacitySpec) {
    InRange(1, spec.derivedLimit, MAX_LIMIT) && (spec.source.Reported? ==> InRange(1, |spec.source.name|, 96))
  }

  predicate SettingsInRange(configured: Option<nat>, maxQueue: nat) {
    (configured.Some? ==> InRange(1, configured.value, MAX_LIMIT)) && InRange(1, maxQueue, MILLION)
  }

  /** What the operator sets and what the engine reports is within the ranges. */
  predicate InputInRange(e: Step) {
    && (e.Client? && e.client.Reconfigured? ==> SettingsInRange(e.client.configured, e.client.maxQueue))
    && (e.Driver? && e.driver.StartsNew? && e.driver.outcome.Some? ==> SpecInRange(e.driver.outcome.value))
  }

  predicate Ranged(c: Core) {
    && SpecInRange(c.capacity) && SettingsInRange(c.configured, c.maxQueue)
    && c.active <= MAX_LIMIT && |c.queue| <= MILLION
  }

  predicate StateRanged(s: State) { Ranged(s.core) && (s.pc.Loaded? ==> SpecInRange(s.pc.capacity)) }

  lemma {:induction false} RemainingIsShorter(c: Core, q: seq<Waiter>)
    ensures |Remaining(c, q)| <= |q|
  {
    if q != [] { RemainingIsShorter(c, q[1..]); }
  }

  lemma {:induction false} GrantHeadRanged(c: Core, deployment: DeploymentId)
    requires Ranged(c)
    ensures Ranged(GrantHead(c, deployment).0)
    decreases |c.queue|
  {
    if c.queue != [] && c.queue[0].profile.deployment == deployment && c.active < Limit(c) {
      var popped := c.(queue := c.queue[1..]);
      if Gone(c, c.queue[0]) {
        GrantHeadRanged(popped, deployment);
      } else {
        GrantHeadRanged(Grant(popped, c.queue[0]), deployment);
      }
    }
  }

  lemma AcquireRanged(c: Core, id: nat, profile: Profile)
    requires Ranged(c)
    ensures Ranged(Acquire(c, id, profile).0) && Ranged(AcquireCurrent(c).0)
  {
    RemainingIsShorter(c, c.queue);
  }

  lemma CancelRanged(c: Core, id: nat)
    requires Ranged(c)
    ensures Ranged(CancelWaiter(c, id))
  {
    var settled := Unpurged(c, id);
    RemainingIsShorter(settled, settled.queue);
  }

  /** A cancellation before its purge. */
  function Unpurged(c: Core, id: nat): Core {
    var marked := c.(cancelled := c.cancelled + {id});
    if id in c.futures && c.futures[id].Granted? then ReleaseLocked(marked, c.futures[id].epoch)
    else if id in c.futures && c.futures[id].Pending? then marked.(futures := c.futures[id := Cancelled])
    else marked
  }

  lemma ClientRanged(s: State, e: ClientStep)
    requires StateRanged(s) && ClientEnabled(s, e) && InputInRange(Client(e))
    ensures StateRanged(ApplyClient(s, e))
  {
    match e
    case Request(profile) =>
      RequestFace(s, profile);
      AcquireRanged(s.core, s.nextId, profile);
    case RequestCurrent => RequestCurrentFace(s);
    case Cancel(id) => CancelRanged(s.core, id);
    case TakeStatus => RemainingIsShorter(s.core, s.core.queue);
    case _ =>
  }

  lemma DecideRanged(c: Core)
    requires Ranged(c)
    ensures Ranged(Decide(c).0)
  {
    var p := Purge(c);
    RemainingIsShorter(c, c.queue);
    if p.queue != [] { GrantHeadRanged(p, p.queue[0].profile.deployment); }
  }

  lemma DriverRanged(s: State, e: DriverStep)
    requires StateRanged(s) && DriverEnabled(s, e) && InputInRange(Driver(e))
    ensures StateRanged(ApplyDriver(s, e))
  {
    if e.Decides? {
      DecideRanged(s.core);
      DecisionCore(s);
    }
  }

  lemma BarrierRanged(s: State, e: BarrierStep)
    requires StateRanged(s) && BarrierEnabled(s, e)
    ensures StateRanged(ApplyBarrier(s, e))
  {
    match e
    case Closes => CloseRanged(s);
    case SeesNotification => DrainRanged(s, s.barrier.stop);
    case Reopens => ReopenRanged(s.core, s.barrier.stop);
    case _ => MoveRanged(s, e);
  }

  lemma DrainRanged(s: State, stop: bool)
    requires StateRanged(s)
    ensures StateRanged(DrainCheck(s, stop))
  {
  }

  lemma CloseRanged(s: State)
    requires StateRanged(s) && s.barrier.Entering?
    ensures StateRanged(ApplyClose(s))
  {
    DrainRanged(s.(core := CloseAdmission(s.core, s.barrier.stop, s.barrier.closed)), s.barrier.stop);
  }

  lemma ReopenRanged(c: Core, stop: bool)
    requires Ranged(c)
    ensures Ranged(Reopen(c, stop))
  {
  }

  lemma MoveRanged(s: State, e: BarrierStep)
    requires StateRanged(s) && BarrierEnabled(s, e) && !e.Closes? && !e.SeesNotification? && !e.Reopens?
    ensures StateRanged(ApplyBarrier(s, e))
  {
  }

  lemma StepRanged(s: State, e: Step)
    requires StateRanged(s) && Enabled(s, e) && InputInRange(e)
    ensures StateRanged(Apply(s, e))
  {
    match e
    case Client(c) => ClientRanged(s, c);
    case Driver(d) => DriverRanged(s, d);
    case Maintenance(b) => BarrierRanged(s, b);
  }

  /** Over every run on inputs within the ranges, hazardous or not. */
  lemma {:induction false} RunRanged(s: State, es: seq<Step>)
    requires StateRanged(s) && Run(s, es) && forall e :: e in es ==> InputInRange(e)
    ensures StateRanged(Final(s, es))
    decreases |es|
  {
    if es != [] {
      assert es[0] in es;
      StepRanged(s, es[0]);
      RunRanged(Apply(s, es[0]), es[1..]);
    }
  }
}
