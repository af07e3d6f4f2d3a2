/**
 What every run of the coordinator keeps, hazardous ones included: the fields that
 a status report shows agree with one another.
 */
module ResidencyModes {
  import opened Options
  import opened ResidencyCore
  import opened ResidencyProtocol
  import opened ResidencyInvariant
  import opened ResidencyTheorems

  /** Mode, resident, target and admission agree, and limits are positive. */
  ghost predicate Coherent(c: Core) {
    && Limits(c)
    && (c.mode == Ready ==> c.resident.Some?)
    && (c.mode == Idle ==> c.resident.None?)
    && (c.target.Some? ==> c.mode in {Draining, Unloading, Loading})
    && (c.mode == Degraded ==> !Open(c))
    && (c.mode == Stopping ==> c.stopping)
  }

  ghost predicate ModesHeld(s: State) {
    && Coherent(s.core)
    && (s.pc.Loaded? ==> s.pc.capacity.derivedLimit >= 1)
    && (!s.barrier.NoBarrier? && s.barrier.stop ==> s.core.stopping)
  }

  /** The two states differ in nothing that `Coherent` reads. */
  predicate SameFace(c: Core, d: Core) {
    && d.capacity == c.capacity && d.configured == c.configured && d.maxQueue == c.maxQueue && d.mode == c.mode
    && d.resident == c.resident && d.target == c.target
    && d.accepting == c.accepting && d.authoritative == c.authoritative && d.stopping == c.stopping
  }

  lemma FaceKeeps(s: State, t: State)
    requires ModesHeld(s) && SameFace(s.core, t.core) && t.barrier == s.barrier && (t.pc == s.pc || t.pc.Deciding?)
    ensures ModesHeld(t)
  {
  }

  lemma AcquireFace(c: Core, id: nat, profile: Profile)
    ensures SameFace(c, Acquire(c, id, profile).0)
  {
  }

  lemma ReleaseFace(c: Core, epoch: nat)
    ensures SameFace(c, ReleaseLocked(c, epoch)) && SameFace(c, Release(c, epoch))
  {
  }

  lemma CancelFace(c: Core, id: nat)
    ensures SameFace(c, CancelWaiter(c, id))
  {
  }

  lemma RequestFace(s: State, profile: Profile)
    ensures var t := ApplyRequest(s, profile);
      t.core == Acquire(s.core, s.nextId, profile).0 && t.barrier == s.barrier && (t.pc == s.pc || t.pc.Deciding?)
  {
    var (c, admission) := Acquire(s.core, s.nextId, profile);
    if admission.Leased? {
      IssueFrame(With(s, c).(nextId := s.nextId + 1), [Waiter(s.nextId, profile)], admission.epoch);
    }
  }

  lemma RequestCurrentFace(s: State)
    ensures var t := ApplyRequestCurrent(s);
      t.core == AcquireCurrent(s.core).0 && t.barrier == s.barrier && (t.pc == s.pc || t.pc.Deciding?)
  {
    var (c, admission) := AcquireCurrent(s.core);
    if admission.Leased? {
      IssueFrame(With(s, c).(nextId := s.nextId + 1), [Waiter(s.nextId, c.resident.value)], admission.epoch);
    }
  }

  lemma ClientPresents(s: State, e: ClientStep)
    requires ModesHeld(s) && ClientEnabled(s, e)
    ensures ModesHeld(ApplyClient(s, e))
  {
    match e
    case Request(profile) => RequestFace(s, profile); AcquireFace(s.core, s.nextId, profile);
      FaceKeeps(s, ApplyRequest(s, profile));
    case RequestCurrent => RequestCurrentFace(s); FaceKeeps(s, ApplyRequestCurrent(s));
    case Cancel(id) => CancelFace(s.core, id); FaceKeeps(s, ApplyCancel(s, id));
    case ReturnPermit(id) => ReleaseFace(s.core, s.permits[id].epoch); FaceKeeps(s, ApplyReturn(s, id));
    case _ =>
  }

  lemma DecideCoherent(c: Core)
    requires Coherent(c)
    ensures Coherent(Decide(c).0) && Decide(c).0.stopping == c.stopping
  {
    var p := Purge(c);
    if p.queue != [] { GrantHeadFrame(p, p.queue[0].profile.deployment); }
  }

  lemma DecisionPresents(s: State)
    requires ModesHeld(s) && s.pc.Deciding?
    ensures ModesHeld(ApplyDecision(s))
  {
    DecideCoherent(s.core);
    DecisionCore(s);
  }

  lemma DecisionCore(s: State)
    requires s.pc.Deciding?
    ensures var t := ApplyDecision(s); t.core == Decide(s.core).0 && t.barrier == s.barrier && !t.pc.Loaded?
  {
    var (c, _, granted) := Decide(s.core);
    IssueFrame(s.(core := c), granted, s.core.epoch);
  }

  lemma FailurePresents(s: State)
    requires ModesHeld(s) && s.pc.Cleaned?
    ensures ModesHeld(ApplyFailure(s))
  {
  }

  lemma CommitPresents(s: State)
    requires ModesHeld(s) && s.pc.Loaded?
    ensures ModesHeld(ApplyCommit(s))
  {
  }

  lemma ExitPresents(s: State)
    requires ModesHeld(s) && s.pc.Returning?
    ensures ModesHeld(ApplyExit(s))
  {
  }

  lemma SwapPresents(s: State, e: DriverStep)
    requires ModesHeld(s) && DriverEnabled(s, e)
    ensures ModesHeld(ApplySwap(s, e))
  {
  }

  lemma DriverPresents(s: State, e: DriverStep)
    requires ModesHeld(s) && DriverEnabled(s, e)
    ensures ModesHeld(ApplyDriver(s, e))
  {
    match e
    case Decides => DecisionPresents(s);
    case Wakes => FaceKeeps(s, ApplyDriver(s, e));
    case Fails => FailurePresents(s);
    case Commits => CommitPresents(s);
    case Exits => ExitPresents(s);
    case _ => SwapPresents(s, e);
  }

  lemma ClosePresents(s: State)
    requires ModesHeld(s) && s.barrier.Entering?
    ensures ModesHeld(ApplyClose(s))
  {
  }

  lemma BarrierPresents(s: State, e: BarrierStep)
    requires ModesHeld(s) && BarrierEnabled(s, e)
    ensures ModesHeld(ApplyBarrier(s, e))
  {
    if e.Closes? { ClosePresents(s); }
  }

  lemma StepPresents(s: State, e: Step)
    requires ModesHeld(s) && Enabled(s, e)
    ensures ModesHeld(Apply(s, e))
  {
    match e
    case Client(c) => ClientPresents(s, c);
    case Driver(d) => DriverPresents(s, d);
    case Maintenance(b) => BarrierPresents(s, b);
  }

  lemma {:induction false} RunPresents(s: State, es: seq<Step>)
    requires ModesHeld(s) && Run(s, es)
    ensures ModesHeld(Final(s, es))
    decreases |es|
  {
    if es != [] {
      StepPresents(s, es[0]);
      RunPresents(Apply(s, es[0]), es[1..]);
    }
  }

  /** In every state any run reaches, what a status report shows is coherent. */
  lemma AlwaysCoherent(configured: Option<nat>, maxQueue: nat, es: seq<Step>)
    requires Positive(configured, maxQueue) && Run(Start(configured, maxQueue), es)
    ensures Coherent(Final(Start(configured, maxQueue), es).core)
    ensures Coherent(Purge(Final(Start(configured, maxQueue), es).core))
  {
    RunPresents(Start(configured, maxQueue), es);
  }
}
