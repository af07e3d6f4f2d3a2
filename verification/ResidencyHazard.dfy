/**
 The one way the coordinator's promises break, exactly.  A swap whose load fails
 and whose cleanup succeeds reopens admission; if an unload or an idle eviction is
 waiting for that very driver, a permit can be granted behind the closed barrier,
 which then stops the engine under it.  Afterwards the count never returns to zero.
 */
module ResidencyHazard {
  import opened Options
  import opened ResidencyCore
  import opened ResidencyProtocol
  import opened ResidencyInvariant
  import opened ResidencySteps
  import opened ResidencyTheorems

  // ----- concatenating runs

  lemma {:induction false} RunThen(s: State, es: seq<Step>, fs: seq<Step>)
    requires Run(s, es) && HazardFree(s, es) && Run(Final(s, es), fs) && HazardFree(Final(s, es), fs)
    ensures Run(s, es + fs) && HazardFree(s, es + fs) && Final(s, es + fs) == Final(Final(s, es), fs)
    decreases |es|
  {
    if es == [] {
      assert es + fs == fs;
    } else {
      assert (es + fs)[1..] == es[1..] + fs;
      RunThen(Apply(s, es[0]), es[1..], fs);
    }
  }

  lemma RunStep(s: State, e: Step, t: State)
    requires Enabled(s, e) && !Hazard(s, e) && t == Apply(s, e)
    ensures Run(s, [e]) && HazardFree(s, [e]) && Final(s, [e]) == t
  {
    assert [e][1..] == [];
    assert Run(t, []);
  }

  ghost predicate Reaches(s: State, es: seq<Step>, t: State) {
    Run(s, es) && HazardFree(s, es) && Final(s, es) == t
  }

  lemma ReachesStep(s: State, es: seq<Step>, t: State, e: Step) returns (u: State)
    requires Reaches(s, es, t) && Enabled(t, e) && !Hazard(t, e)
    ensures u == Apply(t, e) && Reaches(s, es + [e], u)
  {
    u := Apply(t, e);
    RunStep(t, e, u);
    RunThen(s, es, [e]);
  }

  // ----- the witness, from every state the hazard leaves behind

  /** Admission stands open behind an unload that waits for driver `g`. */
  ghost predicate Ajar(s: State, g: nat) {
    && s.pc == Deciding && s.core.driver == Some(g) && g < s.core.nextDriver && s.barrier == DriverWait(false, g)
    && Open(s.core) && s.core.queue == [] && s.core.active == 0 && s.permits == map[]
    && s.core.resident.None? && Limits(s.core)
    && s.nextId !in s.core.cancelled
    && (forall id :: id in s.waiting ==> id in s.core.futures && !s.core.futures[id].Granted? && id < s.nextId)
  }

  const ANY_PROFILE := Profile("", DeploymentId("", {}, ""), CapacitySpec(1, NoResident, Conservative), true, true)
  const ANY_CAPACITY := CapacitySpec(1, NoResident, Conservative)

  /** A second driver has just loaded the newcomer's deployment, before the unload that
      waited for the first one took the operation lock. */
  ghost predicate Swapped(s: State, t: State, g: nat) {
    && t.pc == Deciding && t.barrier == DriverWait(false, g)
    && t.core.driver == Some(s.core.nextDriver) && Open(t.core) && Limits(t.core)
    && t.core.queue == [Waiter(s.nextId, ANY_PROFILE)] && t.core.active == 0
    && t.core.resident == Some(ANY_PROFILE) && t.permits == map[]
    && t.engine == Some(ANY_PROFILE.deployment)
    && t.core.cancelled == s.core.cancelled && t.waiting == s.waiting + {s.nextId}
    && t.core.futures == s.core.futures[s.nextId := Pending]
  }

  /** The first driver is gone; the unload has yet to notice. */
  ghost predicate Vacated(s: State, t: State) {
    && t.pc == NoTask && t.core.driver.None? && t.core.nextDriver == s.core.nextDriver
    && t.barrier == s.barrier && t.engine == s.engine && t.permits == s.permits
    && t.waiting == s.waiting && t.nextId == s.nextId
    && Open(t.core) && t.core.queue == [] && t.core.active == 0 && t.core.resident.None? && Limits(t.core)
    && t.core.cancelled == s.core.cancelled && t.core.futures == s.core.futures
  }

  lemma FirstDriverLeaves(s: State, g: nat) returns (es: seq<Step>, t: State)
    requires Ajar(s, g)
    ensures Reaches(s, es, t) && Vacated(s, t)
  {
    assert Remaining(s.core, []) == [];
    assert Reaches(s, [], s);
    var t1 := ReachesStep(s, [], s, Driver(Decides));
    es := [] + [Driver(Decides)];
    t := ReachesStep(s, es, t1, Driver(Exits));
    es := es + [Driver(Exits)];
  }

  lemma LoadsNewcomer(s: State, g: nat) returns (es: seq<Step>, t: State)
    requires Ajar(s, g)
    ensures Reaches(s, es, t) && Swapped(s, t, g)
  {
    var t0;
    es, t0 := FirstDriverLeaves(s, g);
    var w := Waiter(s.nextId, ANY_PROFILE);
    assert Remaining(t0.core, []) == [];
    var t1 := ReachesStep(s, es, t0, Client(Request(ANY_PROFILE)));
    assert t1.core.queue == [w];
    es := es + [Client(Request(ANY_PROFILE))];
    assert !Gone(t1.core, w);
    RemainingAll(t1.core, [w]);
    assert Purge(t1.core) == t1.core;
    var t2 := ReachesStep(s, es, t1, Driver(Decides));
    es := es + [Driver(Decides)];
    assert t2.pc == LockWanted(ANY_PROFILE) && t2.core.queue == [w];
    t := SwapsIn(s, es, t2, g);
    es := es + SWAP;
  }

  const SWAP := [Driver(Locks), Driver(StopsOld(true)), Driver(StartsNew(Some(ANY_CAPACITY))), Driver(Commits)]

  lemma SwapsIn(s: State, es: seq<Step>, t2: State, g: nat) returns (t: State)
    requires Reaches(s, es, t2) && t2.pc == LockWanted(ANY_PROFILE) && t2.barrier == DriverWait(false, g) &&
      Open(t2.core)
    ensures Reaches(s, es + SWAP, t)
    ensures t == t2.(core := t.core, pc := Deciding, engine := Some(ANY_PROFILE.deployment))
    ensures t.core == t2.core.(resident := Some(ANY_PROFILE), capacity := ANY_CAPACITY, epoch := t2.core.epoch + 1,
                               mode := Ready, target := None, diagnostic := None, notified := t2.core.notified + 2)
  {
    var t3 := ReachesStep(s, es, t2, Driver(Locks));
    var t4 := ReachesStep(s, es + [Driver(Locks)], t3, Driver(StopsOld(true)));
    var es4 := es + [Driver(Locks)] + [Driver(StopsOld(true))];
    var t5 := ReachesStep(s, es4, t4, Driver(StartsNew(Some(ANY_CAPACITY))));
    var es5 := es4 + [Driver(StartsNew(Some(ANY_CAPACITY)))];
    t := ReachesStep(s, es5, t5, Driver(Commits));
    assert es5 + [Driver(Commits)] == es + SWAP;
  }

  /** The newcomer holds the only permit and the driver has gone. */
  ghost predicate Served(s: State, t: State) {
    && t.pc == NoTask && t.core.driver == None && t.barrier.LockWait? && !t.barrier.stop
    && t.core.active == 1 && t.core.queue == []
    && t.permits == map[s.nextId := Permit(ANY_PROFILE.deployment, t.core.epoch)]
    && t.waiting == s.waiting + {s.nextId}
    && t.core.futures == s.core.futures[s.nextId := Granted(t.core.epoch)]
    && Limits(t.core)
  }

  /** The newcomer holds the only permit; the driver is about to look again. */
  ghost predicate HoldsOnly(s: State, t: State, g: nat) {
    && t.pc == Deciding && t.barrier == DriverWait(false, g) && t.core.driver.Some?
    && Open(t.core) && t.core.active == 1 && t.core.queue == []
    && t.permits == map[s.nextId := Permit(ANY_PROFILE.deployment, t.core.epoch)]
    && t.waiting == s.waiting + {s.nextId}
    && t.core.futures == s.core.futures[s.nextId := Granted(t.core.epoch)]
    && Limits(t.core)
  }

  lemma GrantsOnly(c: Core, w: Waiter)
    requires c.queue == [w] && !Gone(c, w) && c.active < Limit(c)
    ensures GrantHead(c, w.profile.deployment) == (Grant(c.(queue := []), w), [w])
  {
    var next := Grant(c.(queue := []), w);
    assert c.queue[1..] == [];
    assert GrantHead(next, w.profile.deployment) == (next, []);
    assert [w] + [] == [w];
  }

  lemma GrantsNewcomer(s: State, g: nat, es: seq<Step>, t: State) returns (u: State)
    requires Ajar(s, g) && Reaches(s, es, t) && Swapped(s, t, g)
    ensures Reaches(s, es + [Driver(Decides)], u) && HoldsOnly(s, u, g)
  {
    var w := Waiter(s.nextId, ANY_PROFILE);
    RemainingAll(t.core, [w]);
    GrantsOnly(t.core, w);
    IssueOne(t.(core := Notify(Grant(t.core.(queue := []), w))), w, t.core.epoch);
    u := ReachesStep(s, es, t, Driver(Decides));
  }

  lemma DriverLeaves(s: State, g: nat, es: seq<Step>, t: State) returns (fs: seq<Step>, u: State)
    requires Reaches(s, es, t) && HoldsOnly(s, t, g)
    ensures Reaches(s, fs, u) && Served(s, u)
  {
    assert Remaining(t.core, []) == [];
    var t2 := ReachesStep(s, es, t, Driver(Decides));
    var es2 := es + [Driver(Decides)];
    assert t2.pc == Returning;
    var t3 := ReachesStep(s, es2, t2, Driver(Exits));
    var es3 := es2 + [Driver(Exits)];
    u := ReachesStep(s, es3, t3, Maintenance(SeesDriverGone));
    fs := es3 + [Maintenance(SeesDriverGone)];
  }

  // ----- the wreck

  /** No resident, a count above zero and nobody left who could lower it. */
  ghost predicate Wedged(s: State) {
    && s.core.resident.None? && s.core.active > 0
    && !Transitioning(s.pc) && !Drained(s.barrier)
    && (forall id :: id in s.permits ==> s.permits[id].epoch != s.core.epoch)
    && (forall id :: id in s.waiting && id in s.core.futures && s.core.futures[id].Granted? ==>
          s.core.futures[id].epoch != s.core.epoch)
  }

  lemma StopsUnderPermit(s: State, es: seq<Step>, t: State) returns (fs: seq<Step>, u: State, v: State)
    requires Reaches(s, es, t) && Served(s, t)
    requires forall id :: id in s.waiting ==> id in s.core.futures && !s.core.futures[id].Granted? && id < s.nextId
    ensures Reaches(s, es + [Maintenance(LocksEngine)], u) && Unsafe(u)
    ensures Reaches(s, fs, v) && Wedged(v)
  {
    u := ReachesStep(s, es, t, Maintenance(LocksEngine));
    assert s.nextId in u.permits;
    var es1 := es + [Maintenance(LocksEngine)];
    var u1 := ReachesStep(s, es1, u, Maintenance(StopsEngine));
    var es2 := es1 + [Maintenance(StopsEngine)];
    v := ReachesStep(s, es2, u1, Maintenance(Reopens));
    fs := es2 + [Maintenance(Reopens)];
  }

  ghost predicate LeadsToUnsafe(s: State, es: seq<Step>) {
    Run(s, es) && HazardFree(s, es) && Unsafe(Final(s, es))
  }

  ghost predicate LeadsToWreck(s: State, es: seq<Step>) {
    Run(s, es) && HazardFree(s, es) && Wedged(Final(s, es))
  }

  lemma AjarLeadsToWreck(s: State, g: nat) returns (unsafe: seq<Step>, wreck: seq<Step>)
    requires Ajar(s, g)
    ensures LeadsToUnsafe(s, unsafe) && LeadsToWreck(s, wreck)
  {
    var es, t := LoadsNewcomer(s, g);
    var h := GrantsNewcomer(s, g, es, t);
    var fs, u := DriverLeaves(s, g, es + [Driver(Decides)], h);
    var gs, v, w := StopsUnderPermit(s, fs, u);
    unsafe := fs + [Maintenance(LocksEngine)];
    wreck := gs;
  }

  /** After the clean failure, possibly one closing section later, admission is ajar. */
  lemma HazardOpens(s: State) returns (es: seq<Step>, t: State, g: nat)
    requires Inv(s) && Hazard(s, Driver(Fails))
    ensures Reaches(ApplyFailure(s), es, t) && Ajar(t, g)
  {
    EmptyWhenIdle(s);
    var a := ApplyFailure(s);
    assert HeadRun([], s.pc.failed) == 0;
    assert a.core.queue == [];
    g := s.core.driver.value;
    FailedNotGranted(s, a);
    if s.barrier.DriverWait? {
      es, t := [], a;
      assert Reaches(a, [], a);
    } else {
      assert Reaches(a, [], a);
      t := ReachesStep(a, [], a, Maintenance(Closes));
      es := [] + [Maintenance(Closes)];
      assert t.core.futures == FailFutures(a.core.futures, []);
      assert t.core.futures == a.core.futures;
    }
  }

  lemma FailedNotGranted(s: State, a: State)
    requires Ledger(s) && s.permits == map[] && s.pc.Cleaned? && a == ApplyFailure(s)
    ensures a.nextId !in a.core.cancelled
    ensures forall id :: id in a.waiting ==> id in a.core.futures && !a.core.futures[id].Granted? && id < a.nextId
  {
  }

  /** The exact condition: after a failed swap a permit can lose its engine if and
      only if the failure was a clean one behind a waiting unload or eviction. */
  lemma HazardExact(s: State)
    requires Inv(s) && s.pc.Cleaned?
    ensures Hazard(s, Driver(Fails)) <==> exists es :: LeadsToUnsafe(ApplyFailure(s), es)
    ensures Hazard(s, Driver(Fails)) ==> exists es :: LeadsToWreck(ApplyFailure(s), es)
  {
    var a := ApplyFailure(s);
    if Hazard(s, Driver(Fails)) {
      var es, t, g := HazardOpens(s);
      var unsafe, wreck := AjarLeadsToWreck(t, g);
      RunThen(a, es, unsafe);
      RunThen(a, es, wreck);
      assert LeadsToUnsafe(a, es + unsafe);
      assert LeadsToWreck(a, es + wreck);
    } else {
      FailTransitionKeeps(s);
      forall es | Run(a, es) && HazardFree(a, es) ensures !LeadsToUnsafe(a, es) {
        RunKeeps(a, es);
        InvIsSafe(Final(a, es));
      }
    }
  }

  // ----- the wreck is final

  lemma WreckStep(s: State, e: Step)
    requires Wedged(s) && Enabled(s, e)
    ensures Wedged(Apply(s, e)) && Apply(s, e).permits.Keys <= s.permits.Keys
  {
    match e
    case Client(c) => WreckClient(s, c);
    case Driver(d) => WreckDriver(s, d);
    case Maintenance(b) => WreckBarrier(s, b);
  }

  lemma WreckClient(s: State, e: ClientStep)
    requires Wedged(s) && ClientEnabled(s, e)
    ensures Wedged(ApplyClient(s, e)) && ApplyClient(s, e).permits.Keys <= s.permits.Keys
  {
    if e.Request? {
      assert !Acquire(s.core, s.nextId, e.profile).1.Leased?;
    }
  }

  lemma WreckDriver(s: State, e: DriverStep)
    requires Wedged(s) && DriverEnabled(s, e)
    ensures Wedged(ApplyDriver(s, e)) && ApplyDriver(s, e).permits.Keys <= s.permits.Keys
  {
    if e.Decides? {
      assert Decide(s.core).2 == [];
    }
  }

  lemma WreckBarrier(s: State, e: BarrierStep)
    requires Wedged(s) && BarrierEnabled(s, e)
    ensures Wedged(ApplyBarrier(s, e)) && ApplyBarrier(s, e).permits.Keys <= s.permits.Keys
  {
  }

  /** No run from the wreck, whatever it does, ever grants another permit. */
  lemma {:induction false} WreckIsFinal(s: State, es: seq<Step>)
    requires Wedged(s) && Run(s, es)
    ensures Wedged(Final(s, es)) && Final(s, es).permits.Keys <= s.permits.Keys
    decreases |es|
  {
    if es != [] {
      WreckStep(s, es[0]);
      WreckIsFinal(Apply(s, es[0]), es[1..]);
    }
  }

  // ----- and it is reachable

  const PRELUDE := [Client(Request(ANY_PROFILE)), Driver(Decides), Driver(Locks), Maintenance(BeginUnload),
                    Maintenance(Closes), Driver(StopsOld(false)), Driver(LocksForCleanup), Driver(CleansUp(true))]

  /** One request, one unload and one failing swap bring a fresh coordinator to the hazard. */
  lemma HazardIsReachable(configured: Option<nat>, maxQueue: nat) returns (t: State)
    requires Positive(configured, maxQueue)
    ensures Reaches(Start(configured, maxQueue), PRELUDE, t) && Inv(t) && Hazard(t, Driver(Fails))
  {
    var s := Start(configured, maxQueue);
    var w := Waiter(0, ANY_PROFILE);
    assert Remaining(s.core, []) == [];
    assert Reaches(s, [], s);
    var t1 := ReachesStep(s, [], s, Client(Request(ANY_PROFILE)));
    assert t1.core.queue == [w];
    RemainingAll(t1.core, [w]);
    var es1 := [] + [Client(Request(ANY_PROFILE))];
    var t2 := ReachesStep(s, es1, t1, Driver(Decides));
    assert t2.pc == LockWanted(ANY_PROFILE);
    t := PreludeEnds(s, es1 + [Driver(Decides)], t2);
    assert es1 + [Driver(Decides)] + PRELUDE[2..] == PRELUDE;
    StartHolds(configured, maxQueue);
    RunKeeps(s, PRELUDE);
  }

  lemma PreludeEnds(s: State, es: seq<Step>, t2: State) returns (t: State)
    requires Reaches(s, es, t2) && t2.pc == LockWanted(ANY_PROFILE) && t2.barrier.NoBarrier?
    requires t2.core.active == 0 && t2.core.driver.Some? && !t2.core.stopping
    ensures Reaches(s, es + PRELUDE[2..], t) && Hazard(t, Driver(Fails))
  {
    var t3 := ReachesStep(s, es, t2, Driver(Locks));
    var es3 := es + [Driver(Locks)];
    var t4 := ReachesStep(s, es3, t3, Maintenance(BeginUnload));
    var es4 := es3 + [Maintenance(BeginUnload)];
    var t5 := ReachesStep(s, es4, t4, Maintenance(Closes));
    t := SwapFailsCleanly(s, es4 + [Maintenance(Closes)], t5);
    assert es4 + [Maintenance(Closes)] + PRELUDE[5..] == es + PRELUDE[2..];
  }

  lemma SwapFailsCleanly(s: State, es: seq<Step>, t5: State) returns (t: State)
    requires Reaches(s, es, t5) && t5.pc.OldStopping? && t5.barrier.DriverWait? && !t5.core.stopping
    ensures Reaches(s, es + PRELUDE[5..], t) && Hazard(t, Driver(Fails))
  {
    var t6 := ReachesStep(s, es, t5, Driver(StopsOld(false)));
    var es6 := es + [Driver(StopsOld(false))];
    var t7 := ReachesStep(s, es6, t6, Driver(LocksForCleanup));
    var es7 := es6 + [Driver(LocksForCleanup)];
    t := ReachesStep(s, es7, t7, Driver(CleansUp(true)));
    assert es7 + [Driver(CleansUp(true))] == es + PRELUDE[5..];
  }

  ghost predicate Wrecks(s: State, es: seq<Step>) { Run(s, es) && Wedged(Final(s, es)) }

  /** Every fresh coordinator has a run that ends in the wreck. */
  lemma CoordinatorCanWedge(configured: Option<nat>, maxQueue: nat)
    requires Positive(configured, maxQueue)
    ensures exists es :: Wrecks(Start(configured, maxQueue), es)
  {
    var t := HazardIsReachable(configured, maxQueue);
    HazardExact(t);
    var es :| LeadsToWreck(ApplyFailure(t), es);
    WreckFollows(Start(configured, maxQueue), PRELUDE, t, es);
  }

  lemma WreckFollows(s: State, es: seq<Step>, t: State, fs: seq<Step>)
    requires Reaches(s, es, t) && t.pc.Cleaned? && LeadsToWreck(ApplyFailure(t), fs)
    ensures Wrecks(s, es + ([Driver(Fails)] + fs))
  {
    RunCons(t, Driver(Fails), fs);
    RunAppends(s, es, [Driver(Fails)] + fs);
  }

  lemma RunCons(s: State, e: Step, es: seq<Step>)
    requires Enabled(s, e) && Run(Apply(s, e), es)
    ensures Run(s, [e] + es) && Final(s, [e] + es) == Final(Apply(s, e), es)
  {
    assert ([e] + es)[1..] == es;
  }

  lemma {:induction false} RunAppends(s: State, es: seq<Step>, fs: seq<Step>)
    requires Run(s, es) && Run(Final(s, es), fs)
    ensures Run(s, es + fs) && Final(s, es + fs) == Final(Final(s, es), fs)
    decreases |es|
  {
    if es == [] {
      assert es + fs == fs;
    } else {
      assert (es + fs)[1..] == es[1..] + fs;
      RunAppends(Apply(s, es[0]), es[1..], fs);
    }
  }

  // ----- a shutdown that is cancelled too early

  /** A reconfiguration starts a driver that finds nothing to do; a request is queued
      while it leaves; and the shutdown that keeps it from starting a successor is
      cancelled before it fails the queue. */
  function Strand(configured: Option<nat>, maxQueue: nat): seq<Step> {
    [Client(Reconfigured(configured, maxQueue)), Driver(Decides)] + DESERTION
  }

  const DESERTION := [Client(Request(ANY_PROFILE)), Maintenance(BeginShutdown), Driver(Exits), Maintenance(Abandons)]

  /** The one exception to the rule that nobody is stranded. */
  lemma DesertionStrands(configured: Option<nat>, maxQueue: nat)
    requires Positive(configured, maxQueue)
    ensures Run(Start(configured, maxQueue), Strand(configured, maxQueue))
    ensures HazardFree(Start(configured, maxQueue), Strand(configured, maxQueue))
    ensures var s := Final(Start(configured, maxQueue), Strand(configured, maxQueue));
      && 0 in s.waiting && 0 in s.core.futures && s.core.futures[0].Pending?
      && s.core.driver.None? && s.pc.NoTask? && s.barrier.NoBarrier?
  {
    var s := Start(configured, maxQueue);
    assert Remaining(s.core, []) == [];
    assert Reaches(s, [], s);
    var t1 := ReachesStep(s, [], s, Client(Reconfigured(configured, maxQueue)));
    var es1 := [] + [Client(Reconfigured(configured, maxQueue))];
    assert Remaining(t1.core, []) == [];
    var t2 := ReachesStep(s, es1, t1, Driver(Decides));
    var es2 := es1 + [Driver(Decides)];
    assert t2.pc.Returning? && t2.core.driver.Some? && t2.core.queue == [] && t2.nextId == 0 && Open(t2.core);
    var t := QueuedBehind(s, es2, t2);
    assert es2 + DESERTION == Strand(configured, maxQueue);
  }

  lemma QueuedBehind(s: State, es: seq<Step>, t2: State) returns (t: State)
    requires Reaches(s, es, t2) && t2.pc.Returning? && t2.core.driver.Some? && t2.core.queue == [] && t2.nextId == 0
    requires Open(t2.core) && t2.core.resident.None? && t2.core.maxQueue >= 1 && t2.barrier.NoBarrier?
    ensures Reaches(s, es + DESERTION, t)
    ensures 0 in t.waiting && 0 in t.core.futures && t.core.futures[0].Pending?
    ensures t.core.driver.None? && t.pc.NoTask? && t.barrier.NoBarrier?
  {
    assert Remaining(t2.core, []) == [];
    var t3 := ReachesStep(s, es, t2, Client(Request(ANY_PROFILE)));
    var es3 := es + [Client(Request(ANY_PROFILE))];
    var t4 := ReachesStep(s, es3, t3, Maintenance(BeginShutdown));
    var es4 := es3 + [Maintenance(BeginShutdown)];
    var t5 := ReachesStep(s, es4, t4, Driver(Exits));
    var es5 := es4 + [Driver(Exits)];
    t := ReachesStep(s, es5, t5, Maintenance(Abandons));
    assert es5 + [Maintenance(Abandons)] == es + DESERTION;
  }

  // ----- exactly when a cancelled shutdown strands somebody

  /** Somebody waits, and there is neither a driver nor a barrier about to look. */
  ghost predicate Stranded(s: State) { s.core.queue != [] && s.core.driver.None? && !s.barrier.Entering? }

  ghost predicate LeadsToStranding(s: State, es: seq<Step>) { Run(s, es) && Stranded(Final(s, es)) }

  lemma {:induction false} NeverStrands(s: State, es: seq<Step>)
    requires Inv(s) && s.core.stopping && !Unattended(s) && Run(s, es)
    ensures !Stranded(Final(s, es))
    decreases |es|
  {
    if es != [] {
      StoppingLasts(s, es[0]);
      StepKeeps(s, es[0]);
      StaysAttended(s, es[0]);
      NeverStrands(Apply(s, es[0]), es[1..]);
    }
  }

  lemma StaysAttended(s: State, e: Step)
    requires Inv(s) && s.core.stopping && !Unattended(s) && Enabled(s, e)
    ensures !Unattended(Apply(s, e))
  {
    match e
    case Client(c) => ClientAttends(s, c);
    case Driver(d) => DriverAttends(s, d);
    case Maintenance(b) => BarrierAppendsNothing(s, b);
  }

  lemma BarrierAppendsNothing(s: State, e: BarrierStep)
    requires BarrierEnabled(s, e)
    ensures Unattended(ApplyBarrier(s, e)) ==> Unattended(s)
  {
  }

  /** The exact condition: a shutdown cancelled before its first critical section can
      leave a waiter to nobody if and only if somebody waits at that moment and no
      driver will look at the queue again. */
  lemma DesertionExact(s: State)
    requires Inv(s) && s.barrier.Entering? && s.barrier.stop
    ensures (exists es :: LeadsToStranding(Apply(s, Maintenance(Abandons)), es)) <==> Unattended(s)
  {
    var t := Apply(s, Maintenance(Abandons));
    BarrierKeeps(s, Abandons);
    if Unattended(s) {
      if s.core.driver.None? {
        assert LeadsToStranding(t, []);
      } else {
        RunCons(t, Driver(Exits), []);
        assert LeadsToStranding(t, [Driver(Exits)] + []);
      }
    } else {
      forall es | Run(t, es) ensures !LeadsToStranding(t, es) {
        NeverStrands(t, es);
      }
    }
  }
}
