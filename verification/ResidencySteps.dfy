/** Each step of the protocol keeps the invariant, so every hazard-free run does. */
module ResidencySteps {
  import opened Options
  import opened ResidencyCore
  import opened ResidencyProtocol
  import opened ResidencyInvariant

  // ----- clients: the ledger

  /** The fast path: one permit on the resident, past an empty queue. */
  lemma LeaseLedger(s: State, t: State, w: Waiter)
    requires Ledger(s) && s.core.queue == []
    requires ResidentId(s.core) == Some(w.profile.deployment) && w.id == s.nextId
    requires t == s.(core := s.core.(active := s.core.active + 1), nextId := s.nextId + 1)
    ensures Ledger(Issue(t, [w], s.core.epoch))
  {
    IssueOne(t, w, s.core.epoch);
    var u := Issue(t, [w], s.core.epoch);
    assert u.permits.Keys == s.permits.Keys + {w.id};
    assert |u.permits| == |u.permits.Keys|;
  }

  lemma AppendOrdered(s: State, t: State, w: Waiter)
    requires QueueOrdered(s) && w.id == s.nextId && t.nextId == s.nextId + 1
    requires t.core.queue == s.core.queue + [w] && t.core.futures == s.core.futures[w.id := Pending]
    requires t.waiting == s.waiting + {w.id} && t.lastGrant == s.lastGrant && t.core.cancelled == s.core.cancelled
    ensures QueueOrdered(t)
  {
  }

  lemma AppendAccounted(s: State, t: State, w: Waiter)
    requires WaitersAccounted(s) && PermitsCounted(s) && QueueOrdered(s)
    requires w.id == s.nextId && t.nextId == s.nextId + 1 && t.permits == s.permits
    requires t.core.queue == s.core.queue + [w] && t.core.futures == s.core.futures[w.id := Pending]
    requires t.waiting == s.waiting + {w.id} && t.core.cancelled == s.core.cancelled
    ensures WaitersAccounted(t)
  {
    assert w in t.core.queue;
    assert forall v :: v in s.core.queue ==> v in t.core.queue;
    forall id | id in t.waiting && t.core.futures[id].Pending?
      ensures id in Ids(t.core.queue)
    {
      if id != w.id {
        var v :| v in s.core.queue && v.id == id;
      }
    }
  }

  lemma RemovePermit(s: State, id: nat)
    requires PermitsCounted(s) && id in s.permits
    ensures |s.permits - {id}| == |s.permits| - 1 && s.core.active > 0 && s.permits[id].epoch == s.core.epoch
  {
    assert (s.permits - {id}).Keys == s.permits.Keys - {id};
    assert |s.permits| == |s.permits.Keys| && |s.permits - {id}| == |(s.permits - {id}).Keys|;
  }

  /** A caller that gives up a settled future, or returns its permit, leaves queue and futures alone. */
  lemma DepartureLedger(s: State, t: State, id: nat)
    requires Ledger(s) && (id in s.waiting ==> !s.core.futures[id].Pending?)
    requires t.core.queue == s.core.queue && t.core.futures == s.core.futures
    requires t.core.cancelled <= s.core.cancelled + {id} && t.waiting == s.waiting - {id} &&
      t.permits == s.permits - {id}
    requires id < s.nextId && t.nextId == s.nextId && t.lastGrant == s.lastGrant
    requires t.core.active == |t.permits| && t.core.epoch == s.core.epoch && ResidentId(t.core) == ResidentId(s.core)
    ensures Ledger(t)
  {
  }

  lemma {:induction false} RemainingConcat(c: Core, a: seq<Waiter>, b: seq<Waiter>)
    ensures Remaining(c, a + b) == Remaining(c, a) + Remaining(c, b)
  {
    if a == [] {
      assert a + b == b;
    } else {
      assert (a + b)[1..] == a[1..] + b;
      RemainingConcat(c, a[1..], b);
    }
  }

  /** Cancelling a queued waiter takes exactly that waiter out of the queue. */
  lemma PurgeOne(c: Core, k: nat)
    requires k < |c.queue| && Gone(c, c.queue[k])
    requires forall i :: 0 <= i < |c.queue| && i != k ==> !Gone(c, c.queue[i])
    ensures Remaining(c, c.queue) == c.queue[..k] + c.queue[k + 1..]
  {
    var q := c.queue;
    assert q == q[..k] + (q[k..k + 1] + q[k + 1..]);
    RemainingConcat(c, q[..k], q[k..k + 1] + q[k + 1..]);
    RemainingConcat(c, q[k..k + 1], q[k + 1..]);
    RemainingAll(c, q[..k]);
    RemainingAll(c, q[k + 1..]);
    assert Remaining(c, q[k..k + 1]) == [];
  }

  lemma QueueWithoutOrdered(s: State, t: State, k: nat)
    requires QueueOrdered(s) && k < |s.core.queue|
    requires var id := s.core.queue[k].id;
      && t.core.queue == s.core.queue[..k] + s.core.queue[k + 1..]
      && t.core.cancelled == s.core.cancelled + {id} && t.waiting == s.waiting - {id}
      && t.core.futures == s.core.futures[id := Cancelled]
    requires t.nextId == s.nextId && t.lastGrant == s.lastGrant
    ensures QueueOrdered(t)
  {
    var q, r := s.core.queue, t.core.queue;
    assert forall i :: 0 <= i < |r| ==> r[i] == if i < k then q[i] else q[i + 1];
  }

  lemma QueueWithoutAccounted(s: State, t: State, k: nat)
    requires WaitersAccounted(s) && k < |s.core.queue|
    requires var id := s.core.queue[k].id;
      && t.core.queue == s.core.queue[..k] + s.core.queue[k + 1..]
      && t.core.cancelled == s.core.cancelled + {id} && t.waiting == s.waiting - {id}
      && t.core.futures == s.core.futures[id := Cancelled]
    requires t.nextId == s.nextId && t.permits == s.permits
    ensures WaitersAccounted(t)
  {
    var q := s.core.queue;
    forall other | other in t.waiting && t.core.futures[other].Pending?
      ensures other in Ids(t.core.queue)
    {
      var v :| v in q && v.id == other;
      assert v in q[..k] + q[k + 1..];
    }
  }

  lemma QueueIndex(s: State, id: nat) returns (k: nat)
    requires WaitersAccounted(s) && id in s.waiting && s.core.futures[id].Pending?
    ensures k < |s.core.queue| && s.core.queue[k].id == id && id !in s.permits
  {
    var w :| w in s.core.queue && w.id == id;
    k :| 0 <= k < |s.core.queue| && s.core.queue[k] == w;
  }

  /** What a cancellation makes of the coordinator, by the state of the future. */
  ghost predicate CancelledInto(s: State, id: nat, t: State) {
    && id in s.core.futures
    && t == s.(core := t.core, waiting := s.waiting - {id}, permits := s.permits - {id})
    && t.core == s.core.(cancelled := s.core.cancelled + {id}, notified := s.core.notified + 1, queue := t.core.queue,
                         active := t.core.active, futures := t.core.futures)
    && |t.core.queue| <= |s.core.queue|
    && t.core.active <= s.core.active
  }

  lemma CancelShape(s: State, id: nat, settled: Core, purged: Core)
    requires id in s.waiting && id !in s.core.cancelled && id in s.core.futures
    requires settled == match s.core.futures[id]
      case Granted(epoch) => ReleaseLocked(s.core.(cancelled := s.core.cancelled + {id}), epoch)
      case Pending => s.core.(cancelled := s.core.cancelled + {id}, futures := s.core.futures[id := Cancelled])
      case _ => s.core.(cancelled := s.core.cancelled + {id})
    requires purged == Purge(settled)
    ensures ApplyCancel(s, id)
         == s.(core := Notify(purged), waiting := s.waiting - {id}, permits := s.permits - {id})
  {
  }

  lemma RemoveAbsent(permits: map<nat, Permit>, id: nat)
    requires id !in permits
    ensures permits - {id} == permits
  {
  }

  lemma CancelGranted(s: State, id: nat)
    requires Ledger(s) && id in s.waiting && s.core.futures[id].Granted?
    ensures var t := ApplyCancel(s, id); Ledger(t) && CancelledInto(s, id, t)
  {
    RemovePermit(s, id);
    var marked := s.core.(cancelled := s.core.cancelled + {id}, active := s.core.active - 1);
    var t := s.(core := Notify(marked), waiting := s.waiting - {id}, permits := s.permits - {id});
    assert ApplyCancel(s, id) == t by {
      RemainingAll(marked, marked.queue);
      CancelShape(s, id, marked, marked);
    }
    DepartureLedger(s, t, id);
  }

  lemma CancelFailed(s: State, id: nat)
    requires Ledger(s) && id in s.waiting && s.core.futures[id].Failed?
    ensures var t := ApplyCancel(s, id); Ledger(t) && CancelledInto(s, id, t)
  {
    var marked := s.core.(cancelled := s.core.cancelled + {id});
    var t := s.(core := Notify(marked), waiting := s.waiting - {id});
    RemoveAbsent(s.permits, id);
    CancelFailedLedger(s, t, id);
    RemainingAll(marked, marked.queue);
    CancelFailedShape(s, id, marked);
  }

  lemma CancelFailedLedger(s: State, t: State, id: nat)
    requires Ledger(s) && id in s.waiting && s.core.futures[id].Failed? && s.permits - {id} == s.permits
    requires t == s.(core := Notify(s.core.(cancelled := s.core.cancelled + {id})), waiting := s.waiting - {id})
    ensures Ledger(t) && CancelledInto(s, id, t)
  {
    DepartureLedger(s, t, id);
  }

  lemma CancelFailedShape(s: State, id: nat, marked: Core)
    requires id in s.waiting && id !in s.core.cancelled && id in s.core.futures && s.core.futures[id].Failed?
    requires marked == s.core.(cancelled := s.core.cancelled + {id}) && Purge(marked) == marked && id !in s.permits
    ensures ApplyCancel(s, id) == s.(core := Notify(marked), waiting := s.waiting - {id})
  {
    RemoveAbsent(s.permits, id);
    CancelShape(s, id, marked, marked);
  }

  lemma CancelPending(s: State, id: nat)
    requires Ledger(s) && id in s.waiting && s.core.futures[id].Pending?
    ensures var t := ApplyCancel(s, id); Ledger(t) && CancelledInto(s, id, t)
  {
    var k := QueueIndex(s, id);
    CancelPendingShape(s, id, k);
    var t := ApplyCancel(s, id);
    QueueWithoutOrdered(s, t, k);
    QueueWithoutAccounted(s, t, k);
  }

  lemma CancelPendingShape(s: State, id: nat, k: nat)
    requires id in s.waiting && id !in s.core.cancelled && id in s.core.futures && s.core.futures[id].Pending?
    requires k < |s.core.queue| && s.core.queue[k].id == id && id !in s.permits
    requires forall i :: 0 <= i < |s.core.queue| && i != k ==>
      !Gone(s.core, s.core.queue[i]) && s.core.queue[i].id != id
    ensures ApplyCancel(s, id)
         == s.(core := s.core.(queue := s.core.queue[..k] + s.core.queue[k + 1..],
                               cancelled := s.core.cancelled + {id},
                               futures := s.core.futures[id := Cancelled],
                               notified := s.core.notified + 1),
               waiting := s.waiting - {id})
  {
    var c := s.core.(cancelled := s.core.cancelled + {id}, futures := s.core.futures[id := Cancelled]);
    PurgeOne(c, k);
    RemoveAbsent(s.permits, id);
    CancelShape(s, id, c, c.(queue := s.core.queue[..k] + s.core.queue[k + 1..]));
  }

  // ----- clients: control

  lemma LeaseControl(s: State, t: State)
    requires Control(s) && Open(s.core) && s.core.mode == Ready && s.core.queue == []
    requires t == s.(core := s.core.(active := s.core.active + 1), permits := t.permits, nextId := t.nextId,
      lastGrant := t.lastGrant)
    ensures Control(t)
  {
  }

  lemma AppendControl(s: State, t: State, w: Waiter)
    requires Control(s) && Open(s.core)
    requires t == With(s, Notify(EnsureDriver(s.core.(queue := s.core.queue + [w],
                                                      futures := s.core.futures[w.id := Pending]))))
                  .(nextId := t.nextId, waiting := t.waiting)
    ensures Control(t)
  {
  }

  lemma CancelControl(s: State, id: nat, t: State)
    requires Control(s) && CancelledInto(s, id, t)
    ensures Control(t)
  {
  }

  lemma ReturnControl(s: State, id: nat)
    requires Control(s) && id in s.permits && id !in s.waiting
    requires s.core.active > 0 && s.permits[id].epoch == s.core.epoch
    ensures Control(ApplyReturn(s, id))
  {
  }

  lemma LeasedKeeps(s: State, w: Waiter)
    requires Inv(s) && Open(s.core) && s.core.mode == Ready && s.core.queue == []
    requires ResidentId(s.core) == Some(w.profile.deployment) && w.id == s.nextId
    ensures Inv(Issue(s.(core := s.core.(active := s.core.active + 1), nextId := s.nextId + 1), [w], s.core.epoch))
  {
    var t := s.(core := s.core.(active := s.core.active + 1), nextId := s.nextId + 1);
    LeaseLedger(s, t, w);
    IssueOne(t, w, s.core.epoch);
    LeaseControl(s, Issue(t, [w], s.core.epoch));
  }

  lemma QueuedKeeps(s: State, w: Waiter, t: State)
    requires Inv(s) && Open(s.core) && w.id == s.nextId
    requires t == With(s, Notify(EnsureDriver(s.core.(queue := s.core.queue + [w],
                                                      futures := s.core.futures[w.id := Pending]))))
                  .(nextId := s.nextId + 1, waiting := s.waiting + {s.nextId})
    ensures Inv(t)
  {
    AppendOrdered(s, t, w);
    AppendAccounted(s, t, w);
    AppendControl(s, t, w);
  }

  lemma RequestKeeps(s: State, profile: Profile)
    requires Inv(s)
    ensures Inv(ApplyRequest(s, profile))
  {
    PurgeKeeps(s);
    var admission := Acquire(s.core, s.nextId, profile).1;
    var w := Waiter(s.nextId, profile);
    match admission
    case Leased(_) => LeasedKeeps(s, w);
    case Queued => QueuedKeeps(s, w, ApplyRequest(s, profile));
    case _ =>
  }

  lemma RequestCurrentKeeps(s: State)
    requires Inv(s)
    ensures Inv(ApplyRequestCurrent(s))
  {
    var (c, admission) := AcquireCurrent(s.core);
    if admission.Leased? {
      LeasedKeeps(s, Waiter(s.nextId, c.resident.value));
    }
  }

  lemma CancelKeeps(s: State, id: nat)
    requires Inv(s) && id in s.waiting
    ensures Inv(ApplyCancel(s, id))
  {
    match s.core.futures[id] {
      case Granted(_) => CancelGranted(s, id);
      case Pending => CancelPending(s, id);
      case _ => CancelFailed(s, id);
    }
    CancelControl(s, id, ApplyCancel(s, id));
  }

  /** Returning a permit is never discarded: the count falls by one. */
  lemma ReturnKeeps(s: State, id: nat)
    requires Inv(s) && id in s.permits && id !in s.waiting
    ensures Inv(ApplyReturn(s, id))
    ensures ApplyReturn(s, id).core.active == s.core.active - 1
  {
    RemovePermit(s, id);
    ReturnControl(s, id);
    DepartureLedger(s, ApplyReturn(s, id), id);
  }

  // ----- failing waiters

  lemma IdsOfPrefix(q: seq<Waiter>, n: nat, i: nat)
    requires n <= |q| && i < |q|
    requires forall j, k :: 0 <= j < k < |q| ==> q[j].id < q[k].id
    ensures q[i].id in Ids(q[..n]) <==> i < n
  {
    if i < n {
      assert q[i] in q[..n];
    }
  }

  lemma FailPrefixOrdered(s: State, t: State, n: nat)
    requires QueueOrdered(s) && n <= |s.core.queue|
    requires t.core.queue == s.core.queue[n..] && t.core.futures == FailFutures(s.core.futures, s.core.queue[..n])
    requires t.core.cancelled == s.core.cancelled && t.waiting == s.waiting
    requires t.nextId == s.nextId && t.lastGrant == s.lastGrant
    ensures QueueOrdered(t)
  {
    var q := s.core.queue;
    forall i | 0 <= i < |t.core.queue|
      ensures t.core.queue[i] == q[n + i] && t.core.futures[q[n + i].id] == Pending
    {
      IdsOfPrefix(q, n, n + i);
    }
  }

  lemma FailPrefixAccounted(s: State, t: State, n: nat)
    requires WaitersAccounted(s) && n <= |s.core.queue|
    requires t.core.queue == s.core.queue[n..] && t.core.futures == FailFutures(s.core.futures, s.core.queue[..n])
    requires t.core.cancelled == s.core.cancelled && t.waiting == s.waiting && t.permits == s.permits
    requires t.nextId == s.nextId
    ensures WaitersAccounted(t)
  {
    var q := s.core.queue;
    forall id | id in t.waiting && t.core.futures[id].Pending?
      ensures id in Ids(t.core.queue)
    {
      var w :| w in q && w.id == id;
      assert w in q[..n] || w in q[n..];
    }
  }

  /** Failing a prefix of the queue keeps order and accounts for every caller. */
  lemma FailPrefixKeeps(s: State, t: State, n: nat)
    requires QueueOrdered(s) && WaitersAccounted(s) && n <= |s.core.queue|
    requires t.core.queue == s.core.queue[n..] && t.core.futures == FailFutures(s.core.futures, s.core.queue[..n])
    requires t.core.cancelled == s.core.cancelled && t.waiting == s.waiting && t.permits == s.permits
    requires t.nextId == s.nextId && t.lastGrant == s.lastGrant
    ensures QueueOrdered(t) && WaitersAccounted(t)
  {
    FailPrefixOrdered(s, t, n);
    FailPrefixAccounted(s, t, n);
  }

  lemma FailAllKeeps(s: State, t: State)
    requires QueueOrdered(s) && WaitersAccounted(s)
    requires t.core.queue == FailAll(s.core).queue && t.core.futures == FailAll(s.core).futures
    requires t.core.cancelled == s.core.cancelled && t.waiting == s.waiting && t.permits == s.permits
    requires t.nextId == s.nextId && t.lastGrant == s.lastGrant
    ensures QueueOrdered(t) && WaitersAccounted(t)
  {
    assert s.core.queue[..|s.core.queue|] == s.core.queue;
    FailPrefixKeeps(s, t, |s.core.queue|);
  }

  // ----- the driver

  lemma DecisionClosed(s: State)
    requires Control(s) && s.pc.Deciding? && Purge(s.core) == s.core && !Open(s.core)
    ensures Control(ApplyDecision(s))
  {
  }

  lemma DecisionIdle(s: State)
    requires Control(s) && s.pc.Deciding? && Purge(s.core) == s.core && Open(s.core) && s.core.queue == []
    ensures Control(ApplyDecision(s)) && SameLedger(s, ApplyDecision(s))
  {
  }

  lemma DecisionSwap(s: State)
    requires Control(s) && s.pc.Deciding? && Purge(s.core) == s.core && Open(s.core) && s.core.queue != []
    requires ResidentId(s.core) != Some(s.core.queue[0].profile.deployment)
    ensures Control(ApplyDecision(s)) && SameLedger(s, ApplyDecision(s))
  {
  }

  lemma DecisionGrant(s: State, deployment: DeploymentId)
    requires Inv(s) && s.pc.Deciding? && Open(s.core) && s.core.queue != []
    requires s.core.queue[0].profile.deployment == deployment && ResidentId(s.core) == Some(deployment)
    requires Purge(s.core) == s.core
    ensures Inv(ApplyDecision(s))
  {
    var (g, granted) := GrantHead(s.core, deployment);
    GrantHeadKeeps(s, deployment);
    GrantHeadShape(s.core, deployment);
    var t := Issue(s.(core := g), granted, s.core.epoch);
    IssueFrame(s.(core := g), granted, s.core.epoch);
    if granted != [] {
      IssueCore(s, g, Decide(s.core).0, granted, s.core.epoch);
      GrantedControl(s, t, ApplyDecision(s));
      LedgerFrame(t, ApplyDecision(s));
    } else {
      assert s.core.queue[0..] == s.core.queue;
      ParkControl(s, ApplyDecision(s));
      LedgerFrame(s, ApplyDecision(s));
    }
  }

  lemma {:induction false} IssueCore(s: State, g: Core, d: Core, ws: seq<Waiter>, epoch: nat)
    ensures Issue(s.(core := d), ws, epoch) == Issue(s.(core := g), ws, epoch).(core := d)
    decreases |ws|
  {
    if ws != [] {
      var w := ws[0];
      IssueCore(s.(permits := s.permits[w.id := Permit(w.profile.deployment, epoch)], lastGrant := w.id), g, d,
        ws[1..], epoch);
    }
  }

  lemma GrantedControl(s: State, t: State, u: State)
    requires Control(s) && s.pc.Deciding? && Open(s.core)
    requires t == s.(core := t.core, permits := t.permits, lastGrant := t.lastGrant)
    requires t.core == s.core.(queue := t.core.queue, active := t.core.active, futures := t.core.futures)
    requires s.core.queue != [] && s.core.resident.Some?
    requires u == t.(core := Notify(t.core))
    ensures Control(u)
  {
  }

  lemma ParkControl(s: State, t: State)
    requires Control(s) && s.pc.Deciding? && Open(s.core) && Blocked(s.core) && s.core.resident.Some?
    requires t == s.(core := SetMode(s.core, Ready, None, None), pc := Parked(s.core.notified))
    ensures Control(t)
  {
  }

  lemma DecisionKeeps(s: State)
    requires Inv(s) && s.pc.Deciding?
    ensures Inv(ApplyDecision(s))
  {
    PurgeKeeps(s);
    var c := s.core;
    if !Open(c) {
      DecisionClosed(s);
      FailAllKeeps(s, ApplyDecision(s));
    } else if c.queue == [] {
      DecisionIdle(s);
      LedgerFrame(s, ApplyDecision(s));
    } else if ResidentId(c) == Some(c.queue[0].profile.deployment) {
      DecisionGrant(s, c.queue[0].profile.deployment);
    } else {
      DecisionSwap(s);
      LedgerFrame(s, ApplyDecision(s));
    }
  }

  lemma FailTransitionControl(s: State)
    requires Control(s) && s.pc.Cleaned? && !Hazard(s, Driver(Fails))
    ensures Control(ApplyFailure(s))
  {
  }

  lemma FailTransitionKeeps(s: State)
    requires Inv(s) && s.pc.Cleaned? && !Hazard(s, Driver(Fails))
    ensures Inv(ApplyFailure(s))
  {
    FailTransitionControl(s);
    FailPrefixKeeps(s, ApplyFailure(s), HeadRun(s.core.queue, s.pc.failed));
    assert s.permits == map[];
  }

  lemma SwapControl(s: State, e: DriverStep)
    requires Control(s) && DriverEnabled(s, e) && !e.Decides? && !e.Wakes? && !e.Fails? && !e.Commits? && !e.Exits?
    ensures Control(ApplySwap(s, e)) && SameLedger(s, ApplySwap(s, e))
    ensures ApplySwap(s, e).core.epoch == s.core.epoch && ApplySwap(s, e).core.resident == s.core.resident
  {
  }

  lemma CommitControl(s: State)
    requires Control(s) && s.pc.Loaded?
    ensures Control(ApplyCommit(s)) && SameLedger(s, ApplyCommit(s))
  {
  }

  lemma ExitControl(s: State)
    requires Control(s) && s.pc.Returning?
    ensures Control(ApplyExit(s)) && SameLedger(s, ApplyExit(s))
  {
  }

  lemma DriverKeeps(s: State, e: DriverStep)
    requires Inv(s) && DriverEnabled(s, e) && !Hazard(s, Driver(e))
    ensures Inv(ApplyDriver(s, e))
  {
    match e
    case Decides => DecisionKeeps(s);
    case Wakes => LedgerFrame(s, ApplyDriver(s, e));
    case Fails => FailTransitionKeeps(s);
    case Commits => CommitControl(s); LedgerFrame(s, ApplyCommit(s));
    case Exits => ExitControl(s); LedgerFrame(s, ApplyExit(s));
    case _ => SwapControl(s, e); LedgerFrame(s, ApplySwap(s, e));
  }

  // ----- the barrier

  lemma CloseControl(s: State)
    requires Control(s) && s.barrier.Entering?
    ensures Control(ApplyClose(s))
  {
    var c := CloseAdmission(s.core, s.barrier.stop, s.barrier.closed);
    DrainControl(s.(core := c), s.barrier.stop);
  }

  lemma DrainControl(s: State, stop: bool)
    requires Limits(s.core) && DriverConsistent(s) && ModeConsistent(s)
    requires s.barrier.Entering? || s.barrier.DrainWait?
    requires !s.core.accepting && s.core.queue == [] && (stop ==> s.core.stopping)
    ensures Control(DrainCheck(s, stop)) && SameLedger(s, DrainCheck(s, stop))
  {
  }

  lemma BeginControl(s: State, e: BarrierStep)
    requires Control(s) && BarrierEnabled(s, e)
    requires e.BeginUnload? || e.BeginEvict? || e.BeginShutdown? || e.SeesDriverGone? || e.Abandons?
    ensures Control(ApplyBarrier(s, e)) && SameLedger(s, ApplyBarrier(s, e))
  {
  }

  lemma EndControl(s: State, e: BarrierStep)
    requires Control(s) && BarrierEnabled(s, e)
    requires e.DrainExpires? || e.LocksEngine? || e.StopsEngine? || e.Reopens? || e.GivesUp?
    ensures Control(ApplyBarrier(s, e)) && SameLedger(s, ApplyBarrier(s, e))
  {
    if e.DrainExpires? {
      DrainExpiresControl(s);
    } else if e.Reopens? {
      ReopensControl(s);
    }
  }

  /** A drain that times out leaves the resident and its permits in service. */
  lemma DrainExpiresControl(s: State)
    requires Control(s) && s.barrier.DrainWait?
    ensures Control(s.(core := DrainTimeout(s.core, s.barrier.stop), barrier := NoBarrier))
  {
  }

  /** Reopening without a resident leaves no permit and no engine behind. */
  lemma ReopensControl(s: State)
    requires Control(s) && s.barrier.StopDone?
    ensures Control(s.(core := Reopen(s.core, s.barrier.stop), barrier := NoBarrier))
    ensures s.core.active == 0
  {
  }

  lemma BarrierKeeps(s: State, e: BarrierStep)
    requires Inv(s) && BarrierEnabled(s, e)
    ensures Inv(ApplyBarrier(s, e))
  {
    if e.Closes? {
      CloseControl(s);
      FailAllKeeps(s, ApplyClose(s));
    } else {
      BarrierMoveControl(s, e);
      LedgerFrame(s, ApplyBarrier(s, e));
    }
  }

  lemma BarrierMoveControl(s: State, e: BarrierStep)
    requires Control(s) && BarrierEnabled(s, e) && !e.Closes?
    ensures var t := ApplyBarrier(s, e);
      && Control(t) && SameLedger(s, t)
      && (s.core.active == 0 || (t.core.epoch == s.core.epoch && ResidentId(t.core) == ResidentId(s.core)))
  {
    match e
    case SeesNotification => DrainControl(s, s.barrier.stop);
    case _ =>
      if e.BeginUnload? || e.BeginEvict? || e.BeginShutdown? || e.SeesDriverGone? || e.Abandons? {
        BeginControl(s, e);
      } else {
        EndControl(s, e);
      }
  }

  // ----- runs

  lemma ReconfiguredControl(s: State, configured: Option<nat>, maxQueue: nat)
    requires Control(s) && Positive(configured, maxQueue)
    ensures var t := ApplyReconfigured(s, configured, maxQueue); Control(t) && SameLedger(s, t)
  {
  }

  lemma ClaimKeeps(s: State, id: nat)
    requires Inv(s)
    ensures id in s.waiting && !s.core.futures[id].Pending? ==> Inv(s.(waiting := s.waiting - {id}))
  {
  }

  lemma ClientKeeps(s: State, e: ClientStep)
    requires Inv(s) && ClientEnabled(s, e)
    ensures Inv(ApplyClient(s, e))
  {
    match e
    case Request(profile) => RequestKeeps(s, profile);
    case RequestCurrent => RequestCurrentKeeps(s);
    case Claim(id) => ClaimKeeps(s, id);
    case ObserveFailure(id) => ClaimKeeps(s, id);
    case Cancel(id) => CancelKeeps(s, id);
    case ReturnPermit(id) => ReturnKeeps(s, id);
    case Reconfigured(configured, maxQueue) =>
      ReconfiguredControl(s, configured, maxQueue);
      LedgerFrame(s, ApplyReconfigured(s, configured, maxQueue));
    case TakeStatus => PurgeKeeps(s);
  }

  lemma StepKeeps(s: State, e: Step)
    requires Inv(s) && Enabled(s, e) && !Hazard(s, e)
    ensures Inv(Apply(s, e))
  {
    match e
    case Client(c) => ClientKeeps(s, c);
    case Driver(d) => DriverKeeps(s, d);
    case Maintenance(b) => BarrierKeeps(s, b);
  }

  lemma StartHolds(configured: Option<nat>, maxQueue: nat)
    requires Positive(configured, maxQueue)
    ensures Inv(Start(configured, maxQueue))
  {
  }

  /** Every state of a hazard-free run satisfies the invariant. */
  lemma {:induction false} RunKeeps(s: State, es: seq<Step>)
    requires Inv(s) && Run(s, es) && HazardFree(s, es)
    ensures Inv(Final(s, es))
    decreases |es|
  {
    if es != [] {
      StepKeeps(s, es[0]);
      RunKeeps(Apply(s, es[0]), es[1..]);
    }
  }
}
