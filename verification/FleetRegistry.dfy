/**
 The gateway's registry of node snapshots: which snapshots it accepts, and why a
 delayed or replayed one can never take a node back to an earlier process.
 */
module FleetRegistry {
  import opened Options
  import opened FleetWire

  /** Nodes are numbered in the order of their names. */
  type NodeId = nat
  type InstanceId = nat

  /** Which process spoke, and its how-manieth snapshot this is. */
  datatype Stamp = Stamp(instance: InstanceId, sequence: nat)

  datatype Report = Report(stamp: Stamp, body: Snapshot)

  datatype Record = Record(node: NodeId, report: Report, received: real, pollStarted: real)

  datatype PollError = NotPolled | InstanceReplayed | SequenceReplayed | ChurnExhausted

  const MAX_RETIRED := 1024

  /** What the registry keeps for one node. */
  datatype Fence = Fence(record: Option<Record>, retired: set<InstanceId>)

  /** The verdict on a validated snapshot. */
  function Offer(f: Fence, offered: Record): (Fence, Option<PollError>) {
    var instance := offered.report.stamp.instance;
    if instance in f.retired then (f, Some(InstanceReplayed))
    else if f.record.None? then (f.(record := Some(offered)), None)
    else
      var prior := f.record.value.report.stamp;
      if prior.instance == instance then
        if offered.report.stamp.sequence <= prior.sequence then (f, Some(SequenceReplayed))
        else (f.(record := Some(offered)), None)
      else if |f.retired| >= MAX_RETIRED then (f, Some(ChurnExhausted))
      else (Fence(Some(offered), f.retired + {prior.instance}), None)
  }

  class NodeRegistry {
    var records: map<NodeId, Record>
    var errors: map<NodeId, Option<PollError>>
    var retired: map<NodeId, set<InstanceId>>

    constructor (nodes: set<NodeId>)
      ensures records == map[] && retired == (map n | n in nodes :: {})
    {
      records := map[];
      errors := map n | n in nodes :: Some(NotPolled);
      retired := map n | n in nodes :: {};
    }

    function FenceOf(node: NodeId): Fence
      reads this
      requires node in retired
    {
      Fence(if node in records then Some(records[node]) else None, retired[node])
    }

    /** The acceptance part of one poll; other nodes are untouched. */
    method Accept(node: NodeId, report: Report, received: real, started: real) returns (accepted: bool)
      requires node in retired
      modifies this
      ensures retired.Keys == old(retired.Keys)
      ensures var (f, error) := Offer(old(FenceOf(node)), Record(node, report, received, started));
        FenceOf(node) == f && accepted == error.None? && errors == old(errors)[node := error]
      ensures !accepted ==> records == old(records) && retired == old(retired)
      ensures forall n :: n in retired && n != node ==> FenceOf(n) == old(FenceOf(n))
    {
      var instance := report.stamp.instance;
      if instance in retired[node] {
        errors := errors[node := Some(InstanceReplayed)];
        return false;
      }
      if node in records && records[node].report.stamp.instance == instance &&
        report.stamp.sequence <= records[node].report.stamp.sequence {
        errors := errors[node := Some(SequenceReplayed)];
        return false;
      }
      if node in records && records[node].report.stamp.instance != instance {
        if |retired[node]| >= MAX_RETIRED {
          errors := errors[node := Some(ChurnExhausted)];
          return false;
        }
        retired := retired[node := retired[node] + {records[node].report.stamp.instance}];
      }
      records := records[node := Record(node, report, received, started)];
      errors := errors[node := None];
      return true;
    }
  }

  // ----- the history of accepted snapshots

  /** The stamps accepted from a sequence of offers, after those of `h`. */
  function AcceptedFrom(f: Fence, h: seq<Stamp>, offers: seq<Record>): seq<Stamp>
    decreases |offers|
  {
    if offers == [] then h
    else
      var (g, error) := Offer(f, offers[0]);
      AcceptedFrom(g, if error.None? then h + [offers[0].report.stamp] else h, offers[1..])
  }

  function AfterOffers(f: Fence, offers: seq<Record>): Fence
    decreases |offers|
  {
    if offers == [] then f else AfterOffers(Offer(f, offers[0]).0, offers[1..])
  }

  ghost predicate Seen(h: seq<Stamp>, id: InstanceId) { exists i :: 0 <= i < |h| && h[i].instance == id }

  /** One process never reports the same or an older sequence number later on. */
  ghost predicate Growing(h: seq<Stamp>) {
    forall i, j :: 0 <= i < j < |h| && h[i].instance == h[j].instance ==> h[i].sequence < h[j].sequence
  }

  /** The snapshots of one process are consecutive: it is never returned to. */
  ghost predicate Blocks(h: seq<Stamp>) {
    forall i, j, k :: 0 <= i < k < j < |h| && h[i].instance == h[j].instance ==> h[k].instance == h[i].instance
  }

  ghost predicate LastIs(record: Option<Record>, h: seq<Stamp>) {
    if h == [] then record.None? else record.Some? && record.value.report.stamp == h[|h| - 1]
  }

  /** The processes replaced so far. */
  ghost predicate Earlier(h: seq<Stamp>, id: InstanceId) { Seen(h, id) && h[|h| - 1].instance != id }

  /** The history is cut into blocks, one per process, each with growing sequence
      numbers; the retired ids are exactly those of the blocks before the last. */
  ghost predicate Fenced(f: Fence, h: seq<Stamp>) {
    && LastIs(f.record, h)
    && (forall id :: id in f.retired <==> Earlier(h, id))
    && Growing(h)
    && Blocks(h)
  }

  /** A stamp of the current process, and newer, or of a process never seen. */
  ghost predicate Fresh(h: seq<Stamp>, x: Stamp) {
    Seen(h, x.instance) ==> x.instance == h[|h| - 1].instance && h[|h| - 1].sequence < x.sequence
  }

  lemma SeenOn(h: seq<Stamp>, x: Stamp, id: InstanceId)
    ensures Seen(h + [x], id) <==> Seen(h, id) || id == x.instance
  {
    var g := h + [x];
    if i :| 0 <= i < |h| && h[i].instance == id {
      assert g[i].instance == id;
    }
    assert g[|h|] == x;
  }

  lemma GrowingOn(h: seq<Stamp>, x: Stamp)
    requires Growing(h) && Fresh(h, x)
    ensures Growing(h + [x])
  {
  }

  lemma BlocksOn(h: seq<Stamp>, x: Stamp)
    requires Blocks(h) && Fresh(h, x)
    ensures Blocks(h + [x])
  {
  }

  lemma AcceptedIsFresh(f: Fence, h: seq<Stamp>, x: Record)
    requires Fenced(f, h) && Offer(f, x).1.None?
    ensures Fresh(h, x.report.stamp)
  {
  }

  /** And the converse: a first report, a newer one of the current process, and one of a
      process never seen while fewer than 1024 are retired are accepted, no other is,
      and what is accepted becomes the record. */
  lemma AcceptedExactly(f: Fence, h: seq<Stamp>, x: Record)
    requires Fenced(f, h)
    ensures Offer(f, x).1.None? <==>
      && Fresh(h, x.report.stamp)
      && (h == [] || h[|h| - 1].instance == x.report.stamp.instance || |f.retired| < 1024)
    ensures Offer(f, x).0.record == if Offer(f, x).1.None? then Some(x) else f.record
  {
    if h != [] {
      assert Seen(h, h[|h| - 1].instance);
    }
  }

  lemma RetiredOn(f: Fence, h: seq<Stamp>, x: Record, id: InstanceId)
    requires Fenced(f, h) && Offer(f, x).1.None?
    ensures id in Offer(f, x).0.retired <==> Earlier(h + [x.report.stamp], id)
  {
    EarlierOn(h, x.report.stamp, id);
  }

  /** The processes replaced after a further report. */
  lemma EarlierOn(h: seq<Stamp>, x: Stamp, id: InstanceId)
    ensures Earlier(h + [x], id) <==>
      if h == [] || h[|h| - 1].instance == x.instance then Earlier(h, id)
      else id != x.instance && (Earlier(h, id) || id == h[|h| - 1].instance)
  {
    SeenOn(h, x, id);
    if h != [] {
      assert Seen(h, h[|h| - 1].instance);
    }
  }

  lemma OfferKeeps(f: Fence, h: seq<Stamp>, x: Record)
    requires Fenced(f, h) && Offer(f, x).1.None?
    ensures Fenced(Offer(f, x).0, h + [x.report.stamp])
  {
    AcceptedIsFresh(f, h, x);
    GrowingOn(h, x.report.stamp);
    BlocksOn(h, x.report.stamp);
    forall id ensures id in Offer(f, x).0.retired <==> Earlier(h + [x.report.stamp], id) {
      RetiredOn(f, h, x, id);
    }
  }

  /** The replay fence over every sequence of polls, whatever they deliver. */
  lemma {:induction false} HistoryIsFenced(f: Fence, h: seq<Stamp>, offers: seq<Record>)
    requires Fenced(f, h)
    ensures Fenced(AfterOffers(f, offers), AcceptedFrom(f, h, offers))
    decreases |offers|
  {
    if offers != [] {
      var x := offers[0];
      if Offer(f, x).1.None? {
        OfferKeeps(f, h, x);
        HistoryIsFenced(Offer(f, x).0, h + [x.report.stamp], offers[1..]);
      } else {
        HistoryIsFenced(f, h, offers[1..]);
      }
    }
  }

  lemma {:induction false} RetiredIsBounded(f: Fence, offers: seq<Record>)
    requires |f.retired| <= MAX_RETIRED
    ensures |AfterOffers(f, offers).retired| <= MAX_RETIRED
    decreases |offers|
  {
    if offers != [] {
      RetiredIsBounded(Offer(f, offers[0]).0, offers[1..]);
    }
  }

  ghost function Instances(h: seq<Stamp>): set<InstanceId> { set i | 0 <= i < |h| :: h[i].instance }

  /** At most 1025 processes of a node are ever believed, and none is returned to. */
  lemma AtMost1025Processes(offers: seq<Record>)
    ensures Fenced(AfterOffers(Fence(None, {}), offers), AcceptedFrom(Fence(None, {}), [], offers))
    ensures |Instances(AcceptedFrom(Fence(None, {}), [], offers))| <= MAX_RETIRED + 1
  {
    var start := Fence(None, {});
    HistoryIsFenced(start, [], offers);
    RetiredIsBounded(start, offers);
    OneMoreThanRetired(AfterOffers(start, offers), AcceptedFrom(start, [], offers));
  }

  lemma OneMoreThanRetired(f: Fence, h: seq<Stamp>)
    requires Fenced(f, h)
    ensures |Instances(h)| <= |f.retired| + 1
  {
    if h != [] {
      assert forall id :: id in Instances(h) ==> Seen(h, id);
      SmallUnion(Instances(h), f.retired, h[|h| - 1].instance);
    }
  }

  lemma SmallUnion(all: set<InstanceId>, some: set<InstanceId>, one: InstanceId)
    requires forall id :: id in all ==> id in some || id == one
    ensures |all| <= |some| + 1
  {
    var rest := all - {one};
    assert rest <= some;
    FewerMembers(rest, some);
    if one in all {
      assert all == rest + {one};
    } else {
      assert all == rest;
    }
  }

  lemma FewerMembers(small: set<nat>, big: set<nat>)
    requires small <= big
    ensures |small| <= |big|
  {
    assert big == small + (big - small);
  }

  predicate Live(r: Record, now: real, ttl: real) { now - r.received <= ttl }
}
