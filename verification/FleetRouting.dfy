/** From a node's coordinator to the gateway's choice: an open node is chosen from. */
module FleetRouting {
  import opened Options
  import Node = ResidencyCore
  import opened ResidencyModes
  import opened FleetRanges
  import opened FleetWire
  import opened FleetRegistry
  import opened FleetScheduler

  /** The public model that a catalogued profile serves. */
  function ModelOf(p: Node.Profile, queueDepth: nat): Model {
    Model(p.deployment, p.deployment.capabilities, queueDepth)
  }

  /** Node `n`'s record holds what its coordinator publishes. */
  ghost predicate Reports(v: View, n: NodeId, c: Node.Core, engineAlive: bool, ceiling: Option<nat>,
                          profiles: seq<Node.Profile>)
  {
    && n in v.records && Live(v.records[n], v.now, v.ttl)
    && FleetSnapshot(c, engineAlive, ceiling, profiles) == Some(v.records[n].report.body)
  }

  /** The coordinator takes requests and its engine process agrees. */
  predicate Serving(c: Node.Core, engineAlive: bool) {
    c.accepting && c.authoritative && !c.stopping && !Contradicted(c, engineAlive)
  }

  /** A pinned and portable profile of a serving node is reported eligible. */
  lemma ServingIsEligible(v: View, n: NodeId, c: Node.Core, engineAlive: bool, ceiling: Option<nat>,
                          profiles: seq<Node.Profile>, p: Node.Profile, queueDepth: nat)
    requires Coherent(c) && Presentable(c, ceiling, profiles) && Reports(v, n, c, engineAlive, ceiling, profiles)
    requires Serving(c, engineAlive) && p in profiles && p.pinned && p.portable
    ensures ReportedEligible(v, ModelOf(p, queueDepth), n)
  {
    HealthShows(c, engineAlive);
    EntriesDescribe(c, engineAlive, ceiling, profiles);
    var s := v.records[n].report.body;
    var i :| 0 <= i < |profiles| && profiles[i] == p;
    assert Describes(s.deployments[i], p, c, engineAlive, ceiling);
    assert s.deployments[i] in s.deployments && Serves(s.deployments[i], ModelOf(p, queueDepth));
  }

  /** And a request for it qualifies there while the node's queue has room for what the
      gateway itself has sent. */
  lemma ServingQualifies(v: View, n: NodeId, c: Node.Core, engineAlive: bool, ceiling: Option<nat>,
                         profiles: seq<Node.Profile>, p: Node.Profile, demand: Demand)
    requires Coherent(c) && Presentable(c, ceiling, profiles) && Reports(v, n, c, engineAlive, ceiling, profiles)
    requires Filed(v) && Catalogued(c, profiles) && |c.queue| <= c.maxQueue
    requires Serving(c, engineAlive) && p in profiles && p.pinned && p.portable
    requires demand.model == ModelOf(p, demand.model.queueDepth) && n !in demand.excluded
    requires demand.capability in p.deployment.capabilities
    requires |Unaccounted(v.reservations, v.records[n])| < c.maxQueue - |c.queue|
    ensures exists candidate :: Qualifies(v, demand, n, candidate)
  {
    ServingIsEligible(v, n, c, engineAlive, ceiling, profiles, p, demand.model.queueDepth);
    SnapshotAccepted(c, engineAlive, ceiling, profiles);
    RootShows(c, engineAlive, ceiling, profiles);
    SnapshotExists(c, engineAlive, ceiling, profiles);
    QualifiesExactly(v, demand, n);
  }

  /** A node that is not serving is never chosen, whatever the request. */
  lemma ClosedIsNotChosen(v: View, n: NodeId, c: Node.Core, engineAlive: bool, ceiling: Option<nat>,
                          profiles: seq<Node.Profile>, demand: Demand)
    requires Reports(v, n, c, engineAlive, ceiling, profiles) && !Serving(c, engineAlive)
    ensures forall candidate :: !Qualifies(v, demand, n, candidate)
  {
    HealthShows(c, engineAlive);
  }
}
