/**
 Where the gateway places a request: which nodes qualify under the last snapshots
 corrected by local reservations, and which of them is chosen.
 */
module FleetScheduler {
  import opened Options
  import Node = ResidencyCore
  import opened FleetWire
  import opened FleetRegistry

  type RouteId = nat

  datatype Model = Model(deployment: Node.DeploymentId, capabilities: set<string>, queueDepth: nat)

  /** What a request asks of the node that serves it. */
  datatype Demand = Demand(model: Model, capability: string, excluded: set<NodeId>)

  datatype Reservation = Reservation(node: NodeId, instance: InstanceId, alias: string, admittedAt: Option<real>)

  /** All that selection looks at; `weights` holds the configured routing weights. */
  datatype View = View(
    records: map<NodeId, Record>, now: real, ttl: real, reservations: map<RouteId, Reservation>,
    weights: map<NodeId, real>, lastSelected: map<NodeId, nat>)

  datatype Candidate = Candidate(record: Record, deployment: Deployment, tier: nat, score: real)

  // ----- the reservations a snapshot cannot be assumed to include

  predicate Unseen(r: Reservation, record: Record) {
    && r.node == record.node
    && r.instance == record.report.stamp.instance
    && (r.admittedAt.None? || r.admittedAt.value >= record.pollStarted)
  }

  function Unaccounted(rs: map<RouteId, Reservation>, record: Record): set<RouteId> {
    set k | k in rs && Unseen(rs[k], record)
  }

  // ----- what one snapshot offers

  predicate Routable(d: Deployment, m: Model) {
    d.deployment == m.deployment && d.deployment.capabilities == m.capabilities && d.authoritative && d.eligible &&
      d.loadable
  }

  function FirstFit(ds: seq<Deployment>, demand: Demand): Option<Deployment> {
    if ds == [] then None
    else if Routable(ds[0], demand.model) && demand.capability in ds[0].deployment.capabilities then Some(ds[0])
    else FirstFit(ds[1..], demand)
  }

  predicate Schedulable(h: Health) {
    h.accepting && h.authoritative && h.state !in {Of(Node.Degraded), Of(Node.Stopping)}
  }

  function Less(a: int, b: int): nat { if a > b then a - b else 0 }

  predicate Resident(s: Snapshot, m: Model) { s.residency.deployment == Some(m.deployment) }

  function Room(s: Snapshot): nat { Less(s.admission.limit, s.admission.depth) }

  /** 1 resident with a free permit, 2 resident with queue room, 3 an empty node, 4 a swap; 0 none. */
  function Tier(s: Snapshot, d: Deployment, m: Model, local: nat): nat {
    var available := Less(if Resident(s, m) then s.capacity.available else d.capacity.available, local);
    var room := Less(s.admission.limit - s.admission.depth, local);
    if Resident(s, m) && available > 0 then 1
    else if Resident(s, m) && room > 0 then 2
    else if s.residency.deployment.None? && room > 0 && d.capacity.effective > 0 then 3
    else if room > 0 && d.capacity.effective > 0 then 4
    else 0
  }

  const MIN_WEIGHT := 0.000000001

  function Score(s: Snapshot, d: Deployment, local: nat, configured: Option<real>): real {
    var limit := d.capacity.effective as real;
    var weight := if configured.Some? && configured.value < limit then configured.value else limit;
    (s.capacity.active + s.admission.depth + local) as real / if weight < MIN_WEIGHT then MIN_WEIGHT else weight
  }

  function Weight(v: View, n: NodeId): Option<real> { if n in v.weights then Some(v.weights[n]) else None }

  /** One turn of the selection loop. */
  function Consider(v: View, record: Record, demand: Demand): Option<Candidate> {
    var s := record.report.body;
    if record.node in demand.excluded || !Schedulable(s.health) then None
    else
      var d := FirstFit(s.deployments, demand);
      if d.None? then None
      else
        var local := |Unaccounted(v.reservations, record)|;
        var tier := Tier(s, d.value, demand.model, local);
        if tier == 0 then None
        else Some(Candidate(record, d.value, tier, Score(s, d.value, local, Weight(v, record.node))))
  }

  // ----- the choice

  function LastSelected(v: View, n: NodeId): nat { if n in v.lastSelected then v.lastSelected[n] else 0 }

  /** Lexicographic order on (tier, load score, last selection, node). */
  predicate Before(v: View, a: Candidate, b: Candidate) {
    var la, lb := LastSelected(v, a.record.node), LastSelected(v, b.record.node);
    || a.tier < b.tier
    || (a.tier == b.tier && (
         || a.score < b.score
         || (a.score == b.score && (la < lb || (la == lb && a.record.node < b.record.node)))))
  }

  /** The records are filed under their own node. */
  predicate Filed(v: View) { forall n :: n in v.records ==> v.records[n].node == n }

  /** Node `n` is live and qualifies, as `c`. */
  ghost predicate Qualifies(v: View, demand: Demand, n: NodeId, c: Candidate) {
    n in v.records && Live(v.records[n], v.now, v.ttl) && Consider(v, v.records[n], demand) == Some(c)
  }

  ghost predicate Placeable(v: View, demand: Demand) { exists n, c :: Qualifies(v, demand, n, c) }

  /** What selection must return: the least of all that qualify. */
  ghost predicate Chosen(v: View, demand: Demand, c: Candidate) {
    && Qualifies(v, demand, c.record.node, c)
    && forall n, b :: Qualifies(v, demand, n, b) ==> b == c || Before(v, c, b)
  }

  method CandidateDeployment(ds: seq<Deployment>, demand: Demand) returns (r: Option<Deployment>)
    ensures r == FirstFit(ds, demand)
  {
    for i := 0 to |ds|
      invariant FirstFit(ds, demand) == FirstFit(ds[i..], demand)
    {
      if Routable(ds[i], demand.model) && demand.capability in ds[i].deployment.capabilities {
        return Some(ds[i]);
      }
    }
    return None;
  }

  /** `order` is the iteration order of the registry's records. */
  method Select(v: View, order: seq<NodeId>, demand: Demand) returns (best: Option<Candidate>)
    requires Filed(v) && forall n :: n in v.records <==> n in order
    ensures best.None? <==> !Placeable(v, demand)
    ensures best.Some? ==> Chosen(v, demand, best.value)
    ensures forall c :: Chosen(v, demand, c) ==> best == Some(c)
  {
    var candidates: seq<Candidate> := [];
    for i := 0 to |order|
      invariant forall c :: c in candidates ==> Qualifies(v, demand, c.record.node, c)
      invariant forall j, c :: 0 <= j < i && Qualifies(v, demand, order[j], c) ==> c in candidates
    {
      var record := v.records[order[i]];
      if Live(record, v.now, v.ttl) {
        var c := Examine(v, record, demand);
        if c.Some? {
          candidates := candidates + [c.value];
        }
      }
    }
    assert forall n, c :: Qualifies(v, demand, n, c) ==> c in candidates;
    if candidates == [] {
      return None;
    }
    var least := Least(v, candidates);
    assert Qualifies(v, demand, least.record.node, least);
    return Some(least);
  }

  method Examine(v: View, record: Record, demand: Demand) returns (c: Option<Candidate>)
    ensures c == Consider(v, record, demand)
    ensures c.Some? ==> c.value.record == record
  {
    var s := record.report.body;
    if record.node in demand.excluded || !s.health.accepting || !s.health.authoritative
       || s.health.state == Of(Node.Degraded) || s.health.state == Of(Node.Stopping) {
      return None;
    }
    var d := CandidateDeployment(s.deployments, demand);
    if d.None? {
      return None;
    }
    var local := |Unaccounted(v.reservations, record)|;
    var tier := Tier(s, d.value, demand.model, local);
    if tier == 0 {
      return None;
    }
    return Some(Candidate(record, d.value, tier, Score(s, d.value, local, Weight(v, record.node))));
  }

  method Least(v: View, cs: seq<Candidate>) returns (least: Candidate)
    requires |cs| > 0
    ensures least in cs
    ensures forall c :: c in cs ==> !Before(v, c, least)
  {
    least := cs[0];
    for i := 1 to |cs|
      invariant least in cs
      invariant forall j :: 0 <= j < i ==> !Before(v, cs[j], least)
    {
      if Before(v, cs[i], least) {
        least := cs[i];
      }
    }
  }

  // ----- who qualifies

  /** The entry is for exactly this model, verified, eligible and loadable. */
  predicate Serves(d: Deployment, m: Model) {
    && d.deployment == m.deployment && d.deployment.capabilities == m.capabilities
    && d.authoritative && d.eligible && d.loadable
  }

  /** The eligibility column of the operator's model matrix. */
  predicate ReportedEligible(v: View, m: Model, n: NodeId) {
    && n in v.records && v.now - v.records[n].received <= v.ttl
    && var s := v.records[n].report.body;
       && s.health.accepting && s.health.authoritative
       && s.health.state != Of(Node.Degraded) && s.health.state != Of(Node.Stopping)
       && exists d :: d in s.deployments && Serves(d, m)
  }

  /** A free permit of the resident, or a place in the node's queue, is left beyond the
      reservations that its snapshot cannot have seen. */
  predicate HasRoom(v: View, m: Model, record: Record) {
    var s, local := record.report.body, |Unaccounted(v.reservations, record)|;
    || (s.residency.deployment == Some(m.deployment) && local < s.capacity.available)
    || local < s.admission.limit - s.admission.depth
  }

  lemma {:induction false} FirstFitFinds(ds: seq<Deployment>, demand: Demand)
    requires demand.capability in demand.model.capabilities
    ensures FirstFit(ds, demand).Some? <==> exists d :: d in ds && Serves(d, demand.model)
    ensures FirstFit(ds, demand).Some? ==>
      FirstFit(ds, demand).value in ds && Serves(FirstFit(ds, demand).value, demand.model)
  {
    if ds != [] {
      assert ds[0] in ds;
      FirstFitFinds(ds[1..], demand);
      assert forall d :: d in ds <==> d == ds[0] || d in ds[1..];
    }
  }

  /** A node qualifies exactly when the matrix reports it eligible, the request
      has not tried it, and its snapshot has room beyond the local reservations. */
  lemma QualifiesExactly(v: View, demand: Demand, n: NodeId)
    requires Filed(v) && demand.capability in demand.model.capabilities
    requires n in v.records ==> Accepted(v.records[n].report.body)
    ensures (exists c :: Qualifies(v, demand, n, c))
       <==> ReportedEligible(v, demand.model, n) && n !in demand.excluded && HasRoom(v, demand.model, v.records[n])
  {
    if n in v.records {
      var s := v.records[n].report.body;
      FirstFitFinds(s.deployments, demand);
      if Consider(v, v.records[n], demand).Some? && Live(v.records[n], v.now, v.ttl) {
        assert Qualifies(v, demand, n, Consider(v, v.records[n], demand).value);
      }
    }
  }

  lemma ChosenIsReportedEligible(v: View, demand: Demand, c: Candidate)
    requires demand.capability in demand.model.capabilities
    requires Chosen(v, demand, c)
    ensures ReportedEligible(v, demand.model, c.record.node) && c.record.node !in demand.excluded
    ensures Serves(c.deployment, demand.model) && c.deployment in c.record.report.body.deployments
  {
    FirstFitFinds(c.record.report.body.deployments, demand);
  }

  // ----- what the order means

  predicate Warm(c: Candidate, m: Model) { Resident(c.record.report.body, m) }

  predicate Vacant(c: Candidate) { c.record.report.body.residency.deployment.None? }

  /** A permit is free beyond the reservations the snapshot cannot have seen. */
  predicate HasPermit(v: View, c: Candidate) {
    |Unaccounted(v.reservations, c.record)| < c.record.report.body.capacity.available
  }

  /** Warm first: a free permit on the resident beats waiting for it, that beats an
      empty node, and that beats evicting somebody else's model. */
  lemma ChosenPrefersWarm(v: View, demand: Demand, c: Candidate, n: NodeId, b: Candidate)
    requires Chosen(v, demand, c) && Qualifies(v, demand, n, b)
    ensures Warm(b, demand.model) ==> Warm(c, demand.model) && (HasPermit(v, b) ==> HasPermit(v, c))
    ensures Vacant(b) ==> Warm(c, demand.model) || Vacant(c)
  {
    TierMeans(v, demand, n, b);
    TierMeans(v, demand, c.record.node, c);
  }

  lemma TierMeans(v: View, demand: Demand, n: NodeId, c: Candidate)
    requires Qualifies(v, demand, n, c)
    ensures 1 <= c.tier <= 4
    ensures Warm(c, demand.model) <==> c.tier <= 2
    ensures Warm(c, demand.model) ==> (HasPermit(v, c) <==> c.tier == 1)
    ensures Vacant(c) <==> c.tier == 3
  {
  }

  /** The requests a node has to serve before one placed now. */
  function Outstanding(v: View, c: Candidate): nat {
    c.record.report.body.capacity.active + c.record.report.body.admission.depth +
      |Unaccounted(v.reservations, c.record)|
  }

  /** What share of them a node is expected to take: its limit, or less if so configured. */
  function Strength(v: View, c: Candidate): (w: real)
    ensures w > 0.0
  {
    var configured := Weight(v, c.record.node);
    var limit := c.deployment.capacity.effective as real;
    var weight := if configured.None? || limit <= configured.value then limit else configured.value;
    if weight > MIN_WEIGHT then weight else MIN_WEIGHT
  }

  /** The score is the quotient of the two. */
  predicate Scored(v: View, c: Candidate) { c.score * Strength(v, c) == Outstanding(v, c) as real }

  /** Less outstanding work for its strength, or as little. */
  predicate Lighter(v: View, c: Candidate, b: Candidate) {
    Outstanding(v, c) as real * Strength(v, b) <= Outstanding(v, b) as real * Strength(v, c)
  }

  lemma ScoreIs(v: View, demand: Demand, n: NodeId, c: Candidate)
    requires Qualifies(v, demand, n, c)
    ensures Scored(v, c)
  {
    Quotient(Outstanding(v, c) as real, Strength(v, c));
  }

  lemma Quotient(x: real, w: real)
    requires w > 0.0
    ensures x / w * w == x
  {
  }

  lemma ScoresDecide(v: View, c: Candidate, b: Candidate)
    requires Scored(v, c) && Scored(v, b) && c.score <= b.score
    ensures Lighter(v, c, b)
  {
    CrossMultiply(c.score, Strength(v, c), b.score, Strength(v, b), Outstanding(v, c) as real,
      Outstanding(v, b) as real);
  }

  lemma CrossMultiply(x: real, a: real, y: real, b: real, xa: real, yb: real)
    requires x <= y && a > 0.0 && b > 0.0 && x * a == xa && y * b == yb
    ensures xa * b <= yb * a
  {
    var ab := a * b;
    assert ab > 0.0;
    assert x * ab <= y * ab;
    assert xa * b == x * ab;
    assert yb * a == y * ab;
  }

  /** Among equals in warmth, the chosen node has the least outstanding work for its strength. */
  lemma ChosenIsLeastLoaded(v: View, demand: Demand, c: Candidate, n: NodeId, b: Candidate)
    requires Chosen(v, demand, c) && Qualifies(v, demand, n, b) && b.tier == c.tier
    ensures Lighter(v, c, b)
  {
    ScoreIs(v, demand, n, b);
    ScoreIs(v, demand, c.record.node, c);
    ScoresDecide(v, c, b);
  }

  /** Among nodes equal in warmth and load, the chosen one was selected least recently,
      and among those it comes first by name. */
  lemma ChosenAmongTies(v: View, demand: Demand, c: Candidate, n: NodeId, b: Candidate)
    requires Filed(v) && Chosen(v, demand, c) && Qualifies(v, demand, n, b) && b.tier == c.tier && b.score == c.score
    ensures LastSelected(v, c.record.node) <= LastSelected(v, n)
    ensures LastSelected(v, c.record.node) == LastSelected(v, n) ==> c.record.node <= n
  {
  }

  // ----- placing a request

  /** The first mark stays. */
  function Marked(r: Reservation, now: real): Reservation {
    if r.admittedAt.Some? then r else r.(admittedAt := Some(now))
  }

  function Hold(v: View, route: RouteId, c: Candidate): View {
    v.(reservations := v.reservations[route := Reservation(c.record.node, c.record.report.stamp.instance,
      c.deployment.alias, None)])
  }

  lemma HoldCounts(v: View, route: RouteId, c: Candidate)
    requires route !in v.reservations
    ensures |Unaccounted(Hold(v, route, c).reservations, c.record)| == |Unaccounted(v.reservations, c.record)| + 1
  {
    assert Unaccounted(Hold(v, route, c).reservations, c.record) == Unaccounted(v.reservations, c.record) + {route};
  }

  /** Each placement fits what the snapshot advertised. */
  lemma PlacementFits(v: View, demand: Demand, route: RouteId, c: Candidate)
    requires Chosen(v, demand, c) && route !in v.reservations
    ensures var s := c.record.report.body;
      |Unaccounted(Hold(v, route, c).reservations, c.record)| <= if c.tier == 1 then s.capacity.available else Room(s)
  {
    HoldCounts(v, route, c);
  }

  lemma TierFalls(s: Snapshot, d: Deployment, m: Model, few: nat, many: nat)
    requires few <= many && Tier(s, d, m, few) == 0
    ensures Tier(s, d, m, many) == 0
  {
  }

  /** More reservations to account for never open a node, and time only closes it. */
  lemma LessIsPlaceable(v: View, w: View, demand: Demand)
    requires w.records == v.records && w.ttl == v.ttl && v.now <= w.now
    requires forall n :: n in v.records ==>
      Unaccounted(v.reservations, v.records[n]) <= Unaccounted(w.reservations, v.records[n])
    requires Placeable(w, demand)
    ensures Placeable(v, demand)
  {
    var n, c :| Qualifies(w, demand, n, c);
    var record := v.records[n];
    FewerMembers(Unaccounted(v.reservations, record), Unaccounted(w.reservations, record));
    var few, many := |Unaccounted(v.reservations, record)|, |Unaccounted(w.reservations, record)|;
    if Tier(record.report.body, c.deployment, demand.model, few) == 0 {
      TierFalls(record.report.body, c.deployment, demand.model, few, many);
    }
    assert Qualifies(v, demand, n, Consider(v, record, demand).value);
  }
}
