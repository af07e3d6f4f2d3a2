/**
 The wire contract between a node and the gateway: the snapshot the node builds
 from its coordinator, and the cross-field rules by which the gateway accepts it.
 */
module FleetWire {
  import opened Options
  import opened ResidencyCore
  import opened ResidencyProtocol
  import opened ResidencyInvariant
  import opened ResidencyModes
  import opened ResidencyOutcomes
  import opened FleetRanges

  datatype HealthState = Of(mode: Mode) | Verifying

  datatype Health = Health(state: HealthState, accepting: bool, authoritative: bool)

  datatype Residency = Residency(
    alias: Option<string>, deployment: Option<DeploymentId>, engine: Option<string>, epoch: nat,
    target: Option<DeploymentId>)

  /** `queuedBy` is the counter of queued deployments; its values sum to its size. */
  datatype AdmissionView = AdmissionView(depth: nat, limit: nat, queuedBy: multiset<DeploymentId>)

  datatype Capacity = Capacity(
    derived: nat, configured: Option<nat>, effective: nat, active: nat, queued: nat, available: nat,
    source: Source, confidence: Confidence, saturation: real)

  datatype Deployment = Deployment(
    alias: string, deployment: DeploymentId, authoritative: bool, immutable: bool, eligible: bool, loadable: bool,
    warm: bool, capacity: Capacity)

  datatype Snapshot = Snapshot(
    health: Health, residency: Residency, admission: AdmissionView, capacity: Capacity, deployments: seq<Deployment>)

  // ----- the node's side

  /** Rounds a non-negative number to six decimals, halves to even. */
  function Round6(x: real): (r: real)
    ensures x - 0.0000005 <= r <= x + 0.0000005
  {
    var scaled := x * 1000000.0;
    var below := scaled.Floor;
    var rest := scaled - below as real;
    var whole :=
      if rest < 0.5 then below else if rest > 0.5 then below + 1 else if below % 2 == 0 then below else below + 1;
    whole as real / 1000000.0
  }

  /** The smaller of the derived capacity and the configured ceiling, if there is one. */
  function EffectiveLimit(derived: nat, configured: Option<nat>): (limit: nat)
    ensures limit <= derived && (configured.Some? ==> limit <= configured.value)
    ensures limit == derived || configured == Some(limit)
  {
    if configured.Some? then Min(derived, configured.value) else derived
  }

  function EffectiveCapacity(spec: CapacitySpec, configured: Option<nat>, active: nat, queued: nat,
      open: bool): Option<Capacity> {
    if spec.derivedLimit < 1 || (configured.Some? && configured.value < 1) then None
    else
      var effective := EffectiveLimit(spec.derivedLimit, configured);
      Some(Capacity(spec.derivedLimit, configured, effective, active, queued,
                    if open && effective > active then effective - active else 0,
                    spec.source, spec.confidence, Round6(active as real / effective as real)))
  }

  function Deployments(q: seq<Waiter>): (ds: seq<DeploymentId>)
    ensures |ds| == |q|
    ensures forall i :: 0 <= i < |q| ==> ds[i] == q[i].profile.deployment
  {
    seq(|q|, i requires 0 <= i < |q| => q[i].profile.deployment)
  }

  /** The coordinator mode and the engine process contradict each other. */
  predicate ProcessMismatch(c: Core, engineAlive: bool) {
    || (c.mode == Ready && c.resident.Some? && !engineAlive)
    || (c.mode == Idle && c.resident.None? && engineAlive)
  }

  function HealthOf(c: Core, engineAlive: bool): Health {
    var authoritative := c.authoritative && !ProcessMismatch(c, engineAlive);
    Health(Of(if ProcessMismatch(c, engineAlive) then Degraded else c.mode),
           c.accepting && !c.stopping && authoritative, authoritative)
  }

  predicate RootOpen(c: Core, engineAlive: bool) {
    HealthOf(c, engineAlive).accepting && c.mode in {Idle, Ready}
  }

  function RootCapacity(c: Core, engineAlive: bool): Option<Capacity> {
    EffectiveCapacity(c.capacity, c.configured, c.active, |c.queue|, RootOpen(c, engineAlive))
  }

  function ProfileCapacity(c: Core, engineAlive: bool, ceiling: Option<nat>, p: Profile): Option<Capacity> {
    var queued := multiset(Deployments(c.queue))[p.deployment];
    if ResidentId(c) == Some(p.deployment) then
      EffectiveCapacity(c.capacity, c.configured, c.active, queued, RootOpen(c, engineAlive))
    else EffectiveCapacity(p.cold, ceiling, 0, queued, HealthOf(c, engineAlive).accepting)
  }

  function Advertise(c: Core, engineAlive: bool, ceiling: Option<nat>, p: Profile): Option<Deployment> {
    var capacity := ProfileCapacity(c, engineAlive, ceiling, p);
    if capacity.None? then None
    else
      var authoritative := p.pinned && p.portable;
      Some(Deployment(p.alias, p.deployment, authoritative, p.pinned, authoritative, true,
                      ResidentId(c) == Some(p.deployment), capacity.value))
  }

  function AdvertiseAll(c: Core, engineAlive: bool, ceiling: Option<nat>, ps: seq<Profile>): Option<seq<Deployment>> {
    if ps == [] then Some([])
    else
      var first := Advertise(c, engineAlive, ceiling, ps[0]);
      var rest := AdvertiseAll(c, engineAlive, ceiling, ps[1..]);
      if first.None? || rest.None? then None else Some([first.value] + rest.value)
  }

  /** The snapshot of a coordinator whose queue was just purged. */
  function FleetSnapshot(c: Core, engineAlive: bool, ceiling: Option<nat>, profiles: seq<Profile>): Option<Snapshot> {
    var capacity := RootCapacity(c, engineAlive);
    var deployments := AdvertiseAll(c, engineAlive, ceiling, profiles);
    if capacity.None? || deployments.None? then None
    else
      Some(Snapshot(
        HealthOf(c, engineAlive),
        Residency(if c.resident.Some? then Some(c.resident.value.alias) else None,
                  ResidentId(c),
                  if c.resident.Some? then Some(c.resident.value.deployment.engine) else None,
                  c.epoch, c.target),
        AdmissionView(|c.queue|, c.maxQueue, multiset(Deployments(c.queue))),
        capacity.value, deployments.value))
  }

  // ----- the gateway's side

  predicate CapacityAccepted(k: Capacity) {
    && InRange(1, k.derived, MAX_LIMIT) && (k.configured.Some? ==> InRange(1, k.configured.value, MAX_LIMIT))
    && InRange(1, k.effective, MAX_LIMIT) && InRange(0, k.active, MILLION) && InRange(0, k.queued, MILLION)
    && InRange(0, k.available, MAX_LIMIT) && (k.source.Reported? ==> InRange(1, |k.source.name|, 96))
    && k.saturation >= 0.0
    && k.effective == EffectiveLimit(k.derived, k.configured)
    && (k.available == 0 || k.available == k.effective - k.active)
    && -0.000001 <= k.saturation - k.active as real / k.effective as real <= 0.000001
  }

  predicate AdmissionAccepted(a: AdmissionView) {
    && InRange(0, a.depth, MILLION) && InRange(1, a.limit, MILLION)
    && a.depth == |a.queuedBy| && a.depth <= a.limit
  }

  predicate DeploymentAccepted(d: Deployment) {
    && InRange(1, |d.alias|, 128)
    && (d.eligible ==> d.authoritative && d.immutable)
    && CapacityAccepted(d.capacity)
  }

  ghost predicate Offered(ds: seq<Deployment>, id: DeploymentId) {
    exists d :: d in ds && d.deployment == id
  }

  ghost predicate ResidencyAccepted(s: Snapshot) {
    && (forall d, e :: d in s.deployments && e in s.deployments && d.warm && e.warm ==> d.deployment == e.deployment)
    && if s.residency.deployment.None? then
         && s.residency.alias.None? && s.residency.engine.None?
         && (forall d :: d in s.deployments ==> !d.warm)
       else
         && s.residency.alias.Some? && s.residency.engine.Some?
         && (exists d :: d in s.deployments && d.warm && d.deployment == s.residency.deployment.value
                      && d.alias == s.residency.alias.value)
         && (forall d :: d in s.deployments && d.warm && d.deployment == s.residency.deployment.value ==>
               d.deployment.engine == s.residency.engine.value)
  }

  ghost predicate TransitionAccepted(s: Snapshot) {
    s.residency.target.Some? ==>
      && Offered(s.deployments, s.residency.target.value)
      && s.health.state in {Of(Draining), Of(Unloading), Of(Loading), Verifying}
      && s.capacity.available == 0
  }

  predicate HealthAccepted(s: Snapshot) {
    && (s.health.state == Of(Idle) ==> s.residency.deployment.None?)
    && (s.health.state == Of(Ready) ==> s.residency.deployment.Some?)
    && (s.health.accepting ==> s.health.authoritative)
    && (s.health.state in {Of(Degraded), Of(Stopping)} ==> !s.health.accepting)
  }

  ghost predicate FullyOpen(s: Snapshot) {
    && s.health.accepting && s.health.authoritative && s.health.state == Of(Ready) && s.residency.target.None?
    && (forall id :: id in s.admission.queuedBy ==> Some(id) == s.residency.deployment)
  }

  function FreePermits(k: Capacity): nat { if k.effective > k.active then k.effective - k.active else 0 }

  ghost predicate AvailabilityAccepted(s: Snapshot) {
    && (FullyOpen(s) ==> s.capacity.available == FreePermits(s.capacity))
    && (!s.health.accepting ==> s.capacity.available == 0)
  }

  /** The rules that do not look an identity up. */
  ghost predicate ValuesAccepted(s: Snapshot) {
    && CapacityAccepted(s.capacity)
    && |s.deployments| <= 10000
    && (forall d :: d in s.deployments ==> DeploymentAccepted(d))
    && s.capacity.queued == s.admission.depth
    && (forall i, j :: 0 <= i < j < |s.deployments| ==> s.deployments[i].alias != s.deployments[j].alias)
    && (forall d :: d in s.deployments ==> d.capacity.queued == s.admission.queuedBy[d.deployment])
    && HealthAccepted(s) && AvailabilityAccepted(s)
  }

  ghost predicate Accepted(s: Snapshot) {
    && AdmissionAccepted(s.admission) && ValuesAccepted(s)
    && (forall id :: id in s.admission.queuedBy ==> Offered(s.deployments, id))
    && ResidencyAccepted(s) && TransitionAccepted(s)
  }

  // ----- the theorem

  /** The node's catalogue and its cold ceiling are within the protocol's ranges. */
  ghost predicate CatalogueInRange(ceiling: Option<nat>, profiles: seq<Profile>) {
    && (ceiling.Some? ==> InRange(1, ceiling.value, MAX_LIMIT))
    && |profiles| <= 10000
    && (forall i :: 0 <= i < |profiles| ==> InRange(1, |profiles[i].alias|, 128) && SpecInRange(profiles[i].cold))
    && (forall i, j :: 0 <= i < j < |profiles| ==> profiles[i].alias != profiles[j].alias)
  }

  /** And so is the coordinator's configuration. */
  ghost predicate Presentable(c: Core, ceiling: Option<nat>, profiles: seq<Profile>) {
    && SpecInRange(c.capacity) && SettingsInRange(c.configured, c.maxQueue) && c.active <= MILLION
    && CatalogueInRange(ceiling, profiles)
  }

  ghost predicate Lists(profiles: seq<Profile>, id: DeploymentId) {
    exists p :: p in profiles && p.deployment == id
  }

  /** Whatever the coordinator refers to is still in the node's catalogue. */
  ghost predicate Catalogued(c: Core, profiles: seq<Profile>) {
    && (c.resident.Some? ==>
          exists p :: p in profiles && p.alias == c.resident.value.alias && p.deployment == c.resident.value.deployment)
    && (forall w :: w in c.queue ==> Lists(profiles, w.profile.deployment))
    && (c.target.Some? ==> Lists(profiles, c.target.value))
  }

  lemma CapacityIsAccepted(spec: CapacitySpec, configured: Option<nat>, active: nat, queued: nat, open: bool)
    requires SpecInRange(spec) && (configured.Some? ==> InRange(1, configured.value, MAX_LIMIT))
    requires active <= MILLION && queued <= MILLION
    ensures var k := EffectiveCapacity(spec, configured, active, queued, open); k.Some? && CapacityAccepted(k.value)
  {
    var effective := EffectiveLimit(spec.derivedLimit, configured);
    var x := active as real / effective as real;
    assert x >= 0.0;
    NonNegativeRound(x);
  }

  lemma NonNegativeRound(x: real)
    requires x >= 0.0
    ensures Round6(x) >= 0.0
  {
  }

  lemma QueuedCounts(c: Core, id: DeploymentId)
    ensures multiset(Deployments(c.queue))[id] <= |c.queue| == |multiset(Deployments(c.queue))|
    ensures id in multiset(Deployments(c.queue)) <==> exists w :: w in c.queue && w.profile.deployment == id
  {
    var ds := Deployments(c.queue);
    if id in multiset(ds) {
      var i :| 0 <= i < |ds| && ds[i] == id;
      assert c.queue[i] in c.queue;
    }
    if w :| w in c.queue && w.profile.deployment == id {
      var i :| 0 <= i < |c.queue| && c.queue[i] == w;
      assert ds[i] in ds;
    }
    assert multiset{id} * multiset(ds) <= multiset(ds);
    CountAtMostSize(multiset(ds), id);
  }

  lemma CountAtMostSize(m: multiset<DeploymentId>, id: DeploymentId)
    ensures m[id] <= |m|
  {
    var only := multiset{}[id := m[id]];
    assert m == only + (m - only);
  }

  lemma {:induction false} AdvertiseAllShape(c: Core, engineAlive: bool, ceiling: Option<nat>, ps: seq<Profile>)
    requires forall p :: p in ps ==> Advertise(c, engineAlive, ceiling, p).Some?
    ensures var ds := AdvertiseAll(c, engineAlive, ceiling, ps);
      && ds.Some? && |ds.value| == |ps|
      && forall i :: 0 <= i < |ps| ==> Some(ds.value[i]) == Advertise(c, engineAlive, ceiling, ps[i])
  {
    if ps != [] {
      assert ps[0] in ps;
      AdvertiseAllShape(c, engineAlive, ceiling, ps[1..]);
    }
  }

  lemma AdvertiseIsAccepted(c: Core, engineAlive: bool, ceiling: Option<nat>, profiles: seq<Profile>, p: Profile)
    requires Presentable(c, ceiling, profiles) && |c.queue| <= MILLION && p in profiles
    ensures var d := Advertise(c, engineAlive, ceiling, p); d.Some? && DeploymentAccepted(d.value)
    ensures Advertise(c, engineAlive, ceiling, p).value.capacity.queued == multiset(Deployments(c.queue))[p.deployment]
  {
    var queued := multiset(Deployments(c.queue))[p.deployment];
    QueuedCounts(c, p.deployment);
    CapacityIsAccepted(c.capacity, c.configured, c.active, queued, RootOpen(c, engineAlive));
    CapacityIsAccepted(p.cold, ceiling, 0, queued, HealthOf(c, engineAlive).accepting);
  }

  /** The advertised deployments mirror the catalogue, in order. */
  ghost predicate Mirrors(c: Core, s: Snapshot, profiles: seq<Profile>) {
    && |s.deployments| == |profiles|
    && forall i :: 0 <= i < |profiles| ==>
         && s.deployments[i].alias == profiles[i].alias && s.deployments[i].deployment == profiles[i].deployment
         && s.deployments[i].warm == (ResidentId(c) == Some(profiles[i].deployment))
         && s.deployments[i].capacity.queued == multiset(Deployments(c.queue))[profiles[i].deployment]
         && DeploymentAccepted(s.deployments[i])
  }

  lemma SnapshotMirrors(c: Core, engineAlive: bool, ceiling: Option<nat>, profiles: seq<Profile>)
    requires Presentable(c, ceiling, profiles) && |c.queue| <= MILLION
    ensures var s := FleetSnapshot(c, engineAlive, ceiling, profiles); s.Some? && Mirrors(c, s.value, profiles)
  {
    CapacityIsAccepted(c.capacity, c.configured, c.active, |c.queue|, RootOpen(c, engineAlive));
    forall p | p in profiles ensures Advertise(c, engineAlive, ceiling, p).Some? {
      AdvertiseIsAccepted(c, engineAlive, ceiling, profiles, p);
    }
    AdvertiseAllShape(c, engineAlive, ceiling, profiles);
    forall i | 0 <= i < |profiles|
      ensures DeploymentAccepted(Advertise(c, engineAlive, ceiling, profiles[i]).value)
      ensures Advertise(c, engineAlive, ceiling, profiles[i]).value.capacity.queued ==
        multiset(Deployments(c.queue))[profiles[i].deployment]
    {
      AdvertiseIsAccepted(c, engineAlive, ceiling, profiles, profiles[i]);
    }
  }

  lemma OfferedIffListed(c: Core, s: Snapshot, profiles: seq<Profile>, id: DeploymentId)
    requires Mirrors(c, s, profiles)
    ensures Offered(s.deployments, id) <==> Lists(profiles, id)
  {
    if d :| d in s.deployments && d.deployment == id {
      var i :| 0 <= i < |s.deployments| && s.deployments[i] == d;
      assert profiles[i] in profiles;
    }
    if p :| p in profiles && p.deployment == id {
      var i :| 0 <= i < |profiles| && profiles[i] == p;
      assert s.deployments[i] in s.deployments;
    }
  }

  lemma ResidentListed(c: Core, s: Snapshot, profiles: seq<Profile>)
    requires Mirrors(c, s, profiles)
    requires s.residency.deployment == ResidentId(c)
    requires s.residency.alias == if c.resident.Some? then Some(c.resident.value.alias) else None
    requires s.residency.engine == if c.resident.Some? then Some(c.resident.value.deployment.engine) else None
    ensures ResidencyAccepted(s) <==> (c.resident.Some? ==>
      exists p :: p in profiles && p.alias == c.resident.value.alias && p.deployment == c.resident.value.deployment)
  {
    forall d | d in s.deployments ensures d.warm == (ResidentId(c) == Some(d.deployment)) {
      var i :| 0 <= i < |s.deployments| && s.deployments[i] == d;
    }
    if c.resident.Some? {
      if p :| p in profiles && p.alias == c.resident.value.alias && p.deployment == c.resident.value.deployment {
        var i :| 0 <= i < |profiles| && profiles[i] == p;
        assert s.deployments[i] in s.deployments;
      }
      var p := c.resident.value;
      if d :| d in s.deployments && d.warm && d.deployment == p.deployment && d.alias == p.alias {
        var i :| 0 <= i < |s.deployments| && s.deployments[i] == d;
        assert profiles[i] in profiles;
      }
    }
  }

  /** Snapshot refinement, exactly: a snapshot of a coordinator whose fields agree
      is accepted if and only if all it refers to is in the catalogue
      and the queue was not lowered below its present depth. */
  lemma SnapshotAccepted(c: Core, engineAlive: bool, ceiling: Option<nat>, profiles: seq<Profile>)
    requires Coherent(c) && Presentable(c, ceiling, profiles)
    ensures var s := FleetSnapshot(c, engineAlive, ceiling, profiles);
      s.Some? && (Accepted(s.value) <==> Catalogued(c, profiles) && |c.queue| <= c.maxQueue)
  {
    if |c.queue| > MILLION {
      SnapshotExists(c, engineAlive, ceiling, profiles);
    } else {
      SnapshotMirrors(c, engineAlive, ceiling, profiles);
      var s := FleetSnapshot(c, engineAlive, ceiling, profiles).value;
      SnapshotValuesAccepted(c, engineAlive, ceiling, profiles, s);
      LookupsDecide(c, s, profiles);
    }
  }

  /** With positive limits the node always has a snapshot to publish. */
  lemma SnapshotExists(c: Core, engineAlive: bool, ceiling: Option<nat>, profiles: seq<Profile>)
    requires Presentable(c, ceiling, profiles)
    ensures var s := FleetSnapshot(c, engineAlive, ceiling, profiles); s.Some? && s.value.admission.depth == |c.queue|
  {
    AdvertiseAllShape(c, engineAlive, ceiling, profiles);
  }

  /** What is left to decide once the values are right. */
  lemma LookupsDecide(c: Core, s: Snapshot, profiles: seq<Profile>)
    requires Mirrors(c, s, profiles) && ValuesAccepted(s)
    requires s.residency.deployment == ResidentId(c) && s.residency.target == c.target
    requires s.residency.alias == if c.resident.Some? then Some(c.resident.value.alias) else None
    requires s.residency.engine == if c.resident.Some? then Some(c.resident.value.deployment.engine) else None
    requires s.admission == AdmissionView(|c.queue|, c.maxQueue, multiset(Deployments(c.queue)))
    requires 1 <= c.maxQueue <= MILLION && |c.queue| <= MILLION
    requires s.residency.target.Some? ==>
      s.health.state in {Of(Draining), Of(Unloading), Of(Loading)} && s.capacity.available == 0
    ensures Accepted(s) <==> Catalogued(c, profiles) && |c.queue| <= c.maxQueue
  {
    ResidentListed(c, s, profiles);
    ReferencesListed(c, s, profiles);
  }

  lemma SnapshotValuesAccepted(c: Core, engineAlive: bool, ceiling: Option<nat>, profiles: seq<Profile>, s: Snapshot)
    requires Coherent(c) && Presentable(c, ceiling, profiles) && |c.queue| <= MILLION && Mirrors(c, s, profiles)
    requires FleetSnapshot(c, engineAlive, ceiling, profiles) == Some(s)
    ensures ValuesAccepted(s)
    ensures s.residency.target.Some? ==>
      s.health.state in {Of(Draining), Of(Unloading), Of(Loading)} && s.capacity.available == 0
  {
    CapacityIsAccepted(c.capacity, c.configured, c.active, |c.queue|, RootOpen(c, engineAlive));
    FieldsAccepted(c, s, profiles);
    HealthIsAccepted(c, engineAlive, s);
  }

  lemma ReferencesListed(c: Core, s: Snapshot, profiles: seq<Profile>)
    requires Mirrors(c, s, profiles) && s.admission.queuedBy == multiset(Deployments(c.queue))
    ensures (forall id :: id in s.admission.queuedBy ==> Offered(s.deployments, id))
       <==> (forall w :: w in c.queue ==> Lists(profiles, w.profile.deployment))
    ensures c.target.Some? ==> (Offered(s.deployments, c.target.value) <==> Lists(profiles, c.target.value))
  {
    forall id ensures Offered(s.deployments, id) <==> Lists(profiles, id) {
      OfferedIffListed(c, s, profiles, id);
    }
    QueuedListed(c, profiles);
  }

  lemma QueuedListed(c: Core, profiles: seq<Profile>)
    ensures (forall id :: id in multiset(Deployments(c.queue)) ==> Lists(profiles, id))
       <==> (forall w :: w in c.queue ==> Lists(profiles, w.profile.deployment))
  {
    forall id ensures id in multiset(Deployments(c.queue)) <==> exists w :: w in c.queue && w.profile.deployment == id {
      QueuedCounts(c, id);
    }
  }

  lemma FieldsAccepted(c: Core, s: Snapshot, profiles: seq<Profile>)
    requires Mirrors(c, s, profiles) && s.admission.queuedBy == multiset(Deployments(c.queue))
    requires forall i, j :: 0 <= i < j < |profiles| ==> profiles[i].alias != profiles[j].alias
    ensures forall d :: d in s.deployments ==>
      DeploymentAccepted(d) && d.capacity.queued == s.admission.queuedBy[d.deployment]
    ensures forall i, j :: 0 <= i < j < |s.deployments| ==> s.deployments[i].alias != s.deployments[j].alias
  {
    forall d | d in s.deployments
      ensures DeploymentAccepted(d) && d.capacity.queued == s.admission.queuedBy[d.deployment]
    {
      var i :| 0 <= i < |s.deployments| && s.deployments[i] == d;
    }
  }

  lemma HealthIsAccepted(c: Core, engineAlive: bool, s: Snapshot)
    requires Coherent(c)
    requires s.health == HealthOf(c, engineAlive) && RootCapacity(c, engineAlive) == Some(s.capacity)
    requires s.residency.deployment == ResidentId(c) && s.residency.target == c.target
    ensures HealthAccepted(s) && AvailabilityAccepted(s)
    ensures s.residency.target.Some? ==>
      s.health.state in {Of(Draining), Of(Unloading), Of(Loading)} && s.capacity.available == 0
  {
  }

  /** In every state that any run on inputs within the ranges reaches, a hazardous run
      too, the node's snapshot is accepted exactly when all it refers to is catalogued
      and its queue is in bounds. */
  lemma ReachableSnapshotsAccepted(configured: Option<nat>, maxQueue: nat, es: seq<Step>,
                                   engineAlive: bool, ceiling: Option<nat>, profiles: seq<Profile>)
    requires SettingsInRange(configured, maxQueue) && CatalogueInRange(ceiling, profiles)
    requires Run(Start(configured, maxQueue), es) && forall e :: e in es ==> InputInRange(e)
    ensures var c := Purge(Final(Start(configured, maxQueue), es).core);
      var s := FleetSnapshot(c, engineAlive, ceiling, profiles);
      s.Some? && (Accepted(s.value) <==> Catalogued(c, profiles) && |c.queue| <= c.maxQueue)
  {
    AlwaysCoherent(configured, maxQueue, es);
    RunRanged(Start(configured, maxQueue), es);
    SnapshotAccepted(Purge(Final(Start(configured, maxQueue), es).core), engineAlive, ceiling, profiles);
  }

  // ----- what a snapshot says

  /** The published root capacity is the coordinator's: `effective` is the largest number
      of permits that fits its settings, and free permits are shown exactly while the
      node takes requests in rest. */
  lemma RootShows(c: Core, engineAlive: bool, ceiling: Option<nat>, profiles: seq<Profile>)
    requires Presentable(c, ceiling, profiles)
    ensures var s := FleetSnapshot(c, engineAlive, ceiling, profiles);
      && s.Some? && s.value.capacity.active == c.active && s.value.capacity.queued == |c.queue|
      && s.value.admission.limit == c.maxQueue && s.value.residency.epoch == c.epoch
      && (forall n: nat :: Fits(c, n) <==> n <= s.value.capacity.effective)
      && (Fits(c, c.active) ==> c.active <= s.value.capacity.effective)
      && (s.value.capacity.available > 0 <==>
            s.value.health.accepting && (c.mode == Idle || c.mode == Ready) && Fits(c, c.active + 1))
  {
    SnapshotExists(c, engineAlive, ceiling, profiles);
  }

  /** The engine process contradicts what the coordinator believes. */
  predicate Contradicted(c: Core, engineAlive: bool) {
    if engineAlive then c.mode == Idle && c.resident.None? else c.mode == Ready && c.resident.Some?
  }

  /** The node says that it takes requests exactly when its coordinator does and the
      engine process does not contradict it; if it does, the node is degraded. */
  lemma HealthShows(c: Core, engineAlive: bool)
    ensures HealthOf(c, engineAlive).accepting <==>
      c.accepting && c.authoritative && !c.stopping && !Contradicted(c, engineAlive)
    ensures HealthOf(c, engineAlive).authoritative <==> c.authoritative && !Contradicted(c, engineAlive)
    ensures HealthOf(c, engineAlive).state == Of(if Contradicted(c, engineAlive) then Degraded else c.mode)
  {
  }

  /** What the entry of a catalogued profile says. */
  ghost predicate Describes(d: Deployment, p: Profile, c: Core, engineAlive: bool, ceiling: Option<nat>) {
    && d.alias == p.alias && d.deployment == p.deployment
    && (d.authoritative <==> p.pinned && p.portable) && (d.eligible <==> p.pinned && p.portable)
    && (d.immutable <==> p.pinned) && d.loadable
    && (d.warm <==> c.resident.Some? && c.resident.value.deployment == p.deployment)
    && (d.warm ==> d.capacity.derived == c.capacity.derivedLimit && d.capacity.configured == c.configured
                   && d.capacity.active == c.active)
    && (!d.warm ==> d.capacity.derived == p.cold.derivedLimit && d.capacity.configured == ceiling
                    && d.capacity.active == 0
                    && d.capacity.available == if HealthOf(c, engineAlive).accepting then d.capacity.effective else 0)
  }

  /** Every profile has its entry, and the entry says what the profile is: eligible if and
      only if pinned and portable, with the resident's capacity when warm and with the
      profile's own when cold. */
  lemma EntriesDescribe(c: Core, engineAlive: bool, ceiling: Option<nat>, profiles: seq<Profile>)
    requires Presentable(c, ceiling, profiles)
    ensures var s := FleetSnapshot(c, engineAlive, ceiling, profiles);
      && s.Some? && |s.value.deployments| == |profiles|
      && forall i :: 0 <= i < |profiles| ==> Describes(s.value.deployments[i], profiles[i], c, engineAlive, ceiling)
  {
    SnapshotExists(c, engineAlive, ceiling, profiles);
    AdvertiseAllShape(c, engineAlive, ceiling, profiles);
    forall i | 0 <= i < |profiles|
      ensures Describes(Advertise(c, engineAlive, ceiling, profiles[i]).value, profiles[i], c, engineAlive, ceiling)
    {
      EntryDescribes(c, engineAlive, ceiling, profiles[i]);
    }
  }

  lemma EntryDescribes(c: Core, engineAlive: bool, ceiling: Option<nat>, p: Profile)
    requires Advertise(c, engineAlive, ceiling, p).Some?
    ensures Describes(Advertise(c, engineAlive, ceiling, p).value, p, c, engineAlive, ceiling)
  {
  }

  /** On hazard-free runs that never shrink the settings, no snapshot shows more active
      requests than the limit it publishes. */
  lemma NeverOverSubscribed(configured: Option<nat>, maxQueue: nat, es: seq<Step>,
                            engineAlive: bool, ceiling: Option<nat>, profiles: seq<Profile>)
    requires SettingsInRange(configured, maxQueue) && CatalogueInRange(ceiling, profiles)
    requires Run(Start(configured, maxQueue), es) && forall e :: e in es ==> InputInRange(e)
    requires HazardFree(Start(configured, maxQueue), es) && NeverShrinks(Start(configured, maxQueue), es)
    ensures var s := FleetSnapshot(Final(Start(configured, maxQueue), es).core, engineAlive, ceiling, profiles);
      s.Some? && s.value.capacity.active <= s.value.capacity.effective
  {
    RunRanged(Start(configured, maxQueue), es);
    WithinSettings(configured, maxQueue, es);
    RootShows(Final(Start(configured, maxQueue), es).core, engineAlive, ceiling, profiles);
  }

  // ----- the snapshot counts who is there

  /** The requests a snapshot shows running or queued. */
  function Occupancy(s: Snapshot): nat { s.capacity.active + s.admission.depth }

  lemma IdsOneMore(q: seq<Waiter>, w: Waiter)
    ensures Ids(q + [w]) == Ids(q) + {w.id}
  {
    assert forall v :: v in q + [w] <==> v in q || v == w;
  }

  lemma {:induction false} DistinctIds(q: seq<Waiter>)
    requires forall i, j :: 0 <= i < j < |q| ==> q[i].id < q[j].id
    ensures |Ids(q)| == |q|
  {
    if q != [] {
      var rest, last := q[..|q| - 1], q[|q| - 1];
      DistinctIds(rest);
      assert q == rest + [last];
      IdsOneMore(rest, last);
      assert last.id !in Ids(rest);
    }
  }

  /** A coordinator that keeps its invariant shows exactly the requests that hold a
      permit or a place in its queue. */
  lemma OccupantsCounted(st: State, engineAlive: bool, ceiling: Option<nat>, profiles: seq<Profile>)
    requires Inv(st) && Presentable(st.core, ceiling, profiles)
    ensures var s := FleetSnapshot(st.core, engineAlive, ceiling, profiles);
      && s.Some? && s.value.capacity.active == |st.permits| && s.value.admission.depth == |st.core.queue|
      && Occupancy(s.value) == |st.permits.Keys + Ids(st.core.queue)|
  {
    SnapshotExists(st.core, engineAlive, ceiling, profiles);
    DistinctIds(st.core.queue);
    PermitsApartFromQueue(st);
    assert |st.permits| == |st.permits.Keys|;
  }

  lemma PermitsApartFromQueue(st: State)
    requires Ledger(st)
    ensures st.permits.Keys !! Ids(st.core.queue)
  {
    forall w | w in st.core.queue ensures w.id !in st.permits {
      var i :| 0 <= i < |st.core.queue| && st.core.queue[i] == w;
    }
  }
}
