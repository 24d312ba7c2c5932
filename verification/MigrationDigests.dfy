// From records to digests: the traffic digest binds the whole cutover, and every
// digest is a function of the plan alone.

module MigrationDigests {
  import opened Text
  import opened Sorting
  import opened Json
  import opened Canonical
  import opened MigrationModel
  import opened MigrationPlan
  import opened MigrationBinding

  // ---- Documents ------------------------------------------------------------------

  lemma HeaderBinds(version: string, c: Config, d: Config)
    requires SortKeys(Obj(Header(version, c))) == SortKeys(Obj(Header(version, d)))
    ensures SamePlace(c, d)
  {
    var f, g := Header(version, c), Header(version, d);
    RecordBinds(f, g);
    assert f[1].value == Str(c.project) && f[2].value == Str(c.environment) && f[3].value == Str(c.region);
  }

  // A document binds its header and each field of its body.
  lemma DocumentBinds(version: string, c: Config, f: seq<Field>, d: Config, g: seq<Field>)
    requires SameKeys(f, g)
    requires SortKeys(Obj(Header(version, c) + f)) == SortKeys(Obj(Header(version, d) + g))
    ensures SamePlace(c, d)
    ensures forall i :: 0 <= i < |f| ==> SortKeys(f[i].value) == SortKeys(g[i].value)
  {
    var p, q := Header(version, c), Header(version, d);
    assert SameKeys(p, q);
    RecordBinds(p + f, q + g);
    forall i | 0 <= i < 4
      ensures SortKeys(p[i].value) == SortKeys(q[i].value)
    {
      assert (p + f)[i] == p[i] && (q + g)[i] == q[i];
    }
    RecordSame(p, q);
    HeaderBinds(version, c, d);
    forall i | 0 <= i < |f|
      ensures SortKeys(f[i].value) == SortKeys(g[i].value)
    {
      assert (p + f)[4 + i] == f[i] && (q + g)[4 + i] == g[i];
    }
  }

  lemma DocumentSame(version: string, c: Config, f: seq<Field>, d: Config, g: seq<Field>)
    requires SamePlace(c, d) && SameKeys(f, g)
    requires forall i :: 0 <= i < |f| ==> SortKeys(f[i].value) == SortKeys(g[i].value)
    ensures SortKeys(Obj(Header(version, c) + f)) == SortKeys(Obj(Header(version, d) + g))
  {
    RecordSame(Header(version, c) + f, Header(version, d) + g);
  }

  lemma EffectiveConfigurationBinds(c: Config, d: Config)
    requires SortKeys(EffectiveJson(c)) == SortKeys(EffectiveJson(d))
    ensures c.identity == d.identity && c.agents == d.agents && c.security == d.security
  {
    var f, g := EffectiveValues(c), EffectiveValues(d);
    RecBinds(EFFECTIVE_KEYS, f, g);
    assert SortKeys(f[0]) == SortKeys(g[0]) && SortKeys(f[1]) == SortKeys(g[1]) && SortKeys(f[2]) == SortKeys(g[2]);
    IdentityBinds(c.identity, d.identity);
    AgentsBinds(c.agents, d.agents);
    SecurityBinds(c.security, d.security);
  }

  lemma RuntimeBodyKeys(c: Config, m: Migration, d: Config, n: Migration)
    ensures SameKeys(RuntimeBody(c, m), RuntimeBody(d, n))
  {
  }

  lemma RuntimeBodyBinds(c: Config, m: Migration, d: Config, n: Migration)
    requires ValidSource(m.source)
    requires forall i :: 0 <= i < 5 ==> SortKeys(RuntimeBody(c, m)[i].value) == SortKeys(RuntimeBody(d, n)[i].value)
    ensures SameDeployment(c.deployment, d.deployment) && SameSource(m.source, n.source) && m.target == n.target
    ensures c.identity == d.identity && c.agents == d.agents && c.security == d.security
    ensures m.stages.runtime.receipt == n.stages.runtime.receipt
  {
    RuntimeBodyParts(c, m, d, n);
    DeploymentBinds(c.deployment, d.deployment);
    SourceBinds(m.source, n.source);
    RuntimeTargetBinds(m.target, c.agents.runtimeGeneration, n.target, d.agents.runtimeGeneration);
    EffectiveConfigurationBinds(c, d);
    ReceiptBinds(m.stages.runtime.receipt, n.stages.runtime.receipt);
  }

  lemma RuntimeBodyParts(c: Config, m: Migration, d: Config, n: Migration)
    requires forall i :: 0 <= i < 5 ==> SortKeys(RuntimeBody(c, m)[i].value) == SortKeys(RuntimeBody(d, n)[i].value)
    ensures SortKeys(DeploymentJson(c.deployment)) == SortKeys(DeploymentJson(d.deployment))
    ensures SortKeys(SourceJson(m.source)) == SortKeys(SourceJson(n.source))
    ensures SortKeys(RuntimeTargetJson(m.target, c.agents.runtimeGeneration))
            == SortKeys(RuntimeTargetJson(n.target, d.agents.runtimeGeneration))
    ensures SortKeys(EffectiveJson(c)) == SortKeys(EffectiveJson(d))
    ensures SortKeys(ReceiptJson(m.stages.runtime.receipt)) == SortKeys(ReceiptJson(n.stages.runtime.receipt))
  {
    var f, g := RuntimeBody(c, m), RuntimeBody(d, n);
    assert SortKeys(f[0].value) == SortKeys(g[0].value) && SortKeys(f[1].value) == SortKeys(g[1].value);
    assert SortKeys(f[2].value) == SortKeys(g[2].value) && SortKeys(f[3].value) == SortKeys(g[3].value);
    assert SortKeys(f[4].value) == SortKeys(g[4].value);
  }

  lemma RuntimeBodySame(c: Config, m: Migration, d: Config, n: Migration)
    requires ValidSource(m.source) && SameRuntimePlan(c, m, d, n)
    ensures forall i :: 0 <= i < 5 ==> SortKeys(RuntimeBody(c, m)[i].value) == SortKeys(RuntimeBody(d, n)[i].value)
  {
    SourceSame(m.source, n.source);
    SortStringsCanonical(c.deployment.workloadAccounts, d.deployment.workloadAccounts);
  }

  lemma RuntimeDocumentAgrees(c: Config, m: Migration, d: Config, n: Migration)
    requires ValidSource(m.source)
    ensures SortKeys(Obj(RuntimeDocument(c, m))) == SortKeys(Obj(RuntimeDocument(d, n)))
            <==> SameRuntimePlan(c, m, d, n)
  {
    var f, g := RuntimeBody(c, m), RuntimeBody(d, n);
    RuntimeBodyKeys(c, m, d, n);
    if SortKeys(Obj(RuntimeDocument(c, m))) == SortKeys(Obj(RuntimeDocument(d, n))) {
      DocumentBinds("migration-runtime-plan/v1", c, f, d, g);
      RuntimeBodyBinds(c, m, d, n);
    }
    if SameRuntimePlan(c, m, d, n) {
      RuntimeBodySame(c, m, d, n);
      DocumentSame("migration-runtime-plan/v1", c, f, d, g);
    }
  }

  lemma NetworkDocumentBinds(c: Config, m: Migration, d: Config, n: Migration)
    requires SortKeys(Obj(NetworkDocument(c, m))) == SortKeys(Obj(NetworkDocument(d, n)))
    ensures SameNetworkPlan(c, m, d, n)
  {
    var f, g := NetworkBody(m), NetworkBody(n);
    DocumentBinds("migration-network-plan/v1", c, f, d, g);
    assert f[0].value == Str(m.stages.runtime.receipt.accountId);
    assert f[1].value == NetworkPlanJson(m.network) && g[1].value == NetworkPlanJson(n.network);
    NetworkPlanBinds(m.network, n.network);
  }

  lemma NetworkDocumentAgrees(c: Config, m: Migration, d: Config, n: Migration)
    ensures SortKeys(Obj(NetworkDocument(c, m))) == SortKeys(Obj(NetworkDocument(d, n)))
            <==> SameNetworkPlan(c, m, d, n)
  {
    if SortKeys(Obj(NetworkDocument(c, m))) == SortKeys(Obj(NetworkDocument(d, n))) {
      NetworkDocumentBinds(c, m, d, n);
    }
    if SameNetworkPlan(c, m, d, n) {
      SortStringsCanonical(m.network.privateDependencies, n.network.privateDependencies);
      SortStringsCanonical(m.network.dnsForwarders, n.network.dnsForwarders);
      SortStringsCanonical(m.network.receipt.privateSubnetIds, n.network.receipt.privateSubnetIds);
      SortStringsCanonical(m.network.receipt.securityGroupIds, n.network.receipt.securityGroupIds);
      DocumentSame("migration-network-plan/v1", c, NetworkBody(m), d, NetworkBody(n));
    }
  }

  lemma DataDocumentBinds(c: Config, m: Migration, d: Config, n: Migration)
    requires SortKeys(Obj(DataDocument(c, m))) == SortKeys(Obj(DataDocument(d, n)))
    ensures SameDataPlan(c, m, d, n)
  {
    var f, g := DataBody(m), DataBody(n);
    DocumentBinds("migration-data-plan/v1", c, f, d, g);
    assert f[0].value == TargetJson(m.target) && g[0].value == TargetJson(n.target);
    assert f[1].value == Str(DataStrategyText(m.stages.data.strategy));
    assert f[2].value == DatasetsJson(m.stages.data.datasets) && g[2].value == DatasetsJson(n.stages.data.datasets);
    TargetBinds(m.target, n.target);
    TextsDiffer();
    DatasetsBind(m.stages.data.datasets, n.stages.data.datasets);
  }

  lemma DataDocumentAgrees(c: Config, m: Migration, d: Config, n: Migration)
    requires ValidDataStage(m.stages.data)
    ensures SortKeys(Obj(DataDocument(c, m))) == SortKeys(Obj(DataDocument(d, n))) <==> SameDataPlan(c, m, d, n)
  {
    if SortKeys(Obj(DataDocument(c, m))) == SortKeys(Obj(DataDocument(d, n))) {
      DataDocumentBinds(c, m, d, n);
    }
    if SameDataPlan(c, m, d, n) {
      SortCanonical(NameOf, m.stages.data.datasets, n.stages.data.datasets);
      DocumentSame("migration-data-plan/v1", c, DataBody(m), d, DataBody(n));
    }
  }

  lemma TriggerDocumentBinds(c: Config, m: Migration, d: Config, n: Migration)
    requires SortKeys(Obj(TriggerDocument(c, m))) == SortKeys(Obj(TriggerDocument(d, n)))
    ensures SameTriggerPlan(c, m, d, n)
  {
    var f, g := TriggerBody(m), TriggerBody(n);
    DocumentBinds("migration-trigger-plan/v1", c, f, d, g);
    assert f[0].value == Str(TriggerText(m.source.trigger));
    assert f[1].value == TriggerPlanJson(m.stages.triggers.plan)
           && g[1].value == TriggerPlanJson(n.stages.triggers.plan);
    TextsDiffer();
    TriggerPlanBinds(m.stages.triggers.plan, n.stages.triggers.plan);
  }

  lemma TriggerDocumentAgrees(c: Config, m: Migration, d: Config, n: Migration)
    ensures SortKeys(Obj(TriggerDocument(c, m))) == SortKeys(Obj(TriggerDocument(d, n)))
            <==> SameTriggerPlan(c, m, d, n)
  {
    if SortKeys(Obj(TriggerDocument(c, m))) == SortKeys(Obj(TriggerDocument(d, n))) {
      TriggerDocumentBinds(c, m, d, n);
    }
    if SameTriggerPlan(c, m, d, n) {
      DocumentSame("migration-trigger-plan/v1", c, TriggerBody(m), d, TriggerBody(n));
    }
  }

  // ---- Digests --------------------------------------------------------------------

  // The one assumption about the hash: it does not collide on this pair.
  ghost predicate NoCollision(h: Hash, f: seq<Field>, g: seq<Field>) {
    var a, b := CanonicalText(Obj(f)), CanonicalText(Obj(g));
    h(a) == h(b) ==> a == b
  }

  lemma DigestAgrees(h: Hash, f: seq<Field>, g: seq<Field>)
    requires NoCollision(h, f, g)
    ensures PlanDigest(h, f) == PlanDigest(h, g) <==> SortKeys(Obj(f)) == SortKeys(Obj(g))
  {
    var a, b := CanonicalText(Obj(f)), CanonicalText(Obj(g));
    if PlanDigest(h, f) == PlanDigest(h, g) {
      CutSame("sha256:", "sha256:", h(a), h(b));
      CanonicalBinds(Obj(f), Obj(g));
    }
  }

  ghost predicate CollisionFree(h: Hash, c: Config, m: Migration, d: Config, n: Migration) {
    && NoCollision(h, RuntimeDocument(c, m), RuntimeDocument(d, n))
    && NoCollision(h, NetworkDocument(c, m), NetworkDocument(d, n))
    && NoCollision(h, DataDocument(c, m), DataDocument(d, n))
    && NoCollision(h, TriggerDocument(c, m), TriggerDocument(d, n))
    && NoCollision(h, TrafficDocument(h, c, m), TrafficDocument(h, d, n))
  }

  // Each stage digest is equal exactly when its plan is.
  lemma StageDigestsAgree(h: Hash, c: Config, m: Migration, d: Config, n: Migration)
    requires CollisionFree(h, c, m, d, n)
    requires ValidSource(m.source) && ValidDataStage(m.stages.data)
    ensures RuntimeDigest(h, c, m) == RuntimeDigest(h, d, n) <==> SameRuntimePlan(c, m, d, n)
    ensures NetworkDigest(h, c, m) == NetworkDigest(h, d, n) <==> SameNetworkPlan(c, m, d, n)
    ensures DataDigest(h, c, m) == DataDigest(h, d, n) <==> SameDataPlan(c, m, d, n)
    ensures TriggerDigest(h, c, m) == TriggerDigest(h, d, n) <==> SameTriggerPlan(c, m, d, n)
  {
    DigestAgrees(h, RuntimeDocument(c, m), RuntimeDocument(d, n));
    DigestAgrees(h, NetworkDocument(c, m), NetworkDocument(d, n));
    DigestAgrees(h, DataDocument(c, m), DataDocument(d, n));
    DigestAgrees(h, TriggerDocument(c, m), TriggerDocument(d, n));
    RuntimeDocumentAgrees(c, m, d, n);
    NetworkDocumentAgrees(c, m, d, n);
    DataDocumentAgrees(c, m, d, n);
    TriggerDocumentAgrees(c, m, d, n);
  }

  lemma TrafficBodyKeys(k: Links, c: Config, m: Migration, l: Links, d: Config, n: Migration)
    ensures SameKeys(TrafficBody(k, c, m), TrafficBody(l, d, n))
  {
  }

  lemma LinksBind(k: Links, c: Config, m: Migration, l: Links, d: Config, n: Migration)
    requires forall i :: 0 <= i < 8 ==>
             SortKeys(TrafficBody(k, c, m)[i].value) == SortKeys(TrafficBody(l, d, n)[i].value)
    ensures k == l
  {
    var f := TrafficBody(k, c, m);
    assert f[2].value == Str(k.runtime) && f[3].value == Str(k.network);
    assert f[4].value == Str(k.data) && f[5].value == Str(k.triggers);
  }

  lemma OperationsBind(k: Links, c: Config, m: Migration, l: Links, d: Config, n: Migration)
    requires forall i :: 0 <= i < 8 ==>
             SortKeys(TrafficBody(k, c, m)[i].value) == SortKeys(TrafficBody(l, d, n)[i].value)
    ensures c.gateway == d.gateway && c.observability == d.observability
    ensures m.stages.traffic.plan == n.stages.traffic.plan
  {
    var f, g := TrafficBody(k, c, m), TrafficBody(l, d, n);
    assert f[6].value == OperationalJson(c) && g[6].value == OperationalJson(d);
    assert f[7].value == TrafficPlanJson(m.stages.traffic.plan) && g[7].value == TrafficPlanJson(n.stages.traffic.plan);
    OperationalBinds(c, d);
    TrafficPlanBinds(m.stages.traffic.plan, n.stages.traffic.plan);
  }

  lemma TrafficDocumentBinds(h: Hash, c: Config, m: Migration, d: Config, n: Migration)
    requires SortKeys(Obj(TrafficDocument(h, c, m))) == SortKeys(Obj(TrafficDocument(h, d, n)))
    ensures LinksOf(h, c, m) == LinksOf(h, d, n)
    ensures c.gateway == d.gateway && c.observability == d.observability
    ensures m.stages.traffic.plan == n.stages.traffic.plan
  {
    var k, l := LinksOf(h, c, m), LinksOf(h, d, n);
    TrafficBodyKeys(k, c, m, l, d, n);
    DocumentBinds("migration-traffic-plan/v1", c, TrafficBody(k, c, m), d, TrafficBody(l, d, n));
    LinksBind(k, c, m, l, d, n);
    OperationsBind(k, c, m, l, d, n);
  }

  lemma OperationalBinds(c: Config, d: Config)
    requires SortKeys(OperationalJson(c)) == SortKeys(OperationalJson(d))
    ensures c.gateway == d.gateway && c.observability == d.observability
  {
    var f, g := OperationalValues(c), OperationalValues(d);
    RecBinds(OPERATIONAL_KEYS, f, g);
    assert SortKeys(f[0]) == SortKeys(g[0]) && SortKeys(f[1]) == SortKeys(g[1]);
    GatewayBinds(c.gateway, d.gateway);
    ObservabilityBinds(c.observability, d.observability);
  }

  // A digest is never empty, so a linked digest also tells whether its stage is
  // required at all.
  lemma LinkTellsRequired(required: bool, h: Hash, f: seq<Field>, required': bool, g: seq<Field>)
    requires Linked(required, PlanDigest(h, f)) == Linked(required', PlanDigest(h, g))
    ensures required == required' && (required ==> PlanDigest(h, f) == PlanDigest(h, g))
  {
    assert |PlanDigest(h, f)| >= 7 && |PlanDigest(h, g)| >= 7;
  }

  lemma TrafficDocumentSame(h: Hash, c: Config, m: Migration, d: Config, n: Migration)
    requires SameCutover(c, m, d, n) && LinksOf(h, c, m) == LinksOf(h, d, n)
    ensures TrafficDocument(h, c, m) == TrafficDocument(h, d, n)
  {
    assert Header("migration-traffic-plan/v1", c) == Header("migration-traffic-plan/v1", d);
  }

  // Main result: two traffic digests are equal exactly when the whole cutover
  // they stand for is the same, including which stages it requires.
  lemma TrafficDigestBinds(h: Hash, c: Config, m: Migration, d: Config, n: Migration)
    requires CollisionFree(h, c, m, d, n)
    requires ValidSource(m.source) && ValidDataStage(m.stages.data)
    ensures TrafficDigest(h, c, m) == TrafficDigest(h, d, n) <==> SameCutover(c, m, d, n)
  {
    DigestAgrees(h, TrafficDocument(h, c, m), TrafficDocument(h, d, n));
    StageDigestsAgree(h, c, m, d, n);
    if TrafficDigest(h, c, m) == TrafficDigest(h, d, n) {
      TrafficDocumentBinds(h, c, m, d, n);
      LinkTellsRequired(NetworkRequired(m), h, NetworkDocument(c, m), NetworkRequired(n), NetworkDocument(d, n));
      LinkTellsRequired(DataRequired(m), h, DataDocument(c, m), DataRequired(n), DataDocument(d, n));
      LinkTellsRequired(TriggersRequired(m), h, TriggerDocument(c, m), TriggersRequired(n), TriggerDocument(d, n));
    }
    if SameCutover(c, m, d, n) {
      TrafficDocumentSame(h, c, m, d, n);
    }
  }

  // Reordering secrets, accounts, dependencies, resolvers, subnets, security
  // groups, environment variables or uniquely named datasets changes no digest.
  // This direction needs nothing of the hash.
  lemma DigestsAreCanonical(h: Hash, c: Config, m: Migration, d: Config, n: Migration)
    requires ValidSource(m.source) && ValidDataStage(m.stages.data)
    ensures SameRuntimePlan(c, m, d, n) ==> RuntimeDigest(h, c, m) == RuntimeDigest(h, d, n)
    ensures SameNetworkPlan(c, m, d, n) ==> NetworkDigest(h, c, m) == NetworkDigest(h, d, n)
    ensures SameDataPlan(c, m, d, n) ==> DataDigest(h, c, m) == DataDigest(h, d, n)
    ensures SameTriggerPlan(c, m, d, n) ==> TriggerDigest(h, c, m) == TriggerDigest(h, d, n)
    ensures SameCutover(c, m, d, n) ==> TrafficDigest(h, c, m) == TrafficDigest(h, d, n)
  {
    RuntimeDocumentAgrees(c, m, d, n);
    NetworkDocumentAgrees(c, m, d, n);
    DataDocumentAgrees(c, m, d, n);
    TriggerDocumentAgrees(c, m, d, n);
    if SameCutover(c, m, d, n) {
      TrafficDocumentSame(h, c, m, d, n);
    }
  }
}
