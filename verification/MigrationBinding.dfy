// What the plan digests bind. Equal digests mean equal plans, up to the order of
// the lists the documents sort, and equal plans have equal digests. Each lemma
// reads one record of a plan document back from its canonical form; together
// they give the agreement relations the digest theorems are stated with.

module MigrationBinding {
  import opened Text
  import opened Sorting
  import opened Json
  import opened Canonical
  import opened MigrationModel
  import opened MigrationPlan

  // ---- Agreement up to order ---------------------------------------------------

  ghost predicate SameStrings(a: seq<string>, b: seq<string>) { multiset(a) == multiset(b) }

  ghost predicate SameDeployment(a: Deployment, b: Deployment) {
    && a.mode == b.mode && a.strategy == b.strategy && a.platformAccount == b.platformAccount
    && SameStrings(a.workloadAccounts, b.workloadAccounts)
  }

  ghost predicate SameSource(a: Source, b: Source) {
    && a.(env := [], secrets := []) == b.(env := [], secrets := [])
    && multiset(a.env) == multiset(b.env) && SameStrings(a.secrets, b.secrets)
  }

  ghost predicate SameReceipt(a: NetworkReceipt, b: NetworkReceipt) {
    && a.(privateSubnetIds := [], securityGroupIds := []) == b.(privateSubnetIds := [], securityGroupIds := [])
    && SameStrings(a.privateSubnetIds, b.privateSubnetIds) && SameStrings(a.securityGroupIds, b.securityGroupIds)
  }

  ghost predicate SamePlace(c: Config, d: Config) {
    c.project == d.project && c.environment == d.environment && c.region == d.region
  }

  ghost predicate SameRuntimePlan(c: Config, m: Migration, d: Config, n: Migration) {
    && SamePlace(c, d) && SameDeployment(c.deployment, d.deployment) && SameSource(m.source, n.source)
    && m.target == n.target && c.identity == d.identity && c.agents == d.agents && c.security == d.security
    && m.stages.runtime.receipt == n.stages.runtime.receipt
  }

  ghost predicate SameNetworkPlan(c: Config, m: Migration, d: Config, n: Migration) {
    && SamePlace(c, d) && m.stages.runtime.receipt.accountId == n.stages.runtime.receipt.accountId
    && SameStrings(m.network.privateDependencies, n.network.privateDependencies)
    && m.network.connectivity == n.network.connectivity
    && SameStrings(m.network.dnsForwarders, n.network.dnsForwarders)
    && m.network.caBundleSecretName == n.network.caBundleSecretName
    && SameReceipt(m.network.receipt, n.network.receipt)
  }

  ghost predicate SameDataPlan(c: Config, m: Migration, d: Config, n: Migration) {
    && SamePlace(c, d) && m.target == n.target && m.stages.data.strategy == n.stages.data.strategy
    && multiset(m.stages.data.datasets) == multiset(n.stages.data.datasets)
  }

  ghost predicate SameTriggerPlan(c: Config, m: Migration, d: Config, n: Migration) {
    SamePlace(c, d) && m.source.trigger == n.source.trigger && m.stages.triggers.plan == n.stages.triggers.plan
  }

  // Everything a traffic digest stands for.
  ghost predicate SameCutover(c: Config, m: Migration, d: Config, n: Migration) {
    && SameRuntimePlan(c, m, d, n)
    && c.gateway == d.gateway && c.observability == d.observability
    && m.stages.traffic.plan == n.stages.traffic.plan
    && NetworkRequired(m) == NetworkRequired(n)
    && DataRequired(m) == DataRequired(n)
    && TriggersRequired(m) == TriggersRequired(n)
    && (NetworkRequired(m) ==> SameNetworkPlan(c, m, d, n))
    && (DataRequired(m) ==> SameDataPlan(c, m, d, n))
    && (TriggersRequired(m) ==> SameTriggerPlan(c, m, d, n))
  }

  // ---- Scalars and small records -------------------------------------------------

  lemma TextsDiffer()
    ensures forall a, b :: TriggerText(a) == TriggerText(b) ==> a == b
    ensures forall a, b :: DataStrategyText(a) == DataStrategyText(b) ==> a == b
    ensures forall a, b :: TriggerStrategyText(a) == TriggerStrategyText(b) ==> a == b
    ensures forall a, b :: TrafficStrategyText(a) == TrafficStrategyText(b) ==> a == b
    ensures forall a, b :: SafetyJson(a) == SafetyJson(b) ==> a == b
  {
    assert "external-canary"[9] != "external-switch"[9];
    assert "webhook"[0] != "schedule"[0] && "http"[0] != "queue"[0];
    assert "retain-source"[0] != "external-copy"[0];
    assert "idempotent"[0] != "dual-publish"[0];
  }

  lemma IdentityBinds(a: Identity, b: Identity)
    requires SortKeys(IdentityJson(a)) == SortKeys(IdentityJson(b))
    ensures a == b
  {
    var f, g := IdentityValues(a), IdentityValues(b);
    RecBinds(IDENTITY_KEYS, f, g);
    assert f[0] == Str(a.idp) && f[1] == Str(a.mode) && f[2] == Str(a.tenantId);
    assert f[3] == Str(a.clientId) && f[4] == Str(a.issuerUrl) && f[5] == Str(a.clientSecretName);
  }

  lemma MemoryBinds(a: Memory, b: Memory)
    requires SortKeys(MemoryJson(a)) == SortKeys(MemoryJson(b))
    ensures a == b
  {
    var f, g := MemoryValues(a), MemoryValues(b);
    RecBinds(MEMORY_KEYS, f, g);
    assert f[0] == Bool(a.longTerm) && f[3] == Num(a.relevanceScore);
    assert SortKeys(f[1]) == SortKeys(g[1]) && SortKeys(f[2]) == SortKeys(g[2]);
    IntBinds(a.eventExpiryDays, b.eventExpiryDays);
    IntBinds(a.topK, b.topK);
  }

  lemma AgentsBinds(a: Agents, b: Agents)
    requires SortKeys(AgentsJson(a)) == SortKeys(AgentsJson(b))
    ensures a == b
  {
    var f, g := AgentsValues(a), AgentsValues(b);
    RecBinds(AGENTS_KEYS, f, g);
    assert f[0] == Str(a.pattern) && f[1] == Str(a.modelId) && f[4] == Bool(a.a2a);
    assert SortKeys(f[2]) == SortKeys(g[2]) && SortKeys(f[3]) == SortKeys(g[3]) && SortKeys(f[5]) == SortKeys(g[5]);
    IntBinds(a.runtimeGeneration, b.runtimeGeneration);
    StringsBind(a.allowedModels, b.allowedModels);
    MemoryBinds(a.memory, b.memory);
  }

  lemma CedarBinds(a: Cedar, b: Cedar)
    requires SortKeys(CedarJson(a)) == SortKeys(CedarJson(b))
    ensures a == b
  {
    var f, g := CedarValues(a), CedarValues(b);
    RecBinds(CEDAR_KEYS, f, g);
    assert f[0] == Bool(a.enabled) && f[1] == Str(a.mode);
  }

  lemma SecurityFlagsBind(a: Security, b: Security)
    requires SortKeys(SecurityJson(a)) == SortKeys(SecurityJson(b))
    ensures a.networking == b.networking && a.cloudtrailAlerting == b.cloudtrailAlerting
    ensures a.resourcePolicies == b.resourcePolicies
  {
    RecBindsAt(SECURITY_KEYS, SecurityValues(a), SecurityValues(b), 0);
    RecBindsAt(SECURITY_KEYS, SecurityValues(a), SecurityValues(b), 1);
    RecBindsAt(SECURITY_KEYS, SecurityValues(a), SecurityValues(b), 2);
  }

  lemma ControlFlagsBind(a: Security, b: Security)
    requires SortKeys(SecurityJson(a)) == SortKeys(SecurityJson(b))
    ensures a.egressFilter == b.egressFilter && a.requireGuardrails == b.requireGuardrails
    ensures a.traceability == b.traceability
  {
    RecBindsAt(SECURITY_KEYS, SecurityValues(a), SecurityValues(b), 3);
    RecBindsAt(SECURITY_KEYS, SecurityValues(a), SecurityValues(b), 4);
    RecBindsAt(SECURITY_KEYS, SecurityValues(a), SecurityValues(b), 6);
  }

  lemma SecurityBinds(a: Security, b: Security)
    requires SortKeys(SecurityJson(a)) == SortKeys(SecurityJson(b))
    ensures a == b
  {
    SecurityFlagsBind(a, b);
    ControlFlagsBind(a, b);
    RecBindsAt(SECURITY_KEYS, SecurityValues(a), SecurityValues(b), 5);
    RecBindsAt(SECURITY_KEYS, SecurityValues(a), SecurityValues(b), 7);
    CedarBinds(a.cedar, b.cedar);
  }

  lemma GatewayBinds(a: Gateway, b: Gateway)
    requires SortKeys(GatewayJson(a)) == SortKeys(GatewayJson(b))
    ensures a == b
  {
    var f, g := GatewayValues(a), GatewayValues(b);
    RecBinds(GATEWAY_KEYS, f, g);
    assert f[0] == Str(a.webSearch) && SortKeys(f[1]) == SortKeys(g[1]);
    StringsBind(a.tools, b.tools);
  }

  lemma ObservabilityBinds(a: Observability, b: Observability)
    requires SortKeys(ObservabilityJson(a)) == SortKeys(ObservabilityJson(b))
    ensures a == b
  {
    var f, g := ObservabilityValues(a), ObservabilityValues(b);
    RecBinds(OBSERVABILITY_KEYS, f, g);
    assert f[0] == Bool(a.transactionSearch) && f[1] == Bool(a.alarms) && f[2] == Str(a.alarmEmail);
    assert SortKeys(f[3]) == SortKeys(g[3]);
    IntBinds(a.logRetentionDays, b.logRetentionDays);
  }

  lemma ReceiptBinds(a: RuntimeReceipt, b: RuntimeReceipt)
    requires SortKeys(ReceiptJson(a)) == SortKeys(ReceiptJson(b))
    ensures a == b
  {
    var f, g := ReceiptValues(a), ReceiptValues(b);
    RecBinds(RECEIPT_KEYS, f, g);
    assert f[0] == Str(a.accountId) && f[1] == Str(a.runtimeArn) && f[2] == Str(a.sourceHash);
    assert f[3] == Str(a.imageDigest) && f[4] == Str(a.verificationReference);
  }

  lemma TargetBinds(a: Target, b: Target)
    requires SortKeys(TargetJson(a)) == SortKeys(TargetJson(b))
    ensures a == b
  {
    var f, g := TargetValues(a), TargetValues(b);
    RecBinds(TARGET_KEYS, f, g);
    assert f[0] == Str(a.runtime) && f[1] == Str(a.mode);
  }

  lemma RuntimeTargetBinds(a: Target, i: int, b: Target, j: int)
    requires SortKeys(RuntimeTargetJson(a, i)) == SortKeys(RuntimeTargetJson(b, j))
    ensures a == b && i == j
  {
    var f, g := RuntimeTargetValues(a, i), RuntimeTargetValues(b, j);
    RecBinds(RUNTIME_TARGET_KEYS, f, g);
    assert f[0] == Str(a.runtime) && f[1] == Str(a.mode) && SortKeys(f[2]) == SortKeys(g[2]);
    IntBinds(i, j);
  }

  lemma DeploymentBinds(a: Deployment, b: Deployment)
    requires SortKeys(DeploymentJson(a)) == SortKeys(DeploymentJson(b))
    ensures SameDeployment(a, b)
  {
    var f, g := DeploymentValues(a), DeploymentValues(b);
    RecBinds(DEPLOYMENT_KEYS, f, g);
    assert f[0] == Str(a.mode) && f[1] == Str(a.strategy) && f[2] == Str(a.platformAccount);
    assert SortKeys(f[3]) == SortKeys(g[3]);
    SortedStringsBind(a.workloadAccounts, b.workloadAccounts);
  }

  // A sorted list of strings is bound up to the order it came in.
  lemma SortedStringsBind(a: seq<string>, b: seq<string>)
    requires SortKeys(Strings(SortStrings(a))) == SortKeys(Strings(SortStrings(b)))
    ensures SameStrings(a, b)
  {
    StringsBind(SortStrings(a), SortStrings(b));
    SortStringsCanonical(a, b);
  }

  lemma BuildBinds(a: Option<Build>, b: Option<Build>)
    requires SortKeys(BuildJson(a)) == SortKeys(BuildJson(b))
    ensures a == b
  {
    if a.Some? && b.Some? {
      var f, g := BuildValues(a.value), BuildValues(b.value);
      RecBinds(BUILD_KEYS, f, g);
      assert f[0] == Str(a.value.context) && f[1] == Str(a.value.dockerfile);
    }
  }

  // ---- The customer's environment: a dict, so order does not bind --------------

  function EnvName(v: EnvVar): string { v.name }

  lemma {:induction false} InsertEnv(v: EnvVar, env: seq<EnvVar>)
    ensures EnvFields(Insert(EnvName, v, env)) == Insert(KeyOf, Field(v.name, Str(v.value)), EnvFields(env))
  {
    if env != [] {
      assert EnvFields(env)[1..] == EnvFields(env[1..]);
      if !Le(v.name, env[0].name) {
        InsertEnv(v, env[1..]);
      }
    }
  }

  lemma {:induction false} SortEnv(env: seq<EnvVar>)
    ensures EnvFields(Sort(EnvName, env)) == Sort(KeyOf, EnvFields(env))
  {
    if env != [] {
      SortEnv(env[1..]);
      assert EnvFields(env)[1..] == EnvFields(env[1..]);
      InsertEnv(env[0], Sort(EnvName, env[1..]));
    }
  }

  lemma EnvSorted(env: seq<EnvVar>)
    ensures SortKeys(Obj(EnvFields(env))) == Obj(EnvFields(Sort(EnvName, env)))
  {
    assert SortValues(EnvFields(env)) == EnvFields(env);
    SortEnv(env);
  }

  lemma EnvFieldsInjective(a: seq<EnvVar>, b: seq<EnvVar>)
    requires EnvFields(a) == EnvFields(b)
    ensures a == b
  {
    assert |a| == |EnvFields(a)| == |b|;
    forall i | 0 <= i < |a|
      ensures a[i] == b[i]
    {
      assert EnvFields(a)[i] == EnvFields(b)[i];
    }
  }

  lemma EnvAgrees(a: seq<EnvVar>, b: seq<EnvVar>)
    requires forall i, j :: 0 <= i < j < |a| ==> a[i].name != a[j].name
    ensures SortKeys(Obj(EnvFields(a))) == SortKeys(Obj(EnvFields(b))) <==> multiset(a) == multiset(b)
  {
    EnvSorted(a);
    EnvSorted(b);
    if multiset(a) == multiset(b) {
      SortCanonical(EnvName, a, b);
    } else if SortKeys(Obj(EnvFields(a))) == SortKeys(Obj(EnvFields(b))) {
      EnvFieldsInjective(Sort(EnvName, a), Sort(EnvName, b));
      SortBinds(EnvName, a, b);
    }
  }

  lemma SourceTextsBind(a: Source, b: Source)
    requires SortKeys(SourceJson(a)) == SortKeys(SourceJson(b))
    ensures a.platform == b.platform && a.image == b.image && a.registrySecretName == b.registrySecretName
    ensures a.invokePath == b.invokePath && a.healthPath == b.healthPath
            && TriggerText(a.trigger) == TriggerText(b.trigger)
  {
    var f, g := SourceValues(a), SourceValues(b);
    RecBinds(SOURCE_KEYS, f, g);
    assert f[0] == Str(a.platform) && f[1] == Str(a.image) && f[3] == Str(a.registrySecretName);
    assert f[5] == Str(a.invokePath) && f[6] == Str(a.healthPath) && f[7] == Str(TriggerText(a.trigger));
  }

  lemma SourcePortBinds(a: Source, b: Source)
    requires SortKeys(SourceJson(a)) == SortKeys(SourceJson(b))
    ensures a.port == b.port
  {
    RecBindsAt(SOURCE_KEYS, SourceValues(a), SourceValues(b), 4);
    if a.port.Some? && b.port.Some? {
      IntBinds(a.port.value, b.port.value);
    }
  }

  lemma SourceBuildBinds(a: Source, b: Source)
    requires SortKeys(SourceJson(a)) == SortKeys(SourceJson(b))
    ensures SortKeys(BuildJson(a.build)) == SortKeys(BuildJson(b.build))
  {
    RecBindsAt(SOURCE_KEYS, SourceValues(a), SourceValues(b), 2);
    assert SourceValues(a)[2] == BuildJson(a.build) && SourceValues(b)[2] == BuildJson(b.build);
  }

  lemma SourceListsBind(a: Source, b: Source)
    requires SortKeys(SourceJson(a)) == SortKeys(SourceJson(b))
    ensures SortKeys(Obj(EnvFields(a.env))) == SortKeys(Obj(EnvFields(b.env)))
    ensures SortKeys(Strings(SortStrings(a.secrets))) == SortKeys(Strings(SortStrings(b.secrets)))
  {
    RecBindsAt(SOURCE_KEYS, SourceValues(a), SourceValues(b), 8);
    RecBindsAt(SOURCE_KEYS, SourceValues(a), SourceValues(b), 9);
  }

  lemma SourceBinds(a: Source, b: Source)
    requires ValidSource(a) && SortKeys(SourceJson(a)) == SortKeys(SourceJson(b))
    ensures SameSource(a, b)
  {
    SourceTextsBind(a, b);
    SourcePortBinds(a, b);
    SourceBuildBinds(a, b);
    SourceListsBind(a, b);
    TextsDiffer();
    BuildBinds(a.build, b.build);
    EnvAgrees(a.env, b.env);
    SortedStringsBind(a.secrets, b.secrets);
  }

  lemma SourceSame(a: Source, b: Source)
    requires ValidSource(a) && SameSource(a, b)
    ensures SortKeys(SourceJson(a)) == SortKeys(SourceJson(b))
  {
    EnvAgrees(a.env, b.env);
    SortStringsCanonical(a.secrets, b.secrets);
    RecSame(SOURCE_KEYS, SourceValues(a), SourceValues(b));
  }

  // ---- The remaining plans --------------------------------------------------------

  lemma DatasetBinds(a: Dataset, b: Dataset)
    requires SortKeys(DatasetJson(a)) == SortKeys(DatasetJson(b))
    ensures a == b
  {
    var f, g := DatasetValues(a), DatasetValues(b);
    RecBinds(DATASET_KEYS, f, g);
    assert f[0] == Str(a.name) && f[1] == Str(a.adapter) && f[2] == Str(a.dependency);
    assert f[3] == Str(a.classificationReference) && f[4] == Str(a.retentionReference);
    assert f[5] == Str(a.identityMappingReference) && f[6] == Str(a.validationReference);
  }

  lemma DatasetsBind(a: seq<Dataset>, b: seq<Dataset>)
    requires SortKeys(DatasetsJson(a)) == SortKeys(DatasetsJson(b))
    ensures multiset(a) == multiset(b)
  {
    var sa, sb := Sort(NameOf, a), Sort(NameOf, b);
    var xs, ys := DatasetsJson(a).items, DatasetsJson(b).items;
    ArrayBinds(xs, ys);
    forall i | 0 <= i < |sa|
      ensures sa[i] == sb[i]
    {
      assert SortKeys(xs[i]) == SortKeys(ys[i]);
      DatasetBinds(sa[i], sb[i]);
    }
    assert sa == sb;
    SortBinds(NameOf, a, b);
  }

  lemma NetworkReceiptBinds(a: NetworkReceipt, b: NetworkReceipt)
    requires SortKeys(NetworkReceiptJson(a)) == SortKeys(NetworkReceiptJson(b))
    ensures SameReceipt(a, b)
  {
    var f, g := NetworkReceiptValues(a), NetworkReceiptValues(b);
    RecBinds(NETWORK_RECEIPT_KEYS, f, g);
    assert f[0] == Str(a.vpcId) && f[3] == Str(a.caBundleVersionId) && f[4] == Str(a.probeVerificationReference);
    assert SortKeys(f[1]) == SortKeys(g[1]) && SortKeys(f[2]) == SortKeys(g[2]);
    SortedStringsBind(a.privateSubnetIds, b.privateSubnetIds);
    SortedStringsBind(a.securityGroupIds, b.securityGroupIds);
  }

  lemma NetworkPlanBinds(a: Network, b: Network)
    requires SortKeys(NetworkPlanJson(a)) == SortKeys(NetworkPlanJson(b))
    ensures SameStrings(a.privateDependencies, b.privateDependencies) && SameStrings(a.dnsForwarders, b.dnsForwarders)
    ensures a.connectivity == b.connectivity && a.caBundleSecretName == b.caBundleSecretName
    ensures SameReceipt(a.receipt, b.receipt)
  {
    var f, g := NetworkPlanValues(a), NetworkPlanValues(b);
    RecBinds(NETWORK_PLAN_KEYS, f, g);
    assert f[1] == Str(a.connectivity) && f[3] == Str(a.caBundleSecretName);
    assert SortKeys(f[0]) == SortKeys(g[0]) && SortKeys(f[2]) == SortKeys(g[2]) && SortKeys(f[4]) == SortKeys(g[4]);
    SortedStringsBind(a.privateDependencies, b.privateDependencies);
    SortedStringsBind(a.dnsForwarders, b.dnsForwarders);
    NetworkReceiptBinds(a.receipt, b.receipt);
  }

  lemma TriggerReferencesBind(a: TriggerPlan, b: TriggerPlan)
    requires SortKeys(TriggerPlanJson(a)) == SortKeys(TriggerPlanJson(b))
    ensures a.sourceReference == b.sourceReference && a.shadowReference == b.shadowReference
    ensures a.idempotencyReference == b.idempotencyReference
    ensures a.signatureValidationReference == b.signatureValidationReference
    ensures a.validationReference == b.validationReference
  {
    var f, g := TriggerPlanValues(a), TriggerPlanValues(b);
    RecBinds(TRIGGER_PLAN_KEYS, f, g);
    assert f[1] == Str(a.sourceReference) && f[2] == Str(a.shadowReference) && f[4] == Str(a.idempotencyReference);
    assert f[5] == Str(a.signatureValidationReference) && f[6] == Str(a.validationReference);
  }

  lemma TriggerChoicesBind(a: TriggerPlan, b: TriggerPlan)
    requires SortKeys(TriggerPlanJson(a)) == SortKeys(TriggerPlanJson(b))
    ensures TriggerStrategyText(a.strategy) == TriggerStrategyText(b.strategy)
    ensures SafetyJson(a.safetyMode) == SafetyJson(b.safetyMode)
  {
    var f, g := TriggerPlanValues(a), TriggerPlanValues(b);
    RecBinds(TRIGGER_PLAN_KEYS, f, g);
    assert f[0] == Str(TriggerStrategyText(a.strategy)) && g[0] == Str(TriggerStrategyText(b.strategy));
    assert SortKeys(f[3]) == SafetyJson(a.safetyMode) && SortKeys(g[3]) == SafetyJson(b.safetyMode);
  }

  lemma TriggerPlanBinds(a: TriggerPlan, b: TriggerPlan)
    requires SortKeys(TriggerPlanJson(a)) == SortKeys(TriggerPlanJson(b))
    ensures a == b
  {
    TriggerReferencesBind(a, b);
    TriggerChoicesBind(a, b);
    TextsDiffer();
  }

  lemma AbortBinds(a: Option<AbortThresholds>, b: Option<AbortThresholds>)
    requires SortKeys(AbortJson(a)) == SortKeys(AbortJson(b))
    ensures a == b
  {
    if a.Some? && b.Some? {
      var x, y := a.value, b.value;
      var f, g := AbortValues(x), AbortValues(y);
      RecBinds(ABORT_KEYS, f, g);
      assert f[0] == Num(x.maxErrorRatePercent) && SortKeys(f[1]) == SortKeys(g[1]);
      assert SortKeys(f[2]) == SortKeys(g[2]) && SortKeys(f[3]) == SortKeys(g[3]);
      IntBinds(x.maxP95LatencyMs, y.maxP95LatencyMs);
      IntBinds(x.maxFailedEvents, y.maxFailedEvents);
      IntBinds(x.observationMinutes, y.observationMinutes);
    }
  }

  lemma TrafficTextsBind(a: TrafficPlan, b: TrafficPlan)
    requires SortKeys(TrafficPlanJson(a)) == SortKeys(TrafficPlanJson(b))
    ensures TrafficStrategyText(a.strategy) == TrafficStrategyText(b.strategy)
    ensures a.routerReference == b.routerReference && a.sourceReference == b.sourceReference
    ensures a.targetReference == b.targetReference && a.metricsReference == b.metricsReference
  {
    var f, g := TrafficPlanValues(a), TrafficPlanValues(b);
    RecBinds(TRAFFIC_PLAN_KEYS, f, g);
    assert f[0] == Str(TrafficStrategyText(a.strategy)) && f[1] == Str(a.routerReference);
    assert f[2] == Str(a.sourceReference) && f[3] == Str(a.targetReference) && f[4] == Str(a.metricsReference);
  }

  lemma TrafficPlanBinds(a: TrafficPlan, b: TrafficPlan)
    requires SortKeys(TrafficPlanJson(a)) == SortKeys(TrafficPlanJson(b))
    ensures a == b
  {
    TrafficTextsBind(a, b);
    TextsDiffer();
    RecBindsAt(TRAFFIC_PLAN_KEYS, TrafficPlanValues(a), TrafficPlanValues(b), 5);
    RecBindsAt(TRAFFIC_PLAN_KEYS, TrafficPlanValues(a), TrafficPlanValues(b), 6);
    IntsBind(a.canaryStepsPercent, b.canaryStepsPercent);
    AbortBinds(a.abort, b.abort);
  }
}
