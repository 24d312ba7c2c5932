// The five plan documents, their digests, and what a digest binds.

module MigrationPlan {
  import opened Text
  import opened Sorting
  import opened Json
  import opened Canonical
  import opened MigrationModel

  // SHA-256 and its hex rendering, of which only the shape is used below.
  type Hash = string -> string

  ghost predicate HexHash(h: Hash) {
    forall s {:trigger h(s)} :: |h(s)| == 64 && forall i :: 0 <= i < 64 ==> !IsSpace(h(s)[i])
  }

  function PlanDigest(h: Hash, document: seq<Field>): string {
    "sha256:" + h(CanonicalText(Obj(document)))
  }

  // ---- model_dump of the records involved ----------------------------------

  function TriggerText(t: Trigger): string {
    match t case Webhook => "webhook" case Schedule => "schedule" case Http => "http" case Queue => "queue"
  }

  function DataStrategyText(s: DataStrategy): string {
    match s case NoData => "none" case RetainSource => "retain-source" case ExternalCopy => "external-copy"
  }

  function SafetyJson(s: Option<SafetyMode>): Json {
    match s
    case None => Null
    case Some(ReadOnly) => Str("read-only")
    case Some(DryRun) => Str("dry-run")
    case Some(Idempotent) => Str("idempotent")
    case Some(DualPublish) => Str("dual-publish")
  }

  function TriggerStrategyText(s: TriggerStrategy): string {
    match s case NoShadow => "none" case ExternalShadow => "external-shadow"
  }

  function TrafficStrategyText(s: TrafficStrategy): string {
    match s case NoCutover => "none" case ExternalCanary => "external-canary" case ExternalSwitch => "external-switch"
  }

  const DEPLOYMENT_KEYS: seq<string> := ["mode", "strategy", "platformAccount", "workloadAccounts"]

  function DeploymentValues(d: Deployment): seq<Json> {
    [Str(d.mode), Str(d.strategy), Str(d.platformAccount), Strings(SortStrings(d.workloadAccounts))]
  }

  function DeploymentJson(d: Deployment): Json { Rec(DEPLOYMENT_KEYS, DeploymentValues(d)) }

  const IDENTITY_KEYS: seq<string> :=
    ["idp", "mode", "tenant_id", "client_id", "issuer_url", "client_secret_name"]

  function IdentityValues(i: Identity): seq<Json> {
    [Str(i.idp), Str(i.mode), Str(i.tenantId), Str(i.clientId), Str(i.issuerUrl), Str(i.clientSecretName)]
  }

  function IdentityJson(i: Identity): Json { Rec(IDENTITY_KEYS, IdentityValues(i)) }

  const MEMORY_KEYS: seq<string> := ["long_term", "event_expiry_days", "top_k", "relevance_score"]

  function MemoryValues(m: Memory): seq<Json> {
    [Bool(m.longTerm), IntNum(m.eventExpiryDays), IntNum(m.topK), Num(m.relevanceScore)]
  }

  function MemoryJson(m: Memory): Json { Rec(MEMORY_KEYS, MemoryValues(m)) }

  const AGENTS_KEYS: seq<string> :=
    ["pattern", "model_id", "orchestrator_runtime_generation", "allowed_models", "a2a", "memory"]

  function AgentsValues(a: Agents): seq<Json> {
    [Str(a.pattern), Str(a.modelId), IntNum(a.runtimeGeneration), Strings(a.allowedModels), Bool(a.a2a),
     MemoryJson(a.memory)]
  }

  function AgentsJson(a: Agents): Json { Rec(AGENTS_KEYS, AgentsValues(a)) }

  const CEDAR_KEYS: seq<string> := ["enabled", "mode"]

  function CedarValues(c: Cedar): seq<Json> {
    [Bool(c.enabled), Str(c.mode)]
  }

  function CedarJson(c: Cedar): Json { Rec(CEDAR_KEYS, CedarValues(c)) }

  const SECURITY_KEYS: seq<string> :=
    ["networking", "cloudtrail_alerting", "resource_policies", "egress_filter", "require_guardrails", "cedar",
     "traceability", "org_id"]

  function SecurityValues(s: Security): seq<Json> {
    [Bool(s.networking), Bool(s.cloudtrailAlerting), Bool(s.resourcePolicies), Bool(s.egressFilter),
     Bool(s.requireGuardrails), CedarJson(s.cedar), Bool(s.traceability), Str(s.orgId)]
  }

  function SecurityJson(s: Security): Json { Rec(SECURITY_KEYS, SecurityValues(s)) }

  const GATEWAY_KEYS: seq<string> := ["web_search", "tools"]

  function GatewayValues(g: Gateway): seq<Json> {
    [Str(g.webSearch), Strings(g.tools)]
  }

  function GatewayJson(g: Gateway): Json { Rec(GATEWAY_KEYS, GatewayValues(g)) }

  const OBSERVABILITY_KEYS: seq<string> := ["transaction_search", "alarms", "alarm_email", "log_retention_days"]

  function ObservabilityValues(o: Observability): seq<Json> {
    [Bool(o.transactionSearch), Bool(o.alarms), Str(o.alarmEmail), IntNum(o.logRetentionDays)]
  }

  function ObservabilityJson(o: Observability): Json { Rec(OBSERVABILITY_KEYS, ObservabilityValues(o)) }

  const BUILD_KEYS: seq<string> := ["context", "dockerfile"]

  function BuildValues(b: Build): seq<Json> {
    [Str(b.context), Str(b.dockerfile)]
  }

  function BuildJson(b: Option<Build>): Json {
    match b
    case None => Null
    case Some(x) => Rec(BUILD_KEYS, BuildValues(x))
  }

  function EnvFields(env: seq<EnvVar>): seq<Field> {
    seq(|env|, i requires 0 <= i < |env| => Field(env[i].name, Str(env[i].value)))
  }

  const SOURCE_KEYS: seq<string> :=
    ["platform", "image", "build", "registry_secret_name", "port", "invoke_path", "health_path", "trigger",
     "env", "secrets"]

  // source.model_dump with its secrets sorted.
  function SourceValues(s: Source): seq<Json> {
    [Str(s.platform), Str(s.image), BuildJson(s.build), Str(s.registrySecretName),
     if s.port.None? then Null else IntNum(s.port.value), Str(s.invokePath), Str(s.healthPath),
     Str(TriggerText(s.trigger)), Obj(EnvFields(s.env)), Strings(SortStrings(s.secrets))]
  }

  function SourceJson(s: Source): Json { Rec(SOURCE_KEYS, SourceValues(s)) }

  const TARGET_KEYS: seq<string> := ["runtime", "mode"]

  function TargetValues(t: Target): seq<Json> {
    [Str(t.runtime), Str(t.mode)]
  }

  function TargetJson(t: Target): Json { Rec(TARGET_KEYS, TargetValues(t)) }

  const RUNTIME_TARGET_KEYS: seq<string> := ["runtime", "mode", "runtimeGeneration"]

  function RuntimeTargetValues(t: Target, generation: int): seq<Json> {
    [Str(t.runtime), Str(t.mode), IntNum(generation)]
  }

  function RuntimeTargetJson(t: Target, generation: int): Json {
    Rec(RUNTIME_TARGET_KEYS, RuntimeTargetValues(t, generation))
  }

  const RECEIPT_KEYS: seq<string> :=
    ["account_id", "runtime_arn", "source_hash", "image_digest", "verification_reference"]

  function ReceiptValues(r: RuntimeReceipt): seq<Json> {
    [Str(r.accountId), Str(r.runtimeArn), Str(r.sourceHash), Str(r.imageDigest), Str(r.verificationReference)]
  }

  function ReceiptJson(r: RuntimeReceipt): Json { Rec(RECEIPT_KEYS, ReceiptValues(r)) }

  const DATASET_KEYS: seq<string> :=
    ["name", "adapter", "dependency", "classification_reference", "retention_reference",
     "identity_mapping_reference", "validation_reference"]

  function DatasetValues(d: Dataset): seq<Json> {
    [Str(d.name), Str(d.adapter), Str(d.dependency), Str(d.classificationReference), Str(d.retentionReference),
     Str(d.identityMappingReference), Str(d.validationReference)]
  }

  function DatasetJson(d: Dataset): Json { Rec(DATASET_KEYS, DatasetValues(d)) }

  function NameOf(d: Dataset): string { d.name }

  function DatasetsJson(ds: seq<Dataset>): Json {
    var sorted := Sort(NameOf, ds);
    Arr(seq(|sorted|, i requires 0 <= i < |sorted| => DatasetJson(sorted[i])))
  }

  const NETWORK_RECEIPT_KEYS: seq<string> :=
    ["vpcId", "privateSubnetIds", "securityGroupIds", "caBundleVersionId", "probeVerificationReference"]

  function NetworkReceiptValues(r: NetworkReceipt): seq<Json> {
    [Str(r.vpcId), Strings(SortStrings(r.privateSubnetIds)), Strings(SortStrings(r.securityGroupIds)),
     Str(r.caBundleVersionId), Str(r.probeVerificationReference)]
  }

  function NetworkReceiptJson(r: NetworkReceipt): Json { Rec(NETWORK_RECEIPT_KEYS, NetworkReceiptValues(r)) }

  const NETWORK_PLAN_KEYS: seq<string> :=
    ["privateDependencies", "connectivity", "dnsForwarders", "caBundleSecretName", "receipt"]

  function NetworkPlanValues(n: Network): seq<Json> {
    [Strings(SortStrings(n.privateDependencies)), Str(n.connectivity), Strings(SortStrings(n.dnsForwarders)),
     Str(n.caBundleSecretName), NetworkReceiptJson(n.receipt)]
  }

  function NetworkPlanJson(n: Network): Json { Rec(NETWORK_PLAN_KEYS, NetworkPlanValues(n)) }

  const TRIGGER_PLAN_KEYS: seq<string> :=
    ["strategy", "source_reference", "shadow_reference", "safety_mode", "idempotency_reference",
     "signature_validation_reference", "validation_reference"]

  function TriggerPlanValues(t: TriggerPlan): seq<Json> {
    [Str(TriggerStrategyText(t.strategy)), Str(t.sourceReference), Str(t.shadowReference),
     SafetyJson(t.safetyMode), Str(t.idempotencyReference), Str(t.signatureValidationReference),
     Str(t.validationReference)]
  }

  function TriggerPlanJson(t: TriggerPlan): Json { Rec(TRIGGER_PLAN_KEYS, TriggerPlanValues(t)) }

  const ABORT_KEYS: seq<string> :=
    ["max_error_rate_percent", "max_p95_latency_ms", "max_failed_events", "observation_minutes"]

  function AbortValues(a: AbortThresholds): seq<Json> {
    [Num(a.maxErrorRatePercent), IntNum(a.maxP95LatencyMs), IntNum(a.maxFailedEvents), IntNum(a.observationMinutes)]
  }

  function AbortJson(a: Option<AbortThresholds>): Json {
    match a
    case None => Null
    case Some(x) => Rec(ABORT_KEYS, AbortValues(x))
  }

  const TRAFFIC_PLAN_KEYS: seq<string> :=
    ["strategy", "router_reference", "source_reference", "target_reference", "metrics_reference",
     "canary_steps_percent", "abort"]

  function TrafficPlanValues(t: TrafficPlan): seq<Json> {
    [Str(TrafficStrategyText(t.strategy)), Str(t.routerReference), Str(t.sourceReference),
     Str(t.targetReference), Str(t.metricsReference), Ints(t.canaryStepsPercent), AbortJson(t.abort)]
  }

  function TrafficPlanJson(t: TrafficPlan): Json { Rec(TRAFFIC_PLAN_KEYS, TrafficPlanValues(t)) }

  const EFFECTIVE_KEYS: seq<string> := ["identity", "agents", "security"]

  function EffectiveValues(c: Config): seq<Json> {
    [IdentityJson(c.identity), AgentsJson(c.agents), SecurityJson(c.security)]
  }

  function EffectiveJson(c: Config): Json { Rec(EFFECTIVE_KEYS, EffectiveValues(c)) }

  const OPERATIONAL_KEYS: seq<string> := ["gateway", "observability"]

  function OperationalValues(c: Config): seq<Json> {
    [GatewayJson(c.gateway), ObservabilityJson(c.observability)]
  }

  function OperationalJson(c: Config): Json { Rec(OPERATIONAL_KEYS, OperationalValues(c)) }

  // ---- The documents -------------------------------------------------------

  // Every document opens with its version and where it applies.
  function Header(version: string, c: Config): seq<Field> {
    [Field("version", Str(version)), Field("project", Str(c.project)),
     Field("environment", Str(c.environment)), Field("region", Str(c.region))]
  }

  function DataBody(m: Migration): seq<Field> {
    [Field("target", TargetJson(m.target)),
     Field("strategy", Str(DataStrategyText(m.stages.data.strategy))),
     Field("datasets", DatasetsJson(m.stages.data.datasets))]
  }

  function RuntimeBody(c: Config, m: Migration): seq<Field> {
    [Field("deployment", DeploymentJson(c.deployment)),
     Field("source", SourceJson(m.source)),
     Field("target", RuntimeTargetJson(m.target, c.agents.runtimeGeneration)),
     Field("effectiveConfiguration", EffectiveJson(c)),
     Field("receipt", ReceiptJson(m.stages.runtime.receipt))]
  }

  function NetworkBody(m: Migration): seq<Field> {
    [Field("runtimeAccount", Str(m.stages.runtime.receipt.accountId)),
     Field("plan", NetworkPlanJson(m.network))]
  }

  function TriggerBody(m: Migration): seq<Field> {
    [Field("sourceTrigger", Str(TriggerText(m.source.trigger))),
     Field("plan", TriggerPlanJson(m.stages.triggers.plan))]
  }

  function DataDocument(c: Config, m: Migration): seq<Field> {
    Header("migration-data-plan/v1", c) + DataBody(m)
  }

  function RuntimeDocument(c: Config, m: Migration): seq<Field> {
    Header("migration-runtime-plan/v1", c) + RuntimeBody(c, m)
  }

  function NetworkDocument(c: Config, m: Migration): seq<Field> {
    Header("migration-network-plan/v1", c) + NetworkBody(m)
  }

  function TriggerDocument(c: Config, m: Migration): seq<Field> {
    Header("migration-trigger-plan/v1", c) + TriggerBody(m)
  }

  function RuntimeDigest(h: Hash, c: Config, m: Migration): string { PlanDigest(h, RuntimeDocument(c, m)) }
  function NetworkDigest(h: Hash, c: Config, m: Migration): string { PlanDigest(h, NetworkDocument(c, m)) }
  function DataDigest(h: Hash, c: Config, m: Migration): string { PlanDigest(h, DataDocument(c, m)) }
  function TriggerDigest(h: Hash, c: Config, m: Migration): string { PlanDigest(h, TriggerDocument(c, m)) }

  // A stage out of scope is linked as the empty string.
  function Linked(required: bool, digest: string): string { if required then digest else "" }

  // The digests the traffic document chains over.
  datatype Links = Links(runtime: string, network: string, data: string, triggers: string)

  function LinksOf(h: Hash, c: Config, m: Migration): Links {
    Links(RuntimeDigest(h, c, m),
          Linked(NetworkRequired(m), NetworkDigest(h, c, m)),
          Linked(DataRequired(m), DataDigest(h, c, m)),
          Linked(TriggersRequired(m), TriggerDigest(h, c, m)))
  }

  function TrafficBody(links: Links, c: Config, m: Migration): seq<Field> {
    [Field("sourceTrigger", Str(TriggerText(m.source.trigger))),
     Field("target", TargetJson(m.target)),
     Field("runtimePlanDigest", Str(links.runtime)),
     Field("networkPlanDigest", Str(links.network)),
     Field("dataPlanDigest", Str(links.data)),
     Field("triggerPlanDigest", Str(links.triggers)),
     Field("operationalConfiguration", OperationalJson(c)),
     Field("plan", TrafficPlanJson(m.stages.traffic.plan))]
  }

  function TrafficDocument(h: Hash, c: Config, m: Migration): seq<Field> {
    Header("migration-traffic-plan/v1", c) + TrafficBody(LinksOf(h, c, m), c, m)
  }

  function TrafficDigest(h: Hash, c: Config, m: Migration): string { PlanDigest(h, TrafficDocument(h, c, m)) }
}
