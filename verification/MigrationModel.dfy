// The configuration records that migration planning and readiness read, as
// loaded and validated from platform.yaml.

module MigrationModel {
  import opened Text
  import opened Json

  type Time = int                       // microseconds, UTC

  const MINUTE: Time := 60_000_000
  const WEEK: Time := 7 * 24 * 60 * MINUTE

  // ---- Approval gates ------------------------------------------------------

  datatype Gate = Gate(
    owner: string, approver: string,
    approvedAt: Option<Time>, expiresAt: Option<Time>,
    evidence: seq<string>, rollback: string)

  function MissingFields(g: Gate): seq<string> {
    (if Strip(g.owner) == "" then ["owner"] else [])
    + (if Strip(g.approver) == "" then ["approver"] else [])
    + (if g.evidence == [] || exists item :: item in g.evidence && Strip(item) == "" then ["evidence"] else [])
    + (if Strip(g.rollback) == "" then ["rollback"] else [])
    + (if g.approvedAt.None? then ["approved_at"] else [])
    + (if g.expiresAt.None? then ["expires_at"] else [])
  }

  predicate Filled(g: Gate) {
    && Strip(g.owner) != "" && Strip(g.approver) != "" && Strip(g.rollback) != ""
    && g.evidence != [] && (forall item :: item in g.evidence ==> Strip(item) != "")
    && g.approvedAt.Some? && g.expiresAt.Some?
  }

  lemma NoMissingFields(g: Gate)
    ensures MissingFields(g) == [] <==> Filled(g)
  {
  }

  function Blockers(g: Gate, now: Time): seq<string> {
    MissingFields(g)
    + (if g.expiresAt.Some? && g.expiresAt.value <= now then ["approval expired"] else [])
  }

  predicate Ready(g: Gate, now: Time) { Blockers(g, now) == [] }

  predicate SingleLine(s: string) { s == Strip(s) }

  // The validators that run when the file is loaded at `loadedAt`.
  predicate ValidGate(g: Gate, loadedAt: Time) {
    && SingleLine(g.owner) && SingleLine(g.approver) && SingleLine(g.rollback)
    && |g.owner| <= 200 && |g.approver| <= 200 && |g.rollback| <= 2000
    && |g.evidence| <= 50
    && (forall item :: item in g.evidence ==> |item| <= 500 && SingleLine(item))
    && (Strip(g.owner) != "" && Strip(g.approver) != "" ==>
          Lower(Strip(g.owner)) != Lower(Strip(g.approver)))
    && (match g.approvedAt
        case None => g.expiresAt.None?
        case Some(approved) =>
          && Filled(g)
          && approved <= loadedAt + 5 * MINUTE
          && approved < g.expiresAt.value <= approved + WEEK)
  }

  // ---- The platform around the migration -----------------------------------

  datatype Federation = Federation(
    gatewayUrl: string, issuerUrl: string, m2mClientId: string, m2mClientSecretName: string)

  datatype Deployment = Deployment(
    mode: string, strategy: string, platformAccount: string,
    workloadAccounts: seq<string>, federation: Federation)

  datatype Identity = Identity(
    idp: string, mode: string, tenantId: string, clientId: string,
    issuerUrl: string, clientSecretName: string)

  // A float is carried as the lexeme repr() gives it.
  datatype Memory = Memory(longTerm: bool, eventExpiryDays: int, topK: int, relevanceScore: Lexeme)

  datatype Agents = Agents(
    pattern: string, modelId: string, runtimeGeneration: int,
    allowedModels: seq<string>, a2a: bool, memory: Memory)

  datatype Gateway = Gateway(webSearch: string, tools: seq<string>)

  datatype Cedar = Cedar(enabled: bool, mode: string)

  datatype Security = Security(
    networking: bool, cloudtrailAlerting: bool, resourcePolicies: bool, egressFilter: bool,
    requireGuardrails: bool, cedar: Cedar, traceability: bool, orgId: string)

  datatype Observability = Observability(
    transactionSearch: bool, alarms: bool, alarmEmail: string, logRetentionDays: int)

  // ---- The migration block -------------------------------------------------

  datatype Trigger = Webhook | Schedule | Http | Queue

  datatype Build = Build(context: string, dockerfile: string)

  datatype EnvVar = EnvVar(name: string, value: string)

  datatype Source = Source(
    platform: string, image: string, build: Option<Build>, registrySecretName: string,
    port: Option<int>, invokePath: string, healthPath: string, trigger: Trigger,
    env: seq<EnvVar>, secrets: seq<string>)

  datatype Target = Target(runtime: string, mode: string)

  datatype NetworkReceipt = NetworkReceipt(
    vpcId: string, privateSubnetIds: seq<string>, securityGroupIds: seq<string>,
    caBundleVersionId: string, probeVerificationReference: string)

  datatype Network = Network(
    privateDependencies: seq<string>, connectivity: string, dnsForwarders: seq<string>,
    caBundleSecretName: string, receipt: NetworkReceipt, gate: Gate)

  // Each stage is split into the part that is planned and the gate that
  // approves it; the source dumps a stage with its gate excluded.
  datatype RuntimeReceipt = RuntimeReceipt(
    accountId: string, runtimeArn: string, sourceHash: string,
    imageDigest: string, verificationReference: string)

  datatype RuntimeStage = RuntimeStage(receipt: RuntimeReceipt, gate: Gate)

  datatype Dataset = Dataset(
    name: string, adapter: string, dependency: string, classificationReference: string,
    retentionReference: string, identityMappingReference: string, validationReference: string)

  datatype DataStrategy = NoData | RetainSource | ExternalCopy

  datatype DataStage = DataStage(strategy: DataStrategy, datasets: seq<Dataset>, gate: Gate)

  datatype SafetyMode = ReadOnly | DryRun | Idempotent | DualPublish

  datatype TriggerStrategy = NoShadow | ExternalShadow

  datatype TriggerPlan = TriggerPlan(
    strategy: TriggerStrategy, sourceReference: string, shadowReference: string,
    safetyMode: Option<SafetyMode>, idempotencyReference: string,
    signatureValidationReference: string, validationReference: string)

  datatype TriggerStage = TriggerStage(plan: TriggerPlan, gate: Gate)

  datatype AbortThresholds = AbortThresholds(
    maxErrorRatePercent: Lexeme, maxP95LatencyMs: int, maxFailedEvents: int, observationMinutes: int)

  datatype TrafficStrategy = NoCutover | ExternalCanary | ExternalSwitch

  datatype TrafficPlan = TrafficPlan(
    strategy: TrafficStrategy, routerReference: string, sourceReference: string,
    targetReference: string, metricsReference: string,
    canaryStepsPercent: seq<int>, abort: Option<AbortThresholds>)

  datatype TrafficStage = TrafficStage(plan: TrafficPlan, gate: Gate)

  datatype Stages = Stages(runtime: RuntimeStage, data: DataStage, triggers: TriggerStage, traffic: TrafficStage)

  datatype Migration = Migration(source: Source, target: Target, network: Network, stages: Stages)

  datatype Config = Config(
    project: string, environment: string, region: string,
    deployment: Deployment, identity: Identity, agents: Agents, gateway: Gateway,
    security: Security, observability: Observability,
    useCases: seq<string>, migration: Option<Migration>)

  // ---- Which stages a configuration requires -------------------------------

  predicate NetworkRequired(m: Migration) { m.network.privateDependencies != [] }
  predicate DataRequired(m: Migration) { !m.stages.data.strategy.NoData? }
  predicate TriggersRequired(m: Migration) { !m.stages.triggers.plan.strategy.NoShadow? }
  predicate TrafficRequired(m: Migration) { !m.stages.traffic.plan.strategy.NoCutover? }

  // ---- Validators ----------------------------------------------------------

  ghost predicate Distinct<T(!new)>(s: seq<T>) {
    forall i, j :: 0 <= i < j < |s| ==> s[i] != s[j]
  }

  ghost predicate ValidDataStage(d: DataStage) {
    && (d.strategy.RetainSource? <==> d.datasets != [])
    && |d.datasets| <= 25
    && forall i, j :: 0 <= i < j < |d.datasets| ==> d.datasets[i].name != d.datasets[j].name
  }

  predicate ValidTriggerPlan(t: TriggerPlan) {
    match t.strategy
    case NoShadow =>
      t == TriggerPlan(NoShadow, "", "", None, "", "", "")
    case ExternalShadow =>
      && t.sourceReference != "" && t.shadowReference != "" && t.safetyMode.Some? && t.validationReference != ""
      && t.sourceReference != t.shadowReference
  }

  predicate TrafficReferences(t: TrafficPlan) {
    && t.routerReference != "" && t.sourceReference != "" && t.targetReference != ""
    && t.metricsReference != "" && t.abort.Some?
    && t.sourceReference != t.targetReference
  }

  ghost predicate CanarySteps(steps: seq<int>) {
    && steps != [] && steps[|steps| - 1] == 100
    && (forall i :: 0 <= i < |steps| ==> 1 <= steps[i] <= 100)
    && (forall i, j :: 0 <= i < j < |steps| ==> steps[i] < steps[j])
  }

  ghost predicate ValidTrafficPlan(t: TrafficPlan) {
    match t.strategy
    case NoCutover => t == TrafficPlan(NoCutover, "", "", "", "", [], None)
    case ExternalCanary => TrafficReferences(t) && CanarySteps(t.canaryStepsPercent)
    case ExternalSwitch => TrafficReferences(t) && t.canaryStepsPercent == []
  }

  predicate AllowedSafety(trigger: Trigger, mode: SafetyMode) {
    match trigger
    case Http => mode in {ReadOnly, Idempotent}
    case Webhook => mode in {ReadOnly, Idempotent}
    case Schedule => mode in {DryRun, Idempotent}
    case Queue => mode == DualPublish
  }

  // MigrationConfig._source_and_mode. Its branches depend on no gate.
  ghost predicate SourceAndMode(m: Migration) {
    var src, mode, t, traffic := m.source, m.target.mode, m.stages.triggers.plan, m.stages.traffic.plan;
    && ((src.image != "") != src.build.Some?)
    && (mode == "adapter" ==> src.port.Some? && src.invokePath != "")
    && (mode == "native" ==> src.port.None? && src.invokePath == "")
    && (TrafficRequired(m) && src.trigger in {Webhook, Schedule, Queue} ==> TriggersRequired(m))
    && (TriggersRequired(m) ==>
          && t.safetyMode.Some? && AllowedSafety(src.trigger, t.safetyMode.value)
          && (t.safetyMode.value in {Idempotent, DualPublish} ==> t.idempotencyReference != "")
          && (src.trigger.Webhook? ==> t.signatureValidationReference != ""))
    && !(traffic.strategy.ExternalCanary? && src.trigger in {Schedule, Queue})
    && (forall d :: d in m.stages.data.datasets ==> d.dependency in m.network.privateDependencies)
  }

  ghost predicate ValidNetwork(n: Network) {
    && |n.privateDependencies| <= 25 && Distinct(n.privateDependencies)
    && |n.receipt.privateSubnetIds| <= 20 && Distinct(n.receipt.privateSubnetIds)
    && |n.receipt.securityGroupIds| <= 20 && Distinct(n.receipt.securityGroupIds)
    && (n.receipt.caBundleVersionId != "" ==> n.caBundleSecretName != "")
  }

  ghost predicate ValidSource(s: Source) {
    forall i, j :: 0 <= i < j < |s.env| ==> s.env[i].name != s.env[j].name
  }

  ghost predicate ReceiptAccountMatches(c: Config, account: string) {
    account != "" ==>
      if c.deployment.strategy == "federated" then account in c.deployment.workloadAccounts
      else c.deployment.platformAccount != "" ==> account == c.deployment.platformAccount
  }

  // Everything the loader checks that does not look at a gate.
  ghost predicate ValidPlan(c: Config) {
    match c.migration
    case None => true
    case Some(m) =>
      && ValidSource(m.source) && ValidNetwork(m.network)
      && ValidDataStage(m.stages.data) && ValidTriggerPlan(m.stages.triggers.plan)
      && ValidTrafficPlan(m.stages.traffic.plan)
      && SourceAndMode(m)
      && (NetworkRequired(m) ==> c.security.networking && m.network.connectivity != "none")
      && ReceiptAccountMatches(c, m.stages.runtime.receipt.accountId)
  }

  datatype Gates = Gates(runtime: Gate, network: Gate, data: Gate, triggers: Gate, traffic: Gate)

  function GatesOf(m: Migration): Gates {
    Gates(m.stages.runtime.gate, m.network.gate, m.stages.data.gate, m.stages.triggers.gate, m.stages.traffic.gate)
  }

  function WithGates(m: Migration, g: Gates): Migration {
    m.(network := m.network.(gate := g.network),
       stages := Stages(m.stages.runtime.(gate := g.runtime), m.stages.data.(gate := g.data),
                        m.stages.triggers.(gate := g.triggers), m.stages.traffic.(gate := g.traffic)))
  }

  predicate ValidGates(g: Gates, loadedAt: Time) {
    && ValidGate(g.runtime, loadedAt) && ValidGate(g.network, loadedAt) && ValidGate(g.data, loadedAt)
    && ValidGate(g.triggers, loadedAt) && ValidGate(g.traffic, loadedAt)
  }

  ghost predicate Valid(c: Config, loadedAt: Time) {
    ValidPlan(c) && (c.migration.Some? ==> ValidGates(GatesOf(c.migration.value), loadedAt))
  }
}
