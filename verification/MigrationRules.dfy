// What the loader's rules add up to, over the validators of several records: how
// a workload may be shadowed and cut over, by what triggers it, and what its
// approvals have in common.

module MigrationRules {
  import opened Text
  import opened Json
  import opened MigrationModel
  import opened MigrationPlan
  import opened MigrationReadiness
  import opened MigrationFields

  // How a shadow keeps the customer's systems safe, by trigger.
  ghost predicate SafeShadow(trigger: Trigger, t: TriggerPlan) {
    match trigger
    case Http => t.safetyMode == Some(ReadOnly) || (t.safetyMode == Some(Idempotent) && t.idempotencyReference != "")
    case Webhook =>
      && (t.safetyMode == Some(ReadOnly) || (t.safetyMode == Some(Idempotent) && t.idempotencyReference != ""))
      && t.signatureValidationReference != ""
    case Schedule => t.safetyMode == Some(DryRun) || (t.safetyMode == Some(Idempotent) && t.idempotencyReference != "")
    case Queue => t.safetyMode == Some(DualPublish) && t.idempotencyReference != ""
  }

  // A workload is shadowed safely, or not at all, which only an HTTP workload may be
  // when it is cut over.
  ghost predicate ShadowRules(m: Migration) {
    var t := m.stages.triggers.plan;
    match t.strategy
    case NoShadow =>
      && t.sourceReference == "" && t.shadowReference == "" && t.safetyMode == None && t.idempotencyReference == ""
      && t.signatureValidationReference == "" && t.validationReference == ""
      && (m.stages.traffic.plan.strategy == NoCutover || m.source.trigger == Http)
    case ExternalShadow =>
      && t.sourceReference != "" && t.shadowReference != "" && t.sourceReference != t.shadowReference
      && t.validationReference != "" && SafeShadow(m.source.trigger, t)
  }

  // Percentages that rise to 100.
  ghost predicate Rises(steps: seq<int>) {
    && 0 < |steps| && steps[|steps| - 1] == 100 && 1 <= steps[0]
    && forall i :: 0 < i < |steps| ==> steps[i - 1] < steps[i]
  }

  // Traffic moves at once or in rising steps, between two different places and with
  // thresholds to abort at; in steps only where requests can be split.
  ghost predicate CutoverRules(m: Migration) {
    var t := m.stages.traffic.plan;
    match t.strategy
    case NoCutover =>
      && t.routerReference == "" && t.sourceReference == "" && t.targetReference == "" && t.metricsReference == ""
      && t.canaryStepsPercent == [] && t.abort == None
    case _ =>
      && t.routerReference != "" && t.sourceReference != "" && t.targetReference != "" && t.metricsReference != ""
      && t.sourceReference != t.targetReference && t.abort != None
      && (if t.strategy == ExternalCanary then Rises(t.canaryStepsPercent) && m.source.trigger in {Webhook, Http}
          else t.canaryStepsPercent == [])
  }

  // One container image, as named or as built, reached the way its mode says.
  ghost predicate PackagingRules(m: Migration) {
    && (m.source.image == "" <==> m.source.build != None)
    && (m.target.mode == "adapter" ==> m.source.port != None && m.source.invokePath != "")
    && (m.target.mode == "native" ==> m.source.port == None && m.source.invokePath == "")
    && forall i, j :: 0 <= i < j < |m.source.env| ==> m.source.env[i].name != m.source.env[j].name
  }

  // Retained data stays behind dependencies that are declared and can be reached.
  ghost predicate PrivateRules(c: Config, m: Migration) {
    var n, d := m.network, m.stages.data;
    && (d.strategy == RetainSource <==> |d.datasets| > 0)
    && (forall i :: 0 <= i < |d.datasets| ==> d.datasets[i].dependency in n.privateDependencies)
    && (|n.privateDependencies| > 0 ==> c.security.networking && n.connectivity != "none")
    && (n.receipt.caBundleVersionId == "" || n.caBundleSecretName != "")
    && |d.datasets| <= 25 && |n.privateDependencies| <= 25
    && |n.receipt.privateSubnetIds| <= 20 && |n.receipt.securityGroupIds| <= 20
    && (forall i, j :: 0 <= i < j < |d.datasets| ==> d.datasets[i].name != d.datasets[j].name)
    && (forall i, j :: 0 <= i < j < |n.privateDependencies| ==> n.privateDependencies[i] != n.privateDependencies[j])
    && (forall i, j :: 0 <= i < j < |n.receipt.privateSubnetIds| ==>
          n.receipt.privateSubnetIds[i] != n.receipt.privateSubnetIds[j])
    && (forall i, j :: 0 <= i < j < |n.receipt.securityGroupIds| ==>
          n.receipt.securityGroupIds[i] != n.receipt.securityGroupIds[j])
  }

  // The runtime was deployed in one of the accounts the deployment names, if any.
  ghost predicate AccountRules(c: Config, account: string) {
    || account == ""
    || (c.deployment.strategy == "federated" && account in c.deployment.workloadAccounts)
    || (c.deployment.strategy != "federated" && c.deployment.platformAccount in {"", account})
  }

  lemma {:induction false} RisesFrom(steps: seq<int>, i: nat, j: nat)
    requires Rises(steps) && i < j < |steps|
    ensures steps[i] < steps[j]
    decreases j
  {
    if i < j - 1 {
      RisesFrom(steps, i, j - 1);
    }
  }

  lemma CanaryRises(steps: seq<int>)
    ensures CanarySteps(steps) <==> Rises(steps)
  {
    if Rises(steps) {
      forall i, j | 0 <= i < j < |steps|
        ensures steps[i] < steps[j]
      {
        RisesFrom(steps, i, j);
      }
    }
  }

  lemma CutoversAre(m: Migration)
    ensures var t := m.stages.traffic.plan;
            ValidTrafficPlan(t) && !(t.strategy == ExternalCanary && m.source.trigger in {Schedule, Queue})
            <==> CutoverRules(m)
  {
    var t, trigger := m.stages.traffic.plan, m.source.trigger;
    CanaryRises(t.canaryStepsPercent);
    assert trigger in {Schedule, Queue} <==> trigger !in {Webhook, Http} by {
      assert trigger.Http? || trigger.Webhook? || trigger.Schedule? || trigger.Queue?;
    }
    assert ExternalCanary != ExternalSwitch;
    match t.strategy
    case NoCutover =>
    case ExternalCanary =>
    case ExternalSwitch =>
  }

  lemma ShadowsAre(m: Migration)
    ensures var src, t := m.source, m.stages.triggers.plan;
            && ValidTriggerPlan(t)
            && (TrafficRequired(m) && src.trigger in {Webhook, Schedule, Queue} ==> TriggersRequired(m))
            && (TriggersRequired(m) ==>
                  && t.safetyMode.Some? && AllowedSafety(src.trigger, t.safetyMode.value)
                  && (t.safetyMode.value in {Idempotent, DualPublish} ==> t.idempotencyReference != "")
                  && (src.trigger.Webhook? ==> t.signatureValidationReference != ""))
            <==> ShadowRules(m)
  {
  }

  lemma PackagesAre(m: Migration)
    ensures var src, mode := m.source, m.target.mode;
            && ((src.image != "") != src.build.Some?) && (mode == "adapter" ==> src.port.Some? && src.invokePath != "")
            && (mode == "native" ==> src.port.None? && src.invokePath == "") && ValidSource(src)
            <==> PackagingRules(m)
  {
  }

  lemma PrivateIs(c: Config, m: Migration)
    ensures && ValidNetwork(m.network) && ValidDataStage(m.stages.data)
            && (NetworkRequired(m) ==> c.security.networking && m.network.connectivity != "none")
            && (forall d :: d in m.stages.data.datasets ==> d.dependency in m.network.privateDependencies)
            <==> PrivateRules(c, m)
  {
  }

  // A file's plan is valid exactly under these rules.
  lemma PlanInFields(c: Config, m: Migration)
    requires c.migration == Some(m)
    ensures ValidPlan(c)
            <==> && ShadowRules(m) && CutoverRules(m) && PackagingRules(m) && PrivateRules(c, m)
                 && AccountRules(c, m.stages.runtime.receipt.accountId)
  {
    CutoversAre(m);
    ShadowsAre(m);
    PackagesAre(m);
    PrivateIs(c, m);
  }

  // ---- Approvals -------------------------------------------------------------------------------

  // No whitespace at either end, and not longer than this.
  ghost predicate Tidy(s: string, n: nat) { Trimmed(s) && |s| <= n }

  lemma TidyMeans(s: string)
    ensures SingleLine(s) <==> Trimmed(s)
  {
    if SingleLine(s) {
      var a, b := StripShape(s);
    } else if Trimmed(s) {
      StripTrimmed(s);
    }
  }

  // A gate as it can be in a file: two different people, and either no dates, or
  // everything filled in, approved by now (a clock may be five minutes off), for at
  // most seven days.
  ghost predicate GateRules(g: Gate, loadedAt: Time) {
    && Tidy(g.owner, 200) && Tidy(g.approver, 200) && Tidy(g.rollback, 2000)
    && |g.evidence| <= 50 && (forall i :: 0 <= i < |g.evidence| ==> Tidy(g.evidence[i], 500))
    && (g.owner != "" && g.approver != "" ==> Lower(g.owner) != Lower(g.approver))
    && (if g.approvedAt == None then g.expiresAt == None
        else
          && g.owner != "" && g.approver != "" && g.rollback != "" && g.evidence != [] && "" !in g.evidence
          && g.expiresAt != None && g.approvedAt.value - loadedAt <= 300_000_000
          && 0 < g.expiresAt.value - g.approvedAt.value <= 604_800_000_000)
  }

  lemma GateInFields(g: Gate, loadedAt: Time)
    ensures ValidGate(g, loadedAt) <==> GateRules(g, loadedAt)
  {
    TidyMeans(g.owner);
    TidyMeans(g.approver);
    TidyMeans(g.rollback);
    forall item
      ensures SingleLine(item) <==> Trimmed(item)
      ensures Trimmed(item) ==> Strip(item) == item
    {
      TidyMeans(item);
    }
  }

  // An approval a ready cutover rests on.
  ghost predicate Sound(g: Gate, loadedAt: Time, t: Time) {
    && GateRules(g, loadedAt) && g.owner != "" && g.approver != "" && Lower(g.owner) != Lower(g.approver)
    && g.approvedAt != None && g.expiresAt != None
    && g.approvedAt.value - loadedAt <= 300_000_000
    && t < g.expiresAt.value <= g.approvedAt.value + 604_800_000_000
  }

  lemma SoundGate(g: Gate, digest: string, loadedAt: Time, t: Time)
    requires ValidGate(g, loadedAt) && Stands(g, digest, t)
    ensures Sound(g, loadedAt, t)
  {
    GateInFields(g, loadedAt);
  }

  // Every stage the file asks for has one.
  ghost predicate SoundApprovals(m: Migration, loadedAt: Time, t: Time) {
    && Sound(m.stages.runtime.gate, loadedAt, t) && Sound(m.stages.traffic.gate, loadedAt, t)
    && (m.network.privateDependencies != [] ==> Sound(m.network.gate, loadedAt, t))
    && (m.stages.data.strategy != NoData ==> Sound(m.stages.data.gate, loadedAt, t))
    && (m.stages.triggers.plan.strategy != NoShadow ==> Sound(m.stages.triggers.gate, loadedAt, t))
  }

  ghost predicate Standing(m: Migration, d: Digests, t: Time) {
    && Stands(m.stages.runtime.gate, d.runtime, t) && Stands(m.stages.traffic.gate, d.traffic, t)
    && (m.network.privateDependencies != [] ==> Stands(m.network.gate, d.network, t))
    && (m.stages.data.strategy != NoData ==> Stands(m.stages.data.gate, d.data, t))
    && (m.stages.triggers.plan.strategy != NoShadow ==> Stands(m.stages.triggers.gate, d.triggers, t))
  }

  lemma StandingIsSound(m: Migration, d: Digests, loadedAt: Time, t: Time)
    requires ValidGates(GatesOf(m), loadedAt) && Standing(m, d, t)
    ensures SoundApprovals(m, loadedAt, t)
  {
    SoundGate(m.stages.runtime.gate, d.runtime, loadedAt, t);
    SoundGate(m.stages.traffic.gate, d.traffic, loadedAt, t);
    if m.network.privateDependencies != [] {
      SoundGate(m.network.gate, d.network, loadedAt, t);
    }
    if m.stages.data.strategy != NoData {
      SoundGate(m.stages.data.gate, d.data, loadedAt, t);
    }
    if m.stages.triggers.plan.strategy != NoShadow {
      SoundGate(m.stages.triggers.gate, d.triggers, loadedAt, t);
    }
  }

  lemma ReadyIsStanding(h: Hash, c: Config, m: Migration, t: Time)
    requires c.migration == Some(m) && CutoverReady(h, c, t)
    ensures Standing(m, DigestsOf(h, c, m), t) && TrafficRequired(m)
  {
    ReadyInFields(h, c, m, t);
  }

  // A cutover that is requested, by the rules for what triggers the workload: traffic
  // of a schedule or a queue moves at once, and nothing but an HTTP workload moves
  // without a safe shadow.
  ghost predicate SafePlan(c: Config, m: Migration) {
    && m.stages.traffic.plan.strategy != NoCutover && CutoverRules(m) && ShadowRules(m)
    && (m.source.trigger in {Schedule, Queue} ==> m.stages.traffic.plan.strategy == ExternalSwitch)
    && (m.source.trigger == Http || SafeShadow(m.source.trigger, m.stages.triggers.plan))
    && PackagingRules(m) && PrivateRules(c, m) && AccountRules(c, m.stages.runtime.receipt.accountId)
  }

  lemma RequestedPlanIsSafe(c: Config, m: Migration)
    requires c.migration == Some(m) && ValidPlan(c) && TrafficRequired(m)
    ensures SafePlan(c, m)
  {
    PlanInFields(c, m);
  }

  // A cutover that is ready shadows and shifts its workload by the rules for what
  // triggers it, keeps what it retains within reach, and rests on approvals that
  // someone other than the owner gave, at most a week before.
  lemma ReadyCutoverIsSafe(h: Hash, c: Config, m: Migration, loadedAt: Time, t: Time)
    requires c.migration == Some(m) && Valid(c, loadedAt) && CutoverReady(h, c, t)
    ensures SafePlan(c, m) && SoundApprovals(m, loadedAt, t)
  {
    ReadyIsStanding(h, c, m, t);
    RequestedPlanIsSafe(c, m);
    StandingIsSound(m, DigestsOf(h, c, m), loadedAt, t);
  }
}
