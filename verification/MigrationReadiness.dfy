// The fail-closed readiness checks, and what cutover readiness means over time
// and over changes to the configuration.

module MigrationReadiness {
  import opened Text
  import opened Json
  import opened Canonical
  import opened MigrationModel
  import opened MigrationPlan
  import opened MigrationBinding
  import opened MigrationDigests

  datatype Status = IsReady | Blocked | NotRequired

  function GatedStage(required: bool, gate: Gate, now: Time): Status {
    if !required then NotRequired
    else if Ready(gate, now) then IsReady
    else Blocked
  }

  // The digest check every stage applies to a gate that is otherwise ready.
  function ApprovedPlan(status: Status, digest: string, gate: Gate): Status {
    if status != IsReady then status
    else if digest !in gate.evidence then Blocked
    else IsReady
  }

  predicate RuntimeReceiptComplete(r: RuntimeReceipt) {
    r.accountId != "" && r.runtimeArn != "" && r.sourceHash != "" && r.imageDigest != ""
      && r.verificationReference != ""
  }

  predicate NetworkReceiptComplete(n: Network) {
    && n.receipt.vpcId != "" && n.receipt.privateSubnetIds != [] && n.receipt.securityGroupIds != []
    && n.receipt.probeVerificationReference != ""
    && (n.caBundleSecretName != "" ==> n.receipt.caBundleVersionId != "")
  }

  function RuntimeCheck(h: Hash, c: Config, m: Migration, now: Time): Status {
    if !RuntimeReceiptComplete(m.stages.runtime.receipt) then Blocked
    else ApprovedPlan(GatedStage(true, m.stages.runtime.gate, now), RuntimeDigest(h, c, m), m.stages.runtime.gate)
  }

  function NetworkCheck(h: Hash, c: Config, m: Migration, now: Time): Status {
    if !NetworkRequired(m) then NotRequired
    else if m.stages.runtime.receipt.accountId == "" then Blocked
    else if !NetworkReceiptComplete(m.network) then Blocked
    else ApprovedPlan(GatedStage(true, m.network.gate, now), NetworkDigest(h, c, m), m.network.gate)
  }

  function DataCheck(h: Hash, c: Config, m: Migration, now: Time): Status {
    ApprovedPlan(GatedStage(DataRequired(m), m.stages.data.gate, now), DataDigest(h, c, m), m.stages.data.gate)
  }

  function TriggerCheck(h: Hash, c: Config, m: Migration, now: Time): Status {
    ApprovedPlan(GatedStage(TriggersRequired(m), m.stages.triggers.gate, now),
                 TriggerDigest(h, c, m), m.stages.triggers.gate)
  }

  // The approvals a traffic approval must not predate.
  function PrerequisiteApprovals(m: Migration): seq<Option<Time>> {
    [m.stages.runtime.gate.approvedAt,
     if NetworkRequired(m) then m.network.gate.approvedAt else None,
     if DataRequired(m) then m.stages.data.gate.approvedAt else None,
     if TriggersRequired(m) then m.stages.triggers.gate.approvedAt else None]
  }

  predicate Predates(approval: Time, others: seq<Option<Time>>) {
    exists o :: o in others && o.Some? && o.value > approval
  }

  function TrafficCheck(h: Hash, c: Config, m: Migration, now: Time): Status {
    var gate := m.stages.traffic.gate;
    var status := ApprovedPlan(GatedStage(TrafficRequired(m), gate, now), TrafficDigest(h, c, m), gate);
    if status == IsReady && gate.approvedAt.Some? && Predates(gate.approvedAt.value, PrerequisiteApprovals(m))
    then Blocked
    else status
  }

  function Readiness(h: Hash, c: Config, now: Time): seq<Status> {
    match c.migration
    case None => []
    case Some(m) =>
      [RuntimeCheck(h, c, m, now), NetworkCheck(h, c, m, now), DataCheck(h, c, m, now),
       TriggerCheck(h, c, m, now), TrafficCheck(h, c, m, now)]
  }

  predicate CutoverReady(h: Hash, c: Config, now: Time) {
    && c.migration.Some? && TrafficRequired(c.migration.value)
    && forall status :: status in Readiness(h, c, now) ==> status != Blocked
  }

  // ---- Closed form ------------------------------------------------------------

  function RequiredGates(m: Migration): seq<Gate> {
    [m.stages.runtime.gate]
    + (if NetworkRequired(m) then [m.network.gate] else [])
    + (if DataRequired(m) then [m.stages.data.gate] else [])
    + (if TriggersRequired(m) then [m.stages.triggers.gate] else [])
    + [m.stages.traffic.gate]
  }

  predicate ReceiptsComplete(m: Migration) {
    RuntimeReceiptComplete(m.stages.runtime.receipt) && (NetworkRequired(m) ==> NetworkReceiptComplete(m.network))
  }

  predicate Lists(gate: Gate, digest: string) { digest in gate.evidence }

  predicate DigestsListed(h: Hash, c: Config, m: Migration) {
    && Lists(m.stages.runtime.gate, RuntimeDigest(h, c, m))
    && (NetworkRequired(m) ==> Lists(m.network.gate, NetworkDigest(h, c, m)))
    && (DataRequired(m) ==> Lists(m.stages.data.gate, DataDigest(h, c, m)))
    && (TriggersRequired(m) ==> Lists(m.stages.triggers.gate, TriggerDigest(h, c, m)))
    && Lists(m.stages.traffic.gate, TrafficDigest(h, c, m))
  }

  ghost predicate Complete(gates: seq<Gate>) {
    forall g :: g in gates ==> Filled(g)
  }

  // Traffic was approved last.
  ghost predicate TrafficApprovedLast(m: Migration) {
    var gate := m.stages.traffic.gate;
    gate.approvedAt.Some? ==>
      forall g :: g in RequiredGates(m) && g.approvedAt.Some? ==> g.approvedAt.value <= gate.approvedAt.value
  }

  // The part of readiness the clock has no say in.
  ghost predicate TimeFree(h: Hash, c: Config, m: Migration) {
    && TrafficRequired(m) && ReceiptsComplete(m) && Complete(RequiredGates(m))
    && DigestsListed(h, c, m) && TrafficApprovedLast(m)
  }

  function ExpiryOf(g: Gate): Time { if g.expiresAt.Some? then g.expiresAt.value else 0 }

  // The least expires_at.
  function Deadline(gates: seq<Gate>): Time
    requires gates != []
  {
    if |gates| == 1 then ExpiryOf(gates[0])
    else
      var rest := Deadline(gates[1..]);
      if ExpiryOf(gates[0]) <= rest then ExpiryOf(gates[0]) else rest
  }

  lemma {:induction false} DeadlineIsLeast(gates: seq<Gate>, now: Time)
    requires gates != []
    ensures now < Deadline(gates) <==> forall g :: g in gates ==> now < ExpiryOf(g)
    ensures exists g :: g in gates && Deadline(gates) == ExpiryOf(g)
  {
    assert gates == [gates[0]] + gates[1..];
    if |gates| > 1 {
      DeadlineIsLeast(gates[1..], now);
    }
  }

  lemma ReadyMeaning(g: Gate, now: Time)
    ensures Ready(g, now) <==> Filled(g) && now < g.expiresAt.value
  {
    NoMissingFields(g);
  }

  lemma RuntimeReady(h: Hash, c: Config, m: Migration, now: Time)
    ensures RuntimeCheck(h, c, m, now) != Blocked <==>
              RuntimeReceiptComplete(m.stages.runtime.receipt) && Ready(m.stages.runtime.gate, now)
              && Lists(m.stages.runtime.gate, RuntimeDigest(h, c, m))
  {
  }

  lemma DataReady(h: Hash, c: Config, m: Migration, now: Time)
    ensures DataCheck(h, c, m, now) != Blocked <==>
              (DataRequired(m) ==> Ready(m.stages.data.gate, now) && Lists(m.stages.data.gate, DataDigest(h, c, m)))
  {
  }

  lemma TriggersReady(h: Hash, c: Config, m: Migration, now: Time)
    ensures TriggerCheck(h, c, m, now) != Blocked <==>
              (TriggersRequired(m) ==>
                 Ready(m.stages.triggers.gate, now) && Lists(m.stages.triggers.gate, TriggerDigest(h, c, m)))
  {
  }

  lemma NetworkReady(h: Hash, c: Config, m: Migration, now: Time)
    ensures NetworkCheck(h, c, m, now) != Blocked <==>
              (NetworkRequired(m) ==>
                 m.stages.runtime.receipt.accountId != "" && NetworkReceiptComplete(m.network)
                 && Ready(m.network.gate, now) && Lists(m.network.gate, NetworkDigest(h, c, m)))
  {
  }

  lemma TrafficReady(h: Hash, c: Config, m: Migration, now: Time)
    requires TrafficRequired(m)
    ensures TrafficCheck(h, c, m, now) != Blocked <==>
              && Ready(m.stages.traffic.gate, now) && Lists(m.stages.traffic.gate, TrafficDigest(h, c, m))
              && !Predates(m.stages.traffic.gate.approvedAt.value, PrerequisiteApprovals(m))
  {
  }

  lemma ApprovalOrder(m: Migration)
    requires m.stages.traffic.gate.approvedAt.Some?
    ensures TrafficApprovedLast(m) <==> !Predates(m.stages.traffic.gate.approvedAt.value, PrerequisiteApprovals(m))
  {
    var approvals := PrerequisiteApprovals(m);
    var last := m.stages.traffic.gate.approvedAt.value;
    assert approvals[0] in approvals && approvals[1] in approvals && approvals[2] in approvals
           && approvals[3] in approvals;
    if !Predates(last, approvals) {
      forall g | g in RequiredGates(m) && g.approvedAt.Some?
        ensures g.approvedAt.value <= last
      {
        assert g == m.stages.traffic.gate || g.approvedAt in approvals;
      }
    } else {
      var o :| o in approvals && o.Some? && o.value > last;
      GateOfApproval(m, o);
    }
  }

  lemma GateOfApproval(m: Migration, o: Option<Time>)
    requires o in PrerequisiteApprovals(m) && o.Some?
    ensures exists g :: g in RequiredGates(m) && g.approvedAt == o
  {
    assert m.stages.runtime.gate in RequiredGates(m);
    assert NetworkRequired(m) ==> m.network.gate in RequiredGates(m);
    assert DataRequired(m) ==> m.stages.data.gate in RequiredGates(m);
    assert TriggersRequired(m) ==> m.stages.triggers.gate in RequiredGates(m);
  }

  lemma ReadyEverywhere(gates: seq<Gate>, now: Time)
    requires gates != []
    ensures (forall g :: g in gates ==> Ready(g, now)) <==> Complete(gates) && now < Deadline(gates)
  {
    DeadlineIsLeast(gates, now);
    forall g | g in gates
      ensures Ready(g, now) <==> Filled(g) && now < ExpiryOf(g)
    {
      ReadyMeaning(g, now);
    }
  }

  lemma RequiredGatesReady(m: Migration, now: Time)
    ensures (forall g :: g in RequiredGates(m) ==> Ready(g, now)) <==>
              && Ready(m.stages.runtime.gate, now) && (NetworkRequired(m) ==> Ready(m.network.gate, now))
              && (DataRequired(m) ==> Ready(m.stages.data.gate, now))
              && (TriggersRequired(m) ==> Ready(m.stages.triggers.gate, now)) && Ready(m.stages.traffic.gate, now)
  {
    forall g
      ensures g in RequiredGates(m) <==>
                || g == m.stages.runtime.gate || (NetworkRequired(m) && g == m.network.gate)
                || (DataRequired(m) && g == m.stages.data.gate)
                || (TriggersRequired(m) && g == m.stages.triggers.gate) || g == m.stages.traffic.gate
    {
      RequiredGatesAre(m, g);
    }
  }

  lemma RequiredGatesAre(m: Migration, g: Gate)
    ensures g in RequiredGates(m) <==>
              || g == m.stages.runtime.gate || (NetworkRequired(m) && g == m.network.gate)
              || (DataRequired(m) && g == m.stages.data.gate)
              || (TriggersRequired(m) && g == m.stages.triggers.gate) || g == m.stages.traffic.gate
  {
  }

  lemma AllFive<T>(a: T, b: T, c: T, d: T, e: T, bad: T)
    ensures (forall x :: x in [a, b, c, d, e] ==> x != bad)
            <==> a != bad && b != bad && c != bad && d != bad && e != bad
  {
    var r := [a, b, c, d, e];
    assert r[0] in r && r[1] in r && r[2] in r && r[3] in r && r[4] in r;
  }

  lemma ReadyMeansNoneBlocked(h: Hash, c: Config, m: Migration, now: Time)
    requires c.migration == Some(m)
    ensures CutoverReady(h, c, now) <==>
              && TrafficRequired(m) && RuntimeCheck(h, c, m, now) != Blocked && NetworkCheck(h, c, m, now) != Blocked
              && DataCheck(h, c, m, now) != Blocked && TriggerCheck(h, c, m, now) != Blocked
              && TrafficCheck(h, c, m, now) != Blocked
  {
    var r0, r1, r2 := RuntimeCheck(h, c, m, now), NetworkCheck(h, c, m, now), DataCheck(h, c, m, now);
    var r3, r4 := TriggerCheck(h, c, m, now), TrafficCheck(h, c, m, now);
    assert Readiness(h, c, now) == [r0, r1, r2, r3, r4];
    AllFive(r0, r1, r2, r3, r4, Blocked);
  }

  lemma TrafficClosedForm(h: Hash, c: Config, m: Migration, now: Time)
    requires TrafficRequired(m)
    ensures TrafficCheck(h, c, m, now) != Blocked <==>
              && Ready(m.stages.traffic.gate, now) && Lists(m.stages.traffic.gate, TrafficDigest(h, c, m))
              && TrafficApprovedLast(m)
  {
    TrafficReady(h, c, m, now);
    ReadyMeaning(m.stages.traffic.gate, now);
    if m.stages.traffic.gate.approvedAt.Some? {
      ApprovalOrder(m);
    }
  }

  // Closed form: cutover is ready exactly when a condition that never mentions
  // the clock holds and the least expiry of the required gates is still ahead.
  lemma ClosedForm(h: Hash, c: Config, m: Migration, now: Time)
    requires c.migration == Some(m)
    ensures CutoverReady(h, c, now) <==> TimeFree(h, c, m) && now < Deadline(RequiredGates(m))
  {
    if TrafficRequired(m) {
      RequestedClosedForm(h, c, m, now);
    } else {
      ReadyMeansNoneBlocked(h, c, m, now);
    }
  }

  lemma RequestedClosedForm(h: Hash, c: Config, m: Migration, now: Time)
    requires c.migration == Some(m) && TrafficRequired(m)
    ensures CutoverReady(h, c, now) <==> TimeFree(h, c, m) && now < Deadline(RequiredGates(m))
  {
    if CutoverReady(h, c, now) {
      ReadyNeeds(h, c, m, now);
    }
    if TimeFree(h, c, m) && now < Deadline(RequiredGates(m)) {
      ReadySuffices(h, c, m, now);
    }
  }

  lemma ReadyNeeds(h: Hash, c: Config, m: Migration, now: Time)
    requires c.migration == Some(m) && TrafficRequired(m) && CutoverReady(h, c, now)
    ensures TimeFree(h, c, m) && now < Deadline(RequiredGates(m))
  {
    ReadyMeansNoneBlocked(h, c, m, now);
    RuntimeReady(h, c, m, now);
    DataReady(h, c, m, now);
    TriggersReady(h, c, m, now);
    NetworkReady(h, c, m, now);
    TrafficClosedForm(h, c, m, now);
    RequiredGatesReady(m, now);
    ReadyEverywhere(RequiredGates(m), now);
  }

  lemma ReadySuffices(h: Hash, c: Config, m: Migration, now: Time)
    requires c.migration == Some(m) && TimeFree(h, c, m) && now < Deadline(RequiredGates(m))
    ensures CutoverReady(h, c, now)
  {
    ReadyEverywhere(RequiredGates(m), now);
    RequiredGatesReady(m, now);
    RuntimeReady(h, c, m, now);
    DataReady(h, c, m, now);
    TriggersReady(h, c, m, now);
    NetworkReady(h, c, m, now);
    TrafficClosedForm(h, c, m, now);
    ReadyMeansNoneBlocked(h, c, m, now);
  }

  // Readiness decays: for a fixed configuration, once lost it never returns.
  lemma ReadinessDecays(h: Hash, c: Config, earlier: Time, later: Time)
    requires earlier <= later && CutoverReady(h, c, later)
    ensures CutoverReady(h, c, earlier)
  {
    var m := c.migration.value;
    ClosedForm(h, c, m, earlier);
    ClosedForm(h, c, m, later);
  }

  lemma RequiredGatesMembers(m: Migration, g: Gate)
    requires g in RequiredGates(m)
    ensures var all := GatesOf(m);
            g == all.runtime || g == all.network || g == all.data || g == all.triggers || g == all.traffic
  {
  }

  ghost predicate WeekLong(g: Gate) {
    g.approvedAt.Some? ==> ExpiryOf(g) <= g.approvedAt.value + WEEK
  }

  lemma RequiredGatesAreWeekLong(c: Config, loadedAt: Time, g: Gate)
    requires c.migration.Some? && ValidGates(GatesOf(c.migration.value), loadedAt)
    requires g in RequiredGates(c.migration.value)
    ensures WeekLong(g)
  {
    RequiredGatesMembers(c.migration.value, g);
  }

  lemma ReadyGate(h: Hash, c: Config, now: Time, g: Gate)
    requires CutoverReady(h, c, now) && g in RequiredGates(c.migration.value)
    ensures g.approvedAt.Some? && now < ExpiryOf(g)
    ensures c.migration.value.stages.traffic.gate.approvedAt.Some?
    ensures g.approvedAt.value <= c.migration.value.stages.traffic.gate.approvedAt.value
  {
    var m := c.migration.value;
    ClosedForm(h, c, m, now);
    DeadlineIsLeast(RequiredGates(m), now);
    assert m.stages.traffic.gate in RequiredGates(m);
  }

  // No approval outlives seven days: readiness ends within a week of the
  // earliest required approval, and that one is never later than traffic's.
  lemma ReadinessLastsAtMostAWeek(h: Hash, c: Config, loadedAt: Time, now: Time, g: Gate)
    requires Valid(c, loadedAt) && CutoverReady(h, c, now) && g in RequiredGates(c.migration.value)
    ensures g.approvedAt.Some? && now < g.approvedAt.value + WEEK
    ensures c.migration.value.stages.traffic.gate.approvedAt.Some?
    ensures g.approvedAt.value <= c.migration.value.stages.traffic.gate.approvedAt.value
  {
    ReadyGate(h, c, now, g);
    RequiredGatesAreWeekLong(c, loadedAt, g);
  }

  // ---- Tamper evidence --------------------------------------------------------

  predicate IsDigest(s: string) { "sha256:" <= s }

  // A gate that names one plan.
  ghost predicate ListsOneDigest(g: Gate) {
    forall a, b :: a in g.evidence && b in g.evidence && IsDigest(a) && IsDigest(b) ==> a == b
  }

  // Two cutover-ready configurations that share one single-digest traffic gate
  // are the same cutover, whenever each of them was evaluated.
  lemma TamperEvidence(h: Hash, c: Config, m: Migration, d: Config, n: Migration, s: Time, t: Time)
    requires c.migration == Some(m) && d.migration == Some(n)
    requires ValidSource(m.source) && ValidDataStage(m.stages.data)
    requires CollisionFree(h, c, m, d, n)
    requires CutoverReady(h, c, s) && CutoverReady(h, d, t)
    requires m.stages.traffic.gate == n.stages.traffic.gate && ListsOneDigest(m.stages.traffic.gate)
    ensures SameCutover(c, m, d, n)
  {
    ClosedForm(h, c, m, s);
    ClosedForm(h, d, n, t);
    assert IsDigest(TrafficDigest(h, c, m)) && IsDigest(TrafficDigest(h, d, n));
    TrafficDigestBinds(h, c, m, d, n);
  }

  // ... and readiness depends on nothing but that cutover and the gates.
  lemma ReadinessFollowsTheCutover(h: Hash, c: Config, m: Migration, d: Config, n: Migration, now: Time)
    requires c.migration == Some(m) && d.migration == Some(n)
    requires ValidSource(m.source) && ValidDataStage(m.stages.data)
    requires SameCutover(c, m, d, n) && GatesOf(m) == GatesOf(n)
    ensures CutoverReady(h, c, now) == CutoverReady(h, d, now)
  {
    ClosedForm(h, c, m, now);
    ClosedForm(h, d, n, now);
    SameGates(c, m, d, n);
    SameReceipts(c, m, d, n);
    SameListing(h, c, m, d, n);
  }

  lemma SameGates(c: Config, m: Migration, d: Config, n: Migration)
    requires SameCutover(c, m, d, n) && GatesOf(m) == GatesOf(n)
    ensures RequiredGates(m) == RequiredGates(n) && TrafficRequired(m) == TrafficRequired(n)
    ensures TrafficApprovedLast(m) == TrafficApprovedLast(n)
  {
  }

  lemma SameReceipts(c: Config, m: Migration, d: Config, n: Migration)
    requires SameCutover(c, m, d, n)
    ensures ReceiptsComplete(m) == ReceiptsComplete(n)
  {
    if NetworkRequired(m) {
      SameLists(m.network.receipt.privateSubnetIds, n.network.receipt.privateSubnetIds);
      SameLists(m.network.receipt.securityGroupIds, n.network.receipt.securityGroupIds);
    }
  }

  lemma SameListing(h: Hash, c: Config, m: Migration, d: Config, n: Migration)
    requires ValidSource(m.source) && ValidDataStage(m.stages.data)
    requires SameCutover(c, m, d, n) && GatesOf(m) == GatesOf(n)
    ensures DigestsListed(h, c, m) == DigestsListed(h, d, n)
  {
    DigestsAreCanonical(h, c, m, d, n);
  }

  lemma SameLists(a: seq<string>, b: seq<string>)
    requires SameStrings(a, b)
    ensures a == [] <==> b == []
  {
    assert |a| == |multiset(a)| == |multiset(b)| == |b|;
  }

  // What no approval covers: the federation block and the enabled use cases can
  // change under a ready configuration without any digest noticing.
  lemma FederationIsNotBound(h: Hash, c: Config, f: Federation, useCases: seq<string>, now: Time)
    requires ValidPlan(c) && CutoverReady(h, c, now)
    ensures CutoverReady(h, c.(deployment := c.deployment.(federation := f), useCases := useCases), now)
  {
    var m := c.migration.value;
    var d := c.(deployment := c.deployment.(federation := f), useCases := useCases);
    ReadinessFollowsTheCutover(h, c, m, d, m, now);
  }

  // ---- Approval fixpoint --------------------------------------------------------

  // No digest looks at any gate, so recording evidence invalidates nothing.
  lemma DigestsIgnoreGates(h: Hash, c: Config, m: Migration, g: Gates)
    ensures var n := WithGates(m, g); var d := c.(migration := Some(n));
            && RuntimeDigest(h, d, n) == RuntimeDigest(h, c, m)
            && NetworkDigest(h, d, n) == NetworkDigest(h, c, m)
            && DataDigest(h, d, n) == DataDigest(h, c, m)
            && TriggerDigest(h, d, n) == TriggerDigest(h, c, m)
            && LinksOf(h, d, n) == LinksOf(h, c, m)
            && TrafficDigest(h, d, n) == TrafficDigest(h, c, m)
  {
    var n := WithGates(m, g);
    var d := c.(migration := Some(n));
    assert Header("migration-traffic-plan/v1", d) == Header("migration-traffic-plan/v1", c);
    assert RuntimeDocument(d, n) == RuntimeDocument(c, m);
    assert NetworkDocument(d, n) == NetworkDocument(c, m);
    assert DataDocument(d, n) == DataDocument(c, m);
    assert TriggerDocument(d, n) == TriggerDocument(c, m);
  }

  datatype Signatures = Signatures(owner: string, approver: string, rollback: string)

  predicate ProperSignatures(s: Signatures) {
    && SingleLine(s.owner) && SingleLine(s.approver) && SingleLine(s.rollback)
    && 0 < |s.owner| <= 200 && 0 < |s.approver| <= 200 && 0 < |s.rollback| <= 2000
    && Lower(s.owner) != Lower(s.approver)
  }

  // Approving a stage writes its digest into the evidence.
  function Approve(s: Signatures, digest: string, now: Time): Gate {
    Gate(s.owner, s.approver, Some(now), Some(now + WEEK), [digest], s.rollback)
  }

  datatype Digests = Digests(runtime: string, network: string, data: string, triggers: string, traffic: string)

  function DigestsOf(h: Hash, c: Config, m: Migration): Digests {
    Digests(RuntimeDigest(h, c, m), NetworkDigest(h, c, m), DataDigest(h, c, m), TriggerDigest(h, c, m),
            TrafficDigest(h, c, m))
  }

  function ApproveEach(s: Signatures, d: Digests, now: Time): Gates {
    Gates(Approve(s, d.runtime, now), Approve(s, d.network, now), Approve(s, d.data, now),
          Approve(s, d.triggers, now), Approve(s, d.traffic, now))
  }

  function ApproveAll(h: Hash, c: Config, m: Migration, s: Signatures, now: Time): Gates {
    ApproveEach(s, DigestsOf(h, c, m), now)
  }

  predicate Shaped(digest: string) { |digest| == 71 && SingleLine(digest) && Strip(digest) != "" }

  lemma DigestShape(h: Hash, f: seq<Field>)
    requires HexHash(h)
    ensures Shaped(PlanDigest(h, f))
  {
    var x := h(CanonicalText(Obj(f)));
    var d := PlanDigest(h, f);
    assert d[0] == 's' && d[70] == x[63];
    StripTrimmed(d);
  }

  // One gate, written for any digest.
  lemma ApprovalIsGood(s: Signatures, digest: string, now: Time)
    requires ProperSignatures(s) && Shaped(digest)
    ensures ValidGate(Approve(s, digest, now), now) && Filled(Approve(s, digest, now))
  {
  }

  predicate AllFilled(g: Gates) {
    Filled(g.runtime) && Filled(g.network) && Filled(g.data) && Filled(g.triggers) && Filled(g.traffic)
  }

  predicate AllShaped(d: Digests) {
    Shaped(d.runtime) && Shaped(d.network) && Shaped(d.data) && Shaped(d.triggers) && Shaped(d.traffic)
  }

  lemma DigestsAreShaped(h: Hash, c: Config, m: Migration)
    requires HexHash(h)
    ensures AllShaped(DigestsOf(h, c, m))
  {
    DigestShape(h, RuntimeDocument(c, m));
    DigestShape(h, NetworkDocument(c, m));
    DigestShape(h, DataDocument(c, m));
    DigestShape(h, TriggerDocument(c, m));
    DigestShape(h, TrafficDocument(h, c, m));
  }

  lemma ApprovedGatesAreGood(s: Signatures, d: Digests, now: Time)
    requires ProperSignatures(s) && AllShaped(d)
    ensures ValidGates(ApproveEach(s, d, now), now) && AllFilled(ApproveEach(s, d, now))
  {
    ApprovalIsGood(s, d.runtime, now);
    ApprovalIsGood(s, d.network, now);
    ApprovalIsGood(s, d.data, now);
    ApprovalIsGood(s, d.triggers, now);
    ApprovalIsGood(s, d.traffic, now);
  }

  // The required gates of a migration whose gates were all just written.
  lemma ApprovedDeadline(m: Migration, s: Signatures, d: Digests, now: Time, t: Time)
    requires AllFilled(ApproveEach(s, d, now))
    ensures var n := WithGates(m, ApproveEach(s, d, now));
            && Complete(RequiredGates(n)) && TrafficApprovedLast(n)
            && (t < Deadline(RequiredGates(n)) <==> t < now + WEEK)
  {
    var n := WithGates(m, ApproveEach(s, d, now));
    forall x | x in RequiredGates(n)
      ensures Filled(x) && x.approvedAt == Some(now) && x.expiresAt == Some(now + WEEK)
    {
      RequiredGatesMembers(n, x);
    }
    DeadlineIsLeast(RequiredGates(n), t);
  }

  lemma ApprovedDigestsListed(h: Hash, c: Config, m: Migration, s: Signatures, now: Time)
    ensures var n := WithGates(m, ApproveAll(h, c, m, s, now));
            DigestsListed(h, c.(migration := Some(n)), n)
  {
    DigestsIgnoreGates(h, c, m, ApproveAll(h, c, m, s, now));
  }

  function Approved(h: Hash, c: Config, m: Migration, s: Signatures, now: Time): Config {
    c.(migration := Some(WithGates(m, ApproveAll(h, c, m, s, now))))
  }

  lemma ApprovedIsValid(c: Config, m: Migration, s: Signatures, d: Digests, now: Time)
    requires ValidPlan(c) && c.migration == Some(m) && ProperSignatures(s) && AllShaped(d)
    ensures Valid(c.(migration := Some(WithGates(m, ApproveEach(s, d, now)))), now)
  {
    var g := ApproveEach(s, d, now);
    ApprovedGatesAreGood(s, d, now);
    GatesDoNotAffectThePlan(c, m, g);
    GatesOfWithGates(m, g);
  }

  lemma GatesOfWithGates(m: Migration, g: Gates)
    ensures GatesOf(WithGates(m, g)) == g
  {
  }

  lemma ApprovedPasses(h: Hash, c: Config, m: Migration, s: Signatures, now: Time)
    requires HexHash(h) && ValidPlan(c) && c.migration == Some(m) && ProperSignatures(s)
    ensures Valid(Approved(h, c, m, s, now), now)
  {
    DigestsAreShaped(h, c, m);
    ApprovedIsValid(c, m, s, DigestsOf(h, c, m), now);
  }

  lemma ApprovedIsFilled(h: Hash, c: Config, m: Migration, s: Signatures, now: Time)
    requires HexHash(h) && ProperSignatures(s)
    ensures AllFilled(ApproveAll(h, c, m, s, now))
  {
    DigestsAreShaped(h, c, m);
    ApprovedGatesAreGood(s, DigestsOf(h, c, m), now);
  }

  lemma ApprovedTimeFree(h: Hash, c: Config, m: Migration, s: Signatures, now: Time)
    requires AllFilled(ApproveAll(h, c, m, s, now)) && TrafficRequired(m) && ReceiptsComplete(m)
    ensures TimeFree(h, Approved(h, c, m, s, now), WithGates(m, ApproveAll(h, c, m, s, now)))
  {
    ApprovedDeadline(m, s, DigestsOf(h, c, m), now, now);
    ApprovedDigestsListed(h, c, m, s, now);
  }

  lemma ApprovedIsReady(h: Hash, c: Config, m: Migration, s: Signatures, now: Time, t: Time)
    requires AllFilled(ApproveAll(h, c, m, s, now)) && TrafficRequired(m) && ReceiptsComplete(m)
    ensures CutoverReady(h, Approved(h, c, m, s, now), t) <==> t < now + WEEK
  {
    ApprovedTimeFree(h, c, m, s, now);
    ApprovedDeadline(m, s, DigestsOf(h, c, m), now, t);
    ClosedForm(h, Approved(h, c, m, s, now), WithGates(m, ApproveAll(h, c, m, s, now)), t);
  }

  // Every valid configuration with a requested cutover and complete receipts can
  // be approved: approving each stage yields a valid file that is ready for
  // exactly the following seven days.
  lemma ApprovalFixpoint(h: Hash, c: Config, m: Migration, s: Signatures, now: Time, t: Time)
    requires HexHash(h) && ValidPlan(c) && c.migration == Some(m)
    requires TrafficRequired(m) && ReceiptsComplete(m) && ProperSignatures(s)
    ensures Valid(Approved(h, c, m, s, now), now)
    ensures CutoverReady(h, Approved(h, c, m, s, now), t) <==> t < now + WEEK
  {
    ApprovedPasses(h, c, m, s, now);
    ApprovedIsFilled(h, c, m, s, now);
    ApprovedIsReady(h, c, m, s, now, t);
  }

  lemma GatesDoNotAffectThePlan(c: Config, m: Migration, g: Gates)
    requires c.migration == Some(m) && ValidPlan(c)
    ensures ValidPlan(c.(migration := Some(WithGates(m, g))))
  {
  }

  // ... and no other configuration can be, whatever its gates say.
  lemma OnlyRequestedAndProvenCutoversAreReady(h: Hash, c: Config, m: Migration, g: Gates, t: Time)
    requires CutoverReady(h, c.(migration := Some(WithGates(m, g))), t)
    ensures TrafficRequired(m) && ReceiptsComplete(m)
  {
    var n := WithGates(m, g);
    ClosedForm(h, c.(migration := Some(n)), n, t);
  }
}
