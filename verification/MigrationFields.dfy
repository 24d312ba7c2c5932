// Readiness read off the fields of the file: every test a stage makes, spelled
// out on the configuration itself.

module MigrationFields {
  import opened Text
  import opened MigrationModel
  import opened MigrationPlan
  import opened MigrationReadiness

  // Something other than whitespace.
  ghost predicate Written(s: string) { exists i :: 0 <= i < |s| && !IsSpace(s[i]) }

  lemma StripIsWritten(s: string)
    ensures Strip(s) != "" <==> Written(s)
  {
    LStripShape(s);
    var l := LStrip(s);
    RStripShape(l);
    var r := RStrip(l);
    if r != "" {
      assert s[|s| - |l|] == l[0] == r[0];
    } else {
      assert l[0..] == l;
      assert s[..|s|] == s;
    }
  }

  // An approval that stands at time t and names this plan.
  ghost predicate Stands(g: Gate, digest: string, t: Time) {
    && Written(g.owner) && Written(g.approver) && Written(g.rollback)
    && (forall i :: 0 <= i < |g.evidence| ==> Written(g.evidence[i]))
    && (exists i :: 0 <= i < |g.evidence| && g.evidence[i] == digest)
    && g.approvedAt != None && g.expiresAt != None && t < g.expiresAt.value
  }

  predicate Holds(g: Gate, digest: string, t: Time) { Filled(g) && t < ExpiryOf(g) && Lists(g, digest) }

  lemma StandsMeans(g: Gate, digest: string, t: Time)
    ensures Stands(g, digest, t) <==> Holds(g, digest, t)
  {
    StripIsWritten(g.owner);
    StripIsWritten(g.approver);
    StripIsWritten(g.rollback);
    forall item
      ensures Strip(item) != "" <==> Written(item)
    {
      StripIsWritten(item);
    }
  }

  // This approval came no later than that one.
  predicate NoLater(g: Gate, last: Gate) {
    g.approvedAt != None && last.approvedAt != None && g.approvedAt.value <= last.approvedAt.value
  }

  predicate Unless(g: Gate, last: Gate) { g.approvedAt == None || NoLater(g, last) }

  // One required stage, approved for its plan and before traffic was.
  ghost predicate StageStands(g: Gate, digest: string, last: Gate, t: Time) {
    Stands(g, digest, t) && NoLater(g, last)
  }

  lemma ReceiptFields(m: Migration)
    ensures ReceiptsComplete(m) <==>
              var r, n := m.stages.runtime.receipt, m.network.receipt;
              && r.accountId != "" && r.runtimeArn != "" && r.sourceHash != ""
              && r.imageDigest != "" && r.verificationReference != ""
              && (m.network.privateDependencies != [] ==>
                    && n.vpcId != "" && n.privateSubnetIds != [] && n.securityGroupIds != []
                    && n.probeVerificationReference != ""
                    && (m.network.caBundleSecretName != "" ==> n.caBundleVersionId != ""))
  {
  }

  // Filled in, and not expired.
  predicate Current(g: Gate, t: Time) { Filled(g) && t < ExpiryOf(g) }

  // What holds of every gate that is asked for holds of each of the five that is.
  lemma EveryGate(m: Migration, holds: Gate -> bool)
    ensures (forall g :: g in RequiredGates(m) ==> holds(g))
            <==> && holds(m.stages.runtime.gate) && holds(m.stages.traffic.gate)
                 && (NetworkRequired(m) ==> holds(m.network.gate))
                 && (DataRequired(m) ==> holds(m.stages.data.gate))
                 && (TriggersRequired(m) ==> holds(m.stages.triggers.gate))
  {
    var gates := RequiredGates(m);
    assert m.stages.runtime.gate in gates && m.stages.traffic.gate in gates;
    assert NetworkRequired(m) ==> m.network.gate in gates;
    assert DataRequired(m) ==> m.stages.data.gate in gates;
    assert TriggersRequired(m) ==> m.stages.triggers.gate in gates;
    forall g
      ensures g in gates <==>
                || g == m.stages.runtime.gate || (NetworkRequired(m) && g == m.network.gate)
                || (DataRequired(m) && g == m.stages.data.gate)
                || (TriggersRequired(m) && g == m.stages.triggers.gate) || g == m.stages.traffic.gate
    {
      RequiredGatesAre(m, g);
    }
  }

  lemma AllCurrent(m: Migration, t: Time)
    ensures Complete(RequiredGates(m)) && t < Deadline(RequiredGates(m))
            <==> && Current(m.stages.runtime.gate, t) && Current(m.stages.traffic.gate, t)
                 && (NetworkRequired(m) ==> Current(m.network.gate, t))
                 && (DataRequired(m) ==> Current(m.stages.data.gate, t))
                 && (TriggersRequired(m) ==> Current(m.stages.triggers.gate, t))
  {
    DeadlineIsLeast(RequiredGates(m), t);
    EveryGate(m, g => Current(g, t));
    assert (forall g :: g in RequiredGates(m) ==> Current(g, t))
           <==> Complete(RequiredGates(m)) && t < Deadline(RequiredGates(m));
  }

  lemma TrafficLast(m: Migration)
    requires m.stages.traffic.gate.approvedAt.Some?
    ensures TrafficApprovedLast(m)
            <==> var last := m.stages.traffic.gate;
                 && Unless(m.stages.runtime.gate, last)
                 && (NetworkRequired(m) ==> Unless(m.network.gate, last))
                 && (DataRequired(m) ==> Unless(m.stages.data.gate, last))
                 && (TriggersRequired(m) ==> Unless(m.stages.triggers.gate, last))
  {
    var last := m.stages.traffic.gate;
    EveryGate(m, g => Unless(g, last));
    assert (forall g :: g in RequiredGates(m) ==> Unless(g, last)) <==> TrafficApprovedLast(m);
  }

  // The gates of a requested cutover, with their digests as given.
  lemma GatesHold(m: Migration, d: Digests, t: Time)
    ensures && Complete(RequiredGates(m)) && t < Deadline(RequiredGates(m)) && AllListed(m, d) && TrafficApprovedLast(m)
            <==>
            var last := m.stages.traffic.gate;
            && Holds(last, d.traffic, t)
            && Holds(m.stages.runtime.gate, d.runtime, t) && NoLater(m.stages.runtime.gate, last)
            && (NetworkRequired(m) ==> Holds(m.network.gate, d.network, t) && NoLater(m.network.gate, last))
            && (DataRequired(m) ==> Holds(m.stages.data.gate, d.data, t) && NoLater(m.stages.data.gate, last))
            && (TriggersRequired(m) ==>
                  Holds(m.stages.triggers.gate, d.triggers, t) && NoLater(m.stages.triggers.gate, last))
  {
    AllCurrent(m, t);
    if m.stages.traffic.gate.approvedAt.Some? {
      TrafficLast(m);
    }
  }

  lemma GateFields(m: Migration, d: Digests, t: Time)
    ensures && Complete(RequiredGates(m)) && t < Deadline(RequiredGates(m)) && AllListed(m, d) && TrafficApprovedLast(m)
            <==>
            var last := m.stages.traffic.gate;
            && Stands(last, d.traffic, t) && StageStands(m.stages.runtime.gate, d.runtime, last, t)
            && (m.network.privateDependencies != [] ==> StageStands(m.network.gate, d.network, last, t))
            && (m.stages.data.strategy != NoData ==> StageStands(m.stages.data.gate, d.data, last, t))
            && (m.stages.triggers.plan.strategy != NoShadow ==>
                  StageStands(m.stages.triggers.gate, d.triggers, last, t))
  {
    GatesHold(m, d, t);
    StandsMeans(m.stages.runtime.gate, d.runtime, t);
    StandsMeans(m.network.gate, d.network, t);
    StandsMeans(m.stages.data.gate, d.data, t);
    StandsMeans(m.stages.triggers.gate, d.triggers, t);
    StandsMeans(m.stages.traffic.gate, d.traffic, t);
  }

  predicate AllListed(m: Migration, d: Digests) {
    && Lists(m.stages.runtime.gate, d.runtime) && Lists(m.stages.traffic.gate, d.traffic)
    && (NetworkRequired(m) ==> Lists(m.network.gate, d.network))
    && (DataRequired(m) ==> Lists(m.stages.data.gate, d.data))
    && (TriggersRequired(m) ==> Lists(m.stages.triggers.gate, d.triggers))
  }

  lemma AllListedMeans(h: Hash, c: Config, m: Migration)
    ensures AllListed(m, DigestsOf(h, c, m)) == DigestsListed(h, c, m)
  {
  }

  // ---- Each stage's status ------------------------------------------------------------------

  predicate RuntimeFilled(r: RuntimeReceipt) {
    && r.accountId != "" && r.runtimeArn != "" && r.sourceHash != ""
    && r.imageDigest != "" && r.verificationReference != ""
  }

  predicate NetworkFilled(n: Network) {
    && n.receipt.vpcId != "" && n.receipt.privateSubnetIds != [] && n.receipt.securityGroupIds != []
    && n.receipt.probeVerificationReference != ""
    && (n.caBundleSecretName == "" || n.receipt.caBundleVersionId != "")
  }

  ghost function Verdict(required: bool, met: bool): Status {
    if !required then NotRequired else if met then IsReady else Blocked
  }

  lemma StageStatus(required: bool, g: Gate, digest: string, t: Time)
    ensures ApprovedPlan(GatedStage(required, g, t), digest, g) == Verdict(required, Stands(g, digest, t))
  {
    ReadyMeaning(g, t);
    StandsMeans(g, digest, t);
  }

  lemma RuntimeStatus(h: Hash, c: Config, m: Migration, t: Time)
    ensures RuntimeCheck(h, c, m, t)
            == Verdict(true, RuntimeFilled(m.stages.runtime.receipt)
                             && Stands(m.stages.runtime.gate, RuntimeDigest(h, c, m), t))
  {
    StageStatus(true, m.stages.runtime.gate, RuntimeDigest(h, c, m), t);
  }

  lemma NetworkStatus(h: Hash, c: Config, m: Migration, t: Time)
    ensures NetworkCheck(h, c, m, t)
            == Verdict(m.network.privateDependencies != [],
                       m.stages.runtime.receipt.accountId != "" && NetworkFilled(m.network)
                       && Stands(m.network.gate, NetworkDigest(h, c, m), t))
  {
    StageStatus(true, m.network.gate, NetworkDigest(h, c, m), t);
  }

  lemma TrafficStatus(h: Hash, c: Config, m: Migration, t: Time)
    ensures TrafficCheck(h, c, m, t)
            == Verdict(m.stages.traffic.plan.strategy != NoCutover,
                       Stands(m.stages.traffic.gate, TrafficDigest(h, c, m), t) && NoneAfter(m))
  {
    StageStatus(TrafficRequired(m), m.stages.traffic.gate, TrafficDigest(h, c, m), t);
    if m.stages.traffic.gate.approvedAt.Some? {
      NothingPredates(m);
    }
  }

  // No approval of a stage the file asks for came after the traffic approval.
  ghost predicate NoneAfter(m: Migration) {
    var last := m.stages.traffic.gate;
    && Unless(m.stages.runtime.gate, last)
    && (m.network.privateDependencies != [] ==> Unless(m.network.gate, last))
    && (m.stages.data.strategy != NoData ==> Unless(m.stages.data.gate, last))
    && (m.stages.triggers.plan.strategy != NoShadow ==> Unless(m.stages.triggers.gate, last))
  }

  lemma NothingPredates(m: Migration)
    requires m.stages.traffic.gate.approvedAt.Some?
    ensures Predates(m.stages.traffic.gate.approvedAt.value, PrerequisiteApprovals(m)) <==> !NoneAfter(m)
  {
    var o := PrerequisiteApprovals(m);
    assert o[0] in o && o[1] in o && o[2] in o && o[3] in o;
  }

  // What readiness reports of each stage.
  lemma StatusInFields(h: Hash, c: Config, m: Migration, t: Time)
    requires c.migration == Some(m)
    ensures var d, s := DigestsOf(h, c, m), m.stages;
            Readiness(h, c, t)
            == [Verdict(true, RuntimeFilled(s.runtime.receipt) && Stands(s.runtime.gate, d.runtime, t)),
                Verdict(m.network.privateDependencies != [],
                        s.runtime.receipt.accountId != "" && NetworkFilled(m.network)
                        && Stands(m.network.gate, d.network, t)),
                Verdict(s.data.strategy != NoData, Stands(s.data.gate, d.data, t)),
                Verdict(s.triggers.plan.strategy != NoShadow, Stands(s.triggers.gate, d.triggers, t)),
                Verdict(s.traffic.plan.strategy != NoCutover,
                        Stands(s.traffic.gate, d.traffic, t) && NoneAfter(m))]
  {
    RuntimeStatus(h, c, m, t);
    NetworkStatus(h, c, m, t);
    StageStatus(DataRequired(m), m.stages.data.gate, DataDigest(h, c, m), t);
    StageStatus(TriggersRequired(m), m.stages.triggers.gate, TriggerDigest(h, c, m), t);
    TrafficStatus(h, c, m, t);
  }

  // ---- Cutover --------------------------------------------------------------------------------

  // Cutover is ready at t exactly when it is requested, both receipts are filled
  // in, and every stage the file asks for has an approval that stands at t, names
  // the stage's plan and came no later than the traffic approval.
  lemma ReadyInFields(h: Hash, c: Config, m: Migration, t: Time)
    requires c.migration == Some(m)
    ensures CutoverReady(h, c, t) <==>
              var r, n, last := m.stages.runtime.receipt, m.network.receipt, m.stages.traffic.gate;
              var d := DigestsOf(h, c, m);
              && m.stages.traffic.plan.strategy != NoCutover
              && r.accountId != "" && r.runtimeArn != "" && r.sourceHash != ""
              && r.imageDigest != "" && r.verificationReference != ""
              && (m.network.privateDependencies != [] ==>
                    && n.vpcId != "" && n.privateSubnetIds != [] && n.securityGroupIds != []
                    && n.probeVerificationReference != ""
                    && (m.network.caBundleSecretName != "" ==> n.caBundleVersionId != ""))
              && Stands(last, d.traffic, t) && StageStands(m.stages.runtime.gate, d.runtime, last, t)
              && (m.network.privateDependencies != [] ==> StageStands(m.network.gate, d.network, last, t))
              && (m.stages.data.strategy != NoData ==> StageStands(m.stages.data.gate, d.data, last, t))
              && (m.stages.triggers.plan.strategy != NoShadow ==>
                    StageStands(m.stages.triggers.gate, d.triggers, last, t))
  {
    ClosedForm(h, c, m, t);
    ReceiptFields(m);
    AllListedMeans(h, c, m);
    GateFields(m, DigestsOf(h, c, m), t);
  }

  // These fields are all that an approval asks of the file: with them filled in,
  // approving each stage makes a valid file that is ready for exactly seven days.
  lemma ApprovableInFields(h: Hash, c: Config, m: Migration, s: Signatures, now: Time, t: Time)
    requires HexHash(h) && ValidPlan(c) && c.migration == Some(m) && ProperSignatures(s)
    requires m.stages.traffic.plan.strategy != NoCutover
    requires var r := m.stages.runtime.receipt;
             && r.accountId != "" && r.runtimeArn != "" && r.sourceHash != ""
             && r.imageDigest != "" && r.verificationReference != ""
    requires var n := m.network.receipt;
             m.network.privateDependencies != [] ==>
               && n.vpcId != "" && n.privateSubnetIds != [] && n.securityGroupIds != []
               && n.probeVerificationReference != ""
               && (m.network.caBundleSecretName != "" ==> n.caBundleVersionId != "")
    ensures Valid(Approved(h, c, m, s, now), now)
    ensures CutoverReady(h, Approved(h, c, m, s, now), t) <==> t < now + WEEK
  {
    ReceiptFields(m);
    ApprovalFixpoint(h, c, m, s, now, t);
  }

  // ... and no gates make up for a field that is missing.
  lemma UnapprovableInFields(h: Hash, c: Config, m: Migration, g: Gates, t: Time)
    requires CutoverReady(h, c.(migration := Some(WithGates(m, g))), t)
    ensures m.stages.traffic.plan.strategy != NoCutover
    ensures var r := m.stages.runtime.receipt;
            && r.accountId != "" && r.runtimeArn != "" && r.sourceHash != ""
            && r.imageDigest != "" && r.verificationReference != ""
    ensures var n := m.network.receipt;
            m.network.privateDependencies != [] ==>
              && n.vpcId != "" && n.privateSubnetIds != [] && n.securityGroupIds != []
              && n.probeVerificationReference != ""
              && (m.network.caBundleSecretName != "" ==> n.caBundleVersionId != "")
  {
    OnlyRequestedAndProvenCutoversAreReady(h, c, m, g, t);
    ReceiptFields(m);
  }
}
