/** How a frontier report's status follows from its gates, comparisons and authority receipts. */
module ReportStatus {
  import opened Counting
  import opened Options
  import opened StringOrder
  import opened Texts

  datatype GateId =
    | Preflight | Readiness | Quality | Safety | Robustness | Cost | Latency | Independence | Reproduction

  const GATE_ORDER: seq<GateId> :=
    [Preflight, Readiness, Quality, Safety, Robustness, Cost, Latency, Independence, Reproduction]

  function GateName(id: GateId): string {
    match id
    case Preflight => "preflight"
    case Readiness => "readiness"
    case Quality => "quality"
    case Safety => "safety"
    case Robustness => "robustness"
    case Cost => "cost"
    case Latency => "latency"
    case Independence => "independence"
    case Reproduction => "reproduction"
  }

  /** A failed gate of this kind leaves nothing to evaluate. */
  predicate Invalidating(id: GateId) {
    id.Preflight? || id.Readiness? || id.Independence? || id.Reproduction?
  }

  datatype Role =
    | PreflightRole | ReadinessRole | StatisticsRole | SafetyRole | RobustnessRole | EfficiencyRole
    | IndependenceRole | ReproductionRole

  function RoleOf(id: GateId): Role {
    match id
    case Preflight => PreflightRole
    case Readiness => ReadinessRole
    case Quality => StatisticsRole
    case Safety => SafetyRole
    case Robustness => RobustnessRole
    case Cost => EfficiencyRole
    case Latency => EfficiencyRole
    case Independence => IndependenceRole
    case Reproduction => ReproductionRole
  }

  datatype GateOutcome = Passed | Failed | GateNotEvaluable

  datatype ComparisonOutcome = Superior | NotSuperior | ComparisonNotEvaluable

  /** Evidence, its authority and the authority's receipt. */
  datatype Backing = Backing(evidence: Option<string>, authority: Option<string>, receipt: Option<string>)
  {
    predicate Full() {
      evidence.Some? && authority.Some? && receipt.Some?
    }

    predicate Absent() {
      evidence.None? && authority.None? && receipt.None?
    }
  }

  datatype Gate = Gate(id: GateId, outcome: GateOutcome, backing: Backing, failures: seq<string>)

  datatype Kind = Identity | NoOp | Expert | RandomSearch | PublicOptimizer

  datatype Comparison = Comparison(
    baselineId: string, kind: Kind, outcome: ComparisonOutcome, margin: real, lower: real, point: real, upper: real,
    backing: Backing, failures: seq<string>)

  /** `meta` stands for everything the report repeats in each attested context. */
  datatype ReportInput = ReportInput(
    meta: string, gates: seq<Gate>, requiredBaselines: seq<string>, comparisons: seq<Comparison>)

  // The input's own validity.

  /** Non-blank, in order and without repeats. */
  predicate FailureList(failures: seq<string>) {
    && (forall i :: 0 <= i < |failures| ==> !Blank(failures[i]))
    && (forall i, j :: 0 <= i < j < |failures| ==> KeyLeq(failures[i], failures[j]) && failures[i] != failures[j])
  }

  predicate GateValid(gate: Gate) {
    && (gate.outcome != GateNotEvaluable ==> gate.backing.Full())
    && (gate.backing.Full() || gate.backing.Absent())
    && FailureList(gate.failures) && (gate.failures == [] <==> gate.outcome == Passed)
  }

  predicate ComparisonValid(comparison: Comparison) {
    && 0.0 <= comparison.margin <= 1.0
    && -1.0 <= comparison.lower <= comparison.point <= comparison.upper <= 1.0
    && (comparison.outcome == Superior ==> comparison.lower > comparison.margin)
    && (comparison.outcome == NotSuperior ==> comparison.lower <= comparison.margin)
    && (comparison.outcome != ComparisonNotEvaluable ==> comparison.backing.Full())
    && (comparison.backing.Full() || comparison.backing.Absent())
    && FailureList(comparison.failures) && (comparison.failures == [] <==> comparison.outcome == Superior)
  }

  predicate InputValid(input: ReportInput) {
    && |input.gates| == |GATE_ORDER|
    && (forall i :: 0 <= i < |input.gates| ==> input.gates[i].id == GATE_ORDER[i] && GateValid(input.gates[i]))
    && input.comparisons != []
    && |input.requiredBaselines| == |input.comparisons|
    && (forall i :: 0 <= i < |input.comparisons| ==>
          && input.comparisons[i].baselineId == input.requiredBaselines[i]
          && ComparisonValid(input.comparisons[i])
          && (input.comparisons[i].kind == Identity <==> i == 0))
    && (forall kind: Kind :: Covers(input.comparisons, kind))
  }

  predicate Covers(comparisons: seq<Comparison>, kind: Kind) {
    exists i :: 0 <= i < |comparisons| && comparisons[i].kind == kind
  }

  // Authority receipts.

  datatype Context =
    | GateContext(meta: string, gateId: GateId, gateEvidence: string, gateOutcome: GateOutcome)
    | ComparisonContext(comparisonMeta: string, comparison: Comparison)

  type Verifier = (Context, string) -> Option<string>

  datatype Attestation = Attestation(context: Context, authority: string, receipt: string)

  function TextOf(text: Option<string>): string {
    if text.Some? then text.value else ""
  }

  function WithoutReceipt(comparison: Comparison): Comparison {
    comparison.(backing := comparison.backing.(receipt := None))
  }

  function GateAttestations(meta: string, gates: seq<Gate>): seq<Attestation> {
    if gates == [] then []
    else
      var before, gate := GateAttestations(meta, gates[..|gates| - 1]), gates[|gates| - 1];
      if gate.backing.evidence.None? then before
      else before + [Attestation(
        GateContext(meta, gate.id, gate.backing.evidence.value, gate.outcome),
        TextOf(gate.backing.authority), TextOf(gate.backing.receipt))]
  }

  function ComparisonAttestations(meta: string, comparisons: seq<Comparison>): seq<Attestation> {
    if comparisons == [] then []
    else
      var before := ComparisonAttestations(meta, comparisons[..|comparisons| - 1]);
      var comparison := comparisons[|comparisons| - 1];
      if comparison.backing.evidence.None? then before
      else before + [Attestation(
        ComparisonContext(meta, WithoutReceipt(comparison)),
        TextOf(comparison.backing.authority), TextOf(comparison.backing.receipt))]
  }

  predicate Verified(verifier: Verifier, attestation: Attestation) {
    verifier(attestation.context, attestation.authority) == Some(attestation.receipt)
  }

  function Receipts(verifier: Verifier, attestations: seq<Attestation>): seq<string> {
    if attestations == [] then []
    else
      var before, last := Receipts(verifier, attestations[..|attestations| - 1]), attestations[|attestations| - 1];
      if Verified(verifier, last) then before + [last.receipt] else before
  }

  /** Every attestation is confirmed by its own receipt, and no receipt is used twice. */
  ghost predicate Confirmed(verifier: Option<Verifier>, attestations: seq<Attestation>) {
    if verifier.None? then attestations == []
    else
      && (forall i :: 0 <= i < |attestations| ==> Verified(verifier.value, attestations[i]))
      && NoDuplicates(Receipts(verifier.value, attestations))
  }

  function AllAttestations(input: ReportInput): seq<Attestation> {
    GateAttestations(input.meta, input.gates) + ComparisonAttestations(input.meta, input.comparisons)
  }

  /** Who signs, and in which role. */
  type Signer = (string, Role)

  function GateSigners(gates: seq<Gate>): seq<Signer> {
    if gates == [] then []
    else
      var before, gate := GateSigners(gates[..|gates| - 1]), gates[|gates| - 1];
      if gate.backing.authority.None? then before else before + [(gate.backing.authority.value, RoleOf(gate.id))]
  }

  function ComparisonSigners(comparisons: seq<Comparison>): seq<Signer> {
    if comparisons == [] then []
    else
      var before, authority := ComparisonSigners(comparisons[..|comparisons| - 1]),
        comparisons[|comparisons| - 1].backing.authority;
      if authority.None? then before else before + [(authority.value, StatisticsRole)]
  }

  function Signers(input: ReportInput): seq<Signer> {
    GateSigners(input.gates) + ComparisonSigners(input.comparisons)
  }

  /** No authority signs in two roles. */
  ghost predicate RolesIndependent(signers: seq<Signer>) {
    forall i, j :: 0 <= i < |signers| && 0 <= j < |signers| && signers[i].0 == signers[j].0 ==>
      signers[i].1 == signers[j].1
  }

  ghost predicate AuthorityHolds(input: ReportInput, verifier: Option<Verifier>) {
    && Confirmed(verifier, AllAttestations(input))
    && RolesIndependent(Signers(input))
  }

  // The status.

  datatype Status = NotEvaluable | NotSuperiorStatus | VerifiedImprovement | TopTierScoped

  function Rank(status: Status): nat {
    match status
    case NotEvaluable => 0
    case NotSuperiorStatus => 1
    case VerifiedImprovement => 2
    case TopTierScoped => 3
  }

  ghost predicate Evaluable(input: ReportInput, authorityHolds: bool) {
    && authorityHolds
    && (forall i :: 0 <= i < |input.gates| ==>
          && input.gates[i].outcome != GateNotEvaluable
          && !(input.gates[i].outcome == Failed && Invalidating(input.gates[i].id)))
    && (forall i :: 0 <= i < |input.comparisons| ==> input.comparisons[i].outcome != ComparisonNotEvaluable)
  }

  ghost predicate BeatsOriginal(input: ReportInput) {
    input.comparisons != [] && input.comparisons[0].outcome == Superior
  }

  ghost predicate Flawless(input: ReportInput) {
    && (forall i :: 0 <= i < |input.gates| ==> input.gates[i].outcome != Failed)
    && (forall i :: 0 <= i < |input.comparisons| ==> input.comparisons[i].outcome == Superior)
  }

  ghost function StatusOf(input: ReportInput, authorityHolds: bool): Status {
    if !Evaluable(input, authorityHolds) then NotEvaluable
    else if !BeatsOriginal(input) then NotSuperiorStatus
    else if !Flawless(input) then VerifiedImprovement
    else TopTierScoped
  }

  /** The top status means: every gate passed, every comparison is superior, every receipt holds. */
  lemma TopMeansAll(input: ReportInput, authorityHolds: bool)
    requires input.comparisons != []
    ensures StatusOf(input, authorityHolds) == TopTierScoped <==>
      && authorityHolds
      && (forall i :: 0 <= i < |input.gates| ==> input.gates[i].outcome == Passed)
      && (forall i :: 0 <= i < |input.comparisons| ==> input.comparisons[i].outcome == Superior)
  {
    if StatusOf(input, authorityHolds) == TopTierScoped {
      assert Evaluable(input, authorityHolds) && Flawless(input);
    }
  }

  function GateRank(outcome: GateOutcome): nat {
    match outcome
    case GateNotEvaluable => 0
    case Failed => 1
    case Passed => 2
  }

  function ComparisonRank(outcome: ComparisonOutcome): nat {
    match outcome
    case ComparisonNotEvaluable => 0
    case NotSuperior => 1
    case Superior => 2
  }

  /** With the authority checks fixed, better outcomes never give a lower status. */
  lemma Monotone(worse: ReportInput, better: ReportInput, authorityHolds: bool)
    requires |worse.gates| == |better.gates| && |worse.comparisons| == |better.comparisons|
    requires forall i :: 0 <= i < |worse.gates| ==>
      && worse.gates[i].id == better.gates[i].id
      && GateRank(worse.gates[i].outcome) <= GateRank(better.gates[i].outcome)
    requires forall i :: 0 <= i < |worse.comparisons| ==>
      ComparisonRank(worse.comparisons[i].outcome) <= ComparisonRank(better.comparisons[i].outcome)
    ensures Rank(StatusOf(worse, authorityHolds)) <= Rank(StatusOf(better, authorityHolds))
  {
    if Evaluable(worse, authorityHolds) {
      assert Evaluable(better, authorityHolds);
      if BeatsOriginal(worse) {
        assert BeatsOriginal(better);
        if Flawless(worse) {
          assert Flawless(better);
        }
      }
    }
  }

  // The derivation, step by step.

  const VERIFIER_REQUIRED := "trusted frontier report authority verifier is required"
  const GATE_UNVERIFIED := "frontier gate authority verification failed"
  const GATE_RECEIPT_REUSED := "frontier gate authority receipts must be unique"
  const COMPARISON_UNVERIFIED := "frontier baseline comparison authority verification failed"
  const COMPARISON_RECEIPT_REUSED := "frontier baseline comparison receipts must be unique"
  const RECEIPT_REUSED := "frontier report authority receipts must be unique"
  const ROLES_DEPENDENT := "frontier report authority roles must be independent"
  const COMPARISON_NOT_EVALUABLE := "a required baseline comparison is not evaluable"
  const COMPARISON_NOT_SUPERIOR := "a required baseline comparison is not superior"

  function MessageSet(messages: seq<string>): set<string> {
    set message | message in messages
  }

  /** Sorted, without repeats. */
  function Sorted(messages: seq<string>): seq<string> {
    SortedKeys(MessageSet(messages))
  }

  lemma MessageSetAppend(messages: seq<string>, last: string)
    ensures MessageSet(messages + [last]) == MessageSet(messages) + {last}
  {
    assert (messages + [last])[|messages|] == last;
    forall message | message in messages ensures message in messages + [last] {
    }
  }

  lemma MessageSetConcat(a: seq<string>, b: seq<string>)
    ensures MessageSet(a + b) == MessageSet(a) + MessageSet(b)
  {
  }

  function GateMessage(gate: Gate): string {
    GateName(gate.id) + if gate.outcome == Failed then " gate failed" else " gate is not evaluable"
  }

  function GateMessages(gates: seq<Gate>): set<string> {
    set i | 0 <= i < |gates| && gates[i].outcome != Passed :: GateMessage(gates[i])
  }

  function ComparisonMessage(comparison: Comparison): string {
    if comparison.outcome == ComparisonNotEvaluable then COMPARISON_NOT_EVALUABLE else COMPARISON_NOT_SUPERIOR
  }

  function ComparisonMessages(comparisons: seq<Comparison>): set<string> {
    set i | 0 <= i < |comparisons| && comparisons[i].outcome != Superior :: ComparisonMessage(comparisons[i])
  }

  ghost function ReceiptMessages(
    verifier: Option<Verifier>, attestations: seq<Attestation>, unverified: string, reused: string): set<string>
  {
    if verifier.None? then (if attestations == [] then {} else {VERIFIER_REQUIRED})
    else
      (if exists i :: 0 <= i < |attestations| && !Verified(verifier.value, attestations[i]) then {unverified} else {})
      + (if NoDuplicates(Receipts(verifier.value, attestations)) then {} else {reused})
  }

  ghost function AuthorityMessages(input: ReportInput, verifier: Option<Verifier>): set<string> {
    var gates, comparisons := GateAttestations(input.meta, input.gates), ComparisonAttestations(input.meta, input.comparisons);
    ReceiptMessages(verifier, gates, GATE_UNVERIFIED, GATE_RECEIPT_REUSED)
    + ReceiptMessages(verifier, comparisons, COMPARISON_UNVERIFIED, COMPARISON_RECEIPT_REUSED)
    + (if RolesIndependent(Signers(input)) then {} else {ROLES_DEPENDENT})
    + (if verifier.Some? && !NoDuplicates(Receipts(verifier.value, gates) + Receipts(verifier.value, comparisons))
       then {RECEIPT_REUSED} else {})
  }

  /** The status and the reasons that a report must state. */
  ghost function Derived(input: ReportInput, verifier: Option<Verifier>): (Status, seq<string>) {
    var status := StatusOf(input, AuthorityHolds(input, verifier));
    (status,
     if status == TopTierScoped then []
     else SortedKeys(
       GateMessages(input.gates) + ComparisonMessages(input.comparisons) + AuthorityMessages(input, verifier)))
  }

  predicate Readable(messages: seq<string>) {
    forall i :: 0 <= i < |messages| ==> !Blank(messages[i])
  }

  lemma EndsVisible(text: string)
    requires text != "" && !IsSpace(text[|text| - 1])
    ensures !Blank(text)
  {
    assert text[|text| - 1] in text;
  }

  lemma MessagesReadable()
    ensures !Blank(VERIFIER_REQUIRED) && !Blank(GATE_UNVERIFIED) && !Blank(GATE_RECEIPT_REUSED)
    ensures !Blank(COMPARISON_UNVERIFIED) && !Blank(COMPARISON_RECEIPT_REUSED) && !Blank(RECEIPT_REUSED)
    ensures !Blank(ROLES_DEPENDENT) && !Blank(COMPARISON_NOT_EVALUABLE) && !Blank(COMPARISON_NOT_SUPERIOR)
  {
    hide Blank;
    EndsVisible(VERIFIER_REQUIRED);
    EndsVisible(GATE_UNVERIFIED);
    EndsVisible(GATE_RECEIPT_REUSED);
    EndsVisible(COMPARISON_UNVERIFIED);
    EndsVisible(COMPARISON_RECEIPT_REUSED);
    EndsVisible(RECEIPT_REUSED);
    EndsVisible(ROLES_DEPENDENT);
    EndsVisible(COMPARISON_NOT_EVALUABLE);
    EndsVisible(COMPARISON_NOT_SUPERIOR);
  }

  lemma GateMessageReadable(gate: Gate)
    ensures !Blank(GateMessage(gate))
  {
    assert GateName(gate.id) != "" && !IsSpace(GateName(gate.id)[0]);
    assert GateMessage(gate)[0] in GateMessage(gate);
  }

  method VerifyReceipts(
    attestations: seq<Attestation>, verifier: Option<Verifier>, unverified: string, reused: string)
    returns (failures: seq<string>, receipts: seq<string>)
    requires !Blank(unverified) && !Blank(reused)
    ensures failures == [] <==> Confirmed(verifier, attestations)
    ensures receipts == if verifier.None? then [] else Receipts(verifier.value, attestations)
    ensures Readable(failures) && MessageSet(failures) == ReceiptMessages(verifier, attestations, unverified, reused)
  {
    MessagesReadable();
    hide Blank;
    failures, receipts := [], [];
    if verifier.None? {
      if attestations != [] {
        failures := [VERIFIER_REQUIRED];
      }
      return;
    }
    hide MessageSet;
    var allVerified := true;
    NoMessages();
    for i := 0 to |attestations|
      invariant receipts == Receipts(verifier.value, attestations[..i])
      invariant allVerified <==> forall j :: 0 <= j < i ==> Verified(verifier.value, attestations[j])
      invariant failures == [] <==> allVerified
      invariant Readable(failures) && MessageSet(failures) == if allVerified then {} else {unverified}
    {
      assert attestations[..i + 1][..i] == attestations[..i];
      if Verified(verifier.value, attestations[i]) {
        receipts := receipts + [attestations[i].receipt];
      } else {
        MessageSetAppend(failures, unverified);
        failures := failures + [unverified];
        allVerified := false;
      }
    }
    assert attestations[..|attestations|] == attestations;
    SetSizeTellsDuplicates(receipts);
    if |receipts| != |set receipt | receipt in receipts| {
      MessageSetAppend(failures, reused);
      failures := failures + [reused];
    }
  }

  lemma NoMessages()
    ensures MessageSet([]) == {}
  {
  }

  function RolesOf(signers: seq<Signer>, authority: string): set<Role> {
    set signer | signer in signers && signer.0 == authority :: signer.1
  }

  /** The dictionary holds the roles of every authority seen so far. */
  ghost predicate Recorded(roles: map<string, set<Role>>, signers: seq<Signer>) {
    && (forall authority :: authority in roles ==> roles[authority] == RolesOf(signers, authority))
    && (forall authority :: authority !in roles ==> RolesOf(signers, authority) == {})
  }

  lemma RecordOne(roles: map<string, set<Role>>, signers: seq<Signer>, last: Signer)
    requires Recorded(roles, signers)
    ensures Recorded(
      roles[last.0 := (if last.0 in roles then roles[last.0] else {}) + {last.1}], signers + [last])
  {
    forall authority {
      RolesAppend(signers, last, authority);
    }
    hide RolesOf;
  }

  lemma RecordedTells(roles: map<string, set<Role>>, signers: seq<Signer>)
    requires Recorded(roles, signers)
    ensures RolesIndependent(signers) <==> !exists authority :: authority in roles && |roles[authority]| > 1
  {
    OneRoleEach(signers);
    hide RolesOf, RolesIndependent;
    if !exists authority :: authority in roles && |roles[authority]| > 1 {
      forall authority ensures |RolesOf(signers, authority)| <= 1 {
        assert authority in roles ==> |roles[authority]| <= 1;
      }
    }
  }

  method TopologyFailures(signers: seq<Signer>) returns (failures: seq<string>)
    ensures failures == if RolesIndependent(signers) then [] else [ROLES_DEPENDENT]
    ensures Readable(failures)
  {
    MessagesReadable();
    hide Blank, RolesIndependent, Recorded;
    var roles: map<string, set<Role>> := map[];
    NothingRecorded();
    for i := 0 to |signers|
      invariant Recorded(roles, signers[..i])
    {
      var (authority, role) := signers[i];
      assert signers[..i + 1] == signers[..i] + [signers[i]];
      RecordOne(roles, signers[..i], signers[i]);
      roles := roles[authority := (if authority in roles then roles[authority] else {}) + {role}];
    }
    assert signers[..|signers|] == signers;
    RecordedTells(roles, signers);
    failures := if exists authority :: authority in roles && |roles[authority]| > 1 then [ROLES_DEPENDENT] else [];
  }

  lemma NothingRecorded()
    ensures Recorded(map[], [])
  {
  }

  lemma RolesAppend(signers: seq<Signer>, last: Signer, authority: string)
    ensures RolesOf(signers + [last], authority)
      == RolesOf(signers, authority) + if authority == last.0 then {last.1} else {}
  {
    var longer := signers + [last];
    assert longer[|signers|] == last;
    forall signer | signer in signers ensures signer in longer {
    }
  }

  lemma OneRoleEach(signers: seq<Signer>)
    ensures RolesIndependent(signers) <==> forall authority :: |RolesOf(signers, authority)| <= 1
  {
    if RolesIndependent(signers) {
      forall authority ensures |RolesOf(signers, authority)| <= 1 {
        AtMostOneRole(signers, authority);
      }
    } else {
      var i, j :| 0 <= i < |signers| && 0 <= j < |signers| && signers[i].0 == signers[j].0 && signers[i].1 != signers[j].1;
      assert signers[i] in signers && signers[j] in signers;
      var roles := RolesOf(signers, signers[i].0);
      assert signers[j].1 in roles - {signers[i].1} && signers[i].1 in roles;
      assert |roles| == |roles - {signers[i].1}| + 1;
    }
  }

  lemma AtMostOneRole(signers: seq<Signer>, authority: string)
    requires RolesIndependent(signers)
    ensures |RolesOf(signers, authority)| <= 1
  {
    var roles := RolesOf(signers, authority);
    if roles != {} {
      var role :| role in roles;
      forall other | other in roles ensures other == role {
        var a :| a in signers && a.0 == authority && a.1 == other;
        var b :| b in signers && b.0 == authority && b.1 == role;
      }
      assert roles == {role};
    }
  }

  lemma GateMessagesAppend(gates: seq<Gate>, i: nat)
    requires i < |gates|
    ensures GateMessages(gates[..i + 1])
      == GateMessages(gates[..i]) + if gates[i].outcome == Passed then {} else {GateMessage(gates[i])}
  {
    var after, before := gates[..i + 1], gates[..i];
    assert after[i] == gates[i] && forall j :: 0 <= j < i ==> after[j] == before[j];
    hide GateMessage;
    forall message | message in GateMessages(before) ensures message in GateMessages(after) {
      var j :| 0 <= j < |before| && before[j].outcome != Passed && GateMessage(before[j]) == message;
      assert after[j].outcome != Passed && GateMessage(after[j]) == message;
    }
  }

  method GateFindings(gates: seq<Gate>) returns (failures: seq<string>, stopped: bool, failed: bool)
    ensures Readable(failures) && MessageSet(failures) == GateMessages(gates)
    ensures stopped <==> exists i :: 0 <= i < |gates| && GateStops(gates[i])
    ensures failed <==> exists i :: 0 <= i < |gates| && gates[i].outcome == Failed
    ensures failures == [] <==> forall i :: 0 <= i < |gates| ==> gates[i].outcome == Passed
  {
    failures, stopped, failed := [], false, false;
    hide Blank, GateMessages, MessageSet;
    NoGateMessages();
    for i := 0 to |gates|
      invariant Readable(failures) && MessageSet(failures) == GateMessages(gates[..i])
      invariant stopped <==> exists j :: 0 <= j < i && GateStops(gates[j])
      invariant failed <==> exists j :: 0 <= j < i && gates[j].outcome == Failed
      invariant failures == [] <==> forall j :: 0 <= j < i ==> gates[j].outcome == Passed
    {
      var gate := gates[i];
      GateMessagesAppend(gates, i);
      GateMessageReadable(gate);
      MessageSetAppend(failures, GateMessage(gate));
      if gate.outcome == Failed {
        failed := true;
        failures := failures + [GateName(gate.id) + " gate failed"];
        if Invalidating(gate.id) {
          stopped := true;
        }
      } else if gate.outcome == GateNotEvaluable {
        stopped := true;
        failures := failures + [GateName(gate.id) + " gate is not evaluable"];
      }
    }
    assert gates[..|gates|] == gates;
  }

  lemma NoGateMessages()
    ensures GateMessages([]) == {} && ComparisonMessages([]) == {} && MessageSet([]) == {}
  {
  }

  predicate GateStops(gate: Gate) {
    gate.outcome == GateNotEvaluable || (gate.outcome == Failed && Invalidating(gate.id))
  }

  lemma ComparisonMessagesAppend(comparisons: seq<Comparison>, i: nat)
    requires i < |comparisons|
    ensures ComparisonMessages(comparisons[..i + 1])
      == ComparisonMessages(comparisons[..i])
        + if comparisons[i].outcome == Superior then {} else {ComparisonMessage(comparisons[i])}
  {
    var after, before := comparisons[..i + 1], comparisons[..i];
    assert after[i] == comparisons[i] && forall j :: 0 <= j < i ==> after[j] == before[j];
    hide ComparisonMessage;
    forall message | message in ComparisonMessages(before) ensures message in ComparisonMessages(after) {
      var j :| 0 <= j < |before| && before[j].outcome != Superior && ComparisonMessage(before[j]) == message;
      assert after[j].outcome != Superior && ComparisonMessage(after[j]) == message;
    }
  }

  method ComparisonFindings(comparisons: seq<Comparison>)
    returns (failures: seq<string>, stopped: bool, original: bool, all: bool)
    ensures Readable(failures) && MessageSet(failures) == ComparisonMessages(comparisons)
    ensures stopped <==> exists i :: 0 <= i < |comparisons| && comparisons[i].outcome == ComparisonNotEvaluable
    ensures original <==> comparisons != [] && comparisons[0].outcome == Superior
    ensures all <==> forall i :: 0 <= i < |comparisons| ==> comparisons[i].outcome == Superior
    ensures failures == [] <==> all
  {
    MessagesReadable();
    NoGateMessages();
    hide Blank, MessageSet, ComparisonMessages;
    failures, stopped, original, all := [], false, false, true;
    for i := 0 to |comparisons|
      invariant Readable(failures) && MessageSet(failures) == ComparisonMessages(comparisons[..i])
      invariant stopped <==> exists j :: 0 <= j < i && comparisons[j].outcome == ComparisonNotEvaluable
      invariant original <==> i > 0 && comparisons[0].outcome == Superior
      invariant all <==> forall j :: 0 <= j < i ==> comparisons[j].outcome == Superior
      invariant failures == [] <==> all
    {
      ComparisonMessagesAppend(comparisons, i);
      MessageSetAppend(failures, ComparisonMessage(comparisons[i]));
      if comparisons[i].outcome == ComparisonNotEvaluable {
        stopped, all := true, false;
        failures := failures + [COMPARISON_NOT_EVALUABLE];
      } else if comparisons[i].outcome == NotSuperior {
        all := false;
        failures := failures + [COMPARISON_NOT_SUPERIOR];
      } else if i == 0 {
        original := true;
      }
    }
    assert comparisons[..|comparisons|] == comparisons;
  }

  /** The messages of both lists and of the topology, and the check across both lists. */
  lemma AuthorityMessagesAdd(
    input: ReportInput, verifier: Option<Verifier>, gateFailures: seq<string>, comparisonFailures: seq<string>,
    topology: seq<string>, reused: seq<string>)
    requires var gates, comparisons :=
        GateAttestations(input.meta, input.gates), ComparisonAttestations(input.meta, input.comparisons);
      && MessageSet(gateFailures) == ReceiptMessages(verifier, gates, GATE_UNVERIFIED, GATE_RECEIPT_REUSED)
      && MessageSet(comparisonFailures)
         == ReceiptMessages(verifier, comparisons, COMPARISON_UNVERIFIED, COMPARISON_RECEIPT_REUSED)
      && topology == (if RolesIndependent(Signers(input)) then [] else [ROLES_DEPENDENT])
      && reused
         == (if verifier.Some? && !NoDuplicates(Receipts(verifier.value, gates) + Receipts(verifier.value, comparisons))
             then [RECEIPT_REUSED] else [])
    ensures MessageSet(gateFailures + comparisonFailures + topology + reused) == AuthorityMessages(input, verifier)
  {
    hide RolesIndependent, Signers, GateAttestations, ComparisonAttestations, Receipts, ReceiptMessages, NoDuplicates;
    MessageSetConcat(gateFailures, comparisonFailures);
    MessageSetConcat(gateFailures + comparisonFailures, topology);
    MessageSetConcat(gateFailures + comparisonFailures + topology, reused);
  }

  method AuthorityFindings(input: ReportInput, verifier: Option<Verifier>) returns (failures: seq<string>)
    ensures Readable(failures) && MessageSet(failures) == AuthorityMessages(input, verifier)
    ensures failures == [] <==> AuthorityHolds(input, verifier)
  {
    MessagesReadable();
    hide Blank, Confirmed, RolesIndependent, Signers, GateAttestations, ComparisonAttestations, Receipts;
    hide MessageSet, ReceiptMessages, NoDuplicates, AuthorityMessages;
    var gates, comparisons := GateAttestations(input.meta, input.gates), ComparisonAttestations(input.meta, input.comparisons);
    var gateFailures, gateReceipts := VerifyReceipts(gates, verifier, GATE_UNVERIFIED, GATE_RECEIPT_REUSED);
    var comparisonFailures, comparisonReceipts :=
      VerifyReceipts(comparisons, verifier, COMPARISON_UNVERIFIED, COMPARISON_RECEIPT_REUSED);
    var topology := TopologyFailures(Signers(input));
    var receipts, reused := gateReceipts + comparisonReceipts, [];
    SetSizeTellsDuplicates(receipts);
    EmptyDistinct();
    if |receipts| != |set receipt | receipt in receipts| {
      reused := [RECEIPT_REUSED];
    }
    AuthorityMessagesAdd(input, verifier, gateFailures, comparisonFailures, topology, reused);
    ConfirmedTogether(verifier, gates, comparisons);
    failures := gateFailures + comparisonFailures + topology + reused;
  }

  lemma EmptyDistinct()
    ensures NoDuplicates<string>([] + [])
  {
  }

  lemma {:induction false} ReceiptsConcat(verifier: Verifier, a: seq<Attestation>, b: seq<Attestation>)
    ensures Receipts(verifier, a + b) == Receipts(verifier, a) + Receipts(verifier, b)
    decreases |b|
  {
    if b == [] {
      assert a + b == a;
    } else {
      ReceiptsConcat(verifier, a, b[..|b| - 1]);
      assert (a + b)[..|a + b| - 1] == a + b[..|b| - 1];
    }
  }

  lemma ConfirmedTogether(verifier: Option<Verifier>, a: seq<Attestation>, b: seq<Attestation>)
    ensures Confirmed(verifier, a + b) <==>
      && Confirmed(verifier, a) && Confirmed(verifier, b)
      && (verifier.Some? ==> NoDuplicates(Receipts(verifier.value, a) + Receipts(verifier.value, b)))
  {
    if verifier.Some? {
      ReceiptsConcat(verifier.value, a, b);
      ConcatDistinct(Receipts(verifier.value, a), Receipts(verifier.value, b));
      hide Receipts, NoDuplicates, Verified;
      if forall i :: 0 <= i < |a + b| ==> Verified(verifier.value, (a + b)[i]) {
        forall i | 0 <= i < |a| ensures Verified(verifier.value, a[i]) {
          assert (a + b)[i] == a[i];
        }
        forall i | 0 <= i < |b| ensures Verified(verifier.value, b[i]) {
          assert (a + b)[|a| + i] == b[i];
        }
      }
    }
  }

  lemma ConcatDistinct(a: seq<string>, b: seq<string>)
    ensures NoDuplicates(a + b) ==> NoDuplicates(a) && NoDuplicates(b)
  {
    if NoDuplicates(a + b) {
      forall i, j | 0 <= i < j < |a| ensures a[i] != a[j] {
        assert (a + b)[i] != (a + b)[j];
      }
      forall i, j | 0 <= i < j < |b| ensures b[i] != b[j] {
        assert (a + b)[|a| + i] != (a + b)[|a| + j];
      }
    }
  }

  /** The status and, below the top, the sorted reasons. */
  method DeriveReportOutcome(input: ReportInput, verifier: Option<Verifier>)
    returns (status: Status, failures: seq<string>)
    ensures (status, failures) == Derived(input, verifier)
    ensures FailureList(failures)
    ensures input.comparisons != [] ==> (failures == [] <==> status == TopTierScoped)
  {
    hide AuthorityHolds, AuthorityMessages, GateMessages, ComparisonMessages, Blank, KeyLeq, SortedKeys, MessageSet;
    var inGates, stopped, failed := GateFindings(input.gates);
    var inComparisons, notEvaluable, original, all := ComparisonFindings(input.comparisons);
    var inAuthority := AuthorityFindings(input, verifier);
    var messages := inGates + inComparisons + inAuthority;
    MessageSetConcat(inGates, inComparisons);
    MessageSetConcat(inGates + inComparisons, inAuthority);
    failures := Sorted(messages);
    SortedList(messages);
    if stopped || notEvaluable || inAuthority != [] {
      return NotEvaluable, failures;
    }
    if !original {
      return NotSuperiorStatus, failures;
    }
    if failed || !all {
      return VerifiedImprovement, failures;
    }
    return TopTierScoped, [];
  }

  lemma SortedList(messages: seq<string>)
    requires Readable(messages)
    ensures FailureList(Sorted(messages))
    ensures Sorted(messages) == [] <==> messages == []
  {
    SortedKeysSorted(MessageSet(messages));
    assert SortedKeys({}) == [];
    hide KeyLeq, SortedKeys, Blank;
    var sorted := Sorted(messages);
    forall i | 0 <= i < |sorted| ensures !Blank(sorted[i]) {
      assert sorted[i] in sorted && sorted[i] in MessageSet(messages);
      var j :| 0 <= j < |messages| && messages[j] == sorted[i];
    }
    if messages == [] {
      assert MessageSet(messages) == {};
    } else {
      assert messages[0] in MessageSet(messages) && messages[0] in sorted;
    }
  }

  // The report and its validator.

  datatype ReportBody = ReportBody(input: ReportInput, status: Status, failures: seq<string>)

  datatype ReportHash = ReportHashOf(content: ReportBody)

  datatype FrontierReport = FrontierReport(body: ReportBody, hash: ReportHash)

  /** A policy fixes the baselines that must be beaten. */
  datatype Policy = Policy(requiredBaselines: seq<string>, kinds: seq<Kind>, margin: real)

  predicate PolicyBinds(policy: Policy, input: ReportInput) {
    && input.requiredBaselines == policy.requiredBaselines
    && |policy.kinds| == |input.comparisons|
    && forall i :: 0 <= i < |input.comparisons| ==>
         input.comparisons[i].kind == policy.kinds[i] && input.comparisons[i].margin == policy.margin
  }

  ghost function ReportFor(input: ReportInput, verifier: Option<Verifier>): FrontierReport {
    var (status, failures) := Derived(input, verifier);
    var body := ReportBody(input, status, failures);
    FrontierReport(body, ReportHashOf(body))
  }

  method BuildFrontierReport(input: ReportInput, policy: Policy, verifier: Option<Verifier>)
    returns (report: Option<FrontierReport>)
    ensures report.Some? <==> InputValid(input) && PolicyBinds(policy, input)
    ensures report.Some? ==> report.value == ReportFor(input, verifier)
  {
    if !InputValid(input) || !PolicyBinds(policy, input) {
      return None;
    }
    var status, failures := DeriveReportOutcome(input, verifier);
    var body := ReportBody(input, status, failures);
    return Some(FrontierReport(body, ReportHashOf(body)));
  }

  /** The report is the one its own input leads to under this policy and verifier. */
  ghost predicate ReportAccepted(report: FrontierReport, policy: Policy, verifier: Option<Verifier>) {
    && InputValid(report.body.input) && PolicyBinds(policy, report.body.input)
    && report == ReportFor(report.body.input, verifier)
  }

  /** The validator derives the outcome again; its own checks on the list of reasons add nothing. */
  method ValidateFrontierReport(report: FrontierReport, policy: Policy, verifier: Option<Verifier>) returns (ok: bool)
    ensures ok <==> ReportAccepted(report, policy, verifier)
  {
    hide Derived, FailureList, InputValid, PolicyBinds;
    var input := report.body.input;
    var inputOk := InputValid(input) && PolicyBinds(policy, input);
    ok := inputOk && FailureList(report.body.failures)
      && (report.body.failures == [] <==> report.body.status == TopTierScoped);
    if inputOk {
      ComparisonsGiven(input);
      var status, failures := DeriveReportOutcome(input, verifier);
      ok := ok && report.body.status == status && report.body.failures == failures;
    }
    ok := ok && report.hash == ReportHashOf(report.body);
  }

  /** Every report that is built is accepted with the same policy and verifier, and its status, its
      list of reasons and its hash are the only ones that are. */
  lemma BuiltReportsAccepted(
    input: ReportInput, policy: Policy, verifier: Option<Verifier>, report: FrontierReport)
    requires InputValid(input) && PolicyBinds(policy, input) && report.body.input == input
    ensures ReportAccepted(report, policy, verifier) <==> report == ReportFor(input, verifier)
    ensures ReportAccepted(ReportFor(input, verifier), policy, verifier)
  {
    hide Derived, InputValid, PolicyBinds;
  }

  lemma ComparisonsGiven(input: ReportInput)
    requires InputValid(input)
    ensures input.comparisons != []
  {
  }
}
