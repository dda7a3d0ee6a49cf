/** What each status of a report says, in terms of its gates, its comparisons and what the verifier confirms. */
module ReportLaws {
  import opened Counting
  import opened Options
  import opened ReportStatus
  import opened StringOrder

  // The four statuses.

  predicate GateFailed(gates: seq<Gate>, id: GateId) {
    exists i :: 0 <= i < |gates| && gates[i].id == id && gates[i].outcome == Failed
  }

  /** Nothing can be concluded: an authority check fails, an outcome is missing, or a gate that the evidence
      stands on has failed. */
  ghost predicate Inconclusive(input: ReportInput, authority: bool) {
    || !authority
    || (exists i :: 0 <= i < |input.gates| && input.gates[i].outcome == GateNotEvaluable)
    || (exists i :: 0 <= i < |input.comparisons| && input.comparisons[i].outcome == ComparisonNotEvaluable)
    || GateFailed(input.gates, Preflight) || GateFailed(input.gates, Readiness)
    || GateFailed(input.gates, Independence) || GateFailed(input.gates, Reproduction)
  }

  predicate Flawed(input: ReportInput) {
    || GateFailed(input.gates, Quality) || GateFailed(input.gates, Safety) || GateFailed(input.gates, Robustness)
    || GateFailed(input.gates, Cost) || GateFailed(input.gates, Latency)
    || exists i :: 1 <= i < |input.comparisons| && input.comparisons[i].outcome != Superior
  }

  /** Each status exactly. The first comparison is the one with the original prompt. */
  lemma StatusExactly(input: ReportInput, authority: bool)
    requires input.comparisons != []
    ensures var status, beaten := StatusOf(input, authority), input.comparisons[0].outcome == Superior;
      && (status == NotEvaluable <==> Inconclusive(input, authority))
      && (status == NotSuperiorStatus <==> !Inconclusive(input, authority) && !beaten)
      && (status == VerifiedImprovement <==> !Inconclusive(input, authority) && beaten && Flawed(input))
      && (status == TopTierScoped <==> !Inconclusive(input, authority) && beaten && !Flawed(input))
  {
    ConclusiveIsEvaluable(input, authority);
    if BeatsOriginal(input) && !Inconclusive(input, authority) {
      SoundIsFlawless(input);
    }
    hide Inconclusive, Evaluable, Flawed, Flawless;
  }

  lemma ConclusiveIsEvaluable(input: ReportInput, authority: bool)
    ensures Evaluable(input, authority) <==> !Inconclusive(input, authority)
  {
    if !Inconclusive(input, authority) {
      forall i | 0 <= i < |input.gates| && Invalidating(input.gates[i].id) ensures input.gates[i].outcome != Failed {
        assert !GateFailed(input.gates, input.gates[i].id);
      }
    }
  }

  lemma SoundIsFlawless(input: ReportInput)
    requires BeatsOriginal(input) && !Inconclusive(input, true)
    ensures Flawless(input) <==> !Flawed(input)
  {
    if !Flawed(input) {
      forall i | 0 <= i < |input.gates| ensures input.gates[i].outcome != Failed {
        assert !GateFailed(input.gates, input.gates[i].id);
      }
    }
  }

  // The authority checks.

  /** Evidence is confirmed when the verifier answers with the very receipt that it carries. */
  predicate GateConfirmed(meta: string, gate: Gate, verifier: Option<Verifier>) {
    var backing := gate.backing;
    backing.Full() ==>
      && verifier.Some?
      && verifier.value(GateContext(meta, gate.id, backing.evidence.value, gate.outcome), backing.authority.value)
         == backing.receipt
  }

  predicate ComparisonConfirmed(meta: string, comparison: Comparison, verifier: Option<Verifier>) {
    var backing := comparison.backing;
    backing.Full() ==>
      && verifier.Some?
      && verifier.value(
           ComparisonContext(meta, comparison.(backing := backing.(receipt := None))), backing.authority.value)
         == backing.receipt
  }

  predicate Apart(a: Option<string>, b: Option<string>) {
    a.Some? && b.Some? ==> a.value != b.value
  }

  ghost predicate ReceiptsApart(gates: seq<Gate>, comparisons: seq<Comparison>) {
    && (forall i, j :: 0 <= i < j < |gates| ==> Apart(gates[i].backing.receipt, gates[j].backing.receipt))
    && (forall i, j :: 0 <= i < j < |comparisons| ==>
          Apart(comparisons[i].backing.receipt, comparisons[j].backing.receipt))
    && (forall i, j :: 0 <= i < |gates| && 0 <= j < |comparisons| ==>
          Apart(gates[i].backing.receipt, comparisons[j].backing.receipt))
  }

  /** Only cost and latency may share an authority, and only the one for quality may also sign comparisons. */
  ghost predicate AuthoritiesApart(gates: seq<Gate>, comparisons: seq<Comparison>) {
    && (forall i, j :: 0 <= i < j < |gates| && !(gates[i].id == Cost && gates[j].id == Latency) ==>
          Apart(gates[i].backing.authority, gates[j].backing.authority))
    && (forall i, j :: 0 <= i < |gates| && 0 <= j < |comparisons| && gates[i].id != Quality ==>
          Apart(gates[i].backing.authority, comparisons[j].backing.authority))
  }

  ghost predicate AuthoritySound(input: ReportInput, verifier: Option<Verifier>) {
    && (forall i :: 0 <= i < |input.gates| ==> GateConfirmed(input.meta, input.gates[i], verifier))
    && (forall i :: 0 <= i < |input.comparisons| ==> ComparisonConfirmed(input.meta, input.comparisons[i], verifier))
    && ReceiptsApart(input.gates, input.comparisons)
    && AuthoritiesApart(input.gates, input.comparisons)
  }

  /** For every valid input, the authority checks hold exactly in this sense. */
  lemma AuthorityExactly(input: ReportInput, verifier: Option<Verifier>)
    requires InputValid(input)
    ensures AuthorityHolds(input, verifier) <==> AuthoritySound(input, verifier)
  {
    BackedOrAbsent(input);
    ConfirmedExactly(input, verifier);
    RolesExactly(input);
  }

  predicate Backed(backing: Backing) {
    backing.Full() || backing.Absent()
  }

  ghost predicate AllBacked(gates: seq<Gate>, comparisons: seq<Comparison>) {
    && (forall i :: 0 <= i < |gates| ==> Backed(gates[i].backing))
    && (forall i :: 0 <= i < |comparisons| ==> Backed(comparisons[i].backing))
  }

  lemma BackedOrAbsent(input: ReportInput)
    requires InputValid(input)
    ensures AllBacked(input.gates, input.comparisons)
    ensures forall i, j :: 0 <= i < j < |input.gates| ==> input.gates[i].id != input.gates[j].id
    ensures forall i, j :: 0 <= i < j < |input.gates| && input.gates[j].id == Cost ==> input.gates[i].id != Latency
  {
  }

  // Receipts.

  /** The texts that are there. */
  function Given(texts: seq<Option<string>>): seq<string> {
    if texts == [] then []
    else
      var before, last := Given(texts[..|texts| - 1]), texts[|texts| - 1];
      if last.None? then before else before + [last.value]
  }

  lemma {:induction false} GivenHolds(texts: seq<Option<string>>, text: string)
    ensures text in Given(texts) <==> exists i :: 0 <= i < |texts| && texts[i] == Some(text)
  {
    if texts != [] {
      GivenHolds(texts[..|texts| - 1], text);
    }
  }

  lemma {:induction false} GivenDistinct(texts: seq<Option<string>>)
    ensures NoDuplicates(Given(texts)) <==> forall i, j :: 0 <= i < j < |texts| ==> Apart(texts[i], texts[j])
  {
    if texts != [] {
      var before, last := texts[..|texts| - 1], texts[|texts| - 1];
      GivenDistinct(before);
      if last.Some? {
        GivenHolds(before, last.value);
        AppendDistinct(Given(before), last.value);
      }
    }
  }

  lemma {:induction false} GivenConcat(a: seq<Option<string>>, b: seq<Option<string>>)
    ensures Given(a + b) == Given(a) + Given(b)
    decreases |b|
  {
    if b == [] {
      assert a + b == a;
    } else {
      GivenConcat(a, b[..|b| - 1]);
      assert (a + b)[..|a + b| - 1] == a + b[..|b| - 1];
    }
  }

  function GateReceipts(gates: seq<Gate>): seq<Option<string>> {
    seq(|gates|, i requires 0 <= i < |gates| => gates[i].backing.receipt)
  }

  function ComparisonReceipts(comparisons: seq<Comparison>): seq<Option<string>> {
    seq(|comparisons|, i requires 0 <= i < |comparisons| => comparisons[i].backing.receipt)
  }

  ghost predicate AllVerified(verifier: Option<Verifier>, attestations: seq<Attestation>) {
    if verifier.None? then attestations == []
    else forall i :: 0 <= i < |attestations| ==> Verified(verifier.value, attestations[i])
  }

  lemma VerifiedAppend(verifier: Option<Verifier>, attestations: seq<Attestation>, last: Attestation)
    ensures AllVerified(verifier, attestations + [last])
      <==> AllVerified(verifier, attestations) && verifier.Some? && Verified(verifier.value, last)
  {
    var longer := attestations + [last];
    assert longer[|attestations|] == last;
    assert forall i :: 0 <= i < |attestations| ==> longer[i] == attestations[i];
  }

  lemma {:induction false} GatesVerified(meta: string, gates: seq<Gate>, verifier: Option<Verifier>)
    requires AllBacked(gates, [])
    ensures AllVerified(verifier, GateAttestations(meta, gates))
      <==> forall i :: 0 <= i < |gates| ==> GateConfirmed(meta, gates[i], verifier)
    ensures verifier.Some? && AllVerified(verifier, GateAttestations(meta, gates)) ==>
      Receipts(verifier.value, GateAttestations(meta, gates)) == Given(GateReceipts(gates))
  {
    if gates != [] {
      var before, last := gates[..|gates| - 1], gates[|gates| - 1];
      GatesVerified(meta, before, verifier);
      VerifiedOneMore(verifier, meta, before, last);
      ReceiptsOneMore(verifier, meta, before, last);
      assert before + [last] == gates;
      hide GateAttestations, Receipts, Given, GateReceipts, GateConfirmed, AllVerified;
    }
  }

  lemma ReceiptsOneMore(verifier: Option<Verifier>, meta: string, before: seq<Gate>, last: Gate)
    requires Backed(last.backing)
    requires verifier.Some? && AllVerified(verifier, GateAttestations(meta, before)) ==>
      Receipts(verifier.value, GateAttestations(meta, before)) == Given(GateReceipts(before))
    ensures verifier.Some? && AllVerified(verifier, GateAttestations(meta, before + [last])) ==>
      Receipts(verifier.value, GateAttestations(meta, before + [last])) == Given(GateReceipts(before + [last]))
  {
    VerifiedOneMore(verifier, meta, before, last);
    assert (before + [last])[..|before|] == before;
    assert GateReceipts(before + [last])[..|before|] == GateReceipts(before);
    hide GateConfirmed;
  }

  lemma VerifiedOneMore(verifier: Option<Verifier>, meta: string, before: seq<Gate>, last: Gate)
    requires Backed(last.backing)
    ensures AllVerified(verifier, GateAttestations(meta, before + [last]))
      <==> AllVerified(verifier, GateAttestations(meta, before)) && GateConfirmed(meta, last, verifier)
  {
    assert (before + [last])[..|before|] == before;
    if last.backing.Full() {
      var context := GateContext(meta, last.id, last.backing.evidence.value, last.outcome);
      var added := Attestation(context, last.backing.authority.value, last.backing.receipt.value);
      assert GateAttestations(meta, before + [last]) == GateAttestations(meta, before) + [added];
      VerifiedAppend(verifier, GateAttestations(meta, before), added);
    }
  }

  lemma {:induction false} ComparisonsVerified(
    meta: string, comparisons: seq<Comparison>, verifier: Option<Verifier>)
    requires AllBacked([], comparisons)
    ensures AllVerified(verifier, ComparisonAttestations(meta, comparisons))
      <==> forall i :: 0 <= i < |comparisons| ==> ComparisonConfirmed(meta, comparisons[i], verifier)
    ensures verifier.Some? && AllVerified(verifier, ComparisonAttestations(meta, comparisons)) ==>
      Receipts(verifier.value, ComparisonAttestations(meta, comparisons)) == Given(ComparisonReceipts(comparisons))
  {
    if comparisons != [] {
      var before, last := comparisons[..|comparisons| - 1], comparisons[|comparisons| - 1];
      ComparisonsVerified(meta, before, verifier);
      ComparedOneMore(verifier, meta, before, last);
      ReceiptsCompared(verifier, meta, before, last);
      assert before + [last] == comparisons;
      hide ComparisonAttestations, Receipts, Given, ComparisonReceipts, ComparisonConfirmed, AllVerified;
    }
  }

  lemma ReceiptsCompared(verifier: Option<Verifier>, meta: string, before: seq<Comparison>, last: Comparison)
    requires Backed(last.backing)
    requires verifier.Some? && AllVerified(verifier, ComparisonAttestations(meta, before)) ==>
      Receipts(verifier.value, ComparisonAttestations(meta, before)) == Given(ComparisonReceipts(before))
    ensures verifier.Some? && AllVerified(verifier, ComparisonAttestations(meta, before + [last])) ==>
      Receipts(verifier.value, ComparisonAttestations(meta, before + [last]))
      == Given(ComparisonReceipts(before + [last]))
  {
    ComparedOneMore(verifier, meta, before, last);
    assert (before + [last])[..|before|] == before;
    assert ComparisonReceipts(before + [last])[..|before|] == ComparisonReceipts(before);
    hide ComparisonConfirmed;
  }

  lemma ComparedOneMore(verifier: Option<Verifier>, meta: string, before: seq<Comparison>, last: Comparison)
    requires Backed(last.backing)
    ensures AllVerified(verifier, ComparisonAttestations(meta, before + [last]))
      <==> AllVerified(verifier, ComparisonAttestations(meta, before)) && ComparisonConfirmed(meta, last, verifier)
  {
    assert (before + [last])[..|before|] == before;
    if last.backing.Full() {
      var context := ComparisonContext(meta, WithoutReceipt(last));
      var added := Attestation(context, last.backing.authority.value, last.backing.receipt.value);
      assert ComparisonAttestations(meta, before + [last]) == ComparisonAttestations(meta, before) + [added];
      VerifiedAppend(verifier, ComparisonAttestations(meta, before), added);
    }
  }

  lemma ReceiptsExactly(gates: seq<Gate>, comparisons: seq<Comparison>)
    ensures NoDuplicates(Given(GateReceipts(gates)) + Given(ComparisonReceipts(comparisons)))
      <==> ReceiptsApart(gates, comparisons)
  {
    var all := GateReceipts(gates) + ComparisonReceipts(comparisons);
    GivenConcat(GateReceipts(gates), ComparisonReceipts(comparisons));
    GivenDistinct(all);
    hide Given, NoDuplicates, Apart;
    assert forall i :: 0 <= i < |gates| ==> all[i] == gates[i].backing.receipt;
    forall j | 0 <= j < |comparisons| ensures all[|gates| + j] == comparisons[j].backing.receipt {
    }
    if forall i, j :: 0 <= i < j < |all| ==> Apart(all[i], all[j]) {
      forall i, j | 0 <= i < j < |comparisons|
        ensures Apart(comparisons[i].backing.receipt, comparisons[j].backing.receipt)
      {
        assert Apart(all[|gates| + i], all[|gates| + j]);
      }
      forall i, j | 0 <= i < |gates| && 0 <= j < |comparisons|
        ensures Apart(gates[i].backing.receipt, comparisons[j].backing.receipt)
      {
        assert Apart(all[i], all[|gates| + j]);
      }
    }
    if ReceiptsApart(gates, comparisons) {
      forall i, j | 0 <= i < j < |all| ensures Apart(all[i], all[j]) {
        if i >= |gates| {
          assert all[i] == comparisons[i - |gates|].backing.receipt;
        }
        if j >= |gates| {
          assert all[j] == comparisons[j - |gates|].backing.receipt;
        }
      }
    }
  }

  lemma ConfirmedExactly(input: ReportInput, verifier: Option<Verifier>)
    requires AllBacked(input.gates, input.comparisons)
    ensures Confirmed(verifier, AllAttestations(input)) <==>
      && (forall i :: 0 <= i < |input.gates| ==> GateConfirmed(input.meta, input.gates[i], verifier))
      && (forall i :: 0 <= i < |input.comparisons| ==> ComparisonConfirmed(input.meta, input.comparisons[i], verifier))
      && ReceiptsApart(input.gates, input.comparisons)
  {
    var gates, comparisons := GateAttestations(input.meta, input.gates), ComparisonAttestations(input.meta, input.comparisons);
    GatesVerified(input.meta, input.gates, verifier);
    ComparisonsVerified(input.meta, input.comparisons, verifier);
    ReceiptsExactly(input.gates, input.comparisons);
    ConfirmedTogether(verifier, gates, comparisons);
    if verifier.Some? {
      ConcatDistinct(Receipts(verifier.value, gates), Receipts(verifier.value, comparisons));
    } else if AllVerified(verifier, gates) && AllVerified(verifier, comparisons) {
      NothingToConfirm(input.meta, input.gates, input.comparisons);
    }
  }

  lemma NothingToConfirm(meta: string, gates: seq<Gate>, comparisons: seq<Comparison>)
    requires AllBacked(gates, comparisons)
    requires forall i :: 0 <= i < |gates| ==> GateConfirmed(meta, gates[i], None)
    requires forall i :: 0 <= i < |comparisons| ==> ComparisonConfirmed(meta, comparisons[i], None)
    ensures ReceiptsApart(gates, comparisons)
  {
  }

  // Roles.

  ghost predicate GateSigns(gates: seq<Gate>, signer: Signer) {
    exists i :: 0 <= i < |gates| && gates[i].backing.authority == Some(signer.0) && RoleOf(gates[i].id) == signer.1
  }

  ghost predicate ComparisonSigns(comparisons: seq<Comparison>, signer: Signer) {
    && signer.1 == StatisticsRole
    && exists i :: 0 <= i < |comparisons| && comparisons[i].backing.authority == Some(signer.0)
  }

  lemma {:induction false} GateSigned(gates: seq<Gate>, signer: Signer)
    ensures signer in GateSigners(gates) <==> GateSigns(gates, signer)
  {
    if gates != [] {
      GateSigned(gates[..|gates| - 1], signer);
      hide RoleOf;
    }
  }

  lemma {:induction false} ComparisonSigned(comparisons: seq<Comparison>, signer: Signer)
    ensures signer in ComparisonSigners(comparisons) <==> ComparisonSigns(comparisons, signer)
  {
    if comparisons != [] {
      ComparisonSigned(comparisons[..|comparisons| - 1], signer);
    }
  }

  lemma RoleShared(a: GateId, b: GateId)
    ensures RoleOf(a) == RoleOf(b) <==> a == b || {a, b} == {Cost, Latency}
    ensures RoleOf(a) == StatisticsRole <==> a == Quality
  {
  }

  ghost predicate IndependentSigners(signers: seq<Signer>) {
    forall a, b :: a in signers && b in signers && a.0 == b.0 ==> a.1 == b.1
  }

  lemma MembersTell(signers: seq<Signer>)
    ensures RolesIndependent(signers) <==> IndependentSigners(signers)
  {
    if RolesIndependent(signers) {
      forall a, b | a in signers && b in signers && a.0 == b.0 ensures a.1 == b.1 {
        var i :| 0 <= i < |signers| && signers[i] == a;
        var j :| 0 <= j < |signers| && signers[j] == b;
      }
    }
  }

  lemma RolesExactly(input: ReportInput)
    requires forall i, j :: 0 <= i < j < |input.gates| ==> input.gates[i].id != input.gates[j].id
    requires forall i, j :: 0 <= i < j < |input.gates| && input.gates[j].id == Cost ==> input.gates[i].id != Latency
    ensures RolesIndependent(Signers(input)) <==> AuthoritiesApart(input.gates, input.comparisons)
  {
    var gates, comparisons, signers := input.gates, input.comparisons, Signers(input);
    MembersTell(signers);
    forall signer: Signer ensures signer in signers <==> GateSigns(gates, signer) || ComparisonSigns(comparisons, signer) {
      GateSigned(gates, signer);
      ComparisonSigned(comparisons, signer);
      hide RoleOf;
    }
    hide Signers, RolesIndependent;
    if IndependentSigners(signers) {
      forall i, j | 0 <= i < j < |gates| && !(gates[i].id == Cost && gates[j].id == Latency)
        ensures Apart(gates[i].backing.authority, gates[j].backing.authority)
      {
        var a, b := gates[i].backing.authority, gates[j].backing.authority;
        if a.Some? && a == b {
          var first, second := (a.value, RoleOf(gates[i].id)), (a.value, RoleOf(gates[j].id));
          assert GateSigns(gates, first) && GateSigns(gates, second);
          RoleShared(gates[i].id, gates[j].id);
        }
      }
      forall i, j | 0 <= i < |gates| && 0 <= j < |comparisons| && gates[i].id != Quality
        ensures Apart(gates[i].backing.authority, comparisons[j].backing.authority)
      {
        var a, b := gates[i].backing.authority, comparisons[j].backing.authority;
        if a.Some? && a == b {
          var first, second := (a.value, RoleOf(gates[i].id)), (a.value, StatisticsRole);
          assert GateSigns(gates, first) && ComparisonSigns(comparisons, second);
          RoleShared(gates[i].id, gates[i].id);
        }
      }
    }
  }

  // Accepted reports.

  /** The status that an accepted report states, in terms of its own entries and of what the verifier answers. */
  lemma AcceptedStatus(report: FrontierReport, policy: Policy, verifier: Option<Verifier>)
    requires ReportAccepted(report, policy, verifier)
    ensures var input, status := report.body.input, report.body.status;
      var beaten, inconclusive :=
        input.comparisons[0].outcome == Superior, Inconclusive(input, AuthoritySound(input, verifier));
      && (status == NotEvaluable <==> inconclusive)
      && (status == NotSuperiorStatus <==> !inconclusive && !beaten)
      && (status == VerifiedImprovement <==> !inconclusive && beaten && Flawed(input))
      && (status == TopTierScoped <==> !inconclusive && beaten && !Flawed(input))
    ensures var comparisons := report.body.input.comparisons;
      && |comparisons| == |policy.requiredBaselines| == |policy.kinds|
      && forall i :: 0 <= i < |comparisons| ==>
           (comparisons[i].baselineId, comparisons[i].kind, comparisons[i].margin)
           == (policy.requiredBaselines[i], policy.kinds[i], policy.margin)
  {
    var input := report.body.input;
    ComparisonsGiven(input);
    PolicyBound(input, policy);
    AuthorityExactly(input, verifier);
    StatusExactly(input, AuthorityHolds(input, verifier));
    hide InputValid, AuthorityHolds, AuthoritySound, StatusOf, Inconclusive, Flawed;
  }

  lemma PolicyBound(input: ReportInput, policy: Policy)
    requires InputValid(input) && PolicyBinds(policy, input)
    ensures var comparisons := input.comparisons;
      && |comparisons| == |policy.requiredBaselines| == |policy.kinds|
      && forall i :: 0 <= i < |comparisons| ==>
           (comparisons[i].baselineId, comparisons[i].kind, comparisons[i].margin)
           == (policy.requiredBaselines[i], policy.kinds[i], policy.margin)
  {
  }

  /** What the top status stands for: nine passed gates and a superior interval over every required baseline, each
      backed by evidence that the verifier confirms, with every kind of baseline among them. */
  lemma TopTierMeans(report: FrontierReport, policy: Policy, verifier: Option<Verifier>)
    requires ReportAccepted(report, policy, verifier) && report.body.status == TopTierScoped
    ensures var input := report.body.input;
      && AuthoritySound(input, verifier)
      && |input.gates| == 9 && |input.comparisons| == |policy.requiredBaselines|
      && (forall i :: 0 <= i < 9 ==> input.gates[i].outcome == Passed && input.gates[i].backing.Full())
      && (forall i :: 0 <= i < |input.comparisons| ==>
            && input.comparisons[i].baselineId == policy.requiredBaselines[i]
            && policy.margin < input.comparisons[i].lower <= input.comparisons[i].point
            && input.comparisons[i].backing.Full())
      && (forall kind: Kind :: Covers(input.comparisons, kind))
  {
    var input := report.body.input;
    AuthorityExactly(input, verifier);
    TopMeansAll(input, AuthorityHolds(input, verifier));
    hide AuthoritySound, AuthorityHolds, StatusOf, Covers;
  }

  // The reasons.

  const GATE_TEXTS: seq<string> :=
    ["preflight", "readiness", "quality", "safety", "robustness", "cost", "latency", "independence", "reproduction"]

  function GateText(i: nat, outcome: GateOutcome): string
    requires i < 9
  {
    GATE_TEXTS[i] + if outcome == Failed then " gate failed" else " gate is not evaluable"
  }

  function ComparisonText(outcome: ComparisonOutcome): string {
    "a required baseline comparison is not " + if outcome == NotSuperior then "superior" else "evaluable"
  }

  /** The reasons name exactly the gates and comparisons that are not as they should be. */
  ghost predicate ReasonsTell(input: ReportInput, reasons: seq<string>) {
    && |input.gates| == 9
    && (forall i, outcome: GateOutcome :: 0 <= i < 9 && outcome != Passed ==>
          (GateText(i, outcome) in reasons <==> input.gates[i].outcome == outcome))
    && (forall outcome: ComparisonOutcome :: outcome != Superior ==>
          (ComparisonText(outcome) in reasons <==> Compared(input.comparisons, outcome)))
  }

  predicate Compared(comparisons: seq<Comparison>, outcome: ComparisonOutcome) {
    exists i :: 0 <= i < |comparisons| && comparisons[i].outcome == outcome
  }

  lemma AcceptedReasons(report: FrontierReport, policy: Policy, verifier: Option<Verifier>)
    requires ReportAccepted(report, policy, verifier)
    ensures ReasonsTell(report.body.input, report.body.failures)
  {
    var input, reasons := report.body.input, report.body.failures;
    NineGates(input);
    hide GateText, ComparisonText, Reason, ReportAccepted, InputValid;
    forall i, outcome: GateOutcome | 0 <= i < 9 && outcome != Passed
      ensures GateText(i, outcome) in reasons <==> input.gates[i].outcome == outcome
    {
      ReasonsCollected(report, policy, verifier, GateText(i, outcome));
      GateReason(input, verifier, i, outcome);
    }
    forall outcome: ComparisonOutcome | outcome != Superior
      ensures ComparisonText(outcome) in reasons <==> Compared(input.comparisons, outcome)
    {
      ReasonsCollected(report, policy, verifier, ComparisonText(outcome));
      ComparisonReason(input, verifier, outcome);
    }
  }

  lemma NineGates(input: ReportInput)
    requires InputValid(input)
    ensures |input.gates| == 9
  {
  }

  ghost predicate Reason(input: ReportInput, verifier: Option<Verifier>, text: string) {
    || text in GateMessages(input.gates)
    || text in ComparisonMessages(input.comparisons)
    || text in AuthorityMessages(input, verifier)
  }

  lemma ReasonsCollected(report: FrontierReport, policy: Policy, verifier: Option<Verifier>, text: string)
    requires ReportAccepted(report, policy, verifier)
    ensures text in report.body.failures <==> Reason(report.body.input, verifier, text)
  {
    var input := report.body.input;
    ComparisonsGiven(input);
    if report.body.status == TopTierScoped {
      TopMeansAll(input, AuthorityHolds(input, verifier));
      NoAuthorityMessages(input, verifier);
    } else {
      SortedKeysSorted(
        GateMessages(input.gates) + ComparisonMessages(input.comparisons) + AuthorityMessages(input, verifier));
    }
    hide InputValid, AuthorityHolds, AuthorityMessages, StatusOf;
  }

  lemma NoAuthorityMessages(input: ReportInput, verifier: Option<Verifier>)
    requires AuthorityHolds(input, verifier)
    ensures AuthorityMessages(input, verifier) == {}
  {
    ConfirmedTogether(
      verifier, GateAttestations(input.meta, input.gates), ComparisonAttestations(input.meta, input.comparisons));
    hide RolesIndependent, NoDuplicates, Verified, Receipts, Signers;
  }

  lemma GateReason(input: ReportInput, verifier: Option<Verifier>, i: nat, outcome: GateOutcome)
    requires InputValid(input) && i < 9 && |input.gates| == 9 && outcome != Passed
    ensures Reason(input, verifier, GateText(i, outcome)) <==> input.gates[i].outcome == outcome
  {
    var text := GateText(i, outcome);
    GateTextShort(i, outcome);
    OtherReasonEnds(input, verifier, text);
    NamesAgree(i);
    if text in GateMessages(input.gates) {
      var j :| 0 <= j < |input.gates| && input.gates[j].outcome != Passed && GateMessage(input.gates[j]) == text;
      NamesAgree(j);
      GateTextsDiffer(i, outcome, j, input.gates[j].outcome);
    }
    if input.gates[i].outcome == outcome {
      assert GateMessage(input.gates[i]) == text;
    }
  }

  lemma NamesAgree(i: nat)
    requires i < 9
    ensures GateName(GATE_ORDER[i]) == GATE_TEXTS[i]
  {
  }

  lemma GateTextShort(i: nat, outcome: GateOutcome)
    requires i < 9
    ensures |GateText(i, outcome)| <= 34
  {
  }

  /** What the other reasons look like near their end. */
  predicate EndsLike(text: string, letters: set<char>) {
    |text| > 34 && text[|text| - 2] in letters
  }

  lemma ComparisonEnds()
    ensures EndsLike(COMPARISON_NOT_EVALUABLE, {'l', 'o'}) && EndsLike(COMPARISON_NOT_SUPERIOR, {'l', 'o'})
  {
  }

  lemma GateEnds()
    ensures EndsLike(GATE_UNVERIFIED, {'e', 'n', 'u'}) && EndsLike(GATE_RECEIPT_REUSED, {'e', 'n', 'u'})
  {
  }

  lemma ReceiptEnds()
    ensures EndsLike(COMPARISON_UNVERIFIED, {'e', 'n', 'u'}) && EndsLike(COMPARISON_RECEIPT_REUSED, {'e', 'n', 'u'})
  {
  }

  lemma SharedEnds()
    ensures EndsLike(VERIFIER_REQUIRED, {'e', 'n', 'u'}) && EndsLike(ROLES_DEPENDENT, {'e', 'n', 'u'})
    ensures EndsLike(RECEIPT_REUSED, {'e', 'n', 'u'})
  {
  }

  lemma OtherReasonEnds(input: ReportInput, verifier: Option<Verifier>, text: string)
    ensures text in ComparisonMessages(input.comparisons) ==> EndsLike(text, {'l', 'o'})
    ensures text in AuthorityMessages(input, verifier) ==> EndsLike(text, {'e', 'n', 'u'})
  {
    ComparisonEnds();
    GateEnds();
    ReceiptEnds();
    SharedEnds();
    hide EndsLike;
    hide RolesIndependent, NoDuplicates, Verified, Receipts, Signers, GateAttestations, ComparisonAttestations;
    hide COMPARISON_NOT_EVALUABLE, COMPARISON_NOT_SUPERIOR, VERIFIER_REQUIRED, ROLES_DEPENDENT, RECEIPT_REUSED;
    hide GATE_UNVERIFIED, GATE_RECEIPT_REUSED, COMPARISON_UNVERIFIED, COMPARISON_RECEIPT_REUSED;
  }

  lemma GateTextsDiffer(i: nat, a: GateOutcome, j: nat, b: GateOutcome)
    requires i < 9 && j < 9 && a != Passed && b != Passed && GateText(i, a) == GateText(j, b)
    ensures i == j && a == b
  {
    var text := GateText(i, a);
    assert text[|text| - 1] == if a == Failed then 'd' else 'e';
    assert text[|text| - 1] == if b == Failed then 'd' else 'e';
    var length := |GATE_TEXTS[i]|;
    assert text[..length] == GATE_TEXTS[i];
    assert |GATE_TEXTS[j]| == length;
    assert text[..length] == GATE_TEXTS[j];
    TextsDiffer(i, j);
  }

  lemma TextsDiffer(i: nat, j: nat)
    requires i < 9 && j < 9 && GATE_TEXTS[i] == GATE_TEXTS[j]
    ensures i == j
  {
    assert GATE_TEXTS[i][0] == GATE_TEXTS[j][0] && |GATE_TEXTS[i]| == |GATE_TEXTS[j]|;
    assert GATE_TEXTS[i][1] == GATE_TEXTS[j][1] && GATE_TEXTS[i][2] == GATE_TEXTS[j][2];
  }

  lemma ComparisonReason(input: ReportInput, verifier: Option<Verifier>, outcome: ComparisonOutcome)
    requires outcome != Superior
    ensures Reason(input, verifier, ComparisonText(outcome)) <==> Compared(input.comparisons, outcome)
  {
    var text := ComparisonText(outcome);
    ComparisonTextEnds(outcome);
    OtherReasonEnds(input, verifier, text);
    forall i | 0 <= i < |input.gates| ensures |GateMessage(input.gates[i])| <= 34 {
      GateMessageShort(input.gates[i]);
    }
    hide ComparisonText, COMPARISON_NOT_EVALUABLE, COMPARISON_NOT_SUPERIOR, GateMessage, AuthorityMessages;
    assert text !in GateMessages(input.gates);
    if i :| 0 <= i < |input.comparisons| && input.comparisons[i].outcome == outcome {
      assert ComparisonMessage(input.comparisons[i]) == text;
    }
  }

  lemma ComparisonTextEnds(outcome: ComparisonOutcome)
    ensures EndsLike(ComparisonText(outcome), {'l', 'o'})
    ensures ComparisonText(NotSuperior) == COMPARISON_NOT_SUPERIOR
    ensures ComparisonText(ComparisonNotEvaluable) == COMPARISON_NOT_EVALUABLE
    ensures COMPARISON_NOT_SUPERIOR != COMPARISON_NOT_EVALUABLE
  {
    assert |COMPARISON_NOT_EVALUABLE| != |COMPARISON_NOT_SUPERIOR|;
  }

  lemma GateMessageShort(gate: Gate)
    ensures |GateMessage(gate)| <= 34
  {
  }
}
