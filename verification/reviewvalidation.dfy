/** The packet and key validator accepts exactly what the packet maker would have made. */
module ReviewValidation {
  import opened Counting
  import opened Options
  import opened ReviewPacket
  import opened Sorting
  import opened Texts

  datatype Rejection =
    | KeyHashMismatch
    | PacketMismatch
    | AuthorityMismatch
    | ReviewerMismatch
    | ProtocolInvalid
    | SampleSizeMismatch
    | CommitmentMismatch
    | ItemSetsDiffer
    | ProtocolNotFollowed
    | ItemUnbound
    | PairingInvalid

  // What the expected lists contain.

  ghost predicate SecretsFrom(
    digests: Digests, blind: Blind, records: Records, draws: seq<Draw>, items: seq<SecretItem>)
    requires DrawsKnown(records, draws)
  {
    && NoDuplicates(items)
    && (forall i :: 0 <= i < |draws| ==> SecretFor(digests, blind, records[draws[i].0], draws[i].1) in items)
    && (forall item :: item in items ==> FromSecretDraw(digests, blind, records, draws, item))
  }

  ghost predicate FromSecretDraw(
    digests: Digests, blind: Blind, records: Records, draws: seq<Draw>, item: SecretItem)
    requires DrawsKnown(records, draws)
  {
    exists i :: 0 <= i < |draws| && item == SecretFor(digests, blind, records[draws[i].0], draws[i].1)
  }

  ghost predicate PublicsFrom(
    digests: Digests, blind: Blind, records: Records, draws: seq<Draw>, items: seq<PublicItem>)
    requires DrawsKnown(records, draws)
  {
    && NoDuplicates(items)
    && (forall i :: 0 <= i < |draws| ==> PublicFor(digests, blind, records[draws[i].0], draws[i].1) in items)
    && (forall item :: item in items ==> FromPublicDraw(digests, blind, records, draws, item))
  }

  ghost predicate FromPublicDraw(
    digests: Digests, blind: Blind, records: Records, draws: seq<Draw>, item: PublicItem)
    requires DrawsKnown(records, draws)
  {
    exists i :: 0 <= i < |draws| && item == PublicFor(digests, blind, records[draws[i].0], draws[i].1)
  }

  /** Equal digests name the same record, since records are filed under their own digest. */
  lemma SameSha(records: Records, a: string, b: string)
    requires Filed(records) && a in records && b in records && records[a].caseSha == records[b].caseSha
    ensures a == b
  {
    assert a == BaseId(records[a]) && b == BaseId(records[b]);
  }

  lemma DrawsDiffer(records: Records, draws: seq<Draw>, i: nat, j: nat)
    requires Filed(records) && DrawsKnown(records, draws) && NoDuplicates(draws) && i < j < |draws|
    ensures draws[i].1 != draws[j].1 || records[draws[i].0].caseSha != records[draws[j].0].caseSha
  {
    if records[draws[i].0].caseSha == records[draws[j].0].caseSha {
      SameSha(records, draws[i].0, draws[j].0);
    }
  }

  lemma SecretsListed(digests: Digests, blind: Blind, records: Records, draws: seq<Draw>)
    requires Filed(records) && DrawsKnown(records, draws) && NoDuplicates(draws)
    ensures SecretsFrom(digests, blind, records, draws, ListedSecrets(digests, SecretsOf(digests, blind, records, draws)))
  {
    var items := SecretsOf(digests, blind, records, draws);
    forall i, j | 0 <= i < j < |items| ensures items[i] != items[j] {
      DrawsDiffer(records, draws, i, j);
    }
    SortSorts(items, (item: SecretItem) => digests.place(item.id));
    PermutedList(items, ListedSecrets(digests, items));
    hide NoDuplicates, SecretFor, SortByKey;
    forall i | 0 <= i < |draws| ensures SecretFor(digests, blind, records[draws[i].0], draws[i].1) in items {
      assert items[i] in items;
    }
  }

  lemma PublicsListed(digests: Digests, blind: Blind, records: Records, draws: seq<Draw>)
    requires Filed(records) && DrawsKnown(records, draws) && NoDuplicates(draws)
    ensures PublicsFrom(digests, blind, records, draws, ListedPublics(digests, PublicsOf(digests, blind, records, draws)))
  {
    var items := PublicsOf(digests, blind, records, draws);
    forall i, j | 0 <= i < j < |items| ensures items[i] != items[j] {
      DrawsDiffer(records, draws, i, j);
    }
    SortSorts(items, (item: PublicItem) => digests.place(item.id));
    PermutedList(items, ListedPublics(digests, items));
    hide NoDuplicates, PublicFor, SortByKey;
    forall i | 0 <= i < |draws| ensures PublicFor(digests, blind, records[draws[i].0], draws[i].1) in items {
      assert items[i] in items;
    }
  }

  // One item against its secret and its record.

  predicate ItemBound(records: Records, item: PublicItem, secret: SecretItem) {
    && secret.baseId in records
    && var record := records[secret.baseId];
      && secret.caseId == record.caseId && secret.domain == record.domain
      && secret.caseSha == record.caseSha && secret.evaluationSha == record.evaluationSha
      && item.inputText == record.inputText && item.rubric == record.rubric
      && item.outputA == (if secret.optimized.A? then record.optimized else record.original)
      && item.outputB == (if secret.optimized.A? then record.original else record.optimized)
  }

  lemma DrawnItemBound(
    digests: Digests, blind: Blind, records: Records, draws: seq<Draw>, item: PublicItem, secret: SecretItem)
    requires Filed(records) && DrawsKnown(records, draws)
    requires FromPublicDraw(digests, blind, records, draws, item) && FromSecretDraw(digests, blind, records, draws, secret)
    requires item.id == secret.id
    ensures ItemBound(records, item, secret)
  {
    var i :| 0 <= i < |draws| && item == PublicFor(digests, blind, records[draws[i].0], draws[i].1);
    var j :| 0 <= j < |draws| && secret == SecretFor(digests, blind, records[draws[j].0], draws[j].1);
    SameSha(records, draws[i].0, draws[j].0);
    assert draws[j].0 == BaseId(records[draws[j].0]);
  }

  // Pairing of base items and probes.

  function Matching(items: seq<SecretItem>, baseId: string, probe: bool): seq<SecretItem> {
    if items == [] then []
    else
      var before, last := Matching(items[..|items| - 1], baseId, probe), items[|items| - 1];
      if last.baseId == baseId && last.probe == probe then before + [last] else before
  }

  predicate PairOk(items: seq<SecretItem>, baseId: string) {
    var bases, probes := Matching(items, baseId, false), Matching(items, baseId, true);
    && |bases| == 1 && |probes| <= 1
    && (|probes| == 1 ==> probes[0].optimized != bases[0].optimized)
  }

  lemma {:induction false} MatchingHas(items: seq<SecretItem>, baseId: string, probe: bool, x: SecretItem)
    ensures x in Matching(items, baseId, probe) <==> x in items && x.baseId == baseId && x.probe == probe
  {
    if items != [] {
      assert items == items[..|items| - 1] + [items[|items| - 1]];
      MatchingHas(items[..|items| - 1], baseId, probe, x);
    }
  }

  lemma {:induction false} MatchingDistinct(items: seq<SecretItem>, baseId: string, probe: bool)
    requires NoDuplicates(items)
    ensures NoDuplicates(Matching(items, baseId, probe))
  {
    if items != [] {
      var init, last := items[..|items| - 1], items[|items| - 1];
      MatchingDistinct(init, baseId, probe);
      MatchingHas(init, baseId, probe, last);
      assert last !in init;
    }
  }

  lemma SecretOfDraw(
    digests: Digests, blind: Blind, records: Records, draws: seq<Draw>, item: SecretItem, baseId: string)
    requires Filed(records) && DrawsKnown(records, draws)
    requires FromSecretDraw(digests, blind, records, draws, item) && item.baseId == baseId
    ensures baseId in records && item == SecretFor(digests, blind, records[baseId], item.probe)
    ensures (baseId, item.probe) in draws
  {
    var i :| 0 <= i < |draws| && item == SecretFor(digests, blind, records[draws[i].0], draws[i].1);
    assert draws[i].0 == BaseId(records[draws[i].0]);
    assert draws[i] == (baseId, item.probe);
  }

  /** Every drawn case has one base item, and at most one probe, with the labels reversed. */
  lemma DrawnPairOk(
    digests: Digests, blind: Blind, records: Records, draws: seq<Draw>, items: seq<SecretItem>, baseId: string)
    requires Filed(records) && DrawsKnown(records, draws) && SecretsFrom(digests, blind, records, draws, items)
    requires forall draw :: draw in draws ==> (draw.0, false) in draws
    requires exists item :: item in items && item.baseId == baseId
    ensures PairOk(items, baseId)
  {
    hide NoDuplicates, SecretFor;
    var some :| some in items && some.baseId == baseId;
    SecretOfDraw(digests, blind, records, draws, some, baseId);
    var i :| 0 <= i < |draws| && draws[i] == (baseId, false);
    var base, probe := SecretFor(digests, blind, records[baseId], false), SecretFor(digests, blind, records[baseId], true);
    SecretSides(digests, blind, records[baseId]);
    assert base in items;
    assert baseId == BaseId(records[baseId]);
    forall flag, x | x in Matching(items, baseId, flag) ensures x == if flag then probe else base {
      MatchingHas(items, baseId, flag, x);
      SecretOfDraw(digests, blind, records, draws, x, baseId);
    }
    MatchingHas(items, baseId, false, base);
    MatchingDistinct(items, baseId, false);
    MatchingDistinct(items, baseId, true);
    OnlyOne(Matching(items, baseId, false), base);
    OnlyOne(Matching(items, baseId, true), probe);
  }

  lemma SecretSides(digests: Digests, blind: Blind, record: Record)
    ensures SecretFor(digests, blind, record, false).baseId == BaseId(record)
    ensures !SecretFor(digests, blind, record, false).probe
    ensures SecretFor(digests, blind, record, true).optimized != SecretFor(digests, blind, record, false).optimized
  {
  }

  lemma OnlyOne<T>(items: seq<T>, x: T)
    requires NoDuplicates(items) && forall y :: y in items ==> y == x
    ensures |items| <= 1 && (x in items ==> |items| == 1)
    ensures |items| == 1 ==> items[0] == x
  {
    SetSizeTellsDuplicates(items);
    hide NoDuplicates;
    if x in items {
      assert (set y | y in items) == {x};
      assert items[0] in items;
    } else {
      assert (set y | y in items) == {};
    }
  }

  // The validator.

  predicate HeadersOk(packet: Packet, key: Key, authority: string) {
    && key.hash == KeyHashOf(key.body)
    && key.body.packetHash == packet.hash
    && packet.body.authority == authority && key.body.authority == authority
    && key.body.reviewer == packet.body.reviewer
    && RequestOk(key.body.reviewer, key.body.sampleSize, key.body.probeCount)
    && packet.body.sampleSize == key.body.sampleSize
    && packet.body.commitment == CommitmentTo(key.body.blindingKey)
  }

  function BlindOf(key: Key): Blind {
    Blind(key.body.reviewer, key.body.seed, key.body.blindingKey)
  }

  /** The lists are the ones the protocol prescribes for this reviewer, seed and blinding key. */
  predicate FollowsProtocol(digests: Digests, packet: Packet, key: Key, records: Records) {
    && 0 <= key.body.sampleSize <= |records| && 0 <= key.body.probeCount
    && packet.body.items == ExpectedPublics(digests, BlindOf(key), records, key.body.sampleSize, key.body.probeCount)
    && key.body.items == ExpectedSecrets(digests, BlindOf(key), records, key.body.sampleSize, key.body.probeCount)
  }

  method CheckHeaders(packet: Packet, key: Key, authority: string) returns (rejection: Option<Rejection>)
    ensures rejection.None? <==> HeadersOk(packet, key, authority)
  {
    if key.hash != KeyHashOf(key.body) {
      return Some(KeyHashMismatch);
    }
    if key.body.packetHash != packet.hash {
      return Some(PacketMismatch);
    }
    if packet.body.authority != authority || key.body.authority != authority {
      return Some(AuthorityMismatch);
    }
    if key.body.reviewer != packet.body.reviewer || Blank(packet.body.reviewer) {
      return Some(ReviewerMismatch);
    }
    if key.body.sampleSize < 1 || key.body.probeCount < MINIMUM_POSITION_PROBES
       || key.body.probeCount > key.body.sampleSize {
      return Some(ProtocolInvalid);
    }
    if packet.body.sampleSize != key.body.sampleSize {
      return Some(SampleSizeMismatch);
    }
    if packet.body.commitment != CommitmentTo(key.body.blindingKey) {
      return Some(CommitmentMismatch);
    }
    return None;
  }

  function PublicIds(items: seq<PublicItem>): set<ItemId> {
    set item | item in items :: item.id
  }

  function SecretIds(items: seq<SecretItem>): set<ItemId> {
    set item | item in items :: item.id
  }

  method FindSecret(secrets: seq<SecretItem>, id: ItemId) returns (found: Option<SecretItem>)
    ensures found.Some? ==> found.value in secrets && found.value.id == id
    ensures found.None? ==> id !in SecretIds(secrets)
  {
    for i := 0 to |secrets|
      invariant forall j :: 0 <= j < i ==> secrets[j].id != id
    {
      if secrets[i].id == id {
        return Some(secrets[i]);
      }
    }
    return None;
  }

  ghost predicate AllBound(records: Records, publics: seq<PublicItem>, secrets: seq<SecretItem>) {
    && (forall item :: item in publics ==> item.id in SecretIds(secrets))
    && (forall item, secret :: item in publics && secret in secrets && item.id == secret.id ==>
          ItemBound(records, item, secret))
  }

  /** Passes whenever every pair of items with one id is bound to one record. */
  method CheckItems(records: Records, publics: seq<PublicItem>, secrets: seq<SecretItem>) returns (ok: bool)
    ensures AllBound(records, publics, secrets) ==> ok
  {
    hide ItemBound;
    for i := 0 to |publics| {
      var secret := FindSecret(secrets, publics[i].id);
      assert publics[i] in publics;
      if secret.None? || !ItemBound(records, publics[i], secret.value) {
        return false;
      }
    }
    return true;
  }

  method CheckPairs(secrets: seq<SecretItem>) returns (ok: bool)
    ensures ok <==> forall item :: item in secrets ==> PairOk(secrets, item.baseId)
  {
    hide PairOk;
    for i := 0 to |secrets|
      invariant forall j :: 0 <= j < i ==> PairOk(secrets, secrets[j].baseId)
    {
      if !PairOk(secrets, secrets[i].baseId) {
        assert secrets[i] in secrets;
        return false;
      }
    }
    return true;
  }

  lemma SecretForPublic(
    digests: Digests, blind: Blind, records: Records, draws: seq<Draw>, item: PublicItem, secrets: seq<SecretItem>)
    requires DrawsKnown(records, draws) && SecretsFrom(digests, blind, records, draws, secrets)
    requires FromPublicDraw(digests, blind, records, draws, item)
    ensures item.id in SecretIds(secrets)
  {
    hide NoDuplicates;
    var i :| 0 <= i < |draws| && item == PublicFor(digests, blind, records[draws[i].0], draws[i].1);
    assert SecretFor(digests, blind, records[draws[i].0], draws[i].1) in secrets;
  }

  lemma PublicForSecret(
    digests: Digests, blind: Blind, records: Records, draws: seq<Draw>, secret: SecretItem, publics: seq<PublicItem>)
    requires DrawsKnown(records, draws) && PublicsFrom(digests, blind, records, draws, publics)
    requires FromSecretDraw(digests, blind, records, draws, secret)
    ensures secret.id in PublicIds(publics)
  {
    hide NoDuplicates;
    var i :| 0 <= i < |draws| && secret == SecretFor(digests, blind, records[draws[i].0], draws[i].1);
    assert PublicFor(digests, blind, records[draws[i].0], draws[i].1) in publics;
  }

  lemma DrawnItemsBound(
    digests: Digests, blind: Blind, records: Records, draws: seq<Draw>, publics: seq<PublicItem>, secrets: seq<SecretItem>)
    requires Filed(records) && DrawsKnown(records, draws)
    requires PublicsFrom(digests, blind, records, draws, publics)
    requires SecretsFrom(digests, blind, records, draws, secrets)
    ensures AllBound(records, publics, secrets)
    ensures PublicIds(publics) == SecretIds(secrets)
  {
    hide NoDuplicates, ItemBound, FromPublicDraw, FromSecretDraw, PublicFor, SecretFor;
    forall item | item in publics ensures item.id in SecretIds(secrets) {
      SecretForPublic(digests, blind, records, draws, item, secrets);
    }
    forall secret | secret in secrets ensures secret.id in PublicIds(publics) {
      PublicForSecret(digests, blind, records, draws, secret, publics);
    }
    forall item, secret | item in publics && secret in secrets && item.id == secret.id
      ensures ItemBound(records, item, secret)
    {
      DrawnItemBound(digests, blind, records, draws, item, secret);
    }
  }

  lemma PublicIdsDistinct(
    digests: Digests, blind: Blind, records: Records, draws: seq<Draw>, publics: seq<PublicItem>)
    requires Filed(records) && DrawsKnown(records, draws) && PublicsFrom(digests, blind, records, draws, publics)
    ensures |PublicIds(publics)| == |publics|
  {
    SetSizeTellsDuplicates(publics);
    hide NoDuplicates;
    var items := set item | item in publics;
    forall a, b | a in items && b in items && a.id == b.id ensures a == b {
      var i :| 0 <= i < |draws| && a == PublicFor(digests, blind, records[draws[i].0], draws[i].1);
      var j :| 0 <= j < |draws| && b == PublicFor(digests, blind, records[draws[j].0], draws[j].1);
      SameSha(records, draws[i].0, draws[j].0);
    }
    assert PublicIds(publics) == set item | item in items :: item.id;
    ImageSizeTellsInjective(items, PublicIds(publics), (item: PublicItem) => item.id);
  }

  lemma SecretIdsDistinct(
    digests: Digests, blind: Blind, records: Records, draws: seq<Draw>, secrets: seq<SecretItem>)
    requires Filed(records) && DrawsKnown(records, draws) && SecretsFrom(digests, blind, records, draws, secrets)
    ensures |SecretIds(secrets)| == |secrets|
  {
    SetSizeTellsDuplicates(secrets);
    hide NoDuplicates;
    var items := set item | item in secrets;
    forall a, b | a in items && b in items && a.id == b.id ensures a == b {
      var i :| 0 <= i < |draws| && a == SecretFor(digests, blind, records[draws[i].0], draws[i].1);
      var j :| 0 <= j < |draws| && b == SecretFor(digests, blind, records[draws[j].0], draws[j].1);
      SameSha(records, draws[i].0, draws[j].0);
    }
    assert SecretIds(secrets) == set item | item in items :: item.id;
    ImageSizeTellsInjective(items, SecretIds(secrets), (item: SecretItem) => item.id);
  }

  /** The prescribed lists satisfy every later check. */
  lemma ExpectedListsPass(digests: Digests, packet: Packet, key: Key, records: Records)
    requires Filed(records) && FollowsProtocol(digests, packet, key, records)
    ensures AllBound(records, packet.body.items, key.body.items)
    ensures forall item :: item in key.body.items ==> PairOk(key.body.items, item.baseId)
    ensures PublicIds(packet.body.items) == SecretIds(key.body.items)
    ensures |PublicIds(packet.body.items)| == |packet.body.items| && |SecretIds(key.body.items)| == |key.body.items|
  {
    var blind, publics, secrets := BlindOf(key), packet.body.items, key.body.items;
    var draws := ExpectedDraws(digests, blind, records, key.body.sampleSize, key.body.probeCount);
    ExpectedOk(digests, blind, records, key.body.sampleSize, key.body.probeCount);
    PublicsListed(digests, blind, records, draws);
    SecretsListed(digests, blind, records, draws);
    hide ExpectedDraws, PublicsFrom, SecretsFrom, ListedPublics, ListedSecrets, NoDuplicates, AllBound, PairOk;
    hide PublicIds, SecretIds, Filed, DrawsKnown;
    DrawnItemsBound(digests, blind, records, draws, publics, secrets);
    PublicIdsDistinct(digests, blind, records, draws, publics);
    SecretIdsDistinct(digests, blind, records, draws, secrets);
    forall item | item in secrets ensures PairOk(secrets, item.baseId) {
      DrawnPairOk(digests, blind, records, draws, secrets, item.baseId);
    }
  }

  /** Accepts exactly the headers that fit together over exactly the prescribed lists: what follows the
      recomputation can no longer reject anything. */
  method ValidatePacketKey(digests: Digests, packet: Packet, key: Key, authority: string, records: Records)
    returns (rejection: Option<Rejection>)
    requires Filed(records)
    ensures rejection.None? <==>
      HeadersOk(packet, key, authority) && FollowsProtocol(digests, packet, key, records)
  {
    hide PairOk, ItemBound, AllBound, ExpectedPublics, ExpectedSecrets, Filed, PublicIds, SecretIds;
    rejection := CheckHeaders(packet, key, authority);
    if rejection.Some? {
      return;
    }
    if FollowsProtocol(digests, packet, key, records) {
      ExpectedListsPass(digests, packet, key, records);
    }
    var publicIds, secretIds := PublicIds(packet.body.items), SecretIds(key.body.items);
    if |publicIds| != |packet.body.items| || |secretIds| != |key.body.items| || publicIds != secretIds {
      return Some(ItemSetsDiffer);
    }
    var expected := ReviewItems(digests, BlindOf(key), records, key.body.sampleSize, key.body.probeCount);
    if expected.None? || packet.body.items != expected.value.0 || key.body.items != expected.value.1 {
      return Some(ProtocolNotFollowed);
    }
    var bound := CheckItems(records, packet.body.items, key.body.items);
    if !bound {
      return Some(ItemUnbound);
    }
    var paired := CheckPairs(key.body.items);
    if !paired {
      return Some(PairingInvalid);
    }
    return None;
  }

  /** Whatever the packet maker makes, the validator accepts. */
  lemma CreatedPacketsAccepted(
    digests: Digests, blind: Blind, authority: string, records: Records, n: int, probes: int)
    requires RequestOk(blind.reviewer, n, probes) && n <= |records|
    ensures HeadersOk(
      PacketFor(digests, blind, authority, records, n, probes),
      KeyFor(digests, blind, authority, records, n, probes), authority)
    ensures FollowsProtocol(digests,
      PacketFor(digests, blind, authority, records, n, probes),
      KeyFor(digests, blind, authority, records, n, probes), records)
  {
    hide ExpectedPublics, ExpectedSecrets;
  }

  // What the probes are for.

  datatype Choice = ChoseA | ChoseB | ChoseTie

  datatype Mapped = Win | Tie | Loss

  function MappedWinner(choice: Choice, optimized: Side): Mapped {
    match choice
    case ChoseTie => Tie
    case ChoseA => if optimized.A? then Win else Loss
    case ChoseB => if optimized.B? then Win else Loss
  }

  datatype PairDecision = PairDecision(base: Choice, probe: Choice)

  datatype ProbeCounts = ProbeCounts(consistent: nat, biased: nat, inconclusive: nat)

  /** The pair reaches one and the same verdict on the two positions. */
  predicate SameVerdict(pair: PairDecision, optimized: Side) {
    && pair.base != ChoseTie && pair.probe != ChoseTie
    && MappedWinner(pair.base, optimized) == MappedWinner(pair.probe, Reversed(optimized))
  }

  predicate SamePosition(pair: PairDecision) {
    pair.base != ChoseTie && pair.base == pair.probe
  }

  ghost function Tally(pairs: seq<PairDecision>, sides: seq<Side>): ProbeCounts
    requires |pairs| == |sides|
  {
    if pairs == [] then ProbeCounts(0, 0, 0)
    else
      var init, pair := Tally(pairs[..|pairs| - 1], sides[..|sides| - 1]), pairs[|pairs| - 1];
      if SameVerdict(pair, sides[|sides| - 1]) then init.(consistent := init.consistent + 1)
      else if SamePosition(pair) then init.(biased := init.biased + 1)
      else init.(inconclusive := init.inconclusive + 1)
  }

  /** The host of the review compares raw letters only; because the probe reverses the base label,
      different letters mean the same verdict. */
  method CountProbes(pairs: seq<PairDecision>, ghost sides: seq<Side>) returns (counts: ProbeCounts)
    requires |pairs| == |sides|
    ensures counts == Tally(pairs, sides)
    ensures counts.consistent + counts.biased + counts.inconclusive == |pairs|
  {
    counts := ProbeCounts(0, 0, 0);
    for i := 0 to |pairs|
      invariant counts == Tally(pairs[..i], sides[..i])
      invariant counts.consistent + counts.biased + counts.inconclusive == i
    {
      var pair := pairs[i];
      if pair.base == ChoseTie || pair.probe == ChoseTie {
        counts := counts.(inconclusive := counts.inconclusive + 1);
      } else if pair.base != pair.probe {
        counts := counts.(consistent := counts.consistent + 1);
      } else {
        counts := counts.(biased := counts.biased + 1);
      }
      assert pairs[..i + 1][..i] == pairs[..i] && sides[..i + 1][..i] == sides[..i];
    }
    assert pairs[..|pairs|] == pairs && sides[..|sides|] == sides;
  }
}
