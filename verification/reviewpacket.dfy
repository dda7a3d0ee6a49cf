/** Blind review packets, their secret keys, and the validator that recomputes both. */
module ReviewPacket {
  import opened Counting
  import opened Options
  import opened ReviewSampling
  import opened Sorting
  import opened StringOrder
  import opened Texts

  const MINIMUM_POSITION_PROBES := 2

  datatype Record = Record(
    caseId: string,
    domain: string,
    caseSha: string,
    evaluationSha: string,
    inputText: string,
    rubric: seq<string>,
    original: string,
    optimized: string)

  type Records = map<string, Record>

  function BaseId(record: Record): string {
    "case:" + record.caseSha
  }

  /** Records are filed under their own base id. */
  predicate Filed(records: Records) {
    forall id :: id in records ==> id == BaseId(records[id])
  }

  datatype Blind = Blind(reviewer: string, seed: int, key: string)

  /** The keyed digest that names an item, idealized as an injective function of what it covers. */
  datatype ItemId = ItemId(blind: Blind, caseSha: string, probe: bool)

  /** What the protocol reads off digests: the drawing order, the label coin and the listing order. */
  datatype Digests = Digests(
    rank: (int, string) -> real,
    coin: (Blind, string) -> bool,
    place: ItemId -> real)

  datatype Side = A | B

  function Reversed(side: Side): Side {
    if side.A? then B else A
  }

  datatype PublicItem = PublicItem(
    id: ItemId, inputText: string, rubric: seq<string>, outputA: string, outputB: string)

  datatype SecretItem = SecretItem(
    id: ItemId,
    caseId: string,
    domain: string,
    caseSha: string,
    evaluationSha: string,
    baseId: string,
    probe: bool,
    optimized: Side)

  // Which cases are drawn.

  function DomainsOf(records: Records): set<string> {
    set id | id in records :: records[id].domain
  }

  function IdsOf(records: Records, domain: string): set<string> {
    set id | id in records && records[id].domain == domain
  }

  function GroupOf(digests: Digests, seed: int, ids: set<string>): seq<string> {
    SortByKey(SortedKeys(ids), id => digests.rank(seed, id))
  }

  function GroupsOf(digests: Digests, seed: int, records: Records): Groups {
    map d | d in DomainsOf(records) :: GroupOf(digests, seed, IdsOf(records, d))
  }

  lemma GroupSorts(digests: Digests, seed: int, ids: set<string>)
    ensures multiset(SortedKeys(ids)) == multiset(GroupOf(digests, seed, ids))
  {
    SortSorts(SortedKeys(ids), id => digests.rank(seed, id));
    hide SortedKeys, SortByKey;
  }

  lemma GroupHolds(digests: Digests, seed: int, ids: set<string>)
    ensures NoDuplicates(GroupOf(digests, seed, ids))
    ensures forall id :: id in GroupOf(digests, seed, ids) <==> id in ids
  {
    hide GroupOf, SortedKeys, NoDuplicates;
    GroupSorts(digests, seed, ids);
    KeysDistinct(ids);
    PermutedList(SortedKeys(ids), GroupOf(digests, seed, ids));
  }

  lemma GroupsKnown(digests: Digests, seed: int, records: Records)
    ensures Known(GroupsOf(digests, seed, records), SortedKeys(DomainsOf(records)))
  {
    SortedKeysSorted(DomainsOf(records));
    hide SortedKeys, KeyLeq, GroupOf;
  }

  lemma GroupsPartition(digests: Digests, seed: int, records: Records)
    ensures Partitioned(records.Keys, GroupsOf(digests, seed, records), SortedKeys(DomainsOf(records)))
  {
    var groups, domains := GroupsOf(digests, seed, records), SortedKeys(DomainsOf(records));
    SortedKeysSorted(DomainsOf(records));
    hide SortedKeys, KeyLeq, GroupOf;
    forall d | d in groups
      ensures NoDuplicates(groups[d]) && forall id :: id in groups[d] <==> id in IdsOf(records, d)
    {
      GroupHolds(digests, seed, IdsOf(records, d));
    }
    forall p: Pick, q: Pick | GoodPick(groups, p) && GoodPick(groups, q) && CaseOf(groups, p) == CaseOf(groups, q)
      ensures p == q
    {
      assert groups[p.0][p.1] in groups[p.0] && groups[q.0][q.1] in groups[q.0];
    }
    forall p: Pick | GoodPick(groups, p) ensures CaseOf(groups, p) in records.Keys {
      assert groups[p.0][p.1] in groups[p.0];
    }
    forall id | id in records.Keys ensures exists p: Pick :: GoodPick(groups, p) && CaseOf(groups, p) == id {
      var d := records[id].domain;
      assert id in groups[d];
      var t :| 0 <= t < |groups[d]| && groups[d][t] == id;
      assert GoodPick(groups, (d, t)) && CaseOf(groups, (d, t)) == id;
    }
  }

  function Selected(digests: Digests, seed: int, records: Records, n: nat): seq<string> {
    GroupsKnown(digests, seed, records);
    Sampled(GroupsOf(digests, seed, records), SortedKeys(DomainsOf(records)), n)
  }

  lemma SelectedOk(digests: Digests, seed: int, records: Records, n: nat)
    requires n <= |records|
    ensures |Selected(digests, seed, records, n)| == n
    ensures NoDuplicates(Selected(digests, seed, records, n))
    ensures forall id :: id in Selected(digests, seed, records, n) ==> id in records
  {
    GroupsPartition(digests, seed, records);
    hide Partitioned, SortedKeys, GroupsOf, Sampled, NoDuplicates;
    assert |records.Keys| == |records|;
    SampleExact(records.Keys, GroupsOf(digests, seed, records), SortedKeys(DomainsOf(records)), n);
  }

  // Items.

  function SideFor(digests: Digests, blind: Blind, record: Record, probe: bool): Side {
    var base := if digests.coin(blind, BaseId(record)) then A else B;
    if probe then Reversed(base) else base
  }

  function SecretFor(digests: Digests, blind: Blind, record: Record, probe: bool): SecretItem {
    SecretItem(
      ItemId(blind, record.caseSha, probe), record.caseId, record.domain, record.caseSha, record.evaluationSha,
      BaseId(record), probe, SideFor(digests, blind, record, probe))
  }

  function PublicFor(digests: Digests, blind: Blind, record: Record, probe: bool): PublicItem {
    var optimizedIsA := SideFor(digests, blind, record, probe).A?;
    PublicItem(
      ItemId(blind, record.caseSha, probe), record.inputText, record.rubric,
      if optimizedIsA then record.optimized else record.original,
      if optimizedIsA then record.original else record.optimized)
  }

  /** A drawn case and whether the item is its position probe. */
  type Draw = (string, bool)

  /** Every drawn case once, then the probes of the first few. */
  function Draws(selected: seq<string>, probes: nat): seq<Draw> {
    seq(|selected|, i requires 0 <= i < |selected| => (selected[i], false))
    + seq(AtMost(probes, |selected|), i requires 0 <= i < AtMost(probes, |selected|) => (selected[i], true))
  }

  predicate DrawsKnown(records: Records, draws: seq<Draw>) {
    forall i :: 0 <= i < |draws| ==> draws[i].0 in records
  }

  function SecretsOf(digests: Digests, blind: Blind, records: Records, draws: seq<Draw>): seq<SecretItem>
    requires DrawsKnown(records, draws)
  {
    seq(|draws|, i requires 0 <= i < |draws| => SecretFor(digests, blind, records[draws[i].0], draws[i].1))
  }

  function PublicsOf(digests: Digests, blind: Blind, records: Records, draws: seq<Draw>): seq<PublicItem>
    requires DrawsKnown(records, draws)
  {
    seq(|draws|, i requires 0 <= i < |draws| => PublicFor(digests, blind, records[draws[i].0], draws[i].1))
  }

  lemma DrawsOk(selected: seq<string>, probes: nat, records: Records)
    requires NoDuplicates(selected) && forall id :: id in selected ==> id in records
    ensures DrawsKnown(records, Draws(selected, probes)) && NoDuplicates(Draws(selected, probes))
    ensures forall draw :: draw in Draws(selected, probes) ==> (draw.0, false) in Draws(selected, probes)
  {
    var draws, n := Draws(selected, probes), |selected|;
    assert forall i :: 0 <= i < n ==> draws[i] == (selected[i], false);
    assert forall i :: n <= i < |draws| ==> draws[i] == (selected[i - n], true);
    forall i | 0 <= i < |draws| ensures draws[i].0 in records && (draws[i].0, false) in draws {
      var j := if i < n then i else i - n;
      assert selected[j] in selected && draws[j] == (draws[i].0, false);
    }
  }

  /** The two lists as they are shipped, each in order of item id. */
  function ListedSecrets(digests: Digests, secrets: seq<SecretItem>): seq<SecretItem> {
    SortByKey(secrets, (item: SecretItem) => digests.place(item.id))
  }

  function ListedPublics(digests: Digests, publics: seq<PublicItem>): seq<PublicItem> {
    SortByKey(publics, (item: PublicItem) => digests.place(item.id))
  }

  function ExpectedDraws(digests: Digests, blind: Blind, records: Records, n: nat, probes: nat): seq<Draw> {
    Draws(Selected(digests, blind.seed, records, n), probes)
  }

  lemma ExpectedOk(digests: Digests, blind: Blind, records: Records, n: nat, probes: nat)
    requires n <= |records|
    ensures DrawsKnown(records, ExpectedDraws(digests, blind, records, n, probes))
    ensures NoDuplicates(ExpectedDraws(digests, blind, records, n, probes))
    ensures forall draw :: draw in ExpectedDraws(digests, blind, records, n, probes) ==>
      (draw.0, false) in ExpectedDraws(digests, blind, records, n, probes)
  {
    hide Selected, Draws, NoDuplicates;
    SelectedOk(digests, blind.seed, records, n);
    DrawsOk(Selected(digests, blind.seed, records, n), probes, records);
  }

  function ExpectedSecrets(digests: Digests, blind: Blind, records: Records, n: nat, probes: nat): seq<SecretItem>
    requires n <= |records|
  {
    ExpectedOk(digests, blind, records, n, probes);
    ListedSecrets(digests, SecretsOf(digests, blind, records, ExpectedDraws(digests, blind, records, n, probes)))
  }

  function ExpectedPublics(digests: Digests, blind: Blind, records: Records, n: nat, probes: nat): seq<PublicItem>
    requires n <= |records|
  {
    ExpectedOk(digests, blind, records, n, probes);
    ListedPublics(digests, PublicsOf(digests, blind, records, ExpectedDraws(digests, blind, records, n, probes)))
  }

  // The packet and its key.

  datatype Commitment = CommitmentTo(key: string)

  datatype PacketBody = PacketBody(
    reviewer: string, authority: string, sampleSize: int, commitment: Commitment, items: seq<PublicItem>)

  datatype PacketHash = PacketHashOf(content: PacketBody)

  datatype Packet = Packet(body: PacketBody, hash: PacketHash)

  datatype KeyBody = KeyBody(
    reviewer: string,
    authority: string,
    sampleSize: int,
    seed: int,
    probeCount: int,
    blindingKey: string,
    packetHash: PacketHash,
    items: seq<SecretItem>)

  datatype KeyHash = KeyHashOf(content: KeyBody)

  datatype Key = Key(body: KeyBody, hash: KeyHash)

  predicate RequestOk(reviewer: string, n: int, probes: int) {
    !Blank(reviewer) && n >= 1 && MINIMUM_POSITION_PROBES <= probes <= n
  }

  function PacketFor(
    digests: Digests, blind: Blind, authority: string, records: Records, n: nat, probes: nat): Packet
    requires n <= |records|
  {
    var body := PacketBody(
      blind.reviewer, authority, n, CommitmentTo(blind.key), ExpectedPublics(digests, blind, records, n, probes));
    Packet(body, PacketHashOf(body))
  }

  function KeyFor(
    digests: Digests, blind: Blind, authority: string, records: Records, n: nat, probes: nat): Key
    requires n <= |records|
  {
    var body := KeyBody(
      blind.reviewer, authority, n, blind.seed, probes, blind.key,
      PacketFor(digests, blind, authority, records, n, probes).hash,
      ExpectedSecrets(digests, blind, records, n, probes));
    Key(body, KeyHashOf(body))
  }

  /** The items of the first draws are in place. */
  ghost predicate Built(
    digests: Digests, blind: Blind, records: Records, draws: seq<Draw>, k: nat,
    publics: seq<PublicItem>, secrets: seq<SecretItem>)
  {
    && k <= |draws| && DrawsKnown(records, draws[..k])
    && publics == PublicsOf(digests, blind, records, draws[..k])
    && secrets == SecretsOf(digests, blind, records, draws[..k])
  }

  lemma BuiltNothing(digests: Digests, blind: Blind, records: Records, draws: seq<Draw>)
    ensures Built(digests, blind, records, draws, 0, [], [])
  {
  }

  lemma BuiltOneMore(
    digests: Digests, blind: Blind, records: Records, draws: seq<Draw>, k: nat,
    publics: seq<PublicItem>, secrets: seq<SecretItem>)
    requires Built(digests, blind, records, draws, k, publics, secrets) && k < |draws| && draws[k].0 in records
    ensures Built(digests, blind, records, draws, k + 1,
      publics + [PublicFor(digests, blind, records[draws[k].0], draws[k].1)],
      secrets + [SecretFor(digests, blind, records[draws[k].0], draws[k].1)])
  {
    hide PublicFor, SecretFor;
    assert draws[..k + 1] == draws[..k] + [draws[k]];
  }

  lemma BuiltAll(
    digests: Digests, blind: Blind, records: Records, n: nat, probes: nat,
    publics: seq<PublicItem>, secrets: seq<SecretItem>)
    requires n <= |records|
    requires var draws := ExpectedDraws(digests, blind, records, n, probes);
      Built(digests, blind, records, draws, |draws|, publics, secrets)
    ensures ListedPublics(digests, publics) == ExpectedPublics(digests, blind, records, n, probes)
    ensures ListedSecrets(digests, secrets) == ExpectedSecrets(digests, blind, records, n, probes)
  {
    hide ExpectedDraws, SortByKey, NoDuplicates;
    var draws := ExpectedDraws(digests, blind, records, n, probes);
    assert draws[..|draws|] == draws;
  }

  lemma DrawAt(selected: seq<string>, probes: nat, i: nat)
    requires i < |selected|
    ensures Draws(selected, probes)[i] == (selected[i], false)
    ensures |Draws(selected, probes)| == |selected| + AtMost(probes, |selected|)
    ensures i < AtMost(probes, |selected|) ==> Draws(selected, probes)[|selected| + i] == (selected[i], true)
  {
  }

  method DrawSample(digests: Digests, seed: int, records: Records, n: nat) returns (selected: seq<string>)
    ensures selected == Selected(digests, seed, records, n)
  {
    hide GroupsOf, DomainsOf, SortedKeys, Sampled;
    GroupsKnown(digests, seed, records);
    selected := RoundRobin(GroupsOf(digests, seed, records), SortedKeys(DomainsOf(records)), n);
  }

  method BuildItems(digests: Digests, blind: Blind, records: Records, selected: seq<string>, probes: nat)
    returns (publics: seq<PublicItem>, secrets: seq<SecretItem>)
    requires forall id :: id in selected ==> id in records
    ensures Built(digests, blind, records, Draws(selected, probes), |Draws(selected, probes)|, publics, secrets)
  {
    hide SecretFor, PublicFor, Draws, Built;
    ghost var draws := Draws(selected, probes);
    publics, secrets := [], [];
    BuiltNothing(digests, blind, records, draws);
    for i := 0 to |selected|
      invariant Built(digests, blind, records, draws, i, publics, secrets)
    {
      DrawAt(selected, probes, i);
      BuiltOneMore(digests, blind, records, draws, i, publics, secrets);
      var record := records[selected[i]];
      publics := publics + [PublicFor(digests, blind, record, false)];
      secrets := secrets + [SecretFor(digests, blind, record, false)];
    }
    for i := 0 to AtMost(probes, |selected|)
      invariant Built(digests, blind, records, draws, |selected| + i, publics, secrets)
    {
      DrawAt(selected, probes, i);
      BuiltOneMore(digests, blind, records, draws, |selected| + i, publics, secrets);
      var record := records[selected[i]];
      publics := publics + [PublicFor(digests, blind, record, true)];
      secrets := secrets + [SecretFor(digests, blind, record, true)];
    }
    DrawsLength(selected, probes);
  }

  /** The items of one drawing: the base items, then the reversed probes, each list in id order. */
  method ReviewItems(digests: Digests, blind: Blind, records: Records, n: nat, probes: nat)
    returns (lists: Option<(seq<PublicItem>, seq<SecretItem>)>)
    ensures lists.Some? <==> n <= |records|
    ensures lists.Some? ==>
      && lists.value.0 == ExpectedPublics(digests, blind, records, n, probes)
      && lists.value.1 == ExpectedSecrets(digests, blind, records, n, probes)
  {
    if n > |records| {
      return None;
    }
    hide Selected, Draws, Built, NoDuplicates, ExpectedPublics, ExpectedSecrets, ListedPublics, ListedSecrets;
    SelectedOk(digests, blind.seed, records, n);
    var selected := DrawSample(digests, blind.seed, records, n);
    var publics, secrets := BuildItems(digests, blind, records, selected, probes);
    BuiltAll(digests, blind, records, n, probes, publics, secrets);
    return Some((ListedPublics(digests, publics), ListedSecrets(digests, secrets)));
  }

  lemma DrawsLength(selected: seq<string>, probes: nat)
    ensures |Draws(selected, probes)| == |selected| + AtMost(probes, |selected|)
  {
  }

  method CreateReviewerPacket(
    digests: Digests, blind: Blind, authority: string, records: Records, n: int, probes: int)
    returns (created: Option<(Packet, Key)>)
    ensures created.Some? <==> RequestOk(blind.reviewer, n, probes) && n <= |records|
    ensures created.Some? ==>
      && created.value.0 == PacketFor(digests, blind, authority, records, n, probes)
      && created.value.1 == KeyFor(digests, blind, authority, records, n, probes)
  {
    if !RequestOk(blind.reviewer, n, probes) {
      return None;
    }
    var lists := ReviewItems(digests, blind, records, n, probes);
    if lists.None? {
      return None;
    }
    var packetBody := PacketBody(blind.reviewer, authority, n, CommitmentTo(blind.key), lists.value.0);
    var packet := Packet(packetBody, PacketHashOf(packetBody));
    var keyBody := KeyBody(
      blind.reviewer, authority, n, blind.seed, probes, blind.key, packet.hash, lists.value.1);
    return Some((packet, Key(keyBody, KeyHashOf(keyBody))));
  }
}
