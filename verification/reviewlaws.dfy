/** What an accepted review packet and its key say, in terms of the records, the coin and the digests alone. */
module ReviewLaws {
  import opened Counting
  import opened ReviewPacket
  import opened ReviewSampling
  import opened ReviewValidation
  import opened Sorting
  import opened StringOrder

  // What is drawn.

  /** The records of one domain. */
  function Inside(records: Records, domain: string): set<string> {
    set id | id in records && records[id].domain == domain
  }

  /** Within each domain the drawn cases are those of the lowest rank. */
  ghost predicate LowestRanks(digests: Digests, seed: int, records: Records, drawn: set<string>)
    requires drawn <= records.Keys
  {
    forall id, other :: id in drawn && other in Inside(records, records[id].domain) - drawn ==>
      digests.rank(seed, id) <= digests.rank(seed, other)
  }

  /** No domain is more than one case ahead of another, unless the other has no case left. */
  ghost predicate Spread(records: Records, drawn: set<string>)
    requires drawn <= records.Keys
  {
    forall d, e :: d in DomainsOf(records) && e in DomainsOf(records) ==>
      || |drawn * Inside(records, d)| <= |drawn * Inside(records, e)| + 1
      || Inside(records, e) <= drawn
  }

  /** Where cases are left over for some domains only, the first ones in order of name get them. */
  ghost predicate LeftoversInOrder(records: Records, drawn: set<string>)
    requires drawn <= records.Keys
  {
    forall d, e :: d in DomainsOf(records) && e in DomainsOf(records) && d != e && Precedes(d, e) ==>
      || |drawn * Inside(records, d)| >= |drawn * Inside(records, e)|
      || Inside(records, d) <= drawn
  }

  lemma EarlierRounds(groups: Groups, domains: seq<string>, k: nat, d: string, t: nat, earlier: nat)
    requires Known(groups, domains) && k <= |AllPicks(groups, domains)|
    requires (d, t) in AllPicks(groups, domains)[..k] && earlier < t
    ensures (d, earlier) in AllPicks(groups, domains)[..k]
  {
    var r, j := PrefixShape(groups, domains, Longest(groups, domains), k);
    var row := Row(groups, domains, r);
    RoundsHave(groups, domains, r, d, t);
    RoundsHave(groups, domains, r, d, earlier);
    RowHas(groups, domains, r, d, t);
    hide Rounds, Row, Longest;
    assert (d, t) in row[..j] ==> (d, t) in row;
  }

  lemma RankedGroup(digests: Digests, seed: int, ids: set<string>, i: nat, j: nat)
    requires i <= j < |GroupOf(digests, seed, ids)|
    ensures var group := GroupOf(digests, seed, ids); digests.rank(seed, group[i]) <= digests.rank(seed, group[j])
  {
    SortSorts(SortedKeys(ids), id => digests.rank(seed, id));
    hide SortByKey, SortedKeys;
  }

  /** Where a record stands in the group of its domain. */
  lemma PlaceInGroup(digests: Digests, seed: int, records: Records, id: string) returns (t: nat)
    requires id in records
    ensures var groups := GroupsOf(digests, seed, records);
      records[id].domain in groups && t < |groups[records[id].domain]| && groups[records[id].domain][t] == id
  {
    GroupHolds(digests, seed, IdsOf(records, records[id].domain));
    hide GroupOf;
    var group := GroupsOf(digests, seed, records)[records[id].domain];
    assert id in group;
    t :| 0 <= t < |group| && group[t] == id;
  }

  lemma PickDrawn(cases: set<string>, groups: Groups, domains: seq<string>, n: nat, pick: Pick)
    requires Partitioned(cases, groups, domains) && n <= |cases| && GoodPick(groups, pick)
    ensures n <= |AllPicks(groups, domains)|
    ensures CaseOf(groups, pick) in Sampled(groups, domains, n) <==> pick in AllPicks(groups, domains)[..n]
  {
    PicksAreCases(cases, groups, domains);
    hide AllPicks, NoDuplicates;
    var all := AllPicks(groups, domains);
    var picks := all[..n];
    assert Sampled(groups, domains, n) == CasesOf(groups, picks);
    if CaseOf(groups, pick) in CasesOf(groups, picks) {
      var i :| 0 <= i < |picks| && CaseOf(groups, picks[i]) == CaseOf(groups, pick);
      assert picks[i] in all;
    }
    if pick in picks {
      var i :| 0 <= i < |picks| && picks[i] == pick;
      assert CasesOf(groups, picks)[i] == CaseOf(groups, pick);
    }
  }

  lemma DrawnPick(digests: Digests, seed: int, records: Records, n: nat, id: string, t: nat)
    requires n <= |records| && id in records
    requires var groups := GroupsOf(digests, seed, records);
      records[id].domain in groups && t < |groups[records[id].domain]| && groups[records[id].domain][t] == id
    ensures Known(GroupsOf(digests, seed, records), SortedKeys(DomainsOf(records)))
    ensures n <= |AllPicks(GroupsOf(digests, seed, records), SortedKeys(DomainsOf(records)))|
    ensures id in Selected(digests, seed, records, n) <==>
      (records[id].domain, t) in AllPicks(GroupsOf(digests, seed, records), SortedKeys(DomainsOf(records)))[..n]
  {
    var groups, domains := GroupsOf(digests, seed, records), SortedKeys(DomainsOf(records));
    GroupsPartition(digests, seed, records);
    assert |records.Keys| == |records|;
    hide GroupsOf, SortedKeys, AllPicks, NoDuplicates, Sampled, Partitioned;
    PickDrawn(records.Keys, groups, domains, n, (records[id].domain, t));
    GroupsKnown(digests, seed, records);
  }

  lemma SampleRanked(digests: Digests, seed: int, records: Records, n: nat, id: string, other: string)
    requires n <= |records| && id in records && other in records && records[id].domain == records[other].domain
    requires id in Selected(digests, seed, records, n) && other !in Selected(digests, seed, records, n)
    ensures digests.rank(seed, id) <= digests.rank(seed, other)
  {
    var t := PlaceInGroup(digests, seed, records, id);
    var later := PlaceInGroup(digests, seed, records, other);
    DrawnPick(digests, seed, records, n, id, t);
    DrawnPick(digests, seed, records, n, other, later);
    var domain := records[id].domain;
    if later < t {
      hide AllPicks, SortedKeys, GroupOf, GroupsOf;
      EarlierRounds(
        GroupsOf(digests, seed, records), SortedKeys(DomainsOf(records)), n, domain, t, later);
    } else {
      RankedGroup(digests, seed, IdsOf(records, domain), t, later);
    }
  }

  // How many are drawn of each domain.

  lemma {:induction false} DrawnOfDomain(groups: Groups, picks: seq<Pick>, d: string, own: set<string>)
    requires forall pick :: pick in picks ==> GoodPick(groups, pick) && (CaseOf(groups, pick) in own <==> pick.0 == d)
    requires NoDuplicates(CasesOf(groups, picks))
    ensures |(set id | id in CasesOf(groups, picks)) * own| == Count(picks, d)
  {
    if picks != [] {
      var init, last := picks[..|picks| - 1], picks[|picks| - 1];
      assert picks == init + [last];
      var before, all := CasesOf(groups, init), CasesOf(groups, picks);
      assert all == before + [CaseOf(groups, last)];
      AppendDistinct(before, CaseOf(groups, last));
      DrawnOfDomain(groups, init, d, own);
      hide Count, CaseOf, CasesOf, NoDuplicates;
      OneMoreMember(before, CaseOf(groups, last), own);
      CountLast(picks, d);
    } else {
      assert (set id | id in CasesOf(groups, picks)) == {};
    }
  }

  lemma OneMoreMember(before: seq<string>, last: string, own: set<string>)
    requires last !in before
    ensures |(set id | id in before + [last]) * own|
      == |(set id | id in before) * own| + if last in own then 1 else 0
  {
    var drawn, kept := (set id | id in before + [last]) * own, (set id | id in before) * own;
    var expected := if last in own then kept + {last} else kept;
    forall id ensures id in drawn <==> id in expected {
    }
    assert drawn == expected;
  }

  lemma CountLast(picks: seq<Pick>, d: string)
    requires picks != []
    ensures Count(picks, d) == Count(picks[..|picks| - 1], d) + if picks[|picks| - 1].0 == d then 1 else 0
  {
  }

  lemma CaseDomain(digests: Digests, seed: int, records: Records, pick: Pick, d: string)
    requires GoodPick(GroupsOf(digests, seed, records), pick)
    ensures CaseOf(GroupsOf(digests, seed, records), pick) in Inside(records, d) <==> pick.0 == d
  {
    GroupHolds(digests, seed, IdsOf(records, pick.0));
    hide GroupOf;
    var group := GroupsOf(digests, seed, records)[pick.0];
    assert group[pick.1] in group;
  }

  lemma SampleCounted(digests: Digests, seed: int, records: Records, n: nat, d: string)
    requires n <= |records| && d in DomainsOf(records)
    ensures var groups, domains := GroupsOf(digests, seed, records), SortedKeys(DomainsOf(records));
      && Known(groups, domains) && n <= |AllPicks(groups, domains)| && NoDuplicates(domains)
      && d in domains && |groups[d]| == |Inside(records, d)|
      && |Members(Selected(digests, seed, records, n)) * Inside(records, d)|
         == Count(AllPicks(groups, domains)[..n], d)
  {
    var groups, domains := GroupsOf(digests, seed, records), SortedKeys(DomainsOf(records));
    GroupsPartition(digests, seed, records);
    SortedKeysSorted(DomainsOf(records));
    assert |records.Keys| == |records|;
    PicksAreCases(records.Keys, groups, domains);
    GroupSize(digests, seed, records, d);
    SelectedOk(digests, seed, records, n);
    hide GroupsOf, SortedKeys, AllPicks, NoDuplicates, Count, KeyLeq, Inside;
    var all := AllPicks(groups, domains);
    var picks := all[..n];
    forall pick | pick in picks
      ensures GoodPick(groups, pick) && (CaseOf(groups, pick) in Inside(records, d) <==> pick.0 == d)
    {
      assert pick in all;
      CaseDomain(digests, seed, records, pick, d);
    }
    assert Selected(digests, seed, records, n) == CasesOf(groups, picks);
    DrawnOfDomain(groups, picks, d, Inside(records, d));
  }

  function Members(ids: seq<string>): set<string> {
    set id | id in ids
  }

  lemma GroupSize(digests: Digests, seed: int, records: Records, d: string)
    requires d in DomainsOf(records)
    ensures d in GroupsOf(digests, seed, records)
    ensures |GroupsOf(digests, seed, records)[d]| == |Inside(records, d)|
  {
    GroupHolds(digests, seed, IdsOf(records, d));
    hide GroupOf;
    var group := GroupsOf(digests, seed, records)[d];
    SetSizeTellsDuplicates(group);
    hide NoDuplicates;
    assert Inside(records, d) == set id | id in group;
  }

  lemma SampleSpread(digests: Digests, seed: int, records: Records, n: nat)
    requires n <= |records|
    ensures Members(Selected(digests, seed, records, n)) <= records.Keys
    ensures Spread(records, Members(Selected(digests, seed, records, n)))
  {
    SelectedOk(digests, seed, records, n);
    var drawn := Members(Selected(digests, seed, records, n));
    hide Selected, GroupsOf, SortedKeys, AllPicks, NoDuplicates, Count, Inside, Known;
    forall d, e | d in DomainsOf(records) && e in DomainsOf(records)
      ensures |drawn * Inside(records, d)| <= |drawn * Inside(records, e)| + 1 || Inside(records, e) <= drawn
    {
      SampleCounted(digests, seed, records, n, d);
      SampleCounted(digests, seed, records, n, e);
      Fair(GroupsOf(digests, seed, records), SortedKeys(DomainsOf(records)), n, d, e);
      if |drawn * Inside(records, e)| == |Inside(records, e)| {
        AllOfThem(drawn, Inside(records, e));
      }
    }
  }

  /** In a started round the domains come in their order. */
  lemma {:induction false} RowInOrder(groups: Groups, domains: seq<string>, r: nat, j: nat, a: nat, b: nat)
    requires Known(groups, domains) && NoDuplicates(domains) && a < b < |domains| && j <= |Row(groups, domains, r)|
    requires r < |groups[domains[a]]| && (domains[b], r) in Row(groups, domains, r)[..j]
    ensures (domains[a], r) in Row(groups, domains, r)[..j]
  {
    var row, init := Row(groups, domains, r), domains[..|domains| - 1];
    var before := Row(groups, init, r);
    if j <= |before| {
      assert row[..j] == before[..j];
      assert (domains[b], r) in before;
      RowHas(groups, init, r, domains[b], r);
      RowInOrder(groups, init, r, j, a, b);
    } else {
      assert row[..j] == row;
      RowHas(groups, domains, r, domains[a], r);
    }
  }

  lemma {:induction false} CountsPick(picks: seq<Pick>, d: string, r: nat)
    requires forall pick :: pick in picks ==> pick.1 == r
    requires Count(picks, d) <= 1
    ensures Count(picks, d) == if (d, r) in picks then 1 else 0
  {
    if picks != [] {
      var init, last := picks[..|picks| - 1], picks[|picks| - 1];
      assert picks == init + [last];
      CountsPick(init, d, r);
    }
  }

  /** How many cases of a domain are among the first `k` picks, by full rounds and the started one. */
  lemma PrefixCounts(groups: Groups, domains: seq<string>, k: nat, d: string, r: nat, j: nat)
    requires Known(groups, domains) && NoDuplicates(domains) && k <= |AllPicks(groups, domains)| && d in domains
    requires j <= |Row(groups, domains, r)|
    requires AllPicks(groups, domains)[..k] == Rounds(groups, domains, r) + Row(groups, domains, r)[..j]
    ensures Count(AllPicks(groups, domains)[..k], d)
      == AtMost(r, |groups[d]|) + if (d, r) in Row(groups, domains, r)[..j] then 1 else 0
  {
    var row := Row(groups, domains, r);
    RoundsCount(groups, domains, r, d);
    RowCount(groups, domains, r, d);
    CountConcat(Rounds(groups, domains, r), row[..j], d);
    CountPrefix(row, j, d);
    forall pick | pick in row[..j] ensures pick.1 == r {
      assert (pick.0, pick.1) in row;
      RowHas(groups, domains, r, pick.0, pick.1);
    }
    CountsPick(row[..j], d, r);
  }

  lemma EarlierNotBehind(groups: Groups, domains: seq<string>, k: nat, a: nat, b: nat)
    requires Known(groups, domains) && NoDuplicates(domains) && k <= |AllPicks(groups, domains)|
    requires a < b < |domains|
    ensures var drawn := AllPicks(groups, domains)[..k];
      Count(drawn, domains[a]) >= Count(drawn, domains[b]) || Count(drawn, domains[a]) == |groups[domains[a]]|
  {
    var r, j := PrefixShape(groups, domains, Longest(groups, domains), k);
    hide Row, Rounds, Count, Longest, NoDuplicates;
    PrefixCounts(groups, domains, k, domains[a], r, j);
    PrefixCounts(groups, domains, k, domains[b], r, j);
    if r < |groups[domains[a]]| && (domains[b], r) in Row(groups, domains, r)[..j] {
      RowInOrder(groups, domains, r, j, a, b);
    }
    forall x | x in domains && (x, r) in Row(groups, domains, r)[..j] ensures r < |groups[x]| {
      assert (x, r) in Row(groups, domains, r);
      RowHas(groups, domains, r, x, r);
    }
  }

  lemma SampleLeftovers(digests: Digests, seed: int, records: Records, n: nat)
    requires n <= |records|
    ensures Members(Selected(digests, seed, records, n)) <= records.Keys
    ensures LeftoversInOrder(records, Members(Selected(digests, seed, records, n)))
  {
    SelectedOk(digests, seed, records, n);
    var drawn := Members(Selected(digests, seed, records, n));
    hide Selected, GroupsOf, SortedKeys, AllPicks, NoDuplicates, Count, Inside, Known, Precedes;
    forall d, e | d in DomainsOf(records) && e in DomainsOf(records) && d != e && Precedes(d, e)
      ensures |drawn * Inside(records, d)| >= |drawn * Inside(records, e)| || Inside(records, d) <= drawn
    {
      SampleCounted(digests, seed, records, n, d);
      SampleCounted(digests, seed, records, n, e);
      var a, b := OrderedPositions(DomainsOf(records), d, e);
      EarlierNotBehind(GroupsOf(digests, seed, records), SortedKeys(DomainsOf(records)), n, a, b);
      if |drawn * Inside(records, d)| == |Inside(records, d)| {
        AllOfThem(drawn, Inside(records, d));
      }
    }
  }

  lemma AllOfThem(some: set<string>, all: set<string>)
    requires |some * all| == |all|
    ensures all <= some
  {
    assert all == some * all + (all - some);
  }

  // What is shipped.

  function Bases(items: seq<SecretItem>): set<string> {
    set item | item in items && !item.probe :: item.baseId
  }

  function Probed(items: seq<SecretItem>): set<string> {
    set item | item in items && item.probe :: item.baseId
  }

  /** As many cases as asked for are drawn, fairly and by rank, and as many of them are probed. */
  ghost predicate DrawnAsAsked(digests: Digests, key: Key, records: Records) {
    var drawn, probed := Bases(key.body.items), Probed(key.body.items);
    && probed <= drawn <= records.Keys
    && |drawn| == key.body.sampleSize && |probed| == key.body.probeCount
    && |key.body.items| == key.body.sampleSize + key.body.probeCount
    && LowestRanks(digests, key.body.seed, records, drawn)
    && Spread(records, drawn)
    && LeftoversInOrder(records, drawn)
  }

  /** The coin decides under which letter the optimized output of a base item is shown; its probe shows it under the
      other letter. */
  predicate Labelled(digests: Digests, key: Key, records: Records, secret: SecretItem) {
    && secret.baseId in records
    && var record := records[secret.baseId];
    && secret.id == ItemId(BlindOf(key), record.caseSha, secret.probe)
    && (secret.caseId, secret.domain, secret.caseSha, secret.evaluationSha)
       == (record.caseId, record.domain, record.caseSha, record.evaluationSha)
    && (secret.optimized == A <==> digests.coin(BlindOf(key), secret.baseId) != secret.probe)
  }

  function OutputUnder(item: PublicItem, side: Side): string {
    match side
    case A => item.outputA
    case B => item.outputB
  }

  predicate Shows(item: PublicItem, secret: SecretItem, record: Record) {
    && item.inputText == record.inputText && item.rubric == record.rubric
    && forall side: Side :: OutputUnder(item, side) == if side == secret.optimized then record.optimized else record.original
  }

  predicate InPlace(digests: Digests, packet: Packet, key: Key) {
    && |packet.body.items| == |key.body.items|
    && (forall i, j :: 0 <= i < j < |packet.body.items| ==>
          digests.place(packet.body.items[i].id) <= digests.place(packet.body.items[j].id))
    && (forall i, j :: 0 <= i < j < |key.body.items| ==>
          digests.place(key.body.items[i].id) <= digests.place(key.body.items[j].id))
  }

  ghost predicate ItemsTell(digests: Digests, packet: Packet, key: Key, records: Records) {
    && (forall secret :: secret in key.body.items ==> Labelled(digests, key, records, secret))
    && (forall item :: item in packet.body.items ==>
          exists secret :: secret in key.body.items && secret.id == item.id)
    && (forall item, secret :: item in packet.body.items && secret in key.body.items && item.id == secret.id ==>
          secret.baseId in records && Shows(item, secret, records[secret.baseId]))
  }

  lemma DrawnBases(
    digests: Digests, blind: Blind, records: Records, selected: seq<string>, probes: nat, items: seq<SecretItem>)
    requires Filed(records) && DrawsKnown(records, Draws(selected, probes)) && probes <= |selected|
    requires SecretsFrom(digests, blind, records, Draws(selected, probes), items)
    ensures Bases(items) == Members(selected) && Probed(items) == Members(selected[..probes])
  {
    var draws := Draws(selected, probes);
    forall id, probe: bool ensures
      (exists item :: item in items && item.probe == probe && item.baseId == id) <==> (id, probe) in draws
    {
      if item :| item in items && item.probe == probe && item.baseId == id {
        SecretOfDraw(digests, blind, records, draws, item, id);
      }
      if i :| 0 <= i < |draws| && draws[i] == (id, probe) {
        assert SecretFor(digests, blind, records[id], probe) in items;
      }
    }
    hide SecretsFrom, Filed, DrawsKnown;
    DrawsTell(selected, probes);
    hide Draws;
    forall id ensures id in Bases(items) <==> (id, false) in draws {
    }
    forall id ensures id in Probed(items) <==> (id, true) in draws {
    }
  }

  lemma DrawsTell(selected: seq<string>, probes: nat)
    requires probes <= |selected|
    ensures forall id :: (id, false) in Draws(selected, probes) <==> id in selected
    ensures forall id :: (id, true) in Draws(selected, probes) <==> id in selected[..probes]
    ensures |Draws(selected, probes)| == |selected| + probes
  {
    var draws := Draws(selected, probes);
    assert forall i :: 0 <= i < |selected| ==> draws[i] == (selected[i], false);
    assert forall i :: 0 <= i < probes ==> draws[|selected| + i] == (selected[i], true);
    forall id | id in selected[..probes] ensures (id, true) in draws {
      var i :| 0 <= i < probes && selected[i] == id;
      assert draws[|selected| + i] == (id, true);
    }
  }

  lemma PrefixMembers(selected: seq<string>, n: nat)
    requires NoDuplicates(selected) && n <= |selected|
    ensures |Members(selected)| == |selected| && |Members(selected[..n])| == n
    ensures Members(selected[..n]) <= Members(selected)
  {
    SetSizeTellsDuplicates(selected);
    SetSizeTellsDuplicates(selected[..n]);
  }

  lemma KeyBases(digests: Digests, packet: Packet, key: Key, authority: string, records: Records)
    requires Filed(records) && HeadersOk(packet, key, authority) && FollowsProtocol(digests, packet, key, records)
    ensures var selected := Selected(digests, key.body.seed, records, key.body.sampleSize);
      && |selected| == key.body.sampleSize >= key.body.probeCount && NoDuplicates(selected)
      && Bases(key.body.items) == Members(selected)
      && Probed(key.body.items) == Members(selected[..key.body.probeCount])
      && |key.body.items| == key.body.sampleSize + key.body.probeCount
  {
    var blind, n, probes := BlindOf(key), key.body.sampleSize, key.body.probeCount;
    var selected := Selected(digests, blind.seed, records, n);
    var draws := ExpectedDraws(digests, blind, records, n, probes);
    SelectedOk(digests, blind.seed, records, n);
    ExpectedOk(digests, blind, records, n, probes);
    SecretsListed(digests, blind, records, draws);
    hide Selected, SecretsFrom, Draws, NoDuplicates, ListedSecrets, SecretFor, Filed;
    DrawnBases(digests, blind, records, selected, probes, key.body.items);
    DrawsTell(selected, probes);
    SecretCount(digests, SecretsOf(digests, blind, records, draws));
  }

  lemma SampleLowest(digests: Digests, seed: int, records: Records, n: nat)
    requires n <= |records|
    ensures Members(Selected(digests, seed, records, n)) <= records.Keys
    ensures LowestRanks(digests, seed, records, Members(Selected(digests, seed, records, n)))
  {
    SelectedOk(digests, seed, records, n);
    hide Selected, NoDuplicates;
    var drawn := Members(Selected(digests, seed, records, n));
    forall id, other | id in drawn && other in Inside(records, records[id].domain) - drawn
      ensures digests.rank(seed, id) <= digests.rank(seed, other)
    {
      SampleRanked(digests, seed, records, n, id, other);
    }
  }

  lemma KeyDrawn(digests: Digests, packet: Packet, key: Key, authority: string, records: Records)
    requires Filed(records) && HeadersOk(packet, key, authority) && FollowsProtocol(digests, packet, key, records)
    ensures DrawnAsAsked(digests, key, records)
  {
    var selected := Selected(digests, key.body.seed, records, key.body.sampleSize);
    KeyBases(digests, packet, key, authority, records);
    hide Bases, Probed, Filed, HeadersOk, LowestRanks, Spread, LeftoversInOrder, ExpectedPublics, ExpectedSecrets, Selected, Members;
    PrefixMembers(selected, key.body.probeCount);
    SampleSpread(digests, key.body.seed, records, key.body.sampleSize);
    SampleLowest(digests, key.body.seed, records, key.body.sampleSize);
    SampleLeftovers(digests, key.body.seed, records, key.body.sampleSize);
  }

  lemma SecretCount(digests: Digests, secrets: seq<SecretItem>)
    ensures |ListedSecrets(digests, secrets)| == |secrets|
    ensures forall i, j :: 0 <= i < j < |secrets| ==>
      digests.place(ListedSecrets(digests, secrets)[i].id) <= digests.place(ListedSecrets(digests, secrets)[j].id)
  {
    SortSorts(secrets, (item: SecretItem) => digests.place(item.id));
    SameLength(secrets, ListedSecrets(digests, secrets));
    hide SortByKey;
  }

  lemma PublicCount(digests: Digests, publics: seq<PublicItem>)
    ensures |ListedPublics(digests, publics)| == |publics|
    ensures forall i, j :: 0 <= i < j < |publics| ==>
      digests.place(ListedPublics(digests, publics)[i].id) <= digests.place(ListedPublics(digests, publics)[j].id)
  {
    SortSorts(publics, (item: PublicItem) => digests.place(item.id));
    SameLength(publics, ListedPublics(digests, publics));
    hide SortByKey;
  }

  lemma ListsInPlace(digests: Digests, packet: Packet, key: Key, records: Records)
    requires FollowsProtocol(digests, packet, key, records)
    ensures InPlace(digests, packet, key)
  {
    var blind, n, probes := BlindOf(key), key.body.sampleSize, key.body.probeCount;
    var draws := ExpectedDraws(digests, blind, records, n, probes);
    ExpectedOk(digests, blind, records, n, probes);
    SecretCount(digests, SecretsOf(digests, blind, records, draws));
    PublicCount(digests, PublicsOf(digests, blind, records, draws));
    hide ExpectedDraws, ListedPublics, ListedSecrets, SecretFor, PublicFor;
  }

  lemma SecretLabelled(digests: Digests, key: Key, records: Records, draws: seq<Draw>, secret: SecretItem)
    requires Filed(records) && DrawsKnown(records, draws)
    requires FromSecretDraw(digests, BlindOf(key), records, draws, secret)
    ensures Labelled(digests, key, records, secret)
  {
    SecretOfDraw(digests, BlindOf(key), records, draws, secret, secret.baseId);
    hide FromSecretDraw;
  }

  lemma BoundShows(records: Records, item: PublicItem, secret: SecretItem)
    requires ItemBound(records, item, secret)
    ensures secret.baseId in records && Shows(item, secret, records[secret.baseId])
  {
  }

  lemma KeyLabelled(digests: Digests, packet: Packet, key: Key, records: Records)
    requires Filed(records) && FollowsProtocol(digests, packet, key, records)
    ensures forall secret :: secret in key.body.items ==> Labelled(digests, key, records, secret)
  {
    var blind, n, probes := BlindOf(key), key.body.sampleSize, key.body.probeCount;
    var draws := ExpectedDraws(digests, blind, records, n, probes);
    ExpectedOk(digests, blind, records, n, probes);
    SecretsListed(digests, blind, records, draws);
    hide ExpectedDraws, ListedPublics, ListedSecrets, NoDuplicates, FromSecretDraw, Filed, Labelled, SecretFor;
    hide ExpectedPublics;
    forall secret | secret in key.body.items ensures Labelled(digests, key, records, secret) {
      SecretLabelled(digests, key, records, draws, secret);
    }
  }

  lemma ItemsTold(digests: Digests, packet: Packet, key: Key, records: Records)
    requires Filed(records) && FollowsProtocol(digests, packet, key, records)
    ensures ItemsTell(digests, packet, key, records)
  {
    KeyLabelled(digests, packet, key, records);
    ExpectedListsPass(digests, packet, key, records);
    hide FollowsProtocol, NoDuplicates, ItemBound, PairOk, Filed, Shows, Labelled;
    forall item | item in packet.body.items ensures exists secret :: secret in key.body.items && secret.id == item.id {
      assert item.id in SecretIds(key.body.items);
    }
    forall item, secret | item in packet.body.items && secret in key.body.items && item.id == secret.id
      ensures secret.baseId in records && Shows(item, secret, records[secret.baseId])
    {
      BoundShows(records, item, secret);
    }
  }

  /** What an accepted packet and its key say. */
  lemma AcceptedPacketTells(digests: Digests, packet: Packet, key: Key, authority: string, records: Records)
    requires Filed(records) && HeadersOk(packet, key, authority) && FollowsProtocol(digests, packet, key, records)
    ensures 2 <= key.body.probeCount <= key.body.sampleSize == packet.body.sampleSize
    ensures packet.body.authority == key.body.authority == authority && packet.body.reviewer == key.body.reviewer
    ensures packet.body.commitment == CommitmentTo(key.body.blindingKey) && key.body.packetHash == packet.hash
    ensures key.hash == KeyHashOf(key.body)
    ensures DrawnAsAsked(digests, key, records)
    ensures ItemsTell(digests, packet, key, records)
    ensures InPlace(digests, packet, key)
  {
    KeyDrawn(digests, packet, key, authority, records);
    ItemsTold(digests, packet, key, records);
    ListsInPlace(digests, packet, key, records);
    hide DrawnAsAsked, ItemsTell, InPlace, FollowsProtocol, Filed;
  }

  // What the probes tell.

  /** A once and B once: the same output was preferred in both positions. */
  predicate TellsConsistent(pair: PairDecision) {
    {pair.base, pair.probe} == {ChoseA, ChoseB}
  }

  /** The same letter twice, whatever was behind it. */
  predicate TellsBias(pair: PairDecision) {
    pair == PairDecision(ChoseA, ChoseA) || pair == PairDecision(ChoseB, ChoseB)
  }

  function Consistent(pairs: seq<PairDecision>): set<int> {
    set i | 0 <= i < |pairs| && TellsConsistent(pairs[i])
  }

  function Biased(pairs: seq<PairDecision>): set<int> {
    set i | 0 <= i < |pairs| && TellsBias(pairs[i])
  }

  /** The tally counts the pairs by their letters alone. */
  lemma {:induction false} ProbesTold(pairs: seq<PairDecision>, sides: seq<Side>)
    requires |pairs| == |sides|
    ensures Tally(pairs, sides).consistent == |Consistent(pairs)|
    ensures Tally(pairs, sides).biased == |Biased(pairs)|
  {
    if pairs != [] {
      var init, last := pairs[..|pairs| - 1], pairs[|pairs| - 1];
      ProbesTold(init, sides[..|sides| - 1]);
      PairTold(last, sides[|sides| - 1]);
      hide SameVerdict, SamePosition, TellsConsistent, TellsBias;
      forall i ensures i in Consistent(pairs) <==> i in Consistent(init) || (i == |init| && TellsConsistent(last)) {
        assert 0 <= i < |init| ==> init[i] == pairs[i];
      }
      forall i ensures i in Biased(pairs) <==> i in Biased(init) || (i == |init| && TellsBias(last)) {
        assert 0 <= i < |init| ==> init[i] == pairs[i];
      }
      OneMoreIndex(Consistent(init), Consistent(pairs), |init|, TellsConsistent(last));
      OneMoreIndex(Biased(init), Biased(pairs), |init|, TellsBias(last));
    }
  }

  lemma PairTold(pair: PairDecision, side: Side)
    ensures SameVerdict(pair, side) <==> TellsConsistent(pair)
    ensures SamePosition(pair) <==> TellsBias(pair)
  {
  }
}
