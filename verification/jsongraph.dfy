/** Validation of an object graph, possibly shared or cyclic, by an explicit stack. */
module JsonGraph {
  import opened Json
  import opened JsonNumbers
  import opened Options

  /** An object's identity. */
  type Ref = nat

  /** A dictionary's key: a text, or any other hashable object. */
  datatype Key = TextKey(text: string) | OtherKey(id: nat)

  /** A float that is infinite or not a number has no text. */
  datatype Node =
    | DictNode(entries: seq<(Key, Ref)>)
    | ListNode(items: seq<Ref>)
    | IntNode(n: int)
    | FloatNode(float: Option<Float>)
    | TextNode(text: string)
    | BoolNode(b: bool)
    | NullNode
    | ForeignNode
  {
    function Children(): seq<Ref> {
      match this
      case DictNode(entries) => seq(|entries|, i requires 0 <= i < |entries| => entries[i].1)
      case ListNode(items) => items
      case _ => []
    }

    predicate Container() {
      DictNode? || ListNode?
    }

    /** No restriction of JSON is violated by this node alone. */
    predicate Legal() {
      match this
      case DictNode(entries) => forall i :: 0 <= i < |entries| ==> entries[i].0.TextKey?
      case IntNode(n) => -MAX_SAFE_JSON_INTEGER <= n <= MAX_SAFE_JSON_INTEGER
      case FloatNode(float) => float.Some?
      case ForeignNode => false
      case _ => true
    }
  }

  /** A finite heap: references lead to nodes, and the keys of one dictionary differ. */
  type Heap = map<Ref, Node>

  predicate WellFormed(heap: Heap) {
    forall ref :: ref in heap ==>
      && (forall i :: 0 <= i < |heap[ref].Children()| ==> heap[ref].Children()[i] in heap)
      && (heap[ref].DictNode? ==> forall i, j :: 0 <= i < j < |heap[ref].entries| ==>
            heap[ref].entries[i].0 != heap[ref].entries[j].0)
  }

  // The recursive specification: which value, if any, the graph denotes.

  /** The graph below `ref`, unfolded into a tree, is finite and is `value`. */
  ghost predicate Denotes(heap: Heap, ref: Ref, value: Json)
    requires WellFormed(heap) && ref in heap
    decreases value
  {
    var node := heap[ref];
    && node.Legal()
    && match node
       case DictNode(entries) =>
         && value.JObject?
         && value.members.Keys == KeyTexts(entries)
         && forall i :: 0 <= i < |entries| ==>
              Denotes(heap, node.Children()[i], value.members[entries[i].0.text])
       case ListNode(items) =>
         && value.JArray?
         && |value.items| == |items|
         && forall i :: 0 <= i < |items| ==> Denotes(heap, node.Children()[i], value.items[i])
       case IntNode(n) => value == JInt(n)
       case FloatNode(float) => value == JFloat(float.value)
       case TextNode(text) => value == JString(text)
       case BoolNode(b) => value == JBool(b)
       case NullNode => value == JNull
       case ForeignNode => false
  }

  function KeyTexts(entries: seq<(Key, Ref)>): set<string> {
    set i | 0 <= i < |entries| && entries[i].0.TextKey? :: entries[i].0.text
  }

  // The number of nodes of the tree below a reference, when it is legal and not too deep.

  function Add(a: Option<nat>, b: Option<nat>): (sum: Option<nat>)
    ensures sum.Some? <==> a.Some? && b.Some?
    ensures sum.Some? ==> sum.value == a.value + b.value
  {
    if a.Some? && b.Some? then Some(a.value + b.value) else None
  }

  ghost function Weigh(heap: Heap, ref: Ref, budget: nat): Option<nat>
    requires WellFormed(heap) && ref in heap
    decreases budget, 1, 0
  {
    if budget == 0 || !heap[ref].Legal() then None
    else Add(Some(1), WeighFrom(heap, heap[ref].Children(), 0, budget - 1))
  }

  ghost predicate AllIn(refs: seq<Ref>, heap: Heap) {
    forall i :: 0 <= i < |refs| ==> refs[i] in heap
  }

  ghost function WeighFrom(heap: Heap, refs: seq<Ref>, from: nat, budget: nat): Option<nat>
    requires WellFormed(heap) && AllIn(refs, heap) && from <= |refs|
    decreases budget, 2, |refs| - from
  {
    if from == |refs| then Some(0)
    else Add(Weigh(heap, refs[from], budget), WeighFrom(heap, refs, from + 1, budget))
  }

  lemma {:induction false} WeighFromSome(heap: Heap, refs: seq<Ref>, from: nat, budget: nat, i: nat)
    requires WellFormed(heap) && AllIn(refs, heap) && from <= i < |refs|
    requires WeighFrom(heap, refs, from, budget).Some?
    ensures Weigh(heap, refs[i], budget).Some?
    decreases |refs| - from
  {
    hide Weigh, WellFormed;
    if from < i {
      WeighFromSome(heap, refs, from + 1, budget, i);
    }
  }

  lemma WeighChild(heap: Heap, ref: Ref, child: Ref, budget: nat)
    requires WellFormed(heap) && ref in heap && child in heap[ref].Children()
    requires Weigh(heap, ref, budget).Some?
    ensures budget > 0 && child in heap && Weigh(heap, child, budget - 1).Some?
  {
    var i :| 0 <= i < |heap[ref].Children()| && heap[ref].Children()[i] == child;
    WeighFromSome(heap, heap[ref].Children(), 0, budget - 1, i);
  }

  // The value that a weighable graph denotes.

  ghost function EntryAt(entries: seq<(Key, Ref)>, text: string): (i: nat)
    requires text in KeyTexts(entries)
    ensures i < |entries| && entries[i].0 == TextKey(text)
  {
    var i :| 0 <= i < |entries| && entries[i].0 == TextKey(text);
    i
  }

  ghost function Unfold(heap: Heap, ref: Ref, budget: nat): Json
    requires WellFormed(heap) && ref in heap && Weigh(heap, ref, budget).Some?
    decreases budget
  {
    var node := heap[ref];
    match node
    case DictNode(entries) =>
      JObject(map text | text in KeyTexts(entries) ::
        var child := node.Children()[EntryAt(entries, text)];
        WeighChild(heap, ref, child, budget);
        Unfold(heap, child, budget - 1))
    case ListNode(items) =>
      JArray(seq(|items|, i requires 0 <= i < |items| =>
        WeighChild(heap, ref, items[i], budget);
        Unfold(heap, items[i], budget - 1)))
    case IntNode(n) => JInt(n)
    case FloatNode(float) => JFloat(float.value)
    case TextNode(text) => JString(text)
    case BoolNode(b) => JBool(b)
    case _ => JNull
  }

  function TextsFrom(entries: seq<(Key, Ref)>, from: nat): set<string> {
    set i | from <= i < |entries| && entries[i].0.TextKey? :: entries[i].0.text
  }

  predicate TextKeysDiffer(entries: seq<(Key, Ref)>) {
    && (forall i :: 0 <= i < |entries| ==> entries[i].0.TextKey?)
    && (forall i, j :: 0 <= i < j < |entries| ==> entries[i].0 != entries[j].0)
  }

  lemma TextsFromStep(entries: seq<(Key, Ref)>, from: nat)
    requires TextKeysDiffer(entries) && from < |entries|
    ensures TextsFrom(entries, from) - {entries[from].0.text} == TextsFrom(entries, from + 1)
    ensures entries[from].0.text in TextsFrom(entries, from)
  {
  }

  lemma TextsFromIn(entries: seq<(Key, Ref)>, from: nat)
    requires TextKeysDiffer(entries)
    ensures TextsFrom(entries, from) <= KeyTexts(entries)
    ensures forall i :: 0 <= i < |entries| ==> entries[i].0.TextKey? && entries[i].0.text in KeyTexts(entries)
  {
  }

  lemma NoTextsLeft(entries: seq<(Key, Ref)>, value: Json)
    requires value.JObject?
    ensures TextsFrom(entries, |entries|) == {} && MemberNodes(value, {}) == 0
  {
  }

  lemma {:induction false} ItemsWeigh(heap: Heap, items: seq<Ref>, from: nat, budget: nat, value: Json)
    requires WellFormed(heap) && AllIn(items, heap) && from <= |items|
    requires value.JArray? && |value.items| == |items|
    requires forall i :: from <= i < |items| ==> Weigh(heap, items[i], budget) == Some(Nodes(value.items[i]))
    ensures WeighFrom(heap, items, from, budget) == Some(ItemNodes(value, from))
    decreases |items| - from
  {
    hide WellFormed, Weigh, Nodes;
    if from < |items| {
      ItemsWeigh(heap, items, from + 1, budget, value);
    }
  }

  lemma {:induction false} MembersWeigh(
    heap: Heap, entries: seq<(Key, Ref)>, refs: seq<Ref>, from: nat, budget: nat, value: Json)
    requires WellFormed(heap) && AllIn(refs, heap) && from <= |refs| == |entries|
    requires TextKeysDiffer(entries) && value.JObject? && value.members.Keys == KeyTexts(entries)
    requires forall i :: from <= i < |refs| ==>
      Weigh(heap, refs[i], budget) == Some(Nodes(value.members[entries[i].0.text]))
    ensures WeighFrom(heap, refs, from, budget) == Some(MemberNodes(value, TextsFrom(entries, from)))
    decreases |refs| - from
  {
    hide WellFormed, Weigh, Nodes, TextsFrom, MemberNodes, TextKeysDiffer;
    TextsFromIn(entries, from);
    if from == |refs| {
      NoTextsLeft(entries, value);
    } else {
      MembersWeigh(heap, entries, refs, from + 1, budget, value);
      TextsFromStep(entries, from);
      MemberNodesRemove(value, TextsFrom(entries, from), entries[from].0.text);
    }
  }

  lemma EntriesDiffer(heap: Heap, ref: Ref)
    requires WellFormed(heap) && ref in heap && heap[ref].DictNode? && heap[ref].Legal()
    ensures TextKeysDiffer(heap[ref].entries)
    ensures KeyTexts(heap[ref].entries) == TextsFrom(heap[ref].entries, 0)
    ensures AllIn(heap[ref].Children(), heap)
  {
  }

  lemma EntryOf(entries: seq<(Key, Ref)>, i: nat)
    requires TextKeysDiffer(entries) && i < |entries|
    ensures entries[i].0.text in KeyTexts(entries) && EntryAt(entries, entries[i].0.text) == i
  {
  }

  // Each kind of container, given what is known of its children.

  ghost predicate MatchesDict(heap: Heap, ref: Ref, value: Json)
    requires ref in heap
  {
    && heap[ref].DictNode? && heap[ref].Legal()
    && value.JObject? && value.members.Keys == KeyTexts(heap[ref].entries)
  }

  ghost function MemberOf(heap: Heap, ref: Ref, value: Json, i: nat): Json
    requires ref in heap && MatchesDict(heap, ref, value) && i < |heap[ref].entries|
  {
    value.members[heap[ref].entries[i].0.text]
  }

  lemma DictWeighs(heap: Heap, ref: Ref, value: Json, budget: nat)
    requires WellFormed(heap) && ref in heap && MatchesDict(heap, ref, value)
    requires forall i :: 0 <= i < |heap[ref].entries| ==>
      Weigh(heap, heap[ref].Children()[i], budget) == Some(Nodes(MemberOf(heap, ref, value, i)))
    ensures Weigh(heap, ref, budget + 1) == Some(Nodes(value))
  {
    EntriesDiffer(heap, ref);
    var entries, children := heap[ref].entries, heap[ref].Children();
    assert |children| == |entries|;
    forall i | 0 <= i < |children|
      ensures Weigh(heap, children[i], budget) == Some(Nodes(value.members[entries[i].0.text]))
    {
      assert MemberOf(heap, ref, value, i) == value.members[entries[i].0.text];
    }
    hide WellFormed;
    MembersWeigh(heap, entries, children, 0, budget, value);
  }

  lemma ListWeighs(heap: Heap, ref: Ref, value: Json, budget: nat)
    requires WellFormed(heap) && ref in heap && heap[ref].ListNode? && AllIn(heap[ref].items, heap)
    requires value.JArray? && |value.items| == |heap[ref].items|
    requires forall i :: 0 <= i < |heap[ref].items| ==>
      Weigh(heap, heap[ref].items[i], budget) == Some(Nodes(value.items[i]))
    ensures Weigh(heap, ref, budget + 1) == Some(Nodes(value))
  {
    ItemsWeigh(heap, heap[ref].items, 0, budget, value);
  }

  lemma DictDepth(heap: Heap, ref: Ref, value: Json, d: nat)
    requires WellFormed(heap) && ref in heap && MatchesDict(heap, ref, value)
    ensures Depth(value) <= d + 1 <==>
      forall i :: 0 <= i < |heap[ref].entries| ==> Depth(MemberOf(heap, ref, value, i)) <= d
  {
    EntriesDiffer(heap, ref);
    DeepestMemberBound(value, value.members.Keys, d);
    hide WellFormed;
    var entries := heap[ref].entries;
    if forall i :: 0 <= i < |entries| ==> Depth(MemberOf(heap, ref, value, i)) <= d {
      forall key | key in value.members.Keys ensures Depth(value.members[key]) <= d {
        var i := EntryAt(entries, key);
        assert MemberOf(heap, ref, value, i) == value.members[key];
      }
    } else {
      var i :| 0 <= i < |entries| && Depth(MemberOf(heap, ref, value, i)) > d;
      EntryOf(entries, i);
      assert MemberOf(heap, ref, value, i) == value.members[entries[i].0.text];
    }
  }

  lemma ListDepth(value: Json, d: nat)
    requires value.JArray?
    ensures Depth(value) <= d + 1 <==> forall i :: 0 <= i < |value.items| ==> Depth(value.items[i]) <= d
  {
    DeepestItemBound(value, 0, d);
  }

  lemma UnfoldDict(heap: Heap, ref: Ref, budget: nat)
    requires WellFormed(heap) && ref in heap && heap[ref].DictNode? && Weigh(heap, ref, budget).Some?
    ensures budget > 0 && MatchesDict(heap, ref, Unfold(heap, ref, budget))
    ensures forall i :: 0 <= i < |heap[ref].entries| ==>
      && heap[ref].Children()[i] in heap
      && Weigh(heap, heap[ref].Children()[i], budget - 1).Some?
      && MemberOf(heap, ref, Unfold(heap, ref, budget), i) == Unfold(heap, heap[ref].Children()[i], budget - 1)
  {
    EntriesDiffer(heap, ref);
    forall i | 0 <= i < |heap[ref].entries|
      ensures heap[ref].Children()[i] in heap
      ensures Weigh(heap, heap[ref].Children()[i], budget - 1).Some?
      ensures MemberOf(heap, ref, Unfold(heap, ref, budget), i) == Unfold(heap, heap[ref].Children()[i], budget - 1)
    {
      WeighChild(heap, ref, heap[ref].Children()[i], budget);
      EntryOf(heap[ref].entries, i);
    }
  }

  lemma UnfoldList(heap: Heap, ref: Ref, budget: nat)
    requires WellFormed(heap) && ref in heap && heap[ref].ListNode? && Weigh(heap, ref, budget).Some?
    ensures AllIn(heap[ref].items, heap)
    ensures var value, items := Unfold(heap, ref, budget), heap[ref].items;
      && budget > 0 && value.JArray? && |value.items| == |items|
      && forall i :: 0 <= i < |items| ==>
           && items[i] in heap
           && Weigh(heap, items[i], budget - 1).Some?
           && value.items[i] == Unfold(heap, items[i], budget - 1)
  {
    forall i | 0 <= i < |heap[ref].items|
      ensures heap[ref].items[i] in heap && Weigh(heap, heap[ref].items[i], budget - 1).Some?
    {
      WeighChild(heap, ref, heap[ref].items[i], budget);
    }
  }

  lemma DictDenotes(heap: Heap, ref: Ref, value: Json)
    requires WellFormed(heap) && ref in heap && MatchesDict(heap, ref, value)
    requires forall i :: 0 <= i < |heap[ref].entries| ==>
      heap[ref].Children()[i] in heap && Denotes(heap, heap[ref].Children()[i], MemberOf(heap, ref, value, i))
    ensures Denotes(heap, ref, value)
  {
    forall i | 0 <= i < |heap[ref].entries|
      ensures Denotes(heap, heap[ref].Children()[i], value.members[heap[ref].entries[i].0.text])
    {
      assert MemberOf(heap, ref, value, i) == value.members[heap[ref].entries[i].0.text];
    }
  }

  lemma ListDenotes(heap: Heap, ref: Ref, value: Json)
    requires WellFormed(heap) && ref in heap && heap[ref].ListNode? && AllIn(heap[ref].items, heap)
    requires value.JArray? && |value.items| == |heap[ref].items|
    requires forall i :: 0 <= i < |heap[ref].items| ==> Denotes(heap, heap[ref].items[i], value.items[i])
    ensures Denotes(heap, ref, value)
  {
    assert heap[ref].Children() == heap[ref].items;
  }

  lemma LeafDenotes(heap: Heap, ref: Ref, budget: nat)
    requires WellFormed(heap) && ref in heap && !heap[ref].Container() && Weigh(heap, ref, budget).Some?
    ensures Denotes(heap, ref, Unfold(heap, ref, budget)) && Depth(Unfold(heap, ref, budget)) <= budget
    ensures Weigh(heap, ref, budget) == Some(Nodes(Unfold(heap, ref, budget)))
  {
  }

  /** A weighable graph denotes the value it unfolds to, and the weight is that value's size. */
  lemma {:induction false} WeighableDenotes(heap: Heap, ref: Ref, budget: nat)
    requires WellFormed(heap) && ref in heap && Weigh(heap, ref, budget).Some?
    ensures Denotes(heap, ref, Unfold(heap, ref, budget)) && Depth(Unfold(heap, ref, budget)) <= budget
    ensures Weigh(heap, ref, budget) == Some(Nodes(Unfold(heap, ref, budget)))
    decreases budget
  {
    hide WellFormed, Weigh, Unfold, Depth, Nodes, Denotes, Node.Legal;
    var node, value := heap[ref], Unfold(heap, ref, budget);
    if node.DictNode? {
      UnfoldDict(heap, ref, budget);
      forall i | 0 <= i < |node.entries|
        ensures Weigh(heap, node.Children()[i], budget - 1) == Some(Nodes(MemberOf(heap, ref, value, i)))
        ensures Depth(MemberOf(heap, ref, value, i)) <= budget - 1
        ensures Denotes(heap, node.Children()[i], MemberOf(heap, ref, value, i))
      {
        WeighableDenotes(heap, node.Children()[i], budget - 1);
      }
      DictWeighs(heap, ref, value, budget - 1);
      DictDepth(heap, ref, value, budget - 1);
      DictDenotes(heap, ref, value);
    } else if node.ListNode? {
      UnfoldList(heap, ref, budget);
      forall i | 0 <= i < |node.items|
        ensures Weigh(heap, node.items[i], budget - 1) == Some(Nodes(value.items[i]))
        ensures Depth(value.items[i]) <= budget - 1 && Denotes(heap, node.items[i], value.items[i])
      {
        WeighableDenotes(heap, node.items[i], budget - 1);
      }
      ListWeighs(heap, ref, value, budget - 1);
      ListDepth(value, budget - 1);
      ListDenotes(heap, ref, value);
    } else {
      LeafDenotes(heap, ref, budget);
    }
  }

  lemma DeepEnough(value: Json)
    ensures Depth(value) >= 1
  {
  }

  lemma DenotesDict(heap: Heap, ref: Ref, value: Json)
    requires WellFormed(heap) && ref in heap && heap[ref].DictNode? && Denotes(heap, ref, value)
    ensures MatchesDict(heap, ref, value)
    ensures forall i :: 0 <= i < |heap[ref].entries| ==>
      heap[ref].Children()[i] in heap && Denotes(heap, heap[ref].Children()[i], MemberOf(heap, ref, value, i))
  {
  }

  lemma DenotesList(heap: Heap, ref: Ref, value: Json)
    requires WellFormed(heap) && ref in heap && heap[ref].ListNode? && Denotes(heap, ref, value)
    ensures AllIn(heap[ref].items, heap)
    ensures value.JArray? && |value.items| == |heap[ref].items|
    ensures forall i :: 0 <= i < |heap[ref].items| ==> Denotes(heap, heap[ref].items[i], value.items[i])
  {
    assert heap[ref].Children() == heap[ref].items;
  }

  lemma LeafWeighs(heap: Heap, ref: Ref, value: Json, budget: nat)
    requires WellFormed(heap) && ref in heap && !heap[ref].Container() && Denotes(heap, ref, value)
    requires budget > 0
    ensures Weigh(heap, ref, budget) == Some(Nodes(value))
  {
  }

  /** A denoted value weighs its own size under any budget it fits. */
  lemma {:induction false} DenotedWeighs(heap: Heap, ref: Ref, value: Json, budget: nat)
    requires WellFormed(heap) && ref in heap && Denotes(heap, ref, value) && Depth(value) <= budget
    ensures Weigh(heap, ref, budget) == Some(Nodes(value))
    decreases budget
  {
    DeepEnough(value);
    hide WellFormed, Weigh, Depth, Nodes, Denotes;
    var node := heap[ref];
    if node.DictNode? {
      DenotesDict(heap, ref, value);
      DictDepth(heap, ref, value, budget - 1);
      forall i | 0 <= i < |node.entries|
        ensures Weigh(heap, node.Children()[i], budget - 1) == Some(Nodes(MemberOf(heap, ref, value, i)))
      {
        DenotedWeighs(heap, node.Children()[i], MemberOf(heap, ref, value, i), budget - 1);
      }
      DictWeighs(heap, ref, value, budget - 1);
    } else if node.ListNode? {
      DenotesList(heap, ref, value);
      ListDepth(value, budget - 1);
      forall i | 0 <= i < |node.items|
        ensures Weigh(heap, node.items[i], budget - 1) == Some(Nodes(value.items[i]))
      {
        DenotedWeighs(heap, node.items[i], value.items[i], budget - 1);
      }
      ListWeighs(heap, ref, value, budget - 1);
    } else {
      LeafWeighs(heap, ref, value, budget);
    }
  }

  /** A graph denotes at most one value, however it shares its parts. */
  lemma {:induction false} DenotesUnique(heap: Heap, ref: Ref, a: Json, b: Json)
    requires WellFormed(heap) && ref in heap && Denotes(heap, ref, a) && Denotes(heap, ref, b)
    ensures a == b
    decreases Depth(a)
  {
    var node := heap[ref];
    if node.DictNode? {
      DenotesDict(heap, ref, a);
      DenotesDict(heap, ref, b);
      DeepEnough(a);
      hide WellFormed, Denotes, Depth, Node.Legal;
      DictDepth(heap, ref, a, Depth(a) - 1);
      forall key | key in a.members.Keys ensures a.members[key] == b.members[key] {
        var i := EntryAt(node.entries, key);
        DenotesUnique(heap, node.Children()[i], MemberOf(heap, ref, a, i), MemberOf(heap, ref, b, i));
      }
      assert a.members == b.members;
    } else if node.ListNode? {
      DenotesList(heap, ref, a);
      DenotesList(heap, ref, b);
      DeepEnough(a);
      hide WellFormed, Denotes, Depth, Node.Legal;
      ListDepth(a, Depth(a) - 1);
      forall i | 0 <= i < |node.items| ensures a.items[i] == b.items[i] {
        DenotesUnique(heap, node.items[i], a.items[i], b.items[i]);
      }
      assert a.items == b.items;
    }
  }
}
