/** The explicit-stack validator and why it agrees with the recursive specification. */
module JsonValidation {
  import opened Json
  import opened JsonGraph
  import opened Options

  datatype Frame = Frame(ref: Ref, depth: int, leaving: bool)

  datatype Outcome =
    | Valid
    | LimitInvalid
    | RootNotObject
    | TooManyNodes
    | TooDeep
    | Cyclic
    | KeyNotText
    | IntegerUnsafe
    | NotFinite
    | NotJson

  // The containers on the current root path.

  function PathOf(stack: seq<Frame>): seq<Ref> {
    if stack == [] then []
    else if stack[|stack| - 1].leaving then PathOf(stack[..|stack| - 1]) + [stack[|stack| - 1].ref]
    else PathOf(stack[..|stack| - 1])
  }

  ghost predicate IsPath(heap: Heap, path: seq<Ref>) {
    && AllIn(path, heap)
    && forall i :: 0 < i < |path| ==> path[i] in heap[path[i - 1]].Children()
  }

  /** `ref` may come next on a root path. */
  ghost predicate Follows(heap: Heap, root: Ref, path: seq<Ref>, ref: Ref) {
    && ref in heap
    && if path == [] then ref == root
       else path[|path| - 1] in heap && ref in heap[path[|path| - 1]].Children()
  }

  /** Every frame continues the root path formed by the marks below it, at the depth it says. */
  ghost predicate Arranged(heap: Heap, root: Ref, maxDepth: int, stack: seq<Frame>) {
    stack == [] ||
    var below, top := stack[..|stack| - 1], stack[|stack| - 1];
    && Arranged(heap, root, maxDepth, below)
    && Follows(heap, root, PathOf(below), top.ref)
    && top.depth == |PathOf(below)| + 1 <= maxDepth + if top.leaving then 0 else 1
  }

  lemma {:induction false} ArrangedPath(heap: Heap, root: Ref, maxDepth: int, stack: seq<Frame>)
    requires Arranged(heap, root, maxDepth, stack)
    ensures IsPath(heap, PathOf(stack))
    ensures PathOf(stack) != [] ==> PathOf(stack)[0] == root
  {
    if stack != [] {
      ArrangedPath(heap, root, maxDepth, stack[..|stack| - 1]);
    }
  }

  /** What the frames still on the stack will contribute to the node count. */
  ghost function Remaining(heap: Heap, root: Ref, maxDepth: int, stack: seq<Frame>): Option<nat>
    requires WellFormed(heap) && Arranged(heap, root, maxDepth, stack)
  {
    if stack == [] then Some(0)
    else
      var below, top := stack[..|stack| - 1], stack[|stack| - 1];
      var rest := Remaining(heap, root, maxDepth, below);
      if top.leaving then rest else Add(Weigh(heap, top.ref, maxDepth + 1 - top.depth), rest)
  }

  /** `refs[from..]` pushed in reverse, so that the first of them comes off first. */
  function Pushed(stack: seq<Frame>, refs: seq<Ref>, depth: int, from: nat): seq<Frame>
    requires from <= |refs|
    decreases |refs| - from
  {
    if from == |refs| then stack
    else Pushed(stack, refs, depth, from + 1) + [Frame(refs[from], depth, false)]
  }

  lemma {:induction false} PushedArranged(
    heap: Heap, root: Ref, maxDepth: int, stack: seq<Frame>, refs: seq<Ref>, depth: int, from: nat)
    requires WellFormed(heap) && Arranged(heap, root, maxDepth, stack) && from <= |refs|
    requires AllIn(refs, heap) && depth == |PathOf(stack)| + 1 <= maxDepth + 1
    requires forall i :: 0 <= i < |refs| ==> Follows(heap, root, PathOf(stack), refs[i])
    ensures var pushed := Pushed(stack, refs, depth, from);
      && Arranged(heap, root, maxDepth, pushed)
      && PathOf(pushed) == PathOf(stack)
      && Remaining(heap, root, maxDepth, pushed)
         == Add(WeighFrom(heap, refs, from, maxDepth + 1 - depth), Remaining(heap, root, maxDepth, stack))
    decreases |refs| - from
  {
    hide WellFormed, Follows, Weigh;
    if from < |refs| {
      PushedArranged(heap, root, maxDepth, stack, refs, depth, from + 1);
      var below := Pushed(stack, refs, depth, from + 1);
      var pushed := Pushed(stack, refs, depth, from);
      assert pushed[..|pushed| - 1] == below && pushed[|pushed| - 1] == Frame(refs[from], depth, false);
    }
  }

  // Cycles.

  lemma {:induction false} PathWeighs(heap: Heap, path: seq<Ref>, budget: nat)
    requires WellFormed(heap) && IsPath(heap, path) && path != []
    requires Weigh(heap, path[0], budget).Some?
    ensures |path| <= budget && Weigh(heap, path[|path| - 1], budget - (|path| - 1)).Some?
    decreases |path|
  {
    if |path| > 1 {
      hide WellFormed, Weigh;
      WeighChild(heap, path[0], path[1], budget);
      assert forall i :: 0 < i < |path[1..]| ==> path[1..][i - 1] == path[i];
      PathWeighs(heap, path[1..], budget - 1);
    }
  }

  ghost predicate IsCycle(heap: Heap, path: seq<Ref>) {
    IsPath(heap, path) && |path| >= 2 && path[0] == path[|path| - 1]
  }

  /** A node on a cycle has no finite unfolding, whatever the depth allowed. */
  lemma {:induction false} CycleNeverWeighs(heap: Heap, path: seq<Ref>, budget: nat)
    requires WellFormed(heap) && IsCycle(heap, path)
    ensures Weigh(heap, path[0], budget).None?
    decreases budget
  {
    hide WellFormed, Weigh;
    if Weigh(heap, path[0], budget).Some? {
      PathWeighs(heap, path, budget);
      CycleNeverWeighs(heap, path, budget - (|path| - 1));
    }
  }

  /** A cycle that can be reached from the root. */
  ghost predicate HasCycle(heap: Heap, root: Ref) {
    exists path, i ::
      0 <= i < |path| && path[0] == root && IsPath(heap, path) && IsCycle(heap, path[i..])
  }

  lemma PathSuffix(heap: Heap, path: seq<Ref>, i: nat)
    requires IsPath(heap, path) && i <= |path|
    ensures IsPath(heap, path[i..])
  {
    forall j | 0 < j < |path[i..]| ensures path[i..][j] in heap[path[i..][j - 1]].Children() {
      assert path[i + j] in heap[path[i + j - 1]].Children();
    }
  }

  lemma CycleFound(heap: Heap, root: Ref, maxDepth: int, below: seq<Frame>, ref: Ref)
    requires WellFormed(heap) && Arranged(heap, root, maxDepth, below)
    requires Follows(heap, root, PathOf(below), ref) && ref in PathOf(below)
    ensures HasCycle(heap, root)
    ensures forall budget: nat :: Weigh(heap, ref, budget).None?
  {
    ArrangedPath(heap, root, maxDepth, below);
    var path := PathOf(below) + [ref];
    assert IsPath(heap, path);
    var i :| 0 <= i < |PathOf(below)| && PathOf(below)[i] == ref;
    hide WellFormed, Weigh, Arranged, PathOf;
    PathSuffix(heap, path, i);
    assert path[i..][0] == ref && path[i..][|path| - i - 1] == ref;
    hide IsPath;
    assert IsCycle(heap, path[i..]);
    forall budget: nat {
      CycleNeverWeighs(heap, path[i..], budget);
    }
  }

  lemma CyclicDenotesNothing(heap: Heap, root: Ref, value: Json)
    requires WellFormed(heap) && root in heap && HasCycle(heap, root)
    ensures !Denotes(heap, root, value)
  {
    hide WellFormed, Weigh, Denotes, Depth, Nodes;
    var path, i :| 0 <= i < |path| && path[0] == root && IsPath(heap, path) && IsCycle(heap, path[i..]);
    if Denotes(heap, root, value) {
      DenotedWeighs(heap, root, value, Depth(value));
      assert IsPath(heap, path[..i + 1]);
      PathWeighs(heap, path[..i + 1], Depth(value));
      CycleNeverWeighs(heap, path[i..], Depth(value) - i);
    }
  }

  // The validator.

  /** The graph below the root is a finite JSON object within the limits. */
  ghost predicate Accepts(heap: Heap, root: Ref, maxDepth: int, maxNodes: int)
    requires WellFormed(heap) && root in heap
  {
    && maxDepth > 0 && maxNodes > 0
    && heap[root].DictNode?
    && exists value :: Denotes(heap, root, value) && Depth(value) <= maxDepth && Nodes(value) <= maxNodes
  }

  lemma AcceptsWeighable(heap: Heap, root: Ref, maxDepth: int, maxNodes: int)
    requires WellFormed(heap) && root in heap && maxDepth > 0 && maxNodes > 0 && heap[root].DictNode?
    ensures Accepts(heap, root, maxDepth, maxNodes) <==>
      Weigh(heap, root, maxDepth).Some? && Weigh(heap, root, maxDepth).value <= maxNodes
  {
    hide WellFormed, Weigh, Denotes, Depth, Nodes, Unfold;
    if Weigh(heap, root, maxDepth).Some? {
      WeighableDenotes(heap, root, maxDepth);
    }
    forall value | Denotes(heap, root, value) && Depth(value) <= maxDepth
      ensures Weigh(heap, root, maxDepth) == Some(Nodes(value))
    {
      DenotedWeighs(heap, root, value, maxDepth);
    }
  }

  ghost predicate Distinct(path: seq<Ref>) {
    forall i, j :: 0 <= i < j < |path| ==> path[i] != path[j]
  }

  /** The active set is always the containers on the current root path, each once. */
  ghost predicate ActiveIs(active: set<Ref>, path: seq<Ref>) {
    Distinct(path) && forall ref :: ref in active <==> ref in path
  }

  lemma ActiveGrows(active: set<Ref>, path: seq<Ref>, ref: Ref)
    requires ActiveIs(active, path) && ref !in active
    ensures ActiveIs(active + {ref}, path + [ref])
  {
  }

  lemma ActiveShrinks(active: set<Ref>, path: seq<Ref>, ref: Ref)
    requires ActiveIs(active, path + [ref])
    ensures ActiveIs(active - {ref}, path)
  {
    var longer := path + [ref];
    forall i | 0 <= i < |path| ensures path[i] != ref && path[i] in active {
      assert longer[i] == path[i] && longer[|path|] == ref;
    }
    forall i, j | 0 <= i < j < |path| ensures path[i] != path[j] {
      assert longer[i] != longer[j];
    }
  }

  ghost predicate LoopOk(
    heap: Heap, root: Ref, maxDepth: nat, stack: seq<Frame>, active: set<Ref>, nodes: nat)
    requires WellFormed(heap) && root in heap
  {
    && Arranged(heap, root, maxDepth, stack)
    && ActiveIs(active, PathOf(stack))
    && Weigh(heap, root, maxDepth) == Add(Some(nodes), Remaining(heap, root, maxDepth, stack))
  }

  lemma LeaveOk(heap: Heap, root: Ref, maxDepth: nat, stack: seq<Frame>, active: set<Ref>, nodes: nat)
    requires WellFormed(heap) && root in heap && LoopOk(heap, root, maxDepth, stack, active, nodes)
    requires stack != [] && stack[|stack| - 1].leaving
    ensures LoopOk(heap, root, maxDepth, stack[..|stack| - 1], active - {stack[|stack| - 1].ref}, nodes)
  {
    hide WellFormed, Weigh, Follows;
    ActiveShrinks(active, PathOf(stack[..|stack| - 1]), stack[|stack| - 1].ref);
    hide ActiveIs;
  }

  lemma LeafOk(heap: Heap, root: Ref, maxDepth: nat, stack: seq<Frame>, active: set<Ref>, nodes: nat)
    requires WellFormed(heap) && root in heap && LoopOk(heap, root, maxDepth, stack, active, nodes)
    requires stack != [] && !stack[|stack| - 1].leaving && stack[|stack| - 1].depth <= maxDepth
    requires !heap[stack[|stack| - 1].ref].Container() && heap[stack[|stack| - 1].ref].Legal()
    ensures LoopOk(heap, root, maxDepth, stack[..|stack| - 1], active, nodes + 1)
  {
    hide WellFormed;
    assert Weigh(heap, stack[|stack| - 1].ref, maxDepth + 1 - stack[|stack| - 1].depth) == Some(1);
    hide Weigh, Follows;
  }

  lemma MarkedArranged(heap: Heap, root: Ref, maxDepth: nat, below: seq<Frame>, top: Frame)
    requires WellFormed(heap) && Arranged(heap, root, maxDepth, below + [top])
    requires !top.leaving && top.depth <= maxDepth
    ensures top.ref in heap && top.depth >= 1
    ensures var marked := below + [Frame(top.ref, top.depth, true)];
      && Arranged(heap, root, maxDepth, below)
      && Arranged(heap, root, maxDepth, marked)
      && PathOf(below + [top]) == PathOf(below)
      && PathOf(marked) == PathOf(below) + [top.ref]
      && top.depth == |PathOf(below)| + 1
      && Remaining(heap, root, maxDepth, marked) == Remaining(heap, root, maxDepth, below)
      && Remaining(heap, root, maxDepth, below + [top])
         == Add(Weigh(heap, top.ref, maxDepth + 1 - top.depth), Remaining(heap, root, maxDepth, below))
      && (forall child :: child in heap && child in heap[top.ref].Children() ==>
            Follows(heap, root, PathOf(marked), child))
  {
    hide WellFormed, Weigh;
    var marked := below + [Frame(top.ref, top.depth, true)];
    assert marked[..|marked| - 1] == below && (below + [top])[..|below|] == below;
  }

  function Entered(heap: Heap, below: seq<Frame>, top: Frame): seq<Frame>
    requires top.ref in heap
  {
    Pushed(below + [Frame(top.ref, top.depth, true)], heap[top.ref].Children(), top.depth + 1, 0)
  }

  lemma EnterArranged(heap: Heap, root: Ref, maxDepth: nat, below: seq<Frame>, top: Frame)
    requires WellFormed(heap) && Arranged(heap, root, maxDepth, below + [top])
    requires !top.leaving && top.depth <= maxDepth && top.ref in heap && heap[top.ref].Legal()
    ensures Arranged(heap, root, maxDepth, Entered(heap, below, top))
    ensures PathOf(Entered(heap, below, top)) == PathOf(below) + [top.ref] && PathOf(below + [top]) == PathOf(below)
    ensures Remaining(heap, root, maxDepth, below + [top])
      == Add(Some(1), Remaining(heap, root, maxDepth, Entered(heap, below, top)))
  {
    hide Arranged, PathOf, Remaining, Follows, Pushed, Weigh, WeighFrom;
    var children := heap[top.ref].Children();
    assert AllIn(children, heap);
    hide WellFormed, Node.Children;
    MarkedArranged(heap, root, maxDepth, below, top);
    LegalWeighs(heap, top.ref, maxDepth + 1 - top.depth);
    PushedArranged(heap, root, maxDepth, below + [Frame(top.ref, top.depth, true)], children, top.depth + 1, 0);
  }

  lemma LegalWeighs(heap: Heap, ref: Ref, budget: nat)
    requires WellFormed(heap) && ref in heap && heap[ref].Legal() && budget > 0
    ensures AllIn(heap[ref].Children(), heap)
    ensures Weigh(heap, ref, budget) == Add(Some(1), WeighFrom(heap, heap[ref].Children(), 0, budget - 1))
  {
    hide WeighFrom;
  }

  lemma EnterOk(
    heap: Heap, root: Ref, maxDepth: nat, below: seq<Frame>, top: Frame, active: set<Ref>, nodes: nat)
    requires WellFormed(heap) && root in heap && LoopOk(heap, root, maxDepth, below + [top], active, nodes)
    requires !top.leaving && top.depth <= maxDepth && top.ref in heap && heap[top.ref].Legal()
    requires top.ref !in active
    ensures LoopOk(heap, root, maxDepth, Entered(heap, below, top), active + {top.ref}, nodes + 1)
  {
    hide WellFormed, ActiveIs, Arranged, PathOf, Remaining, Entered, Weigh, Node.Children, Node.Legal;
    EnterArranged(heap, root, maxDepth, below, top);
    ActiveGrows(active, PathOf(below), top.ref);
  }

  /** What a failed check on the top frame says about the whole graph. */
  lemma FailOk(heap: Heap, root: Ref, maxDepth: nat, stack: seq<Frame>, active: set<Ref>, nodes: nat)
    requires WellFormed(heap) && root in heap && LoopOk(heap, root, maxDepth, stack, active, nodes)
    requires stack != [] && !stack[|stack| - 1].leaving
    ensures var top := stack[|stack| - 1];
      && top.ref in heap
      && top.depth <= maxDepth + 1
      && (Weigh(heap, root, maxDepth).Some? ==>
            && Weigh(heap, top.ref, maxDepth + 1 - top.depth).Some?
            && Weigh(heap, root, maxDepth).value >= nodes + 1)
  {
    hide WellFormed, WeighFrom;
  }

  lemma CycleOk(heap: Heap, root: Ref, maxDepth: nat, stack: seq<Frame>, active: set<Ref>, nodes: nat)
    requires WellFormed(heap) && root in heap && LoopOk(heap, root, maxDepth, stack, active, nodes)
    requires stack != [] && !stack[|stack| - 1].leaving && stack[|stack| - 1].ref in active
    ensures HasCycle(heap, root) && Weigh(heap, root, maxDepth).None?
  {
    hide WellFormed, Weigh;
    FailOk(heap, root, maxDepth, stack, active, nodes);
    CycleFound(heap, root, maxDepth, stack[..|stack| - 1], stack[|stack| - 1].ref);
  }

  method PushEntries(stack: seq<Frame>, entries: seq<(Key, Ref)>, depth: int, ghost children: seq<Ref>)
    returns (pushed: seq<Frame>, textual: bool)
    requires |children| == |entries| && forall i :: 0 <= i < |entries| ==> children[i] == entries[i].1
    ensures textual <==> forall i :: 0 <= i < |entries| ==> entries[i].0.TextKey?
    ensures textual ==> pushed == Pushed(stack, children, depth, 0)
  {
    pushed := stack;
    var i := |entries|;
    while i > 0
      invariant 0 <= i <= |entries|
      invariant forall j :: i <= j < |entries| ==> entries[j].0.TextKey?
      invariant pushed == Pushed(stack, children, depth, i)
    {
      i := i - 1;
      if !entries[i].0.TextKey? {
        return pushed, false;
      }
      pushed := pushed + [Frame(entries[i].1, depth, false)];
    }
    return pushed, true;
  }

  method PushItems(stack: seq<Frame>, items: seq<Ref>, depth: int) returns (pushed: seq<Frame>)
    ensures pushed == Pushed(stack, items, depth, 0)
  {
    pushed := stack;
    var i := |items|;
    while i > 0
      invariant 0 <= i <= |items|
      invariant pushed == Pushed(stack, items, depth, i)
    {
      i := i - 1;
      pushed := pushed + [Frame(items[i], depth, false)];
    }
  }

  /** One value taken off the stack, within the depth limit: what it pushes, or why it is refused. */
  method Visit(
    heap: Heap, ghost root: Ref, ghost maxDepth: nat, below: seq<Frame>, current: Frame, active: set<Ref>,
    ghost nodes: nat) returns (outcome: Outcome, stack: seq<Frame>, path: set<Ref>)
    requires WellFormed(heap) && root in heap && LoopOk(heap, root, maxDepth, below + [current], active, nodes)
    requires !current.leaving && current.depth <= maxDepth && current.ref in heap
    ensures outcome == Valid ==> LoopOk(heap, root, maxDepth, stack, path, nodes + 1)
    ensures outcome != Valid ==> Weigh(heap, root, maxDepth).None?
    ensures outcome == Cyclic ==> HasCycle(heap, root)
  {
    hide WellFormed, Weigh, LoopOk, HasCycle, Pushed, PathOf, Arranged, Remaining;
    ghost var before := below + [current];
    assert before[..|before| - 1] == below;
    FailOk(heap, root, maxDepth, before, active, nodes);
    IllegalWeighsNothing(heap, current.ref, maxDepth + 1 - current.depth);
    stack, path := below, active;
    outcome := Valid;
    match heap[current.ref] {
      case DictNode(entries) =>
        if current.ref in active {
          CycleOk(heap, root, maxDepth, before, active, nodes);
          return Cyclic, stack, path;
        }
        var pushed, textual := PushEntries(
          below + [Frame(current.ref, current.depth, true)], entries, current.depth + 1, heap[current.ref].Children());
        if !textual {
          return KeyNotText, stack, path;
        }
        EnterOk(heap, root, maxDepth, below, current, active, nodes);
        stack, path := pushed, active + {current.ref};
      case ListNode(items) =>
        if current.ref in active {
          CycleOk(heap, root, maxDepth, before, active, nodes);
          return Cyclic, stack, path;
        }
        EnterOk(heap, root, maxDepth, below, current, active, nodes);
        path := active + {current.ref};
        stack := PushItems(below + [Frame(current.ref, current.depth, true)], items, current.depth + 1);
      case IntNode(n) =>
        if n < -MAX_SAFE_JSON_INTEGER || n > MAX_SAFE_JSON_INTEGER {
          return IntegerUnsafe, stack, path;
        }
        LeafOk(heap, root, maxDepth, before, active, nodes);
      case FloatNode(float) =>
        if float.None? {
          return NotFinite, stack, path;
        }
        LeafOk(heap, root, maxDepth, before, active, nodes);
      case ForeignNode =>
        outcome := NotJson;
      case _ =>
        LeafOk(heap, root, maxDepth, before, active, nodes);
    }
  }

  method ValidateJsonValue(heap: Heap, root: Ref, maxDepth: int, maxNodes: int) returns (outcome: Outcome)
    requires WellFormed(heap) && root in heap
    ensures outcome == Valid <==> Accepts(heap, root, maxDepth, maxNodes)
    ensures outcome == Cyclic ==> HasCycle(heap, root)
  {
    if maxDepth <= 0 || maxNodes <= 0 {
      return LimitInvalid;
    }
    if !heap[root].DictNode? {
      return RootNotObject;
    }
    AcceptsWeighable(heap, root, maxDepth, maxNodes);
    hide WellFormed, Weigh, LoopOk, Accepts, HasCycle, Arranged, PathOf, Remaining;
    var stack: seq<Frame>, active: set<Ref>, nodes := [Frame(root, 1, false)], {}, 0;
    InitialOk(heap, root, maxDepth);
    while stack != []
      invariant 0 <= nodes <= maxNodes
      invariant LoopOk(heap, root, maxDepth, stack, active, nodes)
      decreases maxNodes - nodes, |stack|
    {
      var current, below := stack[|stack| - 1], stack[..|stack| - 1];
      if current.leaving {
        LeaveOk(heap, root, maxDepth, stack, active, nodes);
        stack, active := below, active - {current.ref};
        continue;
      }
      FailOk(heap, root, maxDepth, stack, active, nodes);
      nodes := nodes + 1;
      if nodes > maxNodes {
        return TooManyNodes;
      }
      if current.depth > maxDepth {
        NoBudget(heap, current.ref);
        return TooDeep;
      }
      assert stack == below + [current];
      var refusal;
      refusal, stack, active := Visit(heap, root, maxDepth, below, current, active, nodes - 1);
      if refusal != Valid {
        return refusal;
      }
    }
    EmptyOk(heap, root, maxDepth, active, nodes);
    return Valid;
  }

  lemma InitialOk(heap: Heap, root: Ref, maxDepth: nat)
    requires WellFormed(heap) && root in heap && maxDepth > 0
    ensures LoopOk(heap, root, maxDepth, [Frame(root, 1, false)], {}, 0)
  {
    hide WellFormed, Weigh;
    var stack := [Frame(root, 1, false)];
    assert stack[..0] == [] && PathOf(stack) == [];
    assert Arranged(heap, root, maxDepth, []);
    assert Remaining(heap, root, maxDepth, stack) == Add(Weigh(heap, root, maxDepth), Some(0));
  }

  lemma EmptyOk(heap: Heap, root: Ref, maxDepth: nat, active: set<Ref>, nodes: nat)
    requires WellFormed(heap) && root in heap && LoopOk(heap, root, maxDepth, [], active, nodes)
    ensures Weigh(heap, root, maxDepth) == Some(nodes)
  {
    hide WellFormed, Weigh;
  }

  lemma NoBudget(heap: Heap, ref: Ref)
    requires WellFormed(heap) && ref in heap
    ensures Weigh(heap, ref, 0).None?
  {
  }

  lemma IllegalWeighsNothing(heap: Heap, ref: Ref, budget: nat)
    requires WellFormed(heap) && ref in heap
    ensures !heap[ref].Legal() ==> Weigh(heap, ref, budget).None?
  {
  }
}
