/** The size-balanced priority heap of loc_util.

    A heap is modelled twice.  `Tree` is the value of the pointer structure, each node with
    the size it caches, and `PushTree`, `PopTree` and `RemoveFrom` say what one operation does
    to that value.  The classes `LocHeapNode` and `LocHeap` are the pointer structure itself;
    every method is proved to do to its `tree` what the function says.  The properties of the
    heap are then proved about the functions. */
module LocHeap {
  import opened Wrappers

  /** The client's object.  `ranks` is a total preorder, given here by an integer key; two
      different objects may rank equally, and an object is identified by its address. */
  class LocRankable {
    const rank: int

    constructor (rank: int)
      ensures this.rank == rank
    {
      this.rank := rank;
    }

    predicate OutRanks(other: LocRankable) {
      rank > other.rank
    }
  }

  // ---------- The value of a heap ----------

  datatype Tree = Empty | Node(size: int, left: Tree, data: LocRankable, right: Tree)

  function Single(d: LocRankable): Tree {
    Node(1, Empty, d, Empty)
  }

  function High(x: LocRankable, d: LocRankable): LocRankable {
    if d.OutRanks(x) then d else x
  }

  function Low(x: LocRankable, d: LocRankable): LocRankable {
    if d.OutRanks(x) then x else d
  }

  /** Which side a new element goes to: an empty one, the left one first, or else the one with
      the smaller cached size. */
  predicate GoesLeft(l: Tree, r: Tree) {
    l.Empty? || (r.Node? && l.size <= r.size)
  }

  /** LocHeap::push and LocHeapNode::push: a node keeps the higher ranking element and sends
      the other one down. */
  function PushTree(t: Tree, d: LocRankable): Tree {
    match t
    case Empty => Single(d)
    case Node(n, l, x, r) =>
      if GoesLeft(l, r) then Node(n + 1, PushTree(l, Low(x, d)), High(x, d), r)
      else Node(n + 1, l, High(x, d), PushTree(r, Low(x, d)))
  }

  /** Which subtree gives up its top when the top of a node is popped. */
  predicate TakesLeft(l: Tree, r: Tree)
    requires l.Node? || r.Node?
  {
    l.Node? && (r.Empty? || l.data.OutRanks(r.data))
  }

  /** LocHeapNode::pop: what is left after the top element has gone. */
  function PopTree(t: Tree): Tree
    requires t.Node?
  {
    if t.left.Empty? && t.right.Empty? then Empty
    else if TakesLeft(t.left, t.right) then Node(t.size - 1, PopTree(t.left), t.left.data, t.right)
    else Node(t.size - 1, t.left, t.right.data, PopTree(t.right))
  }

  /** LocHeapNode::remove: None when the search fails.  The search does not enter a subtree
      whose top the element outranks. */
  function RemoveFrom(t: Tree, d: LocRankable): Option<Tree> {
    if t.Empty? then None
    else if t.data == d then Some(PopTree(t))
    else if d.OutRanks(t.data) then None
    else
      match RemoveFrom(t.left, d)
      case Some(l) => Some(Node(t.size - 1, l, t.data, t.right))
      case None =>
        match RemoveFrom(t.right, d)
        case Some(r) => Some(Node(t.size - 1, t.left, t.data, r))
        case None => None
  }

  // ---------- What a heap should be ----------

  function Count(t: Tree): nat {
    match t
    case Empty => 0
    case Node(_, l, _, r) => Count(l) + 1 + Count(r)
  }

  function Bag(t: Tree): multiset<LocRankable> {
    match t
    case Empty => multiset{}
    case Node(_, l, x, r) => Bag(l) + multiset{x} + Bag(r)
  }

  /** Every cached size is the number of nodes below and including the node. */
  predicate SizesExact(t: Tree) {
    t.Node? ==> t.size == Count(t) && SizesExact(t.left) && SizesExact(t.right)
  }

  predicate TopAtMost(t: Tree, d: LocRankable) {
    t.Node? ==> !t.data.OutRanks(d)
  }

  /** No child outranks its parent. */
  predicate HeapOrdered(t: Tree) {
    t.Node? ==>
      && TopAtMost(t.left, t.data) && TopAtMost(t.right, t.data)
      && HeapOrdered(t.left) && HeapOrdered(t.right)
  }

  predicate Sound(t: Tree) {
    SizesExact(t) && HeapOrdered(t)
  }

  /** No element of the bag outranks d. */
  ghost predicate Dominates(d: LocRankable, bag: multiset<LocRankable>) {
    forall x :: x in bag ==> !x.OutRanks(d)
  }

  lemma {:induction false} BagSize(t: Tree)
    ensures |Bag(t)| == Count(t)
  {
    if t.Node? {
      BagSize(t.left);
      BagSize(t.right);
    }
  }

  lemma {:induction false} TopDominates(t: Tree, d: LocRankable)
    requires HeapOrdered(t) && TopAtMost(t, d)
    ensures Dominates(d, Bag(t))
  {
    if t.Node? {
      TopDominates(t.left, d);
      TopDominates(t.right, d);
    }
  }

  // ---------- One operation at a time ----------

  lemma {:induction false} PushSizes(t: Tree, d: LocRankable)
    requires SizesExact(t)
    ensures PushTree(t, d).Node? && SizesExact(PushTree(t, d))
    ensures Count(PushTree(t, d)) == Count(t) + 1
  {
    if t.Node? {
      PushSizes(t.left, Low(t.data, d));
      PushSizes(t.right, Low(t.data, d));
    }
  }

  lemma {:induction false} PushOrder(t: Tree, d: LocRankable)
    requires HeapOrdered(t)
    ensures HeapOrdered(PushTree(t, d))
    ensures PushTree(t, d).data == if t.Empty? then d else High(t.data, d)
  {
    if t.Node? {
      PushOrder(t.left, Low(t.data, d));
      PushOrder(t.right, Low(t.data, d));
    }
  }

  lemma {:induction false} PushBag(t: Tree, d: LocRankable)
    ensures Bag(PushTree(t, d)) == Bag(t) + multiset{d}
  {
    if t.Node? {
      var low, high := Low(t.data, d), High(t.data, d);
      assert multiset{high} + multiset{low} == multiset{t.data} + multiset{d};
      if GoesLeft(t.left, t.right) {
        PushBag(t.left, low);
      } else {
        PushBag(t.right, low);
      }
    }
  }

  lemma PopSizes(t: Tree)
    requires t.Node? && SizesExact(t)
    ensures SizesExact(PopTree(t))
    ensures Count(PopTree(t)) == Count(t) - 1
  {
  }

  lemma {:induction false} PopOrder(t: Tree)
    requires t.Node? && HeapOrdered(t)
    ensures HeapOrdered(PopTree(t)) && TopAtMost(PopTree(t), t.data)
  {
    if t.left.Node? { PopOrder(t.left); }
    if t.right.Node? { PopOrder(t.right); }
  }

  lemma {:induction false} PopBag(t: Tree)
    requires t.Node?
    ensures Bag(t) == Bag(PopTree(t)) + multiset{t.data}
  {
    if t.left.Node? || t.right.Node? {
      if TakesLeft(t.left, t.right) {
        PopBag(t.left);
        assert Bag(PopTree(t)) + multiset{t.data} == Bag(t.left) + multiset{t.data} + Bag(t.right);
      } else {
        PopBag(t.right);
        assert Bag(PopTree(t)) + multiset{t.data} == Bag(t.left) + multiset{t.data} + Bag(t.right);
      }
    }
  }

  /** Pruning loses nothing: in an ordered heap the search succeeds exactly on the members. */
  lemma {:induction false} RemoveFindsMembers(t: Tree, d: LocRankable)
    requires HeapOrdered(t)
    ensures RemoveFrom(t, d).Some? <==> d in Bag(t)
  {
    if t.Node? && t.data != d {
      if d.OutRanks(t.data) {
        TopDominates(t, t.data);
      } else {
        RemoveFindsMembers(t.left, d);
        RemoveFindsMembers(t.right, d);
      }
    }
  }

  lemma {:induction false} RemoveSizes(t: Tree, d: LocRankable)
    requires SizesExact(t) && RemoveFrom(t, d).Some?
    ensures SizesExact(RemoveFrom(t, d).value)
    ensures Count(RemoveFrom(t, d).value) == Count(t) - 1
  {
    if t.data == d {
      PopSizes(t);
    } else if RemoveFrom(t.left, d).Some? {
      RemoveSizes(t.left, d);
    } else {
      RemoveSizes(t.right, d);
    }
  }

  lemma {:induction false} RemoveOrder(t: Tree, d: LocRankable)
    requires HeapOrdered(t) && RemoveFrom(t, d).Some?
    ensures HeapOrdered(RemoveFrom(t, d).value) && TopAtMost(RemoveFrom(t, d).value, t.data)
  {
    if t.data == d {
      PopOrder(t);
    } else if RemoveFrom(t.left, d).Some? {
      RemoveOrder(t.left, d);
    } else {
      RemoveOrder(t.right, d);
    }
  }

  lemma {:induction false} RemoveBag(t: Tree, d: LocRankable)
    requires RemoveFrom(t, d).Some?
    ensures Bag(t) == Bag(RemoveFrom(t, d).value) + multiset{d}
  {
    if t.data == d {
      PopBag(t);
    } else if RemoveFrom(t.left, d).Some? {
      RemoveBag(t.left, d);
    } else {
      RemoveBag(t.right, d);
    }
  }

  // ---------- Any interleaving refines a multiset priority queue ----------

  datatype Op = Push(item: LocRankable) | Pop | Remove(target: LocRankable)

  function TreeAfter(t: Tree, op: Op): Tree {
    match op
    case Push(d) => PushTree(t, d)
    case Pop => if t.Empty? then t else PopTree(t)
    case Remove(d) => var u := RemoveFrom(t, d); if u.Some? then u.value else t
  }

  function Answer(t: Tree, op: Op): Option<LocRankable> {
    match op
    case Push(_) => None
    case Pop => if t.Empty? then None else Some(t.data)
    case Remove(d) => if RemoveFrom(t, d).Some? then Some(d) else None
  }

  /** The specification, a priority queue that is just a multiset: the answers it may give. */
  ghost predicate QueueMayAnswer(bag: multiset<LocRankable>, op: Op, answer: Option<LocRankable>) {
    match op
    case Push(_) => answer == None
    case Pop =>
      if bag == multiset{} then answer == None
      else answer.Some? && answer.value in bag && Dominates(answer.value, bag)
    case Remove(d) => answer == if d in bag then Some(d) else None
  }

  /** ... and its content afterwards: what it answers with leaves it, and nothing else. */
  function QueueAfter(
    bag: multiset<LocRankable>, op: Op, answer: Option<LocRankable>): multiset<LocRankable>
  {
    match op
    case Push(d) => bag + multiset{d}
    case _ => if answer.Some? then bag - multiset{answer.value} else bag
  }

  lemma StepKeepsSound(t: Tree, op: Op)
    requires Sound(t)
    ensures Sound(TreeAfter(t, op))
  {
    match op {
      case Push(d) =>
        PushSizes(t, d);
        PushOrder(t, d);
      case Pop =>
        if t.Node? {
          PopSizes(t);
          PopOrder(t);
        }
      case Remove(d) =>
        if RemoveFrom(t, d).Some? {
          RemoveSizes(t, d);
          RemoveOrder(t, d);
        }
    }
  }

  lemma StepMovesContent(t: Tree, op: Op)
    requires HeapOrdered(t)
    ensures Bag(TreeAfter(t, op)) == QueueAfter(Bag(t), op, Answer(t, op))
  {
    assert t.Empty? ==> Bag(t) == multiset{};
    hide Bag, HeapOrdered, PushTree, PopTree, RemoveFrom;
    match op {
      case Push(d) =>
        PushBag(t, d);
      case Pop =>
        if t.Node? {
          PopBag(t);
          OneOut(Bag(t), Bag(PopTree(t)), t.data);
        }
      case Remove(d) =>
        if RemoveFrom(t, d).Some? {
          RemoveBag(t, d);
          OneOut(Bag(t), Bag(RemoveFrom(t, d).value), d);
        }
    }
  }

  lemma OneOut(bag: multiset<LocRankable>, rest: multiset<LocRankable>, d: LocRankable)
    requires bag == rest + multiset{d}
    ensures bag - multiset{d} == rest
  {
  }

  lemma StepAnswers(t: Tree, op: Op)
    requires HeapOrdered(t)
    ensures QueueMayAnswer(Bag(t), op, Answer(t, op))
  {
    match op {
      case Push(_) =>
      case Pop =>
        if t.Node? {
          TopDominates(t, t.data);
          assert t.data in Bag(t);
        }
      case Remove(d) =>
        RemoveFindsMembers(t, d);
    }
  }

  function Run(t: Tree, ops: seq<Op>): Tree
    decreases |ops|
  {
    if ops == [] then t else Run(TreeAfter(t, ops[0]), ops[1..])
  }

  function Answers(t: Tree, ops: seq<Op>): seq<Option<LocRankable>>
    decreases |ops|
  {
    if ops == [] then [] else [Answer(t, ops[0])] + Answers(TreeAfter(t, ops[0]), ops[1..])
  }

  /** The answers are ones the multiset queue may give, and it ends with this content. */
  ghost predicate QueueRun(
    bag: multiset<LocRankable>, ops: seq<Op>, answers: seq<Option<LocRankable>>,
    final: multiset<LocRankable>)
    decreases |ops|
  {
    if ops == [] then
      answers == [] && final == bag
    else
      && answers != []
      && QueueMayAnswer(bag, ops[0], answers[0])
      && QueueRun(QueueAfter(bag, ops[0], answers[0]), ops[1..], answers[1..], final)
  }

  lemma {:induction false} RunRefinesQueue(t: Tree, ops: seq<Op>)
    requires Sound(t)
    ensures Sound(Run(t, ops))
    ensures QueueRun(Bag(t), ops, Answers(t, ops), Bag(Run(t, ops)))
    decreases |ops|
  {
    if ops != [] {
      StepKeepsSound(t, ops[0]);
      StepMovesContent(t, ops[0]);
      StepAnswers(t, ops[0]);
      var next := TreeAfter(t, ops[0]);
      RunRefinesQueue(next, ops[1..]);
      assert Answers(t, ops)[1..] == Answers(next, ops[1..]);
    }
  }

  /** Popping until the heap is empty. */
  function Drain(t: Tree): seq<LocRankable>
    requires Sound(t)
    decreases Count(t)
  {
    if t.Empty? then []
    else
      PopSizes(t);
      PopOrder(t);
      [t.data] + Drain(PopTree(t))
  }

  ghost predicate SortedByRank(s: seq<LocRankable>) {
    forall i, j :: 0 <= i < j < |s| ==> s[i].rank >= s[j].rank
  }

  lemma {:induction false} DrainBag(t: Tree)
    requires Sound(t)
    ensures multiset(Drain(t)) == Bag(t)
    decreases Count(t)
  {
    if t.Node? {
      PopSizes(t);
      PopOrder(t);
      PopBag(t);
      DrainBag(PopTree(t));
    }
  }

  lemma {:induction false} DrainSorts(t: Tree)
    requires Sound(t)
    ensures SortedByRank(Drain(t)) && multiset(Drain(t)) == Bag(t)
    decreases Count(t)
  {
    DrainBag(t);
    if t.Node? {
      PopSizes(t);
      PopOrder(t);
      DrainSorts(PopTree(t));
      RestRanksBelow(t, Drain(PopTree(t)));
      SortedInFront(t.data, Drain(PopTree(t)));
      hide PopTree, HeapOrdered, SizesExact, Bag, TopAtMost, SortedByRank;
    }
  }

  lemma SortedInFront(d: LocRankable, rest: seq<LocRankable>)
    requires SortedByRank(rest) && forall x :: x in rest ==> d.rank >= x.rank
    ensures SortedByRank([d] + rest)
  {
  }

  lemma RestRanksBelow(t: Tree, rest: seq<LocRankable>)
    requires HeapOrdered(t) && t.Node? && multiset(rest) == Bag(PopTree(t))
    ensures forall x :: x in rest ==> t.data.rank >= x.rank
  {
    PopOrder(t);
    TopDominates(PopTree(t), t.data);
    hide PopTree, HeapOrdered, Bag, TopAtMost;
    assert forall x :: x in rest ==> x in multiset(rest);
  }

  // ---------- A heap built by pushes alone ----------

  function Built(items: seq<LocRankable>): Tree {
    if items == [] then Empty else PushTree(Built(items[..|items| - 1]), items[|items| - 1])
  }

  /** At every node the left subtree has as many nodes as the right one, or one more. */
  predicate Braun(t: Tree) {
    t.Node? ==> 0 <= Count(t.left) - Count(t.right) <= 1 && Braun(t.left) && Braun(t.right)
  }

  function Height(t: Tree): nat {
    match t
    case Empty => 0
    case Node(_, l, _, r) => 1 + if Height(l) > Height(r) then Height(l) else Height(r)
  }

  function Pow2(n: nat): nat {
    if n == 0 then 1 else 2 * Pow2(n - 1)
  }

  lemma {:induction false} PushKeepsBraun(t: Tree, d: LocRankable)
    requires SizesExact(t) && Braun(t)
    ensures Braun(PushTree(t, d))
  {
    if t.Node? {
      var low := Low(t.data, d);
      PushSizes(t.left, low);
      PushSizes(t.right, low);
      PushKeepsBraun(t.left, low);
      PushKeepsBraun(t.right, low);
    }
  }

  lemma Pow2Monotone(a: nat, b: nat)
    requires a <= b
    ensures Pow2(a) <= Pow2(b)
  {
  }

  /** A Braun tree of n nodes has height h with 2^(h-1) <= n < 2^h: its shortest and longest
      branch differ by at most one. */
  lemma {:induction false} BraunHeight(t: Tree)
    requires Braun(t)
    ensures Count(t) < Pow2(Height(t))
    ensures t.Node? ==> Pow2(Height(t) - 1) <= Count(t)
  {
    if t.Node? {
      BraunHeight(t.left);
      BraunHeight(t.right);
      if Height(t.right) > Height(t.left) {
        Pow2Monotone(Height(t.left), Height(t.right) - 1);
      } else {
        Pow2Monotone(Height(t.right), Height(t.left));
      }
    }
  }

  lemma {:induction false} BuiltSound(items: seq<LocRankable>)
    ensures Sound(Built(items)) && Braun(Built(items)) && Count(Built(items)) == |items|
    decreases |items|
  {
    if items != [] {
      var front, last := items[..|items| - 1], items[|items| - 1];
      BuiltSound(front);
      PushSizes(Built(front), last);
      PushOrder(Built(front), last);
      PushKeepsBraun(Built(front), last);
    }
  }

  /** Pushes alone keep the heap as flat as a heap of that many elements can be. */
  lemma PushesStayBalanced(items: seq<LocRankable>)
    ensures Sound(Built(items)) && Braun(Built(items))
    ensures |items| < Pow2(Height(Built(items)))
    ensures items != [] ==> Height(Built(items)) > 0 && Pow2(Height(Built(items)) - 1) <= |items|
  {
    BuiltSound(items);
    BraunHeight(Built(items));
  }

  /** Balance does not survive pops: pop follows the ranks and never rebalances.  Three pushes
      and one pop leave a node with a right child and no left child. */
  lemma PopCanUnbalance(high: LocRankable, mid: LocRankable, low: LocRankable)
    requires high.rank > mid.rank > low.rank
    ensures !Braun(PopTree(Built([high, mid, low])))
  {
    assert [high, mid, low][..2] == [high, mid];
    assert [high, mid][..1] == [high];
    assert [high][..0] == [];
    assert Built([high]) == PushTree(Empty, high) == Single(high);
    assert Built([high, mid]) == PushTree(Single(high), mid) == Node(2, Single(mid), high, Empty);
    assert PushTree(Built([high, mid]), low) == Node(3, Single(mid), high, Single(low));
    assert Built([high, mid, low]) == Node(3, Single(mid), high, Single(low));
  }

  /** The pops that keep the balance: all the way down, the side that gives up its top is the left
      one where that has a node more, and the right one where both have as many. */
  predicate PopsEvenly(t: Tree)
    requires t.Node?
  {
    || (t.left.Empty? && t.right.Empty?)
    || (if TakesLeft(t.left, t.right) then Count(t.left) == Count(t.right) + 1 && PopsEvenly(t.left)
        else Count(t.left) == Count(t.right) && PopsEvenly(t.right))
  }

  /** Exactly those pops keep it. */
  lemma {:induction false} PopKeepsBraunIff(t: Tree)
    requires t.Node? && SizesExact(t) && Braun(t)
    ensures Braun(PopTree(t)) <==> PopsEvenly(t)
  {
    if t.left.Node? || t.right.Node? {
      if TakesLeft(t.left, t.right) {
        PopSizes(t.left);
        PopKeepsBraunIff(t.left);
      } else {
        PopSizes(t.right);
        PopKeepsBraunIff(t.right);
      }
    }
  }

  // ---------- The pointer structure ----------

  ghost function TreeOf(node: LocHeapNode?): Tree
    reads node
  {
    if node == null then Empty else node.tree
  }

  ghost function NodesOf(node: LocHeapNode?): set<LocHeapNode>
    reads node
  {
    if node == null then {} else node.repr
  }

  class LocHeapNode {
    var size: int
    var left: LocHeapNode?
    var right: LocHeapNode?
    var data: LocRankable

    /** The nodes of the subtree, and the value it stands for. */
    ghost var repr: set<LocHeapNode>
    ghost var tree: Tree

    ghost predicate Valid()
      reads this, repr
      ensures Valid() ==> this in repr && tree.Node? && tree.data == data && tree.size == size
    {
      && this in repr
      && (left != null ==> left in repr && left.repr <= repr && this !in left.repr && left.Valid())
      && (right != null ==> right in repr && right.repr <= repr && this !in right.repr && right.Valid())
      && NodesOf(left) !! NodesOf(right)
      && tree == Node(size, TreeOf(left), data, TreeOf(right))
    }

    constructor (data: LocRankable)
      ensures Valid() && fresh(repr) && repr == {this} && tree == Single(data)
      ensures left == null && right == null
    {
      size, left, right := 1, null, null;
      this.data := data;
      repr, tree := {this}, Single(data);
    }

    /** Records the nodes and the value of this node after a change to a child. */
    ghost method Settle(nodes: set<LocHeapNode>)
      requires this in nodes
      requires left != null ==> left in nodes && left.repr <= nodes && this !in left.repr && left.Valid()
      requires right != null ==> right in nodes && right.repr <= nodes && this !in right.repr && right.Valid()
      requires NodesOf(left) !! NodesOf(right)
      modifies this`repr, this`tree
      ensures Valid() && repr == nodes
      ensures tree == Node(size, old(TreeOf(left)), data, old(TreeOf(right)))
    {
      repr := nodes;
      tree := Node(size, TreeOf(left), data, TreeOf(right));
    }

    /** A node on its own, as LocHeap::push makes it. */
    ghost predicate Detached()
      reads this, repr
    {
      Valid() && repr == {this} && tree == Single(data)
    }

    /** Gives the other node the lower ranking of the two elements. */
    method KeepHigher(node: LocHeapNode)
      requires Valid() && node.Detached() && node !in repr
      modifies this`data, this`tree, node`data, node`tree
      ensures Valid() && node.Detached()
      ensures data == High(old(data), old(node.data)) && node.data == Low(old(data), old(node.data))
      ensures tree == old(tree).(data := data)
    {
      if node.data.OutRanks(data) {
        data, node.data := node.data, data;
        node.tree := Single(node.data);
        tree := tree.(data := data);
      }
    }

    /** Drops a detached node into the subtree of this node.  No link of the existing nodes
        changes except the one the new node is hung on. */
    method Push(node: LocHeapNode)
      requires Valid() && node.Detached() && node !in repr
      modifies repr, node
      ensures Valid() && repr == old(repr) + {node}
      ensures tree == PushTree(old(tree), old(node.data))
      decreases repr, 1
    {
      KeepHigher(node);
      if left == null || (right != null && left.size <= right.size) {
        PushLeft(node);
      } else {
        PushRight(node);
      }
    }

    method PushLeft(node: LocHeapNode)
      requires Valid() && node.Detached() && node !in repr
      modifies repr, node
      ensures Valid() && repr == old(repr) + {node}
      ensures tree == Node(
        old(tree.size) + 1, PushTree(old(tree.left), old(node.data)), old(tree.data), old(tree.right))
      decreases repr, 0
    {
      left := PushInto(left, node);
      size := size + 1;
      Settle(repr + {node});
    }

    method PushRight(node: LocHeapNode)
      requires Valid() && node.Detached() && node !in repr
      modifies repr, node
      ensures Valid() && repr == old(repr) + {node}
      ensures tree == Node(
        old(tree.size) + 1, old(tree.left), old(tree.data), PushTree(old(tree.right), old(node.data)))
      decreases repr, 0
    {
      right := PushInto(right, node);
      size := size + 1;
      Settle(repr + {node});
    }

    static method PushInto(child: LocHeapNode?, node: LocHeapNode) returns (top: LocHeapNode)
      requires child != null ==> child.Valid()
      requires node.Detached() && node !in NodesOf(child)
      modifies NodesOf(child), node
      ensures top.Valid()
      ensures top.tree == PushTree(old(TreeOf(child)), old(node.data))
      ensures top.repr == old(NodesOf(child)) + {node}
      decreases NodesOf(child), 2
    {
      if child == null {
        top := node;
      } else {
        child.Push(node);
        top := child;
      }
    }

    /** Exchanges the elements of a node and its left child; the links stay. */
    method SwapWithLeft()
      requires Valid() && left != null
      modifies this`data, this`tree, left`data, left`tree
      ensures Valid() && data == old(left.data) && left.data == old(data)
      ensures tree == Node(size, old(tree.left).(data := old(data)), old(left.data), old(tree.right))
    {
      data, left.data := left.data, data;
      left.tree := left.tree.(data := left.data);
      tree := Node(size, left.tree, data, tree.right);
    }

    method SwapWithRight()
      requires Valid() && right != null
      modifies this`data, this`tree, right`data, right`tree
      ensures Valid() && data == old(right.data) && right.data == old(data)
      ensures tree == Node(size, old(tree.left), old(right.data), old(tree.right).(data := old(data)))
    {
      data, right.data := right.data, data;
      right.tree := right.tree.(data := right.data);
      tree := Node(size, tree.left, data, right.tree);
    }

    /** Unhooks a leaf that carries the element that was on top.  The first result is what the
        caller's reference to the top becomes. */
    static method Pop(top: LocHeapNode) returns (rest: LocHeapNode?, popped: LocHeapNode)
      requires top.Valid()
      modifies top.repr
      ensures popped in old(top.repr) && popped.data == old(top.data)
      ensures popped.left == null && popped.right == null
      ensures TreeOf(rest) == PopTree(old(top.tree))
      ensures rest != null ==> rest == top && rest.Valid() && rest.repr == old(top.repr) - {popped}
      ensures rest == null ==> popped == top
      decreases top.repr, 1
    {
      if top.left != null || top.right != null {
        if top.left == null || (top.right != null && !top.left.data.OutRanks(top.right.data)) {
          top.SwapWithRight();
          popped := top.PopRight();
        } else {
          top.SwapWithLeft();
          popped := top.PopLeft();
        }
        rest := top;
      } else {
        rest, popped := null, top;
      }
    }

    /** Pops the left subtree. */
    method PopLeft() returns (popped: LocHeapNode)
      requires Valid() && left != null
      modifies repr
      ensures Valid() && popped in old(repr) && repr == old(repr) - {popped}
      ensures popped.data == old(left.data) && popped.left == null && popped.right == null
      ensures tree == Node(old(size) - 1, PopTree(old(tree.left)), old(data), old(tree.right))
      decreases repr, 0
    {
      left, popped := Pop(left);
      size := size - 1;
      Settle(repr - {popped});
    }

    method PopRight() returns (popped: LocHeapNode)
      requires Valid() && right != null
      modifies repr
      ensures Valid() && popped in old(repr) && repr == old(repr) - {popped}
      ensures popped.data == old(right.data) && popped.left == null && popped.right == null
      ensures tree == Node(old(size) - 1, old(tree.left), old(data), PopTree(old(tree.right)))
      decreases repr, 0
    {
      right, popped := Pop(right);
      size := size - 1;
      Settle(repr - {popped});
    }

    /** Searches below top for an element, by address, and unhooks a leaf that carries it. */
    static method Remove(top: LocHeapNode, target: LocRankable)
      returns (rest: LocHeapNode?, removed: LocHeapNode?)
      requires top.Valid()
      modifies top.repr
      ensures removed == null <==> RemoveFrom(old(top.tree), target) == None
      ensures removed == null ==> rest == top && top.Valid() && top.tree == old(top.tree) && top.repr == old(top.repr)
      ensures removed != null ==>
        && removed in old(top.repr) && removed.data == target && removed.left == null && removed.right == null
        && TreeOf(rest) == RemoveFrom(old(top.tree), target).value
      ensures removed != null && rest != null ==>
        rest == top && rest.Valid() && rest.repr == old(top.repr) - {removed}
      decreases top.repr, 1
    {
      removed := null;
      rest := top;
      if target == top.data {
        rest, removed := Pop(top);
      } else if !target.OutRanks(top.data) {
        if top.left != null {
          removed := top.RemoveLeft(target);
        }
        if removed == null && top.right != null {
          removed := top.RemoveRight(target);
        }
      }
    }

    method RemoveLeft(target: LocRankable) returns (removed: LocHeapNode?)
      requires Valid() && left != null
      modifies repr
      ensures Valid() && data == old(data)
      ensures removed == null <==> RemoveFrom(old(tree.left), target) == None
      ensures removed == null ==> tree == old(tree) && repr == old(repr)
      ensures removed != null ==>
        && removed in old(repr) && removed.data == target && removed.left == null && removed.right == null
        && repr == old(repr) - {removed}
        && tree == Node(old(size) - 1, RemoveFrom(old(tree.left), target).value, data, old(tree.right))
      decreases repr, 0
    {
      left, removed := Remove(left, target);
      if removed == null {
        Settle(repr);
      } else {
        size := size - 1;
        Settle(repr - {removed});
      }
    }

    method RemoveRight(target: LocRankable) returns (removed: LocHeapNode?)
      requires Valid() && right != null
      modifies repr
      ensures Valid() && data == old(data)
      ensures removed == null <==> RemoveFrom(old(tree.right), target) == None
      ensures removed == null ==> tree == old(tree) && repr == old(repr)
      ensures removed != null ==>
        && removed in old(repr) && removed.data == target && removed.left == null && removed.right == null
        && repr == old(repr) - {removed}
        && tree == Node(old(size) - 1, old(tree.left), data, RemoveFrom(old(tree.right), target).value)
      decreases repr, 0
    {
      right, removed := Remove(right, target);
      if removed == null {
        Settle(repr);
      } else {
        size := size - 1;
        Settle(repr - {removed});
      }
    }

    /** The self-check of the unit tests decides exactly the heap invariant. */
    method CheckNodes() returns (ok: bool)
      requires Valid()
      ensures ok <==> SizesExact(tree) && HeapOrdered(tree)
      decreases repr
    {
      var totalSize := size;
      if left != null {
        if left.data.OutRanks(data) {
          return false;
        }
        var leftOk := left.CheckNodes();
        if !leftOk {
          return false;
        }
        totalSize := totalSize - left.size;
      }
      if right != null {
        if right.data.OutRanks(data) {
          return false;
        }
        var rightOk := right.CheckNodes();
        if !rightOk {
          return false;
        }
        totalSize := totalSize - right.size;
      }
      assert left != null ==> left.size == Count(tree.left);
      assert right != null ==> right.size == Count(tree.right);
      assert left == null ==> SizesExact(tree.left) && Count(tree.left) == 0;
      assert right == null ==> SizesExact(tree.right) && Count(tree.right) == 0;
      return totalSize == 1;
    }
  }

  class LocHeap {
    var top: LocHeapNode?

    ghost predicate Valid()
      reads this, top, NodesOf(top)
    {
      top != null ==> top.Valid()
    }

    ghost function Content(): Tree
      reads this, top
    {
      TreeOf(top)
    }

    constructor ()
      ensures Valid() && Content() == Empty
    {
      top := null;
    }

    method Push(item: LocRankable)
      requires Valid()
      modifies this, NodesOf(top)
      ensures Valid() && fresh(NodesOf(top) - old(NodesOf(top)))
      ensures Content() == TreeAfter(old(Content()), Op.Push(item))
    {
      var node := new LocHeapNode(item);
      if top == null {
        top := node;
      } else {
        top.Push(node);
      }
    }

    method Peek() returns (item: LocRankable?)
      requires Valid()
      ensures item == if Content().Empty? then null else Content().data
    {
      item := null;
      if top != null {
        item := top.data;
      }
    }

    method Pop() returns (item: LocRankable?)
      requires Valid()
      modifies this, NodesOf(top)
      ensures Valid() && NodesOf(top) <= old(NodesOf(top))
      ensures Content() == TreeAfter(old(Content()), Op.Pop)
      ensures Reply(item) == Answer(old(Content()), Op.Pop)
    {
      item := null;
      if top != null {
        var popped;
        top, popped := LocHeapNode.Pop(top);
        item := popped.data;
      }
    }

    method Remove(target: LocRankable) returns (item: LocRankable?)
      requires Valid()
      modifies this, NodesOf(top)
      ensures Valid() && NodesOf(top) <= old(NodesOf(top))
      ensures Content() == TreeAfter(old(Content()), Op.Remove(target))
      ensures Reply(item) == Answer(old(Content()), Op.Remove(target))
    {
      item := null;
      if top != null {
        var removed;
        top, removed := LocHeapNode.Remove(top, target);
        if removed != null {
          item := removed.data;
        }
      }
    }
  }

  /** A null pointer is the answer None. */
  function Reply(item: LocRankable?): Option<LocRankable> {
    if item == null then None else Some(item)
  }
}
