/** The collision manager (include/collision_manager.hpp): it builds the octree over the
    input shapes and walks it depth first, testing every shape of a node against the
    earlier shapes of the same node and against every shape of the nodes above it, and
    collects the indexes of the shapes found intersecting. */
module CollisionManager {
  import opened Wrappers
  import opened Points
  import opened Vectors
  import opened Boxes
  import opened Shapes
  import opened Octrees

  /** An ordered pair of shapes as the manager tests it: the first is shape_1, drawn from
      a node of the ancestor stack, the second is shape_2, drawn from the current node. */
  type Pair = (IndexedShape, IndexedShape)

  /** The test applied to a pair of shapes. The traversal is stated for any test; the
      manager itself uses are_intersecting on shapes (PairTestOf below). */
  type PairTest = (Shape, Shape) -> bool

  /** The indexes a set of tested pairs contributes: both indexes of every pair whose
      shapes intersect, with the arguments in the pair's order. */
  function Hits(test: PairTest, pairs: set<Pair>): set<nat>
  {
    (set pr | pr in pairs && test(pr.0.shape, pr.1.shape) :: pr.0.index)
    + (set pr | pr in pairs && test(pr.0.shape, pr.1.shape) :: pr.1.index)
  }

  /** Hits adds up over a union of pair sets. */
  lemma HitsUnion(test: PairTest, a: set<Pair>, b: set<Pair>)
    ensures Hits(test, a + b) == Hits(test, a) + Hits(test, b)
  {
  }

  /** A single pair contributes both its indexes when its shapes intersect, nothing
      otherwise. */
  lemma HitsSingle(test: PairTest, pr: Pair)
    ensures Hits(test, {pr}) == if test(pr.0.shape, pr.1.shape) then {pr.0.index, pr.1.index} else {}
  {
  }

  /** Where the inner loop stops: at the position `self` of shape_1 in the current node's
      shapes, when shape_1 is one of them (the address test), otherwise at the end. */
  function Limit(self: Option<nat>, n: nat): (l: nat)
    ensures l <= n
  {
    if self.Some? && self.value < n then self.value else n
  }

  /** The inner loop of intersect_all: shape_1 against the current node's shapes from
      position `j` on, stopping at its own position; each intersecting pair adds both
      indexes to `acc`. */
  function Row(test: PairTest, first: IndexedShape, self: Option<nat>, shapes: seq<IndexedShape>, j: nat, acc: set<nat>): set<nat>
    decreases |shapes| - j
  {
    if j >= |shapes| || self == Some(j) then acc
    else
      var found := if test(first.shape, shapes[j].shape) then acc + {first.index, shapes[j].index} else acc;
      Row(test, first, self, shapes, j + 1, found)
  }

  /** The pairs of `first` with the shapes at positions j until lim. */
  function RowPairs(first: IndexedShape, shapes: seq<IndexedShape>, j: nat, lim: nat): set<Pair>
    requires lim <= |shapes|
  {
    set q | j <= q < lim :: (first, shapes[q])
  }

  /** The inner loop reports exactly the intersecting pairs of shape_1 with the shapes
      before its stopping position. */
  lemma {:induction false} RowSpec(test: PairTest, first: IndexedShape, self: Option<nat>, shapes: seq<IndexedShape>, j: nat, acc: set<nat>)
    requires j <= Limit(self, |shapes|)
    ensures Row(test, first, self, shapes, j, acc) == acc + Hits(test, RowPairs(first, shapes, j, Limit(self, |shapes|)))
    decreases |shapes| - j
  {
    var lim := Limit(self, |shapes|);
    if j == lim {
      assert RowPairs(first, shapes, j, lim) == {};
    } else {
      var pr := (first, shapes[j]);
      assert RowPairs(first, shapes, j, lim) == {pr} + RowPairs(first, shapes, j + 1, lim);
      HitsUnion(test, {pr}, RowPairs(first, shapes, j + 1, lim));
      HitsSingle(test, pr);
      var found := if test(first.shape, shapes[j].shape) then acc + {first.index, shapes[j].index} else acc;
      RowSpec(test, first, self, shapes, j + 1, found);
    }
  }

  /** The middle loop of intersect_all over the shapes of one stack node from position
      `p` on; `own` says that node is the current one, so that each of its shapes stops
      at its own position. */
  function Level(test: PairTest, upper: seq<IndexedShape>, own: bool, shapes: seq<IndexedShape>, p: nat, acc: set<nat>): set<nat>
    decreases |upper| - p
  {
    if p >= |upper| then acc
    else Level(test, upper, own, shapes, p + 1, Row(test, upper[p], if own then Some(p) else None, shapes, 0, acc))
  }

  /** Every shape of `above` paired with every shape of `shapes`. */
  function CrossPairs(above: seq<IndexedShape>, shapes: seq<IndexedShape>): set<Pair>
  {
    set a, q | a in above && 0 <= q < |shapes| :: (a, shapes[q])
  }

  /** Every shape of `shapes` from position p on, paired with each shape before it. */
  function OwnPairs(shapes: seq<IndexedShape>, p: nat): set<Pair>
  {
    set a, q | p <= a < |shapes| && 0 <= q < a :: (shapes[a], shapes[q])
  }

  /** Pairing with the shapes of two sequences in turn pairs with the shapes of both. */
  lemma CrossAppend(x: seq<IndexedShape>, y: seq<IndexedShape>, shapes: seq<IndexedShape>)
    ensures CrossPairs(x + y, shapes) == CrossPairs(x, shapes) + CrossPairs(y, shapes)
  {
    forall pr | pr in CrossPairs(x + y, shapes)
      ensures pr in CrossPairs(x, shapes) + CrossPairs(y, shapes)
    {
      var a, q :| a in x + y && 0 <= q < |shapes| && pr == (a, shapes[q]);
      if a in x {
        assert (a, shapes[q]) in CrossPairs(x, shapes);
      } else {
        assert (a, shapes[q]) in CrossPairs(y, shapes);
      }
    }
    forall pr | pr in CrossPairs(x, shapes) + CrossPairs(y, shapes)
      ensures pr in CrossPairs(x + y, shapes)
    {
      var a, q :| (a in x || a in y) && 0 <= q < |shapes| && pr == (a, shapes[q]);
      assert a in x + y;
    }
  }

  /** The pairs of one shape with all of `shapes` are its row up to the end. */
  lemma CrossSingle(a: IndexedShape, shapes: seq<IndexedShape>)
    ensures CrossPairs([a], shapes) == RowPairs(a, shapes, 0, |shapes|)
  {
    forall pr | pr in CrossPairs([a], shapes)
      ensures pr in RowPairs(a, shapes, 0, |shapes|)
    {
      var b, q :| b in [a] && 0 <= q < |shapes| && pr == (b, shapes[q]);
    }
    forall pr | pr in RowPairs(a, shapes, 0, |shapes|)
      ensures pr in CrossPairs([a], shapes)
    {
      var q :| 0 <= q < |shapes| && pr == (a, shapes[q]);
      assert a in [a];
    }
  }

  /** The own pairs from position p on are the row of shape p, then those from p + 1 on. */
  lemma OwnStep(shapes: seq<IndexedShape>, p: nat)
    requires p < |shapes|
    ensures OwnPairs(shapes, p) == RowPairs(shapes[p], shapes, 0, p) + OwnPairs(shapes, p + 1)
  {
    forall pr | pr in OwnPairs(shapes, p)
      ensures pr in RowPairs(shapes[p], shapes, 0, p) + OwnPairs(shapes, p + 1)
    {
      var a, q :| p <= a < |shapes| && 0 <= q < a && pr == (shapes[a], shapes[q]);
      if a == p {
        assert pr in RowPairs(shapes[p], shapes, 0, p);
      } else {
        assert pr in OwnPairs(shapes, p + 1);
      }
    }
    forall pr | pr in RowPairs(shapes[p], shapes, 0, p)
      ensures pr in OwnPairs(shapes, p)
    {
      var q :| 0 <= q < p && pr == (shapes[p], shapes[q]);
    }
  }

  /** Over an ancestor's shapes the middle loop reports the intersecting pairs of each of
      them with each shape of the current node. */
  lemma {:induction false} LevelCrossSpec(test: PairTest, upper: seq<IndexedShape>, shapes: seq<IndexedShape>, p: nat, acc: set<nat>)
    requires p <= |upper|
    ensures Level(test, upper, false, shapes, p, acc) == acc + Hits(test, CrossPairs(upper[p..], shapes))
    decreases |upper| - p
  {
    if p == |upper| {
      assert CrossPairs(upper[p..], shapes) == {};
    } else {
      RowSpec(test, upper[p], None, shapes, 0, acc);
      var row := RowPairs(upper[p], shapes, 0, |shapes|);
      assert upper[p..] == [upper[p]] + upper[p + 1..];
      CrossAppend([upper[p]], upper[p + 1..], shapes);
      CrossSingle(upper[p], shapes);
      HitsUnion(test, row, CrossPairs(upper[p + 1..], shapes));
      LevelCrossSpec(test, upper, shapes, p + 1, acc + Hits(test, row));
    }
  }

  /** Over the current node's own shapes the middle loop reports the intersecting pairs of
      each shape with each shape before it, the later one first. */
  lemma {:induction false} LevelOwnSpec(test: PairTest, shapes: seq<IndexedShape>, p: nat, acc: set<nat>)
    requires p <= |shapes|
    ensures Level(test, shapes, true, shapes, p, acc) == acc + Hits(test, OwnPairs(shapes, p))
    decreases |shapes| - p
  {
    if p == |shapes| {
      assert OwnPairs(shapes, p) == {};
    } else {
      RowSpec(test, shapes[p], Some(p), shapes, 0, acc);
      var row := RowPairs(shapes[p], shapes, 0, p);
      OwnStep(shapes, p);
      HitsUnion(test, row, OwnPairs(shapes, p + 1));
      LevelOwnSpec(test, shapes, p + 1, acc + Hits(test, row));
    }
  }

  /** The outer loop of intersect_all over the ancestor stack from entry `n` on; the last
      entry is the current node. */
  function Stack(test: PairTest, stack: seq<seq<IndexedShape>>, shapes: seq<IndexedShape>, n: nat, acc: set<nat>): set<nat>
    decreases |stack| - n
  {
    if n >= |stack| then acc
    else Stack(test, stack, shapes, n + 1, Level(test, stack[n], n == |stack| - 1, shapes, 0, acc))
  }

  /** The shapes of a stack of nodes, top to bottom, in one sequence. */
  function Flatten(stack: seq<seq<IndexedShape>>): seq<IndexedShape>
  {
    if stack == [] then [] else stack[0] + Flatten(stack[1..])
  }

  lemma {:induction false} FlattenSnoc(stack: seq<seq<IndexedShape>>, last: seq<IndexedShape>)
    ensures Flatten(stack + [last]) == Flatten(stack) + last
  {
    if stack != [] {
      assert (stack + [last])[1..] == stack[1..] + [last];
      FlattenSnoc(stack[1..], last);
    }
  }

  /** Over a stack whose last entry is the current node, the outer loop reports the
      intersecting pairs of every shape of the ancestors with every shape of the current
      node, and of the current node's shapes with the ones before them. */
  lemma {:induction false} StackSpec(test: PairTest, anc: seq<seq<IndexedShape>>, shapes: seq<IndexedShape>, n: nat, acc: set<nat>)
    requires n <= |anc|
    ensures Stack(test, anc + [shapes], shapes, n, acc)
         == acc + Hits(test, CrossPairs(Flatten(anc[n..]), shapes) + OwnPairs(shapes, 0))
    decreases |anc| - n
  {
    var stack := anc + [shapes];
    if n == |anc| {
      LevelOwnSpec(test, shapes, 0, acc);
      assert stack[n] == shapes;
      assert Stack(test, stack, shapes, n + 1, Level(test, shapes, true, shapes, 0, acc)) == Level(test, shapes, true, shapes, 0, acc);
      assert anc[n..] == [];
      assert CrossPairs([], shapes) == {};
    } else {
      assert stack[n] == anc[n];
      LevelCrossSpec(test, anc[n], shapes, 0, acc);
      assert anc[n][0..] == anc[n];
      var level := Level(test, anc[n], false, shapes, 0, acc);
      StackSpec(test, anc, shapes, n + 1, level);
      assert anc[n..][1..] == anc[n + 1..];
      assert Flatten(anc[n..]) == anc[n] + Flatten(anc[n + 1..]);
      CrossAppend(anc[n], Flatten(anc[n + 1..]), shapes);
      HitsUnion(test, CrossPairs(anc[n], shapes), CrossPairs(Flatten(anc[n + 1..]), shapes) + OwnPairs(shapes, 0));
    }
  }

  /** intersect_all on a node: push it, run the three loops, recurse into each present
      child in order, pop. The stack holds the shapes of the ancestors, top first. */
  function Visit(test: PairTest, node: Node, anc: seq<seq<IndexedShape>>, acc: set<nat>): set<nat>
    decreases node, 1
  {
    var stack := anc + [node.shapes];
    Children(test, node, stack, 0, Stack(test, stack, node.shapes, 0, acc))
  }

  /** The recursion of intersect_all into the children from number `k` on. */
  function Children(test: PairTest, node: Node, stack: seq<seq<IndexedShape>>, k: nat, acc: set<nat>): set<nat>
    decreases node, 0, |node.children| - k
  {
    if k >= |node.children| then acc
    else Children(test, node, stack, k + 1, Visit(test, node.children[k], stack, acc))
  }

  /** intersect_all from the root, with an empty stack and no index yet. */
  function IntersectAll(test: PairTest, root: Node): (r: set<nat>)
    ensures r == Hits(test, TreePairs(root, []))
  {
    VisitSpec(test, root, [], {});
    Visit(test, root, [], {})
  }

  /** The pairs the walk tests below a node, declaratively: each shape of the node with
      every shape above it and with every earlier shape of the node, and then the same for
      every descendant. */
  function TreePairs(node: Node, above: seq<IndexedShape>): set<Pair>
    decreases node, 1
  {
    CrossPairs(above, node.shapes) + OwnPairs(node.shapes, 0) + ChildPairs(node, above + node.shapes, 0)
  }

  /** The tested pairs below the children from number `k` on. */
  function ChildPairs(node: Node, above: seq<IndexedShape>, k: nat): set<Pair>
    decreases node, 0, |node.children| - k
  {
    if k >= |node.children| then {} else TreePairs(node.children[k], above) + ChildPairs(node, above, k + 1)
  }

  /** The walk from a node reports exactly the intersecting pairs among those it tests. */
  lemma {:induction false} VisitSpec(test: PairTest, node: Node, anc: seq<seq<IndexedShape>>, acc: set<nat>)
    ensures Visit(test, node, anc, acc) == acc + Hits(test, TreePairs(node, Flatten(anc)))
    decreases node, 1
  {
    var stack := anc + [node.shapes];
    StackSpec(test, anc, node.shapes, 0, acc);
    assert anc[0..] == anc;
    var found := Stack(test, stack, node.shapes, 0, acc);
    ChildrenSpec(test, node, stack, 0, found);
    FlattenSnoc(anc, node.shapes);
    var here := CrossPairs(Flatten(anc), node.shapes) + OwnPairs(node.shapes, 0);
    HitsUnion(test, here, ChildPairs(node, Flatten(anc) + node.shapes, 0));
  }

  lemma {:induction false} ChildrenSpec(test: PairTest, node: Node, stack: seq<seq<IndexedShape>>, k: nat, acc: set<nat>)
    ensures Children(test, node, stack, k, acc) == acc + Hits(test, ChildPairs(node, Flatten(stack), k))
    decreases node, 0, |node.children| - k
  {
    if k < |node.children| {
      var visited := Visit(test, node.children[k], stack, acc);
      VisitSpec(test, node.children[k], stack, acc);
      ChildrenSpec(test, node, stack, k + 1, visited);
      HitsUnion(test, TreePairs(node.children[k], Flatten(stack)), ChildPairs(node, Flatten(stack), k + 1));
    }
  }

  /** The collision manager reports exactly the indexes of the intersecting tested pairs. */
  lemma IntersectAllSpec(test: PairTest, root: Node)
    ensures IntersectAll(test, root) == Hits(test, TreePairs(root, []))
  {
    VisitSpec(test, root, [], {});
  }

  /** A second intersect_all on the same manager starts from the indexes the first one
      left, with the ancestor stack empty again, and adds nothing to them. */
  lemma IntersectAllIdempotent(test: PairTest, root: Node)
    ensures Visit(test, root, [], IntersectAll(test, root)) == IntersectAll(test, root)
  {
    IntersectAllSpec(test, root);
    VisitSpec(test, root, [], IntersectAll(test, root));
  }

  /** The shapes of the nodes strictly above the end of `path`, top first. */
  function Along(node: Node, path: seq<nat>): seq<IndexedShape>
    requires ValidPath(node, path)
    decreases path
  {
    if path == [] then [] else node.shapes + Along(node.children[path[0]], path[1..])
  }

  lemma {:induction false} ChildPairsHas(node: Node, above: seq<IndexedShape>, k: nat, j: nat, pr: Pair)
    requires k <= j < |node.children| && pr in TreePairs(node.children[j], above)
    ensures pr in ChildPairs(node, above, k)
    decreases j - k
  {
    if k < j {
      ChildPairsHas(node, above, k + 1, j, pr);
    }
  }

  lemma {:induction false} ChildOf(node: Node, above: seq<IndexedShape>, k: nat, pr: Pair) returns (j: nat)
    requires pr in ChildPairs(node, above, k)
    ensures k <= j < |node.children| && pr in TreePairs(node.children[j], above)
    decreases |node.children| - k
  {
    if pr in TreePairs(node.children[k], above) {
      j := k;
    } else {
      j := ChildOf(node, above, k + 1, pr);
    }
  }

  /** A shape of a node is tested, as shape_2, against every shape above it. */
  lemma {:induction false} SlotsToPairs(node: Node, above: seq<IndexedShape>, path: seq<nat>, a: IndexedShape, b: IndexedShape)
    requires ValidPath(node, path) && b in At(node, path).shapes && a in above + Along(node, path)
    ensures (a, b) in TreePairs(node, above)
    decreases path
  {
    if path == [] {
      assert a in above;
      var q :| 0 <= q < |node.shapes| && node.shapes[q] == b;
      assert (a, node.shapes[q]) in CrossPairs(above, node.shapes);
    } else {
      var k := path[0];
      assert above + Along(node, path) == (above + node.shapes) + Along(node.children[k], path[1..]);
      SlotsToPairs(node.children[k], above + node.shapes, path[1..], a, b);
      ChildPairsHas(node, above + node.shapes, 0, k, (a, b));
    }
  }

  /** Each shape of a node is tested, as shape_1, against every earlier shape of it. */
  lemma {:induction false} OwnSlotsToPairs(node: Node, above: seq<IndexedShape>, path: seq<nat>, p: nat, q: nat)
    requires ValidPath(node, path) && q < p < |At(node, path).shapes|
    ensures (At(node, path).shapes[p], At(node, path).shapes[q]) in TreePairs(node, above)
    decreases path
  {
    if path == [] {
      assert (node.shapes[p], node.shapes[q]) in OwnPairs(node.shapes, 0);
    } else {
      var k := path[0];
      OwnSlotsToPairs(node.children[k], above + node.shapes, path[1..], p, q);
      ChildPairsHas(node, above + node.shapes, 0, k, (At(node, path).shapes[p], At(node, path).shapes[q]));
    }
  }

  /** Every tested pair comes from one node: shape_2 is a shape of it, and shape_1 either a
      shape above it or an earlier shape of it. */
  lemma {:induction false} PairsToSlots(node: Node, above: seq<IndexedShape>, pr: Pair) returns (path: seq<nat>)
    requires pr in TreePairs(node, above)
    ensures ValidPath(node, path)
    ensures pr in CrossPairs(above + Along(node, path), At(node, path).shapes) + OwnPairs(At(node, path).shapes, 0)
    decreases node
  {
    if pr in CrossPairs(above, node.shapes) + OwnPairs(node.shapes, 0) {
      path := [];
      assert above + Along(node, path) == above;
    } else {
      var j := ChildOf(node, above + node.shapes, 0, pr);
      var rest := PairsToSlots(node.children[j], above + node.shapes, pr);
      path := [j] + rest;
      assert path[1..] == rest;
      assert above + Along(node, path) == (above + node.shapes) + Along(node.children[j], rest);
    }
  }

  /** A prefix of a valid path is valid. */
  lemma {:induction false} PrefixValid(node: Node, path: seq<nat>, k: nat)
    requires ValidPath(node, path) && k <= |path|
    ensures ValidPath(node, path[..k])
    decreases path
  {
    if k > 0 {
      assert path[..k][1..] == path[1..][..k - 1];
      PrefixValid(node.children[path[0]], path[1..], k - 1);
    }
  }

  /** A shape above the end of a path is a shape of the node at one of its strict
      prefixes. */
  lemma {:induction false} AlongPrefix(node: Node, path: seq<nat>, x: IndexedShape) returns (k: nat)
    requires ValidPath(node, path) && x in Along(node, path)
    ensures k < |path| && ValidPath(node, path[..k]) && x in At(node, path[..k]).shapes
    decreases path
  {
    PrefixValid(node, path, 0);
    if x in node.shapes {
      k := 0;
    } else {
      var k' := AlongPrefix(node.children[path[0]], path[1..], x);
      k := k' + 1;
      assert path[..k][1..] == path[1..][..k'];
      PrefixValid(node, path, k);
    }
  }

  /** Every shape of the node at a strict prefix of a path is above its end. */
  lemma {:induction false} AlongContains(node: Node, path: seq<nat>, k: nat, x: IndexedShape)
    requires ValidPath(node, path) && k < |path|
    requires ValidPath(node, path[..k]) && x in At(node, path[..k]).shapes
    ensures x in Along(node, path)
    decreases path
  {
    if k > 0 {
      assert path[..k][1..] == path[1..][..k - 1];
      AlongContains(node.children[path[0]], path[1..], k - 1, x);
    }
  }

  /** are_intersecting on shapes, as the pair test of the manager. */
  function PairTestOf(dir: Directions): PairTest
  {
    (a: Shape, b: Shape) => ShapesIntersect(dir, a, b)
  }

  /** Collision_Manager: build the octree of the given height over the shapes, then run
      intersect_all; height 0 fails as the octree does. */
  function Collide(rule: StraddleRule, dir: Directions, height: nat, ss: seq<IndexedShape>): (r: Result<set<nat>, OctreeError>)
    ensures r.Failure? <==> height == 0
    ensures r.Success? ==> r.value == Hits(PairTestOf(dir), TreePairs(MakeOctree(rule, height, ss).value, []))
  {
    match MakeOctree(rule, height, ss)
    case Failure(e) => Failure(e)
    case Success(tree) => Success(IntersectAll(PairTestOf(dir), tree))
  }

  /** Every node of `tree` holds exactly the shapes of `ss` whose target it is, in order:
      what the octree constructor guarantees. */
  ghost predicate Distributes(rule: StraddleRule, tree: Node, ss: seq<IndexedShape>)
  {
    forall path | ValidPath(tree, path) :: At(tree, path).shapes == Filter(rule, tree, ss, path)
  }

  /** A tested pair drawn from a node and one above it joins two different input shapes:
      their targets have different lengths. */
  lemma CrossPairDistinct(rule: StraddleRule, tree: Node, ss: seq<IndexedShape>, path: seq<nat>, pr: Pair)
    requires Distributes(rule, tree, ss) && ValidPath(tree, path)
    requires pr in CrossPairs(Along(tree, path), At(tree, path).shapes)
    ensures pr.0 != pr.1 && pr.0 in ss && pr.1 in ss
  {
    var f := At(tree, path).shapes;
    var a, q :| a in Along(tree, path) && 0 <= q < |f| && pr == (a, f[q]);
    var k := AlongPrefix(tree, path, a);
    FilterMember(rule, tree, ss, path[..k], a);
    FilterMember(rule, tree, ss, path, f[q]);
    assert |path[..k]| < |path|;
  }

  /** A tested pair drawn from one node joins two different input shapes when the input
      repeats none. */
  lemma OwnPairDistinct(rule: StraddleRule, tree: Node, ss: seq<IndexedShape>, path: seq<nat>, pr: Pair)
    requires Distributes(rule, tree, ss) && ValidPath(tree, path)
    requires forall i, j | 0 <= i < j < |ss| :: ss[i] != ss[j]
    requires pr in OwnPairs(At(tree, path).shapes, 0)
    ensures pr.0 != pr.1 && pr.0 in ss && pr.1 in ss
  {
    var f := At(tree, path).shapes;
    var p, q :| 0 <= p < |f| && 0 <= q < p && pr == (f[p], f[q]);
    FilterDistinct(rule, tree, ss, path);
    FilterMember(rule, tree, ss, path, f[p]);
    FilterMember(rule, tree, ss, path, f[q]);
  }

  /** Every pair the walk tests joins two different input shapes. */
  lemma TestedPairDistinct(rule: StraddleRule, tree: Node, ss: seq<IndexedShape>, pr: Pair)
    requires Distributes(rule, tree, ss)
    requires forall i, j | 0 <= i < j < |ss| :: ss[i] != ss[j]
    requires pr in TreePairs(tree, [])
    ensures pr.0 != pr.1 && pr.0 in ss && pr.1 in ss
  {
    var path := PairsToSlots(tree, [], pr);
    assert [] + Along(tree, path) == Along(tree, path);
    if pr in CrossPairs(Along(tree, path), At(tree, path).shapes) {
      CrossPairDistinct(rule, tree, ss, path, pr);
    } else {
      OwnPairDistinct(rule, tree, ss, path, pr);
    }
  }

  /** Conversely, a tested pair joins two input shapes whose targets nest: shape_1's
      target is shape_2's or lies above it. */
  lemma TestedPairNests(rule: StraddleRule, tree: Node, ss: seq<IndexedShape>, pr: Pair)
    requires Distributes(rule, tree, ss)
    requires pr in TreePairs(tree, [])
    ensures pr.0 in ss && pr.1 in ss
    ensures TargetPath(rule, tree, pr.0.shape.box) <= TargetPath(rule, tree, pr.1.shape.box)
  {
    var path := PairsToSlots(tree, [], pr);
    assert [] + Along(tree, path) == Along(tree, path);
    if pr in CrossPairs(Along(tree, path), At(tree, path).shapes) {
      CrossPairNests(rule, tree, ss, path, pr);
    } else {
      OwnPairNests(rule, tree, ss, path, pr);
    }
  }

  /** A pair drawn from a node and one above it: shape_1's target is a strict prefix of
      shape_2's. */
  lemma CrossPairNests(rule: StraddleRule, tree: Node, ss: seq<IndexedShape>, path: seq<nat>, pr: Pair)
    requires Distributes(rule, tree, ss) && ValidPath(tree, path)
    requires pr in CrossPairs(Along(tree, path), At(tree, path).shapes)
    ensures pr.0 in ss && pr.1 in ss
    ensures TargetPath(rule, tree, pr.0.shape.box) < TargetPath(rule, tree, pr.1.shape.box)
  {
    var f := At(tree, path).shapes;
    var a, q :| a in Along(tree, path) && 0 <= q < |f| && pr == (a, f[q]);
    var k := AlongPrefix(tree, path, a);
    FilterMember(rule, tree, ss, path[..k], a);
    FilterMember(rule, tree, ss, path, f[q]);
  }

  /** A pair drawn from one node: both shapes have that node as their target. */
  lemma OwnPairNests(rule: StraddleRule, tree: Node, ss: seq<IndexedShape>, path: seq<nat>, pr: Pair)
    requires Distributes(rule, tree, ss) && ValidPath(tree, path)
    requires pr in OwnPairs(At(tree, path).shapes, 0)
    ensures pr.0 in ss && pr.1 in ss
    ensures TargetPath(rule, tree, pr.0.shape.box) == path == TargetPath(rule, tree, pr.1.shape.box)
  {
    var f := At(tree, path).shapes;
    var p, q :| 0 <= p < |f| && 0 <= q < p && pr == (f[p], f[q]);
    FilterMember(rule, tree, ss, path, f[p]);
    FilterMember(rule, tree, ss, path, f[q]);
  }

  /** Within one node the later shape is always shape_1: with no repeated shape, a pair
      and its reversal are never both among the node's own pairs. */
  lemma OwnPairOnce(f: seq<IndexedShape>, pr: Pair)
    requires forall i, j | 0 <= i < j < |f| :: f[i] != f[j]
    requires pr in OwnPairs(f, 0)
    ensures (pr.1, pr.0) !in OwnPairs(f, 0)
  {
    var a, q :| 0 <= a < |f| && 0 <= q < a && pr == (f[a], f[q]);
  }

  /** A tested pair whose two shapes share their target comes from that node's own
      loop, not from a node above it. */
  lemma SameTargetOwn(rule: StraddleRule, tree: Node, ss: seq<IndexedShape>, pr: Pair) returns (path: seq<nat>)
    requires Distributes(rule, tree, ss)
    requires pr in TreePairs(tree, [])
    requires TargetPath(rule, tree, pr.0.shape.box) == TargetPath(rule, tree, pr.1.shape.box)
    ensures ValidPath(tree, path) && path == TargetPath(rule, tree, pr.0.shape.box)
    ensures pr in OwnPairs(At(tree, path).shapes, 0)
  {
    path := PairsToSlots(tree, [], pr);
    assert [] + Along(tree, path) == Along(tree, path);
    if pr in CrossPairs(Along(tree, path), At(tree, path).shapes) {
      CrossPairNests(rule, tree, ss, path, pr);
      assert false;
    }
    OwnPairNests(rule, tree, ss, path, pr);
  }

  /** The walk meets two input shapes at most once: with no repeated input shape, a pair
      it tests is never tested again in the other order. */
  lemma TestedOnce(rule: StraddleRule, tree: Node, ss: seq<IndexedShape>, pr: Pair)
    requires Distributes(rule, tree, ss)
    requires forall i, j | 0 <= i < j < |ss| :: ss[i] != ss[j]
    requires pr in TreePairs(tree, [])
    ensures (pr.1, pr.0) !in TreePairs(tree, [])
  {
    var rev := (pr.1, pr.0);
    if rev in TreePairs(tree, []) {
      TestedPairNests(rule, tree, ss, pr);
      TestedPairNests(rule, tree, ss, rev);
      var t0, t1 := TargetPath(rule, tree, pr.0.shape.box), TargetPath(rule, tree, pr.1.shape.box);
      assert |t0| == |t1|;
      var path := SameTargetOwn(rule, tree, ss, pr);
      FilterDistinct(rule, tree, ss, path);
      assert At(tree, path).shapes == Filter(rule, tree, ss, path);
      OwnPairOnce(At(tree, path).shapes, pr);
      var path2 := SameTargetOwn(rule, tree, ss, rev);
      assert false;
    }
  }

  /** When no two different input shapes have nested targets, the walk tests no pair at
      all. */
  lemma UnnestedTargetsTestNothing(rule: StraddleRule, tree: Node, ss: seq<IndexedShape>)
    requires Distributes(rule, tree, ss)
    requires forall i, j | 0 <= i < j < |ss| :: ss[i] != ss[j]
    requires forall i, j | 0 <= i < |ss| && 0 <= j < |ss| && i != j ::
      !(TargetPath(rule, tree, ss[i].shape.box) <= TargetPath(rule, tree, ss[j].shape.box))
    ensures TreePairs(tree, []) == {}
  {
    forall pr | pr in TreePairs(tree, [])
      ensures pr.0 != pr.1 && pr.0 in ss && pr.1 in ss
      ensures TargetPath(rule, tree, pr.0.shape.box) <= TargetPath(rule, tree, pr.1.shape.box)
    {
      TestedPairDistinct(rule, tree, ss, pr);
      TestedPairNests(rule, tree, ss, pr);
    }
  }

  /** The octree the manager builds distributes the input shapes to their targets. */
  lemma BuiltDistributes(rule: StraddleRule, height: nat, ss: seq<IndexedShape>)
    requires height >= 1
    ensures Distributes(rule, MakeOctree(rule, height, ss).value, ss)
  {
  }

  /** Each reported index comes from an intersecting tested pair. */
  lemma ReportedPair(test: PairTest, tree: Node, x: nat) returns (pr: Pair)
    requires x in IntersectAll(test, tree)
    ensures pr in TreePairs(tree, []) && test(pr.0.shape, pr.1.shape) && (x == pr.0.index || x == pr.1.index)
  {
    IntersectAllSpec(test, tree);
    pr :| pr in TreePairs(tree, []) && test(pr.0.shape, pr.1.shape) && (x == pr.0.index || x == pr.1.index);
  }

  /** Every index the manager reports belongs to a shape that intersects another input
      shape, under either straddle rule, provided the indexes are distinct. */
  lemma ReportsOnlyIntersecting(rule: StraddleRule, dir: Directions, height: nat, ss: seq<IndexedShape>, x: nat)
    requires height >= 1
    requires forall i, j | 0 <= i < j < |ss| :: ss[i].index != ss[j].index
    requires x in Collide(rule, dir, height, ss).value
    ensures exists i, j | 0 <= i < |ss| && 0 <= j < |ss| ::
      i != j && ShapesIntersect(dir, ss[i].shape, ss[j].shape) && (x == ss[i].index || x == ss[j].index)
  {
    var tree := MakeOctree(rule, height, ss).value;
    BuiltDistributes(rule, height, ss);
    var pr := ReportedPair(PairTestOf(dir), tree, x);
    TestedPairDistinct(rule, tree, ss, pr);
    var i :| 0 <= i < |ss| && ss[i] == pr.0;
    var j :| 0 <= j < |ss| && ss[j] == pr.1;
    assert ShapesIntersect(dir, ss[i].shape, ss[j].shape);
  }

  /** A tested pair whose shapes intersect contributes both its indexes. */
  lemma HitsHas(test: PairTest, pairs: set<Pair>, pr: Pair)
    requires pr in pairs && test(pr.0.shape, pr.1.shape)
    ensures pr.0.index in Hits(test, pairs) && pr.1.index in Hits(test, pairs)
  {
  }

  /** Two shapes with the same target meet at that node, the later one as shape_1. */
  lemma SameTargetPair(rule: StraddleRule, tree: Node, ss: seq<IndexedShape>, i: nat, j: nat)
    requires Distributes(rule, tree, ss) && i < j < |ss|
    requires TargetPath(rule, tree, ss[i].shape.box) == TargetPath(rule, tree, ss[j].shape.box)
    ensures (ss[j], ss[i]) in TreePairs(tree, [])
  {
    var path := TargetPath(rule, tree, ss[i].shape.box);
    TargetIsValid(rule, tree, ss[i].shape.box);
    var q, p := FilterOrder(rule, tree, ss, path, i, j);
    OwnSlotsToPairs(tree, [], path, p, q);
  }

  /** A shape whose target lies strictly above another's is tested against it. */
  lemma NestedTargetPair(rule: StraddleRule, tree: Node, ss: seq<IndexedShape>, i: nat, j: nat)
    requires Distributes(rule, tree, ss) && i < |ss| && j < |ss|
    requires TargetPath(rule, tree, ss[i].shape.box) < TargetPath(rule, tree, ss[j].shape.box)
    ensures (ss[i], ss[j]) in TreePairs(tree, [])
  {
    var ti := TargetPath(rule, tree, ss[i].shape.box);
    var tj := TargetPath(rule, tree, ss[j].shape.box);
    TargetIsValid(rule, tree, ss[i].shape.box);
    TargetIsValid(rule, tree, ss[j].shape.box);
    FilterHoldsEach(rule, tree, ss, i);
    FilterHoldsEach(rule, tree, ss, j);
    assert tj[..|ti|] == ti;
    AlongContains(tree, tj, |ti|, ss[i]);
    assert [] + Along(tree, tj) == Along(tree, tj);
    SlotsToPairs(tree, [], tj, ss[i], ss[j]);
  }

  /** Under the inclusive rule every two input shapes whose proper boxes overlap are
      tested against each other, in one order or the other. */
  lemma InclusiveTestsOverlapping(tree: Node, ss: seq<IndexedShape>, i: nat, j: nat)
    requires Distributes(Inclusive, tree, ss) && i < |ss| && j < |ss| && i != j
    requires Proper(ss[i].shape.box) && Proper(ss[j].shape.box)
    requires AreOverlapping(ss[i].shape.box, ss[j].shape.box)
    ensures (ss[i], ss[j]) in TreePairs(tree, []) || (ss[j], ss[i]) in TreePairs(tree, [])
  {
    var ti := TargetPath(Inclusive, tree, ss[i].shape.box);
    var tj := TargetPath(Inclusive, tree, ss[j].shape.box);
    InclusiveTargetsNest(tree, ss[i].shape.box, ss[j].shape.box);
    if ti == tj {
      if i < j {
        SameTargetPair(Inclusive, tree, ss, i, j);
      } else {
        SameTargetPair(Inclusive, tree, ss, j, i);
      }
    } else if ti < tj {
      NestedTargetPair(Inclusive, tree, ss, i, j);
    } else {
      NestedTargetPair(Inclusive, tree, ss, j, i);
    }
  }

  /** With the inclusive straddle rule the manager misses no intersection: two input
      shapes with proper boxes that intersect in either argument order both get
      reported. */
  lemma InclusiveFindsEveryPair(dir: Directions, height: nat, ss: seq<IndexedShape>, i: nat, j: nat)
    requires height >= 1 && i < |ss| && j < |ss| && i != j
    requires Proper(ss[i].shape.box) && Proper(ss[j].shape.box)
    requires ShapesIntersect(dir, ss[i].shape, ss[j].shape) && ShapesIntersect(dir, ss[j].shape, ss[i].shape)
    ensures Collide(Inclusive, dir, height, ss).Success?
    ensures ss[i].index in Collide(Inclusive, dir, height, ss).value
    ensures ss[j].index in Collide(Inclusive, dir, height, ss).value
  {
    var tree := MakeOctree(Inclusive, height, ss).value;
    var test := PairTestOf(dir);
    BuiltDistributes(Inclusive, height, ss);
    InclusiveTestsOverlapping(tree, ss, i, j);
    IntersectAllSpec(test, tree);
    if (ss[i], ss[j]) in TreePairs(tree, []) {
      HitsHas(test, TreePairs(tree, []), (ss[i], ss[j]));
    } else {
      HitsHas(test, TreePairs(tree, []), (ss[j], ss[i]));
    }
  }
}
