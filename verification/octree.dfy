/** The octree of the broad phase (include/space_partitioning/node.hpp and octree.hpp): a
    full tree of cubic cells built to a fixed height around a cube holding every shape,
    into which each shape is pushed down as long as its box stays on one side of every
    dividing plane. The arena of nodes and the child pointers of the source become a
    recursive datatype; paths of child numbers name the nodes. */
module Octrees {
  import opened Comparison
  import opened Points
  import opened Boxes
  import opened Shapes
  import opened Wrappers

  /** A cell: its centre and half-width, no children (a leaf) or eight, and the shapes
      stored at it in insertion order. Child k lies towards +x when bit 0 of k is set,
      towards +y for bit 1 and towards +z for bit 2. */
  datatype Node = Node(center: Point3, halfwidth: real, children: seq<Node>, shapes: seq<IndexedShape>)

  /** How insert_shape decides that a box straddles a dividing plane: as written, only a
      box reaching strictly past the plane does (cmp::less); in the inclusive reading a box
      touching it does too (cmp::less_equal). */
  datatype StraddleRule = AsWritten | Inclusive

  datatype OctreeError = EmptyOctree

  function Pow2(i: nat): (r: nat)
    ensures r >= 1
  {
    if i == 0 then 1 else 2 * Pow2(i - 1)
  }

  function Pow8(d: nat): (r: nat)
    ensures r >= 1
  {
    if d == 0 then 1 else 8 * Pow8(d - 1)
  }

  /** Bit `i` of the child number `k`. */
  predicate Bit(k: nat, i: nat)
  {
    (k / Pow2(i)) % 2 == 1
  }

  /** max_size: the node count of a full tree of the given height, (8^height - 1) / 7. */
  function MaxSize(height: nat): (r: nat)
    ensures 7 * r + 1 == Pow8(height)
  {
    Pow8Mod7(height);
    (Pow8(height) - 1) / 7
  }

  /** 8^d leaves remainder 1 when divided by 7. */
  lemma {:induction false} Pow8Mod7(d: nat)
    ensures Pow8(d) % 7 == 1
  {
    if d > 0 {
      Pow8Mod7(d - 1);
      var m := Pow8(d - 1) / 7;
      assert Pow8(d - 1) == 7 * m + 1;
      assert Pow8(d) == 7 * (8 * m + 1) + 1;
      OneMoreThanMultiple(8 * m + 1);
    }
  }

  /** One more than a multiple of 7 leaves remainder 1. */
  lemma OneMoreThanMultiple(k: nat)
    ensures (7 * k + 1) % 7 == 1
  {
  }

  /** A full tree of height h is a root and eight full trees of height h - 1. */
  lemma MaxSizeRecurrence(height: nat)
    requires height >= 1
    ensures MaxSize(height) == 1 + 8 * MaxSize(height - 1)
  {
    Pow8Mod7(height - 1);
    var m := Pow8(height - 1) / 7;
    assert Pow8(height - 1) - 1 == 7 * m;
    MultipleOfSeven(m);
    assert Pow8(height) - 1 == 7 * (8 * m + 1);
    MultipleOfSeven(8 * m + 1);
  }

  /** A multiple of 7 divided by 7. */
  lemma MultipleOfSeven(k: nat)
    ensures (7 * k) / 7 == k
  {
  }

  /** The centre of child `k` of a cell centred at `center`, `step` being the child's
      half-width: one step along every axis, towards + where bit i of k is set. */
  function ChildCenter(center: Point3, step: real, k: nat): (r: Point3)
    ensures Abs(r.x - center.x) == Abs(step) && Abs(r.y - center.y) == Abs(step) && Abs(r.z - center.z) == Abs(step)
    ensures step > 0.0 ==>
      && (Bit(k, 0) <==> r.x > center.x)
      && (Bit(k, 1) <==> r.y > center.y)
      && (Bit(k, 2) <==> r.z > center.z)
  {
    Point3(center.x + (if Bit(k, 0) then step else -step),
           center.y + (if Bit(k, 1) then step else -step),
           center.z + (if Bit(k, 2) then step else -step))
  }

  /** Nodes in the tree, the root included. */
  function Size(n: Node): nat
    decreases n, 1
  {
    1 + SizeOfAll(n.children, 0)
  }

  function SizeOfAll(cs: seq<Node>, k: nat): nat
    requires k <= |cs|
    decreases cs, |cs| - k
  {
    if k == |cs| then 0 else Size(cs[k]) + SizeOfAll(cs, k + 1)
  }

  /** The cell layout of a full tree of the given height: a leaf at height 1, otherwise
      eight children, child k centred per ChildCenter with half the half-width. */
  predicate Full(n: Node, height: nat)
    decreases height
  {
    height >= 1
    && |n.children| == (if height > 1 then 8 else 0)
    && forall k | 0 <= k < |n.children| ::
         n.children[k].center == ChildCenter(n.center, n.halfwidth * 0.5, k)
         && n.children[k].halfwidth == n.halfwidth * 0.5
         && Full(n.children[k], height - 1)
  }

  /** No node of the tree stores a shape. */
  predicate Empty(n: Node)
    decreases n
  {
    n.shapes == [] && forall k | 0 <= k < |n.children| :: Empty(n.children[k])
  }

  /** build_subtree: the cell, and below it, down to the given height, the eight children
      each centred one step (half the half-width) away along every axis. */
  function Build(center: Point3, halfwidth: real, height: nat): (n: Node)
    requires height >= 1
    ensures n.center == center && n.halfwidth == halfwidth
    ensures Full(n, height) && Empty(n)
    decreases height
  {
    var step := halfwidth * 0.5;
    var children := if height > 1 then seq(8, k requires 0 <= k < 8 => Build(ChildCenter(center, step, k), step, height - 1)) else [];
    Node(center, halfwidth, children, [])
  }

  /** Eight trees of the same size count eight times that size. */
  lemma {:induction false} SizeOfEqual(cs: seq<Node>, k: nat, m: nat)
    requires k <= |cs|
    requires forall j | k <= j < |cs| :: Size(cs[j]) == m
    ensures SizeOfAll(cs, k) == (|cs| - k) * m
    decreases |cs| - k
  {
    if k < |cs| {
      SizeOfEqual(cs, k + 1, m);
    }
  }

  /** The build creates exactly max_size() nodes, so the reservation made for them is
      never exceeded. */
  lemma {:induction false} BuildSize(center: Point3, halfwidth: real, height: nat)
    requires height >= 1
    ensures Size(Build(center, halfwidth, height)) == MaxSize(height)
    decreases height
  {
    var n := Build(center, halfwidth, height);
    if height == 1 {
      assert n.children == [];
      assert SizeOfAll(n.children, 0) == 0;
    } else {
      var step := halfwidth * 0.5;
      forall j | 0 <= j < 8
        ensures Size(n.children[j]) == MaxSize(height - 1)
      {
        BuildSize(ChildCenter(center, step, j), step, height - 1);
      }
      SizeOfEqual(n.children, 0, MaxSize(height - 1));
      MaxSizeRecurrence(height);
    }
  }

  /** Offset of a box's centre from a cell's centre along axis `i`. */
  function Delta(center: Point3, box: Box, i: nat): real
    requires i < 3
  {
    Coord(box.center, i) - Coord(center, i)
  }

  /** The box reaches across the cell's dividing plane orthogonal to axis `i`. */
  predicate Straddles(rule: StraddleRule, center: Point3, box: Box, i: nat)
    requires i < 3
    ensures Less(Abs(Delta(center, box, i)), box.Halfwidth(i)) ==> Straddles(rule, center, box, i)
    ensures Greater(Abs(Delta(center, box, i)), box.Halfwidth(i)) ==> !Straddles(rule, center, box, i)
    ensures rule == AsWritten && Straddles(rule, center, box, i) ==> Abs(Delta(center, box, i)) < box.Halfwidth(i)
  {
    match rule
    case AsWritten => Less(Abs(Delta(center, box, i)), box.Halfwidth(i))
    case Inclusive => LessEqual(Abs(Delta(center, box, i)), box.Halfwidth(i))
  }

  /** The axis loop of insert_shape from axis `i` on, `index` holding the bits chosen so
      far: stop with None on the first straddled plane; otherwise set bit i when the box
      lies on the + side. */
  function OctantLoop(rule: StraddleRule, center: Point3, box: Box, i: nat, index: nat): (r: Option<nat>)
    requires i <= 3 && index < Pow2(i)
    ensures r.None? <==> exists j | i <= j < 3 :: Straddles(rule, center, box, j)
    ensures r.Some? ==> r.value < 8 && r.value % Pow2(i) == index
    ensures r.Some? ==> forall j | i <= j < 3 :: Bit(r.value, j) <==> Greater(Delta(center, box, j), 0.0)
    decreases 3 - i
  {
    if i == 3 then Some(index)
    else if Straddles(rule, center, box, i) then None
    else
      var next := if Greater(Delta(center, box, i), 0.0) then index + Pow2(i) else index;
      var r := OctantLoop(rule, center, box, i + 1, next);
      assert r.Some? ==> r.value % Pow2(i) == index && (Bit(r.value, i) <==> next != index) by {
        if r.Some? {
          BitStep(r.value, i, index, next);
        }
      }
      r
  }

  /** Fixing the remainder modulo 2^(i+1) fixes the remainder modulo 2^i and bit i. */
  lemma BitStep(v: nat, i: nat, index: nat, next: nat)
    requires i < 3 && v < 8 && index < Pow2(i)
    requires next == index || next == index + Pow2(i)
    requires v % Pow2(i + 1) == next
    ensures v % Pow2(i) == index
    ensures Bit(v, i) <==> next != index
  {
    assert Pow2(1) == 2 && Pow2(2) == 4 && Pow2(3) == 8;
  }

  /** The octant a box falls into at a cell: None when it straddles one of the three
      dividing planes, otherwise the child number whose bit i says the box lies on the
      + side of axis i. */
  function Octant(rule: StraddleRule, center: Point3, box: Box): (r: Option<nat>)
    ensures r.None? <==> Straddles(rule, center, box, 0) || Straddles(rule, center, box, 1) || Straddles(rule, center, box, 2)
    ensures r.Some? ==> r.value < 8
    ensures r.Some? ==>
      && (Bit(r.value, 0) <==> Greater(Delta(center, box, 0), 0.0))
      && (Bit(r.value, 1) <==> Greater(Delta(center, box, 1), 0.0))
      && (Bit(r.value, 2) <==> Greater(Delta(center, box, 2), 0.0))
  {
    OctantLoop(rule, center, box, 0, 0)
  }

  /** insert_shape: descend into the octant the box falls into while that child exists;
      store the shape at the first cell where the box straddles a plane or which is a
      leaf. */
  function Insert(rule: StraddleRule, n: Node, s: IndexedShape): (r: Node)
    ensures r.center == n.center && r.halfwidth == n.halfwidth && |r.children| == |n.children|
    ensures |r.shapes| == |n.shapes| || r.shapes == n.shapes + [s]
    decreases n
  {
    match Octant(rule, n.center, s.shape.box)
    case Some(k) =>
      if k < |n.children| then n.(children := n.children[k := Insert(rule, n.children[k], s)])
      else n.(shapes := n.shapes + [s])
    case None => n.(shapes := n.shapes + [s])
  }

  /** The child numbers leading from `n` to the cell where Insert stores a box. */
  function TargetPath(rule: StraddleRule, n: Node, box: Box): (r: seq<nat>)
    ensures ValidPath(n, r)
    decreases n
  {
    match Octant(rule, n.center, box)
    case Some(k) => if k < |n.children| then [k] + TargetPath(rule, n.children[k], box) else []
    case None => []
  }

  /** The path names a node of the tree. */
  predicate ValidPath(n: Node, path: seq<nat>)
    decreases n
  {
    path == [] || (path[0] < |n.children| && ValidPath(n.children[path[0]], path[1..]))
  }

  /** The node a valid path names. */
  function At(n: Node, path: seq<nat>): Node
    requires ValidPath(n, path)
    decreases n
  {
    if path == [] then n else At(n.children[path[0]], path[1..])
  }

  /** Same cells, same children, whatever the shapes stored: insertion keeps the frame. */
  predicate SameFrame(a: Node, b: Node)
    decreases a
  {
    a.center == b.center && a.halfwidth == b.halfwidth && |a.children| == |b.children|
    && forall k | 0 <= k < |a.children| :: SameFrame(a.children[k], b.children[k])
  }

  /** Where a box goes depends on the frame only. */
  lemma {:induction false} FrameTarget(rule: StraddleRule, a: Node, b: Node, box: Box)
    requires SameFrame(a, b)
    ensures TargetPath(rule, a, box) == TargetPath(rule, b, box)
    decreases a
  {
    match Octant(rule, a.center, box) {
      case Some(k) =>
        if k < |a.children| {
          FrameTarget(rule, a.children[k], b.children[k], box);
        }
      case None =>
    }
  }

  /** Which paths name nodes depends on the frame only. */
  lemma {:induction false} FrameValid(a: Node, b: Node, path: seq<nat>)
    requires SameFrame(a, b)
    ensures ValidPath(a, path) <==> ValidPath(b, path)
    decreases a
  {
    if path != [] && path[0] < |a.children| {
      FrameValid(a.children[path[0]], b.children[path[0]], path[1..]);
    }
  }

  /** The layout depends on the frame only. */
  lemma {:induction false} FrameFull(a: Node, b: Node, height: nat)
    requires SameFrame(a, b)
    ensures Full(a, height) <==> Full(b, height)
    decreases height
  {
    if height > 1 {
      forall k | 0 <= k < |a.children|
        ensures Full(a.children[k], height - 1) <==> Full(b.children[k], height - 1)
      {
        FrameFull(a.children[k], b.children[k], height - 1);
      }
    }
  }

  /** The node count depends on the frame only. */
  lemma {:induction false} FrameSize(a: Node, b: Node)
    requires SameFrame(a, b)
    ensures Size(a) == Size(b)
    decreases a, 1
  {
    FrameSizeOfAll(a.children, b.children, 0);
  }

  lemma {:induction false} FrameSizeOfAll(as_: seq<Node>, bs: seq<Node>, k: nat)
    requires |as_| == |bs| && k <= |as_|
    requires forall j | 0 <= j < |as_| :: SameFrame(as_[j], bs[j])
    ensures SizeOfAll(as_, k) == SizeOfAll(bs, k)
    decreases as_, |as_| - k
  {
    if k < |as_| {
      FrameSize(as_[k], bs[k]);
      FrameSizeOfAll(as_, bs, k + 1);
    }
  }

  lemma {:induction false} SameFrameReflexive(n: Node)
    ensures SameFrame(n, n)
    decreases n
  {
    forall k | 0 <= k < |n.children|
      ensures SameFrame(n.children[k], n.children[k])
    {
      SameFrameReflexive(n.children[k]);
    }
  }

  /** Insertion changes no cell and no child: only shape lists grow. */
  lemma {:induction false} InsertKeepsFrame(rule: StraddleRule, n: Node, s: IndexedShape)
    ensures SameFrame(Insert(rule, n, s), n)
    decreases n
  {
    var m := Insert(rule, n, s);
    forall j | 0 <= j < |n.children|
      ensures SameFrame(m.children[j], n.children[j])
    {
      if Octant(rule, n.center, s.shape.box) == Some(j) {
        InsertKeepsFrame(rule, n.children[j], s);
      } else {
        SameFrameReflexive(n.children[j]);
      }
    }
  }

  /** The target path names a node of the tree. */
  lemma {:induction false} TargetIsValid(rule: StraddleRule, n: Node, box: Box)
    ensures ValidPath(n, TargetPath(rule, n, box))
    decreases n
  {
    match Octant(rule, n.center, box) {
      case Some(k) =>
        if k < |n.children| {
          TargetIsValid(rule, n.children[k], box);
          assert ([k] + TargetPath(rule, n.children[k], box))[1..] == TargetPath(rule, n.children[k], box);
        }
      case None =>
    }
  }

  /** Insertion appends the shape to the list of its target node and leaves every other
      node's list as it was. */
  lemma {:induction false} InsertAppendsAtTarget(rule: StraddleRule, n: Node, s: IndexedShape, path: seq<nat>)
    requires ValidPath(n, path)
    ensures ValidPath(Insert(rule, n, s), path)
    ensures At(Insert(rule, n, s), path).shapes
         == At(n, path).shapes + (if path == TargetPath(rule, n, s.shape.box) then [s] else [])
    decreases n
  {
    InsertKeepsFrame(rule, n, s);
    FrameValid(Insert(rule, n, s), n, path);
    var target := TargetPath(rule, n, s.shape.box);
    if path != [] {
      var c := path[0];
      match Octant(rule, n.center, s.shape.box) {
        case Some(k) =>
          if k < |n.children| && k == c {
            InsertAppendsAtTarget(rule, n.children[k], s, path[1..]);
            assert target == [k] + TargetPath(rule, n.children[k], s.shape.box);
            assert path == [c] + path[1..];
          } else if k < |n.children| {
            assert target[0] == k;
          }
        case None =>
      }
    }
  }

  lemma {:induction false} SameFrameTransitive(a: Node, b: Node, c: Node)
    requires SameFrame(a, b) && SameFrame(b, c)
    ensures SameFrame(a, c)
    decreases a
  {
    forall k | 0 <= k < |a.children|
      ensures SameFrame(a.children[k], c.children[k])
    {
      SameFrameTransitive(a.children[k], b.children[k], c.children[k]);
    }
  }

  /** Octree::insert over a range: the shapes one after the other, in order. */
  function InsertAll(rule: StraddleRule, n: Node, ss: seq<IndexedShape>): (r: Node)
    ensures r.center == n.center && r.halfwidth == n.halfwidth && |r.children| == |n.children|
    decreases |ss|
  {
    if ss == [] then n else InsertAll(rule, Insert(rule, n, ss[0]), ss[1..])
  }

  /** The shapes of `ss`, in order, whose target in `n` is `path`. */
  function Filter(rule: StraddleRule, n: Node, ss: seq<IndexedShape>, path: seq<nat>): seq<IndexedShape>
    decreases |ss|
  {
    if ss == [] then []
    else (if TargetPath(rule, n, ss[0].shape.box) == path then [ss[0]] else []) + Filter(rule, n, ss[1..], path)
  }

  lemma {:induction false} FilterFrame(rule: StraddleRule, a: Node, b: Node, ss: seq<IndexedShape>, path: seq<nat>)
    requires SameFrame(a, b)
    ensures Filter(rule, a, ss, path) == Filter(rule, b, ss, path)
    decreases |ss|
  {
    if ss != [] {
      FrameTarget(rule, a, b, ss[0].shape.box);
      FilterFrame(rule, a, b, ss[1..], path);
    }
  }

  /** Inserting a range leaves the frame of the tree alone. */
  lemma {:induction false} InsertAllFrame(rule: StraddleRule, n: Node, ss: seq<IndexedShape>)
    ensures SameFrame(InsertAll(rule, n, ss), n)
    decreases |ss|
  {
    if ss == [] {
      SameFrameReflexive(n);
    } else {
      var m := Insert(rule, n, ss[0]);
      InsertKeepsFrame(rule, n, ss[0]);
      InsertAllFrame(rule, m, ss[1..]);
      SameFrameTransitive(InsertAll(rule, m, ss[1..]), m, n);
    }
  }

  /** One insertion seen from a node on `path`, with targets taken in a tree of the same
      frame. */
  lemma InsertStep(rule: StraddleRule, n: Node, frame: Node, s: IndexedShape, path: seq<nat>)
    requires SameFrame(n, frame) && ValidPath(n, path)
    ensures SameFrame(Insert(rule, n, s), frame)
    ensures ValidPath(Insert(rule, n, s), path)
    ensures At(Insert(rule, n, s), path).shapes
         == At(n, path).shapes + (if TargetPath(rule, frame, s.shape.box) == path then [s] else [])
  {
    InsertAppendsAtTarget(rule, n, s, path);
    FrameTarget(rule, n, frame, s.shape.box);
    InsertKeepsFrame(rule, n, s);
    SameFrameTransitive(Insert(rule, n, s), n, frame);
  }

  /** The first shape of a non-empty range joins the filtered shapes exactly when its
      target is `path`. */
  lemma FilterCons(rule: StraddleRule, frame: Node, ss: seq<IndexedShape>, path: seq<nat>)
    requires ss != []
    ensures Filter(rule, frame, ss, path)
         == (if TargetPath(rule, frame, ss[0].shape.box) == path then [ss[0]] else []) + Filter(rule, frame, ss[1..], path)
  {
  }

  /** Sequence concatenation regrouped. */
  lemma Regroup(a: seq<IndexedShape>, b: seq<IndexedShape>, c: seq<IndexedShape>, ab: seq<IndexedShape>, bc: seq<IndexedShape>)
    requires ab == a + b && bc == b + c
    ensures ab + c == a + bc
  {
  }

  /** The shapes a node on `path` receives from a non-empty range: those of the first
      insertion, then those the rest of the range delivers to it. */
  lemma ContentStep(rule: StraddleRule, n: Node, frame: Node, ss: seq<IndexedShape>, path: seq<nat>)
    requires ss != [] && SameFrame(n, frame) && ValidPath(n, path)
    requires ValidPath(Insert(rule, n, ss[0]), path)
    requires ValidPath(InsertAll(rule, Insert(rule, n, ss[0]), ss[1..]), path)
    requires At(InsertAll(rule, Insert(rule, n, ss[0]), ss[1..]), path).shapes
          == At(Insert(rule, n, ss[0]), path).shapes + Filter(rule, frame, ss[1..], path)
    ensures ValidPath(InsertAll(rule, n, ss), path)
    ensures At(InsertAll(rule, n, ss), path).shapes == At(n, path).shapes + Filter(rule, frame, ss, path)
  {
    var head := if TargetPath(rule, frame, ss[0].shape.box) == path then [ss[0]] else [];
    InsertStep(rule, n, frame, ss[0], path);
    FilterCons(rule, frame, ss, path);
    Regroup(At(n, path).shapes, head, Filter(rule, frame, ss[1..], path),
            At(Insert(rule, n, ss[0]), path).shapes, Filter(rule, frame, ss, path));
  }

  /** After inserting a range, every node holds what it held before followed, in input
      order, by exactly the shapes of the range whose target it is. Targets are taken in
      any tree `frame` of the same frame, since they depend on nothing else. */
  lemma {:induction false} InsertAllContent(rule: StraddleRule, n: Node, frame: Node, ss: seq<IndexedShape>, path: seq<nat>)
    requires SameFrame(n, frame) && ValidPath(n, path)
    ensures ValidPath(InsertAll(rule, n, ss), path)
    ensures At(InsertAll(rule, n, ss), path).shapes == At(n, path).shapes + Filter(rule, frame, ss, path)
    decreases |ss|
  {
    if ss != [] {
      InsertStep(rule, n, frame, ss[0], path);
      InsertAllContent(rule, Insert(rule, n, ss[0]), frame, ss[1..], path);
      ContentStep(rule, n, frame, ss, path);
    }
  }

  /** Every shape of the range is among those its target node receives. */
  lemma {:induction false} FilterHoldsEach(rule: StraddleRule, n: Node, ss: seq<IndexedShape>, j: nat)
    requires j < |ss|
    ensures ss[j] in Filter(rule, n, ss, TargetPath(rule, n, ss[j].shape.box))
    decreases |ss|
  {
    if j > 0 {
      FilterHoldsEach(rule, n, ss[1..], j - 1);
    }
  }

  /** The filtered shapes are shapes of the range, each with target `path`. */
  lemma {:induction false} FilterMember(rule: StraddleRule, n: Node, ss: seq<IndexedShape>, path: seq<nat>, x: IndexedShape)
    requires x in Filter(rule, n, ss, path)
    ensures x in ss && TargetPath(rule, n, x.shape.box) == path
    decreases |ss|
  {
    FilterCons(rule, n, ss, path);
    if x != ss[0] || TargetPath(rule, n, ss[0].shape.box) != path {
      FilterMember(rule, n, ss[1..], path, x);
    }
  }

  /** Filtering a range without repeated shapes repeats none. */
  lemma {:induction false} FilterDistinct(rule: StraddleRule, n: Node, ss: seq<IndexedShape>, path: seq<nat>)
    requires forall i, j | 0 <= i < j < |ss| :: ss[i] != ss[j]
    ensures var f := Filter(rule, n, ss, path); forall i, j | 0 <= i < j < |f| :: f[i] != f[j]
    decreases |ss|
  {
    if ss != [] {
      var rest := Filter(rule, n, ss[1..], path);
      FilterDistinct(rule, n, ss[1..], path);
      FilterCons(rule, n, ss, path);
      if TargetPath(rule, n, ss[0].shape.box) == path {
        forall j | 0 <= j < |rest|
          ensures rest[j] != ss[0]
        {
          FilterMember(rule, n, ss[1..], path, rest[j]);
        }
      }
    }
  }

  /** The position in the filtered sequence of a shape of the range with target `path`. */
  lemma FilterPosition(rule: StraddleRule, n: Node, ss: seq<IndexedShape>, path: seq<nat>, j: nat) returns (r: nat)
    requires j < |ss| && TargetPath(rule, n, ss[j].shape.box) == path
    ensures r < |Filter(rule, n, ss, path)| && Filter(rule, n, ss, path)[r] == ss[j]
  {
    FilterHoldsEach(rule, n, ss, j);
    r :| 0 <= r < |Filter(rule, n, ss, path)| && Filter(rule, n, ss, path)[r] == ss[j];
  }

  /** Positions in the filtered rest of a range, moved to the filtered whole. */
  lemma FilterShift(rule: StraddleRule, n: Node, ss: seq<IndexedShape>, path: seq<nat>, q': nat, p': nat) returns (q: nat, p: nat)
    requires ss != [] && q' < p' < |Filter(rule, n, ss[1..], path)|
    ensures q < p < |Filter(rule, n, ss, path)|
    ensures Filter(rule, n, ss, path)[q] == Filter(rule, n, ss[1..], path)[q']
    ensures Filter(rule, n, ss, path)[p] == Filter(rule, n, ss[1..], path)[p']
  {
    FilterCons(rule, n, ss, path);
    if TargetPath(rule, n, ss[0].shape.box) == path {
      q, p := q' + 1, p' + 1;
    } else {
      q, p := q', p';
    }
  }

  /** The first shape of a range, when its target is `path`, comes first in the filtered
      sequence, before any later shape with that target. */
  lemma FilterFirst(rule: StraddleRule, n: Node, ss: seq<IndexedShape>, path: seq<nat>, j: nat) returns (p: nat)
    requires 0 < j < |ss|
    requires TargetPath(rule, n, ss[0].shape.box) == path && TargetPath(rule, n, ss[j].shape.box) == path
    ensures 0 < p < |Filter(rule, n, ss, path)|
    ensures Filter(rule, n, ss, path)[0] == ss[0] && Filter(rule, n, ss, path)[p] == ss[j]
  {
    FilterCons(rule, n, ss, path);
    assert ss[1..][j - 1] == ss[j];
    var r := FilterPosition(rule, n, ss[1..], path, j - 1);
    p := r + 1;
  }

  /** Two shapes of the range with the same target keep their order in the filtered
      sequence. */
  lemma {:induction false} FilterOrder(rule: StraddleRule, n: Node, ss: seq<IndexedShape>, path: seq<nat>, i: nat, j: nat) returns (q: nat, p: nat)
    requires i < j < |ss|
    requires TargetPath(rule, n, ss[i].shape.box) == path && TargetPath(rule, n, ss[j].shape.box) == path
    ensures q < p < |Filter(rule, n, ss, path)|
    ensures Filter(rule, n, ss, path)[q] == ss[i] && Filter(rule, n, ss, path)[p] == ss[j]
    decreases |ss|
  {
    if i == 0 {
      q := 0;
      p := FilterFirst(rule, n, ss, path, j);
    } else {
      assert ss[1..][i - 1] == ss[i] && ss[1..][j - 1] == ss[j];
      var q', p' := FilterOrder(rule, n, ss[1..], path, i - 1, j - 1);
      q, p := FilterShift(rule, n, ss, path, q', p');
    }
  }

  /** Running lower and upper corners of the boxes seen so far. */
  datatype Extent = Extent(lo: Point3, hi: Point3)

  /** One step of the parameter loop: move each lower corner coordinate down to the box's
      left border, and each upper one up to its right border, where they go beyond. */
  function Widen(e: Extent, b: Box): Extent
  {
    var lo := LowerCorner(b);
    var hi := UpperCorner(b);
    Extent(Point3(if lo.x < e.lo.x then lo.x else e.lo.x,
                  if lo.y < e.lo.y then lo.y else e.lo.y,
                  if lo.z < e.lo.z then lo.z else e.lo.z),
           Point3(if hi.x > e.hi.x then hi.x else e.hi.x,
                  if hi.y > e.hi.y then hi.y else e.hi.y,
                  if hi.z > e.hi.z then hi.z else e.hi.z))
  }

  /** The extent `e` reaches below and above box `b` along every axis. */
  predicate Covers(e: Extent, b: Box)
  {
    var lo := LowerCorner(b);
    var hi := UpperCorner(b);
    e.lo.x <= lo.x && e.lo.y <= lo.y && e.lo.z <= lo.z
    && hi.x <= e.hi.x && hi.y <= e.hi.y && hi.z <= e.hi.z
  }

  /** The extent `e` reaches at least as far as `f` in every direction. */
  predicate Wider(e: Extent, f: Extent)
  {
    e.lo.x <= f.lo.x && e.lo.y <= f.lo.y && e.lo.z <= f.lo.z
    && e.hi.x >= f.hi.x && e.hi.y >= f.hi.y && e.hi.z >= f.hi.z
  }

  /** The loop of calculate_octree_parameters over the shapes, from extent `e` on. */
  function ExtentOf(ss: seq<IndexedShape>, e: Extent): (r: Extent)
    ensures Wider(r, e)
    ensures forall j | 0 <= j < |ss| :: Covers(r, ss[j].shape.box)
    decreases |ss|
  {
    if ss == [] then e
    else
      var r := ExtentOf(ss[1..], Widen(e, ss[0].shape.box));
      assert forall j | 1 <= j < |ss| :: ss[j] == ss[1..][j - 1];
      r
  }

  /** std::min_element over three values: the first smallest. */
  function MinOf3(a: real, b: real, c: real): (r: real)
    ensures r <= a && r <= b && r <= c
    ensures r == a || r == b || r == c
  {
    var m := if b < a then b else a;
    if c < m then c else m
  }

  /** std::max_element over three values: the first largest. */
  function MaxOf3(a: real, b: real, c: real): (r: real)
    ensures r >= a && r >= b && r >= c
    ensures r == a || r == b || r == c
  {
    var m := if a < b then b else a;
    if m < c then c else m
  }

  /** The cube of the given centre and half-width reaches below and above box `b` along
      every axis. */
  predicate CubeEncloses(center: Point3, halfwidth: real, b: Box)
  {
    var lo := LowerCorner(b);
    var hi := UpperCorner(b);
    center.x - halfwidth <= lo.x && hi.x <= center.x + halfwidth
    && center.y - halfwidth <= lo.y && hi.y <= center.y + halfwidth
    && center.z - halfwidth <= lo.z && hi.z <= center.z + halfwidth
  }

  /** The cube of the given centre and half-width holds point `q`. */
  predicate CubeHolds(center: Point3, halfwidth: real, q: Point3)
  {
    center.x - halfwidth <= q.x <= center.x + halfwidth
    && center.y - halfwidth <= q.y <= center.y + halfwidth
    && center.z - halfwidth <= q.z <= center.z + halfwidth
  }

  /** The cube the parameters describe for extent `e`: from the least lower coordinate
      to the greatest upper one, on the diagonal x = y = z. */
  function CubeOf(e: Extent): (Point3, real)
  {
    var mn := MinOf3(e.lo.x, e.lo.y, e.lo.z);
    var mx := MaxOf3(e.hi.x, e.hi.y, e.hi.z);
    var c := (mn + mx) / 2.0;
    (Point3(c, c, c), (mx - mn) / 2.0)
  }

  /** Whatever the extent covers, its cube encloses. */
  lemma CubeOfEncloses(e: Extent, b: Box)
    requires Covers(e, b)
    ensures CubeEncloses(CubeOf(e).0, CubeOf(e).1, b)
  {
  }

  /** calculate_octree_parameters: the running extent starts at the origin; the cube then
      spans from the least lower coordinate to the greatest upper one on every axis. The
      result is a cube on the diagonal x = y = z holding every shape's box and the origin. */
  function CalculateOctreeParameters(ss: seq<IndexedShape>): (p: (Point3, real))
    ensures p.1 >= 0.0
    ensures p.0.x == p.0.y == p.0.z
    ensures forall j | 0 <= j < |ss| :: CubeEncloses(p.0, p.1, ss[j].shape.box)
    ensures CubeHolds(p.0, p.1, Point3(0.0, 0.0, 0.0))
  {
    var origin := Point3(0.0, 0.0, 0.0);
    var e := ExtentOf(ss, Extent(origin, origin));
    forall j | 0 <= j < |ss|
      ensures CubeEncloses(CubeOf(e).0, CubeOf(e).1, ss[j].shape.box)
    {
      CubeOfEncloses(e, ss[j].shape.box);
    }
    CubeOf(e)
  }

  /** The tree the constructor builds for a positive height: full, of max_size() nodes,
      and holding at every node exactly the shapes whose target it is. */
  lemma {:induction false} BuildThenInsert(rule: StraddleRule, center: Point3, halfwidth: real, height: nat, ss: seq<IndexedShape>)
    requires height >= 1
    ensures Full(InsertAll(rule, Build(center, halfwidth, height), ss), height)
    ensures Size(InsertAll(rule, Build(center, halfwidth, height), ss)) == MaxSize(height)
    ensures InsertAll(rule, Build(center, halfwidth, height), ss).center == center
    ensures InsertAll(rule, Build(center, halfwidth, height), ss).halfwidth == halfwidth
    ensures var tree := InsertAll(rule, Build(center, halfwidth, height), ss);
      forall path | ValidPath(tree, path) :: At(tree, path).shapes == Filter(rule, tree, ss, path)
  {
    var root := Build(center, halfwidth, height);
    var tree := InsertAll(rule, root, ss);
    InsertAllFrame(rule, root, ss);
    FrameFull(tree, root, height);
    BuildSize(center, halfwidth, height);
    FrameSize(tree, root);
    forall path | ValidPath(tree, path)
      ensures At(tree, path).shapes == Filter(rule, tree, ss, path)
    {
      FrameValid(tree, root, path);
      SameFrameReflexive(root);
      InsertAllContent(rule, root, root, ss, path);
      EmptyAt(root, path);
      FilterFrame(rule, tree, root, ss, path);
    }
  }

  /** Octree's constructor: height 0 is refused; otherwise the full tree is built around
      the parameter cube and the shapes are inserted in order. The result has max_size()
      nodes, its root cube holds every box, and every node holds, in input order, exactly
      the shapes whose target it is. */
  function MakeOctree(rule: StraddleRule, height: nat, ss: seq<IndexedShape>): (r: Result<Node, OctreeError>)
    ensures r.Failure? <==> height == 0
    ensures r.Success? ==> Full(r.value, height) && Size(r.value) == MaxSize(height)
    ensures r.Success? ==> (r.value.center, r.value.halfwidth) == CalculateOctreeParameters(ss)
    ensures r.Success? ==> forall j | 0 <= j < |ss| :: CubeEncloses(r.value.center, r.value.halfwidth, ss[j].shape.box)
    ensures r.Success? ==> forall path | ValidPath(r.value, path) :: At(r.value, path).shapes == Filter(rule, r.value, ss, path)
  {
    if height == 0 then Failure(EmptyOctree)
    else
      var p := CalculateOctreeParameters(ss);
      BuildThenInsert(rule, p.0, p.1, height, ss);
      Success(InsertAll(rule, Build(p.0, p.1, height), ss))
  }

  /** Every node of an empty tree holds no shape. */
  lemma {:induction false} EmptyAt(n: Node, path: seq<nat>)
    requires Empty(n) && ValidPath(n, path)
    ensures At(n, path).shapes == []
    decreases n
  {
    if path != [] {
      EmptyAt(n.children[path[0]], path[1..]);
    }
  }

  /** A value that is clear of a non-negative half-width under the tolerant test is at
      least Epsilon beyond it, so its tolerant sign is its exact sign. */
  lemma ClearOfHalfwidth(d: real, h: real)
    requires h >= 0.0 && !LessEqual(Abs(d), h)
    ensures Greater(d, 0.0) <==> d > 0.0
    ensures d > 0.0 ==> d >= h + Epsilon
    ensures d <= 0.0 ==> d <= -(h + Epsilon)
  {
  }

  /** Under the inclusive rule, two overlapping boxes that both keep clear of the plane
      orthogonal to axis `i` lie on the same side of it. */
  lemma {:induction false} AxisSidesAgree(center: Point3, first: Box, second: Box, i: nat)
    requires i < 3 && Proper(first) && Proper(second) && AxisOverlap(first, second, i)
    requires !Straddles(Inclusive, center, first, i) && !Straddles(Inclusive, center, second, i)
    ensures Greater(Delta(center, first, i), 0.0) <==> Greater(Delta(center, second, i), 0.0)
  {
    var d1 := Delta(center, first, i);
    var d2 := Delta(center, second, i);
    assert first.Halfwidth(i) >= 0.0 && second.Halfwidth(i) >= 0.0;
    ClearOfHalfwidth(d1, first.Halfwidth(i));
    ClearOfHalfwidth(d2, second.Halfwidth(i));
    assert Coord(first.center, i) - Coord(second.center, i) == d1 - d2;
  }

  /** A child number below 8 is fixed by its three bits. */
  lemma BitsDetermine(k1: nat, k2: nat)
    requires k1 < 8 && k2 < 8
    requires Bit(k1, 0) == Bit(k2, 0) && Bit(k1, 1) == Bit(k2, 1) && Bit(k1, 2) == Bit(k2, 2)
    ensures k1 == k2
  {
    assert Pow2(0) == 1 && Pow2(1) == 2 && Pow2(2) == 4;
  }

  /** Under the inclusive rule, two overlapping boxes that both fit in an octant of a cell
      fit in the same one. */
  lemma OctantsAgree(center: Point3, first: Box, second: Box)
    requires Proper(first) && Proper(second) && AreOverlapping(first, second)
    requires Octant(Inclusive, center, first).Some? && Octant(Inclusive, center, second).Some?
    ensures Octant(Inclusive, center, first) == Octant(Inclusive, center, second)
  {
    AxisSidesAgree(center, first, second, 0);
    AxisSidesAgree(center, first, second, 1);
    AxisSidesAgree(center, first, second, 2);
    BitsDetermine(Octant(Inclusive, center, first).value, Octant(Inclusive, center, second).value);
  }

  /** Under the inclusive rule the targets of two overlapping boxes lie on one path from
      the root: one is a prefix of the other. So the pair meets at the shallower node. */
  lemma {:induction false} InclusiveTargetsNest(n: Node, first: Box, second: Box)
    requires Proper(first) && Proper(second) && AreOverlapping(first, second)
    ensures TargetPath(Inclusive, n, first) <= TargetPath(Inclusive, n, second)
         || TargetPath(Inclusive, n, second) <= TargetPath(Inclusive, n, first)
    decreases n
  {
    var o1 := Octant(Inclusive, n.center, first);
    var o2 := Octant(Inclusive, n.center, second);
    if o1.Some? && o2.Some? && o1.value < |n.children| {
      OctantsAgree(n.center, first, second);
      InclusiveTargetsNest(n.children[o1.value], first, second);
    }
  }

  /** In a full tree of height 2, a box that fits in octant `k` of the root goes to the
      leaf child `k`. */
  lemma TargetInLeafChild(rule: StraddleRule, n: Node, box: Box, k: nat)
    requires Full(n, 2) && Octant(rule, n.center, box) == Some(k)
    ensures TargetPath(rule, n, box) == [k]
  {
    assert k < |n.children| && Full(n.children[k], 1);
    assert TargetPath(rule, n.children[k], box) == [];
  }

  /** Under the rule as written a point never straddles a dividing plane: the strict
      comparison against a zero half-width always fails, so its box goes to an octant even
      when the point lies on the plane. */
  lemma PointNeverStraddles(center: Point3, pt: Point3)
    ensures Octant(AsWritten, center, PointBox(pt)).Some?
  {
    var b := PointBox(pt);
    assert b.Halfwidth(0) == 0.0 && b.Halfwidth(1) == 0.0 && b.Halfwidth(2) == 0.0;
  }

  /** Hence under the rule as written a point shape always sinks to a leaf of a full tree. */
  lemma {:induction false} PointSinksToLeaf(n: Node, height: nat, pt: Point3)
    requires Full(n, height)
    ensures |TargetPath(AsWritten, n, PointBox(pt))| == height - 1
    decreases height
  {
    PointNeverStraddles(n.center, pt);
    if height > 1 {
      var k := Octant(AsWritten, n.center, PointBox(pt)).value;
      assert k < |n.children|;
      PointSinksToLeaf(n.children[k], height - 1, pt);
    }
  }

  /** The box of the point (1, 0, 0), which lies on the dividing planes x = 1 of the cell
      centred at (1, 1, 1): as written it goes to child 0, inclusively it stays. */
  lemma PointOnPlaneOctant()
    ensures Octant(AsWritten, Point3(1.0, 1.0, 1.0), Box(Point3(1.0, 0.0, 0.0), 0.0, 0.0, 0.0)) == Some(0)
    ensures Octant(Inclusive, Point3(1.0, 1.0, 1.0), Box(Point3(1.0, 0.0, 0.0), 0.0, 0.0, 0.0)) == None
  {
    var c := Point3(1.0, 1.0, 1.0);
    var b := Box(Point3(1.0, 0.0, 0.0), 0.0, 0.0, 0.0);
    assert Delta(c, b, 0) == 0.0 && Delta(c, b, 1) == -1.0 && Delta(c, b, 2) == -1.0;
    assert Straddles(Inclusive, c, b, 0);
    BitsDetermine(Octant(AsWritten, c, b).value, 0);
  }

  /** A box touching the plane x = 1 from the + side goes to child 1 of that cell. */
  lemma TouchingBoxOctant()
    ensures Octant(AsWritten, Point3(1.0, 1.0, 1.0), Box(Point3(1.5, 0.5, 0.0), 0.5, 0.5, 0.0)) == Some(1)
  {
    var c := Point3(1.0, 1.0, 1.0);
    var b := Box(Point3(1.5, 0.5, 0.0), 0.5, 0.5, 0.0);
    assert Delta(c, b, 0) == 0.5 && Delta(c, b, 1) == -0.5 && Delta(c, b, 2) == -1.0;
    assert !AreEqual(0.5, 0.0);
    BitsDetermine(Octant(AsWritten, c, b).value, 1);
  }

  /** Under the rule as written, a point on a cell's dividing plane and a box touching it
      from the + side go to different children although the boxes overlap; the inclusive
      rule keeps the point at the cell. */
  lemma AsWrittenSplitsTouching()
    ensures var c := Point3(1.0, 1.0, 1.0);
      var pt := Box(Point3(1.0, 0.0, 0.0), 0.0, 0.0, 0.0);
      var tri := Box(Point3(1.5, 0.5, 0.0), 0.5, 0.5, 0.0);
      && AreOverlapping(pt, tri)
      && Octant(AsWritten, c, pt) == Some(0)
      && Octant(AsWritten, c, tri) == Some(1)
      && Octant(Inclusive, c, pt) == None
  {
    PointOnPlaneOctant();
    TouchingBoxOctant();
  }
}
