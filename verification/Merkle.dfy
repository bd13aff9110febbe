/** The duplicate-last Merkle tree over the action log, for digests of any type and an arbitrary pair hash. */
module Merkle {
  import opened Arithmetic

  /** The right neighbour of node 2i, or node 2i itself at the end of an odd level. */
  function RightOf(n: nat, i: nat): nat {
    if 2 * i + 1 < n then 2 * i + 1 else 2 * i
  }

  /** The level above: adjacent nodes are hashed in pairs, an unpaired last node with itself. */
  function Level<D>(pair: (D, D) -> D, nodes: seq<D>): (next: seq<D>)
    ensures |next| == (|nodes| + 1) / 2
    ensures forall i :: 0 <= i < |next| ==> 2 * i < |nodes| && next[i] == pair(nodes[2 * i], nodes[RightOf(|nodes|, i)])
  {
    seq((|nodes| + 1) / 2, i requires 0 <= i < (|nodes| + 1) / 2 => pair(nodes[2 * i], nodes[RightOf(|nodes|, i)]))
  }

  /** `merkleRoot`. Each level is strictly shorter than the one below. */
  function Root<D>(pair: (D, D) -> D, nodes: seq<D>): D
    requires nodes != []
    decreases |nodes|
  {
    if |nodes| == 1 then nodes[0] else Root(pair, Level(pair, nodes))
  }

  /** The loop of `merkleRoot`. */
  method NextLevel<D>(pair: (D, D) -> D, leaves: seq<D>) returns (next: seq<D>)
    ensures next == Level(pair, leaves)
  {
    next := [];
    var i := 0;
    while i < |leaves|
      invariant i == 2 * |next| && |next| <= (|leaves| + 1) / 2
      invariant forall k :: 0 <= k < |next| ==> next[k] == Level(pair, leaves)[k]
    {
      if i + 1 >= |leaves| {
        next := next + [pair(leaves[i], leaves[i])];
      } else {
        next := next + [pair(leaves[i], leaves[i + 1])];
      }
      i := i + 2;
    }
  }

  method MerkleRoot<D>(pair: (D, D) -> D, leaves: seq<D>) returns (root: D)
    requires leaves != []
    ensures root == Root(pair, leaves)
    decreases |leaves|
  {
    if |leaves| == 1 { return leaves[0]; }
    var next := NextLevel(pair, leaves);
    root := MerkleRoot(pair, next);
  }

  // ----- Height -----

  /** How many levels lie above `n` leaves. */
  function Height(n: nat): nat
    requires n > 0
  {
    if n == 1 then 0 else 1 + Height((n + 1) / 2)
  }

  /** The height is log2 of the number of leaves, rounded up. */
  lemma {:induction false} HeightIsLog(n: nat)
    requires n > 0
    ensures n <= Pow2(Height(n)) < 2 * n
  {
    if n > 1 {
      HeightIsLog((n + 1) / 2);
    }
  }

  // ----- Binding -----

  /** The pairs hashed on the way to the root. */
  ghost function Hashed<D>(nodes: seq<D>, pair: (D, D) -> D): set<(D, D)>
    decreases |nodes|
  {
    if |nodes| <= 1 then {}
    else (set i | 0 <= i < (|nodes| + 1) / 2 :: (nodes[2 * i], nodes[RightOf(|nodes|, i)]))
         + Hashed(Level(pair, nodes), pair)
  }

  /** Among these pairs no two different ones have the same hash. */
  ghost predicate CollisionFree<D>(pair: (D, D) -> D, pairs: set<(D, D)>) {
    forall p, q :: p in pairs && q in pairs && pair(p.0, p.1) == pair(q.0, q.1) ==> p == q
  }

  /** Node by node `a` repeats `b`, and what it has beyond `b` repeats something in `b`. */
  ghost predicate Mirrors<D>(a: seq<D>, b: seq<D>) {
    forall i :: 0 <= i < |a| ==> if i < |b| then a[i] == b[i] else a[i] in b
  }

  /** Equality one level up descends: equal parents have equal children. */
  lemma MirrorsDown<D>(pair: (D, D) -> D, a: seq<D>, b: seq<D>)
    requires |a| > 1 && |b| > 1
    requires CollisionFree(pair, Hashed(a, pair) + Hashed(b, pair))
    requires Mirrors(Level(pair, a), Level(pair, b))
    ensures Mirrors(a, b)
  {
    var a', b' := Level(pair, a), Level(pair, b);
    forall i | 0 <= i < |a| ensures if i < |b| then a[i] == b[i] else a[i] in b {
      var up := i / 2;
      assert up < |a'| && (if up < |b'| then a'[up] == b'[up] else a'[up] in b');
      var j :| 0 <= j < |b'| && a'[up] == b'[j] && (up < |b'| ==> j == up);
      ChildrenEqual(pair, a, b, up, j);
      assert i == 2 * up || i == RightOf(|a|, up);
      assert i < |b| ==> j == up;
    }
  }

  /** Two equal nodes one level up have equal children. */
  lemma ChildrenEqual<D>(pair: (D, D) -> D, a: seq<D>, b: seq<D>, i: nat, j: nat)
    requires |a| > 1 && |b| > 1 && i < |Level(pair, a)| && j < |Level(pair, b)|
    requires CollisionFree(pair, Hashed(a, pair) + Hashed(b, pair))
    requires Level(pair, a)[i] == Level(pair, b)[j]
    ensures a[2 * i] == b[2 * j] && a[RightOf(|a|, i)] == b[RightOf(|b|, j)]
  {
    var p, q := (a[2 * i], a[RightOf(|a|, i)]), (b[2 * j], b[RightOf(|b|, j)]);
    assert p in Hashed(a, pair) && q in Hashed(b, pair);
    assert pair(p.0, p.1) == pair(q.0, q.1);
  }

  /** Trees of the same height with the same root mirror each other. */
  lemma {:induction false} SameHeightMirrors<D>(pair: (D, D) -> D, a: seq<D>, b: seq<D>)
    requires a != [] && b != [] && Height(|a|) == Height(|b|)
    requires Root(pair, a) == Root(pair, b)
    requires CollisionFree(pair, Hashed(a, pair) + Hashed(b, pair))
    ensures Mirrors(a, b)
    decreases |a|
  {
    if |a| > 1 {
      SameHeightMirrors(pair, Level(pair, a), Level(pair, b));
      MirrorsDown(pair, a, b);
    }
  }

  /** If the heights differ, a node at the bottom of the lower tree is a hash inside the higher one. */
  lemma {:induction false} HigherTreeHidesLeaf<D>(pair: (D, D) -> D, a: seq<D>, b: seq<D>)
    requires a != [] && b != [] && Height(|a|) < Height(|b|)
    requires Root(pair, a) == Root(pair, b)
    requires CollisionFree(pair, Hashed(a, pair) + Hashed(b, pair))
    ensures exists p :: p in Hashed(b, pair) && a[0] == pair(p.0, p.1)
    decreases |b|
  {
    var b' := Level(pair, b);
    if Height(|a|) == Height(|b'|) {
      SameHeightMirrors(pair, a, b');
      var p := (b[0], b[RightOf(|b|, 0)]);
      assert p in Hashed(b, pair) && b'[0] == pair(p.0, p.1);
      assert a[0] == b'[0];
    } else {
      HigherTreeHidesLeaf(pair, a, b');
    }
  }

  /** No leaf is the hash of a pair. */
  ghost predicate LeavesApart<D>(pair: (D, D) -> D, leaves: seq<D>, pairs: set<(D, D)>) {
    forall i, p :: 0 <= i < |leaves| && p in pairs ==> leaves[i] != pair(p.0, p.1)
  }

  /** Equal roots, without a collision among what was hashed: the trees mirror each other both ways. */
  lemma EqualRootsMirror<D>(pair: (D, D) -> D, a: seq<D>, b: seq<D>)
    requires a != [] && b != [] && Root(pair, a) == Root(pair, b)
    requires var pairs := Hashed(a, pair) + Hashed(b, pair);
             CollisionFree(pair, pairs) && LeavesApart(pair, a, pairs) && LeavesApart(pair, b, pairs)
    ensures Mirrors(a, b) && Mirrors(b, a)
  {
    assert Hashed(b, pair) + Hashed(a, pair) == Hashed(a, pair) + Hashed(b, pair);
    if Height(|a|) < Height(|b|) {
      HigherTreeHidesLeaf(pair, a, b);
    } else if Height(|b|) < Height(|a|) {
      HigherTreeHidesLeaf(pair, b, a);
    } else {
      SameHeightMirrors(pair, a, b);
      SameHeightMirrors(pair, b, a);
    }
  }

  /** Without the index in the leaves the tree does not bind its length: three leaves and the same three
      with the last one repeated have the same root, whatever the hash. */
  lemma BareTreeCollides<D>(pair: (D, D) -> D, x: D, y: D, z: D)
    ensures Root(pair, [x, y, z]) == Root(pair, [x, y, z, z])
  {
    var three, four := [x, y, z], [x, y, z, z];
    assert RightOf(3, 0) == 1 && RightOf(3, 1) == 2 && RightOf(4, 0) == 1 && RightOf(4, 1) == 3;
    assert Level(pair, three)[0] == Level(pair, four)[0] && Level(pair, three)[1] == Level(pair, four)[1];
    assert Level(pair, three) == Level(pair, four);
  }

  // ----- Inclusion paths -----

  /** The sibling of node `i`; a missing one is the node itself. */
  function Sibling<D>(nodes: seq<D>, i: nat): D
    requires i < |nodes|
  {
    if i % 2 == 1 then nodes[i - 1] else if i + 1 < |nodes| then nodes[i + 1] else nodes[i]
  }

  /** The two children in order, of which `node` stands at position `i`. */
  function Ordered<D>(node: D, sibling: D, i: nat): (D, D) {
    if i % 2 == 1 then (sibling, node) else (node, sibling)
  }

  function Path<D>(pair: (D, D) -> D, nodes: seq<D>, i: nat): seq<D>
    requires i < |nodes|
    decreases |nodes|
  {
    if |nodes| == 1 then [] else [Sibling(nodes, i)] + Path(pair, Level(pair, nodes), i / 2)
  }

  /** Hashing up from a leaf along its siblings. */
  function Climb<D>(pair: (D, D) -> D, leaf: D, i: nat, path: seq<D>): D
    decreases |path|
  {
    if path == [] then leaf
    else
      var p := Ordered(leaf, path[0], i);
      Climb(pair, pair(p.0, p.1), i / 2, path[1..])
  }

  /** Node `i` and its sibling are the pair below node i/2. */
  lemma ParentOf<D>(nodes: seq<D>, i: nat)
    requires i < |nodes|
    ensures Ordered(nodes[i], Sibling(nodes, i), i) == (nodes[2 * (i / 2)], nodes[RightOf(|nodes|, i / 2)])
  {
    if i % 2 == 1 {
      assert i == 2 * (i / 2) + 1;
    } else {
      assert i == 2 * (i / 2);
    }
  }

  /** Every leaf has an inclusion path of exactly log2-many siblings. */
  lemma {:induction false} EveryLeafIncluded<D>(pair: (D, D) -> D, nodes: seq<D>, i: nat)
    requires i < |nodes|
    ensures |Path(pair, nodes, i)| == Height(|nodes|)
    ensures Climb(pair, nodes[i], i, Path(pair, nodes, i)) == Root(pair, nodes)
    decreases |nodes|
  {
    if |nodes| > 1 {
      var next := Level(pair, nodes);
      EveryLeafIncluded(pair, next, i / 2);
      ParentOf(nodes, i);
      assert Path(pair, nodes, i)[1..] == Path(pair, next, i / 2);
    }
  }

  /** The pairs hashed while climbing. */
  ghost function Climbed<D>(pair: (D, D) -> D, leaf: D, i: nat, path: seq<D>): set<(D, D)>
    decreases |path|
  {
    if path == [] then {}
    else
      var p := Ordered(leaf, path[0], i);
      {p} + Climbed(pair, pair(p.0, p.1), i / 2, path[1..])
  }

  lemma FewerPairs<D>(pair: (D, D) -> D, more: set<(D, D)>, fewer: set<(D, D)>)
    requires CollisionFree(pair, more) && fewer <= more
    ensures CollisionFree(pair, fewer)
  {
  }

  /** And nothing else has one: a path of the right length from any digest at position `i` that reaches the
      root starts at leaf `i`, provided what was hashed does not collide. */
  lemma {:induction false} OnlyLeavesIncluded<D>(pair: (D, D) -> D, nodes: seq<D>, leaf: D, i: nat, path: seq<D>)
    requires i < |nodes| && |path| == Height(|nodes|) && Climb(pair, leaf, i, path) == Root(pair, nodes)
    requires CollisionFree(pair, Hashed(nodes, pair) + Climbed(pair, leaf, i, path))
    ensures leaf == nodes[i]
    decreases |nodes|
  {
    if |nodes| > 1 {
      var next := Level(pair, nodes);
      var p := Ordered(leaf, path[0], i);
      FewerPairs(pair, Hashed(nodes, pair) + Climbed(pair, leaf, i, path),
                 Hashed(next, pair) + Climbed(pair, pair(p.0, p.1), i / 2, path[1..]));
      OnlyLeavesIncluded(pair, next, pair(p.0, p.1), i / 2, path[1..]);
      var q := (nodes[2 * (i / 2)], nodes[RightOf(|nodes|, i / 2)]);
      assert q in Hashed(nodes, pair) && p in Climbed(pair, leaf, i, path);
      ParentOf(nodes, i);
    }
  }
}
