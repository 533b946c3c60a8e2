/** The lock tree of one channel side: transfer/mtree/mtree.go. */
module Merkle {
  import opened Primitives

  /** A hashed time lock. */
  datatype Lock = Lock(expiration: int, amount: int, secretHash: SecretHash)

  /**
    Keccak digests as free terms. HashPair sorts its two arguments before hashing them,
    so a pair is identified by the unordered pair of its children.
    Leaves hash 96 bytes and pairs hash 64 bytes, so the two are never confused.
   */
  datatype Digest = Empty | LeafOf(lock: Lock) | PairOf(children: multiset<Digest>)

  function HashPair(first: Digest, second: Digest): Digest {
    if first == Empty then second
    else if second == Empty then first
    else PairOf(multiset{first, second})
  }

  function Hashes(leaves: seq<Lock>): (r: seq<Digest>)
    ensures |r| == |leaves|
  {
    seq(|leaves|, i requires 0 <= i < |leaves| => LeafOf(leaves[i]))
  }

  // ---------- Layers and root ----------

  function NextLayer(layer: seq<Digest>): (r: seq<Digest>)
    ensures |r| == |layer| / 2 + |layer| % 2
  {
    if |layer| < 2 then layer
    else [HashPair(layer[0], layer[1])] + NextLayer(layer[2..])
  }

  function Layers(layer: seq<Digest>): (r: seq<seq<Digest>>)
    requires |layer| > 0
    ensures |r| > 0 && r[0] == layer && |r[|r| - 1]| == 1
    ensures r[|r| - 1][0] == RootOf(layer)
    decreases |layer|
  {
    if |layer| == 1 then [layer] else [layer] + Layers(NextLayer(layer))
  }

  function RootOf(layer: seq<Digest>): Digest
    requires |layer| > 0
    decreases |layer|
  {
    if |layer| == 1 then layer[0] else RootOf(NextLayer(layer))
  }

  function MerkleRoot(leaves: seq<Lock>): Digest {
    if leaves == [] then Empty else RootOf(Hashes(leaves))
  }

  // ---------- Proofs ----------

  function PairIndex(i: nat): nat {
    if i % 2 == 0 then i + 1 else i - 1
  }

  /** The siblings met on the way from element `i` of `layer` up to the root. */
  function Siblings(layer: seq<Digest>, i: nat): seq<Digest>
    requires i < |layer|
    decreases |layer|
  {
    var here := if PairIndex(i) < |layer| then [layer[PairIndex(i)]] else [];
    if |layer| == 1 then here else here + Siblings(NextLayer(layer), i / 2)
  }

  function Climb(hash: Digest, proof: seq<Digest>): Digest
    decreases |proof|
  {
    if proof == [] then hash else Climb(HashPair(hash, proof[0]), proof[1..])
  }

  predicate CheckProof(proof: seq<Digest>, root: Digest, hash: Digest) {
    Climb(hash, proof) == root
  }

  lemma {:induction false} NextLayerElement(layer: seq<Digest>, k: nat)
    requires 2 * k < |layer|
    ensures k < |NextLayer(layer)|
    ensures NextLayer(layer)[k] == if 2 * k + 1 < |layer| then HashPair(layer[2 * k], layer[2 * k + 1])
        else layer[2 * k]
    decreases |layer|
  {
    if k > 0 {
      var rest := layer[2..];
      NextLayerElement(rest, k - 1);
      assert NextLayer(layer)[k] == NextLayer(rest)[k - 1];
    }
  }

  lemma HashPairCommutes(a: Digest, b: Digest)
    ensures HashPair(a, b) == HashPair(b, a)
  {
    assert multiset{a, b} == multiset{b, a};
  }

  lemma NextLayerAt(layer: seq<Digest>, i: nat)
    requires i < |layer|
    ensures i / 2 < |NextLayer(layer)|
    ensures NextLayer(layer)[i / 2]
         == if PairIndex(i) < |layer| then HashPair(layer[i], layer[PairIndex(i)]) else layer[i]
  {
    var k := i / 2;
    NextLayerElement(layer, k);
    if i % 2 == 1 {
      assert i == 2 * k + 1;
      HashPairCommutes(layer[2 * k], layer[i]);
    } else {
      assert i == 2 * k;
    }
  }

  lemma {:induction false} ClimbConcat(hash: Digest, p: seq<Digest>, q: seq<Digest>)
    ensures Climb(hash, p + q) == Climb(Climb(hash, p), q)
    decreases |p|
  {
    if p == [] {
      assert p + q == q;
    } else {
      assert (p + q)[1..] == p[1..] + q;
      ClimbConcat(HashPair(hash, p[0]), p[1..], q);
    }
  }

  /** Every element of a layer climbs to the root along its own siblings, whatever the layer's length. */
  lemma {:induction false} SiblingsReachRoot(layer: seq<Digest>, i: nat)
    requires i < |layer|
    ensures CheckProof(Siblings(layer, i), RootOf(layer), layer[i])
    decreases |layer|
  {
    if |layer| > 1 {
      var here := if PairIndex(i) < |layer| then [layer[PairIndex(i)]] else [];
      NextLayerAt(layer, i);
      assert Climb(layer[i], here) == NextLayer(layer)[i / 2];
      ClimbConcat(layer[i], here, Siblings(NextLayer(layer), i / 2));
      SiblingsReachRoot(NextLayer(layer), i / 2);
    }
  }

  // ---------- What a digest commits to ----------

  ghost predicate Commits(d: Digest, x: Lock)
    decreases d
  {
    match d
    case Empty => false
    case LeafOf(l) => l == x
    case PairOf(c) => exists e :: e in c && Commits(e, x)
  }

  lemma PairCommits(a: Digest, b: Digest, x: Lock)
    ensures Commits(HashPair(a, b), x) <==> Commits(a, x) || Commits(b, x)
  {
    if a != Empty && b != Empty {
      assert a in multiset{a, b} && b in multiset{a, b};
    }
  }

  ghost predicate LayerCommits(layer: seq<Digest>, x: Lock) {
    exists i :: 0 <= i < |layer| && Commits(layer[i], x)
  }

  lemma {:induction false} NextLayerCommits(layer: seq<Digest>, x: Lock)
    ensures LayerCommits(NextLayer(layer), x) <==> LayerCommits(layer, x)
    decreases |layer|
  {
    if |layer| >= 2 {
      var rest := layer[2..];
      NextLayerCommits(rest, x);
      PairCommits(layer[0], layer[1], x);
      assert layer == [layer[0], layer[1]] + rest;
      SplitCommits([layer[0], layer[1]], rest, x);
      SplitCommits([HashPair(layer[0], layer[1])], NextLayer(rest), x);
      assert LayerCommits([layer[0], layer[1]], x) <==> Commits(layer[0], x) || Commits(layer[1], x) by {
        assert [layer[0], layer[1]][0] == layer[0] && [layer[0], layer[1]][1] == layer[1];
      }
      assert LayerCommits([HashPair(layer[0], layer[1])], x) <==> Commits(HashPair(layer[0], layer[1]), x) by {
        assert [HashPair(layer[0], layer[1])][0] == HashPair(layer[0], layer[1]);
      }
    }
  }

  lemma SplitCommits(p: seq<Digest>, q: seq<Digest>, x: Lock)
    ensures LayerCommits(p + q, x) <==> LayerCommits(p, x) || LayerCommits(q, x)
  {
    if LayerCommits(p, x) {
      var i :| 0 <= i < |p| && Commits(p[i], x);
      assert (p + q)[i] == p[i];
    }
    if LayerCommits(q, x) {
      var i :| 0 <= i < |q| && Commits(q[i], x);
      assert (p + q)[|p| + i] == q[i];
    }
  }

  lemma {:induction false} RootCommits(layer: seq<Digest>, x: Lock)
    requires |layer| > 0
    ensures Commits(RootOf(layer), x) <==> LayerCommits(layer, x)
    decreases |layer|
  {
    if |layer| > 1 {
      NextLayerCommits(layer, x);
      RootCommits(NextLayer(layer), x);
    }
  }

  lemma MerkleRootCommits(leaves: seq<Lock>, x: Lock)
    ensures Commits(MerkleRoot(leaves), x) <==> x in leaves
  {
    if leaves != [] {
      RootCommits(Hashes(leaves), x);
      if x in leaves {
        var i :| 0 <= i < |leaves| && leaves[i] == x;
        assert Commits(Hashes(leaves)[i], x);
      }
    }
  }

  lemma {:induction false} ClimbCommits(hash: Digest, proof: seq<Digest>, x: Lock)
    requires Commits(hash, x)
    ensures Commits(Climb(hash, proof), x)
    decreases |proof|
  {
    if proof != [] {
      PairCommits(hash, proof[0], x);
      ClimbCommits(HashPair(hash, proof[0]), proof[1..], x);
    }
  }

  /** A lock can be proved against a root exactly when it is one of the tree's leaves: no proof can be forged. */
  lemma ProvableIffLeaf(leaves: seq<Lock>, x: Lock)
    ensures (exists proof :: CheckProof(proof, MerkleRoot(leaves), LeafOf(x))) <==> x in leaves
  {
    if proof :| CheckProof(proof, MerkleRoot(leaves), LeafOf(x)) {
      ClimbCommits(LeafOf(x), proof, x);
      MerkleRootCommits(leaves, x);
    }
    if x in leaves {
      var i :| 0 <= i < |leaves| && leaves[i] == x;
      SiblingsReachRoot(Hashes(leaves), i);
      assert CheckProof(Siblings(Hashes(leaves), i), MerkleRoot(leaves), LeafOf(x));
    }
  }

  /** Two trees with one root hold the same locks. */
  lemma RootDeterminesLocks(p: seq<Lock>, q: seq<Lock>)
    requires MerkleRoot(p) == MerkleRoot(q)
    ensures (set l | l in p) == (set l | l in q)
  {
    forall x ensures x in p <==> x in q {
      MerkleRootCommits(p, x);
      MerkleRootCommits(q, x);
    }
  }

  // ---------- The tree object ----------

  /** A tree is never changed once built; every change makes a new one. */
  datatype Tree = Tree(layers: seq<seq<Digest>>, leaves: seq<Lock>)

  ghost predicate Built(t: Tree) {
    t.layers == if t.leaves == [] then [[]] else Layers(Hashes(t.leaves))
  }

  method PairUp(prev: seq<Digest>) returns (cur: seq<Digest>)
    ensures cur == NextLayer(prev)
  {
    cur := [];
    var j := 0;
    while j < |prev|
      invariant 0 <= j <= |prev| ==> cur + NextLayer(prev[j..]) == NextLayer(prev)
      invariant j > |prev| ==> cur == NextLayer(prev)
      invariant 0 <= j
    {
      if j == |prev| - 1 {
        assert prev[j..] == [prev[j]];
        cur := cur + [prev[j]];
      } else {
        assert prev[j..][2..] == prev[j + 2..];
        cur := cur + [HashPair(prev[j], prev[j + 1])];
      }
      j := j + 2;
    }
  }

  lemma LayersStep(layers: seq<seq<Digest>>, prev: seq<Digest>)
    requires |prev| > 1
    ensures layers + Layers(prev) == (layers + [prev]) + Layers(NextLayer(prev))
  {
  }

  /** buildMerkleTreeLayers; the source panics on a duplicated element. */
  method BuildLayers(elements: seq<Digest>) returns (layers: seq<seq<Digest>>)
    requires Distinct(elements)
    ensures layers == if elements == [] then [[]] else Layers(elements)
  {
    layers := [];
    if elements == [] {
      return [[]];
    }
    var prev := elements;
    while |prev| != 1
      invariant |prev| > 0
      invariant layers + Layers(prev) == Layers(elements)
      decreases |prev|
    {
      var cur := PairUp(prev);
      LayersStep(layers, prev);
      layers := layers + [prev];
      prev := cur;
    }
    layers := layers + [prev];
  }

  method NewMerkleTree(leaves: seq<Lock>) returns (t: Tree)
    requires Distinct(leaves)
    ensures t.leaves == leaves && Built(t)
  {
    var elements := Hashes(leaves);
    var layers := BuildLayers(elements);
    t := Tree(layers, leaves);
  }

  method RootOfTree(t: Tree) returns (root: Digest)
    requires Built(t)
    ensures root == MerkleRoot(t.leaves)
  {
    var l := |t.layers|;
    if l > 1 {
      root := t.layers[l - 1][0];
    } else if l == 1 && |t.layers[0]| > 0 {
      root := t.layers[l - 1][0];
    } else {
      root := Empty;
    }
  }

  /** The last position of the element, or 0 when it is absent. */
  method FindLast(base: seq<Digest>, element: Digest) returns (idx: nat)
    ensures idx == 0 || idx < |base|
    ensures element in base ==> idx < |base| && base[idx] == element
    ensures forall k :: idx < k < |base| ==> base[k] != element
  {
    idx := 0;
    for i := 0 to |base|
      invariant idx == 0 || idx < |base|
      invariant element in base[..i] ==> base[idx] == element
      invariant forall k :: idx < k < i ==> base[k] != element
    {
      if element == base[i] {
        idx := i;
      }
    }
    assert base[..|base|] == base;
  }

  /** What the loop of MakeProof collects from layer `n` on: one sibling per layer, where there is one. */
  function Collected(layers: seq<seq<Digest>>, idx: nat): seq<Digest>
    decreases |layers|
  {
    if layers == [] then []
    else (if PairIndex(idx) < |layers[0]| then [layers[0][PairIndex(idx)]] else [])
         + Collected(layers[1..], idx / 2)
  }

  lemma {:induction false} CollectedIsSiblings(layer: seq<Digest>, idx: nat)
    requires idx < |layer|
    ensures Collected(Layers(layer), idx) == Siblings(layer, idx)
    decreases |layer|
  {
    if |layer| == 1 {
      assert Layers(layer)[1..] == [];
    } else {
      assert Layers(layer)[1..] == Layers(NextLayer(layer));
      CollectedIsSiblings(NextLayer(layer), idx / 2);
    }
  }

  method CollectSiblings(layers: seq<seq<Digest>>, start: nat) returns (proof: seq<Digest>)
    ensures proof == Collected(layers, start)
  {
    proof := [];
    var idx: nat := start;
    for n := 0 to |layers|
      invariant proof + Collected(layers[n..], idx) == Collected(layers, start)
    {
      assert layers[n..][1..] == layers[n + 1..];
      var pair := PairIndex(idx);
      if pair < |layers[n]| {
        proof := proof + [layers[n][pair]];
      }
      idx := idx / 2;
    }
  }

  /** MakeProof of a leaf always verifies against the tree's root. */
  method MakeProof(t: Tree, element: Digest) returns (proof: seq<Digest>)
    requires Built(t)
    ensures element in Hashes(t.leaves) ==> CheckProof(proof, MerkleRoot(t.leaves), element)
  {
    var idx := FindLast(t.layers[0], element);
    proof := CollectSiblings(t.layers, idx);
    if t.leaves != [] {
      CollectedIsSiblings(Hashes(t.leaves), idx);
      SiblingsReachRoot(Hashes(t.leaves), idx);
    }
  }

  // ---------- Leaf lists ----------

  /** The leaves with the first copy of `x` taken out. */
  function Without(leaves: seq<Lock>, x: Lock): seq<Lock> {
    if leaves == [] then []
    else if leaves[0] == x then leaves[1..]
    else [leaves[0]] + Without(leaves[1..], x)
  }

  lemma {:induction false} WithoutSplit(p: seq<Lock>, q: seq<Lock>, x: Lock)
    requires x !in p
    ensures Without(p + [x] + q, x) == p + q
    decreases |p|
  {
    if p == [] {
      assert p + [x] + q == [x] + q;
      assert p + q == q;
    } else {
      assert (p + [x] + q)[1..] == p[1..] + [x] + q;
      WithoutSplit(p[1..], q, x);
    }
  }

  lemma {:induction false} WithoutAbsent(leaves: seq<Lock>, x: Lock)
    requires x !in leaves
    ensures Without(leaves, x) == leaves
  {
    if leaves != [] {
      WithoutAbsent(leaves[1..], x);
    }
  }

  method RemoveHash(leaves: seq<Lock>, without: Lock) returns (r: seq<Lock>, found: bool)
    ensures found <==> without in leaves
    ensures r == Without(leaves, without)
  {
    for j := 0 to |leaves|
      invariant without !in leaves[..j]
    {
      if leaves[j] == without {
        WithoutSplit(leaves[..j], leaves[j + 1..], without);
        assert leaves == leaves[..j] + [without] + leaves[j + 1..];
        return leaves[..j] + leaves[j + 1..], true;
      }
    }
    assert leaves[..|leaves|] == leaves;
    WithoutAbsent(leaves, without);
    return leaves, false;
  }

  /** Removing a lock right after adding it gives the tree back. */
  lemma WithThenWithout(leaves: seq<Lock>, x: Lock)
    requires x !in leaves
    ensures Without(leaves + [x], x) == leaves
  {
    WithoutSplit(leaves, [], x);
    assert leaves + [x] + [] == leaves + [x];
    assert leaves + [] == leaves;
  }

  method ComputeMerkleRootWith(t: Tree, lock: Lock) returns (r: Tree)
    requires Distinct(t.leaves + [lock])
    ensures r.leaves == t.leaves + [lock] && Built(r)
  {
    r := NewMerkleTree(t.leaves + [lock]);
  }
}
