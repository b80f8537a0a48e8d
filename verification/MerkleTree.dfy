/**
  The Merkle tree of the proof-of-work submitter (src/MerkleTree.cpp). The hash is abstract:
  nothing is assumed of it but its output length and, where stated, that no two of the strings
  actually hashed collide.
 */
module MerkleTree {
  type Hash = string -> string

  // ---------------------------------------------------------- specification

  /** The right sibling of an even position; the last element of an odd list is its own. */
  function RightOf(elements: seq<string>, i: nat): string
    requires i < |elements|
  {
    if i + 1 < |elements| then elements[i + 1] else elements[i]
  }

  function PairCount(n: nat): nat {
    (n + 1) / 2
  }

  function Combined(elements: seq<string>, k: nat): string
    requires k < PairCount(|elements|)
  {
    elements[2 * k] + RightOf(elements, 2 * k)
  }

  /** The level above: one hash for each pair. */
  function Level(hash: Hash, elements: seq<string>): (up: seq<string>)
    ensures |up| == PairCount(|elements|)
    ensures forall k :: 0 <= k < |up| ==> up[k] == hash(Combined(elements, k))
  {
    seq(PairCount(|elements|), k requires 0 <= k < PairCount(|elements|) => hash(Combined(elements, k)))
  }

  function Root(hash: Hash, elements: seq<string>): string
    requires elements != []
    decreases |elements|
  {
    if |elements| == 1 then elements[0] else Root(hash, Level(hash, elements))
  }

  /** The strings hashed to make one level from the one below. */
  function LevelStrings(elements: seq<string>): set<string> {
    set k | 0 <= k < PairCount(|elements|) :: Combined(elements, k)
  }

  /** Every string hashed while building the tree. */
  function Hashed(hash: Hash, elements: seq<string>): set<string>
    requires elements != []
    decreases |elements|
  {
    if |elements| == 1 then {}
    else LevelStrings(elements) + Hashed(hash, Level(hash, elements))
  }

  predicate NoCollision(hash: Hash, strings: set<string>) {
    forall x, y :: x in strings && y in strings && hash(x) == hash(y) ==> x == y
  }

  predicate Uniform(elements: seq<string>, length: nat) {
    forall i :: 0 <= i < |elements| ==> |elements[i]| == length
  }

  ghost predicate FixedLength(hash: Hash, length: nat) {
    forall s :: |hash(s)| == length
  }

  function Depth(n: nat): nat
    requires 1 <= n
  {
    if n == 1 then 0 else 1 + Depth(PairCount(n))
  }

  function Pow2(k: nat): nat {
    if k == 0 then 1 else 2 * Pow2(k - 1)
  }

  // ------------------------------------------------------------------ binding

  lemma LevelStringsHas(elements: seq<string>, k: nat)
    requires k < PairCount(|elements|)
    ensures Combined(elements, k) in LevelStrings(elements)
  {
  }

  lemma SplitAt(a: string, b: string, c: string, d: string)
    requires a + b == c + d && |a| == |c|
    ensures a == c && b == d
  {
    assert a == (a + b)[..|a|] && c == (c + d)[..|a|];
    assert b == (a + b)[|a|..] && d == (c + d)[|a|..];
  }

  lemma SamePairs(xs: seq<string>, ys: seq<string>, width: nat)
    requires |xs| == |ys| && Uniform(xs, width) && Uniform(ys, width)
    requires forall k :: 0 <= k < PairCount(|xs|) ==> Combined(xs, k) == Combined(ys, k)
    ensures xs == ys
  {
    forall i | 0 <= i < |xs| ensures xs[i] == ys[i] {
      var k := i / 2;
      assert Combined(xs, k) == Combined(ys, k);
      SplitAt(xs[2 * k], RightOf(xs, 2 * k), ys[2 * k], RightOf(ys, 2 * k));
    }
  }

  lemma EqualLevels(hash: Hash, xs: seq<string>, ys: seq<string>, width: nat, strings: set<string>)
    requires |xs| == |ys| && Uniform(xs, width) && Uniform(ys, width)
    requires LevelStrings(xs) + LevelStrings(ys) <= strings && NoCollision(hash, strings)
    requires Level(hash, xs) == Level(hash, ys)
    ensures xs == ys
  {
    forall k | 0 <= k < PairCount(|xs|) ensures Combined(xs, k) == Combined(ys, k) {
      LevelStringsHas(xs, k);
      LevelStringsHas(ys, k);
      assert Level(hash, xs)[k] == Level(hash, ys)[k];
    }
    SamePairs(xs, ys, width);
  }

  lemma {:induction false} RootBindsLevels(
    hash: Hash, xs: seq<string>, ys: seq<string>, width: nat, length: nat, strings: set<string>)
    requires |xs| == |ys| >= 1
    requires Uniform(xs, width) && Uniform(ys, width) && FixedLength(hash, length)
    requires Hashed(hash, xs) + Hashed(hash, ys) <= strings && NoCollision(hash, strings)
    requires Root(hash, xs) == Root(hash, ys)
    ensures xs == ys
    decreases |xs|
  {
    hide NoCollision, LevelStrings;
    if |xs| <= 1 {
    } else {
      RootBindsLevels(hash, Level(hash, xs), Level(hash, ys), length, length, strings);
      EqualLevels(hash, xs, ys, width, strings);
    }
  }

  /**
    Binding: two different lists of the same length, of elements of one length, have different roots
    unless two of the strings hashed on the way collide.
   */
  lemma EqualRootsMeanEqualListsOrACollision(hash: Hash, xs: seq<string>, ys: seq<string>, width: nat, length: nat)
    requires |xs| == |ys| >= 1
    requires Uniform(xs, width) && Uniform(ys, width) && FixedLength(hash, length)
    ensures Root(hash, xs) == Root(hash, ys) && xs != ys ==>
              exists x, y :: x in Hashed(hash, xs) + Hashed(hash, ys) && y in Hashed(hash, xs) + Hashed(hash, ys)
                             && x != y && hash(x) == hash(y)
  {
    var strings := Hashed(hash, xs) + Hashed(hash, ys);
    if Root(hash, xs) == Root(hash, ys) && NoCollision(hash, strings) {
      RootBindsLevels(hash, xs, ys, width, length, strings);
    }
  }

  lemma RootOneLevelUp(hash: Hash, elements: seq<string>)
    requires |elements| > 1
    ensures Root(hash, elements) == Root(hash, Level(hash, elements))
  {
  }

  lemma RepeatingTheLastKeepsTheLevel(hash: Hash, xs: seq<string>)
    requires |xs| % 2 == 1
    ensures Level(hash, xs + [xs[|xs| - 1]]) == Level(hash, xs)
  {
    var ys := xs + [xs[|xs| - 1]];
    forall k | 0 <= k < PairCount(|xs|) ensures Combined(ys, k) == Combined(xs, k) {
    }
  }

  /** Repeating the last element of an odd list of three or more does not change the root: lengths are not bound. */
  lemma RepeatingTheLastKeepsTheRoot(hash: Hash, xs: seq<string>)
    requires 3 <= |xs| && |xs| % 2 == 1
    ensures Root(hash, xs + [xs[|xs| - 1]]) == Root(hash, xs)
  {
    RepeatingTheLastKeepsTheLevel(hash, xs);
    RootOneLevelUp(hash, xs);
    RootOneLevelUp(hash, xs + [xs[|xs| - 1]]);
  }

  // ---------------------------------------------------------------- node map

  type NodeMap = map<string, (string, string)>

  function InsertPairs(hash: Hash, elements: seq<string>, n: nat, m: NodeMap): NodeMap
    requires n <= PairCount(|elements|)
  {
    if n == 0 then m
    else InsertPairs(hash, elements, n - 1, m)[
           hash(Combined(elements, n - 1)) := (elements[2 * (n - 1)], RightOf(elements, 2 * (n - 1)))]
  }

  function Nodes(hash: Hash, elements: seq<string>, m: NodeMap): NodeMap
    requires elements != []
    decreases |elements|
  {
    if |elements| == 1 then m
    else Nodes(hash, Level(hash, elements), InsertPairs(hash, elements, PairCount(|elements|), m))
  }

  /** Every entry's key is the hash of its children, which were hashed by this build or an earlier one. */
  predicate Faithful(hash: Hash, m: NodeMap, strings: set<string>) {
    forall k :: k in m ==> m[k].0 + m[k].1 in strings && hash(m[k].0 + m[k].1) == k && |m[k].0| == |m[k].1|
  }

  lemma SplitInHalf(a: string, b: string, c: string, d: string)
    requires a + b == c + d && |a| == |b| && |c| == |d|
    ensures a == c && b == d
  {
    assert |a + b| == |c + d|;
    assert a == (a + b)[..|a|] && c == (c + d)[..|a|];
    assert b == (a + b)[|a|..] && d == (c + d)[|a|..];
  }

  lemma InsertOneGrows(hash: Hash, m: NodeMap, strings: set<string>, left: string, right: string)
    requires Faithful(hash, m, strings) && NoCollision(hash, strings)
    requires left + right in strings && |left| == |right|
    ensures var after := m[hash(left + right) := (left, right)];
            Faithful(hash, after, strings) && Extends(m, after)
  {
    var key := hash(left + right);
    if key in m {
      SplitInHalf(m[key].0, m[key].1, left, right);
    }
  }

  /** Nothing already in the map changes. */
  predicate Extends(m: NodeMap, after: NodeMap) {
    forall k :: k in m ==> k in after && after[k] == m[k]
  }

  predicate HoldsPairs(hash: Hash, elements: seq<string>, n: nat, m: NodeMap)
    requires n <= PairCount(|elements|)
  {
    forall k :: 0 <= k < n ==>
      hash(Combined(elements, k)) in m
      && m[hash(Combined(elements, k))] == (elements[2 * k], RightOf(elements, 2 * k))
  }

  lemma ExtendsComposes(a: NodeMap, b: NodeMap, c: NodeMap)
    requires Extends(a, b) && Extends(b, c)
    ensures Extends(a, c)
  {
  }

  lemma HoldsOnePairMore(hash: Hash, elements: seq<string>, n: nat, before: NodeMap, after: NodeMap)
    requires 1 <= n <= PairCount(|elements|) && HoldsPairs(hash, elements, n - 1, before) && Extends(before, after)
    requires hash(Combined(elements, n - 1)) in after
    requires after[hash(Combined(elements, n - 1))] == (elements[2 * (n - 1)], RightOf(elements, 2 * (n - 1)))
    ensures HoldsPairs(hash, elements, n, after)
  {
    hide Combined, RightOf;
  }

  lemma {:induction false} InsertPairsGrows(
    hash: Hash, elements: seq<string>, n: nat, m: NodeMap, strings: set<string>, width: nat)
    requires n <= PairCount(|elements|) && Uniform(elements, width)
    requires Faithful(hash, m, strings) && NoCollision(hash, strings)
    requires LevelStrings(elements) <= strings
    ensures var after := InsertPairs(hash, elements, n, m);
            && Faithful(hash, after, strings)
            && Extends(m, after)
            && HoldsPairs(hash, elements, n, after)
    decreases n
  {
    if n == 0 {
    } else {
      hide Faithful, NoCollision;
      InsertPairsGrows(hash, elements, n - 1, m, strings, width);
      LevelStringsHas(elements, n - 1);
      var before := InsertPairs(hash, elements, n - 1, m);
      InsertOneGrows(hash, before, strings, elements[2 * (n - 1)], RightOf(elements, 2 * (n - 1)));
      hide HoldsPairs, Extends;
      ExtendsComposes(m, before, InsertPairs(hash, elements, n, m));
      HoldsOnePairMore(hash, elements, n, before, InsertPairs(hash, elements, n, m));
    }
  }

  lemma {:induction false} NodesGrow(
    hash: Hash, elements: seq<string>, m: NodeMap, strings: set<string>, width: nat, length: nat)
    requires elements != [] && Uniform(elements, width) && FixedLength(hash, length)
    requires Faithful(hash, m, strings) && NoCollision(hash, strings)
    requires Hashed(hash, elements) <= strings
    ensures Faithful(hash, Nodes(hash, elements, m), strings)
    ensures Extends(m, Nodes(hash, elements, m))
    decreases |elements|
  {
    if |elements| <= 1 {
    } else {
      hide Faithful, NoCollision, LevelStrings, InsertPairs;
      InsertPairsGrows(hash, elements, PairCount(|elements|), m, strings, width);
      NodesGrow(hash, Level(hash, elements), InsertPairs(hash, elements, PairCount(|elements|), m), strings, length, length);
    }
  }

  /** Follow the bits of `i` down from `node`: an even half goes left, an odd one right. */
  function Walk(m: NodeMap, node: string, i: nat, depth: nat): (leaf: seq<string>)
    ensures |leaf| <= 1
  {
    if depth == 0 then [node]
    else
      var parent := Walk(m, node, i / 2, depth - 1);
      if parent == [] || parent[0] !in m then []
      else [if i % 2 == 0 then m[parent[0]].0 else m[parent[0]].1]
  }

  lemma WalkDown(m: NodeMap, root: string, i: nat, depth: nat, parent: string, elements: seq<string>)
    requires i < |elements|
    requires Walk(m, root, i / 2, depth) == [parent]
    requires parent in m && m[parent] == (elements[2 * (i / 2)], RightOf(elements, 2 * (i / 2)))
    ensures Walk(m, root, i, depth + 1) == [elements[i]]
  {
  }

  lemma WalkOfOne(hash: Hash, elements: seq<string>, m: NodeMap)
    requires |elements| == 1
    ensures Walk(Nodes(hash, elements, m), Root(hash, elements), 0, Depth(1)) == [elements[0]]
  {
  }

  /** The pair over an index is in the map however far the build has gone on. */
  lemma PairStays(
    hash: Hash, elements: seq<string>, m: NodeMap, strings: set<string>, width: nat, length: nat, k: nat)
    requires |elements| > 1 && k < PairCount(|elements|) && Uniform(elements, width) && FixedLength(hash, length)
    requires Faithful(hash, m, strings) && NoCollision(hash, strings)
    requires Hashed(hash, elements) <= strings
    ensures Faithful(hash, InsertPairs(hash, elements, PairCount(|elements|), m), strings)
    ensures Uniform(Level(hash, elements), length)
    ensures Hashed(hash, Level(hash, elements)) <= strings
    ensures var key := hash(Combined(elements, k));
            key in Nodes(hash, elements, m)
            && Nodes(hash, elements, m)[key] == (elements[2 * k], RightOf(elements, 2 * k))
  {
    hide Faithful, NoCollision, LevelStrings, InsertPairs, Combined, RightOf;
    var inserted := InsertPairs(hash, elements, PairCount(|elements|), m);
    InsertPairsGrows(hash, elements, PairCount(|elements|), m, strings, width);
    NodesGrow(hash, Level(hash, elements), inserted, strings, length, length);
  }

  /** From the root, the choices read from an index lead through the map to that element. */
  lemma {:induction false} WalkReachesEveryElement(
    hash: Hash, elements: seq<string>, m: NodeMap, strings: set<string>, width: nat, length: nat, i: nat)
    requires i < |elements| && Uniform(elements, width) && FixedLength(hash, length)
    requires Faithful(hash, m, strings) && NoCollision(hash, strings)
    requires Hashed(hash, elements) <= strings
    ensures Walk(Nodes(hash, elements, m), Root(hash, elements), i, Depth(|elements|)) == [elements[i]]
    decreases |elements|
  {
    hide Faithful, NoCollision, Hashed, InsertPairs, Combined, Walk, Nodes, Root, Uniform;
    if |elements| == 1 {
      WalkOfOne(hash, elements, m);
    } else {
      var up := Level(hash, elements);
      var inserted := InsertPairs(hash, elements, PairCount(|elements|), m);
      PairStays(hash, elements, m, strings, width, length, i / 2);
      RootOneLevelUp(hash, elements);
      OneLevelUp(hash, elements, m);
      WalkReachesEveryElement(hash, up, inserted, strings, length, length, i / 2);
      WalkDown(Nodes(hash, elements, m), Root(hash, elements), i, Depth(|up|), hash(Combined(elements, i / 2)), elements);
    }
  }

  /** The walk's length is the ceiling of the binary logarithm. */
  lemma {:induction false} DepthIsCeilingLog2(n: nat)
    requires 1 <= n
    ensures n <= Pow2(Depth(n))
    ensures 2 <= n ==> Pow2(Depth(n) - 1) < n
  {
    if n <= 1 {
    } else {
      DepthIsCeilingLog2(PairCount(n));
    }
  }

  // ---------------------------------------------------------------- the class

  class MerkleTree {
    const hashValue: Hash
    var merkleTree: NodeMap
    var merkleRoot: string
    ghost var leaves: seq<string>

    /** The stored root and map are those of the elements the tree was built from. */
    ghost predicate Valid()
      reads this
    {
      leaves != [] && merkleRoot == Root(hashValue, leaves) && merkleTree == Nodes(hashValue, leaves, map[])
    }

    constructor (hashValue: Hash, elements: seq<string>)
      requires elements != []
      ensures this.hashValue == hashValue
      ensures Valid() && leaves == elements
    {
      this.hashValue := hashValue;
      merkleTree := map[];
      merkleRoot := "";
      leaves := elements;
      new;
      BuildTree(elements);
    }

    /** Hash one level into the one above, entering every pair in the map. */
    method HashPairs(elements: seq<string>) returns (newElements: seq<string>)
      modifies this`merkleTree
      ensures newElements == Level(hashValue, elements)
      ensures merkleTree == InsertPairs(hashValue, elements, PairCount(|elements|), old(merkleTree))
    {
      hide InsertPairs, Level, Combined;
      newElements := [];
      var i := 0;
      ghost var k := 0;
      InsertNoPairs(hashValue, elements, merkleTree);
      while i < |elements|
        invariant i == 2 * k && k <= PairCount(|elements|)
        invariant newElements == Level(hashValue, elements)[..k]
        invariant merkleTree == InsertPairs(hashValue, elements, k, old(merkleTree))
      {
        var left := elements[i];
        var right := if i + 1 < |elements| then elements[i + 1] else left;
        var newHash := hashValue(left + right);
        InsertOnePairMore(hashValue, elements, k, old(merkleTree));
        LevelOneMore(hashValue, elements, k);
        merkleTree := merkleTree[newHash := (left, right)];
        newElements := newElements + [newHash];
        i := i + 2;
        k := k + 1;
      }
    }

    method BuildTree(elements: seq<string>)
      requires elements != []
      modifies this`merkleRoot, this`merkleTree
      ensures merkleRoot == Root(hashValue, elements)
      ensures merkleTree == Nodes(hashValue, elements, old(merkleTree))
      decreases |elements|
    {
      if |elements| == 1 {
        merkleRoot := elements[0];
        return;
      }
      RootOneLevelUp(hashValue, elements);
      OneLevelUp(hashValue, elements, merkleTree);
      var newElements := HashPairs(elements);
      BuildTree(newElements);
    }

    /** The root commits to the elements: it is theirs, and no other equally long list's without a collision. */
    method GetMerkleRoot() returns (r: string)
      requires Valid()
      ensures r == Root(hashValue, leaves)
      ensures forall other: seq<string>, width: nat, length: nat
                | |other| == |leaves| && Uniform(other, width) && Uniform(leaves, width) && FixedLength(hashValue, length)
                  && NoCollision(hashValue, Hashed(hashValue, leaves) + Hashed(hashValue, other)) ::
                Root(hashValue, other) == r ==> other == leaves
    {
      r := merkleRoot;
      forall other: seq<string>, width: nat, length: nat |
        |other| == |leaves| && Uniform(other, width) && Uniform(leaves, width) && FixedLength(hashValue, length)
        && NoCollision(hashValue, Hashed(hashValue, leaves) + Hashed(hashValue, other)) && Root(hashValue, other) == r
        ensures other == leaves
      {
        RootBindsLevels(hashValue, other, leaves, width, length,
                        Hashed(hashValue, leaves) + Hashed(hashValue, other));
      }
    }
  }

  lemma InsertNoPairs(hash: Hash, elements: seq<string>, m: NodeMap)
    ensures InsertPairs(hash, elements, 0, m) == m
  {
  }

  lemma InsertOnePairMore(hash: Hash, elements: seq<string>, n: nat, m: NodeMap)
    requires n < PairCount(|elements|)
    ensures InsertPairs(hash, elements, n + 1, m)
         == InsertPairs(hash, elements, n, m)[hash(Combined(elements, n)) := (elements[2 * n], RightOf(elements, 2 * n))]
  {
  }

  lemma LevelOneMore(hash: Hash, elements: seq<string>, k: nat)
    requires 2 * k < |elements|
    ensures k < PairCount(|elements|) == |Level(hash, elements)|
    ensures Level(hash, elements)[..k + 1] == Level(hash, elements)[..k] + [hash(elements[2 * k] + RightOf(elements, 2 * k))]
    ensures Combined(elements, k) == elements[2 * k] + RightOf(elements, 2 * k)
  {
  }

  lemma OneLevelUp(hash: Hash, elements: seq<string>, m: NodeMap)
    requires |elements| > 1
    ensures Nodes(hash, elements, m) == Nodes(hash, Level(hash, elements), InsertPairs(hash, elements, PairCount(|elements|), m))
  {
  }

  /** A tree built from scratch answers every index, in as many lookups as its depth. */
  lemma BuiltTreeAnswersEveryIndex(hash: Hash, elements: seq<string>, width: nat, length: nat, i: nat)
    requires i < |elements| && Uniform(elements, width) && FixedLength(hash, length)
    requires NoCollision(hash, Hashed(hash, elements))
    ensures Walk(Nodes(hash, elements, map[]), Root(hash, elements), i, Depth(|elements|)) == [elements[i]]
  {
    WalkReachesEveryElement(hash, elements, map[], Hashed(hash, elements), width, length, i);
  }
}
