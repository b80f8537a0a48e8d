/**
  Which lists share a Merkle root. The tree of MerkleTree repeats the last element of an odd level; written out,
  a list becomes a full list of two to the power of its depth, and without collisions that full list is what
  the root stands for.
 */
module MerkleShapes {
  import opened MerkleTree

  /** The element a leaf of the full tree repeats. */
  function Slot(n: nat, i: nat): (s: nat)
    requires 1 <= n && i < Pow2(Depth(n))
    ensures s < n
  {
    if n == 1 then 0
    else
      var pair := Slot(PairCount(n), i / 2);
      if i % 2 == 0 || 2 * pair + 1 >= n then 2 * pair else 2 * pair + 1
  }

  /** The leaves of the full tree. */
  function Padded(xs: seq<string>): (full: seq<string>)
    requires xs != []
    ensures |full| == Pow2(Depth(|xs|))
  {
    seq(Pow2(Depth(|xs|)), i requires 0 <= i < Pow2(Depth(|xs|)) => xs[Slot(|xs|, i)])
  }

  /** The level `k` steps up. */
  function Up(hash: Hash, xs: seq<string>, k: nat): (r: seq<string>)
    requires xs != [] && k <= Depth(|xs|)
    ensures r != [] && Depth(|r|) == Depth(|xs|) - k
    decreases k
  {
    if k == 0 then xs else Up(hash, Level(hash, xs), k - 1)
  }

  /** A pair of full leaves is what one hash above them was made of. */
  lemma PairOfLeaves(xs: seq<string>, j: nat)
    requires |xs| > 1 && j < Pow2(Depth(PairCount(|xs|)))
    ensures 2 * j + 1 < |Padded(xs)|
    ensures Combined(xs, Slot(PairCount(|xs|), j)) == Padded(xs)[2 * j] + Padded(xs)[2 * j + 1]
  {
    assert 2 * j / 2 == j && (2 * j + 1) / 2 == j;
  }

  lemma LeafOfLevel(hash: Hash, xs: seq<string>, j: nat)
    requires |xs| > 1 && j < Pow2(Depth(PairCount(|xs|)))
    ensures j < |Padded(Level(hash, xs))| && 2 * j + 1 < |Padded(xs)|
    ensures Padded(Level(hash, xs))[j] == hash(Padded(xs)[2 * j] + Padded(xs)[2 * j + 1])
  {
    PairOfLeaves(xs, j);
  }

  lemma LeavesKeepWidth(xs: seq<string>, width: nat)
    requires xs != [] && Uniform(xs, width)
    ensures Uniform(Padded(xs), width)
  {
  }

  /** What two full leaves hash to is among the strings of their level. */
  lemma PairIsHashed(xs: seq<string>, j: nat)
    requires |xs| > 1 && j < Pow2(Depth(PairCount(|xs|)))
    ensures 2 * j + 1 < |Padded(xs)|
    ensures Padded(xs)[2 * j] + Padded(xs)[2 * j + 1] in LevelStrings(xs)
  {
    PairOfLeaves(xs, j);
    LevelStringsHas(xs, Slot(PairCount(|xs|), j));
  }

  lemma SamePairAbove(hash: Hash, a: string, b: string, c: string, d: string, strings: set<string>)
    requires a + b in strings && c + d in strings && NoCollision(hash, strings)
    requires |a| == |b| && |c| == |d|
    ensures hash(a + b) == hash(c + d) <==> a == c && b == d
  {
    if hash(a + b) == hash(c + d) {
      SplitInHalf(a, b, c, d);
    }
  }

  lemma PairAgrees(hash: Hash, xs: seq<string>, ys: seq<string>, wx: nat, wy: nat, strings: set<string>, j: nat)
    requires |xs| > 1 && |ys| > 1 && Depth(|xs|) == Depth(|ys|) && j < Pow2(Depth(PairCount(|xs|)))
    requires Uniform(xs, wx) && Uniform(ys, wy)
    requires LevelStrings(xs) + LevelStrings(ys) <= strings && NoCollision(hash, strings)
    ensures j < |Padded(Level(hash, xs))| && j < |Padded(Level(hash, ys))|
    ensures 2 * j + 1 < |Padded(xs)| && 2 * j + 1 < |Padded(ys)|
    ensures Padded(Level(hash, xs))[j] == Padded(Level(hash, ys))[j]
       <==> Padded(xs)[2 * j] == Padded(ys)[2 * j] && Padded(xs)[2 * j + 1] == Padded(ys)[2 * j + 1]
  {
    hide Slot, Padded, NoCollision, Level, LevelStrings;
    var px, py := Padded(xs), Padded(ys);
    LeavesKeepWidth(xs, wx);
    LeavesKeepWidth(ys, wy);
    LeafOfLevel(hash, xs, j);
    LeafOfLevel(hash, ys, j);
    PairIsHashed(xs, j);
    PairIsHashed(ys, j);
    SamePairAbove(hash, px[2 * j], px[2 * j + 1], py[2 * j], py[2 * j + 1], strings);
  }

  lemma PairByPair(px: seq<string>, py: seq<string>, above: seq<string>, other: seq<string>)
    requires |px| == |py| == 2 * |above| && |above| == |other|
    requires forall j :: 0 <= j < |above| ==>
               (above[j] == other[j] <==> px[2 * j] == py[2 * j] && px[2 * j + 1] == py[2 * j + 1])
    ensures above == other <==> px == py
  {
    if above == other {
      forall i | 0 <= i < |px| ensures px[i] == py[i] {
        assert above[i / 2] == other[i / 2];
        assert i == 2 * (i / 2) || i == 2 * (i / 2) + 1;
      }
    }
  }

  /** Full leaves agree exactly when the full leaves of the levels above do. */
  lemma PaddedLevels(hash: Hash, xs: seq<string>, ys: seq<string>, wx: nat, wy: nat, strings: set<string>)
    requires |xs| > 1 && |ys| > 1 && Depth(|xs|) == Depth(|ys|)
    requires Uniform(xs, wx) && Uniform(ys, wy)
    requires LevelStrings(xs) + LevelStrings(ys) <= strings && NoCollision(hash, strings)
    ensures Padded(Level(hash, xs)) == Padded(Level(hash, ys)) <==> Padded(xs) == Padded(ys)
  {
    hide Slot, Padded, NoCollision, Level, LevelStrings, Uniform;
    forall j | 0 <= j < |Padded(Level(hash, xs))|
      ensures Padded(Level(hash, xs))[j] == Padded(Level(hash, ys))[j]
         <==> Padded(xs)[2 * j] == Padded(ys)[2 * j] && Padded(xs)[2 * j + 1] == Padded(ys)[2 * j + 1]
    {
      PairAgrees(hash, xs, ys, wx, wy, strings, j);
    }
    PairByPair(Padded(xs), Padded(ys), Padded(Level(hash, xs)), Padded(Level(hash, ys)));
  }

  lemma DepthOfOne(n: nat)
    requires 1 <= n
    ensures Depth(n) == 0 <==> n == 1
  {
  }

  /** Lists of the same depth share a root exactly when they fill the same full tree. */
  lemma {:induction false} SameDepthSameRoot(
    hash: Hash, xs: seq<string>, ys: seq<string>, wx: nat, wy: nat, length: nat, strings: set<string>)
    requires xs != [] && ys != [] && Depth(|xs|) == Depth(|ys|)
    requires Uniform(xs, wx) && Uniform(ys, wy) && FixedLength(hash, length)
    requires Hashed(hash, xs) + Hashed(hash, ys) <= strings && NoCollision(hash, strings)
    ensures Root(hash, xs) == Root(hash, ys) <==> Padded(xs) == Padded(ys)
    decreases |xs|
  {
    DepthOfOne(|xs|);
    DepthOfOne(|ys|);
    if |xs| == 1 {
      assert Padded(xs) == [xs[0]] && Padded(ys) == [ys[0]];
    } else {
      RootOneLevelUp(hash, xs);
      RootOneLevelUp(hash, ys);
      assert Uniform(Level(hash, xs), length) && Uniform(Level(hash, ys), length);
      hide NoCollision, LevelStrings, Root, Padded;
      PaddedLevels(hash, xs, ys, wx, wy, strings);
      SameDepthSameRoot(hash, Level(hash, xs), Level(hash, ys), length, length, length, strings);
    }
  }

  lemma UpNowhere(hash: Hash, xs: seq<string>)
    requires xs != []
    ensures Up(hash, xs, 0) == xs
  {
  }

  lemma UpOnce(hash: Hash, xs: seq<string>, k: nat)
    requires |xs| > 1 && 0 < k <= Depth(|xs|)
    ensures Depth(|Level(hash, xs)|) == Depth(|xs|) - 1
    ensures Up(hash, xs, k) == Up(hash, Level(hash, xs), k - 1)
  {
  }

  lemma SubsetsCompose(a: set<string>, b: set<string>, c: set<string>)
    requires a <= b <= c
    ensures a <= c
  {
  }

  lemma HashedOneUp(hash: Hash, xs: seq<string>)
    requires |xs| > 1
    ensures Hashed(hash, Level(hash, xs)) <= Hashed(hash, xs)
  {
    hide LevelStrings;
  }

  /** Going up does not change the root. */
  lemma {:induction false} UpKeepsTheRoot(hash: Hash, xs: seq<string>, k: nat)
    requires xs != [] && k <= Depth(|xs|)
    ensures Root(hash, Up(hash, xs, k)) == Root(hash, xs)
    decreases k
  {
    if k == 0 {
    } else {
      DepthOfOne(|xs|);
      UpOnce(hash, xs, k);
      RootOneLevelUp(hash, xs);
      hide Root, Level, Up, Depth;
      UpKeepsTheRoot(hash, Level(hash, xs), k - 1);
    }
  }

  /** Going up leaves fewer strings to hash. */
  lemma {:induction false} UpHashesLess(hash: Hash, xs: seq<string>, k: nat)
    requires xs != [] && k <= Depth(|xs|)
    ensures Hashed(hash, Up(hash, xs, k)) <= Hashed(hash, xs)
    decreases k
  {
    hide Hashed, Level, Up;
    if k == 0 {
      UpNowhere(hash, xs);
    } else {
      DepthOfOne(|xs|);
      UpOnce(hash, xs, k);
      HashedOneUp(hash, xs);
      UpHashesLess(hash, Level(hash, xs), k - 1);
      SubsetsCompose(Hashed(hash, Up(hash, xs, k)), Hashed(hash, Level(hash, xs)), Hashed(hash, xs));
    }
  }

  /** Going up makes every element a hash. */
  lemma {:induction false} UpIsUniform(hash: Hash, xs: seq<string>, k: nat, length: nat)
    requires xs != [] && 0 < k <= Depth(|xs|) && FixedLength(hash, length)
    ensures Uniform(Up(hash, xs, k), length)
    decreases k
  {
    DepthOfOne(|xs|);
    UpOnce(hash, xs, k);
    if k == 1 {
      assert Up(hash, Level(hash, xs), 0) == Level(hash, xs);
    } else {
      UpIsUniform(hash, Level(hash, xs), k - 1, length);
    }
  }

  /** Lists of different depth share a root exactly when the shorter fills the tree above the longer. */
  lemma DifferentDepthSameRoot(hash: Hash, xs: seq<string>, ys: seq<string>, wx: nat, wy: nat, length: nat, strings: set<string>)
    requires xs != [] && ys != [] && Depth(|xs|) <= Depth(|ys|)
    requires Uniform(xs, wx) && Uniform(ys, wy) && FixedLength(hash, length)
    requires Hashed(hash, xs) + Hashed(hash, ys) <= strings && NoCollision(hash, strings)
    ensures Root(hash, xs) == Root(hash, ys)
       <==> Padded(xs) == Padded(Up(hash, ys, Depth(|ys|) - Depth(|xs|)))
  {
    hide Root, Padded, NoCollision, Hashed, Up;
    var k := Depth(|ys|) - Depth(|xs|);
    UpKeepsTheRoot(hash, ys, k);
    UpHashesLess(hash, ys, k);
    if k == 0 {
      assert Up(hash, ys, 0) == ys by { UpNowhere(hash, ys); }
    } else {
      UpIsUniform(hash, ys, k, length);
    }
    SameDepthSameRoot(hash, xs, Up(hash, ys, k), wx, if k == 0 then wy else length, length, strings);
  }

  /** Elements shorter or longer than a hash cannot be mistaken for one: only lists of the same depth can share a root. */
  lemma SharedRootsExactly(hash: Hash, xs: seq<string>, ys: seq<string>, width: nat, length: nat)
    requires xs != [] && ys != [] && width != length
    requires Uniform(xs, width) && Uniform(ys, width) && FixedLength(hash, length)
    requires NoCollision(hash, Hashed(hash, xs) + Hashed(hash, ys))
    ensures Root(hash, xs) == Root(hash, ys) <==> Depth(|xs|) == Depth(|ys|) && Padded(xs) == Padded(ys)
  {
    hide Root, Padded, NoCollision, Hashed, Up;
    var strings := Hashed(hash, xs) + Hashed(hash, ys);
    if Depth(|xs|) == Depth(|ys|) {
      SameDepthSameRoot(hash, xs, ys, width, width, length, strings);
    } else if Depth(|xs|) < Depth(|ys|) {
      RootsAcrossDepthsDiffer(hash, xs, ys, width, length, strings);
    } else {
      RootsAcrossDepthsDiffer(hash, ys, xs, width, length, strings);
    }
  }

  lemma RootsAcrossDepthsDiffer(hash: Hash, xs: seq<string>, ys: seq<string>, width: nat, length: nat, strings: set<string>)
    requires xs != [] && ys != [] && width != length && Depth(|xs|) < Depth(|ys|)
    requires Uniform(xs, width) && Uniform(ys, width) && FixedLength(hash, length)
    requires Hashed(hash, xs) + Hashed(hash, ys) <= strings && NoCollision(hash, strings)
    ensures Root(hash, xs) != Root(hash, ys)
  {
    hide Root, Padded, NoCollision, Hashed, Up;
    var k := Depth(|ys|) - Depth(|xs|);
    var up := Up(hash, ys, k);
    DifferentDepthSameRoot(hash, xs, ys, width, width, length, strings);
    UpIsUniform(hash, ys, k, length);
    LeavesKeepWidth(xs, width);
    LeavesKeepWidth(up, length);
    Pow2IsPositive(Depth(|xs|));
    assert |Padded(xs)[0]| == width && |Padded(up)[0]| == length;
  }

  lemma Pow2IsPositive(k: nat)
    ensures Pow2(k) >= 1
  {
  }
}
