/**
  The chain simulator of server/chain_simulator.py: a block log with its indexes (known keys, balances, next id)
  and a difficulty that moves every few blocks.
 */
module ChainSimulator {
  import opened Numbers
  import opened Text
  import opened Totals

  const KEY_HEX_LENGTH: nat := 64
  const MIN_DIFFICULTY := 100
  const MAX_DIFFICULTY := 100000
  const SUPERBLOCK_UPPERCASE_THRESHOLD: nat := 50
  const NORMAL_BLOCK_MARKER := "XEN11"

  datatype BlockType = Normal | Super | Xuni

  datatype Block = Block(id: nat, account: string, key: string, hash: string, blockType: BlockType)

  datatype Config = Config(baseDifficulty: int, adjustInterval: int, xuniAlwaysValid: bool, blockMarker: string)

  datatype Chain = Chain(
    blocks: seq<Block>, knownKeys: set<string>, balances: map<string, real>, nextBlockId: nat, difficulty: int)

  datatype Submission = Submission(hash: string, key: string, account: string, inXuniWindow: bool)

  datatype KeyError = EmptyKey | ShortKey | NotHex

  datatype Verdict = BadKey(error: KeyError) | DuplicateKey | BadHash | Accepted(blockType: BlockType)

  // ------------------------------------------------------------- validation

  predicate IsHex(c: char) {
    '0' <= c <= '9' || 'a' <= c <= 'f' || 'A' <= c <= 'F'
  }

  predicate IsSpace(c: char) {
    c == ' ' || '\t' <= c <= '\r' || ('\U{1c}' <= c <= '\U{1f}')
  }

  function TrimLeft(s: string): string {
    if s != [] && IsSpace(s[0]) then TrimLeft(s[1..]) else s
  }

  function TrimRight(s: string): string {
    if s != [] && IsSpace(s[|s| - 1]) then TrimRight(s[..|s| - 1]) else s
  }

  predicate HexDigits(s: string) {
    && s != [] && IsHex(s[0]) && IsHex(s[|s| - 1])
    && (forall i :: 0 <= i < |s| ==> IsHex(s[i]) || s[i] == '_')
    && (forall i :: 1 <= i < |s| && s[i] == '_' ==> s[i - 1] != '_')
  }

  /** What Python's `int(key, 16)` accepts: blanks around, a sign, `0x`, and single underscores between digits. */
  predicate ParsesAsHex(key: string) {
    var trimmed := TrimRight(TrimLeft(key));
    var body := if trimmed != [] && (trimmed[0] == '+' || trimmed[0] == '-') then trimmed[1..] else trimmed;
    if |body| >= 2 && body[0] == '0' && (body[1] == 'x' || body[1] == 'X')
    then HexDigits(if |body| >= 3 && body[2] == '_' then body[3..] else body[2..])
    else HexDigits(body)
  }

  function KeyProblem(key: string): Option<KeyError> {
    if key == "" then Some(EmptyKey)
    else if |key| < KEY_HEX_LENGTH then Some(ShortKey)
    else if !ParsesAsHex(key) then Some(NotHex)
    else None
  }

  function UppercaseCount(s: string): nat {
    if s == "" then 0 else (if 'A' <= s[0] <= 'Z' then 1 else 0) + UppercaseCount(s[1..])
  }

  predicate XuniAt(s: string, at: int) {
    0 <= at <= |s| - 5 && s[at..at + 4] == "XUNI" && '0' <= s[at + 4] <= '9'
  }

  predicate HasXuni(s: string) {
    exists at :: 0 <= at <= |s| - 5 && XuniAt(s, at)
  }

  function ClassifyBlock(config: Config, hash: string, inXuniWindow: bool): Option<BlockType> {
    var marker := if config.blockMarker == "" then NORMAL_BLOCK_MARKER else config.blockMarker;
    if Contains(hash, marker) then
      Some(if UppercaseCount(hash) >= SUPERBLOCK_UPPERCASE_THRESHOLD then Super else Normal)
    else if HasXuni(hash) && (config.xuniAlwaysValid || inXuniWindow) then Some(Xuni)
    else None
  }

  function Reward(t: BlockType): real {
    match t case Super => 50.0 case Normal => 10.0 case Xuni => 1.0
  }

  /** Letters of a text that are upper-case. */
  function Capitals(s: string): set<nat> {
    set i | 0 <= i < |s| && 'A' <= s[i] <= 'Z'
  }

  lemma {:induction false} UppercaseCounts(s: string)
    ensures UppercaseCount(s) == |Capitals(s)|
  {
    if s == "" {
    } else {
      UppercaseCounts(s[1..]);
      var rest := Capitals(s[1..]);
      var shifted := set i | i in rest :: i + 1;
      Shifted(rest, shifted);
      assert Capitals(s) == shifted + (if 'A' <= s[0] <= 'Z' then {0} else {}) by {
        forall i | i in Capitals(s) && i > 0 ensures i in shifted {
          assert i - 1 in rest;
        }
      }
    }
  }

  lemma {:induction false} Shifted(a: set<nat>, b: set<nat>)
    requires b == set i | i in a :: i + 1
    ensures |b| == |a|
  {
    if a == {} {
    } else {
      var x :| x in a;
      var rest := a - {x};
      var fewer := set i | i in rest :: i + 1;
      Shifted(rest, fewer);
      forall y | y in b ensures y in fewer + {x + 1} {
        var i :| i in a && y == i + 1;
        assert i == x || i in rest;
      }
      assert b == fewer + {x + 1};
    }
  }

  /** A text stands at a place sign by sign; XUNI is followed there by a decimal digit. */
  lemma MarksAreRead(hash: string, part: string, at: int)
    ensures PartAt(hash, part, at) <==>
              0 <= at && at + |part| <= |hash| && forall k :: 0 <= k < |part| ==> hash[at + k] == part[k]
    ensures XuniAt(hash, at) <==>
              && 0 <= at && at + 5 <= |hash|
              && hash[at] == 'X' && hash[at + 1] == 'U' && hash[at + 2] == 'N' && hash[at + 3] == 'I'
              && '0' <= hash[at + 4] <= '9'
  {
    if 0 <= at && at + |part| <= |hash| {
      var cut := hash[at..at + |part|];
      assert forall k :: 0 <= k < |cut| ==> cut[k] == hash[at + k];
    }
    if 0 <= at && at + 5 <= |hash| {
      var four := hash[at..at + 4];
      assert four[0] == hash[at] && four[1] == hash[at + 1] && four[2] == hash[at + 2] && four[3] == hash[at + 3];
      assert four == "XUNI" <==> four[0] == 'X' && four[1] == 'U' && four[2] == 'N' && four[3] == 'I';
    }
  }

  /** A block is normal or super by the marker, super from fifty capitals on, XUNI by its digit inside the window. */
  lemma ClassifiedExactly(config: Config, hash: string, inXuniWindow: bool, marker: string)
    requires marker == if config.blockMarker == "" then "XEN11" else config.blockMarker
    ensures var t := ClassifyBlock(config, hash, inXuniWindow);
            var marked := exists at :: 0 <= at <= |hash| - |marker| && PartAt(hash, marker, at);
            var xuni := exists at :: 0 <= at <= |hash| - 5 && XuniAt(hash, at);
            && (t == Some(Super) <==> marked && |Capitals(hash)| >= 50)
            && (t == Some(Normal) <==> marked && |Capitals(hash)| < 50)
            && (t == Some(Xuni) <==> !marked && xuni && (config.xuniAlwaysValid || inXuniWindow))
  {
    UppercaseCounts(hash);
    hide UppercaseCount, Capitals;
  }

  /** Keys of at least 64 hexadecimal digits are accepted; empty ones, shorter ones and those of other signs are not. */
  lemma KeysAccepted(key: string)
    ensures |key| >= 64 && AllHex(key) ==> KeyProblem(key) == None
    ensures key == "" <==> KeyProblem(key) == Some(EmptyKey)
    ensures 0 < |key| < 64 <==> KeyProblem(key) == Some(ShortKey)
    ensures (exists i :: 0 <= i < |key| && Foreign(key[i])) ==> KeyProblem(key) != None
  {
    if |key| >= 64 {
      TrimmedInside(key);
      if AllHex(key) {
        assert TrimLeft(key) == key && TrimRight(key) == key;
      }
    }
  }

  predicate AllHex(s: string) {
    forall i :: 0 <= i < |s| ==> IsHex(s[i])
  }

  /** A sign in front of the digits is taken. */
  lemma SignedKeysAccepted(sign: char, digits: string)
    requires sign == '+' || sign == '-'
    requires |digits| >= 63 && AllHex(digits)
    ensures KeyProblem([sign] + digits) == None
  {
    PlainTrims([sign] + digits);
    assert ([sign] + digits)[1..] == digits;
    hide TrimLeft, TrimRight;
  }

  /** So is `0x`. */
  lemma PrefixedKeysAccepted(digits: string)
    requires |digits| >= 62 && AllHex(digits)
    ensures KeyProblem("0x" + digits) == None
  {
    PlainTrims("0x" + digits);
    assert ("0x" + digits)[2..] == digits;
    hide TrimLeft, TrimRight;
  }

  /** So is a blank before or after them. */
  lemma BlankedKeysAccepted(digits: string)
    requires |digits| >= 63 && AllHex(digits)
    ensures KeyProblem(" " + digits) == None && KeyProblem(digits + " ") == None
  {
    PlainTrims(digits);
    assert (" " + digits)[1..] == digits && (digits + " ")[..|digits|] == digits;
    assert TrimLeft(" " + digits) == digits;
    assert TrimLeft(digits + " ") == digits + " ";
    assert TrimRight(digits + " ") == digits;
  }

  /** One underscore between two digits is taken, one in front of them all is not. */
  lemma UnderscoredKeys(before: string, after: string)
    requires before != "" && after != "" && |before| + |after| >= 63 && AllHex(before) && AllHex(after)
    ensures KeyProblem(before + "_" + after) == None
    ensures KeyProblem("_" + before + after) == Some(NotHex)
  {
    var once, front := before + "_" + after, "_" + before + after;
    PlainTrims(once);
    PlainTrims(front);
    assert once[|once| - 1] == after[|after| - 1] && front[0] == '_';
    assert forall i :: 0 <= i < |once| ==>
      once[i] == (if i < |before| then before[i] else if i == |before| then '_' else after[i - |before| - 1]);
  }

  /** Two underscores in a row are refused. */
  lemma TwoUnderscoresRefused(before: string, after: string)
    requires before != "" && after != "" && |before| + |after| >= 62 && AllHex(before) && AllHex(after)
    ensures KeyProblem(before + "__" + after) == Some(NotHex)
  {
    var twice := before + "__" + after;
    PlainTrims(twice);
    assert twice[0] == before[0] && twice[|before|] == '_' && twice[|before| + 1] == '_' && !HexDigits(twice);
  }

  lemma PlainTrims(s: string)
    requires s != "" && !IsSpace(s[0]) && !IsSpace(s[|s| - 1])
    ensures TrimLeft(s) == s && TrimRight(s) == s && TrimRight(TrimLeft(s)) == s
  {
  }

  /** A sign no reading of a hexadecimal number has a place for. */
  predicate Foreign(c: char) {
    !IsHex(c) && !IsSpace(c) && c != '_' && c != '+' && c != '-' && c != 'x' && c != 'X'
  }

  lemma {:induction false} LeftKeeps(s: string, c: char)
    requires c in s && !IsSpace(c)
    ensures c in TrimLeft(s)
  {
    if s != [] && IsSpace(s[0]) {
      LeftKeeps(s[1..], c);
    }
  }

  lemma {:induction false} RightKeeps(s: string, c: char)
    requires c in s && !IsSpace(c)
    ensures c in TrimRight(s)
  {
    if s != [] && IsSpace(s[|s| - 1]) {
      RightKeeps(s[..|s| - 1], c);
    }
  }

  lemma TrimmedInside(key: string)
    ensures forall c :: c in key && Foreign(c) ==> !ParsesAsHex(key)
  {
    forall c | c in key && Foreign(c) ensures !ParsesAsHex(key) {
      LeftKeeps(key, c);
      RightKeeps(TrimLeft(key), c);
      ForeignSpoils(TrimRight(TrimLeft(key)), c);
    }
  }

  lemma ForeignSpoils(trimmed: string, c: char)
    requires c in trimmed && Foreign(c)
    ensures var body := if trimmed != [] && (trimmed[0] == '+' || trimmed[0] == '-') then trimmed[1..] else trimmed;
            && c in body && !HexDigits(body)
            && (|body| >= 2 && body[0] == '0' && (body[1] == 'x' || body[1] == 'X') ==>
                  && c in body[2..] && !HexDigits(body[2..])
                  && (|body| >= 3 && body[2] == '_' ==> c in body[3..] && !HexDigits(body[3..])))
  {
  }

  // ----------------------------------------------------- what a submission does

  function Adjust(difficulty: int): int {
    Clamp(difficulty * 105 / 100, MIN_DIFFICULTY, MAX_DIFFICULTY)
  }

  function Judge(config: Config, c: Chain, s: Submission): Verdict {
    if KeyProblem(s.key).Some? then BadKey(KeyProblem(s.key).value)
    else if s.key in c.knownKeys then DuplicateKey
    else
      match ClassifyBlock(config, s.hash, s.inXuniWindow)
      case None => BadHash
      case Some(t) => Accepted(t)
  }

  function BalanceOf(balances: map<string, real>, address: string): real {
    if address in balances then balances[address] else 0.0
  }

  function Submit(config: Config, c: Chain, s: Submission): Chain
    requires config.adjustInterval != 0
  {
    match Judge(config, c, s)
    case Accepted(t) => Appended(config, c, s, t)
    case _ => c
  }

  function Appended(config: Config, c: Chain, s: Submission, t: BlockType): Chain
    requires config.adjustInterval != 0
  {
    var n := |c.blocks| + 1;
    var who := Lower(s.account);
    Chain(c.blocks + [Block(c.nextBlockId, s.account, s.key, s.hash, t)], c.knownKeys + {s.key},
          c.balances[who := BalanceOf(c.balances, who) + Reward(t)], c.nextBlockId + 1,
          if n % config.adjustInterval == 0 then Adjust(c.difficulty) else c.difficulty)
  }

  function Genesis(config: Config): Chain {
    Chain([], {}, map[], 1, config.baseDifficulty)
  }

  function Run(config: Config, submissions: seq<Submission>): Chain
    requires config.adjustInterval != 0
  {
    if submissions == [] then Genesis(config)
    else Submit(config, Run(config, submissions[..|submissions| - 1]), submissions[|submissions| - 1])
  }

  // ------------------------------------------------- the log as the only truth

  /** The rewards of the blocks of one lower-cased account. */
  function Earned(blocks: seq<Block>, who: string): real {
    if blocks == [] then 0.0
    else
      var last := blocks[|blocks| - 1];
      Earned(blocks[..|blocks| - 1], who) + (if Lower(last.account) == who then Reward(last.blockType) else 0.0)
  }

  function AllRewards(blocks: seq<Block>): real {
    if blocks == [] then 0.0 else AllRewards(blocks[..|blocks| - 1]) + Reward(blocks[|blocks| - 1].blockType)
  }

  function Adjusted(base: int, times: nat): int {
    if times == 0 then base else Adjust(Adjusted(base, times - 1))
  }

  function Size(k: int): nat {
    if k < 0 then -k else k
  }

  ghost predicate KeysMatch(c: Chain) {
    && (forall k :: k in c.knownKeys <==> exists i :: 0 <= i < |c.blocks| && c.blocks[i].key == k)
    && (forall i, j :: 0 <= i < j < |c.blocks| ==> c.blocks[i].key != c.blocks[j].key)
  }

  predicate IdsMatch(c: Chain) {
    c.nextBlockId == |c.blocks| + 1 && forall i :: 0 <= i < |c.blocks| ==> c.blocks[i].id == i + 1
  }

  ghost predicate BalancesMatch(blocks: seq<Block>, balances: map<string, real>) {
    && (forall a :: a in balances <==> exists i :: 0 <= i < |blocks| && Lower(blocks[i].account) == a)
    && (forall a :: BalanceOf(balances, a) == Earned(blocks, a))
    && Total(balances) == AllRewards(blocks)
  }

  predicate DifficultyMatches(config: Config, c: Chain)
    requires config.adjustInterval != 0
  {
    c.difficulty == Adjusted(config.baseDifficulty, |c.blocks| / Size(config.adjustInterval))
  }

  predicate BlocksValid(c: Chain) {
    forall i :: 0 <= i < |c.blocks| ==> KeyProblem(c.blocks[i].key).None?
  }

  /** Every index says what the block log says. */
  ghost predicate Consistent(config: Config, c: Chain) {
    && config.adjustInterval != 0
    && KeysMatch(c) && IdsMatch(c) && BalancesMatch(c.blocks, c.balances) && DifficultyMatches(config, c) && BlocksValid(c)
  }

  lemma OneQuotient(m: nat, q: int, r: int, q1: int, r1: int)
    requires m * q + r == m * q1 + r1 && 0 <= r < m && 0 <= r1 < m
    ensures q == q1 && r == r1
  {
    if q < q1 {
      MulMonotone(q + 1, q1, m);
    } else if q1 < q {
      MulMonotone(q1 + 1, q, m);
    }
  }

  lemma NextQuotient(n: nat, k: int)
    requires k != 0
    ensures (n + 1) / Size(k) == n / Size(k) + (if (n + 1) % k == 0 then 1 else 0)
  {
    var m := Size(k);
    var q, r, q1, r1 := n / m, n % m, (n + 1) / m, (n + 1) % m;
    SameRemainder(n + 1, k);
    if r + 1 < m {
      OneQuotient(m, q, r + 1, q1, r1);
    } else {
      assert n + 1 == m * (q + 1) by { NextMultiple(m, q); }
      OneQuotient(m, q + 1, 0, q1, r1);
    }
  }

  lemma NextMultiple(m: int, q: int)
    ensures m * (q + 1) == m * q + m
  {
  }

  lemma SameRemainder(n: nat, k: int)
    requires k != 0
    ensures n % k == n % Size(k)
  {
    var m := Size(k);
    assert n == k * (n / k) + n % k && n == m * (n / m) + n % m;
    if k < 0 {
      NegatedFactors(m, n / k);
      OneQuotient(m, -(n / k), n % k, n / m, n % m);
    }
  }

  lemma NegatedFactors(m: int, q: int)
    ensures m * -q == -m * q
  {
  }

  lemma CreditKeepsBalances(blocks: seq<Block>, balances: map<string, real>, b: Block)
    requires BalancesMatch(blocks, balances)
    ensures var who := Lower(b.account);
            BalancesMatch(blocks + [b], balances[who := BalanceOf(balances, who) + Reward(b.blockType)])
  {
    hide Lower, Reward;
    var who := Lower(b.account);
    var amount := BalanceOf(balances, who) + Reward(b.blockType);
    var after := balances[who := amount];
    var longer := blocks + [b];
    assert longer[..|blocks|] == blocks && longer[|blocks|] == b;
    TotalUpdates(balances, who, amount);
    assert Total(after) == AllRewards(longer);
    forall a ensures BalanceOf(after, a) == Earned(longer, a) { }
    forall a ensures a in after <==> exists i :: 0 <= i < |longer| && Lower(longer[i].account) == a {
      if a in balances {
        var i :| 0 <= i < |blocks| && Lower(blocks[i].account) == a;
        assert Lower(longer[i].account) == a;
      }
      if a == who {
        assert Lower(longer[|blocks|].account) == a;
      }
    }
  }

  lemma SubmitKeepsKeys(config: Config, c: Chain, s: Submission)
    requires config.adjustInterval != 0 && KeysMatch(c) && IdsMatch(c) && BlocksValid(c)
    ensures KeysMatch(Submit(config, c, s)) && IdsMatch(Submit(config, c, s)) && BlocksValid(Submit(config, c, s))
  {
    if Judge(config, c, s).Accepted? {
      var after := Submit(config, c, s);
      assert after.blocks[|c.blocks|].key == s.key;
      assert forall i :: 0 <= i < |c.blocks| ==> after.blocks[i] == c.blocks[i];
    }
  }

  lemma SubmitKeepsConsistent(config: Config, c: Chain, s: Submission)
    requires Consistent(config, c)
    ensures Consistent(config, Submit(config, c, s))
  {
    hide KeyProblem, ClassifyBlock, BalancesMatch, KeysMatch, IdsMatch, BlocksValid, Lower, Reward, Adjust;
    if Judge(config, c, s).Accepted? {
      CreditKeepsBalances(c.blocks, c.balances, Block(c.nextBlockId, s.account, s.key, s.hash, Judge(config, c, s).blockType));
    }
    SubmitKeepsKeys(config, c, s);
    NextQuotient(|c.blocks|, config.adjustInterval);
  }

  /** After any submissions, accepted or refused, every index agrees with the block log. */
  lemma {:induction false} IndexesAgreeWithTheLog(config: Config, submissions: seq<Submission>)
    requires config.adjustInterval != 0
    ensures Consistent(config, Run(config, submissions))
  {
    if submissions == [] {
    } else {
      hide Submit;
      IndexesAgreeWithTheLog(config, submissions[..|submissions| - 1]);
      SubmitKeepsConsistent(config, Run(config, submissions[..|submissions| - 1]), submissions[|submissions| - 1]);
    }
  }

  // ---------------------------------------------------------------- queries

  /** Python's `items[:limit]`; a negative limit counts from the end. */
  function Take<T>(items: seq<T>, limit: int): seq<T> {
    if limit >= 0 then items[..Min(limit, |items|)] else items[..Max(0, |items| + limit)]
  }

  /** Python's `items[-count:]`: with a count of zero, everything. */
  function LastOnes<T>(items: seq<T>, count: int): seq<T> {
    if count > 0 then items[Max(0, |items| - count)..] else items[Min(-count, |items|)..]
  }

  function NewestFirst(blocks: seq<Block>, keep: Block -> bool): seq<Block> {
    if blocks == [] then []
    else
      var last := blocks[|blocks| - 1];
      (if keep(last) then [last] else []) + NewestFirst(blocks[..|blocks| - 1], keep)
  }

  function BlocksOf(c: Chain, account: string, limit: int): seq<Block> {
    Take(NewestFirst(c.blocks, (b: Block) => Lower(b.account) == Lower(account)), limit)
  }

  predicate StartsWith(s: string, prefix: string) {
    |prefix| <= |s| && s[..|prefix|] == prefix
  }

  function BlocksByPrefix(c: Chain, prefix: string, limit: int): seq<Block> {
    Take(NewestFirst(c.blocks, (b: Block) => StartsWith(Lower(b.key), Lower(prefix))), limit)
  }

  function CountOf(blocks: seq<Block>, t: BlockType): nat {
    if blocks == [] then 0 else CountOf(blocks[..|blocks| - 1], t) + (if blocks[|blocks| - 1].blockType == t then 1 else 0)
  }

  lemma {:induction false} ListingLength(blocks: seq<Block>, keep: Block -> bool)
    ensures |NewestFirst(blocks, keep)| <= |blocks|
  {
    if blocks == [] {
    } else {
      ListingLength(blocks[..|blocks| - 1], keep);
    }
  }

  lemma NewestFirstStep(blocks: seq<Block>, keep: Block -> bool)
    ensures NewestFirst([], keep) == []
    ensures blocks != [] ==>
              NewestFirst(blocks, keep)
              == (if keep(blocks[|blocks| - 1]) then [blocks[|blocks| - 1]] else []) + NewestFirst(blocks[..|blocks| - 1], keep)
  {
  }

  /** A listing holds exactly the matching blocks of the log, newest first. */
  lemma {:induction false} ListingIsExact(blocks: seq<Block>, keep: Block -> bool)
    requires forall i :: 0 <= i < |blocks| ==> blocks[i].id == i + 1
    ensures forall b :: b in NewestFirst(blocks, keep) <==> b in blocks && keep(b)
    ensures forall i, j :: 0 <= i < j < |NewestFirst(blocks, keep)| ==>
              NewestFirst(blocks, keep)[i].id > NewestFirst(blocks, keep)[j].id
  {
    hide NewestFirst;
    NewestFirstStep(blocks, keep);
    if blocks != [] {
      var init, last := blocks[..|blocks| - 1], blocks[|blocks| - 1];
      ListingIsExact(init, keep);
      assert blocks == init + [last];
      assert forall b :: b in NewestFirst(init, keep) ==> b.id < last.id;
    }
  }

  /** The prefix query ignores letter case, never repeats a block and, untruncated, misses none. */
  lemma PrefixListing(config: Config, submissions: seq<Submission>, prefix: string, limit: nat)
    requires config.adjustInterval != 0
    ensures var c := Run(config, submissions);
            var listed := BlocksByPrefix(c, prefix, limit);
            && |listed| <= limit
            && (forall i, j :: 0 <= i < j < |listed| ==> listed[i].id > listed[j].id)
            && (forall b :: b in listed ==> b in c.blocks && StartsWith(Lower(b.key), Lower(prefix)))
            && (limit >= |c.blocks| ==> forall b :: b in c.blocks && StartsWith(Lower(b.key), Lower(prefix)) ==> b in listed)
  {
    hide Run, KeysMatch, BalancesMatch, DifficultyMatches, BlocksValid, Lower, StartsWith;
    IndexesAgreeWithTheLog(config, submissions);
    var c := Run(config, submissions);
    var keep := (b: Block) => StartsWith(Lower(b.key), Lower(prefix));
    ListingIsExact(c.blocks, keep);
    ListingLength(c.blocks, keep);
    var whole := NewestFirst(c.blocks, keep);
    hide NewestFirst;
    var listed := BlocksByPrefix(c, prefix, limit);
    assert listed == whole[..Min(limit, |whole|)];
    assert forall b :: b in listed ==> b in whole;
    assert limit >= |c.blocks| ==> listed == whole;
  }

  /** Asking for the last `count` blocks returns the whole log when the count covers it, and also when it is zero. */
  lemma LastBlocksOfNone(blocks: seq<Block>, count: int)
    ensures LastOnes(blocks, count) == blocks <==> count == 0 || count >= |blocks| || blocks == []
    ensures count > 0 ==> |LastOnes(blocks, count)| == Min(count, |blocks|)
  {
    assert |LastOnes(blocks, count)| == |blocks| <==> count == 0 || count >= |blocks| || blocks == [];
  }

  lemma AllRewardsOfConcat(a: seq<Block>, b: seq<Block>)
    ensures AllRewards(a + b) == AllRewards(a) + AllRewards(b)
    decreases |b|
  {
    if b == [] {
      assert a + b == a;
    } else {
      assert (a + b)[..|a + b| - 1] == a + b[..|b| - 1];
      AllRewardsOfConcat(a, b[..|b| - 1]);
    }
  }

  lemma {:induction false} ListingEarns(blocks: seq<Block>, account: string)
    ensures AllRewards(NewestFirst(blocks, (b: Block) => Lower(b.account) == Lower(account))) == Earned(blocks, Lower(account))
  {
    if blocks == [] {
    } else {
      var keep := (b: Block) => Lower(b.account) == Lower(account);
      var n := |blocks| - 1;
      ListingEarns(blocks[..n], account);
      AllRewardsOfConcat(if keep(blocks[n]) then [blocks[n]] else [], NewestFirst(blocks[..n], keep));
      assert [blocks[n]][..0] == [];
      assert AllRewards([blocks[n]]) == Reward(blocks[n].blockType);
    }
  }

  /** The balance endpoint pays what the account's untruncated block listing shows, in any spelling of the address. */
  lemma BalanceIsTheListing(config: Config, submissions: seq<Submission>, address: string, limit: int)
    requires config.adjustInterval != 0
    requires limit >= |Run(config, submissions).blocks|
    ensures var c := Run(config, submissions);
            BalanceOf(c.balances, Lower(address)) == AllRewards(BlocksOf(c, address, limit))
  {
    hide Run, KeysMatch, IdsMatch, DifficultyMatches, BlocksValid, Lower;
    IndexesAgreeWithTheLog(config, submissions);
    var c := Run(config, submissions);
    ListingEarns(c.blocks, address);
    var keep := (b: Block) => Lower(b.account) == Lower(address);
    ListingLength(c.blocks, keep);
    assert BlocksOf(c, address, limit) == NewestFirst(c.blocks, keep);
  }

  lemma {:induction false} RewardsByType(blocks: seq<Block>)
    ensures AllRewards(blocks)
         == 50.0 * CountOf(blocks, Super) as real + 10.0 * CountOf(blocks, Normal) as real + CountOf(blocks, Xuni) as real
    ensures CountOf(blocks, Super) + CountOf(blocks, Normal) + CountOf(blocks, Xuni) == |blocks|
  {
    if blocks == [] {
    } else {
      RewardsByType(blocks[..|blocks| - 1]);
    }
  }

  /** All coins come from the counted blocks: the balances add up to 50, 10 and 1 times the three block counts. */
  lemma SupplyIsMinted(config: Config, submissions: seq<Submission>)
    requires config.adjustInterval != 0
    ensures var c := Run(config, submissions);
            && Total(c.balances) == 50.0 * CountOf(c.blocks, Super) as real + 10.0 * CountOf(c.blocks, Normal) as real
                                    + CountOf(c.blocks, Xuni) as real
            && CountOf(c.blocks, Super) + CountOf(c.blocks, Normal) + CountOf(c.blocks, Xuni) == c.nextBlockId - 1
  {
    IndexesAgreeWithTheLog(config, submissions);
    RewardsByType(Run(config, submissions).blocks);
  }

  /** The log only grows, and no key is forgotten. */
  lemma {:induction false} LogOnlyGrows(config: Config, submissions: seq<Submission>, later: seq<Submission>)
    requires config.adjustInterval != 0
    ensures Run(config, submissions).knownKeys <= Run(config, submissions + later).knownKeys
    ensures Run(config, submissions).blocks <= Run(config, submissions + later).blocks
    decreases |later|
  {
    if later == [] {
      assert submissions + later == submissions;
    } else {
      LogOnlyGrows(config, submissions, later[..|later| - 1]);
      assert (submissions + later)[..|submissions + later| - 1] == submissions + later[..|later| - 1];
    }
  }

  /** A key in the log is never accepted again, whatever hash, account or submissions come with it. */
  lemma KeyIsAcceptedOnce(config: Config, submissions: seq<Submission>, later: seq<Submission>, i: nat, s: Submission)
    requires config.adjustInterval != 0
    requires i < |Run(config, submissions).blocks| && s.key == Run(config, submissions).blocks[i].key
    ensures Judge(config, Run(config, submissions + later), s) == DuplicateKey
  {
    hide Run, KeyProblem, ClassifyBlock, IdsMatch, BalancesMatch, DifficultyMatches;
    LogOnlyGrows(config, submissions, later);
    IndexesAgreeWithTheLog(config, submissions);
  }

  /** One adjustment is the whole part of five percent more, inside the bounds. */
  lemma AdjustIsFivePercent(d: int)
    requires MIN_DIFFICULTY <= d <= MAX_DIFFICULTY
    ensures Adjust(d) == MAX_DIFFICULTY <==> 105 * d >= 100 * MAX_DIFFICULTY
    ensures Adjust(d) < MAX_DIFFICULTY ==> 100 * Adjust(d) <= 105 * d < 100 * (Adjust(d) + 1)
  {
  }

  /** From the first adjustment on, difficulty grows by at least 5 a time until it stays at its maximum. */
  lemma {:induction false} DifficultyClimbsToTheCap(base: int, times: nat)
    requires times >= 1
    ensures Min(MAX_DIFFICULTY, MIN_DIFFICULTY + 5 * (times - 1)) <= Adjusted(base, times) <= MAX_DIFFICULTY
    ensures Adjusted(base, times) <= Adjusted(base, times + 1)
    ensures Adjusted(base, times) == Adjusted(base, times + 1) <==> Adjusted(base, times) == MAX_DIFFICULTY
  {
    if times == 1 {
    } else {
      DifficultyClimbsToTheCap(base, times - 1);
    }
    var d := Adjusted(base, times);
    assert MIN_DIFFICULTY <= d <= MAX_DIFFICULTY;
    assert d * 105 / 100 >= d + 5;
  }

  class ChainSimulator {
    const config: Config
    var blocks: seq<Block>
    var knownKeys: set<string>
    var balances: map<string, real>
    var nextBlockId: nat
    var difficulty: int

    function State(): Chain
      reads this
    {
      Chain(blocks, knownKeys, balances, nextBlockId, difficulty)
    }

    ghost predicate Valid()
      reads this
    {
      Consistent(config, State())
    }

    constructor (config: Config)
      requires config.adjustInterval != 0
      ensures Valid() && this.config == config && State() == Genesis(config)
    {
      this.config := config;
      blocks, knownKeys, balances, nextBlockId, difficulty := [], {}, map[], 1, config.baseDifficulty;
      new;
      IndexesAgreeWithTheLog(config, []);
    }

    method AdjustDifficulty()
      modifies this`difficulty
      ensures difficulty == Adjust(old(difficulty))
    {
      difficulty := difficulty * 105 / 100;
      difficulty := Max(MIN_DIFFICULTY, Min(MAX_DIFFICULTY, difficulty));
    }

    /** Append the block, index it, pay its miner and move the difficulty when its turn has come. */
    method Accept(s: Submission, blockType: BlockType)
      requires config.adjustInterval != 0
      modifies this
      ensures State() == Appended(config, old(State()), s, blockType)
    {
      blocks := blocks + [Block(nextBlockId, s.account, s.key, s.hash, blockType)];
      knownKeys := knownKeys + {s.key};
      nextBlockId := nextBlockId + 1;
      var who := Lower(s.account);
      balances := balances[who := BalanceOf(balances, who) + Reward(blockType)];
      if |blocks| % config.adjustInterval == 0 {
        AdjustDifficulty();
      }
    }

    method SubmitBlock(s: Submission) returns (verdict: Verdict)
      requires Valid()
      modifies this
      ensures Valid()
      ensures verdict == Judge(config, old(State()), s)
      ensures State() == Submit(config, old(State()), s)
    {
      SubmitKeepsConsistent(config, State(), s);
      hide Consistent, KeyProblem, ClassifyBlock, Appended;
      var keyProblem := KeyProblem(s.key);
      if keyProblem.Some? { return BadKey(keyProblem.value); }
      if s.key in knownKeys { return DuplicateKey; }
      var blockType := ClassifyBlock(config, s.hash, s.inXuniWindow);
      if blockType.None? { return BadHash; }
      Accept(s, blockType.value);
      return Accepted(blockType.value);
    }

    method GetBalance(address: string) returns (balance: real)
      requires Valid()
      ensures balance == Earned(blocks, Lower(address))
    {
      balance := BalanceOf(balances, Lower(address));
    }
  }
}
