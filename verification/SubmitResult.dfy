/** How a pool reply is read (networking/submit_result.py). */
module SubmitResult {
  import opened Text

  datatype Reply = Reply(status: int, body: string)

  /** What the miner does with a block after a reply. */
  datatype Disposition = Accepted | HoldForDifficulty | HoldForWindow | Transient | Rejected

  predicate Success(status: int) {
    200 <= status < 300
  }

  predicate SubmitAccepted(r: Reply) {
    Success(r.status) || Contains(Lower(r.body), "already exists")
  }

  predicate IsDifficultyMismatch(r: Reply) {
    var body := Lower(r.body);
    r.status != 0 &&
    (|| Contains(body, "hash does not contain 'm=")
     || (Contains(body, "does not contain") && Contains(body, "m="))
     || (Contains(body, "memory_cost") && Contains(body, "does not contain")))
  }

  predicate IsXuniWindowReject(r: Reply) {
    var body := Lower(r.body);
    r.status != 0 &&
    (|| Contains(body, "outside of time window")
     || Contains(body, "outside of proper time frame")
     || Contains(body, "time frame")
     || Contains(body, "time window"))
  }

  predicate IsTransientSubmitFailure(r: Reply) {
    var body := Lower(r.body);
    || r.status == 0
    || Contains(body, "timed out")
    || Contains(body, "timeout")
    || Contains(body, "urlopen error")
    || (Contains(body, "connection") && Contains(body, "reset"))
    || Contains(body, "forcibly closed")
  }

  predicate CountsAsReject(r: Reply) {
    && !SubmitAccepted(r)
    && !IsDifficultyMismatch(r)
    && !IsXuniWindowReject(r)
    && !IsTransientSubmitFailure(r)
  }

  /** The order in which a flush asks the questions. */
  function Classify(r: Reply): Disposition {
    if SubmitAccepted(r) then Accepted
    else if IsDifficultyMismatch(r) then HoldForDifficulty
    else if IsXuniWindowReject(r) then HoldForWindow
    else if CountsAsReject(r) then Rejected
    else Transient
  }

  lemma SliceOfSlice<T>(s: seq<T>, lo: nat, hi: nat, a: nat, b: nat)
    requires lo <= hi <= |s| && a <= b <= hi - lo
    ensures s[lo..hi][a..b] == s[lo + a..lo + b]
  {
    assert |s[lo..hi][a..b]| == |s[lo + a..lo + b]|;
    forall k | 0 <= k < b - a ensures s[lo..hi][a..b][k] == s[lo + a..lo + b][k] {
      assert s[lo..hi][a + k] == s[lo + a + k];
    }
  }

  lemma ContainsPart(text: string, before: string, inner: string, after: string)
    requires Contains(text, before + inner + after)
    ensures Contains(text, inner)
  {
    var phrase := before + inner + after;
    var at :| 0 <= at <= |text| - |phrase| && PartAt(text, phrase, at);
    assert phrase[|before|..|before| + |inner|] == inner;
    SliceOfSlice(text, at, at + |phrase|, |before|, |before| + |inner|);
    assert PartAt(text, inner, at + |before|);
  }

  /** The longer phrases are redundant: the words they contain already decide. */
  lemma ShortPhrasesDecide(r: Reply)
    ensures IsDifficultyMismatch(r) <==>
              r.status != 0 && Contains(Lower(r.body), "does not contain")
              && (Contains(Lower(r.body), "m=") || Contains(Lower(r.body), "memory_cost"))
    ensures IsXuniWindowReject(r) <==>
              r.status != 0 && (Contains(Lower(r.body), "time frame") || Contains(Lower(r.body), "time window"))
  {
    var body := Lower(r.body);
    assert "hash does not contain 'm=" == "hash " + "does not contain" + " 'm=";
    assert "hash does not contain 'm=" == "hash does not contain '" + "m=" + "";
    assert "outside of time window" == "outside of " + "time window" + "";
    assert "outside of proper time frame" == "outside of proper " + "time frame" + "";
    if Contains(body, "hash does not contain 'm=") {
      ContainsPart(body, "hash ", "does not contain", " 'm=");
      ContainsPart(body, "hash does not contain '", "m=", "");
    }
    if Contains(body, "outside of time window") {
      ContainsPart(body, "outside of ", "time window", "");
    }
    if Contains(body, "outside of proper time frame") {
      ContainsPart(body, "outside of proper ", "time frame", "");
    }
  }

  /** A reply counts as a rejection when it is none of the other four kinds; only then is the block at fault. */
  lemma CountedExactly(r: Reply)
    ensures CountsAsReject(r) <==>
              && !(200 <= r.status < 300) && r.status != 0
              && !Contains(Lower(r.body), "already exists")
              && !(Contains(Lower(r.body), "does not contain")
                   && (Contains(Lower(r.body), "m=") || Contains(Lower(r.body), "memory_cost")))
              && !Contains(Lower(r.body), "time frame") && !Contains(Lower(r.body), "time window")
              && !Contains(Lower(r.body), "timed out") && !Contains(Lower(r.body), "timeout")
              && !Contains(Lower(r.body), "urlopen error") && !Contains(Lower(r.body), "forcibly closed")
              && !(Contains(Lower(r.body), "connection") && Contains(Lower(r.body), "reset"))
  {
    ShortPhrasesDecide(r);
    hide Contains, Lower;
  }

  /** Without a connection (status 0) a block is only accepted by name or kept for another try. */
  lemma NoConnectionKeepsTheBlock(r: Reply)
    requires r.status == 0
    ensures Classify(r) == if Contains(Lower(r.body), "already exists") then Accepted else Transient
  {
  }
}
