/** Topic filters (server/broker.py, lines 87-105) against sections 4.7.1 and 4.7.2 of MQTT 3.1.1. */
module TopicMatch {
  // ------------------------------------------------------------------ levels

  /** Python's `text.split("/")`. */
  function Split(text: string): (levels: seq<string>)
    ensures levels != []
  {
    if text == "" then [""]
    else
      var rest := Split(text[1..]);
      if text[0] == '/' then [""] + rest else [[text[0]] + rest[0]] + rest[1..]
  }

  function Join(levels: seq<string>): string
    requires levels != []
  {
    if |levels| == 1 then levels[0] else levels[0] + "/" + Join(levels[1..])
  }

  predicate NoSlash(levels: seq<string>) {
    forall i :: 0 <= i < |levels| ==> '/' !in levels[i]
  }

  lemma {:induction false} JoinExtends(c: char, levels: seq<string>)
    requires levels != []
    ensures Join([[c] + levels[0]] + levels[1..]) == [c] + Join(levels)
  {
    var longer := [[c] + levels[0]] + levels[1..];
    if |levels| <= 1 {
    } else {
      assert longer[1..] == levels[1..];
      assert [c] + levels[0] + "/" + Join(levels[1..]) == [c] + (levels[0] + "/" + Join(levels[1..]));
    }
  }

  /** Splitting loses nothing and cuts at every slash. */
  lemma {:induction false} SplitJoins(text: string)
    ensures NoSlash(Split(text)) && Join(Split(text)) == text
  {
    if text == "" {
    } else {
      var rest := Split(text[1..]);
      SplitJoins(text[1..]);
      if text[0] == '/' {
        assert ([""] + rest)[1..] == rest;
        assert "" + "/" + Join(rest) == "/" + text[1..] == text;
      } else {
        JoinExtends(text[0], rest);
        assert [text[0]] + text[1..] == text;
      }
    }
  }

  // --------------------------------------------------------------- the matcher

  predicate LevelMatches(pattern: string, level: string) {
    pattern == "+" || pattern == level
  }

  /** The matching relation, level by level. */
  predicate Matches(pattern: seq<string>, topic: seq<string>) {
    if pattern == [] then topic == []
    else if pattern[0] == "#" then true
    else topic != [] && LevelMatches(pattern[0], topic[0]) && Matches(pattern[1..], topic[1..])
  }

  method MqttTopicMatches(pattern: string, topic: string) returns (matches: bool)
    ensures matches == Matches(Split(pattern), Split(topic))
  {
    var patternParts, topicParts := Split(pattern), Split(topic);
    var pi, ti := 0, 0;
    while pi < |patternParts| && ti < |topicParts|
      invariant pi <= |patternParts| && ti <= |topicParts|
      invariant Matches(patternParts, topicParts) == Matches(patternParts[pi..], topicParts[ti..])
    {
      assert patternParts[pi..][1..] == patternParts[pi + 1..] && topicParts[ti..][1..] == topicParts[ti + 1..];
      if patternParts[pi] == "#" {
        return true;
      }
      if patternParts[pi] == "+" {
        pi, ti := pi + 1, ti + 1;
        continue;
      }
      if patternParts[pi] != topicParts[ti] {
        return false;
      }
      pi, ti := pi + 1, ti + 1;
    }
    if pi < |patternParts| && patternParts[pi] == "#" {
      return true;
    }
    return pi == |patternParts| && ti == |topicParts|;
  }

  // -------------------------------------------------------------- the standard

  /** A well-formed filter (4.7.1): wildcards fill a whole level, and `#` is the last one. */
  predicate ValidFilter(levels: seq<string>) {
    && levels != []
    && (forall i :: 0 <= i < |levels| && '+' in levels[i] ==> levels[i] == "+")
    && (forall i :: 0 <= i < |levels| && '#' in levels[i] ==> levels[i] == "#" && i == |levels| - 1)
  }

  /** The same levels one by one; a final `#` stands for the parent and any number of levels below it. */
  predicate StandardMatch(levels: seq<string>, topic: seq<string>)
    requires levels != []
  {
    var n := |levels| - 1;
    if levels[n] == "#"
    then |topic| >= n && forall i :: 0 <= i < n ==> levels[i] == "+" || levels[i] == topic[i]
    else |topic| == n + 1 && forall i :: 0 <= i <= n ==> levels[i] == "+" || levels[i] == topic[i]
  }

  /** A filter up to its first `#`, where the matcher stops reading. */
  function UpToHash(levels: seq<string>): (r: seq<string>)
    ensures levels != [] ==> r != []
  {
    if levels == [] then []
    else if levels[0] == "#" then ["#"]
    else [levels[0]] + UpToHash(levels[1..])
  }

  lemma {:induction false} ValidFilterIsReadWhole(levels: seq<string>)
    requires levels != [] ==> ValidFilter(levels)
    ensures UpToHash(levels) == levels
  {
    if levels == [] {
    } else {
      assert levels == [levels[0]] + levels[1..];
      if levels[0] == "#" {
        assert '#' in levels[0];
      } else {
        assert forall i :: 0 <= i < |levels[1..]| ==> levels[1..][i] == levels[i + 1];
        ValidFilterIsReadWhole(levels[1..]);
      }
    }
  }

  lemma StandardStep(pattern: seq<string>, topic: seq<string>)
    requires |pattern| >= 2 && topic != []
    ensures StandardMatch(pattern, topic)
       <==> LevelMatches(pattern[0], topic[0]) && StandardMatch(pattern[1..], topic[1..])
  {
    var n := |pattern| - 1;
    var (rest, below) := (pattern[1..], topic[1..]);
    assert rest[n - 1] == pattern[n];
    if LevelMatches(pattern[0], topic[0]) && StandardMatch(rest, below) {
      forall i | 0 <= i <= n && (pattern[n] == "#" ==> i < n) ensures pattern[i] == "+" || pattern[i] == topic[i] {
        if i > 0 {
          assert rest[i - 1] == "+" || rest[i - 1] == below[i - 1];
        }
      }
    }
    if StandardMatch(pattern, topic) {
      forall i | 0 <= i <= n - 1 && (pattern[n] == "#" ==> i < n - 1) ensures rest[i] == "+" || rest[i] == below[i] {
        assert pattern[i + 1] == "+" || pattern[i + 1] == topic[i + 1];
      }
    }
  }

  lemma {:induction false} MatcherFollowsLevels(pattern: seq<string>, topic: seq<string>)
    requires pattern != []
    ensures Matches(pattern, topic) <==> StandardMatch(UpToHash(pattern), topic)
    decreases |pattern|
  {
    var cut := UpToHash(pattern);
    if pattern[0] == "#" {
    } else {
      if |pattern| == 1 {
        assert cut == pattern && pattern[1..] == [];
        if |topic| == 1 && LevelMatches(pattern[0], topic[0]) {
          assert topic[1..] == [];
        }
      } else {
        assert cut[1..] == UpToHash(pattern[1..]);
        MatcherFollowsLevels(pattern[1..], if topic == [] then [] else topic[1..]);
        if topic != [] {
          StandardStep(cut, topic);
        }
      }
    }
  }

  /**
    For every filter and topic the matcher gives the answer of section 4.7.1 for the filter up to its first `#`;
    a valid filter is read whole.
   */
  lemma MatcherIsTheStandard(pattern: string, topic: string)
    ensures Matches(Split(pattern), Split(topic)) <==> StandardMatch(UpToHash(Split(pattern)), Split(topic))
    ensures ValidFilter(Split(pattern)) ==>
              (Matches(Split(pattern), Split(topic)) <==> StandardMatch(Split(pattern), Split(topic)))
  {
    MatcherFollowsLevels(Split(pattern), Split(topic));
    if ValidFilter(Split(pattern)) {
      ValidFilterIsReadWhole(Split(pattern));
    }
  }

  /** `a/b/#` also matches `a/b` itself. */
  lemma HashMatchesTheParent(parent: seq<string>, below: seq<string>)
    requires forall i :: 0 <= i < |parent| ==> parent[i] != "#"
    ensures Matches(parent + ["#"], parent + below)
  {
    if parent != [] {
      assert (parent + ["#"])[1..] == parent[1..] + ["#"] && (parent + below)[1..] == parent[1..] + below;
      HashMatchesTheParent(parent[1..], below);
    }
  }

  lemma {:induction false} LevelsHoldTheText(text: string, c: char)
    requires c != '/' && c !in text
    ensures forall i :: 0 <= i < |Split(text)| ==> c !in Split(text)[i]
  {
    if text == "" {
    } else {
      assert forall d :: d in text[1..] ==> d in text;
      LevelsHoldTheText(text[1..], c);
    }
  }

  lemma {:induction false} PlainLevels(pattern: seq<string>, topic: seq<string>)
    requires forall i :: 0 <= i < |pattern| ==> pattern[i] != "#" && pattern[i] != "+"
    ensures Matches(pattern, topic) <==> pattern == topic
  {
    if pattern == [] {
    } else if topic == [] {
    } else {
      PlainLevels(pattern[1..], topic[1..]);
      assert pattern == [pattern[0]] + pattern[1..] && topic == [topic[0]] + topic[1..];
    }
  }

  /** A filter without wildcards matches its own topic and no other. */
  lemma PlainFilterMatchesItselfOnly(pattern: string, topic: string)
    requires '+' !in pattern && '#' !in pattern
    ensures Matches(Split(pattern), Split(topic)) <==> pattern == topic
  {
    LevelsHoldTheText(pattern, '+');
    LevelsHoldTheText(pattern, '#');
    PlainLevels(Split(pattern), Split(topic));
    SplitJoins(pattern);
    SplitJoins(topic);
  }

  // ------------------------------------------------------- topics beginning with $

  predicate StartsWithDollar(topic: seq<string>) {
    topic != [] && topic[0] != "" && topic[0][0] == '$'
  }

  predicate StartsWithWildcard(pattern: seq<string>) {
    pattern != [] && (pattern[0] == "#" || pattern[0] == "+")
  }

  /** Section 4.7.2: a filter that starts with a wildcard matches no topic that starts with `$`. */
  predicate StandardMatchWithDollar(pattern: seq<string>, topic: seq<string>)
    requires pattern != []
  {
    StandardMatch(pattern, topic) && !(StartsWithDollar(topic) && StartsWithWildcard(pattern))
  }

  /** The matcher departs from 4.7.2 exactly on `$` topics under `#`, or under `+` when the remaining levels match. */
  lemma DollarTopics(pattern: seq<string>, topic: seq<string>)
    requires ValidFilter(pattern)
    ensures (Matches(pattern, topic) <==> StandardMatchWithDollar(pattern, topic))
       <==> !(StartsWithDollar(topic) && (pattern[0] == "#" || (pattern[0] == "+" && Matches(pattern[1..], topic[1..]))))
  {
    MatcherFollowsLevels(pattern, topic);
    ValidFilterIsReadWhole(pattern);
  }

  lemma HashSeesSystemTopics()
    ensures Matches(Split("#"), Split("$SYS/uptime")) && !StandardMatchWithDollar(Split("#"), Split("$SYS/uptime"))
  {
    assert "#"[1..] == "" && Split("") == [""];
    assert ["#"[0]] + [""][0] == "#";
    assert Split("#") == ["#"];
    assert Split("$SYS/uptime")[0][0] == '$';
  }
}
