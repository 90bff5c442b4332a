/** Topic filters of the MQTT bridge against section 4.7 of MQTT 3.1.1. */
module MqttTopics {

  // ---- levels: split and join on '/' --------------------------------------------------------

  /** `s.split("/")`. */
  function Split(s: string): (levels: seq<string>)
    ensures |levels| >= 1
  {
    if s == "" then [""]
    else
      var rest := Split(s[1..]);
      if s[0] == '/' then [""] + rest else [[s[0]] + rest[0]] + rest[1..]
  }

  /** `"/".join(levels)`. */
  function Join(levels: seq<string>): string
    requires |levels| >= 1
  {
    if |levels| == 1 then levels[0] else levels[0] + "/" + Join(levels[1..])
  }

  lemma {:induction false} JoinSplit(s: string)
    ensures Join(Split(s)) == s
  {
    if s != "" {
      JoinSplit(s[1..]);
      var rest := Split(s[1..]);
      if s[0] == '/' {
        assert Split(s)[1..] == rest;
        assert s == "/" + s[1..];
      } else if |rest| > 1 {
        assert Split(s)[1..] == rest[1..];
        assert s == [s[0]] + s[1..];
      } else {
        assert s == [s[0]] + s[1..];
      }
    }
  }

  predicate NoSlash(level: string) { '/' !in level }

  lemma {:induction false} SplitLevel(level: string)
    requires NoSlash(level)
    ensures Split(level) == [level]
  {
    if level != "" {
      assert level[0] in level;
      forall c | c in level[1..] ensures c in level {}
      SplitLevel(level[1..]);
      assert level == [level[0]] + level[1..];
    }
  }

  lemma {:induction false} SplitPrefix(level: string, rest: string)
    requires NoSlash(level)
    ensures Split(level + "/" + rest) == [level] + Split(rest)
  {
    var s := level + "/" + rest;
    if level == "" {
      assert s == "/" + rest && s[1..] == rest;
    } else {
      assert level[0] in level;
      forall c | c in level[1..] ensures c in level {}
      SplitPrefix(level[1..], rest);
      assert s[1..] == level[1..] + "/" + rest;
      assert [level[0]] + level[1..] == level;
    }
  }

  /** Splitting undoes joining, so a topic is its levels. */
  lemma {:induction false} SplitJoin(levels: seq<string>)
    requires |levels| >= 1 && forall i :: 0 <= i < |levels| ==> NoSlash(levels[i])
    ensures Split(Join(levels)) == levels
  {
    if |levels| == 1 {
      SplitLevel(levels[0]);
    } else {
      SplitJoin(levels[1..]);
      SplitPrefix(levels[0], Join(levels[1..]));
    }
  }

  // ---- the bridge's matching -------------------------------------------------------------------

  /** The level loop from position `i` on. */
  predicate Scan(ps: seq<string>, ts: seq<string>, i: nat)
    requires i <= |ps|
    decreases |ps| - i
  {
    if i == |ps| then |ps| == |ts|
    else if ps[i] == "#" then true
    else i < |ts| && (ps[i] == "+" || ps[i] == ts[i]) && Scan(ps, ts, i + 1)
  }

  predicate BridgeMatches(pattern: string, topic: string) {
    pattern == topic || Scan(Split(pattern), Split(topic), 0)
  }

  /** `_topic_matches`. */
  method TopicMatches(pattern: string, topic: string) returns (b: bool)
    ensures b == BridgeMatches(pattern, topic)
    ensures IsFilter(Split(pattern)) && IsName(Split(topic)) ==> (b <==> StandardMatches(Split(pattern), Split(topic)))
  {
    if IsFilter(Split(pattern)) && IsName(Split(topic)) { BridgeMeetsStandard(pattern, topic); }
    if pattern == topic {
      return true;
    }
    var ps, ts := Split(pattern), Split(topic);
    for i := 0 to |ps|
      invariant Scan(ps, ts, i) == Scan(ps, ts, 0)
    {
      if ps[i] == "#" {
        return true;
      }
      if i >= |ts| {
        return false;
      }
      if ps[i] != "+" && ps[i] != ts[i] {
        return false;
      }
    }
    return |ps| == |ts|;
  }

  // ---- the standard ------------------------------------------------------------------------------

  /** Sections 4.7.1.2 and 4.7.1.3: '#' stands alone in the last level, '+' alone in its level. */
  predicate IsFilter(ps: seq<string>) {
    forall i :: 0 <= i < |ps| ==>
      && ('#' in ps[i] ==> ps[i] == "#" && i == |ps| - 1)
      && ('+' in ps[i] ==> ps[i] == "+")
  }

  /** Section 4.7.1.1: no wildcard characters in a topic name. */
  predicate IsName(ts: seq<string>) {
    forall i :: 0 <= i < |ts| ==> '#' !in ts[i] && '+' !in ts[i]
  }

  predicate StandsFor(p: string, t: string) { p == "+" || p == t }

  /** '+' stands for exactly one level, a final '#' for the parent and any number of child levels. */
  predicate StandardMatches(ps: seq<string>, ts: seq<string>)
    requires |ps| >= 1
  {
    if ps[|ps| - 1] == "#"
    then |ts| >= |ps| - 1 && forall i :: 0 <= i < |ps| - 1 ==> StandsFor(ps[i], ts[i])
    else |ts| == |ps| && forall i :: 0 <= i < |ps| ==> StandsFor(ps[i], ts[i])
  }

  /** From position `i` on, the loop decides what is left of the standard's condition. */
  lemma {:induction false} ScanMeetsStandard(ps: seq<string>, ts: seq<string>, i: nat)
    requires |ps| >= 1 && i <= |ps| && IsFilter(ps) && (i == |ps| ==> ps[|ps| - 1] != "#")
    requires i <= |ts|
    requires forall j :: 0 <= j < i && j < |ps| ==> StandsFor(ps[j], ts[j])
    ensures Scan(ps, ts, i) <==> StandardMatches(ps, ts)
    decreases |ps| - i
  {
    if i < |ps| {
      if ps[i] == "#" {
        assert '#' in ps[i];
      } else if i < |ts| && StandsFor(ps[i], ts[i]) {
        ScanMeetsStandard(ps, ts, i + 1);
      }
    }
  }

  /** For every valid filter and every topic name the bridge's answer is the standard's. */
  lemma BridgeMeetsStandard(pattern: string, topic: string)
    requires IsFilter(Split(pattern)) && IsName(Split(topic))
    ensures BridgeMatches(pattern, topic) <==> StandardMatches(Split(pattern), Split(topic))
  {
    var ps, ts := Split(pattern), Split(topic);
    ScanMeetsStandard(ps, ts, 0);
    assert ps[|ps| - 1] == "#" ==> '#' in ps[|ps| - 1];
  }

  /** Section 4.7.2: a filter that starts with a wildcard does not match a topic that starts with '$'. */
  predicate StandardWithDollar(pattern: string, topic: string) {
    && StandardMatches(Split(pattern), Split(topic))
    && !(Split(topic)[0] != "" && Split(topic)[0][0] == '$' && (Split(pattern)[0] == "#" || Split(pattern)[0] == "+"))
  }

  /** The bridge leaves that section out: it differs from the standard exactly on the topics that
      start with '$' when the filter starts with a wildcard and its levels match. */
  lemma DollarTopics(pattern: string, topic: string)
    requires IsFilter(Split(pattern)) && IsName(Split(topic))
    ensures (BridgeMatches(pattern, topic) == StandardWithDollar(pattern, topic)) <==>
            !(StartsWithDollar(topic) && StartsWithWildcard(pattern) && StandardMatches(Split(pattern), Split(topic)))
  {
    BridgeMeetsStandard(pattern, topic);
    FirstCharacter(topic);
  }

  predicate StartsWithDollar(topic: string) { topic != "" && topic[0] == '$' }

  predicate StartsWithWildcard(pattern: string) { Split(pattern)[0] == "#" || Split(pattern)[0] == "+" }

  lemma FirstCharacter(s: string)
    ensures s != "" && s[0] != '/' ==> Split(s)[0] != "" && Split(s)[0][0] == s[0]
    ensures s == "" || s[0] == '/' ==> Split(s)[0] == ""
  {}
}
