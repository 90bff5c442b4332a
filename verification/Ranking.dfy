/** Ranking: a stable descending sort on (total, comparison, business). */
module Ranking {
  import opened Options
  import opened Comparison
  import opened Evaluation

  datatype SortKey = SortKey(total: real, comparison: real, business: real)

  function KeyOf(s: Scored): SortKey { SortKey(s.totalScore, s.comparisonScore, s.businessScore) }

  function KeysOf(scored: seq<Scored>): (keys: seq<SortKey>)
    ensures |keys| == |scored|
  {
    seq(|scored|, i requires 0 <= i < |scored| => KeyOf(scored[i]))
  }

  /** Python's lexicographic `a > b` on tuples. */
  predicate Above(a: SortKey, b: SortKey) {
    a.total > b.total ||
    (a.total == b.total && (a.comparison > b.comparison || (a.comparison == b.comparison && a.business > b.business)))
  }

  /** Position `j` comes before position `k` in the stable descending order. */
  predicate Beats(keys: seq<SortKey>, j: nat, k: nat)
    requires j < |keys| && k < |keys|
  {
    Above(keys[j], keys[k]) || (keys[j] == keys[k] && j < k)
  }

  // ---- the sort: positions in their final order -----------------------------------------------

  /** `k` goes in front of the first position that does not beat it. */
  function Inserted(keys: seq<SortKey>, order: seq<nat>, k: nat): seq<nat>
    requires k < |keys| && forall i :: 0 <= i < |order| ==> order[i] < |keys|
  {
    if order == [] then [k]
    else if Beats(keys, order[0], k) then [order[0]] + Inserted(keys, order[1..], k)
    else [k] + order
  }

  function SortOrder(keys: seq<SortKey>, n: nat): (order: seq<nat>)
    requires n <= |keys|
    ensures IsSorting(keys, order, n)
  {
    if n == 0 then []
    else
      var order := SortOrder(keys, n - 1);
      InsertionSorts(keys, order, n - 1);
      Inserted(keys, order, n - 1)
  }

  /** `order` lists the positions below `n`, each once, each before those it beats. */
  predicate IsSorting(keys: seq<SortKey>, order: seq<nat>, n: nat)
    requires n <= |keys|
  {
    && |order| == n
    && (forall i :: 0 <= i < |order| ==> order[i] < n)
    && (forall k :: 0 <= k < n ==> k in order)
    && (forall i, j :: 0 <= i < j < |order| ==> Beats(keys, order[i], order[j]))
  }

  lemma BeatsTransitive(keys: seq<SortKey>, i: nat, j: nat, k: nat)
    requires i < |keys| && j < |keys| && k < |keys| && Beats(keys, i, j) && Beats(keys, j, k)
    ensures Beats(keys, i, k)
  {}

  lemma BeatsTotal(keys: seq<SortKey>, i: nat, j: nat)
    requires i < |keys| && j < |keys| && i != j
    ensures Beats(keys, i, j) <==> !Beats(keys, j, i)
  {}

  lemma {:induction false} InsertedParts(keys: seq<SortKey>, order: seq<nat>, k: nat)
    requires k < |keys| && forall i :: 0 <= i < |order| ==> order[i] < k
    requires forall i, j :: 0 <= i < j < |order| ==> Beats(keys, order[i], order[j])
    ensures var r := Inserted(keys, order, k);
            && |r| == |order| + 1 && multiset(r) == multiset(order) + multiset{k}
            && forall i, j :: 0 <= i < j < |r| ==> r[i] <= k && r[j] <= k && Beats(keys, r[i], r[j])
  {
    var r := Inserted(keys, order, k);
    hide Beats;
    if order != [] {
      var first, rest := order[0], order[1..];
      assert order == [first] + rest;
      BeatsTotal(keys, first, k);
      if Beats(keys, first, k) {
        InsertedParts(keys, rest, k);
        var t := Inserted(keys, rest, k);
        assert r == [first] + t;
        forall j | 0 <= j < |t| ensures t[j] <= k && Beats(keys, first, t[j]) {
          assert t[j] in multiset(t);
          if t[j] != k {
            assert t[j] in multiset(rest);
          }
        }
      } else {
        assert Beats(keys, k, first);
        forall j | 0 <= j < |order| ensures Beats(keys, k, order[j]) {
          if j > 0 { BeatsTransitive(keys, k, first, order[j]); }
        }
      }
    }
  }

  lemma InsertionSorts(keys: seq<SortKey>, order: seq<nat>, k: nat)
    requires k < |keys| && IsSorting(keys, order, k)
    ensures IsSorting(keys, Inserted(keys, order, k), k + 1)
  {
    InsertedParts(keys, order, k);
    var r := Inserted(keys, order, k);
    forall i | 0 <= i < |r| ensures r[i] < k + 1 {
      assert r[i] in multiset(r);
      assert r[i] == k || r[i] in multiset(order);
    }
    forall j | 0 <= j < k + 1 ensures j in r {
      if j < k {
        assert j in order;
        assert j in multiset(order);
      }
      assert j in multiset(r);
    }
  }

  // ---- where an element ends up -------------------------------------------------------------------

  function Rivals(keys: seq<SortKey>, k: nat): set<nat>
    requires k < |keys|
  {
    set j: nat | j < |keys| && Beats(keys, j, k)
  }

  function Elements(order: seq<nat>): set<nat> { set k | k in order }

  lemma {:induction false} DistinctElements(order: seq<nat>)
    requires forall i, j :: 0 <= i < j < |order| ==> order[i] != order[j]
    ensures |Elements(order)| == |order|
  {
    if order == [] {
      assert Elements(order) == {};
    } else {
      var init, last := order[..|order| - 1], order[|order| - 1];
      DistinctElements(init);
      assert order == init + [last];
      assert Elements(order) == Elements(init) + {last};
      assert last !in Elements(init);
    }
  }

  /** The rank of an element is the number of elements that beat it. */
  lemma RankIsRivalCount(keys: seq<SortKey>, order: seq<nat>, p: nat)
    requires IsSorting(keys, order, |keys|) && p < |keys|
    ensures |Rivals(keys, order[p])| == p
  {
    var before := order[..p];
    forall i, j | 0 <= i < j < p ensures before[i] != before[j] {
      assert Beats(keys, before[i], before[j]);
    }
    DistinctElements(before);
    forall j: nat ensures j in Rivals(keys, order[p]) <==> j in before {
      if j in before {
        var i :| 0 <= i < p && before[i] == j;
        assert Beats(keys, order[i], order[p]);
      }
      if j in Rivals(keys, order[p]) {
        assert j in order;
        var i :| 0 <= i < |order| && order[i] == j;
        if i > p { assert Beats(keys, order[p], order[i]); }
      }
    }
    assert Rivals(keys, order[p]) == Elements(before);
  }

  /** Where element `k` ends up. */
  function RankOf(keys: seq<SortKey>, k: nat): (p: nat)
    requires k < |keys|
    ensures p < |keys| && SortOrder(keys, |keys|)[p] == k
  {
    PositionIn(SortOrder(keys, |keys|), k)
  }

  function PositionIn(order: seq<nat>, k: nat): (p: nat)
    requires k in order
    ensures p < |order| && order[p] == k
  {
    if order[0] == k then 0 else PositionIn(order[1..], k) + 1
  }

  /** Raising one key never moves its element later, ties and stability included. */
  lemma RaisedKeyMovesUp(keys: seq<SortKey>, k: nat, key: SortKey)
    requires k < |keys| && (key == keys[k] || Above(key, keys[k]))
    ensures RankOf(keys[k := key], k) <= RankOf(keys, k)
  {
    RankIsRivalCount(keys, SortOrder(keys, |keys|), RankOf(keys, k));
    RankIsRivalCount(keys[k := key], SortOrder(keys[k := key], |keys|), RankOf(keys[k := key], k));
    assert Rivals(keys[k := key], k) <= Rivals(keys, k);
    SubsetSize(Rivals(keys[k := key], k), Rivals(keys, k));
  }

  lemma {:induction false} SubsetSize<T>(a: set<T>, b: set<T>)
    requires a <= b
    ensures |a| <= |b|
  {
    if a != {} {
      var x :| x in a;
      SubsetSize(a - {x}, b - {x});
    }
  }

  // ---- ranking proposals ----------------------------------------------------------------------------

  function EvaluatedAll(proposals: seq<Proposal>, constraints: Option<Constraints>): (r: seq<Scored>)
    ensures |r| == |proposals|
  {
    seq(|proposals|, i requires 0 <= i < |proposals| => Evaluated(proposals[i], constraints))
  }

  function Sorted(scored: seq<Scored>): (r: seq<Scored>)
    ensures |r| == |scored|
  {
    var order := SortOrder(KeysOf(scored), |scored|);
    seq(|order|, i requires 0 <= i < |order| => scored[order[i]])
  }

  /** `rank_proposals_by_comparison`: evaluate into a list, then sort it. */
  method RankProposals(proposals: seq<Proposal>, constraints: Option<Constraints>) returns (ranked: seq<Scored>)
    ensures ranked == Sorted(EvaluatedAll(proposals, constraints))
  {
    hide Evaluated, Sorted;
    var enriched: seq<Scored> := [];
    for i := 0 to |proposals|
      invariant enriched == EvaluatedAll(proposals, constraints)[..i]
    {
      assert EvaluatedAll(proposals, constraints)[..i + 1] == enriched + [Evaluated(proposals[i], constraints)];
      enriched := enriched + [Evaluated(proposals[i], constraints)];
    }
    assert enriched == EvaluatedAll(proposals, constraints);
    ranked := Sorted(enriched);
  }

  /** The sort only reorders. */
  lemma SortedIsPermutation(scored: seq<Scored>)
    ensures multiset(Sorted(scored)) == multiset(scored)
  {
    SortPermutes(scored, KeysOf(scored), |scored|);
    assert scored[..|scored|] == scored;
    var order := SortOrder(KeysOf(scored), |scored|);
    assert Sorted(scored) == Picked(scored, order);
  }

  function Picked(scored: seq<Scored>, order: seq<nat>): seq<Scored>
    requires forall i :: 0 <= i < |order| ==> order[i] < |scored|
  {
    seq(|order|, i requires 0 <= i < |order| => scored[order[i]])
  }

  lemma {:induction false} PickedInserted(scored: seq<Scored>, keys: seq<SortKey>, order: seq<nat>, k: nat)
    requires |keys| == |scored| && k < |keys| && forall i :: 0 <= i < |order| ==> order[i] < |keys|
    ensures forall i :: 0 <= i < |Inserted(keys, order, k)| ==> Inserted(keys, order, k)[i] < |keys|
    ensures multiset(Picked(scored, Inserted(keys, order, k))) == multiset(Picked(scored, order)) + multiset{scored[k]}
  {
    hide Beats;
    var r := Inserted(keys, order, k);
    if order == [] {
      assert Picked(scored, r) == [scored[k]];
    } else {
      var first, rest := order[0], order[1..];
      assert Picked(scored, order) == [scored[first]] + Picked(scored, rest);
      if Beats(keys, first, k) {
        PickedInserted(scored, keys, rest, k);
        assert Picked(scored, r) == [scored[first]] + Picked(scored, Inserted(keys, rest, k));
      } else {
        assert Picked(scored, r) == [scored[k]] + Picked(scored, order);
      }
    }
  }

  lemma {:induction false} SortPermutes(scored: seq<Scored>, keys: seq<SortKey>, n: nat)
    requires |keys| == |scored| && n <= |keys|
    ensures multiset(Picked(scored, SortOrder(keys, n))) == multiset(scored[..n])
  {
    if n > 0 {
      SortPermutes(scored, keys, n - 1);
      PickedInserted(scored, keys, SortOrder(keys, n - 1), n - 1);
      assert scored[..n] == scored[..n - 1] + [scored[n - 1]];
    }
  }

  /** The result is descending, and elements with equal keys keep their order of arrival. */
  lemma SortedIsStable(scored: seq<Scored>, i: nat, j: nat)
    requires i < j < |scored|
    ensures var order, r := SortOrder(KeysOf(scored), |scored|), Sorted(scored);
            && r[i] == scored[order[i]] && r[j] == scored[order[j]]
            && !Above(KeyOf(r[j]), KeyOf(r[i]))
            && (KeyOf(r[i]) == KeyOf(r[j]) ==> order[i] < order[j])
  {
    var keys := KeysOf(scored);
    var order := SortOrder(keys, |scored|);
    assert Beats(keys, order[i], order[j]);
  }

  /** No worse rounded scores mean no later rank. */
  lemma NoWorseKeyRanksNoLater(proposals: seq<Proposal>, k: nat, better: Proposal, constraints: Option<Constraints>)
    requires k < |proposals|
    requires var s, t := Evaluated(proposals[k], constraints), Evaluated(better, constraints);
             && t.totalScore >= s.totalScore && t.comparisonScore >= s.comparisonScore
             && t.businessScore >= s.businessScore
    ensures var before := KeysOf(EvaluatedAll(proposals, constraints));
            var after := KeysOf(EvaluatedAll(proposals[k := better], constraints));
            |before| == |after| == |proposals| && RankOf(after, k) <= RankOf(before, k)
  {
    hide Evaluated, SortOrder, RankOf;
    var keys := KeysOf(EvaluatedAll(proposals, constraints));
    var key := KeyOf(Evaluated(better, constraints));
    assert KeysOf(EvaluatedAll(proposals[k := better], constraints)) == keys[k := key];
    RaisedKeyMovesUp(keys, k, key);
  }

  /** Rank monotonicity: a proposal replaced by one that is no worse on every effective axis, with
      the same scores and judged speed, is never ranked later. */
  lemma NoWorseRanksNoLater(proposals: seq<Proposal>, k: nat, better: Proposal, constraints: Option<Constraints>)
    requires k < |proposals|
    requires NoWorse(Effective(AxesFor(better)), Effective(AxesFor(proposals[k])))
    requires better.scores == proposals[k].scores && JudgedSpeed(better) == JudgedSpeed(proposals[k])
    ensures var before := KeysOf(EvaluatedAll(proposals, constraints));
            var after := KeysOf(EvaluatedAll(proposals[k := better], constraints));
            |before| == |after| == |proposals| && RankOf(after, k) <= RankOf(before, k)
  {
    NoWorseScoresNoWorse(proposals[k], better, constraints);
    hide *;
    NoWorseKeyRanksNoLater(proposals, k, better, constraints);
  }
}
