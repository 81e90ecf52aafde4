/*
 * The example picker of `generate_report`: for every (model, task) group
 * with at least one record, the indices of the best, the median and the
 * worst record by score. Each index is the FIRST position holding the
 * wanted value (`list.index`); the median value is `sorted(scores)[n // 2]`,
 * the upper median when `n` is even.
 */
module Report {
  import opened Wrappers
  import opened Runner

  // ----- sorting -----

  predicate IsSorted(s: seq<real>) {
    forall i, j :: 0 <= i < j < |s| ==> s[i] <= s[j]
  }

  function Insert(x: real, s: seq<real>): (r: seq<real>)
    ensures |r| == |s| + 1
  {
    if s == [] || x <= s[0] then [x] + s else [s[0]] + Insert(x, s[1..])
  }

  /** `sorted(xs)`, ascending. */
  function Sort(xs: seq<real>): (r: seq<real>)
    ensures |r| == |xs|
  {
    if xs == [] then [] else Insert(xs[0], Sort(xs[1..]))
  }

  // ----- max, min, index -----

  /** `max(xs)`. */
  function MaxOf(xs: seq<real>): (m: real)
    requires xs != []
    ensures m in xs
    ensures forall i :: 0 <= i < |xs| ==> xs[i] <= m
  {
    if |xs| == 1 then xs[0]
    else
      var rest := MaxOf(xs[1..]);
      assert forall i :: 1 <= i < |xs| ==> xs[i] == xs[1..][i - 1];
      if xs[0] >= rest then xs[0] else rest
  }

  /** `min(xs)`. */
  function MinOf(xs: seq<real>): (m: real)
    requires xs != []
    ensures m in xs
    ensures forall i :: 0 <= i < |xs| ==> m <= xs[i]
  {
    if |xs| == 1 then xs[0]
    else
      var rest := MinOf(xs[1..]);
      assert forall i :: 1 <= i < |xs| ==> xs[i] == xs[1..][i - 1];
      if xs[0] <= rest then xs[0] else rest
  }

  /** `xs.index(v)`: the first position holding `v`. */
  function IndexOf(xs: seq<real>, v: real): (k: nat)
    requires v in xs
    ensures k < |xs| && xs[k] == v
    ensures forall j :: 0 <= j < k ==> xs[j] != v
  {
    if xs[0] == v then 0
    else
      var k := IndexOf(xs[1..], v);
      assert forall j :: 1 <= j < |xs| ==> xs[j] == xs[1..][j - 1];
      k + 1
  }

  // ----- selection -----

  datatype Selection = Selection(best: nat, median: nat, worst: nat)

  /** The position in sorted order that `sorted(scores)[len(scores) // 2]` reads. */
  function MedianRank(n: nat): nat {
    n / 2
  }

  /** The three indices for one group's scores; nothing for an empty group. */
  function SelectExamples(scores: seq<real>): (r: Option<Selection>)
    ensures r.None? <==> scores == []
  {
    if scores == [] then None
    else
      SortFacts(scores);
      var sorted := Sort(scores);
      var medianValue := sorted[MedianRank(|scores|)];
      assert medianValue in multiset(sorted);
      Some(Selection(IndexOf(scores, MaxOf(scores)), IndexOf(scores, medianValue), IndexOf(scores, MinOf(scores))))
  }

  /**
   * The selections for every model and every non-empty task group of the
   * results; empty groups are skipped.
   */
  function ExampleSelections(results: Results): (picks: map<string, map<string, Selection>>)
    ensures picks.Keys == results.Keys
    ensures forall m :: m in results ==> picks[m].Keys == set t | t in results[m] && results[m][t] != []
  {
    map m | m in results :: GroupSelections(results[m])
  }

  function GroupSelections(groups: map<string, seq<Record>>): map<string, Selection> {
    map t | t in groups && groups[t] != [] :: SelectExamples(Scores(groups[t])).value
  }

  // ----- lemmas: sorting -----

  lemma {:induction false} InsertPermutes(x: real, s: seq<real>)
    ensures multiset(Insert(x, s)) == multiset{x} + multiset(s)
    decreases |s|
  {
    if s != [] && x > s[0] {
      InsertPermutes(x, s[1..]);
      assert s == [s[0]] + s[1..];
    }
  }

  lemma {:induction false} InsertSorted(x: real, s: seq<real>)
    requires IsSorted(s)
    ensures IsSorted(Insert(x, s))
    decreases |s|
  {
    if s != [] && x > s[0] {
      var tail := s[1..];
      assert IsSorted(tail) by {
        forall i, j | 0 <= i < j < |tail| ensures tail[i] <= tail[j] {
          assert tail[i] == s[i + 1] && tail[j] == s[j + 1];
        }
      }
      InsertSorted(x, tail);
      InsertPermutes(x, tail);
      var ins := Insert(x, tail);
      forall k | 0 <= k < |ins| ensures s[0] <= ins[k] {
        assert ins[k] in multiset(ins);
        if ins[k] != x {
          assert ins[k] in multiset(tail);
          var j :| 0 <= j < |tail| && tail[j] == ins[k];
          assert s[j + 1] == ins[k];
        }
      }
    }
  }

  /** `sorted` yields an ascending permutation of its input. */
  lemma {:induction false} SortFacts(xs: seq<real>)
    ensures IsSorted(Sort(xs))
    ensures multiset(Sort(xs)) == multiset(xs)
    decreases |xs|
  {
    if xs != [] {
      SortFacts(xs[1..]);
      InsertSorted(xs[0], Sort(xs[1..]));
      InsertPermutes(xs[0], Sort(xs[1..]));
      assert xs == [xs[0]] + xs[1..];
    }
  }

  // ----- lemmas: counting around the median -----

  function CountBelow(s: seq<real>, v: real): nat {
    if s == [] then 0 else CountBelow(s[1..], v) + (if s[0] < v then 1 else 0)
  }

  function CountAbove(s: seq<real>, v: real): nat {
    if s == [] then 0 else CountAbove(s[1..], v) + (if s[0] > v then 1 else 0)
  }

  lemma {:induction false} CountsOfInsert(x: real, s: seq<real>, v: real)
    ensures CountBelow(Insert(x, s), v) == CountBelow(s, v) + (if x < v then 1 else 0)
    ensures CountAbove(Insert(x, s), v) == CountAbove(s, v) + (if x > v then 1 else 0)
    decreases |s|
  {
    if s != [] && x > s[0] {
      CountsOfInsert(x, s[1..], v);
      assert Insert(x, s)[1..] == Insert(x, s[1..]);
    } else {
      assert ([x] + s)[1..] == s;
    }
  }

  /** Sorting keeps how many elements lie below or above any value. */
  lemma {:induction false} CountsOfSort(xs: seq<real>, v: real)
    ensures CountBelow(Sort(xs), v) == CountBelow(xs, v)
    ensures CountAbove(Sort(xs), v) == CountAbove(xs, v)
    decreases |xs|
  {
    if xs != [] {
      CountsOfSort(xs[1..], v);
      CountsOfInsert(xs[0], Sort(xs[1..]), v);
    }
  }

  lemma {:induction false} CountsBounded(s: seq<real>, v: real)
    ensures CountBelow(s, v) <= |s| && CountAbove(s, v) <= |s|
    decreases |s|
  {
    if s != [] {
      CountsBounded(s[1..], v);
    }
  }

  lemma {:induction false} CountsSplit(s: seq<real>, k: nat, v: real)
    requires k <= |s|
    ensures CountBelow(s, v) == CountBelow(s[..k], v) + CountBelow(s[k..], v)
    ensures CountAbove(s, v) == CountAbove(s[..k], v) + CountAbove(s[k..], v)
    decreases k
  {
    if k > 0 {
      CountsSplit(s[1..], k - 1, v);
      assert s[1..][..k - 1] == s[..k][1..];
      assert s[1..][k - 1..] == s[k..];
    }
  }

  lemma {:induction false} NoneBelow(s: seq<real>, v: real)
    requires forall i :: 0 <= i < |s| ==> v <= s[i]
    ensures CountBelow(s, v) == 0
    decreases |s|
  {
    if s != [] {
      NoneBelow(s[1..], v);
    }
  }

  lemma {:induction false} NoneAbove(s: seq<real>, v: real)
    requires forall i :: 0 <= i < |s| ==> s[i] <= v
    ensures CountAbove(s, v) == 0
    decreases |s|
  {
    if s != [] {
      NoneAbove(s[1..], v);
    }
  }

  /**
   * In a sorted list, at most `k` elements lie strictly below the one at
   * rank `k`, and at most `n - 1 - k` strictly above it.
   */
  lemma {:induction false} RankCounts(s: seq<real>, k: nat)
    requires IsSorted(s) && k < |s|
    ensures CountBelow(s, s[k]) <= k
    ensures CountAbove(s, s[k]) <= |s| - 1 - k
  {
    var v := s[k];
    CountsSplit(s, k, v);
    CountsSplit(s, k + 1, v);
    CountsBounded(s[..k], v);
    CountsBounded(s[k + 1..], v);
    NoneBelow(s[k..], v);
    NoneAbove(s[..k + 1], v);
  }

  // ----- lemmas: the selection -----

  /**
   * All three indices are positions of `scores`; best and worst hold the
   * maximum and the minimum, each at its first occurrence; the median
   * holds the value of rank `n // 2` of the sorted scores at its first
   * occurrence; hence worst <= median <= best by score.
   */
  lemma {:induction false} SelectionFacts(scores: seq<real>)
    requires scores != []
    ensures var s := SelectExamples(scores).value;
      && s.best < |scores| && s.median < |scores| && s.worst < |scores|
      && (forall j :: 0 <= j < |scores| ==> scores[j] <= scores[s.best])
      && (forall j :: 0 <= j < s.best ==> scores[j] < scores[s.best])
      && (forall j :: 0 <= j < |scores| ==> scores[s.worst] <= scores[j])
      && (forall j :: 0 <= j < s.worst ==> scores[j] > scores[s.worst])
      && scores[s.median] == Sort(scores)[MedianRank(|scores|)]
      && (forall j :: 0 <= j < s.median ==> scores[j] != scores[s.median])
      && scores[s.worst] <= scores[s.median] <= scores[s.best]
  {
    var s := SelectExamples(scores).value;
    var hi := MaxOf(scores);
    var lo := MinOf(scores);
    assert scores[s.best] == hi;
    assert scores[s.worst] == lo;
    assert forall j :: 0 <= j < s.best ==> scores[j] != hi;
    assert forall j :: 0 <= j < s.worst ==> scores[j] != lo;
  }

  /**
   * The median pick is the upper median: at most `n // 2` scores lie
   * strictly below it and at most `n - 1 - n // 2` strictly above.
   */
  lemma {:induction false} MedianIsUpperMedian(scores: seq<real>)
    requires scores != []
    ensures var m := scores[SelectExamples(scores).value.median];
      && CountBelow(scores, m) <= |scores| / 2
      && CountAbove(scores, m) <= |scores| - 1 - |scores| / 2
  {
    SelectionFacts(scores);
    SortFacts(scores);
    var m := scores[SelectExamples(scores).value.median];
    RankCounts(Sort(scores), MedianRank(|scores|));
    CountsOfSort(scores, m);
  }

  /** Every picked index reads an existing record of its group. */
  lemma {:induction false} PicksIndexRecords(results: Results, m: string, t: string)
    requires m in results && t in results[m] && results[m][t] != []
    ensures var p := ExampleSelections(results)[m][t];
      p.best < |results[m][t]| && p.median < |results[m][t]| && p.worst < |results[m][t]|
  {
    SelectionFacts(Scores(results[m][t]));
  }
}
