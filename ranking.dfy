/** Ranking of one detector's issues: `sorted(issues, key=lambda i: -i.importance)`
    followed by the slice `[:MAX_ISSUES_PER_DETECTOR]`. Python's `sorted` is stable,
    so issues of equal importance keep the order in which the detector produced them. */
module Ranking {

  /** The cap on the issues one detector contributes to a scan result. */
  const MAX_ISSUES_PER_DETECTOR: nat := 15

  /** One detected problem. Importance is a real number (higher is more severe);
      the description stands for the detector-specific payload. */
  datatype Issue = Issue(importance: real, description: string)

  function Min(a: nat, b: nat): nat {
    if a <= b then a else b
  }

  /** Issues appear from most to least important. */
  predicate NonIncreasing(s: seq<Issue>) {
    forall i, j :: 0 <= i < j < |s| ==> s[i].importance >= s[j].importance
  }

  /** Every issue of `a` is at least as important as every issue of `b`. */
  predicate Dominates(a: multiset<Issue>, b: multiset<Issue>) {
    forall x, y :: x in a && y in b ==> x.importance >= y.importance
  }

  /** The issues of `s` whose importance is `v`, in their order in `s`. */
  function WithImportance(s: seq<Issue>, v: real): (r: seq<Issue>)
    ensures forall i :: 0 <= i < |r| ==> r[i].importance == v
  {
    if s == [] then []
    else (if s[0].importance == v then [s[0]] else []) + WithImportance(s[1..], v)
  }

  /** Inserts `x` into `t` in front of the first issue that is not more important
      than `x`; thus `x` precedes every issue of equal importance already in `t`. */
  function Insert(x: Issue, t: seq<Issue>): (r: seq<Issue>)
    ensures |r| == |t| + 1
    ensures multiset(r) == multiset(t) + multiset{x}
  {
    if t == [] || x.importance >= t[0].importance then [x] + t
    else
      assert t == [t[0]] + t[1..];
      [t[0]] + Insert(x, t[1..])
  }

  /** Stable sort by descending importance (insertion sort). */
  function SortDesc(s: seq<Issue>): (r: seq<Issue>)
    ensures |r| == |s|
    ensures multiset(r) == multiset(s)
    ensures NonIncreasing(r)
  {
    if s == [] then []
    else
      assert s == [s[0]] + s[1..];
      InsertSorted(s[0], SortDesc(s[1..]));
      Insert(s[0], SortDesc(s[1..]))
  }

  /** Inserting into a non-increasing sequence keeps it non-increasing. */
  lemma {:induction false} InsertSorted(x: Issue, t: seq<Issue>)
    requires NonIncreasing(t)
    ensures NonIncreasing(Insert(x, t))
  {
    var r := Insert(x, t);
    if t == [] || x.importance >= t[0].importance {
      forall i, j | 0 <= i < j < |r| ensures r[i].importance >= r[j].importance {
        if i > 0 {
          assert r[i] == t[i - 1] && r[j] == t[j - 1];
        } else {
          assert r[j] == t[j - 1];
        }
      }
    } else {
      var q := Insert(x, t[1..]);
      assert NonIncreasing(t[1..]);
      InsertSorted(x, t[1..]);
      assert r == [t[0]] + q;
      forall i, j | 0 <= i < j < |r| ensures r[i].importance >= r[j].importance {
        if i > 0 {
          assert r[i] == q[i - 1] && r[j] == q[j - 1];
        } else {
          assert r[j] == q[j - 1];
          assert r[j] in multiset(q);
          if r[j] != x {
            assert r[j] in multiset(t[1..]);
            var k :| 0 <= k < |t[1..]| && t[1..][k] == r[j];
            assert t[k + 1] == r[j];
          }
        }
      }
    }
  }

  /** What one detector contributes to the scan result. */
  function Top(issues: seq<Issue>): seq<Issue> {
    var sorted := SortDesc(issues);
    sorted[..Min(|sorted|, MAX_ISSUES_PER_DETECTOR)]
  }

  /** The issues of a detector's output that `Top` leaves out: the ranking past
      the first 15. */
  function Dropped(issues: seq<Issue>): multiset<Issue> {
    multiset(SortDesc(issues)[Min(|issues|, MAX_ISSUES_PER_DETECTOR)..])
  }

  lemma {:induction false} WithImportanceAppend(a: seq<Issue>, b: seq<Issue>, v: real)
    ensures WithImportance(a + b, v) == WithImportance(a, v) + WithImportance(b, v)
  {
    if a == [] {
      assert a + b == b;
    } else {
      assert (a + b)[0] == a[0];
      assert (a + b)[1..] == a[1..] + b;
      WithImportanceAppend(a[1..], b, v);
    }
  }

  lemma {:induction false} InsertKeepsTies(x: Issue, t: seq<Issue>, v: real)
    ensures WithImportance(Insert(x, t), v)
         == (if x.importance == v then [x] else []) + WithImportance(t, v)
  {
    if t == [] || x.importance >= t[0].importance {
      assert ([x] + t)[1..] == t;
    } else {
      assert ([t[0]] + Insert(x, t[1..]))[1..] == Insert(x, t[1..]);
      InsertKeepsTies(x, t[1..], v);
    }
  }

  /** `sorted` is stable: for every importance value, the issues with that value
      come out in the order in which they went in. */
  lemma {:induction false} SortDescStable(s: seq<Issue>, v: real)
    ensures WithImportance(SortDesc(s), v) == WithImportance(s, v)
  {
    if s != [] {
      SortDescStable(s[1..], v);
      InsertKeepsTies(s[0], SortDesc(s[1..]), v);
    }
  }

  /** SortDesc is the only stable descending order: any non-increasing sequence
      that keeps, for each importance value, the same issues in the same order,
      is SortDesc's output. */
  lemma {:induction false} SortDescUnique(s: seq<Issue>, t: seq<Issue>)
    requires NonIncreasing(t)
    requires forall v :: WithImportance(t, v) == WithImportance(s, v)
    ensures t == SortDesc(s)
  {
    forall v ensures WithImportance(t, v) == WithImportance(SortDesc(s), v) {
      SortDescStable(s, v);
    }
    SortedTiesDetermine(t, SortDesc(s));
  }

  /** Two non-increasing sequences with the same issues per importance value are equal. */
  lemma {:induction false} SortedTiesDetermine(a: seq<Issue>, b: seq<Issue>)
    requires NonIncreasing(a) && NonIncreasing(b)
    requires forall v :: WithImportance(a, v) == WithImportance(b, v)
    ensures a == b
    decreases |a| + |b|
  {
    if a == [] && b == [] {
    } else if a == [] {
      NoTiesEmpty(b);
    } else if b == [] {
      NoTiesEmpty(a);
    } else {
      var va, vb := a[0].importance, b[0].importance;
      if va > vb {
        HeadKept(a);
        NoneAbove(b, va);
        assert false;
      } else if vb > va {
        HeadKept(b);
        NoneAbove(a, vb);
        assert false;
      } else {
        HeadKept(a);
        HeadKept(b);
        assert a[0] == WithImportance(a, va)[0] == WithImportance(b, va)[0] == b[0];
        forall v ensures WithImportance(a[1..], v) == WithImportance(b[1..], v) {
          TailTies(a, v);
          TailTies(b, v);
          var p := if a[0].importance == v then [a[0]] else [];
          assert WithImportance(a[1..], v) == (p + WithImportance(a[1..], v))[|p|..];
          assert WithImportance(b[1..], v) == (p + WithImportance(b[1..], v))[|p|..];
        }
        SortedTiesDetermine(a[1..], b[1..]);
        assert a == [a[0]] + a[1..];
        assert b == [b[0]] + b[1..];
      }
    }
  }

  /** A sequence in which no importance value occurs is empty. */
  lemma NoTiesEmpty(s: seq<Issue>)
    requires forall v :: WithImportance(s, v) == []
    ensures s == []
  {
    if s != [] {
      HeadKept(s);
      assert false;
    }
  }

  lemma HeadKept(s: seq<Issue>)
    requires s != []
    ensures WithImportance(s, s[0].importance) == [s[0]] + WithImportance(s[1..], s[0].importance)
  {
  }

  lemma TailTies(s: seq<Issue>, v: real)
    requires s != []
    ensures WithImportance(s, v)
         == (if s[0].importance == v then [s[0]] else []) + WithImportance(s[1..], v)
  {
  }

  /** In a non-increasing sequence, an importance above the head's occurs nowhere. */
  lemma {:induction false} NoneAbove(s: seq<Issue>, v: real)
    requires NonIncreasing(s)
    requires s != [] && v > s[0].importance
    ensures WithImportance(s, v) == []
  {
    if |s| > 1 {
      assert NonIncreasing(s[1..]);
      NoneAbove(s[1..], v);
    }
  }

  /** A detector contributes min(M, 15) issues, where M is the length of its output. */
  lemma TopLength(issues: seq<Issue>)
    ensures |Top(issues)| == Min(|issues|, MAX_ISSUES_PER_DETECTOR)
    ensures |Top(issues)| <= MAX_ISSUES_PER_DETECTOR
  {
  }

  /** A detector's contribution is ordered from most to least important. */
  lemma TopOrdered(issues: seq<Issue>)
    ensures NonIncreasing(Top(issues))
  {
  }

  /** Kept issues come only from the detector's own output, and every dropped
      issue is at most as important as every kept one. */
  lemma TopKeepsMostImportant(issues: seq<Issue>)
    ensures multiset(Top(issues)) <= multiset(issues)
    ensures multiset(Top(issues)) + Dropped(issues) == multiset(issues)
    ensures Dominates(multiset(Top(issues)), Dropped(issues))
  {
    var sorted := SortDesc(issues);
    var k := Min(|sorted|, MAX_ISSUES_PER_DETECTOR);
    var kept, rest := sorted[..k], sorted[k..];
    assert sorted == kept + rest;
    assert multiset(sorted) == multiset(kept) + multiset(rest);
    forall x: Issue, y: Issue | x in multiset(kept) && y in multiset(rest)
      ensures x.importance >= y.importance
    {
      SplitDominates(sorted, k, x, y);
    }
  }

  /** In a non-increasing sequence, whatever precedes position k is at least as
      important as whatever follows it. */
  lemma SplitDominates(s: seq<Issue>, k: nat, x: Issue, y: Issue)
    requires NonIncreasing(s) && k <= |s|
    requires x in s[..k] && y in s[k..]
    ensures x.importance >= y.importance
  {
    var i :| 0 <= i < k && s[..k][i] == x;
    var j :| 0 <= j < |s| - k && s[k..][j] == y;
    assert s[i] == x && s[k + j] == y;
  }

  /** A detector that reports at most 15 issues keeps all of them. */
  lemma TopKeepsAllWhenFew(issues: seq<Issue>)
    requires |issues| <= MAX_ISSUES_PER_DETECTOR
    ensures multiset(Top(issues)) == multiset(issues)
    ensures Top(issues) == SortDesc(issues)
  {
    var sorted := SortDesc(issues);
    assert sorted[..|sorted|] == sorted;
  }

  /** Ties keep their relative order in the contribution: for every importance
      value, the kept issues with that value are the first ones the detector
      produced with that value. */
  lemma TopKeepsTieOrder(issues: seq<Issue>, v: real)
    ensures WithImportance(Top(issues), v) <= WithImportance(issues, v)
  {
    var sorted := SortDesc(issues);
    var k := Min(|sorted|, MAX_ISSUES_PER_DETECTOR);
    assert sorted == sorted[..k] + sorted[k..];
    WithImportanceAppend(sorted[..k], sorted[k..], v);
    SortDescStable(issues, v);
  }

  /** Issues appear from least to most important, with no ties. */
  predicate Increasing(s: seq<Issue>) {
    forall i, j :: 0 <= i < j < |s| ==> s[i].importance < s[j].importance
  }

  /** `s` back to front. */
  function Reversed(s: seq<Issue>): (r: seq<Issue>)
    ensures |r| == |s|
    ensures forall i :: 0 <= i < |s| ==> r[i] == s[|s| - 1 - i]
  {
    if s == [] then [] else Reversed(s[1..]) + [s[0]]
  }

  /** An issue less important than everything in `t` is inserted at the end. */
  lemma {:induction false} InsertLeast(x: Issue, t: seq<Issue>)
    requires forall i :: 0 <= i < |t| ==> x.importance < t[i].importance
    ensures Insert(x, t) == t + [x]
  {
    if t != [] {
      InsertLeast(x, t[1..]);
      assert t == [t[0]] + t[1..];
    }
  }

  /** A detector output listed from least to most important is ranked back to front. */
  lemma {:induction false} SortDescIncreasing(s: seq<Issue>)
    requires Increasing(s)
    ensures SortDesc(s) == Reversed(s)
  {
    if s != [] {
      LeastFirst(s);
      SortDescIncreasing(s[1..]);
      InsertLeast(s[0], Reversed(s[1..]));
      assert SortDesc(s) == Insert(s[0], Reversed(s[1..]));
    }
  }

  lemma LeastFirst(s: seq<Issue>)
    requires Increasing(s) && s != []
    ensures Increasing(s[1..])
    ensures forall i :: 0 <= i < |s| - 1 ==> s[0].importance < Reversed(s[1..])[i].importance
  {
    var t := Reversed(s[1..]);
    forall i | 0 <= i < |t| ensures s[0].importance < t[i].importance {
      assert t[i] == s[|s| - 1 - i];
    }
  }
}
