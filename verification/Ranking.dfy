/** The order of the candidate sources of a chunk. */
module Ranking {
  datatype Candidate = Candidate(uuid: string, addr: string, score: real)

  /** Go's order on strings. */
  predicate LexLess(a: string, b: string) {
    if b == "" then false
    else if a == "" then true
    else if a[0] != b[0] then a[0] < b[0]
    else LexLess(a[1..], b[1..])
  }

  lemma {:induction false} LexTotal(a: string, b: string)
    ensures a == b || LexLess(a, b) || LexLess(b, a)
  {
    if a != "" && b != "" && a[0] == b[0] {
      LexTotal(a[1..], b[1..]);
      assert a == [a[0]] + a[1..] && b == [b[0]] + b[1..];
    }
  }

  lemma {:induction false} LexTransitive(a: string, b: string, c: string)
    requires LexLess(a, b) && LexLess(b, c)
    ensures LexLess(a, c)
  {
    if a != "" && a[0] == b[0] && b[0] == c[0] {
      LexTransitive(a[1..], b[1..], c[1..]);
    }
  }

  lemma {:induction false} LexAsymmetric(a: string, b: string)
    requires LexLess(a, b)
    ensures !LexLess(b, a)
  {
    if a != "" && a[0] == b[0] {
      LexAsymmetric(a[1..], b[1..]);
    }
  }

  /** Better score first, ties broken by uuid. */
  predicate Before(a: Candidate, b: Candidate) {
    if a.score == b.score then LexLess(a.uuid, b.uuid) else a.score > b.score
  }

  lemma BeforeTransitive(a: Candidate, b: Candidate, c: Candidate)
    requires Before(a, b) && Before(b, c)
    ensures Before(a, c)
  {
    if a.score == b.score == c.score {
      LexTransitive(a.uuid, b.uuid, c.uuid);
    }
  }

  lemma BeforeAsymmetric(a: Candidate, b: Candidate)
    requires Before(a, b)
    ensures !Before(b, a)
  {
    if a.score == b.score {
      LexAsymmetric(a.uuid, b.uuid);
    }
  }

  lemma BeforeTotal(a: Candidate, b: Candidate)
    requires a.uuid != b.uuid
    ensures Before(a, b) || Before(b, a)
  {
    LexTotal(a.uuid, b.uuid);
  }

  ghost predicate Sorted(list: seq<Candidate>) {
    forall i, j :: 0 <= i < j < |list| ==> Before(list[i], list[j])
  }

  ghost predicate DistinctIds(s: set<Candidate>) {
    forall a, b :: a in s && b in s && a.uuid == b.uuid ==> a == b
  }

  /** a comes before b: at the first character where they differ, or because it ends there. */
  ghost predicate Precedes(a: string, b: string) {
    exists n :: 0 <= n <= |a| && n < |b| && a[..n] == b[..n] && (n == |a| || a[n] < b[n])
  }

  lemma {:induction false} LexLessMeans(a: string, b: string)
    requires LexLess(a, b)
    ensures Precedes(a, b)
  {
    if a == [] || a[0] < b[0] {
      assert a[..0] == b[..0];
    } else {
      LexLessMeans(a[1..], b[1..]);
      var p, q := a[1..], b[1..];
      var n :| 0 <= n <= |p| && n < |q| && p[..n] == q[..n] && (n == |p| || p[n] < q[n]);
      assert a[..n + 1] == [a[0]] + p[..n] && b[..n + 1] == [b[0]] + q[..n];
    }
  }

  /** Later candidates never score higher, and equal scores come in the order of their ids. */
  ghost predicate BestFirst(list: seq<Candidate>) {
    forall j, k :: 0 <= j < k < |list| ==>
      || list[j].score > list[k].score
      || (list[j].score == list[k].score && Precedes(list[j].uuid, list[k].uuid))
  }

  lemma SortedIsBestFirst(list: seq<Candidate>)
    requires Sorted(list)
    ensures BestFirst(list)
  {
    forall j, k | 0 <= j < k < |list|
      ensures list[j].score > list[k].score
              || (list[j].score == list[k].score && Precedes(list[j].uuid, list[k].uuid))
    {
      assert Before(list[j], list[k]);
      if list[j].score == list[k].score {
        LexLessMeans(list[j].uuid, list[k].uuid);
      }
    }
  }

  /** `list` holds exactly the candidates in `s`, best first. */
  ghost predicate IsRanking(list: seq<Candidate>, s: set<Candidate>) {
    Sorted(list) && (forall x :: x in list <==> x in s)
  }

  function Insert(list: seq<Candidate>, x: Candidate): seq<Candidate> {
    if list == [] then [x]
    else if Before(x, list[0]) then [x] + list
    else [list[0]] + Insert(list[1..], x)
  }

  lemma {:induction false} InsertMembers(list: seq<Candidate>, x: Candidate)
    ensures forall y :: y in Insert(list, x) <==> y in list || y == x
  {
    if list != [] && !Before(x, list[0]) {
      InsertMembers(list[1..], x);
      assert forall y :: y in list <==> y == list[0] || y in list[1..];
    }
  }

  lemma {:induction false} InsertSorted(list: seq<Candidate>, x: Candidate)
    requires Sorted(list)
    requires forall y :: y in list ==> y.uuid != x.uuid
    ensures Sorted(Insert(list, x))
  {
    if list == [] {
    } else if Before(x, list[0]) {
      forall j | 0 <= j < |list| ensures Before(x, list[j]) {
        if j > 0 {
          BeforeTransitive(x, list[0], list[j]);
        }
      }
    } else {
      InsertSorted(list[1..], x);
      InsertMembers(list[1..], x);
      BeforeTotal(x, list[0]);
      var rest := Insert(list[1..], x);
      forall j | 0 <= j < |rest| ensures Before(list[0], rest[j]) {
        assert rest[j] in rest;
      }
    }
  }

  function SortAll(list: seq<Candidate>): seq<Candidate> {
    if list == [] then [] else Insert(SortAll(list[..|list| - 1]), list[|list| - 1])
  }

  lemma {:induction false} SortAllRanks(list: seq<Candidate>)
    requires forall i, j :: 0 <= i < j < |list| ==> list[i].uuid != list[j].uuid
    ensures IsRanking(SortAll(list), set x | x in list)
  {
    if list != [] {
      var rest, x := list[..|list| - 1], list[|list| - 1];
      SortAllRanks(rest);
      InsertMembers(SortAll(rest), x);
      InsertSorted(SortAll(rest), x);
      assert forall y :: y in list <==> y in rest || y == x;
    }
  }

  /** There is only one ranking, so the order in which candidates were collected is
      irrelevant. */
  lemma {:induction false} RankingUnique(p: seq<Candidate>, q: seq<Candidate>, s: set<Candidate>)
    requires IsRanking(p, s) && IsRanking(q, s)
    ensures p == q
  {
    EmptyTogether(p, s);
    EmptyTogether(q, s);
    if p != [] {
      assert p[0] in p;
      assert p[0] in q;
      assert q[0] in q;
      assert q[0] in p;
      FirstIsBest(p, q[0]);
      FirstIsBest(q, p[0]);
      if p[0] != q[0] {
        BeforeAsymmetric(p[0], q[0]);
      }
      TailRanks(p, s);
      TailRanks(q, s);
      RankingUnique(p[1..], q[1..], s - {p[0]});
    }
  }

  lemma EmptyTogether(p: seq<Candidate>, s: set<Candidate>)
    requires forall x :: x in p <==> x in s
    ensures p == [] <==> s == {}
  {
    if p != [] {
      assert p[0] in p;
    }
  }

  lemma FirstIsBest(p: seq<Candidate>, x: Candidate)
    requires Sorted(p) && x in p
    ensures x == p[0] || Before(p[0], x)
  {
  }

  lemma TailRanks(p: seq<Candidate>, s: set<Candidate>)
    requires IsRanking(p, s) && p != []
    ensures IsRanking(p[1..], s - {p[0]})
  {
    assert forall x :: x in p <==> x == p[0] || x in p[1..];
    forall j | 1 <= j < |p| ensures p[j] != p[0] {
      BeforeAsymmetric(p[0], p[j]);
    }
  }

  lemma {:induction false} RankingExists(s: set<Candidate>)
    requires DistinctIds(s)
    ensures exists list :: IsRanking(list, s)
  {
    if s == {} {
      assert IsRanking([], s);
    } else {
      var x :| x in s;
      RankingExists(s - {x});
      var list :| IsRanking(list, s - {x});
      InsertMembers(list, x);
      InsertSorted(list, x);
      assert IsRanking(Insert(list, x), s);
    }
  }

  ghost function TheRanking(s: set<Candidate>): (list: seq<Candidate>)
    requires DistinctIds(s)
    ensures IsRanking(list, s)
  {
    RankingExists(s);
    var list :| IsRanking(list, s);
    list
  }
}
