/** Filtering, counting and grouping rows, in the order in which a JavaScript
    `Map` keeps its keys. */
module Rows {
  import opened Basics

  function Filter<T>(rows: seq<T>, p: T -> bool): (f: seq<T>)
    ensures |f| <= |rows|
  {
    if rows == [] then []
    else Filter(rows[..|rows| - 1], p) + (if p(rows[|rows| - 1]) then [rows[|rows| - 1]] else [])
  }

  lemma {:induction false} FilterMembers<T>(rows: seq<T>, p: T -> bool)
    ensures forall r :: r in Filter(rows, p) <==> r in rows && p(r)
  {
    if rows != [] {
      var n := |rows| - 1;
      assert rows == rows[..n] + [rows[n]];
      FilterMembers(rows[..n], p);
    }
  }

  function CountIf<T>(rows: seq<T>, p: T -> bool): nat {
    if rows == [] then 0
    else CountIf(rows[..|rows| - 1], p) + (if p(rows[|rows| - 1]) then 1 else 0)
  }

  function Map<T, U>(rows: seq<T>, f: T -> U): (m: seq<U>)
    ensures |m| == |rows|
    ensures forall i :: 0 <= i < |rows| ==> m[i] == f(rows[i])
  {
    seq(|rows|, i requires 0 <= i < |rows| => f(rows[i]))
  }

  /** The labels of the rows, each once, in order of first occurrence. */
  function Labels<T>(rows: seq<T>, name: T -> Option<string>): seq<string> {
    if rows == [] then []
    else
      var n := |rows| - 1;
      var before := Labels(rows[..n], name);
      match name(rows[n])
      case None => before
      case Some(l) => if l in before then before else before + [l]
  }

  lemma {:induction false} LabelsMembers<T>(rows: seq<T>, name: T -> Option<string>)
    ensures forall l :: l in Labels(rows, name) <==> exists r :: r in rows && name(r) == Some(l)
    ensures Distinct(Labels(rows, name))
  {
    if rows != [] {
      var n := |rows| - 1;
      assert rows == rows[..n] + [rows[n]];
      LabelsMembers(rows[..n], name);
      forall l ensures l in Labels(rows, name) <==> exists r :: r in rows && name(r) == Some(l) {
        assert l in Labels(rows, name) <==> l in Labels(rows[..n], name) || name(rows[n]) == Some(l);
      }
    }
  }

  function Labelled<T>(rows: seq<T>, name: T -> Option<string>, l: string): seq<T> { Filter(rows, Named(name, l)) }

  function Named<T>(name: T -> Option<string>, l: string): T -> bool { r => name(r) == Some(l) }

  lemma LabelledMembers<T>(rows: seq<T>, name: T -> Option<string>, l: string)
    ensures forall r :: r in Labelled(rows, name, l) <==> r in rows && name(r) == Some(l)
  {
    FilterMembers(rows, Named(name, l));
  }

  /** Appending one row appends it to its own group and to no other. */
  lemma LabelledSnoc<T>(rows: seq<T>, row: T, name: T -> Option<string>, l: string)
    ensures Labelled(rows + [row], name, l) == Labelled(rows, name, l) + (if name(row) == Some(l) then [row] else [])
  {
    assert (rows + [row])[..|rows|] == rows;
  }

  lemma LabelsSnoc<T>(rows: seq<T>, row: T, name: T -> Option<string>)
    ensures Labels(rows + [row], name)
              == if name(row) == None || name(row).value in Labels(rows, name) then Labels(rows, name)
                 else Labels(rows, name) + [name(row).value]
  {
    assert (rows + [row])[..|rows|] == rows;
  }

  lemma CountSnoc<T>(rows: seq<T>, row: T, p: T -> bool)
    ensures CountIf(rows + [row], p) == CountIf(rows, p) + (if p(row) then 1 else 0)
  {
    assert (rows + [row])[..|rows|] == rows;
  }

  lemma {:induction false} CountConcat<T>(a: seq<T>, b: seq<T>, p: T -> bool)
    ensures CountIf(a + b, p) == CountIf(a, p) + CountIf(b, p)
    decreases |b|
  {
    if b == [] {
      assert a + b == a;
    } else {
      var n := |b| - 1;
      assert (a + b)[..|a + b| - 1] == a + b[..n];
      CountConcat(a, b[..n], p);
    }
  }

  lemma {:induction false} CountZero<T>(rows: seq<T>, p: T -> bool)
    ensures CountIf(rows, p) == 0 <==> forall r :: r in rows ==> !p(r)
  {
    if rows != [] {
      var n := |rows| - 1;
      assert rows == rows[..n] + [rows[n]];
      CountZero(rows[..n], p);
    }
  }

  lemma {:induction false} CountExt<T>(rows: seq<T>, p: T -> bool, q: T -> bool)
    requires forall r :: r in rows ==> p(r) == q(r)
    ensures CountIf(rows, p) == CountIf(rows, q)
  {
    if rows != [] {
      CountExt(rows[..|rows| - 1], p, q);
    }
  }

  /** The rows that are `x` are as many as the multiset says. */
  lemma {:induction false} CountIsMultiplicity<T>(rows: seq<T>, x: T)
    ensures CountIf(rows, r => r == x) == multiset(rows)[x]
  {
    if rows != [] {
      var n := |rows| - 1;
      assert rows == rows[..n] + [rows[n]];
      CountIsMultiplicity(rows[..n], x);
    }
  }

  function Both<T>(p: T -> bool, q: T -> bool): T -> bool { (r: T) => p(r) && q(r) }

  function Composed<T, U>(f: T -> U, p: U -> bool): T -> bool { (r: T) => p(f(r)) }

  lemma {:induction false} CountFilter<T>(rows: seq<T>, p: T -> bool, q: T -> bool)
    ensures CountIf(Filter(rows, p), q) == CountIf(rows, Both(p, q))
  {
    if rows != [] {
      var n := |rows| - 1;
      CountFilter(rows[..n], p, q);
      CountConcat(Filter(rows[..n], p), if p(rows[n]) then [rows[n]] else [], q);
      if p(rows[n]) {
        assert [rows[n]][..0] == [];
      }
    }
  }

  lemma {:induction false} CountMap<T, U>(rows: seq<T>, f: T -> U, p: U -> bool)
    ensures CountIf(Map(rows, f), p) == CountIf(rows, Composed(f, p))
  {
    if rows != [] {
      var n := |rows| - 1;
      assert Map(rows, f)[..n] == Map(rows[..n], f);
      CountMap(rows[..n], f, p);
    }
  }

  lemma {:induction false} CountAll<T>(rows: seq<T>, p: T -> bool)
    requires forall r :: r in rows ==> p(r)
    ensures CountIf(rows, p) == |rows|
  {
    if rows != [] {
      CountAll(rows[..|rows| - 1], p);
    }
  }

  lemma SameLength<T>(a: seq<T>, b: seq<T>)
    requires multiset(a) == multiset(b)
    ensures |a| == |b|
  {
    assert |multiset(a)| == |multiset(b)|;
  }

  /** The last element of one list taken out of a permutation of it. */
  lemma TakeOut<T>(a: seq<T>, b: seq<T>) returns (i: nat)
    requires a != [] && multiset(a) == multiset(b)
    ensures i < |b| && b[i] == a[|a| - 1] && b == b[..i] + [b[i]] + b[i + 1..]
    ensures multiset(a[..|a| - 1]) == multiset(b[..i] + b[i + 1..])
  {
    var n := |a| - 1;
    var x := a[n];
    assert a == a[..n] + [x];
    assert x in multiset(b);
    i :| 0 <= i < |b| && b[i] == x;
    assert b == b[..i] + [x] + b[i + 1..];
    assert multiset(b) == multiset(b[..i] + b[i + 1..]) + multiset{x};
    assert multiset(a[..n]) == multiset(a) - multiset{x};
  }

  /** Counting does not depend on the order. */
  lemma {:induction false} CountPermuted<T>(a: seq<T>, b: seq<T>, p: T -> bool)
    requires multiset(a) == multiset(b)
    ensures CountIf(a, p) == CountIf(b, p)
    decreases |a|
  {
    SameLength(a, b);
    if a != [] {
      var n := |a| - 1;
      var x := a[n];
      var i := TakeOut(a, b);
      CountPermuted(a[..n], b[..i] + b[i + 1..], p);
      CountConcat(b[..i], b[i + 1..], p);
      CountConcat(b[..i] + [x], b[i + 1..], p);
      CountSnoc(b[..i], x, p);
    }
  }

  /** Two sequences in which every predicate holds equally often are permutations. */
  lemma SameCountsSameRows<T>(a: seq<T>, b: seq<T>)
    requires forall p: T -> bool :: CountIf(a, p) == CountIf(b, p)
    ensures multiset(a) == multiset(b)
  {
    forall x: T ensures multiset(a)[x] == multiset(b)[x] {
      CountIsMultiplicity(a, x);
      CountIsMultiplicity(b, x);
    }
  }

  // ----- sums over labels -----

  function Sum(ls: seq<string>, f: string -> nat): nat {
    if ls == [] then 0 else Sum(ls[..|ls| - 1], f) + f(ls[|ls| - 1])
  }

  predicate Distinct(ls: seq<string>) { forall i, j :: 0 <= i < j < |ls| ==> ls[i] != ls[j] }

  lemma {:induction false} SumConcat(a: seq<string>, b: seq<string>, f: string -> nat)
    ensures Sum(a + b, f) == Sum(a, f) + Sum(b, f)
    decreases |b|
  {
    if b == [] {
      assert a + b == a;
    } else {
      assert (a + b)[..|a + b| - 1] == a + b[..|b| - 1];
      SumConcat(a, b[..|b| - 1], f);
    }
  }

  lemma {:induction false} SumExt(ls: seq<string>, f: string -> nat, g: string -> nat)
    requires forall l :: l in ls ==> f(l) == g(l)
    ensures Sum(ls, f) == Sum(ls, g)
  {
    if ls != [] {
      SumExt(ls[..|ls| - 1], f, g);
    }
  }

  lemma {:induction false} SumZero(ls: seq<string>, f: string -> nat)
    requires forall l :: l in ls ==> f(l) == 0
    ensures Sum(ls, f) == 0
  {
    if ls != [] {
      SumZero(ls[..|ls| - 1], f);
    }
  }

  /** At most one label of a duplicate-free list contributes. */
  lemma {:induction false} SumOne(ls: seq<string>, f: string -> nat, only: string)
    requires Distinct(ls) && forall l :: l in ls && l != only ==> f(l) == 0
    ensures Sum(ls, f) == if only in ls then f(only) else 0
  {
    if ls != [] {
      var n := |ls| - 1;
      assert ls == ls[..n] + [ls[n]];
      if ls[n] == only {
        SumZero(ls[..n], f);
      } else {
        SumOne(ls[..n], f, only);
      }
    }
  }

  /** Two sums that agree but for one label differ by that label. */
  lemma {:induction false} SumDiffer(ls: seq<string>, f: string -> nat, g: string -> nat, only: string)
    requires Distinct(ls) && only in ls && forall l :: l in ls && l != only ==> f(l) == g(l)
    ensures Sum(ls, f) + g(only) == Sum(ls, g) + f(only)
  {
    var n := |ls| - 1;
    assert ls == ls[..n] + [ls[n]];
    if ls[n] == only {
      SumExt(ls[..n], f, g);
    } else {
      SumDiffer(ls[..n], f, g, only);
    }
  }

  lemma {:induction false} FilterConcat<T>(a: seq<T>, b: seq<T>, p: T -> bool)
    ensures Filter(a + b, p) == Filter(a, p) + Filter(b, p)
    decreases |b|
  {
    if b == [] {
      assert a + b == a;
    } else {
      var n := |b| - 1;
      assert (a + b)[..|a + b| - 1] == a + b[..n];
      FilterConcat(a, b[..n], p);
    }
  }

  lemma {:induction false} FilterFilter<T>(rows: seq<T>, p: T -> bool, q: T -> bool)
    ensures Filter(Filter(rows, p), q) == Filter(rows, Both(p, q))
  {
    if rows != [] {
      var n := |rows| - 1;
      FilterFilter(rows[..n], p, q);
      if p(rows[n]) {
        FilterConcat(Filter(rows[..n], p), [rows[n]], q);
        assert [rows[n]][..0] == [];
      } else {
        assert Filter(rows, p) == Filter(rows[..n], p);
      }
    }
  }

  lemma {:induction false} FilterExt<T>(rows: seq<T>, p: T -> bool, q: T -> bool)
    requires forall r :: r in rows ==> p(r) == q(r)
    ensures Filter(rows, p) == Filter(rows, q)
  {
    if rows != [] {
      FilterExt(rows[..|rows| - 1], p, q);
    }
  }

  lemma {:induction false} FilterAll<T>(rows: seq<T>, p: T -> bool)
    requires forall r :: r in rows ==> p(r)
    ensures Filter(rows, p) == rows
  {
    if rows != [] {
      var n := |rows| - 1;
      assert rows == rows[..n] + [rows[n]];
      FilterAll(rows[..n], p);
    }
  }

  lemma {:induction false} DistinctOnce(ls: seq<string>, l: string)
    requires Distinct(ls)
    ensures multiset(ls)[l] == if l in ls then 1 else 0
  {
    if ls != [] {
      var n := |ls| - 1;
      assert ls == ls[..n] + [ls[n]];
      DistinctOnce(ls[..n], l);
    }
  }

  lemma {:induction false} SumReordered(a: seq<string>, b: seq<string>, f: string -> nat)
    requires multiset(a) == multiset(b)
    ensures Sum(a, f) == Sum(b, f)
    decreases |a|
  {
    SameLength(a, b);
    if a != [] {
      var n := |a| - 1;
      var x := a[n];
      var i := TakeOut(a, b);
      SumReordered(a[..n], b[..i] + b[i + 1..], f);
      SumConcat(b[..i], b[i + 1..], f);
      SumConcat(b[..i] + [x], b[i + 1..], f);
      SumConcat(b[..i], [x], f);
      assert [x][..0] == [];
    }
  }

  /** A sum over distinct labels does not depend on their order. */
  lemma SumPermuted(a: seq<string>, b: seq<string>, f: string -> nat)
    requires Distinct(a) && Distinct(b) && forall l :: l in a <==> l in b
    ensures Sum(a, f) == Sum(b, f)
  {
    forall l: string ensures multiset(a)[l] == multiset(b)[l] {
      DistinctOnce(a, l);
      DistinctOnce(b, l);
    }
    SumReordered(a, b, f);
  }

  /** One more label that contributes nothing, if it is new, leaves the sum. */
  lemma SumOneMore(ks: seq<string>, ls: seq<string>, k: string, f: string -> nat)
    requires Distinct(ks) && Distinct(ls) && forall l :: l in ls <==> l in ks || l == k
    requires k in ks || f(k) == 0
    ensures Sum(ls, f) == Sum(ks, f)
  {
    if k in ks {
      SumPermuted(ks, ls, f);
    } else {
      SumPermuted(ks + [k], ls, f);
      SumConcat(ks, [k], f);
      assert [k][..0] == [];
    }
  }

  /** Counting rows is counting their positions. */
  lemma {:induction false} CountPositions<T>(rows: seq<T>, p: T -> bool, at: set<int>)
    requires forall i :: i in at <==> 0 <= i < |rows| && p(rows[i])
    ensures CountIf(rows, p) == |at|
  {
    if rows == [] {
      assert forall i: int :: i !in at;
    } else {
      var n := |rows| - 1;
      CountPositions(rows[..n], p, at - {n});
    }
  }

  /** Two exclusive predicates that make up a third. */
  lemma {:induction false} CountEither<T>(rows: seq<T>, p: T -> bool, q: T -> bool, e: T -> bool)
    requires forall r :: e(r) == (p(r) || q(r)) && !(p(r) && q(r))
    ensures CountIf(rows, e) == CountIf(rows, p) + CountIf(rows, q)
  {
    if rows != [] {
      CountEither(rows[..|rows| - 1], p, q, e);
    }
  }

  /** Only two labels of a duplicate-free list contribute. */
  lemma {:induction false} SumTwo(ls: seq<string>, f: string -> nat, a: string, b: string)
    requires Distinct(ls) && forall l :: l in ls && l != a && l != b ==> f(l) == 0
    ensures Sum(ls, f) == (if a in ls then f(a) else 0) + (if b in ls && b != a then f(b) else 0)
  {
    if ls != [] {
      var n := |ls| - 1;
      assert ls == ls[..n] + [ls[n]];
      SumTwo(ls[..n], f, a, b);
    }
  }

  /** How many rows of one label satisfy a predicate. */
  function LabelCount<T>(rows: seq<T>, name: T -> Option<string>, p: T -> bool): string -> nat {
    (l: string) => CountIf(Labelled(rows, name, l), p)
  }

  /** Grouping loses no row. */
  lemma {:induction false} CountLabels<T>(rows: seq<T>, name: T -> Option<string>, p: T -> bool)
    requires forall r :: r in rows ==> name(r).Some?
    ensures Sum(Labels(rows, name), LabelCount(rows, name, p)) == CountIf(rows, p)
  {
    hide Labelled, Sum, Distinct;
    if rows == [] {
      NoSum(LabelCount(rows, name, p));
    } else {
      var n := |rows| - 1;
      assert rows == rows[..n] + [rows[n]];
      CountLabels(rows[..n], name, p);
      CountSnoc(rows[..n], rows[n], p);
      OneMoreLabelled(rows[..n], rows[n], name, p);
    }
  }

  lemma NoSum(f: string -> nat)
    ensures Sum([], f) == 0
  {}

  lemma OneMoreLabelled<T>(was: seq<T>, row: T, name: T -> Option<string>, p: T -> bool)
    requires name(row).Some?
    ensures Sum(Labels(was + [row], name), LabelCount(was + [row], name, p))
              == Sum(Labels(was, name), LabelCount(was, name, p)) + (if p(row) then 1 else 0)
  {
    hide Labelled, Labels, CountIf;
    var l := name(row).value;
    LabelsMembers(was, name);
    LabelsSnoc(was, row, name);
    var f, g := LabelCount(was, name, p), LabelCount(was + [row], name, p);
    forall m ensures g(m) == f(m) + (if m == l && p(row) then 1 else 0) {
      LabelledSnoc(was, row, name, m);
      CountSnoc(Labelled(was, name, m), row, p);
      assert Labelled(was, name, m) + [] == Labelled(was, name, m);
    }
    if l in Labels(was, name) {
      SumDiffer(Labels(was, name), f, g, l);
    } else {
      NoneLabelled(was, name, l);
      NothingCounted(p);
      SumExt(Labels(was, name), f, g);
      SumConcat(Labels(was, name), [l], g);
      assert [l][..0] == [];
    }
  }

  lemma NothingCounted<T>(p: T -> bool)
    ensures CountIf([], p) == 0
  {}

  lemma NoneLabelled<T>(rows: seq<T>, name: T -> Option<string>, l: string)
    requires l !in Labels(rows, name)
    ensures Labelled(rows, name, l) == []
  {
    LabelsMembers(rows, name);
    LabelledMembers(rows, name, l);
    if Labelled(rows, name, l) != [] {
      SomeMember(Labelled(rows, name, l));
    }
  }

  lemma SomeMember<T>(rows: seq<T>)
    requires rows != []
    ensures exists r :: r in rows
  {
    assert rows[0] in rows;
  }
}
