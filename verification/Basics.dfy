/** Small vocabulary shared by the other modules. */
module Basics {

  datatype Option<+T> = None | Some(value: T)

  /** Everything but the last element; recursive definitions over histories peel from the right. */
  function Front<T>(s: seq<T>): seq<T>
    requires s != []
  {
    s[..|s| - 1]
  }

  function Last<T>(s: seq<T>): T
    requires s != []
  {
    s[|s| - 1]
  }

  /** The numbers from, from + 1, ... (n of them). */
  function Range(from: nat, n: nat): (r: seq<nat>)
    ensures |r| == n
    ensures forall k :: 0 <= k < n ==> r[k] == from + k
  {
    seq(n, k requires 0 <= k => from + k)
  }

  predicate Distinct<T(==)>(s: seq<T>) {
    forall i, j :: 0 <= i < j < |s| ==> s[i] != s[j]
  }

  /** A sequence without the members of a set. */
  function Minus<T(==)>(ids: seq<T>, gone: set<T>): seq<T> {
    if ids == [] then []
    else if Last(ids) in gone then Minus(Front(ids), gone)
    else Minus(Front(ids), gone) + [Last(ids)]
  }

  lemma {:induction false} MinusMembers<T>(ids: seq<T>, gone: set<T>)
    ensures forall x :: x in Minus(ids, gone) ==> x in ids && x !in gone
    ensures forall x :: x in ids && x !in gone ==> x in Minus(ids, gone)
  {
    if ids != [] {
      MinusMembers(Front(ids), gone);
      assert ids == Front(ids) + [Last(ids)];
    }
  }

  lemma {:induction false} MinusDistinct<T>(ids: seq<T>, gone: set<T>)
    requires Distinct(ids)
    ensures Distinct(Minus(ids, gone))
  {
    if ids != [] {
      MinusDistinct(Front(ids), gone);
      MinusMembers(Front(ids), gone);
      var kept := Minus(Front(ids), gone);
      forall k | 0 <= k < |kept|
        ensures kept[k] != Last(ids)
      {
        var x := kept[k];
        assert x in kept;
        var i :| 0 <= i < |Front(ids)| && Front(ids)[i] == x;
        assert ids[i] != ids[|ids| - 1];
      }
    }
  }

  lemma {:induction false} MinusOneMore<T>(ids: seq<T>, gone: set<T>, x: T)
    ensures Minus(ids, gone + {x}) == Minus(Minus(ids, gone), {x})
  {
    if ids != [] {
      MinusOneMore(Front(ids), gone, x);
      if Last(ids) !in gone {
        assert Front(Minus(Front(ids), gone) + [Last(ids)]) == Minus(Front(ids), gone);
      }
    }
  }

  lemma {:induction false} MinusAppend<T>(a: seq<T>, b: seq<T>, gone: set<T>)
    ensures Minus(a + b, gone) == Minus(a, gone) + Minus(b, gone)
  {
    if b == [] {
      assert a + b == a;
    } else {
      MinusAppend(a, Front(b), gone);
      assert Front(a + b) == a + Front(b);
    }
  }

  lemma MinusGrows<T>(ids: seq<T>, gone: set<T>, x: T)
    requires x !in gone
    ensures Minus(ids + [x], gone) == Minus(ids, gone) + [x]
  {
    assert Front(ids + [x]) == ids;
  }

  lemma DistinctGrows<T>(s: seq<T>, x: T)
    requires Distinct(s) && x !in s
    ensures Distinct(s + [x])
  {
    AppendedAt(s, x);
  }

  lemma {:induction false} MinusNothing<T>(ids: seq<T>, gone: set<T>)
    requires forall k :: 0 <= k < |ids| ==> ids[k] !in gone
    ensures Minus(ids, gone) == ids
  {
    if ids != [] {
      var front, last := Front(ids), ids[|ids| - 1];
      assert last !in gone && forall k :: 0 <= k < |front| ==> front[k] == ids[k];
      MinusNothing(front, gone);
      FrontAndLast(ids);
    }
  }

  lemma DistinctParts<T>(a: seq<T>, b: seq<T>)
    requires Distinct(a + b)
    ensures Distinct(a)
    ensures forall i, j :: 0 <= i < |a| && 0 <= j < |b| ==> a[i] != b[j]
  {
    assert forall i :: 0 <= i < |a| ==> (a + b)[i] == a[i];
    assert forall j :: 0 <= j < |b| ==> (a + b)[|a| + j] == b[j];
  }

  // ---- Picking out ----

  /** What f makes of the members it accepts, in order. */
  function Collect<A, B>(xs: seq<A>, f: A -> Option<B>): seq<B> {
    if xs == [] then []
    else Collect(Front(xs), f) + (var y := f(Last(xs)); if y.Some? then [y.value] else [])
  }

  lemma {:induction false} CollectAppend<A, B>(xs: seq<A>, ys: seq<A>, f: A -> Option<B>)
    ensures Collect(xs + ys, f) == Collect(xs, f) + Collect(ys, f)
  {
    if ys == [] {
      assert xs + ys == xs;
    } else {
      CollectAppend(xs, Front(ys), f);
      assert Front(xs + ys) == xs + Front(ys);
    }
  }

  lemma CollectOne<A, B>(x: A, f: A -> Option<B>)
    ensures Collect([x], f) == if f(x).Some? then [f(x).value] else []
  {
    assert Front([x]) == [];
  }

  /** Each member collected comes from one of the list. */
  lemma {:induction false} CollectFrom<A, B>(xs: seq<A>, f: A -> Option<B>, k: nat) returns (i: nat)
    requires k < |Collect(xs, f)|
    ensures i < |xs| && f(xs[i]) == Some(Collect(xs, f)[k])
  {
    if k < |Collect(Front(xs), f)| {
      i := CollectFrom(Front(xs), f, k);
    } else {
      i := |xs| - 1;
    }
  }

  /** Positions below n, each once and in order. */
  predicate Increasing(at: seq<nat>, n: nat) {
    && (forall k :: 0 <= k < |at| ==> at[k] < n)
    && (forall a, b :: 0 <= a < b < |at| ==> at[a] < at[b])
  }

  /** ys is what f makes of the members of xs at these positions, and those are the ones it accepts. */
  ghost predicate Picks<A, B>(xs: seq<A>, f: A -> Option<B>, at: seq<nat>, ys: seq<B>) {
    && Increasing(at, |xs|) && |at| == |ys|
    && (forall k :: 0 <= k < |at| ==> f(xs[at[k]]) == Some(ys[k]))
    && (forall i :: 0 <= i < |xs| && f(xs[i]).Some? ==> i in at)
  }

  lemma PicksNone<A, B>(xs: seq<A>, x: A, f: A -> Option<B>, at: seq<nat>, ys: seq<B>)
    requires Picks(xs, f, at, ys) && f(x).None?
    ensures Picks(xs + [x], f, at, ys)
  {
    AppendedAt(xs, x);
  }

  lemma PicksOne<A, B>(xs: seq<A>, x: A, f: A -> Option<B>, at: seq<nat>, ys: seq<B>)
    requires Picks(xs, f, at, ys) && f(x).Some?
    ensures Picks(xs + [x], f, at + [|xs|], ys + [f(x).value])
  {
    AppendedAt(xs, x);
    AppendedAt(at, |xs|);
    AppendedAt(ys, f(x).value);
    forall i | 0 <= i < |xs + [x]| && f((xs + [x])[i]).Some?
      ensures i in at + [|xs|]
    {
      if i < |xs| {
        assert i in at;
      } else {
        assert (at + [|xs|])[|at|] == i;
      }
    }
  }

  lemma PickedIff<A, B>(xs: seq<A>, f: A -> Option<B>, at: seq<nat>, ys: seq<B>, i: nat)
    requires Picks(xs, f, at, ys) && i < |xs|
    ensures i in at <==> f(xs[i]).Some?
  {
    if i in at {
      var k :| 0 <= k < |at| && at[k] == i;
      assert f(xs[at[k]]) == Some(ys[k]);
    }
  }

  /** What is collected, by the positions it comes from. */
  lemma {:induction false} CollectPicks<A, B>(xs: seq<A>, f: A -> Option<B>) returns (at: seq<nat>)
    ensures Picks(xs, f, at, Collect(xs, f))
  {
    at := [];
    if xs != [] {
      FrontAndLast(xs);
      at := CollectPicks(Front(xs), f);
      if f(Last(xs)).None? {
        PicksNone(Front(xs), Last(xs), f, at, Collect(Front(xs), f));
      } else {
        PicksOne(Front(xs), Last(xs), f, at, Collect(Front(xs), f));
        at := at + [|xs| - 1];
      }
    }
  }

  // ---- The end of a sequence ----

  /** The last n items, or all of them. */
  function LastN<T>(s: seq<T>, n: nat): (r: seq<T>)
    ensures |r| <= n && |r| <= |s| && r == s[|s| - |r|..] && (|r| < n ==> r == s)
  {
    if |s| <= n then s else s[|s| - n..]
  }

  lemma LastNAfter<T>(s: seq<T>, x: T, n: nat)
    requires n > 0
    ensures LastN(LastN(s, n) + [x], n) == LastN(s + [x], n)
  {
  }

  // ---- Regrouping concatenations ----

  lemma HeadOver<T>(t: seq<T>, q: seq<T>)
    requires q != []
    ensures (t + [q[0]]) + q[1..] == t + q
  {
  }

  lemma Regroup<T>(t: seq<T>, a: seq<T>, x: T, b: seq<T>)
    ensures t + (a + [x] + b) == (t + a) + [x] + b
    ensures t + (a + b) == (t + a) + b
  {
  }

  lemma Reassociate<T>(a: seq<T>, b: seq<T>, c: seq<T>)
    ensures a + (b + c) == (a + b) + c
  {
  }

  lemma FrontAndLast<T>(s: seq<T>)
    requires s != []
    ensures s == Front(s) + [Last(s)]
  {
  }

  /** The rest of a concatenation. */
  lemma RestOfSum<T>(a: seq<T>, b: seq<T>)
    requires a != []
    ensures (a + b)[0] == a[0] && (a + b)[1..] == a[1..] + b
  {
  }

  lemma AppendedAt<T>(s: seq<T>, x: T)
    ensures |s + [x]| == |s| + 1 && (s + [x])[|s|] == x
    ensures forall i :: 0 <= i < |s| ==> (s + [x])[i] == s[i]
  {
  }

  function Mapped<A, B>(s: seq<A>, f: A -> B): (r: seq<B>)
    ensures |r| == |s| && forall i :: 0 <= i < |s| ==> r[i] == f(s[i])
  {
    if s == [] then [] else Mapped(Front(s), f) + [f(Last(s))]
  }

  lemma MappedMore<A, B>(s: seq<A>, x: A, f: A -> B)
    ensures Mapped(s + [x], f) == Mapped(s, f) + [f(x)]
  {
    assert Front(s + [x]) == s;
  }
}
