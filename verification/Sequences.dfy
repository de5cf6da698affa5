/** Lists without repetition: the shape of every queue in the modelled code. */
module Sequences {

  ghost predicate NoDup<T(!new)>(s: seq<T>) {
    s == [] || (s[0] !in s[1..] && NoDup(s[1..]))
  }

  lemma {:induction false} NoDupApart<T(!new)>(s: seq<T>, i: nat, j: nat)
    requires NoDup(s) && i < j < |s|
    ensures s[i] != s[j]
  {
    if i == 0 {
      assert s[1..][j - 1] == s[j];
    } else {
      NoDupApart(s[1..], i - 1, j - 1);
    }
  }

  lemma {:induction false} ApartNoDup<T(!new)>(s: seq<T>)
    requires forall i, j :: 0 <= i < j < |s| ==> s[i] != s[j]
    ensures NoDup(s)
  {
    if s != [] {
      ApartNoDup(s[1..]);
    }
  }

  lemma {:induction false} NoDupConcat<T(!new)>(a: seq<T>, b: seq<T>)
    requires NoDup(a) && NoDup(b)
    requires forall x :: x in a ==> x !in b
    ensures NoDup(a + b)
  {
    if a == [] {
      assert a + b == b;
    } else {
      assert (a + b)[1..] == a[1..] + b;
      NoDupConcat(a[1..], b);
    }
  }

  lemma NoDupAppend<T(!new)>(s: seq<T>, x: T)
    requires NoDup(s) && x !in s
    ensures NoDup(s + [x])
  {
    assert [x][1..] == [];
    NoDupConcat(s, [x]);
  }

  /** `s` with every occurrence of `x` unlinked, in the same order. */
  function Without<T(==,!new)>(s: seq<T>, x: T): (r: seq<T>)
    ensures forall y :: y in r <==> y in s && y != x
    ensures |r| <= |s|
    ensures x !in s ==> r == s
    ensures x in s ==> |r| < |s|
    ensures NoDup(s) ==> NoDup(r)
  {
    if s == [] then []
    else
      var rest := Without(s[1..], x);
      assert s[0] !in rest ==> ([s[0]] + rest)[1..] == rest;
      if s[0] == x then rest else [s[0]] + rest
  }

  lemma {:induction false} WithoutLength<T(!new)>(s: seq<T>, x: T)
    requires NoDup(s) && x in s
    ensures |Without(s, x)| == |s| - 1
    ensures s[0] == x ==> Without(s, x) == s[1..]
    ensures s[0] != x ==> Without(s, x) != [] && Without(s, x)[0] == s[0]
  {
    if s[0] != x {
      WithoutLength(s[1..], x);
    }
  }

  lemma {:induction false} WithoutAppend<T(!new)>(s: seq<T>, y: T, x: T)
    ensures Without(s + [y], x) == Without(s, x) + (if y == x then [] else [y])
  {
    if s == [] {
      assert [y][1..] == [];
    } else {
      assert (s + [y])[1..] == s[1..] + [y];
      WithoutAppend(s[1..], y, x);
    }
  }

  /** A list without repetition is no longer than any list that has all its elements. */
  lemma {:induction false} Pigeonhole<T(!new)>(a: seq<T>, b: seq<T>)
    requires NoDup(a)
    requires forall x :: x in a ==> x in b
    ensures |a| <= |b|
  {
    if a != [] {
      assert a[0] in b;
      Pigeonhole(a[1..], Without(b, a[0]));
    }
  }

  // ---------- sizes of sets ----------

  lemma SubsetSize<T>(a: set<T>, b: set<T>)
    requires a <= b
    ensures |a| <= |b|
  {
    assert a == b - (b - a);
  }

  /** The numbers below `n`. */
  function Below(n: nat): (r: set<int>)
    ensures |r| == n
    ensures forall p :: p in r <==> 0 <= p < n
  {
    if n == 0 then {} else Below(n - 1) + {n - 1}
  }

  /** A list has at most as many elements as its length. */
  lemma {:induction false} ElementsSize<T(!new)>(s: seq<T>)
    ensures |set x | x in s| <= |s|
  {
    if s != [] {
      ElementsSize(s[1..]);
      assert (set x | x in s) == (set x | x in s[1..]) + {s[0]};
    }
  }
}
