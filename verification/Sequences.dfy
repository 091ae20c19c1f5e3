/** Removal from sequences without repetitions, and counting. */
module Sequences {
  ghost predicate NoDup<T(!new)>(s: seq<T>) {
    forall i, j :: 0 <= i < j < |s| ==> s[i] != s[j]
  }

  function Elems<T(!new)>(s: seq<T>): (r: set<T>) {
    set x | x in s
  }

  /** The elements of s outside d, in order. */
  function Minus<T(!new)>(s: seq<T>, d: set<T>): (r: seq<T>)
    ensures forall x :: x in r <==> x in s && x !in d
    ensures |r| <= |s|
  {
    if s == [] then []
    else
      var rest := Minus(s[..|s| - 1], d);
      if s[|s| - 1] in d then rest else rest + [s[|s| - 1]]
  }

  lemma {:induction false} MinusConcat<T(!new)>(a: seq<T>, b: seq<T>, d: set<T>)
    ensures Minus(a + b, d) == Minus(a, d) + Minus(b, d)
  {
    if b == [] {
      assert a + b == a;
    } else {
      MinusConcat(a, b[..|b| - 1], d);
      assert (a + b)[..|a + b| - 1] == a + b[..|b| - 1];
    }
  }

  lemma {:induction false} MinusTwice<T(!new)>(s: seq<T>, d: set<T>, e: set<T>)
    ensures Minus(Minus(s, d), e) == Minus(s, d + e)
  {
    if s != [] {
      var rest := s[..|s| - 1];
      MinusTwice(rest, d, e);
      if s[|s| - 1] !in d {
        assert (Minus(rest, d) + [s[|s| - 1]])[..|Minus(rest, d)|] == Minus(rest, d);
      }
    }
  }

  lemma {:induction false} MinusNone<T(!new)>(s: seq<T>, d: set<T>)
    requires forall x :: x in s ==> x !in d
    ensures Minus(s, d) == s
  {
    if s != [] {
      MinusNone(s[..|s| - 1], d);
      assert s == s[..|s| - 1] + [s[|s| - 1]];
    }
  }

  lemma {:induction false} MinusAll<T(!new)>(s: seq<T>, d: set<T>)
    requires forall x :: x in s ==> x in d
    ensures Minus(s, d) == []
  {
    if s != [] {
      MinusAll(s[..|s| - 1], d);
    }
  }

  lemma {:induction false} MinusSame<T(!new)>(s: seq<T>, d: set<T>, e: set<T>)
    requires forall x :: x in s ==> (x in d <==> x in e)
    ensures Minus(s, d) == Minus(s, e)
  {
    if s != [] {
      MinusSame(s[..|s| - 1], d, e);
      assert s[|s| - 1] in s;
    }
  }

  lemma {:induction false} MinusCount<T(!new)>(s: seq<T>, d: set<T>, x: T)
    ensures multiset(Minus(s, d))[x] == if x in d then 0 else multiset(s)[x]
  {
    if s != [] {
      MinusCount(s[..|s| - 1], d, x);
      assert s == s[..|s| - 1] + [s[|s| - 1]];
    }
  }

  lemma {:induction false} MinusNoDup<T(!new)>(s: seq<T>, d: set<T>)
    requires NoDup(s)
    ensures NoDup(Minus(s, d))
  {
    if s != [] {
      MinusNoDup(s[..|s| - 1], d);
    }
  }

  /** The first position of x, or the length when there is none. */
  function IndexOf<T(==,!new)>(s: seq<T>, x: T): (i: nat)
    ensures i <= |s|
    ensures i < |s| ==> s[i] == x
    ensures x !in s[..i]
    ensures x in s <==> i < |s|
  {
    if s == [] then 0
    else if s[0] == x then 0
    else
      var i := IndexOf(s[1..], x);
      assert s[..i + 1] == [s[0]] + s[1..][..i];
      assert s == [s[0]] + s[1..];
      i + 1
  }

  /** s with its first occurrence of x taken out. */
  function Remove<T(==,!new)>(s: seq<T>, x: T): (r: seq<T>) {
    var i := IndexOf(s, x);
    if i == |s| then s else RemoveAt(s, i)
  }

  function RemoveAt<T(!new)>(s: seq<T>, i: nat): (r: seq<T>)
    requires i < |s|
  {
    s[..i] + s[i + 1..]
  }

  lemma RemoveAtBag<T(!new)>(s: seq<T>, i: nat)
    requires i < |s|
    ensures multiset(RemoveAt(s, i)) + multiset{s[i]} == multiset(s)
  {
    assert s == s[..i] + [s[i]] + s[i + 1..];
  }

  /** On a sequence without repetitions, removing one element is filtering it out. */
  lemma {:induction false} RemoveIsMinus<T(!new)>(s: seq<T>, x: T)
    requires NoDup(s)
    ensures Remove(s, x) == Minus(s, {x})
  {
    var i := IndexOf(s, x);
    if i == |s| {
      MinusNone(s, {x});
    } else {
      MinusAround(s[..i], x, s[i + 1..]);
      assert s == s[..i] + [x] + s[i + 1..];
    }
  }

  lemma MinusAround<T(!new)>(a: seq<T>, x: T, b: seq<T>)
    requires x !in a && x !in b
    ensures Minus(a + [x] + b, {x}) == a + b
  {
    MinusConcat(a + [x], b, {x});
    MinusConcat(a, [x], {x});
    MinusNone(a, {x});
    MinusNone(b, {x});
    MinusAll([x], {x});
  }

  lemma NoDupConcat<T(!new)>(a: seq<T>, b: seq<T>)
    requires NoDup(a) && NoDup(b) && forall x :: x in a ==> x !in b
    ensures NoDup(a + b)
  {
    forall i, j | 0 <= i < j < |a + b| ensures (a + b)[i] != (a + b)[j] {
      if i < |a| <= j {
        assert a[i] in a && b[j - |a|] in b;
      }
    }
  }

  lemma {:induction false} CountNoDup<T(!new)>(s: seq<T>, x: T)
    requires NoDup(s)
    ensures multiset(s)[x] == if x in s then 1 else 0
  {
    if s != [] {
      CountNoDup(s[..|s| - 1], x);
      assert s == s[..|s| - 1] + [s[|s| - 1]];
    }
  }
}
