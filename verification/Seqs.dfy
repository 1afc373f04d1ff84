/** Sequence helpers shared by the store, the flush wave and the recovery proofs. */
module Seqs {

  /** The elements of s that satisfy p, in order. */
  function Keep<T(!new)>(s: seq<T>, p: T -> bool): (r: seq<T>)
    ensures |r| <= |s|
  {
    if s == [] then []
    else
      var front := Keep(s[..|s| - 1], p);
      if p(s[|s| - 1]) then front + [s[|s| - 1]] else front
  }

  lemma {:induction false} KeepMembers<T(!new)>(s: seq<T>, p: T -> bool)
    ensures forall x :: x in Keep(s, p) <==> x in s && p(x)
  {
    if s != [] {
      KeepMembers(s[..|s| - 1], p);
      assert s == s[..|s| - 1] + [s[|s| - 1]];
    }
  }

  lemma KeepSnoc<T(!new)>(s: seq<T>, x: T, p: T -> bool)
    ensures Keep(s + [x], p) == Keep(s, p) + (if p(x) then [x] else [])
  {
    assert (s + [x])[..|s|] == s;
  }

  lemma KeepNext<T(!new)>(s: seq<T>, i: nat, p: T -> bool)
    requires i < |s|
    ensures Keep(s[..i + 1], p) == Keep(s[..i], p) + (if p(s[i]) then [s[i]] else [])
  {
    assert s[..i + 1] == s[..i] + [s[i]];
    KeepSnoc(s[..i], s[i], p);
  }

  lemma {:induction false} KeepConcat<T(!new)>(a: seq<T>, b: seq<T>, p: T -> bool)
    ensures Keep(a + b, p) == Keep(a, p) + Keep(b, p)
  {
    if b == [] {
      assert a + b == a;
    } else {
      var n := |b| - 1;
      assert a + b == (a + b[..n]) + [b[n]];
      KeepSnoc(a + b[..n], b[n], p);
      KeepConcat(a, b[..n], p);
    }
  }

  lemma {:induction false} KeepAll<T(!new)>(s: seq<T>, p: T -> bool)
    requires forall x :: x in s ==> p(x)
    ensures Keep(s, p) == s
  {
    if s != [] {
      var n := |s| - 1;
      assert s == s[..n] + [s[n]];
      KeepAll(s[..n], p);
    }
  }

  lemma {:induction false} KeepNone<T(!new)>(s: seq<T>, p: T -> bool)
    requires forall x :: x in s ==> !p(x)
    ensures Keep(s, p) == []
  {
    if s != [] {
      var n := |s| - 1;
      assert s == s[..n] + [s[n]];
      KeepNone(s[..n], p);
    }
  }

  /** Keeping twice is keeping what passes both tests. */
  lemma {:induction false} KeepTwice<T(!new)>(s: seq<T>, p: T -> bool, q: T -> bool, both: T -> bool)
    requires forall x :: x in s ==> both(x) == (p(x) && q(x))
    ensures Keep(Keep(s, p), q) == Keep(s, both)
  {
    if s != [] {
      var n := |s| - 1;
      assert s == s[..n] + [s[n]];
      KeepTwice(s[..n], p, q, both);
      if p(s[n]) {
        KeepSnoc(Keep(s[..n], p), s[n], q);
      }
    }
  }

  function Map<T, U>(f: T -> U, s: seq<T>): (r: seq<U>)
    ensures |r| == |s|
    ensures forall i {:trigger r[i]} :: 0 <= i < |s| ==> r[i] == f(s[i])
  {
    seq(|s|, i requires 0 <= i < |s| => f(s[i]))
  }

  lemma MapSnoc<T, U>(f: T -> U, s: seq<T>, x: T)
    ensures Map(f, s + [x]) == Map(f, s) + [f(x)]
  {
  }

  /** Filtering commutes with a map that the filter cannot see. */
  lemma {:induction false} KeepMap<T(!new), U(!new)>(f: T -> U, s: seq<T>, p: T -> bool, q: U -> bool)
    requires forall x :: x in s ==> q(f(x)) == p(x)
    ensures Keep(Map(f, s), q) == Map(f, Keep(s, p))
  {
    if s != [] {
      var n := |s| - 1;
      assert s == s[..n] + [s[n]];
      KeepMap(f, s[..n], p, q);
      MapSnoc(f, s[..n], s[n]);
      KeepSnoc(Map(f, s[..n]), f(s[n]), q);
      if p(s[n]) {
        MapSnoc(f, Keep(s[..n], p), s[n]);
      }
    }
  }

  function Take<T>(s: seq<T>, n: int): (r: seq<T>)
    ensures r <= s
    ensures |r| == if n < 0 then 0 else if n < |s| then n else |s|
  {
    if n < 0 then [] else if n < |s| then s[..n] else s
  }

  lemma TakeNext<T(!new)>(s: seq<T>, i: nat, p: T -> bool, cap: nat)
    requires i < |s|
    ensures var taken := Take(Keep(s[..i], p), cap);
      Take(Keep(s[..i + 1], p), cap) == if p(s[i]) && |taken| < cap then taken + [s[i]] else taken
  {
    KeepNext(s, i, p);
  }
}
