/** Sequences with the same elements, in whatever order. */
module Permutations {

  lemma SameMembers<T>(s: seq<T>, t: seq<T>, x: T)
    requires multiset(s) == multiset(t)
    ensures x in s <==> x in t
  {
    assert x in s <==> x in multiset(s);
    assert x in t <==> x in multiset(t);
  }

  lemma Removed<T>(s: seq<T>, j: nat)
    requires j < |s|
    ensures multiset(s[..j] + s[j + 1..]) == multiset(s) - multiset{s[j]}
  {
    assert s == s[..j] + [s[j]] + s[j + 1..];
  }

  lemma Inserted<T>(s: seq<T>, j: nat, x: T)
    requires j <= |s|
    ensures multiset(s[..j] + [x] + s[j..]) == multiset(s) + multiset{x}
  {
    assert s == s[..j] + s[j..];
  }

  function Apply<T, U>(f: T -> U, s: seq<T>): (r: seq<U>)
    ensures |r| == |s| && forall i | 0 <= i < |s| :: r[i] == f(s[i])
  {
    seq(|s|, i requires 0 <= i < |s| => f(s[i]))
  }

  lemma ApplyRemoved<T, U>(f: T -> U, s: seq<T>, j: nat)
    requires j < |s|
    ensures multiset(Apply(f, s)) == multiset(Apply(f, s[..j] + s[j + 1..])) + multiset{f(s[j])}
  {
    Removed(Apply(f, s), j);
    assert Apply(f, s[..j] + s[j + 1..]) == Apply(f, s)[..j] + Apply(f, s)[j + 1..];
    assert Apply(f, s)[j] in multiset(Apply(f, s));
  }

  lemma RemovedLast<T>(s: seq<T>)
    requires s != []
    ensures multiset(s[..|s| - 1]) == multiset(s) - multiset{s[|s| - 1]}
  {
    assert s == s[..|s| - 1] + [s[|s| - 1]];
  }

  /** The place of the last element of `s` in a permutation of it; without it, the rests are
      permutations of each other. */
  lemma Matched<T>(s: seq<T>, t: seq<T>) returns (j: nat)
    requires multiset(s) == multiset(t) && s != []
    ensures |s| == |t| && j < |t| && t[j] == s[|s| - 1]
    ensures multiset(s[..|s| - 1]) == multiset(t[..j] + t[j + 1..])
  {
    assert |s| == |multiset(s)| == |multiset(t)| == |t|;
    SameMembers(s, t, s[|s| - 1]);
    j :| 0 <= j < |t| && t[j] == s[|s| - 1];
    RemovedLast(s);
    Removed(t, j);
  }

  lemma {:induction false} ApplyPermuted<T, U>(f: T -> U, s: seq<T>, t: seq<T>)
    requires multiset(s) == multiset(t)
    ensures multiset(Apply(f, s)) == multiset(Apply(f, t))
  {
    if s == [] {
      assert |multiset(t)| == 0;
    } else {
      var n := |s| - 1;
      var j := Matched(s, t);
      ApplyPermuted(f, s[..n], t[..j] + t[j + 1..]);
      ApplyRemoved(f, t, j);
      assert Apply(f, s) == Apply(f, s[..n]) + [f(s[n])];
    }
  }

  function SumBy<T>(f: T -> int, s: seq<T>): int {
    if s == [] then 0 else SumBy(f, s[..|s| - 1]) + f(s[|s| - 1])
  }

  lemma SumOfOne<T>(f: T -> int, x: T)
    ensures SumBy(f, [x]) == f(x)
  {
    assert [x][..0] == [];
  }

  lemma {:induction false} SumByConcat<T>(f: T -> int, s: seq<T>, t: seq<T>)
    ensures SumBy(f, s + t) == SumBy(f, s) + SumBy(f, t)
  {
    if t == [] {
      assert s + t == s;
    } else {
      var n := |t| - 1;
      SumByConcat(f, s, t[..n]);
      assert (s + t)[..|s + t| - 1] == s + t[..n];
    }
  }

  lemma {:induction false} SumByRemoved<T>(f: T -> int, s: seq<T>, j: nat)
    requires j < |s|
    ensures SumBy(f, s) == SumBy(f, s[..j] + s[j + 1..]) + f(s[j])
  {
    var n := |s| - 1;
    if j == n {
      assert s[..j] + s[j + 1..] == s[..n];
    } else {
      SumByRemoved(f, s[..n], j);
      assert (s[..j] + s[j + 1..])[..n - 1] == s[..n][..j] + s[..n][j + 1..];
    }
  }

  lemma {:induction false} SumByPermuted<T>(f: T -> int, s: seq<T>, t: seq<T>)
    requires multiset(s) == multiset(t)
    ensures SumBy(f, s) == SumBy(f, t)
  {
    if s == [] {
      assert |multiset(t)| == 0;
    } else {
      var j := Matched(s, t);
      SumByPermuted(f, s[..|s| - 1], t[..j] + t[j + 1..]);
      SumByRemoved(f, t, j);
    }
  }

  lemma {:induction false} SumByUpdated<T>(f: T -> int, s: seq<T>, i: nat, x: T)
    requires i < |s|
    ensures SumBy(f, s[i := x]) == SumBy(f, s) - f(s[i]) + f(x)
  {
    var n := |s| - 1;
    if i == n {
      assert s[i := x][..n] == s[..n];
    } else {
      assert s[i := x][..n] == s[..n][i := x];
      SumByUpdated(f, s[..n], i, x);
    }
  }

  lemma {:induction false} AllZero<T>(f: T -> int, s: seq<T>)
    requires forall i | 0 <= i < |s| :: f(s[i]) == 0
    ensures SumBy(f, s) == 0
  {
    if s != [] {
      AllZero(f, s[..|s| - 1]);
    }
  }

  lemma {:induction false} SumByMonotone<T>(f: T -> int, s: seq<T>, t: seq<T>)
    requires |s| == |t| && forall i | 0 <= i < |s| :: f(s[i]) <= f(t[i])
    ensures SumBy(f, s) <= SumBy(f, t)
  {
    if s != [] {
      SumByMonotone(f, s[..|s| - 1], t[..|t| - 1]);
    }
  }

  lemma {:induction false} SumByAtLeast<T>(f: T -> int, s: seq<T>, i: nat)
    requires i < |s| && forall j | 0 <= j < |s| :: f(s[j]) >= 0
    ensures SumBy(f, s) >= f(s[i])
  {
    var n := |s| - 1;
    if i < n {
      SumByAtLeast(f, s[..n], i);
    } else {
      SumByNonNegative(f, s[..n]);
    }
  }

  lemma {:induction false} SumByNonNegative<T>(f: T -> int, s: seq<T>)
    requires forall j | 0 <= j < |s| :: f(s[j]) >= 0
    ensures SumBy(f, s) >= 0
  {
    if s != [] {
      SumByNonNegative(f, s[..|s| - 1]);
    }
  }

  // ----- some of the elements -----

  predicate InRange<T>(s: seq<T>, picks: seq<nat>) {
    forall k | 0 <= k < |picks| :: picks[k] < |s|
  }

  predicate NoRepetition(picks: seq<nat>) {
    forall k, l | 0 <= k < l < |picks| :: picks[k] != picks[l]
  }

  /** The elements at the given places. */
  function Picked<T>(s: seq<T>, picks: seq<nat>): (picked: seq<T>)
    requires InRange(s, picks)
    ensures |picked| == |picks| && forall k | 0 <= k < |picks| :: picked[k] == s[picks[k]]
  {
    seq(|picks|, k requires 0 <= k < |picks| => s[picks[k]])
  }

  /** The elements at the given places, and `blank` at all others. */
  function Masked<T>(s: seq<T>, picks: seq<nat>, blank: T): (masked: seq<T>)
    ensures |masked| == |s|
    ensures forall i | 0 <= i < |s| :: masked[i] == if i in picks then s[i] else blank
  {
    seq(|s|, i requires 0 <= i < |s| => if i in picks then s[i] else blank)
  }

  lemma {:induction false} PickedIsMasked<T>(f: T -> int, s: seq<T>, picks: seq<nat>, blank: T)
    requires InRange(s, picks) && NoRepetition(picks) && f(blank) == 0
    ensures SumBy(f, Picked(s, picks)) == SumBy(f, Masked(s, picks, blank))
  {
    if picks == [] {
      AllZero(f, Masked(s, picks, blank));
    } else {
      var n := |picks| - 1;
      var i, rest := picks[n], picks[..n];
      assert picks == rest + [i];
      PickedIsMasked(f, s, rest, blank);
      assert Picked(s, picks)[..n] == Picked(s, rest);
      assert Masked(s, picks, blank) == Masked(s, rest, blank)[i := s[i]];
      SumByUpdated(f, Masked(s, rest, blank), i, s[i]);
    }
  }

  lemma PickedBounds<T>(f: T -> int, s: seq<T>, picks: seq<nat>, i: nat, blank: T)
    requires InRange(s, picks) && NoRepetition(picks) && i in picks && f(blank) == 0
    requires forall j | 0 <= j < |s| :: f(s[j]) >= 0
    ensures i < |s| && f(s[i]) <= SumBy(f, Picked(s, picks)) <= SumBy(f, s)
  {
    PickedIsMasked(f, s, picks, blank);
    SumByMonotone(f, Masked(s, picks, blank), s);
    SumByAtLeast(f, Masked(s, picks, blank), i);
  }

  lemma {:induction false} CountedOnce(picks: seq<nat>, x: nat)
    requires NoRepetition(picks)
    ensures multiset(picks)[x] == if x in picks then 1 else 0
  {
    if picks != [] {
      var n := |picks| - 1;
      CountedOnce(picks[..n], x);
      assert picks == picks[..n] + [picks[n]];
    }
  }

  /** Sequences without repetition and with the same elements are permutations of each other. */
  lemma SameElements(a: seq<nat>, b: seq<nat>)
    requires NoRepetition(a) && NoRepetition(b)
    requires forall x :: x in a <==> x in b
    ensures multiset(a) == multiset(b)
  {
    forall x: nat ensures multiset(a)[x] == multiset(b)[x] {
      CountedOnce(a, x);
      CountedOnce(b, x);
    }
  }

  /** Picking every element once permutes the sequence. */
  lemma AllPicked<T>(s: seq<T>, picks: seq<nat>, blank: T)
    requires InRange(s, picks) && NoRepetition(picks)
    requires forall i | 0 <= i < |s| :: i in picks
    ensures multiset(Picked(s, picks)) == multiset(s)
  {
    var all: seq<nat> := seq(|s|, i => i);
    forall x: nat ensures x in all <==> x in picks {
      if x < |s| {
        assert all[x] == x;
      }
    }
    SameElements(picks, all);
    var at := (i: nat) => if i < |s| then s[i] else blank;
    ApplyPermuted(at, picks, all);
    assert Apply(at, picks) == Picked(s, picks);
    assert Apply(at, all) == s;
  }
}
