// Sums of natural-number weights over sequences, for counting arguments, and
// two small facts about sequences.
module Sequences {

  function Bit(b: bool): nat {
    if b then 1 else 0
  }

  function Sum<T>(s: seq<T>, w: T -> nat): nat {
    if s == [] then 0 else Sum(s[..|s| - 1], w) + w(s[|s| - 1])
  }

  lemma {:induction false} SumAppend<T>(a: seq<T>, b: seq<T>, w: T -> nat)
    ensures Sum(a + b, w) == Sum(a, w) + Sum(b, w)
  {
    if b == [] {
      assert a + b == a;
    } else {
      var n := |b| - 1;
      SumAppend(a, b[..n], w);
      assert (a + b)[..|a| + n] == a + b[..n];
    }
  }

  lemma {:induction false} SumUpdate<T>(s: seq<T>, i: nat, x: T, w: T -> nat)
    requires i < |s|
    ensures Sum(s[i := x], w) + w(s[i]) == Sum(s, w) + w(x)
  {
    var n := |s| - 1;
    if i == n {
      assert s[i := x][..n] == s[..n];
    } else {
      SumUpdate(s[..n], i, x, w);
      assert s[i := x][..n] == s[..n][i := x];
    }
  }

  lemma SumRemove<T>(s: seq<T>, i: nat, w: T -> nat)
    requires i < |s|
    ensures Sum(s[..i] + s[i + 1..], w) + w(s[i]) == Sum(s, w)
  {
    SumAppend(s[..i], s[i + 1..], w);
    SumAppend(s[..i + 1], s[i + 1..], w);
    assert s[..i + 1] + s[i + 1..] == s;
    assert s[..i + 1][..i] == s[..i];
  }

  lemma {:induction false} SumZero<T>(s: seq<T>, w: T -> nat)
    requires forall i | 0 <= i < |s| :: w(s[i]) == 0
    ensures Sum(s, w) == 0
  {
    if s == [] {
    } else {
      SumZero(s[..|s| - 1], w);
    }
  }

  lemma {:induction false} SumPositive<T>(s: seq<T>, i: nat, w: T -> nat)
    requires i < |s|
    ensures w(s[i]) <= Sum(s, w)
  {
    if i == |s| - 1 {
    } else {
      SumPositive(s[..|s| - 1], i, w);
    }
  }

  lemma {:induction false} SumTwo<T>(s: seq<T>, i: nat, j: nat, w: T -> nat)
    requires i < j < |s|
    ensures w(s[i]) + w(s[j]) <= Sum(s, w)
  {
    var n := |s| - 1;
    if j == n {
      SumPositive(s[..n], i, w);
    } else {
      SumTwo(s[..n], i, j, w);
    }
  }

  lemma SumFew<T>(s: seq<T>, w: T -> nat)
    ensures |s| == 0 ==> Sum(s, w) == 0
    ensures |s| == 1 ==> Sum(s, w) == w(s[0])
    ensures |s| == 2 ==> Sum(s, w) == w(s[0]) + w(s[1])
    ensures |s| == 3 ==> Sum(s, w) == w(s[0]) + w(s[1]) + w(s[2])
  {
    if 1 <= |s| <= 3 {
      assert s[..|s| - 1][..0] == [];
      if |s| == 3 {
        assert s[..2][..1] == s[..1];
      }
    }
  }

  // What f makes of the elements, one after the other.
  function Collect<T, U>(s: seq<T>, f: T -> seq<U>): seq<U> {
    if s == [] then [] else Collect(s[..|s| - 1], f) + f(s[|s| - 1])
  }

  lemma {:induction false} CollectAppend<T, U>(a: seq<T>, b: seq<T>, f: T -> seq<U>)
    ensures Collect(a + b, f) == Collect(a, f) + Collect(b, f)
  {
    if b == [] {
      assert a + b == a;
    } else {
      var n := |b| - 1;
      CollectAppend(a, b[..n], f);
      assert (a + b)[..|a| + n] == a + b[..n];
      Regroup(Collect(a, f), Collect(b[..n], f), f(b[n]));
    }
  }

  lemma {:induction false} CollectUpdate<T, U>(s: seq<T>, i: nat, x: T, f: T -> seq<U>)
    requires i < |s|
    ensures multiset(Collect(s[i := x], f)) + multiset(f(s[i])) == multiset(Collect(s, f)) + multiset(f(x))
  {
    var n := |s| - 1;
    if i == n {
      assert s[i := x][..n] == s[..n];
      Exchange(Collect(s[..n], f), Collect(s[..n], f), f(x), f(s[i]), f(s[i]), f(x));
    } else {
      CollectUpdate(s[..n], i, x, f);
      assert s[i := x][..n] == s[..n][i := x];
      Exchange(Collect(s[..n][i := x], f), Collect(s[..n], f), f(s[n]), f(s[n]), f(s[i]), f(x));
    }
  }

  lemma Exchange<T>(a: seq<T>, b: seq<T>, c: seq<T>, d: seq<T>, e: seq<T>, g: seq<T>)
    requires multiset(a) + multiset(e) + multiset(c) == multiset(b) + multiset(g) + multiset(d)
    ensures multiset(a + c) + multiset(e) == multiset(b + d) + multiset(g)
  {
    var left, right := multiset(a) + multiset(e) + multiset(c), multiset(b) + multiset(g) + multiset(d);
    assert multiset(a + c) + multiset(e) == left by {
      assert multiset(a + c) == multiset(a) + multiset(c);
    }
    assert multiset(b + d) + multiset(g) == right by {
      assert multiset(b + d) == multiset(b) + multiset(d);
    }
  }

  lemma {:induction false} CollectSame<T, U>(s: seq<T>, i: nat, x: T, f: T -> seq<U>)
    requires i < |s| && f(x) == f(s[i])
    ensures Collect(s[i := x], f) == Collect(s, f)
  {
    var n := |s| - 1;
    if i == n {
      assert s[i := x][..n] == s[..n];
    } else {
      CollectSame(s[..n], i, x, f);
      assert s[i := x][..n] == s[..n][i := x];
    }
  }

  lemma {:induction false} CollectMember<T, U>(s: seq<T>, f: T -> seq<U>, y: U) returns (i: nat)
    requires y in Collect(s, f)
    ensures i < |s| && y in f(s[i])
  {
    var n := |s| - 1;
    if y in f(s[n]) {
      i := n;
    } else {
      i := CollectMember(s[..n], f, y);
    }
  }

  lemma {:induction false} CollectHas<T, U>(s: seq<T>, f: T -> seq<U>, i: nat, y: U)
    requires i < |s| && y in f(s[i])
    ensures y in Collect(s, f)
  {
    var n := |s| - 1;
    if i == n {
    } else {
      CollectHas(s[..n], f, i, y);
    }
  }

  lemma {:induction false} CollectNone<T, U>(s: seq<T>, f: T -> seq<U>)
    requires forall i | 0 <= i < |s| :: f(s[i]) == []
    ensures Collect(s, f) == []
  {
    if s == [] {
    } else {
      CollectNone(s[..|s| - 1], f);
    }
  }

  lemma {:induction false} CollectLone<T, U>(s: seq<T>, i: nat, f: T -> seq<U>)
    requires i < |s| && forall j | 0 <= j < |s| && j != i :: f(s[j]) == []
    ensures Collect(s, f) == f(s[i])
  {
    var n := |s| - 1;
    if i == n {
      CollectNone(s[..n], f);
    } else {
      CollectLone(s[..n], i, f);
    }
  }

  lemma CollectFew<T, U>(s: seq<T>, f: T -> seq<U>)
    ensures |s| == 0 ==> Collect(s, f) == []
    ensures |s| == 1 ==> Collect(s, f) == f(s[0])
    ensures |s| == 2 ==> Collect(s, f) == f(s[0]) + f(s[1])
    ensures |s| == 3 ==> Collect(s, f) == f(s[0]) + f(s[1]) + f(s[2])
  {
    if 1 <= |s| <= 3 {
      assert s[..|s| - 1][..0] == [];
      if |s| == 3 {
        assert s[..2][..1] == s[..1];
      }
    }
  }

  lemma Regroup<T>(a: seq<T>, b: seq<T>, c: seq<T>)
    ensures a + (b + c) == (a + b) + c
  {
  }

  lemma TwoOfAKind<T>(s: seq<T>, i: nat, j: nat)
    requires i < j < |s| && s[i] == s[j]
    ensures multiset(s)[s[i]] >= 2
  {
    assert s == s[..i + 1] + s[i + 1..];
    assert s[..i + 1][i] in s[..i + 1] && s[i + 1..][j - i - 1] in s[i + 1..];
  }

  lemma {:induction false} FindTwo<T>(s: seq<T>, x: T) returns (i: nat, j: nat)
    requires multiset(s)[x] >= 2
    ensures i < j < |s| && s[i] == s[j] == x
  {
    var n := |s| - 1;
    assert s == s[..n] + [s[n]];
    if multiset(s[..n])[x] >= 2 {
      i, j := FindTwo(s[..n], x);
    } else {
      assert x in s[..n];
      i, j :| 0 <= i < n && s[..n][i] == x && j == n;
    }
  }

  // Two members of a part of a multiset are two members of the whole.
  lemma TwoInWhole<T>(part: seq<T>, whole: seq<T>, a: nat, b: nat) returns (i: nat, j: nat)
    requires multiset(part) <= multiset(whole) && a < b < |part|
    ensures i < |whole| && j < |whole| && i != j && whole[i] == part[a] && whole[j] == part[b]
  {
    assert part[a] in multiset(whole) && part[b] in multiset(whole);
    if part[a] == part[b] {
      TwoOfAKind(part, a, b);
      i, j := FindTwo(whole, part[a]);
    } else {
      i :| 0 <= i < |whole| && whole[i] == part[a];
      j :| 0 <= j < |whole| && whole[j] == part[b];
    }
  }

  lemma HasAMember<T>(s: seq<T>)
    ensures s == [] || s[0] in s
  {
  }
}
