/** Counting threads: weighted sums over a sequence, one summand per thread. */
module Census {

  function One(b: bool): nat { if b then 1 else 0 }
  function Id(n: nat): nat { n }

  /** A product by name, so that what is around it stays linear. */
  function Product(a: nat, b: nat): nat { a * b }

  lemma MoreOf(a: nat, b: nat, k: nat)
    ensures Product(a, k) + Product(b, k) == Product(a + b, k) && Product(1, k) == k && Product(0, k) == 0
  {
  }

  function Tally<T>(s: seq<T>, w: T -> nat): nat {
    if s == [] then 0 else w(s[0]) + Tally(s[1..], w)
  }

  /** Replacing one entry changes the sum by the difference of the two weights. */
  lemma {:induction false} Update<T>(s: seq<T>, i: nat, x: T, w: T -> nat)
    requires i < |s|
    ensures Tally(s[i := x], w) + w(s[i]) == Tally(s, w) + w(x)
  {
    if i == 0 {
      assert s[i := x][1..] == s[1..];
    } else {
      assert s[i := x][1..] == s[1..][i - 1 := x];
      Update(s[1..], i - 1, x, w);
    }
  }

  lemma {:induction false} Member<T>(s: seq<T>, i: nat, w: T -> nat)
    requires i < |s|
    ensures w(s[i]) <= Tally(s, w)
  {
    if i == 0 {
    } else {
      Member(s[1..], i - 1, w);
    }
  }

  lemma {:induction false} Pair<T>(s: seq<T>, i: nat, j: nat, w: T -> nat)
    requires i < |s| && j < |s| && i != j
    ensures w(s[i]) + w(s[j]) <= Tally(s, w)
  {
    if i == 0 {
      Member(s[1..], j - 1, w);
    } else if j == 0 {
      Member(s[1..], i - 1, w);
    } else {
      Pair(s[1..], i - 1, j - 1, w);
    }
  }

  /** When the sum is at most one, no two entries both carry weight. */
  lemma Exclusive<T>(s: seq<T>, w: T -> nat)
    requires Tally(s, w) <= 1
    ensures forall i: nat, j: nat :: i < |s| && j < |s| && i != j ==> w(s[i]) + w(s[j]) <= 1
  {
    forall i: nat, j: nat | i < |s| && j < |s| && i != j ensures w(s[i]) + w(s[j]) <= 1 {
      Pair(s, i, j, w);
    }
  }

  lemma {:induction false} Witness<T>(s: seq<T>, w: T -> nat) returns (i: nat)
    requires Tally(s, w) > 0
    ensures i < |s| && w(s[i]) > 0
  {
    if w(s[0]) > 0 {
      i := 0;
    } else {
      i := Witness(s[1..], w);
      i := i + 1;
    }
  }

  lemma {:induction false} Zero<T>(s: seq<T>, w: T -> nat)
    requires forall i: nat :: i < |s| ==> w(s[i]) == 0
    ensures Tally(s, w) == 0
  {
    if s == [] {
    } else {
      assert forall i: nat :: i < |s[1..]| ==> s[1..][i] == s[i + 1];
      Zero(s[1..], w);
    }
  }

  lemma {:induction false} Only<T>(s: seq<T>, i: nat, w: T -> nat)
    requires i < |s| && forall j: nat :: j < |s| && j != i ==> w(s[j]) == 0
    ensures Tally(s, w) == w(s[i])
  {
    assert forall j: nat :: j < |s[1..]| ==> s[1..][j] == s[j + 1];
    if i == 0 {
      Zero(s[1..], w);
    } else {
      Only(s[1..], i - 1, w);
    }
  }

  /** Two sequences with equal weights, entry by entry, have equal sums. */
  lemma {:induction false} Same<T, U>(s: seq<T>, w: T -> nat, r: seq<U>, v: U -> nat)
    requires |s| == |r|
    requires forall i: nat :: i < |s| ==> w(s[i]) == v(r[i])
    ensures Tally(s, w) == Tally(r, v)
  {
    if s == [] {
    } else {
      assert forall i: nat :: i < |s[1..]| ==> s[1..][i] == s[i + 1] && r[1..][i] == r[i + 1];
      Same(s[1..], w, r[1..], v);
    }
  }

  lemma {:induction false} AtMost<T>(s: seq<T>, w: T -> nat, k: nat)
    requires forall i: nat :: i < |s| ==> w(s[i]) <= k
    ensures Tally(s, w) <= |s| * k
  {
    if s == [] {
    } else {
      assert forall i: nat :: i < |s[1..]| ==> s[1..][i] == s[i + 1];
      AtMost(s[1..], w, k);
      assert |s| * k == |s[1..]| * k + k;
    }
  }

  lemma {:induction false} AllEqual<T>(s: seq<T>, w: T -> nat, k: nat)
    requires forall i: nat :: i < |s| ==> w(s[i]) == k
    ensures Tally(s, w) == |s| * k
  {
    if s == [] {
    } else {
      assert forall i: nat :: i < |s[1..]| ==> s[1..][i] == s[i + 1];
      AllEqual(s[1..], w, k);
      assert |s| * k == |s[1..]| * k + k;
    }
  }

  /** A multiset over `a` in which nothing occurs more than `k` times has at most `k * |a|` elements. */
  lemma {:induction false} Multiplicity(m: multiset<nat>, a: set<nat>, k: nat)
    requires forall x :: x in m ==> x in a && m[x] <= k
    ensures |m| <= k * |a|
  {
    if a == {} {
      assert m == multiset{};
    } else {
      var x :| x in a;
      var rest := m[x := 0];
      Multiplicity(rest, a - {x}, k);
      assert |m| == |rest| + m[x];
      assert |a| == |a - {x}| + 1;
      assert k * |a| == k * |a - {x}| + k;
    }
  }

  function Below(n: nat): (r: set<nat>)
    ensures |r| == n && forall i: nat :: i in r <==> i < n
  {
    if n == 0 then {} else Below(n - 1) + {n - 1}
  }

  lemma {:induction false} SubsetSize<T>(a: set<T>, b: set<T>)
    requires a <= b
    ensures |a| <= |b|
  {
    if a == {} {
    } else {
      var x :| x in a;
      SubsetSize(a - {x}, b - {x});
    }
  }

  /** Some number is outside any finite set. */
  lemma Outside(a: set<nat>) returns (x: nat)
    ensures x !in a
  {
    assert !(Below(|a| + 1) <= a) by {
      if Below(|a| + 1) <= a {
        SubsetSize(Below(|a| + 1), a);
      }
    }
    x :| x in Below(|a| + 1) && x !in a;
  }

  ghost function Elements<T>(s: seq<T>): set<T> { set x | x in s }

  /** A sequence without repetition has as many elements as entries. */
  lemma {:induction false} DistinctSize<T>(s: seq<T>)
    requires forall i: nat, j: nat :: i < j < |s| ==> s[i] != s[j]
    ensures |Elements(s)| == |s|
  {
    if s == [] {
      assert Elements(s) == {};
    } else {
      DistinctSize(s[1..]);
      assert Elements(s) == Elements(s[1..]) + {s[0]};
    }
  }
}
