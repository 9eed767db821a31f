/** Sums over a sequence, keyed by a number, and how they move when one entry changes. */
module Sums {

  /** The sum of what each entry of s contributes to key k. */
  function Sum<T>(f: (T, nat) -> int, s: seq<T>, k: nat): int {
    if s == [] then 0 else f(s[0], k) + Sum(f, s[1..], k)
  }

  /** One for an entry that is the key itself: summed up, the number of occurrences of k. */
  function IsKey(x: nat, k: nat): int { if x == k then 1 else 0 }

  lemma SumOne<T>(f: (T, nat) -> int, x: T, k: nat)
    ensures Sum(f, [x], k) == f(x, k)
  {
    assert [x][1..] == [];
  }

  lemma {:induction false} SumUpdate<T>(f: (T, nat) -> int, s: seq<T>, k: nat, i: nat, x: T)
    requires i < |s|
    ensures Sum(f, s[i := x], k) == Sum(f, s, k) - f(s[i], k) + f(x, k)
  {
    if i == 0 {
      assert s[i := x][1..] == s[1..];
    } else {
      assert s[i := x][1..] == s[1..][i - 1 := x];
      SumUpdate(f, s[1..], k, i - 1, x);
    }
  }

  lemma {:induction false} SumConcat<T>(f: (T, nat) -> int, s: seq<T>, t: seq<T>, k: nat)
    ensures Sum(f, s + t, k) == Sum(f, s, k) + Sum(f, t, k)
  {
    if s == [] {
      assert s + t == t;
    } else {
      assert (s + t)[1..] == s[1..] + t;
      SumConcat(f, s[1..], t, k);
    }
  }

  lemma {:induction false} SumAppend<T>(f: (T, nat) -> int, s: seq<T>, x: T, k: nat)
    ensures Sum(f, s + [x], k) == Sum(f, s, k) + f(x, k)
  {
    SumConcat(f, s, [x], k);
  }

  predicate NonNegative<T>(f: (T, nat) -> int, s: seq<T>, k: nat) {
    forall i :: 0 <= i < |s| ==> f(s[i], k) >= 0
  }

  lemma {:induction false} SumNonNegative<T>(f: (T, nat) -> int, s: seq<T>, k: nat)
    requires NonNegative(f, s, k)
    ensures Sum(f, s, k) >= 0
  {
    if s != [] {
      SumNonNegative(f, s[1..], k);
    }
  }

  /** What one entry contributes is at most the whole. */
  lemma {:induction false} SumMember<T>(f: (T, nat) -> int, s: seq<T>, k: nat, i: nat)
    requires i < |s| && NonNegative(f, s, k)
    ensures f(s[i], k) <= Sum(f, s, k)
  {
    SumNonNegative(f, s[1..], k);
    if i != 0 {
      SumMember(f, s[1..], k, i - 1);
    }
  }

  /** So is what two entries contribute. */
  lemma {:induction false} SumTwo<T>(f: (T, nat) -> int, s: seq<T>, k: nat, i: nat, j: nat)
    requires i < j < |s| && NonNegative(f, s, k)
    ensures f(s[i], k) + f(s[j], k) <= Sum(f, s, k)
  {
    if i == 0 {
      SumMember(f, s[1..], k, j - 1);
    } else {
      SumTwo(f, s[1..], k, i - 1, j - 1);
    }
  }

  /** A positive sum has a positive entry. */
  lemma {:induction false} SumSource<T>(f: (T, nat) -> int, s: seq<T>, k: nat) returns (i: nat)
    requires Sum(f, s, k) > 0
    ensures i < |s| && f(s[i], k) > 0
  {
    if f(s[0], k) > 0 {
      i := 0;
    } else {
      i := SumSource(f, s[1..], k);
      i := i + 1;
    }
  }

  lemma {:induction false} AllZero<T>(f: (T, nat) -> int, s: seq<T>, k: nat)
    requires forall i :: 0 <= i < |s| ==> f(s[i], k) == 0
    ensures Sum(f, s, k) == 0
  {
    if s != [] {
      AllZero(f, s[1..], k);
    }
  }

  /** A sum with a single entry that counts. */
  lemma {:induction false} SumOnly<T>(f: (T, nat) -> int, s: seq<T>, k: nat, i: nat)
    requires i < |s|
    requires forall j :: 0 <= j < |s| && j != i ==> f(s[j], k) == 0
    ensures Sum(f, s, k) == f(s[i], k)
  {
    if i == 0 {
      AllZero(f, s[1..], k);
    } else {
      SumOnly(f, s[1..], k, i - 1);
    }
  }

  /** Pointwise bounds carry over to the sums. */
  lemma {:induction false} SumBound<T>(f: (T, nat) -> int, g: (T, nat) -> int, s: seq<T>, k: nat)
    requires forall i :: 0 <= i < |s| ==> f(s[i], k) <= g(s[i], k)
    ensures Sum(f, s, k) <= Sum(g, s, k)
  {
    if s != [] {
      SumBound(f, g, s[1..], k);
    }
  }

  /** Occurrences, counted and as a multiset. */
  lemma {:induction false} Occurrences(s: seq<nat>, k: nat)
    ensures Sum(IsKey, s, k) == multiset(s)[k]
  {
    if s != [] {
      assert s == [s[0]] + s[1..];
      Occurrences(s[1..], k);
    }
  }
}
