/**
 * Dates are kept as ISO "YYYY-MM-DD" text. For text of that fixed shape the
 * lexicographic order is the calendar order, so the comparisons the filtered
 * query asks of the database (`__gte`, `__lte`) are lexicographic comparisons.
 * This module proves that the comparison is a total order, which is what the
 * filter's bounds rely on.
 */
module Dates {

  /** `a[i..]` sorts at or before `b[i..]`; the caller has already matched the characters before `i`. */
  predicate OnOrBeforeFrom(a: string, b: string, i: nat)
    decreases |a| - i
  {
    i >= |a| || (i < |b| && (a[i] < b[i] || (a[i] == b[i] && OnOrBeforeFrom(a, b, i + 1))))
  }

  /** `a` sorts at or before `b`, character by character. */
  predicate OnOrBefore(a: string, b: string) {
    OnOrBeforeFrom(a, b, 0)
  }

  lemma {:induction false} OnOrBeforeFromReflexive(a: string, i: nat)
    ensures OnOrBeforeFrom(a, a, i)
    decreases |a| - i
  {
    if i < |a| {
      OnOrBeforeFromReflexive(a, i + 1);
    }
  }

  lemma {:induction false} OnOrBeforeFromAntisymmetric(a: string, b: string, i: nat)
    requires i <= |a| && i <= |b|
    requires OnOrBeforeFrom(a, b, i) && OnOrBeforeFrom(b, a, i)
    ensures a[i..] == b[i..]
    decreases |a| - i
  {
    if i < |a| {
      OnOrBeforeFromAntisymmetric(a, b, i + 1);
      assert a[i..] == [a[i]] + a[i + 1..];
      assert b[i..] == [b[i]] + b[i + 1..];
    }
  }

  lemma {:induction false} OnOrBeforeFromTransitive(a: string, b: string, c: string, i: nat)
    requires OnOrBeforeFrom(a, b, i) && OnOrBeforeFrom(b, c, i)
    ensures OnOrBeforeFrom(a, c, i)
    decreases |a| - i
  {
    if i < |a| && a[i] == b[i] && b[i] == c[i] {
      OnOrBeforeFromTransitive(a, b, c, i + 1);
    }
  }

  lemma {:induction false} OnOrBeforeFromTotal(a: string, b: string, i: nat)
    ensures OnOrBeforeFrom(a, b, i) || OnOrBeforeFrom(b, a, i)
    decreases |a| - i
  {
    if i < |a| && i < |b| && a[i] == b[i] {
      OnOrBeforeFromTotal(a, b, i + 1);
    }
  }

  lemma OnOrBeforeReflexive(a: string)
    ensures OnOrBefore(a, a)
  {
    OnOrBeforeFromReflexive(a, 0);
  }

  lemma OnOrBeforeAntisymmetric(a: string, b: string)
    requires OnOrBefore(a, b) && OnOrBefore(b, a)
    ensures a == b
  {
    OnOrBeforeFromAntisymmetric(a, b, 0);
    assert a == a[0..] && b == b[0..];
  }

  lemma OnOrBeforeTransitive(a: string, b: string, c: string)
    requires OnOrBefore(a, b) && OnOrBefore(b, c)
    ensures OnOrBefore(a, c)
  {
    OnOrBeforeFromTransitive(a, b, c, 0);
  }

  lemma OnOrBeforeTotal(a: string, b: string)
    ensures OnOrBefore(a, b) || OnOrBefore(b, a)
  {
    OnOrBeforeFromTotal(a, b, 0);
  }
}
