/**
 * The order the itinerary sorts stops by. The page compares dates with
 * `a.date.localeCompare(b.date)`; on zero-padded "YYYY-MM-DD" strings that is
 * the lexicographic order on characters, which is what this module defines.
 */
module DateOrder {

  /** `a` sorts at or before `b`: lexicographic order, a proper prefix first. */
  predicate LexLe(a: string, b: string)
  {
    |a| == 0 || (|b| > 0 && (a[0] < b[0] || (a[0] == b[0] && LexLe(a[1..], b[1..]))))
  }

  /** `a` sorts strictly before `b`. */
  predicate LexLt(a: string, b: string)
  {
    !LexLe(b, a)
  }

  lemma {:induction false} LexLeReflexive(a: string)
    ensures LexLe(a, a)
  {
    if |a| > 0 {
      LexLeReflexive(a[1..]);
    }
  }

  lemma {:induction false} LexLeTotal(a: string, b: string)
    ensures LexLe(a, b) || LexLe(b, a)
  {
    if |a| > 0 && |b| > 0 && a[0] == b[0] {
      LexLeTotal(a[1..], b[1..]);
    }
  }

  lemma {:induction false} LexLeTransitive(a: string, b: string, c: string)
    requires LexLe(a, b) && LexLe(b, c)
    ensures LexLe(a, c)
  {
    if |a| > 0 && a[0] == b[0] && b[0] == c[0] {
      LexLeTransitive(a[1..], b[1..], c[1..]);
    }
  }

  lemma {:induction false} LexLeAntisymmetric(a: string, b: string)
    requires LexLe(a, b) && LexLe(b, a)
    ensures a == b
  {
    if |a| > 0 {
      LexLeAntisymmetric(a[1..], b[1..]);
      assert a == [a[0]] + a[1..];
      assert b == [b[0]] + b[1..];
    }
  }

  /** A strictly-earlier date also sorts at or before. */
  lemma LexLtIsLe(a: string, b: string)
    requires LexLt(a, b)
    ensures LexLe(a, b)
  {
    LexLeTotal(a, b);
  }
}
