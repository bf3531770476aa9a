/** Python's ordering of `str` values: lexicographic on code points, a proper prefix first. */
module Lex {
  import Sorting

  predicate Less(a: string, b: string)
  {
    if |a| == 0 then |b| > 0
    else if |b| == 0 then false
    else if a[0] < b[0] then true
    else a[0] == b[0] && Less(a[1..], b[1..])
  }

  predicate Leq(a: string, b: string)
  {
    a == b || Less(a, b)
  }

  lemma {:induction false} LessIrreflexive(a: string)
    ensures !Less(a, a)
  {
    if |a| > 0 {
      LessIrreflexive(a[1..]);
    }
  }

  lemma {:induction false} LessTransitive(a: string, b: string, c: string)
    requires Less(a, b) && Less(b, c)
    ensures Less(a, c)
  {
    if |a| > 0 && |b| > 0 && |c| > 0 && a[0] == b[0] && b[0] == c[0] {
      LessTransitive(a[1..], b[1..], c[1..]);
    }
  }

  lemma {:induction false} LessTotal(a: string, b: string)
    requires a != b
    ensures Less(a, b) || Less(b, a)
  {
    if |a| > 0 && |b| > 0 && a[0] == b[0] {
      assert a == [a[0]] + a[1..] && b == [b[0]] + b[1..];
      LessTotal(a[1..], b[1..]);
    }
  }

  /** Python's `<=` on strings orders any list of tickers. */
  lemma LeqTotalPreorder()
    ensures Sorting.TotalPreorder(Leq)
  {
    forall x, y
      ensures Leq(x, y) || Leq(y, x)
    {
      if x != y { LessTotal(x, y); }
    }
    forall x, y, z | Leq(x, y) && Leq(y, z)
      ensures Leq(x, z)
    {
      if x != y && y != z { LessTransitive(x, y, z); }
    }
  }
}
