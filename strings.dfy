/** Python's ordering of `str` values and the greatest element of a listing,
    which is what `files.sort(); files[-1]` picks. */
module Strings {

  /** `a < b` on Python strings: code point by code point, and a proper
      prefix sorts first. */
  predicate Less(a: string, b: string)
    decreases |a|
  {
    if |a| == 0 then |b| > 0
    else if |b| == 0 then false
    else if a[0] != b[0] then a[0] < b[0]
    else Less(a[1..], b[1..])
  }

  lemma {:induction false} LessIrreflexive(a: string)
    ensures !Less(a, a)
  {
    if |a| > 0 {
      LessIrreflexive(a[1..]);
    }
  }

  lemma {:induction false} LessAsymmetric(a: string, b: string)
    requires Less(a, b)
    ensures !Less(b, a)
  {
    if |a| > 0 && |b| > 0 && a[0] == b[0] {
      LessAsymmetric(a[1..], b[1..]);
    }
  }

  lemma {:induction false} LessTransitive(a: string, b: string, c: string)
    requires Less(a, b) && Less(b, c)
    ensures Less(a, c)
  {
    if |a| > 0 && |b| > 0 && |c| > 0 && a[0] == b[0] && b[0] == c[0] {
      LessTransitive(a[1..], b[1..], c[1..]);
    }
  }

  lemma {:induction false} LessTotal(a: string, b: string)
    ensures a == b || Less(a, b) || Less(b, a)
  {
    if |a| > 0 && |b| > 0 && a[0] == b[0] {
      LessTotal(a[1..], b[1..]);
      if a[1..] == b[1..] {
        assert a == [a[0]] + a[1..] && b == [b[0]] + b[1..];
      }
    }
  }

  /** Comparing two strings that start with blocks of the same length
      compares the blocks first and the rests only when the blocks agree. */
  lemma {:induction false} LessAppend(a1: string, b1: string, a2: string, b2: string)
    requires |a1| == |a2|
    ensures Less(a1 + b1, a2 + b2) <==> Less(a1, a2) || (a1 == a2 && Less(b1, b2))
  {
    if |a1| == 0 {
      assert a1 + b1 == b1 && a2 + b2 == b2;
      LessIrreflexive(a1);
    } else {
      assert (a1 + b1)[0] == a1[0] && (a2 + b2)[0] == a2[0];
      assert (a1 + b1)[1..] == a1[1..] + b1 && (a2 + b2)[1..] == a2[1..] + b2;
      LessAppend(a1[1..], b1, a2[1..], b2);
      if a1[0] == a2[0] {
        assert a1 == a2 <==> a1[1..] == a2[1..] by {
          assert a1 == [a1[0]] + a1[1..] && a2 == [a2[0]] + a2[1..];
        }
      }
    }
  }

  /** Every name of `names` is at most `m`. */
  ghost predicate IsUpperBound(names: seq<string>, m: string)
  {
    forall x :: x in names ==> x == m || Less(x, m)
  }

  lemma {:induction false} RaiseUpperBound(names: seq<string>, m: string, h: string)
    requires IsUpperBound(names, m) && Less(m, h)
    ensures IsUpperBound(names, h)
  {
    forall x | x in names
      ensures x == h || Less(x, h)
    {
      if x != m {
        LessTransitive(x, m, h);
      }
    }
  }

  /** The last element of `sorted(names)`: the greatest name. */
  function Greatest(names: seq<string>): (m: string)
    requires |names| > 0
    ensures m in names
    ensures IsUpperBound(names, m)
  {
    if |names| == 1 then names[0]
    else
      var rest := Greatest(names[1..]);
      assert forall x :: x in names ==> x == names[0] || x in names[1..];
      LessTotal(rest, names[0]);
      if Less(rest, names[0]) then
        RaiseUpperBound(names[1..], rest, names[0]);
        names[0]
      else
        rest
  }

  /** The greatest name is unique: no other upper bound lies in the listing. */
  lemma GreatestUnique(names: seq<string>, m: string)
    requires |names| > 0 && m in names && IsUpperBound(names, m)
    ensures m == Greatest(names)
  {
    var g := Greatest(names);
    if m != g {
      assert Less(m, g) && Less(g, m);
      LessAsymmetric(m, g);
    }
  }
}
