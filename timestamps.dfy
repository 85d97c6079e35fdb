/** The UTC clock reading that names a log file: `%Y_%m_%d_%H_%M_%S` followed
    by `.log`. The clock itself is outside the model; a reading is an input. */
module Timestamps {
  import opened Strings

  datatype Timestamp = Timestamp(year: nat, month: nat, day: nat, hour: nat, minute: nat, second: nat)

  /** A reading `datetime.now(datetime.UTC)` can produce (four-digit years). */
  predicate Valid(t: Timestamp)
  {
    1000 <= t.year <= 9999 && 1 <= t.month <= 12 && 1 <= t.day <= 31 &&
    t.hour < 24 && t.minute < 60 && t.second < 60
  }

  /** Chronological order of two readings, field by field. */
  predicate Earlier(a: Timestamp, b: Timestamp)
  {
    a.year < b.year || (a.year == b.year &&
    (a.month < b.month || (a.month == b.month &&
    (a.day < b.day || (a.day == b.day &&
    (a.hour < b.hour || (a.hour == b.hour &&
    (a.minute < b.minute || (a.minute == b.minute &&
    a.second < b.second)))))))))
  }

  function Pow10(w: nat): (p: nat)
    ensures p >= 1
  {
    if w == 0 then 1 else 10 * Pow10(w - 1)
  }

  function Digit(d: nat): char
    requires d < 10
  {
    (48 + d) as char
  }

  /** The last `width` decimal digits of `n`, zero-padded, as strftime writes them. */
  function Pad(n: nat, width: nat): (s: string)
    ensures |s| == width
    decreases width
  {
    if width == 0 then "" else Pad(n / 10, width - 1) + [Digit(n % 10)]
  }

  /** `t.strftime('%Y_%m_%d_%H_%M_%S') + '.log'`. */
  function LogName(t: Timestamp): string
  {
    Pad(t.year, 4) + ("_" + (Pad(t.month, 2) + ("_" + (Pad(t.day, 2) + ("_" +
    (Pad(t.hour, 2) + ("_" + (Pad(t.minute, 2) + ("_" + (Pad(t.second, 2) + ".log"))))))))))
  }

  /** Zero-padded numbers of one width sort as the numbers do. */
  lemma {:induction false} PadOrder(m: nat, n: nat, w: nat)
    requires m < Pow10(w) && n < Pow10(w)
    ensures Less(Pad(m, w), Pad(n, w)) <==> m < n
    ensures Pad(m, w) == Pad(n, w) <==> m == n
  {
    if w == 0 {
      LessIrreflexive("");
    } else {
      var x, y := Pad(m / 10, w - 1), Pad(n / 10, w - 1);
      var c, d := Digit(m % 10), Digit(n % 10);
      PadOrder(m / 10, n / 10, w - 1);
      LessAppend(x, [c], y, [d]);
      assert Less([c], [d]) <==> m % 10 < n % 10 by {
        assert [c][1..] == [] && [d][1..] == [];
        LessIrreflexive([]);
      }
      assert x + [c] == y + [d] <==> x == y && c == d by {
        if x + [c] == y + [d] {
          assert (x + [c])[..w - 1] == x && (y + [d])[..w - 1] == y;
          assert (x + [c])[w - 1] == c && (y + [d])[w - 1] == d;
        }
      }
    }
  }

  /** A field compared first, the rest of the name compared when it ties. */
  lemma PadThen(m: nat, n: nat, w: nat, r1: string, r2: string)
    requires m < Pow10(w) && n < Pow10(w)
    ensures Less(Pad(m, w) + r1, Pad(n, w) + r2) <==> m < n || (m == n && Less(r1, r2))
    ensures Pad(m, w) + r1 == Pad(n, w) + r2 <==> m == n && r1 == r2
  {
    PadOrder(m, n, w);
    LessAppend(Pad(m, w), r1, Pad(n, w), r2);
    if Pad(m, w) + r1 == Pad(n, w) + r2 {
      assert (Pad(m, w) + r1)[..w] == Pad(m, w) && (Pad(n, w) + r2)[..w] == Pad(n, w);
      assert (Pad(m, w) + r1)[w..] == r1 && (Pad(n, w) + r2)[w..] == r2;
    }
  }

  lemma SeparatorThen(r1: string, r2: string)
    ensures Less("_" + r1, "_" + r2) <==> Less(r1, r2)
    ensures "_" + r1 == "_" + r2 <==> r1 == r2
  {
    LessAppend("_", r1, "_", r2);
    LessIrreflexive("_");
    if "_" + r1 == "_" + r2 {
      assert ("_" + r1)[1..] == r1 && ("_" + r2)[1..] == r2;
    }
  }

  /** The name of a later reading sorts after the name of an earlier one, and
      two readings within the same second give the same name: the greatest
      file name in a directory is the newest log. */
  lemma {:induction false} LogNameOrder(a: Timestamp, b: Timestamp)
    requires Valid(a) && Valid(b)
    ensures Less(LogName(a), LogName(b)) <==> Earlier(a, b)
    ensures LogName(a) == LogName(b) <==> a == b
  {
    var s1, s2 := Pad(a.second, 2) + ".log", Pad(b.second, 2) + ".log";
    PadThen(a.second, b.second, 2, ".log", ".log");
    LessIrreflexive(".log");
    var n1, n2 := Pad(a.minute, 2) + ("_" + s1), Pad(b.minute, 2) + ("_" + s2);
    SeparatorThen(s1, s2);
    PadThen(a.minute, b.minute, 2, "_" + s1, "_" + s2);
    var h1, h2 := Pad(a.hour, 2) + ("_" + n1), Pad(b.hour, 2) + ("_" + n2);
    SeparatorThen(n1, n2);
    PadThen(a.hour, b.hour, 2, "_" + n1, "_" + n2);
    var d1, d2 := Pad(a.day, 2) + ("_" + h1), Pad(b.day, 2) + ("_" + h2);
    SeparatorThen(h1, h2);
    PadThen(a.day, b.day, 2, "_" + h1, "_" + h2);
    var o1, o2 := Pad(a.month, 2) + ("_" + d1), Pad(b.month, 2) + ("_" + d2);
    SeparatorThen(d1, d2);
    PadThen(a.month, b.month, 2, "_" + d1, "_" + d2);
    SeparatorThen(o1, o2);
    PadThen(a.year, b.year, 4, "_" + o1, "_" + o2);
  }
}
