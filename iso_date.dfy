/** The `YYYY-MM-DD` strings (`date.toISOString().split('T')[0]`), which the
    hook compares with `<`, `>`, `<=` and `===` and the details view only with
    `===`, and the proof that on them string
    order and string equality are the date order and date equality the model
    uses. */
module IsoDate {
  import opened Calendar

  function Digit(n: int): (c: char)
    requires 0 <= n <= 9
    ensures '0' <= c <= '9' && c as int - '0' as int == n
  {
    (48 + n) as char
  }

  /** Two decimal digits with a leading zero. */
  function Pad2(n: int): (s: string)
    requires 0 <= n <= 99
    ensures |s| == 2
  {
    [Digit(n / 10), Digit(n % 10)]
  }

  /** Four decimal digits with leading zeros. */
  function Pad4(n: int): (s: string)
    requires 0 <= n <= 9999
    ensures |s| == 4
  {
    Pad2(n / 100) + Pad2(n % 100)
  }

  /** The date part of the UTC ISO string of a date in years 0 to 9999. */
  function Format(d: Date): (s: string)
    requires Valid(d) && d.year <= 9999
    ensures |s| == 10 && s[4] == '-' && s[7] == '-'
  {
    Pad4(d.year) + "-" + Pad2(d.month) + "-" + Pad2(d.day)
  }

  /** JavaScript `<` on strings of these characters: lexicographic order. */
  predicate StrLess(a: string, b: string) {
    if a == [] then b != []
    else if b == [] then false
    else if a[0] != b[0] then a[0] < b[0]
    else StrLess(a[1..], b[1..])
  }

  /** Between two strings of the same length, the first decides if they differ
      and the rest decides otherwise. */
  lemma {:induction false} StrLessConcat(x1: string, y1: string, x2: string, y2: string)
    requires |x1| == |x2|
    ensures StrLess(x1 + y1, x2 + y2) == if x1 != x2 then StrLess(x1, x2) else StrLess(y1, y2)
    decreases |x1|
  {
    if x1 != [] {
      assert (x1 + y1)[1..] == x1[1..] + y1;
      assert (x2 + y2)[1..] == x2[1..] + y2;
      if x1[0] == x2[0] {
        StrLessConcat(x1[1..], y1, x2[1..], y2);
        assert x1 == [x1[0]] + x1[1..];
        assert x2 == [x2[0]] + x2[1..];
      }
    } else {
      assert x1 + y1 == y1 && x2 + y2 == y2;
    }
  }

  /** Splitting a number into its leading part and its last digits by the radix
      `m` of a padded field: the order of the numbers is the order of the leading
      parts, then of the rest. */
  lemma DivModOrder(a: int, b: int, m: int)
    requires m == 10 || m == 100
    requires 0 <= a && 0 <= b
    ensures a < b <==> a / m < b / m || (a / m == b / m && a % m < b % m)
    ensures a == b <==> a / m == b / m && a % m == b % m
  {
  }

  lemma Pad2Order(a: int, b: int)
    requires 0 <= a <= 99 && 0 <= b <= 99
    ensures StrLess(Pad2(a), Pad2(b)) <==> a < b
    ensures Pad2(a) == Pad2(b) <==> a == b
  {
    DivModOrder(a, b, 10);
    assert Pad2(a) == [Digit(a / 10)] + [Digit(a % 10)];
    assert Pad2(b) == [Digit(b / 10)] + [Digit(b % 10)];
    StrLessConcat([Digit(a / 10)], [Digit(a % 10)], [Digit(b / 10)], [Digit(b % 10)]);
  }

  lemma Pad4Order(a: int, b: int)
    requires 0 <= a <= 9999 && 0 <= b <= 9999
    ensures StrLess(Pad4(a), Pad4(b)) <==> a < b
    ensures Pad4(a) == Pad4(b) <==> a == b
  {
    DivModOrder(a, b, 100);
    Pad2Order(a / 100, b / 100);
    Pad2Order(a % 100, b % 100);
    StrLessConcat(Pad2(a / 100), Pad2(a % 100), Pad2(b / 100), Pad2(b % 100));
    if Pad4(a) == Pad4(b) {
      assert Pad4(a)[..2] == Pad2(a / 100) && Pad4(b)[..2] == Pad2(b / 100);
      assert Pad4(a)[2..] == Pad2(a % 100) && Pad4(b)[2..] == Pad2(b % 100);
    }
  }

  /** String order of the formatted dates is chronological order, and equal
      strings are equal dates: comparing the strings as the source does is
      comparing the dates as the model does. */
  lemma FormatOrder(a: Date, b: Date)
    requires Valid(a) && a.year <= 9999 && Valid(b) && b.year <= 9999
    ensures StrLess(Format(a), Format(b)) <==> Before(a, b)
    ensures Format(a) == Format(b) <==> a == b
  {
    var ya, yb := Pad4(a.year), Pad4(b.year);
    var ma, mb := Pad2(a.month), Pad2(b.month);
    var da, db := Pad2(a.day), Pad2(b.day);
    Pad4Order(a.year, b.year);
    Pad2Order(a.month, b.month);
    Pad2Order(a.day, b.day);
    assert Format(a) == ya + ("-" + ma + "-" + da);
    assert Format(b) == yb + ("-" + mb + "-" + db);
    StrLessConcat(ya, "-" + ma + "-" + da, yb, "-" + mb + "-" + db);
    StrLessConcat("-", ma + "-" + da, "-", mb + "-" + db);
    assert "-" + ma + "-" + da == "-" + (ma + "-" + da);
    assert "-" + mb + "-" + db == "-" + (mb + "-" + db);
    StrLessConcat(ma, "-" + da, mb, "-" + db);
    assert ma + "-" + da == ma + ("-" + da);
    assert mb + "-" + db == mb + ("-" + db);
    StrLessConcat("-", da, "-", db);
    if Format(a) == Format(b) {
      assert Format(a)[..4] == ya && Format(b)[..4] == yb;
      assert Format(a)[5..7] == ma && Format(b)[5..7] == mb;
      assert Format(a)[8..] == da && Format(b)[8..] == db;
    }
  }
}
