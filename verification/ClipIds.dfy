/** Clip ids, `<capture second as %Y%m%dT%H%M%SZ>-<seq:03>` (queue/store.rs), and the order in which the queue scans
    them. Capture times are UTC civil times of the proleptic Gregorian calendar in the years 0 to 9999. */
module ClipIds {
  import opened Queue
  import opened Order
  import opened Store

  datatype Civil = Civil(year: nat, month: nat, day: nat, hour: nat, minute: nat, second: nat)
  {
    predicate Valid() {
      && year <= 9999 && 1 <= month <= 12 && 1 <= day <= DaysInMonth(year, month)
      && hour < 24 && minute < 60 && second < 60
    }
  }

  // ---- Civil time as a count of seconds ----

  predicate Leap(year: nat) { year % 4 == 0 && (year % 100 != 0 || year % 400 == 0) }

  function DaysInMonth(year: nat, month: nat): nat {
    if month == 2 then (if Leap(year) then 29 else 28)
    else if month in {4, 6, 9, 11} then 30 else 31
  }

  function DaysBeforeYear(year: nat): nat {
    365 * year + Count4(year) - Count100(year) + Count400(year)
  }

  /** How many multiples of 4, of 100 and of 400 there are below n. */
  function Count4(n: nat): nat { (n + 3) / 4 }
  function Count100(n: nat): (r: nat) ensures r <= n { (n + 99) / 100 }
  function Count400(n: nat): nat { (n + 399) / 400 }

  function DaysBeforeMonth(year: nat, month: nat): nat
    requires month >= 1
  {
    if month == 1 then 0 else DaysBeforeMonth(year, month - 1) + DaysInMonth(year, month - 1)
  }

  function Day(c: Civil): nat
    requires c.Valid()
  {
    DaysBeforeYear(c.year) + DaysBeforeMonth(c.year, c.month) + c.day - 1
  }

  /** Whole seconds since the start of year 0. */
  function Seconds(c: Civil): nat
    requires c.Valid()
  {
    ((Day(c) * 24 + c.hour) * 60 + c.minute) * 60 + c.second
  }

  lemma YearLength(year: nat)
    ensures DaysBeforeYear(year + 1) == DaysBeforeYear(year) + if Leap(year) then 366 else 365
  {
    Next4(year);
    Next100(year);
    Next400(year);
    Nested(year);
  }

  lemma Next4(n: nat)
    ensures Count4(n + 1) == Count4(n) + if n % 4 == 0 then 1 else 0
  {
  }

  lemma Next100(n: nat)
    ensures Count100(n + 1) == Count100(n) + if n % 100 == 0 then 1 else 0
  {
  }

  lemma Next400(n: nat)
    ensures Count400(n + 1) == Count400(n) + if n % 400 == 0 then 1 else 0
  {
  }

  lemma Nested(n: nat)
    ensures n % 400 == 0 ==> n % 100 == 0
    ensures n % 100 == 0 ==> n % 4 == 0
  {
    var q, r := n / 400, n / 100;
    assert n % 400 == 0 ==> n == 100 * (4 * q);
    assert n % 100 == 0 ==> n == 4 * (25 * r);
  }

  lemma {:induction false} LaterMonth(year: nat, m: nat, n: nat)
    requires 1 <= m < n <= 13
    ensures DaysBeforeMonth(year, m) + DaysInMonth(year, m) <= DaysBeforeMonth(year, n)
  {
    if m < n - 1 {
      LaterMonth(year, m, n - 1);
    }
  }

  lemma YearIsTwelveMonths(year: nat)
    ensures DaysBeforeMonth(year, 13) == if Leap(year) then 366 else 365
  {
    assert DaysBeforeMonth(year, 1) == 0;
    assert DaysBeforeMonth(year, 2) == 31;
    assert DaysBeforeMonth(year, 3) == 31 + DaysInMonth(year, 2);
    assert DaysBeforeMonth(year, 4) == DaysBeforeMonth(year, 3) + 31;
    assert DaysBeforeMonth(year, 5) == DaysBeforeMonth(year, 3) + 61;
    assert DaysBeforeMonth(year, 6) == DaysBeforeMonth(year, 3) + 92;
    assert DaysBeforeMonth(year, 7) == DaysBeforeMonth(year, 3) + 122;
    assert DaysBeforeMonth(year, 8) == DaysBeforeMonth(year, 3) + 153;
    assert DaysBeforeMonth(year, 9) == DaysBeforeMonth(year, 3) + 184;
    assert DaysBeforeMonth(year, 10) == DaysBeforeMonth(year, 3) + 214;
    assert DaysBeforeMonth(year, 11) == DaysBeforeMonth(year, 3) + 245;
    assert DaysBeforeMonth(year, 12) == DaysBeforeMonth(year, 3) + 275;
  }

  lemma {:induction false} LaterYear(y: nat, z: nat)
    requires y < z
    ensures DaysBeforeYear(y) + DaysBeforeMonth(y, 13) <= DaysBeforeYear(z)
  {
    YearLength(z - 1);
    YearIsTwelveMonths(y);
    if y < z - 1 {
      LaterYear(y, z - 1);
    }
  }

  predicate DateBefore(a: Civil, b: Civil) {
    || a.year < b.year
    || (a.year == b.year && (a.month < b.month || (a.month == b.month && a.day < b.day)))
  }

  predicate TimeBefore(a: Civil, b: Civil) {
    || a.hour < b.hour
    || (a.hour == b.hour && (a.minute < b.minute || (a.minute == b.minute && a.second < b.second)))
  }

  predicate SameDate(a: Civil, b: Civil) { a.year == b.year && a.month == b.month && a.day == b.day }

  /** Field by field order. */
  predicate CivilBefore(a: Civil, b: Civil) { DateBefore(a, b) || (SameDate(a, b) && TimeBefore(a, b)) }

  lemma EarlierDate(a: Civil, b: Civil)
    requires a.Valid() && b.Valid() && DateBefore(a, b)
    ensures Day(a) < Day(b)
  {
    LaterMonth(a.year, a.month, 13);
    if a.year < b.year {
      LaterYear(a.year, b.year);
    } else if a.month < b.month {
      LaterMonth(a.year, a.month, b.month);
    }
  }

  lemma CivilForward(a: Civil, b: Civil)
    requires a.Valid() && b.Valid() && CivilBefore(a, b)
    ensures Seconds(a) < Seconds(b)
  {
    if DateBefore(a, b) {
      EarlierDate(a, b);
    } else {
      assert Day(a) == Day(b);
    }
  }

  /** Comparing the fields is comparing the instants. */
  lemma CivilIsChronological(a: Civil, b: Civil)
    requires a.Valid() && b.Valid()
    ensures CivilBefore(a, b) <==> Seconds(a) < Seconds(b)
  {
    if CivilBefore(a, b) {
      CivilForward(a, b);
    } else if CivilBefore(b, a) {
      CivilForward(b, a);
    } else {
      assert a == b;
    }
  }

  // ---- The id ----

  function Digit(d: nat): char
    requires d < 10
  {
    '0' + d as char
  }

  /** The last w decimal digits of n. */
  function Digits(n: nat, w: nat): (s: string)
    ensures |s| == w
  {
    if w == 0 then "" else Digits(n / 10, w - 1) + [Digit(n % 10)]
  }

  function Width(n: nat): (w: nat)
    ensures w >= 3
  {
    if n < 1000 then 3 else Width(n / 10) + 1
  }

  /** n without its last k digits. */
  function Top(n: nat, k: nat): nat { if k == 0 then n else Top(n / 10, k - 1) }

  predicate Fits(n: nat, w: nat) { Top(n, w) == 0 }

  function TimeDigits(c: Civil, rest: string): string {
    Digits(c.hour, 2) + (Digits(c.minute, 2) + (Digits(c.second, 2) + ("Z-" + rest)))
  }

  function Stamped(c: Civil, rest: string): string {
    Digits(c.year, 4) + (Digits(c.month, 2) + (Digits(c.day, 2) + ("T" + TimeDigits(c, rest))))
  }

  function ClipIdOf(c: Civil, number: u32): ClipId { Stamped(c, Digits(number, Width(number))) }

  predicate IsDigit(c: char) { '0' <= c <= '9' }

  lemma {:induction false} DigitsAreDigits(n: nat, w: nat)
    ensures forall i | 0 <= i < w :: IsDigit(Digits(n, w)[i])
    ensures w > 0 ==> Digits(n, w)[w - 1] as int - '0' as int == n % 10
  {
    if w > 0 {
      DigitsAreDigits(n / 10, w - 1);
    }
  }

  /** Eight digits, T, six digits, Z, a hyphen, and three digits or more. */
  lemma IdShape(c: Civil, n: u32)
    ensures var id := ClipIdOf(c, n);
            && |id| == 17 + Width(n) >= 20 && id[8] == 'T' && id[15] == 'Z' && id[16] == '-'
            && id[..4] == Digits(c.year, 4) && id[4..6] == Digits(c.month, 2) && id[6..8] == Digits(c.day, 2)
            && id[9..11] == Digits(c.hour, 2) && id[11..13] == Digits(c.minute, 2) && id[13..15] == Digits(c.second, 2)
            && id[17..] == Digits(n, Width(n))
  {
  }

  lemma {:induction false} LexAfterPrefix(p: string, a: string, b: string)
    ensures LexLess(p + a, p + b) <==> LexLess(a, b)
  {
    if p == [] {
      assert p + a == a && p + b == b;
    } else {
      LexAfterPrefix(p[1..], a, b);
      assert (p + a)[1..] == p[1..] + a && (p + b)[1..] == p[1..] + b;
    }
  }

  lemma {:induction false} LexDecided(p: string, q: string, x: string, y: string)
    requires |p| == |q| && LexLess(p, q)
    ensures LexLess(p + x, q + y)
  {
    if p[0] == q[0] {
      LexDecided(p[1..], q[1..], x, y);
      assert (p + x)[1..] == p[1..] + x && (q + y)[1..] == q[1..] + y;
    }
  }

  lemma {:induction false} DigitsOrder(n: nat, m: nat, w: nat)
    requires n < m && Fits(m, w)
    ensures LexLess(Digits(n, w), Digits(m, w))
  {
    if w > 0 {
      var p, q := Digits(n / 10, w - 1), Digits(m / 10, w - 1);
      var x, y := [Digit(n % 10)], [Digit(m % 10)];
      if n / 10 < m / 10 {
        DigitsOrder(n / 10, m / 10, w - 1);
        LexDecided(p, q, x, y);
      } else {
        assert n / 10 == m / 10 && n % 10 < m % 10;
        LexAfterPrefix(p, x, y);
        assert LexLess(x, y);
      }
    }
  }

  /** One field of a name decides when it differs, and passes the question on when it does not. */
  lemma Field(n: nat, m: nat, w: nat, x: string, y: string)
    requires Fits(m, w)
    ensures n < m ==> LexLess(Digits(n, w) + x, Digits(m, w) + y)
    ensures n == m ==> (LexLess(Digits(n, w) + x, Digits(m, w) + y) <==> LexLess(x, y))
  {
    if n < m {
      DigitsOrder(n, m, w);
      LexDecided(Digits(n, w), Digits(m, w), x, y);
    } else if n == m {
      LexAfterPrefix(Digits(n, w), x, y);
    }
  }

  lemma FitsTwo(n: nat)
    requires n < 100
    ensures Fits(n, 2)
  {
    assert Top(n, 2) == Top(n / 10, 1) == Top(n / 10 / 10, 0);
  }

  lemma FieldsFit(c: Civil)
    requires c.Valid()
    ensures Fits(c.year, 4) && Fits(c.month, 2) && Fits(c.day, 2)
    ensures Fits(c.hour, 2) && Fits(c.minute, 2) && Fits(c.second, 2)
  {
    FitsTwo(c.month);
    FitsTwo(c.day);
    FitsTwo(c.hour);
    FitsTwo(c.minute);
    FitsTwo(c.second);
    FitsTwo(c.year / 100);
    assert c.year / 10 / 10 == c.year / 100;
    assert Top(c.year, 4) == Top(c.year / 10, 3) == Top(c.year / 10 / 10, 2);
  }

  lemma TimeOrder(a: Civil, b: Civil, x: string, y: string)
    requires b.Valid()
    ensures TimeBefore(a, b) ==> LexLess(TimeDigits(a, x), TimeDigits(b, y))
    ensures a.hour == b.hour && a.minute == b.minute && a.second == b.second
            ==> (LexLess(TimeDigits(a, x), TimeDigits(b, y)) <==> LexLess(x, y))
  {
    FieldsFit(b);
    var x2, y2 := "Z-" + x, "Z-" + y;
    var x1, y1 := Digits(a.second, 2) + x2, Digits(b.second, 2) + y2;
    var x0, y0 := Digits(a.minute, 2) + x1, Digits(b.minute, 2) + y1;
    Field(a.hour, b.hour, 2, x0, y0);
    Field(a.minute, b.minute, 2, x1, y1);
    Field(a.second, b.second, 2, x2, y2);
    LexAfterPrefix("Z-", x, y);
  }

  lemma StampOrder(a: Civil, b: Civil, x: string, y: string)
    requires b.Valid()
    ensures CivilBefore(a, b) ==> LexLess(Stamped(a, x), Stamped(b, y))
    ensures a == b ==> (LexLess(Stamped(a, x), Stamped(b, y)) <==> LexLess(x, y))
  {
    FieldsFit(b);
    var x3, y3 := TimeDigits(a, x), TimeDigits(b, y);
    var x2, y2 := "T" + x3, "T" + y3;
    var x1, y1 := Digits(a.day, 2) + x2, Digits(b.day, 2) + y2;
    var x0, y0 := Digits(a.month, 2) + x1, Digits(b.month, 2) + y1;
    Field(a.year, b.year, 4, x0, y0);
    Field(a.month, b.month, 2, x1, y1);
    Field(a.day, b.day, 2, x2, y2);
    LexAfterPrefix("T", x3, y3);
    TimeOrder(a, b, x, y);
  }

  lemma StampAppend(c: Civil, x: string, suffix: string)
    ensures Stamped(c, x) + suffix == Stamped(c, x + suffix)
  {
    assert TimeDigits(c, x) + suffix == TimeDigits(c, x + suffix);
  }

  /** The sidecar of a clip captured in an earlier second is scanned first, whatever the sequence numbers. */
  lemma EarlierSecondFirst(a: Civil, b: Civil, m: u32, n: u32)
    requires a.Valid() && b.Valid() && Seconds(a) < Seconds(b)
    ensures Before(ClipIdOf(a, m), ClipIdOf(b, n))
  {
    CivilIsChronological(a, b);
    var x, y := Digits(m, Width(m)), Digits(n, Width(n));
    StampAppend(a, x, ".json");
    StampAppend(b, y, ".json");
    StampOrder(a, b, x + ".json", y + ".json");
  }

  // ---- Within one second ----

  lemma {:induction false} WidthFits(n: nat)
    ensures Fits(n, Width(n))
  {
    if n >= 1000 {
      WidthFits(n / 10);
    } else {
      assert Top(n, 3) == Top(n / 10, 2) == Top(n / 10 / 10, 1) == Top(n / 10 / 10 / 10, 0);
    }
  }

  lemma {:induction false} WidthGrows(m: nat, n: nat)
    requires m <= n
    ensures Width(m) <= Width(n)
  {
    if m >= 1000 {
      WidthGrows(m / 10, n / 10);
    }
  }

  /** The first w of the w + k digits of n are the digits of n without its last k. */
  lemma {:induction false} DigitsSplit(n: nat, w: nat, k: nat) returns (tail: string)
    ensures |tail| == k && Digits(n, w + k) == Digits(Top(n, k), w) + tail
    ensures k > 0 ==> tail[0] >= '0'
  {
    if k == 0 {
      tail := "";
    } else {
      var t := DigitsSplit(n / 10, w, k - 1);
      tail := t + [Digit(n % 10)];
      assert Digits(n, w + k) == Digits(n / 10, w + (k - 1)) + [Digit(n % 10)];
    }
  }

  lemma {:induction false} TopFits(n: nat, w: nat, k: nat)
    requires Fits(n, w + k)
    ensures Fits(Top(n, k), w)
  {
    if k > 0 {
      TopFits(n / 10, w, k - 1);
    }
  }

  /** Clips of one second are scanned in sequence order exactly when the smaller number is at most the larger one cut to
      as many digits; otherwise they are scanned in the opposite order. */
  lemma WithinOneSecond(c: Civil, m: u32, n: u32)
    requires c.Valid() && m < n
    ensures Width(m) <= Width(n)
    ensures var kept := m <= Top(n, Width(n) - Width(m));
            && (Before(ClipIdOf(c, m), ClipIdOf(c, n)) <==> kept)
            && (Before(ClipIdOf(c, n), ClipIdOf(c, m)) <==> !kept)
  {
    WidthGrows(m, n);
    WidthFits(m);
    WidthFits(n);
    var w, k := Width(m), Width(n) - Width(m);
    var x, y := Digits(m, w), Digits(n, w + k);
    StampAppend(c, x, ".json");
    StampAppend(c, y, ".json");
    StampOrder(c, c, x + ".json", y + ".json");
    StampOrder(c, c, y + ".json", x + ".json");
    NumberOrder(m, n, w, k);
  }

  lemma NumberOrder(m: nat, n: nat, w: nat, k: nat)
    requires m < n && Fits(m, w) && Fits(n, w + k)
    ensures var x, y := Digits(m, w) + ".json", Digits(n, w + k) + ".json";
            && (LexLess(x, y) <==> m <= Top(n, k))
            && (LexLess(y, x) <==> m > Top(n, k))
  {
    var x, y := Digits(m, w) + ".json", Digits(n, w + k) + ".json";
    var tail := DigitsSplit(n, w, k);
    TopFits(n, w, k);
    assert y == Digits(Top(n, k), w) + (tail + ".json");
    Field(m, Top(n, k), w, ".json", tail + ".json");
    Field(Top(n, k), m, w, tail + ".json", ".json");
    assert m == Top(n, k) ==> k > 0 && LexLess(".json", tail + ".json");
    Asymmetric(x, y);
  }

  lemma Asymmetric(x: string, y: string)
    ensures !(LexLess(x, y) && LexLess(y, x))
  {
    LexIrreflexive(x);
    if LexLess(x, y) && LexLess(y, x) {
      LexTransitive(x, y, x);
    }
  }

  /** Sequence order is kept below 1000, and breaks between 999 and 1000. */
  lemma BelowAThousand(c: Civil, m: u32, n: u32)
    requires c.Valid()
    ensures m < n < 1000 ==> Before(ClipIdOf(c, m), ClipIdOf(c, n))
    ensures Before(ClipIdOf(c, 1000), ClipIdOf(c, 999))
  {
    if m < n < 1000 {
      WithinOneSecond(c, m, n);
    }
    WithinOneSecond(c, 999, 1000);
    assert Top(1000, 1) == Top(100, 0) == 100;
    assert Width(1000) == Width(100) + 1;
  }

  /** Different capture seconds or different numbers give different ids. */
  lemma IdsDistinct(a: Civil, b: Civil, m: u32, n: u32)
    requires a.Valid() && b.Valid() && ClipIdOf(a, m) == ClipIdOf(b, n)
    ensures a == b && m == n
  {
    LexIrreflexive(SidecarName(ClipIdOf(a, m)));
    if Seconds(a) < Seconds(b) {
      EarlierSecondFirst(a, b, m, n);
    } else if Seconds(b) < Seconds(a) {
      EarlierSecondFirst(b, a, n, m);
    } else {
      CivilIsChronological(a, b);
      CivilIsChronological(b, a);
      if m < n {
        WithinOneSecond(a, m, n);
      } else if n < m {
        WithinOneSecond(a, n, m);
      }
    }
  }

  /** The entry that PickOldestPending returns is of the earliest capture second among the eligible clips it can read. */
  lemma PickedIsOfEarliestSecond(d: Disk, now: Instant, fails: Faults, picked: ClipId, c: Civil, m: u32,
                                 other: ClipId, o: Civil, n: u32)
    requires forall id :: Pickable(d, id, now, fails) ==> id == picked || Before(picked, id)
    requires c.Valid() && picked == ClipIdOf(c, m)
    requires Pickable(d, other, now, fails) && o.Valid() && other == ClipIdOf(o, n)
    ensures Seconds(c) <= Seconds(o)
    ensures c == o && m < 1000 && n < 1000 ==> m <= n
  {
    if Seconds(o) < Seconds(c) {
      EarlierSecondFirst(o, c, n, m);
    }
    if c == o && n < m < 1000 {
      BelowAThousand(c, n, m);
    }
    LexIrreflexive(SidecarName(picked));
    Asymmetric(SidecarName(picked), SidecarName(other));
  }
}
