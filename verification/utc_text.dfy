/** UTC timestamps as the stores print them: fixed-width text whose order is time order.

    An instant is a whole number of microseconds since 1000-01-01T00:00:00Z. */
module UtcText {
  import opened Ordering

  const SECOND := 1_000_000
  const MINUTE := 60_000_000
  const DAY := 86_400_000_000

  // ------------------------------------------------------------- calendar

  datatype Date = Date(year: nat, month: nat, day: nat)

  predicate Leap(y: nat) { y % 4 == 0 && (y % 100 != 0 || y % 400 == 0) }

  function DaysInMonth(y: nat, m: nat): nat {
    if m == 2 then (if Leap(y) then 29 else 28)
    else if m == 4 || m == 6 || m == 9 || m == 11 then 30 else 31
  }

  predicate RealDate(d: Date) {
    1000 <= d.year && 1 <= d.month <= 12 && 1 <= d.day <= DaysInMonth(d.year, d.month)
  }

  function NextDate(d: Date): Date {
    if d.day < DaysInMonth(d.year, d.month) then d.(day := d.day + 1)
    else if d.month < 12 then Date(d.year, d.month + 1, 1)
    else Date(d.year + 1, 1, 1)
  }

  /** The calendar date n days after 1000-01-01. */
  function DateOf(n: nat): (d: Date)
    ensures RealDate(d)
  {
    if n == 0 then Date(1000, 1, 1) else NextDate(DateOf(n - 1))
  }

  function DaysBeforeMonth(y: nat, m: nat): nat
    requires 1 <= m <= 12
  {
    [0, 31, 59, 90, 120, 151, 181, 212, 243, 273, 304, 334][m - 1] + (if m > 2 && Leap(y) then 1 else 0)
  }

  /** Proleptic ordinal, as `datetime.toordinal` counts. */
  function Ordinal(d: Date): int
    requires 1 <= d.year && 1 <= d.month <= 12
  {
    var y := d.year - 1;
    365 * y + y / 4 - y / 100 + y / 400 + DaysBeforeMonth(d.year, d.month) + d.day
  }

  lemma MonthsAbut(y: nat, m: nat)
    requires 1 <= m < 12
    ensures DaysBeforeMonth(y, m + 1) == DaysBeforeMonth(y, m) + DaysInMonth(y, m)
  {
  }

  lemma QuotientStep(y: nat, k: nat)
    requires y >= 1 && k >= 1
    ensures y / k == (y - 1) / k + (if y % k == 0 then 1 else 0)
  {
    var q, r := y / k, y % k;
    assert y == q * k + r;
    if r == 0 {
      assert y - 1 == (q - 1) * k + (k - 1);
      QuotientIs(y - 1, k, q - 1, k - 1);
    } else {
      assert y - 1 == q * k + (r - 1);
      QuotientIs(y - 1, k, q, r - 1);
    }
  }

  lemma QuotientIs(n: nat, k: nat, q: int, r: nat)
    requires k >= 1 && n == q * k + r && r < k
    ensures n / k == q
  {
    var d := n / k - q;
    assert n == (n / k) * k + n % k;
    assert d * k == r - n % k;
    MultipleSize(d, k);
  }

  lemma MultipleSize(d: int, k: int)
    requires k >= 1
    ensures d >= 1 ==> d * k >= k
    ensures d <= -1 ==> d * k <= -k
  {
  }

  lemma YearsAbut(y: nat)
    requires y >= 1
    ensures y / 4 - y / 100 + y / 400 == (y - 1) / 4 - (y - 1) / 100 + (y - 1) / 400 + (if Leap(y) then 1 else 0)
  {
    QuotientStep(y, 4);
    QuotientStep(y, 100);
    QuotientStep(y, 400);
    CenturyRule(y);
  }

  lemma CenturyRule(y: nat)
    ensures y % 400 == 0 ==> y % 100 == 0
    ensures y % 100 == 0 ==> y % 4 == 0
  {
    var q, c := y / 400, y / 100;
    if y % 400 == 0 { QuotientIs(y, 100, 4 * q, 0); }
    if y % 100 == 0 { QuotientIs(y, 4, 25 * c, 0); }
  }

  lemma OrdinalOfNext(d: Date)
    requires RealDate(d)
    ensures Ordinal(NextDate(d)) == Ordinal(d) + 1
  {
    if d.day < DaysInMonth(d.year, d.month) {
    } else if d.month < 12 {
      MonthsAbut(d.year, d.month);
    } else {
      YearsAbut(d.year);
    }
  }

  const EPOCH_ORDINAL := 364_878

  /** Counting days forward and the closed-form ordinal agree. */
  lemma {:induction false} OrdinalOfDateOf(n: nat)
    ensures Ordinal(DateOf(n)) == EPOCH_ORDINAL + n
  {
    if n > 0 {
      OrdinalOfDateOf(n - 1);
      OrdinalOfNext(DateOf(n - 1));
    }
  }

  // ------------------------------------------------------ fixed-width numbers

  function Pow10(w: nat): nat { if w == 0 then 1 else 10 * Pow10(w - 1) }

  function Digit(n: nat): char
    requires n < 10
  {
    '0' + n as char
  }

  predicate IsDigit(c: char) { '0' <= c <= '9' }

  /** n in decimal, zero-padded to w digits. */
  function Pad(n: nat, w: nat): (s: string)
    ensures |s| == w
    ensures forall i :: 0 <= i < w ==> IsDigit(s[i])
  {
    if w == 0 then "" else Pad(n / 10, w - 1) + [Digit(n % 10)]
  }

  function Value(s: string): nat
    requires forall i :: 0 <= i < |s| ==> IsDigit(s[i])
  {
    if s == "" then 0 else
      assert IsDigit(s[|s| - 1]);
      10 * Value(s[..|s| - 1]) + (s[|s| - 1] as int - '0' as int)
  }

  lemma {:induction false} ValueOfPad(n: nat, w: nat)
    requires n < Pow10(w)
    ensures Value(Pad(n, w)) == n
  {
    if w > 0 {
      ValueOfPad(n / 10, w - 1);
      assert Pad(n, w)[..w - 1] == Pad(n / 10, w - 1);
    }
  }

  lemma {:induction false} PadOrder(n: nat, m: nat, w: nat)
    requires n < Pow10(w) && m < Pow10(w)
    ensures TextLess(Pad(n, w), Pad(m, w)) <==> n < m
    ensures Pad(n, w) == Pad(m, w) <==> n == m
  {
    ValueOfPad(n, w);
    ValueOfPad(m, w);
    if w > 0 {
      PadOrder(n / 10, m / 10, w - 1);
      TextLessConcat(Pad(n / 10, w - 1), Pad(m / 10, w - 1), [Digit(n % 10)], [Digit(m % 10)]);
    }
  }

  // ------------------------------------------------------------ field lists

  /** Numbers in fixed-width decimal, each followed by its separator. */
  function Render(ns: seq<nat>, ws: seq<nat>, seps: string): (s: string)
    requires |ns| == |ws| == |seps|
  {
    if ns == [] then "" else Pad(ns[0], ws[0]) + [seps[0]] + Render(ns[1..], ws[1..], seps[1..])
  }

  predicate AllFit(ns: seq<nat>, ws: seq<nat>)
    requires |ns| == |ws|
  {
    forall i :: 0 <= i < |ns| ==> ns[i] < Pow10(ws[i])
  }

  predicate NatsLess(a: seq<nat>, b: seq<nat>)
    requires |a| == |b|
  {
    a != [] && (a[0] < b[0] || (a[0] == b[0] && NatsLess(a[1..], b[1..])))
  }

  lemma {:induction false} RenderOrder(a: seq<nat>, b: seq<nat>, ws: seq<nat>, seps: string)
    requires |a| == |b| == |ws| == |seps| && AllFit(a, ws) && AllFit(b, ws)
    ensures TextLess(Render(a, ws, seps), Render(b, ws, seps)) <==> NatsLess(a, b)
    ensures Render(a, ws, seps) == Render(b, ws, seps) <==> a == b
  {
    if a != [] {
      assert AllFit(a[1..], ws[1..]) && AllFit(b[1..], ws[1..]);
      RenderOrder(a[1..], b[1..], ws[1..], seps[1..]);
      assert a[0] < Pow10(ws[0]) && b[0] < Pow10(ws[0]);
      PadOrder(a[0], b[0], ws[0]);
      var p, q := Pad(a[0], ws[0]), Pad(b[0], ws[0]);
      var r, s := Render(a[1..], ws[1..], seps[1..]), Render(b[1..], ws[1..], seps[1..]);
      TextLessConcat(p + [seps[0]], q + [seps[0]], r, s);
      TextLessConcat(p, q, [seps[0]], [seps[0]]);
      assert (p + [seps[0]] + r)[..ws[0] + 1] == p + [seps[0]];
      assert (q + [seps[0]] + s)[..ws[0] + 1] == q + [seps[0]];
      assert (p + [seps[0]])[..ws[0]] == p && (q + [seps[0]])[..ws[0]] == q;
      assert (p + [seps[0]] + r)[ws[0] + 1..] == r && (q + [seps[0]] + s)[ws[0] + 1..] == s;
      assert a == [a[0]] + a[1..] && b == [b[0]] + b[1..];
    }
  }

  datatype Option<+T> = None | Some(value: T)

  /** Read fixed-width fields back; anything but digits and the exact separators is refused. */
  function ReadFields(s: string, ws: seq<nat>, seps: string): (r: Option<seq<nat>>)
    requires |ws| == |seps|
    ensures r.Some? ==> |r.value| == |ws|
  {
    if ws == [] then (if s == "" then Some([]) else None)
    else if |s| <= ws[0] || s[ws[0]] != seps[0] then None
    else if exists i :: 0 <= i < ws[0] && !IsDigit(s[i]) then None
    else
      match ReadFields(s[ws[0] + 1..], ws[1..], seps[1..])
      case None => None
      case Some(rest) => Some([Value(s[..ws[0]])] + rest)
  }

  lemma {:induction false} ReadsBack(ns: seq<nat>, ws: seq<nat>, seps: string)
    requires |ns| == |ws| == |seps| && AllFit(ns, ws)
    ensures ReadFields(Render(ns, ws, seps), ws, seps) == Some(ns)
  {
    if ns != [] {
      assert AllFit(ns[1..], ws[1..]);
      ReadsBack(ns[1..], ws[1..], seps[1..]);
      assert ns[0] < Pow10(ws[0]);
      ValueOfPad(ns[0], ws[0]);
      var s := Render(ns, ws, seps);
      assert s[..ws[0]] == Pad(ns[0], ws[0]);
      assert s[ws[0] + 1..] == Render(ns[1..], ws[1..], seps[1..]);
      assert ns == [ns[0]] + ns[1..];
    }
  }

  // -------------------------------------------------------------- timestamps

  type Instant = nat

  /** Instants whose year has four digits, the range of the fixed-width print. */
  predicate Printable(t: Instant) { DateOf(t / DAY).year <= 9999 }

  function Clock(t: Instant): (c: seq<nat>)
    ensures |c| == 4
  {
    var r := t % DAY;
    [r / (60 * MINUTE), r / MINUTE % 60, r / SECOND % 60, r % SECOND]
  }

  function Fields(t: Instant): (f: seq<nat>)
    ensures |f| == 7
  {
    var d := DateOf(t / DAY);
    [d.year, d.month, d.day] + Clock(t)
  }

  const WIDTHS: seq<nat> := [4, 2, 2, 2, 2, 2, 6]
  const SEPARATORS: string := "--T::.Z"

  /** `strftime("%Y-%m-%dT%H:%M:%S.%fZ")`: every field is followed by its
      separator, and the last separator is the Z. */
  function Print(t: Instant): string {
    Render(Fields(t), WIDTHS, SEPARATORS)
  }

  /** The reader of the stored form: fields, then the calendar. */
  function Parse(s: string): Option<Instant> {
    match ReadFields(s, WIDTHS, SEPARATORS)
    case None => None
    case Some(f) =>
      var d := Date(f[0], f[1], f[2]);
      if !RealDate(d) || f[3] > 23 || f[4] > 59 || f[5] > 59 then None
      else if Ordinal(d) < EPOCH_ORDINAL then None
      else
        Some((Ordinal(d) - EPOCH_ORDINAL) * DAY
             + f[3] * 60 * MINUTE + f[4] * MINUTE + f[5] * SECOND + f[6])
  }

  lemma ClockRebuilds(t: Instant)
    ensures var c := Clock(t);
      && c[0] <= 23 && c[1] <= 59 && c[2] <= 59 && c[3] < SECOND
      && t % DAY == c[0] * 60 * MINUTE + c[1] * MINUTE + c[2] * SECOND + c[3]
  {
    var r := t % DAY;
    var seconds := r / SECOND;
    var minutes, hours := seconds / 60, seconds / 60 / 60;
    assert r == seconds * SECOND + r % SECOND;
    assert seconds == minutes * 60 + seconds % 60 && minutes == hours * 60 + minutes % 60;
    assert r / MINUTE == minutes;
    assert r / (60 * MINUTE) == hours;
  }

  lemma FieldsFit(t: Instant)
    requires Printable(t)
    ensures AllFit(Fields(t), WIDTHS)
  {
    ClockRebuilds(t);
    assert Pow10(2) == 100;
    assert Pow10(4) == 100 * Pow10(2);
    assert Pow10(6) == 100 * Pow10(4);
  }

  /** A stored timestamp reads back as the instant it was printed from. */
  lemma ParseInvertsPrint(t: Instant)
    requires Printable(t)
    ensures Parse(Print(t)) == Some(t)
  {
    FieldsFit(t);
    ReadsBack(Fields(t), WIDTHS, SEPARATORS);
    ClockRebuilds(t);
    OrdinalOfDateOf(t / DAY);
  }

  lemma {:induction false} NatsLessConcat(a: seq<nat>, b: seq<nat>, c: seq<nat>, d: seq<nat>)
    requires |a| == |b| && |c| == |d|
    ensures NatsLess(a + c, b + d) <==> NatsLess(a, b) || (a == b && NatsLess(c, d))
  {
    if a == [] {
      assert a + c == c && b + d == d;
    } else {
      assert (a + c)[1..] == a[1..] + c && (b + d)[1..] == b[1..] + d;
      NatsLessConcat(a[1..], b[1..], c, d);
      assert a == [a[0]] + a[1..] && b == [b[0]] + b[1..];
    }
  }

  function DateFields(d: Date): (f: seq<nat>)
    ensures |f| == 3
  {
    [d.year, d.month, d.day]
  }

  lemma DateFieldsLess(a: Date, b: Date)
    ensures NatsLess(DateFields(a), DateFields(b)) <==>
            a.year < b.year || (a.year == b.year && (a.month < b.month || (a.month == b.month && a.day < b.day)))
  {
    var x, y := DateFields(a), DateFields(b);
    assert x[1..] == [a.month, a.day] && y[1..] == [b.month, b.day];
    assert x[1..][1..] == [a.day] && y[1..][1..] == [b.day];
    assert NatsLess([a.day], [b.day]) <==> a.day < b.day;
  }

  lemma {:induction false} LaterDaysPrintLater(n: nat, m: nat)
    requires n < m
    ensures NatsLess(DateFields(DateOf(n)), DateFields(DateOf(m)))
    decreases m - n
  {
    var b, c := DateOf(m - 1), DateOf(m);
    DateFieldsLess(b, c);
    if n < m - 1 {
      LaterDaysPrintLater(n, m - 1);
      DateFieldsLess(DateOf(n), b);
      DateFieldsLess(DateOf(n), c);
    }
  }

  lemma ClockOrder(t: Instant, u: Instant)
    ensures NatsLess(Clock(t), Clock(u)) <==> t % DAY < u % DAY
  {
    ClockRebuilds(t);
    ClockRebuilds(u);
    var a, b := Clock(t), Clock(u);
    assert a[1..][1..][1..] == [a[3]] && b[1..][1..][1..] == [b[3]];
    assert a[1..][1..] == [a[2], a[3]] && b[1..][1..] == [b[2], b[3]];
    assert a[1..] == [a[1], a[2], a[3]] && b[1..] == [b[1], b[2], b[3]];
    assert NatsLess([a[3]], [b[3]]) <==> a[3] < b[3];
    assert NatsLess([a[2], a[3]], [b[2], b[3]]) <==> a[2] < b[2] || (a[2] == b[2] && a[3] < b[3]);
    assert NatsLess(a[1..], b[1..]) <==>
           a[1] < b[1] || (a[1] == b[1] && (a[2] < b[2] || (a[2] == b[2] && a[3] < b[3])));
  }

  /** String order of the print is time order, the fact `c.expires_at_utc <= cutoff` rests on. */
  lemma PrintOrder(t: Instant, u: Instant)
    requires Printable(t) && Printable(u)
    ensures TextAtMost(Print(t), Print(u)) <==> t <= u
    ensures Print(t) == Print(u) <==> t == u
  {
    ParseInvertsPrint(t);
    ParseInvertsPrint(u);
    FieldsFit(t);
    FieldsFit(u);
    RenderOrder(Fields(t), Fields(u), WIDTHS, SEPARATORS);
    var p, q := DateFields(DateOf(t / DAY)), DateFields(DateOf(u / DAY));
    NatsLessConcat(p, q, Clock(t), Clock(u));
    ClockOrder(t, u);
    if t / DAY < u / DAY {
      LaterDaysPrintLater(t / DAY, u / DAY);
    } else if u / DAY < t / DAY {
      LaterDaysPrintLater(u / DAY, t / DAY);
      NatsLessAsymmetric(q, p);
    } else {
      NatsLessAsymmetric(p, p);
    }
  }

  lemma {:induction false} NatsLessAsymmetric(a: seq<nat>, b: seq<nat>)
    requires |a| == |b|
    ensures NatsLess(a, b) ==> a != b && !NatsLess(b, a)
  {
    if a != [] {
      NatsLessAsymmetric(a[1..], b[1..]);
    }
  }
}
