/** Names of log files: one per run, in an order that text alone tells. */
module Logging {
  import opened Common
  import opened Text
  import opened Calendar

  // ---- text order -------------------------------------------------------

  /** Strings in the order of their characters. */
  predicate Less(a: string, b: string) {
    b != "" && (a == "" || a[0] < b[0] || (a[0] == b[0] && Less(a[1..], b[1..])))
  }

  lemma {:induction false} LessIrreflexive(a: string)
    ensures !Less(a, a)
  {
    if a != "" { LessIrreflexive(a[1..]); }
  }

  lemma {:induction false} LessTransitive(a: string, b: string, c: string)
    requires Less(a, b) && Less(b, c)
    ensures Less(a, c)
  {
    if a != "" && a[0] == b[0] && b[0] == c[0] { LessTransitive(a[1..], b[1..], c[1..]); }
  }

  lemma {:induction false} LessTotal(a: string, b: string)
    ensures a == b || Less(a, b) || Less(b, a)
  {
    if a != "" && b != "" && a[0] == b[0] {
      LessTotal(a[1..], b[1..]);
      assert a == [a[0]] + a[1..] && b == [b[0]] + b[1..];
    }
  }

  /** What comes first decides. */
  lemma {:induction false} LessFirst(a: string, b: string, x: string, y: string)
    requires |a| == |b| && Less(a, b)
    ensures Less(a + x, b + y)
  {
    assert (a + x)[0] == a[0] && (b + y)[0] == b[0];
    if a[0] == b[0] {
      LessFirst(a[1..], b[1..], x, y);
      assert (a + x)[1..] == a[1..] + x && (b + y)[1..] == b[1..] + y;
    }
  }

  /** When it is the same, the rest decides. */
  lemma {:induction false} LessRest(a: string, x: string, y: string)
    requires Less(x, y)
    ensures Less(a + x, a + y)
  {
    if a == "" {
      assert a + x == x && a + y == y;
    } else {
      LessRest(a[1..], x, y);
      assert (a + x)[1..] == a[1..] + x && (a + y)[1..] == a[1..] + y;
    }
  }

  // ---- padded numbers ---------------------------------------------------

  function Zeros(n: nat): (z: string)
    ensures |z| == n
  {
    seq(n, _ => '0')
  }

  /** `{n:0w}`. */
  function Padded(n: nat, w: nat): string { Zeros(SatSub(w, |Decimal(n)|)) + Decimal(n) }

  function Pow10(k: nat): nat { if k == 0 then 1 else 10 * Pow10(k - 1) }

  /** The last `w` digits. */
  function Digits(n: nat, w: nat): (s: string)
    ensures |s| == w
  {
    if w == 0 then "" else Digits(n / 10, w - 1) + [DigitChar(n % 10)]
  }

  lemma {:induction false} ZeroDigits(w: nat)
    ensures Digits(0, w) == Zeros(w)
  {
    if w > 0 {
      ZeroDigits(w - 1);
      assert Zeros(w - 1) + ['0'] == Zeros(w);
    }
  }

  /** A number that fits is padded to its digits. */
  lemma {:induction false} PaddedIs(n: nat, w: nat)
    requires w > 0 && n < Pow10(w)
    ensures Padded(n, w) == Digits(n, w) && |Decimal(n)| <= w
  {
    if n < 10 {
      ZeroDigits(w - 1);
      assert Zeros(w - 1) + [DigitChar(n)] == Padded(n, w);
    } else {
      assert w > 1;
      PaddedIs(n / 10, w - 1);
      assert Zeros(w - |Decimal(n)|) + (Decimal(n / 10) + [DigitChar(n % 10)])
          == (Zeros(w - |Decimal(n)|) + Decimal(n / 10)) + [DigitChar(n % 10)];
    }
  }

  lemma DigitOrder(a: nat, b: nat)
    requires a < b < 10
    ensures Less([DigitChar(a)], [DigitChar(b)])
  {
  }

  /** With as many digits, a smaller number is smaller text. */
  lemma {:induction false} DigitsOrder(a: nat, b: nat, w: nat)
    requires a < b < Pow10(w)
    ensures Less(Digits(a, w), Digits(b, w))
  {
    var x, y := [DigitChar(a % 10)], [DigitChar(b % 10)];
    if a / 10 < b / 10 {
      DigitsOrder(a / 10, b / 10, w - 1);
      LessFirst(Digits(a / 10, w - 1), Digits(b / 10, w - 1), x, y);
    } else {
      DigitOrder(a % 10, b % 10);
      LessRest(Digits(a / 10, w - 1), x, y);
    }
  }

  lemma PaddedOrder(a: nat, b: nat, w: nat)
    requires w > 0 && a < b < Pow10(w)
    ensures |Padded(a, w)| == |Padded(b, w)| && Less(Padded(a, w), Padded(b, w))
  {
    PaddedIs(a, w);
    PaddedIs(b, w);
    DigitsOrder(a, b, w);
  }

  lemma PaddedLength(n: nat, w: nat)
    requires w > 0 && n < Pow10(w)
    ensures |Padded(n, w)| == w
  {
    PaddedIs(n, w);
  }

  // ---- the parts of a time ----------------------------------------------

  const DAY: nat := 86_400
  datatype Parts = Parts(date: Date, hour: nat, minute: nat, second: nat)

  function PartsOf(secs: nat): Parts {
    var rest := secs % DAY;
    Parts(CivilFromDays(secs / DAY), rest / 3600, rest % 3600 / 60, rest % 60)
  }

  predicate Earlier(a: Parts, b: Parts) {
    Before(a.date, b.date)
    || (a.date == b.date && (a.hour < b.hour || (a.hour == b.hour && (a.minute < b.minute
        || (a.minute == b.minute && a.second < b.second)))))
  }

  /** The first second of year 10000. */
  const YEAR_10000: nat := 253_402_300_800

  lemma ClockFits(rest: nat)
    requires rest < DAY
    ensures rest / 3600 < 24 && rest % 3600 / 60 < 60
    ensures rest == rest / 3600 * 3600 + rest % 3600 / 60 * 60 + rest % 60
  {
  }

  /** Times before year 10000 have parts of the widths their text gives them. */
  predicate Fits(p: Parts) {
    && 0 <= p.date.year < 10000 && 1 <= p.date.month <= 12 && 1 <= p.date.day <= 31
    && p.hour < 24 && p.minute < 60 && p.second < 60
  }

  /** No day the clock can tell is before the epoch. */
  lemma AfterEpoch(days: nat)
    ensures var d := CivilFromDays(days); Valid(d) && d.year >= 1970
  {
    CivilIsRight(days);
    CivilOfEpoch();
    if days > 0 { CivilMonotone(0, days); }
  }

  lemma YearFits(days: nat)
    requires days < 2_932_897
    ensures CivilFromDays(days).year < 10000
  {
    var d := CivilFromDays(days);
    CivilIsRight(days);
    MonthFits(d);
    LastYear();
    if d.year >= 10000 { DaysToYearMonotone(10000, d.year); }
  }

  lemma LastYear()
    ensures DaysToYear(10000) - DaysToYear(1970) == 2_932_897
  {
    DaysToYearIs(10000);
    assert Fours(10000) == 2500 && Hundreds(10000) == 100 && FourHundreds(10000) == 25;
    EpochYear();
  }

  lemma PartsFit(secs: nat)
    requires secs < YEAR_10000
    ensures Fits(PartsOf(secs)) && Valid(PartsOf(secs).date)
  {
    YearFits(secs / DAY);
    AfterEpoch(secs / DAY);
    ClockFits(secs % DAY);
  }

  /** Hours, minutes and seconds of two counts within a day, in order. */
  lemma ClockMonotone(a: nat, b: nat)
    requires a < b < DAY
    ensures var h, m, s := a / 3600, a % 3600 / 60, a % 60; var h', m', s' := b / 3600, b % 3600 / 60, b % 60;
      h < h' || (h == h' && (m < m' || (m == m' && s < s')))
  {
    ClockFits(a);
    ClockFits(b);
  }

  lemma DayAndRest(a: nat, b: nat)
    requires a < b
    ensures a / DAY < b / DAY || (a / DAY == b / DAY && a % DAY < b % DAY)
  {
  }

  /** A later second has later parts. */
  lemma PartsMonotone(a: nat, b: nat)
    requires a < b
    ensures Earlier(PartsOf(a), PartsOf(b))
  {
    DayAndRest(a, b);
    if a / DAY < b / DAY {
      CivilMonotone(a / DAY, b / DAY);
    } else {
      ClockMonotone(a % DAY, b % DAY);
    }
  }

  // ---- names ------------------------------------------------------------

  function DateText(d: Date): string
    requires d.year >= 0 && d.month >= 0 && d.day >= 0
  {
    Padded(d.year, 4) + (Padded(d.month, 2) + Padded(d.day, 2))
  }

  function ClockText(p: Parts): string { Padded(p.hour, 2) + (Padded(p.minute, 2) + Padded(p.second, 2)) }

  lemma DateReadable(secs: nat)
    ensures var d := PartsOf(secs).date; d.year >= 0 && d.month >= 0 && d.day >= 0
  {
    AfterEpoch(secs / DAY);
  }

  function FileStamp(secs: nat): string {
    DateReadable(secs);
    DateText(PartsOf(secs).date) + (['-'] + ClockText(PartsOf(secs)))
  }

  const LOG := ".log"

  function LogName(app: string, secs: nat, pid: nat): string {
    app + (['-'] + (FileStamp(secs) + (['-'] + Padded(pid, 5) + LOG)))
  }

  lemma Widths()
    ensures Pow10(2) == 100 && Pow10(4) == 10000
  {
    assert Pow10(3) == 10 * Pow10(2);
  }

  /** One more field in front: it decides, unless it is the same. */
  lemma FieldOrder(a: nat, b: nat, w: nat, x: string, y: string)
    requires w > 0 && a < Pow10(w) && b < Pow10(w) && (a < b || (a == b && Less(x, y)))
    ensures Less(Padded(a, w) + x, Padded(b, w) + y)
  {
    if a < b {
      PaddedOrder(a, b, w);
      LessFirst(Padded(a, w), Padded(b, w), x, y);
    } else {
      LessRest(Padded(a, w), x, y);
    }
  }

  lemma DateTextOrder(a: Parts, b: Parts)
    requires Fits(a) && Fits(b) && Before(a.date, b.date)
    ensures Less(DateText(a.date), DateText(b.date))
  {
    Widths();
    var x, y := a.date, b.date;
    if x.year == y.year && x.month == y.month { PaddedOrder(x.day, y.day, 2); }
    if x.year == y.year { FieldOrder(x.month, y.month, 2, Padded(x.day, 2), Padded(y.day, 2)); }
    FieldOrder(x.year, y.year, 4, Padded(x.month, 2) + Padded(x.day, 2), Padded(y.month, 2) + Padded(y.day, 2));
  }

  lemma ClockTextOrder(a: Parts, b: Parts)
    requires Fits(a) && Fits(b) && a.date == b.date && Earlier(a, b)
    ensures Less(ClockText(a), ClockText(b))
  {
    Widths();
    if a.hour == b.hour && a.minute == b.minute { PaddedOrder(a.second, b.second, 2); }
    if a.hour == b.hour { FieldOrder(a.minute, b.minute, 2, Padded(a.second, 2), Padded(b.second, 2)); }
    FieldOrder(a.hour, b.hour, 2, Padded(a.minute, 2) + Padded(a.second, 2), Padded(b.minute, 2) + Padded(b.second, 2));
  }

  lemma DateTextLength(p: Parts)
    requires Fits(p)
    ensures |DateText(p.date)| == 8 && |ClockText(p)| == 6
  {
    Widths();
    PaddedLength(p.date.year, 4);
    PaddedLength(p.date.month, 2);
    PaddedLength(p.date.day, 2);
    PaddedLength(p.hour, 2);
    PaddedLength(p.minute, 2);
    PaddedLength(p.second, 2);
  }

  /** Before year 10000, a later second has a later stamp, of the same length. */
  lemma StampOrder(a: nat, b: nat)
    requires a < b < YEAR_10000
    ensures |FileStamp(a)| == |FileStamp(b)| && Less(FileStamp(a), FileStamp(b))
  {
    var p, q := PartsOf(a), PartsOf(b);
    PartsFit(a);
    PartsFit(b);
    PartsMonotone(a, b);
    DateTextLength(p);
    DateTextLength(q);
    DateReadable(a);
    DateReadable(b);
    var x, y := ['-'] + ClockText(p), ['-'] + ClockText(q);
    if Before(p.date, q.date) {
      DateTextOrder(p, q);
      LessFirst(DateText(p.date), DateText(q.date), x, y);
    } else {
      ClockTextOrder(p, q);
      LessRest(['-'], ClockText(p), ClockText(q));
      LessRest(DateText(p.date), x, y);
    }
  }

  /** The names of an application's logs sort by time, whatever the process ids. */
  lemma NamesSortByTime(app: string, a: nat, b: nat, p: nat, q: nat)
    requires a < b < YEAR_10000
    ensures Less(LogName(app, a, p), LogName(app, b, q))
  {
    var x, y := ['-'] + Padded(p, 5) + LOG, ['-'] + Padded(q, 5) + LOG;
    StampOrder(a, b);
    LessFirst(FileStamp(a), FileStamp(b), x, y);
    LessRest(['-'], FileStamp(a) + x, FileStamp(b) + y);
    LessRest(app, ['-'] + (FileStamp(a) + x), ['-'] + (FileStamp(b) + y));
  }

  // ---- pruning ----------------------------------------------------------

  predicate EndsWith(s: string, end: string) { |s| >= |end| && s[|s| - |end|..] == end }

  predicate Ours(app: string, name: string) { app + ['-'] <= name && EndsWith(name, LOG) }

  predicate Sorted(names: seq<string>) { forall i, j :: 0 <= i < j < |names| ==> !Less(names[j], names[i]) }

  function Filtered(app: string, names: seq<string>): seq<string> {
    if names == [] then []
    else
      var front, name := Filtered(app, names[..|names| - 1]), names[|names| - 1];
      if Ours(app, name) then front + [name] else front
  }

  /** Where a name goes among sorted ones: behind those not above it. */
  function Place(names: seq<string>, name: string): (i: nat)
    ensures i <= |names|
  {
    if names == [] then 0
    else if Less(name, names[|names| - 1]) then Place(names[..|names| - 1], name)
    else |names|
  }

  lemma {:induction false} PlaceIs(names: seq<string>, name: string)
    requires Sorted(names)
    ensures var i := Place(names, name);
      (forall k :: i <= k < |names| ==> Less(name, names[k])) && (i > 0 ==> !Less(name, names[i - 1]))
  {
    if names != [] && Less(name, names[|names| - 1]) { PlaceIs(names[..|names| - 1], name); }
  }

  lemma InsertSorted(names: seq<string>, name: string)
    requires Sorted(names)
    ensures Sorted(Splice(names, Place(names, name), name))
  {
    var p := Place(names, name);
    var all := Splice(names, p, name);
    PlaceIs(names, name);
    SpliceAt(names, p, name);
    forall k | p <= k < |names| ensures !Less(names[k], name) { NotBelow(name, names[k]); }
    forall k | 0 <= k < p ensures !Less(name, names[k]) { BelowPlace(names, name, k); }
    forall i, j | 0 <= i < j < |all| ensures !Less(all[j], all[i]) {
      var x := if i < p then i else i - 1;
      var y := if j < p then j else j - 1;
      if i != p && j != p { assert all[i] == names[x] && all[j] == names[y] && x < y; }
    }
  }

  lemma SpliceBag(names: seq<string>, p: nat, name: string)
    requires p <= |names|
    ensures multiset(Splice(names, p, name)) == multiset(names) + multiset{name}
  {
    assert names == names[..p] + names[p..];
  }

  lemma NotBelow(a: string, b: string)
    requires Less(a, b)
    ensures !Less(b, a)
  {
    if Less(b, a) {
      LessTransitive(a, b, a);
      LessIrreflexive(a);
    }
  }

  lemma BelowPlace(names: seq<string>, name: string, i: nat)
    requires Sorted(names) && i < Place(names, name)
    ensures !Less(name, names[i])
  {
    var p := Place(names, name);
    PlaceIs(names, name);
    if Less(name, names[i]) {
      if i < p - 1 {
        LessTotal(names[i], names[p - 1]);
        if Less(names[i], names[p - 1]) { LessTransitive(name, names[i], names[p - 1]); }
      }
    }
  }

  method SortNames(names: seq<string>) returns (sorted: seq<string>)
    ensures Sorted(sorted) && multiset(sorted) == multiset(names)
  {
    sorted := [];
    for i := 0 to |names|
      invariant Sorted(sorted) && multiset(sorted) == multiset(names[..i])
    {
      var p := Place(sorted, names[i]);
      InsertSorted(sorted, names[i]);
      SpliceBag(sorted, p, names[i]);
      sorted := sorted[..p] + [names[i]] + sorted[p..];
      assert names[..i + 1] == names[..i] + [names[i]];
    }
    assert names[..|names|] == names;
  }

  /** A split of names: the surplus over `keep`, in order, and what is kept, none of
      it below any of the surplus. */
  predicate Surplus(all: seq<string>, keep: nat, out: seq<string>, kept: seq<string>) {
    && multiset(out) + multiset(kept) == multiset(all) && |out| == SatSub(|all|, keep) && Sorted(out)
    && forall i, j :: 0 <= i < |out| && 0 <= j < |kept| ==> !Less(kept[j], out[i])
  }

  ghost predicate Prunes(app: string, names: seq<string>, keep: nat, out: seq<string>) {
    exists kept: seq<string> :: Surplus(Filtered(app, names), keep, out, kept)
  }

  method Prunable(app: string, names: seq<string>, keep: nat) returns (out: seq<string>)
    ensures Prunes(app, names, keep, out)
  {
    var ours: seq<string> := [];
    for i := 0 to |names|
      invariant ours == Filtered(app, names[..i])
    {
      assert names[..i + 1][..i] == names[..i];
      if Ours(app, names[i]) { ours := ours + [names[i]]; }
    }
    assert names[..|names|] == names;
    var sorted := SortNames(ours);
    var excess := SatSub(|ours|, keep);
    SizeOf(sorted, ours);
    out := sorted[..excess];
    FirstPrunes(ours, keep, sorted, excess);
  }

  lemma FirstPrunes(all: seq<string>, keep: nat, sorted: seq<string>, excess: nat)
    requires Sorted(sorted) && multiset(sorted) == multiset(all)
    requires |sorted| == |all| && excess == SatSub(|sorted|, keep)
    ensures Surplus(all, keep, sorted[..excess], sorted[excess..])
  {
    var out, kept := sorted[..excess], sorted[excess..];
    assert sorted == out + kept;
    assert forall i :: 0 <= i < |out| ==> out[i] == sorted[i];
    assert forall j :: 0 <= j < |kept| ==> kept[j] == sorted[excess + j];
  }

  lemma SizeOf(a: seq<string>, b: seq<string>)
    requires multiset(a) == multiset(b)
    ensures |a| == |b|
  {
    assert |multiset(a)| == |a| && |multiset(b)| == |b|;
  }

  lemma {:induction false} FilteredHas(app: string, names: seq<string>, name: string)
    ensures name in Filtered(app, names) <==> name in names && Ours(app, name)
  {
    if names != [] {
      FilteredHas(app, names[..|names| - 1], name);
      assert names == names[..|names| - 1] + [names[|names| - 1]];
    }
  }

  lemma Framed(app: string, middle: string)
    ensures Ours(app, app + (['-'] + (middle + LOG)))
  {
    var name := app + (['-'] + (middle + LOG));
    assert name[..|app| + 1] == app + ['-'];
    assert name[|name| - 4..] == LOG;
  }

  lemma NameIsOurs(app: string, secs: nat, pid: nat)
    ensures Ours(app, LogName(app, secs, pid))
  {
    var stamp, tail := FileStamp(secs), ['-'] + Padded(pid, 5);
    Framed(app, stamp + tail);
    Reassociate(stamp, tail, LOG);
  }

  /** Only names of ours are pruned, and no run that is kept is older than one that is
      pruned: for logs of runs before year 10000, whatever else is in the directory. */
  lemma PrunesOldest(app: string, names: seq<string>, keep: nat, out: seq<string>, a: nat, p: nat, b: nat, q: nat)
    requires Prunes(app, names, keep, out) && a < YEAR_10000 && b < YEAR_10000
    requires LogName(app, a, p) in out && LogName(app, b, q) in names && LogName(app, b, q) !in out
    ensures a <= b
  {
    var x, y := LogName(app, a, p), LogName(app, b, q);
    var kept :| Surplus(Filtered(app, names), keep, out, kept);
    NameIsOurs(app, b, q);
    FilteredHas(app, names, y);
    assert y in multiset(Filtered(app, names));
    assert y in multiset(kept);
    var i :| 0 <= i < |out| && out[i] == x;
    var j :| 0 <= j < |kept| && kept[j] == y;
    if b < a { NamesSortByTime(app, b, a, q, p); }
  }

  /** Nothing else is ever pruned. */
  lemma PrunesOurs(app: string, names: seq<string>, keep: nat, out: seq<string>, name: string)
    requires Prunes(app, names, keep, out) && name in out
    ensures name in names && Ours(app, name)
  {
    FilteredHas(app, names, name);
    assert name in multiset(out);
    assert name in multiset(Filtered(app, names));
  }

  // ---- whose logs are taken for ours ------------------------------------

  lemma ConcatPrefix(a: string, x: string, y: string)
    ensures a + x <= a + y <==> x <= y
    ensures a + x == a + y <==> x == y
  {
    assert (a + x)[|a|..] == x && (a + y)[|a|..] == y;
    if x <= y { assert (a + y)[..|a + x|] == a + x; }
    if a + x <= a + y { assert x == (a + y)[..|a + x|][|a|..] == y[..|x|]; }
  }

  lemma LongWord(x: string, d: string, t: string)
    requires |x| > |d| && x + ['-'] <= d + (['-'] + t)
    ensures d + ['-'] <= x
  {
    var text := d + (['-'] + t);
    assert x[..|d| + 1] == (x + ['-'])[..|d| + 1] == text[..|d| + 1] == d + ['-'];
  }

  /** A word and a dash begin a dashed text in one of three ways: the word is the part
      before the dash, or it ends inside that part, or past it. */
  lemma DashBegins(x: string, d: string, t: string)
    ensures x + ['-'] <= d + (['-'] + t) <==>
      || x == d
      || x + ['-'] <= d
      || (d + ['-'] <= x && x[|d| + 1..] + ['-'] <= t)
  {
    var text := d + (['-'] + t);
    if |x| < |d| {
      assert text[..|x| + 1] == d[..|x| + 1];
    } else if |x| == |d| {
      assert text[..|x| + 1] == d + ['-'];
      assert (x + ['-'])[..|x|] == x;
    } else {
      if x + ['-'] <= text { LongWord(x, d, t); }
      if d + ['-'] <= x {
        assert x + ['-'] == (d + ['-']) + (x[|d| + 1..] + ['-']) && text == (d + ['-']) + t;
        ConcatPrefix(d + ['-'], x[|d| + 1..] + ['-'], t);
      }
    }
  }

  lemma DashInside(x: string, d: string)
    ensures x + ['-'] <= d ==> '-' in d
  {
    if x + ['-'] <= d { assert d[|x|] == (x + ['-'])[|x|] == '-'; }
  }

  lemma DigitsNoDash(n: nat, w: nat)
    ensures '-' !in Padded(n, w)
  {
    assert forall c :: c in Decimal(n) ==> IsDigit(c);
  }

  lemma StampNoDash(p: Parts, pid: nat)
    requires p.date.year >= 0 && p.date.month >= 0 && p.date.day >= 0
    ensures '-' !in DateText(p.date) && '-' !in ClockText(p) && '-' !in Padded(pid, 5) + LOG
  {
    DigitsNoDash(p.date.year, 4);
    DigitsNoDash(p.date.month, 2);
    DigitsNoDash(p.date.day, 2);
    DigitsNoDash(p.hour, 2);
    DigitsNoDash(p.minute, 2);
    DigitsNoDash(p.second, 2);
    DigitsNoDash(pid, 5);
  }

  /** What can stand before a dash in the rest of a name: the date, or the stamp. */
  lemma StampBegins(x: string, d: string, c: string, e: string)
    requires '-' !in d && '-' !in c && '-' !in e
    ensures x + ['-'] <= d + (['-'] + (c + (['-'] + e))) <==> x == d || x == d + (['-'] + c)
  {
    DashBegins(x, d, c + (['-'] + e));
    DashInside(x, d);
    assert d + (['-'] + c) == (d + ['-']) + c;
    if d + ['-'] <= x {
      var y := x[|d| + 1..];
      assert x == (d + ['-']) + y;
      DashBegins(y, c, e);
      DashInside(y, c);
      if c + ['-'] <= y { DashInside(y[|c| + 1..], e); }
    }
  }

  /** What can stand before a dash in a whole name. */
  lemma NameBegins(app: string, other: string, d: string, c: string, e: string)
    requires '-' !in d && '-' !in c && '-' !in e
    ensures app + ['-'] <= other + (['-'] + (d + (['-'] + (c + (['-'] + e))))) <==>
      || app == other
      || app + ['-'] <= other
      || app == other + (['-'] + d)
      || app == other + (['-'] + (d + (['-'] + c)))
  {
    DashBegins(app, other, d + (['-'] + (c + (['-'] + e))));
    assert other + (['-'] + d) == (other + ['-']) + d;
    assert other + (['-'] + (d + (['-'] + c))) == (other + ['-']) + (d + (['-'] + c));
    if other + ['-'] <= app {
      var x := app[|other| + 1..];
      assert app == (other + ['-']) + x;
      StampBegins(x, d, c, e);
      ConcatPrefix(other + ['-'], x, d);
      ConcatPrefix(other + ['-'], x, d + (['-'] + c));
    }
  }

  lemma NameParts(app: string, secs: nat, pid: nat)
    requires PartsOf(secs).date.year >= 0 && PartsOf(secs).date.month >= 0 && PartsOf(secs).date.day >= 0
    ensures var p := PartsOf(secs);
      && FileStamp(secs) == DateText(p.date) + (['-'] + ClockText(p))
      && LogName(app, secs, pid)
         == app + (['-'] + (DateText(p.date) + (['-'] + (ClockText(p) + (['-'] + (Padded(pid, 5) + LOG))))))
  {
    var p := PartsOf(secs);
    Reassociate(DateText(p.date), ['-'] + ClockText(p), ['-'] + (Padded(pid, 5) + LOG));
    Reassociate(['-'], ClockText(p), ['-'] + (Padded(pid, 5) + LOG));
    Reassociate(['-'], Padded(pid, 5), LOG);
  }

  /** Ownership is by prefix: a log of another application is taken for ours exactly
      when the names are the same, ours is a dash-separated beginning of the other, or
      ours is the other with the date, or the date and time, of that log behind it. */
  lemma OwnershipExactly(app: string, other: string, secs: nat, pid: nat)
    ensures PartsOf(secs).date.year >= 0 && PartsOf(secs).date.month >= 0 && PartsOf(secs).date.day >= 0
    ensures Ours(app, LogName(other, secs, pid)) <==>
      || app == other
      || app + ['-'] <= other
      || app == other + (['-'] + DateText(PartsOf(secs).date))
      || app == other + (['-'] + FileStamp(secs))
  {
    hide LogName, FileStamp, DateText, ClockText, Padded, PartsOf;
    DateReadable(secs);
    var p := PartsOf(secs);
    NameIsOurs(other, secs, pid);
    NameParts(other, secs, pid);
    StampNoDash(p, pid);
    NameBegins(app, other, DateText(p.date), ClockText(p), Padded(pid, 5) + LOG);
  }

  /** Two concrete pairs: the sender's log is taken for that of an application called
      `castr`, and a `castr` log of the first day for that of one named after the day. */
  lemma OwnershipSurprises(pid: nat)
    ensures Ours("castr", LogName("castr-sender", 0, pid))
    ensures Ours("castr-19700101", LogName("castr", 0, pid))
  {
    hide Ours, LogName, FileStamp, DateText, PartsOf;
    OwnershipExactly("castr", "castr-sender", 0, pid);
    OwnershipExactly("castr-19700101", "castr", 0, pid);
    FirstDay();
    Spelled();
  }

  lemma Spelled()
    ensures "castr" + ['-'] <= "castr-sender"
    ensures "castr-19700101" == "castr" + (['-'] + "19700101")
  {
  }

  lemma FirstDay()
    ensures PartsOf(0).date == Date(1970, 1, 1) && DateText(PartsOf(0).date) == "19700101"
  {
    EpochParts();
    EpochText();
  }

  lemma EpochParts()
    ensures PartsOf(0).date == Date(1970, 1, 1)
  {
    CivilOfEpoch();
  }

  lemma EpochText()
    ensures DateText(Date(1970, 1, 1)) == "19700101"
  {
    hide Padded;
    EpochYearText();
    EpochMonthText();
  }

  lemma EpochYearText()
    ensures Padded(1970, 4) == "1970"
  {
    assert Decimal(1) == "1" && Decimal(19) == "19" && Decimal(197) == "197" && Decimal(1970) == "1970";
    assert Zeros(0) == "";
  }

  lemma EpochMonthText()
    ensures Padded(1, 2) == "01"
  {
    assert Decimal(1) == "1";
    assert Zeros(1) == "0";
  }
}
