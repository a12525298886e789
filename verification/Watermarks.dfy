/** The text a timestamp watermark is stored as. It sorts as the instants do (section 5.1 of
    RFC 3339), reads back, and is stepped back by the overlap window. */
module Watermarks {
  import opened Prelude
  import opened Sql
  import opened Timestamps
  import Replication

  // ---------- digits ----------

  function Pow10(w: nat): (p: nat)
    ensures p > 0
  {
    if w == 0 then 1 else 10 * Pow10(w - 1)
  }

  predicate IsDigit(c: char) {
    '0' <= c <= '9'
  }

  function Digit(d: int): (c: char)
    requires 0 <= d < 10
    ensures IsDigit(c)
  {
    ('0' as int + d) as char
  }

  function DigitValue(c: char): (d: int)
    requires IsDigit(c)
    ensures 0 <= d < 10 && Digit(d) == c
  {
    c as int - '0' as int
  }

  /** The last w decimal digits of n. */
  function Digits(n: nat, w: nat): (s: string)
    ensures |s| == w && forall i :: 0 <= i < w ==> IsDigit(s[i])
  {
    if w == 0 then "" else Digits(n / 10, w - 1) + [Digit(n % 10)]
  }

  function Number(s: string): (n: nat)
    requires forall i :: 0 <= i < |s| ==> IsDigit(s[i])
  {
    if s == "" then 0 else 10 * Number(s[..|s| - 1]) + DigitValue(s[|s| - 1])
  }

  lemma LastDigit(n: nat, p: nat)
    requires n < 10 * p
    ensures n / 10 < p && 0 <= n % 10 < 10 && n == 10 * (n / 10) + n % 10
  {
  }

  lemma LastDigitOf(m: nat, d: nat)
    requires d < 10
    ensures (10 * m + d) / 10 == m && (10 * m + d) % 10 == d
  {
  }

  lemma NumberSnoc(s: string, d: nat)
    requires d < 10 && forall i :: 0 <= i < |s| ==> IsDigit(s[i])
    ensures Number(s + [Digit(d)]) == 10 * Number(s) + d
  {
    assert (s + [Digit(d)])[..|s|] == s;
  }

  lemma {:induction false} ReadDigits(n: nat, w: nat)
    requires n < Pow10(w)
    ensures Number(Digits(n, w)) == n
  {
    if w > 0 {
      LastDigit(n, Pow10(w - 1));
      ReadDigits(n / 10, w - 1);
      NumberSnoc(Digits(n / 10, w - 1), n % 10);
    }
  }

  lemma {:induction false} WriteNumber(s: string)
    requires forall i :: 0 <= i < |s| ==> IsDigit(s[i])
    ensures Number(s) < Pow10(|s|) && Digits(Number(s), |s|) == s
  {
    if s != "" {
      var front, d := s[..|s| - 1], DigitValue(s[|s| - 1]);
      WriteNumber(front);
      LastDigitOf(Number(front), d);
      assert s == front + [Digit(d)];
    }
  }

  // ---------- the order of text ----------

  /** Text of equal length compares first; what follows breaks the tie. */
  lemma {:induction false} LessConcat(a: string, b: string, x: string, y: string)
    requires |a| == |b|
    ensures TextLess(a + x, b + y) <==> TextLess(a, b) || (a == b && TextLess(x, y))
  {
    if a == "" {
      assert a + x == x && b + y == y;
    } else {
      LessConcat(a[1..], b[1..], x, y);
      assert (a + x)[0] == a[0] && (a + x)[1..] == a[1..] + x;
      assert (b + y)[0] == b[0] && (b + y)[1..] == b[1..] + y;
      assert a == [a[0]] + a[1..] && b == [b[0]] + b[1..];
    }
  }

  lemma {:induction false} NotLess(a: string)
    ensures !TextLess(a, a)
  {
    if a != "" {
      NotLess(a[1..]);
    }
  }

  lemma OneCharLess(a: char, b: char)
    ensures TextLess([a], [b]) <==> a < b
  {
    assert !TextLess([a][1..], [b][1..]);
  }

  lemma LastDigitBreaksTies(a: nat, b: nat)
    ensures a < b <==> a / 10 < b / 10 || (a / 10 == b / 10 && a % 10 < b % 10)
  {
  }

  lemma {:induction false} DigitsInOrder(a: nat, b: nat, w: nat)
    requires a < Pow10(w) && b < Pow10(w)
    ensures TextLess(Digits(a, w), Digits(b, w)) <==> a < b
    ensures Digits(a, w) == Digits(b, w) <==> a == b
  {
    ReadDigits(a, w);
    ReadDigits(b, w);
    if w > 0 {
      LastDigit(a, Pow10(w - 1));
      LastDigit(b, Pow10(w - 1));
      LastDigitBreaksTies(a, b);
      DigitsInOrder(a / 10, b / 10, w - 1);
      LessConcat(Digits(a / 10, w - 1), Digits(b / 10, w - 1), [Digit(a % 10)], [Digit(b % 10)]);
      OneCharLess(Digit(a % 10), Digit(b % 10));
    }
  }

  // ---------- fixed-width fields ----------

  /** A zero-padded number and the text that follows it. */
  datatype Field = Field(value: nat, width: nat, sep: string)

  predicate Fits(fs: seq<Field>) {
    forall i :: 0 <= i < |fs| ==> fs[i].value < Pow10(fs[i].width)
  }

  predicate SameShape(fs: seq<Field>, gs: seq<Field>) {
    |fs| == |gs| && forall i :: 0 <= i < |fs| ==> fs[i].width == gs[i].width && fs[i].sep == gs[i].sep
  }

  function Render(fs: seq<Field>): string {
    if fs == [] then "" else Digits(fs[0].value, fs[0].width) + (fs[0].sep + Render(fs[1..]))
  }

  predicate FieldsLess(fs: seq<Field>, gs: seq<Field>)
    requires |fs| == |gs|
  {
    fs != [] && (fs[0].value < gs[0].value || (fs[0].value == gs[0].value && FieldsLess(fs[1..], gs[1..])))
  }

  lemma {:induction false} RenderInOrder(fs: seq<Field>, gs: seq<Field>)
    requires SameShape(fs, gs) && Fits(fs) && Fits(gs)
    ensures TextLess(Render(fs), Render(gs)) <==> FieldsLess(fs, gs)
  {
    if fs != [] {
      var f, g := fs[0], gs[0];
      assert forall i :: 0 <= i < |fs| - 1 ==> fs[1..][i] == fs[i + 1] && gs[1..][i] == gs[i + 1];
      RenderInOrder(fs[1..], gs[1..]);
      DigitsInOrder(f.value, g.value, f.width);
      LessConcat(f.sep, g.sep, Render(fs[1..]), Render(gs[1..]));
      NotLess(f.sep);
      LessConcat(Digits(f.value, f.width), Digits(g.value, g.width), f.sep + Render(fs[1..]), g.sep + Render(gs[1..]));
    }
  }

  predicate AllDigits(s: string) {
    forall i :: 0 <= i < |s| ==> IsDigit(s[i])
  }

  /** Reads the values of the fields of a given shape; nothing may be left over. */
  function Scan(shape: seq<Field>, text: string): Option<seq<Field>> {
    if shape == [] then
      if text == "" then Some([]) else None
    else
      var w, sep := shape[0].width, shape[0].sep;
      if |text| < w + |sep| || !AllDigits(text[..w]) || text[w..w + |sep|] != sep then None
      else match Scan(shape[1..], text[w + |sep|..])
        case None => None
        case Some(rest) => Some([Field(Number(text[..w]), w, sep)] + rest)
  }

  lemma {:induction false} ScanRender(shape: seq<Field>, fs: seq<Field>)
    requires SameShape(shape, fs) && Fits(fs)
    ensures Scan(shape, Render(fs)) == Some(fs)
  {
    hide Digits, Number, Pow10;
    if fs != [] {
      var f, text := fs[0], Render(fs);
      assert forall i :: 0 <= i < |fs| - 1 ==> fs[1..][i] == fs[i + 1] && shape[1..][i] == shape[i + 1];
      ScanRender(shape[1..], fs[1..]);
      ReadDigits(f.value, f.width);
      SplitText(Digits(f.value, f.width), f.sep, Render(fs[1..]));
      assert fs == [f] + fs[1..];
    }
  }

  lemma SplitText(a: string, b: string, c: string)
    ensures var t := a + (b + c);
            t[..|a|] == a && t[|a|..|a| + |b|] == b && t[|a| + |b|..] == c
  {
  }

  lemma {:induction false} RenderScan(shape: seq<Field>, text: string)
    requires Scan(shape, text).Some?
    ensures var fs := Scan(shape, text).value;
            SameShape(shape, fs) && Fits(fs) && Render(fs) == text
  {
    hide Digits, Number, Pow10;
    if shape != [] {
      var w, sep := shape[0].width, shape[0].sep;
      var tail := text[w + |sep|..];
      RenderScan(shape[1..], tail);
      WriteNumber(text[..w]);
      RejoinText(text, w, w + |sep|);
      WithField(shape, Field(Number(text[..w]), w, sep), Scan(shape[1..], tail).value);
    }
  }

  lemma RejoinText(t: string, i: nat, j: nat)
    requires i <= j <= |t|
    ensures t == t[..i] + (t[i..j] + t[j..])
  {
  }

  lemma WithField(shape: seq<Field>, f: Field, rest: seq<Field>)
    requires shape != [] && f.width == shape[0].width && f.sep == shape[0].sep && f.value < Pow10(f.width)
    requires SameShape(shape[1..], rest) && Fits(rest)
    ensures var fs := [f] + rest;
            fs[1..] == rest && SameShape(shape, fs) && Fits(fs)
  {
    var fs := [f] + rest;
    forall i | 0 <= i < |fs|
      ensures fs[i].width == shape[i].width && fs[i].sep == shape[i].sep && fs[i].value < Pow10(fs[i].width)
    {
      if i > 0 {
        assert fs[i] == rest[i - 1] && shape[i] == shape[1..][i - 1];
      }
    }
  }

  // ---------- the layout ----------

  function Layout(year: nat, month: nat, day: nat, hour: nat, minute: nat, second: nat, milli: nat): (fs: seq<Field>)
    ensures |fs| == 7
  {
    [Field(year, 4, "-"), Field(month, 2, "-"), Field(day, 2, " "), Field(hour, 2, ":"),
     Field(minute, 2, ":"), Field(second, 2, "."), Field(milli, 3, "")]
  }

  /** The stamps the layout has room for. */
  predicate Printable(s: Stamp) {
    ValidStamp(s) && 0 <= s.date.year <= 9999
  }

  function FieldsOf(s: Stamp): seq<Field>
    requires ValidStamp(s) && 0 <= s.date.year
  {
    Layout(s.date.year, s.date.month, s.date.day, s.hour, s.minute, s.second, s.milli)
  }

  /** A year before year 0 carries a sign; its digits are those of its distance to 0. */
  function Format(s: Stamp): string
    requires ValidStamp(s)
  {
    if s.date.year >= 0 then Render(FieldsOf(s))
    else "-" + Render(Layout(-s.date.year, s.date.month, s.date.day, s.hour, s.minute, s.second, s.milli))
  }

  function Parse(text: string): Option<Stamp> {
    match Scan(Layout(0, 0, 0, 0, 0, 0, 0), text)
    case None => None
    case Some(fs) =>
      if |fs| != 7 then None
      else
        var s := Stamp(Date(fs[0].value, fs[1].value, fs[2].value), fs[3].value, fs[4].value, fs[5].value, fs[6].value);
        if ValidStamp(s) then Some(s) else None
  }

  lemma Widths()
    ensures Pow10(4) == 10000 && Pow10(3) == 1000 && Pow10(2) == 100
  {
    assert Pow10(1) == 10 && Pow10(2) == 100 && Pow10(3) == 1000;
  }

  lemma LayoutFits(s: Stamp)
    requires Printable(s)
    ensures Fits(FieldsOf(s)) && SameShape(Layout(0, 0, 0, 0, 0, 0, 0), FieldsOf(s))
  {
    Widths();
  }

  lemma FieldByField(fs: seq<Field>, gs: seq<Field>, i: nat)
    requires |fs| == |gs| && i < |fs|
    ensures FieldsLess(fs[i..], gs[i..]) <==>
            fs[i].value < gs[i].value || (fs[i].value == gs[i].value && FieldsLess(fs[i + 1..], gs[i + 1..]))
  {
    assert fs[i..][1..] == fs[i + 1..] && gs[i..][1..] == gs[i + 1..];
  }

  lemma LastFields(fs: seq<Field>, gs: seq<Field>)
    requires |fs| == |gs| == 7
    ensures FieldsLess(fs[3..], gs[3..]) <==>
            fs[3].value < gs[3].value || (fs[3].value == gs[3].value &&
              (fs[4].value < gs[4].value || (fs[4].value == gs[4].value &&
                (fs[5].value < gs[5].value || (fs[5].value == gs[5].value && fs[6].value < gs[6].value)))))
  {
    FieldByField(fs, gs, 3);
    FieldByField(fs, gs, 4);
    FieldByField(fs, gs, 5);
    FieldByField(fs, gs, 6);
    assert !FieldsLess(fs[7..], gs[7..]);
  }

  lemma FirstFields(fs: seq<Field>, gs: seq<Field>)
    requires |fs| == |gs| == 7
    ensures FieldsLess(fs, gs) <==>
            fs[0].value < gs[0].value || (fs[0].value == gs[0].value &&
              (fs[1].value < gs[1].value || (fs[1].value == gs[1].value &&
                (fs[2].value < gs[2].value || (fs[2].value == gs[2].value && FieldsLess(fs[3..], gs[3..]))))))
  {
    assert fs[0..] == fs && gs[0..] == gs;
    FieldByField(fs, gs, 0);
    FieldByField(fs, gs, 1);
    FieldByField(fs, gs, 2);
  }

  lemma LayoutOrder(a: Stamp, b: Stamp)
    requires Printable(a) && Printable(b)
    ensures FieldsLess(FieldsOf(a), FieldsOf(b)) <==> StampLess(a, b)
  {
    FirstFields(FieldsOf(a), FieldsOf(b));
    LastFields(FieldsOf(a), FieldsOf(b));
  }

  /** The layout, field by field: year, month and day, the time of day, and the milliseconds. */
  lemma FormatIs(s: Stamp)
    requires Printable(s)
    ensures Format(s)
            == Digits(s.date.year, 4) + ("-" + (Digits(s.date.month, 2) + ("-" + (Digits(s.date.day, 2) + (" "
               + (Digits(s.hour, 2) + (":" + (Digits(s.minute, 2) + (":" + (Digits(s.second, 2) + ("."
               + Digits(s.milli, 3))))))))))))
  {
    hide Digits;
    var fs := FieldsOf(s);
    RenderFrom(fs, 0);
    RenderFrom(fs, 1);
    RenderFrom(fs, 2);
    RenderFrom(fs, 3);
    RenderFrom(fs, 4);
    RenderFrom(fs, 5);
    RenderFrom(fs, 6);
    assert fs[0..] == fs && fs[7..] == [];
    assert Digits(s.milli, 3) + ("" + "") == Digits(s.milli, 3);
  }

  lemma RenderFrom(fs: seq<Field>, i: nat)
    requires i < |fs|
    ensures Render(fs[i..]) == Digits(fs[i].value, fs[i].width) + (fs[i].sep + Render(fs[i + 1..]))
  {
    assert fs[i..][1..] == fs[i + 1..];
  }

  /** The text of a stamp sorts as its instant, for every year the layout has room for. */
  lemma TextFollowsInstants(a: Stamp, b: Stamp)
    requires Printable(a) && Printable(b)
    ensures TextLess(Format(a), Format(b)) <==> Instant(a) < Instant(b)
    ensures Format(a) == Format(b) <==> Instant(a) == Instant(b)
  {
    LayoutFits(a);
    LayoutFits(b);
    RenderInOrder(FieldsOf(a), FieldsOf(b));
    LayoutOrder(a, b);
    InstantsFollowStamps(a, b);
    ParseFormat(a);
    ParseFormat(b);
  }

  lemma ParseFormat(s: Stamp)
    requires Printable(s)
    ensures Parse(Format(s)) == Some(s)
  {
    LayoutFits(s);
    ScanRender(Layout(0, 0, 0, 0, 0, 0, 0), FieldsOf(s));
  }

  /** Reading inverts writing, and nothing else is read. */
  lemma ParseIff(text: string, s: Stamp)
    ensures Parse(text) == Some(s) <==> Printable(s) && Format(s) == text
  {
    if Parse(text) == Some(s) {
      ParsedIsPrintable(text);
    } else if Printable(s) && Format(s) == text {
      ParseFormat(s);
    }
  }

  lemma ParsedIsPrintable(text: string)
    requires Parse(text).Some?
    ensures Printable(Parse(text).value) && Format(Parse(text).value) == text
  {
    var shape := Layout(0, 0, 0, 0, 0, 0, 0);
    RenderScan(shape, text);
    Widths();
    var fs, s := Scan(shape, text).value, Parse(text).value;
    assert fs[0].width == 4 && fs[0].value < Pow10(4);
    forall i | 0 <= i < 7 ensures fs[i] == FieldsOf(s)[i] {
      assert fs[i].width == shape[i].width && fs[i].sep == shape[i].sep;
    }
    assert fs == FieldsOf(s);
  }

  /** Every day of a civil month is read back up to its last, and no text is read as a later
      one. */
  lemma MonthIsReadToItsEnd(s: Stamp, text: string)
    requires 0 <= s.date.year <= 9999 && 1 <= s.date.month <= 12 && s.date.day >= 1
    requires 0 <= s.hour < 24 && 0 <= s.minute < 60 && 0 <= s.second < 60 && 0 <= s.milli < 1000
    ensures s.date.day <= CivilLength(s.date.year, s.date.month) ==> Printable(s) && Parse(Format(s)) == Some(s)
    ensures s.date.day > CivilLength(s.date.year, s.date.month) ==> Parse(text) != Some(s)
  {
    hide CivilLength, DaysInMonth, Parse, Format;
    ValidDateIff(s.date);
    if ValidDate(s.date) {
      ParseFormat(s);
    } else {
      ParseIff(text, s);
    }
  }

  // ---------- cursors written with an offset ----------

  /** A time as the daemon writes it: a local stamp and an offset east of UTC. */
  datatype Written = Written(local: Stamp, offset: int)

  function Utc(w: Written): int
    requires ValidStamp(w.local)
  {
    Instant(w.local) - w.offset * 60_000
  }

  /** What the normalising expression makes of it. */
  function Normalised(w: Written): string
    requires ValidStamp(w.local)
  {
    Format(StampOf(Utc(w)))
  }

  /** Normalised cursors compare as instants, whatever offsets they were written with. */
  lemma NormalisedOrder(a: Written, b: Written)
    requires ValidStamp(a.local) && ValidStamp(b.local)
    requires Printable(StampOf(Utc(a))) && Printable(StampOf(Utc(b)))
    ensures TextLess(Normalised(a), Normalised(b)) <==> Utc(a) < Utc(b)
    ensures Normalised(a) == Normalised(b) <==> Utc(a) == Utc(b)
  {
    TextFollowsInstants(StampOf(Utc(a)), StampOf(Utc(b)));
  }

  /** The column's own text, the offset spelled in some fixed way. */
  function Raw(w: Written, spell: int -> string): string
    requires ValidStamp(w.local)
  {
    Format(w.local) + spell(w.offset)
  }

  ghost predicate RawOrders(p: int, q: int, spell: int -> string) {
    forall a, b :: Printable(a) && Printable(b) ==>
      (TextLess(Raw(Written(a, p), spell), Raw(Written(b, q), spell)) <==> Utc(Written(a, p)) < Utc(Written(b, q)))
  }

  /** Raw text of two offsets compares as instants only when the offsets are the same. */
  lemma RawOrdersIff(p: int, q: int, spell: int -> string)
    ensures RawOrders(p, q, spell) <==> p == q
  {
    hide Format, TextLess, Days, DateLess;
    if p == q {
      forall a, b | Printable(a) && Printable(b)
        ensures TextLess(Raw(Written(a, p), spell), Raw(Written(b, q), spell))
                <==> Utc(Written(a, p)) < Utc(Written(b, q))
      {
        RawCompare(a, b, spell(p), spell(q));
        NotLess(spell(p));
      }
    } else {
      var early := Stamp(Date(2026, 8, 7), 2, 0, 0, 0);
      var late := Stamp(Date(2026, 8, 7), 2, 0, 0, 1);
      assert Printable(early) && Printable(late) && Instant(late) == Instant(early) + 1;
      var a, b := if p < q then early else late, if p < q then late else early;
      RawCompare(a, b, spell(p), spell(q));
      assert TextLess(Raw(Written(a, p), spell), Raw(Written(b, q), spell)) <==> p < q;
      assert Utc(Written(a, p)) < Utc(Written(b, q)) <==> q < p;
    }
  }

  lemma RawCompare(a: Stamp, b: Stamp, x: string, y: string)
    requires Printable(a) && Printable(b)
    ensures TextLess(Format(a) + x, Format(b) + y)
         <==> Instant(a) < Instant(b) || (Instant(a) == Instant(b) && TextLess(x, y))
  {
    FormatLength(a);
    FormatLength(b);
    LessConcat(Format(a), Format(b), x, y);
    TextFollowsInstants(a, b);
  }

  lemma RenderLength(fs: seq<Field>, i: nat)
    requires i < |fs|
    ensures |Render(fs[i..])| == fs[i].width + |fs[i].sep| + |Render(fs[i + 1..])|
  {
    assert fs[i..][1..] == fs[i + 1..];
  }

  /** The time of day and the milliseconds take twelve characters. */
  lemma TimeLength(fs: seq<Field>)
    requires |fs| == 7 && SameShape(Layout(0, 0, 0, 0, 0, 0, 0), fs)
    ensures |Render(fs[3..])| == 12
  {
    hide Render, Digits;
    var shape := Layout(0, 0, 0, 0, 0, 0, 0);
    RenderLength(fs, 3);
    RenderLength(fs, 4);
    RenderLength(fs, 5);
    RenderLength(fs, 6);
    NothingRendered(fs[7..]);
    assert shape[3].width == shape[4].width == shape[5].width == 2 && shape[6].width == 3;
  }

  lemma NothingRendered(fs: seq<Field>)
    requires fs == []
    ensures Render(fs) == ""
  {
  }

  lemma FormatLength(s: Stamp)
    requires Printable(s)
    ensures |Format(s)| == 23
  {
    hide Render, Digits;
    var fs := FieldsOf(s);
    TimeLength(fs);
    RenderLength(fs, 0);
    RenderLength(fs, 1);
    RenderLength(fs, 2);
    assert fs[0..] == fs;
  }

  // ---------- the overlap window ----------

  const MS := 1_000_000

  /** Steps a timestamp watermark back by a duration in nanoseconds; the layout keeps whole
      milliseconds. Every other watermark is left alone. */
  function Back(mark: string, timestamp: bool, overlap: int): string {
    if mark == "" || !timestamp then mark
    else match Parse(mark)
      case None => mark
      case Some(s) => Format(StampOf((Instant(s) * MS - overlap) / MS))
  }

  lemma NegativeFirst(s: Stamp, t: Stamp)
    requires ValidStamp(s) && s.date.year < 0 && Printable(t)
    ensures TextLess(Format(s), Format(t)) && Instant(s) < Instant(t)
  {
    InstantsFollowStamps(s, t);
    FormatLength(t);
    assert Format(t)[0] == Digits(t.date.year, 4)[0];
    assert Format(s)[0] == '-';
  }

  lemma Compare(r: Stamp, c: Stamp)
    requires ValidStamp(r) && r.date.year <= 9999 && Printable(c)
    ensures TextLess(Format(r), Format(c)) <==> Instant(r) < Instant(c)
    ensures Format(r) == Format(c) <==> Instant(r) == Instant(c)
    ensures TextLess(Format(c), Format(r)) <==> Instant(c) < Instant(r)
  {
    if r.date.year >= 0 {
      TextFollowsInstants(r, c);
      TextFollowsInstants(c, r);
    } else {
      NegativeFirst(r, c);
      LessIsOneWay(Format(r), Format(c));
    }
  }

  lemma {:induction false} LessIsOneWay(a: string, b: string)
    requires TextLess(a, b)
    ensures !TextLess(b, a) && a != b
  {
    if a != "" && a[0] == b[0] {
      LessIsOneWay(a[1..], b[1..]);
    }
  }

  /** The millisecond at or below an instant moved back by a duration. */
  function Floor(s: Stamp, overlap: int): (t: int)
    requires ValidStamp(s)
    ensures t * 1_000_000 <= Instant(s) * 1_000_000 - overlap < (t + 1) * 1_000_000
    ensures 0 < overlap ==> t < Instant(s)
  {
    (Instant(s) * MS - overlap) / MS
  }

  lemma BackText(mark: string, overlap: int)
    requires Parse(mark).Some?
    ensures Back(mark, true, overlap) == Format(StampOf(Floor(Parse(mark).value, overlap)))
  {
    hide Parse, Format;
    ParsedIsPrintable(mark);
    FormatLength(Parse(mark).value);
  }

  lemma BackYear(s: Stamp, overlap: int)
    requires Printable(s) && 0 < overlap
    ensures StampOf(Floor(s, overlap)).date.year <= 9999
  {
    InstantsFollowStamps(StampOf(Floor(s, overlap)), s);
  }

  /** A well-formed watermark moves to the millisecond at or below (instant - overlap), and
      so strictly down; the rows then selected by `cursor >= Back(mark)` are exactly those
      at or after that instant. */
  lemma BackWidens(mark: string, overlap: int, c: Stamp)
    requires Parse(mark).Some? && 0 < overlap <= MAX_DURATION && Printable(c)
    ensures TextLess(Back(mark, true, overlap), mark)
    ensures var floor := Floor(Parse(mark).value, overlap);
            && (!TextLess(Format(c), Back(mark, true, overlap)) <==> Instant(c) >= floor)
            && (Printable(StampOf(floor)) ==> Parse(Back(mark, true, overlap)) == Some(StampOf(floor)))
  {
    ParsedIsPrintable(mark);
    var s := Parse(mark).value;
    var r := StampOf(Floor(s, overlap));
    BackText(mark, overlap);
    BackYear(s, overlap);
    Compare(r, s);
    Compare(r, c);
    if Printable(r) {
      ParseFormat(r);
    }
  }

  /** Only a readable timestamp watermark moves: an empty, integer or unreadable one is
      handed back as it is. */
  lemma BackMovesIff(mark: string, timestamp: bool, overlap: int)
    requires 0 < overlap <= MAX_DURATION
    ensures Back(mark, timestamp, overlap) != mark <==> timestamp && Parse(mark).Some?
  {
    if timestamp && Parse(mark).Some? {
      ParsedIsPrintable(mark);
      BackWidens(mark, overlap, Parse(mark).value);
      NotLess(mark);
    }
  }

  /** Whole milliseconds that cover a duration. */
  function Millis(overlap: int): (n: nat)
    requires 0 < overlap
    ensures n * 1_000_000 >= overlap > (n - 1) * 1_000_000
  {
    (overlap + MS - 1) / MS
  }

  /** A watermark at the first midnight of a month, stepped back by up to a day, falls on the
      civil last day of the month before. */
  lemma BackOverMonthEnd(y: int, m: int, overlap: int)
    requires 1 <= m <= 12 && 0 <= NextFirst(y, m).0 <= 9999 && 0 < overlap <= DAY_MS * MS
    ensures var s := Stamp(Date(NextFirst(y, m).0, NextFirst(y, m).1, 1), 0, 0, 0, 0);
            var r := StampOf(Instant(s) - Millis(overlap));
            && Printable(s) && Back(Format(s), true, overlap) == Format(r)
            && r.date == Date(y, m, CivilLength(y, m)) && Clock(r) == DAY_MS - Millis(overlap)
  {
    hide CivilLength, DateOf, DaysInMonth, Parse, Format, Back, NextFirst, Days, Clock, Floor, Millis;
    DayBeforeFirst(y, m);
    var first := Date(NextFirst(y, m).0, NextFirst(y, m).1, 1);
    var s := Stamp(first, 0, 0, 0, 0);
    Midnight(first);
    ParseFormat(s);
    BackText(Format(s), overlap);
    FloorIsBack(Instant(s), overlap, Floor(s, overlap), Millis(overlap));
    WithinADay(overlap);
    DayBefore(Days(first), Millis(overlap));
  }

  lemma Midnight(d: Date)
    requires ValidDate(d)
    ensures Instant(Stamp(d, 0, 0, 0, 0)) == Days(d) * DAY_MS
  {
  }

  lemma WithinADay(overlap: int)
    requires 0 < overlap <= DAY_MS * MS
    ensures 1 <= Millis(overlap) <= DAY_MS
  {
  }

  /** Up to a day before the start of a day is the day before. */
  lemma DayBefore(day: int, n: int)
    requires 1 <= n <= DAY_MS
    ensures var r := StampOf(day * DAY_MS - n); r.date == DateOf(day - 1) && Clock(r) == DAY_MS - n
  {
    hide DateOf, Days, DaysInMonth;
    var r := StampOf(day * DAY_MS - n);
    ClockBound(r);
    assert Days(r.date) * DAY_MS + Clock(r) == (day - 1) * DAY_MS + (DAY_MS - n);
    SameDay(Days(r.date), Clock(r), day - 1, DAY_MS - n);
    DaysFollowDates(r.date, DateOf(day - 1));
  }

  lemma SameDay(a: int, x: int, b: int, y: int)
    requires 0 <= x < DAY_MS && 0 <= y < DAY_MS && a * DAY_MS + x == b * DAY_MS + y
    ensures a == b && x == y
  {
  }

  /** The text comparison the query makes is the comparison of instants the replication model
      makes, with the overlap window rounded up to whole milliseconds. */
  lemma TextSelectsAsInstants(t: Replication.Table, mark: string, overlap: int, c: Stamp, r: Replication.Row)
    requires t.follow.Mutable? && 0 < overlap <= MAX_DURATION && t.overlap == Millis(overlap)
    requires Parse(mark).Some? && Printable(c) && r.cursor == Some(Instant(c))
    ensures !TextLess(Format(c), Back(mark, true, overlap)) <==>
            Replication.Selects(t, Replication.Advance(Replication.Back(t, Instant(Parse(mark).value)), true), r)
  {
    BackWidens(mark, overlap, c);
    var s := Parse(mark).value;
    FloorIsBack(Instant(s), overlap, Floor(s, overlap), Millis(overlap));
  }

  lemma FloorIsBack(i: int, overlap: int, floor: int, n: int)
    requires floor * MS <= i * MS - overlap < (floor + 1) * MS
    requires n * MS >= overlap > (n - 1) * MS
    ensures floor == i - n
  {
  }
}
