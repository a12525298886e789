/** Injected columns: what does not depend on a row is computed once, the rest row by row.
    The split changes no value and no error. */
module Enrich {
  import opened Prelude
  import opened Templates

  /** How instants are written and read; the driver's business. */
  datatype Clock = Clock(format: int -> string, parse: string -> Option<int>)

  /** What a template reads that is not in the row. `env` is the environment. */
  datatype Context = Context(instance: string, table: string, now: int, env: map<string, string>, clock: Clock)

  /** A row as the page query returns it: rendered values under column names. */
  datatype Record = Record(columns: seq<string>, values: seq<string>)

  predicate WellFormed(r: Record) {
    |r.columns| == |r.values|
  }

  const NO_ROW := Record([], [])

  datatype Failure = NotInRow(column: string) | NotKnown(body: string)

  datatype PgType = TimestampTZ | TextType | Other(name: string)

  /** `declared` is the type the configuration states, if any. */
  datatype Extra = Extra(name: string, template: string, declared: Option<PgType>)

  datatype Datum = Instant(at: int) | Written(text: string)

  datatype Field = Field(name: string, pgType: PgType, constant: Datum, template: string, perRow: bool)

  // ---------- expansion ----------

  function Find(columns: seq<string>, name: string): (i: nat)
    ensures i <= |columns| && name !in columns[..i] && (i < |columns| ==> columns[i] == name)
    ensures i < |columns| <==> name in columns
  {
    if columns == [] || columns[0] == name then 0 else 1 + Find(columns[1..], name)
  }

  /** The text a placeholder stands for, or why there is none. */
  function Fill(ctx: Context, r: Record, body: string): Result<string, Failure>
    requires WellFormed(r)
  {
    match TermOf(body)
    case Now => Ok(ctx.clock.format(ctx.now))
    case TableName => Ok(ctx.table)
    case InstanceName => Ok(ctx.instance)
    case Env(name) => Ok(if name in ctx.env then ctx.env[name] else "")
    case Column(name) =>
      var i := Find(r.columns, name);
      if i < |r.columns| then Ok(r.values[i]) else Err(NotInRow(name))
    case Unknown(b) => Err(NotKnown(b))
  }

  /** Every placeholder is replaced; the last one that cannot be is reported. */
  function Expand(template: string, ctx: Context, r: Record): Result<string, Failure>
    requires WellFormed(r)
    decreases |template|
  {
    match Leftmost(template)
    case None => Ok(template)
    case Some(p) =>
      match (Fill(ctx, r, p.body), Expand(p.after, ctx, r))
      case (_, Err(e)) => Err(e)
      case (Err(e), Ok(_)) => Err(e)
      case (Ok(x), Ok(rest)) => Ok(p.before + x + rest)
  }

  function ResolvedType(e: Extra): PgType {
    match e.declared
    case Some(k) => k
    case None => if TrimSpace(e.template) == "${now}" then TimestampTZ else TextType
  }

  function Coerce(text: string, k: PgType, ctx: Context): Datum {
    if !k.TimestampTZ? then Written(text)
    else match ctx.clock.parse(text)
      case Some(at) => Instant(at)
      case None => Instant(ctx.now)
  }

  /** Expanding and coercing on the row itself: what a column is meant to hold. */
  function Direct(e: Extra, ctx: Context, r: Record): Result<Datum, Failure>
    requires WellFormed(r)
  {
    match Expand(e.template, ctx, r)
    case Err(f) => Err(f)
    case Ok(text) => Ok(Coerce(text, ResolvedType(e), ctx))
  }

  // ---------- what the words mean ----------

  /** A placeholder's word, with any white space around it, stands for the instant of the pass,
      the table, the instance, an environment variable, empty when unset, or the row's first
      column of that name, an error when there is none. */
  lemma WordsMean(ctx: Context, row: Record, l: string, r: string, name: string)
    requires WellFormed(row) && Blank(l) && Blank(r) && (name == "" || !IsSpace(name[|name| - 1]))
    ensures Fill(ctx, row, l + ("now" + r)) == Ok(ctx.clock.format(ctx.now))
    ensures Fill(ctx, row, l + ("table" + r)) == Ok(ctx.table)
    ensures Fill(ctx, row, l + ("source.instance" + r)) == Ok(ctx.instance)
    ensures Fill(ctx, row, l + ("env:" + name + r)) == Ok(if name in ctx.env then ctx.env[name] else "")
    ensures name !in row.columns ==> Fill(ctx, row, l + ("row." + name + r)) == Err(NotInRow(name))
    ensures forall i | 0 <= i < |row.columns| && row.columns[i] == name && name !in row.columns[..i] ::
              Fill(ctx, row, l + ("row." + name + r)) == Ok(row.values[i])
  {
    hide TrimSpace, Blank, TermOf;
    PlainTerms(l, r);
    NamedTerms(l, name, r);
  }

  lemma PlainTerms(l: string, r: string)
    requires Blank(l) && Blank(r)
    ensures TermOf(l + ("now" + r)) == Now && TermOf(l + ("table" + r)) == TableName
    ensures TermOf(l + ("source.instance" + r)) == InstanceName
  {
    hide TrimSpace, Blank;
    TrimPadded(l, "now", r);
    TrimPadded(l, "table", r);
    TrimPadded(l, "source.instance", r);
  }

  lemma NamedTerms(l: string, name: string, r: string)
    requires Blank(l) && Blank(r) && (name == "" || !IsSpace(name[|name| - 1]))
    ensures TermOf(l + ("env:" + name + r)) == Env(name) && TermOf(l + ("row." + name + r)) == Column(name)
  {
    hide TrimSpace, Blank;
    TrimPadded(l, "env:" + name, r);
    TrimPadded(l, "row." + name, r);
    var e, c := "env:" + name, "row." + name;
    assert e[0] == 'e' && e[..4] == "env:" && e[4..] == name;
    assert c[0] == 'r' && c[..4] == "row." && c[4..] == name;
  }

  /** A column whose type is not declared is a timestamptz when its template is the bare
      placeholder for now, white space aside, and text otherwise. */
  lemma InferredTypeIff(e: Extra)
    requires e.declared.None?
    ensures ResolvedType(e) == TimestampTZ <==> exists l, r :: Blank(l) && Blank(r) && e.template == l + ("${now}" + r)
    ensures ResolvedType(e) != TimestampTZ ==> ResolvedType(e) == TextType
  {
    hide TrimSpace, Blank;
    var l, r := TrimSplits(e.template);
    if l', r' :| Blank(l') && Blank(r') && e.template == l' + ("${now}" + r') {
      TrimPadded(l', "${now}", r');
    }
  }

  /** A template of literal text around one placeholder, as a column of a declared type holds it:
      the whole text, or for a timestamptz its instant, or that of the pass when it has none. */
  lemma OneWordColumn(e: Extra, before: string, body: string, after: string, ctx: Context, row: Record)
    requires WellFormed(row) && FirstOpen(before) == |before| && '}' !in body && Leftmost(after).None?
    requires e.template == Joined(before, body, after) && Fill(ctx, row, body).Ok?
    ensures var text := before + Fill(ctx, row, body).value + after;
            && (e.declared.Some? && !e.declared.value.TimestampTZ? ==> Direct(e, ctx, row) == Ok(Written(text)))
            && (e.declared == Some(TimestampTZ) ==>
                  && (ctx.clock.parse(text).Some? ==> Direct(e, ctx, row) == Ok(Instant(ctx.clock.parse(text).value)))
                  && (ctx.clock.parse(text).None? ==> Direct(e, ctx, row) == Ok(Instant(ctx.now))))
  {
    hide Leftmost, TermOf, Joined, Fill, FirstOpen;
    ExpandInPlace(before, body, after, ctx, row);
  }

  // ---------- partial evaluation ----------

  lemma FillNoRow(ctx: Context, r: Record, q: Record, body: string)
    requires WellFormed(r) && WellFormed(q) && !TermOf(body).Column?
    ensures Fill(ctx, r, body) == Fill(ctx, q, body)
  {
    hide TermOf;
  }

  predicate ReadsNoRow(bodies: seq<string>) {
    forall i :: 0 <= i < |bodies| ==> !TermOf(bodies[i]).Column?
  }

  lemma ReadsNoRowCons(body: string, rest: seq<string>)
    requires ReadsNoRow([body] + rest)
    ensures !TermOf(body).Column? && ReadsNoRow(rest)
  {
    hide TermOf;
    var bodies := [body] + rest;
    assert bodies[0] == body && forall i :: 0 <= i < |rest| ==> bodies[i + 1] == rest[i];
  }

  /** A template without row references expands alike on every row. */
  lemma {:induction false} NoRefsNoRow(template: string, ctx: Context, r: Record, q: Record)
    requires WellFormed(r) && WellFormed(q) && ReadsNoRow(Bodies(template))
    ensures Expand(template, ctx, r) == Expand(template, ctx, q)
    decreases |template|
  {
    hide TermOf, Leftmost, Fill, ReadsNoRow;
    match Leftmost(template) {
      case None =>
      case Some(p) =>
        ReadsNoRowCons(p.body, Bodies(p.after));
        FillNoRow(ctx, r, q, p.body);
        NoRefsNoRow(p.after, ctx, r, q);
    }
  }

  predicate PerRow(e: Extra) {
    RowRefs(Bodies(e.template)) != []
  }

  /** The error a field that reads no row meets when it is prepared, if any. */
  function EarlyError(e: Extra, ctx: Context): Option<Failure> {
    if PerRow(e) then None
    else match Expand(e.template, ctx, NO_ROW)
      case Ok(_) => None
      case Err(f) => Some(f)
  }

  /** A field prepared from an extra under a context. */
  predicate Prepared(f: Field, e: Extra, ctx: Context) {
    && f.name == e.name && f.pgType == ResolvedType(e) && f.perRow == PerRow(e)
    && (if PerRow(e) then f.template == e.template
        else
          var text := Expand(e.template, ctx, NO_ROW);
          text.Ok? && f.constant == Coerce(text.value, f.pgType, ctx))
  }

  method PrepareOne(e: Extra, ctx: Context) returns (r: Result<Field, Failure>)
    ensures r.Ok? ==> Prepared(r.value, e, ctx)
    ensures r.Ok? <==> EarlyError(e, ctx).None?
    ensures r.Err? ==> EarlyError(e, ctx) == Some(r.error)
  {
    hide Expand, ResolvedType, Coerce, Bodies, RowRefs;
    var refs := References(e.template);
    if |refs| > 0 {
      return Ok(Field(e.name, ResolvedType(e), Written(""), e.template, true));
    }
    var expanded := Expand(e.template, ctx, NO_ROW);
    if expanded.Err? { return Err(expanded.error); }
    return Ok(Field(e.name, ResolvedType(e), Coerce(expanded.value, ResolvedType(e), ctx), "", false));
  }

  /** Prepares the fields in order, up to the first that fails; `r.error` says which. */
  method PrepareAll(fields: seq<Extra>, ctx: Context) returns (r: Result<seq<Field>, (nat, Failure)>)
    ensures r.Ok? ==> |r.value| == |fields| && forall i :: 0 <= i < |fields| ==> Prepared(r.value[i], fields[i], ctx)
    ensures r.Err? ==> r.error.0 < |fields| && EarlyError(fields[r.error.0], ctx) == Some(r.error.1)
    ensures r.Err? ==> forall i :: 0 <= i < r.error.0 ==> EarlyError(fields[i], ctx).None?
  {
    hide Prepared, EarlyError;
    var out := [];
    for i := 0 to |fields|
      invariant |out| == i
      invariant forall j :: 0 <= j < i ==> Prepared(out[j], fields[j], ctx) && EarlyError(fields[j], ctx).None?
    {
      var f := PrepareOne(fields[i], ctx);
      if f.Err? { return Err((i, f.error)); }
      out := out + [f.value];
    }
    return Ok(out);
  }

  function ValueOf(f: Field, ctx: Context, r: Record): Result<Datum, Failure>
    requires WellFormed(r)
  {
    if !f.perRow then Ok(f.constant)
    else match Expand(f.template, ctx, r)
      case Err(e) => Err(e)
      case Ok(text) => Ok(Coerce(text, f.pgType, ctx))
  }

  lemma NotPerRow(e: Extra, ctx: Context, r: Record)
    requires !PerRow(e) && WellFormed(r)
    ensures Expand(e.template, ctx, r) == Expand(e.template, ctx, NO_ROW)
  {
    hide TermOf, Bodies;
    forall i | 0 <= i < |Bodies(e.template)| ensures !TermOf(Bodies(e.template)[i]).Column? {
      var k := TermOf(Bodies(e.template)[i]);
      if k.Column? {
        RowRefsAre(Bodies(e.template), k.name);
      }
    }
    NoRefsNoRow(e.template, ctx, r, NO_ROW);
  }

  /** A prepared field gives, on every row, what direct evaluation gives: the same value or
      the same error. */
  lemma PreparedIsDirect(f: Field, e: Extra, ctx: Context, r: Record)
    requires Prepared(f, e, ctx) && WellFormed(r)
    ensures ValueOf(f, ctx, r) == Direct(e, ctx, r)
  {
    if !PerRow(e) {
      NotPerRow(e, ctx, r);
    }
  }

  /** An error met while preparing is the error direct evaluation meets on every row. */
  lemma EarlyErrorIsDirect(e: Extra, ctx: Context, r: Record)
    requires EarlyError(e, ctx).Some? && WellFormed(r)
    ensures Direct(e, ctx, r) == Err(EarlyError(e, ctx).value)
  {
    NotPerRow(e, ctx, r);
  }

  /** A placeholder is replaced where it stands: what is before it is kept, what it names is
      filled in, and the rest is expanded alike. */
  lemma ExpandInPlace(before: string, body: string, after: string, ctx: Context, r: Record)
    requires FirstOpen(before) == |before| && '}' !in body && WellFormed(r)
    ensures var whole := Expand(Joined(before, body, after), ctx, r);
            var x, rest := Fill(ctx, r, body), Expand(after, ctx, r);
            && (whole.Ok? <==> x.Ok? && rest.Ok?)
            && (whole.Ok? ==> whole.value == before + x.value + rest.value)
  {
    hide Fill, Leftmost, Joined;
    LeftmostIs(before, body, after);
  }

  /** A timestamptz column whose template is the placeholder for now holds the instant of the
      pass on every row, as long as the clock reads back what it writes. */
  lemma NowIsThePass(e: Extra, body: string, ctx: Context, r: Record)
    requires '}' !in body && TermOf(body) == Now && e.template == Joined("", body, "")
    requires ResolvedType(e).TimestampTZ? && WellFormed(r)
    requires ctx.clock.parse(ctx.clock.format(ctx.now)) == Some(ctx.now)
    ensures Direct(e, ctx, r) == Ok(Instant(ctx.now))
  {
    hide Leftmost, TermOf, ResolvedType, Joined;
    NothingToExpand(ctx, r);
    ExpandInPlace("", body, "", ctx, r);
    var text := ctx.clock.format(ctx.now);
    assert "" + text + "" == text;
  }

  lemma NothingToExpand(ctx: Context, r: Record)
    requires WellFormed(r)
    ensures Expand("", ctx, r) == Ok("") && FirstOpen("") == 0
  {
  }

  // ---------- validated templates ----------

  predicate SomeFails(bodies: seq<string>, ctx: Context, r: Record)
    requires WellFormed(r)
  {
    exists i :: 0 <= i < |bodies| && Fill(ctx, r, bodies[i]).Err?
  }

  lemma SomeFailsCons(body: string, rest: seq<string>, ctx: Context, r: Record)
    requires WellFormed(r)
    ensures SomeFails([body] + rest, ctx, r) <==> Fill(ctx, r, body).Err? || SomeFails(rest, ctx, r)
  {
    hide Fill;
    var bodies := [body] + rest;
    assert bodies[0] == body;
    if i :| 0 <= i < |bodies| && Fill(ctx, r, bodies[i]).Err? {
      assert i == 0 || rest[i - 1] == bodies[i];
    }
    if i :| 0 <= i < |rest| && Fill(ctx, r, rest[i]).Err? {
      assert bodies[i + 1] == rest[i];
    }
  }

  lemma {:induction false} ExpandFailsIff(template: string, ctx: Context, r: Record)
    requires WellFormed(r)
    ensures Expand(template, ctx, r).Err? <==> SomeFails(Bodies(template), ctx, r)
    decreases |template|
  {
    hide Fill, Leftmost, SomeFails;
    match Leftmost(template) {
      case None => NothingFails(ctx, r);
      case Some(p) =>
        SomeFailsCons(p.body, Bodies(p.after), ctx, r);
        ExpandFailsIff(p.after, ctx, r);
    }
  }

  lemma NothingFails(ctx: Context, r: Record)
    requires WellFormed(r)
    ensures !SomeFails([], ctx, r)
  {
  }

  predicate AllValid(bodies: seq<string>) {
    forall i :: 0 <= i < |bodies| ==> ValidTerm(TermOf(bodies[i]))
  }

  /** Valid placeholders fail only on columns the row does not have. */
  lemma ValidFailsIff(bodies: seq<string>, ctx: Context, r: Record)
    requires AllValid(bodies) && WellFormed(r)
    ensures SomeFails(bodies, ctx, r) <==> exists c :: c in RowRefs(bodies) && c !in r.columns
  {
    hide TermOf, RowRefs;
    if i :| 0 <= i < |bodies| && Fill(ctx, r, bodies[i]).Err? {
      assert TermOf(bodies[i]).Column?;
      RowRefsAre(bodies, TermOf(bodies[i]).name);
    }
    if c :| c in RowRefs(bodies) && c !in r.columns {
      RowRefsAre(bodies, c);
      var i :| 0 <= i < |bodies| && TermOf(bodies[i]) == Column(c);
      assert Fill(ctx, r, bodies[i]).Err?;
    }
  }

  /** A validated template fails on a row just when it references a column the row does not
      have, so never when every reference is in the projection. */
  lemma ValidatedFailsIff(e: Extra, ctx: Context, r: Record)
    requires Validated(e.template) && WellFormed(r)
    ensures Direct(e, ctx, r).Err? <==> exists c :: c in RowRefs(Bodies(e.template)) && c !in r.columns
  {
    ExpandFailsIff(e.template, ctx, r);
    ValidFailsIff(Bodies(e.template), ctx, r);
  }

  /** What follows the last placeholder, an unclosed one included, is written to every row as
      it stands. */
  lemma {:induction false} TailIsVerbatim(template: string, ctx: Context, r: Record)
    requires WellFormed(r) && Expand(template, ctx, r).Ok?
    ensures var text, tail := Expand(template, ctx, r).value, Tail(template);
            |tail| <= |text| && text[|text| - |tail|..] == tail
    decreases |template|
  {
    hide Fill, Leftmost;
    match Leftmost(template) {
      case None =>
      case Some(p) =>
        TailIsVerbatim(p.after, ctx, r);
        var x, rest := Fill(ctx, r, p.body).value, Expand(p.after, ctx, r).value;
        var text := p.before + x + rest;
        assert text[|p.before + x|..] == rest;
        assert text[|text| - |Tail(p.after)|..] == rest[|rest| - |Tail(p.after)|..];
    }
  }

  // ---------- a page of rows ----------

  /** One row's injected values, each as direct evaluation gives it. */
  predicate RowFilled(values: seq<Datum>, extras: seq<Extra>, ctx: Context, r: Record)
    requires WellFormed(r)
  {
    |values| == |extras| && forall j :: 0 <= j < |extras| ==> Direct(extras[j], ctx, r) == Ok(values[j])
  }

  method BuildRow(fields: seq<Field>, extras: seq<Extra>, ctx: Context, row: Record)
      returns (r: Result<seq<Datum>, Failure>)
    requires |fields| == |extras| && WellFormed(row)
    requires forall i :: 0 <= i < |fields| ==> Prepared(fields[i], extras[i], ctx)
    ensures r.Ok? ==> RowFilled(r.value, extras, ctx, row)
    ensures r.Err? ==> exists j :: 0 <= j < |extras| && Direct(extras[j], ctx, row) == Err(r.error)
  {
    hide Direct, Prepared, ValueOf;
    var values: seq<Datum> := [];
    for j := 0 to |fields|
      invariant |values| == j
      invariant forall n :: 0 <= n < j ==> Direct(extras[n], ctx, row) == Ok(values[n])
    {
      PreparedIsDirect(fields[j], extras[j], ctx, row);
      var v := ValueOf(fields[j], ctx, row);
      if v.Err? { return Err(v.error); }
      values := values + [v.value];
    }
    return Ok(values);
  }

  /** The injected values of a page, row by row, until one fails; nothing when there are no
      fields. */
  method BuildExtras(fields: seq<Field>, extras: seq<Extra>, ctx: Context, columns: seq<string>, rows: seq<seq<string>>)
      returns (r: Result<seq<seq<Datum>>, Failure>)
    requires |fields| == |extras| && forall i :: 0 <= i < |fields| ==> Prepared(fields[i], extras[i], ctx)
    requires forall i :: 0 <= i < |rows| ==> |rows[i]| == |columns|
    ensures r.Ok? ==> |r.value| == if extras == [] then 0 else |rows|
    ensures r.Ok? ==> forall i :: 0 <= i < |r.value| ==> RowFilled(r.value[i], extras, ctx, Record(columns, rows[i]))
    ensures r.Err? ==> exists i :: 0 <= i < |rows| && RowFails(extras, ctx, Record(columns, rows[i]), r.error)
  {
    hide RowFilled, Prepared;
    if |fields| == 0 { return Ok([]); }
    var out: seq<seq<Datum>> := [];
    for i := 0 to |rows|
      invariant |out| == i
      invariant forall k :: 0 <= k < i ==> RowFilled(out[k], extras, ctx, Record(columns, rows[k]))
    {
      var row := BuildRow(fields, extras, ctx, Record(columns, rows[i]));
      if row.Err? {
        assert RowFails(extras, ctx, Record(columns, rows[i]), row.error);
        return Err(row.error);
      }
      out := out + [row.value];
    }
    return Ok(out);
  }

  predicate RowFails(extras: seq<Extra>, ctx: Context, r: Record, e: Failure)
    requires WellFormed(r)
  {
    exists j :: 0 <= j < |extras| && Direct(extras[j], ctx, r) == Err(e)
  }
}
