/** The read layer: the text of a page query and of the selectors, built step by step, and
    what that text means. */
module Read {
  import opened Prelude
  import opened Chunking
  import opened Sql
  import opened Grammar
  import opened Filters

  /** An extra predicate of a read; an empty one selects everything. */
  datatype Selector = Selector(sql: string, args: seq<Value>)

  const NO_SELECTOR := Selector("", [])

  // ---------- text ----------

  function JoinStrings(parts: seq<string>, sep: string): string {
    if parts == [] then ""
    else if |parts| == 1 then parts[0]
    else parts[0] + sep + JoinStrings(parts[1..], sep)
  }

  function NullText(column: string): string {
    column + " IS NULL"
  }

  /** `admitNulls` */
  function AdmitNulls(f: Filter, expr: string): string {
    if !AdmitsNulls(f) then expr else "(" + expr + " OR " + NullText(f.column) + ")"
  }

  function StrftimeText(format: string): string {
    "strftime('" + format + "', "
  }

  function CursorExpr(timestamp: bool, column: string): string {
    if timestamp then StrftimeText(ISO_FORMAT) + column + ")" else column
  }

  lemma Spell1(k: Token)
    ensures Spell([T(k)]) == SpellToken(k) && Spell([Space]) == " "
  {
    assert [T(k)][1..] == [] && [Space][1..] == [];
    assert SpellToken(k) + "" == SpellToken(k);
  }

  lemma Spell3(a: Token, b: Token, c: Token)
    ensures Spell([T(a), Space, T(b), Space, T(c)])
            == SpellToken(a) + " " + SpellToken(b) + " " + SpellToken(c)
  {
    var p1, p2, p3, p4 := [T(a)], [T(a), Space], [T(a), Space, T(b)], [T(a), Space, T(b), Space];
    Spell1(a); Spell1(b); Spell1(c);
    assert p2 == p1 + [Space] && p3 == p2 + [T(b)] && p4 == p3 + [Space];
    SpellAppend(p1, [Space]);
    SpellAppend(p2, [T(b)]);
    SpellAppend(p3, [Space]);
    SpellAppend(p4, [T(c)]);
    assert p4 + [T(c)] == [T(a), Space, T(b), Space, T(c)];
  }

  lemma NullSpelling(column: string)
    ensures Spell(NullPieces(column)) == NullText(column)
  {
    Spell3(Ident(column), IS, NULL);
    assert NullText(column) == column + " " + "IS" + " " + "NULL";
  }

  lemma NotNullSpelling(column: string)
    ensures Spell([T(Ident(column)), Space, T(IS), Space, T(NOT), Space, T(NULL)]) == column + " IS NOT NULL"
  {
    var head, tail := [T(Ident(column)), Space], [T(IS), Space, T(NOT), Space, T(NULL)];
    SpellWord(Ident(column));
    Spell3(IS, NOT, NULL);
    SpellAppend(head, tail);
    assert head + tail == [T(Ident(column)), Space, T(IS), Space, T(NOT), Space, T(NULL)];
    NotNullText(column);
  }

  lemma NotNullText(column: string)
    ensures column + " IS NOT NULL" == (column + " ") + ("IS" + " " + "NOT" + " " + "NULL")
  {
  }

  function HolderStrings(n: nat): seq<string> {
    seq(n, _ => "?")
  }

  lemma {:induction false} HoldersSpelling(n: nat)
    ensures Spell(Holders(n)) == JoinStrings(HolderStrings(n), ", ")
  {
    if n == 1 {
      Spell1(Param);
    } else if n > 1 {
      HoldersSpelling(n - 1);
      var head := [T(Param), T(Comma), Space];
      Spell1(Param); Spell1(Comma);
      SpellAppend([T(Param)], [T(Comma)]);
      SpellAppend([T(Param)] + [T(Comma)], [Space]);
      assert head == [T(Param)] + [T(Comma)] + [Space];
      assert Spell(head) == "?" + ", ";
      SpellAppend(head, Holders(n - 1));
      assert HolderStrings(n)[1..] == HolderStrings(n - 1);
    }
  }

  lemma Spell2(x: seq<Piece>, y: seq<Piece>, z: seq<Piece>)
    ensures Spell(x + y + z) == Spell(x) + Spell(y) + Spell(z)
  {
    SpellAppend(x, y);
    SpellAppend(x + y, z);
  }

  lemma SpellWord(k: Token)
    ensures Spell([T(k), Space]) == SpellToken(k) + " "
  {
    Spell1(k);
    SpellAppend([T(k)], [Space]);
    assert [T(k), Space] == [T(k)] + [Space];
  }

  lemma InSpelling()
    ensures Spell([T(IN), Space, T(Open)]) == "IN ("
    ensures Spell([T(NOT), Space]) == "NOT "
  {
    SpellWord(IN);
    SpellWord(NOT);
    Spell1(Open);
    SpellAppend([T(IN), Space], [T(Open)]);
    assert [T(IN), Space, T(Open)] == [T(IN), Space] + [T(Open)];
  }

  function InText(negated: bool): string {
    if negated then "NOT IN" else "IN"
  }

  lemma AmongHead(column: string, negated: bool)
    ensures Spell([T(Ident(column)), Space] + (if negated then [T(NOT), Space] else []) + [T(IN), Space, T(Open)])
            == column + " " + InText(negated) + " ("
  {
    SpellWord(Ident(column));
    InSpelling();
    Spell2([T(Ident(column)), Space], if negated then [T(NOT), Space] else [], [T(IN), Space, T(Open)]);
    if negated {
      assert "NOT " + "IN (" == "NOT IN" + " (";
    } else {
      assert "IN (" == "IN" + " (";
    }
  }

  lemma AmongSpelling(column: string, negated: bool, n: nat)
    ensures Spell(AmongPieces(column, negated, n))
            == column + " " + InText(negated) + " (" + JoinStrings(HolderStrings(n), ", ") + ")"
  {
    var head := [T(Ident(column)), Space] + (if negated then [T(NOT), Space] else []) + [T(IN), Space, T(Open)];
    AmongHead(column, negated);
    HoldersSpelling(n);
    Spell1(Close);
    Spell2(head, Holders(n), [T(Close)]);
  }

  lemma WidenSpelling(f: Filter, ps: seq<Piece>)
    ensures Spell(Widen(f, ps)) == AdmitNulls(f, Spell(ps))
  {
    if AdmitsNulls(f) {
      var o := [Space, T(OR), Space];
      Spell1(Open); Spell1(OR); Spell1(Close);
      assert o == [Space] + [T(OR)] + [Space];
      SpellAppend([Space], [T(OR)]);
      SpellAppend([Space] + [T(OR)], [Space]);
      NullSpelling(f.column);
      SpellAppend([T(Open)], ps);
      SpellAppend([T(Open)] + ps, o);
      SpellAppend([T(Open)] + ps + o, NullPieces(f.column));
      SpellAppend([T(Open)] + ps + o + NullPieces(f.column), [T(Close)]);
      assert Spell(o) == " OR ";
    }
  }

  lemma BoundSpelling(op: Comparison)
    ensures Spell([Space, T(OpToken(op)), Space, T(Param)]) == " " + SpellOp(op) + " ?"
  {
    Spell1(Param);
    SpellWord(OpToken(op));
    Spell2([Space], [T(OpToken(op)), Space], [T(Param)]);
    assert [Space, T(OpToken(op)), Space, T(Param)] == [Space] + [T(OpToken(op)), Space] + [T(Param)];
  }

  lemma StrftimeHead(format: string)
    ensures Spell([T(Ident("strftime")), T(Open), T(Quoted(format)), T(Comma), Space]) == StrftimeText(format)
  {
    var a, b := [T(Ident("strftime"))] + [T(Open)], [T(Comma), Space];
    Spell1(Ident("strftime"));
    Spell1(Open);
    SpellAppend([T(Ident("strftime"))], [T(Open)]);
    Spell1(Quoted(format));
    SpellWord(Comma);
    Spell2(a, [T(Quoted(format))], b);
    assert [T(Ident("strftime")), T(Open), T(Quoted(format)), T(Comma), Space] == a + [T(Quoted(format))] + b;
    assert Spell(a) == "strftime(";
    QuoteJoin(format);
  }

  lemma QuoteJoin(format: string)
    ensures "strftime(" + ("'" + format + "'") + ", " == StrftimeText(format)
  {
  }

  lemma StrftimeSpelling(column: string)
    ensures Spell(CursorPieces(true, column)) == StrftimeText(ISO_FORMAT) + column + ")"
  {
    var head := [T(Ident("strftime")), T(Open), T(Quoted(ISO_FORMAT)), T(Comma), Space];
    StrftimeHead(ISO_FORMAT);
    Spell1(Ident(column));
    Spell1(Close);
    Spell2(head, [T(Ident(column))], [T(Close)]);
    assert CursorPieces(true, column) == head + [T(Ident(column))] + [T(Close)];
  }

  lemma CursorSpelling(timestamp: bool, column: string, op: Comparison)
    ensures Spell(CursorPieces(timestamp, column) + [Space, T(OpToken(op)), Space, T(Param)])
            == CursorExpr(timestamp, column) + " " + SpellOp(op) + " ?"
  {
    BoundSpelling(op);
    SpellAppend(CursorPieces(timestamp, column), [Space, T(OpToken(op)), Space, T(Param)]);
    if timestamp {
      StrftimeSpelling(column);
    } else {
      Spell1(Ident(column));
    }
    Assoc(CursorExpr(timestamp, column), " " + SpellOp(op), " ?");
  }

  // ---------- one filter ----------

  function ListText(f: Filter): string {
    f.column + " " + InText(f.op.OpNotIn?) + " (" + JoinStrings(HolderStrings(|ListOf(f.value)|), ", ") + ")"
  }

  function FilterText(f: Filter): string {
    match f.op
    case OpIsNull => f.column + " IS NULL"
    case OpNotNull => f.column + " IS NOT NULL"
    case OpIn => AdmitNulls(f, ListText(f))
    case OpNotIn => AdmitNulls(f, ListText(f))
    case _ => AdmitNulls(f, f.column + " " + SpellOp(SqlOp(f.op)) + " ?")
  }

  lemma CoreSpelling(f: Filter)
    requires !Unary(f)
    ensures Spell(CorePieces(f))
            == if f.op.OpIn? || f.op.OpNotIn? then ListText(f) else f.column + " " + SpellOp(SqlOp(f.op)) + " ?"
  {
    if f.op.OpIn? || f.op.OpNotIn? {
      AmongSpelling(f.column, f.op.OpNotIn?, |ListOf(f.value)|);
    } else {
      CursorSpelling(false, f.column, SqlOp(f.op));
      assert CorePieces(f) == CursorPieces(false, f.column) + [Space, T(OpToken(SqlOp(f.op))), Space, T(Param)];
    }
  }

  lemma FilterSpelling(f: Filter)
    ensures Spell(FilterPieces(f)) == FilterText(f)
  {
    if f.op.OpIsNull? {
      NullSpelling(f.column);
    } else if f.op.OpNotNull? {
      NotNullSpelling(f.column);
    } else {
      CoreSpelling(f);
      WidenSpelling(f, CorePieces(f));
    }
  }

  // ---------- Compile ----------

  function FilterClauses(fs: seq<Filter>): (cs: seq<Clause>)
    ensures |cs| == |fs| && forall i :: 0 <= i < |fs| ==> cs[i] == ByFilter(fs[i])
  {
    seq(|fs|, i requires 0 <= i < |fs| => ByFilter(fs[i]))
  }

  function Texts(cs: seq<Clause>): (ts: seq<string>)
    ensures |ts| == |cs|
    ensures forall i :: 0 <= i < |cs| ==> ts[i] == Spell(ClausePieces(cs[i]))
  {
    seq(|cs|, i requires 0 <= i < |cs| => Spell(ClausePieces(cs[i])))
  }

  lemma AndSpelling()
    ensures Spell([Space, T(AND), Space]) == " AND "
  {
    Spell1(AND);
    SpellWord(AND);
    SpellAppend([Space], [T(AND), Space]);
    assert [Space, T(AND), Space] == [Space] + [T(AND), Space];
  }

  lemma TailStep(cs: seq<Clause>)
    requires cs != []
    ensures Spell(TailPieces(cs)) == " AND " + (Spell(ClausePieces(cs[0])) + Spell(TailPieces(cs[1..])))
  {
    hide ClausePieces;
    var o, head := [Space, T(AND), Space], ClausePieces(cs[0]);
    AndSpelling();
    SpellAppend(o, head);
    SpellAppend(o + head, TailPieces(cs[1..]));
    Assoc(" AND ", Spell(head), Spell(TailPieces(cs[1..])));
  }

  lemma JoinStep(ts: seq<string>, sep: string)
    requires ts != []
    ensures JoinStrings(ts, sep) == ts[0] + (if |ts| == 1 then "" else sep + JoinStrings(ts[1..], sep))
  {
    if |ts| == 1 {
      assert ts[0] + "" == ts[0];
    } else {
      Assoc(ts[0], sep, JoinStrings(ts[1..], sep));
    }
  }

  lemma {:induction false} TailSpelling(cs: seq<Clause>)
    ensures Spell(TailPieces(cs)) == if cs == [] then "" else " AND " + JoinStrings(Texts(cs), " AND ")
  {
    hide ClausePieces;
    if cs != [] {
      TailSpelling(cs[1..]);
      TailStep(cs);
      JoinStep(Texts(cs), " AND ");
      assert Texts(cs)[1..] == Texts(cs[1..]);
    }
  }

  lemma JoinSpelling(cs: seq<Clause>)
    ensures Spell(JoinPieces(cs)) == JoinStrings(Texts(cs), " AND ")
  {
    hide ClausePieces;
    if cs != [] {
      TailSpelling(cs[1..]);
      SpellAppend(ClausePieces(cs[0]), TailPieces(cs[1..]));
      JoinStep(Texts(cs), " AND ");
      assert Texts(cs)[1..] == Texts(cs[1..]);
    }
  }

  lemma {:induction false} JoinArgsAppend(a: seq<Part>, b: seq<Part>)
    ensures JoinArgs(a + b) == JoinArgs(a) + JoinArgs(b)
  {
    if a == [] {
      assert a + b == b;
    } else {
      assert (a + b)[0] == a[0] && (a + b)[1..] == a[1..] + b;
      JoinArgsAppend(a[1..], b);
    }
  }

  lemma ArgsAppend(a: seq<Clause>, b: seq<Clause>)
    ensures ClausesArgs(a + b) == ClausesArgs(a) + ClausesArgs(b)
  {
    assert Parts(a + b) == Parts(a) + Parts(b);
    JoinArgsAppend(Parts(a), Parts(b));
  }

  lemma ArgsOne(c: Clause)
    ensures ClausesArgs([c]) == ClauseArgs(c)
  {
    assert Parts([c]) == [PartOf(c)];
    assert JoinArgs([PartOf(c)][1..]) == [];
    assert ClauseArgs(c) + [] == ClauseArgs(c);
  }

  lemma CompileStep(filters: seq<Filter>, k: nat)
    requires k < |filters|
    ensures var before, after := FilterClauses(filters[..k]), FilterClauses(filters[..k + 1]);
            && Texts(after) == Texts(before) + [FilterText(filters[k])]
            && ClausesArgs(after) == ClausesArgs(before) + FilterArgs(filters[k])
  {
    var before, after := FilterClauses(filters[..k]), FilterClauses(filters[..k + 1]);
    assert after == before + [ByFilter(filters[k])];
    FilterSpelling(filters[k]);
    ArgsAppend(before, [ByFilter(filters[k])]);
    ArgsOne(ByFilter(filters[k]));
  }

  /** The fragment for the filters and its arguments. An unknown operator reads as `=`. */
  method Compile(filters: seq<Filter>) returns (where: string, args: seq<Value>)
    ensures where == Spell(JoinPieces(FilterClauses(filters)))
    ensures args == ClausesArgs(FilterClauses(filters))
  {
    var parts: seq<string> := [];
    args := [];
    for k := 0 to |filters|
      invariant parts == Texts(FilterClauses(filters[..k]))
      invariant args == ClausesArgs(FilterClauses(filters[..k]))
    {
      var f := filters[k];
      CompileStep(filters, k);
      match f.op {
        case OpIsNull =>
          parts := parts + [f.column + " IS NULL"];
        case OpNotNull =>
          parts := parts + [f.column + " IS NOT NULL"];
        case OpIn =>
          var expr;
          expr, args := CompileList(f, args);
          parts := parts + [AdmitNulls(f, expr)];
        case OpNotIn =>
          var expr;
          expr, args := CompileList(f, args);
          parts := parts + [AdmitNulls(f, expr)];
        case _ =>
          parts := parts + [AdmitNulls(f, f.column + " " + SpellOp(SqlOp(f.op)) + " ?")];
          args := args + [ScalarOf(f.value)];
      }
    }
    assert filters[..|filters|] == filters;
    where := JoinStrings(parts, " AND ");
    JoinSpelling(FilterClauses(filters));
  }

  /** The list operators: one placeholder and one argument an element. */
  method CompileList(f: Filter, args: seq<Value>) returns (expr: string, args': seq<Value>)
    requires f.op.OpIn? || f.op.OpNotIn?
    ensures expr == ListText(f) && args' == args + FilterArgs(f)
  {
    var list := ListOf(f.value);
    var holders: seq<string> := [];
    args' := args;
    for i := 0 to |list|
      invariant holders == HolderStrings(i) && args' == args + list[..i]
    {
      holders := holders + ["?"];
      args' := args' + [list[i]];
    }
    var op := if f.op.OpNotIn? then "NOT IN" else "IN";
    expr := f.column + " " + op + " (" + JoinStrings(holders, ", ") + ")";
  }

  // ---------- selectors ----------

  /** The predicate that selects rows at or after a watermark; none for an empty one. */
  function AdvanceSelector(timestamp: bool, column: string, watermark: Value, inclusive: bool): Selector {
    if watermark == Text("") || watermark.Null? then NO_SELECTOR
    else
      Selector(CursorExpr(timestamp, column) + " " + SpellOp(if inclusive then Gte else Gt) + " ?", [watermark])
  }

  lemma AdvanceIsAClause(timestamp: bool, column: string, watermark: Value, inclusive: bool)
    requires watermark != Text("") && !watermark.Null?
    ensures var c := ByCursor(timestamp, column, inclusive, watermark);
            AdvanceSelector(timestamp, column, watermark, inclusive) == Selector(Spell(ClausePieces(c)), ClauseArgs(c))
  {
    CursorSpelling(timestamp, column, if inclusive then Gte else Gt);
  }

  /** The predicates that re-read the rows whose key the target holds as unsettled. */
  method RescanOpen(column: string, keys: seq<Value>) returns (out: seq<Selector>)
    ensures |out| == |Cut(keys)|
    ensures forall i :: 0 <= i < |out| ==>
              var c := ByKeys(column, Cut(keys)[i]);
              out[i] == Selector(Spell(ClausePieces(c)), ClauseArgs(c))
  {
    hide ClausePieces, Cut;
    var chunks := CutUp(keys);
    out := [];
    for k := 0 to |chunks|
      invariant |out| == k
      invariant forall i :: 0 <= i < k ==>
                  var c := ByKeys(column, chunks[i]);
                  out[i] == Selector(Spell(ClausePieces(c)), ClauseArgs(c))
    {
      var one := KeysSelector(column, chunks[k]);
      out := out + [one];
    }
  }

  /** One placeholder a key. */
  method KeysSelector(column: string, chunk: seq<Value>) returns (sel: Selector)
    ensures var c := ByKeys(column, chunk); sel == Selector(Spell(ClausePieces(c)), ClauseArgs(c))
  {
    var holders := "";
    for i := 0 to |chunk|
      invariant holders == JoinStrings(HolderStrings(i), ", ")
    {
      if i > 0 {
        holders := holders + ", ";
      }
      holders := holders + "?";
      OneMoreHolder(i);
    }
    sel := Selector(column + " IN (" + holders + ")", chunk);
    InChunkSpelling(column, chunk);
  }

  lemma {:induction false} OneMoreHolder(i: nat)
    ensures JoinStrings(HolderStrings(i + 1), ", ")
            == (if i > 0 then JoinStrings(HolderStrings(i), ", ") + ", " else "") + "?"
  {
    if i > 0 {
      assert HolderStrings(i + 1)[1..] == HolderStrings(i);
      if i == 1 {
        assert HolderStrings(1) == ["?"];
      } else {
        OneMoreHolder(i - 1);
        assert HolderStrings(i)[1..] == HolderStrings(i - 1);
      }
    }
  }

  lemma InChunkSpelling(column: string, chunk: seq<Value>)
    ensures column + " IN (" + JoinStrings(HolderStrings(|chunk|), ", ") + ")"
            == Spell(ClausePieces(ByKeys(column, chunk)))
  {
    AmongSpelling(column, false, |chunk|);
    assert column + " IN (" == column + " " + "IN" + " (";
  }

  /** Together the rescan selectors select exactly the rows whose key is listed. */
  lemma RescanSelectsListedKeys(g: Engine, row: Record, column: string, keys: seq<Value>)
    requires ValidIdent(column) && !Reserved(column)
    ensures (exists i :: 0 <= i < |Cut(keys)| && SelectorTrue(g, row, ByKeys(column, Cut(keys)[i])))
            <==> !Lookup(row, column).Null? && Lookup(row, column) in keys
  {
    var v := Lookup(row, column);
    CutPartitions(keys);
    InSomeChunk(keys, v);
    forall i | 0 <= i < |Cut(keys)|
      ensures SelectorTrue(g, row, ByKeys(column, Cut(keys)[i])) <==> !v.Null? && v in Cut(keys)[i]
    {
      ClauseTextMeans(g, row, ByKeys(column, Cut(keys)[i]));
    }
  }

  /** The clause's own text, with its own arguments, is true on the row. */
  predicate SelectorTrue(g: Engine, row: Record, c: Clause) {
    var e := Parse(Spell(ClausePieces(c)));
    e.Some? && Eval(g, row, ClauseArgs(c), e.value).True?
  }

  lemma ClauseTextMeans(g: Engine, row: Record, c: Clause)
    requires ClauseOk(c) && (c.ByFilter? ==> !NotInNull(c.f))
    ensures SelectorTrue(g, row, c) <==> ClauseHolds(g, c, row)
  {
    TextMeansClauses(g, row, [c]);
    ArgsOne(c);
    assert JoinPieces([c]) == ClausePieces(c);
    assert AllHold(g, [c], row) <==> ClauseHolds(g, [c][0], row);
  }

  // ---------- Batch ----------

  /** An extra selector stands for no clause or for one. */
  predicate Meant(sel: Selector, cs: seq<Clause>) {
    if sel.sql == "" then cs == []
    else |cs| == 1 && sel == Selector(Spell(ClausePieces(cs[0])), ClauseArgs(cs[0]))
  }

  function Concat(css: seq<seq<Clause>>): seq<Clause> {
    if css == [] then [] else css[0] + Concat(css[1..])
  }

  lemma {:induction false} ConcatSnoc(css: seq<seq<Clause>>, cs: seq<Clause>)
    ensures Concat(css + [cs]) == Concat(css) + cs
  {
    if css == [] {
      assert [cs][1..] == [];
    } else {
      ConcatSnoc(css[1..], cs);
      assert (css + [cs])[1..] == css[1..] + [cs];
    }
  }

  /** Every conjunct of a page query, in order. */
  function BatchClauses(after: int, filters: seq<Filter>, meant: seq<seq<Clause>>): seq<Clause> {
    [RowidAfter(after)] + FilterClauses(filters) + Concat(meant)
  }

  lemma {:induction false} TailSpellAppend(a: seq<Clause>, b: seq<Clause>)
    ensures Spell(TailPieces(a + b)) == Spell(TailPieces(a)) + Spell(TailPieces(b))
  {
    if a == [] {
      assert a + b == b;
    } else {
      assert (a + b)[1..] == a[1..] + b;
      TailSpellAppend(a[1..], b);
      var head := [Space, T(AND), Space] + ClausePieces(a[0]);
      SpellAppend(head, TailPieces(a[1..] + b));
      SpellAppend(head, TailPieces(a[1..]));
      Assoc(Spell(head), Spell(TailPieces(a[1..])), Spell(TailPieces(b)));
    }
  }

  lemma RowidSpelling(after: int)
    ensures Spell(ClausePieces(RowidAfter(after))) == "rowid > ?"
  {
    CursorSpelling(false, "rowid", Gt);
    assert ClausePieces(RowidAfter(after)) == CursorPieces(false, "rowid") + [Space, T(Op(Gt)), Space, T(Param)];
  }

  lemma BatchSpelling(after: int, rest: seq<Clause>)
    ensures Spell(JoinPieces([RowidAfter(after)] + rest)) == "rowid > ?" + Spell(TailPieces(rest))
    ensures ClausesArgs([RowidAfter(after)] + rest) == [Int(after)] + ClausesArgs(rest)
  {
    RowidSpelling(after);
    assert ([RowidAfter(after)] + rest)[1..] == rest;
    SpellAppend(ClausePieces(RowidAfter(after)), TailPieces(rest));
    ArgsAppend([RowidAfter(after)], rest);
    ArgsOne(RowidAfter(after));
  }

  lemma FilterTextNonempty(filters: seq<Filter>)
    ensures Spell(JoinPieces(FilterClauses(filters))) == "" <==> filters == []
    ensures filters != [] ==>
              " AND " + Spell(JoinPieces(FilterClauses(filters))) == Spell(TailPieces(FilterClauses(filters)))
  {
    hide ClausePieces;
    var cs := FilterClauses(filters);
    JoinSpelling(cs);
    TailSpelling(cs);
    if filters != [] {
      FirstText(filters[0]);
      JoinStep(Texts(cs), " AND ");
    }
  }

  lemma FirstText(f: Filter)
    ensures |Spell(ClausePieces(ByFilter(f)))| > 0
  {
    FilterSpelling(f);
    assert |FilterText(f)| > 0;
  }

  lemma SelectorSpelling(c: Clause)
    ensures Spell(TailPieces([c])) == " AND " + Spell(ClausePieces(c))
  {
    TailSpelling([c]);
  }

  lemma ExtendBySelector(fs: seq<Clause>, meant: seq<seq<Clause>>, k: nat, sel: Selector)
    requires k < |meant| && Meant(sel, meant[k])
    ensures var before, after := fs + Concat(meant[..k]), fs + Concat(meant[..k + 1]);
            if sel.sql == "" then after == before
            else Spell(TailPieces(after)) == Spell(TailPieces(before)) + (" AND " + sel.sql)
                 && ClausesArgs(after) == ClausesArgs(before) + sel.args
  {
    assert meant[..k + 1] == meant[..k] + [meant[k]];
    ConcatSnoc(meant[..k], meant[k]);
    var before, after := fs + Concat(meant[..k]), fs + Concat(meant[..k + 1]);
    assert after == before + meant[k];
    if sel.sql != "" {
      var c := meant[k][0];
      assert meant[k] == [c];
      TailSpellAppend(before, [c]);
      SelectorSpelling(c);
      ArgsAppend(before, [c]);
      ArgsOne(c);
    }
  }

  /** The WHERE clause of a page query and the arguments bound before its LIMIT. */
  method Batch(filters: seq<Filter>, afterRowID: int, extra: seq<Selector>, ghost meant: seq<seq<Clause>>)
    returns (clause: string, bound: seq<Value>)
    requires |meant| == |extra| && forall i :: 0 <= i < |extra| ==> Meant(extra[i], meant[i])
    ensures clause == Spell(JoinPieces(BatchClauses(afterRowID, filters, meant)))
    ensures bound == ClausesArgs(BatchClauses(afterRowID, filters, meant))
  {
    hide Spell, TailPieces, JoinPieces, ClausesArgs, FilterClauses, Concat, BatchClauses, Meant;
    var where, args := Compile(filters);
    ghost var fs := FilterClauses(filters);
    clause := "rowid > ?";
    FilterTextNonempty(filters);
    NothingAdded(filters, meant);
    if where != "" {
      clause := clause + (" AND " + where);
    }
    for k := 0 to |extra|
      invariant clause == "rowid > ?" + Spell(TailPieces(fs + Concat(meant[..k])))
      invariant args == ClausesArgs(fs + Concat(meant[..k]))
    {
      var sel := extra[k];
      ExtendBySelector(fs, meant, k, sel);
      if sel.sql == "" {
        continue;
      }
      Assoc("rowid > ?", Spell(TailPieces(fs + Concat(meant[..k]))), " AND " + sel.sql);
      clause := clause + (" AND " + sel.sql);
      args := args + sel.args;
    }
    bound := [Int(afterRowID)] + args;
    assert meant[..|extra|] == meant;
    BatchIs(afterRowID, filters, meant);
  }

  lemma NothingAdded(filters: seq<Filter>, meant: seq<seq<Clause>>)
    ensures FilterClauses(filters) + Concat(meant[..0]) == FilterClauses(filters)
    ensures filters == [] ==> Spell(TailPieces(FilterClauses(filters))) == ""
  {
    assert meant[..0] == [];
  }

  lemma BatchIs(after: int, filters: seq<Filter>, meant: seq<seq<Clause>>)
    ensures var rest := FilterClauses(filters) + Concat(meant);
            && Spell(JoinPieces(BatchClauses(after, filters, meant))) == "rowid > ?" + Spell(TailPieces(rest))
            && ClausesArgs(BatchClauses(after, filters, meant)) == [Int(after)] + ClausesArgs(rest)
  {
    var rest := FilterClauses(filters) + Concat(meant);
    BatchSpelling(after, rest);
    assert BatchClauses(after, filters, meant) == [RowidAfter(after)] + rest;
  }

  predicate FiltersOk(filters: seq<Filter>) {
    forall i :: 0 <= i < |filters| ==> Valid(filters[i]) && Readable(filters[i])
  }

  predicate SelectorsOk(meant: seq<seq<Clause>>) {
    forall i :: 0 <= i < |meant| ==> |meant[i]| <= 1 && forall j :: 0 <= j < |meant[i]| ==>
      (meant[i][j].ByCursor? || meant[i][j].ByKeys?) && ClauseOk(meant[i][j])
  }

  predicate SelectorHolds(g: Engine, row: Record, cs: seq<Clause>)
    requires forall j :: 0 <= j < |cs| ==> ClauseOk(cs[j])
  {
    forall j :: 0 <= j < |cs| ==> ClauseHolds(g, cs[j], row)
  }

  lemma HoldTogether(g: Engine, row: Record, a: seq<Clause>, b: seq<Clause>)
    requires AllOk(a) && AllOk(b)
    ensures AllOk(a + b) && (AllHold(g, a + b, row) <==> AllHold(g, a, row) && AllHold(g, b, row))
  {
    hide ClauseOk, ClauseHolds;
    assert forall i :: 0 <= i < |a| ==> (a + b)[i] == a[i];
    assert forall i :: 0 <= i < |b| ==> (a + b)[i + |a|] == b[i];
  }

  lemma {:induction false} ConcatFacts(g: Engine, row: Record, meant: seq<seq<Clause>>)
    requires SelectorsOk(meant)
    ensures var cs := Concat(meant);
            && AllOk(cs) && (forall i :: 0 <= i < |cs| ==> !cs[i].ByFilter?)
            && (AllHold(g, cs, row) <==> forall i :: 0 <= i < |meant| ==> SelectorHolds(g, row, meant[i]))
  {
    hide ClauseOk, ClauseHolds;
    if meant != [] {
      var head, rest := meant[0], meant[1..];
      assert forall i :: 0 <= i < |rest| ==> rest[i] == meant[i + 1];
      ConcatFacts(g, row, rest);
      HoldTogether(g, row, head, Concat(rest));
      assert AllHold(g, head, row) <==> SelectorHolds(g, row, meant[0]);
    }
  }

  lemma BatchOk(after: int, filters: seq<Filter>, ss: seq<Clause>)
    requires FiltersOk(filters) && AllOk(ss) && (forall i :: 0 <= i < |ss| ==> !ss[i].ByFilter?)
    requires forall i :: 0 <= i < |filters| ==> !NotInNull(filters[i])
    ensures var cs := [RowidAfter(after)] + FilterClauses(filters) + ss; AllOk(cs) && NoNotInNull(cs)
  {
    var fs := FilterClauses(filters);
    var cs := [RowidAfter(after)] + fs + ss;
    forall i | 0 <= i < |cs| ensures ClauseOk(cs[i]) && (cs[i].ByFilter? ==> !NotInNull(cs[i].f)) {
      if i == 0 {
        assert cs[i] == RowidAfter(after);
      } else if i <= |fs| {
        assert cs[i] == ByFilter(filters[i - 1]);
      } else {
        assert cs[i] == ss[i - 1 - |fs|];
      }
    }
  }

  /** Run on any table, the text `Batch` builds is true exactly for the rows past the page
      cursor that every filter accepts and every selector selects. */
  lemma BatchSelects(g: Engine, row: Record, id: int, after: int, filters: seq<Filter>, meant: seq<seq<Clause>>)
    requires FiltersOk(filters) && SelectorsOk(meant) && Lookup(row, "rowid") == Int(id)
    requires forall i :: 0 <= i < |filters| ==> !NotInNull(filters[i])
    ensures var cs := BatchClauses(after, filters, meant);
            var e := Parse(Spell(JoinPieces(cs)));
            e.Some? &&
            (Eval(g, row, ClausesArgs(cs), e.value).True? <==>
              && id > after
              && (forall i :: 0 <= i < |filters| ==> Accepts(g, filters[i], row))
              && (forall i :: 0 <= i < |meant| ==> SelectorHolds(g, row, meant[i])))
  {
    var cs := BatchClauses(after, filters, meant);
    ConcatFacts(g, row, meant);
    BatchOk(after, filters, Concat(meant));
    TextMeansClauses(g, row, cs);
    BatchHolds(g, row, id, after, filters, Concat(meant));
  }

  lemma BatchHolds(g: Engine, row: Record, id: int, after: int, filters: seq<Filter>, ss: seq<Clause>)
    requires FiltersOk(filters) && AllOk(ss) && Lookup(row, "rowid") == Int(id)
    requires AllOk([RowidAfter(after)] + FilterClauses(filters) + ss)
    ensures AllHold(g, [RowidAfter(after)] + FilterClauses(filters) + ss, row)
            <==> id > after && (forall i :: 0 <= i < |filters| ==> Accepts(g, filters[i], row)) && AllHold(g, ss, row)
  {
    var fs := FilterClauses(filters);
    var cs := [RowidAfter(after)] + fs + ss;
    assert ClauseHolds(g, cs[0], row) <==> id > after;
    if AllHold(g, cs, row) {
      forall i | 0 <= i < |filters| ensures Accepts(g, filters[i], row) {
        assert ClauseHolds(g, cs[i + 1], row);
      }
      forall i | 0 <= i < |ss| ensures ClauseHolds(g, ss[i], row) {
        assert ClauseHolds(g, cs[i + 1 + |fs|], row);
      }
    }
    if id > after && (forall i :: 0 <= i < |filters| ==> Accepts(g, filters[i], row)) && AllHold(g, ss, row) {
      forall i | 0 <= i < |cs| ensures ClauseHolds(g, cs[i], row) {
        if 0 < i <= |fs| {
          assert cs[i] == ByFilter(filters[i - 1]);
        } else if i > |fs| {
          assert cs[i] == ss[i - 1 - |fs|];
        }
      }
    }
  }

  // ---------- where the text and the intention part ----------

  predicate FilterTrue(g: Engine, f: Filter, row: Record) {
    SelectorTrue(g, row, ByFilter(f))
  }

  predicate FilterRight(g: Engine, f: Filter, row: Record)
    requires Valid(f)
  {
    FilterTrue(g, f, row) <==> Accepts(g, f, row)
  }

  /** An integer that is not in the list. */
  function Unlisted(list: seq<Value>): (n: int)
    ensures forall i :: 0 <= i < |list| && list[i].Int? ==> list[i].n < n
  {
    if list == [] then 0
    else
      var n := Unlisted(list[1..]);
      assert forall i :: 0 < i < |list| ==> list[i] == list[1..][i - 1];
      if list[0].Int? && list[0].n >= n then list[0].n + 1 else n
  }

  /** A valid filter whose column the engine reads as a name means what it says on every row
      exactly when it is not a NOT IN over a list with a NULL in it. */
  lemma FilterMeansWhatItSaysIff(g: Engine, f: Filter)
    requires Valid(f) && Readable(f)
    ensures (forall row: Record :: FilterRight(g, f, row)) <==> !NotInNull(f)
  {
    if !NotInNull(f) {
      forall row: Record ensures FilterRight(g, f, row) {
        ClauseTextMeans(g, row, ByFilter(f));
      }
    } else {
      var n := Unlisted(f.value.list);
      var row: Record := map[f.column := Int(n)];
      FilterTextEval(g, f, row);
      assert !FilterRight(g, f, row);
    }
  }

  lemma FilterTextEval(g: Engine, f: Filter, row: Record)
    requires Valid(f) && Readable(f) && NotInNull(f)
    ensures FilterTrue(g, f, row) <==> Lookup(row, f.column).Null?
  {
    var c := ByFilter(f);
    JoinParses([c]);
    assert JoinPieces([c]) == ClausePieces(c);
    assert Parts([c]) == [PartOf(c)];
    assert Parts([c])[1..] == [];
    assert Parse(Spell(ClausePieces(c))) == Some(FilterExpr(f, 0));
    assert FilterArgs(f)[0..|FilterArgs(f)|] == FilterArgs(f);
    EvalFilter(g, row, FilterArgs(f), f, 0);
  }

  lemma OneLetter()
    ensures !Reserved("a")
  {
    assert UpperWord("a") == "A";
  }

  /** `a NOT IN (NULL)` is valid, and true of no row with a value. */
  lemma NotInNullSelectsNothing(g: Engine)
    ensures var f := Filter("a", OpNotIn, Many([Null]), false); var row: Record := map["a" := Int(1)];
            Valid(f) && Readable(f) && Accepts(g, f, row) && !FilterTrue(g, f, row)
  {
    var f := Filter("a", OpNotIn, Many([Null]), false);
    hide FilterTrue, Reserved;
    assert !Reserved("a") by { OneLetter(); }
    assert [Null][0].Null?;
    FilterTextEval(g, f, map["a" := Int(1)]);
  }

  lemma WordsUpperCased()
    ensures Reserved("order") && !Reserved("like") && !OpensQuery("like") && OpensQuery("with")
  {
    assert UpperWord("order") == "ORDER" && UpperWord("like") == "LIKE" && UpperWord("with") == "WITH";
  }

  /** A column called order is valid and does not read back; one called like does. */
  lemma OrderDoesNotReadBack()
    ensures var f := Filter("order", OpEq, One(Int(1)), false);
            Valid(f) && Parse(Spell(FilterPieces(f))) != Some(FilterExpr(f, 0))
    ensures var f := Filter("like", OpEq, One(Int(1)), false);
            Valid(f) && Parse(Spell(FilterPieces(f))) == Some(FilterExpr(f, 0))
    ensures var f := Filter("with", OpNe, One(Int(1)), false);
            Valid(f) && Parse(Spell(FilterPieces(f))) != Some(FilterExpr(f, 0))
  {
    hide Parse, FilterPieces, FilterExpr, Reserved, OpensQuery;
    WordsUpperCased();
    FilterReadsBackIff(Filter("order", OpEq, One(Int(1)), false));
    FilterReadsBackIff(Filter("like", OpEq, One(Int(1)), false));
    FilterReadsBackIff(Filter("with", OpNe, One(Int(1)), false));
  }

  /** A valid filter's text reads as the filter exactly when its column is not a word the
      engine reserves, nor, in a filter that admits NULL, the word that starts a query after
      an opening parenthesis. The identifier check lets all of these through. */
  lemma FilterReadsBackIff(f: Filter)
    requires Valid(f)
    ensures Parse(Spell(FilterPieces(f))) == Some(FilterExpr(f, 0)) <==> Readable(f)
  {
    hide Reserved, OpensQuery;
    if Readable(f) {
      var c := ByFilter(f);
      JoinParses([c]);
      assert JoinPieces([c]) == ClausePieces(c);
      assert Parts([c])[1..] == [];
    } else if Reserved(f.column) {
      ReservedColumnReadsOtherwise(f);
    } else {
      QueryWordDoesNotParse(f);
    }
  }

  lemma ReservedColumnReadsOtherwise(f: Filter)
    requires Valid(f) && Reserved(f.column)
    ensures Parse(Spell(FilterPieces(f))) != Some(FilterExpr(f, 0))
  {
    hide Lex, WordToken, Reserved, ParseOr, ParseTerm;
    var ps := FilterPieces(f);
    var ts := Lex(Spell(ps));
    if Widened(f) {
      var inner := ps[1..];
      assert ps[0] == T(Open) && inner[0] == T(Ident(f.column)) && inner[1] == Space;
      ColumnFirst(f.column, inner);
      LexSymbol(Open, Spell(inner));
      assert ts == [Open] + Lex(Spell(inner));
      assert ts[1..] == Lex(Spell(inner));
      NoColumn(f.column, ts[1..]);
    } else {
      ColumnFirst(f.column, ps);
      NoColumn(f.column, ts);
    }
    OrHead(ts, 0);
  }

  lemma QueryWordDoesNotParse(f: Filter)
    requires Valid(f) && !Reserved(f.column) && Widened(f) && OpensQuery(f.column)
    ensures Parse(Spell(FilterPieces(f))).None?
  {
    hide Lex, Reserved, OpensQuery;
    var ts := Lex(Spell(FilterPieces(f)));
    FilterSpaced(f);
    LexSpell(FilterPieces(f));
    TokensOfClause(ByFilter(f));
    assert ts[0] == Open && ts[1] == Ident(f.column);
    assert ParsePrimary(ts, 0).None?;
    assert ParseAnd(ts, 0).None?;
  }

  lemma ColumnFirst(column: string, ps: seq<Piece>)
    requires ValidIdent(column) && |ps| >= 2 && ps[0] == T(Ident(column)) && ps[1] == Space
    ensures Lex(Spell(ps)) != [] && Lex(Spell(ps))[0] == WordToken(column)
  {
    hide Lex, WordToken;
    var rest := Spell(ps[1..]);
    assert rest[0] == ' ';
    LexWord(column, rest);
  }

  /** A reserved word names no column at the head of an expression. */
  lemma NoColumn(column: string, ts: seq<Token>)
    requires Reserved(column) && ts != [] && ts[0] == WordToken(column)
    ensures HeadTerm(ts) != Some(Column(column)) && !ts[0].Open?
  {
    hide ReservedWord;
  }
}
