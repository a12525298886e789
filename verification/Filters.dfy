/** Row filters and the clause they compile to. */
module Filters {
  import opened Prelude
  import opened Sql
  import opened Grammar

  // ---------- filters ----------

  datatype FilterOp =
    | OpEq | OpNe | OpLt | OpLte | OpGt | OpGte | OpIn | OpNotIn | OpLike | OpIsNull | OpNotNull
    | OpUnknown(name: string)

  type Scalar = v: Value | !v.Null? witness Int(0)

  datatype FilterValue = NoValue | One(v: Scalar) | Many(list: seq<Value>)

  datatype Filter = Filter(column: string, op: FilterOp, value: FilterValue, orNull: bool)

  datatype FilterError = BadColumn | UnknownOp | TakesNoValue | NeedsList | EmptyList | NeedsValue | TakesOneValue

  predicate ValidIdent(s: string) {
    && 0 < |s| <= 63
    && !('0' <= s[0] <= '9')
    && forall i :: 0 <= i < |s| ==> WordChar(s[i])
  }

  /** The loop that checks a name character by character. */
  method CheckIdent(s: string) returns (ok: bool)
    ensures ok <==> ValidIdent(s)
  {
    if s == "" || |s| > 63 { return false; }
    for i := 0 to |s|
      invariant i > 0 ==> !('0' <= s[0] <= '9')
      invariant forall j :: 0 <= j < i ==> WordChar(s[j])
    {
      var c := s[i];
      if 'a' <= c <= 'z' || c == '_' {
      } else if 'A' <= c <= 'Z' {
      } else if '0' <= c <= '9' {
        if i == 0 { return false; }
      } else {
        return false;
      }
    }
    return true;
  }

  function Validate(f: Filter): Option<FilterError> {
    if !ValidIdent(f.column) then Some(BadColumn)
    else if f.op.OpUnknown? then Some(UnknownOp)
    else if f.op.OpIsNull? || f.op.OpNotNull? then
      if f.value.NoValue? then None else Some(TakesNoValue)
    else if f.op.OpIn? || f.op.OpNotIn? then
      if !f.value.Many? then Some(NeedsList) else if f.value.list == [] then Some(EmptyList) else None
    else if f.value.NoValue? then Some(NeedsValue)
    else if f.value.Many? then Some(TakesOneValue)
    else None
  }

  predicate Valid(f: Filter) {
    Validate(f).None?
  }

  /** What a filter is for: the rows the person who wrote it means, operator by operator. The
      negative operators keep a row whose value is unknown, and so does a window filter. */
  predicate Accepts(g: Engine, f: Filter, row: Record)
    requires Valid(f)
  {
    var v := Lookup(row, f.column);
    match f.op
    case OpIsNull => v.Null?
    case OpNotNull => !v.Null?
    case OpIn => if v.Null? then f.orNull else v in f.value.list
    case OpNotIn => v.Null? || v !in f.value.list
    case OpNe => v.Null? || v != f.value.v
    case OpEq => if v.Null? then f.orNull else v == f.value.v
    case OpLt => if v.Null? then f.orNull else Less(v, f.value.v)
    case OpLte => if v.Null? then f.orNull else Less(v, f.value.v) || v == f.value.v
    case OpGt => if v.Null? then f.orNull else Less(f.value.v, v)
    case OpGte => if v.Null? then f.orNull else Less(f.value.v, v) || v == f.value.v
    case OpLike => if v.Null? then f.orNull else g.like(v, f.value.v)
    case OpUnknown(_) => false
  }

  function SqlOp(op: FilterOp): Comparison {
    match op
    case OpEq => Eq case OpNe => Ne case OpLt => Lt case OpLte => Lte
    case OpGt => Gt case OpGte => Gte case OpLike => Like
    case _ => Eq
  }

  predicate AdmitsNulls(f: Filter) {
    f.orNull || f.op.OpNe? || f.op.OpNotIn?
  }

  function ListOf(v: FilterValue): seq<Value> {
    if v.Many? then v.list else []
  }

  function ScalarOf(v: FilterValue): Value {
    if v.One? then v.v else Null
  }

  /** The filter's text is parenthesised, to admit NULL. */
  predicate Widened(f: Filter) {
    AdmitsNulls(f) && !Unary(f)
  }

  predicate Unary(f: Filter) {
    f.op.OpIsNull? || f.op.OpNotNull?
  }

  /** The column is not a reserved word, nor one that starts a query where it stands. */
  predicate Readable(f: Filter) {
    !Reserved(f.column) && !(Widened(f) && OpensQuery(f.column))
  }

  // ---------- clauses ----------

  /** One conjunct of a read: the page cursor, a filter, the advance predicate or a rescan. */
  datatype Clause =
    | RowidAfter(after: int)
    | ByFilter(f: Filter)
    | ByCursor(timestamp: bool, column: string, inclusive: bool, watermark: Value)
    | ByKeys(column: string, keys: seq<Value>)

  predicate ClauseOk(c: Clause) {
    match c
    case RowidAfter(_) => true
    case ByFilter(f) => Valid(f) && Readable(f)
    case ByCursor(_, column, _, _) => ValidIdent(column) && !Reserved(column)
    case ByKeys(column, keys) => ValidIdent(column) && !Reserved(column) && keys != []
  }

  function T(k: Token): Piece { Tok(k) }

  function NullPieces(column: string): seq<Piece> {
    [T(Ident(column)), Space, T(IS), Space, T(NULL)]
  }

  function Holders(n: nat): seq<Piece> {
    if n == 0 then [] else if n == 1 then [T(Param)] else [T(Param), T(Comma), Space] + Holders(n - 1)
  }

  function AmongPieces(column: string, negated: bool, n: nat): seq<Piece> {
    [T(Ident(column)), Space] + (if negated then [T(NOT), Space] else [])
    + [T(IN), Space, T(Open)] + Holders(n) + [T(Close)]
  }

  function Widen(f: Filter, ps: seq<Piece>): seq<Piece> {
    if AdmitsNulls(f) then [T(Open)] + ps + [Space, T(OR), Space] + NullPieces(f.column) + [T(Close)] else ps
  }

  function CorePieces(f: Filter): seq<Piece> {
    match f.op
    case OpIn => AmongPieces(f.column, false, |ListOf(f.value)|)
    case OpNotIn => AmongPieces(f.column, true, |ListOf(f.value)|)
    case _ => [T(Ident(f.column)), Space, T(OpToken(SqlOp(f.op))), Space, T(Param)]
  }

  function FilterPieces(f: Filter): seq<Piece> {
    if f.op.OpIsNull? then NullPieces(f.column)
    else if f.op.OpNotNull? then [T(Ident(f.column)), Space, T(IS), Space, T(NOT), Space, T(NULL)]
    else Widen(f, CorePieces(f))
  }

  function FilterArgs(f: Filter): seq<Value> {
    match f.op
    case OpIsNull => []
    case OpNotNull => []
    case OpIn => ListOf(f.value)
    case OpNotIn => ListOf(f.value)
    case _ => [ScalarOf(f.value)]
  }

  function CursorPieces(timestamp: bool, column: string): seq<Piece> {
    if timestamp then
      [T(Ident("strftime")), T(Open), T(Quoted(ISO_FORMAT)), T(Comma), Space, T(Ident(column)), T(Close)]
    else [T(Ident(column))]
  }

  function ClausePieces(c: Clause): seq<Piece> {
    match c
    case RowidAfter(_) => [T(Ident("rowid")), Space, T(Op(Gt)), Space, T(Param)]
    case ByFilter(f) => FilterPieces(f)
    case ByCursor(timestamp, column, inclusive, _) =>
      CursorPieces(timestamp, column) + [Space, T(Op(if inclusive then Gte else Gt)), Space, T(Param)]
    case ByKeys(column, keys) => AmongPieces(column, false, |keys|)
  }

  function ClauseArgs(c: Clause): seq<Value> {
    match c
    case RowidAfter(after) => [Int(after)]
    case ByFilter(f) => FilterArgs(f)
    case ByCursor(_, _, _, watermark) => [watermark]
    case ByKeys(_, keys) => keys
  }

  /** The condition a clause stands for. */
  predicate ClauseHolds(g: Engine, c: Clause, row: Record)
    requires ClauseOk(c)
  {
    match c
    case RowidAfter(after) => var v := Lookup(row, "rowid"); !v.Null? && Less(Int(after), v)
    case ByFilter(f) => Accepts(g, f, row)
    case ByCursor(timestamp, column, inclusive, w) =>
      var raw := Lookup(row, column);
      var v := if timestamp then g.instant(raw) else raw;
      !v.Null? && !w.Null? && (Less(w, v) || (inclusive && v == w))
    case ByKeys(column, keys) => var v := Lookup(row, column); !v.Null? && v in keys
  }

  // ---------- what the clause parses to ----------

  function NullExpr(column: string): Expr {
    IsNull(Column(column), false)
  }

  function CoreExpr(f: Filter, n: nat): Expr {
    match f.op
    case OpIn => Among(Column(f.column), false, n, |ListOf(f.value)|)
    case OpNotIn => Among(Column(f.column), true, n, |ListOf(f.value)|)
    case _ => Compare(Column(f.column), SqlOp(f.op), n)
  }

  function FilterExpr(f: Filter, n: nat): Expr {
    if f.op.OpIsNull? then NullExpr(f.column)
    else if f.op.OpNotNull? then IsNull(Column(f.column), true)
    else if AdmitsNulls(f) then Disj(CoreExpr(f, n), NullExpr(f.column))
    else CoreExpr(f, n)
  }

  function ClauseExpr(c: Clause, n: nat): Expr {
    match c
    case RowidAfter(_) => Compare(Column("rowid"), Gt, n)
    case ByFilter(f) => FilterExpr(f, n)
    case ByCursor(timestamp, column, inclusive, _) =>
      Compare(if timestamp then Instant(column) else Column(column), if inclusive then Gte else Gt, n)
    case ByKeys(column, keys) => Among(Column(column), false, n, |keys|)
  }

  lemma {:induction false} ParamListHolders(n: nat, rest: seq<Token>)
    requires n > 0
    ensures ParamList(Tokens(Holders(n)) + [Close] + rest) == Some((n, rest))
  {
    var ts := Tokens(Holders(n)) + [Close] + rest;
    if n == 1 {
      assert Tokens(Holders(1)) == [Param] by { assert Holders(1)[1..] == []; }
      assert ts == [Param, Close] + rest;
      assert ts[2..] == rest;
    } else {
      ParamListHolders(n - 1, rest);
      TokensAppend([T(Param), T(Comma), Space], Holders(n - 1));
      HolderHead();
      assert ts == [Param, Comma] + (Tokens(Holders(n - 1)) + [Close] + rest);
      assert ts[2..] == Tokens(Holders(n - 1)) + [Close] + rest;
    }
  }

  lemma HolderHead()
    ensures Tokens([T(Param), T(Comma), Space]) == [Param, Comma]
  {
    var a := [T(Param), T(Comma), Space];
    assert a[1..] == [T(Comma), Space] && a[1..][1..] == [Space] && a[1..][1..][1..] == [];
    assert Tokens([Space]) == [];
    assert Tokens([T(Comma), Space]) == [Comma];
  }

  /** Token sequences of the plain predicates. */
  function AmongTokens(column: string, negated: bool, n: nat): seq<Token> {
    [Ident(column)] + (if negated then [NOT] else []) + [IN, Open] + Tokens(Holders(n)) + [Close]
  }

  lemma TokensOf3(a: Token, b: Token, c: Token)
    ensures Tokens([T(a), Space, T(b), Space, T(c)]) == [a, b, c]
  {
    hide Tokens;
    var tail := [T(b), Space] + [T(c)];
    TokensOf1(a);
    TokensOf1(b);
    TokensOf1(c);
    TokensAppend([T(b), Space], [T(c)]);
    TokensAppend([T(a), Space], tail);
    assert [T(a), Space, T(b), Space, T(c)] == [T(a), Space] + tail;
  }

  lemma TokensOf4(a: Token, b: Token, c: Token, d: Token)
    ensures Tokens([T(a), Space, T(b), Space, T(c), Space, T(d)]) == [a, b, c, d]
  {
    TokensOf3(b, c, d);
    var tail := [T(b), Space, T(c), Space, T(d)];
    assert [T(a), Space, T(b), Space, T(c), Space, T(d)] == [T(a), Space] + tail;
    TokensAppend([T(a), Space], tail);
    TokensOf1(a);
  }

  lemma TokensOf1(a: Token)
    ensures Tokens([T(a)]) == [a] && Tokens([T(a), Space]) == [a] && Tokens([Space]) == []
  {
    assert [T(a)][1..] == [] && [T(a), Space][1..] == [Space] && [Space][1..] == [];
  }

  lemma NoTokens()
    ensures Tokens([]) == []
  {
  }

  lemma TokensOfAmong(column: string, negated: bool, n: nat)
    ensures Tokens(AmongPieces(column, negated, n)) == AmongTokens(column, negated, n)
  {
    hide Tokens, Holders;
    var a := [T(Ident(column)), Space];
    var b := if negated then [T(NOT), Space] else [];
    var c := [T(IN), Space, T(Open)];
    NoTokens();
    TokensOf1(Ident(column));
    TokensOf1(NOT);
    TokensOf1(Open);
    TokensOf1(Close);
    assert c == [T(IN), Space] + [T(Open)];
    TokensOf1(IN);
    TokensAppend([T(IN), Space], [T(Open)]);
    TokensAppend(a, b);
    TokensAppend(a + b, c);
    TokensAppend(a + b + c, Holders(n));
    TokensAppend(a + b + c + Holders(n), [T(Close)]);
  }

  // ---------- parsing one clause ----------

  lemma ParseAmong(column: string, negated: bool, k: nat, rest: seq<Token>, n: nat)
    requires k > 0
    ensures ParsePrimary(AmongTokens(column, negated, k) + rest, n)
            == Some(Parsed(Among(Column(column), negated, n, k), rest, n + k))
  {
    hide Tokens, Holders, ParamList;
    ParamListHolders(k, rest);
    var list := Tokens(Holders(k)) + [Close] + rest;
    var ts := AmongTokens(column, negated, k) + rest;
    assert ts == [Ident(column)] + (if negated then [NOT] else []) + [IN, Open] + list;
    assert ts[1..] == (if negated then [NOT] else []) + [IN, Open] + list;
    assert ts[1..][if negated then 3 else 2..] == list;
  }

  lemma ParseNull(column: string, rest: seq<Token>, n: nat)
    ensures ParsePrimary([Ident(column), IS, NULL] + rest, n) == Some(Parsed(NullExpr(column), rest, n))
  {
    var ts := [Ident(column), IS, NULL] + rest;
    assert ts[1..] == [IS, NULL] + rest && ts[1..][2..] == rest;
  }

  lemma ParseNotNull(column: string, rest: seq<Token>, n: nat)
    ensures ParsePrimary([Ident(column), IS, NOT, NULL] + rest, n)
            == Some(Parsed(IsNull(Column(column), true), rest, n))
  {
    var ts := [Ident(column), IS, NOT, NULL] + rest;
    assert ts[1..] == [IS, NOT, NULL] + rest && ts[1..][3..] == rest;
  }

  lemma ParseCompare(column: string, op: Comparison, rest: seq<Token>, n: nat)
    ensures ParsePrimary([Ident(column), OpToken(op), Param] + rest, n)
            == Some(Parsed(Compare(Column(column), op, n), rest, n + 1))
  {
    var ts := [Ident(column), OpToken(op), Param] + rest;
    assert ts[1..] == [OpToken(op), Param] + rest && ts[1..][2..] == rest;
  }

  lemma ParseInstant(column: string, op: Comparison, rest: seq<Token>, n: nat)
    ensures ParsePrimary(
              [Ident("strftime"), Open, Quoted(ISO_FORMAT), Comma, Ident(column), Close, OpToken(op), Param] + rest, n)
            == Some(Parsed(Compare(Instant(column), op, n), rest, n + 1))
  {
    var ts := [Ident("strftime"), Open, Quoted(ISO_FORMAT), Comma, Ident(column), Close, OpToken(op), Param] + rest;
    assert ts[6..] == [OpToken(op), Param] + rest && ts[6..][2..] == rest;
  }

  /** A predicate widened to admit NULL is one parenthesised primary. */
  lemma ParseWidened(inner: seq<Token>, column: string, e: Expr, k: nat, rest: seq<Token>, n: nat)
    requires forall r :: ParsePrimary(inner + r, n) == Some(Parsed(e, r, n + k))
    requires inner != [] && inner[0] == Ident(column) && !OpensQuery(column)
    ensures ParsePrimary([Open] + inner + [OR, Ident(column), IS, NULL, Close] + rest, n)
            == Some(Parsed(Disj(e, NullExpr(column)), rest, n + k))
  {
    hide ParseTerm, ParseAfterTerm, OpensQuery;
    var ts := [Open] + inner + [OR, Ident(column), IS, NULL, Close] + rest;
    var r0 := [OR, Ident(column), IS, NULL, Close] + rest;
    var r1 := [Close] + rest;
    assert ts[1..] == inner + r0;
    assert ParsePrimary(inner + r0, n) == Some(Parsed(e, r0, n + k));
    assert ParseAnd(inner + r0, n) == Some(Parsed(e, r0, n + k));
    assert r0[1..] == [Ident(column), IS, NULL] + r1;
    ParseNull(column, r1, n + k);
    assert ParseAnd(r0[1..], n + k) == Some(Parsed(NullExpr(column), r1, n + k));
    assert OrTail(Parsed(e, r0, n + k)) == Some(Parsed(Disj(e, NullExpr(column)), r1, n + k));
    assert r1[1..] == rest;
  }

  // ---------- one clause, as tokens ----------

  function CoreTokens(f: Filter): seq<Token> {
    match f.op
    case OpIn => AmongTokens(f.column, false, |ListOf(f.value)|)
    case OpNotIn => AmongTokens(f.column, true, |ListOf(f.value)|)
    case _ => [Ident(f.column), OpToken(SqlOp(f.op)), Param]
  }

  function WidenTokens(column: string, ts: seq<Token>): seq<Token> {
    [Open] + ts + [OR, Ident(column), IS, NULL, Close]
  }

  function ClauseTokens(c: Clause): seq<Token> {
    match c
    case RowidAfter(_) => [Ident("rowid"), Op(Gt), Param]
    case ByFilter(f) =>
      if f.op.OpIsNull? then [Ident(f.column), IS, NULL]
      else if f.op.OpNotNull? then [Ident(f.column), IS, NOT, NULL]
      else if AdmitsNulls(f) then WidenTokens(f.column, CoreTokens(f))
      else CoreTokens(f)
    case ByCursor(timestamp, column, inclusive, _) =>
      (if timestamp then [Ident("strftime"), Open, Quoted(ISO_FORMAT), Comma, Ident(column), Close]
       else [Ident(column)])
      + [Op(if inclusive then Gte else Gt), Param]
    case ByKeys(column, keys) => AmongTokens(column, false, |keys|)
  }

  lemma TokensOfCore(f: Filter)
    requires !Unary(f)
    ensures Tokens(CorePieces(f)) == CoreTokens(f)
  {
    if f.op.OpIn? || f.op.OpNotIn? {
      TokensOfAmong(f.column, f.op.OpNotIn?, |ListOf(f.value)|);
    } else {
      TokensOf3(Ident(f.column), OpToken(SqlOp(f.op)), Param);
    }
  }

  lemma TokensOfWiden(column: string, ps: seq<Piece>)
    ensures Tokens([T(Open)] + ps + [Space, T(OR), Space] + NullPieces(column) + [T(Close)])
            == WidenTokens(column, Tokens(ps))
  {
    var o := [Space, T(OR), Space];
    TokensOf1(Open);
    TokensOf1(Close);
    TokensOf1(OR);
    assert o == [Space] + [T(OR), Space];
    TokensAppend([Space], [T(OR), Space]);
    TokensOf3(Ident(column), IS, NULL);
    TokensAppend([T(Open)], ps);
    TokensAppend([T(Open)] + ps, o);
    TokensAppend([T(Open)] + ps + o, NullPieces(column));
    TokensAppend([T(Open)] + ps + o + NullPieces(column), [T(Close)]);
  }

  lemma TokensOfComparison(op: Comparison)
    ensures Tokens([Space, T(OpToken(op)), Space, T(Param)]) == [OpToken(op), Param]
  {
    hide OpToken;
    TokensOf1(OpToken(op));
    TokensOf1(Param);
    assert [Space, T(OpToken(op)), Space, T(Param)] == [Space] + [T(OpToken(op)), Space] + [T(Param)];
    TokensAppend([Space], [T(OpToken(op)), Space]);
    TokensAppend([Space] + [T(OpToken(op)), Space], [T(Param)]);
  }

  lemma TokensOfNormalised(column: string)
    ensures Tokens(CursorPieces(true, column))
            == [Ident("strftime"), Open, Quoted(ISO_FORMAT), Comma, Ident(column), Close]
  {
    hide Tokens;
    var a := [T(Ident("strftime"))] + [T(Open)] + [T(Quoted(ISO_FORMAT))];
    TokensOf1(Ident("strftime"));
    TokensOf1(Open);
    TokensOf1(Quoted(ISO_FORMAT));
    TokensOf1(Comma);
    TokensOf1(Ident(column));
    TokensOf1(Close);
    TokensAppend([T(Ident("strftime"))], [T(Open)]);
    TokensAppend([T(Ident("strftime"))] + [T(Open)], [T(Quoted(ISO_FORMAT))]);
    TokensAppend(a, [T(Comma), Space]);
    TokensAppend(a + [T(Comma), Space], [T(Ident(column))]);
    TokensAppend(a + [T(Comma), Space] + [T(Ident(column))], [T(Close)]);
    assert CursorPieces(true, column) == a + [T(Comma), Space] + [T(Ident(column))] + [T(Close)];
  }

  lemma TokensOfCursor(timestamp: bool, column: string, op: Comparison)
    ensures Tokens(CursorPieces(timestamp, column) + [Space, T(OpToken(op)), Space, T(Param)])
            == (if timestamp then [Ident("strftime"), Open, Quoted(ISO_FORMAT), Comma, Ident(column), Close]
                else [Ident(column)]) + [OpToken(op), Param]
  {
    hide OpToken, Tokens;
    TokensOfComparison(op);
    TokensAppend(CursorPieces(timestamp, column), [Space, T(OpToken(op)), Space, T(Param)]);
    if timestamp {
      TokensOfNormalised(column);
    } else {
      TokensOf1(Ident(column));
    }
  }

  lemma TokensOfClause(c: Clause)
    ensures Tokens(ClausePieces(c)) == ClauseTokens(c)
  {
    match c {
      case RowidAfter(_) => TokensOf3(Ident("rowid"), Op(Gt), Param);
      case ByFilter(f) =>
        if f.op.OpIsNull? {
          TokensOf3(Ident(f.column), IS, NULL);
        } else if f.op.OpNotNull? {
          TokensOf4(Ident(f.column), IS, NOT, NULL);
        } else {
          TokensOfCore(f);
          TokensOfWiden(f.column, CorePieces(f));
          assert FilterPieces(f) == Widen(f, CorePieces(f));
        }
      case ByCursor(timestamp, column, inclusive, _) =>
        TokensOfCursor(timestamp, column, if inclusive then Gte else Gt);
      case ByKeys(column, keys) => TokensOfAmong(column, false, |keys|);
    }
  }

  // ---------- one clause, parsed ----------

  lemma ParseCore(f: Filter, rest: seq<Token>, n: nat)
    requires Valid(f) && !Unary(f)
    ensures ParsePrimary(CoreTokens(f) + rest, n) == Some(Parsed(CoreExpr(f, n), rest, n + |FilterArgs(f)|))
  {
    if f.op.OpIn? || f.op.OpNotIn? {
      ParseAmong(f.column, f.op.OpNotIn?, |ListOf(f.value)|, rest, n);
    } else {
      ParseCompare(f.column, SqlOp(f.op), rest, n);
    }
  }

  lemma ParseFilter(f: Filter, rest: seq<Token>, n: nat)
    requires Valid(f) && Readable(f)
    ensures ParsePrimary(ClauseTokens(ByFilter(f)) + rest, n)
            == Some(Parsed(FilterExpr(f, n), rest, n + |FilterArgs(f)|))
  {
    if f.op.OpIsNull? {
      ParseNull(f.column, rest, n);
    } else if f.op.OpNotNull? {
      ParseNotNull(f.column, rest, n);
    } else if AdmitsNulls(f) {
      forall r ensures ParsePrimary(CoreTokens(f) + r, n) == Some(Parsed(CoreExpr(f, n), r, n + |FilterArgs(f)|)) {
        ParseCore(f, r, n);
      }
      ParseWidened(CoreTokens(f), f.column, CoreExpr(f, n), |FilterArgs(f)|, rest, n);
    } else {
      ParseCore(f, rest, n);
    }
  }

  lemma ParseCursor(c: Clause, rest: seq<Token>, n: nat)
    requires c.ByCursor?
    ensures ParsePrimary(ClauseTokens(c) + rest, n) == Some(Parsed(ClauseExpr(c, n), rest, n + 1))
  {
    var op := if c.inclusive then Gte else Gt;
    if c.timestamp {
      ParseInstant(c.column, op, rest, n);
      assert ClauseTokens(c)
             == [Ident("strftime"), Open, Quoted(ISO_FORMAT), Comma, Ident(c.column), Close, Op(op), Param];
    } else {
      ParseCompare(c.column, op, rest, n);
      assert ClauseTokens(c) == [Ident(c.column), Op(op), Param];
    }
  }

  lemma ParseClause(c: Clause, rest: seq<Token>, n: nat)
    requires ClauseOk(c)
    ensures ParsePrimary(ClauseTokens(c) + rest, n) == Some(Parsed(ClauseExpr(c, n), rest, n + |ClauseArgs(c)|))
  {
    match c {
      case RowidAfter(_) => ParseCompare("rowid", Gt, rest, n);
      case ByFilter(f) => ParseFilter(f, rest, n);
      case ByCursor(_, _, _, _) => ParseCursor(c, rest, n);
      case ByKeys(column, keys) => ParseAmong(column, false, |keys|, rest, n);
    }
  }

  // ---------- one clause, evaluated ----------

  predicate NullFree(list: seq<Value>) {
    forall i :: 0 <= i < |list| ==> !list[i].Null?
  }

  lemma {:induction false} In3Null(g: Engine, list: seq<Value>)
    requires list != []
    ensures In3(g, Null, list) == Unknown
  {
    if |list| > 1 {
      In3Null(g, list[1..]);
    } else {
      assert In3(g, Null, list[1..]) == False;
    }
  }

  /** IN over three-valued equality: true for a member, unknown past a NULL, false otherwise. */
  lemma {:induction false} In3Known(g: Engine, v: Value, list: seq<Value>)
    requires !v.Null?
    ensures In3(g, v, list) == if v in list then True else if NullFree(list) then False else Unknown
  {
    if list != [] {
      In3Known(g, v, list[1..]);
      assert list == [list[0]] + list[1..];
      assert NullFree(list) <==> !list[0].Null? && NullFree(list[1..]) by {
        assert forall i :: 0 <= i < |list[1..]| ==> list[1..][i] == list[i + 1];
      }
    }
  }

  /** A NOT IN list that holds a NULL is the one thing the compiled text gets wrong. */
  predicate NotInNull(f: Filter) {
    f.op.OpNotIn? && f.value.Many? && !NullFree(f.value.list)
  }

  lemma EvalFilter(g: Engine, row: Record, args: seq<Value>, f: Filter, n: nat)
    requires Valid(f) && Bound(args, n, FilterArgs(f))
    ensures !NotInNull(f) ==> (Eval(g, row, args, FilterExpr(f, n)).True? <==> Accepts(g, f, row))
    ensures NotInNull(f) ==> (Eval(g, row, args, FilterExpr(f, n)).True? <==> Lookup(row, f.column).Null?)
  {
    var v := Lookup(row, f.column);
    BoundArgs(args, n, FilterArgs(f));
    if f.op.OpIn? || f.op.OpNotIn? {
      var list := f.value.list;
      if v.Null? {
        In3Null(g, list);
      } else {
        In3Known(g, v, list);
      }
    } else if !Unary(f) {
      assert args[n..n + 1][0] == args[n];
    }
  }

  lemma EvalClause(g: Engine, row: Record, args: seq<Value>, c: Clause, n: nat)
    requires ClauseOk(c) && Bound(args, n, ClauseArgs(c))
    requires c.ByFilter? ==> !NotInNull(c.f)
    ensures Eval(g, row, args, ClauseExpr(c, n)).True? <==> ClauseHolds(g, c, row)
  {
    BoundArgs(args, n, ClauseArgs(c));
    match c {
      case RowidAfter(after) => assert args[n..n + 1][0] == args[n];
      case ByFilter(f) => EvalFilter(g, row, args, f, n);
      case ByCursor(_, _, _, _) => assert args[n..n + 1][0] == args[n];
      case ByKeys(column, keys) =>
        var v := Lookup(row, column);
        if v.Null? {
          In3Null(g, keys);
        } else {
          In3Known(g, v, keys);
        }
    }
  }

  // ---------- conjunctions ----------

  function PartOf(c: Clause): Part {
    Part(ClauseTokens(c), ClauseArgs(c), (n: nat) => ClauseExpr(c, n))
  }

  function Parts(cs: seq<Clause>): (ps: seq<Part>)
    ensures |ps| == |cs|
    ensures forall i :: 0 <= i < |cs| ==> ps[i] == PartOf(cs[i])
  {
    seq(|cs|, i requires 0 <= i < |cs| => PartOf(cs[i]))
  }

  function TailPieces(cs: seq<Clause>): seq<Piece> {
    if cs == [] then [] else [Space, T(AND), Space] + ClausePieces(cs[0]) + TailPieces(cs[1..])
  }

  /** Clauses joined by " AND ". */
  function JoinPieces(cs: seq<Clause>): seq<Piece> {
    if cs == [] then [] else ClausePieces(cs[0]) + TailPieces(cs[1..])
  }

  predicate AllOk(cs: seq<Clause>) {
    forall i :: 0 <= i < |cs| ==> ClauseOk(cs[i])
  }

  predicate AllHold(g: Engine, cs: seq<Clause>, row: Record)
    requires AllOk(cs)
  {
    forall i :: 0 <= i < |cs| ==> ClauseHolds(g, cs[i], row)
  }

  predicate NoNotInNull(cs: seq<Clause>) {
    forall i :: 0 <= i < |cs| ==> cs[i].ByFilter? ==> !NotInNull(cs[i].f)
  }

  lemma AndTokens()
    ensures Tokens([Space, T(AND), Space]) == [AND]
  {
    assert [Space, T(AND), Space] == [Space] + [T(AND), Space];
    TokensOf1(AND);
    TokensAppend([Space], [T(AND), Space]);
  }

  lemma {:induction false} TokensOfTail(cs: seq<Clause>)
    ensures Tokens(TailPieces(cs)) == TailTokens(Parts(cs))
  {
    if cs != [] {
      AndTokens();
      TokensOfClause(cs[0]);
      TokensOfTail(cs[1..]);
      TokensAppend([Space, T(AND), Space], ClausePieces(cs[0]));
      TokensAppend([Space, T(AND), Space] + ClausePieces(cs[0]), TailPieces(cs[1..]));
      assert Parts(cs)[1..] == Parts(cs[1..]);
    }
  }

  lemma PartReads(c: Clause)
    requires ClauseOk(c)
    ensures Reads(PartOf(c))
  {
    forall rest: seq<Token>, n: nat
      ensures ParsePrimary(ClauseTokens(c) + rest, n) == Some(Parsed(ClauseExpr(c, n), rest, n + |ClauseArgs(c)|))
    {
      ParseClause(c, rest, n);
    }
  }

  lemma PartMeans(g: Engine, row: Record, c: Clause)
    requires ClauseOk(c) && (c.ByFilter? ==> !NotInNull(c.f))
    ensures Means(g, row, PartOf(c), ClauseHolds(g, c, row))
  {
    forall args: seq<Value>, n: nat | Bound(args, n, ClauseArgs(c))
      ensures Eval(g, row, args, ClauseExpr(c, n)).True? <==> ClauseHolds(g, c, row)
    {
      EvalClause(g, row, args, c, n);
    }
  }

  // ---------- spelling ----------

  lemma {:induction false} HoldersSpaced(n: nat)
    requires n > 0
    ensures Spaced(Holders(n)) && Holders(n) != []
    ensures Soft(Holders(n)[0]) && Soft(Holders(n)[|Holders(n)| - 1])
  {
    if n > 1 {
      HoldersSpaced(n - 1);
      assert Spaced([T(Param), T(Comma), Space]);
      SpacedAppend([T(Param), T(Comma), Space], Holders(n - 1));
    }
  }

  lemma AmongSpaced(column: string, negated: bool, n: nat)
    requires ProperName(column) && n > 0
    ensures Spaced(AmongPieces(column, negated, n))
    ensures Soft(AmongPieces(column, negated, n)[|AmongPieces(column, negated, n)| - 1])
  {
    var a := [T(Ident(column)), Space] + (if negated then [T(NOT), Space] else []) + [T(IN), Space, T(Open)];
    assert Spaced(a);
    HoldersSpaced(n);
    SpacedAppend(a, Holders(n));
    SpacedAppend(a + Holders(n), [T(Close)]);
  }

  lemma NullTailSpaced(column: string)
    requires ProperName(column)
    ensures Spaced([Space, T(OR), Space] + NullPieces(column) + [T(Close)])
  {
    hide ProperName;
    var tail := [Space, T(OR), Space] + NullPieces(column) + [T(Close)];
    assert tail == [Space, T(OR), Space, T(Ident(column)), Space, T(IS), Space, T(NULL), T(Close)];
  }

  lemma WidenSpaced(column: string, ps: seq<Piece>)
    requires ProperName(column) && Spaced(ps) && ps != []
    ensures Spaced([T(Open)] + ps + [Space, T(OR), Space] + NullPieces(column) + [T(Close)])
  {
    var tail := [Space, T(OR), Space] + NullPieces(column) + [T(Close)];
    NullTailSpaced(column);
    SpacedAppend([T(Open)], ps);
    SpacedAppend([T(Open)] + ps, tail);
    assert [T(Open)] + ps + [Space, T(OR), Space] + NullPieces(column) + [T(Close)] == [T(Open)] + ps + tail;
  }

  lemma OpIsWritable(op: Comparison)
    ensures Writable(OpToken(op))
  {
    assert UpperWord("LIKE") == "LIKE";
  }

  lemma FilterSpaced(f: Filter)
    requires Valid(f) && ProperName(f.column)
    ensures Spaced(FilterPieces(f))
  {
    if !Unary(f) {
      if f.op.OpIn? || f.op.OpNotIn? {
        AmongSpaced(f.column, f.op.OpNotIn?, |ListOf(f.value)|);
      }
      OpIsWritable(SqlOp(f.op));
      WidenSpaced(f.column, CorePieces(f));
      assert FilterPieces(f) == Widen(f, CorePieces(f));
    }
  }

  lemma CursorSpaced(timestamp: bool, column: string, op: Comparison)
    requires ValidIdent(column) && !Reserved(column) && !op.Like?
    ensures Spaced(CursorPieces(timestamp, column) + [Space, T(Op(op)), Space, T(Param)])
  {
    StrftimeIsAName();
    SpacedAppend(CursorPieces(timestamp, column), [Space, T(Op(op)), Space, T(Param)]);
  }

  lemma ClauseSpaced(c: Clause)
    requires ClauseOk(c)
    ensures Spaced(ClausePieces(c))
  {
    match c {
      case RowidAfter(_) => RowidIsAName();
      case ByFilter(f) => FilterSpaced(f);
      case ByCursor(timestamp, column, inclusive, _) =>
        CursorSpaced(timestamp, column, if inclusive then Gte else Gt);
      case ByKeys(column, keys) => AmongSpaced(column, false, |keys|);
    }
  }

  lemma RowidIsAName()
    ensures ProperName("rowid")
  {
    assert UpperWord("rowid") == "ROWID";
  }

  lemma StrftimeIsAName()
    ensures ProperName("strftime")
  {
    assert UpperWord("strftime") == "STRFTIME";
  }

  lemma AndSpaced()
    ensures Spaced([Space, T(AND), Space])
  {
  }

  lemma {:induction false} TailSpaced(cs: seq<Clause>)
    requires AllOk(cs)
    ensures Spaced(TailPieces(cs)) && (cs != [] ==> TailPieces(cs)[0].Space?)
    decreases |cs|
  {
    if cs != [] {
      assert AllOk(cs[1..]) by {
        assert forall i :: 0 <= i < |cs[1..]| ==> cs[1..][i] == cs[i + 1];
      }
      hide ClauseOk, ClausePieces, Spaced;
      ClauseSpaced(cs[0]);
      TailSpaced(cs[1..]);
      AndSpaced();
      SpacedAppend([Space, T(AND), Space], ClausePieces(cs[0]));
      SpacedAppend([Space, T(AND), Space] + ClausePieces(cs[0]), TailPieces(cs[1..]));
    }
  }

  // ---------- the theorem ----------

  lemma JoinLexes(cs: seq<Clause>)
    requires cs != [] && AllOk(cs)
    ensures Lex(Spell(JoinPieces(cs))) == ClauseTokens(cs[0]) + TailTokens(Parts(cs[1..]))
  {
    var c, tail := cs[0], cs[1..];
    assert forall i :: 0 <= i < |tail| ==> tail[i] == cs[i + 1];
    ClauseSpaced(c);
    TailSpaced(tail);
    SpacedAppend(ClausePieces(c), TailPieces(tail));
    LexSpell(JoinPieces(cs));
    TokensAppend(ClausePieces(c), TailPieces(tail));
    TokensOfClause(c);
    TokensOfTail(tail);
  }

  lemma JoinParses(cs: seq<Clause>)
    requires cs != [] && AllOk(cs)
    ensures var ps := Parts(cs);
            Parse(Spell(JoinPieces(cs))) == Some(Chain(ps[0].expr(0), ps[1..], |ps[0].args|))
  {
    var ps := Parts(cs);
    JoinLexes(cs);
    assert ps[1..] == Parts(cs[1..]);
    forall i | 0 <= i < |cs| ensures Reads(ps[i]) {
      PartReads(cs[i]);
    }
    ConjunctionReads(ps);
  }

  function ClausesArgs(cs: seq<Clause>): seq<Value> {
    JoinArgs(Parts(cs))
  }

  /** The text of a conjunction of clauses, read back with SQL's precedence and evaluated
      with its parameters bound from left to right, is true exactly for the rows every
      clause stands for. */
  lemma TextMeansClauses(g: Engine, row: Record, cs: seq<Clause>)
    requires cs != [] && AllOk(cs) && NoNotInNull(cs)
    ensures Parse(Spell(JoinPieces(cs))).Some?
    ensures Eval(g, row, ClausesArgs(cs), Parse(Spell(JoinPieces(cs))).value).True? <==> AllHold(g, cs, row)
  {
    JoinParses(cs);
    var holds := seq(|cs|, i requires 0 <= i < |cs| => ClauseHolds(g, cs[i], row));
    forall i | 0 <= i < |cs| ensures Means(g, row, Parts(cs)[i], holds[i]) {
      PartMeans(g, row, cs[i]);
    }
    ConjunctionMeans(g, row, Parts(cs), holds);
    assert forall i :: 0 <= i < |cs| ==> holds[i] == ClauseHolds(g, cs[i], row);
  }
}
