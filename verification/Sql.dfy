/** The fragment of SQL the read layer writes: its words, its grammar with AND binding
    tighter than OR, and its three-valued meaning (sections 8.2, 8.4, 8.6 and 8.12 of
    ISO/IEC 9075:1992). */
module Sql {

  // ---------- values and truth ----------

  datatype Value = Null | Int(n: int) | Text(s: string)

  datatype Tri = True | False | Unknown

  function And3(a: Tri, b: Tri): Tri {
    if a.False? || b.False? then False else if a.True? && b.True? then True else Unknown
  }

  function Or3(a: Tri, b: Tri): Tri {
    if a.True? || b.True? then True else if a.False? && b.False? then False else Unknown
  }

  function Not3(a: Tri): Tri {
    match a case True => False case False => True case Unknown => Unknown
  }

  function Known(b: bool): Tri {
    if b then True else False
  }

  /** Text compares character by character, a prefix first. */
  predicate TextLess(a: string, b: string) {
    if b == "" then false
    else if a == "" then true
    else a[0] < b[0] || (a[0] == b[0] && TextLess(a[1..], b[1..]))
  }

  /** Integers come before text. */
  predicate Less(a: Value, b: Value) {
    match (a, b)
    case (Int(m), Int(n)) => m < n
    case (Int(_), Text(_)) => true
    case (Text(x), Text(y)) => TextLess(x, y)
    case _ => false
  }

  datatype Comparison = Eq | Ne | Lt | Lte | Gt | Gte | Like

  /** What the engine supplies: LIKE on two non-null values, the normalisation of a timestamp
      column to a UTC instant, which is NULL when the text does not parse, and the value of
      the three words that read its clock. */
  datatype Engine = Engine(like: (Value, Value) -> bool, instant: Value -> Value, clock: string -> Value)

  predicate Holds(g: Engine, op: Comparison, a: Value, b: Value) {
    match op
    case Eq => a == b
    case Ne => a != b
    case Lt => Less(a, b)
    case Lte => Less(a, b) || a == b
    case Gt => Less(b, a)
    case Gte => Less(b, a) || a == b
    case Like => g.like(a, b)
  }

  /** A comparison with NULL is unknown. */
  function Compare3(g: Engine, op: Comparison, a: Value, b: Value): Tri {
    if a.Null? || b.Null? then Unknown else Known(Holds(g, op, a, b))
  }

  /** `a IN (list)` is the disjunction of the equalities. */
  function In3(g: Engine, a: Value, list: seq<Value>): Tri {
    if list == [] then False else Or3(Compare3(g, Eq, a, list[0]), In3(g, a, list[1..]))
  }

  // ---------- tokens ----------

  datatype Token =
    | Ident(name: string)
    | AND | OR | IS | NOT | NULL | IN
    | Word(word: string)
    | Op(op: Comparison)
    | Quoted(text: string)
    | Open | Close | Comma | Param
    | Bad(c: char)

  predicate WordChar(c: char) {
    'a' <= c <= 'z' || 'A' <= c <= 'Z' || '0' <= c <= '9' || c == '_'
  }

  function Upper(c: char): char {
    if 'a' <= c <= 'z' then c - 'a' + 'A' else c
  }

  function UpperWord(w: string): string {
    seq(|w|, i requires 0 <= i < |w| => Upper(w[i]))
  }

  /** The words that read the engine's clock where a column is expected. */
  predicate ClockWord(u: string) {
    u in {"CURRENT_DATE", "CURRENT_TIME", "CURRENT_TIMESTAMP"}
  }

  /** The words SQLite does not take for a column at the start of an expression. Its other
      keywords, LIKE among them, it reads as names there. */
  predicate ReservedWord(u: string) {
    u in {"AND", "OR", "IS", "NOT", "NULL", "IN",
          "ADD", "ALL", "ALTER", "AS", "AUTOINCREMENT", "BETWEEN", "CASE", "CAST", "CHECK", "COLLATE", "COMMIT",
          "CONSTRAINT", "CREATE", "DEFAULT", "DEFERRABLE", "DELETE", "DISTINCT", "DROP", "ELSE", "ESCAPE", "EXCEPT",
          "EXISTS", "FOREIGN", "FROM", "GROUP", "HAVING", "INDEX", "INSERT", "INTERSECT", "INTO", "ISNULL", "JOIN",
          "LIMIT", "NOTHING", "NOTNULL", "ON", "ORDER", "PRIMARY", "RAISE", "REFERENCES", "RETURNING", "SELECT",
          "SET", "TABLE", "THEN", "TO", "TRANSACTION", "UNION", "UNIQUE", "UPDATE", "USING", "VALUES", "WHEN", "WHERE"}
    || ClockWord(u)
  }

  predicate Reserved(w: string) {
    ReservedWord(UpperWord(w))
  }

  function WordToken(w: string): Token {
    var u := UpperWord(w);
    if u == "AND" then AND else if u == "OR" then OR else if u == "IS" then IS
    else if u == "NOT" then NOT else if u == "NULL" then NULL else if u == "IN" then IN
    else if ReservedWord(u) then Word(u) else Ident(w)
  }

  /** A name that starts a query when it follows an opening parenthesis. */
  predicate OpensQuery(w: string) {
    UpperWord(w) == "WITH"
  }

  /** LIKE is a name to the lexer; the parser takes it for an operator after a term. */
  predicate LikeName(w: string) {
    UpperWord(w) == "LIKE"
  }

  function OpToken(op: Comparison): Token {
    if op.Like? then Ident("LIKE") else Op(op)
  }

  function WordLength(s: string): (n: nat)
    ensures n <= |s|
    ensures forall i :: 0 <= i < n ==> WordChar(s[i])
    ensures n < |s| ==> !WordChar(s[n])
    ensures s != "" && WordChar(s[0]) ==> n > 0
  {
    if s == "" || !WordChar(s[0]) then 0 else 1 + WordLength(s[1..])
  }

  function QuoteLength(s: string): (n: nat)
    ensures n <= |s|
    ensures forall i :: 0 <= i < n ==> s[i] != '\''
    ensures n < |s| ==> s[n] == '\''
  {
    if s == "" || s[0] == '\'' then 0 else 1 + QuoteLength(s[1..])
  }

  function Lex(s: string): seq<Token>
    decreases |s|
  {
    if s == "" then []
    else if s[0] == ' ' then Lex(s[1..])
    else if s[0] == '(' then [Open] + Lex(s[1..])
    else if s[0] == ')' then [Close] + Lex(s[1..])
    else if s[0] == ',' then [Comma] + Lex(s[1..])
    else if s[0] == '?' then [Param] + Lex(s[1..])
    else if s[0] == '=' then [Op(Eq)] + Lex(s[1..])
    else if s[0] == '<' then
      if |s| > 1 && s[1] == '=' then [Op(Lte)] + Lex(s[2..]) else [Op(Lt)] + Lex(s[1..])
    else if s[0] == '>' then
      if |s| > 1 && s[1] == '=' then [Op(Gte)] + Lex(s[2..]) else [Op(Gt)] + Lex(s[1..])
    else if s[0] == '!' && |s| > 1 && s[1] == '=' then [Op(Ne)] + Lex(s[2..])
    else if s[0] == '\'' then
      var n := QuoteLength(s[1..]);
      if n < |s| - 1 then [Quoted(s[1..n + 1])] + Lex(s[n + 2..]) else [Bad('\'')]
    else if WordChar(s[0]) then
      var n := WordLength(s);
      [WordToken(s[..n])] + Lex(s[n..])
    else [Bad(s[0])] + Lex(s[1..])
  }

  // ---------- spelling ----------

  datatype Piece = Space | Tok(token: Token)

  function SpellOp(op: Comparison): string {
    match op
    case Eq => "=" case Ne => "!=" case Lt => "<" case Lte => "<="
    case Gt => ">" case Gte => ">=" case Like => "LIKE"
  }

  function SpellToken(k: Token): string {
    match k
    case Ident(name) => name
    case AND => "AND" case OR => "OR" case IS => "IS" case NOT => "NOT" case NULL => "NULL" case IN => "IN"
    case Word(word) => word
    case Op(op) => SpellOp(op)
    case Quoted(text) => "'" + text + "'"
    case Open => "(" case Close => ")" case Comma => "," case Param => "?"
    case Bad(c) => [c]
  }

  function SpellPiece(p: Piece): string {
    match p case Space => " " case Tok(k) => SpellToken(k)
  }

  function Spell(ps: seq<Piece>): string {
    if ps == [] then "" else SpellPiece(ps[0]) + Spell(ps[1..])
  }

  function Tokens(ps: seq<Piece>): seq<Token> {
    if ps == [] then []
    else (match ps[0] case Space => [] case Tok(k) => [k]) + Tokens(ps[1..])
  }

  predicate ProperName(w: string) {
    w != "" && (forall i :: 0 <= i < |w| ==> WordChar(w[i])) && !Reserved(w)
  }

  /** The token can be written down and read back. */
  predicate Writable(k: Token) {
    match k
    case Ident(name) => ProperName(name)
    case Quoted(text) => forall i :: 0 <= i < |text| ==> text[i] != '\''
    case Op(op) => !op.Like?
    case Word(_) => false
    case Bad(_) => false
    case _ => true
  }

  predicate Soft(p: Piece) {
    p.Space? || p.token.Open? || p.token.Close? || p.token.Comma? || p.token.Param?
  }

  /** Words and operators are never run together. */
  predicate Spaced(ps: seq<Piece>) {
    && (forall i :: 0 <= i < |ps| ==> ps[i].Tok? ==> Writable(ps[i].token))
    && (forall i :: 0 <= i < |ps| - 1 ==> Soft(ps[i]) || Soft(ps[i + 1]))
  }

  lemma {:induction false} WordLengthIs(w: string, rest: string)
    requires forall i :: 0 <= i < |w| ==> WordChar(w[i])
    requires rest == "" || !WordChar(rest[0])
    ensures WordLength(w + rest) == |w|
  {
    if w == "" {
      assert w + rest == rest;
    } else {
      WordLengthIs(w[1..], rest);
      assert (w + rest)[0] == w[0] && (w + rest)[1..] == w[1..] + rest;
    }
  }

  lemma {:induction false} QuoteLengthIs(w: string, rest: string)
    requires forall i :: 0 <= i < |w| ==> w[i] != '\''
    requires rest != "" && rest[0] == '\''
    ensures QuoteLength(w + rest) == |w|
  {
    if w == "" {
      assert w + rest == rest;
    } else {
      QuoteLengthIs(w[1..], rest);
      assert (w + rest)[0] == w[0] && (w + rest)[1..] == w[1..] + rest;
    }
  }

  lemma LexWord(w: string, rest: string)
    requires w != "" && (forall i :: 0 <= i < |w| ==> WordChar(w[i]))
    requires rest == "" || !WordChar(rest[0])
    ensures Lex(w + rest) == [WordToken(w)] + Lex(rest)
  {
    WordLengthIs(w, rest);
    var s := w + rest;
    assert s[0] == w[0] && s[..|w|] == w && s[|w|..] == rest;
  }

  lemma LexQuoted(text: string, rest: string)
    requires forall i :: 0 <= i < |text| ==> text[i] != '\''
    ensures Lex("'" + text + "'" + rest) == [Quoted(text)] + Lex(rest)
  {
    var s := "'" + text + "'" + rest;
    QuoteLengthIs(text, "'" + rest);
    assert s[1..] == text + ("'" + rest);
    assert s[1..|text| + 1] == text && s[|text| + 2..] == rest;
  }

  lemma LexMark(k: Token, rest: string)
    requires k.Open? || k.Close? || k.Comma? || k.Param?
    ensures Lex(SpellToken(k) + rest) == [k] + Lex(rest)
  {
    hide WordToken, WordLength, QuoteLength;
    assert (SpellToken(k) + rest)[1..] == rest;
  }

  lemma LexOneChar(op: Comparison, rest: string)
    requires (op.Eq? || op.Lt? || op.Gt?) && (rest == "" || rest[0] != '=')
    ensures Lex(SpellOp(op) + rest) == [Op(op)] + Lex(rest)
  {
    hide WordToken, WordLength, QuoteLength;
    var s := SpellOp(op) + rest;
    assert s[0] == SpellOp(op)[0] && s[1..] == rest;
  }

  lemma LexTwoChars(op: Comparison, rest: string)
    requires op.Ne? || op.Lte? || op.Gte?
    ensures Lex(SpellOp(op) + rest) == [Op(op)] + Lex(rest)
  {
    hide WordToken, WordLength, QuoteLength;
    var s := SpellOp(op) + rest;
    assert s[0] == SpellOp(op)[0] && s[1] == '=' && s[2..] == rest;
  }

  lemma LexSymbol(k: Token, rest: string)
    requires k.Open? || k.Close? || k.Comma? || k.Param? || (k.Op? && !k.op.Like?)
    requires k.Op? ==> rest == "" || rest[0] != '='
    ensures Lex(SpellToken(k) + rest) == [k] + Lex(rest)
  {
    hide Lex;
    if k.Op? && (k.op.Eq? || k.op.Lt? || k.op.Gt?) {
      LexOneChar(k.op, rest);
    } else if k.Op? {
      LexTwoChars(k.op, rest);
    } else {
      LexMark(k, rest);
    }
  }

  lemma KeywordWords()
    ensures WordToken("AND") == AND && WordToken("OR") == OR && WordToken("IS") == IS
    ensures WordToken("NOT") == NOT && WordToken("NULL") == NULL && WordToken("IN") == IN
    ensures LikeName("LIKE")
  {
    assert UpperWord("AND") == "AND" && UpperWord("OR") == "OR" && UpperWord("IS") == "IS";
    assert UpperWord("NOT") == "NOT" && UpperWord("NULL") == "NULL" && UpperWord("IN") == "IN";
    assert UpperWord("LIKE") == "LIKE";
  }

  predicate Keyword(k: Token) {
    k.AND? || k.OR? || k.IS? || k.NOT? || k.NULL? || k.IN?
  }

  lemma LexKeyword(k: Token, rest: string)
    requires Keyword(k)
    requires rest == "" || !WordChar(rest[0])
    ensures Lex(SpellToken(k) + rest) == [k] + Lex(rest)
  {
    hide Lex, UpperWord;
    KeywordWords();
    assert WordToken(SpellToken(k)) == k;
    LexWord(SpellToken(k), rest);
  }

  lemma LexToken(k: Token, rest: string)
    requires Writable(k)
    requires Soft(Tok(k)) || rest == "" || rest[0] in {' ', '(', ')', ',', '?'}
    ensures Lex(SpellToken(k) + rest) == [k] + Lex(rest)
  {
    if Keyword(k) {
      LexKeyword(k, rest);
    } else if k.Ident? {
      LexWord(k.name, rest);
    } else if k.Quoted? {
      LexQuoted(k.text, rest);
    } else {
      LexSymbol(k, rest);
    }
  }

  /** Text that keeps its words apart reads back as the tokens it was written from. */
  lemma {:induction false} LexSpell(ps: seq<Piece>)
    requires Spaced(ps)
    ensures Lex(Spell(ps)) == Tokens(ps)
  {
    if ps != [] {
      var rest := ps[1..];
      assert forall i :: 0 <= i < |rest| ==> rest[i] == ps[i + 1];
      LexSpell(rest);
      match ps[0] {
        case Space =>
          assert (" " + Spell(rest))[1..] == Spell(rest);
        case Tok(k) =>
          if !Soft(ps[0]) && rest != [] {
            assert Soft(ps[0]) || Soft(ps[1]);
            assert Spell(rest)[0] == SpellPiece(rest[0])[0];
          }
          LexToken(k, Spell(rest));
      }
    }
  }

  lemma Assoc(x: string, y: string, z: string)
    ensures (x + y) + z == x + (y + z)
  {
  }

  lemma {:induction false} SpellAppend(a: seq<Piece>, b: seq<Piece>)
    ensures Spell(a + b) == Spell(a) + Spell(b)
  {
    if a == [] {
      assert a + b == b;
    } else {
      SpellCons(a, b);
      SpellAppend(a[1..], b);
      Assoc(SpellPiece(a[0]), Spell(a[1..]), Spell(b));
    }
  }

  lemma SpellCons(a: seq<Piece>, b: seq<Piece>)
    requires a != []
    ensures Spell(a + b) == SpellPiece(a[0]) + Spell(a[1..] + b)
  {
    assert (a + b)[0] == a[0] && (a + b)[1..] == a[1..] + b;
  }

  lemma AssocTokens(x: seq<Token>, y: seq<Token>, z: seq<Token>)
    ensures (x + y) + z == x + (y + z)
  {
  }

  lemma {:induction false} TokensAppend(a: seq<Piece>, b: seq<Piece>)
    ensures Tokens(a + b) == Tokens(a) + Tokens(b)
  {
    if a == [] {
      assert a + b == b;
    } else {
      assert (a + b)[0] == a[0] && (a + b)[1..] == a[1..] + b;
      TokensAppend(a[1..], b);
      AssocTokens(match a[0] case Space => [] case Tok(k) => [k], Tokens(a[1..]), Tokens(b));
    }
  }

  lemma SpacedAppend(a: seq<Piece>, b: seq<Piece>)
    requires Spaced(a) && Spaced(b)
    requires a == [] || b == [] || Soft(a[|a| - 1]) || Soft(b[0])
    ensures Spaced(a + b)
  {
    var c := a + b;
    forall i | 0 <= i < |c| - 1 ensures Soft(c[i]) || Soft(c[i + 1]) {
      if i < |a| - 1 {
        assert Soft(a[i]) || Soft(a[i + 1]);
      } else if i >= |a| {
        assert Soft(b[i - |a|]) || Soft(b[i - |a| + 1]);
      }
    }
  }
}
