/** Search conditions: OR of AND of predicates, parenthesised freely, with `?` parameters
    numbered from left to right; parsing and evaluation. */
module Grammar {
  import opened Prelude
  import opened Sql

  const ISO_FORMAT := "%Y-%m-%d %H:%M:%f"

  /** A column, a timestamp column normalised by strftime, or the engine's clock. */
  datatype Term = Column(name: string) | Instant(name: string) | Clock(word: string)

  datatype Expr =
    | Conj(l: Expr, r: Expr)
    | Disj(l: Expr, r: Expr)
    | Compare(term: Term, op: Comparison, param: nat)
    | IsNull(term: Term, negated: bool)
    | Among(term: Term, negated: bool, first: nat, count: nat)

  // ---------- parsing ----------

  datatype Parsed = Parsed(expr: Expr, rest: seq<Token>, params: nat)

  /** `?` {`,` `?`} `)`: how many parameters, and what follows. */
  function ParamList(ts: seq<Token>): (r: Option<(nat, seq<Token>)>)
    ensures r.Some? ==> |r.value.1| < |ts|
  {
    if |ts| < 2 || !ts[0].Param? then None
    else if ts[1].Close? then Some((1, ts[2..]))
    else if ts[1].Comma? then
      match ParamList(ts[2..])
      case None => None
      case Some((n, rest)) => Some((n + 1, rest))
    else None
  }

  function ParseTerm(ts: seq<Token>): (r: Option<(Term, seq<Token>)>)
    ensures r.Some? ==> |r.value.1| < |ts|
  {
    if ts == [] then None
    else if ts[0].Word? then
      if ClockWord(ts[0].word) then Some((Clock(ts[0].word), ts[1..])) else None
    else if !ts[0].Ident? then None
    else if |ts| >= 6 && ts[0].name == "strftime" && ts[1].Open? && ts[2] == Quoted(ISO_FORMAT)
            && ts[3].Comma? && ts[4].Ident? && ts[5].Close? then
      Some((Instant(ts[4].name), ts[6..]))
    else Some((Column(ts[0].name), ts[1..]))
  }

  function OperatorAt(k: Token): Option<Comparison> {
    match k
    case Op(op) => Some(op)
    case Ident(name) => if LikeName(name) then Some(Like) else None
    case _ => None
  }

  function ParseAfterTerm(term: Term, ts: seq<Token>, n: nat): (r: Option<Parsed>)
    ensures r.Some? ==> |r.value.rest| < |ts|
  {
    if |ts| < 2 then None
    else if OperatorAt(ts[0]).Some? && ts[1].Param? then
      Some(Parsed(Compare(term, OperatorAt(ts[0]).value, n), ts[2..], n + 1))
    else if ts[0].IS? && ts[1].NULL? then Some(Parsed(IsNull(term, false), ts[2..], n))
    else if |ts| > 2 && ts[0].IS? && ts[1].NOT? && ts[2].NULL? then Some(Parsed(IsNull(term, true), ts[3..], n))
    else if ts[0].IN? && ts[1].Open? then
      match ParamList(ts[2..])
      case None => None
      case Some((k, rest)) => Some(Parsed(Among(term, false, n, k), rest, n + k))
    else if |ts| > 2 && ts[0].NOT? && ts[1].IN? && ts[2].Open? then
      match ParamList(ts[3..])
      case None => None
      case Some((k, rest)) => Some(Parsed(Among(term, true, n, k), rest, n + k))
    else None
  }

  function ParsePrimary(ts: seq<Token>, n: nat): (r: Option<Parsed>)
    ensures r.Some? ==> |r.value.rest| < |ts|
    decreases |ts|, 0
  {
    if ts == [] then None
    else if ts[0].Open? then
      if |ts| > 1 && ts[1].Ident? && OpensQuery(ts[1].name) then None else
      match ParseOr(ts[1..], n)
      case None => None
      case Some(p) => if p.rest != [] && p.rest[0].Close? then Some(p.(rest := p.rest[1..])) else None
    else
      match ParseTerm(ts)
      case None => None
      case Some((term, rest)) => ParseAfterTerm(term, rest, n)
  }

  function ParseAnd(ts: seq<Token>, n: nat): (r: Option<Parsed>)
    ensures r.Some? ==> |r.value.rest| < |ts|
    decreases |ts|, 2
  {
    match ParsePrimary(ts, n)
    case None => None
    case Some(p) => AndTail(p)
  }

  function AndTail(p: Parsed): (r: Option<Parsed>)
    ensures r.Some? ==> |r.value.rest| <= |p.rest|
    decreases |p.rest|, 1
  {
    if p.rest == [] || !p.rest[0].AND? then Some(p)
    else
      match ParsePrimary(p.rest[1..], p.params)
      case None => None
      case Some(q) => AndTail(q.(expr := Conj(p.expr, q.expr)))
  }

  function ParseOr(ts: seq<Token>, n: nat): (r: Option<Parsed>)
    ensures r.Some? ==> |r.value.rest| < |ts|
    decreases |ts|, 4
  {
    match ParseAnd(ts, n)
    case None => None
    case Some(p) => OrTail(p)
  }

  function OrTail(p: Parsed): (r: Option<Parsed>)
    ensures r.Some? ==> |r.value.rest| <= |p.rest|
    decreases |p.rest|, 3
  {
    if p.rest == [] || !p.rest[0].OR? then Some(p)
    else
      match ParseAnd(p.rest[1..], p.params)
      case None => None
      case Some(q) => OrTail(q.(expr := Disj(p.expr, q.expr)))
  }

  /** A search condition is the whole text. */
  function Parse(text: string): Option<Expr> {
    match ParseOr(Lex(text), 0)
    case None => None
    case Some(p) => if p.rest == [] then Some(p.expr) else None
  }

  // ---------- the first term ----------

  function FirstTerm(e: Expr): Term {
    match e
    case Conj(l, _) => FirstTerm(l)
    case Disj(l, _) => FirstTerm(l)
    case Compare(term, _, _) => term
    case IsNull(term, _) => term
    case Among(term, _, _, _) => term
  }

  /** The term the tokens begin with, inside any parentheses. */
  function HeadTerm(ts: seq<Token>): Option<Term> {
    if ts == [] then None
    else if ts[0].Open? then HeadTerm(ts[1..])
    else match ParseTerm(ts)
      case None => None
      case Some((term, _)) => Some(term)
  }

  /** Whatever tokens parse to begins with the term the tokens begin with. */
  lemma {:induction false} PrimaryHead(ts: seq<Token>, n: nat)
    ensures ParsePrimary(ts, n).Some? ==> HeadTerm(ts) == Some(FirstTerm(ParsePrimary(ts, n).value.expr))
    decreases |ts|, 0
  {
    hide ParseTerm;
    if ts != [] && ts[0].Open? {
      OrHead(ts[1..], n);
    }
  }

  lemma {:induction false} AndHead(ts: seq<Token>, n: nat)
    ensures ParseAnd(ts, n).Some? ==> HeadTerm(ts) == Some(FirstTerm(ParseAnd(ts, n).value.expr))
    decreases |ts|, 2
  {
    hide HeadTerm, ParsePrimary;
    PrimaryHead(ts, n);
    if ParsePrimary(ts, n).Some? {
      AndTailHead(ParsePrimary(ts, n).value);
    }
  }

  lemma {:induction false} AndTailHead(p: Parsed)
    ensures AndTail(p).Some? ==> FirstTerm(AndTail(p).value.expr) == FirstTerm(p.expr)
    decreases |p.rest|
  {
    hide ParsePrimary;
    if p.rest != [] && p.rest[0].AND? && ParsePrimary(p.rest[1..], p.params).Some? {
      var q := ParsePrimary(p.rest[1..], p.params).value;
      AndTailHead(q.(expr := Conj(p.expr, q.expr)));
    }
  }

  lemma {:induction false} OrHead(ts: seq<Token>, n: nat)
    ensures ParseOr(ts, n).Some? ==> HeadTerm(ts) == Some(FirstTerm(ParseOr(ts, n).value.expr))
    decreases |ts|, 4
  {
    hide HeadTerm, ParseAnd;
    AndHead(ts, n);
    if ParseAnd(ts, n).Some? {
      OrTailHead(ParseAnd(ts, n).value);
    }
  }

  lemma {:induction false} OrTailHead(p: Parsed)
    ensures OrTail(p).Some? ==> FirstTerm(OrTail(p).value.expr) == FirstTerm(p.expr)
    decreases |p.rest|
  {
    hide ParseAnd;
    if p.rest != [] && p.rest[0].OR? && ParseAnd(p.rest[1..], p.params).Some? {
      var q := ParseAnd(p.rest[1..], p.params).value;
      OrTailHead(q.(expr := Disj(p.expr, q.expr)));
    }
  }

  // ---------- evaluation ----------

  type Record = map<string, Value>

  function Lookup(row: Record, column: string): Value {
    if column in row then row[column] else Null
  }

  function TermValue(g: Engine, row: Record, term: Term): Value {
    match term
    case Column(name) => Lookup(row, name)
    case Instant(name) => g.instant(Lookup(row, name))
    case Clock(word) => g.clock(word)
  }

  function Arg(args: seq<Value>, i: nat): Value {
    if i < |args| then args[i] else Null
  }

  function Args(args: seq<Value>, first: nat, count: nat): (r: seq<Value>)
    ensures |r| == count
  {
    seq(count, i requires 0 <= i < count => Arg(args, first + i))
  }

  function Eval(g: Engine, row: Record, args: seq<Value>, e: Expr): Tri {
    match e
    case Conj(l, r) => And3(Eval(g, row, args, l), Eval(g, row, args, r))
    case Disj(l, r) => Or3(Eval(g, row, args, l), Eval(g, row, args, r))
    case Compare(term, op, i) => Compare3(g, op, TermValue(g, row, term), Arg(args, i))
    case IsNull(term, negated) => Known(TermValue(g, row, term).Null? != negated)
    case Among(term, negated, first, count) =>
      var t := In3(g, TermValue(g, row, term), Args(args, first, count));
      if negated then Not3(t) else t
  }

  // ---------- conjunctions ----------

  /** A predicate written as tokens: the arguments its `?` stand for, and what it parses to
      when its first parameter is number n. */
  datatype Part = Part(tokens: seq<Token>, args: seq<Value>, expr: nat -> Expr)

  ghost predicate Reads(p: Part) {
    forall rest: seq<Token>, n: nat ::
      ParsePrimary(p.tokens + rest, n) == Some(Parsed(p.expr(n), rest, n + |p.args|))
  }

  ghost predicate AllRead(ps: seq<Part>) {
    forall i :: 0 <= i < |ps| ==> Reads(ps[i])
  }

  function TailTokens(ps: seq<Part>): seq<Token> {
    if ps == [] then [] else [AND] + ps[0].tokens + TailTokens(ps[1..])
  }

  function JoinArgs(ps: seq<Part>): seq<Value> {
    if ps == [] then [] else ps[0].args + JoinArgs(ps[1..])
  }

  function Chain(e: Expr, ps: seq<Part>, n: nat): Expr
    decreases |ps|
  {
    if ps == [] then e else Chain(Conj(e, ps[0].expr(n)), ps[1..], n + |ps[0].args|)
  }

  lemma AndStep(e: Expr, ts: seq<Token>, n: nat, q: Parsed)
    requires ParsePrimary(ts, n) == Some(q)
    ensures AndTail(Parsed(e, [AND] + ts, n)) == AndTail(q.(expr := Conj(e, q.expr)))
  {
    assert ([AND] + ts)[1..] == ts;
  }

  lemma {:induction false} TailReads(e: Expr, ps: seq<Part>, n: nat)
    requires AllRead(ps)
    ensures AndTail(Parsed(e, TailTokens(ps), n)) == Some(Parsed(Chain(e, ps, n), [], n + |JoinArgs(ps)|))
    decreases |ps|
  {
    if ps != [] {
      var p, rest := ps[0], TailTokens(ps[1..]);
      var m := n + |p.args|;
      assert Reads(p);
      assert ParsePrimary(p.tokens + rest, n) == Some(Parsed(p.expr(n), rest, m));
      AndStep(e, p.tokens + rest, n, Parsed(p.expr(n), rest, m));
      assert TailTokens(ps) == [AND] + (p.tokens + rest);
      forall i | 0 <= i < |ps[1..]| ensures Reads(ps[1..][i]) {
        assert ps[1..][i] == ps[i + 1];
      }
      TailReads(Conj(e, p.expr(n)), ps[1..], m);
    }
  }

  /** A primary followed by a conjunction's tail is the whole of the tokens. */
  lemma OrOfAnd(ts: seq<Token>, n: nat, p: Parsed, whole: Parsed)
    requires ParsePrimary(ts, n) == Some(p) && AndTail(p) == Some(whole) && whole.rest == []
    ensures ParseOr(ts, n) == Some(whole)
  {
    hide ParsePrimary, AndTail;
  }

  /** The tokens of a conjunction parse to the left-nested conjunction of its parts. */
  lemma ConjunctionReads(ps: seq<Part>)
    requires ps != [] && AllRead(ps)
    ensures ParseOr(ps[0].tokens + TailTokens(ps[1..]), 0)
            == Some(Parsed(Chain(ps[0].expr(0), ps[1..], |ps[0].args|), [], |JoinArgs(ps)|))
  {
    hide ParsePrimary, ParseOr, AndTail, TailTokens, Chain;
    var p, tail := ps[0], ps[1..];
    assert Reads(p);
    var rest := TailTokens(tail);
    assert ParsePrimary(p.tokens + rest, 0) == Some(Parsed(p.expr(0), rest, |p.args|));
    forall i | 0 <= i < |tail| ensures Reads(tail[i]) {
      assert tail[i] == ps[i + 1];
    }
    TailReads(p.expr(0), tail, |p.args|);
    OrOfAnd(p.tokens + rest, 0, Parsed(p.expr(0), rest, |p.args|),
            Parsed(Chain(p.expr(0), tail, |p.args|), [], |JoinArgs(ps)|));
  }

  /** The part's arguments sit at position n. */
  predicate Bound(args: seq<Value>, n: nat, own: seq<Value>) {
    n + |own| <= |args| && args[n..n + |own|] == own
  }

  lemma BoundArgs(args: seq<Value>, n: nat, own: seq<Value>)
    requires Bound(args, n, own)
    ensures Args(args, n, |own|) == own
  {
    forall i | 0 <= i < |own| ensures Args(args, n, |own|)[i] == own[i] {
      assert args[n..n + |own|][i] == args[n + i];
      assert Arg(args, n + i) == args[n + i];
    }
  }

  lemma SplitBound(args: seq<Value>, n: nat, a: seq<Value>, b: seq<Value>)
    requires Bound(args, n, a + b)
    ensures Bound(args, n, a) && Bound(args, n + |a|, b)
  {
    var whole := args[n..n + |a + b|];
    assert whole[..|a|] == a && whole[|a|..] == b;
    assert args[n..n + |a|] == whole[..|a|];
    assert args[n + |a|..n + |a| + |b|] == whole[|a|..];
  }

  /** On this row, wherever its arguments are bound, the part is true just when `holds`. */
  ghost predicate Means(g: Engine, row: Record, p: Part, holds: bool) {
    forall args: seq<Value>, n: nat :: Bound(args, n, p.args) ==>
      (Eval(g, row, args, p.expr(n)).True? <==> holds)
  }

  lemma {:induction false} ChainMeans(g: Engine, row: Record, args: seq<Value>, e: Expr, ps: seq<Part>,
                                      holds: seq<bool>, n: nat)
    requires |holds| == |ps| && (forall i :: 0 <= i < |ps| ==> Means(g, row, ps[i], holds[i]))
    requires Bound(args, n, JoinArgs(ps))
    ensures Eval(g, row, args, Chain(e, ps, n)).True?
            <==> Eval(g, row, args, e).True? && forall i :: 0 <= i < |holds| ==> holds[i]
    decreases |ps|
  {
    if ps != [] {
      var p := ps[0];
      SplitBound(args, n, p.args, JoinArgs(ps[1..]));
      assert Means(g, row, p, holds[0]);
      var both := Conj(e, p.expr(n));
      assert Eval(g, row, args, both) == And3(Eval(g, row, args, e), Eval(g, row, args, p.expr(n)));
      forall i | 0 <= i < |ps[1..]| ensures Means(g, row, ps[1..][i], holds[1..][i]) {
        assert ps[1..][i] == ps[i + 1] && holds[1..][i] == holds[i + 1];
      }
      ChainMeans(g, row, args, both, ps[1..], holds[1..], n + |p.args|);
      assert forall i :: 0 < i < |holds| ==> holds[i] == holds[1..][i - 1];
    }
  }

  lemma ConjunctionMeans(g: Engine, row: Record, ps: seq<Part>, holds: seq<bool>)
    requires ps != [] && |holds| == |ps| && (forall i :: 0 <= i < |ps| ==> Means(g, row, ps[i], holds[i]))
    ensures Eval(g, row, JoinArgs(ps), Chain(ps[0].expr(0), ps[1..], |ps[0].args|)).True?
            <==> forall i :: 0 <= i < |holds| ==> holds[i]
  {
    var args := JoinArgs(ps);
    assert args[0..|args|] == args;
    SplitBound(args, 0, ps[0].args, JoinArgs(ps[1..]));
    assert Means(g, row, ps[0], holds[0]);
    forall i | 0 <= i < |ps[1..]| ensures Means(g, row, ps[1..][i], holds[1..][i]) {
      assert ps[1..][i] == ps[i + 1] && holds[1..][i] == holds[i + 1];
    }
    ChainMeans(g, row, args, ps[0].expr(0), ps[1..], holds[1..], |ps[0].args|);
    assert forall i :: 0 < i < |holds| ==> holds[i] == holds[1..][i - 1];
  }
}
