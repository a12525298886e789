/** The template language of injected columns: `${…}` spans in a text, recognised leftmost
    first, each naming a value from a small fixed list. */
module Templates {
  import opened Prelude
  import Filters

  // ---------- spans ----------

  datatype Segment = Lit(text: string) | Hole(body: string)

  function IndexOf(s: string, c: char): (i: nat)
    ensures i <= |s| && c !in s[..i] && (i < |s| ==> s[i] == c)
  {
    if s == "" || s[0] == c then 0 else 1 + IndexOf(s[1..], c)
  }

  predicate OpensAt(s: string, i: nat) {
    i + 1 < |s| && s[i] == '$' && s[i + 1] == '{'
  }

  /** Where the first "${" begins; the length of the text when there is none. */
  function FirstOpen(s: string): (i: nat)
    ensures i <= |s| && (forall j :: 0 <= j < i ==> !OpensAt(s, j)) && (i < |s| ==> OpensAt(s, i))
  {
    if s == "" then 0 else if OpensAt(s, 0) then 0 else
      var i := FirstOpen(s[1..]);
      assert forall j: nat :: 0 < j ==> (OpensAt(s, j) <==> OpensAt(s[1..], j - 1));
      1 + i
  }

  /** The first "${" is never closed. */
  predicate FirstUnclosed(s: string) {
    FirstOpen(s) < |s| && '}' !in s[FirstOpen(s)..]
  }

  /** The leftmost placeholder, with the text before and after it. */
  datatype Split = Split(before: string, body: string, after: string)

  function Leftmost(s: string): (r: Option<Split>)
    ensures r.None? <==> FirstOpen(s) == |s| || FirstUnclosed(s)
    ensures r.Some? ==>
              |r.value.after| < |s| && '}' !in r.value.body && FirstOpen(s) == |r.value.before|
  {
    var i := FirstOpen(s);
    if i == |s| || FirstUnclosed(s) then None
    else
      var n := IndexOf(s[i + 2..], '}');
      assert n < |s| - i - 2 by { ClosesLater(s, i); }
      var r := Split(s[..i], s[i + 2..i + 2 + n], s[i + 3 + n..]);
      PrefixOf(s, i, n);
      Some(r)
  }

  lemma PrefixOf(s: string, i: nat, n: nat)
    requires i + 2 + n < |s|
    ensures s[i + 2..i + 2 + n] == s[i + 2..][..n]
  {
  }

  /** A placeholder between two texts. */
  function Joined(before: string, body: string, after: string): string {
    before + ("${" + (body + ("}" + after)))
  }

  lemma Rejoined(s: string, i: nat, n: nat)
    requires OpensAt(s, i) && i + 2 + n < |s| && s[i + 2 + n] == '}'
    ensures s == Joined(s[..i], s[i + 2..i + 2 + n], s[i + 3 + n..])
  {
    assert s[i..] == "${" + s[i + 2..];
    assert s[i + 2..] == s[i + 2..i + 2 + n] + s[i + 2 + n..];
    assert s[i + 2 + n..] == "}" + s[i + 3 + n..];
  }

  lemma ClosesLater(s: string, i: nat)
    requires OpensAt(s, i) && '}' in s[i..]
    ensures IndexOf(s[i + 2..], '}') < |s| - i - 2
  {
    var j :| 0 <= j < |s[i..]| && s[i..][j] == '}';
    assert j >= 2;
    assert s[i + 2..][j - 2] == '}';
  }

  /** The pieces put together again are the text. */
  lemma LeftmostRejoins(s: string)
    requires Leftmost(s).Some?
    ensures var p := Leftmost(s).value; s == Joined(p.before, p.body, p.after)
  {
    hide IndexOf, Joined;
    var i := FirstOpen(s);
    ClosesLater(s, i);
    Rejoined(s, i, IndexOf(s[i + 2..], '}'));
  }

  /** A literal without an opening, a placeholder, and anything after: that placeholder is the
      leftmost one. */
  lemma LeftmostIs(before: string, body: string, after: string)
    requires FirstOpen(before) == |before| && '}' !in body
    ensures Leftmost(Joined(before, body, after)) == Some(Split(before, body, after))
  {
    hide FirstOpen, IndexOf, Leftmost, FirstUnclosed, Joined;
    var s := Joined(before, body, after);
    OpensFirst(before, body, after);
    Pieces(before, body, after);
    ClosesFirst(body, s[|before| + 2 + |body|..]);
    IsClosed(s, |before|, |before| + 2 + |body|);
    LeftmostBy(s, |before|, |body|, Split(before, body, after));
  }

  lemma Pieces(before: string, body: string, after: string)
    ensures var s, i, n := Joined(before, body, after), |before|, |body|;
            && |s| == i + 3 + n + |after| && s[i + 2 + n] == '}' && s[i + 2..] == body + s[i + 2 + n..]
            && s[..i] == before && s[i + 2..i + 2 + n] == body && s[i + 3 + n..] == after
  {
  }

  lemma IsClosed(s: string, i: nat, j: nat)
    requires FirstOpen(s) == i && i <= j < |s| && s[j] == '}'
    ensures !FirstUnclosed(s)
  {
    hide FirstOpen;
    assert s[i..][j - i] == '}';
  }

  lemma LeftmostBy(s: string, i: nat, n: nat, p: Split)
    requires FirstOpen(s) == i < |s| && !FirstUnclosed(s) && i + 2 <= |s|
    requires IndexOf(s[i + 2..], '}') == n && i + 2 + n < |s|
    requires p.before == s[..i] && p.body == s[i + 2..i + 2 + n] && p.after == s[i + 3 + n..]
    ensures Leftmost(s) == Some(p)
  {
    hide FirstOpen, IndexOf, FirstUnclosed;
  }

  lemma OpensFirst(before: string, body: string, after: string)
    requires FirstOpen(before) == |before|
    ensures FirstOpen(Joined(before, body, after)) == |before|
  {
    var s := Joined(before, body, after);
    assert OpensAt(s, |before|);
    forall j | 0 <= j < |before| ensures !OpensAt(s, j) {
      assert !OpensAt(before, j);
    }
  }

  lemma {:induction false} ClosesFirst(body: string, rest: string)
    requires '}' !in body && rest != "" && rest[0] == '}'
    ensures IndexOf(body + rest, '}') == |body|
  {
    if body == "" {
      assert body + rest == rest;
    } else {
      assert body[0] != '}' && forall i :: 0 <= i < |body| - 1 ==> body[1..][i] == body[i + 1];
      ClosesFirst(body[1..], rest);
      assert (body + rest)[0] == body[0] && (body + rest)[1..] == body[1..] + rest;
    }
  }

  /** Literal text and placeholders, in order. */
  function Segments(s: string): (segs: seq<Segment>)
    decreases |s|
  {
    match Leftmost(s)
    case None => [Lit(s)]
    case Some(p) => [Lit(p.before), Hole(p.body)] + Segments(p.after)
  }

  function Unparse(segs: seq<Segment>): string {
    if segs == [] then ""
    else (match segs[0] case Lit(text) => text case Hole(body) => "${" + (body + "}")) + Unparse(segs[1..])
  }

  lemma UnparseSplit(before: string, body: string, rest: seq<Segment>)
    ensures Unparse([Lit(before), Hole(body)] + rest) == Joined(before, body, Unparse(rest))
  {
    var segs := [Lit(before), Hole(body)] + rest;
    assert segs[1..] == [Hole(body)] + rest && segs[1..][1..] == rest;
    Reassociate(body, Unparse(rest));
  }

  lemma Reassociate(body: string, rest: string)
    ensures ("${" + (body + "}")) + rest == "${" + (body + ("}" + rest))
  {
  }

  /** No character of a template is lost or moved. */
  lemma {:induction false} SegmentsKeepText(s: string)
    ensures Unparse(Segments(s)) == s
    decreases |s|
  {
    match Leftmost(s) {
      case None =>
        assert Unparse([Lit(s)][1..]) == "";
      case Some(p) =>
        LeftmostRejoins(s);
        SegmentsKeepText(p.after);
        UnparseSplit(p.before, p.body, Segments(p.after));
    }
  }

  /** The bodies of the placeholders, in order. */
  function Bodies(s: string): seq<string>
    decreases |s|
  {
    match Leftmost(s)
    case None => []
    case Some(p) => [p.body] + Bodies(p.after)
  }

  /** The text after the last placeholder. */
  function Tail(s: string): string
    decreases |s|
  {
    match Leftmost(s)
    case None => s
    case Some(p) => Tail(p.after)
  }

  // ---------- words ----------

  predicate IsSpace(c: char) {
    c in [' ', '\t', '\n', '\r', '\U{0B}', '\U{0C}', '\U{85}', '\U{A0}']
  }

  function TrimLeft(s: string): string {
    if s != "" && IsSpace(s[0]) then TrimLeft(s[1..]) else s
  }

  function TrimRight(s: string): string {
    if s != "" && IsSpace(s[|s| - 1]) then TrimRight(s[..|s| - 1]) else s
  }

  function TrimSpace(s: string): string {
    TrimRight(TrimLeft(s))
  }

  predicate Blank(s: string) {
    forall i :: 0 <= i < |s| ==> IsSpace(s[i])
  }

  /** Neither end of the text is white space. */
  predicate Trimmed(s: string) {
    s == "" || (!IsSpace(s[0]) && !IsSpace(s[|s| - 1]))
  }

  lemma {:induction false} TrimLeftBlank(l: string, w: string)
    requires Blank(l) && (w == "" || !IsSpace(w[0]))
    ensures TrimLeft(l + w) == w
  {
    if l == "" {
      assert l + w == w;
    } else {
      assert (l + w)[0] == l[0] && (l + w)[1..] == l[1..] + w;
      TrimLeftBlank(l[1..], w);
    }
  }

  lemma {:induction false} TrimRightBlank(w: string, r: string)
    requires Blank(r) && (w == "" || !IsSpace(w[|w| - 1]))
    ensures TrimRight(w + r) == w
  {
    if r == "" {
      assert w + r == w;
    } else {
      var front := r[..|r| - 1];
      assert (w + r)[|w + r| - 1] == r[|r| - 1] && (w + r)[..|w + r| - 1] == w + front;
      TrimRightBlank(w, front);
    }
  }

  /** Trimming takes the white space off both ends and nothing else. */
  lemma TrimPadded(l: string, w: string, r: string)
    requires Blank(l) && Blank(r) && Trimmed(w)
    ensures TrimSpace(l + (w + r)) == w
  {
    hide IsSpace;
    if w == "" {
      assert l + (w + r) == (l + r) + "";
      forall i | 0 <= i < |l + r| ensures IsSpace((l + r)[i]) {
        assert (l + r)[i] == if i < |l| then l[i] else r[i - |l|];
      }
      TrimLeftBlank(l + r, "");
    } else {
      TrimLeftBlank(l, w + r);
      TrimRightBlank(w, r);
    }
  }

  lemma {:induction false} TrimLeftSplits(s: string) returns (l: string)
    ensures Blank(l) && s == l + TrimLeft(s) && (TrimLeft(s) == "" || !IsSpace(TrimLeft(s)[0]))
  {
    l := "";
    if s != "" && IsSpace(s[0]) {
      var rest := TrimLeftSplits(s[1..]);
      l := [s[0]] + rest;
    }
  }

  lemma {:induction false} TrimRightSplits(s: string) returns (r: string)
    ensures Blank(r) && s == TrimRight(s) + r
  {
    r := "";
    if s != "" && IsSpace(s[|s| - 1]) {
      var rest := TrimRightSplits(s[..|s| - 1]);
      r := rest + [s[|s| - 1]];
    }
  }

  /** A text is its trimmed middle between two stretches of white space. */
  lemma TrimSplits(s: string) returns (l: string, r: string)
    ensures Blank(l) && Blank(r) && s == l + (TrimSpace(s) + r)
  {
    hide IsSpace;
    l := TrimLeftSplits(s);
    r := TrimRightSplits(TrimLeft(s));
  }

  /** What a placeholder names. */
  datatype Term = Now | TableName | InstanceName | Env(name: string) | Column(name: string) | Unknown(body: string)

  function TermOf(body: string): Term {
    var b := TrimSpace(body);
    if b == "now" then Now
    else if b == "table" then TableName
    else if b == "source.instance" then InstanceName
    else if "env:" <= b then Env(b[4..])
    else if "row." <= b then Column(b[4..])
    else Unknown(b)
  }

  // ---------- validation ----------

  predicate ValidEnvName(s: string) {
    s != "" && !('0' <= s[0] <= '9')
    && forall i :: 0 <= i < |s| ==> 'A' <= s[i] <= 'Z' || s[i] == '_' || '0' <= s[i] <= '9'
  }

  /** The loop that checks the name of an environment variable. */
  method CheckEnvName(s: string) returns (ok: bool)
    ensures ok <==> ValidEnvName(s)
  {
    if s == "" { return false; }
    for i := 0 to |s|
      invariant i > 0 ==> !('0' <= s[0] <= '9')
      invariant forall j :: 0 <= j < i ==> 'A' <= s[j] <= 'Z' || s[j] == '_' || '0' <= s[j] <= '9'
    {
      if 'A' <= s[i] <= 'Z' || s[i] == '_' {
      } else if '0' <= s[i] <= '9' {
        if i == 0 { return false; }
      } else {
        return false;
      }
    }
    return true;
  }

  predicate ValidTerm(k: Term) {
    match k
    case Env(name) => ValidEnvName(name)
    case Column(name) => Filters.ValidIdent(name)
    case Unknown(_) => false
    case _ => true
  }

  predicate Validated(template: string) {
    !FirstUnclosed(template)
    && forall i :: 0 <= i < |Bodies(template)| ==> ValidTerm(TermOf(Bodies(template)[i]))
  }

  datatype Problem = BadType | Unclosed | BadTerm(k: Term)

  function Lower(s: string): string {
    seq(|s|, i requires 0 <= i < |s| => if 'A' <= s[i] <= 'Z' then s[i] - 'A' + 'a' else s[i])
  }

  /** A column type the configuration may state; none is stated by the empty text. */
  predicate TypeOk(declared: string) {
    declared == ""
    || Lower(TrimSpace(declared)) in
         {"text", "bigint", "double precision", "boolean", "timestamptz", "jsonb", "bytea", "numeric"}
  }

  method Validate(template: string, declared: string) returns (r: Option<Problem>)
    ensures r.None? <==> TypeOk(declared) && Validated(template)
    ensures r == Some(BadType) <==> !TypeOk(declared)
  {
    hide TermOf, ValidTerm, Bodies, FirstUnclosed, TypeOk;
    if !TypeOk(declared) { return Some(BadType); }
    if FirstUnclosed(template) { return Some(Unclosed); }
    var bodies := Bodies(template);
    for i := 0 to |bodies|
      invariant forall j :: 0 <= j < i ==> ValidTerm(TermOf(bodies[j]))
    {
      var k := TermOf(bodies[i]);
      if !ValidTerm(k) { return Some(BadTerm(k)); }
    }
    return None;
  }

  /** An unclosed placeholder is left in the text as it stands. */
  predicate LeavesUnclosed(template: string) {
    FirstOpen(Tail(template)) < |Tail(template)|
  }

  /** Validation is meant to refuse a template with an unclosed placeholder; it does so just
      when no placeholder comes before it. */
  lemma UnclosedCaughtIff(template: string)
    requires LeavesUnclosed(template)
    requires forall i :: 0 <= i < |Bodies(template)| ==> ValidTerm(TermOf(Bodies(template)[i]))
    ensures !Validated(template) <==> Bodies(template) == []
  {
    TailUnclosed(template);
  }

  /** A valid placeholder before it is enough to let an unclosed one through. */
  lemma UnclosedSlipsThrough()
    ensures var template := Joined("", "now", " ${");
            LeavesUnclosed(template) && TypeOk("") && Validated(template)
  {
    hide Joined;
    var template, rest := Joined("", "now", " ${"), " ${";
    NowIsATerm();
    assert FirstOpen("") == 0;
    LeftmostIs("", "now", rest);
    assert OpensAt(rest, 1) && FirstOpen(rest) == 1;
    assert '}' !in rest[1..];
    assert Leftmost(rest).None?;
    assert Bodies(rest) == [] && Tail(rest) == rest;
    assert Bodies(template) == ["now"];
  }

  lemma NowIsATerm()
    ensures TermOf("now") == Now && '}' !in "now"
  {
  }

  lemma {:induction false} TailUnclosed(s: string)
    ensures Leftmost(Tail(s)).None?
    ensures Bodies(s) == [] <==> Leftmost(s).None?
    ensures Bodies(s) == [] ==> Tail(s) == s
    decreases |s|
  {
    match Leftmost(s) {
      case None =>
      case Some(p) => TailUnclosed(p.after);
    }
  }

  // ---------- references ----------

  function RowRefs(bodies: seq<string>): seq<string> {
    if bodies == [] then []
    else
      var rest := RowRefs(bodies[..|bodies| - 1]);
      match TermOf(bodies[|bodies| - 1])
      case Column(name) => rest + [name]
      case _ => rest
  }

  method References(template: string) returns (columns: seq<string>)
    ensures columns == RowRefs(Bodies(template))
  {
    columns := [];
    var bodies := Bodies(template);
    for i := 0 to |bodies|
      invariant columns == RowRefs(bodies[..i])
    {
      assert bodies[..i + 1][..i] == bodies[..i];
      var k := TermOf(bodies[i]);
      if k.Column? { columns := columns + [k.name]; }
    }
    assert bodies[..|bodies|] == bodies;
  }

  lemma {:induction false} RowRefsAre(bodies: seq<string>, name: string)
    ensures name in RowRefs(bodies) <==> exists i :: 0 <= i < |bodies| && TermOf(bodies[i]) == Column(name)
  {
    hide TermOf;
    if bodies != [] {
      var front, last := bodies[..|bodies| - 1], |bodies| - 1;
      RowRefsAre(front, name);
      assert forall i :: 0 <= i < last ==> front[i] == bodies[i];
    }
  }
}
