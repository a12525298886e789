/** The journal the sink keeps of a pass, and what its shape proves of the state it ends in. */
module Journal {
  import opened Replication
  import opened Safety
  import opened Quiet
  import opened Convergence
  import D = Delivery

  function Deliveries(es: seq<Event>): nat {
    if es == [] then 0
    else Deliveries(es[..|es| - 1]) + (if es[|es| - 1].Deliver? then 1 else 0)
  }

  /** What scanning adds to a log: page events, and the daemon's writes unless it is quiet. */
  ghost predicate Grew(a: seq<Event>, b: seq<Event>, quiet: bool) {
    && |a| <= |b| && b[..|a|] == a
    && forall i :: |a| <= i < |b| ==> ScanEvent(b[i]) || (!quiet && b[i].Write?)
  }

  lemma GrewFurther(a: seq<Event>, b: seq<Event>, c: seq<Event>, quiet: bool)
    requires Grew(a, b, quiet) && (Grew(b, c, quiet) || Grew(b, c, true))
    ensures Grew(a, c, quiet)
  {
    assert c[..|a|] == b[..|a|];
    forall i | |a| <= i < |c| ensures ScanEvent(c[i]) || (!quiet && c[i].Write?) {
      if i < |b| {
        assert c[i] == c[..|b|][i];
      }
    }
  }

  lemma GrewRefl(a: seq<Event>, quiet: bool)
    ensures Grew(a, a, quiet)
  {
  }

  ghost predicate Extends(a: seq<Event>, b: seq<Event>) {
    && |a| <= |b| && b[..|a|] == a
    && forall i :: |a| <= i < |b| ==> !b[i].BeginBackfill?
  }

  lemma ExtendsFurther(a: seq<Event>, b: seq<Event>, c: seq<Event>)
    requires Extends(a, b) && Extends(b, c)
    ensures Extends(a, c)
  {
    assert c[..|a|] == b[..|a|];
    forall i | |a| <= i < |c| ensures !c[i].BeginBackfill? {
      if i < |b| {
        assert c[i] == c[..|b|][i];
      }
    }
  }

  lemma GrewExtends(a: seq<Event>, b: seq<Event>, quiet: bool)
    requires Grew(a, b, quiet)
    ensures Extends(a, b)
  {
  }

  lemma DeliveriesSnoc(es: seq<Event>, e: Event)
    ensures Deliveries(es + [e]) == Deliveries(es) + (if e.Deliver? then 1 else 0)
  {
    assert (es + [e])[..|es|] == es;
  }

  /** What a pass that nothing interleaves with adds to the log after reading its mark. */
  ghost predicate QuietLog(t: Table, a: seq<Event>, b: seq<Event>) {
    exists keys, es :: ScanEvents(es) && b == a + Passage(keys, es)
  }

  function Passage(keys: seq<Key>, es: seq<Event>): seq<Event> {
    [ReadMax, ReadSelectors(keys)] + es + [Finish]
  }

  lemma QuietShape(t: Table, a: seq<Event>, l2: seq<Event>, l3: seq<Event>, b: seq<Event>, keys: seq<Key>)
    requires l2 == a + [ReadMax, ReadSelectors(keys)] && Grew(l2, l3, true) && b == l3 + [Finish]
    ensures QuietLog(t, a, b)
  {
    var es := l3[|l2|..];
    assert l3 == l2 + es;
    forall i | 0 <= i < |es| ensures ScanEvent(es[i]) {
      assert es[i] == l3[|l2| + i];
    }
    assert b == a + Passage(keys, es);
  }

  /** The daemon's writes, then the start of a backfill. */
  ghost predicate Began(a: seq<Event>, b: seq<Event>) {
    && |a| < |b| && b[..|a|] == a && b[|b| - 1] == BeginBackfill
  }

  /** A backfill began after `a` and was not interrupted. */
  ghost predicate Backfilled(a: seq<Event>, b: seq<Event>) {
    && |a| < |b| && b[..|a|] == a && b[|b| - 1] == Finish
    && exists k :: |a| <= k < |b| && b[k] == BeginBackfill && Uncrashed(b, k)
  }

  ghost predicate Uncrashed(es: seq<Event>, k: nat) {
    forall i :: k <= i < |es| ==> es[i] != Crash
  }

  lemma BackfillShape(a: seq<Event>, began: seq<Event>, l3: seq<Event>, b: seq<Event>)
    requires Began(a, began) && Grew(began, l3, false) && b == l3 + [Finish]
    ensures Backfilled(a, b)
  {
    var k := |began| - 1;
    assert b[..|a|] == began[..|a|];
    assert l3[k] == l3[..|began|][k];
    assert Uncrashed(b, k);
  }

  /** The selectors were read after `a`, and the scan they began was not interrupted. */
  ghost predicate Synced(a: seq<Event>, b: seq<Event>) {
    && |a| < |b| && b[..|a|] == a && b[|b| - 1] == Finish
    && exists k :: |a| <= k < |b| && b[k].ReadSelectors? && Uncrashed(b, k)
  }

  /** The reading of the selectors closes the log l2. */
  ghost predicate SelectorsRead(a: seq<Event>, l2: seq<Event>) {
    |a| < |l2| && l2[..|a|] == a && l2[|l2| - 1].ReadSelectors?
  }

  lemma SelectorsReadSince(a: seq<Event>, m: seq<Event>, l2: seq<Event>)
    requires Extends(a, m) && SelectorsRead(m, l2)
    ensures SelectorsRead(a, l2)
  {
    assert l2[..|a|] == m[..|a|];
  }

  /** The daemon's writes, then the end of the pass. */
  ghost predicate Finished(a: seq<Event>, b: seq<Event>) {
    exists m :: Grew(a, m, false) && b == m + [Finish]
  }

  lemma SyncShape(a: seq<Event>, l2: seq<Event>, l3: seq<Event>, b: seq<Event>)
    requires SelectorsRead(a, l2) && Grew(l2, l3, false) && Finished(l3, b)
    ensures Synced(a, b)
  {
    var k := |l2| - 1;
    var l4 :| Grew(l3, l4, false) && b == l4 + [Finish];
    GrewFurther(l2, l3, l4, false);
    assert b[..|a|] == l2[..|a|];
    assert b[k] == l4[..|l2|][k];
    assert Uncrashed(b, k);
  }

  /** What a backfill that nothing interleaves with adds to the log. */
  ghost predicate QuietFillLog(a: seq<Event>, b: seq<Event>) {
    exists es :: ScanEvents(es) && b == a + FillRun(es)
  }

  lemma QuietFillShape(a: seq<Event>, began: seq<Event>, l3: seq<Event>, b: seq<Event>)
    requires began == a + [BeginBackfill] && Grew(began, l3, true) && b == l3 + [Finish]
    ensures QuietFillLog(a, b)
  {
    var es := l3[|began|..];
    assert l3 == began + es;
    forall i | 0 <= i < |es| ensures ScanEvent(es[i]) {
      assert es[i] == l3[|began| + i];
    }
    assert b == a + FillRun(es);
  }

  lemma BackfillLog(a: seq<Event>, began: seq<Event>, l3: seq<Event>, b: seq<Event>, quiet: bool)
    requires Began(a, began) && (quiet ==> began == a + [BeginBackfill])
    requires Grew(began, l3, quiet) && b == l3 + [Finish]
    ensures Backfilled(a, b) && (quiet ==> QuietFillLog(a, b))
  {
    assert Grew(began, l3, false);
    BackfillShape(a, began, l3, b);
    if quiet {
      QuietFillShape(a, began, l3, b);
    }
  }

  // ---------- what the log proves ----------

  lemma SplitLog(t: Table, origin: State, a: seq<Event>, b: seq<Event>)
    requires LegalRun(t, origin, b) && |a| <= |b| && b[..|a|] == a
    ensures LegalRun(t, origin, a) && LegalRun(t, Run(t, origin, a), b[|a|..])
    ensures Run(t, origin, b) == Run(t, Run(t, origin, a), b[|a|..])
  {
    assert b == a + b[|a|..];
    LegalPrefix(t, origin, a, b[|a|..]);
    RunAppend(t, origin, a, b[|a|..]);
  }

  /** Whatever a sync pass does and however it ends, the invariant survives it. */
  lemma SyncIsSafe(t: Table, origin: State, a: seq<Event>, b: seq<Event>)
    requires LegalRun(t, origin, a) && LegalRun(t, origin, b) && Extends(a, b)
    requires !Run(t, origin, a).pass.Filling? && Inv(t, Run(t, origin, a))
    ensures Inv(t, Run(t, origin, b))
  {
    SplitLog(t, origin, a, b);
    var s, es := Run(t, origin, a), b[|a|..];
    forall e | e in es ensures !e.BeginBackfill? {
      var i :| 0 <= i < |es| && es[i] == e;
      assert b[|a| + i] == e;
    }
    NoBackfillIntact(t, s, es);
    InvOverRuns(t, s, es, true);
  }

  lemma {:induction false} NoBackfillIntact(t: Table, s: State, es: seq<Event>)
    requires LegalRun(t, s, es) && !s.pass.Filling? && forall e :: e in es ==> !e.BeginBackfill?
    ensures Intact(t, s, es, true)
    decreases |es|
  {
    if es != [] {
      assert es[0] in es;
      forall e | e in es[1..] ensures e in es { }
      NoBackfillIntact(t, Step(t, s, es[0]), es[1..]);
    }
  }

  /** A completed backfill establishes the invariant from any honestly read watermark. */
  lemma BackfillIsSafe(t: Table, origin: State, a: seq<Event>, b: seq<Event>)
    requires LegalRun(t, origin, a) && LegalRun(t, origin, b) && Backfilled(a, b)
    requires Sound(t, Run(t, origin, a))
    ensures Inv(t, Run(t, origin, b))
  {
    var k: nat :| |a| <= k < |b| && b[k] == BeginBackfill && Uncrashed(b, k);
    var front, rest := b[..k], b[k + 1..];
    assert front[..|a|] == a && b[..|front|] == front && b[|front|..] == [BeginBackfill] + rest;
    SplitLog(t, origin, front, b);
    SplitLog(t, origin, a, front);
    var s := Run(t, origin, front);
    SoundOverRuns(t, Run(t, origin, a), front[|a|..]);
    SplitRun(t, s, BeginBackfill, rest);
    BeginBackfillRestores(t, s);
    forall e | e in rest ensures e != Crash {
      var i :| 0 <= i < |rest| && rest[i] == e;
      assert b[k + 1 + i] == e;
    }
    NoCrashIntact(t, Step(t, s, BeginBackfill), rest);
    InvOverRuns(t, Step(t, s, BeginBackfill), rest, true);
  }

  lemma SyncedSince(a: seq<Event>, m: seq<Event>, b: seq<Event>)
    requires m == a + [BeginSync] && Synced(m, b)
    ensures Synced(a, b)
  {
    assert b[..|a|] == m[..|a|];
  }

  /** What a log with an uninterrupted scan in it says of a table of any class: entry k begins
      the scan, and an accepted row that one of its selectors takes there, and that nobody
      writes after it, has landed when the scan is over. A table without a cursor has one
      selector, which takes every row. */
  lemma ScanLands(t: Table, origin: State, b: seq<Event>, k: nat, id: int)
    requires Sound(t, origin) && LegalRun(t, origin, b) && k < |b| && LegalRun(t, origin, b[..k + 1])
    requires (b[k].ReadSelectors? || b[k].BeginBackfill?) && Uncrashed(b, k) && D.AllLeave(b[k + 1..], id)
    requires var s := Run(t, origin, b[..k + 1]);
             && id in s.source && t.accepts(s.source[id])
             && (HasCursor(t) ==> Scanning(s.pass) && D.SomeSelects(t, s.pass.scan.selectors, s.source[id]))
    ensures var s, now := Run(t, origin, b[..k + 1]), Run(t, origin, b);
            && id in now.source && now.source[id] == s.source[id]
            && (!Scanning(now.pass) ==> Landed(now, s.source[id]))
  {
    hide Sound, D.SomeSelects;
    var front, es := b[..k], b[k + 1..];
    assert b[|front|..] == [b[k]] + es && b[..k + 1] == front + [b[k]];
    SplitLog(t, origin, front, b);
    SoundOverRuns(t, origin, front);
    var m := Run(t, origin, front);
    SplitRun(t, m, b[k], es);
    RunSnoc(t, origin, front, b[k]);
    forall x | x in es ensures x != Crash {
      var i :| 0 <= i < |es| && es[i] == x;
      assert b[k + 1 + i] == x;
    }
    if HasCursor(t) {
      D.UnwrittenRowLands(t, m, b[k], es, id);
    } else {
      D.CursorlessRowLands(t, m, b[k], es, id);
    }
  }

  // ---------- the target's verdicts in the log ----------

  /** Entry i delivers a row as the target judges it: a refused row does not land, and, when
      nothing else went wrong, every other row does. */
  ghost predicate VerdictAt(t: Table, origin: State, refuses: Row -> bool, b: seq<Event>, i: nat, exact: bool)
    requires i < |b| && b[i].Deliver?
  {
    && LegalRun(t, origin, b[..i])
    && var p := Run(t, origin, b[..i]).pass;
       && Scanning(p) && p.scan.page.Some? && p.scan.page.value.rows != []
       && var r := p.scan.page.value.rows[0].row;
          (b[i].lands ==> !refuses(r)) && (exact ==> (b[i].lands <==> !refuses(r)))
  }

  /** No refused row has ever landed, and from entry `from` on every row not refused has. */
  ghost predicate Obeyed(t: Table, origin: State, refuses: Row -> bool, b: seq<Event>, from: nat) {
    && from <= |b|
    && forall i :: 0 <= i < |b| && b[i].Deliver? ==> VerdictAt(t, origin, refuses, b, i, i >= from)
  }

  lemma ObeyedSnoc(t: Table, origin: State, refuses: Row -> bool, b: seq<Event>, e: Event, from: nat, from': nat)
    requires LegalRun(t, origin, b) && Legal(t, Run(t, origin, b), e) && Obeyed(t, origin, refuses, b, from)
    requires from <= from' <= |b| + 1
    requires e.Deliver? ==>
               var r := Run(t, origin, b).pass.scan.page.value.rows[0].row;
               (e.lands ==> !refuses(r)) && (from' <= |b| ==> (e.lands <==> !refuses(r)))
    ensures Obeyed(t, origin, refuses, b + [e], from')
  {
    hide LegalRun, Run;
    var c := b + [e];
    forall i | 0 <= i < |c| && c[i].Deliver? ensures VerdictAt(t, origin, refuses, c, i, i >= from') {
      if i < |b| {
        assert c[..i] == b[..i] && c[i] == b[i];
        assert VerdictAt(t, origin, refuses, b, i, i >= from);
      } else {
        assert c[..i] == b;
      }
    }
  }

  lemma ObeyedBound(t: Table, origin: State, refuses: Row -> bool, b: seq<Event>, from: nat)
    requires Obeyed(t, origin, refuses, b, from)
    ensures from <= |b|
  {
  }

  lemma ObeyedFrom(t: Table, origin: State, refuses: Row -> bool, b: seq<Event>, from: nat, from': nat)
    requires Obeyed(t, origin, refuses, b, from) && from <= from' <= |b|
    ensures Obeyed(t, origin, refuses, b, from')
  {
    hide LegalRun, Run;
    forall i | 0 <= i < |b| && b[i].Deliver? ensures VerdictAt(t, origin, refuses, b, i, i >= from') {
      assert VerdictAt(t, origin, refuses, b, i, i >= from);
    }
  }

  /** What such a log delivers from there on is what the target judges it to be. */
  lemma {:induction false} ObeyedVerdicts(t: Table, origin: State, refuses: Row -> bool, b: seq<Event>, from: nat)
    requires from <= |b| && LegalRun(t, origin, b[..from]) && LegalRun(t, Run(t, origin, b[..from]), b[from..])
    requires Obeyed(t, origin, refuses, b, from)
    ensures Verdicts(refuses, Delivered(t, Run(t, origin, b[..from]), b[from..]))
    decreases |b| - from
  {
    if from < |b| {
      var s, e, es := Run(t, origin, b[..from]), b[from], b[from..];
      assert es[0] == e && es[1..] == b[from + 1..] && b[..from + 1] == b[..from] + [e];
      RunSnoc(t, origin, b[..from], e);
      ObeyedFrom(t, origin, refuses, b, from, from + 1);
      ObeyedVerdicts(t, origin, refuses, b, from + 1);
      if e.Deliver? {
        assert VerdictAt(t, origin, refuses, b, from, true);
      }
    }
  }

  /** A history without a fault has filed only refused rows. */
  lemma ObeyedFilesRightly(t: Table, origin: State, refuses: Row -> bool, b: seq<Event>)
    requires LegalRun(t, origin, b) && Obeyed(t, origin, refuses, b, 0) && FiledRightly(refuses, origin)
    ensures FiledRightly(refuses, Run(t, origin, b))
  {
    assert b[..0] == [] && b[0..] == b;
    ObeyedVerdicts(t, origin, refuses, b, 0);
    FilesAsDelivered(t, refuses, origin, b);
  }

  lemma {:induction false} FilesAsDelivered(t: Table, refuses: Row -> bool, s: State, es: seq<Event>)
    requires LegalRun(t, s, es) && FiledRightly(refuses, s) && Verdicts(refuses, Delivered(t, s, es))
    ensures FiledRightly(refuses, Run(t, s, es))
    decreases |es|
  {
    if es != [] {
      var ds, rest := Delivered(t, s, es), Delivered(t, Step(t, s, es[0]), es[1..]);
      if es[0].Deliver? {
        assert ds[0] == Delivery(s.pass.scan.page.value.rows[0], es[0].lands);
        assert ds[1..] == rest;
        assert forall i :: 0 <= i < |rest| ==> rest[i] == ds[i + 1];
      } else {
        assert ds == rest;
      }
      FilesAsDelivered(t, refuses, Step(t, s, es[0]), es[1..]);
    }
  }
}
