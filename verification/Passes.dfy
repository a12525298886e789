/** One pass over every table of a plan: the loops of `Sync` and `Backfill`, and what a
    caller may conclude from them. */
module Passes {
  import opened Prelude
  import opened Replication
  import opened Safety
  import opened Quiet
  import opened Convergence
  import opened Journal
  import opened Runner

  datatype Report = Report(results: seq<TableResult>, rows: nat, quarantined: nat)

  function Rows(results: seq<TableResult>): nat {
    if results == [] then 0 else Rows(results[..|results| - 1]) + results[|results| - 1].rows
  }

  function Quarantined(results: seq<TableResult>): nat {
    if results == [] then 0 else Quarantined(results[..|results| - 1]) + results[|results| - 1].quarantined
  }

  lemma RowsSnoc(results: seq<TableResult>, r: TableResult)
    ensures Rows(results + [r]) == Rows(results) + r.rows
    ensures Quarantined(results + [r]) == Quarantined(results) + r.quarantined
  {
    assert (results + [r])[..|results|] == results;
  }

  ghost predicate Distinct(tables: seq<TableRunner>) {
    forall i, j :: 0 <= i < j < |tables| ==> tables[i] != tables[j]
  }

  ghost predicate Resting(tables: seq<TableRunner>)
    reads tables
  {
    forall i :: 0 <= i < |tables| ==> tables[i].Valid() && tables[i].pass.Idle?
  }

  /** A whole pass that nothing interleaved with. */
  ghost predicate QuietPass(t: Table, was: State, now: State) {
    exists keys, es :: QuietSync(t, was, keys, es) && now == Run(t, was, SyncRun(keys, es))
  }

  lemma PassageOfSync(a: seq<Event>, keys: seq<Key>, es: seq<Event>)
    ensures a + [BeginSync] + Passage(keys, es) == a + SyncRun(keys, es)
  {
  }

  lemma PassWasQuiet(t: Table, origin: State, a: seq<Event>, b: seq<Event>)
    requires LegalRun(t, origin, a) && Run(t, origin, a).pass.Idle? && LegalRun(t, origin, b)
    requires QuietLog(t, a + [BeginSync], b)
    ensures QuietPass(t, Run(t, origin, a), Run(t, origin, b))
  {
    hide LegalRun, Run, ScanEvents;
    var keys, es :| ScanEvents(es) && b == a + [BeginSync] + Passage(keys, es);
    PassageOfSync(a, keys, es);
    RunAppend(t, origin, a, SyncRun(keys, es));
    assert QuietSync(t, Run(t, origin, a), keys, es);
  }

  /** The same, with every row landed or filed as the target judges it. */
  ghost predicate JudgedPass(t: Table, refuses: Row -> bool, was: State, now: State) {
    exists keys, es :: JudgedSync(t, refuses, was, keys, es) && now == Run(t, was, SyncRun(keys, es))
  }

  lemma PassWasJudged(t: Table, origin: State, refuses: Row -> bool, a: seq<Event>, b: seq<Event>)
    requires LegalRun(t, origin, a) && Run(t, origin, a).pass.Idle? && LegalRun(t, origin, b)
    requires QuietLog(t, a + [BeginSync], b) && Obeyed(t, origin, refuses, b, |a|)
    ensures JudgedPass(t, refuses, Run(t, origin, a), Run(t, origin, b))
  {
    hide LegalRun, Run, ScanEvents, Obeyed;
    var keys, es :| ScanEvents(es) && b == a + [BeginSync] + Passage(keys, es);
    PassageOfSync(a, keys, es);
    assert b[..|a|] == a && b[|a|..] == SyncRun(keys, es);
    SplitLog(t, origin, a, b);
    ObeyedVerdicts(t, origin, refuses, b, |a|);
    assert JudgedSync(t, refuses, Run(t, origin, a), keys, es);
  }

  /** What is noted of a table before a pass. */
  datatype Note = Note(was: State, log: seq<Event>, quiet: bool, clean: bool)

  ghost function NoteOf(x: TableRunner): Note
    reads x
  {
    Note(x.Now(), x.log, x.writes == [], Faultless(x.outcomes))
  }

  ghost predicate AtRest(x: TableRunner, n: Note)
    reads x
  {
    x.Valid() && NoteOf(x) == n && n.was.pass.Idle?
  }

  /** The table has read its watermark and done nothing else. */
  ghost predicate Ready(x: TableRunner, since: Option<int>, n: Note)
    reads x
  {
    && x.Valid() && x.pass == Begun(since) && x.log == n.log + [BeginSync]
    && n.quiet == (x.writes == []) && n.clean == Faultless(x.outcomes)
    && LegalRun(x.t, x.origin, n.log) && Run(x.t, x.origin, n.log) == n.was
    && n.was.pass.Idle? && n.was.mark == x.mark && n.was.quarantine == x.quarantine
    && x.astray <= |n.log|
  }

  /** The table's turn is over: with a result when it succeeded. */
  ghost predicate Ended(x: TableRunner, n: Note, ok: bool, r: TableResult)
    reads x
  {
    && x.Valid() && x.pass.Idle?
    && LegalRun(x.t, x.origin, n.log) && Run(x.t, x.origin, n.log) == n.was && n.was.pass.Idle?
    && Extends(n.log, x.log) && (n.clean ==> x.astray <= |n.log|)
    && (!ok || r.skipped.Some? ==> x.mark == n.was.mark)
    && (ok && r.skipped.None? ==>
         && Synced(n.log, x.log)
         && r.rows == Deliveries(x.log) - Deliveries(n.log)
         && r.quarantined == |x.quarantine| - |n.was.quarantine|
         && (n.quiet ==> QuietLog(x.t, n.log + [BeginSync], x.log)))
  }

  /** The log a table extends, from the reading of its watermark. */
  lemma SinceBegin(a: seq<Event>, m: seq<Event>, b: seq<Event>)
    requires m == a + [BeginSync] && Extends(m, b)
    ensures Extends(a, b)
  {
    assert Extends(a, m);
    ExtendsFurther(a, m, b);
  }

  const NOTHING := TableResult(0, 0, None)

  method BeginOne(x: TableRunner, ghost n: Note) returns (m: Option<int>)
    requires AtRest(x, n)
    modifies x
    ensures Ready(x, m, n)
  {
    ObeyedBound(x.t, x.origin, x.poison, x.log, x.astray);
    m := x.Begin();
  }

  method TakeTurn(x: TableRunner, since: Option<int>, ghost n: Note) returns (ok: bool, r: TableResult)
    requires Ready(x, since, n)
    modifies x
    ensures Ended(x, n, ok, r) && (n.clean ==> ok)
  {
    ghost var start := x.log;
    DeliveriesSnoc(n.log, BeginSync);
    ok, r := x.SyncTable(since);
    SinceBegin(n.log, start, x.log);
    if ok && r.skipped.None? {
      SyncedSince(n.log, start, x.log);
    }
  }

  /** A table the pass did not get to. */
  method GiveUp(x: TableRunner, ghost since: Option<int>, ghost n: Note)
    requires Ready(x, since, n)
    modifies x
    ensures Ended(x, n, false, NOTHING)
  {
    ghost var start := x.log;
    x.Abandon();
    SinceBegin(n.log, start, x.log);
  }

  method BeginAll(tables: seq<TableRunner>, ghost notes: seq<Note>) returns (marks: seq<Option<int>>)
    requires Distinct(tables) && |notes| == |tables|
    requires forall j :: 0 <= j < |tables| ==> AtRest(tables[j], notes[j])
    modifies tables
    ensures |marks| == |tables|
    ensures forall j :: 0 <= j < |tables| ==> Ready(tables[j], marks[j], notes[j])
  {
    marks := [];
    var i := 0;
    while i < |tables|
      invariant i <= |tables| && |marks| == i
      invariant forall j :: 0 <= j < i ==> Ready(tables[j], marks[j], notes[j])
      invariant forall j :: i <= j < |tables| ==> AtRest(tables[j], notes[j])
    {
      var m := BeginOne(tables[i], notes[i]);
      marks := marks + [m];
      i := i + 1;
    }
  }

  function ResultAt(results: seq<TableResult>, j: nat): TableResult {
    if j < |results| then results[j] else NOTHING
  }

  /** A table's turn, unless the pass has already failed. */
  method TurnOrNot(x: TableRunner, since: Option<int>, going: bool, results: seq<TableResult>, ghost n: Note)
      returns (ok: bool, now: seq<TableResult>)
    requires Ready(x, since, n)
    modifies x
    ensures results <= now && |now| == |results| + if ok then 1 else 0
    ensures (ok ==> going) && (going && n.clean ==> ok)
    ensures Ended(x, n, ok, ResultAt(now, |results|))
  {
    ok, now := false, results;
    if going {
      var r;
      ok, r := TakeTurn(x, since, n);
      if ok { now := results + [r]; }
    } else {
      GiveUp(x, since, n);
    }
  }

  /** The first k tables have had their turn; the first |results| of those succeeded. */
  ghost predicate AllEnded(tables: seq<TableRunner>, notes: seq<Note>, results: seq<TableResult>, k: nat)
    requires k <= |tables| == |notes|
    reads tables[..k]
  {
    k == 0 || (AllEnded(tables, notes, results, k - 1)
               && Ended(tables[k - 1], notes[k - 1], k - 1 < |results|, ResultAt(results, k - 1)))
  }

  lemma {:induction false} MoreResults(tables: seq<TableRunner>, notes: seq<Note>, a: seq<TableResult>,
                                       b: seq<TableResult>, k: nat)
    requires k <= |tables| == |notes| && a <= b && k <= |a|
    requires AllEnded(tables, notes, a, k)
    ensures AllEnded(tables, notes, b, k)
  {
    if k > 0 {
      MoreResults(tables, notes, a, b, k - 1);
    }
  }

  lemma OneMore(tables: seq<TableRunner>, notes: seq<Note>, a: seq<TableResult>, b: seq<TableResult>, k: nat, ok: bool)
    requires k < |tables| == |notes| && |a| <= k && a <= b && |b| == |a| + if ok then 1 else 0
    requires ok ==> |a| == k
    requires AllEnded(tables, notes, a, k) && Ended(tables[k], notes[k], ok, ResultAt(b, |a|))
    ensures AllEnded(tables, notes, b, k + 1)
  {
    if ok {
      MoreResults(tables, notes, a, b, k);
    } else {
      assert a == b;
    }
  }

  /** The tables from k on have read their watermarks and done nothing else. */
  ghost predicate AllReady(tables: seq<TableRunner>, marks: seq<Option<int>>, notes: seq<Note>, k: nat)
    requires k <= |tables| == |marks| == |notes|
    reads tables[k..]
    decreases |tables| - k
  {
    k == |tables| || (Ready(tables[k], marks[k], notes[k]) && AllReady(tables, marks, notes, k + 1))
  }

  lemma {:induction false} EachReady(tables: seq<TableRunner>, marks: seq<Option<int>>, notes: seq<Note>, k: nat)
    requires k <= |tables| == |marks| == |notes|
    requires forall j :: k <= j < |tables| ==> Ready(tables[j], marks[j], notes[j])
    ensures AllReady(tables, marks, notes, k)
    decreases |tables| - k
  {
    hide Ready;
    if k < |tables| {
      EachReady(tables, marks, notes, k + 1);
    }
  }

  lemma NextReady(tables: seq<TableRunner>, marks: seq<Option<int>>, notes: seq<Note>, k: nat)
    requires k < |tables| == |marks| == |notes| && AllReady(tables, marks, notes, k)
    ensures Ready(tables[k], marks[k], notes[k]) && AllReady(tables, marks, notes, k + 1)
  {
  }

  /** The turn of table i; those before it stay as they are. */
  method TurnAt(tables: seq<TableRunner>, i: nat, since: Option<int>, going: bool, results: seq<TableResult>,
                ghost notes: seq<Note>)
      returns (ok: bool, now: seq<TableResult>)
    requires Distinct(tables) && i < |tables| == |notes| && |results| <= i && (going ==> |results| == i)
    requires AllEnded(tables, notes, results, i) && Ready(tables[i], since, notes[i])
    modifies tables[i]
    ensures results <= now && |now| == |results| + (if ok then 1 else 0) && (ok ==> going)
    ensures going && notes[i].clean ==> ok
    ensures AllEnded(tables, notes, now, i + 1)
  {
    assert tables[i] !in tables[..i];
    ok, now := TurnOrNot(tables[i], since, going, results, notes[i]);
    OneMore(tables, notes, results, now, i, ok);
  }

  /** The same; those after it are still waiting. */
  method NextTurn(tables: seq<TableRunner>, marks: seq<Option<int>>, i: nat, going: bool, results: seq<TableResult>,
                  ghost notes: seq<Note>)
      returns (ok: bool, now: seq<TableResult>)
    requires Distinct(tables) && i < |tables| == |marks| == |notes| && |results| <= i && (going ==> |results| == i)
    requires AllEnded(tables, notes, results, i) && AllReady(tables, marks, notes, i)
    modifies tables[i]
    ensures results <= now && |now| == |results| + (if ok then 1 else 0) && (ok ==> going)
    ensures going && notes[i].clean ==> ok
    ensures AllEnded(tables, notes, now, i + 1) && AllReady(tables, marks, notes, i + 1)
  {
    NextReady(tables, marks, notes, i);
    assert tables[i] !in tables[i + 1..];
    ok, now := TurnAt(tables, i, marks[i], going, results, notes);
  }

  ghost predicate AllClean(notes: seq<Note>) {
    forall j :: 0 <= j < |notes| ==> notes[j].clean
  }

  /** Table after table, until one fails or the context is cancelled. */
  method TakeTurns(tables: seq<TableRunner>, marks: seq<Option<int>>, cancelAt: nat, ghost notes: seq<Note>)
      returns (ok: bool, results: seq<TableResult>)
    requires Distinct(tables) && |notes| == |marks| == |tables|
    requires AllReady(tables, marks, notes, 0)
    modifies tables
    ensures |results| <= |tables| && (ok <==> |results| == |tables|)
    ensures AllClean(notes) && cancelAt >= |tables| ==> ok
    ensures AllEnded(tables, notes, results, |tables|)
  {
    hide Ended, Ready;
    results := [];
    for i := 0 to |tables|
      invariant |results| <= i && (AllClean(notes) && cancelAt >= |tables| ==> |results| == i)
      invariant AllEnded(tables, notes, results, i)
      invariant AllReady(tables, marks, notes, i)
    {
      var more;
      more, results := NextTurn(tables, marks, i, |results| == i && i < cancelAt, results, notes);
    }
    ok := |results| == |tables|;
  }

  /** What one table's turn in a pass comes to, whatever the daemon wrote meanwhile. */
  ghost predicate Turn(t: Table, refuses: Row -> bool, was: State, now: State, ok: bool, r: TableResult, quiet: bool,
                       clean: bool) {
    && (Inv(t, was) ==> Inv(t, now))
    && (!ok || r.skipped.Some? ==> now.mark == was.mark)
    && (ok && r.skipped.None? ==> r.quarantined == |now.quarantine| - |was.quarantine|)
    && (ok && r.skipped.None? && quiet ==> QuietPass(t, was, now))
    && (ok && r.skipped.None? && quiet && clean ==> JudgedPass(t, refuses, was, now))
  }

  lemma EndedIsTurn(x: TableRunner, n: Note, ok: bool, r: TableResult)
    requires Ended(x, n, ok, r)
    ensures x.Valid() && x.pass.Idle? && Turn(x.t, x.poison, n.was, x.Now(), ok, r, n.quiet, n.clean)
    ensures ok && r.skipped.None? ==> Synced(n.log, x.log)
  {
    if Inv(x.t, n.was) {
      SyncIsSafe(x.t, x.origin, n.log, x.log);
    }
    if ok && r.skipped.None? && n.quiet {
      PassWasQuiet(x.t, x.origin, n.log, x.log);
      if n.clean {
        ObeyedFrom(x.t, x.origin, x.poison, x.log, x.astray, |n.log|);
        PassWasJudged(x.t, x.origin, x.poison, n.log, x.log);
      }
    }
  }

  lemma {:induction false} AllTurns(tables: seq<TableRunner>, notes: seq<Note>, results: seq<TableResult>, k: nat,
                                    j: nat)
    requires j < k <= |tables| == |notes| && AllEnded(tables, notes, results, k)
    ensures Ended(tables[j], notes[j], j < |results|, ResultAt(results, j))
  {
    if j < k - 1 {
      AllTurns(tables, notes, results, k - 1, j);
    }
  }

  lemma NoTurns()
    ensures forall t, refuses, s, quiet, clean :: Turn(t, refuses, s, s, false, NOTHING, quiet, clean)
  {
  }

  method Total(results: seq<TableResult>) returns (report: Report)
    ensures report == Report(results, Rows(results), Quarantined(results))
  {
    report := Report(results, 0, 0);
    for i := 0 to |results|
      invariant report == Report(results, Rows(results[..i]), Quarantined(results[..i]))
    {
      RowsSnoc(results[..i], results[i]);
      assert results[..i + 1] == results[..i] + [results[i]];
      report := Report(results, report.rows + results[i].rows, report.quarantined + results[i].quarantined);
    }
    assert results[..|results|] == results;
  }

  /** One incremental pass. The watermarks are read first; the tables are then taken in order
      until one fails. Each table's invariant survives, a table that did not finish keeps its
      watermark, and a finished table that nothing interfered with has had a quiet pass. */
  method Sync(tables: seq<TableRunner>, reachable: bool, cancelAt: nat) returns (ok: bool, report: Report)
    requires Distinct(tables) && Resting(tables)
    modifies tables
    ensures Resting(tables)
    ensures |report.results| <= |tables| && (ok <==> reachable && |report.results| == |tables|)
    ensures report.rows == Rows(report.results) && report.quarantined == Quarantined(report.results)
    ensures forall j :: 0 <= j < |tables| ==>
              Turn(tables[j].t, tables[j].poison, old(tables[j].Now()), tables[j].Now(), j < |report.results|,
                   ResultAt(report.results, j), old(tables[j].writes) == [], Faultless(old(tables[j].outcomes)))
    ensures reachable && cancelAt >= |tables| && (forall j :: 0 <= j < |tables| ==> Faultless(old(tables[j].outcomes)))
            ==> ok
    ensures forall j :: 0 <= j < |report.results| && report.results[j].skipped.None? ==>
              Synced(old(tables[j].log), tables[j].log)
  {
    hide Synced, Turn, Ended, Ready, AllEnded, AllReady, Inv, LegalRun, Run;
    report := Report([], 0, 0);
    ok := reachable;
    if !reachable {
      NoTurns();
      return;
    }
    ghost var notes := seq(|tables|, i requires 0 <= i < |tables| reads tables => NoteOf(tables[i]));
    var marks := BeginAll(tables, notes);
    EachReady(tables, marks, notes, 0);
    var results;
    ok, results := TakeTurns(tables, marks, cancelAt, notes);
    report := Total(results);
    forall j | 0 <= j < |tables|
      ensures tables[j].Valid() && tables[j].pass.Idle?
      ensures Turn(tables[j].t, tables[j].poison, notes[j].was, tables[j].Now(), j < |results|, ResultAt(results, j),
                   notes[j].quiet, notes[j].clean)
      ensures j < |results| && results[j].skipped.None? ==> Synced(notes[j].log, tables[j].log)
    {
      AllTurns(tables, notes, results, |tables|, j);
      EndedIsTurn(tables[j], notes[j], j < |results|, ResultAt(results, j));
    }
  }

  /** What a caller may conclude of a table whose turn succeeded while the daemon was quiet:
      every accepted row in reach is in the target or in quarantine in its current version. */
  lemma TurnConverges(t: Table, refuses: Row -> bool, was: State, now: State, r: TableResult, clean: bool, id: int)
    requires Turn(t, refuses, was, now, true, r, true, clean) && r.skipped.None? && Inv(t, was)
    requires t.follow.OpenRow? ==> t.singleKey && |OpenKeys(t, was.target)| <= RESCAN_OPEN_LIMIT
    requires id in was.source && t.accepts(was.source[id]) && InReach(t, was, was.source[id])
    ensures now.source == was.source
    ensures Landed(now, was.source[id]) || (t.follow.OpenRow? && EverQuarantined(was, was.source[id].key))
  {
    var keys, es :| QuietSync(t, was, keys, es) && now == Run(t, was, SyncRun(keys, es));
    QuietPassConverges(t, was, keys, es, id);
  }

  /** And of one whose every statement went well, too: the target is what it was with the rows
      the selectors take upserted in order, but for those it refuses, which are filed; and a row
      in reach that it does not refuse is held in its current version and not filed. */
  lemma TurnHolds(t: Table, refuses: Row -> bool, was: State, now: State, r: TableResult, id: int)
    requires Turn(t, refuses, was, now, true, r, true, true) && r.skipped.None?
    requires Inv(t, was) && FiledRightly(refuses, was)
    requires t.follow.OpenRow? ==> t.singleKey && |OpenKeys(t, was.target)| <= RESCAN_OPEN_LIMIT
    ensures exists keys :: OpenListing(t, was.target, keys) && PassLeaves(t, refuses, was, keys, now)
    ensures id in was.source && t.accepts(was.source[id]) && InReach(t, was, was.source[id])
            && !refuses(was.source[id]) ==>
              && was.source[id] !in now.quarantine
              && (Held(now, was.source[id]) || (t.follow.OpenRow? && EverQuarantined(was, was.source[id].key)))
  {
    hide FiledRightly, InReach, EverQuarantined, OpenListing;
    var keys, es :| JudgedSync(t, refuses, was, keys, es) && now == Run(t, was, SyncRun(keys, es));
    SyncPassDelivers(t, was, keys, es);
    JudgedPassIs(t, refuses, was, keys, es);
    assert PassLeaves(t, refuses, was, keys, now);
    if id in was.source && t.accepts(was.source[id]) && InReach(t, was, was.source[id]) && !refuses(was.source[id]) {
      JudgedPassHolds(t, refuses, was, keys, es, id);
    }
  }

  ghost predicate PassLeaves(t: Table, refuses: Row -> bool, was: State, keys: seq<Key>, now: State)
    requires t.batch > 0
  {
    var q := Queue(t, was.source, Selectors(t, was.mark, keys));
    && now.target == Upserted(was.target, Kept(refuses, q))
    && now.quarantine == was.quarantine + Refused(refuses, q)
  }

  // ---------- backfill ----------

  /** A whole backfill that nothing interleaved with. */
  ghost predicate QuietBackfill(t: Table, was: State, now: State) {
    exists es :: QuietFill(t, was, es) && now == Run(t, was, FillRun(es))
  }

  /** The same, with every row landed or filed as the target judges it. */
  ghost predicate JudgedBackfill(t: Table, refuses: Row -> bool, was: State, now: State) {
    exists es ::
      QuietFill(t, was, es) && Verdicts(refuses, Delivered(t, was, FillRun(es))) && now == Run(t, was, FillRun(es))
  }

  /** Such a backfill leaves every accepted row upserted in rowid order, but for those the
      target refuses, which are filed. */
  lemma BackfillLeaves(t: Table, refuses: Row -> bool, was: State, now: State)
    requires t.batch > 0 && JudgedBackfill(t, refuses, was, now)
    ensures var q := Listing(t, was.source, All, 0);
            && now.source == was.source
            && now.target == Upserted(was.target, Kept(refuses, q))
            && now.quarantine == was.quarantine + Refused(refuses, q)
  {
    hide Listing;
    var es :|
      QuietFill(t, was, es) && Verdicts(refuses, Delivered(t, was, FillRun(es))) && now == Run(t, was, FillRun(es));
    JudgedFillIs(t, refuses, was, es);
  }

  /** What a table's backfill comes to: finished, it restores the invariant from any state
      with an honest watermark; unfinished, it keeps the watermark honest. */
  ghost predicate Filled(t: Table, refuses: Row -> bool, was: State, now: State, ok: bool, r: TableResult, quiet: bool,
                         clean: bool) {
    && (Sound(t, was) ==> Sound(t, now))
    && (ok && r.skipped.None? && Sound(t, was) ==> Inv(t, now))
    && (ok && r.skipped.None? ==> r.quarantined == |now.quarantine| - |was.quarantine|)
    && (ok && r.skipped.None? && quiet ==> QuietBackfill(t, was, now))
    && (ok && r.skipped.None? && quiet && clean ==> JudgedBackfill(t, refuses, was, now))
    && (ok && r.skipped.Some? ==> now == was)
  }

  ghost predicate Refilled(x: TableRunner, n: Note, ok: bool, r: TableResult)
    reads x
  {
    x.Valid() && x.pass.Idle? && Filled(x.t, x.poison, n.was, x.Now(), ok, r, n.quiet, n.clean)
  }

  lemma FilledBy(t: Table, origin: State, a: seq<Event>, b: seq<Event>)
    requires LegalRun(t, origin, a) && LegalRun(t, origin, b) && a <= b
    ensures Sound(t, Run(t, origin, a)) ==> Sound(t, Run(t, origin, b))
    ensures Sound(t, Run(t, origin, a)) && Backfilled(a, b) ==> Inv(t, Run(t, origin, b))
    ensures Run(t, origin, a).pass.Idle? && QuietFillLog(a, b) ==>
              QuietBackfill(t, Run(t, origin, a), Run(t, origin, b))
  {
    SplitLog(t, origin, a, b);
    var s := Run(t, origin, a);
    if Sound(t, s) {
      SoundOverRuns(t, s, b[|a|..]);
      if Backfilled(a, b) {
        BackfillIsSafe(t, origin, a, b);
      }
    }
    if s.pass.Idle? && QuietFillLog(a, b) {
      var es :| ScanEvents(es) && b == a + FillRun(es);
      assert b[|a|..] == FillRun(es);
      assert QuietFill(t, s, es);
    }
  }

  lemma FillWasJudged(t: Table, origin: State, refuses: Row -> bool, a: seq<Event>, b: seq<Event>)
    requires LegalRun(t, origin, a) && Run(t, origin, a).pass.Idle? && LegalRun(t, origin, b)
    requires QuietFillLog(a, b) && Obeyed(t, origin, refuses, b, |a|)
    ensures JudgedBackfill(t, refuses, Run(t, origin, a), Run(t, origin, b))
  {
    hide LegalRun, Run, ScanEvents, Obeyed;
    var es :| ScanEvents(es) && b == a + FillRun(es);
    assert b[..|a|] == a && b[|a|..] == FillRun(es);
    SplitLog(t, origin, a, b);
    ObeyedVerdicts(t, origin, refuses, b, |a|);
    assert QuietFill(t, Run(t, origin, a), es);
  }

  method BackfillOne(x: TableRunner, ghost n: Note) returns (ok: bool, r: TableResult)
    requires AtRest(x, n)
    modifies x
    ensures Refilled(x, n, ok, r) && (!ok ==> r == NOTHING) && (n.clean ==> ok)
  {
    hide Sound, Inv, QuietBackfill, JudgedBackfill, QuietFillLog;
    ok, r := x.BackfillTable();
    FilledBy(x.t, x.origin, n.log, x.log);
    if ok && r.skipped.None? && n.quiet && n.clean {
      FillWasJudged(x.t, x.origin, x.poison, n.log, x.log);
    }
    if !ok { r := NOTHING; }
  }

  /** History for every table, until one fails; the tables after that one are untouched. */
  method Backfill(tables: seq<TableRunner>) returns (ok: bool, results: seq<TableResult>)
    requires Distinct(tables) && Resting(tables)
    modifies tables
    ensures Resting(tables) && |results| <= |tables| && (ok <==> |results| == |tables|)
    ensures forall j :: 0 <= j <= |results| && j < |tables| ==>
              Filled(tables[j].t, tables[j].poison, old(tables[j].Now()), tables[j].Now(), j < |results|,
                     ResultAt(results, j), old(tables[j].writes) == [], Faultless(old(tables[j].outcomes)))
    ensures (forall j :: 0 <= j < |tables| ==> Faultless(old(tables[j].outcomes))) ==> ok
    ensures forall j :: |results| < j < |tables| ==> tables[j].Now() == old(tables[j].Now())
  {
    hide Filled, Sound, Inv, Faultless, LegalRun, Run, Obeyed, PermittedScript;
    results, ok := [], true;
    var i := 0;
    while ok && i < |tables|
      invariant |results| <= |tables| && i <= |tables| && (ok ==> i == |results|) && (!ok ==> |results| < |tables|)
      invariant forall j :: 0 <= j < |results| ==>
        Filled(tables[j].t, tables[j].poison, old(tables[j].Now()), tables[j].Now(), true, results[j],
               old(tables[j].writes) == [], Faultless(old(tables[j].outcomes)))
      invariant !ok ==>
        var x := tables[|results|];
        Filled(x.t, x.poison, old(x.Now()), x.Now(), false, NOTHING, old(x.writes) == [], Faultless(old(x.outcomes)))
      invariant !ok ==> !Faultless(old(tables[|results|].outcomes))
      invariant forall j :: 0 <= j < |tables| && (ok ==> j < |results|) ==> tables[j].Valid() && tables[j].pass.Idle?
      invariant forall j :: |results| < j < |tables| || (ok && j == |results| && j < |tables|) ==>
        && tables[j].Valid() && tables[j].pass.Idle? && tables[j].Now() == old(tables[j].Now())
        && tables[j].writes == old(tables[j].writes) && tables[j].outcomes == old(tables[j].outcomes)
    {
      var r;
      ok, r := BackfillOne(tables[i], NoteOf(tables[i]));
      if ok { results := results + [r]; }
      i := i + 1;
    }
  }
}
