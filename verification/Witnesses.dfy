/** Inputs at which the promises of `Limits` and `Convergence` fail: short runs from an empty
    sink, each written out. */
module Witnesses {
  import opened Prelude
  import opened Ordered
  import opened Replication
  import opened Safety
  import opened Convergence
  import opened Limits

  // ---------- passes that read one row, or none ----------

  /** A pass whose selectors find nothing. */
  const EMPTY_PASS := [BeginSync, ReadMax, ReadSelectors([]), ReadPage, Finish]

  /** A pass that has read its one short page of one row, which landed. */
  const DRAINED_PASS := [BeginSync, ReadMax, ReadSelectors([]), ReadPage, Deliver(true), EndPage]

  const ONE_ROW_PASS := DRAINED_PASS + [Finish]

  /** Nothing is open, one selector, and these are the rows it finds. */
  ghost predicate Finds(t: Table, s: State, ids: set<int>) {
    && s.pass.Idle? && HasCursor(t) && t.batch > 1 && OpenListing(t, s.target, [])
    && |Selectors(t, s.mark, [])| == 1
    && Candidates(t, s.source, Selectors(t, s.mark, [])[0], 0) == ids
  }

  /** One event, then a run of the rest. */
  lemma Then(t: Table, s: State, e: Event, es: seq<Event>)
    requires es != [] && es[0] == e && Legal(t, s, e) && LegalRun(t, Step(t, s, e), es[1..])
    ensures LegalRun(t, s, es) && Run(t, s, es) == Run(t, Step(t, s, e), es[1..])
  {
  }

  lemma Opens(t: Table, s: State, es: seq<Event>)
    requires s.pass.Idle? && HasCursor(t) && OpenListing(t, s.target, [])
    requires |es| > 3 && es[0] == BeginSync && es[1] == ReadMax && es[2] == ReadSelectors([])
    requires LegalRun(t, Opened(t, s, []), es[3..])
    ensures LegalRun(t, s, es) && Run(t, s, es) == Run(t, Opened(t, s, []), es[3..])
  {
    var s1 := Step(t, s, BeginSync);
    var s2 := Step(t, s1, ReadMax);
    var s3 := Step(t, s2, ReadSelectors([]));
    assert s3 == Opened(t, s, []);
    assert es[1..][1..] == es[2..] && es[2..][1..] == es[3..];
    Then(t, s2, ReadSelectors([]), es[2..]);
    Then(t, s1, ReadMax, es[1..]);
    Then(t, s, BeginSync, es);
  }

  lemma EmptyPass(t: Table, s: State)
    requires Finds(t, s, {})
    ensures LegalRun(t, s, EMPTY_PASS) && Run(t, s, EMPTY_PASS) == s.(mark := MaxCursor(t, s.source))
  {
    var s0, rest := Opened(t, s, []), [ReadPage, Finish];
    assert EMPTY_PASS[3..] == rest && rest[1..] == [Finish] && [Finish][1..] == [];
    var s1 := Step(t, s0, ReadPage);
    assert PageRows(t, s.source, s0.pass.scan.selectors[0], 0) == [];
    Then(t, s1, Finish, [Finish]);
    Then(t, s0, ReadPage, rest);
    Opens(t, s, EMPTY_PASS);
  }

  lemma OneRowPage(t: Table, source: map<int, Row>, sel: Selector, id: int)
    requires t.batch > 1 && Candidates(t, source, sel, 0) == {id}
    ensures id in source && PageRows(t, source, sel, 0) == [Entry(id, source[id])]
  {
    assert id in Candidates(t, source, sel, 0);
    PageCovers(t, source, sel, 0, id);
    SortedLists({id});
    ListsCount(Sorted({id}), {id});
    PageEntry(t, source, sel, 0, 0);
    assert PageRows(t, source, sel, 0)[0].id in Candidates(t, source, sel, 0);
  }

  lemma OneRowScan(t: Table, s: State, since: Option<int>, next: Option<int>, sel: Selector, id: int)
    requires t.batch > 1 && Candidates(t, s.source, sel, 0) == {id}
    requires s.pass == Syncing(since, Scan(next, [sel], 0, None))
    ensures id in s.source && LegalRun(t, s, DRAINED_PASS[3..])
    ensures Run(t, s, DRAINED_PASS[3..])
            == s.(target := s.target[s.source[id].key := s.source[id]], pass := Syncing(since, Scan(next, [], 0, None)))
  {
    OneRowPage(t, s.source, sel, id);
    hide PageRows, Candidates;
    var rest := [ReadPage, Deliver(true), EndPage];
    assert DRAINED_PASS[3..] == rest && rest[1..][1..] == [EndPage] && [EndPage][1..] == [];
    assert [Entry(id, s.source[id])][1..] == [] && [sel][1..] == [];
    var s1 := Step(t, s, ReadPage);
    var s2 := Step(t, s1, Deliver(true));
    Then(t, s2, EndPage, [EndPage]);
    Then(t, s1, Deliver(true), rest[1..]);
    Then(t, s, ReadPage, rest);
  }

  ghost function Drained(t: Table, s: State, id: int): State
    requires id in s.source
  {
    s.(target := s.target[s.source[id].key := s.source[id]],
       pass := Syncing(s.mark, Scan(MaxCursor(t, s.source), [], 0, None)))
  }

  lemma OneRowPass(t: Table, s: State, id: int)
    requires Finds(t, s, {id})
    ensures id in s.source && LegalRun(t, s, DRAINED_PASS) && Run(t, s, DRAINED_PASS) == Drained(t, s, id)
    ensures LegalRun(t, s, ONE_ROW_PASS)
    ensures Run(t, s, ONE_ROW_PASS) == Drained(t, s, id).(mark := MaxCursor(t, s.source), pass := Idle)
  {
    hide Candidates, Run, LegalRun, MaxCursor;
    var sels := Selectors(t, s.mark, []);
    OneRowScan(t, Opened(t, s, []), s.mark, MaxCursor(t, s.source), sels[0], id);
    Opens(t, s, DRAINED_PASS);
    RunSnoc(t, s, DRAINED_PASS, Finish);
  }

  lemma GreatestIs(t: Table, source: map<int, Row>, cs: set<int>, m: int)
    requires AcceptedCursors(t, source) == cs && m in cs && forall c :: c in cs ==> c <= m
    ensures MaxCursor(t, source) == Some(m)
  {
  }

  // ---------- the rows ----------

  const RUNNING := Row("a", Some(1), Some("running"), "")
  const DONE := Row("a", Some(1), Some("done"), "")
  const LATER := Row("b", Some(2), Some("done"), "")
  const TIED := Row("b", Some(1), Some("done"), "")
  const UNDATED := Row("b", None, Some("done"), "")

  const FINISHED_ONLY :=
    Table(OpenRow, (r: Row) => r.state != Some("running"), ["done"], true, (_: int, _: Row) => false, 0, 2)
  const TWO_COLUMN_KEY := Table(OpenRow, (_: Row) => true, ["done"], false, (_: int, _: Row) => false, 0, 2)
  const LOG := Table(AppendOnly, (_: Row) => true, ["done"], true, (_: int, _: Row) => false, 0, 2)

  ghost function Fresh(source: map<int, Row>, high: int): State {
    State(source, Some(high), map[], [], None, Idle)
  }

  // ---------- a filter that changes its mind ----------

  ghost const REJECTED := Fresh(map[1 := RUNNING, 2 := LATER], 2)

  lemma RejectedPass()
    ensures Unstarted(FINISHED_ONLY, REJECTED) && LegalRun(FINISHED_ONLY, REJECTED, ONE_ROW_PASS)
    ensures Run(FINISHED_ONLY, REJECTED, ONE_ROW_PASS) == REJECTED.(target := map["b" := LATER], mark := Some(2))
    ensures LegalRun(FINISHED_ONLY, REJECTED, DRAINED_PASS)
    ensures Run(FINISHED_ONLY, REJECTED, DRAINED_PASS)
            == REJECTED.(target := map["b" := LATER], pass := Syncing(None, Scan(Some(2), [], 0, None)))
  {
    hide Run, LegalRun, MaxCursor;
    assert REJECTED.source[1].state == Some("running");
    assert Candidates(FINISHED_ONLY, REJECTED.source, All, 0) == {2};
    assert AcceptedCursors(FINISHED_ONLY, REJECTED.source) == {2} by {
      assert REJECTED.source[2].cursor.value == 2;
    }
    GreatestIs(FINISHED_ONLY, REJECTED.source, {2}, 2);
    assert OpenKeys(FINISHED_ONLY, REJECTED.target) == {};
    OneRowPass(FINISHED_ONLY, REJECTED, 2);
  }

  /** A running row the filter rejects, and a later one it accepts: after one pass the first
      settles, is accepted from then on, and does not arrive in any number of passes. */
  lemma LateAcceptanceLosesARow()
    ensures Unstarted(FINISHED_ONLY, REJECTED) && LegalRun(FINISHED_ONLY, REJECTED, ONE_ROW_PASS)
    ensures var s := Run(FINISHED_ONLY, REJECTED, ONE_ROW_PASS);
            var s' := ApplyWrite(FINISHED_ONLY, s, Update(1, DONE));
            && !Accounted(FINISHED_ONLY, s', s'.mark)
            && NeverArrives(FINISHED_ONLY, s', 1)
  {
    hide Run, LegalRun;
    RejectedPass();
    var s := Run(FINISHED_ONLY, REJECTED, ONE_ROW_PASS);
    var s' := ApplyWrite(FINISHED_ONLY, s, Update(1, DONE));
    assert !Covered(FINISHED_ONLY, s', s'.mark, s'.source[1]);
    IsPassedOver(FINISHED_ONLY, s', 1);
  }

  ghost const REJECTED_READ :=
    State(map[1 := RUNNING, 2 := LATER], Some(2), map["b" := LATER], [], None,
          Syncing(None, Scan(Some(2), [], 0, None)))

  lemma RejectedRead()
    ensures Unstarted(FINISHED_ONLY, REJECTED) && LegalRun(FINISHED_ONLY, REJECTED, DRAINED_PASS)
    ensures Run(FINISHED_ONLY, REJECTED, DRAINED_PASS) == REJECTED_READ && Inv(FINISHED_ONLY, REJECTED_READ)
  {
    hide Run, LegalRun, Inv, Intact;
    RejectedPass();
    StaysIntact(FINISHED_ONLY, REJECTED, DRAINED_PASS);
  }

  lemma StaysIntact(t: Table, s: State, es: seq<Event>)
    requires Unstarted(t, s) && LegalRun(t, s, es) && Crash !in es
    ensures Inv(t, Run(t, s, es))
  {
    hide LegalRun, Run;
    NoCrashIntact(t, s, es);
    InvOverRuns(t, s, es, true);
  }

  /** The same update one event earlier: nothing is stored yet, so everything is accounted for
      at the watermark; but the pass no longer reads the row, and its end loses it. */
  lemma LateAcceptanceMidPass()
    ensures Unstarted(FINISHED_ONLY, REJECTED) && LegalRun(FINISHED_ONLY, REJECTED, DRAINED_PASS)
    ensures Run(FINISHED_ONLY, REJECTED, DRAINED_PASS) == REJECTED_READ
    ensures var s := ApplyWrite(FINISHED_ONLY, REJECTED_READ, Update(1, DONE));
            && Accounted(FINISHED_ONLY, s, s.mark) && Legal(FINISHED_ONLY, s, Finish)
            && var s' := Step(FINISHED_ONLY, s, Finish);
               !Accounted(FINISHED_ONLY, s', s'.mark) && NeverArrives(FINISHED_ONLY, s', 1)
  {
    hide Run, LegalRun, Inv, Accounted, NeverArrives;
    RejectedRead();
    LostWithThePass(FINISHED_ONLY, REJECTED_READ, Update(1, DONE), 1, DONE);
  }

  // ---------- two rows in one millisecond ----------

  ghost const ONE_LOGGED := Fresh(map[1 := DONE], 1)

  lemma LoggedPass()
    ensures Unstarted(LOG, ONE_LOGGED) && LegalRun(LOG, ONE_LOGGED, ONE_ROW_PASS)
    ensures Run(LOG, ONE_LOGGED, ONE_ROW_PASS) == ONE_LOGGED.(target := map["a" := DONE], mark := Some(1))
    ensures LegalRun(LOG, ONE_LOGGED, DRAINED_PASS)
    ensures Run(LOG, ONE_LOGGED, DRAINED_PASS)
            == ONE_LOGGED.(target := map["a" := DONE], pass := Syncing(None, Scan(Some(1), [], 0, None)))
  {
    hide Run, LegalRun, MaxCursor;
    assert Candidates(LOG, ONE_LOGGED.source, All, 0) == {1};
    assert AcceptedCursors(LOG, ONE_LOGGED.source) == {1} by {
      assert ONE_LOGGED.source[1].cursor.value == 1;
    }
    GreatestIs(LOG, ONE_LOGGED.source, {1}, 1);
    OneRowPass(LOG, ONE_LOGGED, 1);
  }

  /** A row inserted after the pass with the cursor the watermark stands at. */
  lemma TiedCursorLosesARow()
    ensures Unstarted(LOG, ONE_LOGGED) && LegalRun(LOG, ONE_LOGGED, ONE_ROW_PASS)
    ensures var s := Run(LOG, ONE_LOGGED, ONE_ROW_PASS); var s' := ApplyWrite(LOG, s, Insert(2, TIED));
            && TIED.cursor == s.high && !Accounted(LOG, s', s'.mark)
            && NeverArrives(LOG, s', 2)
  {
    hide Run, LegalRun;
    LoggedPass();
    var s := Run(LOG, ONE_LOGGED, ONE_ROW_PASS);
    var s' := ApplyWrite(LOG, s, Insert(2, TIED));
    assert !Covered(LOG, s', s'.mark, s'.source[2]);
    IsPassedOver(LOG, s', 2);
  }

  ghost const LOGGED_READ :=
    State(map[1 := DONE], Some(1), map["a" := DONE], [], None, Syncing(None, Scan(Some(1), [], 0, None)))

  lemma LoggedRead()
    ensures Unstarted(LOG, ONE_LOGGED) && LegalRun(LOG, ONE_LOGGED, DRAINED_PASS)
    ensures Run(LOG, ONE_LOGGED, DRAINED_PASS) == LOGGED_READ && Inv(LOG, LOGGED_READ)
  {
    hide Run, LegalRun, Inv, Intact;
    LoggedPass();
    StaysIntact(LOG, ONE_LOGGED, DRAINED_PASS);
  }

  /** The same row inserted while the pass is still running, its page already read. */
  lemma TiedCursorMidPass()
    ensures Unstarted(LOG, ONE_LOGGED) && LegalRun(LOG, ONE_LOGGED, DRAINED_PASS)
    ensures Run(LOG, ONE_LOGGED, DRAINED_PASS) == LOGGED_READ
    ensures var s := ApplyWrite(LOG, LOGGED_READ, Insert(2, TIED));
            && Accounted(LOG, s, s.mark) && Legal(LOG, s, Finish)
            && var s' := Step(LOG, s, Finish);
               !Accounted(LOG, s', s'.mark) && NeverArrives(LOG, s', 2)
  {
    hide Run, LegalRun, Inv, Accounted, NeverArrives;
    LoggedRead();
    LostWithThePass(LOG, LOGGED_READ, Insert(2, TIED), 2, TIED);
  }

  // ---------- a key of two columns ----------

  ghost const ONE_RUNNING := Fresh(map[1 := RUNNING], 1)

  lemma RunningPass()
    ensures Unstarted(TWO_COLUMN_KEY, ONE_RUNNING) && LegalRun(TWO_COLUMN_KEY, ONE_RUNNING, ONE_ROW_PASS)
    ensures Run(TWO_COLUMN_KEY, ONE_RUNNING, ONE_ROW_PASS)
            == ONE_RUNNING.(target := map["a" := RUNNING], mark := Some(1))
  {
    hide Run, LegalRun, MaxCursor;
    assert Candidates(TWO_COLUMN_KEY, ONE_RUNNING.source, All, 0) == {1};
    assert AcceptedCursors(TWO_COLUMN_KEY, ONE_RUNNING.source) == {1} by {
      assert ONE_RUNNING.source[1].cursor.value == 1;
    }
    GreatestIs(TWO_COLUMN_KEY, ONE_RUNNING.source, {1}, 1);
    OneRowPass(TWO_COLUMN_KEY, ONE_RUNNING, 1);
  }

  ghost const READ_RUNNING := State(map[1 := RUNNING], Some(1), map["a" := RUNNING], [], Some(1), Idle)

  ghost const NOW_DONE := State(map[1 := DONE], Some(1), map["a" := RUNNING], [], Some(1), Idle)

  lemma SettledPass()
    ensures LegalRun(TWO_COLUMN_KEY, NOW_DONE, EMPTY_PASS) && Run(TWO_COLUMN_KEY, NOW_DONE, EMPTY_PASS) == NOW_DONE
  {
    assert Candidates(TWO_COLUMN_KEY, NOW_DONE.source, Advance(1, false), 0) == {};
    assert AcceptedCursors(TWO_COLUMN_KEY, NOW_DONE.source) == {1} by {
      assert NOW_DONE.source[1].cursor.value == 1;
    }
    GreatestIs(TWO_COLUMN_KEY, NOW_DONE.source, {1}, 1);
    EmptyPass(TWO_COLUMN_KEY, NOW_DONE);
  }

  /** A row read while running settles, as its class allows, and the next pass leaves the
      target with the running version. */
  lemma CompositeKeyStaysOpen()
    ensures Unstarted(TWO_COLUMN_KEY, ONE_RUNNING) && LegalRun(TWO_COLUMN_KEY, ONE_RUNNING, ONE_ROW_PASS)
    ensures Run(TWO_COLUMN_KEY, ONE_RUNNING, ONE_ROW_PASS) == READ_RUNNING
    ensures Legal(TWO_COLUMN_KEY, READ_RUNNING, Write(Update(1, DONE)))
    ensures Step(TWO_COLUMN_KEY, READ_RUNNING, Write(Update(1, DONE))) == NOW_DONE
    ensures LegalRun(TWO_COLUMN_KEY, NOW_DONE, EMPTY_PASS) && Run(TWO_COLUMN_KEY, NOW_DONE, EMPTY_PASS) == NOW_DONE
    ensures !Landed(NOW_DONE, NOW_DONE.source[1])
  {
    hide Run, LegalRun;
    RunningPass();
    SettledPass();
  }

  // ---------- a watermark that vanishes ----------

  /** The first row is pruned after its pass, and one without a cursor is there instead. */
  ghost const PRUNED := State(map[2 := UNDATED], Some(1), map["a" := DONE], [], Some(1), Idle)

  ghost const LOGGED := State(map[1 := DONE], Some(1), map["a" := DONE], [], Some(1), Idle)

  lemma PrunedIsReached()
    ensures Unstarted(LOG, ONE_LOGGED) && LegalRun(LOG, ONE_LOGGED, ONE_ROW_PASS)
    ensures Run(LOG, ONE_LOGGED, ONE_ROW_PASS) == LOGGED
    ensures Legal(LOG, LOGGED, Write(Insert(2, UNDATED)))
    ensures var s := Step(LOG, LOGGED, Write(Insert(2, UNDATED)));
            Legal(LOG, s, Write(Delete(1))) && Step(LOG, s, Write(Delete(1))) == PRUNED
  {
    hide Run, LegalRun;
    LoggedPass();
    var s := Step(LOG, LOGGED, Write(Insert(2, UNDATED)));
    assert s.source - {1} == map[2 := UNDATED];
  }

  lemma PrunedPass()
    ensures LegalRun(LOG, PRUNED, EMPTY_PASS) && Run(LOG, PRUNED, EMPTY_PASS) == PRUNED.(mark := None)
  {
    assert Candidates(LOG, PRUNED.source, Advance(1, false), 0) == {};
    assert AcceptedCursors(LOG, PRUNED.source) == {};
    EmptyPass(LOG, PRUNED);
  }

  lemma UnmarkedPass(s: State)
    requires s == PRUNED.(mark := None)
    ensures LegalRun(LOG, s, ONE_ROW_PASS) && Run(LOG, s, ONE_ROW_PASS).target == s.target["b" := UNDATED]
  {
    assert Candidates(LOG, s.source, All, 0) == {2};
    OneRowPass(LOG, s, 2);
  }

  /** Of two passes over that quiet source the first changes nothing, and leaves no watermark;
      the second changes the target. */
  lemma SecondPassChangesTheTarget()
    ensures LegalRun(LOG, PRUNED, EMPTY_PASS)
    ensures var s := Run(LOG, PRUNED, EMPTY_PASS);
            && s.target == PRUNED.target && s.mark.None?
            && LegalRun(LOG, s, ONE_ROW_PASS) && Run(LOG, s, ONE_ROW_PASS).target != s.target
  {
    hide Run, LegalRun;
    PrunedPass();
    UnmarkedPass(Run(LOG, PRUNED, EMPTY_PASS));
    assert "b" !in PRUNED.target;
  }
}
