/** No interleaving of daemon writes, page reads, row commits, watermark writes and stops
    loses a row: the inductive invariant of the replication protocol and what it says for
    each table class. */
module Safety {
  import opened Prelude
  import opened Replication

  // ---------- vocabulary ----------

  /** The advance predicate built from watermark m would select a row at cursor c. */
  predicate Past(t: Table, m: int, c: int) {
    match t.follow
    case AppendOnly => c > m
    case OpenRow => c > m
    case Mutable => c >= m - t.overlap
    case _ => true
  }

  predicate Ahead(t: Table, m: Option<int>, r: Row) {
    m.None? || (r.cursor.Some? && Past(t, m.value, r.cursor.value))
  }

  /** This version of the row is in the target or in quarantine. */
  predicate Landed(s: State, r: Row) {
    (r.key in s.target && s.target[r.key] == r) || r in s.quarantine
  }

  ghost predicate EverQuarantined(s: State, k: Key) {
    exists i :: 0 <= i < |s.quarantine| && s.quarantine[i].key == k
  }

  predicate TargetOpen(t: Table, s: State, k: Key) {
    k in s.target && IsOpen(t, s.target[k])
  }

  ghost predicate Settled(t: Table, s: State, r: Row) {
    Landed(s, r) || (t.follow.OpenRow? && (TargetOpen(t, s, r.key) || EverQuarantined(s, r.key)))
  }

  ghost predicate Covered(t: Table, s: State, m: Option<int>, r: Row) {
    Ahead(t, m, r) || Settled(t, s, r)
  }

  /** Every followed row is accounted for, relative to watermark m. */
  ghost predicate Accounted(t: Table, s: State, m: Option<int>) {
    forall id :: id in s.source && Tracked(t, s.source[id]) ==> Covered(t, s, m, s.source[id])
  }

  // ---------- the part of the invariant that survives everything ----------

  ghost predicate Honest(t: Table, high: Option<int>, m: Option<int>) {
    m.Some? ==> HasCursor(t) && high.Some? && m.value <= high.value
  }

  ghost predicate SourceOk(t: Table, s: State) {
    && (forall id :: id in s.source ==> id > 0)
    && (forall i, j :: i in s.source && j in s.source && i != j ==> s.source[i].key != s.source[j].key)
    && (forall id :: id in s.source && Tracked(t, s.source[id]) ==>
          s.high.Some? && s.source[id].cursor.value <= s.high.value)
  }

  ghost predicate PassHonest(t: Table, s: State) {
    match s.pass
    case Idle => true
    case Begun(since) => since == s.mark
    case Measured(since, next) => since == s.mark && Honest(t, s.high, next)
    case Syncing(since, scan) => since == s.mark && Honest(t, s.high, scan.next)
    case Filling(committed, scan) => Honest(t, s.high, scan.next) && (committed ==> s.mark == scan.next)
  }

  /** Well-formed source, and every watermark in sight is one that was read. */
  ghost predicate Sound(t: Table, s: State) {
    t.batch > 0 && SourceOk(t, s) && Honest(t, s.high, s.mark) && PassHonest(t, s)
  }

  // ---------- the part that speaks of a scan in progress ----------

  predicate Replaces(t: Table, p: Row, r: Row) {
    p.key == r.key && (p == r || (t.follow.OpenRow? && IsOpen(t, p)))
  }

  /** The rest of the scan will still deliver this row, or a version of it that the target
      will hold as unsettled. */
  ghost predicate Owed(t: Table, scan: Scan, id: int, r: Row) {
    || (scan.page.Some? && exists i :: 0 <= i < |scan.page.value.rows| && Replaces(t, scan.page.value.rows[i].row, r))
    || (scan.selectors != [] && id > scan.after && (scan.page.Some? ==> scan.page.value.full)
        && Selects(t, scan.selectors[0], r))
    || (exists j :: 1 <= j < |scan.selectors| && Selects(t, scan.selectors[j], r))
  }

  ghost predicate ScanCovers(t: Table, s: State, scan: Scan) {
    forall id :: id in s.source && Tracked(t, s.source[id]) ==>
      Covered(t, s, scan.next, s.source[id]) || Owed(t, scan, id, s.source[id])
  }

  /** Writing a page row cannot bury a newer version that the watermark m would skip. */
  ghost predicate NoBurial(t: Table, s: State, scan: Scan, m: Option<int>) {
    scan.page.Some? ==>
      forall i, id | 0 <= i < |scan.page.value.rows| && id in s.source && Tracked(t, s.source[id])
                     && s.source[id].key == scan.page.value.rows[i].row.key ::
        Replaces(t, scan.page.value.rows[i].row, s.source[id]) || Ahead(t, m, s.source[id])
  }

  ghost predicate AllAhead(t: Table, s: State) {
    forall id :: id in s.source && Tracked(t, s.source[id]) ==> Ahead(t, s.mark, s.source[id])
  }

  /** A backfill that has written no watermark yet has read nothing, has a page in hand, or
      found the table empty, in which case every row now there was written since. */
  ghost predicate NothingYet(t: Table, s: State, scan: Scan) {
    || scan.page.Some?
    || (scan.selectors != [] && scan.after == 0)
    || (scan.selectors == [] && AllAhead(t, s))
  }

  ghost predicate ScanInv(t: Table, s: State, scan: Scan) {
    && ScanCovers(t, s, scan)
    && NoBurial(t, s, scan, scan.next)
    && (scan.page.Some? ==> scan.selectors != [])
    && (t.follow.OpenRow? ==> forall j :: 0 <= j < |scan.selectors| ==> !scan.selectors[j].Children?)
  }

  ghost predicate Inv(t: Table, s: State) {
    && Sound(t, s)
    && match s.pass
       case Syncing(_, scan) => Accounted(t, s, s.mark) && ScanInv(t, s, scan) && NoBurial(t, s, scan, s.mark)
       case Filling(committed, scan) =>
         && ScanInv(t, s, scan)
         && |scan.selectors| <= 1 && (scan.selectors != [] ==> scan.selectors[0] == All)
         && (!committed ==> NothingYet(t, s, scan))
       case _ => Accounted(t, s, s.mark)
  }

  // ---------- daemon writes ----------

  /** A followed row after a write is an old row, a row stamped past every honest
      watermark, or the next version of a row that was open. */
  lemma WriteOutcome(t: Table, s: State, op: WriteOp, id: int)
    requires Sound(t, s) && Permitted(t, s, op)
    requires var s' := ApplyWrite(t, s, op); id in s'.source && Tracked(t, s'.source[id])
    ensures var r := ApplyWrite(t, s, op).source[id];
            || (id in s.source && s.source[id] == r)
            || (forall m :: Honest(t, s.high, m) ==> Ahead(t, m, r))
            || (t.follow.OpenRow? && id in s.source && Tracked(t, s.source[id]) && IsOpen(t, s.source[id])
                && s.source[id].key == r.key && s.source[id].cursor == r.cursor)
  {
  }

  lemma WriteKeepsSound(t: Table, s: State, op: WriteOp)
    requires Sound(t, s) && Permitted(t, s, op)
    ensures Sound(t, ApplyWrite(t, s, op))
  {
  }

  lemma WriteKeepsCovered(t: Table, s: State, op: WriteOp, m: Option<int>)
    requires Sound(t, s) && Permitted(t, s, op) && Honest(t, s.high, m) && Accounted(t, s, m)
    ensures Accounted(t, ApplyWrite(t, s, op), m)
  {
    var s' := ApplyWrite(t, s, op);
    forall id | id in s'.source && Tracked(t, s'.source[id])
      ensures Covered(t, s', m, s'.source[id])
    {
      WriteOutcome(t, s, op, id);
      var r := s'.source[id];
      if id in s.source && s.source[id] != r && !Ahead(t, m, r) {
        assert Covered(t, s, m, s.source[id]);
        NextVersionSettled(t, s, s.source[id], r);
      }
    }
  }

  /** Where an open version has landed, its next version is settled: the target, or the
      quarantine, holds the key. */
  lemma NextVersionSettled(t: Table, s: State, was: Row, r: Row)
    requires t.follow.OpenRow? && IsOpen(t, was) && was.key == r.key && Settled(t, s, was)
    ensures Settled(t, s, r)
  {
    if was in s.quarantine {
      var i :| 0 <= i < |s.quarantine| && s.quarantine[i] == was;
      assert s.quarantine[i].key == r.key;
    }
  }

  lemma WriteKeepsNoBurial(t: Table, s: State, op: WriteOp, scan: Scan, m: Option<int>)
    requires Sound(t, s) && Permitted(t, s, op) && Honest(t, s.high, m) && NoBurial(t, s, scan, m)
    ensures NoBurial(t, ApplyWrite(t, s, op), scan, m)
  {
    var s' := ApplyWrite(t, s, op);
    if scan.page.Some? {
      var rows := scan.page.value.rows;
      forall i, id | 0 <= i < |rows| && id in s'.source && Tracked(t, s'.source[id])
                     && s'.source[id].key == rows[i].row.key
        ensures Replaces(t, rows[i].row, s'.source[id]) || Ahead(t, m, s'.source[id])
      {
        WriteOutcome(t, s, op, id);
      }
    }
  }

  lemma WriteKeepsScanCovers(t: Table, s: State, op: WriteOp, scan: Scan)
    requires Sound(t, s) && Permitted(t, s, op) && Honest(t, s.high, scan.next)
    requires ScanInv(t, s, scan)
    ensures ScanCovers(t, ApplyWrite(t, s, op), scan)
  {
    var s' := ApplyWrite(t, s, op);
    forall id | id in s'.source && Tracked(t, s'.source[id])
      ensures Covered(t, s', scan.next, s'.source[id]) || Owed(t, scan, id, s'.source[id])
    {
      WriteOutcome(t, s, op, id);
      var r := s'.source[id];
      if id in s.source && s.source[id] != r && !Ahead(t, scan.next, r) {
        var was := s.source[id];
        if Covered(t, s, scan.next, was) {
          NextVersionSettled(t, s, was, r);
        } else {
          assert Owed(t, scan, id, was);
          OwedNextVersion(t, scan, id, was, r);
        }
      }
    }
  }

  lemma OwedNextVersion(t: Table, scan: Scan, id: int, was: Row, r: Row)
    requires t.follow.OpenRow? && IsOpen(t, was) && was.key == r.key && was.cursor == r.cursor
    requires Owed(t, scan, id, was)
    requires forall j :: 0 <= j < |scan.selectors| ==> !scan.selectors[j].Children?
    ensures Owed(t, scan, id, r)
  {
  }

  lemma WriteKeepsInv(t: Table, s: State, op: WriteOp)
    requires Inv(t, s) && Permitted(t, s, op)
    ensures Inv(t, ApplyWrite(t, s, op))
  {
    WriteKeepsSound(t, s, op);
    match s.pass {
      case Syncing(_, scan) =>
        WriteKeepsCovered(t, s, op, s.mark);
        WriteKeepsScanCovers(t, s, op, scan);
        WriteKeepsNoBurial(t, s, op, scan, scan.next);
        WriteKeepsNoBurial(t, s, op, scan, s.mark);
      case Filling(committed, scan) =>
        WriteKeepsScanCovers(t, s, op, scan);
        WriteKeepsNoBurial(t, s, op, scan, scan.next);
        if !committed && scan.selectors == [] {
          WriteKeepsAllAhead(t, s, op);
        }
      case _ =>
        WriteKeepsCovered(t, s, op, s.mark);
    }
  }

  lemma WriteKeepsAllAhead(t: Table, s: State, op: WriteOp)
    requires Sound(t, s) && Permitted(t, s, op) && AllAhead(t, s)
    ensures AllAhead(t, ApplyWrite(t, s, op))
  {
    var s' := ApplyWrite(t, s, op);
    forall id | id in s'.source && Tracked(t, s'.source[id])
      ensures Ahead(t, s'.mark, s'.source[id])
    {
      WriteOutcome(t, s, op, id);
    }
  }

  // ---------- steps of the sink ----------

  lemma MaxCursorHonest(t: Table, s: State)
    requires SourceOk(t, s)
    ensures HasCursor(t) ==> Honest(t, s.high, MaxCursor(t, s.source))
  {
    var m := MaxCursor(t, s.source);
    if HasCursor(t) && m.Some? {
      var id :| id in s.source && t.accepts(s.source[id]) && s.source[id].cursor == m;
      assert Tracked(t, s.source[id]);
    }
  }

  /** Whatever the stored watermark covers, the selectors built from it still owe or the
      target has settled. */
  lemma SelectorsCover(t: Table, s: State, next: Option<int>, keys: seq<Key>)
    requires Sound(t, s) && Accounted(t, s, s.mark)
    ensures ScanCovers(t, s, Scan(next, Selectors(t, s.mark, keys), 0, None))
  {
    var scan := Scan(next, Selectors(t, s.mark, keys), 0, None);
    forall id | id in s.source && Tracked(t, s.source[id])
      ensures Covered(t, s, next, s.source[id]) || Owed(t, scan, id, s.source[id])
    {
      assert Covered(t, s, s.mark, s.source[id]);
      if Ahead(t, s.mark, s.source[id]) {
        assert Selects(t, scan.selectors[0], s.source[id]);
      }
    }
  }

  lemma ReadKeepsScanInv(t: Table, s: State, scan: Scan)
    requires Sound(t, s) && ScanInv(t, s, scan) && scan.selectors != [] && scan.page.None?
    ensures ScanInv(t, s, AfterRead(t, s.source, scan))
    ensures forall m :: NoBurial(t, s, AfterRead(t, s.source, scan), m)
  {
    var scan' := AfterRead(t, s.source, scan);
    var rows := PageRows(t, s.source, scan.selectors[0], scan.after);
    forall id | id in s.source && Tracked(t, s.source[id])
      ensures Covered(t, s, scan'.next, s.source[id]) || Owed(t, scan', id, s.source[id])
    {
      if !Covered(t, s, scan.next, s.source[id]) {
        ReadKeepsOwed(t, s.source, scan, id);
      }
    }
    forall i | 0 <= i < |rows| ensures rows[i].id in s.source && s.source[rows[i].id] == rows[i].row {
      PageEntry(t, s.source, scan.selectors[0], scan.after, i);
    }
  }

  lemma ReadKeepsOwed(t: Table, source: map<int, Row>, scan: Scan, id: int)
    requires t.batch > 0 && scan.selectors != [] && scan.page.None?
    requires id > 0 && id in source && t.accepts(source[id]) && Owed(t, scan, id, source[id])
    ensures Owed(t, AfterRead(t, source, scan), id, source[id])
  {
    var scan' := AfterRead(t, source, scan);
    if id > scan.after && Selects(t, scan.selectors[0], source[id]) {
      PageCovers(t, source, scan.selectors[0], scan.after, id);
    } else {
      LaterSelectorOwes(t, scan, scan', id, source[id]);
    }
  }

  /** Moving on keeps what a later selector owes. */
  lemma LaterSelectorOwes(t: Table, scan: Scan, scan': Scan, id: int, r: Row)
    requires exists j :: 1 <= j < |scan.selectors| && Selects(t, scan.selectors[j], r)
    requires scan'.selectors == scan.selectors || (id > 0 && scan' == NextSelector(scan))
    ensures Owed(t, scan', id, r)
  {
    var j :| 1 <= j < |scan.selectors| && Selects(t, scan.selectors[j], r);
    if scan'.selectors != scan.selectors {
      assert scan'.selectors[j - 1] == scan.selectors[j];
    }
  }

  /** The page after its first row has been written. */
  function Rest(scan: Scan): Scan
    requires scan.page.Some? && scan.page.value.rows != []
  {
    scan.(page := Some(scan.page.value.(rows := scan.page.value.rows[1..])))
  }

  /** Writing page row p settles every source row p stands for, and disturbs only rows the
      watermark m will select again. */
  lemma LandSettles(t: Table, s: State, p: Row, lands: bool, m: Option<int>, r: Row)
    requires p.key == r.key ==> Replaces(t, p, r) || Ahead(t, m, r)
    requires Covered(t, s, m, r) || Replaces(t, p, r)
    ensures Covered(t, Land(s, p, lands), m, r)
  {
    var s' := Land(s, p, lands);
    assert forall i :: 0 <= i < |s.quarantine| ==> s'.quarantine[i] == s.quarantine[i];
    if !lands {
      assert s'.quarantine[|s.quarantine|] == p;
    }
    if r in s.quarantine {
      var i :| 0 <= i < |s.quarantine| && s.quarantine[i] == r;
      assert s'.quarantine[i] == r;
    }
    if EverQuarantined(s, r.key) {
      var i :| 0 <= i < |s.quarantine| && s.quarantine[i].key == r.key;
      assert s'.quarantine[i].key == r.key;
    }
  }

  lemma DeliverKeepsScanInv(t: Table, s: State, scan: Scan, lands: bool)
    requires ScanInv(t, s, scan) && scan.page.Some? && scan.page.value.rows != []
    ensures ScanInv(t, Land(s, scan.page.value.rows[0].row, lands), Rest(scan))
  {
    var rows := scan.page.value.rows;
    var p := rows[0].row;
    var s' := Land(s, p, lands);
    forall id | id in s.source && Tracked(t, s.source[id])
      ensures Covered(t, s', scan.next, s.source[id]) || Owed(t, Rest(scan), id, s.source[id])
    {
      var r := s.source[id];
      if Covered(t, s, scan.next, r) || Replaces(t, p, r) {
        LandSettles(t, s, p, lands, scan.next, r);
      } else {
        assert Owed(t, scan, id, r);
        RestOwes(t, scan, id, r);
      }
    }
    RestNoBurial(t, s, scan, lands, scan.next);
  }

  lemma RestOwes(t: Table, scan: Scan, id: int, r: Row)
    requires scan.page.Some? && scan.page.value.rows != []
    requires Owed(t, scan, id, r) && !Replaces(t, scan.page.value.rows[0].row, r)
    ensures Owed(t, Rest(scan), id, r)
  {
    var rows := scan.page.value.rows;
    if i :| 0 <= i < |rows| && Replaces(t, rows[i].row, r) {
      assert rows[1..][i - 1] == rows[i];
    }
  }

  lemma RestNoBurial(t: Table, s: State, scan: Scan, lands: bool, m: Option<int>)
    requires scan.page.Some? && scan.page.value.rows != [] && NoBurial(t, s, scan, m)
    ensures NoBurial(t, Land(s, scan.page.value.rows[0].row, lands), Rest(scan), m)
  {
    var rows := scan.page.value.rows;
    forall i, id | 0 <= i < |rows| - 1 && id in s.source && Tracked(t, s.source[id])
                   && s.source[id].key == rows[1..][i].row.key
      ensures Replaces(t, rows[1..][i].row, s.source[id]) || Ahead(t, m, s.source[id])
    {
      assert rows[1..][i] == rows[i + 1];
    }
  }

  lemma DeliverKeepsAccounted(t: Table, s: State, scan: Scan, lands: bool)
    requires Accounted(t, s, s.mark) && NoBurial(t, s, scan, s.mark)
    requires scan.page.Some? && scan.page.value.rows != []
    ensures Accounted(t, Land(s, scan.page.value.rows[0].row, lands), s.mark)
  {
    var p := scan.page.value.rows[0].row;
    forall id | id in s.source && Tracked(t, s.source[id])
      ensures Covered(t, Land(s, p, lands), s.mark, s.source[id])
    {
      LandSettles(t, s, p, lands, s.mark, s.source[id]);
    }
  }

  lemma EndPageKeepsScanInv(t: Table, s: State, scan: Scan)
    requires SourceOk(t, s) && ScanInv(t, s, scan)
    requires scan.page.Some? && scan.page.value.rows == [] && scan.selectors != []
    ensures ScanInv(t, s, AfterPage(scan))
  {
    var scan' := AfterPage(scan);
    forall id | id in s.source && Tracked(t, s.source[id])
      ensures Covered(t, s, scan.next, s.source[id]) || Owed(t, scan', id, s.source[id])
    {
      if !Covered(t, s, scan.next, s.source[id]) {
        var r := s.source[id];
        assert Owed(t, scan, id, r);
        if !(scan.page.value.full && id > scan.after && Selects(t, scan.selectors[0], r)) {
          LaterSelectorOwes(t, scan, scan', id, r);
        }
      }
    }
  }

  /** A scan with nothing left owes nothing. */
  lemma DrainedScan(t: Table, s: State, scan: Scan)
    requires ScanInv(t, s, scan) && scan.selectors == [] && scan.page.None?
    ensures Accounted(t, s, scan.next)
  {
    forall id | id in s.source && Tracked(t, s.source[id])
      ensures Covered(t, s, scan.next, s.source[id])
    {
      assert !Owed(t, scan, id, s.source[id]);
    }
  }

  // ---------- the invariant is inductive ----------

  /** The predicates above read only the stores. */
  lemma SameStores(t: Table, s: State, s': State)
    requires s'.source == s.source && s'.target == s.target && s'.quarantine == s.quarantine
    ensures forall m :: Accounted(t, s, m) ==> Accounted(t, s', m)
    ensures forall scan :: ScanInv(t, s, scan) ==> ScanInv(t, s', scan)
    ensures forall scan, m :: NoBurial(t, s, scan, m) ==> NoBurial(t, s', scan, m)
  {
    forall m | Accounted(t, s, m) ensures Accounted(t, s', m) {
      forall id | id in s'.source && Tracked(t, s'.source[id]) ensures Covered(t, s', m, s'.source[id]) {
        assert Covered(t, s, m, s.source[id]);
      }
    }
    forall scan | ScanInv(t, s, scan) ensures ScanInv(t, s', scan) {
      forall id | id in s'.source && Tracked(t, s'.source[id])
        ensures Covered(t, s', scan.next, s'.source[id]) || Owed(t, scan, id, s'.source[id])
      {
        assert Covered(t, s, scan.next, s.source[id]) || Owed(t, scan, id, s.source[id]);
      }
    }
  }

  lemma ReadSelectorsKeepsInv(t: Table, s: State, keys: seq<Key>)
    requires Inv(t, s) && Legal(t, s, ReadSelectors(keys))
    ensures Inv(t, Step(t, s, ReadSelectors(keys)))
  {
    var s' := Step(t, s, ReadSelectors(keys));
    SelectorsCover(t, s, s.pass.next, keys);
    assert ScanInv(t, s, s'.pass.scan);
    SameStores(t, s, s');
  }

  lemma ReadPageKeepsInv(t: Table, s: State)
    requires Inv(t, s) && Legal(t, s, ReadPage)
    ensures Inv(t, Step(t, s, ReadPage))
  {
    var s' := Step(t, s, ReadPage);
    ReadKeepsScanInv(t, s, s.pass.scan);
    SameStores(t, s, s');
    if s.pass.Filling? && !s.pass.committed && s'.pass.scan.page.None? {
      EmptyTable(t, s, s.pass.scan);
    }
  }

  lemma EmptyTable(t: Table, s: State, scan: Scan)
    requires SourceOk(t, s) && t.batch > 0 && scan.selectors == [All] && scan.after == 0
    requires PageRows(t, s.source, All, 0) == []
    ensures AllAhead(t, s)
  {
    if id :| id in s.source && Tracked(t, s.source[id]) {
      PageCovers(t, s.source, All, 0, id);
      assert false;
    }
  }

  lemma DeliverKeepsInv(t: Table, s: State, lands: bool)
    requires Inv(t, s) && Legal(t, s, Deliver(lands))
    ensures Inv(t, Step(t, s, Deliver(lands)))
  {
    var scan := s.pass.scan;
    var landed := Land(s, scan.page.value.rows[0].row, lands);
    DeliverKeepsScanInv(t, s, scan, lands);
    SameStores(t, landed, Step(t, s, Deliver(lands)));
    if s.pass.Syncing? {
      DeliverKeepsAccounted(t, s, scan, lands);
      RestNoBurial(t, s, scan, lands, s.mark);
    }
  }

  lemma EndPageKeepsInv(t: Table, s: State)
    requires Inv(t, s) && Legal(t, s, EndPage)
    ensures Inv(t, Step(t, s, EndPage))
  {
    EndPageKeepsScanInv(t, s, s.pass.scan);
    SameStores(t, s, Step(t, s, EndPage));
  }

  lemma FinishKeepsInv(t: Table, s: State)
    requires Inv(t, s) && Legal(t, s, Finish)
    ensures Inv(t, Step(t, s, Finish))
  {
    DrainedScan(t, s, s.pass.scan);
    SameStores(t, s, Step(t, s, Finish));
    if s.pass.Filling? && !s.pass.committed {
      assert AllAhead(t, s);
    }
  }

  /** Every event keeps the invariant, except a stop in the middle of a backfill. */
  lemma StepKeepsInv(t: Table, s: State, e: Event)
    requires Inv(t, s) && Legal(t, s, e) && !(e.Crash? && s.pass.Filling?)
    ensures Inv(t, Step(t, s, e))
  {
    match e {
      case Write(op) => WriteKeepsInv(t, s, op);
      case BeginSync => SameStores(t, s, Step(t, s, e));
      case ReadMax =>
        MaxCursorHonest(t, s);
        SameStores(t, s, Step(t, s, e));
      case ReadSelectors(keys) => ReadSelectorsKeepsInv(t, s, keys);
      case BeginBackfill => BeginBackfillRestores(t, s);
      case ReadPage => ReadPageKeepsInv(t, s);
      case Deliver(lands) => DeliverKeepsInv(t, s, lands);
      case EndPage => EndPageKeepsInv(t, s);
      case Finish => FinishKeepsInv(t, s);
      case Crash => SameStores(t, s, Step(t, s, e));
    }
  }

  /** A backfill restores the invariant from any state whose watermark was read, not made
      up, including the state an interrupted backfill leaves. */
  lemma BeginBackfillRestores(t: Table, s: State)
    requires Sound(t, s) && s.pass.Idle?
    ensures Inv(t, Step(t, s, BeginBackfill))
  {
    MaxCursorHonest(t, s);
    var s' := Step(t, s, BeginBackfill);
    forall id | id in s'.source && Tracked(t, s'.source[id])
      ensures Owed(t, s'.pass.scan, id, s'.source[id])
    {
    }
  }

  lemma StepKeepsSound(t: Table, s: State, e: Event)
    requires Sound(t, s) && Legal(t, s, e)
    ensures Sound(t, Step(t, s, e))
  {
    match e {
      case Write(op) => WriteKeepsSound(t, s, op);
      case ReadMax => MaxCursorHonest(t, s);
      case BeginBackfill => MaxCursorHonest(t, s);
      case _ =>
    }
  }

  // ---------- over whole runs ----------

  /** Whether, after a run, no interrupted backfill is left unrepaired. */
  ghost predicate Intact(t: Table, s: State, es: seq<Event>, intact: bool)
    requires LegalRun(t, s, es)
    decreases |es|
  {
    if es == [] then intact
    else Intact(t, Step(t, s, es[0]), es[1..],
                es[0].BeginBackfill? || (intact && !(es[0].Crash? && s.pass.Filling?)))
  }

  lemma {:induction false} SoundOverRuns(t: Table, s: State, es: seq<Event>)
    requires Sound(t, s) && LegalRun(t, s, es)
    ensures Sound(t, Run(t, s, es))
    decreases |es|
  {
    if es != [] {
      StepKeepsSound(t, s, es[0]);
      SoundOverRuns(t, Step(t, s, es[0]), es[1..]);
    }
  }

  lemma {:induction false} InvOverRuns(t: Table, s: State, es: seq<Event>, intact: bool)
    requires Sound(t, s) && (intact ==> Inv(t, s)) && LegalRun(t, s, es) && Intact(t, s, es, intact)
    ensures Inv(t, Run(t, s, es))
    decreases |es|
  {
    if es != [] {
      var e := es[0];
      StepKeepsSound(t, s, e);
      if e.BeginBackfill? {
        BeginBackfillRestores(t, s);
      } else if intact && !(e.Crash? && s.pass.Filling?) {
        StepKeepsInv(t, s, e);
      }
      InvOverRuns(t, Step(t, s, e), es[1..],
                  e.BeginBackfill? || (intact && !(e.Crash? && s.pass.Filling?)));
    }
  }

  // ---------- what the invariant says, class by class ----------

  /** A state in which nothing has been replicated yet. */
  ghost predicate Unstarted(t: Table, s: State) {
    && t.batch > 0 && SourceOk(t, s)
    && s.target == map[] && s.quarantine == [] && s.mark.None? && s.pass.Idle?
  }

  /** append_only: after any run, a followed row is in the target or in quarantine, or the
      next pass selects it. */
  lemma AppendOnlyLosesNothing(t: Table, s: State, es: seq<Event>, id: int)
    requires t.follow.AppendOnly? && (Unstarted(t, s) || Inv(t, s))
    requires LegalRun(t, s, es) && Intact(t, s, es, true) && !Run(t, s, es).pass.Filling?
    requires var s' := Run(t, s, es); id in s'.source && Tracked(t, s'.source[id])
    ensures var s' := Run(t, s, es); var r := s'.source[id];
            Landed(s', r) || s'.mark.None? || r.cursor.value > s'.mark.value
  {
    InvOverRuns(t, s, es, true);
    var s' := Run(t, s, es);
    assert Accounted(t, s', s'.mark);
  }

  /** mutable: after any run, the current version of a followed row is in the target or in
      quarantine, or its cursor lies within the overlap window of the watermark or past it. */
  lemma MutableLosesNothing(t: Table, s: State, es: seq<Event>, id: int)
    requires t.follow.Mutable? && (Unstarted(t, s) || Inv(t, s))
    requires LegalRun(t, s, es) && Intact(t, s, es, true) && !Run(t, s, es).pass.Filling?
    requires var s' := Run(t, s, es); id in s'.source && Tracked(t, s'.source[id])
    ensures var s' := Run(t, s, es); var r := s'.source[id];
            Landed(s', r) || s'.mark.None? || r.cursor.value >= Back(t, s'.mark.value)
  {
    InvOverRuns(t, s, es, true);
    var s' := Run(t, s, es);
    assert Accounted(t, s', s'.mark);
  }

  /** open_row: after any run, a followed row equals its target copy, or its cursor is past
      the watermark, or the target holds its key as unsettled, or its key was quarantined. */
  lemma OpenRowLosesNothing(t: Table, s: State, es: seq<Event>, id: int)
    requires t.follow.OpenRow? && (Unstarted(t, s) || Inv(t, s))
    requires LegalRun(t, s, es) && Intact(t, s, es, true) && !Run(t, s, es).pass.Filling?
    requires var s' := Run(t, s, es); id in s'.source && Tracked(t, s'.source[id])
    ensures var s' := Run(t, s, es); var r := s'.source[id];
            || (r.key in s'.target && s'.target[r.key] == r)
            || s'.mark.None? || r.cursor.value > s'.mark.value
            || (r.key in s'.target && (s'.target[r.key].state.None? || s'.target[r.key].state.value !in t.terminal))
            || exists i :: 0 <= i < |s'.quarantine| && s'.quarantine[i].key == r.key
  {
    InvOverRuns(t, s, es, true);
    var s' := Run(t, s, es);
    assert Accounted(t, s', s'.mark);
    var r := s'.source[id];
    if r in s'.quarantine {
      var i :| 0 <= i < |s'.quarantine| && s'.quarantine[i] == r;
      assert s'.quarantine[i].key == r.key;
    }
  }

  /** A table without a cursor never acquires a watermark, so `followParent` always reads
      the whole table. */
  lemma {:induction false} CursorlessHasNoMark(t: Table, s: State, es: seq<Event>)
    requires !HasCursor(t) && (Unstarted(t, s) || Sound(t, s)) && LegalRun(t, s, es)
    ensures Run(t, s, es).mark.None?
    ensures Run(t, s, es).pass.Syncing? && t.follow.FollowParent? ==>
              forall keys :: Selectors(t, Run(t, s, es).pass.since, keys) == [All]
  {
    SoundOverRuns(t, s, es);
  }

  /** A completed backfill, under any concurrent writes, leaves a state every class's sync
      invariant holds in, from any state with an honestly read watermark. */
  lemma CompletedBackfillRestores(t: Table, s: State, es: seq<Event>)
    requires Sound(t, s) && s.pass.Idle?
    requires LegalRun(t, s, [BeginBackfill] + es) && Crash !in es
    requires Run(t, s, [BeginBackfill] + es).pass.Idle?
    ensures Inv(t, Run(t, s, [BeginBackfill] + es))
    ensures var s' := Run(t, s, [BeginBackfill] + es); Accounted(t, s', s'.mark)
  {
    var run := [BeginBackfill] + es;
    assert run[0] == BeginBackfill && run[1..] == es;
    NoCrashIntact(t, Step(t, s, BeginBackfill), es);
    InvOverRuns(t, s, run, false);
  }

  lemma {:induction false} NoCrashIntact(t: Table, s: State, es: seq<Event>)
    requires LegalRun(t, s, es) && Crash !in es
    ensures Intact(t, s, es, true)
    decreases |es|
  {
    if es != [] {
      assert es[0] in es;
      forall e | e in es[1..] ensures e in es { }
      NoCrashIntact(t, Step(t, s, es[0]), es[1..]);
    }
  }
}
