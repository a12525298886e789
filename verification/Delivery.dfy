/** How often a row is delivered: exactly once per selector to a row nobody touches, however
    the table changes around it, and at most twice in all to a row of an append_only table. */
module Delivery {
  import opened Prelude
  import opened Replication
  import opened Safety

  // ---------- one selector, concurrent writes ----------

  ghost function DeliveriesOf(t: Table, s: State, es: seq<Event>, id: int): nat
    requires LegalRun(t, s, es)
    decreases |es|
  {
    if es == [] then 0
    else
      (if es[0].Deliver? && s.pass.scan.page.value.rows[0].id == id then 1 else 0)
      + DeliveriesOf(t, Step(t, s, es[0]), es[1..], id)
  }

  /** A stretch of a pass that drains exactly its first selector. */
  ghost predicate DrainsSelector(t: Table, s: State, es: seq<Event>)
    requires Scanning(s.pass) && LegalRun(t, s, es)
    decreases |es|
  {
    && es != [] && !es[0].Crash? && s.pass.scan.selectors != []
    && var s1 := Step(t, s, es[0]);
       if s1.pass.scan.selectors == s.pass.scan.selectors then DrainsSelector(t, s1, es[1..])
       else es[1..] == []
  }

  predicate Leaves(e: Event, id: int) {
    e.Write? ==> e.op.id != id
  }

  predicate AllLeave(es: seq<Event>, id: int) {
    forall i :: 0 <= i < |es| ==> Leaves(es[i], id)
  }

  function CountId(rows: seq<Entry>, id: int): nat {
    if rows == [] then 0 else (if rows[0].id == id then 1 else 0) + CountId(rows[1..], id)
  }

  /** How often the scan will still deliver row `id`, if the row stays as it is. */
  ghost function StillOwed(t: Table, source: map<int, Row>, scan: Scan, id: int): nat
    requires scan.selectors != []
  {
    (if scan.page.Some? then CountId(scan.page.value.rows, id) else 0)
    + (if id in source && id > scan.after && t.accepts(source[id]) && Selects(t, scan.selectors[0], source[id])
          && (scan.page.Some? ==> scan.page.value.full) then 1 else 0)
  }

  lemma {:induction false} CountAscending(rows: seq<Entry>, id: int)
    requires forall i, j :: 0 <= i < j < |rows| ==> rows[i].id < rows[j].id
    ensures CountId(rows, id) <= 1
    ensures CountId(rows, id) == 1 <==> exists i :: 0 <= i < |rows| && rows[i].id == id
  {
    if rows != [] {
      var rest := rows[1..];
      assert forall i :: 0 <= i < |rest| ==> rest[i] == rows[i + 1];
      CountAscending(rest, id);
      if i :| 0 <= i < |rows| && rows[i].id == id {
        assert i == 0 || rest[i - 1].id == id;
      }
    }
  }

  lemma ReadKeepsOwedCount(t: Table, source: map<int, Row>, scan: Scan, id: int)
    requires t.batch > 0 && scan.selectors != [] && scan.page.None?
    ensures var scan' := AfterRead(t, source, scan);
            if scan'.page.Some? then StillOwed(t, source, scan', id) == StillOwed(t, source, scan, id)
            else StillOwed(t, source, scan, id) == 0
  {
    var sel := scan.selectors[0];
    var rows := PageRows(t, source, sel, scan.after);
    PageAscends(t, source, sel, scan.after);
    CountAscending(rows, id);
    forall i | 0 <= i < |rows|
      ensures rows[i].id in source && rows[i].id > scan.after && t.accepts(source[rows[i].id])
              && Selects(t, sel, source[rows[i].id])
    {
      PageEntry(t, source, sel, scan.after, i);
    }
    if id in source && id > scan.after && t.accepts(source[id]) && Selects(t, sel, source[id]) {
      PageCovers(t, source, sel, scan.after, id);
    }
  }

  lemma {:induction false} DeliveriesAreOwed(t: Table, s: State, es: seq<Event>, id: int)
    requires t.batch > 0 && Scanning(s.pass) && LegalRun(t, s, es) && DrainsSelector(t, s, es) && AllLeave(es, id)
    ensures DeliveriesOf(t, s, es, id) == StillOwed(t, s.source, s.pass.scan, id)
    decreases |es|
  {
    var e, s1 := es[0], Step(t, s, es[0]);
    assert Leaves(e, id);
    assert forall i :: 0 <= i < |es[1..]| ==> es[1..][i] == es[i + 1];
    match e {
      case ReadPage => ReadKeepsOwedCount(t, s.source, s.pass.scan, id);
      case _ =>
    }
    if s1.pass.scan.selectors == s.pass.scan.selectors {
      DeliveriesAreOwed(t, s1, es[1..], id);
    } else {
      LostSelector(s.pass.scan.selectors);
    }
  }

  lemma LostSelector(sels: seq<Selector>)
    requires sels != []
    ensures sels[1..] != sels
  {
  }

  /** A row that nobody writes from the start of a selector's scan to its end is delivered
      exactly once if the filters and the selector take it and not at all otherwise,
      wherever other rows are inserted, updated or deleted around the page cursor. */
  lemma DeliveredExactlyOnce(t: Table, s: State, es: seq<Event>, id: int)
    requires t.batch > 0 && Scanning(s.pass) && s.pass.scan.page.None? && s.pass.scan.after == 0
    requires LegalRun(t, s, es) && DrainsSelector(t, s, es) && AllLeave(es, id)
    requires id in s.source && id > 0
    ensures DeliveriesOf(t, s, es, id)
            == if t.accepts(s.source[id]) && Selects(t, s.pass.scan.selectors[0], s.source[id]) then 1 else 0
  {
    DeliveriesAreOwed(t, s, es, id);
  }

  // ---------- a whole pass, concurrent writes, every class ----------

  function CountTaking(t: Table, sels: seq<Selector>, r: Row): nat {
    if sels == [] then 0 else (if Selects(t, sels[0], r) then 1 else 0) + CountTaking(t, sels[1..], r)
  }

  /** How often the rest of the pass will deliver row `id`, if the row stays as it is. */
  ghost function Outstanding(t: Table, s: State, scan: Scan, id: int): nat
    requires id in s.source
  {
    if scan.selectors == [] then 0
    else StillOwed(t, s.source, scan, id)
         + if t.accepts(s.source[id]) then CountTaking(t, scan.selectors[1..], s.source[id]) else 0
  }

  /** What is left of a pass that is not interrupted: scanning, and daemon writes, up to the end. */
  ghost predicate RunsOut(t: Table, s: State, es: seq<Event>)
    requires LegalRun(t, s, es)
    decreases |es|
  {
    && Scanning(s.pass) && es != [] && !es[0].Crash?
    && if es[0].Finish? then es[1..] == [] else RunsOut(t, Step(t, s, es[0]), es[1..])
  }

  lemma NextOwes(t: Table, s: State, scan: Scan, id: int)
    requires scan.selectors != [] && id in s.source && id > 0
    ensures Outstanding(t, s, NextSelector(scan), id)
            == if t.accepts(s.source[id]) then CountTaking(t, scan.selectors[1..], s.source[id]) else 0
  {
  }

  lemma StepTakesDue(t: Table, s: State, e: Event, id: int)
    requires t.batch > 0 && id in s.source && id > 0 && Scanning(s.pass)
    requires s.pass.scan.page.Some? ==> s.pass.scan.selectors != []
    requires Legal(t, s, e) && !e.Crash? && !e.Finish? && Leaves(e, id)
    ensures var s' := Step(t, s, e);
            && Scanning(s'.pass) && (s'.pass.scan.page.Some? ==> s'.pass.scan.selectors != [])
            && id in s'.source && s'.source[id] == s.source[id]
            && Outstanding(t, s, s.pass.scan, id)
               == (if e.Deliver? && s.pass.scan.page.value.rows[0].id == id then 1 else 0)
                  + Outstanding(t, s', s'.pass.scan, id)
  {
    var scan := s.pass.scan;
    match e {
      case ReadPage =>
        ReadKeepsOwedCount(t, s.source, scan, id);
        NextOwes(t, s, scan, id);
      case EndPage => NextOwes(t, s, scan, id);
      case _ =>
    }
  }

  lemma {:induction false} DeliveriesAreOutstanding(t: Table, s: State, es: seq<Event>, id: int)
    requires t.batch > 0 && id in s.source && id > 0 && LegalRun(t, s, es) && RunsOut(t, s, es) && AllLeave(es, id)
    requires s.pass.scan.page.Some? ==> s.pass.scan.selectors != []
    ensures DeliveriesOf(t, s, es, id) == Outstanding(t, s, s.pass.scan, id)
    decreases |es|
  {
    hide Outstanding;
    var e := es[0];
    assert Leaves(e, id);
    assert forall i :: 0 <= i < |es[1..]| ==> es[1..][i] == es[i + 1];
    if e.Finish? {
      assert Outstanding(t, s, s.pass.scan, id) == 0 by { NothingOutstanding(t, s, s.pass.scan, id); }
    } else {
      StepTakesDue(t, s, e, id);
      DeliveriesAreOutstanding(t, Step(t, s, e), es[1..], id);
    }
  }

  lemma NothingOutstanding(t: Table, s: State, scan: Scan, id: int)
    requires id in s.source && scan.selectors == []
    ensures Outstanding(t, s, scan, id) == 0
  {
  }

  /** A pass or backfill about to scan, or at any later boundary of two selectors, delivers a
      row that nobody writes until its end once for every selector that takes it, and a row
      the filters reject not at all. */
  lemma DeliveredOncePerSelector(t: Table, s: State, es: seq<Event>, id: int)
    requires t.batch > 0 && id in s.source && id > 0 && LegalRun(t, s, es) && RunsOut(t, s, es) && AllLeave(es, id)
    requires s.pass.scan.page.None? && s.pass.scan.after == 0
    ensures DeliveriesOf(t, s, es, id)
            == if t.accepts(s.source[id]) then CountTaking(t, s.pass.scan.selectors, s.source[id]) else 0
  {
    DeliveriesAreOutstanding(t, s, es, id);
  }

  /** The row has landed, or is on the page, or is still to be read; and the page has no other
      version of it. */
  ghost predicate ScanBrings(t: Table, s: State, scan: Scan, id: int, r: Row) {
    && (scan.page.Some? ==> scan.selectors != [])
    && (scan.page.Some? ==>
          forall i :: 0 <= i < |scan.page.value.rows| && scan.page.value.rows[i].row.key == r.key ==>
            scan.page.value.rows[i].row == r)
    && (Landed(s, r) || Owed(t, scan, id, r))
  }

  ghost predicate Brings(t: Table, s: State, id: int, r: Row) {
    && Sound(t, s) && id in s.source && s.source[id] == r && t.accepts(r)
    && if Scanning(s.pass) then ScanBrings(t, s, s.pass.scan, id, r) else Landed(s, r)
  }

  lemma ReadBrings(t: Table, s: State, id: int, r: Row)
    requires Brings(t, s, id, r) && Legal(t, s, ReadPage)
    ensures Brings(t, Step(t, s, ReadPage), id, r)
  {
    StepKeepsSound(t, s, ReadPage);
    var scan := s.pass.scan;
    var rows := PageRows(t, s.source, scan.selectors[0], scan.after);
    forall i | 0 <= i < |rows| && rows[i].row.key == r.key ensures rows[i].row == r {
      PageEntry(t, s.source, scan.selectors[0], scan.after, i);
    }
    if !Landed(s, r) {
      ReadKeepsOwed(t, s.source, scan, id);
    }
  }

  lemma DeliverBrings(t: Table, s: State, id: int, r: Row, lands: bool)
    requires Brings(t, s, id, r) && Legal(t, s, Deliver(lands))
    ensures Brings(t, Step(t, s, Deliver(lands)), id, r)
  {
    StepKeepsSound(t, s, Deliver(lands));
    var scan, s' := s.pass.scan, Step(t, s, Deliver(lands));
    var rows := scan.page.value.rows;
    assert forall i :: 0 <= i < |rows[1..]| ==> rows[1..][i] == rows[i + 1];
    LandKeepsLanded(s, rows[0].row, lands, r);
    if !Landed(s, r) && rows[0].row != r {
      RestOwes(t, scan, id, r);
    }
  }

  lemma LandKeepsLanded(s: State, p: Row, lands: bool, r: Row)
    requires p.key == r.key ==> p == r
    ensures p == r || Landed(s, r) ==> Landed(Land(s, p, lands), r)
  {
    if !lands {
      assert (s.quarantine + [p])[|s.quarantine|] == p;
    }
  }

  lemma EndPageBrings(t: Table, s: State, id: int, r: Row)
    requires Brings(t, s, id, r) && Legal(t, s, EndPage)
    ensures Brings(t, Step(t, s, EndPage), id, r)
  {
    StepKeepsSound(t, s, EndPage);
    var scan := s.pass.scan;
    if !Landed(s, r) && !(scan.page.value.full && id > scan.after && Selects(t, scan.selectors[0], r)) {
      LaterSelectorOwes(t, scan, AfterPage(scan), id, r);
    }
  }

  lemma StepBrings(t: Table, s: State, e: Event, id: int, r: Row)
    requires Brings(t, s, id, r) && Legal(t, s, e) && Leaves(e, id) && !(e.Crash? && Scanning(s.pass))
    ensures Brings(t, Step(t, s, e), id, r)
  {
    match e {
      case ReadPage => ReadBrings(t, s, id, r);
      case Deliver(lands) => DeliverBrings(t, s, id, r, lands);
      case EndPage => EndPageBrings(t, s, id, r);
      case _ => StepKeepsSound(t, s, e);
    }
  }

  lemma {:induction false} RunBrings(t: Table, s: State, es: seq<Event>, id: int, r: Row)
    requires Brings(t, s, id, r) && LegalRun(t, s, es) && AllLeave(es, id) && Crash !in es
    ensures Brings(t, Run(t, s, es), id, r)
    decreases |es|
  {
    hide ScanBrings, Sound;
    if es != [] {
      assert es[0] in es && Leaves(es[0], id);
      assert forall i :: 0 <= i < |es[1..]| ==> es[1..][i] == es[i + 1];
      StepBrings(t, s, es[0], id, r);
      RunBrings(t, Step(t, s, es[0]), es[1..], id, r);
    }
  }

  ghost predicate SomeSelects(t: Table, sels: seq<Selector>, r: Row) {
    exists j :: 0 <= j < |sels| && Selects(t, sels[j], r)
  }

  /** For a table of any class, whatever else the daemon writes: an accepted row that some
      selector takes when the scan begins, and that nobody writes, has landed in its current
      version by the end of the pass, and stays so through every pass that follows. */
  lemma UnwrittenRowLands(t: Table, s: State, e: Event, es: seq<Event>, id: int)
    requires Sound(t, s) && (e.ReadSelectors? || e.BeginBackfill?)
    requires LegalRun(t, s, [e] + es) && AllLeave(es, id) && Crash !in es
    requires id in s.source && t.accepts(s.source[id])
    requires SomeSelects(t, Step(t, s, e).pass.scan.selectors, s.source[id])
    ensures var s' := Run(t, s, [e] + es);
            && id in s'.source && s'.source[id] == s.source[id]
            && (!Scanning(s'.pass) ==> Landed(s', s.source[id]))
  {
    assert ([e] + es)[0] == e && ([e] + es)[1..] == es;
    StepKeepsSound(t, s, e);
    RunBrings(t, Step(t, s, e), es, id, s.source[id]);
  }

  /** A table without a cursor is read whole: every accepted row that nobody writes lands. */
  lemma CursorlessRowLands(t: Table, s: State, e: Event, es: seq<Event>, id: int)
    requires !HasCursor(t) && Sound(t, s) && (e.ReadSelectors? || e.BeginBackfill?)
    requires LegalRun(t, s, [e] + es) && AllLeave(es, id) && Crash !in es
    requires id in s.source && t.accepts(s.source[id])
    ensures var s' := Run(t, s, [e] + es);
            && id in s'.source && s'.source[id] == s.source[id]
            && (!Scanning(s'.pass) ==> Landed(s', s.source[id]))
  {
    assert ([e] + es)[0] == e && ([e] + es)[1..] == es;
    var sels := Step(t, s, e).pass.scan.selectors;
    assert sels == [All] && Selects(t, sels[0], s.source[id]);
    UnwrittenRowLands(t, s, e, es, id);
  }

  // ---------- append_only: at most twice ----------

  predicate At(t: Table, r: Row, c: int) {
    t.accepts(r) && r.cursor == Some(c)
  }

  ghost predicate Present(t: Table, source: map<int, Row>, c: int) {
    exists id :: id in source && At(t, source[id], c)
  }

  function CountAt(t: Table, rows: seq<Entry>, c: int): nat {
    if rows == [] then 0 else (if At(t, rows[0].row, c) then 1 else 0) + CountAt(t, rows[1..], c)
  }

  ghost function Pending(t: Table, p: Pass, c: int): nat {
    if Scanning(p) && p.scan.page.Some? then CountAt(t, p.scan.page.value.rows, c) else 0
  }

  ghost predicate DueIn(t: Table, source: map<int, Row>, sel: Selector, after: int, c: int) {
    exists id :: id in source && At(t, source[id], c) && id > after && Selects(t, sel, source[id])
  }

  /** The running selector will still reach the row at cursor c. */
  ghost predicate Due(t: Table, source: map<int, Row>, scan: Scan, c: int) {
    && scan.selectors != [] && (scan.page.Some? ==> scan.page.value.full)
    && DueIn(t, source, scan.selectors[0], scan.after, c)
  }

  function Newer(m: Option<int>, c: int): nat {
    if m.None? || c > m.value then 1 else 0
  }

  /** An upper bound on the deliveries still to come of the row at cursor c: two while it
      is not yet inserted, one once a pass begins with it above the watermark. */
  ghost function Budget(t: Table, s: State, c: int): nat {
    if s.high.None? || c > s.high.value then 2
    else
      Pending(t, s.pass, c)
      + if !Present(t, s.source, c) then 0 else
        match s.pass
        case Idle => Newer(s.mark, c)
        case Begun(since) => Newer(since, c)
        case Measured(since, next) => Newer(since, c) + Newer(next, c)
        case Syncing(_, scan) => (if Due(t, s.source, scan, c) then 1 else 0) + Newer(scan.next, c)
        case Filling(_, _) => 2
  }

  ghost predicate DistinctCursors(t: Table, source: map<int, Row>) {
    forall i, j :: i in source && j in source && i != j && Tracked(t, source[i]) && Tracked(t, source[j]) ==>
      source[i].cursor != source[j].cursor
  }

  ghost predicate PageBelow(t: Table, s: State) {
    Scanning(s.pass) && s.pass.scan.page.Some? ==>
      forall i :: 0 <= i < |s.pass.scan.page.value.rows| && Tracked(t, s.pass.scan.page.value.rows[i].row) ==>
        s.high.Some? && s.pass.scan.page.value.rows[i].row.cursor.value <= s.high.value
  }

  /** What the count rests on, for an append_only table synced without stops. */
  ghost predicate AppendInv(t: Table, s: State) {
    && t.follow.AppendOnly? && Sound(t, s) && DistinctCursors(t, s.source) && PageBelow(t, s)
    && !s.pass.Filling? && (s.pass.Syncing? ==> |s.pass.scan.selectors| <= 1)
  }

  predicate SyncEvent(e: Event) {
    !e.Crash? && !e.BeginBackfill?
  }

  predicate SyncEvents(es: seq<Event>) {
    forall i :: 0 <= i < |es| ==> SyncEvent(es[i])
  }

  lemma {:induction false} CountAtFacts(t: Table, rows: seq<Entry>, c: int)
    requires forall i, j :: 0 <= i < j < |rows| ==> !(At(t, rows[i].row, c) && At(t, rows[j].row, c))
    ensures CountAt(t, rows, c) <= 1
    ensures CountAt(t, rows, c) == 1 ==> exists i :: 0 <= i < |rows| && At(t, rows[i].row, c)
  {
    if rows != [] {
      var rest := rows[1..];
      assert forall i :: 0 <= i < |rest| ==> rest[i] == rows[i + 1];
      CountAtFacts(t, rest, c);
    }
  }

  lemma {:induction false} CountAtNone(t: Table, rows: seq<Entry>, c: int)
    requires forall i :: 0 <= i < |rows| ==> !At(t, rows[i].row, c)
    ensures CountAt(t, rows, c) == 0
  {
    if rows != [] {
      assert forall i :: 0 <= i < |rows[1..]| ==> rows[1..][i] == rows[i + 1];
      CountAtNone(t, rows[1..], c);
    }
  }

  /** A page has the row at a followed cursor at most once, and then nothing due past it. */
  lemma PageAt(t: Table, s: State, sel: Selector, after: int, c: int)
    requires DistinctCursors(t, s.source) && HasCursor(t)
    ensures var rows := PageRows(t, s.source, sel, after);
            && CountAt(t, rows, c) <= 1
            && (CountAt(t, rows, c) == 1 ==>
                  && DueIn(t, s.source, sel, after, c)
                  && !DueIn(t, s.source, sel, rows[|rows| - 1].id, c))
  {
    var rows := PageRows(t, s.source, sel, after);
    PageAscends(t, s.source, sel, after);
    forall i | 0 <= i < |rows|
      ensures rows[i].id in s.source && s.source[rows[i].id] == rows[i].row && rows[i].id > after
              && t.accepts(rows[i].row) && Selects(t, sel, rows[i].row)
    {
      PageEntry(t, s.source, sel, after, i);
    }
    CountAtFacts(t, rows, c);
    if CountAt(t, rows, c) == 1 {
      var i :| 0 <= i < |rows| && At(t, rows[i].row, c);
      assert rows[i].id <= rows[|rows| - 1].id;
    }
  }

  /** Reading a page turns what was due into at most one pending row. */
  lemma ReadSpends(t: Table, s: State, scan: Scan, c: int)
    requires DistinctCursors(t, s.source) && HasCursor(t)
    requires |scan.selectors| == 1 && scan.page.None?
    ensures var scan' := AfterRead(t, s.source, scan);
            (if scan'.page.Some? then CountAt(t, scan'.page.value.rows, c) else 0)
            + (if Due(t, s.source, scan', c) then 1 else 0)
            <= if Due(t, s.source, scan, c) then 1 else 0
  {
    hide PageRows;
    var sel := scan.selectors[0];
    PageAt(t, s, sel, scan.after, c);
    PageIsPast(t, s.source, sel, scan.after);
  }

  lemma PageIsPast(t: Table, source: map<int, Row>, sel: Selector, after: int)
    ensures var rows := PageRows(t, source, sel, after); rows != [] ==> rows[|rows| - 1].id > after
  {
    var rows := PageRows(t, source, sel, after);
    if rows != [] {
      PageEntry(t, source, sel, after, |rows| - 1);
    }
  }

  lemma WriteSpends(t: Table, s: State, op: WriteOp, c: int)
    requires AppendInv(t, s) && Permitted(t, s, op)
    ensures AppendInv(t, ApplyWrite(t, s, op))
    ensures Budget(t, ApplyWrite(t, s, op), c) <= Budget(t, s, c)
  {
    var s' := ApplyWrite(t, s, op);
    WriteKeepsSound(t, s, op);
    if s.high.None? || c > s.high.value {
      if Scanning(s.pass) && s.pass.scan.page.Some? {
        CountAtNone(t, s.pass.scan.page.value.rows, c);
      }
    } else {
      if id :| id in s'.source && At(t, s'.source[id], c) {
        assert id in s.source && s.source[id] == s'.source[id];
      }
    }
  }

  lemma StepSpends(t: Table, s: State, e: Event, c: int)
    requires AppendInv(t, s) && Legal(t, s, e) && SyncEvent(e)
    ensures AppendInv(t, Step(t, s, e))
    ensures (if e.Deliver? && At(t, s.pass.scan.page.value.rows[0].row, c) then 1 else 0)
            + Budget(t, Step(t, s, e), c) <= Budget(t, s, c)
  {
    StepKeepsSound(t, s, e);
    match e {
      case Write(op) => WriteSpends(t, s, op, c);
      case ReadMax => MaxSpends(t, s, c);
      case ReadSelectors(keys) =>
      case ReadPage =>
        ReadSpends(t, s, s.pass.scan, c);
        ReadPageBelow(t, s);
      case Deliver(_) => DeliverSpends(t, s, e.lands, c);
      case EndPage => EndPageSpends(t, s, c);
      case BeginSync =>
      case Finish =>
    }
  }

  lemma EndPageSpends(t: Table, s: State, c: int)
    requires AppendInv(t, s) && Legal(t, s, EndPage)
    ensures Budget(t, Step(t, s, EndPage), c) <= Budget(t, s, c)
  {
    var s' := Step(t, s, EndPage);
    if Due(t, s'.source, s'.pass.scan, c) {
      assert s'.pass.scan.selectors == s.pass.scan.selectors;
      assert Due(t, s.source, s.pass.scan, c);
    }
  }

  lemma MaxSpends(t: Table, s: State, c: int)
    requires AppendInv(t, s) && s.pass.Begun?
    ensures Budget(t, Step(t, s, ReadMax), c) <= Budget(t, s, c)
  {
    if id :| id in s.source && At(t, s.source[id], c) {
      assert c in AcceptedCursors(t, s.source);
    }
  }

  lemma ReadPageBelow(t: Table, s: State)
    requires AppendInv(t, s) && Legal(t, s, ReadPage)
    ensures PageBelow(t, Step(t, s, ReadPage))
  {
    var scan := s.pass.scan;
    var rows := PageRows(t, s.source, scan.selectors[0], scan.after);
    forall i | 0 <= i < |rows| ensures rows[i].id in s.source && s.source[rows[i].id] == rows[i].row {
      PageEntry(t, s.source, scan.selectors[0], scan.after, i);
    }
  }

  lemma DeliverSpends(t: Table, s: State, lands: bool, c: int)
    requires AppendInv(t, s) && Legal(t, s, Deliver(lands))
    ensures AppendInv(t, Step(t, s, Deliver(lands)))
    ensures (if At(t, s.pass.scan.page.value.rows[0].row, c) then 1 else 0)
            + Budget(t, Step(t, s, Deliver(lands)), c) <= Budget(t, s, c)
  {
    var rows := s.pass.scan.page.value.rows;
    StepKeepsSound(t, s, Deliver(lands));
    assert forall i :: 0 <= i < |rows[1..]| ==> rows[1..][i] == rows[i + 1];
    var s' := Step(t, s, Deliver(lands));
    assert s'.pass.scan == Rest(s.pass.scan);
    assert Due(t, s'.source, s'.pass.scan, c) == Due(t, s.source, s.pass.scan, c);
  }

  ghost function DeliveriesAt(t: Table, s: State, es: seq<Event>, c: int): nat
    requires LegalRun(t, s, es)
    decreases |es|
  {
    if es == [] then 0
    else
      (if es[0].Deliver? && At(t, s.pass.scan.page.value.rows[0].row, c) then 1 else 0)
      + DeliveriesAt(t, Step(t, s, es[0]), es[1..], c)
  }

  lemma {:induction false} DeliveriesWithinBudget(t: Table, s: State, es: seq<Event>, c: int)
    requires AppendInv(t, s) && LegalRun(t, s, es) && SyncEvents(es)
    ensures DeliveriesAt(t, s, es, c) <= Budget(t, s, c)
    decreases |es|
  {
    if es != [] {
      assert forall i :: 0 <= i < |es[1..]| ==> es[1..][i] == es[i + 1];
      assert SyncEvent(es[0]);
      StepSpends(t, s, es[0], c);
      DeliveriesWithinBudget(t, Step(t, s, es[0]), es[1..], c);
    }
  }

  /** However many passes run and whatever the source prunes, a row of an append_only table
      is delivered at most twice; a row already there when a pass is about to start is
      delivered at most once, and never again once the watermark has reached it. */
  lemma AppendOnlyDeliversAtMostTwice(t: Table, s: State, es: seq<Event>, c: int)
    requires AppendInv(t, s) && s.pass.Idle?
    requires LegalRun(t, s, es) && SyncEvents(es)
    ensures DeliveriesAt(t, s, es, c) <= 2
    ensures Present(t, s.source, c) ==> DeliveriesAt(t, s, es, c) <= 1
    ensures Present(t, s.source, c) && s.mark.Some? && c <= s.mark.value ==> DeliveriesAt(t, s, es, c) == 0
  {
    DeliveriesWithinBudget(t, s, es, c);
    if id :| id in s.source && At(t, s.source[id], c) {
      assert Tracked(t, s.source[id]);
    }
  }

  // ---------- append_only: twice only from within a pass ----------

  predicate Beyond(high: Option<int>, c: int) {
    high.None? || c > high.value
  }

  /** A cursor that lies beyond every accepted one is not delivered. */
  lemma {:induction false} NothingBeyondHigh(t: Table, s: State, es: seq<Event>, c: int)
    requires AppendInv(t, s) && LegalRun(t, s, es) && SyncEvents(es) && Beyond(Run(t, s, es).high, c)
    ensures Beyond(s.high, c) && DeliveriesAt(t, s, es, c) == 0
    ensures AppendInv(t, Run(t, s, es))
    decreases |es|
  {
    if es != [] {
      assert forall i :: 0 <= i < |es[1..]| ==> es[1..][i] == es[i + 1];
      StepSpends(t, s, es[0], c);
      NothingBeyondHigh(t, Step(t, s, es[0]), es[1..], c);
      HighRises(t, s, es[0], c);
    }
  }

  lemma HighRises(t: Table, s: State, e: Event, c: int)
    requires Legal(t, s, e) && Beyond(Step(t, s, e).high, c)
    ensures Beyond(s.high, c)
  {
  }

  lemma {:induction false} DeliveriesAtAppend(t: Table, s: State, a: seq<Event>, b: seq<Event>, c: int)
    requires LegalRun(t, s, a) && LegalRun(t, s, a + b) && LegalRun(t, Run(t, s, a), b)
    ensures DeliveriesAt(t, s, a + b, c) == DeliveriesAt(t, s, a, c) + DeliveriesAt(t, Run(t, s, a), b, c)
    decreases |a|
  {
    if a == [] {
      assert a + b == b;
    } else {
      assert (a + b)[0] == a[0] && (a + b)[1..] == a[1..] + b;
      DeliveriesAtAppend(t, Step(t, s, a[0]), a[1..], b, c);
    }
  }

  /** A row inserted between two passes, or in a pass that has not read its maximum yet, is
      delivered at most once in all: a second delivery needs an insertion between the reading
      of the maximum and the end of the pass. */
  lemma InsertedOutsideDeliversOnce(t: Table, s: State, a: seq<Event>, id: int, r: Row, b: seq<Event>)
    requires AppendInv(t, s) && SyncEvents(a) && SyncEvents(b) && Tracked(t, r)
    requires LegalRun(t, s, a) && LegalRun(t, s, a + ([Write(Insert(id, r))] + b))
    requires Run(t, s, a).pass.Idle? || Run(t, s, a).pass.Begun?
    ensures DeliveriesAt(t, s, a + ([Write(Insert(id, r))] + b), r.cursor.value) <= 1
  {
    var e, c, m := Write(Insert(id, r)), r.cursor.value, Run(t, s, a);
    var tail := [e] + b;
    RunAppend(t, s, a, tail);
    assert tail[0] == e && tail[1..] == b;
    DeliveriesAtAppend(t, s, a, tail, c);
    assert Permitted(t, m, e.op);
    NothingBeyondHigh(t, s, a, c);
    StepSpends(t, m, e, c);
    DeliveriesWithinBudget(t, Step(t, m, e), b, c);
  }
}
