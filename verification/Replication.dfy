/** One replicated table as a transition system: a daemon writes the source, a sync pass
    or a backfill reads pages of it, rows are upserted into the target one at a time, and
    the process may stop between any two of these. A run is a sequence of events; each
    event determines the next state. */
module Replication {
  import opened Prelude
  import opened Ordered
  import opened Chunking

  type Key = string

  /** A source row. `cursor` is the normalised position of the cursor column: the integer,
      or the instant in milliseconds; None when it is NULL or does not parse. */
  datatype Row = Row(key: Key, cursor: Option<int>, state: Option<string>, payload: string)

  datatype Class = AppendOnly | Mutable | OpenRow | FollowParent | Snapshot

  /** What the plan and the catalog say about the table.
      - `accepts` is the conjunction of the configured filters;
      - `movedSince(m, row)` says that the row's parent moved at or after m;
      - `overlap` is the overlap window in cursor units, zero for an integer cursor. */
  datatype Table = Table(
    follow: Class,
    accepts: Row -> bool,
    terminal: seq<string>,
    singleKey: bool,
    movedSince: (int, Row) -> bool,
    overlap: nat,
    batch: nat)

  predicate HasCursor(t: Table) {
    t.follow.AppendOnly? || t.follow.Mutable? || t.follow.OpenRow?
  }

  /** A NULL state is never terminal. */
  predicate IsOpen(t: Table, r: Row) {
    r.state.None? || r.state.value !in t.terminal
  }

  // ---------- selectors ----------

  datatype Selector =
    | All
    | Advance(mark: int, inclusive: bool)
    | Keys(keys: seq<Key>)
    | Children(since: int)

  predicate Selects(t: Table, sel: Selector, r: Row) {
    match sel
    case All => true
    case Advance(m, inclusive) =>
      r.cursor.Some? && (r.cursor.value > m || (inclusive && r.cursor.value == m))
    case Keys(keys) => r.key in keys
    case Children(since) => t.movedSince(since, r)
  }

  const RESCAN_OPEN_LIMIT := 5000

  function Back(t: Table, m: int): int {
    if t.follow.Mutable? || t.follow.FollowParent? then m - t.overlap else m
  }

  function AdvanceFrom(mark: Option<int>, inclusive: bool): Selector {
    if mark.None? then All else Advance(mark.value, inclusive)
  }

  function KeySelectors(chunks: seq<seq<Key>>): (r: seq<Selector>)
    ensures |r| == |chunks| && forall i :: 0 <= i < |r| ==> r[i] == Keys(chunks[i])
  {
    seq(|chunks|, i requires 0 <= i < |chunks| => Keys(chunks[i]))
  }

  /** One selector a chunk of the open keys. */
  function Chunks(keys: seq<Key>): seq<Selector> {
    KeySelectors(Cut(keys))
  }

  /** The predicates that define "changed" for one pass. */
  function Selectors(t: Table, mark: Option<int>, openKeys: seq<Key>): seq<Selector> {
    match t.follow
    case AppendOnly => [AdvanceFrom(mark, false)]
    case Mutable => [if mark.None? then All else Advance(Back(t, mark.value), true)]
    case OpenRow => [AdvanceFrom(mark, false)] + Chunks(openKeys)
    case FollowParent => [if mark.None? then All else Children(Back(t, mark.value))]
    case Snapshot => [All]
  }

  // ---------- state ----------

  datatype Entry = Entry(id: int, row: Row)

  /** A page read but not yet wholly written; `full` says it held `batch` rows. */
  datatype Page = Page(rows: seq<Entry>, full: bool)

  datatype Scan = Scan(next: Option<int>, selectors: seq<Selector>, after: int, page: Option<Page>)

  /** The volatile state of the sink. */
  datatype Pass =
    | Idle
    | Begun(since: Option<int>)
    | Measured(since: Option<int>, next: Option<int>)
    | Syncing(since: Option<int>, scan: Scan)
    | Filling(committed: bool, scan: Scan)

  /** `source`, `target`, `quarantine` and `mark` are durable. `high` is history: the
      highest cursor any accepted source row has ever carried. */
  datatype State = State(
    source: map<int, Row>,
    high: Option<int>,
    target: map<Key, Row>,
    quarantine: seq<Row>,
    mark: Option<int>,
    pass: Pass)

  datatype WriteOp = Insert(id: int, row: Row) | Update(id: int, row: Row) | Delete(id: int)

  datatype Event =
    | Write(op: WriteOp)
    | BeginSync
    | ReadMax
    | ReadSelectors(openKeys: seq<Key>)
    | BeginBackfill
    | ReadPage
    | Deliver(lands: bool)
    | EndPage
    | Finish
    | Crash

  // ---------- queries ----------

  /** The rows the protocol follows by cursor. */
  predicate Tracked(t: Table, r: Row) {
    HasCursor(t) && t.accepts(r) && r.cursor.Some?
  }

  ghost function AcceptedCursors(t: Table, source: map<int, Row>): set<int> {
    set id | id in source && t.accepts(source[id]) && source[id].cursor.Some? :: source[id].cursor.value
  }

  /** SELECT MAX(cursor) under the filters. */
  ghost function MaxCursor(t: Table, source: map<int, Row>): Option<int> {
    Max(AcceptedCursors(t, source))
  }

  ghost function Candidates(t: Table, source: map<int, Row>, sel: Selector, after: int): set<int> {
    set id | id in source && id > after && t.accepts(source[id]) && Selects(t, sel, source[id])
  }

  ghost function PageIds(t: Table, source: map<int, Row>, sel: Selector, after: int): seq<int> {
    FirstOf(Candidates(t, source, sel, after), t.batch)
  }

  ghost function PageRows(t: Table, source: map<int, Row>, sel: Selector, after: int): (rows: seq<Entry>)
    ensures |rows| == |PageIds(t, source, sel, after)|
  {
    var ids := PageIds(t, source, sel, after);
    seq(|ids|, i requires 0 <= i < |ids| => Entry(ids[i], source[ids[i]]))
  }

  ghost function OpenKeys(t: Table, target: map<Key, Row>): set<Key> {
    set k | k in target && IsOpen(t, target[k])
  }

  /** What the target may answer when asked for its open keys: distinct, open, as many as
      the limit allows, in any order. Only an open_row table with a one-column key asks. */
  ghost predicate OpenListing(t: Table, target: map<Key, Row>, keys: seq<Key>) {
    if t.follow.OpenRow? && t.singleKey then
      && (forall i, j :: 0 <= i < j < |keys| ==> keys[i] != keys[j])
      && (forall k :: k in keys ==> k in OpenKeys(t, target))
      && (|keys| < RESCAN_OPEN_LIMIT ==> forall k :: k in OpenKeys(t, target) ==> k in keys)
      && |keys| <= RESCAN_OPEN_LIMIT
    else
      keys == []
  }

  // ---------- what the daemon may write ----------

  /** The stamp a class promises on a followed row, relative to the highest accepted
      cursor so far. */
  predicate Stamped(t: Table, high: Option<int>, c: int) {
    high.None? ||
    match t.follow
    case AppendOnly => c > high.value
    case OpenRow => c > high.value
    case Mutable => c >= high.value - t.overlap
    case _ => true
  }

  ghost predicate KeyFree(source: map<int, Row>, id: int, k: Key) {
    forall other :: other in source && other != id ==> source[other].key != k
  }

  /** The writer assumption of each class. An append_only row is immutable; a mutable row
      is stamped by every write; an open_row row is frozen once terminal, keeps its cursor
      once it has one, and is not turned from rejected into accepted unless the same write
      stamps it. */
  ghost predicate Permitted(t: Table, s: State, op: WriteOp) {
    match op
    case Insert(id, r) =>
      && id > 0 && id !in s.source && KeyFree(s.source, id, r.key)
      && (Tracked(t, r) ==> Stamped(t, s.high, r.cursor.value))
    case Update(id, r) =>
      && id in s.source && KeyFree(s.source, id, r.key)
      && (match t.follow
          case AppendOnly => false
          case Mutable => Tracked(t, r) ==> Stamped(t, s.high, r.cursor.value)
          case OpenRow =>
            var was := s.source[id];
            && r.key == was.key
            && IsOpen(t, was)
            && (|| (r.cursor == was.cursor && (t.accepts(r) ==> t.accepts(was)))
                || (was.cursor.None? && r.cursor.Some?
                    && (t.accepts(r) ==> Stamped(t, s.high, r.cursor.value))))
          case _ => true)
    case Delete(id) => id in s.source
  }

  function Raise(t: Table, high: Option<int>, r: Row): Option<int> {
    if !Tracked(t, r) || (high.Some? && high.value >= r.cursor.value) then high
    else r.cursor
  }

  function ApplyWrite(t: Table, s: State, op: WriteOp): State {
    match op
    case Insert(id, r) => s.(source := s.source[id := r], high := Raise(t, s.high, r))
    case Update(id, r) => s.(source := s.source[id := r], high := Raise(t, s.high, r))
    case Delete(id) => s.(source := s.source - {id})
  }

  // ---------- transitions ----------

  predicate Scanning(p: Pass) {
    p.Syncing? || p.Filling?
  }

  ghost predicate Legal(t: Table, s: State, e: Event) {
    match e
    case Write(op) => Permitted(t, s, op)
    case BeginSync => s.pass.Idle?
    case ReadMax => s.pass.Begun?
    case ReadSelectors(keys) => s.pass.Measured? && OpenListing(t, s.target, keys)
    case BeginBackfill => s.pass.Idle?
    case ReadPage => Scanning(s.pass) && s.pass.scan.selectors != [] && s.pass.scan.page.None?
    case Deliver(_) => Scanning(s.pass) && s.pass.scan.page.Some? && s.pass.scan.page.value.rows != []
    case EndPage => Scanning(s.pass) && s.pass.scan.page.Some? && s.pass.scan.page.value.rows == []
                    && s.pass.scan.selectors != []
    case Finish => Scanning(s.pass) && s.pass.scan.selectors == [] && s.pass.scan.page.None?
    case Crash => !s.pass.Idle?
  }

  function NextSelector(scan: Scan): Scan
    requires scan.selectors != []
  {
    scan.(selectors := scan.selectors[1..], after := 0, page := None)
  }

  /** `Batch`: an empty page ends the selector. */
  ghost function AfterRead(t: Table, source: map<int, Row>, scan: Scan): Scan
    requires scan.selectors != []
  {
    var rows := PageRows(t, source, scan.selectors[0], scan.after);
    if rows == [] then NextSelector(scan)
    else scan.(after := rows[|rows| - 1].id, page := Some(Page(rows, |rows| == t.batch)))
  }

  /** A short page ends the selector. */
  function AfterPage(scan: Scan): Scan
    requires scan.page.Some? && scan.selectors != []
  {
    if scan.page.value.full then scan.(page := None) else NextSelector(scan)
  }

  function WithScan(p: Pass, scan: Scan): Pass
    requires Scanning(p)
  {
    match p
    case Syncing(since, _) => Syncing(since, scan)
    case Filling(committed, _) => Filling(committed, scan)
  }

  /** One row is upserted, or refused and filed. */
  function Land(s: State, r: Row, lands: bool): State {
    if lands then s.(target := s.target[r.key := r]) else s.(quarantine := s.quarantine + [r])
  }

  ghost function Step(t: Table, s: State, e: Event): State
    requires Legal(t, s, e)
  {
    match e
    case Write(op) => ApplyWrite(t, s, op)
    case BeginSync => s.(pass := Begun(s.mark))
    case ReadMax =>
      s.(pass := Measured(s.pass.since, if HasCursor(t) then MaxCursor(t, s.source) else s.pass.since))
    case ReadSelectors(keys) =>
      s.(pass := Syncing(s.pass.since, Scan(s.pass.next, Selectors(t, s.pass.since, keys), 0, None)))
    case BeginBackfill =>
      s.(pass := Filling(false, Scan(if HasCursor(t) then MaxCursor(t, s.source) else None, [All], 0, None)))
    case ReadPage => s.(pass := WithScan(s.pass, AfterRead(t, s.source, s.pass.scan)))
    case Deliver(lands) =>
      var page := s.pass.scan.page.value;
      Land(s, page.rows[0].row, lands).(
        pass := WithScan(s.pass, s.pass.scan.(page := Some(page.(rows := page.rows[1..])))))
    case EndPage =>
      if s.pass.Filling? then
        s.(mark := s.pass.scan.next, pass := Filling(true, AfterPage(s.pass.scan)))
      else
        s.(pass := WithScan(s.pass, AfterPage(s.pass.scan)))
    case Finish =>
      if s.pass.Filling? then s.(pass := Idle)
      else s.(mark := s.pass.scan.next, pass := Idle)
    case Crash => s.(pass := Idle)
  }

  // ---------- runs ----------

  ghost predicate LegalRun(t: Table, s: State, es: seq<Event>)
    decreases |es|
  {
    es == [] || (Legal(t, s, es[0]) && LegalRun(t, Step(t, s, es[0]), es[1..]))
  }

  ghost function Run(t: Table, s: State, es: seq<Event>): State
    requires LegalRun(t, s, es)
    decreases |es|
  {
    if es == [] then s else Run(t, Step(t, s, es[0]), es[1..])
  }

  /** Runs compose. */
  lemma {:induction false} RunAppend(t: Table, s: State, a: seq<Event>, b: seq<Event>)
    requires LegalRun(t, s, a)
    ensures LegalRun(t, s, a + b) <==> LegalRun(t, Run(t, s, a), b)
    ensures LegalRun(t, s, a + b) ==> Run(t, s, a + b) == Run(t, Run(t, s, a), b)
    decreases |a|
  {
    if a == [] {
      assert a + b == b;
    } else {
      RunAppend(t, Step(t, s, a[0]), a[1..], b);
      assert (a + b)[0] == a[0] && (a + b)[1..] == a[1..] + b;
    }
  }

  lemma RunSnoc(t: Table, s: State, es: seq<Event>, e: Event)
    requires LegalRun(t, s, es) && Legal(t, Run(t, s, es), e)
    ensures LegalRun(t, s, es + [e]) && Run(t, s, es + [e]) == Step(t, Run(t, s, es), e)
  {
    var m := Run(t, s, es);
    assert [e][1..] == [];
    assert LegalRun(t, Step(t, m, e), []);
    RunAppend(t, s, es, [e]);
  }

  // ---------- page facts ----------

  /** Every row of a page is past the page cursor, accepted, selected and current. */
  lemma PageEntry(t: Table, source: map<int, Row>, sel: Selector, after: int, i: nat)
    requires i < |PageRows(t, source, sel, after)|
    ensures var e := PageRows(t, source, sel, after)[i];
            e.id in source && source[e.id] == e.row && e.id > after && t.accepts(e.row) && Selects(t, sel, e.row)
  {
    var ids := PageIds(t, source, sel, after);
    assert ids[i] in Candidates(t, source, sel, after);
  }

  /** A qualifying row is on the page, or lies past a full page. */
  lemma PageCovers(t: Table, source: map<int, Row>, sel: Selector, after: int, id: int)
    requires id in source && id > after && t.accepts(source[id]) && Selects(t, sel, source[id])
    requires t.batch > 0
    ensures var rows := PageRows(t, source, sel, after);
            rows != [] &&
            ((exists i :: 0 <= i < |rows| && rows[i] == Entry(id, source[id]))
             || (|rows| == t.batch && id > rows[|rows| - 1].id))
  {
    var pool, ids := Candidates(t, source, sel, after), PageIds(t, source, sel, after);
    var rows := PageRows(t, source, sel, after);
    assert id in pool;
    if id in ids {
      var i :| 0 <= i < |ids| && ids[i] == id;
      assert rows[i] == Entry(id, source[id]);
    } else {
      LeftOut(pool, t.batch, id);
    }
  }

  /** Identifiers ascend along a page. */
  lemma PageAscends(t: Table, source: map<int, Row>, sel: Selector, after: int)
    ensures var rows := PageRows(t, source, sel, after);
            forall i, j :: 0 <= i < j < |rows| ==> rows[i].id < rows[j].id
  {
  }
}
