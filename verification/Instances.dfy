/** Several sinks, each with its own instance name, writing to one target. Rows and watermarks
    are keyed by the instance, and every query filters on it, so each sink sees the target as
    if it were alone. */
module Instances {
  import opened Prelude
  import opened Replication
  import opened Safety

  type Instance = string

  /** What belongs to one sink: the source it follows and its volatile pass. */
  datatype Sink = Sink(source: map<int, Row>, high: Option<int>, pass: Pass)

  /** The stores all sinks share, as the target keeps them. */
  datatype Shared = Shared(
    rows: map<(Instance, Key), Row>,
    quarantine: seq<(Instance, Row)>,
    marks: map<Instance, Option<int>>)

  datatype World = World(shared: Shared, sinks: map<Instance, Sink>)

  type Plan = map<Instance, Table>

  // ---------- queries on the shared stores ----------

  ghost function KeysOf(rows: map<(Instance, Key), Row>, i: Instance): set<Key> {
    set p | p in rows && p.0 == i :: p.1
  }

  ghost function RowsOf(rows: map<(Instance, Key), Row>, i: Instance): map<Key, Row> {
    map k | k in KeysOf(rows, i) :: rows[(i, k)]
  }

  function FileOf(q: seq<(Instance, Row)>, i: Instance): seq<Row> {
    if q == [] then []
    else FileOf(q[..|q| - 1], i) + (if q[|q| - 1].0 == i then [q[|q| - 1].1] else [])
  }

  function MarkOf(marks: map<Instance, Option<int>>, i: Instance): Option<int> {
    if i in marks then marks[i] else None
  }

  /** SELECT key WHERE instance = i AND the state is unsettled, LIMIT n. */
  ghost predicate OpenQuery(t: Table, rows: map<(Instance, Key), Row>, i: Instance, keys: seq<Key>) {
    if t.follow.OpenRow? && t.singleKey then
      && (forall x, y :: 0 <= x < y < |keys| ==> keys[x] != keys[y])
      && (forall k :: k in keys ==> (i, k) in rows && IsOpen(t, rows[(i, k)]))
      && (|keys| < RESCAN_OPEN_LIMIT ==>
            forall k :: (i, k) in rows && IsOpen(t, rows[(i, k)]) ==> k in keys)
      && |keys| <= RESCAN_OPEN_LIMIT
    else
      keys == []
  }

  // ---------- one sink's step on the shared stores ----------

  /** What sink i sees. */
  ghost function View(w: World, i: Instance): State
    requires i in w.sinks
  {
    var s := w.sinks[i];
    State(s.source, s.high, RowsOf(w.shared.rows, i), FileOf(w.shared.quarantine, i), MarkOf(w.shared.marks, i), s.pass)
  }

  ghost predicate MayStep(p: Plan, w: World, i: Instance, e: Event) {
    && i in p && i in w.sinks
    && match e
       case ReadSelectors(keys) => w.sinks[i].pass.Measured? && OpenQuery(p[i], w.shared.rows, i, keys)
       case _ => Legal(p[i], View(w, i), e)
  }

  /** The row a delivery writes, and where: under the sink's own instance. */
  function Deliver1(g: Shared, i: Instance, r: Row, lands: bool): Shared {
    if lands then g.(rows := g.rows[(i, r.key) := r]) else g.(quarantine := g.quarantine + [(i, r)])
  }

  ghost function StepShared(p: Plan, w: World, i: Instance, e: Event): Shared
    requires MayStep(p, w, i, e)
  {
    var pass := w.sinks[i].pass;
    match e
    case Deliver(lands) => Deliver1(w.shared, i, pass.scan.page.value.rows[0].row, lands)
    case EndPage => if pass.Filling? then w.shared.(marks := w.shared.marks[i := pass.scan.next]) else w.shared
    case Finish => if pass.Filling? then w.shared else w.shared.(marks := w.shared.marks[i := pass.scan.next])
    case _ => w.shared
  }

  ghost function StepSink(p: Plan, w: World, i: Instance, e: Event): Sink
    requires MayStep(p, w, i, e)
  {
    var t, s := p[i], w.sinks[i];
    match e
    case Write(op) =>
      var was := State(s.source, s.high, map[], [], None, Idle);
      var now := ApplyWrite(t, was, op);
      s.(source := now.source, high := now.high)
    case BeginSync => s.(pass := Begun(MarkOf(w.shared.marks, i)))
    case ReadMax => s.(pass := Measured(s.pass.since, if HasCursor(t) then MaxCursor(t, s.source) else s.pass.since))
    case ReadSelectors(keys) =>
      s.(pass := Syncing(s.pass.since, Scan(s.pass.next, Selectors(t, s.pass.since, keys), 0, None)))
    case BeginBackfill =>
      s.(pass := Filling(false, Scan(if HasCursor(t) then MaxCursor(t, s.source) else None, [All], 0, None)))
    case ReadPage => s.(pass := WithScan(s.pass, AfterRead(t, s.source, s.pass.scan)))
    case Deliver(_) =>
      var page := s.pass.scan.page.value;
      s.(pass := WithScan(s.pass, s.pass.scan.(page := Some(page.(rows := page.rows[1..])))))
    case EndPage =>
      var scan := AfterPage(s.pass.scan);
      s.(pass := if s.pass.Filling? then Filling(true, scan) else WithScan(s.pass, scan))
    case Finish => s.(pass := Idle)
    case Crash => s.(pass := Idle)
  }

  ghost function StepWorld(p: Plan, w: World, i: Instance, e: Event): World
    requires MayStep(p, w, i, e)
  {
    World(StepShared(p, w, i, e), w.sinks[i := StepSink(p, w, i, e)])
  }

  // ---------- isolation of one step ----------

  lemma FileSnoc(q: seq<(Instance, Row)>, x: (Instance, Row), i: Instance)
    ensures FileOf(q + [x], i) == FileOf(q, i) + (if x.0 == i then [x.1] else [])
  {
    assert (q + [x])[..|q|] == q;
  }

  lemma RowsAfter(rows: map<(Instance, Key), Row>, i: Instance, r: Row, j: Instance)
    ensures RowsOf(rows[(i, r.key) := r], j) == if i == j then RowsOf(rows, j)[r.key := r] else RowsOf(rows, j)
  {
    var after := rows[(i, r.key) := r];
    forall k ensures k in KeysOf(after, j) <==> k in KeysOf(rows, j) || (i == j && k == r.key) {
      if k in KeysOf(rows, j) {
        assert (j, k) in after;
      }
      if i == j && k == r.key {
        assert (j, k) in after;
      }
    }
  }

  lemma OpenQueryIsListing(t: Table, rows: map<(Instance, Key), Row>, i: Instance, keys: seq<Key>)
    ensures OpenQuery(t, rows, i, keys) <==> OpenListing(t, RowsOf(rows, i), keys)
  {
    forall k ensures k in OpenKeys(t, RowsOf(rows, i)) <==> (i, k) in rows && IsOpen(t, rows[(i, k)]) {
      assert k in KeysOf(rows, i) <==> (i, k) in rows;
    }
  }

  /** A sink may take exactly the steps it may take alone. */
  lemma SameMoves(p: Plan, w: World, i: Instance, e: Event)
    requires i in p && i in w.sinks
    ensures MayStep(p, w, i, e) <==> Legal(p[i], View(w, i), e)
  {
    if e.ReadSelectors? {
      OpenQueryIsListing(p[i], w.shared.rows, i, e.openKeys);
    }
  }

  lemma DeliveryView(g: Shared, i: Instance, r: Row, lands: bool, j: Instance)
    ensures RowsOf(Deliver1(g, i, r, lands).rows, j)
            == if i == j && lands then RowsOf(g.rows, j)[r.key := r] else RowsOf(g.rows, j)
    ensures FileOf(Deliver1(g, i, r, lands).quarantine, j)
            == FileOf(g.quarantine, j) + (if i == j && !lands then [r] else [])
    ensures Deliver1(g, i, r, lands).marks == g.marks
  {
    RowsAfter(g.rows, i, r, j);
    FileSnoc(g.quarantine, (i, r), j);
  }

  /** Its step is the step it would take alone. */
  lemma OwnStep(p: Plan, w: World, i: Instance, e: Event)
    requires MayStep(p, w, i, e)
    ensures Legal(p[i], View(w, i), e) && View(StepWorld(p, w, i, e), i) == Step(p[i], View(w, i), e)
  {
    SameMoves(p, w, i, e);
    if e.Deliver? {
      DeliveryView(w.shared, i, w.sinks[i].pass.scan.page.value.rows[0].row, e.lands, i);
    }
  }

  /** No other sink sees it. */
  lemma OtherStep(p: Plan, w: World, i: Instance, e: Event, j: Instance)
    requires MayStep(p, w, i, e) && j in w.sinks && i != j
    ensures View(StepWorld(p, w, i, e), j) == View(w, j)
  {
    hide StepSink, RowsOf, FileOf, Deliver1;
    if e.Deliver? {
      DeliveryView(w.shared, i, w.sinks[i].pass.scan.page.value.rows[0].row, e.lands, j);
    }
  }

  // ---------- interleavings ----------

  datatype Move = Move(who: Instance, event: Event)

  ghost predicate LegalMoves(p: Plan, w: World, ms: seq<Move>)
    decreases |ms|
  {
    || ms == []
    || (MayStep(p, w, ms[0].who, ms[0].event) && LegalMoves(p, StepWorld(p, w, ms[0].who, ms[0].event), ms[1..]))
  }

  ghost function After(p: Plan, w: World, ms: seq<Move>): World
    requires LegalMoves(p, w, ms)
    decreases |ms|
  {
    if ms == [] then w else After(p, StepWorld(p, w, ms[0].who, ms[0].event), ms[1..])
  }

  /** One sink's own events, in order. */
  function Own(ms: seq<Move>, i: Instance): seq<Event> {
    if ms == [] then [] else (if ms[0].who == i then [ms[0].event] else []) + Own(ms[1..], i)
  }

  /** In any interleaving, what a sink's rows, quarantine, watermark and pass come to is what
      its own events would have made of them alone; and those events are a run it could have
      had alone. */
  lemma {:induction false} Isolation(p: Plan, w: World, ms: seq<Move>, i: Instance)
    requires i in p && i in w.sinks && LegalMoves(p, w, ms)
    ensures i in After(p, w, ms).sinks
    ensures LegalRun(p[i], View(w, i), Own(ms, i))
    ensures View(After(p, w, ms), i) == Run(p[i], View(w, i), Own(ms, i))
    decreases |ms|
  {
    hide View, MayStep, StepWorld, Step, Legal;
    if ms != [] {
      var who, e := ms[0].who, ms[0].event;
      var w1 := StepWorld(p, w, who, e);
      SinksStay(p, w, who, e, i);
      Isolation(p, w1, ms[1..], i);
      if who == i {
        OwnStep(p, w, i, e);
        assert Own(ms, i)[0] == e && Own(ms, i)[1..] == Own(ms[1..], i);
      } else {
        OtherStep(p, w, who, e, i);
        assert Own(ms, i) == Own(ms[1..], i);
      }
    }
  }

  lemma SinksStay(p: Plan, w: World, i: Instance, e: Event, j: Instance)
    requires MayStep(p, w, i, e) && j in w.sinks
    ensures j in StepWorld(p, w, i, e).sinks
  {
  }

  /** So each sink keeps its class's invariant whatever the others do. */
  lemma SafeTogether(p: Plan, w: World, ms: seq<Move>, i: Instance)
    requires i in p && i in w.sinks && LegalMoves(p, w, ms)
    requires Inv(p[i], View(w, i)) && LegalRun(p[i], View(w, i), Own(ms, i))
    requires Intact(p[i], View(w, i), Own(ms, i), true)
    ensures i in After(p, w, ms).sinks && Inv(p[i], View(After(p, w, ms), i))
  {
    hide View, Intact;
    Isolation(p, w, ms, i);
    InvOverRuns(p[i], View(w, i), Own(ms, i), true);
  }
}
