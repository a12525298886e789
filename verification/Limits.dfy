/** Where the code promises less than its comments: an interrupted backfill, a filter that
    changes its mind about an open row, an open_row table with a composite key, and more open
    rows than one pass asks for. Each comes with the exact condition under which the promise
    is kept. */
module Limits {
  import opened Prelude
  import opened Ordered
  import opened Replication
  import opened Safety
  import opened Quiet
  import opened Convergence
  import opened Deliveries = Delivery

  // ---------- an interrupted backfill ----------

  function PagesEnded(es: seq<Event>): nat {
    if es == [] then 0 else (if es[0].EndPage? then 1 else 0) + PagesEnded(es[1..])
  }

  ghost function Measured(t: Table, s: State): Option<int> {
    if HasCursor(t) then MaxCursor(t, s.source) else None
  }

  /** The state a backfill leaves when it stops after `es`. */
  ghost function Interrupted(t: Table, s: State, es: seq<Event>): State
    requires LegalRun(t, s, [BeginBackfill] + es)
  {
    Run(t, s, [BeginBackfill] + es).(pass := Idle)
  }

  /** Wherever it stops, a backfill has stored the maximum it measured if it ended a page, and
      otherwise left the watermark alone. */
  lemma {:induction false} MarkByPages(t: Table, s: State, es: seq<Event>)
    requires s.pass.Filling? && ScanEvents(es) && LegalRun(t, s, es)
    ensures Run(t, s, es).pass.Filling?
    ensures Run(t, s, es).mark == if PagesEnded(es) > 0 then s.pass.scan.next else s.mark
    decreases |es|
  {
    if es != [] {
      assert ScanEvent(es[0]);
      MarkByPages(t, Step(t, s, es[0]), es[1..]);
    }
  }

  /** Every followed row from position k of a listing on is accounted for in s at mark m. */
  ghost predicate UnreadCovered(t: Table, s: State, rows: seq<Entry>, k: nat, m: Option<int>) {
    forall i :: k <= i < |rows| && Tracked(t, rows[i].row) ==> Covered(t, s, m, rows[i].row)
  }

  /** A backfill stopped anywhere, over a quiet source and from any state with everything
      accounted for, leaves everything accounted for exactly when it had stored no watermark,
      or every followed row it had not delivered was already accounted for at the maximum it
      stored: selected past it, landed, or held open. */
  lemma InterruptedBackfillIsSafeIff(t: Table, s: State, es: seq<Event>)
    requires Inv(t, s) && s.pass.Idle? && ScanEvents(es) && LegalRun(t, s, [BeginBackfill] + es)
    ensures var s' := Interrupted(t, s, es);
            Accounted(t, s', s'.mark)
            <==> PagesEnded(es) == 0
                 || UnreadCovered(t, s, Listing(t, s.source, All, 0), |Delivered(t, s, [BeginBackfill] + es)|,
                                  Measured(t, s))
  {
    hide Listing;
    SplitRun(t, s, BeginBackfill, es);
    var s0 := Step(t, s, BeginBackfill);
    var s1, ds := Run(t, s0, es), Delivered(t, s0, es);
    ScanDelivers(t, s0, es);
    MarkByPages(t, s0, es);
    FirstOfListing(t, s, s0, es);
    LandAllStores(s0, s, ds);
    StoppedCovers(t, s, ds, s1.(pass := Idle), s1.mark);
  }

  /** A backfill that has stored no watermark yet keeps what the old one accounted for. */
  ghost predicate Steady(t: Table, s: State) {
    s.pass.Filling? && !s.pass.committed ==> Accounted(t, s, s.mark) && NoBurial(t, s, s.pass.scan, s.mark)
  }

  predicate FillEvents(es: seq<Event>) {
    forall i :: 0 <= i < |es| ==> ScanEvent(es[i]) || es[i].Write?
  }

  lemma StepKeepsSteady(t: Table, s: State, e: Event)
    requires Inv(t, s) && Steady(t, s) && s.pass.Filling? && Legal(t, s, e) && (ScanEvent(e) || e.Write?)
    ensures Steady(t, Step(t, s, e)) && Step(t, s, e).pass.Filling?
  {
    hide AfterRead;
    var s', scan := Step(t, s, e), s.pass.scan;
    if !s.pass.committed {
      match e {
        case Write(op) =>
          WriteKeepsCovered(t, s, op, s.mark);
          WriteKeepsNoBurial(t, s, op, scan, s.mark);
        case ReadPage =>
          SameStores(t, s, s');
          ReadKeepsScanInv(t, s, scan);
        case Deliver(lands) =>
          DeliverKeepsAccounted(t, s, scan, lands);
          RestNoBurial(t, s, scan, lands, s.mark);
          SameStores(t, Land(s, scan.page.value.rows[0].row, lands), s');
        case EndPage =>
      }
    }
  }

  lemma {:induction false} SteadyOverRuns(t: Table, s: State, es: seq<Event>)
    requires Inv(t, s) && Steady(t, s) && s.pass.Filling? && FillEvents(es) && LegalRun(t, s, es)
    ensures var s' := Run(t, s, es); Inv(t, s') && Steady(t, s') && s'.pass.Filling?
    decreases |es|
  {
    hide Inv, Steady, Step, Legal;
    if es != [] {
      assert forall i :: 0 <= i < |es[1..]| ==> es[1..][i] == es[i + 1];
      StepKeepsInv(t, s, es[0]);
      StepKeepsSteady(t, s, es[0]);
      SteadyOverRuns(t, Step(t, s, es[0]), es[1..]);
    }
  }

  /** What the rest of the scan still owes is accounted for without it. */
  ghost predicate OwedCovered(t: Table, s: State, scan: Scan) {
    forall id | id in s.source && Tracked(t, s.source[id]) && Owed(t, scan, id, s.source[id]) ::
      Covered(t, s, s.mark, s.source[id])
  }

  /** The same while the daemon goes on writing: a backfill that has stored no watermark may
      stop anywhere, and one that has may stop exactly when every followed row the rest of
      its scan still owes is accounted for already. */
  lemma InterruptedUnderWritesIsSafeIff(t: Table, s: State, es: seq<Event>)
    requires Inv(t, s) && s.pass.Idle? && FillEvents(es) && LegalRun(t, s, [BeginBackfill] + es)
    ensures var s1 := Run(t, s, [BeginBackfill] + es);
            && s1.pass.Filling?
            && (Accounted(t, s1.(pass := Idle), s1.mark) <==> !s1.pass.committed || OwedCovered(t, s1, s1.pass.scan))
  {
    SplitRun(t, s, BeginBackfill, es);
    var s0 := Step(t, s, BeginBackfill);
    StepKeepsInv(t, s, BeginBackfill);
    SameStores(t, s, s0);
    SteadyOverRuns(t, s0, es);
    var s1 := Run(t, s0, es);
    SameStores(t, s1, s1.(pass := Idle));
  }

  /** What a backfill has delivered is the beginning of the listing. */
  lemma FirstOfListing(t: Table, s: State, s0: State, es: seq<Event>)
    requires t.batch > 0 && s0 == s.(pass := s0.pass) && s0.pass.Filling?
    requires s0.pass.scan.selectors == [All] && s0.pass.scan.after == 0 && s0.pass.scan.page.None?
    requires LegalRun(t, s0, es) && ScanEvents(es)
    ensures var ds, rows := Delivered(t, s0, es), Listing(t, s.source, All, 0);
            |ds| <= |rows| && forall i :: 0 <= i < |ds| ==> ds[i].entry == rows[i]
  {
    hide Listing;
    var ds := Delivered(t, s0, es);
    ScanDelivers(t, s0, es);
    assert Queue(t, s.source, [All][1..]) == [];
    assert Work(t, s.source, s0.pass.scan) == Pages(t, s.source, All, 0) + [];
    PagesAreTheListing(t, s.source, All, 0);
    EntriesAt(ds);
    var left := Work(t, s.source, Run(t, s0, es).pass.scan);
    assert Listing(t, s.source, All, 0) == Entries(ds) + left;
    assert forall i :: 0 <= i < |ds| ==> (Entries(ds) + left)[i] == Entries(ds)[i];
  }

  lemma StoppedCovers(t: Table, s: State, ds: seq<Delivery>, s': State, m: Option<int>)
    requires SourceOk(t, s) && |ds| <= |Listing(t, s.source, All, 0)|
    requires forall i :: 0 <= i < |ds| ==> ds[i].entry == Listing(t, s.source, All, 0)[i]
    requires SameData(s', LandAll(s, ds)) && s'.source == s.source
    ensures Accounted(t, s', m) <==> UnreadCovered(t, s, Listing(t, s.source, All, 0), |ds|, m)
    ensures Accounted(t, s, m) ==> UnreadCovered(t, s, Listing(t, s.source, All, 0), |ds|, m)
  {
    hide Listing;
    var rows := Listing(t, s.source, All, 0);
    ListingHolds(t, s.source, All, 0);
    assert forall i :: 0 <= i < |rows| ==> Current(s.source, rows[i]);
    forall i | |ds| <= i < |rows|
      ensures Covered(t, s', m, rows[i].row) <==> Covered(t, s, m, rows[i].row)
    {
      UnreadIsUntouched(t, s, ds, rows, i);
      assert rows[i].row in s'.quarantine <==> rows[i].row in s.quarantine;
    }
    forall i | 0 <= i < |ds| ensures Landed(s', rows[i].row) {
      EntriesAt(ds);
      assert Entries(ds)[i] in Entries(ds);
      DeliveredLands(t, s, ds, i);
    }
    forall id | id in s.source && Tracked(t, s.source[id])
      ensures exists i :: 0 <= i < |rows| && rows[i] == Entry(id, s.source[id])
    {
      assert id in Candidates(t, s.source, All, 0);
    }
  }

  lemma DeliveredLands(t: Table, s: State, ds: seq<Delivery>, i: nat)
    requires SourceOk(t, s) && i < |ds| && forall j :: 0 <= j < |ds| ==> Current(s.source, ds[j].entry)
    ensures Landed(LandAll(s, ds), ds[i].entry.row)
  {
    EntriesAt(ds);
    assert Entries(ds)[i] in Entries(ds);
    LandAllLands(t, s, ds, ds[i].entry.id);
  }

  lemma UnreadIsUntouched(t: Table, s: State, ds: seq<Delivery>, rows: seq<Entry>, i: nat)
    requires SourceOk(t, s) && |ds| <= i < |rows|
    requires forall j :: 0 <= j < |rows| ==> Current(s.source, rows[j])
    requires forall j, k :: 0 <= j < k < |rows| ==> rows[j].id < rows[k].id
    requires forall j :: 0 <= j < |ds| ==> ds[j].entry == rows[j]
    ensures var s', k := LandAll(s, ds), rows[i].row.key;
            && (k in s'.target <==> k in s.target) && (k in s.target ==> s'.target[k] == s.target[k])
            && (EverQuarantined(s', k) <==> EverQuarantined(s, k))
            && (rows[i].row in s'.quarantine <==> rows[i].row in s.quarantine)
  {
    var e := rows[i];
    forall j | 0 <= j < |ds| ensures ds[j].entry.row.key != e.row.key {
      assert rows[j].id < e.id;
    }
    LandAllElsewhere(s, ds, e.row.key);
    LandAllQuarantines(s, ds, e.row);
  }

  /** Filing rows of other keys neither adds nor removes a row of this one. */
  lemma {:induction false} LandAllQuarantines(s: State, ds: seq<Delivery>, r: Row)
    requires forall i :: 0 <= i < |ds| ==> ds[i].entry.row.key != r.key
    ensures EverQuarantined(LandAll(s, ds), r.key) <==> EverQuarantined(s, r.key)
    ensures r in LandAll(s, ds).quarantine <==> r in s.quarantine
    decreases |ds|
  {
    if ds != [] {
      var s1 := Land(s, ds[0].entry.row, ds[0].lands);
      var n := |s.quarantine|;
      assert forall i :: 0 <= i < n ==> s1.quarantine[i] == s.quarantine[i];
      assert |s1.quarantine| > n ==> s1.quarantine[n].key != r.key;
      if r in s.quarantine {
        var i :| 0 <= i < n && s.quarantine[i] == r;
        assert s1.quarantine[i] == r;
      }
      LandAllQuarantines(s1, ds[1..], r);
    }
  }

  // ---------- what the watermark has passed over ----------

  predicate Reaches(m: Option<int>, c: int) {
    m.Some? && m.value >= c
  }

  /** Every watermark in sight has reached the row, the target does not know its key, and
      nothing the pass holds or will select is it. */
  ghost predicate PassedOver(t: Table, s: State, id: int) {
    && Sound(t, s) && (t.follow.AppendOnly? || t.follow.OpenRow?)
    && id in s.source && Tracked(t, s.source[id])
    && var r := s.source[id]; var c := r.cursor.value;
       && Reaches(s.mark, c) && r.key !in s.target
       && match s.pass
          case Idle => true
          case Begun(since) => Reaches(since, c)
          case Measured(since, next) => Reaches(since, c) && Reaches(next, c)
          case Syncing(_, scan) =>
            && Reaches(scan.next, c)
            && (forall j :: 0 <= j < |scan.selectors| ==> !Selects(t, scan.selectors[j], r))
            && (scan.page.Some? ==>
                  forall i :: 0 <= i < |scan.page.value.rows| ==>
                    scan.page.value.rows[i].id != id && scan.page.value.rows[i].row.key != r.key)
          case Filling(_, _) => false
  }

  predicate NoBackfill(es: seq<Event>) {
    forall i :: 0 <= i < |es| ==> !es[i].BeginBackfill?
  }

  lemma SelectorsPassOver(t: Table, s: State, id: int, keys: seq<Key>)
    requires PassedOver(t, s, id) && s.pass.Measured? && OpenListing(t, s.target, keys)
    ensures forall j :: 0 <= j < |Selectors(t, s.pass.since, keys)| ==>
              !Selects(t, Selectors(t, s.pass.since, keys)[j], s.source[id])
  {
    assert s.source[id].key !in keys;
    ChunksSelect(t, keys, s.source[id]);
    var sels := Selectors(t, s.pass.since, keys);
    assert !Selects(t, sels[0], s.source[id]);
    if t.follow.OpenRow? {
      assert sels[1..] == Chunks(keys);
    }
  }

  lemma PagePassesOver(t: Table, s: State, id: int)
    requires PassedOver(t, s, id) && Legal(t, s, ReadPage)
    ensures PassedOver(t, Step(t, s, ReadPage), id)
  {
    StepKeepsSound(t, s, ReadPage);
    var scan := s.pass.scan;
    var rows := PageRows(t, s.source, scan.selectors[0], scan.after);
    forall i | 0 <= i < |rows| ensures rows[i].id != id && rows[i].row.key != s.source[id].key {
      PageEntry(t, s.source, scan.selectors[0], scan.after, i);
    }
  }

  lemma StepPassesOver(t: Table, s: State, e: Event, id: int)
    requires PassedOver(t, s, id) && Legal(t, s, e) && !e.BeginBackfill? && Leaves(e, id)
    ensures PassedOver(t, Step(t, s, e), id)
    ensures e.Deliver? ==> s.pass.scan.page.value.rows[0].id != id
  {
    StepKeepsSound(t, s, e);
    match e {
      case ReadMax => assert s.source[id].cursor.value in AcceptedCursors(t, s.source);
      case ReadSelectors(keys) => SelectorsPassOver(t, s, id, keys);
      case ReadPage => PagePassesOver(t, s, id);
      case Deliver(_) =>
        var rows := s.pass.scan.page.value.rows;
        assert forall i :: 0 <= i < |rows[1..]| ==> rows[1..][i] == rows[i + 1];
      case EndPage =>
        var sels := s.pass.scan.selectors;
        assert forall j :: 0 <= j < |sels[1..]| ==> sels[1..][j] == sels[j + 1];
      case _ =>
    }
  }

  lemma {:induction false} NeverDelivered(t: Table, s: State, es: seq<Event>, id: int)
    requires PassedOver(t, s, id) && LegalRun(t, s, es) && AllLeave(es, id) && NoBackfill(es)
    ensures DeliveriesOf(t, s, es, id) == 0 && PassedOver(t, Run(t, s, es), id)
    decreases |es|
  {
    hide PassedOver;
    if es != [] {
      assert Leaves(es[0], id);
      assert forall i :: 0 <= i < |es[1..]| ==> es[1..][i] == es[i + 1];
      StepPassesOver(t, s, es[0], id);
      NeverDelivered(t, Step(t, s, es[0]), es[1..], id);
    }
  }

  /** No run of passes delivers the row, as long as it is not written again. */
  ghost predicate NeverArrives(t: Table, s: State, id: int) {
    forall es :: LegalRun(t, s, es) && AllLeave(es, id) && NoBackfill(es) ==> DeliveriesOf(t, s, es, id) == 0
  }

  lemma IsPassedOver(t: Table, s: State, id: int)
    requires PassedOver(t, s, id)
    ensures NeverArrives(t, s, id)
  {
    hide PassedOver;
    forall es | LegalRun(t, s, es) && AllLeave(es, id) && NoBackfill(es) ensures DeliveriesOf(t, s, es, id) == 0 {
      NeverDelivered(t, s, es, id);
    }
  }

  /** A followed row at or below the watermark whose key the target does not hold never
      arrives, in however many passes, whatever else is written and however they end, until
      the row itself is written or a backfill begins. */
  lemma SyncNeverReturns(t: Table, s: State, es: seq<Event>, id: int)
    requires Sound(t, s) && s.pass.Idle? && (t.follow.AppendOnly? || t.follow.OpenRow?)
    requires id in s.source && Tracked(t, s.source[id])
    requires s.mark.Some? && s.source[id].cursor.value <= s.mark.value && s.source[id].key !in s.target
    requires LegalRun(t, s, es) && AllLeave(es, id) && NoBackfill(es)
    ensures DeliveriesOf(t, s, es, id) == 0
    ensures var s' := Run(t, s, es);
            && id in s'.source && Tracked(t, s'.source[id]) && s'.source[id].key !in s'.target
            && s'.mark.Some? && s'.source[id].cursor.value <= s'.mark.value
  {
    NeverDelivered(t, s, es, id);
  }

  const TWO := Table(AppendOnly, (_: Row) => true, ["done"], true, (_: int, _: Row) => false, 0, 1)

  const FIRST := Row("a", Some(1), Some("done"), "")

  const SECOND := Row("b", Some(2), Some("done"), "")

  ghost const BEFORE := State(map[1 := FIRST, 2 := SECOND], Some(2), map[], [], None, Idle)

  lemma FirstPageOfTwo()
    ensures PageRows(TWO, BEFORE.source, All, 0) == [Entry(1, FIRST)]
  {
    assert Candidates(TWO, BEFORE.source, All, 0) == {1, 2};
    var rows := PageRows(TWO, BEFORE.source, All, 0);
    PageCovers(TWO, BEFORE.source, All, 0, 1);
    PageEntry(TWO, BEFORE.source, All, 0, 0);
    assert |rows| == 1;
  }

  ghost const STOPPED := [ReadPage, Deliver(true), EndPage]

  lemma StoppedRun()
    ensures LegalRun(TWO, BEFORE, [BeginBackfill] + STOPPED)
    ensures |Delivered(TWO, BEFORE, [BeginBackfill] + STOPPED)| == 1
    ensures var s' := Run(TWO, BEFORE, [BeginBackfill] + STOPPED);
            && s'.source == BEFORE.source && s'.high == BEFORE.high
            && s'.target == map["a" := FIRST] && s'.quarantine == [] && s'.mark == Measured(TWO, BEFORE)
  {
    hide Candidates, PageIds, PageRows, MaxCursor;
    FirstPageOfTwo();
    var s0 := Step(TWO, BEFORE, BeginBackfill);
    var s1 := Step(TWO, s0, ReadPage);
    var s2 := Step(TWO, s1, Deliver(true));
    var s3 := Step(TWO, s2, EndPage);
    assert STOPPED == [ReadPage] + ([Deliver(true)] + ([EndPage] + []));
    Prepend(TWO, s2, EndPage, []);
    Prepend(TWO, s1, Deliver(true), [EndPage] + []);
    Prepend(TWO, s0, ReadPage, [Deliver(true)] + ([EndPage] + []));
    Prepend(TWO, BEFORE, BeginBackfill, STOPPED);
  }

  lemma Prepend(t: Table, s: State, e: Event, es: seq<Event>)
    requires Legal(t, s, e) && LegalRun(t, Step(t, s, e), es)
    ensures LegalRun(t, s, [e] + es) && Run(t, s, [e] + es) == Run(t, Step(t, s, e), es)
    ensures |Delivered(t, s, [e] + es)| == (if e.Deliver? then 1 else 0) + |Delivered(t, Step(t, s, e), es)|
  {
    assert ([e] + es)[0] == e && ([e] + es)[1..] == es;
  }

  /** Two rows and a batch size of one are enough: stopped after its first page, the
      backfill leaves a watermark that no later pass goes behind, so that the second row does
      not arrive in any number of passes. */
  lemma InterruptedBackfillLosesARow()
    ensures Unstarted(TWO, BEFORE) && LegalRun(TWO, BEFORE, [BeginBackfill] + STOPPED)
    ensures var s' := Interrupted(TWO, BEFORE, STOPPED); !Accounted(TWO, s', s'.mark)
    ensures var s' := Interrupted(TWO, BEFORE, STOPPED);
            forall es :: LegalRun(TWO, s', es) && AllLeave(es, 2) && NoBackfill(es) ==>
              SECOND.key !in Run(TWO, s', es).target
  {
    hide LegalRun, Run, Accounted, PageRows, Listing, Delivered;
    StoppedRun();
    assert STOPPED[1..] == [Deliver(true), EndPage] && STOPPED[1..][1..] == [EndPage] && STOPPED[1..][1..][1..] == [];
    assert PagesEnded(STOPPED) == 1;
    SecondUnread();
    NoMarkAccounts(TWO, BEFORE);
    InterruptedBackfillIsSafeIff(TWO, BEFORE, STOPPED);
    var s' := Interrupted(TWO, BEFORE, STOPPED);
    forall es: seq<Event> | LegalRun(TWO, s', es) && AllLeave(es, 2) && NoBackfill(es)
      ensures SECOND.key !in Run(TWO, s', es).target
    {
      SecondNeverArrives(s', es);
    }
  }

  lemma SecondNeverArrives(s: State, es: seq<Event>)
    requires s == State(BEFORE.source, BEFORE.high, map["a" := FIRST], [], Some(2), Idle)
    requires LegalRun(TWO, s, es) && AllLeave(es, 2) && NoBackfill(es)
    ensures SECOND.key !in Run(TWO, s, es).target
  {
    assert PassedOver(TWO, s, 2);
    NeverDelivered(TWO, s, es, 2);
    RowStays(TWO, s, es, 2);
  }

  lemma {:induction false} RowStays(t: Table, s: State, es: seq<Event>, id: int)
    requires LegalRun(t, s, es) && AllLeave(es, id) && id in s.source
    ensures id in Run(t, s, es).source && Run(t, s, es).source[id] == s.source[id]
    decreases |es|
  {
    if es != [] {
      assert Leaves(es[0], id);
      assert forall i :: 0 <= i < |es[1..]| ==> es[1..][i] == es[i + 1];
      RowStays(t, Step(t, s, es[0]), es[1..], id);
    }
  }

  lemma NoMarkAccounts(t: Table, s: State)
    requires s.mark.None?
    ensures Accounted(t, s, s.mark)
  {
  }

  lemma SecondUnread()
    ensures !UnreadCovered(TWO, BEFORE, Listing(TWO, BEFORE.source, All, 0), 1, Measured(TWO, BEFORE))
    ensures Measured(TWO, BEFORE) == Some(2)
  {
    hide Listing;
    var rows := Listing(TWO, BEFORE.source, All, 0);
    assert Candidates(TWO, BEFORE.source, All, 0) == {1, 2};
    ListingHolds(TWO, BEFORE.source, All, 0);
    assert rows[1] == Entry(2, SECOND);
    assert AcceptedCursors(TWO, BEFORE.source) == {1, 2} by {
      assert BEFORE.source[1].cursor.value == 1 && BEFORE.source[2].cursor.value == 2;
    }
    assert Measured(TWO, BEFORE) == Some(2);
    assert Tracked(TWO, rows[1].row) && !Covered(TWO, BEFORE, Some(2), rows[1].row);
  }

  // ---------- a write the protocol has not seen ----------

  /** Everything is accounted for: at the stored watermark, and, while a pass scans, at the one
      it will store or by what it has still to read. */
  ghost predicate Safe(t: Table, s: State) {
    match s.pass
    case Syncing(_, scan) => Accounted(t, s, s.mark) && ScanCovers(t, s, scan)
    case Filling(_, scan) => ScanCovers(t, s, scan)
    case _ => Accounted(t, s, s.mark)
  }

  /** The marks in sight have not reached the row, or the scan has still to read it. */
  ghost predicate InTime(t: Table, s: State, id: int, r: Row) {
    match s.pass
    case Syncing(_, scan) => Ahead(t, s.mark, r) && (Ahead(t, scan.next, r) || Owed(t, scan, id, r))
    case Filling(_, scan) => Ahead(t, scan.next, r) || Owed(t, scan, id, r)
    case _ => Ahead(t, s.mark, r)
  }

  ghost predicate Puts(s: State, op: WriteOp, id: int, r: Row) {
    (op == Insert(id, r) && id !in s.source) || (op == Update(id, r) && id in s.source)
  }

  lemma InvIsSafe(t: Table, s: State)
    requires Inv(t, s)
    ensures Safe(t, s)
  {
  }

  /** Whatever the class promises of a write, and whenever it comes: a followed version the
      target has not settled is safe exactly when it comes in time. */
  lemma UnseenWriteIsSafeIff(t: Table, s: State, op: WriteOp, id: int, r: Row)
    requires Inv(t, s) && Puts(s, op, id, r) && Tracked(t, r) && !Settled(t, s, r)
    ensures Safe(t, ApplyWrite(t, s, op)) <==> InTime(t, s, id, r)
  {
    InvIsSafe(t, s);
    var s' := ApplyWrite(t, s, op);
    forall m, other | other in s.source
      ensures Covered(t, s', m, s.source[other]) <==> Covered(t, s, m, s.source[other])
      ensures Covered(t, s', m, r) <==> Ahead(t, m, r)
    {
      assert Settled(t, s', s.source[other]) <==> Settled(t, s, s.source[other]);
      assert Settled(t, s', r) <==> Settled(t, s, r);
    }
    if InTime(t, s, id, r) {
      InTimeIsSafe(t, s, op, id, r);
    } else {
      assert id in s'.source && s'.source[id] == r;
    }
  }

  lemma InTimeIsSafe(t: Table, s: State, op: WriteOp, id: int, r: Row)
    requires Safe(t, s) && Puts(s, op, id, r) && InTime(t, s, id, r)
    ensures Safe(t, ApplyWrite(t, s, op))
  {
    var s' := ApplyWrite(t, s, op);
    forall m, row: Row | Covered(t, s, m, row) ensures Covered(t, s', m, row) { }
    forall i | i in s'.source ensures s'.source[i] == if i == id then r else s.source[i] { }
  }

  /** The page in hand has no other version of the row that landing could put over it. */
  ghost predicate NoStalePage(t: Table, p: Pass, r: Row) {
    Scanning(p) && p.scan.page.Some? ==>
      forall i :: 0 <= i < |p.scan.page.value.rows| && p.scan.page.value.rows[i].row.key == r.key ==>
        Replaces(t, p.scan.page.value.rows[i].row, r)
  }

  /** And what comes in time is kept for good: the whole invariant survives the write, and so
      whatever follows it. */
  lemma InTimeKeepsInv(t: Table, s: State, op: WriteOp, id: int, r: Row)
    requires Inv(t, s) && !s.pass.Filling? && Puts(s, op, id, r) && Tracked(t, r)
    requires id > 0 && KeyFree(s.source, id, r.key) && InTime(t, s, id, r) && NoStalePage(t, s.pass, r)
    ensures Inv(t, ApplyWrite(t, s, op))
  {
    InvIsSafe(t, s);
    InTimeIsSafe(t, s, op, id, r);
  }

  // ---------- a stamp that does not exceed the ones before it ----------

  /** An append_only or open_row row inserted, or stamped after it had no cursor, is safe
      exactly when its cursor is past the watermark, and during a scan past the maximum read
      before it too unless the scan has still to reach the row. A cursor cut to the
      millisecond that ties with either is as late as an older one. */
  lemma LateStampIsSafeIff(t: Table, s: State, op: WriteOp, id: int, r: Row)
    requires Inv(t, s) && (t.follow.AppendOnly? || t.follow.OpenRow?)
    requires Puts(s, op, id, r) && (op.Update? ==> s.source[id].cursor.None?) && Tracked(t, r) && !Settled(t, s, r)
    ensures var c := r.cursor.value;
            Safe(t, ApplyWrite(t, s, op)) <==>
              && (s.pass.Filling? || s.mark.None? || s.mark.value < c)
              && (Scanning(s.pass) ==>
                    var scan := s.pass.scan; scan.next.None? || scan.next.value < c || Owed(t, scan, id, r))
  {
    UnseenWriteIsSafeIff(t, s, op, id, r);
  }

  /** A pass with nothing left to read loses, when it ends, the write whose cursor the maximum
      it read has reached: at the watermark of before everything was accounted for. */
  lemma LostWithThePass(t: Table, s: State, op: WriteOp, id: int, r: Row)
    requires Inv(t, s) && (t.follow.AppendOnly? || t.follow.OpenRow?)
    requires s.pass.Syncing? && s.pass.scan.selectors == [] && s.pass.scan.page.None?
    requires Puts(s, op, id, r) && id > 0 && KeyFree(s.source, id, r.key) && Tracked(t, r)
    requires r.key !in s.target && !EverQuarantined(s, r.key)
    requires Ahead(t, s.mark, r) && Reaches(s.pass.scan.next, r.cursor.value)
    ensures var s' := ApplyWrite(t, s, op);
            && Accounted(t, s', s'.mark) && Legal(t, s', Finish)
            && var s'' := Step(t, s', Finish);
               !Accounted(t, s'', s''.mark) && NeverArrives(t, s'', id)
  {
    var s' := ApplyWrite(t, s, op);
    var s'' := Step(t, s', Finish);
    NotFiled(s, r);
    BeforeItEnds(t, s, op, id, r);
    assert !Covered(t, s'', s''.mark, s''.source[id]);
    assert PassedOver(t, s'', id);
    IsPassedOver(t, s'', id);
  }

  lemma NotFiled(s: State, r: Row)
    requires !EverQuarantined(s, r.key)
    ensures r !in s.quarantine
  {
  }

  lemma BeforeItEnds(t: Table, s: State, op: WriteOp, id: int, r: Row)
    requires Accounted(t, s, s.mark) && Puts(s, op, id, r) && Ahead(t, s.mark, r)
    ensures var s' := ApplyWrite(t, s, op); Accounted(t, s', s'.mark)
  {
    var s' := ApplyWrite(t, s, op);
    forall other | other in s'.source && Tracked(t, s'.source[other])
      ensures Covered(t, s', s'.mark, s'.source[other])
    {
      if other != id {
        assert Covered(t, s, s.mark, s.source[other]);
      }
    }
  }

  /** A mutable row stamped too low is safe exactly when its cursor lies within the overlap
      window of the watermark, and during a scan of the maximum read before it too unless the
      scan has still to reach the row. */
  lemma LowStampIsSafeIff(t: Table, s: State, op: WriteOp, id: int, r: Row)
    requires Inv(t, s) && t.follow.Mutable?
    requires Puts(s, op, id, r) && Tracked(t, r) && !Landed(s, r)
    ensures var c := r.cursor.value;
            Safe(t, ApplyWrite(t, s, op)) <==>
              && (s.pass.Filling? || s.mark.None? || s.mark.value - t.overlap <= c)
              && (Scanning(s.pass) ==>
                    var scan := s.pass.scan;
                    scan.next.None? || scan.next.value - t.overlap <= c || Owed(t, scan, id, r))
  {
    UnseenWriteIsSafeIff(t, s, op, id, r);
  }

  // ---------- a filter that changes its mind ----------

  /** An update that turns a rejected open row into an accepted one, without a new cursor and
      with the target not holding it as unsettled, is safe exactly when the row's cursor is
      still past the watermark, and during a scan past the maximum read before it too unless
      the scan has still to reach the row. */
  lemma LateAcceptanceIsSafeIff(t: Table, s: State, id: int, r: Row)
    requires Inv(t, s) && t.follow.OpenRow?
    requires id in s.source && !t.accepts(s.source[id]) && IsOpen(t, s.source[id])
    requires t.accepts(r) && r.key == s.source[id].key && r.cursor == s.source[id].cursor && r.cursor.Some?
    requires !Settled(t, s, r)
    ensures var c := r.cursor.value;
            Safe(t, ApplyWrite(t, s, Update(id, r))) <==>
              && (s.pass.Filling? || s.mark.None? || s.mark.value < c)
              && (Scanning(s.pass) ==>
                    var scan := s.pass.scan; scan.next.None? || scan.next.value < c || Owed(t, scan, id, r))
  {
    UnseenWriteIsSafeIff(t, s, Update(id, r), id, r);
  }

  // ---------- a composite key ----------

  /** An open_row table whose key has more than one column asks for no open keys, so a
      followed row at or below the watermark is not read again, settled or not. */
  lemma CompositeKeysAreNotRescanned(t: Table, s: State, keys: seq<Key>, e: Entry)
    requires Sound(t, s) && t.follow.OpenRow? && !t.singleKey && OpenListing(t, s.target, keys)
    requires e.id in s.source && s.source[e.id] == e.row && Tracked(t, e.row)
    ensures e in Queue(t, s.source, Selectors(t, s.mark, keys))
            <==> s.mark.None? || e.row.cursor.value > s.mark.value
  {
    var sels := Selectors(t, s.mark, keys);
    QueueHolds(t, s.source, sels, e);
    assert Chunks(keys) == [];
    assert sels == [AdvanceFrom(s.mark, false)];
    assert Selects(t, sels[0], e.row) <==> s.mark.None? || e.row.cursor.value > s.mark.value;
  }

  // ---------- more open keys than one pass asks for ----------

  ghost function SomeOf(pool: set<Key>, n: nat): (keys: seq<Key>)
    requires n <= |pool|
    ensures |keys| == n && forall i, j :: 0 <= i < j < n ==> keys[i] != keys[j]
    ensures forall k :: k in keys ==> k in pool
  {
    if n == 0 then [] else
      var k := Pick(pool);
      [k] + SomeOf(pool - {k}, n - 1)
  }

  /** What the target lists is a key it holds with no state or with one that is not terminal;
      in no particular order, so that it is bound to list one of them exactly when there are no
      more of them than the limit. */
  lemma OpenKeyIsListedIff(t: Table, s: State, k: Key)
    requires t.follow.OpenRow? && t.singleKey && k in s.target
    ensures s.target[k].state.None? || s.target[k].state.value !in t.terminal ==>
              ((forall keys :: OpenListing(t, s.target, keys) ==> k in keys)
               <==> |OpenKeys(t, s.target)| <= 5000)
    ensures forall keys :: OpenListing(t, s.target, keys) && k in keys ==>
              s.target[k].state.None? || s.target[k].state.value !in t.terminal
  {
    var pool := OpenKeys(t, s.target);
    if !TargetOpen(t, s, k) {
      assert k !in pool;
    } else if |pool| <= RESCAN_OPEN_LIMIT {
      forall keys | OpenListing(t, s.target, keys) ensures k in keys {
        ListingComplete(t, s, keys, k);
      }
    } else {
      assert k in pool;
      var keys := SomeOf(pool - {k}, RESCAN_OPEN_LIMIT);
      assert k !in keys;
      assert OpenListing(t, s.target, keys);
    }
  }
}
