/** Passes during which the daemon writes nothing and the process does not stop. */
module Quiet {
  import opened Ordered
  import opened Replication
  import opened Safety

  // ---------- paging a table that does not change ----------

  /** The rows a selector selects, in ascending rowid order. */
  ghost function Listing(t: Table, source: map<int, Row>, sel: Selector, after: int): (rows: seq<Entry>) {
    var ids := Sorted(Candidates(t, source, sel, after));
    SortedLists(Candidates(t, source, sel, after));
    seq(|ids|, i requires 0 <= i < |ids| => Entry(ids[i], source[ids[i]]))
  }

  /** The page loop: read a page past the last rowid seen until a page is empty or short. */
  ghost function Pages(t: Table, source: map<int, Row>, sel: Selector, after: int): seq<Entry>
    requires t.batch > 0
    decreases |Candidates(t, source, sel, after)|
  {
    var rows := PageRows(t, source, sel, after);
    if rows == [] then []
    else if |rows| < t.batch then rows
    else
      FewerCandidates(t, source, sel, after);
      rows + Pages(t, source, sel, rows[|rows| - 1].id)
  }

  lemma FewerCandidates(t: Table, source: map<int, Row>, sel: Selector, after: int)
    requires PageRows(t, source, sel, after) != []
    ensures var rows := PageRows(t, source, sel, after); var last := rows[|rows| - 1].id;
            && last > after
            && Candidates(t, source, sel, last) == (set x | x in Candidates(t, source, sel, after) && x > last)
            && |Candidates(t, source, sel, last)| < |Candidates(t, source, sel, after)|
  {
    var rows := PageRows(t, source, sel, after);
    var last := rows[|rows| - 1].id;
    PageEntry(t, source, sel, after, |rows| - 1);
    var big, small := Candidates(t, source, sel, after), Candidates(t, source, sel, last);
    assert last in big && last !in small;
    assert small <= big - {last};
    CardinalityBelow(small, big - {last});
  }

  lemma {:induction false} CardinalityBelow<T>(a: set<T>, b: set<T>)
    requires a <= b
    ensures |a| <= |b|
  {
    if a != {} {
      var x := Pick(a);
      CardinalityBelow(a - {x}, b - {x});
    }
  }

  /** For any positive batch size the pages, short last page or exact multiple alike, are
      exactly the selected rows, each once, in rowid order. */
  lemma {:induction false} PagesAreTheListing(t: Table, source: map<int, Row>, sel: Selector, after: int)
    requires t.batch > 0
    ensures Pages(t, source, sel, after) == Listing(t, source, sel, after)
    decreases |Candidates(t, source, sel, after)|
  {
    hide Sorted, IsMin;
    var pool := Candidates(t, source, sel, after);
    var rows := PageRows(t, source, sel, after);
    if rows == [] {
      assert pool == {};
    } else if |rows| < t.batch {
      AllOnOnePage(pool, t.batch);
    } else {
      var last := rows[|rows| - 1].id;
      FewerCandidates(t, source, sel, after);
      PagesAreTheListing(t, source, sel, last);
      PageThenRest(pool, t.batch);
      ListingSplits(t, source, sel, after);
    }
  }

  lemma ListingSplits(t: Table, source: map<int, Row>, sel: Selector, after: int)
    requires PageRows(t, source, sel, after) != []
    requires var rows := PageRows(t, source, sel, after);
             Sorted(Candidates(t, source, sel, after))
             == PageIds(t, source, sel, after) + Sorted(Candidates(t, source, sel, rows[|rows| - 1].id))
    ensures var rows := PageRows(t, source, sel, after);
            Listing(t, source, sel, after) == rows + Listing(t, source, sel, rows[|rows| - 1].id)
  {
  }

  /** A listing holds exactly the selected rows. */
  lemma ListingHolds(t: Table, source: map<int, Row>, sel: Selector, after: int)
    ensures var rows := Listing(t, source, sel, after);
            && |rows| == |Candidates(t, source, sel, after)|
            && (forall i, j :: 0 <= i < j < |rows| ==> rows[i].id < rows[j].id)
            && (forall i :: 0 <= i < |rows| ==>
                  rows[i].id in Candidates(t, source, sel, after) && rows[i].row == source[rows[i].id])
            && (forall id :: id in Candidates(t, source, sel, after) ==> Entry(id, source[id]) in rows)
  {
    var pool := Candidates(t, source, sel, after);
    SortedLists(pool);
    ListsCount(Sorted(pool), pool);
    var ids, rows := Sorted(pool), Listing(t, source, sel, after);
    forall id | id in pool ensures Entry(id, source[id]) in rows {
      var i :| 0 <= i < |ids| && ids[i] == id;
      assert rows[i] == Entry(id, source[id]);
    }
  }

  // ---------- what remains of a scan ----------

  ghost function Queue(t: Table, source: map<int, Row>, sels: seq<Selector>): seq<Entry>
    requires t.batch > 0
  {
    if sels == [] then [] else Pages(t, source, sels[0], 0) + Queue(t, source, sels[1..])
  }

  /** Everything the rest of the scan will deliver if the source stays as it is. */
  ghost function Work(t: Table, source: map<int, Row>, scan: Scan): seq<Entry>
    requires t.batch > 0 && (scan.page.Some? ==> scan.selectors != [])
  {
    if scan.selectors == [] then []
    else if scan.page.None? then
      Pages(t, source, scan.selectors[0], scan.after) + Queue(t, source, scan.selectors[1..])
    else
      scan.page.value.rows
      + (if scan.page.value.full then Pages(t, source, scan.selectors[0], scan.after) else [])
      + Queue(t, source, scan.selectors[1..])
  }

  lemma MoveOnWork(t: Table, source: map<int, Row>, scan: Scan)
    requires t.batch > 0 && scan.selectors != []
    ensures Work(t, source, NextSelector(scan)) == Queue(t, source, scan.selectors[1..])
  {
  }

  lemma ReadKeepsWork(t: Table, source: map<int, Row>, scan: Scan)
    requires t.batch > 0 && scan.selectors != [] && scan.page.None?
    ensures Work(t, source, AfterRead(t, source, scan)) == Work(t, source, scan)
  {
    var rows := PageRows(t, source, scan.selectors[0], scan.after);
    MoveOnWork(t, source, scan);
    if rows == [] {
      assert Pages(t, source, scan.selectors[0], scan.after) == [];
    } else if |rows| == t.batch {
      var last := rows[|rows| - 1].id;
      assert Pages(t, source, scan.selectors[0], scan.after) == rows + Pages(t, source, scan.selectors[0], last);
    } else {
      assert Pages(t, source, scan.selectors[0], scan.after) == rows + [];
    }
  }

  lemma PageKeepsWork(t: Table, source: map<int, Row>, scan: Scan)
    requires t.batch > 0 && scan.selectors != [] && scan.page.Some? && scan.page.value.rows == []
    ensures Work(t, source, AfterPage(scan)) == Work(t, source, scan)
  {
    hide Pages, Queue;
    MoveOnWork(t, source, scan);
  }

  lemma DeliverTakesWork(t: Table, source: map<int, Row>, scan: Scan)
    requires t.batch > 0 && scan.selectors != [] && scan.page.Some? && scan.page.value.rows != []
    ensures Work(t, source, scan) == [scan.page.value.rows[0]] + Work(t, source, Rest(scan))
  {
    hide Pages, Queue;
    var rows := scan.page.value.rows;
    assert rows == [rows[0]] + rows[1..];
  }

  // ---------- deliveries of a run ----------

  datatype Delivery = Delivery(entry: Entry, lands: bool)

  ghost function Delivered(t: Table, s: State, es: seq<Event>): seq<Delivery>
    requires LegalRun(t, s, es)
    decreases |es|
  {
    if es == [] then []
    else
      (if es[0].Deliver? then [Delivery(s.pass.scan.page.value.rows[0], es[0].lands)] else [])
      + Delivered(t, Step(t, s, es[0]), es[1..])
  }

  function Entries(ds: seq<Delivery>): seq<Entry> {
    if ds == [] then [] else [ds[0].entry] + Entries(ds[1..])
  }

  function LandAll(s: State, ds: seq<Delivery>): State
    decreases |ds|
  {
    if ds == [] then s else LandAll(Land(s, ds[0].entry.row, ds[0].lands), ds[1..])
  }

  predicate ScanEvent(e: Event) {
    e.ReadPage? || e.Deliver? || e.EndPage?
  }

  predicate ScanEvents(es: seq<Event>) {
    forall i :: 0 <= i < |es| ==> ScanEvent(es[i])
  }

  predicate SameData(a: State, b: State) {
    a.source == b.source && a.target == b.target && a.quarantine == b.quarantine
  }

  lemma {:induction false} LandAllStores(a: State, b: State, ds: seq<Delivery>)
    requires SameData(a, b)
    ensures SameData(LandAll(a, ds), LandAll(b, ds))
    ensures LandAll(a, ds).source == a.source
    decreases |ds|
  {
    if ds != [] {
      LandAllStores(Land(a, ds[0].entry.row, ds[0].lands), Land(b, ds[0].entry.row, ds[0].lands), ds[1..]);
    }
  }

  lemma AfterReadShape(t: Table, source: map<int, Row>, scan: Scan)
    requires scan.selectors != []
    ensures var after := AfterRead(t, source, scan);
            after.next == scan.next && (after.page.Some? ==> after.selectors != [])
  {
  }

  /** What a stretch of scanning delivers is exactly the work it removes, and the stores
      change by those deliveries alone. */
  lemma {:induction false} ScanDelivers(t: Table, s: State, es: seq<Event>)
    requires t.batch > 0 && Scanning(s.pass) && (s.pass.scan.page.Some? ==> s.pass.scan.selectors != [])
    requires LegalRun(t, s, es) && ScanEvents(es)
    ensures var s', ds := Run(t, s, es), Delivered(t, s, es);
            && s'.pass.Syncing? == s.pass.Syncing? && s'.pass.Filling? == s.pass.Filling?
            && s'.pass.scan.next == s.pass.scan.next
            && (s'.pass.scan.page.Some? ==> s'.pass.scan.selectors != [])
            && Work(t, s.source, s.pass.scan) == Entries(ds) + Work(t, s.source, s'.pass.scan)
            && SameData(s', LandAll(s, ds))
    decreases |es|
  {
    hide Work, PageRows, AfterRead;
    if es != [] {
      var e, s1 := es[0], Step(t, s, es[0]);
      assert ScanEvent(e);
      if e.ReadPage? { AfterReadShape(t, s.source, s.pass.scan); }
      ScanDelivers(t, s1, es[1..]);
      match e {
        case ReadPage =>
          ReadKeepsWork(t, s.source, s.pass.scan);
          assert s1.pass.scan == AfterRead(t, s.source, s.pass.scan);
          assert Delivered(t, s, es) == Delivered(t, s1, es[1..]);
          LandAllStores(s1, s, Delivered(t, s1, es[1..]));
        case EndPage =>
          PageKeepsWork(t, s.source, s.pass.scan);
          assert Delivered(t, s, es) == Delivered(t, s1, es[1..]);
          LandAllStores(s1, s, Delivered(t, s1, es[1..]));
        case Deliver(lands) =>
          var head := s.pass.scan.page.value.rows[0];
          DeliverTakesWork(t, s.source, s.pass.scan);
          assert s1.pass.scan == Rest(s.pass.scan);
          LandAllStores(s1, Land(s, head.row, lands), Delivered(t, s1, es[1..]));
          var ds := Delivered(t, s, es);
          assert ds == [Delivery(head, lands)] + Delivered(t, s1, es[1..]);
          assert ds[1..] == Delivered(t, s1, es[1..]);
      }
    }
  }

  // ---------- landing current rows ----------

  predicate Current(source: map<int, Row>, e: Entry) {
    e.id in source && source[e.id] == e.row
  }

  ghost predicate AllCurrent(source: map<int, Row>, es: seq<Entry>) {
    forall i :: 0 <= i < |es| ==> Current(source, es[i])
  }

  lemma LandKeepsLanded(t: Table, s: State, e: Entry, lands: bool, id: int)
    requires SourceOk(t, s) && Current(s.source, e) && id in s.source
    requires Landed(s, s.source[id]) || e.id == id
    ensures Landed(Land(s, e.row, lands), s.source[id])
  {
    var s' := Land(s, e.row, lands);
    assert forall i :: 0 <= i < |s.quarantine| ==> s'.quarantine[i] == s.quarantine[i];
    if !lands {
      assert s'.quarantine[|s.quarantine|] == e.row;
    }
    if s.source[id] in s.quarantine {
      var i :| 0 <= i < |s.quarantine| && s.quarantine[i] == s.source[id];
      assert s'.quarantine[i] == s.source[id];
    }
  }

  lemma {:induction false} LandAllLands(t: Table, s: State, ds: seq<Delivery>, id: int)
    requires SourceOk(t, s) && AllCurrent(s.source, Entries(ds)) && id in s.source
    requires Landed(s, s.source[id]) || Entry(id, s.source[id]) in Entries(ds)
    ensures Landed(LandAll(s, ds), s.source[id])
    decreases |ds|
  {
    if ds != [] {
      var e, s1 := ds[0].entry, Land(s, ds[0].entry.row, ds[0].lands);
      assert Entries(ds)[0] == e;
      assert Entries(ds)[1..] == Entries(ds[1..]);
      assert forall i :: 0 <= i < |Entries(ds[1..])| ==> Entries(ds[1..])[i] == Entries(ds)[i + 1];
      if Landed(s, s.source[id]) || e.id == id {
        LandKeepsLanded(t, s, e, ds[0].lands, id);
      }
      LandAllLands(t, s1, ds[1..], id);
    }
  }

  /** Rows whose key is never delivered are not touched. */
  lemma {:induction false} LandAllElsewhere(s: State, ds: seq<Delivery>, k: Key)
    requires forall i :: 0 <= i < |ds| ==> ds[i].entry.row.key != k
    ensures k in LandAll(s, ds).target <==> k in s.target
    ensures k in s.target ==> LandAll(s, ds).target[k] == s.target[k]
    decreases |ds|
  {
    if ds != [] {
      LandAllElsewhere(Land(s, ds[0].entry.row, ds[0].lands), ds[1..], k);
    }
  }

  // ---------- what the work consists of ----------

  lemma {:induction false} QueueHolds(t: Table, source: map<int, Row>, sels: seq<Selector>, e: Entry)
    requires t.batch > 0 && (forall id :: id in source ==> id > 0)
    ensures e in Queue(t, source, sels) <==>
              && Current(source, e) && t.accepts(e.row)
              && exists j :: 0 <= j < |sels| && Selects(t, sels[j], e.row)
  {
    if sels != [] {
      QueueHolds(t, source, sels[1..], e);
      PagesAreTheListing(t, source, sels[0], 0);
      ListingHolds(t, source, sels[0], 0);
      var rows := Pages(t, source, sels[0], 0);
      assert e in rows <==> e.id in Candidates(t, source, sels[0], 0) && e.row == source[e.id];
      if j :| 0 <= j < |sels| && Selects(t, sels[j], e.row) {
        assert j == 0 || sels[1..][j - 1] == sels[j];
      }
      if j :| 0 <= j < |sels| - 1 && Selects(t, sels[1..][j], e.row) {
        assert sels[j + 1] == sels[1..][j];
      }
    }
  }
}
