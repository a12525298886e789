/** A pass over a quiet source brings the target up to date, a second one changes nothing,
    and a backfill and a first sync pass agree. */
module Convergence {
  import opened Prelude
  import opened Chunking
  import opened Replication
  import opened Safety
  import opened Quiet

  // ---------- the shape of a quiet pass ----------

  function SyncRun(keys: seq<Key>, es: seq<Event>): seq<Event> {
    [BeginSync, ReadMax, ReadSelectors(keys)] + es + [Finish]
  }

  function FillRun(es: seq<Event>): seq<Event> {
    [BeginBackfill] + es + [Finish]
  }

  /** A sync pass, from start to finish, that nothing interrupts or interleaves with. */
  ghost predicate QuietSync(t: Table, s: State, keys: seq<Key>, es: seq<Event>) {
    s.pass.Idle? && ScanEvents(es) && LegalRun(t, s, SyncRun(keys, es))
  }

  ghost predicate QuietFill(t: Table, s: State, es: seq<Event>) {
    s.pass.Idle? && ScanEvents(es) && LegalRun(t, s, FillRun(es))
  }

  ghost function NextMark(t: Table, s: State): Option<int> {
    if HasCursor(t) then MaxCursor(t, s.source) else s.mark
  }

  lemma {:induction false} DeliveredAppend(t: Table, s: State, a: seq<Event>, b: seq<Event>)
    requires LegalRun(t, s, a) && LegalRun(t, s, a + b) && LegalRun(t, Run(t, s, a), b)
    ensures Delivered(t, s, a + b) == Delivered(t, s, a) + Delivered(t, Run(t, s, a), b)
    decreases |a|
  {
    if a == [] {
      assert a + b == b;
    } else {
      assert (a + b)[0] == a[0] && (a + b)[1..] == a[1..] + b;
      DeliveredAppend(t, Step(t, s, a[0]), a[1..], b);
    }
  }

  lemma SplitRun(t: Table, s: State, e: Event, rest: seq<Event>)
    requires LegalRun(t, s, [e] + rest)
    ensures Legal(t, s, e) && LegalRun(t, Step(t, s, e), rest)
    ensures Run(t, s, [e] + rest) == Run(t, Step(t, s, e), rest)
    ensures !e.Deliver? ==> Delivered(t, s, [e] + rest) == Delivered(t, Step(t, s, e), rest)
  {
    assert ([e] + rest)[0] == e && ([e] + rest)[1..] == rest;
  }

  /** A scan run to its end delivers its whole work. */
  lemma ScanToEnd(t: Table, s: State, es: seq<Event>)
    requires t.batch > 0 && Scanning(s.pass) && (s.pass.scan.page.Some? ==> s.pass.scan.selectors != [])
    requires ScanEvents(es) && LegalRun(t, s, es + [Finish])
    ensures LegalRun(t, s, es) && Legal(t, Run(t, s, es), Finish)
    ensures Run(t, s, es + [Finish]) == Step(t, Run(t, s, es), Finish)
    ensures Run(t, s, es).pass.scan.next == s.pass.scan.next
    ensures Run(t, s, es).pass.Filling? == s.pass.Filling?
    ensures Delivered(t, s, es + [Finish]) == Delivered(t, s, es)
    ensures Entries(Delivered(t, s, es)) == Work(t, s.source, s.pass.scan)
    ensures SameData(Run(t, s, es), LandAll(s, Delivered(t, s, es)))
  {
    LegalPrefix(t, s, es, [Finish]);
    RunAppend(t, s, es, [Finish]);
    DeliveredAppend(t, s, es, [Finish]);
    var m := Run(t, s, es);
    assert [Finish][1..] == [];
    assert Legal(t, m, Finish);
    ScanDelivers(t, s, es);
    assert Run(t, m, [Finish]) == Step(t, m, Finish);
    assert Work(t, s.source, m.pass.scan) == [];
    var ds := Delivered(t, s, es);
    assert Entries(ds) + [] == Entries(ds);
    assert ds + [] == ds;
  }

  lemma {:induction false} LegalPrefix(t: Table, s: State, a: seq<Event>, b: seq<Event>)
    requires LegalRun(t, s, a + b)
    ensures LegalRun(t, s, a)
    decreases |a|
  {
    if a != [] {
      assert (a + b)[0] == a[0] && (a + b)[1..] == a[1..] + b;
      LegalPrefix(t, Step(t, s, a[0]), a[1..], b);
    }
  }

  /** The state in which a sync pass has read its watermarks and built its selectors. */
  ghost function Opened(t: Table, s: State, keys: seq<Key>): State {
    s.(pass := Syncing(s.mark, Scan(NextMark(t, s), Selectors(t, s.mark, keys), 0, None)))
  }

  lemma SyncOpens(t: Table, s: State, keys: seq<Key>, rest: seq<Event>)
    requires s.pass.Idle? && LegalRun(t, s, [BeginSync, ReadMax, ReadSelectors(keys)] + rest)
    ensures OpenListing(t, s.target, keys)
    ensures LegalRun(t, Opened(t, s, keys), rest)
    ensures Run(t, s, [BeginSync, ReadMax, ReadSelectors(keys)] + rest) == Run(t, Opened(t, s, keys), rest)
    ensures Delivered(t, s, [BeginSync, ReadMax, ReadSelectors(keys)] + rest)
            == Delivered(t, Opened(t, s, keys), rest)
  {
    var tail1 := [ReadSelectors(keys)] + rest;
    var tail2 := [ReadMax] + tail1;
    assert [BeginSync, ReadMax, ReadSelectors(keys)] + rest == [BeginSync] + tail2;
    SplitRun(t, s, BeginSync, tail2);
    var s1 := Step(t, s, BeginSync);
    SplitRun(t, s1, ReadMax, tail1);
    var s2 := Step(t, s1, ReadMax);
    SplitRun(t, s2, ReadSelectors(keys), rest);
  }

  lemma SyncPassDelivers(t: Table, s: State, keys: seq<Key>, es: seq<Event>)
    requires t.batch > 0 && QuietSync(t, s, keys, es)
    ensures OpenListing(t, s.target, keys)
    ensures var run := SyncRun(keys, es); var s', ds := Run(t, s, run), Delivered(t, s, run);
            && s'.pass.Idle? && s'.mark == NextMark(t, s)
            && Entries(ds) == Queue(t, s.source, Selectors(t, s.mark, keys))
            && SameData(s', LandAll(s, ds))
  {
    var tail := es + [Finish];
    assert SyncRun(keys, es) == [BeginSync, ReadMax, ReadSelectors(keys)] + tail;
    SyncOpens(t, s, keys, tail);
    var s0 := Opened(t, s, keys);
    ScanToEnd(t, s0, es);
    assert Work(t, s.source, s0.pass.scan) == Queue(t, s.source, Selectors(t, s.mark, keys));
    LandAllStores(s0, s, Delivered(t, s0, es));
  }

  lemma FillPassDelivers(t: Table, s: State, es: seq<Event>)
    requires t.batch > 0 && QuietFill(t, s, es)
    ensures var run := FillRun(es); var s', ds := Run(t, s, run), Delivered(t, s, run);
            && s'.pass.Idle?
            && s'.mark == (if ds != [] then (if HasCursor(t) then MaxCursor(t, s.source) else None) else s.mark)
            && Entries(ds) == Pages(t, s.source, All, 0)
            && SameData(s', LandAll(s, ds))
  {
    var tail := es + [Finish];
    assert FillRun(es) == [BeginBackfill] + tail;
    SplitRun(t, s, BeginBackfill, tail);
    var s1 := Step(t, s, BeginBackfill);
    ScanToEnd(t, s1, es);
    assert Queue(t, s.source, [All][1..]) == [];
    LandAllStores(s1, s, Delivered(t, s1, es));
    FillMark(t, s1, es);
  }

  /** A backfill writes its watermark exactly when it has delivered a row. */
  lemma {:induction false} FillMark(t: Table, s: State, es: seq<Event>)
    requires s.pass.Filling? && ScanEvents(es) && LegalRun(t, s, es)
    ensures var s', ds := Run(t, s, es), Delivered(t, s, es);
            s'.pass.Filling? && s'.pass.scan.next == s.pass.scan.next
    ensures var s', ds := Run(t, s, es), Delivered(t, s, es);
            s'.pass.scan.page.None? ==>
              s'.mark == (if s.pass.scan.page.Some? || ds != [] then s.pass.scan.next else s.mark)
    decreases |es|
  {
    if es != [] {
      assert ScanEvent(es[0]);
      FillMark(t, Step(t, s, es[0]), es[1..]);
    }
  }

  // ---------- the open keys ----------

  lemma {:induction false} DistinctCount(keys: seq<Key>, pool: set<Key>)
    requires forall i, j :: 0 <= i < j < |keys| ==> keys[i] != keys[j]
    requires forall i :: 0 <= i < |keys| ==> keys[i] in pool
    ensures |keys| <= |pool|
  {
    if keys != [] {
      var rest := keys[1..];
      assert forall i :: 0 <= i < |rest| ==> rest[i] == keys[i + 1];
      DistinctCount(rest, pool - {keys[0]});
    }
  }

  /** Up to the limit the rescan asks for every open key. */
  lemma ListingComplete(t: Table, s: State, keys: seq<Key>, k: Key)
    requires OpenListing(t, s.target, keys) && t.follow.OpenRow? && t.singleKey
    requires |OpenKeys(t, s.target)| <= RESCAN_OPEN_LIMIT && TargetOpen(t, s, k)
    ensures k in keys
  {
    assert k in OpenKeys(t, s.target);
    if k !in keys {
      assert forall i :: 0 <= i < |keys| ==> keys[i] in keys;
      DistinctCount(keys, OpenKeys(t, s.target) - {k});
    }
  }

  /** The chunks select exactly the listed keys. */
  lemma ChunksSelect(t: Table, keys: seq<Key>, r: Row)
    ensures (exists j :: 0 <= j < |Chunks(keys)| && Selects(t, Chunks(keys)[j], r)) <==> r.key in keys
  {
    InSomeChunk(keys, r.key);
    forall j | 0 <= j < |Chunks(keys)| ensures Selects(t, Chunks(keys)[j], r) <==> r.key in Cut(keys)[j] { }
  }

  lemma OpenKeySelected(t: Table, mark: Option<int>, keys: seq<Key>, r: Row)
    requires t.follow.OpenRow? && r.key in keys
    ensures exists j :: 0 <= j < |Selectors(t, mark, keys)| && Selects(t, Selectors(t, mark, keys)[j], r)
  {
    ChunksSelect(t, keys, r);
    var out := Chunks(keys);
    var j :| 0 <= j < |out| && Selects(t, out[j], r);
    assert Selectors(t, mark, keys)[j + 1] == out[j];
  }

  // ---------- convergence ----------

  lemma QueueCurrent(t: Table, source: map<int, Row>, sels: seq<Selector>)
    requires t.batch > 0 && (forall id :: id in source ==> id > 0)
    ensures AllCurrent(source, Queue(t, source, sels))
  {
    var q := Queue(t, source, sels);
    forall i | 0 <= i < |q| ensures Current(source, q[i]) {
      QueueHolds(t, source, sels, q[i]);
      assert q[i] in q;
    }
  }

  /** Rows the next pass is bound to find: followed rows, every row of a table without a
      cursor or without a watermark, and rows the target holds as unsettled. */
  ghost predicate InReach(t: Table, s: State, r: Row) {
    || Tracked(t, r)
    || !HasCursor(t)
    || s.mark.None?
    || (t.follow.OpenRow? && TargetOpen(t, s, r.key))
  }

  /** What a pass does not read has already landed, or is an open_row key quarantined before. */
  lemma UnreadHasLanded(t: Table, s: State, keys: seq<Key>, id: int)
    requires Inv(t, s) && s.pass.Idle? && OpenListing(t, s.target, keys)
    requires t.follow.OpenRow? ==> t.singleKey && |OpenKeys(t, s.target)| <= RESCAN_OPEN_LIMIT
    requires id in s.source && t.accepts(s.source[id]) && InReach(t, s, s.source[id])
    ensures || Entry(id, s.source[id]) in Queue(t, s.source, Selectors(t, s.mark, keys))
            || Landed(s, s.source[id])
            || (t.follow.OpenRow? && EverQuarantined(s, s.source[id].key))
  {
    var r := s.source[id];
    var sels := Selectors(t, s.mark, keys);
    QueueHolds(t, s.source, sels, Entry(id, r));
    if s.mark.None? {
      assert Selects(t, sels[0], r);
    } else if t.follow.OpenRow? && TargetOpen(t, s, r.key) {
      ListingComplete(t, s, keys, r.key);
      OpenKeySelected(t, s.mark, keys, r);
    } else {
      assert Covered(t, s, s.mark, r);
      if Ahead(t, s.mark, r) {
        assert Selects(t, sels[0], r);
      }
    }
  }

  /** After a quiet pass every accepted row in reach has its current version in the target
      or in quarantine; for open_row, apart from keys quarantined before the pass. */
  lemma QuietPassConverges(t: Table, s: State, keys: seq<Key>, es: seq<Event>, id: int)
    requires Inv(t, s) && QuietSync(t, s, keys, es)
    requires t.follow.OpenRow? ==> t.singleKey && |OpenKeys(t, s.target)| <= RESCAN_OPEN_LIMIT
    requires id in s.source && t.accepts(s.source[id]) && InReach(t, s, s.source[id])
    ensures var s' := Run(t, s, SyncRun(keys, es)); var r := s.source[id];
            s'.source == s.source
            && (Landed(s', r) || (t.follow.OpenRow? && EverQuarantined(s, r.key)))
  {
    SyncPassDelivers(t, s, keys, es);
    var ds := Delivered(t, s, SyncRun(keys, es));
    QueueCurrent(t, s.source, Selectors(t, s.mark, keys));
    LandAllStores(s, s, ds);
    UnreadHasLanded(t, s, keys, id);
    if Entry(id, s.source[id]) in Entries(ds) || Landed(s, s.source[id]) {
      LandAllLands(t, s, ds, id);
    }
  }

  lemma {:induction false} EntriesAt(ds: seq<Delivery>)
    ensures |Entries(ds)| == |ds|
    ensures forall i :: 0 <= i < |ds| ==> Entries(ds)[i] == ds[i].entry
  {
    if ds != [] {
      EntriesAt(ds[1..]);
    }
  }

  /** Target rows outside the selection are untouched, whether or not the source still holds
      and accepts their keys. */
  lemma QuietPassTouchesOnlySelected(t: Table, s: State, keys: seq<Key>, es: seq<Event>, k: Key)
    requires Sound(t, s) && QuietSync(t, s, keys, es)
    requires forall id, j ::
      id in s.source && t.accepts(s.source[id])
      && 0 <= j < |Selectors(t, s.mark, keys)| && Selects(t, Selectors(t, s.mark, keys)[j], s.source[id])
      ==> s.source[id].key != k
    ensures var s' := Run(t, s, SyncRun(keys, es));
            && (k in s'.target <==> k in s.target)
            && (k in s.target ==> s'.target[k] == s.target[k])
  {
    SyncPassDelivers(t, s, keys, es);
    var ds := Delivered(t, s, SyncRun(keys, es));
    EntriesAt(ds);
    forall i | 0 <= i < |ds| ensures ds[i].entry.row.key != k {
      QueueHolds(t, s.source, Selectors(t, s.mark, keys), ds[i].entry);
      assert Entries(ds)[i] in Entries(ds);
    }
    LandAllElsewhere(s, ds, k);
  }

  // ---------- a second pass ----------

  /** The target's verdict on a row depends on the row alone. */
  ghost predicate Verdicts(refuses: Row -> bool, ds: seq<Delivery>) {
    forall i :: 0 <= i < |ds| ==> ds[i].lands == !refuses(ds[i].entry.row)
  }

  ghost predicate FiledRightly(refuses: Row -> bool, s: State) {
    forall i :: 0 <= i < |s.quarantine| ==> refuses(s.quarantine[i])
  }

  predicate Held(s: State, r: Row) {
    r.key in s.target && s.target[r.key] == r
  }

  lemma {:induction false} LandAllFiles(refuses: Row -> bool, s: State, ds: seq<Delivery>)
    requires FiledRightly(refuses, s) && Verdicts(refuses, ds)
    ensures FiledRightly(refuses, LandAll(s, ds))
    decreases |ds|
  {
    if ds != [] {
      LandAllFiles(refuses, Land(s, ds[0].entry.row, ds[0].lands), ds[1..]);
    }
  }

  lemma {:induction false} LandAllChangesNothing(s: State, ds: seq<Delivery>)
    requires forall i :: 0 <= i < |ds| && ds[i].lands ==> Held(s, ds[i].entry.row)
    ensures LandAll(s, ds).target == s.target
    decreases |ds|
  {
    if ds != [] {
      var s1 := Land(s, ds[0].entry.row, ds[0].lands);
      assert s1.target == s.target;
      LandAllChangesNothing(s1, ds[1..]);
    }
  }

  /** A current row the target accepts is held once it has been delivered. */
  lemma {:induction false} LandAllHolds(t: Table, refuses: Row -> bool, s: State, ds: seq<Delivery>, id: int)
    requires SourceOk(t, s) && AllCurrent(s.source, Entries(ds)) && Verdicts(refuses, ds)
    requires id in s.source && !refuses(s.source[id])
    requires Held(s, s.source[id]) || Entry(id, s.source[id]) in Entries(ds)
    ensures Held(LandAll(s, ds), s.source[id])
    decreases |ds|
  {
    if ds != [] {
      var e, s1 := ds[0].entry, Land(s, ds[0].entry.row, ds[0].lands);
      assert Entries(ds)[0] == e;
      assert Entries(ds)[1..] == Entries(ds[1..]);
      assert forall i :: 0 <= i < |Entries(ds[1..])| ==> Entries(ds[1..])[i] == Entries(ds)[i + 1];
      LandAllHolds(t, refuses, s1, ds[1..], id);
    }
  }

  /** A row the second pass reads was read by the first or had already landed, unless the
      first pass found a watermark and left none. */
  lemma RereadHasLanded(t: Table, s: State, keys: seq<Key>, es: seq<Event>, keys': seq<Key>, e: Entry)
    requires Inv(t, s) && QuietSync(t, s, keys, es)
    requires t.follow.OpenRow? ==> t.singleKey && |OpenKeys(t, s.target)| <= RESCAN_OPEN_LIMIT
    requires var s' := Run(t, s, SyncRun(keys, es));
             && OpenListing(t, s'.target, keys')
             && (s'.mark.Some? || s.mark.None?)
             && e in Queue(t, s.source, Selectors(t, s'.mark, keys'))
    ensures Landed(Run(t, s, SyncRun(keys, es)), e.row)
  {
    var s', ds := Run(t, s, SyncRun(keys, es)), Delivered(t, s, SyncRun(keys, es));
    SyncPassDelivers(t, s, keys, es);
    QueueHolds(t, s.source, Selectors(t, s'.mark, keys'), e);
    QueueCurrent(t, s.source, Selectors(t, s.mark, keys));
    LandAllStores(s, s, ds);
    if !(e in Entries(ds)) && !Landed(s, e.row) {
      SecondPassSkips(t, s, keys, es, keys', e);
      assert false;
    }
    LandAllLands(t, s, ds, e.id);
  }

  /** The advance selector of the second pass skips what the first one skipped. */
  lemma HeadSkips(t: Table, s: State, keys: seq<Key>, m': int, keys': seq<Key>, r: Row)
    requires HasCursor(t) && s.mark.Some? && t.accepts(r)
    requires r.cursor.Some? ==> r.cursor.value <= m' && Covered(t, s, s.mark, r)
    requires !Landed(s, r) && !Selects(t, Selectors(t, s.mark, keys)[0], r)
    ensures !Selects(t, Selectors(t, Some(m'), keys')[0], r)
  {
  }

  /** An open_row key the first pass neither rescanned nor delivered is not open after it. */
  lemma RescanSkips(t: Table, s: State, keys: seq<Key>, ds: seq<Delivery>, keys': seq<Key>, m': Option<int>, e: Entry)
    requires SourceOk(t, s) && AllCurrent(s.source, Entries(ds)) && Current(s.source, e) && e !in Entries(ds)
    requires t.follow.OpenRow? && t.singleKey && |OpenKeys(t, s.target)| <= RESCAN_OPEN_LIMIT
    requires OpenListing(t, s.target, keys) && OpenListing(t, LandAll(s, ds).target, keys')
    requires e.row.key !in keys
    ensures forall j :: 1 <= j < |Selectors(t, m', keys')| ==> !Selects(t, Selectors(t, m', keys')[j], e.row)
  {
    if TargetOpen(t, s, e.row.key) {
      ListingComplete(t, s, keys, e.row.key);
      assert false;
    }
    KeyNotDelivered(t, s, ds, e);
    assert e.row.key !in keys';
    ChunksSelect(t, keys', e.row);
    assert Selectors(t, m', keys')[1..] == Chunks(keys');
  }

  /** The same, contrapositively: what the first pass neither read nor found landed, the
      second does not read. */
  lemma SecondPassSkips(t: Table, s: State, keys: seq<Key>, es: seq<Event>, keys': seq<Key>, e: Entry)
    requires Inv(t, s) && QuietSync(t, s, keys, es)
    requires t.follow.OpenRow? ==> t.singleKey && |OpenKeys(t, s.target)| <= RESCAN_OPEN_LIMIT
    requires Current(s.source, e) && t.accepts(e.row)
    requires e !in Entries(Delivered(t, s, SyncRun(keys, es))) && !Landed(s, e.row)
    requires var s' := Run(t, s, SyncRun(keys, es));
             OpenListing(t, s'.target, keys') && (s'.mark.Some? || s.mark.None?)
    ensures var s' := Run(t, s, SyncRun(keys, es));
            e !in Queue(t, s.source, Selectors(t, s'.mark, keys'))
  {
    var s', ds := Run(t, s, SyncRun(keys, es)), Delivered(t, s, SyncRun(keys, es));
    SyncPassDelivers(t, s, keys, es);
    QueueCurrent(t, s.source, Selectors(t, s.mark, keys));
    var sels, sels' := Selectors(t, s.mark, keys), Selectors(t, s'.mark, keys');
    QueueHolds(t, s.source, sels, e);
    assert !Selects(t, sels[0], e.row);
    assert s.mark.Some? && HasCursor(t) && s'.mark == MaxCursor(t, s.source);
    if e.row.cursor.Some? {
      assert e.row.cursor.value in AcceptedCursors(t, s.source);
      assert Covered(t, s, s.mark, s.source[e.id]);
    }
    HeadSkips(t, s, keys, s'.mark.value, keys', e.row);
    if t.follow.OpenRow? {
      if e.row.key in keys {
        OpenKeySelected(t, s.mark, keys, e.row);
        assert false;
      }
      RescanSkips(t, s, keys, ds, keys', s'.mark, e);
    }
    QueueHolds(t, s.source, sels', e);
  }

  lemma KeyNotDelivered(t: Table, s: State, ds: seq<Delivery>, e: Entry)
    requires SourceOk(t, s) && AllCurrent(s.source, Entries(ds)) && Current(s.source, e) && e !in Entries(ds)
    ensures var s' := LandAll(s, ds);
            (e.row.key in s'.target <==> e.row.key in s.target)
            && (e.row.key in s.target ==> s'.target[e.row.key] == s.target[e.row.key])
  {
    EntriesAt(ds);
    forall i | 0 <= i < |ds| ensures ds[i].entry.row.key != e.row.key {
      assert Current(s.source, Entries(ds)[i]);
      assert Entries(ds)[i] in Entries(ds);
    }
    LandAllElsewhere(s, ds, e.row.key);
  }

  /** One pass, seen through a verdict function. */
  ghost predicate JudgedSync(t: Table, refuses: Row -> bool, s: State, keys: seq<Key>, es: seq<Event>) {
    QuietSync(t, s, keys, es) && Verdicts(refuses, Delivered(t, s, SyncRun(keys, es)))
  }

  lemma PassFiles(t: Table, refuses: Row -> bool, s: State, keys: seq<Key>, es: seq<Event>)
    requires t.batch > 0 && JudgedSync(t, refuses, s, keys, es) && FiledRightly(refuses, s)
    ensures var s' := Run(t, s, SyncRun(keys, es)); FiledRightly(refuses, s') && s'.source == s.source
  {
    var ds := Delivered(t, s, SyncRun(keys, es));
    SyncPassDelivers(t, s, keys, es);
    LandAllStores(s, s, ds);
    LandAllFiles(refuses, s, ds);
  }

  lemma RereadChangesNothing(t: Table, refuses: Row -> bool, s: State,
                             keys: seq<Key>, es: seq<Event>, keys': seq<Key>, ds': seq<Delivery>)
    requires Inv(t, s) && FiledRightly(refuses, s) && JudgedSync(t, refuses, s, keys, es)
    requires t.follow.OpenRow? ==> t.singleKey && |OpenKeys(t, s.target)| <= RESCAN_OPEN_LIMIT
    requires Verdicts(refuses, ds')
    requires var s' := Run(t, s, SyncRun(keys, es));
             && OpenListing(t, s'.target, keys') && (s'.mark.Some? || s.mark.None?)
             && Entries(ds') == Queue(t, s.source, Selectors(t, s'.mark, keys'))
    ensures var s' := Run(t, s, SyncRun(keys, es)); LandAll(s', ds').target == s'.target
  {
    var s' := Run(t, s, SyncRun(keys, es));
    PassFiles(t, refuses, s, keys, es);
    EntriesAt(ds');
    forall i | 0 <= i < |ds'| && ds'[i].lands ensures Held(s', ds'[i].entry.row) {
      assert Entries(ds')[i] in Entries(ds');
      RereadHasLanded(t, s, keys, es, keys', ds'[i].entry);
    }
    LandAllChangesNothing(s', ds');
  }

  /** A second quiet pass leaves every source column of the target as it was, unless the
      first found a watermark and left none; then the second reads the whole table, and
      changes nothing just when the target already held every row it does not refuse. */
  lemma SecondPassChangesNothing(t: Table, refuses: Row -> bool, s: State,
                                 keys: seq<Key>, es: seq<Event>, keys': seq<Key>, es': seq<Event>)
    requires Inv(t, s) && FiledRightly(refuses, s) && JudgedSync(t, refuses, s, keys, es)
    requires t.follow.OpenRow? ==> t.singleKey && |OpenKeys(t, s.target)| <= RESCAN_OPEN_LIMIT
    requires JudgedSync(t, refuses, Run(t, s, SyncRun(keys, es)), keys', es')
    ensures var s' := Run(t, s, SyncRun(keys, es)); var s'' := Run(t, s', SyncRun(keys', es'));
            s''.target == s'.target <==>
              (|| s'.mark.Some? || s.mark.None?
               || forall id | id in s.source && t.accepts(s.source[id]) && !refuses(s.source[id]) ::
                    Held(s', s.source[id]))
  {
    var s' := Run(t, s, SyncRun(keys, es));
    var ds' := Delivered(t, s', SyncRun(keys', es'));
    PassFiles(t, refuses, s, keys, es);
    SyncPassDelivers(t, s', keys', es');
    if s'.mark.Some? || s.mark.None? {
      RereadChangesNothing(t, refuses, s, keys, es, keys', ds');
    } else {
      SyncPassDelivers(t, s, keys, es);
      SoundOverRuns(t, s, SyncRun(keys, es));
      WholeTableReread(t, refuses, s', Selectors(t, s'.mark, keys'), ds');
    }
  }

  lemma WholeTableReread(t: Table, refuses: Row -> bool, s: State, sels: seq<Selector>, ds: seq<Delivery>)
    requires t.batch > 0 && SourceOk(t, s) && sels != [] && sels[0] == All && Verdicts(refuses, ds)
    requires Entries(ds) == Queue(t, s.source, sels)
    ensures LandAll(s, ds).target == s.target <==>
            forall id :: id in s.source && t.accepts(s.source[id]) && !refuses(s.source[id]) ==> Held(s, s.source[id])
  {
    EntriesAt(ds);
    QueueCurrent(t, s.source, sels);
    forall id | id in s.source && t.accepts(s.source[id]) && !refuses(s.source[id])
      ensures Held(LandAll(s, ds), s.source[id])
    {
      assert Selects(t, sels[0], s.source[id]);
      QueueHolds(t, s.source, sels, Entry(id, s.source[id]));
      LandAllHolds(t, refuses, s, ds, id);
    }
    if forall id :: id in s.source && t.accepts(s.source[id]) && !refuses(s.source[id]) ==> Held(s, s.source[id]) {
      forall i | 0 <= i < |ds| && ds[i].lands ensures Held(s, ds[i].entry.row) {
        assert Entries(ds)[i] in Entries(ds);
        QueueHolds(t, s.source, sels, ds[i].entry);
      }
      LandAllChangesNothing(s, ds);
    }
  }

  // ---------- what the verdicts leave ----------

  function Upserted(target: map<Key, Row>, rows: seq<Entry>): map<Key, Row> {
    if rows == [] then target
    else Upserted(target, rows[..|rows| - 1])[rows[|rows| - 1].row.key := rows[|rows| - 1].row]
  }

  /** The rows the target takes, in order. */
  function Kept(refuses: Row -> bool, rows: seq<Entry>): seq<Entry> {
    if rows == [] then []
    else
      var last := rows[|rows| - 1];
      Kept(refuses, rows[..|rows| - 1]) + (if refuses(last.row) then [] else [last])
  }

  /** The rows it refuses, in order. */
  function Refused(refuses: Row -> bool, rows: seq<Entry>): seq<Row> {
    if rows == [] then []
    else
      var last := rows[|rows| - 1];
      Refused(refuses, rows[..|rows| - 1]) + (if refuses(last.row) then [last.row] else [])
  }

  predicate NoneRefused(refuses: Row -> bool, rows: seq<Entry>) {
    forall i :: 0 <= i < |rows| ==> !refuses(rows[i].row)
  }

  lemma UpsertedSnoc(target: map<Key, Row>, rows: seq<Entry>, e: Entry)
    ensures Upserted(target, rows + [e]) == Upserted(target, rows)[e.row.key := e.row]
  {
    assert (rows + [e])[..|rows|] == rows;
  }

  /** One more row of a page: upserted, or filed. */
  lemma JudgedSnoc(refuses: Row -> bool, target: map<Key, Row>, rows: seq<Entry>, i: nat)
    requires i < |rows|
    ensures Upserted(target, Kept(refuses, rows[..i + 1]))
            == (if refuses(rows[i].row) then Upserted(target, Kept(refuses, rows[..i]))
                else Upserted(target, Kept(refuses, rows[..i]))[rows[i].row.key := rows[i].row])
    ensures Refused(refuses, rows[..i + 1])
            == Refused(refuses, rows[..i]) + (if refuses(rows[i].row) then [rows[i].row] else [])
  {
    hide Upserted;
    var front, both := rows[..i], rows[..i + 1];
    assert both[..|both| - 1] == front && both[|both| - 1] == rows[i];
    UpsertedSnoc(target, Kept(refuses, front), rows[i]);
    assert Kept(refuses, front) + [] == Kept(refuses, front);
  }

  lemma {:induction false} AllKept(refuses: Row -> bool, rows: seq<Entry>)
    requires NoneRefused(refuses, rows)
    ensures Kept(refuses, rows) == rows && Refused(refuses, rows) == []
  {
    if rows != [] {
      AllKept(refuses, rows[..|rows| - 1]);
      assert rows == rows[..|rows| - 1] + [rows[|rows| - 1]];
    }
  }

  /** Landing judged deliveries upserts what is kept and files what is refused, in order. */
  lemma {:induction false} VerdictsLand(refuses: Row -> bool, s: State, ds: seq<Delivery>)
    requires Verdicts(refuses, ds)
    ensures LandAll(s, ds).target == Upserted(s.target, Kept(refuses, Entries(ds)))
    ensures LandAll(s, ds).quarantine == s.quarantine + Refused(refuses, Entries(ds))
    decreases |ds|
  {
    if ds == [] {
      assert s.quarantine + [] == s.quarantine;
    } else {
      hide Upserted, Kept, Refused, LandAll, Entries;
      var front, d, n := ds[..|ds| - 1], ds[|ds| - 1], |ds| - 1;
      assert ds == front + [d];
      VerdictsLand(refuses, s, front);
      LandAllSnoc(s, front, d);
      EntriesAt(ds);
      EntriesAt(front);
      assert Entries(ds)[..n] == Entries(front) && Entries(ds)[..n + 1] == Entries(ds);
      JudgedSnoc(refuses, s.target, Entries(ds), n);
      assert s.quarantine + (Refused(refuses, Entries(front)) + [d.entry.row])
             == s.quarantine + Refused(refuses, Entries(front)) + [d.entry.row];
    }
  }

  lemma {:induction false} LandAllSnoc(s: State, ds: seq<Delivery>, d: Delivery)
    ensures LandAll(s, ds + [d]) == Land(LandAll(s, ds), d.entry.row, d.lands)
    decreases |ds|
  {
    if ds == [] {
      assert [d][1..] == [];
    } else {
      assert (ds + [d])[0] == ds[0] && (ds + [d])[1..] == ds[1..] + [d];
      LandAllSnoc(Land(s, ds[0].entry.row, ds[0].lands), ds[1..], d);
    }
  }

  /** A quiet pass whose every verdict is the target's own upserts the rows its selectors take
      and the target does not refuse, files those it refuses, and does nothing else. */
  lemma JudgedPassIs(t: Table, refuses: Row -> bool, s: State, keys: seq<Key>, es: seq<Event>)
    requires t.batch > 0 && JudgedSync(t, refuses, s, keys, es)
    ensures var s', q := Run(t, s, SyncRun(keys, es)), Queue(t, s.source, Selectors(t, s.mark, keys));
            && s'.source == s.source && s'.mark == NextMark(t, s)
            && s'.target == Upserted(s.target, Kept(refuses, q))
            && s'.quarantine == s.quarantine + Refused(refuses, q)
  {
    SyncPassDelivers(t, s, keys, es);
    var ds := Delivered(t, s, SyncRun(keys, es));
    LandAllStores(s, s, ds);
    VerdictsLand(refuses, s, ds);
  }

  /** A quiet backfill likewise, of every accepted row. */
  lemma JudgedFillIs(t: Table, refuses: Row -> bool, s: State, es: seq<Event>)
    requires t.batch > 0 && QuietFill(t, s, es) && Verdicts(refuses, Delivered(t, s, FillRun(es)))
    ensures var s', q := Run(t, s, FillRun(es)), Listing(t, s.source, All, 0);
            && s'.source == s.source
            && s'.target == Upserted(s.target, Kept(refuses, q))
            && s'.quarantine == s.quarantine + Refused(refuses, q)
  {
    FillPassDelivers(t, s, es);
    PagesAreTheListing(t, s.source, All, 0);
    var ds := Delivered(t, s, FillRun(es));
    LandAllStores(s, s, ds);
    VerdictsLand(refuses, s, ds);
  }

  /** After such a pass an accepted row in reach that the target does not refuse is held in its
      current version and not filed; for open_row, apart from keys quarantined before. */
  lemma JudgedPassHolds(t: Table, refuses: Row -> bool, s: State, keys: seq<Key>, es: seq<Event>, id: int)
    requires Inv(t, s) && FiledRightly(refuses, s) && JudgedSync(t, refuses, s, keys, es)
    requires t.follow.OpenRow? ==> t.singleKey && |OpenKeys(t, s.target)| <= RESCAN_OPEN_LIMIT
    requires id in s.source && t.accepts(s.source[id]) && InReach(t, s, s.source[id]) && !refuses(s.source[id])
    ensures var s', r := Run(t, s, SyncRun(keys, es)), s.source[id];
            && s'.source == s.source && r !in s'.quarantine
            && (Held(s', r) || (t.follow.OpenRow? && EverQuarantined(s, r.key)))
  {
    PassFiles(t, refuses, s, keys, es);
    SyncPassDelivers(t, s, keys, es);
    var ds, r := Delivered(t, s, SyncRun(keys, es)), s.source[id];
    QueueCurrent(t, s.source, Selectors(t, s.mark, keys));
    UnreadHasLanded(t, s, keys, id);
    NotFiledWhenKept(refuses, s, r);
    NotFiledWhenKept(refuses, Run(t, s, SyncRun(keys, es)), r);
    if Entry(id, r) in Entries(ds) || Held(s, r) {
      LandAllHolds(t, refuses, s, ds, id);
    }
  }

  lemma NotFiledWhenKept(refuses: Row -> bool, s: State, r: Row)
    requires FiledRightly(refuses, s) && !refuses(r)
    ensures r !in s.quarantine
  {
  }

  // ---------- backfill and first sync ----------

  /** On a quiet source, from an empty target, a backfill and a first sync pass end in the
      same state, having delivered the same rows: all accepted rows, each once, in rowid
      order. */
  lemma BackfillEqualsFirstSync(t: Table, refuses: Row -> bool, s: State, fill: seq<Event>, keys: seq<Key>,
                                es: seq<Event>)
    requires Unstarted(t, s) && QuietFill(t, s, fill) && QuietSync(t, s, keys, es)
    requires Verdicts(refuses, Delivered(t, s, FillRun(fill))) && Verdicts(refuses, Delivered(t, s, SyncRun(keys, es)))
    ensures var a, b := Run(t, s, FillRun(fill)), Run(t, s, SyncRun(keys, es));
            && a.source == b.source && a.target == b.target && a.quarantine == b.quarantine && a.mark == b.mark
    ensures Entries(Delivered(t, s, FillRun(fill))) == Entries(Delivered(t, s, SyncRun(keys, es)))
            == Listing(t, s.source, All, 0)
  {
    FillPassDelivers(t, s, fill);
    SyncPassDelivers(t, s, keys, es);
    NothingOpenYet(t, s, keys);
    var f, g := Delivered(t, s, FillRun(fill)), Delivered(t, s, SyncRun(keys, es));
    assert Selectors(t, s.mark, keys) == [All];
    assert Queue(t, s.source, [All]) == Pages(t, s.source, All, 0) + [];
    PagesAreTheListing(t, s.source, All, 0);
    SameEntriesSameDeliveries(refuses, f, g);
    if f == [] {
      ListingHolds(t, s.source, All, 0);
      assert Candidates(t, s.source, All, 0) == {};
      assert forall id :: id in s.source && t.accepts(s.source[id]) ==> id in Candidates(t, s.source, All, 0);
      assert AcceptedCursors(t, s.source) == {};
    }
  }

  lemma NothingOpenYet(t: Table, s: State, keys: seq<Key>)
    requires s.target == map[] && OpenListing(t, s.target, keys)
    ensures keys == [] && Chunks(keys) == []
  {
    assert OpenKeys(t, s.target) == {};
    if t.follow.OpenRow? && t.singleKey {
      assert forall i :: 0 <= i < |keys| ==> keys[i] in keys;
      DistinctCount(keys, OpenKeys(t, s.target));
    }
  }

  lemma SameEntriesSameDeliveries(refuses: Row -> bool, f: seq<Delivery>, g: seq<Delivery>)
    requires Entries(f) == Entries(g) && Verdicts(refuses, f) && Verdicts(refuses, g)
    ensures f == g
  {
    EntriesAt(f);
    EntriesAt(g);
    forall i | 0 <= i < |f| ensures f[i] == g[i] {
      assert Entries(f)[i] == Entries(g)[i];
    }
  }
}
