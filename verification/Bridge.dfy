/** The page query and the replication model meet: run on the stored form of a table, the text
    the read layer writes picks exactly the rows the model reads. */
module Bridge {
  import opened Prelude
  import opened Chunking
  import opened Sql
  import opened Grammar
  import opened Filters
  import opened Read
  import R = Replication
  import Timestamps
  import Watermarks

  /** The columns the protocol knows by name. */
  datatype Names = Names(key: string, cursor: string, timestamp: bool)

  /** A cursor position as it is bound and compared: the number, or the text of the instant. */
  function CursorValue(names: Names, c: int): (v: Value)
    ensures !v.Null?
  {
    if names.timestamp then Text(Watermarks.Format(Timestamps.StampOf(c))) else Int(c)
  }

  predicate InLayout(c: int) {
    Watermarks.Printable(Timestamps.StampOf(c))
  }

  /** The record the source stores for a row of the model. */
  predicate Encodes(g: Engine, names: Names, record: Record, id: int, row: R.Row) {
    var stored := Lookup(record, names.cursor);
    var position := if names.timestamp then g.instant(stored) else stored;
    && Lookup(record, "rowid") == Int(id)
    && Lookup(record, names.key) == Text(row.key)
    && position == (if row.cursor.None? then Null else CursorValue(names, row.cursor.value))
    && (names.timestamp && row.cursor.Some? ==> InLayout(row.cursor.value))
  }

  predicate NamesOk(names: Names) {
    && ValidIdent(names.key) && !Reserved(names.key)
    && ValidIdent(names.cursor) && !Reserved(names.cursor)
  }

  function KeyValues(keys: seq<R.Key>): (vs: seq<Value>)
    ensures |vs| == |keys| && forall i :: 0 <= i < |keys| ==> vs[i] == Text(keys[i])
  {
    seq(|keys|, i requires 0 <= i < |keys| => Text(keys[i]))
  }

  /** The clause a selector of the model is written as; `Children` reads another table. */
  function ClausesOf(names: Names, sel: R.Selector): seq<Clause>
    requires !sel.Children?
  {
    match sel
    case All => []
    case Advance(mark, inclusive) => [ByCursor(names.timestamp, names.cursor, inclusive, CursorValue(names, mark))]
    case Keys(keys) => [ByKeys(names.key, KeyValues(keys))]
  }

  /** What the code builds: no empty IN list, and no watermark past the layout. */
  predicate Buildable(names: Names, sel: R.Selector) {
    && NamesOk(names) && !sel.Children?
    && (sel.Keys? ==> sel.keys != [])
    && (sel.Advance? && names.timestamp ==> Timestamps.StampOf(sel.mark).date.year <= 9999)
  }

  lemma PositionsCompare(names: Names, m: int, c: int)
    requires names.timestamp ==> Timestamps.StampOf(m).date.year <= 9999 && InLayout(c)
    ensures Less(CursorValue(names, m), CursorValue(names, c)) <==> m < c
    ensures CursorValue(names, m) == CursorValue(names, c) <==> m == c
  {
    if names.timestamp {
      Watermarks.Compare(Timestamps.StampOf(m), Timestamps.StampOf(c));
    }
  }

  /** A watermark clause compares the stored position as the model compares the row's. */
  lemma CursorClauseAgrees(g: Engine, names: Names, record: Record, id: int, row: R.Row, t: R.Table, m: int,
                           inclusive: bool)
    requires Encodes(g, names, record, id, row) && Buildable(names, R.Advance(m, inclusive))
    ensures ClauseHolds(g, ByCursor(names.timestamp, names.cursor, inclusive, CursorValue(names, m)), record)
            <==> R.Selects(t, R.Advance(m, inclusive), row)
  {
    hide Reserved, Less, CursorValue;
    if row.cursor.Some? { PositionsCompare(names, m, row.cursor.value); }
  }

  /** A rescan clause lists the stored key exactly when the model lists the row's. */
  lemma KeysClauseAgrees(g: Engine, names: Names, record: Record, id: int, row: R.Row, t: R.Table, keys: seq<R.Key>)
    requires Encodes(g, names, record, id, row) && Buildable(names, R.Keys(keys))
    ensures ClauseHolds(g, ByKeys(names.key, KeyValues(keys)), record) <==> R.Selects(t, R.Keys(keys), row)
  {
    var vs := KeyValues(keys);
    if row.key in keys {
      var i :| 0 <= i < |keys| && keys[i] == row.key;
      assert vs[i] == Text(row.key);
    }
  }

  lemma OneClauseHolds(g: Engine, record: Record, c: Clause)
    requires ClauseOk(c)
    ensures SelectorHolds(g, record, [c]) <==> ClauseHolds(g, c, record)
  {
    assert [c][0] == c;
  }

  lemma SelectorAgrees(g: Engine, names: Names, record: Record, id: int, row: R.Row, t: R.Table, sel: R.Selector)
    requires Encodes(g, names, record, id, row) && Buildable(names, sel)
    ensures SelectorsOk([ClausesOf(names, sel)])
    ensures SelectorHolds(g, record, ClausesOf(names, sel)) <==> R.Selects(t, sel, row)
  {
    hide Reserved, ClauseHolds, Encodes;
    match sel {
      case All =>
      case Advance(m, inclusive) =>
        CursorClauseAgrees(g, names, record, id, row, t, m, inclusive);
        OneClauseHolds(g, record, ClausesOf(names, sel)[0]);
      case Keys(keys) =>
        KeysClauseAgrees(g, names, record, id, row, t, keys);
        OneClauseHolds(g, record, ClausesOf(names, sel)[0]);
    }
  }

  /** The WHERE clause of a page query, with its arguments, is true of a stored row exactly
      when the model counts the row among the candidates of that page: for the whole table,
      for a strict and an inclusive watermark, integer or timestamp, and for a rescan. */
  lemma PageQueryFindsCandidates(g: Engine, names: Names, record: Record, t: R.Table, source: map<int, R.Row>, id: int,
                                 sel: R.Selector, after: int, filters: seq<Filter>)
    requires id in source && Encodes(g, names, record, id, source[id]) && Buildable(names, sel)
    requires FiltersOk(filters) && (forall i :: 0 <= i < |filters| ==> !NotInNull(filters[i]))
    requires t.accepts(source[id]) <==> forall i :: 0 <= i < |filters| ==> Accepts(g, filters[i], record)
    ensures var cs := BatchClauses(after, filters, [ClausesOf(names, sel)]); var e := Parse(Spell(JoinPieces(cs)));
            e.Some? && (Eval(g, record, ClausesArgs(cs), e.value).True? <==> id in R.Candidates(t, source, sel, after))
  {
    hide Parse, Spell, JoinPieces, Eval, ClausesArgs, BatchClauses, Accepts;
    hide SelectorHolds, ClausesOf, Readable, R.Selects;
    SelectorAgrees(g, names, record, id, source[id], t, sel);
    var meant := [ClausesOf(names, sel)];
    BatchSelects(g, record, id, after, filters, meant);
    assert meant[0] == ClausesOf(names, sel);
  }

  // ---------- the selectors the code writes ----------

  /** The watermark selector is the model's, spelled out. */
  lemma AdvanceIsWritten(names: Names, m: int, inclusive: bool)
    ensures var c := ClausesOf(names, R.Advance(m, inclusive))[0];
            AdvanceSelector(names.timestamp, names.cursor, CursorValue(names, m), inclusive)
            == Selector(Spell(ClausePieces(c)), ClauseArgs(c))
  {
    hide Spell, ClausePieces;
    if names.timestamp { NotEmpty(Timestamps.StampOf(m)); }
    AdvanceIsAClause(names.timestamp, names.cursor, CursorValue(names, m), inclusive);
  }

  /** An empty watermark is written as no predicate, which is the whole table of the model, and
      any other as one. */
  lemma NoMarkIsWritten(names: Names, inclusive: bool, w: Value)
    requires !w.Null?
    ensures AdvanceSelector(names.timestamp, names.cursor, w, inclusive) == Selector("", []) <==> w == Text("")
    ensures ClausesOf(names, R.AdvanceFrom(None, inclusive)) == []
  {
    if w != Text("") {
      assert AdvanceSelector(names.timestamp, names.cursor, w, inclusive).args == [w];
    }
  }

  lemma NotEmpty(s: Timestamps.Stamp)
    requires Timestamps.ValidStamp(s)
    ensures Watermarks.Format(s) != ""
  {
  }

  /** Stepping the text of a watermark back is the model's step back, the window rounded up to
      whole milliseconds. */
  lemma BackIsTheModels(t: R.Table, m: int, overlap: int)
    requires t.follow.Mutable? && 0 < overlap <= MAX_DURATION && t.overlap == Watermarks.Millis(overlap)
    requires InLayout(m)
    ensures Watermarks.Back(Watermarks.Format(Timestamps.StampOf(m)), true, overlap)
            == Watermarks.Format(Timestamps.StampOf(R.Back(t, m)))
  {
    hide Watermarks.Format, Watermarks.Parse, Watermarks.Back, Watermarks.Printable;
    hide Watermarks.Floor, Watermarks.Millis, Timestamps.Instant, Timestamps.ValidStamp, Timestamps.StampOf;
    var s := Timestamps.StampOf(m);
    Watermarks.ParseFormat(s);
    Watermarks.BackText(Watermarks.Format(s), overlap);
    FloorOfStamp(m, overlap);
  }

  lemma FloorOfStamp(m: int, overlap: int)
    requires 0 < overlap
    ensures Watermarks.Floor(Timestamps.StampOf(m), overlap) == m - Watermarks.Millis(overlap)
  {
    hide Watermarks.Floor, Watermarks.Millis, Timestamps.Instant, Timestamps.ValidStamp, Timestamps.StampOf;
    Watermarks.FloorIsBack(m, overlap, Watermarks.Floor(Timestamps.StampOf(m), overlap), Watermarks.Millis(overlap));
  }

  /** Cutting the keys as values is cutting the keys, so the rescan selectors of the code are
      those of the model, one for one. */
  lemma {:induction false} CutValues(keys: seq<R.Key>)
    ensures |Cut(KeyValues(keys))| == |Cut(keys)| == |R.Chunks(keys)|
    ensures forall i :: 0 <= i < |Cut(keys)| ==>
              Cut(KeyValues(keys))[i] == KeyValues(Cut(keys)[i]) && R.Chunks(keys)[i] == R.Keys(Cut(keys)[i])
    decreases |keys|
  {
    if |keys| > RESCAN_CHUNK {
      var rest := keys[RESCAN_CHUNK..];
      CutValues(rest);
      assert KeyValues(keys)[..RESCAN_CHUNK] == KeyValues(keys[..RESCAN_CHUNK]);
      assert KeyValues(keys)[RESCAN_CHUNK..] == KeyValues(rest);
      forall i | 0 <= i < |Cut(keys)| ensures Cut(KeyValues(keys))[i] == KeyValues(Cut(keys)[i]) {
        if i > 0 {
          assert Cut(keys)[i] == Cut(rest)[i - 1];
        }
      }
    }
  }
}
