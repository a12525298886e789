/** What a pass reads, exactly: for each class the rows it is meant to find and no others, each
    as often as it is meant to. */
module Selection {
  import opened Prelude
  import opened Chunking
  import opened Replication
  import opened Safety
  import opened Quiet
  import opened Convergence
  import opened Deliveries = Delivery

  // ---------- which rows ----------

  /** Over a quiet source a pass reads an accepted row if and only if its class calls for it:
      - append_only: the cursor is past the watermark;
      - mutable: the cursor is at or after the watermark less the overlap;
      - open_row: the cursor is past the watermark, or the key is one of the open keys;
      - follow_parent: the parent moved at or after the watermark less the overlap;
      - snapshot: always;
      and always when there is no watermark. */
  lemma PassReadsIff(t: Table, s: State, keys: seq<Key>, e: Entry)
    requires t.batch > 0 && SourceOk(t, s)
    ensures e in Queue(t, s.source, Selectors(t, s.mark, keys)) <==>
              && Current(s.source, e) && t.accepts(e.row)
              && (s.mark.None? ||
                  match t.follow
                  case AppendOnly => e.row.cursor.Some? && e.row.cursor.value > s.mark.value
                  case Mutable => e.row.cursor.Some? && e.row.cursor.value >= s.mark.value - t.overlap
                  case OpenRow => (e.row.cursor.Some? && e.row.cursor.value > s.mark.value) || e.row.key in keys
                  case FollowParent => t.movedSince(s.mark.value - t.overlap, e.row)
                  case Snapshot => true)
  {
    hide Queue, Chunks;
    var sels := Selectors(t, s.mark, keys);
    QueueHolds(t, s.source, sels, e);
    HeadOrChunk(t, s.mark, keys, e.row);
  }

  /** Some selector of a pass takes a row when its first one does, or the row's key is listed. */
  lemma HeadOrChunk(t: Table, mark: Option<int>, keys: seq<Key>, r: Row)
    ensures var sels := Selectors(t, mark, keys);
            (exists j :: 0 <= j < |sels| && Selects(t, sels[j], r)) <==>
              Selects(t, sels[0], r) || (t.follow.OpenRow? && r.key in keys)
  {
    hide Chunks, Selects;
    var sels := Selectors(t, mark, keys);
    ChunksSelect(t, keys, r);
    if t.follow.OpenRow? {
      assert sels[1..] == Chunks(keys);
      if j :| 0 <= j < |sels| && Selects(t, sels[j], r) {
        assert j == 0 || Chunks(keys)[j - 1] == sels[j];
      }
      if j :| 0 <= j < |Chunks(keys)| && Selects(t, Chunks(keys)[j], r) {
        assert sels[j + 1] == Chunks(keys)[j];
      }
    }
  }

  /** A row a quiet pass does not read keeps its target row, or its absence. */
  lemma UnreadIsLeftAlone(t: Table, s: State, keys: seq<Key>, es: seq<Event>, id: int)
    requires Sound(t, s) && QuietSync(t, s, keys, es) && id in s.source
    requires Entry(id, s.source[id]) !in Queue(t, s.source, Selectors(t, s.mark, keys))
    ensures var s', k := Run(t, s, SyncRun(keys, es)), s.source[id].key;
            (k in s'.target <==> k in s.target) && (k in s.target ==> s'.target[k] == s.target[k])
  {
    hide Queue;
    var sels := Selectors(t, s.mark, keys);
    forall other, j | other in s.source && t.accepts(s.source[other])
                      && 0 <= j < |sels| && Selects(t, sels[j], s.source[other])
      ensures s.source[other].key != s.source[id].key
    {
      QueueHolds(t, s.source, sels, Entry(other, s.source[other]));
      QueueHolds(t, s.source, sels, Entry(id, s.source[id]));
    }
    QuietPassTouchesOnlySelected(t, s, keys, es, s.source[id].key);
  }

  /** mutable: a row below the overlap window is not rewritten. */
  lemma BelowTheWindowIsLeftAlone(t: Table, s: State, keys: seq<Key>, es: seq<Event>, id: int)
    requires Sound(t, s) && QuietSync(t, s, keys, es) && t.follow.Mutable? && s.mark.Some? && id in s.source
    requires s.source[id].cursor.None? || s.source[id].cursor.value < s.mark.value - t.overlap
    ensures var s', k := Run(t, s, SyncRun(keys, es)), s.source[id].key;
            (k in s'.target <==> k in s.target) && (k in s.target ==> s'.target[k] == s.target[k])
  {
    PassReadsIff(t, s, keys, Entry(id, s.source[id]));
    UnreadIsLeftAlone(t, s, keys, es, id);
  }

  // ---------- how often ----------

  lemma {:induction false} ChunksTakeOnce(t: Table, keys: seq<Key>, r: Row)
    requires forall i, j :: 0 <= i < j < |keys| ==> keys[i] != keys[j]
    ensures CountTaking(t, Chunks(keys), r) == if r.key in keys then 1 else 0
    decreases |keys|
  {
    if |keys| <= RESCAN_CHUNK {
      OneChunk(t, keys, r);
    } else {
      var front, rest := keys[..RESCAN_CHUNK], keys[RESCAN_CHUNK..];
      ChunksTakeOnce(t, rest, r);
      assert Chunks(keys) == [Keys(front)] + Chunks(rest);
      assert Chunks(keys)[1..] == Chunks(rest);
      assert keys == front + rest;
      assert r.key in front ==> r.key !in rest by { Apart(keys, RESCAN_CHUNK, r.key); }
    }
  }

  lemma OneChunk(t: Table, keys: seq<Key>, r: Row)
    requires |keys| <= RESCAN_CHUNK
    ensures CountTaking(t, Chunks(keys), r) == if r.key in keys then 1 else 0
  {
    if keys == [] {
      assert Chunks(keys) == [];
    } else {
      assert Chunks(keys) == [Keys(keys)];
      assert [Keys(keys)][1..] == [];
    }
  }

  lemma Apart(keys: seq<Key>, n: nat, k: Key)
    requires n <= |keys| && forall i, j :: 0 <= i < j < |keys| ==> keys[i] != keys[j]
    ensures !(k in keys[..n] && k in keys[n..])
  {
  }

  /** How many selectors of a pass take a row: at most one, but for an open_row row that is
      both past the watermark and listed. */
  lemma SelectorsTake(t: Table, mark: Option<int>, keys: seq<Key>, r: Row)
    requires forall i, j :: 0 <= i < j < |keys| ==> keys[i] != keys[j]
    ensures CountTaking(t, Selectors(t, mark, keys), r)
            == (if Selects(t, Selectors(t, mark, keys)[0], r) then 1 else 0)
               + (if t.follow.OpenRow? && r.key in keys then 1 else 0)
  {
    hide Selects, Chunks;
    var sels := Selectors(t, mark, keys);
    if t.follow.OpenRow? {
      ChunksTakeOnce(t, keys, r);
      assert sels[1..] == Chunks(keys);
    } else {
      assert sels[1..] == [];
    }
  }

  /** Whatever else the daemon writes during a pass, an accepted row that it leaves alone is
      delivered as often as its class calls for, and a rejected one never. */
  lemma PassDelivers(t: Table, s: State, keys: seq<Key>, es: seq<Event>, id: int)
    requires Sound(t, s) && LegalRun(t, s, [ReadSelectors(keys)] + es) && id in s.source
    requires LegalRun(t, Step(t, s, ReadSelectors(keys)), es)
    requires RunsOut(t, Step(t, s, ReadSelectors(keys)), es) && AllLeave(es, id)
    ensures var r, n := s.source[id], DeliveriesOf(t, Step(t, s, ReadSelectors(keys)), es, id);
            if !t.accepts(r) then n == 0
            else
              match t.follow
              case AppendOnly =>
                n == if s.mark.None? || (r.cursor.Some? && r.cursor.value > s.mark.value) then 1 else 0
              case Mutable =>
                n == if s.mark.None? || (r.cursor.Some? && r.cursor.value >= s.mark.value - t.overlap) then 1 else 0
              case OpenRow =>
                n == (if s.mark.None? || (r.cursor.Some? && r.cursor.value > s.mark.value) then 1 else 0)
                     + (if r.key in keys then 1 else 0)
              case FollowParent => n == 1
              case Snapshot => n == 1
  {
    hide RunsOut, DeliveriesOf, CountTaking, Chunks;
    assert ([ReadSelectors(keys)] + es)[0] == ReadSelectors(keys);
    var s1 := Step(t, s, ReadSelectors(keys));
    DeliveredOncePerSelector(t, s1, es, id);
    Distinct(t, s, keys);
    SelectorsTake(t, s.mark, keys, s.source[id]);
  }

  lemma Distinct(t: Table, s: State, keys: seq<Key>)
    requires OpenListing(t, s.target, keys)
    ensures forall i, j :: 0 <= i < j < |keys| ==> keys[i] != keys[j]
  {
  }
}
