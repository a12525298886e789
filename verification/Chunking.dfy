/** A list of keys cut into runs no longer than one IN list may be. */
module Chunking {

  const RESCAN_CHUNK := 500

  function Cut<T>(keys: seq<T>): seq<seq<T>> {
    if |keys| == 0 then []
    else if |keys| <= RESCAN_CHUNK then [keys]
    else [keys[..RESCAN_CHUNK]] + Cut(keys[RESCAN_CHUNK..])
  }

  function Flatten<T>(chunks: seq<seq<T>>): seq<T> {
    if chunks == [] then [] else chunks[0] + Flatten(chunks[1..])
  }

  /** The chunks are the keys, in order, cut into non-empty pieces of at most 500; only the
      last may be shorter. */
  lemma {:induction false} CutPartitions<T>(keys: seq<T>)
    ensures Flatten(Cut(keys)) == keys
    ensures forall i :: 0 <= i < |Cut(keys)| ==> 0 < |Cut(keys)[i]| <= 500
    ensures forall i :: 0 <= i < |Cut(keys)| - 1 ==> |Cut(keys)[i]| == 500
    decreases |keys|
  {
    if |keys| == 0 {
    } else if |keys| <= RESCAN_CHUNK {
      assert Flatten([keys][1..]) == [];
    } else {
      var rest := keys[RESCAN_CHUNK..];
      CutPartitions(rest);
      assert Cut(keys)[1..] == Cut(rest);
      assert keys == keys[..RESCAN_CHUNK] + rest;
      assert forall i :: 0 < i < |Cut(keys)| ==> Cut(keys)[i] == Cut(rest)[i - 1];
    }
  }

  lemma {:induction false} InFlatten<T>(chunks: seq<seq<T>>, k: T)
    ensures k in Flatten(chunks) <==> exists i :: 0 <= i < |chunks| && k in chunks[i]
  {
    if chunks != [] {
      InFlatten(chunks[1..], k);
      if i :| 0 <= i < |chunks| && k in chunks[i] {
        assert i == 0 || k in chunks[1..][i - 1];
      }
      if i :| 0 <= i < |chunks[1..]| && k in chunks[1..][i] {
        assert k in chunks[i + 1];
      }
    }
  }

  /** A key is listed exactly when some chunk lists it. */
  lemma InSomeChunk<T>(keys: seq<T>, k: T)
    ensures k in keys <==> exists i :: 0 <= i < |Cut(keys)| && k in Cut(keys)[i]
  {
    CutPartitions(keys);
    InFlatten(Cut(keys), k);
  }

  /** The loop that cuts them. */
  method CutUp<T>(keys: seq<T>) returns (out: seq<seq<T>>)
    ensures out == Cut(keys)
  {
    out := [];
    var start := 0;
    assert keys[0..] == keys;
    while start < |keys|
      invariant 0 <= start
      invariant start <= |keys| ==> out + Cut(keys[start..]) == Cut(keys)
      invariant start > |keys| ==> out == Cut(keys)
    {
      var end := start + RESCAN_CHUNK;
      if end > |keys| { end := |keys|; }
      var chunk := keys[start..end];
      assert end < |keys| ==> keys[start..][..RESCAN_CHUNK] == chunk && keys[start..][RESCAN_CHUNK..] == keys[end..];
      assert end == |keys| ==> chunk == keys[start..] && keys[end..] == [];
      out := out + [chunk];
      start := start + RESCAN_CHUNK;
    }
  }
}
