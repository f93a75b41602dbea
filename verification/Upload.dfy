/** The resumable upload of a stream of unknown length: however the input is
    split, the parts sent are the source, cut at exact chunk boundaries. */
module Upload {
  import opened Options

  type Byte = bv8

  /** 8 MiB, a multiple of the 256 KiB the receiving end demands of non-final parts. */
  const UPLOAD_CHUNK: nat := 8 * 1024 * 1024
  const PART_UNIT: nat := 256 * 1024

  /** One request of an upload session: the total is known only to the last. */
  datatype Part = Part(offset: nat, body: seq<Byte>, total: Option<nat>)

  /** What the session received, in order. */
  function Received(parts: seq<Part>): seq<Byte> {
    if parts == [] then [] else Received(parts[..|parts| - 1]) + parts[|parts| - 1].body
  }

  function Joined(pieces: seq<seq<Byte>>): seq<Byte> {
    if pieces == [] then [] else Joined(pieces[..|pieces| - 1]) + pieces[|pieces| - 1]
  }

  /** Full-size, contiguous, unannounced parts. */
  predicate FullParts(parts: seq<Part>) {
    forall i | 0 <= i < |parts| ::
      parts[i].total == None && |parts[i].body| == UPLOAD_CHUNK && parts[i].offset == i * UPLOAD_CHUNK
  }

  /** A whole session: full parts, then one final part with the true total, which is
      empty only for an empty source. */
  predicate Session(parts: seq<Part>, source: seq<Byte>) {
    && parts != []
    && var n := |parts| - 1;
       && FullParts(parts[..n])
       && parts[n].offset == n * UPLOAD_CHUNK && |parts[n].body| <= UPLOAD_CHUNK
       && parts[n].total == Some(|source|)
       && parts[n].offset + |parts[n].body| == |source|
       && (parts[n].body == [] <==> source == [])
       && Received(parts) == source
  }

  lemma ReceivedSnoc(parts: seq<Part>, p: Part)
    ensures Received(parts + [p]) == Received(parts) + p.body
  {
    assert (parts + [p])[..|parts|] == parts;
  }

  lemma JoinedSnoc(pieces: seq<seq<Byte>>, piece: seq<Byte>)
    ensures Joined(pieces + [piece]) == Joined(pieces) + piece
  {
    assert (pieces + [piece])[..|pieces|] == pieces;
  }

  /** Parts start on the receiving end's boundaries. */
  lemma PartsAligned(parts: seq<Part>, source: seq<Byte>, i: nat)
    requires Session(parts, source) && i < |parts|
    ensures parts[i].offset % PART_UNIT == 0
    ensures i < |parts| - 1 ==> |parts[i].body| % PART_UNIT == 0
    ensures i < |parts| - 1 ==> parts[i + 1].offset == parts[i].offset + |parts[i].body|
  {
    OffsetAligned(i);
    OffsetAligned(1);
    PartAt(parts, source, i);
    if i + 1 < |parts| { PartAt(parts, source, i + 1); }
  }

  lemma PartAt(parts: seq<Part>, source: seq<Byte>, i: nat)
    requires Session(parts, source) && i < |parts|
    ensures parts[i].offset == i * UPLOAD_CHUNK
    ensures i < |parts| - 1 ==> |parts[i].body| == UPLOAD_CHUNK
  {
    var n := |parts| - 1;
    if i < n { assert parts[i] == parts[..n][i]; }
  }

  lemma OffsetAligned(i: nat)
    ensures (i * UPLOAD_CHUNK) % PART_UNIT == 0
  {
    assert i * 8_388_608 == (32 * i) * 262_144;
  }

  /** A source has exactly one session: the splitting of the input leaves no trace. */
  lemma {:induction false} SessionUnique(a: seq<Part>, b: seq<Part>, source: seq<Byte>)
    requires Session(a, source) && Session(b, source)
    ensures a == b
  {
    SessionLength(a, source);
    SessionLength(b, source);
    assert |a| == |b| by {
      if |a| < |b| { MoreParts(|a| - 1, |b| - 1); }
      if |b| < |a| { MoreParts(|b| - 1, |a| - 1); }
    }
    forall i | 0 <= i < |a| ensures a[i] == b[i] {
      PartBody(a, source, i);
      PartBody(b, source, i);
    }
  }

  lemma MoreParts(m: nat, n: nat)
    requires m < n
    ensures m * UPLOAD_CHUNK + UPLOAD_CHUNK <= n * UPLOAD_CHUNK
  {
    assert (n - m) * UPLOAD_CHUNK >= UPLOAD_CHUNK;
  }

  lemma SessionLength(parts: seq<Part>, source: seq<Byte>)
    requires Session(parts, source)
    ensures (|parts| - 1) * UPLOAD_CHUNK <= |source| <= (|parts| - 1) * UPLOAD_CHUNK + UPLOAD_CHUNK
    ensures source != [] ==> (|parts| - 1) * UPLOAD_CHUNK < |source|
    ensures source == [] ==> |parts| == 1
  {
  }

  /** Part `i` carries the bytes at its offset. */
  lemma {:induction false} PartBody(parts: seq<Part>, source: seq<Byte>, i: nat)
    requires Session(parts, source) && i < |parts|
    ensures parts[i].offset == i * UPLOAD_CHUNK
    ensures parts[i].offset + |parts[i].body| <= |source|
    ensures parts[i].body == source[parts[i].offset..parts[i].offset + |parts[i].body|]
    ensures parts[i].total == if i == |parts| - 1 then Some(|source|) else None
    ensures |parts[i].body| == if i == |parts| - 1 then |source| - i * UPLOAD_CHUNK else UPLOAD_CHUNK
  {
    var n := |parts| - 1;
    ReceivedLength(parts[..n]);
    if i < n { ReceivedAt(parts[..n], i); }
    assert parts == parts[..n] + [parts[n]];
    ReceivedSnoc(parts[..n], parts[n]);
    if i < n { assert parts[i] == parts[..n][i]; }
  }

  lemma {:induction false} ReceivedLength(parts: seq<Part>)
    requires FullParts(parts)
    ensures |Received(parts)| == |parts| * UPLOAD_CHUNK
  {
    if parts != [] { ReceivedLength(parts[..|parts| - 1]); }
  }

  lemma {:induction false} ReceivedAt(parts: seq<Part>, i: nat)
    requires FullParts(parts) && i < |parts|
    ensures i * UPLOAD_CHUNK + UPLOAD_CHUNK <= |Received(parts)|
    ensures parts[i].body == Received(parts)[i * UPLOAD_CHUNK..i * UPLOAD_CHUNK + UPLOAD_CHUNK]
  {
    var n := |parts| - 1;
    var init, last := Received(parts[..n]), parts[n].body;
    ReceivedLength(parts[..n]);
    assert Received(parts) == init + last && |last| == UPLOAD_CHUNK;
    if i < n {
      ReceivedAt(parts[..n], i);
      assert parts[i] == parts[..n][i];
      SliceOfPrefix(init, last, i * UPLOAD_CHUNK, i * UPLOAD_CHUNK + UPLOAD_CHUNK);
    } else {
      assert (init + last)[|init|..|init + last|] == last;
    }
  }

  lemma SliceOfPrefix(a: seq<Byte>, b: seq<Byte>, lo: nat, hi: nat)
    requires lo <= hi <= |a|
    ensures (a + b)[lo..hi] == a[lo..hi]
  {
  }

  class UploadSession {
    var parts: seq<Part>

    constructor ()
      ensures parts == []
    {
      parts := [];
    }

    /** One request; the last one of a session announces the total. */
    method PutChunk(body: seq<Byte>, offset: nat, total: Option<nat>)
      modifies this
      ensures parts == old(parts) + [Part(offset, body, total)]
    {
      parts := parts + [Part(offset, body, total)];
    }

    /** A buffer is one final part, whatever its size. */
    method UploadBuffer(source: seq<Byte>)
      modifies this
      ensures parts == old(parts) + [Part(0, source, Some(|source|))]
    {
      PutChunk(source, 0, Some(|source|));
    }

    /** Sends full parts until at most one chunk is left. */
    method SendFull(offset: nat, pending: seq<Byte>) returns (offset': nat, rest: seq<Byte>)
      requires FullParts(parts) && offset == |parts| * UPLOAD_CHUNK
      modifies this
      ensures FullParts(parts) && offset' == |parts| * UPLOAD_CHUNK
      ensures Received(parts) + rest == old(Received(parts)) + pending
      ensures |rest| <= UPLOAD_CHUNK && (rest == [] ==> pending == [] && parts == old(parts))
    {
      offset', rest := offset, pending;
      ghost var start := Received(parts);
      while |rest| > UPLOAD_CHUNK
        invariant FullParts(parts) && offset' == |parts| * UPLOAD_CHUNK
        invariant Received(parts) + rest == start + pending
        invariant rest == [] ==> pending == [] && parts == old(parts)
        decreases |rest|
      {
        var head, tail := rest[..UPLOAD_CHUNK], rest[UPLOAD_CHUNK..];
        ReceivedSnoc(parts, Part(offset', head, None));
        assert Received(parts) + rest == (Received(parts) + head) + tail;
        PutChunk(head, offset', None);
        offset' := offset' + |head|;
        rest := tail;
      }
    }

    /** A stream is buffered one chunk ahead, so that the final part can carry the total. */
    method UploadChunks(source: seq<seq<Byte>>)
      requires parts == []
      modifies this
      ensures Session(parts, Joined(source))
    {
      var offset: nat := 0;
      var pending: seq<Byte> := [];
      for i := 0 to |source|
        invariant FullParts(parts) && offset == |parts| * UPLOAD_CHUNK
        invariant Received(parts) + pending == Joined(source[..i])
        invariant |pending| <= UPLOAD_CHUNK && (pending == [] ==> parts == [])
      {
        assert source[..i + 1] == source[..i] + [source[i]];
        JoinedSnoc(source[..i], source[i]);
        assert Received(parts) + (pending + source[i]) == Received(parts) + pending + source[i];
        offset, pending := SendFull(offset, pending + source[i]);
      }
      assert source[..|source|] == source;
      ReceivedLength(parts);
      var last := Part(offset, pending, Some(offset + |pending|));
      FinalPart(parts, last, Joined(source));
      PutChunk(last.body, last.offset, last.total);
    }
  }

  lemma FinalPart(full: seq<Part>, last: Part, source: seq<Byte>)
    requires FullParts(full) && Received(full) + last.body == source
    requires |last.body| <= UPLOAD_CHUNK && (last.body == [] ==> full == [])
    requires last.offset == |full| * UPLOAD_CHUNK == |Received(full)| && last.total == Some(|source|)
    ensures Session(full + [last], source)
  {
    ReceivedSnoc(full, last);
    assert (full + [last])[..|full|] == full;
  }
}
