/** What the sinks of an output node hold after a run of reads. A buffer sink that is not full when
    a chunk is stored ends the delivery of that chunk. */
module Sinks {
  import opened Words

  type Bytes = seq<u8>

  datatype Buffer = Buffer(len: nat, data: Bytes)

  datatype Node = Node(buffers: seq<Buffer>, strings: seq<Bytes>)

  predicate Fits(b: Buffer) {
    |b.data| <= b.len
  }

  predicate AllFit(bs: seq<Buffer>) {
    forall i :: 0 <= i < |bs| ==> Fits(bs[i])
  }

  predicate Full(b: Buffer) {
    |b.data| == b.len
  }

  predicate AllFull(bs: seq<Buffer>) {
    forall i :: 0 <= i < |bs| ==> Full(bs[i])
  }

  predicate AllEmpty(bs: seq<Buffer>) {
    forall i :: 0 <= i < |bs| ==> bs[i].data == []
  }

  function Store(b: Buffer, chunk: Bytes): Buffer
    requires Fits(b)
  {
    b.(data := b.data + chunk[..Min(|chunk|, b.len - |b.data|)])
  }

  /** The buffers after a chunk. */
  function Deliver(bs: seq<Buffer>, chunk: Bytes): (r: seq<Buffer>)
    requires AllFit(bs)
    ensures |r| == |bs|
    ensures forall i :: 0 <= i < |bs| ==> r[i].len == bs[i].len && Fits(r[i])
  {
    if bs == [] then []
    else
      var b := Store(bs[0], chunk);
      [b] + if Full(b) then Deliver(bs[1..], chunk) else bs[1..]
  }

  function Appended(strings: seq<Bytes>, chunk: Bytes): (r: seq<Bytes>)
    ensures |r| == |strings| && forall i :: 0 <= i < |strings| ==> r[i] == strings[i] + chunk
  {
    seq(|strings|, i requires 0 <= i < |strings| => strings[i] + chunk)
  }

  lemma AppendedTwice(strings: seq<Bytes>, a: Bytes, b: Bytes)
    ensures Appended(Appended(strings, a), b) == Appended(strings, a + b)
    ensures Appended(strings, []) == strings
  {
    forall i | 0 <= i < |strings| ensures Appended(strings, a + b)[i] == Appended(Appended(strings, a), b)[i] {
      assert strings[i] + (a + b) == strings[i] + a + b;
    }
    forall i | 0 <= i < |strings| ensures Appended(strings, [])[i] == strings[i] {
    }
  }

  predicate SameSizes(bs: seq<Buffer>, cs: seq<Buffer>) {
    |bs| == |cs| && forall i :: 0 <= i < |bs| ==> bs[i].len == cs[i].len
  }

  function Received(node: Node, chunk: Bytes): (r: Node)
    requires AllFit(node.buffers)
    ensures AllFit(r.buffers) && SameSizes(r.buffers, node.buffers)
  {
    var bs := Deliver(node.buffers, chunk);
    Node(bs, if AllFull(bs) then Appended(node.strings, chunk) else node.strings)
  }

  function ReceivedAll(node: Node, chunks: seq<Bytes>): (r: Node)
    requires AllFit(node.buffers)
    ensures AllFit(r.buffers) && SameSizes(r.buffers, node.buffers)
  {
    if chunks == [] then node
    else Received(ReceivedAll(node, chunks[..|chunks| - 1]), chunks[|chunks| - 1])
  }

  /** Everything read so far. */
  function Stream(chunks: seq<Bytes>): Bytes {
    if chunks == [] then [] else Stream(chunks[..|chunks| - 1]) + chunks[|chunks| - 1]
  }

  // ---- the sinks tile the stream

  /** The byte in front of `end` came with the chunk that begins at `at`. */
  predicate CameAt(chunks: seq<Bytes>, at: nat, end: nat) {
    at < end && exists m :: 0 <= m < |chunks| && at == |Stream(chunks[..m])| && end <= |Stream(chunks[..m + 1])|
  }

  /** From `start` on, each buffer holds a window of the stream. The next sink starts with the whole
      chunk that filled the buffer in front of it; nothing reaches the sinks behind a buffer that is
      not full. */
  ghost predicate Tiled(bs: seq<Buffer>, strings: seq<Bytes>, before: seq<Bytes>, chunks: seq<Bytes>, start: nat) {
    start <= |Stream(chunks)| &&
    if bs == [] then
      strings == Appended(before, Stream(chunks)[start..])
    else
      && Window(bs[0], Stream(chunks), start)
      && if Full(bs[0]) then
           exists next: nat :: Follows(chunks, start, bs[0].len, next) && Tiled(bs[1..], strings, before, chunks, next)
         else
           AllEmpty(bs[1..]) && strings == before
  }

  /** The buffer holds a window of the stream, up to its end unless the buffer is full. */
  predicate Window(b: Buffer, stream: Bytes, start: nat) {
    && start + |b.data| <= |stream|
    && b.data == stream[start..start + |b.data|]
    && (!Full(b) ==> start + |b.data| == |stream|)
  }

  /** Where the sink behind a full buffer of `len` bytes starts. */
  predicate Follows(chunks: seq<Bytes>, start: nat, len: nat, next: nat) {
    start <= next <= |Stream(chunks)| && if len == 0 then next == start else CameAt(chunks, next, start + len)
  }

  lemma StreamOn(chunks: seq<Bytes>, chunk: Bytes)
    ensures Stream(chunks + [chunk]) == Stream(chunks) + chunk
  {
    assert (chunks + [chunk])[..|chunks|] == chunks;
  }

  lemma FollowsOn(chunks: seq<Bytes>, chunk: Bytes, start: nat, len: nat, next: nat)
    requires Follows(chunks, start, len, next)
    ensures Follows(chunks + [chunk], start, len, next)
  {
    StreamOn(chunks, chunk);
    if len > 0 {
      var more := chunks + [chunk];
      var m :| 0 <= m < |chunks| && next == |Stream(chunks[..m])| && start + len <= |Stream(chunks[..m + 1])|;
      assert more[..m] == chunks[..m] && more[..m + 1] == chunks[..m + 1];
    }
  }

  /** The chunk that fills a buffer is the one the next sink starts with. */
  lemma FilledNow(chunks: seq<Bytes>, chunk: Bytes, start: nat, len: nat)
    requires start <= |Stream(chunks)| < start + len <= |Stream(chunks)| + |chunk|
    ensures Follows(chunks + [chunk], start, len, |Stream(chunks)|)
  {
    StreamOn(chunks, chunk);
    var more := chunks + [chunk];
    assert more[..|chunks|] == chunks && more[..|chunks| + 1] == more;
  }

  lemma {:induction false} UntouchedTiled(bs: seq<Buffer>, strings: seq<Bytes>, chunks: seq<Bytes>)
    requires AllEmpty(bs)
    ensures Tiled(bs, strings, strings, chunks, |Stream(chunks)|)
    decreases |bs|
  {
    if bs == [] {
      AppendedTwice(strings, [], []);
    } else {
      UntouchedTiled(bs[1..], strings, chunks);
      if Full(bs[0]) {
        assert Follows(chunks, |Stream(chunks)|, bs[0].len, |Stream(chunks)|);
      }
    }
  }

  lemma FirstReceived(bs: seq<Buffer>, strings: seq<Bytes>, chunk: Bytes)
    requires bs != [] && AllFit(bs)
    ensures var r := Received(Node(bs, strings), chunk);
            var b := Store(bs[0], chunk);
            r.buffers != [] && r.buffers[0] == b
            && if Full(b) then Node(r.buffers[1..], r.strings) == Received(Node(bs[1..], strings), chunk)
               else r.buffers[1..] == bs[1..] && r.strings == strings
  {
    var r := Received(Node(bs, strings), chunk);
    var b := Store(bs[0], chunk);
    if Full(b) {
      var rest := Deliver(bs[1..], chunk);
      assert r.buffers == [b] + rest;
      assert forall i :: 0 <= i < |rest| ==> r.buffers[i + 1] == rest[i];
    }
  }

  lemma Untile(bs: seq<Buffer>, strings: seq<Bytes>, before: seq<Bytes>, chunks: seq<Bytes>, start: nat)
    returns (next: nat)
    requires bs != [] && Tiled(bs, strings, before, chunks, start)
    ensures Window(bs[0], Stream(chunks), start)
    ensures if Full(bs[0]) then
              Follows(chunks, start, bs[0].len, next) && Tiled(bs[1..], strings, before, chunks, next)
            else AllEmpty(bs[1..]) && strings == before && next == |Stream(chunks)|
  {
    next := |Stream(chunks)|;
    if Full(bs[0]) {
      next :| Follows(chunks, start, bs[0].len, next) && Tiled(bs[1..], strings, before, chunks, next);
    }
  }

  lemma Tile(bs: seq<Buffer>, strings: seq<Bytes>, before: seq<Bytes>, chunks: seq<Bytes>, start: nat, next: nat)
    requires bs != [] && Window(bs[0], Stream(chunks), start)
    requires if Full(bs[0]) then
               Follows(chunks, start, bs[0].len, next) && Tiled(bs[1..], strings, before, chunks, next)
             else AllEmpty(bs[1..]) && strings == before
    ensures Tiled(bs, strings, before, chunks, start)
  {
  }

  lemma StoreWindow(b: Buffer, chunk: Bytes, stream: Bytes, start: nat)
    requires Fits(b) && Window(b, stream, start)
    ensures var c := Store(b, chunk);
            && Window(c, stream + chunk, start) && c.len == b.len && (Full(b) ==> c == b)
            && (!Full(b) && Full(c) ==> |stream| < start + b.len <= |stream| + |chunk|)
  {
  }

  lemma {:induction false} ChunkTiled(bs: seq<Buffer>, strings: seq<Bytes>, before: seq<Bytes>, chunks: seq<Bytes>,
                                      start: nat, chunk: Bytes)
    requires AllFit(bs) && Tiled(bs, strings, before, chunks, start)
    ensures var r := Received(Node(bs, strings), chunk);
            Tiled(r.buffers, r.strings, before, chunks + [chunk], start)
    decreases |bs|
  {
    StreamOn(chunks, chunk);
    if bs == [] {
      AppendedTwice(before, Stream(chunks)[start..], chunk);
      assert (Stream(chunks) + chunk)[start..] == Stream(chunks)[start..] + chunk;
    } else {
      hide Received, Store, Appended, Tiled, Stream, Follows;
      var next := Untile(bs, strings, before, chunks, start);
      FirstReceived(bs, strings, chunk);
      StoreWindow(bs[0], chunk, Stream(chunks), start);
      if Full(Store(bs[0], chunk)) {
        if Full(bs[0]) {
          FollowsOn(chunks, chunk, start, bs[0].len, next);
        } else {
          FilledNow(chunks, chunk, start, bs[0].len);
          UntouchedTiled(bs[1..], strings, chunks);
        }
        ChunkTiled(bs[1..], strings, before, chunks, next, chunk);
      }
      var r := Received(Node(bs, strings), chunk);
      Tile(r.buffers, r.strings, before, chunks + [chunk], start, next);
    }
  }

  /** Whatever the reads return, the sinks of a fresh node tile the stream. */
  lemma {:induction false} AllTiled(node: Node, chunks: seq<Bytes>)
    requires AllFit(node.buffers) && AllEmpty(node.buffers)
    ensures var r := ReceivedAll(node, chunks);
            Tiled(r.buffers, r.strings, node.strings, chunks, 0)
    decreases |chunks|
  {
    hide Tiled, Stream, Received, ReceivedAll, AllFit, AllEmpty, SameSizes;
    if chunks == [] {
      NothingReceived(node);
      UntouchedTiled(node.buffers, node.strings, []);
    } else {
      var n := |chunks| - 1;
      AllTiled(node, chunks[..n]);
      var r := ReceivedAll(node, chunks[..n]);
      ChunkTiled(r.buffers, r.strings, node.strings, chunks[..n], 0, chunks[n]);
      LastReceived(node, chunks);
      assert chunks[..n] + [chunks[n]] == chunks;
    }
  }

  lemma NothingReceived(node: Node)
    requires AllFit(node.buffers)
    ensures ReceivedAll(node, []) == node && |Stream([])| == 0
  {
  }

  lemma LastReceived(node: Node, chunks: seq<Bytes>)
    requires AllFit(node.buffers) && chunks != []
    ensures var n := |chunks| - 1;
            ReceivedAll(node, chunks) == Received(ReceivedAll(node, chunks[..n]), chunks[n])
  {
  }

  // ---- what the caller gets

  function Total(bs: seq<Buffer>): nat {
    if bs == [] then 0 else |bs[0].data| + Total(bs[1..])
  }

  lemma {:induction false} TiledStrings(bs: seq<Buffer>, strings: seq<Bytes>, before: seq<Bytes>, chunks: seq<Bytes>,
                                        start: nat) returns (s: nat)
    requires AllFit(bs) && Tiled(bs, strings, before, chunks, start)
    ensures s <= |Stream(chunks)| && s <= start + Total(bs)
    ensures strings == if AllFull(bs) then Appended(before, Stream(chunks)[s..]) else before
    ensures !AllFull(bs) ==> s == |Stream(chunks)|
    decreases |bs|
  {
    if bs == [] {
      s := start;
    } else {
      hide Tiled, Stream, CameAt, AllFull, AllEmpty, Appended, Window;
      var next := Untile(bs, strings, before, chunks, start);
      FullParts(bs);
      if Full(bs[0]) {
        NextWithin(chunks, start, bs[0].len, next);
        s := TiledStrings(bs[1..], strings, before, chunks, next);
      } else {
        s := |Stream(chunks)|;
      }
    }
  }

  lemma NextWithin(chunks: seq<Bytes>, start: nat, len: nat, next: nat)
    requires Follows(chunks, start, len, next)
    ensures start <= next <= start + len && next <= |Stream(chunks)|
  {
  }

  lemma FullParts(bs: seq<Buffer>)
    requires bs != []
    ensures AllFull(bs) <==> Full(bs[0]) && AllFull(bs[1..])
  {
    assert forall k :: 0 < k < |bs| ==> bs[k] == bs[1..][k - 1];
  }

  /** A string sink grows by the stream from some point on, and the bytes in front of that point
      are all in the buffer sinks: nothing read is lost while there is a string sink. */
  lemma NothingLost(node: Node, chunks: seq<Bytes>) returns (s: nat)
    requires AllFit(node.buffers) && AllEmpty(node.buffers)
    ensures var r := ReceivedAll(node, chunks);
            && s <= |Stream(chunks)| && s <= Total(r.buffers)
            && r.strings == Appended(node.strings, Stream(chunks)[s..])
  {
    AllTiled(node, chunks);
    var r := ReceivedAll(node, chunks);
    s := TiledStrings(r.buffers, r.strings, node.strings, chunks, 0);
    AppendedTwice(node.strings, [], []);
  }

  /** Without buffer sinks, or with empty ones only, a string sink grows by everything read. */
  lemma StringsWhole(node: Node, chunks: seq<Bytes>)
    requires forall i :: 0 <= i < |node.buffers| ==> node.buffers[i] == Buffer(0, [])
    ensures ReceivedAll(node, chunks).strings == Appended(node.strings, Stream(chunks))
  {
    var r := ReceivedAll(node, chunks);
    var s := NothingLost(node, chunks);
    NoRoom(r.buffers);
    assert Stream(chunks)[0..] == Stream(chunks);
  }

  lemma {:induction false} NoRoom(bs: seq<Buffer>)
    requires AllFit(bs) && forall i :: 0 <= i < |bs| ==> bs[i].len == 0
    ensures Total(bs) == 0
  {
    if bs != [] {
      NoRoom(bs[1..]);
    }
  }

  // ---- neighbours

  /** No sink with room stands between the two. */
  predicate Neighbours(bs: seq<Buffer>, i: nat, j: nat) {
    i < j <= |bs| && bs[i].len > 0 && (forall k :: i < k < j ==> bs[k].len == 0) && (j < |bs| ==> bs[j].len > 0)
  }

  lemma FirstAndRest(bs: seq<Buffer>, i: nat)
    requires 0 < i <= |bs|
    ensures bs[i..] == bs[1..][i - 1..]
    ensures AllFull(bs[..i]) <==> Full(bs[0]) && AllFull(bs[1..][..i - 1])
    ensures AllEmpty(bs[1..]) ==> AllEmpty(bs[i..])
  {
    assert bs[..i] == [bs[0]] + bs[1..][..i - 1];
    assert bs[..i][0] == bs[0];
  }

  /** The tiling from a buffer on: it starts at `at`, or nothing has reached it. */
  lemma {:induction false} TiledFrom(bs: seq<Buffer>, strings: seq<Bytes>, before: seq<Bytes>, chunks: seq<Bytes>,
                                     start: nat, i: nat) returns (at: nat)
    requires i <= |bs| && start <= |Stream(chunks)| && Tiled(bs, strings, before, chunks, start)
    ensures at <= |Stream(chunks)|
    ensures if AllFull(bs[..i]) then Tiled(bs[i..], strings, before, chunks, at)
            else AllEmpty(bs[i..]) && strings == before && at == |Stream(chunks)|
    ensures (forall k :: 0 <= k < i ==> bs[k].len == 0) && AllFull(bs[..i]) ==> at == start
    decreases i
  {
    if i == 0 {
      at := start;
      assert bs[0..] == bs;
    } else {
      hide Tiled, Stream, CameAt, Window, AllFull, AllEmpty;
      var next := Untile(bs, strings, before, chunks, start);
      FirstAndRest(bs, i);
      if Full(bs[0]) {
        at := TiledFrom(bs[1..], strings, before, chunks, next, i - 1);
      } else {
        at := next;
      }
    }
  }

  /** Two neighbours at the front of a tiling. */
  lemma TiledPair(bs: seq<Buffer>, strings: seq<Bytes>, before: seq<Bytes>, chunks: seq<Bytes>, start: nat, j: nat)
    returns (t: nat)
    requires AllFit(bs) && Neighbours(bs, 0, j) && start <= |Stream(chunks)|
    requires Tiled(bs, strings, before, chunks, start)
    ensures Window(bs[0], Stream(chunks), start) && t <= |Stream(chunks)|
    ensures Full(bs[0]) ==> start <= t && CameAt(chunks, t, start + bs[0].len)
    ensures !Full(bs[0]) ==> AllEmpty(bs[j..]) && strings == before && t == |Stream(chunks)|
    ensures Full(bs[0]) && j < |bs| ==> Window(bs[j], Stream(chunks), t)
    ensures Full(bs[0]) && j == |bs| ==> strings == Appended(before, Stream(chunks)[t..])
  {
    hide Stream, CameAt, Window, Appended;
    var next := Untile(bs, strings, before, chunks, start);
    FirstAndRest(bs, j);
    t := next;
    if Full(bs[0]) {
      BetweenFull(bs[1..], j - 1);
      t := TiledFrom(bs[1..], strings, before, chunks, next, j - 1);
      assert bs[j..] == [] || bs[j..][0] == bs[j];
    }
  }

  lemma BetweenFull(bs: seq<Buffer>, n: nat)
    requires AllFit(bs) && n <= |bs| && forall k :: 0 <= k < n ==> bs[k].len == 0
    ensures AllFull(bs[..n])
  {
  }

  /** Of two neighbouring sinks the first holds the stream from `s` on. The second gets something if
      and only if the first is full, that is, if the stream reaches so far; and then it starts at the
      chunk that filled the first, so what they hold overlaps. With j past the last buffer the second
      are the string sinks. */
  lemma BuffersOverlap(node: Node, chunks: seq<Bytes>, i: nat, j: nat) returns (s: nat, t: nat)
    requires AllFit(node.buffers) && AllEmpty(node.buffers) && Neighbours(node.buffers, i, j)
    ensures var r := ReceivedAll(node, chunks); var stream := Stream(chunks); var len := node.buffers[i].len;
            && s <= |stream| && t <= |stream|
            && r.buffers[i].data == stream[s..Min(s + len, |stream|)]
            && (Full(r.buffers[i]) <==> s + len <= |stream|)
            && (Full(r.buffers[i]) ==> s <= t < s + len && CameAt(chunks, t, s + len))
            && (j < |node.buffers| ==>
                  && (r.buffers[j].data != [] <==> Full(r.buffers[i]))
                  && r.buffers[j].data == stream[t..Min(t + node.buffers[j].len, |stream|)])
            && (j == |node.buffers| ==>
                  r.strings == if Full(r.buffers[i]) then Appended(node.strings, stream[t..]) else node.strings)
    ensures (forall k :: 0 <= k < i ==> node.buffers[k].len == 0) ==> s == 0
  {
    hide Stream, Appended, ReceivedAll, Window, Tiled;
    AllTiled(node, chunks);
    var r := ReceivedAll(node, chunks);
    var bs, stream := r.buffers, Stream(chunks);
    s := TiledFrom(bs, r.strings, node.strings, chunks, 0, i);
    t := |stream|;
    assert bs[i..][0] == bs[i] && (j < |bs| ==> bs[i..][j - i] == bs[j]);
    if AllFull(bs[..i]) {
      t := TiledPair(bs[i..], r.strings, node.strings, chunks, s, j - i);
    } else {
      AtTheEnd(bs[i], stream);
    }
    Held(bs[i], stream, s);
    if j < |bs| {
      if !Full(bs[i]) {
        assert bs[j].data == [];
        AtTheEnd(bs[j], stream);
      }
      Held(bs[j], stream, t);
    }
    if forall k :: 0 <= k < i ==> node.buffers[k].len == 0 {
      BetweenFull(bs, i);
    }
  }

  /** The window of a buffer, given by its start. */
  lemma Held(b: Buffer, stream: Bytes, start: nat)
    requires Fits(b) && Window(b, stream, start)
    ensures start <= |stream| && b.data == stream[start..Min(start + b.len, |stream|)]
    ensures Full(b) <==> start + b.len <= |stream|
    ensures b.len > 0 ==> (b.data != [] <==> start < |stream|)
  {
  }

  lemma AtTheEnd(b: Buffer, stream: Bytes)
    requires b.data == []
    ensures Window(b, stream, |stream|)
  {
  }

  /** The first buffer sink with room holds as much of the start of the stream as fits. */
  lemma FirstBuffer(node: Node, chunks: seq<Bytes>, k: nat)
    requires AllFit(node.buffers) && AllEmpty(node.buffers)
    requires k < |node.buffers| && node.buffers[k].len > 0
    requires forall i :: 0 <= i < k ==> node.buffers[i].len == 0
    ensures var len := node.buffers[k].len;
            ReceivedAll(node, chunks).buffers[k].data == Stream(chunks)[..Min(len, |Stream(chunks)|)]
  {
    var j := NextRoom(node.buffers, k);
    var s, t := BuffersOverlap(node, chunks, k, j);
  }

  lemma NextRoom(bs: seq<Buffer>, i: nat) returns (j: nat)
    requires i < |bs| && bs[i].len > 0
    ensures Neighbours(bs, i, j)
  {
    j := i + 1;
    while j < |bs| && bs[j].len == 0
      invariant i < j <= |bs|
      invariant forall k :: i < k < j ==> bs[k].len == 0
    {
      j := j + 1;
    }
  }

  /** One read of two bytes is enough: both buffers hold the first byte. */
  lemma OverlapOfOneRead(a: u8, b: u8)
    ensures var node := Node([Buffer(1, []), Buffer(2, [])], []);
            ReceivedAll(node, [[a, b]]).buffers == [Buffer(1, [a]), Buffer(2, [a, b])]
  {
    var node := Node([Buffer(1, []), Buffer(2, [])], []);
    var chunks: seq<Bytes> := [[a, b]];
    var s, t := BuffersOverlap(node, chunks, 0, 1);
    assert chunks[..0] == [] && chunks[..1] == chunks;
    assert Stream(chunks) == [a, b];
    var r := ReceivedAll(node, chunks);
    assert r.buffers[0].data == [a, b][0..1] == [a];
    assert t == 0;
    assert r.buffers[1].data == [a, b][0..2] == [a, b];
    assert r.buffers == [r.buffers[0], r.buffers[1]];
  }
}
