/** The NCCL weight broadcast: rank 0 fills one of two buffers while the other one is being
  broadcast; a receiver yields from one buffer while the next bucket arrives in the other.

  A broadcast runs in its own thread from its creation until `wait_for_complete`. On rank 0 it
  may read its buffer at any moment of that span, on a receiver it may write it at any moment,
  so `Wait` takes the bytes of the last possible moment and `BeginReceive` leaves the receive
  buffer in an arbitrary state. */
module NcclBroadcast {
  import opened Wrappers
  import opened Buckets

  /** Rank 0's side of an unfinished broadcast: a reference to the buffer, not a copy of it. */
  datatype Broadcast = Broadcast(bucket: array<byte>, meta: seq<TensorMeta>, isLast: bool)

  /** What every receiver gets out of one broadcast: the metadata and the whole buffer. */
  datatype Wire = Wire(meta: seq<TensorMeta>, isLast: bool, bytes: seq<byte>)

  predicate WireOf(w: Wire, b: Bucket) {
    w.meta == b.meta && w.isLast == b.isLast && b.payload <= w.bytes
  }

  /** `send_buf[offset : offset + nbytes] = weight`, never into a buffer that is being broadcast. */
  method CopyIn(buf: array<byte>, offset: nat, data: seq<byte>, ghost op: Option<Broadcast>)
    requires offset + |data| <= buf.Length
    requires op.Some? ==> op.value.bucket != buf
    modifies buf
    ensures buf[..] == old(buf[..offset]) + data + old(buf[offset + |data|..])
    ensures buf[..offset + |data|] == old(buf[..offset]) + data
  {
    for i := 0 to |data|
      invariant buf[..offset] == old(buf[..offset])
      invariant buf[offset..offset + i] == data[..i]
      invariant buf[offset + i..] == old(buf[offset + i..])
    {
      assert old(buf[offset + i..])[1..] == old(buf[offset + i + 1..]);
      buf[offset + i] := data[i];
    }
    assert buf[..offset + |data|] == buf[..offset] + buf[offset..offset + |data|];
    assert buf[..] == buf[..offset + |data|] + buf[offset + |data|..];
  }

  /** `wait_for_complete` on rank 0: the bytes the collective has read by then. */
  method Wait(op: Broadcast) returns (w: Wire)
    ensures w == Wire(op.meta, op.isLast, op.bucket[..])
  {
    w := Wire(op.meta, op.isLast, op.bucket[..]);
  }

  /** The first `|wire|` buckets of the plan are through. */
  predicate Through(size: nat, bs: seq<Bucket>, wire: seq<Wire>) {
    && |wire| <= |bs|
    && forall k :: 0 <= k < |wire| ==> WireOf(wire[k], bs[k]) && |wire[k].bytes| == size
  }

  lemma OneMoreThrough(size: nat, bs: seq<Bucket>, wire: seq<Wire>, w: Wire)
    requires Through(size, bs, wire) && |wire| < |bs| && WireOf(w, bs[|wire|]) && |w.bytes| == size
    ensures Through(size, bs, wire + [w])
  {}

  /** `op`, if there is one, carries bucket k of the plan. */
  ghost predicate Carries(size: nat, bs: seq<Bucket>, op: Option<Broadcast>, k: nat)
    reads if op.Some? then {op.value.bucket} else {}
  {
    op.Some? ==>
      k < |bs| && op.value.bucket.Length == size
      && WireOf(Wire(op.value.meta, op.value.isLast, op.value.bucket[..]), bs[k])
  }

  /** Rank 0 waits for its unfinished broadcast, if any. */
  method WaitPrevious(size: nat, ghost bs: seq<Bucket>, op: Option<Broadcast>, wire: seq<Wire>)
      returns (wire': seq<Wire>)
    requires Through(size, bs, wire) && Carries(size, bs, op, |wire|)
    ensures Through(size, bs, wire') && |wire'| == |wire| + Pending(op)
  {
    wire' := wire;
    if op.Some? {
      var done := Wait(op.value);
      OneMoreThrough(size, bs, wire, done);
      wire' := wire' + [done];
    }
  }

  function Pending(op: Option<Broadcast>): nat {
    if op.Some? then 1 else 0
  }

  /** `send_weights`: broadcasts exactly the packed buckets; a weight larger than a bucket makes it
      fail, when all weights before are through but for the broadcast just begun. */
  method SendWeights(size: nat, ws: seq<Weight>, bufA: array<byte>, bufB: array<byte>)
      returns (ok: bool, wire: seq<Wire>)
    requires bufA != bufB && bufA.Length == bufB.Length == size
    modifies bufA, bufB
    ensures ok <==> AllFit(size, ws)
    ensures ok ==> Through(size, Pack(size, ws), wire) && |wire| == |Pack(size, ws)|
    ensures !ok ==> Through(size, Stream(size, ws), wire) && |wire| + 1 == |Stream(size, ws)|
  {
    hide Payload, MetaOf, ChunksFrom, Chunks, Pack, Stream, Sendable, DictPut, WireOf, Through;
    var sendBuf, recvBuf := bufA, bufB;
    var op: Option<Broadcast> := None;
    var meta: seq<TensorMeta>, offset: nat, first: nat := [], 0, 0;
    ghost var bs, front := Stream(size, ws), Sendable(size, ws);
    ok, wire := true, [];
    StartOnPlan(size, ws);
    for i := 0 to |ws|
      invariant {sendBuf, recvBuf} == {bufA, bufB} && sendBuf != recvBuf
      invariant op.Some? ==> op.value.bucket == recvBuf
      invariant first <= i <= |front| && Filled(size, front[first..i], meta, offset, sendBuf)
      invariant OnPlan(size, ws, first, i, |wire| + Pending(op))
      invariant Through(size, bs, wire) && Carries(size, bs, op, |wire|)
    {
      var w := ws[i];
      if offset + |w.data| > size {
        wire := WaitPrevious(size, bs, op, wire);
        op := Some(Broadcast(sendBuf, meta, false));
        FlushOnPlan(size, ws, first, i, |wire|, sendBuf);
        sendBuf, recvBuf := recvBuf, sendBuf;
        meta, offset, first := [], 0, i;
        StartFilled(size, front, i, sendBuf);
      }
      if offset + |w.data| > size {
        ok := false;
        return;
      }
      FillOnPlan(size, ws, first, i, |wire| + Pending(op));
      CopyIn(sendBuf, offset, w.data, op);
      meta, offset := DictPut(meta, TensorMeta(w.name, w.shape, offset)), offset + |w.data|;
    }
    wire := WaitPrevious(size, bs, op, wire);
    op := Some(Broadcast(sendBuf, meta, true));
    CloseOnPlan(size, ws, first, |wire|, sendBuf);
    wire := WaitPrevious(size, bs, op, wire);
  }

  /** The open bucket holds the weights `run`: their metadata, their size and their bytes. */
  predicate Filled(size: nat, run: seq<Weight>, meta: seq<TensorMeta>, offset: nat, buf: array<byte>)
    reads buf
  {
    && meta == MetaOf(run) && offset == |Payload(run)| <= size == buf.Length
    && buf[..offset] == Payload(run)
  }

  /** After k published buckets, with weights first to i - 1 open, the plan is being followed. */
  predicate OnPlan(size: nat, ws: seq<Weight>, first: nat, i: nat, k: nat)
    requires first <= i <= |Sendable(size, ws)|
  {
    var front := Sendable(size, ws);
    && k < |Stream(size, ws)| == |Chunks(size, front)|
    && ChunksFrom(size, front[first..i], front[i..]) == Chunks(size, front)[k..]
  }

  lemma StartFilled(size: nat, ws: seq<Weight>, i: nat, buf: array<byte>)
    requires i <= |ws| && buf.Length == size
    ensures Filled(size, ws[i..i], [], 0, buf)
  {}

  lemma StartOnPlan(size: nat, ws: seq<Weight>)
    ensures OnPlan(size, ws, 0, 0, 0)
    ensures var none := Sendable(size, ws)[0..0]; Payload(none) == [] && MetaOf(none) == []
    ensures Through(size, Stream(size, ws), [])
  {}

  /** A weight that fits joins the open bucket. */
  lemma FillOnPlan(size: nat, ws: seq<Weight>, first: nat, i: nat, k: nat)
    requires first <= i < |Sendable(size, ws)| && OnPlan(size, ws, first, i, k)
    requires var front := Sendable(size, ws); |Payload(front[first..i])| + |front[i].data| <= size
    ensures OnPlan(size, ws, first, i + 1, k)
    ensures var front := Sendable(size, ws);
      && Payload(front[first..i + 1]) == Payload(front[first..i]) + front[i].data
      && MetaOf(front[first..i + 1]) ==
           DictPut(MetaOf(front[first..i]), TensorMeta(front[i].name, front[i].shape, |Payload(front[first..i])|))
  {
    var front := Sendable(size, ws);
    assert front[first..i + 1] == front[first..i] + [front[i]];
    assert front[first..i + 1][..i - first] == front[first..i];
    assert front[i..][0] == front[i] && front[i..][1..] == front[i + 1..];
  }

  /** Closing the open bucket because weight i does not fit in it yields bucket k of the plan: the
      last one, if it would fit in no bucket. */
  lemma FlushOnPlan(size: nat, ws: seq<Weight>, first: nat, i: nat, k: nat, buf: array<byte>)
    requires first <= i <= |Sendable(size, ws)| && i < |ws| && OnPlan(size, ws, first, i, k)
    requires var run := Sendable(size, ws)[first..i];
      |Payload(run)| + |ws[i].data| > size && Filled(size, run, MetaOf(run), |Payload(run)|, buf)
    ensures Carries(size, Stream(size, ws), Some(Broadcast(buf, MetaOf(Sendable(size, ws)[first..i]), false)), k)
    ensures if |ws[i].data| <= size then i < |Sendable(size, ws)| && OnPlan(size, ws, i, i, k + 1)
            else k + 1 == |Stream(size, ws)|
  {
    hide Stream, Sendable, Chunks, ChunksFrom, MetaOf, Payload;
    var front := Sendable(size, ws);
    StreamAt(size, ws, k);
    assert i < |front| ==> |front[i].data| <= size && front[i] == ws[i];
    RunFlushed(size, front, first, i, k);
    assert front[i..i] == [];
  }

  /** What is left when the weights run out is the last bucket of the plan. */
  lemma CloseOnPlan(size: nat, ws: seq<Weight>, first: nat, k: nat, buf: array<byte>)
    requires AllFit(size, ws) && first <= |ws| && OnPlan(size, ws, first, |ws|, k)
    requires Filled(size, ws[first..|ws|], MetaOf(ws[first..|ws|]), |Payload(ws[first..|ws|])|, buf)
    ensures k + 1 == |Stream(size, ws)|
    ensures Carries(size, Stream(size, ws), Some(Broadcast(buf, MetaOf(ws[first..|ws|]), true)), k)
  {
    StreamAt(size, ws, k);
  }

  // ----- the receiving ranks

  /** A broadcast into `buf` has begun: it may have written anything so far. */
  method BeginReceive(buf: array<byte>)
    modifies buf
  {}

  /** `wait_for_complete` on a receiver. */
  method Arrive(buf: array<byte>, w: Wire)
    requires buf.Length == |w.bytes|
    modifies buf
    ensures buf[..] == w.bytes
  {
    forall i | 0 <= i < buf.Length {
      buf[i] := w.bytes[i];
    }
  }

  predicate ReadableWire(item: nat, size: nat, wire: seq<Wire>) {
    && |wire| > 0
    && forall k :: 0 <= k < |wire| ==>
         |wire[k].bytes| == size && InBounds(item, wire[k].meta, size) && (wire[k].isLast <==> k == |wire| - 1)
  }

  function Received(item: nat, size: nat, wire: seq<Wire>): seq<Weight>
    requires forall k :: 0 <= k < |wire| ==> |wire[k].bytes| == size && InBounds(item, wire[k].meta, size)
  {
    if wire == [] then [] else
      Received(item, size, wire[..|wire| - 1]) + Decode(item, wire[|wire| - 1].meta, wire[|wire| - 1].bytes)
  }

  /** Yield every tensor of one bucket out of `buf`. */
  method YieldAll(item: nat, meta: seq<TensorMeta>, buf: array<byte>) returns (out: seq<Weight>)
    requires InBounds(item, meta, buf.Length)
    ensures out == Decode(item, meta, buf[..])
  {
    out := [];
    for i := 0 to |meta|
      invariant out == Decode(item, meta, buf[..])[..i]
    {
      out := out + [Cut(item, meta[i], buf[..])];
    }
  }

  /** `receive_weights`: everything cut out of every broadcast, in order, although the next
      broadcast is already writing while a bucket is being yielded. */
  method ReceiveWeights(item: nat, size: nat, wire: seq<Wire>, bufA: array<byte>, bufB: array<byte>)
      returns (out: seq<Weight>)
    requires bufA != bufB && bufA.Length == bufB.Length == size
    requires ReadableWire(item, size, wire)
    modifies bufA, bufB
    ensures out == Received(item, size, wire)
  {
    var sendBuf, recvBuf := bufA, bufB;
    out := [];
    BeginReceive(recvBuf);
    Arrive(recvBuf, wire[0]);
    sendBuf, recvBuf := recvBuf, sendBuf;
    var k := 0;
    while !wire[k].isLast
      invariant k < |wire|
      invariant {sendBuf, recvBuf} == {bufA, bufB} && sendBuf != recvBuf
      invariant sendBuf[..] == wire[k].bytes
      invariant out == Received(item, size, wire[..k])
      decreases |wire| - k
    {
      BeginReceive(recvBuf);
      var ts := YieldAll(item, wire[k].meta, sendBuf);
      assert wire[..k + 1][..k] == wire[..k];
      out := out + ts;
      k := k + 1;
      Arrive(recvBuf, wire[k]);
      sendBuf, recvBuf := recvBuf, sendBuf;
    }
    var ts := YieldAll(item, wire[k].meta, sendBuf);
    assert wire[..k + 1][..k] == wire[..k] && wire[..k + 1] == wire;
    out := out + ts;
  }

  lemma {:induction false} WireUnpacks(item: nat, size: nat, wire: seq<Wire>, bs: seq<Bucket>)
    requires |wire| == |bs| && Readable(item, bs) && Through(size, bs, wire)
    ensures forall k :: 0 <= k < |wire| ==> InBounds(item, wire[k].meta, size)
    ensures Received(item, size, wire) == Unpack(item, bs)
  {
    if bs != [] {
      var n := |bs| - 1;
      WireUnpacks(item, size, wire[..n], bs[..n]);
      DecodeIgnoresSlack(item, bs[n].meta, bs[n].payload, wire[n].bytes);
    }
  }

  /** One weight update: what a receiver yields is what rank 0 was given, for every sequence of
      weights that fit a bucket, exactly when no bucket was given one name twice. */
  method UpdateWeights(item: nat, size: nat, ws: seq<Weight>) returns (ok: bool, out: seq<Weight>)
    requires AllWellFormed(item, ws)
    ensures ok <==> AllFit(size, ws)
    ensures ok ==> (out == ws <==> BucketNamesDistinct(size, ws))
  {
    hide Payload, MetaOf, ChunksFrom, Chunks, DictPut, Received;
    var sendA, sendB := new byte[size], new byte[size];
    var wire;
    ok, wire := SendWeights(size, ws, sendA, sendB);
    out := [];
    if ok {
      PackRoundTrip(item, size, ws);
      WireUnpacks(item, size, wire, Pack(size, ws));
      var recvA, recvB := new byte[size], new byte[size];
      out := ReceiveWeights(item, size, wire, recvA, recvB);
    }
  }
}
