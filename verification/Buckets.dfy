/** Bucket packing shared by the NIXL and NCCL checkpoint engines.

  Weights arrive already converted to the rollout dtype, so every tensor has the same item
  size. A bucket is a run of consecutive weights: their bytes lie back to back in a buffer of
  `size` bytes, and an insertion-ordered dictionary from name to metadata says where. */
module Buckets {
  import opened Arithmetic

  newtype byte = x: int | 0 <= x < 256

  /** A tensor of the rollout dtype: `data` is its flat byte view. */
  datatype Weight = Weight(name: string, shape: seq<nat>, data: seq<byte>)

  datatype TensorMeta = TensorMeta(name: string, shape: seq<nat>, offset: nat)

  /** What one transfer carries: the metadata dictionary in insertion order, the bytes the
      buffer must start with, and the end-of-stream flag. */
  datatype Bucket = Bucket(meta: seq<TensorMeta>, payload: seq<byte>, isLast: bool)

  function Numel(shape: seq<nat>): nat {
    if shape == [] then 1 else Product(shape[0], Numel(shape[1..]))
  }

  /** `dtype.itemsize * shape.numel()` */
  function Nbytes(item: nat, shape: seq<nat>): nat {
    Product(item, Numel(shape))
  }

  /** The number of elements is that of a vector, and multiplies along the dimensions. */
  lemma {:induction false} NumelLaws(s: seq<nat>, t: seq<nat>, n: nat)
    ensures Numel([]) == 1 && Numel([n]) == n
    ensures Numel(s + t) == Numel(s) * Numel(t)
  {
    assert Numel([n]) == Product(n, Numel([]));
    if s == [] {
      assert s + t == t;
    } else {
      assert (s + t)[1..] == s[1..] + t;
      NumelLaws(s[1..], t, n);
      assert s[0] * (Numel(s[1..]) * Numel(t)) == (s[0] * Numel(s[1..])) * Numel(t);
    }
  }

  lemma NbytesMeans(item: nat, shape: seq<nat>)
    ensures Nbytes(item, shape) == item * Numel(shape)
  {}

  predicate WellFormed(item: nat, w: Weight) {
    |w.data| == Nbytes(item, w.shape)
  }

  predicate AllWellFormed(item: nat, ws: seq<Weight>) {
    forall i :: 0 <= i < |ws| ==> WellFormed(item, ws[i])
  }

  predicate AllFit(size: nat, ws: seq<Weight>) {
    forall i :: 0 <= i < |ws| ==> |ws[i].data| <= size
  }

  /** The bytes of a run of weights, back to back. */
  function Payload(ws: seq<Weight>): seq<byte> {
    if ws == [] then [] else Payload(ws[..|ws| - 1]) + ws[|ws| - 1].data
  }

  // ----- the metadata dictionary

  function Find(meta: seq<TensorMeta>, name: string): (i: nat)
    ensures i <= |meta|
    ensures i < |meta| ==> meta[i].name == name
    ensures forall j :: 0 <= j < i ==> meta[j].name != name
  {
    if meta == [] || meta[0].name == name then 0 else 1 + Find(meta[1..], name)
  }

  /** `bucket_meta[name] = m`: a known key keeps its place and changes its value. */
  function DictPut(meta: seq<TensorMeta>, m: TensorMeta): seq<TensorMeta> {
    var i := Find(meta, m.name);
    if i < |meta| then meta[i := m] else meta + [m]
  }

  function MetaOf(ws: seq<Weight>): seq<TensorMeta> {
    if ws == [] then [] else
      var front, w := ws[..|ws| - 1], ws[|ws| - 1];
      DictPut(MetaOf(front), TensorMeta(w.name, w.shape, |Payload(front)|))
  }

  predicate InBounds(item: nat, meta: seq<TensorMeta>, limit: nat) {
    forall i :: 0 <= i < |meta| ==> meta[i].offset + Nbytes(item, meta[i].shape) <= limit
  }

  /** The tensor a receiver cuts out of its buffer for one metadata entry. */
  function Cut(item: nat, m: TensorMeta, buf: seq<byte>): Weight
    requires m.offset + Nbytes(item, m.shape) <= |buf|
  {
    Weight(m.name, m.shape, buf[m.offset..m.offset + Nbytes(item, m.shape)])
  }

  function Decode(item: nat, meta: seq<TensorMeta>, buf: seq<byte>): (ws: seq<Weight>)
    requires InBounds(item, meta, |buf|)
    ensures |ws| == |meta|
  {
    seq(|meta|, i requires 0 <= i < |meta| => Cut(item, meta[i], buf))
  }

  predicate DistinctNames(ws: seq<Weight>) {
    forall i, j :: 0 <= i < j < |ws| ==> ws[i].name != ws[j].name
  }

  /** Only the buffer's prefix matters, whatever an earlier bucket left behind it. */
  lemma DecodeIgnoresSlack(item: nat, meta: seq<TensorMeta>, payload: seq<byte>, buf: seq<byte>)
    requires InBounds(item, meta, |payload|) && payload <= buf
    ensures InBounds(item, meta, |buf|)
    ensures Decode(item, meta, buf) == Decode(item, meta, payload)
  {
    hide Product, Numel;
    forall i | 0 <= i < |meta|
      ensures Decode(item, meta, buf)[i] == Decode(item, meta, payload)[i]
    {
      var lo, hi := meta[i].offset, meta[i].offset + Nbytes(item, meta[i].shape);
      assert hi <= |payload| && payload == buf[..|payload|];
      assert buf[lo..hi] == payload[lo..hi];
    }
  }

  lemma {:induction false} MetaInBounds(item: nat, ws: seq<Weight>)
    requires AllWellFormed(item, ws)
    ensures InBounds(item, MetaOf(ws), |Payload(ws)|)
  {
    if ws != [] {
      MetaInBounds(item, ws[..|ws| - 1]);
    }
  }

  lemma {:induction false} MetaNoLonger(ws: seq<Weight>)
    ensures |MetaOf(ws)| <= |ws|
  {
    if ws != [] {
      MetaNoLonger(ws[..|ws| - 1]);
    }
  }

  lemma DictKeeps(meta: seq<TensorMeta>, m: TensorMeta, i: nat)
    requires i < |meta|
    ensures i < |DictPut(meta, m)| && DictPut(meta, m)[i].name == meta[i].name
  {}

  lemma {:induction false} MetaHas(ws: seq<Weight>, i: nat) returns (at: nat)
    requires i < |ws|
    ensures at < |MetaOf(ws)| && MetaOf(ws)[at].name == ws[i].name
  {
    var front, w := ws[..|ws| - 1], ws[|ws| - 1];
    if i == |front| {
      at := Find(MetaOf(front), w.name);
    } else {
      at := MetaHas(front, i);
      DictKeeps(MetaOf(front), TensorMeta(w.name, w.shape, |Payload(front)|), at);
    }
  }

  lemma {:induction false} MetaDistinct(ws: seq<Weight>, i: nat)
    requires DistinctNames(ws)
    ensures |MetaOf(ws)| == |ws|
    ensures i < |ws| ==> MetaOf(ws)[i] == TensorMeta(ws[i].name, ws[i].shape, |Payload(ws[..i])|)
  {
    if ws != [] {
      var front, w := ws[..|ws| - 1], ws[|ws| - 1];
      MetaDistinct(front, i);
      var at := Find(MetaOf(front), w.name);
      if at < |front| {
        MetaDistinct(front, at);
      }
      if i < |front| {
        assert front[..i] == ws[..i];
      } else {
        assert ws[..|front|] == front;
      }
    }
  }

  lemma {:induction false} PayloadPrefix(ws: seq<Weight>, i: nat)
    requires i < |ws|
    ensures |Payload(ws[..i])| + |ws[i].data| <= |Payload(ws)|
    ensures Payload(ws)[|Payload(ws[..i])|..|Payload(ws[..i])| + |ws[i].data|] == ws[i].data
  {
    var front := ws[..|ws| - 1];
    if i == |front| {
    } else {
      PayloadPrefix(front, i);
      assert front[..i] == ws[..i];
      var lo, hi := |Payload(ws[..i])|, |Payload(ws[..i])| + |ws[i].data|;
      assert Payload(ws)[lo..hi] == Payload(front)[lo..hi];
    }
  }

  lemma CutDistinct(item: nat, ws: seq<Weight>, i: nat)
    requires AllWellFormed(item, ws) && DistinctNames(ws) && i < |ws|
    ensures |MetaOf(ws)| == |ws|
    ensures MetaOf(ws)[i].offset + Nbytes(item, MetaOf(ws)[i].shape) <= |Payload(ws)|
    ensures Cut(item, MetaOf(ws)[i], Payload(ws)) == ws[i]
  {
    hide DistinctNames, MetaOf, Payload;
    MetaDistinct(ws, i);
    PayloadPrefix(ws, i);
  }

  /** Cutting a run of distinctly named weights out of its bytes gives the run back. */
  lemma DecodeDistinct(item: nat, ws: seq<Weight>)
    requires AllWellFormed(item, ws) && DistinctNames(ws)
    ensures InBounds(item, MetaOf(ws), |Payload(ws)|)
    ensures Decode(item, MetaOf(ws), Payload(ws)) == ws
  {
    MetaInBounds(item, ws);
    MetaDistinct(ws, 0);
    var meta, payload := MetaOf(ws), Payload(ws);
    forall i | 0 <= i < |ws| ensures Cut(item, meta[i], payload) == ws[i] {
      CutDistinct(item, ws, i);
    }
  }

  /** A repeated name costs a tensor: the later one takes over the earlier one's entry. */
  lemma {:induction false} RepeatShrinksMeta(ws: seq<Weight>)
    requires !DistinctNames(ws)
    ensures |MetaOf(ws)| < |ws|
  {
    var front, w := ws[..|ws| - 1], ws[|ws| - 1];
    MetaNoLonger(front);
    if DistinctNames(front) {
      var i :| 0 <= i < |front| && front[i].name == w.name;
      var at := MetaHas(front, i);
    } else {
      RepeatShrinksMeta(front);
    }
  }

  function Names(ws: seq<Weight>): set<string> { set w | w in ws :: w.name }

  /** No later weight has the name of weight i. */
  predicate LastOfName(ws: seq<Weight>, i: nat) {
    i < |ws| && forall j :: i < j < |ws| ==> ws[j].name != ws[i].name
  }

  function EntryOf(ws: seq<Weight>, i: nat): TensorMeta
    requires i < |ws|
  {
    TensorMeta(ws[i].name, ws[i].shape, |Payload(ws[..i])|)
  }

  /** What is left of repeated names: the dictionary has one entry for each name, that of the last
      weight of the name, so exactly the weights with a later namesake are lost. */
  lemma MetaExact(ws: seq<Weight>)
    ensures |MetaOf(ws)| == |Names(ws)|
    ensures forall i :: 0 <= i < |ws| && LastOfName(ws, i) ==> EntryOf(ws, i) in MetaOf(ws)
  {
    hide MetaOf, Names, LastOfName, EntryOf;
    MetaCounts(ws);
    forall i | 0 <= i < |ws| && LastOfName(ws, i) ensures EntryOf(ws, i) in MetaOf(ws) {
      MetaEntry(ws, i);
    }
  }

  predicate Listed(meta: seq<TensorMeta>, name: string) {
    exists i :: 0 <= i < |meta| && meta[i].name == name
  }

  lemma {:induction false} MetaCounts(ws: seq<Weight>)
    ensures |MetaOf(ws)| == |Names(ws)|
    ensures forall name :: Listed(MetaOf(ws), name) <==> name in Names(ws)
  {
    hide DictPut, Listed, Payload, Names, MetaOf, EntryOf;
    if ws == [] {
      NoneListed();
    } else {
      MetaCounts(ws[..|ws| - 1]);
      LastStep(ws);
      PutLists(MetaOf(ws[..|ws| - 1]), EntryOf(ws, |ws| - 1));
    }
  }

  lemma NoneListed()
    ensures MetaOf([]) == [] && Names([]) == {} && forall name :: !Listed([], name)
  {}

  lemma LastStep(ws: seq<Weight>)
    requires ws != []
    ensures var (n, front) := (|ws| - 1, ws[..|ws| - 1]);
      MetaOf(ws) == DictPut(MetaOf(front), EntryOf(ws, n)) && Names(ws) == Names(front) + {EntryOf(ws, n).name}
  {
    hide DictPut, Payload, Names;
    var n := |ws| - 1;
    assert ws == ws[..n] + [ws[n]];
    LastName(ws[..n], ws[n]);
  }

  lemma LastName(ws: seq<Weight>, w: Weight)
    ensures Names(ws + [w]) == Names(ws) + {w.name}
  {
    forall name ensures name in Names(ws + [w]) <==> name in Names(ws) || name == w.name {
      assert w in ws + [w];
    }
  }

  lemma PutLists(meta: seq<TensorMeta>, m: TensorMeta)
    ensures |DictPut(meta, m)| == |meta| + if Listed(meta, m.name) then 0 else 1
    ensures forall name :: Listed(DictPut(meta, m), name) <==> Listed(meta, name) || name == m.name
  {
    var put := DictPut(meta, m);
    assert put[Find(meta, m.name)] == m;
    forall name ensures Listed(put, name) <==> Listed(meta, name) || name == m.name {
      if Listed(meta, name) {
        var i :| 0 <= i < |meta| && meta[i].name == name;
        DictKeeps(meta, m, i);
      }
    }
  }

  lemma {:induction false} MetaEntry(ws: seq<Weight>, i: nat)
    requires LastOfName(ws, i)
    ensures EntryOf(ws, i) in MetaOf(ws)
  {
    hide DictPut, Payload, Names;
    var n := |ws| - 1;
    var front := ws[..n];
    LastStep(ws);
    hide MetaOf;
    if i == n {
      PutHas(MetaOf(front), EntryOf(ws, n));
    } else {
      MetaEntry(front, i);
      assert front[..i] == ws[..i];
      PutKeeps(MetaOf(front), EntryOf(ws, n), EntryOf(ws, i));
    }
  }

  lemma PutHas(meta: seq<TensorMeta>, m: TensorMeta)
    ensures m in DictPut(meta, m)
  {
    var i := Find(meta, m.name);
    assert DictPut(meta, m)[i] == m;
  }

  lemma PutKeeps(meta: seq<TensorMeta>, m: TensorMeta, x: TensorMeta)
    requires x in meta && x.name != m.name
    ensures x in DictPut(meta, m)
  {
    var i :| 0 <= i < |meta| && meta[i] == x;
    assert DictPut(meta, m)[i] == x;
  }

  // ----- the greedy split into buckets

  /** The buckets still to come when `acc` is the open bucket: a weight that would overflow it
      closes it first. (`send_weights` gives up on a weight that overflows an empty bucket.) */
  function ChunksFrom(size: nat, acc: seq<Weight>, ws: seq<Weight>): (cs: seq<seq<Weight>>)
    ensures |cs| >= 1
    decreases |ws|, |acc|
  {
    if ws == [] then [acc]
    else if acc != [] && |Payload(acc)| + |ws[0].data| > size then [acc] + ChunksFrom(size, [], ws)
    else ChunksFrom(size, acc + [ws[0]], ws[1..])
  }

  function Chunks(size: nat, ws: seq<Weight>): (cs: seq<seq<Weight>>)
    ensures |cs| >= 1
  {
    ChunksFrom(size, [], ws)
  }

  function Flatten(cs: seq<seq<Weight>>): seq<Weight> {
    if cs == [] then [] else cs[0] + Flatten(cs[1..])
  }

  /** The split loses and reorders nothing. */
  lemma {:induction false} ChunksFlatten(size: nat, acc: seq<Weight>, ws: seq<Weight>)
    ensures Flatten(ChunksFrom(size, acc, ws)) == acc + ws
    decreases |ws|, |acc|
  {
    hide Payload;
    if ws == [] {
      assert Flatten([acc]) == acc + Flatten([]);
    } else if acc != [] && |Payload(acc)| + |ws[0].data| > size {
      ChunksFlatten(size, [], ws);
      assert ChunksFrom(size, acc, ws)[1..] == ChunksFrom(size, [], ws);
    } else {
      ChunksFlatten(size, acc + [ws[0]], ws[1..]);
      assert acc + [ws[0]] + ws[1..] == acc + ws;
    }
  }

  /** It never overfills a buffer. */
  lemma {:induction false} ChunksBounded(size: nat, acc: seq<Weight>, ws: seq<Weight>, k: nat)
    requires AllFit(size, ws) && |Payload(acc)| <= size
    requires k < |ChunksFrom(size, acc, ws)|
    ensures |Payload(ChunksFrom(size, acc, ws)[k])| <= size
    decreases |ws|, |acc|
  {
    if ws == [] {
    } else if acc != [] && |Payload(acc)| + |ws[0].data| > size {
      if k > 0 {
        ChunksBounded(size, [], ws, k - 1);
      }
    } else {
      assert (acc + [ws[0]])[..|acc|] == acc;
      ChunksBounded(size, acc + [ws[0]], ws[1..], k);
    }
  }

  lemma {:induction false} ChunksHead(size: nat, acc: seq<Weight>, ws: seq<Weight>)
    ensures acc <= ChunksFrom(size, acc, ws)[0]
    ensures acc == [] && ws != [] ==> ChunksFrom(size, acc, ws)[0] != [] && ChunksFrom(size, acc, ws)[0][0] == ws[0]
    decreases |ws|, |acc|
  {
    if ws != [] && (acc == [] || |Payload(acc)| + |ws[0].data| <= size) {
      ChunksHead(size, acc + [ws[0]], ws[1..]);
    }
  }

  /** It closes a bucket only because the weight after it would not fit. */
  lemma {:induction false} ChunksGreedy(size: nat, acc: seq<Weight>, ws: seq<Weight>, k: nat)
    requires 1 <= k < |ChunksFrom(size, acc, ws)|
    ensures var cs := ChunksFrom(size, acc, ws);
      cs[k] != [] && |Payload(cs[k - 1])| + |cs[k][0].data| > size
    decreases |ws|, |acc|
  {
    hide Payload;
    if acc != [] && |Payload(acc)| + |ws[0].data| > size {
      ChunksHead(size, [], ws);
      if k > 1 {
        ChunksGreedy(size, [], ws, k - 1);
      }
    } else {
      ChunksGreedy(size, acc + [ws[0]], ws[1..], k);
    }
  }

  /** What rank 0 puts on the wire for the chunks `cs`. */
  function BucketsOf(cs: seq<seq<Weight>>): seq<Bucket> {
    seq(|cs|, k requires 0 <= k < |cs| => Bucket(MetaOf(cs[k]), Payload(cs[k]), k == |cs| - 1))
  }

  function Pack(size: nat, ws: seq<Weight>): (bs: seq<Bucket>)
    ensures |bs| >= 1
  {
    BucketsOf(Chunks(size, ws))
  }

  /** The weights before the first that is too large for a bucket. */
  function Sendable(size: nat, ws: seq<Weight>): (front: seq<Weight>)
    ensures front <= ws && AllFit(size, front)
    ensures if |front| < |ws| then |ws[|front|].data| > size && !AllFit(size, ws) else front == ws && AllFit(size, ws)
  {
    ws[..Fitting(size, ws)]
  }

  function Fitting(size: nat, ws: seq<Weight>): (n: nat)
    ensures n <= |ws| && (forall i :: 0 <= i < n ==> |ws[i].data| <= size) && (n < |ws| ==> |ws[n].data| > size)
  {
    if ws == [] || |ws[0].data| > size then 0 else 1 + Fitting(size, ws[1..])
  }

  /** What rank 0 sends: if a weight is too large, the open bucket goes out before `send_weights`
      gives up, and no bucket is marked as the last one. */
  function Stream(size: nat, ws: seq<Weight>): (bs: seq<Bucket>)
    ensures |bs| >= 1
    ensures AllFit(size, ws) ==> bs == Pack(size, ws)
  {
    var bs := Pack(size, Sendable(size, ws));
    if AllFit(size, ws) then bs else bs[|bs| - 1 := bs[|bs| - 1].(isLast := false)]
  }

  /** Bucket k of the stream is run k of the weights that fit. */
  lemma StreamAt(size: nat, ws: seq<Weight>, k: nat)
    requires k < |Stream(size, ws)|
    ensures var cs := Chunks(size, Sendable(size, ws));
      && |Stream(size, ws)| == |cs|
      && Stream(size, ws)[k] == Bucket(MetaOf(cs[k]), Payload(cs[k]), k == |cs| - 1 && AllFit(size, ws))
  {
    hide MetaOf, Payload, Chunks, Sendable, AllFit;
  }

  /** A run that ends where it must is the next one of the split. */
  lemma RunFlushed(size: nat, ws: seq<Weight>, first: nat, next: nat, k: nat)
    requires AllFit(size, ws) && first <= next <= |ws| && k < |Chunks(size, ws)|
    requires next == |ws| || |Payload(ws[first..next])| + |ws[next].data| > size
    requires ChunksFrom(size, ws[first..next], ws[next..]) == Chunks(size, ws)[k..]
    ensures var cs := Chunks(size, ws);
      && cs[k] == ws[first..next]
      && if next == |ws| then k + 1 == |cs| else k + 1 < |cs| && ChunksFrom(size, [], ws[next..]) == cs[k + 1..]
  {
    var (run, rest, cs) := (ws[first..next], ws[next..], Chunks(size, ws));
    assert cs[k..][0] == cs[k] && |cs[k..]| == |cs| - k;
    if next < |ws| {
      assert rest[0] == ws[next] && run != [];
      assert cs[k..] == [run] + ChunksFrom(size, [], rest);
      assert cs[k..][1..] == cs[k + 1..];
    }
  }

  predicate Readable(item: nat, bs: seq<Bucket>) {
    forall k :: 0 <= k < |bs| ==> InBounds(item, bs[k].meta, |bs[k].payload|)
  }

  /** Everything a receiver yields for the buckets `bs`. */
  function Unpack(item: nat, bs: seq<Bucket>): seq<Weight>
    requires Readable(item, bs)
  {
    if bs == [] then [] else
      Unpack(item, bs[..|bs| - 1]) + Decode(item, bs[|bs| - 1].meta, bs[|bs| - 1].payload)
  }

  lemma UnpackStep(item: nat, bs: seq<Bucket>, k: nat)
    requires k < |bs| && Readable(item, bs)
    ensures Unpack(item, bs[..k + 1]) == Unpack(item, bs[..k]) + Decode(item, bs[k].meta, bs[k].payload)
  {
    assert bs[..k + 1][..k] == bs[..k];
  }

  /** What the caller of `send_weights` must respect: no name twice in one bucket. */
  predicate BucketNamesDistinct(size: nat, ws: seq<Weight>) {
    forall k :: 0 <= k < |Chunks(size, ws)| ==> DistinctNames(Chunks(size, ws)[k])
  }

  lemma {:induction false} FlattenSnoc(cs: seq<seq<Weight>>, c: seq<Weight>)
    ensures Flatten(cs + [c]) == Flatten(cs) + c
  {
    if cs == [] {
      assert Flatten([c]) == c + Flatten([]);
    } else {
      FlattenSnoc(cs[1..], c);
      assert (cs + [c])[1..] == cs[1..] + [c];
    }
  }

  lemma {:induction false} FlattenMember(cs: seq<seq<Weight>>, k: nat, i: nat)
    requires k < |cs| && i < |cs[k]|
    ensures cs[k][i] in Flatten(cs)
  {
    if k > 0 {
      FlattenMember(cs[1..], k - 1, i);
    }
  }

  lemma ChunksWellFormed(item: nat, size: nat, ws: seq<Weight>)
    requires AllWellFormed(item, ws)
    ensures forall k :: 0 <= k < |Chunks(size, ws)| ==> AllWellFormed(item, Chunks(size, ws)[k])
    ensures Readable(item, Pack(size, ws))
  {
    var cs := Chunks(size, ws);
    ChunksFlatten(size, [], ws);
    assert Flatten(cs) == ws;
    forall k | 0 <= k < |cs|
      ensures AllWellFormed(item, cs[k]) && InBounds(item, MetaOf(cs[k]), |Payload(cs[k])|)
    {
      forall i | 0 <= i < |cs[k]| ensures WellFormed(item, cs[k][i]) {
        FlattenMember(cs, k, i);
      }
      MetaInBounds(item, cs[k]);
    }
  }

  lemma {:induction false} UnpackLength(item: nat, cs: seq<seq<Weight>>, bs: seq<Bucket>)
    requires |bs| == |cs| && Readable(item, bs)
    requires forall k :: 0 <= k < |cs| ==>
      bs[k].meta == MetaOf(cs[k]) && bs[k].payload == Payload(cs[k]) && AllWellFormed(item, cs[k])
    ensures |Unpack(item, bs)| <= |Flatten(cs)|
    ensures (forall k :: 0 <= k < |cs| ==> DistinctNames(cs[k])) ==> Unpack(item, bs) == Flatten(cs)
    ensures !(forall k :: 0 <= k < |cs| ==> DistinctNames(cs[k])) ==> |Unpack(item, bs)| < |Flatten(cs)|
  {
    hide MetaOf, Payload, Cut, DictPut;
    if cs != [] {
      var front, c := cs[..|cs| - 1], cs[|cs| - 1];
      UnpackLength(item, front, bs[..|bs| - 1]);
      FlattenSnoc(front, c);
      assert cs == front + [c];
      MetaNoLonger(c);
      if DistinctNames(c) {
        DecodeDistinct(item, c);
      } else {
        RepeatShrinksMeta(c);
      }
    }
  }

  /** Unpacking every bucket in order returns the weights given to rank 0 exactly when no
      bucket received two weights of one name. */
  lemma PackRoundTrip(item: nat, size: nat, ws: seq<Weight>)
    requires AllWellFormed(item, ws)
    ensures Readable(item, Pack(size, ws))
    ensures Unpack(item, Pack(size, ws)) == ws <==> BucketNamesDistinct(size, ws)
  {
    ChunksWellFormed(item, size, ws);
    ChunksFlatten(size, [], ws);
    UnpackLength(item, Chunks(size, ws), Pack(size, ws));
  }

  /** Where it fails: of two weights of one name in one bucket only the second comes back. */
  lemma RepeatLosesWeight(item: nat, size: nat, w: Weight, x: Weight)
    requires WellFormed(item, w) && WellFormed(item, x)
    requires w.name == x.name && |w.data| + |x.data| <= size
    ensures Readable(item, Pack(size, [w, x])) && Unpack(item, Pack(size, [w, x])) == [x]
  {
    var (m, bytes) := (TensorMeta(x.name, x.shape, |w.data|), w.data + x.data);
    hide MetaOf, Payload, Chunks, ChunksFrom, Nbytes;
    PairPayload(w, x);
    PairChunks(size, w, x);
    var b := Bucket([m], bytes, true);
    assert Pack(size, [w, x]) == [b];
    assert bytes[|w.data|..|w.data| + Nbytes(item, x.shape)] == x.data;
    assert Decode(item, [m], bytes) == [x];
    assert [b][..0] == [];
  }

  lemma PairChunks(size: nat, w: Weight, x: Weight)
    requires |w.data| + |x.data| <= size
    ensures Chunks(size, [w, x]) == [[w, x]]
  {
    PairPayload(w, x);
    hide MetaOf, Payload;
    assert [w, x][1..] == [x] && [] + [w] == [w] && [w] + [x] == [w, x];
    assert ChunksFrom(size, [], [w, x]) == ChunksFrom(size, [w], [x]);
    assert ChunksFrom(size, [w], [x]) == ChunksFrom(size, [w, x], []);
  }

  lemma PairPayload(w: Weight, x: Weight)
    ensures Payload([w]) == w.data && Payload([w, x]) == w.data + x.data
    ensures w.name == x.name ==> MetaOf([w, x]) == [TensorMeta(x.name, x.shape, |w.data|)]
  {
    assert [w][..0] == [] && [w, x][..1] == [w];
    assert MetaOf([w]) == [TensorMeta(w.name, w.shape, 0)];
  }

  /** Globally distinct names are enough. */
  lemma DistinctNamesSuffice(size: nat, ws: seq<Weight>)
    requires DistinctNames(ws)
    ensures BucketNamesDistinct(size, ws)
  {
    ChunksFlatten(size, [], ws);
    FlattenDistinct(Chunks(size, ws));
  }

  lemma {:induction false} FlattenDistinct(cs: seq<seq<Weight>>)
    requires DistinctNames(Flatten(cs))
    ensures forall k :: 0 <= k < |cs| ==> DistinctNames(cs[k])
  {
    if cs != [] {
      var all, n := Flatten(cs), |cs[0]|;
      assert all[..n] == cs[0] && all[n..] == Flatten(cs[1..]);
      forall i, j | 0 <= i < j < |all| - n ensures all[n..][i].name != all[n..][j].name {
        assert all[n + i].name != all[n + j].name;
      }
      assert DistinctNames(all[..n]);
      FlattenDistinct(cs[1..]);
      assert forall k :: 1 <= k < |cs| ==> cs[k] == cs[1..][k - 1];
    }
  }

  ghost predicate Aligned(item: nat, n: nat) {
    exists q: nat :: Product(item, q) == n
  }

  lemma ProductDistributes(a: nat, b: nat, c: nat)
    ensures Product(a, b + c) == Product(a, b) + Product(a, c)
  {}

  lemma {:induction false} PayloadAligned(item: nat, ws: seq<Weight>)
    requires AllWellFormed(item, ws)
    ensures Aligned(item, |Payload(ws)|)
  {
    if ws == [] {
      assert Product(item, 0) == 0;
    } else {
      var front, w := ws[..|ws| - 1], ws[|ws| - 1];
      PayloadAligned(item, front);
      var q: nat :| Product(item, q) == |Payload(front)|;
      ProductDistributes(item, q, Numel(w.shape));
      assert Product(item, q + Numel(w.shape)) == |Payload(ws)|;
    }
  }

  /** What a receiver relies on in metadata entry i: an aligned offset, the first at 0, and a
      slice that ends where the next one starts, the last one where the payload ends. */
  ghost predicate EntryContiguous(item: nat, b: Bucket, i: nat)
    requires i < |b.meta|
  {
    var end := b.meta[i].offset + Nbytes(item, b.meta[i].shape);
    && Aligned(item, b.meta[i].offset)
    && (i == 0 ==> b.meta[i].offset == 0)
    && end == if i + 1 < |b.meta| then b.meta[i + 1].offset else |b.payload|
  }

  lemma RunEntry(item: nat, ws: seq<Weight>, i: nat)
    requires AllWellFormed(item, ws) && DistinctNames(ws) && i < |ws|
    ensures |MetaOf(ws)| == |ws|
    ensures MetaOf(ws)[i].offset == |Payload(ws[..i])| && Aligned(item, MetaOf(ws)[i].offset)
    ensures MetaOf(ws)[i].offset + Nbytes(item, MetaOf(ws)[i].shape) == |Payload(ws[..i + 1])|
  {
    MetaDistinct(ws, i);
    PayloadAligned(item, ws[..i]);
    assert ws[..i + 1][..i] == ws[..i];
  }

  lemma RunContiguous(item: nat, ws: seq<Weight>, last: bool, i: nat)
    requires AllWellFormed(item, ws) && DistinctNames(ws) && i < |MetaOf(ws)|
    ensures EntryContiguous(item, Bucket(MetaOf(ws), Payload(ws), last), i)
  {
    hide MetaOf, Product, Numel, AllWellFormed;
    MetaNoLonger(ws);
    RunEntry(item, ws, i);
    if i + 1 < |ws| {
      RunEntry(item, ws, i + 1);
    } else {
      assert ws[..i + 1] == ws;
    }
  }

  /** Slices are aligned, leave no gap and do not overlap, and stay inside the buffer; only
      the final bucket carries the end flag. */
  lemma PackLayout(item: nat, size: nat, ws: seq<Weight>, k: nat)
    requires AllWellFormed(item, ws) && AllFit(size, ws) && BucketNamesDistinct(size, ws)
    requires k < |Pack(size, ws)|
    ensures forall i :: 0 <= i < |Pack(size, ws)[k].meta| ==> EntryContiguous(item, Pack(size, ws)[k], i)
    ensures |Pack(size, ws)[k].payload| <= size
    ensures Pack(size, ws)[k].isLast <==> k == |Pack(size, ws)| - 1
  {
    ChunksBounded(size, [], ws, k);
    ChunksWellFormed(item, size, ws);
    var b := Pack(size, ws)[k];
    forall i | 0 <= i < |b.meta| ensures EntryContiguous(item, b, i) {
      RunContiguous(item, Chunks(size, ws)[k], b.isLast, i);
    }
  }
}
