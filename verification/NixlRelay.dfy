/** The NIXL weight relay: a chain of ranks, each with two buffers, one metadata channel and
  one notification channel per link, run under any interleaving.

  Rank 0 packs weights into the buffer it calls `send`. Every later rank reads a bucket from
  its predecessor into its `recv` buffer while it serves the previous bucket to its successor
  and yields that bucket's tensors, then swaps the two. A step is what one process does
  between two awaits, or the completion of one remote read. */
module NixlRelay {
  import opened Wrappers
  import opened Buckets

  /** `item` is the rollout dtype's item size, `size` the bucket size, `ws` what rank 0 is given. */
  datatype Config = Config(item: nat, size: nat, ws: seq<Weight>)

  /** A published bucket: metadata, end flag, notify key and which of the publisher's buffers
      the transfer descriptors name. */
  datatype Msg = Msg(meta: seq<TensorMeta>, isLast: bool, key: nat, buf: nat)

  /** A `ReadOperation`: none, started, or done. */
  datatype Read = NoRead | InFlight(msg: Msg) | Arrived(msg: Msg)

  datatype SenderPc = Filling | Closing | SenderDone | SenderFailed

  datatype ReceiverPc = Serve | WantMeta | Yielding(j: nat) | AwaitNext | AwaitPrev | ReceiverDone | ReceiverFailed

  /** `bufs[send]` is the local `send_buf`; `op` is the outstanding `ReadableOperation` with its
      notify key; `sent` counts publications and so names the next fresh key. `first` marks
      where the open bucket starts in the weight stream, `cur` counts a receiver's swaps and
      `out` is what it has yielded. */
  datatype Rank =
    | Sender(bufs: seq<seq<byte>>, send: nat, op: Option<nat>, sent: nat,
             spc: SenderPc, meta: seq<TensorMeta>, offset: nat, first: nat, next: nat)
    | Receiver(bufs: seq<seq<byte>>, send: nat, op: Option<nat>, sent: nat,
               rpc: ReceiverPc, held: Option<Msg>, read: Read, cur: nat, out: seq<Weight>)

  /** `links[r]` joins rank r to rank r + 1: metadata flows down, notifications flow up. */
  datatype Link = Link(msgs: seq<Msg>, notifs: seq<nat>)

  datatype State = State(ranks: seq<Rank>, links: seq<Link>)

  datatype Step =
    | Fill                // rank 0 copies one weight into its buffer
    | Publish(r: nat)     // create a ReadableOperation; rank 0 also swaps its buffers
    | Confirm(r: nat)     // take the notification for the outstanding ReadableOperation
    | Receive(r: nat)     // read metadata and start the remote read
    | Transfer(r: nat)    // the remote read completes: bytes copied, publisher notified
    | YieldOne(r: nat)    // yield one tensor cut out of the send buffer
    | EndYield(r: nat)    // no tensor left in this bucket
    | Swap(r: nat)        // the next bucket has arrived

  predicate Shape(s: State) {
    && |s.ranks| >= 2
    && |s.links| == |s.ranks| - 1
    && (forall r :: 0 <= r < |s.ranks| ==> (s.ranks[r].Sender? <==> r == 0))
    && (forall r :: 0 <= r < |s.ranks| ==> |s.ranks[r].bufs| == 2 && s.ranks[r].send < 2)
  }

  /** `bufs[at]` with `data` copied to `offset` on. */
  function Splice(buf: seq<byte>, offset: nat, data: seq<byte>): seq<byte>
    requires offset + |data| <= |buf|
  {
    buf[..offset] + data + buf[offset + |data|..]
  }

  predicate MustFlush(c: Config, s: Rank)
    requires s.Sender? && s.next <= |c.ws|
  {
    s.next == |c.ws| || s.offset + |c.ws[s.next].data| > c.size
  }

  predicate HasNext(s: State, r: nat) {
    r + 1 < |s.ranks|
  }

  predicate Enabled(c: Config, s: State, step: Step)
    requires Shape(s)
  {
    match step
    case Fill =>
      var p := s.ranks[0];
      && p.spc == Filling && p.next < |c.ws| && !MustFlush(c, p)
      && p.offset + |c.ws[p.next].data| <= |p.bufs[p.send]|
    case Publish(r) =>
      && r < |s.ranks|
      && var p := s.ranks[r];
      if p.Sender? then p.spc == Filling && p.next <= |c.ws| && MustFlush(c, p) && p.op.None?
      else p.rpc == Serve && p.held.Some?
    case Confirm(r) =>
      && r < |s.ranks|
      && var p := s.ranks[r];
      && (if p.Sender? then
            p.op.Some? && (p.spc == Closing || (p.spc == Filling && p.next <= |c.ws| && MustFlush(c, p)))
          else p.rpc == AwaitNext)
      && (p.op.Some? ==> HasNext(s, r) && s.links[r].notifs != [])
    case Receive(r) =>
      0 < r < |s.ranks| && s.ranks[r].rpc == WantMeta && s.links[r - 1].msgs != []
    case Transfer(r) =>
      0 < r < |s.ranks| && s.ranks[r].read.InFlight? && s.ranks[r].read.msg.buf < 2
    case YieldOne(r) =>
      && 0 < r < |s.ranks|
      && var p := s.ranks[r];
      && p.rpc.Yielding? && p.held.Some? && p.rpc.j < |p.held.value.meta|
      && InBounds(c.item, p.held.value.meta, |p.bufs[p.send]|)
    case EndYield(r) =>
      && 0 < r < |s.ranks|
      && var p := s.ranks[r];
      p.rpc.Yielding? && p.held.Some? && p.rpc.j == |p.held.value.meta|
    case Swap(r) =>
      0 < r < |s.ranks| && s.ranks[r].rpc == AwaitPrev && s.ranks[r].read.Arrived?
  }

  // What each step does to the rank that takes it.

  function Filled(c: Config, p: Rank): Rank
    requires p.Sender? && p.next < |c.ws| && p.send < |p.bufs|
    requires p.offset + |c.ws[p.next].data| <= |p.bufs[p.send]|
  {
    var w := c.ws[p.next];
    p.(bufs := p.bufs[p.send := Splice(p.bufs[p.send], p.offset, w.data)],
       meta := DictPut(p.meta, TensorMeta(w.name, w.shape, p.offset)),
       offset := p.offset + |w.data|, next := p.next + 1)
  }

  /** A rank after publishing, and the message it sends down. */
  function Published(c: Config, p: Rank): (Rank, Msg)
    requires p.send < 2
    requires if p.Sender? then p.next <= |c.ws| else p.held.Some?
  {
    if p.Sender? then
      var last := p.next == |c.ws|;
      var msg := Msg(p.meta, last, p.sent, p.send);
      if last then
        (p.(op := Some(p.sent), sent := p.sent + 1, spc := Closing), msg)
      else
        // the assertion that the weight fits an empty buffer follows at once
        (p.(op := Some(p.sent), sent := p.sent + 1, send := 1 - p.send, meta := [], offset := 0, first := p.next,
            spc := if |c.ws[p.next].data| <= c.size then Filling else SenderFailed), msg)
    else
      var h := p.held.value;
      (Served(p).(op := Some(p.sent), sent := p.sent + 1), Msg(h.meta, h.isLast, p.sent, p.send))
  }

  /** A receiver turning to its current bucket, when it has no successor to publish it to. */
  function Served(p: Rank): Rank
    requires p.Receiver? && p.held.Some?
  {
    p.(rpc := if p.held.value.isLast then Yielding(0) else WantMeta)
  }

  /** A rank after taking the notification `key`, or after finding nothing to wait for. */
  function Confirmed(p: Rank, key: Option<nat>): Rank {
    if key != p.op then
      if p.Sender? then p.(spc := SenderFailed) else p.(rpc := ReceiverFailed)
    else if p.Sender? then
      p.(op := None, spc := if p.spc == Closing then SenderDone else p.spc)
    else
      p.(op := None, rpc := if p.read.NoRead? then ReceiverDone else AwaitPrev)
  }

  function Received(p: Rank, msg: Msg): Rank
    requires p.Receiver?
  {
    p.(read := InFlight(msg), rpc := if p.held.None? then AwaitPrev else Yielding(0))
  }

  function Transferred(p: Rank, bytes: seq<byte>): Rank
    requires p.Receiver? && p.read.InFlight? && |p.bufs| == 2 && p.send < 2
  {
    p.(bufs := p.bufs[1 - p.send := bytes], read := Arrived(p.read.msg))
  }

  function Yielded(c: Config, p: Rank): Rank
    requires p.Receiver? && p.rpc.Yielding? && p.held.Some? && p.send < |p.bufs|
    requires p.rpc.j < |p.held.value.meta| && InBounds(c.item, p.held.value.meta, |p.bufs[p.send]|)
  {
    p.(out := p.out + [Cut(c.item, p.held.value.meta[p.rpc.j], p.bufs[p.send])], rpc := Yielding(p.rpc.j + 1))
  }

  function Swapped(p: Rank): Rank
    requires p.Receiver? && p.read.Arrived? && p.send < 2
  {
    p.(held := Some(p.read.msg), read := NoRead, send := 1 - p.send, cur := p.cur + 1, rpc := Serve)
  }

  function Apply(c: Config, s: State, step: Step): State
    requires Shape(s) && Enabled(c, s, step)
  {
    match step
    case Fill =>
      s.(ranks := s.ranks[0 := Filled(c, s.ranks[0])])
    case Publish(r) =>
      if HasNext(s, r) then
        var (q, msg) := Published(c, s.ranks[r]);
        State(s.ranks[r := q], s.links[r := s.links[r].(msgs := s.links[r].msgs + [msg])])
      else
        s.(ranks := s.ranks[r := Served(s.ranks[r])])
    case Confirm(r) =>
      if s.ranks[r].op.Some? then
        var l := s.links[r];
        State(s.ranks[r := Confirmed(s.ranks[r], Some(l.notifs[0]))], s.links[r := l.(notifs := l.notifs[1..])])
      else
        s.(ranks := s.ranks[r := Confirmed(s.ranks[r], None)])
    case Receive(r) =>
      var l := s.links[r - 1];
      State(s.ranks[r := Received(s.ranks[r], l.msgs[0])], s.links[r - 1 := l.(msgs := l.msgs[1..])])
    case Transfer(r) =>
      var l, msg := s.links[r - 1], s.ranks[r].read.msg;
      State(s.ranks[r := Transferred(s.ranks[r], s.ranks[r - 1].bufs[msg.buf])],
            s.links[r - 1 := l.(notifs := l.notifs + [msg.key])])
    case YieldOne(r) =>
      s.(ranks := s.ranks[r := Yielded(c, s.ranks[r])])
    case EndYield(r) =>
      s.(ranks := s.ranks[r := s.ranks[r].(rpc := AwaitNext)])
    case Swap(r) =>
      s.(ranks := s.ranks[r := Swapped(s.ranks[r])])
  }

  predicate Init(c: Config, s: State) {
    && Shape(s)
    && (forall r :: 0 <= r < |s.ranks| ==>
         |s.ranks[r].bufs[0]| == c.size && |s.ranks[r].bufs[1]| == c.size && s.ranks[r].send == 0)
    && s.ranks[0] == Sender(s.ranks[0].bufs, 0, None, 0, Filling, [], 0, 0, 0)
    && (forall r :: 1 <= r < |s.ranks| ==>
         s.ranks[r] == Receiver(s.ranks[r].bufs, 0, None, 0, WantMeta, None, NoRead, 0, []))
    && (forall r :: 0 <= r < |s.links| ==> s.links[r] == Link([], []))
  }

  // ----- the invariant

  /** `bs` is what rank 0 puts on the wire for `c`. */
  predicate Plan(c: Config, bs: seq<Bucket>) {
    && bs == Stream(c.size, c.ws)
    && Readable(c.item, bs)
    && forall k :: 0 <= k < |bs| ==>
         |bs[k].payload| <= c.size && (bs[k].isLast <==> k == |bs| - 1 && AllFit(c.size, c.ws))
  }

  predicate Carries(msg: Msg, b: Bucket) {
    msg.meta == b.meta && msg.isLast == b.isLast
  }

  /** Messages this rank has taken off its incoming channel. */
  function Taken(p: Rank): nat
    requires p.Receiver?
  {
    p.cur + if p.read.NoRead? then 0 else 1
  }

  /** The buffer the outstanding ReadableOperation exposes. */
  function Exposed(p: Rank): nat
    requires p.send < 2
  {
    if p.Sender? && p.spc != Closing then 1 - p.send else p.send
  }

  predicate BufferSizes(c: Config, p: Rank) {
    |p.bufs| == 2 && |p.bufs[0]| == c.size && |p.bufs[1]| == c.size && p.send < 2
  }

  predicate SenderInv(c: Config, bs: seq<Bucket>, p: Rank)
    requires p.Sender? && Plan(c, bs)
  {
    var ws := Sendable(c.size, c.ws);
    && BufferSizes(c, p)
    && p.sent <= |bs| && p.next <= |ws|
    && (p.op.Some? ==> p.op.value + 1 == p.sent && bs[p.op.value].payload <= p.bufs[Exposed(p)])
    && match p.spc
       case Filling =>
         && p.first <= p.next
         && p.sent < |bs|
         && p.meta == MetaOf(ws[p.first..p.next])
         && p.offset == |Payload(ws[p.first..p.next])| <= c.size
         && Payload(ws[p.first..p.next]) <= p.bufs[p.send]
         && ChunksFrom(c.size, ws[p.first..p.next], ws[p.next..]) == Chunks(c.size, ws)[p.sent..]
       case Closing => AllFit(c.size, c.ws) && p.sent == |bs| && p.op.Some?
       case SenderDone => AllFit(c.size, c.ws) && p.sent == |bs| && p.op.None?
       case SenderFailed => !AllFit(c.size, c.ws) && p.sent == |bs|
  }

  /** What a receiver must have yielded at this point of its loop. */
  function Expected(c: Config, bs: seq<Bucket>, p: Rank): seq<Weight>
    requires p.Receiver? && Plan(c, bs) && p.cur <= |bs|
  {
    if p.cur == 0 then []
    else match p.rpc
      case Yielding(j) =>
        var b := bs[p.cur - 1];
        Unpack(c.item, bs[..p.cur - 1]) + (if j <= |b.meta| then Decode(c.item, b.meta, b.payload)[..j] else [])
      case Serve => Unpack(c.item, bs[..p.cur - 1])
      case WantMeta => Unpack(c.item, bs[..p.cur - 1])
      case _ => Unpack(c.item, bs[..p.cur])
  }

  predicate ReceiverInv(c: Config, bs: seq<Bucket>, p: Rank, hasNext: bool)
    requires p.Receiver? && Plan(c, bs)
  {
    && BufferSizes(c, p)
    && Taken(p) <= |bs|
    && p.rpc != ReceiverFailed
    && (p.cur == 0 <==> p.held.None?)
    && (p.cur > 0 ==> Carries(p.held.value, bs[p.cur - 1]) && bs[p.cur - 1].payload <= p.bufs[p.send])
    && (!p.read.NoRead? ==> Carries(p.read.msg, bs[p.cur]))
    && (p.read.Arrived? ==> bs[p.cur].payload <= p.bufs[1 - p.send])
    && p.sent == (if !hasNext then 0 else if p.rpc == Serve && p.cur > 0 then p.cur - 1 else p.cur)
    && p.op == (if hasNext && p.cur > 0 && (p.rpc.WantMeta? || p.rpc.Yielding? || p.rpc.AwaitNext?)
                then Some(p.cur - 1) else None)
    && p.out == Expected(c, bs, p)
    && match p.rpc
       case Serve => p.cur > 0 && p.read.NoRead?
       case WantMeta => (AllFit(c.size, c.ws) ==> p.cur < |bs|) && p.read.NoRead?
       case Yielding(j) =>
         && p.cur > 0 && j <= |bs[p.cur - 1].meta|
         && (p.read.NoRead? <==> p.cur == |bs|) && (p.read.NoRead? ==> AllFit(c.size, c.ws))
       case AwaitNext =>
         p.cur > 0 && (p.read.NoRead? <==> p.cur == |bs|) && (p.read.NoRead? ==> AllFit(c.size, c.ws))
       case AwaitPrev => !p.read.NoRead?
       case ReceiverDone => AllFit(c.size, c.ws) && p.cur == |bs| && p.read.NoRead?
       case ReceiverFailed => true
  }

  /** What a link sees of the rank above it: its outstanding operation, how many buckets it has
      published and the buffer it exposes. */
  datatype Upper = Upper(op: Option<nat>, sent: nat, exposed: nat)

  /** What a link sees of the rank below it: messages taken, and the read in flight. */
  datatype Lower = Lower(taken: nat, reading: Option<Msg>)

  function UpperOf(p: Rank): Upper
    requires p.send < 2
  {
    Upper(p.op, p.sent, Exposed(p))
  }

  function LowerOf(q: Rank): Lower
    requires q.Receiver?
  {
    Lower(Taken(q), if q.read.InFlight? then Some(q.read.msg) else None)
  }

  /** Publisher, consumer and the link between them agree: at most one bucket is in transit,
      and while it is, the publisher waits for exactly its key and exposes its bytes. */
  predicate LinkOk(bs: seq<Bucket>, u: Upper, l: Link, w: Lower) {
    && u.sent <= |bs|
    && if w.taken < u.sent then
         && u.sent == w.taken + 1
         && |l.msgs| == 1 && Carries(l.msgs[0], bs[u.sent - 1])
         && l.msgs[0].key == u.sent - 1 && l.msgs[0].buf == u.exposed
         && u.op == Some(u.sent - 1) && l.notifs == [] && w.reading.None?
       else
         && u.sent == w.taken && l.msgs == []
         && match w.reading
            case Some(msg) =>
              && u.sent > 0 && msg.key == u.sent - 1 && msg.buf == u.exposed
              && u.op == Some(u.sent - 1) && l.notifs == []
            case None =>
              l.notifs == (if u.op.Some? then [u.op.value] else [])
  }

  predicate LinkInv(bs: seq<Bucket>, s: State, r: nat)
    requires Shape(s) && r < |s.links|
  {
    LinkOk(bs, UpperOf(s.ranks[r]), s.links[r], LowerOf(s.ranks[r + 1]))
  }

  predicate RankInv(c: Config, bs: seq<Bucket>, s: State, r: nat)
    requires Shape(s) && Plan(c, bs) && r < |s.ranks|
  {
    if r == 0 then SenderInv(c, bs, s.ranks[0]) else ReceiverInv(c, bs, s.ranks[r], HasNext(s, r))
  }

  predicate Inv(c: Config, bs: seq<Bucket>, s: State) {
    && Shape(s) && Plan(c, bs)
    && (forall r :: 0 <= r < |s.ranks| ==> RankInv(c, bs, s, r))
    && (forall r :: 0 <= r < |s.links| ==> LinkInv(bs, s, r))
  }

  lemma InitInv(c: Config, bs: seq<Bucket>, s: State)
    requires Init(c, s) && Plan(c, bs)
    ensures Inv(c, bs, s)
  {
    var ws := Sendable(c.size, c.ws);
    assert ws[0..0] == [] && ws[0..] == ws;
    assert Chunks(c.size, ws)[0..] == Chunks(c.size, ws);
  }

  // ----- one rank at a time

  lemma FilledKeeps(c: Config, bs: seq<Bucket>, p: Rank)
    requires Plan(c, bs) && p.Sender? && SenderInv(c, bs, p)
    requires p.spc == Filling && !MustFlush(c, p)
    ensures SenderInv(c, bs, Filled(c, p))
  {
    hide Stream, Pack, Sendable, AllFit, MetaOf, Payload, Chunks, ChunksFrom, DictPut, Splice, Readable;
    var ws := Sendable(c.size, c.ws);
    OneMoreWeight(c.size, ws, p.first, p.next, p.bufs[p.send]);
  }

  /** One more weight of a run. */
  lemma OneMoreWeight(size: nat, ws: seq<Weight>, first: nat, next: nat, buf: seq<byte>)
    requires first <= next < |ws| && |buf| == size && Payload(ws[first..next]) <= buf
    requires |Payload(ws[first..next])| + |ws[next].data| <= size
    ensures var (run, more, w) := (ws[first..next], ws[first..next + 1], ws[next]);
      && MetaOf(more) == DictPut(MetaOf(run), TensorMeta(w.name, w.shape, |Payload(run)|))
      && |Payload(more)| == |Payload(run)| + |w.data|
      && Payload(more) <= Splice(buf, |Payload(run)|, w.data)
      && |Splice(buf, |Payload(run)|, w.data)| == size
      && ChunksFrom(size, more, ws[next + 1..]) == ChunksFrom(size, run, ws[next..])
  {
    hide DictPut;
    var (run, w) := (ws[first..next], ws[next]);
    assert ws[first..next + 1] == run + [w] && (run + [w])[..|run|] == run;
    assert ws[next..][0] == w && ws[next..][1..] == ws[next + 1..];
  }

  lemma SenderPublishedKeeps(c: Config, bs: seq<Bucket>, p: Rank)
    requires Plan(c, bs) && p.Sender? && SenderInv(c, bs, p)
    requires p.spc == Filling && MustFlush(c, p) && p.op.None?
    ensures var (q, msg) := Published(c, p);
      && SenderInv(c, bs, q)
      && Carries(msg, bs[p.sent]) && msg.key == p.sent && msg.buf == Exposed(q)
      && q.sent == p.sent + 1 && q.op == Some(p.sent)
  {
    hide Stream, Pack, Sendable, MetaOf, Payload, Chunks, ChunksFrom, Readable;
    var ws := Sendable(c.size, c.ws);
    StreamAt(c.size, c.ws, p.sent);
    RunFlushed(c.size, ws, p.first, p.next, p.sent);
    EmptyRun();
    assert p.next < |ws| ==> |ws[p.next].data| <= c.size;
    assert ws[p.next..p.next] == [];
  }

  lemma EmptyRun()
    ensures MetaOf([]) == [] && Payload([]) == []
  {}

  lemma NothingYieldedYet(c: Config, bs: seq<Bucket>, p: Rank)
    requires Plan(c, bs) && p.Receiver? && 0 < p.cur <= |bs|
    ensures Expected(c, bs, p.(rpc := Yielding(0))) == Unpack(c.item, bs[..p.cur - 1])
  {}

  lemma ReceiverPublishedKeeps(c: Config, bs: seq<Bucket>, p: Rank)
    requires Plan(c, bs) && p.Receiver? && ReceiverInv(c, bs, p, true) && p.rpc == Serve
    ensures var (q, msg) := Published(c, p);
      && ReceiverInv(c, bs, q, true)
      && Carries(msg, bs[p.sent]) && msg.key == p.sent && msg.buf == Exposed(q)
      && q.sent == p.sent + 1 && q.op == Some(p.sent) && Taken(q) == Taken(p)
  {
    hide Stream, Pack, Chunks, ChunksFrom, MetaOf, Payload;
    NothingYieldedYet(c, bs, p);
  }

  lemma ServedKeeps(c: Config, bs: seq<Bucket>, p: Rank)
    requires Plan(c, bs) && p.Receiver? && ReceiverInv(c, bs, p, false) && p.rpc == Serve
    ensures ReceiverInv(c, bs, Served(p), false)
  {}

  lemma ReceivedKeeps(c: Config, bs: seq<Bucket>, p: Rank, hasNext: bool, msg: Msg)
    requires Plan(c, bs) && p.Receiver? && ReceiverInv(c, bs, p, hasNext)
    requires p.rpc == WantMeta && p.cur < |bs| && Carries(msg, bs[p.cur])
    ensures ReceiverInv(c, bs, Received(p, msg), hasNext)
  {
    hide Stream, Pack, Chunks, ChunksFrom, MetaOf, Payload, Decode, AllFit;
    if p.cur > 0 {
      NothingYieldedYet(c, bs, p);
    }
  }

  lemma YieldedKeeps(c: Config, bs: seq<Bucket>, p: Rank, hasNext: bool)
    requires Plan(c, bs) && p.Receiver? && ReceiverInv(c, bs, p, hasNext)
    requires p.rpc.Yielding? && p.rpc.j < |p.held.value.meta|
    ensures InBounds(c.item, p.held.value.meta, |p.bufs[p.send]|)
    ensures ReceiverInv(c, bs, Yielded(c, p), hasNext)
  {
    hide Stream, Pack, Chunks, ChunksFrom, MetaOf, Payload;
    var b, j := bs[p.cur - 1], p.rpc.j;
    DecodeIgnoresSlack(c.item, b.meta, b.payload, p.bufs[p.send]);
    var ts := Decode(c.item, b.meta, b.payload);
    assert ts == Decode(c.item, b.meta, p.bufs[p.send]);
    assert ts[..j] + [ts[j]] == ts[..j + 1];
    assert p.out + [ts[j]] == Unpack(c.item, bs[..p.cur - 1]) + ts[..j + 1];
  }

  lemma YieldEndedKeeps(c: Config, bs: seq<Bucket>, p: Rank, hasNext: bool)
    requires Plan(c, bs) && p.Receiver? && ReceiverInv(c, bs, p, hasNext)
    requires p.rpc.Yielding? && p.rpc.j == |p.held.value.meta|
    ensures ReceiverInv(c, bs, p.(rpc := AwaitNext), hasNext)
  {
    hide Stream, Pack, Chunks, ChunksFrom, MetaOf, Payload, Unpack, Decode, Sendable, AllFit, Readable;
    UnpackStep(c.item, bs, p.cur - 1);
  }

  lemma SwappedKeeps(c: Config, bs: seq<Bucket>, p: Rank, hasNext: bool)
    requires Plan(c, bs) && p.Receiver? && ReceiverInv(c, bs, p, hasNext)
    requires p.rpc == AwaitPrev && p.read.Arrived?
    ensures ReceiverInv(c, bs, Swapped(p), hasNext) && Taken(Swapped(p)) == Taken(p)
  {
    hide Stream, Pack, Chunks, ChunksFrom, MetaOf, Payload, Decode, AllFit;
  }

  // ----- the whole chain

  /** Rank r becomes q, its links `up` (from its predecessor) and `down` (to its successor). */
  function Put(s: State, r: nat, up: Link, q: Rank, down: Link): State
    requires Shape(s) && r < |s.ranks|
  {
    var links := if r > 0 then s.links[r - 1 := up] else s.links;
    State(s.ranks[r := q], if HasNext(s, r) then links[r := down] else links)
  }

  /** A step of rank r disturbs nothing but its own rank and its two links. */
  lemma Reassemble(c: Config, bs: seq<Bucket>, s: State, r: nat, up: Link, q: Rank, down: Link)
    requires Inv(c, bs, s) && r < |s.ranks| && (q.Sender? <==> r == 0)
    requires if r == 0 then SenderInv(c, bs, q) else ReceiverInv(c, bs, q, HasNext(s, r))
    requires r > 0 ==> LinkOk(bs, UpperOf(s.ranks[r - 1]), up, LowerOf(q))
    requires HasNext(s, r) ==> LinkOk(bs, UpperOf(q), down, LowerOf(s.ranks[r + 1]))
    ensures Inv(c, bs, Put(s, r, up, q, down))
  {
    hide Plan, LinkOk, Expected;
    var t := Put(s, r, up, q, down);
    forall i | 0 <= i < |t.ranks| ensures RankInv(c, bs, t, i) {
      UntouchedRank(c, bs, s, t, r, i);
    }
    forall i | 0 <= i < |t.links| ensures LinkInv(bs, t, i) {
      if i != r && i != r - 1 {
        UntouchedLink(c, bs, s, t, i);
      }
    }
  }

  lemma UntouchedLink(c: Config, bs: seq<Bucket>, s: State, t: State, i: nat)
    requires Inv(c, bs, s) && Shape(t) && i < |s.links| == |t.links|
    requires t.links[i] == s.links[i] && t.ranks[i] == s.ranks[i] && t.ranks[i + 1] == s.ranks[i + 1]
    ensures LinkInv(bs, t, i)
  {
    assert LinkInv(bs, s, i);
  }

  lemma UntouchedRank(c: Config, bs: seq<Bucket>, s: State, t: State, r: nat, i: nat)
    requires Inv(c, bs, s) && Shape(t) && r < |s.ranks| == |t.ranks| && i < |s.ranks|
    requires RankInv(c, bs, t, r) && (i != r ==> t.ranks[i] == s.ranks[i])
    ensures RankInv(c, bs, t, i)
  {
    assert RankInv(c, bs, s, i);
  }

  /** The invariants around rank r. */
  lemma Around(c: Config, bs: seq<Bucket>, s: State, r: nat)
    requires Inv(c, bs, s) && r < |s.ranks|
    ensures if r == 0 then SenderInv(c, bs, s.ranks[0]) else ReceiverInv(c, bs, s.ranks[r], HasNext(s, r))
    ensures r > 0 ==> LinkOk(bs, UpperOf(s.ranks[r - 1]), s.links[r - 1], LowerOf(s.ranks[r]))
    ensures HasNext(s, r) ==> LinkOk(bs, UpperOf(s.ranks[r]), s.links[r], LowerOf(s.ranks[r + 1]))
  {
    assert RankInv(c, bs, s, r);
    assert r > 0 ==> LinkInv(bs, s, r - 1);
    assert HasNext(s, r) ==> LinkInv(bs, s, r);
  }

  /** Replacing rank r by q, which shows its links the same face. */
  lemma Quiet(c: Config, bs: seq<Bucket>, s: State, r: nat, q: Rank)
    requires Inv(c, bs, s) && r < |s.ranks| && (q.Sender? <==> r == 0)
    requires if r == 0 then SenderInv(c, bs, q) else ReceiverInv(c, bs, q, HasNext(s, r))
    requires HasNext(s, r) ==> UpperOf(q) == UpperOf(s.ranks[r])
    requires r > 0 ==> LowerOf(q) == LowerOf(s.ranks[r])
    ensures Inv(c, bs, s.(ranks := s.ranks[r := q]))
  {
    hide Stream, Pack, Chunks, ChunksFrom, MetaOf, Payload, Unpack, Decode, Expected;
    Around(c, bs, s, r);
    var up, down := UpLink(s, r), DownLink(s, r);
    Reassemble(c, bs, s, r, up, q, down);
    assert Put(s, r, up, q, down) == s.(ranks := s.ranks[r := q]);
  }

  function UpLink(s: State, r: nat): Link
    requires Shape(s) && r < |s.ranks|
  {
    if r > 0 then s.links[r - 1] else Link([], [])
  }

  function DownLink(s: State, r: nat): Link
    requires Shape(s) && r < |s.ranks|
  {
    if HasNext(s, r) then s.links[r] else Link([], [])
  }

  lemma FillKeeps(c: Config, bs: seq<Bucket>, s: State)
    requires Inv(c, bs, s) && Enabled(c, s, Fill)
    ensures Inv(c, bs, Apply(c, s, Fill))
  {
    Around(c, bs, s, 0);
    FilledKeeps(c, bs, s.ranks[0]);
    Quiet(c, bs, s, 0, Filled(c, s.ranks[0]));
  }

  lemma YieldOneKeeps(c: Config, bs: seq<Bucket>, s: State, r: nat)
    requires Inv(c, bs, s) && Enabled(c, s, YieldOne(r))
    ensures Inv(c, bs, Apply(c, s, YieldOne(r)))
  {
    hide Stream, Pack, Chunks, ChunksFrom, MetaOf, Payload, Unpack, Decode, Expected;
    Around(c, bs, s, r);
    YieldedKeeps(c, bs, s.ranks[r], HasNext(s, r));
    Quiet(c, bs, s, r, Yielded(c, s.ranks[r]));
  }

  lemma EndYieldKeeps(c: Config, bs: seq<Bucket>, s: State, r: nat)
    requires Inv(c, bs, s) && Enabled(c, s, EndYield(r))
    ensures Inv(c, bs, Apply(c, s, EndYield(r)))
  {
    hide Stream, Pack, Chunks, ChunksFrom, MetaOf, Payload, Unpack, Decode, Expected;
    Around(c, bs, s, r);
    YieldEndedKeeps(c, bs, s.ranks[r], HasNext(s, r));
    Quiet(c, bs, s, r, s.ranks[r].(rpc := AwaitNext));
  }

  /** A swap moves the exposed buffer, but nothing is exposed by then. */
  lemma SwapKeeps(c: Config, bs: seq<Bucket>, s: State, r: nat)
    requires Inv(c, bs, s) && Enabled(c, s, Swap(r))
    ensures Inv(c, bs, Apply(c, s, Swap(r)))
  {
    hide Stream, Pack, Chunks, ChunksFrom, MetaOf, Payload, Unpack, Decode, Expected;
    Around(c, bs, s, r);
    SwappedKeeps(c, bs, s.ranks[r], HasNext(s, r));
    Reassemble(c, bs, s, r, UpLink(s, r), Swapped(s.ranks[r]), DownLink(s, r));
    assert Apply(c, s, Swap(r)) == Put(s, r, UpLink(s, r), Swapped(s.ranks[r]), DownLink(s, r));
  }

  lemma PublishKeeps(c: Config, bs: seq<Bucket>, s: State, r: nat)
    requires Inv(c, bs, s) && Enabled(c, s, Publish(r))
    ensures Inv(c, bs, Apply(c, s, Publish(r)))
  {
    Around(c, bs, s, r);
    var p := s.ranks[r];
    if !HasNext(s, r) {
      ServedKeeps(c, bs, p);
      Quiet(c, bs, s, r, Served(p));
    } else {
      if r == 0 {
        SenderPublishedKeeps(c, bs, p);
      } else {
        ReceiverPublishedKeeps(c, bs, p);
      }
      PublishLinks(c, bs, s, r);
    }
  }

  lemma LinkPublished(bs: seq<Bucket>, u: Upper, l: Link, w: Lower, v: Upper, msg: Msg)
    requires LinkOk(bs, u, l, w) && u.op.None? && u.sent < |bs|
    requires v.sent == u.sent + 1 && v.op == Some(u.sent)
    requires Carries(msg, bs[u.sent]) && msg.key == u.sent && msg.buf == v.exposed
    ensures LinkOk(bs, v, l.(msgs := l.msgs + [msg]), w)
  {}

  lemma PublishLinks(c: Config, bs: seq<Bucket>, s: State, r: nat)
    requires Inv(c, bs, s) && Enabled(c, s, Publish(r)) && HasNext(s, r)
    requires s.ranks[r].op.None? && s.ranks[r].sent < |bs|
    requires var (q, msg) := Published(c, s.ranks[r]);
      && (if r == 0 then SenderInv(c, bs, q) else ReceiverInv(c, bs, q, true) && LowerOf(q) == LowerOf(s.ranks[r]))
      && Carries(msg, bs[s.ranks[r].sent]) && msg.key == s.ranks[r].sent && msg.buf == Exposed(q)
      && q.sent == s.ranks[r].sent + 1 && q.op == Some(s.ranks[r].sent)
    ensures Inv(c, bs, Apply(c, s, Publish(r)))
  {
    hide Stream, Pack, Chunks, ChunksFrom, MetaOf, Payload, Unpack, Decode;
    var (q, msg) := Published(c, s.ranks[r]);
    var up, down := UpLink(s, r), s.links[r].(msgs := s.links[r].msgs + [msg]);
    assert LinkInv(bs, s, r) && (r > 0 ==> LinkInv(bs, s, r - 1));
    LinkPublished(bs, UpperOf(s.ranks[r]), s.links[r], LowerOf(s.ranks[r + 1]), UpperOf(q), msg);
    Reassemble(c, bs, s, r, up, q, down);
    assert Apply(c, s, Publish(r)) == Put(s, r, up, q, down);
  }

  lemma SenderConfirmedKeeps(c: Config, bs: seq<Bucket>, p: Rank)
    requires Plan(c, bs) && p.Sender? && SenderInv(c, bs, p)
    requires p.op.Some? && (p.spc == Filling || p.spc == Closing)
    ensures SenderInv(c, bs, Confirmed(p, p.op))
  {}

  lemma ReceiverConfirmedKeeps(c: Config, bs: seq<Bucket>, p: Rank, hasNext: bool)
    requires Plan(c, bs) && p.Receiver? && ReceiverInv(c, bs, p, hasNext) && p.rpc == AwaitNext
    ensures ReceiverInv(c, bs, Confirmed(p, p.op), hasNext) && LowerOf(Confirmed(p, p.op)) == LowerOf(p)
  {
    hide Stream, Pack, Chunks, ChunksFrom, MetaOf, Payload;
  }

  /** The notification found is the one for the outstanding operation: the key assertion never
      fails. */
  lemma ConfirmKeeps(c: Config, bs: seq<Bucket>, s: State, r: nat)
    requires Inv(c, bs, s) && Enabled(c, s, Confirm(r))
    ensures s.ranks[r].op.Some? ==> s.links[r].notifs == [s.ranks[r].op.value]
    ensures Inv(c, bs, Apply(c, s, Confirm(r)))
  {
    hide Stream, Pack, Chunks, ChunksFrom, MetaOf, Payload, Unpack, Decode;
    hide RankInv, LinkInv, Carries;
    Around(c, bs, s, r);
    var q, up, down := Confirmed(s.ranks[r], s.ranks[r].op), UpLink(s, r), DownLink(s, r).(notifs := []);
    if r == 0 {
      SenderConfirmedKeeps(c, bs, s.ranks[r]);
    } else {
      ReceiverConfirmedKeeps(c, bs, s.ranks[r], HasNext(s, r));
    }
    Reassemble(c, bs, s, r, up, q, down);
    assert s.ranks[r].op.Some? ==> s.links[r].notifs[1..] == [];
    assert Apply(c, s, Confirm(r)) == Put(s, r, up, q, down);
  }

  lemma ReceiveKeeps(c: Config, bs: seq<Bucket>, s: State, r: nat)
    requires Inv(c, bs, s) && Enabled(c, s, Receive(r))
    ensures Inv(c, bs, Apply(c, s, Receive(r)))
  {
    hide Stream, Pack, Chunks, ChunksFrom, MetaOf, Payload, Unpack, Decode, Expected;
    Around(c, bs, s, r);
    var p, l := s.ranks[r], s.links[r - 1];
    var q, up, down := Received(p, l.msgs[0]), l.(msgs := []), DownLink(s, r);
    ReceivedKeeps(c, bs, p, HasNext(s, r), l.msgs[0]);
    assert UpperOf(q) == UpperOf(p);
    Reassemble(c, bs, s, r, up, q, down);
    assert l.msgs[1..] == [];
    assert Apply(c, s, Receive(r)) == Put(s, r, up, q, down);
  }

  lemma TransferredKeeps(c: Config, bs: seq<Bucket>, p: Rank, hasNext: bool, bytes: seq<byte>)
    requires Plan(c, bs) && p.Receiver? && ReceiverInv(c, bs, p, hasNext) && p.read.InFlight?
    requires |bytes| == c.size && bs[p.cur].payload <= bytes
    ensures var q := Transferred(p, bytes);
      ReceiverInv(c, bs, q, hasNext) && UpperOf(q) == UpperOf(p) && LowerOf(q) == LowerOf(p).(reading := None)
  {
    hide Stream, Pack, Chunks, ChunksFrom, MetaOf, Payload, Unpack, Decode, Sendable, AllFit, Readable;
  }

  lemma LinkTransferred(bs: seq<Bucket>, u: Upper, l: Link, w: Lower)
    requires LinkOk(bs, u, l, w) && w.reading.Some?
    ensures LinkOk(bs, u, l.(notifs := l.notifs + [w.reading.value.key]), w.(reading := None))
  {}

  lemma TransferRank(c: Config, bs: seq<Bucket>, s: State, r: nat)
    requires Inv(c, bs, s) && Enabled(c, s, Transfer(r))
    ensures var q := Apply(c, s, Transfer(r)).ranks[r];
      && ReceiverInv(c, bs, q, HasNext(s, r))
      && UpperOf(q) == UpperOf(s.ranks[r]) && LowerOf(q) == LowerOf(s.ranks[r]).(reading := None)
  {
    hide Stream, Pack, Chunks, ChunksFrom, MetaOf, Payload, Unpack, Decode, Expected, AllFit, Readable, SenderInv;
    SourceIntact(c, bs, s, r);
    assert RankInv(c, bs, s, r);
    TransferredKeeps(c, bs, s.ranks[r], HasNext(s, r), s.ranks[r - 1].bufs[s.ranks[r].read.msg.buf]);
  }

  lemma TransferKeeps(c: Config, bs: seq<Bucket>, s: State, r: nat)
    requires Inv(c, bs, s) && Enabled(c, s, Transfer(r))
    ensures Inv(c, bs, Apply(c, s, Transfer(r)))
  {
    hide Stream, Pack, Chunks, ChunksFrom, MetaOf, Payload, Unpack, Decode, Expected;
    hide ReceiverInv, SenderInv, RankInv, LinkInv, LinkOk, UpperOf, LowerOf, Apply, Put;
    Around(c, bs, s, r);
    TransferRank(c, bs, s, r);
    TransferParts(c, s, r);
    TransferLinks(c, bs, s, r);
    Reassemble(c, bs, s, r, Notified(s, r), Apply(c, s, Transfer(r)).ranks[r], DownLink(s, r));
  }

  /** The link to the predecessor, with the notification of rank r's completed read. */
  function Notified(s: State, r: nat): Link
    requires Shape(s) && 0 < r < |s.ranks| && s.ranks[r].read.InFlight?
  {
    var l := s.links[r - 1];
    l.(notifs := l.notifs + [s.ranks[r].read.msg.key])
  }

  /** A completed read changes rank r and that link. */
  lemma TransferParts(c: Config, s: State, r: nat)
    requires Shape(s) && Enabled(c, s, Transfer(r))
    ensures 0 < r < |s.ranks| && s.ranks[r].read.InFlight?
    ensures Shape(Apply(c, s, Transfer(r))) && r < |Apply(c, s, Transfer(r)).ranks|
    ensures var q := Apply(c, s, Transfer(r)).ranks[r];
      q.Receiver? && Apply(c, s, Transfer(r)) == Put(s, r, Notified(s, r), q, DownLink(s, r))
  {}

  lemma TransferLinks(c: Config, bs: seq<Bucket>, s: State, r: nat)
    requires Inv(c, bs, s) && Enabled(c, s, Transfer(r)) && 0 < r < |s.ranks| && s.ranks[r].read.InFlight?
    ensures LinkOk(bs, UpperOf(s.ranks[r - 1]), Notified(s, r), LowerOf(s.ranks[r]).(reading := None))
    ensures HasNext(s, r) ==> LinkOk(bs, UpperOf(s.ranks[r]), DownLink(s, r), LowerOf(s.ranks[r + 1]))
  {
    hide ReceiverInv, SenderInv, RankInv, LinkInv;
    Around(c, bs, s, r);
    LinkTransferred(bs, UpperOf(s.ranks[r - 1]), s.links[r - 1], LowerOf(s.ranks[r]));
  }

  /** While rank r's read is in flight, the buffer it reads holds the bucket it is to get. */
  lemma SourceIntact(c: Config, bs: seq<Bucket>, s: State, r: nat)
    requires Inv(c, bs, s) && 0 < r < |s.ranks| && s.ranks[r].read.InFlight?
    ensures var msg := s.ranks[r].read.msg;
      && msg.buf < 2 && |s.ranks[r - 1].bufs[msg.buf]| == c.size
      && s.ranks[r].cur < |bs| && Carries(msg, bs[s.ranks[r].cur])
      && bs[s.ranks[r].cur].payload <= s.ranks[r - 1].bufs[msg.buf]
  {
    hide Stream, Pack, Chunks, ChunksFrom, MetaOf, Payload, Unpack, Decode, Expected;
    Around(c, bs, s, r);
    Around(c, bs, s, r - 1);
  }

  lemma StepKeeps(c: Config, bs: seq<Bucket>, s: State, step: Step)
    requires Inv(c, bs, s) && Enabled(c, s, step)
    ensures Inv(c, bs, Apply(c, s, step))
  {
    match step {
      case Publish(r) => PublishKeeps(c, bs, s, r);
      case Confirm(r) => ConfirmKeeps(c, bs, s, r);
      case Receive(r) => ReceiveKeeps(c, bs, s, r);
      case Transfer(r) => TransferKeeps(c, bs, s, r);
      case Fill => FillKeeps(c, bs, s);
      case YieldOne(r) => YieldOneKeeps(c, bs, s, r);
      case EndYield(r) => EndYieldKeeps(c, bs, s, r);
      case Swap(r) => SwapKeeps(c, bs, s, r);
    }
  }

  // ----- safety

  /** A downstream read of rank r's buffer b is announced or under way. */
  predicate ReadOutstanding(s: State, r: nat, b: nat)
    requires Shape(s) && r < |s.ranks|
  {
    HasNext(s, r) &&
    ((exists i :: 0 <= i < |s.links[r].msgs| && s.links[r].msgs[i].buf == b)
     || (s.ranks[r + 1].read.InFlight? && s.ranks[r + 1].read.msg.buf == b))
  }

  /** Tensors cut out of rank r's buffer b have still to be yielded. */
  predicate BeingYielded(s: State, r: nat, b: nat)
    requires Shape(s) && r < |s.ranks|
  {
    var p := s.ranks[r];
    p.Receiver? && b == p.send && p.cur > 0 && (p.rpc.Serve? || p.rpc.WantMeta? || p.rpc.Yielding?)
  }

  /** Rank r's buffer b is open for writing: rank 0 is filling it, or a remote read into it has
      begun and not completed. */
  predicate BeingWritten(s: State, r: nat, b: nat)
    requires Shape(s) && r < |s.ranks|
  {
    var p := s.ranks[r];
    if p.Sender? then p.spc == Filling && b == p.send else p.read.InFlight? && b == 1 - p.send
  }

  /** No buffer is written while a downstream read of it is outstanding or its tensors are
      still being yielded. */
  lemma BuffersExclusive(c: Config, bs: seq<Bucket>, s: State, r: nat, b: nat)
    requires Inv(c, bs, s) && r < |s.ranks| && BeingWritten(s, r, b)
    ensures !ReadOutstanding(s, r, b) && !BeingYielded(s, r, b)
  {
    hide Stream, Pack, Chunks, ChunksFrom, MetaOf, Payload;
    Around(c, bs, s, r);
  }

  predicate Failed(p: Rank) {
    if p.Sender? then p.spc == SenderFailed else p.rpc == ReceiverFailed
  }

  predicate Finished(p: Rank) {
    if p.Sender? then p.spc == SenderDone else p.rpc == ReceiverDone
  }

  predicate AllFinished(s: State) {
    forall r :: 0 <= r < |s.ranks| ==> Finished(s.ranks[r])
  }

  lemma {:induction false} UnpackPrefix(item: nat, bs: seq<Bucket>, k: nat)
    requires k <= |bs| && Readable(item, bs)
    ensures Unpack(item, bs[..k]) <= Unpack(item, bs)
    decreases |bs| - k
  {
    if k < |bs| {
      UnpackPrefix(item, bs, k + 1);
      UnpackStep(item, bs, k);
    } else {
      assert bs[..k] == bs;
    }
  }

  /** What a receiver must have yielded is a prefix of the stream. */
  lemma ExpectedPrefix(c: Config, bs: seq<Bucket>, p: Rank)
    requires Plan(c, bs) && p.Receiver? && p.cur <= |bs|
    ensures Expected(c, bs, p) <= Unpack(c.item, bs)
  {
    hide Plan, Unpack, Decode, Expected;
    ReadablePlan(c, bs);
    if p.cur == 0 {
      assert Expected(c, bs, p) == [] by { NothingExpected(c, bs, p); }
    } else {
      var b := bs[p.cur - 1];
      var (front, d) := (Unpack(c.item, bs[..p.cur - 1]), Decode(c.item, b.meta, b.payload));
      UnpackPrefix(c.item, bs, p.cur);
      UnpackStep(c.item, bs, p.cur - 1);
      var j := ExpectedParts(c, bs, p, front, d);
      PrefixParts(front, d, Unpack(c.item, bs), j);
    }
  }

  lemma ReadablePlan(c: Config, bs: seq<Bucket>)
    requires Plan(c, bs)
    ensures Readable(c.item, bs)
  {}

  lemma NothingExpected(c: Config, bs: seq<Bucket>, p: Rank)
    requires Plan(c, bs) && p.Receiver? && p.cur == 0
    ensures Expected(c, bs, p) == []
  {}

  /** What is expected is the buckets before the current one and a beginning of that. */
  lemma ExpectedParts(c: Config, bs: seq<Bucket>, p: Rank, front: seq<Weight>, d: seq<Weight>) returns (j: nat)
    requires Plan(c, bs) && p.Receiver? && 0 < p.cur <= |bs|
    requires front == Unpack(c.item, bs[..p.cur - 1]) && front + d == Unpack(c.item, bs[..p.cur])
    requires d == Decode(c.item, bs[p.cur - 1].meta, bs[p.cur - 1].payload)
    ensures j <= |d| && Expected(c, bs, p) == front + d[..j]
  {
    hide Plan, Unpack, Decode;
    ReadablePlan(c, bs);
    match p.rpc
    case Yielding(k) => j := if k <= |d| then k else 0;
    case Serve => j := 0;
    case WantMeta => j := 0;
    case _ =>
      j := |d|;
      assert d[..|d|] == d;
  }

  lemma PrefixParts(front: seq<Weight>, d: seq<Weight>, all: seq<Weight>, j: nat)
    requires front + d <= all && j <= |d|
    ensures front <= all && front + d[..j] <= all
  {
    assert (front + d)[..|front| + j] == front + d[..j] && (front + d)[..|front|] == front;
  }

  /** Each receiver has yielded a prefix of the stream, the whole of it once it has finished. */
  lemma YieldsInOrder(c: Config, bs: seq<Bucket>, s: State, r: nat)
    requires Inv(c, bs, s) && 0 < r < |s.ranks|
    ensures s.ranks[r].out <= Unpack(c.item, bs)
    ensures Finished(s.ranks[r]) ==> s.ranks[r].out == Unpack(c.item, bs)
  {
    hide Stream, Pack, Chunks, ChunksFrom, MetaOf, Payload;
    assert RankInv(c, bs, s, r);
    ExpectedPrefix(c, bs, s.ranks[r]);
    assert bs[..|bs|] == bs;
  }

  // ----- progress

  /** Rank p is at a point where it waits for its outstanding operation. */
  predicate Awaits(c: Config, p: Rank) {
    && p.op.Some?
    && if p.Sender? then p.spc == Closing || (p.spc == Filling && p.next <= |c.ws| && MustFlush(c, p))
       else p.rpc == AwaitNext
  }

  /** A rank that has work left, is not starved of metadata and waits for no notification can
      move, or its own remote read can complete. */
  lemma FreeRankMoves(c: Config, bs: seq<Bucket>, s: State, r: nat) returns (step: Step)
    requires Inv(c, bs, s) && 0 < r < |s.ranks| && !Finished(s.ranks[r]) && !Awaits(c, s.ranks[r])
    requires s.ranks[r].rpc == WantMeta ==> s.links[r - 1].msgs != []
    ensures Enabled(c, s, step)
  {
    hide Stream, Pack, Chunks, ChunksFrom, MetaOf, Payload;
    assert RankInv(c, bs, s, r);
    var p := s.ranks[r];
    match p.rpc {
      case Serve => step := Publish(r);
      case WantMeta => step := Receive(r);
      case Yielding(_) => step := YieldingRankMoves(c, bs, s, r);
      case AwaitNext => step := Confirm(r);
      case AwaitPrev =>
        if p.read.InFlight? {
          SourceIntact(c, bs, s, r);
        }
        step := if p.read.InFlight? then Transfer(r) else Swap(r);
    }
  }

  lemma YieldingRankMoves(c: Config, bs: seq<Bucket>, s: State, r: nat) returns (step: Step)
    requires Inv(c, bs, s) && 0 < r < |s.ranks| && s.ranks[r].rpc.Yielding?
    ensures Enabled(c, s, step)
  {
    hide Stream, Pack, Chunks, ChunksFrom, MetaOf, Payload, LinkOk, Expected, Unpack, Decode;
    assert RankInv(c, bs, s, r);
    var p := s.ranks[r];
    if p.rpc.j < |p.held.value.meta| {
      YieldedKeeps(c, bs, p, HasNext(s, r));
      step := YieldOne(r);
    } else {
      step := EndYield(r);
    }
  }

  /** A rank that has work left and is not starved of metadata can move, or waits for one
      further down the chain that can. */
  lemma {:induction false} SomeoneMoves(c: Config, bs: seq<Bucket>, s: State, r: nat) returns (step: Step)
    requires Inv(c, bs, s) && r < |s.ranks| && !Finished(s.ranks[r]) && (r == 0 ==> !Failed(s.ranks[0]))
    requires r > 0 && s.ranks[r].rpc == WantMeta ==> s.links[r - 1].msgs != []
    ensures Enabled(c, s, step)
    decreases |s.ranks| - r
  {
    hide Stream, Pack, Chunks, ChunksFrom, MetaOf, Payload, Unpack, Decode, Expected;
    hide RankInv, LinkInv, ReceiverInv, SenderInv, LinkOk, Plan;
    if Awaits(c, s.ranks[r]) {
      OnlyPublishersAwait(c, bs, s, r);
      if s.links[r].notifs != [] {
        step := Confirm(r);
      } else if s.ranks[r + 1].read.InFlight? {
        SourceIntact(c, bs, s, r + 1);
        step := Transfer(r + 1);
      } else {
        StarvedNeighbour(c, bs, s, r);
        step := SomeoneMoves(c, bs, s, r + 1);
      }
    } else if r == 0 {
      step := FreeSenderMoves(c, bs, s);
    } else {
      step := FreeRankMoves(c, bs, s, r);
    }
  }

  lemma OnlyPublishersAwait(c: Config, bs: seq<Bucket>, s: State, r: nat)
    requires Inv(c, bs, s) && r < |s.ranks| && s.ranks[r].op.Some?
    ensures HasNext(s, r)
  {
    hide Stream, Pack, Chunks, ChunksFrom, MetaOf, Payload;
    assert RankInv(c, bs, s, r);
  }

  lemma FreeSenderMoves(c: Config, bs: seq<Bucket>, s: State) returns (step: Step)
    requires Inv(c, bs, s) && !Finished(s.ranks[0]) && !Failed(s.ranks[0]) && !Awaits(c, s.ranks[0])
    ensures Enabled(c, s, step)
  {
    hide Stream, Pack, Chunks, ChunksFrom, MetaOf, Payload, Unpack, Decode, Expected, LinkInv, LinkOk;
    assert RankInv(c, bs, s, 0);
    step := if MustFlush(c, s.ranks[0]) then Publish(0) else Fill;
  }

  /** The bucket rank r waits on lies unread in front of its successor. */
  lemma StarvedNeighbour(c: Config, bs: seq<Bucket>, s: State, r: nat)
    requires Inv(c, bs, s) && r < |s.ranks| && s.ranks[r].op.Some? && HasNext(s, r)
    requires s.links[r].notifs == [] && !s.ranks[r + 1].read.InFlight?
    ensures s.links[r].msgs != [] && !Finished(s.ranks[r + 1])
  {
    hide Stream, Pack, Chunks, ChunksFrom, MetaOf, Payload;
    assert LinkInv(bs, s, r);
    assert RankInv(c, bs, s, r + 1);
  }

  lemma {:induction false} FirstUnfinished(s: State) returns (r: nat)
    requires !AllFinished(s)
    ensures r < |s.ranks| && !Finished(s.ranks[r])
    ensures forall i :: 0 <= i < r ==> Finished(s.ranks[i])
  {
    r := 0;
    while Finished(s.ranks[r])
      invariant r < |s.ranks| && (forall i :: 0 <= i < r ==> Finished(s.ranks[i]))
      decreases |s.ranks| - r
    {
      r := r + 1;
    }
  }

  /** Rank 0 has given up on a weight that is too large, and every receiver waits for metadata
      that will not come. */
  predicate GivenUp(s: State)
    requires Shape(s)
  {
    && s.ranks[0].spc == SenderFailed
    && forall r :: 1 <= r < |s.ranks| ==> Starved(s, r)
  }

  predicate Starved(s: State, r: nat)
    requires Shape(s) && 0 < r < |s.ranks|
  {
    s.ranks[r].rpc == WantMeta && s.links[r - 1].msgs == []
  }

  /** The relay never deadlocks: it goes on until every rank has finished, or rank 0 has given up
      and everything it published has been taken. */
  lemma Progress(c: Config, bs: seq<Bucket>, s: State) returns (step: Step)
    requires Inv(c, bs, s) && !AllFinished(s) && !GivenUp(s)
    ensures Enabled(c, s, step)
  {
    hide Stream, Pack, Chunks, ChunksFrom, MetaOf, Payload, Unpack, Decode, Expected, Readable, Carries;
    if Failed(s.ranks[0]) {
      var r :| 1 <= r < |s.ranks| && !Starved(s, r);
      Around(c, bs, s, 0);
      Around(c, bs, s, r);
      step := SomeoneMoves(c, bs, s, r);
    } else {
      var r := FirstUnfinished(s);
      if r > 0 {
        Around(c, bs, s, r);
        Around(c, bs, s, r - 1);
        Around(c, bs, s, 0);
      }
      step := SomeoneMoves(c, bs, s, r);
    }
  }

  /** When rank 0 has given up every receiver has taken all the buckets it published, and is left
      with the last of them unyielded. */
  lemma {:induction false} GivenUpYields(c: Config, bs: seq<Bucket>, s: State, r: nat)
    requires Inv(c, bs, s) && GivenUp(s) && r < |s.ranks|
    ensures s.ranks[r].sent == if HasNext(s, r) then |bs| else 0
    ensures r > 0 ==> s.ranks[r].cur == |bs| && s.ranks[r].out == Unpack(c.item, bs[..|bs| - 1])
  {
    hide Stream, Pack, Chunks, ChunksFrom, MetaOf, Payload, Unpack, Decode;
    Around(c, bs, s, r);
    if r > 0 {
      GivenUpYields(c, bs, s, r - 1);
      assert Starved(s, r);
    }
  }

  // ----- termination

  /** Steps rank p can still take, for `nb` buckets, `nw` weights and `nt` tensors to yield. */
  function Work(nb: nat, nw: nat, nt: nat, p: Rank): int {
    if p.Sender? then
      3 * (nb - p.sent) + (nw - p.next) + if p.op.Some? then 1 else 0
    else
      10 * (nb - p.cur) + (nt - |p.out|) + (if p.read.InFlight? then 1 else 0) +
      match p.rpc
      case Serve => 9
      case WantMeta => 8
      case Yielding(_) => 6
      case AwaitNext => 5
      case AwaitPrev => 4
      case _ => 0
  }

  function TotalWork(nb: nat, nw: nat, nt: nat, ps: seq<Rank>): int {
    if ps == [] then 0 else Work(nb, nw, nt, ps[0]) + TotalWork(nb, nw, nt, ps[1..])
  }

  lemma {:induction false} WorkUpdate(nb: nat, nw: nat, nt: nat, ps: seq<Rank>, r: nat, q: Rank)
    requires r < |ps|
    ensures TotalWork(nb, nw, nt, ps[r := q])
            == TotalWork(nb, nw, nt, ps) - Work(nb, nw, nt, ps[r]) + Work(nb, nw, nt, q)
  {
    if r == 0 {
      assert ps[0 := q][1..] == ps[1..];
    } else {
      WorkUpdate(nb, nw, nt, ps[1..], r - 1, q);
      assert ps[r := q][1..] == ps[1..][r - 1 := q];
    }
  }

  lemma {:induction false} WorkNonnegative(c: Config, bs: seq<Bucket>, s: State, k: nat)
    requires Inv(c, bs, s) && k <= |s.ranks|
    ensures TotalWork(|bs|, |c.ws|, |Unpack(c.item, bs)|, s.ranks[k..]) >= 0
    decreases |s.ranks| - k
  {
    if k < |s.ranks| {
      WorkNonnegative(c, bs, s, k + 1);
      assert s.ranks[k..][1..] == s.ranks[k + 1..];
      assert RankInv(c, bs, s, k);
      if k > 0 {
        YieldsInOrder(c, bs, s, k);
      }
    }
  }

  /** The rank a step belongs to. */
  function Mover(step: Step): nat {
    match step
    case Fill => 0
    case Publish(r) => r
    case Confirm(r) => r
    case Receive(r) => r
    case Transfer(r) => r
    case YieldOne(r) => r
    case EndYield(r) => r
    case Swap(r) => r
  }

  lemma SenderUsesWork(c: Config, s: State, step: Step, nb: nat, nt: nat)
    requires Shape(s) && Enabled(c, s, step) && Mover(step) == 0
    requires step.Confirm? ==> s.ranks[0].op == Some(s.links[0].notifs[0])
    ensures Work(nb, |c.ws|, nt, Apply(c, s, step).ranks[0]) < Work(nb, |c.ws|, nt, s.ranks[0])
  {}

  lemma ReceiverUsesWork(c: Config, s: State, step: Step, nb: nat, nw: nat, nt: nat)
    requires Shape(s) && Enabled(c, s, step) && Mover(step) > 0
    requires var r := Mover(step);
      && (step.Confirm? && s.ranks[r].op.Some? ==> s.ranks[r].op.value == s.links[r].notifs[0])
      && (step.Receive? ==> s.ranks[r].read.NoRead?)
    ensures Work(nb, nw, nt, Apply(c, s, step).ranks[Mover(step)]) < Work(nb, nw, nt, s.ranks[Mover(step)])
  {}

  /** Every step uses up work of the rank that takes it. */
  lemma StepUsesWork(c: Config, bs: seq<Bucket>, s: State, step: Step)
    requires Inv(c, bs, s) && Enabled(c, s, step)
    ensures var nt := |Unpack(c.item, bs)|;
      TotalWork(|bs|, |c.ws|, nt, Apply(c, s, step).ranks) < TotalWork(|bs|, |c.ws|, nt, s.ranks)
  {
    var r, nt := Mover(step), |Unpack(c.item, bs)|;
    assert RankInv(c, bs, s, r);
    if step.Confirm? {
      ConfirmKeeps(c, bs, s, r);
    }
    if r == 0 {
      SenderUsesWork(c, s, step, |bs|, nt);
    } else {
      ReceiverUsesWork(c, s, step, |bs|, |c.ws|, nt);
    }
    OnlyMoverChanges(c, s, step);
    WorkUpdate(|bs|, |c.ws|, nt, s.ranks, r, Apply(c, s, step).ranks[r]);
  }

  lemma OnlyMoverChanges(c: Config, s: State, step: Step)
    requires Shape(s) && Enabled(c, s, step)
    ensures var r := Mover(step);
      r < |s.ranks| && Apply(c, s, step).ranks == s.ranks[r := Apply(c, s, step).ranks[r]]
  {}

  // ----- whole runs

  ghost predicate Run(c: Config, states: seq<State>, steps: seq<Step>) {
    && |states| == |steps| + 1
    && Init(c, states[0])
    && forall i :: 0 <= i < |steps| ==>
         Shape(states[i]) && Enabled(c, states[i], steps[i]) && states[i + 1] == Apply(c, states[i], steps[i])
  }

  /** What tensors are: as many bytes as the shape says. */
  predicate Legal(c: Config) { AllWellFormed(c.item, c.ws) }

  lemma PlanExists(c: Config)
    requires Legal(c)
    ensures Plan(c, Stream(c.size, c.ws))
  {
    var ws := Sendable(c.size, c.ws);
    ChunksWellFormed(c.item, c.size, ws);
    forall k | 0 <= k < |Pack(c.size, ws)| ensures |Pack(c.size, ws)[k].payload| <= c.size {
      ChunksBounded(c.size, [], ws, k);
    }
  }

  lemma {:induction false} RunInv(c: Config, states: seq<State>, steps: seq<Step>, i: nat)
    requires Legal(c) && Run(c, states, steps) && i <= |steps|
    ensures Inv(c, Stream(c.size, c.ws), states[i])
  {
    var bs := Stream(c.size, c.ws);
    PlanExists(c);
    if i == 0 {
      InitInv(c, bs, states[0]);
    } else {
      RunInv(c, states, steps, i - 1);
      StepKeeps(c, bs, states[i - 1], steps[i - 1]);
    }
  }

  /** In every state of every run no assertion has failed, but rank 0's on a weight that is too
      large; no buffer is written while it is being read or yielded, and each receiver has
      yielded a prefix of the stream in order. */
  lemma RunIsSafe(c: Config, states: seq<State>, steps: seq<Step>, i: nat)
    requires Legal(c) && Run(c, states, steps) && i <= |steps|
    ensures Shape(states[i])
    ensures forall r :: 0 <= r < |states[i].ranks| && Failed(states[i].ranks[r]) ==> r == 0 && !AllFit(c.size, c.ws)
    ensures forall r, b :: 0 <= r < |states[i].ranks| && 0 <= b < 2 && BeingWritten(states[i], r, b) ==>
              !ReadOutstanding(states[i], r, b) && !BeingYielded(states[i], r, b)
    ensures Readable(c.item, Stream(c.size, c.ws))
    ensures forall r :: 1 <= r < |states[i].ranks| ==> states[i].ranks[r].out <= Unpack(c.item, Stream(c.size, c.ws))
  {
    var bs, s := Stream(c.size, c.ws), states[i];
    RunInv(c, states, steps, i);
    forall r | 0 <= r < |s.ranks| && Failed(s.ranks[r]) ensures r == 0 && !AllFit(c.size, c.ws) {
      assert RankInv(c, bs, s, r);
    }
    forall r, b | 0 <= r < |s.ranks| && 0 <= b < 2 && BeingWritten(s, r, b)
      ensures !ReadOutstanding(s, r, b) && !BeingYielded(s, r, b)
    {
      BuffersExclusive(c, bs, s, r, b);
    }
    forall r | 1 <= r < |s.ranks| ensures s.ranks[r].out <= Unpack(c.item, bs) {
      YieldsInOrder(c, bs, s, r);
    }
  }

  lemma {:induction false} RunUsesWork(c: Config, states: seq<State>, steps: seq<Step>, i: nat)
    requires Legal(c) && Run(c, states, steps) && i <= |steps|
    ensures Readable(c.item, Stream(c.size, c.ws))
    ensures var bs := Stream(c.size, c.ws);
      TotalWork(|bs|, |c.ws|, |Unpack(c.item, bs)|, states[i].ranks) + i
        <= TotalWork(|bs|, |c.ws|, |Unpack(c.item, bs)|, states[0].ranks)
  {
    PlanExists(c);
    if i > 0 {
      RunUsesWork(c, states, steps, i - 1);
      RunInv(c, states, steps, i - 1);
      StepUsesWork(c, Stream(c.size, c.ws), states[i - 1], steps[i - 1]);
    }
  }

  /** How many steps a relay over `n` ranks can take. */
  function StepBound(c: Config, n: nat): int
    requires Legal(c) && n > 0 && Readable(c.item, Stream(c.size, c.ws))
  {
    var bs := Stream(c.size, c.ws);
    3 * |bs| + |c.ws| + (n - 1) * (10 * |bs| + |Unpack(c.item, bs)| + 8)
  }

  lemma {:induction false} ReceiversWork(nb: nat, nw: nat, nt: nat, ps: seq<Rank>)
    requires forall i :: 0 <= i < |ps| ==> ps[i].Receiver? && Work(nb, nw, nt, ps[i]) == 10 * nb + nt + 8
    ensures TotalWork(nb, nw, nt, ps) == |ps| * (10 * nb + nt + 8)
  {
    if ps != [] {
      ReceiversWork(nb, nw, nt, ps[1..]);
      assert |ps| * (10 * nb + nt + 8) == (10 * nb + nt + 8) + (|ps| - 1) * (10 * nb + nt + 8);
    }
  }

  /** Every run is finite, whatever the interleaving. */
  lemma RelayTerminates(c: Config, states: seq<State>, steps: seq<Step>)
    requires Legal(c) && Run(c, states, steps)
    ensures Readable(c.item, Stream(c.size, c.ws))
    ensures |steps| <= StepBound(c, |states[0].ranks|)
  {
    hide Stream, Pack, Unpack;
    var bs, last := Stream(c.size, c.ws), states[|steps|];
    RunInv(c, states, steps, |steps|);
    RunUsesWork(c, states, steps, |steps|);
    WorkNonnegative(c, bs, last, 0);
    assert last.ranks[0..] == last.ranks;
    ReceiversWork(|bs|, |c.ws|, |Unpack(c.item, bs)|, states[0].ranks[1..]);
  }

  /** A run that cannot be continued has every rank finished exactly when every weight fits a
      bucket, and every receiver then holds exactly what rank 0 was given if and only if no bucket
      was given one name twice. Otherwise rank 0 has given up, and every receiver has yielded all
      buckets but the last one published, and waits. */
  lemma RelayDelivers(c: Config, states: seq<State>, steps: seq<Step>)
    requires Legal(c) && Run(c, states, steps)
    ensures var last := states[|steps|];
      && Shape(last) && Readable(c.item, Stream(c.size, c.ws))
      && (AllFinished(last) ==> AllFit(c.size, c.ws) && forall r :: 1 <= r < |last.ranks| ==>
           (last.ranks[r].out == c.ws <==> BucketNamesDistinct(c.size, c.ws)))
      && ((forall step :: !Enabled(c, last, step)) ==>
           && (AllFinished(last) <==> AllFit(c.size, c.ws))
           && (GivenUp(last) <==> !AllFit(c.size, c.ws)))
      && (GivenUp(last) ==> forall r :: 1 <= r < |last.ranks| ==>
           last.ranks[r].out == Unpack(c.item, Stream(c.size, c.ws)[..|Stream(c.size, c.ws)| - 1]))
  {
    hide Stream, Pack, Unpack, BucketNamesDistinct, Enabled, Apply;
    var bs, last := Stream(c.size, c.ws), states[|steps|];
    RunInv(c, states, steps, |steps|);
    Around(c, bs, last, 0);
    if AllFinished(last) {
      AllFinishedDelivers(c, bs, last);
    } else if GivenUp(last) {
      forall r | 1 <= r < |last.ranks| ensures last.ranks[r].out == Unpack(c.item, bs[..|bs| - 1]) {
        GivenUpYields(c, bs, last, r);
      }
    } else {
      var step := Progress(c, bs, last);
    }
  }

  lemma AllFinishedDelivers(c: Config, bs: seq<Bucket>, s: State)
    requires Legal(c) && Inv(c, bs, s) && AllFinished(s)
    ensures AllFit(c.size, c.ws)
    ensures forall r :: 1 <= r < |s.ranks| ==> (s.ranks[r].out == c.ws <==> BucketNamesDistinct(c.size, c.ws))
  {
    hide Stream, Pack, Unpack, BucketNamesDistinct;
    Around(c, bs, s, 0);
    PackRoundTrip(c.item, c.size, c.ws);
    forall r | 1 <= r < |s.ranks| ensures s.ranks[r].out == Unpack(c.item, bs) {
      YieldsInOrder(c, bs, s, r);
    }
  }
}
