/** Asynchronous double-buffer offloading of activations.

  A forward pass commits groups 0 .. N-1 in order, a backward pass commits them back down to 0,
  and the handler decides at each commit, from a window map, which group to copy out, release
  or copy back. Copies run on two side streams; what the compute stream has not waited for yet
  is tracked here as a set of groups per stream. */
module ActivationOffload {
  import opened Wrappers

  /** `_get_unique_tensor_key`: storage address and dtype. */
  type Key = (int, int)

  /** (group, position in group) */
  type Tag = (nat, nat)

  /** A tensor as autograd sees it: its shape and its flat contents. */
  datatype Value = Value(shape: seq<nat>, flat: seq<int>)

  /** What `tensor_tag_to_state` holds for a tag. */
  datatype Slot = OnDevice(key: Key, value: Value) | Moved(key: Key, shape: seq<nat>)

  /** `groups` is num_offload_group, `layers` is num_model_group. */
  datatype Config = Config(groups: nat, layers: nat)

  // ----- the window map

  /** The commit at which group i's copy-out must have finished, in closed form. */
  function Window(c: Config, i: nat): int {
    if c.groups == 0 then 0
    else (i + 1) * (c.layers / c.groups) - 1 + if i + 1 < c.layers % c.groups then i + 1 else c.layers % c.groups
  }

  /** The constructor's loop computes the closed form. */
  method BuildWindowMap(c: Config) returns (window: map<nat, int>)
    ensures forall i :: i in window <==> 0 <= i < c.groups
    ensures forall i :: 0 <= i < c.groups ==> window[i] == Window(c, i)
    // each window is as many commits wide as groups share out the layers, the first ones one more
    ensures c.groups > 0 ==> forall i :: 0 <= i < c.groups ==>
      window[i] - (if i == 0 then -1 else window[i - 1])
      == c.layers / c.groups + if i < c.layers % c.groups then 1 else 0
  {
    WindowWidth(c);
    window := map[];
    var constant := 0;
    for i := 0 to c.groups
      invariant forall k :: k in window <==> 0 <= k < i
      invariant forall k :: 0 <= k < i ==> window[k] == Window(c, k)
      invariant c.groups > 0 ==> constant == if i < c.layers % c.groups then i else c.layers % c.groups
    {
      var w := (c.layers / c.groups) * (i + 1) - 1;
      if i < c.layers % c.groups {
        w, constant := w + i + 1, i + 1;
      } else {
        w := w + constant;
      }
      window := window[i := w];
    }
  }

  lemma WindowWidth(c: Config)
    ensures c.groups > 0 ==> forall i: nat ::
      Window(c, i) - (if i == 0 then -1 else Window(c, i - 1))
      == c.layers / c.groups + if i < c.layers % c.groups then 1 else 0
  {
    if c.groups > 0 {
      var q := c.layers / c.groups;
      forall i: nat
        ensures Window(c, i) - (if i == 0 then -1 else Window(c, i - 1))
             == q + if i < c.layers % c.groups then 1 else 0
      {
        assert (i + 1) * q == i * q + q;
        if i > 0 {
          assert Window(c, i - 1) == i * q - 1 + if i < c.layers % c.groups then i else c.layers % c.groups;
        }
      }
    }
  }

  /** What the source asks of its caller: at least one group to offload, no more than commits. */
  predicate Sound(c: Config) {
    1 <= c.groups <= c.layers
  }

  /** As many groups to offload as commits: then every copy-out but the first is started before
      the group's tensors exist, and copies nothing. The caller keeps one group on the device. */
  predicate Eager(c: Config) {
    1 < c.groups == c.layers
  }

  lemma WindowStep(c: Config, i: nat)
    requires Sound(c)
    ensures Window(c, i) < Window(c, i + 1)
  {}

  lemma {:induction false} WindowIncreasing(c: Config, i: nat, j: nat)
    requires Sound(c) && i < j
    ensures Window(c, i) < Window(c, j)
  {}

  /** Group i's window closes at its own commit or later, strictly later when some group stays
      on the device; the last window closes at the last commit. */
  lemma {:induction false} WindowBounds(c: Config, i: nat)
    requires Sound(c) && i < c.groups
    ensures Window(c, i) >= i
    ensures c.groups < c.layers ==> Window(c, i) >= i + 1
    ensures Window(c, c.groups - 1) == c.layers - 1
  {}

  /** Closing window i copies out group i + 1. Every such group is pushed by then exactly when
      the configuration is not eager. */
  lemma WindowsExact(c: Config)
    requires Sound(c)
    ensures (forall i :: 0 <= i < c.groups - 1 ==> Window(c, i) >= i + 1) <==> !Eager(c)
  {
    forall i | 0 <= i < c.groups - 1 && !Eager(c) ensures Window(c, i) >= i + 1 {
      WindowBounds(c, i);
    }
    if Eager(c) {
      EagerWindow(c, 0);
    }
  }

  lemma EagerWindow(c: Config, i: nat)
    requires Eager(c)
    ensures Window(c, i) == i
  {
    assert c.layers / c.groups == 1 && c.layers % c.groups == 0;
  }

  /** The caller's choice, one group fewer than layers, makes the windows one commit wide. */
  lemma WindowCaller(c: Config, i: nat)
    requires Sound(c) && c.groups + 1 == c.layers && i < c.groups
    ensures Window(c, i) == i + 1
  {}

  /** How many windows have closed before commit g. */
  function Closed(c: Config, g: nat): (n: nat)
    ensures n <= c.groups
  {
    if g == 0 then 0
    else
      var n := Closed(c, g - 1);
      if n < c.groups && Window(c, n) == g - 1 then n + 1 else n
  }

  lemma {:induction false} ClosedMeaning(c: Config, g: nat)
    requires Sound(c) && g <= c.layers
    ensures Closed(c, g) > 0 ==> Window(c, Closed(c, g) - 1) < g
    ensures Closed(c, g) < c.groups ==> Window(c, Closed(c, g)) >= g
    ensures g < c.layers ==> Closed(c, g) < c.groups
    ensures g == c.layers ==> Closed(c, g) == c.groups
    ensures Closed(c, g) <= g
    ensures g > 0 && c.groups < c.layers ==> Closed(c, g) < g
    ensures Eager(c) ==> Closed(c, g) == g
  {
    hide Window;
    WindowBounds(c, 0);
    if Eager(c) && g > 0 {
      EagerWindow(c, g - 1);
    }
    if g > 0 {
      ClosedMeaning(c, g - 1);
      var n := Closed(c, g - 1);
      if n < c.groups {
        WindowStep(c, n);
        if n + 1 < c.groups {
          WindowIncreasing(c, n, c.groups - 1);
        }
        WindowBounds(c, n);
      }
      if Closed(c, g) > 0 {
        WindowBounds(c, Closed(c, g) - 1);
      }
    }
  }

  // ----- the handler

  /** What each stream still has to wait for. The compute stream: the copies out of the groups in
      `d2h` and the copies in of the tags in `h2d`. The copy-out stream: the computation of the
      groups in `unseen`. The copy-in stream, through the compute stream: the copies out of the
      groups in `uncopied`. `raced` records a copy, a release or a use that did not wait; the
      multisets count every bulk copy. */
  datatype Streams = Streams(d2h: set<nat>, h2d: set<Tag>, unseen: set<nat>, uncopied: set<nat>, raced: bool,
                             copiedOut: multiset<nat>, copiedIn: multiset<nat>)

  /** `d2h_stream.wait_stream(current_stream)` */
  function OutWaits(m: Streams): Streams { m.(unseen := {}) }

  /** `current_stream.wait_stream(d2h_stream)` */
  function WaitsOut(m: Streams): Streams { m.(d2h := {}) }

  /** `h2d_stream.wait_stream(current_stream)`: what the compute stream has waited for is done. */
  function InWaits(m: Streams): Streams { m.(uncopied := m.uncopied * m.d2h) }

  /** `current_stream.wait_stream(h2d_stream)` */
  function WaitsIn(m: Streams): Streams { m.(h2d := {}) }

  /** The copy-out stream starts reading the tensors of group g. */
  function StartsOut(m: Streams, g: nat): Streams {
    m.(d2h := m.d2h + {g}, uncopied := m.uncopied + {g}, raced := m.raced || g in m.unseen,
       copiedOut := m.copiedOut + multiset{g})
  }

  /** The compute stream produces a tensor of group g. */
  function Computed(m: Streams, g: nat): Streams { m.(unseen := m.unseen + {g}) }

  /** The compute stream uses the tensor under a tag and lets its memory go. */
  function Used(m: Streams, tag: Tag): Streams {
    m.(raced := m.raced || tag in m.h2d || tag.0 in m.d2h)
  }

  /** The copy-in stream starts reading the host copies of group g, for the tags given. */
  function StartsIn(m: Streams, g: nat, tags: set<Tag>): Streams {
    m.(h2d := m.h2d + tags, raced := m.raced || g in m.uncopied, copiedIn := m.copiedIn + multiset{g})
  }

  /** The handler's fields: current_group, tensor_count_current_group, offloaded_group_count,
      tensor_tag_to_state, tensor_tag_to_buf and group_offload_mapping. */
  datatype State = State(current: nat, count: nat, offloaded: nat,
                         slots: map<Tag, Slot>, bufs: map<Tag, Option<Value>>,
                         mappings: map<nat, map<Key, seq<int>>>, streams: Streams)

  datatype Event = Push(key: Key, value: Value) | CommitForward | CommitBackward | Pop(tag: Tag)

  /** A failed assertion or dictionary lookup, or the new state with what a pop returned. */
  datatype Outcome = Failed | Done(next: State, popped: Option<Value>)

  ghost predicate HasKey(slots: map<Tag, Slot>, g: nat, key: Key, tag: Tag) {
    tag in slots && tag.0 == g && slots[tag].OnDevice? && slots[tag].key == key
  }

  /** The assumption on storage keys: within a group, equal keys mean equal flat contents. */
  ghost predicate KeysConsistent(slots: map<Tag, Slot>, g: nat) {
    forall key, a, b :: HasKey(slots, g, key, a) && HasKey(slots, g, key, b) ==>
      slots[a].value.flat == slots[b].value.flat
  }

  ghost function GroupKeys(slots: map<Tag, Slot>, g: nat): set<Key> {
    set tag | tag in slots && tag.0 == g && slots[tag].OnDevice? :: slots[tag].key
  }

  /** One host copy per storage key of the group. */
  ghost function HostCopies(slots: map<Tag, Slot>, g: nat): map<Key, seq<int>> {
    map key | key in GroupKeys(slots, g) ::
      var tag :| HasKey(slots, g, key, tag); slots[tag].value.flat
  }

  predicate AllOnDevice(slots: map<Tag, Slot>, g: nat) {
    forall tag :: tag in slots && tag.0 == g ==> slots[tag].OnDevice?
  }

  function MoveOut(slots: map<Tag, Slot>, g: nat): map<Tag, Slot> {
    map tag | tag in slots ::
      if tag.0 == g && slots[tag].OnDevice? then Moved(slots[tag].key, slots[tag].value.shape) else slots[tag]
  }

  predicate Restorable(slots: map<Tag, Slot>, g: nat, copies: map<Key, seq<int>>) {
    forall tag :: tag in slots && tag.0 == g && slots[tag].Moved? ==> slots[tag].key in copies
  }

  function MoveIn(slots: map<Tag, Slot>, g: nat, copies: map<Key, seq<int>>): map<Tag, Slot>
    requires Restorable(slots, g, copies)
  {
    map tag | tag in slots ::
      if tag.0 == g && slots[tag].Moved? then OnDevice(slots[tag].key, Value(slots[tag].shape, copies[slots[tag].key]))
      else slots[tag]
  }

  /** The tags of a group that wait for their tensor to come back. */
  function Absent(slots: map<Tag, Slot>, g: nat): set<Tag> {
    set tag | tag in slots && tag.0 == g && slots[tag].Moved?
  }

  /** `bulk_offload_group` */
  ghost function BulkOffload(s: State, g: nat): State {
    s.(slots := MoveOut(s.slots, g), mappings := s.mappings[g := HostCopies(s.slots, g)],
       streams := StartsOut(s.streams, g))
  }

  function DropBufs(bufs: map<Tag, Option<Value>>, g: nat): map<Tag, Option<Value>> {
    map tag | tag in bufs :: if tag.0 == g then None else bufs[tag]
  }

  /** The group's device memory is let go: a race unless it has been copied out and the compute
      stream has waited for that. */
  function Release(s: State): State {
    var early := s.offloaded in s.streams.d2h || s.offloaded !in s.mappings;
    s.(bufs := DropBufs(s.bufs, s.offloaded), streams := s.streams.(raced := s.streams.raced || early),
       offloaded := s.offloaded + 1)
  }

  /** The rest of a forward synchronization, once the first group has been started. */
  ghost function CloseWindow(c: Config, s: State): Option<State> {
    if s.offloaded >= c.groups then None              // no such key in the window map
    else if Window(c, s.offloaded) != s.current then Some(s)
    else
      var released := Release(s.(streams := WaitsOut(OutWaits(s.streams))));
      if s.offloaded + 1 >= c.groups then Some(released)
      else if !AllOnDevice(s.slots, s.offloaded + 1) then None
      else Some(BulkOffload(released, s.offloaded + 1))
  }

  /** At the first commit the copy-out stream waits and starts on group 0. */
  ghost function StartFirst(s: State): State {
    if s.current == 0 then BulkOffload(s.(streams := OutWaits(s.streams)), 0) else s
  }

  /** `synchronize_on_group_commit_forward` */
  ghost function SyncForward(c: Config, s: State): Option<State> {
    if s.current == 0 && !AllOnDevice(s.slots, 0) then None else CloseWindow(c, StartFirst(s))
  }

  /** `on_group_commit_forward` */
  ghost function Forward(c: Config, s: State): Option<State> {
    match SyncForward(c, s)
    case None => None
    case Some(t) => Some(t.(current := t.current + 1, count := 0))
  }

  /** `bulk_reload_group` */
  ghost function BulkReload(s: State, g: nat): Option<State> {
    if g !in s.mappings || !Restorable(s.slots, g, s.mappings[g]) then None
    else
      Some(s.(slots := MoveIn(s.slots, g, s.mappings[g]), mappings := s.mappings - {g},
              streams := StartsIn(s.streams, g, Absent(s.slots, g))))
  }

  /** The commit counter is back at the window of the last group offloaded: wait both ways and
      copy it back. */
  ghost function OpenWindow(c: Config, s: State): Option<State> {
    if s.offloaded == 0 || s.offloaded > c.groups then None   // no such key in the window map
    else if Window(c, s.offloaded - 1) != s.current then Some(s)
    else
      match BulkReload(s.(streams := WaitsIn(InWaits(s.streams))), s.offloaded - 1)
      case None => None
      case Some(t) => Some(t.(offloaded := if t.offloaded > 1 then t.offloaded - 1 else t.offloaded))
  }

  /** `on_group_commit_backward` */
  ghost function Backward(c: Config, s: State): Option<State> {
    if s.current == 0 then None
    else
      match OpenWindow(c, s.(current := s.current - 1))
      case None => None
      case Some(t) =>
        if t.current == 0 then Some(t.(streams := WaitsIn(t.streams), offloaded := 0)) else Some(t)
  }

  ghost function Apply(c: Config, s: State, ev: Event): Outcome {
    match ev
    case Push(key, value) =>
      var tag := (s.current, s.count);
      if tag in s.slots then Failed
      else
        var bufs := if s.current < c.groups then s.bufs[tag := Some(value)] else s.bufs;
        Done(s.(count := s.count + 1, slots := s.slots[tag := OnDevice(key, value)], bufs := bufs,
              streams := Computed(s.streams, s.current)), None)
    case Pop(tag) =>
      if tag !in s.slots || s.slots[tag].Moved? then Failed
      else
        Done(s.(slots := s.slots - {tag}, bufs := s.bufs - {tag},
              streams := Used(s.streams, tag)),
           Some(s.slots[tag].value))
    case CommitForward =>
      (match Forward(c, s) case None => Failed case Some(t) => Done(t, None))
    case CommitBackward =>
      (match Backward(c, s) case None => Failed case Some(t) => Done(t, None))
  }

  // ----- what autograd does to it

  /** `live` holds what has been pushed and not popped yet, `group` the commit counter the
      training loop is at, `pushed` how many tensors the open group has, `rounds` how many
      forward/backward rounds are complete. */
  datatype Env = Env(backward: bool, group: nat, pushed: nat, live: map<Tag, (Key, Value)>, rounds: nat)

  /** Forward: push into the open group, or close it. Backward: step down at any time, and pop
      tensors of the groups the commit counter has come back to. */
  ghost predicate Legal(c: Config, e: Env, ev: Event) {
    match ev
    case Push(key, value) =>
      && !e.backward
      && forall tag :: tag in e.live && tag.0 == e.group && e.live[tag].0 == key ==> e.live[tag].1.flat == value.flat
    case CommitForward => !e.backward
    case CommitBackward => e.backward && e.group > 0
    case Pop(tag) => e.backward && tag in e.live && tag.0 >= e.group
  }

  /** The last forward commit turns the round around; the last pop or commit ends it. */
  function Turn(c: Config, e: Env): Env {
    if !e.backward && e.group == c.layers then e.(backward := true)
    else if e.backward && e.group == 0 && e.live == map[] then Env(false, 0, 0, map[], e.rounds + 1)
    else e
  }

  function NextEnv(c: Config, e: Env, ev: Event): Env {
    Turn(c, match ev
      case Push(key, value) => e.(pushed := e.pushed + 1, live := e.live[(e.group, e.pushed) := (key, value)])
      case CommitForward => e.(group := e.group + 1, pushed := 0)
      case CommitBackward => if e.group > 0 then e.(group := e.group - 1) else e
      case Pop(tag) => e.(live := e.live - {tag}))
  }

  const START := State(0, 0, 0, map[], map[], map[], Streams({}, {}, {}, {}, false, multiset{}, multiset{}))
  const BEGIN := Env(false, 0, 0, map[], 0)

  // ----- the invariant

  /** Groups whose device memory the handler has let go. */
  function Released(c: Config, e: Env): nat {
    if e.backward then c.groups else Closed(c, e.group)
  }

  /** Groups copied out so far in this round: always one ahead of the closed windows. */
  function Issued(c: Config, e: Env): nat {
    if e.backward || Closed(c, e.group) == c.groups then c.groups
    else if e.group == 0 then 0
    else Closed(c, e.group) + 1
  }

  /** Groups with a bulk copy on the host. */
  function Known(c: Config, e: Env): nat {
    if e.backward then Closed(c, e.group) else Issued(c, e)
  }

  /** Groups below this one have their tensors on the host only. */
  function Away(c: Config, e: Env): nat {
    if !Eager(c) then Known(c, e) else if e.group == 0 then 0 else 1
  }

  function Max(a: int, b: int): int {
    if a > b then a else b
  }

  type Live = map<Tag, (Key, Value)>

  predicate SlotOk(live: Live, s: State, away: nat, tag: Tag)
    requires tag in live && tag in s.slots
  {
    var (key, value) := live[tag];
    if tag.0 < away then
      s.slots[tag] == Moved(key, value.shape)
      && tag.0 in s.mappings && key in s.mappings[tag.0] && s.mappings[tag.0][key] == value.flat
    else
      s.slots[tag] == OnDevice(key, value)
  }

  predicate BufOk(live: Live, s: State, groups: nat, released: nat, tag: Tag)
    requires tag in live
  {
    if tag.0 < groups then
      tag in s.bufs && s.bufs[tag] == (if tag.0 < released then None else Some(live[tag].1))
    else tag !in s.bufs
  }

  /** Where the live tensors are: on the host only below `away`, let go below `released`. */
  ghost predicate StoreInv(live: Live, s: State, groups: nat, away: nat, known: nat, released: nat) {
    && s.slots.Keys == live.Keys
    && s.bufs.Keys <= live.Keys
    && (forall tag :: tag in live ==> SlotOk(live, s, away, tag) && BufOk(live, s, groups, released, tag))
    && (forall g: nat :: g in s.mappings <==> g < known)
  }

  ghost predicate LiveConsistent(live: Live) {
    forall a, b :: a in live && b in live && a.0 == b.0 && live[a].0 == live[b].0 ==>
      live[a].1.flat == live[b].1.flat
  }

  /** The training loop: no tensor of a later group is live in forward, and keys are consistent. */
  ghost predicate EnvInv(c: Config, e: Env) {
    && e.group <= c.layers && (e.group == c.layers ==> e.pushed == 0)
    && (forall tag :: tag in e.live && !e.backward ==> tag.0 <= e.group && (tag.0 == e.group ==> tag.1 < e.pushed))
    && (forall tag :: tag in e.live && e.backward ==> tag.0 < c.layers)
    && LiveConsistent(e.live)
  }

  /** A commit counter at either end has already turned the round. */
  predicate Settled(c: Config, e: Env) {
    && (e.group == c.layers ==> e.backward)
    && (e.backward && e.group == 0 ==> e.live != map[])
  }

  /** The counters. */
  predicate CounterInv(c: Config, e: Env, s: State) {
    && s.current == e.group
    && s.count == (if e.backward then 0 else e.pushed)
    && s.offloaded == (if !e.backward then Closed(c, e.group)
                       else if e.group == 0 then 0 else Max(1, Closed(c, e.group)))
  }

  /** The group whose copy-out the compute stream has not waited for. */
  predicate Leaving(c: Config, e: Env, g: nat) {
    !e.backward && e.group > 0 && g == Closed(c, e.group) < c.groups
  }

  /** The group whose copy-in the compute stream has not waited for. */
  predicate Arriving(c: Config, e: Env, g: nat) {
    e.backward && 0 < e.group < c.layers && !Eager(c) && g == Closed(c, e.group) < c.groups
  }

  /** Groups below this one have a copy-out the copy-in stream has not waited for. */
  function Unsynced(c: Config, e: Env): nat {
    if !e.backward then Issued(c, e) else if e.group == c.layers then c.groups else 0
  }

  /** The streams: at most one group is on its way out or in, and each group below `groups` is
      copied out and back once a round. */
  ghost predicate StreamInv(c: Config, e: Env, m: Streams) {
    && (forall g: nat :: GroupStreams(c, e, m, g))
    && (forall tag :: tag in m.h2d ==> Arriving(c, e, tag.0))
    && (forall tag :: tag in e.live && Arriving(c, e, tag.0) ==> tag in m.h2d)
  }

  ghost predicate GroupStreams(c: Config, e: Env, m: Streams, g: nat) {
    && (g in m.d2h <==> Leaving(c, e, g))
    && (g in m.uncopied <==> g < Unsynced(c, e))
    && m.copiedOut[g] == CopiesOut(c, e, g)
    && m.copiedIn[g] == CopiesIn(c, e, g)
  }

  function CopiesOut(c: Config, e: Env, g: nat): nat {
    if g < Issued(c, e) then e.rounds + 1 else if g < c.groups then e.rounds else 0
  }

  function CopiesIn(c: Config, e: Env, g: nat): nat {
    if e.backward && Closed(c, e.group) <= g < c.groups then e.rounds + 1 else if g < c.groups then e.rounds else 0
  }

  ghost predicate PreInv(c: Config, e: Env, s: State) {
    && Sound(c) && EnvInv(c, e)
    && StoreInv(e.live, s, c.groups, Away(c, e), Known(c, e), Released(c, e))
    && CounterInv(c, e, s) && StreamInv(c, e, s.streams)
  }

  ghost predicate Inv(c: Config, e: Env, s: State) {
    PreInv(c, e, s) && Settled(c, e)
  }

  lemma TurnKeeps(c: Config, e: Env, s: State)
    requires PreInv(c, e, s)
    ensures Inv(c, Turn(c, e), s)
  {
    hide StoreInv, StreamInv, LiveConsistent, Closed, Window;
    ClosedMeaning(c, c.layers);
    ClosedMeaning(c, 0);
    TurnStore(c, e, s);
    TurnStreams(c, e, s.streams);
  }

  lemma TurnStore(c: Config, e: Env, s: State)
    requires Sound(c) && e.group <= c.layers && StoreInv(e.live, s, c.groups, Away(c, e), Known(c, e), Released(c, e))
    ensures var e' := Turn(c, e); StoreInv(e'.live, s, c.groups, Away(c, e'), Known(c, e'), Released(c, e'))
  {
    hide StoreInv, Closed, Window;
    ClosedMeaning(c, c.layers);
    ClosedMeaning(c, 0);
    if e.backward && e.group == 0 && e.live == map[] {
      EmptyStore(s, c.groups, c.groups, 0);
    }
  }

  lemma EmptyStore(s: State, groups: nat, released: nat, released': nat)
    requires StoreInv(map[], s, groups, 0, 0, released)
    ensures StoreInv(map[], s, groups, 0, 0, released')
  {}

  lemma TurnGroup(c: Config, e: Env, m: Streams, g: nat)
    requires Sound(c) && e.group <= c.layers && GroupStreams(c, e, m, g)
    ensures GroupStreams(c, Turn(c, e), m, g)
  {
    hide Closed, Window;
    ClosedMeaning(c, c.layers);
    ClosedMeaning(c, 0);
  }

  lemma TurnStreams(c: Config, e: Env, m: Streams)
    requires Sound(c) && e.group <= c.layers && StreamInv(c, e, m)
    ensures StreamInv(c, Turn(c, e), m)
  {
    hide Closed, Window, GroupStreams;
    forall g: nat ensures GroupStreams(c, Turn(c, e), m, g) {
      assert GroupStreams(c, e, m, g);
      TurnGroup(c, e, m, g);
    }
  }

  /** Pushes and pops leave the copies alone. */
  lemma StreamsKept(c: Config, e: Env, e': Env, m: Streams, m': Streams)
    requires Sound(c) && StreamInv(c, e, m)
    requires e'.backward == e.backward && e'.group == e.group && e'.rounds == e.rounds
    requires m' == m.(raced := m'.raced, unseen := m'.unseen)
    requires forall tag :: tag in e'.live && e.backward ==> tag in e.live
    ensures StreamInv(c, e', m')
  {
    hide Closed;
    forall g: nat ensures GroupStreams(c, e', m', g) {
      assert GroupStreams(c, e, m, g);
    }
    hide GroupStreams;
  }

  lemma StartInv(c: Config)
    requires Sound(c)
    ensures Inv(c, BEGIN, START)
  {}

  // ----- bulk copies move the frontier

  lemma OffloadStore(live: Live, s: State, groups: nat, away: nat, released: nat)
    requires StoreInv(live, s, groups, away, away, released) && LiveConsistent(live)
    ensures AllOnDevice(s.slots, away)
    ensures StoreInv(live, BulkOffload(s, away), groups, away + 1, away + 1, released)
  {
    hide HostCopies, LiveConsistent, StartsOut;
    var t := BulkOffload(s, away);
    forall tag | tag in s.slots && tag.0 == away ensures s.slots[tag].OnDevice? {
      assert SlotOk(live, s, away, tag);
    }
    forall tag | tag in live
      ensures SlotOk(live, t, away + 1, tag) && BufOk(live, t, groups, released, tag)
    {
      assert SlotOk(live, s, away, tag) && BufOk(live, s, groups, released, tag);
      if tag.0 == away {
        CopyHolds(live, s, groups, away, released, tag);
      }
    }
    hide SlotOk, BufOk;
  }

  lemma CopyHolds(live: Live, s: State, groups: nat, away: nat, released: nat, tag: Tag)
    requires StoreInv(live, s, groups, away, away, released) && LiveConsistent(live) && tag in live && tag.0 == away
    ensures live[tag].0 in HostCopies(s.slots, away) && HostCopies(s.slots, away)[live[tag].0] == live[tag].1.flat
  {}

  /** Copying out a group before any of its tensors is pushed moves nothing. */
  lemma OffloadNothing(live: Live, s: State, groups: nat, away: nat, known: nat, released: nat)
    requires StoreInv(live, s, groups, away, known, released) && away <= known
    requires forall tag :: tag in live ==> tag.0 < known
    ensures AllOnDevice(s.slots, known)
    ensures StoreInv(live, BulkOffload(s, known), groups, away, known + 1, released)
  {
    hide HostCopies, StartsOut;
    var t := BulkOffload(s, known);
    forall tag | tag in live
      ensures SlotOk(live, t, away, tag) && BufOk(live, t, groups, released, tag)
    {
      assert SlotOk(live, s, away, tag) && BufOk(live, s, groups, released, tag);
    }
    hide SlotOk, BufOk;
  }

  lemma ReleaseStore(live: Live, s: State, groups: nat, away: nat, known: nat, released: nat)
    requires StoreInv(live, s, groups, away, known, released) && s.offloaded == released
    ensures StoreInv(live, Release(s), groups, away, known, released + 1)
  {
    var t := Release(s);
    forall tag | tag in live
      ensures SlotOk(live, t, away, tag) && BufOk(live, t, groups, released + 1, tag)
    {
      assert SlotOk(live, s, away, tag) && BufOk(live, s, groups, released, tag);
    }
  }

  /** Reloading group n, the last one known: either its tensors are away, or none below it is. */
  lemma ReloadStore(live: Live, s: State, groups: nat, away: nat, n: nat, released: nat)
    requires StoreInv(live, s, groups, away, n + 1, released) && away <= n + 1
    ensures BulkReload(s, n).Some?
    ensures StoreInv(live, BulkReload(s, n).value, groups, if away == n + 1 then n else away, n, released)
    ensures forall tag :: tag in live && tag.0 == n && away == n + 1 ==> tag in Absent(s.slots, n)
    ensures away <= n ==> Absent(s.slots, n) == {}
  {
    hide StartsIn;
    forall tag | tag in s.slots && tag.0 == n
      ensures away == n + 1 <==> s.slots[tag].Moved?
      ensures s.slots[tag].Moved? ==> s.slots[tag].key in s.mappings[n]
    {
      assert SlotOk(live, s, away, tag);
    }
    var t := BulkReload(s, n).value;
    forall tag | tag in live
      ensures SlotOk(live, t, if away == n + 1 then n else away, tag) && BufOk(live, t, groups, released, tag)
    {
      assert SlotOk(live, s, away, tag) && BufOk(live, s, groups, released, tag);
    }
  }

  lemma SameStore(live: Live, s: State, t: State, groups: nat, away: nat, known: nat, released: nat)
    requires t.slots == s.slots && t.bufs == s.bufs && t.mappings == s.mappings
    requires StoreInv(live, s, groups, away, known, released)
    ensures StoreInv(live, t, groups, away, known, released)
  {}

  // ----- one event at a time

  /** What a legal event must do. */
  ghost predicate Good(c: Config, e: Env, s: State, ev: Event) {
    var o := Apply(c, s, ev);
    && o.Done?
    && Inv(c, NextEnv(c, e, ev), o.next)
    && (ev.Pop? ==> ev.tag in e.live && o.popped == Some(e.live[ev.tag].1))
    && o.next.streams.raced == s.streams.raced
  }

  lemma PushStore(live: Live, s: State, c: Config, away: nat, known: nat, released: nat, key: Key, value: Value)
    requires StoreInv(live, s, c.groups, away, known, released)
    requires (s.current, s.count) !in live && away <= s.current && (s.current < c.groups ==> released <= s.current)
    ensures Apply(c, s, Push(key, value)).Done?
    ensures StoreInv(live[(s.current, s.count) := (key, value)], Apply(c, s, Push(key, value)).next, c.groups,
                     away, known, released)
  {
    hide Computed;
    var tag, t := (s.current, s.count), Apply(c, s, Push(key, value)).next;
    var live' := live[tag := (key, value)];
    forall x | x in live'
      ensures SlotOk(live', t, away, x) && BufOk(live', t, c.groups, released, x)
    {
      if x != tag {
        assert SlotOk(live, s, away, x) && BufOk(live, s, c.groups, released, x);
      }
    }
    hide SlotOk, BufOk;
  }

  lemma PushEnv(c: Config, e: Env, key: Key, value: Value)
    requires EnvInv(c, e) && Settled(c, e) && Legal(c, e, Push(key, value))
    ensures (e.group, e.pushed) !in e.live && e.group < c.layers
    ensures EnvInv(c, e.(pushed := e.pushed + 1, live := e.live[(e.group, e.pushed) := (key, value)]))
  {}

  lemma PushKeeps(c: Config, e: Env, s: State, key: Key, value: Value)
    requires Inv(c, e, s) && Legal(c, e, Push(key, value))
    ensures Good(c, e, s, Push(key, value))
  {
    hide StoreInv, StreamInv, Closed, Window, LiveConsistent;
    ClosedMeaning(c, e.group);
    PushEnv(c, e, key, value);
    PushStore(e.live, s, c, Away(c, e), Known(c, e), Released(c, e), key, value);
    var e' := e.(pushed := e.pushed + 1, live := e.live[(e.group, e.pushed) := (key, value)]);
    StreamsKept(c, e, e', s.streams, Apply(c, s, Push(key, value)).next.streams);
    TurnKeeps(c, e', Apply(c, s, Push(key, value)).next);
  }

  lemma PopStore(live: Live, s: State, c: Config, away: nat, known: nat, released: nat, tag: Tag)
    requires StoreInv(live, s, c.groups, away, known, released) && tag in live
    ensures Apply(c, s, Pop(tag)).Done? <==> away <= tag.0
    ensures away <= tag.0 ==>
      var o := Apply(c, s, Pop(tag));
      o.popped == Some(live[tag].1) && StoreInv(live - {tag}, o.next, c.groups, away, known, released)
  {
    hide Used, BufOk;
    assert SlotOk(live, s, away, tag);
    hide SlotOk;
    if away <= tag.0 {
      RemoveStore(live, s, Apply(c, s, Pop(tag)).next, c.groups, away, known, released, tag);
    }
  }

  lemma RemoveStore(live: Live, s: State, t: State, groups: nat, away: nat, known: nat, released: nat, tag: Tag)
    requires StoreInv(live, s, groups, away, known, released)
    requires t.slots == s.slots - {tag} && t.bufs == s.bufs - {tag} && t.mappings == s.mappings
    ensures StoreInv(live - {tag}, t, groups, away, known, released)
  {
    var live' := live - {tag};
    forall x | x in live'
      ensures SlotOk(live', t, away, x) && BufOk(live', t, groups, released, x)
    {
      assert SlotOk(live, s, away, x) && BufOk(live, s, groups, released, x);
    }
    hide SlotOk, BufOk;
  }

  /** What a backward pop does, whatever group it is from: it fails exactly when the group is still
      on the host, and otherwise returns the pushed value, which is a race exactly when the
      group's copy-in has not been waited for. */
  lemma PopExact(c: Config, e: Env, s: State, tag: Tag)
    requires Inv(c, e, s) && e.backward && tag in e.live
    ensures Apply(c, s, Pop(tag)).Done? <==> tag.0 >= Away(c, e)
    ensures tag.0 >= Away(c, e) ==>
      var o := Apply(c, s, Pop(tag));
      o.popped == Some(e.live[tag].1) && (o.next.streams.raced <==> s.streams.raced || Arriving(c, e, tag.0))
  {
    hide StoreInv, Closed, Window, GroupStreams;
    PopStore(e.live, s, c, Away(c, e), Known(c, e), Released(c, e), tag);
    NothingLeaving(c, e, s.streams);
  }

  lemma NothingArriving(c: Config, e: Env, m: Streams, tag: Tag)
    requires Sound(c) && e.group <= c.layers && StreamInv(c, e, m)
    ensures tag.0 >= e.group ==> tag !in m.h2d
  {
    ClosedMeaning(c, e.group);
    hide Closed, Window, GroupStreams;
  }

  /** Popping from a group the commit counter has come back to is safe. */
  lemma PopKeeps(c: Config, e: Env, s: State, tag: Tag)
    requires Inv(c, e, s) && Legal(c, e, Pop(tag))
    ensures Good(c, e, s, Pop(tag))
  {
    hide StoreInv, StreamInv, Closed, Window;
    ClosedMeaning(c, e.group);
    PopStore(e.live, s, c, Away(c, e), Known(c, e), Released(c, e), tag);
    NothingLeaving(c, e, s.streams);
    NothingArriving(c, e, s.streams, tag);
    StreamsKept(c, e, e.(live := e.live - {tag}), s.streams, Apply(c, s, Pop(tag)).next.streams);
    TurnKeeps(c, e.(live := e.live - {tag}), Apply(c, s, Pop(tag)).next);
  }

  lemma KnownGroups(live: Live, s: State, groups: nat, away: nat, known: nat, released: nat, g: nat)
    requires StoreInv(live, s, groups, away, known, released)
    ensures g in s.mappings <==> g < known
  {}

  /** The frontiers after a forward commit that leaves n windows closed. */
  function KnownAt(c: Config, n: nat): nat { if n == c.groups then n else n + 1 }

  function AwayAt(c: Config, n: nat): nat { if Eager(c) then 1 else KnownAt(c, n) }

  /** What a forward commit does to the streams: at most the next group is on its way out. */
  predicate ForwardStreams(c: Config, m: Streams, m': Streams, first: bool, n: nat, n': nat) {
    && m'.raced == m.raced && m'.h2d == m.h2d && m'.copiedIn == m.copiedIn
    && m'.d2h == (if n < n' then {} else if first then {0} else m.d2h) + (if n < n' < c.groups then {n'} else {})
    && m'.uncopied == m.uncopied + (if first then {0} else {}) + (if n < n' < c.groups then {n'} else {})
    && m'.copiedOut == m.copiedOut + (if first then multiset{0} else multiset{})
                       + (if n < n' < c.groups then multiset{n'} else multiset{})
  }

  /** Closing a window, with the group it belongs to already copied out. */
  lemma CloseWindowStore(c: Config, live: Live, s: State)
    requires Sound(c) && LiveConsistent(live) && s.current < c.layers
    requires s.offloaded == Closed(c, s.current)
    requires StoreInv(live, s, c.groups, AwayAt(c, s.offloaded), s.offloaded + 1, s.offloaded)
    requires forall tag :: tag in live ==> tag.0 <= s.current
    ensures CloseWindow(c, s).Some?
    ensures var t, n := CloseWindow(c, s).value, Closed(c, s.current + 1);
      && t.current == s.current && t.count == s.count && t.offloaded == n
      && ForwardStreams(c, s.streams, t.streams, false, s.offloaded, n)
      && StoreInv(live, t, c.groups, AwayAt(c, n), KnownAt(c, n), n)
  {
    hide StoreInv, LiveConsistent, HostCopies, MoveOut, DropBufs, Window, AllOnDevice;
    var n := s.offloaded;
    ClosedMeaning(c, s.current);
    if Window(c, n) == s.current {
      var away, waited := AwayAt(c, n), s.(streams := WaitsOut(OutWaits(s.streams)));
      SameStore(live, s, waited, c.groups, away, n + 1, n);
      KnownGroups(live, s, c.groups, away, n + 1, n, n);
      ReleaseStore(live, waited, c.groups, away, n + 1, n);
      if n + 1 < c.groups {
        if Eager(c) {
          OffloadNothing(live, Release(waited), c.groups, away, n + 1, n + 1);
        } else {
          OffloadStore(live, Release(waited), c.groups, n + 1, n + 1);
        }
      }
    }
  }

  lemma ForwardStore(c: Config, live: Live, s: State)
    requires Sound(c) && LiveConsistent(live) && s.current < c.layers
    requires s.offloaded == Closed(c, s.current) && (s.current == 0 ==> s.streams.d2h == {})
    requires forall tag :: tag in live ==> tag.0 <= s.current
    requires var first := s.current == 0;
      StoreInv(live, s, c.groups, if first then 0 else AwayAt(c, s.offloaded),
               if first then 0 else s.offloaded + 1, s.offloaded)
    ensures Forward(c, s).Some?
    ensures var t, n := Forward(c, s).value, Closed(c, s.current + 1);
      && t.current == s.current + 1 && t.count == 0 && t.offloaded == n
      && ForwardStreams(c, s.streams, t.streams, s.current == 0, s.offloaded, n)
      && StoreInv(live, t, c.groups, AwayAt(c, n), KnownAt(c, n), n)
  {
    hide StoreInv, LiveConsistent, HostCopies, MoveOut, DropBufs, Window, CloseWindow, AllOnDevice;
    var started := StartFirst(s);
    if s.current == 0 {
      var waited := s.(streams := OutWaits(s.streams));
      SameStore(live, s, waited, c.groups, 0, 0, 0);
      OffloadStore(live, waited, c.groups, 0, 0);
    }
    CloseWindowStore(c, live, started);
    var t := CloseWindow(c, started).value;
    SameStore(live, t, t.(current := t.current + 1, count := 0), c.groups,
      AwayAt(c, t.offloaded), KnownAt(c, t.offloaded), t.offloaded);
  }

  lemma ForwardKeeps(c: Config, e: Env, s: State)
    requires Inv(c, e, s) && Legal(c, e, CommitForward)
    ensures Good(c, e, s, CommitForward)
  {
    hide StoreInv, StreamInv, LiveConsistent, Forward, Closed, Window;
    ClosedMeaning(c, e.group);
    ClosedMeaning(c, e.group + 1);
    if e.group == 0 {
      NothingLeaving(c, e, s.streams);
    }
    ForwardStore(c, e.live, s);
    var e', t := e.(group := e.group + 1, pushed := 0), Forward(c, s).value;
    ForwardCounts(c, e, s.streams, t.streams);
    ForwardEnv(c, e);
    assert t.streams.raced == s.streams.raced;
    hide ForwardStreams, EnvInv;
    TurnKeeps(c, e', t);
  }

  lemma ForwardEnv(c: Config, e: Env)
    requires EnvInv(c, e) && Settled(c, e) && !e.backward
    ensures e.group < c.layers && EnvInv(c, e.(group := e.group + 1, pushed := 0))
  {
    hide LiveConsistent;
  }

  lemma ClosedGrows(c: Config, g: nat)
    requires Sound(c)
    ensures Closed(c, g) <= Closed(c, g + 1) <= Closed(c, g) + 1
    ensures Closed(c, 0) == 0
  {}

  lemma ForwardCounts(c: Config, e: Env, m: Streams, m': Streams)
    requires Sound(c) && !e.backward && e.group < c.layers && StreamInv(c, e, m)
    requires ForwardStreams(c, m, m', e.group == 0, Closed(c, e.group), Closed(c, e.group + 1))
    ensures StreamInv(c, e.(group := e.group + 1, pushed := 0), m')
  {
    var e' := e.(group := e.group + 1, pushed := 0);
    forall g: nat ensures GroupStreams(c, e', m', g) {
      ForwardGroup(c, e, m, m', g);
    }
    hide GroupStreams, Closed, Window;
  }

  lemma ForwardGroup(c: Config, e: Env, m: Streams, m': Streams, g: nat)
    requires Sound(c) && !e.backward && e.group < c.layers && GroupStreams(c, e, m, g)
    requires ForwardStreams(c, m, m', e.group == 0, Closed(c, e.group), Closed(c, e.group + 1))
    ensures GroupStreams(c, e.(group := e.group + 1, pushed := 0), m', g)
  {
    ClosedMeaning(c, e.group);
    ClosedGrows(c, e.group);
    hide Closed, Window;
  }

  /** What a backward commit does to the streams: at most one group is on its way in. */
  ghost predicate BackwardStreams(c: Config, live: Live, m: Streams, m': Streams, last: bool, n: nat, n': nat) {
    && m'.raced == m.raced && m'.copiedOut == m.copiedOut && m'.d2h == m.d2h
    && m'.copiedIn == m.copiedIn + (if n' < n then multiset{n'} else multiset{})
    && m'.uncopied == (if n' < n then {} else m.uncopied)
    && if last then m'.h2d == {}
       else if n' == n then m'.h2d == m.h2d
       else
         && (forall tag :: tag in m'.h2d ==> tag.0 == n' && (Eager(c) ==> n' == 0))
         && (forall tag :: tag in live && tag.0 == n' && (Eager(c) ==> n' == 0) ==> tag in m'.h2d)
  }

  /** Reloading the group whose window closed at the commit now undone, if there is one. */
  lemma OpenWindowStore(c: Config, live: Live, s: State, m: nat, away: nat)
    requires Sound(c) && s.current < c.layers && m == Closed(c, s.current + 1)
    requires s.offloaded == Max(1, m) && s.streams.d2h == {}
    requires away == if Eager(c) then 1 else m
    requires StoreInv(live, s, c.groups, away, m, c.groups)
    ensures OpenWindow(c, s).Some?
    ensures var t, n := OpenWindow(c, s).value, Closed(c, s.current);
      && t.current == s.current && t.count == s.count && t.offloaded == Max(1, n)
      && BackwardStreams(c, live, s.streams, t.streams, false, m, n)
      && StoreInv(live, t, c.groups, if Eager(c) then (if s.current == 0 then 0 else 1) else n, n, c.groups)
  {
    hide StoreInv, MoveIn, Restorable, StartsIn, Closed, Window, Absent, BackwardStreams;
    assert BackwardStreams(c, live, s.streams, s.streams, false, m, m) by {
      SameStreams(c, live, s.streams, m);
    }
    WindowMatches(c, s.current);
    ClosedMeaning(c, s.current);
    ClosedMeaning(c, s.current + 1);
    if Window(c, s.offloaded - 1) == s.current {
      var waited := s.(streams := WaitsIn(InWaits(s.streams)));
      SameStore(live, s, waited, c.groups, away, m, c.groups);
      ReloadStore(live, waited, c.groups, away, m - 1, c.groups);
      var n, t := m - 1, BulkReload(waited, m - 1).value;
      ReloadStreams(c, live, s, away, n);
      SameStore(live, t, OpenWindow(c, s).value, c.groups, if away == m then n else away, n, c.groups);
    }
  }

  lemma SameStreams(c: Config, live: Live, m: Streams, n: nat)
    ensures BackwardStreams(c, live, m, m, false, n, n)
  {}

  lemma ReloadStreams(c: Config, live: Live, s: State, away: nat, n: nat)
    requires s.streams.d2h == {} && (away == if Eager(c) then 1 else n + 1)
    requires forall tag :: tag in live && tag.0 == n && away == n + 1 ==> tag in Absent(s.slots, n)
    requires away <= n ==> Absent(s.slots, n) == {}
    requires BulkReload(s.(streams := WaitsIn(InWaits(s.streams))), n).Some?
    ensures BackwardStreams(c, live, s.streams, BulkReload(s.(streams := WaitsIn(InWaits(s.streams))), n).value.streams,
                            false, n + 1, n)
  {}

  lemma WindowMatches(c: Config, g: nat)
    requires Sound(c) && g < c.layers
    ensures var n, m := Closed(c, g), Closed(c, g + 1);
      && (Window(c, Max(1, m) - 1) == g <==> n < m)
      && (n < m ==> m == n + 1) && n <= m <= c.groups
  {
    ClosedMeaning(c, g);
    ClosedMeaning(c, g + 1);
    WindowBounds(c, 0);
  }

  /** A backward commit down to group g, where n windows had closed. */
  lemma BackwardStore(c: Config, live: Live, s: State)
    requires Sound(c) && 0 < s.current <= c.layers
    requires s.offloaded == Max(1, Closed(c, s.current)) && s.streams.d2h == {}
    requires StoreInv(live, s, c.groups, if Eager(c) then 1 else Closed(c, s.current), Closed(c, s.current), c.groups)
    ensures Backward(c, s).Some?
    ensures var t, g := Backward(c, s).value, s.current - 1;
      var n := Closed(c, g);
      && t.current == g && t.count == s.count
      && t.offloaded == (if g == 0 then 0 else Max(1, n))
      && BackwardStreams(c, live, s.streams, t.streams, g == 0, Closed(c, s.current), n)
      && StoreInv(live, t, c.groups, if Eager(c) then (if g == 0 then 0 else 1) else n, n, c.groups)
  {
    hide StoreInv, OpenWindow, Closed, Window;
    var g, m := s.current - 1, Closed(c, s.current);
    var away := if Eager(c) then 1 else m;
    var back := s.(current := g);
    SameStore(live, s, back, c.groups, away, m, c.groups);
    OpenWindowStore(c, live, back, m, away);
    SameStore(live, OpenWindow(c, back).value, Backward(c, s).value, c.groups,
      if Eager(c) then (if g == 0 then 0 else 1) else Closed(c, g), Closed(c, g), c.groups);
  }

  lemma BackwardCounts(c: Config, e: Env, m: Streams, m': Streams)
    requires Sound(c) && e.backward && 0 < e.group <= c.layers && StreamInv(c, e, m)
    requires BackwardStreams(c, e.live, m, m', e.group == 1, Closed(c, e.group), Closed(c, e.group - 1))
    ensures StreamInv(c, e.(group := e.group - 1), m')
  {
    hide GroupStreams, Closed, Window;
    ClosedMeaning(c, e.group);
    ClosedMeaning(c, e.group - 1);
    ClosedGrows(c, e.group - 1);
    var e' := e.(group := e.group - 1);
    forall g: nat ensures GroupStreams(c, e', m', g) {
      BackwardGroup(c, e, m, m', g);
    }
  }

  lemma BackwardGroup(c: Config, e: Env, m: Streams, m': Streams, g: nat)
    requires Sound(c) && e.backward && 0 < e.group <= c.layers && GroupStreams(c, e, m, g)
    requires BackwardStreams(c, e.live, m, m', e.group == 1, Closed(c, e.group), Closed(c, e.group - 1))
    ensures GroupStreams(c, e.(group := e.group - 1), m', g)
  {
    hide Closed, Window;
    ClosedMeaning(c, e.group);
    ClosedMeaning(c, e.group - 1);
    ClosedGrows(c, e.group - 1);
  }

  lemma NothingLeaving(c: Config, e: Env, m: Streams)
    requires Sound(c) && (e.backward || e.group == 0) && StreamInv(c, e, m)
    ensures m.d2h == {}
  {
    forall g: nat ensures g !in m.d2h {
      assert GroupStreams(c, e, m, g);
    }
  }

  lemma BackwardKeeps(c: Config, e: Env, s: State)
    requires Inv(c, e, s) && Legal(c, e, CommitBackward)
    ensures Good(c, e, s, CommitBackward)
  {
    hide StoreInv, StreamInv, LiveConsistent, Backward, Closed, Window;
    ClosedMeaning(c, e.group);
    NothingLeaving(c, e, s.streams);
    BackwardStore(c, e.live, s);
    var e', t := e.(group := e.group - 1), Backward(c, s).value;
    BackwardCounts(c, e, s.streams, t.streams);
    TurnKeeps(c, e', t);
  }

  lemma EventKeeps(c: Config, e: Env, s: State, ev: Event)
    requires Inv(c, e, s) && Legal(c, e, ev)
    ensures Good(c, e, s, ev)
  {
    match ev {
      case Push(key, value) => PushKeeps(c, e, s, key, value);
      case Pop(tag) => PopKeeps(c, e, s, tag);
      case CommitForward => ForwardKeeps(c, e, s);
      case CommitBackward => BackwardKeeps(c, e, s);
    }
  }

  // ----- whole trainings

  /** A legal sequence of events from a fresh handler, with the states it goes through. */
  ghost predicate Training(c: Config, events: seq<Event>, envs: seq<Env>, states: seq<State>) {
    && |envs| == |states| == |events| + 1
    && envs[0] == BEGIN && states[0] == START
    && forall i :: 0 <= i < |events| ==>
         && Legal(c, envs[i], events[i])
         && envs[i + 1] == NextEnv(c, envs[i], events[i])
         && (Apply(c, states[i], events[i]).Done? ==> states[i + 1] == Apply(c, states[i], events[i]).next)
  }

  lemma {:induction false} TrainingInv(c: Config, events: seq<Event>, envs: seq<Env>, states: seq<State>, i: nat)
    requires Sound(c) && Training(c, events, envs, states) && i <= |events|
    ensures Inv(c, envs[i], states[i]) && !states[i].streams.raced
  {
    hide Inv, Legal, NextEnv, Apply;
    if i == 0 {
      StartInv(c);
    } else {
      TrainingInv(c, events, envs, states, i - 1);
      EventKeeps(c, envs[i - 1], states[i - 1], events[i - 1]);
    }
  }

  /** Over any number of rounds: no assertion fails and no window-map lookup misses; no copy-out
      starts before the tensors are computed, no device memory is let go before its copy-out has
      been waited for, no copy-in starts before the host copy is complete, no tensor is used
      before its copy-in has been waited for; and every pop returns what was pushed. */
  lemma TrainingIsSafe(c: Config, events: seq<Event>, envs: seq<Env>, states: seq<State>, i: nat)
    requires Sound(c) && Training(c, events, envs, states) && i < |events|
    ensures Apply(c, states[i], events[i]).Done?
    ensures !states[i + 1].streams.raced
    ensures events[i].Pop? ==>
      events[i].tag in envs[i].live && Apply(c, states[i], events[i]).popped == Some(envs[i].live[events[i].tag].1)
  {
    hide Inv, Legal, NextEnv, Apply;
    TrainingInv(c, events, envs, states, i);
    TrainingInv(c, events, envs, states, i + 1);
    EventKeeps(c, envs[i], states[i], events[i]);
  }

  /** While a copy-out may still be reading a group, all its tensors are kept in device memory,
      no copy-in of the group has started in this round, and no copy-in is under way at all. */
  lemma CopySourceKept(c: Config, events: seq<Event>, envs: seq<Env>, states: seq<State>, i: nat, g: nat)
    requires Sound(c) && Training(c, events, envs, states) && i <= |events| && g in states[i].streams.d2h
    ensures !envs[i].backward && g in states[i].mappings && g in states[i].streams.uncopied
    ensures states[i].streams.h2d == {} && states[i].streams.copiedIn[g] == envs[i].rounds
    ensures forall tag :: tag in envs[i].live && tag.0 == g ==>
      tag in states[i].bufs && states[i].bufs[tag] == Some(envs[i].live[tag].1)
  {
    TrainingInv(c, events, envs, states, i);
    var e, s := envs[i], states[i];
    hide Closed, Window, LiveConsistent;
    assert GroupStreams(c, e, s.streams, g);
    forall tag | tag in e.live && tag.0 == g ensures tag in s.bufs && s.bufs[tag] == Some(e.live[tag].1) {
      assert BufOk(e.live, s, c.groups, Released(c, e), tag);
    }
  }

  /** Whenever a round has ended the handler is back where it started, and each offload group
      has been copied out and copied back exactly once per round. */
  lemma RoundsComplete(c: Config, events: seq<Event>, envs: seq<Env>, states: seq<State>, i: nat)
    requires Sound(c) && Training(c, events, envs, states) && i <= |events|
    requires !envs[i].backward && envs[i].group == 0 && envs[i].live == map[]
    ensures var s := states[i];
      && s.current == 0 && s.offloaded == 0
      && s.slots == map[] && s.bufs == map[] && s.mappings == map[]
      && s.streams.d2h == {} && s.streams.h2d == {}
      && forall g: nat ::
           s.streams.copiedOut[g] == s.streams.copiedIn[g] == if g < c.groups then envs[i].rounds else 0
  {
    TrainingInv(c, events, envs, states, i);
    var e, s := envs[i], states[i];
    ClosedMeaning(c, 0);
    NothingLeaving(c, e, s.streams);
    forall g: nat
      ensures s.streams.copiedOut[g] == s.streams.copiedIn[g] == if g < c.groups then e.rounds else 0
    {
      assert GroupStreams(c, e, s.streams, g);
    }
  }

  // ----- what is really offloaded

  /** Up to the last forward commit, every tensor of a group whose window has closed is on the
      host only. */
  ghost predicate Offloaded(c: Config, e: Env, s: State) {
    !e.backward || e.group == c.layers ==> forall tag :: tag in e.live && tag.0 < Closed(c, e.group) ==>
      tag in s.slots && s.slots[tag].Moved? && (tag in s.bufs ==> s.bufs[tag].None?)
  }

  /** Every training really offloads each group by the close of its window. */
  ghost predicate Offloads(c: Config) {
    forall events, envs, states, i ::
      Training(c, events, envs, states) && 0 <= i <= |events| ==> Offloaded(c, envs[i], states[i])
  }

  /** Groups are offloaded exactly when the configuration is not eager, that is unless there are
      two or more groups to offload and as many as commits. */
  lemma OffloadsIffNotEager(c: Config)
    requires Sound(c)
    ensures Offloads(c) <==> !Eager(c)
  {
    hide StoreInv, Closed, Window, Offloaded;
    if Eager(c) {
      EagerKeepsOnDevice(c);
    } else {
      forall events, envs, states, i | Training(c, events, envs, states) && 0 <= i <= |events|
        ensures Offloaded(c, envs[i], states[i])
      {
        TrainingInv(c, events, envs, states, i);
        MovedBelow(c, envs[i], states[i]);
      }
    }
  }

  lemma MovedBelow(c: Config, e: Env, s: State)
    requires Inv(c, e, s) && !Eager(c)
    ensures Offloaded(c, e, s)
  {
    ClosedMeaning(c, e.group);
    hide Closed, Window;
    forall tag | tag in e.live && tag.0 < Closed(c, e.group) && (!e.backward || e.group == c.layers)
      ensures tag in s.slots && s.slots[tag].Moved? && (tag in s.bufs ==> s.bufs[tag].None?)
    {
      assert SlotOk(e.live, s, Away(c, e), tag) && BufOk(e.live, s, c.groups, Released(c, e), tag);
    }
  }

  /** The failing input: in an eager configuration a tensor pushed into group 1 is still on the
      device after its window has closed. */
  lemma EagerKeepsOnDevice(c: Config)
    requires Eager(c)
    ensures exists events, envs, states ::
      Training(c, events, envs, states) && |events| == 3 && !Offloaded(c, envs[3], states[3])
  {
    hide Apply, Inv, Offloaded;
    var value := Value([], []);
    var events := [CommitForward, Push((0, 0), value), CommitForward];
    var e1, e2 := Env(false, 1, 0, map[], 0), Env(false, 1, 1, map[(1, 0) := ((0, 0), value)], 0);
    var e3 := Turn(c, e2.(group := 2, pushed := 0));
    StartInv(c);
    EventKeeps(c, BEGIN, START, CommitForward);
    var s1 := Apply(c, START, CommitForward).next;
    EventKeeps(c, e1, s1, Push((0, 0), value));
    var s2 := Apply(c, s1, Push((0, 0), value)).next;
    EventKeeps(c, e2, s2, CommitForward);
    var s3 := Apply(c, s2, CommitForward).next;
    StillThere(c, e3, s3, (1, 0));
    assert Training(c, events, [BEGIN, e1, e2, e3], [START, s1, s2, s3]);
  }

  lemma StillThere(c: Config, e: Env, s: State, tag: Tag)
    requires Eager(c) && Inv(c, e, s) && tag in e.live && 0 < tag.0 < e.group && (!e.backward || e.group == c.layers)
    ensures s.slots[tag].OnDevice? && !Offloaded(c, e, s)
  {
    ClosedMeaning(c, e.group);
    hide Closed, Window;
    assert SlotOk(e.live, s, Away(c, e), tag);
  }

  // ----- how much stays on the device

  /** Group g still has a tensor in device memory. */
  ghost predicate Resident(s: State, g: nat) {
    || (exists tag :: tag in s.slots && tag.0 == g && s.slots[tag].OnDevice?)
    || (exists tag :: tag in s.bufs && tag.0 == g && s.bufs[tag].Some?)
  }

  /** The backward pass consumes each group before it steps down to the next. */
  ghost predicate Prompt(events: seq<Event>, envs: seq<Env>) {
    |envs| == |events| + 1
    && forall i :: 0 <= i < |events| && events[i].CommitBackward? ==>
         forall tag :: tag in envs[i].live ==> tag.0 < envs[i].group
  }

  lemma {:induction false} PromptLive(c: Config, events: seq<Event>, envs: seq<Env>, states: seq<State>, i: nat)
    requires Sound(c) && Training(c, events, envs, states) && Prompt(events, envs) && i <= |events|
    ensures forall tag :: tag in envs[i].live ==> tag.0 <= envs[i].group
  {
    hide Apply;
    if i > 0 {
      PromptLive(c, events, envs, states, i - 1);
    }
  }

  /** If the backward pass consumes each group before it steps down, only the groups between the
      closed windows and the commit counter are on the device; with the caller's choice of
      groups these are at most two. */
  lemma FewGroupsResident(c: Config, events: seq<Event>, envs: seq<Env>, states: seq<State>, i: nat, g: nat)
    requires Sound(c) && !Eager(c) && Training(c, events, envs, states) && Prompt(events, envs) && i <= |events|
    requires Resident(states[i], g)
    ensures Closed(c, envs[i].group) <= g <= envs[i].group
    ensures c.groups + 1 == c.layers ==> g == envs[i].group || g + 1 == envs[i].group
  {
    hide Inv, Closed;
    PromptLive(c, events, envs, states, i);
    TrainingInv(c, events, envs, states, i);
    var e, s := envs[i], states[i];
    if exists tag :: tag in s.slots && tag.0 == g && s.slots[tag].OnDevice? {
      var tag :| tag in s.slots && tag.0 == g && s.slots[tag].OnDevice?;
      ResidentTag(c, e, s, tag);
    } else {
      var tag :| tag in s.bufs && tag.0 == g && s.bufs[tag].Some?;
      ResidentTag(c, e, s, tag);
    }
    if c.groups + 1 == c.layers {
      GroupInRange(c, e, s);
      CallerCloses(c, e.group);
    }
  }

  lemma GroupInRange(c: Config, e: Env, s: State)
    requires Inv(c, e, s)
    ensures e.group <= c.layers
  {}

  lemma ResidentTag(c: Config, e: Env, s: State, tag: Tag)
    requires Inv(c, e, s) && !Eager(c) && forall x :: x in e.live ==> x.0 <= e.group
    requires (tag in s.slots && s.slots[tag].OnDevice?) || (tag in s.bufs && s.bufs[tag].Some?)
    ensures Closed(c, e.group) <= tag.0 <= e.group
  {
    hide Closed, StreamInv, LiveConsistent;
    ClosedMeaning(c, e.group);
    assert SlotOk(e.live, s, Away(c, e), tag) && BufOk(e.live, s, c.groups, Released(c, e), tag);
  }

  lemma {:induction false} CallerCloses(c: Config, g: nat)
    requires Sound(c) && c.groups + 1 == c.layers && g <= c.layers
    ensures Closed(c, g) == Max(0, g - 1)
  {
    if g > 0 {
      CallerCloses(c, g - 1);
      ClosedMeaning(c, g - 1);
      WindowCaller(c, Closed(c, g - 1));
    }
  }

  // ----- the handler object

  class AsyncDoubleBufferGroupOffloadHandler {
    const config: Config
    const window: map<nat, int>
    var current: nat
    var count: nat
    var offloaded: nat
    var slots: map<Tag, Slot>
    var bufs: map<Tag, Option<Value>>
    var mappings: map<nat, map<Key, seq<int>>>
    ghost var streams: Streams

    ghost predicate Valid()
      reads this
    {
      && (forall i :: i in window <==> 0 <= i < config.groups)
      && (forall i :: 0 <= i < config.groups ==> window[i] == Window(config, i))
    }

    ghost function Model(): State
      reads this
    {
      State(current, count, offloaded, slots, bufs, mappings, streams)
    }

    constructor (groups: nat, layers: nat)
      ensures Valid() && config == Config(groups, layers) && Model() == START
    {
      config := Config(groups, layers);
      var map' := BuildWindowMap(Config(groups, layers));
      window := map';
      current, count, offloaded := 0, 0, 0;
      slots, bufs, mappings := map[], map[], map[];
      streams := Streams({}, {}, {}, {}, false, multiset{}, multiset{});
    }

    method TensorPush(key: Key, value: Value) returns (ok: bool, tag: Tag)
      requires Valid()
      modifies this
      ensures Valid() && tag == old((current, count))
      ensures ok <==> Apply(config, old(Model()), Push(key, value)).Done?
      ensures ok ==> Model() == Apply(config, old(Model()), Push(key, value)).next
    {
      tag := (current, count);
      count := count + 1;
      ok := tag !in slots;
      if ok {
        slots := slots[tag := OnDevice(key, value)];
        if current < config.groups {
          bufs := bufs[tag := Some(value)];
        }
        streams := Computed(streams, current);
      }
    }

    method TensorPop(tag: Tag) returns (ok: bool, value: Option<Value>)
      requires Valid()
      modifies this
      ensures Valid()
      ensures ok <==> Apply(config, old(Model()), Pop(tag)).Done?
      ensures ok ==> Model() == Apply(config, old(Model()), Pop(tag)).next
      ensures ok ==> value == Apply(config, old(Model()), Pop(tag)).popped
    {
      if tag !in slots {
        return false, None;
      }
      var slot := slots[tag];
      slots, bufs := slots - {tag}, bufs - {tag};
      streams := Used(streams, tag);
      if slot.Moved? {
        return false, None;
      }
      return true, Some(slot.value);
    }

    method BulkOffloadGroup(g: nat) returns (ok: bool)
      requires Valid() && KeysConsistent(slots, g)
      modifies this
      ensures Valid()
      ensures ok <==> AllOnDevice(old(slots), g)
      ensures ok ==> Model() == BulkOffload(old(Model()), g)
    {
      hide HostCopies, MoveOut, AllOnDevice, KeysConsistent, StartsOut, Window;
      var mapping;
      ok, slots, mapping := CopyGroupOut(slots, g);
      if ok {
        mappings := mappings[g := mapping];
        streams := StartsOut(streams, g);
      }
    }

    method SynchronizeOnGroupCommitForward() returns (ok: bool)
      requires Valid() && forall g :: KeysConsistent(slots, g)
      modifies this
      ensures Valid()
      ensures ok <==> SyncForward(config, old(Model())).Some?
      ensures ok ==> Model() == SyncForward(config, old(Model())).value
    {
      hide HostCopies, MoveOut, Window, AllOnDevice;
      if current == 0 {
        ghost var before := slots;
        streams := OutWaits(streams);
        ok := BulkOffloadGroup(0);
        if !ok {
          return;
        }
        MoveOutConsistent(before, 0);
      }
      ok := CloseWindowNow();
    }

    method CloseWindowNow() returns (ok: bool)
      requires Valid() && forall g :: KeysConsistent(slots, g)
      modifies this
      ensures Valid()
      ensures ok <==> CloseWindow(config, old(Model())).Some?
      ensures ok ==> Model() == CloseWindow(config, old(Model())).value
    {
      hide HostCopies, MoveOut, Window, AllOnDevice;
      if offloaded !in window {
        return false;
      }
      if window[offloaded] == current {
        streams := WaitsOut(OutWaits(streams));
        ghost var early := offloaded in streams.d2h || offloaded !in mappings;
        streams := streams.(raced := streams.raced || early);
        bufs := DropGroup(bufs, offloaded);
        var next := offloaded + 1;
        if next < config.groups {
          ok := BulkOffloadGroup(next);
          if !ok {
            return;
          }
        }
        offloaded := next;
      }
      return true;
    }

    method OnGroupCommitForward() returns (ok: bool)
      requires Valid() && forall g :: KeysConsistent(slots, g)
      modifies this
      ensures Valid()
      ensures ok <==> Forward(config, old(Model())).Some?
      ensures ok ==> Model() == Forward(config, old(Model())).value
    {
      hide SyncForward;
      ok := SynchronizeOnGroupCommitForward();
      if ok {
        current, count := current + 1, 0;
      }
    }

    method BulkReloadGroup(g: nat) returns (ok: bool)
      requires Valid() && g < config.groups
      modifies this
      ensures Valid()
      ensures ok <==> BulkReload(old(Model()), g).Some?
      ensures ok ==> Model() == BulkReload(old(Model()), g).value
    {
      if g !in mappings {
        return false;
      }
      var mapping := mappings[g];
      mappings := mappings - {g};
      streams := StartsIn(streams, g, Absent(slots, g));
      ok, slots := CopyGroupIn(slots, g, mapping);
    }

    method OnGroupCommitBackward() returns (ok: bool)
      requires Valid()
      modifies this
      ensures Valid()
      ensures ok <==> Backward(config, old(Model())).Some?
      ensures ok ==> Model() == Backward(config, old(Model())).value
    {
      hide Window, BulkReload;
      if current == 0 {
        return false;
      }
      current := current - 1;
      if offloaded == 0 || offloaded - 1 !in window {
        return false;
      }
      if window[offloaded - 1] == current {
        streams := WaitsIn(InWaits(streams));
        assert Model() == old(Model()).(current := current, streams := streams);
        ok := BulkReloadGroup(offloaded - 1);
        if !ok {
          return;
        }
        offloaded := if offloaded > 1 then offloaded - 1 else offloaded;
      }
      if current == 0 {
        streams := WaitsIn(streams);
        offloaded := 0;
      }
      return true;
    }
  }

  /** Walks the state dictionary once: each tag of the group is replaced by its storage key,
      and the first tensor of each key is copied to the host. */
  method CopyGroupOut(slots: map<Tag, Slot>, g: nat)
      returns (ok: bool, after: map<Tag, Slot>, mapping: map<Key, seq<int>>)
    requires KeysConsistent(slots, g)
    ensures ok <==> AllOnDevice(slots, g)
    ensures ok ==> after == MoveOut(slots, g) && mapping == HostCopies(slots, g)
  {
    hide HostCopies, KeysConsistent, MovedOut, Mapped, MoveOut;
    after, mapping := slots, map[];
    var todo := set tag | tag in slots && tag.0 == g;
    ghost var done := {};
    assert MovedOut(slots, g, done, after) && Mapped(slots, g, done, mapping) by { NothingMoved(slots, g); }
    while todo != {}
      invariant forall tag :: tag in slots && tag.0 == g <==> tag in todo || tag in done
      invariant todo !! done
      invariant MovedOut(slots, g, done, after)
      invariant Mapped(slots, g, done, mapping)
      decreases todo
    {
      var tag :| tag in todo;
      NotMovedYet(slots, g, done, after, tag);
      if after[tag].Moved? {
        return false, after, mapping;
      }
      var OnDevice(key, value) := after[tag];
      MapOneMore(slots, g, done, mapping, tag);
      if key !in mapping {
        mapping := mapping[key := value.flat];
      }
      MoveOneMore(slots, g, done, after, tag);
      after := after[tag := Moved(key, value.shape)];
      todo, done := todo - {tag}, done + {tag};
    }
    AllMoved(slots, g, done, after);
    MappingIsHostCopies(slots, g, mapping, done);
    ok := true;
  }

  /** The tags in `done` have been replaced by their storage keys. */
  ghost predicate MovedOut(slots: map<Tag, Slot>, g: nat, done: set<Tag>, after: map<Tag, Slot>) {
    && after.Keys == slots.Keys
    && (forall tag :: tag in done ==> tag in slots && tag.0 == g && slots[tag].OnDevice?)
    && forall tag :: tag in slots ==>
         after[tag] == if tag in done then Moved(slots[tag].key, slots[tag].value.shape) else slots[tag]
  }

  /** `mapping` has one entry for each storage key in `done`, taken from a tensor in it. */
  ghost predicate Mapped(slots: map<Tag, Slot>, g: nat, done: set<Tag>, mapping: map<Key, seq<int>>) {
    && (forall tag :: tag in done ==> tag in slots && slots[tag].OnDevice? && slots[tag].key in mapping)
    && forall key :: key in mapping ==> FromDone(slots, g, done, mapping, key)
  }

  lemma NothingMoved(slots: map<Tag, Slot>, g: nat)
    ensures MovedOut(slots, g, {}, slots) && Mapped(slots, g, {}, map[])
  {}

  lemma NotMovedYet(slots: map<Tag, Slot>, g: nat, done: set<Tag>, after: map<Tag, Slot>, tag: Tag)
    requires MovedOut(slots, g, done, after) && tag in slots && tag !in done
    ensures tag in after && after[tag] == slots[tag]
  {}

  lemma MoveOneMore(slots: map<Tag, Slot>, g: nat, done: set<Tag>, after: map<Tag, Slot>, tag: Tag)
    requires MovedOut(slots, g, done, after) && tag in slots && tag.0 == g && slots[tag].OnDevice?
    ensures MovedOut(slots, g, done + {tag}, after[tag := Moved(slots[tag].key, slots[tag].value.shape)])
  {}

  lemma AllMoved(slots: map<Tag, Slot>, g: nat, done: set<Tag>, after: map<Tag, Slot>)
    requires MovedOut(slots, g, done, after) && forall tag :: tag in slots && tag.0 == g ==> tag in done
    ensures after == MoveOut(slots, g) && AllOnDevice(slots, g)
  {}

  lemma MoveOutConsistent(slots: map<Tag, Slot>, g: nat)
    requires forall h :: KeysConsistent(slots, h)
    ensures forall h :: KeysConsistent(MoveOut(slots, g), h)
  {
    var moved := MoveOut(slots, g);
    forall h ensures KeysConsistent(moved, h) {
      assert KeysConsistent(slots, h);
      forall key, a, b | HasKey(moved, h, key, a) && HasKey(moved, h, key, b)
        ensures moved[a].value.flat == moved[b].value.flat
      {
        assert HasKey(slots, h, key, a) && HasKey(slots, h, key, b);
      }
    }
  }

  lemma MapOneMore(slots: map<Tag, Slot>, g: nat, done: set<Tag>, mapping: map<Key, seq<int>>, tag: Tag)
    requires Mapped(slots, g, done, mapping)
    requires tag in slots && tag.0 == g && slots[tag].OnDevice?
    ensures var key := slots[tag].key;
      Mapped(slots, g, done + {tag}, if key in mapping then mapping else mapping[key := slots[tag].value.flat])
  {
    var key0 := slots[tag].key;
    var mapping' := if key0 in mapping then mapping else mapping[key0 := slots[tag].value.flat];
    assert HasKey(slots, g, key0, tag);
    forall key | key in mapping' ensures FromDone(slots, g, done + {tag}, mapping', key) {
      if key in mapping {
        assert FromDone(slots, g, done, mapping, key);
        var x :| x in done && HasKey(slots, g, key, x) && mapping[key] == slots[x].value.flat;
        assert x in done + {tag};
      } else {
        assert tag in done + {tag};
      }
    }
    hide FromDone;
  }

  /** The entry for a key is the contents of a tensor in `done` that has it. */
  ghost predicate FromDone(slots: map<Tag, Slot>, g: nat, done: set<Tag>, mapping: map<Key, seq<int>>, key: Key)
    requires key in mapping
  {
    exists tag :: tag in done && HasKey(slots, g, key, tag) && mapping[key] == slots[tag].value.flat
  }

  /** Sets every reference the group holds in `tensor_tag_to_buf` to None. */
  method DropGroup(bufs: map<Tag, Option<Value>>, g: nat) returns (after: map<Tag, Option<Value>>)
    ensures after == DropBufs(bufs, g)
  {
    after := bufs;
    var todo := set tag | tag in bufs && tag.0 == g;
    while todo != {}
      invariant after.Keys == bufs.Keys
      invariant forall tag :: tag in todo ==> tag in bufs && tag.0 == g
      invariant forall tag :: tag in bufs ==>
        after[tag] == if tag.0 == g && tag !in todo then None else bufs[tag]
      decreases todo
    {
      var tag :| tag in todo;
      after := after[tag := None];
      todo := todo - {tag};
    }
  }

  /** Puts a device copy of the right shape back under every tag of the group. */
  method CopyGroupIn(slots: map<Tag, Slot>, g: nat, mapping: map<Key, seq<int>>)
      returns (ok: bool, after: map<Tag, Slot>)
    ensures ok <==> Restorable(slots, g, mapping)
    ensures ok ==> after == MoveIn(slots, g, mapping)
  {
    after := slots;
    var todo := set tag | tag in slots && tag.0 == g && slots[tag].Moved?;
    while todo != {}
      invariant after.Keys == slots.Keys
      invariant forall tag :: tag in todo ==> tag in slots && tag.0 == g && slots[tag].Moved?
      invariant forall tag :: tag in slots ==>
        if tag.0 == g && slots[tag].Moved? && tag !in todo then
          slots[tag].key in mapping
          && after[tag] == OnDevice(slots[tag].key, Value(slots[tag].shape, mapping[slots[tag].key]))
        else after[tag] == slots[tag]
      decreases todo
    {
      var tag :| tag in todo;
      if after[tag].key !in mapping {
        return false, after;
      }
      after := after[tag := OnDevice(after[tag].key, Value(after[tag].shape, mapping[after[tag].key]))];
      todo := todo - {tag};
    }
    ok := true;
  }

  lemma MappingIsHostCopies(slots: map<Tag, Slot>, g: nat, mapping: map<Key, seq<int>>, done: set<Tag>)
    requires KeysConsistent(slots, g)
    requires forall tag :: tag in done <==> tag in slots && tag.0 == g
    requires Mapped(slots, g, done, mapping)
    ensures mapping == HostCopies(slots, g)
  {}
}
