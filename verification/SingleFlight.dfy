/** Single-flight de-duplication: callers that ask for the same request fingerprint at the same
  time share one request. The leader sends it; the followers wait on the leader's future. */
module SingleFlight {
  import opened Wrappers

  type Fingerprint = string

  datatype Outcome = Answer(text: int) | Failure(error: int)

  /** The map of requests in flight, and the futures ever created, numbered in that order. */
  datatype Table = Table(inflight: map<Fingerprint, nat>, futures: seq<Option<Outcome>>)

  /** `_acquire_inflight_request`: the future, and whether the caller leads. */
  function Acquire(t: Table, fp: Fingerprint): (nat, bool, Table) {
    if fp in t.inflight then (t.inflight[fp], false, t)
    else (|t.futures|, true, Table(t.inflight[fp := |t.futures|], t.futures + [None]))
  }

  /** The locked part of `_complete_inflight_request`. */
  function Release(t: Table, fp: Fingerprint, f: nat): Table {
    if fp in t.inflight && t.inflight[fp] == f then t.(inflight := t.inflight - {fp}) else t
  }

  /** Its unlocked rest: a future that is done already is left alone. */
  function Settle(t: Table, f: nat, o: Outcome): Table
    requires f < |t.futures|
  {
    if t.futures[f].Some? then t else t.(futures := t.futures[f := Some(o)])
  }

  class SharedRequests {
    var inflight: map<Fingerprint, nat>
    var futures: seq<Option<Outcome>>

    function Model(): Table
      reads this
    {
      Table(inflight, futures)
    }

    constructor ()
      ensures Model() == Table(map[], [])
    {
      inflight, futures := map[], [];
    }

    method AcquireInflightRequest(fp: Fingerprint) returns (future: nat, isLeader: bool)
      modifies this
      ensures (future, isLeader, Model()) == Acquire(old(Model()), fp)
      ensures isLeader <==> fp !in old(inflight)
      ensures inflight == old(inflight)[fp := future]
      ensures futures == if isLeader then old(futures) + [None] else old(futures)
      ensures isLeader ==> future == |old(futures)|
    {
      if fp in inflight {
        return inflight[fp], false;
      }
      future := |futures|;
      futures := futures + [None];
      inflight := inflight[fp := future];
      isLeader := true;
    }

    method ReleaseFingerprint(fp: Fingerprint, future: nat)
      modifies this
      ensures Model() == Release(old(Model()), fp, future)
      ensures forall x :: x in inflight <==> x in old(inflight) && (x == fp ==> old(inflight)[fp] != future)
      ensures forall x :: x in inflight ==> inflight[x] == old(inflight)[x]
    {
      if fp in inflight && inflight[fp] == future {
        inflight := inflight - {fp};
      }
    }

    method SettleFuture(future: nat, outcome: Outcome)
      requires future < |futures|
      modifies this
      ensures Model() == Settle(old(Model()), future, outcome)
      ensures inflight == old(inflight) && |futures| == |old(futures)|
      ensures forall x :: 0 <= x < |futures| ==>
        futures[x] == if x == future && old(futures)[x].None? then Some(outcome) else old(futures)[x]
    {
      if futures[future].Some? {
        return;
      }
      futures := futures[future := Some(outcome)];
    }
  }

  // ----- any interleaving of callers

  /** Where a caller of `create_text` is. */
  datatype Phase =
    | Arriving
    | Leading(future: nat)
    | Completing(future: nat, outcome: Outcome)
    | Released(future: nat, outcome: Outcome)
    | Following(future: nat)
    | Returned(future: nat, outcome: Outcome)

  datatype Caller = Caller(fp: Fingerprint, phase: Phase)

  /** `leaders[f]`, which only records the history, is the caller that created future f. */
  datatype State = State(table: Table, callers: seq<Caller>, leaders: seq<nat>)

  datatype Step =
    | Enter(caller: nat)
    | Respond(caller: nat, outcome: Outcome)
    | Unlist(caller: nat)
    | Publish(caller: nat)
    | Wake(caller: nat)

  predicate Enabled(s: State, step: Step) {
    && step.caller < |s.callers|
    && var x := s.callers[step.caller].phase;
       match step
       case Enter(_) => x.Arriving?
       case Respond(_, _) => x.Leading?
       case Unlist(_) => x.Completing?
       case Publish(_) => x.Released? && x.future < |s.table.futures|
       case Wake(_) => x.Following? && x.future < |s.table.futures| && s.table.futures[x.future].Some?
  }

  function Move(s: State, i: nat, phase: Phase): State
    requires i < |s.callers|
  {
    s.(callers := s.callers[i := s.callers[i].(phase := phase)])
  }

  function Apply(s: State, step: Step): State
    requires Enabled(s, step)
  {
    var i := step.caller;
    var Caller(fp, x) := s.callers[i];
    match step
    case Enter(_) =>
      var (f, leads, t) := Acquire(s.table, fp);
      if leads then Move(s, i, Leading(f)).(table := t, leaders := s.leaders + [i])
      else Move(s, i, Following(f))
    case Respond(_, o) => Move(s, i, Completing(x.future, o))
    case Unlist(_) => Move(s, i, Released(x.future, x.outcome)).(table := Release(s.table, fp, x.future))
    case Publish(_) =>
      Move(s, i, Returned(x.future, x.outcome)).(table := Settle(s.table, x.future, x.outcome))
    case Wake(_) => Move(s, i, Returned(x.future, s.table.futures[x.future].value))
  }

  /** Between acquire and complete. */
  predicate InFlight(x: Phase) { x.Leading? || x.Completing? }

  /** The map lists, under its fingerprint, exactly the future of each caller between acquire
      and complete. */
  predicate Listed(s: State) {
    && (forall i :: 0 <= i < |s.callers| ==> Lists(s, s.callers[i]))
    && (forall fp :: fp in s.table.inflight ==> Live(s, fp, s.table.inflight[fp]))
  }

  predicate Lists(s: State, x: Caller) {
    InFlight(x.phase) ==> x.fp in s.table.inflight && s.table.inflight[x.fp] == x.phase.future
  }

  predicate Live(s: State, fp: Fingerprint, f: nat) {
    && f < |s.leaders| && s.leaders[f] < |s.callers|
    && var x := s.callers[s.leaders[f]];
       x.fp == fp && InFlight(x.phase) && x.phase.future == f
  }

  /** What a caller knows about its future: it has the leader's fingerprint, it is open while its
      leader has not published, and everyone returns with its outcome. */
  predicate Fits(s: State, i: nat, x: Phase)
    requires i < |s.callers| && |s.leaders| == |s.table.futures|
  {
    x.Arriving? ||
    (&& x.future < |s.leaders| && s.leaders[x.future] < |s.callers|
     && s.callers[s.leaders[x.future]].fp == s.callers[i].fp
     && match x
        case Leading(f) => s.leaders[f] == i && s.table.futures[f] == None
        case Completing(f, _) => s.leaders[f] == i && s.table.futures[f] == None
        case Released(f, _) => s.leaders[f] == i && s.table.futures[f] == None
        case Following(f) => s.leaders[f] != i
        case Returned(f, o) => s.table.futures[f] == Some(o))
  }

  /** The leader of future f is still on its way while f is open. */
  predicate Led(s: State, f: nat, i: nat)
    requires f < |s.table.futures|
  {
    && i < |s.callers|
    && var x := s.callers[i].phase;
       !x.Arriving? && x.future == f && !x.Following? && (s.table.futures[f].None? ==> !x.Returned?)
  }

  predicate Inv(s: State) {
    && |s.leaders| == |s.table.futures|
    && Listed(s)
    && (forall i :: 0 <= i < |s.callers| ==> Fits(s, i, s.callers[i].phase))
    && (forall f :: 0 <= f < |s.leaders| ==> Led(s, f, s.leaders[f]))
  }

  function Initial(fps: seq<Fingerprint>): State {
    State(Table(map[], []), seq(|fps|, i requires 0 <= i < |fps| => Caller(fps[i], Arriving)), [])
  }

  lemma StepKeeps(s: State, step: Step)
    requires Inv(s) && Enabled(s, step)
    ensures Inv(Apply(s, step))
  {
    StepListed(s, step);
    var s' := Apply(s, step);
    forall i | 0 <= i < |s'.callers| ensures Fits(s', i, s'.callers[i].phase) {
      StepFits(s, step, i);
    }
    forall f | 0 <= f < |s'.leaders| ensures Led(s', f, s'.leaders[f]) {
      StepLed(s, step, f);
    }
    hide Listed, Fits, Led, Apply;
  }

  lemma StepFits(s: State, step: Step, i: nat)
    requires Inv(s) && Enabled(s, step) && i < |s.callers|
    ensures Fits(Apply(s, step), i, Apply(s, step).callers[i].phase)
  {
    hide Led;
    assert Fits(s, i, s.callers[i].phase);
    assert Fits(s, step.caller, s.callers[step.caller].phase);
    if !step.Enter? {
      hide Listed;
    }
  }

  lemma StepLed(s: State, step: Step, f: nat)
    requires Inv(s) && Enabled(s, step) && f < |Apply(s, step).leaders|
    ensures Led(Apply(s, step), f, Apply(s, step).leaders[f])
  {
    hide Listed;
    assert f < |s.leaders| ==> Led(s, f, s.leaders[f]);
    assert Fits(s, step.caller, s.callers[step.caller].phase);
    hide Inv, Fits;
  }

  lemma StepListed(s: State, step: Step)
    requires Inv(s) && Enabled(s, step)
    ensures Listed(Apply(s, step))
  {
    var s' := Apply(s, step);
    forall i | 0 <= i < |s'.callers| ensures Lists(s', s'.callers[i]) {
      StepLists(s, step, i);
    }
    forall fp | fp in s'.table.inflight ensures Live(s', fp, s'.table.inflight[fp]) {
      StepLive(s, step, fp);
    }
    hide Lists, Live, Apply, Inv;
  }

  lemma StepLists(s: State, step: Step, i: nat)
    requires Inv(s) && Enabled(s, step) && i < |s.callers|
    ensures Lists(Apply(s, step), Apply(s, step).callers[i])
  {
    hide Live, Led;
    assert Lists(s, s.callers[i]) && Lists(s, s.callers[step.caller]);
    if step.Unlist? && i != step.caller && InFlight(s.callers[i].phase) {
      assert Fits(s, i, s.callers[i].phase) && Fits(s, step.caller, s.callers[step.caller].phase);
    }
  }

  lemma StepLive(s: State, step: Step, fp: Fingerprint)
    requires Inv(s) && Enabled(s, step) && fp in Apply(s, step).table.inflight
    ensures Live(Apply(s, step), fp, Apply(s, step).table.inflight[fp])
  {
    hide Fits, Led;
    assert Lists(s, s.callers[step.caller]);
    assert fp in s.table.inflight ==> Live(s, fp, s.table.inflight[fp]);
  }

  ghost predicate History(fps: seq<Fingerprint>, states: seq<State>, steps: seq<Step>) {
    && |states| == |steps| + 1 && states[0] == Initial(fps)
    && forall i :: 0 <= i < |steps| ==> Moves(states[i], steps[i], states[i + 1])
  }

  predicate Moves(s: State, step: Step, s': State) {
    Enabled(s, step) && s' == Apply(s, step)
  }

  lemma {:induction false} HistoryInv(fps: seq<Fingerprint>, states: seq<State>, steps: seq<Step>, i: nat)
    requires History(fps, states, steps) && i < |states|
    ensures Inv(states[i]) && |states[i].callers| == |fps|
  {
    if i > 0 {
      HistoryInv(fps, states, steps, i - 1);
      assert Moves(states[i - 1], steps[i - 1], states[i]);
      StepKeeps(states[i - 1], steps[i - 1]);
      hide Inv;
    }
  }

  /** In every interleaving at most one caller of a fingerprint is between acquire and complete. */
  lemma OneLeader(fps: seq<Fingerprint>, states: seq<State>, steps: seq<Step>, n: nat, i: nat, j: nat)
    requires History(fps, states, steps) && n < |states| && i < |fps| && j < |fps|
    ensures |states[n].callers| == |fps|
    ensures var cs := states[n].callers;
      InFlight(cs[i].phase) && InFlight(cs[j].phase) && cs[i].fp == cs[j].fp ==> i == j
  {
    HistoryInv(fps, states, steps, n);
  }

  /** The map holds only futures that are still open, each with a leader on its way to it. */
  lemma OnlyOpenFutures(fps: seq<Fingerprint>, states: seq<State>, steps: seq<Step>, n: nat, fp: Fingerprint)
    requires History(fps, states, steps) && n < |states| && fp in states[n].table.inflight
    ensures var f := states[n].table.inflight[fp];
      f < |states[n].table.futures| && states[n].table.futures[f] == None
  {
    HistoryInv(fps, states, steps, n);
    var s := states[n];
    var f := s.table.inflight[fp];
    assert Fits(s, s.leaders[f], s.callers[s.leaders[f]].phase);
  }

  /** A caller sends a request of its own exactly when nobody with its fingerprint is between
      acquire and complete. */
  lemma LeadsIffAlone(s: State, i: nat)
    requires Inv(s) && Enabled(s, Enter(i))
    ensures Apply(s, Enter(i)).callers[i].phase.Leading?
      <==> !exists j :: 0 <= j < |s.callers| && InFlight(s.callers[j].phase) && s.callers[j].fp == s.callers[i].fp
  {}

  /** Caller i puts an outcome into the open future f. */
  predicate Completes(s: State, step: Step, f: nat) {
    step.Publish? && step.caller < |s.callers| && s.callers[step.caller].phase.Released?
    && s.callers[step.caller].phase.future == f && f < |s.table.futures| && s.table.futures[f] == None
  }

  /** Publishing always finds its future open, and nothing else touches a future. */
  lemma OnlyItsLeaderCompletes(s: State, step: Step, f: nat)
    requires Inv(s) && Enabled(s, step) && f < |s.table.futures|
    ensures var s' := Apply(s, step);
      && f < |s'.table.futures|
      && (s'.table.futures[f] != s.table.futures[f] <==> Completes(s, step, f))
      && (Completes(s, step, f) ==>
            step.caller == s.leaders[f] && s'.table.futures[f] == Some(s.callers[step.caller].phase.outcome))
      && (step.Publish? && s.callers[step.caller].phase.future == f ==> Completes(s, step, f))
  {}

  lemma {:induction false} FuturesKept(fps: seq<Fingerprint>, states: seq<State>, steps: seq<Step>,
                                       k: nat, l: nat, f: nat)
    requires History(fps, states, steps) && k <= l < |states|
    requires f < |states[k].table.futures| && states[k].table.futures[f].Some?
    ensures f < |states[l].table.futures| && states[l].table.futures[f] == states[k].table.futures[f]
  {
    hide Inv;
    if k < l {
      FuturesKept(fps, states, steps, k, l - 1, f);
      assert Moves(states[l - 1], steps[l - 1], states[l]);
      HistoryInv(fps, states, steps, l - 1);
      OnlyItsLeaderCompletes(states[l - 1], steps[l - 1], f);
    }
  }

  /** No future is completed twice. */
  lemma CompletedOnce(fps: seq<Fingerprint>, states: seq<State>, steps: seq<Step>, k: nat, l: nat, f: nat)
    requires History(fps, states, steps) && k < l < |steps| && Completes(states[k], steps[k], f)
    ensures !Completes(states[l], steps[l], f)
  {
    hide Inv;
    assert Moves(states[k], steps[k], states[k + 1]);
    HistoryInv(fps, states, steps, k);
    OnlyItsLeaderCompletes(states[k], steps[k], f);
    FuturesKept(fps, states, steps, k + 1, l, f);
  }

  /** Whoever returns has the outcome of the leader it joined, which had the same fingerprint. */
  lemma FollowersGetTheirLeadersOutcome(fps: seq<Fingerprint>, states: seq<State>, steps: seq<Step>, n: nat, i: nat)
    requires History(fps, states, steps) && n < |states| && i < |fps|
    ensures |states[n].callers| == |fps|
    ensures states[n].callers[i].phase.Returned? ==>
      exists l | 0 <= l < |fps| ::
        && states[n].callers[l].phase == states[n].callers[i].phase
        && states[n].callers[l].fp == states[n].callers[i].fp
        && states[n].callers[i].phase.future < |states[n].leaders|
        && states[n].leaders[states[n].callers[i].phase.future] == l
  {
    HistoryInv(fps, states, steps, n);
    var s := states[n];
    if s.callers[i].phase.Returned? {
      var f := s.callers[i].phase.future;
      assert Fits(s, i, s.callers[i].phase);
      var l := s.leaders[f];
      assert Led(s, f, l);
      assert Fits(s, l, s.callers[l].phase);
    }
  }

  // ----- everybody returns

  /** Steps a caller has left. */
  function Left(x: Phase): nat {
    match x
    case Arriving => 4
    case Leading(_) => 3
    case Completing(_, _) => 2
    case Released(_, _) => 1
    case Following(_) => 1
    case Returned(_, _) => 0
  }

  function AllLeft(callers: seq<Caller>): nat {
    if callers == [] then 0 else Left(callers[0].phase) + AllLeft(callers[1..])
  }

  lemma {:induction false} MoveLeft(callers: seq<Caller>, i: nat, x: Caller)
    requires i < |callers| && Left(x.phase) < Left(callers[i].phase)
    ensures AllLeft(callers[i := x]) < AllLeft(callers)
  {
    if i == 0 {
      assert callers[i := x][1..] == callers[1..];
    } else {
      assert callers[i := x][1..] == callers[1..][i - 1 := x];
      MoveLeft(callers[1..], i - 1, x);
    }
  }

  lemma {:induction false} LeftAtStart(callers: seq<Caller>)
    requires forall i :: 0 <= i < |callers| ==> callers[i].phase == Arriving
    ensures AllLeft(callers) == 4 * |callers|
  {
    if callers != [] {
      LeftAtStart(callers[1..]);
    }
  }

  /** Every run ends within four steps for each caller. */
  lemma {:induction false} RunsEnd(fps: seq<Fingerprint>, states: seq<State>, steps: seq<Step>, n: nat)
    requires History(fps, states, steps) && n < |states|
    ensures n + AllLeft(states[n].callers) <= 4 * |fps|
  {
    if n == 0 {
      LeftAtStart(states[0].callers);
    } else {
      RunsEnd(fps, states, steps, n - 1);
      var s, step := states[n - 1], steps[n - 1];
      assert Moves(s, step, states[n]);
      hide AllLeft;
      MoveLeft(s.callers, step.caller, states[n].callers[step.caller]);
    }
  }

  /** When nothing can move every caller has returned: no follower waits for ever. */
  lemma NobodyWaitsForEver(s: State)
    requires Inv(s) && forall step :: !Enabled(s, step)
    ensures forall i :: 0 <= i < |s.callers| ==> s.callers[i].phase.Returned?
    ensures s.table.inflight == map[]
  {
    forall i | 0 <= i < |s.callers| ensures s.callers[i].phase.Returned? {
      Unfinished(s, i);
      if s.callers[i].phase.Following? {
        var f := s.callers[i].phase.future;
        assert Fits(s, i, s.callers[i].phase) && Led(s, f, s.leaders[f]);
        Unfinished(s, s.leaders[f]);
      }
    }
    assert forall fp :: fp !in s.table.inflight;
  }

  lemma Unfinished(s: State, i: nat)
    requires Inv(s) && i < |s.callers| && forall step :: !Enabled(s, step)
    ensures s.callers[i].phase.Returned? || s.callers[i].phase.Following?
    ensures s.callers[i].phase.Following? ==> s.table.futures[s.callers[i].phase.future] == None
  {
    hide Listed;
    assert Fits(s, i, s.callers[i].phase);
    assert !Enabled(s, Enter(i)) && !Enabled(s, Respond(i, Failure(0))) && !Enabled(s, Unlist(i))
      && !Enabled(s, Publish(i)) && !Enabled(s, Wake(i));
  }
}
