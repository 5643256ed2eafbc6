/** The per-stage circuit breaker in front of a provider. Every method body is one lock-protected
  region and so one atomic step; each reads a monotone clock. */
module CircuitBreaker {

  datatype Config = Config(window: nat, errorRate: real, threshold: nat, cooldown: real, probes: nat)

  /** What the configuration loader accepts. */
  predicate Accepted(c: Config) {
    c.window > 0 && 0.0 < c.errorRate <= 1.0 && c.threshold > 0 && c.cooldown >= 0.0 && c.probes > 0
  }

  datatype Mode = Closed | Open | HalfOpen

  /** `_state`, `_opened_at`, `_consecutive_retriable_errors`, `_recent_outcomes`,
      `_half_open_in_flight`, `_half_open_successes` */
  datatype Breaker = Breaker(mode: Mode, openedAt: real, errors: nat, recent: seq<bool>, inFlight: nat, successes: nat)

  datatype Outcome = Success | RetriableError | IgnoredFailure | QualityFailure

  function Pred(n: nat): nat { if n == 0 then 0 else n - 1 }

  /** Append to a deque of bounded length. */
  function Remember(c: Config, recent: seq<bool>, failed: bool): seq<bool> {
    if c.window == 0 then []
    else if |recent| < c.window then recent + [failed]
    else recent[|recent| - c.window + 1..] + [failed]
  }

  function Failures(recent: seq<bool>): nat {
    if recent == [] then 0 else (if recent[0] then 1 else 0) + Failures(recent[1..])
  }

  /** The window is full and too many of its outcomes are errors. */
  predicate ByRate(c: Config, recent: seq<bool>) {
    |recent| > 0 && |recent| >= c.window && (Failures(recent) as real) / (|recent| as real) >= c.errorRate
  }

  function TripOpen(b: Breaker, now: real): Breaker {
    b.(mode := Open, openedAt := now, inFlight := 0, successes := 0)
  }

  function Close(b: Breaker): Breaker {
    b.(mode := Closed, errors := 0, recent := [], inFlight := 0, successes := 0)
  }

  /** `allow_request` */
  function Allow(c: Config, b: Breaker, now: real): (bool, Breaker) {
    if b.mode == Open && now - b.openedAt < c.cooldown then (false, b)
    else
      var b1 := if b.mode == Open then b.(mode := HalfOpen, inFlight := 0, successes := 0) else b;
      if b1.mode != HalfOpen then (true, b1)
      else if b1.inFlight >= c.probes then (false, b1)
      else (true, b1.(inFlight := b1.inFlight + 1))
  }

  /** The four `record_*` methods. */
  function Record(c: Config, b: Breaker, o: Outcome, now: real): Breaker {
    match o
    case Success =>
      var b1 := b.(errors := 0, recent := Remember(c, b.recent, false));
      if b.mode != HalfOpen then b1
      else
        var b2 := b1.(inFlight := Pred(b.inFlight), successes := b.successes + 1);
        if b2.inFlight == 0 && b2.successes >= c.probes then Close(b2) else b2
    case RetriableError =>
      var b1 := b.(errors := b.errors + 1, recent := Remember(c, b.recent, true));
      if b.mode == HalfOpen then TripOpen(b1, now)
      else if b1.errors >= c.threshold || ByRate(c, b1.recent) then TripOpen(b1, now)
      else b1
    case IgnoredFailure =>
      b.(errors := 0, inFlight := if b.mode == HalfOpen then Pred(b.inFlight) else b.inFlight)
    case QualityFailure =>
      b.(inFlight := if b.mode == HalfOpen then Pred(b.inFlight) else b.inFlight)
  }

  const FRESH := Breaker(Closed, 0.0, 0, [], 0, 0)

  // ----- the object

  class BlackOPDProviderCircuitBreaker {
    const config: Config
    var mode: Mode
    var openedAt: real
    var errors: nat
    var recent: seq<bool>
    var inFlight: nat
    var successes: nat

    function Model(): Breaker
      reads this
    {
      Breaker(mode, openedAt, errors, recent, inFlight, successes)
    }

    constructor (c: Config)
      ensures config == c && Model() == FRESH
    {
      config := c;
      mode, openedAt, errors, recent, inFlight, successes := Closed, 0.0, 0, [], 0, 0;
    }

    method AllowRequest(now: real) returns (allowed: bool)
      modifies this
      ensures (allowed, Model()) == Allow(config, old(Model()), now)
    {
      if mode == Open {
        if now - openedAt < config.cooldown {
          return false;
        }
        mode, inFlight, successes := HalfOpen, 0, 0;
      }
      if mode == HalfOpen {
        if inFlight >= config.probes {
          return false;
        }
        inFlight := inFlight + 1;
      }
      return true;
    }

    method RecordSuccess(now: real)
      modifies this
      ensures Model() == Record(config, old(Model()), Success, now)
    {
      errors, recent := 0, Remember(config, recent, false);
      if mode == HalfOpen {
        inFlight := if inFlight == 0 then 0 else inFlight - 1;
        successes := successes + 1;
        if inFlight == 0 && successes >= config.probes {
          mode, errors, recent, inFlight, successes := Closed, 0, [], 0, 0;
        }
      }
    }

    method RecordRetriableError(now: real)
      requires Accepted(config)
      modifies this
      ensures Model() == Record(config, old(Model()), RetriableError, now)
    {
      errors, recent := errors + 1, Remember(config, recent, true);
      if mode == HalfOpen {
        OpenLocked(now);
        return;
      }
      var failures := CountFailures(recent);
      var byRate := |recent| >= config.window && (failures as real) / (|recent| as real) >= config.errorRate;
      if errors >= config.threshold || byRate {
        OpenLocked(now);
      }
    }

    method RecordIgnoredFailure(now: real)
      modifies this
      ensures Model() == Record(config, old(Model()), IgnoredFailure, now)
    {
      errors := 0;
      if mode == HalfOpen {
        inFlight := if inFlight == 0 then 0 else inFlight - 1;
      }
    }

    method RecordResponseQualityFailure(now: real)
      modifies this
      ensures Model() == Record(config, old(Model()), QualityFailure, now)
    {
      if mode == HalfOpen {
        inFlight := if inFlight == 0 then 0 else inFlight - 1;
      }
    }

    method OpenLocked(now: real)
      modifies this
      ensures Model() == TripOpen(old(Model()), now)
    {
      mode, openedAt, inFlight, successes := Open, now, 0, 0;
    }
  }

  /** `sum(self._recent_outcomes)` */
  method CountFailures(recent: seq<bool>) returns (n: nat)
    ensures n == Failures(recent)
  {
    n := 0;
    var i := |recent|;
    while i > 0
      invariant 0 <= i <= |recent| && n == Failures(recent[i..])
    {
      i := i - 1;
      assert recent[i..][1..] == recent[i + 1..];
      n := n + if recent[i] then 1 else 0;
    }
    assert recent[0..] == recent;
  }

  // ----- any interleaving of callers

  /** One atomic step of some caller: ask to be admitted, or record the outcome of the request
      it was admitted for as number `ticket` (a rejected caller records one too, see below). */
  datatype Op = Ask(now: real) | Report(outcome: Outcome, ticket: nat, now: real)

  /** The breaker with what a run has to remember about it: whether it has ever opened and when
      last, which half-open period it is in (0 before the first), the successes recorded in this
      period, the number of admissions, the admissions of this period still without an outcome,
      and the last clock reading. */
  datatype Run = Run(b: Breaker, everOpened: bool, lastOpened: real, period: nat,
                     wins: nat, admitted: nat, outstanding: set<nat>, clock: real)

  function Later(c: Config, r: Run, op: Op): Run {
    match op
    case Ask(now) =>
      var (allowed, b) := Allow(c, r.b, now);
      var newPeriod := r.b.mode == Open && b.mode == HalfOpen;
      var still := if newPeriod then {} else r.outstanding;
      r.(b := b, clock := now,
         period := if newPeriod then r.period + 1 else r.period,
         wins := if newPeriod then 0 else r.wins,
         admitted := if allowed then r.admitted + 1 else r.admitted,
         outstanding := if allowed && b.mode == HalfOpen then still + {r.admitted} else still)
    case Report(o, ticket, now) =>
      var b := Record(c, r.b, o, now);
      var reopened := b.mode == Open && (r.b.mode != Open || b.openedAt != r.b.openedAt);
      r.(b := b, clock := now,
         everOpened := r.everOpened || reopened,
         lastOpened := if reopened then now else r.lastOpened,
         wins := if o == Success && r.b.mode == HalfOpen then r.wins + 1 else r.wins,
         outstanding := if b.mode != HalfOpen then {} else r.outstanding - {ticket})
  }

  const BEGIN := Run(FRESH, false, 0.0, 0, 0, 0, {}, 0.0)

  predicate InOrder(r: Run, op: Op) { r.clock <= op.now }

  /** What every reachable state satisfies. */
  predicate Inv(c: Config, r: Run) {
    && r.b.inFlight <= c.probes
    && (r.b.mode != HalfOpen ==> r.b.inFlight == 0 && r.b.successes == 0 && r.outstanding == {})
    && (r.b.mode == Closed ==> r.b.errors < c.threshold)
    && |r.b.recent| <= c.window
    && (r.b.mode == HalfOpen ==> r.b.successes == r.wins)
    && (r.b.mode != Closed ==> r.everOpened)
    && (r.everOpened ==> r.lastOpened == r.b.openedAt <= r.clock)
    && (r.everOpened && r.b.mode != Open ==> r.clock >= r.lastOpened + c.cooldown)
    && (forall t :: t in r.outstanding ==> t < r.admitted)
  }

  lemma StepKeeps(c: Config, r: Run, op: Op)
    requires Accepted(c) && Inv(c, r) && InOrder(r, op)
    ensures Inv(c, Later(c, r, op))
  {
    hide Inv, Later, Allow, Record;
    match op
    case Ask(now) => AskKeeps(c, r, now);
    case Report(o, ticket, now) => ReportKeeps(c, r, o, ticket, now);
  }

  lemma AskKeeps(c: Config, r: Run, now: real)
    requires Accepted(c) && Inv(c, r) && r.clock <= now
    ensures Inv(c, Later(c, r, Ask(now)))
  {
    hide Record;
  }

  lemma ReportKeeps(c: Config, r: Run, o: Outcome, ticket: nat, now: real)
    requires Accepted(c) && Inv(c, r) && r.clock <= now
    ensures Inv(c, Later(c, r, Report(o, ticket, now)))
  {
    RememberBounded(c, r.b.recent, true);
    RememberBounded(c, r.b.recent, false);
    hide Remember, ByRate, Allow;
    match o
    case Success => SuccessKeeps(c, r, ticket, now);
    case RetriableError => ErrorKeeps(c, r, ticket, now);
    case IgnoredFailure =>
    case QualityFailure =>
  }

  lemma RememberBounded(c: Config, recent: seq<bool>, failed: bool)
    requires c.window > 0 && |recent| <= c.window
    ensures |Remember(c, recent, failed)| <= c.window
  {}

  lemma SuccessKeeps(c: Config, r: Run, ticket: nat, now: real)
    requires Accepted(c) && Inv(c, r) && r.clock <= now && |Remember(c, r.b.recent, false)| <= c.window
    ensures Inv(c, Later(c, r, Report(Success, ticket, now)))
  {
    hide Remember, Allow;
  }

  lemma ErrorKeeps(c: Config, r: Run, ticket: nat, now: real)
    requires Accepted(c) && Inv(c, r) && r.clock <= now && |Remember(c, r.b.recent, true)| <= c.window
    ensures Inv(c, Later(c, r, Report(RetriableError, ticket, now)))
  {
    hide Remember, ByRate, Allow;
  }

  ghost predicate History(c: Config, runs: seq<Run>, ops: seq<Op>) {
    && |runs| == |ops| + 1 && runs[0] == BEGIN
    && forall i {:trigger ops[i]} :: 0 <= i < |ops| ==>
         InOrder(runs[i], ops[i]) && runs[i + 1] == Later(c, runs[i], ops[i])
  }

  /** In every run: the probe counter stays within its limit, the probe counters are zero
      outside half-open, and fewer errors than the threshold have followed one another while
      the breaker is closed. */
  lemma {:induction false} HistoryInv(c: Config, runs: seq<Run>, ops: seq<Op>, i: nat)
    requires Accepted(c) && History(c, runs, ops) && i <= |ops|
    ensures Inv(c, runs[i])
  {
    if i > 0 {
      HistoryInv(c, runs, ops, i - 1);
      StepKeeps(c, runs[i - 1], ops[i - 1]);
    }
  }

  /** Nothing is admitted before the cooldown has passed since the breaker last opened. */
  lemma AdmitsAfterCooldown(c: Config, runs: seq<Run>, ops: seq<Op>, i: nat)
    requires Accepted(c) && History(c, runs, ops) && i < |ops| && ops[i].Ask?
    requires runs[i].everOpened && Allow(c, runs[i].b, ops[i].now).0
    ensures ops[i].now >= runs[i].lastOpened + c.cooldown
  {
    HistoryInv(c, runs, ops, i);
  }

  /** The breaker closes only on a success that brings the successes of the current half-open
      period up to the number of probes, with no probe left in flight. */
  lemma ClosesAfterEnoughWins(c: Config, runs: seq<Run>, ops: seq<Op>, i: nat)
    requires Accepted(c) && History(c, runs, ops) && i < |ops|
    requires runs[i].b.mode != Closed && runs[i + 1].b.mode == Closed
    ensures runs[i].b.mode == HalfOpen && ops[i].Report? && ops[i].outcome == Success
    ensures runs[i + 1].wins >= c.probes && runs[i].b.inFlight <= 1
  {
    HistoryInv(c, runs, ops, i);
    StepAt(c, runs, ops, i);
  }

  // ----- when the breaker opens, in terms of what has been reported

  /** The retriable errors among the first n operations since the last success or ignored failure. */
  function Streak(ops: seq<Op>, n: nat): nat
    requires n <= |ops|
  {
    if n == 0 then 0
    else match ops[n - 1]
      case Ask(_) => Streak(ops, n - 1)
      case Report(o, _, _) =>
        match o
        case Success => 0
        case IgnoredFailure => 0
        case QualityFailure => Streak(ops, n - 1)
        case RetriableError => Streak(ops, n - 1) + 1
  }

  /** The successes (false) and retriable errors (true) reported since the breaker last closed. */
  function Outcomes(runs: seq<Run>, ops: seq<Op>, n: nat): seq<bool>
    requires n <= |ops| < |runs|
  {
    if n == 0 || (runs[n - 1].b.mode != Closed && runs[n].b.mode == Closed) then []
    else
      var before := Outcomes(runs, ops, n - 1);
      if ops[n - 1].Report? && ops[n - 1].outcome == Success then before + [false]
      else if ops[n - 1].Report? && ops[n - 1].outcome == RetriableError then before + [true]
      else before
  }

  /** There are as many outcomes as the window takes, and of the last of them too many are errors. */
  predicate ManyErrors(c: Config, outcomes: seq<bool>) {
    c.window > 0 && |outcomes| >= c.window
    && (|set k | |outcomes| - c.window <= k < |outcomes| && outcomes[k]| as real) / (c.window as real) >= c.errorRate
  }

  /** The operation reports the error that opens the breaker, unless it is half-open. */
  predicate Trips(c: Config, runs: seq<Run>, ops: seq<Op>, i: nat)
    requires i < |ops| < |runs|
  {
    && ops[i].Report? && ops[i].outcome == RetriableError
    && (Streak(ops, i + 1) >= c.threshold || ManyErrors(c, Outcomes(runs, ops, i + 1)))
  }

  function LastOf(n: nat, s: seq<bool>): seq<bool> {
    if |s| <= n then s else s[|s| - n..]
  }

  /** What the breaker remembers is what has been reported. */
  lemma {:induction false} RemembersReports(c: Config, runs: seq<Run>, ops: seq<Op>, i: nat)
    requires Accepted(c) && History(c, runs, ops) && i <= |ops|
    ensures runs[i].b.errors == Streak(ops, i) && runs[i].b.recent == LastOf(c.window, Outcomes(runs, ops, i))
  {
    assert |runs| == |ops| + 1;
    hide History, Later, LastOf, Remember, Inv;
    if i == 0 {
      NoOutcomes(c.window);
      assert runs[0] == BEGIN by {
        BeginsAt(c, runs, ops);
      }
    } else {
      RemembersReports(c, runs, ops, i - 1);
      StepAt(c, runs, ops, i - 1);
      NextRemembered(c, runs[i - 1], ops[i - 1]);
      NoOutcomes(c.window);
      RecentLast(c, Outcomes(runs, ops, i - 1), false);
      RecentLast(c, Outcomes(runs, ops, i - 1), true);
    }
  }

  lemma BeginsAt(c: Config, runs: seq<Run>, ops: seq<Op>)
    requires History(c, runs, ops)
    ensures runs[0] == BEGIN
  {}

  lemma NextRemembered(c: Config, r: Run, op: Op)
    ensures Later(c, r, op).b.errors ==
      match op
      case Ask(_) => r.b.errors
      case Report(o, _, _) =>
        if o == RetriableError then r.b.errors + 1 else if o == QualityFailure then r.b.errors else 0
    ensures var r' := Later(c, r, op);
      r'.b.recent ==
        if r.b.mode != Closed && r'.b.mode == Closed then []
        else if op.Report? && op.outcome == Success then Remember(c, r.b.recent, false)
        else if op.Report? && op.outcome == RetriableError then Remember(c, r.b.recent, true)
        else r.b.recent
  {
    hide Remember, ByRate;
  }

  lemma NoOutcomes(n: nat)
    ensures LastOf(n, []) == []
  {}

  lemma RecentLast(c: Config, outcomes: seq<bool>, failed: bool)
    requires c.window > 0
    ensures Remember(c, LastOf(c.window, outcomes), failed) == LastOf(c.window, outcomes + [failed])
  {}

  lemma RateMeans(c: Config, outcomes: seq<bool>)
    requires Accepted(c)
    ensures ByRate(c, LastOf(c.window, outcomes)) <==> ManyErrors(c, outcomes)
  {
    if |outcomes| >= c.window {
      assert LastOf(c.window, outcomes) == outcomes[|outcomes| - c.window..];
      FailuresCount(outcomes, |outcomes| - c.window);
    }
  }

  /** Counting in a suffix. */
  lemma {:induction false} FailuresCount(s: seq<bool>, from: nat)
    requires from <= |s|
    ensures Failures(s[from..]) == |set k | from <= k < |s| && s[k]|
    decreases |s| - from
  {
    if from < |s| {
      FailuresCount(s, from + 1);
      assert s[from..][1..] == s[from + 1..];
      var all, rest := set k | from <= k < |s| && s[k], set k | from + 1 <= k < |s| && s[k];
      assert all == if s[from] then {from} + rest else rest;
    }
  }

  /** A closed breaker opens exactly when a retriable error is reported and either so many have
      followed one another or the window is full and too many of its outcomes are errors; a
      half-open one on any retriable error; an open one leaves that state exactly on a request
      after the cooldown. */
  lemma OpensExactly(c: Config, runs: seq<Run>, ops: seq<Op>, i: nat)
    requires Accepted(c) && History(c, runs, ops) && i < |ops|
    ensures runs[i].b.mode == Closed ==> runs[i + 1].b.mode == if Trips(c, runs, ops, i) then Open else Closed
    ensures runs[i].b.mode == HalfOpen ==>
      (runs[i + 1].b.mode == Open <==> ops[i].Report? && ops[i].outcome == RetriableError)
    ensures runs[i].b.mode == Open ==>
      runs[i + 1].b.mode == if ops[i].Ask? && ops[i].now - runs[i].lastOpened >= c.cooldown then HalfOpen else Open
    ensures runs[i + 1].lastOpened == runs[i].lastOpened || runs[i + 1].lastOpened == ops[i].now
    ensures runs[i + 1].b.mode == Open && (runs[i].b.mode != Open || Trips(c, runs, ops, i)) ==>
      runs[i + 1].lastOpened == ops[i].now
    ensures runs[i + 1].lastOpened != runs[i].lastOpened ==> runs[i].b.mode == HalfOpen || Trips(c, runs, ops, i)
  {
    HistoryInv(c, runs, ops, i);
    StepAt(c, runs, ops, i);
    RemembersReports(c, runs, ops, i);
    RemembersReports(c, runs, ops, i + 1);
    RateMeans(c, Outcomes(runs, ops, i + 1));
    hide History, Remember, Outcomes, Streak, LastOf, ManyErrors, ByRate, Inv;
    if ops[i].Report? && ops[i].outcome == RetriableError {
      ErrorTrips(c, runs[i], ops[i].ticket, ops[i].now);
      hide Later;
    } else {
      OthersTripNot(c, runs[i], ops[i]);
      hide Later;
    }
  }

  lemma OthersTripNot(c: Config, r: Run, op: Op)
    requires Accepted(c) && Inv(c, r) && InOrder(r, op) && !(op.Report? && op.outcome == RetriableError)
    ensures var r' := Later(c, r, op);
      && r'.lastOpened == r.lastOpened
      && (r.b.mode == Closed ==> r'.b.mode == Closed) && (r.b.mode == HalfOpen ==> r'.b.mode != Open)
      && (r.b.mode == Open ==>
            r'.b.mode == if op.Ask? && op.now - r.lastOpened >= c.cooldown then HalfOpen else Open)
  {
    hide Remember, ByRate;
  }

  lemma ErrorTrips(c: Config, r: Run, ticket: nat, now: real)
    requires Accepted(c) && Inv(c, r) && r.clock <= now
    ensures var r' := Later(c, r, Report(RetriableError, ticket, now));
      && r'.b.errors == r.b.errors + 1 && r'.b.recent == Remember(c, r.b.recent, true)
      && var trips := r.b.mode == HalfOpen || r'.b.errors >= c.threshold || ByRate(c, r'.b.recent);
         && r'.b.mode == (if trips then Open else r.b.mode)
         && r'.lastOpened == if trips then now else r.lastOpened
  {
    hide Remember, ByRate;
  }

  /** Who is let through: everybody while closed, after the cooldown the first caller, and then as
      many as there is room for among the probes outstanding. */
  lemma AdmitsExactly(c: Config, runs: seq<Run>, ops: seq<Op>, i: nat)
    requires Accepted(c) && History(c, runs, ops) && i < |ops| && ops[i].Ask? && MatchedBefore(c, runs, ops, i)
    ensures Allow(c, runs[i].b, ops[i].now).0 <==>
      match runs[i].b.mode
      case Closed => true
      case Open => ops[i].now - runs[i].lastOpened >= c.cooldown
      case HalfOpen => |runs[i].outstanding| < c.probes
    ensures runs[i + 1].admitted == runs[i].admitted + if Allow(c, runs[i].b, ops[i].now).0 then 1 else 0
  {
    HistoryInv(c, runs, ops, i);
    MatchedExact(c, runs, ops, i);
    StepAt(c, runs, ops, i);
    hide History;
  }

  /** A half-open breaker closes exactly on the success that completes the probes of the period and
      leaves no probe outstanding. */
  lemma ClosesExactly(c: Config, runs: seq<Run>, ops: seq<Op>, i: nat)
    requires Accepted(c) && History(c, runs, ops) && i < |ops| && MatchedBefore(c, runs, ops, i)
    requires runs[i].b.mode == HalfOpen
    ensures runs[i + 1].b.mode == Closed <==>
      ops[i].Report? && ops[i].outcome == Success && |runs[i].outstanding| <= 1 && runs[i].wins + 1 >= c.probes
  {
    HistoryInv(c, runs, ops, i);
    MatchedExact(c, runs, ops, i);
    StepAt(c, runs, ops, i);
    hide History, Remember, ByRate;
  }

  // ----- the probe limit

  /** The counter is the number of admitted probes without an outcome. */
  predicate Exact(r: Run) {
    r.b.mode == HalfOpen ==> r.b.inFlight == |r.outstanding|
  }

  /** A caller that holds no slot, while others do, reports in half-open only what ends the
      period: a retriable error, or the success that completes the probes. */
  predicate Matched(c: Config, r: Run, op: Op) {
    op.Report? && r.b.mode == HalfOpen && op.ticket !in r.outstanding && r.b.inFlight > 0 ==>
      || op.outcome == RetriableError
      || (op.outcome == Success && r.b.inFlight == 1 && r.b.successes + 1 >= c.probes)
  }

  lemma ExactStep(c: Config, r: Run, op: Op)
    requires Accepted(c) && Inv(c, r) && Exact(r)
    ensures Exact(Later(c, r, op)) <==> Matched(c, r, op)
  {
    hide Remember, Failures, Later, Matched, Inv;
    match op
    case Ask(now) => ExactAsk(c, r, now);
    case Report(o, ticket, now) => ExactReport(c, r, o, ticket, now);
  }

  lemma ExactAsk(c: Config, r: Run, now: real)
    requires Accepted(c) && Inv(c, r) && Exact(r)
    ensures Exact(Later(c, r, Ask(now))) && Matched(c, r, Ask(now))
  {}

  lemma ExactReport(c: Config, r: Run, o: Outcome, ticket: nat, now: real)
    requires Accepted(c) && Inv(c, r) && Exact(r)
    ensures Exact(Later(c, r, Report(o, ticket, now))) <==> Matched(c, r, Report(o, ticket, now))
  {}

  /** The half-open counter equals the probes really outstanding all through a run exactly when
      every outcome recorded in half-open is matched. */
  lemma {:induction false} ProbesCounted(c: Config, runs: seq<Run>, ops: seq<Op>)
    requires Accepted(c) && History(c, runs, ops)
    ensures (forall i :: 0 <= i < |runs| ==> Exact(runs[i])) <==>
            (forall i :: 0 <= i < |ops| ==> Matched(c, runs[i], ops[i]))
  {
    if forall i :: 0 <= i < |ops| ==> Matched(c, runs[i], ops[i]) {
      forall i | 0 <= i < |runs| ensures Exact(runs[i]) {
        MatchedExact(c, runs, ops, i);
      }
    } else {
      var i :| 0 <= i < |ops| && !Matched(c, runs[i], ops[i]);
      HistoryInv(c, runs, ops, i);
      if Exact(runs[i]) {
        ExactStep(c, runs[i], ops[i]);
      }
      assert !Exact(runs[i]) || !Exact(runs[i + 1]);
    }
  }

  /** Every outcome recorded before step i is matched. */
  predicate MatchedBefore(c: Config, runs: seq<Run>, ops: seq<Op>, i: nat)
    requires i <= |ops| < |runs|
  {
    forall k {:trigger ops[k]} :: 0 <= k < i ==> Matched(c, runs[k], ops[k])
  }

  lemma {:induction false} MatchedExact(c: Config, runs: seq<Run>, ops: seq<Op>, i: nat)
    requires Accepted(c) && History(c, runs, ops) && i <= |ops|
    requires MatchedBefore(c, runs, ops, i)
    ensures Exact(runs[i])
  {
    if i > 0 {
      MatchedExact(c, runs, ops, i - 1);
      HistoryInv(c, runs, ops, i - 1);
      ExactStep(c, runs[i - 1], ops[i - 1]);
    }
  }

  /** n more callers ask. */
  function Asks(c: Config, r: Run, n: nat, now: real): Run {
    if n == 0 then r else Later(c, Asks(c, r, n - 1, now), Ask(now))
  }

  /** However many callers ask next, and whenever: no more probes are outstanding than allowed. */
  ghost predicate LimitHolds(c: Config, r: Run) {
    forall n: nat, now: real :: r.clock <= now ==> |Asks(c, r, n, now).outstanding| <= c.probes
  }

  /** The probe limit holds all through a run, whoever asks next, exactly when every outcome
      recorded in half-open is matched. */
  lemma {:induction false} ProbeLimitExact(c: Config, runs: seq<Run>, ops: seq<Op>)
    requires Accepted(c) && History(c, runs, ops)
    ensures (forall i :: 0 <= i < |runs| ==> LimitHolds(c, runs[i])) <==>
            (forall i :: 0 <= i < |ops| ==> Matched(c, runs[i], ops[i]))
  {
    assert |runs| == |ops| + 1;
    hide History, LimitHolds, Matched, Exact, Inv, Later;
    if forall i :: 0 <= i < |ops| ==> Matched(c, runs[i], ops[i]) {
      forall i | 0 <= i < |runs| ensures LimitHolds(c, runs[i]) {
        MatchedExact(c, runs, ops, i);
        HistoryInv(c, runs, ops, i);
        ExactLimits(c, runs[i]);
      }
    } else {
      var k :| 0 <= k < |ops| && !Matched(c, runs[k], ops[k]);
      var i := FirstUnmatched(c, runs, ops, k);
      MatchedExact(c, runs, ops, i);
      HistoryInv(c, runs, ops, i);
      StepAt(c, runs, ops, i);
      StrayReportExceeds(c, runs[i], ops[i]);
      assert !LimitHolds(c, runs[i + 1]);
    }
  }

  lemma StepAt(c: Config, runs: seq<Run>, ops: seq<Op>, i: nat)
    requires History(c, runs, ops) && i < |ops|
    ensures |runs| == |ops| + 1 && InOrder(runs[i], ops[i]) && runs[i + 1] == Later(c, runs[i], ops[i])
  {}

  lemma FirstUnmatched(c: Config, runs: seq<Run>, ops: seq<Op>, k: nat) returns (i: nat)
    requires k < |ops| < |runs| && !Matched(c, runs[k], ops[k])
    ensures i <= k && !Matched(c, runs[i], ops[i])
    ensures forall l :: 0 <= l < i ==> Matched(c, runs[l], ops[l])
  {
    hide Matched;
    i := 0;
    while Matched(c, runs[i], ops[i])
      invariant i <= k && forall l :: 0 <= l < i ==> Matched(c, runs[l], ops[l])
      decreases k - i
    {
      i := i + 1;
    }
  }

  lemma ExactLimits(c: Config, r: Run)
    requires Accepted(c) && Inv(c, r) && Exact(r)
    ensures LimitHolds(c, r)
  {
    forall n: nat, now: real | r.clock <= now ensures |Asks(c, r, n, now).outstanding| <= c.probes {
      AsksStayExact(c, r, n, now);
    }
  }

  lemma {:induction false} AsksStayExact(c: Config, r: Run, n: nat, now: real)
    requires Accepted(c) && Inv(c, r) && Exact(r) && r.clock <= now
    ensures var r' := Asks(c, r, n, now);
      Inv(c, r') && Exact(r') && r'.clock <= now && |r'.outstanding| <= c.probes
  {
    if n > 0 {
      AsksStayExact(c, r, n - 1, now);
      var r' := Asks(c, r, n - 1, now);
      AskKeeps(c, r', now);
      ExactAsk(c, r', now);
    }
  }

  /** After one unmatched report there is room for one probe too many. */
  lemma StrayReportExceeds(c: Config, r: Run, op: Op)
    requires Accepted(c) && Inv(c, r) && Exact(r) && InOrder(r, op) && !Matched(c, r, op)
    ensures !LimitHolds(c, Later(c, r, op))
  {
    var r' := Later(c, r, op);
    StrayReport(c, r, op);
    var n := c.probes - r'.b.inFlight;
    AsksFill(c, r', n, r'.clock);
    assert |Asks(c, r', n, r'.clock).outstanding| > c.probes;
  }

  lemma StrayReport(c: Config, r: Run, op: Op)
    requires Accepted(c) && Inv(c, r) && Exact(r) && InOrder(r, op) && !Matched(c, r, op)
    ensures var r' := Later(c, r, op);
      && r'.b.mode == HalfOpen && r'.b.inFlight < c.probes && |r'.outstanding| == r'.b.inFlight + 1
      && forall t :: t in r'.outstanding ==> t < r'.admitted
  {
    hide Remember, Allow;
    assert r.outstanding - {op.ticket} == r.outstanding;
  }

  lemma {:induction false} AsksFill(c: Config, r: Run, n: nat, now: real)
    requires r.b.mode == HalfOpen && r.b.inFlight + n <= c.probes
    requires forall t :: t in r.outstanding ==> t < r.admitted
    ensures var r' := Asks(c, r, n, now);
      && r'.b.mode == HalfOpen && r'.b.inFlight == r.b.inFlight + n && |r'.outstanding| == |r.outstanding| + n
      && forall t :: t in r'.outstanding ==> t < r'.admitted
  {
    hide Record;
    if n > 0 {
      AsksFill(c, r, n - 1, now);
    }
  }

  // ----- probes whose outcome is never reported

  /** From step i on only callers that hold a slot report in half-open, and none of the lost ones. */
  ghost predicate OnlyHoldersReport(runs: seq<Run>, ops: seq<Op>, i: nat, lost: set<nat>)
    requires |runs| == |ops| + 1
  {
    forall k {:trigger ops[k]} :: i <= k < |ops| && ops[k].Report? && runs[k].b.mode == HalfOpen ==>
      ops[k].ticket in runs[k].outstanding && ops[k].ticket !in lost
  }

  /** The breaker has not closed, and the lost probes take up slots of their own. */
  predicate KeepsLost(c: Config, r: Run, lost: set<nat>) {
    && r.b.mode != Closed
    && |r.outstanding - lost| + |lost| <= c.probes
    && (r.b.mode == HalfOpen ==> Exact(r) && lost <= r.outstanding)
  }

  /** A probe that never reports keeps its slot: in the rest of its half-open period the breaker
      does not close, and so many probes fewer are let through. */
  lemma LostProbesHold(c: Config, runs: seq<Run>, ops: seq<Op>, i: nat, j: nat, lost: set<nat>)
    requires Accepted(c) && History(c, runs, ops) && i <= j <= |ops|
    requires MatchedBefore(c, runs, ops, i)
    requires lost != {} && lost <= runs[i].outstanding && OnlyHoldersReport(runs, ops, i, lost)
    requires runs[j].period == runs[i].period
    ensures KeepsLost(c, runs[j], lost)
  {
    assert |runs| == |ops| + 1;
    hide History, Matched, Exact, Later, Inv, OnlyHoldersReport, KeepsLost;
    HistoryInv(c, runs, ops, i);
    MatchedExact(c, runs, ops, i);
    LostFit(c, runs[i], lost);
    LostKept(c, runs, ops, i, j, lost);
  }

  lemma {:induction false} LostKept(c: Config, runs: seq<Run>, ops: seq<Op>, i: nat, j: nat, lost: set<nat>)
    requires Accepted(c) && History(c, runs, ops) && i <= j <= |ops|
    requires lost != {} && KeepsLost(c, runs[i], lost) && OnlyHoldersReport(runs, ops, i, lost)
    requires runs[j].period == runs[i].period
    ensures KeepsLost(c, runs[j], lost)
  {
    assert |runs| == |ops| + 1;
    hide *;
    if i < j {
      SamePeriod(c, runs, ops, i, j);
      LostKept(c, runs, ops, i, j - 1, lost);
      LostNext(c, runs, ops, i, j, lost);
    }
  }

  /** Once as many probes as allowed have been lost, the breaker lets nobody through any more. */
  lemma {:induction false} LostProbesBlock(c: Config, runs: seq<Run>, ops: seq<Op>, i: nat, j: nat, lost: set<nat>)
    requires Accepted(c) && History(c, runs, ops) && i <= j < |ops|
    requires MatchedBefore(c, runs, ops, i)
    requires |lost| == c.probes && lost <= runs[i].outstanding && OnlyHoldersReport(runs, ops, i, lost)
    ensures ops[j].Ask? && !Allow(c, runs[j].b, ops[j].now).0 && runs[j + 1].b == runs[i].b
    ensures runs[j + 1].outstanding == lost
  {
    hide History, Matched, Exact, Later, Inv;
    HistoryInv(c, runs, ops, i);
    MatchedExact(c, runs, ops, i);
    StepAt(c, runs, ops, j);
    AllLost(c, runs[i], lost);
    if i < j {
      LostProbesBlock(c, runs, ops, i, j - 1, lost);
    }
    BlockedStep(c, runs[j], ops[j], lost);
  }

  lemma AllLost(c: Config, r: Run, lost: set<nat>)
    requires Accepted(c) && Inv(c, r) && Exact(r) && |lost| == c.probes && lost <= r.outstanding
    ensures r.b.mode == HalfOpen && r.b.inFlight == c.probes && r.outstanding == lost
  {
    LostFit(c, r, lost);
    assert r.outstanding == r.outstanding - lost + lost;
  }

  lemma BlockedStep(c: Config, r: Run, op: Op, lost: set<nat>)
    requires r.b.mode == HalfOpen && r.b.inFlight == c.probes && r.outstanding == lost
    requires op.Report? ==> op.ticket in r.outstanding && op.ticket !in lost
    ensures op.Ask? && !Allow(c, r.b, op.now).0
    ensures Later(c, r, op).b == r.b && Later(c, r, op).outstanding == lost
  {}

  lemma SamePeriod(c: Config, runs: seq<Run>, ops: seq<Op>, i: nat, j: nat)
    requires History(c, runs, ops) && i < j <= |ops| && runs[j].period == runs[i].period
    ensures runs[j - 1].period == runs[i].period
  {
    assert |runs| == |ops| + 1;
    hide History;
    PeriodsGrow(c, runs, ops, i, j - 1);
    PeriodsGrow(c, runs, ops, j - 1, j);
  }

  lemma LostNext(c: Config, runs: seq<Run>, ops: seq<Op>, i: nat, j: nat, lost: set<nat>)
    requires Accepted(c) && History(c, runs, ops) && OnlyHoldersReport(runs, ops, i, lost) && i < j <= |ops|
    requires lost != {} && runs[j].period == runs[j - 1].period && KeepsLost(c, runs[j - 1], lost)
    ensures KeepsLost(c, runs[j], lost)
  {
    hide KeepsLost, Exact, Later, Inv;
    HistoryInv(c, runs, ops, j - 1);
    StepAt(c, runs, ops, j - 1);
    LostStep(c, runs[j - 1], ops[j - 1], lost);
  }

  lemma LostFit(c: Config, r: Run, lost: set<nat>)
    requires Inv(c, r) && Exact(r) && lost != {} && lost <= r.outstanding
    ensures r.b.mode == HalfOpen && |lost| <= |r.outstanding| <= c.probes
    ensures |r.outstanding - lost| + |lost| == |r.outstanding| && KeepsLost(c, r, lost)
  {
    SubsetSize(lost, r.outstanding);
  }

  lemma SubsetSize(a: set<nat>, b: set<nat>)
    requires a <= b
    ensures |b| == |b - a| + |a|
  {
    assert b == (b - a) + a;
  }

  lemma {:induction false} PeriodsGrow(c: Config, runs: seq<Run>, ops: seq<Op>, i: nat, j: nat)
    requires History(c, runs, ops) && i <= j <= |ops|
    ensures runs[i].period <= runs[j].period
  {
    if i < j {
      PeriodsGrow(c, runs, ops, i, j - 1);
      StepAt(c, runs, ops, j - 1);
      hide History;
    }
  }

  lemma LostStep(c: Config, r: Run, op: Op, lost: set<nat>)
    requires Accepted(c) && Inv(c, r) && InOrder(r, op) && Later(c, r, op).period == r.period
    requires lost != {} && KeepsLost(c, r, lost)
    requires op.Report? && r.b.mode == HalfOpen ==> op.ticket in r.outstanding && op.ticket !in lost
    ensures KeepsLost(c, Later(c, r, op), lost)
  {
    var r' := Later(c, r, op);
    StepKeeps(c, r, op);
    LostStays(c, r, op, lost);
    if r'.b.mode == HalfOpen {
      LostFit(c, r', lost);
    }
    hide Later;
    assert r'.b.mode != HalfOpen ==> r'.outstanding - lost == {};
  }

  lemma LostStays(c: Config, r: Run, op: Op, lost: set<nat>)
    requires Accepted(c) && Inv(c, r) && Later(c, r, op).period == r.period
    requires lost != {} && r.b.mode != Closed
    requires r.b.mode == HalfOpen ==> Exact(r) && lost <= r.outstanding
    requires op.Report? && r.b.mode == HalfOpen ==> op.ticket in r.outstanding && op.ticket !in lost
    ensures var r' := Later(c, r, op);
      r'.b.mode != Closed && (r'.b.mode == HalfOpen ==> Exact(r') && lost <= r'.outstanding)
  {
    if r.b.mode == HalfOpen {
      assert Matched(c, r, op);
      ExactStep(c, r, op);
    }
    match op
    case Ask(now) => AskKeepsLost(c, r, now, lost);
    case Report(o, t, now) =>
      if r.b.mode == HalfOpen {
        TwoHeld(r, t, lost);
      }
      ReportKeepsLost(c, r, o, t, now, lost);
    hide Inv, Later, Matched;
  }

  lemma AskKeepsLost(c: Config, r: Run, now: real, lost: set<nat>)
    requires r.b.mode != Closed && Later(c, r, Ask(now)).period == r.period
    requires r.b.mode == HalfOpen ==> lost <= r.outstanding
    ensures var r' := Later(c, r, Ask(now));
      r'.b.mode == r.b.mode && (r'.b.mode == HalfOpen ==> lost <= r'.outstanding)
  {
    hide Record;
  }

  lemma ReportKeepsLost(c: Config, r: Run, o: Outcome, t: nat, now: real, lost: set<nat>)
    requires r.b.mode != Closed
    requires r.b.mode == HalfOpen ==> r.b.inFlight >= 2 && t !in lost && lost <= r.outstanding
    ensures var r' := Later(c, r, Report(o, t, now));
      r'.b.mode != Closed && (r'.b.mode == HalfOpen ==> r.b.mode == HalfOpen && lost <= r'.outstanding)
  {
    hide Allow, Remember, ByRate;
  }

  lemma TwoHeld(r: Run, t: nat, lost: set<nat>)
    requires r.b.mode == HalfOpen && Exact(r) && lost != {} && lost <= r.outstanding && t in r.outstanding - lost
    ensures r.b.inFlight >= 2
  {
    SubsetSize(lost + {t}, r.outstanding);
    assert |lost| >= 1 && |lost + {t}| == |lost| + 1;
  }

  /** What the client does breaks that condition: a caller the breaker turns away still records
      an ignored failure, which frees the slot of a probe that is in flight. Here two probes
      are outstanding under a limit of one. */
  lemma RejectionFreesSlot()
    ensures var c := Config(20, 0.5, 1, 1.0, 1);
      var r1 := Later(c, BEGIN, Ask(0.0));
      var r2 := Later(c, r1, Report(RetriableError, 0, 0.0));
      var r3 := Later(c, r2, Ask(1.0));
      var turnedAway := !Allow(c, r3.b, 1.0).0;
      var r4 := Later(c, r3, Ask(1.0));
      var r5 := Later(c, r4, Report(IgnoredFailure, 7, 1.0));
      var r6 := Later(c, r5, Ask(1.0));
      turnedAway && r6.b.mode == HalfOpen && r6.outstanding == {1, 2} && |r6.outstanding| > c.probes
  {}
}
