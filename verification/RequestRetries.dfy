/** The two nested retry loops of a judge request, with their counters: transport failures are
  retried inside `_execute_with_retry`, unusable responses in `_create_text_direct`. */
module RequestRetries {
  import opened Arithmetic
  import CB = CircuitBreaker

  /** What went wrong with a response, by the retry budget that covers it. */
  datatype Kind = EmptyResponse | Incomplete | ParseError | SchemaError | ValidationError | OtherError

  datatype Status = NoStatus | Completed | IncompleteStatus | OtherStatus

  /** What the output validator does with the text. */
  datatype Verdict = Valid(output: string) | Invalid(kind: Kind) | ValidatorCrash

  datatype TransportError = Timeout | Connection | HttpStatus(code: int) | ClientError(retriable: bool, timeout: bool)

  /** What happens to one attempt: the breaker turns it away, the transport fails, something
      else is raised, or a response arrives, with its text stripped. */
  datatype Attempt =
    | Rejected
    | Failed(error: TransportError)
    | Crashed
    | Responded(apiError: bool, status: Status, text: string, verdict: Verdict)

  const TRANSIENT_HTTP_STATUS_CODES: set<int> := {408, 429, 500, 502, 503, 504}

  predicate Retriable(e: TransportError) {
    match e
    case Timeout => true
    case Connection => true
    case HttpStatus(code) => code in TRANSIENT_HTTP_STATUS_CODES
    case ClientError(retriable, _) => retriable
  }

  predicate TimedOut(e: TransportError) { e.Timeout? || (e.ClientError? && e.timeout) }

  /** One number for each kind of failure that may be retried: the budgets, and the counters. */
  datatype Counts = Counts(empty: nat, incomplete: nat, parse: nat, schema: nat, validation: nat)

  function Of(c: Counts, k: Kind): nat {
    match k
    case EmptyResponse => c.empty
    case Incomplete => c.incomplete
    case ParseError => c.parse
    case SchemaError => c.schema
    case ValidationError => c.validation
    case OtherError => 0
  }

  function Bump(c: Counts, k: Kind): Counts {
    match k
    case EmptyResponse => c.(empty := c.empty + 1)
    case Incomplete => c.(incomplete := c.incomplete + 1)
    case ParseError => c.(parse := c.parse + 1)
    case SchemaError => c.(schema := c.schema + 1)
    case ValidationError => c.(validation := c.validation + 1)
    case OtherError => c
  }

  function Sum(c: Counts): nat { c.empty + c.incomplete + c.parse + c.schema + c.validation }

  const NO_COUNTS := Counts(0, 0, 0, 0, 0)

  datatype Policy = Policy(maxRetries: nat, budgets: Counts)

  function Budget(p: Policy, k: Kind): nat { Of(p.budgets, k) }

  /** What an attempt amounts to. */
  datatype Class = Good(output: string) | Crash | Error(retriable: bool) | Poor(kind: Kind)

  function ClassOf(a: Attempt): Class {
    match a
    case Rejected => Error(false)
    case Failed(e) => Error(Retriable(e))
    case Crashed => Crash
    case Responded(apiError, status, text, verdict) =>
      if apiError then Error(false)
      else if status == IncompleteStatus then Poor(Incomplete)
      else if status == OtherStatus || text == [] then Poor(EmptyResponse)
      else match verdict
        case Valid(output) => Good(output)
        case Invalid(k) => Poor(if k == EmptyResponse || k == Incomplete then OtherError else k)
        case ValidatorCrash => Crash
  }

  // ----- what the attempts are, said without classes

  /** A failure of the transport or the provider that may pass. */
  predicate Transient(a: Attempt) {
    || a == Failed(Timeout) || a == Failed(Connection)
    || (a.Failed? && a.error.HttpStatus? && a.error.code in {408, 429, 500, 502, 503, 504})
    || (a.Failed? && a.error.ClientError? && a.error.retriable)
  }

  /** A complete response with some text. */
  predicate HasText(a: Attempt) {
    a.Responded? && !a.apiError && (a.status == NoStatus || a.status == Completed) && a.text != []
  }

  /** The validator accepts the response. */
  predicate Usable(a: Attempt) { HasText(a) && a.verdict.Valid? }

  /** The response cannot be used, for this reason. */
  predicate Unusable(a: Attempt, k: Kind) {
    match k
    case Incomplete => a.Responded? && !a.apiError && a.status == IncompleteStatus
    case EmptyResponse =>
      && a.Responded? && !a.apiError
      && (a.status == OtherStatus || ((a.status == NoStatus || a.status == Completed) && a.text == []))
    case OtherError =>
      HasText(a) && a.verdict.Invalid? && a.verdict.kind !in {ParseError, SchemaError, ValidationError}
    case _ => HasText(a) && a.verdict == Invalid(k)
  }

  /** An exception that is no client error escapes. */
  predicate Escapes(a: Attempt) { a.Crashed? || (HasText(a) && a.verdict.ValidatorCrash?) }

  /** The attempt fails in a way that is never retried. */
  predicate Final(a: Attempt) {
    a.Rejected? || (a.Failed? && !Transient(a)) || (a.Responded? && a.apiError)
  }

  lemma ClassMeans(a: Attempt)
    ensures ClassOf(a) == Error(true) <==> Transient(a)
    ensures ClassOf(a) == Error(false) <==> Final(a)
    ensures ClassOf(a) == Crash <==> Escapes(a)
    ensures ClassOf(a).Good? <==> Usable(a)
    ensures Usable(a) ==> ClassOf(a).output == a.verdict.output
    ensures forall k :: ClassOf(a) == Poor(k) <==> Unusable(a, k)
  {}

  // ----- which attempts a call makes

  function Seen(trace: seq<Attempt>, k: Kind): nat {
    if trace == [] then 0
    else Seen(trace[..|trace| - 1], k) + if ClassOf(trace[|trace| - 1]) == Poor(k) then 1 else 0
  }

  /** Transport failures that ended the trace in one go. */
  function Trailing(trace: seq<Attempt>): nat {
    if trace == [] || ClassOf(trace[|trace| - 1]) != Error(true) then 0 else 1 + Trailing(trace[..|trace| - 1])
  }

  /** The call is over after these attempts. */
  predicate Stops(p: Policy, trace: seq<Attempt>)
    requires trace != []
  {
    match ClassOf(trace[|trace| - 1])
    case Good(_) => true
    case Crash => true
    case Error(retriable) => !retriable || Trailing(trace) > p.maxRetries
    case Poor(k) => Seen(trace, k) > Budget(p, k)
  }

  /** The call goes on after each of these attempts. */
  predicate GoesOn(p: Policy, trace: seq<Attempt>) {
    forall k :: 0 < k <= |trace| ==> !Stops(p, trace[..k])
  }

  /** A whole call: it stops after its last attempt and not before. */
  predicate Call(p: Policy, trace: seq<Attempt>) {
    trace != [] && Stops(p, trace) && GoesOn(p, trace[..|trace| - 1])
  }

  /** How many of the first n attempts got a response that cannot be used, for this reason. */
  function Count(trace: seq<Attempt>, n: nat, k: Kind): nat
    requires n <= |trace|
  {
    |set i | 0 <= i < n && Unusable(trace[i], k)|
  }

  /** The retries of the response's kind are used up. */
  predicate Spent(p: Policy, trace: seq<Attempt>, n: nat)
    requires 0 < n <= |trace|
  {
    var (a, b) := (trace[n - 1], p.budgets);
    || (Unusable(a, EmptyResponse) && Count(trace, n, EmptyResponse) > b.empty)
    || (Unusable(a, Incomplete) && Count(trace, n, Incomplete) > b.incomplete)
    || (Unusable(a, ParseError) && Count(trace, n, ParseError) > b.parse)
    || (Unusable(a, SchemaError) && Count(trace, n, SchemaError) > b.schema)
    || (Unusable(a, ValidationError) && Count(trace, n, ValidationError) > b.validation)
    || Unusable(a, OtherError)
  }

  /** The last of n attempts, and max_retries before it, all failed in passing. */
  predicate RetriedOut(p: Policy, trace: seq<Attempt>, n: nat)
    requires n <= |trace|
  {
    n > p.maxRetries && forall i :: n - 1 - p.maxRetries <= i < n ==> Transient(trace[i])
  }

  predicate Ends(p: Policy, trace: seq<Attempt>, n: nat)
    requires 0 < n <= |trace|
  {
    var a := trace[n - 1];
    Usable(a) || Escapes(a) || Final(a) || RetriedOut(p, trace, n) || Spent(p, trace, n)
  }

  /** The trace is a whole call: it ends with its last attempt and not before. */
  ghost predicate WholeCall(p: Policy, trace: seq<Attempt>) {
    trace != [] && Ends(p, trace, |trace|) && forall n :: 0 < n < |trace| ==> !Ends(p, trace, n)
  }

  /** A call ends with the first attempt that succeeds, fails for good, or uses up its retries. */
  lemma CallMeans(p: Policy, trace: seq<Attempt>)
    ensures Call(p, trace) <==> WholeCall(p, trace)
  {
    forall n | 0 < n <= |trace| ensures Stops(p, trace[..n]) <==> Ends(p, trace, n) {
      StopsMeans(p, trace, n);
    }
    hide Stops, Ends;
    if trace != [] {
      var m := |trace| - 1;
      assert trace[..|trace|] == trace;
      assert forall n :: 0 < n <= m ==> trace[..m][..n] == trace[..n];
    }
  }

  lemma StopsMeans(p: Policy, trace: seq<Attempt>, n: nat)
    requires 0 < n <= |trace|
    ensures Stops(p, trace[..n]) <==> Ends(p, trace, n)
  {
    var t, a := trace[..n], trace[n - 1];
    assert t[|t| - 1] == a;
    ClassMeans(a);
    TrailingMeans(p, trace, n);
    forall k ensures Seen(t, k) == Count(trace, n, k) {
      SeenCounts(trace, n, k);
    }
    hide Trailing, Seen, Count, Unusable, Usable, Transient, Final, Escapes, ClassOf;
    match ClassOf(a)
    case Poor(k) =>
      OneKind(a, k);
      if k == OtherError {
        CountsLast(trace, n, k);
      }
    case Error(b) =>
      assert ClassOf(a) == Error(b);
      NotPoor(p, trace, n);
    case Crash =>
    case Good(_) =>
  }

  lemma NotPoor(p: Policy, trace: seq<Attempt>, n: nat)
    requires 0 < n <= |trace| && ClassOf(trace[n - 1]).Error?
    ensures !Spent(p, trace, n)
  {
    ClassMeans(trace[n - 1]);
  }

  lemma OneKind(a: Attempt, k: Kind)
    requires Unusable(a, k)
    ensures forall l :: Unusable(a, l) <==> l == k
    ensures !Usable(a) && !Escapes(a) && !Final(a) && !Transient(a)
  {}

  lemma CountsLast(trace: seq<Attempt>, n: nat, k: Kind)
    requires 0 < n <= |trace| && Unusable(trace[n - 1], k)
    ensures Count(trace, n, k) > 0
  {
    CountNext(trace, n, k);
  }

  lemma CountNext(trace: seq<Attempt>, n: nat, k: Kind)
    requires 0 < n <= |trace|
    ensures Count(trace, n, k) == Count(trace, n - 1, k) + if Unusable(trace[n - 1], k) then 1 else 0
  {
    hide Unusable;
    var all := set i | 0 <= i < n && Unusable(trace[i], k);
    var before := set i | 0 <= i < n - 1 && Unusable(trace[i], k);
    assert all == if Unusable(trace[n - 1], k) then before + {n - 1} else before;
  }

  lemma {:induction false} SeenCounts(trace: seq<Attempt>, n: nat, k: Kind)
    requires n <= |trace|
    ensures Seen(trace[..n], k) == Count(trace, n, k)
  {
    hide Unusable, ClassOf, Count;
    if n == 0 {
      NoCount(trace, k);
    } else {
      SeenCounts(trace, n - 1, k);
      CountNext(trace, n, k);
      ClassMeans(trace[n - 1]);
      assert trace[..n][..n - 1] == trace[..n - 1];
    }
  }

  lemma NoCount(trace: seq<Attempt>, k: Kind)
    ensures Count(trace, 0, k) == 0
  {}

  lemma {:induction false} TrailingMeans(p: Policy, trace: seq<Attempt>, n: nat)
    requires n <= |trace|
    ensures Trailing(trace[..n]) <= n
    ensures forall i :: n - Trailing(trace[..n]) <= i < n ==> Transient(trace[i])
    ensures Trailing(trace[..n]) < n ==> !Transient(trace[n - 1 - Trailing(trace[..n])])
    ensures Trailing(trace[..n]) > p.maxRetries <==> RetriedOut(p, trace, n)
  {
    hide Transient, ClassOf;
    if n > 0 {
      ClassMeans(trace[n - 1]);
      TrailingMeans(p, trace, n - 1);
      assert trace[..n][..n - 1] == trace[..n - 1];
    }
  }

  datatype Result = Output(text: string) | Raised(kind: Class)

  function ResultOf(a: Attempt): Result {
    match ClassOf(a)
    case Good(o) => Output(o)
    case c => Raised(c)
  }

  // ----- what a call counts

  /** A stage's counters, and the outcomes it records at its breaker. */
  datatype Metrics = Metrics(started: nat, rejections: nat, succeeded: nat, failed: nat, retries: nat,
                             timeouts: nat, retriable: nat, reports: seq<CB.Outcome>)

  const ZERO := Metrics(0, 0, 0, 0, 0, 0, 0, [])

  function Plus(a: Metrics, b: Metrics): Metrics {
    Metrics(a.started + b.started, a.rejections + b.rejections, a.succeeded + b.succeeded, a.failed + b.failed,
            a.retries + b.retries, a.timeouts + b.timeouts, a.retriable + b.retriable, a.reports + b.reports)
  }

  function Sent(a: Attempt): Metrics {
    if a.Rejected? then ZERO.(rejections := 1) else ZERO.(started := 1)
  }

  function Settled(a: Attempt): Metrics {
    match ClassOf(a)
    case Good(_) => ZERO.(succeeded := 1, reports := [CB.Success])
    case Crash => ZERO
    case Error(retriable) =>
      ZERO.(failed := 1, timeouts := if a.Failed? && TimedOut(a.error) then 1 else 0,
            retriable := if retriable then 1 else 0,
            reports := [if retriable then CB.RetriableError else CB.IgnoredFailure])
    case Poor(_) => ZERO.(failed := 1, reports := [CB.QualityFailure])
  }

  /** All an attempt counts. */
  function One(a: Attempt): Metrics { Plus(Sent(a), Settled(a)) }

  /** Everything the attempts count, retries aside. */
  function Tally(trace: seq<Attempt>): Metrics {
    if trace == [] then ZERO
    else Plus(Tally(trace[..|trace| - 1]), One(trace[|trace| - 1]))
  }

  function Retried(m: Metrics, n: nat): Metrics { m.(retries := m.retries + n) }

  lemma PlusAssociative(a: Metrics, b: Metrics, c: Metrics)
    ensures Plus(Plus(a, b), c) == Plus(a, Plus(b, c))
  {}

  lemma {:induction false} TallyConcat(s: seq<Attempt>, t: seq<Attempt>)
    ensures Tally(s + t) == Plus(Tally(s), Tally(t))
  {
    hide One, Plus;
    if t == [] {
      assert s + t == s;
      PlusZero(Tally(s));
    } else {
      var n := |t| - 1;
      assert (s + t)[..|s + t| - 1] == s + t[..n];
      TallyConcat(s, t[..n]);
      PlusAssociative(Tally(s), Tally(t[..n]), One(t[n]));
    }
  }

  predicate CrashedOut(a: Attempt) { ClassOf(a) == Crash }

  function Crashes(trace: seq<Attempt>): nat {
    if trace == [] then 0 else Crashes(trace[..|trace| - 1]) + if CrashedOut(trace[|trace| - 1]) then 1 else 0
  }

  /** Every attempt is counted once when it starts (or is turned away) and once when it ends, and
      reports one outcome to the breaker, unless an exception that is no client error escapes. */
  lemma {:induction false} TallyBalances(trace: seq<Attempt>)
    ensures Tally(trace).started + Tally(trace).rejections == |trace|
    ensures Tally(trace).succeeded + Tally(trace).failed + Crashes(trace) == |trace|
    ensures |Tally(trace).reports| + Crashes(trace) == |trace|
    ensures Tally(trace).retries == 0 && Tally(trace).timeouts + Tally(trace).rejections <= Tally(trace).failed
  {
    hide Plus, One, CrashedOut;
    if trace != [] {
      var n := |trace| - 1;
      OneBalances(trace[n]);
      TallyBalances(trace[..n]);
      PlusFields(Tally(trace[..n]), One(trace[n]));
    }
  }

  lemma OneBalances(a: Attempt)
    ensures One(a).started + One(a).rejections == 1
    ensures One(a).rejections == if a.Rejected? then 1 else 0
    ensures One(a).succeeded + One(a).failed + (if CrashedOut(a) then 1 else 0) == 1
    ensures One(a).succeeded == if ClassOf(a).Good? then 1 else 0
    ensures |One(a).reports| + (if CrashedOut(a) then 1 else 0) == 1
    ensures One(a).retries == 0 && One(a).timeouts + One(a).rejections <= One(a).failed
  {
    PlusFields(Sent(a), Settled(a));
    hide Plus, Retriable, TimedOut;
  }

  lemma PlusFields(a: Metrics, b: Metrics)
    ensures var m := Plus(a, b);
      && m.started == a.started + b.started && m.rejections == a.rejections + b.rejections
      && m.succeeded == a.succeeded + b.succeeded && m.failed == a.failed + b.failed
      && m.retries == a.retries + b.retries && m.timeouts == a.timeouts + b.timeouts
      && m.retriable == a.retriable + b.retriable
      && |m.reports| == |a.reports| + |b.reports|
  {}

  lemma {:induction false} NoCrashWhileGoingOn(p: Policy, trace: seq<Attempt>)
    requires GoesOn(p, trace)
    ensures Crashes(trace) == 0 && forall k :: 0 <= k < |trace| ==> !trace[k].Rejected? && !ClassOf(trace[k]).Good?
  {
    if trace != [] {
      var n := |trace| - 1;
      assert !Stops(p, trace[..|trace|]) && trace[..|trace|] == trace;
      GoesOnBefore(p, trace, n);
      NoCrashWhileGoingOn(p, trace[..n]);
    }
  }

  lemma GoesOnBefore(p: Policy, trace: seq<Attempt>, n: nat)
    requires GoesOn(p, trace) && n <= |trace|
    ensures GoesOn(p, trace[..n])
  {
    forall k | 0 < k <= n ensures !Stops(p, trace[..n][..k]) {
      assert trace[..n][..k] == trace[..k];
    }
  }

  /** Only the last attempt of a call can be a good response, a rejection or a crash; so a call
      that returns counts one success and fails otherwise, and a call that crashes leaves one
      attempt started and never settled. */
  lemma CallBalances(p: Policy, trace: seq<Attempt>)
    requires Call(p, trace)
    ensures var m := Tally(trace); var last := ClassOf(trace[|trace| - 1]);
      && m.started + m.rejections == m.succeeded + m.failed + (if last == Crash then 1 else 0)
      && m.succeeded == (if last.Good? then 1 else 0)
      && m.rejections == (if trace[|trace| - 1].Rejected? then 1 else 0)
  {
    hide GoesOn, Plus, One, ClassOf;
    var n := |trace| - 1;
    NoCrashWhileGoingOn(p, trace[..n]);
    TallyBalances(trace);
    NoSuccess(trace[..n]);
    OneBalances(trace[n]);
    PlusFields(Tally(trace[..n]), One(trace[n]));
  }

  lemma {:induction false} NoSuccess(trace: seq<Attempt>)
    requires forall k :: 0 <= k < |trace| ==> !trace[k].Rejected? && !ClassOf(trace[k]).Good?
    ensures Tally(trace).succeeded == 0 && Tally(trace).rejections == 0
  {
    hide Plus, One, ClassOf;
    if trace != [] {
      var n := |trace| - 1;
      NoSuccess(trace[..n]);
      OneBalances(trace[n]);
      PlusFields(Tally(trace[..n]), One(trace[n]));
    }
  }

  // ----- what a call counts and reports, said without classes

  predicate Sends(a: Attempt) { !a.Rejected? }

  predicate Fails(a: Attempt) { !Usable(a) && !Escapes(a) }

  predicate RunsOutOfTime(a: Attempt) {
    a.Failed? && (a.error == Timeout || (a.error.ClientError? && a.error.timeout))
  }

  /** What an attempt tells the breaker: a failure that may pass is a retriable error, a rejection or
      another failure is ignored, and a response is a success or of poor quality. */
  predicate Reported(a: Attempt, o: CB.Outcome) {
    match a
    case Rejected => o == CB.IgnoredFailure
    case Crashed => false
    case Failed(Timeout) => o == CB.RetriableError
    case Failed(Connection) => o == CB.RetriableError
    case Failed(HttpStatus(code)) =>
      o == if code in {408, 429, 500, 502, 503, 504} then CB.RetriableError else CB.IgnoredFailure
    case Failed(ClientError(retriable, _)) => o == if retriable then CB.RetriableError else CB.IgnoredFailure
    case Responded(apiError, _, _, _) =>
      if apiError then o == CB.IgnoredFailure
      else if Usable(a) then o == CB.Success
      else !Escapes(a) && o == CB.QualityFailure
  }

  function HowMany(trace: seq<Attempt>, f: Attempt -> bool): nat {
    |set i | 0 <= i < |trace| && f(trace[i])|
  }

  lemma HowManyNext(trace: seq<Attempt>, f: Attempt -> bool)
    requires trace != []
    ensures HowMany(trace, f) == HowMany(trace[..|trace| - 1], f) + if f(trace[|trace| - 1]) then 1 else 0
  {
    var n := |trace| - 1;
    var all, before := set i | 0 <= i < |trace| && f(trace[i]), set i | 0 <= i < n && f(trace[..n][i]);
    assert all == if f(trace[n]) then before + {n} else before;
  }

  /** The counters count the attempts they say, and the reports are those of the attempts in order. */
  ghost predicate CountsOf(trace: seq<Attempt>, m: Metrics) {
    && m.started == HowMany(trace, Sends) && m.rejections == |trace| - HowMany(trace, Sends)
    && m.succeeded == HowMany(trace, Usable) && m.failed == HowMany(trace, Fails)
    && m.timeouts == HowMany(trace, RunsOutOfTime) && m.retriable == HowMany(trace, Transient)
    && |m.reports| == |trace| - HowMany(trace, Escapes)
  }

  lemma {:induction false} TallyCounts(trace: seq<Attempt>)
    ensures CountsOf(trace, Tally(trace))
  {
    hide HowMany, Plus, One;
    if trace == [] {
      NothingCounted();
    } else {
      var n := |trace| - 1;
      TallyCounts(trace[..n]);
      HowManyNext(trace, Sends);
      HowManyNext(trace, Usable);
      HowManyNext(trace, Fails);
      HowManyNext(trace, RunsOutOfTime);
      HowManyNext(trace, Transient);
      HowManyNext(trace, Escapes);
      OneCounts(trace[n]);
      PlusFields(Tally(trace[..n]), One(trace[n]));
    }
  }

  lemma NothingCounted()
    ensures CountsOf([], Tally([]))
  {}

  lemma OneCounts(a: Attempt)
    ensures One(a).started == (if Sends(a) then 1 else 0) && One(a).rejections == (if Sends(a) then 0 else 1)
    ensures One(a).succeeded == (if Usable(a) then 1 else 0) && One(a).failed == (if Fails(a) then 1 else 0)
    ensures One(a).timeouts == (if RunsOutOfTime(a) then 1 else 0)
    ensures One(a).retriable == (if Transient(a) then 1 else 0)
    ensures One(a).reports == Settled(a).reports && |One(a).reports| == if Escapes(a) then 0 else 1
  {
    hide Plus, Settled, Usable, Fails, RunsOutOfTime, Transient, Escapes;
    PlusFields(Sent(a), Settled(a));
    SettledCounts(a);
    SentReportsNothing(a);
  }

  lemma SentReportsNothing(a: Attempt)
    ensures One(a).reports == Settled(a).reports
  {
    hide Settled;
  }

  lemma SettledCounts(a: Attempt)
    ensures var m := Settled(a);
      && m.started == 0 && m.rejections == 0
      && m.succeeded == (if Usable(a) then 1 else 0) && m.failed == (if Fails(a) then 1 else 0)
      && m.timeouts == (if RunsOutOfTime(a) then 1 else 0) && m.retriable == (if Transient(a) then 1 else 0)
      && |m.reports| == if Escapes(a) then 0 else 1
  {
    ClassMeans(a);
    TimesOut(a);
    OneClass(a);
    hide ClassOf, Usable, Transient, Escapes, TimedOut, RunsOutOfTime, Final, Unusable;
  }

  lemma TimesOut(a: Attempt)
    ensures RunsOutOfTime(a) <==> a.Failed? && TimedOut(a.error)
    ensures a.Failed? ==> ClassOf(a).Error?
    ensures ClassOf(a).Error? && !a.Failed? ==> !RunsOutOfTime(a)
  {}

  lemma OneClass(a: Attempt)
    ensures Usable(a) ==> !Escapes(a) && !Transient(a)
    ensures Escapes(a) ==> !Transient(a)
    ensures ClassOf(a).Good? || ClassOf(a).Poor? ==> !a.Failed?
  {}

  lemma SettledReport(a: Attempt)
    requires !Escapes(a)
    ensures Settled(a).reports != [] && Reported(a, Settled(a).reports[0])
  {
    ClassMeans(a);
    match a
    case Responded(_, _, _, _) => hide Retriable, TimedOut;
    case Failed(_) => hide Usable, Escapes;
    case Rejected =>
    case Crashed =>
  }

  /** A call tells the breaker what became of each attempt, in order. */
  lemma {:induction false} ReportsInOrder(trace: seq<Attempt>)
    requires forall i :: 0 <= i < |trace| - 1 ==> !Escapes(trace[i])
    ensures var reports := Tally(trace).reports;
      && |reports| == |trace| - (if trace != [] && Escapes(trace[|trace| - 1]) then 1 else 0)
      && forall i :: 0 <= i < |reports| ==> Reported(trace[i], reports[i])
  {
    hide One, Reported, Escapes;
    if trace != [] {
      var n := |trace| - 1;
      ReportsInOrder(trace[..n]);
      OneCounts(trace[n]);
      if !Escapes(trace[n]) {
        SettledReport(trace[n]);
      }
      assert Tally(trace).reports == Tally(trace[..n]).reports + One(trace[n]).reports;
    }
  }

  /** From counters m0 to m: the attempts are counted for what they were, one retry fewer than
      attempts, and the breaker has been told of each, in order. */
  ghost predicate CallCounted(trace: seq<Attempt>, m0: Metrics, m: Metrics) {
    && trace != []
    && m.started == m0.started + HowMany(trace, Sends)
    && m.rejections == m0.rejections + |trace| - HowMany(trace, Sends)
    && m.succeeded == m0.succeeded + HowMany(trace, Usable) && m.failed == m0.failed + HowMany(trace, Fails)
    && m.timeouts == m0.timeouts + HowMany(trace, RunsOutOfTime)
    && m.retriable == m0.retriable + HowMany(trace, Transient)
    && m.retries == m0.retries + |trace| - 1
    && m0.reports <= m.reports
    && |m.reports| == |m0.reports| + |trace| - (if Escapes(trace[|trace| - 1]) then 1 else 0)
    && forall i :: 0 <= i < |m.reports| - |m0.reports| ==> Reported(trace[i], m.reports[|m0.reports| + i])
  }

  /** What becomes of the last attempt is what the call returns or raises. */
  ghost predicate ResultMeans(last: Attempt, result: Result) {
    && (result.Output? <==> Usable(last)) && (result.Output? ==> last.verdict == Valid(result.text))
    && (result == Raised(Crash) <==> Escapes(last))
    && (result == Raised(Error(true)) <==> Transient(last)) && (result == Raised(Error(false)) <==> Final(last))
    && forall k :: result == Raised(Poor(k)) <==> Unusable(last, k)
  }

  lemma CallIsDone(p: Policy, trace: seq<Attempt>, m0: Metrics)
    requires Call(p, trace)
    ensures WholeCall(p, trace) && ResultMeans(trace[|trace| - 1], ResultOf(trace[|trace| - 1]))
    ensures CallCounted(trace, m0, Retried(Plus(m0, Tally(trace)), |trace| - 1))
  {
    hide Call, WholeCall, ResultMeans, ResultOf, CallCounted, Escapes;
    CallMeans(p, trace);
    NoEscapeBefore(p, trace);
    ResultIsMeant(trace[|trace| - 1]);
    CallIsCounted(trace, m0);
  }

  lemma NoEscapeBefore(p: Policy, trace: seq<Attempt>)
    requires WholeCall(p, trace)
    ensures trace != [] && forall i :: 0 <= i < |trace| - 1 ==> !Escapes(trace[i])
  {
    forall i | 0 <= i < |trace| - 1 ensures !Escapes(trace[i]) {
      assert !Ends(p, trace, i + 1) && trace[i + 1 - 1] == trace[i];
    }
  }

  lemma ResultIsMeant(a: Attempt)
    ensures ResultMeans(a, ResultOf(a))
  {
    ClassMeans(a);
    hide ClassOf, HasText, Transient, Escapes, Final, Unusable;
  }

  lemma CallIsCounted(trace: seq<Attempt>, m0: Metrics)
    requires trace != [] && forall i :: 0 <= i < |trace| - 1 ==> !Escapes(trace[i])
    ensures CallCounted(trace, m0, Retried(Plus(m0, Tally(trace)), |trace| - 1))
  {
    hide HowMany, Reported, Escapes, Tally, Plus, Usable, Fails, RunsOutOfTime, Transient, Sends;
    TallyCounts(trace);
    TallyBalances(trace);
    ReportsInOrder(trace);
    PlusFields(m0, Tally(trace));
    PlusReports(m0, Tally(trace));
  }

  /** What one inner loop goes through, said without classes. */
  predicate InnerMeans(p: Policy, t: seq<Attempt>, ok: bool) {
    && 0 < |t| <= p.maxRetries + 1 && (forall k :: 0 <= k < |t| - 1 ==> Transient(t[k]))
    && var last := t[|t| - 1];
    (ok <==> last.Responded? && !last.apiError) && (Transient(last) ==> |t| == p.maxRetries + 1)
  }

  /** What it counts and reports: a response is left to the outer loop. */
  ghost predicate InnerCounted(t: seq<Attempt>, ok: bool, m0: Metrics, m: Metrics)
    requires t != []
  {
    var n := |t| - 1;
    if !ok then CallCounted(t, m0, m)
    else
      && m.started == m0.started + |t| && m.rejections == m0.rejections && m.succeeded == m0.succeeded
      && m.failed == m0.failed + n && m.retriable == m0.retriable + n && m.retries == m0.retries + n
      && m.reports == m0.reports + seq(n, _ => CB.RetriableError)
  }

  lemma InnersAreMeant(p: Policy, m0: Metrics)
    ensures forall t, ok :: Inner(p, t, ok) ==>
      InnerMeans(p, t, ok) && InnerCounted(t, ok, m0, InnerMetrics(m0, t, ok))
  {
    forall t, ok | Inner(p, t, ok) ensures InnerMeans(p, t, ok) && InnerCounted(t, ok, m0, InnerMetrics(m0, t, ok)) {
      InnerIsMeant(p, t, ok);
      if ok {
        InnerOk(t, m0);
      } else {
        InnerFails(t, m0);
      }
    }
  }

  lemma InnerIsMeant(p: Policy, t: seq<Attempt>, ok: bool)
    requires Inner(p, t, ok)
    ensures InnerMeans(p, t, ok)
    ensures forall k :: 0 <= k < |t| - 1 ==> Transient(t[k]) && !Escapes(t[k])
    ensures ok ==> Sends(t[|t| - 1])
  {
    var n := |t| - 1;
    ClassMeans(t[n]);
    OkClass(t[n]);
    forall k | 0 <= k < n ensures Transient(t[k]) && !Escapes(t[k]) {
      ClassMeans(t[k]);
    }
    hide Transient, Escapes, ClassOf;
  }

  lemma InnerOk(t: seq<Attempt>, m0: Metrics)
    requires t != [] && (forall k :: 0 <= k < |t| - 1 ==> Transient(t[k])) && Sends(t[|t| - 1])
    ensures InnerCounted(t, true, m0, InnerMetrics(m0, t, true))
  {
    hide Transient, Tally, Plus;
    var n := |t| - 1;
    var (before, last) := (Plus(m0, Tally(t[..n])), Plus(Sent(t[n]), ZERO));
    TransientTally(t[..n]);
    PlusFields(m0, Tally(t[..n]));
    PlusFields(Sent(t[n]), ZERO);
    PlusFields(before, last);
    PlusReports(m0, Tally(t[..n]));
    PlusReports(Sent(t[n]), ZERO);
    PlusReports(before, last);
  }

  lemma PlusReports(a: Metrics, b: Metrics)
    ensures Plus(a, b).reports == a.reports + b.reports
  {}

  lemma InnerFails(t: seq<Attempt>, m0: Metrics)
    requires t != [] && forall k :: 0 <= k < |t| - 1 ==> !Escapes(t[k])
    ensures InnerCounted(t, false, m0, InnerMetrics(m0, t, false))
  {
    hide Escapes, Tally, CallCounted, Plus, One, Sent, Settled;
    var n := |t| - 1;
    CallIsCounted(t, m0);
    PlusAssociative(m0, Tally(t[..n]), One(t[n]));
    OneIsBoth(t[n]);
    LastTally(t[..n], t[n]);
    assert t == t[..n] + [t[n]];
  }

  lemma {:induction false} TransientTally(t: seq<Attempt>)
    requires forall k :: 0 <= k < |t| ==> Transient(t[k])
    ensures var m := Tally(t);
      && m.started == m.failed == m.retriable == |t| && m.rejections == m.succeeded == m.retries == 0
      && m.reports == seq(|t|, _ => CB.RetriableError)
  {
    hide Transient, One;
    if t != [] {
      var n := |t| - 1;
      TransientTally(t[..n]);
      OneTransient(t[n]);
      PlusFields(Tally(t[..n]), One(t[n]));
    }
  }

  lemma OneTransient(a: Attempt)
    requires Transient(a)
    ensures var m := One(a);
      && m.started == m.failed == m.retriable == 1 && m.rejections == m.succeeded == m.retries == 0
      && m.reports == [CB.RetriableError]
  {
    ClassMeans(a);
    OneIsBoth(a);
    PlusFields(Sent(a), Settled(a));
    PlusReports(Sent(a), Settled(a));
    hide ClassOf, Plus, One, TimedOut;
  }

  // ----- what attempts do to the breaker's slots

  /** An attempt asks the breaker and, unless an exception escapes, reports one outcome. */
  function AfterAttempt(c: CB.Config, b: CB.Breaker, a: Attempt, asked: real, ended: real): CB.Breaker {
    var b1 := CB.Allow(c, b, asked).1;
    var reports := Settled(a).reports;
    if reports == [] then b1 else CB.Record(c, b1, reports[0], ended)
  }

  /** The breaker before and after each attempt; the rejected ones are those it refuses. */
  ghost predicate Served(c: CB.Config, bs: seq<CB.Breaker>, trace: seq<Attempt>, times: seq<(real, real)>) {
    && |bs| == |trace| + 1 && |times| == |trace|
    && forall i {:trigger trace[i]} :: 0 <= i < |trace| ==>
         && (trace[i].Rejected? <==> !CB.Allow(c, bs[i], times[i].0).0)
         && bs[i + 1] == AfterAttempt(c, bs[i], trace[i], times[i].0, times[i].1)
  }

  /** Within one half-open period each escaped exception takes up a slot for good and each refusal
      frees one: so the breaker refuses the next attempt exactly when the slots taken at first
      and the escapes exceed the refusals by the number of probes or more. */
  lemma {:induction false} EscapesHoldSlots(c: CB.Config, bs: seq<CB.Breaker>, trace: seq<Attempt>,
                                            times: seq<(real, real)>, now: real)
    requires c.probes > 0 && Served(c, bs, trace, times)
    requires forall i :: 0 <= i < |bs| ==> bs[i].mode == CB.HalfOpen
    ensures bs[|trace|].inFlight + Tally(trace).rejections == bs[0].inFlight + Crashes(trace)
    ensures CB.Allow(c, bs[|trace|], now).0 <==>
              bs[0].inFlight + Crashes(trace) < Tally(trace).rejections + c.probes
  {
    hide Plus, One, AfterAttempt, CrashedOut;
    if trace != [] {
      var n := |trace| - 1;
      ServedBefore(c, bs, trace, times);
      EscapesHoldSlots(c, bs[..|trace|], trace[..n], times[..n], times[n].0);
      AttemptSlot(c, bs[n], trace[n], times[n].0, times[n].1);
      OneBalances(trace[n]);
      PlusFields(Tally(trace[..n]), One(trace[n]));
    }
  }

  /** So an escape that no refusal makes up for also keeps the breaker from closing: no attempt
      that comes next, whatever its outcome, is the success that completes the probes. */
  lemma EscapesPreventClosing(c: CB.Config, bs: seq<CB.Breaker>, trace: seq<Attempt>, times: seq<(real, real)>,
                              a: Attempt, asked: real, ended: real)
    requires c.probes > 0 && Served(c, bs, trace, times)
    requires forall i :: 0 <= i < |bs| ==> bs[i].mode == CB.HalfOpen
    ensures Crashes(trace) > Tally(trace).rejections && (a.Rejected? <==> !CB.Allow(c, bs[|trace|], asked).0) ==>
              AfterAttempt(c, bs[|trace|], a, asked, ended).mode != CB.Closed
  {
    var b := bs[|trace|];
    EscapesHoldSlots(c, bs, trace, times, asked);
    hide Served, Plus, One, Tally, Crashes, AfterAttempt;
    if b.inFlight > 0 && (a.Rejected? <==> !CB.Allow(c, b, asked).0) {
      HeldSlotKeepsOpen(c, b, a, asked, ended);
    }
  }

  lemma HeldSlotKeepsOpen(c: CB.Config, b: CB.Breaker, a: Attempt, asked: real, ended: real)
    requires c.probes > 0 && b.mode == CB.HalfOpen && b.inFlight > 0
    requires a.Rejected? <==> !CB.Allow(c, b, asked).0
    ensures AfterAttempt(c, b, a, asked, ended).mode != CB.Closed
  {
    hide CB.Remember, CB.ByRate, Retriable, TimedOut;
  }

  lemma ServedBefore(c: CB.Config, bs: seq<CB.Breaker>, trace: seq<Attempt>, times: seq<(real, real)>)
    requires Served(c, bs, trace, times) && trace != []
    ensures var n := |trace| - 1;
      && Served(c, bs[..|trace|], trace[..n], times[..n])
      && (trace[n].Rejected? <==> !CB.Allow(c, bs[n], times[n].0).0)
      && bs[|trace|] == AfterAttempt(c, bs[n], trace[n], times[n].0, times[n].1)
  {
    hide AfterAttempt, CB.Allow;
    var (n, before) := (|trace| - 1, bs[..|trace|]);
    forall i | 0 <= i < n
      ensures trace[..n][i].Rejected? <==> !CB.Allow(c, before[i], times[..n][i].0).0
      ensures before[i + 1] == AfterAttempt(c, before[i], trace[..n][i], times[..n][i].0, times[..n][i].1)
    {
      assert before[i] == bs[i] && before[i + 1] == bs[i + 1] && trace[..n][i] == trace[i] && times[..n][i] == times[i];
    }
  }

  /** From a closed breaker, as many attempts in a row as the threshold that fail in passing leave it
      open, whoever makes them. */
  lemma {:induction false} TransientsOpen(c: CB.Config, bs: seq<CB.Breaker>, trace: seq<Attempt>,
                                          times: seq<(real, real)>)
    requires CB.Accepted(c) && Served(c, bs, trace, times) && bs[0].mode == CB.Closed
    requires |trace| >= c.threshold && forall i :: 0 <= i < |trace| ==> Transient(trace[i])
    ensures bs[|trace|].mode == CB.Open
  {
    TransientsCount(c, bs, trace, times, |trace|);
  }

  lemma {:induction false} TransientsCount(c: CB.Config, bs: seq<CB.Breaker>, trace: seq<Attempt>,
                                           times: seq<(real, real)>, n: nat)
    requires CB.Accepted(c) && Served(c, bs, trace, times) && bs[0].mode == CB.Closed
    requires n <= |trace| && forall i :: 0 <= i < |trace| ==> Transient(trace[i])
    ensures bs[n].mode == CB.Open || (bs[n].mode == CB.Closed && bs[n].errors >= n && n < c.threshold)
  {
    hide Transient, AfterAttempt, CB.Allow;
    if n > 0 {
      TransientsCount(c, bs, trace, times, n - 1);
      assert !trace[n - 1].Rejected? by {
        SentOut(trace[n - 1]);
      }
      TransientAtBreaker(c, bs[n - 1], trace[n - 1], times[n - 1].0, times[n - 1].1);
    }
  }

  lemma SentOut(a: Attempt)
    requires Transient(a)
    ensures !a.Rejected?
  {}

  lemma TransientAtBreaker(c: CB.Config, b: CB.Breaker, a: Attempt, asked: real, ended: real)
    requires Transient(a) && b.mode != CB.HalfOpen && CB.Allow(c, b, asked).0
    ensures var b' := AfterAttempt(c, b, a, asked, ended);
      b'.mode == CB.Open || (b.mode == b'.mode == CB.Closed && b'.errors == b.errors + 1 < c.threshold)
  {
    hide CB.Remember, CB.ByRate, Transient, Settled, One;
    OneTransient(a);
    SentReportsNothing(a);
  }

  lemma AttemptSlot(c: CB.Config, b: CB.Breaker, a: Attempt, asked: real, ended: real)
    requires c.probes > 0 && b.mode == CB.HalfOpen && AfterAttempt(c, b, a, asked, ended).mode == CB.HalfOpen
    requires a.Rejected? <==> !CB.Allow(c, b, asked).0
    ensures AfterAttempt(c, b, a, asked, ended).inFlight + (if a.Rejected? then 1 else 0)
         == b.inFlight + if CrashedOut(a) then 1 else 0
  {
    hide CB.Remember, CB.ByRate, Retriable, TimedOut;
  }

  // ----- how many attempts a call makes

  /** Attempts answered by an unusable response. */
  function Poors(trace: seq<Attempt>): nat {
    Seen(trace, EmptyResponse) + Seen(trace, Incomplete) + Seen(trace, ParseError)
    + Seen(trace, SchemaError) + Seen(trace, ValidationError) + Seen(trace, OtherError)
  }

  lemma {:induction false} SeenWithinBudget(p: Policy, trace: seq<Attempt>, k: Kind)
    requires GoesOn(p, trace)
    ensures Seen(trace, k) <= Budget(p, k)
  {
    if trace != [] {
      var n := |trace| - 1;
      assert !Stops(p, trace[..|trace|]) && trace[..|trace|] == trace;
      GoesOnBefore(p, trace, n);
      SeenWithinBudget(p, trace[..n], k);
    }
  }

  lemma {:induction false} RunsWithinBudget(p: Policy, trace: seq<Attempt>)
    requires GoesOn(p, trace)
    ensures Trailing(trace) <= p.maxRetries
    ensures |trace| <= Product(p.maxRetries + 1, Poors(trace)) + Trailing(trace)
  {
    assert trace[..|trace|] == trace && (trace != [] ==> !Stops(p, trace[..|trace|]));
    hide GoesOn, Product;
    if trace != [] {
      var n := |trace| - 1;
      GoesOnBefore(p, trace, n);
      RunsWithinBudget(p, trace[..n]);
      ProductGrows(p.maxRetries + 1, Poors(trace[..n]), Poors(trace));
    }
  }

  lemma ProductGrows(a: nat, b: nat, c: nat)
    requires b <= c
    ensures Product(a, b) <= Product(a, c)
    ensures Product(a, b + 1) == Product(a, b) + a
  {}

  /** A call makes at most (max_retries + 1) * (1 + the sum of the response budgets) attempts. */
  lemma AttemptsBounded(p: Policy, trace: seq<Attempt>)
    requires Call(p, trace)
    ensures |trace| <= Product(p.maxRetries + 1, 1 + Sum(p.budgets))
  {
    hide Product, Seen, Stops, GoesOn, Trailing;
    var t := trace[..|trace| - 1];
    RunsWithinBudget(p, t);
    SeenWithinBudget(p, t, EmptyResponse);
    SeenWithinBudget(p, t, Incomplete);
    SeenWithinBudget(p, t, ParseError);
    SeenWithinBudget(p, t, SchemaError);
    SeenWithinBudget(p, t, ValidationError);
    SeenWithinBudget(p, t, OtherError);
    ProductGrows(p.maxRetries + 1, Poors(t), Sum(p.budgets));
    ProductGrows(p.maxRetries + 1, Sum(p.budgets), Sum(p.budgets));
  }

  /** Attempts and their results determine where a call ends. */
  lemma CallUnique(p: Policy, s: seq<Attempt>, t: seq<Attempt>)
    requires Call(p, s) && Call(p, t) && |s| <= |t| && t[..|s|] == s
    ensures s == t
  {
    hide Stops;
    forall k | 0 < k < |t| ensures !Stops(p, t[..k]) {
      assert t[..|t| - 1][..k] == t[..k];
    }
  }

  // ----- the loops

  /** Attempts a to b - 1 of an endless supply. */
  function Trace(world: nat -> Attempt, a: nat, b: nat): seq<Attempt>
    requires a <= b
  {
    seq(b - a, i requires 0 <= i < b - a => world(a + i))
  }

  class OpenAICompatibleProvider {
    const policy: Policy
    const world: nat -> Attempt
    var used: nat
    var metrics: Metrics

    constructor (p: Policy, w: nat -> Attempt)
      ensures policy == p && world == w && used == 0 && metrics == ZERO
    {
      policy, world, used, metrics := p, w, 0, ZERO;
    }

    /** `_execute_with_retry`: retriable failures up to the last attempt, which is a response, a
        failure that is not retried or the last one allowed, or an escaping exception. */
    method ExecuteWithRetry() returns (last: Attempt, ok: bool)
      modifies this
      ensures used > old(used) && last == world(used - 1)
      ensures Inner(policy, Trace(world, old(used), used), ok)
      ensures InnerMeans(policy, Trace(world, old(used), used), ok)
      ensures InnerCounted(Trace(world, old(used), used), ok, old(metrics), metrics)
      ensures metrics == InnerMetrics(old(metrics), Trace(world, old(used), used), ok)
    {
      InnersAreMeant(policy, metrics);
      hide InnerMeans, InnerCounted, Tally, ClassOf, Plus, Sent, Settled;
      var attemptIndex := 0;
      ghost var m0, t := metrics, [];
      EmptyTally(m0);
      while true
        invariant 0 <= attemptIndex <= policy.maxRetries && used == old(used) + attemptIndex
        invariant t == Trace(world, old(used), used)
        invariant forall k :: 0 <= k < |t| ==> ClassOf(t[k]) == Error(true)
        invariant metrics == Retried(Plus(m0, Tally(t)), |t|)
        decreases policy.maxRetries - attemptIndex
      {
        last := world(used);
        used := used + 1;
        AttemptMetrics(m0, t, last);
        t := t + [last];
        assert t == Trace(world, old(used), used);
        metrics := Plus(metrics, Sent(last));
        if last.Responded? && !last.apiError {
          ok := true;
          return;
        }
        if last.Crashed? {
          ok := false;
          CrashSettles(last);
          return;
        }
        metrics := Plus(metrics, Settled(last));
        FailureClass(last);
        var error := ClassOf(last);
        if !error.retriable || attemptIndex == policy.maxRetries {
          ok := false;
          return;
        }
        metrics := Retried(metrics, 1);
        attemptIndex := attemptIndex + 1;
      }
    }

    /** `_create_text_direct`: the call's attempts are exactly those the policy asks for, it
        returns what the last one amounts to, and counts every attempt and one retry fewer. */
    method CreateTextDirect() returns (result: Result)
      modifies this
      ensures used > old(used)
      ensures Call(policy, Trace(world, old(used), used))
      ensures result == ResultOf(world(used - 1))
      ensures metrics == Retried(Plus(old(metrics), Tally(Trace(world, old(used), used))), used - old(used) - 1)
      ensures WholeCall(policy, Trace(world, old(used), used))
      ensures ResultMeans(world(used - 1), result)
      ensures CallCounted(Trace(world, old(used), used), old(metrics), metrics)
    {
      hide WholeCall, ResultMeans, CallCounted, Tally, Plus, Sent, Settled, GoesOn, Seen, Trailing, Stops;
      hide InnerMetrics, InnerMeans, InnerCounted, ClassOf, Of, Bump, Sum;
      ghost var m0, t: seq<Attempt> := metrics, [];
      EmptyTally(m0);
      EmptyTrace(policy);
      var spent := NO_COUNTS;
      while true
        invariant used == old(used) + |t| && t == Trace(world, old(used), used)
        invariant GoesOn(policy, t) && Trailing(t) == 0
        invariant forall k :: Seen(t, k) == Of(spent, k) <= Budget(policy, k)
        invariant metrics == Retried(Plus(m0, Tally(t)), |t|)
        decreases Sum(policy.budgets) - Sum(spent)
      {
        ghost var before, sofar := used, t;
        var last, ok := ExecuteWithRetry();
        ghost var r := Trace(world, before, used);
        InnerExtends(policy, t, r, ok);
        JoinMetrics(m0, t, r, ok);
        t := t + r;
        assert t == Trace(world, old(used), used) && t[|t| - 1] == last;
        assert t[..|t| - 1] == sofar + r[..|r| - 1];
        if !ok {
          CallIsDone(policy, t, m0);
          return Raised(ClassOf(last));
        }
        var answer := ReadResponse(last);
        if answer.Crash? {
          CrashUnsettled(last);
          CallIsDone(policy, t, m0);
          return Raised(Crash);
        }
        metrics := Plus(metrics, Settled(last));
        if answer.Good? {
          CallIsDone(policy, t, m0);
          return Output(answer.output);
        }
        var poor := answer.kind;
        PoorResponse(policy, sofar, r, poor);
        if Of(spent, poor) >= Of(policy.budgets, poor) {
          CallIsDone(policy, t, m0);
          return Raised(Poor(poor));
        }
        BumpCounts(policy.budgets, spent, poor);
        spent := Bump(spent, poor);
        metrics := Retried(metrics, 1);
      }
    }
  }

  lemma BumpCounts(b: Counts, c: Counts, k: Kind)
    requires (forall l :: Of(c, l) <= Of(b, l)) && Of(c, k) < Of(b, k)
    ensures forall l :: Of(Bump(c, k), l) == Of(c, l) + if l == k then 1 else 0
    ensures Sum(c) < Sum(Bump(c, k)) <= Sum(b)
  {
    assert Of(c, EmptyResponse) <= Of(b, EmptyResponse) && Of(c, Incomplete) <= Of(b, Incomplete)
      && Of(c, ParseError) <= Of(b, ParseError) && Of(c, SchemaError) <= Of(b, SchemaError)
      && Of(c, ValidationError) <= Of(b, ValidationError);
  }

  lemma EmptyTrace(p: Policy)
    ensures GoesOn(p, []) && Trailing([]) == 0
    ensures forall k :: Seen([], k) == Of(NO_COUNTS, k) <= Budget(p, k)
  {}

  /** A response is judged by its status, then its text, then the validator. */
  method ReadResponse(a: Attempt) returns (answer: Class)
    requires a.Responded? && !a.apiError
    ensures answer == ClassOf(a) && !answer.Error?
  {
    if a.status == IncompleteStatus {
      return Poor(Incomplete);
    }
    if a.status == OtherStatus || a.text == [] {
      return Poor(EmptyResponse);
    }
    match a.verdict {
      case Valid(output) => return Good(output);
      case ValidatorCrash => return Crash;
      case Invalid(kind) => return Poor(if kind == EmptyResponse || kind == Incomplete then OtherError else kind);
    }
  }

  lemma CrashUnsettled(a: Attempt)
    requires ClassOf(a) == Crash
    ensures Settled(a) == ZERO
  {}

  lemma {:induction false} FailuresExtend(p: Policy, t: seq<Attempt>, r: seq<Attempt>)
    requires GoesOn(p, t) && Trailing(t) == 0 && |r| <= p.maxRetries
    requires forall k :: 0 <= k < |r| ==> ClassOf(r[k]) == Error(true)
    ensures GoesOn(p, t + r) && Trailing(t + r) == |r|
    ensures forall k :: Seen(t + r, k) == Seen(t, k)
  {
    hide GoesOn, Seen, Trailing;
    if r == [] {
      assert t + r == t;
    } else {
      var n := |r| - 1;
      FailuresExtend(p, t, r[..n]);
      OneMoreFailure(p, t + r[..n], r[n]);
      assert t + r == t + r[..n] + [r[n]];
    }
  }

  lemma OneMoreFailure(p: Policy, t: seq<Attempt>, a: Attempt)
    requires GoesOn(p, t) && Trailing(t) < p.maxRetries && ClassOf(a) == Error(true)
    ensures GoesOn(p, t + [a]) && Trailing(t + [a]) == Trailing(t) + 1
    ensures forall k :: Seen(t + [a], k) == Seen(t, k)
  {
    hide GoesOn, ClassOf;
    assert (t + [a])[..|t|] == t;
    GoesOnOnce(p, t + [a]);
  }

  lemma GoesOnOnce(p: Policy, t: seq<Attempt>)
    requires t != [] && GoesOn(p, t[..|t| - 1]) && !Stops(p, t)
    ensures GoesOn(p, t)
  {
    hide Stops;
    forall k | 0 < k <= |t| ensures !Stops(p, t[..k]) {
      if k < |t| {
        assert t[..|t| - 1][..k] == t[..k];
      } else {
        assert t[..k] == t;
      }
    }
  }

  /** A pass of the inner loop goes on up to its last attempt, where the call stops unless a
      response has come that may be retried. */
  lemma InnerExtends(p: Policy, t: seq<Attempt>, r: seq<Attempt>, ok: bool)
    requires GoesOn(p, t) && Trailing(t) == 0 && Inner(p, r, ok)
    ensures GoesOn(p, t + r[..|r| - 1])
    ensures forall k :: Seen(t + r[..|r| - 1], k) == Seen(t, k)
    ensures !ok || !ClassOf(r[|r| - 1]).Poor? ==> Stops(p, t + r)
  {
    hide GoesOn, Seen;
    var n := |r| - 1;
    FailuresExtend(p, t, r[..n]);
    assert (t + r)[..|t + r| - 1] == t + r[..n];
    if ok {
      OkClass(r[n]);
    }
  }

  lemma OkClass(a: Attempt)
    ensures a.Responded? && !a.apiError ==> !ClassOf(a).Error?
  {}

  /** After an unusable response the call stops exactly when the budget of its kind is spent. */
  lemma PoorResponse(p: Policy, t: seq<Attempt>, r: seq<Attempt>, poor: Kind)
    requires r != [] && ClassOf(r[|r| - 1]) == Poor(poor)
    requires GoesOn(p, t + r[..|r| - 1]) && forall k :: Seen(t + r[..|r| - 1], k) == Seen(t, k)
    ensures Stops(p, t + r) <==> Seen(t, poor) >= Budget(p, poor)
    ensures !Stops(p, t + r) ==> GoesOn(p, t + r)
    ensures Trailing(t + r) == 0
    ensures forall k :: Seen(t + r, k) == Seen(t, k) + if k == poor then 1 else 0
  {
    assert (t + r)[..|t + r| - 1] == t + r[..|r| - 1];
    if !Stops(p, t + r) {
      GoesOnOnce(p, t + r);
    }
    hide GoesOn;
  }

  lemma JoinMetrics(m: Metrics, t: seq<Attempt>, r: seq<Attempt>, ok: bool)
    requires r != []
    ensures var m' := InnerMetrics(Retried(Plus(m, Tally(t)), |t|), r, ok); var n := |t| + |r| - 1;
      && (!ok ==> m' == Retried(Plus(m, Tally(t + r)), n))
      && (ok ==> Plus(m', Settled(r[|r| - 1])) == Retried(Plus(m, Tally(t + r)), n))
      && (ok && Settled(r[|r| - 1]) == ZERO ==> m' == Retried(Plus(m, Tally(t + r)), n))
  {
    hide Tally, Sent, Settled, Plus, Retried, One;
    var last, q := r[|r| - 1], r[..|r| - 1];
    JoinTally(t, q, last);
    assert t + q + [last] == t + r;
    assert One(last) == Plus(Sent(last), Settled(last)) by {
      OneIsBoth(last);
    }
    Arrange(m, Tally(t), Tally(q), One(last), |t|, |q|);
    SettleLate(m, Tally(t), Tally(q), last, |t|, |q|);
  }

  lemma OneIsBoth(a: Attempt)
    ensures One(a) == Plus(Sent(a), Settled(a))
  {}

  lemma SettleLate(m: Metrics, a: Metrics, b: Metrics, last: Attempt, i: nat, j: nat)
    ensures Plus(Retried(Plus(Plus(Retried(Plus(m, a), i), b), Plus(Sent(last), ZERO)), j), Settled(last))
         == Retried(Plus(m, Plus(Plus(a, b), One(last))), i + j)
    ensures Settled(last) == ZERO ==>
      Retried(Plus(Plus(Retried(Plus(m, a), i), b), Plus(Sent(last), ZERO)), j)
      == Retried(Plus(m, Plus(Plus(a, b), One(last))), i + j)
  {
    hide Sent, Settled, Plus, Retried;
    PlusZero(Sent(last));
    Arrange(m, a, b, Sent(last), i, j);
    var sent := Plus(Plus(a, b), Sent(last));
    RetriedPlus(Plus(m, sent), Settled(last), i + j);
    PlusAssociative(m, sent, Settled(last));
    PlusAssociative(Plus(a, b), Sent(last), Settled(last));
  }

  lemma JoinTally(t: seq<Attempt>, q: seq<Attempt>, last: Attempt)
    ensures Tally(t + q + [last]) == Plus(Plus(Tally(t), Tally(q)), One(last))
  {
    hide One, Plus;
    LastTally(t + q, last);
    TallyConcat(t, q);
  }

  lemma Arrange(m: Metrics, a: Metrics, b: Metrics, c: Metrics, i: nat, j: nat)
    ensures Retried(Plus(Plus(Retried(Plus(m, a), i), b), c), j) == Retried(Plus(m, Plus(Plus(a, b), c)), i + j)
  {}

  /** The attempts of one inner loop: retriable failures up to the last attempt, which is a
      response, a failure that is not retried or the last one allowed, or an escaping exception. */
  predicate Inner(p: Policy, t: seq<Attempt>, ok: bool) {
    && t != [] && |t| - 1 <= p.maxRetries
    && var last := t[|t| - 1];
    && (forall k :: 0 <= k < |t| - 1 ==> ClassOf(t[k]) == Error(true))
    && ok == (last.Responded? && !last.apiError)
    && (ok || ClassOf(last).Crash? || ClassOf(last) == Error(false)
        || (ClassOf(last) == Error(true) && |t| - 1 == p.maxRetries))
  }

  /** Its counters: a response is still to be settled by the outer loop. */
  function InnerMetrics(m: Metrics, t: seq<Attempt>, ok: bool): Metrics
    requires t != []
  {
    var n := |t| - 1;
    Retried(Plus(Plus(m, Tally(t[..n])), Plus(Sent(t[n]), if ok then ZERO else Settled(t[n]))), n)
  }

  lemma CrashSettles(a: Attempt)
    requires a.Crashed?
    ensures Settled(a) == ZERO && ClassOf(a) == Crash
  {}

  lemma FailureClass(a: Attempt)
    requires !a.Crashed? && !(a.Responded? && !a.apiError)
    ensures ClassOf(a).Error?
  {}

  lemma EmptyTally(m: Metrics)
    ensures Retried(Plus(m, Tally([])), 0) == m
  {}

  lemma LastTally(t: seq<Attempt>, a: Attempt)
    ensures Tally(t + [a]) == Plus(Tally(t), One(a))
  {
    hide Plus, One;
    assert (t + [a])[..|t|] == t;
  }

  lemma AttemptMetrics(m: Metrics, t: seq<Attempt>, a: Attempt)
    ensures var m' := Retried(Plus(m, Tally(t)), |t|);
      && Plus(m', Sent(a)) == InnerMetrics(m, t + [a], true)
      && Plus(Plus(m', Sent(a)), Settled(a)) == InnerMetrics(m, t + [a], false)
      && Retried(Plus(Plus(m', Sent(a)), Settled(a)), 1) == Retried(Plus(m, Tally(t + [a])), |t| + 1)
  {
    hide Tally, Sent, Settled, Plus, Retried, One;
    assert (t + [a])[..|t|] == t;
    LastTally(t, a);
    OneIsBoth(a);
    var both := Plus(m, Tally(t));
    RetriedPlus(both, Sent(a), |t|);
    PlusZero(Sent(a));
    RetriedPlus(Plus(both, Sent(a)), Settled(a), |t|);
    PlusAssociative(both, Sent(a), Settled(a));
    Arrange(m, Tally(t), Sent(a), Settled(a), |t|, 1);
    PlusAssociative(Tally(t), Sent(a), Settled(a));
  }

  lemma RetriedPlus(a: Metrics, b: Metrics, n: nat)
    ensures Plus(Retried(a, n), b) == Retried(Plus(a, b), n)
  {}

  lemma PlusZero(a: Metrics)
    ensures Plus(a, ZERO) == a
  {}
}
