/** Scoring a group's answers: teacher and student answers are shuffled by a hash, sent to the
  verifier in chunks with retries, and the scores are put back to the answer they belong to. */
module AnswerScores {
  import opened Wrappers

  datatype Error = ValueError | IndexError | ClientError(recoverable: bool, code: int)

  datatype Source = Teacher | Student | Other(name: string)

  datatype Item = Item(source: Source, index: nat, text: string)

  predicate SameSlot(a: Item, b: Item) { a.source == b.source && a.index == b.index }

  // ----- shuffling

  function ItemsOf(source: Source, answers: seq<string>): seq<Item> {
    seq(|answers|, i requires 0 <= i < |answers| => Item(source, i, answers[i]))
  }

  function Insert(x: Item, s: seq<Item>, key: Item -> int): seq<Item> {
    if s == [] || key(x) < key(s[0]) then [x] + s else [s[0]] + Insert(x, s[1..], key)
  }

  /** `sorted(items, key=key)`: stable, as elements are put in from the front. */
  function Sort(s: seq<Item>, key: Item -> int): seq<Item> {
    if s == [] then [] else Insert(s[|s| - 1], Sort(s[..|s| - 1], key), key)
  }

  /** `_build_shuffled_answer_items` */
  function Shuffled(teacher: seq<string>, student: seq<string>, key: Item -> int): seq<Item> {
    Sort(ItemsOf(Teacher, teacher) + ItemsOf(Student, student), key)
  }

  predicate OneEach(s: seq<Item>) {
    forall i, j :: 0 <= i < j < |s| ==> !SameSlot(s[i], s[j])
  }

  lemma {:induction false} InsertKeeps(x: Item, s: seq<Item>, key: Item -> int)
    ensures |Insert(x, s, key)| == |s| + 1
    ensures forall y :: y in Insert(x, s, key) <==> y == x || y in s
  {
    if s != [] && !(key(x) < key(s[0])) {
      InsertKeeps(x, s[1..], key);
      assert forall y :: y in s <==> y == s[0] || y in s[1..];
    }
  }

  lemma {:induction false} InsertOneEach(x: Item, s: seq<Item>, key: Item -> int)
    requires OneEach(s) && forall y :: y in s ==> !SameSlot(x, y)
    ensures OneEach(Insert(x, s, key))
  {
    if s != [] && !(key(x) < key(s[0])) {
      assert forall y :: y in s[1..] ==> y in s && !SameSlot(s[0], y);
      InsertOneEach(x, s[1..], key);
      InsertKeeps(x, s[1..], key);
      var rest := Insert(x, s[1..], key);
      assert s[0] in s;
      assert forall j :: 0 <= j < |rest| ==> rest[j] in rest && !SameSlot(s[0], rest[j]);
    }
  }

  lemma {:induction false} SortKeeps(s: seq<Item>, key: Item -> int)
    ensures |Sort(s, key)| == |s|
    ensures forall y :: y in Sort(s, key) <==> y in s
    ensures OneEach(s) ==> OneEach(Sort(s, key))
  {
    if s != [] {
      var n := |s| - 1;
      assert s == s[..n] + [s[n]];
      SortKeeps(s[..n], key);
      InsertKeeps(s[n], Sort(s[..n], key), key);
      if OneEach(s) {
        InsertOneEach(s[n], Sort(s[..n], key), key);
      }
    }
  }

  lemma {:induction false} SortSorts(s: seq<Item>, key: Item -> int)
    ensures forall i, j :: 0 <= i < j < |Sort(s, key)| ==> key(Sort(s, key)[i]) <= key(Sort(s, key)[j])
  {
    if s != [] {
      SortSorts(s[..|s| - 1], key);
      InsertSorts(s[|s| - 1], Sort(s[..|s| - 1], key), key);
    }
  }

  lemma {:induction false} InsertSorts(x: Item, s: seq<Item>, key: Item -> int)
    requires forall i, j :: 0 <= i < j < |s| ==> key(s[i]) <= key(s[j])
    ensures forall i, j :: 0 <= i < j < |Insert(x, s, key)| ==> key(Insert(x, s, key)[i]) <= key(Insert(x, s, key)[j])
  {
    if s != [] && !(key(x) < key(s[0])) {
      InsertSorts(x, s[1..], key);
      InsertKeeps(x, s[1..], key);
      var rest := Insert(x, s[1..], key);
      assert forall j :: 0 <= j < |rest| ==> rest[j] in rest && key(s[0]) <= key(rest[j]);
    }
  }

  // ----- scoring

  /** `answer_index` and `final_score` */
  datatype AnswerScore = AnswerScore(answerIndex: int, score: real)

  /** What a verifier that judges answer by answer, in order, returns in one call. */
  function Direct(answers: seq<string>, judge: string -> real): seq<AnswerScore> {
    seq(|answers|, i requires 0 <= i < |answers| => AnswerScore(i + 1, judge(answers[i])))
  }

  /** Whether the n-th call to the verifier comes back, or the error it raises. */
  datatype Call = Answers | Raises(recoverable: bool, code: int)

  /** The answers of the calls from `start` to `end` that came back, in order; `sent` holds what
      each call asked to be judged. */
  function Delivered(world: nat -> Call, sent: seq<seq<string>>, start: nat, end: nat): seq<string>
    requires end <= |sent|
  {
    if start >= end then []
    else Delivered(world, sent, start, end - 1) + if world(end - 1).Answers? then sent[end - 1] else []
  }

  lemma {:induction false} DeliveredStays(world: nat -> Call, s: seq<seq<string>>, t: seq<seq<string>>,
                                          start: nat, end: nat)
    requires end <= |s| && s <= t
    ensures Delivered(world, s, start, end) == Delivered(world, t, start, end)
  {
    if start < end {
      DeliveredStays(world, s, t, start, end - 1);
    }
  }

  /** Calls that fail deliver nothing, until one comes back. */
  lemma {:induction false} DeliveredOnce(world: nat -> Call, sent: seq<seq<string>>, start: nat, mid: nat, end: nat)
    requires start <= mid < end <= |sent| && forall c :: mid <= c < end - 1 ==> world(c).Raises?
    ensures world(end - 1).Answers? ==>
      Delivered(world, sent, start, end) == Delivered(world, sent, start, mid) + sent[end - 1]
    ensures world(end - 1).Raises? ==> Delivered(world, sent, start, end) == Delivered(world, sent, start, mid)
  {
    if mid < end - 1 {
      DeliveredOnce(world, sent, start, mid, end - 1);
    }
  }

  /** One of the last n calls before call c has come back. */
  ghost predicate AnsweredLately(world: nat -> Call, c: nat, n: nat) {
    exists b :: c - n <= b < c && b >= 0 && world(b).Answers?
  }

  /** A call that fails is repeated as it was, unless it cannot be recovered from, and no call is
      attempted more than `attempts` times in a row. */
  ghost predicate Repeats(world: nat -> Call, sent: seq<seq<string>>, start: nat, attempts: nat) {
    && (forall c :: start <= c < |sent| - 1 && world(c).Raises? ==> world(c).recoverable && sent[c + 1] == sent[c])
    && (forall c :: start + attempts <= c < |sent| ==> AnsweredLately(world, c, attempts))
  }

  /** Chunks of the given size are judged one after the other, the last one perhaps shorter. */
  predicate InChunks(world: nat -> Call, sent: seq<seq<string>>, start: nat, size: nat) {
    forall c :: start <= c < |sent| ==>
      |sent[c]| <= size && (world(c).Answers? ==> |sent[c]| == size || c == |sent| - 1)
  }

  /** One more chunk after calls that ended with one that came back. */
  lemma RepeatsMore(world: nat -> Call, s: seq<seq<string>>, t: seq<seq<string>>, start: nat, attempts: nat)
    requires Repeats(world, s, start, attempts) && s <= t && start <= |s| < |t| <= |s| + attempts
    requires start < |s| ==> world(|s| - 1).Answers?
    requires forall c :: |s| <= c < |t| - 1 ==> world(c).Raises? && world(c).recoverable && t[c + 1] == t[c]
    ensures Repeats(world, t, start, attempts)
  {
    forall c | start <= c < |t| - 1 && world(c).Raises? ensures world(c).recoverable && t[c + 1] == t[c] {
      if c < |s| - 1 {
        assert s[c + 1] == s[c];
      }
    }
    forall c | start + attempts <= c < |t| ensures AnsweredLately(world, c, attempts) {
      if c >= |s| {
        assert world(|s| - 1).Answers?;
      }
    }
  }

  lemma NothingSent(world: nat -> Call, sent: seq<seq<string>>, attempts: nat, size: nat)
    ensures Repeats(world, sent, |sent|, attempts) && InChunks(world, sent, |sent|, size)
    ensures Delivered(world, sent, |sent|, |sent|) == []
  {}

  lemma InChunksMore(world: nat -> Call, s: seq<seq<string>>, t: seq<seq<string>>, start: nat, size: nat,
                     chunk: seq<string>)
    requires InChunks(world, s, start, size) && s <= t && start <= |s| < |t| && |chunk| <= size
    requires forall c :: start <= c < |s| && world(c).Answers? ==> |s[c]| == size
    requires forall c :: |s| <= c < |t| ==> t[c] == chunk
    requires forall c :: |s| <= c < |t| - 1 ==> world(c).Raises?
    ensures InChunks(world, t, start, size)
    ensures |chunk| == size ==> forall c :: start <= c < |t| && world(c).Answers? ==> |t[c]| == size
  {}

  class RewardManager {
    const judge: string -> real
    const world: nat -> Call
    const maxAttempts: nat
    const chunkSize: Option<nat>
    var calls: nat
    ghost var sent: seq<seq<string>>

    ghost predicate Valid()
      reads this
    {
      maxAttempts > 0 && (chunkSize.Some? ==> chunkSize.value > 0) && |sent| == calls
    }

    constructor (judge: string -> real, world: nat -> Call, maxAttempts: nat, chunkSize: Option<nat>)
      requires maxAttempts > 0 && (chunkSize.Some? ==> chunkSize.value > 0)
      ensures Valid() && calls == 0
    {
      this.judge, this.world, this.maxAttempts, this.chunkSize, this.calls := judge, world, maxAttempts, chunkSize, 0;
      this.sent := [];
    }

    /** What the calls since `start` say about a result: it comes from the last one, and an error
        that could be recovered from comes out only after the last attempt allowed. */
    ghost predicate Explains<T>(start: nat, r: Result<T, Error>)
      requires |sent| == calls
      reads this
    {
      && start < calls
      && (r.Ok? ==> world(calls - 1).Answers?)
      && (r.Err? ==>
            var last := world(calls - 1);
            && last.Raises? && r.error == ClientError(last.recoverable, last.code)
            && (last.recoverable ==>
                  start + maxAttempts <= calls && forall c :: calls - maxAttempts <= c < calls ==> world(c).Raises?))
      && Repeats(world, sent, start, maxAttempts)
    }

    /** `_score_answer_chunk_with_step_retry` */
    method ScoreChunk(answers: seq<string>) returns (r: Result<seq<AnswerScore>, Error>)
      requires Valid()
      modifies this
      ensures Valid() && Explains(old(calls), r) && calls <= old(calls) + maxAttempts
      ensures old(sent) <= sent && forall c :: old(calls) <= c < calls ==> sent[c] == answers
      ensures r.Ok? ==> r.value == Direct(answers, judge)
      ensures forall c :: old(calls) <= c < calls - 1 ==> world(c).Raises? && world(c).recoverable
    {
      var attempt := 0;
      while true
        invariant Valid() && attempt < maxAttempts && calls == old(calls) + attempt
        invariant old(sent) <= sent && forall c :: old(calls) <= c < calls ==> sent[c] == answers
        invariant forall c :: old(calls) <= c < calls ==> world(c).Raises? && world(c).recoverable
        decreases maxAttempts - attempt
      {
        var call := world(calls);
        calls, sent := calls + 1, sent + [answers];
        match call {
          case Answers => return Ok(Direct(answers, judge));
          case Raises(recoverable, code) =>
            if !recoverable || attempt == maxAttempts - 1 {
              return Err(ClientError(recoverable, code));
            }
        }
        attempt := attempt + 1;
      }
    }

    /** `_score_answer_chunks_with_step_retry`: chunk by chunk, indices shifted. */
    method ScoreChunks(answers: seq<string>) returns (r: Result<seq<AnswerScore>, Error>)
      requires Valid() && chunkSize.Some? && answers != []
      modifies this
      ensures Valid() && Explains(old(calls), r) && old(sent) <= sent
      ensures InChunks(world, sent, old(calls), chunkSize.value)
      ensures Delivered(world, sent, old(calls), calls) <= answers
      ensures r.Ok? ==> r.value == Direct(answers, judge) && Delivered(world, sent, old(calls), calls) == answers
    {
      hide Repeats, InChunks, Delivered;
      var all: seq<AnswerScore> := [];
      var offset := 0;
      NothingSent(world, sent, maxAttempts, chunkSize.value);
      while offset < |answers|
        invariant Valid() && old(sent) <= sent
        invariant 0 <= offset && (offset == 0 ==> calls == old(calls))
        invariant offset > 0 ==> calls > old(calls) && world(calls - 1).Answers?
        invariant all == Direct(answers[..Min(offset, |answers|)], judge)
        invariant Delivered(world, sent, old(calls), calls) == answers[..Min(offset, |answers|)]
        invariant Repeats(world, sent, old(calls), maxAttempts)
        invariant InChunks(world, sent, old(calls), chunkSize.value)
        invariant offset < |answers| ==>
          forall c :: old(calls) <= c < calls && world(c).Answers? ==> |sent[c]| == chunkSize.value
        decreases |answers| - offset
      {
        var chunk := answers[offset..Min(offset + chunkSize.value, |answers|)];
        ghost var before := sent;
        var scores := ScoreChunk(chunk);
        DeliveredStays(world, before, sent, old(calls), |before|);
        DeliveredOnce(world, sent, old(calls), |before|, calls);
        RepeatsMore(world, before, sent, old(calls), maxAttempts);
        InChunksMore(world, before, sent, old(calls), chunkSize.value, chunk);
        if scores.Err? {
          return scores;
        }
        all := AppendShifted(all, scores.value, offset, answers[..offset], chunk);
        assert answers[..offset] + chunk == answers[..Min(offset + chunkSize.value, |answers|)];
        offset := offset + chunkSize.value;
      }
      assert answers[..|answers|] == answers;
      r := Ok(all);
    }

    /** The scores of one chunk, their indices shifted to its place among the answers. */
    method AppendShifted(all: seq<AnswerScore>, scores: seq<AnswerScore>, offset: nat,
                         ghost front: seq<string>, ghost chunk: seq<string>)
      returns (more: seq<AnswerScore>)
      requires all == Direct(front, judge) && scores == Direct(chunk, judge) && offset == |front|
      ensures more == Direct(front + chunk, judge)
    {
      more := all;
      for k := 0 to |scores|
        invariant more == Direct(front + chunk[..k], judge)
      {
        assert front + chunk[..k + 1] == front + chunk[..k] + [chunk[k]];
        more := more + [AnswerScore(offset + scores[k].answerIndex, scores[k].score)];
      }
      assert chunk[..|scores|] == chunk;
    }

    /** `_score_answers_with_step_retry`: a result is that of one call with all the answers,
        whatever the chunk size and however many calls had to be repeated; an error is the one
        raised by the last call. */
    method ScoreAnswers(answers: seq<string>) returns (r: Result<seq<AnswerScore>, Error>)
      requires Valid()
      modifies this
      ensures Valid() && Explains(old(calls), r) && old(sent) <= sent
      ensures chunkSize.Some? ==> InChunks(world, sent, old(calls), chunkSize.value)
      ensures chunkSize.None? ==> forall c :: old(calls) <= c < calls ==> sent[c] == answers
      ensures r.Ok? ==> r.value == Direct(answers, judge) && Delivered(world, sent, old(calls), calls) == answers
    {
      if chunkSize.Some? && |answers| > chunkSize.value {
        r := ScoreChunks(answers);
      } else {
        r := ScoreChunk(answers);
        DeliveredOnce(world, sent, old(calls), old(calls), calls);
      }
    }

    /** From the shuffle to the restored scores, as `_evaluate_group` puts them together: teacher
        i and student j get exactly their own scores, or the verifier's error comes out. The
        verifier has been given each answer once, in the order of the keys. */
    method EvaluateAnswers(teacher: seq<string>, student: seq<string>, key: Item -> int)
      returns (r: Result<(seq<real>, seq<real>), Error>)
      requires Valid()
      modifies this
      ensures Valid() && Explains(old(calls), r)
      ensures chunkSize.Some? ==> InChunks(world, sent, old(calls), chunkSize.value)
      ensures r.Ok? ==> r.value == (Judged(teacher, judge), Judged(student, judge))
      ensures r.Ok? ==> exists items ::
        ShuffleOf(items, teacher, student, key) && Delivered(world, sent, old(calls), calls) == Texts(items)
    {
      hide Repeats, InChunks, Delivered, Shuffled, ShuffleOf, Restored, OneEach;
      var items := Shuffled(teacher, student, key);
      var answers := Texts(items);
      var scores := ScoreAnswers(answers);
      if scores.Err? {
        return Err(scores.error);
      }
      var ordered := Scores(scores.value);
      ShuffleRestores(teacher, student, key, judge);
      ShuffledItems(teacher, student, key);
      assert ordered == Judged(Texts(items), judge);
      r := RestoreScoresBySource(items, ordered, |teacher|, |student|);
    }
  }

  function Min(a: nat, b: nat): nat { if a < b then a else b }

  function Texts(items: seq<Item>): seq<string> {
    seq(|items|, i requires 0 <= i < |items| => items[i].text)
  }

  function Scores(scores: seq<AnswerScore>): seq<real> {
    seq(|scores|, i requires 0 <= i < |scores| => scores[i].score)
  }

  function Judged(answers: seq<string>, judge: string -> real): seq<real> {
    seq(|answers|, i requires 0 <= i < |answers| => judge(answers[i]))
  }

  // ----- restoring

  /** The score written last for a slot. */
  function Slot(items: seq<Item>, scores: seq<real>, source: Source, index: nat): Option<real>
    requires |items| <= |scores|
  {
    if items == [] then None
    else
      var n := |items| - 1;
      if items[n].source == source && items[n].index == index then Some(scores[n])
      else Slot(items[..n], scores, source, index)
  }

  /** The error of the first item that has no slot. */
  function Fault(items: seq<Item>, teachers: nat, students: nat): Option<Error> {
    if items == [] then None
    else
      var n := |items| - 1;
      var before := Fault(items[..n], teachers, students);
      if before.Some? then before
      else match items[n].source
        case Teacher => if items[n].index < teachers then None else Some(IndexError)
        case Student => if items[n].index < students then None else Some(IndexError)
        case Other(_) => Some(ValueError)
  }

  function Column(items: seq<Item>, scores: seq<real>, source: Source, count: nat): seq<Option<real>>
    requires |items| <= |scores|
  {
    seq(count, i requires 0 <= i < count => Slot(items, scores, source, i))
  }

  function Values(s: seq<Option<real>>): seq<real> {
    seq(|s|, i requires 0 <= i < |s| => if s[i].Some? then s[i].value else 0.0)
  }

  /** What restoring comes to: the first faulty item, a length mismatch, an empty slot, or for each
      slot the score written last. */
  function Restored(items: seq<Item>, scores: seq<real>, teachers: nat, students: nat)
    : Result<(seq<real>, seq<real>), Error>
  {
    var n := Min(|items|, |scores|);
    var fault := Fault(items[..n], teachers, students);
    if fault.Some? then Err(fault.value)
    else if |items| != |scores| then Err(ValueError)
    else
      var t, s := Column(items, scores, Teacher, teachers), Column(items, scores, Student, students);
      if None in t || None in s then Err(ValueError) else Ok((Values(t), Values(s)))
  }

  /** The item has a place among so many teacher and student scores. */
  predicate HasSlot(x: Item, teachers: nat, students: nat) {
    (x.source == Teacher && x.index < teachers) || (x.source == Student && x.index < students)
  }

  predicate Filled(items: seq<Item>, source: Source, index: nat) {
    exists k :: 0 <= k < |items| && items[k].source == source && items[k].index == index
  }

  /** No later item has the slot of item k. */
  predicate LastOfSlot(items: seq<Item>, k: nat)
    requires k < |items|
  {
    forall j :: k < j < |items| ==> !SameSlot(items[k], items[j])
  }

  /** Every slot has the score of its last item. */
  predicate ScoredByLast(items: seq<Item>, scores: seq<real>, source: Source, column: seq<real>) {
    |items| <= |scores| && forall k :: 0 <= k < |items| && items[k].source == source && LastOfSlot(items, k) ==>
      items[k].index < |column| && column[items[k].index] == scores[k]
  }

  /** The first of the first n items without a slot is one of a known source. */
  predicate IndexFaultFirst(items: seq<Item>, n: nat, teachers: nat, students: nat) {
    n <= |items| && exists k ::
      && 0 <= k < n && !HasSlot(items[k], teachers, students) && !items[k].source.Other?
      && forall j :: 0 <= j < k ==> HasSlot(items[j], teachers, students)
  }

  /** `_restore_scores_by_source` */
  method RestoreScoresBySource(items: seq<Item>, scores: seq<real>, teachers: nat, students: nat)
    returns (r: Result<(seq<real>, seq<real>), Error>)
    ensures r == Restored(items, scores, teachers, students)
    ensures r.Ok? <==>
      && |items| == |scores| && (forall x :: x in items ==> HasSlot(x, teachers, students))
      && (forall i :: 0 <= i < teachers ==> Filled(items, Teacher, i))
      && (forall i :: 0 <= i < students ==> Filled(items, Student, i))
    ensures r.Ok? ==>
      && |r.value.0| == teachers && ScoredByLast(items, scores, Teacher, r.value.0)
      && |r.value.1| == students && ScoredByLast(items, scores, Student, r.value.1)
    ensures r.Err? ==> r.error == if IndexFaultFirst(items, Min(|items|, |scores|), teachers, students)
                                  then IndexError else ValueError
  {
    RestoredMeans(items, scores, teachers, students);
    hide Column, Values, Fault, HasSlot, Filled, ScoredByLast, IndexFaultFirst;
    var t: seq<Option<real>> := seq(teachers, _ => None);
    var s: seq<Option<real>> := seq(students, _ => None);
    NoScores(scores, teachers, students);
    var n := Min(|items|, |scores|);
    for k := 0 to n
      invariant |t| == teachers && |s| == students
      invariant Fault(items[..k], teachers, students) == None
      invariant t == Column(items[..k], scores, Teacher, teachers) && s == Column(items[..k], scores, Student, students)
    {
      NextScore(items, scores, k, Teacher, teachers);
      NextScore(items, scores, k, Student, students);
      NextFault(items, k, teachers, students);
      var index := items[k].index;
      match items[k].source {
        case Teacher =>
          if index >= teachers {
            FaultStays(items, k + 1, n, teachers, students);
            return Err(IndexError);
          }
          t := t[index := Some(scores[k])];
        case Student =>
          if index >= students {
            FaultStays(items, k + 1, n, teachers, students);
            return Err(IndexError);
          }
          s := s[index := Some(scores[k])];
        case Other(_) =>
          FaultStays(items, k + 1, n, teachers, students);
          return Err(ValueError);
      }
    }
    if |items| != |scores| {
      return Err(ValueError);
    }
    assert items[..n] == items;
    if None in t {
      return Err(ValueError);
    }
    if None in s {
      return Err(ValueError);
    }
    r := Ok((Values(t), Values(s)));
  }

  lemma RestoredMeans(items: seq<Item>, scores: seq<real>, teachers: nat, students: nat)
    ensures var r := Restored(items, scores, teachers, students);
      && (r.Ok? <==>
          && |items| == |scores| && (forall x :: x in items ==> HasSlot(x, teachers, students))
          && (forall i :: 0 <= i < teachers ==> Filled(items, Teacher, i))
          && (forall i :: 0 <= i < students ==> Filled(items, Student, i)))
      && (r.Ok? ==>
          && |r.value.0| == teachers && ScoredByLast(items, scores, Teacher, r.value.0)
          && |r.value.1| == students && ScoredByLast(items, scores, Student, r.value.1))
      && (r.Err? ==> r.error == if IndexFaultFirst(items, Min(|items|, |scores|), teachers, students)
                                then IndexError else ValueError)
  {
    var n := Min(|items|, |scores|);
    FaultFree(items[..n], teachers, students);
    FaultMeans(items[..n], teachers, students);
    IndexFaultPrefix(items, n, teachers, students);
    assert n == |items| ==> items[..n] == items;
    if |items| == |scores| {
      ColumnMeans(items, scores, Teacher, teachers);
      ColumnMeans(items, scores, Student, students);
    }
    hide Column, Values, Fault, HasSlot, Filled, ScoredByLast, IndexFaultFirst;
  }

  lemma IndexFaultPrefix(items: seq<Item>, n: nat, teachers: nat, students: nat)
    requires n <= |items|
    ensures IndexFaultFirst(items[..n], n, teachers, students) <==> IndexFaultFirst(items, n, teachers, students)
  {
    assert forall k :: 0 <= k < n ==> items[..n][k] == items[k];
  }

  lemma {:induction false} FaultMeans(items: seq<Item>, teachers: nat, students: nat)
    ensures var f := Fault(items, teachers, students);
      f.Some? ==> f.value == if IndexFaultFirst(items, |items|, teachers, students) then IndexError else ValueError
  {
    if items != [] {
      var n := |items| - 1;
      FaultMeans(items[..n], teachers, students);
      IndexFaultPrefix(items, n, teachers, students);
      FaultFree(items[..n], teachers, students);
      assert items == items[..n] + [items[n]];
    }
  }

  lemma ColumnMeans(items: seq<Item>, scores: seq<real>, source: Source, count: nat)
    requires |items| == |scores|
    ensures var c := Column(items, scores, source, count);
      && (None !in c <==> forall i :: 0 <= i < count ==> Filled(items, source, i))
      && (None !in c && (forall x :: x in items && x.source == source ==> x.index < count) ==>
            ScoredByLast(items, scores, source, Values(c)))
  {
    var c := Column(items, scores, source, count);
    forall i | 0 <= i < count ensures c[i] != None <==> Filled(items, source, i) {
      SlotMeans(items, scores, source, i);
    }
    if None !in c && forall x :: x in items && x.source == source ==> x.index < count {
      forall k | 0 <= k < |items| && items[k].source == source && LastOfSlot(items, k)
        ensures items[k].index < count && Values(c)[items[k].index] == scores[k]
      {
        assert items[k] in items;
        LastSlot(items, scores, k);
      }
    }
  }

  lemma {:induction false} SlotMeans(items: seq<Item>, scores: seq<real>, source: Source, index: nat)
    requires |items| <= |scores|
    ensures Slot(items, scores, source, index) != None <==> Filled(items, source, index)
  {
    if items != [] {
      var n := |items| - 1;
      SlotMeans(items[..n], scores, source, index);
      assert items == items[..n] + [items[n]];
    }
  }

  lemma {:induction false} LastSlot(items: seq<Item>, scores: seq<real>, k: nat)
    requires |items| <= |scores| && k < |items| && LastOfSlot(items, k)
    ensures Slot(items, scores, items[k].source, items[k].index) == Some(scores[k])
  {
    var n := |items| - 1;
    if k < n {
      assert !SameSlot(items[k], items[n]);
      assert items[..n][k] == items[k];
      LastSlot(items[..n], scores, k);
    }
  }

  lemma NoScores(scores: seq<real>, teachers: nat, students: nat)
    ensures Column([], scores, Teacher, teachers) == seq(teachers, _ => None)
    ensures Column([], scores, Student, students) == seq(students, _ => None)
    ensures Fault([], teachers, students) == None
  {}

  /** One more score changes its own slot. */
  lemma NextScore(items: seq<Item>, scores: seq<real>, k: nat, source: Source, count: nat)
    requires k < |items| && k < |scores|
    ensures var before := Column(items[..k], scores, source, count);
      |before| == count
      && Column(items[..k + 1], scores, source, count)
         == if items[k].source == source && items[k].index < count
            then before[items[k].index := Some(scores[k])] else before
  {
    assert items[..k + 1][..k] == items[..k];
  }

  lemma NextFault(items: seq<Item>, k: nat, teachers: nat, students: nat)
    requires k < |items| && Fault(items[..k], teachers, students) == None
    ensures Fault(items[..k + 1], teachers, students) ==
      match items[k].source
      case Teacher => if items[k].index < teachers then None else Some(IndexError)
      case Student => if items[k].index < students then None else Some(IndexError)
      case Other(_) => Some(ValueError)
  {
    assert items[..k + 1][..k] == items[..k];
  }

  lemma {:induction false} FaultStays(items: seq<Item>, k: nat, n: nat, teachers: nat, students: nat)
    requires k <= n <= |items| && Fault(items[..k], teachers, students).Some?
    ensures Fault(items[..n], teachers, students) == Fault(items[..k], teachers, students)
  {
    if k < n {
      FaultStays(items, k, n - 1, teachers, students);
      assert items[..n][..n - 1] == items[..n - 1];
    }
  }

  lemma {:induction false} FaultFree(items: seq<Item>, teachers: nat, students: nat)
    ensures Fault(items, teachers, students) == None <==>
      forall x :: x in items ==> HasSlot(x, teachers, students)
  {
    if items != [] {
      var n := |items| - 1;
      FaultFree(items[..n], teachers, students);
      assert items == items[..n] + [items[n]];
      forall x ensures x in items <==> x in items[..n] || x == items[n] {}
      assert items[n] in items;
    }
  }

  /** Whatever the sort key, shuffling, judging and restoring gives every answer its own score. */
  lemma ShuffleRestores(teacher: seq<string>, student: seq<string>, key: Item -> int, judge: string -> real)
    ensures var items := Shuffled(teacher, student, key);
      Restored(items, Judged(Texts(items), judge), |teacher|, |student|)
      == Ok((Judged(teacher, judge), Judged(student, judge)))
  {
    hide Sort, Slot, Fault;
    var items := Shuffled(teacher, student, key);
    var scores := Judged(Texts(items), judge);
    ShuffledItems(teacher, student, key);
    hide Shuffled, OneEach;
    FaultFree(items, |teacher|, |student|);
    assert items[..|items|] == items;
    ColumnJudged(items, scores, Teacher, teacher, judge);
    ColumnJudged(items, scores, Student, student, judge);
    hide Column, Values;
  }

  /** The answers of both sources, once each, in the order of their keys. */
  predicate ShuffleOf(items: seq<Item>, teacher: seq<string>, student: seq<string>, key: Item -> int) {
    && |items| == |teacher| + |student|
    && (forall i :: 0 <= i < |teacher| ==> Item(Teacher, i, teacher[i]) in items)
    && (forall i :: 0 <= i < |student| ==> Item(Student, i, student[i]) in items)
    && forall i, j :: 0 <= i < j < |items| ==> items[i] != items[j] && key(items[i]) <= key(items[j])
  }

  lemma ShuffledItems(teacher: seq<string>, student: seq<string>, key: Item -> int)
    ensures ShuffleOf(Shuffled(teacher, student, key), teacher, student, key)
    ensures var items := Shuffled(teacher, student, key);
      && OneEach(items)
      && (forall i :: 0 <= i < |teacher| ==> Item(Teacher, i, teacher[i]) in items)
      && (forall i :: 0 <= i < |student| ==> Item(Student, i, student[i]) in items)
      && forall x :: x in items ==> HasSlot(x, |teacher|, |student|)
  {
    hide Sort;
    var (a, b) := (ItemsOf(Teacher, teacher), ItemsOf(Student, student));
    SortKeeps(a + b, key);
    SortSorts(a + b, key);
    forall i | 0 <= i < |teacher| ensures Item(Teacher, i, teacher[i]) in a + b {
      assert (a + b)[i] == Item(Teacher, i, teacher[i]);
    }
    forall i | 0 <= i < |student| ensures Item(Student, i, student[i]) in a + b {
      assert (a + b)[|a| + i] == Item(Student, i, student[i]);
    }
  }

  /** A slot filled by exactly the items of `answers` holds their scores. */
  lemma ColumnJudged(items: seq<Item>, scores: seq<real>, source: Source, answers: seq<string>, judge: string -> real)
    requires OneEach(items) && scores == Judged(Texts(items), judge)
    requires forall i :: 0 <= i < |answers| ==> Item(source, i, answers[i]) in items
    ensures var c := Column(items, scores, source, |answers|);
      None !in c && Values(c) == Judged(answers, judge)
  {
    forall i | 0 <= i < |answers| ensures Slot(items, scores, source, i) == Some(judge(answers[i])) {
      assert Item(source, i, answers[i]) in items;
      var k :| 0 <= k < |items| && items[k] == Item(source, i, answers[i]);
      LastSlot(items, scores, k);
    }
  }
}
