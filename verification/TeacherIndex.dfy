/** The offline teacher index: scanning a dataset, building the index over any number of runs that
  fail or are interrupted between rows, and loading and reading it. The index file is the list of
  its rows; a teacher fingerprint is known by its digest; answers are stripped text. */
module TeacherIndex {
  import opened Wrappers

  /** uid and prompt hash */
  datatype Key = Key(uid: string, promptHash: string)

  datatype Schema = SingleAnswer | MultiAnswer | OtherSchema

  datatype Row = Row(schema: Schema, key: Key, answers: seq<string>, fingerprint: string)

  datatype Error = FileExists | MutuallyExclusive | MixedPrompts | UnsupportedSchema | EmptyAnswer
                 | FingerprintMismatch | DuplicateKey | TooFewAnswers | Miss | BadCount

  // ----- loading

  /** `_load_teacher_answers`: at least one answer and none empty; one for the old schema. */
  predicate AnswersOk(row: Row) {
    && row.answers != [] && (forall i :: 0 <= i < |row.answers| ==> row.answers[i] != [])
    && (row.schema == SingleAnswer ==> |row.answers| == 1)
  }

  predicate RowOk(row: Row, fingerprint: string) {
    row.schema != OtherSchema && AnswersOk(row) && row.fingerprint == fingerprint
  }

  predicate OneEach(rows: seq<Row>) {
    forall i, j :: 0 <= i < j < |rows| ==> rows[i].key != rows[j].key
  }

  predicate Loadable(rows: seq<Row>, fingerprint: string) {
    OneEach(rows) && forall i :: 0 <= i < |rows| ==> RowOk(rows[i], fingerprint)
  }

  function Keys(rows: seq<Row>): set<Key> {
    set i | 0 <= i < |rows| :: rows[i].key
  }

  /** The dictionary of the rows' answers. */
  predicate Holds(rows: seq<Row>, records: map<Key, seq<string>>) {
    && records.Keys == Keys(rows)
    && forall i :: 0 <= i < |rows| ==> rows[i].key in records && records[rows[i].key] == rows[i].answers
  }

  /** `OfflineTeacherIndex.load`: accepts exactly the loadable files, and keeps every row's answers
      under its key. */
  method Load(rows: seq<Row>, fingerprint: string) returns (r: Result<map<Key, seq<string>>, Error>)
    ensures r.Ok? <==> Loadable(rows, fingerprint)
    ensures r.Ok? ==> Holds(rows, r.value)
    ensures r.Ok? <==> RowsFine(rows, fingerprint, 1)
    ensures r.Ok? ==>
      && (forall k :: k in r.value ==> exists i :: 0 <= i < |rows| && rows[i].key == k)
      && forall i :: 0 <= i < |rows| ==> rows[i].key in r.value && r.value[rows[i].key] == rows[i].answers
  {
    LoadableMeans(rows, fingerprint);
    HoldsMeans(rows);
    hide RowsFine, Loadable, Holds, AnswersOk;
    var records: map<Key, seq<string>> := map[];
    NoRows(fingerprint);
    for n := 0 to |rows|
      invariant Loadable(rows[..n], fingerprint) && Holds(rows[..n], records)
    {
      var row := rows[n];
      assert rows[..n + 1] == rows[..n] + [row] && rows == rows[..n + 1] + rows[n + 1..];
      OneMoreRow(rows[..n], row, rows[n + 1..], fingerprint, records);
      if row.schema == OtherSchema {
        return Err(UnsupportedSchema);
      }
      if !AnswersOk(row) {
        return Err(EmptyAnswer);
      }
      if row.fingerprint != fingerprint {
        return Err(FingerprintMismatch);
      }
      if row.key in records {
        return Err(DuplicateKey);
      }
      records := records[row.key := row.answers];
    }
    assert rows[..|rows|] == rows;
    r := Ok(records);
  }

  /** Every row has one of the two schemas, the fingerprint, and at least so many answers, none of
      them empty, just one in the old schema; and no two rows have the same key. */
  predicate RowsFine(rows: seq<Row>, fingerprint: string, count: nat) {
    && (forall i :: 0 <= i < |rows| ==>
          && (rows[i].schema == MultiAnswer || (rows[i].schema == SingleAnswer && |rows[i].answers| == 1))
          && rows[i].fingerprint == fingerprint && |rows[i].answers| >= count && "" !in rows[i].answers)
    && forall i, j :: 0 <= i < j < |rows| ==> rows[i].key != rows[j].key
  }

  lemma LoadableMeans(rows: seq<Row>, fingerprint: string)
    ensures Loadable(rows, fingerprint) <==> RowsFine(rows, fingerprint, 1)
  {
    forall i | 0 <= i < |rows|
      ensures RowOk(rows[i], fingerprint) <==>
        && (rows[i].schema == MultiAnswer || (rows[i].schema == SingleAnswer && |rows[i].answers| == 1))
        && rows[i].fingerprint == fingerprint && |rows[i].answers| >= 1 && "" !in rows[i].answers
    {
      RowMeans(rows[i], fingerprint);
    }
    hide RowOk;
  }

  lemma RowMeans(row: Row, fingerprint: string)
    ensures RowOk(row, fingerprint) <==>
      && (row.schema == MultiAnswer || (row.schema == SingleAnswer && |row.answers| == 1))
      && row.fingerprint == fingerprint && |row.answers| >= 1 && "" !in row.answers
  {}

  lemma HoldsMeans(rows: seq<Row>)
    ensures forall records :: Holds(rows, records) ==>
      && (forall k :: k in records ==> exists i :: 0 <= i < |rows| && rows[i].key == k)
      && forall i :: 0 <= i < |rows| ==> rows[i].key in records && records[rows[i].key] == rows[i].answers
  {}

  lemma NoRows(fingerprint: string)
    ensures Loadable([], fingerprint) && Holds([], map[])
  {}

  lemma OneMoreRow(rows: seq<Row>, row: Row, more: seq<Row>, fingerprint: string, records: map<Key, seq<string>>)
    requires Loadable(rows, fingerprint) && Holds(rows, records)
    ensures Loadable(rows + [row], fingerprint) <==> RowOk(row, fingerprint) && row.key !in records
    ensures !Loadable(rows + [row], fingerprint) ==> !Loadable(rows + [row] + more, fingerprint)
    ensures row.key !in records ==> Holds(rows + [row], records[row.key := row.answers])
  {
    hide RowOk;
    var t := rows + [row];
    KeysNext(rows, row);
    if row.key in records {
      var i :| 0 <= i < |rows| && rows[i].key == row.key;
      assert t[i].key == t[|rows|].key;
    }
    if Loadable(t + more, fingerprint) {
      assert forall i :: 0 <= i < |t| ==> (t + more)[i] == t[i];
    }
    assert t[|rows|] == row && forall i :: 0 <= i < |rows| ==> t[i] == rows[i];
    if row.key !in records {
      forall i | 0 <= i < |rows| ensures rows[i].key != row.key {
        assert rows[i].key in Keys(rows);
      }
    }
  }

  lemma KeysNext(rows: seq<Row>, row: Row)
    ensures Keys(rows + [row]) == Keys(rows) + {row.key}
  {
    var t := rows + [row];
    forall k ensures k in Keys(t) <==> k in Keys(rows) + {row.key} {
      if k in Keys(rows) {
        var i :| 0 <= i < |rows| && rows[i].key == k;
        assert t[i].key == k;
      }
      assert t[|rows|].key == row.key;
    }
  }

  /** `lookup_many` */
  method LookupMany(records: map<Key, seq<string>>, key: Key, count: Option<int>)
      returns (r: Result<seq<string>, Error>)
    ensures r.Ok? <==> key in records && (count.Some? ==> 1 <= count.value <= |records[key]|)
    ensures r.Ok? ==> r.value == if count.None? then records[key] else records[key][..count.value]
    ensures key !in records ==> r == Err(Miss)
  {
    if key !in records {
      return Err(Miss);
    }
    if count.None? {
      return Ok(records[key]);
    }
    if count.value < 1 || count.value > |records[key]| {
      return Err(BadCount);
    }
    r := Ok(records[key][..count.value]);
  }

  // ----- scanning the dataset

  predicate OnePromptEach(keys: seq<Key>) {
    forall i, j :: 0 <= i < j < |keys| && keys[i].uid == keys[j].uid ==> keys[i] == keys[j]
  }

  function KeySet(keys: seq<Key>): set<Key> { set k | k in keys }

  /** Records i and j share a prompt. */
  predicate Share(keys: seq<Key>, i: int, j: int) {
    0 <= i < |keys| && 0 <= j < |keys| && keys[i].promptHash == keys[j].promptHash && keys[i].uid != keys[j].uid
  }

  /** Prompt hashes that occur with several uids. */
  function SharedPrompts(keys: seq<Key>): set<string> {
    set i, j | 0 <= i < |keys| && 0 <= j < |keys| && Share(keys, i, j) :: keys[i].promptHash
  }

  datatype Scan = Scan(uniqueKeys: seq<Key>, duplicateKeys: nat, duplicatePrompts: nat)

  /** `uid_to_prompt_hash` */
  predicate KnowsPrompts(keys: seq<Key>, promptOf: map<string, string>) {
    && (forall u :: u in promptOf ==> exists i :: 0 <= i < |keys| && keys[i] == Key(u, promptOf[u]))
    && forall i :: 0 <= i < |keys| ==> keys[i].uid in promptOf && promptOf[keys[i].uid] == keys[i].promptHash
  }

  /** `prompt_hash_to_uid` */
  predicate KnowsFirst(keys: seq<Key>, firstUid: map<string, string>) {
    && (forall h :: h in firstUid ==> exists i :: 0 <= i < |keys| && keys[i] == Key(firstUid[h], h))
    && forall i :: 0 <= i < |keys| ==> keys[i].promptHash in firstUid
  }

  predicate Distinct(keys: seq<Key>) {
    forall i, j :: 0 <= i < j < |keys| ==> keys[i] != keys[j]
  }

  /** `_scan_dataset`: fails exactly when a uid has two prompts; otherwise lists every key once. */
  method ScanDataset(dataset: seq<Key>) returns (r: Result<Scan, Error>)
    ensures r.Ok? <==> OnePromptEach(dataset)
    ensures r.Ok? <==> forall i, j :: 0 <= i < j < |dataset| && dataset[i].uid == dataset[j].uid ==>
      dataset[i].promptHash == dataset[j].promptHash
    ensures r.Err? ==> r.error == MixedPrompts
    ensures r.Ok? ==> KeySet(r.value.uniqueKeys) == KeySet(dataset) && Distinct(r.value.uniqueKeys)
    ensures r.Ok? ==> |r.value.uniqueKeys| + r.value.duplicateKeys == |dataset|
    ensures r.Ok? ==> r.value.duplicatePrompts == |SharedPrompts(dataset)|
  {
    PromptsMean(dataset);
    hide KnowsPrompts, KnowsFirst, Distinct, OnePromptEach, SharedPrompts, KeySet;
    var promptOf: map<string, string> := map[];
    var firstUid: map<string, string> := map[];
    var shared: set<string> := {};
    var order: seq<Key>, seen: set<Key>, duplicates := [], {}, 0;
    NoRecords();
    for n := 0 to |dataset|
      invariant OnePromptEach(dataset[..n]) && KnowsPrompts(dataset[..n], promptOf)
      invariant KnowsFirst(dataset[..n], firstUid) && shared == SharedPrompts(dataset[..n])
      invariant seen == KeySet(dataset[..n]) == KeySet(order) && Distinct(order)
      invariant |order| + duplicates == n
    {
      var k := dataset[n];
      assert dataset[..n + 1] == dataset[..n] + [k] && dataset == dataset[..n + 1] + dataset[n + 1..];
      PromptsNext(dataset[..n], k, dataset[n + 1..], promptOf);
      SharedNext(dataset[..n], k, firstUid);
      KeysAfter(dataset[..n], order, k);
      if k.uid in promptOf && promptOf[k.uid] != k.promptHash {
        return Err(MixedPrompts);
      }
      promptOf := promptOf[k.uid := k.promptHash];
      if k.promptHash !in firstUid {
        firstUid := firstUid[k.promptHash := k.uid];
      } else if firstUid[k.promptHash] != k.uid {
        shared := shared + {k.promptHash};
      }
      if k in seen {
        duplicates := duplicates + 1;
      } else {
        seen := seen + {k};
        order := order + [k];
      }
    }
    assert dataset[..|dataset|] == dataset;
    r := Ok(Scan(order, duplicates, |shared|));
  }

  lemma PromptsMean(dataset: seq<Key>)
    ensures OnePromptEach(dataset) <==>
      forall i, j :: 0 <= i < j < |dataset| && dataset[i].uid == dataset[j].uid ==>
        dataset[i].promptHash == dataset[j].promptHash
  {}

  lemma NoRecords()
    ensures OnePromptEach([]) && KnowsPrompts([], map[]) && KnowsFirst([], map[]) && SharedPrompts([]) == {}
    ensures KeySet([]) == {} && Distinct([])
  {}

  lemma PromptsNext(s: seq<Key>, k: Key, more: seq<Key>, promptOf: map<string, string>)
    requires OnePromptEach(s) && KnowsPrompts(s, promptOf)
    ensures var mixed := k.uid in promptOf && promptOf[k.uid] != k.promptHash;
      && (OnePromptEach(s + [k]) <==> !mixed)
      && (mixed ==> !OnePromptEach(s + [k] + more))
      && (!mixed ==> KnowsPrompts(s + [k], promptOf[k.uid := k.promptHash]))
  {
    if k.uid in promptOf && promptOf[k.uid] != k.promptHash {
      MixedPrompt(s, k, more, promptOf);
      MixedPrompt(s, k, [], promptOf);
      assert s + [k] + [] == s + [k];
    } else {
      KnownPrompt(s, k, promptOf);
      hide KnowsPrompts;
      assert OnePromptEach(s + [k]);
    }
  }

  lemma MixedPrompt(s: seq<Key>, k: Key, more: seq<Key>, promptOf: map<string, string>)
    requires KnowsPrompts(s, promptOf) && k.uid in promptOf && promptOf[k.uid] != k.promptHash
    ensures !OnePromptEach(s + [k] + more)
  {
    var i :| 0 <= i < |s| && s[i] == Key(k.uid, promptOf[k.uid]);
    var t := s + [k] + more;
    assert t[i] == s[i] && t[|s|] == k;
  }

  lemma KnownPrompt(s: seq<Key>, k: Key, promptOf: map<string, string>)
    requires KnowsPrompts(s, promptOf) && (k.uid in promptOf ==> promptOf[k.uid] == k.promptHash)
    ensures KnowsPrompts(s + [k], promptOf[k.uid := k.promptHash])
    ensures forall i :: 0 <= i < |s| && s[i].uid == k.uid ==> s[i] == k
  {
    var (t, p) := (s + [k], promptOf[k.uid := k.promptHash]);
    assert t[|s|] == k && forall i :: 0 <= i < |s| ==> t[i] == s[i];
    forall u | u in p ensures exists i :: 0 <= i < |t| && t[i] == Key(u, p[u]) {
      if u == k.uid {
        assert t[|s|] == Key(u, p[u]);
      } else {
        var i :| 0 <= i < |s| && s[i] == Key(u, promptOf[u]);
        assert t[i] == Key(u, p[u]);
      }
    }
  }

  /** One more record makes its prompt shared exactly when the first uid of the prompt is another,
      unless it is shared already. */
  lemma SharedNext(s: seq<Key>, k: Key, firstUid: map<string, string>)
    requires KnowsFirst(s, firstUid)
    ensures var h := k.promptHash;
      && SharedPrompts(s + [k]) == SharedPrompts(s) + (if h in firstUid && firstUid[h] != k.uid then {h} else {})
      && KnowsFirst(s + [k], if h in firstUid then firstUid else firstUid[h := k.uid])
  {
    var (t, h) := (s + [k], k.promptHash);
    assert t[|s|] == k && forall i :: 0 <= i < |s| ==> t[i] == s[i];
    FirstNext(s, k, firstUid);
    forall x
      ensures x in SharedPrompts(t) <==> x in SharedPrompts(s) || (x == h && h in firstUid && firstUid[h] != k.uid)
    {
      SharedOne(s, k, firstUid, x);
    }
  }

  lemma FirstNext(s: seq<Key>, k: Key, firstUid: map<string, string>)
    requires KnowsFirst(s, firstUid)
    ensures KnowsFirst(s + [k], if k.promptHash in firstUid then firstUid else firstUid[k.promptHash := k.uid])
  {
    var t := s + [k];
    var f := if k.promptHash in firstUid then firstUid else firstUid[k.promptHash := k.uid];
    forall h | h in f ensures exists i :: 0 <= i < |t| && t[i] == Key(f[h], h) {
      if h in firstUid {
        var i :| 0 <= i < |s| && s[i] == Key(firstUid[h], h);
        assert t[i] == s[i];
      } else {
        assert t[|s|] == k;
      }
    }
  }

  lemma SharedOne(s: seq<Key>, k: Key, firstUid: map<string, string>, x: string)
    requires KnowsFirst(s, firstUid)
    ensures x in SharedPrompts(s + [k]) <==>
      x in SharedPrompts(s) || (x == k.promptHash && x in firstUid && firstUid[x] != k.uid)
  {
    var t := s + [k];
    assert t[|s|] == k && forall i :: 0 <= i < |s| ==> t[i] == s[i];
    if x in SharedPrompts(s) {
      var i, j :| 0 <= i < |s| && 0 <= j < |s| && Share(s, i, j) && s[i].promptHash == x;
      assert t[i] == s[i] && t[j] == s[j];
      assert Share(t, i, j);
    } else if x == k.promptHash && x in firstUid && firstUid[x] != k.uid {
      var i :| 0 <= i < |s| && s[i] == Key(firstUid[x], x);
      assert t[i] == s[i] && t[|s|] == k;
      assert Share(t, i, |s|);
    } else if x in SharedPrompts(t) {
      var i, j :| 0 <= i < |t| && 0 <= j < |t| && Share(t, i, j) && t[i].promptHash == x;
      if i < |s| && j < |s| {
        assert t[i] == s[i] && t[j] == s[j];
        assert Share(s, i, j);
      } else {
        var m := if i < |s| then i else j;
        assert m < |s| && t[m] == s[m] && t[|s|] == k;
        assert s[m].promptHash == x && x in firstUid;
        var f :| 0 <= f < |s| && s[f] == Key(firstUid[x], x);
        assert Share(s, f, m);
      }
    }
  }

  lemma KeysAfter(s: seq<Key>, order: seq<Key>, k: Key)
    requires KeySet(s) == KeySet(order) && Distinct(order)
    ensures KeySet(s + [k]) == KeySet(s) + {k} && KeySet(order + [k]) == KeySet(order) + {k}
    ensures k !in KeySet(s) ==> Distinct(order + [k])
    ensures k in KeySet(s) ==> KeySet(s + [k]) == KeySet(s)
  {}

  // ----- generating what is missing

  /** What the teacher did for one record: answers, an exception, or the user interrupted. */
  datatype Event = Produced(answers: seq<string>) | Raised | Interrupted

  /** What is built: one fingerprint and number of answers for a dataset. */
  datatype Job = Job(dataset: seq<Key>, fingerprint: string, count: nat)

  function Dataset(job: Job): set<Key> { KeySet(job.dataset) }

  /** `_build_index_row` accepts the answers. */
  predicate Usable(answers: seq<string>, count: nat) {
    |answers| == count && forall i :: 0 <= i < |answers| ==> answers[i] != []
  }

  /** The event gives a row. */
  predicate Yields(job: Job, e: Event) { e.Produced? && Usable(e.answers, job.count) }

  /** A record that has been dealt with, and how. */
  datatype Settled = Settled(key: Key, event: Event)

  function RowFor(job: Job, x: Settled): Row
    requires Yields(job, x.event)
  {
    Row(MultiAnswer, x.key, x.event.answers, job.fingerprint)
  }

  /** The rows written for the records settled, in that order: exactly the answers produced. */
  function RowsOf(job: Job, log: seq<Settled>): seq<Row> {
    if log == [] then []
    else
      var x := log[|log| - 1];
      RowsOf(job, log[..|log| - 1])
      + if Yields(job, x.event) then [RowFor(job, x)] else []
  }

  /** The entries of the failure file. */
  function FailuresOf(job: Job, log: seq<Settled>): seq<Key> {
    if log == [] then []
    else
      var x := log[|log| - 1];
      FailuresOf(job, log[..|log| - 1]) + if Yields(job, x.event) then [] else [x.key]
  }

  function LogKeys(log: seq<Settled>): set<Key> { set x | x in log :: x.key }

  function Events(log: seq<Settled>): seq<Event> {
    seq(|log|, i requires 0 <= i < |log| => log[i].event)
  }

  predicate DistinctKeys(log: seq<Settled>) {
    forall i, j :: 0 <= i < j < |log| ==> log[i].key != log[j].key
  }

  /** The events settle the pending keys one by one: all of them, or those before an interruption,
      which may also come when all are settled. */
  ghost predicate Consumed(pending: set<Key>, log: seq<Settled>, events: seq<Event>) {
    && DistinctKeys(log) && (forall x :: x in log ==> !x.event.Interrupted?)
    && if CutShort(events) then events == Events(log) + [Interrupted] && LogKeys(log) <= pending
       else events == Events(log) && LogKeys(log) == pending
  }

  /** The user interrupted. */
  predicate CutShort(events: seq<Event>) { events != [] && events[|events| - 1].Interrupted? }

  lemma LogNext(job: Job, log: seq<Settled>, x: Settled)
    ensures LogKeys(log + [x]) == LogKeys(log) + {x.key} && Events(log + [x]) == Events(log) + [x.event]
    ensures RowsOf(job, log + [x]) == RowsOf(job, log)
      + if Yields(job, x.event) then [RowFor(job, x)] else []
    ensures FailuresOf(job, log + [x]) == FailuresOf(job, log) + if Yields(job, x.event) then [] else [x.key]
    ensures DistinctKeys(log) && x.key !in LogKeys(log) ==> DistinctKeys(log + [x])
  {
    var t := log + [x];
    assert t[..|log|] == log && t[|log|] == x;
    assert forall i :: 0 <= i < |log| ==> log[i] in log && log[i].key in LogKeys(log);
  }

  lemma {:induction false} LogConcat(job: Job, s: seq<Settled>, t: seq<Settled>)
    ensures LogKeys(s + t) == LogKeys(s) + LogKeys(t) && Events(s + t) == Events(s) + Events(t)
    ensures RowsOf(job, s + t) == RowsOf(job, s) + RowsOf(job, t)
    ensures FailuresOf(job, s + t) == FailuresOf(job, s) + FailuresOf(job, t)
  {
    hide LogKeys, Events, RowsOf, FailuresOf, Yields, DistinctKeys;
    if t == [] {
      assert s + t == s;
      NothingConsumed(job);
    } else {
      var n := |t| - 1;
      assert s + t == s + t[..n] + [t[n]] && t == t[..n] + [t[n]];
      LogConcat(job, s, t[..n]);
      LogNext(job, s + t[..n], t[n]);
      LogNext(job, t[..n], t[n]);
    }
  }

  lemma NothingConsumed(job: Job)
    ensures Consumed({}, [], []) && RowsOf(job, []) == [] && FailuresOf(job, []) == []
    ensures !CutShort([]) && KeySet([]) == {}
    ensures LogKeys([]) == {} && Events([]) == [] && DistinctKeys([])
  {}

  lemma NotCutShort(log: seq<Settled>)
    requires forall x :: x in log ==> !x.event.Interrupted?
    ensures !CutShort(Events(log)) && CutShort(Events(log) + [Interrupted])
  {
    assert log != [] ==> log[|log| - 1] in log;
  }

  /** Two batches one after the other. */
  lemma ConsumedJoin(job: Job, a: set<Key>, s: seq<Settled>, e: seq<Event>, b: set<Key>, t: seq<Settled>, f: seq<Event>)
    requires Consumed(a, s, e) && !CutShort(e) && Consumed(b, t, f) && a !! b
    ensures Consumed(a + b, s + t, e + f) && CutShort(e + f) == CutShort(f)
  {
    LogConcat(job, s, t);
    DistinctJoin(s, t);
    NotCutShort(s + t);
    hide LogKeys, Events, DistinctKeys, CutShort;
    NotCutShort(s);
    NotCutShort(t);
  }

  lemma DistinctJoin(s: seq<Settled>, t: seq<Settled>)
    requires DistinctKeys(s) && DistinctKeys(t) && LogKeys(s) !! LogKeys(t)
    ensures DistinctKeys(s + t)
  {
    forall i, j | 0 <= i < j < |s + t| ensures (s + t)[i].key != (s + t)[j].key {
      if i < |s| <= j {
        assert s[i] in s && t[j - |s|] in t;
        assert s[i].key in LogKeys(s) && t[j - |s|].key in LogKeys(t);
      }
    }
  }

  /** Outcome of generating: how many rows and failures, and whether it was cut short. */
  datatype Built = Built(generated: nat, failed: nat, interrupted: bool)

  datatype Exit = Code(code: nat) | Raises(error: Error)

  /** How a run ends that validates its index at last: an unusable file would raise. */
  function Validated<T>(check: Result<T, Error>, code: nat): Exit {
    if check.Err? then Raises(check.error) else Code(code)
  }

  function Trace(world: nat -> Event, a: nat, b: nat): seq<Event>
    requires a <= b
  {
    seq(b - a, i requires 0 <= i < b - a => world(a + i))
  }

  /** The index file and the failure file. */
  datatype Files = Files(rows: seq<Row>, failures: seq<Key>)

  function Appended(job: Job, f: Files, log: seq<Settled>): Files {
    Files(f.rows + RowsOf(job, log), f.failures + FailuresOf(job, log))
  }

  class TeacherIndexBuilder {
    const world: nat -> Event
    var rows: seq<Row>
    var failures: seq<Key>
    var events: nat

    function Contents(): Files
      reads this
    {
      Files(rows, failures)
    }

    constructor (world: nat -> Event, files: Files)
      ensures this.world == world && Contents() == files
    {
      this.world, this.rows, this.failures, this.events := world, files.rows, files.failures, 0;
    }

    /** The teacher's events n, n + 1, ... up to now. */
    ghost function Since(n: nat): seq<Event>
      requires n <= events
      reads this
    {
      Trace(world, n, events)
    }

    /** `_process_record_batch`: in whatever order the records complete, each event settles one of
        them and adds its row or its failure, until none is left or the user interrupts. */
    method ProcessRecordBatch(job: Job, records: seq<Key>) returns (built: Built, ghost log: seq<Settled>)
      requires job.count > 0
      modifies this`rows, this`failures, this`events
      ensures old(events) <= events && Consumed(KeySet(records), log, Since(old(events)))
      ensures CutShort(Since(old(events))) ==> LogKeys(log) < KeySet(records)
      ensures Contents() == Appended(job, old(Contents()), log)
      ensures built == Built(|RowsOf(job, log)|, |FailuresOf(job, log)|, CutShort(Since(old(events))))
    {
      hide Yields, RowsOf, FailuresOf, LogKeys, Events, DistinctKeys, KeySet, CutShort;
      var remaining := KeySet(records);
      log := [];
      var generated, failed := 0, 0;
      NothingConsumed(job);
      assert Since(old(events)) == [];
      while remaining != {}
        invariant old(events) <= events && Contents() == Appended(job, old(Contents()), log)
        invariant generated == |RowsOf(job, log)| && failed == |FailuresOf(job, log)|
        invariant DistinctKeys(log) && forall x :: x in log ==> !x.event.Interrupted?
        invariant Since(old(events)) == Events(log)
        invariant LogKeys(log) !! remaining && LogKeys(log) + remaining == KeySet(records)
        decreases remaining
      {
        var k :| k in remaining;
        var event := world(events);
        ghost var before := Since(old(events));
        events := events + 1;
        assert Since(old(events)) == before + [event];
        NotCutShort(log);
        if event.Interrupted? {
          return Built(generated, failed, true), log;
        }
        LogNext(job, log, Settled(k, event));
        log := log + [Settled(k, event)];
        if event.Produced? && Usable(event.answers, job.count) {
          assert Yields(job, event) by { YieldsMeans(job, event); }
          rows := rows + [Row(MultiAnswer, k, event.answers, job.fingerprint)];
          generated := generated + 1;
        } else {
          assert !Yields(job, event) by { YieldsMeans(job, event); }
          failures := failures + [k];
          failed := failed + 1;
        }
        remaining := remaining - {k};
      }
      NotCutShort(log);
      built := Built(generated, failed, false);
    }

    /** `_generate_missing_records`: in batches, each pending key once. An interruption that comes
        after all of them, before the workers are shut down, counts too. */
    method GenerateMissingRecords(job: Job, pending: set<Key>, batchSize: nat)
        returns (built: Built, ghost log: seq<Settled>)
      requires job.count > 0 && batchSize > 0 && pending <= Dataset(job)
      modifies this`rows, this`failures, this`events
      ensures old(events) <= events && Consumed(pending, log, Since(old(events)))
      ensures CutShort(Since(old(events))) || !world(events).Interrupted?
      ensures Contents() == Appended(job, old(Contents()), log)
      ensures built == Built(|RowsOf(job, log)|, |FailuresOf(job, log)|, CutShort(Since(old(events))))
    {
      hide Consumed, Appended, RowsOf, FailuresOf, CutShort, KeySet, Yields;
      var generated, failed := 0, 0;
      var submitted: set<Key>, records: seq<Key> := {}, [];
      log := [];
      ghost var settled: set<Key> := {};
      NothingConsumed(job);
      NothingAppended(job, Contents());
      assert Since(old(events)) == [] && job.dataset[..0] == [];
      for n := 0 to |job.dataset|
        invariant submitted == pending * KeySet(job.dataset[..n])
        invariant settled !! KeySet(records) && settled + KeySet(records) == submitted
        invariant old(events) <= events && Consumed(settled, log, Since(old(events))) && !CutShort(Since(old(events)))
        invariant Contents() == Appended(job, old(Contents()), log)
        invariant generated == |RowsOf(job, log)| && failed == |FailuresOf(job, log)|
      {
        var k := job.dataset[n];
        assert job.dataset[..n + 1] == job.dataset[..n] + [k];
        KeySetNext(job.dataset[..n], k);
        if k !in pending || k in submitted {
          continue;
        }
        KeySetNext(records, k);
        submitted := submitted + {k};
        records := records + [k];
        if |records| < batchSize {
          continue;
        }
        ghost var earlier, before := events, Since(old(events));
        var result, more := ProcessRecordBatch(job, records);
        assert Since(old(events)) == before + Since(earlier);
        BatchDone(job, old(Contents()), settled, log, before, KeySet(records), more, Since(earlier), pending);
        settled, log := settled + KeySet(records), log + more;
        generated, failed, records := generated + result.generated, failed + result.failed, [];
        if result.interrupted {
          return Built(generated, failed, true), log;
        }
      }
      assert job.dataset[..|job.dataset|] == job.dataset;
      assert submitted == pending;
      if records != [] {
        ghost var earlier, before := events, Since(old(events));
        var result, more := ProcessRecordBatch(job, records);
        assert Since(old(events)) == before + Since(earlier);
        BatchDone(job, old(Contents()), settled, log, before, KeySet(records), more, Since(earlier), pending);
        settled, log := settled + KeySet(records), log + more;
        generated, failed := generated + result.generated, failed + result.failed;
        if result.interrupted {
          return Built(generated, failed, true), log;
        }
      }
      assert settled == pending;
      // the user may still interrupt the rest of the scan or the shutdown of the workers
      ghost var before := Since(old(events));
      var late := world(events).Interrupted?;
      if late {
        LateInterruption(pending, log, before);
        events := events + 1;
        assert Since(old(events)) == before + [Interrupted];
      }
      built := Built(generated, failed, late);
    }

    /** `main`, from the command-line flags to the exit code. */
    method BuildIndex(job: Job, resume: bool, overwrite: bool, batchSize: nat) returns (exit: Exit)
      requires job.count > 0 && batchSize > 0
      modifies this`rows, this`failures, this`events
      ensures old(events) <= events
      ensures RunStep(job, resume, overwrite, old(Contents()), Contents(), Since(old(events)), exit)
      ensures old(rows) != [] && !resume && !overwrite ==> exit == Raises(FileExists)
      ensures resume && !RowsFine(old(rows), job.fingerprint, job.count) ==> exit.Raises?
      ensures !OnePromptEach(job.dataset)
        && (if resume then RowsFine(old(rows), job.fingerprint, job.count) else overwrite || old(rows) == [])
        ==> exit == Raises(MixedPrompts)
      ensures resume && overwrite && RowsFine(old(rows), job.fingerprint, job.count) && OnePromptEach(job.dataset) ==>
        exit == Raises(MutuallyExclusive)
    {
      hide RowsFine;
      hide Consumed, Sound, Loadable, Keys, OnePromptEach, KeySet, Distinct, SharedPrompts;
      hide CutShort, RowsOf, FailuresOf, AllYield, Appended;
      if rows != [] && !resume && !overwrite {
        return Raises(FileExists);
      }
      var completed: set<Key> := {};
      if resume {
        var loaded := LoadCompletedKeys(rows, job);
        if loaded.Err? {
          return Raises(loaded.error);
        }
        completed := loaded.value;
      }
      var scan := ScanDataset(job.dataset);
      if scan.Err? {
        return Raises(scan.error);
      }
      var pending := KeySet(scan.value.uniqueKeys) - completed;
      if resume && overwrite {
        return Raises(MutuallyExclusive);
      }
      if overwrite {
        rows, failures := [], [];
      }
      SoundEmpty(job);
      ghost var start := Contents();
      assert Sound(job, start.rows);
      assert Dataset(job) - Keys(start.rows) == pending;
      if pending == {} {
        var check := LoadCompletedKeys(rows, job);
        exit := Validated(check, 0);
        assert Since(old(events)) == [];
        NothingMissing(job, resume, overwrite, old(Contents()), start);
        return;
      }
      var built, log := GenerateMissingRecords(job, pending, batchSize);
      RunGenerates(job, resume, overwrite, old(Contents()), start, log, Since(old(events)));
      if built.interrupted {
        return Code(130);
      }
      var check := LoadCompletedKeys(rows, job);
      exit := Validated(check, if built.failed > 0 then 1 else 0);
    }
  }

  lemma YieldsMeans(job: Job, e: Event)
    ensures Yields(job, e) <==> e.Produced? && Usable(e.answers, job.count)
  {}

  lemma NothingAppended(job: Job, f: Files)
    ensures Appended(job, f, []) == f
  {}

  /** One more batch after the ones settled before. */
  lemma BatchDone(job: Job, f: Files, a: set<Key>, s: seq<Settled>, e: seq<Event>,
                  b: set<Key>, t: seq<Settled>, g: seq<Event>, pending: set<Key>)
    requires Consumed(a, s, e) && !CutShort(e) && Consumed(b, t, g) && a !! b && a + b <= pending
    ensures Consumed(a + b, s + t, e + g) && CutShort(e + g) == CutShort(g)
    ensures CutShort(g) ==> Consumed(pending, s + t, e + g)
    ensures Appended(job, Appended(job, f, s), t) == Appended(job, f, s + t)
    ensures |RowsOf(job, s + t)| == |RowsOf(job, s)| + |RowsOf(job, t)|
    ensures |FailuresOf(job, s + t)| == |FailuresOf(job, s)| + |FailuresOf(job, t)|
  {
    hide RowsOf, FailuresOf, CutShort, LogKeys, Events, DistinctKeys;
    ConsumedJoin(job, a, s, e, b, t, g);
    LogConcat(job, s, t);
  }

  /** The user interrupts when everything is settled. */
  lemma LateInterruption(pending: set<Key>, log: seq<Settled>, events: seq<Event>)
    requires Consumed(pending, log, events) && !CutShort(events)
    ensures Consumed(pending, log, events + [Interrupted]) && CutShort(events + [Interrupted])
  {}

  predicate AllYield(job: Job, events: seq<Event>) {
    forall i :: 0 <= i < |events| ==> Yields(job, events[i])
  }

  /** A run that finds every key in the index adds nothing. */
  lemma NothingMissing(job: Job, resume: bool, overwrite: bool, f: Files, start: Files)
    requires !Refused(job, resume, overwrite, f.rows) && start == if overwrite then Files([], []) else f
    requires Dataset(job) - Keys(start.rows) == {}
    ensures RunStep(job, resume, overwrite, f, start, [], Code(0))
  {
    NothingConsumed(job);
    NothingAppended(job, start);
  }

  /** A run that generates what is missing leaves a sound file. */
  lemma RunGenerates(job: Job, resume: bool, overwrite: bool, f: Files, start: Files, log: seq<Settled>,
                     events: seq<Event>)
    requires !Refused(job, resume, overwrite, f.rows) && start == (if overwrite then Files([], []) else f)
    requires job.count > 0 && Sound(job, start.rows) && !(Dataset(job) <= Keys(start.rows))
    requires Consumed(Dataset(job) - Keys(start.rows), log, events)
    ensures Sound(job, Appended(job, start, log).rows)
    ensures RunStep(job, resume, overwrite, f, Appended(job, start, log), events,
                    Code(if CutShort(events) then 130 else if FailuresOf(job, log) == [] then 0 else 1))
  {
    hide Consumed, Sound, Keys, OnePromptEach, KeySet, CutShort, RowsOf, FailuresOf, AllYield, Appended;
    var missing := Dataset(job) - Keys(start.rows);
    AllYieldMeans(job, missing, log, events);
    StaysSound(job, start, missing, log, events);
  }

  /** No failure is recorded, and nobody interrupts, exactly when every event yields a row. */
  lemma AllYieldMeans(job: Job, pending: set<Key>, log: seq<Settled>, events: seq<Event>)
    requires Consumed(pending, log, events)
    ensures AllYield(job, events) <==> FailuresOf(job, log) == [] && !CutShort(events)
  {
    NoFailures(job, log);
    if CutShort(events) {
      assert !Yields(job, events[|events| - 1]);
    } else {
      assert |events| == |log| && forall i :: 0 <= i < |log| ==> events[i] == log[i].event;
    }
  }

  lemma {:induction false} NoFailures(job: Job, log: seq<Settled>)
    ensures FailuresOf(job, log) == [] <==> forall i :: 0 <= i < |log| ==> Yields(job, log[i].event)
  {
    if log != [] {
      NoFailures(job, log[..|log| - 1]);
    }
  }

  /** Rows that a resumed build accepts: loadable, with enough answers. */
  predicate Sound(job: Job, rows: seq<Row>) {
    Loadable(rows, job.fingerprint) && forall i :: 0 <= i < |rows| ==> |rows[i].answers| >= job.count
  }

  /** `_load_completed_keys` */
  method LoadCompletedKeys(rows: seq<Row>, job: Job) returns (r: Result<set<Key>, Error>)
    ensures r.Ok? <==> Sound(job, rows)
    ensures r.Ok? ==> r.value == Keys(rows)
    ensures r.Ok? <==> RowsFine(rows, job.fingerprint, if job.count > 0 then job.count else 1)
  {
    LoadableMeans(rows, job.fingerprint);
    hide Loadable, Keys;
    var loaded := Load(rows, job.fingerprint);
    if loaded.Err? {
      return Err(loaded.error);
    }
    var completed: set<Key> := {};
    assert Keys(rows[..0]) == {} by { KeysNone(); }
    for n := 0 to |rows|
      invariant completed == Keys(rows[..n])
      invariant forall i :: 0 <= i < n ==> |rows[i].answers| >= job.count
    {
      if |rows[n].answers| < job.count {
        return Err(TooFewAnswers);
      }
      assert rows[..n + 1] == rows[..n] + [rows[n]];
      KeysNext(rows[..n], rows[n]);
      completed := completed + {rows[n].key};
    }
    assert rows[..|rows|] == rows;
    r := Ok(completed);
  }

  lemma KeysNone()
    ensures Keys([]) == {}
  {}

  lemma SoundEmpty(job: Job)
    ensures Sound(job, []) && Keys([]) == {}
  {}

  /** What one run of the program does to its files, for all flags, files and events. */
  ghost predicate RunStep(job: Job, resume: bool, overwrite: bool, f: Files, f': Files, events: seq<Event>,
                          exit: Exit)
  {
    // it refuses, and does nothing, on conflicting flags, an unusable file or an inconsistent dataset
    if Refused(job, resume, overwrite, f.rows) then exit.Raises? && f' == f && events == []
    else
      // otherwise the events settle the missing keys, and what they settle is appended
      var start := if overwrite then Files([], []) else f;
      && exit == Code(if CutShort(events) then 130 else if AllYield(job, events) then 0 else 1)
      && (Dataset(job) <= Keys(start.rows) ==> events == [])
      && exists log :: Consumed(Dataset(job) - Keys(start.rows), log, events) && f' == Appended(job, start, log)
  }

  predicate Refused(job: Job, resume: bool, overwrite: bool, rows: seq<Row>) {
    || (rows != [] && !resume && !overwrite) || (resume && overwrite)
    || (resume && !Sound(job, rows)) || !OnePromptEach(job.dataset)
  }

  lemma {:induction false} KeysConcat(s: seq<Row>, t: seq<Row>)
    ensures Keys(s + t) == Keys(s) + Keys(t)
  {
    if t == [] {
      KeysNone();
      assert s + t == s;
    } else {
      var n := |t| - 1;
      assert s + t == s + t[..n] + [t[n]] && t == t[..n] + [t[n]];
      KeysNext(s + t[..n], t[n]);
      KeysNext(t[..n], t[n]);
      hide Keys;
      KeysConcat(s, t[..n]);
    }
  }

  /** New rows for keys that were missing keep the file sound. */
  lemma SoundConcat(job: Job, start: seq<Row>, done: seq<Row>)
    requires Sound(job, start) && OneEach(done) && Keys(start) !! Keys(done)
    requires forall i :: 0 <= i < |done| ==> RowBuilt(job, done[i])
    ensures Sound(job, start + done)
  {
    hide RowOk;
    var all := start + done;
    forall i, j | 0 <= i < j < |all| ensures all[i].key != all[j].key {
      if i < |start| <= j {
        assert start[i].key in Keys(start) && done[j - |start|].key in Keys(done);
      }
    }
  }

  /** The rows of a log have its keys with a usable event, once each. */
  lemma {:induction false} LogRows(job: Job, log: seq<Settled>)
    requires DistinctKeys(log) && job.count > 0
    ensures OneEach(RowsOf(job, log)) && Keys(RowsOf(job, log)) <= LogKeys(log)
    ensures forall i :: 0 <= i < |RowsOf(job, log)| ==> RowBuilt(job, RowsOf(job, log)[i])
    ensures Keys(RowsOf(job, log)) == LogKeys(log) <==> FailuresOf(job, log) == []
  {
    if log == [] {
      NothingConsumed(job);
      KeysNone();
    } else {
      var n := |log| - 1;
      var (s, x) := (log[..n], log[n]);
      assert log == s + [x];
      LogNext(job, s, x);
      LogRows(job, s);
      assert x.key !in LogKeys(s);
      var rows := RowsOf(job, s);
      hide RowsOf, FailuresOf, LogKeys, RowBuilt, Yields, DistinctKeys;
      if Yields(job, x.event) {
        var row := RowFor(job, x);
        KeysNext(rows, row);
        UsableRow(job, x);
        assert forall i :: 0 <= i < |rows| ==> rows[i].key in Keys(rows);
      }
      hide Keys;
    }
  }

  /** Record x was settled by exactly `count` answers, none of them empty. */
  predicate Filled(job: Job, x: Settled) {
    x.event.Produced? && |x.event.answers| == job.count && "" !in x.event.answers
  }

  /** Record n has its row, after those of the records so answered before, or is a failure. */
  predicate Kept(job: Job, log: seq<Settled>, rows: seq<Row>, failures: seq<Key>, n: nat)
    requires n < |log|
  {
    if Filled(job, log[n]) then
      var m := FilledBefore(job, log, n);
      m < |rows| && rows[m] == Row(MultiAnswer, log[n].key, log[n].event.answers, job.fingerprint)
    else log[n].key in failures
  }

  /** The rows are those of the records so answered, in that order and with those answers as they are;
      every other record is a failure. */
  lemma {:induction false} RowsExact(job: Job, log: seq<Settled>)
    ensures var (rows, failures) := (RowsOf(job, log), FailuresOf(job, log));
      && |rows| == FilledBefore(job, log, |log|) && |rows| + |failures| == |log|
      && forall n :: 0 <= n < |log| ==> Kept(job, log, rows, failures, n)
  {
    hide Filled, Kept;
    if log != [] {
      var n := |log| - 1;
      var (s, x) := (log[..n], log[n]);
      RowsExact(job, s);
      FilledMeans(job, x);
      BeforePrefix(job, log, n, n);
      var (rows, failures) := (RowsOf(job, log), FailuresOf(job, log));
      assert RowsOf(job, s) <= rows && FailuresOf(job, s) <= failures;
      forall m | 0 <= m <= n ensures Kept(job, log, rows, failures, m) {
        if m < n {
          StillKept(job, log, m, RowsOf(job, s), FailuresOf(job, s), rows, failures);
        } else {
          LastKept(job, log);
        }
      }
    }
  }

  lemma FilledMeans(job: Job, x: Settled)
    ensures Filled(job, x) <==> Yields(job, x.event)
  {}

  lemma StillKept(job: Job, log: seq<Settled>, m: nat, r: seq<Row>, f: seq<Key>, rows: seq<Row>, failures: seq<Key>)
    requires m < |log| - 1 && Kept(job, log[..|log| - 1], r, f, m) && r <= rows && f <= failures
    ensures Kept(job, log, rows, failures, m)
  {
    BeforePrefix(job, log, |log| - 1, m);
  }

  lemma LastKept(job: Job, log: seq<Settled>)
    requires log != [] && |RowsOf(job, log[..|log| - 1])| == FilledBefore(job, log, |log| - 1)
    ensures Kept(job, log, RowsOf(job, log), FailuresOf(job, log), |log| - 1)
  {
    var n := |log| - 1;
    FilledMeans(job, log[n]);
    assert FailuresOf(job, log) == FailuresOf(job, log[..n]) + if Yields(job, log[n].event) then [] else [log[n].key];
  }

  function FilledBefore(job: Job, log: seq<Settled>, n: nat): nat
    requires n <= |log|
  {
    if n == 0 then 0 else FilledBefore(job, log, n - 1) + if Filled(job, log[n - 1]) then 1 else 0
  }

  lemma {:induction false} BeforePrefix(job: Job, log: seq<Settled>, n: nat, m: nat)
    requires m <= n <= |log|
    ensures FilledBefore(job, log, m) == FilledBefore(job, log[..n], m)
  {
    if m > 0 {
      BeforePrefix(job, log, n, m - 1);
    }
  }

  predicate RowBuilt(job: Job, row: Row) { RowOk(row, job.fingerprint) && |row.answers| == job.count }

  lemma UsableRow(job: Job, x: Settled)
    requires job.count > 0 && Yields(job, x.event)
    ensures RowBuilt(job, RowFor(job, x)) && RowFor(job, x).key == x.key
  {}

  /** Rows for missing keys keep the file sound; none is missing any more exactly when every
      missing key is settled and no failure recorded. */
  lemma StaysSound(job: Job, start: Files, missing: set<Key>, log: seq<Settled>, events: seq<Event>)
    requires job.count > 0 && Sound(job, start.rows) && missing == Dataset(job) - Keys(start.rows)
    requires Consumed(missing, log, events)
    ensures var rows := Appended(job, start, log).rows;
      && Sound(job, rows) && Keys(rows) == Keys(start.rows) + Keys(RowsOf(job, log))
      && (Dataset(job) <= Keys(rows) <==> LogKeys(log) == missing && FailuresOf(job, log) == [])
  {
    hide Sound, RowsOf, FailuresOf, Keys, LogKeys, Events, DistinctKeys, CutShort, KeySet, OneEach, RowBuilt;
    LogRows(job, log);
    KeysConcat(start.rows, RowsOf(job, log));
    SoundConcat(job, start.rows, RowsOf(job, log));
  }

  /** The events of the records: all but a final interruption. */
  function Answered(events: seq<Event>): seq<Event> {
    if CutShort(events) then events[..|events| - 1] else events
  }

  /** What a run that is not refused leaves: the old rows, some missing keys of the dataset, a
      sound file. No key is missing any more exactly when each missing one was asked for and every
      answer was usable; the exit code is 0 exactly when, besides, nobody interrupted. */
  lemma RunMeans(job: Job, resume: bool, overwrite: bool, f: Files, f': Files, events: seq<Event>, exit: Exit)
    requires job.count > 0 && RunStep(job, resume, overwrite, f, f', events, exit) && exit.Code?
    ensures var start := if overwrite then [] else f.rows;
      && start <= f'.rows && Sound(job, f'.rows) && Keys(f'.rows) <= Keys(start) + Dataset(job)
      && (Dataset(job) <= Keys(f'.rows) <==>
            AllYield(job, Answered(events)) && |Answered(events)| == |Dataset(job) - Keys(start)|)
    ensures exit.code == 0 <==> Dataset(job) <= Keys(f'.rows) && !CutShort(events)
    ensures exit.code == 130 <==> events != [] && events[|events| - 1] == Interrupted
    ensures exit.code in {0, 1, 130}
  {
    assert CutShort(events) <==> events != [] && events[|events| - 1] == Interrupted;
    hide Sound, OnePromptEach, RowsOf, FailuresOf, Keys, LogKeys, Events, DistinctKeys;
    hide CutShort, AllYield, KeySet, OneEach, RowBuilt, Answered;
    var start := if overwrite then Files([], []) else f;
    var missing := Dataset(job) - Keys(start.rows);
    var log :| Consumed(missing, log, events) && f' == Appended(job, start, log);
    SoundEmpty(job);
    assert Sound(job, start.rows);
    StaysSound(job, start, missing, log, events);
    LogRows(job, log);
    AllYieldMeans(job, missing, log, events);
    AnsweredMeans(job, missing, log, events);
  }

  lemma AnsweredMeans(job: Job, missing: set<Key>, log: seq<Settled>, events: seq<Event>)
    requires Consumed(missing, log, events)
    ensures Answered(events) == Events(log)
    ensures AllYield(job, Answered(events)) <==> FailuresOf(job, log) == []
    ensures |Answered(events)| == |missing| <==> LogKeys(log) == missing
    ensures LogKeys(log) <= missing
  {
    NoFailures(job, log);
    LogSize(log);
    assert Answered(events) == Events(log);
    assert forall i :: 0 <= i < |log| ==> Events(log)[i] == log[i].event;
    hide FailuresOf, Yields, LogKeys;
    SameSize(LogKeys(log), missing);
  }

  lemma SameSize(a: set<Key>, b: set<Key>)
    requires a <= b
    ensures |a| == |b| <==> a == b
  {
    assert b == a + (b - a);
  }

  /** The user may interrupt too late to leave a key missing. */
  lemma LateInterruptionCompletes(job: Job, k: Key, answers: seq<string>, f': Files)
    requires job.dataset == [k] && Yields(job, Produced(answers))
    requires f' == Files([Row(MultiAnswer, k, answers, job.fingerprint)], [])
    ensures RunStep(job, false, false, Files([], []), f', [Produced(answers), Interrupted], Code(130))
    ensures Keys(f'.rows) == Dataset(job)
  {
    var x, events := Settled(k, Produced(answers)), [Produced(answers), Interrupted];
    NothingConsumed(job);
    LogNext(job, [], x);
    KeysNone();
    KeysNext([], RowFor(job, x));
    assert [] + [x] == [x] && [] + [x.event] + [Interrupted] == events;
    assert Dataset(job) - Keys([]) == {k};
    assert Consumed({k}, [x], events);
    assert Appended(job, Files([], []), [x]) == f';
  }

  // ----- any sequence of runs

  /** A first build and any number of resumed ones: what each leaves is what the next finds. */
  ghost predicate Runs(job: Job, files: seq<Files>, resumes: seq<bool>, events: seq<seq<Event>>, exits: seq<Exit>) {
    && |files| == |exits| + 1 && |resumes| == |events| == |exits| && files[0].rows == [] && job.count > 0
    && forall i :: 0 <= i < |exits| ==> RunStep(job, resumes[i], false, files[i], files[i + 1], events[i], exits[i])
  }

  /** However the runs fail or are interrupted, the file is always loadable with at most one row
      for each key, its keys lie in the dataset, and a resumed run is never refused for its file. */
  lemma {:induction false} RunsSound(job: Job, files: seq<Files>, resumes: seq<bool>, events: seq<seq<Event>>,
                                     exits: seq<Exit>, i: nat)
    requires Runs(job, files, resumes, events, exits) && i < |files|
    ensures Sound(job, files[i].rows) && Keys(files[i].rows) <= Dataset(job)
    ensures i < |exits| && resumes[i] && OnePromptEach(job.dataset) ==> exits[i].Code?
  {
    hide Sound, Keys, OnePromptEach, Consumed, AllYield, CutShort, Appended;
    if i == 0 {
      SoundEmpty(job);
    } else {
      RunsSound(job, files, resumes, events, exits, i - 1);
      assert RunStep(job, resumes[i - 1], false, files[i - 1], files[i], events[i - 1], exits[i - 1]);
      if exits[i - 1].Code? {
        RunMeans(job, resumes[i - 1], false, files[i - 1], files[i], events[i - 1], exits[i - 1]);
      }
    }
    assert i < |exits| ==> RunStep(job, resumes[i], false, files[i], files[i + 1], events[i], exits[i]);
  }

  /** The rows only grow from run to run. */
  lemma {:induction false} RunsGrow(job: Job, files: seq<Files>, resumes: seq<bool>, events: seq<seq<Event>>,
                                    exits: seq<Exit>, i: nat, j: nat)
    requires Runs(job, files, resumes, events, exits) && i <= j < |files|
    ensures files[i].rows <= files[j].rows && Keys(files[i].rows) <= Keys(files[j].rows)
  {
    hide Sound, OnePromptEach, Keys, Consumed, AllYield, CutShort, RowsOf, FailuresOf;
    if i < j {
      RunsGrow(job, files, resumes, events, exits, i, j - 1);
      var (f, f') := (files[j - 1], files[j]);
      assert RunStep(job, resumes[j - 1], false, f, f', events[j - 1], exits[j - 1]);
      if exits[j - 1].Code? {
        RunMeans(job, resumes[j - 1], false, f, f', events[j - 1], exits[j - 1]);
      }
      var tail := f'.rows[|f.rows|..];
      assert f'.rows == f.rows + tail;
      KeysConcat(f.rows, tail);
    }
  }

  /** After a run that nobody interrupts and in which every request for answers succeeds, the
      keys are exactly the dataset's, and stay so. The run is only supposed not to be refused
      for a lacking --resume or an inconsistent dataset. */
  lemma CompleteAfterCleanRun(job: Job, files: seq<Files>, resumes: seq<bool>, events: seq<seq<Event>>,
                              exits: seq<Exit>, i: nat, j: nat)
    requires Runs(job, files, resumes, events, exits) && i < j < |files|
    requires (resumes[i] || files[i].rows == []) && OnePromptEach(job.dataset)
    requires AllYield(job, events[i])
    ensures exits[i] == Code(0) && Keys(files[j].rows) == Dataset(job)
  {
    hide Sound, OnePromptEach, Keys, Consumed, Appended;
    var (f, f') := (files[i], files[i + 1]);
    assert RunStep(job, resumes[i], false, f, f', events[i], exits[i]);
    RunsSound(job, files, resumes, events, exits, i);
    assert !CutShort(events[i]) by {
      assert events[i] != [] ==> Yields(job, events[i][|events[i]| - 1]);
    }
    RunMeans(job, resumes[i], false, f, f', events[i], exits[i]);
    RunsSound(job, files, resumes, events, exits, j);
    RunsGrow(job, files, resumes, events, exits, i + 1, j);
  }

  /** A run asks the teacher exactly once for each missing key, unless it is interrupted. */
  lemma OneEventEach(job: Job, resume: bool, overwrite: bool, f: Files, f': Files, events: seq<Event>, exit: Exit)
    requires RunStep(job, resume, overwrite, f, f', events, exit) && exit.Code? && !CutShort(events)
    ensures |events| == |Dataset(job) - Keys(if overwrite then [] else f.rows)|
  {
    hide CutShort, AllYield, Keys, KeySet, OnePromptEach, Sound;
    var missing := Dataset(job) - Keys(if overwrite then [] else f.rows);
    var log :| Consumed(missing, log, events);
    LogSize(log);
  }

  lemma {:induction false} LogSize(log: seq<Settled>)
    requires DistinctKeys(log)
    ensures |LogKeys(log)| == |log|
  {
    if log != [] {
      var n := |log| - 1;
      assert log == log[..n] + [log[n]];
      LogNext(Job([], "", 0), log[..n], log[n]);
      LogSize(log[..n]);
      assert log[n].key !in LogKeys(log[..n]);
    }
  }

  /** With a complete index every dataset record finds its answers. */
  lemma EveryRecordFound(job: Job, rows: seq<Row>, records: map<Key, seq<string>>, k: Key)
    requires Sound(job, rows) && Dataset(job) <= Keys(rows) && Holds(rows, records) && k in Dataset(job)
    ensures k in records && |records[k]| >= job.count
  {}

  lemma KeySetNext(s: seq<Key>, k: Key)
    ensures KeySet(s + [k]) == KeySet(s) + {k}
  {}
}
