/** Grouping a batch's rollouts by prompt identity, and writing each group's rewards back to the
  rows they came from. */
module RewardGroups {
  import opened Wrappers

  /** What the grouping reads of a batch row: uid, canonical prompt, number of response tokens. */
  datatype Row = Row(uid: string, prompt: string, length: int)

  datatype Rollout = Rollout(batchIndex: nat, length: int)

  datatype Group = Group(uid: string, prompt: string, rollouts: seq<Rollout>)

  datatype Error = NoResponseTokens(batchIndex: nat) | MixedPrompts(uid: string)

  // ----- what grouping means

  /** The rollouts of one uid, in batch order. */
  function RolloutsOf(rows: seq<Row>, uid: string): seq<Rollout> {
    if rows == [] then []
    else
      var n := |rows| - 1;
      RolloutsOf(rows[..n], uid) + if rows[n].uid == uid then [Rollout(n, rows[n].length)] else []
  }

  /** The uids in order of their first row. */
  function Uids(rows: seq<Row>): seq<string> {
    if rows == [] then []
    else
      var n := |rows| - 1;
      var before := Uids(rows[..n]);
      if rows[n].uid in before then before else before + [rows[n].uid]
  }

  /** The prompt of the first row with this uid. */
  function PromptOf(rows: seq<Row>, uid: string): string {
    if rows == [] then ""
    else
      var n := |rows| - 1;
      if uid in Uids(rows[..n]) then PromptOf(rows[..n], uid) else rows[n].prompt
  }

  function Groups(rows: seq<Row>): seq<Group> {
    var uids := Uids(rows);
    seq(|uids|, i requires 0 <= i < |uids| => Group(uids[i], PromptOf(rows, uids[i]), RolloutsOf(rows, uids[i])))
  }

  /** The error of the first row that cannot be grouped. */
  function Fault(rows: seq<Row>): Option<Error> {
    if rows == [] then None
    else
      var n := |rows| - 1;
      var before := Fault(rows[..n]);
      if before.Some? then before
      else if rows[n].length <= 0 then Some(NoResponseTokens(n))
      else if rows[n].uid in Uids(rows[..n]) && PromptOf(rows[..n], rows[n].uid) != rows[n].prompt
      then Some(MixedPrompts(rows[n].uid))
      else None
  }

  /** Row b has no tokens, or another prompt than an earlier row of its uid. */
  predicate Bad(rows: seq<Row>, b: int)
    requires 0 <= b < |rows|
  {
    rows[b].length <= 0 || exists a :: 0 <= a < b && rows[a].uid == rows[b].uid && rows[a].prompt != rows[b].prompt
  }

  function ErrorOf(row: Row, b: int): Error
    requires b >= 0
  {
    if row.length <= 0 then NoResponseTokens(b) else MixedPrompts(row.uid)
  }

  predicate FirstBad(rows: seq<Row>, b: int) {
    0 <= b < |rows| && Bad(rows, b) && forall a :: 0 <= a < b ==> !Bad(rows, a)
  }

  /** Every row has tokens, and rows of one uid have one prompt. */
  predicate AllGood(rows: seq<Row>) {
    && (forall b :: 0 <= b < |rows| ==> rows[b].length > 0)
    && forall a, b :: 0 <= a < b < |rows| && rows[a].uid == rows[b].uid ==> rows[a].prompt == rows[b].prompt
  }

  /** The group's rollouts are rows of its uid and prompt, in batch order. */
  predicate GroupOk(rows: seq<Row>, group: Group) {
    && group.rollouts != []
    && (forall k :: 0 <= k < |group.rollouts| ==>
          TakenFrom(rows, group.uid, group.rollouts[k])
          && rows[group.rollouts[k].batchIndex].prompt == group.prompt)
    && forall j, k :: 0 <= j < k < |group.rollouts| ==>
         group.rollouts[j].batchIndex < group.rollouts[k].batchIndex
  }

  ghost predicate Placed(groups: seq<Group>, b: int) {
    exists g, k :: Member(groups, g, k, b)
  }

  /** The groups have different uids, hold every row, and come in the order of their first rows. */
  ghost predicate GroupsOk(rows: seq<Row>, groups: seq<Group>) {
    && (forall g :: 0 <= g < |groups| ==> GroupOk(rows, groups[g]))
    && (forall g, h :: 0 <= g < h < |groups| ==>
          && groups[g].uid != groups[h].uid
          && groups[g].rollouts[0].batchIndex < groups[h].rollouts[0].batchIndex)
    && forall b :: 0 <= b < |rows| ==> Placed(groups, b)
  }

  /** `_build_groups` */
  method BuildGroups(rows: seq<Row>) returns (r: Result<seq<Group>, Error>)
    ensures r == match Fault(rows) case Some(e) => Err(e) case None => Ok(Groups(rows))
    ensures r.Ok? <==> AllGood(rows)
    ensures r.Err? ==> exists b :: FirstBad(rows, b) && r.error == ErrorOf(rows[b], b)
    ensures r.Ok? ==> GroupsOk(rows, r.value)
  {
    GroupingMeans(rows);
    hide RolloutsOf, Uids, PromptOf, Bad, FirstBad, GroupsOk, AllGood;
    var order: seq<string> := [];
    var prompts: map<string, string> := map[];
    var rollouts: map<string, seq<Rollout>> := map[];
    NoRows();
    for n := 0 to |rows|
      invariant Fault(rows[..n]) == None
      invariant order == Uids(rows[..n])
      invariant forall u :: u in prompts <==> u in order
      invariant forall u :: u in rollouts <==> u in order
      invariant forall u :: u in order ==>
        prompts[u] == PromptOf(rows[..n], u) && rollouts[u] == RolloutsOf(rows[..n], u)
    {
      var row := rows[n];
      assert rows[..n + 1][..n] == rows[..n];
      if row.length <= 0 {
        FaultStays(rows, n + 1, |rows|);
        assert rows[..|rows|] == rows;
        return Err(NoResponseTokens(n));
      }
      if row.uid in prompts && prompts[row.uid] != row.prompt {
        FaultStays(rows, n + 1, |rows|);
        assert rows[..|rows|] == rows;
        return Err(MixedPrompts(row.uid));
      }
      OneMoreRow(rows, n);
      if row.uid !in prompts {
        prompts := prompts[row.uid := row.prompt];
        rollouts := rollouts[row.uid := []];
        order := order + [row.uid];
      }
      rollouts := rollouts[row.uid := rollouts[row.uid] + [Rollout(n, row.length)]];
    }
    assert rows[..|rows|] == rows;
    var groups := seq(|order|, i requires 0 <= i < |order| =>
      Group(order[i], if order[i] in prompts then prompts[order[i]] else "",
            if order[i] in rollouts then rollouts[order[i]] else []));
    assert groups == Groups(rows);
    r := Ok(groups);
  }

  lemma NoRows()
    ensures Uids([]) == [] && Fault([]) == None
  {}

  /** How one more row changes the three dictionaries. */
  lemma OneMoreRow(rows: seq<Row>, n: nat)
    requires n < |rows|
    ensures var (s, t, row) := (rows[..n], rows[..n + 1], rows[n]);
      && Uids(t) == (if row.uid in Uids(s) then Uids(s) else Uids(s) + [row.uid])
      && (row.uid !in Uids(s) ==> RolloutsOf(s, row.uid) == [])
      && forall u :: PromptOf(t, u) == (if u in Uids(s) then PromptOf(s, u) else row.prompt)
                  && RolloutsOf(t, u) == (RolloutsOf(s, u) + if u == row.uid then [Rollout(n, row.length)] else [])
  {
    assert rows[..n + 1][..n] == rows[..n];
    UidHasRollouts(rows[..n], rows[n].uid);
    var (s, t, row) := (rows[..n], rows[..n + 1], rows[n]);
    forall u
      ensures PromptOf(t, u) == if u in Uids(s) then PromptOf(s, u) else row.prompt
      ensures RolloutsOf(t, u) == RolloutsOf(s, u) + if u == row.uid then [Rollout(n, row.length)] else []
    {}
  }

  lemma {:induction false} UidHasRollouts(rows: seq<Row>, uid: string)
    ensures uid in Uids(rows) <==> RolloutsOf(rows, uid) != []
  {
    if rows != [] {
      UidHasRollouts(rows[..|rows| - 1], uid);
    }
  }

  lemma {:induction false} FaultStays(rows: seq<Row>, k: nat, n: nat)
    requires k <= n <= |rows| && Fault(rows[..k]).Some?
    ensures Fault(rows[..n]) == Fault(rows[..k])
  {
    hide Uids, PromptOf;
    if k < n {
      FaultStays(rows, k, n - 1);
      assert rows[..n][..n - 1] == rows[..n - 1];
    }
  }

  // ----- the groups partition the batch

  /** Rollout k of group g is batch row b. */
  predicate Member(groups: seq<Group>, g: int, k: int, b: int) {
    0 <= g < |groups| && 0 <= k < |groups[g].rollouts| && groups[g].rollouts[k].batchIndex == b
  }

  predicate TakenFrom(rows: seq<Row>, uid: string, x: Rollout) {
    x.batchIndex < |rows| && rows[x.batchIndex].uid == uid && x.length == rows[x.batchIndex].length
  }

  lemma {:induction false} RolloutsExact(rows: seq<Row>, uid: string)
    ensures forall k :: 0 <= k < |RolloutsOf(rows, uid)| ==> TakenFrom(rows, uid, RolloutsOf(rows, uid)[k])
    ensures forall j, k :: 0 <= j < k < |RolloutsOf(rows, uid)| ==>
      RolloutsOf(rows, uid)[j].batchIndex < RolloutsOf(rows, uid)[k].batchIndex
  {
    if rows != [] {
      var n := |rows| - 1;
      RolloutsExact(rows[..n], uid);
      var before := RolloutsOf(rows[..n], uid);
      assert RolloutsOf(rows, uid) == before + if rows[n].uid == uid then [Rollout(n, rows[n].length)] else [];
      hide RolloutsOf;
      forall k | 0 <= k < |before| ensures TakenFrom(rows, uid, before[k]) && before[k].batchIndex < n {
        assert TakenFrom(rows[..n], uid, before[k]);
      }
    }
  }

  lemma {:induction false} RolloutsComplete(rows: seq<Row>, b: nat)
    requires b < |rows|
    ensures exists k :: 0 <= k < |RolloutsOf(rows, rows[b].uid)| && RolloutsOf(rows, rows[b].uid)[k].batchIndex == b
  {
    var n, u := |rows| - 1, rows[b].uid;
    var s, before := RolloutsOf(rows, u), RolloutsOf(rows[..n], u);
    assert s == before + if rows[n].uid == u then [Rollout(n, rows[n].length)] else [];
    if b < n {
      assert rows[..n][b] == rows[b];
      RolloutsComplete(rows[..n], b);
      hide RolloutsOf;
      var k :| 0 <= k < |before| && before[k].batchIndex == b;
      assert s[k].batchIndex == b;
    } else {
      assert s[|s| - 1].batchIndex == b;
    }
  }

  lemma {:induction false} UidsExact(rows: seq<Row>)
    ensures forall i, j :: 0 <= i < j < |Uids(rows)| ==> Uids(rows)[i] != Uids(rows)[j]
    ensures forall b :: 0 <= b < |rows| ==> rows[b].uid in Uids(rows)
  {
    if rows != [] {
      var n := |rows| - 1;
      UidsExact(rows[..n]);
      assert forall b :: 0 <= b < n ==> rows[..n][b] == rows[b];
    }
  }

  /** Every batch row is in exactly one group, the one of its uid, at exactly one place; within a
      group the rows keep their order. */
  lemma GroupsPartition(rows: seq<Row>, b: nat)
    requires b < |rows|
    ensures exists g, k :: Member(Groups(rows), g, k, b) && Groups(rows)[g].uid == rows[b].uid
                           && Groups(rows)[g].rollouts[k].length == rows[b].length
    ensures forall g, k, h, l :: Member(Groups(rows), g, k, b) && Member(Groups(rows), h, l, b) ==> g == h && k == l
  {
    hide Uids, RolloutsOf;
    UidsExact(rows);
    var uids := Uids(rows);
    assert rows[b].uid in uids;
    var g :| 0 <= g < |uids| && uids[g] == rows[b].uid;
    var u := uids[g];
    var s := RolloutsOf(rows, u);
    RolloutsExact(rows, u);
    RolloutsComplete(rows, b);
    var k :| 0 <= k < |s| && s[k].batchIndex == b;
    assert Member(Groups(rows), g, k, b);
    forall h, l | Member(Groups(rows), h, l, b) ensures h == g && l == k {
      var v := uids[h];
      var t := RolloutsOf(rows, v);
      RolloutsExact(rows, v);
      assert t == Groups(rows)[h].rollouts;
      assert TakenFrom(rows, v, t[l]);
    }
  }

  /** All rows of a group have its prompt, when grouping raises no error. */
  lemma {:induction false} OnePrompt(rows: seq<Row>, b: nat)
    requires Fault(rows) == None && b < |rows|
    ensures rows[b].length > 0 && PromptOf(rows, rows[b].uid) == rows[b].prompt
  {
    var n := |rows| - 1;
    if b < n {
      OnePrompt(rows[..n], b);
      UidsExact(rows[..n]);
      assert rows[..n][b].uid in Uids(rows[..n]);
    }
  }

  lemma {:induction false} FaultMeans(rows: seq<Row>)
    ensures Fault(rows) == None <==> forall b :: 0 <= b < |rows| ==> !Bad(rows, b)
    ensures Fault(rows).Some? ==> exists b :: FirstBad(rows, b) && Fault(rows).value == ErrorOf(rows[b], b)
  {
    if rows != [] {
      var n := |rows| - 1;
      var front := rows[..n];
      FaultMeans(front);
      BadBefore(rows);
      if Fault(front) == None {
        LastBad(rows);
      } else {
        var b :| FirstBad(front, b) && Fault(front).value == ErrorOf(front[b], b);
        assert FirstBad(rows, b);
      }
    }
  }

  lemma BadBefore(rows: seq<Row>)
    requires rows != []
    ensures forall b :: 0 <= b < |rows| - 1 ==> (Bad(rows[..|rows| - 1], b) <==> Bad(rows, b))
  {
    var front := rows[..|rows| - 1];
    forall b | 0 <= b < |front| ensures Bad(front, b) <==> Bad(rows, b) {
      assert forall a :: 0 <= a <= b ==> front[a] == rows[a];
    }
  }

  /** The last row is bad exactly when the loop finds it so, if those before it are not. */
  lemma LastBad(rows: seq<Row>)
    requires rows != [] && Fault(rows[..|rows| - 1]) == None
    ensures var n := |rows| - 1;
      Bad(rows, n) <==>
        || rows[n].length <= 0
        || (rows[n].uid in Uids(rows[..n]) && PromptOf(rows[..n], rows[n].uid) != rows[n].prompt)
  {
    var n := |rows| - 1;
    var front, row := rows[..n], rows[n];
    UidsExact(front);
    forall a | 0 <= a < n ensures PromptOf(front, front[a].uid) == rows[a].prompt && rows[a] == front[a] {
      OnePrompt(front, a);
    }
    assert forall a :: 0 <= a < n && rows[a].uid == row.uid ==> PromptOf(front, row.uid) == rows[a].prompt;
    if row.uid in Uids(front) {
      var a := UidHasRow(front, row.uid);
      assert rows[a].uid == row.uid;
    }
  }

  lemma {:induction false} UidHasRow(rows: seq<Row>, uid: string) returns (b: nat)
    requires uid in Uids(rows)
    ensures b < |rows| && rows[b].uid == uid
  {
    var n := |rows| - 1;
    if uid in Uids(rows[..n]) {
      b := UidHasRow(rows[..n], uid);
    } else {
      b := n;
    }
  }

  /** When grouping raises an error and which one, and what the groups are. */
  lemma GroupingMeans(rows: seq<Row>)
    ensures Fault(rows) == None <==> AllGood(rows)
    ensures Fault(rows).Some? ==> exists b :: FirstBad(rows, b) && Fault(rows).value == ErrorOf(rows[b], b)
    ensures Fault(rows) == None ==> GroupsOk(rows, Groups(rows))
  {
    FaultMeans(rows);
    if Fault(rows) == None {
      assert forall b :: 0 <= b < |rows| ==> !Bad(rows, b);
      GroupsMean(rows);
    }
    hide GroupsOk, FirstBad, Fault;
    if !AllGood(rows) {
      if b :| 0 <= b < |rows| && rows[b].length <= 0 {
        assert Bad(rows, b);
      } else {
        var a, b :| 0 <= a < b < |rows| && rows[a].uid == rows[b].uid && rows[a].prompt != rows[b].prompt;
        assert Bad(rows, b);
      }
    }
  }

  lemma GroupsMean(rows: seq<Row>)
    requires Fault(rows) == None
    ensures GroupsOk(rows, Groups(rows))
  {
    hide Uids, RolloutsOf, PromptOf, Fault;
    var groups, uids := Groups(rows), Uids(rows);
    UidsExact(rows);
    forall g | 0 <= g < |groups| ensures GroupOk(rows, groups[g]) {
      GroupMeans(rows, g);
    }
    forall g, h | 0 <= g < h < |groups|
      ensures groups[g].uid != groups[h].uid
      ensures groups[g].rollouts[0].batchIndex < groups[h].rollouts[0].batchIndex
    {
      FirstRowsAscend(rows, g, h);
    }
    forall b | 0 <= b < |rows| ensures Placed(groups, b) {
      GroupsPartition(rows, b);
    }
  }

  lemma GroupMeans(rows: seq<Row>, g: nat)
    requires Fault(rows) == None && g < |Groups(rows)|
    ensures GroupOk(rows, Groups(rows)[g])
  {
    hide Uids, RolloutsOf, PromptOf, Fault;
    var uid, group := Uids(rows)[g], Groups(rows)[g];
    RolloutsExact(rows, uid);
    UidHasRollouts(rows, uid);
    forall k | 0 <= k < |group.rollouts| ensures rows[group.rollouts[k].batchIndex].prompt == group.prompt {
      assert TakenFrom(rows, uid, group.rollouts[k]);
      OnePrompt(rows, group.rollouts[k].batchIndex);
    }
  }

  lemma {:induction false} FirstRowsAscend(rows: seq<Row>, g: nat, h: nat)
    requires g < h < |Uids(rows)|
    ensures var (a, b) := (RolloutsOf(rows, Uids(rows)[g]), RolloutsOf(rows, Uids(rows)[h]));
      a != [] && b != [] && a[0].batchIndex < b[0].batchIndex
  {
    var n := |rows| - 1;
    var front, uids := rows[..n], Uids(rows);
    UidHasRollouts(rows, uids[g]);
    UidHasRollouts(rows, uids[h]);
    UidHasRollouts(front, uids[g]);
    UidHasRollouts(front, uids[h]);
    UidsExact(rows);
    if h < |Uids(front)| {
      FirstRowsAscend(front, g, h);
    } else {
      RolloutsExact(front, uids[g]);
      assert TakenFrom(front, uids[g], RolloutsOf(front, uids[g])[0]);
    }
  }

  // ----- writing rewards back

  /** The reward of batch row b, by its place in the groups. */
  ghost predicate Rewarded(groups: seq<Group>, rewards: seq<seq<real>>, b: nat, reward: real) {
    exists g, k :: Member(groups, g, k, b) && g < |rewards| && k < |rewards[g]| && reward == rewards[g][k]
  }

  /** A row of the reward tensor: the reward at the last response token and zero elsewhere. */
  ghost predicate RowHolds(tensor: array2<real>, b: nat, at: int, reward: real)
    requires b < tensor.Length0
    reads tensor
  {
    forall c :: 0 <= c < tensor.Length1 ==> tensor[b, c] == if c == at then reward else 0.0
  }

  /** The reward loops of `__call__`: each row of the batch gets the reward of its own place in
      its own group, at its last response token, and no row is left out. */
  method WriteRewards(rows: seq<Row>, groups: seq<Group>, rewards: seq<seq<real>>, width: nat)
    returns (tensor: array2<real>, scores: seq<Option<real>>)
    requires groups == Groups(rows) && |rewards| == |groups|
    requires forall g :: 0 <= g < |groups| ==> |rewards[g]| == |groups[g].rollouts|
    requires forall b :: 0 <= b < |rows| ==> 0 < rows[b].length <= width
    ensures tensor.Length0 == |rows| && tensor.Length1 == width && |scores| == |rows|
    ensures forall b :: 0 <= b < |rows| ==> scores[b].Some? && Rewarded(groups, rewards, b, scores[b].value)
    ensures forall b :: 0 <= b < |rows| ==> RowHolds(tensor, b, rows[b].length - 1, scores[b].value)
  {
    hide Groups;
    tensor := new real[|rows|, width]((i, j) => 0.0);
    scores := seq(|rows|, _ => None);
    for g := 0 to |groups|
      invariant |scores| == |rows|
      invariant Written(rows, groups, rewards, tensor, scores, g, 0)
    {
      for k := 0 to |groups[g].rollouts|
        invariant |scores| == |rows|
        invariant Written(rows, groups, rewards, tensor, scores, g, k)
      {
        var rollout := groups[g].rollouts[k];
        MemberRow(rows, g, k);
        var x := rollout.batchIndex;
        ghost var before := scores;
        assert WrittenRow(rows, groups, rewards, tensor, scores, g, k, x);
        label L:
        tensor[x, rollout.length - 1] := rewards[g][k];
        scores := scores[x := Some(rewards[g][k])];
        assert RowHolds(tensor, x, rollout.length - 1, rewards[g][k]);
        ghost var next := k + 1;
        forall b | 0 <= b < |rows| ensures WrittenRow(rows, groups, rewards, tensor, scores, g, next, b) {
          if b != x {
            assert old@L(WrittenRow(rows, groups, rewards, tensor, before, g, k, b));
            assert !Member(groups, g, k, b);
          }
        }
      }
      ghost var all, done := |groups[g].rollouts|, g + 1;
      forall b | 0 <= b < |rows| ensures WrittenRow(rows, groups, rewards, tensor, scores, done, 0, b) {
        assert WrittenRow(rows, groups, rewards, tensor, scores, g, all, b);
      }
    }
    forall b | 0 <= b < |rows|
      ensures scores[b].Some? && Rewarded(groups, rewards, b, scores[b].value)
      ensures RowHolds(tensor, b, rows[b].length - 1, scores[b].value)
    {
      GroupsPartition(rows, b);
      assert WrittenRow(rows, groups, rewards, tensor, scores, |groups|, 0, b);
      var g, k :| Member(groups, g, k, b);
    }
  }

  lemma MemberRow(rows: seq<Row>, g: nat, k: nat)
    requires g < |Groups(rows)| && k < |Groups(rows)[g].rollouts|
    ensures var x := Groups(rows)[g].rollouts[k];
      && x.batchIndex < |rows| && x.length == rows[x.batchIndex].length
      && forall h, l :: Member(Groups(rows), h, l, x.batchIndex) ==> h == g && l == k
  {
    hide Uids, RolloutsOf;
    var u := Uids(rows)[g];
    var s := RolloutsOf(rows, u);
    RolloutsExact(rows, u);
    assert Groups(rows)[g] == Group(u, PromptOf(rows, u), s);
    assert TakenFrom(rows, u, s[k]);
    GroupsPartition(rows, s[k].batchIndex);
    assert Member(Groups(rows), g, k, s[k].batchIndex);
  }

  /** After groups below g and the first k rollouts of group g: those rows hold their reward and
      the others are untouched. */
  ghost predicate Written(rows: seq<Row>, groups: seq<Group>, rewards: seq<seq<real>>, tensor: array2<real>,
                          scores: seq<Option<real>>, g: nat, k: nat)
    requires |scores| == |rows| == tensor.Length0
    reads tensor
  {
    forall b :: 0 <= b < |rows| ==> WrittenRow(rows, groups, rewards, tensor, scores, g, k, b)
  }

  ghost predicate WrittenRow(rows: seq<Row>, groups: seq<Group>, rewards: seq<seq<real>>, tensor: array2<real>,
                             scores: seq<Option<real>>, g: nat, k: nat, b: nat)
    requires b < |scores| == |rows| == tensor.Length0
    reads tensor
  {
    && (forall h, l :: Member(groups, h, l, b) && (h < g || (h == g && l < k)) && h < |rewards| && l < |rewards[h]| ==>
          scores[b] == Some(rewards[h][l]))
    && RowHolds(tensor, b, if scores[b].Some? then rows[b].length - 1 else -1,
                if scores[b].Some? then scores[b].value else 0.0)
  }
}
