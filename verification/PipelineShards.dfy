/** Spreading a model's layers over pipeline ranks, and numbering layers and saved shards after
  the ranks' parts are merged. */
module PipelineShards {
  import opened Wrappers
  import opened Arithmetic

  datatype Error = ValueError | IndexError

  function CeilDiv(n: int, d: int): int
    requires d > 0
  {
    (n + d - 1) / d
  }

  function Sum(s: seq<int>): int {
    if s == [] then 0 else s[0] + Sum(s[1..])
  }

  function Repeat<T>(x: T, n: nat): seq<T> { seq(n, _ => x) }

  // ----- the search

  /** Layers left for the first and the last rank, halved: the first rank's share. */
  function FirstShare(layers: int, ranks: int, middle: int): int { (layers - Times(middle, ranks - 2)) / 2 }

  function LastShare(layers: int, ranks: int, middle: int): int {
    layers - Times(middle, ranks - 2) - FirstShare(layers, ranks, middle)
  }

  predicate Admissible(layers: int, ranks: int, middle: int) {
    0 < FirstShare(layers, ranks, middle) <= middle && 0 < LastShare(layers, ranks, middle) <= middle
  }

  function Layout(layers: int, ranks: int, middle: int): seq<int>
    requires ranks >= 2
  {
    [FirstShare(layers, ranks, middle)] + Repeat(middle, ranks - 2) + [LastShare(layers, ranks, middle)]
  }

  function Abs(x: int): int { if x < 0 then -x else x }

  /** A candidate and its distance from uniform, the sort key. */
  datatype Candidate = Candidate(shards: seq<int>, diff: int)

  function CandidateOf(layers: int, ranks: int, middle: int): Candidate
    requires ranks >= 2
  {
    Candidate(Layout(layers, ranks, middle), Abs(FirstShare(layers, ranks, middle) - middle))
  }

  /** The least middle share that leaves the ends no more than it: the closed form. */
  predicate Splits(layers: int, ranks: int)
    requires ranks >= 3
  {
    Times(CeilDiv(layers, ranks), ranks - 2) + 2 <= layers
  }

  lemma TimesGrows(a: int, b: int, k: int)
    requires a <= b && 0 <= k
    ensures Times(a, k) <= Times(b, k)
  {}

  lemma TimesAtLeast(a: int, k: int)
    requires 0 <= a && 1 <= k
    ensures a <= Times(a, k) && Times(0, k) == 0
  {}

  lemma CeilDivLeast(n: int, d: int, m: int)
    requires d > 0
    ensures n <= Times(m, d) <==> CeilDiv(n, d) <= m
  {
    var c := CeilDiv(n, d);
    assert d * c <= n + d - 1 < d * c + d;
    if m < c {
      TimesGrows(m, c - 1, d);
      assert Times(c - 1, d) == d * c - d;
    } else {
      TimesGrows(c, m, d);
      assert Times(c, d) == d * c;
    }
  }

  /** The two bounds on the ends come down to one bound each on the middle share. */
  lemma AdmissibleRange(layers: int, ranks: int, middle: int)
    requires ranks >= 3
    ensures Admissible(layers, ranks, middle) <==>
            CeilDiv(layers, ranks) <= middle && Times(middle, ranks - 2) + 2 <= layers
  {
    CeilDivLeast(layers, ranks, middle);
    assert Times(middle, ranks) == Times(middle, ranks - 2) + 2 * middle;
    hide Times, CeilDiv;
  }

  /** The candidates lie further from uniform the larger their middle share. */
  lemma DiffGrows(layers: int, ranks: int, a: int, b: int)
    requires ranks >= 3 && a < b && Admissible(layers, ranks, a) && Admissible(layers, ranks, b)
    ensures CandidateOf(layers, ranks, a).diff < CandidateOf(layers, ranks, b).diff
  {
    TimesGrows(a, b, ranks - 2);
    hide Times;
  }

  /** `sorted(candidates, key=diff)[0]` */
  method LeastCandidate(candidates: seq<Candidate>) returns (k: nat)
    requires candidates != []
    ensures k < |candidates|
    ensures forall j :: 0 <= j < |candidates| ==> candidates[k].diff <= candidates[j].diff
    ensures forall j :: 0 <= j < k ==> candidates[k].diff < candidates[j].diff
  {
    k := 0;
    for i := 1 to |candidates|
      invariant k < i
      invariant forall j :: 0 <= j < i ==> candidates[k].diff <= candidates[j].diff
      invariant forall j :: 0 <= j < k ==> candidates[k].diff < candidates[j].diff
    {
      if candidates[i].diff < candidates[k].diff {
        k := i;
      }
    }
  }

  /** Which results the search may have, in closed form. */
  function Shards(layers: int, ranks: int): Result<seq<int>, Error> {
    if layers < ranks || ranks < 1 then Err(ValueError)
    else if ranks == 1 then Ok([layers])
    else if ranks == 2 then Ok([layers / 2, layers - layers / 2])
    else if Splits(layers, ranks) then Ok(Layout(layers, ranks, CeilDiv(layers, ranks)))
    else Err(IndexError)
  }

  /** With m layers on each rank between them, the first and the last rank have at least one layer
      each and not more than 2m together. */
  predicate EndsFit(layers: int, ranks: int, m: int) { 2 <= layers - m * (ranks - 2) <= 2 * m }

  /** One positive share for each rank, the least largest share possible, the same between the ends,
      and ends that differ by one at most. */
  predicate Even(layers: int, ranks: int, shards: seq<int>) {
    && |shards| == ranks && Sum(shards) == layers && (forall k :: 0 <= k < |shards| ==> shards[k] > 0)
    && (forall k :: 0 < k < |shards| - 1 ==> (shards[k] - 1) * ranks < layers <= shards[k] * ranks)
    && shards != [] && shards[0] <= shards[|shards| - 1] <= shards[0] + 1
  }

  lemma ShardsMean(layers: int, ranks: int)
    ensures var r := Shards(layers, ranks);
      && (r.Ok? <==> 1 <= ranks <= layers && (ranks <= 2 || exists m :: EndsFit(layers, ranks, m)))
      && (r.Ok? ==> Even(layers, ranks, r.value))
      && (r == Err(ValueError) <==> layers < ranks || ranks < 1)
  {
    if layers >= ranks >= 3 {
      LeastMiddle(layers, ranks);
      var c := CeilDiv(layers, ranks);
      AdmissibleRange(layers, ranks, c);
      if Splits(layers, ranks) {
        assert EndsFit(layers, ranks, c) by {
          EndsFitMeans(layers, ranks, c);
        }
      }
      forall m | EndsFit(layers, ranks, m) ensures Splits(layers, ranks) {
        EndsFitMeans(layers, ranks, m);
        AdmissibleRange(layers, ranks, m);
      }
    }
    if Shards(layers, ranks).Ok? {
      ShardsCorrect(layers, ranks);
      CeilDivLeast(layers, ranks, CeilDiv(layers, ranks));
      CeilDivLeast(layers, ranks, CeilDiv(layers, ranks) - 1);
    }
  }

  lemma EndsFitMeans(layers: int, ranks: int, m: int)
    requires ranks >= 3
    ensures EndsFit(layers, ranks, m) <==> CeilDiv(layers, ranks) <= m && Times(m, ranks - 2) + 2 <= layers
  {
    CeilDivLeast(layers, ranks, m);
    hide CeilDiv;
  }

  /** `get_dynamic_pipeline_shards` finds the closed form. */
  method GetDynamicPipelineShards(layers: int, ranks: int) returns (r: Result<seq<int>, Error>)
    ensures r == Shards(layers, ranks)
    ensures r.Ok? <==> 1 <= ranks <= layers && (ranks <= 2 || exists m :: EndsFit(layers, ranks, m))
    ensures r.Ok? ==> Even(layers, ranks, r.value)
    ensures r == Err(ValueError) <==> layers < ranks || ranks < 1
  {
    ShardsMean(layers, ranks);
    hide EndsFit, Even;
    hide Times, CeilDiv, Admissible, CandidateOf, Layout, Sum;
    if layers < ranks {
      return Err(ValueError);
    }
    if ranks < 1 {
      return Err(ValueError);
    }
    if ranks == 1 {
      return Ok([layers]);
    }
    if ranks == 2 {
      return Ok([layers / 2, layers - layers / 2]);
    }
    var candidates: seq<Candidate> := [];
    ghost var middles: seq<int> := [];
    for middle := 0 to layers
      invariant |middles| == |candidates|
      invariant forall k :: 0 <= k < |middles| ==>
        && 0 <= middles[k] < middle && Admissible(layers, ranks, middles[k])
        && candidates[k] == CandidateOf(layers, ranks, middles[k])
      invariant forall j, k :: 0 <= j < k < |middles| ==> middles[j] < middles[k]
      invariant forall m :: 0 <= m < middle && Admissible(layers, ranks, m) ==> m in middles
    {
      if Admissible(layers, ranks, middle) {
        candidates := candidates + [CandidateOf(layers, ranks, middle)];
        middles := middles + [middle];
      }
    }
    LeastMiddle(layers, ranks);
    if candidates == [] {
      return Err(IndexError);
    }
    var best := LeastCandidate(candidates);
    if best > 0 {
      DiffGrows(layers, ranks, middles[0], middles[best]);
    }
    AdmissibleRange(layers, ranks, middles[0]);
    r := Ok(candidates[best].shards);
    CandidateShards(layers, ranks, middles[0]);
  }

  lemma CandidateShards(layers: int, ranks: int, middle: int)
    requires ranks >= 2
    ensures CandidateOf(layers, ranks, middle).shards == Layout(layers, ranks, middle)
  {}

  /** Some middle share is admissible exactly when the least one is. */
  lemma LeastMiddle(layers: int, ranks: int)
    requires layers >= ranks >= 3
    ensures Splits(layers, ranks) <==> Admissible(layers, ranks, CeilDiv(layers, ranks))
    ensures Splits(layers, ranks) ==> 0 <= CeilDiv(layers, ranks) < layers
    ensures forall m :: Admissible(layers, ranks, m) ==> Splits(layers, ranks) && CeilDiv(layers, ranks) <= m
  {
    hide Times, CeilDiv, Admissible;
    var c := CeilDiv(layers, ranks);
    AdmissibleRange(layers, ranks, c);
    CeilDivLeast(layers, ranks, 0);
    TimesAtLeast(0, ranks);
    TimesAtLeast(c, ranks - 2);
    forall m | Admissible(layers, ranks, m) ensures Splits(layers, ranks) && c <= m {
      AdmissibleRange(layers, ranks, m);
      TimesGrows(c, m, ranks - 2);
    }
  }

  lemma {:induction false} SumConcat(s: seq<int>, t: seq<int>)
    ensures Sum(s + t) == Sum(s) + Sum(t)
  {
    if s == [] {
      assert s + t == t;
    } else {
      assert (s + t)[1..] == s[1..] + t;
      SumConcat(s[1..], t);
    }
  }

  lemma {:induction false} SumRepeat(x: int, n: nat)
    ensures Sum(Repeat(x, n)) == Times(x, n)
  {
    if n > 0 {
      assert Repeat(x, n)[1..] == Repeat(x, n - 1);
      SumRepeat(x, n - 1);
    }
  }

  lemma {:induction false} SumLayout(layers: int, ranks: int, middle: int)
    requires ranks >= 2
    ensures Sum(Layout(layers, ranks, middle)) == layers
  {
    var f, l := FirstShare(layers, ranks, middle), LastShare(layers, ranks, middle);
    SumConcat([f] + Repeat(middle, ranks - 2), [l]);
    SumConcat([f], Repeat(middle, ranks - 2));
    SumRepeat(middle, ranks - 2);
    assert Sum([f]) == f && Sum([l]) == l;
  }

  /** A result has one positive share for each rank and they sum to the layers; from three ranks
      on the middle shares are all ceil(layers / ranks) and the end shares no larger and at most
      one layer apart. */
  lemma ShardsCorrect(layers: int, ranks: int)
    requires Shards(layers, ranks).Ok?
    ensures var s := Shards(layers, ranks).value;
      && |s| == ranks >= 1 && Sum(s) == layers && (forall k :: 0 <= k < |s| ==> s[k] > 0)
      && (forall k :: 0 < k < |s| - 1 ==> s[k] == CeilDiv(layers, ranks))
      && s[0] <= s[|s| - 1] <= s[0] + 1
      && (forall k :: 0 <= k < |s| ==> s[k] <= CeilDiv(layers, ranks))
  {
    var s := Shards(layers, ranks).value;
    if ranks >= 3 {
      LeastMiddle(layers, ranks);
      SumLayout(layers, ranks, CeilDiv(layers, ranks));
      hide Times, CeilDiv;
    } else {
      SumRepeat(s[|s| - 1], 1);
      assert Repeat(s[|s| - 1], 1) == [s[|s| - 1]];
      assert s == [s[0]] || s[1..] == [s[1]];
    }
  }

  /** No split of the layers over the ranks has a smaller largest share. */
  lemma {:induction false} LargestShareLeast(s: seq<int>, layers: int, bound: int)
    requires s != [] && Sum(s) == layers && forall k :: 0 <= k < |s| ==> s[k] <= bound
    ensures CeilDiv(layers, |s|) <= bound
  {
    SumBelow(s, bound);
    CeilDivLeast(layers, |s|, bound);
  }

  lemma {:induction false} SumBelow(s: seq<int>, bound: int)
    requires forall k :: 0 <= k < |s| ==> s[k] <= bound
    ensures Sum(s) <= Times(bound, |s|)
  {
    if s != [] {
      SumBelow(s[1..], bound);
    }
  }

  /** Five layers over four ranks have no result although a split into positive shares exists. */
  lemma FiveOverFourFails()
    ensures Shards(5, 4) == Err(IndexError)
    ensures Sum([1, 1, 2, 1]) == 5
  {}

  // ----- the layers of a rank

  /** `np.cumsum(shards)[rank - 1]`, or 0 at rank 0 */
  function Start(shards: seq<int>, rank: nat): int
    requires rank <= |shards|
  {
    Sum(shards[..rank])
  }

  lemma {:induction false} StartNext(shards: seq<int>, rank: nat)
    requires rank < |shards|
    ensures Start(shards, rank + 1) == Start(shards, rank) + shards[rank]
    ensures Start(shards, 0) == 0 && Start(shards, |shards|) == Sum(shards)
  {
    assert shards[..rank + 1] == shards[..rank] + [shards[rank]];
    SumConcat(shards[..rank], [shards[rank]]);
    assert shards[..|shards|] == shards && Sum([shards[rank]]) == shards[rank];
  }

  /** Global index x belongs to `rank` when each layer has `per` of them. */
  predicate Owns(shards: seq<int>, per: nat, rank: nat, x: int)
    requires rank < |shards|
  {
    Times(Start(shards, rank), per) <= x < Times(Start(shards, rank), per) + Times(shards[rank], per)
  }

  lemma {:induction false} StartGrows(shards: seq<int>, per: nat, a: nat, b: nat)
    requires a <= b <= |shards| && forall k :: 0 <= k < |shards| ==> shards[k] >= 0
    ensures Times(Start(shards, a), per) <= Times(Start(shards, b), per)
  {
    hide Start;
    if a < b {
      StartGrows(shards, per, a, b - 1);
      StartNext(shards, b - 1);
      TimesGrows(Start(shards, b - 1), Start(shards, b), per);
    }
  }

  lemma {:induction false} OwnerBefore(shards: seq<int>, per: nat, n: nat, x: int)
    requires n <= |shards| && 0 <= x < Times(Start(shards, n), per)
    ensures exists r :: 0 <= r < n && Owns(shards, per, r, x)
  {
    EmptyStart(shards);
    hide Start;
    if n > 0 {
      StartNext(shards, n - 1);
      TimesAdds(Start(shards, n - 1), shards[n - 1], per);
      if x < Times(Start(shards, n - 1), per) {
        OwnerBefore(shards, per, n - 1, x);
      } else {
        assert Owns(shards, per, n - 1, x);
      }
    }
  }

  lemma EmptyStart(shards: seq<int>)
    ensures Start(shards, 0) == 0
  {}

  lemma TimesAdds(a: int, b: int, k: int)
    ensures Times(a + b, k) == Times(a, k) + Times(b, k)
  {}

  /** The indices of the ranks neither overlap nor leave a gap: each index below the total
      belongs to exactly one rank. With one index a layer these are the layers, with
      saves_per_layer of them the files a rank writes. */
  lemma RanksPartition(layers: int, ranks: int, per: nat, x: int)
    requires Shards(layers, ranks).Ok? && 0 <= x < Times(layers, per)
    ensures var s := Shards(layers, ranks).value;
      && (exists r :: 0 <= r < |s| && Owns(s, per, r, x))
      && forall a, b :: 0 <= a < |s| && 0 <= b < |s| && Owns(s, per, a, x) && Owns(s, per, b, x) ==> a == b
  {
    hide Shards, Start, Times;
    ShardsCorrect(layers, ranks);
    var s := Shards(layers, ranks).value;
    StartNext(s, |s| - 1);
    OwnerBefore(s, per, |s|, x);
    forall a, b | 0 <= a < b < |s| && Owns(s, per, a, x) ensures !Owns(s, per, b, x) {
      StartNext(s, a);
      TimesAdds(Start(s, a), s[a], per);
      StartGrows(s, per, a + 1, b);
    }
  }

  /** Every file index of a rank is below the total it puts in the file names. */
  lemma OwnedInRange(layers: int, ranks: int, per: nat, r: nat, i: nat)
    requires Shards(layers, ranks).Ok? && r < ranks && i < Times(Shards(layers, ranks).value[r], per)
    requires |Shards(layers, ranks).value| == ranks
    ensures var x := Times(Start(Shards(layers, ranks).value, r), per) + i;
      0 <= x < Times(layers, per) && Owns(Shards(layers, ranks).value, per, r, x)
  {
    hide Shards, Start, Times;
    ShardsCorrect(layers, ranks);
    var s := Shards(layers, ranks).value;
    StartNext(s, r);
    TimesAdds(Start(s, r), s[r], per);
    StartGrows(s, per, r + 1, |s|);
    StartNext(s, |s| - 1);
    StartNext(s, 0);
    StartGrows(s, per, 0, r);
    TimesAdds(0, 0, per);
  }

  // ----- numbering the layers of a rank's model parts

  /** A state dictionary, as the local layer number of each of its keys, if it has one. */
  type Part = seq<Option<nat>>

  /** The largest local layer number, or 0. */
  function Handled(part: Part): nat {
    if part == [] then 0
    else
      var h := Handled(part[..|part| - 1]);
      match part[|part| - 1] case None => h case Some(n) => if n > h then n else h
  }

  function Shifted(part: Part, shift: int): seq<Option<int>> {
    seq(|part|, i requires 0 <= i < |part| => if part[i].Some? then Some(part[i].value + shift) else None)
  }

  /** The global layer number of every key, part after part. */
  function Renumbered(start: int, parts: seq<Part>): seq<Option<int>>
    decreases |parts|
  {
    if parts == [] then [] else Shifted(parts[0], start) + Renumbered(start + Handled(parts[0]) + 1, parts[1..])
  }

  /** The inner loop of `_merge_state_dicts`, over the keys of one part. */
  method NumberPart(layersCum: int, part: Part) returns (handled: nat, numbers: seq<Option<int>>)
    ensures handled == Handled(part) && numbers == Shifted(part, layersCum)
  {
    handled, numbers := 0, [];
    for j := 0 to |part|
      invariant handled == Handled(part[..j]) && numbers == Shifted(part[..j], layersCum)
    {
      assert part[..j + 1][..j] == part[..j];
      match part[j] {
        case None => numbers := numbers + [None];
        case Some(n) =>
          handled := if n > handled then n else handled;
          numbers := numbers + [Some(n + layersCum)];
      }
    }
    assert part[..|part|] == part;
  }

  /** t is the largest local layer number of the part, or 0 if it has none. */
  ghost predicate IsTop(part: Part, t: nat) {
    (t == 0 || Some(t) in part) && forall i :: 0 <= i < |part| && part[i].Some? ==> part[i].value <= t
  }

  ghost predicate Tops(parts: seq<Part>, tops: seq<nat>) {
    |tops| == |parts| && forall k :: 0 <= k < |parts| ==> IsTop(parts[k], tops[k])
  }

  /** How many keys the first p parts have. */
  function KeysBefore(parts: seq<Part>, p: nat): nat
    requires p <= |parts|
  {
    if p == 0 then 0 else KeysBefore(parts, p - 1) + |parts[p - 1]|
  }

  /** Key by key: what has no layer gets no number, and a local number is moved up by the start and
      by one more than the largest number of each earlier part. */
  ghost predicate Numbered(start: int, parts: seq<Part>, tops: seq<nat>, numbers: seq<Option<int>>)
    requires |tops| == |parts|
  {
    && |numbers| == KeysBefore(parts, |parts|)
    && forall p, j :: 0 <= p < |parts| && 0 <= j < |parts[p]| ==> KeyNumbered(start, parts, tops, numbers, p, j)
  }

  /** Key j of part p has its number. */
  predicate KeyNumbered(start: int, parts: seq<Part>, tops: seq<nat>, numbers: seq<Option<int>>, p: nat, j: nat)
    requires |tops| == |parts| && p < |parts| && j < |parts[p]|
  {
    && KeysBefore(parts, p) + j < |numbers|
    && numbers[KeysBefore(parts, p) + j] == NumberOf(parts[p][j], start + Total(tops[..p]) + p)
  }

  function NumberOf(local: Option<nat>, shift: int): Option<int> {
    if local.None? then None else Some(local.value + shift)
  }

  lemma TopIsHandled(part: Part, t: nat)
    requires IsTop(part, t)
    ensures Handled(part) == t
  {
    HandledBounds(part);
    if Handled(part) > 0 {
      var i :| 0 <= i < |part| && part[i] == Some(Handled(part));
    }
  }

  lemma {:induction false} RenumberedKeys(start: int, parts: seq<Part>, tops: seq<nat>)
    requires Tops(parts, tops)
    ensures Numbered(start, parts, tops, Renumbered(start, parts))
    decreases |parts|
  {
    assert |tops| == |parts|;
    hide Tops, Renumbered, Numbered;
    if parts == [] {
      NoKeys(start);
    } else {
      TopsRest(parts, tops);
      RenumberedRest(start, parts, tops[0]);
      RenumberedKeys(start + tops[0] + 1, parts[1..], tops[1..]);
      FirstPartKeys(start, parts, tops, Renumbered(start + tops[0] + 1, parts[1..]));
    }
  }

  lemma NoKeys(start: int)
    ensures Numbered(start, [], [], Renumbered(start, []))
  {}

  lemma TopsRest(parts: seq<Part>, tops: seq<nat>)
    requires Tops(parts, tops) && parts != []
    ensures IsTop(parts[0], tops[0]) && Tops(parts[1..], tops[1..])
  {
    hide IsTop;
  }

  lemma RenumberedRest(start: int, parts: seq<Part>, top: nat)
    requires parts != [] && IsTop(parts[0], top)
    ensures Renumbered(start, parts) == Shifted(parts[0], start) + Renumbered(start + top + 1, parts[1..])
  {
    TopIsHandled(parts[0], top);
  }

  lemma FirstPartKeys(start: int, parts: seq<Part>, tops: seq<nat>, rest: seq<Option<int>>)
    requires parts != [] && |tops| == |parts|
    requires Numbered(start + tops[0] + 1, parts[1..], tops[1..], rest)
    ensures Numbered(start, parts, tops, Shifted(parts[0], start) + rest)
  {
    KeysAfterFirst(parts, |parts|);
    var numbers := Shifted(parts[0], start) + rest;
    assert |numbers| == KeysBefore(parts, |parts|);
    forall p, j | 0 <= p < |parts| && 0 <= j < |parts[p]|
      ensures KeyNumbered(start, parts, tops, numbers, p, j)
    {
      if p > 0 {
        LaterKey(start, parts, tops, rest, p, j);
      } else {
        assert tops[..p] == [] && numbers[j] == Shifted(parts[0], start)[j];
      }
    }
  }

  lemma LaterKey(start: int, parts: seq<Part>, tops: seq<nat>, rest: seq<Option<int>>, p: nat, j: nat)
    requires parts != [] && |tops| == |parts| && 0 < p < |parts| && j < |parts[p]|
    requires Numbered(start + tops[0] + 1, parts[1..], tops[1..], rest)
    ensures KeyNumbered(start, parts, tops, Shifted(parts[0], start) + rest, p, j)
  {
    KeysAfterFirst(parts, p);
    assert parts[1..][p - 1] == parts[p] && parts[1..][p - 1][j] == parts[p][j];
    assert Total(tops[..p]) == tops[0] + Total(tops[1..][..p - 1]) by {
      assert tops[..p][1..] == tops[1..][..p - 1];
    }
    assert KeyNumbered(start + tops[0] + 1, parts[1..], tops[1..], rest, p - 1, j);
  }

  lemma {:induction false} KeysAfterFirst(parts: seq<Part>, p: nat)
    requires 0 < p <= |parts|
    ensures KeysBefore(parts, p) == |parts[0]| + KeysBefore(parts[1..], p - 1)
  {
    if p > 1 {
      KeysAfterFirst(parts, p - 1);
    }
  }

  /** If no part is empty and each holds local layers 0 to size - 1, local layer n of part p gets the
      number of layers of the earlier parts plus n, from the start on. */
  lemma FullPartsNumbered(start: int, parts: seq<Part>, sizes: seq<nat>, p: nat, j: nat)
    requires |sizes| == |parts| && forall k :: 0 <= k < |parts| ==> sizes[k] > 0 && Holds(parts[k], sizes[k])
    requires p < |parts| && j < |parts[p]| && parts[p][j].Some?
    ensures KeysBefore(parts, p) + j < |Renumbered(start, parts)|
    ensures Renumbered(start, parts)[KeysBefore(parts, p) + j] == Some(start + Total(sizes[..p]) + parts[p][j].value)
  {
    var tops := seq(|sizes|, k requires 0 <= k < |sizes| => sizes[k] - 1);
    forall k | 0 <= k < |parts| ensures IsTop(parts[k], tops[k]) {
      TopOfFull(parts[k], sizes[k]);
    }
    hide Holds, IsTop, Renumbered;
    RenumberedKeys(start, parts, tops);
    assert KeyNumbered(start, parts, tops, Renumbered(start, parts), p, j);
    TotalLess(sizes[..p], tops[..p]);
  }

  lemma TopOfFull(part: Part, n: nat)
    requires n > 0 && Holds(part, n)
    ensures IsTop(part, n - 1)
  {
    assert Some((n - 1) as nat) in part;
    forall i | 0 <= i < |part| && part[i].Some? ensures part[i].value <= n - 1 {
      assert Some(part[i].value) in part;
    }
  }

  lemma {:induction false} TotalLess(sizes: seq<nat>, tops: seq<nat>)
    requires |sizes| == |tops| && forall k :: 0 <= k < |sizes| ==> sizes[k] == tops[k] + 1
    ensures Total(sizes) == Total(tops) + |tops|
  {
    if sizes != [] {
      TotalLess(sizes[1..], tops[1..]);
    }
  }

  /** The outer loop of `_merge_state_dicts`. */
  method RenumberLayers(start: int, parts: seq<Part>) returns (numbers: seq<Option<int>>)
    ensures numbers == Renumbered(start, parts)
    ensures forall tops :: Tops(parts, tops) ==> Numbered(start, parts, tops, numbers)
  {
    forall tops | Tops(parts, tops) ensures Numbered(start, parts, tops, Renumbered(start, parts)) {
      RenumberedKeys(start, parts, tops);
    }
    hide Renumbered, Handled, Shifted, Numbered, Tops;
    numbers := [];
    var layersCum := start;
    NoneRenumbered(start, parts);
    for i := 0 to |parts|
      invariant numbers + Renumbered(layersCum, parts[i..]) == Renumbered(start, parts)
    {
      var handled, shifted := NumberPart(layersCum, parts[i]);
      NextRenumbered(layersCum, parts, i);
      numbers := numbers + shifted;
      layersCum := layersCum + handled + 1;
    }
    LastRenumbered(layersCum, parts);
    assert numbers + [] == numbers;
  }

  lemma NoneRenumbered(start: int, parts: seq<Part>)
    ensures [] + Renumbered(start, parts[0..]) == Renumbered(start, parts)
  {}

  lemma NextRenumbered(start: int, parts: seq<Part>, i: nat)
    requires i < |parts|
    ensures Renumbered(start, parts[i..])
            == Shifted(parts[i], start) + Renumbered(start + Handled(parts[i]) + 1, parts[i + 1..])
  {}

  lemma LastRenumbered(start: int, parts: seq<Part>)
    ensures Renumbered(start, parts[|parts|..]) == []
  {}

  /** The part holds keys of exactly the local layers 0 to n - 1. */
  ghost predicate Holds(part: Part, n: nat) {
    forall x: nat :: Some(x) in part <==> x < n
  }

  lemma {:induction false} HandledBounds(part: Part)
    ensures forall x :: Some(x) in part ==> x <= Handled(part)
    ensures Handled(part) == 0 || Some(Handled(part)) in part
  {
    if part != [] {
      var n := |part| - 1;
      HandledBounds(part[..n]);
      assert part == part[..n] + [part[n]];
    }
  }

  lemma HandledIs(part: Part, n: nat)
    requires Holds(part, n)
    ensures Handled(part) == if n == 0 then 0 else n - 1
  {
    HandledBounds(part);
    if n > 0 {
      assert Some((n - 1) as nat) in part;
    }
  }

  lemma ShiftedHas(part: Part, n: nat, shift: int, x: int)
    requires Holds(part, n)
    ensures Some(x) in Shifted(part, shift) <==> shift <= x < shift + n
  {
    if Some(x) in Shifted(part, shift) {
      var i :| 0 <= i < |part| && Shifted(part, shift)[i] == Some(x);
      assert part[i] in part && part[i] == Some((x - shift) as nat);
    }
    if shift <= x < shift + n {
      assert Some((x - shift) as nat) in part;
      var i :| 0 <= i < |part| && part[i] == Some((x - shift) as nat);
      assert Shifted(part, shift)[i] == Some(x);
    }
  }

  /** No part without layers comes before one with layers. */
  predicate EmptyPartsLast(sizes: seq<nat>) {
    forall j, k :: 0 <= j < k < |sizes| && sizes[j] == 0 ==> sizes[k] == 0
  }

  lemma {:induction false} NumbersFrom(start: int, parts: seq<Part>, sizes: seq<nat>, x: int)
    requires |sizes| == |parts| && forall k :: 0 <= k < |parts| ==> Holds(parts[k], sizes[k])
    requires Some(x) in Renumbered(start, parts)
    ensures x >= start
    decreases |parts|
  {
    if parts != [] {
      ShiftedHas(parts[0], sizes[0], start, x);
      if Some(x) !in Shifted(parts[0], start) {
        NumbersFrom(start + Handled(parts[0]) + 1, parts[1..], sizes[1..], x);
      }
    }
  }

  /** The keys are numbered with exactly the rank's layers, start to start + total - 1, if and
      only if no part without layers comes before one with layers: such a part still advances
      the count by one. */
  lemma {:induction false} NumberingExact(start: int, parts: seq<Part>, sizes: seq<nat>)
    requires |sizes| == |parts| && forall k :: 0 <= k < |parts| ==> Holds(parts[k], sizes[k])
    ensures (forall x :: Some(x) in Renumbered(start, parts) <==> start <= x < start + Total(sizes))
            <==> EmptyPartsLast(sizes)
    decreases |parts|
  {
    if parts != [] {
      HandledIs(parts[0], sizes[0]);
      var next := start + Handled(parts[0]) + 1;
      NumberingExact(next, parts[1..], sizes[1..]);
      var rest := Renumbered(next, parts[1..]);
      forall x ensures Some(x) in Renumbered(start, parts) <==> start <= x < start + sizes[0] || Some(x) in rest {
        ShiftedHas(parts[0], sizes[0], start, x);
      }
      forall x | Some(x) in rest ensures x >= next {
        NumbersFrom(next, parts[1..], sizes[1..], x);
      }
      NoneLeft(sizes[1..]);
      hide Renumbered, Holds;
      EmptyPartsStep(sizes);
      hide EmptyPartsLast;
      if sizes[0] == 0 && Total(sizes[1..]) > 0 {
        assert Some(start) !in Renumbered(start, parts);
      }
    }
  }

  /** Where it fails: a part without layers before another moves all layers of that one up, as it
      does a single layer, which should have been the first. */
  lemma EmptyPartShifts(start: int, part: Part)
    ensures Renumbered(start, [[], part]) == Shifted(part, start + 1)
    ensures Renumbered(start, [[], [Some(0)]]) == [Some(start + 1)]
  {
    assert Renumbered(start, [[], part]) == Renumbered(start + 1, [part]);
    assert Renumbered(start + 1, [part]) == Shifted(part, start + 1) + Renumbered(start + 2 + Handled(part), []);
    assert Renumbered(start + 1, [[Some(0)]]) == Shifted([Some(0)], start + 1);
  }

  lemma {:induction false} NoneLeft(sizes: seq<nat>)
    ensures Total(sizes) == 0 <==> forall k :: 0 <= k < |sizes| ==> sizes[k] == 0
  {
    if sizes != [] {
      NoneLeft(sizes[1..]);
      assert forall k :: 0 < k < |sizes| ==> sizes[k] == sizes[1..][k - 1];
    }
  }

  lemma EmptyPartsStep(sizes: seq<nat>)
    requires sizes != []
    ensures EmptyPartsLast(sizes) <==>
      if sizes[0] == 0 then Total(sizes[1..]) == 0 else EmptyPartsLast(sizes[1..])
  {
    NoneLeft(sizes[1..]);
    assert forall k :: 0 < k < |sizes| ==> sizes[k] == sizes[1..][k - 1];
  }
}
