/** Batches of tensor and non-tensor columns: padding to a divisor, unpadding, chunking, splitting
  and concatenating, with every column kept row for row. */
module DataProtoOps {
  import opened Wrappers
  import opened Arithmetic

  /** One column's value in one row. */
  type Cell = int

  datatype Column = Tensor(name: string) | NonTensor(name: string)

  type Table = map<Column, seq<Cell>>

  /** `hasBatch` says whether there is a tensor batch; `size` is the length. */
  datatype DataProto = DataProto(size: nat, hasBatch: bool, columns: Table)

  datatype Error = AssertionError | IndexError | LibraryError

  /** Every column has a cell for each row; without a tensor batch the columns give the length. */
  predicate Valid(p: DataProto) {
    && (forall k :: k in p.columns ==> |p.columns[k]| == p.size)
    && (!p.hasBatch ==> (forall k :: k in p.columns ==> k.NonTensor?) && (p.columns == map[] ==> p.size == 0))
  }

  function Col(p: DataProto, k: Column): seq<Cell> {
    if k in p.columns then p.columns[k] else []
  }

  // ----- slicing

  /** A Python slice bound on a sequence of length n. */
  function Bound(x: int, n: nat): nat {
    if x >= n then n else if x >= 0 then x else if x + n >= 0 then x + n else 0
  }

  function Sub(s: seq<Cell>, a: int, b: int): seq<Cell> {
    if Bound(a, |s|) <= Bound(b, |s|) then s[Bound(a, |s|)..Bound(b, |s|)] else []
  }

  /** `data[a:b]` */
  function Slice(p: DataProto, a: int, b: int): DataProto {
    var (low, high) := (Bound(a, p.size), Bound(b, p.size));
    DataProto(if low <= high then high - low else 0, p.hasBatch, map k | k in p.columns :: Sub(p.columns[k], a, b))
  }

  lemma SliceValid(p: DataProto, a: int, b: int)
    requires Valid(p)
    ensures Valid(Slice(p, a, b)) && SameShape(p, Slice(p, a, b))
  {}

  lemma SliceColumn(p: DataProto, a: nat, b: nat, k: Column)
    requires Valid(p) && a <= b <= p.size && k in p.columns
    ensures |p.columns[k]| == p.size && Col(Slice(p, a, b), k) == p.columns[k][a..b]
  {}

  lemma SliceSize(p: DataProto, a: nat, b: nat)
    requires a <= b <= p.size
    ensures Slice(p, a, b).size == b - a
  {}

  // ----- concatenating

  /** The parts have the same columns, and all or none a tensor batch. */
  predicate Alike(parts: seq<DataProto>) {
    forall i :: 0 <= i < |parts| ==> SameShape(parts[0], parts[i])
  }

  predicate SameShape(p: DataProto, q: DataProto) {
    p.hasBatch == q.hasBatch && p.columns.Keys == q.columns.Keys
  }

  /** Rows of the first n parts. */
  function Size(parts: seq<DataProto>, n: nat): nat
    requires n <= |parts|
  {
    if n == 0 then 0 else Size(parts, n - 1) + parts[n - 1].size
  }

  /** A column of the first n parts, one below the other. */
  function Flat(parts: seq<DataProto>, n: nat, k: Column): seq<Cell>
    requires n <= |parts|
  {
    if n == 0 then [] else Flat(parts, n - 1, k) + Col(parts[n - 1], k)
  }

  function Joined(parts: seq<DataProto>): DataProto
    requires parts != []
  {
    DataProto(Size(parts, |parts|), parts[0].hasBatch, map k | k in parts[0].columns :: Flat(parts, |parts|, k))
  }

  function Beneath(t: Table, p: DataProto): Table {
    map k | k in t :: t[k] + Col(p, k)
  }

  lemma BeneathColumns(t: Table, p: DataProto)
    ensures Beneath(t, p).Keys == t.Keys && forall k :: k in t ==> Beneath(t, p)[k] == t[k] + Col(p, k)
  {}

  lemma SameTable(t: Table, u: Table)
    requires t.Keys == u.Keys && forall k :: k in t ==> t[k] == u[k]
    ensures t == u
  {}

  lemma {:induction false} FlatPrefix(parts: seq<DataProto>, more: seq<DataProto>, n: nat, k: Column)
    requires n <= |parts|
    ensures Flat(parts + more, n, k) == Flat(parts, n, k) && Size(parts + more, n) == Size(parts, n)
  {
    if n > 0 {
      FlatPrefix(parts, more, n - 1, k);
    }
  }

  predicate AllValid(parts: seq<DataProto>) {
    forall i :: 0 <= i < |parts| ==> Valid(parts[i])
  }

  function TensorKeys(p: DataProto): set<Column> { set k | k in p.columns && k.Tensor? }

  /** What `torch.cat` needs: a tensor batch in every part, with the same columns. */
  predicate SameTensors(parts: seq<DataProto>) {
    forall i :: 0 <= i < |parts| ==> parts[i].hasBatch && TensorKeys(parts[i]) == TensorKeys(parts[0])
  }

  /** q has no other column that p lacks. */
  predicate NothingNew(p: DataProto, q: DataProto) {
    forall k :: k in q.columns && k.NonTensor? ==> k in p.columns
  }

  predicate NoNewColumn(parts: seq<DataProto>) {
    forall i :: 0 <= i < |parts| ==> NothingNew(parts[0], parts[i])
  }

  /** No other column comes out shorter than the tensor batch. */
  predicate Even(parts: seq<DataProto>)
    requires parts != []
  {
    forall k :: k in parts[0].columns && k.NonTensor? ==> |Flat(parts, |parts|, k)| == Size(parts, |parts|)
  }

  /** `DataProto.concat`, for all parts. Parts with the same columns give all their rows. A part
      without one of the first part's other columns is noticed only if there is a tensor batch. */
  method Concat(parts: seq<DataProto>) returns (r: Result<DataProto, Error>)
    requires AllValid(parts)
    ensures parts == [] <==> r == Err(IndexError)
    ensures parts != [] && Alike(parts) ==> r == Ok(Joined(parts))
    ensures parts != [] && parts[0].hasBatch ==>
      r == if !SameTensors(parts) then Err(LibraryError)
           else if !NoNewColumn(parts) || !Even(parts) then Err(AssertionError) else Ok(Joined(parts))
    ensures parts != [] && !parts[0].hasBatch ==>
      if NoNewColumn(parts) then r.Ok? && !r.value.hasBatch && r.value.columns == Joined(parts).columns
      else r == Err(AssertionError)
  {
    hide Col, Flat, Size, Valid, Beneath, TensorKeys, NothingNew, Alike, SameShape, Even;
    if parts == [] {
      return Err(IndexError);
    }
    if Alike(parts) {
      AlikeEven(parts);
    }
    if parts[0].hasBatch && !SameTensors(parts) {
      return Err(LibraryError);
    }
    var columns, size := NoRows(parts);
    for i := 0 to |parts|
      invariant columns.Keys == parts[0].columns.Keys && size == Size(parts, i)
      invariant forall k :: k in columns ==> columns[k] == Flat(parts, i, k)
      invariant forall j :: 0 <= j < i ==> NothingNew(parts[0], parts[j])
    {
      if !NothingNew(parts[0], parts[i]) {
        return Err(AssertionError);
      }
      OneMorePart(parts, i, columns);
      columns := Beneath(columns, parts[i]);
      size := size + parts[i].size;
    }
    SameTable(columns, Joined(parts).columns);
    if !parts[0].hasBatch {
      size := ColumnsLength(columns);
      if Alike(parts) {
        SizeOf(parts, columns);
      }
    } else if !EvenColumns(columns, size) {
      EvenMeans(parts, columns, size);
      return Err(AssertionError);
    } else {
      EvenMeans(parts, columns, size);
    }
    r := Ok(DataProto(size, parts[0].hasBatch, columns));
  }

  /** `check_consistency` of the result. */
  predicate EvenColumns(t: Table, size: nat) {
    forall k :: k in t && k.NonTensor? ==> |t[k]| == size
  }

  lemma EvenMeans(parts: seq<DataProto>, t: Table, size: nat)
    requires parts != [] && t.Keys == parts[0].columns.Keys && size == Size(parts, |parts|)
    requires forall k :: k in t ==> t[k] == Flat(parts, |parts|, k)
    ensures EvenColumns(t, size) <==> Even(parts)
  {}

  method NoRows(parts: seq<DataProto>) returns (t: Table, size: nat)
    requires parts != []
    ensures t.Keys == parts[0].columns.Keys && size == Size(parts, 0)
    ensures forall k :: k in t ==> t[k] == Flat(parts, 0, k)
  {
    t, size := map k | k in parts[0].columns :: [], 0;
  }

  lemma OneMorePart(parts: seq<DataProto>, i: nat, t: Table)
    requires i < |parts| && forall k :: k in t ==> t[k] == Flat(parts, i, k)
    ensures var u := Beneath(t, parts[i]); u.Keys == t.Keys && forall k :: k in u ==> u[k] == Flat(parts, i + 1, k)
    ensures Size(parts, i + 1) == Size(parts, i) + parts[i].size
  {
    BeneathColumns(t, parts[i]);
    hide Col, Beneath;
  }

  /** The length of a batch without tensors: that of any of its columns. */
  method ColumnsLength(t: Table) returns (n: nat)
    ensures if t == map[] then n == 0 else exists k :: k in t && n == |t[k]|
  {
    if t == map[] {
      return 0;
    }
    var k :| k in t;
    n := |t[k]|;
  }

  lemma {:induction false} AlikeFlat(parts: seq<DataProto>, n: nat, k: Column)
    requires AllValid(parts) && Alike(parts) && n <= |parts| && parts != [] && k in parts[0].columns
    ensures |Flat(parts, n, k)| == Size(parts, n)
  {
    if n > 0 {
      AlikeFlat(parts, n - 1, k);
      assert SameShape(parts[0], parts[n - 1]) && Valid(parts[n - 1]);
    }
  }

  /** Parts with the same columns meet every condition. */
  lemma AlikeEven(parts: seq<DataProto>)
    requires AllValid(parts) && Alike(parts) && parts != []
    ensures NoNewColumn(parts) && Even(parts) && (parts[0].hasBatch ==> SameTensors(parts))
  {
    forall i | 0 <= i < |parts|
      ensures NothingNew(parts[0], parts[i]) && TensorKeys(parts[i]) == TensorKeys(parts[0])
    {
      assert SameShape(parts[0], parts[i]);
    }
    forall k | k in parts[0].columns ensures |Flat(parts, |parts|, k)| == Size(parts, |parts|) {
      AlikeFlat(parts, |parts|, k);
    }
  }

  lemma SizeOf(parts: seq<DataProto>, t: Table)
    requires AllValid(parts) && Alike(parts) && parts != [] && !parts[0].hasBatch
    requires t.Keys == parts[0].columns.Keys && forall k :: k in t ==> t[k] == Flat(parts, |parts|, k)
    ensures forall k :: k in t ==> |t[k]| == Size(parts, |parts|)
    ensures t == map[] ==> Size(parts, |parts|) == 0
  {
    forall k | k in t ensures |t[k]| == Size(parts, |parts|) {
      AlikeFlat(parts, |parts|, k);
    }
    if t == map[] {
      NoColumns(parts, |parts|);
    }
  }

  lemma {:induction false} NoColumns(parts: seq<DataProto>, n: nat)
    requires AllValid(parts) && Alike(parts) && parts != [] && n <= |parts|
    requires !parts[0].hasBatch && parts[0].columns.Keys == {}
    ensures Size(parts, n) == 0
  {
    if n > 0 {
      NoColumns(parts, n - 1);
      assert SameShape(parts[0], parts[n - 1]) && Valid(parts[n - 1]);
      assert parts[n - 1].columns.Keys == {};
    }
  }

  // ----- padding

  function Remainder(a: nat, b: nat): nat
    requires b > 0
  {
    a % b
  }

  /** The first n cells of endless repetitions of s. */
  function Cyclic(s: seq<Cell>, n: nat): seq<Cell>
    requires s != []
  {
    seq(n, i requires 0 <= i < n => s[Remainder(i, |s|)])
  }

  /** p repeated to n rows: row i is row i mod p.size. */
  function Extended(p: DataProto, n: nat): DataProto
    requires Valid(p) && p.size > 0
  {
    DataProto(n, p.hasBatch, map k | k in p.columns :: Cyclic(p.columns[k], n))
  }

  lemma CyclicWhole(s: seq<Cell>)
    requires s != []
    ensures Cyclic(s, |s|) == s
  {}

  lemma CyclicMore(s: seq<Cell>, whole: nat, take: nat)
    requires s != [] && Remainder(whole, |s|) == 0 && take <= |s|
    ensures Cyclic(s, whole) + s[..take] == Cyclic(s, whole + take)
  {
    forall i | 0 <= i < take ensures Cyclic(s, whole + take)[whole + i] == s[i] {
      RemainderAdd(whole, i, |s|);
    }
  }

  lemma RemainderAdd(whole: nat, i: nat, d: nat)
    requires d > 0 && Remainder(whole, d) == 0
    ensures i < d ==> Remainder(whole + i, d) == i
    ensures Remainder(whole + d, d) == 0
  {
    var q := whole / d;
    assert whole == d * q;
    if i < d {
      RemainderUnique(whole + i, d, q, i);
    }
    RemainderUnique(whole + d, d, q + 1, 0);
  }

  lemma RemainderUnique(a: nat, d: nat, q: nat, r: nat)
    requires a == d * q + r && r < d
    ensures Remainder(a, d) == r
  {
    var q', r' := a / d, a % d;
    assert a == d * q' + r';
    if q < q' {
      Gap(d, q, q');
    } else if q' < q {
      Gap(d, q', q);
    }
  }

  lemma {:induction false} Gap(d: nat, a: nat, b: nat)
    requires a < b
    ensures d * a + d <= d * b
  {
    assert d * b == d * (b - 1) + d;
    if a < b - 1 {
      Gap(d, a, b - 1);
    }
  }

  lemma LeastPad(n: nat, d: nat)
    requires d > 0
    ensures Remainder(n, d) < d
    ensures Remainder(n, d) != 0 ==> Remainder(n + (d - Remainder(n, d)), d) == 0 && n > 0
  {
    RemainderUnique(n + (d - n % d), d, n / d + 1, 0);
  }

  /** `pad_dataproto_to_divisor`: the batch repeated cyclically up to the least multiple. */
  method PadToDivisor(p: DataProto, divisor: nat) returns (q: DataProto, pad: nat)
    requires Valid(p) && divisor > 0
    ensures pad < divisor && Remainder(p.size + pad, divisor) == 0
    ensures p.size == 0 ==> pad == 0 && q == p
    ensures p.size > 0 ==> q == Extended(p, p.size + pad)
    ensures (p.size + pad) % divisor == 0 && q.size == p.size + pad
    ensures p.size > 0 ==> RepeatsRows(p, q)
  {
    hide Remainder, Extended, Joined, Valid, Alike, RepeatsRows;
    LeastPad(p.size, divisor);
    if p.size > 0 {
      OneCopy(p);
      ExtendedRepeats(p);
    }
    if Remainder(p.size, divisor) == 0 {
      RemainderIs(p.size, divisor);
      return p, 0;
    }
    pad := divisor - Remainder(p.size, divisor);
    var parts, remaining := [p], pad;
    while remaining > 0
      invariant 0 <= remaining <= pad && parts != [] && AllValid(parts) && Alike(parts) && SameShape(parts[0], p)
      invariant Joined(parts) == Extended(p, p.size + (pad - remaining))
      invariant remaining > 0 ==> Remainder(p.size + (pad - remaining), p.size) == 0
    {
      var take := if remaining < p.size then remaining else p.size;
      AddCopy(p, parts, p.size + (pad - remaining), take);
      parts := parts + [Slice(p, 0, take)];
      remaining := remaining - take;
    }
    var joined := Concat(parts);
    RemainderIs(p.size + pad, divisor);
    q := joined.value;
  }

  lemma RemainderIs(n: nat, d: nat)
    requires d > 0
    ensures Remainder(n, d) == n % d
  {}

  /** q has the columns of p, with its rows over and over again. */
  predicate RepeatsRows(p: DataProto, q: DataProto)
    requires p.size > 0
  {
    && q.hasBatch == p.hasBatch && q.columns.Keys == p.columns.Keys
    && forall k :: k in p.columns ==>
         && |p.columns[k]| == p.size && |q.columns[k]| == q.size
         && forall i :: 0 <= i < q.size ==> q.columns[k][i] == p.columns[k][i % p.size]
  }

  lemma ExtendedRepeats(p: DataProto)
    requires Valid(p) && p.size > 0
    ensures forall n: nat :: RepeatsRows(p, Extended(p, n)) && Extended(p, n).size == n
  {
    forall n: nat ensures RepeatsRows(p, Extended(p, n)) {
      forall k | k in p.columns
        ensures |Extended(p, n).columns[k]| == n
        ensures forall i :: 0 <= i < n ==> Extended(p, n).columns[k][i] == p.columns[k][i % p.size]
      {
        CyclicCells(p.columns[k], n);
      }
    }
  }

  lemma CyclicCells(s: seq<Cell>, n: nat)
    requires s != []
    ensures |Cyclic(s, n)| == n && forall i :: 0 <= i < n ==> Cyclic(s, n)[i] == s[i % |s|]
  {}

  lemma OneCopy(p: DataProto)
    requires Valid(p) && p.size > 0
    ensures Extended(p, p.size) == p && Alike([p]) && Joined([p]) == p
    ensures Remainder(p.size, p.size) == 0
  {
    RemainderUnique(p.size, p.size, 1, 0);
    hide Remainder, Cyclic;
    forall k | k in p.columns ensures Cyclic(p.columns[k], p.size) == p.columns[k] {
      CyclicWhole(p.columns[k]);
    }
    assert Extended(p, p.size).columns == p.columns;
    forall k ensures Flat([p], 1, k) == Col(p, k) {
      assert Flat([p], 0, k) == [];
    }
    assert Size([p], 1) == Size([p], 0) + p.size;
    assert Joined([p]).columns == p.columns;
  }

  /** One more copy, or the beginning of one, after whole copies. */
  lemma AddCopy(p: DataProto, parts: seq<DataProto>, rows: nat, take: nat)
    requires Valid(p) && p.size > 0 && take <= p.size && Remainder(rows, p.size) == 0
    requires parts != [] && AllValid(parts) && Alike(parts) && SameShape(parts[0], p)
    requires Joined(parts) == Extended(p, rows)
    ensures var parts' := parts + [Slice(p, 0, take)];
      && AllValid(parts') && Alike(parts') && SameShape(parts'[0], p) && Joined(parts') == Extended(p, rows + take)
    ensures take == p.size ==> Remainder(rows + take, p.size) == 0
  {
    hide Remainder, Cyclic, Bound, Col, Slice, Sub, Flat, Size;
    SliceValid(p, 0, take);
    SliceSize(p, 0, take);
    var parts' := parts + [Slice(p, 0, take)];
    assert forall i :: 0 <= i < |parts| ==> parts'[i] == parts[i];
    assert Alike(parts') by {
      forall i | 0 <= i < |parts'| ensures SameShape(parts'[0], parts'[i]) {
        assert i < |parts| ==> SameShape(parts[0], parts[i]);
      }
    }
    hide Alike;
    forall k | k in p.columns ensures Flat(parts', |parts'|, k) == Cyclic(p.columns[k], rows + take) {
      AddColumn(p, parts, rows, take, k);
    }
    AddRows(parts, Slice(p, 0, take));
    RemainderAdd(rows, take, p.size);
    SameTable(Joined(parts').columns, Extended(p, rows + take).columns);
  }

  lemma AddRows(parts: seq<DataProto>, q: DataProto)
    ensures Size(parts + [q], |parts| + 1) == Size(parts, |parts|) + q.size
  {
    FlatPrefix(parts, [q], |parts|, Tensor(""));
  }

  lemma AddColumn(p: DataProto, parts: seq<DataProto>, rows: nat, take: nat, k: Column)
    requires Valid(p) && p.size > 0 && take <= p.size && Remainder(rows, p.size) == 0 && k in p.columns
    requires parts != [] && SameShape(parts[0], p) && Joined(parts) == Extended(p, rows)
    ensures Flat(parts + [Slice(p, 0, take)], |parts| + 1, k) == Cyclic(p.columns[k], rows + take)
  {
    SliceColumn(p, 0, take, k);
    hide Remainder, Cyclic, Bound, Col, Slice, Sub;
    FlatPrefix(parts, [Slice(p, 0, take)], |parts|, k);
    assert Joined(parts).columns[k] == Flat(parts, |parts|, k);
    assert Extended(p, rows).columns[k] == Cyclic(p.columns[k], rows);
    ColumnLength(p, k);
    CyclicMore(p.columns[k], rows, take);
  }

  lemma ColumnLength(p: DataProto, k: Column)
    requires Valid(p) && k in p.columns
    ensures |p.columns[k]| == p.size
  {}

  /** `unpad_dataproto` */
  function Unpadded(q: DataProto, pad: nat): DataProto {
    if pad != 0 then Slice(q, 0, -(pad as int)) else q
  }

  /** Unpadding undoes padding. */
  lemma PadRoundTrip(p: DataProto, pad: nat)
    requires Valid(p) && p.size > 0
    ensures Valid(Extended(p, p.size + pad))
    ensures Unpadded(Extended(p, p.size + pad), pad) == p
  {
    hide Cyclic, Sub;
    forall k | k in p.columns ensures Col(Unpadded(Extended(p, p.size + pad), pad), k) == p.columns[k] {
      UnpadColumn(p.columns[k], pad);
    }
    assert Valid(Extended(p, p.size + pad)) by {
      CyclicLengths(p, p.size + pad);
    }
    SameTable(Unpadded(Extended(p, p.size + pad), pad).columns, p.columns);
  }

  lemma CyclicLengths(p: DataProto, n: nat)
    requires Valid(p) && p.size > 0
    ensures forall k :: k in p.columns ==> |Cyclic(p.columns[k], n)| == n
  {}

  lemma UnpadColumn(s: seq<Cell>, pad: nat)
    requires s != []
    ensures |Cyclic(s, |s| + pad)| == |s| + pad
    ensures (if pad != 0 then Sub(Cyclic(s, |s| + pad), 0, -(pad as int)) else Cyclic(s, |s| + pad)) == s
  {
    assert Cyclic(s, |s| + pad)[..|s|] == s;
  }

  // ----- cutting up

  /** The pieces between consecutive bounds. */
  function Cut(p: DataProto, bounds: seq<nat>): seq<DataProto>
    requires bounds != []
  {
    seq(|bounds| - 1, i requires 0 <= i < |bounds| - 1 => Slice(p, bounds[i], bounds[i + 1]))
  }

  predicate Bounds(bounds: seq<nat>, n: nat) {
    && bounds != [] && bounds[0] == 0 && bounds[|bounds| - 1] == n
    && forall i :: 0 <= i < |bounds| - 1 ==> bounds[i] <= bounds[i + 1]
  }

  lemma {:induction false} BoundsRise(bounds: seq<nat>, n: nat, i: nat, j: nat)
    requires Bounds(bounds, n) && i <= j < |bounds|
    ensures bounds[i] <= bounds[j]
  {
    if i < j {
      BoundsRise(bounds, n, i, j - 1);
    }
  }

  lemma CutAppend(p: DataProto, bounds: seq<nat>, b: nat)
    requires bounds != [] && Bounds(bounds, bounds[|bounds| - 1]) && bounds[|bounds| - 1] <= b
    ensures Bounds(bounds + [b], b) && Cut(p, bounds + [b]) == Cut(p, bounds) + [Slice(p, bounds[|bounds| - 1], b)]
  {}

  /** Concatenating the pieces of a batch gives the batch back. */
  lemma CutJoins(p: DataProto, bounds: seq<nat>)
    requires Valid(p) && Bounds(bounds, p.size) && |bounds| > 1
    ensures Alike(Cut(p, bounds)) && Joined(Cut(p, bounds)) == p
  {
    var parts := Cut(p, bounds);
    forall i | 0 <= i < |parts| ensures SameShape(p, parts[i]) {
      SliceValid(p, bounds[i], bounds[i + 1]);
    }
    hide Slice, Col;
    forall k | k in p.columns ensures Flat(parts, |parts|, k) == p.columns[k] {
      CutPrefix(p, bounds, |parts|, k);
      ColumnLength(p, k);
      assert p.columns[k][..p.size] == p.columns[k];
    }
    CutSize(p, bounds, |parts|);
    hide Flat, Size;
    SameTable(Joined(parts).columns, p.columns);
  }

  lemma {:induction false} CutPrefix(p: DataProto, bounds: seq<nat>, i: nat, k: Column)
    requires Valid(p) && Bounds(bounds, p.size) && i < |bounds| && k in p.columns
    ensures bounds[i] <= p.size == |p.columns[k]| && Flat(Cut(p, bounds), i, k) == p.columns[k][..bounds[i]]
  {
    hide Slice, Valid, Col, Bounds;
    ColumnLength(p, k);
    BoundsEnds(bounds, p.size);
    BoundsRise(bounds, p.size, i, |bounds| - 1);
    if i > 0 {
      BoundsRise(bounds, p.size, i - 1, i);
      CutPrefix(p, bounds, i - 1, k);
      SliceColumn(p, bounds[i - 1], bounds[i], k);
      assert Cut(p, bounds)[i - 1] == Slice(p, bounds[i - 1], bounds[i]);
      TakeJoin(p.columns[k], bounds[i - 1], bounds[i]);
    }
  }

  lemma BoundsEnds(bounds: seq<nat>, n: nat)
    requires Bounds(bounds, n)
    ensures bounds[0] == 0 && bounds[|bounds| - 1] == n
  {}

  lemma TakeJoin(s: seq<Cell>, a: nat, b: nat)
    requires a <= b <= |s|
    ensures s[..a] + s[a..b] == s[..b]
  {}

  lemma {:induction false} CutSize(p: DataProto, bounds: seq<nat>, i: nat)
    requires Bounds(bounds, p.size) && i < |bounds|
    ensures bounds[i] <= p.size && Size(Cut(p, bounds), i) == bounds[i]
  {
    BoundsRise(bounds, p.size, i, |bounds| - 1);
    hide Slice;
    if i > 0 {
      CutSize(p, bounds, i - 1);
      SliceSize(p, bounds[i - 1], bounds[i]);
    }
  }

  /** `split`: pieces of `splitSize` rows, the last one shorter. */
  method Split(p: DataProto, splitSize: nat) returns (parts: seq<DataProto>)
    requires Valid(p) && splitSize > 0
    ensures p.size == 0 ==> parts == []
    ensures p.size > 0 ==> parts != [] && Alike(parts) && Joined(parts) == p
    ensures forall i :: 0 <= i < |parts| - 1 ==> parts[i].size == splitSize
    ensures parts != [] ==> 0 < parts[|parts| - 1].size <= splitSize
  {
    hide Valid, Joined, Alike, Cut, Slice;
    NoCut(p);
    parts := [];
    var i := 0;
    ghost var bounds: seq<nat> := [0];
    while i < p.size
      invariant Bounds(bounds, Bound(i, p.size)) && parts == Cut(p, bounds) && |bounds| == |parts| + 1
      invariant (i == 0 <==> parts == []) && (p.size == 0 ==> i == 0)
      invariant forall j :: 0 <= j < |parts| ==>
        parts[j].size == splitSize || (i >= p.size && j == |parts| - 1 && 0 < parts[j].size <= splitSize)
      decreases p.size - i
    {
      var part := Slice(p, i, i + splitSize);
      SliceClamped(p, i, i + splitSize);
      CutAppend(p, bounds, Bound(i + splitSize, p.size));
      SliceSize(p, i, Bound(i + splitSize, p.size));
      parts := parts + [part];
      bounds := bounds + [Bound(i + splitSize, p.size)];
      i := i + splitSize;
    }
    if p.size > 0 {
      CutJoins(p, bounds);
    }
  }

  lemma NoCut(p: DataProto)
    ensures Bounds([0], 0) && Cut(p, [0]) == []
  {}

  lemma SliceClamped(p: DataProto, a: nat, b: nat)
    requires Valid(p)
    ensures Slice(p, a, b) == Slice(p, Bound(a, p.size), Bound(b, p.size))
  {}

  // ----- chunking: two libraries cut the two kinds of columns

  /** Rows a to b - 1 of the tensor columns. */
  function TensorsOf(p: DataProto, a: nat, b: nat): Table {
    map k | k in p.columns && k.Tensor? :: Sub(p.columns[k], a, b)
  }

  /** Rows a to b - 1 of the other columns. */
  function OthersOf(p: DataProto, a: nat, b: nat): Table {
    map k | k in p.columns && k.NonTensor? :: Sub(p.columns[k], a, b)
  }

  lemma PieceIsSlice(p: DataProto, a: nat, b: nat)
    requires a <= b <= p.size
    ensures DataProto(b - a, p.hasBatch, TensorsOf(p, a, b) + OthersOf(p, a, b)) == Slice(p, a, b)
  {
    SliceSize(p, a, b);
    SameTable(TensorsOf(p, a, b) + OthersOf(p, a, b), Slice(p, a, b).columns);
  }

  function Quotient(a: nat, b: nat): nat
    requires b > 0
  {
    a / b
  }

  function CeilDiv(a: nat, b: nat): nat
    requires b > 0
  {
    Quotient(a + b - 1, b)
  }

  /** `batch.chunk(chunks)`: pieces of ceil(size / chunks) rows until none are left, which may be
      fewer than asked for. */
  method ChunkTensors(p: DataProto, chunks: nat) returns (pieces: seq<Table>, sizes: seq<nat>, ghost bounds: seq<nat>)
    requires chunks > 0 && p.size > 0
    ensures Bounds(bounds, p.size) && |bounds| == |pieces| + 1 == |sizes| + 1
    ensures forall i :: 0 <= i < |pieces| ==>
      pieces[i] == TensorsOf(p, bounds[i], bounds[i + 1]) && bounds[i + 1] == bounds[i] + sizes[i]
    ensures CeilDiv(p.size, chunks) > 0 && |pieces| == CeilDiv(p.size, CeilDiv(p.size, chunks))
    ensures forall i :: 0 <= i < |pieces| ==> bounds[i] == Product(CeilDiv(p.size, chunks), i)
  {
    hide CeilDiv, Bounds, TensorsUpTo, SplitUpTo;
    var split := CeilDiv(p.size, chunks);
    CeilDivBounds(p.size, chunks);
    pieces, sizes, bounds := [], [], [0];
    var start: nat := 0;
    StartBounds();
    NothingSplit(p, split);
    while start < p.size
      invariant start <= p.size && Bounds(bounds, start)
      invariant TensorsUpTo(p, pieces, sizes, bounds) && SplitUpTo(split, bounds, start, p.size)
      decreases p.size - start
    {
      var end := if start + split < p.size then start + split else p.size;
      BoundsNext(bounds, start, end);
      NextPiece(p, split, pieces, sizes, bounds, start);
      pieces := pieces + [TensorsOf(p, start, end)];
      sizes := sizes + [end - start];
      bounds := bounds + [end];
      start := end;
    }
    AllPieces(p, split, pieces, sizes, bounds);
  }

  /** Pieces, sizes and bounds belong together. */
  predicate TensorsUpTo(p: DataProto, pieces: seq<Table>, sizes: seq<nat>, bounds: seq<nat>) {
    && |bounds| == |pieces| + 1 == |sizes| + 1
    && forall i :: 0 <= i < |pieces| ==>
         pieces[i] == TensorsOf(p, bounds[i], bounds[i + 1]) && bounds[i + 1] == bounds[i] + sizes[i]
  }

  /** The bounds up to `start` are the multiples of `split`, the last one cut off at n. */
  predicate SplitUpTo(split: nat, bounds: seq<nat>, start: nat, n: nat) {
    var k := |bounds| - 1;
    && bounds != [] && bounds[k] == start
    && (forall i :: 0 <= i < k ==> bounds[i] == Product(split, i))
    && (start < n ==> start == Product(split, k))
    && (start == n ==> k > 0 && Product(split, k - 1) < n <= Product(split, k))
  }

  lemma NothingSplit(p: DataProto, split: nat)
    requires p.size > 0
    ensures TensorsUpTo(p, [], [], [0]) && SplitUpTo(split, [0], 0, p.size)
  {
    ProductNext(split, 0);
  }

  lemma NextPiece(p: DataProto, split: nat, pieces: seq<Table>, sizes: seq<nat>, bounds: seq<nat>, start: nat)
    requires split > 0 && start < p.size
    requires TensorsUpTo(p, pieces, sizes, bounds) && SplitUpTo(split, bounds, start, p.size)
    ensures var end := if start + split < p.size then start + split else p.size;
      && TensorsUpTo(p, pieces + [TensorsOf(p, start, end)], sizes + [end - start], bounds + [end])
      && SplitUpTo(split, bounds + [end], end, p.size)
  {
    ProductNext(split, |pieces|);
    hide Product, TensorsOf;
  }

  lemma AllPieces(p: DataProto, split: nat, pieces: seq<Table>, sizes: seq<nat>, bounds: seq<nat>)
    requires split > 0 && TensorsUpTo(p, pieces, sizes, bounds) && SplitUpTo(split, bounds, p.size, p.size)
    ensures |bounds| == |pieces| + 1 == |sizes| + 1 && |pieces| == CeilDiv(p.size, split)
    ensures forall i :: 0 <= i < |pieces| ==>
      pieces[i] == TensorsOf(p, bounds[i], bounds[i + 1]) && bounds[i + 1] == bounds[i] + sizes[i]
    ensures forall i :: 0 <= i < |pieces| ==> bounds[i] == Product(split, i)
  {
    hide Product, TensorsOf;
    CeilDivIs(p.size, split, |pieces|);
  }

  lemma StartBounds()
    ensures Bounds([0], 0)
  {}

  lemma BoundsNext(bounds: seq<nat>, start: nat, end: nat)
    requires Bounds(bounds, start) && start <= end
    ensures Bounds(bounds + [end], end)
  {}

  lemma ProductNext(a: nat, i: nat)
    ensures Product(a, i + 1) == Product(a, i) + a && Product(a, 0) == 0
  {}

  /** The quotient rounded up is the only q with d * (q - 1) < n <= d * q. */
  lemma CeilDivIs(n: nat, d: nat, q: nat)
    requires d > 0 && q > 0 && Product(d, q - 1) < n <= Product(d, q)
    ensures CeilDiv(n, d) == q
  {
    hide Product, Quotient;
    ProductNext(d, q - 1);
    QuotientIs(n + d - 1, d, q);
  }

  lemma QuotientIs(a: nat, d: nat, q: nat)
    requires d > 0 && Product(d, q) <= a < Product(d, q) + d
    ensures Quotient(a, d) == q
  {
    DivMod(a, d);
    hide Product, Quotient, Remainder;
    var r := Quotient(a, d);
    if q < r {
      ProductGap(d, q, r);
    } else if r < q {
      ProductGap(d, r, q);
    }
  }

  lemma ProductGap(d: nat, a: nat, b: nat)
    requires a < b
    ensures Product(d, a) + d <= Product(d, b)
  {
    Gap(d, a, b);
  }

  lemma DivMod(a: nat, d: nat)
    requires d > 0
    ensures a == Product(d, Quotient(a, d)) + Remainder(a, d) && Remainder(a, d) < d
  {}

  lemma CeilDivBounds(n: nat, d: nat)
    requires d > 0 && n > 0
    ensures var q := CeilDiv(n, d); q > 0 && Product(d, q - 1) < n <= Product(d, q)
  {
    DivMod(n + d - 1, d);
    hide Product, Quotient, Remainder;
    var q := CeilDiv(n, d);
    ProductNext(d, 0);
    if q > 0 {
      ProductNext(d, q - 1);
    }
  }

  /** `np.cumsum` */
  method CumSum(sizes: seq<nat>, ghost bounds: seq<nat>) returns (sums: seq<nat>)
    requires |bounds| == |sizes| + 1 && bounds[0] == 0
    requires forall i :: 0 <= i < |sizes| ==> bounds[i + 1] == bounds[i] + sizes[i]
    ensures sums == bounds[1..]
  {
    sums := [];
    var total := 0;
    for i := 0 to |sizes|
      invariant total == bounds[i] && sums == bounds[1..i + 1]
    {
      total := total + sizes[i];
      sums := sums + [total];
    }
  }

  /** `np.array_split(column, indices)` on every other column. */
  method SplitOthersAt(p: DataProto, indices: seq<nat>) returns (pieces: seq<Table>)
    ensures |pieces| == |indices| + 1
    ensures forall i :: 0 <= i < |pieces| ==>
      pieces[i] == OthersOf(p, ([0] + indices + [p.size])[i], ([0] + indices + [p.size])[i + 1])
  {
    var bounds := [0] + indices + [p.size];
    pieces := [];
    for i := 0 to |indices| + 1
      invariant |pieces| == i && forall j :: 0 <= j < i ==> pieces[j] == OthersOf(p, bounds[j], bounds[j + 1])
    {
      pieces := pieces + [OthersOf(p, bounds[i], bounds[i + 1])];
    }
  }

  /** The size of section i when `np.array_split(column, sections)` spreads n rows. */
  function Section(n: nat, sections: nat, i: nat): nat
    requires sections > 0
  {
    Quotient(n, sections) + if i < Remainder(n, sections) then 1 else 0
  }

  /** `np.array_split(column, sections)` on every other column: the first sections take one row
      more until the remainder is used up. */
  method SplitOthersInto(p: DataProto, sections: nat) returns (pieces: seq<Table>, ghost bounds: seq<nat>)
    requires sections > 0
    ensures Bounds(bounds, p.size) && |pieces| == sections == |bounds| - 1
    ensures forall i :: 0 <= i <= sections ==> bounds[i] == SectionStart(p.size, sections, i)
    ensures SectionStart(p.size, sections, sections) == p.size
    ensures forall i :: 0 <= i < |pieces| ==>
      pieces[i] == OthersOf(p, SectionStart(p.size, sections, i), SectionStart(p.size, sections, i + 1))
  {
    hide Bounds, OthersOf, Section, SectionStart;
    pieces, bounds := [], [0];
    var start: nat := 0;
    StartBounds();
    SectionNext(p.size, sections, 0);
    for i := 0 to sections
      invariant Bounds(bounds, start) && |pieces| == i == |bounds| - 1 && bounds[i] == start
      invariant forall j :: 0 <= j <= i ==> bounds[j] == SectionStart(p.size, sections, j)
      invariant forall j :: 0 <= j < i ==>
        pieces[j] == OthersOf(p, SectionStart(p.size, sections, j), SectionStart(p.size, sections, j + 1))
    {
      SectionNext(p.size, sections, i);
      var end := start + Section(p.size, sections, i);
      BoundsNext(bounds, start, end);
      pieces := pieces + [OthersOf(p, start, end)];
      bounds := bounds + [end];
      start := end;
    }
    SectionsSum(p.size, sections, sections);
  }

  function SectionStart(n: nat, sections: nat, i: nat): nat
    requires sections > 0
  {
    if i == 0 then 0 else SectionStart(n, sections, i - 1) + Section(n, sections, i - 1)
  }

  lemma SectionNext(n: nat, sections: nat, i: nat)
    requires sections > 0
    ensures SectionStart(n, sections, i + 1) == SectionStart(n, sections, i) + Section(n, sections, i)
    ensures SectionStart(n, sections, 0) == 0
  {}

  /** The sections take all rows. */
  lemma {:induction false} SectionsSum(n: nat, sections: nat, i: nat)
    requires sections > 0 && i <= sections
    ensures SectionStart(n, sections, i) ==
      Product(Quotient(n, sections), i) + if i < Remainder(n, sections) then i else Remainder(n, sections)
    ensures i == sections ==> SectionStart(n, sections, i) == n
  {
    DivMod(n, sections);
    assert Product(sections, Quotient(n, sections)) == Product(Quotient(n, sections), sections);
    hide Product, Quotient, Remainder;
    ProductNext(Quotient(n, sections), if i > 0 then i - 1 else 0);
    if i > 0 {
      SectionsSum(n, sections, i - 1);
    }
  }

  /** Equal chunks are what the tensor batch gives when the length divides evenly. */
  lemma EvenChunks(n: nat, chunks: nat)
    requires chunks > 0 && n > 0 && Remainder(n, chunks) == 0
    ensures var q := Quotient(n, chunks);
      q > 0 && CeilDiv(n, chunks) == q && CeilDiv(n, q) == chunks && n == Product(q, chunks)
  {
    var q := Quotient(n, chunks);
    DivMod(n, chunks);
    assert Product(chunks, q) == Product(q, chunks);
    hide Product, Quotient, Remainder, CeilDiv;
    ProductNext(chunks, 0);
    if q > 0 {
      ProductNext(chunks, q - 1);
      ProductNext(q, chunks - 1);
      CeilDivIs(n, chunks, q);
      CeilDivIs(n, q, chunks);
    }
  }

  /** The tensor batch never gives more pieces than asked for. */
  lemma PiecesAtMost(n: nat, chunks: nat)
    requires chunks > 0 && n > 0
    ensures CeilDiv(n, chunks) > 0 && CeilDiv(n, CeilDiv(n, chunks)) <= chunks
  {
    var split := CeilDiv(n, chunks);
    assert Product(chunks, split) == Product(split, chunks);
    hide CeilDiv, Product;
    CeilDivBounds(n, chunks);
    CeilDivBounds(n, split);
    var pieces := CeilDiv(n, split);
    if pieces - 1 > chunks {
      ProductGap(split, chunks, pieces - 1);
    }
  }

  lemma NoTensors(p: DataProto, a: nat, b: nat)
    requires Valid(p) && !p.hasBatch
    ensures TensorsOf(p, a, b) == map[]
  {}

  lemma PieceLength(p: DataProto, a: nat, b: nat)
    requires Valid(p) && !p.hasBatch && a <= b <= p.size
    ensures forall k :: k in OthersOf(p, a, b) ==> |OthersOf(p, a, b)[k]| == b - a
    ensures OthersOf(p, a, b) == map[] ==> b - a == 0
  {
    if p.columns != map[] {
      var k :| k in p.columns;
      assert k in OthersOf(p, a, b);
    }
  }

  /** The length of a piece: its tensor batch's, or else that of any other column. */
  method PieceSize(p: DataProto, others: Table, batch: nat, ghost a: nat, ghost b: nat) returns (size: nat)
    requires Valid(p) && a <= b <= p.size && others == OthersOf(p, a, b) && (p.hasBatch ==> b == a + batch)
    ensures b == a + size
    ensures DataProto(size, p.hasBatch, TensorsOf(p, a, b) + others) == Slice(p, a, b)
  {
    hide Valid, Slice, TensorsOf, OthersOf;
    PieceIsSlice(p, a, b);
    if p.hasBatch {
      size := batch;
    } else {
      size := ColumnsLength(others);
      PieceLength(p, a, b);
    }
  }

  /** The output loop of `chunk`. */
  method Assemble(p: DataProto, tensors: seq<Table>, others: seq<Table>, sizes: seq<nat>, ghost bounds: seq<nat>)
    returns (output: seq<DataProto>)
    requires Valid(p) && Bounds(bounds, p.size) && 0 < |tensors| == |others| == |bounds| - 1
    requires forall i :: 0 <= i < |tensors| ==>
      tensors[i] == TensorsOf(p, bounds[i], bounds[i + 1]) && others[i] == OthersOf(p, bounds[i], bounds[i + 1])
    requires p.hasBatch ==>
      |sizes| == |tensors| && forall i :: 0 <= i < |sizes| ==> bounds[i + 1] == bounds[i] + sizes[i]
    ensures output == Cut(p, bounds) && Alike(output) && Joined(output) == p && |output| == |tensors|
    ensures forall i :: 0 <= i < |output| ==> bounds[i + 1] == bounds[i] + output[i].size
  {
    hide Valid, Joined, Alike, Cut, Slice, Bounds, TensorsOf, OthersOf;
    BoundsEnds(bounds, p.size);
    output := [];
    for i := 0 to |tensors|
      invariant |output| == i && forall j :: 0 <= j < i ==> output[j] == Slice(p, bounds[j], bounds[j + 1])
      invariant forall j :: 0 <= j < i ==> bounds[j + 1] == bounds[j] + output[j].size
    {
      BoundsRise(bounds, p.size, i, i + 1);
      BoundsRise(bounds, p.size, i + 1, |bounds| - 1);
      var size := PieceSize(p, others[i], if p.hasBatch then sizes[i] else 0, bounds[i], bounds[i + 1]);
      output := output + [DataProto(size, p.hasBatch, tensors[i] + others[i])];
    }
    CutIs(p, bounds, output);
    CutJoins(p, bounds);
  }

  lemma CutIs(p: DataProto, bounds: seq<nat>, parts: seq<DataProto>)
    requires bounds != [] && |parts| == |bounds| - 1
    requires forall j :: 0 <= j < |parts| ==> parts[j] == Slice(p, bounds[j], bounds[j + 1])
    ensures parts == Cut(p, bounds)
  {}

  predicate HasOthers(p: DataProto) { exists k :: k in p.columns && k.NonTensor? }

  /** Without a tensor batch any number of chunks can be cut; with one, it must give as many. */
  predicate Divisible(p: DataProto, chunks: nat)
    requires chunks > 0
  {
    p.hasBatch ==> CeilDiv(p.size, chunks) > 0 && CeilDiv(p.size, CeilDiv(p.size, chunks)) == chunks
  }

  /** `chunk`. The tensor batch is cut first; the other columns are cut at the running sums of its
      sizes, or by count when there is no tensor batch. When it succeeds, both kinds of columns
      have been cut at the same rows. */
  method Chunk(p: DataProto, chunks: nat, padding: bool) returns (r: Result<seq<DataProto>, Error>)
    requires Valid(p) && chunks > 0 && (p.hasBatch ==> p.size > 0)
    // without auto padding an uneven number is refused, and an even one always succeeds
    ensures !padding && Remainder(p.size, chunks) != 0 ==> r == Err(AssertionError)
    ensures Remainder(p.size, chunks) == 0 ==>
      r.Ok? && forall i :: 0 <= i < |r.value| ==> r.value[i].size == Quotient(p.size, chunks)
    // with auto padding the tensor batch decides
    ensures padding ==> (r.Ok? <==> Divisible(p, chunks))
    ensures padding && !r.Ok? ==> r == if HasOthers(p) then Err(AssertionError) else Err(IndexError)
    // the pieces are those of one cut through all columns
    ensures r.Ok? ==> |r.value| == chunks && Alike(r.value) && Joined(r.value) == p
    ensures r.Ok? ==> exists bounds :: Bounds(bounds, p.size) && r.value == Cut(p, bounds)
    // with a tensor batch they are of the ceiling size but for a shorter last one, and otherwise the
    // first ones have a row more until the remainder is used up
    ensures r.Ok? && p.hasBatch ==> CeilSizes(p.size, chunks, r.value)
    ensures r.Ok? && !p.hasBatch ==> forall i :: 0 <= i < |r.value| ==>
      r.value[i].size == p.size / chunks + if i < p.size % chunks then 1 else 0
  {
    hide Valid, Joined, Alike, Remainder, Product, Quotient, CeilDiv, CeilSizes;
    hide Cut, Slice, Bounds, TensorsOf, OthersOf, HasOthers;
    if !padding && Remainder(p.size, chunks) != 0 {
      return Err(AssertionError);
    }
    if p.hasBatch {
      r := ChunkBatch(p, chunks);
    } else {
      r := ChunkOthers(p, chunks);
    }
  }

  /** `chunk` without a tensor batch, after the check for even chunks. */
  method ChunkOthers(p: DataProto, chunks: nat) returns (r: Result<seq<DataProto>, Error>)
    requires Valid(p) && chunks > 0 && !p.hasBatch
    ensures r.Ok? && |r.value| == chunks && Alike(r.value) && Joined(r.value) == p
    ensures Remainder(p.size, chunks) == 0 ==>
      forall i :: 0 <= i < |r.value| ==> r.value[i].size == Quotient(p.size, chunks)
    ensures exists bounds :: Bounds(bounds, p.size) && r.value == Cut(p, bounds)
    ensures forall i :: 0 <= i < |r.value| ==>
      r.value[i].size == p.size / chunks + if i < p.size % chunks then 1 else 0
  {
    hide Valid, Joined, Alike, Remainder, Product, Quotient, Section;
    hide Cut, Slice, Bounds, TensorsOf, OthersOf;
    var others, bounds := SplitOthersInto(p, chunks);
    forall i | 0 <= i < chunks ensures TensorsOf(p, bounds[i], bounds[i + 1]) == map[] {
      NoTensors(p, bounds[i], bounds[i + 1]);
    }
    var output := Assemble(p, seq(chunks, _ => map[]), others, [], bounds);
    forall i | 0 <= i < chunks ensures output[i].size == Section(p.size, chunks, i) {
      assert bounds[i + 1] == bounds[i] + output[i].size;
      SectionNext(p.size, chunks, i);
    }
    SectionIs(p.size, chunks);
    r := Ok(output);
  }

  lemma SectionIs(n: nat, sections: nat)
    requires sections > 0
    ensures forall i: nat :: Section(n, sections, i) == n / sections + if i < n % sections then 1 else 0
    ensures Remainder(n, sections) == 0 ==> forall i: nat :: Section(n, sections, i) == Quotient(n, sections)
  {}

  /** All pieces but the last have the size rounded up, and that one has what is left. */
  predicate CeilSizes(n: nat, chunks: nat, parts: seq<DataProto>)
    requires chunks > 0
  {
    && (forall i :: 0 <= i < |parts| - 1 ==> parts[i].size == (n + chunks - 1) / chunks)
    && (parts != [] ==> 0 < parts[|parts| - 1].size <= (n + chunks - 1) / chunks)
  }

  lemma CeilSizesHold(p: DataProto, chunks: nat, parts: seq<DataProto>, bounds: seq<nat>)
    requires chunks > 0 && p.size > 0 && |bounds| == |parts| + 1 && Bounds(bounds, p.size)
    requires CeilDiv(p.size, chunks) > 0 && |parts| == CeilDiv(p.size, CeilDiv(p.size, chunks))
    requires forall i :: 0 <= i < |parts| ==> bounds[i] == Product(CeilDiv(p.size, chunks), i)
    requires forall i :: 0 <= i < |parts| ==> bounds[i + 1] == bounds[i] + parts[i].size
    ensures CeilSizes(p.size, chunks, parts)
  {
    var split := CeilDiv(p.size, chunks);
    assert split == (p.size + chunks - 1) / chunks;
    CeilDivBounds(p.size, chunks);
    CeilDivBounds(p.size, split);
    hide CeilDiv, Product;
    var m := |parts| - 1;
    BoundsEnds(bounds, p.size);
    forall i | 0 <= i < m ensures parts[i].size == split {
      ProductNext(split, i);
      assert bounds[i + 1] == Product(split, i + 1);
    }
    ProductNext(split, m);
  }

  /** `chunk` with a tensor batch, after the check for even chunks. */
  method ChunkBatch(p: DataProto, chunks: nat) returns (r: Result<seq<DataProto>, Error>)
    requires Valid(p) && chunks > 0 && p.hasBatch && p.size > 0
    ensures r.Ok? <==> Divisible(p, chunks)
    ensures !r.Ok? ==> r == if HasOthers(p) then Err(AssertionError) else Err(IndexError)
    ensures Remainder(p.size, chunks) == 0 ==>
      r.Ok? && forall i :: 0 <= i < |r.value| ==> r.value[i].size == Quotient(p.size, chunks)
    ensures r.Ok? ==> |r.value| == chunks && Alike(r.value) && Joined(r.value) == p
    ensures r.Ok? ==> exists bounds :: Bounds(bounds, p.size) && r.value == Cut(p, bounds)
    ensures r.Ok? ==> CeilSizes(p.size, chunks, r.value)
  {
    hide Valid, Joined, Alike, Remainder, Product, Quotient, CeilDiv, CeilSizes;
    hide Cut, Slice, Bounds, TensorsOf, OthersOf, HasOthers;
    var tensors, sizes, bounds := ChunkTensors(p, chunks);
    PiecesAtMost(p.size, chunks);
    if Remainder(p.size, chunks) == 0 {
      EvenChunks(p.size, chunks);
    }
    BoundsEnds(bounds, p.size);
    SomePiece(bounds, p.size);
    var sums := CumSum(sizes, bounds);
    var indices := sums[..|sums| - 1];
    var others := SplitOthersAt(p, indices);
    assert [0] + indices + [p.size] == bounds;
    if HasOthers(p) && |others| != chunks {
      return Err(AssertionError);
    }
    if |tensors| < chunks {
      return Err(IndexError);
    }
    var output := Assemble(p, tensors, others, sizes, bounds);
    CeilSizesHold(p, chunks, output, bounds);
    if Remainder(p.size, chunks) == 0 {
      forall i | 0 <= i < chunks ensures output[i].size == Quotient(p.size, chunks) {
        ProductNext(Quotient(p.size, chunks), i);
      }
    }
    r := Ok(output);
  }

  lemma SomePiece(bounds: seq<nat>, n: nat)
    requires Bounds(bounds, n) && n > 0
    ensures |bounds| > 1
  {}
}
