/** Taking apart a fused query-key-value weight: Megatron stores the rows of one query group after
  another, each as the group's queries, key and value; the merged model wants all queries, all
  keys and all values together. */
module QkvSplit {
  import opened Wrappers
  import opened Arithmetic

  datatype Error = AssertionError | RuntimeError

  datatype Parts<T> = Parts(q: seq<T>, k: seq<T>, v: seq<T>)

  function Ratio(a: nat, b: nat): nat
    requires b > 0
  {
    a / b
  }

  predicate Divides(a: nat, b: nat)
    requires a > 0
  {
    b % a == 0
  }

  /** `n` groups of qs queries and ks keys and values. */
  predicate Shaped<T>(p: Parts<T>, n: nat, qs: nat, ks: nat) {
    |p.q| == Times(n, qs) && |p.k| == Times(n, ks) && |p.v| == Times(n, ks)
  }

  lemma TimesStep(n: nat, a: nat)
    ensures Times(n + 1, a) == Times(n, a) + a && Times(0, a) == 0 && Times(n, a) >= 0
  {}

  /** The fused rows, group by group: the inverse of the split. */
  function Fuse<T>(p: Parts<T>, n: nat, qs: nat, ks: nat): (rows: seq<T>)
    requires Shaped(p, n, qs, ks)
    decreases n
  {
    if n == 0 then [] else
      TimesStep(n - 1, qs); TimesStep(n - 1, ks);
      var (a, b) := (Times(n - 1, qs), Times(n - 1, ks));
      Fuse(Parts(p.q[..a], p.k[..b], p.v[..b]), n - 1, qs, ks) + p.q[a..] + p.k[b..] + p.v[b..]
  }

  lemma FuseNext<T>(p: Parts<T>, n: nat, qs: nat, ks: nat, chunk: seq<T>)
    requires Shaped(p, n, qs, ks) && |chunk| == qs + ks + ks
    ensures var p' := Parts(p.q + chunk[..qs], p.k + chunk[qs..qs + ks], p.v + chunk[qs + ks..]);
      Shaped(p', n + 1, qs, ks) && Fuse(p', n + 1, qs, ks) == Fuse(p, n, qs, ks) + chunk
  {}

  /** The fused rows determine the parts. */
  lemma {:induction false} FuseInjective<T>(p: Parts<T>, r: Parts<T>, n: nat, qs: nat, ks: nat)
    requires Shaped(p, n, qs, ks) && Shaped(r, n, qs, ks) && Fuse(p, n, qs, ks) == Fuse(r, n, qs, ks)
    ensures p == r
    decreases n
  {
    hide Times;
    if n == 0 {
      TimesStep(0, qs);
      TimesStep(0, ks);
    } else {
      TimesStep(n - 1, qs);
      TimesStep(n - 1, ks);
      var (a, b) := (Times(n - 1, qs), Times(n - 1, ks));
      var (p', r') := (Parts(p.q[..a], p.k[..b], p.v[..b]), Parts(r.q[..a], r.k[..b], r.v[..b]));
      var (s, t) := (Fuse(p', n - 1, qs, ks), Fuse(r', n - 1, qs, ks));
      FuseLength(p', n - 1, qs, ks);
      FuseLength(r', n - 1, qs, ks);
      Tails(s, p.q[a..], p.k[b..], p.v[b..], t, r.q[a..], r.k[b..], r.v[b..]);
      FuseInjective(p', r', n - 1, qs, ks);
      assert p.q == p'.q + p.q[a..] && p.k == p'.k + p.k[b..] && p.v == p'.v + p.v[b..];
      assert r.q == r'.q + r.q[a..] && r.k == r'.k + r.k[b..] && r.v == r'.v + r.v[b..];
    }
  }

  lemma Tails<T>(s: seq<T>, a: seq<T>, b: seq<T>, c: seq<T>, s': seq<T>, a': seq<T>, b': seq<T>, c': seq<T>)
    requires s + a + b + c == s' + a' + b' + c' && |s| == |s'| && |a| == |a'| && |b| == |b'|
    ensures s == s' && a == a' && b == b' && c == c'
  {
    var (x, y) := (s + a + b + c, s' + a' + b' + c');
    var (i, j) := (|s| + |a|, |s| + |a| + |b|);
    assert x[..|s|] == s && x[|s|..i] == a && x[i..j] == b && x[j..] == c;
    assert y[..|s|] == s' && y[|s|..i] == a' && y[i..j] == b' && y[j..] == c';
  }

  lemma {:induction false} FuseLength<T>(p: Parts<T>, n: nat, qs: nat, ks: nat)
    requires Shaped(p, n, qs, ks)
    ensures |Fuse(p, n, qs, ks)| == Times(n, qs + ks + ks)
    decreases n
  {
    hide Times;
    TimesStep(0, qs + ks + ks);
    if n > 0 {
      TimesStep(n - 1, qs);
      TimesStep(n - 1, ks);
      TimesStep(n - 1, qs + ks + ks);
      var (a, b) := (Times(n - 1, qs), Times(n - 1, ks));
      FuseLength(Parts(p.q[..a], p.k[..b], p.v[..b]), n - 1, qs, ks);
    }
  }

  /** Group g of the rows holds, one after the other, group g of the queries, keys and values. */
  ghost predicate GroupAt<T>(rows: seq<T>, p: Parts<T>, qs: nat, ks: nat, g: nat) {
    var (at, a, b) := (Times(g, qs + ks + ks), Times(g, qs), Times(g, ks));
    && 0 <= at && at + qs + ks + ks <= |rows|
    && 0 <= a && a + qs <= |p.q| && 0 <= b && b + ks <= |p.k| && b + ks <= |p.v|
    && rows[at..at + qs] == p.q[a..a + qs]
    && rows[at + qs..at + qs + ks] == p.k[b..b + ks]
    && rows[at + qs + ks..at + qs + ks + ks] == p.v[b..b + ks]
  }

  lemma {:induction false} FuseGroups<T>(p: Parts<T>, n: nat, qs: nat, ks: nat)
    requires Shaped(p, n, qs, ks)
    ensures forall g: nat :: g < n ==> GroupAt(Fuse(p, n, qs, ks), p, qs, ks, g)
    decreases n
  {
    hide Times, GroupAt;
    if n > 0 {
      TimesStep(n - 1, qs);
      TimesStep(n - 1, ks);
      var (a, b) := (Times(n - 1, qs), Times(n - 1, ks));
      var before := Parts(p.q[..a], p.k[..b], p.v[..b]);
      FuseGroups(before, n - 1, qs, ks);
      FuseLength(before, n - 1, qs, ks);
      var fused := Fuse(before, n - 1, qs, ks);
      assert Fuse(p, n, qs, ks) == fused + p.q[a..] + p.k[b..] + p.v[b..];
      hide Fuse;
      forall g: nat | g < n ensures GroupAt(Fuse(p, n, qs, ks), p, qs, ks, g) {
        if g < n - 1 {
          GroupKept(fused, before, p, p.q[a..] + p.k[b..] + p.v[b..], qs, ks, g);
          assert fused + (p.q[a..] + p.k[b..] + p.v[b..]) == Fuse(p, n, qs, ks);
        } else {
          LastGroup(fused, p, n, qs, ks);
        }
      }
    }
  }

  lemma GroupKept<T>(rows: seq<T>, before: Parts<T>, p: Parts<T>, more: seq<T>, qs: nat, ks: nat, g: nat)
    requires GroupAt(rows, before, qs, ks, g) && before.q <= p.q && before.k <= p.k && before.v <= p.v
    ensures GroupAt(rows + more, p, qs, ks, g)
  {
    hide Times;
    var (at, a, b) := (Times(g, qs + ks + ks), Times(g, qs), Times(g, ks));
    Kept(rows, rows + more, at, at + qs);
    Kept(rows, rows + more, at + qs, at + qs + ks);
    Kept(rows, rows + more, at + qs + ks, at + qs + ks + ks);
    Kept(before.q, p.q, a, a + qs);
    Kept(before.k, p.k, b, b + ks);
    Kept(before.v, p.v, b, b + ks);
  }

  lemma Kept<T>(s: seq<T>, t: seq<T>, a: nat, b: nat)
    requires s <= t && a <= b <= |s|
    ensures s[a..b] == t[a..b]
  {}

  lemma LastGroup<T>(fused: seq<T>, p: Parts<T>, n: nat, qs: nat, ks: nat)
    requires n > 0 && |fused| == Times(n - 1, qs + ks + ks)
    requires 0 <= Times(n - 1, qs) && |p.q| == Times(n - 1, qs) + qs
    requires 0 <= Times(n - 1, ks) && |p.k| == |p.v| == Times(n - 1, ks) + ks
    ensures var (a, b) := (Times(n - 1, qs), Times(n - 1, ks));
      GroupAt(fused + p.q[a..] + p.k[b..] + p.v[b..], p, qs, ks, n - 1)
  {
    hide Times;
    var (a, b, at) := (Times(n - 1, qs), Times(n - 1, ks), |fused|);
    var rows := fused + p.q[a..] + p.k[b..] + p.v[b..];
    assert rows[at..at + qs] == p.q[a..a + qs];
    assert rows[at + qs..at + qs + ks] == p.k[b..b + ks];
    assert rows[at + qs + ks..at + qs + ks + ks] == p.v[b..b + ks];
  }

  /** What the split needs: whole heads for each key head, whole sizes for each group. */
  predicate Splits(rows: nat, heads: nat, kvHeads: nat)
    requires kvHeads > 0
  {
    && Divides(kvHeads, heads)
    && Divides(Ratio(heads, kvHeads) + 2, rows)
    && Divides(kvHeads, Ratio(rows, Ratio(heads, kvHeads) + 2))
  }

  /** The query-key-value branch of `_split_tensors`. A split whose sizes do not add up to the
      chunk raises. */
  method SplitQkv<T>(rows: seq<T>, heads: nat, kvHeads: nat) returns (r: Result<Parts<T>, Error>)
    requires kvHeads > 0
    ensures r.Ok? <==> Splits(|rows|, heads, kvHeads)
    ensures r == Err(AssertionError) <==> !Divides(kvHeads, heads) || !Divides(Ratio(heads, kvHeads) + 2, |rows|)
    ensures r.Ok? ==>
      var ks := Ratio(Ratio(|rows|, Ratio(heads, kvHeads) + 2), kvHeads);
      var qs := Times(ks, Ratio(heads, kvHeads));
      qs >= 0 && Shaped(r.value, kvHeads, qs, ks) && Fuse(r.value, kvHeads, qs, ks) == rows
    ensures r.Ok? <==>
      && heads % kvHeads == 0 && |rows| % (heads / kvHeads + 2) == 0
      && |rows| / (heads / kvHeads + 2) % kvHeads == 0
    ensures r.Ok? ==>
      var ks := |rows| / (heads / kvHeads + 2) / kvHeads;
      var qs := ks * (heads / kvHeads);
      && |r.value.q| == kvHeads * qs && |r.value.k| == |r.value.v| == kvHeads * ks
      && forall g: nat :: g < kvHeads ==> GroupAt(rows, r.value, qs, ks, g)
  {
    SplitsExact(|rows|, heads, kvHeads);
    hide Times, Divides, Ratio, Fuse, Splits, GroupAt;
    SplitsMeans(|rows|, heads, kvHeads);
    if !Divides(kvHeads, heads) {
      return Err(AssertionError);
    }
    var perKv := Ratio(heads, kvHeads);
    if !Divides(perKv + 2, |rows|) {
      return Err(AssertionError);
    }
    var kvSize := Ratio(|rows|, perKv + 2);
    TimesNat(kvSize, perKv);
    var ks, qs := Ratio(kvSize, kvHeads), Ratio(Times(kvSize, perKv), kvHeads);
    var size := Ratio(|rows| + kvHeads - 1, kvHeads);
    if rows == [] {
      EmptySizes<T>(perKv, kvHeads);
      FuseGroups<T>(Parts([], [], []), kvHeads, 0, 0);
      return Ok(Parts([], [], []));   // empty chunks, as many as groups
    }
    Sizes(|rows|, perKv, kvHeads);
    r := SplitChunks(rows, size, qs, ks, kvHeads, Divides(kvHeads, kvSize));
    if r.Ok? {
      FuseGroups(r.value, kvHeads, qs, ks);
    }
  }

  lemma SplitsExact(rows: nat, heads: nat, kvHeads: nat)
    requires kvHeads > 0
    ensures Splits(rows, heads, kvHeads) <==>
      heads % kvHeads == 0 && rows % (heads / kvHeads + 2) == 0 && rows / (heads / kvHeads + 2) % kvHeads == 0
    ensures var ks := Ratio(Ratio(rows, Ratio(heads, kvHeads) + 2), kvHeads);
      && ks == rows / (heads / kvHeads + 2) / kvHeads
      && Times(ks, Ratio(heads, kvHeads)) == ks * (heads / kvHeads)
    ensures forall a: int, b: int :: Times(a, b) == a * b
  {}

  lemma SplitsMeans(rows: nat, heads: nat, kvHeads: nat)
    requires kvHeads > 0
    ensures Splits(rows, heads, kvHeads) <==>
      && Divides(kvHeads, heads) && Divides(Ratio(heads, kvHeads) + 2, rows)
      && Divides(kvHeads, Ratio(rows, Ratio(heads, kvHeads) + 2))
  {}

  /** Without rows every group is empty. */
  lemma EmptySizes<T>(perKv: nat, groups: nat)
    requires groups > 0
    ensures Ratio(0, perKv + 2) == 0 && Divides(groups, 0) && Ratio(0, groups) == 0 && Times(0, perKv) == 0
    ensures Shaped<T>(Parts([], [], []), groups, 0, 0) && Fuse<T>(Parts([], [], []), groups, 0, 0) == []
  {
    assert 0 == 0 * (perKv + 2) && 0 == 0 * groups;
    EmptyGroups<T>(groups);
  }

  lemma {:induction false} EmptyGroups<T>(n: nat)
    ensures Shaped<T>(Parts([], [], []), n, 0, 0) && Fuse<T>(Parts([], [], []), n, 0, 0) == []
  {
    if n > 0 {
      EmptyGroups<T>(n - 1);
    }
  }

  /** The loop over `tensor.chunk(groups)`: either every chunk splits or the first does not. */
  method SplitChunks<T>(rows: seq<T>, size: nat, qs: nat, ks: nat, ghost groups: nat, ghost even: bool)
      returns (r: Result<Parts<T>, Error>)
    requires 0 < size <= |rows|
    requires if even then qs + ks + ks == size && |rows| == Times(groups, size) else qs + ks + ks < size
    ensures r == Err(RuntimeError) || r.Ok?
    ensures r.Ok? <==> even
    ensures r.Ok? ==> Shaped(r.value, groups, qs, ks) && Fuse(r.value, groups, qs, ks) == rows
  {
    hide Times, Fuse;
    var parts: Parts<T> := Parts([], [], []);
    var rest := rows;
    ghost var n := 0;
    EmptyFuse<T>(qs, ks);
    while rest != []
      invariant Shaped(parts, n, qs, ks) && Fuse(parts, n, qs, ks) + rest == rows
      invariant if even then n <= groups && |rest| == Times(groups - n, size) else rest == rows
      decreases |rest|
    {
      if even {
        ChunkFits(groups - n, size);
      }
      var chunk := if |rest| <= size then rest else rest[..size];
      if qs + ks + ks != |chunk| {
        return Err(RuntimeError);
      }
      FuseNext(parts, n, qs, ks, chunk);
      parts := Parts(parts.q + chunk[..qs], parts.k + chunk[qs..qs + ks], parts.v + chunk[qs + ks..]);
      assert rest == chunk + rest[|chunk|..];
      rest := rest[|chunk|..];
      n := n + 1;
    }
    assert Fuse(parts, n, qs, ks) + rest == Fuse(parts, n, qs, ks);
    ChunkFits(groups - n, size);
    r := Ok(parts);
  }

  lemma EmptyFuse<T>(qs: nat, ks: nat)
    ensures Shaped<T>(Parts([], [], []), 0, qs, ks) && Fuse<T>(Parts([], [], []), 0, qs, ks) == []
  {}

  lemma TimesNat(a: nat, b: nat)
    ensures Times(a, b) >= 0
  {}

  /** While groups remain, the next chunk is a whole one. */
  lemma ChunkFits(left: int, size: nat)
    requires left >= 0
    ensures left > 0 && size > 0 ==> Times(left, size) >= size > 0 && Times(left - 1, size) == Times(left, size) - size
    ensures left == 0 ==> Times(left, size) == 0
  {}

  /** The sizes of a group add up to a chunk exactly when the groups share the keys evenly. */
  lemma Sizes(rows: nat, perKv: nat, kvHeads: nat)
    requires kvHeads > 0 && rows > 0 && Divides(perKv + 2, rows)
    ensures var kvSize := Ratio(rows, perKv + 2);
      && Times(kvSize, perKv) >= 0
      && var (ks, size) := (Ratio(kvSize, kvHeads), Ratio(rows + kvHeads - 1, kvHeads));
         var qs := Ratio(Times(kvSize, perKv), kvHeads);
      && 0 < size <= rows
      && (Divides(kvHeads, kvSize) ==> qs == Times(ks, perKv) && qs + ks + ks == size && rows == Times(kvHeads, size))
      && (!Divides(kvHeads, kvSize) ==> qs + ks + ks < size)
  {
    var kvSize := Ratio(rows, perKv + 2);
    Whole(rows, perKv + 2, kvSize);
    TimesNat(kvSize, perKv);
    var (ks, size) := (Ratio(kvSize, kvHeads), Ratio(rows + kvHeads - 1, kvHeads));
    var all := Times(kvSize, perKv);
    var qs := Ratio(all, kvHeads);
    assert rows == all + 2 * kvSize by {
      assert Times(perKv + 2, kvSize) == kvSize * perKv + 2 * kvSize;
    }
    RatioBounds(kvSize, kvHeads);
    RatioBounds(all, kvHeads);
    RatioBounds(rows + kvHeads - 1, kvHeads);
    hide Ratio, Divides;
    if Divides(kvHeads, kvSize) {
      Whole(kvSize, kvHeads, ks);
      EvenShares(kvHeads, ks, perKv, all, rows);
      RatioUnique(all, kvHeads, Times(ks, perKv));
      RatioUnique(rows + kvHeads - 1, kvHeads, Times(ks, perKv) + 2 * ks);
    } else {
      TimesOrder(kvHeads, qs + ks + ks, size, all + 2 * kvSize, qs, ks);
    }
    SizePositive(kvHeads, size, rows);
  }

  lemma SizePositive(g: nat, size: nat, rows: nat)
    requires g > 0 && rows > 0 && Times(g, size) <= rows + g - 1 < Times(g, size) + g
    ensures 0 < size <= rows
  {
    assert size > rows ==> g * size >= g * (rows + 1);
    assert g * rows >= rows;
  }

  lemma Whole(a: nat, b: nat, q: nat)
    requires b > 0 && Divides(b, a) && q == Ratio(a, b)
    ensures a == Times(b, q)
  {}

  lemma RatioBounds(a: nat, b: nat)
    requires b > 0
    ensures Times(b, Ratio(a, b)) <= a < Times(b, Ratio(a, b)) + b
    ensures Divides(b, a) <==> Times(b, Ratio(a, b)) == a
  {}

  lemma RatioUnique(a: nat, b: nat, q: nat)
    requires b > 0 && Times(b, q) <= a < Times(b, q) + b
    ensures Ratio(a, b) == q
  {
    RatioBounds(a, b);
    var r := Ratio(a, b);
    assert r < q ==> b * q >= b * (r + 1);
    assert q < r ==> b * r >= b * (q + 1);
  }

  /** With ks keys a group, everything is a multiple of the groups. */
  lemma EvenShares(g: nat, ks: nat, perKv: nat, all: nat, rows: nat)
    requires all == Times(Times(g, ks), perKv) && rows == all + 2 * Times(g, ks)
    ensures Times(ks, perKv) >= 0
    ensures Times(g, Times(ks, perKv)) == all && Times(g, Times(ks, perKv) + 2 * ks) == rows
  {}

  lemma TimesOrder(g: nat, sum: nat, size: nat, rows: nat, qs: nat, ks: nat)
    requires g > 0 && sum == qs + ks + ks
    requires Times(g, qs) + 2 * Times(g, ks) < rows && rows + g - 1 < Times(g, size) + g
    ensures sum < size
  {}
}
