/** The page table of core.c as uthash keeps it: bucket chains and the list in
    application order, as values. */
module HashTable {
  import opened Machine
  import Laws
  import MergeSort

  const CAPACITY_THRESH: nat := 10
  const INITIAL_LOG2: nat := 21

  type Hash = nat -> nat

  // ----- powers of two, shifts and masks -----

  function Pow2(k: nat): (r: nat)
    ensures r > 0
  {
    if k == 0 then 1 else 2 * Pow2(k - 1)
  }

  /** `a & b`, bit by bit. */
  function And(a: nat, b: nat): (r: nat)
    ensures r <= b
  {
    if a == 0 || b == 0 then 0
    else (if a % 2 == 1 && b % 2 == 1 then 1 else 0) + 2 * And(a / 2, b / 2)
  }

  lemma {:induction false} MaskIsMod(a: nat, k: nat)
    ensures And(a, Pow2(k) - 1) == a % Pow2(k)
    decreases k
  {
    if k > 0 {
      var m := Pow2(k - 1);
      MaskIsMod(a / 2, k - 1);
      HalfMod(a, m);
      assert (2 * m - 1) / 2 == m - 1 && (2 * m - 1) % 2 == 1;
      if a == 0 {
        assert a % (2 * m) == 0;
      } else {
        assert And(a, 2 * m - 1) == (if a % 2 == 1 then 1 else 0) + 2 * And(a / 2, m - 1);
      }
    } else {
      assert And(a, 0) == 0;
    }
  }

  /** The last bit and the bits above it. */
  lemma HalfMod(a: nat, m: nat)
    requires m > 0
    ensures a % (2 * m) == a % 2 + 2 * ((a / 2) % m)
  {
    var (q, r) := (a / 2 / m, a / 2 % m);
    assert a / 2 == q * m + r;
    assert a == 2 * (q * m + r) + a % 2;
    ModUnique(a, 2 * m, q, a % 2 + 2 * r);
  }

  lemma MulAtLeast(x: int, d: nat)
    requires x >= 1
    ensures x * d >= d
  {}

  lemma Quotients(q: nat, q': nat, d: nat, r: nat, r': nat)
    requires q * d + r == q' * d + r' && r < d && r' < d
    ensures q == q'
  {
    assert q * d - q' * d == (q - q') * d && (q' - q) * d == -((q - q') * d);
    if q > q' {
      MulAtLeast(q - q', d);
    } else if q < q' {
      MulAtLeast(q' - q, d);
    }
  }

  lemma ModUnique(a: nat, d: nat, q: nat, r: nat)
    requires d > 0 && r < d && a == q * d + r
    ensures a / d == q && a % d == r
  {
    Quotients(q, a / d, d, r, a % d);
  }

  lemma {:induction false} ShiftIsDiv(n: nat, k: nat)
    ensures ShiftRight(n, k) == n / Pow2(k)
    decreases k
  {
    if k > 0 {
      ShiftIsDiv(n / 2, k - 1);
      DivTwice(n, Pow2(k - 1));
    }
  }

  lemma DivTwice(n: nat, m: nat)
    requires m > 0
    ensures n / (2 * m) == n / 2 / m
  {
    var (q, r) := (n / 2 / m, n / 2 % m);
    assert n / 2 == q * m + r;
    assert n == q * (2 * m) + (2 * r + n % 2);
    ModUnique(n, 2 * m, q, 2 * r + n % 2);
  }

  function Ceil(n: nat, d: nat): nat
    requires d > 0
  {
    (n + d - 1) / d
  }

  /** What HASH_EXPAND_BUCKETS computes for `ideal_chain_maxlen`. */
  function IdealLength(n: nat, log2: nat, buckets: nat): nat
    requires buckets > 0
  {
    ShiftRight(n, log2 + 1) + if And(n, buckets * 2 - 1) != 0 then 1 else 0
  }

  lemma CeilIs(n: nat, d: nat)
    requires d > 0
    ensures Ceil(n, d) == n / d + if n % d != 0 then 1 else 0
  {
    var (q, r) := (n / d, n % d);
    assert n == q * d + r;
    if r == 0 {
      ModUnique(n + d - 1, d, q, d - 1);
    } else {
      assert n + d - 1 == (q + 1) * d + (r - 1);
      ModUnique(n + d - 1, d, q + 1, r - 1);
    }
  }

  /** The shift and the mask round the quotient up. */
  lemma IdealIsCeil(n: nat, log2: nat)
    ensures IdealLength(n, log2, Pow2(log2)) == Ceil(n, 2 * Pow2(log2))
  {
    hide Ceil, ShiftRight, And;
    assert Pow2(log2 + 1) == 2 * Pow2(log2);
    ShiftIsDiv(n, log2 + 1);
    MaskIsMod(n, log2 + 1);
    CeilIs(n, 2 * Pow2(log2));
  }

  // ----- the table -----

  /** `chains[i]` is bucket `i` from `hh_head` on; `order` the application order. */
  datatype Table = Table(
    log2: nat,
    chains: seq<seq<nat>>,
    mults: seq<nat>,
    order: seq<nat>,
    ideal: nat,
    nonideal: nat,
    ineff: nat,
    noexpand: bool)

  /** HASH_TO_BKT. */
  function BucketOf(h: Hash, k: nat, n: nat): (b: nat)
    requires n > 0
    ensures b < n
  {
    And(h(k), n - 1)
  }

  function NewTable(): Table {
    Table(INITIAL_LOG2, seq(Pow2(INITIAL_LOG2), _ => []), seq(Pow2(INITIAL_LOG2), _ => 0), [], 0, 0, 0, false)
  }

  ghost predicate Shaped(t: Table) {
    |t.chains| == Pow2(t.log2) && |t.mults| == |t.chains|
  }

  /** The item heads its chain and ends the list in application order. */
  function Push(h: Hash, t: Table, k: nat): (r: Table)
    requires Shaped(t)
    ensures Shaped(r)
  {
    var b := BucketOf(h, k, |t.chains|);
    t.(chains := t.chains[b := [k] + t.chains[b]], order := t.order + [k])
  }

  predicate Full(t: Table, b: nat)
    requires Shaped(t) && b < |t.chains|
  {
    |t.chains[b]| >= (t.mults[b] + 1) * CAPACITY_THRESH && !t.noexpand
  }

  /** What of the chain `c` comes to bucket `k` of `n`: each item is put in front. */
  function Spread(h: Hash, c: seq<nat>, k: nat, n: nat): (r: seq<nat>)
    requires n > 0
  {
    if c == [] then [] else Spread(h, c[1..], k, n) + if BucketOf(h, c[0], n) == k then [c[0]] else []
  }

  /** `expand_mult` of a bucket once `c` items were put in it. */
  function MultAfter(c: nat, ideal: nat): nat {
    if c == 0 then 0
    else if c > ideal && c > MultAfter(c - 1, ideal) * ideal then MultAfter(c - 1, ideal) + 1
    else MultAfter(c - 1, ideal)
  }

  /** Over all chains, the items beyond the ideal length. */
  function Over(chains: seq<seq<nat>>, ideal: nat): nat {
    if chains == [] then 0 else (if |chains[0]| > ideal then |chains[0]| - ideal else 0) + Over(chains[1..], ideal)
  }

  function Doubled(h: Hash, chains: seq<seq<nat>>): (r: seq<seq<nat>>)
    ensures |r| == 2 * |chains|
    ensures forall k {:trigger r[k]} :: 0 <= k < |r| ==> r[k] == Spread(h, chains[k % |chains|], k, 2 * |chains|)
  {
    seq(2 * |chains|, k requires 0 <= k < 2 * |chains| => Spread(h, chains[k % |chains|], k, 2 * |chains|))
  }

  function Expand(h: Hash, t: Table): (r: Table)
    requires Shaped(t)
    ensures Shaped(r)
  {
    var chains := Doubled(h, t.chains);
    var ideal := IdealLength(|t.order|, t.log2, |t.chains|);
    var nonideal := Over(chains, ideal);
    var ineff := if nonideal > |t.order| / 2 then t.ineff + 1 else 0;
    Table(t.log2 + 1, chains, seq(2 * |t.chains|, k requires 0 <= k < |chains| => MultAfter(|chains[k]|, ideal)), t.order,
          ideal, nonideal, ineff, t.noexpand || ineff > 1)
  }

  /** HASH_ADD; without a table one is made. */
  function Add(h: Hash, t: Option<Table>, k: nat): (r: Table)
    requires t.Some? ==> Shaped(t.value)
    ensures Shaped(r)
  {
    var u := Push(h, if t.Some? then t.value else NewTable(), k);
    if Full(u, BucketOf(h, k, |u.chains|)) then Expand(h, u) else u
  }

  /** HASH_DELETE; with the last item the table goes. */
  function Delete(h: Hash, t: Table, k: nat): (r: Option<Table>)
    requires Shaped(t)
    ensures r.Some? ==> Shaped(r.value)
  {
    if t.order == [k] then None
    else
      var b := BucketOf(h, k, |t.chains|);
      Some(t.(chains := t.chains[b := Without(t.chains[b], k)], order := Without(t.order, k)))
  }

  // ----- integrity -----

  ghost predicate ChainOk(h: Hash, t: Table, i: nat)
    requires i < |t.chains|
  {
    NoDup(t.chains[i]) && forall k :: k in t.chains[i] ==> k in t.order && BucketOf(h, k, |t.chains|) == i
  }

  ghost predicate Filed(h: Hash, t: Table, k: nat)
    requires t.chains != []
  {
    k in t.chains[BucketOf(h, k, |t.chains|)]
  }

  /** The chains and the list in application order hold the same items, each once,
      and each in the bucket of its hash. */
  ghost predicate Sound(h: Hash, t: Table) {
    && Shaped(t)
    && NoDup(t.order)
    && (forall i {:trigger ChainOk(h, t, i)} :: 0 <= i < |t.chains| ==> ChainOk(h, t, i))
    && (forall k {:trigger Filed(h, t, k)} :: k in t.order ==> Filed(h, t, k))
  }

  lemma NewSound(h: Hash)
    ensures Sound(h, NewTable())
  {
    hide Pow2;
    forall i | 0 <= i < |NewTable().chains| ensures ChainOk(h, NewTable(), i) {}
  }

  lemma PushSound(h: Hash, t: Table, k: nat)
    requires Sound(h, t) && k !in t.order
    ensures Sound(h, Push(h, t, k))
  {
    hide And, Pow2;
    var (r, b) := (Push(h, t, k), BucketOf(h, k, |t.chains|));
    assert ChainOk(h, t, b);
    assert NoDup([k] + t.chains[b]);
    forall i | 0 <= i < |r.chains| ensures ChainOk(h, r, i) { assert ChainOk(h, t, i); }
    forall x | x in r.order ensures Filed(h, r, x) { assert x in t.order ==> Filed(h, t, x); }
  }

  lemma DeleteSound(h: Hash, t: Table, k: nat)
    requires Sound(h, t) && k in t.order && t.order != [k]
    ensures Sound(h, Delete(h, t, k).value)
    ensures forall x :: x in Delete(h, t, k).value.order <==> x in t.order && x != k
  {
    hide And, Pow2;
    var (r, b) := (Delete(h, t, k).value, BucketOf(h, k, |t.chains|));
    assert ChainOk(h, t, b);
    WithoutFacts(t.chains[b], k);
    WithoutFacts(t.order, k);
    forall i | 0 <= i < |r.chains| ensures ChainOk(h, r, i) {
      assert ChainOk(h, t, i);
    }
    forall x | x in r.order ensures Filed(h, r, x) { assert Filed(h, t, x); }
  }

  // ----- expansion -----

  lemma {:induction false} SpreadFacts(h: Hash, c: seq<nat>, k: nat, n: nat)
    requires n > 0 && NoDup(c)
    ensures NoDup(Spread(h, c, k, n))
    ensures forall x :: x in Spread(h, c, k, n) <==> x in c && BucketOf(h, x, n) == k
  {
    hide And;
    if c != [] {
      assert NoDup(c[1..]) && c == [c[0]] + c[1..];
      SpreadFacts(h, c[1..], k, n);
      var s := Spread(h, c[1..], k, n);
      assert forall i :: 0 <= i < |s| ==> s[i] in s;
      assert c[0] !in c[1..];
    }
  }

  /** A bucket splits in two: modulo the doubled size an item keeps its old bucket
      modulo the old size. */
  lemma BucketSplits(h: Hash, k: nat, log2: nat)
    ensures BucketOf(h, k, Pow2(log2)) == h(k) % Pow2(log2)
    ensures BucketOf(h, k, 2 * Pow2(log2)) == h(k) % (2 * Pow2(log2))
    ensures BucketOf(h, k, 2 * Pow2(log2)) % Pow2(log2) == BucketOf(h, k, Pow2(log2))
  {
    var n := Pow2(log2);
    MaskIsMod(h(k), log2);
    assert Pow2(log2 + 1) == 2 * n;
    MaskIsMod(h(k), log2 + 1);
    ModMod(h(k), n);
  }

  lemma Regroup(q: nat, q': nat, n: nat)
    ensures q * (2 * n) + q' * n == (2 * q + q') * n
  {
    assert q * (2 * n) == (2 * q) * n;
  }

  lemma Divide(a: nat, d: nat) returns (q: nat, r: nat)
    requires d > 0
    ensures a == q * d + r && r == a % d && r < d
  {
    q, r := a / d, a % d;
  }

  lemma ModThrough(a: nat, n: nat, m: nat, q: nat, r: nat, q': nat, r': nat)
    requires n > 0 && m == 2 * n && a == q * m + r && r == q' * n + r' && r' < n
    ensures a % n == r'
  {
    Regroup(q, q', n);
    ModUnique(a, n, 2 * q + q', r');
  }

  lemma ModOfMod(a: nat, n: nat, m: nat)
    requires n > 0 && m == 2 * n
    ensures a % m % n == a % n
  {
    var q, r := Divide(a, m);
    var q', r' := Divide(r, n);
    ModThrough(a, n, m, q, r, q', r');
  }

  lemma ModMod(a: nat, n: nat)
    requires n > 0
    ensures a % (2 * n) % n == a % n
  {
    ModOfMod(a, n, 2 * n);
  }

  /** Expansion keeps every item, and files each at its hash modulo the doubled size. */
  lemma ExpandSound(h: Hash, t: Table)
    requires Sound(h, t)
    ensures Sound(h, Expand(h, t))
    ensures var r := Expand(h, t);
      && r.order == t.order && |r.chains| == 2 * |t.chains|
      && forall k :: k in t.order ==> k in r.chains[h(k) % |r.chains|]
  {
    hide And, Pow2, Over, IdealLength, MultAfter;
    var (r, n) := (Expand(h, t), |t.chains|);
    forall i | 0 <= i < |r.chains| ensures ChainOk(h, r, i) {
      assert ChainOk(h, t, i % n);
      SpreadFacts(h, t.chains[i % n], i, 2 * n);
    }
    forall k | k in r.order ensures Filed(h, r, k) && k in r.chains[h(k) % |r.chains|] {
      assert Filed(h, t, k);
      BucketSplits(h, k, t.log2);
      var b := BucketOf(h, k, 2 * n);
      assert ChainOk(h, t, b % n);
      SpreadFacts(h, t.chains[b % n], b, 2 * n);
    }
  }

  // ----- what the doubling computes -----

  lemma {:induction false} SpreadMore(h: Hash, c: seq<nat>, x: nat, k: nat, n: nat)
    requires n > 0
    ensures Spread(h, c + [x], k, n) == (if BucketOf(h, x, n) == k then [x] else []) + Spread(h, c, k, n)
  {
    hide And;
    if c == [] {
      assert [x][1..] == [];
    } else {
      assert (c + [x])[0] == c[0] && (c + [x])[1..] == c[1..] + [x];
      SpreadMore(h, c[1..], x, k, n);
    }
  }

  lemma {:induction false} OverMore(chains: seq<seq<nat>>, b: nat, c: seq<nat>, ideal: nat)
    requires b < |chains| && |c| == |chains[b]| + 1
    ensures Over(chains[b := c], ideal) == Over(chains, ideal) + if |c| > ideal then 1 else 0
  {
    if b == 0 {
      assert chains[b := c][1..] == chains[1..];
    } else {
      assert chains[b := c][1..] == chains[1..][b - 1 := c];
      OverMore(chains[1..], b - 1, c, ideal);
    }
  }

  lemma {:induction false} OverNothing(chains: seq<seq<nat>>, ideal: nat)
    requires forall i :: 0 <= i < |chains| ==> chains[i] == []
    ensures Over(chains, ideal) == 0
  {
    if chains != [] {
      OverNothing(chains[1..], ideal);
    }
  }

  /** The doubled chains once `i` buckets and `p` items of the next are moved. */
  ghost function Moved(h: Hash, chains: seq<seq<nat>>, i: nat, p: nat): (r: seq<seq<nat>>)
    requires i < |chains| ==> p <= |chains[i]|
    ensures |r| == 2 * |chains|
    ensures forall k {:trigger r[k]} :: 0 <= k < |r| ==> r[k] == MovedTo(h, chains, i, p, k)
  {
    seq(2 * |chains|, k requires 0 <= k < 2 * |chains| => MovedTo(h, chains, i, p, k))
  }

  ghost function MovedTo(h: Hash, chains: seq<seq<nat>>, i: nat, p: nat, k: nat): seq<nat>
    requires k < 2 * |chains| && (i < |chains| ==> p <= |chains[i]|)
  {
    var j := k % |chains|;
    if j < i then Spread(h, chains[j], k, 2 * |chains|)
    else if j == i then Spread(h, chains[i][..p], k, 2 * |chains|)
    else []
  }

  lemma MovedNothing(h: Hash, chains: seq<seq<nat>>)
    ensures forall k :: 0 <= k < 2 * |chains| ==> Moved(h, chains, 0, 0)[k] == []
  {}

  lemma MovedBucket(h: Hash, chains: seq<seq<nat>>, i: nat)
    requires i < |chains|
    ensures Moved(h, chains, i, |chains[i]|) == Moved(h, chains, i + 1, 0)
  {
    assert chains[i][..|chains[i]|] == chains[i];
  }

  lemma MovedAll(h: Hash, chains: seq<seq<nat>>)
    ensures Moved(h, chains, |chains|, 0) == Doubled(h, chains)
  {}

  /** Moving one item puts it in front of its new chain. */
  lemma MovedMore(h: Hash, chains: seq<seq<nat>>, log2: nat, i: nat, p: nat)
    requires |chains| == Pow2(log2) && i < |chains| && p < |chains[i]| && BucketOf(h, chains[i][p], |chains|) == i
    ensures var (x, cs) := (chains[i][p], Moved(h, chains, i, p));
      var b := BucketOf(h, x, 2 * |chains|);
      Moved(h, chains, i, p + 1) == cs[b := [x] + cs[b]]
  {
    hide And, Pow2, Spread;
    var (x, cs) := (chains[i][p], Moved(h, chains, i, p));
    var b := BucketOf(h, x, 2 * |chains|);
    BucketSplits(h, x, log2);
    assert chains[i][..p + 1] == chains[i][..p] + [x];
    var (m, u) := (Moved(h, chains, i, p + 1), cs[b := [x] + cs[b]]);
    forall k {:trigger m[k]} | 0 <= k < 2 * |chains| ensures m[k] == u[k] {
      SpreadMore(h, chains[i][..p], x, k, 2 * |chains|);
    }
  }

  /** `expand_mult` is 0 up to the ideal length, and then the length in ideal lengths,
      rounded up, or what it exceeds the ideal by if that is less. */
  predicate IsMult(m: nat, c: nat, ideal: nat) {
    if c <= ideal then m == 0 else 0 < m <= c - ideal && (m - 1) * ideal < c && (m == c - ideal || m * ideal >= c)
  }

  lemma {:induction false} MultIs(c: nat, ideal: nat)
    ensures IsMult(MultAfter(c, ideal), c, ideal)
  {
    if c > 0 {
      hide IsMult;
      MultIs(c - 1, ideal);
      MultStep(c, ideal, MultAfter(c - 1, ideal));
    }
  }

  lemma MultStep(c: nat, ideal: nat, m: nat)
    requires c > 0 && IsMult(m, c - 1, ideal)
    ensures IsMult(if c > ideal && c > m * ideal then m + 1 else m, c, ideal)
  {
    var x := m * ideal;
    assert (m + 1) * ideal == x + ideal;
    if c > ideal && c > x {
      assert (m + 1 - 1) * ideal == x;
    }
  }

  /** The statistics after a doubling: 2^log2 buckets, the ideal length rounded up, and
      all items beyond it counted.  When they are more than half of all items, in two
      doublings one after the other, the table is doubled no more. */
  lemma ExpandCounts(h: Hash, t: Table)
    requires Shaped(t)
    ensures var (r, n) := (Expand(h, t), |t.order|);
      && |r.chains| == Pow2(r.log2) == 2 * |t.chains|
      && r.ideal == Ceil(n, |r.chains|)
      && r.nonideal == Over(r.chains, r.ideal)
      && r.ineff == (if r.nonideal > n / 2 then t.ineff + 1 else 0)
      && (r.noexpand <==> t.noexpand || (r.nonideal > n / 2 && t.ineff >= 1))
      && forall b :: 0 <= b < |r.chains| ==> IsMult(r.mults[b], |r.chains[b]|, r.ideal)
  {
    hide And, Ceil, ShiftRight, Over, MultAfter, IsMult;
    IdealIsCeil(|t.order|, t.log2);
    var r := Expand(h, t);
    forall b | 0 <= b < |r.chains| ensures IsMult(r.mults[b], |r.chains[b]|, r.ideal) {
      MultIs(|r.chains[b]|, r.ideal);
    }
  }

  /** An addition puts the item at the head of its bucket; when it is the tenth there,
      or as many tens more as `expand_mult` says, the buckets are doubled, unless that
      was given up. */
  lemma AddCounts(h: Hash, t: Table, k: nat)
    requires Shaped(t)
    ensures |t.chains| > 0
    ensures var (r, b) := (Add(h, Some(t), k), h(k) % |t.chains|);
      && r.order == t.order + [k]
      && if |t.chains[b]| + 1 >= (t.mults[b] + 1) * 10 && !t.noexpand then |r.chains| == 2 * |t.chains|
         else r == t.(chains := t.chains[b := [k] + t.chains[b]], order := t.order + [k])
  {
    hide And, Expand;
    BucketSplits(h, k, t.log2);
    ExpandCounts(h, Push(h, t, k));
    OrderStays(h, Push(h, t, k));
  }

  lemma OrderStays(h: Hash, t: Table)
    requires Shaped(t)
    ensures Expand(h, t).order == t.order
  {}

  /** The first item makes a table of 2097152 buckets. */
  lemma FirstAdded(h: Hash, k: nat)
    ensures var r := Add(h, None, k);
      && |r.chains| == 2097152 && r.order == [k] && !r.noexpand
      && r.chains[h(k) % 2097152] == [k] && forall b :: 0 <= b < 2097152 && b != h(k) % 2097152 ==> r.chains[b] == []
  {
    hide And;
    BucketSplits(h, k, 21);
    Pow21();
  }

  lemma Pow21()
    ensures Pow2(21) == 2097152
  {
    assert Pow2(7) == 128;
    assert Pow2(14) == 16384;
  }

  function Flatten(chains: seq<seq<nat>>): seq<nat> {
    if chains == [] then [] else chains[0] + Flatten(chains[1..])
  }

  function Total(chains: seq<seq<nat>>): nat {
    if chains == [] then 0 else |chains[0]| + Total(chains[1..])
  }

  lemma {:induction false} FlattenCard(chains: seq<seq<nat>>)
    ensures |Flatten(chains)| == Total(chains)
  {
    if chains != [] {
      FlattenCard(chains[1..]);
    }
  }

  /** Chains `from` on, of a table whose buckets are apart, hold each item once. */
  lemma {:induction false} FlattenApart(h: Hash, chains: seq<seq<nat>>, from: nat, n: nat)
    requires n > 0
    requires forall i {:trigger chains[i]} :: 0 <= i < |chains| ==> NoDup(chains[i])
    requires forall i, k {:trigger k in chains[i]} :: 0 <= i < |chains| && k in chains[i] ==> BucketOf(h, k, n) == from + i
    ensures NoDup(Flatten(chains))
    ensures forall k :: k in Flatten(chains) <==> exists i :: 0 <= i < |chains| && k in chains[i]
  {
    hide And;
    if chains != [] {
      var rest := chains[1..];
      forall i, k | 0 <= i < |rest| && k in rest[i] ensures BucketOf(h, k, n) == from + 1 + i {
        assert k in chains[i + 1];
      }
      FlattenApart(h, rest, from + 1, n);
      var f := Flatten(rest);
      forall k | k in chains[0] ensures k !in f {
        assert BucketOf(h, k, n) == from;
      }
      JoinApart(chains[0], f);
      forall k ensures k in Flatten(chains) <==> exists i :: 0 <= i < |chains| && k in chains[i] {
        FlattenHas(chains, k);
      }
    }
  }

  lemma JoinApart(a: seq<nat>, b: seq<nat>)
    requires NoDup(a) && NoDup(b) && forall k :: k in a ==> k !in b
    ensures NoDup(a + b)
  {
    var c := a + b;
    forall i, j | 0 <= i < j < |c| ensures c[i] != c[j] {
      if i < |a| {
        assert c[i] in a;
        assert j >= |a| ==> c[j] in b;
      }
    }
  }

  lemma {:induction false} FlattenHas(chains: seq<seq<nat>>, k: nat)
    ensures k in Flatten(chains) <==> exists i :: 0 <= i < |chains| && k in chains[i]
  {
    if chains != [] {
      FlattenHas(chains[1..], k);
      if i :| 0 <= i < |chains[1..]| && k in chains[1..][i] {
        assert k in chains[i + 1];
      }
      if i :| 0 <= i < |chains| && k in chains[i] {
        assert i > 0 ==> k in chains[1..][i - 1];
      }
    }
  }

  /** The bucket counts add up to the number of items, as HASH_FSCK demands. */
  lemma CountsAgree(h: Hash, t: Table)
    requires Sound(h, t)
    ensures Total(t.chains) == |t.order|
  {
    hide And, Pow2;
    forall i | 0 <= i < |t.chains| ensures NoDup(t.chains[i]) { assert ChainOk(h, t, i); }
    forall i, k | 0 <= i < |t.chains| && k in t.chains[i] ensures BucketOf(h, k, |t.chains|) == 0 + i && k in t.order {
      assert ChainOk(h, t, i);
    }
    FlattenApart(h, t.chains, 0, |t.chains|);
    FlattenCard(t.chains);
    var f := Flatten(t.chains);
    forall k ensures k in f <==> k in t.order {
      if k in t.order {
        assert Filed(h, t, k);
      }
    }
    Laws.NoDupCard(f);
    Laws.NoDupCard(t.order);
    assert SetOf(f) == SetOf(t.order);
  }

  // ----- the table against a set of keys -----

  /** `t` holds exactly the keys `keys`. */
  ghost predicate Holds(h: Hash, t: Option<Table>, keys: set<nat>) {
    match t
    case None => keys == {}
    case Some(u) => Sound(h, u) && u.order != [] && forall k :: k in u.order <==> k in keys
  }

  /** HASH_FIND: the chain of the key's bucket is searched. */
  predicate Finds(h: Hash, t: Option<Table>, k: nat) {
    t.Some? && t.value.chains != [] && k in t.value.chains[BucketOf(h, k, |t.value.chains|)]
  }

  lemma FindIsMember(h: Hash, t: Option<Table>, keys: set<nat>, k: nat)
    requires Holds(h, t, keys)
    ensures Finds(h, t, k) <==> k in keys
  {
    hide And, Pow2;
    if t.Some? {
      assert k in t.value.order ==> Filed(h, t.value, k);
      assert t.value.chains != [] ==> ChainOk(h, t.value, BucketOf(h, k, |t.value.chains|));
    }
  }

  lemma AddHolds(h: Hash, t: Option<Table>, keys: set<nat>, k: nat)
    requires Holds(h, t, keys) && k !in keys
    ensures t.Some? ==> Shaped(t.value)
    ensures Holds(h, Some(Add(h, t, k)), keys + {k})
  {
    hide And, Pow2, Sound, Push, Expand, Full;
    assert t.Some? ==> Shaped(t.value) by { SoundShaped(h, t); }
    var base := if t.Some? then t.value else NewTable();
    NewSound(h);
    PushSound(h, base, k);
    PushOrder(h, base, k);
    var u := Push(h, base, k);
    ExpandSound(h, u);
  }

  lemma SoundShaped(h: Hash, t: Option<Table>)
    requires t.Some? ==> Sound(h, t.value)
    ensures t.Some? ==> Shaped(t.value)
  {}

  lemma PushOrder(h: Hash, t: Table, k: nat)
    requires Shaped(t)
    ensures Push(h, t, k).order == t.order + [k]
  {}

  lemma DeleteHolds(h: Hash, t: Table, keys: set<nat>, k: nat)
    requires Holds(h, Some(t), keys) && k in keys
    ensures Shaped(t)
    ensures Holds(h, Delete(h, t, k), keys - {k})
  {
    hide And, Pow2;
    assert |t.order| == 1 ==> t.order == [t.order[0]];
    if t.order == [k] {
      assert keys == {k};
    } else {
      DeleteSound(h, t, k);
      WithoutFacts(t.order, k);
    }
  }

  /** HASH_SRT. */
  function Sort(cmp: MergeSort.Compare, t: Table): Table {
    t.(order := MergeSort.Sorted(cmp, t.order))
  }

  /** Sorting keeps the keys and the integrity, and leaves every chain as it is. */
  lemma SortHolds(h: Hash, t: Table, keys: set<nat>, cmp: MergeSort.Compare)
    requires Holds(h, Some(t), keys)
    ensures Holds(h, Some(Sort(cmp, t)), keys)
    ensures Sort(cmp, t).chains == t.chains
  {
    hide And, Pow2, MergeSort.Sorted, MergeSort.SortFrom;
    var r := Sort(cmp, t);
    MergeSort.SortedMembers(cmp, t.order);
    Permuted(t.order, r.order);
    forall i | 0 <= i < |r.chains| ensures ChainOk(h, r, i) { assert ChainOk(h, t, i); }
    forall k | k in r.order ensures Filed(h, r, k) { assert Filed(h, t, k); }
  }

  lemma Permuted(a: seq<nat>, b: seq<nat>)
    requires NoDup(a) && multiset(a) == multiset(b)
    ensures NoDup(b) && |a| == |b| && forall k :: k in b <==> k in a
  {
    assert |multiset(a)| == |a| && |multiset(b)| == |b|;
    forall k ensures k in b <==> k in a { assert k in multiset(a) <==> k in multiset(b); }
    forall i, j | 0 <= i < j < |b| ensures b[i] != b[j] {
      if b[i] == b[j] {
        TwiceInMultiset(b, i, j);
        OnceInMultiset(a, b[i]);
      }
    }
  }

  lemma TwiceInMultiset(b: seq<nat>, i: nat, j: nat)
    requires i < j < |b| && b[i] == b[j]
    ensures multiset(b)[b[i]] >= 2
  {
    assert b == b[..i] + [b[i]] + b[i + 1..j] + [b[j]] + b[j + 1..];
  }

  lemma {:induction false} OnceInMultiset(a: seq<nat>, x: nat)
    requires NoDup(a)
    ensures multiset(a)[x] <= 1
  {
    if a != [] {
      OnceInMultiset(a[1..], x);
      assert a == [a[0]] + a[1..];
      assert a[0] == x ==> x !in a[1..];
    }
  }

  datatype Request = Insert(k: nat) | Erase(k: nat) | Lookup(k: nat)

  /** add_page may be asked for no key that is there, remove_page for none that is not. */
  ghost predicate Legal(keys: set<nat>, reqs: seq<Request>)
    decreases |reqs|
  {
    reqs == [] ||
    match reqs[0]
    case Insert(k) => k !in keys && Legal(keys + {k}, reqs[1..])
    case Erase(k) => k in keys && Legal(keys - {k}, reqs[1..])
    case Lookup(_) => Legal(keys, reqs[1..])
  }

  /** The answers of a plain set. */
  ghost function SetAnswers(keys: set<nat>, reqs: seq<Request>): seq<bool>
    decreases |reqs|
  {
    if reqs == [] then []
    else
      match reqs[0]
      case Insert(k) => SetAnswers(keys + {k}, reqs[1..])
      case Erase(k) => SetAnswers(keys - {k}, reqs[1..])
      case Lookup(k) => [k in keys] + SetAnswers(keys, reqs[1..])
  }

  ghost function TableAnswers(h: Hash, t: Option<Table>, reqs: seq<Request>): seq<bool>
    decreases |reqs|
  {
    if reqs == [] || (t.Some? && !Shaped(t.value)) then []
    else
      match reqs[0]
      case Insert(k) => TableAnswers(h, Some(Add(h, t, k)), reqs[1..])
      case Erase(k) => TableAnswers(h, if t.Some? then Delete(h, t.value, k) else None, reqs[1..])
      case Lookup(k) => [Finds(h, t, k)] + TableAnswers(h, t, reqs[1..])
  }

  /** Any sequence of requests is answered as a plain set would answer it, however
      many doublings happen on the way. */
  lemma {:induction false} TableIsSet(h: Hash, t: Option<Table>, keys: set<nat>, reqs: seq<Request>)
    requires Holds(h, t, keys) && Legal(keys, reqs)
    ensures TableAnswers(h, t, reqs) == SetAnswers(keys, reqs)
    decreases |reqs|
  {
    hide Sound, Add, Delete, Finds, And, Pow2;
    SoundShaped(h, t);
    if reqs != [] {
      match reqs[0]
      case Insert(k) =>
        AddHolds(h, t, keys, k);
        TableIsSet(h, Some(Add(h, t, k)), keys + {k}, reqs[1..]);
      case Erase(k) =>
        DeleteHolds(h, t.value, keys, k);
        TableIsSet(h, Delete(h, t.value, k), keys - {k}, reqs[1..]);
      case Lookup(k) =>
        FindIsMember(h, t, keys, k);
        TableIsSet(h, t, keys, reqs[1..]);
    }
  }
}
