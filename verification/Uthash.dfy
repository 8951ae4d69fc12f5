/** The hash table of uthash.h on the heap, against the table value. */
module Uthash {
  import opened Links
  import opened Removal
  import M = Machine
  import H = HashTable
  import S = MergeSort

  ghost function Pushed(cs: seq<seq<nat>>, b: nat, key: nat): seq<seq<nat>> {
    if b < |cs| then cs[b := [key] + cs[b]] else cs
  }

  class Bucket {
    const chain: LinkList
    var count: nat
    var expandMult: nat

    constructor ()
      ensures fresh(chain) && chain.Valid() && chain.links == [] && count == 0 && expandMult == 0
    {
      chain := new LinkList();
      count, expandMult := 0, 0;
    }
  }

  ghost predicate Apart(buckets: seq<Bucket>) {
    forall i, j {:trigger buckets[i], buckets[j]} :: 0 <= i < j < |buckets| ==>
      buckets[i] != buckets[j] && buckets[i].chain != buckets[j].chain
  }

  ghost function ChainsOf(buckets: seq<Bucket>): set<LinkList> {
    set b | b in buckets :: b.chain
  }

  method NewBuckets(n: nat) returns (buckets: seq<Bucket>)
    ensures |buckets| == n && Apart(buckets)
    ensures forall i {:trigger buckets[i]} :: 0 <= i < n ==>
      fresh(buckets[i]) && fresh(buckets[i].chain) && buckets[i].chain.Valid() && buckets[i].chain.links == []
      && buckets[i].count == 0 && buckets[i].expandMult == 0
  {
    buckets := [];
    while |buckets| < n
      invariant |buckets| <= n && Apart(buckets)
      invariant forall i {:trigger buckets[i]} :: 0 <= i < |buckets| ==>
        fresh(buckets[i]) && fresh(buckets[i].chain) && buckets[i].chain.Valid() && buckets[i].chain.links == []
        && buckets[i].count == 0 && buckets[i].expandMult == 0
    {
      var b := new Bucket();
      buckets := buckets + [b];
    }
  }

  /** UT_hash_table. */
  class HashTable {
    const hash: H.Hash
    const app: LinkList              // all items in application order; its first is the head
    var buckets: seq<Bucket>
    var numBuckets: nat
    var log2NumBuckets: nat
    var numItems: nat
    var tail: Link?
    var idealChainMaxlen: nat
    var nonidealItems: nat
    var ineffExpands: nat
    var noexpand: bool
    ghost var hhs: map<nat, Link>    // the bucket links and the application links, by key
    ghost var apps: map<nat, Link>
    ghost var state: H.Table

    ghost predicate Hh(l: Link)
      reads this`hhs
    {
      l.key in hhs && hhs[l.key] == l && l.hashv == hash(l.key)
    }

    ghost predicate App(l: Link)
      reads this`apps
    {
      l.key in apps && apps[l.key] == l && l.hashv == hash(l.key)
    }

    ghost predicate ChainIs(b: Bucket, c: seq<nat>)
      reads this`hhs, b, b.chain, hhs.Values
    {
      && (forall i {:trigger b.chain.links[i]} :: 0 <= i < |b.chain.links| ==> Hh(b.chain.links[i]))
      && b.chain.Valid() && Keys(b.chain.links) == c && b.count == |c|
    }

    ghost predicate BucketsAgree(t: H.Table)
      reads this`buckets, this`hhs, hhs.Values, buckets, ChainsOf(buckets)
    {
      && |buckets| == |t.chains| == |t.mults| && Apart(buckets)
      && (forall i {:trigger buckets[i]} :: 0 <= i < |buckets| ==>
            buckets[i].chain != app && ChainIs(buckets[i], t.chains[i]) && buckets[i].expandMult == t.mults[i])
    }

    ghost predicate AppAgrees(order: seq<nat>)
      reads this`apps, this`tail, app, apps.Values
    {
      && (forall i {:trigger app.links[i]} :: 0 <= i < |app.links| ==> App(app.links[i]))
      && app.Valid() && Keys(app.links) == order
      && tail == if order == [] then null else app.links[|app.links| - 1]
    }

    ghost predicate Valid()
      reads this, app, apps.Values, hhs.Values, buckets, ChainsOf(buckets)
    {
      && BucketsAgree(state) && AppAgrees(state.order)
      && hhs.Keys == apps.Keys
      && numBuckets == |buckets| == H.Pow2(log2NumBuckets) && numItems == |state.order|
      && state == H.Table(log2NumBuckets, state.chains, state.mults, state.order, idealChainMaxlen, nonidealItems,
                          ineffExpands, noexpand)
    }

    /** HASH_MAKE_TABLE. */
    constructor (hash: H.Hash)
      ensures Valid() && this.hash == hash && state == H.NewTable() && hhs == map[] && apps == map[] && fresh(Repr())
    {
      hide LinkList.Valid, H.Pow2;
      this.hash := hash;
      app := new LinkList();
      buckets, numBuckets, log2NumBuckets, numItems, tail := [], H.Pow2(H.INITIAL_LOG2), H.INITIAL_LOG2, 0, null;
      idealChainMaxlen, nonidealItems, ineffExpands, noexpand := 0, 0, 0, false;
      hhs, apps, state := map[], map[], H.NewTable();
      new;
      buckets := NewBuckets(numBuckets);
      assert Keys(app.links) == [];
      forall i | 0 <= i < |buckets|
        ensures buckets[i].chain != app && ChainIs(buckets[i], state.chains[i]) && buckets[i].expandMult == state.mults[i]
      {
        assert Keys(buckets[i].chain.links) == [];
      }
    }

    // ----- adding -----

    lemma KeysAppend(s: seq<Link>, l: Link)
      ensures Keys(s + [l]) == Keys(s) + [l.key] && Keys([l] + s) == [l.key] + Keys(s)
    {}

    /** HASH_APPEND_LIST, also for the first item. */
    method AppendApp(key: nat, elmt: nat, ghost order: seq<nat>) returns (l: Link)
      requires AppAgrees(order) && key !in apps
      modifies this`tail, this`apps, app, app.links`next
      ensures apps == old(apps)[key := l] && fresh(l) && l.key == key && l.hashv == hash(key) && AppAgrees(order + [key])
      ensures forall o: LinkList :: o != app && old(allocated(o)) && old(o.Valid()) ==> o.Valid()
    {
      hide LinkList.Valid, Keys;
      l := new Link(key, hash(key), elmt);
      KeysAppend(app.links, l);
      app.PushBack(tail, l);
      tail := l;
      apps := apps[key := l];
    }

    /** The item is appended and counted. */
    method AppendOrder(key: nat, elmt: nat, ghost order: seq<nat>, ghost t: H.Table) returns (l: Link)
      requires AppAgrees(order) && BucketsAgree(t) && key !in apps
      modifies this`tail, this`apps, this`numItems, app, app.links`next
      ensures apps == old(apps)[key := l] && fresh(l) && l.key == key && l.hashv == hash(key)
      ensures AppAgrees(order + [key]) && BucketsAgree(t) && numItems == old(numItems) + 1
    {
      hide LinkList.Valid, Keys;
      l := AppendApp(key, elmt, order);
      numItems := numItems + 1;
      forall i | 0 <= i < |buckets|
        ensures buckets[i].chain != app && ChainIs(buckets[i], t.chains[i]) && buckets[i].expandMult == t.mults[i]
      {
        assert old(ChainIs(buckets[i], t.chains[i]));
      }
    }

    /** HASH_ADD_TO_BKT up to the question whether to expand. */
    method PushChain(bucket: Bucket, key: nat, elmt: nat, ghost c: seq<nat>) returns (l: Link)
      requires ChainIs(bucket, c) && key !in hhs
      modifies this`hhs, bucket`count, bucket.chain, bucket.chain.links`prev
      ensures hhs == old(hhs)[key := l] && fresh(l) && l.key == key && l.hashv == hash(key) && l.elmt == elmt
      ensures ChainIs(bucket, [key] + c)
      ensures forall o: LinkList :: o != bucket.chain && old(allocated(o)) && old(o.Valid()) ==> o.Valid()
    {
      hide LinkList.Valid, Keys;
      l := new Link(key, hash(key), elmt);
      KeysAppend(bucket.chain.links, l);
      bucket.count := bucket.count + 1;
      bucket.chain.PushFront(l);
      hhs := hhs[key := l];
    }

    /** The item is in its bucket; the table is then `u`. */
    ghost predicate WasHung(b: Bucket, c: seq<nat>, was: map<nat, Link>)
      reads b, b.chain
    {
      && Keys(b.chain.links) == c && b.count == |c|
      && forall i {:trigger b.chain.links[i]} :: 0 <= i < |b.chain.links| ==>
           var l := b.chain.links[i]; l.key in was && was[l.key] == l && l.hashv == hash(l.key)
    }

    /** A bucket without the key stays as it is when the key comes or goes elsewhere. */
    lemma OtherBucket(b: Bucket, c: seq<nat>, key: nat, was: map<nat, Link>)
      requires WasHung(b, c, was) && b.chain.Valid() && (key !in c || key !in was) && hhs - {key} == was - {key}
      ensures ChainIs(b, c)
    {
      hide LinkList.Valid;
      forall j | 0 <= j < |b.chain.links| ensures Hh(b.chain.links[j]) {
        var l := b.chain.links[j];
        assert c[j] == l.key;
        assert (hhs - {key})[l.key] == (was - {key})[l.key];
      }
    }

    method PushBucket(b: nat, key: nat, elmt: nat, ghost u: H.Table, ghost t: H.Table) returns (l: Link)
      requires AppAgrees(u.order) && BucketsAgree(t) && b < |buckets| && key !in hhs
      requires u.chains == t.chains[b := [key] + t.chains[b]] && u.mults == t.mults
      modifies this`hhs, this`state, buckets[b], buckets[b].chain, buckets[b].chain.links`prev
      ensures hhs == old(hhs)[key := l] && fresh(l) && l.key == key && l.hashv == hash(key) && l.elmt == elmt
      ensures AppAgrees(u.order) && BucketsAgree(u) && state == u
    {
      hide LinkList.Valid;
      l := PushChain(buckets[b], key, elmt, t.chains[b]);
      state := u;
      forall i | 0 <= i < |buckets| && i != b
        ensures buckets[i].chain != app && ChainIs(buckets[i], u.chains[i]) && buckets[i].expandMult == u.mults[i]
      {
        assert old(ChainIs(buckets[i], t.chains[i]));
        assert buckets[i] != buckets[b] && buckets[i].chain != buckets[b].chain;
        OtherBucket(buckets[i], t.chains[i], key, old(hhs));
      }
    }

    // ----- searching -----

    lemma ChainOf(b: nat)
      requires BucketsAgree(state) && b < |buckets|
      ensures ChainIs(buckets[b], state.chains[b]) && buckets[b].chain != app
    {}

    /** HASH_FIND_IN_BKT on the bucket of the key. */
    method Find(key: nat) returns (out: Link?)
      requires Valid()
      ensures out != null <==> key in state.chains[H.BucketOf(hash, key, |state.chains|)]
      ensures out != null ==> Hh(out) && out.key == key
    {
      hide LinkList.Valid, H.Pow2, H.And, AppAgrees;
      var b := H.BucketOf(hash, key, numBuckets);
      ChainOf(b);
      ghost var s := buckets[b].chain.links;
      Ends(buckets[b].chain);
      out := buckets[b].chain.first;
      ghost var i := 0;
      while out != null
        invariant i <= |s| && out == (if i == |s| then null else s[i])
        invariant forall j {:trigger s[j]} :: 0 <= j < i ==> s[j].key != key
        decreases |s| - i
      {
        assert Hh(s[i]);
        NextOf(buckets[b].chain, i);
        if out.hashv == hash(key) && out.key == key {
          assert state.chains[b][i] == key;
          return;
        }
        out, i := out.next, i + 1;
      }
    }

    lemma Ends(l: LinkList)
      requires l.Valid()
      ensures l.first == if l.links == [] then null else l.links[0]
    {}

    lemma NextOf(l: LinkList, i: nat)
      requires l.Valid() && i < |l.links|
      ensures l.links[i].next == if i == |l.links| - 1 then null else l.links[i + 1]
    {}

    // ----- deleting -----

    lemma {:induction false} KeysWithout(s: seq<Link>, l: Link)
      requires forall i {:trigger s[i]} :: 0 <= i < |s| && s[i].key == l.key ==> s[i] == l
      ensures Keys(Remove(s, l)) == M.Without(Keys(s), l.key)
    {
      if s != [] {
        assert Keys(s)[1..] == Keys(s[1..]);
        KeysWithout(s[1..], l);
      }
    }

    lemma {:induction false} RemoveIn(s: seq<Link>, l: Link)
      ensures forall x :: x in Remove(s, l) ==> x in s
    {
      if s != [] {
        RemoveIn(s[1..], l);
      }
    }

    lemma TailAfter(a: LinkList, l: Link)
      requires a.Valid() && l in a.links
      ensures var (last, t) := (a.links[|a.links| - 1], Remove(a.links, l));
        (if l == last then l.prev else last) == if t == [] then null else t[|t| - 1]
    {
      var k :| 0 <= k < |a.links| && a.links[k] == l;
      RemoveEnds(a.links, k);
      assert a.links[k].prev == l.prev;
    }

    /** The one link with this key. */
    lemma OneInOrder(l: Link, order: seq<nat>)
      requires AppAgrees(order) && App(l) && l.key in order
      ensures l in app.links && forall i {:trigger app.links[i]} :: 0 <= i < |app.links| && app.links[i].key == l.key ==> app.links[i] == l
    {
      var i :| 0 <= i < |order| && order[i] == l.key;
      assert app.links[i].key == l.key;
      forall j | 0 <= j < |app.links| && app.links[j].key == l.key ensures app.links[j] == l { assert App(app.links[j]); }
    }

    /** What is left when a link has gone is known by the other keys. */
    lemma RestKnown(s: seq<Link>, l: Link, known: map<nat, Link>, t: seq<Link>)
      requires forall i {:trigger s[i]} :: 0 <= i < |s| ==> s[i].key in known && known[s[i].key] == s[i] && s[i].hashv == hash(s[i].key)
      requires l in s && Distinct(s) && t == Remove(s, l)
      ensures |t| == |s| - 1
      ensures forall i {:trigger t[i]} :: 0 <= i < |t| ==>
        t[i].key != l.key && t[i].key in known && known[t[i].key] == t[i] && t[i].hashv == hash(t[i].key)
    {
      var k :| 0 <= k < |s| && s[k] == l;
      RemoveEnds(s, k);
      forall i | 0 <= i < |t| ensures t[i] in s && t[i].key != l.key {
        var j :| 0 <= j < |s| && s[j] == t[i];
      }
    }

    /** The part of HASH_DELETE_HH that patches the application order. */
    method UnlinkApp(l: Link, ghost order: seq<nat>)
      requires AppAgrees(order) && App(l) && l.key in order
      modifies this`tail, this`apps, app, app.links
      ensures apps == old(apps) - {l.key} && AppAgrees(M.Without(order, l.key)) && buckets == old(buckets) && hhs == old(hhs)
      ensures forall o: LinkList :: o != app && old(allocated(o)) && old(o.Valid()) ==> o.Valid()
    {
      hide LinkList.Valid, Keys, Remove, Distinct, M.Without;
      OneInOrder(l, order);
      KeysWithout(app.links, l);
      TailAfter(app, l);
      DistinctLinks(app);
      ghost var rest := Remove(app.links, l);
      RestKnown(app.links, l, apps, rest);
      if l == tail {
        tail := l.prev;
      }
      app.Unlink(l);
      apps := apps - {l.key};
    }

    method UnlinkOrder(l: Link, ghost order: seq<nat>, ghost t: H.Table)
      requires AppAgrees(order) && BucketsAgree(t) && App(l) && l.key in order && numItems > 0
      modifies this`tail, this`apps, this`numItems, app, app.links
      ensures apps == old(apps) - {l.key} && numItems == old(numItems) - 1 && buckets == old(buckets) && hhs == old(hhs)
      ensures AppAgrees(M.Without(order, l.key)) && BucketsAgree(t)
    {
      hide LinkList.Valid, Keys;
      UnlinkApp(l, order);
      numItems := numItems - 1;
      forall i | 0 <= i < |buckets|
        ensures buckets[i].chain != app && ChainIs(buckets[i], t.chains[i]) && buckets[i].expandMult == t.mults[i]
      {
        assert old(ChainIs(buckets[i], t.chains[i]));
      }
    }

    lemma OneInChain(bucket: Bucket, c: seq<nat>, l: Link)
      requires ChainIs(bucket, c) && Hh(l) && l.key in c
      ensures var s := bucket.chain.links;
        l in s && forall i {:trigger s[i]} :: 0 <= i < |s| && s[i].key == l.key ==> s[i] == l
    {
      var s := bucket.chain.links;
      var i :| 0 <= i < |c| && c[i] == l.key;
      assert s[i].key == l.key && Hh(s[i]);
      forall j | 0 <= j < |s| && s[j].key == l.key ensures s[j] == l { assert Hh(s[j]); }
    }

    /** HASH_DEL_IN_BKT. */
    method UnlinkChain(bucket: Bucket, l: Link, ghost c: seq<nat>)
      requires ChainIs(bucket, c) && Hh(l) && l.key in c
      modifies this`hhs, bucket`count, bucket.chain, bucket.chain.links
      ensures hhs == old(hhs) - {l.key} && ChainIs(bucket, M.Without(c, l.key)) && buckets == old(buckets) && apps == old(apps)
      ensures forall o: LinkList :: o != bucket.chain && old(allocated(o)) && old(o.Valid()) ==> o.Valid()
    {
      hide LinkList.Valid, Keys;
      OneInChain(bucket, c, l);
      KeysWithout(bucket.chain.links, l);
      DistinctLinks(bucket.chain);
      ghost var rest := Remove(bucket.chain.links, l);
      RestKnown(bucket.chain.links, l, hhs, rest);
      bucket.count := bucket.count - 1;
      bucket.chain.Unlink(l);
      hhs := hhs - {l.key};
    }

    /** The item is gone; the table is then `u`. */
    method UnlinkBucket(b: nat, l: Link, ghost u: H.Table, ghost t: H.Table)
      requires AppAgrees(u.order) && BucketsAgree(t) && b < |buckets| && Hh(l) && l.key in t.chains[b]
      requires forall i {:trigger t.chains[i]} :: 0 <= i < |t.chains| && i != b ==> l.key !in t.chains[i]
      requires u.chains == t.chains[b := M.Without(t.chains[b], l.key)] && u.mults == t.mults
      modifies this`hhs, this`state, buckets[b], buckets[b].chain, buckets[b].chain.links
      ensures hhs == old(hhs) - {l.key} && state == u && buckets == old(buckets) && apps == old(apps)
      ensures AppAgrees(u.order) && BucketsAgree(u)
    {
      hide LinkList.Valid, M.Without;
      assert app.Valid();
      UnlinkChain(buckets[b], l, t.chains[b]);
      assert app.Valid();
      state := u;
      forall i | 0 <= i < |buckets| && i != b
        ensures buckets[i].chain != app && ChainIs(buckets[i], u.chains[i]) && buckets[i].expandMult == u.mults[i]
      {
        assert old(ChainIs(buckets[i], t.chains[i]));
        assert buckets[i] != buckets[b] && buckets[i].chain != buckets[b].chain;
        OtherBucket(buckets[i], t.chains[i], l.key, old(hhs));
      }
    }

    lemma DistinctLinks(l: LinkList)
      requires l.Valid()
      ensures Distinct(l.links)
    {}

    // ----- doubling -----

    /** The new buckets `nb` hold the chains `cs`. */
    ghost predicate Doubling(nb: seq<Bucket>, cs: seq<seq<nat>>, ideal: nat)
      reads this`hhs, hhs.Values, nb, ChainsOf(nb)
    {
      && |nb| == |cs| && Apart(nb)
      && forall k {:trigger nb[k]} :: 0 <= k < |nb| ==>
           nb[k].chain != app && ChainIs(nb[k], cs[k]) && nb[k].expandMult == H.MultAfter(|cs[k]|, ideal)
    }

    /** One item is hung in front of its new chain, and counted. */
    method HangItem(bucket: Bucket, l: Link, ghost c: seq<nat>)
      requires ChainIs(bucket, c) && Hh(l) && l.owner == null && bucket.expandMult == H.MultAfter(|c|, idealChainMaxlen)
      modifies bucket, bucket.chain, l, bucket.chain.links`prev, this`nonidealItems
      ensures ChainIs(bucket, [l.key] + c) && bucket.expandMult == H.MultAfter(|c| + 1, idealChainMaxlen)
      ensures nonidealItems == old(nonidealItems) + if |c| + 1 > idealChainMaxlen then 1 else 0
      ensures forall o: LinkList :: o != bucket.chain && old(allocated(o)) && old(o.Valid()) ==> o.Valid()
      ensures forall o: Link {:trigger o.owner} :: old(allocated(o)) && o != l ==> o.owner == old(o.owner)
    {
      hide LinkList.Valid, Keys;
      KeysAppend(bucket.chain.links, l);
      bucket.count := bucket.count + 1;
      if bucket.count > idealChainMaxlen {
        nonidealItems := nonidealItems + 1;
        if bucket.count > bucket.expandMult * idealChainMaxlen {
          bucket.expandMult := bucket.expandMult + 1;
        }
      }
      bucket.chain.PushFront(l);
    }

    method MoveItem(nb: seq<Bucket>, b: nat, l: Link, ghost cs: seq<seq<nat>>)
      requires Doubling(nb, cs, idealChainMaxlen) && b < |nb| && Hh(l) && l.owner == null
      requires nonidealItems == H.Over(cs, idealChainMaxlen)
      modifies nb[b], nb[b].chain, l, nb[b].chain.links`prev, this`nonidealItems
      ensures Doubling(nb, Pushed(cs, b, l.key), idealChainMaxlen)
      ensures nonidealItems == H.Over(Pushed(cs, b, l.key), idealChainMaxlen)
      ensures forall o: LinkList :: o != nb[b].chain && old(allocated(o)) && old(o.Valid()) ==> o.Valid()
      ensures forall o: Link {:trigger o.owner} :: old(allocated(o)) && o != l ==> o.owner == old(o.owner)
    {
      hide LinkList.Valid, Keys, H.Over, H.MultAfter;
      H.OverMore(cs, b, [l.key] + cs[b], idealChainMaxlen);
      HangItem(nb[b], l, cs[b]);
      forall k | 0 <= k < |nb| && k != b
        ensures nb[k].chain != app && ChainIs(nb[k], cs[k]) && nb[k].expandMult == H.MultAfter(|cs[k]|, idealChainMaxlen)
      {
        assert old(ChainIs(nb[k], cs[k]));
        assert nb[k] != nb[b] && nb[k].chain != nb[b].chain;
      }
    }

    /** The buckets from `i` on still hold their chains. */
    ghost predicate Waiting(chains: seq<seq<nat>>, i: nat)
      reads this`hhs, this`buckets, hhs.Values, buckets, ChainsOf(buckets)
    {
      && |buckets| == |chains| && Apart(buckets)
      && forall j {:trigger buckets[j]} :: i <= j < |buckets| ==> buckets[j].chain != app && ChainIs(buckets[j], chains[j])
    }

    ghost predicate OldAndNew(nb: seq<Bucket>)
      reads this`buckets
    {
      forall j, k {:trigger buckets[j], nb[k]} :: 0 <= j < |buckets| && 0 <= k < |nb| ==>
        buckets[j] != nb[k] && buckets[j].chain != nb[k].chain
    }

    /** The links of a chain that is being taken apart, from `p` on. */
    ghost predicate Loose(s: seq<Link>, p: nat)
      reads this`hhs, s
    {
      forall j {:trigger s[j]} :: p <= j < |s| ==>
        s[j].owner == null && s[j].next == (if j == |s| - 1 then null else s[j + 1]) && Hh(s[j])
    }

    lemma ChainFacts(b: Bucket, c: seq<nat>)
      requires ChainIs(b, c)
      ensures var s := b.chain.links;
        && b.chain.first == (if s == [] then null else s[0])
        && |s| == |c| && Distinct(s) && (forall j {:trigger s[j]} :: 0 <= j < |s| ==> Hh(s[j]) && s[j].key == c[j])
    {}

    /** The first of the loose links has gone; the others are as they were. */
    method MoveFirst(nb: seq<Bucket>, b: nat, l: Link, ghost cs: seq<seq<nat>>, ghost s: seq<Link>, ghost p: nat,
                     ghost chains: seq<seq<nat>>, ghost i: nat)
      requires Doubling(nb, cs, idealChainMaxlen) && b < |nb| && nonidealItems == H.Over(cs, idealChainMaxlen)
      requires Loose(s, p) && Distinct(s) && p < |s| && l == s[p] && Waiting(chains, i) && OldAndNew(nb) && app.Valid()
      modifies nb, ChainsOf(nb)
      modifies hhs.Values, this`nonidealItems
      ensures Doubling(nb, Pushed(cs, b, l.key), idealChainMaxlen)
      ensures nonidealItems == H.Over(Pushed(cs, b, l.key), idealChainMaxlen)
      ensures hhs == old(hhs) && Loose(s, p + 1) && Waiting(chains, i) && app.Valid()
      ensures forall j :: p + 1 <= j < |s| ==> s[j].next == old(s[j].next)
    {
      hide LinkList.Valid, Keys, H.Over;
      assert Hh(l) && ChainIs(nb[b], cs[b]);
      MoveItem(nb, b, l, cs);
      assert forall j :: p + 1 <= j < |s| ==> s[j] != l;
      forall j | i <= j < |buckets| ensures buckets[j].chain != app && ChainIs(buckets[j], chains[j]) {
        assert old(ChainIs(buckets[j], chains[j]));
        assert buckets[j] != nb[b] && buckets[j].chain != nb[b].chain;
      }
    }

    /** Taking the chain of bucket `i` apart leaves the new and the later buckets as
        they are. */
    ghost method DisbandChain(nb: seq<Bucket>, i: nat, chains: seq<seq<nat>>, cs: seq<seq<nat>>)
      requires Doubling(nb, cs, idealChainMaxlen) && Waiting(chains, i) && i < |buckets| && OldAndNew(nb) && app.Valid()
      modifies hhs.Values
      ensures hhs == old(hhs)
      ensures Doubling(nb, cs, idealChainMaxlen) && Waiting(chains, i + 1) && app.Valid()
      ensures Loose(old(buckets[i].chain.links), 0)
    {
      hide LinkList.Valid, Keys;
      ghost var s := buckets[i].chain.links;
      ChainFacts(buckets[i], chains[i]);
      assert forall l :: l in s ==> l in hhs.Values;
      buckets[i].chain.Disband();
      forall k | 0 <= k < |nb|
        ensures nb[k].chain != app && ChainIs(nb[k], cs[k]) && nb[k].expandMult == H.MultAfter(|cs[k]|, idealChainMaxlen)
      {
        assert old(ChainIs(nb[k], cs[k]));
        assert buckets[i].chain != nb[k].chain;
      }
      forall j | i + 1 <= j < |buckets| ensures buckets[j].chain != app && ChainIs(buckets[j], chains[j]) {
        assert old(ChainIs(buckets[j], chains[j]));
        assert buckets[i].chain != buckets[j].chain;
      }
    }

    /** How far the doubling has come: `i` buckets and `p` items of the next are moved. */
    ghost predicate Midway(nb: seq<Bucket>, chains: seq<seq<nat>>, i: nat, p: nat)
      reads this, app, app.links, hhs.Values, nb, ChainsOf(nb)
    {
      && |nb| == 2 * |chains| && |chains| == numBuckets == H.Pow2(log2NumBuckets)
      && (i < |chains| ==> p <= |chains[i]|)
      && Doubling(nb, H.Moved(hash, chains, i, p), idealChainMaxlen)
      && nonidealItems == H.Over(H.Moved(hash, chains, i, p), idealChainMaxlen)
      && OldAndNew(nb) && app.Valid()
    }

    lemma NextMoved(l: Link, b: nat, chains: seq<seq<nat>>, n: nat, log2: nat, i: nat, p: nat)
      requires Hh(l) && |chains| == n == H.Pow2(log2) && b == H.And(l.hashv, n * 2 - 1)
      requires i < |chains| && p < |chains[i]| && l.key == chains[i][p] && H.BucketOf(hash, l.key, |chains|) == i
      ensures b < 2 * |chains|
      ensures H.Moved(hash, chains, i, p + 1) == Pushed(H.Moved(hash, chains, i, p), b, l.key)
    {
      hide H.And, H.Pow2, H.Moved, H.MovedTo;
      H.MovedMore(hash, chains, log2, i, p);
    }

    /** The body of the inner loop of HASH_EXPAND_BUCKETS. */
    method MoveNext(nb: seq<Bucket>, thh: Link, ghost chains: seq<seq<nat>>, ghost i: nat, ghost s: seq<Link>, ghost p: nat)
        returns (next: Link?)
      requires i < |chains| && |s| == |chains[i]| && p < |s| && thh == s[p] && thh.key == chains[i][p]
      requires Loose(s, p) && Distinct(s) && Waiting(chains, i + 1) && Midway(nb, chains, i, p)
      requires H.BucketOf(hash, thh.key, |chains|) == i
      modifies nb, ChainsOf(nb), hhs.Values, this`nonidealItems
      ensures next == (if p + 1 == |s| then null else s[p + 1])
      ensures Loose(s, p + 1) && Waiting(chains, i + 1) && Midway(nb, chains, i, p + 1)
    {
      hide LinkList.Valid, Keys, H.Over, H.Moved, H.MovedTo, H.And, H.BucketOf, H.Pow2, Doubling, Waiting, ChainsOf, OldAndNew, Pushed;
      next := thh.next;
      assert Hh(s[p]);
      var b := H.And(thh.hashv, numBuckets * 2 - 1);
      NextMoved(thh, b, chains, numBuckets, log2NumBuckets, i, p);
      MoveFirst(nb, b, thh, H.Moved(hash, chains, i, p), s, p, chains, i + 1);
    }

    /** The inner loop of HASH_EXPAND_BUCKETS: bucket `i` is emptied into the new ones. */
    method MoveChain(nb: seq<Bucket>, i: nat, ghost chains: seq<seq<nat>>)
      requires i < |buckets| && Midway(nb, chains, i, 0) && Waiting(chains, i)
      requires forall k :: k in chains[i] ==> H.BucketOf(hash, k, |chains|) == i
      modifies nb, ChainsOf(nb), hhs.Values, this`nonidealItems
      ensures Midway(nb, chains, i + 1, 0) && Waiting(chains, i + 1)
    {
      hide LinkList.Valid, Keys, H.Over, H.MovedTo, H.Moved, H.BucketOf, H.And, H.Pow2, Doubling, Waiting, ChainsOf, OldAndNew, Midway;
      WaitingChain(chains, i);
      MidwayFacts(nb, chains, i, 0);
      ChainFacts(buckets[i], chains[i]);
      ghost var s := buckets[i].chain.links;
      var thh := buckets[i].chain.first;
      DisbandMidway(nb, i, chains);
      ghost var p := 0;
      while thh != null
        invariant p <= |s| && thh == (if p == |s| then null else s[p])
        invariant hhs == old(hhs) && Loose(s, p) && Waiting(chains, i + 1) && Midway(nb, chains, i, p)
        decreases |s| - p
      {
        assert s[p].key == chains[i][p];
        thh := MoveNext(nb, thh, chains, i, s, p);
        p := p + 1;
      }
      MidwayNext(nb, chains, i);
    }

    lemma WaitingChain(chains: seq<seq<nat>>, i: nat)
      requires Waiting(chains, i) && i < |buckets|
      ensures |buckets| == |chains| && ChainIs(buckets[i], chains[i])
    {}

    lemma MidwayFacts(nb: seq<Bucket>, chains: seq<seq<nat>>, i: nat, p: nat)
      requires Midway(nb, chains, i, p)
      ensures Doubling(nb, H.Moved(hash, chains, i, p), idealChainMaxlen) && OldAndNew(nb) && app.Valid()
    {}

    lemma MidwayNext(nb: seq<Bucket>, chains: seq<seq<nat>>, i: nat)
      requires i < |chains| && Midway(nb, chains, i, |chains[i]|)
      ensures Midway(nb, chains, i + 1, 0)
    {
      hide Doubling, H.Moved, H.Over, H.Pow2;
      H.MovedBucket(hash, chains, i);
    }

    ghost method DisbandMidway(nb: seq<Bucket>, i: nat, chains: seq<seq<nat>>)
      requires Midway(nb, chains, i, 0) && Waiting(chains, i) && i < |buckets|
      modifies hhs.Values
      ensures hhs == old(hhs) && Midway(nb, chains, i, 0) && Waiting(chains, i + 1)
      ensures Loose(old(buckets[i].chain.links), 0)
    {
      hide Doubling, Waiting, H.Moved, H.Over, H.Pow2, OldAndNew;
      DisbandChain(nb, i, chains, H.Moved(hash, chains, i, 0));
    }

    lemma MidwayStart(nb: seq<Bucket>, chains: seq<seq<nat>>)
      requires |nb| == 2 * |chains| && |chains| == numBuckets == H.Pow2(log2NumBuckets) && Apart(nb)
      requires forall k {:trigger nb[k]} :: 0 <= k < |nb| ==>
        nb[k].chain != app && nb[k].chain.Valid() && nb[k].chain.links == [] && nb[k].count == 0 && nb[k].expandMult == 0
      requires OldAndNew(nb) && app.Valid() && nonidealItems == 0
      ensures Midway(nb, chains, 0, 0)
    {
      hide LinkList.Valid;
      var cs := H.Moved(hash, chains, 0, 0);
      H.MovedNothing(hash, chains);
      H.OverNothing(cs, idealChainMaxlen);
      forall k | 0 <= k < |nb|
        ensures ChainIs(nb[k], cs[k]) && nb[k].expandMult == H.MultAfter(|cs[k]|, idealChainMaxlen)
      {
        assert Keys(nb[k].chain.links) == [] == cs[k];
      }
    }

    lemma AppStill(order: seq<nat>)
      requires app.Valid() && Keys(app.links) == order && (order == [] <==> app.links == [])
      requires forall i {:trigger app.links[i]} :: 0 <= i < |app.links| ==> App(app.links[i])
      requires tail == if order == [] then null else app.links[|app.links| - 1]
      ensures AppAgrees(order)
    {}

    /** The outer loop of HASH_EXPAND_BUCKETS. */
    method MoveChains(nb: seq<Bucket>, ghost chains: seq<seq<nat>>, ghost order: seq<nat>)
      requires |chains| == |buckets| == numBuckets && Midway(nb, chains, 0, 0) && Waiting(chains, 0)
      requires forall i, k {:trigger k in chains[i]} :: 0 <= i < |chains| && k in chains[i] ==> H.BucketOf(hash, k, |chains|) == i
      requires AppAgrees(order) && app !in ChainsOf(nb)
      modifies nb, ChainsOf(nb), hhs.Values, this`nonidealItems
      ensures Midway(nb, chains, numBuckets, 0) && AppAgrees(order)
    {
      hide LinkList.Valid, H.Pow2, H.Moved, H.Over, H.And, H.BucketOf, Midway, Waiting, ChainsOf, Keys;
      var i := 0;
      while i < numBuckets
        invariant i <= numBuckets && hhs == old(hhs) && Midway(nb, chains, i, 0) && Waiting(chains, i)
      {
        MoveChain(nb, i, chains);
        i := i + 1;
      }
      MidwayFacts(nb, chains, numBuckets, 0);
      forall j | 0 <= j < |app.links| ensures App(app.links[j]) { assert old(App(app.links[j])); }
      AppStill(order);
    }

    lemma StillWaiting(chains: seq<seq<nat>>)
      requires |buckets| == |chains| && Apart(buckets)
      requires forall j {:trigger buckets[j]} :: 0 <= j < |buckets| ==> buckets[j].chain != app && ChainIs(buckets[j], chains[j])
      ensures Waiting(chains, 0)
    {}

    lemma FiledRight()
      requires H.Sound(hash, state)
      ensures forall i, k {:trigger k in state.chains[i]} :: 0 <= i < |state.chains| && k in state.chains[i] ==>
        H.BucketOf(hash, k, |state.chains|) == i
    {
      hide H.BucketOf;
      forall i, k | 0 <= i < |state.chains| && k in state.chains[i] ensures H.BucketOf(hash, k, |state.chains|) == i {
        assert H.ChainOk(hash, state, i);
      }
    }

    lemma ExpandFields(t: H.Table)
      requires H.Shaped(t)
      ensures var u := H.Expand(hash, t);
        && u.log2 == t.log2 + 1 && H.Pow2(u.log2) == |u.chains| == |u.mults| == 2 * |t.chains|
        && u.chains == H.Moved(hash, t.chains, |t.chains|, 0) && u.order == t.order
        && u.ideal == H.IdealLength(|t.order|, t.log2, |t.chains|) && u.nonideal == H.Over(u.chains, u.ideal)
        && u.ineff == (if u.nonideal > |t.order| / 2 then t.ineff + 1 else 0)
        && u.noexpand == (t.noexpand || u.ineff > 1)
        && forall k {:trigger u.mults[k]} :: 0 <= k < |u.mults| ==> u.mults[k] == H.MultAfter(|u.chains[k]|, u.ideal)
    {
      hide H.IdealLength, H.Over, H.MultAfter, H.Moved;
      H.MovedAll(hash, t.chains);
    }

    /** The new buckets replace the old ones. */
    method AdoptBuckets(nb: seq<Bucket>, ghost t: H.Table)
      requires Midway(nb, t.chains, numBuckets, 0) && H.Shaped(t)
      requires AppAgrees(t.order) && hhs.Keys == apps.Keys && numItems == |t.order|
      requires t == H.Table(log2NumBuckets, t.chains, t.mults, t.order, t.ideal, t.nonideal, ineffExpands, noexpand)
      requires idealChainMaxlen == H.IdealLength(|t.order|, t.log2, |t.chains|)
      modifies this`buckets, this`numBuckets, this`log2NumBuckets, this`ineffExpands, this`noexpand, this`state
      ensures Valid() && state == H.Expand(hash, t) && buckets == nb
    {
      hide LinkList.Valid, H.Over, H.And, H.BucketOf, H.Moved, H.Doubled, H.IdealLength, H.MultAfter, Keys, H.Expand, H.Pow2, AppAgrees;
      ExpandFields(t);
      ghost var u := H.Expand(hash, t);
      buckets := nb;
      numBuckets := numBuckets * 2;
      log2NumBuckets := log2NumBuckets + 1;
      ineffExpands := if nonidealItems > numItems / 2 then ineffExpands + 1 else 0;
      if ineffExpands > 1 {
        noexpand := true;
      }
      state := u;
      forall k | 0 <= k < |buckets|
        ensures buckets[k].chain != app && ChainIs(buckets[k], u.chains[k]) && buckets[k].expandMult == u.mults[k]
      {
        assert old(ChainIs(nb[k], u.chains[k]) && nb[k].expandMult == H.MultAfter(|u.chains[k]|, idealChainMaxlen));
      }
    }

    /** Twice as many empty buckets, and the ideal length for them. */
    method StartExpand(ghost t: H.Table) returns (nb: seq<Bucket>)
      requires BucketsAgree(t) && AppAgrees(t.order) && numBuckets == |buckets| == H.Pow2(log2NumBuckets)
      modifies this`idealChainMaxlen, this`nonidealItems
      ensures Midway(nb, t.chains, 0, 0) && Waiting(t.chains, 0) && AppAgrees(t.order)
      ensures idealChainMaxlen == H.IdealLength(numItems, log2NumBuckets, numBuckets)
      ensures app !in ChainsOf(nb) && fresh(ChainsOf(nb)) && fresh(nb)
    {
      hide LinkList.Valid, H.Pow2, H.Moved, H.Over, H.And, H.BucketOf, H.IdealLength, Midway, Waiting, Keys;
      nb := NewBuckets(2 * numBuckets);
      idealChainMaxlen := H.IdealLength(numItems, log2NumBuckets, numBuckets);
      nonidealItems := 0;
      forall j | 0 <= j < |buckets| ensures buckets[j].chain != app && ChainIs(buckets[j], t.chains[j]) {
        assert old(ChainIs(buckets[j], t.chains[j]));
      }
      StillWaiting(t.chains);
      MidwayStart(nb, t.chains);
      forall j | 0 <= j < |app.links| ensures App(app.links[j]) { assert old(App(app.links[j])); }
      AppStill(t.order);
    }

    /** HASH_EXPAND_BUCKETS. */
    method Expand()
      requires Valid() && H.Sound(hash, state)
      modifies this, hhs.Values
      ensures Valid() && state == H.Expand(hash, old(state)) && hhs == old(hhs) && apps == old(apps)
      ensures fresh(buckets) && fresh(ChainsOf(buckets))
    {
      hide LinkList.Valid, H.Pow2, H.Moved, H.Over, H.And, H.BucketOf, H.IdealLength, Midway, Waiting, H.Expand, AppAgrees, BucketsAgree;
      ghost var t := state;
      FiledRight();
      SameSize();
      var nb := StartExpand(t);
      MoveChains(nb, t.chains, t.order);
      AdoptBuckets(nb, t);
    }

    lemma SameSize()
      requires BucketsAgree(state)
      ensures |buckets| == |state.chains| == |state.mults|
    {}

    // ----- the operations -----

    ghost function Repr(): set<object>
      reads this
    {
      {this, app} + hhs.Values + apps.Values + (set b | b in buckets) + ChainsOf(buckets)
    }

    lemma PushFields(t: H.Table, key: nat)
      requires H.Shaped(t)
      ensures var (u, b) := (H.Push(hash, t, key), H.BucketOf(hash, key, |t.chains|));
        u == t.(chains := t.chains[b := [key] + t.chains[b]], order := t.order + [key])
    {}

    /** HASH_APPEND_LIST and HASH_ADD_TO_BKT up to the question whether to expand. */
    method AddLinks(key: nat, elmt: nat, b: nat) returns (order: Link, chain: Link)
      requires Valid() && key !in hhs && |state.chains| > 0 && b == H.BucketOf(hash, key, |state.chains|) && b < |buckets|
      modifies this`tail, this`apps, this`hhs, this`numItems, this`state
      modifies app, app.links`next, buckets[b], buckets[b].chain, buckets[b].chain.links`prev
      ensures Valid() && H.Shaped(old(state)) && state == H.Push(hash, old(state), key)
      ensures hhs == old(hhs)[key := chain] && fresh(chain) && Hh(chain) && chain.key == key && chain.elmt == elmt
      ensures apps == old(apps)[key := order] && fresh(order) && App(order) && order.key == key
    {
      hide LinkList.Valid, H.Pow2, H.Over, H.And, H.Push, H.BucketOf, AppAgrees, BucketsAgree;
      SameSize();
      PushFields(state, key);
      ghost var t := state;
      ChainOf(b);
      order := AppendOrder(key, elmt, t.order, t);
      chain := PushBucket(b, key, elmt, H.Push(hash, t, key), t);
    }

    /** The frames of the parts lie in the whole. */
    lemma InRepr(b: nat)
      requires Valid() && b < |buckets|
      ensures this in Repr() && app in Repr() && forall l :: l in app.links ==> l in Repr()
      ensures buckets[b] in Repr() && buckets[b].chain in Repr() && forall l :: l in buckets[b].chain.links ==> l in Repr()
    {
      hide LinkList.Valid;
      assert ChainIs(buckets[b], state.chains[b]);
      forall l | l in app.links ensures l in apps.Values {
        var i :| 0 <= i < |app.links| && app.links[i] == l;
        assert App(app.links[i]);
      }
      forall l | l in buckets[b].chain.links ensures l in hhs.Values {
        var i :| 0 <= i < |buckets[b].chain.links| && buckets[b].chain.links[i] == l;
        assert Hh(buckets[b].chain.links[i]);
      }
    }

    lemma BucketFull(b: nat)
      requires Valid() && b < |buckets|
      ensures H.Shaped(state)
      ensures H.Full(state, b) <==> buckets[b].count >= (buckets[b].expandMult + 1) * H.CAPACITY_THRESH && !noexpand
    {
      hide LinkList.Valid;
      assert ChainIs(buckets[b], state.chains[b]);
    }

    /** HASH_ADD_KEYPTR_BYHASHVALUE for a table that is there. */
    method Add(key: nat, elmt: nat) returns (order: Link, chain: Link)
      requires Valid() && H.Sound(hash, state) && key !in hhs && key !in state.order
      modifies Repr()
      ensures Valid() && H.Shaped(old(state)) && state == H.Add(hash, M.Some(old(state)), key)
      ensures hhs == old(hhs)[key := chain] && fresh(chain) && Hh(chain) && chain.key == key && chain.elmt == elmt
      ensures apps == old(apps)[key := order] && fresh(order) && App(order) && order.key == key
      ensures fresh(Repr() - old(Repr()))
    {
      hide LinkList.Valid, H.Pow2, H.Over, H.And, H.Push, H.BucketOf, H.Sound, H.Expand, Valid, H.Full;
      SomeBuckets();
      var b := H.BucketOf(hash, key, numBuckets);
      InRepr(b);
      H.PushSound(hash, state, key);
      ghost var (was, wasApps, repr) := (hhs, apps, Repr());
      order, chain := AddLinks(key, elmt, b);
      SomeBuckets();
      MoreObjects(was, wasApps, key, order, chain, repr);
      ExpandFull(b);
    }

    lemma MoreObjects(was: map<nat, Link>, wasApps: map<nat, Link>, key: nat, order: Link, chain: Link, repr: set<object>)
      requires hhs == was[key := chain] && apps == wasApps[key := order]
      requires repr == {this, app} + was.Values + wasApps.Values + (set b | b in buckets) + ChainsOf(buckets)
      ensures Repr() <= repr + {order, chain}
    {}

    /** The bucket that has just got the item may ask for a doubling. */
    method ExpandFull(b: nat)
      requires Valid() && H.Sound(hash, state) && b < |buckets|
      modifies this, hhs.Values
      ensures Valid() && H.Shaped(old(state)) && state == (if H.Full(old(state), b) then H.Expand(hash, old(state)) else old(state))
      ensures hhs == old(hhs) && apps == old(apps)
      ensures buckets == old(buckets) || (fresh(buckets) && fresh(ChainsOf(buckets)))
    {
      hide LinkList.Valid, H.Pow2, H.Over, H.And, H.Push, H.BucketOf, H.Sound, H.Expand, Valid, H.Full;
      SomeBuckets();
      BucketFull(b);
      if buckets[b].count >= (buckets[b].expandMult + 1) * H.CAPACITY_THRESH && !noexpand {
        Expand();
      }
    }

    lemma DeleteFields(t: H.Table, key: nat)
      requires H.Sound(hash, t) && key in t.order && t.order != [key]
      ensures H.Delete(hash, t, key).Some?
      ensures var (u, b) := (H.Delete(hash, t, key).value, H.BucketOf(hash, key, |t.chains|));
        && u == t.(chains := t.chains[b := M.Without(t.chains[b], key)], order := M.Without(t.order, key))
        && key in t.chains[b] && (forall i {:trigger t.chains[i]} :: 0 <= i < |t.chains| && i != b ==> key !in t.chains[i])
        && |u.order| == |t.order| - 1
    {
      hide H.And, H.Pow2;
      M.WithoutFacts(t.order, key);
      assert H.Filed(hash, t, key);
      forall i | 0 <= i < |t.chains| && key in t.chains[i] ensures i == H.BucketOf(hash, key, |t.chains|) {
        assert H.ChainOk(hash, t, i);
      }
    }

    /** The patch-up of HASH_DELETE_HH for an item that is not the last one. */
    method DeleteLinks(app': Link, hh: Link, b: nat)
      requires Valid() && H.Sound(hash, state) && App(app') && Hh(hh) && app'.key == hh.key && hh.key in state.order
      requires state.order != [hh.key] && b == H.BucketOf(hash, hh.key, |state.chains|) && b < |buckets|
      modifies this`tail, this`apps, this`hhs, this`numItems, this`state
      modifies app, app.links, buckets[b], buckets[b].chain, buckets[b].chain.links
      ensures Valid() && state == H.Delete(hash, old(state), hh.key).value
      ensures hhs == old(hhs) - {hh.key} && apps == old(apps) - {hh.key} && buckets == old(buckets)
    {
      hide LinkList.Valid, H.Pow2, H.Over, H.And, H.Delete, H.BucketOf, AppAgrees, BucketsAgree, H.Sound;
      SameSize();
      DeleteFields(state, hh.key);
      ghost var t := state;
      ChainOf(b);
      UnlinkOrder(app', t.order, t);
      UnlinkBucket(b, hh, H.Delete(hash, t, hh.key).value, t);
    }

    lemma SomeBuckets()
      requires Valid()
      ensures |state.chains| == |buckets| == numBuckets > 0
    {}

    /** An item without neighbours is the only one. */
    lemma Alone(l: Link)
      requires AppAgrees(state.order) && App(l) && l.key in state.order
      ensures l.prev == null && l.next == null <==> state.order == [l.key]
    {
      OneInOrder(l, state.order);
      var i :| 0 <= i < |app.links| && app.links[i] == l;
      assert app.links[i].prev == l.prev && app.links[i].next == l.next;
      assert |state.order| == |app.links|;
      assert Keys(app.links)[i] == l.key;
    }

    // ----- the table against a map -----

    /** The items are exactly the keys of `elmts`, each with its element. */
    ghost predicate Serves(elmts: map<nat, nat>)
      reads this, Repr()
    {
      && Valid() && H.Holds(hash, M.Some(state), elmts.Keys) && hhs.Keys == elmts.Keys
      && forall k {:trigger hhs[k]} :: k in hhs ==> hhs[k].elmt == elmts[k]
    }

    lemma SameAdd(t: M.Option<H.Table>, s: H.Table, va: nat)
      requires H.Shaped(s) && (t.Some? ==> s == t.value) && (t == M.None ==> s == H.NewTable())
      ensures H.Add(hash, t, va) == H.Add(hash, M.Some(s), va)
    {}

    /** HASH_ADD when the table is there (`t`), or has just been made (none). */
    method AddItem(ghost t: M.Option<H.Table>, va: nat, elmt: nat, ghost elmts: map<nat, nat>) returns (order: Link, chain: Link)
      requires Valid() && state == (if t.Some? then t.value else H.NewTable()) && H.Sound(hash, state)
      requires H.Holds(hash, t, elmts.Keys) && va !in elmts && va !in state.order
      requires hhs.Keys == elmts.Keys && forall k {:trigger hhs[k]} :: k in hhs ==> hhs[k].elmt == elmts[k]
      modifies Repr()
      ensures Serves(elmts[va := elmt]) && fresh(Repr() - old(Repr()))
      ensures App(order) && Hh(chain) && order.key == chain.key == va
    {
      hide Valid, H.And, H.Pow2, H.Sound, H.Add, H.Holds, Repr;
      H.AddHolds(hash, t, elmts.Keys, va);
      SoundShaped();
      SameAdd(t, state, va);
      order, chain := Add(va, elmt);
      assert elmts[va := elmt].Keys == elmts.Keys + {va};
    }

    lemma Served(elmts: map<nat, nat>)
      requires Serves(elmts)
      ensures Valid() && H.Sound(hash, state) && H.Holds(hash, M.Some(state), elmts.Keys)
      ensures forall k :: k in state.order <==> k in elmts
    {}

    lemma InOrder(l: Link, elmts: map<nat, nat>)
      requires Serves(elmts) && Hh(l)
      ensures l.key in elmts && l.key in state.order
    {}

    lemma Elements(elmts: map<nat, nat>)
      requires Serves(elmts)
      ensures hhs.Keys == elmts.Keys && forall k {:trigger hhs[k]} :: k in hhs ==> hhs[k].elmt == elmts[k]
    {}

    /** HASH_DELETE_HH for an item that is not the last one. */
    method DeleteItem(order: Link, chain: Link, ghost elmts: map<nat, nat>)
      requires Serves(elmts) && App(order) && Hh(chain) && order.key == chain.key && state.order != [chain.key]
      modifies Repr()
      ensures Serves(elmts - {chain.key}) && fresh(Repr() - old(Repr()))
    {
      hide Valid, H.And, H.Pow2, H.Delete, H.Holds, H.Sound, H.BucketOf, LinkList.Valid, Serves, Hh, App,
        BucketsAgree, AppAgrees, ChainIs, Repr, ChainsOf;
      Served(elmts);
      Elements(elmts);
      InOrder(chain, elmts);
      SomeBuckets();
      var b := H.BucketOf(hash, chain.key, numBuckets);
      InRepr(b);
      H.DeleteHolds(hash, state, elmts.Keys, chain.key);
      DeleteIsSome(chain.key);
      ghost var (was, wasApps, repr) := (hhs, apps, Repr());
      ReprIs();
      DeleteLinks(order, chain, b);
      KeysLess(elmts, chain.key);
      RestServes(was, elmts, chain.key, elmts - {chain.key});
      FewerObjects(was, wasApps, chain.key, repr);
    }

    lemma KeysLess(m: map<nat, nat>, key: nat)
      ensures (m - {key}).Keys == m.Keys - {key}
    {}

    lemma ReprIs()
      ensures Repr() == {this, app} + hhs.Values + apps.Values + (set b | b in buckets) + ChainsOf(buckets)
    {}

    lemma FewerObjects(was: map<nat, Link>, wasApps: map<nat, Link>, key: nat, repr: set<object>)
      requires hhs == was - {key} && apps == wasApps - {key}
      requires repr == {this, app} + was.Values + wasApps.Values + (set b | b in buckets) + ChainsOf(buckets)
      ensures Repr() <= repr
    {
      FewerValues(was, key);
      FewerValues(wasApps, key);
    }

    lemma RestServes(was: map<nat, Link>, elmts: map<nat, nat>, key: nat, rest: map<nat, nat>)
      requires Valid() && H.Holds(hash, M.Some(state), rest.Keys) && rest == elmts - {key}
      requires hhs == was - {key} && was.Keys == elmts.Keys
      requires forall k {:trigger was[k]} :: k in was ==> was[k].elmt == elmts[k]
      ensures Serves(rest)
    {
      hide Valid, H.Holds;
    }

    lemma FewerValues(m: map<nat, Link>, key: nat)
      ensures (m - {key}).Values <= m.Values
    {
      forall l | l in (m - {key}).Values ensures l in m.Values {
        var k :| k in m - {key} && (m - {key})[k] == l;
        assert k in m && m[k] == l;
      }
    }

    lemma DeleteIsSome(key: nat)
      requires H.Shaped(state) && state.order != [key]
      ensures H.Delete(hash, state, key).Some?
    {}

    lemma LastItem(order: Link, chain: Link, elmts: map<nat, nat>)
      requires Serves(elmts) && App(order) && Hh(chain) && order.key == chain.key
      ensures order.prev == null && order.next == null <==> state.order == [chain.key]
      ensures state.order == [chain.key] ==> elmts - {chain.key} == map[]
    {
      hide LinkList.Valid, H.Sound, H.Pow2, H.And;
      InOrder(chain, elmts);
      Alone(order);
      Served(elmts);
      assert state.order == [chain.key] ==> elmts.Keys == {chain.key};
    }

    // ----- sorting -----

    method SortApp(cmp: S.Compare, ghost order: seq<nat>)
      requires AppAgrees(order) && order != []
      modifies this`tail, app, app.links`next, app.links`prev
      ensures AppAgrees(S.Sorted(cmp, order))
      ensures forall o: LinkList :: o != app && old(allocated(o)) && old(o.Valid()) ==> o.Valid()
    {
      hide LinkList.Valid, Keys, S.Sorted;
      ghost var was := app.links;
      tail := S.SortLinks(cmp, app);
      forall i | 0 <= i < |app.links| ensures App(app.links[i]) { assert app.links[i] in was; }
    }

    method SortOrder(cmp: S.Compare, ghost order: seq<nat>, ghost t: H.Table)
      requires AppAgrees(order) && BucketsAgree(t) && order != []
      modifies this`tail, app, app.links`next, app.links`prev
      ensures AppAgrees(S.Sorted(cmp, order)) && BucketsAgree(t)
    {
      hide LinkList.Valid, Keys, S.Sorted, AppAgrees;
      SortApp(cmp, order);
      forall i | 0 <= i < |buckets|
        ensures buckets[i].chain != app && ChainIs(buckets[i], t.chains[i]) && buckets[i].expandMult == t.mults[i]
      {
        assert old(ChainIs(buckets[i], t.chains[i]));
      }
    }

    /** HASH_SRT: only the list in application order changes. */
    method Sort(cmp: S.Compare)
      requires Valid() && state.order != []
      modifies this`tail, this`state, app, app.links`next, app.links`prev
      ensures Valid() && state == H.Sort(cmp, old(state))
    {
      hide H.Pow2, S.Sorted, LinkList.Valid, Keys, AppAgrees;
      SortOrder(cmp, state.order, state);
      SameBuckets(state, H.Sort(cmp, state));
      state := H.Sort(cmp, state);
    }

    lemma AppInRepr()
      requires Valid()
      ensures forall i {:trigger app.links[i]} :: 0 <= i < |app.links| ==> app.links[i] in Repr()
    {
      forall i | 0 <= i < |app.links| ensures app.links[i] in Repr() { assert App(app.links[i]); }
    }

    method SortServes(cmp: S.Compare, ghost elmts: map<nat, nat>)
      requires Serves(elmts)
      modifies Repr()
      ensures Serves(elmts) && Repr() == old(Repr()) && state == H.Sort(cmp, old(state))
    {
      hide HashTable.Valid, H.Holds, H.Sort;
      AppInRepr();
      Served(elmts);
      SomeOrder(elmts);
      H.SortHolds(hash, state, elmts.Keys, cmp);
      Sort(cmp);
    }

    lemma SomeOrder(elmts: map<nat, nat>)
      requires Serves(elmts)
      ensures state.order != []
    {}

    lemma SameBuckets(t: H.Table, u: H.Table)
      requires BucketsAgree(t) && u.chains == t.chains && u.mults == t.mults
      ensures BucketsAgree(u)
    {}

    lemma SoundShaped()
      requires H.Sound(hash, state)
      ensures H.Shaped(state)
    {}
  }

  /** `pages` of core.c, from va to the element that holds the handle. */
  class PageTable {
    const hash: H.Hash
    var tbl: HashTable?
    ghost var elmts: map<nat, nat>

    ghost function Footprint(): set<object>
      reads this, tbl
    {
      if tbl == null then {this} else {this} + tbl.Repr()
    }

    ghost predicate Valid()
      reads this, tbl, Footprint()
    {
      if tbl == null then elmts == map[]
      else tbl.hash == hash && this !in tbl.Repr() && tbl.Serves(elmts)
    }

    constructor (hash: H.Hash)
      ensures Valid() && this.hash == hash && elmts == map[]
    {
      this.hash, tbl, elmts := hash, null, map[];
    }

    /** find_page. */
    method FindPage(va: nat) returns (r: M.Option<nat>)
      requires Valid()
      ensures r == if va in elmts then M.Some(elmts[va]) else M.None
    {
      hide HashTable.Valid, H.And, H.Pow2;
      if tbl == null {
        return M.None;
      }
      H.FindIsMember(hash, M.Some(tbl.state), elmts.Keys, va);
      tbl.SomeBuckets();
      var out := tbl.Find(va);
      r := if out == null then M.None else M.Some(out.elmt);
    }

    /** add_page, which asserts that the page is not there. */
    method AddPage(va: nat, elmt: nat) returns (order: Link, chain: Link)
      requires Valid() && va !in elmts
      modifies Footprint()
      ensures Valid() && elmts == old(elmts)[va := elmt] && fresh(Footprint() - old(Footprint()))
      ensures tbl != null && tbl.App(order) && tbl.Hh(chain) && order.key == chain.key == va
    {
      hide HashTable.Valid, HashTable.Repr, H.And, H.Pow2, H.Sound;
      if tbl == null {
        var t := new HashTable(hash);
        H.NewSound(hash);
        ghost var before := t.Repr();
        label Made:
        order, chain := t.AddItem(M.None, va, elmt, elmts);
        assert forall o: object {:trigger o in t.Repr()} :: o in t.Repr() && old(allocated(o)) ==> old@Made(allocated(o));
        assert fresh@Made(t.Repr() - before);
        assert fresh(t.Repr());
        tbl := t;
      } else {
        SoundTable();
        order, chain := tbl.AddItem(M.Some(tbl.state), va, elmt, elmts);
      }
      elmts := elmts[va := elmt];
    }

    lemma SoundTable()
      requires Valid() && tbl != null
      ensures H.Sound(hash, tbl.state) && forall k :: k in tbl.state.order <==> k in elmts
    {
    }

    /** remove_page, given the handle of the page. */
    method RemovePage(order: Link, chain: Link)
      requires Valid() && tbl != null && tbl.App(order) && tbl.Hh(chain) && order.key == chain.key
      modifies Footprint()
      ensures Valid() && elmts == old(elmts) - {chain.key} && fresh(Footprint() - old(Footprint()))
    {
      hide HashTable.Repr, HashTable.Serves, HashTable.App, HashTable.Hh;
      tbl.LastItem(order, chain, elmts);
      if order.prev == null && order.next == null {
        tbl := null;
      } else {
        tbl.DeleteItem(order, chain, elmts);
      }
      elmts := elmts - {chain.key};
    }

    /** HASH_SORT over the table. */
    method Sort(cmp: S.Compare)
      requires Valid()
      modifies Footprint()
      ensures Valid() && elmts == old(elmts) && tbl == old(tbl)
      ensures tbl != null ==> tbl.state == H.Sort(cmp, old(tbl.state))
    {
      hide HashTable.Valid, HashTable.Repr, H.And, H.Pow2, H.Sound, S.Sorted;
      if tbl != null {
        SoundTable();
        tbl.SortServes(cmp, elmts);
      }
    }
  }
}
