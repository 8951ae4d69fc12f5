/** The doubly linked lists of uthash: an item hangs in one by its bucket links and
    in another by its links in application order. */
module Links {
  import opened Removal

  /** One pair of links of the hash handle in the element at `elmt`. */
  class Link {
    const key: nat
    const hashv: nat
    const elmt: nat
    var prev: Link?
    var next: Link?
    ghost var owner: LinkList?

    constructor (key: nat, hashv: nat, elmt: nat)
      ensures this.key == key && this.hashv == hashv && this.elmt == elmt
      ensures prev == null && next == null && owner == null
    {
      this.key, this.hashv, this.elmt := key, hashv, elmt;
      prev, next, owner := null, null, null;
    }
  }

  ghost function Keys(s: seq<Link>): (r: seq<nat>)
    ensures |r| == |s| && forall i {:trigger r[i]} :: 0 <= i < |r| ==> r[i] == s[i].key
  {
    seq(|s|, i requires 0 <= i < |s| => s[i].key)
  }

  /** The links of a list, written as sequences. */
  ghost predicate Chained(s: seq<Link>, next: seq<Link?>, prev: seq<Link?>) {
    && |next| == |s| && |prev| == |s|
    && (forall i {:trigger prev[i]} :: 0 <= i < |s| ==> prev[i] == if i == 0 then null else s[i - 1])
    && (forall i {:trigger next[i]} :: 0 <= i < |s| ==> next[i] == if i == |s| - 1 then null else s[i + 1])
  }

  ghost function NextsOf(s: seq<Link>): (r: seq<Link?>)
    reads s
    ensures |r| == |s| && forall i {:trigger r[i]} :: 0 <= i < |s| ==> r[i] == s[i].next
  {
    seq(|s|, i requires 0 <= i < |s| reads s => s[i].next)
  }

  ghost function PrevsOf(s: seq<Link>): (r: seq<Link?>)
    reads s
    ensures |r| == |s| && forall i {:trigger r[i]} :: 0 <= i < |s| ==> r[i] == s[i].prev
  {
    seq(|s|, i requires 0 <= i < |s| reads s => s[i].prev)
  }

  /** Entry `k` is out when its neighbours point past it. */
  lemma ChainedSplice(s: seq<Link>, next: seq<Link?>, prev: seq<Link?>, next': seq<Link?>, prev': seq<Link?>, k: nat)
    requires Chained(s, next, prev) && k < |s| && |next'| == |s| && |prev'| == |s|
    requires forall i {:trigger next'[i]} :: 0 <= i < |s| && i != k ==> next'[i] == if i == k - 1 then next[k] else next[i]
    requires forall i {:trigger prev'[i]} :: 0 <= i < |s| && i != k ==> prev'[i] == if i == k + 1 then prev[k] else prev[i]
    ensures Chained(s[..k] + s[k + 1..], next'[..k] + next'[k + 1..], prev'[..k] + prev'[k + 1..])
  {
    var t := s[..k] + s[k + 1..];
    forall i {:trigger t[i]} | 0 <= i < |t|
      ensures (prev'[..k] + prev'[k + 1..])[i] == if i == 0 then null else t[i - 1]
      ensures (next'[..k] + next'[k + 1..])[i] == if i == |t| - 1 then null else t[i + 1]
    {
      var j := if i < k then i else i + 1;
      assert (next'[..k] + next'[k + 1..])[i] == next'[j] && (prev'[..k] + prev'[k + 1..])[i] == prev'[j];
      assert next[j] == next[j] && prev[j] == prev[j] && next[k] == next[k] && prev[k] == prev[k];
    }
  }

  lemma SplicedLinks(s: seq<Link>, next: seq<Link?>, prev: seq<Link?>, k: nat)
    requires k < |s| && next == NextsOf(s) && prev == PrevsOf(s)
    requires Chained(s[..k] + s[k + 1..], next[..k] + next[k + 1..], prev[..k] + prev[k + 1..])
    ensures var t := s[..k] + s[k + 1..];
      && (forall i {:trigger t[i].prev} :: 0 <= i < |t| ==> t[i].prev == if i == 0 then null else t[i - 1])
      && (forall i {:trigger t[i].next} :: 0 <= i < |t| ==> t[i].next == if i == |t| - 1 then null else t[i + 1])
  {
    var t := s[..k] + s[k + 1..];
    forall i {:trigger t[i]} | 0 <= i < |t|
      ensures t[i].next == (next[..k] + next[k + 1..])[i] && t[i].prev == (prev[..k] + prev[k + 1..])[i]
    {
      var j := if i < k then i else i + 1;
      assert t[i] == s[j] && (next[..k] + next[k + 1..])[i] == next[j] && (prev[..k] + prev[k + 1..])[i] == prev[j];
    }
  }

  lemma LinksWithout(s: seq<Link>, next: seq<Link?>, prev: seq<Link?>, k: nat, l: LinkList)
    requires k < |s| && Distinct(s) && Chained(s, next, prev)
    requires forall i {:trigger s[i]} :: 0 <= i < |s| && i != k ==>
      && s[i].prev == (if i == k + 1 then prev[k] else prev[i])
      && s[i].next == (if i == k - 1 then next[k] else next[i])
      && s[i].owner == l
    ensures var t := Remove(s, s[k]);
      && Distinct(t)
      && (forall i {:trigger t[i].owner} :: 0 <= i < |t| ==> t[i].owner == l)
      && (forall i {:trigger t[i].prev} :: 0 <= i < |t| ==> t[i].prev == if i == 0 then null else t[i - 1])
      && (forall i {:trigger t[i].next} :: 0 <= i < |t| ==> t[i].next == if i == |t| - 1 then null else t[i + 1])
  {
    RemoveAt(s, k);
    DistinctSplice(s, k);
    ChainedSplice(s, next, prev, NextsOf(s), PrevsOf(s), k);
    SplicedLinks(s, NextsOf(s), PrevsOf(s), k);
    var t := s[..k] + s[k + 1..];
    forall i {:trigger t[i]} | 0 <= i < |t| ensures t[i].owner == l {
      assert t[i] == s[if i < k then i else i + 1];
    }
  }

  class LinkList {
    var first: Link?
    ghost var links: seq<Link>

    ghost predicate Valid()
      reads this, links
    {
      && first == (if links == [] then null else links[0])
      && (forall i {:trigger links[i].owner} :: 0 <= i < |links| ==> links[i].owner == this)
      && (forall i {:trigger links[i].prev} :: 0 <= i < |links| ==> links[i].prev == if i == 0 then null else links[i - 1])
      && (forall i {:trigger links[i].next} :: 0 <= i < |links| ==>
            links[i].next == if i == |links| - 1 then null else links[i + 1])
      && Distinct(links)
    }

    constructor ()
      ensures Valid() && links == []
    {
      first, links := null, [];
    }

    /** HASH_ADD_TO_BKT's way of adding. */
    method PushFront(l: Link)
      requires Valid() && l.owner == null
      modifies this, l, links`prev
      ensures Valid() && links == [l] + old(links)
      ensures forall o: LinkList :: o != this && old(allocated(o)) && old(o.Valid()) ==> o.Valid()
      ensures forall o: Link {:trigger o.owner} :: old(allocated(o)) && o != l ==> o.owner == old(o.owner)
    {
      assert forall i :: 0 <= i < |links| ==> links[i].owner == this;
      l.next := first;
      l.prev := null;
      if first != null {
        first.prev := l;
      }
      first := l;
      l.owner := this;
      links := [l] + links;
    }

    /** HASH_APPEND_LIST's, `last` being the tail. */
    method PushBack(last: Link?, l: Link)
      requires Valid() && l.owner == null && last == (if links == [] then null else links[|links| - 1])
      modifies this, l, links`next
      ensures Valid() && links == old(links) + [l]
      ensures forall o: LinkList :: o != this && old(allocated(o)) && old(o.Valid()) ==> o.Valid()
      ensures forall o: Link {:trigger o.owner} :: old(allocated(o)) && o != l ==> o.owner == old(o.owner)
    {
      assert forall i :: 0 <= i < |links| ==> links[i].owner == this;
      l.next := null;
      l.prev := last;
      if last != null {
        last.next := l;
      } else {
        first := l;
      }
      l.owner := this;
      links := links + [l];
    }

    /** HASH_DEL_IN_BKT and the patch-up of HASH_DELETE_HH. */
    method Unlink(l: Link)
      requires Valid() && l in links
      modifies this, links
      ensures Valid() && links == Remove(old(links), l) && l.owner == null
      ensures forall o: LinkList :: o != this && old(allocated(o)) && old(o.Valid()) ==> o.Valid()
      ensures forall o: Link {:trigger o.owner} :: old(allocated(o)) && o != l ==> o.owner == old(o.owner)
    {
      ghost var k :| 0 <= k < |links| && links[k] == l;
      ghost var rest := Remove(links, l);
      RemoveEnds(links, k);
      assert links[k].next == l.next && links[k].prev == l.prev;
      var newFirst := if first == l then l.next else first;
      PatchUp(l, k);
      SetFirst(newFirst, rest);
    }

    method SetFirst(f: Link?, ghost s: seq<Link>)
      modifies this
      ensures first == f && links == s
    {
      first, links := f, s;
    }

    method PatchUp(l: Link, ghost k: nat)
      requires Valid() && k < |links| && links[k] == l
      modifies links`next, links`prev, l`owner
      ensures l.owner == null
      ensures var rest := Remove(links, l);
        && Distinct(rest)
        && (forall i {:trigger rest[i].owner} :: 0 <= i < |rest| ==> rest[i].owner == this)
        && (forall i {:trigger rest[i].prev} :: 0 <= i < |rest| ==> rest[i].prev == if i == 0 then null else rest[i - 1])
        && (forall i {:trigger rest[i].next} :: 0 <= i < |rest| ==>
              rest[i].next == if i == |rest| - 1 then null else rest[i + 1])
      ensures forall o: LinkList :: o != this && old(allocated(o)) && old(o.Valid()) ==> o.Valid()
    {
      ghost var (c, nexts, prevs) := (links, NextsOf(links), PrevsOf(links));
      assert l.owner == this && l.next == nexts[k] && l.prev == prevs[k];
      assert l.prev != null ==> c[k - 1] == l.prev && c[k - 1].owner == this;
      assert l.next != null ==> c[k + 1] == l.next && c[k + 1].owner == this;
      if l.prev != null {
        l.prev.next := l.next;
      }
      if l.next != null {
        l.next.prev := l.prev;
      }
      l.owner := null;
      assert forall o: LinkList :: o != this && old(allocated(o)) && old(o.Valid()) ==> o.Valid();
      LinksWithout(c, nexts, prevs, k, this);
    }

    /** The links are about to be hung elsewhere; they still point along the chain. */
    ghost method Disband()
      requires Valid()
      modifies links`owner
      ensures forall i {:trigger links[i]} :: 0 <= i < |links| ==>
        links[i].owner == null && links[i].next == if i == |links| - 1 then null else links[i + 1]
      ensures forall o: LinkList :: o != this && old(allocated(o)) && old(o.Valid()) ==> o.Valid()
      ensures forall o: Link {:trigger o.owner} :: old(allocated(o)) && o !in links ==> o.owner == old(o.owner)
    {
      forall l | l in links {
        l.owner := null;
      }
    }
  }
}
