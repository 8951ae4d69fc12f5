/** The intrusive lists of fifo.c, on the heap, against sequences. */
module Fifo {
  import opened Removal
  import M = Machine

  /** `struct user_page` without its hash handle. */
  class UserPage {
    const addr: nat   // where the descriptor lies
    var va: nat
    var virtualOffset: nat
    var inDram: bool
    var swappedOut: bool
    var migrating: bool
    var hasReserve: bool
    var present: bool
    var naccesses: nat
    var reserve: UserPage?
    var next: UserPage?
    var prev: UserPage?
    var list: FifoList?

    constructor (addr: nat, offset: nat, dram: bool)
      ensures this.addr == addr && va == 0 && virtualOffset == offset
      ensures inDram == dram && swappedOut == !dram
      ensures !migrating && !hasReserve && !present && naccesses == 0
      ensures reserve == null && next == null && prev == null && list == null
    {
      this.addr, va, virtualOffset, inDram, swappedOut := addr, 0, offset, dram, !dram;
      migrating, hasReserve, present, naccesses := false, false, false, 0;
      reserve, next, prev, list := null, null, null, null;
    }

    /** The value of this descriptor, given what its two pointers stand for. */
    ghost function Value(reserve: M.Option<nat>, list: M.Option<M.Queue>): M.Desc
      reads this`va, this`virtualOffset, this`inDram, this`swappedOut, this`migrating
      reads this`hasReserve, this`present, this`naccesses
    {
      M.Desc(va, virtualOffset, inDram, swappedOut, migrating, hasReserve, present, naccesses, reserve, list)
    }

    lemma OnList(reserve: M.Option<nat>, list: M.Option<M.Queue>, other: M.Option<M.Queue>)
      ensures Value(reserve, other) == Value(reserve, list).(list := other)
    {}

    lemma IsNew(offset: nat, dram: bool)
      requires va == 0 && virtualOffset == offset && inDram == dram && swappedOut == !dram
      requires !migrating && !hasReserve && !present && naccesses == 0
      ensures Value(M.None, M.None) == M.Desc(0, offset, dram, !dram, false, false, false, 0, M.None, M.None)
    {}

    lemma WithReserve(reserve: M.Option<nat>, list: M.Option<M.Queue>, other: M.Option<nat>)
      ensures Value(other, list) == Value(reserve, list).(reserve := other)
    {}

    // Writes to the fields that are not links leave every list as it is.

    method SetVa(v: nat)
      modifies this`va
      ensures va == v
      ensures forall r, l :: Value(r, l) == old(Value(r, l)).(va := v)
      ensures forall l: FifoList :: old(allocated(l)) && old(l.Valid()) ==> l.Valid()
    {
      va := v;
    }

    method SetOffset(offset: nat)
      modifies this`virtualOffset
      ensures virtualOffset == offset
      ensures forall r, l :: Value(r, l) == old(Value(r, l)).(offset := offset)
      ensures forall l: FifoList :: old(allocated(l)) && old(l.Valid()) ==> l.Valid()
    {
      virtualOffset := offset;
    }

    method SetInDram(b: bool)
      modifies this`inDram
      ensures inDram == b
      ensures forall r, l :: Value(r, l) == old(Value(r, l)).(inDram := b)
      ensures forall l: FifoList :: old(allocated(l)) && old(l.Valid()) ==> l.Valid()
    {
      inDram := b;
    }

    method SetSwappedOut(b: bool)
      modifies this`swappedOut
      ensures swappedOut == b
      ensures forall r, l :: Value(r, l) == old(Value(r, l)).(swappedOut := b)
      ensures forall l: FifoList :: old(allocated(l)) && old(l.Valid()) ==> l.Valid()
    {
      swappedOut := b;
    }

    method SetMigrating(b: bool)
      modifies this`migrating
      ensures migrating == b
      ensures forall r, l :: Value(r, l) == old(Value(r, l)).(migrating := b)
      ensures forall l: FifoList :: old(allocated(l)) && old(l.Valid()) ==> l.Valid()
    {
      migrating := b;
    }

    method SetHasReserve(b: bool)
      modifies this`hasReserve
      ensures hasReserve == b
      ensures forall r, l :: Value(r, l) == old(Value(r, l)).(hasReserve := b)
      ensures forall l: FifoList :: old(allocated(l)) && old(l.Valid()) ==> l.Valid()
    {
      hasReserve := b;
    }

    method SetReserve(r: UserPage?)
      modifies this`reserve
      ensures reserve == r
      ensures forall l: FifoList :: old(allocated(l)) && old(l.Valid()) ==> l.Valid()
    {
      reserve := r;
    }

    method SetPresent(b: bool)
      modifies this`present
      ensures present == b
      ensures forall r, l :: Value(r, l) == old(Value(r, l)).(present := b)
      ensures forall l: FifoList :: old(allocated(l)) && old(l.Valid()) ==> l.Valid()
    {
      present := b;
    }

    method SetAccesses(n: nat)
      modifies this`naccesses
      ensures naccesses == n
      ensures forall r, l :: Value(r, l) == old(Value(r, l)).(naccesses := n)
      ensures forall l: FifoList :: old(allocated(l)) && old(l.Valid()) ==> l.Valid()
    {
      naccesses := n;
    }
  }

  /** The links of a list, written as sequences. */
  ghost predicate Linked(s: seq<UserPage>, next: seq<UserPage?>, prev: seq<UserPage?>) {
    && |next| == |s| && |prev| == |s|
    && (forall i {:trigger next[i]} :: 0 <= i < |s| ==> next[i] == if i == 0 then null else s[i - 1])
    && (forall i {:trigger prev[i]} :: 0 <= i < |s| ==> prev[i] == if i == |s| - 1 then null else s[i + 1])
  }

  /** Entry `k` is unlinked when its neighbours point past it. */
  lemma LinkedSplice(s: seq<UserPage>, next: seq<UserPage?>, prev: seq<UserPage?>,
                     next': seq<UserPage?>, prev': seq<UserPage?>, k: nat)
    requires Linked(s, next, prev) && k < |s| && |next'| == |s| && |prev'| == |s|
    requires forall i {:trigger next'[i]} :: 0 <= i < |s| && i != k ==> next'[i] == if i == k + 1 then next[k] else next[i]
    requires forall i {:trigger prev'[i]} :: 0 <= i < |s| && i != k ==> prev'[i] == if i == k - 1 then prev[k] else prev[i]
    ensures Linked(s[..k] + s[k + 1..], next'[..k] + next'[k + 1..], prev'[..k] + prev'[k + 1..])
  {
    var t := s[..k] + s[k + 1..];
    forall i {:trigger t[i]} | 0 <= i < |t|
      ensures (next'[..k] + next'[k + 1..])[i] == if i == 0 then null else t[i - 1]
      ensures (prev'[..k] + prev'[k + 1..])[i] == if i == |t| - 1 then null else t[i + 1]
    {
      var j := if i < k then i else i + 1;
      assert (next'[..k] + next'[k + 1..])[i] == next'[j] && (prev'[..k] + prev'[k + 1..])[i] == prev'[j];
      assert next[j] == next[j] && prev[j] == prev[j] && next[k] == next[k] && prev[k] == prev[k];
    }
  }

  ghost function NextsOf(s: seq<UserPage>): (r: seq<UserPage?>)
    reads s
    ensures |r| == |s| && forall i {:trigger r[i]} :: 0 <= i < |s| ==> r[i] == s[i].next
  {
    seq(|s|, i requires 0 <= i < |s| reads s => s[i].next)
  }

  ghost function PrevsOf(s: seq<UserPage>): (r: seq<UserPage?>)
    reads s
    ensures |r| == |s| && forall i {:trigger r[i]} :: 0 <= i < |s| ==> r[i] == s[i].prev
  {
    seq(|s|, i requires 0 <= i < |s| reads s => s[i].prev)
  }

  lemma SplicedLinks(s: seq<UserPage>, next: seq<UserPage?>, prev: seq<UserPage?>, k: nat)
    requires k < |s| && next == NextsOf(s) && prev == PrevsOf(s)
    requires Linked(s[..k] + s[k + 1..], next[..k] + next[k + 1..], prev[..k] + prev[k + 1..])
    ensures var t := s[..k] + s[k + 1..];
      && (forall i {:trigger t[i].next} :: 0 <= i < |t| ==> t[i].next == if i == 0 then null else t[i - 1])
      && (forall i {:trigger t[i].prev} :: 0 <= i < |t| ==> t[i].prev == if i == |t| - 1 then null else t[i + 1])
  {
    var t := s[..k] + s[k + 1..];
    forall i {:trigger t[i]} | 0 <= i < |t|
      ensures t[i].next == (next[..k] + next[k + 1..])[i] && t[i].prev == (prev[..k] + prev[k + 1..])[i]
    {
      var j := if i < k then i else i + 1;
      assert t[i] == s[j] && (next[..k] + next[k + 1..])[i] == next[j] && (prev[..k] + prev[k + 1..])[i] == prev[j];
    }
  }

  /** What remains is linked up again once the neighbours of `k` point past it. */
  lemma LinksWithout(s: seq<UserPage>, next: seq<UserPage?>, prev: seq<UserPage?>, k: nat, l: FifoList)
    requires k < |s| && Distinct(s) && Linked(s, next, prev)
    requires forall i {:trigger s[i]} :: 0 <= i < |s| && i != k ==>
      && s[i].next == (if i == k + 1 then next[k] else next[i])
      && s[i].prev == (if i == k - 1 then prev[k] else prev[i])
      && s[i].list == l
    ensures var t := Remove(s, s[k]);
      && Distinct(t)
      && (forall i {:trigger t[i].list} :: 0 <= i < |t| ==> t[i].list == l)
      && (forall i {:trigger t[i].next} :: 0 <= i < |t| ==> t[i].next == if i == 0 then null else t[i - 1])
      && (forall i {:trigger t[i].prev} :: 0 <= i < |t| ==> t[i].prev == if i == |t| - 1 then null else t[i + 1])
  {
    hide Distinct, Linked, Remove;
    RemoveAt(s, k);
    DistinctSplice(s, k);
    LinkedSplice(s, next, prev, NextsOf(s), PrevsOf(s), k);
    SplicedLinks(s, NextsOf(s), PrevsOf(s), k);
    SplicedLists(s, k, l);
  }

  lemma SplicedLists(s: seq<UserPage>, k: nat, l: FifoList)
    requires k < |s| && forall i {:trigger s[i]} :: 0 <= i < |s| && i != k ==> s[i].list == l
    ensures var t := s[..k] + s[k + 1..]; forall i {:trigger t[i].list} :: 0 <= i < |t| ==> t[i].list == l
  {
    var t := s[..k] + s[k + 1..];
    forall i {:trigger t[i]} | 0 <= i < |t| ensures t[i].list == l {
      assert t[i] == s[if i < k then i else i + 1];
    }
  }

  class FifoList {
    var first: UserPage?
    var last: UserPage?
    var numentries: nat
    ghost var contents: seq<UserPage>   // oldest entry first

    ghost predicate Valid()
      reads this, contents
    {
      && numentries == |contents|
      && last == (if contents == [] then null else contents[0])
      && first == (if contents == [] then null else contents[|contents| - 1])
      && (forall i {:trigger contents[i].list} :: 0 <= i < |contents| ==> contents[i].list == this)
      && (forall i {:trigger contents[i].next} :: 0 <= i < |contents| ==>
            contents[i].next == if i == 0 then null else contents[i - 1])
      && (forall i {:trigger contents[i].prev} :: 0 <= i < |contents| ==>
            contents[i].prev == if i == |contents| - 1 then null else contents[i + 1])
      && Distinct(contents)
    }

    constructor ()
      ensures Valid() && contents == []
    {
      first, last, numentries, contents := null, null, 0, [];
    }

    /** The entry becomes the youngest of the list; every other list stays as it is. */
    method Enqueue(entry: UserPage)
      requires Valid() && entry.prev == null && entry.list == null
      modifies this, entry`next, entry`list, contents`prev
      ensures Valid() && contents == old(contents) + [entry]
      ensures forall l: FifoList :: l != this && old(allocated(l)) && old(l.Valid()) ==> l.Valid()
      ensures forall p: UserPage {:trigger p.list} :: old(allocated(p)) && p != entry ==>
        p.list == old(p.list) && (p.list == null ==> p.prev == old(p.prev))
    {
      assert forall i :: 0 <= i < |contents| ==> contents[i].list == this;
      entry.next := first;
      if first != null {
        assert first.prev == null;
        first.prev := entry;
      } else {
        assert last == null && numentries == 0;
        last := entry;
      }
      first := entry;
      entry.list := this;
      numentries := numentries + 1;
      contents := contents + [entry];
    }

    /** The oldest entry is taken off, or null returned from an empty list. */
    method Dequeue() returns (ret: UserPage?)
      requires Valid()
      modifies this, contents`next, contents`prev, contents`list
      ensures Valid()
      ensures ret == if old(contents) == [] then null else old(contents)[0]
      ensures contents == if old(contents) == [] then [] else old(contents)[1..]
      ensures ret != null ==> ret.prev == null && ret.next == null && ret.list == null
      ensures forall l: FifoList :: l != this && old(allocated(l)) && old(l.Valid()) ==> l.Valid()
      ensures forall p: UserPage {:trigger p.list} :: old(allocated(p)) && p != ret ==>
        p.list == old(p.list) && (p.list == null ==> p.prev == old(p.prev))
    {
      ret := last;
      if ret == null {
        return;
      }
      assert ret.list == this && (ret.prev != null ==> ret.prev.list == this);
      last := ret.prev;
      if last != null {
        last.next := null;
      } else {
        first := null;
      }
      ret.prev, ret.next := null, null;
      ret.list := null;
      assert numentries > 0;
      numentries := numentries - 1;
      contents := contents[1..];
    }

    /** The page is taken out of the middle; asking an empty list does nothing. */
    method RemovePage(page: UserPage)
      requires Valid() && (contents == [] || page in contents)
      modifies this, contents`next, contents`prev, contents`list
      ensures Valid()
      ensures old(contents) == [] ==> contents == []
      ensures old(contents) != [] ==> page.prev == null && page.next == null && page.list == null
      ensures contents == Remove(old(contents), page)
      ensures forall l: FifoList :: l != this && old(allocated(l)) && old(l.Valid()) ==> l.Valid()
      ensures forall p: UserPage {:trigger p.list} :: old(allocated(p)) && p != page ==>
        p.list == old(p.list) && (p.list == null ==> p.prev == old(p.prev))
    {
      hide Remove;
      if first == null {
        assert last == null && numentries == 0;
        RemoveNothing(contents, page);
        return;
      }
      ghost var k :| 0 <= k < |contents| && contents[k] == page;
      ghost var rest := Remove(contents, page);
      RemoveEnds(contents, k);
      assert contents[k].next == page.next && contents[k].prev == page.prev;
      var newFirst := if first == page then page.next else first;
      var newLast := if last == page then page.prev else last;
      Unlink(page, k);
      assert numentries > 0;
      SetHeader(newFirst, newLast, numentries - 1, rest);
    }

    method SetHeader(newFirst: UserPage?, newLast: UserPage?, n: nat, ghost c: seq<UserPage>)
      modifies this
      ensures first == newFirst && last == newLast && numentries == n && contents == c
    {
      first, last, numentries, contents := newFirst, newLast, n, c;
    }

    /** The neighbours of entry `k` come to point past it. */
    method Unlink(page: UserPage, ghost k: nat)
      requires Valid() && k < |contents| && contents[k] == page
      modifies contents`next, contents`prev, page`list
      ensures page.prev == null && page.next == null && page.list == null
      ensures var rest := Remove(contents, page);
        && Distinct(rest)
        && (forall i {:trigger rest[i].list} :: 0 <= i < |rest| ==> rest[i].list == this)
        && (forall i {:trigger rest[i].next} :: 0 <= i < |rest| ==> rest[i].next == if i == 0 then null else rest[i - 1])
        && (forall i {:trigger rest[i].prev} :: 0 <= i < |rest| ==>
              rest[i].prev == if i == |rest| - 1 then null else rest[i + 1])
      ensures forall l: FifoList :: l != this && old(allocated(l)) && old(l.Valid()) ==> l.Valid()
    {
      hide Remove, NextsOf, PrevsOf, Distinct;
      ghost var (next, prev) := (NextsOf(contents), PrevsOf(contents));
      assert page.next == next[k] && page.prev == prev[k] && Linked(contents, next, prev);
      Repoint(page, k);
      LinksWithout(contents, next, prev, k, this);
    }

    /** The assignments that do it. */
    method Repoint(page: UserPage, ghost k: nat)
      requires Valid() && k < |contents| && contents[k] == page
      modifies contents`next, contents`prev, page`list
      ensures page.prev == null && page.next == null && page.list == null
      ensures forall i {:trigger contents[i]} :: 0 <= i < |contents| && i != k ==>
        && contents[i].next == (if i == k + 1 then old(page.next) else old(contents[i].next))
        && contents[i].prev == (if i == k - 1 then old(page.prev) else old(contents[i].prev))
        && contents[i].list == this
      ensures forall l: FifoList :: l != this && old(allocated(l)) && old(l.Valid()) ==> l.Valid()
    {
      assert page.list == this;
      assert page.next != null ==> contents[k - 1] == page.next && contents[k - 1].list == this;
      assert page.prev != null ==> contents[k + 1] == page.prev && contents[k + 1].list == this;
      if page.next != null {
        page.next.prev := page.prev;
      }
      if page.prev != null {
        page.prev.next := page.next;
      }
      page.next := null;
      page.prev := null;
      page.list := null;
      forall l: FifoList | l != this && old(allocated(l)) && old(l.Valid()) ensures l.Valid() {
        assert forall i {:trigger l.contents[i]} :: 0 <= i < |l.contents| ==> old(l.contents[i].list) == l;
      }
    }

    /** The page is taken out if it is on this list; tells whether it was. */
    static method TryRemovePage(list: FifoList?, page: UserPage) returns (ret: int)
      requires list != null ==> list.Valid() && (page.list == list ==> page in list.contents)
      modifies if list != null && page.list == list then {list} else {}
      modifies (if list != null && page.list == list then list.contents else [])`next
      modifies (if list != null && page.list == list then list.contents else [])`prev
      modifies (if list != null && page.list == list then list.contents else [])`list
      ensures ret == if list != null && old(page.list) == list then 0 else -1
      ensures ret == 0 ==> list.Valid() && list.contents == Remove(old(list.contents), page)
      ensures ret == 0 ==> page.prev == null && page.next == null && page.list == null
      ensures forall l: FifoList :: (l != list || ret == -1) && old(allocated(l)) && old(l.Valid()) ==> l.Valid()
      ensures forall p: UserPage {:trigger p.list} :: old(allocated(p)) && (p != page || ret == -1) ==>
        p.list == old(p.list) && (p.list == null ==> p.prev == old(p.prev))
    {
      if list == null {
        return -1;
      }
      if page.list != list {
        return -1;
      }
      list.RemovePage(page);
      return 0;
    }

    /** The next younger entry, or the oldest one to begin with. */
    method NextPage(page: UserPage?) returns (next: UserPage?)
      requires Valid() && (page == null || page in contents)
      ensures page == null ==> next == if contents == [] then null else contents[0]
      ensures forall i :: page != null && 0 <= i < |contents| && contents[i] == page ==>
        next == if i + 1 < |contents| then contents[i + 1] else null
    {
      if page == null {
        next := last;
      } else {
        next := page.prev;
        assert forall i :: 0 <= i < |contents| && contents[i] == page ==> contents[i].list == this && contents[i].prev == next;
        assert page.list == this;
      }
    }
  }

  lemma ValidDistinct(queue: FifoList)
    requires queue.Valid()
    ensures Distinct(queue.contents)
  {}

  lemma TakenApart(all: seq<UserPage>, k: nat)
    requires Distinct(all) && k <= |all|
    ensures forall i, j {:trigger all[i], all[k..][j]} :: 0 <= i < k && 0 <= j < |all[k..]| ==> all[i] != all[k..][j]
  {}

  /** The next entry goes into the vector, if there is one. */
  method TakeNext(queue: FifoList, vector: array<UserPage?>, taken: nat, ghost all: seq<UserPage>) returns (more: bool)
    requires queue.Valid() && taken < vector.Length && taken <= |all| && queue.contents == all[taken..] && Distinct(all)
    requires forall i {:trigger all[i]} :: 0 <= i < taken ==> all[i].prev == null && all[i].next == null && all[i].list == null
    modifies queue, vector, queue.contents`next, queue.contents`prev, queue.contents`list
    ensures queue.Valid() && more == (taken < |all|)
    ensures !more ==> queue.contents == [] && vector[..] == old(vector[..])
    ensures more ==> queue.contents == all[taken + 1..] && vector[..] == old(vector[..])[taken := all[taken]]
    ensures forall i {:trigger all[i]} :: 0 <= i < (if more then taken + 1 else taken) ==>
      all[i].prev == null && all[i].next == null && all[i].list == null
    ensures forall l: FifoList :: l != queue && old(allocated(l)) && old(l.Valid()) ==> l.Valid()
    ensures forall p: UserPage {:trigger p.list} :: old(allocated(p)) && !(more && p == all[taken]) ==> p.list == old(p.list)
  {
    hide FifoList.Valid;
    TakenApart(all, taken);
    var page := queue.Dequeue();
    more := page != null;
    if more {
      vector[taken] := page;
    }
  }

  /** Up to `n` of the oldest entries are taken, in order. */
  method DequeueVector(queue: FifoList, vector: array<UserPage?>, n: nat) returns (taken: nat)
    requires queue.Valid() && n <= vector.Length
    modifies queue, vector, queue.contents`next, queue.contents`prev, queue.contents`list
    ensures queue.Valid()
    ensures taken == if n <= |old(queue.contents)| then n else |old(queue.contents)|
    ensures queue.contents == old(queue.contents)[taken..]
    ensures forall i :: 0 <= i < taken ==> vector[i] == old(queue.contents)[i]
    ensures forall i :: taken <= i < vector.Length ==> vector[i] == old(vector[i])
    ensures forall p :: p in old(queue.contents)[..taken] ==> p.prev == null && p.next == null && p.list == null
    ensures forall l: FifoList :: l != queue && old(allocated(l)) && old(l.Valid()) ==> l.Valid()
    ensures forall p: UserPage :: old(allocated(p)) && p !in old(queue.contents)[..taken] ==> p.list == old(p.list)
  {
    hide FifoList.Valid;
    taken := 0;
    ghost var all := queue.contents;
    ValidDistinct(queue);
    while taken < n
      invariant taken <= n && taken <= |all|
      invariant queue.Valid() && queue.contents == all[taken..]
      invariant forall i :: 0 <= i < taken ==> vector[i] == all[i]
      invariant forall i :: taken <= i < vector.Length ==> vector[i] == old(vector[i])
      invariant forall i {:trigger all[i]} :: 0 <= i < taken ==> all[i].prev == null && all[i].next == null && all[i].list == null
      invariant forall l: FifoList :: l != queue && old(allocated(l)) && old(l.Valid()) ==> l.Valid()
      invariant forall p: UserPage {:trigger p.list} :: old(allocated(p)) && p !in all[..taken] ==> p.list == old(p.list)
    {
      var more := TakeNext(queue, vector, taken, all);
      if !more {
        break;
      }
      assert all[..taken + 1] == all[..taken] + [all[taken]];
      taken := taken + 1;
    }
  }
}
