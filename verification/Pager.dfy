/** The descriptors, lists and page table on the heap, and the value they stand for. */
module Pager {
  import opened Fifo
  import opened Removal
  import M = Machine

  ghost predicate Empty(l: FifoList)
    reads l, l.contents
  {
    l.Valid() && l.contents == []
  }

  method NewLists(n: nat) returns (lists: seq<FifoList>)
    ensures |lists| == n && (forall i, j :: 0 <= i < j < n ==> lists[i] != lists[j])
    ensures forall i :: 0 <= i < n ==> fresh(lists[i]) && Empty(lists[i])
  {
    lists := [];
    while |lists| < n
      invariant |lists| <= n && (forall i, j :: 0 <= i < j < |lists| ==> lists[i] != lists[j])
      invariant forall i :: 0 <= i < |lists| ==> fresh(lists[i]) && Empty(lists[i])
    {
      var l := new FifoList();
      lists := lists + [l];
    }
  }

  class Pager {
    const activeList: FifoList
    const inactiveList: FifoList
    const evictionList: FifoList
    const dramFreeList: FifoList
    const diskActiveList: FifoList
    const diskFreeList: FifoList
    const diskReserveList: FifoList
    const dramsize: nat
    const disksize: nat
    var index: map<nat, UserPage>
    var memory: M.Memory
    var memAllocated: int
    ghost var pages: map<nat, UserPage>   // every descriptor, by where it lies
    ghost var state: M.State              // what all this amounts to

    /** Before `lrudisk_init`: no descriptors yet; `disk` is what the device holds. */
    constructor (lists: seq<FifoList>, dramsize: nat, disksize: nat, disk: map<nat, M.Bytes>)
      requires |lists| == 7 && (forall i, j :: 0 <= i < j < 7 ==> lists[i] != lists[j])
      requires forall i :: 0 <= i < 7 ==> Empty(lists[i])
      ensures Valid() && pages == map[] && fresh(Repr() - set l | l in lists)
      ensures state == M.State(map[], M.Lists([], [], [], [], [], [], []), map[], M.Memory(map[], {}, {}, {}, disk),
                               dramsize, disksize, 0)
    {
      hide FifoList.Valid, ListsAgree, PagesAgree, IndexAgrees, Valid;
      this.dramsize, this.disksize := dramsize, disksize;
      activeList, inactiveList, evictionList, dramFreeList := lists[0], lists[1], lists[2], lists[3];
      diskActiveList, diskFreeList, diskReserveList := lists[4], lists[5], lists[6];
      index, memAllocated, pages := map[], 0, map[];
      memory := M.Memory(map[], {}, {}, {}, disk);
      state := M.State(map[], M.Lists([], [], [], [], [], [], []), map[], M.Memory(map[], {}, {}, {}, disk),
                       dramsize, disksize, 0);
      new;
      SevenFresh();
      StartsValid();
    }

    lemma StartsValid()
      requires Empty(activeList) && Empty(inactiveList) && Empty(evictionList) && Empty(dramFreeList)
      requires Empty(diskActiveList) && Empty(diskFreeList) && Empty(diskReserveList) && SevenLists()
      requires pages == map[] && index == map[]
      requires state == M.State(map[], M.Lists([], [], [], [], [], [], []), map[], memory, dramsize, disksize, memAllocated)
      ensures Valid()
    {
      hide FifoList.Valid;
      forall q ensures Empty(ListOf(q)) {}
    }

    lemma SevenFresh()
      requires activeList !in {inactiveList, evictionList, dramFreeList, diskActiveList, diskFreeList, diskReserveList}
      requires inactiveList !in {evictionList, dramFreeList, diskActiveList, diskFreeList, diskReserveList}
      requires evictionList !in {dramFreeList, diskActiveList, diskFreeList, diskReserveList}
      requires dramFreeList !in {diskActiveList, diskFreeList, diskReserveList}
      requires diskActiveList !in {diskFreeList, diskReserveList} && diskFreeList != diskReserveList
      ensures SevenLists()
    {}

    function ListOf(q: M.Queue): FifoList {
      match q
      case Active => activeList
      case Inactive => inactiveList
      case Eviction => evictionList
      case DramFree => dramFreeList
      case DiskActive => diskActiveList
      case DiskFree => diskFreeList
      case DiskReserve => diskReserveList
    }

    ghost function QueueOf(l: FifoList?): M.Option<M.Queue> {
      if l == activeList then M.Some(M.Active)
      else if l == inactiveList then M.Some(M.Inactive)
      else if l == evictionList then M.Some(M.Eviction)
      else if l == dramFreeList then M.Some(M.DramFree)
      else if l == diskActiveList then M.Some(M.DiskActive)
      else if l == diskFreeList then M.Some(M.DiskFree)
      else if l == diskReserveList then M.Some(M.DiskReserve)
      else M.None
    }

    ghost function SevenOf(): set<FifoList> {
      {activeList, inactiveList, evictionList, dramFreeList, diskActiveList, diskFreeList, diskReserveList}
    }

    ghost predicate SevenLists() {
      forall q {:trigger ListOf(q)} :: QueueOf(ListOf(q)) == M.Some(q)
    }

    ghost predicate Known(p: UserPage)
      reads this`pages
    {
      p.addr in pages && pages[p.addr] == p
    }

    ghost predicate AllKnown(s: seq<UserPage>)
      reads this`pages
    {
      forall i {:trigger s[i]} :: 0 <= i < |s| ==> Known(s[i])
    }

    ghost function AddrsOf(s: seq<UserPage>): seq<nat> {
      seq(|s|, i requires 0 <= i < |s| => s[i].addr)
    }

    ghost function DescOf(p: UserPage): M.Desc
      reads p
    {
      p.Value(AddrOf(p.reserve), QueueOf(p.list))
    }

    ghost predicate ListsAgree(lists: M.Lists)
      reads this`pages, pages.Values
      reads activeList, inactiveList, evictionList, dramFreeList, diskActiveList, diskFreeList, diskReserveList
    {
      && SevenLists()
      && forall q {:trigger ListOf(q)} ::
           AllKnown(ListOf(q).contents) && ListOf(q).Valid() && AddrsOf(ListOf(q).contents) == lists.Get(q)
    }

    ghost predicate Agrees(p: UserPage, desc: map<nat, M.Desc>)
      reads this`pages, p
    {
      && p.addr in desc && desc[p.addr] == DescOf(p)
      && (p.list == null ==> p.prev == null)
      && (p.list != null ==> QueueOf(p.list).Some?)
      && (p.reserve != null ==> Known(p.reserve))
    }

    ghost predicate PagesAgree(desc: map<nat, M.Desc>)
      reads this`pages, pages.Values
    {
      && desc.Keys == pages.Keys
      && (forall a {:trigger pages[a]} :: a in pages ==> pages[a].addr == a)
      && (forall a {:trigger Agrees(pages[a], desc)} :: a in pages ==> Agrees(pages[a], desc))
    }

    ghost predicate IndexAgrees(m: map<nat, nat>)
      reads this`pages, this`index
    {
      && m.Keys == index.Keys
      && forall va {:trigger index[va]} {:trigger m[va]} :: va in index ==> Known(index[va]) && m[va] == index[va].addr
    }

    ghost predicate Valid()
      reads this, pages.Values
      reads activeList, inactiveList, evictionList, dramFreeList, diskActiveList, diskFreeList, diskReserveList
    {
      && ListsAgree(state.lists)
      && PagesAgree(state.desc)
      && IndexAgrees(state.index)
      && state == M.State(state.desc, state.lists, state.index, memory, dramsize, disksize, memAllocated)
    }

    ghost function Repr(): set<object>
      reads this`pages
    {
      pages.Values + SevenOf() + {this}
    }

    lemma ListInRepr(q: M.Queue)
      requires ListsAgree(state.lists)
      ensures ListOf(q) in Repr() && forall p :: p in ListOf(q).contents ==> p in Repr()
    {
      assert AllKnown(ListOf(q).contents);
    }

    // ----- the list operations, said of the value -----

    lemma AddrsAppend(s: seq<UserPage>, p: UserPage)
      ensures AddrsOf(s + [p]) == AddrsOf(s) + [p.addr]
    {}

    lemma ListApart(q: M.Queue)
      requires SevenLists()
      ensures forall r {:trigger ListOf(r)} :: r != q ==> ListOf(r) != ListOf(q)
    {
      forall r | r != q ensures ListOf(r) != ListOf(q) {
        assert QueueOf(ListOf(q)) == M.Some(q) && QueueOf(ListOf(r)) == M.Some(r);
      }
    }

    lemma PutGet(l: M.Lists, q: M.Queue, c: seq<nat>)
      ensures forall r {:trigger l.Put(q, c).Get(r)} :: l.Put(q, c).Get(r) == if r == q then c else l.Get(r)
    {}

    method EnqueueLists(q: M.Queue, p: UserPage)
      requires ListsAgree(state.lists) && Known(p) && p.list == null && p.prev == null
      modifies ListOf(q), p`next, p`list, ListOf(q).contents`prev
      ensures ListsAgree(state.lists.Put(q, state.lists.Get(q) + [p.addr]))
      ensures p.list != null && QueueOf(p.list) == M.Some(q)
      ensures forall o: UserPage {:trigger o.list} :: old(allocated(o)) && o != p ==>
        o.list == old(o.list) && (o.list == null ==> o.prev == old(o.prev))
    {
      hide FifoList.Valid, ListOf, QueueOf, AddrsOf, M.Lists.Get, M.Lists.Put;
      ListApart(q);
      AddrsAppend(ListOf(q).contents, p);
      PutGet(state.lists, q, state.lists.Get(q) + [p.addr]);
      ListOf(q).Enqueue(p);
      forall r
        ensures AllKnown(ListOf(r).contents) && ListOf(r).Valid()
        ensures AddrsOf(ListOf(r).contents) == state.lists.Put(q, state.lists.Get(q) + [p.addr]).Get(r)
      {
        assert old(AllKnown(ListOf(r).contents));
      }
    }

    method EnqueuePages(q: M.Queue, p: UserPage)
      requires ListsAgree(state.lists) && PagesAgree(state.desc) && Known(p) && p.list == null
      modifies ListOf(q), p`next, p`list, ListOf(q).contents`prev
      ensures ListsAgree(state.lists.Put(q, state.lists.Get(q) + [p.addr]))
      ensures p.addr in state.desc && PagesAgree(state.desc[p.addr := state.desc[p.addr].(list := M.Some(q))])
    {
      hide ListsAgree, ListOf, QueueOf, M.Lists.Get, M.Lists.Put, UserPage.Value;
      assert Agrees(p, state.desc);
      EnqueueLists(q, p);
      ghost var desc := state.desc[p.addr := state.desc[p.addr].(list := M.Some(q))];
      p.OnList(AddrOf(p.reserve), old(QueueOf(p.list)), M.Some(q));
      assert Agrees(p, desc);
      forall a | a in pages && a != p.addr ensures Agrees(pages[a], desc) {
        assert old(Agrees(pages[a], state.desc));
      }
    }

    method Enqueue(q: M.Queue, p: UserPage)
      requires Valid() && Known(p) && p.list == null
      modifies Repr()
      ensures Valid() && pages == old(pages)
      ensures p.addr in old(state.desc) && state == M.Enqueue(old(state), q, p.addr)
    {
      hide ListsAgree, PagesAgree, IndexAgrees, QueueOf, ListOf, M.Lists.Get, M.Lists.Put;
      ListInRepr(q);
      EnqueuePages(q, p);
      state := M.Enqueue(state, q, p.addr);
    }

    /** A descriptor's field was assigned, and the value with it. */
    twostate lemma FieldChanged(p: UserPage)
      requires old(Valid()) && old(Known(p)) && pages == old(pages) && index == old(index)
      requires p.addr in old(state.desc) && state == M.SetDesc(old(state), p.addr, DescOf(p))
      requires memory == old(memory) && memAllocated == old(memAllocated)
      requires p.list == old(p.list) && p.prev == old(p.prev) && (p.reserve != null ==> Known(p.reserve))
      requires forall a {:trigger pages[a]} :: a in pages && a != p.addr ==> unchanged(pages[a])
      requires forall q {:trigger ListOf(q)} :: ListOf(q).contents == old(ListOf(q).contents)
      requires forall l: FifoList {:trigger l.Valid()} :: old(allocated(l)) && old(l.Valid()) ==> l.Valid()
      ensures Valid()
    {
      hide FifoList.Valid, IndexAgrees, ListOf, QueueOf, AddrsOf, M.Lists.Get, UserPage.Value;
      assert old(Agrees(p, state.desc));
      forall r
        ensures AllKnown(ListOf(r).contents) && ListOf(r).Valid() && AddrsOf(ListOf(r).contents) == state.lists.Get(r)
      {
        assert old(AllKnown(ListOf(r).contents) && ListOf(r).Valid() && AddrsOf(ListOf(r).contents) == state.lists.Get(r));
      }
      forall a | a in pages ensures Agrees(pages[a], state.desc) {
        assert old(Agrees(pages[a], state.desc));
      }
    }

    method SetMigrating(p: UserPage, b: bool)
      requires Valid() && Known(p)
      modifies Repr()
      ensures Valid() && pages == old(pages) && p.addr in old(state.desc)
      ensures state == M.SetDesc(old(state), p.addr, old(state.desc[p.addr]).(migrating := b))
    {
      hide FifoList.Valid, ListsAgree, IndexAgrees, QueueOf, AddrsOf, UserPage.Value;
      assert Agrees(p, state.desc);
      p.SetMigrating(b);
      state := M.SetDesc(state, p.addr, state.desc[p.addr].(migrating := b));
      FieldChanged(p);
    }

    lemma NoQueue()
      ensures QueueOf(null) == M.None
    {}

    lemma AddrsRest(s: seq<UserPage>)
      requires s != []
      ensures AddrsOf(s) != [] && AddrsOf(s)[0] == s[0].addr && AddrsOf(s[1..]) == AddrsOf(s)[1..]
    {}

    lemma {:induction false} AddrsWithout(s: seq<UserPage>, p: UserPage)
      requires AllKnown(s) && Known(p)
      ensures AddrsOf(Remove(s, p)) == M.Without(AddrsOf(s), p.addr)
    {
      if s != [] {
        assert Known(s[0]) && AllKnown(s[1..]);
        AddrsRest(s);
        AddrsWithout(s[1..], p);
      }
    }

    lemma OnThatList(s: seq<UserPage>, p: UserPage)
      requires AllKnown(s) && Known(p) && p.addr in AddrsOf(s)
      ensures p in s
    {
      var i :| 0 <= i < |s| && AddrsOf(s)[i] == p.addr;
      assert Known(s[i]);
    }

    lemma {:induction false} RemoveIn(s: seq<UserPage>, p: UserPage)
      requires AllKnown(s)
      ensures AllKnown(Remove(s, p))
    {
      if s != [] {
        assert Known(s[0]) && AllKnown(s[1..]);
        RemoveIn(s[1..], p);
      }
    }

    method DequeueLists(q: M.Queue) returns (p: UserPage?)
      requires ListsAgree(state.lists)
      modifies ListOf(q), ListOf(q).contents`next, ListOf(q).contents`prev, ListOf(q).contents`list
      ensures p == null <==> state.lists.Get(q) == []
      ensures p == null ==> ListsAgree(state.lists)
      ensures p != null ==> Known(p) && state.lists.Get(q)[0] == p.addr && p.list == null && p.prev == null
      ensures p != null ==> ListsAgree(state.lists.Put(q, state.lists.Get(q)[1..]))
      ensures forall o: UserPage {:trigger o.list} :: old(allocated(o)) && o != p ==>
        o.list == old(o.list) && (o.list == null ==> o.prev == old(o.prev))
    {
      hide FifoList.Valid, ListOf, QueueOf, AddrsOf, M.Lists.Get, M.Lists.Put;
      ListApart(q);
      var l := ListOf(q);
      assert AllKnown(l.contents) && |AddrsOf(l.contents)| == |l.contents| by { AddrsLength(l.contents); }
      if l.contents != [] {
        AddrsRest(l.contents);
        assert Known(l.contents[0]);
        PutGet(state.lists, q, state.lists.Get(q)[1..]);
      }
      ghost var c := l.contents;
      p := l.Dequeue();
      if p != null {
        forall r
          ensures AllKnown(ListOf(r).contents) && ListOf(r).Valid()
          ensures AddrsOf(ListOf(r).contents) == state.lists.Put(q, state.lists.Get(q)[1..]).Get(r)
        {
          assert old(AllKnown(ListOf(r).contents));
        }
      } else {
        forall r
          ensures AllKnown(ListOf(r).contents) && ListOf(r).Valid() && AddrsOf(ListOf(r).contents) == state.lists.Get(r)
        {
          assert old(AllKnown(ListOf(r).contents));
        }
      }
    }

    lemma AddrsLength(s: seq<UserPage>)
      ensures |AddrsOf(s)| == |s|
    {}

    method DequeuePages(q: M.Queue) returns (p: UserPage?)
      requires ListsAgree(state.lists) && PagesAgree(state.desc)
      modifies ListOf(q), ListOf(q).contents`next, ListOf(q).contents`prev, ListOf(q).contents`list
      ensures p == null <==> state.lists.Get(q) == []
      ensures p == null ==> ListsAgree(state.lists) && PagesAgree(state.desc)
      ensures p != null ==> Known(p) && state.lists.Get(q)[0] == p.addr && p.list == null && p.addr in state.desc
      ensures p != null ==> ListsAgree(state.lists.Put(q, state.lists.Get(q)[1..]))
      ensures p != null ==> PagesAgree(state.desc[p.addr := state.desc[p.addr].(list := M.None)])
    {
      hide ListsAgree, ListOf, QueueOf, M.Lists.Get, M.Lists.Put, UserPage.Value;
      p := DequeueLists(q);
      NoQueue();
      if p != null {
        assert old(Agrees(p, state.desc));
        ghost var desc := state.desc[p.addr := state.desc[p.addr].(list := M.None)];
        p.OnList(AddrOf(p.reserve), old(QueueOf(p.list)), M.None);
        assert Agrees(p, desc);
        forall a | a in pages && a != p.addr ensures Agrees(pages[a], desc) {
          assert old(Agrees(pages[a], state.desc));
        }
      } else {
        forall a | a in pages ensures Agrees(pages[a], state.desc) {
          assert old(Agrees(pages[a], state.desc));
        }
      }
    }

    method Dequeue(q: M.Queue) returns (p: UserPage?)
      requires Valid()
      modifies Repr()
      ensures Valid() && pages == old(pages)
      ensures p == null <==> old(state.lists.Get(q)) == []
      ensures p == null ==> state == old(state)
      ensures p != null ==> Known(p) && p.addr in old(state.desc) && p.addr == old(state.lists.Get(q))[0]
      ensures p != null ==> state == M.Detach(old(state), q, p.addr) && p.list == null
    {
      hide ListsAgree, PagesAgree, IndexAgrees, QueueOf, ListOf, M.Lists.Get, M.Lists.Put;
      ListInRepr(q);
      p := DequeuePages(q);
      if p != null {
        M.WithoutHead(state.lists.Get(q));
        state := M.Detach(state, q, p.addr);
      }
    }

    method RemoveLists(ghost q: M.Queue, list: FifoList?, p: UserPage) returns (ret: int)
      requires ListsAgree(state.lists) && Known(p) && p.addr in state.lists.Get(q) && list == ListOf(q)
      modifies ListOf(q), ListOf(q).contents`next, ListOf(q).contents`prev, ListOf(q).contents`list
      ensures ret == 0
      ensures ListsAgree(state.lists.Put(q, M.Without(state.lists.Get(q), p.addr))) && p.list == null && p.prev == null
      ensures forall o: UserPage {:trigger o.list} :: old(allocated(o)) && o != p ==>
        o.list == old(o.list) && (o.list == null ==> o.prev == old(o.prev))
    {
      hide FifoList.Valid, ListOf, QueueOf, AddrsOf, M.Lists.Get, M.Lists.Put;
      ListApart(q);
      ghost var l := ListOf(q);
      OnThatList(l.contents, p);
      OnList(l, p);
      AddrsWithout(l.contents, p);
      RemoveIn(l.contents, p);
      PutGet(state.lists, q, M.Without(state.lists.Get(q), p.addr));
      ret := FifoList.TryRemovePage(list, p);
      forall r
        ensures AllKnown(ListOf(r).contents) && ListOf(r).Valid()
        ensures AddrsOf(ListOf(r).contents) == state.lists.Put(q, M.Without(state.lists.Get(q), p.addr)).Get(r)
      {
        assert old(AllKnown(ListOf(r).contents));
      }
    }

    lemma OnList(l: FifoList, p: UserPage)
      requires l.Valid() && p in l.contents
      ensures p.list == l
    {
      var i :| 0 <= i < |l.contents| && l.contents[i] == p;
      assert l.contents[i].list == l;
    }

    method RemovePages(ghost q: M.Queue, list: FifoList?, p: UserPage) returns (ret: int)
      requires ListsAgree(state.lists) && PagesAgree(state.desc) && Known(p) && p.addr in state.lists.Get(q) && list == ListOf(q)
      modifies ListOf(q), ListOf(q).contents`next, ListOf(q).contents`prev, ListOf(q).contents`list
      ensures ret == 0
      ensures ListsAgree(state.lists.Put(q, M.Without(state.lists.Get(q), p.addr))) && p.list == null
      ensures p.addr in state.desc && PagesAgree(state.desc[p.addr := state.desc[p.addr].(list := M.None)])
    {
      hide ListsAgree, ListOf, QueueOf, M.Lists.Get, M.Lists.Put, UserPage.Value;
      assert Agrees(p, state.desc);
      ret := RemoveLists(q, list, p);
      NoQueue();
      ghost var desc := state.desc[p.addr := state.desc[p.addr].(list := M.None)];
      p.OnList(AddrOf(p.reserve), old(QueueOf(p.list)), M.None);
      assert Agrees(p, desc);
      forall a | a in pages && a != p.addr ensures Agrees(pages[a], desc) {
        assert old(Agrees(pages[a], state.desc));
      }
    }

    /** `page_list_tryremove_page` on the list the page is known to be on. */
    method TryRemove(ghost q: M.Queue, list: FifoList?, p: UserPage) returns (ret: int)
      requires Valid() && Known(p) && p.addr in state.lists.Get(q) && list == ListOf(q)
      modifies Repr()
      ensures Valid() && pages == old(pages) && ret == 0 && p.list == null
      ensures p.addr in old(state.desc) && state == M.Detach(old(state), q, p.addr)
    {
      hide ListsAgree, PagesAgree, IndexAgrees, QueueOf, ListOf, M.Lists.Get, M.Lists.Put;
      ListInRepr(q);
      ret := RemovePages(q, list, p);
      state := M.Detach(state, q, p.addr);
    }

    method SetVa(p: UserPage, v: nat)
      requires Valid() && Known(p)
      modifies Repr()
      ensures Valid() && pages == old(pages) && p.addr in old(state.desc)
      ensures state == M.SetDesc(old(state), p.addr, old(state.desc[p.addr]).(va := v))
    {
      hide FifoList.Valid, ListsAgree, IndexAgrees, QueueOf, AddrsOf, UserPage.Value;
      assert Agrees(p, state.desc);
      p.SetVa(v);
      state := M.SetDesc(state, p.addr, state.desc[p.addr].(va := v));
      FieldChanged(p);
    }

    method SetOffset(p: UserPage, offset: nat)
      requires Valid() && Known(p)
      modifies Repr()
      ensures Valid() && pages == old(pages) && p.addr in old(state.desc)
      ensures state == M.SetDesc(old(state), p.addr, old(state.desc[p.addr]).(offset := offset))
    {
      hide FifoList.Valid, ListsAgree, IndexAgrees, QueueOf, AddrsOf, UserPage.Value;
      assert Agrees(p, state.desc);
      p.SetOffset(offset);
      state := M.SetDesc(state, p.addr, state.desc[p.addr].(offset := offset));
      FieldChanged(p);
    }

    method SetInDram(p: UserPage, b: bool)
      requires Valid() && Known(p)
      modifies Repr()
      ensures Valid() && pages == old(pages) && p.addr in old(state.desc)
      ensures state == M.SetDesc(old(state), p.addr, old(state.desc[p.addr]).(inDram := b))
    {
      hide FifoList.Valid, ListsAgree, IndexAgrees, QueueOf, AddrsOf, UserPage.Value;
      assert Agrees(p, state.desc);
      p.SetInDram(b);
      state := M.SetDesc(state, p.addr, state.desc[p.addr].(inDram := b));
      FieldChanged(p);
    }

    method SetHasReserve(p: UserPage, b: bool)
      requires Valid() && Known(p)
      modifies Repr()
      ensures Valid() && pages == old(pages) && p.addr in old(state.desc)
      ensures state == M.SetDesc(old(state), p.addr, old(state.desc[p.addr]).(hasReserve := b))
    {
      hide FifoList.Valid, ListsAgree, IndexAgrees, QueueOf, AddrsOf, UserPage.Value;
      assert Agrees(p, state.desc);
      p.SetHasReserve(b);
      state := M.SetDesc(state, p.addr, state.desc[p.addr].(hasReserve := b));
      FieldChanged(p);
    }

    method SetSwappedOut(p: UserPage, b: bool)
      requires Valid() && Known(p)
      modifies Repr()
      ensures Valid() && pages == old(pages) && p.addr in old(state.desc)
      ensures state == M.SetDesc(old(state), p.addr, old(state.desc[p.addr]).(swappedOut := b))
    {
      hide FifoList.Valid, ListsAgree, IndexAgrees, QueueOf, AddrsOf, UserPage.Value;
      assert Agrees(p, state.desc);
      p.SetSwappedOut(b);
      state := M.SetDesc(state, p.addr, state.desc[p.addr].(swappedOut := b));
      FieldChanged(p);
    }

    method SetPresent(p: UserPage, b: bool)
      requires Valid() && Known(p)
      modifies Repr()
      ensures Valid() && pages == old(pages) && p.addr in old(state.desc)
      ensures state == M.SetDesc(old(state), p.addr, old(state.desc[p.addr]).(present := b))
    {
      hide FifoList.Valid, ListsAgree, IndexAgrees, QueueOf, AddrsOf, UserPage.Value;
      assert Agrees(p, state.desc);
      p.SetPresent(b);
      state := M.SetDesc(state, p.addr, state.desc[p.addr].(present := b));
      FieldChanged(p);
    }

    method SetAccesses(p: UserPage, n: nat)
      requires Valid() && Known(p)
      modifies Repr()
      ensures Valid() && pages == old(pages) && p.addr in old(state.desc)
      ensures state == M.SetDesc(old(state), p.addr, old(state.desc[p.addr]).(naccesses := n))
    {
      hide FifoList.Valid, ListsAgree, IndexAgrees, QueueOf, AddrsOf, UserPage.Value;
      assert Agrees(p, state.desc);
      p.SetAccesses(n);
      state := M.SetDesc(state, p.addr, state.desc[p.addr].(naccesses := n));
      FieldChanged(p);
    }

    ghost function AddrOf(r: UserPage?): M.Option<nat> {
      if r == null then M.None else M.Some(r.addr)
    }

    method SetReserve(p: UserPage, r: UserPage?)
      requires Valid() && Known(p) && (r != null ==> Known(r))
      modifies Repr()
      ensures Valid() && pages == old(pages) && p.addr in old(state.desc)
      ensures state == M.SetDesc(old(state), p.addr, old(state.desc[p.addr]).(reserve := AddrOf(r)))
    {
      hide FifoList.Valid, ListsAgree, IndexAgrees, QueueOf, AddrsOf, UserPage.Value;
      assert Agrees(p, state.desc);
      p.WithReserve(AddrOf(p.reserve), QueueOf(p.list), AddrOf(r));
      p.SetReserve(r);
      state := M.SetDesc(state, p.addr, state.desc[p.addr].(reserve := AddrOf(r)));
      FieldChanged(p);
    }

    /** What the fields of a descriptor read, said of the value. */
    lemma Look(p: UserPage)
      requires Valid() && Known(p)
      ensures p.addr in state.desc
      ensures var d := state.desc[p.addr];
        && d.va == p.va && d.offset == p.virtualOffset && d.inDram == p.inDram && d.swappedOut == p.swappedOut
        && d.migrating == p.migrating && d.hasReserve == p.hasReserve && d.present == p.present
        && d.naccesses == p.naccesses && d.list == QueueOf(p.list)
        && (p.list == null <==> d.list == M.None) && (p.list != null ==> p.list == ListOf(d.list.value))
        && (p.reserve == null <==> d.reserve == M.None)
        && (p.reserve != null ==> Known(p.reserve) && d.reserve == M.Some(p.reserve.addr))
    {
      hide ListsAgree, IndexAgrees;
      assert Agrees(p, state.desc);
      NoQueue();
    }

    /** Two descriptors do not lie at the same address. */
    lemma Alone(p: UserPage?, q: UserPage)
      requires Valid() && p != null && Known(p) && Known(q) && p.addr == q.addr
      ensures p == q
    {}

    /** Where an entry of a list points back to. */
    lemma OnItsList(q: M.Queue, p: UserPage)
      requires Valid() && Known(p) && p.addr in state.lists.Get(q)
      ensures p.list == ListOf(q)
    {
      hide IndexAgrees;
      var i :| 0 <= i < |state.lists.Get(q)| && state.lists.Get(q)[i] == p.addr;
      assert ListOf(q).contents[i].addr == p.addr;
      Alone(ListOf(q).contents[i], p);
    }

    lemma NotYet(a: nat)
      requires Valid() && a !in state.desc
      ensures a !in pages
    {}

    /** A descriptor was made at an address where there was none. */
    twostate lemma DescriptorAdded(new p: UserPage)
      requires old(Valid()) && p.addr !in old(pages) && pages == old(pages)[p.addr := p] && index == old(index)
      requires state == M.SetDesc(old(state), p.addr, DescOf(p)) && memory == old(memory) && memAllocated == old(memAllocated)
      requires p.list == null && p.prev == null && p.reserve == null
      requires forall a {:trigger pages[a]} :: a in old(pages) ==> unchanged(pages[a])
      requires forall q {:trigger ListOf(q)} :: ListOf(q).contents == old(ListOf(q).contents)
      requires forall l: FifoList {:trigger l.Valid()} :: old(allocated(l)) && old(l.Valid()) ==> l.Valid()
      ensures Valid()
    {
      hide FifoList.Valid, ListOf, QueueOf, AddrsOf, M.Lists.Get, UserPage.Value;
      forall r
        ensures AllKnown(ListOf(r).contents) && ListOf(r).Valid() && AddrsOf(ListOf(r).contents) == state.lists.Get(r)
      {
        assert old(AllKnown(ListOf(r).contents) && ListOf(r).Valid() && AddrsOf(ListOf(r).contents) == state.lists.Get(r));
      }
      assert Agrees(p, state.desc);
      forall a | a in pages && a != p.addr ensures Agrees(pages[a], state.desc) {
        assert old(Agrees(pages[a], state.desc));
      }
    }

    /** A descriptor as calloc and `lrudisk_init` make it, at a fresh address. */
    method Calloc(addr: nat, offset: nat, dram: bool) returns (p: UserPage)
      requires Valid() && addr !in pages
      modifies this`pages, this`state
      ensures Valid() && fresh(p) && p.addr == addr && p.list == null && pages == old(pages)[addr := p]
      ensures state == M.SetDesc(old(state), addr, M.Desc(0, offset, dram, !dram, false, false, false, 0, M.None, M.None))
    {
      hide ListsAgree, IndexAgrees, FifoList.Valid, QueueOf, UserPage.Value;
      p := new UserPage(addr, offset, dram);
      NoQueue();
      p.IsNew(offset, dram);
      pages := pages[addr := p];
      state := M.SetDesc(state, addr, M.Desc(0, offset, dram, !dram, false, false, false, 0, M.None, M.None));
      DescriptorAdded(p);
    }

    // ----- the page table -----

    method FindPage(va: nat) returns (p: UserPage?)
      requires Valid()
      ensures p == null <==> va !in state.index
      ensures p != null ==> Known(p) && p.addr == state.index[va]
    {
      if va in index {
        p := index[va];
      } else {
        p := null;
      }
    }

    method AddPage(va: nat, p: UserPage)
      requires Valid() && Known(p) && va !in state.index
      modifies Repr()
      ensures Valid() && pages == old(pages)
      ensures state == old(state).(index := old(state).index[va := p.addr])
    {
      hide ListsAgree, PagesAgree, QueueOf, ListOf;
      index := index[va := p];
      state := state.(index := state.index[va := p.addr]);
    }

    method DeletePage(va: nat)
      requires Valid() && va in state.index
      modifies Repr()
      ensures Valid() && pages == old(pages)
      ensures state == old(state).(index := old(state).index - {va})
    {
      hide ListsAgree, PagesAgree, QueueOf, ListOf;
      index := index - {va};
      state := state.(index := state.index - {va});
    }

    lemma Entries(q: M.Queue)
      requires Valid()
      ensures ListOf(q).numentries == |state.lists.Get(q)|
    {
      hide PagesAgree, IndexAgrees, M.Lists.Get, ListOf;
      AddrsLength(ListOf(q).contents);
    }

    lemma MemoryIs()
      requires Valid()
      ensures memory == state.mem && memAllocated == state.memAllocated
      ensures dramsize == state.dramsize && disksize == state.disksize
    {}

    /** The kernel and the device change what memory holds. */
    method SetMemory(m: M.Memory)
      requires Valid()
      modifies Repr()
      ensures Valid() && pages == old(pages) && state == old(state).(mem := m)
    {
      hide ListsAgree, PagesAgree, IndexAgrees;
      memory := m;
      state := state.(mem := m);
    }

    method SetAllocated(n: int)
      requires Valid()
      modifies Repr()
      ensures Valid() && pages == old(pages) && state == old(state).(memAllocated := n)
    {
      hide ListsAgree, PagesAgree, IndexAgrees;
      memAllocated := n;
      state := state.(memAllocated := n);
    }
  }
}
