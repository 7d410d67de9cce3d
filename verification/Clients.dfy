/** Client objects of the server (src/server.c:288-395, 517-523, 673-718): reference counts, the list they
    are linked into, and the pinned snapshots taken of it. */
module Clients {

  // ---------------------------------------------------------------- The object as a value

  /** The bookkeeping fields of a client; `frees` counts how often the object has been freed. */
  datatype Fields = Fields(refs: nat, frees: nat, inList: bool, dead: bool, authenticated: bool, liveSeq: nat)

  const NewFields := Fields(2, 0, true, false, false, 0)

  function Release(c: Fields): Fields {
    if c.refs == 0 then c
    else c.(refs := c.refs - 1, frees := c.frees + if c.refs == 1 then 1 else 0)
  }

  /** client_release_many_locked stops as soon as the object is freed. */
  function ReleaseMany(c: Fields, n: nat): Fields
    decreases n
  {
    if n == 0 then c else if c.refs == 1 then Release(c) else ReleaseMany(Release(c), n - 1)
  }

  function MarkDead(c: Fields): Fields {
    c.(dead := true, inList := false)
  }

  /** server_finish_client: the thread's own reference, and the list's if the client is still in it. */
  function Finish(c: Fields): Fields {
    ReleaseMany(MarkDead(c), if c.inList then 2 else 1)
  }

  /** The broadcaster's reaction to a failed send: the list's reference, if it still has one. */
  function Abandon(c: Fields): Fields {
    ReleaseMany(MarkDead(c), if c.inList then 1 else 0)
  }

  predicate Broadcastable(c: Fields) {
    c.authenticated && !c.dead
  }

  // ---------------------------------------------------------------- The list as a value

  ghost predicate NoDup<T>(s: seq<T>) {
    forall i, j :: 0 <= i < j < |s| ==> s[i] != s[j]
  }

  function Unlink<T(==)>(s: seq<T>, x: T): seq<T> {
    if s == [] then [] else if s[0] == x then s[1..] else [s[0]] + Unlink(s[1..], x)
  }

  lemma {:induction false} UnlinkIs<T>(s: seq<T>, i: nat)
    requires i < |s| && forall j :: 0 <= j < i ==> s[j] != s[i]
    ensures Unlink(s, s[i]) == s[..i] + s[i + 1..]
  {
    if i > 0 {
      assert s[0] != s[i];
      assert s[1..][i - 1] == s[i];
      UnlinkIs(s[1..], i - 1);
      assert [s[0]] + (s[1..][..i - 1] + s[1..][i..]) == s[..i] + s[i + 1..];
    }
  }

  lemma WithoutOne<T>(s: seq<T>, i: nat, y: T)
    requires i < |s| && forall j :: 0 <= j < |s| && j != i ==> s[j] != s[i]
    ensures y in s[..i] + s[i + 1..] <==> y in s && y != s[i]
  {
    var t := s[..i] + s[i + 1..];
    assert forall j :: 0 <= j < |t| ==> t[j] == s[if j < i then j else j + 1];
    if y in s && y != s[i] {
      var j :| 0 <= j < |s| && s[j] == y;
      assert t[if j < i then j else j - 1] == y;
    }
  }

  lemma StillDistinct<T>(s: seq<T>, i: nat)
    requires NoDup(s) && i < |s|
    ensures NoDup(s[..i] + s[i + 1..])
  {
    var t := s[..i] + s[i + 1..];
    assert forall j :: 0 <= j < |t| ==> t[j] == s[if j < i then j else j + 1];
  }

  /** Unlinking removes exactly the one element and keeps the order of the others. */
  lemma UnlinkAt<T>(s: seq<T>, i: nat)
    requires NoDup(s) && i < |s|
    ensures Unlink(s, s[i]) == s[..i] + s[i + 1..]
    ensures NoDup(Unlink(s, s[i]))
    ensures forall y :: y in Unlink(s, s[i]) <==> y in s && y != s[i]
  {
    UnlinkIs(s, i);
    StillDistinct(s, i);
    forall y
      ensures y in Unlink(s, s[i]) <==> y in s && y != s[i]
    {
      WithoutOne(s, i, y);
    }
  }

  lemma {:induction false} UnlinkAbsent<T>(s: seq<T>, x: T)
    requires x !in s
    ensures Unlink(s, x) == s
  {
    if s != [] {
      UnlinkAbsent(s[1..], x);
    }
  }

  /** The elements of `s` that are in `keep`, in the order of `s`. */
  function Filter<T(==)>(s: seq<T>, keep: set<T>): (r: seq<T>)
    ensures |r| <= |s|
    ensures forall x :: x in r ==> x in s && x in keep
    ensures forall x :: x in s && x in keep ==> x in r
  {
    if s == [] then []
    else
      var last := s[|s| - 1];
      Filter(s[..|s| - 1], keep) + if last in keep then [last] else []
  }

  lemma FilterNext<T>(s: seq<T>, keep: set<T>, i: nat)
    requires i < |s|
    ensures Filter(s[..i + 1], keep) == Filter(s[..i], keep) + if s[i] in keep then [s[i]] else []
  {
    assert s[..i + 1][..i] == s[..i];
  }

  lemma {:induction false} FilterNoDup<T>(s: seq<T>, keep: set<T>)
    requires NoDup(s)
    ensures NoDup(Filter(s, keep))
  {
    if s != [] {
      FilterNoDup(s[..|s| - 1], keep);
    }
  }

  // ---------------------------------------------------------------- The object on the heap

  class Client {
    var next: Client?
    var refs: nat
    var inList: bool
    var dead: bool
    var authenticated: bool
    var liveSeq: nat
    ghost var frees: nat

    ghost function Value(): Fields
      reads this
    {
      Fields(refs, frees, inList, dead, authenticated, liveSeq)
    }

    constructor (next: Client?)
      ensures this.next == next && Value() == NewFields
    {
      this.next := next;
      refs, inList, dead, authenticated, liveSeq, frees := 2, true, false, false, 0, 0;
    }
  }

  /** client_release_locked */
  method ReleaseLocked(c: Client) returns (freed: bool)
    modifies c`refs, c`frees
    ensures c.Value() == Release(old(c.Value()))
    ensures freed <==> old(c.refs) == 1
  {
    if c.refs == 0 {
      return false;
    }
    c.refs := c.refs - 1;
    if c.refs == 0 {
      c.frees := c.frees + 1;
      return true;
    }
    return false;
  }

  /** client_release_many_locked */
  method ReleaseManyLocked(c: Client, refs: nat)
    modifies c`refs, c`frees
    ensures c.Value() == ReleaseMany(old(c.Value()), refs)
  {
    var freed := false;
    var left := refs;
    while left > 0 && !freed
      invariant !freed ==> ReleaseMany(c.Value(), left) == ReleaseMany(old(c.Value()), refs)
      invariant freed ==> c.Value() == ReleaseMany(old(c.Value()), refs)
    {
      freed := ReleaseLocked(c);
      left := left - 1;
    }
  }

  /** The server's list of clients, linked through `next`; `all` holds every client ever added. */
  class ClientList {
    var clients: Client?
    ghost var list: seq<Client>
    ghost var all: set<Client>

    /** `list` is the chain of nodes from `clients` on. */
    ghost predicate Linked()
      reads this, list
    {
      && NoDup(list)
      && clients == At(0)
      && (forall i {:trigger list[i].next} :: 0 <= i < |list| ==> list[i].next == At(i + 1))
    }

    /** The in_list flags are set on exactly the reachable nodes. */
    ghost predicate Flagged()
      reads this, all
    {
      && (forall c :: c in list ==> c in all)
      && (forall c :: c in all ==> (c.inList <==> c in list))
    }

    ghost predicate Valid()
      reads this, all, list
    {
      Linked() && Flagged()
    }

    ghost function At(i: nat): Client?
      reads this
    {
      if i < |list| then list[i] else null
    }

    constructor ()
      ensures Valid() && list == [] && all == {}
    {
      clients, list, all := null, [], {};
    }

    /** server_add_client, up to the creation of its thread. */
    method Add() returns (c: Client)
      requires Valid()
      modifies this
      ensures Valid() && fresh(c)
      ensures list == [c] + old(list) && all == old(all) + {c}
      ensures c.Value() == NewFields
    {
      c := new Client(clients);
      clients := c;
      list := [c] + list;
      all := all + {c};
    }

    /** The pointer-to-pointer walk: `prev` is the node whose `next` it ends at, or null at the head. */
    method Walk(c: Client) returns (prev: Client?, ghost i: nat)
      requires Valid() && c in list
      ensures i < |list| && list[i] == c
      ensures prev == if i == 0 then null else list[i - 1]
    {
      prev := null;
      var cur := clients;
      i := 0;
      while cur != null && cur != c
        invariant i <= |list| && cur == At(i)
        invariant prev == if i == 0 then null else list[i - 1]
        invariant c !in list[..i]
        decreases |list| - i
      {
        prev := cur;
        cur := cur.next;
        i := i + 1;
      }
    }

    /** server_drop_from_list_locked */
    method DropFromList(c: Client) returns (dropped: bool)
      requires Valid() && c in all
      modifies this`clients, this`list, c`inList, (set x | x in list)`next
      ensures Valid() && all == old(all)
      ensures dropped == old(c.inList)
      ensures list == Unlink(old(list), c)
      ensures c.Value() == old(c.Value()).(inList := false)
    {
      if !c.inList {
        UnlinkAbsent(list, c);
        return false;
      }
      var prev, i := Walk(c);
      UnlinkAt(list, i);
      Splice(prev, c, i);
      c.inList := false;
      return true;
    }

    method Splice(prev: Client?, c: Client, ghost i: nat)
      requires Linked() && i < |list| && list[i] == c
      requires prev == if i == 0 then null else list[i - 1]
      modifies this`clients, this`list, (set x | x in list)`next
      ensures Linked() && list == old(list)[..i] + old(list)[i + 1..]
    {
      ghost var before := list;
      if prev == null {
        clients := c.next;
      } else {
        prev.next := c.next;
      }
      list := list[..i] + list[i + 1..];
      assert forall j :: 0 <= j < |list| ==> list[j] == before[if j < i then j else j + 1];
    }

    /** server_mark_dead_locked */
    method MarkDeadLocked(c: Client) returns (dropped: bool)
      requires Valid() && c in all
      modifies this`clients, this`list, c`inList, c`dead, (set x | x in list)`next
      ensures Valid() && all == old(all)
      ensures dropped == old(c.inList)
      ensures list == Unlink(old(list), c)
      ensures c.Value() == MarkDead(old(c.Value()))
    {
      if !c.dead {
        c.dead := true;
      }
      dropped := DropFromList(c);
    }

    /** server_finish_client */
    method FinishClient(c: Client)
      requires Valid() && c in all
      modifies this`clients, this`list, c`inList, c`dead, c`refs, c`frees, (set x | x in list)`next
      ensures Valid() && all == old(all)
      ensures list == Unlink(old(list), c)
      ensures c.Value() == Finish(old(c.Value()))
    {
      var dropped := MarkDeadLocked(c);
      ReleaseManyLocked(c, 1 + if dropped then 1 else 0);
    }

    /** The broadcaster's cleanup after a failed send. */
    method AbandonClient(c: Client)
      requires Valid() && c in all
      modifies this`clients, this`list, c`inList, c`dead, c`refs, c`frees, (set x | x in list)`next
      ensures Valid() && all == old(all)
      ensures list == Unlink(old(list), c)
      ensures c.Value() == Abandon(old(c.Value()))
    {
      var dropped := MarkDeadLocked(c);
      ReleaseManyLocked(c, if dropped then 1 else 0);
    }

    /** The clients a broadcast goes to. */
    ghost function Live(): (r: set<Client>)
      reads this, list
    {
      set x | x in list && Broadcastable(x.Value())
    }

    method CountLive() returns (count: nat)
      requires Valid()
      ensures count == |Filter(list, Live())|
    {
      count := 0;
      var c := clients;
      ghost var i := 0;
      while c != null
        invariant i <= |list| && c == At(i)
        invariant count == |Filter(list[..i], Live())|
        decreases |list| - i
      {
        FilterNext(list, Live(), i);
        if c.authenticated && !c.dead {
          count := count + 1;
        }
        c := c.next;
        i := i + 1;
      }
      assert list[..i] == list;
    }

    /** server_snapshot_clients: the live clients in list order, each pinned by one more reference. `memory` is
        whether calloc succeeds; if it fails, no client is returned and none is pinned. */
    method Snapshot(memory: bool) returns (snap: seq<Client>)
      requires Valid()
      modifies (set x | x in list)`refs
      ensures Valid()
      ensures snap == (if memory then Filter(list, old(Live())) else []) && NoDup(snap)
      ensures forall x :: x in list ==> x.Value() == old(x.Value()).(refs := old(x.refs) + if x in snap then 1 else 0)
    {
      ghost var live := Live();
      var count := CountLive();
      snap := [];
      FilterNoDup(list, live);
      if count == 0 {
        return;
      }
      if !memory {
        return;
      }
      snap := PinAll(live);
    }

    method PinAll(ghost live: set<Client>) returns (snap: seq<Client>)
      requires Linked() && forall i :: 0 <= i < |list| ==> (list[i] in live <==> list[i].authenticated && !list[i].dead)
      modifies (set x | x in list)`refs
      ensures snap == Filter(list, live)
      ensures forall i :: 0 <= i < |list| ==> list[i].refs == old(list[i].refs) + if list[i] in live then 1 else 0
    {
      hide Filter, NoDup;
      snap := [];
      var c := clients;
      ghost var i := 0;
      while c != null
        invariant i <= |list| && c == At(i)
        invariant snap == Filter(list[..i], live)
        invariant forall j :: 0 <= j < i ==> list[j].refs == old(list[j].refs) + if list[j] in live then 1 else 0
        invariant forall j :: i <= j < |list| ==> list[j].refs == old(list[j].refs)
        decreases |list| - i
      {
        assert Filter(list[..i + 1], live) == if list[i] in live then snap + [list[i]] else snap by {
          FilterNext(list, live, i);
        }
        if c.authenticated && !c.dead {
          Pin(c, i);
          snap := snap + [c];
        }
        c := c.next;
        i := i + 1;
      }
      assert list[..i] == list;
    }

    method Pin(c: Client, ghost i: nat)
      requires i < |list| && list[i] == c && NoDup(list)
      modifies c`refs
      ensures c.refs == old(c.refs) + 1
      ensures forall j :: 0 <= j < |list| && j != i ==> list[j].refs == old(list[j].refs)
    {
      c.refs := c.refs + 1;
    }

    /** server_release_snapshot */
    method ReleaseSnapshot(snap: seq<Client>)
      requires Valid() && NoDup(snap) && forall x :: x in snap ==> x in all
      modifies (set x | x in snap)`refs, (set x | x in snap)`frees
      ensures Valid()
      ensures forall x :: x in snap ==> x.Value() == Release(old(x.Value()))
    {
      for i := 0 to |snap|
        invariant Valid()
        invariant forall j :: 0 <= j < i ==> snap[j].Value() == Release(old(snap[j].Value()))
        invariant forall j :: i <= j < |snap| ==> snap[j].Value() == old(snap[j].Value())
      {
        var _ := ReleaseLocked(snap[i]);
      }
    }
  }
}
