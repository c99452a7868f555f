/** The monitor's list as the kernel keeps it: a circular doubly linked list through a sentinel,
    changed in place.  `freed` marks nodes given to `kfree`; the traversals read a node only
    through members that require it not to be freed. */
module MonitorList {
  import opened MonitorPolicy
  import P = MonitorPolicy

  /** A `struct list_head`, with the entry around it; the sentinel's entry fields are unused. */
  class Node {
    var pid: int
    var soft: nat
    var hard: nat
    var warned: bool
    var prev: Node?
    var next: Node?
    ghost var freed: bool

    /** `kmalloc` and the assignments that follow it; `INIT_LIST_HEAD` points the node at itself. */
    constructor (pid: int, soft: nat, hard: nat)
      ensures EntryOf(this) == Entry(pid, soft, hard, false)
      ensures next == this && prev == this && !freed
    {
      this.pid, this.soft, this.hard, this.warned := pid, soft, hard, false;
      prev, next := this, this;
      freed := false;
    }

    function Next(): Node?
      requires !freed
      reads this
    {
      next
    }

    function Value(): Entry
      requires !freed
      reads this
    {
      Entry(pid, soft, hard, warned)
    }
  }

  ghost function EntryOf(n: Node): Entry
    reads n`pid, n`soft, n`hard, n`warned
  {
    Entry(n.pid, n.soft, n.hard, n.warned)
  }

  /** `es` is what the nodes store. */
  ghost predicate Stores(nodes: seq<Node>, es: seq<Entry>)
    reads nodes`pid, nodes`soft, nodes`hard, nodes`warned
  {
    |es| == |nodes| && forall i :: 0 <= i < |nodes| ==> EntryOf(nodes[i]) == es[i]
  }

  /** Position `i` of the ring: the sentinel, the nodes, and the sentinel again. */
  ghost function Cell(head: Node, nodes: seq<Node>, i: nat): Node
    requires i <= |nodes| + 1
  {
    if 1 <= i <= |nodes| then nodes[i - 1] else head
  }

  ghost predicate Linked(head: Node, nodes: seq<Node>, i: nat)
    requires i <= |nodes|
    reads head`next, head`prev, nodes`next, nodes`prev
  {
    Cell(head, nodes, i).next == Cell(head, nodes, i + 1) && Cell(head, nodes, i + 1).prev == Cell(head, nodes, i)
  }

  ghost predicate IsRing(head: Node, nodes: seq<Node>)
    reads head`next, head`prev, head`freed, nodes`next, nodes`prev, nodes`freed
  {
    && head !in nodes && !head.freed
    && (forall i, j :: 0 <= i < j < |nodes| ==> nodes[i] != nodes[j])
    && (forall i :: 0 <= i < |nodes| ==> !nodes[i].freed)
    && (forall i :: 0 <= i <= |nodes| ==> Linked(head, nodes, i))
  }

  lemma CellsDiffer(head: Node, nodes: seq<Node>, i: nat, j: nat)
    requires head !in nodes && forall a, b :: 0 <= a < b < |nodes| ==> nodes[a] != nodes[b]
    requires i < j <= |nodes| + 1 && !(i == 0 && j == |nodes| + 1)
    ensures Cell(head, nodes, i) != Cell(head, nodes, j)
  {
  }

  ghost function Without<T>(s: seq<T>, k: nat): seq<T>
    requires k < |s|
  {
    s[..k] + s[k + 1..]
  }

  /** The nodes a pass keeps, in order. */
  ghost function Survivors(nodes: seq<Node>, es: seq<Entry>, looks: Looks): seq<Node>
    requires |nodes| == |es|
  {
    if nodes == [] then []
    else
      Survivors(nodes[..|nodes| - 1], es[..|es| - 1], looks)
      + (if Survives(es[|es| - 1], looks) then [nodes[|nodes| - 1]] else [])
  }

  class List {
    const head: Node
    ghost var nodes: seq<Node>
    ghost var entries: seq<Entry>  // what the nodes store

    ghost predicate Valid()
      reads this, head, nodes
    {
      IsRing(head, nodes) && Stores(nodes, entries)
    }

    /** `LIST_HEAD(monitor_list)`. */
    constructor ()
      ensures Valid() && entries == [] && fresh(head)
    {
      head := new Node(0, 0, 0);
      nodes, entries := [], [];
    }

    /** `find_entry_locked`. */
    method Find(pid: int) returns (r: Node?, ghost k: int)
      requires Valid()
      ensures r == (var j := IndexOf(entries, pid, 0); if j < 0 then null else nodes[j])
      ensures k == IndexOf(entries, pid, 0)
    {
      var entry := head.Next();
      k := 0;
      assert Linked(head, nodes, 0);
      while entry != head
        invariant 0 <= k <= |nodes|
        invariant entry == Cell(head, nodes, k + 1)
        invariant IndexOf(entries, pid, 0) == IndexOf(entries, pid, k)
        decreases |nodes| - k
      {
        assert entry == nodes[k];
        if entry.Value().pid == pid {
          return entry, k;
        }
        assert Linked(head, nodes, k + 1);
        entry := entry.Next();
        k := k + 1;
      }
      return null, -1;
    }

    /** `list_del`: the neighbours are joined, the node's own links are poisoned. */
    method Unlink(x: Node, ghost k: nat)
      requires IsRing(head, nodes) && k < |nodes| && nodes[k] == x
      modifies head`next, head`prev, nodes`next, nodes`prev
      ensures forall i :: 0 <= i < |nodes| ==> Linked(head, Without(nodes, k), i)
    {
      assert Linked(head, nodes, k) && Linked(head, nodes, k + 1);
      var prev, next := x.prev, x.Next();
      next.prev := prev;
      prev.next := next;
      x.next, x.prev := null, null;
      forall i | 0 <= i < |nodes|
        ensures Linked(head, Without(nodes, k), i)
      {
        var j := if i <= k then i else i + 1;
        assert Cell(head, Without(nodes, k), i) == Cell(head, nodes, j);
        assert Cell(head, Without(nodes, k), i + 1) == Cell(head, nodes, if i == k then j + 2 else j + 1);
        if i != k {
          assert old(Linked(head, nodes, j));
          CellsDiffer(head, nodes, if j < k then j else k, if j < k then k else j);
          CellsDiffer(head, nodes, if j + 1 < k + 2 then j + 1 else k + 2, if j + 1 < k + 2 then k + 2 else j + 1);
        }
      }
    }

    /** `list_del` and `kfree`. */
    method Remove(x: Node, ghost k: nat)
      requires Valid() && k < |nodes| && nodes[k] == x
      modifies this, head`next, head`prev, nodes`next, nodes`prev, nodes`freed
      ensures Valid() && nodes == Without(old(nodes), k) && entries == Without(old(entries), k)
      ensures x.freed && forall n :: n in old(nodes) && n != x ==> n.freed == old(n.freed)
    {
      Unlink(x, k);
      x.freed := true;
      nodes := Without(nodes, k);
      entries := Without(entries, k);
    }

    /** `list_add_tail`. */
    method Append(x: Node)
      requires Valid() && x !in nodes && x != head && !x.freed
      modifies this, head`next, head`prev, nodes`next, x`next, x`prev
      ensures Valid() && nodes == old(nodes) + [x] && entries == old(entries) + [EntryOf(x)]
    {
      assert Linked(head, nodes, |nodes|);
      var prev := head.prev;
      head.prev := x;
      x.next := head;
      x.prev := prev;
      prev.next := x;
      ghost var was := nodes;
      nodes, entries := nodes + [x], entries + [EntryOf(x)];
      forall i | 0 <= i <= |nodes|
        ensures Linked(head, nodes, i)
      {
        assert i <= |was| ==> Cell(head, nodes, i) == Cell(head, was, i);
        if i < |was| {
          assert old(Linked(head, nodes, i));
          assert Cell(head, nodes, i + 1) == Cell(head, was, i + 1);
          CellsDiffer(head, was, i, |was|);
        }
      }
    }

    /** New limits for a tracked process, which may be warned again. */
    method Update(entry: Node, soft: nat, hard: nat, ghost k: nat)
      requires Valid() && k < |nodes| && nodes[k] == entry
      modifies this`entries, entry`soft, entry`hard, entry`warned
      ensures Valid() && entries == old(entries)[k := Entry(old(entries)[k].pid, soft, hard, false)]
    {
      entry.soft := soft;
      entry.hard := hard;
      entry.warned := false;
      entries := entries[k := Entry(entries[k].pid, soft, hard, false)];
    }

    /** REGISTER_CONTAINER; `memory` says whether `kmalloc` succeeds. */
    method Register(pid: int, soft: nat, hard: nat, memory: bool) returns (reply: Reply)
      requires Valid()
      modifies this, head, nodes
      ensures Valid()
      ensures (reply, entries) == P.Register(old(entries), pid, soft, hard, memory)
    {
      if pid <= 0 {
        return Invalid;
      }
      if hard == 0 {
        return Invalid;
      }
      var entry, k := Find(pid);
      if entry != null {
        Update(entry, soft, hard, k);
        return Ok;
      }
      if !memory {
        return NoSpace;
      }
      entry := new Node(pid, soft, hard);
      Append(entry);
      return Ok;
    }

    /** UNREGISTER_CONTAINER: `remove_entry_locked`, which fetches the next node before it
        looks at the current one. */
    method Unregister(pid: int) returns (reply: Reply)
      requires Valid()
      modifies this, head, nodes
      ensures Valid()
      ensures (reply, entries) == P.Unregister(old(entries), pid)
    {
      assert Linked(head, nodes, 0);
      ghost var k := 0;
      var entry := head.Next();
      var tmp := entry.Next();
      while entry != head
        invariant Valid() && nodes == old(nodes) && entries == old(entries)
        invariant 0 <= k <= |nodes| && entry == Cell(head, nodes, k + 1) && tmp == entry.next
        invariant IndexOf(entries, pid, 0) == IndexOf(entries, pid, k)
        decreases |nodes| - k
      {
        assert entry == nodes[k];
        if entry.Value().pid == pid {
          Remove(entry, k);
          return Ok;
        }
        assert Linked(head, nodes, k + 1);
        entry := tmp;
        tmp := tmp.Next();
        k := k + 1;
      }
      return NotFound;
    }

    // -------------------------------------------------------------------------------------
    // The monitor pass

    /** The pass has dealt with the first `i` of the original nodes. */
    ghost predicate Midway(orig: seq<Node>, es: seq<Entry>, i: nat, looks: Looks)
      reads this, head, nodes
    {
      && i <= |orig| == |es|
      && Valid()
      && nodes == Survivors(orig[..i], es[..i], looks) + orig[i..]
      && entries == TickEntries(es[..i], looks) + es[i..]
    }

    /** `list_del` and `kfree` of the node the pass has reached. */
    method Drop(x: Node, ghost orig: seq<Node>, ghost es: seq<Entry>, ghost i: nat, ghost looks: Looks)
      requires Midway(orig, es, i, looks) && i < |orig| && x == orig[i] && !Survives(es[i], looks)
      modifies this, head`next, head`prev, nodes`next, nodes`prev, nodes`freed
      ensures Midway(orig, es, i + 1, looks)
      ensures x.freed && forall n :: n in old(nodes) && n != x ==> n.freed == old(n.freed)
    {
      ghost var kept := Survivors(orig[..i], es[..i], looks);
      SameLength(orig[..i], es[..i], looks);
      PrefixStep(orig, es, i);
      WithoutMiddle(kept, orig[i..]);
      WithoutMiddle(TickEntries(es[..i], looks), es[i..]);
      Remove(x, |kept|);
    }

    /** The soft-limit bookkeeping of the node the pass has reached, which stays. */
    method Keep(x: Node, rss: nat, ghost orig: seq<Node>, ghost es: seq<Entry>, ghost i: nat, ghost looks: Looks)
      returns (warn: bool)
      requires Midway(orig, es, i, looks) && i < |orig| && x == orig[i]
      requires LookAt(looks, es[i].pid).Pages? && rss == RssMib(LookAt(looks, es[i].pid).n)
      modifies this`entries, x`warned
      ensures Midway(orig, es, i + 1, looks)
      ensures warn == (!es[i].warned && rss > es[i].soft)
    {
      ghost var kept := Survivors(orig[..i], es[..i], looks);
      SameLength(orig[..i], es[..i], looks);
      PrefixStep(orig, es, i);
      assert nodes[|kept|] == x && entries[|kept|] == es[i];
      warn := !x.Value().warned && rss > x.Value().soft;
      if warn {
        x.warned := true;
        entries := entries[|kept| := Visit(es[i], looks)];
      }
      assert nodes == kept + [x] + orig[i + 1..];
      assert entries == TickEntries(es[..i], looks) + [Visit(es[i], looks)] + es[i + 1..];
    }

    /** Where the pass stands: `entry` is the next original node, or the sentinel at the end. */
    ghost predicate Cursor(orig: seq<Node>, i: nat, entry: Node, tmp: Node?)
      reads entry
    {
      i <= |orig| && entry == (if i < |orig| then orig[i] else head) && tmp == entry.next
    }

    lemma NextCursor(orig: seq<Node>, es: seq<Entry>, i: nat, looks: Looks)
      requires Midway(orig, es, i, looks) && i < |orig|
      ensures orig[i] in nodes && orig[i] != head && EntryOf(orig[i]) == es[i] && !orig[i].freed
      ensures orig[i].next == (if i + 1 < |orig| then orig[i + 1] else head)
    {
      ghost var k := |Survivors(orig[..i], es[..i], looks)|;
      SameLength(orig[..i], es[..i], looks);
      assert nodes[k] == orig[i] && entries[k] == es[i];
      assert Linked(head, nodes, k + 1);
      assert Cell(head, nodes, k + 1) == orig[i];
    }

    /** The body of the loop over the list. */
    method Inspect(x: Node, looks: Looks, ghost orig: seq<Node>, ghost es: seq<Entry>, ghost i: nat)
      returns (events: seq<Event>)
      requires Midway(orig, es, i, looks) && i < |orig| && x == orig[i]
      modifies this, head`next, head`prev, nodes`next, nodes`prev, nodes`freed, nodes`warned
      ensures Midway(orig, es, i + 1, looks)
      ensures events == VisitEvents(es[i], looks)
      ensures x.freed <==> !Survives(es[i], looks)
      ensures forall n :: n in old(nodes) && n != x ==> n.freed == old(n.freed)
    {
      NextCursor(orig, es, i, looks);
      var v := x.Value();
      var look := LookAt(looks, v.pid);
      if look.Gone? {
        events := [Removed(v.pid)];
        Drop(x, orig, es, i, looks);
      } else if look.NoMemory? {
        events := [Removed(v.pid)];
        Drop(x, orig, es, i, looks);
      } else {
        var rss := RssMib(look.n);
        var warn := Keep(x, rss, orig, es, i, looks);
        events := if warn then [Warned(v.pid, rss, v.soft)] else [];
        if rss > v.hard {
          events := events + [Killed(v.pid, rss, v.hard)];
        }
      }
    }

    /** `Midway`, and of the nodes dealt with exactly the dropped ones are freed. */
    ghost predicate Progress(orig: seq<Node>, es: seq<Entry>, i: nat, looks: Looks)
      reads this, head, nodes, orig
    {
      && Midway(orig, es, i, looks)
      && (forall j :: 0 <= j < i ==> (orig[j].freed <==> !Survives(es[j], looks)))
      && (forall j, l :: 0 <= j < l < |orig| ==> orig[j] != orig[l])
      && (forall n :: n in nodes ==> n in orig)
    }

    /** One iteration of `list_for_each_entry_safe`: the body, then the step to the node fetched
        before the body ran. */
    method Advance(x: Node, tmp: Node?, looks: Looks, ghost orig: seq<Node>, ghost es: seq<Entry>, ghost i: nat)
      returns (seen: seq<Event>, entry: Node, after: Node?, ghost read: Entry)
      requires Progress(orig, es, i, looks) && i < |orig| && Cursor(orig, i, x, tmp)
      modifies this, head, orig
      ensures Progress(orig, es, i + 1, looks) && Cursor(orig, i + 1, entry, after)
      ensures seen == VisitEvents(es[i], looks) && read == es[i]
    {
      NextCursor(orig, es, i, looks);
      read := x.Value();
      assert forall j :: 0 <= j < |nodes| ==> nodes[j] in orig;
      seen := Inspect(x, looks, orig, es, i);
      SurvivorsAreNodes(orig[..i + 1], es[..i + 1], looks);
      if i + 1 < |orig| {
        NextCursor(orig, es, i + 1, looks);
      }
      entry := tmp;
      after := entry.Next();
    }

    lemma StartProgress(looks: Looks)
      requires Valid()
      ensures Progress(nodes, entries, 0, looks)
      ensures head.next == (if 0 < |nodes| then nodes[0] else head)
    {
      assert Linked(head, nodes, 0);
      assert nodes[..0] == [] && entries[..0] == [];
      assert nodes[0..] == nodes && entries[0..] == entries;
      assert nodes == [] + nodes && entries == [] + entries;
    }

    lemma EndProgress(orig: seq<Node>, es: seq<Entry>, looks: Looks)
      requires Progress(orig, es, |orig|, looks)
      ensures Valid() && nodes == Survivors(orig, es, looks) && entries == TickEntries(es, looks)
      ensures orig[..|orig|] == orig && es[..|orig|] == es
    {
      assert orig[..|orig|] == orig && es[..|es|] == es;
      assert nodes == Survivors(orig, es, looks) + [] && entries == TickEntries(es, looks) + [];
    }

    /** One pass of `monitor_thread_fn`.  `looks` is what the kernel says about each process,
        `visited` the entries the loop body saw, in order. */
    method Tick(looks: Looks) returns (events: seq<Event>, ghost visited: seq<Entry>)
      requires Valid()
      modifies this, head, nodes
      ensures Valid() && entries == TickEntries(old(entries), looks)
      ensures nodes == Survivors(old(nodes), old(entries), looks)
      ensures events == TickEvents(old(entries), looks) && visited == old(entries)
      ensures forall j :: 0 <= j < |old(nodes)| ==> (old(nodes)[j].freed <==> !Survives(old(entries)[j], looks))
    {
      ghost var orig, es, i := nodes, entries, 0;
      StartProgress(looks);
      var entry: Node := head.Next();
      if 0 < |orig| {
        NextCursor(orig, es, 0, looks);
      }
      var tmp := entry.Next();
      events, visited := [], [];
      while entry != head
        invariant Progress(orig, es, i, looks) && Cursor(orig, i, entry, tmp)
        invariant Traced(es, i, looks, events, visited)
        decreases |orig| - i
      {
        ghost var read;
        var seen;
        seen, entry, tmp, read := Advance(entry, tmp, looks, orig, es, i);
        TracedNext(es, i, looks, events, visited);
        events := events + seen;
        visited := visited + [read];
        i := i + 1;
      }
      EndProgress(orig, es, looks);
    }

    /** One iteration of the traversal in `monitor_exit`: unlink, free, step. */
    method Discard(x: Node, tmp: Node?, ghost orig: seq<Node>, ghost es: seq<Entry>, ghost i: nat)
      returns (entry: Node, after: Node?)
      requires Progress(orig, es, i, map[]) && i < |orig| && Cursor(orig, i, x, tmp)
      modifies this, head, orig
      ensures Progress(orig, es, i + 1, map[]) && Cursor(orig, i + 1, entry, after)
    {
      NextCursor(orig, es, i, map[]);
      assert forall j :: 0 <= j < |nodes| ==> nodes[j] in orig;
      Drop(x, orig, es, i, map[]);
      SurvivorsAreNodes(orig[..i + 1], es[..i + 1], map[]);
      if i + 1 < |orig| {
        NextCursor(orig, es, i + 1, map[]);
      }
      entry := tmp;
      after := entry.Next();
    }

    /** The list teardown of `monitor_exit`. */
    method Teardown()
      requires Valid()
      modifies this, head, nodes
      ensures Valid() && nodes == [] && entries == []
      ensures forall n :: n in old(nodes) ==> n.freed
    {
      ghost var orig, es, i := nodes, entries, 0;
      StartProgress(map[]);
      var entry: Node := head.Next();
      if 0 < |orig| {
        NextCursor(orig, es, 0, map[]);
      }
      var tmp := entry.Next();
      while entry != head
        invariant Progress(orig, es, i, map[]) && Cursor(orig, i, entry, tmp)
        decreases |orig| - i
      {
        entry, tmp := Discard(entry, tmp, orig, es, i);
        i := i + 1;
      }
      EndProgress(orig, es, map[]);
      NoneSurvive(orig, es);
    }
  }

  /** With no process left, a pass keeps nothing. */
  lemma {:induction false} NoneSurvive(nodes: seq<Node>, es: seq<Entry>)
    requires |nodes| == |es|
    ensures Survivors(nodes, es, map[]) == [] && TickEntries(es, map[]) == []
  {
    if nodes != [] {
      NoneSurvive(nodes[..|nodes| - 1], es[..|es| - 1]);
    }
  }

  /** What a pass over the first `i` entries reported and saw. */
  ghost predicate Traced(es: seq<Entry>, i: nat, looks: Looks, events: seq<Event>, visited: seq<Entry>) {
    i <= |es| && events == TickEvents(es[..i], looks) && visited == es[..i]
  }

  lemma TracedNext(es: seq<Entry>, i: nat, looks: Looks, events: seq<Event>, visited: seq<Entry>)
    requires i < |es| && Traced(es, i, looks, events, visited)
    ensures Traced(es, i + 1, looks, events + VisitEvents(es[i], looks), visited + [es[i]])
  {
    assert es[..i + 1][..i] == es[..i];
  }

  lemma {:induction false} SurvivorsAreNodes(nodes: seq<Node>, es: seq<Entry>, looks: Looks)
    requires |nodes| == |es|
    ensures forall n :: n in Survivors(nodes, es, looks) ==> n in nodes
  {
    if nodes != [] {
      SurvivorsAreNodes(nodes[..|nodes| - 1], es[..|es| - 1], looks);
    }
  }

  lemma WithoutMiddle<T>(a: seq<T>, b: seq<T>)
    requires b != []
    ensures Without(a + b, |a|) == a + b[1..] && (a + b)[|a|] == b[0]
  {
  }

  lemma {:induction false} SameLength(nodes: seq<Node>, es: seq<Entry>, looks: Looks)
    requires |nodes| == |es|
    ensures |Survivors(nodes, es, looks)| == |TickEntries(es, looks)|
  {
    if nodes != [] {
      SameLength(nodes[..|nodes| - 1], es[..|es| - 1], looks);
    }
  }

  lemma PrefixStep<T, U>(a: seq<T>, b: seq<U>, i: nat)
    requires i < |a| == |b|
    ensures a[..i + 1][..i] == a[..i] && b[..i + 1][..i] == b[..i]
    ensures a[..i + 1][i] == a[i] && b[..i + 1][i] == b[i]
  {
  }
}
