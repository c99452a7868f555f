/** The kernel memory monitor on values: what registration, unregistration and one pass of the
    monitor thread do to the list of tracked processes, and what that means over whole runs. */
module MonitorPolicy {
  import opened CTypes

  const PAGE_SIZE: nat := 4096

  datatype Entry = Entry(pid: int, soft: nat, hard: nat, warned: bool)

  /** What the kernel says about a pid during a pass: no such process, no memory map, or a
      resident set of `n` pages. */
  datatype Look = Gone | NoMemory | Pages(n: nat)

  /** Looks of one pass, by pid; a pid not listed is gone. */
  type Looks = map<int, Look>

  datatype Event = Removed(pid: int) | Warned(pid: int, rss: nat, soft: nat) | Killed(pid: int, rss: nat, hard: nat)

  datatype Reply = Ok | Invalid | NoSpace | NotFound

  function LookAt(looks: Looks, pid: int): Look {
    if pid in looks then looks[pid] else Gone
  }

  /** `get_process_rss_mib`: the product wraps as `unsigned long` does. */
  function RssMib(pages: nat): nat {
    (pages * PAGE_SIZE % (ULONG_MAX + 1)) / MIB
  }

  // ---------------------------------------------------------------------------------------
  // One pass

  predicate Survives(e: Entry, looks: Looks) {
    LookAt(looks, e.pid).Pages?
  }

  predicate OverSoft(looks: Looks, pid: int, soft: nat) {
    LookAt(looks, pid).Pages? && RssMib(LookAt(looks, pid).n) > soft
  }

  predicate OverHard(looks: Looks, pid: int, hard: nat) {
    LookAt(looks, pid).Pages? && RssMib(LookAt(looks, pid).n) > hard
  }

  function Visit(e: Entry, looks: Looks): Entry {
    if OverSoft(looks, e.pid, e.soft) then e.(warned := true) else e
  }

  function VisitEvents(e: Entry, looks: Looks): seq<Event> {
    if !Survives(e, looks) then [Removed(e.pid)]
    else
      var rss := RssMib(LookAt(looks, e.pid).n);
      (if !e.warned && rss > e.soft then [Warned(e.pid, rss, e.soft)] else [])
      + (if rss > e.hard then [Killed(e.pid, rss, e.hard)] else [])
  }

  function TickEntries(es: seq<Entry>, looks: Looks): seq<Entry> {
    if es == [] then []
    else
      TickEntries(es[..|es| - 1], looks)
      + (if Survives(es[|es| - 1], looks) then [Visit(es[|es| - 1], looks)] else [])
  }

  function TickEvents(es: seq<Entry>, looks: Looks): seq<Event> {
    if es == [] then [] else TickEvents(es[..|es| - 1], looks) + VisitEvents(es[|es| - 1], looks)
  }

  // ---------------------------------------------------------------------------------------
  // The ioctls

  function IndexOf(es: seq<Entry>, pid: int, from: nat): (r: int)
    requires from <= |es|
    ensures r == -1 || from <= r < |es|
    ensures r >= 0 ==> es[r].pid == pid
    ensures forall k :: from <= k < (if r < 0 then |es| else r) ==> es[k].pid != pid
    decreases |es| - from
  {
    if from == |es| then -1
    else if es[from].pid == pid then from
    else IndexOf(es, pid, from + 1)
  }

  /** `memory` says whether `kmalloc` succeeds. */
  function Register(es: seq<Entry>, pid: int, soft: nat, hard: nat, memory: bool): (Reply, seq<Entry>) {
    if pid <= 0 then (Invalid, es)
    else if hard == 0 then (Invalid, es)
    else
      var i := IndexOf(es, pid, 0);
      if i >= 0 then (Ok, es[i := Entry(pid, soft, hard, false)])
      else if !memory then (NoSpace, es)
      else (Ok, es + [Entry(pid, soft, hard, false)])
  }

  function Unregister(es: seq<Entry>, pid: int): (Reply, seq<Entry>) {
    var i := IndexOf(es, pid, 0);
    if i < 0 then (NotFound, es) else (Ok, es[..i] + es[i + 1..])
  }

  // ---------------------------------------------------------------------------------------
  // The list is a finite map from pids

  datatype Tracking = Untracked | Tracked(soft: nat, hard: nat, warned: bool)

  ghost function TrackingOf(e: Entry): Tracking {
    Tracked(e.soft, e.hard, e.warned)
  }

  /** What the list says about a pid. */
  ghost function Lookup(es: seq<Entry>, p: int): Tracking {
    var i := IndexOf(es, p, 0);
    if i < 0 then Untracked else TrackingOf(es[i])
  }

  /** Pids are positive and listed once, hard limits are not zero. */
  ghost predicate WellFormed(es: seq<Entry>) {
    && (forall i :: 0 <= i < |es| ==> es[i].pid > 0 && es[i].hard > 0)
    && (forall i, j :: 0 <= i < j < |es| ==> es[i].pid != es[j].pid)
  }

  lemma LookupAt(es: seq<Entry>, i: nat)
    requires WellFormed(es) && i < |es|
    ensures Lookup(es, es[i].pid) == TrackingOf(es[i])
  {
  }

  lemma LookupNone(es: seq<Entry>, p: int)
    requires forall i :: 0 <= i < |es| ==> es[i].pid != p
    ensures Lookup(es, p) == Untracked
  {
  }

  lemma UpdateAt(es: seq<Entry>, i: nat, e: Entry, p: int)
    requires WellFormed(es) && i < |es| && es[i].pid == e.pid && e.hard > 0
    ensures WellFormed(es[i := e])
    ensures Lookup(es[i := e], p) == if p == e.pid then TrackingOf(e) else Lookup(es, p)
  {
    var es' := es[i := e];
    var k := IndexOf(es, p, 0);
    if k >= 0 {
      LookupAt(es', k);
    } else {
      LookupNone(es', p);
    }
  }

  lemma AppendAt(es: seq<Entry>, e: Entry, p: int)
    requires WellFormed(es) && IndexOf(es, e.pid, 0) < 0 && e.pid > 0 && e.hard > 0
    ensures WellFormed(es + [e])
    ensures Lookup(es + [e], p) == if p == e.pid then TrackingOf(e) else Lookup(es, p)
  {
    var es' := es + [e];
    var k := IndexOf(es, p, 0);
    if p == e.pid {
      LookupAt(es', |es|);
    } else if k >= 0 {
      LookupAt(es', k);
    } else {
      LookupNone(es', p);
    }
  }

  lemma RemoveAt(es: seq<Entry>, i: nat, p: int)
    requires WellFormed(es) && i < |es|
    ensures WellFormed(es[..i] + es[i + 1..])
    ensures Lookup(es[..i] + es[i + 1..], p) == if p == es[i].pid then Untracked else Lookup(es, p)
  {
    RemoveKeepsOrder(es, i);
    if p == es[i].pid {
      LookupNone(es[..i] + es[i + 1..], p);
    } else {
      RemoveLeavesOthers(es, i, p);
    }
  }

  lemma RemoveKeepsOrder(es: seq<Entry>, i: nat)
    requires WellFormed(es) && i < |es|
    ensures var es' := es[..i] + es[i + 1..];
            WellFormed(es') && forall k :: 0 <= k < |es'| ==> es'[k] == es[if k < i then k else k + 1]
  {
  }

  lemma RemoveLeavesOthers(es: seq<Entry>, i: nat, p: int)
    requires WellFormed(es) && i < |es| && p != es[i].pid && WellFormed(es[..i] + es[i + 1..])
    ensures Lookup(es[..i] + es[i + 1..], p) == Lookup(es, p)
  {
    var es', k := es[..i] + es[i + 1..], IndexOf(es, p, 0);
    if k < 0 {
      LookupNone(es', p);
    } else {
      LookupAt(es', if k < i then k else k - 1);
    }
  }

  /** Registration sets the limits of one pid and clears its warning, or changes nothing. */
  lemma RegisterRefines(es: seq<Entry>, pid: int, soft: nat, hard: nat, memory: bool, p: int)
    requires WellFormed(es)
    ensures var (reply, es') := Register(es, pid, soft, hard, memory);
            && WellFormed(es')
            && (reply == Ok <==> pid > 0 && hard > 0 && (Lookup(es, pid).Tracked? || memory))
            && (reply == NoSpace <==> pid > 0 && hard > 0 && Lookup(es, pid).Untracked? && !memory)
            && (reply == Ok ==> Lookup(es', p) == if p == pid then Tracked(soft, hard, false) else Lookup(es, p))
            && (reply != Ok ==> es' == es)
  {
    var e, i := Entry(pid, soft, hard, false), IndexOf(es, pid, 0);
    if pid > 0 && hard > 0 && i >= 0 {
      UpdateAt(es, i, e, p);
    } else if pid > 0 && hard > 0 && memory {
      AppendAt(es, e, p);
    }
  }

  /** Unregistration forgets one pid, and says so exactly when it was tracked. */
  lemma UnregisterRefines(es: seq<Entry>, pid: int, p: int)
    requires WellFormed(es)
    ensures var (reply, es') := Unregister(es, pid);
            && WellFormed(es')
            && Lookup(es', p) == (if p == pid then Untracked else Lookup(es, p))
            && reply == (if Lookup(es, pid).Tracked? then Ok else NotFound)
  {
    var i := IndexOf(es, pid, 0);
    if i >= 0 {
      RemoveAt(es, i, p);
    }
  }

  // ---------------------------------------------------------------------------------------
  // A pass, pid by pid

  /** What a pass makes of one pid. */
  ghost function TickTracking(t: Tracking, looks: Looks, p: int): Tracking {
    if t.Untracked? || !LookAt(looks, p).Pages? then Untracked
    else t.(warned := t.warned || OverSoft(looks, p, t.soft))
  }

  ghost function Of(p: int, events: seq<Event>): seq<Event> {
    if events == [] then []
    else Of(p, events[..|events| - 1]) + (if events[|events| - 1].pid == p then [events[|events| - 1]] else [])
  }

  /** What a pass reports about one pid. */
  ghost function TickReport(t: Tracking, looks: Looks, p: int): seq<Event> {
    if t.Untracked? then []
    else VisitEvents(Entry(p, t.soft, t.hard, t.warned), looks)
  }

  lemma {:induction false} OfConcat(p: int, a: seq<Event>, b: seq<Event>)
    ensures Of(p, a + b) == Of(p, a) + Of(p, b)
    decreases |b|
  {
    if b == [] {
      assert a + b == a;
    } else {
      OfConcat(p, a, b[..|b| - 1]);
      assert (a + b)[..|a + b| - 1] == a + b[..|b| - 1];
    }
  }

  lemma {:induction false} OfUniform(p: int, q: int, events: seq<Event>)
    requires forall e :: e in events ==> e.pid == q
    ensures Of(p, events) == if p == q then events else []
  {
    if events != [] {
      OfUniform(p, q, events[..|events| - 1]);
      assert events == events[..|events| - 1] + [events[|events| - 1]];
    }
  }

  lemma OfOneVisit(p: int, e: Entry, looks: Looks)
    ensures Of(p, VisitEvents(e, looks)) == if e.pid == p then VisitEvents(e, looks) else []
  {
    OfUniform(p, e.pid, VisitEvents(e, looks));
  }

  lemma LookupLast(es: seq<Entry>, p: int)
    requires WellFormed(es) && es != []
    ensures WellFormed(es[..|es| - 1])
    ensures Lookup(es, p) == if es[|es| - 1].pid == p then TrackingOf(es[|es| - 1]) else Lookup(es[..|es| - 1], p)
    ensures Lookup(es[..|es| - 1], es[|es| - 1].pid) == Untracked
  {
    var init := es[..|es| - 1];
    LookupNone(init, es[|es| - 1].pid);
    AppendAt(init, es[|es| - 1], p);
    assert init + [es[|es| - 1]] == es;
  }

  lemma {:induction false} TickTracks(es: seq<Entry>, looks: Looks, p: int)
    requires WellFormed(es)
    ensures WellFormed(TickEntries(es, looks))
    ensures Lookup(TickEntries(es, looks), p) == TickTracking(Lookup(es, p), looks, p)
    decreases |es|
  {
    if es != [] {
      var init, last := es[..|es| - 1], es[|es| - 1];
      LookupLast(es, p);
      LookupLast(es, last.pid);
      TickTracks(init, looks, p);
      TickTracks(init, looks, last.pid);
      if Survives(last, looks) {
        AppendAt(TickEntries(init, looks), Visit(last, looks), p);
      } else {
        assert TickEntries(es, looks) == TickEntries(init, looks);
      }
    }
  }

  lemma {:induction false} TickReports(es: seq<Entry>, looks: Looks, p: int)
    requires WellFormed(es)
    ensures Of(p, TickEvents(es, looks)) == TickReport(Lookup(es, p), looks, p)
    decreases |es|
  {
    if es != [] {
      var init, last := es[..|es| - 1], es[|es| - 1];
      LookupLast(es, p);
      LookupLast(es, last.pid);
      TickReports(init, looks, p);
      OfOneVisit(p, last, looks);
      OfConcat(p, TickEvents(init, looks), VisitEvents(last, looks));
      if p == last.pid {
        assert last == Entry(p, last.soft, last.hard, last.warned);
        assert Of(p, TickEvents(es, looks)) == [] + VisitEvents(last, looks);
      } else {
        assert Of(p, TickEvents(es, looks)) == Of(p, TickEvents(init, looks)) + [];
      }
    }
  }

  /** A pass treats every pid by itself: it forgets exactly the pids that are gone or have no
      memory map, marks those over their soft limit, keeps the rest, and reports once per pid. */
  lemma TickRefines(es: seq<Entry>, looks: Looks, p: int)
    requires WellFormed(es)
    ensures WellFormed(TickEntries(es, looks))
    ensures Lookup(TickEntries(es, looks), p) == TickTracking(Lookup(es, p), looks, p)
    ensures Of(p, TickEvents(es, looks)) == TickReport(Lookup(es, p), looks, p)
  {
    TickTracks(es, looks, p);
    TickReports(es, looks, p);
  }
}
