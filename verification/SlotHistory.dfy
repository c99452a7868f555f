/** What happens to one slot over a whole run. */
module SlotHistory {
  import opened Containers
  import C = Containers
  import opened Lifecycle
  import SI = SlotInvariant

  /** The life of a slot as `ps` would show it. */
  datatype Life = Free | Now(state: Phase)

  ghost function LifeOf(slot: Slot): Life {
    if slot.used then Now(slot.state) else Free
  }

  /** FREE -> STARTING -> FREE or RUNNING, RUNNING -> STOPPED, EXITED or KILLED. */
  ghost predicate Edge(a: Life, b: Life) {
    || (a == Free && b == Now(Starting))
    || (a == Now(Starting) && (b == Free || b == Now(Running)))
    || (a == Now(Running) && b.Now? && Terminal(b.state))
  }

  ghost predicate TerminalLife(a: Life) {
    a.Now? && Terminal(a.state)
  }

  /** `Edge`, or staying put, or one terminal state overwritten by another. */
  ghost predicate Loose(a: Life, b: Life) {
    a == b || Edge(a, b) || (TerminalLife(a) && TerminalLife(b))
  }

  lemma EvolvingIsLoose(a: Slot, b: Slot)
    requires SI.Evolves(a, b)
    ensures Loose(LifeOf(a), LifeOf(b))
  {
  }

  lemma StepIsLoose(s: Sys, l: Label, i: nat)
    requires SI.Inv(s) && Enabled(s, l) && i < MAX_CONTAINERS
    ensures |Next(s, l).slots| == MAX_CONTAINERS
    ensures Loose(LifeOf(s.slots[i]), LifeOf(Next(s, l).slots[i]))
  {
    if !l.DoClaim? {
      SI.StepEvolves(s, l);
      EvolvingIsLoose(s.slots[i], Next(s, l).slots[i]);
    }
  }

  // ---------------------------------------------------------------------------------------
  // Attribution of terminations

  ghost predicate Attributed(slot: Slot) {
    slot.used ==>
      && (slot.stopRequested && Terminal(slot.state) ==> slot.state == Stopped)
      && (slot.state == Stopped && !slot.stopRequested ==> slot.exitCode == -1)
  }

  lemma EvolvingKeepsAttribution(a: Slot, b: Slot)
    requires SI.Evolves(a, b) && Attributed(a)
    ensures Attributed(b)
  {
  }

  lemma StepKeepsAttribution(s: Sys, l: Label, i: nat)
    requires SI.Inv(s) && Enabled(s, l) && i < MAX_CONTAINERS && Attributed(s.slots[i])
    ensures |Next(s, l).slots| == MAX_CONTAINERS
    ensures Attributed(Next(s, l).slots[i])
  {
    if !l.DoClaim? {
      SI.StepEvolves(s, l);
      EvolvingKeepsAttribution(s.slots[i], Next(s, l).slots[i]);
    }
  }

  /** In every reachable state EXITED and KILLED mean that no stop was requested, a stop that
      was requested ends in STOPPED, and STOPPED without a request is the odd wait status. */
  lemma {:induction false} AttributionHolds(states: seq<Sys>, labels: seq<Label>, k: nat, i: nat)
    requires IsRun(states, labels) && k < |states| && i < MAX_CONTAINERS
    ensures |states[k].slots| == MAX_CONTAINERS && Attributed(states[k].slots[i])
  {
    SI.InvHolds(states, labels, k);
    if k > 0 {
      AttributionHolds(states, labels, k - 1, i);
      SI.InvHolds(states, labels, k - 1);
      assert StepAt(states, labels, k - 1);
      StepKeepsAttribution(states[k - 1], labels[k - 1], i);
    }
  }

  // ---------------------------------------------------------------------------------------
  // Capacity

  lemma AtMost(a: set<nat>, n: nat)
    requires forall i :: i in a ==> i < n
    ensures |a| <= n
  {
    if n == 0 {
      assert a == {};
    } else {
      AtMost(a - {n - 1}, n - 1);
    }
  }

  lemma StepKeepsPublished(s: Sys, l: Label)
    requires Enabled(s, l)
    ensures s.hist.published <= Next(s, l).hist.published
  {
    match l
    case Local(t, a) => SI.LocalMoves(s, t, a);
    case _ =>
  }

  lemma {:induction false} PublishedForever(states: seq<Sys>, labels: seq<Label>, j: nat, k: nat)
    requires IsRun(states, labels) && j <= k < |states|
    ensures states[j].hist.published <= states[k].hist.published
    decreases k
  {
    if j < k {
      PublishedForever(states, labels, j, k - 1);
      assert StepAt(states, labels, k - 1);
      StepKeepsPublished(states[k - 1], labels[k - 1]);
    }
  }

  /** A run has at most ten successful starts, however many containers have finished. */
  lemma AtMostTenStarts(states: seq<Sys>, labels: seq<Label>, k: nat)
    requires IsRun(states, labels) && k < |states|
    ensures states[k].hist.publishes <= MAX_CONTAINERS
  {
    SI.InvHolds(states, labels, k);
    AtMost(states[k].hist.published, MAX_CONTAINERS);
  }

  /** The reason: a published slot is never free again. */
  lemma PublishedStaysUsed(states: seq<Sys>, labels: seq<Label>, j: nat, k: nat, i: nat)
    requires IsRun(states, labels) && j <= k < |states| && i in states[j].hist.published
    ensures i < |states[k].slots| && states[k].slots[i].used
    ensures states[k].slots[i].state == Running || Terminal(states[k].slots[i].state)
  {
    SI.InvHolds(states, labels, k);
    PublishedForever(states, labels, j, k);
    assert SI.SlotMatches(states[k], i);
  }

  /** What the request put into a slot. */
  ghost function RequestPart(slot: Slot): Slot {
    slot.(used := true, pid := 0, state := Blank, exitCode := 0, stopRequested := false, stack := 0)
  }

  lemma StepKeepsRequest(s: Sys, l: Label, i: nat)
    requires SI.Inv(s) && Enabled(s, l) && i in s.hist.published
    ensures i < |s.slots| && i < |Next(s, l).slots|
    ensures RequestPart(Next(s, l).slots[i]) == RequestPart(s.slots[i]) && Next(s, l).slots[i].pid == s.slots[i].pid
  {
    assert SI.SlotMatches(s, i);
    if !l.DoClaim? {
      SI.StepEvolves(s, l);
      assert SI.Evolves(s.slots[i], Next(s, l).slots[i]);
    }
  }

  /** A published slot keeps its pid, id, rootfs, command, log file, limits, niceness and start
      time for the rest of the run. */
  lemma {:induction false} IdentityForever(states: seq<Sys>, labels: seq<Label>, j: nat, k: nat, i: nat)
    requires IsRun(states, labels) && j <= k < |states| && i in states[j].hist.published
    ensures i < |states[j].slots| && i < |states[k].slots|
    ensures RequestPart(states[k].slots[i]) == RequestPart(states[j].slots[i]) && states[k].slots[i].pid == states[j].slots[i].pid
    decreases k
  {
    if j < k {
      IdentityForever(states, labels, j, k - 1, i);
      PublishedForever(states, labels, j, k - 1);
      SI.InvHolds(states, labels, k - 1);
      assert StepAt(states, labels, k - 1);
      StepKeepsRequest(states[k - 1], labels[k - 1], i);
    } else {
      SI.InvHolds(states, labels, j);
    }
  }

  // ---------------------------------------------------------------------------------------
  // A stop is noted before it is signalled

  /** The signal's slot, if it was seen RUNNING, is published and marked as asked to stop. */
  ghost predicate Marked(s: Sys, m: Term) {
    m.phase == Running ==> m.index in s.hist.published && m.index < |s.slots| && s.slots[m.index].stopRequested
  }

  ghost predicate AllMarked(s: Sys) {
    && (forall t :: t in s.stops ==> Marked(s, s.stops[t]))
    && (forall m :: m in s.hist.terms ==> Marked(s, m))
  }

  lemma MarkStays(s: Sys, l: Label, m: Term)
    requires SI.Inv(s) && Enabled(s, l) && Marked(s, m)
    ensures Marked(Next(s, l), m)
  {
    StepKeepsPublished(s, l);
    if m.phase == Running {
      assert SI.SlotMatches(s, m.index);
      if !l.DoClaim? {
        SI.StepEvolves(s, l);
        assert SI.Evolves(s.slots[m.index], Next(s, l).slots[m.index]);
      }
    }
  }

  lemma NewStopIsMarked(s: Sys, t: Tid, id: string)
    requires SI.Inv(s) && Enabled(s, DoStop(t, id))
    ensures var s' := AfterStop(s, t, id);
            && (forall u :: u in s'.stops ==> (u in s.stops && s'.stops[u] == s.stops[u]) || Marked(s', s'.stops[u]))
            && s'.hist == s.hist
  {
    var outcome := C.RequestStop(s.slots, id).0;
    if outcome.Signal? {
      assert SI.SlotMatches(s, outcome.index);
    }
  }

  lemma StopAllMarks(s: Sys, m: Term)
    requires SI.Inv(s) && Enabled(s, DoStopAll) && m in TermsToLive(s.slots)
    ensures Marked(Next(s, DoStopAll), m)
  {
    assert SI.SlotMatches(s, m.index);
  }

  lemma StepKeepsMarks(s: Sys, l: Label)
    requires SI.Inv(s) && Enabled(s, l) && AllMarked(s)
    ensures AllMarked(Next(s, l))
  {
    forall m | Marked(s, m)
      ensures Marked(Next(s, l), m)
    {
      MarkStays(s, l, m);
    }
    match l
    case DoStop(t, id) => NewStopIsMarked(s, t, id);
    case DoStopAll =>
      forall m | m in TermsToLive(s.slots)
        ensures Marked(Next(s, l), m)
      {
        StopAllMarks(s, m);
      }
    case DoKill(_) =>
    case _ =>
  }

  lemma {:induction false} MarksHold(states: seq<Sys>, labels: seq<Label>, k: nat)
    requires IsRun(states, labels) && k < |states|
    ensures AllMarked(states[k])
  {
    if k > 0 {
      MarksHold(states, labels, k - 1);
      SI.InvHolds(states, labels, k - 1);
      assert StepAt(states, labels, k - 1);
      StepKeepsMarks(states[k - 1], labels[k - 1]);
    }
  }

  /** Whenever SIGTERM is about to go, or has gone, to a container seen RUNNING, that container
      is marked as asked to stop; so if it is terminal, it shows STOPPED. */
  lemma SignalledMeansStopped(states: seq<Sys>, labels: seq<Label>, k: nat, m: Term)
    requires IsRun(states, labels) && k < |states| && m.phase == Running
    requires m in states[k].hist.terms || m in states[k].stops.Values
    ensures m.index < |states[k].slots| && states[k].slots[m.index].used && states[k].slots[m.index].stopRequested
    ensures states[k].slots[m.index].state == Running || states[k].slots[m.index].state == Stopped
  {
    MarksHold(states, labels, k);
    SI.InvHolds(states, labels, k);
    assert Marked(states[k], m);
    assert SI.SlotMatches(states[k], m.index);
    AttributionHolds(states, labels, k, m.index);
  }
}
