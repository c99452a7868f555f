/** Who is marked and signalled by a stop, over whole runs. */
module Stops {
  import opened Containers
  import opened Lifecycle
  import SI = SlotInvariant
  import SH = SlotHistory
  import EX = Exclusivity

  lemma ReachableIdsAreUnique(states: seq<Sys>, labels: seq<Label>, k: nat)
    requires IsRun(states, labels) && k < |states|
    ensures UniqueIds(states[k].slots)
  {
    EX.ExclusiveAlways(states, labels, k);
    forall i, j | 0 <= i < j < |states[k].slots| && states[k].slots[i].used && states[k].slots[j].used
      ensures states[k].slots[i].id != states[k].slots[j].id
    {
      assert EX.Apart(states[k].slots[i], states[k].slots[j]);
    }
  }

  /** `stop id` marks the live container of that name and prepares a signal to its pid, and does
      nothing to any other; without such a container it does nothing at all. */
  lemma StopMarksTheNamed(states: seq<Sys>, labels: seq<Label>, k: nat, t: Tid, id: string)
    requires IsRun(states, labels) && StepAt(states, labels, k) && labels[k] == DoStop(t, id)
    ensures var s, s' := states[k], states[k + 1];
            && (t in s'.stops <==> exists i :: IsNamed(s.slots, i, id) && Live(s.slots[i].state))
            && (t in s'.stops ==>
                  && IsNamed(s.slots, s'.stops[t].index, id) && Live(s.slots[s'.stops[t].index].state)
                  && s'.stops[t] == Term(s'.stops[t].index, s.slots[s'.stops[t].index].pid, s.slots[s'.stops[t].index].state)
                  && s'.slots == s.slots[s'.stops[t].index := s.slots[s'.stops[t].index].(stopRequested := true)])
            && (t !in s'.stops ==> s'.slots == s.slots)
            && (forall u :: u in s.stops ==> u in s'.stops && s'.stops[u] == s.stops[u])
            && s'.hist.terms == s.hist.terms
  {
    ReachableIdsAreUnique(states, labels, k);
    RequestStopExactly(states[k].slots, id);
  }

  /** The signal sent is the one prepared. */
  lemma KillSendsThePrepared(states: seq<Sys>, labels: seq<Label>, k: nat, t: Tid)
    requires IsRun(states, labels) && StepAt(states, labels, k) && labels[k] == DoKill(t)
    ensures t in states[k].stops && states[k + 1].hist.terms == states[k].hist.terms + {states[k].stops[t]}
    ensures t !in states[k + 1].stops && states[k + 1].slots == states[k].slots
    ensures forall u :: u in states[k].stops && u != t ==> u in states[k + 1].stops && states[k + 1].stops[u] == states[k].stops[u]
  {
  }

  /** Shutdown marks and signals exactly the used live containers. */
  lemma StopAllMarksAndSignals(states: seq<Sys>, labels: seq<Label>, k: nat, i: nat)
    requires IsRun(states, labels) && StepAt(states, labels, k) && labels[k] == DoStopAll && i < |states[k].slots|
    ensures i < |states[k + 1].slots|
    ensures var a, b := states[k].slots[i], states[k + 1].slots[i];
            if a.used && Live(a.state) then b == a.(stopRequested := true) && Term(i, a.pid, a.state) in states[k + 1].hist.terms
            else b == a
    ensures forall m :: m in states[k + 1].hist.terms && m !in states[k].hist.terms ==>
              && m.index < |states[k].slots| && states[k].slots[m.index].used && Live(states[k].slots[m.index].state)
              && m == Term(m.index, states[k].slots[m.index].pid, states[k].slots[m.index].state)
  {
    StopAllExactly(states[k].slots, i);
  }

  // ---------------------------------------------------------------------------------------
  // The signal reaches the one it was meant for

  /** A signal read off a RUNNING slot is for the container of this name. */
  ghost predicate IsFor(s: Sys, m: Term, id: string) {
    m.phase == Running ==> m.index in s.hist.published && IsNamed(s.slots, m.index, id)
  }

  /** Step `j` is an accepted stop of `id` by thread `t`. */
  ghost predicate AcceptedAt(states: seq<Sys>, labels: seq<Label>, t: Tid, id: string, j: int) {
    0 <= j < |labels| && j + 1 < |states| && labels[j] == DoStop(t, id) && t in states[j + 1].stops
  }

  lemma NameStays(s: Sys, l: Label, m: Term, id: string)
    requires SI.Inv(s) && Enabled(s, l) && IsFor(s, m, id)
    ensures IsFor(Next(s, l), m, id)
  {
    if m.phase == Running {
      SH.StepKeepsPublished(s, l);
      SH.StepKeepsRequest(s, l, m.index);
      PublishedIsUsed(Next(s, l), m.index, s, l);
    }
  }

  lemma PublishedIsUsed(s': Sys, i: nat, s: Sys, l: Label)
    requires SI.Inv(s) && Enabled(s, l) && s' == Next(s, l) && i in s'.hist.published
    ensures i < |s'.slots| && s'.slots[i].used
  {
    SI.StepKeepsInv(s, l);
    assert SI.SlotMatches(s', i);
  }

  /** A stop that found its container RUNNING: whenever later, the slot its signal was read off
      is still the slot of the container it named. */
  lemma {:induction false} StopStaysWithTheNamed(states: seq<Sys>, labels: seq<Label>, j: nat, k: nat, t: Tid, id: string)
    requires IsRun(states, labels) && j < k < |states| && AcceptedAt(states, labels, t, id, j)
    ensures IsFor(states[k], states[j + 1].stops[t], id)
    decreases k
  {
    if k == j + 1 {
      assert StepAt(states, labels, j);
      StopMarksTheNamed(states, labels, j, t, id);
      SI.InvHolds(states, labels, j);
      assert SI.SlotMatches(states[j], states[k].stops[t].index);
    } else {
      StopStaysWithTheNamed(states, labels, j, k - 1, t, id);
      SI.InvHolds(states, labels, k - 1);
      assert StepAt(states, labels, k - 1);
      NameStays(states[k - 1], labels[k - 1], states[j + 1].stops[t], id);
    }
  }
}
