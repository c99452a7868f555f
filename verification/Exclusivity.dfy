/** No two containers share an id, a live rootfs or a log file, in every interleaving. */
module Exclusivity {
  import opened Containers
  import opened Lifecycle
  import SI = SlotInvariant

  ghost predicate Apart(a: Slot, b: Slot) {
    a.used && b.used ==> a.id != b.id && (Live(a.state) && Live(b.state) ==> a.rootfs != b.rootfs)
  }

  ghost predicate Named(slot: Slot) {
    slot.used ==> |slot.id| < MAX_ID_LEN && slot.logFile == LogPath(slot.id)
  }

  ghost predicate Exclusive(slots: seq<Slot>) {
    && (forall i, j :: 0 <= i < j < |slots| ==> Apart(slots[i], slots[j]))
    && (forall i :: 0 <= i < |slots| ==> Named(slots[i]))
  }

  lemma EvolvingKeepsExclusive(slots: seq<Slot>, slots': seq<Slot>)
    requires Exclusive(slots) && SI.AllEvolve(slots, slots')
    ensures Exclusive(slots')
  {
    forall i, j | 0 <= i < j < |slots|
      ensures Apart(slots'[i], slots'[j])
    {
      assert Apart(slots[i], slots[j]);
      assert SI.Evolves(slots[i], slots'[i]) && SI.Evolves(slots[j], slots'[j]);
    }
    forall i | 0 <= i < |slots|
      ensures Named(slots'[i])
    {
      assert Named(slots[i]) && SI.Evolves(slots[i], slots'[i]);
    }
  }

  lemma StepKeepsExclusive(s: Sys, l: Label)
    requires SI.Inv(s) && Enabled(s, l) && Exclusive(s.slots)
    ensures Exclusive(Next(s, l).slots)
  {
    if l.DoClaim? {
    } else {
      SI.StepEvolves(s, l);
      EvolvingKeepsExclusive(s.slots, Next(s, l).slots);
    }
  }

  lemma {:induction false} ExclusiveAlways(states: seq<Sys>, labels: seq<Label>, k: nat)
    requires IsRun(states, labels) && k < |states|
    ensures Exclusive(states[k].slots)
  {
    if k > 0 {
      ExclusiveAlways(states, labels, k - 1);
      SI.InvHolds(states, labels, k - 1);
      assert StepAt(states, labels, k - 1);
      StepKeepsExclusive(states[k - 1], labels[k - 1]);
    }
  }

  /** In every reachable state: different used slots have different ids and different log
      files, and different live ones have different root filesystems. */
  lemma NothingShared(states: seq<Sys>, labels: seq<Label>, k: nat, i: nat, j: nat)
    requires IsRun(states, labels) && k < |states| && i < |states[k].slots| && j < |states[k].slots| && i != j
    requires states[k].slots[i].used && states[k].slots[j].used
    ensures states[k].slots[i].id != states[k].slots[j].id
    ensures states[k].slots[i].logFile != states[k].slots[j].logFile
    ensures Live(states[k].slots[i].state) && Live(states[k].slots[j].state) ==>
              states[k].slots[i].rootfs != states[k].slots[j].rootfs
  {
    ExclusiveAlways(states, labels, k);
    var a, b := states[k].slots[if i < j then i else j], states[k].slots[if i < j then j else i];
    assert Apart(a, b) && Named(a) && Named(b);
    LogPathIsInjective(a.id, b.id);
  }
}
