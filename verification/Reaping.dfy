/** Who gets recorded where, what `run` returns, whom `stop` signals, what is left when the reaper
    exits: theorems about whole runs of the supervisor.  `Clean` says that no lookup of a given
    pid was shadowed so far (see `Records.RecordsAreRightExactly`); it holds of pids that are not
    reused. */
module Reaping {
  import opened Containers
  import opened Lifecycle
  import opened SlotHistory
  import opened Records
  import opened Order
  import SI = SlotInvariant
  import CI = ChildInvariant
  import OR = OwnRecords

  /** The record of `c` is in the slot published for it, which shows how `c` ended. */
  ghost predicate ShowsItsEnd(s: Sys, c: Child) {
    && c in s.hist.owner && c in s.hist.seen && c in s.hist.landed && s.hist.landed[c] == s.hist.owner[c] < |s.slots|
    && s.hist.owner[c] in s.hist.tenant && s.hist.tenant[s.hist.owner[c]] == c
    && EndsAs(s.slots[s.hist.owner[c]], c.pid, s.hist.seen[c])
  }

  ghost predicate EndsAs(slot: Slot, pid: int, status: Status) {
    slot.used && slot.pid == pid && Terminal(slot.state) && (slot.state, slot.exitCode) == Classify(slot.stopRequested, status)
  }

  /** A recorded child is recorded in exactly one slot, its own, which shows how it ended, and
      no other child is recorded there. */
  lemma RecordedInItsOwnSlot(states: seq<Sys>, labels: seq<Label>, k: nat, c: Child)
    requires IsRun(states, labels) && k < |states| && Clean(states, labels, k, c.pid) && c in states[k].hist.landed
    ensures ShowsItsEnd(states[k], c)
    ensures forall d :: d in states[k].hist.landed && states[k].hist.landed[d] == states[k].hist.landed[c] ==> d == c
  {
    var s := states[k];
    SI.InvHolds(states, labels, k);
    CI.InvHolds(states, labels, k);
    OR.InvHolds(states, labels, k, c.pid);
    OwnRecordIsThere(s, c);
    forall d | d in s.hist.landed && s.hist.landed[d] == s.hist.landed[c]
      ensures d == c
    {
      OwnRecordIsThere(s, d);
    }
  }

  lemma OwnRecordIsThere(s: Sys, c: Child)
    requires SI.Inv(s) && CI.Inv(s) && OR.Inv(s, c.pid) && c in s.hist.landed
    ensures ShowsItsEnd(s, c)
  {
    assert OR.IsHome(s, c) && CI.LandedMatches(s, c);
    assert CI.OwnerMatches(s, c);
    assert OR.SlotTells(s, s.hist.owner[c]) && SI.SlotMatches(s, s.hist.owner[c]);
  }

  /** Without a stop request the record of a finished container tells how its own child ended:
      no other outcome would have produced it, and KILLED with 137 means SIGKILL. */
  lemma RecordTellsTheOutcome(states: seq<Sys>, labels: seq<Label>, k: nat, i: nat)
    requires IsRun(states, labels) && k < |states| && i < |states[k].slots| && Clean(states, labels, k, states[k].slots[i].pid)
    requires states[k].slots[i].used && Terminal(states[k].slots[i].state) && !states[k].slots[i].stopRequested
    ensures var s, slot := states[k], states[k].slots[i];
            && i in s.hist.tenant && s.hist.tenant[i] in s.hist.seen
            && (forall b :: Classify(false, b) == (slot.state, slot.exitCode) <==> b == s.hist.seen[s.hist.tenant[i]])
            && ((slot.state, slot.exitCode) == (Killed, 137) <==> s.hist.seen[s.hist.tenant[i]] == WSignaled(SIGKILL))
  {
    var s := states[k];
    SI.InvHolds(states, labels, k);
    CI.InvHolds(states, labels, k);
    OR.InvHolds(states, labels, k, states[k].slots[i].pid);
    TenantTells(s, i);
    OwnRecordIsThere(s, s.hist.tenant[i]);
    forall b
      ensures Classify(false, b) == (s.slots[i].state, s.slots[i].exitCode) <==> b == s.hist.seen[s.hist.tenant[i]]
    {
      RecordDeterminesOutcome(b, s.hist.seen[s.hist.tenant[i]]);
    }
  }

  /** A used slot that is not STARTING belongs to a child, and is terminal exactly if that
      child was recorded. */
  lemma TenantTells(s: Sys, i: nat)
    requires SI.Inv(s) && CI.Inv(s) && i < |s.slots| && OR.Inv(s, s.slots[i].pid) && s.slots[i].used && s.slots[i].state != Starting
    ensures i in s.hist.tenant && s.hist.tenant[i] in s.hist.owner && s.hist.owner[s.hist.tenant[i]] == i
    ensures s.hist.tenant[i] in s.hist.cloned
    ensures Terminal(s.slots[i].state) <==> s.hist.tenant[i] in s.hist.landed
  {
    assert SI.SlotMatches(s, i);
    assert CI.TenantMatches(s, i) && OR.SlotTells(s, i);
    assert CI.OwnerMatches(s, s.hist.tenant[i]);
  }

  /** A finished `run` call reports how the very process it cloned ended, as its slot still
      shows it. */
  lemma RunReportsItsOwnChild(states: seq<Sys>, labels: seq<Label>, k: nat, t: Tid)
    requires IsRun(states, labels) && k < |states| && t in states[k].starts && states[k].starts[t].stage.Returned?
    requires Clean(states, labels, k, states[k].starts[t].stage.child.pid)
    ensures var s, c := states[k], states[k].starts[t];
            && c.stage.child in s.hist.cloner && s.hist.cloner[c.stage.child] == t
            && c.stage.child in s.hist.seen && c.index < |s.slots|
            && c.index in s.hist.tenant && s.hist.tenant[c.index] == c.stage.child
            && (c.stage.state, c.stage.code) == Classify(s.slots[c.index].stopRequested, s.hist.seen[c.stage.child])
            && (c.stage.state, c.stage.code) == (s.slots[c.index].state, s.slots[c.index].exitCode)
  {
    var s := states[k];
    SI.InvHolds(states, labels, k);
    CI.InvHolds(states, labels, k);
    OR.InvHolds(states, labels, k, states[k].starts[t].stage.child.pid);
    ReturnedTells(s, t);
  }

  lemma ReturnedTells(s: Sys, t: Tid)
    requires SI.Inv(s) && CI.Inv(s) && t in s.starts && s.starts[t].stage.Returned? && OR.Inv(s, s.starts[t].stage.child.pid)
    ensures var c := s.starts[t];
            && c.stage.child in s.hist.cloner && s.hist.cloner[c.stage.child] == t
            && c.stage.child in s.hist.landed && c.stage.child in s.hist.seen && c.index < |s.slots|
            && c.index in s.hist.tenant && s.hist.tenant[c.index] == c.stage.child
            && (c.stage.state, c.stage.code) == Classify(s.slots[c.index].stopRequested, s.hist.seen[c.stage.child])
            && (c.stage.state, c.stage.code) == (s.slots[c.index].state, s.slots[c.index].exitCode)
  {
    var c := s.starts[t];
    assert SI.StartMatches(s, t) && CI.StartTells(s, t) && OR.ReturnTells(s, t, c.stage.child.pid);
    assert CI.OwnerMatches(s, c.stage.child);
    assert OR.SlotTells(s, c.index);
    OwnRecordIsThere(s, c.stage.child);
  }

  /** No `run` client is ever asleep on a container that has finished. */
  lemma NoRunSleepsOnAFinishedSlot(states: seq<Sys>, labels: seq<Label>, k: nat, t: Tid)
    requires IsRun(states, labels) && k < |states|
    requires t in states[k].starts && states[k].starts[t].stage.Asleep?
    ensures var c := states[k].starts[t];
            c.index < |states[k].slots| && states[k].slots[c.index].used && states[k].slots[c.index].state == Running
  {
    SI.InvHolds(states, labels, k);
    assert SI.StartMatches(states[k], t);
    assert SI.SlotMatches(states[k], states[k].starts[t].index);
  }

  /** STARTING slots hold pid -1 and belong to one start call each; RUNNING slots hold a pid. */
  lemma StateAndPidAgree(states: seq<Sys>, labels: seq<Label>, k: nat, i: nat)
    requires IsRun(states, labels) && k < |states| && i < MAX_CONTAINERS
    ensures |states[k].slots| == MAX_CONTAINERS
    ensures var slot := states[k].slots[i];
            slot.used ==>
              && slot.state != Blank
              && (slot.state == Starting ==> slot.pid == -1 && i in states[k].hist.claimer)
              && (slot.state != Starting ==> slot.pid > 0 && i in states[k].hist.published)
  {
    SI.InvHolds(states, labels, k);
    assert SI.SlotMatches(states[k], i);
  }

  // ---------------------------------------------------------------------------------------
  // Terminal states are absorbing

  /** An unshadowed record never goes to a slot whose child was recorded before. */
  lemma RecordLeavesTerminals(s: Sys, i: nat)
    requires SI.Inv(s) && CI.Inv(s) && s.reaper.Reaped? && i < |s.slots| && s.slots[i].used && Terminal(s.slots[i].state)
    requires OR.Inv(s, s.slots[i].pid) && (s.reaper.child.pid == s.slots[i].pid ==> !Shadowed(s, s.reaper.child))
    ensures i < |AfterRecord(s).slots| && AfterRecord(s).slots[i] == s.slots[i]
  {
    if s.reaper.child.pid == s.slots[i].pid {
      MatchExactly(s, s.reaper.child);
      TerminalIsNotHome(s, i);
    }
  }

  lemma TerminalIsNotHome(s: Sys, i: nat)
    requires SI.Inv(s) && CI.Inv(s) && s.reaper.Reaped? && i < |s.slots| && s.slots[i].used && Terminal(s.slots[i].state)
    requires OR.Inv(s, s.slots[i].pid)
    ensures Home(s, s.reaper.child) != i
  {
    NotYetLanded(s);
    TenantTells(s, i);
    if s.reaper.child in s.hist.owner {
      assert CI.OwnerMatches(s, s.reaper.child);
    }
  }

  lemma PublishLeavesTerminals(s: Sys, t: Tid, i: nat)
    requires SI.Inv(s) && Enabled(s, DoPublish(t)) && i < |s.slots| && s.slots[i].used && Terminal(s.slots[i].state)
    ensures i < |AfterPublish(s, t).slots| && AfterPublish(s, t).slots[i] == s.slots[i]
  {
    assert SI.StartMatches(s, t);
    assert SI.SlotMatches(s, s.starts[t].index);
  }

  lemma OtherLeavesTerminals(s: Sys, l: Label, i: nat)
    requires SI.Inv(s) && Enabled(s, l) && l != DoRecord && !l.DoPublish?
    requires i < |s.slots| && s.slots[i].used && Terminal(s.slots[i].state)
    ensures i < |Next(s, l).slots| && Next(s, l).slots[i] == s.slots[i]
  {
    assert SI.SlotMatches(s, i);
    OR.StepStaysPut(s, l);
    assert OR.StaysPut(s.slots[i], Next(s, l).slots[i]);
  }

  lemma TerminalStepIsStill(s: Sys, l: Label, i: nat)
    requires Enabled(s, l) && i < |s.slots| && s.slots[i].used && Terminal(s.slots[i].state)
    requires l == DoRecord && s.reaper.child.pid == s.slots[i].pid ==> !Shadowed(s, s.reaper.child)
    requires SI.Inv(s) && CI.Inv(s) && OR.Inv(s, s.slots[i].pid)
    ensures i < |Next(s, l).slots| && Next(s, l).slots[i] == s.slots[i]
  {
    match l
    case DoRecord => RecordLeavesTerminals(s, i);
    case DoPublish(t) => PublishLeavesTerminals(s, t, i);
    case _ => OtherLeavesTerminals(s, l, i);
  }

  lemma TerminalForOneStep(states: seq<Sys>, labels: seq<Label>, k: nat, i: nat)
    requires IsRun(states, labels) && 0 < k < |states|
    requires i < |states[k - 1].slots| && states[k - 1].slots[i].used && Terminal(states[k - 1].slots[i].state)
    requires Clean(states, labels, k, states[k - 1].slots[i].pid)
    ensures i < |states[k].slots| && states[k].slots[i] == states[k - 1].slots[i]
  {
    OR.Background(states, labels, k - 1);
    OR.InvHolds(states, labels, k - 1, states[k - 1].slots[i].pid);
    OR.LastIsUnshadowed(states, labels, k, states[k - 1].slots[i].pid);
    TerminalStepIsStill(states[k - 1], labels[k - 1], i);
  }

  /** A terminal record never changes again, whatever stops are requested later. */
  lemma {:induction false} TerminalIsFinal(states: seq<Sys>, labels: seq<Label>, j: nat, k: nat, i: nat)
    requires IsRun(states, labels) && j <= k < |states|
    requires i < |states[j].slots| && states[j].slots[i].used && Terminal(states[j].slots[i].state)
    requires Clean(states, labels, k, states[j].slots[i].pid)
    ensures i < |states[k].slots| && states[k].slots[i] == states[j].slots[i]
    decreases k
  {
    if j < k {
      TerminalIsFinal(states, labels, j, k - 1, i);
      TerminalForOneStep(states, labels, k, i);
    }
  }

  /** Over a run a slot walks FREE -> STARTING -> (FREE | RUNNING -> terminal) and nothing else. */
  lemma SlotWalksTheGraph(states: seq<Sys>, labels: seq<Label>, k: nat, i: nat)
    requires IsRun(states, labels) && 0 < k < |states| && i < MAX_CONTAINERS && i < |states[k - 1].slots|
    requires Clean(states, labels, k, states[k - 1].slots[i].pid)
    ensures |states[k - 1].slots| == |states[k].slots| == MAX_CONTAINERS
    ensures LifeOf(states[0].slots[i]) == Free
    ensures var a, b := LifeOf(states[k - 1].slots[i]), LifeOf(states[k].slots[i]);
            a == b || Edge(a, b)
  {
    LooseForOneStep(states, labels, k, i);
    if TerminalLife(LifeOf(states[k - 1].slots[i])) {
      TerminalForOneStep(states, labels, k, i);
    }
  }

  lemma LooseForOneStep(states: seq<Sys>, labels: seq<Label>, k: nat, i: nat)
    requires IsRun(states, labels) && 0 < k < |states| && i < MAX_CONTAINERS
    ensures |states[k - 1].slots| == |states[k].slots| == MAX_CONTAINERS
    ensures Loose(LifeOf(states[k - 1].slots[i]), LifeOf(states[k].slots[i]))
  {
    SI.InvHolds(states, labels, k - 1);
    assert StepAt(states, labels, k - 1);
    StepIsLoose(states[k - 1], labels[k - 1], i);
  }

  // ---------------------------------------------------------------------------------------
  // Signals

  /** Every SIGTERM for a slot seen RUNNING goes to the pid of the child published in that slot;
      exactly for a slot seen STARTING, `kill` addresses pid -1, that is, everybody. */
  lemma StopSignalsItsOwnChild(states: seq<Sys>, labels: seq<Label>, k: nat, m: Term)
    requires IsRun(states, labels) && k < |states| && (m in states[k].hist.terms || m in states[k].stops.Values)
    ensures m.target == -1 <==> m.phase == Starting
    ensures m.target != -1 ==>
              m.phase == Running && m.index < |states[k].slots| && states[k].slots[m.index].pid == m.target &&
              m.index in states[k].hist.tenant && states[k].hist.tenant[m.index].pid == m.target
  {
    SI.InvHolds(states, labels, k);
    CI.InvHolds(states, labels, k);
    assert CI.TermMatches(states[k], m);
    if m.phase == Running {
      assert CI.TenantMatches(states[k], m.index);
      assert CI.OwnerMatches(states[k], states[k].hist.tenant[m.index]);
    }
  }

  /** When the signal is sent, a child that gets it is the one published in that slot exactly
      if that one has not been reaped yet. */
  lemma SignalReachesItsOwnChildExactly(states: seq<Sys>, labels: seq<Label>, k: nat, t: Tid, d: Child)
    requires IsRun(states, labels) && k < |states| && t in states[k].stops && states[k].stops[t].phase == Running
    requires d in states[k].children && d.pid == states[k].stops[t].target
    ensures var i := states[k].stops[t].index;
            i in states[k].hist.tenant && (d == states[k].hist.tenant[i] <==> states[k].hist.tenant[i] in states[k].children)
  {
    CI.InvHolds(states, labels, k);
    assert CI.TermMatches(states[k], states[k].stops[t]);
  }

  /** The same for any running container, hence for `stop_all_live_containers`, which reads the
      pid and sends the signal under the lock while `waitpid` runs outside it. */
  lemma SlotSignalReachesItsOwnChildExactly(states: seq<Sys>, labels: seq<Label>, k: nat, i: nat, d: Child)
    requires IsRun(states, labels) && k < |states| && i < |states[k].slots|
    requires states[k].slots[i].used && states[k].slots[i].state == Running
    requires d in states[k].children && d.pid == states[k].slots[i].pid
    ensures i in states[k].hist.tenant && (d == states[k].hist.tenant[i] <==> states[k].hist.tenant[i] in states[k].children)
  {
    SI.InvHolds(states, labels, k);
    CI.InvHolds(states, labels, k);
    CI.LiveTerm(states[k], i);
  }

  // ---------------------------------------------------------------------------------------
  // The child that is reaped too early

  lemma EarlyShowsRunning(states: seq<Sys>, labels: seq<Label>, k: nat, c: Child)
    requires IsRun(states, labels) && k < |states| && Clean(states, labels, k, c.pid) && EarlyReap(states, labels, c, k)
    ensures c in states[k].hist.owner
    ensures var i := states[k].hist.owner[c];
            i < |states[k].slots| && states[k].slots[i].used && states[k].slots[i].pid == c.pid && states[k].slots[i].state == Running
    ensures forall t :: t in states[k].starts && states[k].starts[t].stage.Returned? ==> states[k].starts[t].stage.child != c
  {
    OR.Background(states, labels, k);
    OR.InvHolds(states, labels, k, c.pid);
    EarlyMeansUnrecorded(states, labels, k, c);
    UnrecordedShowsRunning(states[k], c);
  }

  lemma UnrecordedShowsRunning(s: Sys, c: Child)
    requires SI.Inv(s) && CI.Inv(s) && OR.Inv(s, c.pid) && c in s.hist.owner && c !in s.hist.landed
    ensures var i := s.hist.owner[c];
            i < |s.slots| && s.slots[i].used && s.slots[i].pid == c.pid && s.slots[i].state == Running
    ensures forall t :: t in s.starts && s.starts[t].stage.Returned? ==> s.starts[t].stage.child != c
  {
    assert CI.OwnerMatches(s, c);
    assert OR.SlotTells(s, s.hist.owner[c]) && SI.SlotMatches(s, s.hist.owner[c]);
    forall t | t in s.starts && s.starts[t].stage.Returned? && s.starts[t].stage.child.pid == c.pid
      ensures s.starts[t].stage.child != c
    {
      ReturnedTells(s, t);
    }
  }

  /** A container whose child was looked up before it was published shows RUNNING for the rest
      of the run, and no `run` call on it ever returns. */
  lemma EarlyStaysRunning(states: seq<Sys>, labels: seq<Label>, j: nat, k: nat, c: Child)
    requires IsRun(states, labels) && j <= k < |states| && Clean(states, labels, k, c.pid) && EarlyReap(states, labels, c, j)
    ensures c in states[k].hist.owner
    ensures var i := states[k].hist.owner[c];
            i < |states[k].slots| && states[k].slots[i].used && states[k].slots[i].pid == c.pid && states[k].slots[i].state == Running
    ensures forall t :: t in states[k].starts && states[k].starts[t].stage.Returned? ==> states[k].starts[t].stage.child != c
  {
    var a, b :| a < b < j && LookedUpAt(states, labels, c, a) && PublishedAt(states, labels, c, b);
    assert EarlyReap(states, labels, c, k);
    EarlyShowsRunning(states, labels, k, c);
  }

  // ---------------------------------------------------------------------------------------
  // Terminal means matched, in every run

  /** The lookup at step `j`, of whichever child, finds slot `i`. */
  ghost predicate MatchedAt(states: seq<Sys>, labels: seq<Label>, i: nat, j: int) {
    && 0 <= j < |labels| && j < |states| && labels[j] == DoRecord && states[j].reaper.Reaped?
    && FirstByPid(states[j].slots, states[j].reaper.child.pid, 0) == i
  }

  ghost predicate IsTerminal(slot: Slot) {
    slot.used && Terminal(slot.state)
  }

  lemma PublishMakesNoneTerminal(s: Sys, t: Tid, i: nat)
    requires SI.Inv(s) && Enabled(s, DoPublish(t)) && i < |s.slots|
    ensures i < |AfterPublish(s, t).slots| && (IsTerminal(AfterPublish(s, t).slots[i]) <==> IsTerminal(s.slots[i]))
  {
    assert SI.StartMatches(s, t) && SI.SlotMatches(s, s.starts[t].index);
  }

  lemma UnpublishedStaysUnfinished(s: Sys, l: Label, i: nat)
    requires SI.Inv(s) && Enabled(s, l) && i < MAX_CONTAINERS && i !in s.hist.published
    ensures i < |Next(s, l).slots| && !IsTerminal(Next(s, l).slots[i]) && !IsTerminal(s.slots[i])
  {
    assert SI.SlotMatches(s, i);
    StepIsLoose(s, l, i);
    LooseKeepsUnfinished(s.slots[i], Next(s, l).slots[i]);
  }

  lemma LooseKeepsUnfinished(a: Slot, b: Slot)
    requires Loose(LifeOf(a), LifeOf(b)) && (!a.used || a.state == Starting)
    ensures !IsTerminal(b)
  {
  }

  lemma OtherMakesNoneTerminal(s: Sys, l: Label, i: nat)
    requires SI.Inv(s) && Enabled(s, l) && l != DoRecord && !l.DoPublish? && i < |s.slots| && i in s.hist.published
    ensures i < |Next(s, l).slots| && (Terminal(Next(s, l).slots[i].state) <==> Terminal(s.slots[i].state))
  {
    OR.StepStaysPut(s, l);
    assert OR.StaysPut(s.slots[i], Next(s, l).slots[i]);
  }

  lemma RecordMakesOneTerminal(s: Sys, i: nat)
    requires s.reaper.Reaped? && i < |s.slots|
    ensures i < |AfterRecord(s).slots|
    ensures IsTerminal(AfterRecord(s).slots[i]) <==> IsTerminal(s.slots[i]) || FirstByPid(s.slots, s.reaper.child.pid, 0) == i
  {
    CI.RecordLooksUp(s);
  }

  lemma StepMakesTerminal(s: Sys, l: Label, i: nat)
    requires Enabled(s, l) && SI.Inv(s) && SI.Inv(Next(s, l)) && i < MAX_CONTAINERS
    ensures IsTerminal(Next(s, l).slots[i]) <==>
            IsTerminal(s.slots[i]) || (l == DoRecord && FirstByPid(s.slots, s.reaper.child.pid, 0) == i)
  {
    if l == DoRecord {
      RecordMakesOneTerminal(s, i);
    } else if l.DoPublish? {
      PublishMakesNoneTerminal(s, l.t, i);
    } else if i in s.hist.published {
      StepKeepsPublished(s, l);
      OtherMakesNoneTerminal(s, l, i);
      assert SI.SlotMatches(s, i) && SI.SlotMatches(Next(s, l), i);
    } else {
      UnpublishedStaysUnfinished(s, l, i);
    }
  }

  lemma TerminalNext(states: seq<Sys>, labels: seq<Label>, k: nat, i: nat)
    requires IsRun(states, labels) && 0 < k < |states| && i < MAX_CONTAINERS
    requires SI.Inv(states[k - 1]) && SI.Inv(states[k])
    ensures IsTerminal(states[k].slots[i]) <==> IsTerminal(states[k - 1].slots[i]) || MatchedAt(states, labels, i, k - 1)
  {
    assert StepAt(states, labels, k - 1);
    StepMakesTerminal(states[k - 1], labels[k - 1], i);
  }

  /** In every run, whatever pids are handed out: a container is terminal exactly if some lookup
      found its slot. */
  lemma {:induction false} TerminalMeansMatched(states: seq<Sys>, labels: seq<Label>, k: nat, i: nat)
    requires IsRun(states, labels) && k < |states| && i < MAX_CONTAINERS
    ensures |states[k].slots| == MAX_CONTAINERS
    ensures IsTerminal(states[k].slots[i]) <==> exists j :: j < k && MatchedAt(states, labels, i, j)
  {
    SI.InvHolds(states, labels, k);
    if k > 0 {
      TerminalMeansMatched(states, labels, k - 1, i);
      SI.InvHolds(states, labels, k - 1);
      TerminalNext(states, labels, k, i);
    }
  }

  // ---------------------------------------------------------------------------------------
  // What the reaper leaves behind

  /** Step `k` is the reaper's exit. */
  ghost predicate ReaperExitsAt(states: seq<Sys>, labels: seq<Label>, k: nat) {
    k < |labels| && |states| == |labels| + 1 && labels[k] == CheckQuit && states[k + 1].reaper == Finished
  }

  lemma ExitLeavesTable(states: seq<Sys>, labels: seq<Label>, k: nat)
    requires IsRun(states, labels) && ReaperExitsAt(states, labels, k)
    ensures states[k].reaper == NoChild && states[k + 1].slots == states[k].slots
    ensures states[k + 1].hist == states[k].hist && states[k + 1].children == states[k].children
  {
    assert StepAt(states, labels, k);
  }

  /** At the reaper's exit a published slot is terminal exactly if its child is neither
      unreaped nor looked up without a record. */
  lemma FinishedMeansRecorded(states: seq<Sys>, labels: seq<Label>, k: nat, i: nat)
    requires IsRun(states, labels) && k < |states| && states[k].reaper == NoChild
    requires i in states[k].hist.tenant && Clean(states, labels, k, states[k].hist.tenant[i].pid)
    ensures i < |states[k].slots| && states[k].hist.tenant[i] in states[k].hist.owner
    ensures var c := states[k].hist.tenant[i];
            && (Terminal(states[k].slots[i].state) <==> c in states[k].hist.landed)
            && (c in states[k].hist.landed ==> c in states[k].hist.seen)
            && (c in states[k].children <==> c !in states[k].hist.seen)
  {
    var s := states[k];
    SI.InvHolds(states, labels, k);
    CI.InvHolds(states, labels, k);
    OR.InvHolds(states, labels, k, states[k].hist.tenant[i].pid);
    assert SI.SlotMatches(s, i);
    TenantTells(s, i);
    if s.hist.tenant[i] in s.hist.landed {
      assert CI.LandedMatches(s, s.hist.tenant[i]);
    }
  }

  /** In every run, a published container is left RUNNING when the reaper exits exactly if no
      lookup found its slot. */
  lemma ReaperExitLeavesUnmatched(states: seq<Sys>, labels: seq<Label>, k: nat, i: nat)
    requires IsRun(states, labels) && ReaperExitsAt(states, labels, k) && i in states[k].hist.tenant
    ensures i < |states[k + 1].slots|
    ensures states[k + 1].slots[i].state == Running <==> !exists j :: j < k && MatchedAt(states, labels, i, j)
  {
    ExitLeavesTable(states, labels, k);
    SI.InvHolds(states, labels, k);
    CI.InvHolds(states, labels, k);
    assert SI.SlotMatches(states[k], i);
    TerminalMeansMatched(states, labels, k, i);
  }

  /** If no lookup of its pid was shadowed, that means: exactly if its child was looked up before
      it was published, or was cloned after the last time `waitpid` found no child. */
  lemma ReaperExitLeavesExactly(states: seq<Sys>, labels: seq<Label>, k: nat, i: nat)
    requires IsRun(states, labels) && ReaperExitsAt(states, labels, k)
    requires i in states[k].hist.tenant && Clean(states, labels, k, states[k].hist.tenant[i].pid)
    ensures i < |states[k + 1].slots|
    ensures var c := states[k].hist.tenant[i];
            !Terminal(states[k + 1].slots[i].state) <==>
            EarlyReap(states, labels, c, k) || LateClone(states, labels, c, k)
  {
    var c := states[k].hist.tenant[i];
    ExitLeavesTable(states, labels, k);
    FinishedMeansRecorded(states, labels, k, i);
    UnreapedMeansLate(states, labels, k, c);
    if EarlyReap(states, labels, c, k) {
      EarlyMeansUnrecorded(states, labels, k, c);
    } else if c in states[k].hist.seen {
      UnrecordedMeansEarly(states, labels, k, c);
    }
  }

  /** If no lookup of any container's pid was shadowed, all containers are in a terminal state
      when the reaper exits exactly if no child of theirs was looked up too early or cloned too
      late. */
  lemma AllTerminalAtExitExactly(states: seq<Sys>, labels: seq<Label>, k: nat)
    requires IsRun(states, labels) && ReaperExitsAt(states, labels, k)
    requires forall i :: i in states[k].hist.tenant ==> Clean(states, labels, k, states[k].hist.tenant[i].pid)
    ensures (forall i :: i in states[k].hist.tenant && i < |states[k + 1].slots| ==> Terminal(states[k + 1].slots[i].state)) <==>
            (forall i :: i in states[k].hist.tenant ==>
               !EarlyReap(states, labels, states[k].hist.tenant[i], k) && !LateClone(states, labels, states[k].hist.tenant[i], k))
  {
    forall i | i in states[k].hist.tenant
      ensures i < |states[k + 1].slots|
      ensures Terminal(states[k + 1].slots[i].state) <==>
              !EarlyReap(states, labels, states[k].hist.tenant[i], k) && !LateClone(states, labels, states[k].hist.tenant[i], k)
    {
      ReaperExitLeavesExactly(states, labels, k, i);
    }
  }
}
