/** What a container's slot and its `run` client show, said of the wait status that `waitpid`
    returned, and when the reaper returns to waiting or exits. */
module Outcomes {
  import opened Containers
  import opened Lifecycle
  import opened Records
  import opened Order
  import SI = SlotInvariant
  import CI = ChildInvariant
  import RP = Reaping

  /** Step `j` is `waitpid` returning child `c` with this status. */
  ghost predicate ReapedAt(labels: seq<Label>, c: Child, status: Status, j: int) {
    0 <= j < |labels| && labels[j] == Reap(c, status)
  }

  // ---------------------------------------------------------------------------------------
  // The status in the reaper's hands is the one `waitpid` returned

  lemma StepKeepsHeld(s: Sys, l: Label)
    requires Enabled(s, l) && Next(s, l).reaper.Reaped?
    ensures l == Reap(Next(s, l).reaper.child, Next(s, l).reaper.status) || Next(s, l).reaper == s.reaper
  {
    match l
    case Local(t, a) => SI.LocalMoves(s, t, a);
    case DoStop(_, _) => SI.StopOnlyStops(s, l);
    case DoStopAll => SI.StopOnlyStops(s, l);
    case DoRecord => CI.RecordLooksUp(s);
    case _ =>
  }

  lemma {:induction false} HeldWasReaped(states: seq<Sys>, labels: seq<Label>, k: nat) returns (j: int)
    requires IsRun(states, labels) && k < |states| && states[k].reaper.Reaped?
    ensures j < k && ReapedAt(labels, states[k].reaper.child, states[k].reaper.status, j)
  {
    assert StepAt(states, labels, k - 1);
    StepKeepsHeld(states[k - 1], labels[k - 1]);
    if labels[k - 1] == Reap(states[k].reaper.child, states[k].reaper.status) {
      j := k - 1;
    } else {
      j := HeldWasReaped(states, labels, k - 1);
    }
  }

  lemma StepKeepsSeen(s: Sys, l: Label, c: Child)
    requires CI.Inv(s) && Enabled(s, l) && c in Next(s, l).hist.seen
    ensures (c in s.hist.seen && Next(s, l).hist.seen[c] == s.hist.seen[c])
            || (l == DoRecord && s.reaper.child == c && Next(s, l).hist.seen[c] == s.reaper.status)
  {
    if l == DoRecord {
      CI.RecordLooksUp(s);
    } else {
      StepKeepsRecords(s, l);
    }
  }

  lemma {:induction false} SeenWasReaped(states: seq<Sys>, labels: seq<Label>, k: nat, c: Child) returns (j: int)
    requires IsRun(states, labels) && k < |states| && c in states[k].hist.seen
    ensures j < k && ReapedAt(labels, c, states[k].hist.seen[c], j)
  {
    CI.InvHolds(states, labels, k - 1);
    assert StepAt(states, labels, k - 1);
    StepKeepsSeen(states[k - 1], labels[k - 1], c);
    if c in states[k - 1].hist.seen && states[k].hist.seen[c] == states[k - 1].hist.seen[c] {
      j := SeenWasReaped(states, labels, k - 1, c);
    } else {
      j := HeldWasReaped(states, labels, k - 1);
    }
  }

  /** A reaped child is gone for good. */
  ghost predicate IsGone(s: Sys, c: Child) {
    c in s.hist.cloned && c !in s.children
  }

  lemma StepKeepsGone(s: Sys, l: Label, c: Child)
    requires Enabled(s, l) && IsGone(s, c)
    ensures IsGone(Next(s, l), c)
  {
    StepGrowsCloned(s, l);
    match l
    case Local(t, a) => SI.LocalMoves(s, t, a);
    case DoStop(_, _) => SI.StopOnlyStops(s, l);
    case DoStopAll => SI.StopOnlyStops(s, l);
    case DoRecord => CI.RecordLooksUp(s);
    case DoClaim(_, _, _, _) =>
    case DoUnclaim(_) =>
    case DoPublish(_) =>
    case RunCheck(_) =>
    case Spurious(_) =>
    case _ => SI.QuietChangesNothing(s, l);
  }

  lemma {:induction false} GoneForGood(states: seq<Sys>, labels: seq<Label>, j: nat, k: nat, c: Child)
    requires IsRun(states, labels) && j <= k < |states| && IsGone(states[j], c)
    ensures IsGone(states[k], c)
    decreases k
  {
    if j < k {
      GoneForGood(states, labels, j, k - 1, c);
      assert StepAt(states, labels, k - 1);
      StepKeepsGone(states[k - 1], labels[k - 1], c);
    }
  }

  lemma ReapRemoves(states: seq<Sys>, labels: seq<Label>, j: nat, c: Child, status: Status)
    requires IsRun(states, labels) && ReapedAt(labels, c, status, j)
    ensures c in states[j].children && IsGone(states[j + 1], c)
  {
    assert StepAt(states, labels, j);
    CI.InvHolds(states, labels, j);
  }

  /** `waitpid` returns a child once. */
  lemma ReapedOnce(states: seq<Sys>, labels: seq<Label>, j: nat, k: nat, c: Child, a: Status, b: Status)
    requires IsRun(states, labels) && ReapedAt(labels, c, a, j) && ReapedAt(labels, c, b, k)
    ensures j == k && a == b
  {
    ReapRemoves(states, labels, j, c, a);
    ReapRemoves(states, labels, k, c, b);
    if j < k {
      GoneForGood(states, labels, j + 1, k, c);
    } else if k < j {
      GoneForGood(states, labels, k + 1, j, c);
    }
  }

  lemma SeenIsTheStatus(states: seq<Sys>, labels: seq<Label>, j: nat, k: nat, c: Child, status: Status)
    requires IsRun(states, labels) && k < |states| && ReapedAt(labels, c, status, j) && c in states[k].hist.seen
    ensures states[k].hist.seen[c] == status
  {
    var i := SeenWasReaped(states, labels, k, c);
    ReapedOnce(states, labels, i, j, c, states[k].hist.seen[c], status);
  }

  // ---------------------------------------------------------------------------------------
  // What the slot shows

  /** The exit code and state the documentation promises for a wait status. */
  ghost predicate Reports(status: Status, stopRequested: bool, state: Phase, code: int) {
    && (forall n :: status == WExited(n) ==> code == n && state == (if stopRequested then Stopped else Exited))
    && (forall n :: status == WSignaled(n) ==> code == 128 + n && state == (if stopRequested then Stopped else Killed))
    && (status == WOther ==> code == -1 && state == Stopped)
  }

  lemma OwnerFromLabel(states: seq<Sys>, labels: seq<Label>, b: nat, k: nat, c: Child)
    requires IsRun(states, labels) && b < k < |states| && PublishedAt(states, labels, c, b)
    ensures c in states[k].hist.owner && states[k].hist.owner[c] == states[b].starts[labels[b].t].index
    decreases k
  {
    assert StepAt(states, labels, k - 1);
    if k > b + 1 {
      OwnerFromLabel(states, labels, b, k - 1, c);
      OwnerKept(states, labels, k, c);
    }
  }

  lemma OwnerKept(states: seq<Sys>, labels: seq<Label>, k: nat, c: Child)
    requires IsRun(states, labels) && 0 < k < |states| && c in states[k - 1].hist.owner
    ensures c in states[k].hist.owner && states[k].hist.owner[c] == states[k - 1].hist.owner[c]
  {
    CI.InvHolds(states, labels, k - 1);
    assert StepAt(states, labels, k - 1);
    StepKeepsOwner(states[k - 1], labels[k - 1], c);
  }

  /** Of the labels alone, in clean runs: a child published (step `b`), returned by `waitpid` with
      `status` (step `j`) and looked up after its publication (step `a`) is shown by the slot it
      was published in with its own exit code, or 128 plus its signal, and the state that fits
      the stop request. */
  lemma SlotShowsTheStatus(states: seq<Sys>, labels: seq<Label>, b: nat, j: nat, a: nat, k: nat, c: Child, status: Status)
    requires IsRun(states, labels) && b < a < k < |states| && Clean(states, labels, k, c.pid)
    requires PublishedAt(states, labels, c, b) && ReapedAt(labels, c, status, j) && LookedUpAt(states, labels, c, a)
    ensures states[b].starts[labels[b].t].index < |states[k].slots|
    ensures var slot := states[k].slots[states[b].starts[labels[b].t].index];
            slot.used && slot.pid == c.pid && Reports(status, slot.stopRequested, slot.state, slot.exitCode)
  {
    OwnerFromLabel(states, labels, b, a, c);
    OwnerFromLabel(states, labels, b, k, c);
    SeenMeansLookedUp(states, labels, k, c);
    SeenIsTheStatus(states, labels, j, k, c, status);
    HomeExactlyIfUnshadowed(states, labels, a, k, c);
    RP.RecordedInItsOwnSlot(states, labels, k, c);
  }

  /** And what a `run` call reports of the child it cloned: its own exit code, or 128 plus its
      signal. */
  lemma RunReportsTheStatus(states: seq<Sys>, labels: seq<Label>, k: nat, t: Tid) returns (j: int, status: Status)
    requires IsRun(states, labels) && k < |states| && t in states[k].starts && states[k].starts[t].stage.Returned?
    requires Clean(states, labels, k, states[k].starts[t].stage.child.pid)
    ensures j < k && ReapedAt(labels, states[k].starts[t].stage.child, status, j)
    ensures states[k].starts[t].index < |states[k].slots|
    ensures var c := states[k].starts[t];
            Reports(status, states[k].slots[c.index].stopRequested, c.stage.state, c.stage.code)
  {
    RP.RunReportsItsOwnChild(states, labels, k, t);
    j := SeenWasReaped(states, labels, k, states[k].starts[t].stage.child);
    status := states[k].hist.seen[states[k].starts[t].stage.child];
  }

  // ---------------------------------------------------------------------------------------
  // The reaper's exit

  lemma StepQuits(s: Sys, l: Label)
    requires Enabled(s, l)
    ensures Next(s, l).quitting <==> s.quitting || l == Quit
  {
    match l
    case DoRecord => CI.RecordLooksUp(s);
    case _ =>
  }

  /** Step `j` clears `supervisor_running`. */
  ghost predicate QuitAt(labels: seq<Label>, j: int) {
    0 <= j < |labels| && labels[j] == Quit
  }

  lemma QuitNext(states: seq<Sys>, labels: seq<Label>, k: nat)
    requires IsRun(states, labels) && 0 < k < |states|
    ensures states[k].quitting <==> states[k - 1].quitting || QuitAt(labels, k - 1)
  {
    assert StepAt(states, labels, k - 1);
    StepQuits(states[k - 1], labels[k - 1]);
  }

  lemma {:induction false} QuittingMeansQuit(states: seq<Sys>, labels: seq<Label>, k: nat)
    requires IsRun(states, labels) && k < |states|
    ensures states[k].quitting <==> exists j :: j < k && QuitAt(labels, j)
  {
    if k > 0 {
      QuittingMeansQuit(states, labels, k - 1);
      QuitNext(states, labels, k);
    }
  }

  /** Step `j` tests `supervisor_running` after an ECHILD. */
  ghost predicate TestedAt(states: seq<Sys>, labels: seq<Label>, j: int) {
    0 <= j < |labels| && j < |states| && labels[j] == CheckQuit && states[j].reaper == NoChild
  }

  lemma StepFinishes(s: Sys, l: Label)
    requires Enabled(s, l)
    ensures Next(s, l).reaper == Finished <==> s.reaper == Finished || (l == CheckQuit && s.reaper == NoChild && s.quitting)
    ensures l == CheckQuit && !s.quitting ==> Next(s, l).reaper == Waiting
  {
    match l
    case Local(t, a) => SI.LocalMoves(s, t, a);
    case DoStop(_, _) => SI.StopOnlyStops(s, l);
    case DoStopAll => SI.StopOnlyStops(s, l);
    case DoRecord => CI.RecordLooksUp(s);
    case _ =>
  }

  /** The reaper has left after step `j`'s test: the supervisor was told to quit before it. */
  ghost predicate LeftAt(states: seq<Sys>, labels: seq<Label>, j: int) {
    TestedAt(states, labels, j) && exists a :: a < j && QuitAt(labels, a)
  }

  lemma FinishNext(states: seq<Sys>, labels: seq<Label>, k: nat)
    requires IsRun(states, labels) && 0 < k < |states|
    ensures states[k].reaper == Finished <==> states[k - 1].reaper == Finished || LeftAt(states, labels, k - 1)
  {
    QuittingMeansQuit(states, labels, k - 1);
    assert StepAt(states, labels, k - 1);
    StepFinishes(states[k - 1], labels[k - 1]);
  }

  /** The reaper has exited exactly if, after an ECHILD, it once tested `supervisor_running` when
      the supervisor had been told to quit. */
  lemma {:induction false} FinishedExactly(states: seq<Sys>, labels: seq<Label>, k: nat)
    requires IsRun(states, labels) && k < |states|
    ensures states[k].reaper == Finished <==> exists j :: j < k && LeftAt(states, labels, j)
  {
    if k > 0 {
      FinishedExactly(states, labels, k - 1);
      FinishNext(states, labels, k);
    }
  }

  /** Before the supervisor is told to quit, the test after an ECHILD sends the reaper back to
      `waitpid`. */
  lemma ReaperComesBack(states: seq<Sys>, labels: seq<Label>, k: nat)
    requires IsRun(states, labels) && TestedAt(states, labels, k) && forall a :: a < k ==> !QuitAt(labels, a)
    ensures states[k + 1].reaper == Waiting
  {
    QuittingMeansQuit(states, labels, k);
    assert StepAt(states, labels, k);
    StepFinishes(states[k], labels[k]);
  }
}
