/** One start call from its request to its end: whose request it serves, how it fails, who waits. */
module Calls {
  import opened Containers
  import opened Lifecycle
  import SI = SlotInvariant
  import SH = SlotHistory
  import CI = ChildInvariant
  import RS = Resources

  /** Step `j` admits a request and begins call `t`. */
  ghost predicate BegunAt(states: seq<Sys>, labels: seq<Label>, t: Tid, j: int) {
    0 <= j < |labels| && j + 1 < |states| && labels[j].DoClaim? && labels[j].t == t && t in states[j + 1].starts
  }

  /** A step of another thread leaves call `t` alone, or wakes it. */
  lemma StepKeepsCall(s: Sys, l: Label, t: Tid)
    requires Enabled(s, l) && t in s.starts
    requires !((l.Local? || l.DoUnclaim? || l.DoPublish? || l.RunCheck? || l.Spurious?) && l.t == t)
    ensures t in Next(s, l).starts
    ensures Next(s, l).starts[t] == s.starts[t] || (l == DoRecord && Next(s, l).starts[t] == WakeOne(s.starts[t], s.starts[t].index))
  {
    match l
    case Local(u, a) => SI.LocalMoves(s, u, a);
    case DoStop(_, _) => SI.StopOnlyStops(s, l);
    case DoStopAll => SI.StopOnlyStops(s, l);
    case DoRecord => CI.RecordLooksUp(s);
    case DoClaim(_, _, _, _) =>
    case DoUnclaim(_) =>
    case DoPublish(_) =>
    case RunCheck(_) =>
    case Spurious(_) =>
    case _ => SI.QuietChangesNothing(s, l);
  }

  /** A step of call `t` itself keeps its slot and its kind. */
  lemma OwnStepMoves(s: Sys, l: Label, t: Tid)
    requires Enabled(s, l) && (l.DoUnclaim? || l.DoPublish? || l.RunCheck? || l.Spurious?) && l.t == t
    ensures t in s.starts && t in Next(s, l).starts && Next(s, l).starts[t] == s.starts[t].(stage := Next(s, l).starts[t].stage)
    ensures SI.Pending(s.starts[t].stage) || SI.OnSlot(s.starts[t].stage)
    ensures Next(s, l).starts[t].stage.Asleep? || Next(s, l).starts[t].stage.Returned? ==> s.starts[t].run
  {
  }

  // ---------------------------------------------------------------------------------------
  // Start or run

  /** Call `t` exists and serves a `run` request exactly if `run`. */
  ghost predicate Serves(s: Sys, t: Tid, run: bool) {
    t in s.starts && s.starts[t].run == run
  }

  lemma StepKeepsRun(s: Sys, l: Label, t: Tid, run: bool)
    requires Enabled(s, l)
    ensures Serves(Next(s, l), t, run) <==>
            Serves(s, t, run) || (l.DoClaim? && l.t == t && t in Next(s, l).starts && l.run == run)
  {
    match l
    case Local(u, a) => SI.LocalMoves(s, u, a);
    case DoStop(_, _) => SI.StopOnlyStops(s, l);
    case DoStopAll => SI.StopOnlyStops(s, l);
    case DoClaim(_, _, _, _) =>
    case DoRecord => RecordKeepsRun(s, t, run);
    case DoUnclaim(_) =>
    case DoPublish(_) =>
    case RunCheck(_) =>
    case Spurious(_) =>
    case _ => SI.QuietChangesNothing(s, l);
  }

  lemma RecordKeepsRun(s: Sys, t: Tid, run: bool)
    requires s.reaper.Reaped?
    ensures Serves(AfterRecord(s), t, run) <==> Serves(s, t, run)
  {
    CI.RecordLooksUp(s);
  }

  lemma RunForOneStep(states: seq<Sys>, labels: seq<Label>, k: nat, t: Tid, run: bool)
    requires IsRun(states, labels) && 0 < k < |states|
    ensures Serves(states[k], t, run) <==>
            Serves(states[k - 1], t, run) || (BegunAt(states, labels, t, k - 1) && labels[k - 1].run == run)
  {
    assert StepAt(states, labels, k - 1);
    StepKeepsRun(states[k - 1], labels[k - 1], t, run);
  }

  /** A call waits for its container exactly if the request that began it asked to `run`. */
  lemma {:induction false} ServesItsRequest(states: seq<Sys>, labels: seq<Label>, k: nat, t: Tid, run: bool)
    requires IsRun(states, labels) && k < |states|
    ensures Serves(states[k], t, run) <==> exists j :: j < k && BegunAt(states, labels, t, j) && labels[j].run == run
  {
    if k > 0 {
      ServesItsRequest(states, labels, k - 1, t, run);
      RunForOneStep(states, labels, k, t, run);
    }
  }

  /** Only calls that serve a `run` request sleep or report. */
  ghost predicate WaitsOnlyToRun(s: Sys, t: Tid) {
    t in s.starts && (s.starts[t].stage.Asleep? || s.starts[t].stage.Returned?) ==> s.starts[t].run
  }

  lemma StepKeepsWaiting(s: Sys, l: Label, t: Tid)
    requires Enabled(s, l) && WaitsOnlyToRun(s, t)
    ensures WaitsOnlyToRun(Next(s, l), t)
  {
    if t !in s.starts {
      if !l.DoClaim? {
        NoNewCall(s, l, t);
      }
    } else if (l.DoUnclaim? || l.DoPublish? || l.RunCheck? || l.Spurious?) && l.t == t {
      OwnStepMoves(s, l, t);
    } else if l.Local? && l.t == t {
      SI.LocalMoves(s, t, l.a);
      SI.ActionsStayPending(s.starts[t].stage, l.a);
    } else {
      StepKeepsCall(s, l, t);
    }
  }

  lemma NoNewCall(s: Sys, l: Label, t: Tid)
    requires Enabled(s, l) && t !in s.starts && !l.DoClaim?
    ensures t !in Next(s, l).starts
  {
    match l
    case Local(u, a) => SI.LocalMoves(s, u, a);
    case DoStop(_, _) => SI.StopOnlyStops(s, l);
    case DoStopAll => SI.StopOnlyStops(s, l);
    case DoRecord => CI.RecordLooksUp(s);
    case DoUnclaim(_) =>
    case DoPublish(_) =>
    case RunCheck(_) =>
    case Spurious(_) =>
    case _ => SI.QuietChangesNothing(s, l);
  }

  /** A call sleeps or reports only if the request that began it asked to `run`. */
  lemma {:induction false} OnlyRunsWait(states: seq<Sys>, labels: seq<Label>, k: nat, t: Tid)
    requires IsRun(states, labels) && k < |states|
    ensures WaitsOnlyToRun(states[k], t)
    ensures t in states[k].starts && (states[k].starts[t].stage.Asleep? || states[k].starts[t].stage.Returned?) ==>
              exists j :: j < k && BegunAt(states, labels, t, j) && labels[j].run
  {
    if k > 0 {
      OnlyRunsWait(states, labels, k - 1, t);
      assert StepAt(states, labels, k - 1);
      StepKeepsWaiting(states[k - 1], labels[k - 1], t);
    }
    ServesItsRequest(states, labels, k, t, true);
  }

  /** A `run` request whose container is published and who is not asleep can always take its next
      look: a terminal slot makes it return that slot's state and exit code, a live one puts it
      to sleep, and nothing else changes. */
  lemma RunLooksAndReports(states: seq<Sys>, labels: seq<Label>, j: nat, k: nat, t: Tid)
    requires IsRun(states, labels) && j < k < |states| && BegunAt(states, labels, t, j) && labels[j].run
    requires t in states[k].starts && states[k].starts[t].stage.Up?
    ensures Enabled(states[k], RunCheck(t)) && states[k].starts[t].index < |states[k].slots|
    ensures var s, s', c := states[k], Next(states[k], RunCheck(t)), states[k].starts[t];
            && t in s'.starts && s'.starts.Keys == s.starts.Keys
            && (Terminal(s.slots[c.index].state) ==>
                  s'.starts[t].stage == Returned(c.stage.child, s.slots[c.index].state, s.slots[c.index].exitCode))
            && (!Terminal(s.slots[c.index].state) ==> s'.starts[t].stage == Asleep(c.stage.child))
            && (forall u :: u in s.starts && u != t ==> s'.starts[u] == s.starts[u])
            && s' == s.(starts := s'.starts)
  {
    ServesItsRequest(states, labels, k, t, true);
    SI.InvHolds(states, labels, k);
    assert SI.StartMatches(states[k], t);
    assert SI.SlotMatches(states[k], states[k].starts[t].index);
  }

  /** The record of its container wakes every client asleep on it. */
  lemma RecordWakesTheSleepers(states: seq<Sys>, labels: seq<Label>, k: nat, t: Tid)
    requires IsRun(states, labels) && StepAt(states, labels, k) && labels[k] == DoRecord
    requires t in states[k].starts && states[k].starts[t].stage.Asleep?
    requires FirstByPid(states[k].slots, states[k].reaper.child.pid, 0) == states[k].starts[t].index
    ensures t in states[k + 1].starts && states[k + 1].starts[t] == states[k].starts[t].(stage := Up(states[k].starts[t].stage.child))
  {
    CI.RecordLooksUp(states[k]);
  }

  // ---------------------------------------------------------------------------------------
  // The request in the slot

  /** Used slots keep what the request put into them as long as they are used. */
  lemma UsedSlotKeepsRequest(s: Sys, l: Label, i: nat)
    requires SI.Inv(s) && Enabled(s, l) && i < |s.slots| && s.slots[i].used
    ensures i < |Next(s, l).slots| && SH.RequestPart(Next(s, l).slots[i]) == SH.RequestPart(s.slots[i])
  {
    if !l.DoClaim? {
      SI.StepEvolves(s, l);
      assert SI.Evolves(s.slots[i], Next(s, l).slots[i]);
    }
  }

  /** The slot of call `t` shows this request, unless the call has failed. */
  ghost predicate ShowsRequest(s: Sys, t: Tid, req: Request, now: int) {
    && t in s.starts
    && (!s.starts[t].stage.Failed? ==>
          s.starts[t].index < |s.slots| && SH.RequestPart(s.slots[s.starts[t].index]) == SH.RequestPart(NewSlot(req, now)))
  }

  /** Steps move calls between stages, never to another slot, and never out of failure. */
  lemma StepKeepsIndex(s: Sys, l: Label, t: Tid)
    requires Enabled(s, l) && t in s.starts
    ensures t in Next(s, l).starts && Next(s, l).starts[t].index == s.starts[t].index
    ensures s.starts[t].stage.Failed? ==> Next(s, l).starts[t].stage.Failed?
  {
    if (l.DoUnclaim? || l.DoPublish? || l.RunCheck? || l.Spurious?) && l.t == t {
      OwnStepMoves(s, l, t);
    } else if l.Local? && l.t == t {
      SI.LocalMoves(s, t, l.a);
      SI.ActionsStayPending(s.starts[t].stage, l.a);
    } else {
      StepKeepsCall(s, l, t);
    }
  }

  lemma LiveCallHasUsedSlot(s: Sys, t: Tid)
    requires SI.Inv(s) && t in s.starts && !s.starts[t].stage.Failed?
    ensures s.starts[t].index < |s.slots| && s.slots[s.starts[t].index].used
  {
    assert SI.StartMatches(s, t);
    if SI.Pending(s.starts[t].stage) {
      assert SI.ClaimMatches(s, s.starts[t].index);
    }
    assert SI.SlotMatches(s, s.starts[t].index);
  }

  lemma StepKeepsRequest(s: Sys, l: Label, t: Tid, req: Request, now: int)
    requires SI.Inv(s) && Enabled(s, l) && ShowsRequest(s, t, req, now)
    ensures ShowsRequest(Next(s, l), t, req, now)
  {
    StepKeepsIndex(s, l, t);
    if !s.starts[t].stage.Failed? {
      LiveCallHasUsedSlot(s, t);
      UsedSlotKeepsRequest(s, l, s.starts[t].index);
    }
  }

  lemma ClaimShowsRequest(s: Sys, t: Tid, req: Request, run: bool, now: int)
    requires Enabled(s, DoClaim(t, req, run, now)) && t in AfterClaim(s, t, req, run, now).starts
    ensures ShowsRequest(AfterClaim(s, t, req, run, now), t, req, now)
  {
    ClaimExactly(s.slots, req, now);
  }

  /** Until it fails, a call's slot shows the request that began it: id, rootfs, command, log
      file, limits, niceness and start time; for a published call, for the rest of the run. */
  lemma {:induction false} SlotShowsItsRequest(states: seq<Sys>, labels: seq<Label>, j: nat, k: nat, t: Tid)
    requires IsRun(states, labels) && j < k < |states| && BegunAt(states, labels, t, j)
    ensures ShowsRequest(states[k], t, labels[j].req, labels[j].now)
    decreases k
  {
    if k == j + 1 {
      assert StepAt(states, labels, j);
      ClaimShowsRequest(states[j], t, labels[j].req, labels[j].run, labels[j].now);
    } else {
      SlotShowsItsRequest(states, labels, j, k - 1, t);
      SI.InvHolds(states, labels, k - 1);
      assert StepAt(states, labels, k - 1);
      StepKeepsRequest(states[k - 1], labels[k - 1], t, labels[j].req, labels[j].now);
    }
  }

  // ---------------------------------------------------------------------------------------
  // Failure

  ghost predicate IsFailure(a: Action) {
    a.NoPipe? || a.NoStack? || a.NoArg? || a.CloneFailed? || a.NoParg?
  }

  /** A start whose pipe, allocation or clone fails does one thing more: it gives its slot back. */
  lemma FailureIsRolledBack(states: seq<Sys>, labels: seq<Label>, k: nat, t: Tid, a: Action)
    requires IsRun(states, labels) && StepAt(states, labels, k) && labels[k] == Local(t, a) && IsFailure(a)
    ensures t in states[k + 1].starts && states[k + 1].starts[t].stage == AtUnclaim && Enabled(states[k + 1], DoUnclaim(t))
    ensures var s', i := Next(states[k + 1], DoUnclaim(t)), states[k].starts[t].index;
            && t in s'.starts && s'.starts[t].stage == Failed
            && i < |s'.slots| && s'.slots == states[k + 1].slots[i := states[k + 1].slots[i].(used := false)]
  {
    SI.InvHolds(states, labels, k + 1);
    SI.LocalMoves(states[k], t, a);
    LiveCallHasUsedSlot(states[k + 1], t);
  }

  /** How many pipe ends and blocks a call has acquired when it reaches a stage: no acquisition
      is skipped on the way. */
  ghost function Needed(g: Stage): nat {
    match g
    case AtPipe => 0
    case AtStack(_, _) => 2
    case AtArg(_, _, _) => 3
    case AtClone(_, _, _, _) => 4
    case AtParg(_, _, _) => 4
    case AtPublish(_, _, _, _) => 5
    case AtUnclaim => 0
    case Failed => 0
    case _ => 5
  }

  ghost predicate GotEnough(s: Sys, t: Tid) {
    t in s.starts && !s.starts[t].stage.AtUnclaim? && !s.starts[t].stage.Failed? ==> |s.starts[t].got| == Needed(s.starts[t].stage)
  }

  ghost function Names(rs: seq<Resource>): set<Resource> {
    set r | r in rs
  }

  lemma CountOf(rs: seq<Resource>)
    requires Distinct(rs) && |rs| <= 2
    ensures |Names(rs)| == |rs|
  {
    if |rs| == 1 {
      assert Names(rs) == {rs[0]};
    } else if |rs| == 2 {
      assert Names(rs) == {rs[0], rs[1]} && rs[0] != rs[1];
    } else {
      assert Names(rs) == {};
    }
  }

  lemma LocalGets(s: Sys, t: Tid, a: Action)
    requires Enabled(s, Local(t, a))
    ensures AfterLocal(s, t, a).starts[t].got == s.starts[t].got + Names(Acquired(a))
    ensures AfterLocal(s, t, a).starts[t].stage == StageAfter(s.starts[t].stage, a)
  {
  }

  lemma AcquisitionsAddUp(g: Stage, a: Action)
    requires ActionFits(g, a)
    ensures |Acquired(a)| <= 2 && !g.AtUnclaim? && !g.Failed?
    ensures StageAfter(g, a) == AtUnclaim || Needed(StageAfter(g, a)) == Needed(g) + |Acquired(a)|
  {
  }

  lemma LocalKeepsGot(s: Sys, t: Tid, a: Action)
    requires Enabled(s, Local(t, a)) && GotEnough(s, t) && forall r :: r in s.starts[t].got ==> r in s.ledger.holder
    ensures GotEnough(AfterLocal(s, t, a), t)
  {
    LocalGets(s, t, a);
    AcquisitionsAddUp(s.starts[t].stage, a);
    CountOf(Acquired(a));
    SizeOfUnion(s.starts[t].got, Names(Acquired(a)));
  }

  lemma SizeOfUnion(a: set<Resource>, b: set<Resource>)
    requires a !! b
    ensures |a + b| == |a| + |b|
  {
  }

  lemma NewCallHasNothing(s: Sys, l: Label, t: Tid)
    requires Enabled(s, l) && t !in s.starts && l.DoClaim?
    ensures GotEnough(Next(s, l), t)
  {
  }

  lemma OwnStepKeepsGot(s: Sys, l: Label, t: Tid)
    requires Enabled(s, l) && (l.DoUnclaim? || l.DoPublish? || l.RunCheck? || l.Spurious?) && l.t == t && GotEnough(s, t)
    ensures GotEnough(Next(s, l), t)
  {
    OwnStepMoves(s, l, t);
  }

  lemma StepKeepsGot(s: Sys, l: Label, t: Tid)
    requires Enabled(s, l) && GotEnough(s, t)
    requires t in s.starts ==> forall r :: r in s.starts[t].got ==> r in s.ledger.holder
    ensures GotEnough(Next(s, l), t)
  {
    if t !in s.starts {
      if l.DoClaim? {
        NewCallHasNothing(s, l, t);
      } else {
        NoNewCall(s, l, t);
      }
    } else if (l.DoUnclaim? || l.DoPublish? || l.RunCheck? || l.Spurious?) && l.t == t {
      OwnStepKeepsGot(s, l, t);
    } else if l.Local? && l.t == t {
      LocalKeepsGot(s, t, l.a);
    } else {
      StepKeepsCall(s, l, t);
    }
  }

  lemma {:induction false} GotEnoughAlways(states: seq<Sys>, labels: seq<Label>, k: nat, t: Tid)
    requires IsRun(states, labels) && k < |states|
    ensures GotEnough(states[k], t)
  {
    if k > 0 {
      GotEnoughAlways(states, labels, k - 1, t);
      RS.InvHolds(states, labels, k - 1);
      assert t in states[k - 1].starts ==> RS.StartOwns(states[k - 1], t);
      assert StepAt(states, labels, k - 1);
      StepKeepsGot(states[k - 1], labels[k - 1], t);
    }
  }

  /** A published start has acquired all five things it needs: both pipe ends, the stack and the
      two argument blocks. */
  lemma PublishedStartGotAll(states: seq<Sys>, labels: seq<Label>, k: nat, t: Tid)
    requires IsRun(states, labels) && k < |states| && t in states[k].starts && SI.OnSlot(states[k].starts[t].stage)
    ensures |states[k].starts[t].got| == 5
  {
    GotEnoughAlways(states, labels, k, t);
  }
}
