/** Which slots are claimed, published and free, in every reachable state of the supervisor. */
module SlotInvariant {
  import opened Containers
  import C = Containers
  import opened Lifecycle

  /** Between claiming its slot and publishing or releasing it. */
  ghost predicate Pending(stage: Stage) {
    !stage.Failed? && !OnSlot(stage)
  }

  /** The call published its slot. */
  ghost predicate OnSlot(stage: Stage) {
    stage.Up? || stage.Asleep? || stage.Returned?
  }

  /** `claimer` says which call is working on a claimed slot; no slot has two. */
  ghost predicate ClaimMatches(s: Sys, i: nat)
    requires i in s.hist.claimer
  {
    var t := s.hist.claimer[i];
    i < MAX_CONTAINERS && t in s.starts && s.starts[t].index == i && Pending(s.starts[t].stage)
  }

  /** A pending call has its slot to itself.  A `run` client looks at the slot its call
      published, and never sleeps on a finished one. */
  ghost predicate StartMatches(s: Sys, t: Tid)
    requires t in s.starts
  {
    var c := s.starts[t];
    && (Pending(c.stage) ==> c.index in s.hist.claimer && s.hist.claimer[c.index] == t)
    && (c.stage.AtParg? || c.stage.AtPublish? ==> c.stage.child.pid > 0)
    && (OnSlot(c.stage) ==>
          c.index in s.hist.published && c.index < |s.slots| && s.slots[c.index].pid == c.stage.child.pid)
    && (c.stage.Asleep? ==> s.slots[c.index].state == Running)
  }

  ghost predicate SlotMatches(s: Sys, i: nat)
    requires i < |s.slots|
  {
    var slot := s.slots[i];
    && (slot.used <==> i in s.hist.claimer || i in s.hist.published)
    && !(i in s.hist.claimer && i in s.hist.published)
    && (i in s.hist.claimer ==> slot.state == Starting && slot.pid == -1 && slot.stack == 0)
    && (i in s.hist.published ==> (slot.state == Running || Terminal(slot.state)) && slot.pid > 0)
    && (!slot.used ==> slot.stack == 0)
  }

  /** Used slots are exactly the claimed ones, all STARTING with pid -1, and the published
      ones, all RUNNING or terminal with a real pid. */
  ghost predicate Inv(s: Sys) {
    && |s.slots| == MAX_CONTAINERS
    && (forall i :: i in s.hist.claimer ==> ClaimMatches(s, i))
    && (forall t :: t in s.starts ==> StartMatches(s, t))
    && (forall i :: 0 <= i < MAX_CONTAINERS ==> SlotMatches(s, i))
    && Counts(s)
  }

  ghost predicate Counts(s: Sys) {
    && (forall i :: i in s.hist.published ==> i < MAX_CONTAINERS)
    && s.hist.publishes == |s.hist.published|
    && (s.reaper.Reaped? ==> s.reaper.child.pid > 0)
    && (forall c :: c in s.children ==> c.pid > 0)
  }

  /** The table and the record of who claimed and published what are as before. */
  ghost predicate SameTable(s: Sys, s': Sys) {
    && s'.slots == s.slots && s'.hist.claimer == s.hist.claimer
    && s'.hist.published == s.hist.published && s'.hist.publishes == s.hist.publishes
  }

  lemma SameTableKeepsInv(s: Sys, s': Sys)
    requires Inv(s) && SameTable(s, s') && Counts(s')
    requires forall u :: u in s.starts ==>
               u in s'.starts && s'.starts[u].index == s.starts[u].index &&
               (Pending(s.starts[u].stage) ==> Pending(s'.starts[u].stage))
    requires forall u :: u in s'.starts ==> StartMatches(s', u)
    ensures Inv(s')
  {
    forall i | 0 <= i < MAX_CONTAINERS
      ensures SlotMatches(s', i)
    {
      assert SlotMatches(s, i);
    }
    forall i | i in s'.hist.claimer
      ensures ClaimMatches(s', i)
    {
      assert ClaimMatches(s, i);
    }
  }

  lemma ActionsStayPending(g: Stage, a: Action)
    requires ActionFits(g, a)
    ensures Pending(g) && Pending(StageAfter(g, a))
    ensures StageAfter(g, a).AtParg? ==> a.GotChild? && StageAfter(g, a).child == a.child
    ensures StageAfter(g, a).AtPublish? ==> g.AtParg? && StageAfter(g, a).child == g.child
  {
  }

  /** One pending call moves on; nothing else about the calls or the table changes. */
  ghost predicate OneMoves(s: Sys, s': Sys, t: Tid) {
    && SameTable(s, s') && s'.reaper == s.reaper && s'.stops == s.stops
    && t in s.starts && s'.starts.Keys == s.starts.Keys
    && (forall u :: u in s.starts && u != t ==> s'.starts[u] == s.starts[u])
    && s'.starts[t].index == s.starts[t].index && s'.starts[t].run == s.starts[t].run
  }

  lemma LocalMoves(s: Sys, t: Tid, a: Action)
    requires Enabled(s, Local(t, a))
    ensures var s' := AfterLocal(s, t, a);
            && OneMoves(s, s', t)
            && s'.starts[t].stage == StageAfter(s.starts[t].stage, a)
            && s'.children == (if a.GotChild? then s.children + {a.child} else s.children)
  {
  }

  lemma OneMoveKeepsInv(s: Sys, s': Sys, t: Tid)
    requires Inv(s) && OneMoves(s, s', t)
    requires Pending(s.starts[t].stage) && Pending(s'.starts[t].stage)
    requires s'.starts[t].stage.AtParg? || s'.starts[t].stage.AtPublish? ==> s'.starts[t].stage.child.pid > 0
    requires forall c :: c in s'.children ==> c.pid > 0
    ensures Inv(s')
  {
    forall u | u in s'.starts
      ensures StartMatches(s', u)
    {
      assert StartMatches(s, u);
    }
    SameTableKeepsInv(s, s');
  }

  lemma LocalKeepsInv(s: Sys, t: Tid, a: Action)
    requires Inv(s) && Enabled(s, Local(t, a))
    ensures Inv(AfterLocal(s, t, a))
  {
    LocalMoves(s, t, a);
    ActionsStayPending(s.starts[t].stage, a);
    assert StartMatches(s, t);
    OneMoveKeepsInv(s, AfterLocal(s, t, a), t);
  }

  lemma ClaimKeepsInv(s: Sys, t: Tid, req: Request, run: bool, now: int)
    requires Inv(s) && t !in s.starts
    ensures Inv(AfterClaim(s, t, req, run, now))
  {
    var s' := AfterClaim(s, t, req, run, now);
    var outcome := C.Claim(s.slots, req, now).0;
    if outcome.Claimed? {
      assert SlotMatches(s, outcome.index);
      forall u | u in s'.starts
        ensures StartMatches(s', u)
      {
        assert u != t ==> StartMatches(s, u);
      }
      forall i | 0 <= i < MAX_CONTAINERS
        ensures SlotMatches(s', i)
      {
        assert SlotMatches(s, i);
      }
      assert forall i :: i in s.hist.claimer ==> ClaimMatches(s, i);
    }
  }

  lemma UnclaimKeepsInv(s: Sys, t: Tid)
    requires Inv(s) && Enabled(s, DoUnclaim(t))
    ensures Inv(AfterUnclaim(s, t))
  {
    var s' := AfterUnclaim(s, t);
    assert StartMatches(s, t);
    assert SlotMatches(s, s.starts[t].index);
    forall u | u in s'.starts
      ensures StartMatches(s', u)
    {
      assert StartMatches(s, u);
    }
    forall i | 0 <= i < MAX_CONTAINERS
      ensures SlotMatches(s', i)
    {
      assert SlotMatches(s, i);
    }
    assert forall i :: i in s.hist.claimer ==> ClaimMatches(s, i);
  }

  lemma PublishKeepsCounts(s: Sys, t: Tid)
    requires Inv(s) && Enabled(s, DoPublish(t))
    ensures Counts(AfterPublish(s, t))
  {
    assert StartMatches(s, t);
    assert SlotMatches(s, s.starts[t].index);
  }

  lemma PublishKeepsStart(s: Sys, t: Tid, u: Tid)
    requires Inv(s) && Enabled(s, DoPublish(t)) && u in s.starts
    ensures StartMatches(AfterPublish(s, t), u)
  {
    assert StartMatches(s, t) && StartMatches(s, u);
    assert SlotMatches(s, s.starts[t].index);
  }

  lemma PublishKeepsSlot(s: Sys, t: Tid, i: nat)
    requires Inv(s) && Enabled(s, DoPublish(t)) && i < |s.slots|
    ensures SlotMatches(AfterPublish(s, t), i)
  {
    assert StartMatches(s, t) && SlotMatches(s, i);
  }

  lemma PublishKeepsInv(s: Sys, t: Tid)
    requires Inv(s) && Enabled(s, DoPublish(t))
    ensures Inv(AfterPublish(s, t))
  {
    var s' := AfterPublish(s, t);
    PublishKeepsCounts(s, t);
    forall u | u in s'.starts
      ensures StartMatches(s', u)
    {
      PublishKeepsStart(s, t, u);
    }
    forall i | 0 <= i < MAX_CONTAINERS
      ensures SlotMatches(s', i)
    {
      PublishKeepsSlot(s, t, i);
    }
    forall i | i in s'.hist.claimer
      ensures ClaimMatches(s', i)
    {
      assert ClaimMatches(s, i);
    }
  }

  /** A published call changes between awake, asleep and returned. */
  lemma RestageKeepsInv(s: Sys, t: Tid, stage: Stage)
    requires Inv(s) && t in s.starts && OnSlot(s.starts[t].stage)
    requires OnSlot(stage) && stage.child == s.starts[t].stage.child
    requires stage.Asleep? && s.starts[t].index < |s.slots| ==> s.slots[s.starts[t].index].state == Running
    ensures Inv(Move(s, t, stage))
  {
    var s' := Move(s, t, stage);
    forall u | u in s'.starts
      ensures StartMatches(s', u)
    {
      assert StartMatches(s, u);
    }
    SameTableKeepsInv(s, s');
  }

  lemma RunCheckKeepsInv(s: Sys, t: Tid)
    requires Inv(s) && Enabled(s, RunCheck(t))
    ensures Inv(AfterRunCheck(s, t))
  {
    assert StartMatches(s, t);
    assert SlotMatches(s, s.starts[t].index);
    RestageKeepsInv(s, t, AfterRunCheck(s, t).starts[t].stage);
  }

  /** Only `stopRequested` of live slots changes. */
  ghost predicate OnlyStops(slots: seq<Slot>, slots': seq<Slot>) {
    |slots'| == |slots| && forall i :: 0 <= i < |slots| ==>
      slots'[i] == slots[i] ||
      (slots[i].used && Live(slots[i].state) && slots'[i] == slots[i].(stopRequested := true))
  }

  lemma StopOnlyStops(s: Sys, l: Label)
    requires Enabled(s, l) && (l.DoStop? || l.DoStopAll?)
    ensures OnlyStops(s.slots, Next(s, l).slots)
    ensures Next(s, l).starts == s.starts && Next(s, l).reaper == s.reaper && Next(s, l).children == s.children
    ensures Next(s, l).hist.(terms := {}) == s.hist.(terms := {}) && Next(s, l).ledger == s.ledger
  {
  }

  lemma StopKeepsInv(s: Sys, l: Label)
    requires Inv(s) && Enabled(s, l) && (l.DoStop? || l.DoStopAll?)
    ensures Inv(Next(s, l))
  {
    StopOnlyStops(s, l);
    var s' := Next(s, l);
    forall u | u in s'.starts
      ensures StartMatches(s', u)
    {
      assert StartMatches(s, u);
    }
    forall i | 0 <= i < MAX_CONTAINERS
      ensures SlotMatches(s', i)
    {
      assert SlotMatches(s, i);
    }
    assert forall i :: i in s.hist.claimer ==> ClaimMatches(s, i);
  }

  /** The reaper can only match a published slot. */
  lemma RecordHitsPublished(s: Sys, p: int)
    requires Inv(s) && p > 0
    ensures FirstByPid(s.slots, p, 0) >= 0 ==> FirstByPid(s.slots, p, 0) in s.hist.published
  {
    var i := FirstByPid(s.slots, p, 0);
    if i >= 0 {
      assert SlotMatches(s, i);
    }
  }

  lemma RecordKeepsStart(s: Sys, u: Tid)
    requires Inv(s) && s.reaper.Reaped? && u in s.starts
    ensures u in AfterRecord(s).starts && StartMatches(AfterRecord(s), u)
    ensures AfterRecord(s).starts[u].index == s.starts[u].index && (Pending(s.starts[u].stage) ==> AfterRecord(s).starts[u] == s.starts[u])
  {
    RecordHitsPublished(s, s.reaper.child.pid);
    assert StartMatches(s, u);
  }

  lemma RecordKeepsSlot(s: Sys, i: nat)
    requires Inv(s) && s.reaper.Reaped? && i < |s.slots|
    ensures |AfterRecord(s).slots| == |s.slots| && SlotMatches(AfterRecord(s), i)
  {
    RecordHitsPublished(s, s.reaper.child.pid);
    assert SlotMatches(s, i);
  }

  lemma RecordKeepsInv(s: Sys)
    requires Inv(s) && s.reaper.Reaped?
    ensures Inv(AfterRecord(s))
  {
    var s' := AfterRecord(s);
    forall u | u in s'.starts
      ensures StartMatches(s', u)
    {
      RecordKeepsStart(s, u);
    }
    forall i | 0 <= i < MAX_CONTAINERS
      ensures SlotMatches(s', i)
    {
      RecordKeepsSlot(s, i);
    }
    forall i | i in s'.hist.claimer
      ensures ClaimMatches(s', i)
    {
      assert ClaimMatches(s, i);
      RecordKeepsStart(s, s.hist.claimer[i]);
    }
  }

  /** Steps that change neither the table nor a start call. */
  ghost predicate IsQuiet(l: Label) {
    l.DoKill? || l.Quit? || l.Reap? || l.SawNoChild? || l.CheckQuit? || l.ThreadBegins? || l.ThreadEnds?
  }

  lemma QuietChangesNothing(s: Sys, l: Label)
    requires Enabled(s, l) && IsQuiet(l)
    ensures var s' := Next(s, l);
            && s'.slots == s.slots && s'.starts == s.starts && s'.hist.(terms := {}) == s.hist.(terms := {})
            && s'.children <= s.children && (s'.reaper.Reaped? ==> s'.reaper == s.reaper || s'.reaper.child in s.children)
  {
  }

  lemma RestKeepsInv(s: Sys, l: Label)
    requires Inv(s) && Enabled(s, l) && IsQuiet(l)
    ensures Inv(Next(s, l))
  {
    var s' := Next(s, l);
    QuietChangesNothing(s, l);
    forall u | u in s'.starts
      ensures StartMatches(s', u)
    {
      assert StartMatches(s, u);
    }
    SameTableKeepsInv(s, s');
  }

  lemma StepKeepsInv(s: Sys, l: Label)
    requires Inv(s) && Enabled(s, l)
    ensures Inv(Next(s, l))
  {
    match l
    case Local(t, a) => LocalKeepsInv(s, t, a);
    case DoClaim(t, req, run, now) => ClaimKeepsInv(s, t, req, run, now);
    case DoUnclaim(t) => UnclaimKeepsInv(s, t);
    case DoPublish(t) => PublishKeepsInv(s, t);
    case RunCheck(t) => RunCheckKeepsInv(s, t);
    case Spurious(t) => RestageKeepsInv(s, t, Up(s.starts[t].stage.child));
    case DoStop(_, _) => StopKeepsInv(s, l);
    case DoStopAll => StopKeepsInv(s, l);
    case DoRecord => RecordKeepsInv(s);
    case _ => RestKeepsInv(s, l);
  }

  // ---------------------------------------------------------------------------------------
  // What a step can do to one slot

  ghost predicate Retires(a: Slot, b: Slot) {
    exists status :: b == Retire(a, status)
  }

  /** Every change of a slot other than being claimed. */
  ghost predicate Evolves(a: Slot, b: Slot) {
    || b == a
    || (a.used && a.state == Starting && b == a.(used := false))
    || (a.used && a.state == Starting && b == a.(pid := b.pid, stack := b.stack, state := Running))
    || (a.used && Live(a.state) && b == a.(stopRequested := true))
    || (a.used && (a.state == Running || Terminal(a.state)) && Retires(a, b))
  }

  ghost predicate AllEvolve(slots: seq<Slot>, slots': seq<Slot>) {
    |slots'| == |slots| && forall i :: 0 <= i < |slots| ==> Evolves(slots[i], slots'[i])
  }

  lemma UnclaimEvolves(s: Sys, t: Tid)
    requires Inv(s) && Enabled(s, DoUnclaim(t))
    ensures AllEvolve(s.slots, AfterUnclaim(s, t).slots)
  {
    assert StartMatches(s, t);
    assert SlotMatches(s, s.starts[t].index);
  }

  lemma PublishEvolves(s: Sys, t: Tid)
    requires Inv(s) && Enabled(s, DoPublish(t))
    ensures AllEvolve(s.slots, AfterPublish(s, t).slots)
  {
    assert StartMatches(s, t);
    assert SlotMatches(s, s.starts[t].index);
  }

  lemma RecordEvolves(s: Sys)
    requires Inv(s) && s.reaper.Reaped?
    ensures AllEvolve(s.slots, AfterRecord(s).slots)
  {
    RecordHitsPublished(s, s.reaper.child.pid);
    var i := FirstByPid(s.slots, s.reaper.child.pid, 0);
    if i >= 0 {
      assert SlotMatches(s, i);
      assert Retires(s.slots[i], Retire(s.slots[i], s.reaper.status));
    }
  }

  lemma StepEvolves(s: Sys, l: Label)
    requires Inv(s) && Enabled(s, l) && !l.DoClaim?
    ensures AllEvolve(s.slots, Next(s, l).slots)
  {
    match l
    case DoUnclaim(t) => UnclaimEvolves(s, t);
    case DoPublish(t) => PublishEvolves(s, t);
    case DoRecord => RecordEvolves(s);
    case DoStop(_, _) => StopOnlyStops(s, l);
    case DoStopAll => StopOnlyStops(s, l);
    case Local(t, a) => LocalMoves(s, t, a);
    case RunCheck(_) =>
    case Spurious(_) =>
    case _ => QuietChangesNothing(s, l);
  }

  lemma {:induction false} InvHolds(states: seq<Sys>, labels: seq<Label>, k: nat)
    requires IsRun(states, labels) && k < |states|
    ensures Inv(states[k])
  {
    if k == 0 {
    } else {
      InvHolds(states, labels, k - 1);
      assert StepAt(states, labels, k - 1);
      StepKeepsInv(states[k - 1], labels[k - 1]);
    }
  }
}
