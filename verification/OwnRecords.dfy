/** What the slots that show pid `p` tell about their own children, in every run in which no lookup
    of that pid was shadowed.  Records of other pids never reach these slots. */
module OwnRecords {
  import opened Containers
  import C = Containers
  import opened Lifecycle
  import SI = SlotInvariant
  import CI = ChildInvariant
  import opened Records

  /** A record is in the slot its child was published in. */
  ghost predicate IsHome(s: Sys, c: Child)
    requires c in s.hist.landed
  {
    c in s.hist.owner && s.hist.landed[c] == s.hist.owner[c]
  }

  /** A published slot is terminal exactly when its own child was recorded, and then it shows
      how that child ended. */
  ghost predicate SlotTells(s: Sys, i: nat)
    requires i < |s.slots| && i in s.hist.tenant
  {
    var slot, c := s.slots[i], s.hist.tenant[i];
    && (Terminal(slot.state) <==> c in s.hist.landed)
    && (c in s.hist.landed && c in s.hist.seen ==> (slot.state, slot.exitCode) == Classify(slot.stopRequested, s.hist.seen[c]))
  }

  /** What a finished `run` call returned is still what its slot shows. */
  ghost predicate ReturnTells(s: Sys, t: Tid, p: int)
    requires t in s.starts
  {
    var c := s.starts[t];
    c.stage.Returned? && c.stage.child.pid == p && c.index < |s.slots| ==>
      Terminal(c.stage.state) && s.slots[c.index].state == c.stage.state && s.slots[c.index].exitCode == c.stage.code
  }

  ghost predicate Inv(s: Sys, p: int) {
    && (forall c :: c in s.hist.landed && c.pid == p ==> IsHome(s, c))
    && (forall i :: i in s.hist.tenant && i < |s.slots| && s.hist.tenant[i].pid == p ==> SlotTells(s, i))
    && (forall t :: t in s.starts ==> ReturnTells(s, t, p))
  }

  // ---------------------------------------------------------------------------------------
  // Steps that neither publish nor record

  /** State and exit code stay, and all of a finished slot does. */
  ghost predicate StaysPut(a: Slot, b: Slot) {
    b.state == a.state && b.exitCode == a.exitCode && (Terminal(a.state) ==> b == a)
  }

  ghost predicate AllStayPut(s: Sys, s': Sys) {
    && s'.hist.seen == s.hist.seen && s'.hist.landed == s.hist.landed
    && s'.hist.owner == s.hist.owner && s'.hist.tenant == s.hist.tenant && |s'.slots| == |s.slots|
    && (forall i :: i in s.hist.published && i < |s.slots| ==> StaysPut(s.slots[i], s'.slots[i]))
  }

  lemma ClaimStaysPut(s: Sys, t: Tid, req: Request, run: bool, now: int)
    requires SI.Inv(s) && t !in s.starts
    ensures AllStayPut(s, AfterClaim(s, t, req, run, now))
  {
    var outcome := C.Claim(s.slots, req, now).0;
    if outcome.Claimed? {
      assert SI.SlotMatches(s, outcome.index);
    }
  }

  lemma UnclaimStaysPut(s: Sys, t: Tid)
    requires SI.Inv(s) && Enabled(s, DoUnclaim(t))
    ensures AllStayPut(s, AfterUnclaim(s, t))
  {
    assert SI.StartMatches(s, t) && SI.SlotMatches(s, s.starts[t].index);
  }

  lemma StopStaysPut(s: Sys, l: Label)
    requires Enabled(s, l) && (l.DoStop? || l.DoStopAll?)
    ensures AllStayPut(s, Next(s, l))
  {
    SI.StopOnlyStops(s, l);
  }

  lemma LocalStaysPut(s: Sys, t: Tid, a: Action)
    requires Enabled(s, Local(t, a))
    ensures AllStayPut(s, AfterLocal(s, t, a))
  {
    SI.LocalMoves(s, t, a);
  }

  lemma QuietStaysPut(s: Sys, l: Label)
    requires Enabled(s, l) && (SI.IsQuiet(l) || l.RunCheck? || l.Spurious?)
    ensures AllStayPut(s, Next(s, l))
  {
    if SI.IsQuiet(l) {
      SI.QuietChangesNothing(s, l);
    }
  }

  lemma StepStaysPut(s: Sys, l: Label)
    requires SI.Inv(s) && Enabled(s, l) && l != DoRecord && !l.DoPublish?
    ensures AllStayPut(s, Next(s, l))
  {
    match l
    case DoClaim(t, req, run, now) => ClaimStaysPut(s, t, req, run, now);
    case DoUnclaim(t) => UnclaimStaysPut(s, t);
    case DoStop(_, _) => StopStaysPut(s, l);
    case DoStopAll => StopStaysPut(s, l);
    case Local(t, a) => LocalStaysPut(s, t, a);
    case _ => QuietStaysPut(s, l);
  }

  /** A call either is as it was, or does not return now, or returns what its finished slot shows. */
  ghost predicate CallStays(s: Sys, s': Sys, t: Tid)
    requires t in s'.starts
  {
    || (t in s.starts && s'.starts[t] == s.starts[t])
    || !s'.starts[t].stage.Returned?
    || ReturnTells(s', t, s'.starts[t].stage.child.pid)
  }

  lemma StillKeepsInv(s: Sys, s': Sys, p: int)
    requires SI.Inv(s) && CI.Inv(s) && Inv(s, p) && AllStayPut(s, s')
    requires forall t :: t in s'.starts ==> CallStays(s, s', t)
    ensures Inv(s', p)
  {
    forall c | c in s'.hist.landed && c.pid == p
      ensures IsHome(s', c)
    {
      assert IsHome(s, c);
    }
    forall i | i in s'.hist.tenant && i < |s'.slots| && s'.hist.tenant[i].pid == p
      ensures SlotTells(s', i)
    {
      assert StaysPut(s.slots[i], s'.slots[i]) && SlotTells(s, i);
    }
    forall t | t in s'.starts
      ensures ReturnTells(s', t, p)
    {
      assert CallStays(s, s', t) && (t in s.starts ==> ReturnTells(s, t, p) && SI.StartMatches(s, t));
    }
  }

  lemma RunCheckStays(s: Sys, t: Tid, u: Tid)
    requires SI.Inv(s) && Enabled(s, RunCheck(t)) && u in AfterRunCheck(s, t).starts
    ensures CallStays(s, AfterRunCheck(s, t), u)
  {
    assert SI.StartMatches(s, t) && SI.SlotMatches(s, s.starts[t].index);
  }

  lemma CallsStay(s: Sys, l: Label, u: Tid)
    requires SI.Inv(s) && Enabled(s, l) && l != DoRecord && !l.DoPublish? && u in Next(s, l).starts
    ensures CallStays(s, Next(s, l), u)
  {
    match l
    case DoClaim(_, _, _, _) =>
    case DoUnclaim(_) =>
    case DoStop(_, _) => SI.StopOnlyStops(s, l);
    case DoStopAll => SI.StopOnlyStops(s, l);
    case Local(t, a) =>
      SI.LocalMoves(s, t, a);
      SI.ActionsStayPending(s.starts[t].stage, a);
    case RunCheck(t) => RunCheckStays(s, t, u);
    case Spurious(_) =>
    case _ => SI.QuietChangesNothing(s, l);
  }

  // ---------------------------------------------------------------------------------------
  // Publication and record

  lemma PublishKeepsSlot(s: Sys, s': Sys, t: Tid, i: nat, c: Child, j: nat, p: int)
    requires CI.Inv(s) && Inv(s, p) && CI.Publishes(s, s', t, i, c) && j in s'.hist.tenant && j < |s'.slots| && s'.hist.tenant[j].pid == p
    ensures SlotTells(s', j)
  {
    assert CI.StartTells(s, t);
    if j == i {
      assert c !in s.hist.landed;
    } else {
      assert SlotTells(s, j);
    }
  }

  lemma PublishKeepsReturn(s: Sys, s': Sys, t: Tid, i: nat, c: Child, u: Tid, p: int)
    requires SI.Inv(s) && Inv(s, p) && CI.Publishes(s, s', t, i, c) && u in s'.starts
    ensures ReturnTells(s', u, p)
  {
    if u != t {
      assert ReturnTells(s, u, p) && SI.StartMatches(s, u);
    }
  }

  lemma PublishKeeps(s: Sys, s': Sys, t: Tid, i: nat, c: Child, p: int)
    requires SI.Inv(s) && CI.Inv(s) && Inv(s, p) && CI.Publishes(s, s', t, i, c)
    ensures Inv(s', p)
  {
    forall d | d in s'.hist.landed && d.pid == p
      ensures IsHome(s', d)
    {
      assert IsHome(s, d);
      assert CI.StartTells(s, t);
    }
    forall j | j in s'.hist.tenant && j < |s'.slots| && s'.hist.tenant[j].pid == p
      ensures SlotTells(s', j)
    {
      PublishKeepsSlot(s, s', t, i, c, j, p);
    }
    forall u | u in s'.starts
      ensures ReturnTells(s', u, p)
    {
      PublishKeepsReturn(s, s', t, i, c, u, p);
    }
  }

  lemma PublishKeepsInv(s: Sys, t: Tid, p: int)
    requires SI.Inv(s) && CI.Inv(s) && Inv(s, p) && Enabled(s, DoPublish(t))
    ensures Inv(AfterPublish(s, t), p)
  {
    assert SI.StartMatches(s, t) && SI.SlotMatches(s, s.starts[t].index);
    CI.AfterPublishPublishes(s, t);
    PublishKeeps(s, AfterPublish(s, t), t, s.starts[t].index, s.starts[t].stage.child, p);
  }

  /** The record goes home. */
  ghost predicate GoesHome(s: Sys, s': Sys) {
    s.reaper.Reaped? && CI.LooksUp(s, s', Home(s, s.reaper.child))
  }

  lemma RecordKeepsSlot(s: Sys, s': Sys, j: nat, p: int)
    requires CI.Inv(s) && Inv(s, p) && GoesHome(s, s') && j in s'.hist.tenant && j < |s'.slots| && s'.hist.tenant[j].pid == p
    ensures SlotTells(s', j)
  {
    assert SlotTells(s, j);
    assert CI.TenantMatches(s, j);
  }

  /** Nobody has returned from the slot that is being recorded: it was RUNNING. */
  lemma RecordKeepsReturn(s: Sys, s': Sys, u: Tid, p: int)
    requires SI.Inv(s) && CI.Inv(s) && Inv(s, p) && GoesHome(s, s') && s.reaper.child.pid == p && u in s'.starts
    ensures ReturnTells(s', u, p)
  {
    var c := s.reaper.child;
    assert ReturnTells(s, u, p) && SI.StartMatches(s, u);
    NotYetLanded(s);
    if c in s.hist.owner {
      assert CI.OwnerMatches(s, c);
      assert SlotTells(s, s.hist.owner[c]);
    }
  }

  lemma RecordKeeps(s: Sys, s': Sys, p: int)
    requires SI.Inv(s) && CI.Inv(s) && Inv(s, p) && GoesHome(s, s') && s.reaper.child.pid == p
    ensures Inv(s', p)
  {
    forall d | d in s'.hist.landed && d.pid == p
      ensures IsHome(s', d)
    {
      assert d != s.reaper.child ==> IsHome(s, d);
    }
    forall j | j in s'.hist.tenant && j < |s'.slots| && s'.hist.tenant[j].pid == p
      ensures SlotTells(s', j)
    {
      RecordKeepsSlot(s, s', j, p);
    }
    forall u | u in s'.starts
      ensures ReturnTells(s', u, p)
    {
      RecordKeepsReturn(s, s', u, p);
    }
  }

  /** The record goes to a slot that shows another pid, or to none. */
  ghost predicate GoesElsewhere(s: Sys, s': Sys, i: int, p: int) {
    && s.reaper.Reaped? && s.reaper.child.pid != p && CI.LooksUp(s, s', i)
    && (i >= 0 ==> i < |s.slots| && s.slots[i].pid != p)
  }

  lemma ElsewhereKeepsSlot(s: Sys, s': Sys, i: int, j: nat, p: int)
    requires CI.Inv(s) && Inv(s, p) && GoesElsewhere(s, s', i, p) && j in s'.hist.tenant && j < |s'.slots| && s'.hist.tenant[j].pid == p
    ensures SlotTells(s', j)
  {
    assert SlotTells(s, j) && CI.TenantMatches(s, j);
    assert CI.OwnerMatches(s, s.hist.tenant[j]);
  }

  lemma ElsewhereKeeps(s: Sys, s': Sys, i: int, p: int)
    requires SI.Inv(s) && CI.Inv(s) && Inv(s, p) && GoesElsewhere(s, s', i, p)
    ensures Inv(s', p)
  {
    forall d | d in s'.hist.landed && d.pid == p
      ensures IsHome(s', d)
    {
      assert IsHome(s, d);
    }
    forall j | j in s'.hist.tenant && j < |s'.slots| && s'.hist.tenant[j].pid == p
      ensures SlotTells(s', j)
    {
      ElsewhereKeepsSlot(s, s', i, j, p);
    }
    forall u | u in s'.starts
      ensures ReturnTells(s', u, p)
    {
      assert ReturnTells(s, u, p) && SI.StartMatches(s, u);
    }
  }

  lemma RecordKeepsInv(s: Sys, p: int)
    requires SI.Inv(s) && CI.Inv(s) && Inv(s, p) && s.reaper.Reaped?
    requires s.reaper.child.pid == p ==> !Shadowed(s, s.reaper.child)
    ensures Inv(AfterRecord(s), p)
  {
    CI.RecordLooksUp(s);
    if s.reaper.child.pid == p {
      MatchExactly(s, s.reaper.child);
      RecordKeeps(s, AfterRecord(s), p);
    } else {
      ElsewhereKeeps(s, AfterRecord(s), FirstByPid(s.slots, s.reaper.child.pid, 0), p);
    }
  }

  lemma OtherKeepsInv(s: Sys, l: Label, p: int)
    requires SI.Inv(s) && CI.Inv(s) && Inv(s, p) && Enabled(s, l) && l != DoRecord && !l.DoPublish?
    ensures Inv(Next(s, l), p)
  {
    StepStaysPut(s, l);
    forall u | u in Next(s, l).starts
      ensures CallStays(s, Next(s, l), u)
    {
      CallsStay(s, l, u);
    }
    StillKeepsInv(s, Next(s, l), p);
  }

  lemma StepKeepsInv(s: Sys, l: Label, p: int)
    requires SI.Inv(s) && CI.Inv(s) && Inv(s, p) && Enabled(s, l)
    requires l == DoRecord && s.reaper.child.pid == p ==> !Shadowed(s, s.reaper.child)
    ensures Inv(Next(s, l), p)
  {
    match l
    case DoRecord => RecordKeepsInv(s, p);
    case DoPublish(t) => PublishKeepsInv(s, t, p);
    case _ => OtherKeepsInv(s, l, p);
  }

  /** Holds in every state of a run up to which no lookup of `p` was shadowed. */
  lemma {:induction false} InvHolds(states: seq<Sys>, labels: seq<Label>, k: nat, p: int)
    requires IsRun(states, labels) && k < |states| && Clean(states, labels, k, p)
    ensures Inv(states[k], p)
  {
    if k > 0 {
      InvHolds(states, labels, k - 1, p);
      Background(states, labels, k - 1);
      InvForOneStep(states, labels, k, p);
    }
  }

  lemma LastIsUnshadowed(states: seq<Sys>, labels: seq<Label>, k: nat, p: int)
    requires IsRun(states, labels) && 0 < k < |states| && Clean(states, labels, k, p)
    ensures Enabled(states[k - 1], labels[k - 1]) && states[k] == Next(states[k - 1], labels[k - 1])
    ensures labels[k - 1] == DoRecord && states[k - 1].reaper.child.pid == p ==> !Shadowed(states[k - 1], states[k - 1].reaper.child)
  {
    assert StepAt(states, labels, k - 1) && !ShadowedAt(states, labels, p, k - 1);
  }

  lemma Background(states: seq<Sys>, labels: seq<Label>, k: nat)
    requires IsRun(states, labels) && k < |states|
    ensures SI.Inv(states[k]) && CI.Inv(states[k])
  {
    SI.InvHolds(states, labels, k);
    CI.InvHolds(states, labels, k);
  }

  lemma InvForOneStep(states: seq<Sys>, labels: seq<Label>, k: nat, p: int)
    requires IsRun(states, labels) && 0 < k < |states| && Clean(states, labels, k, p)
    requires SI.Inv(states[k - 1]) && CI.Inv(states[k - 1]) && Inv(states[k - 1], p)
    ensures Inv(states[k], p)
  {
    LastIsUnshadowed(states, labels, k, p);
    assert StepAt(states, labels, k - 1);
    StepKeepsInv(states[k - 1], labels[k - 1], p);
  }
}
