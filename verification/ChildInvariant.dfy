/** Which child belongs to which call and which slot, in every reachable state of the supervisor,
    whatever pids the kernel hands out. */
module ChildInvariant {
  import opened Containers
  import C = Containers
  import opened Lifecycle
  import SI = SlotInvariant

  ghost function Held(s: Sys): set<Child> {
    if s.reaper.Reaped? then {s.reaper.child} else {}
  }

  /** Every child ever cloned is unreaped, in the reaper's hands or looked up. */
  ghost predicate Partition(s: Sys) {
    && s.hist.cloned == s.children + Held(s) + s.hist.seen.Keys
    && s.children !! Held(s) !! s.hist.seen.Keys
  }

  /** Unreaped children have different pids. */
  ghost predicate PidsApart(children: set<Child>) {
    forall c, d :: c in children && d in children && c != d ==> c.pid != d.pid
  }

  ghost predicate OwnerMatches(s: Sys, c: Child)
    requires c in s.hist.owner
  {
    var i := s.hist.owner[c];
    && i in s.hist.published && i < |s.slots| && s.slots[i].pid == c.pid
    && c in s.hist.cloned && i in s.hist.tenant && s.hist.tenant[i] == c
  }

  ghost predicate TenantMatches(s: Sys, i: nat) {
    i in s.hist.tenant && s.hist.tenant[i] in s.hist.owner && s.hist.owner[s.hist.tenant[i]] == i
  }

  /** A recorded child was recorded in a slot that shows its pid. */
  ghost predicate LandedMatches(s: Sys, c: Child)
    requires c in s.hist.landed
  {
    var i := s.hist.landed[c];
    c in s.hist.seen && i in s.hist.published && i < |s.slots| && s.slots[i].pid == c.pid
  }

  ghost predicate HasChild(stage: Stage) {
    stage.AtParg? || stage.AtPublish? || SI.OnSlot(stage)
  }

  ghost predicate StartTells(s: Sys, t: Tid)
    requires t in s.starts
  {
    var c := s.starts[t];
    && (HasChild(c.stage) ==>
          c.stage.child in s.hist.cloned && c.stage.child in s.hist.cloner && s.hist.cloner[c.stage.child] == t)
    && (c.stage.AtParg? || c.stage.AtPublish? ==> c.stage.child !in s.hist.owner)
    && (SI.OnSlot(c.stage) ==> c.stage.child in s.hist.owner && s.hist.owner[c.stage.child] == c.index)
  }

  /** A signal read off a RUNNING slot goes to the pid of the child published there; one read
      off a STARTING slot goes to pid -1. */
  ghost predicate TermMatches(s: Sys, m: Term) {
    && Live(m.phase)
    && (m.phase == Starting ==> m.target == -1)
    && (m.phase == Running ==> m.index in s.hist.tenant && s.hist.tenant[m.index].pid == m.target > 0)
  }

  ghost predicate Inv(s: Sys) {
    && Partition(s) && PidsApart(s.children)
    && (forall c :: c in s.hist.owner ==> OwnerMatches(s, c))
    && s.hist.tenant.Keys <= s.hist.published && (forall i :: i in s.hist.published ==> TenantMatches(s, i))
    && (forall c :: c in s.hist.landed ==> LandedMatches(s, c))
    && (forall t :: t in s.starts ==> StartTells(s, t))
    && (forall t :: t in s.stops ==> TermMatches(s, s.stops[t]))
    && (forall m :: m in s.hist.terms ==> TermMatches(s, m))
  }

  // ---------------------------------------------------------------------------------------
  // Steps that leave the children alone

  /** The record of which slot was published for which child is as before. */
  ghost predicate SameOwners(s: Sys, s': Sys) {
    && s'.hist.owner == s.hist.owner && s'.hist.tenant == s.hist.tenant && s'.hist.published == s.hist.published
    && |s'.slots| == |s.slots|
    && (forall i :: i in s.hist.published && i < |s.slots| ==> s'.slots[i].pid == s.slots[i].pid)
  }

  ghost predicate SameChildren(s: Sys, s': Sys) {
    && SameOwners(s, s')
    && s'.children == s.children && s'.reaper == s.reaper
    && s'.hist.cloned == s.hist.cloned && s'.hist.cloner == s.hist.cloner
    && s'.hist.seen == s.hist.seen && s'.hist.landed == s.hist.landed
  }

  lemma SameChildrenKeepInv(s: Sys, s': Sys)
    requires Inv(s) && SameChildren(s, s')
    requires forall u :: u in s'.starts ==> StartTells(s', u)
    requires forall t :: t in s'.stops ==> TermMatches(s, s'.stops[t])
    requires forall m :: m in s'.hist.terms ==> TermMatches(s, m)
    ensures Inv(s')
  {
    forall c | c in s'.hist.landed
      ensures LandedMatches(s', c)
    {
      assert LandedMatches(s, c);
    }
  }

  /** Call `t` has no child yet, or none any more; only unpublished slots may change. */
  lemma ChildlessKeepsInv(s: Sys, s': Sys, t: Tid)
    requires Inv(s) && SameChildren(s, s') && s'.stops == s.stops && s'.hist.terms == s.hist.terms
    requires t in s'.starts && !HasChild(s'.starts[t].stage)
    requires forall u :: u in s'.starts && u != t ==> u in s.starts && s'.starts[u] == s.starts[u]
    ensures Inv(s')
  {
    forall u | u in s'.starts
      ensures StartTells(s', u)
    {
      if u != t {
        assert StartTells(s, u);
      }
    }
    SameChildrenKeepInv(s, s');
  }

  lemma ClaimKeepsInv(s: Sys, t: Tid, req: Request, run: bool, now: int)
    requires SI.Inv(s) && Inv(s) && t !in s.starts
    ensures Inv(AfterClaim(s, t, req, run, now))
  {
    var outcome := C.Claim(s.slots, req, now).0;
    if outcome.Claimed? {
      assert SI.SlotMatches(s, outcome.index);
      ChildlessKeepsInv(s, AfterClaim(s, t, req, run, now), t);
    }
  }

  lemma UnclaimKeepsInv(s: Sys, t: Tid)
    requires Inv(s) && Enabled(s, DoUnclaim(t))
    ensures Inv(AfterUnclaim(s, t))
  {
    ChildlessKeepsInv(s, AfterUnclaim(s, t), t);
  }

  /** A published call changes between awake, asleep and returned. */
  lemma RestageKeepsInv(s: Sys, t: Tid, stage: Stage)
    requires Inv(s) && t in s.starts && SI.OnSlot(s.starts[t].stage)
    requires SI.OnSlot(stage) && stage.child == s.starts[t].stage.child
    ensures Inv(Move(s, t, stage))
  {
    var s' := Move(s, t, stage);
    forall u | u in s'.starts
      ensures StartTells(s', u)
    {
      assert StartTells(s, u);
    }
    SameChildrenKeepInv(s, s');
  }

  lemma RunCheckKeepsInv(s: Sys, t: Tid)
    requires Inv(s) && Enabled(s, RunCheck(t))
    ensures Inv(AfterRunCheck(s, t))
  {
    RestageKeepsInv(s, t, AfterRunCheck(s, t).starts[t].stage);
  }

  lemma SpuriousKeepsInv(s: Sys, t: Tid)
    requires Inv(s) && Enabled(s, Spurious(t))
    ensures Inv(Next(s, Spurious(t)))
  {
    RestageKeepsInv(s, t, Up(s.starts[t].stage.child));
  }

  // ---------------------------------------------------------------------------------------
  // Clone

  /** `clone` returned `c`. */
  ghost predicate Clones(s: Sys, s': Sys, t: Tid, c: Child) {
    && SI.OneMoves(s, s', t) && CanClone(s, c)
    && s'.starts[t].stage.AtParg? && s'.starts[t].stage.child == c
    && s'.children == s.children + {c} && s'.hist.cloned == s.hist.cloned + {c} && s'.hist.cloner == s.hist.cloner[c := t]
    && s'.hist.seen == s.hist.seen && s'.hist.landed == s.hist.landed
    && s'.hist.owner == s.hist.owner && s'.hist.tenant == s.hist.tenant && s'.hist.terms == s.hist.terms
  }

  lemma CloneKeepsInv(s: Sys, s': Sys, t: Tid, c: Child)
    requires Inv(s) && Clones(s, s', t, c)
    ensures Inv(s')
  {
    forall u | u in s'.starts
      ensures StartTells(s', u)
    {
      assert StartTells(s, u);
    }
    forall d | d in s'.hist.landed
      ensures LandedMatches(s', d)
    {
      assert LandedMatches(s, d);
    }
  }

  lemma LocalClones(s: Sys, t: Tid, a: Action)
    requires Enabled(s, Local(t, a)) && a.GotChild?
    ensures Clones(s, AfterLocal(s, t, a), t, a.child)
  {
    SI.LocalMoves(s, t, a);
  }

  /** Steps of a pending call other than clone. */
  lemma QuietLocalKeepsInv(s: Sys, s': Sys, t: Tid)
    requires Inv(s) && SI.OneMoves(s, s', t) && SameChildren(s, s') && s'.hist.terms == s.hist.terms
    requires SI.Pending(s'.starts[t].stage)
    requires HasChild(s'.starts[t].stage) ==> s.starts[t].stage.AtParg? && s'.starts[t].stage.child == s.starts[t].stage.child
    ensures Inv(s')
  {
    forall u | u in s'.starts
      ensures StartTells(s', u)
    {
      assert StartTells(s, u);
    }
    SameChildrenKeepInv(s, s');
  }

  lemma LocalSameChildren(s: Sys, t: Tid, a: Action)
    requires Enabled(s, Local(t, a)) && !a.GotChild?
    ensures SameChildren(s, AfterLocal(s, t, a)) && AfterLocal(s, t, a).hist.terms == s.hist.terms
  {
  }

  lemma LocalKeepsInv(s: Sys, t: Tid, a: Action)
    requires Inv(s) && Enabled(s, Local(t, a))
    ensures Inv(AfterLocal(s, t, a))
  {
    if a.GotChild? {
      LocalClones(s, t, a);
      CloneKeepsInv(s, AfterLocal(s, t, a), t, a.child);
    } else {
      SI.LocalMoves(s, t, a);
      SI.ActionsStayPending(s.starts[t].stage, a);
      LocalSameChildren(s, t, a);
      QuietLocalKeepsInv(s, AfterLocal(s, t, a), t);
    }
  }

  // ---------------------------------------------------------------------------------------
  // Publication

  /** Child `c` is published in slot `i`. */
  ghost predicate Publishes(s: Sys, s': Sys, t: Tid, i: nat, c: Child) {
    && t in s.starts && i < |s.slots| && i !in s.hist.published
    && s.starts[t].stage.AtPublish? && s.starts[t].stage.child == c && s.starts[t].index == i
    && s'.children == s.children && s'.reaper == s.reaper && s'.stops == s.stops
    && s'.hist.cloned == s.hist.cloned && s'.hist.seen == s.hist.seen && s'.hist.landed == s.hist.landed
    && s'.hist.cloner == s.hist.cloner && s'.hist.terms == s.hist.terms
    && s'.hist.owner == s.hist.owner[c := i] && s'.hist.tenant == s.hist.tenant[i := c]
    && s'.hist.published == s.hist.published + {i}
    && |s'.slots| == |s.slots| && s'.slots[i].pid == c.pid && s'.slots[i].state == Running
    && (forall j :: 0 <= j < |s.slots| && j != i ==> s'.slots[j] == s.slots[j])
    && s'.starts.Keys == s.starts.Keys && s'.starts[t].index == i && s'.starts[t].stage == Up(c)
    && (forall u :: u in s.starts && u != t ==> s'.starts[u] == s.starts[u])
  }

  /** The slot of a signal read off a RUNNING slot is not the one being published. */
  lemma PublishKeepsTerm(s: Sys, s': Sys, t: Tid, i: nat, c: Child, m: Term)
    requires Inv(s) && Publishes(s, s', t, i, c) && TermMatches(s, m)
    requires m.phase == Running ==> m.index in s.hist.published
    ensures TermMatches(s', m)
  {
  }

  lemma PublishKeeps(s: Sys, s': Sys, t: Tid, i: nat, c: Child)
    requires Inv(s) && Publishes(s, s', t, i, c)
    ensures Inv(s')
  {
    assert StartTells(s, t);
    forall u | u in s'.starts
      ensures StartTells(s', u)
    {
      assert StartTells(s, u) && StartTells(s, t);
    }
    forall d | d in s'.hist.owner
      ensures OwnerMatches(s', d)
    {
      assert d != c ==> OwnerMatches(s, d);
    }
    forall j | j in s'.hist.published
      ensures TenantMatches(s', j)
    {
      assert j != i ==> TenantMatches(s, j);
    }
    forall d | d in s'.hist.landed
      ensures LandedMatches(s', d)
    {
      assert LandedMatches(s, d);
    }
    forall m | TermMatches(s, m)
      ensures TermMatches(s', m)
    {
      PublishKeepsTerm(s, s', t, i, c, m);
    }
  }

  lemma AfterPublishPublishes(s: Sys, t: Tid)
    requires Enabled(s, DoPublish(t)) && s.starts[t].index !in s.hist.published
    ensures Publishes(s, AfterPublish(s, t), t, s.starts[t].index, s.starts[t].stage.child)
  {
  }

  lemma PublishKeepsInv(s: Sys, t: Tid)
    requires SI.Inv(s) && Inv(s) && Enabled(s, DoPublish(t))
    ensures Inv(AfterPublish(s, t))
  {
    assert SI.StartMatches(s, t) && SI.SlotMatches(s, s.starts[t].index);
    AfterPublishPublishes(s, t);
    PublishKeeps(s, AfterPublish(s, t), t, s.starts[t].index, s.starts[t].stage.child);
  }

  // ---------------------------------------------------------------------------------------
  // Stops

  /** Only `stopRequested` of live slots and the record of signals changed. */
  ghost predicate StopsOnly(s: Sys, s': Sys) {
    && SI.OnlyStops(s.slots, s'.slots)
    && s'.starts == s.starts && s'.reaper == s.reaper && s'.children == s.children
    && s'.hist.(terms := {}) == s.hist.(terms := {})
  }

  lemma StopsKeepInv(s: Sys, s': Sys)
    requires Inv(s) && StopsOnly(s, s')
    requires forall t :: t in s'.stops ==> TermMatches(s, s'.stops[t])
    requires forall m :: m in s'.hist.terms ==> TermMatches(s, m)
    ensures Inv(s')
  {
    forall u | u in s'.starts
      ensures StartTells(s', u)
    {
      assert StartTells(s, u);
    }
    SameChildrenKeepInv(s, s');
  }

  /** The pid in a used live slot, as a signal target. */
  lemma LiveTerm(s: Sys, i: nat)
    requires SI.Inv(s) && Inv(s) && i < |s.slots| && s.slots[i].used && Live(s.slots[i].state)
    ensures TermMatches(s, Term(i, s.slots[i].pid, s.slots[i].state))
  {
    assert SI.SlotMatches(s, i);
    if i in s.hist.published {
      assert TenantMatches(s, i);
      assert OwnerMatches(s, s.hist.tenant[i]);
    }
  }

  lemma NewStopMatches(s: Sys, t: Tid, id: string, u: Tid)
    requires SI.Inv(s) && Inv(s) && u in AfterStop(s, t, id).stops
    ensures TermMatches(s, AfterStop(s, t, id).stops[u])
  {
    var outcome := C.RequestStop(s.slots, id).0;
    if outcome.Signal? {
      LiveTerm(s, outcome.index);
    }
  }

  lemma StopKeepsInv(s: Sys, t: Tid, id: string)
    requires SI.Inv(s) && Inv(s) && Enabled(s, DoStop(t, id))
    ensures Inv(AfterStop(s, t, id))
  {
    SI.StopOnlyStops(s, DoStop(t, id));
    forall u | u in AfterStop(s, t, id).stops
      ensures TermMatches(s, AfterStop(s, t, id).stops[u])
    {
      NewStopMatches(s, t, id, u);
    }
    StopsKeepInv(s, AfterStop(s, t, id));
  }

  lemma StopAllKeepsInv(s: Sys)
    requires SI.Inv(s) && Inv(s) && Enabled(s, DoStopAll)
    ensures Inv(Next(s, DoStopAll))
  {
    SI.StopOnlyStops(s, DoStopAll);
    forall m | m in TermsToLive(s.slots)
      ensures TermMatches(s, m)
    {
      LiveTerm(s, m.index);
    }
    StopsKeepInv(s, Next(s, DoStopAll));
  }

  lemma KillKeepsInv(s: Sys, t: Tid)
    requires Inv(s) && Enabled(s, DoKill(t))
    ensures Inv(Next(s, DoKill(t)))
  {
    StopsKeepInv(s, Next(s, DoKill(t)));
  }

  // ---------------------------------------------------------------------------------------
  // The reaper

  /** A used slot shows pid `p` exactly if it was published for a child with that pid. */
  lemma ShownPids(s: Sys, j: nat, p: int)
    requires SI.Inv(s) && Inv(s) && p > 0 && j < |s.slots|
    ensures s.slots[j].used && s.slots[j].pid == p <==> j in s.hist.tenant && s.hist.tenant[j].pid == p
  {
    assert SI.SlotMatches(s, j);
    if j in s.hist.published {
      assert TenantMatches(s, j);
      assert OwnerMatches(s, s.hist.tenant[j]);
    }
  }

  /** The reaper's child has been looked up; the record went to slot `i`, or nowhere if -1. */
  ghost predicate LooksUp(s: Sys, s': Sys, i: int) {
    && s.reaper.Reaped? && s'.reaper == Waiting && s'.children == s.children && s'.stops == s.stops
    && s'.starts == (if i < 0 then s.starts else WakeAll(s.starts, i))
    && s'.hist == s.hist.(seen := s.hist.seen[s.reaper.child := s.reaper.status],
                          landed := if i < 0 then s.hist.landed else s.hist.landed[s.reaper.child := i])
    && |s'.slots| == |s.slots|
    && (forall j :: 0 <= j < |s.slots| ==> s'.slots[j] == if j == i then Retire(s.slots[j], s.reaper.status) else s.slots[j])
  }

  lemma RecordLooksUp(s: Sys)
    requires s.reaper.Reaped?
    ensures LooksUp(s, AfterRecord(s), FirstByPid(s.slots, s.reaper.child.pid, 0))
  {
  }

  lemma LookUpPartition(s: Sys, s': Sys, i: int)
    requires Partition(s) && LooksUp(s, s', i)
    ensures Partition(s')
  {
  }

  lemma LookUpKeepsInv(s: Sys, s': Sys, i: int)
    requires Inv(s) && LooksUp(s, s', i)
    requires i >= 0 ==> i in s.hist.published && i < |s.slots| && s.slots[i].pid == s.reaper.child.pid
    ensures Inv(s')
  {
    LookUpPartition(s, s', i);
    forall c | c in s'.hist.landed
      ensures LandedMatches(s', c)
    {
      assert c in s.hist.landed ==> LandedMatches(s, c);
    }
    forall u | u in s'.starts
      ensures StartTells(s', u)
    {
      assert StartTells(s, u);
    }
  }

  lemma RecordKeepsInv(s: Sys)
    requires SI.Inv(s) && Inv(s) && s.reaper.Reaped?
    ensures Inv(AfterRecord(s))
  {
    RecordLooksUp(s);
    SI.RecordHitsPublished(s, s.reaper.child.pid);
    LookUpKeepsInv(s, AfterRecord(s), FirstByPid(s.slots, s.reaper.child.pid, 0));
  }

  /** Steps that change neither the table nor a start call, among them `waitpid`. */
  lemma QuietKeepsInv(s: Sys, l: Label)
    requires Inv(s) && Enabled(s, l) && SI.IsQuiet(l) && !l.DoKill?
    ensures Inv(Next(s, l))
  {
    var s' := Next(s, l);
    SI.QuietChangesNothing(s, l);
    forall c | c in s'.hist.landed
      ensures LandedMatches(s', c)
    {
      assert LandedMatches(s, c);
    }
    forall u | u in s'.starts
      ensures StartTells(s', u)
    {
      assert StartTells(s, u);
    }
  }

  lemma StepKeepsInv(s: Sys, l: Label)
    requires SI.Inv(s) && Inv(s) && Enabled(s, l)
    ensures Inv(Next(s, l))
  {
    match l
    case DoClaim(t, req, run, now) => ClaimKeepsInv(s, t, req, run, now);
    case Local(t, a) => LocalKeepsInv(s, t, a);
    case DoUnclaim(t) => UnclaimKeepsInv(s, t);
    case DoPublish(t) => PublishKeepsInv(s, t);
    case RunCheck(t) => RunCheckKeepsInv(s, t);
    case Spurious(t) => SpuriousKeepsInv(s, t);
    case DoStop(t, id) => StopKeepsInv(s, t, id);
    case DoKill(t) => KillKeepsInv(s, t);
    case DoStopAll => StopAllKeepsInv(s);
    case DoRecord => RecordKeepsInv(s);
    case _ => QuietKeepsInv(s, l);
  }

  lemma {:induction false} InvHolds(states: seq<Sys>, labels: seq<Label>, k: nat)
    requires IsRun(states, labels) && k < |states|
    ensures Inv(states[k])
  {
    if k > 0 {
      InvHolds(states, labels, k - 1);
      SI.InvHolds(states, labels, k - 1);
      assert StepAt(states, labels, k - 1);
      StepKeepsInv(states[k - 1], labels[k - 1]);
    }
  }
}
