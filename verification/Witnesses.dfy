/** Concrete runs of the supervisor: what happens where the hypotheses of `Reaping` fail, and that
    reuse of pids alone does no harm. */
module Witnesses {
  import opened Containers
  import C = Containers
  import opened Lifecycle
  import opened Records
  import opened Order
  import Reaping
  import SI = SlotInvariant
  import CI = ChildInvariant

  // ---------------------------------------------------------------------------------------
  // Building runs

  ghost predicate EndsIn(states: seq<Sys>, labels: seq<Label>, s: Sys) {
    IsRun(states, labels) && states[|labels|] == s
  }

  /** Some run that takes all the steps `via` ends in `s`. */
  ghost predicate Reachable(s: Sys, via: set<Label>) {
    exists states, labels :: EndsIn(states, labels, s) && Takes(labels, via)
  }

  ghost predicate Takes(labels: seq<Label>, via: set<Label>) {
    forall l :: l in via ==> l in labels
  }

  lemma InitIsReachable()
    ensures Reachable(INIT, {})
  {
    assert EndsIn([INIT], [], INIT) && Takes([], {});
  }

  lemma Extend(states: seq<Sys>, labels: seq<Label>, s: Sys, l: Label)
    requires EndsIn(states, labels, s) && Enabled(s, l)
    ensures EndsIn(states + [Next(s, l)], labels + [l], Next(s, l))
  {
    var states', labels' := states + [Next(s, l)], labels + [l];
    forall k | 0 <= k < |labels'|
      ensures StepAt(states', labels', k)
    {
      if k < |labels| {
        assert StepAt(states, labels, k);
      }
    }
  }

  lemma Step(s: Sys, l: Label, via: set<Label> := {}) returns (s': Sys)
    requires Reachable(s, via) && Enabled(s, l)
    ensures s' == Next(s, l) && Reachable(s', via)
  {
    s' := StepVia(s, l, via, {});
  }

  lemma StepVia(s: Sys, l: Label, via: set<Label>, more: set<Label>) returns (s': Sys)
    requires Reachable(s, via) && Enabled(s, l) && more <= {l}
    ensures s' == Next(s, l) && Reachable(s', via + more)
  {
    var states, labels :| EndsIn(states, labels, s) && Takes(labels, via);
    s' := Next(s, l);
    Extend(states, labels, s, l);
    assert Takes(labels + [l], via + more);
  }

  /** What the witnesses look at. */
  datatype Scene = Scene(
    slots: seq<Slot>, children: set<Child>, reaper: Reaper, stops: map<Tid, Term>,
    cloned: set<Child>, tenant: map<nat, Child>, seen: map<Child, Status>, landed: map<Child, nat>,
    via: set<Label>)  // steps surely taken on the way

  ghost function View(s: Sys): Scene {
    Scene(s.slots, s.children, s.reaper, s.stops, s.hist.cloned, s.hist.tenant, s.hist.seen, s.hist.landed, {})
  }

  /** The scene is reached; calls from `calls` on and resources from `top` on are new. */
  ghost predicate Rests(s: Sys, v: Scene, calls: Tid, top: Resource) {
    && Reachable(s, v.via) && View(s) == v.(via := {}) && |s.slots| == MAX_CONTAINERS
    && (forall t :: t in s.starts ==> t < calls)
    && (forall r :: r in s.ledger.holder ==> r < top)
  }

  /** Call `t` has reached `stage` on slot `i`. */
  ghost predicate At(s: Sys, t: Tid, i: nat, stage: Stage) {
    t in s.starts && s.starts[t].run && s.starts[t].stage == stage && s.starts[t].index == i < MAX_CONTAINERS
  }

  /** The calls before `t` are where they were. */
  ghost predicate OthersStay(s: Sys, s': Sys, t: Tid) {
    s'.quitting == s.quitting && forall u :: u in s.starts && u < t ==> u in s'.starts && s'.starts[u] == s.starts[u]
  }

  /** A system call or allocation other than `clone` succeeds or fails. */
  lemma Goes(s: Sys, v: Scene, t: Tid, i: nat, g: Stage, calls: Tid, top: Resource, a: Action, top': Resource) returns (s': Sys)
    requires Rests(s, v, calls, top) && At(s, t, i, g) && ActionFits(g, a) && !a.GotChild?
    requires forall r :: r in Dropped(g, a) ==> r < top
    requires 0 < top <= top' && Distinct(Acquired(a)) && forall r :: r in Acquired(a) ==> top <= r < top'
    ensures Rests(s', v, calls, top') && At(s', t, i, StageAfter(g, a)) && OthersStay(s, s', t)
  {
    s' := Step(s, Local(t, a), v.via);
    SI.LocalMoves(s, t, a);
  }

  lemma Claims(s: Sys, v: Scene, t: Tid, top: Resource, req: Request, i: nat) returns (s': Sys)
    requires Rests(s, v, t, top) && Fits(req) && C.Claim(s.slots, req, 0).0 == Claimed(i)
    ensures Rests(s', v.(slots := v.slots[i := NewSlot(req, 0)]), t + 1, top) && At(s', t, i, AtPipe) && OthersStay(s, s', t)
  {
    s' := Step(s, DoClaim(t, req, true, 0), v.via);
  }

  lemma GetsReady(s: Sys, v: Scene, t: Tid, i: nat, calls: Tid, top: Resource) returns (s': Sys)
    requires Rests(s, v, calls, top) && At(s, t, i, AtPipe) && 0 < top
    ensures Rests(s', v, calls, top + 4) && At(s', t, i, AtClone(top, top + 1, top + 2, top + 3)) && OthersStay(s, s', t)
  {
    s' := Goes(s, v, t, i, AtPipe, calls, top, GotPipe(top, top + 1), top + 2);
    s' := Goes(s', v, t, i, AtStack(top, top + 1), calls, top + 2, GotStack(top + 2), top + 3);
    s' := Goes(s', v, t, i, AtArg(top, top + 1, top + 2), calls, top + 3, GotArg(top + 3), top + 4);
  }

  lemma CloneMoves(s: Sys, t: Tid, c: Child)
    requires Enabled(s, Local(t, GotChild(c)))
    ensures var s' := AfterLocal(s, t, GotChild(c));
            && View(s') == View(s).(children := s.children + {c}, cloned := s.hist.cloned + {c})
            && SI.OneMoves(s, s', t) && s'.quitting == s.quitting
  {
    SI.LocalMoves(s, t, GotChild(c));
  }

  lemma CloneStaysBelow(s: Sys, t: Tid, c: Child, top: Resource)
    requires Enabled(s, Local(t, GotChild(c))) && s.starts[t].stage.arg < top && s.starts[t].stage.writeEnd < top
    requires forall r :: r in s.ledger.holder ==> r < top
    ensures forall r :: r in AfterLocal(s, t, GotChild(c)).ledger.holder ==> r < top
  {
  }

  lemma Clones(s: Sys, v: Scene, t: Tid, i: nat, g: Stage, calls: Tid, top: Resource, c: Child) returns (s': Sys)
    requires Rests(s, v, calls, top) && At(s, t, i, g) && g.AtClone? && CanClone(s, c) && g.arg < top && g.writeEnd < top
    ensures Rests(s', v.(children := v.children + {c}, cloned := v.cloned + {c}), calls, top)
    ensures At(s', t, i, AtParg(g.readEnd, g.stack, c)) && OthersStay(s, s', t)
  {
    s' := Step(s, Local(t, GotChild(c)), v.via);
    SI.LocalMoves(s, t, GotChild(c));
    CloneMoves(s, t, c);
    CloneStaysBelow(s, t, c, top);
  }

  lemma Publishes(s: Sys, v: Scene, t: Tid, i: nat, g: Stage, calls: Tid, top: Resource) returns (s': Sys)
    requires Rests(s, v, calls, top) && At(s, t, i, g) && g.AtPublish? && g.readEnd < top && g.stack < top && g.parg < top
    ensures Rests(s', v.(slots := C.Publish(v.slots, i, g.child.pid, g.stack), tenant := v.tenant[i := g.child]), calls, top)
    ensures OthersStay(s, s', t) && At(s', t, i, Up(g.child))
  {
    s' := Step(s, DoPublish(t), v.via);
  }

  lemma Finishes(s: Sys, v: Scene, t: Tid, i: nat, g: Stage, calls: Tid, top: Resource) returns (s': Sys)
    requires Rests(s, v, calls, top) && At(s, t, i, g) && g.AtParg? && 0 < top && g.readEnd < top && g.stack < top
    ensures Rests(s', v.(slots := C.Publish(v.slots, i, g.child.pid, g.stack), tenant := v.tenant[i := g.child]), calls, top + 1)
    ensures OthersStay(s, s', t) && At(s', t, i, Up(g.child))
  {
    var m := Goes(s, v, t, i, g, calls, top, GotParg(top), top + 1);
    s' := Publishes(m, v, t, i, AtPublish(g.readEnd, g.stack, top, g.child), calls, top + 1);
  }

  lemma WaitsFor(s: Sys, v: Scene, calls: Tid, top: Resource, c: Child, status: Status) returns (s': Sys)
    requires Rests(s, v, calls, top) && v.reaper == Waiting && c in v.children && Possible(status)
    ensures Rests(s', v.(children := v.children - {c}, reaper := Reaped(c, status)), calls, top)
    ensures s'.starts == s.starts && s'.quitting == s.quitting
  {
    s' := Step(s, Reap(c, status), v.via);
  }

  lemma LookupView(s: Sys, i: int)
    requires s.reaper.Reaped? && FirstByPid(s.slots, s.reaper.child.pid, 0) == i
    ensures var v, s' := View(s), AfterRecord(s);
            && View(s') == v.(reaper := Waiting, slots := C.Record(v.slots, v.reaper.child.pid, v.reaper.status),
                              seen := v.seen[v.reaper.child := v.reaper.status],
                              landed := if i < 0 then v.landed else v.landed[v.reaper.child := i])
            && s'.quitting == s.quitting && s'.starts == (if i < 0 then s.starts else WakeAll(s.starts, i))
  {
  }

  lemma LooksUp(s: Sys, v: Scene, calls: Tid, top: Resource, i: int) returns (s': Sys)
    requires Rests(s, v, calls, top) && v.reaper.Reaped? && FirstByPid(s.slots, v.reaper.child.pid, 0) == i
    requires forall j :: 0 <= j < |s.slots| ==> s.slots[j].stack < top
    ensures Rests(s', v.(reaper := Waiting, slots := C.Record(v.slots, v.reaper.child.pid, v.reaper.status),
                         seen := v.seen[v.reaper.child := v.reaper.status],
                         landed := if i < 0 then v.landed else v.landed[v.reaper.child := i]), calls, top)
    ensures i < 0 ==> s'.starts == s.starts
    ensures s'.quitting == s.quitting
  {
    s' := Step(s, DoRecord, v.via);
    LookupView(s, i);
  }

  /** A whole start, from claim to publication. */
  lemma Starts(s: Sys, v: Scene, t: Tid, top: Resource, req: Request, i: nat, c: Child) returns (s': Sys)
    requires Rests(s, v, t, top) && 0 < top && Fits(req) && C.Claim(s.slots, req, 0).0 == Claimed(i) && CanClone(s, c)
    ensures Rests(s', v.(slots := v.slots[i := NewSlot(req, 0).(pid := c.pid, stack := top + 2, state := Running)],
                         children := v.children + {c}, cloned := v.cloned + {c}, tenant := v.tenant[i := c]), t + 1, top + 5)
    ensures OthersStay(s, s', t) && At(s', t, i, Up(c))
  {
    var m := Claims(s, v, t, top, req, i);
    var v1 := v.(slots := v.slots[i := NewSlot(req, 0)]);
    m := GetsReady(m, v1, t, i, t + 1, top);
    m := Clones(m, v1, t, i, AtClone(top, top + 1, top + 2, top + 3), t + 1, top + 4, c);
    var v2 := v1.(children := v.children + {c}, cloned := v.cloned + {c});
    s' := Finishes(m, v2, t, i, AtParg(top, top + 2, c), t + 1, top + 4);
  }

  // ---------------------------------------------------------------------------------------
  // The cast

  const A: Request := Request("a", "/a", "sh", 40, 64, 0)
  const B: Request := Request("b", "/b", "sh", 40, 64, 0)
  const X: Request := Request("x", "/x", "sh", 40, 64, 0)

  /** Two processes that the kernel gives the same pid. */
  const OLD: Child := Child(0, 7)
  const NEW: Child := Child(1, 7)

  ghost const START: Scene := View(INIT)

  /** A container as it is when published. */
  ghost function Published(req: Request, stack: nat): Slot {
    NewSlot(req, 0).(pid := 7, stack := stack, state := Running)
  }

  lemma FirstClaim(req: Request)
    ensures C.Claim(NoContainers(), req, 0).0 == Claimed(0)
  {
  }

  /** With one other container in slot `j`, a new one gets the first of the other slots. */
  lemma NextClaim(slots: seq<Slot>, j: nat, req: Request)
    requires |slots| == MAX_CONTAINERS && j < 2 && slots[j].used && slots[j].id != req.id && slots[j].rootfs != req.rootfs
    requires forall i :: 0 <= i < MAX_CONTAINERS && i != j ==> !slots[i].used
    ensures C.Claim(slots, req, 0).0 == Claimed(1 - j)
  {
    assert FirstById(slots, req.id, 0) == -1;
    assert !RootfsInUse(slots, req.rootfs);
  }

  lemma NamesDiffer()
    ensures A.id != B.id && A.id != X.id && B.id != X.id
    ensures A.rootfs != B.rootfs && A.rootfs != X.rootfs && B.rootfs != X.rootfs
  {
    assert A.id[0] != B.id[0] && A.id[0] != X.id[0] && B.id[0] != X.id[0];
    assert A.rootfs[1] != B.rootfs[1] && A.rootfs[1] != X.rootfs[1] && B.rootfs[1] != X.rootfs[1];
  }

  // ---------------------------------------------------------------------------------------
  // Reaped before it is published

  ghost const CLAIMED_A: seq<Slot> := NoContainers()[0 := NewSlot(A, 0)]

  lemma ClonedA() returns (s: Sys)
    ensures Rests(s, START.(slots := CLAIMED_A, children := {OLD}, cloned := {OLD}), 1, 5)
    ensures At(s, 0, 0, AtParg(1, 3, OLD))
  {
    InitIsReachable();
    FirstClaim(A);
    s := Claims(INIT, START, 0, 1, A, 0);
    var v := START.(slots := CLAIMED_A);
    s := GetsReady(s, v, 0, 0, 1, 1);
    s := Clones(s, v, 0, 0, AtClone(1, 2, 3, 4), 1, 5, OLD);
  }

  lemma ReapedA() returns (s: Sys)
    ensures Rests(s, START.(slots := CLAIMED_A, cloned := {OLD}, seen := map[OLD := WExited(0)]), 1, 5)
    ensures At(s, 0, 0, AtParg(1, 3, OLD))
  {
    s := ClonedA();
    var v := START.(slots := CLAIMED_A, children := {OLD}, cloned := {OLD});
    s := WaitsFor(s, v, 1, 5, OLD, WExited(0));
    s := LooksUp(s, v.(children := {}, reaper := Reaped(OLD, WExited(0))), 1, 5, -1);
    assert C.Record(CLAIMED_A, 7, WExited(0)) == CLAIMED_A;
  }

  lemma PublishedTooLate() returns (s: Sys)
    ensures Rests(s, START.(slots := C.Publish(CLAIMED_A, 0, 7, 3), cloned := {OLD}, tenant := map[0 := OLD], seen := map[OLD := WExited(0)]), 1, 6)
  {
    s := ReapedA();
    s := Finishes(s, START.(slots := CLAIMED_A, cloned := {OLD}, seen := map[OLD := WExited(0)]), 0, 0, AtParg(1, 3, OLD), 1, 5);
  }

  /** A child exits and is reaped between `clone` and publication: no child is left, no pid
      was reused, and its container shows RUNNING; by `Reaping.EarlyStaysRunning` it always will. */
  lemma EarlyReapHappens() returns (states: seq<Sys>, labels: seq<Label>)
    ensures IsRun(states, labels) && Clean(states, labels, |labels|, 7) && EarlyReap(states, labels, OLD, |labels|)
    ensures var s := states[|labels|];
            && s.children == {} && s.reaper == Waiting && HandedOutOnce(s.hist.cloned, 7)
            && |s.slots| > 0 && s.slots[0].used && s.slots[0].pid == 7 && s.slots[0].state == Running
  {
    var s := PublishedTooLate();
    states, labels :| EndsIn(states, labels, s);
    FreshPidsAreClean(states, labels, |labels|, 7);
    TenantIsOwner(states, labels, 0);
    UnrecordedMeansEarly(states, labels, |labels|, OLD);
  }

  lemma TenantIsOwner(states: seq<Sys>, labels: seq<Label>, i: nat)
    requires IsRun(states, labels) && i in states[|labels|].hist.tenant
    ensures states[|labels|].hist.tenant[i] in states[|labels|].hist.owner
  {
    CI.InvHolds(states, labels, |labels|);
    assert CI.TenantMatches(states[|labels|], i);
  }

  // ---------------------------------------------------------------------------------------
  // Started while the reaper is leaving

  lemma Leaving() returns (s: Sys)
    ensures Rests(s, START.(reaper := NoChild), 0, 1) && s.quitting
  {
    InitIsReachable();
    s := Step(INIT, Quit);
    s := Step(s, SawNoChild);
  }

  lemma StartedTooLate() returns (s: Sys)
    ensures Rests(s, START.(slots := NoContainers()[0 := Published(A, 3)], children := {OLD}, reaper := NoChild,
                            cloned := {OLD}, tenant := map[0 := OLD]), 1, 6)
    ensures s.quitting
  {
    s := Leaving();
    FirstClaim(A);
    s := Starts(s, START.(reaper := NoChild), 0, 1, A, 0, OLD);
  }

  /** `waitpid` finds no child, a client starts a container, and only then the reaper reads
      `supervisor_running` and exits: the container shows RUNNING, and nobody will reap its
      child.  No pid was reused and nothing was looked up too early. */
  lemma LateStartHappens() returns (states: seq<Sys>, labels: seq<Label>, k: nat)
    ensures IsRun(states, labels) && k + 1 == |labels| && Reaping.ReaperExitsAt(states, labels, k)
    ensures Clean(states, labels, k, 7) && LateClone(states, labels, OLD, k) && states[k].hist.seen == map[]
    ensures var s := states[k + 1];
            && s.hist.tenant == map[0 := OLD] && OLD in s.children && HandedOutOnce(s.hist.cloned, 7)
            && |s.slots| > 0 && s.slots[0].used && s.slots[0].pid == 7 && s.slots[0].state == Running
  {
    var s := StartedTooLate();
    var before, path :| EndsIn(before, path, s);
    k := |path|;
    FreshPidsAreClean(before, path, k, 7);
    UnreapedMeansLate(before, path, k, OLD);
    Extend(before, path, s, CheckQuit);
    states, labels := before + [Next(s, CheckQuit)], path + [CheckQuit];
    PrefixIsLate(before, path, states, labels, k);
    FreshPidsAreClean(states, labels, k, 7);
  }

  lemma PrefixIsLate(before: seq<Sys>, path: seq<Label>, states: seq<Sys>, labels: seq<Label>, k: nat)
    requires k == |path| && |before| == k + 1 && before <= states && path <= labels && LateClone(before, path, OLD, k)
    ensures LateClone(states, labels, OLD, k)
  {
    var a, j :| KnowsNoChild(before, path, a, k) && a < j < k && ClonedAt(path, OLD, j);
    assert KnowsNoChild(states, labels, a, k) && ClonedAt(labels, OLD, j);
  }

  // ---------------------------------------------------------------------------------------
  // A pid used twice

  /** A is published as pid 7 and exits with 0; slot 0 shows it. */
  lemma FirstDone() returns (s: Sys)
    ensures Rests(s, START.(slots := NoContainers()[0 := Retire(Published(A, 3), WExited(0))], cloned := {OLD},
                            tenant := map[0 := OLD], seen := map[OLD := WExited(0)], landed := map[OLD := 0]), 1, 6)
  {
    InitIsReachable();
    FirstClaim(A);
    s := Starts(INIT, START, 0, 1, A, 0, OLD);
    var v := START.(slots := NoContainers()[0 := Published(A, 3)], children := {OLD}, cloned := {OLD}, tenant := map[0 := OLD]);
    s := WaitsFor(s, v, 1, 6, OLD, WExited(0));
    s := LooksUp(s, v.(children := {}, reaper := Reaped(OLD, WExited(0))), 1, 6, 0);
    assert C.Record(v.slots, 7, WExited(0)) == NoContainers()[0 := Retire(Published(A, 3), WExited(0))];
  }

  ghost function BothSlots(first: Slot, second: Slot): seq<Slot> {
    NoContainers()[0 := first][1 := second]
  }

  lemma SecondStarted() returns (s: Sys)
    ensures Rests(s, START.(slots := BothSlots(Retire(Published(A, 3), WExited(0)), Published(B, 8)), children := {NEW},
                            cloned := {OLD, NEW}, tenant := map[0 := OLD, 1 := NEW],
                            seen := map[OLD := WExited(0)], landed := map[OLD := 0]), 2, 11)
  {
    s := FirstDone();
    NamesDiffer();
    NextClaim(s.slots, 0, B);
    s := Starts(s, View(s), 1, 6, B, 1, NEW);
  }

  lemma SecondKilled() returns (s: Sys)
    ensures Rests(s, START.(slots := BothSlots(Retire(Retire(Published(A, 3), WExited(0)), WSignaled(SIGKILL)), Published(B, 8)),
                            cloned := {OLD, NEW}, tenant := map[0 := OLD, 1 := NEW],
                            seen := map[OLD := WExited(0), NEW := WSignaled(SIGKILL)], landed := map[OLD := 0, NEW := 0]), 2, 11)
  {
    s := SecondStarted();
    var v := View(s);
    assert FirstByPid(v.slots, 7, 0) == 0;
    s := WaitsFor(s, v, 2, 11, NEW, WSignaled(SIGKILL));
    s := LooksUp(s, v.(children := {}, reaper := Reaped(NEW, WSignaled(SIGKILL))), 2, 11, 0);
    assert C.Record(v.slots, 7, WSignaled(SIGKILL))
        == BothSlots(Retire(Retire(Published(A, 3), WExited(0)), WSignaled(SIGKILL)), Published(B, 8));
  }

  /** The kernel hands pid 7 out again after its first owner exited with 0.  The second owner's
      SIGKILL is recorded in the first one's slot, overwriting EXITED 0 by KILLED 137, and the
      second owner's slot stays RUNNING although its child has been looked up. */
  lemma ReusedPidHitsTheOldSlot() returns (states: seq<Sys>, labels: seq<Label>)
    ensures IsRun(states, labels) && !Clean(states, labels, |labels|, 7)
    ensures var s := states[|labels|];
            && s.children == {} && s.hist.tenant == map[0 := OLD, 1 := NEW] && |s.slots| == MAX_CONTAINERS
            && s.slots[0].id == "a" && s.slots[0].state == Killed && s.slots[0].exitCode == 137
            && s.slots[1].id == "b" && s.slots[1].state == Running
  {
    var s := SecondKilled();
    states, labels :| EndsIn(states, labels, s);
    StrayIsNotClean(states, labels, NEW, 1);
  }

  /** A record in a slot that is not the child's own was shadowed. */
  lemma StrayIsNotClean(states: seq<Sys>, labels: seq<Label>, c: Child, i: nat)
    requires IsRun(states, labels) && var s := states[|labels|];
             c.pid == 7 && i in s.hist.tenant && s.hist.tenant[i] == c && c in s.hist.landed && s.hist.landed[c] != i
    ensures !Clean(states, labels, |labels|, 7)
  {
    CI.InvHolds(states, labels, |labels|);
    assert CI.TenantMatches(states[|labels|], i);
    if Clean(states, labels, |labels|, 7) {
      Reaping.RecordedInItsOwnSlot(states, labels, |labels|, c);
    }
  }

  /** `Extend`, keeping hold of the run. */
  lemma GoesOn(states: seq<Sys>, labels: seq<Label>, s: Sys, l: Label) returns (states': seq<Sys>, labels': seq<Label>, s': Sys)
    requires EndsIn(states, labels, s) && Enabled(s, l)
    ensures s' == Next(s, l) && EndsIn(states', labels', s') && |labels'| == |labels| + 1 && labels'[|labels|] == l
    ensures forall j :: 0 <= j < |states| ==> states'[j] == states[j]
  {
    states', labels', s' := states + [Next(s, l)], labels + [l], Next(s, l);
    Extend(states, labels, s, l);
  }

  /** A child that is published and not yet looked up is never looked up too early. */
  lemma PublishedInTime(states: seq<Sys>, labels: seq<Label>, j: nat, k: nat, c: Child)
    requires IsRun(states, labels) && j <= k < |states| && c in states[j].hist.owner && c !in states[j].hist.seen
    ensures !EarlyReap(states, labels, c, k)
  {
    SeenMeansLookedUp(states, labels, j, c);
    if a, b :| a < b < k && LookedUpAt(states, labels, c, a) && PublishedAt(states, labels, c, b) {
      OwnersStay(states, labels, j, a, c);
      UnownedAtPublication(states, labels, c, a, b);
    }
  }

  lemma LookupOfSecond(s: Sys)
    requires s.slots == BothSlots(Retire(Published(A, 3), WExited(0)), Published(B, 8)) && s.reaper == Reaped(NEW, WSignaled(SIGKILL))
    ensures var s' := AfterRecord(s);
            && s'.reaper == Waiting && s'.children == s.children && s'.hist.tenant == s.hist.tenant
            && |s'.slots| == MAX_CONTAINERS && s'.slots[1] == Published(B, 8)
  {
    assert FirstByPid(s.slots, 7, 0) == 0;
    LookupView(s, 0);
  }

  lemma SecondShadowed() returns (states: seq<Sys>, labels: seq<Label>, s: Sys, j: nat)
    ensures EndsIn(states, labels, s) && j < |labels| && NEW in states[j].hist.owner && NEW !in states[j].hist.seen
    ensures s.reaper == Waiting && s.children == {} && 1 in s.hist.tenant && s.hist.tenant[1] == NEW
    ensures |s.slots| == MAX_CONTAINERS && s.slots[1] == Published(B, 8)
  {
    s := SecondStarted();
    states, labels :| EndsIn(states, labels, s);
    j := |labels|;
    TenantIsOwner(states, labels, 1);
    states, labels, s := GoesOn(states, labels, s, Reap(NEW, WSignaled(SIGKILL)));
    LookupOfSecond(s);
    states, labels, s := GoesOn(states, labels, s, DoRecord);
  }

  /** A third way to be left RUNNING: the record of "b" goes to the old slot, and the reaper
      exits.  The child of "b" was neither looked up too early nor cloned too late. */
  lemma ShadowedAtExitHappens() returns (states: seq<Sys>, labels: seq<Label>, k: nat)
    ensures IsRun(states, labels) && k + 1 == |labels| && Reaping.ReaperExitsAt(states, labels, k)
    ensures !EarlyReap(states, labels, NEW, k) && !LateClone(states, labels, NEW, k)
    ensures 1 in states[k].hist.tenant && states[k].hist.tenant[1] == NEW
    ensures |states[k + 1].slots| > 1 && states[k + 1].slots[1].id == "b" && states[k + 1].slots[1].state == Running
  {
    var s, j;
    states, labels, s, j := SecondShadowed();
    states, labels, s := GoesOn(states, labels, s, Quit);
    states, labels, s := GoesOn(states, labels, s, SawNoChild);
    k := |labels|;
    states, labels, s := GoesOn(states, labels, s, CheckQuit);
    PublishedInTime(states, labels, j, k, NEW);
    UnreapedMeansLate(states, labels, k, NEW);
  }

  // ---------------------------------------------------------------------------------------
  // A pid used twice, the other way round

  ghost const CLAIMED_X: Slot := NewSlot(X, 0)

  lemma XClaimed() returns (s: Sys)
    ensures Rests(s, START.(slots := NoContainers()[0 := CLAIMED_X]), 1, 1) && At(s, 0, 0, AtPipe)
  {
    InitIsReachable();
    FirstClaim(X);
    s := Claims(INIT, START, 0, 1, X, 0);
  }

  lemma AWaitedFor() returns (s: Sys)
    ensures Rests(s, START.(slots := BothSlots(CLAIMED_X, Published(A, 3)), reaper := Reaped(OLD, WExited(0)),
                            cloned := {OLD}, tenant := map[1 := OLD]), 2, 6)
    ensures At(s, 0, 0, AtPipe)
  {
    s := XClaimed();
    NamesDiffer();
    NextClaim(s.slots, 0, A);
    s := Starts(s, View(s), 1, 1, A, 1, OLD);
    s := WaitsFor(s, View(s), 2, 6, OLD, WExited(0));
  }

  lemma XGone() returns (s: Sys)
    ensures Rests(s, START.(slots := BothSlots(CLAIMED_X.(used := false), Published(A, 3)), reaper := Reaped(OLD, WExited(0)),
                            cloned := {OLD}, tenant := map[1 := OLD]), 2, 6)
  {
    s := AWaitedFor();
    var v := View(s);
    s := Goes(s, v, 0, 0, AtPipe, 2, 6, NoPipe, 6);
    s := Step(s, DoUnclaim(0));
    assert s.slots == BothSlots(CLAIMED_X.(used := false), Published(A, 3));
  }

  lemma BStarted() returns (s: Sys)
    ensures Rests(s, START.(slots := BothSlots(Published(B, 8), Published(A, 3)), children := {NEW}, reaper := Reaped(OLD, WExited(0)),
                            cloned := {OLD, NEW}, tenant := map[0 := NEW, 1 := OLD]), 3, 11)
  {
    s := XGone();
    var v := View(s);
    NamesDiffer();
    NextClaim(s.slots, 1, B);
    s := Starts(s, v, 2, 6, B, 0, NEW);
    assert s.slots == BothSlots(Published(B, 8), Published(A, 3));
  }

  /** The pid is handed out again after `waitpid` returned it and before the reaper looks it up,
      to a container in an earlier slot.  That container is marked EXITED 0 while its process
      is alive, and the one that exited stays RUNNING. */
  lemma ReusedPidEndsTheNewcomer() returns (states: seq<Sys>, labels: seq<Label>)
    ensures IsRun(states, labels) && !Clean(states, labels, |labels|, 7)
    ensures var s := states[|labels|];
            && s.children == {NEW} && s.hist.seen == map[OLD := WExited(0)] && s.hist.tenant == map[0 := NEW, 1 := OLD]
            && |s.slots| == MAX_CONTAINERS
            && s.slots[0].id == "b" && s.slots[0].state == Exited && s.slots[0].exitCode == 0
            && s.slots[1].id == "a" && s.slots[1].state == Running
  {
    var s := BStarted();
    var v := View(s);
    assert FirstByPid(v.slots, 7, 0) == 0;
    s := LooksUp(s, v, 3, 11, 0);
    states, labels :| EndsIn(states, labels, s);
    StrayIsNotClean(states, labels, OLD, 1);
  }

  // ---------------------------------------------------------------------------------------
  // A pid used twice without harm

  /** A's start fails after `clone`; its child is reaped. */
  lemma FailedAndReaped() returns (s: Sys)
    ensures Rests(s, START.(slots := NoContainers()[0 := NewSlot(A, 0).(used := false)], cloned := {OLD}, seen := map[OLD := WSignaled(SIGKILL)]), 1, 5)
  {
    s := ClonedA();
    s := Goes(s, View(s), 0, 0, AtParg(1, 3, OLD), 1, 5, NoParg, 5);
    s := Step(s, DoUnclaim(0));
    var slots := NoContainers()[0 := NewSlot(A, 0).(used := false)];
    assert s.slots == slots;
    var v := START.(slots := slots, children := {OLD}, cloned := {OLD});
    s := WaitsFor(s, v, 1, 5, OLD, WSignaled(SIGKILL));
    s := LooksUp(s, v.(children := {}, reaper := Reaped(OLD, WSignaled(SIGKILL))), 1, 5, -1);
  }

  lemma ReusedAndDone() returns (s: Sys)
    ensures Rests(s, START.(slots := NoContainers()[0 := Retire(Published(B, 7), WExited(0))], cloned := {OLD, NEW}, tenant := map[0 := NEW],
                            seen := map[OLD := WSignaled(SIGKILL), NEW := WExited(0)], landed := map[NEW := 0]), 2, 10)
  {
    s := FailedAndReaped();
    assert C.Claim(s.slots, B, 0).0 == Claimed(0);
    s := Starts(s, View(s), 1, 5, B, 0, NEW);
    var slots := NoContainers()[0 := Published(B, 7)];
    assert s.slots == slots;
    var v := View(s);
    s := WaitsFor(s, v, 2, 10, NEW, WExited(0));
    s := LooksUp(s, v.(children := {}, reaper := Reaped(NEW, WExited(0))), 2, 10, 0);
    assert C.Record(slots, 7, WExited(0)) == NoContainers()[0 := Retire(Published(B, 7), WExited(0))];
  }

  /** The pid of a failed start is handed out again, and every record is right. */
  lemma ReuseCanBeHarmless() returns (states: seq<Sys>, labels: seq<Label>)
    ensures IsRun(states, labels) && Clean(states, labels, |labels|, 7) && !HandedOutOnce(states[|labels|].hist.cloned, 7)
    ensures |states[|labels|].slots| > 0 && states[|labels|].slots[0].state == Exited
  {
    var s := ReusedAndDone();
    states, labels :| EndsIn(states, labels, s);
    var k := |labels|;
    assert OLD in s.hist.cloned && NEW in s.hist.cloned;
    forall j, c | 0 <= j < k && LookedUpAt(states, labels, c, j)
      ensures WentTo(states[k], c) == Home(states[j], c)
    {
      SeenMeansLookedUp(states, labels, k, c);
      HarmlessHome(states, labels, j, c);
    }
    RecordsAreRightExactly(states, labels, k, 7);
  }

  lemma OnlyNewOwns(states: seq<Sys>, labels: seq<Label>, j: nat, c: Child)
    requires IsRun(states, labels) && j < |labels| && states[|labels|].hist.tenant == map[0 := NEW]
    ensures c in states[j].hist.owner ==> c == NEW
  {
    CI.InvHolds(states, labels, |labels|);
    if c in states[j].hist.owner {
      OwnersStay(states, labels, j, |labels|, c);
      assert CI.OwnerMatches(states[|labels|], c);
    }
  }

  lemma HarmlessHome(states: seq<Sys>, labels: seq<Label>, j: nat, c: Child)
    requires IsRun(states, labels) && j < |labels| && LookedUpAt(states, labels, c, j) && (c == OLD || c == NEW)
    requires states[|labels|].hist.tenant == map[0 := NEW] && states[|labels|].hist.landed == map[NEW := 0]
    ensures WentTo(states[|labels|], c) == Home(states[j], c)
  {
    OnlyNewOwns(states, labels, j, OLD);
    LookupDecides(states, labels, j, |labels|, c);
    if c == NEW {
      SI.InvHolds(states, labels, j);
      CI.InvHolds(states, labels, j);
      MatchIsTenant(states[j], 7);
      OnlyNewOwns(states, labels, j, states[j].hist.tenant[0]);
    }
  }

  lemma OwnersStay(states: seq<Sys>, labels: seq<Label>, j: nat, k: nat, c: Child)
    requires IsRun(states, labels) && j <= k < |states| && c in states[j].hist.owner
    ensures c in states[k].hist.owner
  {
    OwnedMeansPublished(states, labels, j, c);
    OwnedMeansPublished(states, labels, k, c);
  }

  // ---------------------------------------------------------------------------------------
  // An ordinary run

  lemma FirstLooks(s: Sys)
    requires 0 in s.starts && s.starts[0].run && s.starts[0].index == 0 && s.starts[0].stage == Up(OLD) && |s.slots| == MAX_CONTAINERS
    ensures Enabled(s, RunCheck(0))
    ensures var s' := AfterRunCheck(s, 0);
            && s' == s.(starts := s.starts[0 := s.starts[0].(stage := s'.starts[0].stage)])
            && s'.starts[0].stage == if Live(s.slots[0].state) then Asleep(OLD) else Returned(OLD, s.slots[0].state, s.slots[0].exitCode)
  {
  }

  lemma RunAsleep() returns (states: seq<Sys>, labels: seq<Label>, s: Sys)
    ensures EndsIn(states, labels, s) && s.slots == NoContainers()[0 := Published(A, 3)] && s.reaper == Waiting && s.children == {OLD}
    ensures 0 in s.starts && s.starts[0].run && s.starts[0].index == 0 && s.starts[0].stage == Asleep(OLD)
  {
    InitIsReachable();
    FirstClaim(A);
    s := Starts(INIT, START, 0, 1, A, 0, OLD);
    states, labels :| EndsIn(states, labels, s);
    FirstLooks(s);
    states, labels, s := GoesOn(states, labels, s, RunCheck(0));
  }

  /** A `run` client looks, falls asleep, is woken by the record of its container and returns
      its exit code. */
  lemma RunSleepsAndReturns() returns (states: seq<Sys>, labels: seq<Label>, j: nat)
    ensures IsRun(states, labels) && j < |labels|
    ensures 0 in states[j].starts && states[j].starts[0].stage == Asleep(OLD)
    ensures 0 in states[|labels|].starts && states[|labels|].starts[0].stage == Returned(OLD, Exited, 3)
  {
    var s;
    states, labels, s := RunAsleep();
    j := |labels|;
    states, labels, s := GoesOn(states, labels, s, Reap(OLD, WExited(3)));
    LookupWakes(s);
    states, labels, s := GoesOn(states, labels, s, DoRecord);
    FirstLooks(s);
    states, labels, s := GoesOn(states, labels, s, RunCheck(0));
  }

  lemma LookupWakes(s: Sys)
    requires s.slots == NoContainers()[0 := Published(A, 3)] && s.reaper == Reaped(OLD, WExited(3))
    requires 0 in s.starts && s.starts[0].run && s.starts[0].index == 0 && s.starts[0].stage == Asleep(OLD)
    ensures var s' := AfterRecord(s);
            && 0 in s'.starts && s'.starts[0] == s.starts[0].(stage := Up(OLD))
            && |s'.slots| == MAX_CONTAINERS && s'.slots[0].state == Exited && s'.slots[0].exitCode == 3
  {
    assert FirstByPid(s.slots, 7, 0) == 0;
    CI.RecordLooksUp(s);
  }

  /** The reaper finds no child, goes on waiting because nobody told it to quit, and records a
      container started afterwards. */
  lemma ReaperSurvivesIdleness() returns (states: seq<Sys>, labels: seq<Label>)
    ensures IsRun(states, labels) && CheckQuit in labels && Clean(states, labels, |labels|, 7)
    ensures var s := states[|labels|];
            && s.reaper == Waiting && s.hist.seen == map[OLD := WExited(0)]
            && |s.slots| > 0 && s.slots[0].id == "a" && s.slots[0].state == Exited && s.slots[0].exitCode == 0
  {
    var s := RecordedAfterIdleness();
    states, labels :| EndsIn(states, labels, s) && Takes(labels, {CheckQuit});
    FreshPidsAreClean(states, labels, |labels|, 7);
  }

  lemma RecordedAfterIdleness() returns (s: Sys)
    ensures Rests(s, START.(slots := NoContainers()[0 := Retire(Published(A, 3), WExited(0))], cloned := {OLD}, tenant := map[0 := OLD],
                            seen := map[OLD := WExited(0)], landed := map[OLD := 0], via := {CheckQuit}), 1, 6)
  {
    s := StillWaiting();
    FirstClaim(A);
    var v := START.(via := {CheckQuit});
    s := Starts(s, v, 0, 1, A, 0, OLD);
    v := v.(slots := NoContainers()[0 := Published(A, 3)], children := {OLD}, cloned := {OLD}, tenant := map[0 := OLD]);
    s := WaitsFor(s, v, 1, 6, OLD, WExited(0));
    s := LooksUp(s, v.(children := {}, reaper := Reaped(OLD, WExited(0))), 1, 6, 0);
    assert C.Record(v.slots, 7, WExited(0)) == NoContainers()[0 := Retire(Published(A, 3), WExited(0))];
  }

  lemma StillWaiting() returns (s: Sys)
    ensures Rests(s, START.(via := {CheckQuit}), 0, 1)
  {
    InitIsReachable();
    s := Step(INIT, SawNoChild);
    s := StepVia(s, CheckQuit, {}, {CheckQuit});
    assert {} + {CheckQuit} == {CheckQuit};
  }

  // ---------------------------------------------------------------------------------------
  // KILLED by another signal

  /** A container that dies of SIGTERM without having been asked to stop shows KILLED 143. */
  lemma KilledWithoutSigkill() returns (states: seq<Sys>, labels: seq<Label>)
    ensures IsRun(states, labels) && Clean(states, labels, |labels|, 7)
    ensures var s := states[|labels|];
            && s.hist.seen == map[OLD := WSignaled(15)] && |s.slots| > 0 && !s.slots[0].stopRequested
            && s.slots[0].state == Killed && s.slots[0].exitCode == 143
  {
    InitIsReachable();
    FirstClaim(A);
    var s := Starts(INIT, START, 0, 1, A, 0, OLD);
    s := WaitsFor(s, View(s), 1, 6, OLD, WSignaled(15));
    s := LooksUp(s, View(s), 1, 6, 0);
    states, labels :| EndsIn(states, labels, s);
    FreshPidsAreClean(states, labels, |labels|, 7);
  }

  // ---------------------------------------------------------------------------------------
  // Stops that miss

  /** `stop` of a container that is still STARTING calls `kill(-1, SIGTERM)`. */
  lemma EarlyStopSignalsEveryone() returns (states: seq<Sys>, labels: seq<Label>)
    ensures IsRun(states, labels)
    ensures Term(0, -1, Starting) in states[|labels|].hist.terms
  {
    var s := XClaimed();
    s := Step(s, DoStop(0, "x"));
    s := Step(s, DoKill(0));
    states, labels :| EndsIn(states, labels, s);
  }

  ghost function Asked(stack: nat): Slot {
    Published(A, stack).(stopRequested := true)
  }

  lemma AskedToStop() returns (s: Sys)
    ensures Rests(s, START.(slots := NoContainers()[0 := Asked(3)], children := {OLD}, stops := map[9 := Term(0, 7, Running)],
                            cloned := {OLD}, tenant := map[0 := OLD]), 1, 6)
  {
    InitIsReachable();
    FirstClaim(A);
    s := Starts(INIT, START, 0, 1, A, 0, OLD);
    s := Step(s, DoStop(9, "a"));
    assert s.slots == NoContainers()[0 := Asked(3)];
  }

  lemma StoppedAnyway() returns (s: Sys)
    ensures Rests(s, START.(slots := NoContainers()[0 := Retire(Asked(3), WExited(0))], stops := map[9 := Term(0, 7, Running)],
                            cloned := {OLD}, tenant := map[0 := OLD], seen := map[OLD := WExited(0)], landed := map[OLD := 0]), 1, 6)
  {
    s := AskedToStop();
    var v := View(s);
    s := WaitsFor(s, v, 1, 6, OLD, WExited(0));
    s := LooksUp(s, v.(children := {}, reaper := Reaped(OLD, WExited(0))), 1, 6, 0);
    assert C.Record(v.slots, 7, WExited(0)) == NoContainers()[0 := Retire(Asked(3), WExited(0))];
  }

  /** Between reading the pid and `kill`, the container exits and its pid is handed out again:
      the signal goes to another container. */
  lemma LateStopHitsAnother() returns (states: seq<Sys>, labels: seq<Label>)
    ensures IsRun(states, labels)
    ensures var s := states[|labels|];
            s.stops == map[9 := Term(0, NEW.pid, Running)] && s.hist.tenant == map[0 := OLD, 1 := NEW] && s.children == {NEW}
  {
    var s := StoppedAnyway();
    NamesDiffer();
    NextClaim(s.slots, 0, B);
    s := Starts(s, View(s), 1, 6, B, 1, NEW);
    states, labels :| EndsIn(states, labels, s);
  }
}
