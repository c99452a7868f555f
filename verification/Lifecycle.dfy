/** The supervisor as a state machine: any number of client threads inside
    `start_container_internal` and `stop_container_by_id`, `run` clients waiting for their
    container, the producer threads and the reaper.  A step is one critical section on `containers_mutex`, or one
    system call or allocation between two of them; steps of different threads interleave freely.

    Assumed of the kernel: `clone` never returns the pid of a child that has not been reaped, and
    `waitpid` returns each child once.  A child may terminate at any moment.  The pid of a reaped
    child may be handed out again. */
module Lifecycle {
  import opened Containers
  import C = Containers

  type Tid = nat

  /** One pipe end or heap block; every acquisition gets a name of its own. */
  type Resource = nat

  /** One process; `name` tells processes with the same pid apart. */
  datatype Child = Child(name: nat, pid: int)

  /** Where a start call stands, with the resources it must still release or hand over. */
  datatype Stage =
    | AtPipe
    | AtStack(readEnd: Resource, writeEnd: Resource)
    | AtArg(readEnd: Resource, writeEnd: Resource, stack: Resource)
    | AtClone(readEnd: Resource, writeEnd: Resource, stack: Resource, arg: Resource)
    | AtParg(readEnd: Resource, stack: Resource, child: Child)
    | AtPublish(readEnd: Resource, stack: Resource, parg: Resource, child: Child)
    | AtUnclaim
    | Failed
    | Up(child: Child)                          // published; a `run` client about to look at its slot
    | Asleep(child: Child)                      // a `run` client blocked on `state_cv`
    | Returned(child: Child, state: Phase, code: int)

  /** `got` is everything the call ever acquired. */
  datatype Start = Start(index: nat, run: bool, stage: Stage, got: set<Resource>)

  datatype Holder = ByStart(t: Tid) | BySlot(index: nat) | ByProducer(index: nat) | Freed

  /** Who is responsible for each resource, and how often each has been closed or freed. */
  datatype Ledger = Ledger(holder: map<Resource, Holder>, freed: multiset<Resource>)

  /** `NoChild`: `waitpid` has failed with ECHILD, `supervisor_running` has not been read yet. */
  datatype Reaper = Waiting | Reaped(child: Child, status: Status) | NoChild | Finished

  /** A producer thread, with what it must still release. */
  datatype Thread = Begun(readEnd: Resource, parg: Resource) | Reading(readEnd: Resource) | Ended

  /** A SIGTERM about to be sent or sent for slot `index`, which was in `phase` when the pid was read. */
  datatype Term = Term(index: nat, target: int, phase: Phase)

  /** Facts about the run so far. */
  datatype History = History(
    claimer: map<nat, Tid>,       // slots claimed and not yet published or released
    published: set<nat>,          // slots ever published
    publishes: nat,               // successful starts
    cloned: set<Child>,           // children ever returned by clone
    cloner: map<Child, Tid>,      // which call cloned a child
    owner: map<Child, nat>,       // the slot a child was published in
    tenant: map<nat, Child>,      // the child a slot was published for
    seen: map<Child, Status>,     // children the reaper has looked up
    landed: map<Child, nat>,      // the slot that got the record of a child, if any did
    terms: set<Term>              // signals sent
  )

  datatype Sys = Sys(
    slots: seq<Slot>, starts: map<Tid, Start>, stops: map<Tid, Term>,
    children: set<Child>, reaper: Reaper, quitting: bool, threads: map<nat, Thread>,
    ledger: Ledger, hist: History
  )

  /** What a start call does between its two critical sections: each system call or
      allocation succeeds or fails, and a failure releases what is held. */
  datatype Action =
    | GotPipe(readEnd: Resource, writeEnd: Resource) | NoPipe
    | GotStack(r: Resource) | NoStack
    | GotArg(r: Resource) | NoArg
    | GotChild(child: Child) | CloneFailed
    | GotParg(r: Resource) | NoParg

  datatype Label =
    | DoClaim(t: Tid, req: Request, run: bool, now: int)
    | Local(t: Tid, a: Action)
    | DoUnclaim(t: Tid) | DoPublish(t: Tid)
    | RunCheck(t: Tid) | Spurious(t: Tid)
    | DoStop(t: Tid, id: string) | DoKill(t: Tid) | DoStopAll
    | Quit
    | Reap(child: Child, status: Status) | DoRecord | SawNoChild | CheckQuit
    | ThreadBegins(i: nat) | ThreadEnds(i: nat)

  ghost function NoContainers(): (slots: seq<Slot>)
    ensures |slots| == MAX_CONTAINERS && forall i :: 0 <= i < MAX_CONTAINERS ==> slots[i] == EMPTY
  {
    seq(MAX_CONTAINERS, _ => EMPTY)
  }

  ghost const INIT: Sys := Sys(
    NoContainers(), map[], map[], {}, Waiting, false, map[],
    Ledger(map[], multiset{}),
    History(map[], {}, 0, {}, map[], map[], map[], map[], map[], {}))

  ghost predicate ActionFits(stage: Stage, a: Action) {
    match a
    case GotPipe(_, _) => stage.AtPipe?
    case NoPipe => stage.AtPipe?
    case GotStack(_) => stage.AtStack?
    case NoStack => stage.AtStack?
    case GotArg(_) => stage.AtArg?
    case NoArg => stage.AtArg?
    case GotChild(_) => stage.AtClone?
    case CloneFailed => stage.AtClone?
    case GotParg(_) => stage.AtParg?
    case NoParg => stage.AtParg?
  }

  ghost function Acquired(a: Action): seq<Resource> {
    match a
    case GotPipe(x, y) => [x, y]
    case GotStack(r) => [r]
    case GotArg(r) => [r]
    case GotParg(r) => [r]
    case _ => []
  }

  /** The `close` and `free` calls made along with the action. */
  ghost function Dropped(g: Stage, a: Action): seq<Resource>
    requires ActionFits(g, a)
  {
    match a
    case NoStack => [g.readEnd, g.writeEnd]
    case NoArg => [g.stack, g.readEnd, g.writeEnd]
    case GotChild(_) => [g.arg, g.writeEnd]
    case CloneFailed => [g.arg, g.stack, g.readEnd, g.writeEnd]
    case NoParg => [g.readEnd, g.stack]
    case _ => []
  }

  ghost function StageAfter(g: Stage, a: Action): Stage
    requires ActionFits(g, a)
  {
    match a
    case GotPipe(x, y) => AtStack(x, y)
    case GotStack(r) => AtArg(g.readEnd, g.writeEnd, r)
    case GotArg(r) => AtClone(g.readEnd, g.writeEnd, g.stack, r)
    case GotChild(child) => AtParg(g.readEnd, g.stack, child)
    case GotParg(r) => AtPublish(g.readEnd, g.stack, r, g.child)
    case _ => AtUnclaim
  }

  ghost predicate Distinct(rs: seq<Resource>) {
    forall i, j :: 0 <= i < j < |rs| ==> rs[i] != rs[j]
  }

  /** The kernel may return `c`: a new process, whose pid no unreaped child has. */
  ghost predicate CanClone(s: Sys, c: Child) {
    c.pid > 0 && c !in s.hist.cloned && forall d :: d in s.children ==> d.pid != c.pid
  }

  ghost predicate Enabled(s: Sys, l: Label) {
    match l
    case DoClaim(t, req, _, _) => t !in s.starts && Fits(req)
    case Local(t, a) =>
      && t in s.starts && ActionFits(s.starts[t].stage, a)
      && Distinct(Acquired(a)) && (forall r :: r in Acquired(a) ==> r > 0 && r !in s.ledger.holder)
      && (a.GotChild? ==> CanClone(s, a.child))
    case DoUnclaim(t) => t in s.starts && s.starts[t].stage.AtUnclaim? && s.starts[t].index < |s.slots|
    case DoPublish(t) => t in s.starts && s.starts[t].stage.AtPublish? && s.starts[t].index < |s.slots|
    case RunCheck(t) => t in s.starts && s.starts[t].stage.Up? && s.starts[t].run && s.starts[t].index < |s.slots|
    case Spurious(t) => t in s.starts && s.starts[t].stage.Asleep?
    case DoStop(t, _) => t !in s.stops
    case DoKill(t) => t in s.stops
    case DoStopAll => s.quitting
    case Quit => true
    case Reap(child, status) => s.reaper == Waiting && child in s.children && Possible(status)
    case DoRecord => s.reaper.Reaped?
    case SawNoChild => s.reaper == Waiting && s.children == {}
    case CheckQuit => s.reaper == NoChild
    case ThreadBegins(i) => i in s.threads && s.threads[i].Begun?
    case ThreadEnds(i) => i in s.threads && s.threads[i].Reading?
  }

  // ---------------------------------------------------------------------------------------
  // Steps

  /** `close` or `free` of each resource listed. */
  ghost function Release(l: Ledger, rs: seq<Resource>): Ledger {
    Ledger(l.holder + (map r | r in rs :: Freed), l.freed + multiset(rs))
  }

  ghost function Give(l: Ledger, rs: seq<Resource>, h: Holder): Ledger {
    l.(holder := l.holder + (map r | r in rs :: h))
  }

  ghost function Move(s: Sys, t: Tid, stage: Stage): Sys
    requires t in s.starts
  {
    s.(starts := s.starts[t := s.starts[t].(stage := stage)])
  }

  ghost function AfterClaim(s: Sys, t: Tid, req: Request, run: bool, now: int): Sys {
    var (outcome, slots) := C.Claim(s.slots, req, now);
    if outcome.Claimed? then
      s.(slots := slots, starts := s.starts[t := Start(outcome.index, run, AtPipe, {})],
         hist := s.hist.(claimer := s.hist.claimer[outcome.index := t]))
    else
      s
  }

  ghost function AfterLocal(s: Sys, t: Tid, a: Action): Sys
    requires Enabled(s, Local(t, a))
  {
    var c := s.starts[t];
    var c' := Start(c.index, c.run, StageAfter(c.stage, a), c.got + (set r | r in Acquired(a)));
    s.(starts := s.starts[t := c'],
       ledger := Release(Give(s.ledger, Acquired(a), ByStart(t)), Dropped(c.stage, a)),
       children := if a.GotChild? then s.children + {a.child} else s.children,
       hist := if a.GotChild? then NoteClone(s.hist, t, a.child) else s.hist)
  }

  ghost function NoteClone(h: History, t: Tid, c: Child): History {
    h.(cloned := h.cloned + {c}, cloner := h.cloner[c := t])
  }

  ghost function AfterUnclaim(s: Sys, t: Tid): Sys
    requires Enabled(s, DoUnclaim(t))
  {
    var i := s.starts[t].index;
    Move(s, t, Failed).(slots := C.Unclaim(s.slots, i),
                        hist := s.hist.(claimer := s.hist.claimer - {i}))
  }

  ghost function AfterPublish(s: Sys, t: Tid): Sys
    requires Enabled(s, DoPublish(t))
  {
    var i, g := s.starts[t].index, s.starts[t].stage;
    Move(s, t, Up(g.child)).(
      slots := C.Publish(s.slots, i, g.child.pid, g.stack),
      threads := s.threads[i := Begun(g.readEnd, g.parg)],
      ledger := Give(Give(s.ledger, [g.stack], BySlot(i)), [g.readEnd, g.parg], ByProducer(i)),
      hist := s.hist.(claimer := s.hist.claimer - {i}, published := s.hist.published + {i},
                      publishes := s.hist.publishes + 1, owner := s.hist.owner[g.child := i],
                      tenant := s.hist.tenant[i := g.child]))
  }

  ghost function AfterRunCheck(s: Sys, t: Tid): Sys
    requires Enabled(s, RunCheck(t))
  {
    var slot, child := s.slots[s.starts[t].index], s.starts[t].stage.child;
    if Live(slot.state) then Move(s, t, Asleep(child))
    else Move(s, t, Returned(child, slot.state, slot.exitCode))
  }

  ghost function AfterStop(s: Sys, t: Tid, id: string): Sys {
    var (outcome, slots) := C.RequestStop(s.slots, id);
    if outcome.Signal? then
      s.(slots := slots,
         stops := s.stops[t := Term(outcome.index, outcome.target, slots[outcome.index].state)])
    else
      s
  }

  ghost function TermsToLive(slots: seq<Slot>): set<Term> {
    set i | 0 <= i < |slots| && slots[i].used && Live(slots[i].state) :: Term(i, slots[i].pid, slots[i].state)
  }

  /** `pthread_cond_broadcast(&containers[i].state_cv)`. */
  ghost function WakeOne(start: Start, i: int): Start {
    if start.index == i && start.stage.Asleep? then start.(stage := Up(start.stage.child)) else start
  }

  ghost function WakeAll(starts: map<Tid, Start>, i: int): map<Tid, Start> {
    map t | t in starts :: WakeOne(starts[t], i)
  }

  ghost function AfterRecord(s: Sys): Sys
    requires s.reaper.Reaped?
  {
    var c, status := s.reaper.child, s.reaper.status;
    var i := FirstByPid(s.slots, c.pid, 0);
    var hist := s.hist.(seen := s.hist.seen[c := status]);
    if i < 0 then
      s.(reaper := Waiting, hist := hist)
    else
      s.(reaper := Waiting, slots := C.Record(s.slots, c.pid, status), starts := WakeAll(s.starts, i),
         ledger := if s.slots[i].stack == 0 then s.ledger else Release(s.ledger, [s.slots[i].stack]),
         hist := hist.(landed := s.hist.landed[c := i]))
  }

  /** `log_producer_main` frees its argument first and closes the pipe last. */
  ghost function AfterThread(s: Sys, i: nat): Sys
    requires i in s.threads && !s.threads[i].Ended?
  {
    match s.threads[i]
    case Begun(readEnd, parg) => s.(threads := s.threads[i := Reading(readEnd)], ledger := Release(s.ledger, [parg]))
    case Reading(readEnd) => s.(threads := s.threads[i := Ended], ledger := Release(s.ledger, [readEnd]))
  }

  ghost function Next(s: Sys, l: Label): Sys
    requires Enabled(s, l)
  {
    match l
    case DoClaim(t, req, run, now) => AfterClaim(s, t, req, run, now)
    case Local(t, a) => AfterLocal(s, t, a)
    case DoUnclaim(t) => AfterUnclaim(s, t)
    case DoPublish(t) => AfterPublish(s, t)
    case RunCheck(t) => AfterRunCheck(s, t)
    case Spurious(t) => Move(s, t, Up(s.starts[t].stage.child))
    case DoStop(t, id) => AfterStop(s, t, id)
    case DoKill(t) => s.(stops := s.stops - {t}, hist := s.hist.(terms := s.hist.terms + {s.stops[t]}))
    case DoStopAll => s.(slots := C.StopAll(s.slots), hist := s.hist.(terms := s.hist.terms + TermsToLive(s.slots)))
    case Quit => s.(quitting := true)
    case Reap(child, status) => s.(children := s.children - {child}, reaper := Reaped(child, status))
    case DoRecord => AfterRecord(s)
    case SawNoChild => s.(reaper := NoChild)
    case CheckQuit => s.(reaper := if s.quitting then Finished else Waiting)
    case ThreadBegins(i) => AfterThread(s, i)
    case ThreadEnds(i) => AfterThread(s, i)
  }

  /** Label `k` leads from state `k` to state `k + 1`. */
  ghost predicate StepAt(states: seq<Sys>, labels: seq<Label>, k: int) {
    0 <= k < |labels| && |states| == |labels| + 1 && Enabled(states[k], labels[k]) && states[k + 1] == Next(states[k], labels[k])
  }

  ghost predicate IsRun(states: seq<Sys>, labels: seq<Label>) {
    && |states| == |labels| + 1
    && states[0] == INIT
    && forall k {:trigger StepAt(states, labels, k)} :: 0 <= k < |labels| ==> StepAt(states, labels, k)
  }
}
