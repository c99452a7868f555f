/** Every pipe end, stack and heap block is released exactly once or has exactly one owner that
    will release it, in every interleaving and on every failure path. */
module Resources {
  import opened Containers
  import C = Containers
  import opened Lifecycle
  import SI = SlotInvariant

  /** What a call in this stage is responsible for. */
  ghost function Holds(g: Stage): seq<Resource> {
    match g
    case AtStack(r, w) => [r, w]
    case AtArg(r, w, k) => [r, w, k]
    case AtClone(r, w, k, a) => [r, w, k, a]
    case AtParg(r, k, _) => [r, k]
    case AtPublish(r, k, p, _) => [r, k, p]
    case _ => []
  }

  /** What a producer thread is responsible for. */
  ghost function Keeps(th: Thread): seq<Resource> {
    match th
    case Begun(r, p) => [r, p]
    case Reading(r) => [r]
    case Ended => []
  }

  /** Released means closed or freed once; anything else, not at all. */
  ghost predicate Balanced(l: Ledger) {
    && (forall r :: r in l.holder ==> l.freed[r] == if l.holder[r] == Freed then 1 else 0)
    && (forall r :: r in l.freed ==> r in l.holder)
  }

  ghost predicate StartOwns(s: Sys, t: Tid)
    requires t in s.starts
  {
    var c := s.starts[t];
    && Distinct(Holds(c.stage))
    && (forall r :: r in Holds(c.stage) ==> r > 0 && r in s.ledger.holder && s.ledger.holder[r] == ByStart(t))
    && (forall r :: r in c.got ==> r in s.ledger.holder && Accounted(s.ledger.holder[r], t, c))
  }

  /** Whose a resource acquired by call `t` can be. */
  ghost predicate Accounted(h: Holder, t: Tid, c: Start) {
    || h == Freed
    || h == ByStart(t)
    || (SI.OnSlot(c.stage) && (h == BySlot(c.index) || h == ByProducer(c.index)))
  }

  ghost predicate HolderKnows(s: Sys, r: Resource)
    requires r in s.ledger.holder
  {
    match s.ledger.holder[r]
    case ByStart(t) => t in s.starts && r in Holds(s.starts[t].stage)
    case BySlot(i) => i < |s.slots| && s.slots[i].stack == r && r > 0
    case ByProducer(i) => i in s.threads && r in Keeps(s.threads[i])
    case Freed => true
  }

  ghost predicate ThreadOwns(s: Sys, i: nat)
    requires i in s.threads
  {
    && i in s.hist.published && Distinct(Keeps(s.threads[i]))
    && (forall r :: r in Keeps(s.threads[i]) ==> r in s.ledger.holder && s.ledger.holder[r] == ByProducer(i))
  }

  ghost predicate SlotOwns(s: Sys, i: nat)
    requires i < |s.slots|
  {
    s.slots[i].stack != 0 ==> s.slots[i].stack in s.ledger.holder && s.ledger.holder[s.slots[i].stack] == BySlot(i)
  }

  ghost predicate Inv(s: Sys) {
    && Balanced(s.ledger)
    && (forall t :: t in s.starts ==> StartOwns(s, t))
    && (forall r :: r in s.ledger.holder ==> HolderKnows(s, r))
    && (forall i :: 0 <= i < |s.slots| ==> SlotOwns(s, i))
    && (forall i :: i in s.threads ==> ThreadOwns(s, i))
  }

  // ---------------------------------------------------------------------------------------
  // Steps between the critical sections

  lemma MultisetOfDistinct(rs: seq<Resource>, r: Resource)
    requires Distinct(rs)
    ensures multiset(rs)[r] == if r in rs then 1 else 0
  {
    if rs != [] {
      var init := rs[..|rs| - 1];
      assert rs == init + [rs[|rs| - 1]];
      MultisetOfDistinct(init, r);
    }
  }

  lemma ReleaseKeepsBalance(l: Ledger, rs: seq<Resource>)
    requires Balanced(l) && Distinct(rs)
    requires forall r :: r in rs ==> r in l.holder && l.holder[r] != Freed
    ensures Balanced(Release(l, rs))
  {
    forall r
      ensures multiset(rs)[r] == if r in rs then 1 else 0
    {
      MultisetOfDistinct(rs, r);
    }
  }

  /** The resources of a call after an action: what it had, plus what it got, minus what it dropped. */
  lemma ActionBalances(g: Stage, a: Action)
    requires ActionFits(g, a) && Distinct(Holds(g)) && Distinct(Acquired(a))
    requires forall r :: r in Acquired(a) ==> r !in Holds(g)
    ensures Distinct(Dropped(g, a)) && Distinct(Holds(StageAfter(g, a)))
    ensures forall r :: r in Dropped(g, a) ==> r in Holds(g)
    ensures forall r :: r in Holds(StageAfter(g, a)) <==> (r in Holds(g) || r in Acquired(a)) && r !in Dropped(g, a)
  {
    var h, q := Holds(g), Acquired(a);
    assert |h| >= 2 ==> h[0] != h[1];
    assert |h| >= 3 ==> h[0] != h[2] && h[1] != h[2];
    assert |h| >= 4 ==> h[0] != h[3] && h[1] != h[3] && h[2] != h[3];
    assert |q| >= 2 ==> q[0] != q[1];
    assert |q| >= 1 ==> q[0] in q && q[0] !in h;
  }

  lemma LedgerAfterLocal(s: Sys, t: Tid, acq: seq<Resource>, drop: seq<Resource>)
    requires Inv(s) && t in s.starts && Distinct(acq) && Distinct(drop)
    requires forall r :: r in acq ==> r !in s.ledger.holder
    requires forall r :: r in drop ==> r in Holds(s.starts[t].stage)
    ensures Balanced(Release(Give(s.ledger, acq, ByStart(t)), drop))
  {
    var l := Give(s.ledger, acq, ByStart(t));
    assert StartOwns(s, t);
    ReleaseKeepsBalance(l, drop);
  }

  /** Call `t` acquired `acq` and released `drop`. */
  ghost predicate Trades(s: Sys, s': Sys, t: Tid, acq: seq<Resource>, drop: seq<Resource>) {
    && SI.OneMoves(s, s', t) && s'.threads == s.threads
    && SI.Pending(s.starts[t].stage) && SI.Pending(s'.starts[t].stage)
    && s'.starts[t].got == s.starts[t].got + (set r | r in acq)
    && (forall r :: r in acq ==> r > 0 && r !in s.ledger.holder)
    && (forall r :: r in drop ==> r in Holds(s.starts[t].stage))
    && (forall r :: r in s'.ledger.holder <==> r in s.ledger.holder || r in acq)
    && (forall r :: r in s'.ledger.holder ==>
          s'.ledger.holder[r] == if r in drop then Freed else if r in acq then ByStart(t) else s.ledger.holder[r])
    && Distinct(Holds(s'.starts[t].stage))
    && (forall r :: r in Holds(s'.starts[t].stage) <==> (r in Holds(s.starts[t].stage) || r in acq) && r !in drop)
  }

  lemma TradeKeepsStarts(s: Sys, s': Sys, t: Tid, acq: seq<Resource>, drop: seq<Resource>, u: Tid)
    requires Inv(s) && Trades(s, s', t, acq, drop) && u in s.starts
    ensures StartOwns(s', u)
  {
    assert StartOwns(s, t);
    assert StartOwns(s, u);
  }

  lemma TradeKeepsHolders(s: Sys, s': Sys, t: Tid, acq: seq<Resource>, drop: seq<Resource>, r: Resource)
    requires Inv(s) && Trades(s, s', t, acq, drop) && r in s'.ledger.holder
    ensures HolderKnows(s', r)
  {
    if r in s.ledger.holder {
      assert HolderKnows(s, r);
    }
  }

  lemma TradeKeepsThread(s: Sys, s': Sys, t: Tid, acq: seq<Resource>, drop: seq<Resource>, i: nat)
    requires Inv(s) && Trades(s, s', t, acq, drop) && i in s'.threads
    ensures ThreadOwns(s', i)
  {
    assert StartOwns(s, t) && ThreadOwns(s, i);
  }

  lemma TradeKeepsInv(s: Sys, s': Sys, t: Tid, acq: seq<Resource>, drop: seq<Resource>)
    requires Inv(s) && Trades(s, s', t, acq, drop) && Balanced(s'.ledger)
    ensures Inv(s')
  {
    assert StartOwns(s, t);
    forall u | u in s'.starts
      ensures StartOwns(s', u)
    {
      TradeKeepsStarts(s, s', t, acq, drop, u);
    }
    forall r | r in s'.ledger.holder
      ensures HolderKnows(s', r)
    {
      TradeKeepsHolders(s, s', t, acq, drop, r);
    }
    forall i | 0 <= i < |s'.slots|
      ensures SlotOwns(s', i)
    {
      assert SlotOwns(s, i);
    }
    forall i | i in s'.threads
      ensures ThreadOwns(s', i)
    {
      TradeKeepsThread(s, s', t, acq, drop, i);
    }
  }

  lemma HolderAfterTrade(l: Ledger, acq: seq<Resource>, h: Holder, drop: seq<Resource>)
    requires forall r :: r in drop ==> r in l.holder || r in acq
    ensures var l' := Release(Give(l, acq, h), drop);
            && (forall r :: r in l'.holder <==> r in l.holder || r in acq)
            && (forall r :: r in l'.holder ==> l'.holder[r] == if r in drop then Freed else if r in acq then h else l.holder[r])
  {
  }

  lemma LocalTrades(s: Sys, t: Tid, a: Action)
    requires Inv(s) && Enabled(s, Local(t, a))
    ensures Trades(s, AfterLocal(s, t, a), t, Acquired(a), Dropped(s.starts[t].stage, a))
    ensures Balanced(AfterLocal(s, t, a).ledger)
  {
    var g := s.starts[t].stage;
    var s', acq, drop := AfterLocal(s, t, a), Acquired(a), Dropped(g, a);
    assert StartOwns(s, t);
    ActionBalances(g, a);
    LedgerAfterLocal(s, t, acq, drop);
    SI.LocalMoves(s, t, a);
    SI.ActionsStayPending(g, a);
    HolderAfterTrade(s.ledger, acq, ByStart(t), drop);
  }

  lemma LocalKeepsInv(s: Sys, t: Tid, a: Action)
    requires Inv(s) && Enabled(s, Local(t, a))
    ensures Inv(AfterLocal(s, t, a))
  {
    LocalTrades(s, t, a);
    TradeKeepsInv(s, AfterLocal(s, t, a), t, Acquired(a), Dropped(s.starts[t].stage, a));
  }

  // ---------------------------------------------------------------------------------------
  // Critical sections that move no resource

  /** The call holds what it held. */
  ghost predicate SameHold(c: Start, c': Start) {
    && Holds(c'.stage) == Holds(c.stage) && c'.got == c.got && c'.index == c.index
    && (SI.OnSlot(c.stage) ==> SI.OnSlot(c'.stage))
  }

  ghost predicate NothingMoves(s: Sys, s': Sys) {
    && s'.ledger == s.ledger && |s'.slots| == |s.slots| && s'.threads == s.threads && s'.hist.published == s.hist.published
    && (forall i :: 0 <= i < |s.slots| ==> s'.slots[i].stack == s.slots[i].stack)
    && (forall u :: u in s.starts ==> u in s'.starts && SameHold(s.starts[u], s'.starts[u]))
    && (forall u :: u in s'.starts && u !in s.starts ==> Holds(s'.starts[u].stage) == [] && s'.starts[u].got == {})
  }

  lemma StillKeepsInv(s: Sys, s': Sys)
    requires Inv(s) && NothingMoves(s, s')
    ensures Inv(s')
  {
    forall u | u in s'.starts
      ensures StartOwns(s', u)
    {
      if u in s.starts {
        assert StartOwns(s, u);
      }
    }
    forall r | r in s'.ledger.holder
      ensures HolderKnows(s', r)
    {
      assert HolderKnows(s, r);
    }
    forall i | 0 <= i < |s'.slots|
      ensures SlotOwns(s', i)
    {
      assert SlotOwns(s, i);
    }
    forall i | i in s'.threads
      ensures ThreadOwns(s', i)
    {
      assert ThreadOwns(s, i);
    }
  }

  lemma ClaimMovesNothing(s: Sys, t: Tid, req: Request, run: bool, now: int)
    requires SI.Inv(s) && t !in s.starts
    ensures NothingMoves(s, AfterClaim(s, t, req, run, now))
  {
    var outcome := C.Claim(s.slots, req, now).0;
    if outcome.Claimed? {
      assert SI.SlotMatches(s, outcome.index);
    }
  }

  lemma MoveMovesNothing(s: Sys, t: Tid, stage: Stage)
    requires t in s.starts && Holds(stage) == Holds(s.starts[t].stage) == [] && (SI.OnSlot(s.starts[t].stage) ==> SI.OnSlot(stage))
    ensures NothingMoves(s, Move(s, t, stage))
  {
  }

  lemma UnclaimMovesNothing(s: Sys, t: Tid)
    requires Enabled(s, DoUnclaim(t))
    ensures NothingMoves(s, AfterUnclaim(s, t))
  {
    MoveMovesNothing(s, t, Failed);
  }

  lemma RunCheckMovesNothing(s: Sys, t: Tid)
    requires Enabled(s, RunCheck(t))
    ensures NothingMoves(s, AfterRunCheck(s, t))
  {
    MoveMovesNothing(s, t, AfterRunCheck(s, t).starts[t].stage);
  }

  // ---------------------------------------------------------------------------------------
  // Publication and the reaper

  /** The stack goes to the slot, the read end and the argument block to the producer thread. */
  ghost function HandedOver(h: Holder, r: Resource, g: Stage, i: nat): Holder
    requires g.AtPublish?
  {
    if r == g.stack then BySlot(i) else if r == g.readEnd || r == g.parg then ByProducer(i) else h
  }

  /** The slot gets the stack and the call moves on. */
  ghost predicate Installs(s: Sys, s': Sys, t: Tid, i: nat, g: Stage) {
    && t in s.starts && i < |s.slots| && s.slots[i].stack == 0
    && g == s.starts[t].stage && g.AtPublish? && s.starts[t].index == i
    && |s'.slots| == |s.slots| && s'.slots[i].stack == g.stack
    && (forall j :: 0 <= j < |s.slots| && j != i ==> s'.slots[j].stack == s.slots[j].stack)
    && s'.starts.Keys == s.starts.Keys && (forall u :: u in s.starts && u != t ==> s'.starts[u] == s.starts[u])
    && s'.starts[t].stage == Up(g.child) && s'.starts[t].got == s.starts[t].got && s'.starts[t].index == i
  }

  ghost predicate Publishes(s: Sys, s': Sys, t: Tid, i: nat, g: Stage) {
    && Installs(s, s', t, i, g)
    && s'.ledger.holder.Keys == s.ledger.holder.Keys
    && (forall r :: r in s.ledger.holder ==> s'.ledger.holder[r] == HandedOver(s.ledger.holder[r], r, g, i))
    && s'.threads == s.threads[i := Begun(g.readEnd, g.parg)] && s'.hist.published == s.hist.published + {i}
    && i !in s.hist.published
  }

  lemma PublisherOwns(s: Sys, t: Tid)
    requires Inv(s) && t in s.starts && s.starts[t].stage.AtPublish?
    ensures var g := s.starts[t].stage;
            && g.stack != g.readEnd && g.stack != g.parg && g.readEnd != g.parg && g.stack > 0
            && (forall r :: r == g.stack || r == g.readEnd || r == g.parg ==>
                  r in s.ledger.holder && s.ledger.holder[r] == ByStart(t))
  {
    var g := s.starts[t].stage;
    assert StartOwns(s, t);
    assert Holds(g)[0] != Holds(g)[1] && Holds(g)[1] != Holds(g)[2] && Holds(g)[0] != Holds(g)[2];
    assert g.stack in Holds(g) && g.readEnd in Holds(g) && g.parg in Holds(g);
  }

  lemma PublishKeepsOther(s: Sys, s': Sys, t: Tid, i: nat, g: Stage, u: Tid)
    requires Inv(s) && Publishes(s, s', t, i, g) && u in s'.starts && u != t
    ensures StartOwns(s', u)
  {
    PublisherOwns(s, t);
    assert StartOwns(s, u);
  }

  lemma PublishKeepsStarts(s: Sys, s': Sys, t: Tid, i: nat, g: Stage, u: Tid)
    requires Inv(s) && Publishes(s, s', t, i, g) && u in s'.starts
    ensures StartOwns(s', u)
  {
    if u == t {
    } else {
      PublishKeepsOther(s, s', t, i, g, u);
    }
  }

  lemma PublishKeepsHolders(s: Sys, s': Sys, t: Tid, i: nat, g: Stage, r: Resource)
    requires Inv(s) && Publishes(s, s', t, i, g) && r in s'.ledger.holder
    ensures HolderKnows(s', r)
  {
    PublisherOwns(s, t);
    assert HolderKnows(s, r);
    assert r == g.readEnd || r == g.parg ==> r in Keeps(s'.threads[i]);
  }

  lemma PublishKeepsSlots(s: Sys, s': Sys, t: Tid, i: nat, g: Stage, j: nat)
    requires Inv(s) && Publishes(s, s', t, i, g) && j < |s'.slots|
    ensures SlotOwns(s', j)
  {
    PublisherOwns(s, t);
    assert SlotOwns(s, j);
  }

  lemma PublishKeepsThreads(s: Sys, s': Sys, t: Tid, i: nat, g: Stage, j: nat)
    requires Inv(s) && Publishes(s, s', t, i, g) && j in s'.threads
    ensures ThreadOwns(s', j)
  {
    PublisherOwns(s, t);
    if j == i {
    } else {
      OldThreadOwns(s, s', t, i, g, j);
    }
  }

  lemma OldThreadOwns(s: Sys, s': Sys, t: Tid, i: nat, g: Stage, j: nat)
    requires Inv(s) && Publishes(s, s', t, i, g) && j in s.threads && j != i
    requires forall r :: r == g.stack || r == g.readEnd || r == g.parg ==> r in s.ledger.holder && s.ledger.holder[r] == ByStart(t)
    ensures ThreadOwns(s', j)
  {
    assert ThreadOwns(s, j);
  }

  lemma PublishKeeps(s: Sys, s': Sys, t: Tid, i: nat, g: Stage)
    requires Inv(s) && Publishes(s, s', t, i, g) && Balanced(s'.ledger)
    ensures Inv(s')
  {
    forall u | u in s'.starts
      ensures StartOwns(s', u)
    {
      PublishKeepsStarts(s, s', t, i, g, u);
    }
    forall r | r in s'.ledger.holder
      ensures HolderKnows(s', r)
    {
      PublishKeepsHolders(s, s', t, i, g, r);
    }
    forall j | 0 <= j < |s'.slots|
      ensures SlotOwns(s', j)
    {
      PublishKeepsSlots(s, s', t, i, g, j);
    }
    forall j | j in s'.threads
      ensures ThreadOwns(s', j)
    {
      PublishKeepsThreads(s, s', t, i, g, j);
    }
  }

  lemma HandOverMap(l: Ledger, g: Stage, i: nat)
    requires g.AtPublish? && g.stack != g.readEnd && g.stack != g.parg
    requires g.stack in l.holder && g.readEnd in l.holder && g.parg in l.holder
    ensures var l' := Give(Give(l, [g.stack], BySlot(i)), [g.readEnd, g.parg], ByProducer(i));
            && l'.holder.Keys == l.holder.Keys
            && (forall r :: r in l.holder ==> l'.holder[r] == HandedOver(l.holder[r], r, g, i))
  {
  }

  lemma HandOver(l: Ledger, g: Stage, i: nat)
    requires Balanced(l) && g.AtPublish?
    requires forall r :: r == g.stack || r == g.readEnd || r == g.parg ==> r in l.holder && l.holder[r] != Freed
    ensures Balanced(Give(Give(l, [g.stack], BySlot(i)), [g.readEnd, g.parg], ByProducer(i)))
  {
    var m := Give(l, [g.stack], BySlot(i));
  }

  lemma PublishInstalls(s: Sys, t: Tid)
    requires Enabled(s, DoPublish(t)) && s.slots[s.starts[t].index].stack == 0
    ensures Installs(s, AfterPublish(s, t), t, s.starts[t].index, s.starts[t].stage)
  {
  }

  lemma AfterPublishPublishes(s: Sys, t: Tid)
    requires Inv(s) && Enabled(s, DoPublish(t)) && s.slots[s.starts[t].index].stack == 0 && s.starts[t].index !in s.hist.published
    ensures Publishes(s, AfterPublish(s, t), t, s.starts[t].index, s.starts[t].stage)
    ensures Balanced(AfterPublish(s, t).ledger)
  {
    PublishInstalls(s, t);
    PublisherOwns(s, t);
    HandOver(s.ledger, s.starts[t].stage, s.starts[t].index);
    HandOverMap(s.ledger, s.starts[t].stage, s.starts[t].index);
  }

  lemma PublishKeepsInv(s: Sys, t: Tid)
    requires SI.Inv(s) && Inv(s) && Enabled(s, DoPublish(t))
    ensures Inv(AfterPublish(s, t))
  {
    assert SI.StartMatches(s, t) && SI.SlotMatches(s, s.starts[t].index);
    AfterPublishPublishes(s, t);
    PublishKeeps(s, AfterPublish(s, t), t, s.starts[t].index, s.starts[t].stage);
  }

  /** The reaper frees the stack of slot `i` and forgets it. */
  ghost predicate Frees(s: Sys, s': Sys, i: nat, stack: Resource) {
    && i < |s.slots| && stack == s.slots[i].stack != 0
    && |s'.slots| == |s.slots| && s'.slots[i].stack == 0
    && (forall j :: 0 <= j < |s.slots| && j != i ==> s'.slots[j].stack == s.slots[j].stack)
    && s'.starts.Keys == s.starts.Keys && (forall u :: u in s.starts ==> SameHold(s.starts[u], s'.starts[u]))
    && s'.ledger == Release(s.ledger, [stack]) && s'.threads == s.threads && s'.hist.published == s.hist.published
  }

  lemma FreeKeepsStart(s: Sys, s': Sys, i: nat, stack: Resource, u: Tid)
    requires Inv(s) && Frees(s, s', i, stack) && u in s'.starts
    ensures StartOwns(s', u)
  {
    assert SlotOwns(s, i);
    assert StartOwns(s, u) && SameHold(s.starts[u], s'.starts[u]);
    forall r | r in s'.starts[u].got
      ensures r in s'.ledger.holder && Accounted(s'.ledger.holder[r], u, s'.starts[u])
    {
      assert Accounted(s.ledger.holder[r], u, s.starts[u]);
    }
  }

  lemma FreeKeepsHolder(s: Sys, s': Sys, i: nat, stack: Resource, r: Resource)
    requires Inv(s) && Frees(s, s', i, stack) && r in s'.ledger.holder
    ensures HolderKnows(s', r)
  {
    assert SlotOwns(s, i);
    assert HolderKnows(s, r);
  }

  lemma RecordKeeps(s: Sys, s': Sys, i: nat, stack: Resource)
    requires Inv(s) && Frees(s, s', i, stack)
    ensures Inv(s')
  {
    assert SlotOwns(s, i);
    ReleaseKeepsBalance(s.ledger, [stack]);
    forall u | u in s'.starts
      ensures StartOwns(s', u)
    {
      FreeKeepsStart(s, s', i, stack, u);
    }
    forall r | r in s'.ledger.holder
      ensures HolderKnows(s', r)
    {
      FreeKeepsHolder(s, s', i, stack, r);
    }
    forall j | 0 <= j < |s'.slots|
      ensures SlotOwns(s', j)
    {
      assert SlotOwns(s, j);
    }
    forall j | j in s'.threads
      ensures ThreadOwns(s', j)
    {
      assert ThreadOwns(s, j);
    }
  }

  lemma WakingHoldsSame(starts: map<Tid, Start>, i: int)
    ensures WakeAll(starts, i).Keys == starts.Keys
    ensures forall u :: u in starts ==> SameHold(starts[u], WakeAll(starts, i)[u])
  {
  }

  lemma RecordFrees(s: Sys, i: nat)
    requires s.reaper.Reaped? && i == FirstByPid(s.slots, s.reaper.child.pid, 0) && s.slots[i].stack != 0
    ensures Frees(s, AfterRecord(s), i, s.slots[i].stack)
  {
  }

  lemma RecordMovesNothing(s: Sys, i: int)
    requires s.reaper.Reaped? && i == FirstByPid(s.slots, s.reaper.child.pid, 0) && (i >= 0 ==> s.slots[i].stack == 0)
    ensures NothingMoves(s, AfterRecord(s))
  {
    WakingHoldsSame(s.starts, i);
  }

  lemma RecordKeepsInv(s: Sys)
    requires Inv(s) && s.reaper.Reaped?
    ensures Inv(AfterRecord(s))
  {
    var i := FirstByPid(s.slots, s.reaper.child.pid, 0);
    if i >= 0 && s.slots[i].stack != 0 {
      RecordFrees(s, i);
      RecordKeeps(s, AfterRecord(s), i, s.slots[i].stack);
    } else {
      RecordMovesNothing(s, i);
      StillKeepsInv(s, AfterRecord(s));
    }
  }

  /** The thread of slot `i` releases `drop` and keeps the rest. */
  ghost predicate Lets(s: Sys, s': Sys, i: nat, drop: Resource) {
    && s' == s.(threads := s'.threads, ledger := Release(s.ledger, [drop]))
    && i in s.threads && drop in Keeps(s.threads[i])
    && s'.threads.Keys == s.threads.Keys && (forall j :: j in s.threads && j != i ==> s'.threads[j] == s.threads[j])
    && Distinct(Keeps(s'.threads[i]))
    && (forall r :: r in Keeps(s'.threads[i]) <==> r in Keeps(s.threads[i]) && r != drop)
  }

  lemma LetKeepsStart(s: Sys, s': Sys, i: nat, drop: Resource, u: Tid)
    requires Inv(s) && Lets(s, s', i, drop) && u in s'.starts
    ensures StartOwns(s', u)
  {
    assert ThreadOwns(s, i) && StartOwns(s, u);
  }

  lemma LetKeepsSlot(s: Sys, s': Sys, i: nat, drop: Resource, j: nat)
    requires Inv(s) && Lets(s, s', i, drop) && j < |s'.slots|
    ensures SlotOwns(s', j)
  {
    assert ThreadOwns(s, i) && SlotOwns(s, j);
  }

  lemma LetKeeps(s: Sys, s': Sys, i: nat, drop: Resource)
    requires Inv(s) && Lets(s, s', i, drop)
    ensures Inv(s')
  {
    assert ThreadOwns(s, i);
    ReleaseKeepsBalance(s.ledger, [drop]);
    forall u | u in s'.starts
      ensures StartOwns(s', u)
    {
      LetKeepsStart(s, s', i, drop, u);
    }
    forall r | r in s'.ledger.holder
      ensures HolderKnows(s', r)
    {
      assert HolderKnows(s, r);
    }
    forall j | 0 <= j < |s'.slots|
      ensures SlotOwns(s', j)
    {
      LetKeepsSlot(s, s', i, drop, j);
    }
    forall j | j in s'.threads
      ensures ThreadOwns(s', j)
    {
      assert ThreadOwns(s, j);
    }
  }

  lemma BeginLets(s: Sys, i: nat)
    requires i in s.threads && s.threads[i].Begun? && Distinct(Keeps(s.threads[i]))
    ensures Lets(s, AfterThread(s, i), i, s.threads[i].parg)
  {
    assert Keeps(s.threads[i])[0] != Keeps(s.threads[i])[1];
  }

  lemma ThreadKeepsInv(s: Sys, i: nat)
    requires Inv(s) && i in s.threads && !s.threads[i].Ended?
    ensures Inv(AfterThread(s, i))
  {
    assert ThreadOwns(s, i);
    if s.threads[i].Begun? {
      BeginLets(s, i);
      LetKeeps(s, AfterThread(s, i), i, s.threads[i].parg);
    } else {
      LetKeeps(s, AfterThread(s, i), i, s.threads[i].readEnd);
    }
  }

  lemma StopMovesNothing(s: Sys, l: Label)
    requires Enabled(s, l) && (l.DoStop? || l.DoStopAll?)
    ensures NothingMoves(s, Next(s, l))
  {
    SI.StopOnlyStops(s, l);
  }

  lemma StepMovesNothing(s: Sys, l: Label)
    requires SI.Inv(s) && Enabled(s, l) && !l.Local? && !l.DoPublish? && !l.DoRecord? && !l.ThreadBegins? && !l.ThreadEnds?
    ensures NothingMoves(s, Next(s, l))
  {
    match l
    case DoClaim(t, req, run, now) => ClaimMovesNothing(s, t, req, run, now);
    case DoUnclaim(t) => UnclaimMovesNothing(s, t);
    case RunCheck(t) => RunCheckMovesNothing(s, t);
    case Spurious(t) => MoveMovesNothing(s, t, Up(s.starts[t].stage.child));
    case DoStop(_, _) => StopMovesNothing(s, l);
    case DoStopAll => StopMovesNothing(s, l);
    case _ => SI.QuietChangesNothing(s, l);
  }

  lemma OtherKeepsInv(s: Sys, l: Label)
    requires SI.Inv(s) && Inv(s) && Enabled(s, l)
    requires !l.Local? && !l.DoPublish? && !l.DoRecord? && !l.ThreadBegins? && !l.ThreadEnds?
    ensures Inv(Next(s, l))
  {
    StepMovesNothing(s, l);
    StillKeepsInv(s, Next(s, l));
  }

  lemma StepKeepsInv(s: Sys, l: Label)
    requires SI.Inv(s) && Inv(s) && Enabled(s, l)
    ensures Inv(Next(s, l))
  {
    match l
    case Local(t, a) => LocalKeepsInv(s, t, a);
    case DoPublish(t) => PublishKeepsInv(s, t);
    case DoRecord => RecordKeepsInv(s);
    case ThreadBegins(i) => ThreadKeepsInv(s, i);
    case ThreadEnds(i) => ThreadKeepsInv(s, i);
    case _ => OtherKeepsInv(s, l);
  }

  lemma {:induction false} InvHolds(states: seq<Sys>, labels: seq<Label>, k: nat)
    requires IsRun(states, labels) && k < |states|
    ensures Inv(states[k])
  {
    if k > 0 {
      InvHolds(states, labels, k - 1);
      SI.InvHolds(states, labels, k - 1);
      assert StepAt(states, labels, k - 1);
      StepKeepsInv(states[k - 1], labels[k - 1]);
    }
  }

  // ---------------------------------------------------------------------------------------
  // Theorems

  /** In no run is anything closed or freed twice, nor freed while someone still answers for it. */
  lemma NothingFreedTwice(states: seq<Sys>, labels: seq<Label>, k: nat, r: Resource)
    requires IsRun(states, labels) && k < |states|
    ensures states[k].ledger.freed[r] <= 1
    ensures states[k].ledger.freed[r] == 1 <==> r in states[k].ledger.holder && states[k].ledger.holder[r] == Freed
  {
    InvHolds(states, labels, k);
  }

  /** A start that failed, at whichever step, has released each thing it ever acquired
      exactly once by the time it gives its slot back. */
  lemma FailedStartReleasesAll(states: seq<Sys>, labels: seq<Label>, k: nat, t: Tid, r: Resource)
    requires IsRun(states, labels) && k < |states| && t in states[k].starts
    requires states[k].starts[t].stage.AtUnclaim? || states[k].starts[t].stage.Failed?
    requires r in states[k].starts[t].got
    ensures states[k].ledger.freed[r] == 1
  {
    InvHolds(states, labels, k);
    assert StartOwns(states[k], t);
    assert HolderKnows(states[k], r);
  }

  /** ... and giving it back changes nothing but the `used` mark of that one slot. */
  lemma FailedStartTouchesOnlyItsSlot(states: seq<Sys>, labels: seq<Label>, k: nat, t: Tid)
    requires IsRun(states, labels) && StepAt(states, labels, k) && labels[k] == DoUnclaim(t)
    ensures states[k].starts[t].index < |states[k].slots|
    ensures var i := states[k].starts[t].index;
            && states[k].slots[i].used && states[k].slots[i].state == Starting
            && i in states[k].hist.claimer && states[k].hist.claimer[i] == t
            && states[k + 1].slots == states[k].slots[i := states[k].slots[i].(used := false)]
  {
    SI.InvHolds(states, labels, k);
    assert SI.StartMatches(states[k], t);
    assert SI.SlotMatches(states[k], states[k].starts[t].index);
  }

  /** What a successful start acquired has been released once, or is the stack of its own slot,
      or is held by the producer thread of that slot, which will release it. */
  lemma SuccessfulStartLeaksNothing(states: seq<Sys>, labels: seq<Label>, k: nat, t: Tid, r: Resource)
    requires IsRun(states, labels) && k < |states| && t in states[k].starts
    requires SI.OnSlot(states[k].starts[t].stage) && r in states[k].starts[t].got
    ensures var s, i := states[k], states[k].starts[t].index;
            || s.ledger.freed[r] == 1
            || (s.ledger.freed[r] == 0 && i < |s.slots| && s.slots[i].stack == r)
            || (s.ledger.freed[r] == 0 && i in s.threads && r in Keeps(s.threads[i]))
  {
    InvHolds(states, labels, k);
    assert StartOwns(states[k], t);
    assert HolderKnows(states[k], r);
  }

  /** Once its container is recorded and its producer thread has ended, nothing it ever
      acquired is left: all of it was released exactly once. */
  lemma FinishedContainerHoldsNothing(states: seq<Sys>, labels: seq<Label>, k: nat, t: Tid, r: Resource)
    requires IsRun(states, labels) && k < |states| && t in states[k].starts
    requires SI.OnSlot(states[k].starts[t].stage) && r in states[k].starts[t].got
    requires var s, i := states[k], states[k].starts[t].index;
             i < |s.slots| && Terminal(s.slots[i].state) && i in s.threads && s.threads[i] == Ended
    ensures states[k].ledger.freed[r] == 1
  {
    InvHolds(states, labels, k);
    StoppedHasNoStack(states, labels, k, t);
    assert StartOwns(states[k], t);
    assert HolderKnows(states[k], r);
  }

  lemma StoppedHasNoStack(states: seq<Sys>, labels: seq<Label>, k: nat, t: Tid)
    requires IsRun(states, labels) && k < |states| && t in states[k].starts && SI.OnSlot(states[k].starts[t].stage)
    requires states[k].starts[t].index < |states[k].slots| && Terminal(states[k].slots[states[k].starts[t].index].state)
    ensures states[k].slots[states[k].starts[t].index].stack == 0
  {
    SI.InvHolds(states, labels, k);
    assert SI.StartMatches(states[k], t) && SI.SlotMatches(states[k], states[k].starts[t].index);
    StackGoneWhenTerminal(states, labels, k, states[k].starts[t].index);
  }

  ghost predicate StackGone(slot: Slot) {
    slot.used && Terminal(slot.state) ==> slot.stack == 0
  }

  lemma StepKeepsStackGone(s: Sys, l: Label, i: nat)
    requires SI.Inv(s) && Enabled(s, l) && i < |s.slots| && StackGone(s.slots[i])
    ensures i < |Next(s, l).slots| && StackGone(Next(s, l).slots[i])
  {
    if !l.DoClaim? {
      SI.StepEvolves(s, l);
      assert SI.Evolves(s.slots[i], Next(s, l).slots[i]);
    }
  }

  /** The reaper frees the stack along with every record it makes. */
  lemma {:induction false} StackGoneWhenTerminal(states: seq<Sys>, labels: seq<Label>, k: nat, i: nat)
    requires IsRun(states, labels) && k < |states| && i < MAX_CONTAINERS
    ensures i < |states[k].slots| && StackGone(states[k].slots[i])
  {
    if k > 0 {
      StackGoneWhenTerminal(states, labels, k - 1, i);
      SI.InvHolds(states, labels, k - 1);
      assert StepAt(states, labels, k - 1);
      StepKeepsStackGone(states[k - 1], labels[k - 1], i);
    }
  }
}
