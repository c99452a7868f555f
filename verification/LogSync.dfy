/** Any number of producers and consumers on one log buffer, interleaved at critical-section
    granularity, with the two condition variables modelled as POSIX defines them (IEEE Std
    1003.1-2017, System Interfaces, chapter 3): `pthread_cond_wait` releases the mutex and
    blocks atomically, `pthread_cond_signal` unblocks at least one blocked thread if there is
    one, `pthread_cond_broadcast` unblocks all, and a wait may return spuriously. */
module LogSync {
  import opened LogQueue

  type Tid = nat

  /** `pushing`/`popping` are the calls in progress.  Of these threads some are blocked in
      `pthread_cond_wait` (`asleep`), some were unblocked and have not retaken the mutex yet
      (`woken`), and the rest have not taken the mutex for the first time. */
  datatype Sync = Sync(
    queue: Queue,
    pushing: map<Tid, Entry>, pushAsleep: set<Tid>, pushWoken: set<Tid>,
    popping: set<Tid>, popAsleep: set<Tid>, popWoken: set<Tid>,
    accepted: seq<Entry>,  // everything ever pushed
    handed: seq<Entry>     // everything ever popped
  )

  /** `wakes` is the kernel's choice of whom a signal unblocks. */
  datatype Label =
    | CallPush(t: Tid, e: Entry)
    | RunPush(t: Tid, wakes: set<Tid>)
    | CallPop(t: Tid)
    | RunPop(t: Tid, wakes: set<Tid>)
    | SpuriousPush(t: Tid)
    | SpuriousPop(t: Tid)
    | CallShutdown

  const INIT: Sync := Sync(Queue([], false), map[], {}, {}, {}, {}, {}, [], [])

  ghost predicate SignalChoice(wakes: set<Tid>, asleep: set<Tid>) {
    wakes <= asleep && (asleep != {} ==> wakes != {})
  }

  ghost predicate Enabled(s: Sync, l: Label) {
    match l
    case CallPush(t, _) => t !in s.pushing
    case RunPush(t, wakes) => t in s.pushing && t !in s.pushAsleep && SignalChoice(wakes, s.popAsleep)
    case CallPop(t) => t !in s.popping
    case RunPop(t, wakes) => t in s.popping && t !in s.popAsleep && SignalChoice(wakes, s.pushAsleep)
    case SpuriousPush(t) => t in s.pushAsleep
    case SpuriousPop(t) => t in s.popAsleep
    case CallShutdown => true
  }

  ghost function AfterPush(s: Sync, t: Tid, wakes: set<Tid>): Sync
    requires Enabled(s, RunPush(t, wakes))
  {
    var (outcome, queue) := Push(s.queue, s.pushing[t]);
    match outcome
    case PushWaits => s.(pushAsleep := s.pushAsleep + {t}, pushWoken := s.pushWoken - {t})
    case Refused => s.(pushing := s.pushing - {t}, pushWoken := s.pushWoken - {t})
    case Accepted =>
      s.(queue := queue, accepted := s.accepted + [s.pushing[t]],
         pushing := s.pushing - {t}, pushWoken := s.pushWoken - {t},
         popAsleep := s.popAsleep - wakes, popWoken := s.popWoken + wakes)
  }

  ghost function AfterPop(s: Sync, t: Tid, wakes: set<Tid>): Sync
    requires Enabled(s, RunPop(t, wakes))
  {
    var (outcome, queue) := Pop(s.queue);
    match outcome
    case PopWaits => s.(popAsleep := s.popAsleep + {t}, popWoken := s.popWoken - {t})
    case Closed => s.(popping := s.popping - {t}, popWoken := s.popWoken - {t})
    case Popped(e) =>
      s.(queue := queue, handed := s.handed + [e],
         popping := s.popping - {t}, popWoken := s.popWoken - {t},
         pushAsleep := s.pushAsleep - wakes, pushWoken := s.pushWoken + wakes)
  }

  ghost function Next(s: Sync, l: Label): Sync
    requires Enabled(s, l)
  {
    match l
    case CallPush(t, e) => s.(pushing := s.pushing[t := e])
    case RunPush(t, wakes) => AfterPush(s, t, wakes)
    case CallPop(t) => s.(popping := s.popping + {t})
    case RunPop(t, wakes) => AfterPop(s, t, wakes)
    case SpuriousPush(t) => s.(pushAsleep := s.pushAsleep - {t}, pushWoken := s.pushWoken + {t})
    case SpuriousPop(t) => s.(popAsleep := s.popAsleep - {t}, popWoken := s.popWoken + {t})
    case CallShutdown =>
      s.(queue := Shutdown(s.queue),
         pushAsleep := {}, pushWoken := s.pushWoken + s.pushAsleep,
         popAsleep := {}, popWoken := s.popWoken + s.popAsleep)
  }

  /** A run: `states[0]` is the initial state and label `k` leads from state `k` to `k + 1`. */
  ghost predicate IsRun(states: seq<Sync>, labels: seq<Label>) {
    && |states| == |labels| + 1
    && states[0] == INIT
    && forall k {:trigger labels[k]} :: 0 <= k < |labels| ==> Enabled(states[k], labels[k]) && states[k + 1] == Next(states[k], labels[k])
  }

  // ---------------------------------------------------------------------------------------
  // The invariant

  ghost predicate Shape(s: Sync) {
    && |s.queue.items| <= CAPACITY
    && s.pushAsleep + s.pushWoken <= s.pushing.Keys && s.pushAsleep !! s.pushWoken
    && s.popAsleep + s.popWoken <= s.popping && s.popAsleep !! s.popWoken
  }

  /** FIFO: what was handed out, then what is buffered, is what was accepted. */
  ghost predicate Fifo(s: Sync) {
    s.accepted == s.handed + s.queue.items
  }

  /** While a producer sleeps, at least as many producers are on their way as there are free
      slots; while a consumer sleeps, at least as many consumers as there are entries. */
  ghost predicate NoLostWakeup(s: Sync) {
    && (s.pushAsleep != {} ==> |s.queue.items| + |s.pushWoken| >= CAPACITY)
    && (s.popAsleep != {} ==> |s.queue.items| <= |s.popWoken|)
  }

  ghost predicate Inv(s: Sync) {
    && Shape(s) && Fifo(s) && NoLostWakeup(s)
    && NobodySleepsAfterShutdown(s)
  }

  ghost predicate NobodySleepsAfterShutdown(s: Sync) {
    s.queue.shutdown ==> s.pushAsleep == {} && s.popAsleep == {}
  }

  lemma DisjointUnionSize<T>(a: set<T>, b: set<T>)
    requires a !! b
    ensures |a + b| == |a| + |b|
  {
  }

  lemma SignalGains(woken: set<Tid>, asleep: set<Tid>, wakes: set<Tid>)
    requires woken !! asleep && SignalChoice(wakes, asleep)
    ensures |woken + wakes| >= |woken| + (if asleep == {} then 0 else 1)
  {
    DisjointUnionSize(woken, wakes);
    if wakes != {} {
      var t :| t in wakes;
      assert |wakes| == |wakes - {t}| + 1;
    }
  }

  lemma RemoveCosts(woken: set<Tid>, t: Tid)
    ensures |woken - {t}| >= |woken| - 1
  {
    if t in woken {
      assert woken == (woken - {t}) + {t};
    } else {
      assert woken == woken - {t};
    }
  }

  lemma StepKeepsShape(s: Sync, l: Label)
    requires Shape(s) && Enabled(s, l)
    ensures Shape(Next(s, l))
  {
  }

  lemma StepKeepsFifo(s: Sync, l: Label)
    requires Fifo(s) && Enabled(s, l)
    ensures Fifo(Next(s, l))
  {
    var s' := Next(s, l);
    assert s'.accepted == s'.handed + s'.queue.items;
  }

  lemma PushKeepsWakeups(s: Sync, t: Tid, wakes: set<Tid>)
    requires Shape(s) && NoLostWakeup(s) && NobodySleepsAfterShutdown(s) && Enabled(s, RunPush(t, wakes))
    ensures NoLostWakeup(AfterPush(s, t, wakes))
  {
    RemoveCosts(s.pushWoken, t);
    SignalGains(s.popWoken, s.popAsleep, wakes);
  }

  lemma PopKeepsWakeups(s: Sync, t: Tid, wakes: set<Tid>)
    requires Shape(s) && NoLostWakeup(s) && NobodySleepsAfterShutdown(s) && Enabled(s, RunPop(t, wakes))
    ensures NoLostWakeup(AfterPop(s, t, wakes))
  {
    RemoveCosts(s.popWoken, t);
    SignalGains(s.pushWoken, s.pushAsleep, wakes);
  }

  lemma StepKeepsWakeups(s: Sync, l: Label)
    requires Shape(s) && NoLostWakeup(s) && NobodySleepsAfterShutdown(s) && Enabled(s, l)
    ensures NoLostWakeup(Next(s, l))
  {
    match l
    case RunPush(t, wakes) => PushKeepsWakeups(s, t, wakes);
    case RunPop(t, wakes) => PopKeepsWakeups(s, t, wakes);
    case SpuriousPush(t) => DisjointUnionSize(s.pushWoken, {t});
    case SpuriousPop(t) => DisjointUnionSize(s.popWoken, {t});
    case _ =>
  }

  lemma StepKeepsSleepers(s: Sync, l: Label)
    requires NobodySleepsAfterShutdown(s) && Enabled(s, l)
    ensures NobodySleepsAfterShutdown(Next(s, l))
  {
  }

  lemma StepKeepsInv(s: Sync, l: Label)
    requires Inv(s) && Enabled(s, l)
    ensures Inv(Next(s, l))
  {
    StepKeepsShape(s, l);
    StepKeepsFifo(s, l);
    StepKeepsWakeups(s, l);
    StepKeepsSleepers(s, l);
  }

  lemma {:induction false} InvHolds(states: seq<Sync>, labels: seq<Label>, k: nat)
    requires IsRun(states, labels) && k < |states|
    ensures Inv(states[k])
  {
    if k > 0 {
      InvHolds(states, labels, k - 1);
      StepKeepsInv(states[k - 1], labels[k - 1]);
    }
  }

  // ---------------------------------------------------------------------------------------
  // What the invariant means

  /** Thread `t` is awake inside push, and the pass it will make returns. */
  ghost predicate PushCanReturn(s: Sync, t: Tid) {
    t in s.pushing && t !in s.pushAsleep && Push(s.queue, s.pushing[t]).0 != PushWaits
  }

  ghost predicate PopCanReturn(s: Sync, t: Tid) {
    t in s.popping && t !in s.popAsleep && Pop(s.queue).0 != PopWaits
  }

  /** In every reachable state some pending push can return exactly when one is pending and
      the buffer has room or is shut down, and likewise for pops: no wakeup is ever missing. */
  lemma NoCallIsStranded(states: seq<Sync>, labels: seq<Label>, k: nat)
    requires IsRun(states, labels) && k < |states|
    ensures var s := states[k];
            (exists t :: PushCanReturn(s, t)) <==>
            s.pushing != map[] && (|s.queue.items| < CAPACITY || s.queue.shutdown)
    ensures var s := states[k];
            (exists t :: PopCanReturn(s, t)) <==>
            s.popping != {} && (|s.queue.items| > 0 || s.queue.shutdown)
  {
    var s := states[k];
    InvHolds(states, labels, k);
    if s.pushing != map[] && (|s.queue.items| < CAPACITY || s.queue.shutdown) {
      var t :| t in s.pushing;
      if t in s.pushAsleep {
        t :| t in s.pushWoken;
      }
      assert PushCanReturn(s, t);
    }
    if s.popping != {} && (|s.queue.items| > 0 || s.queue.shutdown) {
      var t :| t in s.popping;
      if t in s.popAsleep {
        t :| t in s.popWoken;
      }
      assert PopCanReturn(s, t);
    }
  }

  /** No deadlock: with a push and a pop both pending, one of the pending calls can return. */
  lemma NoDeadlock(states: seq<Sync>, labels: seq<Label>, k: nat)
    requires IsRun(states, labels) && k < |states|
    requires states[k].pushing != map[] && states[k].popping != {}
    ensures exists t :: PushCanReturn(states[k], t) || PopCanReturn(states[k], t)
    ensures states[k].pushAsleep != {} && states[k].popAsleep != {} ==>
              states[k].pushWoken != {} || states[k].popWoken != {}
  {
    NoCallIsStranded(states, labels, k);
    InvHolds(states, labels, k);
    var s := states[k];
    if exists t :: PushCanReturn(s, t) {
      var t :| PushCanReturn(s, t);
      assert PushCanReturn(s, t) || PopCanReturn(s, t);
    } else {
      var t :| PopCanReturn(s, t);
      assert PushCanReturn(s, t) || PopCanReturn(s, t);
    }
  }

  lemma AfterShutdown(s: Sync, l: Label)
    requires s.queue.shutdown && Enabled(s, l)
    ensures var s' := Next(s, l);
            s'.queue.shutdown && s'.accepted == s.accepted && s.handed <= s'.handed
  {
  }

  /** Once shutdown is called no thread is asleep or ever sleeps again, nothing more is
      accepted, what is handed out only grows, and every pass returns. */
  lemma {:induction false} ShutdownIsFinal(states: seq<Sync>, labels: seq<Label>, j: nat, k: nat)
    requires IsRun(states, labels) && j <= k < |states|
    requires states[j].queue.shutdown
    ensures states[k].queue.shutdown
    ensures states[k].pushAsleep == {} && states[k].popAsleep == {}
    ensures states[k].accepted == states[j].accepted
    ensures states[j].handed <= states[k].handed
    ensures |states[k].queue.items| + |states[k].handed| == |states[j].queue.items| + |states[j].handed|
    decreases k
  {
    InvHolds(states, labels, k);
    InvHolds(states, labels, j);
    if j < k {
      ShutdownIsFinal(states, labels, j, k - 1);
      AfterShutdown(states[k - 1], labels[k - 1]);
    }
  }

  /** A consumer is told to exit (`log_buffer_pop` returns -1) only when every accepted entry
      has been handed out, in order, and from then on nothing is ever left behind. */
  lemma ClosedMeansDrained(states: seq<Sync>, labels: seq<Label>, j: nat, k: nat)
    requires IsRun(states, labels) && j <= k < |states|
    requires Pop(states[j].queue).0 == Closed
    ensures states[j].handed == states[j].accepted
    ensures states[k].handed == states[k].accepted == states[j].accepted
    ensures Pop(states[k].queue).0 == Closed
  {
    InvHolds(states, labels, j);
    InvHolds(states, labels, k);
    ShutdownIsFinal(states, labels, j, k);
  }

  /** After shutdown a pass of a pop call always ends the call: it takes exactly one entry off
      the queue, or it reports the queue closed.  A pass of a push call always ends it refused. */
  lemma DrainStep(states: seq<Sync>, labels: seq<Label>, k: nat)
    requires IsRun(states, labels) && k < |labels| && states[k].queue.shutdown
    ensures labels[k].RunPop? && states[k].queue.items != [] ==>
              |states[k + 1].queue.items| == |states[k].queue.items| - 1 &&
              labels[k].t !in states[k + 1].popping
    ensures labels[k].RunPop? && states[k].queue.items == [] ==>
              labels[k].t !in states[k + 1].popping && states[k + 1].handed == states[k + 1].accepted
    ensures labels[k].RunPush? ==>
              labels[k].t !in states[k + 1].pushing && states[k + 1].accepted == states[k].accepted
  {
    InvHolds(states, labels, k);
    InvHolds(states, labels, k + 1);
  }
}
