/** Whole runs of the monitor: any sequence of registrations, unregistrations and passes. */
module MonitorRuns {
  import opened CTypes
  import opened MonitorPolicy

  datatype Op =
    | DoRegister(pid: int, soft: nat, hard: nat, memory: bool)
    | DoUnregister(pid: int)
    | DoTick(looks: Looks)

  ghost function Step(es: seq<Entry>, op: Op): seq<Entry> {
    match op
    case DoRegister(pid, soft, hard, memory) => Register(es, pid, soft, hard, memory).1
    case DoUnregister(pid) => Unregister(es, pid).1
    case DoTick(looks) => TickEntries(es, looks)
  }

  ghost function Emits(es: seq<Entry>, op: Op): seq<Event> {
    if op.DoTick? then TickEvents(es, op.looks) else []
  }

  /** The list after a run from module load. */
  ghost function After(ops: seq<Op>): seq<Entry> {
    if ops == [] then [] else Step(After(ops[..|ops| - 1]), ops[|ops| - 1])
  }

  /** The events of operation `k` of a run. */
  ghost function EventsAt(ops: seq<Op>, k: nat): seq<Event>
    requires k < |ops|
  {
    Emits(After(ops[..k]), ops[k])
  }

  // ---------------------------------------------------------------------------------------
  // One pid by itself

  ghost function TrackStep(t: Tracking, op: Op, p: int): Tracking {
    match op
    case DoRegister(pid, soft, hard, memory) =>
      if pid == p && p > 0 && hard > 0 && (t.Tracked? || memory) then Tracked(soft, hard, false) else t
    case DoUnregister(pid) => if pid == p then Untracked else t
    case DoTick(looks) => TickTracking(t, looks, p)
  }

  ghost function Track(ops: seq<Op>, p: int): Tracking {
    if ops == [] then Untracked else TrackStep(Track(ops[..|ops| - 1], p), ops[|ops| - 1], p)
  }

  lemma StepRefines(es: seq<Entry>, op: Op, p: int)
    requires WellFormed(es)
    ensures WellFormed(Step(es, op))
    ensures Lookup(Step(es, op), p) == TrackStep(Lookup(es, p), op, p)
  {
    match op
    case DoRegister(pid, soft, hard, memory) => RegisterRefines(es, pid, soft, hard, memory, p);
    case DoUnregister(pid) => UnregisterRefines(es, pid, p);
    case DoTick(looks) => TickRefines(es, looks, p);
  }

  /** Over every run the shared list is a map of independent cells, one per pid: pids stay
      unique and positive, hard limits nonzero, and no operation on one pid affects another. */
  lemma {:induction false} ListIsAMap(ops: seq<Op>, p: int)
    ensures WellFormed(After(ops))
    ensures Lookup(After(ops), p) == Track(ops, p)
  {
    if ops != [] {
      var init := ops[..|ops| - 1];
      ListIsAMap(init, p);
      StepRefines(After(init), ops[|ops| - 1], p);
    }
  }

  lemma EventsRefine(ops: seq<Op>, k: nat, p: int)
    requires k < |ops|
    ensures Of(p, EventsAt(ops, k)) == if ops[k].DoTick? then TickReport(Track(ops[..k], p), ops[k].looks, p) else []
  {
    ListIsAMap(ops[..k], p);
    if ops[k].DoTick? {
      TickRefines(After(ops[..k]), ops[k].looks, p);
    }
  }

  lemma TrackNext(ops: seq<Op>, k: nat, p: int)
    requires k < |ops|
    ensures Track(ops[..k + 1], p) == TrackStep(Track(ops[..k], p), ops[k], p)
  {
    assert ops[..k + 1][..k] == ops[..k];
  }

  // ---------------------------------------------------------------------------------------
  // Registration epochs

  /** Operation `a` registers `p` and is accepted. */
  ghost predicate Accepts(ops: seq<Op>, p: int, a: nat)
    requires a < |ops|
  {
    ops[a].DoRegister? && ops[a].pid == p && p > 0 && ops[a].hard > 0 && (Track(ops[..a], p).Tracked? || ops[a].memory)
  }

  /** Accepted at `a`, and neither registered again nor dropped before `b`. */
  ghost predicate Epoch(ops: seq<Op>, p: int, a: nat, b: nat) {
    && a < b <= |ops| && Accepts(ops, p, a)
    && (forall k :: a < k < b ==> Keeps(ops, p, k))
  }

  /** Operation `k` neither registers `p` anew nor drops it. */
  ghost predicate Keeps(ops: seq<Op>, p: int, k: nat)
    requires k < |ops|
  {
    !Accepts(ops, p, k) && Track(ops[..k + 1], p).Tracked?
  }

  /** Some pass in the epoch found `p` over its soft limit. */
  ghost predicate Crossed(ops: seq<Op>, p: int, a: nat, b: nat, soft: nat) {
    exists k :: a <= k < b <= |ops| && ops[k].DoTick? && OverSoft(ops[k].looks, p, soft)
  }

  /** Number of warnings, or of kills. */
  ghost function Count(events: seq<Event>, kills: bool): nat {
    if events == [] then 0
    else Count(events[..|events| - 1], kills) + Weight(events[|events| - 1], kills)
  }

  ghost function Weight(e: Event, kills: bool): nat {
    if (if kills then e.Killed? else e.Warned?) then 1 else 0
  }

  lemma {:induction false} CountConcat(a: seq<Event>, b: seq<Event>, kills: bool)
    ensures Count(a + b, kills) == Count(a, kills) + Count(b, kills)
    decreases |b|
  {
    if b == [] {
      assert a + b == a;
    } else {
      CountConcat(a, b[..|b| - 1], kills);
      assert (a + b)[..|a + b| - 1] == a + b[..|b| - 1];
    }
  }

  /** How often `p` is warned about by operations `a` to `b - 1`. */
  ghost function Warnings(ops: seq<Op>, p: int, a: nat, b: nat): nat
    requires a <= b <= |ops|
    decreases b
  {
    if a == b then 0 else Warnings(ops, p, a, b - 1) + Count(Of(p, EventsAt(ops, b - 1)), false)
  }

  /** A pass warns about a pid at most once and kills it at most once. */
  lemma ReportCounts(t: Tracking, looks: Looks, p: int)
    ensures Count(TickReport(t, looks, p), false) ==
            if t.Tracked? && !t.warned && OverSoft(looks, p, t.soft) then 1 else 0
    ensures Count(TickReport(t, looks, p), true) ==
            if t.Tracked? && OverHard(looks, p, t.hard) then 1 else 0
  {
    if t.Tracked? && LookAt(looks, p).Pages? {
      var rss := RssMib(LookAt(looks, p).n);
      var a := if !t.warned && rss > t.soft then [Warned(p, rss, t.soft)] else [];
      var b := if rss > t.hard then [Killed(p, rss, t.hard)] else [];
      assert TickReport(t, looks, p) == a + b;
      CountConcat(a, b, false);
      CountConcat(a, b, true);
    }
  }

  /** One operation inside an epoch. */
  lemma EpochStep(ops: seq<Op>, p: int, k: nat, soft: nat, hard: nat, warned: bool)
    requires k < |ops| && Keeps(ops, p, k)
    requires Track(ops[..k], p) == Tracked(soft, hard, warned)
    ensures var over := ops[k].DoTick? && OverSoft(ops[k].looks, p, soft);
            && Track(ops[..k + 1], p) == Tracked(soft, hard, warned || over)
            && Count(Of(p, EventsAt(ops, k)), false) == if over && !warned then 1 else 0
  {
    TrackNext(ops, k, p);
    EventsRefine(ops, k, p);
    if ops[k].DoTick? {
      ReportCounts(Track(ops[..k], p), ops[k].looks, p);
    }
  }

  lemma CrossedNext(ops: seq<Op>, p: int, a: nat, b: nat, soft: nat)
    requires a <= b < |ops|
    ensures Crossed(ops, p, a, b + 1, soft) <==>
            Crossed(ops, p, a, b, soft) || (ops[b].DoTick? && OverSoft(ops[b].looks, p, soft))
  {
    if Crossed(ops, p, a, b, soft) {
      var k :| a <= k < b && ops[k].DoTick? && OverSoft(ops[k].looks, p, soft);
      assert a <= k < b + 1 <= |ops|;
    }
  }

  lemma EpochOpens(ops: seq<Op>, p: int, a: nat)
    requires a < |ops| && Accepts(ops, p, a)
    ensures Track(ops[..a + 1], p) == Tracked(ops[a].soft, ops[a].hard, false)
    ensures Warnings(ops, p, a, a + 1) == 0 && !Crossed(ops, p, a, a + 1, ops[a].soft)
  {
    TrackNext(ops, a, p);
    EventsRefine(ops, a, p);
    assert Warnings(ops, p, a, a) == 0;
  }

  ghost predicate WarnedOnce(ops: seq<Op>, p: int, a: nat, b: nat, crossed: bool)
    requires a <= b <= |ops| && a < |ops| && ops[a].DoRegister?
  {
    Track(ops[..b], p) == Tracked(ops[a].soft, ops[a].hard, crossed) && Warnings(ops, p, a, b) == if crossed then 1 else 0
  }

  lemma EpochGoesOn(ops: seq<Op>, p: int, a: nat, b: nat, crossed: bool)
    requires a < b < |ops| && ops[a].DoRegister? && Keeps(ops, p, b) && WarnedOnce(ops, p, a, b, crossed)
    ensures WarnedOnce(ops, p, a, b + 1, crossed || (ops[b].DoTick? && OverSoft(ops[b].looks, p, ops[a].soft)))
  {
    EpochStep(ops, p, b, ops[a].soft, ops[a].hard, crossed);
  }

  lemma {:induction false} EpochWarnsOnce(ops: seq<Op>, p: int, a: nat, b: nat)
    requires Epoch(ops, p, a, b)
    ensures WarnedOnce(ops, p, a, b, Crossed(ops, p, a, b, ops[a].soft))
    decreases b
  {
    if b == a + 1 {
      EpochOpens(ops, p, a);
    } else {
      EpochWarnsOnce(ops, p, a, b - 1);
      EpochStepsOn(ops, p, a, b - 1);
    }
  }

  lemma EpochStepsOn(ops: seq<Op>, p: int, a: nat, b: nat)
    requires a < b < |ops| && ops[a].DoRegister? && Keeps(ops, p, b)
    requires WarnedOnce(ops, p, a, b, Crossed(ops, p, a, b, ops[a].soft))
    ensures WarnedOnce(ops, p, a, b + 1, Crossed(ops, p, a, b + 1, ops[a].soft))
  {
    CrossedNext(ops, p, a, b, ops[a].soft);
    EpochGoesOn(ops, p, a, b, Crossed(ops, p, a, b, ops[a].soft));
  }

  /** Throughout an epoch the list carries the limits of that registration for the pid, and
      exactly one soft-limit warning has been issued if some pass found it over, else none. */
  lemma OneWarningPerEpoch(ops: seq<Op>, p: int, a: nat, b: nat)
    requires Epoch(ops, p, a, b)
    ensures var crossed := Crossed(ops, p, a, b, ops[a].soft);
            && Lookup(After(ops[..b]), p) == Tracked(ops[a].soft, ops[a].hard, crossed)
            && Warnings(ops, p, a, b) == if crossed then 1 else 0
  {
    ListIsAMap(ops[..b], p);
    EpochWarnsOnce(ops, p, a, b);
  }

  /** Whatever is tracked is tracked because of a registration: its latest accepted one. */
  lemma {:induction false} TrackedMeansEpoch(ops: seq<Op>, p: int, b: nat) returns (a: nat)
    requires b <= |ops| && Track(ops[..b], p).Tracked?
    ensures Epoch(ops, p, a, b)
    decreases b
  {
    TrackNext(ops, b - 1, p);
    if Accepts(ops, p, b - 1) {
      a := b - 1;
    } else {
      a := TrackedMeansEpoch(ops, p, b - 1);
    }
  }

  /** A pid that is not tracked is never warned about or killed. */
  lemma UntrackedIsLeftAlone(ops: seq<Op>, k: nat, p: int)
    requires k < |ops| && Lookup(After(ops[..k]), p).Untracked?
    ensures Of(p, EventsAt(ops, k)) == []
  {
    ListIsAMap(ops[..k], p);
    EventsRefine(ops, k, p);
  }

  /** What a pass reports about a pid, value by value: its removal exactly if it was tracked and
      is gone or has no memory map; one soft warning, with its size and soft limit, exactly if
      it is over and was not warned about; one kill, with its size and hard limit, exactly if
      it is over that; the warning first. */
  lemma EventsExactly(ops: seq<Op>, k: nat, p: int)
    requires k < |ops| && ops[k].DoTick?
    ensures var t, look := Lookup(After(ops[..k]), p), LookAt(ops[k].looks, p);
            var events := Of(p, EventsAt(ops, k));
            && (t.Untracked? ==> events == [])
            && (t.Tracked? && !look.Pages? ==> events == [Removed(p)])
            && (t.Tracked? && look.Pages? ==>
                  var rss := (look.n * PAGE_SIZE % (ULONG_MAX + 1)) / MIB;
                  var warn, kill := !t.warned && rss > t.soft, rss > t.hard;
                  && (warn && kill ==> events == [Warned(p, rss, t.soft), Killed(p, rss, t.hard)])
                  && (warn && !kill ==> events == [Warned(p, rss, t.soft)])
                  && (!warn && kill ==> events == [Killed(p, rss, t.hard)])
                  && (!warn && !kill ==> events == []))
  {
    ListIsAMap(ops[..k], p);
    EventsRefine(ops, k, p);
  }

  // ---------------------------------------------------------------------------------------
  // The hard limit

  /** A pass kills a pid exactly if it tracks it and finds it over its hard limit, once. */
  lemma KillsExactly(ops: seq<Op>, k: nat, p: int)
    requires k < |ops| && ops[k].DoTick?
    ensures var t, looks := Lookup(After(ops[..k]), p), ops[k].looks;
            Count(Of(p, EventsAt(ops, k)), true) == if t.Tracked? && OverHard(looks, p, t.hard) then 1 else 0
  {
    ListIsAMap(ops[..k], p);
    EventsRefine(ops, k, p);
    ReportCounts(Track(ops[..k], p), ops[k].looks, p);
  }

  /** What a kill inside an epoch says about the process. */
  lemma KilledMeansOver(ops: seq<Op>, p: int, a: nat, b: nat)
    requires b < |ops| && Epoch(ops, p, a, b) && ops[b].DoTick?
    requires Count(Of(p, EventsAt(ops, b)), true) > 0
    ensures OverHard(ops[b].looks, p, ops[a].hard)
  {
    OneWarningPerEpoch(ops, p, a, b);
    KillsExactly(ops, b, p);
  }

  /** A kill comes without any warning in its epoch exactly if no pass up to it, itself
      included, found the process over its soft limit. */
  lemma UnwarnedKillExactly(ops: seq<Op>, p: int, a: nat, b: nat)
    requires b < |ops| && Epoch(ops, p, a, b) && ops[b].DoTick?
    requires Count(Of(p, EventsAt(ops, b)), true) > 0
    ensures Epoch(ops, p, a, b + 1)
    ensures Warnings(ops, p, a, b + 1) == 0 <==> !Crossed(ops, p, a, b + 1, ops[a].soft)
  {
    KilledMeansOver(ops, p, a, b);
    KillKeepsEpoch(ops, p, a, b);
    EpochWarnsOnce(ops, p, a, b + 1);
  }

  lemma OverBoth(looks: Looks, p: int, soft: nat, hard: nat)
    requires soft <= hard && OverHard(looks, p, hard)
    ensures OverSoft(looks, p, soft)
  {
  }

  lemma CrossedNow(ops: seq<Op>, p: int, a: nat, b: nat, soft: nat)
    requires a <= b < |ops| && ops[b].DoTick? && OverSoft(ops[b].looks, p, soft)
    ensures Crossed(ops, p, a, b + 1, soft)
  {
  }

  /** The entry of a killed process stays: the epoch goes on. */
  lemma KillKeepsEpoch(ops: seq<Op>, p: int, a: nat, b: nat)
    requires b < |ops| && Epoch(ops, p, a, b) && ops[b].DoTick?
    requires OverHard(ops[b].looks, p, ops[a].hard)
    ensures Epoch(ops, p, a, b + 1)
  {
    EpochWarnsOnce(ops, p, a, b);
    TrackNext(ops, b, p);
    assert Keeps(ops, p, b);
  }

  /** With soft <= hard, a process is only ever killed after, or together with, a warning. */
  lemma NoKillWithoutWarning(ops: seq<Op>, p: int, a: nat, b: nat)
    requires b < |ops| && Epoch(ops, p, a, b)
    requires ops[b].DoTick? && ops[a].soft <= ops[a].hard
    requires Count(Of(p, EventsAt(ops, b)), true) > 0
    ensures Epoch(ops, p, a, b + 1) && Warnings(ops, p, a, b + 1) == 1
  {
    KilledMeansOver(ops, p, a, b);
    KillKeepsEpoch(ops, p, a, b);
    OverBoth(ops[b].looks, p, ops[a].soft, ops[a].hard);
    CrossedNow(ops, p, a, b, ops[a].soft);
    EpochWarnsOnce(ops, p, a, b + 1);
  }
}
