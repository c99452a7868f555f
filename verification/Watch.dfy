/** The supervisor and the kernel monitor together: a start registers its child some time after
    publishing it and outside the lock, the reaper unregisters a pid along with the record, and
    passes of the monitor happen at any time. */
module Watch {
  import opened CTypes
  import opened Containers
  import LC = Lifecycle
  import SI = SlotInvariant
  import CI = ChildInvariant
  import SH = SlotHistory
  import O = Order
  import P = MonitorPolicy
  import M = MonitorRuns

  datatype World = World(
    sys: LC.Sys, list: seq<P.Entry>,
    told: set<LC.Tid>,          // starts whose registration has been attempted
    origin: map<int, LC.Child>      // history: whose start made the latest accepted registration of a pid
  )

  /** `device` says whether /dev/container_monitor can be opened. */
  datatype Label =
    | Table(l: LC.Label, device: bool)
    | Register(t: LC.Tid, device: bool, memory: bool)
    | Tick(looks: P.Looks)

  /** An `int` stored in an `unsigned long`. */
  ghost function Ulong(n: int): nat {
    n % (ULONG_MAX + 1)
  }

  ghost predicate Enabled(w: World, l: Label) {
    match l
    case Table(l, _) => LC.Enabled(w.sys, l)
    case Register(t, _, _) =>
      t in w.sys.starts && SI.OnSlot(w.sys.starts[t].stage) && w.sys.starts[t].index < |w.sys.slots| && t !in w.told
    case Tick(_) => true
  }

  /** The step is the reaper's lookup of a pid that some slot shows. */
  ghost predicate Unregisters(w: World, l: Label, p: int) {
    && l == Table(LC.DoRecord, true) && w.sys.reaper.Reaped? && w.sys.reaper.child.pid == p
    && FirstByPid(w.sys.slots, p, 0) >= 0
  }

  ghost function AfterTable(w: World, l: LC.Label, device: bool): World
    requires LC.Enabled(w.sys, l)
  {
    w.(sys := LC.Next(w.sys, l),
       list := if l == LC.DoRecord && Unregisters(w, Table(l, device), w.sys.reaper.child.pid)
               then P.Unregister(w.list, w.sys.reaper.child.pid).1 else w.list)
  }

  ghost function AfterRegister(w: World, t: LC.Tid, device: bool, memory: bool): World
    requires Enabled(w, Register(t, device, memory))
  {
    var c, slot := w.sys.starts[t].stage.child, w.sys.slots[w.sys.starts[t].index];
    var (reply, list) := P.Register(w.list, c.pid, Ulong(slot.softMib), Ulong(slot.hardMib), memory);
    if device && reply == P.Ok then w.(list := list, told := w.told + {t}, origin := w.origin[c.pid := c])
    else w.(told := w.told + {t})
  }

  ghost function Next(w: World, l: Label): World
    requires Enabled(w, l)
  {
    match l
    case Table(l, device) => AfterTable(w, l, device)
    case Register(t, device, memory) => AfterRegister(w, t, device, memory)
    case Tick(looks) => w.(list := P.TickEntries(w.list, looks))
  }

  ghost const INIT: World := World(LC.INIT, [], {}, map[])

  ghost predicate StepAt(worlds: seq<World>, labels: seq<Label>, k: int) {
    0 <= k < |labels| && |worlds| == |labels| + 1 && Enabled(worlds[k], labels[k]) && worlds[k + 1] == Next(worlds[k], labels[k])
  }

  ghost predicate IsRun(worlds: seq<World>, labels: seq<Label>) {
    && |worlds| == |labels| + 1
    && worlds[0] == INIT
    && forall k {:trigger StepAt(worlds, labels, k)} :: 0 <= k < |labels| ==> StepAt(worlds, labels, k)
  }

  // ---------------------------------------------------------------------------------------
  // Whose entry it is

  /** The entry of `p` carries the limits of the container whose start registered it. */
  ghost predicate EntryMatches(sys: LC.Sys, origin: map<int, LC.Child>, p: int, t: P.Tracking) {
    t.Tracked? ==>
      && p in origin && origin[p].pid == p && origin[p] in sys.hist.owner && sys.hist.owner[origin[p]] < |sys.slots|
      && sys.hist.owner[origin[p]] in sys.hist.published
      && t.soft == Ulong(sys.slots[sys.hist.owner[origin[p]]].softMib)
      && t.hard == Ulong(sys.slots[sys.hist.owner[origin[p]]].hardMib)
  }

  ghost predicate Inv(w: World) {
    && SI.Inv(w.sys) && CI.Inv(w.sys) && P.WellFormed(w.list)
    && (forall p :: EntryMatches(w.sys, w.origin, p, P.Lookup(w.list, p)))
  }

  lemma OwnerStays(s: LC.Sys, l: LC.Label, c: LC.Child)
    requires SI.Inv(s) && CI.Inv(s) && LC.Enabled(s, l) && c in s.hist.owner
    ensures c in LC.Next(s, l).hist.owner && LC.Next(s, l).hist.owner[c] == s.hist.owner[c]
    ensures s.hist.owner[c] in LC.Next(s, l).hist.published
  {
    assert CI.OwnerMatches(s, c);
    SH.StepKeepsPublished(s, l);
    O.StepKeepsOwner(s, l, c);
  }

  lemma EntryStays(s: LC.Sys, l: LC.Label, origin: map<int, LC.Child>, p: int, t: P.Tracking)
    requires SI.Inv(s) && CI.Inv(s) && LC.Enabled(s, l) && EntryMatches(s, origin, p, t)
    ensures EntryMatches(LC.Next(s, l), origin, p, t)
  {
    if t.Tracked? {
      OwnerStays(s, l, origin[p]);
      SH.StepKeepsRequest(s, l, s.hist.owner[origin[p]]);
    }
  }

  lemma TableKeepsInv(w: World, l: LC.Label, device: bool)
    requires Inv(w) && LC.Enabled(w.sys, l)
    ensures Inv(AfterTable(w, l, device))
  {
    var w' := AfterTable(w, l, device);
    SI.StepKeepsInv(w.sys, l);
    CI.StepKeepsInv(w.sys, l);
    forall p
      ensures EntryMatches(w'.sys, w'.origin, p, P.Lookup(w'.list, p)) && P.WellFormed(w'.list)
    {
      EntryStays(w.sys, l, w.origin, p, P.Lookup(w.list, p));
      if w'.list != w.list {
        P.UnregisterRefines(w.list, w.sys.reaper.child.pid, p);
      }
    }
  }

  lemma OriginIsOwner(s: LC.Sys, t: LC.Tid)
    requires CI.Inv(s) && t in s.starts && SI.OnSlot(s.starts[t].stage)
    ensures var c := s.starts[t].stage.child;
            c in s.hist.owner && s.hist.owner[c] == s.starts[t].index < |s.slots| && s.hist.owner[c] in s.hist.published
  {
    assert CI.StartTells(s, t) && CI.OwnerMatches(s, s.starts[t].stage.child);
  }

  lemma RegisterKeepsEntry(w: World, t: LC.Tid, device: bool, memory: bool, p: int)
    requires Inv(w) && Enabled(w, Register(t, device, memory))
    ensures var w' := AfterRegister(w, t, device, memory);
            P.WellFormed(w'.list) && EntryMatches(w'.sys, w'.origin, p, P.Lookup(w'.list, p))
  {
    var c, slot := w.sys.starts[t].stage.child, w.sys.slots[w.sys.starts[t].index];
    assert EntryMatches(w.sys, w.origin, p, P.Lookup(w.list, p));
    OriginIsOwner(w.sys, t);
    P.RegisterRefines(w.list, c.pid, Ulong(slot.softMib), Ulong(slot.hardMib), memory, p);
  }

  lemma RegisterKeepsInv(w: World, t: LC.Tid, device: bool, memory: bool)
    requires Inv(w) && Enabled(w, Register(t, device, memory))
    ensures Inv(AfterRegister(w, t, device, memory))
  {
    var w' := AfterRegister(w, t, device, memory);
    forall p
      ensures EntryMatches(w'.sys, w'.origin, p, P.Lookup(w'.list, p)) && P.WellFormed(w'.list)
    {
      RegisterKeepsEntry(w, t, device, memory, p);
    }
  }

  lemma TickKeepsEntry(sys: LC.Sys, origin: map<int, LC.Child>, list: seq<P.Entry>, looks: P.Looks, p: int)
    requires P.WellFormed(list) && EntryMatches(sys, origin, p, P.Lookup(list, p))
    ensures EntryMatches(sys, origin, p, P.Lookup(P.TickEntries(list, looks), p))
  {
    P.TickRefines(list, looks, p);
  }

  lemma TickKeepsInv(w: World, looks: P.Looks)
    requires Inv(w)
    ensures Inv(w.(list := P.TickEntries(w.list, looks)))
  {
    P.TickRefines(w.list, looks, 0);
    forall p
      ensures EntryMatches(w.sys, w.origin, p, P.Lookup(P.TickEntries(w.list, looks), p))
    {
      TickKeepsEntry(w.sys, w.origin, w.list, looks, p);
    }
  }

  lemma StepKeepsInv(w: World, l: Label)
    requires Inv(w) && Enabled(w, l)
    ensures Inv(Next(w, l))
  {
    match l
    case Table(l, device) => TableKeepsInv(w, l, device);
    case Register(t, device, memory) => RegisterKeepsInv(w, t, device, memory);
    case Tick(looks) => TickKeepsInv(w, looks);
  }

  lemma {:induction false} InvHolds(worlds: seq<World>, labels: seq<Label>, k: nat)
    requires IsRun(worlds, labels) && k < |worlds|
    ensures Inv(worlds[k])
  {
    if k == 0 {
      InitInv();
    } else {
      InvHolds(worlds, labels, k - 1);
      InvForOneStep(worlds, labels, k);
    }
  }

  lemma InitInv()
    ensures Inv(INIT)
  {
  }

  lemma InvForOneStep(worlds: seq<World>, labels: seq<Label>, k: nat)
    requires IsRun(worlds, labels) && 0 < k < |worlds| && Inv(worlds[k - 1])
    ensures Inv(worlds[k])
  {
    assert StepAt(worlds, labels, k - 1);
    StepKeepsInv(worlds[k - 1], labels[k - 1]);
  }

  // ---------------------------------------------------------------------------------------
  // What the steps do to the list

  /** A start whose registration is accepted has its pid tracked with its container's limits and
      not yet warned about; nothing else changes.  It is accepted exactly if the device opens,
      the hard limit is not zero and there is an entry to update or memory for one. */
  lemma RegistrationTakesEffect(worlds: seq<World>, labels: seq<Label>, k: nat, t: LC.Tid, device: bool, memory: bool, p: int)
    requires IsRun(worlds, labels) && StepAt(worlds, labels, k) && labels[k] == Register(t, device, memory)
    ensures t in worlds[k].sys.starts && SI.OnSlot(worlds[k].sys.starts[t].stage)
    ensures worlds[k].sys.starts[t].index < |worlds[k].sys.slots|
    ensures var w, w' := worlds[k], worlds[k + 1];
            var c, slot := w.sys.starts[t].stage.child, w.sys.slots[w.sys.starts[t].index];
            var accepted := device && Ulong(slot.hardMib) > 0 && (P.Lookup(w.list, c.pid).Tracked? || memory);
            && P.Lookup(w'.list, p) == (if accepted && p == c.pid then P.Tracked(Ulong(slot.softMib), Ulong(slot.hardMib), false) else P.Lookup(w.list, p))
            && w'.sys == w.sys
  {
    InvHolds(worlds, labels, k);
    var w := worlds[k];
    var c, slot := w.sys.starts[t].stage.child, w.sys.slots[w.sys.starts[t].index];
    assert SI.StartMatches(w.sys, t) && SI.SlotMatches(w.sys, w.sys.starts[t].index);
    P.RegisterRefines(w.list, c.pid, Ulong(slot.softMib), Ulong(slot.hardMib), memory, p);
  }

  /** The reaper's record makes the pid untracked if some used slot shows it and the device
      opens; no other step of the supervisor touches the list. */
  lemma RecordUnregisters(worlds: seq<World>, labels: seq<Label>, k: nat, p: int)
    requires IsRun(worlds, labels) && StepAt(worlds, labels, k) && labels[k].Table?
    ensures var w, w', l := worlds[k], worlds[k + 1], labels[k];
            P.Lookup(w'.list, p) ==
            if l.l == LC.DoRecord && l.device && w.sys.reaper.Reaped? && w.sys.reaper.child.pid == p
               && (exists i :: 0 <= i < |w.sys.slots| && w.sys.slots[i].used && w.sys.slots[i].pid == p)
            then P.Untracked else P.Lookup(w.list, p)
  {
    InvHolds(worlds, labels, k);
    TableStepUnregisters(worlds[k], labels[k].l, labels[k].device, p);
  }

  lemma TableStepUnregisters(w: World, l: LC.Label, device: bool, p: int)
    requires LC.Enabled(w.sys, l) && P.WellFormed(w.list)
    ensures P.Lookup(AfterTable(w, l, device).list, p) ==
            if l == LC.DoRecord && device && w.sys.reaper.Reaped? && w.sys.reaper.child.pid == p
               && (exists i :: 0 <= i < |w.sys.slots| && w.sys.slots[i].used && w.sys.slots[i].pid == p)
            then P.Untracked else P.Lookup(w.list, p)
  {
    if l == LC.DoRecord {
      P.UnregisterRefines(w.list, w.sys.reaper.child.pid, p);
    }
  }

  // ---------------------------------------------------------------------------------------
  // Where entries come from

  /** Step `j` registers child `c`. */
  ghost predicate RegisteredAt(worlds: seq<World>, labels: seq<Label>, c: LC.Child, j: int) {
    && 0 <= j < |labels| && j < |worlds| && labels[j].Register? && labels[j].device
    && labels[j].t in worlds[j].sys.starts && SI.OnSlot(worlds[j].sys.starts[labels[j].t].stage)
    && worlds[j].sys.starts[labels[j].t].stage.child == c
  }

  /** Step `j` unregisters pid `p`. */
  ghost predicate UnregisteredAt(worlds: seq<World>, labels: seq<Label>, p: int, j: int) {
    0 <= j < |labels| && j < |worlds| && Unregisters(worlds[j], labels[j], p)
  }

  /** Step `j` is the reaper's lookup of `c`. */
  ghost predicate LookedUpAt(worlds: seq<World>, labels: seq<Label>, c: LC.Child, j: int) {
    && 0 <= j < |labels| && j < |worlds| && labels[j].Table? && labels[j].l == LC.DoRecord
    && worlds[j].sys.reaper.Reaped? && worlds[j].sys.reaper.child == c
  }

  ghost predicate Registers(w: World, l: Label, c: LC.Child) {
    && l.Register? && l.device && l.t in w.sys.starts && SI.OnSlot(w.sys.starts[l.t].stage)
    && w.sys.starts[l.t].stage.child == c
  }

  /** The entry of `p` was there before, came from the same registration, and this step does not
      unregister it. */
  ghost predicate Keeps(w: World, l: Label, w': World, p: int) {
    P.Lookup(w.list, p).Tracked? && p in w.origin && p in w'.origin && w'.origin[p] == w.origin[p] && !Unregisters(w, l, p)
  }

  lemma TableOfEntry(w: World, l: LC.Label, device: bool, p: int)
    requires Inv(w) && LC.Enabled(w.sys, l) && P.Lookup(AfterTable(w, l, device).list, p).Tracked?
    ensures Keeps(w, Table(l, device), AfterTable(w, l, device), p)
  {
    assert EntryMatches(w.sys, w.origin, p, P.Lookup(w.list, p));
    if l == LC.DoRecord {
      P.UnregisterRefines(w.list, w.sys.reaper.child.pid, p);
    }
  }

  lemma RegisterOfEntry(w: World, t: LC.Tid, device: bool, memory: bool, p: int)
    requires Inv(w) && Enabled(w, Register(t, device, memory)) && P.Lookup(AfterRegister(w, t, device, memory).list, p).Tracked?
    ensures var l, w' := Register(t, device, memory), AfterRegister(w, t, device, memory);
            p in w'.origin && (Registers(w, l, w'.origin[p]) || Keeps(w, l, w', p))
  {
    var c, slot := w.sys.starts[t].stage.child, w.sys.slots[w.sys.starts[t].index];
    assert EntryMatches(w.sys, w.origin, p, P.Lookup(w.list, p));
    P.RegisterRefines(w.list, c.pid, Ulong(slot.softMib), Ulong(slot.hardMib), memory, p);
  }

  lemma TickOfEntry(w: World, looks: P.Looks, p: int)
    requires Inv(w) && P.Lookup(P.TickEntries(w.list, looks), p).Tracked?
    ensures P.Lookup(w.list, p).Tracked? && p in w.origin
  {
    assert EntryMatches(w.sys, w.origin, p, P.Lookup(w.list, p));
    P.TickRefines(w.list, looks, p);
  }

  lemma StepOfEntry(w: World, l: Label, p: int)
    requires Inv(w) && Enabled(w, l) && P.Lookup(Next(w, l).list, p).Tracked?
    ensures p in Next(w, l).origin && (Registers(w, l, Next(w, l).origin[p]) || Keeps(w, l, Next(w, l), p))
  {
    match l
    case Table(c, device) => TableOfEntry(w, c, device, p);
    case Register(t, device, memory) => RegisterOfEntry(w, t, device, memory, p);
    case Tick(looks) => TickOfEntry(w, looks, p);
  }

  /** What `StepOfEntry` says of step `k - 1` of a run. */
  ghost predicate EntryGoesBack(worlds: seq<World>, labels: seq<Label>, k: int, p: int)
    requires 0 < k < |worlds|
  {
    && p in worlds[k].origin
    && (RegisteredAt(worlds, labels, worlds[k].origin[p], k - 1) ||
        (P.Lookup(worlds[k - 1].list, p).Tracked? && p in worlds[k - 1].origin && worlds[k].origin[p] == worlds[k - 1].origin[p] &&
         !UnregisteredAt(worlds, labels, p, k - 1)))
  }

  lemma EntryForOneStep(worlds: seq<World>, labels: seq<Label>, k: nat, p: int)
    requires IsRun(worlds, labels) && 0 < k < |worlds| && Inv(worlds[k - 1]) && P.Lookup(worlds[k].list, p).Tracked?
    ensures EntryGoesBack(worlds, labels, k, p)
  {
    assert StepAt(worlds, labels, k - 1);
    StepOfEntry(worlds[k - 1], labels[k - 1], p);
  }

  lemma EntryBefore(worlds: seq<World>, labels: seq<Label>, k: nat, p: int)
    requires IsRun(worlds, labels) && 0 < k < |worlds| && P.Lookup(worlds[k].list, p).Tracked?
    ensures EntryGoesBack(worlds, labels, k, p)
  {
    InvHolds(worlds, labels, k - 1);
    EntryForOneStep(worlds, labels, k, p);
  }

  /** No unregistration of `p` after step `r` and before `k`. */
  ghost predicate NoneSince(worlds: seq<World>, labels: seq<Label>, p: int, r: int, k: nat) {
    forall j :: r < j < k ==> !UnregisteredAt(worlds, labels, p, j)
  }

  /** An entry goes back to a registration by its origin, after which its pid was not
      unregistered. */
  lemma {:induction false} EntryHasRegistration(worlds: seq<World>, labels: seq<Label>, k: nat, p: int) returns (r: nat)
    requires IsRun(worlds, labels) && k < |worlds| && P.Lookup(worlds[k].list, p).Tracked?
    ensures p in worlds[k].origin && r < k && RegisteredAt(worlds, labels, worlds[k].origin[p], r)
    ensures NoneSince(worlds, labels, p, r, k)
  {
    if k == 0 {
      NothingTrackedAtFirst(p);
    } else {
      EntryBefore(worlds, labels, k, p);
      r := k - 1;
      if !RegisteredAt(worlds, labels, worlds[k].origin[p], k - 1) {
        r := EntryHasRegistration(worlds, labels, k - 1, p);
      }
    }
  }

  lemma NothingTrackedAtFirst(p: int)
    ensures P.Lookup(INIT.list, p).Untracked?
  {
  }

  // ---------------------------------------------------------------------------------------
  // Whom a kill hits

  lemma SeenForOneStep(worlds: seq<World>, labels: seq<Label>, k: nat, c: LC.Child)
    requires IsRun(worlds, labels) && 0 < k < |worlds|
    ensures c in worlds[k].sys.hist.seen <==> c in worlds[k - 1].sys.hist.seen || LookedUpAt(worlds, labels, c, k - 1)
  {
    assert StepAt(worlds, labels, k - 1);
    if labels[k - 1].Table? {
      O.StepSees(worlds[k - 1].sys, labels[k - 1].l, c);
    }
  }

  lemma {:induction false} SeenMeansLookedUp(worlds: seq<World>, labels: seq<Label>, k: nat, c: LC.Child)
    requires IsRun(worlds, labels) && k < |worlds|
    ensures c in worlds[k].sys.hist.seen <==> exists j :: j < k && LookedUpAt(worlds, labels, c, j)
  {
    if k > 0 {
      SeenMeansLookedUp(worlds, labels, k - 1, c);
      SeenForOneStep(worlds, labels, k, c);
    }
  }

  /** Child `c` was looked up, but before its registration at `r`, or without unregistering it. */
  ghost predicate MissedByReaper(worlds: seq<World>, labels: seq<Label>, c: LC.Child, r: nat, k: nat) {
    exists a :: a < k && LookedUpAt(worlds, labels, c, a) && (a < r || !UnregisteredAt(worlds, labels, c.pid, a))
  }

  lemma SeenMeansMissed(worlds: seq<World>, labels: seq<Label>, c: LC.Child, r: nat, k: nat)
    requires IsRun(worlds, labels) && k < |worlds| && r < k && RegisteredAt(worlds, labels, c, r) && NoneSince(worlds, labels, c.pid, r, k)
    ensures c in worlds[k].sys.hist.seen <==> MissedByReaper(worlds, labels, c, r, k)
  {
    SeenMeansLookedUp(worlds, labels, k, c);
    if c in worlds[k].sys.hist.seen {
      var a :| a < k && LookedUpAt(worlds, labels, c, a);
      assert a < r || !UnregisteredAt(worlds, labels, c.pid, a);
    }
  }

  /** Among children with one pid, only the unreaped one gets a signal. */
  lemma OnlyTheUnreapedIsHit(s: LC.Sys, c: LC.Child, d: LC.Child)
    requires CI.Inv(s) && c in s.hist.owner && d in s.children && d.pid == c.pid
    ensures d != c <==> (s.reaper.Reaped? && s.reaper.child == c) || c in s.hist.seen
  {
    assert CI.OwnerMatches(s, c);
  }

  lemma KillMeansTracked(list: seq<P.Entry>, looks: P.Looks, p: int)
    requires P.WellFormed(list) && M.Count(P.Of(p, P.TickEvents(list, looks)), true) > 0
    ensures P.Lookup(list, p).Tracked? && P.OverHard(looks, p, P.Lookup(list, p).hard)
  {
    P.TickRefines(list, looks, p);
    M.ReportCounts(P.Lookup(list, p), looks, p);
  }

  /** A pass that kills pid `p` acts on the registration `r` of some container's child `c`, with
      that container's hard limit.  A container's child `d` that it hits is another than `c`
      exactly if `c` is in the reaper's hands, or was looked up before it was registered, or was
      looked up without being unregistered. */
  lemma KillHitsAnotherExactly(worlds: seq<World>, labels: seq<Label>, k: nat, looks: P.Looks, p: int, d: LC.Child) returns (c: LC.Child, r: nat)
    requires IsRun(worlds, labels) && k < |labels| && labels[k] == Tick(looks)
    requires M.Count(P.Of(p, P.TickEvents(worlds[k].list, looks)), true) > 0
    requires d in worlds[k].sys.children && d.pid == p
    ensures r < k && RegisteredAt(worlds, labels, c, r) && c.pid == p
    ensures c in worlds[k].sys.hist.owner && worlds[k].sys.hist.owner[c] < |worlds[k].sys.slots|
    ensures P.OverHard(looks, p, Ulong(worlds[k].sys.slots[worlds[k].sys.hist.owner[c]].hardMib))
    ensures d != c <==>
            (worlds[k].sys.reaper.Reaped? && worlds[k].sys.reaper.child == c) || MissedByReaper(worlds, labels, c, r, k)
  {
    InvHolds(worlds, labels, k);
    KillMeansTracked(worlds[k].list, looks, p);
    r := EntryHasRegistration(worlds, labels, k, p);
    c := worlds[k].origin[p];
    assert EntryMatches(worlds[k].sys, worlds[k].origin, p, P.Lookup(worlds[k].list, p));
    SeenMeansMissed(worlds, labels, c, r, k);
    OnlyTheUnreapedIsHit(worlds[k].sys, c, d);
  }
}
