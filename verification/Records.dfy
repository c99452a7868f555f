/** Whose wait status the reaper writes into which slot. */
module Records {
  import opened Containers
  import opened Lifecycle
  import SI = SlotInvariant
  import CI = ChildInvariant

  // ---------------------------------------------------------------------------------------
  // One record

  /** Another child with the pid of `c` was published in a slot the reaper reaches first. */
  ghost predicate Shadows(s: Sys, c: Child, d: Child) {
    d in s.hist.owner && d != c && d.pid == c.pid && (c in s.hist.owner ==> s.hist.owner[d] < s.hist.owner[c])
  }

  ghost predicate Shadowed(s: Sys, c: Child) {
    exists d :: Shadows(s, c, d)
  }

  /** The slot a child was published in, or -1. */
  ghost function Home(s: Sys, c: Child): int {
    if c in s.hist.owner then s.hist.owner[c] else -1
  }

  /** The slot its record went to, or -1. */
  ghost function WentTo(s: Sys, c: Child): int {
    if c in s.hist.landed then s.hist.landed[c] else -1
  }

  lemma OwnerShows(s: Sys, c: Child)
    requires SI.Inv(s) && CI.Inv(s) && c in s.hist.owner && c.pid > 0
    ensures s.hist.owner[c] < |s.slots| && s.slots[s.hist.owner[c]].used && s.slots[s.hist.owner[c]].pid == c.pid
  {
    assert CI.OwnerMatches(s, c);
    CI.ShownPids(s, s.hist.owner[c], c.pid);
  }

  lemma MatchIsTenant(s: Sys, p: int)
    requires SI.Inv(s) && CI.Inv(s) && p > 0 && FirstByPid(s.slots, p, 0) >= 0
    ensures var i := FirstByPid(s.slots, p, 0);
            i in s.hist.tenant && s.hist.tenant[i].pid == p && s.hist.tenant[i] in s.hist.owner && s.hist.owner[s.hist.tenant[i]] == i
  {
    var i := FirstByPid(s.slots, p, 0);
    CI.ShownPids(s, i, p);
    assert CI.TenantMatches(s, i);
  }

  lemma ShadowHidesHome(s: Sys, c: Child)
    requires SI.Inv(s) && CI.Inv(s) && c.pid > 0 && Shadowed(s, c)
    ensures FirstByPid(s.slots, c.pid, 0) != Home(s, c)
  {
    var d :| Shadows(s, c, d);
    OwnerShows(s, d);
  }

  lemma NoShadowShowsHome(s: Sys, c: Child)
    requires SI.Inv(s) && CI.Inv(s) && c.pid > 0 && !Shadowed(s, c)
    ensures FirstByPid(s.slots, c.pid, 0) == Home(s, c)
  {
    var i := FirstByPid(s.slots, c.pid, 0);
    if c in s.hist.owner {
      OwnerShows(s, c);
    }
    if i >= 0 {
      MatchIsTenant(s, c.pid);
      assert !Shadows(s, c, s.hist.tenant[i]);
    }
  }

  /** The reaper's first match is the child's own slot (or none, if it has none) exactly if no
      other child with its pid was published in an earlier slot. */
  lemma MatchExactly(s: Sys, c: Child)
    requires SI.Inv(s) && CI.Inv(s) && c.pid > 0
    ensures FirstByPid(s.slots, c.pid, 0) == Home(s, c) <==> !Shadowed(s, c)
  {
    if Shadowed(s, c) {
      ShadowHidesHome(s, c);
    } else {
      NoShadowShowsHome(s, c);
    }
  }

  lemma NotYetLanded(s: Sys)
    requires CI.Inv(s) && s.reaper.Reaped?
    ensures s.reaper.child !in s.hist.landed && s.reaper.child !in s.hist.seen
    ensures WentTo(AfterRecord(s), s.reaper.child) == FirstByPid(s.slots, s.reaper.child.pid, 0)
  {
    assert s.reaper.child in CI.Held(s);
    assert s.reaper.child in s.hist.landed ==> CI.LandedMatches(s, s.reaper.child);
  }

  // ---------------------------------------------------------------------------------------
  // Whole runs

  /** Step `j` is the reaper's lookup of `c`. */
  ghost predicate LookedUpAt(states: seq<Sys>, labels: seq<Label>, c: Child, j: int) {
    0 <= j < |labels| && j < |states| && labels[j] == DoRecord && states[j].reaper.Reaped? && states[j].reaper.child == c
  }

  /** Step `j` is a shadowed lookup of a child with pid `p`. */
  ghost predicate ShadowedAt(states: seq<Sys>, labels: seq<Label>, p: int, j: int) {
    && 0 <= j < |labels| && j < |states| && labels[j] == DoRecord && states[j].reaper.Reaped?
    && states[j].reaper.child.pid == p && Shadowed(states[j], states[j].reaper.child)
  }

  /** In terms of what the table shows: the record of a published child goes to its own slot
      exactly if no earlier used slot shows the same pid, and that of an unpublished one goes
      nowhere exactly if no used slot does.  It is written to the slot it goes to and to no
      other, whatever that slot held. */
  lemma RecordGoesHomeExactly(states: seq<Sys>, labels: seq<Label>, k: nat, c: Child)
    requires IsRun(states, labels) && LookedUpAt(states, labels, c, k)
    ensures var s := states[k];
            WentTo(states[k + 1], c) == Home(s, c) <==>
            forall j :: 0 <= j < |s.slots| && (c in s.hist.owner ==> j < s.hist.owner[c]) && s.slots[j].used ==>
              s.slots[j].pid != c.pid
    ensures WentTo(states[k + 1], c) == Home(states[k], c) <==> !Shadowed(states[k], c)
    ensures var s, i := states[k], WentTo(states[k + 1], c);
            && -1 <= i < |s.slots|
            && states[k + 1].slots == if i < 0 then s.slots else s.slots[i := Retire(s.slots[i], s.reaper.status)]
  {
    assert StepAt(states, labels, k);
    SI.InvHolds(states, labels, k);
    CI.InvHolds(states, labels, k);
    LookupGoesHomeExactly(states[k]);
  }

  lemma LookupGoesHomeExactly(s: Sys)
    requires SI.Inv(s) && CI.Inv(s) && s.reaper.Reaped?
    ensures var s', c := AfterRecord(s), s.reaper.child;
            && (WentTo(s', c) == Home(s, c) <==> !Shadowed(s, c))
            && (WentTo(s', c) == Home(s, c) <==>
                forall j :: 0 <= j < |s.slots| && (c in s.hist.owner ==> j < s.hist.owner[c]) && s.slots[j].used ==>
                  s.slots[j].pid != c.pid)
            && WentTo(s', c) == FirstByPid(s.slots, c.pid, 0)
  {
    NotYetLanded(s);
    MatchExactly(s, s.reaper.child);
    if s.reaper.child in s.hist.owner {
      OwnerShows(s, s.reaper.child);
    }
  }

  /** No lookup of a child with pid `p` before step `k` was shadowed. */
  ghost predicate Clean(states: seq<Sys>, labels: seq<Label>, k: nat, p: int) {
    forall j :: 0 <= j < k ==> !ShadowedAt(states, labels, p, j)
  }

  /** Only the reaper's lookups make records. */
  lemma StepKeepsRecords(s: Sys, l: Label)
    requires Enabled(s, l) && l != DoRecord
    ensures Next(s, l).hist.seen == s.hist.seen && Next(s, l).hist.landed == s.hist.landed
    ensures s.hist.cloned <= Next(s, l).hist.cloned
  {
    match l
    case DoStop(_, _) => SI.StopOnlyStops(s, l);
    case DoStopAll => SI.StopOnlyStops(s, l);
    case Local(t, a) =>
    case DoClaim(_, _, _, _) =>
    case _ =>
  }

  lemma StepKeepsRecord(s: Sys, l: Label, c: Child)
    requires CI.Inv(s) && Enabled(s, l) && c in s.hist.seen
    ensures c in Next(s, l).hist.seen && Next(s, l).hist.seen[c] == s.hist.seen[c] && WentTo(Next(s, l), c) == WentTo(s, c)
  {
    if l == DoRecord {
      CI.RecordLooksUp(s);
    } else {
      StepKeepsRecords(s, l);
    }
  }

  lemma {:induction false} RecordStays(states: seq<Sys>, labels: seq<Label>, j: nat, k: nat, c: Child)
    requires IsRun(states, labels) && j <= k < |states| && c in states[j].hist.seen
    ensures c in states[k].hist.seen && states[k].hist.seen[c] == states[j].hist.seen[c]
    ensures WentTo(states[k], c) == WentTo(states[j], c)
    decreases k
  {
    if j < k {
      RecordStays(states, labels, j, k - 1, c);
      CI.InvHolds(states, labels, k - 1);
      assert StepAt(states, labels, k - 1);
      StepKeepsRecord(states[k - 1], labels[k - 1], c);
    }
  }

  /** Where the record of a child went is decided once, when it is looked up. */
  lemma LookupDecides(states: seq<Sys>, labels: seq<Label>, j: nat, k: nat, c: Child)
    requires IsRun(states, labels) && j < k < |states| && LookedUpAt(states, labels, c, j)
    ensures c in states[k].hist.seen && WentTo(states[k], c) == FirstByPid(states[j].slots, c.pid, 0)
  {
    assert StepAt(states, labels, j);
    CI.InvHolds(states, labels, j);
    NotYetLanded(states[j]);
    RecordStays(states, labels, j + 1, k, c);
  }

  /** Every child with pid `p` looked up so far was recorded in the slot it was published in, or
      nowhere if it was not published. */
  ghost predicate AllHome(states: seq<Sys>, labels: seq<Label>, k: nat, p: int)
    requires k < |states|
  {
    forall j, c: Child :: 0 <= j < k && c.pid == p && LookedUpAt(states, labels, c, j) ==> WentTo(states[k], c) == Home(states[j], c)
  }

  lemma HomeExactlyIfUnshadowed(states: seq<Sys>, labels: seq<Label>, j: nat, k: nat, c: Child)
    requires IsRun(states, labels) && j < k < |states| && LookedUpAt(states, labels, c, j)
    ensures WentTo(states[k], c) == Home(states[j], c) <==> !ShadowedAt(states, labels, c.pid, j)
  {
    SI.InvHolds(states, labels, j);
    CI.InvHolds(states, labels, j);
    LookupDecides(states, labels, j, k, c);
    MatchExactly(states[j], c);
  }

  /** Over a whole run, every record of a child with pid `p` was written to the right slot
      exactly if no lookup of such a child was shadowed; reuse of pids as such does no harm. */
  lemma RecordsAreRightExactly(states: seq<Sys>, labels: seq<Label>, k: nat, p: int)
    requires IsRun(states, labels) && k < |states|
    ensures AllHome(states, labels, k, p) <==> Clean(states, labels, k, p)
  {
    forall j, c: Child | 0 <= j < k && c.pid == p && LookedUpAt(states, labels, c, j)
      ensures WentTo(states[k], c) == Home(states[j], c) <==> !ShadowedAt(states, labels, c.pid, j)
    {
      HomeExactlyIfUnshadowed(states, labels, j, k, c);
    }
    if AllHome(states, labels, k, p) {
      forall j | 0 <= j < k
        ensures !ShadowedAt(states, labels, p, j)
      {
        if ShadowedAt(states, labels, p, j) {
          assert LookedUpAt(states, labels, states[j].reaper.child, j);
        }
      }
    }
  }

  lemma {:induction false} ClonedGrows(states: seq<Sys>, labels: seq<Label>, j: nat, k: nat)
    requires IsRun(states, labels) && j <= k < |states|
    ensures states[j].hist.cloned <= states[k].hist.cloned
    decreases k
  {
    if j < k {
      ClonedGrows(states, labels, j, k - 1);
      assert StepAt(states, labels, k - 1);
      StepGrowsCloned(states[k - 1], labels[k - 1]);
    }
  }

  lemma StepGrowsCloned(s: Sys, l: Label)
    requires Enabled(s, l)
    ensures s.hist.cloned <= Next(s, l).hist.cloned
  {
    if l != DoRecord {
      StepKeepsRecords(s, l);
    }
  }

  lemma ShadowNeedsTwo(s: Sys, c: Child) returns (d: Child)
    requires CI.Inv(s) && s.reaper.Reaped? && s.reaper.child == c && Shadowed(s, c)
    ensures d != c && d.pid == c.pid && c in s.hist.cloned && d in s.hist.cloned
  {
    d :| Shadows(s, c, d);
    assert CI.OwnerMatches(s, d);
    assert c in CI.Held(s);
  }

  ghost predicate HandedOutOnce(cloned: set<Child>, p: int) {
    forall c, d :: c in cloned && d in cloned && c.pid == p && d.pid == p ==> c == d
  }

  /** In particular, if `p` was not handed out twice, its records are right. */
  lemma FreshPidsAreClean(states: seq<Sys>, labels: seq<Label>, k: nat, p: int)
    requires IsRun(states, labels) && k < |states| && HandedOutOnce(states[k].hist.cloned, p)
    ensures Clean(states, labels, k, p)
  {
    forall j | 0 <= j < k
      ensures !ShadowedAt(states, labels, p, j)
    {
      if ShadowedAt(states, labels, p, j) {
        CI.InvHolds(states, labels, j);
        ClonedGrows(states, labels, j, k);
        var d := ShadowNeedsTwo(states[j], states[j].reaper.child);
      }
    }
  }
}
