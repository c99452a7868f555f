/** When children are cloned, published and looked up, told by the labels of a run. */
module Order {
  import opened Lifecycle
  import SI = SlotInvariant
  import CI = ChildInvariant
  import opened Records

  /** Step `j` publishes `c`. */
  ghost predicate PublishedAt(states: seq<Sys>, labels: seq<Label>, c: Child, j: int) {
    && 0 <= j < |labels| && j < |states| && labels[j].DoPublish? && labels[j].t in states[j].starts
    && states[j].starts[labels[j].t].stage.AtPublish? && states[j].starts[labels[j].t].stage.child == c
  }

  /** Step `j` clones `c`. */
  ghost predicate ClonedAt(labels: seq<Label>, c: Child, j: int) {
    0 <= j < |labels| && labels[j].Local? && labels[j].a == GotChild(c)
  }

  /** Before step `k`, child `c` was looked up by the reaper and only then published. */
  ghost predicate EarlyReap(states: seq<Sys>, labels: seq<Label>, c: Child, k: nat) {
    exists a, b :: a < b < k && LookedUpAt(states, labels, c, a) && PublishedAt(states, labels, c, b)
  }

  // ---------------------------------------------------------------------------------------
  // Lookups and publications

  lemma StepSees(s: Sys, l: Label, c: Child)
    requires Enabled(s, l)
    ensures c in Next(s, l).hist.seen <==> c in s.hist.seen || (l == DoRecord && s.reaper.child == c)
  {
    if l == DoRecord {
      CI.RecordLooksUp(s);
    } else {
      StepKeepsRecords(s, l);
    }
  }

  lemma SeenNext(states: seq<Sys>, labels: seq<Label>, k: nat, c: Child)
    requires IsRun(states, labels) && 0 < k < |states|
    ensures c in states[k].hist.seen <==> c in states[k - 1].hist.seen || LookedUpAt(states, labels, c, k - 1)
  {
    assert StepAt(states, labels, k - 1);
    StepSees(states[k - 1], labels[k - 1], c);
  }

  lemma {:induction false} SeenMeansLookedUp(states: seq<Sys>, labels: seq<Label>, k: nat, c: Child)
    requires IsRun(states, labels) && k < |states|
    ensures c in states[k].hist.seen <==> exists j :: j < k && LookedUpAt(states, labels, c, j)
  {
    if k > 0 {
      SeenMeansLookedUp(states, labels, k - 1, c);
      SeenNext(states, labels, k, c);
    }
  }

  /** Only publication makes owners. */
  lemma StepKeepsOwners(s: Sys, l: Label)
    requires Enabled(s, l) && !l.DoPublish?
    ensures Next(s, l).hist.owner == s.hist.owner && Next(s, l).hist.tenant == s.hist.tenant
  {
    match l
    case DoStop(_, _) => SI.StopOnlyStops(s, l);
    case DoStopAll => SI.StopOnlyStops(s, l);
    case Local(t, a) =>
    case DoRecord => CI.RecordLooksUp(s);
    case _ => OtherKeepsOwners(s, l);
  }

  lemma OtherKeepsOwners(s: Sys, l: Label)
    requires Enabled(s, l) && (l.DoClaim? || l.DoUnclaim? || l.RunCheck? || l.Spurious? || SI.IsQuiet(l))
    ensures Next(s, l).hist.owner == s.hist.owner && Next(s, l).hist.tenant == s.hist.tenant
  {
    if SI.IsQuiet(l) {
      SI.QuietChangesNothing(s, l);
    }
  }

  /** A child keeps its slot: publication gives slots to children that had none. */
  lemma StepKeepsOwner(s: Sys, l: Label, c: Child)
    requires CI.Inv(s) && Enabled(s, l) && c in s.hist.owner
    ensures c in Next(s, l).hist.owner && Next(s, l).hist.owner[c] == s.hist.owner[c]
  {
    if l.DoPublish? {
      assert CI.StartTells(s, l.t);
    } else {
      StepKeepsOwners(s, l);
    }
  }

  lemma StepOwns(s: Sys, l: Label, c: Child)
    requires Enabled(s, l)
    ensures c in Next(s, l).hist.owner <==>
            c in s.hist.owner || (l.DoPublish? && s.starts[l.t].stage.child == c)
  {
    if !l.DoPublish? {
      StepKeepsOwners(s, l);
    }
  }

  lemma OwnedNext(states: seq<Sys>, labels: seq<Label>, k: nat, c: Child)
    requires IsRun(states, labels) && 0 < k < |states|
    ensures c in states[k].hist.owner <==> c in states[k - 1].hist.owner || PublishedAt(states, labels, c, k - 1)
  {
    assert StepAt(states, labels, k - 1);
    StepOwns(states[k - 1], labels[k - 1], c);
  }

  lemma {:induction false} OwnedMeansPublished(states: seq<Sys>, labels: seq<Label>, k: nat, c: Child)
    requires IsRun(states, labels) && k < |states|
    ensures c in states[k].hist.owner <==> exists j :: j < k && PublishedAt(states, labels, c, j)
  {
    if k > 0 {
      OwnedMeansPublished(states, labels, k - 1, c);
      OwnedNext(states, labels, k, c);
    }
  }

  /** A child is published once. */
  lemma UnownedAtPublication(states: seq<Sys>, labels: seq<Label>, c: Child, a: nat, b: nat)
    requires IsRun(states, labels) && a <= b && PublishedAt(states, labels, c, b)
    ensures c !in states[a].hist.owner
  {
    CI.InvHolds(states, labels, b);
    assert CI.StartTells(states[b], labels[b].t);
    OwnedMeansPublished(states, labels, a, c);
    OwnedMeansPublished(states, labels, b, c);
  }

  lemma PublishedAfter(states: seq<Sys>, labels: seq<Label>, c: Child, a: nat, k: nat) returns (b: int)
    requires IsRun(states, labels) && k < |states| && a < k
    requires LookedUpAt(states, labels, c, a) && c !in states[a].hist.owner && c in states[k].hist.owner
    ensures a < b < k && PublishedAt(states, labels, c, b)
  {
    OwnedMeansPublished(states, labels, k, c);
    OwnedMeansPublished(states, labels, a, c);
    b :| b < k && PublishedAt(states, labels, c, b);
  }

  /** If no lookup of its pid was shadowed, a published child that was looked up has no
      record exactly if it was looked up first. */
  lemma UnrecordedMeansEarly(states: seq<Sys>, labels: seq<Label>, k: nat, c: Child)
    requires IsRun(states, labels) && k < |states| && Clean(states, labels, k, c.pid)
    requires c in states[k].hist.owner && c in states[k].hist.seen
    ensures c !in states[k].hist.landed <==> EarlyReap(states, labels, c, k)
  {
    if c !in states[k].hist.landed {
      SeenMeansLookedUp(states, labels, k, c);
      var a :| a < k && LookedUpAt(states, labels, c, a);
      HomeExactlyIfUnshadowed(states, labels, a, k, c);
      var b := PublishedAfter(states, labels, c, a, k);
    }
    if EarlyReap(states, labels, c, k) {
      var a, b :| a < b < k && LookedUpAt(states, labels, c, a) && PublishedAt(states, labels, c, b);
      UnownedAtPublication(states, labels, c, a, b);
      HomeExactlyIfUnshadowed(states, labels, a, k, c);
    }
  }

  lemma EarlyMeansUnrecorded(states: seq<Sys>, labels: seq<Label>, k: nat, c: Child)
    requires IsRun(states, labels) && k < |states| && Clean(states, labels, k, c.pid) && EarlyReap(states, labels, c, k)
    ensures c in states[k].hist.owner && c in states[k].hist.seen && c !in states[k].hist.landed
  {
    SeenMeansLookedUp(states, labels, k, c);
    OwnedMeansPublished(states, labels, k, c);
    UnrecordedMeansEarly(states, labels, k, c);
  }

  // ---------------------------------------------------------------------------------------
  // Clones the reaper does not know of

  /** `waitpid` failed with ECHILD at step `a`, and the reaper has not acted on it at `k`. */
  ghost predicate KnowsNoChild(states: seq<Sys>, labels: seq<Label>, a: int, k: nat) {
    && 0 <= a < |labels| && a < k < |states| && labels[a] == SawNoChild
    && forall m :: a < m <= k ==> states[m].reaper == NoChild
  }

  /** Child `c` was cloned after the ECHILD the reaper is about to act on. */
  ghost predicate LateClone(states: seq<Sys>, labels: seq<Label>, c: Child, k: nat) {
    exists a, j :: KnowsNoChild(states, labels, a, k) && a < j < k && ClonedAt(labels, c, j)
  }

  lemma StepOfIdleReaper(s: Sys, l: Label, c: Child)
    requires Enabled(s, l)
    ensures Next(s, l).reaper == NoChild ==> l == SawNoChild || s.reaper == NoChild
    ensures s.reaper == NoChild ==>
              (c in Next(s, l).children <==> c in s.children || (l.Local? && l.a == GotChild(c)))
    ensures l == SawNoChild ==> Next(s, l).children == {}
  {
    match l
    case Local(t, a) => SI.LocalMoves(s, t, a);
    case DoStop(_, _) => SI.StopOnlyStops(s, l);
    case DoStopAll => SI.StopOnlyStops(s, l);
    case _ => OtherOfIdleReaper(s, l);
  }

  lemma OtherOfIdleReaper(s: Sys, l: Label)
    requires Enabled(s, l) && !l.Local? && !l.DoStop? && !l.DoStopAll?
    ensures Next(s, l).reaper == NoChild ==> l == SawNoChild || s.reaper == NoChild
    ensures s.reaper == NoChild || l == SawNoChild ==> Next(s, l).children == s.children
  {
  }

  lemma IdleNext(states: seq<Sys>, labels: seq<Label>, k: nat, c: Child)
    requires IsRun(states, labels) && 0 < k < |states|
    ensures states[k].reaper == NoChild ==> labels[k - 1] == SawNoChild || states[k - 1].reaper == NoChild
    ensures states[k - 1].reaper == NoChild ==>
              (c in states[k].children <==> c in states[k - 1].children || ClonedAt(labels, c, k - 1))
    ensures labels[k - 1] == SawNoChild ==> states[k].children == {}
  {
    assert StepAt(states, labels, k - 1);
    StepOfIdleReaper(states[k - 1], labels[k - 1], c);
  }

  lemma {:induction false} ChildrenSince(states: seq<Sys>, labels: seq<Label>, a: nat, k: nat, c: Child)
    requires IsRun(states, labels) && KnowsNoChild(states, labels, a, k)
    ensures c in states[k].children <==> exists j :: a < j < k && ClonedAt(labels, c, j)
    decreases k
  {
    IdleNext(states, labels, k, c);
    if k > a + 1 {
      ChildrenSince(states, labels, a, k - 1, c);
    }
  }

  lemma {:induction false} LastLook(states: seq<Sys>, labels: seq<Label>, k: nat) returns (a: nat)
    requires IsRun(states, labels) && k < |states| && states[k].reaper == NoChild
    ensures KnowsNoChild(states, labels, a, k)
  {
    IdleNext(states, labels, k, Child(0, 0));
    if labels[k - 1] == SawNoChild {
      a := k - 1;
    } else {
      a := LastLook(states, labels, k - 1);
    }
  }

  /** While the reaper acts on an ECHILD, the unreaped children are exactly the late ones. */
  lemma UnreapedMeansLate(states: seq<Sys>, labels: seq<Label>, k: nat, c: Child)
    requires IsRun(states, labels) && k < |states| && states[k].reaper == NoChild
    ensures c in states[k].children <==> LateClone(states, labels, c, k)
  {
    var a := LastLook(states, labels, k);
    ChildrenSince(states, labels, a, k, c);
    if LateClone(states, labels, c, k) {
      var b, j :| KnowsNoChild(states, labels, b, k) && b < j < k && ClonedAt(labels, c, j);
      ChildrenSince(states, labels, b, k, c);
    }
  }
}
