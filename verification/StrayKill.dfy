/** A run of supervisor and monitor in which a container within its own limits is killed for the
    limits of another one that has already exited. */
module StrayKill {
  import opened Containers
  import opened Watch
  import LC = Lifecycle
  import W = Witnesses
  import P = MonitorPolicy
  import M = MonitorRuns
  import U = MonitorUnits

  ghost predicate EndsIn(worlds: seq<World>, labels: seq<Label>, w: World) {
    IsRun(worlds, labels) && worlds[|labels|] == w
  }

  lemma Extend(worlds: seq<World>, labels: seq<Label>, w: World, l: Label)
    requires EndsIn(worlds, labels, w) && Enabled(w, l)
    ensures EndsIn(worlds + [Next(w, l)], labels + [l], Next(w, l))
  {
    var worlds', labels' := worlds + [Next(w, l)], labels + [l];
    forall k | 0 <= k < |labels'|
      ensures StepAt(worlds', labels', k)
    {
      if k < |labels| {
        assert StepAt(worlds, labels, k);
      }
    }
  }

  /** Nothing has been registered yet. */
  ghost function Unwatched(s: LC.Sys): World {
    World(s, [], {}, map[])
  }

  /** Runs of the supervisor are runs of the whole. */
  lemma Lift(states: seq<LC.Sys>, labels: seq<LC.Label>, s: LC.Sys) returns (worlds: seq<World>, tables: seq<Label>)
    requires W.EndsIn(states, labels, s)
    ensures EndsIn(worlds, tables, Unwatched(s))
  {
    worlds := seq(|states|, k requires 0 <= k < |states| => Unwatched(states[k]));
    tables := seq(|labels|, k requires 0 <= k < |labels| => Table(labels[k], true));
    forall k | 0 <= k < |tables|
      ensures StepAt(worlds, tables, k)
    {
      assert LC.StepAt(states, labels, k);
    }
  }

  /** "b" is allowed 128 MiB, "a" only 64. */
  const ROOMY: Request := Request("b", "/b", "sh", 40, 128, 0)

  lemma FirstWaitedFor() returns (s: LC.Sys)
    ensures W.Rests(s, W.START.(slots := LC.NoContainers()[0 := W.Published(W.A, 3)], reaper := LC.Reaped(W.OLD, WExited(0)),
                                cloned := {W.OLD}, tenant := map[0 := W.OLD]), 1, 6)
    ensures W.At(s, 0, 0, LC.Up(W.OLD))
  {
    W.InitIsReachable();
    W.FirstClaim(W.A);
    s := W.Starts(LC.INIT, W.START, 0, 1, W.A, 0, W.OLD);
    s := W.WaitsFor(s, W.View(s), 1, 6, W.OLD, WExited(0));
  }

  /** "a" has exited and been waited for; "b" got its pid. */
  lemma BothStarted() returns (s: LC.Sys)
    ensures W.Reachable(s, {}) && W.At(s, 0, 0, LC.Up(W.OLD)) && s.children == {W.NEW} && s.reaper == LC.Reaped(W.OLD, WExited(0))
    ensures |s.slots| == MAX_CONTAINERS && s.slots[0] == W.Published(W.A, 3)
    ensures s.slots[1] == NewSlot(ROOMY, 0).(pid := 7, stack := 8, state := Running)
  {
    s := FirstWaitedFor();
    assert W.A.id[0] != ROOMY.id[0] && W.A.rootfs[1] != ROOMY.rootfs[1];
    W.NextClaim(s.slots, 0, ROOMY);
    s := W.Starts(s, W.View(s), 1, 6, ROOMY, 1, W.NEW);
  }

  /** The pass finds 100 MiB. */
  ghost function Looks(): P.Looks {
    map[7 := P.Pages(100 * 256)]
  }

  lemma KillsAt100(list: seq<P.Entry>)
    requires P.WellFormed(list) && P.Lookup(list, 7) == P.Tracked(40, 64, false)
    ensures M.Count(P.Of(7, P.TickEvents(list, Looks())), true) == 1 && !P.OverHard(Looks(), 7, 128)
  {
    U.RssOfMebibytes(100);
    P.TickRefines(list, Looks(), 7);
    M.ReportCounts(P.Lookup(list, 7), Looks(), 7);
  }

  lemma RegisteredLate(s: LC.Sys, worlds: seq<World>, labels: seq<Label>) returns (worlds': seq<World>, labels': seq<Label>, w: World)
    requires EndsIn(worlds, labels, Unwatched(s)) && W.At(s, 0, 0, LC.Up(W.OLD)) && |s.slots| == MAX_CONTAINERS && s.slots[0] == W.Published(W.A, 3)
    ensures EndsIn(worlds', labels', w) && w.sys == s && P.WellFormed(w.list) && P.Lookup(w.list, 7) == P.Tracked(40, 64, false)
    ensures 7 in w.origin && w.origin[7] == W.OLD
  {
    var l := Register(0, true, true);
    w := Next(Unwatched(s), l);
    Extend(worlds, labels, Unwatched(s), l);
    worlds', labels' := worlds + [w], labels + [l];
    P.RegisterRefines([], 7, 40, 64, true, 7);
  }

  /** The start of "a" registers it after `waitpid` has returned its pid and the kernel has given
      the pid to "b".  The next pass finds "b" at 100 MiB, within its own 128, and kills it. */
  lemma StrayKillHappens() returns (worlds: seq<World>, labels: seq<Label>, k: nat)
    ensures IsRun(worlds, labels) && k + 1 == |labels| && labels[k] == Tick(Looks())
    ensures M.Count(P.Of(7, P.TickEvents(worlds[k].list, Looks())), true) == 1 && !P.OverHard(Looks(), 7, 128)
    ensures var s := worlds[k].sys;
            && s.children == {W.NEW} && 7 in worlds[k].origin && worlds[k].origin[7] == W.OLD
            && |s.slots| == MAX_CONTAINERS && s.slots[1].id == "b" && s.slots[1].pid == 7 && s.slots[1].hardMib == 128
  {
    var s := BothStarted();
    var w;
    var states, steps :| W.EndsIn(states, steps, s);
    worlds, labels := Lift(states, steps, s);
    worlds, labels, w := RegisteredLate(s, worlds, labels);
    k := |labels|;
    KillsAt100(w.list);
    Extend(worlds, labels, w, Tick(Looks()));
    worlds, labels := worlds + [Next(w, Tick(Looks()))], labels + [Tick(Looks())];
  }
}
