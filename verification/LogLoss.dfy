/** A run of the whole log path in which output is lost: the buffer is shut down between a
    producer's `read` and its push. */
module LogLoss {
  import opened LogQueue
  import opened Pipeline
  import LS = LogSync
  import LC = Lifecycle
  import W = Witnesses
  import CI = ChildInvariant
  import O = Output

  ghost predicate EndsIn(worlds: seq<World>, labels: seq<Label>, w: World) {
    IsRun(worlds, labels) && worlds[|labels|] == w
  }

  ghost predicate Reachable(w: World) {
    exists worlds, labels :: EndsIn(worlds, labels, w)
  }

  lemma Extend(worlds: seq<World>, labels: seq<Label>, w: World, l: Label)
    requires EndsIn(worlds, labels, w) && Enabled(w, l)
    ensures EndsIn(worlds + [Next(w, l)], labels + [l], Next(w, l))
  {
    var worlds', labels' := worlds + [Next(w, l)], labels + [l];
    forall k | 0 <= k < |labels'|
      ensures StepAt(worlds', labels', k)
    {
      if k < |labels| {
        assert StepAt(worlds, labels, k);
      }
    }
  }

  lemma Step(w: World, l: Label) returns (w': World)
    requires Reachable(w) && Enabled(w, l)
    ensures w' == Next(w, l) && Reachable(w')
  {
    var worlds, labels :| EndsIn(worlds, labels, w);
    w' := Next(w, l);
    Extend(worlds, labels, w, l);
  }

  /** Nothing has been logged yet. */
  ghost function Quiet(s: LC.Sys): World {
    World(s, LS.INIT, map[], Idle, map[], map[], map[], map[], [], [])
  }

  /** Runs of the supervisor are runs of the whole. */
  lemma Lift(states: seq<LC.Sys>, labels: seq<LC.Label>, s: LC.Sys)
    requires W.EndsIn(states, labels, s)
    ensures Reachable(Quiet(s))
  {
    var worlds := seq(|states|, k requires 0 <= k < |states| => Quiet(states[k]));
    var tables := seq(|labels|, k requires 0 <= k < |labels| => Table(labels[k]));
    forall k | 0 <= k < |tables|
      ensures StepAt(worlds, tables, k)
    {
      assert LC.StepAt(states, labels, k);
    }
    assert EndsIn(worlds, tables, Quiet(s));
  }

  lemma WithContainer() returns (w: World)
    ensures Reachable(w) && w == Quiet(w.sys) && 0 in w.sys.hist.published
  {
    W.InitIsReachable();
    var s := W.Starts(LC.INIT, W.START, 0, 1, W.A, 0, W.OLD);
    var states, labels :| W.EndsIn(states, labels, s);
    CI.InvHolds(states, labels, |labels|);
    assert 0 in W.View(s).tenant;
    Lift(states, labels, s);
    w := Quiet(s);
  }

  const CHUNK: Entry := Entry(0, [65])

  /** Producer 0 has read a chunk and is about to push it. */
  ghost predicate Holds(w: World) {
    && 0 in w.producers && w.producers[0] == Pushing && 0 in w.read && w.read[0] == [CHUNK] && 0 in w.dropped
    && 0 in w.log.pushing && w.log.pushing[0] == CHUNK && w.log.pushAsleep == {} && w.log.popAsleep == {} && w.log.accepted == []
  }

  lemma AfterRead() returns (w: World)
    ensures Reachable(w) && Holds(w)
  {
    w := WithContainer();
    w := Step(w, Spawn(0));
    w := Step(w, Read(0, [65]));
  }

  /** The chunk is read, the buffer shuts down, the push is refused: the byte reaches no file. */
  lemma LossHappens() returns (worlds: seq<World>, labels: seq<Label>)
    ensures IsRun(worlds, labels)
    ensures var w := worlds[|labels|];
            && 0 in w.producers && w.producers[0] == Done && 0 in w.read
            && w.read[0] == [CHUNK] && w.log.accepted == [] && O.BytesRead(labels, 0, |labels|) == [65]
  {
    var w := AfterRead();
    w := Step(w, Background(LS.CallShutdown));
    w := Step(w, PushPass(0, {}));
    worlds, labels :| EndsIn(worlds, labels, w);
    O.ReadsAreKept(worlds, labels, |labels|, 0);
    O.ChunksAndBytes(labels, 0, |labels|);
    O.OneChunk(CHUNK);
  }
}
