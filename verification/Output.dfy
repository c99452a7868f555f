/** From the `read` calls to the log files: what the labels of a run say the producers read, and
    where every byte of it is. */
module Output {
  import opened CTypes
  import opened LogQueue
  import opened Pipeline
  import R = Routing

  /** The chunks that `read` has delivered to producer `i` before step `k`. */
  ghost function ChunksRead(labels: seq<Label>, i: int, k: nat): seq<Entry>
    requires k <= |labels|
  {
    if k == 0 then []
    else
      var l := labels[k - 1];
      ChunksRead(labels, i, k - 1) + (if l.Read? && l.i == i then [Entry(i, l.data)] else [])
  }

  /** The bytes of these chunks. */
  ghost function BytesRead(labels: seq<Label>, i: int, k: nat): seq<Byte>
    requires k <= |labels|
  {
    if k == 0 then []
    else
      var l := labels[k - 1];
      BytesRead(labels, i, k - 1) + (if l.Read? && l.i == i then l.data else [])
  }

  lemma {:induction false} ChunksAndBytes(labels: seq<Label>, i: int, k: nat)
    requires k <= |labels|
    ensures Bytes(ChunksRead(labels, i, k)) == BytesRead(labels, i, k)
  {
    if k > 0 {
      ChunksAndBytes(labels, i, k - 1);
      if labels[k - 1].Read? && labels[k - 1].i == i {
        R.BytesLast(ChunksRead(labels, i, k - 1), Entry(i, labels[k - 1].data));
      } else {
        assert ChunksRead(labels, i, k) == ChunksRead(labels, i, k - 1);
      }
    }
  }

  // ---------------------------------------------------------------------------------------
  // What a producer has read

  /** A thread that has not been created has read nothing. */
  ghost predicate HasRead(w: World, i: int, es: seq<Entry>) {
    if i in w.producers then i in w.read && w.read[i] == es else es == []
  }

  lemma PassKeepsReads(w: World, l: Label, i: int, es: seq<Entry>)
    requires Enabled(w, l) && (l.PushPass? || l.PopPass?) && HasRead(w, i, es)
    ensures HasRead(Next(w, l), i, es)
  {
    if l.PopPass? {
      R.PopLeavesTheRest(w, l.wakes);
    }
  }

  lemma StepReads(w: World, l: Label, i: int, es: seq<Entry>)
    requires Enabled(w, l) && HasRead(w, i, es)
    ensures HasRead(Next(w, l), i, es + (if l.Read? && l.i == i then [Entry(i, l.data)] else []))
  {
    if l.PushPass? || l.PopPass? {
      PassKeepsReads(w, l, i, es);
    }
  }

  lemma ReadForOneStep(worlds: seq<World>, labels: seq<Label>, k: nat, i: int)
    requires IsRun(worlds, labels) && 0 < k < |worlds| && HasRead(worlds[k - 1], i, ChunksRead(labels, i, k - 1))
    ensures HasRead(worlds[k], i, ChunksRead(labels, i, k))
  {
    assert StepAt(worlds, labels, k - 1);
    StepReads(worlds[k - 1], labels[k - 1], i, ChunksRead(labels, i, k - 1));
  }

  /** What the model holds as read by a producer is, chunk by chunk, what `read` delivered. */
  lemma {:induction false} ReadsAreKept(worlds: seq<World>, labels: seq<Label>, k: nat, i: int)
    requires IsRun(worlds, labels) && k < |worlds|
    ensures HasRead(worlds[k], i, ChunksRead(labels, i, k))
  {
    if k > 0 {
      ReadsAreKept(worlds, labels, k - 1, i);
      ReadForOneStep(worlds, labels, k, i);
    }
  }

  lemma StepKeepsBefore(w: World, l: Label)
    requires Enabled(w, l)
    ensures Next(w, l).before == w.before
  {
    if l.PopPass? {
      R.PopLeavesTheRest(w, l.wakes);
    }
  }

  lemma {:induction false} BeforeIsInitial(worlds: seq<World>, labels: seq<Label>, k: nat)
    requires IsRun(worlds, labels) && k < |worlds|
    ensures worlds[k].before == worlds[0].files
  {
    if k > 0 {
      BeforeIsInitial(worlds, labels, k - 1);
      assert StepAt(worlds, labels, k - 1);
      StepKeepsBefore(worlds[k - 1], labels[k - 1]);
    }
  }

  // ---------------------------------------------------------------------------------------
  // When a producer stops

  /** Step `j` is the end of producer `i`: end of file, or a push refused after shutdown. */
  ghost predicate EndedAt(worlds: seq<World>, labels: seq<Label>, i: int, j: int) {
    (0 <= j < |labels| && labels[j] == Eof(i)) || R.RefusedAt(worlds, labels, i, j)
  }

  ghost predicate IsDone(w: World, i: int) {
    i in w.producers && w.producers[i] == Done
  }

  lemma PopKeepsDone(w: World, l: Label, i: int)
    requires Enabled(w, l) && l.PopPass?
    ensures IsDone(Next(w, l), i) <==> IsDone(w, i)
  {
    R.PopLeavesTheRest(w, l.wakes);
  }

  lemma StepEnds(w: World, l: Label, i: int)
    requires Enabled(w, l)
    ensures IsDone(Next(w, l), i) <==>
            IsDone(w, i) || l == Eof(i) || (l.PushPass? && l.i == i && w.log.queue.shutdown)
  {
    if l.PopPass? {
      PopKeepsDone(w, l, i);
    }
  }

  lemma EndForOneStep(worlds: seq<World>, labels: seq<Label>, k: nat, i: int)
    requires IsRun(worlds, labels) && 0 < k < |worlds|
    ensures IsDone(worlds[k], i) <==> IsDone(worlds[k - 1], i) || EndedAt(worlds, labels, i, k - 1)
  {
    assert StepAt(worlds, labels, k - 1);
    StepEnds(worlds[k - 1], labels[k - 1], i);
  }

  /** A producer reads on until end of file or a push refused after shutdown, and no longer. */
  lemma {:induction false} DoneExactly(worlds: seq<World>, labels: seq<Label>, k: nat, i: int)
    requires IsRun(worlds, labels) && k < |worlds|
    ensures IsDone(worlds[k], i) <==> exists j :: j < k && EndedAt(worlds, labels, i, j)
  {
    if k > 0 {
      DoneExactly(worlds, labels, k - 1, i);
      EndForOneStep(worlds, labels, k, i);
    }
  }

  // ---------------------------------------------------------------------------------------
  // Theorems

  /** A producer's chunks, exactly as `read` delivered them, are accepted in order; it loses at
      most one, of at most 512 bytes, and only to a shutdown. */
  lemma ProducerLosesAtMostOneChunk(worlds: seq<World>, labels: seq<Label>, k: nat, i: int)
    requires IsRun(worlds, labels) && k < |worlds| && i in worlds[k].producers
    ensures var w, chunks := worlds[k], ChunksRead(labels, i, k);
            && i in w.dropped && Of(i, w.log.accepted) <= chunks
            && |chunks| <= |Of(i, w.log.accepted)| + 1
            && (w.producers[i] == Reading ==> Of(i, w.log.accepted) == chunks)
            && (w.producers[i] == Done && !w.log.queue.shutdown ==> Of(i, w.log.accepted) == chunks)
            && (w.producers[i] == Done ==> chunks == Of(i, w.log.accepted) + w.dropped[i])
            && |Bytes(w.dropped[i])| <= CHUNK_SIZE
  {
    R.InvHolds(worlds, labels, k);
    ReadsAreKept(worlds, labels, k, i);
    R.ProducerAccount(worlds[k], i);
  }

  lemma SplitBytes(a: seq<Entry>, b: seq<Entry>, c: seq<Entry>)
    ensures Bytes(a + b + c) == Bytes(a) + Bytes(b) + Bytes(c)
  {
    BytesConcat(a + b, c);
    BytesConcat(a, b);
  }

  lemma Balance(file: seq<Byte>, hand: seq<Byte>, buffered: seq<Byte>, first: seq<Byte>, accepted: seq<Byte>, pending: seq<Byte>, dropped: seq<Byte>)
    requires file + hand + buffered == first + accepted
    ensures file + hand + buffered + pending + dropped == first + (accepted + pending + dropped)
  {
  }

  /** Every byte that `read` delivered to the producer of a container is accounted for: its log
      file, then the chunk in the consumer's hand if it is this container's, then its buffered
      chunks, then the chunk being pushed, then the dropped one, is what the file held at the
      start followed by exactly these bytes in order. */
  lemma OutputIsAccountedFor(worlds: seq<World>, labels: seq<Label>, k: nat, i: int)
    requires IsRun(worlds, labels) && k < |worlds| && i in worlds[k].producers
    ensures i in worlds[k].dropped
    ensures var w := worlds[k];
            Content(w.files, PathOf(w, i)) + Bytes(Of(i, InHand(w.consumer))) + Bytes(Of(i, w.log.queue.items))
              + Bytes(Pending(w, i)) + Bytes(w.dropped[i])
            == Content(worlds[0].files, PathOf(w, i)) + BytesRead(labels, i, k)
  {
    var w := worlds[k];
    R.InvHolds(worlds, labels, k);
    assert ProducerMatches(w, i);
    R.LogsAreRouted(worlds, labels, k, i);
    BeforeIsInitial(worlds, labels, k);
    ReadsAreKept(worlds, labels, k, i);
    ChunksAndBytes(labels, i, k);
    SplitBytes(Of(i, w.log.accepted), Pending(w, i), w.dropped[i]);
    Balance(Content(w.files, PathOf(w, i)), Bytes(Of(i, InHand(w.consumer))), Bytes(Of(i, w.log.queue.items)),
            Content(w.before, PathOf(w, i)), Bytes(Of(i, w.log.accepted)), Bytes(Pending(w, i)), Bytes(w.dropped[i]));
  }

  lemma OneChunk(e: Entry)
    ensures Bytes([e]) == e.data
  {
    assert [e] == [] + [e];
    R.BytesLast([], e);
  }

  lemma DroppedHasBytes(w: World, es: seq<Entry>)
    requires |es| <= 1 && AllRooted(w, es)
    ensures Bytes(es) == [] <==> es == []
  {
    if es != [] {
      assert es == [es[0]] && Rooted(w, es[0]);
      OneChunk(es[0]);
    }
  }

  /** Bytes of a producer that is not inside push are missing from what was accepted exactly if
      one of its pushes ran after shutdown. */
  lemma LossExactly(worlds: seq<World>, labels: seq<Label>, k: nat, i: int)
    requires IsRun(worlds, labels) && k < |worlds| && i in worlds[k].producers && worlds[k].producers[i] != Pushing
    ensures Bytes(Of(i, worlds[k].log.accepted)) != BytesRead(labels, i, k) <==>
            exists j :: j < k && R.RefusedAt(worlds, labels, i, j)
  {
    var w := worlds[k];
    R.InvHolds(worlds, labels, k);
    assert ProducerMatches(w, i);
    R.DroppedMeansRefused(worlds, labels, k, i);
    ReadsAreKept(worlds, labels, k, i);
    ChunksAndBytes(labels, i, k);
    R.ProducerAccount(w, i);
    BytesConcat(Of(i, w.log.accepted), w.dropped[i]);
    DroppedHasBytes(w, w.dropped[i]);
  }

  /** When the consumer has exited and a producer is not inside push, the log file is what it was
      at the start followed by everything `read` delivered to that producer, exactly if none of
      its pushes ran after shutdown. */
  lemma ExitMeansAllIsLogged(worlds: seq<World>, labels: seq<Label>, k: nat, i: int)
    requires IsRun(worlds, labels) && k < |worlds| && worlds[k].consumer == Gone
    requires i in worlds[k].producers && worlds[k].producers[i] != Pushing
    ensures var w := worlds[k];
            Content(w.files, PathOf(w, i)) == Content(worlds[0].files, PathOf(w, i)) + BytesRead(labels, i, k) <==>
            !exists j :: j < k && R.RefusedAt(worlds, labels, i, j)
  {
    var w := worlds[k];
    R.InvHolds(worlds, labels, k);
    assert ProducerMatches(w, i);
    R.ExitMeansDelivered(worlds, labels, k, i);
    BeforeIsInitial(worlds, labels, k);
    LossExactly(worlds, labels, k, i);
    SameTail(Content(w.before, PathOf(w, i)), Bytes(Of(i, w.log.accepted)), BytesRead(labels, i, k));
  }

  lemma SameTail(a: seq<Byte>, b: seq<Byte>, c: seq<Byte>)
    ensures a + b == a + c <==> b == c
  {
    assert (a + b)[|a|..] == b && (a + c)[|a|..] == c;
  }
}
