/** Proof that every chunk ends up, once and in order, in the log file of its own container. */
module Routing {
  import opened Containers
  import opened CTypes
  import opened LogQueue
  import opened Pipeline
  import LS = LogSync
  import LC = Lifecycle
  import SI = SlotInvariant
  import SH = SlotHistory
  import EX = Exclusivity

  // ---------------------------------------------------------------------------------------
  // Steps of the supervisor

  /** Published containers stay published and keep their log file. */
  ghost predicate TableGrows(w: World, w': World) {
    && w' == w.(sys := w'.sys)
    && w.sys.hist.published <= w'.sys.hist.published
    && (forall i :: i in w.sys.hist.published ==> PathOf(w', i) == PathOf(w, i))
  }

  lemma StepKeepsPaths(s: LC.Sys, l: LC.Label, i: nat)
    requires SI.Inv(s) && LC.Enabled(s, l) && i in s.hist.published
    ensures i < |s.slots| && i < |LC.Next(s, l).slots| && LC.Next(s, l).slots[i].logFile == s.slots[i].logFile
  {
    assert SI.SlotMatches(s, i);
    if !l.DoClaim? {
      SI.StepEvolves(s, l);
      assert SI.Evolves(s.slots[i], LC.Next(s, l).slots[i]);
    }
  }

  lemma TableStepGrows(w: World, l: LC.Label)
    requires Inv(w) && LC.Enabled(w.sys, l)
    ensures TableGrows(w, Next(w, Table(l)))
  {
    SH.StepKeepsPublished(w.sys, l);
    forall i | i in w.sys.hist.published
      ensures PathOf(Next(w, Table(l)), i) == PathOf(w, i)
    {
      StepKeepsPaths(w.sys, l, i);
    }
  }

  lemma PublishedPathsDiffer(w: World, i: int, j: int)
    requires SI.Inv(w.sys) && EX.Exclusive(w.sys.slots)
    requires i in w.sys.hist.published && j in w.sys.hist.published && i != j
    ensures PathOf(w, i) != PathOf(w, j) && PathOf(w, i) != ""
  {
    assert SI.SlotMatches(w.sys, i) && SI.SlotMatches(w.sys, j);
    var a, b := w.sys.slots[if i < j then i else j], w.sys.slots[if i < j then j else i];
    assert EX.Apart(a, b) && EX.Named(a) && EX.Named(b);
    LogPathIsInjective(a.id, b.id);
    LogPathIsInjective(b.id, a.id);
  }

  lemma WrittenIsRooted(w: World)
    requires Inv(w)
    ensures AllRooted(w, w.written)
  {
    forall e | e in w.written
      ensures Rooted(w, e)
    {
      assert e in w.log.handed;
      assert e in w.log.accepted;
    }
  }

  lemma NewcomerHasNoFile(w: World, w': World, i: int)
    requires Inv(w) && TableGrows(w, w') && SI.Inv(w'.sys) && EX.Exclusive(w'.sys.slots)
    requires i in w'.sys.hist.published && i !in w.sys.hist.published
    ensures FileMatches(w', i)
  {
    forall j | j in w.sys.hist.published
      ensures PathOf(w, j) != PathOf(w', i)
    {
      PublishedPathsDiffer(w', i, j);
    }
    assert Foreign(w, PathOf(w', i));
    WrittenIsRooted(w);
    assert i in w.producers ==> ProducerMatches(w, i);
    OfNone(i, w.written);
  }

  lemma TableKeepsFiles(w: World, w': World)
    requires Inv(w) && TableGrows(w, w') && SI.Inv(w'.sys) && EX.Exclusive(w'.sys.slots)
    ensures FilesMatch(w')
  {
    forall i | i in w'.sys.hist.published
      ensures FileMatches(w', i)
    {
      if i in w.sys.hist.published {
        assert FileMatches(w, i);
      } else {
        NewcomerHasNoFile(w, w', i);
      }
    }
    forall path | Foreign(w', path)
      ensures Content(w'.files, path) == Content(w'.before, path)
    {
      forall i | i in w.sys.hist.published
        ensures PathOf(w, i) != path
      {
        assert PathOf(w', i) != path;
      }
      assert Foreign(w, path);
    }
  }

  lemma TableKeepsRest(w: World, w': World)
    requires Inv(w) && TableGrows(w, w')
    ensures ProducersMatch(w') && ConsumerMatches(w')
  {
    forall i | i in w'.producers
      ensures ProducerMatches(w', i)
    {
      assert ProducerMatches(w, i);
    }
    forall e | e in w'.log.accepted
      ensures Rooted(w', e)
    {
      assert Rooted(w, e);
    }
    if w.consumer.Writing? {
      assert w.consumer.e in w.log.handed;
      assert w.consumer.e in w.log.accepted;
      assert Rooted(w, w.consumer.e) && ProducerMatches(w, w.consumer.e.index);
    }
  }

  lemma TableKeepsInv(w: World, l: LC.Label)
    requires Inv(w) && LC.Enabled(w.sys, l)
    ensures Inv(Next(w, Table(l)))
  {
    var w' := Next(w, Table(l));
    SI.StepKeepsInv(w.sys, l);
    EX.StepKeepsExclusive(w.sys, l);
    TableStepGrows(w, l);
    TableKeepsFiles(w, w');
    TableKeepsRest(w, w');
  }

  // ---------------------------------------------------------------------------------------
  // Steps of the producers

  /** The table, the consumer and the files are as before; what was accepted and handed out
      may only have been extended. */
  lemma FilesUntouched(w: World, w': World)
    requires FilesMatch(w)
    requires w'.sys == w.sys && w'.files == w.files && w'.before == w.before && w'.written == w.written
    ensures FilesMatch(w')
  {
    forall i | i in w'.sys.hist.published
      ensures FileMatches(w', i)
    {
      assert FileMatches(w, i);
    }
    forall path | Foreign(w', path)
      ensures Content(w'.files, path) == Content(w'.before, path)
    {
      forall i | i in w.sys.hist.published
        ensures PathOf(w, i) != path
      {
        assert PathOf(w', i) != path;
      }
      assert Foreign(w, path);
    }
  }

  /** Nothing about the other producers changed. */
  ghost predicate OthersSame(w: World, w': World, i: int) {
    && w'.sys == w.sys
    && (forall j :: j in w.producers ==> j in w'.producers)
    && (forall j :: j in w'.producers && j != i ==> j in w.producers && w'.producers[j] == w.producers[j])
    && (forall j :: j in w.read && j != i ==> j in w'.read && w'.read[j] == w.read[j])
    && (forall j :: j in w.dropped && j != i ==> j in w'.dropped && w'.dropped[j] == w.dropped[j])
    && (forall j: nat :: j != i ==> (j in w'.log.pushing <==> j in w.log.pushing) && (j in w.log.pushing ==> w'.log.pushing[j] == w.log.pushing[j]))
    && (w.log.queue.shutdown ==> w'.log.queue.shutdown)
    && (forall j :: j != i ==> Of(j, w'.log.accepted) == Of(j, w.log.accepted))
  }

  lemma ProducerKeeps(w: World, w': World, i: int)
    requires ProducersMatch(w) && OthersSame(w, w', i)
    requires i in w'.producers && ProducerMatches(w', i) && AllRooted(w', w'.log.accepted)
    ensures ProducersMatch(w')
  {
    forall j | j in w'.producers && j != i
      ensures ProducerMatches(w', j)
    {
      assert ProducerMatches(w, j);
    }
  }

  lemma RootedStays(w: World, w': World, es: seq<Entry>)
    requires AllRooted(w, es) && forall j :: j in w.producers ==> j in w'.producers
    ensures AllRooted(w', es)
  {
    forall e | e in es
      ensures Rooted(w', e)
    {
      assert Rooted(w, e);
    }
  }

  lemma SpawnKeeps(w: World, i: int)
    requires ProducersMatch(w) && i >= 0 && i in w.sys.hist.published && i !in w.producers
    ensures ProducersMatch(AfterSpawn(w, i))
  {
    var w' := AfterSpawn(w, i);
    RootedStays(w, w', w.log.accepted);
    OfNone(i, w.log.accepted) by {
      assert forall e :: e in w.log.accepted ==> Rooted(w, e);
    }
    ProducerKeeps(w, w', i);
  }

  lemma ReadKeeps(w: World, i: int, data: seq<Byte>)
    requires ProducersMatch(w) && CanRead(w, i) && 0 < |data| <= CHUNK_SIZE
    ensures ProducersMatch(AfterRead(w, i, data))
  {
    var w' := AfterRead(w, i, data);
    assert ProducerMatches(w, i);
    RootedStays(w, w', w.log.accepted);
    assert w'.read[i] == Of(i, w.log.accepted) + Pending(w', i) + w'.dropped[i];
    ProducerKeeps(w, w', i);
  }

  lemma EofKeeps(w: World, i: int)
    requires ProducersMatch(w) && i in w.producers && w.producers[i] == Reading
    ensures ProducersMatch(w.(producers := w.producers[i := Done]))
  {
    var w' := w.(producers := w.producers[i := Done]);
    assert ProducerMatches(w, i);
    RootedStays(w, w', w.log.accepted);
    RootedStays(w, w', w.dropped[i]);
    ProducerKeeps(w, w', i);
  }

  lemma OfLast(j: int, es: seq<Entry>, e: Entry)
    ensures Of(j, es + [e]) == if e.index == j then Of(j, es) + [e] else Of(j, es)
  {
    assert (es + [e])[..|es|] == es;
  }

  lemma WaitKeeps(w: World, i: int, wakes: set<LS.Tid>)
    requires ProducersMatch(w) && CanPush(w, i, wakes) && Push(w.log.queue, w.log.pushing[i]).0 == PushWaits
    ensures ProducersMatch(AfterPush(w, i, wakes))
  {
    var w' := AfterPush(w, i, wakes);
    assert ProducerMatches(w, i);
    RootedStays(w, w', w.log.accepted);
    RootedStays(w, w', w.dropped[i]);
    ProducerKeeps(w, w', i);
  }

  lemma AcceptLeavesOthers(w: World, i: int, wakes: set<LS.Tid>)
    requires CanPush(w, i, wakes) && Push(w.log.queue, w.log.pushing[i]).0 == Accepted && w.log.pushing[i].index == i
    ensures OthersSame(w, AfterPush(w, i, wakes), i)
  {
    forall j | j != i
      ensures Of(j, AfterPush(w, i, wakes).log.accepted) == Of(j, w.log.accepted)
    {
      OfLast(j, w.log.accepted, w.log.pushing[i]);
    }
  }

  lemma AcceptKeeps(w: World, i: int, wakes: set<LS.Tid>)
    requires ProducersMatch(w) && CanPush(w, i, wakes) && Push(w.log.queue, w.log.pushing[i]).0 == Accepted
    ensures ProducersMatch(AfterPush(w, i, wakes))
  {
    var w', e := AfterPush(w, i, wakes), w.log.pushing[i];
    assert ProducerMatches(w, i);
    AcceptLeavesOthers(w, i, wakes);
    OfLast(i, w.log.accepted, e);
    RootedStays(w, w', w.log.accepted + [e]);
    assert w'.read[i] == Of(i, w'.log.accepted) + Pending(w', i) + w'.dropped[i];
    ProducerKeeps(w, w', i);
  }

  lemma RefuseKeeps(w: World, i: int, wakes: set<LS.Tid>)
    requires ProducersMatch(w) && CanPush(w, i, wakes) && Push(w.log.queue, w.log.pushing[i]).0 == Refused
    ensures ProducersMatch(AfterPush(w, i, wakes))
  {
    var w', e := AfterPush(w, i, wakes), w.log.pushing[i];
    assert ProducerMatches(w, i);
    assert w'.dropped[i] == [e];
    RootedStays(w, w', w.log.accepted);
    assert w'.read[i] == Of(i, w'.log.accepted) + Pending(w', i) + w'.dropped[i];
    ProducerKeeps(w, w', i);
  }

  // ---------------------------------------------------------------------------------------
  // Steps of the consumer

  /** Nothing about the producers changed. */
  lemma ProducersUntouched(w: World, w': World)
    requires ProducersMatch(w)
    requires w'.sys == w.sys && w'.producers == w.producers && w'.read == w.read && w'.dropped == w.dropped
    requires w'.log.pushing == w.log.pushing && w'.log.accepted == w.log.accepted
    requires w.log.queue.shutdown ==> w'.log.queue.shutdown
    ensures ProducersMatch(w')
  {
    RootedStays(w, w', w.log.accepted);
    forall i | i in w'.producers
      ensures ProducerMatches(w', i)
    {
      assert ProducerMatches(w, i);
      assert Pending(w', i) == Pending(w, i);
      RootedStays(w, w', w.dropped[i]);
    }
  }

  lemma PopKeepsConsumer(w: World, wakes: set<LS.Tid>)
    requires ConsumerMatches(w) && CanPop(w, wakes)
    ensures ConsumerMatches(AfterPop(w, wakes))
  {
    var w' := AfterPop(w, wakes);
    assert w'.log.handed == w'.written + InHand(w'.consumer);
  }

  lemma InHandIsPublished(w: World)
    requires Inv(w) && (w.consumer.Holding? || w.consumer.Writing?)
    ensures w.consumer.e.index in w.sys.hist.published && Rooted(w, w.consumer.e)
    ensures 0 <= w.consumer.e.index < MAX_CONTAINERS
  {
    var e := w.consumer.e;
    assert e in w.log.handed;
    assert e in w.log.accepted;
    assert Rooted(w, e) && ProducerMatches(w, e.index);
    assert SI.Counts(w.sys);
  }

  /** The lookup always finds the file of the chunk's own container. */
  lemma LookupFinds(w: World)
    requires Inv(w) && w.consumer.Holding?
    ensures PathFor(w.sys.slots, w.consumer.e.index) == PathOf(w, w.consumer.e.index) != ""
  {
    InHandIsPublished(w);
    var i := w.consumer.e.index;
    assert SI.SlotMatches(w.sys, i) && EX.Named(w.sys.slots[i]);
    LogPathIsInjective(w.sys.slots[i].id, w.sys.slots[i].id);
  }

  lemma AppendedBytes(i: int, es: seq<Entry>, e: Entry)
    requires e.index == i
    ensures Bytes(Of(i, es + [e])) == Bytes(Of(i, es)) + e.data
  {
    OfLast(i, es, e);
    BytesLast(Of(i, es), e);
  }

  lemma WriteExtendsItsFile(w: World)
    requires Inv(w) && w.consumer.Writing?
    ensures FileMatches(AfterWrite(w), w.consumer.e.index)
  {
    var e, i := w.consumer.e, w.consumer.e.index;
    InHandIsPublished(w);
    assert FileMatches(w, i);
    AppendedBytes(i, w.written, e);
    Glue(Content(w.files, PathOf(w, i)), Content(w.before, PathOf(w, i)), Bytes(Of(i, w.written)), e.data);
  }

  lemma Glue(content: seq<Byte>, before: seq<Byte>, added: seq<Byte>, more: seq<Byte>)
    requires content == before + added
    ensures content + more == before + (added + more)
  {
  }

  lemma AppendElsewhere(w: World, i: int)
    requires w.consumer.Writing? && FileMatches(w, i) && i != w.consumer.e.index && PathOf(w, i) != w.consumer.path
    ensures FileMatches(AfterWrite(w), i)
  {
    OfLast(i, w.written, w.consumer.e);
  }

  lemma WriteLeavesOtherFiles(w: World, i: int)
    requires Inv(w) && w.consumer.Writing? && i in w.sys.hist.published && i != w.consumer.e.index
    ensures FileMatches(AfterWrite(w), i)
  {
    InHandIsPublished(w);
    PublishedPathsDiffer(w, i, w.consumer.e.index);
    AppendElsewhere(w, i);
  }

  lemma WriteLeavesForeignFiles(w: World, path: string)
    requires Inv(w) && w.consumer.Writing? && Foreign(AfterWrite(w), path)
    ensures Content(AfterWrite(w).files, path) == Content(w.before, path)
  {
    InHandIsPublished(w);
    forall i | i in w.sys.hist.published
      ensures PathOf(w, i) != path
    {
      assert PathOf(AfterWrite(w), i) != path;
    }
    assert Foreign(w, path);
    assert PathOf(w, w.consumer.e.index) != path;
  }

  lemma WriteKeepsFiles(w: World)
    requires Inv(w) && w.consumer.Writing?
    ensures FilesMatch(AfterWrite(w))
  {
    forall i | i in w.sys.hist.published
      ensures FileMatches(AfterWrite(w), i)
    {
      if i == w.consumer.e.index {
        WriteExtendsItsFile(w);
      } else {
        WriteLeavesOtherFiles(w, i);
      }
    }
    forall path | Foreign(AfterWrite(w), path)
      ensures Content(AfterWrite(w).files, path) == Content(w.before, path)
    {
      WriteLeavesForeignFiles(w, path);
    }
  }

  // ---------------------------------------------------------------------------------------
  // Every step

  /** Nothing about the consumer changed. */
  lemma ConsumerUntouched(w: World, w': World)
    requires ConsumerMatches(w)
    requires w'.sys == w.sys && w'.consumer == w.consumer && w'.written == w.written && w'.discarded == w.discarded
    requires w'.log.handed == w.log.handed && w'.log.popping == w.log.popping
    requires Pop(w.log.queue).0 == Closed ==> w'.log.queue == w.log.queue
    ensures ConsumerMatches(w')
  {
  }

  lemma PushLeavesConsumer(w: World, i: int, wakes: set<LS.Tid>)
    requires ConsumerMatches(w) && CanPush(w, i, wakes)
    ensures ConsumerMatches(AfterPush(w, i, wakes))
  {
    ConsumerUntouched(w, AfterPush(w, i, wakes));
  }

  lemma PushLeavesFiles(w: World, i: int, wakes: set<LS.Tid>)
    requires FilesMatch(w) && CanPush(w, i, wakes)
    ensures FilesMatch(AfterPush(w, i, wakes))
    ensures AfterPush(w, i, wakes).sys == w.sys && AfterPush(w, i, wakes).log == LS.Next(w.log, LS.RunPush(i, wakes))
  {
    FilesUntouched(w, AfterPush(w, i, wakes));
  }

  lemma PushKeepsInv(w: World, i: int, wakes: set<LS.Tid>)
    requires Inv(w) && CanPush(w, i, wakes)
    ensures Inv(AfterPush(w, i, wakes))
  {
    LS.StepKeepsInv(w.log, LS.RunPush(i, wakes));
    PushLeavesConsumer(w, i, wakes);
    PushLeavesFiles(w, i, wakes);
    match Push(w.log.queue, w.log.pushing[i]).0
    case PushWaits => WaitKeeps(w, i, wakes);
    case Accepted => AcceptKeeps(w, i, wakes);
    case Refused => RefuseKeeps(w, i, wakes);
  }

  lemma PopLeavesTheRest(w: World, wakes: set<LS.Tid>)
    requires CanPop(w, wakes)
    ensures var w' := AfterPop(w, wakes); w' == w.(log := LS.AfterPop(w.log, CONSUMER, wakes), consumer := w'.consumer)
  {
    match Pop(w.log.queue).0
    case PopWaits =>
    case Popped(_) =>
    case Closed =>
  }

  lemma PopKeepsInv(w: World, wakes: set<LS.Tid>)
    requires Inv(w) && CanPop(w, wakes)
    ensures Inv(AfterPop(w, wakes))
  {
    LS.StepKeepsInv(w.log, LS.RunPop(CONSUMER, wakes));
    PopKeepsConsumer(w, wakes);
    PopLeavesTheRest(w, wakes);
    ProducersUntouched(w, AfterPop(w, wakes));
    FilesUntouched(w, AfterPop(w, wakes));
  }

  lemma LookupKeepsInv(w: World)
    requires Inv(w) && w.consumer.Holding?
    ensures Inv(AfterLookup(w))
  {
    LookupFinds(w);
    ProducersUntouched(w, AfterLookup(w));
    FilesUntouched(w, AfterLookup(w));
  }

  lemma WriteKeepsInv(w: World)
    requires Inv(w) && w.consumer.Writing?
    ensures Inv(AfterWrite(w))
  {
    WriteKeepsFiles(w);
    ProducersUntouched(w, AfterWrite(w));
  }

  lemma BufferBackground(log: LS.Sync, l: LS.Label)
    requires (l.SpuriousPush? || l.SpuriousPop? || l.CallShutdown?) && LS.Enabled(log, l)
    ensures var log' := LS.Next(log, l);
            && log'.pushing == log.pushing && log'.accepted == log.accepted && log'.handed == log.handed
            && log'.popping == log.popping && log'.queue.items == log.queue.items
            && (log.queue.shutdown ==> log'.queue.shutdown)
  {
  }

  lemma BackgroundKeepsInv(w: World, l: LS.Label)
    requires (l.SpuriousPush? || l.SpuriousPop? || l.CallShutdown?) && LS.Enabled(w.log, l)
    requires Inv(w)
    ensures Inv(w.(log := LS.Next(w.log, l)))
  {
    var w' := w.(log := LS.Next(w.log, l));
    LS.StepKeepsInv(w.log, l);
    BufferBackground(w.log, l);
    ConsumerUntouched(w, w');
    ProducersUntouched(w, w');
    FilesUntouched(w, w');
  }

  lemma SpawnKeepsInv(w: World, i: int)
    requires Inv(w) && i >= 0 && i in w.sys.hist.published && i !in w.producers
    ensures Inv(AfterSpawn(w, i))
  {
    SpawnKeeps(w, i);
    ConsumerUntouched(w, AfterSpawn(w, i));
    FilesUntouched(w, AfterSpawn(w, i));
  }

  lemma ReadKeepsInv(w: World, i: int, data: seq<Byte>)
    requires Inv(w) && CanRead(w, i) && 0 < |data| <= CHUNK_SIZE
    ensures Inv(AfterRead(w, i, data))
  {
    LS.StepKeepsInv(w.log, LS.CallPush(i, Entry(i, data)));
    ReadKeeps(w, i, data);
    ConsumerUntouched(w, AfterRead(w, i, data));
    FilesUntouched(w, AfterRead(w, i, data));
  }

  lemma EofKeepsInv(w: World, i: int)
    requires Inv(w) && i in w.producers && w.producers[i] == Reading
    ensures Inv(w.(producers := w.producers[i := Done]))
  {
    var w' := w.(producers := w.producers[i := Done]);
    EofKeeps(w, i);
    ConsumerUntouched(w, w');
    FilesUntouched(w, w');
  }

  lemma PopCallKeeps(w: World, w': World)
    requires Inv(w) && LS.Inv(w'.log) && w.consumer == Idle && w' == w.(consumer := Popping, log := w'.log)
    requires w'.log.pushing == w.log.pushing && w'.log.accepted == w.log.accepted && w'.log.handed == w.log.handed
    requires w'.log.queue == w.log.queue && CONSUMER in w'.log.popping
    ensures Inv(w')
  {
    ProducersUntouched(w, w');
    FilesUntouched(w, w');
  }

  lemma PopCallKeepsInv(w: World)
    requires Inv(w) && Enabled(w, PopCall)
    ensures Inv(Next(w, PopCall))
  {
    LS.StepKeepsInv(w.log, LS.CallPop(CONSUMER));
    PopCallKeeps(w, Next(w, PopCall));
  }

  lemma StepKeepsInv(w: World, l: Label)
    requires Inv(w) && Enabled(w, l)
    ensures Inv(Next(w, l))
  {
    match l
    case Table(c) => TableKeepsInv(w, c);
    case PushPass(i, wakes) => PushKeepsInv(w, i, wakes);
    case PopCall => PopCallKeepsInv(w);
    case PopPass(wakes) => PopKeepsInv(w, wakes);
    case Lookup => LookupKeepsInv(w);
    case Write => WriteKeepsInv(w);
    case Background(b) => BackgroundKeepsInv(w, b);
    case Spawn(i) => SpawnKeepsInv(w, i);
    case Read(i, data) => ReadKeepsInv(w, i, data);
    case Eof(i) => EofKeepsInv(w, i);
  }

  lemma InitialInv(worlds: seq<World>, labels: seq<Label>)
    requires IsRun(worlds, labels)
    ensures Inv(worlds[0])
  {
  }

  lemma InvForOneStep(worlds: seq<World>, labels: seq<Label>, k: nat)
    requires IsRun(worlds, labels) && 0 < k < |worlds| && Inv(worlds[k - 1])
    ensures Inv(worlds[k])
  {
    assert StepAt(worlds, labels, k - 1);
    StepKeepsInv(worlds[k - 1], labels[k - 1]);
  }

  lemma {:induction false} InvHolds(worlds: seq<World>, labels: seq<Label>, k: nat)
    requires IsRun(worlds, labels) && k < |worlds|
    ensures Inv(worlds[k])
    decreases k
  {
    if k == 0 {
      InitialInv(worlds, labels);
    } else {
      InvHolds(worlds, labels, k - 1);
      InvForOneStep(worlds, labels, k);
    }
  }

  // ---------------------------------------------------------------------------------------
  // Theorems

  /** In every reachable state, for every published container: its log file, then the chunk
      in the consumer's hand if it is this container's, then its buffered chunks, is what the
      file held at the start followed by exactly its accepted chunks in order. */
  lemma LogsAreRouted(worlds: seq<World>, labels: seq<Label>, k: nat, i: int)
    requires IsRun(worlds, labels) && k < |worlds| && i in worlds[k].sys.hist.published
    ensures var w := worlds[k];
            Content(w.files, PathOf(w, i)) + Bytes(Of(i, InHand(w.consumer))) + Bytes(Of(i, w.log.queue.items))
            == Content(w.before, PathOf(w, i)) + Bytes(Of(i, w.log.accepted))
  {
    var w := worlds[k];
    InvHolds(worlds, labels, k);
    assert FileMatches(w, i);
    Account(Content(w.files, PathOf(w, i)), Content(w.before, PathOf(w, i)), i, w.written, InHand(w.consumer), w.log.queue.items);
  }

  /** What was added to the file are the chunks of this container that were written, all of
      them and none of another container's. */
  lemma FileHoldsOnlyItsOwn(worlds: seq<World>, labels: seq<Label>, k: nat, i: int) returns (es: seq<Entry>)
    requires IsRun(worlds, labels) && k < |worlds| && i in worlds[k].sys.hist.published
    ensures Content(worlds[k].files, PathOf(worlds[k], i)) == Content(worlds[k].before, PathOf(worlds[k], i)) + Bytes(es)
    ensures forall e :: e in es <==> e in worlds[k].written && e.index == i
  {
    InvHolds(worlds, labels, k);
    assert FileMatches(worlds[k], i);
    es := Of(i, worlds[k].written);
    OfIsExact(i, worlds[k].written);
  }

  lemma BytesOfThree(i: int, a: seq<Entry>, b: seq<Entry>, c: seq<Entry>)
    ensures Bytes(Of(i, a + b + c)) == Bytes(Of(i, a)) + Bytes(Of(i, b)) + Bytes(Of(i, c))
  {
    OfConcat(i, a + b, c);
    OfConcat(i, a, b);
    BytesConcat(Of(i, a) + Of(i, b), Of(i, c));
    BytesConcat(Of(i, a), Of(i, b));
  }

  lemma Account(content: seq<Byte>, before: seq<Byte>, i: int, a: seq<Entry>, b: seq<Entry>, c: seq<Entry>)
    requires content == before + Bytes(Of(i, a))
    ensures content + Bytes(Of(i, b)) + Bytes(Of(i, c)) == before + Bytes(Of(i, a + b + c))
  {
    BytesOfThree(i, a, b, c);
  }

  /** No file other than the log files of published containers is ever changed, and the
      consumer never throws a chunk away for want of a path. */
  lemma NothingElseIsWritten(worlds: seq<World>, labels: seq<Label>, k: nat, path: string)
    requires IsRun(worlds, labels) && k < |worlds|
    ensures worlds[k].discarded == []
    ensures (forall i :: i in worlds[k].sys.hist.published ==> PathOf(worlds[k], i) != path) ==>
              Content(worlds[k].files, path) == Content(worlds[k].before, path)
  {
    InvHolds(worlds, labels, k);
    if forall i :: i in worlds[k].sys.hist.published ==> PathOf(worlds[k], i) != path {
      assert Foreign(worlds[k], path);
    }
  }

  /** When the consumer has exited, every accepted chunk of every container is in its file. */
  lemma ExitMeansDelivered(worlds: seq<World>, labels: seq<Label>, k: nat, i: int)
    requires IsRun(worlds, labels) && k < |worlds| && worlds[k].consumer == Gone && i in worlds[k].sys.hist.published
    ensures var w := worlds[k];
            Content(w.files, PathOf(w, i)) == Content(w.before, PathOf(w, i)) + Bytes(Of(i, w.log.accepted))
  {
    InvHolds(worlds, labels, k);
    LogsAreRouted(worlds, labels, k, i);
  }

  lemma ProducerAccount(w: World, i: int)
    requires i in w.producers && ProducerMatches(w, i)
    ensures Of(i, w.log.accepted) <= w.read[i]
    ensures |w.read[i]| <= |Of(i, w.log.accepted)| + 1
    ensures w.producers[i] != Pushing && w.dropped[i] == [] ==> Of(i, w.log.accepted) == w.read[i]
    ensures w.producers[i] != Pushing ==> w.read[i] == Of(i, w.log.accepted) + w.dropped[i]
    ensures |Bytes(w.dropped[i])| <= CHUNK_SIZE
  {
    DroppedIsSmall(w, w.dropped[i]);
  }

  lemma DroppedIsSmall(w: World, es: seq<Entry>)
    requires |es| <= 1 && AllRooted(w, es)
    ensures |Bytes(es)| <= CHUNK_SIZE
  {
    if es != [] {
      assert es == [] + [es[0]];
      BytesLast([], es[0]);
      assert Rooted(w, es[0]);
    }
  }

  lemma BytesLast(es: seq<Entry>, e: Entry)
    ensures Bytes(es + [e]) == Bytes(es) + e.data
  {
    assert (es + [e])[..|es|] == es;
  }

  // ---------------------------------------------------------------------------------------
  // Exactly when a chunk is lost

  /** Step `j` is a pass of producer `i` through push after shutdown. */
  ghost predicate RefusedAt(worlds: seq<World>, labels: seq<Label>, i: int, j: int) {
    0 <= j < |labels| && j < |worlds| && labels[j].PushPass? && labels[j].i == i && worlds[j].log.queue.shutdown
  }

  ghost predicate HasDropped(w: World, i: int) {
    i in w.producers && i in w.dropped && w.dropped[i] != []
  }

  lemma DroppedNext(worlds: seq<World>, labels: seq<Label>, k: nat, i: int)
    requires IsRun(worlds, labels) && 0 < k < |worlds|
    ensures HasDropped(worlds[k], i) <==> HasDropped(worlds[k - 1], i) || RefusedAt(worlds, labels, i, k - 1)
  {
    assert StepAt(worlds, labels, k - 1);
    if labels[k - 1].PopPass? {
      PopLeavesTheRest(worlds[k - 1], labels[k - 1].wakes);
    }
  }

  lemma {:induction false} DroppedMeansRefused(worlds: seq<World>, labels: seq<Label>, k: nat, i: int)
    requires IsRun(worlds, labels) && k < |worlds|
    ensures HasDropped(worlds[k], i) <==> exists j :: j < k && RefusedAt(worlds, labels, i, j)
  {
    if k > 0 {
      DroppedMeansRefused(worlds, labels, k - 1, i);
      DroppedNext(worlds, labels, k, i);
    }
  }
}
