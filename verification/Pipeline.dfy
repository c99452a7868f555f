/** The whole log path: container output, one producer thread per published container, the
    bounded buffer, the consumer thread, the container table it looks paths up in, and the log
    files.  Steps of the supervisor, of the buffer's threads and of the consumer interleave. */
module Pipeline {
  import opened Containers
  import opened CTypes
  import opened LogQueue
  import LS = LogSync
  import LC = Lifecycle
  import SI = SlotInvariant
  import EX = Exclusivity

  datatype Producer = Reading | Pushing | Done

  datatype Consumer =
    | Idle
    | Popping
    | Holding(e: Entry)               // popped, path not looked up yet
    | Writing(e: Entry, path: string) // path looked up, not written yet
    | Gone

  datatype World = World(
    sys: LC.Sys, log: LS.Sync,
    producers: map<int, Producer>, consumer: Consumer,
    files: map<string, seq<Byte>>,
    // History
    before: map<string, seq<Byte>>,   // the files when the supervisor started
    read: map<int, seq<Entry>>,       // chunks each producer read from its pipe
    dropped: map<int, seq<Entry>>,    // chunks each producer could not push
    written: seq<Entry>,              // chunks appended to a file
    discarded: seq<Entry>             // chunks the consumer found no path for
  )

  datatype Label =
    | Table(c: LC.Label)
    | Spawn(i: int)
    | Read(i: int, data: seq<Byte>)
    | Eof(i: int)
    | PushPass(i: int, wakes: set<LS.Tid>)
    | PopCall
    | PopPass(wakes: set<LS.Tid>)
    | Lookup
    | Write
    | Background(b: LS.Label)         // spurious wakeups and `log_buffer_shutdown`

  /** The one consumer thread. */
  const CONSUMER: LS.Tid := 0

  ghost predicate Initial(w: World) {
    && w.sys == LC.INIT && w.log == LS.INIT && w.producers == map[] && w.consumer == Idle
    && w.files == w.before && w.read == map[] && w.dropped == map[] && w.written == [] && w.discarded == []
  }

  ghost predicate CanRead(w: World, i: int) {
    i >= 0 && i in w.producers && w.producers[i] == Reading && i !in w.log.pushing && i in w.read
  }

  ghost predicate CanPush(w: World, i: int, wakes: set<LS.Tid>) {
    i >= 0 && i in w.producers && w.producers[i] == Pushing && i in w.dropped && LS.Enabled(w.log, LS.RunPush(i, wakes))
  }

  ghost predicate CanPop(w: World, wakes: set<LS.Tid>) {
    w.consumer == Popping && LS.Enabled(w.log, LS.RunPop(CONSUMER, wakes))
  }

  ghost predicate Enabled(w: World, l: Label) {
    match l
    case Table(l) => LC.Enabled(w.sys, l)
    case Spawn(i) => i >= 0 && i in w.sys.hist.published && i !in w.producers
    case Read(i, data) => CanRead(w, i) && 0 < |data| <= CHUNK_SIZE
    case Eof(i) => i in w.producers && w.producers[i] == Reading
    case PushPass(i, wakes) => CanPush(w, i, wakes)
    case PopCall => w.consumer == Idle && LS.Enabled(w.log, LS.CallPop(CONSUMER))
    case PopPass(wakes) => CanPop(w, wakes)
    case Lookup => w.consumer.Holding?
    case Write => w.consumer.Writing?
    case Background(l) => (l.SpuriousPush? || l.SpuriousPop? || l.CallShutdown?) && LS.Enabled(w.log, l)
  }

  ghost function Content(files: map<string, seq<Byte>>, path: string): seq<Byte> {
    if path in files then files[path] else []
  }

  /** The consumer's lookup under `containers_mutex`. */
  ghost function PathFor(slots: seq<Slot>, index: int): string {
    if 0 <= index < |slots| && slots[index].used then Copy(slots[index].logFile, MAX_PATH_LEN) else ""
  }

  ghost function AfterSpawn(w: World, i: int): World {
    w.(producers := w.producers[i := Reading], read := w.read[i := []], dropped := w.dropped[i := []])
  }

  ghost function AfterRead(w: World, i: int, data: seq<Byte>): World
    requires CanRead(w, i)
  {
    var e := Entry(i, data);
    w.(producers := w.producers[i := Pushing], read := w.read[i := w.read[i] + [e]],
       log := LS.Next(w.log, LS.CallPush(i, e)))
  }

  ghost function AfterPush(w: World, i: int, wakes: set<LS.Tid>): World
    requires CanPush(w, i, wakes)
  {
    var e := w.log.pushing[i];
    var w' := w.(log := LS.AfterPush(w.log, i, wakes));
    match Push(w.log.queue, e).0
    case PushWaits => w'
    case Accepted => w'.(producers := w.producers[i := Reading])
    case Refused => w'.(producers := w.producers[i := Done], dropped := w.dropped[i := w.dropped[i] + [e]])
  }

  ghost function AfterPop(w: World, wakes: set<LS.Tid>): World
    requires CanPop(w, wakes)
  {
    var w' := w.(log := LS.AfterPop(w.log, CONSUMER, wakes));
    match Pop(w.log.queue).0
    case PopWaits => w'
    case Popped(e) => w'.(consumer := Holding(e))
    case Closed => w'.(consumer := Gone)
  }

  ghost function AfterLookup(w: World): World
    requires w.consumer.Holding?
  {
    var path := PathFor(w.sys.slots, w.consumer.e.index);
    if path == "" then w.(consumer := Idle, discarded := w.discarded + [w.consumer.e])
    else w.(consumer := Writing(w.consumer.e, path))
  }

  ghost function AfterWrite(w: World): World
    requires w.consumer.Writing?
  {
    var path := w.consumer.path;
    w.(consumer := Idle, files := w.files[path := Content(w.files, path) + w.consumer.e.data],
       written := w.written + [w.consumer.e])
  }

  ghost function Next(w: World, l: Label): World
    requires Enabled(w, l)
  {
    match l
    case Table(l) => w.(sys := LC.Next(w.sys, l))
    case Spawn(i) => AfterSpawn(w, i)
    case Read(i, data) => AfterRead(w, i, data)
    case Eof(i) => w.(producers := w.producers[i := Done])
    case PushPass(i, wakes) => AfterPush(w, i, wakes)
    case PopCall => w.(consumer := Popping, log := LS.Next(w.log, LS.CallPop(CONSUMER)))
    case PopPass(wakes) => AfterPop(w, wakes)
    case Lookup => AfterLookup(w)
    case Write => AfterWrite(w)
    case Background(l) => w.(log := LS.Next(w.log, l))
  }

  /** Label `k` leads from world `k` to world `k + 1`. */
  ghost predicate StepAt(worlds: seq<World>, labels: seq<Label>, k: int) {
    0 <= k < |labels| && |worlds| == |labels| + 1 && Enabled(worlds[k], labels[k]) && worlds[k + 1] == Next(worlds[k], labels[k])
  }

  ghost predicate IsRun(worlds: seq<World>, labels: seq<Label>) {
    && |worlds| == |labels| + 1
    && Initial(worlds[0])
    && forall k {:trigger StepAt(worlds, labels, k)} :: 0 <= k < |labels| ==> StepAt(worlds, labels, k)
  }

  // ---------------------------------------------------------------------------------------
  // The invariant

  /** What the consumer has popped and not yet appended. */
  ghost function InHand(c: Consumer): seq<Entry> {
    if c.Holding? || c.Writing? then [c.e] else []
  }

  ghost function PathOf(w: World, i: int): string {
    if 0 <= i < |w.sys.slots| then w.sys.slots[i].logFile else ""
  }

  /** Chunk `e` came from the producer of a published container. */
  ghost predicate Rooted(w: World, e: Entry) {
    e.index in w.producers && 0 < |e.data| <= CHUNK_SIZE
  }

  ghost predicate AllRooted(w: World, es: seq<Entry>) {
    forall e :: e in es ==> Rooted(w, e)
  }

  ghost function Pending(w: World, i: int): seq<Entry> {
    if i >= 0 && i in w.log.pushing then [w.log.pushing[i]] else []
  }

  /** Everything a producer read was accepted, in order, except what it is pushing now or the
      one chunk it was left with at shutdown. */
  ghost predicate ProducerMatches(w: World, i: int)
    requires i in w.producers
  {
    && i >= 0 && i in w.sys.hist.published && i in w.read && i in w.dropped
    && (w.producers[i] == Pushing <==> i in w.log.pushing)
    && (i in w.log.pushing ==> w.log.pushing[i].index == i && Rooted(w, w.log.pushing[i]))
    && w.read[i] == Of(i, w.log.accepted) + Pending(w, i) + w.dropped[i]
    && |w.dropped[i]| <= 1
    && AllRooted(w, w.dropped[i])
    && (w.dropped[i] != [] ==> w.producers[i] == Done && w.log.queue.shutdown)
  }

  ghost predicate ProducersMatch(w: World) {
    && (forall i :: i in w.producers ==> ProducerMatches(w, i))
    && (forall i :: i in w.log.pushing ==> i in w.producers)
    && AllRooted(w, w.log.accepted)
  }

  ghost predicate ConsumerMatches(w: World) {
    && w.log.handed == w.written + InHand(w.consumer)
    && w.discarded == []
    && (w.consumer == Popping <==> CONSUMER in w.log.popping)
    && (w.consumer == Gone ==> Pop(w.log.queue).0 == Closed)
    && (w.consumer.Writing? ==> w.consumer.path == PathOf(w, w.consumer.e.index))
  }

  /** The file of a published container holds what it held before, then exactly that
      container's written chunks in order. */
  ghost predicate FileMatches(w: World, i: int) {
    Content(w.files, PathOf(w, i)) == Content(w.before, PathOf(w, i)) + Bytes(Of(i, w.written))
  }

  /** `path` is the log file of no published container. */
  ghost predicate Foreign(w: World, path: string) {
    forall i :: i in w.sys.hist.published ==> PathOf(w, i) != path
  }

  ghost predicate FilesMatch(w: World) {
    && (forall i :: i in w.sys.hist.published ==> FileMatches(w, i))
    && (forall path :: Foreign(w, path) ==> Content(w.files, path) == Content(w.before, path))
  }

  ghost predicate Inv(w: World) {
    && SI.Inv(w.sys) && EX.Exclusive(w.sys.slots) && LS.Inv(w.log)
    && ProducersMatch(w) && ConsumerMatches(w) && FilesMatch(w)
  }
}
