/** The bounded log buffer as a value: what one pass through a critical section of
    `log_buffer_push`, `log_buffer_pop` and `log_buffer_shutdown` does to it.  A pass runs from
    taking the mutex (on entry, or when `pthread_cond_wait` returns) to releasing it (on return,
    or inside the next wait). */
module LogQueue {
  import opened CTypes

  const CAPACITY: nat := 128
  const CHUNK_SIZE: nat := 512

  /** A chunk of output; `len` of the C struct is `|data|`. */
  datatype Entry = Entry(index: int, data: seq<Byte>)

  /** `items` is the ring from `head`, oldest first. */
  datatype Queue = Queue(items: seq<Entry>, shutdown: bool)

  datatype PushOutcome = PushWaits | Refused | Accepted
  datatype PopOutcome = PopWaits | Closed | Popped(entry: Entry)

  function Push(q: Queue, e: Entry): (PushOutcome, Queue) {
    if |q.items| == CAPACITY && !q.shutdown then (PushWaits, q)
    else if q.shutdown then (Refused, q)
    else (Accepted, q.(items := q.items + [e]))
  }

  function Pop(q: Queue): (PopOutcome, Queue) {
    if |q.items| == 0 && !q.shutdown then (PopWaits, q)
    else if |q.items| == 0 && q.shutdown then (Closed, q)
    else (Popped(q.items[0]), q.(items := q.items[1..]))
  }

  function Shutdown(q: Queue): Queue {
    q.(shutdown := true)
  }

  /** The entries of container `i`, in order. */
  function Of(i: int, es: seq<Entry>): seq<Entry> {
    if es == [] then []
    else Of(i, es[..|es| - 1]) + (if es[|es| - 1].index == i then [es[|es| - 1]] else [])
  }

  /** The bytes of a sequence of chunks, in order. */
  function Bytes(es: seq<Entry>): seq<Byte> {
    if es == [] then [] else Bytes(es[..|es| - 1]) + es[|es| - 1].data
  }

  lemma {:induction false} OfConcat(i: int, a: seq<Entry>, b: seq<Entry>)
    ensures Of(i, a + b) == Of(i, a) + Of(i, b)
    decreases |b|
  {
    if b == [] {
      assert a + b == a;
    } else {
      var init := b[..|b| - 1];
      OfConcat(i, a, init);
      assert (a + b)[..|a + b| - 1] == a + init;
    }
  }

  lemma {:induction false} BytesConcat(a: seq<Entry>, b: seq<Entry>)
    ensures Bytes(a + b) == Bytes(a) + Bytes(b)
    decreases |b|
  {
    if b == [] {
      assert a + b == a;
    } else {
      var init := b[..|b| - 1];
      BytesConcat(a, init);
      assert (a + b)[..|a + b| - 1] == a + init;
    }
  }

  lemma {:induction false} OfIsExact(i: int, es: seq<Entry>)
    ensures forall e :: e in Of(i, es) <==> e in es && e.index == i
  {
    if es != [] {
      OfIsExact(i, es[..|es| - 1]);
      assert es == es[..|es| - 1] + [es[|es| - 1]];
    }
  }

  lemma {:induction false} OfNone(i: int, es: seq<Entry>)
    requires forall e :: e in es ==> e.index != i
    ensures Of(i, es) == []
  {
    if es != [] {
      OfNone(i, es[..|es| - 1]);
    }
  }
}
