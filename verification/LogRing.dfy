/** `log_buffer_t`: 128 slots used as a ring, changed in place. */
module LogRing {
  import opened LogQueue

  /** The `count` entries of the ring `slots` that start at position `head`. */
  ghost function Unroll(slots: seq<Entry>, head: nat, count: nat): (s: seq<Entry>)
    requires |slots| == CAPACITY && head < CAPACITY && count <= CAPACITY
    ensures |s| == count
    ensures forall k :: 0 <= k < count ==> s[k] == slots[At(head, k)]
  {
    seq(count, k requires 0 <= k < count => slots[At(head, k)])
  }

  /** The position `k` places after `head`. */
  ghost function At(head: nat, k: nat): (i: nat)
    requires head < CAPACITY && k <= CAPACITY
    ensures i < CAPACITY
  {
    if head + k < CAPACITY then head + k else head + k - CAPACITY
  }

  /** The ring arithmetic of the source, `(i + 1) % 128`, walks the positions `At` names. */
  lemma StepsAreAt(head: nat, count: nat)
    requires head < CAPACITY && count < CAPACITY
    ensures At(head, count) == (head + count) % CAPACITY
    ensures (At(head, count) + 1) % CAPACITY == At(head, count + 1) == At((head + 1) % CAPACITY, count)
  {
  }

  lemma UnrollPush(slots: seq<Entry>, head: nat, count: nat, e: Entry)
    requires |slots| == CAPACITY && head < CAPACITY && count < CAPACITY
    ensures Unroll(slots[At(head, count) := e], head, count + 1) == Unroll(slots, head, count) + [e]
  {
  }

  lemma UnrollPop(slots: seq<Entry>, head: nat, count: nat)
    requires |slots| == CAPACITY && head < CAPACITY && 0 < count <= CAPACITY
    ensures Unroll(slots, head, count) == [slots[head]] + Unroll(slots, (head + 1) % CAPACITY, count - 1)
  {
    var s, t := Unroll(slots, head, count), Unroll(slots, (head + 1) % CAPACITY, count - 1);
    forall k | 0 <= k < count
      ensures s[k] == ([slots[head]] + t)[k]
    {
      if k > 0 {
        StepsAreAt(head, k - 1);
      }
    }
  }

  /** The front entry moves from the ring to the end of what was handed out. */
  lemma AfterPop(pushed: seq<Entry>, popped: seq<Entry>, slots: seq<Entry>, head: nat, count: nat)
    requires |slots| == CAPACITY && head < CAPACITY && 0 < count <= CAPACITY
    requires pushed == popped + Unroll(slots, head, count)
    ensures var rest := Unroll(slots, (head + 1) % CAPACITY, count - 1);
            && pushed == popped + [slots[head]] + rest
            && Unroll(slots, head, count)[0] == slots[head]
            && Unroll(slots, head, count)[1..] == rest
    ensures At(head, count) == At((head + 1) % CAPACITY, count - 1)
  {
    UnrollPop(slots, head, count);
    StepsAreAt(head, count - 1);
  }

  class Ring {
    const entries: array<Entry>
    var head: nat
    var tail: nat
    var count: nat
    var shutdown: bool

    // Everything ever accepted and everything ever handed out.
    ghost var pushed: seq<Entry>
    ghost var popped: seq<Entry>

    ghost predicate Valid()
      reads this, entries
    {
      && InBounds()
      && tail == At(head, count)
      && pushed == popped + Contents()
    }

    ghost predicate InBounds()
      reads this
    {
      entries.Length == CAPACITY && head < CAPACITY && count <= CAPACITY
    }

    ghost function Contents(): (s: seq<Entry>)
      requires InBounds()
      reads this, entries
    {
      Unroll(entries[..], head, count)
    }

    ghost function View(): Queue
      requires InBounds()
      reads this, entries
    {
      Queue(Contents(), shutdown)
    }

    /** `log_buffer_init`. */
    constructor ()
      ensures Valid() && fresh(entries)
      ensures View() == Queue([], false)
      ensures pushed == [] && popped == []
    {
      entries := new Entry[CAPACITY](_ => Entry(0, []));
      head, tail, count, shutdown := 0, 0, 0, false;
      pushed, popped := [], [];
    }

    /** One pass through `log_buffer_push`. */
    method TryPush(e: Entry) returns (outcome: PushOutcome)
      requires Valid()
      modifies this, entries
      ensures Valid()
      ensures (outcome, View()) == Push(old(View()), e)
      ensures pushed == if outcome == Accepted then old(pushed) + [e] else old(pushed)
      ensures popped == old(popped)
    {
      if count == CAPACITY && !shutdown {
        return PushWaits;
      }
      if shutdown {
        return Refused;
      }
      UnrollPush(entries[..], head, count, e);
      StepsAreAt(head, count);
      entries[tail] := e;
      assert entries[..] == old(entries[..])[tail := e];
      tail := (tail + 1) % CAPACITY;
      count := count + 1;
      pushed := pushed + [e];
      return Accepted;
    }

    /** One pass through `log_buffer_pop`. */
    method TryPop() returns (outcome: PopOutcome)
      requires Valid()
      modifies this
      ensures Valid()
      ensures (outcome, View()) == Pop(old(View()))
      ensures popped == if outcome.Popped? then old(popped) + [outcome.entry] else old(popped)
      ensures pushed == old(pushed)
    {
      if count == 0 && !shutdown {
        return PopWaits;
      }
      if count == 0 && shutdown {
        return Closed;
      }
      AfterPop(pushed, popped, entries[..], head, count);
      var e := entries[head];
      head := (head + 1) % CAPACITY;
      count := count - 1;
      popped := popped + [e];
      return Popped(e);
    }

    /** `log_buffer_shutdown`. */
    method Stop()
      requires Valid()
      modifies this`shutdown
      ensures Valid()
      ensures View() == Shutdown(old(View()))
    {
      shutdown := true;
    }
  }
}
