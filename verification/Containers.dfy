/** `container_t` and what each critical section on `containers_mutex` does to the table. */
module Containers {

  const MAX_CONTAINERS: nat := 10
  const MAX_ID_LEN: nat := 32
  const MAX_PATH_LEN: nat := 256
  const MAX_CMD_LEN: nat := 256
  const SIGKILL: nat := 9

  /** The `state` string; `Blank` is the empty string of a zeroed slot. */
  datatype Phase = Blank | Starting | Running | Stopped | Exited | Killed

  datatype Slot = Slot(
    used: bool, id: string, pid: int, state: Phase, rootfs: string, command: string, logFile: string,
    softMib: int, hardMib: int, niceValue: int, exitCode: int, stopRequested: bool, startTime: int,
    stack: nat  // `child_stack`; 0 is NULL
  )

  datatype Request = Request(id: string, rootfs: string, command: string, softMib: int, hardMib: int, niceValue: int)

  /** What `waitpid` reports: `WIFEXITED`, `WIFSIGNALED` or neither. */
  datatype Status = WExited(code: int) | WSignaled(signal: int) | WOther

  const EMPTY: Slot := Slot(false, "", 0, Blank, "", "", "", 0, 0, 0, 0, false, 0, 0)

  /** Strings that fit the fixed-size fields of `request_t`, terminator included. */
  predicate Fits(req: Request) {
    |req.id| < MAX_ID_LEN && |req.rootfs| < MAX_PATH_LEN && |req.command| < MAX_CMD_LEN
  }

  /** `safe_strcpy` into a field of `size` bytes. */
  function Copy(src: string, size: nat): string
    requires size > 0
  {
    if |src| < size then src else src[..size - 1]
  }

  function LogPath(id: string): string {
    Copy("logs/" + id + ".log", MAX_PATH_LEN)
  }

  /** Ids that fit their field get different log files, none of them cut short. */
  lemma LogPathIsInjective(a: string, b: string)
    requires |a| < MAX_ID_LEN && |b| < MAX_ID_LEN
    ensures LogPath(a) == "logs/" + a + ".log"
    ensures LogPath(a) == LogPath(b) ==> a == b
    ensures LogPath(a) != ""
  {
    if LogPath(a) == LogPath(b) {
      assert a == LogPath(a)[5..5 + |a|];
      assert b == LogPath(b)[5..5 + |b|];
    }
  }

  predicate Live(state: Phase) {
    state == Starting || state == Running
  }

  predicate Terminal(state: Phase) {
    state == Stopped || state == Exited || state == Killed
  }

  function FirstFree(slots: seq<Slot>, from: nat): (r: int)
    requires from <= |slots|
    ensures r == -1 || from <= r < |slots|
    ensures r >= 0 ==> !slots[r].used
    ensures forall k :: from <= k < (if r < 0 then |slots| else r) ==> slots[k].used
    decreases |slots| - from
  {
    if from == |slots| then -1
    else if !slots[from].used then from
    else FirstFree(slots, from + 1)
  }

  function FirstById(slots: seq<Slot>, id: string, from: nat): (r: int)
    requires from <= |slots|
    ensures r == -1 || from <= r < |slots|
    ensures r >= 0 ==> slots[r].used && slots[r].id == id
    ensures forall k :: from <= k < (if r < 0 then |slots| else r) ==> !(slots[k].used && slots[k].id == id)
    decreases |slots| - from
  {
    if from == |slots| then -1
    else if slots[from].used && slots[from].id == id then from
    else FirstById(slots, id, from + 1)
  }

  function FirstByPid(slots: seq<Slot>, pid: int, from: nat): (r: int)
    requires from <= |slots|
    ensures r == -1 || from <= r < |slots|
    ensures r >= 0 ==> slots[r].used && slots[r].pid == pid
    ensures forall k :: from <= k < (if r < 0 then |slots| else r) ==> !(slots[k].used && slots[k].pid == pid)
    decreases |slots| - from
  {
    if from == |slots| then -1
    else if slots[from].used && slots[from].pid == pid then from
    else FirstByPid(slots, pid, from + 1)
  }

  predicate RootfsInUse(slots: seq<Slot>, rootfs: string) {
    exists k :: 0 <= k < |slots| && slots[k].used && Live(slots[k].state) && slots[k].rootfs == rootfs
  }

  // ---------------------------------------------------------------------------------------
  // The critical sections

  datatype ClaimOutcome = DuplicateId | RootfsBusy | TableFull | Claimed(index: nat)

  /** The slot `start_container_internal` writes before it drops the lock. */
  function NewSlot(req: Request, now: int): Slot {
    Slot(true, Copy(req.id, MAX_ID_LEN), -1, Starting, Copy(req.rootfs, MAX_PATH_LEN),
         Copy(req.command, MAX_CMD_LEN), LogPath(req.id),
         req.softMib, req.hardMib, req.niceValue, -1, false, now, 0)
  }

  function Claim(slots: seq<Slot>, req: Request, now: int): (ClaimOutcome, seq<Slot>) {
    if FirstById(slots, req.id, 0) >= 0 then (DuplicateId, slots)
    else if RootfsInUse(slots, req.rootfs) then (RootfsBusy, slots)
    else
      var i := FirstFree(slots, 0);
      if i < 0 then (TableFull, slots) else (Claimed(i), slots[i := NewSlot(req, now)])
  }

  function Unclaim(slots: seq<Slot>, i: nat): seq<Slot>
    requires i < |slots|
  {
    slots[i := slots[i].(used := false)]
  }

  function Publish(slots: seq<Slot>, i: nat, pid: int, stack: nat): seq<Slot>
    requires i < |slots|
  {
    slots[i := slots[i].(pid := pid, stack := stack, state := Running)]
  }

  datatype StopOutcome = NoSuchContainer | NotRunning | Signal(index: nat, target: int)

  function RequestStop(slots: seq<Slot>, id: string): (StopOutcome, seq<Slot>) {
    var i := FirstById(slots, id, 0);
    if i < 0 then (NoSuchContainer, slots)
    else if !Live(slots[i].state) then (NotRunning, slots)
    else (Signal(i, slots[i].pid), slots[i := slots[i].(stopRequested := true)])
  }

  function StopIfLive(slot: Slot): Slot {
    if slot.used && Live(slot.state) then slot.(stopRequested := true) else slot
  }

  function StopAll(slots: seq<Slot>): (r: seq<Slot>)
    ensures |r| == |slots| && forall k :: 0 <= k < |slots| ==> r[k] == StopIfLive(slots[k])
  {
    if slots == [] then [] else StopAll(slots[..|slots| - 1]) + [StopIfLive(slots[|slots| - 1])]
  }

  /** Whom `stop_all_live_containers` signals, in order. */
  function StopAllTargets(slots: seq<Slot>): seq<int> {
    if slots == [] then []
    else
      var last := slots[|slots| - 1];
      StopAllTargets(slots[..|slots| - 1]) + (if last.used && Live(last.state) then [last.pid] else [])
  }

  /** The reaper's verdict on a terminated child. */
  function Classify(stopRequested: bool, status: Status): (Phase, int) {
    match status
    case WExited(code) => (if stopRequested then Stopped else Exited, code)
    case WSignaled(signal) => (if stopRequested then Stopped else Killed, 128 + signal)
    case WOther => (Stopped, -1)
  }

  function Retire(slot: Slot, status: Status): Slot {
    var (state, code) := Classify(slot.stopRequested, status);
    slot.(state := state, exitCode := code, stack := 0)
  }

  function Record(slots: seq<Slot>, pid: int, status: Status): seq<Slot> {
    var i := FirstByPid(slots, pid, 0);
    if i < 0 then slots else slots[i := Retire(slots[i], status)]
  }

  // ---------------------------------------------------------------------------------------
  // Admission

  /** Slot `slot` holds request `req` untruncated, and nothing left over from an earlier use. */
  predicate HoldsRequest(slot: Slot, req: Request, now: int) {
    && slot.used && slot.state == Starting && slot.pid == -1 && slot.exitCode == -1 && !slot.stopRequested && slot.stack == 0
    && slot.id == req.id && slot.rootfs == req.rootfs && slot.command == req.command
    && slot.logFile == "logs/" + req.id + ".log"
    && slot.softMib == req.softMib && slot.hardMib == req.hardMib && slot.niceValue == req.niceValue && slot.startTime == now
  }

  /** A start is admitted exactly when its id is new among the used slots, its rootfs is not
      that of a live one and a slot is free; then the first free slot holds the request and
      every other slot is as before.  Otherwise nothing changes. */
  lemma ClaimExactly(slots: seq<Slot>, req: Request, now: int)
    requires Fits(req)
    ensures var (outcome, slots') := Claim(slots, req, now);
            && (outcome.Claimed? <==>
                  && (forall k :: 0 <= k < |slots| && slots[k].used ==> slots[k].id != req.id)
                  && (forall k :: 0 <= k < |slots| && slots[k].used && Live(slots[k].state) ==> slots[k].rootfs != req.rootfs)
                  && (exists k :: 0 <= k < |slots| && !slots[k].used))
            && (outcome.Claimed? ==>
                  && outcome.index < |slots| == |slots'| && !slots[outcome.index].used
                  && (forall k :: 0 <= k < outcome.index ==> slots[k].used)
                  && HoldsRequest(slots'[outcome.index], req, now)
                  && (forall k :: 0 <= k < |slots| && k != outcome.index ==> slots'[k] == slots[k]))
            && (!outcome.Claimed? ==> slots' == slots)
  {
    LogPathIsInjective(req.id, req.id);
  }

  /** Which refusal a start gets: a duplicate id comes first, then a rootfs in live use, then a
      full table. */
  lemma RefusalsExactly(slots: seq<Slot>, req: Request, now: int)
    ensures var outcome := Claim(slots, req, now).0;
            && (outcome == DuplicateId <==> exists k :: 0 <= k < |slots| && slots[k].used && slots[k].id == req.id)
            && (outcome == RootfsBusy <==>
                  && (forall k :: 0 <= k < |slots| && slots[k].used ==> slots[k].id != req.id)
                  && (exists k :: 0 <= k < |slots| && slots[k].used && Live(slots[k].state) && slots[k].rootfs == req.rootfs))
            && (outcome == TableFull <==>
                  && (forall k :: 0 <= k < |slots| ==> slots[k].used && slots[k].id != req.id)
                  && (forall k :: 0 <= k < |slots| && Live(slots[k].state) ==> slots[k].rootfs != req.rootfs))
  {
  }

  /** The used slot with this id. */
  ghost predicate IsNamed(slots: seq<Slot>, i: int, id: string) {
    0 <= i < |slots| && slots[i].used && slots[i].id == id
  }

  ghost predicate UniqueIds(slots: seq<Slot>) {
    forall i, j :: 0 <= i < j < |slots| && slots[i].used && slots[j].used ==> slots[i].id != slots[j].id
  }

  /** A stop is accepted exactly if a used live slot has the id; then that slot is marked and its
      pid is the one to signal, and nothing else changes.  It is refused, and nothing changes,
      for an id no used slot has and for one whose slot is not live. */
  lemma RequestStopExactly(slots: seq<Slot>, id: string)
    requires UniqueIds(slots)
    ensures var (outcome, slots') := RequestStop(slots, id);
            && (outcome.Signal? <==> exists i :: IsNamed(slots, i, id) && Live(slots[i].state))
            && (outcome == NoSuchContainer <==> forall i :: !IsNamed(slots, i, id))
            && (outcome == NotRunning <==> exists i :: IsNamed(slots, i, id) && !Live(slots[i].state))
            && (outcome.Signal? ==>
                  && IsNamed(slots, outcome.index, id) && Live(slots[outcome.index].state)
                  && outcome.target == slots[outcome.index].pid
                  && |slots'| == |slots| && slots'[outcome.index] == slots[outcome.index].(stopRequested := true)
                  && (forall k :: 0 <= k < |slots| && k != outcome.index ==> slots'[k] == slots[k]))
            && (!outcome.Signal? ==> slots' == slots)
  {
    var i := FirstById(slots, id, 0);
    if i >= 0 {
      assert IsNamed(slots, i, id);
      assert forall j :: IsNamed(slots, j, id) ==> j == i;
    } else {
      assert forall j :: !IsNamed(slots, j, id);
    }
  }

  /** At shutdown exactly the used live slots are marked, and nothing else changes. */
  lemma StopAllExactly(slots: seq<Slot>, k: nat)
    requires k < |slots|
    ensures |StopAll(slots)| == |slots|
    ensures slots[k].used && Live(slots[k].state) ==> StopAll(slots)[k] == slots[k].(stopRequested := true)
    ensures !(slots[k].used && Live(slots[k].state)) ==> StopAll(slots)[k] == slots[k]
  {
  }

  /** The reaper updates the first used slot with the pid, and no other: exit code, or 128 plus
      the signal; STOPPED if a stop was requested, else EXITED or KILLED; the stack pointer is
      cleared.  Without such a slot nothing changes. */
  lemma RecordExactly(slots: seq<Slot>, pid: int, status: Status)
    ensures |Record(slots, pid, status)| == |slots|
    ensures (forall k :: 0 <= k < |slots| && slots[k].used ==> slots[k].pid != pid) ==> Record(slots, pid, status) == slots
    ensures forall i :: 0 <= i < |slots| && slots[i].used && slots[i].pid == pid && (forall k :: 0 <= k < i && slots[k].used ==> slots[k].pid != pid) ==>
              var a, b := slots[i], Record(slots, pid, status)[i];
              && b == a.(state := b.state, exitCode := b.exitCode, stack := 0)
              && (status.WExited? ==> b.exitCode == status.code && b.state == (if a.stopRequested then Stopped else Exited))
              && (status.WSignaled? ==> b.exitCode == 128 + status.signal && b.state == (if a.stopRequested then Stopped else Killed))
              && (status.WOther? ==> b.exitCode == -1 && b.state == Stopped)
              && (forall k :: 0 <= k < |slots| && k != i ==> Record(slots, pid, status)[k] == slots[k])
  {
    forall i | 0 <= i < |slots| && slots[i].used && slots[i].pid == pid && (forall k :: 0 <= k < i && slots[k].used ==> slots[k].pid != pid)
      ensures FirstByPid(slots, pid, 0) == i
    {
    }
  }

  /** Two tables that admission cannot tell apart: the same slots are used, and used slots agree
      in id, rootfs and being live. */
  ghost predicate AdmitAlike(slots: seq<Slot>, slots': seq<Slot>) {
    |slots'| == |slots| && forall k :: 0 <= k < |slots| ==> SlotsAlike(slots[k], slots'[k])
  }

  ghost predicate SlotsAlike(a: Slot, b: Slot) {
    a.used == b.used && (a.used ==> a.id == b.id && a.rootfs == b.rootfs && (Live(a.state) <==> Live(b.state)))
  }

  lemma AlikeMeansSameOutcome(slots: seq<Slot>, slots': seq<Slot>, req: Request, now: int)
    requires AdmitAlike(slots, slots')
    ensures Claim(slots', req, now).0 == Claim(slots, req, now).0
  {
    assert forall k :: 0 <= k < |slots| ==> SlotsAlike(slots[k], slots'[k]);
    assert FirstById(slots', req.id, 0) == FirstById(slots, req.id, 0);
    assert FirstFree(slots', 0) == FirstFree(slots, 0);
    assert RootfsInUse(slots', req.rootfs) <==> RootfsInUse(slots, req.rootfs);
  }

  /** Rolling a claim back, whatever happened to other slots meanwhile, leaves a table that
      treats every later request as if this slot had never been used. */
  lemma UnclaimForgets(slots: seq<Slot>, i: nat, later: Request, at: int)
    requires i < |slots|
    ensures Claim(Unclaim(slots, i), later, at).0 == Claim(slots[i := EMPTY], later, at).0
  {
    AlikeMeansSameOutcome(slots[i := EMPTY], Unclaim(slots, i), later, at);
  }

  /** With nothing in between, a rollback undoes its claim: every later request is treated as if
      the failed start had never been made, and every other slot is as it was. */
  lemma UnclaimUndoesClaim(slots: seq<Slot>, req: Request, now: int, later: Request, at: int)
    requires Claim(slots, req, now).0.Claimed?
    ensures var (outcome, claimed) := Claim(slots, req, now);
            && outcome.index < |claimed|
            && var undone := Unclaim(claimed, outcome.index);
               && Claim(undone, later, at).0 == Claim(slots, later, at).0
               && |undone| == |slots| && (forall k :: 0 <= k < |slots| && slots[k].used ==> undone[k] == slots[k])
  {
    var (outcome, claimed) := Claim(slots, req, now);
    AlikeMeansSameOutcome(slots, Unclaim(claimed, outcome.index), later, at);
  }

  /** Publication admits and refuses nobody: the claim alone decides who else may start.  It
      makes the container known by its pid, unless an earlier slot shows that pid. */
  lemma PublishKeepsAdmission(slots: seq<Slot>, i: nat, pid: int, stack: nat, later: Request, at: int)
    requires i < |slots| && slots[i].used && slots[i].state == Starting
    ensures var slots' := Publish(slots, i, pid, stack);
            && Claim(slots', later, at).0 == Claim(slots, later, at).0
            && (FirstByPid(slots', pid, 0) == i <==> forall k :: 0 <= k < i && slots[k].used ==> slots[k].pid != pid)
  {
    AlikeMeansSameOutcome(slots, Publish(slots, i, pid, stack), later, at);
  }

  /** `kill` is called for the used live slots and no others. */
  lemma {:induction false} StopAllTargetsAreLive(slots: seq<Slot>, p: int)
    ensures p in StopAllTargets(slots) <==> exists k :: 0 <= k < |slots| && slots[k].used && Live(slots[k].state) && slots[k].pid == p
  {
    if slots != [] {
      var init, last := slots[..|slots| - 1], slots[|slots| - 1];
      StopAllTargetsAreLive(init, p);
      assert forall k :: 0 <= k < |init| ==> slots[k] == init[k];
      assert slots[|slots| - 1] == last;
    }
  }

  // ---------------------------------------------------------------------------------------
  // Attribution

  /** Exit codes and signals as `waitpid` can report them. */
  predicate Possible(status: Status) {
    match status
    case WExited(code) => 0 <= code < 256
    case WSignaled(signal) => 1 <= signal < 127
    case WOther => true
  }

  /** Without a stop request the record determines how the child ended; in particular
      KILLED with 137 means SIGKILL. */
  lemma RecordDeterminesOutcome(a: Status, b: Status)
    ensures Classify(false, a) == Classify(false, b) ==> a == b
    ensures Classify(false, a) == (Killed, 137) <==> a == WSignaled(SIGKILL)
    ensures Classify(false, a).0 == Killed <==> a.WSignaled?
    ensures Classify(false, a).0 == Exited <==> a.WExited?
  {
  }

  /** With one it does not: exactly the exit codes 129..254 also read as a signal. */
  lemma StoppedRecordIsAmbiguous(code: int)
    requires Possible(WExited(code))
    ensures (exists b :: Possible(b) && b != WExited(code) && Classify(true, b) == Classify(true, WExited(code)))
            <==> 129 <= code < 255
  {
    if 129 <= code < 255 {
      var b := WSignaled(code - 128);
      assert Possible(b) && Classify(true, b) == Classify(true, WExited(code));
    }
  }
}
