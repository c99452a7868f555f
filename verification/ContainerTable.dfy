/** The global `containers` array and the code that changes it in place. */
module ContainerTable {
  import opened Containers
  import C = Containers

  class Table {
    const slots: array<Slot>

    /** `init_containers`. */
    constructor ()
      ensures slots.Length == MAX_CONTAINERS && fresh(slots)
      ensures forall k :: 0 <= k < slots.Length ==> slots[k] == EMPTY
    {
      slots := new Slot[MAX_CONTAINERS](_ => EMPTY);
    }

    /** `find_free_container_slot_locked`. */
    method FindFree() returns (r: int)
      ensures r == FirstFree(slots[..], 0)
    {
      for i := 0 to slots.Length
        invariant FirstFree(slots[..], 0) == FirstFree(slots[..], i)
      {
        if !slots[i].used {
          return i;
        }
      }
      return -1;
    }

    /** `find_container_by_id_locked`. */
    method FindById(id: string) returns (r: int)
      ensures r == FirstById(slots[..], id, 0)
    {
      for i := 0 to slots.Length
        invariant FirstById(slots[..], id, 0) == FirstById(slots[..], id, i)
      {
        if slots[i].used && slots[i].id == id {
          return i;
        }
      }
      return -1;
    }

    /** `rootfs_in_use_locked`. */
    method IsRootfsInUse(rootfs: string) returns (inUse: bool)
      ensures inUse == RootfsInUse(slots[..], rootfs)
    {
      for i := 0 to slots.Length
        invariant forall k :: 0 <= k < i ==> !(slots[k].used && Live(slots[k].state) && slots[k].rootfs == rootfs)
      {
        if slots[i].used && Live(slots[i].state) && slots[i].rootfs == rootfs {
          assert slots[..][i].rootfs == rootfs;
          return true;
        }
      }
      return false;
    }

    /** The first critical section of `start_container_internal`. */
    method Claim(req: Request, now: int) returns (outcome: ClaimOutcome)
      modifies slots
      ensures (outcome, slots[..]) == C.Claim(old(slots[..]), req, now)
    {
      var same := FindById(req.id);
      if same >= 0 {
        return DuplicateId;
      }
      var busy := IsRootfsInUse(req.rootfs);
      if busy {
        return RootfsBusy;
      }
      var i := FindFree();
      if i < 0 {
        return TableFull;
      }
      slots[i] := NewSlot(req, now);
      return Claimed(i);
    }

    /** `containers[idx].used = 0` on a failure path. */
    method Unclaim(i: nat)
      requires i < slots.Length
      modifies slots
      ensures slots[..] == C.Unclaim(old(slots[..]), i)
    {
      slots[i] := slots[i].(used := false);
    }

    /** The second critical section of `start_container_internal`. */
    method Publish(i: nat, pid: int, stack: nat)
      requires i < slots.Length
      modifies slots
      ensures slots[..] == C.Publish(old(slots[..]), i, pid, stack)
    {
      slots[i] := slots[i].(pid := pid, stack := stack, state := Running);
    }

    /** The critical section of `stop_container_by_id`. */
    method RequestStop(id: string) returns (outcome: StopOutcome)
      modifies slots
      ensures (outcome, slots[..]) == C.RequestStop(old(slots[..]), id)
    {
      var i := FindById(id);
      if i < 0 {
        return NoSuchContainer;
      }
      if !Live(slots[i].state) {
        return NotRunning;
      }
      slots[i] := slots[i].(stopRequested := true);
      return Signal(i, slots[i].pid);
    }

    /** `stop_all_live_containers`; the result lists the pids passed to `kill`. */
    method StopAll() returns (targets: seq<int>)
      modifies slots
      ensures slots[..] == C.StopAll(old(slots[..]))
      ensures targets == StopAllTargets(old(slots[..]))
    {
      targets := [];
      ghost var before := slots[..];
      for i := 0 to slots.Length
        invariant forall k :: 0 <= k < i ==> slots[k] == StopIfLive(before[k])
        invariant forall k :: i <= k < slots.Length ==> slots[k] == before[k]
        invariant targets == StopAllTargets(before[..i])
      {
        assert before[..i + 1][..i] == before[..i];
        if slots[i].used && Live(slots[i].state) {
          slots[i] := slots[i].(stopRequested := true);
          targets := targets + [slots[i].pid];
        }
      }
      assert before[..slots.Length] == before;
    }

    /** The critical section of `reaper_main`.  `hit` is the slot that was updated, if any, and
        `freed` the stack handed to `free`, or 0. */
    method Record(pid: int, status: Status) returns (hit: int, freed: nat)
      modifies slots
      ensures slots[..] == C.Record(old(slots[..]), pid, status)
      ensures hit == FirstByPid(old(slots[..]), pid, 0)
      ensures freed == if hit < 0 then 0 else old(slots[..])[hit].stack
    {
      for i := 0 to slots.Length
        invariant slots[..] == old(slots[..])
        invariant FirstByPid(slots[..], pid, 0) == FirstByPid(slots[..], pid, i)
      {
        if slots[i].used && slots[i].pid == pid {
          match status {
            case WExited(code) =>
              var state := if slots[i].stopRequested then Stopped else Exited;
              slots[i] := slots[i].(state := state, exitCode := code);
            case WSignaled(signal) =>
              var state := if slots[i].stopRequested then Stopped else Killed;
              slots[i] := slots[i].(state := state, exitCode := 128 + signal);
            case WOther =>
              slots[i] := slots[i].(state := Stopped, exitCode := -1);
          }
          freed := slots[i].stack;
          if freed != 0 {
            slots[i] := slots[i].(stack := 0);
          }
          hit := i;
          assert slots[..] == old(slots[..])[i := Retire(old(slots[..])[i], status)];
          return;
        }
      }
      return -1, 0;
    }
  }
}
