/** Pages, bytes and mebibytes: what the monitor's `unsigned long` arithmetic decides. */
module MonitorUnits {
  import opened CTypes
  import opened MonitorPolicy
  import opened MonitorRuns

  lemma DivBound(bytes: nat)
    ensures (bytes / MIB) * MIB <= bytes < (bytes / MIB + 1) * MIB
  {
  }

  /** The reported size is the true size rounded down exactly when the byte count fits in 64 bits. */
  lemma RssIsExactUnlessItWraps(pages: nat)
    ensures RssMib(pages) == (pages * PAGE_SIZE) / MIB <==> pages * PAGE_SIZE <= ULONG_MAX
  {
    var bytes := pages * PAGE_SIZE;
    if bytes > ULONG_MAX {
      DivBound(bytes);
      DivBound(bytes % (ULONG_MAX + 1));
    }
  }

  /** A process is over its hard limit exactly when it holds a full mebibyte more than the
      limit, so the memory it can hold beyond the limit unharmed is under one mebibyte. */
  lemma HardLimitInBytes(pages: nat, hard: nat)
    requires pages * PAGE_SIZE <= ULONG_MAX
    ensures RssMib(pages) > hard <==> pages * PAGE_SIZE >= (hard + 1) * MIB
    ensures RssMib(pages) <= hard ==> pages * PAGE_SIZE - hard * MIB < MIB
  {
    DivBound(pages * PAGE_SIZE);
  }

  lemma RssRange(pages: nat)
    ensures RssMib(pages) < (ULONG_MAX + 1) / MIB
  {
  }

  lemma RssOfMebibytes(m: nat)
    requires m < (ULONG_MAX + 1) / MIB
    ensures RssMib(m * 256) == m
  {
    assert m * 256 * PAGE_SIZE == m * MIB;
    assert m * MIB <= ULONG_MAX;
  }

  /** A kill that no warning accompanies is possible exactly when the soft limit is above the
      hard one and the hard one is not beyond what 64-bit byte counts can reach. */
  lemma UnwarnedKillNeedsSoftAboveHard(soft: nat, hard: nat)
    ensures (exists pages: nat :: RssMib(pages) > hard && RssMib(pages) <= soft)
            <==> soft > hard && hard + 1 < (ULONG_MAX + 1) / MIB
  {
    if soft > hard && hard + 1 < (ULONG_MAX + 1) / MIB {
      RssOfMebibytes(hard + 1);
      assert RssMib((hard + 1) * 256) == hard + 1;
    }
    forall pages: nat | RssMib(pages) > hard && RssMib(pages) <= soft
      ensures soft > hard && hard + 1 < (ULONG_MAX + 1) / MIB
    {
      RssRange(pages);
    }
  }

  // ---------------------------------------------------------------------------------------
  // The same over whole runs

  /** In the epoch opened at `a`, pass `b` kills `p` and no warning was ever issued. */
  ghost predicate UnwarnedKill(ops: seq<Op>, p: int, a: nat, b: nat, soft: nat, hard: nat) {
    && b < |ops| && Epoch(ops, p, a, b) && ops[a].soft == soft && ops[a].hard == hard
    && ops[b].DoTick? && Count(Of(p, EventsAt(ops, b)), true) > 0 && Warnings(ops, p, a, b + 1) == 0
  }

  lemma UnwarnedKillMeans(ops: seq<Op>, p: int, a: nat, b: nat, soft: nat, hard: nat)
    requires UnwarnedKill(ops, p, a, b, soft, hard)
    ensures p > 0 && hard > 0 && soft > hard && hard + 1 < (ULONG_MAX + 1) / MIB
  {
    UnwarnedKillExactly(ops, p, a, b);
    KilledMeansOver(ops, p, a, b);
    if OverSoft(ops[b].looks, p, soft) {
      CrossedNow(ops, p, a, b, soft);
    }
    RssRange(LookAt(ops[b].looks, p).n);
  }

  /** Register, then one pass that finds a mebibyte more than the hard limit. */
  ghost function KillRun(p: int, soft: nat, hard: nat): seq<Op> {
    [DoRegister(p, soft, hard, true), DoTick(map[p := Pages((hard + 1) * 256)])]
  }

  lemma KillRunOpens(p: int, soft: nat, hard: nat)
    requires p > 0 && hard > 0
    ensures Epoch(KillRun(p, soft, hard), p, 0, 1)
    ensures Lookup(After(KillRun(p, soft, hard)[..1]), p) == Tracked(soft, hard, false)
  {
    var ops := KillRun(p, soft, hard);
    assert ops[..0] == [];
    EpochOpens(ops, p, 0);
    ListIsAMap(ops[..1], p);
  }

  lemma KillRunKills(p: int, soft: nat, hard: nat)
    requires p > 0 && hard > 0 && soft > hard && hard + 1 < (ULONG_MAX + 1) / MIB
    ensures UnwarnedKill(KillRun(p, soft, hard), p, 0, 1, soft, hard)
  {
    var ops := KillRun(p, soft, hard);
    KillRunOpens(p, soft, hard);
    RssOfMebibytes(hard + 1);
    KillsExactly(ops, 1, p);
    UnwarnedKillExactly(ops, p, 0, 1);
  }

  /** Some run kills a process without ever warning about it exactly if its registration is
      valid, sets soft above hard, and a hard limit that 64-bit byte counts can exceed. */
  lemma UnwarnedKillsExactly(p: int, soft: nat, hard: nat)
    ensures (exists ops, a, b :: UnwarnedKill(ops, p, a, b, soft, hard)) <==>
            p > 0 && hard > 0 && soft > hard && hard + 1 < (ULONG_MAX + 1) / MIB
  {
    if p > 0 && hard > 0 && soft > hard && hard + 1 < (ULONG_MAX + 1) / MIB {
      KillRunKills(p, soft, hard);
    }
    if ops, a, b :| UnwarnedKill(ops, p, a, b, soft, hard) {
      UnwarnedKillMeans(ops, p, a, b, soft, hard);
    }
  }
}
