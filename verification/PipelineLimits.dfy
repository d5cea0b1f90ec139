/**
 Capacity, pairing and hand-off over whole runs: what the sizes N, C and W buy,
 and what the worker finds when it takes a descriptor.
 */
module PipelineLimits {
  import opened Buffer
  import opened Pipeline
  import opened Pairing
  import opened PipelineInvariants
  import opened PipelineTheorems
  import opened PipelineLosses

  // ----- slot ownership -----

  // In every reachable state each index 0..N is in exactly one place, exactly
  // once, and the reserved barrier index is in none.
  lemma SlotInOnePlace(p: Params, run: seq<Action>, i: u16)
    requires p.Legal()
    ensures Places(Exec(p, run), i) == if i < p.n then 1 else 0
    ensures Places(Exec(p, run), CONTROL_BARRIER_SLOT) == 0
  {
    hide Places, RingsOrdered, Bookkeeping;
    RunKeeps(p, run);
    assert Owning(p, Exec(p, run));
  }

  // In every run the block the worker reads is the next confirmed block: the one
  // filled at the matching publish, even if its slot was reused many times before.
  // As long as the discards are clean it is also the next confirmed event.
  lemma BlockReadIsBlockPublished(p: Params, run: seq<Action>)
    requires p.Legal() && Exec(p, run).worker.InFlight? && !IsBarrier(Exec(p, run).worker.desc)
    ensures var s := Exec(p, run);
            && s.worker.desc.slot < |s.slots|
            && var block, done := s.slots[s.worker.desc.slot], AudioOf(s.written);
            && |done| < |AudioOf(s.accepted)| && done + [block] == AudioOf(s.accepted)[..|done| + 1]
            && (CleanDiscards(p, run) ==>
                  |s.written| < |s.accepted| && s.accepted[|s.written|] == Audio(block))
  {
    hide Exec, CleanDiscards, RingsOrdered, Bookkeeping, Chain, AudioOf, Decode, Metas, BlocksOf;
    var s := Exec(p, run);
    RunKeeps(p, run);
    HeldIsIndex(p, s, s.worker.desc.slot);
    BlocksAreConserved(p, run);
    HandIsFirst(s);
    if CleanDiscards(p, run) { HandIsNext(s); }
  }

  // The block in hand is the first of the queued ones.
  lemma HandIsFirst(s: State)
    requires s.worker.InFlight? && !IsBarrier(s.worker.desc) && s.worker.desc.slot < |s.slots|
    ensures BlocksOf(Queue(s), s.slots) == [s.slots[s.worker.desc.slot]] + BlocksOf(s.work, s.slots)
    ensures AudioOf(Unwritten(s)) == []
  {
    assert Queue(s)[1..] == s.work;
  }

  lemma HandIsNext(s: State)
    requires Faithful(s) && s.worker.InFlight? && !IsBarrier(s.worker.desc) && s.worker.desc.slot < |s.slots|
    ensures |s.written| < |s.accepted| && s.accepted[|s.written|] == Audio(s.slots[s.worker.desc.slot])
  {
    DecodeHand(s);
    hide Chain, Decode, Metas;
    assert s.accepted[|s.written|] == Remaining(s)[0];
  }

  // ----- pairing over 16-bit wrap -----

  lemma {:induction false} ConsecutiveAt(control: seq<ControlPayload>, next: u16, k: nat)
    requires Consecutive(control, next) && k < |control|
    ensures control[k].Metadata? <==> k < |Metas(control)|
    ensures control[k].Metadata? ==>
              Dist(next, control[k].seqNo) == |Metas(control)| - k && control[k].meta == Metas(control)[k]
  {
    if k > 0 && control[0].Metadata? { ConsecutiveAt(control[1..], next, k - 1); }
  }

  lemma {:induction false} ChainAt(queue: seq<Descriptor>, next: u16, hi: nat, lo: nat, j: nat)
    requires Chain(queue, next, hi, lo) && j < |queue| && IsBarrier(queue[j])
    ensures 1 <= lo <= Dist(next, queue[j].validLen) <= hi
    ensures forall i :: 0 <= i < j && IsBarrier(queue[i]) ==>
              Dist(next, queue[i].validLen) > Dist(next, queue[j].validLen)
  {
    if j > 0 {
      var hi' := if IsBarrier(queue[0]) then Dist(next, queue[0].validLen) - 1 else hi;
      ChainAt(queue[1..], next, hi', lo, j - 1);
      forall i | 0 <= i < j && IsBarrier(queue[i])
        ensures Dist(next, queue[i].validLen) > Dist(next, queue[j].validLen)
      {
        if i > 0 { assert queue[i] == queue[1..][i - 1]; }
      }
    }
  }

  // Queued barriers were issued in increasing order and each still has its own
  // metadata in the control ring, at the place its number says.
  lemma QueuedBarrierHasMetadata(p: Params, run: seq<Action>, j: nat)
    requires p.Legal() && CleanDiscards(p, run)
    requires var q := Queue(Exec(p, run)); j < |q| && IsBarrier(q[j])
    ensures var s := Exec(p, run);
            var q, m := Queue(s), |Metas(s.control)|;
            var back := Dist(s.next, q[j].validLen);
            && 1 <= back <= m <= |s.control|
            && s.control[m - back].Metadata? && s.control[m - back].seqNo == q[j].validLen
            && forall i :: 0 <= i < j && IsBarrier(q[i]) ==> Dist(s.next, q[i].validLen) > back
  {
    var s := Exec(p, run);
    RunKeeps(p, run);
    MetasLength(s.control);
    ChainAt(Queue(s), s.next, |Metas(s.control)|, Nearest(s), j);
    ConsecutiveAt(s.control, s.next, |Metas(s.control)| - Dist(s.next, Queue(s)[j].validLen));
  }

  // Entry `k` is the metadata numbered `seqNo`, behind nothing but older metadata.
  predicate MatchAt(control: seq<ControlPayload>, seqNo: u16, k: int) {
    && 0 <= k < |control| && control[k].Metadata? && control[k].seqNo == seqNo
    && forall i :: 0 <= i < k ==> control[i].Metadata? && 0 < Sub16(seqNo, control[i].seqNo) < 0x8000
  }

  lemma MatchFromChain(p: Params, s: State)
    requires p.Legal() && RingsOrdered(p, s) && s.worker.InFlight? && IsBarrier(s.worker.desc)
    requires Chain(Queue(s), s.next, |Metas(s.control)|, Nearest(s))
    ensures MatchAt(s.control, s.worker.desc.validLen, |Metas(s.control)| - Dist(s.next, s.worker.desc.validLen))
  {
    hide Chain, Metas, Consecutive;
    var k := |Metas(s.control)| - Dist(s.next, s.worker.desc.validLen);
    MetasLength(s.control);
    ChainAt(Queue(s), s.next, |Metas(s.control)|, Nearest(s), 0);
    forall i | 0 <= i <= k
      ensures s.control[i].Metadata? && Sub16(s.worker.desc.validLen, s.control[i].seqNo) == k - i
    {
      ConsecutiveAt(s.control, s.next, i);
    }
  }

  // Whenever the worker handles a barrier, its metadata is in the control ring
  // behind nothing but older metadata: the loop of `handle_control_barrier`
  // always reaches the exact match, and none of its warning exits.
  lemma BarrierAlwaysMatches(p: Params, run: seq<Action>)
    requires p.Legal() && CleanDiscards(p, run)
    requires Exec(p, run).worker.InFlight? && IsBarrier(Exec(p, run).worker.desc)
    ensures var s := Exec(p, run);
            var seqNo := s.worker.desc.validLen;
            MatchAt(s.control, seqNo, |Metas(s.control)| - Dist(s.next, seqNo))
  {
    hide Exec, CleanDiscards, Chain, MatchAt, Owning, Bookkeeping;
    RunKeeps(p, run);
    MatchFromChain(p, Exec(p, run));
  }

  // The head of the control ring is the metadata issued longest ago.
  lemma HeadIsFarthest(p: Params, run: seq<Action>)
    requires p.Legal() && CleanDiscards(p, run)
    requires Exec(p, run).control != [] && Exec(p, run).control[0].Metadata?
    ensures var s := Exec(p, run);
            Dist(s.next, s.control[0].seqNo) == |Metas(s.control)| > 0
  {
    hide Exec, CleanDiscards, Owning, Bookkeeping, Faithful;
    RunKeeps(p, run);
    ConsecutiveAt(Exec(p, run).control, Exec(p, run).next, 0);
  }

  // The pending format is the newest in the control ring, and no queued barrier names it.
  lemma PendingIsNewest(p: Params, s: State)
    requires p.Legal() && RingsOrdered(p, s) && Faithful(s)
    requires s.phase == Live && s.sender == Idle && s.pending.Some?
    ensures s.control != [] && s.control[|s.control| - 1] == Metadata(s.pending.value.0, s.pending.value.1)
    ensures forall d <- Queue(s) :: IsBarrier(d) ==> d.validLen != s.pending.value.0
  {
    MetasLength(s.control);
    ConsecutiveAt(s.control, s.next, |s.control| - 1);
    hide Remaining, Metas, Consecutive;
    forall d <- Queue(s) ensures IsBarrier(d) ==> d.validLen != s.pending.value.0 {
      var j :| 0 <= j < |Queue(s)| && Queue(s)[j] == d;
      if IsBarrier(d) { ChainAt(Queue(s), s.next, |Metas(s.control)|, 2, j); }
    }
  }

  // A retry of the pending format pushes only its barrier: the control ring
  // keeps its one entry for it, which no queued barrier names yet.
  lemma RetryReusesEntry(p: Params, run: seq<Action>, meta: AudioMetadata)
    requires p.Legal()
    requires var s := Exec(p, run);
             s.phase == Live && s.sender == Idle && s.pending.Some? && s.pending.value.1 == meta
    ensures var s, s' := Exec(p, run), AnnounceStep(p, Exec(p, run), meta);
            && s'.control == s.control && s'.next == s.next && s.control != []
            && s.control[|s.control| - 1] == Metadata(s.pending.value.0, meta)
            && (forall d <- Queue(s) :: IsBarrier(d) ==> d.validLen != s.pending.value.0)
            && (s'.work == s.work || s'.work == s.work + [Barrier(s.pending.value.0)])
  {
    hide Exec, Owning, RingsOrdered, Bookkeeping, Faithful, Queue;
    RunKeeps(p, run);
    assert !Broken(Exec(p, run));
    PendingIsNewest(p, Exec(p, run));
  }

  // ----- capacity counting -----

  // The chain of the work ring alone, without the descriptor in hand.
  lemma WorkChain(s: State)
    requires Faithful(s)
    ensures Chain(s.work, s.next, |Metas(s.control)|, Nearest(s))
  {
    if s.worker.InFlight? {
      assert Queue(s)[1..] == s.work;
      if IsBarrier(s.worker.desc) {
        ChainWeaken(s.work, s.next, Dist(s.next, s.worker.desc.validLen) - 1, |Metas(s.control)|,
                    Nearest(s), Nearest(s));
      }
    } else {
      assert Queue(s) == s.work;
    }
  }

  // With W = N + C there is room for the next push: the sender holds a slot, so
  // at most N - 1 blocks are queued; or the newest metadata has no barrier yet,
  // so at most C - 1 barriers are.
  lemma WorkHasRoom(p: Params, s: State)
    requires p.Legal() && Sound(p, s) && Faithful(s) && s.phase == Live && p.w >= p.n + p.c
    ensures SenderHolds(s).Some? || NewestUnclaimed(s) ==> |s.work| < p.w
  {
    WorkChain(s);
    ChainCount(s.work, s.next, |Metas(s.control)|, Nearest(s));
    MetasLength(s.control);
    hide Chain, Metas, Places;
  }

  ghost predicate Infallible(s: State) {
    s.pending.None? && (s.lost != [] ==> s.worker.Failed?)
  }

  lemma InfallibleKept(p: Params, s: State, a: Action)
    requires p.Legal() && Sound(p, s) && Infallible(s) && p.w >= p.n + p.c
    requires s.phase == Live ==> Faithful(s)
    ensures Infallible(Next(p, s, a))
  {
    hide Chain, Metas, Decode, Faithful, Owning, Bookkeeping, Consecutive, WorkStep;
    if s.phase == Live { WorkHasRoom(p, s); }
    if a.Work? { InfallibleWork(p, s, a.io); }
  }

  lemma InfallibleWork(p: Params, s: State, io: bool)
    requires p.Legal() && Sound(p, s) && Infallible(s)
    ensures Infallible(WorkStep(p, s, io))
  {
    if s.worker.Releasing? && !IsBarrier(s.worker.desc) { ReleaseFits(p, s); }
    hide Sound;
  }

  // With W >= N + C, `publish`, `release` and the barrier push never meet a full
  // ring while the sender lives; no barrier is ever pending and no slot is lost
  // except the one a failed write held.
  lemma {:induction false} RingsNeverFull(p: Params, run: seq<Action>)
    requires p.Legal() && p.w >= p.n + p.c
    ensures var s := Exec(p, run);
            && s.pending.None?
            && (s.sender.Filled? || s.sender.BarrierDue? ==> |s.work| < p.w)
            && (s.worker.Releasing? && !IsBarrier(s.worker.desc) ==> |s.free| < p.n)
            && (s.lost != [] ==> s.worker.Failed?)
  {
    var s := Exec(p, run);
    RunKeeps(p, run);
    if run != [] {
      RunKeeps(p, run[..|run| - 1]);
      RingsNeverFull(p, run[..|run| - 1]);
      hide Sound, Faithful, Next;
      InfallibleKept(p, Exec(p, run[..|run| - 1]), run[|run| - 1]);
    }
    if s.sender.Filled? || s.sender.BarrierDue? {
      hide Owning, Faithful, Bookkeeping;
      WorkHasRoom(p, s);
    }
    if s.worker.Releasing? && !IsBarrier(s.worker.desc) {
      hide RingsOrdered, Faithful, Bookkeeping;
      ReleaseFits(p, s);
    }
  }

  // The sizes the recorder is built with.
  const BUILT := Params(POOL_CAPACITY, CONTROL_CAPACITY, POOL_CAPACITY + CONTROL_CAPACITY)

  // With them no push of a live recording meets a full ring.
  lemma BuiltRingsNeverFull(run: seq<Action>)
    ensures BUILT.Legal()
    ensures var s := Exec(BUILT, run);
            && s.pending.None? && |s.control| <= CONTROL_CAPACITY
            && (s.sender.Filled? || s.sender.BarrierDue? ==> |s.work| < BUILT.w)
            && (s.worker.Releasing? && !IsBarrier(s.worker.desc) ==> |s.free| < POOL_CAPACITY)
            && (s.lost != [] ==> s.worker.Failed?)
  {
    hide Exec, Owning, Bookkeeping;
    RingsNeverFull(BUILT, run);
    RunKeeps(BUILT, run);
  }
}
