/**
 What every run of the transport keeps: slot ownership, the pairing of the two
 rings, and the bookkeeping of losses.
 */
module PipelineInvariants {
  import opened Wrappers
  import opened Buffer
  import opened Pipeline
  import opened Pairing

  // ----- slot ownership -----

  // The index the RT thread holds between `try_acquire` and `publish`.
  function SenderHolds(s: State): Option<u16> {
    match s.sender
    case Acquired(idx, _) => Some(idx)
    case Filled(idx) => Some(idx)
    case _ => None
  }

  // The index the worker holds between `try_pop` and `release`.
  function WorkerHolds(s: State): Option<u16> {
    match s.worker
    case InFlight(d, _) => if IsBarrier(d) then None else Some(d.slot)
    case Releasing(d, _) => if IsBarrier(d) then None else Some(d.slot)
    case _ => None
  }

  function Held(holder: Option<u16>, i: u16): nat {
    if holder == Some(i) then 1 else 0
  }

  function Count(holder: Option<u16>): nat {
    if holder.Some? then 1 else 0
  }

  function Occurs(q: seq<u16>, i: u16): nat {
    if q == [] then 0 else (if q[0] == i then 1 else 0) + Occurs(q[1..], i)
  }

  // How many places index `i` is in: free ring, RT-owned, work ring, I/O-owned, lost.
  function Places(s: State, i: u16): nat {
    Occurs(s.free, i) + Held(SenderHolds(s), i) + Occurs(SlotsOf(s.work), i)
    + Held(WorkerHolds(s), i) + Occurs(s.lost, i)
  }

  function TotalPlaces(s: State): nat {
    |s.free| + Count(SenderHolds(s)) + |SlotsOf(s.work)| + Count(WorkerHolds(s)) + |s.lost|
  }

  // ----- the two rings read together -----

  // The descriptors not yet applied: the one in the worker's hand, then the ring.
  function Queue(s: State): seq<Descriptor> {
    (if s.worker.InFlight? then [s.worker.desc] else []) + s.work
  }

  // The confirmed events not yet written.
  function Remaining(s: State): seq<Event> {
    var queued := Decode(Queue(s), Metas(s.control), s.next, s.slots);
    if s.worker.Failed? then s.worker.unwritten + queued else queued
  }

  // The newest metadata has been issued but no barrier names it.
  predicate NewestUnclaimed(s: State) {
    s.sender.BarrierDue? || s.pending.Some?
  }

  function Nearest(s: State): nat {
    if s.phase == Live && NewestUnclaimed(s) then 2 else 1
  }

  predicate NewestIs(s: State, seqNo: u16, meta: AudioMetadata) {
    var metas := Metas(s.control);
    Dist(s.next, seqNo) == 1 && metas != [] && metas[|metas| - 1] == meta
  }

  // ----- invariants -----

  predicate DrainedState(s: State) {
    s.phase != Live && StopFree(s.control)
  }

  predicate Bookkeeping(s: State) {
    && s.leaks == |s.lost| + (if s.worker.Failed? && s.worker.heldBarrier then 1 else 0)
    && (s.lost != [] ==> s.refused > 0 || s.worker.Failed?)
    && |s.offered| == |AudioOf(s.accepted)| + s.refused
                    + (if s.sender.Acquired? || s.sender.Filled? then 1 else 0)
    && (s.refused == 0 ==> s.offered == AudioOf(s.accepted) + SenderBlock(s))
    && (s.confirmed || s.sender.Acquired? || s.sender.Filled? ==> s.accepted != [])
    && (s.accepted != [] ==> s.accepted[0].Format?)
  }

  // The block the RT thread is about to publish.
  function SenderBlock(s: State): seq<Block> {
    match s.sender
    case Acquired(_, block) => [block]
    case Filled(idx) => if idx < |s.slots| then [s.slots[idx]] else []
    case _ => []
  }

  // Each index 0..N is in exactly one place, and no other index is anywhere.
  ghost predicate Owning(p: Params, s: State) {
    |s.slots| == p.n && TotalPlaces(s) == p.n
    && forall i: u16 :: Places(s, i) == if i < p.n then 1 else 0
  }

  predicate RingsOrdered(p: Params, s: State) {
    && |s.work| <= p.w && |s.control| <= p.c
    && Consecutive(s.control, s.next)
    && (s.phase == Live ==> StopFree(s.control))
    && (s.phase != Live ==> s.sender == Idle)
    && (s.worker == Draining ==> DrainedState(s))
    && (s.worker.InFlight? && s.worker.draining ==> DrainedState(s))
    && (s.worker.Releasing? && s.worker.draining ==> DrainedState(s))
    && (s.worker == Done ==> s.phase != Live && s.work == [] && s.control == [])
  }

  // Holds in every reachable state.
  ghost predicate Sound(p: Params, s: State) {
    Owning(p, s) && RingsOrdered(p, s) && Bookkeeping(s)
  }

  // Holds as long as every discard was clean.
  predicate Faithful(s: State) {
    && Chain(Queue(s), s.next, |Metas(s.control)|, Nearest(s))
    && s.written + Remaining(s) == s.accepted
    && (s.phase == Live && s.sender.BarrierDue? ==> NewestIs(s, s.sender.seqNo, s.sender.meta))
    && (s.phase == Live && !s.sender.BarrierDue? && s.pending.Some? ==>
          NewestIs(s, s.pending.value.0, s.pending.value.1))
  }

  // Holds from the first unclean discard on: some accepted event is out of reach.
  predicate Broken(s: State) {
    s.phase == Dropped && |s.written| + |Remaining(s)| < |s.accepted|
  }

  // ----- ownership is kept -----

  lemma {:induction false} IndicesOnce(n: nat, i: u16)
    requires n <= CONTROL_BARRIER_SLOT
    ensures |Indices(n)| == n && Occurs(Indices(n), i) == if i < n then 1 else 0
  {
    if n > 0 {
      IndicesOnce(n - 1, i);
      OccursAppend(Indices(n - 1), n - 1, i);
    }
  }

  lemma OwningInitially(p: Params)
    requires p.Legal()
    ensures Owning(p, Initial(p))
  {
    forall i: u16 ensures Places(Initial(p), i) == if i < p.n then 1 else 0 { IndicesOnce(p.n, i); }
    IndicesOnce(p.n, 0);
  }

  lemma {:induction false} OccursAppend(q: seq<u16>, x: u16, i: u16)
    ensures Occurs(q + [x], i) == Occurs(q, i) + if x == i then 1 else 0
  {
    if q != [] {
      assert (q + [x])[1..] == q[1..] + [x];
      OccursAppend(q[1..], x, i);
    }
  }

  ghost predicate SamePlaces(s: State, s': State, i: u16) {
    Places(s', i) == Places(s, i) && TotalPlaces(s') == TotalPlaces(s) && |s'.slots| == |s.slots|
  }

  lemma HeldIsIndex(p: Params, s: State, idx: u16)
    requires Owning(p, s) && (SenderHolds(s) == Some(idx) || WorkerHolds(s) == Some(idx))
    ensures idx < p.n
  {
    assert Places(s, idx) >= 1;
  }

  lemma PlacesPublish(p: Params, s: State, i: u16)
    requires Owning(p, s) && p.Legal()
    ensures SamePlaces(s, PublishStep(p, s), i)
  {
    hide Occurs, SlotsOf, Owning;
    if s.sender.Filled? && s.sender.idx < |s.slots| {
      var idx := s.sender.idx;
      HeldIsIndex(p, s, idx);
      OccursAppend(SlotsOf(s.work), idx, i);
      OccursAppend(s.lost, idx, i);
      SlotsOfAppend(s.work, Descriptor(idx, |s.slots[idx]|));
    }
  }

  lemma PlacesBarrier(p: Params, s: State, seqNo: u16, meta: AudioMetadata, i: u16)
    requires SenderHolds(s).None?
    ensures SamePlaces(s, BarrierStep(p, s, seqNo, meta), i)
  {
    SlotsOfAppend(s.work, Barrier(seqNo));
  }

  lemma PlacesOffer(s: State, block: Block, i: u16)
    ensures SamePlaces(s, OfferStep(s, block), i)
    ensures SamePlaces(s, FillStep(s), i)
  {
  }

  lemma PlacesAnnounce(p: Params, s: State, meta: AudioMetadata, i: u16)
    ensures SamePlaces(s, AnnounceStep(p, s, meta), i)
  {
    if s.pending.Some? && s.sender == Idle {
      hide BarrierStep;
      PlacesBarrier(p, s, s.pending.value.0, meta, i);
    }
  }

  lemma PlacesInSend(p: Params, s: State, a: Action, i: u16)
    requires Owning(p, s) && p.Legal() && !a.Work?
    ensures SamePlaces(s, Next(p, s, a), i)
  {
    hide OfferStep, FillStep, PublishStep, BarrierStep, AnnounceStep;
    match a
    case Offer(block) => PlacesOffer(s, block, i);
    case Fill => PlacesOffer(s, [], i);
    case Publish => PlacesPublish(p, s, i);
    case Announce(meta) => PlacesAnnounce(p, s, meta, i);
    case PushBarrier =>
      if s.sender.BarrierDue? { PlacesBarrier(p, s, s.sender.seqNo, s.sender.meta, i); }
    case _ =>
  }

  lemma PlacesRelease(p: Params, s: State, i: u16)
    requires s.worker.Releasing?
    ensures SamePlaces(s, ReleaseStep(p, s, s.worker.desc, s.worker.draining), i)
  {
    hide Occurs, SlotsOf;
    OccursAppend(s.lost, s.worker.desc.slot, i);
    OccursAppend(s.free, s.worker.desc.slot, i);
  }

  lemma PlacesPop(s: State, draining: bool, i: u16)
    requires s.work != [] && WorkerHolds(s).None?
    ensures SamePlaces(s, PopStep(s, draining), i)
  {
  }

  lemma PlacesApply(s: State, io: bool, i: u16)
    requires s.worker.InFlight?
    ensures IsBarrier(s.worker.desc) ==>
              SamePlaces(s, PairStep(s, s.worker.desc, s.worker.draining, io), i)
    ensures !IsBarrier(s.worker.desc) ==>
              SamePlaces(s, BlockStep(s, s.worker.desc, s.worker.draining, io), i)
  {
    hide Occurs, SlotsOf;
    OccursAppend(s.lost, s.worker.desc.slot, i);
  }

  lemma PlacesEmpty(s: State, io: bool, i: u16)
    requires s.worker == SawEmpty
    ensures SamePlaces(s, EmptyStep(s, io), i)
  {
    hide Occurs, SlotsOf;
  }

  lemma PlacesInWork(p: Params, s: State, a: Action, i: u16)
    requires a.Work?
    ensures SamePlaces(s, Next(p, s, a), i)
  {
    hide PopStep, PairStep, BlockStep, ReleaseStep, EmptyStep, Occurs, SlotsOf;
    match s.worker
    case Polling => if s.work != [] { PlacesPop(s, false, i); }
    case Draining => if s.work != [] { PlacesPop(s, true, i); }
    case InFlight(_, _) => PlacesApply(s, a.io, i);
    case Releasing(_, _) => PlacesRelease(p, s, i);
    case SawEmpty => PlacesEmpty(s, a.io, i);
    case _ =>
  }

  lemma OwningKept(p: Params, s: State, a: Action)
    requires p.Legal() && Owning(p, s)
    ensures Owning(p, Next(p, s, a))
  {
    hide Next, Places, TotalPlaces;
    forall i: u16
      ensures |Next(p, s, a).slots| == p.n && TotalPlaces(Next(p, s, a)) == p.n
      ensures Places(Next(p, s, a), i) == if i < p.n then 1 else 0
    {
      if a.Work? { PlacesInWork(p, s, a, i); } else { PlacesInSend(p, s, a, i); }
      assert SamePlaces(s, Next(p, s, a), i);
    }
    assert Places(Next(p, s, a), 0) <= 1;
  }

  // ----- the order of the rings is kept -----

  lemma RingsInBarrier(p: Params, s: State, seqNo: u16, meta: AudioMetadata)
    requires RingsOrdered(p, s) && s.phase == Live
    ensures RingsOrdered(p, BarrierStep(p, s, seqNo, meta))
  {
    hide Consecutive;
  }

  lemma RingsInAnnounce(p: Params, s: State, meta: AudioMetadata)
    requires RingsOrdered(p, s) && p.Legal()
    ensures RingsOrdered(p, AnnounceStep(p, s, meta))
  {
    if s.phase == Live && s.sender == Idle {
      hide BarrierStep, Consecutive;
      if s.pending.Some? && s.pending.value.1 == meta {
        RingsInBarrier(p, s, s.pending.value.0, meta);
      } else if |s.control| < p.c {
        ConsecutiveAnnounce(s.control, s.next, meta);
      }
    }
  }

  lemma RingsInStop(p: Params, s: State)
    requires RingsOrdered(p, s)
    ensures RingsOrdered(p, StopStep(p, s))
  {
    hide Consecutive;
    if s.phase == Live { ConsecutiveStop(s.control, s.next); }
  }

  lemma RingsInSend(p: Params, s: State, a: Action)
    requires RingsOrdered(p, s) && p.Legal() && !a.Work?
    ensures RingsOrdered(p, Next(p, s, a))
  {
    hide AnnounceStep, BarrierStep, StopStep, Consecutive;
    match a
    case Announce(meta) => RingsInAnnounce(p, s, meta);
    case PushBarrier =>
      if s.sender.BarrierDue? { RingsInBarrier(p, s, s.sender.seqNo, s.sender.meta); }
    case PushStop => RingsInStop(p, s);
    case _ =>
  }

  lemma RingsInApply(p: Params, s: State, io: bool)
    requires RingsOrdered(p, s) && s.worker.InFlight?
    ensures RingsOrdered(p, PairStep(s, s.worker.desc, s.worker.draining, io))
    ensures RingsOrdered(p, BlockStep(s, s.worker.desc, s.worker.draining, io))
  {
    hide Metas, Sub16;
  }

  lemma RingsInEmpty(p: Params, s: State, io: bool)
    requires RingsOrdered(p, s) && s.worker == SawEmpty
    ensures RingsOrdered(p, EmptyStep(s, io))
  {
    hide Metas, Sub16;
  }

  lemma EmptyConsecutive(next: u16)
    ensures Consecutive([], next)
  {
  }

  lemma RingsInWork(p: Params, s: State, io: bool)
    requires RingsOrdered(p, s)
    ensures RingsOrdered(p, WorkStep(p, s, io))
  {
    hide PairStep, BlockStep, EmptyStep, Consecutive;
    match s.worker
    case InFlight(_, _) => RingsInApply(p, s, io);
    case SawEmpty => RingsInEmpty(p, s, io);
    case Draining => assert Consecutive([], s.next) by { EmptyConsecutive(s.next); }
    case _ =>
  }

  // ----- the bookkeeping of losses is kept -----

  lemma BooksInOffer(s: State, block: Block)
    requires Bookkeeping(s)
    ensures Bookkeeping(OfferStep(s, block))
    ensures Bookkeeping(FillStep(s))
  {
    hide AudioOf;
  }

  lemma BooksInPublish(p: Params, s: State)
    requires Bookkeeping(s)
    ensures Bookkeeping(PublishStep(p, s))
  {
    if s.sender.Filled? && s.sender.idx < |s.slots| {
      hide AudioOf;
      AudioOfAppend(s.accepted, Audio(s.slots[s.sender.idx]));
    }
  }

  lemma BooksInBarrier(p: Params, s: State, seqNo: u16, meta: AudioMetadata)
    requires Bookkeeping(s) && (s.sender == Idle || s.sender.BarrierDue?)
    ensures Bookkeeping(BarrierStep(p, s, seqNo, meta))
  {
    hide AudioOf;
    AudioOfAppend(s.accepted, Format(meta));
  }

  lemma BooksInSend(p: Params, s: State, a: Action)
    requires Bookkeeping(s) && !a.Work?
    ensures Bookkeeping(Next(p, s, a))
  {
    hide OfferStep, FillStep, PublishStep, BarrierStep, AudioOf;
    match a
    case Offer(block) => BooksInOffer(s, block);
    case Fill => BooksInOffer(s, []);
    case Publish => BooksInPublish(p, s);
    case Announce(meta) =>
      if s.pending.Some? && s.sender == Idle { BooksInBarrier(p, s, s.pending.value.0, meta); }
    case PushBarrier =>
      if s.sender.BarrierDue? { BooksInBarrier(p, s, s.sender.seqNo, s.sender.meta); }
    case _ =>
  }

  // While the worker holds an index, the free ring has room for it.
  lemma ReleaseFits(p: Params, s: State)
    requires Owning(p, s) && WorkerHolds(s).Some?
    ensures |s.free| < p.n
  {
  }

  lemma BooksInApply(s: State, io: bool)
    requires Bookkeeping(s) && s.worker.InFlight?
    ensures Bookkeeping(PairStep(s, s.worker.desc, s.worker.draining, io))
    ensures Bookkeeping(BlockStep(s, s.worker.desc, s.worker.draining, io))
  {
    hide AudioOf, Sub16;
  }

  lemma BooksInEmpty(s: State, io: bool)
    requires Bookkeeping(s) && s.worker == SawEmpty
    ensures Bookkeeping(EmptyStep(s, io))
  {
    hide AudioOf;
  }

  lemma BooksInWork(p: Params, s: State, io: bool)
    requires Bookkeeping(s) && Owning(p, s)
    ensures Bookkeeping(WorkStep(p, s, io))
  {
    hide AudioOf, PairStep, BlockStep, EmptyStep, Owning;
    match s.worker
    case InFlight(_, _) => BooksInApply(s, io);
    case Releasing(d, _) => if !IsBarrier(d) { ReleaseFits(p, s); }
    case SawEmpty => BooksInEmpty(s, io);
    case _ =>
  }

  lemma SoundKept(p: Params, s: State, a: Action)
    requires p.Legal() && Sound(p, s)
    ensures Sound(p, Next(p, s, a))
  {
    hide Owning, RingsOrdered, Bookkeeping;
    OwningKept(p, s, a);
    if a.Work? {
      RingsInWork(p, s, a.io);
      BooksInWork(p, s, a.io);
    } else {
      RingsInSend(p, s, a);
      BooksInSend(p, s, a);
    }
  }
}
