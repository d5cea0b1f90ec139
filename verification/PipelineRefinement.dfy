/**
 The pool transport hands the worker exactly the events the sender confirmed,
 in the sender's order, as long as no discard drops a claimed metadata; from
 the first discard that does, one confirmed format is lost for good.
 */
module PipelineRefinement {
  import opened Wrappers
  import opened Buffer
  import opened Pipeline
  import opened Pairing
  import opened PipelineInvariants

  // ----- Faithful is kept by the sender -----

  lemma FaithfulFill(p: Params, s: State)
    requires Sound(p, s) && Faithful(s)
    ensures Faithful(FillStep(s))
  {
    if s.sender.Acquired? && s.sender.idx < |s.slots| {
      var idx := s.sender.idx;
      assert Places(s, idx) <= 1;
      NotQueued(s, idx);
      DecodeFrame(Queue(s), Metas(s.control), s.next, s.slots, idx, s.sender.block);
      hide Sound, Chain, Decode, Metas, Places, SlotsOf;
      assert Queue(FillStep(s)) == Queue(s);
    }
  }

  lemma {:induction false} OccursIn(q: seq<u16>, i: u16)
    ensures i in q <==> Occurs(q, i) > 0
  {
    if q != [] { OccursIn(q[1..], i); }
  }

  // An index the sender holds is in no queued descriptor.
  lemma NotQueued(s: State, idx: u16)
    requires SenderHolds(s) == Some(idx) && Places(s, idx) <= 1
    ensures idx !in SlotsOf(Queue(s))
  {
    OccursIn(SlotsOf(s.work), idx);
    if s.worker.InFlight? {
      assert Queue(s)[1..] == s.work;
    } else {
      assert Queue(s) == s.work;
    }
  }

  lemma Assoc<T>(a: seq<T>, b: seq<T>, c: seq<T>)
    ensures (a + b) + c == a + (b + c)
  {
  }

  // Queueing one more descriptor adds its event at the end.
  lemma RemainingAppend(s: State, s': State, d: Descriptor)
    requires s'.work == s.work + [d] && s'.worker == s.worker
    requires s'.control == s.control && s'.next == s.next && s'.slots == s.slots
    ensures Queue(s') == Queue(s) + [d]
    ensures s.written + Remaining(s') == s.written + Remaining(s) + DecodeOne(d, Metas(s.control), s.next, s.slots)
  {
    hide Metas, Decode, DecodeOne;
    DecodeAppend(Queue(s), d, Metas(s.control), s.next, s.slots);
    assert Queue(s') == Queue(s) + [d];
    var one := DecodeOne(d, Metas(s.control), s.next, s.slots);
    if s.worker.Failed? {
      Assoc(s.worker.unwritten, Decode(Queue(s), Metas(s.control), s.next, s.slots), one);
    }
    Assoc(s.written, Remaining(s), one);
  }

  lemma FaithfulPublish(p: Params, s: State)
    requires p.Legal() && Sound(p, s) && Faithful(s)
    ensures Faithful(PublishStep(p, s))
  {
    if s.sender.Filled? && s.sender.idx < |s.slots| {
      HeldIsIndex(p, s, s.sender.idx);
      hide Chain, Decode, Metas, Sound, Queue, Remaining;
      var d := Descriptor(s.sender.idx, |s.slots[s.sender.idx]|);
      ChainAppendAudio(Queue(s), s.next, |Metas(s.control)|, Nearest(s), d);
      if |s.work| < p.w { RemainingAppend(s, PublishStep(p, s), d); }
      else { RemainingSame(s, PublishStep(p, s)); }
    }
  }

  lemma RemainingSame(s: State, s': State)
    requires s'.work == s.work && s'.worker == s.worker
    requires s'.control == s.control && s'.next == s.next && s'.slots == s.slots
    ensures Queue(s') == Queue(s) && Remaining(s') == Remaining(s)
  {
  }

  lemma FaithfulBarrier(p: Params, s: State, seqNo: u16, meta: AudioMetadata)
    requires Faithful(s) && s.phase == Live && NewestUnclaimed(s) && NewestIs(s, seqNo, meta)
    requires s.sender == Idle || s.sender.BarrierDue?
    ensures Faithful(BarrierStep(p, s, seqNo, meta))
  {
    hide Chain, Decode, Metas, Queue, Remaining;
    var d := Barrier(seqNo);
    if |s.work| < p.w {
      ChainAppendBarrier(Queue(s), s.next, |Metas(s.control)|, d);
      RemainingAppend(s, BarrierStep(p, s, seqNo, meta), d);
    } else {
      RemainingSame(s, BarrierStep(p, s, seqNo, meta));
    }
  }

  // Changing only the control ring, without disturbing what the barriers name.
  lemma RemainingKept(s: State, s': State)
    requires s'.work == s.work && s'.slots == s.slots
    requires s'.worker == s.worker || (!s.worker.InFlight? && !s'.worker.InFlight? && !s.worker.Failed? && !s'.worker.Failed?)
    requires Decode(Queue(s), Metas(s'.control), s'.next, s.slots)
          == Decode(Queue(s), Metas(s.control), s.next, s.slots)
    ensures Queue(s') == Queue(s) && Remaining(s') == Remaining(s)
  {
    hide Decode, Metas;
    assert Queue(s') == Queue(s);
  }

  lemma FaithfulIssue(p: Params, s: State, meta: AudioMetadata)
    requires p.Legal() && Sound(p, s) && Faithful(s) && s.phase == Live && s.sender == Idle && |s.control| < p.c
    ensures Faithful(s.(control := s.control + [Metadata(s.next, meta)], next := Succ16(s.next),
                        confirmed := false, sender := BarrierDue(s.next, meta)))
  {
    hide Owning, Bookkeeping, Consecutive, Chain, Decode, Metas, Queue, Remaining;
    var s' := s.(control := s.control + [Metadata(s.next, meta)], next := Succ16(s.next),
                 confirmed := false, sender := BarrierDue(s.next, meta));
    var metas := Metas(s.control);
    MetasAppend(s.control, Metadata(s.next, meta));
    MetasLength(s.control);
    ChainShift(Queue(s), s.next, |metas|, Nearest(s));
    ChainWeaken(Queue(s), Succ16(s.next), |metas| + 1, |metas| + 1, Nearest(s) + 1, 2);
    DecodeShift(Queue(s), metas, s.next, s.slots, |metas|, Nearest(s), meta);
    RemainingKept(s, s');
  }

  lemma FaithfulAnnounce(p: Params, s: State, meta: AudioMetadata)
    requires p.Legal() && Sound(p, s) && Faithful(s)
    ensures Faithful(AnnounceStep(p, s, meta))
  {
    if s.phase == Live && s.sender == Idle {
      if s.pending.Some? && s.pending.value.1 == meta {
        hide BarrierStep, Chain, Decode, Metas, Sound;
        FaithfulBarrier(p, s, s.pending.value.0, meta);
      } else if |s.control| < p.c {
        hide Sound, Faithful;
        FaithfulIssue(p, s, meta);
      } else {
        hide Sound, Chain, Decode, Metas;
      }
    }
  }

  lemma FaithfulStop(p: Params, s: State)
    requires Faithful(s)
    ensures Faithful(StopStep(p, s)) && Faithful(DropStep(s))
  {
    hide Chain, Decode, Metas;
    MetasAppend(s.control, StreamStop);
    ChainWeaken(Queue(s), s.next, |Metas(s.control)|, |Metas(s.control)|, Nearest(s), 1);
  }

  lemma FaithfulSend(p: Params, s: State, a: Action)
    requires p.Legal() && Sound(p, s) && Faithful(s) && !a.Work?
    ensures Faithful(Next(p, s, a))
  {
    hide FillStep, PublishStep, BarrierStep, AnnounceStep, StopStep, DropStep, Chain, Decode, Metas, Places;
    match a
    case Offer(block) =>
    case Fill => FaithfulFill(p, s);
    case Publish => FaithfulPublish(p, s);
    case Announce(meta) => FaithfulAnnounce(p, s, meta);
    case PushBarrier =>
      if s.sender.BarrierDue? { FaithfulBarrier(p, s, s.sender.seqNo, s.sender.meta); }
    case PushStop => FaithfulStop(p, s);
    case DropSender => FaithfulStop(p, s);
  }

  // ----- Faithful is kept by the worker -----

  // The barrier in the worker's hand finds its metadata: the head of the control
  // ring is metadata, no newer than the barrier, and equal to it or superseded.
  lemma BarrierFindsMetadata(p: Params, s: State)
    requires p.Legal() && Sound(p, s) && Faithful(s) && s.worker.InFlight? && IsBarrier(s.worker.desc)
    ensures s.control != [] && s.control[0].Metadata?
    ensures Sub16(s.worker.desc.validLen, s.control[0].seqNo)
         == |Metas(s.control)| - Dist(s.next, s.worker.desc.validLen) < 0x8000
    ensures Metas(s.control) == [s.control[0].meta] + Metas(s.control[1..])
    ensures Nearest(s) <= Dist(s.next, s.worker.desc.validLen) <= |Metas(s.control)|
    ensures Chain(s.work, s.next, Dist(s.next, s.worker.desc.validLen) - 1, Nearest(s))
  {
    assert Queue(s)[1..] == s.work;
    MetasLength(s.control);
  }

  // Applying the head of the queue moves its event from `Remaining` to `written`.
  lemma RemainingHead(s: State, s': State, e: Event)
    requires s.worker.InFlight? && !s'.worker.InFlight? && s'.work == s.work
    requires Decode(Queue(s), Metas(s.control), s.next, s.slots)
          == [e] + Decode(s.work, Metas(s'.control), s'.next, s'.slots)
    requires if s'.worker.Failed? then s'.worker.unwritten == [e] && s'.written == s.written
             else s'.written == s.written + [e]
    ensures Queue(s') == s.work
    ensures s'.written + Remaining(s') == s.written + Remaining(s)
  {
    hide Decode, Metas;
    assert Queue(s') == s.work;
    Assoc(s.written, [e], Decode(s.work, Metas(s'.control), s'.next, s'.slots));
  }

  // A matching barrier decodes to the head metadata, and frees it.
  lemma MatchDecodes(p: Params, s: State)
    requires p.Legal() && Sound(p, s) && Faithful(s) && s.worker.InFlight? && IsBarrier(s.worker.desc)
    requires Dist(s.next, s.worker.desc.validLen) == |Metas(s.control)|
    ensures s.control != [] && s.control[0].Metadata?
    ensures Decode(Queue(s), Metas(s.control), s.next, s.slots)
         == [Format(s.control[0].meta)] + Decode(s.work, Metas(s.control[1..]), s.next, s.slots)
    ensures Chain(s.work, s.next, |Metas(s.control[1..])|, Nearest(s))
  {
    BarrierFindsMetadata(p, s);
    var metas := Metas(s.control);
    assert metas[1..] == Metas(s.control[1..]);
    assert Queue(s)[1..] == s.work;
    hide Sound, Chain;
    DecodeDrop(s.work, metas, s.next, s.slots, |metas| - 1, Nearest(s));
  }

  lemma FaithfulMatch(p: Params, s: State, io: bool)
    requires p.Legal() && Sound(p, s) && Faithful(s) && s.worker.InFlight? && IsBarrier(s.worker.desc)
    requires Dist(s.next, s.worker.desc.validLen) == |Metas(s.control)|
    ensures Faithful(PairStep(s, s.worker.desc, s.worker.draining, io))
  {
    BarrierFindsMetadata(p, s);
    MatchDecodes(p, s);
    hide Chain, Decode, Sound, Queue, Remaining;
    RemainingHead(s, PairStep(s, s.worker.desc, s.worker.draining, io), Format(s.control[0].meta));
  }

  lemma FaithfulSuperseded(p: Params, s: State, io: bool)
    requires p.Legal() && Sound(p, s) && Faithful(s) && s.worker.InFlight? && IsBarrier(s.worker.desc)
    requires Dist(s.next, s.worker.desc.validLen) < |Metas(s.control)|
    ensures Faithful(PairStep(s, s.worker.desc, s.worker.draining, io))
  {
    BarrierFindsMetadata(p, s);
    var metas := Metas(s.control);
    var back := Dist(s.next, s.worker.desc.validLen);
    assert metas[1..] == Metas(s.control[1..]);
    assert Chain(Queue(s), s.next, back, Nearest(s)) by { assert Queue(s)[1..] == s.work; }
    hide Metas, Sound, Chain, Decode;
    ChainWeaken(Queue(s), s.next, back, |metas| - 1, Nearest(s), Nearest(s));
    DecodeDrop(Queue(s), metas, s.next, s.slots, back, Nearest(s));
    assert Queue(PairStep(s, s.worker.desc, s.worker.draining, io)) == Queue(s);
  }

  lemma FaithfulBlock(p: Params, s: State, io: bool)
    requires p.Legal() && Sound(p, s) && Faithful(s) && s.worker.InFlight? && !IsBarrier(s.worker.desc)
    ensures Faithful(BlockStep(s, s.worker.desc, s.worker.draining, io))
  {
    var d := s.worker.desc;
    HeldIsIndex(p, s, d.slot);
    assert Queue(s)[1..] == s.work;
    assert Chain(s.work, s.next, |Metas(s.control)|, Nearest(s));
    hide Sound, Metas, Chain, Remaining;
    RemainingHead(s, BlockStep(s, d, s.worker.draining, io), Audio(s.slots[d.slot]));
  }

  // Dropping an unclaimed head metadata of an abandoned transport loses nothing.
  lemma FaithfulDiscard(p: Params, s: State)
    requires p.Legal() && Sound(p, s) && Faithful(s)
    requires Discards(s, Work(true)) && HeadUnclaimed(s)
    ensures Faithful(s.(control := s.control[1..], worker := Polling))
  {
    var metas := Metas(s.control);
    assert metas[1..] == Metas(s.control[1..]);
    assert Queue(s) == s.work;
    forall d <- s.work ensures IsBarrier(d) ==> Dist(s.next, d.validLen) != |metas| {
      assert Dist(s.next, s.control[0].seqNo) == |metas|;
    }
    hide Chain, Decode, Metas, Sound, Remaining, Queue;
    ChainTighten(s.work, s.next, |metas|, 1);
    DecodeDrop(s.work, metas, s.next, s.slots, |metas| - 1, 1);
    RemainingKept(s, s.(control := s.control[1..], worker := Polling));
  }

  // The other outcomes of the empty check leave the queued metadata alone.
  lemma FaithfulQuiet(s: State, s': State)
    requires Faithful(s) && Metas(s'.control) == Metas(s.control) && s'.worker in {Polling, Draining, Done, Failed([], false)}
    requires s' == s.(control := s'.control, worker := s'.worker) && s.worker == SawEmpty
    ensures Faithful(s')
  {
    hide Chain, Decode, Metas;
  }

  lemma FaithfulEmpty(p: Params, s: State, io: bool)
    requires p.Legal() && Sound(p, s) && Faithful(s) && s.worker == SawEmpty
    requires Discards(s, Work(io)) ==> HeadUnclaimed(s)
    ensures Faithful(EmptyStep(s, io))
  {
    if Discards(s, Work(io)) {
      hide Sound, Faithful;
      FaithfulDiscard(p, s);
    } else {
      assert s.control != [] && s.control[0].StreamStop? ==> Metas(s.control[1..]) == Metas(s.control);
      hide Sound, Faithful, Metas, HeadUnclaimed;
      FaithfulQuiet(s, EmptyStep(s, io));
    }
  }

  lemma QueuePop(s: State, draining: bool)
    requires s.work != [] && !s.worker.InFlight?
    ensures Queue(PopStep(s, draining)) == Queue(s)
  {
  }

  lemma FaithfulWork(p: Params, s: State, io: bool)
    requires p.Legal() && Sound(p, s) && Faithful(s)
    requires Discards(s, Work(io)) ==> HeadUnclaimed(s)
    ensures Faithful(WorkStep(p, s, io))
  {
    hide Owning, Bookkeeping, PairStep, BlockStep, EmptyStep, Chain, Decode, Metas, Discards, HeadUnclaimed;
    match s.worker
    case Polling => if s.work != [] { QueuePop(s, false); }
    case Draining => if s.work != [] { QueuePop(s, true); } else { FaithfulClear(s, io); }
    case InFlight(d, _) =>
      if !IsBarrier(d) { FaithfulBlock(p, s, io); }
      else {
        BarrierFindsMetadata(p, s);
        if Dist(s.next, d.validLen) == |Metas(s.control)| { FaithfulMatch(p, s, io); }
        else { FaithfulSuperseded(p, s, io); }
      }
    case SawEmpty => FaithfulEmpty(p, s, io);
    case _ =>
  }

  lemma FaithfulClear(s: State, io: bool)
    requires Faithful(s) && s.worker == Draining && s.work == [] && s.phase != Live
    ensures Faithful(s.(control := [], worker := if io then Done else Failed([], false)))
  {
  }
}
