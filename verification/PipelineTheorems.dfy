/**
 The results about whole runs of the transport, for every pool size, control
 capacity and work capacity and for every interleaving of sender and worker.
 */
module PipelineTheorems {
  import opened Pipeline
  import opened Pairing
  import opened PipelineInvariants
  import opened PipelineRefinement

  // ----- after an unclean discard -----

  // How many accepted events are written or can still be.
  function InReach(s: State): nat {
    |s.written| + |Remaining(s)|
  }

  // What dropping the head metadata does to the queued events.
  lemma HeadDropped(p: Params, s: State)
    requires RingsOrdered(p, s) && s.control != [] && s.control[0].Metadata?
    ensures var metas := Metas(s.control);
            && metas != [] && metas[1..] == Metas(s.control[1..])
            && Dist(s.next, s.control[0].seqNo) == |metas|
    ensures |Decode(s.work, Metas(s.control[1..]), s.next, s.slots)|
         <= |Decode(s.work, Metas(s.control), s.next, s.slots)|
    ensures |Decode(Queue(s), Metas(s.control[1..]), s.next, s.slots)|
         <= |Decode(Queue(s), Metas(s.control), s.next, s.slots)|
    ensures !HeadUnclaimed(s) ==>
              |Decode(s.work, Metas(s.control[1..]), s.next, s.slots)|
              < |Decode(s.work, Metas(s.control), s.next, s.slots)|
  {
    var metas := Metas(s.control);
    assert metas[1..] == Metas(s.control[1..]);
    DecodeDropShrinks(s.work, metas, s.next, s.slots);
    DecodeDropShrinks(Queue(s), metas, s.next, s.slots);
  }

  // The queue is the descriptor in hand followed by the work ring.
  lemma DecodeHand(s: State)
    requires s.worker.InFlight?
    ensures Decode(Queue(s), Metas(s.control), s.next, s.slots)
         == DecodeOne(s.worker.desc, Metas(s.control), s.next, s.slots)
          + Decode(s.work, Metas(s.control), s.next, s.slots)
  {
    assert Queue(s)[1..] == s.work;
  }

  lemma ReachOf(s: State)
    ensures InReach(s) == |s.written| + (if s.worker.Failed? then |s.worker.unwritten| else 0)
                        + |Decode(Queue(s), Metas(s.control), s.next, s.slots)|
    ensures !s.worker.InFlight? ==> Queue(s) == s.work
  {
  }

  lemma ReachInPair(p: Params, s: State, io: bool)
    requires RingsOrdered(p, s) && s.worker.InFlight? && IsBarrier(s.worker.desc)
    ensures InReach(PairStep(s, s.worker.desc, s.worker.draining, io)) <= InReach(s)
  {
    hide InReach, Decode, DecodeOne, Metas, RingsOrdered, HeadUnclaimed, Dist, Sub16;
    var s' := PairStep(s, s.worker.desc, s.worker.draining, io);
    if s.control != [] && s.control[0].Metadata? {
      HeadDropped(p, s);
      if Sub16(s.worker.desc.validLen, s.control[0].seqNo) == 0 { MatchIsOne(p, s); }
    }
    ReachOf(s);
    ReachOf(s');
    DecodeHand(s);
  }

  lemma MatchIsOne(p: Params, s: State)
    requires RingsOrdered(p, s) && s.worker.InFlight? && IsBarrier(s.worker.desc)
    requires s.control != [] && s.control[0].Metadata?
    requires Sub16(s.worker.desc.validLen, s.control[0].seqNo) == 0
    ensures |DecodeOne(s.worker.desc, Metas(s.control), s.next, s.slots)| == 1
  {
    hide RingsOrdered, Metas;
    HeadDropped(p, s);
  }

  lemma ReachInBlock(s: State, io: bool)
    requires s.worker.InFlight? && !IsBarrier(s.worker.desc)
    ensures InReach(BlockStep(s, s.worker.desc, s.worker.draining, io)) <= InReach(s)
  {
    var s' := BlockStep(s, s.worker.desc, s.worker.draining, io);
    ReachOf(s);
    ReachOf(s');
    DecodeHand(s);
    hide InReach, Decode, Metas;
  }

  lemma ReachInEmpty(p: Params, s: State, io: bool)
    requires RingsOrdered(p, s) && s.worker == SawEmpty
    ensures InReach(EmptyStep(s, io)) <= InReach(s)
    ensures Discards(s, Work(io)) && !HeadUnclaimed(s) ==> InReach(EmptyStep(s, io)) < InReach(s)
  {
    var s' := EmptyStep(s, io);
    if s.control != [] && s.control[0].Metadata? { HeadDropped(p, s); }
    if s.control != [] && s.control[0].StreamStop? { assert Metas(s.control[1..]) == Metas(s.control); }
    ReachOf(s);
    ReachOf(s');
    hide InReach, Decode, Metas, RingsOrdered, HeadUnclaimed;
  }

  lemma ReachInPop(s: State, draining: bool)
    requires s.work != [] && !s.worker.InFlight? && !s.worker.Failed?
    ensures InReach(PopStep(s, draining)) == InReach(s)
  {
    QueuePop(s, draining);
    ReachOf(s);
    ReachOf(PopStep(s, draining));
    hide InReach, Queue, Decode, Metas;
  }

  lemma ReachInRest(p: Params, s: State, io: bool)
    requires s.worker.Releasing? || ((s.worker == Polling || s.worker == Draining) && s.work == [])
    ensures InReach(WorkStep(p, s, io)) == InReach(s)
  {
    ReachOf(s);
    ReachOf(WorkStep(p, s, io));
    EmptyDecode(s);
    hide InReach, Decode, Metas;
  }

  lemma EmptyDecode(s: State)
    ensures Decode([], Metas([]), s.next, s.slots) == [] == Decode([], Metas(s.control), s.next, s.slots)
  {
  }

  lemma ReachInWork(p: Params, s: State, io: bool)
    requires RingsOrdered(p, s)
    ensures InReach(WorkStep(p, s, io)) <= InReach(s)
    ensures Discards(s, Work(io)) && !HeadUnclaimed(s) ==> InReach(WorkStep(p, s, io)) < InReach(s)
  {
    hide RingsOrdered, PopStep, PairStep, BlockStep, ReleaseStep, EmptyStep, HeadUnclaimed, InReach;
    match s.worker
    case InFlight(d, _) => if IsBarrier(d) { ReachInPair(p, s, io); } else { ReachInBlock(s, io); }
    case SawEmpty => ReachInEmpty(p, s, io);
    case Polling => if s.work != [] { ReachInPop(s, false); } else { ReachInRest(p, s, io); }
    case Draining => if s.work != [] { ReachInPop(s, true); } else { ReachInRest(p, s, io); }
    case Releasing(_, _) => ReachInRest(p, s, io);
    case _ =>
  }

  // A worker step confirms nothing and leaves the sender where it is.
  predicate Keeps(before: State, after: State) {
    && after.phase == before.phase && after.sender == before.sender && after.accepted == before.accepted
    && after.refused == before.refused && after.confirmed == before.confirmed && after.offered == before.offered
  }

  lemma ApplyKeeps(s: State, d: Descriptor, draining: bool, io: bool)
    ensures Keeps(s, PairStep(s, d, draining, io)) && Keeps(s, BlockStep(s, d, draining, io))
  {
  }

  lemma PollKeeps(p: Params, s: State, d: Descriptor, draining: bool, io: bool)
    ensures Keeps(s, ReleaseStep(p, s, d, draining)) && Keeps(s, EmptyStep(s, io))
    ensures s.work != [] ==> Keeps(s, PopStep(s, draining))
  {
  }

  lemma WorkKeeps(p: Params, s: State, io: bool)
    ensures Keeps(s, WorkStep(p, s, io))
  {
    hide PairStep, BlockStep, ReleaseStep, EmptyStep, PopStep;
    match s.worker
    case InFlight(d, draining) => ApplyKeeps(s, d, draining, io);
    case Releasing(d, draining) => PollKeeps(p, s, d, draining, io);
    case _ =>
      PollKeeps(p, s, Barrier(0), false, io);
      PollKeeps(p, s, Barrier(0), true, io);
  }

  lemma BrokenKept(p: Params, s: State, a: Action)
    requires p.Legal() && Sound(p, s) && Broken(s)
    ensures Broken(Next(p, s, a))
  {
    hide Owning, Bookkeeping, Remaining;
    if a.Work? {
      hide WorkStep;
      ReachInWork(p, s, a.io);
      WorkKeeps(p, s, a.io);
    }
  }

  lemma BrokenStarts(p: Params, s: State, a: Action)
    requires p.Legal() && Sound(p, s) && Faithful(s) && Discards(s, a) && !HeadUnclaimed(s)
    ensures Broken(Next(p, s, a))
  {
    hide Owning, Bookkeeping, Remaining, HeadUnclaimed, Chain, WorkStep;
    ReachInWork(p, s, a.io);
    WorkKeeps(p, s, a.io);
  }

  // ----- every run -----

  lemma {:induction false} RunKeeps(p: Params, run: seq<Action>)
    requires p.Legal()
    ensures Sound(p, Exec(p, run))
    ensures CleanDiscards(p, run) ==> Faithful(Exec(p, run))
    ensures !CleanDiscards(p, run) ==> Broken(Exec(p, run))
  {
    hide Sound, Faithful, Broken, Next, Discards, HeadUnclaimed;
    if run == [] {
      InitialKeeps(p);
    } else {
      var s, a := Exec(p, run[..|run| - 1]), run[|run| - 1];
      RunKeeps(p, run[..|run| - 1]);
      SoundKept(p, s, a);
      if !CleanDiscards(p, run[..|run| - 1]) { BrokenKept(p, s, a); }
      else if CleanDiscards(p, run) { FaithfulKept(p, s, a); }
      else { BrokenStarts(p, s, a); }
    }
  }

  lemma InitialKeeps(p: Params)
    requires p.Legal()
    ensures Sound(p, Initial(p)) && Faithful(Initial(p))
  {
    OwningInitially(p);
  }

  lemma FaithfulKept(p: Params, s: State, a: Action)
    requires p.Legal() && Sound(p, s) && Faithful(s) && (Discards(s, a) ==> HeadUnclaimed(s))
    ensures Faithful(Next(p, s, a))
  {
    hide Sound, Faithful, HeadUnclaimed;
    if a.Work? {
      assert a == Work(a.io);
      FaithfulWork(p, s, a.io);
    } else {
      FaithfulSend(p, s, a);
    }
  }

  // A finished worker wrote exactly what was confirmed, in that order, if and
  // only if no discard dropped a metadata whose barrier was queued.
  lemma DrainIsExact(p: Params, run: seq<Action>)
    requires p.Legal() && Exec(p, run).worker == Done
    ensures var s := Exec(p, run);
            s.written == s.accepted <==> CleanDiscards(p, run)
  {
    RunKeeps(p, run);
  }

  // At any moment of a clean run what is written is a prefix of what was confirmed.
  lemma WrittenIsPrefix(p: Params, run: seq<Action>)
    requires p.Legal() && CleanDiscards(p, run)
    ensures var s := Exec(p, run);
            s.written <= s.accepted && s.written + Remaining(s) == s.accepted
  {
    RunKeeps(p, run);
  }

  // ----- the empty poll as one step -----

  // Nothing happens between finding the work ring empty and looking at the
  // control ring.
  predicate PollsAtomically(p: Params, run: seq<Action>)
    requires p.Legal()
  {
    run == [] ||
    (PollsAtomically(p, run[..|run| - 1])
     && (Exec(p, run[..|run| - 1]).worker == SawEmpty ==> run[|run| - 1].Work?))
  }

  lemma EmptyWhenSeen(p: Params, s: State, a: Action)
    requires s.worker == SawEmpty ==> a.Work?
    ensures var s' := Next(p, s, a); s'.worker == SawEmpty ==> s'.work == []
    ensures s.worker == SawEmpty ==> Next(p, s, a).worker != SawEmpty
  {
    hide PairStep, BlockStep, ReleaseStep;
    if a.Work? {
      WorkerAfter(p, s, a.io);
    } else {
      hide WorkStep;
    }
  }

  lemma WorkerAfter(p: Params, s: State, io: bool)
    ensures var s' := WorkStep(p, s, io);
            s'.worker == SawEmpty ==> s.worker == Polling && s'.work == []
  {
  }

  // Then every discard is clean, so the drain is exact without further condition.
  lemma {:induction false} AtomicPollIsClean(p: Params, run: seq<Action>)
    requires p.Legal() && PollsAtomically(p, run)
    ensures CleanDiscards(p, run)
    ensures Exec(p, run).worker == SawEmpty ==> Exec(p, run).work == []
  {
    hide Next;
    if run != [] {
      AtomicPollIsClean(p, run[..|run| - 1]);
      SawEmptyKept(p, Exec(p, run[..|run| - 1]), run[|run| - 1]);
    }
  }

  lemma SawEmptyKept(p: Params, s: State, a: Action)
    requires s.worker == SawEmpty ==> a.Work? && s.work == []
    ensures var s' := Next(p, s, a); s'.worker == SawEmpty ==> s'.work == []
  {
    hide Next;
    if a.Work? || s.worker == SawEmpty { EmptyWhenSeen(p, s, a); } else { SenderKeepsWorker(p, s, a); }
  }

  lemma SenderKeepsWorker(p: Params, s: State, a: Action)
    requires !a.Work?
    ensures Next(p, s, a).worker == s.worker
  {
    hide WorkStep;
  }

  lemma AtomicPollDrainsExactly(p: Params, run: seq<Action>)
    requires p.Legal() && PollsAtomically(p, run) && Exec(p, run).worker == Done
    ensures Exec(p, run).written == Exec(p, run).accepted
  {
    hide Exec, CleanDiscards;
    AtomicPollIsClean(p, run);
    DrainIsExact(p, run);
  }
}
