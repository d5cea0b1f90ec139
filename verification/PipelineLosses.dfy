/**
 What a run can cost. Every block the sender confirmed is handed over, once and in
 order, in every run; an unclean discard costs formats and nothing else.
 */
module PipelineLosses {
  import opened Buffer
  import opened Pipeline
  import opened Pairing
  import opened PipelineInvariants
  import opened PipelineRefinement
  import opened PipelineTheorems

  // ----- losing formats only -----

  // `told` is `events` without some of its formats: no block is missing, nothing
  // is added and nothing moves.
  predicate LessFormats(told: seq<Event>, events: seq<Event>) {
    if events == [] then told == []
    else
      var init, last := events[..|events| - 1], events[|events| - 1];
      || (told != [] && told[|told| - 1] == last && LessFormats(told[..|told| - 1], init))
      || (last.Format? && LessFormats(told, init))
  }

  lemma {:induction false} NothingLess(events: seq<Event>)
    ensures LessFormats(events, events)
  {
    if events != [] { NothingLess(events[..|events| - 1]); }
  }

  lemma {:induction false} LessTwice(a: seq<Event>, b: seq<Event>, c: seq<Event>)
    requires LessFormats(a, b) && LessFormats(b, c)
    ensures LessFormats(a, c)
    decreases |c|
  {
    if c != [] {
      var init, last := c[..|c| - 1], c[|c| - 1];
      if b != [] && b[|b| - 1] == last && LessFormats(b[..|b| - 1], init) {
        if a != [] && a[|a| - 1] == last && LessFormats(a[..|a| - 1], b[..|b| - 1]) {
          LessTwice(a[..|a| - 1], b[..|b| - 1], init);
        } else {
          LessTwice(a, b[..|b| - 1], init);
        }
      } else {
        LessTwice(a, b, init);
      }
    }
  }

  lemma {:induction false} LessConcat(a: seq<Event>, b: seq<Event>, c: seq<Event>, d: seq<Event>)
    requires LessFormats(a, b) && LessFormats(c, d)
    ensures LessFormats(a + c, b + d)
    decreases |d|
  {
    if d == [] {
      assert a + c == a && b + d == b;
    } else {
      var init, last := d[..|d| - 1], d[|d| - 1];
      assert (b + d)[..|b + d| - 1] == b + init;
      if c != [] && c[|c| - 1] == last && LessFormats(c[..|c| - 1], init) {
        assert (a + c)[..|a + c| - 1] == a + c[..|c| - 1];
        LessConcat(a, b, c[..|c| - 1], init);
      } else {
        LessConcat(a, b, c, init);
      }
    }
  }

  // The blocks are all there, in order.
  lemma {:induction false} LessKeepsAudio(told: seq<Event>, events: seq<Event>)
    requires LessFormats(told, events)
    ensures AudioOf(told) == AudioOf(events) && |told| <= |events|
  {
    if events != [] {
      var init, last := events[..|events| - 1], events[|events| - 1];
      if told != [] && told[|told| - 1] == last && LessFormats(told[..|told| - 1], init) {
        LessKeepsAudio(told[..|told| - 1], init);
      } else {
        LessKeepsAudio(told, init);
      }
    }
  }

  // ----- what a worker step takes away -----

  // The events written and those still in reach.
  function InHand(s: State): seq<Event> {
    s.written + Remaining(s)
  }

  // Queued barriers lie within one control ring of the newest number, whether or
  // not their metadata is still there.
  predicate Near(p: Params, s: State) {
    Chain(Queue(s), s.next, p.c, 1)
  }

  // Dropping the oldest metadata takes at most formats.
  lemma {:induction false} DropLosesFormats(queue: seq<Descriptor>, metas: seq<AudioMetadata>,
                                            next: u16, slots: seq<Block>)
    requires metas != []
    ensures LessFormats(Decode(queue, metas[1..], next, slots), Decode(queue, metas, next, slots))
  {
    if queue != [] {
      DropLosesFormats(queue[1..], metas, next, slots);
      OneLess(queue[0], metas, next, slots);
      LessConcat(DecodeOne(queue[0], metas[1..], next, slots), DecodeOne(queue[0], metas, next, slots),
                 Decode(queue[1..], metas[1..], next, slots), Decode(queue[1..], metas, next, slots));
    }
  }

  lemma OneLess(d: Descriptor, metas: seq<AudioMetadata>, next: u16, slots: seq<Block>)
    requires metas != []
    ensures LessFormats(DecodeOne(d, metas[1..], next, slots), DecodeOne(d, metas, next, slots))
  {
    var one := DecodeOne(d, metas, next, slots);
    NothingLess(one);
    if one != DecodeOne(d, metas[1..], next, slots) { assert one[..0] == []; }
  }

  // The tail of the queue, once its head is out of the worker's hand.
  lemma NearTail(p: Params, s: State)
    requires Near(p, s) && s.worker.InFlight?
    ensures Chain(s.work, s.next, p.c, 1)
    ensures IsBarrier(s.worker.desc) ==>
              && 1 <= Dist(s.next, s.worker.desc.validLen) <= p.c
              && Chain(s.work, s.next, Dist(s.next, s.worker.desc.validLen) - 1, 1)
  {
    assert Queue(s)[1..] == s.work;
    if IsBarrier(s.worker.desc) {
      var back := Dist(s.next, s.worker.desc.validLen);
      ChainWeaken(s.work, s.next, back - 1, p.c, 1, 1);
    }
  }

  // A barrier whose metadata is gone tells nothing.
  lemma SkippedTellsNothing(s: State, s': State)
    requires s.worker.InFlight? && s'.worker.Releasing? && s' == s.(worker := s'.worker)
    requires DecodeOne(s.worker.desc, Metas(s.control), s.next, s.slots) == []
    ensures InHand(s') == InHand(s)
  {
    hide Decode, DecodeOne, Metas;
    DecodeHand(s);
    assert Queue(s') == s.work;
    var rest := Decode(s.work, Metas(s.control), s.next, s.slots);
    assert [] + rest == rest;
  }

  // How far the head of the control ring lies behind the barrier in hand, in 16 bits.
  lemma HeadBehind(p: Params, s: State, back: nat)
    requires p.Legal() && RingsOrdered(p, s) && s.worker.InFlight? && IsBarrier(s.worker.desc)
    requires s.control != [] && s.control[0].Metadata?
    requires back == Dist(s.next, s.worker.desc.validLen) && 1 <= back <= p.c
    ensures var m, diff := |Metas(s.control)|, Sub16(s.worker.desc.validLen, s.control[0].seqNo);
            && m > 0 && Metas(s.control)[0] == s.control[0].meta && Metas(s.control)[1..] == Metas(s.control[1..])
            && (back == m ==> diff == 0) && (back < m ==> 0 < diff < 0x8000) && (back > m ==> diff >= 0x8000)
  {
    MetasLength(s.control);
  }

  lemma InHandInPair(p: Params, s: State, io: bool)
    requires p.Legal() && RingsOrdered(p, s) && Near(p, s) && s.worker.InFlight? && IsBarrier(s.worker.desc)
    ensures var s' := PairStep(s, s.worker.desc, s.worker.draining, io); InHand(s') == InHand(s) && Near(p, s')
  {
    hide RingsOrdered, Chain, Decode, InHand;
    var d, s' := s.worker.desc, PairStep(s, s.worker.desc, s.worker.draining, io);
    NearTail(p, s);
    var back := Dist(s.next, d.validLen);
    if s.control == [] || s.control[0].StreamStop? {
      StopIsLast(p, s);
      SkippedTellsNothing(s, s');
      assert Queue(s') == s.work;
    } else {
      HeadBehind(p, s, back);
      if back == |Metas(s.control)| { InHandInMatch(p, s, io); }
      else if back < |Metas(s.control)| { InHandInOlder(p, s, io); }
      else {
        hide Metas;
        SkippedTellsNothing(s, s');
        assert Queue(s') == s.work;
      }
    }
  }

  lemma StopIsLast(p: Params, s: State)
    requires RingsOrdered(p, s) && (s.control == [] || s.control[0].StreamStop?)
    ensures Metas(s.control) == []
  {
  }

  // The barrier finds its own metadata: one event moves from the queue to the worker.
  lemma InHandInMatch(p: Params, s: State, io: bool)
    requires p.Legal() && RingsOrdered(p, s) && Near(p, s) && s.worker.InFlight? && IsBarrier(s.worker.desc)
    requires s.control != [] && s.control[0].Metadata?
    requires Dist(s.next, s.worker.desc.validLen) == |Metas(s.control)|
    ensures var s' := PairStep(s, s.worker.desc, s.worker.draining, io); InHand(s') == InHand(s) && Near(p, s')
  {
    var metas := Metas(s.control);
    NearTail(p, s);
    HeadBehind(p, s, |metas|);
    DecodeHand(s);
    hide RingsOrdered, Chain, Decode, Metas;
    DecodeDrop(s.work, metas, s.next, s.slots, |metas| - 1, 1);
    var s' := PairStep(s, s.worker.desc, s.worker.draining, io);
    RemainingHead(s, s', Format(s.control[0].meta));
  }

  // A superseded metadata is named by no barrier still queued.
  lemma InHandInOlder(p: Params, s: State, io: bool)
    requires p.Legal() && RingsOrdered(p, s) && Near(p, s) && s.worker.InFlight? && IsBarrier(s.worker.desc)
    requires s.control != [] && s.control[0].Metadata?
    requires Dist(s.next, s.worker.desc.validLen) < |Metas(s.control)|
    ensures var s' := PairStep(s, s.worker.desc, s.worker.draining, io); InHand(s') == InHand(s) && Near(p, s')
  {
    var metas, back := Metas(s.control), Dist(s.next, s.worker.desc.validLen);
    NearTail(p, s);
    HeadBehind(p, s, back);
    assert Chain(Queue(s), s.next, back, 1) by { assert Queue(s)[1..] == s.work; }
    hide RingsOrdered, Chain, Decode, Metas;
    DecodeDrop(Queue(s), metas, s.next, s.slots, back, 1);
    assert Queue(PairStep(s, s.worker.desc, s.worker.draining, io)) == Queue(s);
  }

  lemma InHandInBlock(p: Params, s: State, io: bool)
    requires Owning(p, s) && Near(p, s) && s.worker.InFlight? && !IsBarrier(s.worker.desc)
    ensures var s' := BlockStep(s, s.worker.desc, s.worker.draining, io); InHand(s') == InHand(s) && Near(p, s')
  {
    var d := s.worker.desc;
    HeldIsIndex(p, s, d.slot);
    NearTail(p, s);
    DecodeHand(s);
    hide Owning, Chain, Decode, Metas;
    RemainingHead(s, BlockStep(s, d, s.worker.draining, io), Audio(s.slots[d.slot]));
  }

  lemma InHandInEmpty(p: Params, s: State, io: bool)
    requires RingsOrdered(p, s) && Near(p, s) && s.worker == SawEmpty
    ensures var s' := EmptyStep(s, io); LessFormats(InHand(s'), InHand(s)) && Near(p, s')
  {
    hide InHand, LessFormats, Chain, RingsOrdered, Metas;
    var s' := EmptyStep(s, io);
    assert Queue(s') == Queue(s) == s.work;
    if Discards(s, Work(io)) {
      HeadDropped(p, s);
      DiscardLosesFormats(s, s');
    } else {
      NothingLess(InHand(s));
      QuietMetas(s, io);
      InHandInQuiet(s, s');
    }
  }

  lemma QuietMetas(s: State, io: bool)
    requires s.worker == SawEmpty && !Discards(s, Work(io))
    ensures Metas(EmptyStep(s, io).control) == Metas(s.control)
  {
  }

  lemma InHandInQuiet(s: State, s': State)
    requires s.worker == SawEmpty && s'.worker in {Polling, Draining, Done, Failed([], false)}
    requires s' == s.(control := s'.control, worker := s'.worker) && Metas(s'.control) == Metas(s.control)
    ensures InHand(s') == InHand(s)
  {
    hide Decode, Metas;
    assert Queue(s') == Queue(s) == s.work;
  }

  lemma DiscardLosesFormats(s: State, s': State)
    requires s.worker == SawEmpty && s'.worker == Polling && Metas(s.control) != []
    requires s' == s.(control := s'.control, worker := Polling) && Metas(s'.control) == Metas(s.control)[1..]
    ensures LessFormats(InHand(s'), InHand(s))
  {
    hide Decode, Metas, LessFormats;
    NothingLess(s.written);
    DropLosesFormats(s.work, Metas(s.control), s.next, s.slots);
    LessConcat(s.written, s.written, Decode(s.work, Metas(s'.control), s.next, s.slots),
               Decode(s.work, Metas(s.control), s.next, s.slots));
    assert Queue(s') == Queue(s) == s.work;
  }

  // A worker step leaves every block in reach.
  lemma InHandInWork(p: Params, s: State, io: bool)
    requires p.Legal() && Sound(p, s) && Near(p, s)
    ensures var s' := WorkStep(p, s, io); LessFormats(InHand(s'), InHand(s)) && Near(p, s')
  {
    hide Owning, RingsOrdered, Bookkeeping, PairStep, BlockStep, EmptyStep, PopStep, InHand, Near, LessFormats;
    NothingLess(InHand(s));
    match s.worker
    case InFlight(d, _) => if IsBarrier(d) { InHandInPair(p, s, io); } else { InHandInBlock(p, s, io); }
    case SawEmpty => InHandInEmpty(p, s, io);
    case Polling => if s.work != [] { InHandInPop(p, s, false); } else { InHandInRest(p, s, io); }
    case Draining => if s.work != [] { InHandInPop(p, s, true); } else { InHandInRest(p, s, io); }
    case Releasing(_, _) => InHandInRest(p, s, io);
    case _ =>
  }

  lemma InHandInPop(p: Params, s: State, draining: bool)
    requires Near(p, s) && s.work != [] && (s.worker == Polling || s.worker == Draining)
    ensures InHand(PopStep(s, draining)) == InHand(s) && Near(p, PopStep(s, draining))
  {
    hide Decode, Metas, Chain;
    QueuePop(s, draining);
  }

  lemma InHandInRest(p: Params, s: State, io: bool)
    requires Near(p, s)
    requires s.worker.Releasing? || ((s.worker == Polling || s.worker == Draining) && s.work == [])
    ensures InHand(WorkStep(p, s, io)) == InHand(s) && Near(p, WorkStep(p, s, io))
  {
    EmptyDecode(s);
    hide Decode, Metas, Chain;
    assert Queue(WorkStep(p, s, io)) == Queue(s);
  }

  // ----- every run -----

  // Every confirmed event is written or in reach, except for formats.
  predicate Thinned(p: Params, s: State) {
    s.phase == Dropped && Near(p, s) && LessFormats(InHand(s), s.accepted)
  }

  lemma ThinnedKept(p: Params, s: State, a: Action)
    requires p.Legal() && Sound(p, s) && Thinned(p, s)
    ensures Thinned(p, Next(p, s, a))
  {
    if a.Work? {
      hide Sound, InHand, Near, LessFormats, WorkStep;
      WorkKeeps(p, s, a.io);
      InHandInWork(p, s, a.io);
      LessTwice(InHand(Next(p, s, a)), InHand(s), s.accepted);
    } else {
      hide Owning, Bookkeeping, InHand, Near, LessFormats;
      assert Next(p, s, a) == s;
    }
  }

  // A faithful state whose sender is gone has lost nothing yet.
  lemma FaithfulIsThinned(p: Params, s: State)
    requires p.Legal() && Sound(p, s) && Faithful(s)
    ensures LessFormats(InHand(s), s.accepted)
    ensures s.phase == Dropped ==> Thinned(p, s)
  {
    NothingLess(s.accepted);
    MetasLength(s.control);
    hide Metas, Chain, LessFormats, Owning, Bookkeeping, Consecutive, Remaining, Queue;
    if s.phase == Dropped { ChainWeaken(Queue(s), s.next, |Metas(s.control)|, p.c, 1, 1); }
  }

  lemma {:induction false} RunThins(p: Params, run: seq<Action>)
    requires p.Legal()
    ensures (CleanDiscards(p, run) && Faithful(Exec(p, run))) || Thinned(p, Exec(p, run))
  {
    hide Sound, Faithful, Thinned, Next, Discards, HeadUnclaimed;
    RunKeeps(p, run);
    if !CleanDiscards(p, run) {
      var s, a := Exec(p, run[..|run| - 1]), run[|run| - 1];
      RunKeeps(p, run[..|run| - 1]);
      RunThins(p, run[..|run| - 1]);
      if CleanDiscards(p, run[..|run| - 1]) {
        assert s.phase == Dropped by { DiscardIsDropped(s, a); }
        FaithfulIsThinned(p, s);
      }
      ThinnedKept(p, s, a);
    }
  }

  lemma DiscardIsDropped(s: State, a: Action)
    requires Discards(s, a)
    ensures s.phase == Dropped
  {
  }

  // In every run, clean or not, what is written and what is in reach is what was
  // confirmed but for some formats.
  lemma OnlyFormatsAreLost(p: Params, run: seq<Action>)
    requires p.Legal()
    ensures var s := Exec(p, run); LessFormats(s.written + Remaining(s), s.accepted)
  {
    hide Sound, Faithful, Thinned, Exec, CleanDiscards;
    RunKeeps(p, run);
    RunThins(p, run);
    if CleanDiscards(p, run) { FaithfulIsThinned(p, Exec(p, run)); }
    hide *;
    InThinned(p, Exec(p, run));
  }

  lemma InThinned(p: Params, s: State)
    ensures Thinned(p, s) ==> LessFormats(s.written + Remaining(s), s.accepted)
    ensures LessFormats(InHand(s), s.accepted) ==> LessFormats(s.written + Remaining(s), s.accepted)
  {
    hide LessFormats;
  }

  // ----- the blocks -----

  // The blocks the queued descriptors name, read from their slots.
  function BlocksOf(queue: seq<Descriptor>, slots: seq<Block>): seq<Block> {
    if queue == [] then []
    else if IsBarrier(queue[0]) || queue[0].slot >= |slots| then BlocksOf(queue[1..], slots)
    else [slots[queue[0].slot]] + BlocksOf(queue[1..], slots)
  }

  lemma {:induction false} DecodedBlocks(queue: seq<Descriptor>, metas: seq<AudioMetadata>,
                                         next: u16, slots: seq<Block>)
    ensures AudioOf(Decode(queue, metas, next, slots)) == BlocksOf(queue, slots)
  {
    hide AudioOf, DecodeOne;
    if queue == [] {
      AudioOfNothing();
    } else {
      DecodedBlocks(queue[1..], metas, next, slots);
      OneDecoded(queue[0], metas, next, slots);
      AudioOfConcat(DecodeOne(queue[0], metas, next, slots), Decode(queue[1..], metas, next, slots));
    }
  }

  lemma OneDecoded(d: Descriptor, metas: seq<AudioMetadata>, next: u16, slots: seq<Block>)
    ensures AudioOf(DecodeOne(d, metas, next, slots))
         == if IsBarrier(d) || d.slot >= |slots| then [] else [slots[d.slot]]
  {
    var one := DecodeOne(d, metas, next, slots);
    if one != [] { assert one[..0] == []; }
  }

  // The blocks a worker that failed had taken but not written.
  function Unwritten(s: State): seq<Event> {
    if s.worker.Failed? then s.worker.unwritten else []
  }

  // Conservation: in every reachable state the blocks written, the one a failure
  // left unwritten and the queued ones as their slots hold them now are, in this
  // order, the blocks the sender confirmed.
  lemma BlocksAreConserved(p: Params, run: seq<Action>)
    requires p.Legal()
    ensures var s := Exec(p, run);
            AudioOf(s.written) + AudioOf(Unwritten(s)) + BlocksOf(Queue(s), s.slots) == AudioOf(s.accepted)
  {
    hide Exec, LessFormats, AudioOf, Decode, Metas, Queue;
    var s := Exec(p, run);
    OnlyFormatsAreLost(p, run);
    LessKeepsAudio(s.written + Remaining(s), s.accepted);
    var queued := Decode(Queue(s), Metas(s.control), s.next, s.slots);
    DecodedBlocks(Queue(s), Metas(s.control), s.next, s.slots);
    AudioOfConcat(s.written, Remaining(s));
    assert Remaining(s) == Unwritten(s) + queued;
    AudioOfConcat(Unwritten(s), queued);
    Assoc(AudioOf(s.written), AudioOf(Unwritten(s)), AudioOf(queued));
  }

  // ----- where the formats come from -----

  // Every format in the sender's hand, pending or confirmed was announced.
  predicate Announced(s: State, run: seq<Action>) {
    && (s.sender.BarrierDue? ==> Announce(s.sender.meta) in run)
    && (s.pending.Some? ==> Announce(s.pending.value.1) in run)
    && forall e <- s.accepted :: e.Format? ==> Announce(e.meta) in run
  }

  lemma AnnouncedInBarrier(p: Params, s: State, seqNo: u16, meta: AudioMetadata, run: seq<Action>)
    requires Announced(s, run) && Announce(meta) in run
    ensures Announced(BarrierStep(p, s, seqNo, meta), run)
  {
  }

  lemma AnnouncedMore(s: State, run: seq<Action>, a: Action)
    requires Announced(s, run)
    ensures Announced(s, run + [a]) && a in run + [a]
  {
    forall x | x in run ensures x in run + [a] {}
  }

  lemma AnnouncedKept(p: Params, s: State, run: seq<Action>, a: Action)
    requires Announced(s, run)
    ensures Announced(Next(p, s, a), run + [a])
  {
    AnnouncedMore(s, run, a);
    if a.Work? {
      hide WorkStep, Announced;
      WorkKeeps(p, s, a.io);
      AnnouncedByWork(p, s, run + [a], a.io);
    } else {
      hide BarrierStep, WorkStep;
      if a.PushBarrier? && s.sender.BarrierDue? {
        AnnouncedInBarrier(p, s, s.sender.seqNo, s.sender.meta, run + [a]);
      } else if a.Announce? && s.pending.Some? {
        AnnouncedInBarrier(p, s, s.pending.value.0, s.pending.value.1, run + [a]);
      }
    }
  }

  lemma AnnouncedByWork(p: Params, s: State, run: seq<Action>, io: bool)
    requires Announced(s, run) && Keeps(s, WorkStep(p, s, io))
    ensures Announced(WorkStep(p, s, io), run)
  {
    PendingStays(p, s, io);
    hide WorkStep;
  }

  lemma PendingStays(p: Params, s: State, io: bool)
    ensures WorkStep(p, s, io).pending == s.pending
  {
    hide Sub16;
  }

  lemma {:induction false} ConfirmedWasAnnounced(p: Params, run: seq<Action>)
    requires p.Legal()
    ensures Announced(Exec(p, run), run)
  {
    hide Next, Announced;
    if run == [] {
      NothingAnnounced(p);
    } else {
      var before, a := run[..|run| - 1], run[|run| - 1];
      ConfirmedWasAnnounced(p, before);
      AnnouncedKept(p, Exec(p, before), before, a);
      assert run == before + [a];
    }
  }

  lemma NothingAnnounced(p: Params)
    requires p.Legal()
    ensures Announced(Initial(p), [])
  {
  }

  lemma {:induction false} LessIsWithin(told: seq<Event>, events: seq<Event>, e: Event)
    requires LessFormats(told, events) && e in told
    ensures e in events
  {
    if events != [] {
      var init, last := events[..|events| - 1], events[|events| - 1];
      if told != [] && told[|told| - 1] == last && LessFormats(told[..|told| - 1], init) {
        if e != last { LessIsWithin(told[..|told| - 1], init, e); }
      } else {
        LessIsWithin(told, init, e);
      }
    }
  }

  // A format the worker failed on is one the sender announced.
  lemma FailedFormatWasAnnounced(p: Params, run: seq<Action>, meta: AudioMetadata)
    requires p.Legal() && Format(meta) in Unwritten(Exec(p, run))
    ensures Announce(meta) in run
  {
    hide Exec, LessFormats, Decode, Metas, Queue;
    var s := Exec(p, run);
    OnlyFormatsAreLost(p, run);
    assert Format(meta) in s.written + Remaining(s);
    LessIsWithin(s.written + Remaining(s), s.accepted, Format(meta));
    ConfirmedWasAnnounced(p, run);
  }
}
