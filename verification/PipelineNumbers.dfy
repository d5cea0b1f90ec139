/**
 The sequence numbers of a whole run, counted without the 16-bit wrap: which were
 issued, which were published as barriers, and what becomes of the others.
 */
module PipelineNumbers {
  import opened Buffer
  import opened Pipeline
  import opened Pairing
  import opened PipelineInvariants
  import opened PipelineRefinement
  import opened PipelineTheorems
  import opened PipelineLimits

  // ----- the history -----

  // How many metadata the run queued: the last one has this number.
  function Issued(p: Params, run: seq<Action>): nat
    requires p.Legal()
  {
    if run == [] then 0
    else
      var s := Exec(p, run[..|run| - 1]);
      Issued(p, run[..|run| - 1]) + IssuedBy(s, Exec(p, run))
  }

  function IssuedBy(s: State, s': State): nat {
    if s'.next != s.next then 1 else 0
  }

  // The numbers of the barriers the run queued, in that order, read off the
  // descriptors as they were pushed.
  function Published(p: Params, run: seq<Action>): seq<int>
    requires p.Legal()
  {
    if run == [] then []
    else
      var before := run[..|run| - 1];
      Published(p, before) + PublishedBy(Exec(p, before), Exec(p, run), Issued(p, before))
  }

  function PublishedBy(s: State, s': State, issued: nat): seq<int> {
    if |s'.work| > |s.work| && IsBarrier(s'.work[|s'.work| - 1])
    then [Unwrapped(s.next, issued, s'.work[|s'.work| - 1].validLen)] else []
  }

  // The number whose low 16 bits are `seqNo`, counting back from the newest one.
  function Unwrapped(next: u16, issued: nat, seqNo: u16): int {
    issued + 1 - Dist(next, seqNo)
  }

  // The numbers of the barriers in `queue`.
  function Numbers(queue: seq<Descriptor>, next: u16, issued: nat): seq<int> {
    if queue == [] then []
    else (if IsBarrier(queue[0]) then [Unwrapped(next, issued, queue[0].validLen)] else [])
         + Numbers(queue[1..], next, issued)
  }

  predicate Rising(numbers: seq<int>) {
    forall i, j :: 0 <= i < j < |numbers| ==> numbers[i] < numbers[j]
  }

  predicate Within(numbers: seq<int>, lo: int, hi: int) {
    forall k <- numbers :: lo <= k <= hi
  }

  // ----- barriers are published in the order their formats were issued -----

  predicate Counted(s: State, issued: nat, published: seq<int>) {
    && s.next == (issued + 1) % U16_SIZE && Rising(published)
    && (s.phase == Live && NewestUnclaimed(s) ==> issued >= 1)
    && Within(published, 1, if s.phase == Live && NewestUnclaimed(s) then issued - 1 else issued)
  }

  // What a step does to the history: nothing, or the next number is issued, or the
  // newest one is published.
  predicate Advances(s: State, s': State, issued: nat) {
    var more := PublishedBy(s, s', issued);
    var unclaimed, unclaimed' := s.phase == Live && NewestUnclaimed(s), s'.phase == Live && NewestUnclaimed(s');
    && s'.next == (issued + IssuedBy(s, s') + 1) % U16_SIZE
    && (more == [] || (more == [issued] && unclaimed && !unclaimed' && IssuedBy(s, s') == 0))
    && (more == [] && IssuedBy(s, s') == 0 && unclaimed' ==> unclaimed)
  }

  lemma NextNumber(issued: nat)
    ensures Succ16((issued + 1) % U16_SIZE) == (issued + 2) % U16_SIZE != (issued + 1) % U16_SIZE
  {
  }

  lemma BarrierAdvances(p: Params, s: State, seqNo: u16, meta: AudioMetadata, issued: nat)
    requires s.next == (issued + 1) % U16_SIZE && s.phase == Live && NewestUnclaimed(s) && Dist(s.next, seqNo) == 1
    ensures Advances(s, BarrierStep(p, s, seqNo, meta), issued)
  {
    hide Dist;
  }

  lemma AnnounceAdvances(p: Params, s: State, meta: AudioMetadata, issued: nat)
    requires s.next == (issued + 1) % U16_SIZE && (s.phase == Live ==> Faithful(s))
    ensures Advances(s, AnnounceStep(p, s, meta), issued)
  {
    hide Dist, BarrierStep, Faithful, Succ16;
    NextNumber(issued);
    if s.phase == Live && s.sender == Idle && s.pending.Some? {
      PendingIsOneBack(s);
      if s.pending.value.1 == meta { BarrierAdvances(p, s, s.pending.value.0, meta, issued); }
    }
  }

  lemma SendAdvances(p: Params, s: State, a: Action, issued: nat)
    requires !a.Work? && s.next == (issued + 1) % U16_SIZE && |s.slots| <= CONTROL_BARRIER_SLOT
    requires (s.phase == Live ==> Faithful(s)) && (s.phase != Live ==> s.sender == Idle)
    ensures Advances(s, Next(p, s, a), issued)
  {
    hide Faithful, Dist, BarrierStep, AnnounceStep;
    match a
    case Announce(meta) => AnnounceAdvances(p, s, meta, issued);
    case PushBarrier =>
      if s.sender.BarrierDue? {
        PendingIsOneBack(s);
        BarrierAdvances(p, s, s.sender.seqNo, s.sender.meta, issued);
      }
    case _ =>
  }

  lemma PendingIsOneBack(s: State)
    requires Faithful(s) && s.phase == Live
    ensures s.sender.BarrierDue? ==> Dist(s.next, s.sender.seqNo) == 1
    ensures !s.sender.BarrierDue? && s.pending.Some? ==> Dist(s.next, s.pending.value.0) == 1
  {
    hide Chain, Decode, Metas;
  }

  // A worker step takes from the rings and numbers nothing.
  predicate Takes(s: State, s': State) {
    && s'.next == s.next && s'.pending == s.pending && |s'.work| <= |s.work|
  }

  lemma ApplyTakes(s: State, d: Descriptor, draining: bool, io: bool)
    ensures Takes(s, PairStep(s, d, draining, io)) && Takes(s, BlockStep(s, d, draining, io))
  {
  }

  lemma PollTakes(p: Params, s: State, d: Descriptor, draining: bool, io: bool)
    ensures Takes(s, ReleaseStep(p, s, d, draining)) && Takes(s, EmptyStep(s, io))
    ensures s.work != [] ==> Takes(s, PopStep(s, draining))
  {
  }

  lemma WorkTakes(p: Params, s: State, io: bool)
    ensures Takes(s, WorkStep(p, s, io))
  {
    hide PairStep, BlockStep, ReleaseStep, EmptyStep, PopStep;
    match s.worker
    case InFlight(d, draining) => ApplyTakes(s, d, draining, io);
    case Releasing(d, draining) => PollTakes(p, s, d, draining, io);
    case _ =>
      PollTakes(p, s, Barrier(0), false, io);
      PollTakes(p, s, Barrier(0), true, io);
  }

  lemma StepAdvances(p: Params, s: State, a: Action, issued: nat)
    requires s.next == (issued + 1) % U16_SIZE && |s.slots| <= CONTROL_BARRIER_SLOT
    requires (s.phase == Live ==> Faithful(s)) && (s.phase != Live ==> s.sender == Idle)
    ensures Advances(s, Next(p, s, a), issued)
  {
    hide Faithful, WorkStep;
    if a.Work? {
      WorkTakes(p, s, a.io);
      WorkKeeps(p, s, a.io);
    } else {
      SendAdvances(p, s, a, issued);
    }
  }

  lemma RisingSnoc(published: seq<int>, issued: nat)
    requires Rising(published) && Within(published, 1, issued - 1) && issued >= 1
    ensures Rising(published + [issued]) && Within(published + [issued], 1, issued)
  {
    var more := published + [issued];
    forall i, j | 0 <= i < j < |more| ensures more[i] < more[j] {
      assert more[i] == published[i] && more[i] in published;
    }
  }

  lemma CountedKept(s: State, s': State, issued: nat, published: seq<int>)
    requires Counted(s, issued, published) && Advances(s, s', issued)
    ensures Counted(s', issued + IssuedBy(s, s'), published + PublishedBy(s, s', issued))
  {
    hide PublishedBy, IssuedBy, NewestUnclaimed, Rising;
    if PublishedBy(s, s', issued) == [] {
      assert published + [] == published;
    } else {
      RisingSnoc(published, issued);
    }
  }

  // In every run, over any number of wraps: the wire carries the low 16 bits of the
  // numbers, and barriers are published in strictly increasing order, each number
  // at most once and never before it was issued.
  lemma {:induction false} PublishedInOrder(p: Params, run: seq<Action>)
    requires p.Legal()
    ensures Counted(Exec(p, run), Issued(p, run), Published(p, run))
  {
    hide Next, Counted, Advances, Faithful, Places, TotalPlaces, Bookkeeping, CleanDiscards;
    if run == [] {
      NothingCounted(p);
    } else {
      var before := run[..|run| - 1];
      PublishedInOrder(p, before);
      RunKeeps(p, before);
      IsNumbered(Exec(p, before), Issued(p, before), Published(p, before));
      StepAdvances(p, Exec(p, before), run[|run| - 1], Issued(p, before));
      CountedKept(Exec(p, before), Exec(p, run), Issued(p, before), Published(p, before));
    }
  }

  lemma NothingCounted(p: Params)
    requires p.Legal()
    ensures Counted(Initial(p), 0, [])
  {
  }

  lemma IsNumbered(s: State, issued: nat, published: seq<int>)
    requires Counted(s, issued, published)
    ensures s.next == (issued + 1) % U16_SIZE && Rising(published) && Within(published, 1, issued)
  {
  }

  // ----- which numbers the worker has seen -----

  // The numbers of the barriers the worker has handled, in that order.
  function Handled(p: Params, run: seq<Action>): seq<int>
    requires p.Legal()
  {
    if run == [] then []
    else
      var before := run[..|run| - 1];
      Handled(p, before) + HandledBy(Exec(p, before), Exec(p, run), Issued(p, before))
  }

  function HandledBy(s: State, s': State, issued: nat): seq<int> {
    if s.worker.InFlight? && IsBarrier(s.worker.desc) && !s'.worker.InFlight?
    then [Unwrapped(s.next, issued, s.worker.desc.validLen)] else []
  }

  // What was published is what was handled and then what is queued; and everything
  // handled is older than any metadata still in the control ring.
  predicate Recorded(s: State, issued: nat, published: seq<int>, handled: seq<int>) {
    && published == handled + Numbers(Queue(s), s.next, issued)
    && |Metas(s.control)| <= issued && forall k <- handled :: k <= issued - |Metas(s.control)|
  }

  lemma {:induction false} NumbersAppend(queue: seq<Descriptor>, d: Descriptor, next: u16, issued: nat)
    ensures Numbers(queue + [d], next, issued)
         == Numbers(queue, next, issued) + (if IsBarrier(d) then [Unwrapped(next, issued, d.validLen)] else [])
  {
    hide Unwrapped;
    if queue == [] {
      assert queue + [d] == [d] && Numbers([d][1..], next, issued) == [];
    } else {
      var one := if IsBarrier(queue[0]) then [Unwrapped(next, issued, queue[0].validLen)] else [];
      var last := if IsBarrier(d) then [Unwrapped(next, issued, d.validLen)] else [];
      assert (queue + [d])[1..] == queue[1..] + [d];
      NumbersAppend(queue[1..], d, next, issued);
      Assoc(one, Numbers(queue[1..], next, issued), last);
    }
  }

  // Issuing one more number leaves those of the queued barriers as they are.
  lemma {:induction false} NumbersShift(queue: seq<Descriptor>, next: u16, hi: nat, lo: nat, issued: nat)
    requires Chain(queue, next, hi, lo) && hi + 1 < U16_SIZE
    ensures Numbers(queue, Succ16(next), issued + 1) == Numbers(queue, next, issued)
  {
    if queue != [] {
      var hi' := if IsBarrier(queue[0]) then Dist(next, queue[0].validLen) - 1 else hi;
      NumbersShift(queue[1..], next, hi', lo, issued);
      hide Chain;
      if IsBarrier(queue[0]) {
        assert Dist(Succ16(next), queue[0].validLen) == Dist(next, queue[0].validLen) + 1;
      }
    }
  }

  // The queued numbers rise from the oldest to the newest.
  lemma {:induction false} NumbersRange(queue: seq<Descriptor>, next: u16, hi: nat, lo: nat, issued: nat)
    requires Chain(queue, next, hi, lo)
    ensures forall k <- Numbers(queue, next, issued) :: k >= issued + 1 - hi
  {
    if queue != [] {
      var hi' := if IsBarrier(queue[0]) then Dist(next, queue[0].validLen) - 1 else hi;
      NumbersRange(queue[1..], next, hi', lo, issued);
    }
  }

  // ----- the record is kept by the sender -----

  predicate SameQueue(s: State, s': State) {
    s'.work == s.work && s'.next == s.next && |Metas(s'.control)| == |Metas(s.control)|
  }

  lemma RecordedPush(s: State, s': State, d: Descriptor, issued: nat, published: seq<int>, handled: seq<int>)
    requires Recorded(s, issued, published, handled) && s'.worker == s.worker
    requires s'.work == s.work + [d] && s'.next == s.next && s'.control == s.control
    ensures Recorded(s', issued, published + PublishedBy(s, s', issued), handled)
  {
    hide Numbers, Metas, Dist;
    assert Queue(s') == Queue(s) + [d];
    NumbersAppend(Queue(s), d, s.next, issued);
    Assoc(handled, Numbers(Queue(s), s.next, issued), PublishedBy(s, s', issued));
    assert published + [] == published;
  }

  lemma RecordedIssue(p: Params, s: State, meta: AudioMetadata, issued: nat, published: seq<int>, handled: seq<int>)
    requires p.Legal() && RingsOrdered(p, s) && Faithful(s) && Recorded(s, issued, published, handled)
    ensures var s' := s.(control := s.control + [Metadata(s.next, meta)], next := Succ16(s.next),
                         confirmed := false, sender := BarrierDue(s.next, meta));
            Recorded(s', issued + 1, published, handled)
  {
    MetasAppend(s.control, Metadata(s.next, meta));
    MetasLength(s.control);
    NumbersShift(Queue(s), s.next, |Metas(s.control)|, Nearest(s), issued);
    hide Numbers, Metas, Chain, Consecutive, Remaining;
    var s' := s.(control := s.control + [Metadata(s.next, meta)], next := Succ16(s.next),
                 confirmed := false, sender := BarrierDue(s.next, meta));
    assert Queue(s') == Queue(s);
  }

  lemma RecordedSame(s: State, s': State, issued: nat, published: seq<int>, handled: seq<int>)
    requires Recorded(s, issued, published, handled) && SameQueue(s, s') && s'.worker == s.worker
    ensures Recorded(s', issued + IssuedBy(s, s'), published + PublishedBy(s, s', issued), handled)
  {
    hide Numbers, Metas;
    assert published + [] == published && Queue(s') == Queue(s);
  }

  lemma RecordedBarrier(p: Params, s: State, seqNo: u16, meta: AudioMetadata,
                        issued: nat, published: seq<int>, handled: seq<int>)
    requires Recorded(s, issued, published, handled)
    ensures var s' := BarrierStep(p, s, seqNo, meta);
            Recorded(s', issued + IssuedBy(s, s'), published + PublishedBy(s, s', issued), handled)
  {
    hide Recorded, Metas, PublishedBy;
    var s' := BarrierStep(p, s, seqNo, meta);
    if |s.work| < p.w { RecordedPush(s, s', Barrier(seqNo), issued, published, handled); }
    else { RecordedSame(s, s', issued, published, handled); }
  }

  lemma RecordedSend(p: Params, s: State, a: Action, issued: nat, published: seq<int>, handled: seq<int>)
    requires p.Legal() && Sound(p, s) && Faithful(s) && Recorded(s, issued, published, handled) && !a.Work?
    ensures var s' := Next(p, s, a);
            Recorded(s', issued + IssuedBy(s, s'), published + PublishedBy(s, s', issued), handled)
  {
    hide Recorded, Metas, PublishedBy, Owning, Consecutive, Bookkeeping, Faithful, BarrierStep, Succ16;
    var s' := Next(p, s, a);
    if a.Announce? && s.phase == Live && s.sender == Idle && s.pending.Some? && s.pending.value.1 == a.meta {
      RecordedBarrier(p, s, s.pending.value.0, a.meta, issued, published, handled);
    } else if a.Announce? && s.phase == Live && s.sender == Idle && |s.control| < p.c {
      RecordedIssue(p, s, a.meta, issued, published, handled);
      IssueIsCounted(s, s', issued, published);
    } else if a.PushBarrier? && s.sender.BarrierDue? {
      RecordedBarrier(p, s, s.sender.seqNo, s.sender.meta, issued, published, handled);
    } else if a.Publish? && s.sender.Filled? && s.sender.idx < |s.slots| && |s.work| < p.w {
      RecordedPush(s, s', Descriptor(s.sender.idx, |s.slots[s.sender.idx]|), issued, published, handled);
      assert IssuedBy(s, s') == 0;
    } else {
      MetasAppend(s.control, StreamStop);
      RecordedSame(s, s', issued, published, handled);
    }
  }

  lemma IssueIsCounted(s: State, s': State, issued: nat, published: seq<int>)
    requires s'.next == Succ16(s.next) && s'.work == s.work
    ensures issued + IssuedBy(s, s') == issued + 1 && published + PublishedBy(s, s', issued) == published
  {
  }

  // ----- the record is kept by the worker -----

  // A barrier leaves the worker's hand only behind its own metadata.
  lemma BarrierHandled(p: Params, s: State, io: bool)
    requires p.Legal() && Sound(p, s) && Faithful(s) && s.worker.InFlight? && IsBarrier(s.worker.desc)
    ensures var s' := PairStep(s, s.worker.desc, s.worker.draining, io);
            && s'.next == s.next && s'.work == s.work && |Metas(s'.control)| <= |Metas(s.control)|
            && (s'.worker == s.worker || !s'.worker.InFlight?)
            && (!s'.worker.InFlight? ==> Dist(s.next, s.worker.desc.validLen) == |Metas(s'.control)| + 1)
  {
    BarrierFindsMetadata(p, s);
    hide Sound, Faithful, Sub16, Dist;
    assert Metas(s.control)[1..] == Metas(s.control[1..]);
  }

  lemma RecordedHandled(s: State, s': State, issued: nat, published: seq<int>, handled: seq<int>)
    requires Recorded(s, issued, published, handled) && s.worker.InFlight? && !s'.worker.InFlight?
    requires s'.next == s.next && s'.work == s.work && |Metas(s'.control)| <= |Metas(s.control)|
    requires IsBarrier(s.worker.desc) ==> Dist(s.next, s.worker.desc.validLen) == |Metas(s'.control)| + 1
    ensures Recorded(s', issued, published, handled + HandledBy(s, s', issued))
  {
    assert Queue(s)[1..] == s.work && Queue(s') == s.work;
    hide Metas, Dist, Queue;
    Assoc(handled, HandledBy(s, s', issued), Numbers(s.work, s.next, issued));
  }

  lemma RecordedQuiet(s: State, s': State, issued: nat, published: seq<int>, handled: seq<int>)
    requires Recorded(s, issued, published, handled) && Queue(s') == Queue(s) && s'.next == s.next
    requires |Metas(s'.control)| <= |Metas(s.control)| && (s'.worker == s.worker || !s.worker.InFlight?)
    ensures Recorded(s', issued, published, handled + HandledBy(s, s', issued))
  {
    hide Metas, Dist, Numbers, Queue;
    assert handled + [] == handled;
  }

  // Every other step of the worker.
  lemma QuietSteps(p: Params, s: State, io: bool)
    requires s.worker.InFlight? ==> !IsBarrier(s.worker.desc) && s.worker.desc.slot >= |s.slots|
    ensures var s' := WorkStep(p, s, io);
            && Queue(s') == Queue(s) && s'.next == s.next && |Metas(s'.control)| <= |Metas(s.control)|
            && (s'.worker == s.worker || !s.worker.InFlight?)
  {
    MetasTail(s.control);
    hide Metas, PairStep, PopStep;
    if (s.worker == Polling || s.worker == Draining) && s.work != [] {
      PopMovesOne(s, s.worker == Draining);
    } else {
      hide EmptyStep, ReleaseStep;
      QuietPoll(p, s, io);
    }
  }

  lemma PopMovesOne(s: State, draining: bool)
    requires s.work != [] && !s.worker.InFlight?
    ensures var s' := PopStep(s, draining); Queue(s') == Queue(s) && s'.next == s.next && s'.control == s.control
  {
    QueuePop(s, draining);
  }

  lemma QuietPoll(p: Params, s: State, io: bool)
    ensures var e := EmptyStep(s, io);
            && e.work == s.work && e.next == s.next && (e.control == s.control || e.control == s.control[1..])
            && !e.worker.InFlight?
    ensures s.worker.Releasing? ==>
              var r := ReleaseStep(p, s, s.worker.desc, s.worker.draining);
              r.work == s.work && r.next == s.next && r.control == s.control && !r.worker.InFlight?
  {
  }

  lemma MetasTail(control: seq<ControlPayload>)
    ensures control != [] ==> |Metas(control[1..])| <= |Metas(control)|
    ensures Metas([]) == []
  {
  }

  lemma RecordedWork(p: Params, s: State, io: bool, issued: nat, published: seq<int>, handled: seq<int>)
    requires p.Legal() && Sound(p, s) && Faithful(s) && Recorded(s, issued, published, handled)
    ensures var s' := WorkStep(p, s, io); Recorded(s', issued, published, handled + HandledBy(s, s', issued))
  {
    hide Recorded, Metas, HandledBy, Sound, Faithful, Queue, PairStep, Dist;
    var s' := WorkStep(p, s, io);
    if s.worker.InFlight? && IsBarrier(s.worker.desc) {
      BarrierHandled(p, s, io);
      if s'.worker.InFlight? {
        SameHand(s, s');
        RecordedQuiet(s, s', issued, published, handled);
      } else {
        RecordedHandled(s, s', issued, published, handled);
      }
    } else if s.worker.InFlight? && s.worker.desc.slot < |s.slots| {
      RecordedHandled(s, s', issued, published, handled);
    } else {
      QuietSteps(p, s, io);
      RecordedQuiet(s, s', issued, published, handled);
    }
  }

  lemma SameHand(s: State, s': State)
    requires s'.worker == s.worker && s'.work == s.work
    ensures Queue(s') == Queue(s)
  {
  }

  // ----- whole runs -----

  lemma WorkNumbersNothing(p: Params, s: State, io: bool, issued: nat, published: seq<int>)
    ensures var s' := WorkStep(p, s, io);
            IssuedBy(s, s') == 0 && published + PublishedBy(s, s', issued) == published
  {
    hide WorkStep;
    WorkTakes(p, s, io);
  }

  lemma SendHandlesNothing(p: Params, s: State, a: Action, issued: nat, handled: seq<int>)
    requires !a.Work?
    ensures handled + HandledBy(s, Next(p, s, a), issued) == handled
  {
    SenderKeepsWorker(p, s, a);
    hide Next;
  }

  // As long as the discards are clean, the barriers published are those handled and
  // then those queued, and every handled one is older than all metadata still queued.
  lemma {:induction false} PublishedAreRecorded(p: Params, run: seq<Action>)
    requires p.Legal() && CleanDiscards(p, run)
    ensures Recorded(Exec(p, run), Issued(p, run), Published(p, run), Handled(p, run))
  {
    hide Next, Recorded, Sound, Faithful, Discards, HeadUnclaimed;
    if run == [] {
      NothingRecorded(p);
    } else {
      var before, a := run[..|run| - 1], run[|run| - 1];
      PublishedAreRecorded(p, before);
      RunKeeps(p, before);
      var s, issued, published, handled := Exec(p, before), Issued(p, before), Published(p, before), Handled(p, before);
      if a.Work? {
        NextIsWork(p, s, a);
        RecordedWork(p, s, a.io, issued, published, handled);
        WorkNumbersNothing(p, s, a.io, issued, published);
      } else {
        RecordedSend(p, s, a, issued, published, handled);
        SendHandlesNothing(p, s, a, issued, handled);
      }
    }
  }

  lemma NextIsWork(p: Params, s: State, a: Action)
    requires a.Work?
    ensures Next(p, s, a) == WorkStep(p, s, a.io)
  {
  }

  lemma NothingRecorded(p: Params)
    requires p.Legal()
    ensures Recorded(Initial(p), 0, [], [])
  {
  }

  // The history only grows.
  lemma {:induction false} HistoryGrows(p: Params, run: seq<Action>, rest: seq<Action>)
    requires p.Legal()
    ensures Published(p, run) <= Published(p, run + rest)
    decreases |rest|
  {
    hide Exec, PublishedBy;
    if rest == [] {
      assert run + rest == run;
    } else {
      var init := rest[..|rest| - 1];
      HistoryGrows(p, run, init);
      assert (run + rest)[..|run + rest| - 1] == run + init;
    }
  }

  lemma LaterAreNewer(published: seq<int>, all: seq<int>, k: int, newest: int)
    requires Rising(all) && published <= all && newest in published && k < newest && k !in published
    ensures k !in all
  {
    var i :| 0 <= i < |published| && published[i] == newest;
    forall j | 0 <= j < |all| ensures all[j] != k {
      if j < |published| { assert all[j] in published; } else { assert all[i] < all[j]; }
    }
  }

  // No number recorded in a faithful state is that of a metadata older than the
  // barrier in hand; the barrier's own number is newer.
  lemma OlderIsUnrecorded(p: Params, s: State, issued: nat, published: seq<int>, handled: seq<int>)
    requires p.Legal() && Sound(p, s) && Faithful(s) && Recorded(s, issued, published, handled)
    requires s.worker.InFlight? && IsBarrier(s.worker.desc) && Dist(s.next, s.worker.desc.validLen) < |Metas(s.control)|
    ensures issued + 1 - |Metas(s.control)| !in published
    ensures Unwrapped(s.next, issued, s.worker.desc.validLen) in published
  {
    BarrierFindsMetadata(p, s);
    hide Sound, Faithful, Metas, Dist, Chain;
    var back := Dist(s.next, s.worker.desc.validLen);
    NumbersRange(s.work, s.next, back - 1, Nearest(s), issued);
    assert Queue(s)[1..] == s.work && Queue(s)[0] == s.worker.desc;
    var newest, queued := Unwrapped(s.next, issued, s.worker.desc.validLen), Numbers(s.work, s.next, issued);
    assert published == handled + ([newest] + queued);
    hide Numbers, Queue, Recorded;
    Spread(handled, newest, queued, issued + 1 - |Metas(s.control)|);
  }

  lemma Spread(handled: seq<int>, newest: int, queued: seq<int>, k: int)
    ensures newest in handled + ([newest] + queued)
    ensures k in handled + ([newest] + queued) ==> k in handled || k == newest || k in queued
  {
    assert (handled + ([newest] + queued))[|handled|] == newest;
  }

  // A metadata the barrier loop drops as superseded was never confirmed and never
  // will be: it was issued, and no barrier of the run so far or of any run that
  // continues it carries its number.
  lemma SupersededWasNeverConfirmed(p: Params, run: seq<Action>, rest: seq<Action>)
    requires p.Legal() && CleanDiscards(p, run)
    requires var s := Exec(p, run);
             && s.worker.InFlight? && IsBarrier(s.worker.desc) && s.control != [] && s.control[0].Metadata?
             && Sub16(s.worker.desc.validLen, s.control[0].seqNo) != 0
    ensures var s := Exec(p, run);
            var number := Unwrapped(s.next, Issued(p, run), s.control[0].seqNo);
            && 1 <= number <= Issued(p, run) && number % U16_SIZE == s.control[0].seqNo
            && number !in Published(p, run + rest)
  {
    hide Exec, CleanDiscards, Issued, Published, Handled, Sound, Faithful, Recorded, Counted, Dist, Metas;
    var s, issued, published := Exec(p, run), Issued(p, run), Published(p, run);
    RunKeeps(p, run);
    PublishedAreRecorded(p, run);
    PublishedInOrder(p, run);
    PublishedInOrder(p, run + rest);
    HistoryGrows(p, run, rest);
    HeadIsFarthest(p, run);
    BarrierFindsMetadata(p, s);
    OlderIsUnrecorded(p, s, issued, published, Handled(p, run));
    NumberNamesIt(s, issued, published, Handled(p, run));
    IsNumbered(Exec(p, run + rest), Issued(p, run + rest), Published(p, run + rest));
    LaterAreNewer(published, Published(p, run + rest), issued + 1 - |Metas(s.control)|,
                  Unwrapped(s.next, issued, s.worker.desc.validLen));
  }

  lemma NumberNamesIt(s: State, issued: nat, published: seq<int>, handled: seq<int>)
    requires Counted(s, issued, published) && Recorded(s, issued, published, handled)
    requires s.control != [] && s.control[0].Metadata? && Dist(s.next, s.control[0].seqNo) == |Metas(s.control)| > 0
    ensures var number := Unwrapped(s.next, issued, s.control[0].seqNo);
            1 <= number <= issued && number % U16_SIZE == s.control[0].seqNo
  {
    hide Metas;
    var seqNo, q := s.control[0].seqNo, (issued + 1) / U16_SIZE;
    assert issued + 1 == q * U16_SIZE + s.next;
    LowBits(if s.next >= seqNo then q else q - 1, seqNo);
  }

  lemma LowBits(q: int, r: u16)
    ensures (q * 0x1_0000 + r) % 0x1_0000 == r
  {
  }
}
