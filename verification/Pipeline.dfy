/**
 The recording transport as a two-process step system: the sender (RT thread,
 then the guard that drops it) and the disk worker share the free ring, the
 work ring, the control ring and the slot array (src/recording/pool.rs,
 src/recording/transport.rs, the pool loop of src/recording/disk.rs).

 Every step touches one ring or one slot, so a run is any interleaving of the
 two processes. A step that is not enabled leaves the state as it is. The
 fields `accepted`, `offered`, `refused` and `written` are histories: no step
 reads them.
 */
module Pipeline {
  import opened Wrappers
  import opened Buffer

  const CONTROL_BARRIER_SLOT: u16 := 0xFFFF

  // N slots, a control ring of capacity C and a work ring of capacity W.
  datatype Params = Params(n: nat, c: nat, w: nat) {
    predicate Legal() {
      1 <= n < CONTROL_BARRIER_SLOT && 1 <= c < 0x8000 && 1 <= w
    }
  }

  datatype Descriptor = Descriptor(slot: u16, validLen: u16)

  datatype ControlPayload = Metadata(seqNo: u16, meta: AudioMetadata) | StreamStop

  datatype Phase = Live | Stopped | Dropped

  datatype SenderPc =
    | Idle
    | Acquired(idx: u16, block: Block)
    | Filled(idx: u16)
    | BarrierDue(seqNo: u16, meta: AudioMetadata)

  datatype WorkerPc =
    | Polling
    | InFlight(desc: Descriptor, draining: bool)
    | Releasing(desc: Descriptor, draining: bool)
    | SawEmpty
    | Draining
    | Done
    | Failed(unwritten: seq<Event>, heldBarrier: bool)

  datatype State = State(
    free: seq<u16>, work: seq<Descriptor>, control: seq<ControlPayload>, slots: seq<Block>,
    pending: Option<(u16, AudioMetadata)>, next: u16, confirmed: bool, phase: Phase,
    sender: SenderPc, worker: WorkerPc, lost: seq<u16>, leaks: nat,
    offered: seq<Block>, refused: nat, accepted: seq<Event>, written: seq<Event>)

  datatype Action =
    | Offer(block: Block)
    | Fill
    | Publish
    | Announce(meta: AudioMetadata)
    | PushBarrier
    | PushStop
    | DropSender
    | Work(io: bool)

  // 16-bit wrapping subtraction and increment.
  function Sub16(a: u16, b: u16): u16 {
    if a >= b then a - b else a + U16_SIZE - b
  }

  function Succ16(a: u16): u16 {
    if a + 1 == U16_SIZE then 0 else a + 1
  }

  predicate IsBarrier(d: Descriptor) {
    d.slot == CONTROL_BARRIER_SLOT
  }

  function Barrier(seqNo: u16): Descriptor {
    Descriptor(CONTROL_BARRIER_SLOT, seqNo)
  }

  function Indices(n: nat): seq<u16>
    requires n <= CONTROL_BARRIER_SLOT
  {
    if n == 0 then [] else Indices(n - 1) + [n - 1]
  }

  function Initial(p: Params): State
    requires p.Legal()
  {
    State(Indices(p.n), [], [], seq(p.n, _ => []), None, 1, false, Live,
          Idle, Polling, [], 0, [], 0, [], [])
  }

  // ----- sender steps -----

  // An audio quantum reaches the recorder: it is refused while the format is
  // unconfirmed or the pool is exhausted, otherwise a slot is acquired.
  function OfferStep(s: State, block: Block): State {
    if s.phase != Live || s.sender != Idle then s
    else if !s.confirmed || s.free == [] then
      s.(offered := s.offered + [block], refused := s.refused + 1)
    else
      s.(offered := s.offered + [block], free := s.free[1..], sender := Acquired(s.free[0], block))
  }

  function FillStep(s: State): State {
    if s.sender.Acquired? && s.sender.idx < |s.slots| then
      s.(slots := s.slots[s.sender.idx := s.sender.block], sender := Filled(s.sender.idx))
    else s
  }

  function PublishStep(p: Params, s: State): State {
    if !s.sender.Filled? || s.sender.idx >= |s.slots| then s
    else
      var idx := s.sender.idx;
      if |s.work| < p.w then
        s.(work := s.work + [Descriptor(idx, |s.slots[idx]|)], sender := Idle,
           accepted := s.accepted + [Audio(s.slots[idx])])
      else
        s.(lost := s.lost + [idx], leaks := s.leaks + 1, refused := s.refused + 1, sender := Idle)
  }

  // Pushes the barrier of an announced format and confirms it, or remembers it.
  function BarrierStep(p: Params, s: State, seqNo: u16, meta: AudioMetadata): State {
    if |s.work| < p.w then
      s.(work := s.work + [Barrier(seqNo)], pending := None, confirmed := true, sender := Idle,
         accepted := s.accepted + [Format(meta)])
    else
      s.(pending := Some((seqNo, meta)), confirmed := false, sender := Idle)
  }

  function AnnounceStep(p: Params, s: State, meta: AudioMetadata): State {
    if s.phase != Live || s.sender != Idle then s
    else if s.pending.Some? && s.pending.value.1 == meta then
      BarrierStep(p, s, s.pending.value.0, meta)
    else if |s.control| < p.c then
      s.(control := s.control + [Metadata(s.next, meta)], next := Succ16(s.next), confirmed := false,
         sender := BarrierDue(s.next, meta))
    else
      s.(confirmed := false)
  }

  function StopStep(p: Params, s: State): State {
    if s.phase == Live && s.sender == Idle && |s.control| < p.c then
      s.(control := s.control + [StreamStop], phase := Stopped)
    else s
  }

  function DropStep(s: State): State {
    if s.phase != Dropped && s.sender == Idle then s.(phase := Dropped) else s
  }

  // ----- worker steps -----

  function Resume(draining: bool): WorkerPc {
    if draining then Draining else Polling
  }

  // One turn of the loop of `handle_control_barrier`.
  function PairStep(s: State, d: Descriptor, draining: bool, io: bool): State {
    if s.control == [] || s.control[0].StreamStop? then
      s.(worker := Releasing(d, draining))
    else
      var head := s.control[0];
      var diff := Sub16(d.validLen, head.seqNo);
      if diff == 0 && io then
        s.(control := s.control[1..], written := s.written + [Format(head.meta)],
           worker := Releasing(d, draining))
      else if diff == 0 then
        s.(control := s.control[1..], leaks := s.leaks + 1,
           worker := Failed([Format(head.meta)], true))
      else if diff < 0x8000 then
        s.(control := s.control[1..])
      else
        s.(worker := Releasing(d, draining))
  }

  function BlockStep(s: State, d: Descriptor, draining: bool, io: bool): State {
    if d.slot >= |s.slots| then s
    else if io then
      s.(written := s.written + [Audio(s.slots[d.slot])], worker := Releasing(d, draining))
    else
      s.(lost := s.lost + [d.slot], leaks := s.leaks + 1,
         worker := Failed([Audio(s.slots[d.slot])], false))
  }

  function ReleaseStep(p: Params, s: State, d: Descriptor, draining: bool): State {
    if IsBarrier(d) then s.(worker := Resume(draining))
    else if |s.free| < p.n then s.(free := s.free + [d.slot], worker := Resume(draining))
    else s.(lost := s.lost + [d.slot], leaks := s.leaks + 1, worker := Resume(draining))
  }

  // The control-ring check made after `try_pop` found the work ring empty.
  function EmptyStep(s: State, io: bool): State {
    if s.control == [] then
      if s.phase == Dropped && s.work == [] then
        s.(worker := if io then Done else Failed([], false))
      else s.(worker := Polling)
    else if s.control[0].StreamStop? then
      s.(control := s.control[1..], worker := Draining)
    else if s.phase == Dropped then
      s.(control := s.control[1..], worker := Polling)
    else s.(worker := Polling)
  }

  function PopStep(s: State, draining: bool): State
    requires s.work != []
  {
    s.(work := s.work[1..], worker := InFlight(s.work[0], draining))
  }

  function WorkStep(p: Params, s: State, io: bool): State {
    match s.worker
    case Polling => if s.work != [] then PopStep(s, false) else s.(worker := SawEmpty)
    case InFlight(d, draining) =>
      if IsBarrier(d) then PairStep(s, d, draining, io) else BlockStep(s, d, draining, io)
    case Releasing(d, draining) => ReleaseStep(p, s, d, draining)
    case SawEmpty => EmptyStep(s, io)
    case Draining =>
      if s.work != [] then PopStep(s, true)
      else s.(control := [], worker := if io then Done else Failed([], false))
    case Done => s
    case Failed(_, _) => s
  }

  function Next(p: Params, s: State, a: Action): State {
    match a
    case Offer(block) => OfferStep(s, block)
    case Fill => FillStep(s)
    case Publish => PublishStep(p, s)
    case Announce(meta) => AnnounceStep(p, s, meta)
    case PushBarrier =>
      if s.sender.BarrierDue? then BarrierStep(p, s, s.sender.seqNo, s.sender.meta) else s
    case PushStop => StopStep(p, s)
    case DropSender => DropStep(s)
    case Work(io) => WorkStep(p, s, io)
  }

  // The state after a run: any sequence of actions, in any interleaving.
  function Exec(p: Params, run: seq<Action>): State
    requires p.Legal()
  {
    if run == [] then Initial(p)
    else Next(p, Exec(p, run[..|run| - 1]), run[|run| - 1])
  }

  // ----- the one branch that can lose a confirmed format -----

  // The worker is about to drop the head metadata of an abandoned transport.
  predicate Discards(s: State, a: Action) {
    a.Work? && s.worker == SawEmpty && s.phase == Dropped && s.control != [] && s.control[0].Metadata?
  }

  // No queued barrier names the metadata at the head of the control ring.
  predicate HeadUnclaimed(s: State)
    requires s.control != [] && s.control[0].Metadata?
  {
    forall d <- s.work :: IsBarrier(d) ==> d.validLen != s.control[0].seqNo
  }

  // Every discard of the run dropped a metadata no queued barrier names.
  predicate CleanDiscards(p: Params, run: seq<Action>)
    requires p.Legal()
  {
    run == [] ||
    (var before := Exec(p, run[..|run| - 1]);
     CleanDiscards(p, run[..|run| - 1]) &&
     (Discards(before, run[|run| - 1]) ==> HeadUnclaimed(before)))
  }
}
