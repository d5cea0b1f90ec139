/**
 The guard that stops and joins the recording worker (src/recording/guard.rs:52-93,
 194-395). The worker runs on its own thread: whenever the guard waits, the worker
 takes some more turns of its loop on the transport and the session they share.
 */
module Guard {
  import opened Wrappers
  import opened Buffer
  import opened Io
  import opened Parts
  import Naming
  import WavWriter
  import opened Session
  import opened SessionResults
  import opened Pipeline
  import opened PipelineInvariants
  import opened PipelineTheorems
  import opened PipelineLosses
  import opened PipelineDrain
  import opened Transport
  import opened DiskWorker
  import opened PoolResults

  datatype Outcome =
    | Success
    | SuccessWithLoss(blocks: nat, frames: nat)
    | Failed
    | Panicked
    | TimedOut

  const EXIT_RECORDING: int := 6

  function ExitCode(outcome: Outcome): int {
    if outcome == Success then 0 else EXIT_RECORDING
  }

  // What the worker does during one wait: how many more looks it takes at its rings,
  // and whether the thread then panics.
  datatype Wait = Wait(looks: nat, panics: bool)

  function Looks(waits: seq<Wait>): nat {
    if waits == [] then 0 else Looks(waits[..|waits| - 1]) + waits[|waits| - 1].looks
  }

  predicate NoPanic(waits: seq<Wait>) {
    forall wait <- waits :: !wait.panics
  }

  // That many looks were taken: as many steps at least, with the sender gone as many
  // towards the exit.
  predicate Took(before: Point, after: Point, looks: nat) {
    && |before.run| + looks <= |after.run| && after.s.phase == before.s.phase
    && (before.s.phase == Dropped ==> StepsLeft(after.s) + looks <= StepsLeft(before.s))
  }

  lemma TookMore(a: Point, b: Point, c: Point, looks: nat)
    requires Took(a, b, looks) && Forward(b, c)
    ensures Took(a, c, looks + 1)
  {
    hide StepsLeft, WorkOnly, Keeps;
  }

  lemma TookBoth(a: Point, b: Point, c: Point, looks: nat, more: nat)
    requires Took(a, b, looks) && Took(b, c, more)
    ensures Took(a, c, looks + more)
  {
    hide StepsLeft;
  }

  // The worker's thread: where it is in its loop, or how it ended.
  class WorkerThread {
    const t: Transport
    const sess: Session
    var at: WorkerPc
    var result: Option<Result<(), IoError>>
    var panicked: bool

    ghost predicate Valid()
      reads this, t, t.Store(), sess, sess.dir, sess.dir.device, sess.summary, sess.files, sess.writer
    {
      if result.Some? then Ended(t, sess, result.value)
      else Linked(t, sess) && t.s.worker == at && Looking(at)
    }

    constructor (t: Transport, sess: Session)
      requires Linked(t, sess) && t.s.worker == Polling
      ensures Valid() && this.t == t && this.sess == sess && result.None? && !panicked
    {
      hide Linked;
      this.t, this.sess, at, result, panicked := t, sess, Polling, None, false;
      new;
      Apart();
    }

    // The thread's own fields are no part of the transport or the session.
    lemma Apart()
      ensures this !in t.Store() && this !in DiskWorker.Region(sess)
    {
    }

    // One more look at the rings.
    method Look()
      requires Valid() && result.None?
      modifies this`at, this`result, t, sess.Footprint()
      ensures Valid() && Forward(old(t.Here()), t.Here()) && NothingUndone(old(sess.OnDisk()), sess.OnDisk())
      ensures fresh(sess.Footprint() - old(sess.Footprint()))
    {
      hide Linked, Ended, NothingUndone, Forward, Looking;
      Apart();
      var r, over, next := NextLook(t, sess, at);
      Apart();
      at := next;
      if over { result := Some(r); }
    }

    // The thread's turn: all of its looks, unless it ends before. One that panicked or
    // returned takes none.
    method Run(wait: Wait)
      requires Valid()
      modifies this`at, this`result, this`panicked, t, sess.Footprint()
      ensures Valid() && Onward(old(t.Here()), t.Here()) && NothingUndone(old(sess.OnDisk()), sess.OnDisk())
      ensures fresh(sess.Footprint() - old(sess.Footprint()))
      ensures old(Finished()) ==> Finished() && t.Here() == old(t.Here()) && sess.OnDisk() == old(sess.OnDisk())
      ensures old(Finished()) ==> result == old(result) && panicked == old(panicked)
      ensures !old(Finished()) ==>
                && (panicked <==> result.None? && wait.panics)
                && (result.None? ==> Took(old(t.Here()), t.Here(), wait.looks))
    {
      hide Linked, Ended, NothingUndone, Forward, Looking, Onward, Took;
      Standstill(t.Here(), sess.OnDisk());
      if Finished() { return; }
      var i := 0;
      while i < wait.looks && result.None?
        invariant Valid() && Onward(old(t.Here()), t.Here()) && NothingUndone(old(sess.OnDisk()), sess.OnDisk())
        invariant !panicked && fresh(sess.Footprint() - old(sess.Footprint()))
        invariant i <= wait.looks && Took(old(t.Here()), t.Here(), i)
        decreases wait.looks - i
      {
        ghost var here, disk := t.Here(), sess.OnDisk();
        Look();
        ForwardIsOnward(here, t.Here());
        OnwardTwice(old(t.Here()), here, t.Here());
        UndoneTwice(old(sess.OnDisk()), disk, sess.OnDisk());
        TookMore(old(t.Here()), here, t.Here(), i);
        i := i + 1;
      }
      Apart();
      panicked := result.None? && wait.panics;
    }

    lemma Reaches()
      requires Valid()
      ensures t.p.Legal() && t.s == Exec(t.p, t.run)
    {
      hide Exec, Stored, Session.Valid, Session.Salvage, Session.Consistent, PartsOf, Whole, Halted, Looking;
    }

    // A thread that ended before the sender has failed.
    lemma LiveMeansFailed()
      requires Valid() && result.Some? && t.s.phase == Live
      ensures result.value.Err?
    {
      hide Exec, Stored, Session.Valid, Session.Salvage, Session.Consistent, PartsOf, Whole, Halted, Owning, Bookkeeping;
      RunKeeps(t.p, t.run);
    }

    lemma ErrMeansFailed()
      requires Valid() && result.Some? && result.value.Err?
      ensures t.s.worker.Failed?
    {
      hide Exec, Stored, Session.Valid, Session.Salvage, Session.Consistent, PartsOf, Whole, Halted;
    }

    // A thread in its loop is not at the exit.
    lemma LookingIsNotOver()
      requires Valid() && result.None?
      ensures StepsLeft(t.s) > 0 && StepsLeft(t.s) <= 4 * (t.p.w + t.p.c + 1)
    {
      hide Transport.Valid, Session.Valid, PartsOf, Exec, Sound;
      ValidReaches(t);
      RunKeeps(t.p, t.run);
      StepsBounded(t.p, t.s);
    }

    // The thread ended without a panic and its result is no error.
    predicate Returned()
      reads this
    {
      !panicked && result.Some? && result.value.Ok?
    }

    function Finished(): bool
      reads this
    {
      panicked || result.Some?
    }
  }

  lemma Standstill(here: Point, disk: Disk)
    ensures Onward(here, here) && NothingUndone(disk, disk) && Took(here, here, 0)
  {
  }

  lemma ForwardIsOnward(before: Point, after: Point)
    requires Forward(before, after)
    ensures Onward(before, after)
  {
  }

  lemma ValidReaches(t: Transport)
    requires t.Valid()
    ensures t.p.Legal() && t.s == Exec(t.p, t.run)
  {
    hide Exec, Stored;
  }

  // However full the rings are, this many steps are enough.
  lemma StepsBounded(p: Params, s: State)
    requires Sound(p, s)
    ensures StepsLeft(s) <= 4 * (p.w + p.c + 1)
  {
    hide Owning, Bookkeeping;
  }

  // The sender's last calls leave the thread and the session where they are.
  method TryStop(thread: WorkerThread) returns (ok: bool)
    requires thread.Valid() && thread.t.s.phase == Live
    modifies thread.t
    ensures thread.Valid() && ok == (|old(thread.t.control)| < thread.t.p.c)
    ensures thread.t.s.phase == (if ok then Stopped else Live) && SameOffers(old(thread.t.Here()), thread.t.Here())
    ensures thread.t.run == old(thread.t.run) + [PushStop] && (!ok ==> thread.t.control == old(thread.t.control))
    ensures thread.t.slotLeaks == old(thread.t.slotLeaks)
  {
    hide Transport.Valid, Session.Valid, Session.Salvage, Session.Consistent, PartsOf, Whole, Halted, Looking;
    thread.Apart();
    Separate(thread.t, thread.sess);
    PhaseFlags(thread.t);
    ok := thread.t.TryPushStreamStop();
    PhaseFlags(thread.t);
  }

  method Disconnect(thread: WorkerThread)
    requires thread.Valid() && thread.t.s.phase != Dropped
    modifies thread.t
    ensures thread.Valid() && thread.t.s.phase == Dropped && SameOffers(old(thread.t.Here()), thread.t.Here())
    ensures thread.t.run == old(thread.t.run) + [DropSender]
  {
    hide Transport.Valid, Session.Valid, Session.Salvage, Session.Consistent, PartsOf, Whole, Halted, Looking;
    thread.Apart();
    Separate(thread.t, thread.sess);
    thread.t.Drop();
  }

  // Nothing more was offered, confirmed or refused, nor announced.
  predicate SameOffers(before: Point, after: Point) {
    && after.s.offered == before.s.offered && after.s.accepted == before.s.accepted
    && after.s.refused == before.s.refused && after.oversized == before.oversized
  }

  // How often the stop token was tried.
  function Stops(run: seq<Action>): nat {
    if run == [] then 0 else Stops(run[..|run| - 1]) + if run[|run| - 1] == PushStop then 1 else 0
  }

  // The run goes on without an announcement, and the stop token is tried `stops` times.
  predicate Winds(before: Point, after: Point, stops: nat) {
    && before.run <= after.run && SameOffers(before, after)
    && Stops(after.run) == Stops(before.run) + stops
    && forall a <- after.run[|before.run|..] :: !a.Announce?
  }

  lemma {:induction false} WorkStopsNothing(run: seq<Action>, more: seq<Action>)
    requires WorkOnly(more)
    ensures Stops(run + more) == Stops(run)
  {
    if more == [] {
      assert run + more == run;
    } else {
      WorkStopsNothing(run, more[..|more| - 1]);
      assert (run + more)[..|run + more| - 1] == run + more[..|more| - 1];
      assert more[|more| - 1] in more;
    }
  }

  lemma WindsByWork(before: Point, after: Point)
    requires Onward(before, after)
    ensures Winds(before, after, 0)
  {
    WorkStopsNothing(before.run, after.run[|before.run|..]);
    assert after.run == before.run + after.run[|before.run|..];
  }

  lemma WindsByCall(before: Point, after: Point, a: Action)
    requires after.run == before.run + [a] && SameOffers(before, after) && !a.Announce?
    ensures Winds(before, after, if a == PushStop then 1 else 0)
  {
    assert after.run[..|after.run| - 1] == before.run;
    assert after.run[|before.run|..] == [a];
  }

  lemma WindsTwice(a: Point, b: Point, c: Point, stops: nat, more: nat)
    requires Winds(a, b, stops) && Winds(b, c, more)
    ensures Winds(a, c, stops + more)
  {
    hide Stops;
    assert c.run[|a.run|..] == b.run[|a.run|..] + c.run[|b.run|..];
  }

  // One try of the stop token.
  method TryOnce(thread: WorkerThread) returns (ok: bool)
    requires thread.Valid() && thread.t.s.phase == Live
    modifies thread.t
    ensures thread.Valid() && Winds(old(thread.t.Here()), thread.t.Here(), 1)
    ensures |thread.t.run| == |old(thread.t.run)| + 1 && thread.Finished() == old(thread.Finished())
    ensures if ok then thread.t.s.phase == Stopped
            else thread.t.s.phase == Live && |thread.t.control| >= thread.t.p.c
    ensures thread.sess.OnDisk() == old(thread.sess.OnDisk())
    ensures thread.sess.Footprint() == old(thread.sess.Footprint())
  {
    hide WorkerThread.Valid, Winds;
    ghost var before := thread.t.Here();
    ok := TryStop(thread);
    WindsByCall(before, thread.t.Here(), PushStop);
  }

  // One wait of the guard.
  method Pause(thread: WorkerThread, wait: Wait)
    requires thread.Valid()
    modifies thread, thread.t, thread.sess.Footprint()
    ensures thread.Valid() && Winds(old(thread.t.Here()), thread.t.Here(), 0)
    ensures thread.t.s.phase == old(thread.t.s.phase)
    ensures fresh(thread.sess.Footprint() - old(thread.sess.Footprint()))
    ensures NothingUndone(old(thread.sess.OnDisk()), thread.sess.OnDisk())
    ensures !old(thread.panicked) && !wait.panics ==> !thread.panicked
    ensures old(thread.result.Some?) ==> thread.result == old(thread.result)
    ensures thread.Finished() || |old(thread.t.run)| + wait.looks <= |thread.t.run|
    ensures old(thread.Finished()) ==> thread.Finished()
  {
    hide WorkerThread.Valid, NothingUndone, Winds, Onward;
    ghost var here := thread.t.Here();
    thread.Run(wait);
    Kept(here, thread.t.Here());
    WindsByWork(here, thread.t.Here());
  }

  // The stop token was tried so often, and a worker that has not ended took the looks
  // of the waits in between.
  predicate Tried(before: Point, after: Point, tries: nat, waits: seq<Wait>, finished: bool) {
    Winds(before, after, tries) && (finished || |before.run| + tries + Looks(waits) <= |after.run|)
  }

  lemma NotYetTried(here: Point, finished: bool)
    ensures Tried(here, here, 0, [], finished)
  {
    Standstill(here, Disk(map[], [], None));
    WindsByWork(here, here);
  }

  lemma TriedOnce(a: Point, b: Point, c: Point, tries: nat, waits: seq<Wait>, finished: bool)
    requires Tried(a, b, tries, waits, finished) && Winds(b, c, 1) && |c.run| == |b.run| + 1
    ensures Tried(a, c, tries + 1, waits, finished)
  {
    hide Winds;
    WindsTwice(a, b, c, tries, 1);
  }

  lemma TriedPause(a: Point, b: Point, c: Point, tries: nat, waits: seq<Wait>, wait: Wait, before: bool, finished: bool)
    requires Tried(a, b, tries, waits, before) && Winds(b, c, 0) && (before ==> finished)
    requires finished || |b.run| + wait.looks <= |c.run|
    ensures Tried(a, c, tries, waits + [wait], finished)
  {
    hide Winds;
    WindsTwice(a, b, c, tries, 0);
    assert (waits + [wait])[..|waits|] == waits;
  }

  // Retries the stop token until the control ring takes it or time is up.
  method PushStreamStop(thread: WorkerThread, waits: seq<Wait>) returns (ghost tries: nat)
    requires thread.Valid() && thread.t.s.phase == Live
    modifies thread, thread.t, thread.sess.Footprint()
    ensures thread.Valid() && 1 <= tries <= |waits| + 1
    ensures Tried(old(thread.t.Here()), thread.t.Here(), tries, waits[..tries - 1], thread.Finished())
    ensures fresh(thread.sess.Footprint() - old(thread.sess.Footprint()))
    ensures NothingUndone(old(thread.sess.OnDisk()), thread.sess.OnDisk())
    ensures thread.t.s.phase == Stopped
            || (thread.t.s.phase == Live && tries == |waits| + 1 && |thread.t.control| >= thread.t.p.c)
    ensures Unpanicked(old(thread.panicked), thread.panicked, waits)
    ensures old(thread.result.Some?) ==> thread.result == old(thread.result)
  {
    hide WorkerThread.Valid, NothingUndone, Tried, Winds;
    Untouched(thread.sess.OnDisk());
    NotYetTried(thread.t.Here(), thread.Finished());
    tries := 0;
    assert waits[..0] == [];
    var i := 0;
    while true
      invariant thread.Valid() && thread.t.s.phase == Live && i <= |waits| && tries == i
      invariant Tried(old(thread.t.Here()), thread.t.Here(), tries, waits[..i], thread.Finished())
      invariant fresh(thread.sess.Footprint() - old(thread.sess.Footprint()))
      invariant NothingUndone(old(thread.sess.OnDisk()), thread.sess.OnDisk())
      invariant Unpanicked(old(thread.panicked), thread.panicked, waits)
      invariant old(thread.result.Some?) ==> thread.result == old(thread.result)
      decreases |waits| - i
    {
      ghost var before, ended := thread.t.Here(), thread.Finished();
      var ok := TryOnce(thread);
      TriedOnce(old(thread.t.Here()), before, thread.t.Here(), tries, waits[..i], ended);
      tries := tries + 1;
      if ok || i == |waits| { return; }
      ghost var here, disk := thread.t.Here(), thread.sess.OnDisk();
      Pause(thread, waits[i]);
      TriedPause(old(thread.t.Here()), here, thread.t.Here(), tries, waits[..i], waits[i], ended, thread.Finished());
      assert waits[..i + 1] == waits[..i] + [waits[i]];
      UndoneTwice(old(thread.sess.OnDisk()), disk, thread.sess.OnDisk());
      i := i + 1;
    }
  }

  lemma TriedWinds(before: Point, after: Point, tries: nat, waits: seq<Wait>, finished: bool)
    requires Tried(before, after, tries, waits, finished)
    ensures Winds(before, after, tries)
  {
  }

  lemma Kept(before: Point, after: Point)
    requires Onward(before, after)
    ensures SameOffers(before, after) && after.s.phase == before.s.phase && before.run <= after.run
  {
  }

  // A thread panics only during a wait that has it panic.
  predicate Unpanicked(before: bool, after: bool, waits: seq<Wait>) {
    !before && NoPanic(waits) ==> !after
  }

  // The stop token, unless the worker was seen to fail, and the drop of the sender.
  method EndStream(thread: WorkerThread, failedObserved: bool, waits: seq<Wait>) returns (ghost tries: nat)
    requires thread.Valid() && thread.t.s.phase == Live
    modifies thread, thread.t, thread.sess.Footprint()
    ensures thread.Valid() && thread.t.s.phase == Dropped && Winds(old(thread.t.Here()), thread.t.Here(), tries)
    ensures fresh(thread.sess.Footprint() - old(thread.sess.Footprint()))
    ensures NothingUndone(old(thread.sess.OnDisk()), thread.sess.OnDisk())
    ensures if failedObserved then tries == 0 else 1 <= tries <= |waits| + 1
    ensures Unpanicked(old(thread.panicked), thread.panicked, waits)
    ensures old(thread.result.Some?) ==> thread.result == old(thread.result)
  {
    hide WorkerThread.Valid, NothingUndone, Winds;
    Standstill(thread.t.Here(), thread.sess.OnDisk());
    WindsByWork(thread.t.Here(), thread.t.Here());
    tries := 0;
    if !failedObserved {
      ghost var start := thread.t.Here();
      tries := PushStreamStop(thread, waits);
      TriedWinds(start, thread.t.Here(), tries, waits[..tries - 1], thread.Finished());
    }
    ghost var before := thread.t.Here();
    Disconnect(thread);
    WindsByCall(before, thread.t.Here(), DropSender);
    WindsTwice(old(thread.t.Here()), before, thread.t.Here(), tries, 0);
  }

  // What the join reports of a thread.
  function JoinedAs(thread: WorkerThread): Outcome
    reads thread
  {
    if !thread.Finished() then TimedOut
    else if thread.panicked then Panicked
    else if thread.result.value.Ok? then Success
    else Outcome.Failed
  }

  // Waits for the worker, up to the last wait, and inspects its result. With the sender
  // gone it does not time out on waits that leave the worker its steps.
  method JoinRecordingIo(thread: WorkerThread, waits: seq<Wait>) returns (outcome: Outcome)
    requires thread.Valid()
    modifies thread, thread.t, thread.sess.Footprint()
    ensures thread.Valid() && Onward(old(thread.t.Here()), thread.t.Here())
    ensures NothingUndone(old(thread.sess.OnDisk()), thread.sess.OnDisk())
    ensures outcome == JoinedAs(thread)
    ensures outcome == TimedOut ==> Took(old(thread.t.Here()), thread.t.Here(), Looks(waits))
    ensures old(thread.t.s.phase) == Dropped && Looks(waits) >= old(StepsLeft(thread.t.s)) ==> outcome != TimedOut
    ensures Unpanicked(old(thread.panicked), thread.panicked, waits)
    ensures old(thread.result.Some?) ==> thread.result == old(thread.result)
  {
    hide WorkerThread.Valid, NothingUndone, Onward, Took, StepsLeft;
    Standstill(thread.t.Here(), thread.sess.OnDisk());
    var i := 0;
    assert waits[..0] == [];
    while !thread.Finished()
      invariant thread.Valid() && Onward(old(thread.t.Here()), thread.t.Here()) && i <= |waits|
      invariant fresh(thread.sess.Footprint() - old(thread.sess.Footprint()))
      invariant NothingUndone(old(thread.sess.OnDisk()), thread.sess.OnDisk())
      invariant Unpanicked(old(thread.panicked), thread.panicked, waits)
      invariant !thread.Finished() ==> Took(old(thread.t.Here()), thread.t.Here(), Looks(waits[..i]))
      invariant old(thread.result.Some?) ==> thread.result == old(thread.result)
      decreases |waits| - i
    {
      if i == |waits| {
        assert waits[..i] == waits;
        thread.LookingIsNotOver();
        TookEnds(old(thread.t.Here()), thread.t.Here(), Looks(waits));
        return TimedOut;
      }
      ghost var here, disk := thread.t.Here(), thread.sess.OnDisk();
      thread.Run(waits[i]);
      OnwardTwice(old(thread.t.Here()), here, thread.t.Here());
      UndoneTwice(old(thread.sess.OnDisk()), disk, thread.sess.OnDisk());
      assert waits[..i + 1][..i] == waits[..i];
      if !thread.Finished() { TookBoth(old(thread.t.Here()), here, thread.t.Here(), Looks(waits[..i]), waits[i].looks); }
      i := i + 1;
    }
    return JoinedAs(thread);
  }

  // The join of a guard that dropped the sender.
  method JoinInTime(thread: WorkerThread, waits: seq<Wait>) returns (outcome: Outcome)
    requires thread.Valid()
    modifies thread, thread.t, thread.sess.Footprint()
    ensures thread.Valid() && Winds(old(thread.t.Here()), thread.t.Here(), 0)
    ensures thread.t.s.phase == old(thread.t.s.phase)
    ensures NothingUndone(old(thread.sess.OnDisk()), thread.sess.OnDisk())
    ensures outcome == JoinedAs(thread)
    ensures outcome == TimedOut ==> Took(old(thread.t.Here()), thread.t.Here(), Looks(waits))
    ensures thread.t.s.phase == Dropped && Looks(waits) >= Enough(thread.t.p) ==> outcome != TimedOut
    ensures !old(thread.panicked) && NoPanic(waits) ==> !thread.panicked
    ensures old(thread.result.Some?) ==> thread.result == old(thread.result)
  {
    hide WorkerThread.Valid, NothingUndone, Winds, Onward, StepsLeft, Looks, NoPanic, Took;
    ghost var here := thread.t.Here();
    if !thread.result.Some? { thread.LookingIsNotOver(); }
    outcome := JoinRecordingIo(thread, waits);
    Kept(here, thread.t.Here());
    WindsByWork(here, thread.t.Here());
  }

  lemma TookEnds(before: Point, after: Point, looks: nat)
    requires Took(before, after, looks) && StepsLeft(after.s) > 0
    ensures before.s.phase == Dropped ==> looks < StepsLeft(before.s)
  {
    hide StepsLeft;
  }

  // A clean join with counted overruns or leaked slots is a loss of as many blocks
  // as the larger of the two counters says.
  function ClassifyLoss(outcome: Outcome, leaked: nat, overruns: nat, frames: nat): (r: Outcome)
    ensures r == Success <==> outcome == Success && leaked == 0 && overruns == 0 && frames == 0
    ensures outcome != Success ==> r == outcome
    ensures outcome == Success && r != Success ==>
              && r.SuccessWithLoss? && r.blocks >= leaked && r.blocks >= overruns
              && (r.blocks == leaked || r.blocks == overruns) && r.frames == frames
  {
    if outcome != Success then outcome
    else
      var blocks := if overruns >= leaked then overruns else leaked;
      if blocks > 0 || frames > 0 then SuccessWithLoss(blocks, frames) else Success
  }

  // The teardown as the thread sees it. The leaks are read before the join.
  method WindDown(thread: WorkerThread, sender: bool, handle: bool, failedObserved: bool,
                  stopWaits: seq<Wait>, joinWaits: seq<Wait>)
    returns (outcome: Outcome, leaked: nat, ghost tries: nat)
    requires thread.Valid() && (sender ==> thread.t.s.phase == Live)
    modifies thread, thread.t, thread.sess.Footprint()
    ensures thread.Valid() && Winds(old(thread.t.Here()), thread.t.Here(), tries)
    ensures NothingUndone(old(thread.sess.OnDisk()), thread.sess.OnDisk())
    ensures if sender && !failedObserved then 1 <= tries <= |stopWaits| + 1 else tries == 0
    ensures sender ==> thread.t.s.phase == Dropped && leaked == old(thread.t.slotLeaks)
    ensures outcome == if handle then JoinedAs(thread) else Success
    ensures !old(thread.panicked) && NoPanic(stopWaits) && NoPanic(joinWaits) ==> !thread.panicked
    ensures old(thread.result.Some?) ==> thread.result == old(thread.result)
    ensures sender && Looks(joinWaits) >= Enough(thread.t.p) ==> outcome != TimedOut
  {
    hide WorkerThread.Valid, NothingUndone, Winds, NoPanic, Looks, JoinedAs, SameOffers, Onward, Took;
    ghost var start, untouched := thread.t.Here(), thread.sess.OnDisk();
    Standstill(start, untouched);
    WindsByWork(start, start);
    leaked, outcome, tries := 0, Success, 0;
    if sender {
      leaked := thread.t.slotLeaks;
      tries := EndStream(thread, failedObserved, stopWaits);
    }
    if handle {
      ghost var here, disk := thread.t.Here(), thread.sess.OnDisk();
      outcome := JoinInTime(thread, joinWaits);
      WindsTwice(start, here, thread.t.Here(), tries, 0);
      UndoneTwice(untouched, disk, thread.sess.OnDisk());
    }
  }

  class RecordingWorkerGuard {
    const thread: WorkerThread
    var handle: bool
    var sender: bool
    var teardownDone: bool

    constructor (thread: WorkerThread)
      ensures this.thread == thread && handle && sender && !teardownDone
    {
      this.thread, handle, sender, teardownDone := thread, true, true, false;
    }

    // The guard alone ends the stream.
    ghost predicate Valid()
      reads this, thread, thread.t, thread.t.Store(), thread.sess, thread.sess.dir, thread.sess.dir.device,
            thread.sess.summary, thread.sess.files, thread.sess.writer
    {
      thread.Valid() && (sender ==> thread.t.s.phase == Live)
    }

    // The guard's own fields are no part of what the thread works on.
    lemma Apart()
      ensures this !in thread.t.Store() && this !in DiskWorker.Region(thread.sess)
    {
    }

    // Stop token, sender drop, bounded join.
    method Teardown(failedObserved: bool, stopWaits: seq<Wait>, joinWaits: seq<Wait>)
      returns (outcome: Outcome, leaked: nat, ghost tries: nat)
      requires Valid()
      modifies this`handle, this`sender, thread, thread.t, thread.sess.Footprint()
      ensures Valid() && !handle && !sender && Winds(old(thread.t.Here()), thread.t.Here(), tries)
      ensures NothingUndone(old(thread.sess.OnDisk()), thread.sess.OnDisk())
      ensures if old(sender) && !failedObserved then 1 <= tries <= |stopWaits| + 1 else tries == 0
      ensures old(sender) ==> thread.t.s.phase == Dropped && leaked == old(thread.t.slotLeaks)
      ensures outcome == if old(handle) then JoinedAs(thread) else Success
      ensures !old(thread.panicked) && NoPanic(stopWaits) && NoPanic(joinWaits) ==> !thread.panicked
      ensures old(thread.result.Some?) ==> thread.result == old(thread.result)
      ensures old(sender) && Looks(joinWaits) >= Enough(thread.t.p) ==> outcome != TimedOut
    {
      hide WorkerThread.Valid, NothingUndone, Winds, NoPanic, Looks, JoinedAs;
      outcome, leaked, tries := WindDown(thread, sender, handle, failedObserved, stopWaits, joinWaits);
      Apart();
      sender, handle := false, false;
    }

    // The outcome of a recording: how the thread ended, or a loss if anything was
    // counted. Exit code zero means the worker returned without an error and no
    // overrun was counted; no slot can have leaked then. Every part file is finished
    // under an exact header and holds its part durably; every block ever offered was
    // confirmed and written, none was too long to be offered, and all of them are in
    // the files, in order, unless blocks were written before any format, which takes an
    // unclean discard. Waits that leave the worker its steps do not time out.
    method Shutdown(failedObserved: bool, stopWaits: seq<Wait>, joinWaits: seq<Wait>)
      returns (outcome: Outcome, ghost tries: nat)
      requires Valid() && handle && sender
      modifies this, thread, thread.t, thread.sess.Footprint()
      ensures Valid() && teardownDone && thread.t.s.phase == Dropped
      ensures Winds(old(thread.t.Here()), thread.t.Here(), tries) && (failedObserved <==> tries == 0)
      ensures NothingUndone(old(thread.sess.OnDisk()), thread.sess.OnDisk())
      ensures outcome == ClassifyLoss(JoinedAs(thread), old(thread.t.slotLeaks), thread.t.overruns, thread.t.overrunFrames)
      ensures old(thread.result.Some?) ==> thread.result == old(thread.result)
      ensures ExitCode(outcome) == 0 <==> thread.Returned() && thread.t.overruns == 0
      ensures (outcome.TimedOut? <==> !thread.Finished()) && (outcome.Panicked? <==> thread.panicked)
      ensures outcome.Failed? <==> !thread.panicked && thread.result.Some? && thread.result.value.Err?
      ensures ExitCode(outcome) == 0 ==> Lossless(thread.t, thread.sess)
      ensures !old(thread.panicked) && NoPanic(stopWaits) && NoPanic(joinWaits) && Looks(joinWaits) >= Enough(thread.t.p) ==>
                !thread.panicked && thread.result.Some?
    {
      hide WorkerThread.Valid, NothingUndone, Lossless, Winds, NoPanic, Looks;
      ghost var before, was := thread.t.Here(), thread.result;
      ThreadCounts();
      ghost var leaks := thread.t.slotLeaks;
      LeaksNeedRefusal();
      var joined, leaked;
      joined, leaked, tries := Teardown(failedObserved, stopWaits, joinWaits);
      Apart();
      teardownDone := true;
      outcome := ClassifyLoss(joined, leaked, thread.t.overruns, thread.t.overrunFrames);
      ThreadCounts();
      WindsOffers(before, thread.t.Here(), tries);
      if outcome == Success { CleanIsLossless(thread); }
    }

    lemma ThreadCounts()
      requires thread.Valid()
      ensures thread.t.overrunFrames == 0 <==> thread.t.overruns == 0
      ensures thread.t.overruns == thread.t.s.refused + thread.t.oversized
    {
      hide Transport.Valid, Session.Valid, Session.Salvage, Session.Consistent, PartsOf, Whole, Halted, Looking;
    }

    // As long as the worker has not failed a slot leaks only with a refused block.
    lemma LeaksNeedRefusal()
      requires thread.Valid()
      ensures thread.t.s.refused == 0 && (thread.result.Some? ==> thread.result.value.Ok?) ==> thread.t.slotLeaks == 0
    {
      hide Exec, Stored, Session.Valid, Session.Salvage, Session.Consistent, PartsOf, Whole, Halted, Owning, RingsOrdered;
      RunKeeps(thread.t.p, thread.t.run);
    }

    // A guard that was shut down does nothing when it is dropped.
    method Drop(failedObserved: bool, stopWaits: seq<Wait>, joinWaits: seq<Wait>) returns (ghost tries: nat)
      requires Valid()
      modifies this, thread, thread.t, thread.sess.Footprint()
      ensures Valid() && teardownDone && Winds(old(thread.t.Here()), thread.t.Here(), tries)
      ensures NothingUndone(old(thread.sess.OnDisk()), thread.sess.OnDisk())
      ensures old(teardownDone) ==>
                thread.t.Here() == old(thread.t.Here()) && thread.sess.OnDisk() == old(thread.sess.OnDisk())
      ensures !old(teardownDone) && old(sender) ==> thread.t.s.phase == Dropped && (failedObserved <==> tries == 0)
      ensures !old(teardownDone) ==> !sender && !handle
      ensures !old(teardownDone) && old(sender) && old(handle)
              && !old(thread.panicked) && NoPanic(stopWaits) && NoPanic(joinWaits) && Looks(joinWaits) >= Enough(thread.t.p) ==>
                !thread.panicked && thread.result.Some?
    {
      hide WorkerThread.Valid, NothingUndone, Winds, NoPanic, Looks;
      Standstill(thread.t.Here(), thread.sess.OnDisk());
      WindsByWork(thread.t.Here(), thread.t.Here());
      tries := 0;
      if teardownDone { return; }
      var outcome, leaked;
      outcome, leaked, tries := Teardown(failedObserved, stopWaits, joinWaits);
      Apart();
      teardownDone := true;
    }
  }

  lemma WindsOffers(before: Point, after: Point, tries: nat)
    requires Winds(before, after, tries)
    ensures SameOffers(before, after) && before.run <= after.run
  {
  }

  // Looks that empty any rings: for the worst case of both, and the exit.
  function Enough(p: Params): nat {
    4 * (p.w + p.c + 1)
  }

  // ----- a whole recording -----

  // One call of the audio callback, while the thread is between two looks.
  method CallBack(thread: WorkerThread, call: SenderCall)
    requires thread.Valid() && thread.t.s.phase == Live && Recording(call)
    modifies thread.t, thread.t.Store()
    ensures thread.Valid() && thread.t.s.phase == Live
    ensures thread.t.run == old(thread.t.run) + CallSteps(thread.t.p, old(thread.t.s), call)
    ensures HeardOne(old(thread.t.Here()), thread.t.Here(), call)
  {
    hide Transport.Valid, Session.Valid, Session.Salvage, Session.Consistent, PartsOf, Whole, Halted, Looking, CallSteps,
         HeardOne;
    thread.Apart();
    Separate(thread.t, thread.sess);
    MakeCall(thread.t, call);
  }

  function CallsOf(callbacks: seq<(SenderCall, Wait)>): seq<SenderCall> {
    if callbacks == [] then [] else CallsOf(callbacks[..|callbacks| - 1]) + [callbacks[|callbacks| - 1].0]
  }

  // Every announcement of a run is one of the callbacks'.
  predicate FromCalls(run: seq<Action>, calls: seq<SenderCall>) {
    forall a <- run :: a.Announce? ==> Announcement(a.meta) in calls
  }

  lemma StepsAnnounce(p: Params, s: State, call: SenderCall, run: seq<Action>, calls: seq<SenderCall>)
    requires FromCalls(run, calls)
    ensures FromCalls(run + CallSteps(p, s, call), calls + [call])
  {
    forall a <- run + CallSteps(p, s, call) ensures a.Announce? ==> Announcement(a.meta) in calls + [call] {
      if a in run { assert forall c <- calls :: c in calls + [call]; }
    }
  }

  lemma WindsAnnounceNothing(before: Point, after: Point, stops: nat, calls: seq<SenderCall>)
    requires Winds(before, after, stops) && FromCalls(before.run, calls)
    ensures FromCalls(after.run, calls)
  {
    assert after.run == before.run + after.run[|before.run|..];
  }

  // One call and the wait after it.
  method RecordOne(thread: WorkerThread, call: SenderCall, wait: Wait, ghost earlier: seq<SenderCall>)
    requires thread.Valid() && thread.t.s.phase == Live && Recording(call) && FromCalls(thread.t.run, earlier)
    modifies thread, thread.t, thread.t.Store(), thread.sess.Footprint()
    ensures thread.Valid() && thread.t.s.phase == Live
    ensures fresh(thread.sess.Footprint() - old(thread.sess.Footprint()))
    ensures NothingUndone(old(thread.sess.OnDisk()), thread.sess.OnDisk())
    ensures Heard(old(thread.t.Here()), thread.t.Here(), [call], 1) && FromCalls(thread.t.run, earlier + [call])
    ensures !old(thread.panicked) && !wait.panics ==> !thread.panicked
    ensures old(thread.Finished()) ==> thread.Finished()
    ensures thread.t.p.Legal()
            && RoundTaken(thread.t.p, old(thread.t.run), thread.t.run, Round([call], wait.looks), thread.Finished())
  {
    hide WorkerThread.Valid, NothingUndone, Onward, Heard, HeardOne, FromCalls, CallSteps, RoundTaken, Took;
    thread.Reaches();
    ghost var before := thread.t.Here();
    CallBack(thread, call);
    OneIsHeard(before, thread.t.Here(), call);
    StepsAnnounce(thread.t.p, before.s, call, before.run, earlier);
    ghost var here := thread.t.Here();
    thread.Run(wait);
    OneRound(thread.t.p, before, call, here, thread.t.Here(), wait.looks, thread.Finished());
    Kept(here, thread.t.Here());
    HeardWorkAfter(before, here, thread.t.Here(), [call]);
    WindsByWork(here, thread.t.Here());
    WindsAnnounceNothing(here, thread.t.Here(), 0, earlier + [call]);
  }

  lemma OneRound(p: Params, before: Point, call: SenderCall, here: Point, after: Point, looks: nat, ended: bool)
    requires p.Legal() && before.s == Exec(p, before.run) && here.run == before.run + CallSteps(p, before.s, call)
    requires Onward(here, after) && (ended || Took(here, after, looks))
    ensures RoundTaken(p, before.run, after.run, Round([call], looks), ended)
  {
    hide StepsLeft, CallSteps, WorkOnly, Exec;
    assert [call][..0] == [];
    assert AfterCalls(p, before.run, []) == before.run;
    assert AfterCalls(p, before.run, [call]) == here.run;
  }

  function RoundsOf(callbacks: seq<(SenderCall, Wait)>): seq<Round> {
    if callbacks == [] then []
    else
      var last := callbacks[|callbacks| - 1];
      RoundsOf(callbacks[..|callbacks| - 1]) + [Round([last.0], last.1.looks)]
  }

  // The callbacks were made in turn, each followed by its wait: their quanta were
  // heard, no announcement is anybody else's, and the run is their rounds.
  ghost predicate Made(p: Params, before: Point, after: Point, callbacks: seq<(SenderCall, Wait)>,
                       earlier: seq<SenderCall>, ended: bool)
    requires p.Legal()
  {
    && Heard(before, after, CallsOf(callbacks), |CallsOf(callbacks)|)
    && FromCalls(after.run, earlier + CallsOf(callbacks))
    && Alternates(p, before.run, after.run, RoundsOf(callbacks), ended)
  }

  lemma NothingMade(p: Params, here: Point, earlier: seq<SenderCall>, ended: bool)
    requires p.Legal() && FromCalls(here.run, earlier)
    ensures Made(p, here, here, [], earlier, ended)
  {
    hide FromCalls;
    NothingHeard(here);
    NoRounds(p, here.run, ended);
    assert earlier + [] == earlier;
  }

  lemma OneMoreMade(p: Params, a: Point, b: Point, c: Point, callbacks: seq<(SenderCall, Wait)>,
                    callback: (SenderCall, Wait), earlier: seq<SenderCall>, before: bool, ended: bool)
    requires p.Legal() && Made(p, a, b, callbacks, earlier, before) && b.s.phase == Live && (before ==> ended)
    requires Heard(b, c, [callback.0], 1) && FromCalls(c.run, (earlier + CallsOf(callbacks)) + [callback.0])
    requires RoundTaken(p, b.run, c.run, Round([callback.0], callback.1.looks), ended)
    ensures Made(p, a, c, callbacks + [callback], earlier, ended)
  {
    hide Heard, FromCalls, Alternates, RoundTaken;
    var said := CallsOf(callbacks);
    assert (callbacks + [callback])[..|callbacks|] == callbacks;
    HeardTwice(a, b, c, said, |said|, [callback.0], 1);
    assert (earlier + said) + [callback.0] == earlier + (said + [callback.0]);
    OneMoreRound(p, a.run, b.run, c.run, RoundsOf(callbacks), Round([callback.0], callback.1.looks), before, ended);
  }

  // The next callback.
  method RecordNext(thread: WorkerThread, callbacks: seq<(SenderCall, Wait)>, i: nat,
                    ghost start: Point, ghost earlier: seq<SenderCall>)
    requires thread.Valid() && thread.t.s.phase == Live && i < |callbacks| && Recording(callbacks[i].0)
    requires thread.t.p.Legal() && Made(thread.t.p, start, thread.t.Here(), callbacks[..i], earlier, thread.Finished())
    modifies thread, thread.t, thread.t.Store(), thread.sess.Footprint()
    ensures thread.Valid() && thread.t.s.phase == Live
    ensures fresh(thread.sess.Footprint() - old(thread.sess.Footprint()))
    ensures NothingUndone(old(thread.sess.OnDisk()), thread.sess.OnDisk())
    ensures Made(thread.t.p, start, thread.t.Here(), callbacks[..i + 1], earlier, thread.Finished())
    ensures !old(thread.panicked) && !callbacks[i].1.panics ==> !thread.panicked
  {
    hide WorkerThread.Valid, NothingUndone, Made, Heard, FromCalls, Recording, RoundTaken;
    ghost var here, said, ended := thread.t.Here(), CallsOf(callbacks[..i]), thread.Finished();
    MadeFrom(thread.t.p, start, here, callbacks[..i], earlier, ended);
    RecordOne(thread, callbacks[i].0, callbacks[i].1, earlier + said);
    OneMoreMade(thread.t.p, start, here, thread.t.Here(), callbacks[..i], callbacks[i], earlier, ended, thread.Finished());
    assert callbacks[..i + 1] == callbacks[..i] + [callbacks[i]];
  }

  // Calls and waits in turn: every call is made and heard, and every wait gives the
  // worker its looks.
  method Record(thread: WorkerThread, callbacks: seq<(SenderCall, Wait)>, ghost earlier: seq<SenderCall>)
    requires thread.Valid() && thread.t.s.phase == Live && FromCalls(thread.t.run, earlier)
    requires forall i :: 0 <= i < |callbacks| ==> Recording(callbacks[i].0)
    modifies thread, thread.t, thread.t.Store(), thread.sess.Footprint()
    ensures thread.Valid() && thread.t.s.phase == Live && thread.t.p.Legal()
    ensures fresh(thread.sess.Footprint() - old(thread.sess.Footprint()))
    ensures NothingUndone(old(thread.sess.OnDisk()), thread.sess.OnDisk())
    ensures Made(thread.t.p, old(thread.t.Here()), thread.t.Here(), callbacks, earlier, thread.Finished())
    ensures !old(thread.panicked) && CalmWaits(callbacks) ==> !thread.panicked
  {
    hide WorkerThread.Valid, NothingUndone, Made, FromCalls, Recording;
    thread.Reaches();
    ghost var start, was := thread.t.Here(), thread.sess.OnDisk();
    NothingMade(thread.t.p, start, earlier, thread.Finished());
    Untouched(was);
    assert callbacks[..0] == [];
    for i := 0 to |callbacks|
      invariant thread.Valid() && thread.t.s.phase == Live && thread.t.p.Legal()
      invariant fresh(thread.sess.Footprint() - old(thread.sess.Footprint()))
      invariant NothingUndone(was, thread.sess.OnDisk())
      invariant Made(thread.t.p, start, thread.t.Here(), callbacks[..i], earlier, thread.Finished())
      invariant !old(thread.panicked) && CalmWaits(callbacks) ==> !thread.panicked
    {
      ghost var disk := thread.sess.OnDisk();
      RecordNext(thread, callbacks, i, start, earlier);
      UndoneTwice(was, disk, thread.sess.OnDisk());
    }
    assert callbacks[..|callbacks|] == callbacks;
  }

  lemma MadeFrom(p: Params, before: Point, after: Point, callbacks: seq<(SenderCall, Wait)>,
                 earlier: seq<SenderCall>, ended: bool)
    requires p.Legal() && Made(p, before, after, callbacks, earlier, ended)
    ensures Heard(before, after, CallsOf(callbacks), |CallsOf(callbacks)|)
    ensures FromCalls(after.run, earlier + CallsOf(callbacks))
    ensures Alternates(p, before.run, after.run, RoundsOf(callbacks), ended)
  {
  }

  lemma NoRounds(p: Params, run: seq<Action>, ended: bool)
    requires p.Legal()
    ensures Alternates(p, run, run, [], ended)
  {
  }

  predicate CalmWaits(callbacks: seq<(SenderCall, Wait)>) {
    forall i :: 0 <= i < |callbacks| ==> !callbacks[i].1.panics
  }

  lemma NothingFromNobody()
    ensures FromCalls([], [])
  {
  }

  lemma HeardWorkAfter(a: Point, b: Point, c: Point, calls: seq<SenderCall>)
    requires Heard(a, b, calls, |calls|) && Onward(b, c) && b.s.phase == Live
    ensures Heard(a, c, calls, |calls|)
  {
    hide Heard;
    HeardWork(b, c);
    HeardTwice(a, b, c, calls, |calls|, [], 0);
    assert calls + [] == calls;
  }

  // What a recording that reports success leaves.
  ghost predicate Lossless(t: Transport, sess: Session)
    reads t, t.Store(), sess, sess.dir, sess.dir.device, sess.summary, sess.files
  {
    && t.p.Legal() && sess.Consistent() && Whole(sess.files, sess.hound, sess.parts)
    && t.oversized == 0 && t.slotLeaks == 0 && |t.free| == t.p.n
    && t.s.offered == AudioOf(t.s.accepted) == AudioOf(t.s.written)
    && (BlocksIn(sess.parts) == t.s.offered <==> t.s.written == [] || t.s.written[0].Format?)
    && (sess.parts == PartsOf(sess.hound, t.s.accepted) <==> CleanDiscards(t.p, t.run))
    && (CleanDiscards(t.p, t.run) ==> BlocksIn(sess.parts) == t.s.offered)
  }

  // The recording holds what the callbacks sent.
  ghost predicate Holds(t: Transport, sess: Session, calls: seq<SenderCall>)
    reads t, t.Store(), sess, sess.dir, sess.dir.device, sess.summary, sess.files
  {
    && Lossless(t, sess) && TooLong(calls) == 0 && AudioOf(t.s.written) == QuantaOf(calls)
    && (CleanDiscards(t.p, t.run) ==> BlocksIn(sess.parts) == QuantaOf(calls))
  }

  // The transport, the session and the thread of a new recording.
  method Start(p: Params, hound: Encoder, interval: AudioMetadata -> nat, dir: Naming.Directory)
    returns (thread: WorkerThread)
    requires p.Legal() && Regular(hound)
    ensures fresh(thread) && fresh(thread.t) && fresh(thread.t.Store()) && fresh(thread.sess.Footprint() - {dir, dir.device})
    ensures thread.Valid() && thread.t.p == p && thread.sess.hound == hound && thread.sess.dir == dir
    ensures thread.sess.baseline == dir.device.faults && !thread.panicked && thread.t.s.phase == Live
    ensures thread.t.run == [] && thread.t.s.offered == [] && thread.t.oversized == 0
  {
    hide Transport.Valid, Transport.Accounted, Session.Valid, WorkerThread.Valid, Linked, Regular;
    var t := new Transport(p);
    var sess := new Session(hound, interval, dir);
    StartsLinked(t, sess);
    thread := new WorkerThread(t, sess);
  }

  // A recording from its first callback to its exit code. Every quantum that fits a
  // block was offered, every longer one counted; exit code zero means the files hold
  // the quanta of the callbacks, all of them, in order. And on a backend that does not
  // fail, in a directory that is not full, with formats the encoder accepts, waits that
  // are long enough and no panic, the code is zero exactly if there was no overrun.
  method RecordAndShutDown(p: Params, hound: Encoder, interval: AudioMetadata -> nat, dir: Naming.Directory,
                           callbacks: seq<(SenderCall, Wait)>, failedObserved: bool,
                           stopWaits: seq<Wait>, joinWaits: seq<Wait>)
    returns (outcome: Outcome, t: Transport, sess: Session, ghost recorded: seq<Action>, ghost ended: bool)
    requires p.Legal() && Regular(hound)
    requires forall i :: 0 <= i < |callbacks| ==> Recording(callbacks[i].0)
    modifies dir, dir.device
    ensures Preserved(old(dir.entries), dir.entries) && sess.dir == dir && sess.hound == hound && t.p == p
    ensures recorded <= t.run && Alternates(p, [], recorded, RoundsOf(callbacks), ended)
    ensures ended && CalmWaits(callbacks) ==> t.s.worker.Failed?
    ensures t.s.offered == QuantaOf(CallsOf(callbacks)) && t.oversized == TooLong(CallsOf(callbacks))
    ensures ExitCode(outcome) == 0 ==> Holds(t, sess, CallsOf(callbacks))
    ensures Favourable(callbacks, stopWaits, joinWaits, p, hound) && dir.device.faults == old(dir.device.faults)
            && |dir.entries| <= U32_MAX ==>
              (outcome.Success? || outcome.SuccessWithLoss?) && (ExitCode(outcome) == 0 <==> t.overruns == 0)
  {
    hide WorkerThread.Valid, NothingUndone, Regular, Lossless, Winds, Heard, QuantaOf, TooLong, FromCalls, Favourable,
         Preserved;
    var thread := Start(p, hound, interval, dir);
    t, sess := thread.t, thread.sess;
    ghost var disk := sess.OnDisk();
    outcome, recorded, ended := RecordAndEnd(thread, callbacks, failedObserved, stopWaits, joinWaits);
    EntriesStay(disk, sess.OnDisk());
  }

  // The recording of a thread that was just started.
  method RecordAndEnd(thread: WorkerThread, callbacks: seq<(SenderCall, Wait)>, failedObserved: bool,
                      stopWaits: seq<Wait>, joinWaits: seq<Wait>)
    returns (outcome: Outcome, ghost recorded: seq<Action>, ghost ended: bool)
    requires thread.Valid() && thread.t.s.phase == Live && !thread.panicked
    requires thread.t.run == [] && thread.t.s.offered == [] && thread.t.oversized == 0
    requires forall i :: 0 <= i < |callbacks| ==> Recording(callbacks[i].0)
    modifies thread, thread.t, thread.t.Store(), thread.sess.Footprint()
    ensures NothingUndone(old(thread.sess.OnDisk()), thread.sess.OnDisk())
    ensures thread.t.p.Legal() && recorded <= thread.t.run
            && Alternates(thread.t.p, [], recorded, RoundsOf(callbacks), ended)
    ensures ended && CalmWaits(callbacks) ==> thread.t.s.worker.Failed?
    ensures thread.t.s.offered == QuantaOf(CallsOf(callbacks)) && thread.t.oversized == TooLong(CallsOf(callbacks))
    ensures ExitCode(outcome) == 0 ==> Holds(thread.t, thread.sess, CallsOf(callbacks))
    ensures Favourable(callbacks, stopWaits, joinWaits, thread.t.p, thread.sess.hound)
            && thread.sess.dir.device.faults == thread.sess.baseline && |thread.sess.dir.entries| <= U32_MAX ==>
              (outcome.Success? || outcome.SuccessWithLoss?) && (ExitCode(outcome) == 0 <==> thread.t.overruns == 0)
  {
    hide WorkerThread.Valid, NothingUndone, Lossless, Winds, Heard, QuantaOf, TooLong, FromCalls, Looks, NoPanic, Made,
         CalmWaits, Alternates;
    ghost var here, disk := thread.t.Here(), thread.sess.OnDisk();
    NothingFromNobody();
    Record(thread, callbacks, []);
    assert [] + CallsOf(callbacks) == CallsOf(callbacks);
    ghost var done, told := thread.sess.OnDisk(), thread.t.Here();
    recorded, ended := told.run, thread.Finished();
    MadeFrom(thread.t.p, here, told, callbacks, [], ended);
    AllHeard(here, told, CallsOf(callbacks));
    ghost var failed := thread.result;
    if failed.Some? { thread.LiveMeansFailed(); }
    var guard := new RecordingWorkerGuard(thread);
    ghost var tries;
    outcome, tries := guard.Shutdown(failedObserved, stopWaits, joinWaits);
    UndoneTwice(disk, done, thread.sess.OnDisk());
    WindsOffers(told, thread.t.Here(), tries);
    WindsAnnounceNothing(told, thread.t.Here(), tries, CallsOf(callbacks));
    if failed.Some? { thread.ErrMeansFailed(); }
    if ExitCode(outcome) == 0 { LosslessHolds(thread.t, thread.sess, CallsOf(callbacks)); }
    if Favourable(callbacks, stopWaits, joinWaits, thread.t.p, thread.sess.hound) && thread.result.Some?
       && thread.sess.dir.device.faults == thread.sess.baseline && |thread.sess.dir.entries| <= U32_MAX {
      NoReasonToFail(thread, CallsOf(callbacks));
    }
  }

  // Nobody panics, the join waits long enough and every format is acceptable.
  ghost predicate Favourable(callbacks: seq<(SenderCall, Wait)>, stopWaits: seq<Wait>, joinWaits: seq<Wait>,
                             p: Params, hound: Encoder)
  {
    && CalmWaits(callbacks) && NoPanic(stopWaits) && NoPanic(joinWaits)
    && Looks(joinWaits) >= Enough(p)
    && forall call <- CallsOf(callbacks) :: call.Announcement? ==> !WavWriter.Refused(hound(call.meta), call.meta)
  }

  lemma AllHeard(before: Point, after: Point, calls: seq<SenderCall>)
    requires Heard(before, after, calls, |calls|) && before.s.offered == [] && before.oversized == 0
    ensures after.s.offered == QuantaOf(calls) && after.oversized == TooLong(calls)
  {
    assert calls[..|calls|] == calls;
  }

  lemma LosslessHolds(t: Transport, sess: Session, calls: seq<SenderCall>)
    requires Lossless(t, sess) && t.s.offered == QuantaOf(calls) && t.oversized == TooLong(calls)
    ensures Holds(t, sess, calls)
  {
    hide CleanDiscards, PartsOf, BlocksIn, Whole, AudioOf, Session.Consistent, QuantaOf, TooLong;
  }

  // Without a fault, a refused format or a full directory the worker has no error.
  lemma NoReasonToFail(thread: WorkerThread, calls: seq<SenderCall>)
    requires thread.Valid() && thread.result.Some? && FromCalls(thread.t.run, calls)
    requires thread.sess.dir.device.faults == thread.sess.baseline && |thread.sess.dir.entries| <= U32_MAX
    requires forall call <- calls ::
               call.Announcement? ==> !WavWriter.Refused(thread.sess.hound(call.meta), call.meta)
    ensures thread.result.value.Ok?
  {
    hide Exec, Stored, Session.Salvage, Session.Consistent, Whole, Halted, PartsOf, WavWriter.Refused, Naming.NoNameLeft;
    var t, sess := thread.t, thread.sess;
    if thread.result.value.Err? {
      Naming.NamesAreLeft(sess.dir.entries.Keys, |sess.parts| + 1);
      if RefusedInHand(sess.hound, t.s.worker.unwritten) {
        FailedFormatWasAnnounced(t.p, t.run, t.s.worker.unwritten[0].meta);
      }
    }
  }

  lemma CleanIsLossless(thread: WorkerThread)
    requires thread.Valid() && thread.Returned() && thread.t.overruns == 0
    ensures Lossless(thread.t, thread.sess)
  {
    hide CleanDiscards, PartsOf, BlocksIn, Whole, AudioOf, Session.Consistent, Ended, Linked;
    EndedIsLegal(thread.t, thread.sess, thread.result.value);
    PoolMatchesInline(thread.t, thread.sess);
    UnrefusedSessionIsLossless(thread.t, thread.sess);
  }

  lemma EndedIsLegal(t: Transport, sess: Session, r: Result<(), IoError>)
    requires Ended(t, sess, r) && r.Ok?
    ensures Ended(t, sess, Ok(()))
    ensures t.p.Legal() && sess.Consistent() && Whole(sess.files, sess.hound, sess.parts)
  {
    hide Exec, Stored, Whole, Session.Consistent, PartsOf;
  }

  lemma ApplyLeaks(s: State, d: Descriptor, draining: bool, io: bool)
    ensures var a, b := PairStep(s, d, draining, io), BlockStep(s, d, draining, io);
            && (a.leaks > s.leaks ==> a.worker.Failed?) && (b.leaks > s.leaks ==> b.worker.Failed?)
  {
    hide Sub16;
  }

  lemma EmptyLeaks(s: State, io: bool)
    ensures EmptyStep(s, io).leaks == s.leaks
    ensures s.work != [] ==> PopStep(s, true).leaks == s.leaks == PopStep(s, false).leaks
  {
  }

  // Slots the worker drops are only ever lost together with its error.
  lemma WorkerLeaksMeanFailure(p: Params, run: seq<Action>, io: bool)
    requires p.Legal() && Next(p, Exec(p, run), Work(io)).leaks > Exec(p, run).leaks
    ensures Next(p, Exec(p, run), Work(io)).worker.Failed?
  {
    hide Exec, RingsOrdered, Bookkeeping, Places, PairStep, BlockStep, EmptyStep, PopStep;
    RunKeeps(p, run);
    var s := Exec(p, run);
    EmptyLeaks(s, io);
    if s.worker.InFlight? { ApplyLeaks(s, s.worker.desc, s.worker.draining, io); }
    if s.worker.Releasing? && !IsBarrier(s.worker.desc) { ReleaseFits(p, s); }
  }
}
