/**
 Shutdown: once the sender is gone the worker runs out of work and exits, and
 what is left of the rings then. Also the one interleaving that loses a format.
 */
module PipelineDrain {
  import opened Wrappers
  import opened Buffer
  import opened Pipeline
  import opened Pairing
  import opened PipelineInvariants
  import opened PipelineTheorems
  import opened PipelineLosses

  predicate Exited(s: State) {
    s.worker == Done || s.worker.Failed?
  }

  // An upper bound on the worker steps left once nothing can be pushed.
  function StepsLeft(s: State): nat {
    if Exited(s) then 0
    else
      4 * |s.work| + 4 * |s.control| +
      match s.worker
      case Polling => 2
      case SawEmpty => if s.work == [] then 1 else 3
      case InFlight(_, _) => 4
      case Releasing(_, _) => 3
      case _ => 2
  }

  lemma StepTowardsExit(p: Params, s: State, io: bool)
    requires p.Legal() && Sound(p, s) && s.phase == Dropped
    ensures var s' := WorkStep(p, s, io);
            StepsLeft(s') < StepsLeft(s) || (Exited(s) && s' == s)
  {
    if s.worker.InFlight? && !IsBarrier(s.worker.desc) { HeldIsIndex(p, s, s.worker.desc.slot); }
    hide Sound, Sub16;
  }

  function Works(ios: seq<bool>): seq<Action> {
    if ios == [] then [] else [Work(ios[0])] + Works(ios[1..])
  }

  // The state reached from `s` by `run`, first action first.
  function Continue(p: Params, s: State, run: seq<Action>): State
    decreases |run|
  {
    if run == [] then s else Continue(p, Next(p, s, run[0]), run[1..])
  }

  lemma {:induction false} ExecContinues(p: Params, run: seq<Action>, rest: seq<Action>)
    requires p.Legal()
    ensures Exec(p, run + rest) == Continue(p, Exec(p, run), rest)
    decreases |rest|
  {
    if rest == [] {
      assert run + rest == run;
    } else {
      var next := run + [rest[0]];
      assert next[..|next| - 1] == run;
      assert run + rest == next + rest[1..];
      ExecContinues(p, next, rest[1..]);
    }
  }

  lemma {:induction false} DrainFrom(p: Params, s: State, ios: seq<bool>)
    requires p.Legal() && Sound(p, s) && s.phase == Dropped && |ios| >= StepsLeft(s)
    ensures Exited(Continue(p, s, Works(ios)))
    decreases |ios|
  {
    hide Sound, WorkStep, StepsLeft, Exited;
    ExitedIsZero(s);
    if ios != [] {
      var a := Work(ios[0]);
      SoundKept(p, s, a);
      WorkKeeps(p, s, ios[0]);
      StepTowardsExit(p, s, ios[0]);
      DrainFrom(p, Next(p, s, a), ios[1..]);
      assert Works(ios)[1..] == Works(ios[1..]);
    }
  }

  // Whatever the disk answers, that many worker steps bring the worker to its exit.
  lemma DrainTerminates(p: Params, run: seq<Action>, ios: seq<bool>)
    requires p.Legal() && Exec(p, run).phase == Dropped && |ios| >= StepsLeft(Exec(p, run))
    ensures Exited(Exec(p, run + Works(ios)))
  {
    RunKeeps(p, run);
    DrainFrom(p, Exec(p, run), ios);
    ExecContinues(p, run, Works(ios));
  }

  lemma ExitedIsZero(s: State)
    ensures Exited(s) <==> StepsLeft(s) == 0
  {
  }

  // At a clean exit both rings are empty and every index is back in the free
  // ring, except what a refused publish lost; with no refusal that is every index.
  // In every run every confirmed block was written, in order: only formats can be
  // missing.
  lemma ExitIsIntegral(p: Params, run: seq<Action>)
    requires p.Legal() && Exec(p, run).worker == Done
    ensures var s := Exec(p, run);
            && s.work == [] && s.control == [] && s.sender == Idle
            && (s.lost != [] ==> s.refused > 0) && s.leaks == |s.lost|
            && (s.refused == 0 ==> |s.free| == p.n)
            && (s.refused == 0 ==> forall i: u16 :: Occurs(s.free, i) == if i < p.n then 1 else 0)
            && LessFormats(s.written, s.accepted) && AudioOf(s.written) == AudioOf(s.accepted)
  {
    hide Exec, AudioOf, LessFormats, Consecutive;
    var s := Exec(p, run);
    RunKeeps(p, run);
    OnlyFormatsAreLost(p, run);
    NothingRemains(s);
    LessKeepsAudio(s.written, s.accepted);
    if s.refused == 0 {
      forall i: u16 ensures Occurs(s.free, i) == if i < p.n then 1 else 0 {
        assert Places(s, i) == Occurs(s.free, i);
      }
    }
  }

  lemma NothingRemains(s: State)
    requires s.worker == Done && s.work == []
    ensures s.written + Remaining(s) == s.written
  {
  }

  // Nothing refused and a clean exit: every block ever offered was confirmed and
  // written, in order, and every format too if and only if the discards were clean.
  lemma UnrefusedIsLossless(p: Params, run: seq<Action>)
    requires p.Legal() && Exec(p, run).worker == Done && Exec(p, run).refused == 0
    ensures var s := Exec(p, run);
            && s.offered == AudioOf(s.accepted) == AudioOf(s.written)
            && (s.written == s.accepted <==> CleanDiscards(p, run))
  {
    hide Exec, CleanDiscards, AudioOf, LessFormats;
    RunKeeps(p, run);
    DrainIsExact(p, run);
    ExitIsIntegral(p, run);
    hide Faithful, Owning;
  }

  // ----- the interleaving that loses a confirmed format -----

  // The worker finds the work ring empty. Before it looks at the control ring the
  // sender announces a format, publishes a block and is dropped.
  function Slip(meta: AudioMetadata, block: Block): seq<Action> {
    [Work(true), Announce(meta), PushBarrier, Offer(block), Fill, Publish, DropSender]
  }

  const SMALLEST := Params(1, 1, 2)

  // The transport when the worker looks at the control ring.
  function SlippedIn(meta: AudioMetadata, block: Block): State {
    State([], [Barrier(1), Descriptor(0, |block|)], [Metadata(1, meta)], [block], None, 2, true,
          Dropped, Idle, SawEmpty, [], 0, [block], 0, [Format(meta), Audio(block)], [])
  }

  lemma SlipReaches(meta: AudioMetadata, block: Block)
    ensures Continue(SMALLEST, Initial(SMALLEST), Slip(meta, block)) == SlippedIn(meta, block)
  {
    var p, run := SMALLEST, Slip(meta, block);
    assert Indices(1) == [0];
    var s0 := Initial(p);
    assert s0.slots == [[]];
    var s1 := Next(p, s0, run[0]);
    var s2 := Next(p, s1, run[1]);
    var s3 := Next(p, s2, run[2]);
    assert s3 == s0.(worker := SawEmpty, control := [Metadata(1, meta)], next := 2, confirmed := true,
                     work := [Barrier(1)], accepted := [Format(meta)]);
    var s4 := Next(p, s3, run[3]);
    var s5 := Next(p, s4, run[4]);
    var s6 := Next(p, s5, run[5]);
    var s7 := Next(p, s6, run[6]);
    assert s7 == SlippedIn(meta, block);
    hide Next;
    Unroll(p, s0, run, s1);
    Unroll(p, s1, run[1..], s2);
    Unroll(p, s2, run[2..], s3);
    Unroll(p, s3, run[3..], s4);
    Unroll(p, s4, run[4..], s5);
    Unroll(p, s5, run[5..], s6);
    Unroll(p, s6, run[6..], s7);
  }

  lemma Unroll(p: Params, s: State, run: seq<Action>, s': State)
    requires run != [] && s' == Next(p, s, run[0])
    ensures Continue(p, s, run) == Continue(p, s', run[1..])
  {
  }

  // The worker then discards the metadata, skips its barrier and writes the block.
  lemma SlipDrains(meta: AudioMetadata, block: Block)
    ensures Continue(SMALLEST, SlippedIn(meta, block), seq(9, _ => Work(true)))
         == SlippedIn(meta, block).(worker := Done, work := [], control := [], free := [0], written := [Audio(block)])
  {
    var p, s7, run := SMALLEST, SlippedIn(meta, block), seq(9, _ => Work(true));
    var s8 := Next(p, s7, Work(true));
    var s9 := Next(p, s8, Work(true));
    var s10 := Next(p, s9, Work(true));
    var s11 := Next(p, s10, Work(true));
    assert s11 == s7.(worker := Polling, work := [Descriptor(0, |block|)], control := []);
    var s12 := Next(p, s11, Work(true));
    var s13 := Next(p, s12, Work(true));
    var s14 := Next(p, s13, Work(true));
    var s15 := Next(p, s14, Work(true));
    var s16 := Next(p, s15, Work(true));
    assert s16 == s7.(worker := Done, work := [], control := [], free := [0], written := [Audio(block)]);
    hide Next;
    Unroll(p, s7, run, s8);
    Unroll(p, s8, run[1..], s9);
    Unroll(p, s9, run[2..], s10);
    Unroll(p, s10, run[3..], s11);
    Unroll(p, s11, run[4..], s12);
    Unroll(p, s12, run[5..], s13);
    Unroll(p, s13, run[6..], s14);
    Unroll(p, s14, run[7..], s15);
    Unroll(p, s15, run[8..], s16);
  }

  // A clean exit, nothing refused, and yet the confirmed format is never written.
  lemma EmptyCheckCanLoseFormat(meta: AudioMetadata, block: Block)
    ensures var run := Slip(meta, block) + seq(9, _ => Work(true));
            var s := Exec(SMALLEST, run);
            && s.worker == Done && s.refused == 0 && !CleanDiscards(SMALLEST, run)
            && s.accepted == [Format(meta), Audio(block)] && s.written == [Audio(block)]
  {
    var works := seq(9, _ => Work(true));
    SlipReaches(meta, block);
    SlipDrains(meta, block);
    assert [] + Slip(meta, block) == Slip(meta, block);
    ExecContinues(SMALLEST, [], Slip(meta, block));
    ExecContinues(SMALLEST, Slip(meta, block), works);
    DrainIsExact(SMALLEST, Slip(meta, block) + works);
  }
}
