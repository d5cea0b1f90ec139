/**
 A rebuild handler of the main loop as it runs (src/standalone/pw_host/handlers.rs:320-418,
 504-611, 690-810, 893-967, with the guards at :430-435, :662-672, :837-847, :978-983).
 Before each of its accesses to the shared cells the callback may make any number of
 its own single stores.
 */
module RebuildHandler {
  import opened Rebuild

  // The callback's next store: a new request, or the next store of the one it is in.
  datatype Store = Begin(first: nat, second: nat) | Continue

  class Cells {
    const kind: Kind
    // Shared with the callback.
    var first: nat
    var second: nat
    var generation: nat
    var flag: bool
    var rt: RtPc
    // The main loop's own: the failure latch and the payload ring.
    var failedGeneration: nat
    var delivered: seq<Capture>
    ghost var run: seq<Action>
    ghost var s: State

    ghost predicate Valid()
      reads this
    {
      && s == Exec(kind, run)
      && first == s.first && second == s.second && generation == s.generation && flag == s.flag && rt == s.rt
      && failedGeneration == s.failedGeneration && |delivered| == |s.delivered|
      && forall i :: 0 <= i < |delivered| ==> Stamped(delivered[i], s.delivered[i])
    }

    constructor (kind: Kind)
      ensures Valid() && this.kind == kind && s == INITIAL && run == []
    {
      this.kind := kind;
      first, second, generation, flag, rt, failedGeneration, delivered := 0, 0, 0, false, Quiet, 0, [];
      run, s := [], INITIAL;
    }

    ghost method Step(a: Action)
      requires s == Exec(kind, run)
      modifies this`run, this`s
      ensures s == Exec(kind, run) == Next(kind, old(s), a) && run == old(run) + [a]
    {
      hide Next;
      s, run := Next(kind, s, a), run + [a];
      assert run[..|run| - 1] == old(run);
    }

    // One store of the callback.
    method StoreNext(store: Store)
      requires Valid()
      modifies this`first, this`second, this`generation, this`flag, this`rt, this`run, this`s
      ensures Valid() && MainUnmoved(old(s), s) && Extends(old(run), run)
      ensures run == old(run) + [StepOf(store)]
    {
      hide Exec, MainStep;
      if store.Begin? {
        if rt == Quiet { first, rt := store.first, StoredFirst(store.second); }
        Step(Request(store.first, store.second));
        return;
      }
      if rt.StoredFirst? {
        second, rt := rt.second, StoredBoth;
      } else if rt == StoredBoth {
        generation, rt := generation + 1, Bumped;
      } else if rt == Bumped {
        flag, rt := true, Quiet;
      }
      Step(RtNext);
    }

    method Callback(stores: seq<Store>)
      requires Valid()
      modifies this`first, this`second, this`generation, this`flag, this`rt, this`run, this`s
      ensures Valid() && MainUnmoved(old(s), s) && Extends(old(run), run)
      ensures run == old(run) + StepsOf(stores)
      ensures stores == [] ==> s == old(s) && CellsKept(old(s), s)
    {
      hide Valid, StepOf;
      NothingMoved(s, run);
      for i := 0 to |stores|
        invariant Valid() && MainUnmoved(old(s), s) && Extends(old(run), run)
        invariant run == old(run) + StepsOf(stores[..i]) && (i == 0 ==> s == old(s))
      {
        ghost var was := run;
        StoreNext(stores[i]);
        ExtendsTwice(old(run), was, run);
        assert stores[..i + 1][..i] == stores[..i];
      }
      assert stores[..|stores|] == stores;
    }

    // The callback's stores before one access, then the handler's own step.
    ghost method Did(outcome: Outcome)
      requires s == Exec(kind, run) && outcome != NoInput && outcome != OverCapacity
      modifies this`run, this`s
      ensures s == Exec(kind, run) == MainStep(kind, old(s), outcome) && Extends(old(run), run)
    {
      hide Exec, MainStep;
      Step(MainNext(outcome));
    }

    // The same for the two early exits that bypass the guard.
    ghost method DidUnguarded(outcome: Outcome)
      requires s == Exec(kind, run)
      modifies this`run, this`s
      ensures s == Exec(kind, run) == MainStep(kind, old(s), outcome) && old(run) <= run
    {
      hide Exec, MainStep;
      Step(MainNext(outcome));
    }

    // The flag is clear: looks at the generation, sets the flag again if it moved.
    method LookAfterClear(g: nat, between: nat -> seq<Store>, at: nat)
      requires Valid() && s.stage == Recheck && s.held.generation == g
      modifies this`first, this`second, this`generation, this`flag, this`rt, this`run, this`s
      ensures Valid() && s.stage == Top && Extends(old(run), run) && s.delivered == old(s).delivered
      ensures Calm(between) ==> CellsKept(old(s), s) && s.handled == g && (flag <==> old(flag) || generation != g)
    {
      hide Exec, LoadStep, BuildStep, Guarded, Next, RtStep, StepsOf;
      Callback(between(at));
      var superseded := generation != g;
      Did(Success);
      if superseded {
        Callback(between(at + 1));
        flag := true;
        Did(Success);
      }
    }

    // Clears the flag first and looks at the generation afterwards.
    method RearmIfSuperseded(g: nat, between: nat -> seq<Store>, at: nat)
      requires Valid() && s.stage == Clear && s.held.generation == g
      modifies this`first, this`second, this`generation, this`flag, this`rt, this`run, this`s
      ensures Valid() && s.stage == Top && Extends(old(run), run) && s.delivered == old(s).delivered
      ensures Calm(between) ==> CellsKept(old(s), s) && s.handled == g && (flag <==> generation != g)
    {
      hide Exec, LoadStep, BuildStep, Guarded, Next, RtStep, StepsOf;
      Callback(between(at));
      flag := false;
      Did(Success);
      LookAfterClear(g, between, at + 1);
    }

    // The photograph of the request, generation first. A latched failure of the
    // same generation ends the handler here.
    method CaptureGenerationFirst(between: nat -> seq<Store>, at: nat) returns (proceed: bool, g: nat, a: nat, b: nat)
      requires Valid() && s.stage == Load1 && kind.order == GenerationFirst
      modifies this`first, this`second, this`generation, this`flag, this`rt, this`run, this`s
      ensures Valid() && Extends(old(run), run) && s.stage == if proceed then Build else Top
      ensures s.delivered == old(s).delivered
      ensures proceed ==> s.held.generation == g && s.held.first == a && s.held.second == b
      ensures Calm(between) ==>
                && CellsKept(old(s), s) && flag == old(flag)
                && proceed == !(kind.latched && failedGeneration == generation)
                && (proceed ==> g == generation && a == first && b == second)
    {
      hide Exec, BuildStep, Guarded, Next, RtStep, StepsOf;
      a, b := 0, 0;
      g := generation;
      proceed := !(kind.latched && failedGeneration == g);
      Did(Success);
      if !proceed { return; }
      Callback(between(at));
      a := first;
      Did(Success);
      Callback(between(at + 1));
      b := second;
      Did(Success);
    }

    // The two parameters, before the generation.
    method LoadParameters(between: nat -> seq<Store>, at: nat) returns (a: nat, b: nat)
      requires Valid() && s.stage == Load1 && kind.order == ParametersFirst
      modifies this`first, this`second, this`generation, this`flag, this`rt, this`run, this`s
      ensures Valid() && Extends(old(run), run) && s.stage == Load3 && s.delivered == old(s).delivered
      ensures s.held.first == a && s.held.second == b
      ensures Calm(between) ==> CellsKept(old(s), s) && flag == old(flag) && a == first && b == second
    {
      hide Exec, BuildStep, Guarded, Next, RtStep, StepsOf;
      a := first;
      Did(Success);
      Callback(between(at));
      b := second;
      Did(Success);
    }

    // The photograph with the parameters first. A request that can never be met is
    // turned down before the latch is consulted, and its flag cleared through the guard.
    method CaptureParametersFirst(rejects: bool, between: nat -> seq<Store>, at: nat)
      returns (proceed: bool, g: nat, a: nat, b: nat)
      requires Valid() && s.stage == Load1 && kind.order == ParametersFirst
      modifies this`first, this`second, this`generation, this`flag, this`rt, this`run, this`s
      ensures Valid() && Extends(old(run), run) && s.stage == if proceed then Build else Top
      ensures s.delivered == old(s).delivered
      ensures proceed ==> !rejects && s.held.generation == g && s.held.first == a && s.held.second == b
      ensures Calm(between) ==>
                && CellsKept(old(s), s)
                && (rejects ==> !flag && s.handled == generation)
                && (!rejects ==> flag == old(flag) && proceed == !(kind.latched && failedGeneration == generation))
                && (proceed ==> g == generation && a == first && b == second)
    {
      hide Exec, BuildStep, Guarded, Next, RtStep, StepsOf;
      a, b := LoadParameters(between, at);
      Callback(between(at + 1));
      g := generation;
      if rejects {
        proceed := false;
        Did(Reject);
        RearmIfSuperseded(g, between, at + 2);
      } else {
        proceed := !(kind.latched && failedGeneration == g);
        Did(Success);
      }
    }

    // Pushes the payload; a full ring leaves the flag set for the next turn.
    method Push(g: nat, a: nat, b: nat, room: bool, between: nat -> seq<Store>, at: nat)
      requires Valid() && s.stage == Deliver
      requires s.held.generation == g && s.held.first == a && s.held.second == b
      modifies this`first, this`second, this`generation, this`flag, this`rt, this`delivered, this`run, this`s
      ensures Valid() && s.stage == Top && Extends(old(run), run)
      ensures delivered == old(delivered) + (if room then [Capture(g, a, b, false)] else [])
      ensures Calm(between) ==>
                CellsKept(old(s), s) && (if room then s.handled == g && (flag <==> generation != g) else flag == old(flag))
    {
      hide Exec, LoadStep, BuildStep, Guarded, Next, RtStep, StepsOf;
      Callback(between(at));
      if room {
        delivered := delivered + [Capture(g, a, b, false)];
        Did(Success);
        RearmIfSuperseded(g, between, at + 1);
      } else {
        Did(Failure);
      }
    }

    // A failed build is latched; the flag is cleared through the guard.
    method Refuse(g: nat, latch: bool, between: nat -> seq<Store>, at: nat)
      requires Valid() && s.stage == Build && s.held.generation == g
      modifies this`first, this`second, this`generation, this`flag, this`rt, this`failedGeneration, this`run, this`s
      ensures Valid() && s.stage == Top && Extends(old(run), run) && s.delivered == old(s).delivered
      ensures failedGeneration == if latch then g else old(failedGeneration)
      ensures Calm(between) ==> CellsKept(old(s), s) && s.handled == g && (flag <==> generation != g)
    {
      hide Exec, LoadStep, Guarded, Next, RtStep, StepsOf;
      if latch { failedGeneration := g; }
      Did(if latch then Failure else Reject);
      RearmIfSuperseded(g, between, at);
    }

    // Clears the flag if the generation is still the captured one, though it may move
    // between that look and the clear.
    method ClearIfSame(g: nat, between: nat -> seq<Store>, at: nat)
      requires Valid() && s.stage == Gate && s.held.generation == g
      modifies this`first, this`second, this`generation, this`flag, this`rt, this`run, this`s
      ensures Valid() && s.stage == Top && old(run) <= run && s.delivered == old(s).delivered
      ensures Calm(between) ==>
                && CellsKept(old(s), s)
                && (generation == g ==> s.handled == g && !flag) && (generation != g ==> flag == old(flag))
    {
      hide Exec, LoadStep, BuildStep, Guarded, Next, RtStep, StepsOf;
      Callback(between(at));
      var same := generation == g;
      Did(Success);
      if same {
        Callback(between(at + 1));
        flag := false;
        Did(Success);
      }
    }

    // The payload is too large: latched, and cleared without the guard.
    method RefuseTooLarge(g: nat, between: nat -> seq<Store>, at: nat)
      requires Valid() && s.stage == Build && s.held.generation == g
      modifies this`first, this`second, this`generation, this`flag, this`rt, this`failedGeneration, this`run, this`s
      ensures Valid() && s.stage == Top && old(run) <= run && s.delivered == old(s).delivered && failedGeneration == g
      ensures Calm(between) ==>
                && CellsKept(old(s), s)
                && (generation == g ==> s.handled == g && !flag) && (generation != g ==> flag == old(flag))
    {
      hide Exec, LoadStep, Guarded, Next, RtStep, StepsOf;
      failedGeneration := g;
      DidUnguarded(OverCapacity);
      ClearIfSame(g, between, at);
    }

    // Builds and delivers. `answer` is what the build says and `room` what the payload
    // ring does: nothing to build with yet leaves the flag for a later turn, and a
    // missing impulse response clears it at once.
    method BuildAndDeliver(g: nat, a: nat, b: nat, answer: Outcome, room: bool, between: nat -> seq<Store>, at: nat)
      requires Valid() && s.stage == Build
      requires s.held.generation == g && s.held.first == a && s.held.second == b
      modifies this
      ensures Valid() && s.stage == Top && old(run) <= run && (GuardedAnswer(answer) ==> Extends(old(run), run))
      ensures delivered == old(delivered) + (if answer == Success && room then [Capture(g, a, b, false)] else [])
      ensures failedGeneration == AfterAnswer(answer, g, old(failedGeneration))
      ensures Calm(between) && g == old(generation) ==>
                && CellsKept(old(s), s)
                && (if LeavesFlag(answer, room) then flag == old(flag) else s.handled == g && !flag)
    {
      hide Exec, LoadStep, Guarded, Next, RtStep, StepsOf;
      Callback(between(at));
      if answer == Success {
        failedGeneration := 0;
        Did(Success);
        Push(g, a, b, room, between, at + 1);
      } else if answer == Failure || answer == Reject {
        Refuse(g, answer == Failure, between, at + 1);
      } else if answer == Skip {
        Did(Skip);
      } else if answer == NoInput {
        flag := false;
        DidUnguarded(NoInput);
      } else {
        RefuseTooLarge(g, between, at + 1);
      }
    }

    // The request was seen: capture it, build and deliver.
    method Serve(rejects: bool, answer: Outcome, room: bool, between: nat -> seq<Store>)
      requires Valid() && s.stage == Load1
      modifies this
      ensures Valid() && s.stage == Top && old(run) <= run && (GuardedAnswer(answer) ==> Extends(old(run), run))
      ensures Calm(between) ==> (first, second, generation) == old((first, second, generation))
      ensures Calm(between) && kind.order == ParametersFirst && rejects ==>
                !flag && s.handled == generation && delivered == old(delivered)
      ensures Calm(between) && !(kind.order == ParametersFirst && rejects) ==>
                if kind.latched && old(failedGeneration) == generation
                then flag == old(flag) && delivered == old(delivered)
                else
                  && delivered == old(delivered) + (if answer == Success && room
                                                    then [Capture(generation, first, second, false)] else [])
                  && failedGeneration == AfterAnswer(answer, generation, old(failedGeneration))
                  && (if LeavesFlag(answer, room) then flag == old(flag) else !flag && s.handled == generation)
    {
      hide Exec, MainStep, Guarded, StepsOf, AfterAnswer, LeavesFlag, GuardedAnswer;
      var proceed, g, a, b;
      if kind.order == GenerationFirst {
        proceed, g, a, b := CaptureGenerationFirst(between, 1);
      } else {
        proceed, g, a, b := CaptureParametersFirst(rejects, between, 1);
      }
      if proceed { BuildAndDeliver(g, a, b, answer, room, between, 3); }
    }

    // One call of the handler, the callback running wherever it likes in between.
    // No request is lost while the clears are guarded; and when both sides are at rest
    // and the flag is clear, a handler that captures the generation first has delivered
    // nothing for the current generation but the current parameters. Undisturbed, each
    // answer has its own outcome.
    method Handle(rejects: bool, answer: Outcome, room: bool, between: nat -> seq<Store>)
      requires Valid() && s.stage == Top
      modifies this
      ensures Valid() && s.stage == Top && old(run) <= run
      ensures Guarded(old(run)) && GuardedAnswer(answer) ==> Guarded(run) && Safe()
      ensures Calm(between) ==> (first, second, generation) == old((first, second, generation))
      ensures Calm(between) && !old(flag) ==> delivered == old(delivered) && !flag && s.handled == old(s).handled
      ensures Calm(between) && old(flag) && kind.order == ParametersFirst && rejects ==>
                !flag && s.handled == generation && delivered == old(delivered)
      ensures Calm(between) && old(flag) && !(kind.order == ParametersFirst && rejects) ==>
                if kind.latched && old(failedGeneration) == generation then flag && delivered == old(delivered)
                else
                  && delivered == old(delivered) + (if answer == Success && room
                                                    then [Capture(generation, first, second, false)] else [])
                  && failedGeneration == AfterAnswer(answer, generation, old(failedGeneration))
                  && (if LeavesFlag(answer, room) then flag else !flag && s.handled == generation)
    {
      hide Exec, MainStep, Guarded, StepsOf, AfterAnswer, LeavesFlag, GuardedAnswer, Safe;
      Callback(between(0));
      var requested := flag;
      AtTop(kind, s);
      Did(Success);
      if requested { Serve(rejects, answer, room, between); }
      if Guarded(run) { AtRestIsSafe(); }
    }

    // At rest no request is lost, and with the generation captured first no payload
    // of the current generation shows other than the current parameters.
    ghost predicate Safe()
      reads this
    {
      && (rt != Bumped && generation != s.handled ==> flag)
      && (kind.order == GenerationFirst && rt == Quiet && !flag ==>
            forall d <- delivered :: d.generation == generation ==> (d.first, d.second) == (first, second))
    }

    lemma AtRestIsSafe()
      requires Valid() && s.stage == Top && Guarded(run)
      ensures Safe()
    {
      hide Exec, Guarded;
      NoLostRequest(kind, run);
      if kind.order == GenerationFirst && rt == Quiet && !flag {
        GenerationFirstIsNeverTorn(kind, run);
        forall d <- delivered ensures d.generation == generation ==> (d.first, d.second) == (first, second) {
          var i :| 0 <= i < |delivered| && delivered[i] == d;
          assert Stamped(d, s.delivered[i]) && s.delivered[i] in s.delivered;
        }
      }
    }
  }

  lemma AtTop(kind: Kind, s: State)
    requires s.stage == Top
    ensures MainStep(kind, s, Success) == if s.flag then s.(stage := Load1) else s
  {
  }

  // The answers whose clear goes through the guard.
  predicate GuardedAnswer(answer: Outcome) {
    answer != NoInput && answer != OverCapacity
  }

  // The answers that leave the request for a later turn.
  predicate LeavesFlag(answer: Outcome, room: bool) {
    answer == Skip || (answer == Success && !room)
  }

  // The failure latch after a build.
  function AfterAnswer(answer: Outcome, g: nat, failedGeneration: nat): nat {
    match answer
    case Success => 0
    case Failure => g
    case OverCapacity => g
    case _ => failedGeneration
  }

  function StepOf(store: Store): Action {
    match store
    case Begin(first, second) => Request(first, second)
    case Continue => RtNext
  }

  function StepsOf(stores: seq<Store>): seq<Action> {
    if stores == [] then [] else StepsOf(stores[..|stores| - 1]) + [StepOf(stores[|stores| - 1])]
  }

  // The callback stays out of the way.
  ghost predicate Calm(between: nat -> seq<Store>) {
    forall i: nat :: between(i) == []
  }

  predicate CellsKept(before: State, after: State) {
    && after.first == before.first && after.second == before.second && after.generation == before.generation
    && after.rt == before.rt
  }

  // A payload carries what was captured; whether it was overtaken is not visible.
  predicate Stamped(payload: Capture, c: Capture) {
    payload.generation == c.generation && payload.first == c.first && payload.second == c.second
  }

  // The callback leaves the handler where it is.
  predicate MainUnmoved(before: State, after: State) {
    && after.stage == before.stage && after.held == before.held && after.handled == before.handled
    && after.delivered == before.delivered && after.failed == before.failed
    && after.failedGeneration == before.failedGeneration
  }

  // The run goes on, and its clears stay guarded.
  predicate Extends(before: seq<Action>, after: seq<Action>) {
    before <= after && (Guarded(before) ==> Guarded(after))
  }

  lemma NothingMoved(s: State, run: seq<Action>)
    ensures MainUnmoved(s, s) && Extends(run, run)
  {
  }

  lemma ExtendsTwice(a: seq<Action>, b: seq<Action>, c: seq<Action>)
    requires Extends(a, b) && Extends(b, c)
    ensures Extends(a, c)
  {
    hide Guarded;
  }
}
