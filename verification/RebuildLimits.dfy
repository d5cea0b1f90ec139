/**
 Where the handshake falls short of its guard: two clears that skip it and one
 handler that captures its parameter before the generation
 (src/standalone/pw_host/handlers.rs:536-539, 702-705, 924-931).
 */
module RebuildLimits {
  import opened Rebuild

  // ----- unguarded clears -----

  // The step clears the flag without the guard while a newer request is waiting.
  predicate Slips(s: State, a: Action) {
    && a.MainNext?
    && (s.stage == GateClear || (s.stage == Build && a.outcome == NoInput))
    && s.generation != s.held.generation && s.rt != Bumped
  }

  predicate CleanClears(kind: Kind, run: seq<Action>) {
    run == [] ||
    (CleanClears(kind, run[..|run| - 1]) && !Slips(Exec(kind, run[..|run| - 1]), run[|run| - 1]))
  }

  predicate NeverLost(kind: Kind, run: seq<Action>) {
    !Lost(Exec(kind, run)) && (run == [] || NeverLost(kind, run[..|run| - 1]))
  }

  // As in the guarded case, with the gate's stages allowed.
  predicate StillOwed(s: State) {
    s.generation == s.handled || s.flag || s.rt == Bumped || s.stage in {Recheck, Rearm}
  }

  lemma StillOwedKept(kind: Kind, s: State, a: Action)
    requires StillOwed(s) && !Slips(s, a)
    ensures StillOwed(Next(kind, s, a))
  {
  }

  lemma SlipLoses(kind: Kind, s: State, a: Action)
    requires Slips(s, a)
    ensures Lost(Next(kind, s, a))
  {
  }

  lemma {:induction false} CleanIsOwed(kind: Kind, run: seq<Action>)
    requires CleanClears(kind, run)
    ensures StillOwed(Exec(kind, run))
  {
    hide Next, StillOwed, Slips;
    if run == [] {
      StartsOwed();
    } else {
      CleanIsOwed(kind, run[..|run| - 1]);
      StillOwedKept(kind, Exec(kind, run[..|run| - 1]), run[|run| - 1]);
    }
  }

  lemma StartsOwed()
    ensures StillOwed(INITIAL)
  {
  }

  // No request is ever lost in a run exactly when each of its unguarded clears
  // found the captured generation still current, or a flag about to be set.
  lemma {:induction false} LostExactlyBySlips(kind: Kind, run: seq<Action>)
    ensures NeverLost(kind, run) <==> CleanClears(kind, run)
  {
    hide Next, Slips;
    if run != [] {
      var before := run[..|run| - 1];
      LostExactlyBySlips(kind, before);
      if CleanClears(kind, run) { CleanIsOwed(kind, run); }
      else if CleanClears(kind, before) { SlipLoses(kind, Exec(kind, before), run[|run| - 1]); }
    }
  }

  // ----- a lost request stays lost -----

  // However often the main loop runs, only a new request is noticed again.
  lemma {:induction false} LostStaysLost(kind: Kind, run: seq<Action>, turns: seq<Outcome>)
    requires Lost(Exec(kind, run)) && Exec(kind, run).rt == Quiet
    ensures Exec(kind, run + Turns(turns)) == Exec(kind, run)
  {
    if turns == [] {
      assert run + Turns(turns) == run;
    } else {
      var earlier := turns[..|turns| - 1];
      LostStaysLost(kind, run, earlier);
      var whole := run + Turns(turns);
      assert whole == (run + Turns(earlier)) + [MainNext(turns[|turns| - 1])];
      assert whole[..|whole| - 1] == run + Turns(earlier);
    }
  }

  function Turns(outcomes: seq<Outcome>): (run: seq<Action>)
    ensures |run| == |outcomes|
  {
    if outcomes == [] then []
    else Turns(outcomes[..|outcomes| - 1]) + [MainNext(outcomes[|outcomes| - 1])]
  }

  // ----- concrete runs -----

  // Runs the rest of `run` from `s`.
  function Continue(kind: Kind, s: State, run: seq<Action>): State
    decreases |run|
  {
    if run == [] then s else Continue(kind, Next(kind, s, run[0]), run[1..])
  }

  lemma {:induction false} ExecContinues(kind: Kind, run: seq<Action>, rest: seq<Action>)
    ensures Exec(kind, run + rest) == Continue(kind, Exec(kind, run), rest)
    decreases |rest|
  {
    if rest == [] {
      assert run + rest == run;
    } else {
      var next := run + [rest[0]];
      assert next[..|next| - 1] == run;
      assert run + rest == next + rest[1..];
      ExecContinues(kind, next, rest[1..]);
    }
  }

  // A whole request of the callback.
  function WholeRequest(first: nat, second: nat): seq<Action> {
    [Request(first, second), RtNext, RtNext, RtNext]
  }

  lemma Unroll(kind: Kind, s: State, run: seq<Action>, s': State)
    requires run != [] && s' == Next(kind, s, run[0])
    ensures Continue(kind, s, run) == Continue(kind, s', run[1..])
  {
    hide Next;
  }

  lemma Stops(kind: Kind, s: State, run: seq<Action>)
    requires run == []
    ensures Continue(kind, s, run) == s
  {
  }

  lemma RequestDone(kind: Kind, s: State, first: nat, second: nat)
    requires s.rt == Quiet
    ensures Continue(kind, s, WholeRequest(first, second))
         == s.(first := first, second := second, generation := s.generation + 1, flag := true)
  {
    hide MainStep, Continue;
    var run := WholeRequest(first, second);
    var s1 := Next(kind, s, run[0]);
    var s2 := Next(kind, s1, run[1]);
    var s3 := Next(kind, s2, run[2]);
    var s4 := Next(kind, s3, run[3]);
    Unroll(kind, s, run, s1);
    Unroll(kind, s1, run[1..], s2);
    Unroll(kind, s2, run[2..], s3);
    Unroll(kind, s3, run[3..], s4);
    Stops(kind, s4, run[4..]);
  }

  lemma {:induction false} ContinueTwice(kind: Kind, s: State, a: seq<Action>, b: seq<Action>)
    ensures Continue(kind, s, a + b) == Continue(kind, Continue(kind, s, a), b)
    decreases |a|
  {
    if a == [] {
      assert a + b == b;
    } else {
      assert (a + b)[0] == a[0] && (a + b)[1..] == a[1..] + b;
      ContinueTwice(kind, Next(kind, s, a[0]), a[1..], b);
    }
  }

  // `n` steps of the main loop that all go well.
  function Main(n: nat): (run: seq<Action>)
    ensures |run| == n
  {
    seq(n, _ => MainNext(Success))
  }

  lemma MainRuns(kind: Kind, s: State, n: nat)
    ensures Continue(kind, s, Main(n))
         == if n == 0 then s else Continue(kind, MainStep(kind, s, Success), Main(n - 1))
  {
    hide MainStep;
    if n > 0 {
      assert Main(n)[1..] == Main(n - 1);
      Unroll(kind, s, Main(n), MainStep(kind, s, Success));
    }
  }

  // The handler up to its third load.
  lemma LoadsDone(kind: Kind, s: State)
    requires s.stage == Top && s.flag && kind.order == ParametersFirst
    ensures Continue(kind, s, Main(3))
         == s.(stage := Load3, held := s.held.(first := s.first, second := s.second))
  {
    hide Continue, BuildStep, CaptureGeneration;
    var s1 := MainStep(kind, s, Success);
    var s2 := MainStep(kind, s1, Success);
    MainRuns(kind, s, 3);
    MainRuns(kind, s1, 2);
    MainRuns(kind, s2, 1);
    MainRuns(kind, MainStep(kind, s2, Success), 0);
  }

  // The rest of the handler, with nothing in its way.
  lemma HandlerDone(kind: Kind, s: State, c: Capture)
    requires s.stage == Build && s.held == c && c.generation == s.generation
    ensures Continue(kind, s, Main(4))
         == s.(stage := Top, failedGeneration := 0, delivered := s.delivered + [c], flag := false,
               handled := c.generation)
  {
    hide Continue, LoadStep;
    var s1 := MainStep(kind, s, Success);
    var s2 := MainStep(kind, s1, Success);
    var s3 := MainStep(kind, s2, Success);
    MainRuns(kind, s, 4);
    MainRuns(kind, s1, 3);
    MainRuns(kind, s2, 2);
    MainRuns(kind, s3, 1);
    MainRuns(kind, MainStep(kind, s3, Success), 0);
  }

  // Two requests, the second between the slimmable handler's parameter load and
  // its generation load.
  function Overtaking(earlier: nat, later: nat): seq<Action> {
    WholeRequest(earlier, 0) + (Main(3) + (WholeRequest(later, 0) + (Main(1) + Main(4))))
  }

  // Guarded, at rest, flag clear, last request handled: and yet the one payload
  // delivered for it was built from the earlier channel count.
  lemma SlimmableCanKeepOldChannel(earlier: nat, later: nat)
    requires earlier != later
    ensures var run := Overtaking(earlier, later);
            var s := Exec(SLIMMABLE, run);
            && Guarded(run) && s.stage == Top && s.rt == Quiet && !s.flag && s.handled == s.generation == 2
            && s.first == later && s.delivered == [Capture(2, earlier, 0, true)]
  {
    hide Continue, WholeRequest, Main;
    var kind, run := SLIMMABLE, Overtaking(earlier, later);
    OvertakingIsGuarded(earlier, later);
    var s0 := INITIAL;
    var s1 := s0.(first := earlier, generation := 1, flag := true);
    RequestDone(kind, s0, earlier, 0);
    var s2 := s1.(stage := Load3, held := Capture(0, earlier, 0, false));
    LoadsDone(kind, s1);
    var s3 := s2.(first := later, generation := 2);
    RequestDone(kind, s2, later, 0);
    var s4 := MainStep(kind, s3, Success);
    assert s4 == s3.(stage := Build, held := Capture(2, earlier, 0, true));
    MainRuns(kind, s3, 1);
    MainRuns(kind, s4, 0);
    HandlerDone(kind, s4, s4.held);
    ContinueTwice(kind, s3, Main(1), Main(4));
    ContinueTwice(kind, s2, WholeRequest(later, 0), Main(1) + Main(4));
    ContinueTwice(kind, s1, Main(3), WholeRequest(later, 0) + (Main(1) + Main(4)));
    ContinueTwice(kind, s0, WholeRequest(earlier, 0), Main(3) + (WholeRequest(later, 0) + (Main(1) + Main(4))));
    assert [] + run == run;
    ExecContinues(kind, [], run);
  }

  lemma OvertakingIsGuarded(earlier: nat, later: nat)
    ensures Guarded(Overtaking(earlier, later))
  {
  }

  // The handler up to its build.
  lemma CapturesDone(kind: Kind, s: State)
    requires s.stage == Top && s.flag && kind.order == GenerationFirst && s.failedGeneration != s.generation
    ensures Continue(kind, s, Main(4))
         == s.(stage := Build, held := Capture(s.generation, s.first, s.second, false))
  {
    hide Continue, BuildStep;
    var s1 := MainStep(kind, s, Success);
    var s2 := MainStep(kind, s1, Success);
    var s3 := MainStep(kind, s2, Success);
    MainRuns(kind, s, 4);
    MainRuns(kind, s1, 3);
    MainRuns(kind, s2, 2);
    MainRuns(kind, s3, 1);
    MainRuns(kind, MainStep(kind, s3, Success), 0);
  }

  lemma OneStep(kind: Kind, s: State, a: Action)
    ensures Continue(kind, s, [a]) == Next(kind, s, a)
  {
    hide Next;
    Stops(kind, Next(kind, s, a), [a][1..]);
  }

  // A cabinet request published between the captures and the clear for a missing
  // impulse response is lost.
  lemma NoInputClearLosesRequest(first: nat, second: nat)
    ensures var run := WholeRequest(1, 1) + (Main(4) + (WholeRequest(first, second) + [MainNext(NoInput)]));
            var s := Exec(CABSIM, run);
            Lost(s) && s.generation == 2 && s.handled == 1
  {
    hide Continue, WholeRequest, Main;
    var kind := CABSIM;
    var s1 := INITIAL.(first := 1, second := 1, generation := 1, flag := true);
    RequestDone(kind, INITIAL, 1, 1);
    var s2 := s1.(stage := Build, held := Capture(1, 1, 1, false));
    CapturesDone(kind, s1);
    var s3 := s2.(first := first, second := second, generation := 2);
    RequestDone(kind, s2, first, second);
    OneStep(kind, s3, MainNext(NoInput));
    ContinueTwice(kind, s2, WholeRequest(first, second), [MainNext(NoInput)]);
    ContinueTwice(kind, s1, Main(4), WholeRequest(first, second) + [MainNext(NoInput)]);
    ContinueTwice(kind, INITIAL, WholeRequest(1, 1), Main(4) + (WholeRequest(first, second) + [MainNext(NoInput)]));
    var run := WholeRequest(1, 1) + (Main(4) + (WholeRequest(first, second) + [MainNext(NoInput)]));
    assert [] + run == run;
    ExecContinues(kind, [], run);
  }

  // The capacity gate up to its clear, and the clear itself.
  function Gated(): seq<Action> {
    [MainNext(OverCapacity)] + Main(1)
  }

  lemma GateReached(kind: Kind, s: State)
    requires s.stage == Build && s.held.generation == s.generation
    ensures Continue(kind, s, Gated())
         == s.(stage := GateClear, failedGeneration := s.generation, failed := s.failed + [s.generation])
  {
    hide Continue, Main, LoadStep;
    var s1 := Next(kind, s, MainNext(OverCapacity));
    OneStep(kind, s, MainNext(OverCapacity));
    MainRuns(kind, s1, 1);
    MainRuns(kind, MainStep(kind, s1, Success), 0);
    ContinueTwice(kind, s, [MainNext(OverCapacity)], Main(1));
  }

  lemma GateClears(kind: Kind, s: State)
    requires s.stage == GateClear
    ensures Continue(kind, s, Main(1)) == s.(flag := false, handled := s.held.generation, stage := Top)
  {
    hide Continue, Main, LoadStep, BuildStep;
    MainRuns(kind, s, 1);
    MainRuns(kind, MainStep(kind, s, Success), 0);
  }

  // An oversampling request published between the capacity gate's check and its
  // clear is lost.
  lemma CapacityGateLosesRequest(first: nat, second: nat)
    ensures var run := WholeRequest(1, 1) + (Main(4) + (Gated() + (WholeRequest(first, second) + Main(1))));
            var s := Exec(OVERSAMPLE, run);
            Lost(s) && s.generation == 2 && s.handled == 1
  {
    hide Continue, WholeRequest, Main, Gated, Next;
    var kind, last := OVERSAMPLE, WholeRequest(first, second) + Main(1);
    var s1 := INITIAL.(first := 1, second := 1, generation := 1, flag := true);
    RequestDone(kind, INITIAL, 1, 1);
    var s2 := s1.(stage := Build, held := Capture(1, 1, 1, false));
    CapturesDone(kind, s1);
    var s4 := s2.(stage := GateClear, failedGeneration := 1, failed := [] + [1]);
    GateReached(kind, s2);
    var s5 := s4.(first := first, second := second, generation := 2);
    RequestDone(kind, s4, first, second);
    GateClears(kind, s5);
    ContinueTwice(kind, s4, WholeRequest(first, second), Main(1));
    ContinueTwice(kind, s2, Gated(), last);
    ContinueTwice(kind, s1, Main(4), Gated() + last);
    ContinueTwice(kind, INITIAL, WholeRequest(1, 1), Main(4) + (Gated() + last));
    var run := WholeRequest(1, 1) + (Main(4) + (Gated() + last));
    assert [] + run == run;
    ExecContinues(kind, [], run);
  }
}
