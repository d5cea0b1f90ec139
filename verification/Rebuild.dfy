/**
 The rebuild handshake between the audio callback and the main loop
 (src/standalone/pw_host/handlers.rs). The callback stores two parameters, bumps a
 generation and sets a flag; the main loop builds, delivers, clears the flag and
 sets it again if the generation moved on. Each step reads or writes one shared
 variable, so a run is any interleaving of the two sides.
 */
module Rebuild {
  // Which the handler captures first, and whether it remembers failed generations.
  datatype Order = GenerationFirst | ParametersFirst

  datatype Kind = Kind(order: Order, latched: bool)

  const CABSIM := Kind(GenerationFirst, false)
  const OVERSAMPLE := Kind(GenerationFirst, true)
  const SLIMMABLE := Kind(ParametersFirst, true)

  datatype RtPc = Quiet | StoredFirst(second: nat) | StoredBoth | Bumped

  datatype Stage = Top | Load1 | Load2 | Load3 | Build | Deliver | Clear | Recheck | Rearm | Gate | GateClear

  // What the handler captured and stamps its payload with, and whether a request overtook the capture.
  datatype Capture = Capture(generation: nat, first: nat, second: nat, overtaken: bool)

  datatype State = State(
    first: nat, second: nat, generation: nat, flag: bool,
    rt: RtPc, stage: Stage, held: Capture, failedGeneration: nat,
    handled: nat, delivered: seq<Capture>, failed: seq<nat>)

  datatype Outcome = Success | Failure | Reject | Skip | NoInput | OverCapacity

  datatype Action = Request(first: nat, second: nat) | RtNext | MainNext(outcome: Outcome)

  const INITIAL := State(0, 0, 0, false, Quiet, Top, Capture(0, 0, 0, false), 0, 0, [], [])

  // ----- steps -----

  function RtStep(s: State): State {
    match s.rt
    case Quiet => s
    case StoredFirst(second) => s.(second := second, rt := StoredBoth)
    case StoredBoth => s.(generation := s.generation + 1, rt := Bumped)
    case Bumped => s.(flag := true, rt := Quiet)
  }

  // The parameters are those of the current generation.
  predicate Settled(s: State) {
    s.rt == Quiet || s.rt == Bumped
  }

  function CaptureGeneration(kind: Kind, s: State, next: Stage): State {
    if kind.latched && s.failedGeneration == s.generation then s.(stage := Top)
    else
      s.(stage := next,
         held := s.held.(generation := s.generation,
                         overtaken := kind.order == ParametersFirst && Settled(s)
                                      && (s.held.first, s.held.second) != (s.first, s.second)))
  }

  // A request that can never be met is rejected before the latch is consulted.
  function LoadStep(kind: Kind, s: State, outcome: Outcome): State
    requires s.stage in {Load1, Load2, Load3}
  {
    if kind.order == GenerationFirst then
      match s.stage
      case Load1 => CaptureGeneration(kind, s, Load2)
      case Load2 => s.(held := s.held.(first := s.first), stage := Load3)
      case _ => s.(held := s.held.(second := s.second), stage := Build)
    else
      match s.stage
      case Load1 => s.(held := s.held.(first := s.first), stage := Load2)
      case Load2 => s.(held := s.held.(second := s.second), stage := Load3)
      case _ =>
        if outcome == Reject then s.(held := s.held.(generation := s.generation), stage := Clear)
        else CaptureGeneration(kind, s, Build)
  }

  function Fail(s: State, next: Stage): State {
    s.(failedGeneration := s.held.generation, failed := s.failed + [s.held.generation], stage := next)
  }

  function BuildStep(s: State, outcome: Outcome): State {
    match outcome
    case Success => s.(failedGeneration := 0, stage := Deliver)
    case Failure => Fail(s, Clear)
    case Reject => s.(stage := Clear)
    case Skip => s.(stage := Top)
    case NoInput => s.(flag := false, handled := s.held.generation, stage := Top)
    case OverCapacity => Fail(s, Gate)
  }

  function MainStep(kind: Kind, s: State, outcome: Outcome): State {
    match s.stage
    case Top => if s.flag then s.(stage := Load1) else s
    case Load1 => LoadStep(kind, s, outcome)
    case Load2 => LoadStep(kind, s, outcome)
    case Load3 => LoadStep(kind, s, outcome)
    case Build => BuildStep(s, outcome)
    case Deliver =>
      if outcome == Success then s.(delivered := s.delivered + [s.held], stage := Clear) else s.(stage := Top)
    case Clear => s.(flag := false, stage := Recheck)
    case Recheck =>
      if s.generation != s.held.generation then s.(stage := Rearm)
      else s.(handled := s.held.generation, stage := Top)
    case Rearm => s.(flag := true, handled := s.held.generation, stage := Top)
    case Gate => s.(stage := if s.generation == s.held.generation then GateClear else Top)
    case GateClear => s.(flag := false, handled := s.held.generation, stage := Top)
  }

  function Next(kind: Kind, s: State, a: Action): State {
    match a
    case Request(first, second) => if s.rt == Quiet then s.(first := first, rt := StoredFirst(second)) else s
    case RtNext => RtStep(s)
    case MainNext(outcome) => MainStep(kind, s, outcome)
  }

  function Exec(kind: Kind, run: seq<Action>): State {
    if run == [] then INITIAL else Next(kind, Exec(kind, run[..|run| - 1]), run[|run| - 1])
  }

  // Every clear of the run goes through the guard.
  predicate Guarded(run: seq<Action>) {
    forall a <- run :: a.MainNext? ==> a.outcome != NoInput && a.outcome != OverCapacity
  }

  // ----- no lost request -----

  // The main loop is idle and the callback is not between its bump and its flag.
  predicate AtRest(s: State) {
    s.stage == Top && s.rt != Bumped
  }

  predicate Lost(s: State) {
    AtRest(s) && s.generation != s.handled && !s.flag
  }

  predicate Owed(s: State) {
    && (s.generation == s.handled || s.flag || s.rt == Bumped || s.stage in {Recheck, Rearm})
    && s.stage !in {Gate, GateClear}
  }

  lemma OwedByBuild(kind: Kind, s: State, outcome: Outcome)
    requires Owed(s) && outcome != NoInput && outcome != OverCapacity && s.stage in {Load1, Load2, Load3, Build}
    ensures Owed(MainStep(kind, s, outcome))
  {
  }

  lemma OwedByMain(kind: Kind, s: State, outcome: Outcome)
    requires Owed(s) && outcome != NoInput && outcome != OverCapacity
    ensures Owed(MainStep(kind, s, outcome))
  {
    if s.stage in {Load1, Load2, Load3, Build} { OwedByBuild(kind, s, outcome); }
    hide LoadStep, BuildStep;
  }

  lemma OwedKept(kind: Kind, s: State, a: Action)
    requires Owed(s) && (a.MainNext? ==> a.outcome != NoInput && a.outcome != OverCapacity)
    ensures Owed(Next(kind, s, a))
  {
    hide MainStep;
    if a.MainNext? { OwedByMain(kind, s, a.outcome); }
  }

  // While every clear is guarded, an unhandled generation has its flag set
  // whenever both sides are at rest.
  lemma {:induction false} NoLostRequest(kind: Kind, run: seq<Action>)
    requires Guarded(run)
    ensures Owed(Exec(kind, run)) && !Lost(Exec(kind, run))
  {
    if run != [] {
      NoLostRequest(kind, run[..|run| - 1]);
      OwedKept(kind, Exec(kind, run[..|run| - 1]), run[|run| - 1]);
    }
  }

  // ----- payloads -----

  // Once generation and parameters agree again, the capture of the current
  // generation shows the current parameters unless it was overtaken.
  predicate Matches(s: State, c: Capture) {
    Settled(s) && c.generation == s.generation ==>
      ((c.first, c.second) == (s.first, s.second) <==> !c.overtaken)
  }

  predicate Loaded(kind: Kind, s: State) {
    && (s.stage in {Build, Deliver} ==> Matches(s, s.held))
    && (s.stage in {Load2, Load3} && kind.order == GenerationFirst ==> !s.held.overtaken)
    && (s.stage == Load3 && kind.order == GenerationFirst && Settled(s) && s.held.generation == s.generation ==>
          s.held.first == s.first)
  }

  predicate Current(kind: Kind, s: State) {
    && Loaded(kind, s)
    && (forall c <- s.delivered :: Matches(s, c) && c.generation <= s.generation)
    && s.held.generation <= s.generation && s.handled <= s.generation
    && (kind.order == GenerationFirst ==> !s.held.overtaken && forall c <- s.delivered :: !c.overtaken)
  }

  // A step of the callback settles only on a new generation.
  lemma MatchesInRt(kind: Kind, s: State, a: Action, c: Capture)
    requires !a.MainNext? && c.generation <= s.generation && Matches(s, c)
    ensures var s' := Next(kind, s, a); Matches(s', c) && s.generation <= s'.generation
  {
    hide MainStep;
  }

  lemma LoadedInRt(kind: Kind, s: State, a: Action)
    requires !a.MainNext? && Loaded(kind, s) && s.held.generation <= s.generation
    ensures var s' := Next(kind, s, a);
            && Loaded(kind, s') && s'.held == s.held && s'.handled == s.handled && s'.delivered == s.delivered
            && s.generation <= s'.generation
  {
    hide MainStep;
  }

  lemma CurrentInRt(kind: Kind, s: State, a: Action)
    requires Current(kind, s) && !a.MainNext?
    ensures Current(kind, Next(kind, s, a))
  {
    hide Loaded, Matches, Next;
    var s' := Next(kind, s, a);
    LoadedInRt(kind, s, a);
    forall c <- s'.delivered ensures Matches(s', c) && c.generation <= s'.generation {
      MatchesInRt(kind, s, a, c);
    }
  }

  // Steps of the main loop move neither the parameters nor the generation.
  lemma MainMovesNoRequest(kind: Kind, s: State, outcome: Outcome)
    ensures var s' := MainStep(kind, s, outcome);
            s'.generation == s.generation && s'.first == s.first && s'.second == s.second && s'.rt == s.rt
  {
  }

  lemma MatchesKept(kind: Kind, s: State, outcome: Outcome, c: Capture)
    ensures var s' := MainStep(kind, s, outcome);
            Matches(s', c) == Matches(s, c) && s'.generation == s.generation
  {
    hide MainStep;
    MainMovesNoRequest(kind, s, outcome);
  }

  lemma LoadedByLoad(kind: Kind, s: State, outcome: Outcome)
    requires Loaded(kind, s) && s.stage in {Load1, Load2, Load3}
    requires kind.order == GenerationFirst ==> !s.held.overtaken
    ensures var s' := LoadStep(kind, s, outcome);
            && Loaded(kind, s') && s'.handled == s.handled
            && (s'.held.generation == s.held.generation || s'.held.generation == s.generation)
            && (kind.order == GenerationFirst ==> !s'.held.overtaken)
  {
  }

  lemma LoadedAfterLoad(kind: Kind, s: State, outcome: Outcome)
    requires Loaded(kind, s) && s.stage !in {Load1, Load2, Load3}
    requires kind.order == GenerationFirst ==> !s.held.overtaken
    ensures var s' := MainStep(kind, s, outcome);
            && Loaded(kind, s') && s'.held == s.held && (s'.handled == s.handled || s'.handled == s.held.generation)
  {
    hide LoadStep;
  }

  lemma LoadedKept(kind: Kind, s: State, outcome: Outcome)
    requires Loaded(kind, s) && s.held.generation <= s.generation && s.handled <= s.generation
    requires kind.order == GenerationFirst ==> !s.held.overtaken
    ensures var s' := MainStep(kind, s, outcome);
            && Loaded(kind, s') && s'.held.generation <= s'.generation && s'.handled <= s'.generation
            && (kind.order == GenerationFirst ==> !s'.held.overtaken)
  {
    hide Loaded, LoadStep, BuildStep;
    if s.stage in {Load1, Load2, Load3} {
      LoadedByLoad(kind, s, outcome);
      MainMovesNoRequest(kind, s, outcome);
    } else {
      hide MainStep;
      LoadedAfterLoad(kind, s, outcome);
      MainMovesNoRequest(kind, s, outcome);
    }
  }

  lemma DeliveredBy(kind: Kind, s: State, outcome: Outcome)
    ensures var s' := MainStep(kind, s, outcome);
            s'.delivered == s.delivered || (s.stage == Deliver && s'.delivered == s.delivered + [s.held])
  {
  }

  lemma CurrentKept(kind: Kind, s: State, a: Action)
    requires Current(kind, s)
    ensures Current(kind, Next(kind, s, a))
  {
    hide Loaded, Matches, MainStep;
    if a.MainNext? {
      var s' := Next(kind, s, a);
      LoadedKept(kind, s, a.outcome);
      DeliveredBy(kind, s, a.outcome);
      if s.stage == Deliver { HeldMatches(kind, s); }
      forall c <- s'.delivered ensures Matches(s', c) && c.generation <= s'.generation {
        MatchesKept(kind, s, a.outcome, c);
      }
    } else {
      CurrentInRt(kind, s, a);
    }
  }

  lemma HeldMatches(kind: Kind, s: State)
    requires Loaded(kind, s) && s.stage == Deliver
    ensures Matches(s, s.held)
  {
  }

  lemma {:induction false} AlwaysCurrent(kind: Kind, run: seq<Action>)
    ensures Current(kind, Exec(kind, run))
  {
    if run != [] {
      AlwaysCurrent(kind, run[..|run| - 1]);
      CurrentKept(kind, Exec(kind, run[..|run| - 1]), run[|run| - 1]);
    }
  }

  // Both sides idle and the flag clear: the last request is handled, and a payload
  // delivered for it was built from the current parameters, exactly when its
  // capture was not overtaken.
  lemma QuiescentIsHandled(kind: Kind, run: seq<Action>)
    requires Guarded(run)
    requires var s := Exec(kind, run); s.stage == Top && s.rt == Quiet && !s.flag
    ensures var s := Exec(kind, run);
            && s.handled == s.generation
            && forall c <- s.delivered :: c.generation == s.generation ==>
                 ((c.first, c.second) == (s.first, s.second) <==> !c.overtaken)
  {
    NoLostRequest(kind, run);
    AlwaysCurrent(kind, run);
    var s := Exec(kind, run);
    forall c <- s.delivered ensures c.generation == s.generation ==>
        ((c.first, c.second) == (s.first, s.second) <==> !c.overtaken)
    {
      assert Matches(s, c);
    }
  }

  // A handler that captures the generation first is never overtaken: at rest no
  // payload of the current generation is stale or torn.
  lemma GenerationFirstIsNeverTorn(kind: Kind, run: seq<Action>)
    requires Guarded(run) && kind.order == GenerationFirst
    requires var s := Exec(kind, run); s.stage == Top && s.rt == Quiet && !s.flag
    ensures var s := Exec(kind, run);
            forall c <- s.delivered :: c.generation == s.generation ==> (c.first, c.second) == (s.first, s.second)
  {
    QuiescentIsHandled(kind, run);
    AlwaysCurrent(kind, run);
  }

  // ----- the failure latch -----

  predicate Increasing(failed: seq<nat>) {
    forall i, j :: 0 <= i < j < |failed| ==> failed[i] < failed[j]
  }

  predicate HoldsGeneration(kind: Kind, stage: Stage) {
    stage == Build || (kind.order == GenerationFirst && stage in {Load2, Load3})
  }

  predicate Latched(kind: Kind, s: State) {
    && Increasing(s.failed) && s.held.generation <= s.generation
    && (s.failed != [] ==>
          var last := s.failed[|s.failed| - 1];
          && last <= s.generation && (s.failedGeneration == last || last < s.generation)
          && (HoldsGeneration(kind, s.stage) ==> last < s.held.generation))
  }

  lemma LatchedInRt(kind: Kind, s: State, a: Action)
    requires !a.MainNext? && Latched(kind, s)
    ensures Latched(kind, Next(kind, s, a))
  {
    hide MainStep, Increasing;
  }

  lemma LatchedByLoad(kind: Kind, s: State, outcome: Outcome)
    requires kind.latched && Latched(kind, s) && s.stage in {Load1, Load2, Load3}
    ensures Latched(kind, LoadStep(kind, s, outcome))
  {
    hide Increasing;
  }

  lemma LatchedByBuild(kind: Kind, s: State, outcome: Outcome)
    requires Latched(kind, s) && s.stage == Build
    ensures Latched(kind, BuildStep(s, outcome))
  {
  }

  lemma LatchedAfterBuild(kind: Kind, s: State, outcome: Outcome)
    requires Latched(kind, s) && s.stage !in {Load1, Load2, Load3, Build}
    ensures Latched(kind, MainStep(kind, s, outcome))
  {
    hide Increasing, LoadStep, BuildStep;
  }

  lemma LatchedKept(kind: Kind, s: State, a: Action)
    requires kind.latched && Latched(kind, s)
    ensures Latched(kind, Next(kind, s, a))
  {
    hide Latched, LoadStep, BuildStep;
    if !a.MainNext? {
      LatchedInRt(kind, s, a);
    } else if s.stage in {Load1, Load2, Load3} {
      LatchedByLoad(kind, s, a.outcome);
    } else if s.stage == Build {
      LatchedByBuild(kind, s, a.outcome);
    } else {
      LatchedAfterBuild(kind, s, a.outcome);
    }
  }

  // With the latch a generation fails at most once, however often the loop runs.
  lemma {:induction false} FailsOncePerGeneration(kind: Kind, run: seq<Action>)
    requires kind.latched
    ensures Latched(kind, Exec(kind, run)) && Increasing(Exec(kind, run).failed)
  {
    if run != [] {
      FailsOncePerGeneration(kind, run[..|run| - 1]);
      LatchedKept(kind, Exec(kind, run[..|run| - 1]), run[|run| - 1]);
    }
  }
}
