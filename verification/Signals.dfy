/**
 The staged termination handler (src/standalone/signals.rs:66-191). Any number of
 deliveries run at once; each step loads, exchanges or stores one atomic word, so a
 run is any interleaving of deliveries, window changes and clock ticks.
 */
module Signals {
  import opened Wrappers

  const DEFAULT_GRACE_WINDOW_MS: nat := 500
  const RECORDING_GRACE_WINDOW_MS: nat := 5000

  // The stage sits in the two high bits of a 64-bit word, the time below them.
  const STAGE_IDLE: nat := 0
  const STAGE_GRACE: nat := 0x4000_0000_0000_0000
  const STAGE_FORCE_EXIT: nat := 0x8000_0000_0000_0000
  const TIMESTAMP_MASK: nat := 0x3FFF_FFFF_FFFF_FFFF

  function Pack(now: nat): nat {
    STAGE_GRACE + if now <= TIMESTAMP_MASK then now else TIMESTAMP_MASK
  }

  function Opened(word: nat): nat {
    word % 0x4000_0000_0000_0000
  }

  function Elapsed(now: nat, since: nat): nat {
    if now >= since then now - since else 0
  }

  // A delivery: when it read the clock and where it stands.
  datatype Pc = Loading | Loaded(word: nat) | Won | Deciding(since: nat) | Forcing | Exiting | Returned

  datatype Delivery = Delivery(now: nat, pc: Pc)

  datatype Owner = Free | Arming | Disarming

  // What a forced exit was decided on.
  datatype Forced = Forced(index: nat, window: nat, armed: bool)

  datatype State = State(
    word: nat, window: nat, armed: bool, shutdown: bool, clock: nat, owner: Owner,
    deliveries: seq<Delivery>, winners: seq<nat>, forced: Option<Forced>, stored: bool)

  datatype Action =
    | Tick(ms: nat)
    | Deliver
    | Step(i: nat, spurious: bool)
    | Arm
    | Disarm
    | SetWindow(ms: nat)

  const INITIAL := State(STAGE_IDLE, DEFAULT_GRACE_WINDOW_MS, false, false, 0, Free, [], [], None, false)

  function Moved(s: State, i: nat, pc: Pc): State
    requires i < |s.deliveries|
  {
    s.(deliveries := s.deliveries[i := s.deliveries[i].(pc := pc)])
  }

  // One step of the handler's loop.
  function HandlerStep(s: State, i: nat, spurious: bool): State
    requires i < |s.deliveries|
  {
    var d := s.deliveries[i];
    match d.pc
    case Loading => Moved(s, i, Loaded(s.word))
    case Loaded(word) =>
      if word != STAGE_IDLE then Moved(s, i, Deciding(Opened(word)))
      else if s.word == STAGE_IDLE && !spurious then
        Moved(s, i, Won).(word := Pack(d.now), winners := s.winners + [i])
      else Moved(s, i, Loading)
    case Won => Moved(s, i, Returned).(shutdown := true)
    case Deciding(since) =>
      if Elapsed(d.now, since) >= s.window then
        Moved(s, i, Forcing).(forced := if s.forced.None? then Some(Forced(i, s.window, s.armed)) else s.forced)
      else Moved(s, i, Returned)
    case Forcing => Moved(s, i, Exiting).(word := STAGE_FORCE_EXIT, stored := true)
    case Exiting => s
    case Returned => s
  }

  // The main thread's two stores of arming, and its swap and store of disarming.
  function ArmStep(s: State): State {
    match s.owner
    case Free => s.(window := RECORDING_GRACE_WINDOW_MS, owner := Arming)
    case Arming => s.(armed := true, owner := Free)
    case Disarming => s
  }

  function DisarmStep(s: State): State {
    match s.owner
    case Free => if s.armed then s.(armed := false, owner := Disarming) else s
    case Disarming => s.(window := DEFAULT_GRACE_WINDOW_MS, owner := Free)
    case Arming => s
  }

  function Next(s: State, a: Action): State {
    match a
    case Tick(ms) => s.(clock := s.clock + ms)
    case Deliver =>
      var now := if s.clock <= TIMESTAMP_MASK then s.clock else TIMESTAMP_MASK;
      s.(deliveries := s.deliveries + [Delivery(now, Loading)])
    case Step(i, spurious) => if i < |s.deliveries| then HandlerStep(s, i, spurious) else s
    case Arm => ArmStep(s)
    case Disarm => DisarmStep(s)
    case SetWindow(ms) => if s.owner == Free then s.(window := if ms < 1 then 1 else ms) else s
  }

  function Exec(run: seq<Action>): State {
    if run == [] then INITIAL else Next(Exec(run[..|run| - 1]), run[|run| - 1])
  }

  // The window is only armed and disarmed, as the daemon does.
  predicate WindowKept(run: seq<Action>) {
    forall a <- run :: !a.SetWindow?
  }

  // ----- the word -----

  lemma PackDecodes(now: nat)
    ensures var word := Pack(now);
            && word != STAGE_IDLE && word != STAGE_FORCE_EXIT && word / 0x4000_0000_0000_0000 == 1
            && Opened(word) == if now <= TIMESTAMP_MASK then now else TIMESTAMP_MASK
  {
  }

  // ----- what every step keeps -----

  // The word as the deliveries may see it before a forced exit is stored.
  function Anchored(s: State): nat {
    if |s.winners| != 1 || s.winners[0] >= |s.deliveries| then STAGE_IDLE
    else Pack(s.deliveries[s.winners[0]].now)
  }

  predicate WinnerOk(s: State) {
    && |s.winners| <= 1
    && (s.winners != [] ==> s.winners[0] < |s.deliveries| && s.deliveries[s.winners[0]].pc in {Won, Returned})
    && (s.winners != [] ==> (s.shutdown <==> s.deliveries[s.winners[0]].pc == Returned))
    && (s.winners == [] ==> !s.shutdown)
  }

  // What a delivery saw is what the word is, was before it was won, or became
  // after a forced exit.
  predicate SeenOk(s: State, i: nat)
    requires i < |s.deliveries|
  {
    var d := s.deliveries[i];
    && d.now <= TIMESTAMP_MASK
    && (d.pc.Loaded? ==> d.pc.word == STAGE_IDLE || d.pc.word == Anchored(s) || s.stored)
    && (d.pc.Deciding? ==> s.winners != [] && (d.pc.since == Opened(Anchored(s)) || s.stored))
    && (d.pc == Won ==> s.winners == [i])
    && (d.pc in {Forcing, Exiting} ==> s.forced.Some?)
    && (d.pc in {Forcing, Exiting, Returned} ==> s.winners != []) && (d.pc == Exiting ==> s.stored)
  }

  predicate ForcedOk(s: State) {
    && (s.stored ==> s.forced.Some?)
    && (s.forced.Some? ==>
          && s.winners != [] && s.forced.value.index < |s.deliveries|
          && s.deliveries[s.forced.value.index].pc in {Forcing, Exiting}
          && Elapsed(s.deliveries[s.forced.value.index].now, Opened(Anchored(s))) >= s.forced.value.window
          && 1 <= s.forced.value.window)
  }

  predicate Sound(s: State) {
    && WinnerOk(s) && ForcedOk(s) && s.window >= 1
    && (s.stored || s.word == Anchored(s))
    && (s.stored ==> s.word == STAGE_FORCE_EXIT)
    && forall i :: 0 <= i < |s.deliveries| ==> SeenOk(s, i)
  }

  // The window is the recording's for as long as it is armed, and the default one
  // whenever it is not and no store of arming or disarming is outstanding.
  predicate ArmedOk(s: State) {
    && (!s.armed && s.owner == Free ==> s.window == DEFAULT_GRACE_WINDOW_MS)
    && (s.armed ==> s.window == RECORDING_GRACE_WINDOW_MS && s.owner != Disarming)
    && (s.owner == Arming ==> s.window == RECORDING_GRACE_WINDOW_MS)
    && (s.forced.Some? && s.forced.value.armed ==> s.forced.value.window == RECORDING_GRACE_WINDOW_MS)
  }

  // A delivery's own move touches no other delivery and not the anchor.
  lemma AnchorMoved(s: State, i: nat, pc: Pc)
    requires i < |s.deliveries|
    ensures Anchored(Moved(s, i, pc)) == Anchored(s)
  {
    hide Pack;
  }

  predicate AllSeen(s: State) {
    forall i :: 0 <= i < |s.deliveries| ==> SeenOk(s, i)
  }

  // After a step of delivery `i` that keeps the winner.
  lemma OthersSeen(s: State, s': State, i: nat)
    requires i < |s.deliveries| == |s'.deliveries| && AllSeen(s) && SeenOk(s', i)
    requires s'.deliveries == s.deliveries[i := s'.deliveries[i]] && s'.winners == s.winners
    requires Anchored(s') == Anchored(s) && (s.stored ==> s'.stored) && (s.forced.Some? ==> s'.forced.Some?)
    ensures AllSeen(s')
  {
    hide Pack, Opened, Anchored;
    forall j | 0 <= j < |s'.deliveries| ensures SeenOk(s', j) {
      assert SeenOk(s, j);
    }
  }

  lemma LoadSound(s: State, i: nat, spurious: bool)
    requires Sound(s) && i < |s.deliveries| && s.deliveries[i].pc == Loading
    ensures Sound(HandlerStep(s, i, spurious))
  {
    hide Pack, Opened, Elapsed, Anchored;
    var s' := HandlerStep(s, i, spurious);
    AnchorMoved(s, i, s'.deliveries[i].pc);
    assert SeenOk(s, i);
    OthersSeen(s, s', i);
  }

  lemma WordSays(s: State, word: nat)
    requires Sound(s) && (word == STAGE_IDLE || word == Anchored(s) || s.stored)
    ensures word != STAGE_IDLE ==> s.winners != []
    ensures s.winners != [] ==> Anchored(s) != STAGE_IDLE
  {
    hide Opened, SeenOk;
    if s.winners != [] { PackDecodes(s.deliveries[s.winners[0]].now); }
  }

  lemma ExchangeSound(s: State, i: nat, spurious: bool)
    requires Sound(s) && i < |s.deliveries| && s.deliveries[i].pc.Loaded?
    requires s.deliveries[i].pc.word != STAGE_IDLE || s.word != STAGE_IDLE || spurious
    ensures Sound(HandlerStep(s, i, spurious))
  {
    hide Pack, Opened, Elapsed, Anchored;
    var s' := HandlerStep(s, i, spurious);
    AnchorMoved(s, i, s'.deliveries[i].pc);
    assert SeenOk(s, i);
    WordSays(s, s.deliveries[i].pc.word);
    OthersSeen(s, s', i);
  }

  // The one exchange that succeeds.
  lemma WinSound(s: State, i: nat)
    requires Sound(s) && i < |s.deliveries| && s.deliveries[i].pc == Loaded(STAGE_IDLE) && s.word == STAGE_IDLE
    ensures Sound(HandlerStep(s, i, false)) && s.winners == []
  {
    hide Opened, Elapsed;
    var s' := HandlerStep(s, i, false);
    WordSays(s, s.word);
    PackDecodes(s.deliveries[i].now);
    hide Pack;
    forall j | 0 <= j < |s'.deliveries| ensures SeenOk(s', j) {
      assert SeenOk(s, j);
    }
  }

  lemma ShutdownSound(s: State, i: nat, spurious: bool)
    requires Sound(s) && i < |s.deliveries| && s.deliveries[i].pc == Won
    ensures Sound(HandlerStep(s, i, spurious))
  {
    hide Pack, Opened, Elapsed, Anchored;
    var s' := HandlerStep(s, i, spurious);
    AnchorMoved(s, i, Returned);
    SameAnchor(Moved(s, i, Returned), s');
    assert SeenOk(s, i);
    OthersSeen(s, s', i);
  }

  lemma SameAnchor(s: State, s': State)
    requires s'.winners == s.winners && s'.deliveries == s.deliveries
    ensures Anchored(s') == Anchored(s)
  {
  }

  lemma DecideSound(s: State, i: nat, spurious: bool)
    requires Sound(s) && i < |s.deliveries| && s.deliveries[i].pc.Deciding?
    ensures Sound(HandlerStep(s, i, spurious))
  {
    hide Pack, Opened, Elapsed, Anchored;
    var s' := HandlerStep(s, i, spurious);
    AnchorMoved(s, i, s'.deliveries[i].pc);
    SameAnchor(Moved(s, i, s'.deliveries[i].pc), s');
    assert SeenOk(s, i);
    OthersSeen(s, s', i);
  }

  lemma ForceSound(s: State, i: nat, spurious: bool)
    requires Sound(s) && i < |s.deliveries| && s.deliveries[i].pc == Forcing
    ensures Sound(HandlerStep(s, i, spurious))
  {
    hide Pack, Opened, Elapsed, Anchored;
    var s' := HandlerStep(s, i, spurious);
    AnchorMoved(s, i, Exiting);
    SameAnchor(Moved(s, i, Exiting), s');
    assert SeenOk(s, i);
    OthersSeen(s, s', i);
  }

  lemma SoundInHandler(s: State, i: nat, spurious: bool)
    requires Sound(s) && i < |s.deliveries|
    ensures Sound(HandlerStep(s, i, spurious))
  {
    hide Sound;
    match s.deliveries[i].pc
    case Loading => LoadSound(s, i, spurious);
    case Loaded(word) =>
      if word == STAGE_IDLE && s.word == STAGE_IDLE && !spurious { WinSound(s, i); }
      else { ExchangeSound(s, i, spurious); }
    case Won => ShutdownSound(s, i, spurious);
    case Deciding(_) => DecideSound(s, i, spurious);
    case Forcing => ForceSound(s, i, spurious);
    case _ =>
  }

  lemma DeliverSound(s: State)
    requires Sound(s)
    ensures Sound(Next(s, Deliver))
  {
    hide Pack, Opened, Elapsed;
    var s' := Next(s, Deliver);
    assert Anchored(s') == Anchored(s);
    forall j | 0 <= j < |s'.deliveries| ensures SeenOk(s', j) {
      if j < |s.deliveries| { assert SeenOk(s, j); }
    }
  }

  // Steps that touch neither the word nor a delivery.
  predicate Quiet(s: State, s': State) {
    && s'.deliveries == s.deliveries && s'.winners == s.winners && s'.word == s.word && s'.shutdown == s.shutdown
    && s'.forced == s.forced && s'.stored == s.stored && s'.window >= 1
  }

  lemma QuietKeeps(s: State, s': State)
    requires Sound(s) && Quiet(s, s')
    ensures Sound(s')
  {
    hide Pack, Opened, Elapsed;
    forall j | 0 <= j < |s'.deliveries| ensures SeenOk(s', j) {
      assert SeenOk(s, j);
    }
  }

  lemma QuietSound(s: State, a: Action)
    requires Sound(s) && !a.Step? && !a.Deliver?
    ensures Sound(Next(s, a))
  {
    hide HandlerStep, SeenOk, ForcedOk, WinnerOk, Anchored;
    assert Quiet(s, Next(s, a));
    QuietKeeps(s, Next(s, a));
  }

  lemma {:induction false} AlwaysSound(run: seq<Action>)
    ensures Sound(Exec(run))
  {
    hide Sound, HandlerStep;
    if run == [] {
      StartsSound();
    } else {
      var s, a := Exec(run[..|run| - 1]), run[|run| - 1];
      AlwaysSound(run[..|run| - 1]);
      if a.Deliver? { DeliverSound(s); }
      else if !a.Step? { QuietSound(s, a); }
      else if a.i < |s.deliveries| { SoundInHandler(s, a.i, a.spurious); }
    }
  }

  lemma StartsSound()
    ensures Sound(INITIAL)
  {
  }

  // ----- the grace window -----

  // Whatever the interleaving, at most one delivery wins, and the word is idle
  // exactly until it does; cooperative shutdown is requested by the winner alone,
  // and by its return at the latest.
  lemma ExactlyOneWins(run: seq<Action>)
    ensures var s := Exec(run);
            && |s.winners| <= 1 && (s.word == STAGE_IDLE <==> s.winners == [])
            && (s.shutdown <==> exists i :: i in s.winners && i < |s.deliveries| && s.deliveries[i].pc == Returned)
  {
    hide Pack, Opened, SeenOk;
    AlwaysSound(run);
    var s := Exec(run);
    WordSays(s, s.word);
    if s.winners != [] && s.shutdown { assert s.winners[0] in s.winners; }
  }

  // A process that exits by force has left the forced stage in the word.
  lemma ForcedStageStays(run: seq<Action>, i: nat)
    requires i < |Exec(run).deliveries| && Exec(run).deliveries[i].pc == Exiting
    ensures Exec(run).stored && Exec(run).word == STAGE_FORCE_EXIT
  {
    hide Exec;
    AlwaysSound(run);
    assert SeenOk(Exec(run), i);
  }

  // Somebody does win: a delivery gets past the exchange only if one won, and the
  // exchange on an idle word makes it the winner, with its own time as the anchor.
  // Once every delivery has returned, the shutdown was requested.
  lemma FirstSignalWins(run: seq<Action>)
    ensures var s := Exec(run);
            && (forall i :: 0 <= i < |s.deliveries| && !s.deliveries[i].pc.Loading? && !s.deliveries[i].pc.Loaded? ==>
                  s.winners != [])
            && (s.deliveries != [] && (forall i :: 0 <= i < |s.deliveries| ==> s.deliveries[i].pc == Returned) ==>
                  s.shutdown)
    ensures var s := Exec(run);
            forall i :: 0 <= i < |s.deliveries| && s.deliveries[i].pc == Loaded(STAGE_IDLE) && s.word == STAGE_IDLE ==>
              var s' := Next(s, Step(i, false));
              && s'.winners == [i] && s'.deliveries[i].pc == Won && s'.word == Pack(s.deliveries[i].now)
              && !s'.shutdown && Next(s', Step(i, false)).shutdown
  {
    hide Exec, Pack, Opened, Elapsed;
    AlwaysSound(run);
    var s := Exec(run);
    forall i | 0 <= i < |s.deliveries| && !s.deliveries[i].pc.Loading? && !s.deliveries[i].pc.Loaded?
      ensures s.winners != []
    {
      assert SeenOk(s, i);
    }
    if s.deliveries != [] && s.deliveries[0].pc == Returned { assert s.winners != []; }
    WordSays(s, s.word);
  }

  // How many own steps a delivery at `pc` can still need.
  function Rank(pc: Pc, idle: bool): nat {
    match pc
    case Loading => if idle then 6 else 4
    case Loaded(word) => if word == STAGE_IDLE then 5 else 3
    case Deciding(_) => 2
    case Won => 1
    case Forcing => 1
    case Exiting => 0
    case Returned => 0
  }

  function RankOf(s: State, i: nat): nat
    requires i < |s.deliveries|
  {
    Rank(s.deliveries[i].pc, s.word == STAGE_IDLE)
  }

  // Where a step leaves each delivery.
  lemma MoveSays(s: State, i: nat, pc: Pc, j: nat)
    requires i < |s.deliveries| && j < |s.deliveries|
    ensures var s' := Moved(s, i, pc);
            && |s'.deliveries| == |s.deliveries| && s'.word == s.word
            && s'.deliveries[j].pc == if j == i then pc else s.deliveries[j].pc
  {
  }

  lemma StepSays(s: State, i: nat, spurious: bool, j: nat)
    requires i < |s.deliveries| && j < |s.deliveries|
    ensures var s' := HandlerStep(s, i, spurious);
            && |s'.deliveries| == |s.deliveries| && (s.word != STAGE_IDLE ==> s'.word != STAGE_IDLE)
            && (j != i ==> s'.deliveries[j].pc == s.deliveries[j].pc)
            && (j == i && !spurious && RankOf(s, i) > 0 ==> RankOf(s', i) < RankOf(s, i))
            && (j == i && !spurious && RankOf(s, i) == 0 ==> s' == s)
  {
    PackDecodes(s.deliveries[i].now);
    hide Pack, Opened, Elapsed, Moved;
    match s.deliveries[i].pc
    case Loading => MoveSays(s, i, Loaded(s.word), j);
    case Loaded(word) =>
      MoveSays(s, i, Deciding(Opened(word)), j);
      MoveSays(s, i, Won, j);
      MoveSays(s, i, Loading, j);
    case Won => MoveSays(s, i, Returned, j);
    case Deciding(_) =>
      MoveSays(s, i, Forcing, j);
      MoveSays(s, i, Returned, j);
    case Forcing => MoveSays(s, i, Exiting, j);
    case _ =>
  }

  // The handler's loop ends: a delivery that is not through gets closer with each
  // step of its own that does not fail spuriously, six at most, and no step of
  // anybody else sets it back.
  lemma HandlerEnds(s: State, a: Action, i: nat)
    requires i < |s.deliveries|
    ensures i < |Next(s, a).deliveries| && RankOf(s, i) <= 6
    ensures a != Step(i, true) ==> RankOf(Next(s, a), i) <= RankOf(s, i)
    ensures a == Step(i, false) && RankOf(s, i) > 0 ==> RankOf(Next(s, a), i) < RankOf(s, i)
    ensures RankOf(s, i) == 0 <==> s.deliveries[i].pc in {Returned, Exiting}
  {
    hide HandlerStep;
    if a.Step? && a.i < |s.deliveries| { StepSays(s, a.i, a.spurious, i); }
  }

  // The milliseconds ticked.
  function Ticked(run: seq<Action>): nat {
    if run == [] then 0
    else Ticked(run[..|run| - 1]) + if run[|run| - 1].Tick? then run[|run| - 1].ms else 0
  }

  lemma {:induction false} ClockTicks(run: seq<Action>)
    ensures Exec(run).clock == Ticked(run)
  {
    if run != [] {
      ClockTicks(run[..|run| - 1]);
      HandlerKeepsClock(Exec(run[..|run| - 1]), run[|run| - 1]);
    }
  }

  lemma HandlerKeepsClock(s: State, a: Action)
    ensures Next(s, a).clock == s.clock + if a.Tick? then a.ms else 0
  {
    hide Pack, Opened, Elapsed;
  }

  // A delivery's time is what had ticked when it came, whatever happens later.
  lemma {:induction false} DeliveryReadsClock(run: seq<Action>, more: seq<Action>)
    ensures var i := |Exec(run).deliveries|;
            && i < |Exec(run + [Deliver] + more).deliveries|
            && Exec(run + [Deliver] + more).deliveries[i].now
               == if Ticked(run) <= TIMESTAMP_MASK then Ticked(run) else TIMESTAMP_MASK
    decreases |more|
  {
    hide Next, Ticked;
    var all := run + [Deliver] + more;
    ClockTicks(run);
    if more == [] {
      assert all[..|all| - 1] == run && all[|all| - 1] == Deliver;
      DeliverAppends(Exec(run));
    } else {
      DeliveryReadsClock(run, more[..|more| - 1]);
      assert all[..|all| - 1] == run + [Deliver] + more[..|more| - 1];
      TimesStay(Exec(all[..|all| - 1]), all[|all| - 1], |Exec(run).deliveries|);
    }
  }

  lemma DeliverAppends(s: State)
    ensures var now := if s.clock <= TIMESTAMP_MASK then s.clock else TIMESTAMP_MASK;
            Next(s, Deliver).deliveries == s.deliveries + [Delivery(now, Loading)]
  {
  }

  lemma TimesStay(s: State, a: Action, i: nat)
    requires i < |s.deliveries|
    ensures i < |Next(s, a).deliveries| && Next(s, a).deliveries[i].now == s.deliveries[i].now
  {
    hide HandlerStep;
    if a.Step? && a.i < |s.deliveries| { HandlerKeepsTimes(s, a.i, a.spurious); }
  }

  // Until a forced exit is stored the word holds the grace stage and the very time
  // the winner read.
  lemma AnchorIsWinnersTime(run: seq<Action>)
    requires Exec(run).winners != [] && !Exec(run).stored
    ensures var s := Exec(run);
            && s.winners[0] < |s.deliveries| && s.word / 0x4000_0000_0000_0000 == 1
            && Opened(s.word) == s.deliveries[s.winners[0]].now
  {
    AlwaysSound(run);
    var s := Exec(run);
    assert SeenOk(s, s.winners[0]);
    PackDecodes(s.deliveries[s.winners[0]].now);
  }

  // A move changes one delivery's place and nothing else.
  lemma MoveShape(s: State, i: nat, pc: Pc)
    requires i < |s.deliveries|
    ensures var s' := Moved(s, i, pc);
            && s' == s.(deliveries := s'.deliveries) && |s'.deliveries| == |s.deliveries|
            && forall j :: 0 <= j < |s.deliveries| ==> s'.deliveries[j].now == s.deliveries[j].now
  {
  }

  lemma HandlerKeepsTimes(s: State, i: nat, spurious: bool)
    requires i < |s.deliveries|
    ensures var s' := HandlerStep(s, i, spurious);
            && (s.word != STAGE_IDLE ==> s'.winners == s.winners) && |s'.deliveries| == |s.deliveries|
            && (s.stored ==> s'.stored)
            && forall j :: 0 <= j < |s.deliveries| ==> s'.deliveries[j].now == s.deliveries[j].now
  {
    hide Pack, Opened, Elapsed, Moved;
    match s.deliveries[i].pc
    case Loading => MoveShape(s, i, Loaded(s.word));
    case Loaded(word) =>
      MoveShape(s, i, Deciding(Opened(word)));
      MoveShape(s, i, Won);
      MoveShape(s, i, Loading);
    case Won => MoveShape(s, i, Returned);
    case Deciding(_) =>
      MoveShape(s, i, Forcing);
      MoveShape(s, i, Returned);
    case Forcing => MoveShape(s, i, Exiting);
    case _ =>
  }

  lemma WinnerStays(s: State, a: Action)
    requires Sound(s) && s.winners != []
    ensures var s' := Next(s, a);
            && s'.winners == s.winners && s.winners[0] < |s.deliveries| <= |s'.deliveries|
            && s'.deliveries[s.winners[0]].now == s.deliveries[s.winners[0]].now
            && (s.stored ==> s'.stored)
  {
    hide Pack, Opened, Elapsed, SeenOk, HandlerStep, ForcedOk;
    WordSays(s, s.word);
    if a.Step? && a.i < |s.deliveries| { HandlerKeepsTimes(s, a.i, a.spurious); }
  }

  // Once won, the winner and its time never change, so neither does the anchor.
  lemma {:induction false} AnchorNeverMoves(run: seq<Action>, more: seq<Action>)
    requires Exec(run).winners != []
    ensures var s, s' := Exec(run), Exec(run + more);
            && s'.winners == s.winners && Anchored(s') == Anchored(s)
            && (!s'.stored ==> s'.word == s.word)
    decreases |more|
  {
    hide Pack, Sound, Next;
    if more == [] {
      assert run + more == run;
    } else {
      var earlier, a := more[..|more| - 1], more[|more| - 1];
      AnchorNeverMoves(run, earlier);
      assert (run + more)[..|run + more| - 1] == run + earlier && (run + more)[|run + more| - 1] == a;
      AlwaysSound(run + earlier);
      AlwaysSound(run + more);
      AlwaysSound(run);
      WinnerStays(Exec(run + earlier), a);
      WordIsAnchor(Exec(run));
      WordIsAnchor(Exec(run + earlier));
      WordIsAnchor(Exec(run + more));
    }
  }

  lemma WordIsAnchor(s: State)
    requires Sound(s)
    ensures s.stored || s.word == Anchored(s)
    ensures s.winners != [] ==> |s.winners| == 1 && s.winners[0] < |s.deliveries|
  {
    hide Pack, Opened, SeenOk;
  }

  // A forced exit is decided no earlier than the window then live, measured from
  // the winner's time; the deciding delivery came later than the winner.
  lemma ForcedExitIsLate(run: seq<Action>)
    requires Exec(run).forced.Some?
    ensures var s := Exec(run);
            && s.winners != [] && s.winners[0] < |s.deliveries| && s.forced.value.index < |s.deliveries|
            && var first, last := s.deliveries[s.winners[0]].now, s.deliveries[s.forced.value.index].now;
            && first + s.forced.value.window <= last && first < last
  {
    AlwaysSound(run);
    var s := Exec(run);
    assert SeenOk(s, s.winners[0]);
    PackDecodes(s.deliveries[s.winners[0]].now);
  }

  lemma ArmedInHandler(s: State, i: nat, spurious: bool)
    requires ArmedOk(s) && i < |s.deliveries|
    ensures ArmedOk(HandlerStep(s, i, spurious))
  {
    hide Pack, Opened, Elapsed, Moved;
    match s.deliveries[i].pc
    case Loading => MoveShape(s, i, Loaded(s.word));
    case Loaded(word) =>
      MoveShape(s, i, Deciding(Opened(word)));
      MoveShape(s, i, Won);
      MoveShape(s, i, Loading);
    case Won => MoveShape(s, i, Returned);
    case Deciding(_) =>
      MoveShape(s, i, Forcing);
      MoveShape(s, i, Returned);
    case Forcing => MoveShape(s, i, Exiting);
    case _ =>
  }

  lemma ArmedKept(s: State, a: Action)
    requires ArmedOk(s) && !a.SetWindow?
    ensures ArmedOk(Next(s, a))
  {
    hide HandlerStep;
    if a.Step? && a.i < |s.deliveries| { ArmedInHandler(s, a.i, a.spurious); }
  }

  lemma {:induction false} AlwaysArmed(run: seq<Action>)
    requires WindowKept(run)
    ensures ArmedOk(Exec(run))
  {
    hide Next, ArmedOk;
    if run == [] {
      StartsArmed();
    } else {
      AlwaysArmed(run[..|run| - 1]);
      ArmedKept(Exec(run[..|run| - 1]), run[|run| - 1]);
    }
  }

  lemma StartsArmed()
    ensures ArmedOk(INITIAL)
  {
  }

  // Between arming and disarming the window is the recording's, and at any other
  // time, a disarming included, the default one is back.
  lemma WindowFollowsArming(run: seq<Action>)
    requires WindowKept(run) && Exec(run).owner == Free
    ensures var s := Exec(run);
            s.window == if s.armed then RECORDING_GRACE_WINDOW_MS else DEFAULT_GRACE_WINDOW_MS
  {
    hide Exec;
    AlwaysArmed(run);
  }

  // Arming and disarming each take two stores and then have done what they are for;
  // a disarming that finds nothing armed leaves the window to whoever holds it.
  lemma ArmingWorks(run: seq<Action>, ms: nat)
    requires Exec(run).owner == Free
    ensures var s := Exec(run + [Arm] + [Arm]);
            s.armed && s.window == RECORDING_GRACE_WINDOW_MS && s.owner == Free
    ensures var s := Exec(run + [Disarm] + [Disarm]);
            && !s.armed && s.owner == Free
            && s.window == if Exec(run).armed then DEFAULT_GRACE_WINDOW_MS else Exec(run).window
    ensures ms >= 1 ==> Exec(run + [SetWindow(ms)]).window == ms
  {
    hide Exec, Next;
    TwoStores(Exec(run), ms);
    Appended(run, Arm);
    Appended(run + [Arm], Arm);
    Appended(run, Disarm);
    Appended(run + [Disarm], Disarm);
    Appended(run, SetWindow(ms));
  }

  lemma TwoStores(s: State, ms: nat)
    requires s.owner == Free
    ensures var s' := Next(Next(s, Arm), Arm); s'.armed && s'.window == RECORDING_GRACE_WINDOW_MS && s'.owner == Free
    ensures var s' := Next(Next(s, Disarm), Disarm);
            !s'.armed && s'.owner == Free && s'.window == if s.armed then DEFAULT_GRACE_WINDOW_MS else s.window
    ensures ms >= 1 ==> Next(s, SetWindow(ms)).window == ms
  {
    hide HandlerStep;
  }

  lemma Appended(run: seq<Action>, a: Action)
    ensures Exec(run + [a]) == Next(Exec(run), a)
  {
    assert (run + [a])[..|run|] == run;
  }

  // While a recording is armed no forced exit is decided within five seconds of
  // the first signal.
  lemma ArmedMeansFiveSeconds(run: seq<Action>)
    requires WindowKept(run) && Exec(run).forced.Some? && Exec(run).forced.value.armed
    ensures var s := Exec(run);
            && s.winners != [] && s.winners[0] < |s.deliveries| && s.forced.value.index < |s.deliveries|
            && s.deliveries[s.forced.value.index].now >= s.deliveries[s.winners[0]].now + 5000
  {
    hide Exec;
    ForcedExitIsLate(run);
    AlwaysArmed(run);
  }

  // A repeated delivery is swallowed exactly while it came inside the live window
  // after the winner.
  lemma SwallowedExactlyInside(run: seq<Action>, i: nat, spurious: bool)
    requires var s := Exec(run); i < |s.deliveries| && s.deliveries[i].pc.Deciding? && !s.stored
    ensures var s := Exec(run);
            && s.winners != [] && s.winners[0] < |s.deliveries|
            && var pc := Next(s, Step(i, spurious)).deliveries[i].pc;
            && pc in {Returned, Forcing}
            && (pc == Returned <==> s.deliveries[i].now < s.deliveries[s.winners[0]].now + s.window)
  {
    hide Exec, Pack, Opened;
    AlwaysSound(run);
    var s := Exec(run);
    assert SeenOk(s, i);
    assert SeenOk(s, s.winners[0]);
    PackDecodes(s.deliveries[s.winners[0]].now);
  }
}
