/**
 The wired cast page: two services, Android and AirPlay over a cable, share one screen.
 A START event of one evicts the other, a STOP event may reset both, and init, start,
 stop and exit are guarded by flags.

 Each thread the source starts for an eviction or a reset is taken to finish before the
 next event. `Line` is one service as the page sees it, with the trace of the calls made
 into the library; `CastState` is everything; `Step` is one event.
 */
module WiredCast {

  datatype Service = Android | AirPlay

  datatype Screen = Invalid | Listening | ShowAndroid | ShowAirPlay

  /** One call into a service's library; `init` is recorded with its answer. */
  datatype Call = InitOk | InitFail | Start | Stop | Exit

  /** How the library answers `init`; `Absent` when the library could not be loaded. */
  datatype Answer = Absent | Fails | Works

  datatype Line = Line(inited: bool, stopped: bool, trace: seq<Call>)

  datatype CastState = CastState(
    screen: Screen,
    android: Line,
    airplay: Line,
    keyFlag: bool,
    shown: bool,
    page: bool,
    registered: bool)

  const BOOT := CastState(Invalid, Line(false, false, []), Line(false, false, []), false, false, false, false)

  function Other(k: Service): Service {
    match k case Android => AirPlay case AirPlay => Android
  }

  function LineOf(s: CastState, k: Service): Line {
    match k case Android => s.android case AirPlay => s.airplay
  }

  function ScreenOf(k: Service): Screen {
    match k case Android => ShowAndroid case AirPlay => ShowAirPlay
  }

  // ---------------------------------------------------------------- the operations

  function InitLine(l: Line, answer: Answer): Line {
    match answer
    case Absent => Line(false, false, l.trace)
    case Fails => Line(false, false, l.trace + [InitFail])
    case Works => Line(true, false, l.trace + [InitOk])
  }

  function StartLine(l: Line): Line {
    if !l.stopped && l.inited then l.(trace := l.trace + [Start]) else l
  }

  function StopLine(l: Line): Line {
    if !l.stopped && l.inited then Line(true, true, l.trace + [Stop]) else l
  }

  function ExitLine(l: Line): Line {
    Line(false, false, if l.inited then l.trace + [Exit] else l.trace)
  }

  function Init(s: CastState, onAndroid: Answer, onAirPlay: Answer): CastState {
    s.(screen := Invalid, android := InitLine(s.android, onAndroid), airplay := InitLine(s.airplay, onAirPlay),
       registered := true)
  }

  function StartService(s: CastState): CastState {
    s.(screen := Listening, android := StartLine(s.android), airplay := StartLine(s.airplay))
  }

  function StopService(s: CastState): CastState {
    s.(screen := Invalid, android := StopLine(s.android), airplay := StopLine(s.airplay))
  }

  function ExitAll(s: CastState): CastState {
    s.(screen := Invalid, android := ExitLine(s.android), airplay := ExitLine(s.airplay))
  }

  /** Stops every service but the one whose screen is shown. */
  function Remove(s: CastState): CastState {
    s.(airplay := if s.screen != ShowAirPlay then StopLine(s.airplay) else s.airplay,
       android := if s.screen != ShowAndroid then StopLine(s.android) else s.android)
  }

  function Reset(s: CastState, onAndroid: Answer, onAirPlay: Answer): CastState {
    StartService(Init(ExitAll(StopService(s)), onAndroid, onAirPlay))
  }

  function OnStart(s: CastState, k: Service): CastState {
    Remove(s.(screen := ScreenOf(k))).(shown := true, keyFlag := false)
  }

  /** A STOP resets both services unless a key was pressed or the other service is in use. */
  function OnStop(s: CastState, k: Service, onAndroid: Answer, onAirPlay: Answer): CastState {
    var other := LineOf(s, Other(k));
    if !s.keyFlag && (!other.inited || other.stopped) then Reset(s.(shown := false), onAndroid, onAirPlay) else s
  }

  // ---------------------------------------------------------------- steps and runs

  datatype Event =
    | CreatePage(onAndroid: Answer, onAirPlay: Answer)
    | DestroyPage
    | MirrorStart(k: Service)
    | MirrorStop(k: Service, onAndroid: Answer, onAirPlay: Answer)
    | ChannelKey
    | BackKey(onAndroid: Answer, onAirPlay: Answer)

  /** The page manager alternates create and destroy, keys reach only a shown cast screen, and a library can
      call back once its callback was registered. */
  predicate Enabled(s: CastState, e: Event) {
    match e
    case CreatePage(_, _) => !s.page
    case DestroyPage => s.page
    case MirrorStart(_) => s.registered
    case MirrorStop(_, _, _) => s.registered
    case ChannelKey => s.shown
    case BackKey(_, _) => s.shown
  }

  function Step(s: CastState, e: Event): CastState {
    if !Enabled(s, e) then s
    else match e
      case CreatePage(a, b) => StartService(Init(s.(page := true), a, b))
      case DestroyPage => ExitAll(StopService(s.(shown := false))).(page := false)
      case MirrorStart(k) => OnStart(s, k)
      case MirrorStop(k, a, b) => OnStop(s, k, a, b)
      case ChannelKey => s.(keyFlag := true)
      case BackKey(a, b) => Reset(s.(keyFlag := true), a, b).(shown := false)
  }

  function Run(s: CastState, es: seq<Event>): CastState
    decreases |es|
  {
    if es == [] then s else Run(Step(s, es[0]), es[1..])
  }

  // ---------------------------------------------------------------- lawful traces

  /** Where in its cycle a service stands; `Broken` once a call came out of turn. */
  datatype Stage = Off | Ready | Up | Halted | Broken

  function Turn(stage: Stage, c: Call): Stage {
    match (stage, c)
    case (Off, InitOk) => Ready
    case (Off, InitFail) => Off
    case (Ready, Start) => Up
    case (Up, Stop) => Halted
    case (Halted, Exit) => Off
    case _ => Broken
  }

  function StageOf(trace: seq<Call>): Stage {
    if trace == [] then Off else Turn(StageOf(trace[..|trace| - 1]), trace[|trace| - 1])
  }

  lemma Snoc(trace: seq<Call>, c: Call)
    ensures StageOf(trace + [c]) == Turn(StageOf(trace), c)
  {
    assert (trace + [c])[..|trace|] == trace;
  }

  const CYCLE: seq<Call> := [InitOk, Start, Stop, Exit]

  /** The calls other than failed inits. */
  function Successful(trace: seq<Call>): seq<Call> {
    if trace == [] then []
    else
      var front := Successful(trace[..|trace| - 1]);
      if trace[|trace| - 1] == InitFail then front else front + [trace[|trace| - 1]]
  }

  /** The successful calls are a prefix of (init start stop exit) repeated; a failed init is followed by nothing
      but another init. */
  ghost predicate Lawful(trace: seq<Call>) {
    && (forall i | 0 <= i < |Successful(trace)| :: Successful(trace)[i] == CYCLE[i % 4])
    && (forall i, j | 0 <= i && j == i + 1 < |trace| && trace[i] == InitFail ::
          trace[j] == InitFail || trace[j] == InitOk)
  }

  /** How far into the cycle a stage is. */
  function Turns(stage: Stage): nat {
    match stage
    case Off => 0
    case Ready => 1
    case Up => 2
    case Halted => 3
    case Broken => 4
  }

  lemma NextInCycle(n: nat)
    ensures (n + 1) % 4 == if n % 4 == 3 then 0 else n % 4 + 1
  {
  }

  lemma TurnFollows(stage: Stage, c: Call)
    requires Turn(stage, c) != Broken && c != InitFail
    ensures stage != Broken && c == CYCLE[Turns(stage)]
    ensures Turns(Turn(stage, c)) == if Turns(stage) == 3 then 0 else Turns(stage) + 1
  {
  }

  lemma {:induction false} SuccessfulCycle(trace: seq<Call>)
    requires StageOf(trace) != Broken
    ensures |Successful(trace)| % 4 == Turns(StageOf(trace))
    ensures forall i | 0 <= i < |Successful(trace)| :: Successful(trace)[i] == CYCLE[i % 4]
  {
    if trace != [] {
      var front, c := trace[..|trace| - 1], trace[|trace| - 1];
      SuccessfulCycle(front);
      if c != InitFail {
        TurnFollows(StageOf(front), c);
        NextInCycle(|Successful(front)|);
      }
    }
  }

  lemma {:induction false} FailThenInit(trace: seq<Call>)
    requires StageOf(trace) != Broken
    ensures trace != [] && trace[|trace| - 1] == InitFail ==> StageOf(trace) == Off
    ensures forall i, j | 0 <= i && j == i + 1 < |trace| && trace[i] == InitFail ::
              trace[j] == InitFail || trace[j] == InitOk
  {
    if trace != [] {
      FailThenInit(trace[..|trace| - 1]);
    }
  }

  lemma UnbrokenIsLawful(trace: seq<Call>)
    requires StageOf(trace) != Broken
    ensures Lawful(trace)
    ensures |Successful(trace)| % 4 == Turns(StageOf(trace))
    ensures trace != [] && trace[|trace| - 1] == InitFail ==> StageOf(trace) == Off
  {
    SuccessfulCycle(trace);
    FailThenInit(trace);
  }

  function Count(trace: seq<Call>, c: Call): nat {
    if trace == [] then 0 else Count(trace[..|trace| - 1], c) + if trace[|trace| - 1] == c then 1 else 0
  }

  lemma {:induction false} CallsMatch(trace: seq<Call>)
    requires StageOf(trace) != Broken
    ensures var stage := StageOf(trace);
            && Count(trace, InitOk) == Count(trace, Start) + (if stage == Ready then 1 else 0)
            && Count(trace, Start) == Count(trace, Stop) + (if stage == Up then 1 else 0)
            && Count(trace, Stop) == Count(trace, Exit) + (if stage == Halted then 1 else 0)
  {
    if trace != [] {
      CallsMatch(trace[..|trace| - 1]);
    }
  }

  // ---------------------------------------------------------------- invariants

  predicate Running(l: Line) {
    l.inited && !l.stopped
  }

  /** Between events the flags say exactly where in the cycle the trace stands. */
  predicate LineInv(l: Line) {
    && (l.stopped ==> l.inited)
    && StageOf(l.trace) == if !l.inited then Off else if l.stopped then Halted else Up
  }

  predicate Inv(s: CastState) {
    && LineInv(s.android)
    && LineInv(s.airplay)
    && (!s.page ==> !s.android.inited && !s.airplay.inited)
    && (s.page ==> s.registered)
    && (s.screen == ShowAndroid ==> !Running(s.airplay))
    && (s.screen == ShowAirPlay ==> !Running(s.android))
  }

  /** What the lifecycle promises between events. */
  ghost predicate Lifecycle(s: CastState) {
    && Lawful(s.android.trace) && Lawful(s.airplay.trace)
    && (s.screen == ShowAndroid ==> !Running(s.airplay))
    && (s.screen == ShowAirPlay ==> !Running(s.android))
    && (!s.page ==> Matched(s.android.trace) && Matched(s.airplay.trace))
  }

  /** Every successful init was matched by one start, one stop and one exit. */
  predicate Matched(trace: seq<Call>) {
    && Count(trace, Start) == Count(trace, InitOk)
    && Count(trace, Stop) == Count(trace, InitOk)
    && Count(trace, Exit) == Count(trace, InitOk)
  }

  /** An event that restarts services behind a page already destroyed: a STOP with no key flagged, or BACK on the
      cast screen a late START has shown, if some init then works. */
  predicate Stray(s: CastState, e: Event) {
    && !s.page
    && match e
       case MirrorStop(_, a, b) => s.registered && !s.keyFlag && (a.Works? || b.Works?)
       case BackKey(a, b) => s.shown && (a.Works? || b.Works?)
       case _ => false
  }

  lemma InvIsLifecycle(s: CastState)
    requires Inv(s)
    ensures Lifecycle(s)
  {
    UnbrokenIsLawful(s.android.trace);
    UnbrokenIsLawful(s.airplay.trace);
    CallsMatch(s.android.trace);
    CallsMatch(s.airplay.trace);
  }

  lemma StopLineKeeps(l: Line)
    requires LineInv(l)
    ensures LineInv(StopLine(l)) && !Running(StopLine(l))
  {
    if Running(l) {
      Snoc(l.trace, Stop);
    }
  }

  lemma ExitLineKeeps(l: Line)
    requires LineInv(l) && !Running(l)
    ensures LineInv(ExitLine(l))
  {
    if l.inited {
      Snoc(l.trace, Exit);
    }
  }

  lemma RestartLineKeeps(l: Line, answer: Answer)
    requires LineInv(l) && !l.inited
    ensures LineInv(StartLine(InitLine(l, answer)))
    ensures StartLine(InitLine(l, answer)).inited <==> answer.Works?
    ensures Running(StartLine(InitLine(l, answer))) <==> answer.Works?
  {
    match answer
    case Absent =>
    case Fails => Snoc(l.trace, InitFail);
    case Works =>
      Snoc(l.trace, InitOk);
      Snoc(l.trace + [InitOk], Start);
  }

  /** One service through stop, exit, init and start. */
  function ResetLine(l: Line, answer: Answer): Line {
    StartLine(InitLine(ExitLine(StopLine(l)), answer))
  }

  lemma ResetLineKeeps(l: Line, answer: Answer)
    requires LineInv(l)
    ensures var t := ResetLine(l, answer);
            LineInv(t) && (t.inited <==> answer.Works?) && (Running(t) <==> answer.Works?)
  {
    StopLineKeeps(l);
    ExitLineKeeps(StopLine(l));
    RestartLineKeeps(ExitLine(StopLine(l)), answer);
  }

  lemma ResetIsLines(s: CastState, a: Answer, b: Answer)
    ensures Reset(s, a, b) ==
            s.(screen := Listening, registered := true,
               android := ResetLine(s.android, a), airplay := ResetLine(s.airplay, b))
  {
  }

  lemma ResetKeeps(s: CastState, a: Answer, b: Answer)
    requires LineInv(s.android) && LineInv(s.airplay)
    ensures var t := Reset(s, a, b);
            && LineInv(t.android) && LineInv(t.airplay)
            && (t.android.inited <==> a.Works?) && (t.airplay.inited <==> b.Works?)
            && (Running(t.android) <==> a.Works?) && (Running(t.airplay) <==> b.Works?)
            && t.screen == Listening && t.page == s.page && t.registered
  {
    ResetIsLines(s, a, b);
    ResetLineKeeps(s.android, a);
    ResetLineKeeps(s.airplay, b);
  }

  lemma PageKeeps(s: CastState, e: Event)
    requires Inv(s) && Enabled(s, e) && (e.CreatePage? || e.DestroyPage?)
    ensures Inv(Step(s, e))
  {
    if e.CreatePage? {
      RestartLineKeeps(s.android, e.onAndroid);
      RestartLineKeeps(s.airplay, e.onAirPlay);
    } else {
      StopLineKeeps(s.android);
      StopLineKeeps(s.airplay);
      ExitLineKeeps(StopLine(s.android));
      ExitLineKeeps(StopLine(s.airplay));
    }
  }

  /** What starting a stopped service asks of its library. */
  function Asked(answer: Answer): seq<Call> {
    match answer
    case Works => [InitOk, Start]
    case Fails => [InitFail]
    case Absent => []
  }

  lemma RestartTrace(l: Line, answer: Answer)
    requires !l.inited
    ensures StartLine(InitLine(l, answer)).trace == l.trace + Asked(answer)
  {
    if answer.Works? {
      assert l.trace + [InitOk] + [Start] == l.trace + [InitOk, Start];
    }
  }

  lemma CreateIsLines(s: CastState, a: Answer, b: Answer)
    requires !s.page
    ensures Step(s, CreatePage(a, b)) ==
            s.(screen := Listening, registered := true, page := true,
               android := StartLine(InitLine(s.android, a)), airplay := StartLine(InitLine(s.airplay, b)))
  {
  }

  /** Creating the page: it listens, and of both services exactly those run whose library initialises, each having
      been initialised and started once. */
  lemma PageRunsServices(s: CastState, a: Answer, b: Answer)
    requires Inv(s) && !s.page
    ensures var t := Step(s, CreatePage(a, b));
            && t.page && t.registered && t.screen == Listening
            && (Running(t.android) <==> a.Works?) && (Running(t.airplay) <==> b.Works?)
            && t.android.trace == s.android.trace + Asked(a) && t.airplay.trace == s.airplay.trace + Asked(b)
  {
    CreateIsLines(s, a, b);
    RestartLineKeeps(s.android, a);
    RestartLineKeeps(s.airplay, b);
    RestartTrace(s.android, a);
    RestartTrace(s.airplay, b);
  }

  /** What stopping and exiting asks of the library of a service that was started. */
  function Ended(l: Line): seq<Call> {
    if !l.inited then [] else if l.stopped then [Exit] else [Stop, Exit]
  }

  /** Destroying the page: nothing is shown and no service is left, each that was up having been stopped once, unless
      it was already, and exited once. */
  lemma PageEndsServices(s: CastState)
    requires Inv(s) && s.page
    ensures var t := Step(s, DestroyPage);
            && !t.page && !t.shown && t.screen == Invalid && t.registered == s.registered && t.keyFlag == s.keyFlag
            && !t.android.inited && !t.airplay.inited
            && t.android.trace == s.android.trace + Ended(s.android)
            && t.airplay.trace == s.airplay.trace + Ended(s.airplay)
  {
  }

  lemma ResetTrace(l: Line, answer: Answer)
    requires LineInv(l)
    ensures ResetLine(l, answer).trace == l.trace + Ended(l) + Asked(answer)
  {
    var ended := ExitLine(StopLine(l));
    assert [Stop] + [Exit] == [Stop, Exit];
    assert ended.trace == l.trace + Ended(l);
    RestartTrace(ended, answer);
  }

  lemma BackIsLines(s: CastState, a: Answer, b: Answer)
    requires s.shown
    ensures Step(s, BackKey(a, b)) ==
            s.(screen := Listening, registered := true, keyFlag := true, shown := false,
               android := ResetLine(s.android, a), airplay := ResetLine(s.airplay, b))
  {
  }

  /** BACK on the cast screen hides it and starts over: what was up is ended, and of both services those run whose
      library initialises again. The key is remembered until the next START. */
  lemma BackStartsOver(s: CastState, a: Answer, b: Answer)
    requires Inv(s) && s.shown
    ensures var t := Step(s, BackKey(a, b));
            && !t.shown && t.keyFlag && t.screen == Listening && t.page == s.page
            && (Running(t.android) <==> a.Works?) && (Running(t.airplay) <==> b.Works?)
            && t.android.trace == s.android.trace + Ended(s.android) + Asked(a)
            && t.airplay.trace == s.airplay.trace + Ended(s.airplay) + Asked(b)
  {
    BackIsLines(s, a, b);
    ResetLineKeeps(s.android, a);
    ResetLineKeeps(s.airplay, b);
    ResetTrace(s.android, a);
    ResetTrace(s.airplay, b);
  }

  /** Initialising, stopping and exiting leave no screen, starting the listening one. */
  lemma ServiceScreens(s: CastState, a: Answer, b: Answer)
    ensures Init(s, a, b).screen == StopService(s).screen == ExitAll(s).screen == Invalid
    ensures StartService(s).screen == Listening
  {
  }

  lemma StartKeeps(s: CastState, k: Service)
    requires Inv(s) && s.registered
    ensures Inv(OnStart(s, k))
  {
    StopLineKeeps(s.android);
    StopLineKeeps(s.airplay);
  }

  /** A service that runs with no page has a start nobody stopped. */
  lemma RunningUnmatched(l: Line)
    requires LineInv(l) && Running(l)
    ensures !Matched(l.trace)
  {
    CallsMatch(l.trace);
  }

  lemma RestartedUnmatched(s: CastState, a: Answer, b: Answer)
    requires Inv(s) && !s.page && (a.Works? || b.Works?)
    ensures !Lifecycle(Reset(s, a, b))
  {
    ResetKeeps(s, a, b);
    var t := Reset(s, a, b);
    if a.Works? {
      RunningUnmatched(t.android);
    } else {
      RunningUnmatched(t.airplay);
    }
  }

  lemma StopKeepsIff(s: CastState, k: Service, a: Answer, b: Answer)
    requires Inv(s) && s.registered
    ensures Inv(OnStop(s, k, a, b)) <==> !Stray(s, MirrorStop(k, a, b))
    ensures Lifecycle(OnStop(s, k, a, b)) <==> !Stray(s, MirrorStop(k, a, b))
  {
    var hidden := s.(shown := false);
    ResetKeeps(hidden, a, b);
    if Stray(s, MirrorStop(k, a, b)) {
      RestartedUnmatched(hidden, a, b);
    } else {
      InvIsLifecycle(OnStop(s, k, a, b));
    }
  }

  lemma BackKeepsIff(s: CastState, a: Answer, b: Answer)
    requires Inv(s) && s.shown
    ensures Inv(Step(s, BackKey(a, b))) <==> !Stray(s, BackKey(a, b))
    ensures Lifecycle(Step(s, BackKey(a, b))) <==> !Stray(s, BackKey(a, b))
  {
    var flagged := s.(keyFlag := true);
    ResetKeeps(flagged, a, b);
    if Stray(s, BackKey(a, b)) {
      RestartedUnmatched(flagged, a, b);
    } else {
      InvIsLifecycle(Step(s, BackKey(a, b)));
    }
  }

  /** Every event keeps the lifecycle except a stray one, and a stray one always breaks it. */
  lemma StepKeepsIff(s: CastState, e: Event)
    requires Inv(s)
    ensures Inv(Step(s, e)) <==> !Stray(s, e)
    ensures Lifecycle(Step(s, e)) <==> !Stray(s, e)
  {
    if Enabled(s, e) {
      match e
      case CreatePage(_, _) =>
        PageKeeps(s, e);
        InvIsLifecycle(Step(s, e));
      case DestroyPage =>
        PageKeeps(s, e);
        InvIsLifecycle(Step(s, e));
      case MirrorStart(k) =>
        StartKeeps(s, k);
        InvIsLifecycle(Step(s, e));
      case MirrorStop(k, a, b) => StopKeepsIff(s, k, a, b);
      case ChannelKey => InvIsLifecycle(Step(s, e));
      case BackKey(a, b) => BackKeepsIff(s, a, b);
    } else {
      InvIsLifecycle(s);
    }
  }

  /** No event of the run restarts services behind a destroyed page. */
  predicate NoStray(s: CastState, es: seq<Event>)
    decreases |es|
  {
    es == [] || (!Stray(s, es[0]) && NoStray(Step(s, es[0]), es[1..]))
  }

  ghost predicate AlwaysLifecycle(s: CastState, es: seq<Event>) {
    forall k | 0 <= k <= |es| :: Lifecycle(Run(s, es[..k]))
  }

  lemma {:induction false} RunKeeps(s: CastState, es: seq<Event>)
    requires Inv(s) && NoStray(s, es)
    ensures Inv(Run(s, es))
    decreases |es|
  {
    if es != [] {
      StepKeepsIff(s, es[0]);
      RunKeeps(Step(s, es[0]), es[1..]);
    }
  }

  /** From one event to every moment of the run. */
  lemma AlwaysNext(s: CastState, es: seq<Event>)
    requires es != [] && Lifecycle(s)
    ensures AlwaysLifecycle(s, es) <==> AlwaysLifecycle(Step(s, es[0]), es[1..])
  {
    var next, rest := Step(s, es[0]), es[1..];
    forall k | 0 < k <= |es|
      ensures Run(s, es[..k]) == Run(next, rest[..k - 1])
    {
      assert es[..k][1..] == rest[..k - 1];
    }
    if AlwaysLifecycle(s, es) {
      forall k | 0 <= k <= |rest|
        ensures Lifecycle(Run(next, rest[..k]))
      {
        assert Lifecycle(Run(s, es[..k + 1]));
      }
    }
  }

  lemma {:induction false} LifecycleIff(s: CastState, es: seq<Event>)
    requires Inv(s)
    ensures AlwaysLifecycle(s, es) <==> NoStray(s, es)
    decreases |es|
  {
    InvIsLifecycle(s);
    if es != [] {
      var next := Step(s, es[0]);
      StepKeepsIff(s, es[0]);
      AlwaysNext(s, es);
      if Stray(s, es[0]) {
        assert Run(next, es[1..][..0]) == next;
      } else {
        LifecycleIff(next, es[1..]);
      }
    }
  }

  /** Lifecycle and exclusion over every run. At every moment both traces are prefixes of
      (init start stop exit)*, the two services never share the screen, and with the page gone every successful
      init was matched by one start, one stop and one exit: exactly when no event of the run is a stray one. */
  lemma EveryRunLawfulIff(es: seq<Event>)
    ensures AlwaysLifecycle(BOOT, es) <==> NoStray(BOOT, es)
  {
    LifecycleIff(BOOT, es);
  }

  lemma BackRestarts(s: CastState, a: Answer, b: Answer)
    requires LineInv(s.android) && LineInv(s.airplay) && s.shown
    ensures var t := Step(s, BackKey(a, b));
            t.page == s.page && (Running(t.android) <==> a.Works?) && (Running(t.airplay) <==> b.Works?)
  {
    ResetKeeps(s.(keyFlag := true), a, b);
  }

  lemma StopRestarts(s: CastState, k: Service, a: Answer, b: Answer)
    requires LineInv(s.android) && LineInv(s.airplay) && s.registered && !s.keyFlag && !Running(LineOf(s, Other(k)))
    ensures var t := Step(s, MirrorStop(k, a, b));
            && t.page == s.page && t.screen == Listening
            && (Running(t.android) <==> a.Works?) && (Running(t.airplay) <==> b.Works?)
  {
    ResetKeeps(s.(shown := false), a, b);
  }

  /** A late START breaks nothing by itself... */
  lemma LateStartHarmless(s: CastState, k: Service)
    requires Inv(s) && s.registered && !s.page
    ensures var t := Step(s, MirrorStart(k));
            && Inv(t) && Lifecycle(t) && t.shown && !t.page
            && t.android.trace == s.android.trace && t.airplay.trace == s.airplay.trace
  {
    StepKeepsIff(s, MirrorStart(k));
  }

  /** ...but with BACK it leaves services running with no page to stop them. */
  lemma LateStartThenBack(s: CastState, k: Service, a: Answer, b: Answer)
    requires Inv(s) && s.registered && !s.page
    ensures var t := Step(Step(s, MirrorStart(k)), BackKey(a, b));
            !t.page && (Running(t.android) <==> a.Works?) && (Running(t.airplay) <==> b.Works?)
  {
    LateStartHarmless(s, k);
    BackRestarts(Step(s, MirrorStart(k)), a, b);
  }

  /** A STOP delivered after the page is gone does so at once. */
  lemma StrayStopRestarts(s: CastState, k: Service, a: Answer, b: Answer)
    requires Inv(s) && s.registered && !s.page && !s.keyFlag
    ensures var t := Step(s, MirrorStop(k, a, b));
            !t.page && (Running(t.android) <==> a.Works?) && (Running(t.airplay) <==> b.Works?)
  {
    StopRestarts(s, k, a, b);
  }

  // ---------------------------------------------------------------- arbitration

  /** The service whose START triggers the eviction is left alone; the other one is stopped. */
  lemma StartEvictsOnlyTheOther(s: CastState, k: Service)
    requires Inv(s) && s.registered
    ensures var t := Step(s, MirrorStart(k));
            && LineOf(t, k) == LineOf(s, k)
            && !Running(LineOf(t, Other(k)))
            && (Running(LineOf(s, Other(k))) ==>
                  LineOf(t, Other(k)).trace == LineOf(s, Other(k)).trace + [Stop])
            && t.screen == ScreenOf(k) && t.shown && !t.keyFlag
  {
  }

  /** What may happen between START k and STOP k: repeated STARTs of k, and STOPs of the evicted service. */
  predicate Between(k: Service, es: seq<Event>) {
    forall e | e in es :: e == MirrorStart(k) || (e.MirrorStop? && e.k == Other(k))
  }

  /** k has the screen. */
  ghost predicate Casting(s: CastState, k: Service) {
    && Inv(s) && s.page && s.registered
    && Running(LineOf(s, k)) && !Running(LineOf(s, Other(k)))
    && !s.keyFlag && s.screen == ScreenOf(k)
  }

  lemma {:induction false} CastingContinues(s: CastState, k: Service, es: seq<Event>)
    requires Casting(s, k) && Between(k, es)
    ensures Casting(Run(s, es), k)
    decreases |es|
  {
    if es != [] {
      assert es[0] in es;
      StepKeepsIff(s, es[0]);
      CastingContinues(Step(s, es[0]), k, es[1..]);
    }
  }

  /** Listening, with exactly the services whose new init succeeded initialised and running. */
  predicate Recovered(s: CastState, a: Answer, b: Answer) {
    && s.screen == Listening && !s.shown
    && (Running(s.android) <==> a.Works?) && (s.android.inited <==> a.Works?)
    && (Running(s.airplay) <==> b.Works?) && (s.airplay.inited <==> b.Works?)
  }

  lemma StopFromCasting(s: CastState, k: Service, a: Answer, b: Answer)
    requires Casting(s, k)
    ensures Recovered(Step(s, MirrorStop(k, a, b)), a, b)
  {
    var hidden := s.(shown := false);
    ResetKeeps(hidden, a, b);
    assert Step(s, MirrorStop(k, a, b)) == Reset(hidden, a, b);
    ResetIsLines(hidden, a, b);
  }

  lemma StartCasts(s: CastState, k: Service)
    requires Inv(s) && s.page && Running(LineOf(s, k))
    ensures Casting(Step(s, MirrorStart(k)), k)
  {
    StepKeepsIff(s, MirrorStart(k));
  }

  /** START k, anything the evicted service still reports, then STOP k: back to listening, and exactly the
      services whose new init succeeded are running. */
  lemma StartThenStopRecovers(s: CastState, k: Service, es: seq<Event>, a: Answer, b: Answer)
    requires Inv(s) && s.page && Running(LineOf(s, k)) && Between(k, es)
    ensures var during := Run(Step(s, MirrorStart(k)), es);
            var t := Step(during, MirrorStop(k, a, b));
            during.screen == ScreenOf(k) && Inv(t) && Recovered(t, a, b)
  {
    var s1 := Step(s, MirrorStart(k));
    StartCasts(s, k);
    CastingContinues(s1, k, es);
    var during := Run(s1, es);
    StepKeepsIff(during, MirrorStop(k, a, b));
    StopFromCasting(during, k, a, b);
  }

  /** What may happen while k has the screen: the above, and keys that go to another channel. */
  predicate BetweenOrKey(k: Service, es: seq<Event>) {
    forall e | e in es :: e == MirrorStart(k) || (e.MirrorStop? && e.k == Other(k)) || e == ChannelKey
  }

  /** A key was pressed since the last START k. */
  predicate KeyedSince(k: Service, es: seq<Event>, was: bool)
    decreases |es|
  {
    if es == [] then was else KeyedNow(k, es[|es| - 1], KeyedSince(k, es[..|es| - 1], was))
  }

  predicate KeyedNow(k: Service, e: Event, was: bool) {
    e == ChannelKey || (was && e != MirrorStart(k))
  }

  /** k keeps the screen, and the flag says whether a key was pressed since its last START. */
  ghost predicate OnScreen(s: CastState, k: Service, keyed: bool) {
    && Inv(s) && s.page && s.registered && s.shown
    && Running(LineOf(s, k)) && !Running(LineOf(s, Other(k)))
    && s.screen == ScreenOf(k) && s.keyFlag == keyed
  }

  lemma OnScreenStep(s: CastState, k: Service, e: Event, keyed: bool)
    requires OnScreen(s, k, keyed)
    requires e == MirrorStart(k) || (e.MirrorStop? && e.k == Other(k)) || e == ChannelKey
    ensures OnScreen(Step(s, e), k, KeyedNow(k, e, keyed))
  {
    StepKeepsIff(s, e);
  }

  lemma {:induction false} OnScreenRun(s: CastState, k: Service, es: seq<Event>, keyed: bool)
    requires OnScreen(s, k, keyed) && BetweenOrKey(k, es)
    ensures OnScreen(Run(s, es), k, KeyedSince(k, es, keyed))
    decreases |es|
  {
    if es != [] {
      var front, last := es[..|es| - 1], es[|es| - 1];
      assert es == front + [last] && last in es;
      OnScreenRun(s, k, front, keyed);
      RunSnoc(s, front, last);
      OnScreenStep(Run(s, front), k, last, KeyedSince(k, front, keyed));
    }
  }

  lemma {:induction false} RunSnoc(s: CastState, es: seq<Event>, e: Event)
    ensures Run(s, es + [e]) == Step(Run(s, es), e)
    decreases |es|
  {
    if es == [] {
      assert Run(s, [e]) == Run(Step(s, e), [e][1..]);
    } else {
      assert (es + [e])[1..] == es[1..] + [e];
      RunSnoc(Step(s, es[0]), es[1..], e);
    }
  }

  lemma StopOnScreen(s: CastState, k: Service, keyed: bool, a: Answer, b: Answer)
    requires OnScreen(s, k, keyed)
    ensures Step(s, MirrorStop(k, a, b)).screen == Listening <==> !keyed
  {
    if !keyed {
      StopRestarts(s, k, a, b);
    }
  }

  lemma StartOnScreen(s: CastState, k: Service)
    requires Inv(s) && s.page && Running(LineOf(s, k))
    ensures OnScreen(Step(s, MirrorStart(k)), k, false)
  {
    StepKeepsIff(s, MirrorStart(k));
  }

  /** START k, then whatever may happen, then STOP k: the page listens again if and only if no key was pressed
      since the last START k. */
  lemma StopRecoversIff(s: CastState, k: Service, es: seq<Event>, a: Answer, b: Answer)
    requires Inv(s) && s.page && Running(LineOf(s, k)) && BetweenOrKey(k, es)
    ensures var t := Run(s, [MirrorStart(k)] + es + [MirrorStop(k, a, b)]);
            t.screen == Listening <==> !KeyedSince(k, es, false)
  {
    var start, stop := MirrorStart(k), MirrorStop(k, a, b);
    var s1 := Step(s, start);
    StartOnScreen(s, k);
    OnScreenRun(s1, k, es, false);
    RunSnoc(s, [start] + es, stop);
    assert ([start] + es)[1..] == es;
    StopOnScreen(Run(s1, es), k, KeyedSince(k, es, false), a, b);
  }

  // ---------------------------------------------------------------- the globals themselves

  /** The globals of the wired cast page. The call traces are ghost. */
  class UsbCast {
    var state: Screen
    var androidStop: bool
    var airplayStop: bool
    var androidInitFlag: bool
    var airplayInitFlag: bool
    var keyFlag: bool
    var castPage: bool
    var activity: bool
    var callbackSet: bool
    ghost var androidTrace: seq<Call>
    ghost var airplayTrace: seq<Call>

    ghost function View(): CastState
      reads this
    {
      CastState(state, Line(androidInitFlag, androidStop, androidTrace),
                Line(airplayInitFlag, airplayStop, airplayTrace), keyFlag, castPage, activity, callbackSet)
    }

    constructor ()
      ensures View() == BOOT
    {
      state, androidStop, airplayStop, androidInitFlag, airplayInitFlag := Invalid, false, false, false, false;
      keyFlag, castPage, activity, callbackSet := false, false, false, false;
      androidTrace, airplayTrace := [], [];
    }

    method InitServices(onAndroid: Answer, onAirPlay: Answer)
      modifies this
      ensures View() == Init(old(View()), onAndroid, onAirPlay)
    {
      androidStop, airplayStop := false, false;
      callbackSet := true;
      InitAndroid(onAndroid);
      InitAirPlay(onAirPlay);
      state := Invalid;
    }

    method InitAndroid(answer: Answer)
      requires !androidStop
      modifies `androidInitFlag, `androidTrace
      ensures Line(androidInitFlag, androidStop, androidTrace)
           == InitLine(old(Line(androidInitFlag, androidStop, androidTrace)), answer)
    {
      androidInitFlag := false;
      if !answer.Absent? {
        androidTrace := androidTrace + [if answer.Works? then InitOk else InitFail];
        if answer.Works? {
          androidInitFlag := true;
        }
      }
    }

    method InitAirPlay(answer: Answer)
      requires !airplayStop
      modifies `airplayInitFlag, `airplayTrace
      ensures Line(airplayInitFlag, airplayStop, airplayTrace)
           == InitLine(old(Line(airplayInitFlag, airplayStop, airplayTrace)), answer)
    {
      airplayInitFlag := false;
      if !answer.Absent? {
        airplayTrace := airplayTrace + [if answer.Works? then InitOk else InitFail];
        if answer.Works? {
          airplayInitFlag := true;
        }
      }
    }

    method StartServices()
      modifies this
      ensures View() == StartService(old(View()))
    {
      state := Listening;
      if !androidStop {
        if androidInitFlag {
          androidTrace := androidTrace + [Start];
        }
      }
      if !airplayStop {
        if airplayInitFlag {
          airplayTrace := airplayTrace + [Start];
        }
      }
    }

    method StopServices()
      modifies this
      ensures View() == StopService(old(View()))
    {
      if !androidStop {
        if androidInitFlag {
          androidTrace := androidTrace + [Stop];
          androidStop := true;
        }
      }
      if !airplayStop {
        if airplayInitFlag {
          airplayTrace := airplayTrace + [Stop];
          airplayStop := true;
        }
      }
      state := Invalid;
    }

    method ExitServices()
      modifies this
      ensures View() == ExitAll(old(View()))
    {
      if androidInitFlag {
        androidTrace := androidTrace + [Exit];
      }
      if airplayInitFlag {
        airplayTrace := airplayTrace + [Exit];
      }
      airplayInitFlag := false;
      androidInitFlag := false;
      state, androidStop, airplayStop := Invalid, false, false;
    }

    method RemoveThread()
      modifies this
      ensures View() == Remove(old(View()))
    {
      var id := state;
      if id != ShowAirPlay {
        if airplayInitFlag {
          if !airplayStop {
            airplayTrace := airplayTrace + [Stop];
            airplayStop := true;
          }
        }
      }
      if id != ShowAndroid {
        if androidInitFlag {
          if !androidStop {
            androidTrace := androidTrace + [Stop];
            androidStop := true;
          }
        }
      }
    }

    method ResetThread(onAndroid: Answer, onAirPlay: Answer)
      modifies this
      ensures View() == Reset(old(View()), onAndroid, onAirPlay)
    {
      StopServices();
      ExitServices();
      InitServices(onAndroid, onAirPlay);
      StartServices();
    }

    method MirrorStarted(k: Service)
      modifies this
      ensures View() == OnStart(old(View()), k)
    {
      state := if k.Android? then ShowAndroid else ShowAirPlay;
      RemoveThread();
      castPage := true;
      keyFlag := false;
    }

    method MirrorStopped(k: Service, onAndroid: Answer, onAirPlay: Answer)
      modifies this
      ensures View() == OnStop(old(View()), k, onAndroid, onAirPlay)
    {
      if keyFlag {
        return;
      }
      if k.Android? {
        if !airplayInitFlag || airplayStop {
          castPage := false;
          assert View() == old(View()).(shown := false);
          ResetThread(onAndroid, onAirPlay);
        }
      } else {
        if !androidInitFlag || androidStop {
          castPage := false;
          assert View() == old(View()).(shown := false);
          ResetThread(onAndroid, onAirPlay);
        }
      }
    }

    /** A key on the shown cast screen. */
    method KeyPressed(back: bool, onAndroid: Answer, onAirPlay: Answer)
      requires castPage
      modifies this
      ensures View() == Step(old(View()), if back then BackKey(onAndroid, onAirPlay) else ChannelKey)
    {
      keyFlag := true;
      if back {
        StopServices();
        ExitServices();
        InitServices(onAndroid, onAirPlay);
        StartServices();
        castPage := false;
      }
    }

    method OnCreate(onAndroid: Answer, onAirPlay: Answer)
      requires !activity
      modifies this
      ensures View() == Step(old(View()), CreatePage(onAndroid, onAirPlay))
    {
      activity := true;
      InitServices(onAndroid, onAirPlay);
      StartServices();
    }

    method OnDestroy()
      requires activity
      modifies this
      ensures View() == Step(old(View()), DestroyPage)
    {
      castPage := false;
      StopServices();
      ExitServices();
      activity := false;
    }
  }
}
