/**
 The DLNA player engine: an API, an asynchronous player callback and a message
 thread share one player handle, one status word and the "advert first, then the
 user's URL" rule.

 `Engine` is the engine's state at one instant together with the history the
 properties speak about (`created`, `destroyed`, `sources`, `lastUrl`). `Step` is one
 atomic step of one of the three actors; every run is a `Run` of some event sequence.
 The callback and destroy take no lock, so set-url, stop and destroy are cut into the
 steps between which others can come: testing the handle, the library call, and writing
 NULL are three.
 */
module DlnaPlayer {
  import opened Common

  datatype Status = Idle | Preparing | Prepared | Playing | Paused | Stopped

  datatype Msg = CtlStop | CtlRepeat | CtlExit | CtlPlay | CtlSeek | CtlSetUrl

  /** Where the message thread stands in its loop. */
  datatype ThreadPc = AtTest | AtPop | Holding(msg: Msg) | Exited

  /** Destroying the held player: test the handle, call the library with it, write NULL. */
  datatype Stage = Test | Call | Clear

  /** How far the destroy call has come. */
  datatype Phase = Open | Destroying(stage: Stage) | PlayerGone | ThreadTold | Freed

  /** What was handed to the player as its data source. */
  datatype Source = Advert(url: string) | User(url: string)

  datatype Notice = Failed | Ready | Complete | Information

  /** What a set-url call loads: what a user asks for, or, from the message thread, the URL already stored. */
  datatype UrlCall = Asked(url: Option<string>, title: string) | Again

  datatype Holder = SettingUrl(call: UrlCall) | StoppingPlayer

  /** How far the call that holds the renderer's mutex has come. */
  datatype Section =
    | Unlocked
    | Dropping(stage: Stage, holder: Holder)
    | Creating(call: UrlCall)
    | Checking(call: UrlCall)
    | Failing(call: UrlCall)
    | Clearing(call: UrlCall)
    | Loading(call: UrlCall)

  const TITLE_STR_LEN := 1024
  const URL_STR_LEN := 2048

  /** The players made so far, those alive, and the argument of every call that destroys one. */
  datatype Stock = Stock(created: nat, live: set<nat>, destroyed: seq<Option<nat>>)

  /** The player handle and what is known of it. */
  datatype Playback = Playback(
    player: Option<nat>,
    status: Status,
    preStatus: Status,
    error: bool,
    duration: int,
    position: int,
    stock: Stock)

  /** The URLs, with the history of data sources and the last URL a user asked for. */
  datatype Programme = Programme(
    uri: string,
    title: string,
    adUrl: string,
    adPlayed: bool,
    sources: seq<Source>,
    lastUrl: Option<string>)

  /** The message queue and the thread that serves it, with the seeks the library was asked for. */
  datatype Loop = Loop(
    queue: seq<Msg>,
    threadRun: bool,
    repeatFlag: bool,
    seekTime: int,
    pc: ThreadPc,
    phase: Phase,
    seeks: seq<int>)

  datatype Engine = Engine(play: Playback, prog: Programme, loop: Loop, section: Section)

  const START: Engine :=
    Engine(Playback(None, Idle, Idle, false, 0, 0, Stock(0, {}, [])),
           Programme("", "", "", false, [], None),
           Loop([], true, false, 0, AtTest, Open, []),
           Unlocked)

  // ---------------------------------------------------------------- the operations

  /** An advert is set and has not been played to its end. */
  predicate AdvertPending(g: Programme) {
    g.adUrl != "" && !g.adPlayed
  }

  function Post(s: Engine, msg: Msg): Engine {
    s.(loop := s.loop.(queue := s.loop.queue + [msg]))
  }

  /** The library destroys what it is given. */
  function Kill(stock: Stock, player: Option<nat>): Stock {
    Stock(stock.created, if player.Some? then stock.live - {player.value} else stock.live, stock.destroyed + [player])
  }

  function Create(p: Playback): Playback {
    var n := p.stock.created;
    p.(player := Some(n), stock := Stock(n + 1, p.stock.live + {n}, p.stock.destroyed))
  }

  function PlayerPrepare(p: Playback, g: Programme): (Playback, Programme) {
    if p.player.None? then (p, g)
    else (p.(status := Preparing),
          g.(sources := g.sources + [if AdvertPending(g) then Advert(g.adUrl) else User(g.uri)]))
  }

  function Named(g: Programme, url: string, title: string): Programme {
    g.(uri := url, title := title[..Min(|title|, TITLE_STR_LEN - 1)])
  }

  /** The stored URL and title after a call: the message thread copies them onto themselves. */
  function Load(g: Programme, call: UrlCall): Programme {
    match call
    case Again => Named(g, g.uri, g.title)
    case Asked(None, _) => g
    case Asked(Some(url), title) => Named(g, url, title).(lastUrl := Some(url))
  }

  function PlayerStop(p: Playback): Playback {
    if p.player.None? then p else p.(preStatus := p.status, status := Stopped)
  }

  function PlayerStart(p: Playback, ok: bool): Playback {
    if p.player.None? || !ok then p else p.(preStatus := p.status, status := Playing)
  }

  function Pause(p: Playback, reported: int): Playback {
    var q := if p.player.None? then p else p.(preStatus := p.status, status := Paused);
    if q.duration == 0 then q.(duration := reported) else q
  }

  function GetPosition(p: Playback, g: Programme, reported: int): (r: (Playback, int))
    ensures AdvertPending(g) ==> r.1 == -1
  {
    if AdvertPending(g) then (p, -1)
    else
      var q := if p.player.Some? then p.(position := reported) else p;
      (q, q.position)
  }

  function GetDuration(p: Playback, g: Programme, reported: int): (r: (Playback, int))
    ensures AdvertPending(g) ==> r.1 == -1
  {
    if AdvertPending(g) then (p, -1)
    else if p.duration != 0 then (p, p.duration)
    else
      var q := if p.player.Some? then p.(duration := reported) else p;
      (q, q.duration)
  }

  function Callback(s: Engine, notice: Notice): Engine {
    match notice
    case Failed => s.(play := s.play.(status := Stopped, preStatus := Stopped, error := true))
    case Ready => Post(s.(play := s.play.(preStatus := s.play.status, status := Prepared)), CtlPlay)
    case Complete =>
      if s.loop.repeatFlag then Post(s, CtlRepeat)
      else if AdvertPending(s.prog) then Post(s.(prog := s.prog.(adPlayed := true)), CtlSetUrl)
      else s.(play := s.play.(preStatus := s.play.status, status := Stopped))
    case Information => s
  }

  /** Where a call goes on once no player is held. */
  function AfterDrop(holder: Holder): Section {
    match holder
    case StoppingPlayer => Unlocked
    case SettingUrl(call) => if call.Asked? && call.url.None? then Unlocked else Creating(call)
  }

  /** The next step of the call that holds the mutex; `ok` is the library's answer to create and to check. */
  function Advance(s: Engine, ok: bool): Engine {
    match s.section
    case Unlocked => s
    case Dropping(stage, holder) => AdvanceDrop(s, stage, holder)
    case Creating(call) =>
      if ok then s.(play := Create(s.play), section := Checking(call))
      else s.(play := s.play.(player := None), section := Loading(call))
    case Checking(call) =>
      if ok then s.(play := s.play.(status := Idle), section := Loading(call))
      else s.(section := Failing(call))
    case Failing(call) =>
      s.(play := s.play.(stock := Kill(s.play.stock, s.play.player)), section := Clearing(call))
    case Clearing(call) => s.(play := s.play.(player := None), section := Loading(call))
    case Loading(call) =>
      var (p, g) := PlayerPrepare(s.play, Load(s.prog, call));
      Engine(p, g, if call.Again? then s.loop.(pc := AtTest) else s.loop, Unlocked)
  }

  function AdvanceDrop(s: Engine, stage: Stage, holder: Holder): Engine {
    match stage
    case Test => s.(section := if s.play.player.None? then AfterDrop(holder) else Dropping(Call, holder))
    case Call =>
      s.(play := s.play.(stock := Kill(s.play.stock, s.play.player)), section := Dropping(Clear, holder))
    case Clear => s.(play := s.play.(player := None, duration := 0), section := AfterDrop(holder))
  }

  /** The next step of destroy towards having no player. */
  function AdvanceDestroy(s: Engine, stage: Stage): Engine {
    match stage
    case Test =>
      s.(loop := s.loop.(phase := if s.play.player.None? then PlayerGone else Destroying(Call)))
    case Call =>
      s.(play := s.play.(stock := Kill(s.play.stock, s.play.player)), loop := s.loop.(phase := Destroying(Clear)))
    case Clear => s.(play := s.play.(player := None), loop := s.loop.(phase := PlayerGone))
  }

  /** The message thread acts on a message; set-url only begins here. */
  function Handle(s: Engine, msg: Msg, startOk: bool): Engine {
    match msg
    case CtlStop => s.(play := PlayerStop(s.play), loop := s.loop.(pc := AtTest))
    case CtlPlay => s.(play := PlayerStart(s.play, startOk), loop := s.loop.(pc := AtTest))
    case CtlSeek => s.(loop := Sought(s.loop, s.play.player.Some?).(pc := AtTest))
    case CtlSetUrl => s.(play := s.play.(status := Idle), section := Dropping(Test, SettingUrl(Again)))
    case CtlRepeat => s.(loop := s.loop.(pc := AtTest))
    case CtlExit => s.(loop := s.loop.(pc := AtTest))
  }

  function Sought(l: Loop, live: bool): Loop {
    if live then l.(seeks := l.seeks + [l.seekTime]) else l
  }

  // ---------------------------------------------------------------- steps and runs

  datatype Event =
    | ApiSetUrl(url: Option<string>, title: string)
    | ApiStop
    | ApiPause(reported: int)
    | ApiResume
    | ApiSeek(time: int)
    | ApiSetAdUrl(ad: string)
    | ApiGetPosition(reported: int)
    | ApiGetDuration(reported: int)
    | LockedStep(ok: bool)
    | PlayerCallback(notice: Notice)
    | ThreadTest
    | ThreadPop
    | ThreadHandle(startOk: bool)
    | DestroyEnter
    | DestroyStep
    | DestroyTellThread
    | DestroyFree

  /** A call of the API, not of the message thread, holds the mutex. */
  predicate InApi(section: Section) {
    match section
    case Unlocked => false
    case Dropping(_, holder) => holder.StoppingPlayer? || holder.call.Asked?
    case Creating(call) => call.Asked?
    case Checking(call) => call.Asked?
    case Failing(call) => call.Asked?
    case Clearing(call) => call.Asked?
    case Loading(call) => call.Asked?
  }

  predicate NeedsLock(msg: Msg) {
    msg.CtlPlay? || msg.CtlSeek? || msg.CtlSetUrl?
  }

  /** API calls are over once destroy is entered; only a live player calls back; one call at a time holds the
      mutex, which seek, the time reads, the callback and destroy do not take. */
  predicate Enabled(s: Engine, e: Event) {
    match e
    case ApiSetUrl(url, _) =>
      s.loop.phase.Open? && s.section.Unlocked? && (url.Some? ==> |url.value| < URL_STR_LEN)
    case ApiStop => s.loop.phase.Open? && s.section.Unlocked?
    case ApiPause(_) => s.loop.phase.Open? && s.section.Unlocked?
    case ApiResume => s.loop.phase.Open? && s.section.Unlocked?
    case ApiSetAdUrl(_) => s.loop.phase.Open? && s.section.Unlocked?
    case ApiSeek(_) => s.loop.phase.Open?
    case ApiGetPosition(_) => s.loop.phase.Open?
    case ApiGetDuration(_) => s.loop.phase.Open?
    case LockedStep(_) => !s.section.Unlocked?
    case PlayerCallback(_) => s.play.stock.live != {} && !s.loop.phase.Freed?
    case ThreadTest => s.loop.pc.AtTest?
    case ThreadPop => s.loop.pc.AtPop?
    case ThreadHandle(_) => s.loop.pc.Holding? && (NeedsLock(s.loop.pc.msg) ==> s.section.Unlocked?)
    case DestroyEnter => s.loop.phase.Open? && !InApi(s.section)
    case DestroyStep => s.loop.phase.Destroying?
    case DestroyTellThread => s.loop.phase.PlayerGone?
    case DestroyFree => s.loop.phase.ThreadTold? && s.loop.pc.Exited?
  }

  /** The message thread looks whether to go on, and for a message. */
  function ThreadMove(l: Loop): Loop {
    match l.pc
    case AtTest => l.(pc := if l.threadRun then AtPop else Exited)
    case AtPop => if l.queue == [] then l.(pc := AtTest) else l.(pc := Holding(l.queue[0]), queue := l.queue[1..])
    case Holding(_) => l
    case Exited => l
  }

  function BeginStop(s: Engine): Engine {
    if s.play.status == Stopped then s else s.(play := PlayerStop(s.play), section := Dropping(Test, StoppingPlayer))
  }

  function Step(s: Engine, e: Event): Engine {
    if !Enabled(s, e) then s
    else match e
      case ApiSetUrl(url, title) =>
        s.(play := s.play.(status := Idle), section := Dropping(Test, SettingUrl(Asked(url, title))))
      case ApiStop => BeginStop(s)
      case ApiPause(reported) => s.(play := Pause(s.play, reported))
      case ApiResume => s.(play := PlayerStart(s.play, true))
      case ApiSeek(time) => Post(s.(loop := s.loop.(seekTime := time)), CtlSeek)
      case ApiSetAdUrl(ad) => s.(prog := s.prog.(adUrl := ad))
      case ApiGetPosition(reported) => s.(play := GetPosition(s.play, s.prog, reported).0)
      case ApiGetDuration(reported) => s.(play := GetDuration(s.play, s.prog, reported).0)
      case LockedStep(ok) => Advance(s, ok)
      case PlayerCallback(notice) => Callback(s, notice)
      case ThreadTest => s.(loop := ThreadMove(s.loop))
      case ThreadPop => s.(loop := ThreadMove(s.loop))
      case ThreadHandle(startOk) => Handle(s, s.loop.pc.msg, startOk)
      case DestroyEnter => s.(loop := s.loop.(phase := Destroying(Test)))
      case DestroyStep => AdvanceDestroy(s, s.loop.phase.stage)
      case DestroyTellThread => s.(loop := s.loop.(threadRun := false, phase := ThreadTold))
      case DestroyFree => s.(loop := s.loop.(phase := Freed))
  }

  function Run(s: Engine, es: seq<Event>): Engine
    decreases |es|
  {
    if es == [] then s else Run(Step(s, es[0]), es[1..])
  }

  lemma RunCons(s: Engine, e: Event, es: seq<Event>)
    ensures Run(s, [e] + es) == Run(Step(s, e), es)
  {
    assert ([e] + es)[1..] == es;
  }

  lemma {:induction false} RunAppend(s: Engine, first: seq<Event>, second: seq<Event>)
    ensures Run(s, first + second) == Run(Run(s, first), second)
    decreases |first|
  {
    if first == [] {
      assert first + second == second;
    } else {
      assert (first + second)[1..] == first[1..] + second;
      RunAppend(Step(s, first[0]), first[1..], second);
    }
  }

  lemma RunOne(s: Engine, e: Event)
    ensures Run(s, [e]) == Step(s, e)
  {
    assert [e][1..] == [];
  }

  /** At every moment of a run. */
  ghost predicate Always(ok: Engine -> bool, s: Engine, es: seq<Event>) {
    forall k | 0 <= k <= |es| :: ok(Run(s, es[..k]))
  }

  lemma AlwaysNext(ok: Engine -> bool, s: Engine, es: seq<Event>)
    requires es != [] && ok(s)
    ensures Always(ok, s, es) <==> Always(ok, Step(s, es[0]), es[1..])
  {
    var next, rest := Step(s, es[0]), es[1..];
    forall k | 0 < k <= |es|
      ensures Run(s, es[..k]) == Run(next, rest[..k - 1])
    {
      assert es[..k][1..] == rest[..k - 1];
    }
    if Always(ok, s, es) {
      forall k | 0 <= k <= |rest|
        ensures ok(Run(next, rest[..k]))
      {
        assert ok(Run(s, es[..k + 1]));
      }
    }
  }

  lemma AlwaysNow(ok: Engine -> bool, s: Engine, es: seq<Event>)
    requires Always(ok, s, es)
    ensures ok(s)
  {
    assert ok(Run(s, es[..0]));
  }

  // ---------------------------------------------------------------- invariants

  /** Each player made and no longer alive was destroyed exactly once, and NULL never. */
  ghost predicate OnceEach(stock: Stock) {
    && None !in stock.destroyed
    && forall i: nat :: multiset(stock.destroyed)[Some(i)] == if i < stock.created && i !in stock.live then 1 else 0
  }

  /** The library has destroyed the held player and the handle still names it. */
  predicate HandleDead(section: Section) {
    (section.Dropping? && section.stage.Clear?) || section.Clearing?
  }

  /** The handle tells which player is alive, and the calls under way know whether there is one. */
  predicate HandleTrue(p: Playback, section: Section) {
    && (p.player.Some? ==> p.player.value < p.stock.created)
    && p.stock.live == (if p.player.Some? && !HandleDead(section) then {p.player.value} else {})
    && (section.Dropping? && !section.stage.Test? ==> p.player.Some?)
    && (section.Creating? ==> p.player.None?)
    && (section.Checking? || section.Failing? || section.Clearing? ==> p.player.Some?)
  }

  predicate Busy(status: Status) {
    status.Preparing? || status.Prepared? || status.Playing? || status.Paused?
  }

  /** A set-url request is queued or in the message thread's hands. */
  predicate Wanted(l: Loop) {
    CtlSetUrl in l.queue || l.pc == Holding(CtlSetUrl)
  }

  /** A user's set-url has come so far that it will store its URL. */
  predicate Asking(section: Section) {
    !section.Unlocked? && !section.Dropping? && section.call.Asked?
  }

  /** The stored URL is the last one a user asked for, and there is one, or is about to be, whenever a player was
      made or a request exists. */
  predicate UrlKnown(s: Engine) {
    && (s.prog.lastUrl.Some? ==> s.prog.uri == s.prog.lastUrl.value)
    && (s.play.stock.created > 0 || Wanted(s.loop) ==> s.prog.lastUrl.Some? || Asking(s.section))
    && (Asking(s.section) ==> s.section.call.url.Some?)
  }

  /** The phases of destroy, the message thread and the mutex fit together. */
  predicate Ordered(l: Loop, section: Section) {
    && (l.phase.Open? || l.phase.Destroying? || l.phase.PlayerGone? <==> l.threadRun)
    && (l.pc.Exited? ==> !l.threadRun)
    && (l.phase.Freed? ==> l.pc.Exited?)
    && (InApi(section) ==> l.phase.Open?)
    && (!InApi(section) && !section.Unlocked? ==> l.pc == Holding(CtlSetUrl))
  }

  predicate Born(stock: Stock) {
    forall i | i in stock.live :: i < stock.created
  }

  /** Until destroy is entered: at most one player is alive, the handle names it, and every other one made was
      destroyed exactly once. */
  ghost predicate OnePlayer(p: Playback, section: Section) {
    HandleTrue(p, section) && OnceEach(p.stock)
  }

  ghost predicate Inv(s: Engine) {
    && Born(s.play.stock)
    && UrlKnown(s)
    && Ordered(s.loop, s.section)
    && (s.loop.phase.Open? ==> OnePlayer(s.play, s.section))
  }

  lemma KillOnce(stock: Stock, n: nat)
    requires OnceEach(stock) && n in stock.live && n < stock.created
    ensures OnceEach(Kill(stock, Some(n)))
  {
  }

  lemma CreateOnce(p: Playback)
    requires OnceEach(p.stock) && Born(p.stock)
    ensures OnceEach(Create(p).stock) && Born(Create(p).stock)
  {
  }

  lemma MoveKeepsWanted(l: Loop)
    ensures Wanted(ThreadMove(l)) <==> Wanted(l)
  {
    assert l.queue != [] ==> l.queue == [l.queue[0]] + l.queue[1..];
  }

  lemma AdvanceKeepsHandle(s: Engine, ok: bool)
    requires Born(s.play.stock) && HandleTrue(s.play, s.section)
    ensures HandleTrue(Advance(s, ok).play, Advance(s, ok).section)
  {
  }

  lemma AdvanceKeepsOnce(s: Engine, ok: bool)
    requires Born(s.play.stock) && HandleTrue(s.play, s.section) && OnceEach(s.play.stock)
    ensures OnceEach(Advance(s, ok).play.stock)
  {
    if (s.section.Dropping? && s.section.stage.Call?) || s.section.Failing? {
      KillOnce(s.play.stock, s.play.player.value);
    } else if s.section.Creating? && ok {
      CreateOnce(s.play);
    } else {
      assert Advance(s, ok).play.stock == s.play.stock;
    }
  }

  lemma AdvanceKeepsPlayer(s: Engine, ok: bool)
    requires Born(s.play.stock) && OnePlayer(s.play, s.section)
    ensures OnePlayer(Advance(s, ok).play, Advance(s, ok).section)
  {
    AdvanceKeepsHandle(s, ok);
    AdvanceKeepsOnce(s, ok);
  }

  lemma AdvanceKeepsRest(s: Engine, ok: bool)
    requires Inv(s) && !s.section.Unlocked?
    ensures var t := Advance(s, ok);
            Born(t.play.stock) && UrlKnown(t) && Ordered(t.loop, t.section) && t.loop.phase == s.loop.phase
  {
  }

  lemma CallbackKeeps(s: Engine, notice: Notice)
    requires Inv(s) && s.play.stock.live != {}
    ensures Inv(Callback(s, notice))
  {
    var i :| i in s.play.stock.live;
    assert s.play.stock.created > 0;
  }

  lemma BeginUrlKeeps(s: Engine, startOk: bool)
    requires Inv(s) && Enabled(s, ThreadHandle(startOk)) && s.loop.pc.msg.CtlSetUrl?
    ensures Inv(Step(s, ThreadHandle(startOk)))
  {
  }

  lemma HandleKeeps(s: Engine, startOk: bool)
    requires Inv(s) && Enabled(s, ThreadHandle(startOk)) && !s.loop.pc.msg.CtlSetUrl?
    ensures Inv(Step(s, ThreadHandle(startOk)))
  {
    var t := Step(s, ThreadHandle(startOk));
    assert t.play.stock == s.play.stock && t.play.player == s.play.player && t.section == s.section && t.prog == s.prog;
  }

  lemma MoveKeeps(s: Engine, e: Event)
    requires Inv(s) && Enabled(s, e) && (e.ThreadTest? || e.ThreadPop?)
    ensures Inv(Step(s, e))
  {
    MoveKeepsWanted(s.loop);
  }

  lemma ApiKeeps(s: Engine, e: Event)
    requires Inv(s) && Enabled(s, e)
    requires e.ApiSetUrl? || e.ApiStop? || e.ApiPause? || e.ApiResume? || e.ApiSeek? || e.ApiSetAdUrl?
             || e.ApiGetPosition? || e.ApiGetDuration?
    ensures Inv(Step(s, e))
  {
  }

  lemma DestroyKeeps(s: Engine, e: Event)
    requires Inv(s) && Enabled(s, e)
    requires e.DestroyEnter? || e.DestroyStep? || e.DestroyTellThread? || e.DestroyFree?
    ensures Inv(Step(s, e))
  {
  }

  lemma StepKeeps(s: Engine, e: Event)
    requires Inv(s)
    ensures Inv(Step(s, e))
  {
    if Enabled(s, e) {
      match e
      case LockedStep(ok) =>
        AdvanceKeepsRest(s, ok);
        if s.loop.phase.Open? {
          AdvanceKeepsPlayer(s, ok);
        }
      case PlayerCallback(notice) => CallbackKeeps(s, notice);
      case ThreadTest => MoveKeeps(s, e);
      case ThreadPop => MoveKeeps(s, e);
      case ThreadHandle(startOk) =>
        if s.loop.pc.msg.CtlSetUrl? {
          BeginUrlKeeps(s, startOk);
        } else {
          HandleKeeps(s, startOk);
        }
      case DestroyEnter => DestroyKeeps(s, e);
      case DestroyStep => DestroyKeeps(s, e);
      case DestroyTellThread => DestroyKeeps(s, e);
      case DestroyFree => DestroyKeeps(s, e);
      case _ => ApiKeeps(s, e);
    }
  }

  /** Every reachable state of every interleaving satisfies the invariant. */
  lemma {:induction false} RunKeeps(s: Engine, es: seq<Event>)
    requires Inv(s)
    ensures Inv(Run(s, es))
    decreases |es|
  {
    if es != [] {
      StepKeeps(s, es[0]);
      RunKeeps(Step(s, es[0]), es[1..]);
    }
  }

  /** From the start, at every instant of every interleaving until destroy is entered, also between the steps of a
      call: one player alive at most, the handle names it, and each other was destroyed exactly once. */
  lemma OnePlayerAlways(es: seq<Event>)
    ensures var t := Run(START, es);
            t.loop.phase.Open? ==> OnePlayer(t.play, t.section) && |t.play.stock.live| <= 1
  {
    RunKeeps(START, es);
  }
}
