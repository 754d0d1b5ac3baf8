/**
 Whole calls of the DLNA renderer, run from start to end with nothing in between: what they
 do at once is what their steps do one after the other.
 */
module DlnaCalls {
  import opened Common
  import opened DlnaPlayer

  /** The player library's answers to "create" and "check". */
  datatype Env = Env(create: bool, check: bool)

  function DropPlayer(p: Playback): Playback {
    if p.player.None? then p else p.(player := None, duration := 0, stock := Kill(p.stock, p.player))
  }

  function PlayerInit(p: Playback, env: Env): Playback {
    if !env.create then p.(player := None)
    else
      var q := Create(p);
      if env.check then q.(status := Idle) else q.(player := None, stock := Kill(q.stock, q.player))
  }

  function NewUrl(p: Playback, g: Programme, url: Option<string>, title: string, env: Env): (Playback, Programme) {
    var idle := DropPlayer(p.(status := Idle));
    if url.None? then (idle, g) else PlayerPrepare(PlayerInit(idle, env), Named(g, url.value, title))
  }

  function Stop(p: Playback): Playback {
    if p.status == Stopped then p else DropPlayer(PlayerStop(p))
  }

  /** What the message thread does with one message. */
  function Handled(s: Engine, msg: Msg, env: Env, startOk: bool): Engine {
    match msg
    case CtlStop => s.(play := PlayerStop(s.play))
    case CtlPlay => s.(play := PlayerStart(s.play, startOk))
    case CtlSeek => s.(loop := Sought(s.loop, s.play.player.Some?))
    case CtlSetUrl =>
      var (p, g) := NewUrl(s.play, s.prog, Some(s.prog.uri), s.prog.title, env);
      s.(play := p, prog := g)
    case CtlRepeat => s
    case CtlExit => s
  }

  // ---------------------------------------------------------------- steps one after the other

  /** The locked steps of a call, with the library's answers. */
  function Locked(s: Engine, oks: seq<bool>): Engine
    decreases |oks|
  {
    if oks == [] then s else Locked(Step(s, LockedStep(oks[0])), oks[1..])
  }

  lemma LockedOne(s: Engine, ok: bool, oks: seq<bool>)
    ensures Locked(s, [ok] + oks) == Locked(Step(s, LockedStep(ok)), oks)
  {
    assert ([ok] + oks)[1..] == oks;
  }

  lemma {:induction false} LockedAppend(s: Engine, first: seq<bool>, second: seq<bool>)
    ensures Locked(s, first + second) == Locked(Locked(s, first), second)
    decreases |first|
  {
    if first == [] {
      assert first + second == second;
    } else {
      assert (first + second)[1..] == first[1..] + second;
      LockedAppend(Step(s, LockedStep(first[0])), first[1..], second);
    }
  }

  /** Testing the handle, and if there is one calling the library and writing NULL. */
  function DropAnswers(held: bool): seq<bool> {
    if held then [true] + ([true] + ([true] + [])) else [true] + []
  }

  function MakeAnswers(env: Env): seq<bool> {
    if !env.create then [false] + ([true] + [])
    else if env.check then [true] + ([true] + ([true] + []))
    else [true] + ([false] + ([true] + ([true] + ([true] + []))))
  }

  lemma DropIsSteps(s: Engine, holder: Holder)
    requires s.section == Dropping(Test, holder)
    ensures Locked(s, DropAnswers(s.play.player.Some?)) ==
            s.(play := DropPlayer(s.play), section := AfterDrop(holder))
  {
    var s1 := Step(s, LockedStep(true));
    if s.play.player.Some? {
      var s2 := Step(s1, LockedStep(true));
      LockedOne(s, true, [true] + ([true] + []));
      LockedOne(s1, true, [true] + []);
      LockedOne(s2, true, []);
    } else {
      LockedOne(s, true, []);
    }
  }

  /** The end of a set-url. */
  function Loaded(s: Engine, p: Playback, call: UrlCall): Engine {
    var (q, g) := PlayerPrepare(p, Load(s.prog, call));
    Engine(q, g, if call.Again? then s.loop.(pc := AtTest) else s.loop, Unlocked)
  }

  /** From a failed check on. */
  lemma FailIsSteps(s: Engine, call: UrlCall)
    requires s.section == Failing(call)
    ensures Locked(s, [true] + ([true] + ([true] + [])))
         == Loaded(s, s.play.(player := None, stock := Kill(s.play.stock, s.play.player)), call)
  {
    var s1 := Step(s, LockedStep(true));
    var s2 := Step(s1, LockedStep(true));
    assert s2.section == Loading(call)
        && s2.play == s.play.(player := None, stock := Kill(s.play.stock, s.play.player));
    LockedOne(s, true, [true] + ([true] + []));
    LockedOne(s1, true, [true] + []);
    LockedOne(s2, true, []);
  }

  lemma CheckFails(s: Engine, call: UrlCall, oks: seq<bool>)
    requires s.section == Creating(call)
    ensures Locked(s, [true] + ([false] + oks)) == Locked(s.(play := Create(s.play), section := Failing(call)), oks)
  {
    var s1 := Step(s, LockedStep(true));
    assert s1 == s.(play := Create(s.play), section := Checking(call));
    LockedOne(s, true, [false] + oks);
    CheckFailed(s1, call, oks);
  }

  lemma CheckFailed(s: Engine, call: UrlCall, oks: seq<bool>)
    requires s.section == Checking(call)
    ensures Locked(s, [false] + oks) == Locked(s.(section := Failing(call)), oks)
  {
    LockedOne(s, false, oks);
  }

  lemma MakeFails(s: Engine, call: UrlCall)
    requires s.section == Creating(call)
    ensures Locked(s, MakeAnswers(Env(true, false))) == Loaded(s, PlayerInit(s.play, Env(true, false)), call)
  {
    CheckFails(s, call, [true] + ([true] + ([true] + [])));
    FailIsSteps(s.(play := Create(s.play), section := Failing(call)), call);
  }

  lemma MakeIsSteps(s: Engine, call: UrlCall, env: Env)
    requires s.section == Creating(call)
    ensures Locked(s, MakeAnswers(env)) == Loaded(s, PlayerInit(s.play, env), call)
  {
    var s1 := Step(s, LockedStep(env.create));
    if !env.create {
      LockedOne(s, false, [true] + []);
      LockedOne(s1, true, []);
    } else if env.check {
      var s2 := Step(s1, LockedStep(true));
      LockedOne(s, true, [true] + ([true] + []));
      LockedOne(s1, true, [true] + []);
      LockedOne(s2, true, []);
    } else {
      MakeFails(s, call);
    }
  }

  /** A set-url nobody interrupts, step by step; the last URL asked for is remembered beside it. */
  lemma SetUrlIsSteps(s: Engine, url: Option<string>, title: string, env: Env)
    requires Enabled(s, ApiSetUrl(url, title))
    ensures var (p, g) := NewUrl(s.play, s.prog, url, title, env);
            Locked(Step(s, ApiSetUrl(url, title)),
                   DropAnswers(s.play.player.Some?) + if url.None? then [] else MakeAnswers(env))
              == Engine(p, if url.Some? then g.(lastUrl := url) else g, s.loop, Unlocked)
  {
    var begun, holder := Step(s, ApiSetUrl(url, title)), SettingUrl(Asked(url, title));
    DropIsSteps(begun, holder);
    var answers := DropAnswers(s.play.player.Some?);
    if url.None? {
      assert answers + [] == answers;
    } else {
      LockedAppend(begun, answers, MakeAnswers(env));
      MakeIsSteps(Locked(begun, answers), holder.call, env);
    }
  }

  lemma StopIsSteps(s: Engine)
    requires Enabled(s, ApiStop)
    ensures var begun := Step(s, ApiStop);
            (if begun == s then s else Locked(begun, DropAnswers(begun.play.player.Some?))) == s.(play := Stop(s.play))
  {
    if s.play.status != Stopped {
      DropIsSteps(Step(s, ApiStop), StoppingPlayer);
    }
  }

  /** The message thread with one message, step by step. */
  lemma HandledIsSteps(s: Engine, msg: Msg, env: Env, startOk: bool)
    requires s.loop.pc == Holding(msg) && s.section.Unlocked?
    ensures Locked(Step(s, ThreadHandle(startOk)),
                   if msg.CtlSetUrl? then DropAnswers(s.play.player.Some?) + MakeAnswers(env) else [])
              == var t := Handled(s, msg, env, startOk); t.(loop := t.loop.(pc := AtTest))
  {
    if msg.CtlSetUrl? {
      var begun := Step(s, ThreadHandle(startOk));
      DropIsSteps(begun, SettingUrl(Again));
      var answers := DropAnswers(s.play.player.Some?);
      LockedAppend(begun, answers, MakeAnswers(env));
      MakeIsSteps(Locked(begun, answers), Again, env);
    }
  }

  /** Destroy's first part, step by step, when nothing comes in between: the duration is left alone. */
  lemma DestroyIsSteps(s: Engine)
    requires Enabled(s, DestroyEnter)
    ensures var s1 := Step(Step(s, DestroyEnter), DestroyStep);
            (if s.play.player.None? then s1 else Step(Step(s1, DestroyStep), DestroyStep))
              == s.(play := DropPlayer(s.play).(duration := s.play.duration), loop := s.loop.(phase := PlayerGone))
  {
  }
}
