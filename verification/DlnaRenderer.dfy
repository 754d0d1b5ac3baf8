/**
 The DLNA renderer structure itself, with the bodies of its calls run from start to end.
 What they do is proved to be the steps taken one after the other.
 */
module DlnaRenderer {
  import opened Common
  import opened DlnaCalls
  import opened DlnaPlayer

  /** The renderer structure. Library answers are parameters; the history fields are ghost. */
  class Renderer {
    var player: Option<nat>
    var mStatus: Status
    var mPreStatus: Status
    var mError: bool
    var repeatFlag: bool
    var uri: string
    var title: string
    var adUrl: string
    var bAdPlayed: bool
    var msgQueue: seq<Msg>
    var msgThreadRun: bool
    var seekTime: int
    var durationMs: int
    var positionMs: int
    ghost var pc: ThreadPc
    ghost var phase: Phase
    var created: nat
    ghost var live: set<nat>
    ghost var destroyed: seq<Option<nat>>
    ghost var sources: seq<Source>
    ghost var lastUrl: Option<string>
    ghost var seeks: seq<int>

    ghost function Players(): Stock
      reads `created, `live, `destroyed
    {
      Stock(created, live, destroyed)
    }

    ghost function Play(): Playback
      reads `player, `mStatus, `mPreStatus, `mError, `durationMs, `positionMs, `created, `live, `destroyed
    {
      Playback(player, mStatus, mPreStatus, mError, durationMs, positionMs, Players())
    }

    ghost function Prog(): Programme
      reads `uri, `title, `adUrl, `bAdPlayed, `sources, `lastUrl
    {
      Programme(uri, title, adUrl, bAdPlayed, sources, lastUrl)
    }

    ghost function MsgLoop(): Loop
      reads `msgQueue, `msgThreadRun, `repeatFlag, `seekTime, `pc, `phase, `seeks
    {
      Loop(msgQueue, msgThreadRun, repeatFlag, seekTime, pc, phase, seeks)
    }

    ghost function View(): Engine
      reads this
    {
      Engine(Play(), Prog(), MsgLoop(), Unlocked)
    }

    constructor ()
      ensures View() == START
    {
      player, mStatus, mPreStatus, mError, repeatFlag := None, Idle, Idle, false, false;
      uri, title, adUrl, bAdPlayed := "", "", "", false;
      msgQueue, msgThreadRun := [], true;
      seekTime, durationMs, positionMs := 0, 0, 0;
      pc, phase, created, live, destroyed, sources, lastUrl, seeks := AtTest, Open, 0, {}, [], [], None, [];
    }

    /** The library destroys what it is given. */
    ghost method Destroy(target: Option<nat>)
      modifies `live, `destroyed
      ensures Players() == Kill(old(Players()), target)
    {
      live := if target.Some? then live - {target.value} else live;
      destroyed := destroyed + [target];
    }

    method InitPlayer(env: Env) returns (ret: int)
      modifies `player, `created, `live, `destroyed, `mStatus
      ensures Play() == PlayerInit(old(Play()), env)
      ensures ret == if env.create && env.check then 0 else -1
    {
      if !env.create {
        player := None;
        return -1;
      }
      player := Some(created);
      live := live + {created};
      created := created + 1;
      if !env.check {
        Destroy(player);
        player := None;
        return -1;
      }
      mStatus := Idle;
      return 0;
    }

    method Prepare(sourceOk: bool, prepareOk: bool) returns (ret: int)
      modifies `mStatus, `sources
      ensures (Play(), Prog()) == PlayerPrepare(old(Play()), old(Prog()))
      ensures ret == if old(player).Some? && sourceOk && prepareOk then 0 else -1
    {
      if player.None? {
        return -1;
      }
      mStatus := Preparing;
      var url;
      if adUrl != "" && !bAdPlayed {
        url := Advert(adUrl);
      } else {
        url := User(uri);
      }
      sources := sources + [url];
      if !sourceOk {
        return -1;
      }
      if !prepareOk {
        return -1;
      }
      return 0;
    }

    method DropHandle()
      modifies `player, `live, `destroyed, `durationMs
      ensures Play() == DropPlayer(old(Play()))
    {
      if player.Some? {
        Destroy(player);
        player := None;
        durationMs := 0;
      }
    }

    method SetDataUrl(url: Option<string>, newTitle: string, env: Env, sourceOk: bool, prepareOk: bool)
      returns (ret: int)
      modifies `player, `mStatus, `durationMs, `created, `live, `destroyed, `uri, `title, `sources
      ensures (Play(), Prog()) == NewUrl(old(Play()), old(Prog()), url, newTitle, env)
      ensures ret == if url.None? then -1 else 0
    {
      mStatus := Idle;
      DropHandle();
      if url.None? {
        return -1;
      }
      LoadUrl(url.value, newTitle, env, sourceOk, prepareOk);
      return 0;
    }

    /** The rest of set-url, once the old handle is gone and a URL was given. */
    method LoadUrl(url: string, newTitle: string, env: Env, sourceOk: bool, prepareOk: bool)
      modifies `player, `mStatus, `created, `live, `destroyed, `uri, `title, `sources
      ensures (Play(), Prog()) ==
        PlayerPrepare(PlayerInit(old(Play()), env), Named(old(Prog()), url, newTitle))
    {
      var _ := InitPlayer(env);
      uri := url;
      title := newTitle[..Min(|newTitle|, TITLE_STR_LEN - 1)];
      var _ := Prepare(sourceOk, prepareOk);
    }

    method StopPlayer() returns (found: bool)
      modifies `mStatus, `mPreStatus
      ensures Play() == PlayerStop(old(Play()))
      ensures found == old(player).Some?
    {
      if player.None? {
        return false;
      }
      mPreStatus := mStatus;
      mStatus := Stopped;
      return true;
    }

    method StopRender()
      modifies `mStatus, `mPreStatus, `player, `live, `destroyed, `durationMs
      ensures Play() == Stop(old(Play()))
    {
      if mStatus != Stopped {
        var _ := StopPlayer();
        DropHandle();
      }
    }

    method StartPlayer(ok: bool) returns (ret: int)
      modifies `mStatus, `mPreStatus
      ensures Play() == PlayerStart(old(Play()), ok)
      ensures ret == if old(player).Some? && ok then 0 else -1
    {
      if player.None? {
        return -1;
      }
      if !ok {
        return -1;
      }
      mPreStatus := mStatus;
      mStatus := Playing;
      return 0;
    }

    /** Pauses, and shows the progress bar with what the library says; `posRet` is its answer to the position read,
        which the call returns. */
    method PauseRender(reported: int, position: int, posRet: int)
      returns (ret: int, shownDuration: int, shownPosition: int)
      modifies `mStatus, `mPreStatus, `durationMs
      ensures Play() == Pause(old(Play()), reported)
      ensures ret == posRet && shownDuration == durationMs && shownPosition == position
    {
      if player.Some? {
        mPreStatus := mStatus;
        mStatus := Paused;
      }
      if durationMs == 0 {
        durationMs := reported;
      }
      return posRet, durationMs, position;
    }

    method Seek(time: int)
      modifies `seekTime, `msgQueue
      ensures phase.Open? ==> View() == Step(old(View()), ApiSeek(time))
    {
      seekTime := time;
      msgQueue := msgQueue + [CtlSeek];
    }

    method Position(reported: int) returns (ret: int)
      modifies `positionMs
      ensures (Play(), ret) == GetPosition(old(Play()), Prog(), reported)
    {
      if adUrl != "" && !bAdPlayed {
        return -1;
      }
      if player.Some? {
        positionMs := reported;
      }
      return positionMs;
    }

    method Duration(reported: int) returns (ret: int)
      modifies `durationMs
      ensures (Play(), ret) == GetDuration(old(Play()), Prog(), reported)
    {
      if adUrl != "" && !bAdPlayed {
        return -1;
      }
      if durationMs != 0 {
        return durationMs;
      }
      if player.Some? {
        durationMs := reported;
      }
      return durationMs;
    }

    method OnNotice(notice: Notice)
      modifies `mStatus, `mPreStatus, `mError, `msgQueue, `bAdPlayed
      ensures View() == Callback(old(View()), notice)
    {
      match notice
      case Failed =>
        mStatus := Stopped;
        mPreStatus := Stopped;
        mError := true;
      case Ready =>
        mPreStatus := mStatus;
        mStatus := Prepared;
        msgQueue := msgQueue + [CtlPlay];
      case Complete =>
        if repeatFlag {
          msgQueue := msgQueue + [CtlRepeat];
        } else if adUrl != "" && !bAdPlayed {
          bAdPlayed := true;
          msgQueue := msgQueue + [CtlSetUrl];
        } else {
          mPreStatus := mStatus;
          mStatus := Stopped;
        }
      case Information =>
    }

    method HandleMessage(msg: Msg, env: Env, startOk: bool, sourceOk: bool, prepareOk: bool)
      modifies `player, `mStatus, `mPreStatus, `durationMs, `created, `live, `destroyed, `uri, `title, `sources, `seeks
      ensures (Play(), Prog()) == HandledHere(msg, old(Play()), old(Prog()), env, startOk)
      ensures seeks == old(seeks) + if msg.CtlSeek? && old(player).Some? then [seekTime] else []
    {
      match msg
      case CtlStop =>
        var _ := StopPlayer();
      case CtlPlay =>
        var _ := StartPlayer(startOk);
      case CtlSeek =>
        if player.Some? {
          seeks := seeks + [seekTime];
        }
      case CtlSetUrl =>
        var _ := SetDataUrl(Some(uri), title, env, sourceOk, prepareOk);
      case _ =>
    }

    /** The first half of destroy, before the message thread is told to stop. */
    method DestroyHandle()
      modifies `player, `live, `destroyed, `phase
      ensures phase == PlayerGone
      ensures player == None
      ensures Players() == if old(player).Some? then Kill(old(Players()), old(player)) else old(Players())
    {
      if player.Some? {
        Destroy(player);
        player := None;
      }
      phase := PlayerGone;
    }
  }

  /** The parts of `Handled` that a message changes besides the seeks. */
  function HandledHere(msg: Msg, p: Playback, g: Programme, env: Env, startOk: bool): (Playback, Programme) {
    match msg
    case CtlStop => (PlayerStop(p), g)
    case CtlPlay => (PlayerStart(p, startOk), g)
    case CtlSetUrl => NewUrl(p, g, Some(g.uri), g.title, env)
    case _ => (p, g)
  }

  lemma HandledHereIsHandled(s: Engine, msg: Msg, env: Env, startOk: bool)
    ensures var t := Handled(s, msg, env, startOk);
            && (t.play, t.prog) == HandledHere(msg, s.play, s.prog, env, startOk)
            && t.loop == s.loop.(seeks := s.loop.seeks
                                          + if msg.CtlSeek? && s.play.player.Some? then [s.loop.seekTime] else [])
  {
  }
}
