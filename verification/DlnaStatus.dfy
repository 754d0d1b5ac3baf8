/**
 Status and handle of the DLNA renderer. The callback takes no lock, so a "ready" can land
 inside set-url or stop, after the write that marks the renderer. This module says exactly
 when that leaves an active status with no player behind it.
 */
module DlnaStatus {
  import opened Common
  import opened DlnaCalls
  import opened DlnaPlayer

  /** With the mutex free and destroy not entered, an active status has a live handle. */
  predicate StatusOk(s: Engine) {
    s.loop.phase.Open? && s.section.Unlocked? && Busy(s.play.status) ==> s.play.player.Some? && s.play.stock.live != {}
  }

  /** Whether, since a stop or set-url marked the renderer, the last thing to say how the player stands was a
      "ready". It follows the events, and what they meet: a stop that finds the renderer stopped does nothing, and a
      completion says nothing while repeating or before the user's URL. */
  predicate ReadyNext(s: Engine, e: Event, was: bool) {
    if !Enabled(s, e) then was
    else match e
      case ApiSetUrl(_, _) => false
      case ApiStop => was && s.play.status == Stopped
      case ThreadHandle(_) =>
        was && s.loop.pc.msg != CtlSetUrl && !(s.loop.pc.msg == CtlStop && s.play.player.Some?)
      case PlayerCallback(Ready) => true
      case PlayerCallback(Failed) => false
      case PlayerCallback(Complete) => was && (s.loop.repeatFlag || AdvertPending(s.prog))
      case _ => was
  }

  /** The step that ends a stop, or a set-url without a new player, when a "ready" fell into it. */
  predicate Strands(s: Engine, e: Event, ready: bool) {
    && e.LockedStep? && ready && s.loop.phase.Open?
    && match s.section
       case Dropping(Clear, holder) => AfterDrop(holder).Unlocked?
       case Loading(_) => s.play.player.None?
       case _ => false
  }

  predicate NoStrand(s: Engine, es: seq<Event>, ready: bool)
    decreases |es|
  {
    es == [] || (!Strands(s, es[0], ready) && NoStrand(Step(s, es[0]), es[1..], ReadyNext(s, es[0], ready)))
  }

  /** Inside a call that has marked the renderer, the status is active exactly when a "ready" came last. */
  predicate StatusInv(s: Engine, ready: bool) {
    s.loop.phase.Open? ==>
      match s.section
      case Unlocked => Busy(s.play.status) ==> s.play.player.Some?
      case Dropping(stage, _) =>
        (Busy(s.play.status) <==> ready) && (stage.Test? && ready ==> s.play.player.Some?)
      case Loading(_) => s.play.player.None? ==> (Busy(s.play.status) <==> ready)
      case _ => Busy(s.play.status) <==> ready
  }

  lemma AdvanceStatusIff(s: Engine, ok: bool, ready: bool)
    requires Inv(s) && StatusInv(s, ready) && !s.section.Unlocked?
    ensures StatusInv(Advance(s, ok), ready) <==> !Strands(s, LockedStep(ok), ready)
    ensures StatusOk(Advance(s, ok)) <==> !Strands(s, LockedStep(ok), ready)
  {
    if s.loop.phase.Open? {
      AdvanceKeepsPlayer(s, ok);
    }
  }

  lemma CallbackStatus(s: Engine, notice: Notice, ready: bool)
    requires Inv(s) && StatusInv(s, ready) && s.play.stock.live != {}
    ensures StatusInv(Callback(s, notice), ReadyNext(s, PlayerCallback(notice), ready))
  {
  }

  lemma OtherStatus(s: Engine, e: Event, ready: bool)
    requires Inv(s) && StatusInv(s, ready) && !e.LockedStep? && !e.PlayerCallback?
    ensures StatusInv(Step(s, e), ReadyNext(s, e, ready))
  {
  }

  lemma InvStatusOk(s: Engine, ready: bool)
    requires Inv(s) && StatusInv(s, ready)
    ensures StatusOk(s)
  {
  }

  lemma StepStatusIff(s: Engine, e: Event, ready: bool)
    requires Inv(s) && StatusInv(s, ready)
    ensures StatusInv(Step(s, e), ReadyNext(s, e, ready)) <==> !Strands(s, e, ready)
    ensures StatusOk(Step(s, e)) <==> !Strands(s, e, ready)
  {
    StepKeeps(s, e);
    match e
    case LockedStep(ok) =>
      if Enabled(s, e) {
        AdvanceStatusIff(s, ok, ready);
      }
      InvStatusOk(s, ready);
    case PlayerCallback(notice) =>
      if Enabled(s, e) {
        CallbackStatus(s, notice, ready);
      }
      InvStatusOk(Step(s, e), ReadyNext(s, e, ready));
    case _ =>
      OtherStatus(s, e, ready);
      InvStatusOk(Step(s, e), ReadyNext(s, e, ready));
  }

  lemma {:induction false} StatusIff(s: Engine, es: seq<Event>, ready: bool)
    requires Inv(s) && StatusInv(s, ready)
    ensures Always(StatusOk, s, es) <==> NoStrand(s, es, ready)
    decreases |es|
  {
    InvStatusOk(s, ready);
    if es != [] {
      var next := Step(s, es[0]);
      StepKeeps(s, es[0]);
      StepStatusIff(s, es[0], ready);
      AlwaysNext(StatusOk, s, es);
      if StatusOk(next) {
        StatusIff(next, es[1..], ReadyNext(s, es[0], ready));
      } else if Always(StatusOk, next, es[1..]) {
        AlwaysNow(StatusOk, next, es[1..]);
      }
    }
  }

  /** Over every run from the start: whenever the mutex is free, preparing, prepared, playing and paused imply a
      live handle, if and only if no "ready" was the last word inside a stop, or inside a set-url that then ended
      without a player. */
  lemma ActiveHasHandleIff(es: seq<Event>)
    ensures Always(StatusOk, START, es) <==> NoStrand(START, es, false)
  {
    StatusIff(START, es, false);
  }

  // ---------------------------------------------------------------- every instant

  /** The same with no regard to the mutex, as an unlocked reader sees it. */
  predicate SeenOk(s: Engine) {
    s.loop.phase.Open? && Busy(s.play.status) ==> s.play.stock.live != {}
  }

  /** The library call that destroys a player inside a stop or a set-url when a "ready" fell in before it. */
  predicate Exposes(s: Engine, e: Event, ready: bool) {
    && e.LockedStep? && ready && s.loop.phase.Open?
    && ((s.section.Dropping? && s.section.stage.Call?) || s.section.Failing?)
  }

  predicate NoExposure(s: Engine, es: seq<Event>, ready: bool)
    decreases |es|
  {
    es == [] || (!Exposes(s, es[0], ready) && NoExposure(Step(s, es[0]), es[1..], ReadyNext(s, es[0], ready)))
  }

  /** In addition no "ready" is carried past the destruction of its player. */
  predicate SeenInv(s: Engine, ready: bool) {
    && StatusInv(s, ready)
    && (s.loop.phase.Open? ==>
          match s.section
          case Dropping(Clear, _) => !ready
          case Creating(_) => !ready
          case Clearing(_) => !ready
          case Loading(_) => s.play.player.None? ==> !ready
          case _ => true)
  }

  lemma AdvanceSeenIff(s: Engine, ok: bool, ready: bool)
    requires Inv(s) && SeenInv(s, ready) && !s.section.Unlocked?
    ensures SeenInv(Advance(s, ok), ready) <==> !Exposes(s, LockedStep(ok), ready)
    ensures SeenOk(Advance(s, ok)) <==> !Exposes(s, LockedStep(ok), ready)
  {
    if s.loop.phase.Open? {
      AdvanceKeepsPlayer(s, ok);
    }
  }

  lemma InvSeenOk(s: Engine, ready: bool)
    requires Inv(s) && SeenInv(s, ready)
    ensures SeenOk(s)
  {
  }

  lemma OtherSeen(s: Engine, e: Event, ready: bool)
    requires Inv(s) && SeenInv(s, ready) && !e.LockedStep?
    ensures SeenInv(Step(s, e), ReadyNext(s, e, ready))
  {
    StepStatusIff(s, e, ready);
  }

  lemma StepSeenIff(s: Engine, e: Event, ready: bool)
    requires Inv(s) && SeenInv(s, ready)
    ensures SeenInv(Step(s, e), ReadyNext(s, e, ready)) <==> !Exposes(s, e, ready)
    ensures SeenOk(Step(s, e)) <==> !Exposes(s, e, ready)
  {
    StepKeeps(s, e);
    if e.LockedStep? {
      if Enabled(s, e) {
        AdvanceSeenIff(s, e.ok, ready);
      }
      InvSeenOk(s, ready);
    } else {
      OtherSeen(s, e, ready);
      InvSeenOk(Step(s, e), ReadyNext(s, e, ready));
    }
  }

  lemma {:induction false} SeenIff(s: Engine, es: seq<Event>, ready: bool)
    requires Inv(s) && SeenInv(s, ready)
    ensures Always(SeenOk, s, es) <==> NoExposure(s, es, ready)
    decreases |es|
  {
    InvSeenOk(s, ready);
    if es != [] {
      var next := Step(s, es[0]);
      StepKeeps(s, es[0]);
      StepSeenIff(s, es[0], ready);
      AlwaysNext(SeenOk, s, es);
      if SeenOk(next) {
        SeenIff(next, es[1..], ReadyNext(s, es[0], ready));
      } else if Always(SeenOk, next, es[1..]) {
        AlwaysNow(SeenOk, next, es[1..]);
      }
    }
  }

  /** Over every run from the start and at every instant until destroy is entered, also inside calls: an active
      status has a live player if and only if no "ready" was the last word before a stop or a set-url destroyed a
      player. */
  lemma SeenHasHandleIff(es: seq<Event>)
    ensures Always(SeenOk, START, es) <==> NoExposure(START, es, false)
  {
    SeenIff(START, es, false);
  }

  // ---------------------------------------------------------------- single calls

  predicate NoReadyInside(s: Engine, es: seq<Event>)
    decreases |es|
  {
    es == [] || ((es[0] == PlayerCallback(Ready) ==> s.section.Unlocked?) && NoReadyInside(Step(s, es[0]), es[1..]))
  }

  /** In particular with no "ready" while a call holds the mutex nothing is ever stranded. */
  lemma {:induction false} QuietCallsNeverStrand(s: Engine, es: seq<Event>, ready: bool)
    requires NoReadyInside(s, es) && (ready ==> s.section.Unlocked?)
    ensures NoStrand(s, es, ready)
    decreases |es|
  {
    if es != [] {
      QuietCallsNeverStrand(Step(s, es[0]), es[1..], ReadyNext(s, es[0], ready));
    }
  }

  /** A "ready" between stopping and destroying strands the status whatever the library answers. */
  lemma ReadyInsideStop(s: Engine)
    requires Inv(s) && s.loop.phase.Open? && s.section.Unlocked? && s.play.player.Some? && s.play.status != Stopped
    ensures var t := Locked(Step(Step(s, ApiStop), PlayerCallback(Ready)), DropAnswers(true));
            t.play.status == Prepared && t.play.player.None? && !StatusOk(t)
  {
    DropIsSteps(Step(Step(s, ApiStop), PlayerCallback(Ready)), StoppingPlayer);
  }

  /** A notice inside set-url, before the old player is destroyed, strands the status exactly when it says "ready"
      and no new player comes up: no URL, or the library fails to create or to check one. */
  lemma NoticeInsideSetUrl(s: Engine, notice: Notice, url: Option<string>, title: string, env: Env)
    requires Inv(s) && s.loop.phase.Open? && s.section.Unlocked? && s.play.player.Some?
    requires url.Some? ==> |url.value| < URL_STR_LEN
    ensures var noticed := Step(Step(s, ApiSetUrl(url, title)), PlayerCallback(notice));
            var t := Locked(noticed, DropAnswers(true) + if url.None? then [] else MakeAnswers(env));
            && t.section.Unlocked?
            && (!StatusOk(t) <==> notice.Ready? && (url.None? || !env.create || !env.check))
  {
    var holder := SettingUrl(Asked(url, title));
    var noticed := Step(Step(s, ApiSetUrl(url, title)), PlayerCallback(notice));
    assert noticed.section == Dropping(Test, holder) && noticed.play.player.Some? && noticed.loop.phase.Open?;
    assert Busy(noticed.play.status) <==> notice.Ready?;
    DropIsSteps(noticed, holder);
    var dropped := Locked(noticed, DropAnswers(true));
    if url.None? {
      assert DropAnswers(true) + [] == DropAnswers(true);
    } else {
      LockedAppend(noticed, DropAnswers(true), MakeAnswers(env));
      MakeIsSteps(dropped, holder.call, env);
      InitStatus(dropped.play, env);
    }
  }

  lemma InitStatus(p: Playback, env: Env)
    requires p.player.None?
    ensures var q := PlayerInit(p, env);
            && (q.player.Some? <==> env.create && env.check)
            && (q.player.Some? ==> q.player.value in q.stock.live)
            && (q.player.None? ==> q.status == p.status)
  {
  }
}
