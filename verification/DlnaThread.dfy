/**
 What the message thread of the DLNA renderer comes to when it is left to work: each message
 put into its queue is acted on. So a player that reports "ready" is started, and a seek
 reaches the library.
 */
module DlnaThread {
  import opened Common
  import opened DlnaPlayer
  import opened DlnaCalls
  import opened DlnaDestroy

  /** A step of the message thread, with a library that works. */
  predicate OfThread(e: Event) {
    e.ThreadTest? || e.ThreadPop? || e == ThreadHandle(true) || e == LockedStep(true)
  }

  ghost predicate ThreadAlone(es: seq<Event>) {
    forall e | e in es :: OfThread(e)
  }

  /** A player is held, or the message thread is about to make one. */
  predicate HandleComing(s: Engine) {
    match s.section
    case Dropping(_, _) => true
    case Creating(_) => true
    case Failing(_) => false
    case Clearing(_) => false
    case _ => s.play.player.Some?
  }

  /** Destroy was not entered, no API call holds the mutex, and the thread works for a player. */
  ghost predicate Serving(s: Engine) {
    Inv(s) && s.loop.phase.Open? && !InApi(s.section) && !s.loop.pc.Exited? && HandleComing(s)
  }

  /** The thread has nothing to do. */
  predicate AllServed(s: Engine) {
    s.loop.queue == [] && !s.loop.pc.Holding?
  }

  lemma ThreadStepServes(s: Engine, e: Event)
    requires Serving(s) && OfThread(e)
    ensures Serving(Step(s, e))
  {
    StepKeeps(s, e);
  }

  // ---------------------------------------------------------------- the last message

  /** The message is the last of the queue, or the one the thread is about to handle. */
  predicate Awaits(s: Engine, msg: Msg) {
    if s.loop.queue != [] then s.loop.queue[|s.loop.queue| - 1] == msg
    else s.loop.pc == Holding(msg) && s.section.Unlocked? && s.play.player.Some?
  }

  lemma AwaitsOn(s: Engine, msg: Msg, e: Event)
    requires Serving(s) && Awaits(s, msg) && OfThread(e)
    requires s.loop.queue == [] ==> e != ThreadHandle(true)
    ensures Awaits(Step(s, e), msg)
    ensures Step(s, e).loop.seekTime == s.loop.seekTime && s.loop.seeks <= Step(s, e).loop.seeks
  {
  }

  lemma {:induction false} IdleStays(s: Engine, es: seq<Event>)
    requires Serving(s) && AllServed(s) && ThreadAlone(es)
    ensures Run(s, es).play == s.play && Run(s, es).loop.seeks == s.loop.seeks
    decreases |es|
  {
    if es != [] {
      assert es[0] in es;
      ThreadStepServes(s, es[0]);
      IdleStays(Step(s, es[0]), es[1..]);
    }
  }

  /** When the thread has served all, the last thing it did was to handle the last message, with a player held. */
  lemma {:induction false} LastServed(s: Engine, msg: Msg, es: seq<Event>) returns (h: Engine)
    requires Serving(s) && Awaits(s, msg) && !msg.CtlSetUrl? && ThreadAlone(es) && AllServed(Run(s, es))
    ensures h.loop.pc == Holding(msg) && h.section.Unlocked? && h.play.player.Some?
    ensures h.loop.seekTime == s.loop.seekTime && s.loop.seeks <= h.loop.seeks
    ensures Run(s, es).play == Step(h, ThreadHandle(true)).play
    ensures Run(s, es).loop.seeks == Step(h, ThreadHandle(true)).loop.seeks
    decreases |es|
  {
    assert es != [];
    assert es[0] in es;
    ThreadStepServes(s, es[0]);
    if s.loop.queue == [] && es[0] == ThreadHandle(true) {
      IdleStays(Step(s, es[0]), es[1..]);
      h := s;
    } else {
      AwaitsOn(s, msg, es[0]);
      h := LastServed(Step(s, es[0]), msg, es[1..]);
    }
  }

  // ---------------------------------------------------------------- it does come to that

  lemma NextServes(s: Engine)
    requires Serving(s) && !AllServed(s)
    ensures OfThread(ThreadNext(s)) && Distance(Step(s, ThreadNext(s))) < Distance(s)
  {
  }

  /** The thread comes to an end with its messages. */
  lemma {:induction false} ThreadServes(s: Engine) returns (es: seq<Event>)
    requires Serving(s)
    ensures ThreadAlone(es) && AllServed(Run(s, es))
    decreases Distance(s)
  {
    es := [];
    if !AllServed(s) {
      var e := ThreadNext(s);
      NextServes(s);
      ThreadStepServes(s, e);
      es := ThreadServes(Step(s, e));
      RunCons(s, e, es);
      es := [e] + es;
    }
  }

  // ---------------------------------------------------------------- what is promised

  /** A player is held, no call holds the mutex, and destroy was not entered. */
  ghost predicate Calm(s: Engine) {
    Inv(s) && s.loop.phase.Open? && s.section.Unlocked? && s.play.player.Some?
  }

  /** A player that reports "ready" is started, whatever is in the queue before it: once the message thread has
      served its messages, with a library that works, the status is playing and a player is held. */
  lemma ReadyPlays(s: Engine, es: seq<Event>)
    requires Calm(s) && ThreadAlone(es)
    ensures var t := Run(Step(s, PlayerCallback(Ready)), es);
            AllServed(t) ==> t.play.status == Playing && t.play.player.Some?
  {
    var ready := Step(s, PlayerCallback(Ready));
    StepKeeps(s, PlayerCallback(Ready));
    if AllServed(Run(ready, es)) {
      var h := LastServed(ready, CtlPlay, es);
    }
  }

  /** And the thread does come to have served them. */
  lemma ReadyIsServed(s: Engine) returns (es: seq<Event>)
    requires Calm(s)
    ensures var t := Run(Step(s, PlayerCallback(Ready)), es);
            ThreadAlone(es) && AllServed(t) && t.play.status == Playing && t.play.player.Some?
  {
    StepKeeps(s, PlayerCallback(Ready));
    es := ThreadServes(Step(s, PlayerCallback(Ready)));
    ReadyPlays(s, es);
  }

  ghost predicate NoSeek(es: seq<Event>) {
    forall e | e in es :: !e.ApiSeek?
  }

  lemma SeekStep(s: Engine, e: Event)
    requires !e.ApiSeek?
    ensures var l, m := s.loop, Step(s, e).loop;
            m.seekTime == l.seekTime && (m.seeks == l.seeks || m.seeks == l.seeks + [l.seekTime])
  {
  }

  /** Over any run, whatever the threads do: until the next seek call, each seek asked of the library is for the
      time last given. */
  lemma {:induction false} SeeksAskLatest(s: Engine, es: seq<Event>)
    requires NoSeek(es)
    ensures var t := Run(s, es);
            && t.loop.seekTime == s.loop.seekTime && s.loop.seeks <= t.loop.seeks
            && forall i | |s.loop.seeks| <= i < |t.loop.seeks| :: t.loop.seeks[i] == s.loop.seekTime
    decreases |es|
  {
    if es != [] {
      assert es[0] in es;
      SeekStep(s, es[0]);
      SeeksAskLatest(Step(s, es[0]), es[1..]);
    }
  }

  /** A seek never meets a player already destroyed: until destroy is entered the library is asked for one only with a
      live player held. */
  lemma SeekOnLive(s: Engine, e: Event)
    requires Inv(s) && s.loop.phase.Open?
    ensures Step(s, e).loop.seeks != s.loop.seeks ==> s.play.player.Some? && s.play.player.value in s.play.stock.live
  {
  }

  /** While a call holds the mutex the other calls that take it wait, of the API and of the message thread. */
  lemma MutexWaits(s: Engine, e: Event)
    requires !s.section.Unlocked?
    requires e.ApiSetUrl? || e.ApiStop? || e.ApiPause? || e.ApiResume? || e.ApiSetAdUrl?
             || (e.ThreadHandle? && s.loop.pc.Holding? && s.loop.pc.msg in {CtlPlay, CtlSeek, CtlSetUrl})
    ensures Step(s, e) == s
  {
  }

  /** A seek reaches the library: once the thread has served its messages, it was asked for the time given, and
      since the call for no other. */
  lemma SeekReaches(s: Engine, time: int, es: seq<Event>)
    requires Calm(s) && ThreadAlone(es)
    ensures var t := Run(Step(s, ApiSeek(time)), es);
            AllServed(t) ==>
              && |s.loop.seeks| < |t.loop.seeks| && s.loop.seeks <= t.loop.seeks
              && forall i | |s.loop.seeks| <= i < |t.loop.seeks| :: t.loop.seeks[i] == time
  {
    var asked := Step(s, ApiSeek(time));
    StepKeeps(s, ApiSeek(time));
    SeeksAskLatest(asked, es);
    if AllServed(Run(asked, es)) {
      var h := LastServed(asked, CtlSeek, es);
    }
  }

  // ---------------------------------------------------------------- destroy comes to its end

  /** How far the thread, told to end, is from having ended: it finishes the message in its hands, or one more. */
  function ExitDistance(s: Engine): nat {
    match s.loop.pc
    case Exited => 0
    case AtTest => 1
    case Holding(_) => 2 + SectionRank(s.section)
    case AtPop => 40
  }

  /** What destroy and the thread still have to do, one after the other. */
  function EndDistance(s: Engine): nat {
    match s.loop.phase
    case Freed => 0
    case ThreadTold => 1 + ExitDistance(s)
    case PlayerGone => 50
    case Destroying(stage) => (match stage case Clear => 51 case Call => 52 case Test => 53)
    case Open => 54
  }

  function EndNext(s: Engine): Event {
    match s.loop.phase
    case Destroying(_) => DestroyStep
    case PlayerGone => DestroyTellThread
    case _ => if s.loop.pc.Exited? then DestroyFree else ThreadNext(s)
  }

  lemma EndNearer(s: Engine)
    requires Inv(s) && !s.loop.phase.Open? && !s.loop.phase.Freed?
    ensures var t := Step(s, EndNext(s)); !t.loop.phase.Open? && EndDistance(t) < EndDistance(s)
  {
  }

  /** Destroy never waits for ever: from every state in which it was entered it and the message thread, with a library
      that works, come to the end. */
  lemma {:induction false} DestroyEnds(s: Engine) returns (es: seq<Event>)
    requires Inv(s) && !s.loop.phase.Open?
    ensures Run(s, es).loop.phase.Freed?
    decreases EndDistance(s)
  {
    es := [];
    if !s.loop.phase.Freed? {
      var e := EndNext(s);
      StepKeeps(s, e);
      EndNearer(s);
      es := DestroyEnds(Step(s, e));
      RunCons(s, e, es);
      es := [e] + es;
    }
  }

  // ---------------------------------------------------------------- pause, resume and the time reads

  /** Pausing a held player and resuming it: paused, then playing, with the status before each kept. Without a
      player neither changes the status. */
  lemma PauseResume(s: Engine, reported: int)
    requires s.loop.phase.Open? && s.section.Unlocked?
    ensures var paused := Step(s, ApiPause(reported)).play;
            var resumed := Step(Step(s, ApiPause(reported)), ApiResume).play;
            if s.play.player.Some? then
              && paused.status == Paused && paused.preStatus == s.play.status
              && resumed.status == Playing && resumed.preStatus == Paused
            else
              paused.status == resumed.status == s.play.status
    ensures Step(s, ApiPause(reported)).play.duration == if s.play.duration == 0 then reported else s.play.duration
  {
  }

  /** With the advert over a time read returns what the held player says: the position always, the duration until one
      is known. Without a player both are what was known last. */
  lemma ReadsFetch(p: Playback, g: Programme, reported: int)
    requires !AdvertPending(g)
    ensures var (q, t) := GetPosition(p, g, reported);
            t == q.position == (if p.player.Some? then reported else p.position) && q.duration == p.duration
    ensures var (q, d) := GetDuration(p, g, reported);
            d == q.duration == (if p.duration == 0 && p.player.Some? then reported else p.duration)
            && q.position == p.position
  {
  }

  /** The reads take no lock: they answer at any time until destroy is entered. */
  lemma ReadsAnytime(s: Engine, reported: int)
    requires s.loop.phase.Open?
    ensures Step(s, ApiGetPosition(reported)) == s.(play := GetPosition(s.play, s.prog, reported).0)
    ensures Step(s, ApiGetDuration(reported)) == s.(play := GetDuration(s.play, s.prog, reported).0)
  {
  }

  /** A new player that is found good is idle until it is given its source, whatever it said before. */
  lemma GoodPlayerIdle(s: Engine, p: Playback)
    requires s.section.Checking?
    ensures Step(s, LockedStep(true)).play.status == Idle && Step(s, LockedStep(true)).section.Loading?
    ensures PlayerInit(p, Env(true, true)).status == Idle
  {
  }

  /** What a whole set-url leaves: with a library that works a new player, preparing, and the URL asked for with as
      much of the title as fits; without a URL, or when the player cannot be made or checked, no player, idle. The
      duration known of an old player is forgotten. */
  lemma SetUrlLeaves(p: Playback, g: Programme, url: Option<string>, title: string, env: Env)
    ensures var (q, h) := NewUrl(p, g, url, title, env);
            && (q.player.Some? <==> url.Some? && env.create && env.check)
            && q.status == (if q.player.Some? then Preparing else Idle)
            && (q.player.Some? ==> q.player == Some(p.stock.created) && |h.sources| == |g.sources| + 1)
            && (q.player.None? ==> h.sources == g.sources)
            && q.duration == (if p.player.Some? then 0 else p.duration)
            && (url.None? ==> h == g)
            && (url.Some? ==> h.uri == url.value && |h.title| == Min(|title|, 1023) && h.title <= title)
  {
  }

  /** And a whole stop: no player, and if there was one the renderer is stopped and remembers how it stood. A renderer
      already stopped is left alone. */
  lemma StopLeaves(p: Playback)
    ensures var q := Stop(p);
            if p.status == Stopped then q == p
            else if p.player.None? then q == p
            else q.player.None? && q.status == Stopped && q.preStatus == p.status && q.duration == 0
                 && q.stock.destroyed == p.stock.destroyed + [p.player] && p.player.value !in q.stock.live
  {
  }

  /** What a player's notices leave: "ready" prepared; a failure stopped, with the error noted; the end of the user's
      film stopped, with nothing asked of the thread; and while repeating, or at the end of the advert, one message
      and the status as it was. */
  lemma NoticesLeave(s: Engine, notice: Notice)
    requires Enabled(s, PlayerCallback(notice))
    ensures var t := Step(s, PlayerCallback(notice));
            var p, q := s.play, t.play;
            match notice
            case Ready => q.status == Prepared && q.preStatus == p.status && t.loop.queue == s.loop.queue + [CtlPlay]
            case Failed => q.status == Stopped && q.preStatus == Stopped && q.error && t.loop == s.loop
            case Information => t == s
            case Complete =>
              if s.loop.repeatFlag then q == p && t.prog == s.prog && t.loop.queue == s.loop.queue + [CtlRepeat]
              else if s.prog.adUrl != "" && !s.prog.adPlayed then
                q == p && t.prog.adPlayed && t.loop.queue == s.loop.queue + [CtlSetUrl]
              else q.status == Stopped && q.preStatus == p.status && t.loop == s.loop && t.prog == s.prog
  {
  }
}
