/**
 Destroying the DLNA renderer. It takes no lock, destroys the player first and stops the
 message thread only afterwards. So a set-url request can rebuild a player that nobody
 destroys, and the message thread and destroy can destroy the same player twice. This
 module says exactly when, by what holds at the moment destroy is entered.
 */
module DlnaDestroy {
  import opened Common
  import opened DlnaPlayer

  /** The structure is gone while a player was still alive. */
  predicate Leaked(s: Engine) {
    s.loop.phase.Freed? && s.play.stock.live != {}
  }

  /** The library was told to destroy a player twice, or to destroy NULL. */
  ghost predicate DestroyedWrongly(s: Engine) {
    None in s.play.stock.destroyed || exists i: nat :: multiset(s.play.stock.destroyed)[Some(i)] >= 2
  }

  /** Some schedule from here on ends up there. */
  ghost predicate Can(bad: Engine -> bool, s: Engine) {
    exists es :: bad(Run(s, es))
  }

  lemma CanAfter(bad: Engine -> bool, s: Engine, e: Event)
    requires Can(bad, Step(s, e))
    ensures Can(bad, s)
  {
    var es :| bad(Run(Step(s, e), es));
    RunCons(s, e, es);
    assert bad(Run(s, [e] + es));
  }

  lemma CanNow(bad: Engine -> bool, s: Engine)
    requires bad(s)
    ensures Can(bad, s)
  {
    assert bad(Run(s, []));
  }

  // ---------------------------------------------------------------- the conditions

  /** The message thread will create a player again: a request is queued, or it is in the thread's hands and has
      not yet come to creating. */
  predicate Pending(s: Engine) {
    CtlSetUrl in s.loop.queue
    || (s.loop.pc == Holding(CtlSetUrl) && (s.section.Unlocked? || s.section.Dropping? || s.section.Creating?))
  }

  /** A player is alive whose completion will queue such a request. */
  predicate AdvertMayEnd(s: Engine) {
    s.play.stock.live != {} && AdvertPending(s.prog) && !s.loop.repeatFlag
  }

  /** The message thread has created a player and has not settled whether it is any good. */
  predicate Unsettled(section: Section) {
    section.Checking? || section.Failing? || section.Clearing?
  }

  predicate MayLeak(s: Engine) {
    Pending(s) || AdvertMayEnd(s)
  }

  predicate MayDestroyWrongly(s: Engine) {
    Pending(s) || AdvertMayEnd(s) || Unsettled(s.section)
  }

  // ---------------------------------------------------------------- schedules that go wrong

  /** Destroy is entered, the message thread runs, and a request is pending. */
  ghost predicate Between(s: Engine) {
    Inv(s) && !s.loop.phase.Open? && s.loop.threadRun && Pending(s)
  }

  /** The message thread's next step, with a library that works. */
  function ThreadNext(s: Engine): Event {
    if !s.section.Unlocked? then LockedStep(true)
    else if s.loop.pc.AtTest? then ThreadTest
    else if s.loop.pc.AtPop? then ThreadPop
    else ThreadHandle(true)
  }

  function SectionRank(section: Section): nat {
    match section
    case Unlocked => 29
    case Dropping(stage, _) => (match stage case Test => 28 case Call => 27 case Clear => 26)
    case Creating(_) => 25
    case Checking(_) => 24
    case Failing(_) => 23
    case Clearing(_) => 22
    case Loading(_) => 21
  }

  /** How far the thread is from creating the player. */
  function Distance(s: Engine): nat {
    30 * |s.loop.queue| +
      match s.loop.pc
      case AtTest => 2
      case AtPop => 1
      case Holding(_) => SectionRank(s.section)
      case Exited => 0
  }

  lemma LockedNearer(s: Engine)
    requires Between(s) && !s.section.Unlocked? && !s.section.Creating?
    ensures var t := Step(s, LockedStep(true));
            Pending(t) && Distance(t) < Distance(s) && t.loop.phase == s.loop.phase && t.loop.threadRun
  {
  }

  lemma UnlockedNearer(s: Engine)
    requires Between(s) && s.section.Unlocked?
    ensures var t := Step(s, ThreadNext(s));
            Pending(t) && Distance(t) < Distance(s) && t.loop.phase == s.loop.phase && t.loop.threadRun
  {
    assert s.loop.queue != [] ==> s.loop.queue == [s.loop.queue[0]] + s.loop.queue[1..];
  }

  lemma NextKeeps(s: Engine)
    requires Between(s) && !s.section.Creating?
    ensures var t := Step(s, ThreadNext(s));
            Between(t) && Distance(t) < Distance(s) && t.loop.phase == s.loop.phase
  {
    StepKeeps(s, ThreadNext(s));
    if s.section.Unlocked? {
      UnlockedNearer(s);
    } else {
      LockedNearer(s);
    }
  }

  /** If every state in which the thread is about to create goes wrong, so does every state with a request. */
  lemma {:induction false} CanOnceCreating(bad: Engine -> bool, s: Engine, phase: Phase)
    requires Between(s) && s.loop.phase == phase
    requires forall t | Between(t) && t.loop.phase == phase && t.section.Creating? :: Can(bad, t)
    ensures Can(bad, s)
    decreases Distance(s)
  {
    if !s.section.Creating? {
      NextKeeps(s);
      CanOnceCreating(bad, Step(s, ThreadNext(s)), phase);
      CanAfter(bad, s, ThreadNext(s));
    }
  }

  /** With the old player gone, the new one outlives the structure. */
  lemma LeakFromCreating(s: Engine)
    requires Between(s) && s.loop.phase.PlayerGone? && s.section.Creating?
    ensures Can(Leaked, s)
  {
    var s1 := Step(s, LockedStep(true));
    assert s.play.stock.created in s1.play.stock.live && s1.section == Checking(Again);
    var s2 := Step(s1, LockedStep(true));
    var s3 := Step(s2, LockedStep(true));
    assert s3.play.stock == s1.play.stock && s3.loop.pc.AtTest? && s3.section.Unlocked? && s3.loop.phase.PlayerGone?;
    LeakFromFree(s3);
    CanAfter(Leaked, s2, LockedStep(true));
    CanAfter(Leaked, s1, LockedStep(true));
    CanAfter(Leaked, s, LockedStep(true));
  }

  /** Destroy goes on and frees the structure under a live player. */
  lemma LeakFromFree(s: Engine)
    requires s.play.stock.live != {} && s.loop.pc.AtTest? && s.section.Unlocked? && s.loop.phase.PlayerGone?
    ensures Can(Leaked, s)
  {
    var s1 := Step(s, DestroyTellThread);
    var s2 := Step(s1, ThreadTest);
    assert s2.play == s.play && s2.loop.pc.Exited? && s2.loop.phase.ThreadTold?;
    CanNow(Leaked, Step(s2, DestroyFree));
    CanAfter(Leaked, s2, DestroyFree);
    CanAfter(Leaked, s1, ThreadTest);
    CanAfter(Leaked, s, DestroyTellThread);
  }

  lemma LeakOnceGone(s: Engine)
    requires Between(s) && s.loop.phase.PlayerGone?
    ensures Can(Leaked, s)
  {
    forall t | Between(t) && t.loop.phase == PlayerGone && t.section.Creating?
      ensures Can(Leaked, t)
    {
      LeakFromCreating(t);
    }
    CanOnceCreating(Leaked, s, PlayerGone);
  }

  /** Destroy first finishes with the old player. */
  lemma {:induction false} LeakFromPending(s: Engine)
    requires Between(s) && (s.loop.phase.Destroying? || s.loop.phase.PlayerGone?)
    ensures Can(Leaked, s)
    decreases match s.loop.phase
              case Destroying(stage) => (match stage case Test => 3 case Call => 2 case Clear => 1)
              case _ => 0
  {
    if s.loop.phase.PlayerGone? {
      LeakOnceGone(s);
    } else {
      StepKeeps(s, DestroyStep);
      LeakFromPending(Step(s, DestroyStep));
      CanAfter(Leaked, s, DestroyStep);
    }
  }

  /** Destroy has found a handle, and the message thread destroys that player too. */
  lemma TwiceFromFailing(s: Engine)
    requires s.loop.phase == Destroying(Test) && s.section.Failing? && s.play.player.Some?
    ensures Can(DestroyedWrongly, s)
  {
    var h := s.play.player;
    var s1 := Step(s, DestroyStep);
    var s2 := Step(s1, LockedStep(true));
    var s3 := Step(s2, DestroyStep);
    assert s3.play.stock.destroyed == s.play.stock.destroyed + [h] + [h];
    assert multiset(s3.play.stock.destroyed)[Some(h.value)] >= 2;
    CanNow(DestroyedWrongly, s3);
    CanAfter(DestroyedWrongly, s2, DestroyStep);
    CanAfter(DestroyedWrongly, s1, LockedStep(true));
    CanAfter(DestroyedWrongly, s, DestroyStep);
  }

  lemma TwiceFromChecking(s: Engine)
    requires s.loop.phase == Destroying(Test) && s.section.Checking? && s.play.player.Some?
    ensures Can(DestroyedWrongly, s)
  {
    TwiceFromFailing(Step(s, LockedStep(false)));
    CanAfter(DestroyedWrongly, s, LockedStep(false));
  }

  /** The message thread has destroyed the player and destroy still sees the handle. */
  lemma TwiceFromClearing(s: Engine)
    requires s.loop.phase == Destroying(Test) && s.section.Clearing? && s.play.player.Some?
    requires s.play.player in s.play.stock.destroyed
    ensures Can(DestroyedWrongly, s)
  {
    var h := s.play.player;
    var s1 := Step(s, DestroyStep);
    var s2 := Step(s1, DestroyStep);
    assert s2.play.stock.destroyed == s.play.stock.destroyed + [h];
    assert h in multiset(s.play.stock.destroyed);
    assert multiset(s2.play.stock.destroyed)[Some(h.value)] >= 2;
    CanNow(DestroyedWrongly, s2);
    CanAfter(DestroyedWrongly, s1, DestroyStep);
    CanAfter(DestroyedWrongly, s, DestroyStep);
  }

  lemma TwiceFromCreating(s: Engine)
    requires s.loop.phase == Destroying(Test) && s.section.Creating?
    ensures Can(DestroyedWrongly, s)
  {
    TwiceFromChecking(Step(s, LockedStep(true)));
    CanAfter(DestroyedWrongly, s, LockedStep(true));
  }

  /** Destroy, just entered, waits while the message thread comes to creating. */
  lemma TwiceFromPending(s: Engine)
    requires Between(s) && s.loop.phase == Destroying(Test)
    ensures Can(DestroyedWrongly, s)
  {
    forall t | Between(t) && t.loop.phase == Destroying(Test) && t.section.Creating?
      ensures Can(DestroyedWrongly, t)
    {
      TwiceFromCreating(t);
    }
    CanOnceCreating(DestroyedWrongly, s, Destroying(Test));
  }

  // ---------------------------------------------------------------- schedules that stay right

  /** Nothing will be created any more, and the last player, if alive, is the one destroy still has to destroy. */
  ghost predicate Settling(s: Engine) {
    && Inv(s) && !s.loop.phase.Open? && !Pending(s) && !AdvertMayEnd(s)
    && (s.play.stock.live != {} ==>
          && s.play.player.Some? && s.play.stock.live == {s.play.player.value} && !s.section.Clearing?
          && (s.loop.phase == Destroying(Test) || s.loop.phase == Destroying(Call)))
  }

  lemma QueueSplit(l: Loop)
    ensures l.queue != [] ==> l.queue == [l.queue[0]] + l.queue[1..]
  {
  }

  /** No step makes a request or a player out of nothing. */
  lemma SettlingQuiet(s: Engine, e: Event)
    requires Settling(s)
    ensures !Pending(Step(s, e)) && !AdvertMayEnd(Step(s, e)) && !Step(s, e).loop.phase.Open?
  {
    QueueSplit(s.loop);
  }

  lemma SettlingLive(s: Engine, e: Event)
    requires Settling(s)
    ensures var t := Step(s, e);
            t.play.stock.live != {} ==>
              && t.play.player.Some? && t.play.stock.live == {t.play.player.value} && !t.section.Clearing?
              && (t.loop.phase == Destroying(Test) || t.loop.phase == Destroying(Call))
  {
  }

  lemma SettlingStep(s: Engine, e: Event)
    requires Settling(s)
    ensures Settling(Step(s, e))
  {
    StepKeeps(s, e);
    SettlingQuiet(s, e);
    SettlingLive(s, e);
  }

  lemma {:induction false} SettlingNeverLeaks(s: Engine, es: seq<Event>)
    requires Settling(s)
    ensures !Leaked(Run(s, es))
    decreases |es|
  {
    if es != [] {
      SettlingStep(s, es[0]);
      SettlingNeverLeaks(Step(s, es[0]), es[1..]);
    }
  }

  /** In addition only destroy will still destroy a player, once. */
  ghost predicate Settled(s: Engine) {
    && Settling(s) && OnceEach(s.play.stock) && !Unsettled(s.section)
    && (s.loop.phase == Destroying(Test) && s.play.player.Some? ==> s.play.player.value in s.play.stock.live)
    && (s.loop.phase == Destroying(Call) ==> s.play.player.Some? && s.play.player.value in s.play.stock.live)
  }

  lemma SettledOnce(s: Engine, e: Event)
    requires Settled(s)
    ensures OnceEach(Step(s, e).play.stock)
  {
    if e.DestroyStep? && s.loop.phase == Destroying(Call) {
      KillOnce(s.play.stock, s.play.player.value);
    }
  }

  lemma SettledStep(s: Engine, e: Event)
    requires Settled(s)
    ensures Settled(Step(s, e))
  {
    SettlingStep(s, e);
    SettledOnce(s, e);
  }

  lemma {:induction false} SettledNeverWrong(s: Engine, es: seq<Event>)
    requires Settled(s)
    ensures !DestroyedWrongly(Run(s, es))
    decreases |es|
  {
    if es != [] {
      SettledStep(s, es[0]);
      SettledNeverWrong(Step(s, es[0]), es[1..]);
    }
  }

  // ---------------------------------------------------------------- the exact conditions

  /** The advert of a live player ends right after destroy was entered. */
  lemma AdvertEnds(s: Engine)
    requires Inv(s) && s.loop.phase == Destroying(Test) && AdvertMayEnd(s)
    ensures var t := Step(s, PlayerCallback(Complete)); Between(t) && t.loop.phase == Destroying(Test)
  {
    StepKeeps(s, PlayerCallback(Complete));
    assert Step(s, PlayerCallback(Complete)).loop.queue == s.loop.queue + [CtlSetUrl];
  }

  lemma MayLeakCan(s: Engine)
    requires Inv(s) && s.loop.phase == Destroying(Test) && MayLeak(s)
    ensures Can(Leaked, s)
  {
    if Pending(s) {
      LeakFromPending(s);
    } else {
      AdvertEnds(s);
      LeakFromPending(Step(s, PlayerCallback(Complete)));
      CanAfter(Leaked, s, PlayerCallback(Complete));
    }
  }

  lemma MayDestroyWronglyCan(s: Engine)
    requires Inv(s) && s.loop.phase == Destroying(Test) && MayDestroyWrongly(s)
    requires Unsettled(s.section) ==> OnePlayer(s.play, s.section)
    ensures Can(DestroyedWrongly, s)
  {
    if Pending(s) {
      TwiceFromPending(s);
    } else if AdvertMayEnd(s) {
      AdvertEnds(s);
      TwiceFromPending(Step(s, PlayerCallback(Complete)));
      CanAfter(DestroyedWrongly, s, PlayerCallback(Complete));
    } else if s.section.Checking? {
      TwiceFromChecking(s);
    } else if s.section.Failing? {
      TwiceFromFailing(s);
    } else {
      assert multiset(s.play.stock.destroyed)[Some(s.play.player.value)] == 1;
      TwiceFromClearing(s);
    }
  }

  /** Some schedule of destroy leaves a player that nobody ever destroys, exactly when at the moment it is entered a
      set-url request is pending or a live player's advert can still end. */
  lemma DestroyLeaksIff(s: Engine)
    requires Inv(s) && Enabled(s, DestroyEnter)
    ensures Can(Leaked, Step(s, DestroyEnter)) <==> MayLeak(s)
  {
    var t := Step(s, DestroyEnter);
    StepKeeps(s, DestroyEnter);
    if MayLeak(s) {
      MayLeakCan(t);
    } else {
      forall es ensures !Leaked(Run(t, es)) {
        SettlingNeverLeaks(t, es);
      }
    }
  }

  /** Some schedule of destroy destroys a player twice, or NULL, exactly in those cases and when the message thread
      is between creating a player and knowing that it is good. */
  lemma DestroyWrongIff(s: Engine)
    requires Inv(s) && Enabled(s, DestroyEnter)
    ensures Can(DestroyedWrongly, Step(s, DestroyEnter)) <==> MayDestroyWrongly(s)
  {
    var t := Step(s, DestroyEnter);
    StepKeeps(s, DestroyEnter);
    if MayDestroyWrongly(s) {
      MayDestroyWronglyCan(t);
    } else {
      forall es ensures !DestroyedWrongly(Run(t, es)) {
        SettledNeverWrong(t, es);
      }
    }
  }

  // ---------------------------------------------------------------- failing runs

  /** A whole set-url that works and finds no player. */
  function SetUrl(url: string, title: string): seq<Event> {
    [ApiSetUrl(Some(url), title)]
    + ([LockedStep(true)] + ([LockedStep(true)] + ([LockedStep(true)] + [LockedStep(true)])))
  }

  lemma SetUrlState(s: Engine, url: string, title: string)
    requires |url| < URL_STR_LEN && s.loop.phase.Open? && s.section.Unlocked? && s.play.player.None?
    ensures var t := Run(s, SetUrl(url, title));
            && t.loop == s.loop && t.section.Unlocked?
            && t.play.player == Some(s.play.stock.created) && s.play.stock.created in t.play.stock.live
            && t.prog.uri == url && t.prog.adUrl == s.prog.adUrl && t.prog.adPlayed == s.prog.adPlayed
            && t.prog.sources == s.prog.sources + [if AdvertPending(s.prog) then Advert(s.prog.adUrl) else User(url)]
  {
    var call := Asked(Some(url), title);
    var s1 := Step(s, ApiSetUrl(Some(url), title));
    var s2 := Step(s1, LockedStep(true));
    assert s2.section == Creating(call) && s2.prog == s.prog && s2.loop == s.loop;
    var s3 := Step(s2, LockedStep(true));
    var s4 := Step(s3, LockedStep(true));
    assert s4.section == Loading(call) && s4.play.player.Some? && s4.prog == s.prog && s4.loop == s.loop;
    RunCons(s, ApiSetUrl(Some(url), title),
            [LockedStep(true)] + ([LockedStep(true)] + ([LockedStep(true)] + [LockedStep(true)])));
    RunCons(s1, LockedStep(true), [LockedStep(true)] + ([LockedStep(true)] + [LockedStep(true)]));
    RunCons(s2, LockedStep(true), [LockedStep(true)] + [LockedStep(true)]);
    RunCons(s3, LockedStep(true), [LockedStep(true)]);
    RunOne(s4, LockedStep(true));
  }

  /** An advert is set, a user's URL starts it, and while it plays the page destroys the renderer. */
  function AdvertPlays(url: string, ad: string, title: string): seq<Event> {
    [ApiSetAdUrl(ad)] + SetUrl(url, title)
  }

  lemma AdvertPlaysState(url: string, ad: string, title: string)
    requires |url| < URL_STR_LEN && ad != ""
    ensures var t := Run(START, AdvertPlays(url, ad, title));
            && Inv(t) && Enabled(t, DestroyEnter) && AdvertMayEnd(t) && t.loop.queue == []
            && t.prog.uri == url && t.prog.adUrl == ad && t.prog.sources == [Advert(ad)]
            && !Pending(t) && !Unsettled(t.section)
  {
    var s1 := Step(START, ApiSetAdUrl(ad));
    RunCons(START, ApiSetAdUrl(ad), SetUrl(url, title));
    SetUrlState(s1, url, title);
    RunKeeps(START, AdvertPlays(url, ad, title));
  }

  lemma CanExtend(bad: Engine -> bool, s: Engine, es: seq<Event>)
    requires Can(bad, Run(s, es))
    ensures exists rest :: bad(Run(s, es + rest))
  {
    var rest :| bad(Run(Run(s, es), rest));
    RunAppend(s, es, rest);
    assert bad(Run(s, es + rest));
  }

  /** For every advert, URL and title, with nothing pending when destroy is entered: some continuation of that very
      run leaks a player, and some continuation destroys one twice. */
  lemma AdvertInsideDestroy(url: string, ad: string, title: string)
    requires |url| < URL_STR_LEN && ad != ""
    ensures exists rest :: Leaked(Run(START, AdvertPlays(url, ad, title) + [DestroyEnter] + rest))
    ensures exists rest :: DestroyedWrongly(Run(START, AdvertPlays(url, ad, title) + [DestroyEnter] + rest))
  {
    var es := AdvertPlays(url, ad, title);
    AdvertPlaysState(url, ad, title);
    var s := Run(START, es);
    DestroyLeaksIff(s);
    DestroyWrongIff(s);
    RunAppend(START, es, [DestroyEnter]);
    RunOne(s, DestroyEnter);
    CanExtend(Leaked, START, es + [DestroyEnter]);
    CanExtend(DestroyedWrongly, START, es + [DestroyEnter]);
  }

  /** The same when the advert ended just before. */
  lemma AdvertThenDestroyLeaks(url: string, ad: string, title: string)
    requires |url| < URL_STR_LEN && ad != ""
    ensures exists rest ::
              Leaked(Run(START, AdvertPlays(url, ad, title) + [PlayerCallback(Complete)] + [DestroyEnter] + rest))
  {
    var es := AdvertPlays(url, ad, title);
    AdvertPlaysState(url, ad, title);
    var s := Run(START, es);
    var ended := Step(s, PlayerCallback(Complete));
    RunAppend(START, es, [PlayerCallback(Complete)]);
    RunOne(s, PlayerCallback(Complete));
    StepKeeps(s, PlayerCallback(Complete));
    assert ended.loop.queue == [] + [CtlSetUrl];
    DestroyLeaksIff(ended);
    RunAppend(START, es + [PlayerCallback(Complete)], [DestroyEnter]);
    RunOne(ended, DestroyEnter);
    CanExtend(Leaked, START, es + [PlayerCallback(Complete)] + [DestroyEnter]);
  }
}
