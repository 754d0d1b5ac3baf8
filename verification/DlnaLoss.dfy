/**
 Losing a player while the DLNA renderer is destroyed: destroy writes NULL over the handle of a
 player that the message thread has made since destroy called the library. The player is then
 alive and no handle names it.
 */
module DlnaLoss {
  import opened Common
  import opened DlnaPlayer
  import opened DlnaDestroy

  /** A player is alive that the handle does not name. */
  predicate Lost(s: Engine) {
    exists i | i in s.play.stock.live :: s.play.player != Some(i)
  }

  // ---------------------------------------------------------------- the condition

  /** How many requests a queue holds. */
  function Queued(queue: seq<Msg>): nat {
    multiset(queue)[CtlSetUrl]
  }

  /** The message thread holds a request and has not come to creating. */
  predicate InHand(s: Engine) {
    s.loop.pc == Holding(CtlSetUrl) && (s.section.Unlocked? || s.section.Dropping? || s.section.Creating?)
  }

  /** How many players the message thread has been asked for and has still to make. */
  function Requests(s: Engine): nat {
    Queued(s.loop.queue) + if InHand(s) then 1 else 0
  }

  /** The end of the next player would queue a request. */
  predicate AdvertAhead(s: Engine) {
    AdvertPending(s.prog) && !s.loop.repeatFlag
  }

  /** A player will be made after destroy has seen a handle: the one held now, or that of a player made before. */
  predicate MayLose(s: Engine) {
    AdvertMayEnd(s) || (Pending(s) && (s.play.player.Some? || Requests(s) >= 2 || AdvertAhead(s)))
  }

  // ---------------------------------------------------------------- schedules that lose a player

  /** Destroy has called the library, and a player is made before it writes NULL. */
  lemma LoseFromCreating(s: Engine)
    requires Between(s) && s.loop.phase == Destroying(Clear) && s.section.Creating?
    ensures Can(Lost, s)
  {
    var s1 := Step(s, LockedStep(true));
    var s2 := Step(s1, DestroyStep);
    assert s.play.stock.created in s2.play.stock.live && s2.play.player.None?;
    CanNow(Lost, s2);
    CanAfter(Lost, s1, DestroyStep);
    CanAfter(Lost, s, LockedStep(true));
  }

  /** Destroy sees a handle, calls the library and waits. */
  lemma LoseFromSeen(s: Engine)
    requires Between(s) && s.loop.phase == Destroying(Test) && s.play.player.Some?
    ensures Can(Lost, s)
  {
    forall t | Between(t) && t.loop.phase == Destroying(Clear) && t.section.Creating?
      ensures Can(Lost, t)
    {
      LoseFromCreating(t);
    }
    var s1 := Step(s, DestroyStep);
    var s2 := Step(s1, DestroyStep);
    StepKeeps(s, DestroyStep);
    StepKeeps(s1, DestroyStep);
    CanOnceCreating(Lost, s2, Destroying(Clear));
    CanAfter(Lost, s1, DestroyStep);
    CanAfter(Lost, s, DestroyStep);
  }

  lemma QueuedPush(queue: seq<Msg>, msg: Msg)
    ensures Queued(queue + [msg]) == Queued(queue) + if msg.CtlSetUrl? then 1 else 0
  {
  }

  lemma QueuedPop(queue: seq<Msg>)
    requires queue != []
    ensures Queued(queue) == Queued(queue[1..]) + if queue[0].CtlSetUrl? then 1 else 0
  {
    assert queue == [queue[0]] + queue[1..];
  }

  lemma CountThread(s: Engine, e: Event)
    requires Ordered(s.loop, s.section) && !s.loop.phase.Open? && (e.ThreadTest? || e.ThreadPop? || e.ThreadHandle?)
    ensures Requests(Step(s, e)) == Requests(s)
  {
    if s.loop.queue != [] {
      QueuedPop(s.loop.queue);
    }
  }

  lemma CountCallback(s: Engine, notice: Notice)
    requires Enabled(s, PlayerCallback(notice))
    ensures Requests(Step(s, PlayerCallback(notice)))
         == Requests(s) + if notice.Complete? && AdvertAhead(s) then 1 else 0
  {
    forall msg
      ensures Queued(s.loop.queue + [msg]) == Queued(s.loop.queue) + if msg.CtlSetUrl? then 1 else 0
    {
      QueuedPush(s.loop.queue, msg);
    }
  }

  /** Nothing but the end of an advert adds a request, and nothing but creating meets one. */
  lemma CountStep(s: Engine, e: Event)
    requires Ordered(s.loop, s.section) && !s.loop.phase.Open? && Enabled(s, e)
    ensures Requests(Step(s, e)) == Requests(s)
            + (if e == PlayerCallback(Complete) && AdvertAhead(s) then 1 else 0)
            - (if e.LockedStep? && s.section.Creating? then 1 else 0)
  {
    match e
    case PlayerCallback(notice) => CountCallback(s, notice);
    case ThreadTest => CountThread(s, e);
    case ThreadPop => CountThread(s, e);
    case ThreadHandle(_) => CountThread(s, e);
    case _ =>
  }

  lemma PendingCounts(s: Engine)
    ensures Pending(s) <==> Requests(s) > 0
  {
  }

  /** A player is made, and another request is there or comes with its end. */
  lemma LoseAfterFirst(s: Engine)
    requires Between(s) && s.loop.phase == Destroying(Test) && s.section.Creating?
    requires Requests(s) >= 2 || AdvertAhead(s)
    ensures Can(Lost, s)
  {
    var s1 := Step(s, LockedStep(true));
    StepKeeps(s, LockedStep(true));
    assert s.play.stock.created in s1.play.stock.live;
    if CtlSetUrl in s1.loop.queue {
      LoseFromSeen(s1);
    } else {
      AdvertEnds(s1);
      LoseFromSeen(Step(s1, PlayerCallback(Complete)));
      CanAfter(Lost, s1, PlayerCallback(Complete));
    }
    CanAfter(Lost, s, LockedStep(true));
  }

  lemma {:induction false} LoseFromTwo(s: Engine)
    requires Between(s) && s.loop.phase == Destroying(Test) && (Requests(s) >= 2 || AdvertAhead(s))
    ensures Can(Lost, s)
    decreases Distance(s)
  {
    if s.section.Creating? {
      LoseAfterFirst(s);
    } else {
      NextKeeps(s);
      CountStep(s, ThreadNext(s));
      LoseFromTwo(Step(s, ThreadNext(s)));
      CanAfter(Lost, s, ThreadNext(s));
    }
  }

  lemma MayLoseCan(s: Engine)
    requires Inv(s) && s.loop.phase == Destroying(Test) && HandleTrue(s.play, s.section) && MayLose(s)
    ensures Can(Lost, s)
  {
    if AdvertMayEnd(s) {
      AdvertEnds(s);
      LoseFromSeen(Step(s, PlayerCallback(Complete)));
      CanAfter(Lost, s, PlayerCallback(Complete));
    } else if s.play.player.Some? {
      LoseFromSeen(s);
    } else {
      LoseFromTwo(s);
    }
  }

  // ---------------------------------------------------------------- schedules that lose none

  /** One player is still to be made, and destroy has seen no handle and will see at most that player's. */
  predicate OneToCome(s: Engine) {
    && Requests(s) == 1 && !AdvertAhead(s)
    && s.play.player.None? && s.play.stock.live == {}
    && (s.section.Dropping? ==> s.section.stage.Test?)
    && (s.loop.phase.Destroying? ==> s.loop.phase.stage.Test?)
  }

  /** No player is to be made, and nobody is about to write NULL while one is alive. */
  predicate NoneToCome(s: Engine) {
    && !Lost(s)
    && (s.loop.phase == Destroying(Clear) || s.section.Clearing? ==> s.play.stock.live == {})
  }

  ghost predicate Lone(s: Engine) {
    && Inv(s) && !s.loop.phase.Open? && !AdvertMayEnd(s)
    && if Pending(s) then OneToCome(s) else NoneToCome(s)
  }

  lemma LoneThread(s: Engine, e: Event)
    requires Lone(s) && Pending(s) && Enabled(s, e)
    ensures var t := Step(s, e);
            !AdvertAhead(t) && !t.loop.phase.Open? && if Requests(t) > 0 then OneToCome(t) else NoneToCome(t)
  {
    CountStep(s, e);
  }

  lemma LoneQuiet(s: Engine, e: Event)
    requires Lone(s) && !Pending(s) && Enabled(s, e)
    ensures var t := Step(s, e); !AdvertMayEnd(t) && !t.loop.phase.Open? && Requests(t) == 0
  {
    PendingCounts(s);
    CountStep(s, e);
  }

  lemma LoneCovers(s: Engine, e: Event)
    requires Lone(s) && !Pending(s) && Enabled(s, e)
    ensures NoneToCome(Step(s, e))
  {
  }

  lemma LoneStep(s: Engine, e: Event)
    requires Lone(s)
    ensures Lone(Step(s, e))
  {
    if Enabled(s, e) {
      StepKeeps(s, e);
      PendingCounts(Step(s, e));
      if Pending(s) {
        LoneThread(s, e);
      } else {
        LoneQuiet(s, e);
        LoneCovers(s, e);
      }
    }
  }

  lemma {:induction false} LoneNeverLoses(s: Engine, es: seq<Event>)
    requires Lone(s)
    ensures !Lost(Run(s, es))
    decreases |es|
  {
    if es != [] {
      LoneStep(s, es[0]);
      LoneNeverLoses(Step(s, es[0]), es[1..]);
    }
  }

  // ---------------------------------------------------------------- the exact condition

  /** Some schedule of destroy leaves a live player that no handle names, exactly when at the moment it is entered a
      live player's advert can still end, or a request is pending and a handle is held, or a second request is or
      will be there. */
  lemma DestroyLosesIff(s: Engine)
    requires Inv(s) && Enabled(s, DestroyEnter)
    ensures Can(Lost, Step(s, DestroyEnter)) <==> MayLose(s)
  {
    var t := Step(s, DestroyEnter);
    StepKeeps(s, DestroyEnter);
    if MayLose(s) {
      MayLoseCan(t);
    } else {
      forall es ensures !Lost(Run(t, es)) {
        LoneNeverLoses(t, es);
      }
    }
  }

  /** For every advert, URL and title, destroyed while the advert plays and nothing is pending. */
  lemma AdvertLosesHandle(url: string, ad: string, title: string)
    requires |url| < URL_STR_LEN && ad != ""
    ensures exists rest :: Lost(Run(START, AdvertPlays(url, ad, title) + [DestroyEnter] + rest))
  {
    var es := AdvertPlays(url, ad, title);
    AdvertPlaysState(url, ad, title);
    DestroyLosesIff(Run(START, es));
    RunAppend(START, es, [DestroyEnter]);
    RunOne(Run(START, es), DestroyEnter);
    CanExtend(Lost, START, es + [DestroyEnter]);
  }
}
