/** The DLNA renderer's "advert first, then the user's URL" rule over whole runs. */
module DlnaAdvert {
  import opened Common
  import opened DlnaCalls
  import opened DlnaPlayer

  /** After the advert: at most one source per step, never the advert, always the latest user URL. */
  lemma SourceAfterAdvert(s: Engine, e: Event)
    requires Inv(s) && s.prog.adPlayed
    ensures var g, h := s.prog, Step(s, e).prog;
            && h.adPlayed
            && (h.sources == g.sources
                || (h.lastUrl.Some? && h.sources == g.sources + [User(h.lastUrl.value)]))
  {
  }

  /** Before it: every source is the advert. */
  lemma SourceBeforeAdvert(s: Engine, e: Event)
    requires AdvertPending(s.prog)
    ensures var g, h := s.prog, Step(s, e).prog;
            h.sources == g.sources || h.sources == g.sources + [Advert(g.adUrl)]
  {
  }

  /** Once an advert has completed, no later source of any run is the advert. */
  lemma {:induction false} NoAdvertAgain(s: Engine, es: seq<Event>)
    requires Inv(s) && s.prog.adPlayed
    ensures var g, h := s.prog, Run(s, es).prog;
            && h.adPlayed
            && g.sources <= h.sources
            && forall i | |g.sources| <= i < |h.sources| :: h.sources[i].User?
    decreases |es|
  {
    if es != [] {
      StepKeeps(s, es[0]);
      SourceAfterAdvert(s, es[0]);
      NoAdvertAgain(Step(s, es[0]), es[1..]);
    }
  }

  /** After the advert, the source any step of a run sets is the URL last asked for at that moment. */
  lemma LaterSourcesLatest(s: Engine, es: seq<Event>, k: nat)
    requires Inv(s) && s.prog.adPlayed && k < |es|
    ensures var g, h := Run(s, es[..k]).prog, Run(s, es[..k + 1]).prog;
            h.sources == g.sources || (h.lastUrl.Some? && h.sources == g.sources + [User(h.lastUrl.value)])
  {
    RunKeeps(s, es[..k]);
    NoAdvertAgain(s, es[..k]);
    SourceAfterAdvert(Run(s, es[..k]), es[k]);
    assert es[..k + 1] == es[..k] + [es[k]];
    RunAppend(s, es[..k], [es[k]]);
    RunOne(Run(s, es[..k]), es[k]);
  }

  /** The message thread's set-url from its beginning to its end, with a library that works. */
  function Rebuild(s: Engine, startOk: bool): Engine {
    Locked(Step(s, ThreadHandle(startOk)), DropAnswers(s.play.player.Some?) + MakeAnswers(Env(true, true)))
  }

  lemma RebuildSource(s: Engine, startOk: bool)
    requires Inv(s) && s.prog.adPlayed && s.loop.pc == Holding(CtlSetUrl) && s.section.Unlocked?
    ensures s.prog.lastUrl.Some?
    ensures Rebuild(s, startOk).prog.sources == s.prog.sources + [User(s.prog.lastUrl.value)]
  {
    HandledIsSteps(s, CtlSetUrl, Env(true, true), startOk);
  }

  /** The end of the advert queues a request; handling it, however much later, starts the most recent user
      URL, even one that arrived while the advert was playing or the request was waiting. */
  lemma AdvertHandsOver(es: seq<Event>, between: seq<Event>, startOk: bool)
    requires var s := Run(START, es);
             AdvertPending(s.prog) && s.play.stock.live != {} && !s.loop.repeatFlag && s.loop.phase.Open?
    ensures var ended := Step(Run(START, es), PlayerCallback(Complete));
            var later := Run(ended, between);
            && Wanted(ended.loop)
            && (later.loop.pc == Holding(CtlSetUrl) && later.section.Unlocked? ==>
                  && later.prog.lastUrl.Some?
                  && Rebuild(later, startOk).prog.sources
                     == later.prog.sources + [User(later.prog.lastUrl.value)])
  {
    var s := Run(START, es);
    RunKeeps(START, es);
    var ended := Step(s, PlayerCallback(Complete));
    assert ended.loop.queue[|ended.loop.queue| - 1] == CtlSetUrl;
    StepKeeps(s, PlayerCallback(Complete));
    RunKeeps(ended, between);
    NoAdvertAgain(ended, between);
    var later := Run(ended, between);
    if later.loop.pc == Holding(CtlSetUrl) && later.section.Unlocked? {
      RebuildSource(later, startOk);
    }
  }

  /** Time reads agree with each other: a duration once read is kept, a position is the last one the player gave. */
  lemma ReadsAgree(p: Playback, g: Programme, first: int, second: int)
    requires !AdvertPending(g)
    ensures var (q, d) := GetDuration(p, g, first);
            d != 0 ==> GetDuration(q, g, second) == (q, d)
    ensures var (q, t) := GetPosition(p, g, first);
            GetPosition(q.(player := None), g, second).1 == t
    ensures p.player.Some? ==> GetPosition(GetPosition(p, g, first).0, g, second).1 == second
  {
  }
}
