/**
 That messages to a page do something. While a page is open every message of its queue takes
 effect, in order and once; so what the page asks for when it is created, what a handler
 asks for, and what the page posts when it is left come to be handled.
 */
module UiHandling {
  import opened Common
  import opened UiMessages

  /** The messages a queue holds for this page's processor, in order. */
  function Kinds(queue: seq<Posted>, r: Radio): seq<Kind> {
    if queue == [] then []
    else (if queue[0].Fresh? && queue[0].msg.radio == r then [queue[0].msg.kind] else []) + Kinds(queue[1..], r)
  }

  lemma {:induction false} KindsAppend(a: seq<Posted>, b: seq<Posted>, r: Radio)
    ensures Kinds(a + b, r) == Kinds(a, r) + Kinds(b, r)
  {
    if a == [] {
      assert a + b == b;
    } else {
      assert (a + b)[1..] == a[1..] + b;
      KindsAppend(a[1..], b, r);
    }
  }

  predicate Open(p: Page) {
    p.active && !p.exiting
  }

  ghost predicate NotLeft(es: seq<Event>, r: Radio) {
    forall e | e in es :: !(e.LeavePage? && e.r == r)
  }

  // ---------------------------------------------------------------- what a step adds

  /** What a step leaves of the queue, before anything is added. */
  function Kept(h: Hub, e: Event): seq<Posted> {
    if e.PumpOne? && h.queue != [] then h.queue[1..] else h.queue
  }

  function Added(h: Hub, e: Event): seq<Posted> {
    var queue := Step(h, e).queue;
    queue[Min(|Kept(h, e)|, |queue|)..]
  }

  lemma StepAdds(h: Hub, e: Event)
    requires Inv(h)
    ensures Step(h, e).queue == Kept(h, e) + Added(h, e)
  {
    StepKeeps(h, e);
    if e.PumpOne? && h.queue != [] {
      PumpPages(h, e.w);
    }
  }

  /** The messages put into the queue for this page over a run. */
  function Entered(h: Hub, es: seq<Event>, r: Radio): seq<Kind>
    decreases |es|
  {
    if es == [] then [] else Kinds(Added(h, es[0]), r) + Entered(Step(h, es[0]), es[1..], r)
  }

  // ---------------------------------------------------------------- an open page

  lemma {:induction false} NoneQueued(queue: seq<Posted>, r: Radio)
    requires Deinits(queue, r) == 0 && queue != []
    ensures !IsDeinit(queue[0], r) && Deinits(queue[1..], r) == 0
  {
  }

  lemma StaysOpen(h: Hub, e: Event, r: Radio)
    requires Inv(h) && Open(PageOf(h, r)) && !(e.LeavePage? && e.r == r)
    ensures Open(PageOf(Step(h, e), r))
  {
    if Enabled(h, e) {
      match e
      case Send(_) => SendKeeps(h, e);
      case SendForeign =>
      case PumpOne(w) =>
        if h.queue != [] {
          NoneQueued(h.queue, r);
          PumpPages(h, w);
        }
      case InitPage(_, _) =>
      case CreatePage(q, stateOn, workerBusy) =>
        PageChangeKeeps(h, q, PageOf(h, q).(active := true), Greeting(q, stateOn, workerBusy));
      case LeavePage(q, stateOn) =>
        PageChangeKeeps(h, q, PageOf(h, q).(exiting := true), Farewell(q, stateOn));
      case FinishLeaving(q) => FinishKeeps(h, q);
    }
  }

  /** One step: what was queued and what enters is what takes effect and what stays queued. */
  lemma OpenStep(h: Hub, e: Event, r: Radio)
    requires Inv(h) && Open(PageOf(h, r))
    ensures Kinds(h.queue, r) + Kinds(Added(h, e), r) == HandledAt(h, e, r) + Kinds(Step(h, e).queue, r)
  {
    StepAdds(h, e);
    KindsAppend(Kept(h, e), Added(h, e), r);
  }

  lemma Regroup(queued: seq<Kind>, added: seq<Kind>, later: seq<Kind>, at: seq<Kind>, next: seq<Kind>,
                handled: seq<Kind>, left: seq<Kind>)
    requires queued + added == at + next && next + later == handled + left
    ensures queued + (added + later) == (at + handled) + left
  {
    assert queued + (added + later) == (queued + added) + later;
    assert at + next + later == at + (next + later);
  }

  /** Over every run in which an open page is not left: what its queue held and what entered it is, in that order,
      what took effect and then what is still queued. Nothing is lost, repeated or overtaken. */
  lemma {:induction false} EverythingHandled(h: Hub, r: Radio, es: seq<Event>)
    requires Inv(h) && Open(PageOf(h, r)) && NotLeft(es, r)
    ensures Open(PageOf(Run(h, es), r))
    ensures Kinds(h.queue, r) + Entered(h, es, r) == Handled(h, es, r) + Kinds(Run(h, es).queue, r)
    decreases |es|
  {
    if es != [] {
      var e, next := es[0], Step(h, es[0]);
      assert e in es;
      StepKeeps(h, e);
      StaysOpen(h, e, r);
      OpenStep(h, e, r);
      EverythingHandled(next, r, es[1..]);
      Regroup(Kinds(h.queue, r), Kinds(Added(h, e), r), Entered(next, es[1..], r), HandledAt(h, e, r),
              Kinds(next.queue, r), Handled(next, es[1..], r), Kinds(Run(h, es).queue, r));
    }
  }

  // ---------------------------------------------------------------- its turn comes

  /** A message of this page that it will not ignore when its turn comes. */
  ghost predicate WillCount(h: Hub, r: Radio, es: seq<Event>, kind: Kind) {
    PageOf(h, r).active && (kind.StopPairProc? || (Open(PageOf(h, r)) && NotLeft(es, r)))
  }

  lemma StaysActive(h: Hub, r: Radio, e: Event)
    requires Inv(h) && PageOf(h, r).active
    requires e.PumpOne? && h.queue != [] ==> !IsDeinit(h.queue[0], r)
    ensures PageOf(Step(h, e), r).active
  {
    if e.LeavePage? && e.r == r && Enabled(h, e) {
      PageChangeKeeps(h, r, PageOf(h, r).(exiting := true), Farewell(r, e.stateOn));
    } else if e.PumpOne? && h.queue != [] {
      PumpPages(h, e.w);
    } else if Open(PageOf(h, r)) {
      StaysOpen(h, e, r);
    } else {
      StepKeeps(h, e);
    }
  }

  /** Over every run: a message that the page will not ignore has taken effect once the loop has turned once for
      each message ahead of it and once more. */
  lemma {:induction false} TurnComes(h: Hub, r: Radio, es: seq<Event>, i: nat, kind: Kind)
    requires Inv(h) && i < |h.queue| && Pumps(es) > i && Deinits(h.queue[..i], r) == 0
    requires h.queue[i].Fresh? && h.queue[i].msg.radio == r && h.queue[i].msg.kind == kind
    requires WillCount(h, r, es, kind) && !kind.UiDeinit?
    ensures kind in Handled(h, es, r)
    decreases |es|
  {
    var e, next := es[0], Step(h, es[0]);
    assert e in es;
    StepKeeps(h, e);
    StepAdds(h, e);
    if e.PumpOne? && i == 0 {
      assert kind in HandledAt(h, e, r);
    } else {
      if e.PumpOne? {
        assert h.queue[..i][0] == h.queue[0];
        NoneQueued(h.queue[..i], r);
      }
      StaysActive(h, r, e);
      if Open(PageOf(h, r)) && NotLeft(es, r) {
        StaysOpen(h, e, r);
      }
      var j := if e.PumpOne? then i - 1 else i;
      assert next.queue[..j] == if e.PumpOne? then h.queue[..i][1..] else h.queue[..i];
      TurnComes(next, r, es[1..], j, kind);
    }
  }

  // ---------------------------------------------------------------- what is posted

  function Plain(r: Radio, kinds: seq<Kind>): seq<Posted> {
    seq(|kinds|, i requires 0 <= i < |kinds| => Fresh(Msg(r, kinds[i], None, false)))
  }

  lemma {:induction false} PostAllQueue(h: Hub, r: Radio, kinds: seq<Kind>)
    requires PageOf(h, r).activity && forall kind | kind in kinds :: !IsNotice(kind)
    ensures PostAll(h, r, kinds).queue == h.queue + Plain(r, kinds)
    decreases |kinds|
  {
    if kinds != [] {
      var next := Enqueue(h, Msg(r, kinds[0], None, false));
      assert kinds[0] in kinds;
      PostAllQueue(next, r, kinds[1..]);
      assert Plain(r, kinds) == [Fresh(Msg(r, kinds[0], None, false))] + Plain(r, kinds[1..]);
      assert h.queue + Plain(r, kinds) == next.queue + Plain(r, kinds[1..]);
    }
  }

  /** What a handler of an open Wi-Fi page leaves at the end of the queue: disconnecting or forgetting a network
      starts a scan; these and connecting first hide the state of a scan under way, as does the end of a scan; and
      moving through the list renumbers it when there is a row to move from. */
  lemma HandlersPost(h: Hub, w: World)
    requires Inv(h) && Open(h.wifi) && h.queue != [] && h.queue[0].Fresh? && h.queue[0].msg.radio == Wifi
    ensures var m, t := h.queue[0].msg, Pump(h, w);
            var stop := if w.scanRun && w.scanTimer then [HideScanState] else [];
            && (m.kind in {DisconnPair, DeletedPair} ==>
                  t.queue == h.queue[1..] + Plain(Wifi, stop + [CreateScanProc]))
            && (m.kind in {AddManually, ClickedPair, ConnPair, NewConnPair, ClickedScan} ==>
                  t.queue == h.queue[1..] + Plain(Wifi, stop))
            && (m.kind == StopScanProc ==>
                  t.queue == h.queue[1..] + Plain(Wifi, if w.scanTimer then [HideScanState] else []))
            && (m.kind in {KeyUp, KeyDown, ToRightGroup} ==>
                  t.queue == h.queue[1..]
                             + Plain(Wifi, if m.data.Some? && w.renumber then [UpdateScanNum] else []))
  {
    var m := h.queue[0].msg;
    PostAllQueue(h.(queue := h.queue[1..]), Wifi, FollowUps(m, w));
  }

  /** A handler of the Bluetooth page posts nothing. */
  lemma BluetoothPostsNothing(h: Hub, w: World)
    requires h.queue != [] && h.queue[0].Fresh? && h.queue[0].msg.radio == Bluetooth
    ensures Pump(h, w).queue == h.queue[1..]
  {
  }

  /** A disconnected or forgotten network is followed by a new scan, on every run that does not leave the page. */
  lemma DisconnectRescans(h: Hub, w: World, es: seq<Event>)
    requires Inv(h) && Open(h.wifi) && NotLeft(es, Wifi)
    requires h.queue != [] && h.queue[0].Fresh? && h.queue[0].msg.radio == Wifi
    requires h.queue[0].msg.kind in {DisconnPair, DeletedPair}
    requires Pumps(es) >= |h.queue| + 1
    ensures CreateScanProc in Handled(Step(h, PumpOne(w)), es, Wifi)
  {
    var t := Step(h, PumpOne(w));
    StepKeeps(h, PumpOne(w));
    StaysOpen(h, PumpOne(w), Wifi);
    HandlersPost(h, w);
    TurnComesOpen(t, Wifi, es, |t.queue| - 1);
  }

  lemma {:induction false} DeinitsPrefix(queue: seq<Posted>, n: nat, r: Radio)
    requires n <= |queue|
    ensures Deinits(queue[..n], r) <= Deinits(queue, r)
  {
    if n > 0 {
      assert queue[..n][1..] == queue[1..][..n - 1];
      DeinitsPrefix(queue[1..], n - 1, r);
    }
  }

  lemma TurnComesOpen(h: Hub, r: Radio, es: seq<Event>, i: nat)
    requires Inv(h) && Open(PageOf(h, r)) && NotLeft(es, r) && i < |h.queue| && Pumps(es) > i
    requires h.queue[i].Fresh? && h.queue[i].msg.radio == r && !h.queue[i].msg.kind.UiDeinit?
    ensures h.queue[i].msg.kind in Handled(h, es, r)
  {
    DeinitsPrefix(h.queue, i, r);
    TurnComes(h, r, es, i, h.queue[i].msg.kind);
  }

  /** Creating a page while its radio is on starts its workers: the Wi-Fi page scans, and asks for the saved
      networks unless a worker is at it; the Bluetooth page asks for the paired devices, and scans unless it is
      reconnecting. */
  lemma CreatedPageWorks(h: Hub, r: Radio, workerBusy: bool, es: seq<Event>)
    requires Inv(h) && Enabled(h, CreatePage(r, true, workerBusy)) && NotLeft(es, r)
    requires Pumps(es) >= |h.queue| + 2
    ensures var t := Step(h, CreatePage(r, true, workerBusy));
            && Open(PageOf(t, r))
            && (CreateScanProc in Handled(t, es, r) || (r.Bluetooth? && workerBusy))
            && (CreatePairProc in Handled(t, es, r) || (r.Wifi? && workerBusy))
            && |t.queue| == |h.queue| + if workerBusy then 1 else 2
  {
    var e := CreatePage(r, true, workerBusy);
    var p := PageOf(h, r).(active := true);
    var t := Step(h, e);
    StepKeeps(h, e);
    PageChangeKeeps(h, r, p, Greeting(r, true, workerBusy));
    PostAllQueue(WithPage(h, r, p), r, Greeting(r, true, workerBusy));
    TurnComesOpen(t, r, es, |h.queue|);
    TurnComesOpen(t, r, es, |t.queue| - 1);
  }

  /** A message is queued when its page exists, or when it tells of a connection made or lost; otherwise it is dropped
      and its payload freed at once. */
  lemma SentOrDropped(h: Hub, m: Msg)
    requires !m.kind.UiDeinit?
    ensures var t := Step(h, Send(m));
            && t.wifi == h.wifi && t.bt == h.bt
            && (m.kind == Connected || m.kind == Disconnected ==> t.queue == h.queue + [Notice(m)])
            && (m.kind != Connected && m.kind != Disconnected ==>
                  t.queue == h.queue + if PageOf(h, m.radio).activity then [Fresh(m)] else [])
            && (if t.queue == h.queue && m.freeData && m.data.Some?
                then t.log.freed == h.log.freed + [m.data.value] else t.log.freed == h.log.freed)
  {
  }

  /** Other modules' messages are queued and taken out again, and do nothing here. */
  lemma ForeignPasses(h: Hub, w: World)
    ensures Step(h, SendForeign) == h.(queue := h.queue + [Foreign])
    ensures h.queue != [] && h.queue[0].Foreign? ==> Pump(h, w) == h.(queue := h.queue[1..])
  {
  }

  /** What a page is to ask for when it is created. */
  function Asked(r: Radio, stateOn: bool, workerBusy: bool): seq<Kind> {
    match (r, stateOn, workerBusy)
    case (_, false, _) => []
    case (_, true, false) => [CreatePairProc, CreateScanProc]
    case (Wifi, true, true) => [CreateScanProc]
    case (Bluetooth, true, true) => [CreatePairProc]
  }

  /** What it is to stop when it is left. */
  function Stops(r: Radio, stateOn: bool): seq<Kind> {
    match (r, stateOn)
    case (_, false) => []
    case (Wifi, true) => [StopScanProc, StopPairProc]
    case (Bluetooth, true) => [StopPairProc]
  }

  lemma PagePosts(h: Hub, r: Radio, p: Page, kinds: seq<Kind>)
    requires Inv(h) && PageInv(p, h.queue, r) && p.activity
    requires UiDeinit !in kinds && forall kind | kind in kinds :: !IsNotice(kind)
    ensures var t := PostAll(WithPage(h, r, p), r, kinds);
            && PageOf(t, r) == p && t.queue == h.queue + Plain(r, kinds)
            && forall q | q != r :: PageOf(t, q) == PageOf(h, q)
  {
    PageChangeKeeps(h, r, p, kinds);
    PostAllQueue(WithPage(h, r, p), r, kinds);
  }

  lemma {:induction false} PlainAdds(queue: seq<Posted>, r: Radio, kinds: seq<Kind>)
    requires UiDeinit !in kinds
    ensures Deinits(queue + Plain(r, kinds), r) == Deinits(queue, r)
  {
    if kinds != [] {
      var front := kinds[..|kinds| - 1];
      var last := Fresh(Msg(r, kinds[|kinds| - 1], None, false));
      PlainAdds(queue, r, front);
      DeinitsSnoc(queue + Plain(r, front), last, r);
      assert queue + Plain(r, kinds) == queue + Plain(r, front) + [last];
    } else {
      assert queue + Plain(r, kinds) == queue;
    }
  }

  /** A page is initialised only when boot is ready, and only once. */
  lemma PageInits(h: Hub, r: Radio)
    requires PageOf(h, r) == NO_PAGE
    ensures Step(h, InitPage(r, false)) == h
    ensures var up := Step(h, InitPage(r, true));
            up == WithPage(h, r, Page(true, false, false)) && Step(up, InitPage(r, true)) == up
  {
  }

  /** Created, it is open and has posted what it asks for. */
  lemma PageCreates(h: Hub, r: Radio, stateOn: bool, workerBusy: bool)
    requires Inv(h) && PageOf(h, r) == Page(true, false, false)
    ensures var t := Step(h, CreatePage(r, stateOn, workerBusy));
            && Inv(t) && PageOf(t, r) == Page(true, true, false)
            && t.queue == h.queue + Plain(r, Asked(r, stateOn, workerBusy))
            && forall q | q != r :: PageOf(t, q) == PageOf(h, q)
  {
    StepKeeps(h, CreatePage(r, stateOn, workerBusy));
    PagePosts(h, r, Page(true, true, false), Greeting(r, stateOn, workerBusy));
  }

  /** Left, it is exiting and has posted its stops. */
  lemma PageLeaves(h: Hub, r: Radio, stateOn: bool)
    requires Inv(h) && PageOf(h, r) == Page(true, true, false)
    ensures var t := Step(h, LeavePage(r, stateOn));
            && Inv(t) && PageOf(t, r) == Page(true, true, true) && Deinits(t.queue, r) == 0
            && t.queue == h.queue + Plain(r, Stops(r, stateOn))
            && forall q | q != r :: PageOf(t, q) == PageOf(h, q)
  {
    StepKeeps(h, LeavePage(r, stateOn));
    PagePosts(h, r, Page(true, true, true), Farewell(r, stateOn));
    PlainAdds(h.queue, r, Stops(r, stateOn));
  }

  /** And then posts its `UiDeinit`. */
  lemma PageFinishes(h: Hub, r: Radio)
    requires Inv(h) && PageOf(h, r) == Page(true, true, true) && Deinits(h.queue, r) == 0
    ensures var t := Step(h, FinishLeaving(r));
            t.queue == h.queue + Plain(r, [UiDeinit]) && t.wifi == h.wifi && t.bt == h.bt
  {
  }

  /** Leaving it stops the worker that looks after the saved or paired devices. */
  lemma LeftPageStops(h: Hub, r: Radio, es: seq<Event>)
    requires Inv(h) && Enabled(h, LeavePage(r, true)) && Pumps(es) >= |h.queue| + 2
    ensures StopPairProc in Handled(Step(h, LeavePage(r, true)), es, r)
  {
    var t := Step(h, LeavePage(r, true));
    var p := PageOf(h, r).(exiting := true);
    StepKeeps(h, LeavePage(r, true));
    PageChangeKeeps(h, r, p, Farewell(r, true));
    PostAllKeeps(WithPage(h, r, p), r, Farewell(r, true));
    PostAllQueue(WithPage(h, r, p), r, Farewell(r, true));
    DeinitsPrefix(t.queue, |t.queue| - 1, r);
    TurnComes(t, r, es, |t.queue| - 1, StopPairProc);
  }
}
