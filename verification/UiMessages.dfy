/**
 The message protocol of the Wi-Fi and Bluetooth pages. Any thread may enqueue a message,
 possibly with a payload the message owns; one FIFO carries them all; the UI loop pops one
 at a time and shows it to both pages' processors. A page that is exiting ignores almost
 everything, and a handler may enqueue follow-ups.
 */
module UiMessages {
  import opened Common

  datatype Radio = Wifi | Bluetooth

  /** Message types the protocol tells apart; `Display` stands for all that only touch widgets. */
  datatype Kind =
    | Display
    | KeyUp | KeyDown | ToRightGroup
    | AddManually | ClickedPair | ConnPair | NewConnPair | ClickedScan
    | DisconnPair | DeletedPair
    | CreatePairProc | CreateScanProc
    | HideScanState | UpdateScanNum
    | StopScanProc | StopPairProc | UiDeinit
    | Connected | Disconnected

  datatype Msg = Msg(radio: Radio, kind: Kind, data: Option<nat>, freeData: bool)

  /** An entry of the system queue: a page message, a connection notice, or another module's business. */
  datatype Posted = Fresh(msg: Msg) | Notice(msg: Msg) | Foreign

  /** `activity` is whether the page's root object exists. */
  datatype Page = Page(activity: bool, active: bool, exiting: bool)

  const NO_PAGE := Page(false, false, false)

  /** `offered` and `freed` record every owned payload handed to enqueue and every payload freed. */
  datatype Log = Log(offered: seq<nat>, freed: seq<nat>)

  datatype Hub = Hub(queue: seq<Posted>, wifi: Page, bt: Page, log: Log)

  const BOOT := Hub([], NO_PAGE, NO_PAGE, Log([], []))

  /** What the workers' shared variables read when a handler looks at them. */
  datatype World = World(scanRun: bool, scanTimer: bool, renumber: bool)

  function PageOf(h: Hub, r: Radio): Page {
    match r case Wifi => h.wifi case Bluetooth => h.bt
  }

  function WithPage(h: Hub, r: Radio, p: Page): Hub {
    match r case Wifi => h.(wifi := p) case Bluetooth => h.(bt := p)
  }

  // ---------------------------------------------------------------- operations

  predicate IsNotice(kind: Kind) {
    kind.Connected? || kind.Disconnected?
  }

  /** The payload a message must free, if any. */
  function Owned(m: Msg): seq<nat> {
    if m.freeData && m.data.Some? then [m.data.value] else []
  }

  function OwnedBy(p: Posted): seq<nat> {
    if p.Foreign? then [] else Owned(p.msg)
  }

  function Free(h: Hub, m: Msg): Hub {
    h.(log := h.log.(freed := h.log.freed + Owned(m)))
  }

  /** Without a page, all but connection notices are dropped and their payload freed. */
  function Enqueue(h: Hub, m: Msg): Hub {
    var seen := h.(log := h.log.(offered := h.log.offered + Owned(m)));
    if !PageOf(h, m.radio).activity && !IsNotice(m.kind) then Free(seen, m)
    else seen.(queue := h.queue + [if IsNotice(m.kind) then Notice(m) else Fresh(m)])
  }

  function PostAll(h: Hub, r: Radio, kinds: seq<Kind>): Hub
    decreases |kinds|
  {
    if kinds == [] then h else PostAll(Enqueue(h, Msg(r, kinds[0], None, false)), r, kinds[1..])
  }

  function StopScan(w: World): seq<Kind> {
    if w.scanTimer then [HideScanState] else []
  }

  function StopScanIfRunning(w: World): seq<Kind> {
    if w.scanRun then StopScan(w) else []
  }

  /** What a handler enqueues; the Bluetooth handlers enqueue nothing. */
  function FollowUps(m: Msg, w: World): seq<Kind> {
    if m.radio.Bluetooth? then []
    else match m.kind
      case KeyUp => if m.data.Some? && w.renumber then [UpdateScanNum] else []
      case KeyDown => if m.data.Some? && w.renumber then [UpdateScanNum] else []
      case ToRightGroup => if m.data.Some? && w.renumber then [UpdateScanNum] else []
      case AddManually => StopScanIfRunning(w)
      case ClickedPair => StopScanIfRunning(w)
      case ConnPair => StopScanIfRunning(w)
      case NewConnPair => StopScanIfRunning(w)
      case ClickedScan => StopScanIfRunning(w)
      case DisconnPair => StopScanIfRunning(w) + [CreateScanProc]
      case DeletedPair => StopScanIfRunning(w) + [CreateScanProc]
      case StopScanProc => StopScan(w)
      case _ => []
  }

  predicate TakesEffect(p: Page, kind: Kind) {
    p.active && (p.exiting ==> kind.StopPairProc? || kind.UiDeinit?)
  }

  function Handle(h: Hub, m: Msg, w: World): Hub {
    if m.kind.UiDeinit? then WithPage(h, m.radio, NO_PAGE) else PostAll(h, m.radio, FollowUps(m, w))
  }

  /** One page's processor looks at a message just popped. */
  function Process(h: Hub, r: Radio, p: Posted, w: World): Hub {
    match p
    case Foreign => h
    case Notice(m) => if m.radio == r then Free(h, m) else h
    case Fresh(m) =>
      if m.radio != r then h
      else if !TakesEffect(PageOf(h, r), m.kind) then Free(h, m)
      else Free(Handle(h, m, w), m)
  }

  function Pump(h: Hub, w: World): Hub {
    if h.queue == [] then h
    else Process(Process(h.(queue := h.queue[1..]), Wifi, h.queue[0], w), Bluetooth, h.queue[0], w)
  }

  // ---------------------------------------------------------------- events and runs

  datatype Event =
    | Send(m: Msg)
    | SendForeign
    | PumpOne(w: World)
    | InitPage(r: Radio, ready: bool)
    | CreatePage(r: Radio, stateOn: bool, workerBusy: bool)
    | LeavePage(r: Radio, stateOn: bool)
    | FinishLeaving(r: Radio)

  predicate MayInit(p: Page, ready: bool) {
    !p.activity && !p.active && !p.exiting && ready
  }

  /** What destroying a page posts first; it then waits for the control worker before it posts `UiDeinit`. */
  function Farewell(r: Radio, stateOn: bool): seq<Kind> {
    if !stateOn then [] else if r.Wifi? then [StopScanProc, StopPairProc] else [StopPairProc]
  }

  /** What a page asks for when it is created. `workerBusy` is the test each page makes: for Wi-Fi whether the
      pairing worker runs, for Bluetooth whether a reconnection does. */
  function Greeting(r: Radio, stateOn: bool, workerBusy: bool): seq<Kind> {
    if !stateOn then []
    else if r.Wifi? then (if workerBusy then [] else [CreatePairProc]) + [CreateScanProc]
    else [CreatePairProc] + if workerBusy then [] else [CreateScanProc]
  }

  /** Only destroying a page posts `UiDeinit`; the page manager creates what was initialised and destroys what
      was created. */
  predicate Enabled(h: Hub, e: Event) {
    match e
    case Send(m) => !m.kind.UiDeinit?
    case SendForeign => true
    case PumpOne(_) => true
    case InitPage(r, ready) => MayInit(PageOf(h, r), ready)
    case CreatePage(r, _, _) => PageOf(h, r).activity && !PageOf(h, r).active
    case LeavePage(r, _) => PageOf(h, r).active && !PageOf(h, r).exiting
    case FinishLeaving(r) => PageOf(h, r).exiting && Deinits(h.queue, r) == 0
  }

  function Step(h: Hub, e: Event): Hub {
    if !Enabled(h, e) then h
    else match e
      case Send(m) => Enqueue(h, m)
      case SendForeign => h.(queue := h.queue + [Foreign])
      case PumpOne(w) => Pump(h, w)
      case InitPage(r, _) => WithPage(h, r, PageOf(h, r).(activity := true))
      case CreatePage(r, stateOn, workerBusy) =>
        PostAll(WithPage(h, r, PageOf(h, r).(active := true)), r, Greeting(r, stateOn, workerBusy))
      case LeavePage(r, stateOn) =>
        PostAll(WithPage(h, r, PageOf(h, r).(exiting := true)), r, Farewell(r, stateOn))
      case FinishLeaving(r) => Enqueue(h, Goodbye(r))
  }

  function Goodbye(r: Radio): Msg {
    Msg(r, UiDeinit, None, false)
  }

  function Run(h: Hub, es: seq<Event>): Hub
    decreases |es|
  {
    if es == [] then h else Run(Step(h, es[0]), es[1..])
  }

  // ---------------------------------------------------------------- payloads

  /** The payloads still owned by queued messages. */
  function Pending(queue: seq<Posted>): seq<nat> {
    if queue == [] then [] else OwnedBy(queue[0]) + Pending(queue[1..])
  }

  lemma Associate(a: seq<nat>, b: seq<nat>, c: seq<nat>)
    ensures a + (b + c) == a + b + c
  {
  }

  lemma {:induction false} PendingSnoc(queue: seq<Posted>, p: Posted)
    ensures Pending(queue + [p]) == Pending(queue) + OwnedBy(p)
  {
    if queue == [] {
      assert [p][1..] == [];
    } else {
      PendingSnoc(queue[1..], p);
      assert (queue + [p])[1..] == queue[1..] + [p];
      Associate(OwnedBy(queue[0]), Pending(queue[1..]), OwnedBy(p));
    }
  }

  /** Every payload offered was freed, is queued, or is held in the hand that just popped it. */
  ghost predicate Balanced(h: Hub, held: seq<nat>) {
    multiset(h.log.offered) == multiset(h.log.freed) + multiset(Pending(h.queue)) + multiset(held)
  }

  lemma EnqueueBalances(h: Hub, m: Msg, held: seq<nat>)
    requires Balanced(h, held)
    ensures Balanced(Enqueue(h, m), held)
  {
    var p := if IsNotice(m.kind) then Notice(m) else Fresh(m);
    PendingSnoc(h.queue, p);
    AppendCounts(h.log.offered, Owned(m));
    AppendCounts(h.log.freed, Owned(m));
    AppendCounts(Pending(h.queue), Owned(m));
  }

  lemma AppendCounts(a: seq<nat>, b: seq<nat>)
    ensures multiset(a + b) == multiset(a) + multiset(b)
  {
  }

  lemma {:induction false} PostAllBalances(h: Hub, r: Radio, kinds: seq<Kind>, held: seq<nat>)
    requires Balanced(h, held)
    ensures Balanced(PostAll(h, r, kinds), held)
    decreases |kinds|
  {
    if kinds != [] {
      var m := Msg(r, kinds[0], None, false);
      EnqueueBalances(h, m, held);
      PostAllBalances(Enqueue(h, m), r, kinds[1..], held);
    }
  }

  /** The right page's processor frees what was held; the other one does nothing. */
  lemma ProcessBalances(h: Hub, r: Radio, p: Posted, w: World)
    requires Balanced(h, OwnedBy(p))
    ensures p.Foreign? || p.msg.radio != r ==> Process(h, r, p, w) == h
    ensures !p.Foreign? && p.msg.radio == r ==> Balanced(Process(h, r, p, w), [])
  {
    if p.Fresh? && p.msg.radio == r && TakesEffect(PageOf(h, r), p.msg.kind) && !p.msg.kind.UiDeinit? {
      PostAllBalances(h, p.msg.radio, FollowUps(p.msg, w), Owned(p.msg));
    }
  }

  lemma PopBalances(h: Hub)
    requires Balanced(h, []) && h.queue != []
    ensures Balanced(h.(queue := h.queue[1..]), OwnedBy(h.queue[0]))
  {
    assert Pending(h.queue) == OwnedBy(h.queue[0]) + Pending(h.queue[1..]);
    assert multiset(Pending(h.queue)) == multiset(OwnedBy(h.queue[0])) + multiset(Pending(h.queue[1..]));
  }

  lemma PumpBalances(h: Hub, w: World)
    requires Balanced(h, []) && h.queue != []
    ensures Balanced(Pump(h, w), [])
  {
    PopBalances(h);
    var popped, p := h.(queue := h.queue[1..]), h.queue[0];
    ProcessBalances(popped, Wifi, p, w);
    if p.Foreign? || p.msg.radio == Bluetooth {
      ProcessBalances(popped, Bluetooth, p, w);
    }
  }

  lemma SendBalances(h: Hub, e: Event)
    requires Balanced(h, []) && Enabled(h, e) && (e.Send? || e.SendForeign?)
    ensures Balanced(Step(h, e), [])
  {
    if e.Send? {
      EnqueueBalances(h, e.m, []);
    } else {
      PendingSnoc(h.queue, Foreign);
    }
  }

  lemma StepBalances(h: Hub, e: Event)
    requires Balanced(h, [])
    ensures Balanced(Step(h, e), [])
  {
    if Enabled(h, e) {
      match e
      case Send(_) => SendBalances(h, e);
      case SendForeign => SendBalances(h, e);
      case PumpOne(w) =>
        if h.queue != [] {
          PumpBalances(h, w);
        }
      case InitPage(_, _) =>
      case CreatePage(r, stateOn, workerBusy) =>
        PostAllBalances(WithPage(h, r, PageOf(h, r).(active := true)), r, Greeting(r, stateOn, workerBusy), []);
      case LeavePage(r, stateOn) =>
        PostAllBalances(WithPage(h, r, PageOf(h, r).(exiting := true)), r, Farewell(r, stateOn), []);
      case FinishLeaving(r) => EnqueueBalances(h, Goodbye(r), []);
    }
  }

  lemma {:induction false} RunBalances(h: Hub, es: seq<Event>)
    requires Balanced(h, [])
    ensures Balanced(Run(h, es), [])
    decreases |es|
  {
    if es != [] {
      StepBalances(h, es[0]);
      RunBalances(Step(h, es[0]), es[1..]);
    }
  }

  /** The payload given away with a message that is to free it. */
  function GivenBy(e: Event): seq<nat> {
    if e.Send? && !e.m.kind.UiDeinit? && e.m.freeData && e.m.data.Some? then [e.m.data.value] else []
  }

  function Given(es: seq<Event>): seq<nat> {
    if es == [] then [] else GivenBy(es[0]) + Given(es[1..])
  }

  predicate Carries(p: Posted, payload: nat) {
    !p.Foreign? && p.msg.freeData && p.msg.data == Some(payload)
  }

  predicate InQueue(queue: seq<Posted>, payload: nat) {
    exists i :: 0 <= i < |queue| && Carries(queue[i], payload)
  }

  lemma {:induction false} PendingIff(queue: seq<Posted>, payload: nat)
    ensures payload in Pending(queue) <==> InQueue(queue, payload)
  {
    if queue != [] {
      PendingIff(queue[1..], payload);
      if InQueue(queue[1..], payload) {
        var i :| 0 <= i < |queue[1..]| && Carries(queue[1..][i], payload);
        assert Carries(queue[i + 1], payload);
      }
      if InQueue(queue, payload) && !Carries(queue[0], payload) {
        var i :| 0 <= i < |queue| && Carries(queue[i], payload);
        assert Carries(queue[1..][i - 1], payload);
      }
    }
  }

  /** Messages the pages post themselves own nothing. */
  lemma {:induction false} PostAllOffers(h: Hub, r: Radio, kinds: seq<Kind>)
    ensures PostAll(h, r, kinds).log.offered == h.log.offered
    decreases |kinds|
  {
    if kinds != [] {
      PostAllOffers(Enqueue(h, Msg(r, kinds[0], None, false)), r, kinds[1..]);
    }
  }

  lemma StepOffers(h: Hub, e: Event)
    ensures Step(h, e).log.offered == h.log.offered + GivenBy(e)
  {
    match e
    case PumpOne(w) =>
      if h.queue != [] && h.queue[0].Fresh? {
        PostAllOffers(h.(queue := h.queue[1..]), h.queue[0].msg.radio, FollowUps(h.queue[0].msg, w));
      }
    case CreatePage(r, stateOn, workerBusy) =>
      PostAllOffers(WithPage(h, r, PageOf(h, r).(active := true)), r, Greeting(r, stateOn, workerBusy));
    case LeavePage(r, stateOn) =>
      PostAllOffers(WithPage(h, r, PageOf(h, r).(exiting := true)), r, Farewell(r, stateOn));
    case _ =>
  }

  lemma {:induction false} RunOffers(h: Hub, es: seq<Event>)
    ensures Run(h, es).log.offered == h.log.offered + Given(es)
    decreases |es|
  {
    if es != [] {
      StepOffers(h, es[0]);
      RunOffers(Step(h, es[0]), es[1..]);
      Associate(h.log.offered, GivenBy(es[0]), Given(es[1..]));
    }
  }

  /** For either radio and over every run: a payload given away once has been freed exactly once or is still
      queued, and nothing else is ever freed. */
  lemma EveryPayloadOnce(es: seq<Event>, payload: nat)
    ensures var h := Run(BOOT, es);
            && (multiset(Given(es))[payload] == 1 ==>
                  (multiset(h.log.freed)[payload] == 1 <==> !InQueue(h.queue, payload))
                  && (multiset(h.log.freed)[payload] == 0 <==> InQueue(h.queue, payload)))
            && (payload in h.log.freed ==> payload in Given(es))
            && (h.queue == [] ==> multiset(h.log.freed)[payload] == multiset(Given(es))[payload])
  {
    assert Balanced(BOOT, []);
    RunBalances(BOOT, es);
    RunOffers(BOOT, es);
    var h := Run(BOOT, es);
    assert h.log.offered == Given(es);
    PendingIff(h.queue, payload);
    assert payload in Pending(h.queue) <==> payload in multiset(Pending(h.queue));
    assert payload in h.log.freed <==> payload in multiset(h.log.freed);
    assert payload in h.log.offered <==> payload in multiset(h.log.offered);
  }

  /** When the loop comes to a message its payload is freed at once, whatever the message does. */
  lemma PopFrees(h: Hub, w: World, payload: nat)
    requires h.queue != [] && Carries(h.queue[0], payload)
    ensures Pump(h, w).log.freed == h.log.freed + [payload]
  {
    if h.queue[0].Fresh? {
      PostAllFrees(h.(queue := h.queue[1..]), h.queue[0].msg.radio, FollowUps(h.queue[0].msg, w));
    }
  }

  lemma {:induction false} PostAllFrees(h: Hub, r: Radio, kinds: seq<Kind>)
    ensures PostAll(h, r, kinds).log.freed == h.log.freed
    decreases |kinds|
  {
    if kinds != [] {
      PostAllFrees(Enqueue(h, Msg(r, kinds[0], None, false)), r, kinds[1..]);
    }
  }

  // ---------------------------------------------------------------- draining

  function KindWeight(kind: Kind): nat {
    match kind
    case KeyUp => 2
    case KeyDown => 2
    case ToRightGroup => 2
    case AddManually => 2
    case ClickedPair => 2
    case ConnPair => 2
    case NewConnPair => 2
    case ClickedScan => 2
    case StopScanProc => 2
    case DisconnPair => 3
    case DeletedPair => 3
    case _ => 1
  }

  function Weight(p: Posted): nat {
    if p.Foreign? then 1 else KindWeight(p.msg.kind)
  }

  function TotalWeight(queue: seq<Posted>): nat {
    if queue == [] then 0 else Weight(queue[0]) + TotalWeight(queue[1..])
  }

  function KindsWeight(kinds: seq<Kind>): nat {
    if kinds == [] then 0 else KindWeight(kinds[0]) + KindsWeight(kinds[1..])
  }

  lemma {:induction false} TotalSnoc(queue: seq<Posted>, p: Posted)
    ensures TotalWeight(queue + [p]) == TotalWeight(queue) + Weight(p)
  {
    if queue == [] {
      assert [p][1..] == [];
    } else {
      TotalSnoc(queue[1..], p);
      assert (queue + [p])[1..] == queue[1..] + [p];
    }
  }

  lemma {:induction false} PostAllWeighs(h: Hub, r: Radio, kinds: seq<Kind>)
    ensures TotalWeight(PostAll(h, r, kinds).queue) <= TotalWeight(h.queue) + KindsWeight(kinds)
    decreases |kinds|
  {
    if kinds != [] {
      var m := Msg(r, kinds[0], None, false);
      TotalSnoc(h.queue, if IsNotice(m.kind) then Notice(m) else Fresh(m));
      PostAllWeighs(Enqueue(h, m), r, kinds[1..]);
    }
  }

  /** Follow-ups weigh less than the message they follow. */
  lemma FollowUpsLighter(m: Msg, w: World)
    ensures KindsWeight(FollowUps(m, w)) < KindWeight(m.kind)
  {
    assert KindsWeight([HideScanState]) == 1;
    assert KindsWeight([UpdateScanNum]) == 1;
    assert [HideScanState] + [CreateScanProc] == [HideScanState, CreateScanProc];
    assert [HideScanState, CreateScanProc][1..] == [CreateScanProc];
    assert [] + [CreateScanProc] == [CreateScanProc];
    assert KindsWeight([CreateScanProc]) == 1;
    assert KindsWeight([HideScanState, CreateScanProc]) == 2;
  }

  lemma ProcessWeighs(h: Hub, r: Radio, p: Posted, w: World)
    ensures p.Foreign? || p.msg.radio != r ==> Process(h, r, p, w) == h
    ensures TotalWeight(Process(h, r, p, w).queue) < TotalWeight(h.queue) + Weight(p)
  {
    if p.Fresh? && p.msg.radio == r {
      PostAllWeighs(h, r, FollowUps(p.msg, w));
      FollowUpsLighter(p.msg, w);
    }
  }

  lemma PumpLightens(h: Hub, w: World)
    requires h.queue != []
    ensures TotalWeight(Pump(h, w).queue) < TotalWeight(h.queue)
  {
    var popped := h.(queue := h.queue[1..]);
    ProcessWeighs(popped, Wifi, h.queue[0], w);
    ProcessWeighs(Process(popped, Wifi, h.queue[0], w), Bluetooth, h.queue[0], w);
  }

  function PumpAll(h: Hub, ws: seq<World>): Hub
    decreases |ws|
  {
    if ws == [] then h else PumpAll(Pump(h, ws[0]), ws[1..])
  }

  /** With no worker enqueuing, as many turns of the UI loop as the queue weighs empty it, whatever the handlers
      see; a message costs at most three turns. */
  lemma {:induction false} DrainEnds(h: Hub, ws: seq<World>)
    requires |ws| >= TotalWeight(h.queue)
    ensures PumpAll(h, ws).queue == []
    decreases |ws|
  {
    if ws != [] {
      if h.queue != [] {
        PumpLightens(h, ws[0]);
      }
      DrainEnds(Pump(h, ws[0]), ws[1..]);
    }
  }

  lemma {:induction false} WeightBound(queue: seq<Posted>)
    ensures |queue| <= TotalWeight(queue) <= 3 * |queue|
  {
    if queue != [] {
      WeightBound(queue[1..]);
    }
  }

  // ---------------------------------------------------------------- leaving a page

  predicate IsDeinit(p: Posted, r: Radio) {
    p.Fresh? && p.msg.radio == r && p.msg.kind.UiDeinit?
  }

  function Deinits(queue: seq<Posted>, r: Radio): nat {
    if queue == [] then 0 else (if IsDeinit(queue[0], r) then 1 else 0) + Deinits(queue[1..], r)
  }

  lemma {:induction false} DeinitsSnoc(queue: seq<Posted>, p: Posted, r: Radio)
    ensures Deinits(queue + [p], r) == Deinits(queue, r) + if IsDeinit(p, r) then 1 else 0
  {
    if queue == [] {
      assert [p][1..] == [];
    } else {
      DeinitsSnoc(queue[1..], p, r);
      assert (queue + [p])[1..] == queue[1..] + [p];
    }
  }

  /** At most one `UiDeinit` of a page is queued, and only while the page is exiting. */
  predicate PageInv(p: Page, queue: seq<Posted>, r: Radio) {
    && (p.exiting ==> p.active) && (p.active ==> p.activity)
    && Deinits(queue, r) <= if p.exiting then 1 else 0
  }

  predicate Inv(h: Hub) {
    PageInv(h.wifi, h.queue, Wifi) && PageInv(h.bt, h.queue, Bluetooth)
  }

  /** Messages other than `UiDeinit` change no page and add no `UiDeinit`. */
  lemma {:induction false} PostAllKeeps(h: Hub, r: Radio, kinds: seq<Kind>)
    requires UiDeinit !in kinds
    ensures var t := PostAll(h, r, kinds);
            && t.wifi == h.wifi && t.bt == h.bt && h.queue <= t.queue
            && Deinits(t.queue, Wifi) == Deinits(h.queue, Wifi)
            && Deinits(t.queue, Bluetooth) == Deinits(h.queue, Bluetooth)
    decreases |kinds|
  {
    if kinds != [] {
      var m := Msg(r, kinds[0], None, false);
      EnqueueKeeps(h, m);
      PostAllKeeps(Enqueue(h, m), r, kinds[1..]);
    }
  }

  lemma EnqueueKeeps(h: Hub, m: Msg)
    requires !m.kind.UiDeinit?
    ensures var t := Enqueue(h, m);
            && t.wifi == h.wifi && t.bt == h.bt && h.queue <= t.queue
            && Deinits(t.queue, Wifi) == Deinits(h.queue, Wifi)
            && Deinits(t.queue, Bluetooth) == Deinits(h.queue, Bluetooth)
  {
    var p := if IsNotice(m.kind) then Notice(m) else Fresh(m);
    DeinitsSnoc(h.queue, p, Wifi);
    DeinitsSnoc(h.queue, p, Bluetooth);
  }

  lemma FollowUpsNoDeinit(m: Msg, w: World)
    ensures UiDeinit !in FollowUps(m, w)
  {
  }

  /** What one turn of the loop does to the pages: it closes the page whose `UiDeinit` was at the head. */
  lemma PumpPages(h: Hub, w: World)
    requires Inv(h) && h.queue != []
    ensures var t := Pump(h, w);
            && Inv(t) && h.queue[1..] <= t.queue
            && forall r :: PageOf(t, r) == if IsDeinit(h.queue[0], r) then NO_PAGE else PageOf(h, r)
  {
    var p := h.queue[0];
    if p.Fresh? {
      FollowUpsNoDeinit(p.msg, w);
      PostAllKeeps(h.(queue := h.queue[1..]), p.msg.radio, FollowUps(p.msg, w));
    }
  }

  lemma FinishKeeps(h: Hub, r: Radio)
    requires Inv(h) && Enabled(h, FinishLeaving(r))
    ensures var t := Step(h, FinishLeaving(r));
            && Inv(t) && h.queue <= t.queue && t.wifi == h.wifi && t.bt == h.bt && Deinits(t.queue, r) == 1
  {
    DeinitsSnoc(h.queue, Fresh(Goodbye(r)), Wifi);
    DeinitsSnoc(h.queue, Fresh(Goodbye(r)), Bluetooth);
  }

  lemma {:induction false} PostAllSplit(h: Hub, r: Radio, first: seq<Kind>, second: seq<Kind>)
    ensures PostAll(h, r, first + second) == PostAll(PostAll(h, r, first), r, second)
    decreases |first|
  {
    if first == [] {
      assert first + second == second;
    } else {
      assert (first + second)[1..] == first[1..] + second;
      PostAllSplit(Enqueue(h, Msg(r, first[0], None, false)), r, first[1..], second);
    }
  }

  lemma SendKeeps(h: Hub, e: Event)
    requires Inv(h) && Enabled(h, e) && (e.Send? || e.SendForeign?)
    ensures var t := Step(h, e); Inv(t) && h.queue <= t.queue && t.wifi == h.wifi && t.bt == h.bt
  {
    if e.Send? {
      EnqueueKeeps(h, e.m);
    } else {
      DeinitsSnoc(h.queue, Foreign, Wifi);
      DeinitsSnoc(h.queue, Foreign, Bluetooth);
    }
  }

  lemma PageChangeKeeps(h: Hub, r: Radio, p: Page, kinds: seq<Kind>)
    requires Inv(h) && PageInv(p, h.queue, r) && UiDeinit !in kinds
    ensures var t := PostAll(WithPage(h, r, p), r, kinds);
            && Inv(t) && h.queue <= t.queue && PageOf(t, r) == p
            && forall q :: q != r ==> PageOf(t, q) == PageOf(h, q)
  {
    PostAllKeeps(WithPage(h, r, p), r, kinds);
  }

  lemma StepKeeps(h: Hub, e: Event)
    requires Inv(h)
    ensures Inv(Step(h, e))
    ensures !e.PumpOne? ==> h.queue <= Step(h, e).queue
    ensures forall r :: PageOf(h, r).exiting && !e.PumpOne? ==> PageOf(Step(h, e), r) == PageOf(h, r)
    ensures forall r :: !PageOf(h, r).active && !(e.CreatePage? && e.r == r) ==> !PageOf(Step(h, e), r).active
  {
    if Enabled(h, e) {
      match e
      case Send(_) => SendKeeps(h, e);
      case SendForeign => SendKeeps(h, e);
      case PumpOne(w) =>
        if h.queue != [] {
          PumpPages(h, w);
        }
      case InitPage(r, _) => PageChangeKeeps(h, r, PageOf(h, r).(activity := true), []);
      case CreatePage(r, stateOn, workerBusy) =>
        PageChangeKeeps(h, r, PageOf(h, r).(active := true), Greeting(r, stateOn, workerBusy));
      case LeavePage(r, stateOn) =>
        PageChangeKeeps(h, r, PageOf(h, r).(exiting := true), Farewell(r, stateOn));
      case FinishLeaving(r) => FinishKeeps(h, r);
    }
  }

  lemma {:induction false} RunKeeps(h: Hub, es: seq<Event>)
    requires Inv(h)
    ensures Inv(Run(h, es))
    decreases |es|
  {
    if es != [] {
      StepKeeps(h, es[0]);
      RunKeeps(Step(h, es[0]), es[1..]);
    }
  }

  lemma ReachableKeeps(es: seq<Event>)
    ensures Inv(Run(BOOT, es))
  {
    RunKeeps(BOOT, es);
  }

  /** The message of this page, if any, whose handler this event runs. */
  function HandledAt(h: Hub, e: Event, r: Radio): seq<Kind> {
    if e.PumpOne? && h.queue != [] && h.queue[0].Fresh? && h.queue[0].msg.radio == r
       && TakesEffect(PageOf(h, r), h.queue[0].msg.kind)
    then [h.queue[0].msg.kind] else []
  }

  /** The messages of this page that take effect over a run. */
  function Handled(h: Hub, es: seq<Event>, r: Radio): seq<Kind>
    decreases |es|
  {
    if es == [] then [] else HandledAt(h, es[0], r) + Handled(Step(h, es[0]), es[1..], r)
  }

  ghost predicate NotCreated(es: seq<Event>, r: Radio) {
    forall e | e in es :: !(e.CreatePage? && e.r == r)
  }

  /** A page that is gone handles nothing until it is created again. */
  lemma {:induction false} GoneHandlesNothing(h: Hub, r: Radio, es: seq<Event>)
    requires Inv(h) && !PageOf(h, r).active && NotCreated(es, r)
    ensures Handled(h, es, r) == [] && !PageOf(Run(h, es), r).active
    decreases |es|
  {
    if es != [] {
      StepKeeps(h, es[0]);
      assert es[0] in es;
      GoneHandlesNothing(Step(h, es[0]), r, es[1..]);
    }
  }

  /** Stops of the pairing worker, then at most one `UiDeinit`, then nothing. */
  ghost predicate Closing(kinds: seq<Kind>) {
    forall i | 0 <= i < |kinds| :: kinds[i].StopPairProc? || (kinds[i].UiDeinit? && i == |kinds| - 1)
  }

  /** Over every run from the moment a page is left until it is created again, whatever other threads enqueue:
      only `StopPairProc` and one final `UiDeinit` take effect. In particular the `StopScanProc` that leaving
      posts never does. */
  lemma {:induction false} LeavingHandlesOnlyStops(h: Hub, r: Radio, es: seq<Event>)
    requires Inv(h) && PageOf(h, r).exiting && NotCreated(es, r)
    ensures Closing(Handled(h, es, r))
    decreases |es|
  {
    if es != [] {
      var e := es[0];
      StepKeeps(h, e);
      assert e in es;
      if e.PumpOne? && h.queue != [] {
        PumpPages(h, e.w);
        if IsDeinit(h.queue[0], r) {
          GoneHandlesNothing(Step(h, e), r, es[1..]);
        } else {
          LeavingHandlesOnlyStops(Step(h, e), r, es[1..]);
        }
      } else {
        LeavingHandlesOnlyStops(Step(h, e), r, es[1..]);
      }
    }
  }

  // ---------------------------------------------------------------- coming back

  function Pumps(es: seq<Event>): nat {
    if es == [] then 0 else (if es[0].PumpOne? then 1 else 0) + Pumps(es[1..])
  }

  /** How many messages stand before the page's `UiDeinit`. */
  function Ahead(queue: seq<Posted>, r: Radio): nat
    requires Deinits(queue, r) > 0
  {
    if IsDeinit(queue[0], r) then 0 else 1 + Ahead(queue[1..], r)
  }

  lemma {:induction false} AheadKept(queue: seq<Posted>, longer: seq<Posted>, r: Radio)
    requires Deinits(queue, r) > 0 && queue <= longer
    ensures Deinits(longer, r) > 0 && Ahead(longer, r) == Ahead(queue, r)
  {
    if !IsDeinit(queue[0], r) {
      AheadKept(queue[1..], longer[1..], r);
    }
  }

  /** However the other threads interleave, the page left is gone once the loop has turned once for each message
      ahead of its `UiDeinit` and once more; from then it may be initialised again. */
  lemma {:induction false} LeavingEnds(h: Hub, r: Radio, es: seq<Event>) returns (n: nat)
    requires Inv(h) && Deinits(h.queue, r) > 0 && Pumps(es) > Ahead(h.queue, r)
    ensures n <= |es| && PageOf(Run(h, es[..n]), r) == NO_PAGE && MayInit(PageOf(Run(h, es[..n]), r), true)
    decreases |es|
  {
    var e, next := es[0], Step(h, es[0]);
    StepKeeps(h, e);
    if e.PumpOne? {
      PumpPages(h, e.w);
      if IsDeinit(h.queue[0], r) {
        n := 1;
        assert es[..1][1..] == [];
        return;
      }
      AheadKept(h.queue[1..], next.queue, r);
    } else {
      AheadKept(h.queue, next.queue, r);
    }
    var k := LeavingEnds(next, r, es[1..]);
    n := k + 1;
    assert es[..n][1..] == es[1..][..k];
  }

  // ---------------------------------------------------------------- the queue and the statics

  /** The system queue and the flags of both pages. */
  class MessageLoop {
    var queue: seq<Posted>
    var wifi: Page
    var bt: Page
    ghost var offered: seq<nat>
    ghost var freed: seq<nat>

    ghost function View(): Hub
      reads this
    {
      Hub(queue, wifi, bt, Log(offered, freed))
    }

    constructor ()
      ensures View() == BOOT
    {
      queue, wifi, bt, offered, freed := [], NO_PAGE, NO_PAGE, [], [];
    }

    method GetPage(r: Radio) returns (p: Page)
      ensures p == PageOf(View(), r)
    {
      p := if r == Wifi then wifi else bt;
    }

    method SetPage(r: Radio, p: Page)
      modifies `wifi, `bt
      ensures View() == WithPage(old(View()), r, p)
    {
      if r == Wifi {
        wifi := p;
      } else {
        bt := p;
      }
    }

    /** free(), which ignores NULL. */
    ghost method FreePayload(m: Msg)
      modifies `freed
      ensures freed == old(freed) + if m.data.Some? then [m.data.value] else []
    {
      if m.data.Some? {
        freed := freed + [m.data.value];
      }
    }

    method MsgEnqueue(m: Msg)
      modifies `queue, `offered, `freed
      ensures View() == Enqueue(old(View()), m)
    {
      offered := offered + Owned(m);
      var page := GetPage(m.radio);
      if !page.activity && m.kind != Connected && m.kind != Disconnected {
        if m.freeData {
          FreePayload(m);
        }
        return;
      }
      queue := queue + [if m.kind == Connected || m.kind == Disconnected then Notice(m) else Fresh(m)];
    }

    method PostPlain(r: Radio, kind: Kind)
      modifies `queue, `offered, `freed
      ensures View() == PostAll(old(View()), r, [kind])
    {
      MsgEnqueue(Msg(r, kind, None, false));
      assert [kind][1..] == [];
    }

    method StopWifiScan(w: World)
      modifies `queue, `offered, `freed
      ensures View() == PostAll(old(View()), Wifi, StopScan(w))
    {
      if !w.scanTimer {
        return;
      }
      PostPlain(Wifi, HideScanState);
    }

    /** The switch over message types. */
    method RunHandler(m: Msg, w: World)
      modifies `queue, `offered, `freed, `wifi, `bt
      ensures View() == Handle(old(View()), m, w)
    {
      if m.kind == UiDeinit {
        SetPage(m.radio, Page(false, false, false));
        return;
      }
      if m.radio == Bluetooth {
        return;
      }
      match m.kind
      case KeyUp | KeyDown | ToRightGroup =>
        if m.data == None {
          return;
        }
        if w.renumber {
          PostPlain(Wifi, UpdateScanNum);
        }
      case AddManually | ClickedPair | ConnPair | NewConnPair | ClickedScan =>
        if w.scanRun {
          StopWifiScan(w);
        }
      case DisconnPair | DeletedPair =>
        PostAllSplit(View(), Wifi, StopScanIfRunning(w), [CreateScanProc]);
        if w.scanRun {
          StopWifiScan(w);
        }
        PostPlain(Wifi, CreateScanProc);
      case StopScanProc =>
        StopWifiScan(w);
      case _ =>
    }

    method MessageProcess(r: Radio, p: Posted, w: World)
      modifies `queue, `offered, `freed, `wifi, `bt
      ensures View() == Process(old(View()), r, p, w)
    {
      if p.Foreign? || p.msg.radio != r {
        return;
      }
      var m := p.msg;
      if p.Notice? {
        if m.freeData && m.data != None {
          FreePayload(m);
        }
        return;
      }
      var page := GetPage(r);
      if page.active && !(page.exiting && m.kind != StopPairProc && m.kind != UiDeinit) {
        RunHandler(m, w);
      }
      if m.freeData {
        FreePayload(m);
      }
    }

    method SystemMessageProcess(w: World)
      modifies this
      ensures View() == Pump(old(View()), w)
    {
      if queue == [] {
        return;
      }
      var p := queue[0];
      queue := queue[1..];
      MessageProcess(Wifi, p, w);
      MessageProcess(Bluetooth, p, w);
    }

    method PageInit(r: Radio, ready: bool) returns (ok: bool)
      modifies `wifi, `bt
      ensures ok <==> MayInit(PageOf(old(View()), r), ready)
      ensures View() == Step(old(View()), InitPage(r, ready))
    {
      var page := GetPage(r);
      if page.activity || page.active || page.exiting || !ready {
        return false;
      }
      SetPage(r, page.(activity := true));
      return true;
    }

    method PageCreate(r: Radio, stateOn: bool, workerBusy: bool)
      requires Enabled(View(), CreatePage(r, stateOn, workerBusy))
      modifies this
      ensures View() == Step(old(View()), CreatePage(r, stateOn, workerBusy))
    {
      var page := GetPage(r);
      SetPage(r, page.(active := true));
      PostAllSplit(View(), r, if r == Wifi && workerBusy then [] else [CreatePairProc],
                   if r == Bluetooth && workerBusy then [] else [CreateScanProc]);
      if stateOn {
        if r == Bluetooth || !workerBusy {
          PostPlain(r, CreatePairProc);
        }
        if r == Wifi || !workerBusy {
          PostPlain(r, CreateScanProc);
        }
      }
    }

    /** Destroying a page, up to where it waits for the control worker. */
    method PageLeave(r: Radio, stateOn: bool)
      requires Enabled(View(), LeavePage(r, stateOn))
      modifies this
      ensures View() == Step(old(View()), LeavePage(r, stateOn))
    {
      var page := GetPage(r);
      SetPage(r, page.(exiting := true));
      if stateOn {
        PostAllSplit(View(), r, [StopScanProc], [StopPairProc]);
        if r == Wifi {
          PostPlain(r, StopScanProc);
        }
        PostPlain(r, StopPairProc);
      }
    }

    /** The rest of it. */
    method PageLeft(r: Radio)
      requires Enabled(View(), FinishLeaving(r))
      modifies this
      ensures View() == Step(old(View()), FinishLeaving(r))
    {
      MsgEnqueue(Msg(r, UiDeinit, None, false));
    }
  }
}
