/**
 What a user of a radio sees: from power-up through boot to the page, and from a toggle to
 what its control thread leaves behind.
 */
module RadioUse {
  import opened RadioPower

  // ---------------------------------------------------------------- one control thread

  /** The steps a control thread takes from here to its end, with the library's answers. */
  function Driven(radio: Radio, s: RadioState, initOk: bool, powerOk: bool): seq<Event>
    decreases ToGo(s.pc)
  {
    if s.pc == Rest then []
    else
      var e := ControlStep(if s.pc == OnInit then initOk else powerOk);
      [e] + Driven(radio, Step(radio, s, e), initOk, powerOk)
  }

  lemma DrivenNext(radio: Radio, s: RadioState, initOk: bool, powerOk: bool)
    requires s.pc != Rest
    ensures var ok := if s.pc == OnInit then initOk else powerOk;
            var next := Step(radio, s, ControlStep(ok));
            && (next.page.controlRun <==> next.pc != Rest) && ToGo(next.pc) < ToGo(s.pc)
            && next.pc == ControlNext(radio, s.pc, s.marks, ok) && next.marks == ControlWrite(s.pc, s.marks)
            && next.boot == s.boot && next.page.(controlRun := false) == s.page.(controlRun := false)
            && Driven(radio, s, initOk, powerOk) == [ControlStep(ok)] + Driven(radio, next, initOk, powerOk)
  {
  }

  lemma AloneNext(radio: Radio, s: RadioState, initOk: bool, powerOk: bool)
    requires s.pc != Rest
    ensures var next := Step(radio, s, ControlStep(if s.pc == OnInit then initOk else powerOk));
            Alone(radio, next.pc, next.marks, initOk, powerOk) == Alone(radio, s.pc, s.marks, initOk, powerOk)
  {
  }

  lemma {:induction false} DrivenIsAlone(radio: Radio, s: RadioState, initOk: bool, powerOk: bool)
    requires s.page.controlRun <==> s.pc != Rest
    ensures Run(radio, s, Driven(radio, s, initOk, powerOk)) ==
            RadioState(Alone(radio, s.pc, s.marks, initOk, powerOk), s.boot, Rest, s.page.(controlRun := false))
    decreases ToGo(s.pc)
  {
    if s.pc != Rest {
      var e := ControlStep(if s.pc == OnInit then initOk else powerOk);
      var next := Step(radio, s, e);
      var rest := Driven(radio, next, initOk, powerOk);
      DrivenNext(radio, s, initOk, powerOk);
      AloneNext(radio, s, initOk, powerOk);
      DrivenIsAlone(radio, next, initOk, powerOk);
      assert ([e] + rest)[1..] == rest;
    }
  }

  /** A waiting thread starts and runs to its end. */
  function Started(radio: Radio, s: RadioState, on: bool, initOk: bool, powerOk: bool): seq<Event> {
    [ThreadStart(on)] + Driven(radio, Step(radio, s, ThreadStart(on)), initOk, powerOk)
  }

  /** What the marks are after it: asked to switch on, the radio is on, in the file too, exactly when the library
      answers, and a Wi-Fi radio whose library does not initialise is only marked; asked to switch off, it is off,
      in the file too, unless it was marked, and then nothing changes. */
  predicate AsAsked(radio: Radio, m: Marks, n: Marks, on: bool, initOk: bool, powerOk: bool) {
    && (on && (radio.Bluetooth? || initOk) ==> n == Marks(if powerOk then FileOn else FileOff, powerOk, false, false))
    && (on && radio.Wifi? && !initOk ==> n == m.(onIng := true))
    && (!on ==> n == if m.onIng then m else Marks(FileOff, false, false, false))
  }

  lemma StartedOutcome(radio: Radio, s: RadioState, on: bool, initOk: bool, powerOk: bool)
    requires Inv(s) && s.pc == Rest && s.page.waiting > 0
    ensures var u := Run(radio, s, Started(radio, s, on, initOk, powerOk));
            && u.pc == Rest && u.boot == s.boot
            && u.page == s.page.(waiting := s.page.waiting - 1, controlRun := false)
            && AsAsked(radio, s.marks, u.marks, on, initOk, powerOk)
  {
    var started := Step(radio, s, ThreadStart(on));
    var steps := Driven(radio, started, initOk, powerOk);
    assert ([ThreadStart(on)] + steps)[1..] == steps;
    DrivenIsAlone(radio, started, initOk, powerOk);
    AloneEnds(radio, started.pc, started.marks, initOk, powerOk);
  }

  /** After any run from power-up that ends at rest with a control thread waiting: that thread does as it was asked,
      and a switch-off is refused exactly when a switch-on that gave up left its mark behind. */
  lemma ToggleOutcome(radio: Radio, file: FileState, es: seq<Event>, on: bool, initOk: bool, powerOk: bool)
    requires var t := Run(radio, PowerUp(file), es); t.pc == Rest && t.page.waiting > 0
    ensures var t := Run(radio, PowerUp(file), es);
            var u := Run(radio, t, Started(radio, t, on, initOk, powerOk));
            && u.pc == Rest && !u.page.controlRun && u.page.waiting == t.page.waiting - 1 && u.boot == t.boot
            && AsAsked(radio, t.marks, u.marks, on, initOk, powerOk)
            && (!on ==> u.marks == if Stuck(radio, PowerUp(file), es, false) then t.marks
                                   else Marks(FileOff, false, false, false))
  {
    RunKeeps(radio, PowerUp(file), es);
    MarkExact(radio, PowerUp(file), es, false);
    StartedOutcome(radio, Run(radio, PowerUp(file), es), on, initOk, powerOk);
  }

  /** A thread that finds another one running leaves without a trace. */
  lemma SecondThreadLeaves(radio: Radio, s: RadioState, on: bool)
    requires s.page.controlRun && s.page.waiting > 0
    ensures var t := Step(radio, s, ThreadStart(on));
            t.marks == s.marks && t.pc == s.pc && t.boot == s.boot
            && t.page == s.page.(waiting := s.page.waiting - 1)
  {
  }

  // ---------------------------------------------------------------- the library

  /** The call the step from here makes. */
  function CallAt(pc: ControlPc): seq<ControlPc> {
    if pc in {OnInit, OnPower, OffPower} then [pc] else []
  }

  /** The calls a control thread makes into the library over a run, by the points at which it makes them. */
  function Calls(radio: Radio, s: RadioState, es: seq<Event>): seq<ControlPc>
    decreases |es|
  {
    if es == [] then []
    else (if es[0].ControlStep? then CallAt(s.pc) else []) + Calls(radio, Step(radio, s, es[0]), es[1..])
  }

  /** The calls still to come. */
  function CallsAhead(radio: Radio, pc: ControlPc, m: Marks, initOk: bool): seq<ControlPc> {
    var switchOn := [OnInit] + if radio.Wifi? && !initOk then [] else [OnPower];
    match pc
    case OnTest => if m.offIng then [] else switchOn
    case OnMark => switchOn
    case OnInit => switchOn
    case OnPower => [OnPower]
    case OffTest => if m.onIng then [] else [OffPower]
    case OffMark => [OffPower]
    case OffPower => [OffPower]
    case _ => []
  }

  lemma CallsNext(radio: Radio, pc: ControlPc, m: Marks, initOk: bool, ok: bool)
    requires pc == OnInit ==> ok == initOk
    ensures CallsAhead(radio, pc, m, initOk) ==
            CallAt(pc) + if pc == Rest then []
                         else CallsAhead(radio, ControlNext(radio, pc, m, ok), ControlWrite(pc, m), initOk)
  {
  }

  lemma CallsCons(radio: Radio, s: RadioState, e: Event, rest: seq<Event>)
    ensures Calls(radio, s, [e] + rest)
         == (if e.ControlStep? then CallAt(s.pc) else []) + Calls(radio, Step(radio, s, e), rest)
  {
    assert ([e] + rest)[1..] == rest;
  }

  lemma {:induction false} DrivenCalls(radio: Radio, s: RadioState, initOk: bool, powerOk: bool)
    ensures Calls(radio, s, Driven(radio, s, initOk, powerOk)) == CallsAhead(radio, s.pc, s.marks, initOk)
    decreases ToGo(s.pc)
  {
    if s.pc != Rest {
      var ok := if s.pc == OnInit then initOk else powerOk;
      var next := Step(radio, s, ControlStep(ok));
      var rest := Driven(radio, next, initOk, powerOk);
      DrivenNext(radio, s, initOk, powerOk);
      CallsNext(radio, s.pc, s.marks, initOk, ok);
      DrivenCalls(radio, next, initOk, powerOk);
      CallsCons(radio, s, ControlStep(ok), rest);
      calc {
        Calls(radio, s, Driven(radio, s, initOk, powerOk));
        Calls(radio, s, [ControlStep(ok)] + rest);
        CallAt(s.pc) + Calls(radio, next, rest);
        CallAt(s.pc) + CallsAhead(radio, next.pc, next.marks, initOk);
        CallsAhead(radio, s.pc, s.marks, initOk);
      }
    }
  }

  /** A switch-on initialises the library and then, unless that failed for Wi-Fi, switches the radio on; a switch-off
      that is not refused switches it off, and a refused one asks for nothing. */
  lemma LibraryAsked(radio: Radio, s: RadioState, on: bool, initOk: bool, powerOk: bool)
    requires Inv(s) && s.pc == Rest && s.page.waiting > 0
    ensures Calls(radio, s, Started(radio, s, on, initOk, powerOk)) ==
            if on then [OnInit] + (if radio.Wifi? && !initOk then [] else [OnPower])
            else if s.marks.onIng then [] else [OffPower]
  {
    var started := Step(radio, s, ThreadStart(on));
    CallsCons(radio, s, ThreadStart(on), Driven(radio, started, initOk, powerOk));
    DrivenCalls(radio, started, initOk, powerOk);
  }

  // ---------------------------------------------------------------- from power-up on

  lemma {:induction false} BootLeaves(b: BootThread, m: Marks, modulesOk: bool, initOk: bool, powerOk: bool)
    requires BootInv(b, m) && !b.pc.NotStarted? && (!b.pc.AwaitModules? ==> b.modules == modulesOk)
    ensures var (end, n) := Boot(b, m, modulesOk, initOk, powerOk);
            && end.modules == modulesOk && n.onIng == m.onIng && n.offIng == m.offIng
            && n.file == if b.pc.ReadFile? || (b.pc.AwaitModules? && modulesOk)
                         then (if m.file == FileOn then FileOn else FileOff) else m.file
    decreases BootToGo(b.pc)
  {
    if b.pc != BootDone {
      var ok := match b.pc case AwaitModules => modulesOk case BootInit => initOk case _ => powerOk;
      BootLeaves(BootNext(b, m, ok), BootWrite(b.pc, m), modulesOk, initOk, powerOk);
    }
  }

  /** What boot comes to: the radio is on exactly when the file said so and everything answers; a missing file is
      created, saying off, once the modules are there; nothing is marked. */
  lemma BootRuns(radio: Radio, file: FileState, modulesOk: bool, initOk: bool, powerOk: bool)
    ensures var u := Run(radio, PowerUp(file), BootSteps(radio, PowerUp(file), modulesOk, initOk, powerOk));
            && u.boot == BootThread(BootDone, false, modulesOk) && u.pc == Rest && u.page == Page(false, 0, false)
            && u.marks == Marks(if modulesOk && file != FileOn then FileOff else file,
                                file == FileOn && modulesOk && initOk && powerOk, false, false)
  {
    var s := PowerUp(file);
    BootStepsAreBoot(radio, s, modulesOk, initOk, powerOk);
    BootOutcome(s.boot, s.marks, modulesOk, initOk, powerOk);
    BootLeaves(BootNext(s.boot, s.marks, powerOk), s.marks, modulesOk, initOk, powerOk);
  }

  /** The page opens exactly when the modules were loaded; a page that was closed takes no toggle; and a toggle on
      an open page leaves one thread waiting, which does as it was asked. */
  lemma PageToggles(radio: Radio, s: RadioState, on: bool, initOk: bool, powerOk: bool)
    requires Inv(s) && s.pc == Rest && s.page == Page(false, 0, false) && s.boot.pc == BootDone
    ensures var open := Step(radio, s, OpenPage);
            var toggled, closed := Step(radio, open, Toggle), Step(radio, open, ClosePage);
            && (open.page.shown <==> s.boot.modules)
            && !closed.page.shown && Step(radio, closed, Toggle) == closed
            && (s.boot.modules ==>
                  var u := Run(radio, toggled, Started(radio, toggled, on, initOk, powerOk));
                  u.page == Page(true, 0, false) && AsAsked(radio, s.marks, u.marks, on, initOk, powerOk))
  {
    var open := Step(radio, s, OpenPage);
    var toggled := Step(radio, open, Toggle);
    StepKeeps(radio, s, OpenPage);
    StepKeeps(radio, open, Toggle);
    if s.boot.modules {
      StartedOutcome(radio, toggled, on, initOk, powerOk);
    }
  }

  /** So it is right after every boot. */
  lemma FirstToggle(radio: Radio, file: FileState, modulesOk: bool, bootInit: bool, bootPower: bool,
                    on: bool, initOk: bool, powerOk: bool)
    ensures var booted := Run(radio, PowerUp(file), BootSteps(radio, PowerUp(file), modulesOk, bootInit, bootPower));
            var open := Step(radio, booted, OpenPage);
            var toggled := Step(radio, open, Toggle);
            && (open.page.shown <==> modulesOk)
            && (modulesOk ==>
                  AsAsked(radio, booted.marks,
                          Run(radio, toggled, Started(radio, toggled, on, initOk, powerOk)).marks, on, initOk, powerOk))
  {
    var boot := BootSteps(radio, PowerUp(file), modulesOk, bootInit, bootPower);
    BootRuns(radio, file, modulesOk, bootInit, bootPower);
    RunKeeps(radio, PowerUp(file), boot);
    PageToggles(radio, Run(radio, PowerUp(file), boot), on, initOk, powerOk);
  }
}
