/**
 Switching a radio (Wi-Fi or Bluetooth) on and off: a boot thread that turns it on when
 the state file says so, and control threads started by the user's toggles. Every shared
 variable and file write is one step; the "already running" test of a control thread is
 one step with the set that follows it. All threads interleave freely.
 */
module RadioPower {

  /** The two radios differ in one branch: Wi-Fi gives up when the library fails to initialise. */
  datatype Radio = Wifi | Bluetooth

  datatype FileState = FileOn | FileOff | FileMissing

  /** What outlives a step: the state file and the three flags the page reads. */
  datatype Marks = Marks(file: FileState, stateOn: bool, onIng: bool, offIng: bool)

  datatype BootPc = NotStarted | AwaitModules | ReadFile | BootInit | BootPower | BootMark | BootLeave | BootDone

  datatype BootThread = BootThread(pc: BootPc, autoon: bool, modules: bool)

  /** Where the control thread stands; `Rest` when none runs. */
  datatype ControlPc =
    | Rest
    | OnTest | OnMark | OnInit | OnPower | OnFailState | OnFailClear | OnFailFile | OnFile | OnState | OnClear
    | OffTest | OffMark | OffPower | OffState | OffClear | OffFile
    | Leave

  /** `waiting` counts control threads created but not yet at their first test. */
  datatype Page = Page(shown: bool, waiting: nat, controlRun: bool)

  datatype RadioState = RadioState(marks: Marks, boot: BootThread, pc: ControlPc, page: Page)

  /** Power-up with some file left from the last time. */
  function PowerUp(file: FileState): RadioState {
    RadioState(Marks(file, false, false, false), BootThread(NotStarted, false, false), Rest, Page(false, 0, false))
  }

  // ---------------------------------------------------------------- the threads' steps

  /** One step of the boot thread; `ok` is what the library or the module loader answers. */
  function BootNext(b: BootThread, m: Marks, ok: bool): BootThread {
    match b.pc
    case NotStarted => b.(autoon := true, pc := AwaitModules)
    case AwaitModules => b.(modules := ok, pc := if ok then ReadFile else BootLeave)
    case ReadFile => b.(pc := if m.file == FileOn then BootInit else BootLeave)
    case BootInit => b.(pc := if ok then BootPower else BootLeave)
    case BootPower => b.(pc := if ok then BootMark else BootLeave)
    case BootMark => b.(pc := BootLeave)
    case BootLeave => b.(autoon := false, pc := BootDone)
    case BootDone => b
  }

  /** Reading the state file creates it, saying off, when it is missing. */
  function BootWrite(pc: BootPc, m: Marks): Marks {
    match pc
    case ReadFile => if m.file == FileOn then m else m.(file := FileOff)
    case BootMark => m.(stateOn := true)
    case _ => m
  }

  function ControlNext(radio: Radio, pc: ControlPc, m: Marks, ok: bool): ControlPc {
    match pc
    case Rest => Rest
    case OnTest => if m.offIng then Leave else OnMark
    case OnMark => OnInit
    case OnInit => if radio.Wifi? && !ok then Leave else OnPower
    case OnPower => if ok then OnFile else OnFailState
    case OnFailState => OnFailClear
    case OnFailClear => OnFailFile
    case OnFailFile => Leave
    case OnFile => OnState
    case OnState => OnClear
    case OnClear => Leave
    case OffTest => if m.onIng then Leave else OffMark
    case OffMark => OffPower
    case OffPower => OffState
    case OffState => OffClear
    case OffClear => OffFile
    case OffFile => Leave
    case Leave => Rest
  }

  function ControlWrite(pc: ControlPc, m: Marks): Marks {
    match pc
    case OnMark => m.(onIng := true)
    case OnFailState => m.(stateOn := false)
    case OnFailClear => m.(onIng := false)
    case OnFailFile => m.(file := FileOff)
    case OnFile => m.(file := FileOn)
    case OnState => m.(stateOn := true)
    case OnClear => m.(onIng := false)
    case OffMark => m.(offIng := true)
    case OffState => m.(stateOn := false)
    case OffClear => m.(offIng := false)
    case OffFile => m.(file := FileOff)
    case _ => m
  }

  // ---------------------------------------------------------------- events and runs

  datatype Event =
    | BootStep(ok: bool)
    | OpenPage
    | ClosePage
    | Toggle
    | ThreadStart(on: bool)
    | ControlStep(ok: bool)

  /** A page opens only when boot has loaded the modules and is not running. */
  predicate Enabled(s: RadioState, e: Event) {
    match e
    case BootStep(_) => true
    case OpenPage => !s.page.shown && !s.boot.autoon && s.boot.modules
    case ClosePage => s.page.shown
    case Toggle => s.page.shown
    case ThreadStart(_) => s.page.waiting > 0
    case ControlStep(_) => s.pc != Rest
  }

  /** A control thread leaves at once when another one runs. */
  function StartThread(s: RadioState, on: bool): RadioState
    requires s.page.waiting > 0
  {
    var left := s.page.(waiting := s.page.waiting - 1);
    if s.page.controlRun then s.(page := left)
    else s.(page := left.(controlRun := true), pc := if on then OnTest else OffTest)
  }

  function Step(radio: Radio, s: RadioState, e: Event): RadioState {
    if !Enabled(s, e) then s
    else match e
      case BootStep(ok) => s.(boot := BootNext(s.boot, s.marks, ok), marks := BootWrite(s.boot.pc, s.marks))
      case OpenPage => s.(page := s.page.(shown := true))
      case ClosePage => s.(page := s.page.(shown := false))
      case Toggle => s.(page := s.page.(waiting := s.page.waiting + 1))
      case ThreadStart(on) => StartThread(s, on)
      case ControlStep(ok) =>
        RadioState(ControlWrite(s.pc, s.marks), s.boot, ControlNext(radio, s.pc, s.marks, ok),
                   s.page.(controlRun := s.pc != Leave))
  }

  function Run(radio: Radio, s: RadioState, es: seq<Event>): RadioState
    decreases |es|
  {
    if es == [] then s else Run(radio, Step(radio, s, es[0]), es[1..])
  }

  // ---------------------------------------------------------------- invariants

  /** What the page and the next boot rely on at every instant. */
  predicate Safe(m: Marks) {
    && (m.stateOn ==> m.file == FileOn)
    && !(m.onIng && m.offIng)
  }

  /** What each point of a control thread knows of the marks. */
  predicate ControlInv(pc: ControlPc, m: Marks) {
    && Safe(m)
    && (m.offIng <==> pc.OffPower? || pc.OffState? || pc.OffClear?)
    && (pc.OffMark? ==> !m.onIng)
    && (pc.OnFailClear? || pc.OnFailFile? || pc.OffClear? || pc.OffFile? ==> !m.stateOn)
    && (pc.OnState? ==> m.file == FileOn)
  }

  /** The modules are known only once boot has asked, and it switches on only what the file says is on. */
  predicate BootInv(b: BootThread, m: Marks) {
    && (b.autoon <==> b.pc != NotStarted && b.pc != BootDone)
    && (b.modules ==> b.pc != NotStarted && b.pc != AwaitModules)
    && (b.pc.BootInit? || b.pc.BootPower? || b.pc.BootMark? ==> m.file == FileOn)
  }

  /** Boot is over before a page opens, hence before any control thread exists. */
  predicate Inv(s: RadioState) {
    && ControlInv(s.pc, s.marks)
    && BootInv(s.boot, s.marks)
    && (s.page.controlRun <==> s.pc != Rest)
    && (s.page.shown || s.page.waiting > 0 || s.page.controlRun ==> s.boot.pc == BootDone)
  }

  lemma ControlKeeps(radio: Radio, pc: ControlPc, m: Marks, ok: bool)
    requires ControlInv(pc, m)
    ensures ControlInv(ControlNext(radio, pc, m, ok), ControlWrite(pc, m))
  {
  }

  lemma BootKeeps(b: BootThread, m: Marks, ok: bool)
    requires BootInv(b, m) && ControlInv(Rest, m)
    ensures BootInv(BootNext(b, m, ok), BootWrite(b.pc, m)) && ControlInv(Rest, BootWrite(b.pc, m))
  {
  }

  lemma StepKeeps(radio: Radio, s: RadioState, e: Event)
    requires Inv(s)
    ensures Inv(Step(radio, s, e))
  {
    if Enabled(s, e) {
      match e
      case BootStep(ok) =>
        if s.boot.pc != BootDone {
          BootKeeps(s.boot, s.marks, ok);
        }
      case ControlStep(ok) => ControlKeeps(radio, s.pc, s.marks, ok);
      case _ =>
    }
  }

  lemma {:induction false} RunKeeps(radio: Radio, s: RadioState, es: seq<Event>)
    requires Inv(s)
    ensures Inv(Run(radio, s, es))
    decreases |es|
  {
    if es != [] {
      StepKeeps(radio, s, es[0]);
      RunKeeps(radio, Step(radio, s, es[0]), es[1..]);
    }
  }

  /** At every instant of every run from power-up: a radio that is on is on in the file, switching on and
      switching off are never both in progress, and boot and control threads never overlap. */
  lemma SafeAtEveryStep(radio: Radio, file: FileState, es: seq<Event>)
    ensures var t := Run(radio, PowerUp(file), es);
            Safe(t.marks) && (t.page.controlRun ==> t.boot.pc == BootDone)
  {
    RunKeeps(radio, PowerUp(file), es);
  }

  // ---------------------------------------------------------------- the next boot

  /** The boot thread alone, from a given point to its end, with the answers it gets. */
  function Boot(b: BootThread, m: Marks, modulesOk: bool, initOk: bool, powerOk: bool): (r: (BootThread, Marks))
    decreases BootToGo(b.pc)
  {
    if b.pc == BootDone then (b, m)
    else
      var ok := match b.pc case AwaitModules => modulesOk case BootInit => initOk case _ => powerOk;
      Boot(BootNext(b, m, ok), BootWrite(b.pc, m), modulesOk, initOk, powerOk)
  }

  function BootToGo(pc: BootPc): nat {
    match pc
    case NotStarted => 7
    case AwaitModules => 6
    case ReadFile => 5
    case BootInit => 4
    case BootPower => 3
    case BootMark => 2
    case BootLeave => 1
    case BootDone => 0
  }

  lemma {:induction false} BootOutcome(b: BootThread, m: Marks, modulesOk: bool, initOk: bool, powerOk: bool)
    requires BootInv(b, m)
    ensures var (end, n) := Boot(b, m, modulesOk, initOk, powerOk);
            && end.pc == BootDone && !end.autoon
            && (n.stateOn <==> m.stateOn || WillMark(b.pc, m.file, modulesOk, initOk, powerOk))
    decreases BootToGo(b.pc)
  {
    if b.pc != BootDone {
      var ok := match b.pc case AwaitModules => modulesOk case BootInit => initOk case _ => powerOk;
      BootOutcome(BootNext(b, m, ok), BootWrite(b.pc, m), modulesOk, initOk, powerOk);
    }
  }

  /** The steps a boot thread takes from here to its end. */
  function BootSteps(radio: Radio, s: RadioState, modulesOk: bool, initOk: bool, powerOk: bool): seq<Event>
    decreases BootToGo(s.boot.pc)
  {
    if s.boot.pc == BootDone then []
    else
      var e := BootStep(match s.boot.pc case AwaitModules => modulesOk case BootInit => initOk case _ => powerOk);
      [e] + BootSteps(radio, Step(radio, s, e), modulesOk, initOk, powerOk)
  }

  lemma {:induction false} BootStepsAreBoot(radio: Radio, s: RadioState, modulesOk: bool, initOk: bool, powerOk: bool)
    ensures var (end, n) := Boot(s.boot, s.marks, modulesOk, initOk, powerOk);
            Run(radio, s, BootSteps(radio, s, modulesOk, initOk, powerOk)) == s.(boot := end, marks := n)
    decreases BootToGo(s.boot.pc)
  {
    if s.boot.pc != BootDone {
      var e := BootStep(match s.boot.pc case AwaitModules => modulesOk case BootInit => initOk case _ => powerOk);
      var rest := BootSteps(radio, Step(radio, s, e), modulesOk, initOk, powerOk);
      assert ([e] + rest)[1..] == rest;
      BootStepsAreBoot(radio, Step(radio, s, e), modulesOk, initOk, powerOk);
    }
  }

  /** Whether a boot thread at this point will switch the radio on. */
  predicate WillMark(pc: BootPc, file: FileState, modulesOk: bool, initOk: bool, powerOk: bool) {
    match pc
    case NotStarted => file == FileOn && modulesOk && initOk && powerOk
    case AwaitModules => file == FileOn && modulesOk && initOk && powerOk
    case ReadFile => file == FileOn && initOk && powerOk
    case BootInit => initOk && powerOk
    case BootPower => powerOk
    case BootMark => true
    case BootLeave => false
    case BootDone => false
  }

  /** The point of the order of writes: cut the power at any instant of any run. The next boot comes to an end
      and switches the radio on exactly when the file says on and the hardware answers; in particular a radio
      that was on comes back on. */
  lemma PowerCutRestores(radio: Radio, file: FileState, es: seq<Event>, modulesOk: bool, initOk: bool, powerOk: bool)
    ensures var t := Run(radio, PowerUp(file), es);
            var cut := PowerUp(t.marks.file);
            var (end, next) := Boot(cut.boot, cut.marks, modulesOk, initOk, powerOk);
            && end.pc == BootDone
            && (next.stateOn <==> t.marks.file == FileOn && modulesOk && initOk && powerOk)
            && (t.marks.stateOn && modulesOk && initOk && powerOk ==> next.stateOn)
            && Run(radio, cut, BootSteps(radio, cut, modulesOk, initOk, powerOk)) == cut.(boot := end, marks := next)
  {
    RunKeeps(radio, PowerUp(file), es);
    var cut := PowerUp(Run(radio, PowerUp(file), es).marks.file);
    BootOutcome(cut.boot, cut.marks, modulesOk, initOk, powerOk);
    BootStepsAreBoot(radio, cut, modulesOk, initOk, powerOk);
  }

  // ---------------------------------------------------------------- the mark left behind

  /** The points at which a thread is switching on. */
  predicate SwitchingOn(pc: ControlPc) {
    pc.OnInit? || pc.OnPower? || pc.OnFailState? || pc.OnFailClear? || pc.OnFile? || pc.OnState? || pc.OnClear?
  }

  /** Whether a mark is left behind by a switch-on that gave up: set by a failed Wi-Fi initialisation, cleared by
      the next switch-on that gets past it. */
  predicate StuckNext(radio: Radio, s: RadioState, e: Event, was: bool) {
    if !e.ControlStep? then was
    else if s.pc == OnInit && radio.Wifi? && !e.ok then true
    else if s.pc == OnClear || s.pc == OnFailClear then false
    else was
  }

  predicate Stuck(radio: Radio, s: RadioState, es: seq<Event>, was: bool)
    decreases |es|
  {
    if es == [] then was else Stuck(radio, Step(radio, s, es[0]), es[1..], StuckNext(radio, s, es[0], was))
  }

  lemma MarkStep(radio: Radio, s: RadioState, e: Event, was: bool)
    requires Inv(s) && (s.marks.onIng <==> SwitchingOn(s.pc) || was)
    ensures var t := Step(radio, s, e);
            t.marks.onIng <==> SwitchingOn(t.pc) || StuckNext(radio, s, e, was)
  {
  }

  /** Over every run the mark says "switching on" exactly while a thread switches on or a mark is left behind. */
  lemma {:induction false} MarkExact(radio: Radio, s: RadioState, es: seq<Event>, was: bool)
    requires Inv(s) && (s.marks.onIng <==> SwitchingOn(s.pc) || was)
    ensures var t := Run(radio, s, es);
            t.marks.onIng <==> SwitchingOn(t.pc) || Stuck(radio, s, es, was)
    decreases |es|
  {
    if es != [] {
      MarkStep(radio, s, es[0], was);
      StepKeeps(radio, s, es[0]);
      MarkExact(radio, Step(radio, s, es[0]), es[1..], StuckNext(radio, s, es[0], was));
    }
  }

  lemma {:induction false} BluetoothNeverStuck(s: RadioState, es: seq<Event>)
    ensures !Stuck(Bluetooth, s, es, false)
    decreases |es|
  {
    if es != [] {
      BluetoothNeverStuck(Step(Bluetooth, s, es[0]), es[1..]);
    }
  }

  /** After any run from power-up that ends with no control thread running, a switch-off that starts then is
      refused exactly when a mark was left behind; for Bluetooth never. */
  lemma RestRefusesOffIff(radio: Radio, file: FileState, es: seq<Event>)
    requires Run(radio, PowerUp(file), es).pc == Rest
    ensures var t := Run(radio, PowerUp(file), es);
            && (ControlNext(radio, OffTest, t.marks, true) == Leave <==> Stuck(radio, PowerUp(file), es, false))
            && (radio.Bluetooth? ==> ControlNext(radio, OffTest, t.marks, true) == OffMark)
    ensures var t := Run(radio, PowerUp(file), es);
            t.page.waiting > 0 ==>
              (Step(radio, Step(radio, t, ThreadStart(false)), ControlStep(true)).pc == Leave
               <==> Stuck(radio, PowerUp(file), es, false))
  {
    MarkExact(radio, PowerUp(file), es, false);
    RunKeeps(radio, PowerUp(file), es);
    if radio.Bluetooth? {
      BluetoothNeverStuck(PowerUp(file), es);
    }
  }

  /** The marks a control thread leaves behind when it runs alone from here to its end. */
  function Alone(radio: Radio, pc: ControlPc, m: Marks, initOk: bool, powerOk: bool): Marks
    decreases ToGo(pc)
  {
    if pc == Rest then m
    else
      var ok := if pc == OnInit then initOk else powerOk;
      Alone(radio, ControlNext(radio, pc, m, ok), ControlWrite(pc, m), initOk, powerOk)
  }

  function ToGo(pc: ControlPc): nat {
    match pc
    case Rest => 0
    case Leave => 1
    case OnFailFile => 2
    case OnFailClear => 3
    case OnFailState => 4
    case OnClear => 2
    case OnState => 3
    case OnFile => 4
    case OnPower => 5
    case OnInit => 6
    case OnMark => 7
    case OnTest => 8
    case OffFile => 2
    case OffClear => 3
    case OffState => 4
    case OffPower => 5
    case OffMark => 6
    case OffTest => 7
  }

  /** The same, spelled out for every point. */
  function End(radio: Radio, pc: ControlPc, m: Marks, initOk: bool, powerOk: bool): Marks {
    match pc
    case Rest => m
    case Leave => m
    case OnTest => if m.offIng then m else EndInit(radio, m.(onIng := true), initOk, powerOk)
    case OnMark => EndInit(radio, m.(onIng := true), initOk, powerOk)
    case OnInit => EndInit(radio, m, initOk, powerOk)
    case OnPower => EndPower(m, powerOk)
    case OnFailState => Marks(FileOff, false, false, m.offIng)
    case OnFailClear => Marks(FileOff, m.stateOn, false, m.offIng)
    case OnFailFile => m.(file := FileOff)
    case OnFile => Marks(FileOn, true, false, m.offIng)
    case OnState => Marks(m.file, true, false, m.offIng)
    case OnClear => m.(onIng := false)
    case OffTest => if m.onIng then m else Marks(FileOff, false, false, false)
    case OffMark => Marks(FileOff, false, m.onIng, false)
    case OffPower => Marks(FileOff, false, m.onIng, false)
    case OffState => Marks(FileOff, false, m.onIng, false)
    case OffClear => Marks(FileOff, m.stateOn, m.onIng, false)
    case OffFile => m.(file := FileOff)
  }

  function EndPower(m: Marks, powerOk: bool): Marks {
    if powerOk then Marks(FileOn, true, false, m.offIng) else Marks(FileOff, false, false, m.offIng)
  }

  function EndInit(radio: Radio, m: Marks, initOk: bool, powerOk: bool): Marks {
    if radio.Wifi? && !initOk then m else EndPower(m, powerOk)
  }

  lemma EndStep(radio: Radio, pc: ControlPc, m: Marks, initOk: bool, powerOk: bool)
    requires pc != Rest
    ensures End(radio, pc, m, initOk, powerOk) ==
            End(radio, ControlNext(radio, pc, m, if pc == OnInit then initOk else powerOk), ControlWrite(pc, m),
                initOk, powerOk)
  {
  }

  lemma {:induction false} AloneEnds(radio: Radio, pc: ControlPc, m: Marks, initOk: bool, powerOk: bool)
    ensures Alone(radio, pc, m, initOk, powerOk) == End(radio, pc, m, initOk, powerOk)
    decreases ToGo(pc)
  {
    if pc != Rest {
      EndStep(radio, pc, m, initOk, powerOk);
      var ok := if pc == OnInit then initOk else powerOk;
      AloneEnds(radio, ControlNext(radio, pc, m, ok), ControlWrite(pc, m), initOk, powerOk);
    }
  }

  /** A switch-on of a radio at rest: the file and the flag agree at the end, and only a Wi-Fi radio whose library
      fails to initialise keeps the mark. */
  lemma OnOutcome(radio: Radio, m: Marks, initOk: bool, powerOk: bool)
    requires ControlInv(Rest, m)
    ensures Alone(radio, OnTest, m, initOk, powerOk) ==
            if radio.Wifi? && !initOk then m.(onIng := true)
            else Marks(if powerOk then FileOn else FileOff, powerOk, false, false)
  {
    AloneEnds(radio, OnTest, m, initOk, powerOk);
  }

  /** A switch-off of a radio at rest does nothing at all while the radio is marked "switching on". */
  lemma OffOutcome(radio: Radio, m: Marks)
    requires ControlInv(Rest, m)
    ensures Alone(radio, OffTest, m, true, true) == if m.onIng then m else Marks(FileOff, false, false, false)
  {
    AloneEnds(radio, OffTest, m, true, true);
  }

  /** After any switch-on of a radio at rest, a switch-off is refused, without a trace, exactly when the radio is
      Wi-Fi and its library failed to initialise; otherwise it leaves the radio off, in the file too. */
  lemma OffRefusedIff(radio: Radio, m: Marks, initOk: bool, powerOk: bool)
    requires ControlInv(Rest, m)
    ensures var tried := Alone(radio, OnTest, m, initOk, powerOk);
            && ControlInv(Rest, tried)
            && (tried.onIng <==> radio.Wifi? && !initOk)
            && (ControlNext(radio, OffTest, tried, true) == Leave <==> tried.onIng)
            && Alone(radio, OffTest, tried, true, true) ==
                 if radio.Wifi? && !initOk then tried else Marks(FileOff, false, false, false)
  {
    OnOutcome(radio, m, initOk, powerOk);
    OffOutcome(radio, Alone(radio, OnTest, m, initOk, powerOk));
  }

  // ---------------------------------------------------------------- the statics themselves

  /** The statics of the radio's page and its state file, with the control thread's body run start to end.
      `everUnsafe` says whether the marks were
      ever unsafe after a single write. */
  class RadioControl {
    const radio: Radio
    var file: FileState
    var stateOn: bool
    var onIng: bool
    var offIng: bool
    var controlRun: bool
    ghost var everUnsafe: bool

    ghost function View(): Marks
      reads `file, `stateOn, `onIng, `offIng
    {
      Marks(file, stateOn, onIng, offIng)
    }

    ghost predicate Quiet()
      reads this
    {
      !controlRun && ControlInv(Rest, View()) && !everUnsafe
    }

    constructor (r: Radio, f: FileState)
      ensures Quiet() && radio == r && View() == PowerUp(f).marks
    {
      radio, file, stateOn, onIng, offIng, controlRun, everUnsafe := r, f, false, false, false, false, false;
    }

    /** Looks at the marks just written. */
    ghost method Note()
      modifies `everUnsafe
      ensures everUnsafe == (old(everUnsafe) || !Safe(View()))
    {
      everUnsafe := everUnsafe || !Safe(View());
    }

    /** The end state is that of the step machine, and no single write on the way leaves unsafe marks. */
    method SwitchOn(initOk: bool, powerOk: bool)
      requires Quiet()
      modifies this
      ensures Quiet()
      ensures View() == Alone(radio, OnTest, old(View()), initOk, powerOk)
    {
      OnOutcome(radio, View(), initOk, powerOk);
      controlRun := true;
      if !offIng {
        onIng := true;
        Note();
        if radio.Wifi? && !initOk {
          controlRun := false;
          return;
        }
        if !powerOk {
          stateOn := false;
          Note();
          onIng := false;
          Note();
          file := FileOff;
          Note();
        } else {
          file := FileOn;
          Note();
          stateOn := true;
          Note();
          onIng := false;
          Note();
        }
      }
      controlRun := false;
    }

    method SwitchOff()
      requires Quiet()
      modifies this
      ensures Quiet()
      ensures View() == Alone(radio, OffTest, old(View()), true, true)
    {
      OffOutcome(radio, View());
      controlRun := true;
      if !onIng {
        TurnOff();
      }
      controlRun := false;
    }

    /** The writes of a switch-off, in order. */
    method TurnOff()
      requires !onIng && Safe(View()) && !everUnsafe
      modifies `file, `stateOn, `offIng, `everUnsafe
      ensures View() == Marks(FileOff, false, false, false) && !everUnsafe
    {
      offIng := true;
      Note();
      stateOn := false;
      Note();
      offIng := false;
      Note();
      file := FileOff;
      Note();
    }
  }
}
