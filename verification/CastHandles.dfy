/**
 The wireless cast globals, restricted to the two handles DLNA owns: the renderer and
 the AWD instance. Handles are numbered in order of creation; `rendersGone` and
 `awdsGone` record every destroy call.
 */
module CastHandles {
  import opened Common

  datatype Screen = Invalid | Listening | Miracast | Dlna | AirPlay

  /** What the environment answers during one init. */
  datatype InitEnv = InitEnv(network: bool, renderOk: bool, awdOk: bool)

  datatype Handles = Handles(render: Option<nat>, awd: Option<nat>)

  const NONE_HELD := Handles(None, None)

  datatype History = History(renders: nat, awds: nat, rendersGone: seq<nat>, awdsGone: seq<nat>)

  datatype Cast = Cast(present: bool, screen: Screen, initFlag: bool, stopFlag: bool, held: Handles, past: History)

  const BOOT := Cast(false, Invalid, false, false, NONE_HELD, History(0, 0, [], []))

  // ---------------------------------------------------------------- the operations

  function Destroy(held: Handles, past: History): History {
    past.(awdsGone := if held.awd.Some? then past.awdsGone + [held.awd.value] else past.awdsGone,
          rendersGone := if held.render.Some? then past.rendersGone + [held.render.value] else past.rendersGone)
  }

  /** Init clears the structure without looking at what it held. */
  function Init(s: Cast, env: InitEnv): Cast {
    var past := s.past;
    if !env.network then
      Cast(true, Invalid, false, false, NONE_HELD, past)
    else if !env.renderOk then
      Cast(false, Invalid, false, false, NONE_HELD, past)
    else if !env.awdOk then
      Cast(true, Invalid, false, false, NONE_HELD,
           past.(renders := past.renders + 1, rendersGone := past.rendersGone + [past.renders]))
    else
      Cast(true, Invalid, true, false, Handles(Some(past.renders), Some(past.awds)),
           past.(renders := past.renders + 1, awds := past.awds + 1))
  }

  function Exit(s: Cast): Cast {
    Cast(s.present, Invalid, false, false, NONE_HELD,
         if s.initFlag && !s.stopFlag then Destroy(s.held, s.past) else s.past)
  }

  /** The eviction thread, for the service the structure says is casting. */
  function Evict(s: Cast, caster: Screen): Cast {
    var t := s.(screen := caster);
    if (caster.Miracast? || caster.AirPlay?) && s.initFlag && !s.stopFlag then
      t.(stopFlag := true, held := NONE_HELD, past := Destroy(s.held, s.past))
    else t
  }

  function Reset(s: Cast, env: InitEnv): Cast {
    var t := Init(Exit(s), env);
    if t.present then t.(screen := Listening) else t
  }

  // ---------------------------------------------------------------- steps and runs

  datatype Event = OnInit(env: InitEnv) | OnExit | OnEvict(caster: Screen) | OnReset(env: InitEnv)

  /** All but init go through the structure and need it allocated. */
  predicate Enabled(s: Cast, e: Event) {
    e.OnInit? || s.present
  }

  function Step(s: Cast, e: Event): Cast {
    if !Enabled(s, e) then s
    else match e
      case OnInit(env) => Init(s, env)
      case OnExit => Exit(s)
      case OnEvict(caster) => Evict(s, caster)
      case OnReset(env) => Reset(s, env)
  }

  function Run(s: Cast, es: seq<Event>): Cast
    decreases |es|
  {
    if es == [] then s else Run(Step(s, es[0]), es[1..])
  }

  /** Handles 0..made-1 were made; the ones gone, each once, are all but the held one. */
  ghost predicate Accounted(made: nat, held: Option<nat>, gone: seq<nat>) {
    && (held.Some? ==> held.value < made)
    && forall i: nat :: multiset(gone)[i] == if i < made && held != Some(i) then 1 else 0
  }

  ghost predicate Inv(s: Cast) {
    && Accounted(s.past.renders, s.held.render, s.past.rendersGone)
    && Accounted(s.past.awds, s.held.awd, s.past.awdsGone)
    && (s.held != NONE_HELD ==> s.present && s.initFlag && !s.stopFlag)
  }

  /** Every renderer and every AWD made so far is held or was destroyed exactly once. */
  ghost predicate AllAccounted(s: Cast) {
    Accounted(s.past.renders, s.held.render, s.past.rendersGone) && Accounted(s.past.awds, s.held.awd, s.past.awdsGone)
  }

  lemma ExitKeeps(s: Cast)
    requires Inv(s)
    ensures Inv(Exit(s)) && Exit(s).held == NONE_HELD
  {
  }

  /** Init accounts for every handle exactly when none is held when it is called. */
  lemma InitKeepsIff(s: Cast, env: InitEnv)
    requires Inv(s)
    ensures Inv(Init(s, env)) <==> s.held == NONE_HELD
    ensures AllAccounted(Init(s, env)) <==> s.held == NONE_HELD
  {
    var t := Init(s, env);
    if s.held.render.Some? {
      assert multiset(t.past.rendersGone)[s.held.render.value] == 0;
    }
    if s.held.awd.Some? {
      assert multiset(t.past.awdsGone)[s.held.awd.value] == 0;
    }
  }

  /** Init makes a renderer and an AWD instance and holds both exactly when the network is up and both constructors
      work; otherwise it holds neither, and a renderer made without an AWD instance is destroyed again. */
  lemma InitHoldsIff(s: Cast, env: InitEnv)
    ensures var t := Init(s, env);
            && (t.held.render.Some? <==> env.network && env.renderOk && env.awdOk)
            && (t.held.awd.Some? <==> env.network && env.renderOk && env.awdOk)
            && (t.held.render.Some? ==> t.held == Handles(Some(s.past.renders), Some(s.past.awds)))
            && t.past.renders == s.past.renders + (if env.network && env.renderOk then 1 else 0)
            && t.past.awds == s.past.awds + (if env.network && env.renderOk && env.awdOk then 1 else 0)
            && t.past.rendersGone == s.past.rendersGone
                 + (if env.network && env.renderOk && !env.awdOk then [s.past.renders] else [])
            && t.past.awdsGone == s.past.awdsGone
            && (t.present <==> (env.network ==> env.renderOk)) && t.screen == Invalid && !t.stopFlag
            && (t.initFlag <==> env.network && env.renderOk && env.awdOk)
  {
  }

  /** Exit leaves the structure allocated and empty, and destroys nothing a second time; without a structure only
      init does anything. */
  lemma ExitEmpties(s: Cast, e: Event)
    ensures s.present ==> Step(s, OnExit) == Cast(true, Invalid, false, false, NONE_HELD, Step(s, OnExit).past)
    ensures s.stopFlag || !s.initFlag ==> Step(s, OnExit).past == s.past
    ensures !s.present && !e.OnInit? ==> Step(s, e) == s
  {
  }

  /** After a reset the old handles are destroyed, once. If it works there are new ones; and the module listens unless
      the renderer could not be made, which leaves no structure. */
  lemma ResetRenews(s: Cast, env: InitEnv)
    requires Inv(s) && s.present
    ensures var t := Step(s, OnReset(env));
            && Inv(t) && (t.present <==> (env.network ==> env.renderOk))
            && t.screen == (if t.present then Listening else Invalid)
            && t.held == (if env.network && env.renderOk && env.awdOk
                          then Handles(Some(s.past.renders), Some(s.past.awds)) else NONE_HELD)
            && (s.held.render.Some? ==> multiset(t.past.rendersGone)[s.held.render.value] == 1)
            && (s.held.awd.Some? ==> multiset(t.past.awdsGone)[s.held.awd.value] == 1)
  {
    StepKeepsIff(s, OnReset(env));
  }

  /** An event loses a handle exactly when it is an init that meets a held one. */
  lemma StepKeepsIff(s: Cast, e: Event)
    requires Inv(s)
    ensures Inv(Step(s, e)) <==> (e.OnInit? ==> s.held == NONE_HELD)
    ensures AllAccounted(Step(s, e)) <==> (e.OnInit? ==> s.held == NONE_HELD)
  {
    if Enabled(s, e) {
      match e
      case OnInit(env) => InitKeepsIff(s, env);
      case OnExit => ExitKeeps(s);
      case OnEvict(_) =>
      case OnReset(env) =>
        ExitKeeps(s);
        InitKeepsIff(Exit(s), env);
    }
  }

  /** Every init of the run finds no handle held. */
  predicate InitsFindNone(s: Cast, es: seq<Event>)
    decreases |es|
  {
    es == [] || ((es[0].OnInit? ==> s.held == NONE_HELD) && InitsFindNone(Step(s, es[0]), es[1..]))
  }

  ghost predicate AlwaysAccounted(s: Cast, es: seq<Event>) {
    forall k | 0 <= k <= |es| :: AllAccounted(Run(s, es[..k]))
  }

  lemma {:induction false} RunKeeps(s: Cast, es: seq<Event>)
    requires Inv(s) && InitsFindNone(s, es)
    ensures Inv(Run(s, es))
    decreases |es|
  {
    if es != [] {
      StepKeepsIff(s, es[0]);
      RunKeeps(Step(s, es[0]), es[1..]);
    }
  }

  /** From one event to every moment of the run. */
  lemma AlwaysNext(s: Cast, es: seq<Event>)
    requires es != [] && AllAccounted(s)
    ensures AlwaysAccounted(s, es) <==> AlwaysAccounted(Step(s, es[0]), es[1..])
  {
    var next, rest := Step(s, es[0]), es[1..];
    forall k | 0 < k <= |es|
      ensures Run(s, es[..k]) == Run(next, rest[..k - 1])
    {
      assert es[..k][1..] == rest[..k - 1];
    }
    if AlwaysAccounted(s, es) {
      forall k | 0 <= k <= |rest|
        ensures AllAccounted(Run(next, rest[..k]))
      {
        assert AllAccounted(Run(s, es[..k + 1]));
      }
    }
  }

  lemma {:induction false} AccountedIff(s: Cast, es: seq<Event>)
    requires Inv(s)
    ensures AlwaysAccounted(s, es) <==> InitsFindNone(s, es)
    decreases |es|
  {
    if es != [] {
      var next := Step(s, es[0]);
      StepKeepsIff(s, es[0]);
      AlwaysNext(s, es);
      if es[0].OnInit? && s.held != NONE_HELD {
        assert Run(next, es[1..][..0]) == next;
      } else {
        AccountedIff(next, es[1..]);
      }
    }
  }

  /** Over any run of init, eviction, exit and reset, in any order and failing or not: every handle ever made is
      held or was destroyed exactly once, at every moment, if and only if no init meets a held handle. */
  lemma EveryHandleOnceIff(es: seq<Event>)
    ensures AlwaysAccounted(BOOT, es) <==> InitsFindNone(BOOT, es)
  {
    AccountedIff(BOOT, es);
  }

  lemma {:induction false} RunSnoc(s: Cast, es: seq<Event>, e: Event)
    ensures Run(s, es + [e]) == Step(Run(s, es), e)
    decreases |es|
  {
    if es == [] {
      assert Run(s, [e]) == Run(Step(s, e), [e][1..]);
    } else {
      assert (es + [e])[1..] == es[1..] + [e];
      RunSnoc(Step(s, es[0]), es[1..], e);
    }
  }

  /** After any exit of such a run, however often repeated, every handle ever made was destroyed exactly once. */
  lemma ExitLeavesNone(es: seq<Event>)
    requires InitsFindNone(BOOT, es)
    ensures var t := Run(BOOT, es + [OnExit]);
            && t.held == NONE_HELD
            && (forall i: nat :: multiset(t.past.rendersGone)[i] == if i < t.past.renders then 1 else 0)
            && (forall i: nat :: multiset(t.past.awdsGone)[i] == if i < t.past.awds then 1 else 0)
  {
    RunKeeps(BOOT, es);
    RunSnoc(BOOT, es, OnExit);
    ExitKeeps(Run(BOOT, es));
  }

  /** The orders in which the pages call: an init only when an exit came after the last init or reset. Exits may
      repeat, evictions and resets may come late. */
  predicate InitAfterExit(open: bool, es: seq<Event>)
    decreases |es|
  {
    es == [] || ((es[0].OnInit? ==> !open)
                 && InitAfterExit(es[0].OnInit? || es[0].OnReset? || (open && !es[0].OnExit?), es[1..]))
  }

  /** Such orders never meet a held handle. */
  lemma {:induction false} PagesFindNone(s: Cast, open: bool, es: seq<Event>)
    requires Inv(s) && (!open ==> s.held == NONE_HELD) && InitAfterExit(open, es)
    ensures InitsFindNone(s, es)
    decreases |es|
  {
    if es != [] {
      StepKeepsIff(s, es[0]);
      PagesFindNone(Step(s, es[0]), es[0].OnInit? || es[0].OnReset? || (open && !es[0].OnExit?), es[1..]);
    }
  }

  /** Evicting others on behalf of DLNA touches neither handle; evicting DLNA destroys both. */
  lemma EvictionSparesDlna(s: Cast, caster: Screen)
    requires Inv(s) && s.present
    ensures var t := Step(s, OnEvict(caster));
            && (!caster.Miracast? && !caster.AirPlay? ==> t.held == s.held && t.past == s.past)
            && (caster.Miracast? || caster.AirPlay? ==> t.held == NONE_HELD)
            && t.past.renders == s.past.renders && t.past.awds == s.past.awds
            && t.screen == caster && t.present && t.initFlag == s.initFlag
            && (t.stopFlag <==> s.stopFlag || (s.initFlag && (caster.Miracast? || caster.AirPlay?)))
  {
  }

  // ---------------------------------------------------------------- the globals themselves

  /** The DLNA part of the cast globals; the history is ghost. */
  class AwCast {
    var present: bool
    var state: Screen
    var dlnaInitFlag: bool
    var dlnaStop: bool
    var render: Option<nat>
    var awd: Option<nat>
    var renders: nat
    var awds: nat
    ghost var rendersGone: seq<nat>
    ghost var awdsGone: seq<nat>

    ghost function Past(): History
      reads `renders, `awds, `rendersGone, `awdsGone
    {
      History(renders, awds, rendersGone, awdsGone)
    }

    ghost function View(): Cast
      reads this
    {
      Cast(present, state, dlnaInitFlag, dlnaStop, Handles(render, awd), Past())
    }

    constructor ()
      ensures View() == BOOT
    {
      present, state, dlnaInitFlag, dlnaStop := false, Invalid, false, false;
      render, awd, renders, awds := None, None, 0, 0;
      rendersGone, awdsGone := [], [];
    }

    method InitCast(env: InitEnv)
      modifies this
      ensures View() == Init(old(View()), env)
    {
      present := true;
      state, dlnaStop, render, awd := Invalid, false, None, None;
      dlnaInitFlag := false;
      if env.network {
        MakeRender(env.renderOk);
        if render.None? {
          present := false;
          return;
        }
        MakeAwd(env.awdOk);
        if awd.None? {
          rendersGone := rendersGone + [render.value];
          render := None;
          return;
        }
        dlnaInitFlag := true;
      }
      state := Invalid;
    }

    /** The renderer's constructor. */
    method MakeRender(ok: bool)
      modifies `render, `renders
      ensures render == (if ok then Some(old(renders)) else None)
      ensures renders == old(renders) + if ok then 1 else 0
    {
      render := None;
      if ok {
        render := Some(renders);
        renders := renders + 1;
      }
    }

    /** The AWD constructor. */
    method MakeAwd(ok: bool)
      modifies `awd, `awds
      ensures awd == (if ok then Some(old(awds)) else None)
      ensures awds == old(awds) + if ok then 1 else 0
    {
      awd := None;
      if ok {
        awd := Some(awds);
        awds := awds + 1;
      }
    }

    method DestroyHandles()
      modifies `render, `awd, `rendersGone, `awdsGone
      ensures render.None? && awd.None?
      ensures Past() == Destroy(Handles(old(render), old(awd)), old(Past()))
    {
      if awd.Some? {
        awdsGone := awdsGone + [awd.value];
        awd := None;
      }
      if render.Some? {
        rendersGone := rendersGone + [render.value];
        render := None;
      }
    }

    method ExitCast()
      modifies this
      ensures View() == Exit(old(View()))
    {
      if dlnaInitFlag {
        if !dlnaStop {
          DestroyHandles();
        }
      }
      dlnaInitFlag := false;
      state, dlnaStop, render, awd := Invalid, false, None, None;
    }

    method RemoveThread(caster: Screen)
      modifies this
      ensures View() == Evict(old(View()), caster)
    {
      state := caster;
      if !(caster.Miracast? || caster.Dlna? || caster.AirPlay?) {
        return;
      }
      if caster != Dlna {
        if dlnaInitFlag {
          if !dlnaStop {
            dlnaStop := true;
            DestroyHandles();
          }
        }
      }
    }

    method ResetThread(env: InitEnv)
      modifies this
      ensures View() == Reset(old(View()), env)
    {
      ExitCast();
      InitCast(env);
      if present {
        state := Listening;
      }
    }
  }
}
