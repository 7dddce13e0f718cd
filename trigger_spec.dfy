/** The template trigger as a state machine over values: what one evaluation of the
    watched predicate, one advance of the clock and the removal of the trigger each do
    to the trigger's state, and what follows for whole runs of them.

    The trigger fires its action when the predicate goes from not-true to true. With a
    `for` dwell it fires only once the predicate has stayed true for that long; a revert
    to false, or the removal of the trigger, cancels the wait. `TriggerRuntime` holds
    the same machine as an object whose methods update its fields. */
module TriggerSpec {
  import opened Wrappers
  import opened Rendering
  import opened Duration

  /** The platform name every invocation carries. */
  const PlatformTag: string := "template"

  /** A state object of the state machine: entity, state value, and the id of the
      context that caused it. Immutable once observed. */
  datatype Snapshot = Snapshot(entityId: string, state: string, context: nat)

  /** A state-changed event: the entity and its old and new state (either may be absent). */
  datatype StateChange = StateChange(entityId: string, oldState: Option<Snapshot>, newState: Option<Snapshot>)

  /** The `trigger` data handed to the action. `parentContext` is the id of the context the
      action runs under as its parent, taken from the to-state. */
  datatype Invocation = Invocation(
    platform: string,
    entityId: Option<string>,
    fromState: Option<Snapshot>,
    toState: Option<Snapshot>,
    dwell: Option<nat>,
    parentContext: Option<nat>)

  /** A trigger's configuration: its `value_template` and its optional `for`. */
  datatype Config = Config(valueTemplate: Tmpl, dwell: Option<ForSpec>)

  /** The delayed fire waiting for its deadline. */
  datatype Pending = Pending(deadline: nat, payload: Invocation)

  /** What the trigger reports to the log. */
  datatype Report = PredicateUnrendered | DwellUnresolved

  /** `armed`: the predicate has been seen not-true since the last fire (or since setup).
      `pending`: the single delayed fire, if any. `now`: the clock, in seconds.
      `fired`: the invocations handed to the action so far, in order. */
  datatype TriggerState = TriggerState(
    attached: bool,
    armed: bool,
    pending: Option<Pending>,
    now: nat,
    fired: seq<Invocation>,
    log: seq<Report>)

  /** Why registration refuses a configuration. */
  datatype SetupError = TemplateSyntax | InvalidDwell

  /** One evaluation of the predicate: what it rendered to, and the state change that
      caused it (none when a clock tick caused it). */
  datatype Observation = Observation(result: Rendered, change: Option<StateChange>)

  /** The invariant every reachable state keeps: an armed trigger waits for nothing, and
      a waiting fire belongs to an attached trigger and lies in the future. */
  predicate Consistent(s: TriggerState): (ok: bool)
    ensures ok && s.pending.Some? ==> !s.armed
    ensures ok && !s.attached ==> s.pending.None?
  {
    (s.armed ==> s.pending.None?) &&
    (s.pending.Some? ==> s.attached && s.now < s.pending.value.deadline)
  }

  /** The rendered value counts as a verdict and that verdict is false. A failed render is no verdict. */
  predicate IsFalse(r: Rendered) {
    !r.RenderError? && !IsTrue(r)
  }

  /** The trigger data for a fire caused by `change`. */
  function Payload(change: Option<StateChange>, dwell: Option<nat>): (p: Invocation)
    ensures p.platform == PlatformTag && p.dwell == dwell
    ensures change.None? ==> p.entityId.None? && p.fromState.None? && p.toState.None? && p.parentContext.None?
    ensures change.Some? ==>
      p.entityId == Some(change.value.entityId) && p.fromState == change.value.oldState && p.toState == change.value.newState
    ensures p.parentContext.Some? <==> p.toState.Some?
    ensures p.toState.Some? ==> p.parentContext == Some(p.toState.value.context)
  {
    match change
    case None => Invocation(PlatformTag, None, None, None, dwell, None)
    case Some(c) =>
      Invocation(PlatformTag, Some(c.entityId), c.oldState, c.newState, dwell,
        if c.newState.Some? then Some(c.newState.value.context) else None)
  }

  /** Registration-time validation: the `value_template` and every template in `for` must
      parse (`parses` is the template engine's syntax check), and a `for` without templates
      must stand for a non-negative duration. */
  function CheckConfig(cfg: Config, parses: Tmpl -> bool): (r: Result<Config, SetupError>)
    ensures r.Ok? ==> r.value == cfg
    ensures !parses(cfg.valueTemplate) ==> r == Err(TemplateSyntax)
    ensures cfg.dwell.Some? && (exists t :: t in Templates(cfg.dwell.value) && !parses(t)) ==> r.Err?
    ensures r.Ok? <==>
      (parses(cfg.valueTemplate) &&
       (cfg.dwell.Some? ==> (forall t :: t in Templates(cfg.dwell.value) ==> parses(t)) &&
                            (IsStatic(cfg.dwell.value) ==> ResolveFor(cfg.dwell.value, _ => RenderError).Some?)))
  {
    if !parses(cfg.valueTemplate) then Err(TemplateSyntax)
    else
      match cfg.dwell
      case None => Ok(cfg)
      case Some(spec) =>
        if exists t :: t in Templates(spec) && !parses(t) then Err(TemplateSyntax)
        else if IsStatic(spec) && ResolveFor(spec, _ => RenderError).None? then Err(InvalidDwell)
        else Ok(cfg)
  }

  /** The evaluation at registration: it records the baseline and never fires. The trigger is
      armed only when the predicate is already not-true; a failed render leaves it unarmed. */
  function Attach(initial: Rendered, start: nat): (s: TriggerState)
    ensures Consistent(s) && s.attached
    ensures s.fired == [] && s.pending.None? && s.now == start
    ensures s.armed <==> IsFalse(initial)
  {
    TriggerState(true, IsFalse(initial), None, start, [],
      if initial.RenderError? then [PredicateUnrendered] else [])
  }

  /** One evaluation of the predicate.
      - removed trigger: nothing happens;
      - failed render: logged, nothing else changes (it does not count as false);
      - false: any waiting fire is cancelled and the trigger is armed;
      - true while unarmed: nothing happens, a waiting fire keeps its deadline;
      - true while armed: the trigger disarms and, depending on `for`, fires now (no `for`,
        or a dwell of zero), schedules a fire `for` seconds ahead, or, when `for` does not
        resolve, logs an error and schedules nothing. */
  function Evaluate(cfg: Config, s: TriggerState, r: Rendered, change: Option<StateChange>,
                    render: Tmpl -> Rendered): (s': TriggerState)
    ensures Consistent(s) ==> Consistent(s')
    ensures s'.now == s.now && s'.attached == s.attached
    ensures |s.fired| <= |s'.fired| <= |s.fired| + 1 && s'.fired[..|s.fired|] == s.fired
    ensures |s'.fired| > |s.fired| <==> s.attached && s.armed && IsTrue(r) && ImmediateDwell(cfg, render)
  {
    if !s.attached then s
    else if r.RenderError? then s.(log := s.log + [PredicateUnrendered])
    else if !IsTrue(r) then s.(armed := true, pending := None)
    else if !s.armed then s
    else
      var disarmed := s.(armed := false, pending := None);
      match cfg.dwell
      case None => disarmed.(fired := s.fired + [Payload(change, None)])
      case Some(spec) =>
        match ResolveFor(spec, render)
        case None => disarmed.(log := s.log + [DwellUnresolved])
        case Some(d) =>
          if d == 0 then disarmed.(fired := s.fired + [Payload(change, Some(0))])
          else disarmed.(pending := Some(Pending(s.now + d, Payload(change, Some(d)))))
  }

  /** The clock moves `dt` seconds ahead; a waiting fire whose deadline is reached fires. */
  function Advance(s: TriggerState, dt: nat): (s': TriggerState)
    ensures Consistent(s) ==> Consistent(s')
    ensures s'.now == s.now + dt && s'.armed == s.armed && s'.attached == s.attached && s'.log == s.log
  {
    var t := s.now + dt;
    match s.pending
    case Some(p) =>
      if p.deadline <= t then s.(now := t, pending := None, fired := s.fired + [p.payload])
      else s.(now := t)
    case None => s.(now := t)
  }

  /** Removal of the trigger (the automation is turned off): a waiting fire is cancelled. */
  function Detach(s: TriggerState): (s': TriggerState)
    ensures Consistent(s) ==> Consistent(s')
    ensures !s'.attached && s'.pending.None? && s'.fired == s.fired
    ensures s'.armed == s.armed && s'.now == s.now && s'.log == s.log
  {
    s.(attached := false, pending := None)
  }

  /** The dwell resolves to zero or there is none: a true-going edge fires at once. */
  predicate ImmediateDwell(cfg: Config, render: Tmpl -> Rendered) {
    cfg.dwell.None? || ResolveFor(cfg.dwell.value, render) == Some(0)
  }

  /** One step of the trigger's life after registration. */
  datatype Step = Eval(obs: Observation) | Tick(dt: nat) | Off

  /** Any interleaving of evaluations, clock advances and removals, one after another. */
  function RunSteps(cfg: Config, s: TriggerState, steps: seq<Step>, render: Tmpl -> Rendered): TriggerState
    decreases |steps|
  {
    if steps == [] then s
    else
      var p := RunSteps(cfg, s, steps[..|steps| - 1], render);
      match steps[|steps| - 1]
      case Eval(o) => Evaluate(cfg, p, o.result, o.change, render)
      case Tick(dt) => Advance(p, dt)
      case Off => Detach(p)
  }

  /** A run of evaluations, one after another. */
  function RunEvals(cfg: Config, s: TriggerState, obs: seq<Observation>, render: Tmpl -> Rendered): TriggerState
    decreases |obs|
  {
    if obs == [] then s
    else
      var last := obs[|obs| - 1];
      Evaluate(cfg, RunEvals(cfg, s, obs[..|obs| - 1], render), last.result, last.change, render)
  }

  /** A run of clock advances, one after another. */
  function RunTicks(s: TriggerState, ticks: seq<nat>): TriggerState
    decreases |ticks|
  {
    if ticks == [] then s else Advance(RunTicks(s, ticks[..|ticks| - 1]), ticks[|ticks| - 1])
  }

  function Total(ticks: seq<nat>): nat
    decreases |ticks|
  {
    if ticks == [] then 0 else Total(ticks[..|ticks| - 1]) + ticks[|ticks| - 1]
  }

  /** The verdicts a run of evaluations gives, failed renders left out. */
  function Verdicts(obs: seq<Observation>): seq<bool>
    decreases |obs|
  {
    if obs == [] then []
    else
      var last := obs[|obs| - 1];
      Verdicts(obs[..|obs| - 1]) + (if last.result.RenderError? then [] else [IsTrue(last.result)])
  }

  /** The number of places where a false verdict is directly followed by a true one. */
  function RisingEdges(bs: seq<bool>): nat
    decreases |bs|
  {
    if |bs| < 2 then 0
    else RisingEdges(bs[..|bs| - 1]) + (if !bs[|bs| - 2] && bs[|bs| - 1] then 1 else 0)
  }

  /** Every state reachable from registration, by any interleaving of evaluations, clock
      advances and removals, keeps the invariant: an armed trigger waits for nothing, and a
      waiting fire belongs to an attached trigger and lies in the future. */
  lemma {:induction false} ReachableStatesConsistent(cfg: Config, initial: Rendered, start: nat,
                                                     steps: seq<Step>, render: Tmpl -> Rendered)
    ensures Consistent(RunSteps(cfg, Attach(initial, start), steps, render))
    decreases |steps|
  {
    if steps != [] {
      ReachableStatesConsistent(cfg, initial, start, steps[..|steps| - 1], render);
    }
  }

  /** One evaluation of an attached trigger with nothing waiting and an immediate dwell: a
      failed render leaves the flag and the calls alone; a verdict sets the flag to "armed"
      exactly when it is false, and adds one call exactly on an armed true verdict. */
  lemma EdgeStep(cfg: Config, p: TriggerState, o: Observation, render: Tmpl -> Rendered)
    requires p.attached && p.pending.None? && ImmediateDwell(cfg, render)
    ensures var q := Evaluate(cfg, p, o.result, o.change, render);
      q.attached && q.pending.None? && q.fired[..|p.fired|] == p.fired &&
      (o.result.RenderError? ==> q.armed == p.armed && q.fired == p.fired) &&
      (!o.result.RenderError? ==>
        q.armed == !IsTrue(o.result) &&
        |q.fired| == |p.fired| + (if p.armed && IsTrue(o.result) then 1 else 0))
  {
  }

  /** One more observation extends the verdicts by its own verdict, or not at all for a failed
      render, and adds a rising edge exactly when a false verdict is followed by a true one. */
  lemma VerdictStep(first: bool, obs: seq<Observation>)
    requires obs != []
    ensures var before := [first] + Verdicts(obs[..|obs| - 1]);
      var vs := [first] + Verdicts(obs);
      var r := obs[|obs| - 1].result;
      (r.RenderError? ==> vs == before) &&
      (!r.RenderError? ==>
        vs[|vs| - 1] == IsTrue(r) &&
        RisingEdges(vs) == RisingEdges(before) + (if !before[|before| - 1] && IsTrue(r) then 1 else 0))
  {
    var before := [first] + Verdicts(obs[..|obs| - 1]);
    var vs := [first] + Verdicts(obs);
    var r := obs[|obs| - 1].result;
    if !r.RenderError? {
      assert vs == before + [IsTrue(r)];
      assert vs[..|vs| - 1] == before;
    }
  }

  /** The main edge-trigger property. With no dwell (or a dwell of zero), a run of
      evaluations fires exactly once per false-to-true edge of its verdicts, the verdict
      before the run being "false" exactly when the trigger is armed. Failed renders are
      skipped, so they neither break nor make an edge. */
  lemma {:induction false} FiresOncePerRisingEdge(cfg: Config, s: TriggerState, obs: seq<Observation>,
                                                  render: Tmpl -> Rendered)
    requires s.attached && s.pending.None?
    requires ImmediateDwell(cfg, render)
    ensures var s' := RunEvals(cfg, s, obs, render);
      var vs := [!s.armed] + Verdicts(obs);
      s'.attached && s'.pending.None? && s'.armed == !vs[|vs| - 1] &&
      |s'.fired| == |s.fired| + RisingEdges(vs) && s'.fired[..|s.fired|] == s.fired
    decreases |obs|
  {
    if obs != [] {
      var prefix := obs[..|obs| - 1];
      var last := obs[|obs| - 1];
      FiresOncePerRisingEdge(cfg, s, prefix, render);
      var p := RunEvals(cfg, s, prefix, render);
      EdgeStep(cfg, p, last, render);
      VerdictStep(!s.armed, obs);
      var q := RunEvals(cfg, s, obs, render);
      assert q == Evaluate(cfg, p, last.result, last.change, render);
      assert q.fired[..|s.fired|] == q.fired[..|p.fired|][..|s.fired|];
    }
  }

  /** Without an intervening false verdict the trigger never fires again: once unarmed, any
      run of true verdicts and failed renders leaves the fires, the waiting fire and its
      deadline exactly as they were, whatever the `for`. */
  lemma {:induction false} NoRefireWithoutFalse(cfg: Config, s: TriggerState, obs: seq<Observation>,
                                                render: Tmpl -> Rendered)
    requires !s.armed
    requires forall k :: 0 <= k < |obs| ==> !IsFalse(obs[k].result)
    ensures var s' := RunEvals(cfg, s, obs, render);
      !s'.armed && s'.fired == s.fired && s'.pending == s.pending && s'.now == s.now
  {
    if obs != [] {
      NoRefireWithoutFalse(cfg, s, obs[..|obs| - 1], render);
      assert !IsFalse(obs[|obs| - 1].result);
    }
  }

  /** The evaluation at registration never fires, even when the predicate is already true:
      with a true baseline, no run of true verdicts and failed renders fires. */
  lemma TrueAtSetupNeverFires(cfg: Config, initial: Rendered, start: nat, obs: seq<Observation>,
                              render: Tmpl -> Rendered)
    requires IsTrue(initial) || initial.RenderError?
    requires forall k :: 0 <= k < |obs| ==> !IsFalse(obs[k].result)
    ensures RunEvals(cfg, Attach(initial, start), obs, render).fired == []
  {
    NoRefireWithoutFalse(cfg, Attach(initial, start), obs, render);
  }

  /** A failed render is not a false: it changes nothing but the log of an attached trigger
      (and nothing at all once the trigger is removed); after a fire, failed renders followed
      by a true verdict do not fire again. */
  lemma ErrorIsNotFalse(cfg: Config, s: TriggerState, change: Option<StateChange>, r: Rendered,
                        change2: Option<StateChange>, render: Tmpl -> Rendered)
    ensures var e := Evaluate(cfg, s, RenderError, change, render);
      e == (if s.attached then s.(log := s.log + [PredicateUnrendered]) else s) &&
      (!s.armed ==> Evaluate(cfg, e, r, change2, render).fired == s.fired)
  {
  }

  /** An immediate fire hands the action the trigger data of the change that caused it:
      platform `template`, the entity, its from- and to-state, `for` as configured (none,
      or zero), and the to-state's context as parent. */
  lemma ImmediateFirePayload(cfg: Config, s: TriggerState, r: Rendered, c: StateChange,
                             render: Tmpl -> Rendered)
    requires s.attached && s.armed && IsTrue(r) && ImmediateDwell(cfg, render)
    ensures var s' := Evaluate(cfg, s, r, Some(c), render);
      s'.fired == s.fired + [Invocation(PlatformTag, Some(c.entityId), c.oldState, c.newState,
                                        if cfg.dwell.None? then None else Some(0),
                                        if c.newState.Some? then Some(c.newState.value.context) else None)] &&
      !s'.armed && s'.pending.None?
  {
  }

  /** With a dwell of `d > 0`, a true-going edge fires nothing yet: it disarms the trigger
      and schedules one fire `d` seconds ahead carrying the causing change's data and `for = d`. */
  lemma ArmOnRisingEdge(cfg: Config, s: TriggerState, r: Rendered, change: Option<StateChange>,
                        render: Tmpl -> Rendered, d: nat)
    requires s.attached && s.armed && IsTrue(r)
    requires cfg.dwell.Some? && ResolveFor(cfg.dwell.value, render) == Some(d) && d > 0
    ensures var s' := Evaluate(cfg, s, r, change, render);
      s'.fired == s.fired && !s'.armed && s'.pending == Some(Pending(s.now + d, Payload(change, Some(d))))
  {
  }

  /** A waiting fire fires exactly once, at the first advance that reaches its deadline,
      and not before: after any run of advances the fires gained are its payload if the
      clock reached the deadline and nothing otherwise. */
  lemma {:induction false} PendingFiresOnceAtDeadline(s: TriggerState, ticks: seq<nat>)
    requires s.pending.Some? && s.now < s.pending.value.deadline
    ensures var s' := RunTicks(s, ticks);
      var reached := s.now + Total(ticks) >= s.pending.value.deadline;
      s'.now == s.now + Total(ticks) &&
      s'.fired == s.fired + (if reached then [s.pending.value.payload] else []) &&
      s'.pending == (if reached then None else s.pending)
  {
    if ticks != [] {
      var prefix := ticks[..|ticks| - 1];
      PendingFiresOnceAtDeadline(s, prefix);
      assert Total(ticks) == Total(prefix) + ticks[|ticks| - 1];
      assert RunTicks(s, ticks) == Advance(RunTicks(s, prefix), ticks[|ticks| - 1]);
    }
  }

  /** With nothing waiting, advancing the clock fires nothing. */
  lemma {:induction false} IdleTicksNeverFire(s: TriggerState, ticks: seq<nat>)
    requires s.pending.None?
    ensures var s' := RunTicks(s, ticks);
      s'.fired == s.fired && s'.pending.None? && s'.now == s.now + Total(ticks)
  {
    if ticks != [] {
      IdleTicksNeverFire(s, ticks[..|ticks| - 1]);
    }
  }

  /** The dwell property end to end: after a true-going edge with a dwell of `d > 0`, any
      run of advances yields exactly one fire, carrying `for = d` and the data of the change
      that armed it, if the clock moved at least `d` seconds, and no fire otherwise. */
  lemma DwellFiresOnceAfterD(cfg: Config, s: TriggerState, r: Rendered, change: Option<StateChange>,
                             render: Tmpl -> Rendered, d: nat, ticks: seq<nat>)
    requires s.attached && s.armed && IsTrue(r)
    requires cfg.dwell.Some? && ResolveFor(cfg.dwell.value, render) == Some(d) && d > 0
    ensures RunTicks(Evaluate(cfg, s, r, change, render), ticks).fired ==
      s.fired + (if Total(ticks) >= d then [Payload(change, Some(d))] else [])
  {
    ArmOnRisingEdge(cfg, s, r, change, render, d);
    PendingFiresOnceAtDeadline(Evaluate(cfg, s, r, change, render), ticks);
  }

  /** The seconds a run of steps moves the clock. */
  function Elapsed(steps: seq<Step>): nat
    decreases |steps|
  {
    if steps == [] then 0
    else Elapsed(steps[..|steps| - 1]) + (match steps[|steps| - 1] case Tick(dt) => dt case _ => 0)
  }

  /** The dwell property with the predicate re-evaluated while the fire waits: as long as no
      evaluation is false and the trigger stays attached, any interleaving of evaluations and
      clock advances fires the waiting call exactly once, when the clock reaches its deadline,
      and not at all before. */
  lemma {:induction false} DwellFiresOnceWhileTrue(cfg: Config, s: TriggerState, steps: seq<Step>,
                                                   render: Tmpl -> Rendered)
    requires Consistent(s) && s.pending.Some?
    requires forall k :: 0 <= k < |steps| ==> steps[k].Tick? || (steps[k].Eval? && !IsFalse(steps[k].obs.result))
    ensures var s' := RunSteps(cfg, s, steps, render);
      var reached := s.now + Elapsed(steps) >= s.pending.value.deadline;
      !s'.armed && s'.attached && s'.now == s.now + Elapsed(steps) &&
      s'.fired == s.fired + (if reached then [s.pending.value.payload] else []) &&
      s'.pending == (if reached then None else s.pending)
    decreases |steps|
  {
    if steps != [] {
      DwellFiresOnceWhileTrue(cfg, s, steps[..|steps| - 1], render);
    }
  }

  /** A revert to false before the deadline cancels the waiting fire: no run of advances
      afterwards fires anything. */
  lemma RevertCancelsDwell(cfg: Config, s: TriggerState, r: Rendered, change: Option<StateChange>,
                           render: Tmpl -> Rendered, ticks: seq<nat>)
    requires s.attached && IsFalse(r)
    ensures var s' := Evaluate(cfg, s, r, change, render);
      s'.armed && RunTicks(s', ticks).fired == s.fired
  {
    IdleTicksNeverFire(Evaluate(cfg, s, r, change, render), ticks);
  }

  /** Removing the trigger cancels the waiting fire and stops all evaluation: afterwards no
      run of evaluations and advances fires anything. */
  lemma {:induction false} DetachedNeverFires(cfg: Config, s: TriggerState, obs: seq<Observation>,
                                              render: Tmpl -> Rendered, ticks: seq<nat>)
    ensures RunEvals(cfg, Detach(s), obs, render) == Detach(s)
    ensures RunTicks(RunEvals(cfg, Detach(s), obs, render), ticks).fired == s.fired
  {
    if obs != [] {
      DetachedNeverFires(cfg, s, obs[..|obs| - 1], render, ticks);
    }
    IdleTicksNeverFire(Detach(s), ticks);
  }

  /** A `for` that does not resolve arms nothing and fires nothing; the error is logged and
      the trigger is left unarmed, so it takes a false verdict before the next edge. */
  lemma UnresolvedDwellArmsNothing(cfg: Config, s: TriggerState, r: Rendered, change: Option<StateChange>,
                                   render: Tmpl -> Rendered)
    requires s.attached && s.armed && IsTrue(r)
    requires cfg.dwell.Some? && ResolveFor(cfg.dwell.value, render).None?
    ensures var s' := Evaluate(cfg, s, r, change, render);
      s'.fired == s.fired && s'.pending.None? && !s'.armed && s'.log == s.log + [DwellUnresolved]
  {
  }

  /** A `for` without templates that registration accepted resolves on every evaluation,
      so such a trigger never logs an unresolved dwell. */
  lemma AcceptedStaticDwellResolves(cfg: Config, parses: Tmpl -> bool, render: Tmpl -> Rendered)
    requires CheckConfig(cfg, parses).Ok?
    requires cfg.dwell.Some? && IsStatic(cfg.dwell.value)
    ensures ResolveFor(cfg.dwell.value, render).Some?
  {
    StaticIgnoresRenderer(cfg.dwell.value, render, _ => RenderError);
  }
}
