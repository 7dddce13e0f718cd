/** The template trigger as the object the automation holds: the armed flag, the single
    waiting fire, the clock and the calls made so far are fields that its methods update
    in place. Each method is proved to perform exactly the transition of `TriggerSpec`, so
    every property proved there holds of the object. */
module TriggerRuntime {
  import opened Wrappers
  import opened Rendering
  import opened Duration
  import opened TriggerSpec

  class TriggerEngine {
    const config: Config
    var attached: bool
    var armed: bool
    var pending: Option<Pending>
    var now: nat
    var fired: seq<Invocation>
    var log: seq<Report>

    /** The object's state as a value of the state machine. */
    function State(): TriggerState
      reads this
    {
      TriggerState(attached, armed, pending, now, fired, log)
    }

    ghost predicate Valid()
      reads this
    {
      Consistent(State())
    }

    /** Registration: attach the trigger and take the registration-time evaluation as the
        baseline, without firing. */
    constructor Register(cfg: Config, initial: Rendered, start: nat)
      ensures Valid() && config == cfg
      ensures State() == Attach(initial, start)
      ensures fired == [] && pending.None?
    {
      config := cfg;
      attached := true;
      armed := !initial.RenderError? && !IsTrue(initial);
      pending := None;
      now := start;
      fired := [];
      log := if initial.RenderError? then [PredicateUnrendered] else [];
    }

    /** The template tracker reports a new result of the predicate, caused by `change`
        (or by the clock, when `change` is none); `render` renders the `for` templates. */
    method OnEvaluation(r: Rendered, change: Option<StateChange>, render: Tmpl -> Rendered)
      requires Valid()
      modifies this
      ensures Valid()
      ensures State() == Evaluate(config, old(State()), r, change, render)
      ensures |fired| > |old(fired)| <==> old(attached) && old(armed) && IsTrue(r) && ImmediateDwell(config, render)
    {
      ghost var s := State();
      if !attached {
        return;
      }
      if r.RenderError? {
        assert Evaluate(config, s, r, change, render) == s.(log := s.log + [PredicateUnrendered]);
        log := log + [PredicateUnrendered];
        return;
      }
      if !IsTrue(r) {
        assert Evaluate(config, s, r, change, render) == s.(armed := true, pending := None);
        pending := None;
        armed := true;
        return;
      }
      if !armed {
        return;
      }
      FireOnEdge(r, change, render);
    }

    /** A true result while armed: disarm, then fire now, schedule the fire or log an unresolved dwell. */
    method FireOnEdge(r: Rendered, change: Option<StateChange>, render: Tmpl -> Rendered)
      requires Valid() && attached && armed && !r.RenderError? && IsTrue(r)
      modifies this
      ensures Valid()
      ensures State() == Evaluate(config, old(State()), r, change, render)
    {
      ghost var s := State();
      armed := false;
      pending := None;
      ghost var disarmed := s.(armed := false, pending := None);
      match config.dwell {
        case None =>
          assert Evaluate(config, s, r, change, render) == disarmed.(fired := s.fired + [Payload(change, None)]);
          fired := fired + [Payload(change, None)];
          assert State() == disarmed.(fired := s.fired + [Payload(change, None)]);
        case Some(spec) =>
          var d := ResolveFor(spec, render);
          if d.None? {
            assert Evaluate(config, s, r, change, render) == disarmed.(log := s.log + [DwellUnresolved]);
            log := log + [DwellUnresolved];
            assert State() == disarmed.(log := s.log + [DwellUnresolved]);
          } else if d.value == 0 {
            assert Evaluate(config, s, r, change, render) == disarmed.(fired := s.fired + [Payload(change, Some(0))]);
            fired := fired + [Payload(change, Some(0))];
            assert State() == disarmed.(fired := s.fired + [Payload(change, Some(0))]);
          } else {
            assert Evaluate(config, s, r, change, render) ==
              disarmed.(pending := Some(Pending(s.now + d.value, Payload(change, Some(d.value)))));
            pending := Some(Pending(now + d.value, Payload(change, Some(d.value))));
            assert State() == disarmed.(pending := Some(Pending(s.now + d.value, Payload(change, Some(d.value)))));
          }
      }
    }

    /** The clock moves `dt` seconds ahead; a waiting fire whose deadline is reached fires. */
    method AdvanceTime(dt: nat)
      requires Valid()
      modifies this
      ensures Valid()
      ensures State() == Advance(old(State()), dt)
      ensures old(pending).Some? && old(pending).value.deadline <= now ==> fired == old(fired) + [old(pending).value.payload]
    {
      now := now + dt;
      if pending.Some? && pending.value.deadline <= now {
        fired := fired + [pending.value.payload];
        pending := None;
      }
    }

    /** The automation is turned off: stop listening and cancel the waiting fire. */
    method Unregister()
      requires Valid()
      modifies this
      ensures Valid()
      ensures State() == Detach(old(State()))
    {
      attached := false;
      pending := None;
    }
  }
}
