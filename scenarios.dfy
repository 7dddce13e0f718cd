/** The template trigger tests replayed against `TriggerRuntime.TriggerEngine`.

    Every test starts with `test.entity` in state `hello`. A test's state change is a call
    of `OnEvaluation` with what the `value_template` renders after that change; a
    simulated time change is a call of `AdvanceTime`; turning the automation off is
    `Unregister`. Each method returns the calls the action received, and its
    postcondition states what the test asserts about them. */
module TriggerScenarios {
  import opened Wrappers
  import opened Rendering
  import opened Duration
  import opened TriggerSpec
  import opened TriggerRuntime

  const Entity: string := "test.entity"

  /** The renderer for tests whose `for` holds no template. */
  function NoTemplates(t: Tmpl): Rendered {
    RenderError
  }

  /** The renderer of the `for` templates of the tests: `{{ 5 }}` renders the integer 5,
      `00:00:{{ 5 }}` the text `00:00:5`, and `{{ five }}` (an undefined name) fails. */
  function ForTemplates(t: Tmpl): Rendered {
    if t == Tmpl("{{ 5 }}") then Num(5)
    else if t == Tmpl("00:00:{{ 5 }}") then Str("00:00:5")
    else RenderError
  }

  function Hello(context: nat): Snapshot {
    Snapshot(Entity, "hello", context)
  }

  /** `test.entity` changes from `from` to `to` under the context with id `context`. */
  function SetState(from: string, to: string, context: nat): Option<StateChange> {
    Some(StateChange(Entity, Some(Snapshot(Entity, from, 0)), Some(Snapshot(Entity, to, context))))
  }

  function Plain(valueTemplate: string): Config {
    Config(Tmpl(valueTemplate), None)
  }

  function WithFor(spec: ForSpec): Config {
    Config(Tmpl("{{ is_state('test.entity', 'world') }}"), Some(spec))
  }

  /** A trigger without `for` registered on a false baseline makes exactly one call when
      the predicate then renders a true value `r`. */
  method FireOnTrueResult(cfg: Config, r: Rendered, change: Option<StateChange>) returns (calls: seq<Invocation>)
    requires cfg.dwell.None? && IsTrue(r)
    ensures calls == [Payload(change, None)]
  {
    var t := new TriggerEngine.Register(cfg, Bool(false), 0);
    t.OnEvaluation(r, change, NoTemplates);
    calls := t.fired;
  }

  /** A predicate that renders the same value `r` at registration and on every later change
      never fires, whatever `r` is: a true baseline leaves the trigger disarmed, a false one
      arms it without a true edge, and a failed render changes nothing. */
  method SameResultThroughout(cfg: Config, r: Rendered, changes: seq<Option<StateChange>>) returns (calls: seq<Invocation>)
    ensures calls == []
  {
    var t := new TriggerEngine.Register(cfg, r, 0);
    var i := 0;
    while i < |changes|
      invariant 0 <= i <= |changes|
      invariant t.Valid() && t.attached && t.fired == []
      invariant IsTrue(r) || r.RenderError? ==> !t.armed
    {
      t.OnEvaluation(r, changes[i], NoTemplates);
      i := i + 1;
    }
    calls := t.fired;
  }

  /** tests/components/template/test_trigger.py:37-68 and 317-335: a boolean result fires
      once on its true-going edge; after the automation is turned off nothing more fires. */
  method FiresOnBoolChange() returns (calls: seq<Invocation>)
    ensures |calls| == 1
  {
    var t := new TriggerEngine.Register(Plain("{{ states.test.entity.state == 'world' and true }}"), Bool(false), 0);
    assert |t.fired| == 0;
    t.OnEvaluation(Bool(true), SetState("hello", "world", 1), NoTemplates);
    assert |t.fired| == 1;
    t.Unregister();
    t.OnEvaluation(Bool(false), SetState("world", "planet", 2), NoTemplates);
    calls := t.fired;
  }

  /** tests/components/template/test_trigger.py:71-91: the text `true` fires. */
  method FiresOnTrueText() returns (calls: seq<Invocation>)
    ensures |calls| == 1
  {
    TrueTestValues();
    calls := FireOnTrueResult(Plain("{{ states.test.entity.state == 'world' and 'true' }}"), Str("true"), SetState("hello", "world", 1));
  }

  /** tests/components/template/test_trigger.py:94-112: the text `TrUE` fires too. */
  method FiresOnMixedCaseTrueText() returns (calls: seq<Invocation>)
    ensures |calls| == 1
  {
    TrueTestValues();
    calls := FireOnTrueResult(Plain("{{ states.test.entity.state == 'world' and 'TrUE' }}"), Str("TrUE"), SetState("hello", "world", 1));
  }

  /** tests/components/template/test_trigger.py:115-135 and 269-287: a predicate already
      true at registration does not fire, then or on a later true result. */
  method NoFireWhenTrueAtSetup() returns (calls: seq<Invocation>)
    ensures calls == []
  {
    calls := SameResultThroughout(Plain("{{ states.test.entity.state == 'hello' }}"), Bool(true), [SetState("hello", "hello", 1)]);
  }

  /** tests/components/template/test_trigger.py:138-173: the registration-time evaluation
      sees the trigger variables, so it is true and does not fire; the trigger fires only
      after the entity went to `goodbye` and back to `hello`. */
  method NoFireAtSetupWithVariables() returns (calls: seq<Invocation>)
    ensures |calls| == 1 && calls[0].toState == Some(Hello(3))
  {
    var t := new TriggerEngine.Register(Plain("{{ is_state(entity|default('test.entity2'), 'hello') }}"), Bool(true), 0);
    t.OnEvaluation(Bool(true), SetState("hello", "hello", 1), NoTemplates);
    assert t.fired == [];
    t.OnEvaluation(Bool(false), SetState("hello", "goodbye", 2), NoTemplates);
    assert t.fired == [];
    t.OnEvaluation(Bool(true), SetState("goodbye", "hello", 3), NoTemplates);
    calls := t.fired;
  }

  /** tests/components/template/test_trigger.py:176-206: `84 / number == 42`. The number 2
      fires; 0 makes the render fail, which is swallowed and is not a false, so going back
      to 2 does not fire again. */
  method RenderErrorIsSwallowed() returns (calls: seq<Invocation>)
    ensures |calls| == 1
  {
    var t := new TriggerEngine.Register(Plain("{{ 84 / states.test.number.state|int == 42 }}"), Bool(false), 0);
    t.OnEvaluation(Bool(true), Some(StateChange("test.number", None, Some(Snapshot("test.number", "2", 1)))), NoTemplates);
    assert |t.fired| == 1;
    t.OnEvaluation(RenderError, Some(StateChange("test.number", None, Some(Snapshot("test.number", "0", 2)))), NoTemplates);
    assert |t.fired| == 1;
    t.OnEvaluation(Bool(true), Some(StateChange("test.number", None, Some(Snapshot("test.number", "2", 3)))), NoTemplates);
    calls := t.fired;
  }

  /** tests/components/template/test_trigger.py:209-227: a predicate that renders `false`
      never fires. */
  method NoFireOnFalse() returns (calls: seq<Invocation>)
    ensures calls == []
  {
    calls := SameResultThroughout(Plain("{{ states.test.entity.state == 'world' and false }}"), Bool(false), [SetState("hello", "world", 1)]);
  }

  /** tests/components/template/test_trigger.py:230-245: the plain template `true` is true at
      registration already, so the next true result does not fire. */
  method NoFireOnConstantTrue() returns (calls: seq<Invocation>)
    ensures calls == []
  {
    calls := SameResultThroughout(Plain("true"), Str("true"), [SetState("hello", "world", 1)]);
  }

  /** tests/components/template/test_trigger.py:248-266: a template whose text is not `true`
      does not fire. */
  method NoFireOnOtherText() returns (calls: seq<Invocation>)
    ensures calls == []
  {
    calls := SameResultThroughout(Plain("{{ 'Anything other than true is false.' }}"), Str("Anything other than true is false."), [SetState("hello", "world", 1)]);
  }

  /** tests/components/template/test_trigger.py:338-358: a predicate that is true at
      registration and turns false does not fire. */
  method NoFireOnFallingEdge() returns (calls: seq<Invocation>)
    ensures calls == []
  {
    var t := new TriggerEngine.Register(Plain("{{ is_state('test.entity', 'hello') }}"), Bool(true), 0);
    t.OnEvaluation(Bool(false), SetState("hello", "world", 1), NoTemplates);
    calls := t.fired;
  }

  /** tests/components/template/test_trigger.py:401-429: a template whose text renders
      `false` after changes to `worldz` and `hello` does not fire. */
  method NoFireOnFalseText() returns (calls: seq<Invocation>)
    ensures calls == []
  {
    calls := SameResultThroughout(Plain("{%- if is_state('test.entity', 'world') -%} true {%- else -%} false {%- endif -%}"), Str("false"), [SetState("hello", "worldz", 1), SetState("worldz", "hello", 2)]);
  }

  /** tests/components/template/test_trigger.py:525-543: a predicate on an undefined name
      fails to render on every change and never fires. */
  method NoFireOnUndefinedName() returns (calls: seq<Invocation>)
    ensures calls == []
  {
    calls := SameResultThroughout(Plain("{{ xyz | round(0) }}"), RenderError, [SetState("hello", "world", 1)]);
  }

  /** tests/components/template/test_trigger.py:290-314: a second true result without a
      false in between does not fire again. */
  method NoRefireOnRepeatedTrue() returns (calls: seq<Invocation>)
    ensures |calls| == 1
  {
    var t := new TriggerEngine.Register(Plain("{{ states.test.entity.state == 'world' }}"), Bool(false), 0);
    t.OnEvaluation(Bool(true), SetState("hello", "world", 1), NoTemplates);
    t.OnEvaluation(Bool(true), SetState("world", "world", 2), NoTemplates);
    calls := t.fired;
  }

  /** tests/components/template/test_trigger.py:432-472: `not is_state('test.entity', 'world')`
      through hello (registration), world, home, work, not_home, world, home fires twice,
      at the two changes from world to home. */
  method FiresOnEachRisingEdge() returns (calls: seq<Invocation>)
    ensures |calls| == 2
    ensures calls[0].toState == Some(Snapshot(Entity, "home", 2))
    ensures calls[1].toState == Some(Snapshot(Entity, "home", 6))
  {
    var t := new TriggerEngine.Register(Plain("{{ not is_state('test.entity', 'world') }}"), Bool(true), 0);
    t.OnEvaluation(Bool(false), SetState("hello", "world", 1), NoTemplates);
    assert |t.fired| == 0;
    t.OnEvaluation(Bool(true), SetState("world", "home", 2), NoTemplates);
    assert |t.fired| == 1;
    t.OnEvaluation(Bool(true), SetState("home", "work", 3), NoTemplates);
    t.OnEvaluation(Bool(true), SetState("work", "not_home", 4), NoTemplates);
    assert |t.fired| == 1;
    t.OnEvaluation(Bool(false), SetState("not_home", "world", 5), NoTemplates);
    assert |t.fired| == 1;
    t.OnEvaluation(Bool(true), SetState("world", "home", 6), NoTemplates);
    calls := t.fired;
  }

  /** tests/components/template/test_trigger.py:361-398 and 546-591: the call carries
      platform `template`, the entity, from-state `hello`, to-state `world`, no `for`, and
      the context of the change as its parent; the entity going back to `hello` while the
      action runs leaves the recorded to-state at `world`. */
  method FirePayload() returns (calls: seq<Invocation>)
    ensures calls == [Invocation("template", Some(Entity), Some(Hello(0)), Some(Snapshot(Entity, "world", 7)), None, Some(7))]
  {
    var t := new TriggerEngine.Register(Plain("{{ is_state('test.entity', 'world') }}"), Bool(false), 0);
    t.OnEvaluation(Bool(true), SetState("hello", "world", 7), NoTemplates);
    t.OnEvaluation(Bool(false), Some(StateChange(Entity, Some(Snapshot(Entity, "world", 7)), Some(Hello(8)))), NoTemplates);
    calls := t.fired;
  }

  /** tests/components/template/test_trigger.py:594-660 and 726-765: with `for` of five
      seconds, given as `{"seconds": 5}` or as `5`, nothing fires at the change; ten seconds
      later one call fires with `for` = 5, the to-state `world` and the change's context. */
  method DwellFiresAfterFiveSeconds() returns (atChange: seq<Invocation>, units: seq<Invocation>, plain: seq<Invocation>)
    ensures atChange == []
    ensures units == plain == [Invocation("template", Some(Entity), Some(Hello(0)), Some(Snapshot(Entity, "world", 7)), Some(5), Some(7))]
  {
    var t := new TriggerEngine.Register(WithFor(Units(Fixed(0), Fixed(0), Fixed(0), Fixed(5))), Bool(false), 0);
    t.OnEvaluation(Bool(true), SetState("hello", "world", 7), NoTemplates);
    atChange := t.fired;
    t.AdvanceTime(10);
    units := t.fired;
    var u := new TriggerEngine.Register(WithFor(Seconds(5)), Bool(false), 0);
    u.OnEvaluation(Bool(true), SetState("hello", "world", 7), NoTemplates);
    assert u.fired == [];
    u.AdvanceTime(10);
    plain := u.fired;
  }

  /** tests/components/template/test_trigger.py:663-723: `for` of zero seconds fires at the
      change itself, with `for` = 0. */
  method ZeroDwellFiresAtOnce() returns (calls: seq<Invocation>)
    ensures calls == [Invocation("template", Some(Entity), Some(Hello(0)), Some(Snapshot(Entity, "world", 7)), Some(0), Some(7))]
  {
    var t := new TriggerEngine.Register(WithFor(Units(Fixed(0), Fixed(0), Fixed(0), Fixed(0))), Bool(false), 0);
    t.OnEvaluation(Bool(true), SetState("hello", "world", 7), NoTemplates);
    calls := t.fired;
  }

  /** tests/components/template/test_trigger.py:768-796: the entity goes back to `hello`
      four seconds into a five-second dwell; at six seconds nothing has fired. */
  method RevertCancelsWaitingFire() returns (calls: seq<Invocation>)
    ensures calls == []
  {
    var t := new TriggerEngine.Register(WithFor(Units(Fixed(0), Fixed(0), Fixed(0), Fixed(5))), Bool(false), 0);
    t.OnEvaluation(Bool(true), SetState("hello", "world", 1), NoTemplates);
    t.AdvanceTime(4);
    assert t.fired == [] && t.pending.Some?;
    t.OnEvaluation(Bool(false), SetState("world", "hello", 2), NoTemplates);
    t.AdvanceTime(2);
    calls := t.fired;
  }

  /** tests/components/template/test_trigger.py:799-831: the automation is turned off four
      seconds into a five-second dwell; at six seconds nothing has fired. */
  method TurnOffCancelsWaitingFire() returns (calls: seq<Invocation>)
    ensures calls == []
  {
    var t := new TriggerEngine.Register(WithFor(Units(Fixed(0), Fixed(0), Fixed(0), Fixed(5))), Bool(false), 0);
    t.OnEvaluation(Bool(true), SetState("hello", "world", 1), NoTemplates);
    t.AdvanceTime(4);
    t.Unregister();
    t.AdvanceTime(2);
    calls := t.fired;
  }

  /** tests/components/template/test_trigger.py:834-906: `for` given as
      `{"seconds": "{{ 5 }}"}`, `"{{ 5 }}"` or `"00:00:{{ 5 }}"` waits five seconds too:
      nothing at the change, one call with `for` = 5 ten seconds later. */
  method TemplatedDwellForms() returns (field: seq<Invocation>, whole: seq<Invocation>, clock: seq<Invocation>)
    ensures |field| == |whole| == |clock| == 1
    ensures field[0].dwell == whole[0].dwell == clock[0].dwell == Some(5)
  {
    FiveSecondForms(ForTemplates);
    var a := new TriggerEngine.Register(WithFor(Units(Fixed(0), Fixed(0), Fixed(0), Templated(Tmpl("{{ 5 }}")))), Bool(false), 0);
    a.OnEvaluation(Bool(true), SetState("hello", "world", 1), ForTemplates);
    assert a.fired == [];
    a.AdvanceTime(10);
    field := a.fired;
    var b := new TriggerEngine.Register(WithFor(Whole(Tmpl("{{ 5 }}"))), Bool(false), 0);
    b.OnEvaluation(Bool(true), SetState("hello", "world", 1), ForTemplates);
    assert b.fired == [];
    b.AdvanceTime(10);
    whole := b.fired;
    var c := new TriggerEngine.Register(WithFor(Whole(Tmpl("00:00:{{ 5 }}"))), Bool(false), 0);
    c.OnEvaluation(Bool(true), SetState("hello", "world", 1), ForTemplates);
    assert c.fired == [];
    c.AdvanceTime(10);
    clock := c.fired;
  }

  /** tests/components/template/test_trigger.py:909-929: `{"seconds": "{{ five }}"}` does
      not render; an error is logged and no fire is scheduled. */
  method UnrenderableDwellIsLogged() returns (calls: seq<Invocation>, log: seq<Report>, waiting: bool)
    ensures calls == [] && DwellUnresolved in log && !waiting
  {
    var t := new TriggerEngine.Register(WithFor(Units(Fixed(0), Fixed(0), Fixed(0), Templated(Tmpl("{{ five }}")))), Bool(false), 0);
    t.OnEvaluation(Bool(true), SetState("hello", "world", 1), ForTemplates);
    calls, log, waiting := t.fired, t.log, t.pending.Some?;
  }

  /** tests/components/template/test_trigger.py:932-984: `utcnow().minute % 2 == 0`,
      re-evaluated on time changes at minutes 1 (registration), 2, 4, 5 and 8: fires at
      minute 2 and again at 8, with no entity and no states. */
  method FiresOnTimeChange() returns (calls: seq<Invocation>)
    ensures |calls| == 2
    ensures forall k :: 0 <= k < |calls| ==> calls[k].entityId.None? && calls[k].toState.None?
  {
    var t := new TriggerEngine.Register(Plain("{{ utcnow().minute % 2 == 0 }}"), Bool(false), 60);
    t.AdvanceTime(60);
    t.OnEvaluation(Bool(true), None, NoTemplates);
    assert |t.fired| == 1;
    t.AdvanceTime(120);
    t.OnEvaluation(Bool(true), None, NoTemplates);
    assert |t.fired| == 1;
    t.AdvanceTime(60);
    t.OnEvaluation(Bool(false), None, NoTemplates);
    t.AdvanceTime(180);
    t.OnEvaluation(Bool(true), None, NoTemplates);
    calls := t.fired;
  }

  /** tests/components/template/test_trigger.py:510-522: a `value_template` that does not
      parse (`{{ ` is unterminated) is refused at registration. */
  method BrokenTemplateRejected() returns (r: Result<Config, SetupError>)
    ensures r == Err(TemplateSyntax)
  {
    r := CheckConfig(Plain("{{ "), (t: Tmpl) => t.source != "{{ ");
  }
}
