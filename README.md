# Template trigger

A model of the Home Assistant **template trigger**, the automation trigger with platform `template`.
It watches a predicate written as a template (`value_template`) and fires the automation's action
when the predicate goes from not-true to true. With a `for` dwell, it fires only once the predicate
has stayed true for that long. A revert to false, or turning the automation off, cancels the wait.
The implementation module is not part of this model. The behaviour modelled is the behaviour that
`tests/components/template/test_trigger.py` asserts, scenario by scenario.

The project has six modules:

- `Rendering` (`rendering.dfy`) covers what a render of the predicate yields (`Rendered`) and the
  truthiness rule `IsTrue`. A value is true when it is a native `true`, or text that reads `true`
  in any letter case once surrounding whitespace is stripped, as Python's `str.strip()` does.
- `Duration` (`duration.dfy`) resolves a `for` specification to whole seconds. A `for` may be a
  number, a clock text `H:MM[:SS]`, a mapping of days, hours, minutes and seconds whose values may
  be templates, or one template for the whole duration.
- `TriggerSpec` (`trigger_spec.dfy`) is the trigger as a state machine over values:
  - `Attach` is registration, including its baseline evaluation;
  - `Evaluate` is one evaluation of the predicate;
  - `Advance` moves the clock;
  - `Detach` turns the automation off.

  The theorems about whole runs of these steps are in the same module.
- `TriggerRuntime` (`trigger_engine.dfy`) holds the class `TriggerEngine`. It keeps the armed flag,
  the single waiting fire, the clock, the calls made and the log as fields that its methods update
  in place. Each method is proved to perform exactly the matching `TriggerSpec` transition.
- `TriggerScenarios` (`scenarios.dfy`) replays the tests against `TriggerEngine`. Each method's
  postcondition is what its test asserts about the calls the action received.
- `Wrappers` (`wrappers.dfy`) defines `Option` and `Result`.

The template engine is outside the model:

- The predicate's result is passed to `OnEvaluation` as a `Rendered` value.
- Templates inside `for` are rendered through a `render: Tmpl -> Rendered` parameter.
- The syntax check at registration is a `parses: Tmpl -> bool` parameter.

Time is a natural-number clock in seconds that the caller advances explicitly.

## Model

| member | source | states |
|---|---|---|
| `Rendering.IsTrue` | tests/components/template/test_trigger.py:37-112 | Only a native boolean or text can be true. A native boolean is true exactly when it is `true`. Text shorter than four characters is never true, and a failed render is never true. |
| `Rendering.StrTruthIff` | tests/components/template/test_trigger.py:71-112 | Text is true if and only if it is a spelling of `true` in any letter case with only whitespace around it. |
| `Rendering.TrueTextShape` | tests/components/template/test_trigger.py:71-112 | The "only if" half of the text truthiness rule: true text has the shape "whitespace, a spelling of `true`, whitespace". |
| `Rendering.ShapedTextIsTrue` | tests/components/template/test_trigger.py:94-112 | The "if" half: any letter case of `true` with whitespace around it is true. |
| `Rendering.TrueTestValues` | tests/components/template/test_trigger.py:71-112 | These rendered values are true: native `true`, the text `true`, and the text `TrUE`. |
| `Rendering.NotTrueTestValues` | tests/components/template/test_trigger.py:209-429 | The values the non-firing tests render are not true: native `false` (209-227), the text `Anything other than true is false.` (248-266) and the text `false` (401-429), plus a failed render. |
| `Rendering.UnpaddedOtherLengthNotTrue` | tests/components/template/test_trigger.py:248-266 | Text that is not padded with whitespace and is not four characters long is never true. |
| `Duration.ParseNatRoundTrip` | tests/components/template/test_trigger.py:884-906 | Reading a number back from its decimal spelling gives the number. |
| `Duration.JoinSplit` | tests/components/template/test_trigger.py:884-906 | Splitting a clock text at its colons and joining the pieces with colons gives the text back. |
| `Duration.ParsePeriod` | tests/components/template/test_trigger.py:884-906 | Text without a colon is read as a bare number of seconds. Text that parses is non-empty and made only of digits and colons. |
| `Duration.ParsePeriodClock` | tests/components/template/test_trigger.py:884-906 | `H:M:S`, with runs of digits for each part, is `3600*H + 60*M + S` seconds. Leading zeros are allowed. |
| `Duration.ParsePeriodBareSeconds` | tests/components/template/test_trigger.py:859-881 | Text holding just a number of seconds reads as that many seconds. This is the path of a `for` written as digit text, and of a whole-`for` template whose renderer yields digit text; the `{{ 5 }}` of this test renders the number 5 in the model and resolves through the number path of `Duration.ResolveFor` instead. |
| `Duration.ClockRoundTrip` | tests/components/template/test_trigger.py:884-906 | The clock text built from any hours, minutes and seconds reads back as their total in seconds. |
| `Duration.ClockTextFiveSeconds` | tests/components/template/test_trigger.py:884-906 | `00:00:5`, the text `"00:00:{{ 5 }}"` renders to, stands for five seconds. |
| `Duration.FiveSecondForms` | tests/components/template/test_trigger.py:594-906 | `{"seconds": 5}`, `5`, `{"seconds": "{{ 5 }}"}`, `"{{ 5 }}"` and `"00:00:{{ 5 }}"` each resolve to five seconds. |
| `Duration.StaticIgnoresRenderer` | tests/components/template/test_trigger.py:594-616 | A `for` without templates resolves the same whatever the template engine does. |
| `Duration.ResolveFor` | tests/components/template/test_trigger.py:594-929 | A bare number resolves exactly when it is non-negative, and to itself. A clock text that resolves holds only digits and colons. A `for` does not resolve when any one of its templates fails to render (909-929). |
| `Duration.SecondsOnly` | tests/components/template/test_trigger.py:594-616 | A mapping that gives only seconds resolves to the value of its seconds, if that is non-negative. |
| `TriggerSpec.Payload` | tests/components/template/test_trigger.py:361-398 | The trigger data has: platform `template`; the entity, from-state and to-state of the change that caused the fire; `for` as resolved; and the to-state's context as the parent. A clock-caused fire has no entity and no states. |
| `TriggerSpec.Consistent` | tests/components/template/test_trigger.py:594-831 | In a consistent state, a waiting fire means the trigger is disarmed, and a removed trigger waits for nothing. |
| `TriggerSpec.CheckConfig` | tests/components/template/test_trigger.py:510-522 | Registration accepts a configuration if and only if its `value_template` and every `for` template parse, and a template-free `for` stands for a duration. An accepted configuration is returned unchanged. A `value_template` that does not parse is refused as a syntax error. |
| `TriggerSpec.Attach` | tests/components/template/test_trigger.py:115-173 | Registration fires nothing and waits for nothing. The trigger is armed exactly when the baseline evaluation is a false verdict. |
| `TriggerSpec.Evaluate` | tests/components/template/test_trigger.py:37-314 | One evaluation keeps the state consistent and adds at most one call, keeping the earlier calls. It adds a call exactly when the trigger is attached and armed, the result is true, and the dwell is absent or zero. |
| `TriggerSpec.Advance` | tests/components/template/test_trigger.py:594-660 | Advancing the clock keeps the state consistent. It moves the clock by exactly the given seconds and leaves the armed flag, the attachment and the log as they were. |
| `TriggerSpec.Detach` | tests/components/template/test_trigger.py:799-831 | Turning the automation off keeps the state consistent, cancels the waiting fire and keeps the calls made; the armed flag, the clock and the log are unchanged. |
| `TriggerSpec.ReachableStatesConsistent` | tests/components/template/test_trigger.py:594-831 | Every state reached from registration by any interleaving of evaluations, clock advances and removals is consistent: an armed trigger waits for nothing, and a waiting fire belongs to an attached trigger and lies in the future. |
| `TriggerSpec.EdgeStep` | tests/components/template/test_trigger.py:290-314 | With nothing waiting and an immediate dwell, one evaluation works as follows. A failed render keeps the flag and the calls. A verdict arms the trigger exactly when it is false, and adds one call exactly on an armed true verdict. |
| `TriggerSpec.FiresOncePerRisingEdge` | tests/components/template/test_trigger.py:432-472 | Without a dwell, a run of evaluations makes exactly one call per false-to-true edge of its verdicts. The baseline counts as a verdict and failed renders are skipped. |
| `TriggerSpec.NoRefireWithoutFalse` | tests/components/template/test_trigger.py:290-314 | Once disarmed, a run of true results and failed renders changes neither the calls nor the waiting fire. |
| `TriggerSpec.TrueAtSetupNeverFires` | tests/components/template/test_trigger.py:115-173 | A true (or failed) baseline followed by true results and failed renders never fires. |
| `TriggerSpec.ErrorIsNotFalse` | tests/components/template/test_trigger.py:176-206 | A failed render changes nothing but the log of an attached trigger, and nothing at all once the trigger is removed. On a disarmed trigger, an error followed by a true result adds no call. |
| `TriggerSpec.ImmediateFirePayload` | tests/components/template/test_trigger.py:361-398 | An immediate fire appends exactly the change's trigger data, with `for` none (or zero when configured), and disarms the trigger. |
| `TriggerSpec.ArmOnRisingEdge` | tests/components/template/test_trigger.py:594-660 | With a dwell of d > 0, a true-going edge makes no call. It schedules one fire, d seconds ahead, carrying the change's data and `for` = d. |
| `TriggerSpec.PendingFiresOnceAtDeadline` | tests/components/template/test_trigger.py:594-660 | Over any run of clock advances, a waiting fire fires exactly once if the clock reaches its deadline, and not at all otherwise. |
| `TriggerSpec.IdleTicksNeverFire` | tests/components/template/test_trigger.py:768-796 | With nothing waiting, no run of clock advances fires. |
| `TriggerSpec.DwellFiresOnceAfterD` | tests/components/template/test_trigger.py:619-660 | After a true-going edge with dwell d > 0, any run of advances of at least d seconds in total gives exactly one call, carrying `for` = d and the arming change's data. A shorter run gives no call. |
| `TriggerSpec.DwellFiresOnceWhileTrue` | tests/components/template/test_trigger.py:594-660 | While a fire waits, any interleaving of clock advances and evaluations that are not false leaves the trigger disarmed and attached and moves the clock by the sum of the advances (`TriggerSpec.Elapsed`). It fires the waiting call exactly once when that sum reaches the deadline, and not at all before. |
| `TriggerSpec.RevertCancelsDwell` | tests/components/template/test_trigger.py:768-796 | A false result re-arms the trigger and cancels the waiting fire, so no later advance fires. |
| `TriggerSpec.DetachedNeverFires` | tests/components/template/test_trigger.py:799-831 | After the automation is turned off, evaluations change nothing and no evaluations or advances fire. |
| `TriggerSpec.UnresolvedDwellArmsNothing` | tests/components/template/test_trigger.py:909-929 | A `for` that does not resolve logs an error, schedules nothing, fires nothing, and disarms the trigger. |
| `TriggerSpec.AcceptedStaticDwellResolves` | tests/components/template/test_trigger.py:594-616 | A template-free `for` that registration accepted resolves on every evaluation. |
| `TriggerRuntime.TriggerEngine.Register` | tests/components/template/test_trigger.py:115-173 | The new object is in the state `Attach` gives: attached, nothing fired or waiting, and armed only on a false baseline. |
| `TriggerRuntime.TriggerEngine.OnEvaluation` | tests/components/template/test_trigger.py:37-314 | The fields change exactly as `Evaluate` says, and the state stays consistent. A call is added exactly on an armed true edge with an immediate dwell. |
| `TriggerRuntime.TriggerEngine.FireOnEdge` | tests/components/template/test_trigger.py:594-760 | On a true result while armed, the fields change exactly as `Evaluate` says: the trigger disarms, then fires at once with no dwell or a dwell of zero, schedules the fire at now + d for a dwell d > 0, or logs an unresolved dwell. |
| `TriggerRuntime.TriggerEngine.AdvanceTime` | tests/components/template/test_trigger.py:594-660 | The fields change exactly as `Advance` says. A waiting fire whose deadline is reached is appended to the calls. |
| `TriggerRuntime.TriggerEngine.Unregister` | tests/components/template/test_trigger.py:799-831 | The fields change exactly as `Detach` says. |
| `TriggerScenarios.FireOnTrueResult` | tests/components/template/test_trigger.py:71-112 | A trigger without `for` on a false baseline makes exactly one call when the predicate renders any true value. The call is the change's trigger data. |
| `TriggerScenarios.SameResultThroughout` | tests/components/template/test_trigger.py:209-266 | A predicate that renders the same value at registration and on every later change never fires, whatever that value is. |
| `TriggerScenarios.FiresOnBoolChange` | tests/components/template/test_trigger.py:37-68 | A boolean predicate turning true makes one call. After turn-off there are no more. The same holds for `is_state` at lines 317-335. |
| `TriggerScenarios.FiresOnTrueText` | tests/components/template/test_trigger.py:71-91 | The text `true` makes one call. |
| `TriggerScenarios.FiresOnMixedCaseTrueText` | tests/components/template/test_trigger.py:94-112 | The text `TrUE` makes one call. |
| `TriggerScenarios.NoFireWhenTrueAtSetup` | tests/components/template/test_trigger.py:115-135 | A predicate true at setup makes no call, then or on the next true result. The same holds for lines 269-287. |
| `TriggerScenarios.NoFireAtSetupWithVariables` | tests/components/template/test_trigger.py:138-173 | The baseline with trigger variables is true, so one call comes, only on the return to `hello`. |
| `TriggerScenarios.RenderErrorIsSwallowed` | tests/components/template/test_trigger.py:176-206 | true, then error, then true makes exactly one call. |
| `TriggerScenarios.NoFireOnFalse` | tests/components/template/test_trigger.py:209-227 | A predicate that renders `false` makes no call. |
| `TriggerScenarios.NoFireOnConstantTrue` | tests/components/template/test_trigger.py:230-245 | The plain template `true` makes no call. |
| `TriggerScenarios.NoFireOnOtherText` | tests/components/template/test_trigger.py:248-266 | Text other than `true` makes no call. |
| `TriggerScenarios.NoFireOnFallingEdge` | tests/components/template/test_trigger.py:338-358 | A predicate turning from true to false makes no call. |
| `TriggerScenarios.NoRefireOnRepeatedTrue` | tests/components/template/test_trigger.py:290-314 | Two true results in a row make one call. |
| `TriggerScenarios.FirePayload` | tests/components/template/test_trigger.py:361-398 | The call carries `template`, `test.entity`, `hello`, `world`, no `for`, and the change's context as parent. A later change does not alter it; the same holds for lines 546-591. |
| `TriggerScenarios.NoFireOnFalseText` | tests/components/template/test_trigger.py:401-429 | A template rendering the text `false` makes no call. |
| `TriggerScenarios.FiresOnEachRisingEdge` | tests/components/template/test_trigger.py:432-472 | hello, world, home, work, not_home, world, home makes two calls, at the two changes to `home`. |
| `TriggerScenarios.BrokenTemplateRejected` | tests/components/template/test_trigger.py:510-522 | An unterminated `{{ ` is refused at registration. |
| `TriggerScenarios.NoFireOnUndefinedName` | tests/components/template/test_trigger.py:525-543 | A predicate that always fails to render makes no call. |
| `TriggerScenarios.DwellFiresAfterFiveSeconds` | tests/components/template/test_trigger.py:594-660 | With `for` given as `{"seconds": 5}`, and as `5` at lines 726-765, there is no call at the change. Ten seconds later there is one call, with `for` = 5 and the change's data. |
| `TriggerScenarios.ZeroDwellFiresAtOnce` | tests/components/template/test_trigger.py:663-723 | `for` of zero seconds makes the call at the change, with `for` = 0. |
| `TriggerScenarios.RevertCancelsWaitingFire` | tests/components/template/test_trigger.py:768-796 | Going back to `hello` four seconds into the dwell means no call at six seconds. |
| `TriggerScenarios.TurnOffCancelsWaitingFire` | tests/components/template/test_trigger.py:799-831 | Turning off four seconds into the dwell means no call at six seconds. |
| `TriggerScenarios.TemplatedDwellForms` | tests/components/template/test_trigger.py:834-906 | The three templated `for` forms each give one call with `for` = 5 after ten seconds. |
| `TriggerScenarios.UnrenderableDwellIsLogged` | tests/components/template/test_trigger.py:909-929 | `{{ five }}` in `for` logs an error, makes no call, and leaves nothing waiting. |
| `TriggerScenarios.FiresOnTimeChange` | tests/components/template/test_trigger.py:932-984 | A clock-driven predicate fires at minutes 2 and 8. Both calls have no entity and no states. |

## Left out

- Template parsing and rendering (`is_state`, `states.…`, `utcnow()`, filters, trigger variables) is not modelled. Render results, the renderer for `for` templates and the syntax check are inputs.
- The Home Assistant state machine, event bus, component setup and service calls are left out. So is the test plumbing that waits for the loop and fires time changes. A state change is an `OnEvaluation` call carrying the change; time is an explicit `AdvanceTime`.
- The result tracker's own deduplication is not modelled: setting an entity to its current state produces no event. The model evaluates anyway, with the same outcome.
- The test at tests/components/template/test_trigger.py:475-507 exercises a template condition under an event trigger, not the template trigger.
- `for` is resolved to whole seconds only. Milliseconds, fractional seconds, signed parts inside a clock text, and the `timedelta` display string (`0:00:05`) are not modelled.
- Log severity and message text are not modelled; only the fact that an error is reported (`Report`) is kept.
- homeassistant/components/websocket_api/sensor.py is not part of this model. It is a sensor entity that copies a connection count on a dispatcher signal, with no trigger logic.
- A failed render is not a false verdict: in the test at tests/components/template/test_trigger.py:176-206, true, error, true fires once. So a failed render changes nothing but the log.
- Rendering.IsTrue: numbers, containers and the other boolean spellings (`on`, `yes`, `1`) are not true. This follows the rule "a native `true`, or text reading `true`", which no test pins beyond `true`, `TrUE`, `false` and one other sentence. A broader boolean coercion in the implementation would make those values true, and this model does not capture that.
- Duration.ParseNat: a number inside a `for` text is accepted only as plain decimal digits. Forms Python's `int()` and `float()` also accept (surrounding whitespace, a sign, `_` separators, a fraction) resolve to nothing here.
