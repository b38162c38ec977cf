# selmate rule engine in Dafny

selmate is a browser-automation tool. It drives a Selenium browser from a JSON
rule file. On every tick the `MyWeb` engine (src/web.py) walks the rule list:

- A rule runs only when it is enabled, its URL matches the page or one of its
  frames, and the page's `<head>` element differs from the one stored the last
  time a rule ran.
- A rule that runs stores the new head, waits its `initWait`, and runs its
  actions in order.
- Each action checks `enable` and looks at the page before and after its own
  wait. It then evaluates an `addon` criterion and a `flag` expression over the
  persistent `rule_flags` store. If all of these pass it performs one effect:
  notify, fill, Enter or click.

The delay specs (`"5"`, `"2 5"`, `"2e5"`) are parsed by `get_wait` and
`WaitValue` in src/utils.py. The older callback runners `Action`/`ActionList`
(src/actions.py) and `Rule`/`Rules` (rules.py) run callbacks behind a gate and
a wait, and announce each step with a status signal.

The model, module by module:

- `Prelude` (prelude.dfy): `Option`, `Result`, the exceptions (`Fault`) and the
  Python built-ins the code leans on: `str.lower`, `str.strip`, `in` on
  strings, `int()` and `str()` on integers.
- `Utils` (utils.dfy): the `[e\s]+` tokenizer, `WaitValue`, `get_wait`, `wait`
  and `dict_gets`. Randomness is a choice constrained to the range.
- `Conditions` (conditions.dfy): the comparison ladder shared by
  `check_criteria` and `evaluate_flag`. Floats are IEEE values with NaN, and
  `float()` and `re.search` are abstract functions passed in.
- `Flags` (flags.dfy): `set_flags` and `evaluate_flag` as functions from a
  store to a verdict and a new store.
- `Records` (records.dfy): the JSON rule, action, addon and flag records, with
  an `Option` per key, so that a missing key can be an error.
- `Page` (page.dfy): the browser as an oracle value (top URL, frames, head
  handles, xpath → element map), the page-change decision and `check_url`'s
  frame scan.
- `Dispatch` (dispatch.dfy): the try block of `run_action`: element, criterion,
  flags, the Notify pattern and the choice of effect.
- `Web` (web.dfy): class `MyWeb`, whose fields are those of the Python object.
  The driver is `world: nat -> Page` read at the field `clock`. Effects,
  countdowns and status lines are appended to the field `trace`.
- `Actions` (actions.dfy) and `RuleList` (rules.py → rules.dfy): the callback
  runners. A `Host` object collects the emitted signals and callback calls in
  order. Its `reply` function answers each callback, indexed by the position of
  that call among the events.

Where the natural reading of the behaviour and the code differ, the model
follows the code:

- A zero wait emits no countdown (src/web.py:277-278).
- A non-numeric wait token raises in `int()` and never means "no wait". A spec
  of blanks only is not `""`: it splits into one empty token, and `int('')`
  raises.
- `incr`/`decr` on a flag that is not in the store raise `KeyError`.
- The flag record is read from the key `flag`, and `@` spells "contains".
- `addon` is a required key of every action that gets past its wait
  (src/web.py:368): a missing one raises.
- A flag expression that comes out false still applies its `false` mutation
  list before `run_action` returns. So "check_flags is false" stops the effect
  but does change `rule_flags` (`Dispatch.FlagsFalseNoEffect`).
- `ActionList.run` and `Rules.run` have no early exit of their own. An
  exception in one action (an empty `randint` range, a negative sleep) still
  ends the loop, since it propagates out of `run`.

## Model

| member | source | states |
|---|---|---|
| Utils.Split | src/utils.py:54 | `re.split(r'[e\s]+', …)` always gives at least one piece |
| Utils.SplitRejoins | src/utils.py:54 | gluing the pieces back with the runs the split dropped gives the input back |
| Utils.SplitInterleave | src/utils.py:54 | splitting undoes gluing: separator-free pieces joined by non-empty separator runs come back unchanged |
| Utils.SplitHasShape | src/utils.py:54 | no piece of a split contains a separator, only the first and the last piece can be empty, and every dropped run is non-empty: the shape that SplitInterleave inverts |
| Prelude.StripBlanks | src/utils.py:54 | `str.strip()` removes exactly the blanks around a string that starts and ends with a non-blank character |
| Utils.TwoTokens | src/utils.py:54 | two separator-free tokens around any non-empty run of `e`s and blanks split back into exactly those two tokens |
| Utils.SeparatorsInterchangeable | src/utils.py:54 | neither the blanks around a spec nor the kind of run between its two tokens matter: the spec tokenizes to exactly those two tokens (`"2e5"`, `"2 5"` and `" 2  5 "` all give `["2", "5"]`) |
| Utils.NewWaitValue | src/utils.py:15-17 | the constructor succeeds exactly when both arguments convert with `int()`, modelled as blanks around an optional sign and ASCII digits (underscores only between digits); `range()` is then exactly the converted (start, stop); a bad `a` is reported before a bad `b` |
| Utils.WaitValue.Value | src/utils.py:19-23 | `value()` is `start` when `stop` is 0, else some value in [start, stop] inclusive, else randint's ValueError when start > stop |
| Utils.Draw | src/utils.py:55-63 | one or two tokens become a WaitValue whose `value()` is drawn; a constructor error is passed on |
| Utils.GetWait | src/utils.py:48-64 | an int spec is returned unchanged, `""` gives 0, more than two tokens give 0, one or two tokens give the WaitValue draw |
| Utils.SingleToken | src/utils.py:57-59 | a single token n resolves to exactly `int(n)`, and to its error when it is not a number |
| Utils.ZeroStop | src/utils.py:19-23 | two tokens a b with int(b) = 0 resolve to exactly int(a) |
| Utils.RangeToken | src/utils.py:20-21 | two tokens a b with b ≠ 0 resolve to exactly the values in [a, b] when a ≤ b, and to the EmptyRange error when a > b |
| Utils.NonNumericRaises | src/utils.py:15-17 | a non-numeric first token is a NotANumber error, never a zero delay |
| Utils.BlankSpecRaises | src/utils.py:51-59 | any non-empty spec of blanks only raises `int('')` instead of giving 0 |
| Utils.Wait | src/utils.py:29-44 | `""` and more than two tokens return without a counter call; otherwise an error is the resolver's, and a drawn delay t calls the counter with `str(t)` exactly when a counter is given |
| Utils.DictGets | src/utils.py:67-71 | the value of the first key of `keys`, in order, that is in the dict, else the default |
| Conditions.ParseOperator | src/web.py:386-408 | a recognised operator is one whose lower-cased text is its word or its symbol spelling |
| Conditions.SpellingsReach | src/web.py:386-408 | both spellings of every operator reach it, in any case |
| Conditions.ParseOperatorSpellings | src/web.py:386-408 | an operator is recognised if and only if its lower-cased text is one of its two spellings |
| Conditions.ParseOperatorIgnoresCase | src/web.py:386 | lower-casing the operator first changes nothing |
| Conditions.Compare | src/web.py:387-406 | the string tests never fail; the ordered tests fail on the first side that `float()` refuses, `ev` first; search fails exactly when the pattern is bad |
| Conditions.NegationFlips | src/web.py:387-398 | notequals, notcontains and notsearch give the exact negation of equals, contains and search, and fail exactly when those do |
| Conditions.OrderedConverse | src/web.py:399-406 | `ev < uv` is `uv > ev` and `ev <= uv` is `uv >= ev` |
| Conditions.NaNFailsOrdered | src/web.py:399-406 | a NaN value fails every ordered test |
| Conditions.OrderedComplements | src/web.py:399-406 | away from NaN, `<` and `>=` are complements, and so are `>` and `<=` |
| Flags.ApplyMutation | src/web.py:477-494 | one todo entry changes at most the flag it names |
| Flags.Arith | src/web.py:485-492 | `incr`/`decr` need the flag to exist (KeyError otherwise); `float()` of the stored value is tried before `float()` of the operand, and each failure is a ValueError naming that text; on success only that flag changes, and it becomes `str()` of the float result |
| Flags.IncrStoresSum | src/web.py:489-490 | `incr`/`+=`, in any case, store `str()` of the stored value plus the operand, as floats |
| Flags.DecrStoresDifference | src/web.py:491-492 | `decr`/`-=`, in any case, store `str()` of the stored value minus the operand, as floats |
| Flags.ArithReadsFlagFirst | src/web.py:486-492 | a non-numeric stored value is reported even when the operand is not a number either, and the store is left as it was |
| Flags.ApplyAll | src/web.py:476-494 | a todo list changes only flags that it names |
| Flags.SetStoresVerbatim | src/web.py:483-484 | `set` and `=`, in any case, store the value exactly as given |
| Flags.ArithNeedsFlag | src/web.py:485-492 | `incr`, `+=`, `decr` and `-=` on an absent flag raise KeyError for that name |
| Flags.UnknownOpRefused | src/web.py:493-494 | any other op raises, naming the op lower-cased |
| Flags.EmptyNameSkipped | src/web.py:481-482 | an entry with an empty name does nothing, whatever its op |
| Flags.ApplyAllCons | src/web.py:476-494 | the list runs front to back, and a failing entry stops it with the store as it was at that point |
| Flags.FaultStopsList | src/web.py:476-494 | once an entry has failed, the entries after it change nothing |
| Flags.BaseTest | src/web.py:429-454 | an empty name is true; otherwise an unknown operator raises SyntaxError, and a known one compares the stored value (`""` when absent) with `value` |
| Flags.Evaluate | src/web.py:421-468 | an evaluation changes only flags named in the mutation lists of the expression tree |
| Flags.Join | src/web.py:459-465 | without a child the verdict is the own result; with one, only flags in the child's tree change |
| Flags.UnsetFlagReadsEmpty | src/web.py:430-434 | a flag that was never set equals `""` |
| Flags.EmptyNameIsTrue | src/web.py:431-432 | an empty name is true even with an operator the ladder does not know |
| Flags.UnknownConditionRaises | src/web.py:453-454 | an unknown operator on a named check raises SyntaxError naming the operator as written, and nothing is mutated |
| Flags.BothChildrenRefused | src/web.py:456-457 | a record with both `and` and `or` raises SyntaxError before either child runs or any list is applied |
| Flags.OneChild | src/web.py:459-467 | the child is evaluated first with its mutations kept, combined by `and`/`or`, and then the record's own list for the combined result is applied |
| Flags.FailingChildStops | src/web.py:459-465 | a child that raises ends the evaluation with the store the child left; the record's lists do not run |
| Flags.Leaf | src/web.py:467-468 | without children the verdict is the own test, after the list for that outcome has been applied |
| Records.Locator | src/web.py:328 | `xpath` wins over its alias `elementFinder`; neither key gives None |
| Page.FindElement | src/web.py:329 | an xpath that is not in the active document raises NoSuchElement |
| Page.PageChanged | src/web.py:251-266 | no stored head, or a lookup that raises NoSuchElement or Timeout, gives true; false exactly when the fetched head equals the stored one; any other driver error propagates |
| Page.ScanFrames | src/web.py:503-507 | the first frame from the given index whose URL contains `url`, with every earlier URL readable and not matching; None when none matches; an unreadable URL stops the scan with its error |
| Page.UrlCheck | src/web.py:496-513 | a match in the top URL is true and keeps the frame; otherwise true exactly when it switched to a frame, and that frame's URL contains `url` |
| Page.FirstMatchingFrame | src/web.py:503-507 | the frame switched to is the first frame that matches |
| Page.NoMatchIsFalse | src/web.py:496-513 | with readable frame URLs the result is false exactly when neither the top URL nor any frame URL contains `url` |
| Dispatch.FirstLine | src/web.py:337 | the text up to the first line break, which `.` cannot cross |
| Dispatch.LastClose | src/web.py:337 | the last `)` on a line before a bound |
| Dispatch.NotifyPayload | src/web.py:337-339 | a group found is one that the start-anchored `UserEvent::Notify\((.+)\)` admits |
| Dispatch.NotifyPayloadGreedy | src/web.py:337-339 | when the pattern admits any group, a group is found, and it is at least as long as every admitted group (greedy) |
| Dispatch.EffectFor | src/web.py:334-354 | a value containing the marker notifies with the group, or with the fixed error text, formatted with the element's value, and raises exactly when that formatting raises; else a non-empty value fills; else Enter on a text input; else a click |
| Dispatch.MarkerOffStartNotifiesFallback | src/web.py:335-339 | a marker that is not at the start still notifies, with the fixed error text formatted with the element's value (or raises when the abstract `format` refuses it, which str.format never does for this brace-free text) |
| Dispatch.CriteriaHolds | src/web.py:366-411 | a missing `addon` raises; an addon without a locator, or with an empty one, is true; otherwise a missing `value` or `condition` raises, an absent element is false, another driver error or an unreadable element raises, an unknown operator raises a plain Exception (which `check` only logs, without pausing), and a readable element is compared by Compare on its value (or text) |
| Dispatch.UntypableCriterionCompared | src/web.py:379-408 | an addon element that only refuses keyboard input is still read and compared |
| Dispatch.MissingCriterionElementFails | src/web.py:409-410 | an addon element that is not on the page makes the criterion false, whatever the operator |
| Dispatch.Settle | src/web.py:356-364 | the try block swallows exactly NoSuchElement, StaleElement, NotInteractable and Timeout |
| Dispatch.FlagsHold | src/web.py:413-419 | no `flag` key, or an empty flag record, is true with the store untouched; a non-empty record without `name` raises KeyError; a true verdict needs no flag or a named one |
| Dispatch.UnreadFlagKeysRaise | src/web.py:413-427 | a flag record holding only keys the engine does not read is truthy, so it is evaluated and raises KeyError for `name`: no effect, store unchanged |
| Dispatch.Attempt | src/web.py:327-364 | the try block leaves the store unchanged, or leaves it as the flag evaluation did (when and which effect it performs is EffectExactlyWhenGatesPass) |
| Dispatch.EffectExactlyWhenGatesPass | src/web.py:327-354 | there is an effect if and only if the element is found, the criterion holds, the flags hold, `value` is present, EffectFor does not raise, and performing the effect it picks raises nothing on that element (a stale element fails every effect, an untypable one only Fill and Enter); the effect is then that one, and the outcome is Ok |
| Dispatch.UntypableElement | src/web.py:335-354 | on an element that refuses keyboard input but can be read, Notify and the script click still happen, while Fill and Enter end the action quietly, and a notification whose formatting raises raises; the store is the flag evaluation's in every case |
| Dispatch.FormatFailureRaises | src/web.py:335-364 | a notification template that the element's value cannot fill (`str.format` raising) raises out of the try block, which does not swallow it: no effect, and the store the flags left |
| Dispatch.CriterionFalseKeepsFlags | src/web.py:330-332 | a false criterion ends the action before the flags are read: no effect and the store as it was |
| Dispatch.FlagsFalseNoEffect | src/web.py:330-332 | a false flag expression stops the effect, and the store is the one the evaluation left, with its `false` lists applied |
| Dispatch.LostElementSkips | src/web.py:356-364 | an element that cannot be found, is stale or times out ends the action quietly with nothing changed |
| Web.RuleGate | src/web.py:296-305 | a rule gets through exactly when a new head was fetched, and that head is the one the lookup gives in the frame that was switched to |
| Web.DisabledRuleStops | src/web.py:296-297 | a disabled rule stops at once and keeps the frame |
| Web.RuleGateThrough | src/web.py:296-305 | a rule gets through if and only if it is enabled, its URL matches, and the head found differs from the stored one |
| Web.SameHeadStops | src/web.py:302-305 | on the page a rule last ran on, with the same head, the rule does not run again |
| Web.Disposal | src/web.py:558-597 | as intended, the handlers of `check` raise only when the timeout handler's `get_cookies()` probe fails with a driver error other than a timeout, and then that error escapes; they pause exactly on a SyntaxError; a timeout forgets the head exactly when the probe answers, and raises the alarm exactly when the probe times out too |
| Web.LostWindowEscapes | src/web.py:569-573 | as written, NoSuchWindow makes the handler raise UnboundLocalError; intended, it is only logged |
| Web.DisposalAgrees | src/web.py:558-597 | apart from NoSuchWindow, the handlers as written and as intended agree |
| Web.MyWeb.constructor | src/web.py:137-150 | not started, paused, the given rule data and mtime, no head, an empty flag store, current rule and action empty, action index -1 |
| Web.MyWeb.Pause | src/web.py:194-195 | `paused` becomes the argument |
| Web.MyWeb.Clear | src/web.py:197-199 | the head is forgotten and the flag store emptied |
| Web.MyWeb.RuleFileModified | src/web.py:219-227 | true exactly when no mtime is stored or the stored one is older; the same mtime is never "modified" |
| Web.MyWeb.WaitInPage | src/web.py:268-291 | a delay that fails to resolve raises with nothing changed; a zero delay changes nothing; any other delay t counts down `str(t)` and then `"0"` and moves the clock by t, or not at all when t is negative |
| Web.MyWeb.CheckUrl | src/web.py:496-513 | the result and the new frame are UrlCheck's |
| Web.MyWeb.SetFlags | src/web.py:470-494 | the store is updated in place to what Flags.SetFlags gives, and raises its fault |
| Web.MyWeb.EvaluateFlag | src/web.py:421-468 | the result and the new store are Flags.Evaluate's verdict |
| Web.MyWeb.CheckFlags | src/web.py:413-419 | the result and the new store are FlagsHold's |
| Web.MyWeb.TryAction | src/web.py:327-364 | the outcome, the store, the effect on the trace and the clock step are those of Attempt on the current page |
| Web.MyWeb.RunAction | src/web.py:316-364 | as ActionRan says from the start: disabled, or a page that changed (or cannot be read) before the wait: nothing changes; a missing `initWait` raises KeyError; a failed wait raises with nothing changed; a page that changed after the wait: only the countdown; otherwise the try block runs, as Attempt says, on the page as it is after the wait |
| Web.MyWeb.WaitThenTry | src/web.py:322-364 | from the wait on: a draw that fails raises with nothing changed; otherwise the countdown and the clock step, then the rest as AfterWait |
| Web.MyWeb.AfterWait | src/web.py:324-364 | the try block runs exactly when the page has not changed |
| Web.ActionRanAppends | src/web.py:316-364 | `run_action` only appends to the trace, at every stage |
| Web.MyWeb.PassGate | src/web.py:296-303 | the result and the frame are RuleGate's, and the head fetched is stored exactly when the rule gets through |
| Web.MyWeb.StartAction | src/web.py:310-313 | as StepRan says: the current action and its index are set; a missing `initWait` raises before anything is shown; otherwise the action's status line (index, name, wait) is shown, and then flags, clock, trace and outcome are exactly what RunAction's ActionRan allows from there |
| Web.StepAnnounces | src/web.py:310-313 | one pass of the loop shows the action's own status line before anything else it does |
| Web.MyWeb.RunNext | src/web.py:309-314 | one turn of the loop: action idx runs on the state the earlier actions left, and the record of the run grows by exactly that pass |
| Web.MyWeb.RunActions | src/web.py:309-314 | as ActionsRan says: action i runs (StepRan) on the state action i-1 left, in list order; all of them run when none raises, and otherwise the one that raised is the last to run; the loop starts from the state before it and ends in the state after it |
| Web.StepsAppend | src/web.py:309-314 | the loop only appends: the trace after it extends the trace of every state it went through |
| Web.ActionsAnnounced | src/web.py:310-313 | in a loop that went through, action i's status line names index i, its name and its wait, sits where the trace of the state it ran on ends, and stays in the final trace |
| Web.MyWeb.RunFired | src/web.py:307-314 | as FiredRan says: a missing `name` or `initWait` raises before anything is shown; otherwise the rule's status line, then WaitThenActions, with the frame and head the gate left untouched |
| Web.MyWeb.WaitThenActions | src/web.py:308-314 | as WaitedRan says: a wait that cannot be drawn raises with nothing changed; otherwise the countdown and clock step, then a missing `actions` raises, or the action loop runs from the state the wait left, as ActionsRan says |
| Web.MyWeb.LoopAfterWait | src/web.py:309-314 | once the rule's wait of t seconds is over, the action loop runs from the state the wait left, as WaitedRan says from before the wait; the trace only grows |
| Web.MyWeb.RunRule | src/web.py:293-314 | as RuleRan says: the current rule is set; a gate that stops leaves head, flags, trace, clock and the current action as they were; a rule that passes stores the new head and goes on as FiredRan says |
| Web.MyWeb.ProcessRules | src/web.py:247-249 | as RulesRan says: rule i runs (RuleRan) on the engine state rule i-1 left, in list order, until one raises, which is then the last to run; after a full pass the current rule is the last one; no rules change nothing |
| Web.MyWeb.NextRule | src/web.py:248-249 | one turn of the rule loop: rule i runs on the state the rules before it left; if it went through, all i+1 runs so far went through (RuleStepsOk), and if it raised, the runs so far are a RulesRan that stops with that fault; the current rule is rule i |
| Web.MyWeb.Check | src/web.py:545-597 | not started, paused or an alert open: nothing changes and no fault; otherwise `Running...` is shown, the rules run as RulesRan says from the state just after that line, `fault` is exactly the exception that left them, and the final state and the exception that escapes `check` are the ones Disposed gives for that handling; it follows the corrected NoSuchWindow handler (Disposal), which logs, not the as-written one, which raises UnboundLocalError |
| Web.MyWeb.Dispose | src/web.py:558-597 | the handlers of `check` act on the state the rules left: a logged exception changes nothing, a timeout whose `get_cookies()` probe answers forgets the head, one whose probe times out notifies and pauses, one whose probe fails otherwise lets that error escape with nothing changed, a SyntaxError pauses |
| Actions.GetValue | src/actions.py:8-12 | a function is called once and its answer returned; any other value is returned as is, with no call |
| Actions.InitialWait | src/actions.py:34-42 | the wait succeeds exactly when the wait time is a number ≥ 0, and then signals `initwait` and sleeps that long; a negative time is signalled and then refused by the sleep; a failed draw signals nothing |
| Actions.WaitInitially | src/actions.py:34-42 | the events and the outcome are InitialWait's for a draw that `value()` may give |
| Actions.WaitTimeChoices | src/actions.py:34-39 | the wait time is 0 when unset, the number itself when fixed, `start` for a WaitValue whose `stop` is 0, and a draw in its range otherwise (`getinitval` at rules.py:28-34 is the same function) |
| Actions.RangeTextRoundTrip | src/actions.py:51-53 | a WaitValue is shown as `start~stop`, and both numbers read back from that text |
| Actions.SecondsTextRoundTrip | src/actions.py:54-55 | a fixed wait is shown as its number, and it reads back |
| Actions.TextShape | src/actions.py:56 | the status text starts with its prefix and the quoted name |
| Actions.TextTellsKind | src/actions.py:56 | a status text starts with the rule prefix of rules.py:42 exactly when it is a rule's status line, so an action's text is never a rule's |
| RuleList.RuleTextsAreRuleLines | rules.py:36-42 | picking the shown status texts by the rule prefix picks exactly the texts of the rule lines, in order |
| Actions.Action.Steps | src/actions.py:28-48 | the status line is always the first event, before `cond` is asked |
| Actions.Action.CallFollowUp | src/actions.py:45-48 | the follow-up calls are exactly FollowUp's |
| Actions.Action.Run | src/actions.py:28-48 | the outcome and the events appended are Steps' for a draw that `value()` may give |
| Actions.Action.WaitAndCall | src/actions.py:34-48 | from the wait on, the outcome and the events are Resume's |
| Actions.CondFalseStops | src/actions.py:31-32 | a falsy `cond` ends the run after the status line and the `cond` call: no initwait, no sleep, neither `func` nor a follow-up |
| Actions.FuncThenOneFollowUp | src/actions.py:44-48 | after a successful wait comes the `func` call, then at most one follow-up: `whentrue` exactly when it is set and rv is truthy, `whenfalse` exactly when it is set and rv is falsy |
| Actions.EmptyRangeRaises | src/actions.py:34-35 | a WaitValue with start > stop ≠ 0 raises before the initwait signal and before `func` |
| Actions.NegativeWaitRaises | src/actions.py:41-42 | a negative wait is signalled, then the sleep raises, and `func` is not called |
| Actions.OneStatusLine | src/actions.py:28-29 | one run shows exactly one status line, the action's own |
| Actions.ListSteps | src/actions.py:73-75 | running a list only appends to the events |
| Actions.ListStatusLines | src/actions.py:73-75 | a clean run of a list shows one status line per action, in list order |
| Actions.RanInOrder | src/actions.py:73-75 | the actions that ran show their status lines in list order, and a run that does not raise shows them all |
| Actions.ActionList.constructor | src/actions.py:60-62 | the list starts empty |
| Actions.ActionList.Add | src/actions.py:64-67 | the new action with the given fields is appended at the end |
| Actions.ActionList.Run | src/actions.py:73-75 | the actions run in insertion order, each on the events the previous one left; every action runs unless one raises, and then that one is the last |
| Actions.RunAll | src/actions.py:73-75 | the loop of `run` over a list of actions, as ListRan states |
| RuleList.Rule.Opening | rules.py:17-25 | the status line comes first and the `identify` call second; the actions are reached only after a wait that succeeded |
| RuleList.Rule.Open | rules.py:17-25 | the outcome, the events and whether to go on are Opening's |
| RuleList.Rule.Run | rules.py:17-26 | the status line, the `identify` gate and the wait, then the actions' run exactly once; a rule without actions raises AttributeError |
| RuleList.NotIdentifiedStops | rules.py:20-21 | a falsy `identify` answer ends the run after the status line and the call: no wait and no actions |
| RuleList.IdentifiedWaitsFirst | rules.py:23-25 | once identified, a failed draw raises at once, a negative time raises after the initwait signal, and otherwise the initwait signal and the sleep come before the actions |
| RuleList.NoActionsRaises | rules.py:26 | a rule with no ActionList that gets past its wait raises AttributeError |
| RuleList.OpeningLines | rules.py:18 | the part of a run before the actions shows one rule status line, the rule's own |
| RuleList.OneRuleLine | rules.py:17-26 | a rule's run shows exactly its own rule status line, whatever its actions show |
| RuleList.AsWrittenNeverIdentifies | rules.py:20 | as written the run stops with AttributeError after the status line, and never reaches the `identify` call that the intended run makes |
| RuleList.Rules.constructor | rules.py:46-47 | the list starts empty |
| RuleList.Rules.Add | rules.py:49-51 | the new rule with the given fields is appended at the end |
| RuleList.Rules.Run | rules.py:59-61 | the rules run in insertion order, each on the events the previous one left, until one raises; the rule status lines grow by exactly the rules that ran, in order |
| RuleList.RunTurn | rules.py:59-61 | one turn of `run`'s loop keeps the rules before it clean and adds the rule's own status line |

## Left out

- Logging, the text of status lines shown by `MyWeb` and the GUI signals are
  not modelled as text. `MyWeb`'s status lines are structured events, and
  `show_log` is dropped.
- The threading in `wait_in_page` is left out. A wait is a countdown event,
  then a clock step by its length, then the countdown "0". The page-change
  watcher that ends a wait early is not modelled.
- Real sleeps are left out. In src/actions.py and rules.py a sleep is a
  `Sleep` signal; a negative delay is the `ValueError` that `time.sleep` raises.
- Floats, `float()` parsing, `str()` of floats, `re.search` and `str.format`
  are abstract functions in `Builtins`. Only their use is modelled, and for
  `re.search` and `str.format` whether they raise.
- JSON values other than strings for `value`, `condition`, `name` and `op` are
  not modelled, and neither are other Python truthiness cases for
  `enable`, `url` and the todo fields of a flag record.
- `load_rules` and the JSON file are not modelled. The rule data is
  constructor input.
- `check_rule_file_modified` takes the file's mtime as an argument; reading it
  is I/O.
- Browser start, session attach, `start`, `end`, `set_url` and `check_alert`'s
  driver call are left out. An open alert and the outcome of the
  `get_cookies()` probe are fields of the page oracle.
- The abstract `format` of Builtins may refuse any template, including
  the brace-free fallback text "ERROR in UserEvent::Notify call", which
  str.format always accepts; the model does not tie `format` to the braces in
  its template.
- `send_notification`'s delivery (notification.py) is left out; a
  notification is a `Notify` effect in the trace.
- `connect` in src/actions.py and rules.py is left out: PyQt signal wiring.
- A callback that raises is not modelled. Every callback returns the answer
  `reply` gives for the position of its call.
- An `initwait` that is neither unset, an int nor a WaitValue is not modelled.
- A JSON `initWait` that is a float, a boolean or null is not modelled: WaitSpec
  is an int or a string. In the source these reach `spec.strip()` and raise.
- Utils.NewWaitValue: `int()` is modelled on ASCII digits only. Python's
  `int()` also accepts other Unicode decimal digits (`'５'`), which the model
  reports as NotANumber.
- Actions.ActionList.Run: a Rule holds its actions as a value sequence, so
  aliasing of one ActionList between rules, and adding to it while a rule
  runs, is not modelled.
- Web.MyWeb.Check: the trace after a handled exception is stated only for
  the alarm's notification, not for the log lines.
- The `"code":-32000` branch of `check`'s WebDriverException handler only
  changes what is logged, so it is one `Logged` case.

## Findings

| source | as written | input that shows it | evidently intended | confidence | as-written member | corrected member |
|---|---|---|---|---|---|---|
| rules.py:20 | `Rule.run` calls `self.id()`, but the constructor stores the gate as `self.identify` (rules.py:14) and no `id` attribute exists | any Rule, e.g. `Rule(f, 'r', acts, 0).run()`: AttributeError right after the status signal | the `identify` callback gates the run | not executed | RuleList.AsWrittenNeverIdentifies | RuleList.Rule.Run |
| src/web.py:569-573 | the NoSuchWindowException handler of `check` reads `error`, which only the other handlers bind, so it raises UnboundLocalError out of `check` | a tick during which the browser window is closed, so `process_rules` raises NoSuchWindowException | log the exception like the neighbouring handlers and carry on | not executed | Web.LostWindowEscapes | Web.Disposal |
