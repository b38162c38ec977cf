/** The rule engine of src/web.py, class MyWeb: on each tick it walks the rule
    list, gating each rule on `enable`, the URL and a page change, and each
    action on `enable`, the page, its criterion and its flags, before it
    performs the action's effect.

    The browser is an oracle: `world(t)` is the page at instant t, and the
    engine's clock moves on when it waits and after it touches the page.  What
    the engine shows or sends is appended to `trace`. */
module Web {
  import opened Prelude
  import opened Utils
  import opened Conditions
  import opened Flags
  import opened Records
  import opened Page
  import opened Dispatch

  datatype Event =
    | Running                                                 // status 'Running...'
    | RuleStarted(rule: string, initWait: WaitSpec)           // status line of a rule
    | ActionStarted(index: nat, action: string, initWait: WaitSpec) // status line of an action
    | Countdown(count: string)                                // countdown(count)
    | Did(effect: Effect)                                     // an effect on the page or the user

  /** The countdown of a wait: none for a zero wait, else the seconds and then "0". */
  function WaitLog(t: int): seq<Event> {
    if t == 0 then [] else [Countdown(IntToStr(t)), Countdown("0")]
  }

  /** How far the clock moves during a wait of t seconds (a negative wait ends at once). */
  function Elapsed(t: int): nat {
    if t > 0 then t else 0
  }

  /** A trace that grew from a that grew from b also grew from a. */
  lemma PrefixChain(a: seq<Event>, b: seq<Event>, c: seq<Event>)
    requires |a| <= |b| <= |c| && b[..|a|] == a && c[..|b|] == b
    ensures c[..|a|] == a
  {
    assert c[..|a|] == c[..|b|][..|a|];
  }

  // ---------------------------------------------------------------------------
  // The gate of run_rule

  /** How far a rule gets before its status line: raised, stopped (false), or
      through (true) with the head it found; and the frame the driver is left in. */
  datatype GateResult = GateResult(outcome: Result<bool, Fault>, frame: Option<nat>, head: Option<Handle>)

  /** The gate of `run_rule`: `enable` (required), `check_url(url)`, then the page
      change check, and the head lookup whose result is stored. */
  function RuleGate(rule: RuleRec, page: Page, frame: Option<nat>, stored: Option<Handle>): (r: GateResult)
    ensures r.outcome == Ok(true) <==> r.head.Some?
    ensures r.outcome == Ok(true) ==> HeadLookup(page, r.frame) == Ok(r.head.value)
  {
    if rule.enable.None? then GateResult(Err(MissingKey("enable")), frame, None)
    else if !rule.enable.value then GateResult(Ok(false), frame, None)
    else if rule.url.None? then GateResult(Err(MissingKey("url")), frame, None)
    else
      var (found, f) := UrlCheck(page, frame, rule.url.value);
      if found.Err? then GateResult(Err(found.error), f, None)
      else if !found.value then GateResult(Ok(false), f, None)
      else
        match PageChanged(stored, HeadLookup(page, f))
        case Err(e) => GateResult(Err(e), f, None)
        case Ok(false) => GateResult(Ok(false), f, None)
        case Ok(true) =>
          match HeadLookup(page, f)
          case Err(e) => GateResult(Err(Driver(e)), f, None)
          case Ok(h) => GateResult(Ok(true), f, Some(h))
  }

  /** A disabled rule stops at once and leaves the frame alone. */
  lemma DisabledRuleStops(rule: RuleRec, page: Page, frame: Option<nat>, stored: Option<Handle>)
    requires rule.enable == Some(false)
    ensures RuleGate(rule, page, frame, stored) == GateResult(Ok(false), frame, None)
  {
  }

  /** A rule gets through exactly when it is enabled, its URL is the page's or a
      frame's, and a head is found that is not the stored one. */
  lemma RuleGateThrough(rule: RuleRec, page: Page, frame: Option<nat>, stored: Option<Handle>)
    ensures var g := RuleGate(rule, page, frame, stored);
      g.outcome == Ok(true) <==>
        && rule.enable == Some(true) && rule.url.Some?
        && UrlCheck(page, frame, rule.url.value).0 == Ok(true)
        && g.frame == UrlCheck(page, frame, rule.url.value).1
        && HeadLookup(page, g.frame).Ok?
        && stored != Some(HeadLookup(page, g.frame).value)
  {
  }

  /** On the page it last ran on, with the same head, a rule does not run again. */
  lemma SameHeadStops(rule: RuleRec, page: Page, frame: Option<nat>, h: Handle)
    requires rule.enable == Some(true) && rule.url.Some?
    requires UrlCheck(page, frame, rule.url.value) == (Ok(true), frame)
    requires HeadLookup(page, frame) == Ok(h)
    ensures RuleGate(rule, page, frame, Some(h)) == GateResult(Ok(false), frame, None)
  {
  }

  // ---------------------------------------------------------------------------
  // The exception handlers of check

  /** What `check` does with an exception that leaves `process_rules`. */
  datatype Handling =
    | Logged                  // only logged
    | ForgetHead              // a timeout, and get_cookies() answers: page_head = None
    | Alarm(message: string)  // a timeout, and get_cookies() times out: notify, pause
    | Halt                    // a SyntaxError in the rule file: pause
    | Escape(fault: Fault)    // the handler itself raises

  /** The handlers of `check` in their order, with the NoSuchWindow handler
      logging like its neighbours.  The timeout handler probes the browser with
      `get_cookies()`, whose outcome is `cookies`: an answer forgets the head, a
      second timeout raises the alarm, and any other driver error escapes the
      handler, since only a timeout is caught around the probe. */
  function Disposal(f: Fault, cookies: Result<(), DriverError>): (r: Handling)
    ensures r.Escape? <==> f.Driver? && f.error.Timeout? && cookies.Err? && !cookies.error.Timeout?
    ensures r.Escape? ==> r.fault == Driver(cookies.error)
    ensures r.Halt? <==> IsSyntaxError(f)
    ensures r.ForgetHead? <==> f.Driver? && f.error.Timeout? && cookies.Ok?
    ensures r.Alarm? <==> f.Driver? && f.error.Timeout? && cookies.Err? && cookies.error.Timeout?
  {
    match f
    case Driver(Timeout(text)) =>
      (match cookies
       case Ok(_) => ForgetHead
       case Err(Timeout(_)) => Alarm("Houston, we have a problem! " + text)
       case Err(e) => Escape(Driver(e)))
    case Driver(_) => Logged
    case _ => if IsSyntaxError(f) then Halt else Logged
  }

  /** The handlers as written: the NoSuchWindow handler reads `error`, a name
      only the other handlers bind, so it raises UnboundLocalError instead of
      logging. */
  function DisposalAsWritten(f: Fault, cookies: Result<(), DriverError>): Handling {
    if f == Driver(NoSuchWindow) then Escape(UnboundLocal("error")) else Disposal(f, cookies)
  }

  /** A lost browser window makes `check` itself raise, as written. */
  lemma LostWindowEscapes(cookies: Result<(), DriverError>)
    ensures DisposalAsWritten(Driver(NoSuchWindow), cookies) == Escape(UnboundLocal("error"))
    ensures Disposal(Driver(NoSuchWindow), cookies) == Logged
  {
  }

  /** Apart from that handler the two agree. */
  lemma DisposalAgrees(f: Fault, cookies: Result<(), DriverError>)
    requires f != Driver(NoSuchWindow)
    ensures DisposalAsWritten(f, cookies) == Disposal(f, cookies)
  {
  }

  /** The events of an attempt: its effect, if it had one. */
  function EffectLog(at: Attempted): seq<Event> {
    if at.effect.Some? then [Did(at.effect.value)] else []
  }

  /** An effect on the page takes the clock to the next instant; a notification
      does not touch the page. */
  function Touch(at: Attempted): nat {
    if at.effect.Some? && !at.effect.value.Notify? then 1 else 0
  }

  /** The state after a try block is the attempt's: its outcome, its flag store,
      its effect appended to the trace. */
  predicate Followed(at: Attempted, r: Outcome, flags: Store, traceBefore: seq<Event>, traceAfter: seq<Event>,
                     clockBefore: nat, clockAfter: nat) {
    && r == at.outcome && flags == at.store
    && traceAfter == traceBefore + EffectLog(at)
    && clockAfter == clockBefore + Touch(at)
  }

  // ---------------------------------------------------------------------------
  // What the action and rule loops do, stated over the part of the engine they
  // change

  /** The flags, the clock and the trace of the engine. */
  datatype Snap = Snap(flags: Store, clock: nat, trace: seq<Event>)

  /** The state after a status line. */
  function Announced(s: Snap, e: Event): Snap {
    s.(trace := s.trace + [e])
  }

  /** The state after a wait of t seconds. */
  function Waited(s: Snap, t: int): Snap {
    Snap(s.flags, s.clock + Elapsed(t), s.trace + WaitLog(t))
  }

  /** `check_page_changed()` in the state s, with `head` stored and the driver
      in `frame`. */
  function ChangedAt(world: nat -> Page, frame: Option<nat>, head: Option<Handle>, s: Snap): Result<bool, Fault> {
    PageChanged(head, HeadLookup(world(s.clock), frame))
  }

  /** Where `run_action` is: at its start (the enable flag, the page check
      and the `initWait` key), at its wait, at the page check after the wait,
      or in its try block. */
  datatype ActionStage = Begin | Waiting | Rechecking | Trying

  /** `run_action(action)` from stage `stage` on, from s0 to s1 with outcome r,
      t being the wait drawn.  At the start, nothing happens to a disabled
      action or on a page that changed, and a missing `initWait` raises.  A
      wait that cannot be drawn raises; otherwise it runs for t seconds.  After
      it, a page that changed (or cannot be read) ends the action.  The try
      block does what Attempt says on the page of that instant. */
  ghost predicate ActionRan(world: nat -> Page, py: Builtins, frame: Option<nat>, head: Option<Handle>,
                            a: ActionRec, stage: ActionStage, s0: Snap, s1: Snap, r: Outcome, t: int)
    decreases StageRank(stage)
  {
    var changed := ChangedAt(world, frame, head, s0);
    match stage
    case Begin =>
      if a.enable == Some(false) then r == Ok(()) && s1 == s0
      else if changed != Ok(false) then r == (if changed.Err? then Err(changed.error) else Ok(())) && s1 == s0
      else if a.initWait.None? then r == Err(MissingKey("initWait")) && s1 == s0
      else ActionRan(world, py, frame, head, a, Waiting, s0, s1, r, t)
    case Waiting =>
      && a.initWait.Some?
      && (|| (r.Err? && Resolves(a.initWait.value, Err(r.error)) && s1 == s0)
          || (Resolves(a.initWait.value, Ok(t)) && ActionRan(world, py, frame, head, a, Rechecking, Waited(s0, t), s1, r, t)))
    case Rechecking =>
      if changed != Ok(false) then r == (if changed.Err? then Err(changed.error) else Ok(())) && s1 == s0
      else ActionRan(world, py, frame, head, a, Trying, s0, s1, r, t)
    case Trying =>
      Followed(Attempt(py, world(s0.clock), frame, s0.flags, a), r, s1.flags, s0.trace, s1.trace, s0.clock, s1.clock)
  }

  /** One pass of the action loop: the status line of action `idx` (its
      `initWait` is read for it), then `run_action`, whose wait drew t. */
  ghost predicate StepRan(world: nat -> Page, py: Builtins, frame: Option<nat>, head: Option<Handle>,
                          a: ActionRec, idx: nat, s0: Snap, s1: Snap, r: Outcome, t: int) {
    if a.initWait.None? then r == Err(MissingKey("initWait")) && s1 == s0
    else
      var line := ActionStarted(idx, a.name.GetOr("(unknown)"), a.initWait.value);
      ActionRan(world, py, frame, head, a, Begin, Announced(s0, line), s1, r, t)
  }

  /** states[i + 1] is what action i left, run on states[i] with the wait
      waits[i], and every one of these passes went through. */
  ghost predicate StepsOk(world: nat -> Page, py: Builtins, frame: Option<nat>, head: Option<Handle>,
                          actions: seq<ActionRec>, states: seq<Snap>, waits: seq<int>) {
    && 1 <= |states| <= |actions| + 1 && |waits| == |states| - 1
    && forall i {:trigger StepRan(world, py, frame, head, actions[i], i, states[i], states[i + 1], Ok(()), waits[i])} ::
         0 <= i < |waits| ==>
         StepRan(world, py, frame, head, actions[i], i, states[i], states[i + 1], Ok(()), waits[i])
  }

  /** The action loop of `run_rule`: all actions ran in list order and went
      through, or the earlier ones went through and the last one that ran
      raised. */
  ghost predicate ActionsRan(world: nat -> Page, py: Builtins, frame: Option<nat>, head: Option<Handle>,
                             actions: seq<ActionRec>, states: seq<Snap>, waits: seq<int>, r: Outcome) {
    if r.Ok? then |states| == |actions| + 1 && StepsOk(world, py, frame, head, actions, states, waits)
    else
      && 2 <= |states| <= |actions| + 1 && |waits| == |states| - 1
      && StepsOk(world, py, frame, head, actions, states[..|states| - 1], waits[..|waits| - 1])
      && StepRan(world, py, frame, head, actions[|states| - 2], |states| - 2,
                 states[|states| - 2], states[|states| - 1], r, waits[|waits| - 1])
  }

  lemma StepsOkExtend(world: nat -> Page, py: Builtins, frame: Option<nat>, head: Option<Handle>,
                      actions: seq<ActionRec>, states: seq<Snap>, waits: seq<int>, s: Snap, t: int)
    requires StepsOk(world, py, frame, head, actions, states, waits) && |states| <= |actions|
    requires StepRan(world, py, frame, head, actions[|states| - 1], |states| - 1, states[|states| - 1], s, Ok(()), t)
    ensures StepsOk(world, py, frame, head, actions, states + [s], waits + [t])
  {
    var next, drawn := states + [s], waits + [t];
    forall i | 0 <= i < |drawn|
      ensures StepRan(world, py, frame, head, actions[i], i, next[i], next[i + 1], Ok(()), drawn[i])
    {
      if i < |waits| {
        assert next[i] == states[i] && next[i + 1] == states[i + 1] && drawn[i] == waits[i];
      } else {
        assert next[i] == states[|states| - 1] && next[i + 1] == s && drawn[i] == t;
      }
    }
  }

  lemma ActionsRanStop(world: nat -> Page, py: Builtins, frame: Option<nat>, head: Option<Handle>,
                       actions: seq<ActionRec>, states: seq<Snap>, waits: seq<int>, s: Snap, r: Outcome, t: int)
    requires StepsOk(world, py, frame, head, actions, states, waits) && |states| <= |actions| && r.Err?
    requires StepRan(world, py, frame, head, actions[|states| - 1], |states| - 1, states[|states| - 1], s, r, t)
    ensures ActionsRan(world, py, frame, head, actions, states + [s], waits + [t], r)
  {
    var next, drawn := states + [s], waits + [t];
    assert next[..|next| - 1] == states && drawn[..|drawn| - 1] == waits;
    assert next[|next| - 2] == states[|states| - 1] && next[|next| - 1] == s && drawn[|drawn| - 1] == t;
  }

  function StageRank(stage: ActionStage): nat {
    match stage case Begin => 3 case Waiting => 2 case Rechecking => 1 case Trying => 0
  }

  /** `run_action` only appends to the trace: status lines, countdowns and
      effects are never taken back. */
  lemma {:induction false} ActionRanAppends(world: nat -> Page, py: Builtins, frame: Option<nat>, head: Option<Handle>,
                                            a: ActionRec, stage: ActionStage, s0: Snap, s1: Snap, r: Outcome, t: int)
    requires ActionRan(world, py, frame, head, a, stage, s0, s1, r, t)
    ensures |s0.trace| <= |s1.trace| && s1.trace[..|s0.trace|] == s0.trace
    decreases StageRank(stage)
  {
    var changed := ChangedAt(world, frame, head, s0);
    match stage
    case Begin =>
      if a.enable != Some(false) && changed == Ok(false) && a.initWait.Some? {
        ActionRanAppends(world, py, frame, head, a, Waiting, s0, s1, r, t);
      }
    case Waiting =>
      if !(r.Err? && Resolves(a.initWait.value, Err(r.error)) && s1 == s0) {
        var w := Waited(s0, t);
        ActionRanAppends(world, py, frame, head, a, Rechecking, w, s1, r, t);
        PrefixChain(s0.trace, w.trace, s1.trace);
      }
    case Rechecking =>
      if changed == Ok(false) {
        ActionRanAppends(world, py, frame, head, a, Trying, s0, s1, r, t);
      }
    case Trying =>
      var at := Attempt(py, world(s0.clock), frame, s0.flags, a);
      assert s1.trace == s0.trace + EffectLog(at);
  }

  /** A pass of the action loop shows the action's status line, with its
      index, name and wait, before anything else it does. */
  lemma StepAnnounces(world: nat -> Page, py: Builtins, frame: Option<nat>, head: Option<Handle>,
                      a: ActionRec, idx: nat, s0: Snap, s1: Snap, r: Outcome, t: int)
    requires StepRan(world, py, frame, head, a, idx, s0, s1, r, t) && a.initWait.Some?
    ensures |s0.trace| < |s1.trace|
    ensures s1.trace[..|s0.trace| + 1] == s0.trace + [ActionStarted(idx, a.name.GetOr("(unknown)"), a.initWait.value)]
  {
    var line := ActionStarted(idx, a.name.GetOr("(unknown)"), a.initWait.value);
    var s := Announced(s0, line);
    ActionRanAppends(world, py, frame, head, a, Begin, s, s1, r, t);
  }

  /** Dropping the last pass of a loop that went through leaves one that went
      through. */
  lemma StepsOkFront(world: nat -> Page, py: Builtins, frame: Option<nat>, head: Option<Handle>,
                     actions: seq<ActionRec>, states: seq<Snap>, waits: seq<int>)
    requires StepsOk(world, py, frame, head, actions, states, waits) && 2 <= |states|
    ensures StepsOk(world, py, frame, head, actions, states[..|states| - 1], waits[..|waits| - 1])
  {
    var front, drawn := states[..|states| - 1], waits[..|waits| - 1];
    forall j | 0 <= j < |drawn|
      ensures StepRan(world, py, frame, head, actions[j], j, front[j], front[j + 1], Ok(()), drawn[j])
    {
      assert front[j] == states[j] && front[j + 1] == states[j + 1] && drawn[j] == waits[j];
    }
  }

  /** The loop only appends: every state it went through has a trace that the
      last one extends. */
  lemma {:induction false} StepsAppend(world: nat -> Page, py: Builtins, frame: Option<nat>, head: Option<Handle>,
                                       actions: seq<ActionRec>, states: seq<Snap>, waits: seq<int>, i: nat)
    requires StepsOk(world, py, frame, head, actions, states, waits) && i < |states|
    ensures |states[i].trace| <= |states[|states| - 1].trace|
    ensures states[|states| - 1].trace[..|states[i].trace|] == states[i].trace
    decreases |states|
  {
    var n := |states|;
    if i < n - 1 {
      StepsOkFront(world, py, frame, head, actions, states, waits);
      var front := states[..n - 1];
      StepsAppend(world, py, frame, head, actions, front, waits[..n - 2], i);
      assert front[i] == states[i] && front[n - 2] == states[n - 2];
      StepExtends(world, py, frame, head, actions, states, waits, n - 2);
      PrefixChain(states[i].trace, states[n - 2].trace, states[n - 1].trace);
    }
  }

  /** One pass of a loop that went through only appends to the trace. */
  lemma StepExtends(world: nat -> Page, py: Builtins, frame: Option<nat>, head: Option<Handle>,
                    actions: seq<ActionRec>, states: seq<Snap>, waits: seq<int>, j: nat)
    requires StepsOk(world, py, frame, head, actions, states, waits) && j < |waits|
    ensures |states[j].trace| <= |states[j + 1].trace|
    ensures states[j + 1].trace[..|states[j].trace|] == states[j].trace
  {
    var s0, s1 := states[j], states[j + 1];
    assert StepRan(world, py, frame, head, actions[j], j, s0, s1, Ok(()), waits[j]);
    if actions[j].initWait.Some? {
      StepAnnounces(world, py, frame, head, actions[j], j, s0, s1, Ok(()), waits[j]);
      assert s1.trace[..|s0.trace|] == s1.trace[..|s0.trace| + 1][..|s0.trace|];
    }
  }

  /** In a loop that went through, action i was announced with its own index,
      name and wait, right where the trace of the state it ran on ends, and the
      final trace keeps that line: the status lines come in list order. */
  lemma ActionsAnnounced(world: nat -> Page, py: Builtins, frame: Option<nat>, head: Option<Handle>,
                         actions: seq<ActionRec>, states: seq<Snap>, waits: seq<int>, i: nat)
    requires StepsOk(world, py, frame, head, actions, states, waits) && i < |waits|
    ensures actions[i].initWait.Some?
    ensures |states[i].trace| < |states[|states| - 1].trace|
    ensures states[|states| - 1].trace[|states[i].trace|]
            == ActionStarted(i, actions[i].name.GetOr("(unknown)"), actions[i].initWait.value)
  {
    assert StepRan(world, py, frame, head, actions[i], i, states[i], states[i + 1], Ok(()), waits[i]);
    StepAnnounces(world, py, frame, head, actions[i], i, states[i], states[i + 1], Ok(()), waits[i]);
    StepsAppend(world, py, frame, head, actions, states, waits, i + 1);
    var k := |states[i].trace|;
    assert states[i + 1].trace[k] == ActionStarted(i, actions[i].name.GetOr("(unknown)"), actions[i].initWait.value) by {
      assert states[i + 1].trace[..k + 1][k] == states[i + 1].trace[k];
    }
    assert states[|states| - 1].trace[..|states[i + 1].trace|][k] == states[|states| - 1].trace[k];
  }

  /** An outcome that did not raise is `Ok(())`. */
  lemma OkIsUnit(r: Outcome)
    requires r.Ok?
    ensures r == Ok(())
  {
    match r.value {
      case () =>
    }
  }

  /** The whole engine state a rule run reads and writes. */
  datatype Engine = Engine(frame: Option<nat>, head: Option<Handle>, snap: Snap)

  /** What a rule run drew: its own wait, the states its action loop went
      through and the waits its actions drew. */
  datatype RunLog = RunLog(wait: int, states: seq<Snap>, waits: seq<int>)

  /** `run_rule(rule)` past its gate, from e0 to e1: `name` and `initWait` are
      read for the status line, and then the rule waits and runs its actions
      as WaitedRan says, in the frame and with the head the gate left. */
  ghost predicate FiredRan(world: nat -> Page, py: Builtins, rule: RuleRec, e0: Engine, e1: Engine, r: Outcome,
                           log: RunLog) {
    var s0, s1 := e0.snap, e1.snap;
    && e1.frame == e0.frame && e1.head == e0.head
    && if rule.name.None? then r == Err(MissingKey("name")) && s1 == s0
       else if rule.initWait.None? then r == Err(MissingKey("initWait")) && s1 == s0
       else
         var announced := Announced(s0, RuleStarted(rule.name.value, rule.initWait.value));
         WaitedRan(world, py, e0.frame, e0.head, rule.initWait.value, rule.actions, announced, s1, r, log)
  }

  /** The rest of `run_rule` after its status line, from s0 to s1: the wait is
      drawn (a draw that fails raises); then `actions` is read and the action
      loop runs from the state the wait left, states[0], to s1. */
  ghost predicate WaitedRan(world: nat -> Page, py: Builtins, frame: Option<nat>, head: Option<Handle>,
                            spec: WaitSpec, actions: Option<seq<ActionRec>>, s0: Snap, s1: Snap, r: Outcome,
                            log: RunLog) {
    var states := log.states;
    if states == [] then r.Err? && Resolves(spec, Err(r.error)) && s1 == s0
    else
      && Resolves(spec, Ok(log.wait))
      && states[0] == Waited(s0, log.wait) && s1 == states[|states| - 1]
      && if actions.None? then r == Err(MissingKey("actions")) && |states| == 1
         else ActionsRan(world, py, frame, head, actions.value, states, log.waits, r)
  }

  /** A wait that cannot be drawn ends the rule with its error and nothing changed. */
  lemma WaitFailed(world: nat -> Page, py: Builtins, frame: Option<nat>, head: Option<Handle>, spec: WaitSpec,
                   actions: Option<seq<ActionRec>>, s0: Snap, r: Outcome)
    requires r.Err? && Resolves(spec, Err(r.error))
    ensures WaitedRan(world, py, frame, head, spec, actions, s0, s0, r, RunLog(0, [], []))
  {
  }

  /** A rule without an `actions` key raises KeyError after its wait. */
  lemma WaitedNoActions(world: nat -> Page, py: Builtins, frame: Option<nat>, head: Option<Handle>, spec: WaitSpec,
                        s0: Snap, s1: Snap, t: int)
    requires Resolves(spec, Ok(t)) && s1 == Waited(s0, t)
    ensures WaitedRan(world, py, frame, head, spec, None, s0, s1, Err(MissingKey("actions")), RunLog(t, [s1], []))
  {
  }

  /** Otherwise the action loop runs from the state the wait left. */
  lemma WaitedThenLoop(world: nat -> Page, py: Builtins, frame: Option<nat>, head: Option<Handle>, spec: WaitSpec,
                       actions: seq<ActionRec>, s0: Snap, t: int, states: seq<Snap>, waits: seq<int>, r: Outcome)
    requires Resolves(spec, Ok(t))
    requires ActionsRan(world, py, frame, head, actions, states, waits, r)
    requires 1 <= |states| && states[0] == Waited(s0, t)
    ensures WaitedRan(world, py, frame, head, spec, Some(actions), s0, states[|states| - 1], r, RunLog(t, states, waits))
  {
  }

  /** `run_rule(rule)` from e0 to e1: the gate runs, and on a pass the head it
      found is stored and the rule goes on in the frame the gate left. */
  ghost predicate RuleRan(world: nat -> Page, py: Builtins, rule: RuleRec, e0: Engine, e1: Engine, r: Outcome,
                          log: RunLog) {
    var g := RuleGate(rule, world(e0.snap.clock), e0.frame, e0.head);
    if g.outcome != Ok(true) then
      r == (if g.outcome.Err? then Err(g.outcome.error) else Ok(())) && e1 == e0.(frame := g.frame)
    else FiredRan(world, py, rule, Engine(g.frame, g.head, e0.snap), e1, r, log)
  }

  /** engines[i + 1] is what rule i left, run on engines[i] as logs[i] says,
      and every one of these runs went through. */
  ghost predicate RuleStepsOk(world: nat -> Page, py: Builtins, rules: seq<RuleRec>, engines: seq<Engine>,
                              logs: seq<RunLog>) {
    && 1 <= |engines| <= |rules| + 1 && |logs| == |engines| - 1
    && forall i {:trigger RuleRan(world, py, rules[i], engines[i], engines[i + 1], Ok(()), logs[i])} ::
         0 <= i < |logs| ==> RuleRan(world, py, rules[i], engines[i], engines[i + 1], Ok(()), logs[i])
  }

  /** `process_rules()`: all rules ran in list order and went through, or the
      earlier ones went through and the last one that ran raised. */
  ghost predicate RulesRan(world: nat -> Page, py: Builtins, rules: seq<RuleRec>, engines: seq<Engine>,
                           logs: seq<RunLog>, r: Outcome) {
    if r.Ok? then |engines| == |rules| + 1 && RuleStepsOk(world, py, rules, engines, logs)
    else
      && 2 <= |engines| <= |rules| + 1 && |logs| == |engines| - 1
      && RuleStepsOk(world, py, rules, engines[..|engines| - 1], logs[..|logs| - 1])
      && RuleRan(world, py, rules[|engines| - 2], engines[|engines| - 2], engines[|engines| - 1], r, logs[|logs| - 1])
  }

  lemma RuleStepsOkExtend(world: nat -> Page, py: Builtins, rules: seq<RuleRec>, engines: seq<Engine>,
                          logs: seq<RunLog>, e: Engine, log: RunLog)
    requires RuleStepsOk(world, py, rules, engines, logs) && |engines| <= |rules|
    requires RuleRan(world, py, rules[|engines| - 1], engines[|engines| - 1], e, Ok(()), log)
    ensures RuleStepsOk(world, py, rules, engines + [e], logs + [log])
  {
    var next, drawn := engines + [e], logs + [log];
    forall i | 0 <= i < |drawn|
      ensures RuleRan(world, py, rules[i], next[i], next[i + 1], Ok(()), drawn[i])
    {
      if i < |logs| {
        assert next[i] == engines[i] && next[i + 1] == engines[i + 1] && drawn[i] == logs[i];
      } else {
        assert next[i] == engines[|engines| - 1] && next[i + 1] == e && drawn[i] == log;
      }
    }
  }

  lemma RulesRanStop(world: nat -> Page, py: Builtins, rules: seq<RuleRec>, engines: seq<Engine>,
                     logs: seq<RunLog>, e: Engine, r: Outcome, log: RunLog)
    requires RuleStepsOk(world, py, rules, engines, logs) && |engines| <= |rules| && r.Err?
    requires RuleRan(world, py, rules[|engines| - 1], engines[|engines| - 1], e, r, log)
    ensures RulesRan(world, py, rules, engines + [e], logs + [log], r)
  {
    var next, drawn := engines + [e], logs + [log];
    assert next[..|next| - 1] == engines && drawn[..|drawn| - 1] == logs;
    assert next[|next| - 2] == engines[|engines| - 1] && next[|next| - 1] == e && drawn[|drawn| - 1] == log;
  }

  /** What the handlers of `check` leave, from the state e0 the rules left to
      e1, with `paused` the new pause flag and `escaped` the exception that
      leaves `check`, the browser probe answering `cookies`: nothing raised, or
      a logged exception, changes nothing; a timeout whose probe answers
      forgets the head; one whose probe times out raises the alarm and pauses; a SyntaxError
      pauses; a probe that fails otherwise escapes, changing nothing. */
  predicate Disposed(fault: Option<Fault>, cookies: Result<(), DriverError>, e0: Engine, e1: Engine, paused: bool,
                     escaped: Option<Fault>) {
    match fault
    case None => e1 == e0 && !paused && escaped.None?
    case Some(f) =>
      match Disposal(f, cookies)
      case Logged => e1 == e0 && !paused && escaped.None?
      case ForgetHead => e1 == e0.(head := None) && !paused && escaped.None?
      case Alarm(message) => e1 == e0.(snap := Announced(e0.snap, Did(Notify(message)))) && paused && escaped.None?
      case Halt => e1 == e0 && paused && escaped.None?
      case Escape(g) => e1 == e0 && !paused && escaped == Some(g)
  }

  // ---------------------------------------------------------------------------

  class MyWeb {
    var started: bool
    var paused: bool
    var ruleFileMtime: Option<real>
    var ruleData: seq<RuleRec>
    var pageHead: Option<Handle>
    var ruleFlags: Store
    var currentRule: string
    var currentAction: string
    var currentActionIndex: int
    /** The frame the driver is switched into; None for the top document. */
    var frame: Option<nat>
    var clock: nat
    var trace: seq<Event>
    const world: nat -> Page
    const py: Builtins

    /** A fresh engine over rules already loaded (at file time `mtime`). */
    constructor (world: nat -> Page, py: Builtins, rules: seq<RuleRec>, mtime: Option<real>)
      ensures this.world == world && this.py == py
      ensures !started && paused && ruleData == rules && ruleFileMtime == mtime
      ensures pageHead == None && ruleFlags == map[] && frame == None && clock == 0 && trace == []
      ensures currentRule == "" && currentAction == "" && currentActionIndex == -1
    {
      this.world := world;
      this.py := py;
      started := false;
      paused := true;
      ruleFileMtime := mtime;
      ruleData := rules;
      pageHead := None;
      ruleFlags := map[];
      currentRule := "";
      currentAction := "";
      currentActionIndex := -1;
      frame := None;
      clock := 0;
      trace := [];
    }

    /** `pause(enable)`. */
    method Pause(enable: bool)
      modifies this`paused
      ensures paused == enable
    {
      paused := enable;
    }

    /** `clear()`: forget the page head and every flag. */
    method Clear()
      modifies this`pageHead, this`ruleFlags
      ensures pageHead == None && ruleFlags == map[]
    {
      pageHead := None;
      ruleFlags := map[];
    }

    /** `check_rule_file_modified()` given the file's current mtime. */
    function RuleFileModified(mtime: real): (r: bool)
      reads this
      ensures r <==> ruleFileMtime.None? || ruleFileMtime.value < mtime
      ensures ruleFileMtime == Some(mtime) ==> !r
    {
      match ruleFileMtime
      case None => true
      case Some(m) => m < mtime
    }

    /** The flags, the clock and the trace as they are now. */
    function State(): Snap
      reads this
    {
      Snap(ruleFlags, clock, trace)
    }

    /** The state a rule run reads and writes. */
    function Whole(): Engine
      reads this
    {
      Engine(frame, pageHead, State())
    }

    /** `check_page_changed()` now. */
    function CheckPageChanged(): Result<bool, Fault>
      reads this
    {
      PageChanged(pageHead, HeadLookup(world(clock), frame))
    }

    /** `wait_in_page(spec)`: resolve the delay; a zero delay returns at once,
        any other is announced, waited out and counted down to "0". */
    method WaitInPage(spec: WaitSpec) returns (r: Outcome, ghost t: int)
      modifies this`clock, this`trace
      ensures r.Err? ==> Resolves(spec, Err(r.error)) && clock == old(clock) && trace == old(trace)
      ensures r.Ok? ==> Resolves(spec, Ok(t)) && trace == old(trace) + WaitLog(t) && clock == old(clock) + Elapsed(t)
    {
      var w := GetWait(spec);
      if w.Err? {
        return Err(w.error), 0;
      }
      var n := w.value;
      t := n;
      if n == 0 {
        assert trace + WaitLog(n) == trace;
        return Ok(()), t;
      }
      trace := trace + WaitLog(n);
      clock := clock + Elapsed(n);
      r := Ok(());
    }

    /** `check_url(url)`. */
    method CheckUrl(url: string) returns (r: Result<bool, Fault>)
      modifies this`frame
      ensures (r, frame) == UrlCheck(world(clock), old(frame), url)
    {
      var page := world(clock);
      if Contains(page.url, url) {
        return Ok(true);
      }
      frame := None;
      var frames := page.frames;
      var i := 0;
      while i < |frames|
        invariant 0 <= i <= |frames| && frame == None
        invariant ScanFrames(frames, url, 0) == ScanFrames(frames, url, i)
      {
        match frames[i].url
        case Err(e) =>
          return if e.NoSuchElement? || e.StaleElement? then Ok(false) else Err(Driver(e));
        case Ok(u) =>
          if Contains(u, url) {
            frame := Some(i);
            return Ok(true);
          }
        i := i + 1;
      }
      r := Ok(false);
    }

    /** `set_flags(flag, cond)`: the entries of the selected list in order, each
        changing `ruleFlags` in place; the first failing entry raises. */
    method SetFlags(f: FlagExpr, cond: bool) returns (r: Outcome)
      modifies this`ruleFlags
      ensures Flags.SetFlags(py, old(ruleFlags), f, cond) ==
        Applied(ruleFlags, if r.Err? then Some(r.error) else None)
    {
      var list := if cond then f.onTrue else f.onFalse;
      if list.None? {
        return Ok(());
      }
      var todos := list.value;
      var i := 0;
      while i < |todos|
        invariant 0 <= i <= |todos|
        invariant ApplyAll(py, old(ruleFlags), todos[..i]) == Applied(ruleFlags, None)
      {
        assert todos[..i + 1][..i] == todos[..i];
        var m := todos[i];
        ghost var before := ruleFlags;
        var fault: Option<Fault> := None;
        if m.name.None? {
          fault := Some(MissingKey("name"));
        } else if m.value.None? {
          fault := Some(MissingKey("value"));
        } else if m.op.None? {
          fault := Some(MissingKey("op"));
        } else {
          var name, val, op := m.name.value, m.value.value, Lower(m.op.value);
          if name == "" {
          } else if op in {"set", "="} {
            ruleFlags := ruleFlags[name := val];
          } else if op in {"decr", "-=", "incr", "+="} {
            if name !in ruleFlags {
              fault := Some(MissingKey(name));
            } else {
              var prior := py.parseFloat(ruleFlags[name]);
              var delta := py.parseFloat(val);
              if prior.None? {
                fault := Some(NotANumber(ruleFlags[name]));
              } else if delta.None? {
                fault := Some(NotANumber(val));
              } else {
                var next := if op in {"decr", "-="} then py.sub(prior.value, delta.value)
                            else py.add(prior.value, delta.value);
                ruleFlags := ruleFlags[name := py.floatStr(next)];
              }
            }
          } else {
            fault := Some(UnknownFlagOp(op));
          }
        }
        if fault.Some? {
          assert ApplyMutation(py, before, m) == Err(fault.value) && ruleFlags == before;
          FaultStopsList(py, old(ruleFlags), todos[..i + 1], todos[i + 1..]);
          assert todos[..i + 1] + todos[i + 1..] == todos;
          return Err(fault.value);
        }
        assert ApplyMutation(py, before, m) == Ok(ruleFlags);
        i := i + 1;
      }
      assert todos[..i] == todos;
      r := Ok(());
    }

    /** `evaluate_flag(flag)`. */
    method EvaluateFlag(f: FlagExpr) returns (r: Result<bool, Fault>)
      modifies this`ruleFlags
      ensures Verdict(r, ruleFlags) == Evaluate(py, old(ruleFlags), f)
      decreases f
    {
      if f.name.None? {
        return Err(MissingKey("name"));
      }
      if f.value.None? {
        return Err(MissingKey("value"));
      }
      if f.condition.None? {
        return Err(MissingKey("condition"));
      }
      var base := BaseTest(py, ruleFlags, f.name.value, f.value.value, f.condition.value);
      if base.Err? {
        return base;
      }
      if f.andExpr.Some? && f.orExpr.Some? {
        return Err(ConflictingLogic);
      }
      var result := base.value;
      ghost var start := ruleFlags;
      if f.andExpr.Some? {
        var r2 := EvaluateFlag(f.andExpr.value);
        if r2.Err? {
          return r2;
        }
        result := result && r2.value;
      }
      assert Join(py, start, base.value, f.andExpr, true) == Verdict(Ok(result), ruleFlags);
      ghost var mid := ruleFlags;
      if f.orExpr.Some? {
        var r2 := EvaluateFlag(f.orExpr.value);
        if r2.Err? {
          return r2;
        }
        result := result || r2.value;
      }
      assert Join(py, mid, if f.andExpr.Some? then result else base.value, f.orExpr, false) == Verdict(Ok(result), ruleFlags);
      var s := SetFlags(f, result);
      if s.Err? {
        return Err(s.error);
      }
      r := Ok(result);
    }

    /** `check_flags(action)`. */
    method CheckFlags(a: ActionRec) returns (r: Result<bool, Fault>)
      modifies this`ruleFlags
      ensures Verdict(r, ruleFlags) == FlagsHold(py, old(ruleFlags), a)
    {
      if NoFlag(a.flag) {
        return Ok(true);
      }
      r := EvaluateFlag(a.flag.value);
    }

    /** The try block of `run_action` on the page as it is now. */
    method TryAction(a: ActionRec) returns (r: Outcome)
      modifies this`ruleFlags, this`clock, this`trace
      ensures Followed(Attempt(py, world(old(clock)), frame, old(ruleFlags), a), r, ruleFlags,
                       old(trace), trace, old(clock), clock)
    {
      var loc := Locator(a.xpath, a.elementFinder);
      if loc.None? {
        return Err(Driver(InvalidArgument));
      }
      var found := FindElement(world(clock), frame, loc.value);
      if found.Err? {
        return Settle(Driver(found.error));
      }
      var el := found.value;
      var criterion := CriteriaHolds(py, world(clock), frame, a);
      if criterion.Err? {
        return Settle(criterion.error);
      }
      if !criterion.value {
        return Ok(());
      }
      var flags := CheckFlags(a);
      if flags.Err? {
        return Settle(flags.error);
      }
      if !flags.value {
        return Ok(());
      }
      if a.value.None? {
        return Err(MissingKey("value"));
      }
      if el.readFault.Some? {
        return Settle(Driver(el.readFault.value));
      }
      var chosen := EffectFor(py, a.value.value, loc.value, el);
      if chosen.Err? {
        return Err(chosen.error);
      }
      var effect := chosen.value;
      var fault := EffectFault(effect, el);
      if fault.Some? {
        return Settle(Driver(fault.value));
      }
      trace := trace + [Did(effect)];
      if !effect.Notify? {
        clock := clock + 1;
      }
      r := Ok(());
    }

    /** `run_action(action)`, as ActionRan says; t is the wait drawn. */
    method RunAction(a: ActionRec) returns (r: Outcome, ghost t: int)
      modifies this`ruleFlags, this`clock, this`trace
      ensures ActionRan(world, py, frame, pageHead, a, Begin, old(State()), State(), r, t)
      ensures |old(trace)| <= |trace| && trace[..|old(trace)|] == old(trace)
    {
      t := 0;
      if !a.enable.GetOr(true) {
        return Ok(()), t;
      }
      var changed := CheckPageChanged();
      if changed.Err? {
        return Err(changed.error), t;
      }
      if changed.value {
        return Ok(()), t;
      }
      if a.initWait.None? {
        return Err(MissingKey("initWait")), t;
      }
      r, t := WaitThenTry(a);
    }

    /** The rest of `run_action` from its wait on, as ActionRan says from the
        wait. */
    method WaitThenTry(a: ActionRec) returns (r: Outcome, ghost t: int)
      requires a.initWait.Some?
      modifies this`ruleFlags, this`clock, this`trace
      ensures ActionRan(world, py, frame, pageHead, a, Waiting, old(State()), State(), r, t)
      ensures |old(trace)| <= |trace| && trace[..|old(trace)|] == old(trace)
    {
      ghost var s0 := State();
      r, t := WaitInPage(a.initWait.value);
      if r.Err? {
        return;
      }
      ghost var waitedOut := State();
      assert waitedOut == Waited(s0, t);
      r := AfterWait(a, t);
      assert ActionRan(world, py, frame, pageHead, a, Rechecking, waitedOut, State(), r, t);
      PrefixChain(s0.trace, waitedOut.trace, trace);
    }

    /** The rest of `run_action` once the wait (of t seconds) is over, as
        ActionRan says from the page check after the wait. */
    method AfterWait(a: ActionRec, ghost t: int) returns (r: Outcome)
      modifies this`ruleFlags, this`clock, this`trace
      ensures ActionRan(world, py, frame, pageHead, a, Rechecking, old(State()), State(), r, t)
      ensures |old(trace)| <= |trace| && trace[..|old(trace)|] == old(trace)
    {
      var changed := CheckPageChanged();
      if changed.Err? {
        return Err(changed.error);
      }
      if changed.value {
        return Ok(());
      }
      r := TryAction(a);
    }

    /** The gate of `run_rule`: `enable`, `check_url`, the page change check,
        and the head lookup, whose head is stored when the gate lets the rule
        through. */
    method PassGate(rule: RuleRec) returns (r: Result<bool, Fault>)
      modifies this`frame, this`pageHead
      ensures var g := old(RuleGate(rule, world(clock), frame, pageHead));
        && r == g.outcome && frame == g.frame
        && pageHead == (if r == Ok(true) then g.head else old(pageHead))
    {
      if rule.enable.None? {
        return Err(MissingKey("enable"));
      }
      if !rule.enable.value {
        return Ok(false);
      }
      if rule.url.None? {
        return Err(MissingKey("url"));
      }
      var found := CheckUrl(rule.url.value);
      if found.Err? {
        return Err(found.error);
      }
      if !found.value {
        return Ok(false);
      }
      var changed := CheckPageChanged();
      if changed.Err? {
        return Err(changed.error);
      }
      if !changed.value {
        return Ok(false);
      }
      var head := HeadLookup(world(clock), frame);
      if head.Err? {
        return Err(Driver(head.error));
      }
      pageHead := Some(head.value);
      r := Ok(true);
    }

    /** One pass of the action loop of `run_rule`, as StepRan says: the action
        becomes the current one, its status line names its index, and it runs;
        t is the wait it drew. */
    method StartAction(a: ActionRec, idx: nat) returns (r: Outcome, ghost t: int)
      modifies this`currentAction, this`currentActionIndex, this`ruleFlags, this`clock, this`trace
      ensures currentAction == a.name.GetOr("(unknown)") && currentActionIndex == idx
      ensures StepRan(world, py, frame, pageHead, a, idx, old(State()), State(), r, t)
      ensures |old(trace)| <= |trace| && trace[..|old(trace)|] == old(trace)
    {
      t := 0;
      currentAction := a.name.GetOr("(unknown)");
      currentActionIndex := idx;
      if a.initWait.None? {
        return Err(MissingKey("initWait")), t;
      }
      trace := trace + [ActionStarted(idx, currentAction, a.initWait.value)];
      ghost var announced := trace;
      r, t := RunAction(a);
      PrefixChain(old(trace), announced, trace);
    }

    /** One turn of the action loop: action idx runs on the state the actions
        before it left, and the states and waits drawn so far grow by its own. */
    method RunNext(actions: seq<ActionRec>, idx: nat, ghost states: seq<Snap>, ghost waits: seq<int>)
      returns (r: Outcome, ghost states': seq<Snap>, ghost waits': seq<int>)
      requires idx < |actions| && |states| == idx + 1 && states[idx] == State()
      requires StepsOk(world, py, frame, pageHead, actions, states, waits)
      modifies this`currentAction, this`currentActionIndex, this`ruleFlags, this`clock, this`trace
      ensures |states'| == idx + 2 && states'[..idx + 1] == states && states'[idx + 1] == State()
      ensures r.Ok? ==> StepsOk(world, py, frame, pageHead, actions, states', waits')
      ensures r.Err? ==> ActionsRan(world, py, frame, pageHead, actions, states', waits', r)
      ensures |old(trace)| <= |trace| && trace[..|old(trace)|] == old(trace)
    {
      ghost var fr, hd := frame, pageHead;
      ghost var t;
      r, t := StartAction(actions[idx], idx);
      ghost var s1 := State();
      assert fr == frame && hd == pageHead;
      assert StepRan(world, py, fr, hd, actions[|states| - 1], |states| - 1, states[|states| - 1], s1, r, t);
      if r.Err? {
        ActionsRanStop(world, py, fr, hd, actions, states, waits, s1, r, t);
      } else {
        OkIsUnit(r);
        StepsOkExtend(world, py, fr, hd, actions, states, waits, s1, t);
      }
      states', waits' := states + [s1], waits + [t];
    }

    /** The action loop of `run_rule`, as ActionsRan says: the actions in list
        order, each announced with its index and run on the state the one
        before it left, until one raises.  states[i] is the state action i
        runs on and waits[i] the wait it drew; the last state is the one after
        the loop. */
    method RunActions(actions: seq<ActionRec>) returns (r: Outcome, ghost states: seq<Snap>, ghost waits: seq<int>)
      modifies this`currentAction, this`currentActionIndex, this`ruleFlags, this`clock, this`trace
      ensures ActionsRan(world, py, frame, pageHead, actions, states, waits, r)
      ensures 1 <= |states| && states[0] == old(State()) && states[|states| - 1] == State()
      ensures |old(trace)| <= |trace| && trace[..|old(trace)|] == old(trace)
    {
      states, waits := [State()], [];
      var idx := 0;
      while idx < |actions|
        invariant 0 <= idx <= |actions|
        invariant |old(trace)| <= |trace| && trace[..|old(trace)|] == old(trace)
        invariant |states| == idx + 1 && states[0] == old(State()) && states[idx] == State()
        invariant StepsOk(world, py, frame, pageHead, actions, states, waits)
      {
        ghost var before := trace;
        r, states, waits := RunNext(actions, idx, states, waits);
        PrefixChain(old(trace), before, trace);
        if r.Err? {
          return;
        }
        idx := idx + 1;
      }
      r := Ok(());
    }

    /** `run_rule(rule)` past its gate, as FiredRan says: the status line, then
        the rule's wait and its actions. */
    method RunFired(rule: RuleRec) returns (r: Outcome, ghost log: RunLog)
      modifies this`currentAction, this`currentActionIndex, this`ruleFlags, this`clock, this`trace
      ensures FiredRan(world, py, rule, old(Whole()), Whole(), r, log)
      ensures |old(trace)| <= |trace| && trace[..|old(trace)|] == old(trace)
    {
      log := RunLog(0, [], []);
      if rule.name.None? {
        return Err(MissingKey("name")), log;
      }
      if rule.initWait.None? {
        return Err(MissingKey("initWait")), log;
      }
      trace := trace + [RuleStarted(rule.name.value, rule.initWait.value)];
      ghost var announced := trace;
      r, log := WaitThenActions(rule.initWait.value, rule.actions);
      PrefixChain(old(trace), announced, trace);
    }

    /** The rule's wait, then its action loop, as WaitedRan says; `log`
        records the wait drawn and the states the loop went through. */
    method WaitThenActions(spec: WaitSpec, actions: Option<seq<ActionRec>>) returns (r: Outcome, ghost log: RunLog)
      modifies this`currentAction, this`currentActionIndex, this`ruleFlags, this`clock, this`trace
      ensures WaitedRan(world, py, frame, pageHead, spec, actions, old(State()), State(), r, log)
      ensures |old(trace)| <= |trace| && trace[..|old(trace)|] == old(trace)
    {
      ghost var s0 := State();
      ghost var t;
      r, t := WaitInPage(spec);
      if r.Err? {
        WaitFailed(world, py, frame, pageHead, spec, actions, s0, r);
        return r, RunLog(0, [], []);
      }
      ghost var waitedOut := State();
      if actions.None? {
        WaitedNoActions(world, py, frame, pageHead, spec, s0, waitedOut, t);
        return Err(MissingKey("actions")), RunLog(t, [waitedOut], []);
      }
      r, log := LoopAfterWait(spec, actions, s0, t);
    }

    /** The action loop of a rule whose wait, drawn as t seconds, took the
        engine from s0 to the current state, as WaitedRan says from s0. */
    method LoopAfterWait(spec: WaitSpec, actions: Option<seq<ActionRec>>, ghost s0: Snap, ghost t: int)
      returns (r: Outcome, ghost log: RunLog)
      requires actions.Some? && Resolves(spec, Ok(t)) && State() == Waited(s0, t)
      modifies this`currentAction, this`currentActionIndex, this`ruleFlags, this`clock, this`trace
      ensures WaitedRan(world, py, frame, pageHead, spec, actions, s0, State(), r, log)
      ensures |s0.trace| <= |trace| && trace[..|s0.trace|] == s0.trace
    {
      ghost var waitedOut := trace;
      ghost var states, waits;
      r, states, waits := RunActions(actions.value);
      WaitedThenLoop(world, py, frame, pageHead, spec, actions.value, s0, t, states, waits, r);
      log := RunLog(t, states, waits);
      PrefixChain(s0.trace, waitedOut, trace);
    }

    /** `run_rule(rule)`, as RuleRan says.  The rule's gate decides whether it
        runs; a rule that runs stores the head it found, announces itself,
        waits, and then runs its actions in list order, each on the state the
        one before it left, until one raises.  `fired` says the gate let the
        rule through. */
    method RunRule(rule: RuleRec) returns (r: Outcome, ghost fired: bool, ghost log: RunLog)
      modifies this`currentRule, this`currentAction, this`currentActionIndex, this`frame
      modifies this`pageHead, this`ruleFlags, this`clock, this`trace
      ensures currentRule == rule.name.GetOr("(unknown)")
      ensures RuleRan(world, py, rule, old(Whole()), Whole(), r, log)
      ensures var g := old(RuleGate(rule, world(clock), frame, pageHead));
        && (fired <==> g.outcome == Ok(true))
        && (!fired ==> currentAction == old(currentAction) && currentActionIndex == old(currentActionIndex))
      ensures |old(trace)| <= |trace| && trace[..|old(trace)|] == old(trace)
    {
      log := RunLog(0, [], []);
      currentRule := rule.name.GetOr("(unknown)");
      var pass := PassGate(rule);
      fired := pass == Ok(true);
      if pass.Err? {
        return Err(pass.error), fired, log;
      }
      if !pass.value {
        return Ok(()), fired, log;
      }
      r, log := RunFired(rule);
    }

    /** `process_rules()`, as RulesRan says: every rule in order, each on the
        state the one before it left, until one raises.  engines[i] is the
        state rule i runs on and logs[i] what it drew; the last engine state is
        the one after the loop. */
    method ProcessRules() returns (r: Outcome, ghost engines: seq<Engine>, ghost logs: seq<RunLog>)
      modifies this`currentRule, this`currentAction, this`currentActionIndex, this`frame
      modifies this`pageHead, this`ruleFlags, this`clock, this`trace
      ensures RulesRan(world, py, ruleData, engines, logs, r)
      ensures engines[0] == old(Whole()) && engines[|engines| - 1] == Whole()
      ensures |old(trace)| <= |trace| && trace[..|old(trace)|] == old(trace)
      ensures r.Ok? && ruleData != [] ==> currentRule == ruleData[|ruleData| - 1].name.GetOr("(unknown)")
      ensures ruleData == [] ==> r == Ok(()) && trace == old(trace)
    {
      engines, logs := [Whole()], [];
      var i := 0;
      while i < |ruleData|
        invariant 0 <= i <= |ruleData|
        invariant |old(trace)| <= |trace| && trace[..|old(trace)|] == old(trace)
        invariant i > 0 ==> currentRule == ruleData[i - 1].name.GetOr("(unknown)")
        invariant i == 0 ==> trace == old(trace)
        invariant |engines| == i + 1 && engines[0] == old(Whole()) && engines[i] == Whole()
        invariant RuleStepsOk(world, py, ruleData, engines, logs)
      {
        ghost var before := trace;
        r, engines, logs := NextRule(i, engines, logs);
        assert trace[..|old(trace)|] == before[..|old(trace)|];
        if r.Err? {
          return;
        }
        i := i + 1;
      }
      r := Ok(());
    }

    /** One turn of the loop of `process_rules()`: rule i runs on the state the
        rules before it left, and its run is appended to engines and logs. */
    method NextRule(i: nat, ghost engines: seq<Engine>, ghost logs: seq<RunLog>)
      returns (r: Outcome, ghost engines': seq<Engine>, ghost logs': seq<RunLog>)
      requires i < |ruleData| && |engines| == i + 1 && engines[i] == Whole()
      requires RuleStepsOk(world, py, ruleData, engines, logs)
      modifies this`currentRule, this`currentAction, this`currentActionIndex, this`frame
      modifies this`pageHead, this`ruleFlags, this`clock, this`trace
      ensures currentRule == ruleData[i].name.GetOr("(unknown)")
      ensures |engines'| == i + 2 && engines'[0] == engines[0] && engines'[i + 1] == Whole()
      ensures r.Ok? ==> RuleStepsOk(world, py, ruleData, engines', logs')
      ensures r.Err? ==> RulesRan(world, py, ruleData, engines', logs', r)
      ensures |old(trace)| <= |trace| && trace[..|old(trace)|] == old(trace)
    {
      ghost var fired, log;
      r, fired, log := RunRule(ruleData[i]);
      if r.Err? {
        RulesRanStop(world, py, ruleData, engines, logs, Whole(), r, log);
      } else {
        OkIsUnit(r);
        RuleStepsOkExtend(world, py, ruleData, engines, logs, Whole(), log);
      }
      engines', logs' := engines + [Whole()], logs + [log];
    }

    /** `check()`: one tick.  Nothing happens before the engine is started, while
        it is paused, or while an alert is open; otherwise `Running...` is shown
        and the rules run as RulesRan says, from engines[0], the state just after
        that status line, to the last of `engines`.  `fault` is the exception
        that left them, if any, and the handlers then act on that last state as
        Disposal says; `escaped` is the exception a handler lets out of
        `check`, if any. */
    method Check() returns (escaped: Option<Fault>, ghost fault: Option<Fault>, ghost engines: seq<Engine>,
                            ghost logs: seq<RunLog>)
      modifies this
      ensures !old(started) || old(paused) || old(world(clock)).alertOpen ==>
        fault.None? && escaped.None? && unchanged(this)
      ensures started == old(started) && ruleData == old(ruleData)
      ensures old(started) && !old(paused) && !old(world(clock)).alertOpen ==>
        && |old(trace)| < |trace| && trace[..|old(trace)| + 1] == old(trace) + [Running]
        && RulesRan(world, py, ruleData, engines, logs, if fault.None? then Ok(()) else Err(fault.value))
        && engines[0] == Engine(old(frame), old(pageHead), Snap(old(ruleFlags), old(clock), old(trace) + [Running]))
        && Disposed(fault, world(clock).cookies, engines[|engines| - 1], Whole(), paused, escaped)
    {
      escaped, fault, engines, logs := None, None, [], [];
      if !started || paused {
        return;
      }
      if world(clock).alertOpen {
        return;
      }
      trace := trace + [Running];
      ghost var announced, e0 := trace, Whole();
      var p;
      p, engines, logs := ProcessRules();
      assert engines[0] == e0 && trace[..|announced|] == announced;
      assert RulesRan(world, py, ruleData, engines, logs, p);
      if p.Ok? {
        OkIsUnit(p);
        return;
      }
      fault := Some(p.error);
      ghost var ran, last := trace, Whole();
      assert last == engines[|engines| - 1];
      escaped := Dispose(p.error);
      assert Disposed(fault, world(clock).cookies, last, Whole(), paused, escaped);
      assert trace[..|announced|] == ran[..|announced|];
    }

    /** The handlers of `check` for the exception f. */
    method Dispose(f: Fault) returns (escaped: Option<Fault>)
      requires !paused
      modifies this`pageHead, this`paused, this`trace
      ensures Disposed(Some(f), world(clock).cookies, old(Whole()), Whole(), paused, escaped)
      ensures |old(trace)| <= |trace| && trace[..|old(trace)|] == old(trace)
    {
      escaped := None;
      match Disposal(f, world(clock).cookies)
      case ForgetHead =>
        pageHead := None;
      case Alarm(message) =>
        trace := trace + [Did(Notify(message))];
        Pause(true);
      case Halt =>
        Pause(true);
      case Logged =>
      case Escape(g) =>
        escaped := Some(g);
    }
  }
}
