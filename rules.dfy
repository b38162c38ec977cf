/** The rule runner of rules.py: a rule shows its status, asks its `identify`
    callback whether its page is there, waits, and runs its action list; the
    rule list runs its rules in the order they were added.

    Signals, callbacks and sleeps go to the same Host as the actions'. */
module RuleList {
  import opened Prelude
  import opened Actions

  /** `Rule(identify, name, actions, initwait)`; the ActionList is given by the
      actions it holds, None when the rule has none. */
  datatype Rule = Rule(identify: Callback, name: string, actions: Option<seq<Action>>, initwait: InitWait)
  {
    /** `run()` up to the action list, from the events `trace`: the status
        line, the call of `identify`, then the initial wait.  `go` says whether
        the action list is reached. */
    function Opening(reply: nat -> PyValue, trace: seq<Signal>, drawn: Result<int, Fault>)
      : (r: (Outcome, seq<Signal>, bool))
      ensures |trace| + 2 <= |r.1| && r.1[..|trace|] == trace
      ensures r.1[|trace|] == Status(RuleLine(name, initwait)) && r.1[|trace| + 1] == Call(identify)
      ensures r.2 ==> r.0.Ok?
    {
      var asked := trace + [Status(RuleLine(name, initwait)), Call(identify)];
      if !Truthy(reply(|trace| + 1)) then (Ok(()), asked, false)
      else
        var (waited, pause) := InitialWait(initwait, drawn);
        (waited, asked + pause, waited.Ok?)
    }

    /** `run()`.  `drawn` is what the WaitValue's `value()` drew and `draws`
        what the actions drew. */
    method Run(h: Host) returns (r: Outcome, ghost drawn: Result<int, Fault>, ghost draws: seq<Result<int, Fault>>)
      modifies h
      ensures RuleRan(this, h.reply, old(h.events), h.events, r, drawn, draws)
    {
      var go;
      r, go, drawn := Open(h);
      draws := [];
      if !go {
        return;
      }
      if actions.None? {
        return Err(AttributeMissing("run")), drawn, draws;
      }
      r, draws := RunAll(h, actions.value);
    }

    /** The part of `run()` before the action list. */
    method Open(h: Host) returns (r: Outcome, go: bool, ghost drawn: Result<int, Fault>)
      modifies h
      ensures Drawn(initwait, drawn) && (r, h.events, go) == Opening(h.reply, old(h.events), drawn)
    {
      r := Ok(());
      drawn := if initwait.Range? then SomeDraw(initwait.w) else Ok(0);
      h.Emit(Status(RuleLine(name, initwait)));
      var found := h.Invoke(identify);
      ghost var asked := old(h.events) + [Status(RuleLine(name, initwait)), Call(identify)];
      assert h.events == asked;
      if !Truthy(found) {
        return r, false, drawn;
      }
      ghost var pause;
      r, drawn, pause := WaitInitially(h, initwait);
      assert h.events == asked + pause;
      go := r.Ok?;
    }
  }

  /** What Rule.run did, from the events `before` to the events `after`. */
  predicate RuleRan(rule: Rule, reply: nat -> PyValue, before: seq<Signal>, after: seq<Signal>,
                    r: Outcome, drawn: Result<int, Fault>, draws: seq<Result<int, Fault>>) {
    var (outcome, intro, go) := rule.Opening(reply, before, drawn);
    && Drawn(rule.initwait, drawn)
    && if !go then r == outcome && after == intro && draws == []
       else if rule.actions.None? then r == Err(AttributeMissing("run")) && after == intro && draws == []
       else ListRan(rule.actions.value, reply, intro, after, r, draws)
  }

  /** A rule whose page is not identified stops after the status line and the
      call of `identify`: no wait, no action. */
  lemma NotIdentifiedStops(rule: Rule, reply: nat -> PyValue, before: seq<Signal>, after: seq<Signal>,
                           r: Outcome, drawn: Result<int, Fault>, draws: seq<Result<int, Fault>>)
    requires RuleRan(rule, reply, before, after, r, drawn, draws)
    requires !Truthy(reply(|before| + 1))
    ensures r == Ok(()) && draws == []
    ensures after == before + [Status(RuleLine(rule.name, rule.initwait)), Call(rule.identify)]
  {
  }

  /** An identified rule announces and sleeps its wait before any action, and
      runs its actions only when the wait can be slept. */
  lemma IdentifiedWaitsFirst(rule: Rule, reply: nat -> PyValue, before: seq<Signal>, after: seq<Signal>,
                             r: Outcome, drawn: Result<int, Fault>, draws: seq<Result<int, Fault>>)
    requires RuleRan(rule, reply, before, after, r, drawn, draws)
    requires Truthy(reply(|before| + 1))
    ensures var w := WaitTime(rule.initwait, drawn);
      && |before| + 2 <= |after|
      && (w.Err? ==> r == Err(w.error) && after == before + [Status(RuleLine(rule.name, rule.initwait)), Call(rule.identify)])
      && (w.Ok? && w.value < 0 ==> r == Err(NegativeSleep(w.value)) && after[|before| + 2..] == [InitwaitInfo(w.value)])
      && (w.Ok? && w.value >= 0 ==>
            |before| + 4 <= |after| && after[|before| + 2..|before| + 4] == [InitwaitInfo(w.value), Sleep(w.value)])
  {
    var (outcome, intro, go) := rule.Opening(reply, before, drawn);
    var asked := before + [Status(RuleLine(rule.name, rule.initwait)), Call(rule.identify)];
    var pause := InitialWait(rule.initwait, drawn).1;
    assert intro == asked + pause;
    if go {
      var acts := rule.actions.GetOr([]);
      if rule.actions.Some? {
        RanInOrder(acts, reply, intro, after, r, draws);
      }
      assert after[..|intro|] == intro;
      assert after[|before| + 2..|before| + 4] == intro[|before| + 2..|before| + 4];
    } else {
      assert intro[|before| + 2..] == pause;
    }
  }

  /** A rule without an ActionList that gets past its wait raises AttributeError. */
  lemma NoActionsRaises(rule: Rule, reply: nat -> PyValue, before: seq<Signal>, after: seq<Signal>,
                        r: Outcome, drawn: Result<int, Fault>, draws: seq<Result<int, Fault>>)
    requires RuleRan(rule, reply, before, after, r, drawn, draws)
    requires rule.actions.None? && rule.Opening(reply, before, drawn).2
    ensures r == Err(AttributeMissing("run"))
  {
  }

  // ---------------------------------------------------------------------------
  // Status lines of rules

  /** The rule lines among status lines. */
  function RuleLines(lines: seq<StatusLine>): seq<StatusLine> {
    if lines == [] then []
    else RuleLines(lines[..|lines| - 1]) + (if lines[|lines| - 1].RuleLine? then [lines[|lines| - 1]] else [])
  }

  lemma {:induction false} RuleLinesAppend(a: seq<StatusLine>, b: seq<StatusLine>)
    ensures RuleLines(a + b) == RuleLines(a) + RuleLines(b)
    decreases |b|
  {
    if b == [] {
      assert a + b == a;
    } else {
      assert (a + b)[..|a + b| - 1] == a + b[..|b| - 1];
      RuleLinesAppend(a, b[..|b| - 1]);
    }
  }

  /** The texts `show_status` shows for status lines. */
  function Texts(lines: seq<StatusLine>): (r: seq<string>)
    ensures |r| == |lines|
  {
    if lines == [] then [] else Texts(lines[..|lines| - 1]) + [Text(lines[|lines| - 1])]
  }

  /** The shown texts that start with the rule prefix. */
  function RuleTexts(texts: seq<string>): seq<string> {
    if texts == [] then []
    else
      var last := texts[|texts| - 1];
      RuleTexts(texts[..|texts| - 1]) + (if RulePrefix <= last then [last] else [])
  }

  /** Picking the shown texts by their prefix picks exactly the texts of the
      rule lines, in order. */
  lemma {:induction false} RuleTextsAreRuleLines(lines: seq<StatusLine>)
    ensures RuleTexts(Texts(lines)) == Texts(RuleLines(lines))
    decreases |lines|
  {
    if lines != [] {
      var n := |lines| - 1;
      var front, last := lines[..n], lines[n];
      assert Texts(lines)[..n] == Texts(front);
      RuleTextsAreRuleLines(front);
      TextTellsKind(last);
      TextsAppend(RuleLines(front), if last.RuleLine? then [last] else []);
    }
  }

  lemma {:induction false} TextsAppend(a: seq<StatusLine>, b: seq<StatusLine>)
    ensures Texts(a + b) == Texts(a) + Texts(b)
    decreases |b|
  {
    if b == [] {
      assert a + b == a;
    } else {
      assert (a + b)[..|a + b| - 1] == a + b[..|b| - 1];
      TextsAppend(a, b[..|b| - 1]);
    }
  }

  lemma {:induction false} ActionLinesHoldNoRule(acts: seq<Action>)
    ensures RuleLines(ActionLines(acts)) == []
    decreases |acts|
  {
    if acts != [] {
      var n := |acts| - 1;
      assert ActionLines(acts)[..n] == ActionLines(acts[..n]);
      ActionLinesHoldNoRule(acts[..n]);
    }
  }

  /** What the opening appends after the status line and the `identify` call:
      signals that show no status line. */
  lemma OpeningPause(rule: Rule, reply: nat -> PyValue, before: seq<Signal>, drawn: Result<int, Fault>)
    returns (pause: seq<Signal>)
    ensures rule.Opening(reply, before, drawn).1 ==
            (before + [Status(RuleLine(rule.name, rule.initwait)), Call(rule.identify)]) + pause
    ensures Silent(pause)
  {
    var asked := before + [Status(RuleLine(rule.name, rule.initwait)), Call(rule.identify)];
    if !Truthy(reply(|before| + 1)) {
      pause := [];
      assert asked + pause == asked;
    } else {
      pause := InitialWait(rule.initwait, drawn).1;
    }
  }

  /** The part of a rule's run before its actions shows one status line, its own. */
  lemma OpeningLines(rule: Rule, reply: nat -> PyValue, before: seq<Signal>, drawn: Result<int, Fault>)
    ensures RuleLines(StatusLines(rule.Opening(reply, before, drawn).1)) ==
            RuleLines(StatusLines(before)) + [RuleLine(rule.name, rule.initwait)]
  {
    var intro := rule.Opening(reply, before, drawn).1;
    var line := RuleLine(rule.name, rule.initwait);
    var head := [Status(line), Call(rule.identify)];
    var pause := OpeningPause(rule, reply, before, drawn);
    assert StatusLines(head) == [line] by {
      assert head == [Status(line)] + [Call(rule.identify)];
      StatusLinesAppend([Status(line)], [Call(rule.identify)]);
      StatusLinesSingle(Status(line));
      StatusLinesSingle(Call(rule.identify));
    }
    assert RuleLines([line]) == [line] by {
      assert [line][..0] == [];
    }
    SilentHasNoLines(pause);
    calc {
      RuleLines(StatusLines(intro));
      { StatusLinesAppend(before + head, pause); }
      RuleLines(StatusLines(before + head) + []);
      { assert StatusLines(before + head) + [] == StatusLines(before + head); StatusLinesAppend(before, head); }
      RuleLines(StatusLines(before) + [line]);
      { RuleLinesAppend(StatusLines(before), [line]); }
      RuleLines(StatusLines(before)) + [line];
    }
  }

  /** Whatever a rule's actions show, the rule lines grow by the rule's own line. */
  lemma OneRuleLine(rule: Rule, reply: nat -> PyValue, before: seq<Signal>, after: seq<Signal>,
                    r: Outcome, drawn: Result<int, Fault>, draws: seq<Result<int, Fault>>)
    requires RuleRan(rule, reply, before, after, r, drawn, draws)
    ensures |before| <= |after| && after[..|before|] == before
    ensures RuleLines(StatusLines(after)) == RuleLines(StatusLines(before)) + [RuleLine(rule.name, rule.initwait)]
  {
    var (outcome, intro, go) := rule.Opening(reply, before, drawn);
    OpeningLines(rule, reply, before, drawn);
    if go && rule.actions.Some? {
      var acts := rule.actions.value;
      RanInOrder(acts, reply, intro, after, r, draws);
      ActionLinesHoldNoRule(acts[..|draws|]);
      RuleLinesAppend(StatusLines(intro), ActionLines(acts[..|draws|]));
      assert after[..|before|] == intro[..|before|];
    }
  }

  // ---------------------------------------------------------------------------
  // Rules

  /** The first k rules each ran well, traces[j] being the events before rule j
      ran and traces[j + 1] those after. */
  predicate Clean(rules: seq<Rule>, reply: nat -> PyValue, traces: seq<seq<Signal>>,
                  drawns: seq<Result<int, Fault>>, drawLists: seq<seq<Result<int, Fault>>>, k: nat) {
    && k <= |rules| && k <= |drawns| && k <= |drawLists| && k < |traces|
    && forall j :: 0 <= j < k ==> RuleRan(rules[j], reply, traces[j], traces[j + 1], Ok(()), drawns[j], drawLists[j])
  }

  /** What Rules.run did: it ran the first n rules, every one but the last of
      them well, and the last raised unless all rules ran. */
  predicate RulesRan(rules: seq<Rule>, reply: nat -> PyValue, traces: seq<seq<Signal>>, r: Outcome,
                     drawns: seq<Result<int, Fault>>, drawLists: seq<seq<Result<int, Fault>>>) {
    var n := |drawns|;
    && n <= |rules| && |drawLists| == n && |traces| == n + 1
    && (r.Ok? ==> Clean(rules, reply, traces, drawns, drawLists, n) && n == |rules|)
    && (r.Err? ==> n > 0 && Clean(rules, reply, traces, drawns, drawLists, n - 1)
                   && RuleRan(rules[n - 1], reply, traces[n - 1], traces[n], r, drawns[n - 1], drawLists[n - 1]))
  }

  /** One more rule that ran after k clean ones. */
  lemma CleanExtend(rules: seq<Rule>, reply: nat -> PyValue, traces: seq<seq<Signal>>,
                    drawns: seq<Result<int, Fault>>, drawLists: seq<seq<Result<int, Fault>>>,
                    after: seq<Signal>, drawn: Result<int, Fault>, draws: seq<Result<int, Fault>>)
    requires |drawns| == |drawLists| == |traces| - 1 < |rules|
    requires Clean(rules, reply, traces, drawns, drawLists, |drawns|)
    requires RuleRan(rules[|drawns|], reply, traces[|drawns|], after, Ok(()), drawn, draws)
    ensures Clean(rules, reply, traces + [after], drawns + [drawn], drawLists + [draws], |drawns| + 1)
  {
    var k := |drawns|;
    var traces', drawns', drawLists' := traces + [after], drawns + [drawn], drawLists + [draws];
    forall j | 0 <= j < k + 1
      ensures RuleRan(rules[j], reply, traces'[j], traces'[j + 1], Ok(()), drawns'[j], drawLists'[j])
    {
      if j < k {
        assert traces'[j] == traces[j] && traces'[j + 1] == traces[j + 1];
        assert drawns'[j] == drawns[j] && drawLists'[j] == drawLists[j];
      }
    }
  }

  /** A rule that raised after k clean ones ends the run. */
  lemma CleanStop(rules: seq<Rule>, reply: nat -> PyValue, traces: seq<seq<Signal>>,
                  drawns: seq<Result<int, Fault>>, drawLists: seq<seq<Result<int, Fault>>>,
                  after: seq<Signal>, r: Outcome, drawn: Result<int, Fault>, draws: seq<Result<int, Fault>>)
    requires |drawns| == |drawLists| == |traces| - 1 < |rules| && r.Err?
    requires Clean(rules, reply, traces, drawns, drawLists, |drawns|)
    requires RuleRan(rules[|drawns|], reply, traces[|drawns|], after, r, drawn, draws)
    ensures RulesRan(rules, reply, traces + [after], r, drawns + [drawn], drawLists + [draws])
  {
    var k := |drawns|;
    CleanKeeps(rules, reply, traces, drawns, drawLists, after, drawn, draws, k);
    assert (traces + [after])[k] == traces[k] && (traces + [after])[k + 1] == after;
    assert (drawns + [drawn])[k] == drawn && (drawLists + [draws])[k] == draws;
  }

  /** Clean runs stay clean when more runs are recorded after them. */
  lemma CleanKeeps(rules: seq<Rule>, reply: nat -> PyValue, traces: seq<seq<Signal>>,
                   drawns: seq<Result<int, Fault>>, drawLists: seq<seq<Result<int, Fault>>>,
                   after: seq<Signal>, drawn: Result<int, Fault>, draws: seq<Result<int, Fault>>, k: nat)
    requires Clean(rules, reply, traces, drawns, drawLists, k)
    ensures Clean(rules, reply, traces + [after], drawns + [drawn], drawLists + [draws], k)
  {
    var traces', drawns', drawLists' := traces + [after], drawns + [drawn], drawLists + [draws];
    forall j | 0 <= j < k
      ensures RuleRan(rules[j], reply, traces'[j], traces'[j + 1], Ok(()), drawns'[j], drawLists'[j])
    {
      assert traces'[j] == traces[j] && traces'[j + 1] == traces[j + 1];
      assert drawns'[j] == drawns[j] && drawLists'[j] == drawLists[j];
    }
  }

  /** The lines of the rules, in order. */
  function LinesOf(rules: seq<Rule>): (r: seq<StatusLine>)
    ensures |r| == |rules|
    ensures forall i :: 0 <= i < |rules| ==> r[i] == RuleLine(rules[i].name, rules[i].initwait)
  {
    if rules == [] then [] else LinesOf(rules[..|rules| - 1]) + [RuleLine(rules[|rules| - 1].name, rules[|rules| - 1].initwait)]
  }

  lemma LinesOfSnoc(rules: seq<Rule>, i: nat)
    requires i < |rules|
    ensures LinesOf(rules[..i + 1]) == LinesOf(rules[..i]) + [RuleLine(rules[i].name, rules[i].initwait)]
  {
    assert rules[..i + 1][..i] == rules[..i];
  }

  /** `Rules`. */
  class Rules {
    var rules: seq<Rule>

    constructor ()
      ensures rules == []
    {
      rules := [];
    }

    /** `add(identify, name, actions, initwait)`. */
    method Add(identify: Callback, name: string, actions: Option<seq<Action>>, initwait: InitWait)
      modifies this
      ensures rules == old(rules) + [Rule(identify, name, actions, initwait)]
    {
      rules := rules + [Rule(identify, name, actions, initwait)];
    }

    /** `run()`: every rule in turn; an exception leaves the loop.  The rules
        that ran show their status lines in list order, all of them when
        nothing raised. */
    method Run(h: Host) returns (r: Outcome, ghost traces: seq<seq<Signal>>, ghost drawns: seq<Result<int, Fault>>,
                                 ghost drawLists: seq<seq<Result<int, Fault>>>)
      modifies h
      ensures RulesRan(rules, h.reply, traces, r, drawns, drawLists)
      ensures traces[0] == old(h.events) && traces[|traces| - 1] == h.events
      ensures RuleLines(StatusLines(h.events)) == RuleLines(StatusLines(old(h.events))) + LinesOf(rules[..|drawns|])
    {
      r := Ok(());
      traces, drawns, drawLists := [h.events], [], [];
      var i := 0;
      while i < |rules|
        invariant 0 <= i <= |rules| && |drawns| == i && |drawLists| == i && |traces| == i + 1
        invariant traces[0] == old(h.events) && traces[i] == h.events && r.Ok?
        invariant Clean(rules, h.reply, traces, drawns, drawLists, i)
        invariant RuleLines(StatusLines(h.events)) == RuleLines(StatusLines(old(h.events))) + LinesOf(rules[..i])
      {
        r, traces, drawns, drawLists := RunTurn(h, rules, i, old(h.events), traces, drawns, drawLists);
        if r.Err? {
          return;
        }
        i := i + 1;
      }
      assert rules[..i] == rules;
    }
  }

  /** One turn of the loop of Rules.run: rule i after i clean ones. */
  method RunTurn(h: Host, rules: seq<Rule>, i: nat, ghost start: seq<Signal>, ghost traces: seq<seq<Signal>>,
                 ghost drawns: seq<Result<int, Fault>>, ghost drawLists: seq<seq<Result<int, Fault>>>)
    returns (r: Outcome, ghost traces': seq<seq<Signal>>, ghost drawns': seq<Result<int, Fault>>,
             ghost drawLists': seq<seq<Result<int, Fault>>>)
    requires i < |rules| && |drawns| == |drawLists| == i && |traces| == i + 1 && traces[i] == h.events
    requires Clean(rules, h.reply, traces, drawns, drawLists, i)
    requires RuleLines(StatusLines(h.events)) == RuleLines(StatusLines(start)) + LinesOf(rules[..i])
    modifies h
    ensures |drawns'| == |drawLists'| == i + 1 && |traces'| == i + 2
    ensures traces'[0] == traces[0] && traces'[i + 1] == h.events
    ensures r.Ok? ==> Clean(rules, h.reply, traces', drawns', drawLists', i + 1)
    ensures r.Err? ==> RulesRan(rules, h.reply, traces', r, drawns', drawLists')
    ensures RuleLines(StatusLines(h.events)) == RuleLines(StatusLines(start)) + LinesOf(rules[..i + 1])
  {
    LinesOfSnoc(rules, i);
    ghost var drawn, draws;
    r, drawn, draws := rules[i].Run(h);
    OneRuleLine(rules[i], h.reply, old(h.events), h.events, r, drawn, draws);
    traces', drawns', drawLists' := traces + [h.events], drawns + [drawn], drawLists + [draws];
    if r.Err? {
      CleanStop(rules, h.reply, traces, drawns, drawLists, h.events, r, drawn, draws);
    } else {
      CleanExtend(rules, h.reply, traces, drawns, drawLists, h.events, drawn, draws);
    }
  }

  // ---------------------------------------------------------------------------
  // rules.py as written

  /** Rule.run as written: its guard calls `self.id()`, which a Rule does not
      have, so every run raises AttributeError right after the status line. */
  function StepsAsWritten(rule: Rule, trace: seq<Signal>): (Outcome, seq<Signal>) {
    (Err(AttributeMissing("id")), trace + [Status(RuleLine(rule.name, rule.initwait))])
  }

  /** As written, no rule ever asks `identify`, waits or runs an action, while
      the evidently intended run calls `identify` right after the status line. */
  lemma AsWrittenNeverIdentifies(rule: Rule, reply: nat -> PyValue, trace: seq<Signal>, drawn: Result<int, Fault>)
    ensures var (r, after) := StepsAsWritten(rule, trace);
      r.Err? && |after| == |trace| + 1 && after[..|trace|] == trace
    ensures var intro := rule.Opening(reply, trace, drawn).1;
      |intro| > |StepsAsWritten(rule, trace).1| && intro[|trace| + 1] == Call(rule.identify)
  {
    assert (trace + [Status(RuleLine(rule.name, rule.initwait))])[..|trace|] == trace;
  }
}
