/** The callback-based action runner of src/actions.py: an action shows its
    status, asks its condition, waits, calls its function and at most one
    follow-up; an action list runs its actions in the order they were added.

    The Qt signals an action emits, the callbacks it calls and its sleeps are
    appended to the `events` of a `Host`; what a callback returns is the host's
    `reply` for the position of its call among the events. */
module Actions {
  import opened Prelude
  import opened Utils

  /** A Python function, told apart by identity. */
  datatype Callback = Callback(id: nat)

  /** The Python values a callback returns or `getvalue` is given. */
  datatype PyValue =
    | NoneValue
    | Bool(b: bool)
    | Int(n: int)
    | Str(s: string)
    | Function(f: Callback)       // a plain Python function (types.FunctionType)
    | OtherCallable(f: Callback)  // a builtin, a bound method, a class: not a FunctionType

  /** Python truthiness. */
  predicate Truthy(v: PyValue) {
    match v
    case NoneValue => false
    case Bool(b) => b
    case Int(n) => n != 0
    case Str(s) => s != ""
    case Function(_) => true
    case OtherCallable(_) => true
  }

  /** What a status line shows: the action or rule and its initwait.  The text
      that `show_status` emits is `Text` of it. */
  datatype StatusLine = ActionLine(name: string, initwait: InitWait) | RuleLine(name: string, initwait: InitWait)

  /** What an action or a rule does that can be seen from outside. */
  datatype Signal =
    | Status(line: StatusLine)          // info.emit('status', Text(line))
    | InitwaitInfo(seconds: int)        // info.emit('initwait', str(seconds))
    | Call(f: Callback)                 // a callback is called
    | Sleep(seconds: int)               // time.sleep(seconds)

  /** The signal handlers and the callbacks, seen as one party. */
  class Host {
    var events: seq<Signal>
    const reply: nat -> PyValue

    constructor (reply: nat -> PyValue)
      ensures events == [] && this.reply == reply
    {
      events := [];
      this.reply := reply;
    }

    method Emit(s: Signal)
      modifies this
      ensures events == old(events) + [s]
    {
      events := events + [s];
    }

    /** Calls f; its return value is the reply at the call's position. */
    method Invoke(f: Callback) returns (rv: PyValue)
      modifies this
      ensures events == old(events) + [Call(f)] && rv == reply(|old(events)|)
    {
      rv := reply(|events|);
      events := events + [Call(f)];
    }
  }

  /** `getvalue(foo)`: a plain function is called, anything else is returned as it is. */
  method GetValue(h: Host, foo: PyValue) returns (r: PyValue)
    modifies h
    ensures foo.Function? ==> h.events == old(h.events) + [Call(foo.f)] && r == h.reply(|old(h.events)|)
    ensures !foo.Function? ==> h.events == old(h.events) && r == foo
  {
    if foo.Function? {
      r := h.Invoke(foo.f);
    } else {
      r := foo;
    }
  }

  // ---------------------------------------------------------------------------
  // initwait

  /** An `initwait` argument: None, a WaitValue, or a number of seconds. */
  datatype InitWait = Unset | Range(w: WaitValue) | Fixed(n: int)

  /** How `show_status` renders an initwait: "start~stop" for a WaitValue (the
      one with a `range()`), else the value itself as f-strings render it. */
  function WaitText(iw: InitWait): string {
    match iw
    case Range(w) => IntToStr(w.Range().0) + "~" + IntToStr(w.Range().1)
    case Unset => "None"
    case Fixed(n) => IntToStr(n)
  }

  /** The wait of an action (and `getinitval` of a rule): `value()` of a
      WaitValue, which drew `drawn`; the number itself when it is truthy; else 0. */
  function WaitTime(iw: InitWait, drawn: Result<int, Fault>): Result<int, Fault> {
    match iw
    case Range(_) => drawn
    case Fixed(n) => if n != 0 then Ok(n) else Ok(0)
    case Unset => Ok(0)
  }

  /** The initial wait of an action or a rule: the wait time is announced on
      the 'initwait' signal and slept; `time.sleep` raises on a negative time. */
  function InitialWait(iw: InitWait, drawn: Result<int, Fault>): (r: (Outcome, seq<Signal>))
    ensures r.0.Ok? <==> WaitTime(iw, drawn).Ok? && WaitTime(iw, drawn).value >= 0
    ensures r.0.Ok? ==> r.1 == [InitwaitInfo(WaitTime(iw, drawn).value), Sleep(WaitTime(iw, drawn).value)]
    ensures r.0.Err? ==> r.1 == if WaitTime(iw, drawn).Ok? then [InitwaitInfo(WaitTime(iw, drawn).value)] else []
  {
    match WaitTime(iw, drawn)
    case Err(f) => (Err(f), [])
    case Ok(t) =>
      if t < 0 then (Err(NegativeSleep(t)), [InitwaitInfo(t)])
      else (Ok(()), [InitwaitInfo(t), Sleep(t)])
  }

  /** The wait, its announcement and its sleep, as `run()` does them. */
  method WaitInitially(h: Host, iw: InitWait) returns (r: Outcome, ghost drawn: Result<int, Fault>,
                                                         ghost pause: seq<Signal>)
    modifies h
    ensures Drawn(iw, drawn) && (r, pause) == InitialWait(iw, drawn)
    ensures h.events == old(h.events) + pause
  {
    drawn := if iw.Range? then SomeDraw(iw.w) else Ok(0);
    pause := [];
    var t: int;
    match iw {
      case Range(w) =>
        var v := w.Value();
        drawn := v;
        if v.Err? {
          return Err(v.error), drawn, pause;
        }
        t := v.value;
      case Fixed(n) =>
        t := if n != 0 then n else 0;
      case Unset =>
        t := 0;
    }
    assert WaitTime(iw, drawn) == Ok(t);
    h.Emit(InitwaitInfo(t));
    pause := [InitwaitInfo(t)];
    if t < 0 {
      return Err(NegativeSleep(t)), drawn, pause;
    }
    h.Emit(Sleep(t));
    pause := [InitwaitInfo(t), Sleep(t)];
    r := Ok(());
  }

  /** drawn is a possible result of the WaitValue's `value()`. */
  predicate Drawn(iw: InitWait, drawn: Result<int, Fault>) {
    iw.Range? ==> Draws(iw.w, drawn)
  }

  /** A result `value()` can give; it stands for the draw of an action that
      stops before its wait. */
  ghost function SomeDraw(w: WaitValue): (r: Result<int, Fault>)
    ensures Draws(w, r)
  {
    if w.stop == 0 || w.start <= w.stop then Ok(w.start) else Err(EmptyRange(w.start, w.stop))
  }

  /** The wait time: a WaitValue's draw, else the seconds given (0 for None);
      it lies in the WaitValue's range when its stop is not 0. */
  lemma WaitTimeChoices(iw: InitWait, drawn: Result<int, Fault>)
    requires Drawn(iw, drawn)
    ensures iw.Unset? ==> WaitTime(iw, drawn) == Ok(0)
    ensures iw.Fixed? ==> WaitTime(iw, drawn) == Ok(iw.n)
    ensures iw.Range? && iw.w.stop == 0 ==> WaitTime(iw, drawn) == Ok(iw.w.start)
    ensures iw.Range? && iw.w.stop != 0 ==>
      if iw.w.start <= iw.w.stop then WaitTime(iw, drawn).Ok? && iw.w.start <= WaitTime(iw, drawn).value <= iw.w.stop
      else WaitTime(iw, drawn) == Err(EmptyRange(iw.w.start, iw.w.stop))
  {
  }

  /** The status text of a WaitValue gives back its range. */
  lemma {:induction false} RangeTextRoundTrip(w: WaitValue)
    ensures var t := WaitText(Range(w)); var k := |IntToStr(w.start)|;
      && k < |t| && t[k] == '~'
      && ParseInt(t[..k]) == Some(w.Range().0) && ParseInt(t[k + 1..]) == Some(w.Range().1)
  {
    var a, b := IntToStr(w.start), IntToStr(w.stop);
    var t := WaitText(Range(w));
    assert t == a + "~" + b;
    assert t[..|a|] == a;
    assert t[|a| + 1..] == b;
    IntToStrRoundTrip(w.start);
    IntToStrRoundTrip(w.stop);
  }

  /** The status text of a number of seconds gives back the number. */
  lemma SecondsTextRoundTrip(n: int)
    ensures ParseInt(WaitText(Fixed(n))) == Some(n)
  {
    IntToStrRoundTrip(n);
  }

  // ---------------------------------------------------------------------------
  // Action

  const ActionPrefix := "Running action: \""
  const RulePrefix := "Running rule: \""
  const Quote := "\""
  const WaitLabel := ". Initwait = "

  /** What a status text starts with. */
  function Prefix(line: StatusLine): string {
    if line.ActionLine? then ActionPrefix else RulePrefix
  }

  /** The text `show_status` emits for a status line. */
  function Text(line: StatusLine): string {
    Prefix(line) + line.name + Quote + WaitLabel + WaitText(line.initwait) + " "
  }

  /** The arguments of `info.emit` for the signals that are emitted. */
  function Emission(s: Signal): Option<(string, string)> {
    match s
    case Status(line) => Some(("status", Text(line)))
    case InitwaitInfo(t) => Some(("initwait", IntToStr(t)))
    case _ => None
  }

  /** A status text names its action or rule, in quotes, after the prefix. */
  lemma TextShape(line: StatusLine)
    ensures Prefix(line) + line.name + Quote <= Text(line)
  {
    var head := Prefix(line) + line.name + Quote;
    PrefixOfAppend(head, head, WaitLabel);
    PrefixOfAppend(head, head + WaitLabel, WaitText(line.initwait));
    PrefixOfAppend(head, head + WaitLabel + WaitText(line.initwait), " ");
  }

  lemma PrefixOfAppend<T>(a: seq<T>, b: seq<T>, c: seq<T>)
    requires a <= b
    ensures a <= b + c
  {
    assert (b + c)[..|a|] == b[..|a|];
  }

  /** A status text tells whether it is a rule's: exactly a rule's text starts
      with the rule prefix, so an action's text is never a rule's. */
  lemma TextTellsKind(line: StatusLine)
    ensures RulePrefix <= Text(line) <==> line.RuleLine?
  {
    var head := Prefix(line) + line.name + Quote;
    PrefixOfAppend(Prefix(line), Prefix(line), line.name);
    PrefixOfAppend(Prefix(line), Prefix(line) + line.name, Quote);
    TextShape(line);
    PrefixTrans(Prefix(line), head, Text(line));
    if line.ActionLine? {
      assert ActionPrefix[8] != RulePrefix[8];
      DiffersAt(ActionPrefix, RulePrefix, Text(line), 8);
    }
  }

  lemma PrefixTrans<T>(a: seq<T>, b: seq<T>, c: seq<T>)
    requires a <= b && b <= c
    ensures a <= c
  {
    assert c[..|a|] == b[..|a|];
  }

  /** A sequence cannot start with two prefixes that differ at some index. */
  lemma DiffersAt<T>(p: seq<T>, q: seq<T>, s: seq<T>, k: nat)
    requires p <= s && k < |p| && k < |q| && p[k] != q[k]
    ensures !(q <= s)
  {
    assert s[k] == p[k];
  }

  /** `Action(func, name, cond, whentrue, whenfalse, initwait)`. */
  datatype Action = Action(func: Callback, name: string, cond: Option<Callback>,
                           whentrue: Option<Callback>, whenfalse: Option<Callback>, initwait: InitWait)
  {
    /** What `run()` emits, and whether it raises, when `at` events came before
        it and the WaitValue's `value()` draws `drawn`. */
    function Steps(reply: nat -> PyValue, at: nat, drawn: Result<int, Fault>): (r: (Outcome, seq<Signal>))
      ensures |r.1| > 0 && r.1[0] == Status(ActionLine(name, initwait))
    {
      var shown := [Status(ActionLine(name, initwait))];
      if cond.Some? && !Truthy(reply(at + 1)) then (Ok(()), shown + [Call(cond.value)])
      else
        var asked := if cond.Some? then shown + [Call(cond.value)] else shown;
        var (outcome, rest) := Resume(reply, at + |asked|, drawn);
        (outcome, asked + rest)
    }

    /** What `run()` does once its condition let it through, `at` events in:
        the initial wait, then `func` and its follow-up. */
    function Resume(reply: nat -> PyValue, at: nat, drawn: Result<int, Fault>): (Outcome, seq<Signal>) {
      var (waited, pause) := InitialWait(initwait, drawn);
      if waited.Err? then (waited, pause)
      else (Ok(()), pause + [Call(func)] + FollowUp(Truthy(reply(at + 2))))
    }

    /** The follow-up call after `func` returned a value of truthiness rv. */
    function FollowUp(rv: bool): seq<Signal> {
      if whentrue.Some? && rv then [Call(whentrue.value)]
      else if whenfalse.Some? && !rv then [Call(whenfalse.value)]
      else []
    }

    method CallFollowUp(h: Host, rv: bool)
      modifies h
      ensures h.events == old(h.events) + FollowUp(rv)
    {
      if whentrue.Some? && rv {
        var _ := h.Invoke(whentrue.value);
      } else if whenfalse.Some? && !rv {
        var _ := h.Invoke(whenfalse.value);
      }
    }

    /** `run()`.  `drawn` is what the WaitValue's `value()` drew. */
    method Run(h: Host) returns (r: Outcome, ghost drawn: Result<int, Fault>)
      modifies h
      ensures Drawn(initwait, drawn)
      ensures var (outcome, events) := Steps(h.reply, |old(h.events)|, drawn);
        r == outcome && h.events == old(h.events) + events
    {
      drawn := if initwait.Range? then SomeDraw(initwait.w) else Ok(0);
      ghost var shown := [Status(ActionLine(name, initwait))];
      h.Emit(Status(ActionLine(name, initwait)));
      if cond.Some? {
        var c := h.Invoke(cond.value);
        if !Truthy(c) {
          assert h.events == old(h.events) + (shown + [Call(cond.value)]);
          return Ok(()), drawn;
        }
      }
      ghost var asked := if cond.Some? then shown + [Call(cond.value)] else shown;
      assert h.events == old(h.events) + asked;
      r, drawn := WaitAndCall(h);
    }

    /** The part of `run()` after the condition. */
    method WaitAndCall(h: Host) returns (r: Outcome, ghost drawn: Result<int, Fault>)
      modifies h
      ensures Drawn(initwait, drawn)
      ensures var (outcome, events) := Resume(h.reply, |old(h.events)|, drawn);
        r == outcome && h.events == old(h.events) + events
    {
      ghost var pause;
      r, drawn, pause := WaitInitially(h, initwait);
      if r.Err? {
        return;
      }
      var rv := h.Invoke(func);
      CallFollowUp(h, Truthy(rv));
      assert h.events == old(h.events) + (pause + [Call(func)] + FollowUp(Truthy(rv)));
    }
  }

  /** A condition that answers falsy stops the action after the status line and
      the condition's call: no initwait line, no sleep, no call of `func` or of
      a follow-up. */
  lemma CondFalseStops(a: Action, reply: nat -> PyValue, at: nat, drawn: Result<int, Fault>)
    requires a.cond.Some? && !Truthy(reply(at + 1))
    ensures a.Steps(reply, at, drawn) == (Ok(()), [Status(ActionLine(a.name, a.initwait)), Call(a.cond.value)])
  {
    var shown := [Status(ActionLine(a.name, a.initwait))];
    assert shown + [Call(a.cond.value)] == [Status(ActionLine(a.name, a.initwait)), Call(a.cond.value)];
  }

  /** Past its condition, an action announces its wait, sleeps it and then calls
      `func`, and after that at most one follow-up: `whentrue` only when it is
      set and func's value is truthy, `whenfalse` only when it is set and the
      value is falsy. */
  lemma FuncThenOneFollowUp(a: Action, reply: nat -> PyValue, at: nat, drawn: Result<int, Fault>)
    requires a.cond.None? || Truthy(reply(at + 1))
    requires WaitTime(a.initwait, drawn).Ok? && WaitTime(a.initwait, drawn).value >= 0
    ensures var (r, events) := a.Steps(reply, at, drawn);
      var t := WaitTime(a.initwait, drawn).value;
      var p := if a.cond.Some? then 4 else 3;
      var rv := Truthy(reply(at + p));
      && r == Ok(())
      && p < |events| <= p + 2
      && events[p - 2] == InitwaitInfo(t) && events[p - 1] == Sleep(t) && events[p] == Call(a.func)
      && (|events| == p + 2 <==> (a.whentrue.Some? && rv) || (a.whenfalse.Some? && !rv))
      && (|events| == p + 2 ==>
            events[p + 1] == if rv then Call(a.whentrue.value) else Call(a.whenfalse.value))
  {
  }

  /** A WaitValue whose range is empty makes the action raise before its wait. */
  lemma EmptyRangeRaises(a: Action, reply: nat -> PyValue, at: nat, drawn: Result<int, Fault>)
    requires a.cond.None? || Truthy(reply(at + 1))
    requires a.initwait.Range? && a.initwait.w.stop != 0 && a.initwait.w.start > a.initwait.w.stop
    requires Drawn(a.initwait, drawn)
    ensures a.Steps(reply, at, drawn) ==
      (Err(EmptyRange(a.initwait.w.start, a.initwait.w.stop)),
       [Status(ActionLine(a.name, a.initwait))] + (if a.cond.Some? then [Call(a.cond.value)] else []))
  {
    var shown := [Status(ActionLine(a.name, a.initwait))];
    var asked := if a.cond.Some? then shown + [Call(a.cond.value)] else shown;
    assert asked + [] == shown + (if a.cond.Some? then [Call(a.cond.value)] else []);
  }

  /** A negative wait makes the action raise right after announcing it: the
      sleep and `func` never happen. */
  lemma NegativeWaitRaises(a: Action, reply: nat -> PyValue, at: nat, drawn: Result<int, Fault>)
    requires a.cond.None? || Truthy(reply(at + 1))
    requires WaitTime(a.initwait, drawn).Ok? && WaitTime(a.initwait, drawn).value < 0
    ensures var (r, events) := a.Steps(reply, at, drawn);
      var t := WaitTime(a.initwait, drawn).value;
      && r == Err(NegativeSleep(t))
      && events == [Status(ActionLine(a.name, a.initwait))] + (if a.cond.Some? then [Call(a.cond.value)] else [])
                   + [InitwaitInfo(t)]
  {
  }

  // ---------------------------------------------------------------------------
  // Status lines

  /** The status lines among the events, in order. */
  function StatusLines(events: seq<Signal>): seq<StatusLine> {
    if events == [] then []
    else
      var last := events[|events| - 1];
      StatusLines(events[..|events| - 1]) + (if last.Status? then [last.line] else [])
  }

  lemma {:induction false} StatusLinesAppend(a: seq<Signal>, b: seq<Signal>)
    ensures StatusLines(a + b) == StatusLines(a) + StatusLines(b)
    decreases |b|
  {
    if b == [] {
      assert a + b == a;
    } else {
      assert (a + b)[..|a + b| - 1] == a + b[..|b| - 1];
      StatusLinesAppend(a, b[..|b| - 1]);
    }
  }

  lemma StatusLinesSingle(s: Signal)
    ensures StatusLines([s]) == if s.Status? then [s.line] else []
  {
    assert [s][..0] == [];
  }

  /** Signals that are not status lines. */
  predicate Silent(events: seq<Signal>) {
    forall i :: 0 <= i < |events| ==> !events[i].Status?
  }

  lemma {:induction false} SilentHasNoLines(events: seq<Signal>)
    requires Silent(events)
    ensures StatusLines(events) == []
    decreases |events|
  {
    if events != [] {
      SilentHasNoLines(events[..|events| - 1]);
    }
  }

  /** After its status line, a run of an action emits no further status line. */
  lemma QuietAfterStatus(a: Action, reply: nat -> PyValue, at: nat, drawn: Result<int, Fault>)
    ensures Silent(a.Steps(reply, at, drawn).1[1..])
  {
    var events := a.Steps(reply, at, drawn).1;
    var shown := [Status(ActionLine(a.name, a.initwait))];
    if !(a.cond.Some? && !Truthy(reply(at + 1))) {
      var asked := if a.cond.Some? then shown + [Call(a.cond.value)] else shown;
      var rest := a.Resume(reply, at + |asked|, drawn).1;
      ResumeSilent(a, reply, at + |asked|, drawn);
      assert events == asked + rest;
      assert Silent(asked[1..]);
      SilentTail(asked, rest);
    } else {
      assert events[1..] == [Call(a.cond.value)];
    }
  }

  lemma SilentTail(asked: seq<Signal>, rest: seq<Signal>)
    requires |asked| > 0 && Silent(asked[1..]) && Silent(rest)
    ensures Silent((asked + rest)[1..])
  {
    assert (asked + rest)[1..] == asked[1..] + rest;
  }

  /** Past the condition, a run emits no status line. */
  lemma ResumeSilent(a: Action, reply: nat -> PyValue, at: nat, drawn: Result<int, Fault>)
    ensures Silent(a.Resume(reply, at, drawn).1)
  {
    var (waited, pause) := InitialWait(a.initwait, drawn);
    if waited.Ok? {
      var events := a.Resume(reply, at, drawn).1;
      var follow := a.FollowUp(Truthy(reply(at + 2)));
      assert events == pause + [Call(a.func)] + follow;
      assert Silent(follow);
      forall i | 0 <= i < |events| ensures !events[i].Status? {
        if i >= 3 { assert events[i] == follow[i - 3]; }
      }
    }
  }

  /** One run of an action shows exactly one status line, its own. */
  lemma OneStatusLine(a: Action, reply: nat -> PyValue, at: nat, drawn: Result<int, Fault>)
    ensures StatusLines(a.Steps(reply, at, drawn).1) == [ActionLine(a.name, a.initwait)]
  {
    var events := a.Steps(reply, at, drawn).1;
    var head := [events[0]];
    assert events == head + events[1..];
    QuietAfterStatus(a, reply, at, drawn);
    SilentHasNoLines(events[1..]);
    StatusLinesAppend(head, events[1..]);
    assert head[..0] == [];
  }

  // ---------------------------------------------------------------------------
  // ActionList

  /** The status lines of the actions, in order. */
  function ActionLines(acts: seq<Action>): (r: seq<StatusLine>)
    ensures |r| == |acts|
    ensures forall i :: 0 <= i < |acts| ==> r[i] == ActionLine(acts[i].name, acts[i].initwait)
  {
    if acts == [] then [] else ActionLines(acts[..|acts| - 1]) + [ActionLine(acts[|acts| - 1].name, acts[|acts| - 1].initwait)]
  }

  /** The actions run one after the other until one raises, starting from the
      events `trace`: the outcome and the events after them.  draws[i] is what
      the i-th action drew. */
  function ListSteps(acts: seq<Action>, reply: nat -> PyValue, trace: seq<Signal>,
                     draws: seq<Result<int, Fault>>): (r: (Outcome, seq<Signal>))
    requires |draws| == |acts|
    ensures |trace| <= |r.1| && r.1[..|trace|] == trace
  {
    if acts == [] then (Ok(()), trace)
    else
      var n := |acts| - 1;
      var (done, events) := ListSteps(acts[..n], reply, trace, draws[..n]);
      if done.Err? then (done, events)
      else
        var (r, more) := acts[n].Steps(reply, |events|, draws[n]);
        assert (events + more)[..|trace|] == events[..|trace|];
        (r, events + more)
  }

  /** Running one more action after a list. */
  lemma ListStepsSnoc(acts: seq<Action>, a: Action, reply: nat -> PyValue, trace: seq<Signal>,
                      draws: seq<Result<int, Fault>>, d: Result<int, Fault>)
    requires |draws| == |acts|
    ensures var (done, events) := ListSteps(acts, reply, trace, draws);
      ListSteps(acts + [a], reply, trace, draws + [d]) ==
        if done.Err? then (done, events)
        else (a.Steps(reply, |events|, d).0, events + a.Steps(reply, |events|, d).1)
  {
    assert (acts + [a])[..|acts|] == acts;
    assert (draws + [d])[..|acts|] == draws;
  }

  /** What ActionList.run did, from the events `before` to the events `after`:
      it ran the first |draws| actions, the last of them raising unless every
      action ran. */
  predicate ListRan(acts: seq<Action>, reply: nat -> PyValue, before: seq<Signal>, after: seq<Signal>,
                    r: Outcome, draws: seq<Result<int, Fault>>) {
    var n := |draws|;
    && n <= |acts|
    && (forall j :: 0 <= j < n ==> Drawn(acts[j].initwait, draws[j]))
    && (r, after) == ListSteps(acts[..n], reply, before, draws)
    && (r.Ok? ==> n == |acts|)
    && (r.Err? ==> n > 0 && ListSteps(acts[..n - 1], reply, before, draws[..n - 1]).0.Ok?)
  }

  /** A run that ends well ran its shorter prefixes well too. */
  lemma PrefixRanClean(acts: seq<Action>, reply: nat -> PyValue, trace: seq<Signal>,
                       draws: seq<Result<int, Fault>>)
    requires |draws| == |acts| > 0
    requires ListSteps(acts, reply, trace, draws).0.Ok?
    ensures ListSteps(acts[..|acts| - 1], reply, trace, draws[..|acts| - 1]).0.Ok?
  {
  }

  /** After a clean prefix, the last action adds its one status line. */
  lemma LastStatusLine(acts: seq<Action>, reply: nat -> PyValue, trace: seq<Signal>,
                       draws: seq<Result<int, Fault>>)
    requires |draws| == |acts| > 0
    requires ListSteps(acts[..|acts| - 1], reply, trace, draws[..|acts| - 1]).0.Ok?
    ensures var n := |acts| - 1;
      StatusLines(ListSteps(acts, reply, trace, draws).1) ==
        StatusLines(ListSteps(acts[..n], reply, trace, draws[..n]).1) + [ActionLine(acts[n].name, acts[n].initwait)]
  {
    var n := |acts| - 1;
    var events := ListSteps(acts[..n], reply, trace, draws[..n]).1;
    var more := acts[n].Steps(reply, |events|, draws[n]).1;
    assert ListSteps(acts, reply, trace, draws).1 == events + more;
    OneStatusLine(acts[n], reply, |events|, draws[n]);
    StatusLinesAppend(events, more);
  }

  /** When every action but maybe the last ran well, every one showed its
      status, in list order, after the status lines already shown. */
  lemma {:induction false} ListStatusLines(acts: seq<Action>, reply: nat -> PyValue, trace: seq<Signal>,
                                           draws: seq<Result<int, Fault>>)
    requires |draws| == |acts|
    requires acts == [] || ListSteps(acts[..|acts| - 1], reply, trace, draws[..|acts| - 1]).0.Ok?
    ensures StatusLines(ListSteps(acts, reply, trace, draws).1) == StatusLines(trace) + ActionLines(acts)
    decreases |acts|
  {
    if acts == [] {
      assert StatusLines(trace) + [] == StatusLines(trace);
    } else {
      var n := |acts| - 1;
      var front, ran := acts[..n], draws[..n];
      var line := ActionLine(acts[n].name, acts[n].initwait);
      assert ActionLines(acts) == ActionLines(front) + [line];
      if n > 0 {
        PrefixRanClean(front, reply, trace, ran);
      }
      ListStatusLines(front, reply, trace, ran);
      LastStatusLine(acts, reply, trace, draws);
      assert (StatusLines(trace) + ActionLines(front)) + [line] == StatusLines(trace) + (ActionLines(front) + [line]);
    }
  }

  /** What ActionList.run shows: the status of every action it ran, in order;
      all of them when it did not raise.  The events before stay as they were. */
  lemma RanInOrder(acts: seq<Action>, reply: nat -> PyValue, before: seq<Signal>, after: seq<Signal>,
                   r: Outcome, draws: seq<Result<int, Fault>>)
    requires ListRan(acts, reply, before, after, r, draws)
    ensures |before| <= |after| && after[..|before|] == before
    ensures StatusLines(after) == StatusLines(before) + ActionLines(acts[..|draws|])
    ensures r.Ok? ==> StatusLines(after) == StatusLines(before) + ActionLines(acts)
  {
    var n := |draws|;
    if n > 0 {
      assert acts[..n][..n - 1] == acts[..n - 1];
      if r.Ok? {
        PrefixRanClean(acts[..n], reply, before, draws);
      }
    }
    ListStatusLines(acts[..n], reply, before, draws);
    assert r.Ok? ==> acts[..n] == acts;
  }

  /** `ActionList`. */
  class ActionList {
    var actionlist: seq<Action>

    constructor ()
      ensures actionlist == []
    {
      actionlist := [];
    }

    /** `add(func, name, cond, whentrue, whenfalse, initwait)`. */
    method Add(func: Callback, name: string, cond: Option<Callback>, whentrue: Option<Callback>,
               whenfalse: Option<Callback>, initwait: InitWait)
      modifies this
      ensures actionlist == old(actionlist) + [Action(func, name, cond, whentrue, whenfalse, initwait)]
    {
      actionlist := actionlist + [Action(func, name, cond, whentrue, whenfalse, initwait)];
    }

    /** `run()`. */
    method Run(h: Host) returns (r: Outcome, ghost draws: seq<Result<int, Fault>>)
      modifies h
      ensures ListRan(actionlist, h.reply, old(h.events), h.events, r, draws)
    {
      r, draws := RunAll(h, actionlist);
    }
  }

  /** The loop of ActionList.run: every action in turn; an exception leaves the loop. */
  method RunAll(h: Host, acts: seq<Action>) returns (r: Outcome, ghost draws: seq<Result<int, Fault>>)
    modifies h
    ensures ListRan(acts, h.reply, old(h.events), h.events, r, draws)
  {
    draws := [];
    var i := 0;
    while i < |acts|
      invariant 0 <= i <= |acts| && |draws| == i
      invariant forall j :: 0 <= j < i ==> Drawn(acts[j].initwait, draws[j])
      invariant ListSteps(acts[..i], h.reply, old(h.events), draws) == (Ok(()), h.events)
    {
      ghost var d;
      assert acts[..i + 1][..i] == acts[..i];
      r, d := RunNext(h, acts, i, old(h.events), draws);
      assert (draws + [d])[..i] == draws;
      draws := draws + [d];
      if r.Err? {
        return;
      }
      i := i + 1;
    }
    assert acts[..i] == acts;
    r := Ok(());
  }

  /** One turn of the loop: the next action after a clean prefix of the list. */
  method RunNext(h: Host, acts: seq<Action>, i: nat, ghost before: seq<Signal>,
                 ghost done: seq<Result<int, Fault>>) returns (r: Outcome, ghost d: Result<int, Fault>)
    requires i < |acts| && |done| == i
    requires ListSteps(acts[..i], h.reply, before, done) == (Ok(()), h.events)
    modifies h
    ensures Drawn(acts[i].initwait, d)
    ensures ListSteps(acts[..i + 1], h.reply, before, done + [d]) == (r, h.events)
  {
    assert acts[..i + 1] == acts[..i] + [acts[i]];
    r, d := acts[i].Run(h);
    ListStepsSnoc(acts[..i], acts[i], h.reply, before, done, d);
  }
}
