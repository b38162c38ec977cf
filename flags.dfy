/** The rule flags of src/web.py: a store of named string values that `set_flags`
    updates and `evaluate_flag` reads, as pure functions of the store.  The class
    MyWeb runs the same steps on its `ruleFlags` field and is proved equal to
    these functions. */
module Flags {
  import opened Prelude
  import opened Conditions

  type Store = map<string, string>

  /** One entry of a flag's `true` or `false` list; a missing key is None. */
  datatype Mutation = Mutation(name: Option<string>, value: Option<string>, op: Option<string>)

  /** A flag check record: the test `name condition value`, an optional `and`
      or `or` child, and the mutation lists applied for each outcome.
      `otherKeys` says the record also holds keys none of these fields carry
      (they are never read, but they make the record non-empty). */
  datatype FlagExpr = FlagExpr(
    name: Option<string>,
    value: Option<string>,
    condition: Option<string>,
    andExpr: Option<FlagExpr>,
    orExpr: Option<FlagExpr>,
    onTrue: Option<seq<Mutation>>,
    onFalse: Option<seq<Mutation>>,
    otherKeys: bool)

  /** The store after some mutations, and the fault that stopped them if any.
      Mutations made before the fault stay. */
  datatype Applied = Applied(store: Store, fault: Option<Fault>)

  /** The value of a flag check and the store it leaves. */
  datatype Verdict = Verdict(result: Result<bool, Fault>, store: Store)

  // ---------------------------------------------------------------------------
  // set_flags

  /** The effect of one mutation: its fields are read name, value, op; the op is
      lower-cased; an empty name is skipped; `set` stores the value as given and
      `incr`/`decr` store str() of the float sum or difference. */
  function ApplyMutation(py: Builtins, store: Store, m: Mutation): (r: Result<Store, Fault>)
    ensures r.Ok? ==> forall k :: k != m.name.GetOr("") ==>
      (k in r.value <==> k in store) && (k in store ==> r.value[k] == store[k])
  {
    if m.name.None? then Err(MissingKey("name"))
    else if m.value.None? then Err(MissingKey("value"))
    else if m.op.None? then Err(MissingKey("op"))
    else
      var name, val, op := m.name.value, m.value.value, Lower(m.op.value);
      if name == "" then Ok(store)
      else if op in {"set", "="} then Ok(store[name := val])
      else if op in {"decr", "-="} then Arith(py, store, name, val, py.sub)
      else if op in {"incr", "+="} then Arith(py, store, name, val, py.add)
      else Err(UnknownFlagOp(op))
  }

  /** `store[name] = str(float(store[name]) <f> float(val))`: the flag must exist
      and be read first. */
  function Arith(py: Builtins, store: Store, name: string, val: string, f: (Float, Float) -> Float)
    : (r: Result<Store, Fault>)
    ensures r.Ok? ==> name in store && name in r.value && r.value == store[name := r.value[name]]
    ensures r.Ok? <==> name in store && py.parseFloat(store[name]).Some? && py.parseFloat(val).Some?
    ensures r.Ok? ==>
      r.value[name] == py.floatStr(f(py.parseFloat(store[name]).value, py.parseFloat(val).value))
    ensures name !in store ==> r == Err(MissingKey(name))
    ensures name in store && py.parseFloat(store[name]).None? ==> r == Err(NotANumber(store[name]))
    ensures name in store && py.parseFloat(store[name]).Some? && py.parseFloat(val).None? ==>
      r == Err(NotANumber(val))
  {
    if name !in store then Err(MissingKey(name))
    else
      match py.parseFloat(store[name])
      case None => Err(NotANumber(store[name]))
      case Some(prior) =>
        match py.parseFloat(val)
        case None => Err(NotANumber(val))
        case Some(delta) => Ok(store[name := py.floatStr(f(prior, delta))])
  }

  /** The names a mutation list can touch. */
  function ListNames(todos: seq<Mutation>): set<string> {
    set i | 0 <= i < |todos| && todos[i].name.Some? :: todos[i].name.value
  }

  /** The mutations in order, stopping at the first that fails. */
  function ApplyAll(py: Builtins, store: Store, todos: seq<Mutation>): (r: Applied)
    ensures forall k :: k !in ListNames(todos) ==>
      (k in r.store <==> k in store) && (k in store ==> r.store[k] == store[k])
    decreases |todos|
  {
    if todos == [] then Applied(store, None)
    else
      var front := todos[..|todos| - 1];
      var last := todos[|todos| - 1];
      var r := ApplyAll(py, store, front);
      assert ListNames(front) <= ListNames(todos) by {
        assert forall i :: 0 <= i < |front| ==> front[i] == todos[i];
      }
      if r.fault.Some? then r
      else
        match ApplyMutation(py, r.store, last)
        case Err(f) => Applied(r.store, Some(f))
        case Ok(s) => Applied(s, None)
  }

  /** The mutation list chosen by an outcome. */
  function ListFor(f: FlagExpr, cond: bool): Option<seq<Mutation>> {
    if cond then f.onTrue else f.onFalse
  }

  /** `set_flags(flag, cond)`: nothing when the outcome has no list. */
  function SetFlags(py: Builtins, store: Store, f: FlagExpr, cond: bool): Applied {
    match ListFor(f, cond)
    case None => Applied(store, None)
    case Some(todos) => ApplyAll(py, store, todos)
  }

  // ---------------------------------------------------------------------------
  // evaluate_flag

  /** The test of the flag itself, before its children: an empty name is true
      whatever the condition says; a missing flag reads as "". */
  function BaseTest(py: Builtins, store: Store, name: string, uv: string, operator: string)
    : (r: Result<bool, Fault>)
    ensures name == "" ==> r == Ok(true)
    ensures name != "" && ParseOperator(operator).None? ==> r == Err(UnknownFlagCondition(operator))
    ensures name != "" && ParseOperator(operator).Some? ==>
      r == Compare(py, ParseOperator(operator).value, if name in store then store[name] else "", uv)
  {
    var ev := if name in store then store[name] else "";
    if name == "" then Ok(true)
    else
      match ParseOperator(operator)
      case None => Err(UnknownFlagCondition(operator))
      case Some(o) => Compare(py, o, ev, uv)
  }

  /** Every name that a flag check, or any check below it, can mutate. */
  function TreeNames(f: FlagExpr): set<string>
    decreases f
  {
    (if f.onTrue.Some? then ListNames(f.onTrue.value) else {})
    + (if f.onFalse.Some? then ListNames(f.onFalse.value) else {})
    + (if f.andExpr.Some? then TreeNames(f.andExpr.value) else {})
    + (if f.orExpr.Some? then TreeNames(f.orExpr.value) else {})
  }

  /** `evaluate_flag(flag)`: the base test, the rejection of a record with both
      children, the `and` child (always evaluated), the `or` child (always
      evaluated), then the mutations for the final outcome.  Only names of the
      tree's mutation lists change. */
  function Evaluate(py: Builtins, store: Store, f: FlagExpr): (r: Verdict)
    ensures forall k :: k !in TreeNames(f) ==>
      (k in r.store <==> k in store) && (k in store ==> r.store[k] == store[k])
    decreases f
  {
    if f.name.None? then Verdict(Err(MissingKey("name")), store)
    else if f.value.None? then Verdict(Err(MissingKey("value")), store)
    else if f.condition.None? then Verdict(Err(MissingKey("condition")), store)
    else
      match BaseTest(py, store, f.name.value, f.value.value, f.condition.value)
      case Err(e) => Verdict(Err(e), store)
      case Ok(base) =>
        if f.andExpr.Some? && f.orExpr.Some? then Verdict(Err(ConflictingLogic), store)
        else
          var afterAnd := Join(py, store, base, f.andExpr, true);
          if afterAnd.result.Err? then afterAnd
          else
            var afterOr := Join(py, afterAnd.store, afterAnd.result.value, f.orExpr, false);
            if afterOr.result.Err? then afterOr
            else
              var applied := SetFlags(py, afterOr.store, f, afterOr.result.value);
              match applied.fault
              case Some(e) => Verdict(Err(e), applied.store)
              case None => Verdict(Ok(afterOr.result.value), applied.store)
  }

  /** Combines an outcome with an optional child: `result and child` when
      `conj`, else `result or child`.  The child runs whatever the outcome. */
  function Join(py: Builtins, store: Store, result: bool, child: Option<FlagExpr>, conj: bool)
    : (r: Verdict)
    ensures child.None? ==> r == Verdict(Ok(result), store)
    ensures child.Some? ==> forall k :: k !in TreeNames(child.value) ==>
      (k in r.store <==> k in store) && (k in store ==> r.store[k] == store[k])
    decreases child, 0
  {
    match child
    case None => Verdict(Ok(result), store)
    case Some(c) =>
      var v := Evaluate(py, store, c);
      match v.result
      case Err(e) => v
      case Ok(r2) => Verdict(Ok(if conj then result && r2 else result || r2), v.store)
  }

  // ---------------------------------------------------------------------------
  // Properties of set_flags

  /** `set` and `=` (any case) store the value exactly as given. */
  lemma SetStoresVerbatim(py: Builtins, store: Store, name: string, val: string, op: string)
    requires name != "" && Lower(op) in {"set", "="}
    ensures ApplyMutation(py, store, Mutation(Some(name), Some(val), Some(op))) == Ok(store[name := val])
  {
  }

  /** `incr` and `decr` need the flag to exist already. */
  lemma ArithNeedsFlag(py: Builtins, store: Store, name: string, val: string, op: string)
    requires name != "" && name !in store && Lower(op) in {"incr", "+=", "decr", "-="}
    ensures ApplyMutation(py, store, Mutation(Some(name), Some(val), Some(op))) == Err(MissingKey(name))
  {
  }

  /** `incr`/`+=` in any case stores str() of the float sum of the flag and the
      value, and touches no other flag. */
  lemma IncrStoresSum(py: Builtins, store: Store, name: string, val: string, op: string, prior: Float, delta: Float)
    requires name != "" && Lower(op) in {"incr", "+="}
    requires name in store && py.parseFloat(store[name]) == Some(prior) && py.parseFloat(val) == Some(delta)
    ensures ApplyMutation(py, store, Mutation(Some(name), Some(val), Some(op))) ==
      Ok(store[name := py.floatStr(py.add(prior, delta))])
  {
  }

  /** `decr`/`-=` in any case stores str() of the float difference, the flag's
      value minus the given one. */
  lemma DecrStoresDifference(py: Builtins, store: Store, name: string, val: string, op: string, prior: Float, delta: Float)
    requires name != "" && Lower(op) in {"decr", "-="}
    requires name in store && py.parseFloat(store[name]) == Some(prior) && py.parseFloat(val) == Some(delta)
    ensures ApplyMutation(py, store, Mutation(Some(name), Some(val), Some(op))) ==
      Ok(store[name := py.floatStr(py.sub(prior, delta))])
  {
  }

  /** `float()` of the stored value runs before `float()` of the operand, so a
      non-numeric flag is reported even when the operand is not a number either;
      the store is left as it was. */
  lemma ArithReadsFlagFirst(py: Builtins, store: Store, name: string, val: string, op: string)
    requires name != "" && Lower(op) in {"incr", "+=", "decr", "-="}
    requires name in store && py.parseFloat(store[name]).None?
    ensures ApplyMutation(py, store, Mutation(Some(name), Some(val), Some(op))) == Err(NotANumber(store[name]))
  {
  }

  /** Any other op is refused and reported lower-cased. */
  lemma UnknownOpRefused(py: Builtins, store: Store, name: string, val: string, op: string)
    requires name != "" && Lower(op) !in {"set", "=", "decr", "-=", "incr", "+="}
    ensures ApplyMutation(py, store, Mutation(Some(name), Some(val), Some(op))) == Err(UnknownFlagOp(Lower(op)))
  {
  }

  /** An entry with an empty name does nothing, whatever its op. */
  lemma EmptyNameSkipped(py: Builtins, store: Store, val: string, op: string)
    ensures ApplyMutation(py, store, Mutation(Some(""), Some(val), Some(op))) == Ok(store)
  {
  }

  /** The list runs front to back: the first entry, then the rest on its
      result; a failing entry stops the list with the store as it was then. */
  lemma {:induction false} ApplyAllCons(py: Builtins, store: Store, m: Mutation, rest: seq<Mutation>)
    ensures ApplyAll(py, store, [m] + rest) ==
      match ApplyMutation(py, store, m)
      case Err(e) => Applied(store, Some(e))
      case Ok(s) => ApplyAll(py, s, rest)
    decreases |rest|
  {
    var all := [m] + rest;
    if rest == [] {
      assert all[..0] == [];
    } else {
      var front := rest[..|rest| - 1];
      assert all[..|all| - 1] == [m] + front;
      assert all[|all| - 1] == rest[|rest| - 1];
      ApplyAllCons(py, store, m, front);
    }
  }

  /** Once an entry fails nothing after it runs, and what ran before it stays. */
  lemma {:induction false} FaultStopsList(py: Builtins, store: Store, todos: seq<Mutation>, more: seq<Mutation>)
    requires ApplyAll(py, store, todos).fault.Some?
    ensures ApplyAll(py, store, todos + more) == ApplyAll(py, store, todos)
    decreases |more|
  {
    if more != [] {
      var all := todos + more;
      assert all[..|all| - 1] == todos + more[..|more| - 1];
      FaultStopsList(py, store, todos, more[..|more| - 1]);
    } else {
      assert todos + more == todos;
    }
  }

  // ---------------------------------------------------------------------------
  // Properties of evaluate_flag

  /** A complete flag record with a test and the given children and lists. */
  function Check(name: string, uv: string, operator: string, andExpr: Option<FlagExpr>,
                 orExpr: Option<FlagExpr>, onTrue: Option<seq<Mutation>>,
                 onFalse: Option<seq<Mutation>>): FlagExpr {
    FlagExpr(Some(name), Some(uv), Some(operator), andExpr, orExpr, onTrue, onFalse, false)
  }

  /** A flag that was never set reads as the empty string. */
  lemma UnsetFlagReadsEmpty(py: Builtins, store: Store, name: string, operator: string)
    requires name != "" && name !in store && ParseOperator(operator) == Some(Equals)
    ensures Evaluate(py, store, Check(name, "", operator, None, None, None, None)) == Verdict(Ok(true), store)
  {
  }

  /** A check with an empty name is true, even with an operator the ladder does
      not know. */
  lemma EmptyNameIsTrue(py: Builtins, store: Store, uv: string, operator: string)
    ensures Evaluate(py, store, Check("", uv, operator, None, None, None, None)) == Verdict(Ok(true), store)
  {
  }

  /** An unknown operator on a named check is a SyntaxError that names the
      operator as written, and nothing is mutated. */
  lemma UnknownConditionRaises(py: Builtins, store: Store, f: FlagExpr)
    requires f.name.Some? && f.value.Some? && f.condition.Some?
    requires f.name.value != "" && ParseOperator(f.condition.value).None?
    ensures Evaluate(py, store, f) == Verdict(Err(UnknownFlagCondition(f.condition.value)), store)
  {
  }

  /** A record with both an `and` and an `or` child is refused once its own test
      has run, before either child runs and before any mutation. */
  lemma BothChildrenRefused(py: Builtins, store: Store, f: FlagExpr)
    requires f.name.Some? && f.value.Some? && f.condition.Some?
    requires BaseTest(py, store, f.name.value, f.value.value, f.condition.value).Ok?
    requires f.andExpr.Some? && f.orExpr.Some?
    ensures Evaluate(py, store, f) == Verdict(Err(ConflictingLogic), store)
  {
  }

  /** With one child, the child runs on the store as it is, even when the own
      test already decides the outcome; the outcome combines both results and
      the record's own list is applied after the child's mutations. */
  lemma OneChild(py: Builtins, store: Store, f: FlagExpr, base: bool, childResult: bool, childStore: Store)
    requires f.name.Some? && f.value.Some? && f.condition.Some?
    requires BaseTest(py, store, f.name.value, f.value.value, f.condition.value) == Ok(base)
    requires f.andExpr.Some? != f.orExpr.Some?
    requires var c := if f.andExpr.Some? then f.andExpr.value else f.orExpr.value;
      Evaluate(py, store, c) == Verdict(Ok(childResult), childStore)
    ensures var outcome := if f.andExpr.Some? then base && childResult else base || childResult;
      var applied := SetFlags(py, childStore, f, outcome);
      Evaluate(py, store, f) ==
        if applied.fault.Some? then Verdict(Err(applied.fault.value), applied.store)
        else Verdict(Ok(outcome), applied.store)
  {
  }

  /** A failing child stops the evaluation: its fault and the store it left are
      the verdict, and the record's own lists are not applied. */
  lemma FailingChildStops(py: Builtins, store: Store, f: FlagExpr, e: Fault, childStore: Store)
    requires f.name.Some? && f.value.Some? && f.condition.Some?
    requires BaseTest(py, store, f.name.value, f.value.value, f.condition.value).Ok?
    requires f.andExpr.Some? != f.orExpr.Some?
    requires var c := if f.andExpr.Some? then f.andExpr.value else f.orExpr.value;
      Evaluate(py, store, c) == Verdict(Err(e), childStore)
    ensures Evaluate(py, store, f) == Verdict(Err(e), childStore)
  {
  }

  /** Without children, the verdict is the own test, and the list of that
      outcome is applied. */
  lemma Leaf(py: Builtins, store: Store, f: FlagExpr, b: bool)
    requires f.name.Some? && f.value.Some? && f.condition.Some?
    requires f.andExpr.None? && f.orExpr.None?
    requires BaseTest(py, store, f.name.value, f.value.value, f.condition.value) == Ok(b)
    ensures var applied := SetFlags(py, store, f, b);
      Evaluate(py, store, f) ==
        if applied.fault.Some? then Verdict(Err(applied.fault.value), applied.store)
        else Verdict(Ok(b), applied.store)
  {
  }
}
