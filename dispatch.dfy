/** What `run_action` in src/web.py does once the page is known not to have
    changed: find the element, check the `addon` criterion and the `flag`
    expression, and perform one effect.  Written as a function of the page, the
    driver's frame and the flag store; MyWeb.RunAction is proved to follow it. */
module Dispatch {
  import opened Prelude
  import opened Conditions
  import opened Flags
  import opened Records
  import opened Page

  /** What the engine does to the page or the user. */
  datatype Effect =
    | Fill(xpath: string, text: string)  // elem.clear(); elem.send_keys(value)
    | Enter(xpath: string)               // elem.send_keys(Keys.ENTER)
    | Click(xpath: string)               // a script click on the element
    | Notify(message: string)            // send_notification(message)

  /** A value that asks for a notification contains this. */
  const NotifyMarker := "UserEvent::Notify"
  /** The literal start of the pattern `UserEvent::Notify\((.+)\)`. */
  const NotifyOpen := "UserEvent::Notify("
  /** The message sent when the value does not match the pattern. */
  const NotifyFallback := "ERROR in UserEvent::Notify call"

  /** `re.match(r"UserEvent::Notify\((.+)\)", value)` can succeed with group g:
      the value starts with the opening, then g, a non-empty run without line
      breaks, then a `)`. */
  predicate NotifyMatch(value: string, g: string) {
    && |NotifyOpen| + |g| < |value|
    && value[..|NotifyOpen|] == NotifyOpen
    && value[|NotifyOpen|..|NotifyOpen| + |g|] == g
    && g != []
    && (forall i :: 0 <= i < |g| ==> g[i] != '\n')
    && value[|NotifyOpen| + |g|] == ')'
  }

  /** The text up to the first line break. */
  function FirstLine(s: string): (r: string)
    ensures r <= s
    ensures forall i :: 0 <= i < |r| ==> r[i] != '\n'
    ensures |r| < |s| ==> s[|r|] == '\n'
    decreases |s|
  {
    if s == [] || s[0] == '\n' then [] else [s[0]] + FirstLine(s[1..])
  }

  /** The last index j, 1 <= j < n, where `line` has a `)`. */
  function LastClose(line: string, n: nat): (r: Option<nat>)
    requires n <= |line|
    ensures r.Some? ==> 1 <= r.value < n && line[r.value] == ')'
    ensures r.Some? ==> forall m :: r.value < m < n ==> line[m] != ')'
    ensures r.None? ==> forall m :: 1 <= m < n ==> line[m] != ')'
    decreases n
  {
    if n <= 1 then None
    else if line[n - 1] == ')' then Some(n - 1)
    else LastClose(line, n - 1)
  }

  /** The group of the match, if the value matches: the greedy `.+` takes the
      longest run that a `)` on the same line ends. */
  function NotifyPayload(value: string): (r: Option<string>)
    ensures r.Some? ==> NotifyMatch(value, r.value)
  {
    if !(NotifyOpen <= value) then None
    else
      var rest := value[|NotifyOpen|..];
      var line := FirstLine(rest);
      match LastClose(line, |line|)
      case None => None
      case Some(j) =>
        assert value[|NotifyOpen|..|NotifyOpen| + j] == line[..j];
        Some(line[..j])
  }

  /** The group is the longest one the pattern admits, and there is no group
      exactly when the pattern admits none. */
  lemma NotifyPayloadGreedy(value: string, g: string)
    requires NotifyMatch(value, g)
    ensures NotifyPayload(value).Some? && |g| <= |NotifyPayload(value).value|
  {
    var n := |NotifyOpen|;
    assert NotifyOpen <= value;
    var rest := value[n..];
    var line := FirstLine(rest);
    assert forall i :: 0 <= i < |g| ==> rest[i] == g[i];
    assert rest[|g|] == ')';
    assert |g| < |line|;
    assert line[|g|] == ')';
  }

  /** The template of the notification a value asks for: the group of the
      pattern, or the fixed error text. */
  function NotifyTemplate(value: string): string {
    NotifyPayload(value).GetOr(NotifyFallback)
  }

  /** The effect of an action whose gates all passed: a notification if the value
      asks for one, else typing a non-empty value, else Enter in a text input,
      else a click.  Formatting the notification's template with the element's
      value can raise; that is the only error. */
  function EffectFor(py: Builtins, value: string, xpath: string, el: Element): (r: Result<Effect, Fault>)
    ensures r.Err? <==> Contains(value, NotifyMarker) && py.format(NotifyTemplate(value), ElementValue(el)).None?
    ensures r.Err? ==> r.error == BadFormat(NotifyTemplate(value))
    ensures r.Ok? ==> (r.value.Notify? <==> Contains(value, NotifyMarker))
    ensures r.Ok? && r.value.Notify? ==>
      Some(r.value.message) == py.format(NotifyTemplate(value), ElementValue(el))
    ensures r.Ok? ==> (r.value.Fill? <==> !Contains(value, NotifyMarker) && value != "")
    ensures r.Ok? && r.value.Fill? ==> r.value == Fill(xpath, value)
    ensures r.Ok? ==>
      (r.value.Enter? <==> !Contains(value, NotifyMarker) && value == "" && el.tag == "input" && el.typeAttr == "text")
    ensures r.Ok? && (r.value.Enter? || r.value.Click?) ==> r.value.xpath == xpath
  {
    if Contains(value, NotifyMarker) then
      var template := NotifyTemplate(value);
      match py.format(template, ElementValue(el))
      case None => Err(BadFormat(template))
      case Some(message) => Ok(Notify(message))
    else if value != "" then Ok(Fill(xpath, value))
    else if el.tag == "input" && el.typeAttr == "text" then Ok(Enter(xpath))
    else Ok(Click(xpath))
  }

  /** A marker anywhere but at the start still notifies, with the fixed message. */
  lemma MarkerOffStartNotifiesFallback(py: Builtins, value: string, xpath: string, el: Element)
    requires Contains(value, NotifyMarker) && !(NotifyOpen <= value)
    ensures EffectFor(py, value, xpath, el) ==
      match py.format(NotifyFallback, ElementValue(el))
      case Some(message) => Ok(Notify(message))
      case None => Err(BadFormat(NotifyFallback))
  {
  }

  // ---------------------------------------------------------------------------
  // check_criteria

  /** An addon that asks for a test: a non-empty locator, a `value` and a
      `condition`. */
  predicate TestedAddon(c: Criterion) {
    var loc := Locator(c.xpath, c.elementFinder);
    loc.Some? && loc.value != "" && c.value.Some? && c.condition.Some?
  }

  /** `check_criteria(action)`.  The record needs an `addon`; a criterion with no
      or an empty locator passes; otherwise `value` and `condition` are needed, a
      missing element fails the test, and the element's value is compared with
      the ladder.  The element is read before the operator is looked up. */
  function CriteriaHolds(py: Builtins, page: Page, frame: Option<nat>, a: ActionRec): (r: Result<bool, Fault>)
    ensures a.addon.None? ==> r == Err(MissingKey("addon"))
    ensures a.addon.Some? && Locator(a.addon.value.xpath, a.addon.value.elementFinder) in {None, Some("")} ==>
      r == Ok(true)
    ensures a.addon.Some? && Locator(a.addon.value.xpath, a.addon.value.elementFinder) !in {None, Some("")} ==>
      && (a.addon.value.value.None? ==> r == Err(MissingKey("value")))
      && (a.addon.value.value.Some? && a.addon.value.condition.None? ==> r == Err(MissingKey("condition")))
    ensures a.addon.Some? && TestedAddon(a.addon.value) ==>
      var c := a.addon.value;
      match FindElement(page, frame, Locator(c.xpath, c.elementFinder).value)
      case Err(e) => r == if e.NoSuchElement? then Ok(false) else Err(Driver(e))
      case Ok(el) =>
        if el.readFault.Some? then r == Err(Driver(el.readFault.value))
        else if ParseOperator(c.condition.value).None? then r == Err(UnknownCondition(c.condition.value))
        else r == Compare(py, ParseOperator(c.condition.value).value, ElementValue(el), c.value.value)
  {
    match a.addon
    case None => Err(MissingKey("addon"))
    case Some(c) =>
      var loc := Locator(c.xpath, c.elementFinder);
      if loc.None? || loc.value == "" then Ok(true)
      else if c.value.None? then Err(MissingKey("value"))
      else if c.condition.None? then Err(MissingKey("condition"))
      else
        match FindElement(page, frame, loc.value)
        case Err(e) => if e.NoSuchElement? then Ok(false) else Err(Driver(e))
        case Ok(el) =>
          if el.readFault.Some? then Err(Driver(el.readFault.value))
          else
            match ParseOperator(c.condition.value)
            case None => Err(UnknownCondition(c.condition.value))
            case Some(o) => Compare(py, o, ElementValue(el), c.value.value)
  }

  /** An addon element that cannot take keyboard input is still read and
      compared. */
  lemma UntypableCriterionCompared(py: Builtins, page: Page, frame: Option<nat>, a: ActionRec, o: Operator)
    requires a.addon.Some? && TestedAddon(a.addon.value)
    requires var c := a.addon.value; var found := FindElement(page, frame, Locator(c.xpath, c.elementFinder).value);
      && found.Ok? && found.value.readFault.None? && found.value.keyFault == Some(NotInteractable)
      && ParseOperator(c.condition.value) == Some(o)
    ensures var c := a.addon.value; var el := FindElement(page, frame, Locator(c.xpath, c.elementFinder).value).value;
      CriteriaHolds(py, page, frame, a) == Compare(py, o, ElementValue(el), c.value.value)
  {
  }

  /** An addon element that is not on the page fails the criterion, whatever the
      operator, even one the ladder does not know. */
  lemma MissingCriterionElementFails(py: Builtins, page: Page, frame: Option<nat>, a: ActionRec)
    requires a.addon.Some?
    requires var c := a.addon.value; var loc := Locator(c.xpath, c.elementFinder);
      && loc.Some? && loc.value != "" && c.value.Some? && c.condition.Some?
      && FindElement(page, frame, loc.value) == Err(NoSuchElement)
    ensures CriteriaHolds(py, page, frame, a) == Ok(false)
  {
  }

  // ---------------------------------------------------------------------------
  // The try block of run_action

  /** What the try block did: raised or not, the effect it performed, the flag
      store afterwards. */
  datatype Attempted = Attempted(outcome: Outcome, effect: Option<Effect>, store: Store)

  /** The four driver exceptions of the try block are swallowed; anything else
      leaves run_action. */
  function Settle(f: Fault): (r: Outcome)
    ensures r.Ok? <==> f.Driver? && IsRecoverable(f.error)
  {
    if f.Driver? && IsRecoverable(f.error) then Ok(()) else Err(f)
  }

  /** `check_flags(action)`: true without a flag record, else the flag's verdict. */
  function FlagsHold(py: Builtins, store: Store, a: ActionRec): (r: Verdict)
    ensures NoFlag(a.flag) ==> r == Verdict(Ok(true), store)
    ensures a.flag.Some? && a.flag.value.otherKeys && a.flag.value.name.None? ==>
      r == Verdict(Err(MissingKey("name")), store)
    ensures r.result.Ok? ==> NoFlag(a.flag) || a.flag.value.name.Some?
  {
    if NoFlag(a.flag) then Verdict(Ok(true), store) else Evaluate(py, store, a.flag.value)
  }

  /** The exception performing an effect raises: every effect reads the
      element (its tag, its value or text, or a script click on it), so a stale
      element fails them all; only Fill (`clear`, `send_keys`) and Enter
      (`send_keys`) also type into it.  A notification and the script click
      need no keyboard input. */
  function EffectFault(eff: Effect, el: Element): Option<DriverError> {
    if el.readFault.Some? then el.readFault
    else if eff.Fill? || eff.Enter? then el.keyFault
    else None
  }

  /** The try block of `run_action`, in order: the locator (xpath before
      elementFinder; None is refused by the driver), the element, the criterion,
      only then the flags, the value, and the effect on the element. */
  function Attempt(py: Builtins, page: Page, frame: Option<nat>, store: Store, a: ActionRec): (r: Attempted)
    ensures r.store == store || (!NoFlag(a.flag) && r.store == Evaluate(py, store, a.flag.value).store)
  {
    var loc := Locator(a.xpath, a.elementFinder);
    if loc.None? then Attempted(Err(Driver(InvalidArgument)), None, store)
    else
      match FindElement(page, frame, loc.value)
      case Err(e) => Attempted(Settle(Driver(e)), None, store)
      case Ok(el) =>
        match CriteriaHolds(py, page, frame, a)
        case Err(f) => Attempted(Settle(f), None, store)
        case Ok(false) => Attempted(Ok(()), None, store)
        case Ok(true) =>
          var v := FlagsHold(py, store, a);
          match v.result
          case Err(f) => Attempted(Settle(f), None, v.store)
          case Ok(false) => Attempted(Ok(()), None, v.store)
          case Ok(true) =>
            if a.value.None? then Attempted(Err(MissingKey("value")), None, v.store)
            else if el.readFault.Some? then Attempted(Settle(Driver(el.readFault.value)), None, v.store)
            else
              match EffectFor(py, a.value.value, loc.value, el)
              case Err(f) => Attempted(Err(f), None, v.store)
              case Ok(eff) =>
                match EffectFault(eff, el)
                case Some(e) => Attempted(Settle(Driver(e)), None, v.store)
                case None => Attempted(Ok(()), Some(eff), v.store)
  }

  /** An action has an effect exactly when its element is found, its criterion
      holds, its flags hold, it has a value, and the element takes the effect;
      the effect is then the one its value and element pick. */
  lemma EffectExactlyWhenGatesPass(py: Builtins, page: Page, frame: Option<nat>, store: Store, a: ActionRec)
    ensures var r := Attempt(py, page, frame, store, a);
      var loc := Locator(a.xpath, a.elementFinder);
      r.effect.Some? <==>
        && loc.Some? && FindElement(page, frame, loc.value).Ok?
        && CriteriaHolds(py, page, frame, a) == Ok(true)
        && FlagsHold(py, store, a).result == Ok(true)
        && a.value.Some?
        && var el := FindElement(page, frame, loc.value).value;
           && EffectFor(py, a.value.value, loc.value, el).Ok?
           && EffectFault(EffectFor(py, a.value.value, loc.value, el).value, el).None?
    ensures var r := Attempt(py, page, frame, store, a);
      var loc := Locator(a.xpath, a.elementFinder);
      r.effect.Some? ==> (r.outcome.Ok? &&
        Ok(r.effect.value) == EffectFor(py, a.value.value, loc.value, FindElement(page, frame, loc.value).value))
  {
    var loc := Locator(a.xpath, a.elementFinder);
    if loc.Some? && FindElement(page, frame, loc.value).Ok? && CriteriaHolds(py, page, frame, a) == Ok(true) {
      var el := FindElement(page, frame, loc.value).value;
      var v := FlagsHold(py, store, a);
      if v.result == Ok(true) && a.value.Some? && el.readFault.None? {
        assert Attempt(py, page, frame, store, a) ==
          match EffectFor(py, a.value.value, loc.value, el)
          case Err(f) => Attempted(Err(f), None, v.store)
          case Ok(eff) =>
            if EffectFault(eff, el).Some? then Attempted(Settle(Driver(EffectFault(eff, el).value)), None, v.store)
            else Attempted(Ok(()), Some(eff), v.store);
      }
    }
  }

  /** An element that cannot take keyboard input still gets a notification or a
      script click once every gate has passed; a fill or an Enter on it raises
      NotInteractable, which the try block swallows, so nothing happens and the
      store is the one the flags left. */
  lemma UntypableElement(py: Builtins, page: Page, frame: Option<nat>, store: Store, a: ActionRec)
    requires var loc := Locator(a.xpath, a.elementFinder);
      && loc.Some? && FindElement(page, frame, loc.value).Ok?
      && FindElement(page, frame, loc.value).value.readFault.None?
      && FindElement(page, frame, loc.value).value.keyFault == Some(NotInteractable)
    requires CriteriaHolds(py, page, frame, a) == Ok(true)
    requires FlagsHold(py, store, a).result == Ok(true)
    requires a.value.Some?
    ensures var loc := Locator(a.xpath, a.elementFinder);
      var eff := EffectFor(py, a.value.value, loc.value, FindElement(page, frame, loc.value).value);
      var store' := FlagsHold(py, store, a).store;
      Attempt(py, page, frame, store, a) ==
        if eff.Err? then Attempted(Err(eff.error), None, store')
        else if eff.value.Notify? || eff.value.Click? then Attempted(Ok(()), Some(eff.value), store')
        else Attempted(Ok(()), None, store')
  {
  }

  /** A notification whose template the element's value cannot fill raises out
      of the try block, which swallows only driver errors: no effect, the store
      the flags left, and the tick's remaining rules do not run. */
  lemma FormatFailureRaises(py: Builtins, page: Page, frame: Option<nat>, store: Store, a: ActionRec)
    requires var loc := Locator(a.xpath, a.elementFinder);
      && loc.Some? && FindElement(page, frame, loc.value).Ok?
      && FindElement(page, frame, loc.value).value.readFault.None?
    requires CriteriaHolds(py, page, frame, a) == Ok(true)
    requires FlagsHold(py, store, a).result == Ok(true)
    requires a.value.Some? && Contains(a.value.value, NotifyMarker)
    requires var el := FindElement(page, frame, Locator(a.xpath, a.elementFinder).value).value;
      py.format(NotifyTemplate(a.value.value), ElementValue(el)).None?
    ensures Attempt(py, page, frame, store, a) ==
      Attempted(Err(BadFormat(NotifyTemplate(a.value.value))), None, FlagsHold(py, store, a).store)
  {
  }

  /** A failed criterion ends the action before the flags are read: no effect
      and the flag store as it was. */
  lemma CriterionFalseKeepsFlags(py: Builtins, page: Page, frame: Option<nat>, store: Store, a: ActionRec)
    requires var loc := Locator(a.xpath, a.elementFinder);
      loc.Some? && FindElement(page, frame, loc.value).Ok?
    requires CriteriaHolds(py, page, frame, a) == Ok(false)
    ensures Attempt(py, page, frame, store, a) == Attempted(Ok(()), None, store)
  {
  }

  /** A failed flag expression stops the effect, but the mutations of its
      `false` lists stay in the store. */
  lemma FlagsFalseNoEffect(py: Builtins, page: Page, frame: Option<nat>, store: Store, a: ActionRec)
    requires var loc := Locator(a.xpath, a.elementFinder);
      loc.Some? && FindElement(page, frame, loc.value).Ok?
    requires CriteriaHolds(py, page, frame, a) == Ok(true)
    requires FlagsHold(py, store, a).result == Ok(false)
    ensures Attempt(py, page, frame, store, a) == Attempted(Ok(()), None, FlagsHold(py, store, a).store)
  {
  }

  /** A flag record that holds only keys no flag check reads is still a
      record: it lacks `name`, so the action raises Missing key and has no
      effect, whatever the criterion said. */
  lemma UnreadFlagKeysRaise(py: Builtins, page: Page, frame: Option<nat>, store: Store, a: ActionRec)
    requires var loc := Locator(a.xpath, a.elementFinder);
      loc.Some? && FindElement(page, frame, loc.value).Ok?
    requires CriteriaHolds(py, page, frame, a) == Ok(true)
    requires a.flag == Some(FlagExpr(None, None, None, None, None, None, None, true))
    ensures Attempt(py, page, frame, store, a) == Attempted(Err(MissingKey("name")), None, store)
  {
  }

  /** An element that cannot be found (or is stale, or times out) ends the action
      quietly with nothing changed. */
  lemma LostElementSkips(py: Builtins, page: Page, frame: Option<nat>, store: Store, a: ActionRec)
    requires var loc := Locator(a.xpath, a.elementFinder);
      loc.Some? && FindElement(page, frame, loc.value).Err? &&
      IsRecoverable(FindElement(page, frame, loc.value).error)
    ensures Attempt(py, page, frame, store, a) == Attempted(Ok(()), None, store)
  {
  }
}
