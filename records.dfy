/** The JSON records of the rule file, as the engine in src/web.py reads them.
    Every key is optional so that a missing key can be an error of the operation
    that reads it, as the KeyError is in the source. */
module Records {
  import opened Prelude
  import opened Utils
  import opened Flags

  /** An action's `addon`: a second element whose value must pass a test. */
  datatype Criterion = Criterion(
    xpath: Option<string>,
    elementFinder: Option<string>,
    value: Option<string>,
    condition: Option<string>)

  datatype ActionRec = ActionRec(
    name: Option<string>,
    enable: Option<bool>,
    initWait: Option<WaitSpec>,
    xpath: Option<string>,
    elementFinder: Option<string>,
    value: Option<string>,
    addon: Option<Criterion>,
    flag: Option<FlagExpr>)

  datatype RuleRec = RuleRec(
    name: Option<string>,
    enable: Option<bool>,
    url: Option<string>,
    initWait: Option<WaitSpec>,
    actions: Option<seq<ActionRec>>)

  /** The locator keys present in a record, as a dictionary. */
  function LocatorFields(xpath: Option<string>, elementFinder: Option<string>): map<string, Option<string>> {
    (if elementFinder.Some? then map["elementFinder" := elementFinder] else map[])
    + (if xpath.Some? then map["xpath" := xpath] else map[])
  }

  /** `dict_gets(record, ('xpath', 'elementFinder'))`: `xpath` wins over its
      alias `elementFinder`; None when neither key is there. */
  function Locator(xpath: Option<string>, elementFinder: Option<string>): (r: Option<string>)
    ensures xpath.Some? ==> r == xpath
    ensures xpath.None? ==> r == elementFinder
  {
    var keys := ["xpath", "elementFinder"];
    var d := LocatorFields(xpath, elementFinder);
    assert keys[0] == "xpath" && keys[1] == "elementFinder";
    assert xpath.None? ==> keys[0] !in d;
    assert elementFinder.None? ==> keys[1] !in d;
    DictGets(d, keys, None)
  }

  /** `action.get('flag', None)` is falsy: no key, or a record with no key at
      all. */
  predicate NoFlag(f: Option<FlagExpr>) {
    f.None? || f.value == FlagExpr(None, None, None, None, None, None, None, false)
  }
}
