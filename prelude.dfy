/** Values and Python built-ins shared by every part of the model: optional values,
    results, the exceptions the rule engine raises, and the string and integer
    helpers (str.lower, str.strip, the `in` test on strings, int() and str()). */
module Prelude {

  datatype Option<+T> = None | Some(value: T) {
    function GetOr(default: T): T {
      match this
      case Some(v) => v
      case None => default
    }
  }

  datatype Result<+T, +E> = Ok(value: T) | Err(error: E)

  /** The Selenium exceptions the engine tells apart.  NoSuchFrame, NoSuchWindow,
      InvalidArgument and OtherWebDriver are all WebDriverException subclasses that
      only `check` catches. */
  datatype DriverError =
    | NoSuchElement
    | StaleElement
    | NotInteractable
    | Timeout(message: string)
    | NoSuchWindow
    | NoSuchFrame
    | InvalidArgument
    | OtherWebDriver(message: string)

  /** The exceptions that can leave an operation of the engine. */
  datatype Fault =
    | Driver(error: DriverError)        // a Selenium exception
    | MissingKey(key: string)           // KeyError, or the Exception that re-raises it
    | NotANumber(text: string)          // ValueError from int() or float()
    | EmptyRange(start: int, stop: int) // ValueError from random.randint(start, stop)
    | UnknownCondition(op: string)      // Exception: unknown addon condition operator
    | UnknownFlagCondition(op: string)  // SyntaxError: unknown flag condition operator
    | ConflictingLogic                  // SyntaxError: a flag with both 'and' and 'or'
    | UnknownFlagOp(op: string)         // Exception: unknown flag mutation operator
    | AttributeMissing(name: string)    // AttributeError
    | UnboundLocal(name: string)        // UnboundLocalError
    | BadPattern(pattern: string)       // re.error from re.search
    | NegativeSleep(seconds: int)       // ValueError from time.sleep of a negative delay
    | BadFormat(template: string)       // KeyError, IndexError or ValueError from str.format

  type Outcome = Result<(), Fault>

  /** The four driver failures that `run_action` swallows. */
  predicate IsRecoverable(e: DriverError) {
    e.NoSuchElement? || e.StaleElement? || e.NotInteractable? || e.Timeout?
  }

  /** Faults that are Python SyntaxErrors; `check` pauses the engine on them. */
  predicate IsSyntaxError(f: Fault) {
    f.UnknownFlagCondition? || f.ConflictingLogic?
  }

  // ---------------------------------------------------------------------------
  // Strings

  /** Python's str.isspace(), which is also what `\s` matches in a str pattern. */
  predicate IsSpace(c: char) {
    c in {' ', '\t', '\n', '\r', '\U{0B}', '\U{0C}', '\U{1C}', '\U{1D}', '\U{1E}', '\U{1F}',
          '\U{85}', '\U{A0}', '\U{1680}', '\U{2000}', '\U{2001}', '\U{2002}', '\U{2003}',
          '\U{2004}', '\U{2005}', '\U{2006}', '\U{2007}', '\U{2008}', '\U{2009}', '\U{200A}',
          '\U{2028}', '\U{2029}', '\U{202F}', '\U{205F}', '\U{3000}'}
  }

  function LowerChar(c: char): char {
    if 'A' <= c <= 'Z' then (c as int + 32) as char else c
  }

  /** str.lower() on the ASCII letters. */
  function Lower(s: string): (r: string)
    ensures |r| == |s|
    ensures forall i :: 0 <= i < |s| ==> r[i] == LowerChar(s[i])
  {
    seq(|s|, i requires 0 <= i < |s| => LowerChar(s[i]))
  }

  lemma LowerIdempotent(s: string)
    ensures Lower(Lower(s)) == Lower(s)
  {
    assert forall i :: 0 <= i < |s| ==> LowerChar(LowerChar(s[i])) == LowerChar(s[i]);
  }

  /** Python's `sub in s` for strings: sub occurs in s as a contiguous block. */
  predicate Contains(s: string, sub: string)
    decreases |s|
  {
    sub <= s || (|s| > 0 && Contains(s[1..], sub))
  }

  lemma {:induction false} ContainsAt(s: string, sub: string, i: nat)
    requires i + |sub| <= |s| && s[i..i + |sub|] == sub
    ensures Contains(s, sub)
    decreases i
  {
    if i == 0 {
      assert sub <= s by { assert s[..|sub|] == sub; }
    } else {
      assert s[1..][i - 1..i - 1 + |sub|] == s[i..i + |sub|];
      ContainsAt(s[1..], sub, i - 1);
    }
  }

  lemma {:induction false} ContainsWitness(s: string, sub: string) returns (i: nat)
    requires Contains(s, sub)
    ensures i + |sub| <= |s| && s[i..i + |sub|] == sub
    decreases |s|
  {
    if sub <= s {
      i := 0;
    } else {
      var j := ContainsWitness(s[1..], sub);
      assert s[1..][j..j + |sub|] == s[j + 1..j + 1 + |sub|];
      i := j + 1;
    }
  }

  /** str.lstrip(): drops the leading whitespace. */
  function LStrip(s: string): (r: string)
    ensures |r| <= |s| && r == s[|s| - |r|..]
    ensures forall k :: 0 <= k < |s| - |r| ==> IsSpace(s[k])
    ensures r == [] || !IsSpace(r[0])
    decreases |s|
  {
    if |s| > 0 && IsSpace(s[0]) then LStrip(s[1..]) else s
  }

  /** str.rstrip(): drops the trailing whitespace. */
  function RStrip(s: string): (r: string)
    ensures |r| <= |s| && r == s[..|r|]
    ensures forall k :: |r| <= k < |s| ==> IsSpace(s[k])
    ensures r == [] || !IsSpace(r[|r| - 1])
    decreases |s|
  {
    if |s| > 0 && IsSpace(s[|s| - 1]) then RStrip(s[..|s| - 1]) else s
  }

  /** str.strip(). */
  function Strip(s: string): string {
    RStrip(LStrip(s))
  }

  /** A string that starts and ends with a non-space character is its own strip. */
  lemma StripKeeps(s: string)
    requires s == [] || (!IsSpace(s[0]) && !IsSpace(s[|s| - 1]))
    ensures Strip(s) == s
  {
  }

  /** Leading blanks go, up to the first character that is not one. */
  lemma {:induction false} LStripBlanks(pre: string, y: string)
    requires forall k :: 0 <= k < |pre| ==> IsSpace(pre[k])
    requires y == [] || !IsSpace(y[0])
    ensures LStrip(pre + y) == y
    decreases |pre|
  {
    if pre == [] {
      assert pre + y == y;
    } else {
      assert (pre + y)[1..] == pre[1..] + y;
      LStripBlanks(pre[1..], y);
    }
  }

  /** Trailing blanks go, back to the last character that is not one. */
  lemma {:induction false} RStripBlanks(x: string, post: string)
    requires forall k :: 0 <= k < |post| ==> IsSpace(post[k])
    requires x == [] || !IsSpace(x[|x| - 1])
    ensures RStrip(x + post) == x
    decreases |post|
  {
    if post == [] {
      assert x + post == x;
    } else {
      var n := |post| - 1;
      assert (x + post)[..|x + post| - 1] == x + post[..n];
      RStripBlanks(x, post[..n]);
    }
  }

  /** str.strip() removes exactly the blanks around a string that starts and
      ends with a character that is not blank. */
  lemma StripBlanks(pre: string, x: string, post: string)
    requires forall k :: 0 <= k < |pre| ==> IsSpace(pre[k])
    requires forall k :: 0 <= k < |post| ==> IsSpace(post[k])
    requires x != [] && !IsSpace(x[0]) && !IsSpace(x[|x| - 1])
    ensures Strip(pre + x + post) == x
  {
    assert pre + x + post == pre + (x + post);
    LStripBlanks(pre, x + post);
    RStripBlanks(x, post);
  }

  // ---------------------------------------------------------------------------
  // int() and str() on base-10 integers

  predicate IsDigit(c: char) {
    '0' <= c <= '9'
  }

  function DigitValue(c: char): nat
    requires IsDigit(c)
  {
    c as int - '0' as int
  }

  function DigitChar(d: nat): (c: char)
    requires d < 10
    ensures IsDigit(c) && DigitValue(c) == d
  {
    ('0' as int + d) as char
  }

  /** The body of a Python integer literal: digits, where each underscore stands
      between two digits. */
  predicate IsDigitString(s: string) {
    && DigitsOrUnderscores(s)
    && |s| > 0
    && IsDigit(s[0])
    && IsDigit(s[|s| - 1])
    && forall i :: 0 <= i < |s| ==>
         IsDigit(s[i]) || (s[i] == '_' && 0 < i < |s| - 1 && IsDigit(s[i - 1]) && IsDigit(s[i + 1]))
  }

  predicate DigitsOrUnderscores(s: string) {
    forall i :: 0 <= i < |s| ==> IsDigit(s[i]) || s[i] == '_'
  }

  /** The value of a digit string, ignoring its underscores. */
  function DigitsValue(s: string): nat
    requires DigitsOrUnderscores(s)
  {
    if s == [] then 0
    else if s[|s| - 1] == '_' then DigitsValue(s[..|s| - 1])
    else 10 * DigitsValue(s[..|s| - 1]) + DigitValue(s[|s| - 1])
  }

  /** int(s) for a str argument: surrounding whitespace, an optional sign and a
      digit string; None stands for the ValueError. */
  function ParseInt(s: string): Option<int> {
    var t := Strip(s);
    if |t| > 0 && (t[0] == '-' || t[0] == '+') then
      if IsDigitString(t[1..]) then
        Some(if t[0] == '-' then -(DigitsValue(t[1..]) as int) else DigitsValue(t[1..]) as int)
      else None
    else if IsDigitString(t) then Some(DigitsValue(t))
    else None
  }

  function NatToStr(n: nat): (r: string)
    ensures |r| > 0
    ensures forall i :: 0 <= i < |r| ==> IsDigit(r[i])
  {
    if n < 10 then [DigitChar(n)] else NatToStr(n / 10) + [DigitChar(n % 10)]
  }

  /** str(n) for a Python int. */
  function IntToStr(n: int): (r: string)
    ensures |r| > 0
  {
    if n < 0 then "-" + NatToStr(-n) else NatToStr(n)
  }

  lemma {:induction false} NatToStrValue(n: nat)
    ensures DigitsValue(NatToStr(n)) == n
  {
    if n >= 10 {
      var s := NatToStr(n);
      assert s[..|s| - 1] == NatToStr(n / 10);
      NatToStrValue(n / 10);
    }
  }

  lemma DigitsFormDigitString(s: string)
    requires |s| > 0 && forall i :: 0 <= i < |s| ==> IsDigit(s[i])
    ensures IsDigitString(s)
  {
  }

  lemma NotSpace(c: char)
    requires IsDigit(c) || c == '-'
    ensures !IsSpace(c)
  {
  }

  /** int(str(n)) == n. */
  lemma IntToStrRoundTrip(n: int)
    ensures ParseInt(IntToStr(n)) == Some(n)
  {
    var s := IntToStr(n);
    var m: nat := if n < 0 then -n else n;
    var d := NatToStr(m);
    DigitsFormDigitString(d);
    NatToStrValue(m);
    NotSpace(s[0]);
    NotSpace(s[|s| - 1]);
    StripKeeps(s);
    assert Strip(s) == s;
    if n < 0 {
      assert s[1..] == d;
    } else {
      assert s == d;
      assert IsDigit(s[0]);
    }
  }
}
