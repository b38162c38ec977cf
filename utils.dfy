/** The delay-spec parser and the dictionary lookup of src/utils.py. */
module Utils {
  import opened Prelude

  // ---------------------------------------------------------------------------
  // re.split(r'[e\s]+', s)

  /** A character of the runs that a delay spec is split on. */
  predicate IsSeparator(c: char) {
    c == 'e' || IsSpace(c)
  }

  predicate NoSeparator(s: string) {
    forall i :: 0 <= i < |s| ==> !IsSeparator(s[i])
  }

  predicate AllSeparators(s: string) {
    forall i :: 0 <= i < |s| ==> IsSeparator(s[i])
  }

  /** The longest prefix of s that holds no separator. */
  function TokenPrefix(s: string): (t: string)
    ensures t <= s && NoSeparator(t)
    ensures |t| < |s| ==> IsSeparator(s[|t|])
    decreases |s|
  {
    if |s| == 0 || IsSeparator(s[0]) then [] else [s[0]] + TokenPrefix(s[1..])
  }

  /** The longest prefix of s made of separators only. */
  function SeparatorRun(s: string): (r: string)
    ensures r <= s && AllSeparators(r)
    ensures |r| < |s| ==> !IsSeparator(s[|r|])
    decreases |s|
  {
    if |s| == 0 || !IsSeparator(s[0]) then [] else [s[0]] + SeparatorRun(s[1..])
  }

  /** re.split(r'[e\s]+', s): the pieces between the maximal separator runs.
      SplitHasShape states what the pieces are like. */
  function Split(s: string): (r: seq<string>)
    ensures |r| >= 1
    decreases |s|
  {
    var t := TokenPrefix(s);
    if |t| == |s| then [s]
    else
      var rest := s[|t|..];
      var run := SeparatorRun(rest);
      [t] + Split(rest[|run|..])
  }

  /** The separator runs that Split drops, in order. */
  function Separators(s: string): (r: seq<string>)
    ensures |r| == |Split(s)| - 1
    ensures forall i :: 0 <= i < |r| ==> r[i] != [] && AllSeparators(r[i])
    decreases |s|
  {
    var t := TokenPrefix(s);
    if |t| == |s| then
      assert Split(s) == [s];
      []
    else
      var rest := s[|t|..];
      var run := SeparatorRun(rest);
      assert IsSeparator(rest[0]) && run != [];
      assert Split(s) == [t] + Split(rest[|run|..]);
      [run] + Separators(rest[|run|..])
  }

  /** Glues pieces back together with the given runs between them. */
  function Interleave(ts: seq<string>, seps: seq<string>): string
    requires |ts| >= 1 && |seps| == |ts| - 1
  {
    if |ts| == 1 then ts[0] else ts[0] + seps[0] + Interleave(ts[1..], seps[1..])
  }

  /** Nothing of s is lost by splitting it. */
  lemma {:induction false} SplitRejoins(s: string)
    ensures Interleave(Split(s), Separators(s)) == s
    decreases |s|
  {
    if |TokenPrefix(s)| < |s| {
      var t, run, u := SplitFront(s);
      SplitRejoins(u);
      InterleaveFront(t, run, Split(u), Separators(u));
    } else {
      assert TokenPrefix(s) == s;
      assert Split(s) == [s] && Separators(s) == [];
    }
  }

  /** The first piece and run that Split takes off, and the shorter rest. */
  lemma SplitFront(s: string) returns (t: string, run: string, u: string)
    requires |TokenPrefix(s)| < |s|
    ensures Split(s) == [t] + Split(u) && Separators(s) == [run] + Separators(u)
    ensures s == t + (run + u) && |u| < |s|
    ensures NoSeparator(t) && run != [] && AllSeparators(run) && (u == [] || !IsSeparator(u[0]))
  {
    t := TokenPrefix(s);
    var rest := s[|t|..];
    run := SeparatorRun(rest);
    u := rest[|run|..];
    PrefixJoin(rest, run);
    PrefixJoin(s, t);
  }

  /** Gluing a piece and a run in front of glued pieces. */
  lemma InterleaveFront(t: string, run: string, ts: seq<string>, seps: seq<string>)
    requires |ts| >= 1 && |seps| == |ts| - 1
    ensures Interleave([t] + ts, [run] + seps) == t + (run + Interleave(ts, seps))
  {
    assert ([t] + ts)[1..] == ts && ([run] + seps)[1..] == seps;
  }

  /** A sequence is its prefix followed by what comes after it. */
  lemma PrefixJoin<T>(s: seq<T>, p: seq<T>)
    requires p <= s
    ensures s == p + s[|p|..]
  {
  }

  lemma {:induction false} TokenPrefixOf(t: string, u: string)
    requires NoSeparator(t)
    requires u == [] || IsSeparator(u[0])
    ensures TokenPrefix(t + u) == t
    decreases |t|
  {
    if t != [] {
      assert (t + u)[1..] == t[1..] + u;
      TokenPrefixOf(t[1..], u);
    }
  }

  lemma {:induction false} SeparatorRunOf(run: string, u: string)
    requires AllSeparators(run)
    requires u == [] || !IsSeparator(u[0])
    ensures SeparatorRun(run + u) == run
    decreases |run|
  {
    if run != [] {
      assert (run + u)[1..] == run[1..] + u;
      SeparatorRunOf(run[1..], u);
    }
  }

  /** One step of Split: a piece, a maximal run, and whatever follows it. */
  lemma SplitStep(t: string, run: string, u: string)
    requires NoSeparator(t)
    requires run != [] && AllSeparators(run)
    requires u == [] || !IsSeparator(u[0])
    ensures Split(t + (run + u)) == [t] + Split(u)
    ensures Separators(t + (run + u)) == [run] + Separators(u)
  {
    var s := t + (run + u);
    TokenPrefixOf(t, run + u);
    assert s[|t|..] == run + u;
    SeparatorRunOf(run, u);
    assert (run + u)[|run|..] == u;
  }

  /** A glued string starts with its first piece. */
  lemma InterleaveStart(ts: seq<string>, seps: seq<string>)
    requires |ts| >= 1 && |seps| == |ts| - 1
    requires ts[0] != []
    ensures Interleave(ts, seps) != [] && Interleave(ts, seps)[0] == ts[0][0]
  {
  }

  /** Pieces and runs that Split can produce: no separator in a piece, no empty
      piece in the middle, every run non-empty. */
  predicate SplitShape(ts: seq<string>, seps: seq<string>) {
    && |ts| >= 1 && |seps| == |ts| - 1
    && (forall i :: 0 <= i < |ts| ==> NoSeparator(ts[i]))
    && (forall i :: 0 < i < |ts| - 1 ==> ts[i] != [])
    && (forall i :: 0 <= i < |seps| ==> seps[i] != [] && AllSeparators(seps[i]))
  }

  lemma SplitShapeTail(ts: seq<string>, seps: seq<string>)
    requires SplitShape(ts, seps) && |ts| > 1
    ensures SplitShape(ts[1..], seps[1..])
    ensures NoSeparator(ts[0]) && seps[0] != [] && AllSeparators(seps[0])
    ensures |ts| > 2 ==> ts[1] != []
  {
  }

  lemma ConsTail<T>(s: seq<T>)
    requires |s| > 0
    ensures [s[0]] + s[1..] == s
  {
  }

  /** Splitting one glued step: the first piece, then the rest glued. */
  lemma InterleaveCons(ts: seq<string>, seps: seq<string>)
    requires SplitShape(ts, seps) && |ts| > 1
    ensures var u := Interleave(ts[1..], seps[1..]);
      && Interleave(ts, seps) == ts[0] + (seps[0] + u)
      && (u == [] || !IsSeparator(u[0]))
  {
    SplitShapeTail(ts, seps);
    if |ts| > 2 {
      InterleaveStart(ts[1..], seps[1..]);
    }
  }

  /** Splitting undoes gluing: pieces without separators, joined by non-empty
      separator runs, come back out of Split unchanged, whatever the runs were. */
  lemma {:induction false} SplitInterleave(ts: seq<string>, seps: seq<string>)
    requires SplitShape(ts, seps)
    ensures Split(Interleave(ts, seps)) == ts
    ensures Separators(Interleave(ts, seps)) == seps
    decreases |ts|
  {
    if |ts| == 1 {
      TokenPrefixOf(ts[0], []);
      assert ts[0] + [] == ts[0];
    } else {
      SplitShapeTail(ts, seps);
      InterleaveCons(ts, seps);
      SplitStep(ts[0], seps[0], Interleave(ts[1..], seps[1..]));
      SplitInterleave(ts[1..], seps[1..]);
      ConsTail(ts);
      ConsTail(seps);
    }
  }

  /** Every split has that shape: at least one piece, no piece holds a
      separator, and only the first and the last piece can be empty. */
  lemma {:induction false} SplitHasShape(s: string)
    ensures SplitShape(Split(s), Separators(s))
    decreases |s|
  {
    if |TokenPrefix(s)| < |s| {
      var t, run, u := SplitFront(s);
      SplitHasShape(u);
      FirstPiece(u);
      ShapeCons(t, run, Split(u), Separators(u));
    } else {
      assert TokenPrefix(s) == s;
      assert Split(s) == [s] && Separators(s) == [];
    }
  }

  /** The split of a string that starts with a piece has a non-empty first
      piece unless it is the only one. */
  lemma FirstPiece(s: string)
    requires s == [] || !IsSeparator(s[0])
    ensures |Split(s)| > 1 ==> Split(s)[0] != []
  {
    if s == [] {
      assert Split(s) == [s];
    } else {
      assert Split(s)[0] == TokenPrefix(s);
    }
  }

  /** A piece and a run in front of pieces and runs of that shape keep it. */
  lemma ShapeCons(t: string, run: string, ts: seq<string>, seps: seq<string>)
    requires SplitShape(ts, seps) && (|ts| > 1 ==> ts[0] != [])
    requires NoSeparator(t) && run != [] && AllSeparators(run)
    ensures SplitShape([t] + ts, [run] + seps)
  {
    assert forall i :: 0 < i < |ts| + 1 ==> ([t] + ts)[i] == ts[i - 1];
    assert forall i :: 0 < i < |seps| + 1 ==> ([run] + seps)[i] == seps[i - 1];
  }

  /** The tokens of a delay spec: `re.split(r'[e\s]+', spec.strip())`. */
  function Tokens(spec: string): seq<string> {
    Split(Strip(spec))
  }

  /** Two tokens around any separator run split back into those tokens. */
  lemma TwoTokens(a: string, sep: string, b: string)
    requires a != [] && b != [] && NoSeparator(a) && NoSeparator(b)
    requires sep != [] && AllSeparators(sep)
    ensures Split(a + sep + b) == [a, b]
  {
    SplitInterleave([a, b], [sep]);
    assert [a, b][1..] == [b];
    assert Interleave([a, b], [sep]) == a + sep + b;
  }

  /** Neither the blanks around a spec nor the kind of run between its two
      tokens matter: "2e5", "2 5" and " 2  5 " all give ["2", "5"]. */
  lemma SeparatorsInterchangeable(pre: string, a: string, sep: string, b: string, post: string)
    requires a != [] && b != [] && NoSeparator(a) && NoSeparator(b)
    requires sep != [] && AllSeparators(sep)
    requires forall k :: 0 <= k < |pre| ==> IsSpace(pre[k])
    requires forall k :: 0 <= k < |post| ==> IsSpace(post[k])
    ensures Tokens(pre + (a + sep + b) + post) == [a, b]
  {
    TwoTokens(a, sep, b);
    var x := a + sep + b;
    assert x[0] == a[0] && !IsSeparator(a[0]);
    assert x[|x| - 1] == b[|b| - 1] && !IsSeparator(b[|b| - 1]);
    StripBlanks(pre, x, post);
  }

  // ---------------------------------------------------------------------------
  // WaitValue

  /** An argument of Python's int(): an int already, or a str to parse. */
  datatype IntArg = Lit(n: int) | Str(s: string)

  function ToInt(x: IntArg): Result<int, Fault> {
    match x
    case Lit(n) => Ok(n)
    case Str(s) =>
      match ParseInt(s)
      case Some(n) => Ok(n)
      case None => Err(NotANumber(s))
  }

  /** A delay: `start` seconds, or a random whole number of seconds in
      [start, stop] when stop is not zero. */
  datatype WaitValue = WaitValue(start: int, stop: int) {

    /** `range()`. */
    function Range(): (int, int) {
      (start, stop)
    }

    /** `value()`: random.randint(start, stop) is an arbitrary choice in the range. */
    method Value() returns (r: Result<int, Fault>)
      ensures Draws(this, r)
    {
      if stop != 0 {
        if start <= stop {
          var v :| start <= v <= stop;
          r := Ok(v);
        } else {
          r := Err(EmptyRange(start, stop));
        }
      } else {
        r := Ok(start);
      }
    }
  }

  /** What `value()` may return: start when stop is 0, else a number in
      [start, stop], and randint's ValueError when start > stop. */
  predicate Draws(w: WaitValue, r: Result<int, Fault>) {
    if w.stop == 0 then r == Ok(w.start)
    else if w.start <= w.stop then r.Ok? && w.start <= r.value <= w.stop
    else r == Err(EmptyRange(w.start, w.stop))
  }

  /** `WaitValue(a, b)`: int(a) first, then int(b). */
  function NewWaitValue(a: IntArg, b: IntArg): (r: Result<WaitValue, Fault>)
    ensures r.Ok? <==> ToInt(a).Ok? && ToInt(b).Ok?
    ensures r.Ok? ==> r.value.Range() == (ToInt(a).value, ToInt(b).value)
    ensures ToInt(a).Err? ==> r == Err(ToInt(a).error)
    ensures ToInt(a).Ok? && ToInt(b).Err? ==> r == Err(ToInt(b).error)
  {
    match ToInt(a)
    case Err(f) => Err(f)
    case Ok(x) =>
      match ToInt(b)
      case Err(f) => Err(f)
      case Ok(y) => Ok(WaitValue(x, y))
  }

  predicate DrawsFrom(w: Result<WaitValue, Fault>, r: Result<int, Fault>) {
    match w
    case Err(f) => r == Err(f)
    case Ok(v) => Draws(v, r)
  }

  /** The WaitValue that one or two tokens describe. */
  function TokenWait(ts: seq<string>): Result<WaitValue, Fault>
    requires 1 <= |ts| <= 2
  {
    if |ts| == 2 then NewWaitValue(Str(ts[0]), Str(ts[1])) else NewWaitValue(Str(ts[0]), Lit(0))
  }

  method Draw(ts: seq<string>) returns (r: Result<int, Fault>)
    requires 1 <= |ts| <= 2
    ensures DrawsFrom(TokenWait(ts), r)
  {
    var w := TokenWait(ts);
    match w
    case Err(f) => r := Err(f);
    case Ok(v) => r := v.Value();
  }

  // ---------------------------------------------------------------------------
  // get_wait and wait

  /** A rule or action `initWait`: a JSON number or a JSON string. */
  datatype WaitSpec = Seconds(n: int) | Text(s: string)

  /** What get_wait(spec) may return. */
  predicate Resolves(spec: WaitSpec, r: Result<int, Fault>) {
    match spec
    case Seconds(n) => r == Ok(n)
    case Text(s) =>
      if s == "" then r == Ok(0)
      else
        var ts := Tokens(s);
        if |ts| <= 2 then DrawsFrom(TokenWait(ts), r) else r == Ok(0)
  }

  /** `get_wait(spec)`. */
  method GetWait(spec: WaitSpec) returns (r: Result<int, Fault>)
    ensures Resolves(spec, r)
  {
    match spec
    case Seconds(n) =>
      r := Ok(n);
    case Text(s) =>
      if s == "" {
        r := Ok(0);
        return;
      }
      var ts := Tokens(s);
      if |ts| <= 2 {
        r := Draw(ts);
      } else {
        r := Ok(0);
      }
  }

  /** A draw either raises, always with the same error, or gives a number. */
  lemma DrawsOneWay(w: Result<WaitValue, Fault>, e: Fault, e2: Fault, t: int)
    ensures !(DrawsFrom(w, Err(e)) && DrawsFrom(w, Ok(t)))
    ensures DrawsFrom(w, Err(e)) && DrawsFrom(w, Err(e2)) ==> e == e2
  {
  }

  /** A wait either raises, always with the same error, or draws a number:
      never both. */
  lemma ResolvesOneWay(spec: WaitSpec, e: Fault, e2: Fault, t: int)
    ensures !(Resolves(spec, Err(e)) && Resolves(spec, Ok(t)))
    ensures Resolves(spec, Err(e)) && Resolves(spec, Err(e2)) ==> e == e2
  {
    if spec.Text? && spec.s != "" {
      var ts := Tokens(spec.s);
      if |ts| <= 2 {
        DrawsOneWay(TokenWait(ts), e, e2, t);
      }
    }
  }

  /** A single token n resolves to int(n), and a non-numeric one raises. */
  lemma SingleToken(s: string, r: Result<int, Fault>)
    requires s != "" && |Tokens(s)| == 1
    ensures Resolves(Text(s), r) <==> r == ToInt(Str(Tokens(s)[0]))
  {
    var ts := Tokens(s);
    assert Resolves(Text(s), r) == DrawsFrom(NewWaitValue(Str(ts[0]), Lit(0)), r);
  }

  /** Two tokens a b with int(b) == 0 resolve to int(a), like a single token. */
  lemma ZeroStop(s: string, r: Result<int, Fault>)
    requires s != "" && |Tokens(s)| == 2
    requires ToInt(Str(Tokens(s)[1])) == Ok(0)
    ensures Resolves(Text(s), r) <==> r == ToInt(Str(Tokens(s)[0]))
  {
  }

  /** Two tokens a b with b != 0 resolve to a value in [a, b]; a > b raises. */
  lemma RangeToken(s: string, a: int, b: int, r: Result<int, Fault>)
    requires s != "" && |Tokens(s)| == 2
    requires ToInt(Str(Tokens(s)[0])) == Ok(a) && ToInt(Str(Tokens(s)[1])) == Ok(b) && b != 0
    ensures a <= b ==> (Resolves(Text(s), r) <==> r.Ok? && a <= r.value <= b)
    ensures a > b ==> (Resolves(Text(s), r) <==> r == Err(EmptyRange(a, b)))
  {
    var ts := Tokens(s);
    TwoNumbers(ts, a, b);
    assert Resolves(Text(s), r) == DrawsFrom(TokenWait(ts), r);
  }

  /** Two numeric tokens a b make the WaitValue (a, b). */
  lemma TwoNumbers(ts: seq<string>, a: int, b: int)
    requires |ts| == 2 && ToInt(Str(ts[0])) == Ok(a) && ToInt(Str(ts[1])) == Ok(b)
    ensures TokenWait(ts) == Ok(WaitValue(a, b))
  {
  }

  /** A non-numeric first token is an error, never a zero delay. */
  lemma NonNumericRaises(s: string, r: Result<int, Fault>)
    requires s != "" && 1 <= |Tokens(s)| <= 2 && ParseInt(Tokens(s)[0]).None?
    requires Resolves(Text(s), r)
    ensures r == Err(NotANumber(Tokens(s)[0]))
  {
    var ts := Tokens(s);
    assert ToInt(Str(ts[0])) == Err(NotANumber(ts[0]));
    assert TokenWait(ts) == Err(NotANumber(ts[0]));
  }

  /** Blanks strip away, and the empty string splits into one empty piece. */
  lemma BlankTokens(spec: string)
    requires forall k :: 0 <= k < |spec| ==> IsSpace(spec[k])
    ensures Tokens(spec) == [""]
  {
    assert LStrip(spec) == [];
    assert Strip(spec) == [];
    assert Split([]) == [[]];
  }

  /** A spec of whitespace only is not "no wait": it splits into one empty token,
      and int('') raises. */
  lemma BlankSpecRaises(spec: string, r: Result<int, Fault>)
    requires spec != "" && forall k :: 0 <= k < |spec| ==> IsSpace(spec[k])
    requires Resolves(Text(spec), r)
    ensures r == Err(NotANumber(""))
  {
    BlankTokens(spec);
    EmptyTokenRaises();
  }

  /** int('') raises. */
  lemma EmptyTokenRaises()
    ensures TokenWait([""]) == Err(NotANumber(""))
  {
    assert ParseInt("") == None;
  }

  /** What `wait` did: returned early, or slept after announcing the delay to the
      counter when there is one. */
  datatype WaitRun = NoWait | Slept(seconds: int, counted: Option<string>)

  /** `wait(spec, counter)`: the parse and the counter call; the sleep itself is
      the `seconds` of the result. */
  method Wait(spec: string, hasCounter: bool) returns (r: Result<WaitRun, Fault>)
    ensures spec == "" ==> r == Ok(NoWait)
    ensures spec != "" && |Tokens(spec)| > 2 ==> r == Ok(NoWait)
    ensures spec != "" && |Tokens(spec)| <= 2 ==>
      match r
      case Err(f) => Resolves(Text(spec), Err(f))
      case Ok(run) =>
        && run.Slept?
        && Resolves(Text(spec), Ok(run.seconds))
        && run.counted == (if hasCounter then Some(IntToStr(run.seconds)) else None)
  {
    if spec == "" {
      return Ok(NoWait);
    }
    var ts := Tokens(spec);
    if |ts| > 2 {
      return Ok(NoWait);
    }
    var t := Draw(ts);
    match t
    case Err(f) => r := Err(f);
    case Ok(n) =>
      r := Ok(Slept(n, if hasCounter then Some(IntToStr(n)) else None));
  }

  // ---------------------------------------------------------------------------
  // dict_gets

  /** `dict_gets(d, keys, default)`: the value of the first key of `keys` that
      is in `d`, else `default`. */
  function DictGets<K, V>(d: map<K, V>, keys: seq<K>, default: V): (r: V)
    ensures (forall i :: 0 <= i < |keys| ==> keys[i] !in d) ==> r == default
    ensures forall i :: 0 <= i < |keys| && keys[i] in d && (forall j :: 0 <= j < i ==> keys[j] !in d) ==>
      r == d[keys[i]]
  {
    if keys == [] then default
    else if keys[0] in d then d[keys[0]]
    else
      var r := DictGets(d, keys[1..], default);
      assert forall i :: 1 <= i < |keys| ==> keys[i] == keys[1..][i - 1];
      r
  }
}
