/** `query(obj, chain)` of `src/jfather.js`: a chain of `.name` and
    `[digits]` segments, consumed left to right. */
module PathQuery {
  import opened Documents

  /** One segment the chain's regular expression recognises: the `prop`
      group (`\.(\w+)`) or the `index` group (`\[(\d+)\]`). */
  datatype Segment = Prop(name: string) | Index(digits: string)

  /** Length of the longest prefix of `s` made of word characters. */
  function WordRun(s: string): (n: nat)
    ensures n <= |s|
    ensures forall i :: 0 <= i < n ==> IsWordChar(s[i])
    ensures n < |s| ==> !IsWordChar(s[n])
  {
    if s == [] || !IsWordChar(s[0]) then 0 else 1 + WordRun(s[1..])
  }

  /** Length of the longest prefix of `s` made of decimal digits. */
  function DigitRun(s: string): (n: nat)
    ensures n <= |s|
    ensures forall i :: 0 <= i < n ==> IsDigit(s[i])
    ensures n < |s| ==> !IsDigit(s[n])
  {
    if s == [] || !IsDigit(s[0]) then 0 else 1 + DigitRun(s[1..])
  }

  /** `re.exec(rest)` for `/^\.(?<prop>\w+)|^\[(?<index>\d+)\]/u`: the
      segment found at the start of `rest` and the length of the match.
      Both runs are greedy and the two alternatives start with different
      characters, so at most one of them matches. */
  function MatchSegment(rest: string): (m: Option<(Segment, nat)>)
    ensures m.Some? ==> 0 < m.value.1 <= |rest|
    ensures m.Some? && m.value.0.Prop? ==>
      && rest[0] == '.' && m.value.0.name != []
      && rest[1..m.value.1] == m.value.0.name
      && (forall i :: 0 <= i < |m.value.0.name| ==> IsWordChar(m.value.0.name[i]))
    ensures m.Some? && m.value.0.Index? ==>
      && rest[0] == '[' && rest[m.value.1 - 1] == ']' && m.value.0.digits != []
      && rest[1..m.value.1 - 1] == m.value.0.digits && AllDigits(m.value.0.digits)
    // `\w+` takes every word character that follows the dot
    ensures m.Some? && m.value.0.Prop? ==> m.value.1 == |rest| || !IsWordChar(rest[m.value.1])
    // a match exists exactly when one of the two forms starts the chain
    ensures rest != [] && rest[0] == '.' ==> (m.Some? <==> |rest| > 1 && IsWordChar(rest[1]))
    ensures rest != [] && rest[0] == '[' ==>
      (m.Some? <==> exists k :: 1 < k < |rest| && rest[k] == ']' && AllDigits(rest[1..k]))
    ensures rest == [] || (rest[0] != '.' && rest[0] != '[') ==> m.None?
  {
    if rest == [] then None
    else if rest[0] == '.' then
      var n := WordRun(rest[1..]);
      if n == 0 then None else Some((Prop(rest[1..1 + n]), 1 + n))
    else if rest[0] == '[' then
      var n := DigitRun(rest[1..]);
      DigitRunClosing(rest, n);
      if n == 0 || n + 1 == |rest| || rest[n + 1] != ']' then None
      else Some((Index(rest[1..1 + n]), n + 2))
    else None
  }

  /** The digits after `[` are closed by `]` exactly when the greedy run
      is non-empty and the character after it is `]`. */
  lemma DigitRunClosing(rest: string, n: nat)
    requires rest != [] && n == DigitRun(rest[1..])
    ensures (exists k :: 1 < k < |rest| && rest[k] == ']' && AllDigits(rest[1..k]))
      <==> 0 < n && n + 1 < |rest| && rest[n + 1] == ']'
  {
    if exists k :: 1 < k < |rest| && rest[k] == ']' && AllDigits(rest[1..k]) {
      var k :| 1 < k < |rest| && rest[k] == ']' && AllDigits(rest[1..k]);
      assert !IsDigit(rest[1..][k - 1]);
      assert forall i :: 0 <= i < k - 1 ==> rest[1..][i] == rest[1..k][i];
    }
    if 0 < n && n + 1 < |rest| && rest[n + 1] == ']' {
      var run := rest[1..n + 1];
      assert forall i :: 0 <= i < n ==> run[i] == rest[1..][i];
      assert AllDigits(run);
    }
  }

  /** The property key a segment reads: the name itself, or
      `String(Number(digits))`, so `[007]` reads key `"7"`. */
  function SegmentKey(seg: Segment): string {
    match seg
    case Prop(name) => name
    case Index(digits) => if AllDigits(digits) then Decimal(DigitsValue(digits)) else digits
  }

  /** The loop of `query` from the state `{obj, chain: rest}`, reporting
      the whole original `chain` when a segment does not match. */
  function QueryFrom(obj: Json, rest: string, chain: string): Result<Json>
    decreases |rest|
  {
    if rest == [] then Ok(obj)
    else match MatchSegment(rest)
      case None => Err(InvalidChain(chain))
      case Some((seg, len)) =>
        var next :- Get(obj, SegmentKey(seg));
        QueryFrom(next, rest[len..], chain)
  }

  /** What `query(doc, chain)` returns or throws. */
  function Queried(doc: Json, chain: string): Result<Json> {
    QueryFrom(doc, chain, chain)
  }

  /** `query`: the mutable record `sub` becomes the two locals `obj` and
      `rest`; each round removes the non-empty prefix that matched. */
  method Query(doc: Json, chain: string) returns (r: Result<Json>)
    ensures r == Queried(doc, chain)
  {
    var obj, rest := doc, chain;
    while rest != []
      invariant QueryFrom(obj, rest, chain) == Queried(doc, chain)
      decreases |rest|
    {
      var m := MatchSegment(rest);
      if m.None? {
        return Err(InvalidChain(chain));
      }
      var (seg, len) := m.value;
      var next := Get(obj, SegmentKey(seg));
      if next.Err? {
        return Err(next.error);
      }
      obj := next.value;
      rest := rest[len..];
    }
    return Ok(obj);
  }

  // ------------------------------------------------- reference semantics

  /** A well-formed chain, step by step. */
  datatype Step = Name(w: string) | At(digits: string)

  predicate ValidStep(s: Step) {
    match s
    case Name(w) => w != [] && forall i :: 0 <= i < |w| ==> IsWordChar(w[i])
    case At(d) => d != [] && AllDigits(d)
  }

  function RenderStep(s: Step): string {
    match s
    case Name(w) => "." + w
    case At(d) => "[" + d + "]"
  }

  /** The chain text of a sequence of steps. */
  function Render(steps: seq<Step>): string {
    if steps == [] then "" else RenderStep(steps[0]) + Render(steps[1..])
  }

  function StepKey(s: Step): string {
    match s
    case Name(w) => w
    case At(digits) => SegmentKey(Index(digits))
  }

  /** Following the steps one property read at a time. */
  function Follow(d: Json, steps: seq<Step>): Result<Json>
    decreases |steps|
  {
    if steps == [] then Ok(d)
    else
      var next :- Get(d, StepKey(steps[0]));
      Follow(next, steps[1..])
  }

  /** The regular expression reads a rendered step back whole, whatever
      follows it, as long as that does not extend the step's run. */
  lemma MatchRenderedStep(s: Step, tail: string)
    requires ValidStep(s)
    requires s.At? || tail == [] || !IsWordChar(tail[0])
    ensures MatchSegment(RenderStep(s) + tail) ==
      Some((if s.Name? then Prop(s.w) else Index(s.digits), |RenderStep(s)|))
  {
    match s
    case Name(w) => MatchRenderedName(w, tail);
    case At(d) => MatchRenderedIndex(d, tail);
  }

  lemma MatchRenderedName(w: string, tail: string)
    requires ValidStep(Name(w))
    requires tail == [] || !IsWordChar(tail[0])
    ensures MatchSegment("." + w + tail) == Some((Prop(w), 1 + |w|))
  {
    var t := "." + w + tail;
    assert t[0] == '.';
    assert t[1..] == w + tail;
    WordRunPrefix(w, tail);
    assert t[1..1 + |w|] == w;
  }

  lemma MatchRenderedIndex(d: string, tail: string)
    requires ValidStep(At(d))
    ensures MatchSegment("[" + d + "]" + tail) == Some((Index(d), |d| + 2))
  {
    var t := "[" + d + "]" + tail;
    assert t[0] == '[';
    assert t[1..] == d + ("]" + tail);
    DigitRunPrefix(d, "]" + tail);
    assert t[1..1 + |d|] == d;
    assert t[|d| + 1] == ']';
  }

  lemma {:induction false} WordRunPrefix(w: string, tail: string)
    requires forall i :: 0 <= i < |w| ==> IsWordChar(w[i])
    requires tail == [] || !IsWordChar(tail[0])
    ensures WordRun(w + tail) == |w|
  {
    if w != [] {
      assert (w + tail)[1..] == w[1..] + tail;
      WordRunPrefix(w[1..], tail);
    }
  }

  lemma {:induction false} DigitRunPrefix(d: string, tail: string)
    requires AllDigits(d)
    requires tail == [] || !IsDigit(tail[0])
    ensures DigitRun(d + tail) == |d|
  {
    if d != [] {
      assert (d + tail)[1..] == d[1..] + tail;
      DigitRunPrefix(d[1..], tail);
    }
  }

  /** The text after a rendered chain does not run into its last step: a
      name is not followed by a word character. */
  predicate Delimited(steps: seq<Step>, tail: string) {
    steps == [] || steps[|steps| - 1].At? || tail == [] || !IsWordChar(tail[0])
  }

  /** Querying a rendered chain followed by more text is following the
      steps and then querying the rest; an error still names the whole
      chain. */
  lemma {:induction false} QueryRenderedThen(d: Json, steps: seq<Step>, tail: string, chain: string)
    requires forall i :: 0 <= i < |steps| ==> ValidStep(steps[i])
    requires Delimited(steps, tail)
    ensures Follow(d, steps).Ok? ==>
      QueryFrom(d, Render(steps) + tail, chain) == QueryFrom(Follow(d, steps).value, tail, chain)
    ensures Follow(d, steps).Err? ==>
      QueryFrom(d, Render(steps) + tail, chain) == Err(Follow(d, steps).error)
    decreases |steps|
  {
    if steps != [] {
      var more := steps[1..];
      assert forall i :: 0 <= i < |more| ==> ValidStep(more[i]) by {
        forall i | 0 <= i < |more| ensures ValidStep(more[i]) {
          assert more[i] == steps[i + 1];
        }
      }
      var rest := Render(more) + tail;
      RenderUnfold(steps, tail);
      if more != [] {
        RenderedTailStartsClean(more, tail);
        assert Delimited(more, tail) by {
          assert more[|more| - 1] == steps[|steps| - 1];
        }
      } else {
        assert rest == tail;
      }
      QueryOneStep(d, steps[0], rest, chain);
      var g := Get(d, StepKey(steps[0]));
      if g.Ok? {
        QueryRenderedThen(g.value, more, tail, chain);
      }
    } else {
      assert Render(steps) + tail == tail;
    }
  }

  lemma RenderUnfold(steps: seq<Step>, tail: string)
    requires steps != []
    ensures Render(steps) + tail == RenderStep(steps[0]) + (Render(steps[1..]) + tail)
  {
  }

  /** One round of the loop on a rendered step reads that step's key. */
  lemma QueryOneStep(d: Json, s: Step, rest: string, chain: string)
    requires ValidStep(s)
    requires s.At? || rest == [] || !IsWordChar(rest[0])
    ensures Get(d, StepKey(s)).Ok? ==>
      QueryFrom(d, RenderStep(s) + rest, chain) == QueryFrom(Get(d, StepKey(s)).value, rest, chain)
    ensures Get(d, StepKey(s)).Err? ==>
      QueryFrom(d, RenderStep(s) + rest, chain) == Err(Get(d, StepKey(s)).error)
  {
    var head := RenderStep(s);
    MatchRenderedStep(s, rest);
    assert (head + rest)[|head|..] == rest;
    var seg := if s.Name? then Prop(s.w) else Index(s.digits);
    assert SegmentKey(seg) == StepKey(s);
  }

  lemma RenderedTailStartsClean(steps: seq<Step>, tail: string)
    requires steps != []
    ensures Render(steps) + tail != [] && !IsWordChar((Render(steps) + tail)[0])
  {
    assert (Render(steps) + tail)[0] == RenderStep(steps[0])[0];
  }

  /** Query round trip: a chain written from well-formed steps selects
      exactly what following those steps reaches. */
  lemma QueryFollowsSteps(d: Json, steps: seq<Step>)
    requires forall i :: 0 <= i < |steps| ==> ValidStep(steps[i])
    ensures Queried(d, Render(steps)) == Follow(d, steps)
  {
    QueryRenderedThen(d, steps, "", Render(steps));
    assert Render(steps) + "" == Render(steps);
  }

  /** A well-formed prefix that reaches a value, followed by text that
      matches neither form, throws `Invalid chain` with the full chain:
      `.foo]`, `[0]foo` and a chain that starts with a bare name all do. */
  lemma QueryRejectsBadSegment(d: Json, steps: seq<Step>, bad: string)
    requires forall i :: 0 <= i < |steps| ==> ValidStep(steps[i])
    requires Follow(d, steps).Ok?
    requires bad != [] && Delimited(steps, bad)
    requires MatchSegment(bad).None?
    ensures Queried(d, Render(steps) + bad) == Err(InvalidChain(Render(steps) + bad))
  {
    QueryRenderedThen(d, steps, bad, Render(steps) + bad);
  }

  /** The only `Invalid chain` error `query` raises carries the chain it
      was called with, never the remainder. */
  lemma {:induction false} InvalidChainNamesWholeChain(obj: Json, rest: string, chain: string, c: string)
    requires QueryFrom(obj, rest, chain) == Err(InvalidChain(c))
    ensures c == chain
    decreases |rest|
  {
    if rest != [] {
      match MatchSegment(rest)
      case None =>
      case Some((seg, len)) =>
        match Get(obj, SegmentKey(seg))
        case Err(e) =>
        case Ok(next) => InvalidChainNamesWholeChain(next, rest[len..], chain, c);
    }
  }

  /** An index of any number of digits reads that element of an array. */
  lemma QueryIndex(elems: seq<Json>, n: nat)
    requires n < |elems|
    ensures Queried(Arr(elems), "[" + Decimal(n) + "]") == Ok(elems[n])
  {
    var step := At(Decimal(n));
    DecimalDigits(n);
    assert StepKey(step) == Decimal(n);
    QueryFollowsSteps(Arr(elems), [step]);
    assert Render([step]) == "[" + Decimal(n) + "]" by {
      assert Render([step]) == RenderStep(step) + Render([]);
    }
    GetIndex(elems, n);
    assert Follow(Arr(elems), [step]) == Follow(elems[n], []);
  }

  // ------------------------------------------------------------ examples

  /** `query(["a", …, "m"], "[11]")` reads the twelfth element: the index
      is one two-digit number. */
  lemma TwoDigitIndex()
    ensures Queried(Arr([Str("a"), Str("b"), Str("c"), Str("d"), Str("e"), Str("f"), Str("g"),
                         Str("h"), Str("i"), Str("j"), Str("k"), Str("l"), Str("m")]), "[11]")
      == Ok(Str("l"))
  {
    var letters := [Str("a"), Str("b"), Str("c"), Str("d"), Str("e"), Str("f"), Str("g"),
                    Str("h"), Str("i"), Str("j"), Str("k"), Str("l"), Str("m")];
    assert Decimal(11) == "11";
    assert "[" + Decimal(11) + "]" == "[11]";
    QueryIndex(letters, 11);
  }

  /** `query({foo: "bar"}, ".?foo")` throws `Invalid chain: .?foo`. */
  lemma RejectsUnsupportedChain()
    ensures Queried(Obj([("foo", Str("bar"))]), ".?foo") == Err(InvalidChain(".?foo"))
  {
    assert MatchSegment(".?foo").None? by {
      assert WordRun("?foo") == 0;
    }
  }

  /** A chain without a leading `.` or `[` matches neither form, so
      `query({foo: "bar"}, "foo")` throws rather than reading `foo`. */
  lemma BareNameIsInvalid(d: Json, chain: string)
    requires chain != [] && chain[0] != '.' && chain[0] != '['
    ensures Queried(d, chain) == Err(InvalidChain(chain))
  {
  }

  const nestedDoc: Json := Obj([("foo", Obj([("bar", Str("baz"))]))])

  lemma FollowMissing()
    ensures Follow(nestedDoc, [Name("qux"), Name("quux")]) == Err(PropertyOfNothing("quux"))
  {
    assert nestedDoc.fields[0].0 == "foo" != "qux";
    assert Get(nestedDoc, "qux") == Ok(Undefined);
    assert [Name("qux"), Name("quux")][1..] == [Name("quux")];
    assert Follow(Undefined, [Name("quux")]) == Err(PropertyOfNothing("quux"));
  }

  /** `query({foo: {bar: "baz"}}, ".qux.quux")`: `qux` reads undefined,
      and reading `quux` of undefined throws. */
  lemma PropertyOfMissingMember()
    ensures Queried(nestedDoc, ".qux.quux") == Err(PropertyOfNothing("quux"))
  {
    var steps := [Name("qux"), Name("quux")];
    assert Render(steps) == ".qux.quux";
    QueryFollowsSteps(nestedDoc, steps);
    FollowMissing();
  }

  const fooDoc: Json := Obj([("foo", Arr([Str("bar"), Str("baz")]))])

  lemma FollowFooOne()
    ensures Follow(fooDoc, [Name("foo"), At("1")]) == Ok(Str("baz"))
  {
    var foo := Arr([Str("bar"), Str("baz")]);
    assert fooDoc.fields[0].0 == "foo";
    assert Get(fooDoc, "foo") == Ok(foo);
    assert [Name("foo"), At("1")][1..] == [At("1")];
    assert StepKey(At("1")) == "1" by {
      assert DigitsValue("1") == 1;
      assert Decimal(1) == "1";
    }
    GetIndex(foo.elems, 1);
    assert Follow(foo, [At("1")]) == Ok(Str("baz"));
  }

  /** `query({foo: ["bar", "baz"]}, ".foo[1]")` is `"baz"`. */
  lemma NameThenIndex()
    ensures Queried(fooDoc, ".foo[1]") == Ok(Str("baz"))
  {
    var steps := [Name("foo"), At("1")];
    assert Render(steps) == ".foo[1]";
    QueryFollowsSteps(fooDoc, steps);
    FollowFooOne();
  }
}
