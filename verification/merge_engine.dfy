/** `merge(parent, child)` of `src/jfather.js`: a recursive deep merge
    in which the child wins, keys starting with `$` are dropped, and
    child keys `$name[]` and `$name[index]` patch the array merged under
    `name`. */
module MergeEngine {
  import opened Documents
  import opened Walker
  import opened KeyOrder

  /** What an element override key asks for. */
  datatype Directive = Append | At(index: nat)

  /** The override key `$key[digits]`. */
  function OverrideKey(key: string, digits: string): string {
    "$" + key + "[" + digits + "]"
  }

  /** What the override key `$key[digits]` asks for. */
  function DirectiveOf(digits: string): Directive
    requires AllDigits(digits)
  {
    if digits == [] then Append else At(DigitsValue(digits))
  }

  /** `overelemRegex.exec(k)?.groups?.index` with the pattern
      `^\$<key>\[(\d*)\]$`: `$key[]` appends, `$key[digits]` patches the
      element `Number(digits)`. `DirectiveForShape` states which keys are
      overrides. */
  function DirectiveFor(key: string, k: string): (d: Option<Directive>)
    ensures d.Some? ==> StartsWithDollar(k)
  {
    if |k| >= |key| + 3 && k[0] == '$' && k[1..|key| + 1] == key && k[|key| + 1] == '['
       && k[|k| - 1] == ']' && AllDigits(k[|key| + 2..|k| - 1])
    then
      var digits := k[|key| + 2..|k| - 1];
      Some(DirectiveOf(digits))
    else None
  }

  /** The override keys of `key` are exactly the keys `$key[digits]`, and
      each asks for what its digits say. */
  lemma DirectiveForShape(key: string, k: string)
    ensures DirectiveFor(key, k).Some? <==>
      exists digits :: AllDigits(digits) && k == OverrideKey(key, digits)
    ensures forall digits :: AllDigits(digits) && k == OverrideKey(key, digits) ==>
      DirectiveFor(key, k) == Some(DirectiveOf(digits))
  {
    if DirectiveFor(key, k).Some? {
      var digits := k[|key| + 2..|k| - 1];
      assert k == OverrideKey(key, digits);
    }
    forall digits | AllDigits(digits) && k == OverrideKey(key, digits)
      ensures DirectiveFor(key, k) == Some(DirectiveOf(digits))
    {
      OverrideKeyParses(key, digits);
    }
  }

  /** Every key of the form `$key[digits]` is read back as its directive. */
  lemma OverrideKeyParses(key: string, digits: string)
    requires AllDigits(digits)
    ensures DirectiveFor(key, OverrideKey(key, digits)) == Some(DirectiveOf(digits))
  {
    var k := OverrideKey(key, digits);
    assert k[1..|key| + 1] == key && k[|key| + 1] == '[' && k[|k| - 1] == ']';
    assert k[|key| + 2..|k| - 1] == digits;
  }

  /** The elements `push(...v)` adds: those of an array, the characters of
      a string; spreading anything else throws. */
  function Spread(v: Json): (r: Result<seq<Json>>)
    ensures r.Err? <==> !v.Arr? && !v.Str?
    ensures v.Arr? ==> r == Ok(v.elems)
    ensures v.Str? ==>
      && r.Ok? && |r.value| == |v.s|
      && forall i :: 0 <= i < |v.s| ==> r.value[i] == Str([v.s[i]])
  {
    match v
    case Arr(elems) => Ok(elems)
    case Str(s) => Ok(seq(|s|, i requires 0 <= i < |s| => Str([s[i]])))
    case _ => Err(NotIterable)
  }

  /** `array[n]`, holes and the past-the-end reading as undefined. */
  function ElemAt(elems: seq<Json>, n: nat): Json {
    if n < |elems| then elems[n] else Undefined
  }

  /** `array[n] = v`: an assignment past the end grows the array, the
      gap reading as undefined. */
  function Store(elems: seq<Json>, n: nat, v: Json): (r: seq<Json>)
    ensures |r| == if n < |elems| then |elems| else n + 1
    ensures r[n] == v
    ensures forall i :: 0 <= i < |r| && i != n ==> r[i] == ElemAt(elems, i)
  {
    if n < |elems| then elems[n := v]
    else elems + seq(n - |elems|, _ => Undefined) + [v]
  }

  /** The key set `merge` iterates: parent keys, then new child keys. */
  function UnionKeys(parent: Json, child: Json): seq<string>
    requires parent.Obj? && child.Obj?
  {
    Dedup(Keys(parent.fields) + Keys(child.fields))
  }

  /** What `merge(parent, child)` returns or throws. */
  function Merged(parent: Json, child: Json): Result<Json>
    decreases child, 3
  {
    if !IsPlainObject(parent) || !IsPlainObject(child) then Ok(Clone(child))
    else
      var keys := UnionKeys(parent, child);
      var fields :- MergeKeys(parent, child, keys, |keys|);
      Ok(Obj(fields))
  }

  /** The members `overridden` holds after the first `n` rounds of the
      loop over `keys`; the first round that throws decides the error. */
  function MergeKeys(parent: Json, child: Json, keys: seq<string>, n: nat): Result<seq<Field>>
    requires IsPlainObject(parent) && IsPlainObject(child) && n <= |keys|
    decreases child, 2, n
  {
    if n == 0 then Ok([])
    else
      var done :- MergeKeys(parent, child, keys, n - 1);
      var key := keys[n - 1];
      if StartsWithDollar(key) then Ok(done)
      else
        var v :- MergedValue(parent, child, key);
        Ok(done + [(key, v)])
  }

  /** The value one round of the loop stores under `key`, before it is
      patched by the child's override keys. */
  function BaseValue(parent: Json, child: Json, key: string): Result<Json>
    requires IsPlainObject(parent) && IsPlainObject(child)
    decreases child, 1, 0
  {
    if HasKey(parent.fields, key) && HasKey(child.fields, key) then
      Merged(Member(parent.fields, key), child.fields[IndexOf(child.fields, key)].1)
    else if HasKey(parent.fields, key) then
      Ok(Clone(Member(parent.fields, key)))
    else
      Ok(Clone(Lookup(child.fields, key)))
  }

  /** The value one round of the loop leaves under `key`. */
  function MergedValue(parent: Json, child: Json, key: string): Result<Json>
    requires IsPlainObject(parent) && IsPlainObject(child)
    decreases child, 1, 1
  {
    var base :- BaseValue(parent, child, key);
    if base.Arr? then
      var elems :- ApplyDirectives(base.elems, key, child, |child.fields|);
      Ok(Arr(elems))
    else
      Ok(base)
  }

  /** The array under `key` after the override keys among the child's
      first `n` members have been applied, in the child's key order. */
  function ApplyDirectives(elems: seq<Json>, key: string, child: Json, n: nat): Result<seq<Json>>
    requires child.Obj? && n <= |child.fields|
    decreases child, 0, n
  {
    if n == 0 then Ok(elems)
    else
      var cur :- ApplyDirectives(elems, key, child, n - 1);
      var v := child.fields[n - 1].1;
      match DirectiveFor(key, child.fields[n - 1].0)
      case None => Ok(cur)
      case Some(Append) =>
        var extra :- Spread(Clone(v));
        Ok(cur + extra)
      case Some(At(i)) =>
        var m :- Merged(ElemAt(cur, i), v);
        Ok(Store(cur, i, m))
  }

  // ------------------------------------------------------------ the loops

  /** `merge`: fills `overridden` one key at a time. */
  method Merge(parent: Json, child: Json) returns (r: Result<Json>)
    ensures r == Merged(parent, child)
    decreases child, 3
  {
    if !IsPlainObject(parent) || !IsPlainObject(child) {
      return Ok(Clone(child));
    }
    var keys := UnionKeys(parent, child);
    var overridden: seq<Field> := [];
    for n := 0 to |keys|
      invariant MergeKeys(parent, child, keys, n) == Ok(overridden)
    {
      var key := keys[n];
      if StartsWithDollar(key) {
        continue;
      }
      var value := MergeMember(parent, child, key);
      if value.Err? {
        MergeKeysFailure(parent, child, keys, n + 1, value.error);
        return Err(value.error);
      }
      overridden := overridden + [(key, value.value)];
    }
    return Ok(Obj(overridden));
  }

  /** One round of the loop of `merge`: the value for `key`, then, when it
      is an array, the child's override keys applied to it. */
  method MergeMember(parent: Json, child: Json, key: string) returns (r: Result<Json>)
    requires IsPlainObject(parent) && IsPlainObject(child)
    ensures r == MergedValue(parent, child, key)
    decreases child, 2
  {
    var value: Json;
    if HasKey(parent.fields, key) && HasKey(child.fields, key) {
      var m := Merge(Member(parent.fields, key), child.fields[IndexOf(child.fields, key)].1);
      if m.Err? {
        return Err(m.error);
      }
      value := m.value;
    } else if HasKey(parent.fields, key) {
      value := Clone(Member(parent.fields, key));
    } else {
      value := Clone(Lookup(child.fields, key));
    }
    if value.Arr? {
      var elems := PatchArray(value.elems, key, child);
      if elems.Err? {
        return Err(elems.error);
      }
      value := Arr(elems.value);
    }
    return Ok(value);
  }

  /** The loop over `overelems`: appends with `push` and patches with an
      indexed assignment, in the child's key order. */
  method PatchArray(elems: seq<Json>, key: string, child: Json) returns (r: Result<seq<Json>>)
    requires child.Obj?
    ensures r == ApplyDirectives(elems, key, child, |child.fields|)
    decreases child, 1
  {
    var arr := elems;
    for i := 0 to |child.fields|
      invariant ApplyDirectives(elems, key, child, i) == Ok(arr)
    {
      var v := child.fields[i].1;
      match DirectiveFor(key, child.fields[i].0) {
        case None =>
        case Some(Append) =>
          var extra := Spread(Clone(v));
          if extra.Err? {
            DirectivesFailure(elems, key, child, i + 1, extra.error);
            return Err(extra.error);
          }
          arr := arr + extra.value;
        case Some(At(index)) =>
          var m := Merge(ElemAt(arr, index), v);
          if m.Err? {
            DirectivesFailure(elems, key, child, i + 1, m.error);
            return Err(m.error);
          }
          arr := Store(arr, index, m.value);
      }
    }
    return Ok(arr);
  }

  /** A round that throws ends the loop over the keys with its error. */
  lemma {:induction false} MergeKeysFailure(parent: Json, child: Json, keys: seq<string>, n: nat, e: Error)
    requires IsPlainObject(parent) && IsPlainObject(child) && n <= |keys|
    requires MergeKeys(parent, child, keys, n) == Err(e)
    ensures MergeKeys(parent, child, keys, |keys|) == Err(e)
    decreases |keys| - n
  {
    if n < |keys| {
      MergeKeysFailure(parent, child, keys, n + 1, e);
    }
  }

  /** An override that throws ends the loop over the child's members with
      its error. */
  lemma {:induction false} DirectivesFailure(elems: seq<Json>, key: string, child: Json, n: nat, e: Error)
    requires child.Obj? && n <= |child.fields|
    requires ApplyDirectives(elems, key, child, n) == Err(e)
    ensures ApplyDirectives(elems, key, child, |child.fields|) == Err(e)
    decreases |child.fields| - n
  {
    if n < |child.fields| {
      DirectivesFailure(elems, key, child, n + 1, e);
    }
  }
}
