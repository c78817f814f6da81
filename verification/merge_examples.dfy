/** `merge` on the shapes of documents its unit tests exercise: first for
    any keys and values of that shape, then on the tests' own documents. */
module MergeExamples {
  import opened Documents
  import opened Walker
  import opened KeyOrder
  import opened MergeEngine
  import opened MergeProperties

  /** A key `merge` copies: not a `$` key, and not `constructor`, which
      would stop its object from being plain. */
  predicate Ordinary(k: string) {
    !StartsWithDollar(k) && k != "constructor"
  }

  /** A value `merge` takes whole: neither a plain object nor an array. */
  predicate Scalar(v: Json) {
    !IsPlainObject(v) && !v.Arr?
  }

  /** The override key `$k[]`. */
  function AppendKey(k: string): string {
    OverrideKey(k, "")
  }

  /** The override key `$k[i]`. */
  function PatchKey(k: string, i: nat): string {
    OverrideKey(k, Decimal(i))
  }

  /** The strings `push(...s)` adds for a string `s`. */
  function Characters(s: string): seq<Json> {
    seq(|s|, i requires 0 <= i < |s| => Str([s[i]]))
  }

  /** Both override keys of `k` are recognised as such, and differ. */
  lemma OverrideKeysParse(k: string, i: nat)
    ensures DirectiveFor(k, AppendKey(k)) == Some(Append)
    ensures DirectiveFor(k, PatchKey(k, i)) == Some(At(i))
    ensures AppendKey(k) != PatchKey(k, i)
  {
    DecimalDigits(i);
    OverrideKeyParses(k, "");
    OverrideKeyParses(k, Decimal(i));
    assert |AppendKey(k)| < |PatchKey(k, i)|;
  }

  /** One more key for `new Set`: kept only when it is new. */
  lemma DedupSnoc(s: seq<string>, x: string)
    ensures Dedup(s + [x]) == if x in Dedup(s) then Dedup(s) else Dedup(s) + [x]
  {
    assert (s + [x])[..|s|] == s;
  }

  // ----------------------------------------------- two flat objects

  lemma DedupSharedFirst(a: string, b: string, c: string)
    requires a != b && a != c && b != c
    ensures Dedup([a, b] + [a, c]) == [a, b, c]
  {
    var k1 := [a];
    var k2 := k1 + [b];
    var k3 := k2 + [a];
    var k4 := k3 + [c];
    assert [a, b] + [a, c] == k4;
    DedupSnoc([], a);
    assert [] + [a] == k1;
    DedupSnoc(k1, b);
    DedupSnoc(k2, a);
    DedupSnoc(k3, c);
  }

  lemma SharedAndNewKeys(a: string, b: string, c: string, pa: Json, pb: Json, ca: Json, cc: Json)
    requires Ordinary(a) && Ordinary(b) && Ordinary(c)
    requires a != b && a != c && b != c
    ensures IsPlainObject(Obj([(a, pa), (b, pb)])) && IsPlainObject(Obj([(a, ca), (c, cc)]))
    ensures UnionKeys(Obj([(a, pa), (b, pb)]), Obj([(a, ca), (c, cc)])) == [a, b, c]
  {
    var p, ch := Obj([(a, pa), (b, pb)]), Obj([(a, ca), (c, cc)]);
    assert p.fields[0].0 == a && p.fields[1].0 == b;
    assert ch.fields[0].0 == a && ch.fields[1].0 == c;
    assert Keys(p.fields) == [a, b] && Keys(ch.fields) == [a, c];
    DedupSharedFirst(a, b, c);
  }

  lemma SharedAndNewValues(a: string, b: string, c: string, pa: Json, pb: Json, ca: Json, cc: Json)
    requires Ordinary(a) && Ordinary(b) && Ordinary(c)
    requires a != b && a != c && b != c
    requires Scalar(pb) && Scalar(ca) && Scalar(cc)
    requires IsPlainObject(Obj([(a, pa), (b, pb)])) && IsPlainObject(Obj([(a, ca), (c, cc)]))
    ensures MergedValue(Obj([(a, pa), (b, pb)]), Obj([(a, ca), (c, cc)]), a) == Ok(ca)
    ensures MergedValue(Obj([(a, pa), (b, pb)]), Obj([(a, ca), (c, cc)]), b) == Ok(pb)
    ensures MergedValue(Obj([(a, pa), (b, pb)]), Obj([(a, ca), (c, cc)]), c) == Ok(cc)
  {
    var p, ch := Obj([(a, pa), (b, pb)]), Obj([(a, ca), (c, cc)]);
    assert p.fields[0].0 == a && p.fields[1].0 == b;
    assert ch.fields[0].0 == a && ch.fields[1].0 == c;
    assert BaseValue(p, ch, a) == Ok(ca) by {
      assert IndexOf(p.fields, a) == 0 && IndexOf(ch.fields, a) == 0;
      MergeNonObject(pa, ca);
    }
    assert BaseValue(p, ch, b) == Ok(pb) by {
      assert !HasKey(ch.fields, b);
      assert IndexOf(p.fields, b) == 1;
      CloneIsIdentity(pb);
    }
    assert BaseValue(p, ch, c) == Ok(cc) by {
      assert !HasKey(p.fields, c);
      assert IndexOf(ch.fields, c) == 1;
      CloneIsIdentity(cc);
    }
  }

  /** `merge({a: pa, b: pb}, {a: ca, c: cc})` with values taken whole:
      the child's value wins under the shared key, `b` comes from the
      parent and `c` from the child, in the order parent keys first. */
  lemma MergeSharedAndNew(a: string, b: string, c: string, pa: Json, pb: Json, ca: Json, cc: Json)
    requires Ordinary(a) && Ordinary(b) && Ordinary(c)
    requires a != b && a != c && b != c
    requires Scalar(pb) && Scalar(ca) && Scalar(cc)
    ensures Merged(Obj([(a, pa), (b, pb)]), Obj([(a, ca), (c, cc)]))
      == Ok(Obj([(a, ca), (b, pb), (c, cc)]))
  {
    var p, ch := Obj([(a, pa), (b, pb)]), Obj([(a, ca), (c, cc)]);
    SharedAndNewKeys(a, b, c, pa, pb, ca, cc);
    SharedAndNewValues(a, b, c, pa, pb, ca, cc);
    var keys := UnionKeys(p, ch);
    var f0, f1, f2 := (a, ca), (b, pb), (c, cc);
    assert MergeKeys(p, ch, keys, 1) == Ok([f0]) by {
      assert [] + [f0] == [f0];
    }
    assert MergeKeys(p, ch, keys, 2) == Ok([f0, f1]) by {
      assert [f0] + [f1] == [f0, f1];
    }
    assert MergeKeys(p, ch, keys, 3) == Ok([f0, f1, f2]) by {
      assert [f0, f1] + [f2] == [f0, f1, f2];
    }
  }

  /** `merge({foo: "bar", baz: "qux"}, {foo: "quux", corge: "grault"})`
      is `{foo: "quux", baz: "qux", corge: "grault"}`. */
  lemma MergeTwoObjects()
    ensures Merged(Obj([("foo", Str("bar")), ("baz", Str("qux"))]),
                   Obj([("foo", Str("quux")), ("corge", Str("grault"))]))
      == Ok(Obj([("foo", Str("quux")), ("baz", Str("qux")), ("corge", Str("grault"))]))
  {
    assert "foo"[0] == 'f' && "baz"[0] == 'b' && "corge"[1] == 'o' && "constructor"[1] == 'o';
    assert "corge" != "constructor" by {
      assert |"corge"| != |"constructor"|;
    }
    MergeSharedAndNew("foo", "baz", "corge", Str("bar"), Str("qux"), Str("quux"), Str("grault"));
  }

  // ------------------------------------- a member patched by overrides

  lemma OneKeyTwoOverrides(k: string, v: Json, k1: string, w1: Json, k2: string, w2: Json)
    requires Ordinary(k) && StartsWithDollar(k1) && StartsWithDollar(k2) && k1 != k2
    ensures IsPlainObject(Obj([(k, v)])) && IsPlainObject(Obj([(k1, w1), (k2, w2)]))
    ensures UnionKeys(Obj([(k, v)]), Obj([(k1, w1), (k2, w2)])) == [k, k1, k2]
    ensures !HasKey(Obj([(k1, w1), (k2, w2)]).fields, k)
  {
    var p, ch := Obj([(k, v)]), Obj([(k1, w1), (k2, w2)]);
    assert p.fields[0].0 == k;
    assert ch.fields[0].0 == k1 && ch.fields[1].0 == k2;
    assert k1 != k && k2 != k && k1 != "constructor" && k2 != "constructor";
    assert Keys(p.fields) + Keys(ch.fields) == [k, k1, k2];
    assert Distinct([k, k1, k2]);
    DedupDistinct([k, k1, k2]);
  }

  lemma PatchThenAppendValue(k: string, x0: Json, x1: Json, y: Json, zs: seq<Json>)
    requires Ordinary(k) && Scalar(y)
    requires IsPlainObject(Obj([(k, Arr([x0, x1]))]))
    requires IsPlainObject(Obj([(PatchKey(k, 0), y), (AppendKey(k), Arr(zs))]))
    requires !HasKey(Obj([(PatchKey(k, 0), y), (AppendKey(k), Arr(zs))]).fields, k)
    ensures MergedValue(Obj([(k, Arr([x0, x1]))]), Obj([(PatchKey(k, 0), y), (AppendKey(k), Arr(zs))]), k)
      == Ok(Arr([y, x1] + zs))
  {
    var p, ch := Obj([(k, Arr([x0, x1]))]), Obj([(PatchKey(k, 0), y), (AppendKey(k), Arr(zs))]);
    var base := [x0, x1];
    assert BaseValue(p, ch, k) == Ok(Arr(base)) by {
      assert p.fields[0].0 == k;
      assert IndexOf(p.fields, k) == 0;
      CloneIsIdentity(Arr(base));
    }
    OverrideKeysParse(k, 0);
    assert ch.fields[0] == (PatchKey(k, 0), y) && ch.fields[1] == (AppendKey(k), Arr(zs));
    MergeNonObject(x0, y);
    assert ApplyDirectives(base, k, ch, 1) == Ok([y, x1]) by {
      assert ApplyDirectives(base, k, ch, 0) == Ok(base);
      assert ElemAt(base, 0) == x0;
      assert Store(base, 0, y) == [y, x1];
    }
    CloneIsIdentity(Arr(zs));
    assert ApplyDirectives(base, k, ch, 2) == Ok([y, x1] + zs);
  }

  /** `merge({k: [x0, x1]}, {"$k[0]": y, "$k[]": zs})` for a `y` taken
      whole: element 0 becomes `y`, `x1` stays, the elements of `zs` are
      appended, and neither override key is copied. */
  lemma PatchThenAppend(k: string, x0: Json, x1: Json, y: Json, zs: seq<Json>)
    requires Ordinary(k) && Scalar(y)
    ensures Merged(Obj([(k, Arr([x0, x1]))]), Obj([(PatchKey(k, 0), y), (AppendKey(k), Arr(zs))]))
      == Ok(Obj([(k, Arr([y, x1] + zs))]))
  {
    var p, ch := Obj([(k, Arr([x0, x1]))]), Obj([(PatchKey(k, 0), y), (AppendKey(k), Arr(zs))]);
    OverrideKeysParse(k, 0);
    OneKeyTwoOverrides(k, Arr([x0, x1]), PatchKey(k, 0), y, AppendKey(k), Arr(zs));
    PatchThenAppendValue(k, x0, x1, y, zs);
    var keys := UnionKeys(p, ch);
    var f0 := (k, Arr([y, x1] + zs));
    assert MergeKeys(p, ch, keys, 1) == Ok([f0]) by {
      assert [] + [f0] == [f0];
    }
    assert MergeKeys(p, ch, keys, 3) == Ok([f0]);
  }

  /** `merge({foo: ["bar", "baz"]}, {"$foo[0]": "qux", "$foo[]": ["quux", "corge"]})`
      is `{foo: ["qux", "baz", "quux", "corge"]}`. */
  lemma MergeWithOverrides()
    ensures Merged(Obj([("foo", Arr([Str("bar"), Str("baz")]))]),
                   Obj([("$foo[0]", Str("qux")), ("$foo[]", Arr([Str("quux"), Str("corge")]))]))
      == Ok(Obj([("foo", Arr([Str("qux"), Str("baz"), Str("quux"), Str("corge")]))]))
  {
    assert "foo"[0] == 'f' && "constructor"[0] == 'c';
    assert Decimal(0) == "0";
    assert PatchKey("foo", 0) == "$foo[0]" && AppendKey("foo") == "$foo[]";
    assert [Str("qux"), Str("baz")] + [Str("quux"), Str("corge")]
      == [Str("qux"), Str("baz"), Str("quux"), Str("corge")];
    PatchThenAppend("foo", Str("bar"), Str("baz"), Str("qux"), [Str("quux"), Str("corge")]);
  }

  // ---------------------------------------------------- append overrides

  lemma OneKeyOneOverride(k: string, v: Json, k1: string, w: Json)
    requires Ordinary(k) && StartsWithDollar(k1)
    ensures IsPlainObject(Obj([(k, v)])) && IsPlainObject(Obj([(k1, w)]))
    ensures UnionKeys(Obj([(k, v)]), Obj([(k1, w)])) == [k, k1]
    ensures !HasKey(Obj([(k1, w)]).fields, k)
  {
    var p, ch := Obj([(k, v)]), Obj([(k1, w)]);
    assert p.fields[0].0 == k && ch.fields[0].0 == k1;
    assert k1 != k && k1 != "constructor";
    assert Keys(p.fields) + Keys(ch.fields) == [k, k1];
    assert Distinct([k, k1]);
    DedupDistinct([k, k1]);
  }

  /** The one-key merge with a single override member `k1`, when the
      value for `k` comes out as `out`. */
  lemma SingleOverrideMerge(k: string, v: Json, k1: string, w: Json, out: Result<Json>)
    requires Ordinary(k) && StartsWithDollar(k1)
    requires IsPlainObject(Obj([(k, v)])) && IsPlainObject(Obj([(k1, w)]))
    requires MergedValue(Obj([(k, v)]), Obj([(k1, w)]), k) == out
    ensures Merged(Obj([(k, v)]), Obj([(k1, w)]))
      == if out.Ok? then Ok(Obj([(k, out.value)])) else Err(out.error)
  {
    var p, ch := Obj([(k, v)]), Obj([(k1, w)]);
    OneKeyOneOverride(k, v, k1, w);
    var keys := UnionKeys(p, ch);
    assert keys[0] == k && StartsWithDollar(keys[1]);
    if out.Ok? {
      var f0 := (k, out.value);
      assert MergeKeys(p, ch, keys, 1) == Ok([f0]) by {
        assert [] + [f0] == [f0];
      }
      assert MergeKeys(p, ch, keys, 2) == Ok([f0]);
    } else {
      assert MergeKeys(p, ch, keys, 1) == Err(out.error);
      assert MergeKeys(p, ch, keys, 2) == Err(out.error);
    }
  }

  /** `merge({k: v}, {"$k[]": w})` for a `v` that is not an array: the
      override is ignored and `v` is kept as it is. */
  lemma AppendToNonArrayIgnored(k: string, v: Json, w: Json)
    requires Ordinary(k) && !v.Arr?
    ensures Merged(Obj([(k, v)]), Obj([(AppendKey(k), w)])) == Ok(Obj([(k, v)]))
  {
    var p, ch := Obj([(k, v)]), Obj([(AppendKey(k), w)]);
    OverrideKeysParse(k, 0);
    OneKeyOneOverride(k, v, AppendKey(k), w);
    assert BaseValue(p, ch, k) == Ok(v) by {
      assert p.fields[0].0 == k;
      assert IndexOf(p.fields, k) == 0;
      CloneIsIdentity(v);
    }
    SingleOverrideMerge(k, v, AppendKey(k), w, Ok(v));
  }

  /** `merge({foo: "bar"}, {"$foo[]": "baz"})` is `{foo: "bar"}`. */
  lemma OverrideOfNonArrayIgnored()
    ensures Merged(Obj([("foo", Str("bar"))]), Obj([("$foo[]", Str("baz"))]))
      == Ok(Obj([("foo", Str("bar"))]))
  {
    assert "foo"[0] == 'f' && "constructor"[0] == 'c';
    assert AppendKey("foo") == "$foo[]";
    AppendToNonArrayIgnored("foo", Str("bar"), Str("baz"));
  }

  lemma AppendValue(k: string, xs: seq<Json>, w: Json)
    requires Ordinary(k)
    requires IsPlainObject(Obj([(k, Arr(xs))])) && IsPlainObject(Obj([(AppendKey(k), w)]))
    requires !HasKey(Obj([(AppendKey(k), w)]).fields, k)
    ensures Spread(w).Ok? ==>
      MergedValue(Obj([(k, Arr(xs))]), Obj([(AppendKey(k), w)]), k) == Ok(Arr(xs + Spread(w).value))
    ensures Spread(w).Err? ==>
      MergedValue(Obj([(k, Arr(xs))]), Obj([(AppendKey(k), w)]), k) == Err(Spread(w).error)
  {
    var p, ch := Obj([(k, Arr(xs))]), Obj([(AppendKey(k), w)]);
    assert BaseValue(p, ch, k) == Ok(Arr(xs)) by {
      assert p.fields[0].0 == k;
      assert IndexOf(p.fields, k) == 0;
      CloneIsIdentity(Arr(xs));
    }
    OverrideKeysParse(k, 0);
    assert ch.fields[0] == (AppendKey(k), w);
    CloneIsIdentity(w);
    assert ApplyDirectives(xs, k, ch, 0) == Ok(xs);
  }

  /** `merge({k: xs}, {"$k[]": s})` for a string `s`: `push(...s)` appends
      the characters of `s`, one string each. */
  lemma AppendStringSpreads(k: string, xs: seq<Json>, s: string)
    requires Ordinary(k)
    ensures Merged(Obj([(k, Arr(xs))]), Obj([(AppendKey(k), Str(s))]))
      == Ok(Obj([(k, Arr(xs + Characters(s)))]))
  {
    OverrideKeysParse(k, 0);
    OneKeyOneOverride(k, Arr(xs), AppendKey(k), Str(s));
    AppendValue(k, xs, Str(s));
    assert Spread(Str(s)) == Ok(Characters(s));
    SingleOverrideMerge(k, Arr(xs), AppendKey(k), Str(s), Ok(Arr(xs + Characters(s))));
  }

  /** `merge({k: xs}, {"$k[]": w})` for a `w` that is neither an array
      nor a string throws: `push(...w)` cannot spread it. */
  lemma AppendNonIterableThrows(k: string, xs: seq<Json>, w: Json)
    requires Ordinary(k) && !w.Arr? && !w.Str?
    ensures Merged(Obj([(k, Arr(xs))]), Obj([(AppendKey(k), w)])) == Err(NotIterable)
  {
    OverrideKeysParse(k, 0);
    OneKeyOneOverride(k, Arr(xs), AppendKey(k), w);
    AppendValue(k, xs, w);
    SingleOverrideMerge(k, Arr(xs), AppendKey(k), w, Err(NotIterable));
  }

  /** `merge({k: xs}, {"$k[]": ys})`: the elements of `ys` follow those
      of `xs`. */
  lemma AppendArrays(k: string, xs: seq<Json>, ys: seq<Json>)
    requires Ordinary(k)
    ensures Merged(Obj([(k, Arr(xs))]), Obj([(AppendKey(k), Arr(ys))]))
      == Ok(Obj([(k, Arr(xs + ys))]))
  {
    OverrideKeysParse(k, 0);
    OneKeyOneOverride(k, Arr(xs), AppendKey(k), Arr(ys));
    AppendValue(k, xs, Arr(ys));
    SingleOverrideMerge(k, Arr(xs), AppendKey(k), Arr(ys), Ok(Arr(xs + ys)));
  }

  // ----------------------------------------------------- patch overrides

  /** `merge({k: [x0]}, {"$k[0]": c})` with `merge(x0, c)` giving `m`: the
      element is merged with the override's value, not replaced by it. */
  lemma PatchMergesElement(k: string, x0: Json, c: Json, m: Json)
    requires Ordinary(k) && Merged(x0, c) == Ok(m)
    ensures Merged(Obj([(k, Arr([x0]))]), Obj([(PatchKey(k, 0), c)])) == Ok(Obj([(k, Arr([m]))]))
  {
    var p, ch := Obj([(k, Arr([x0]))]), Obj([(PatchKey(k, 0), c)]);
    OverrideKeysParse(k, 0);
    OneKeyOneOverride(k, Arr([x0]), PatchKey(k, 0), c);
    assert BaseValue(p, ch, k) == Ok(Arr([x0])) by {
      assert p.fields[0].0 == k;
      assert IndexOf(p.fields, k) == 0;
      CloneIsIdentity(Arr([x0]));
    }
    assert OnlyPatch(ch, k, 0, 0);
    SinglePatch([x0], k, ch, 0, 0);
    assert [x0][0 := m] == [m];
    SingleOverrideMerge(k, Arr([x0]), PatchKey(k, 0), c, Ok(Arr([m])));
  }

  /** `merge({foo: [{bar: ["a"]}]}, {"$foo[0]": {"$bar[]": ["b", "c"]}})`
      is `{foo: [{bar: ["a", "b", "c"]}]}`: the override of element 0 is
      itself merged, so its own `$bar[]` key appends. */
  lemma OverrideInsidePatch()
    ensures Merged(Obj([("foo", Arr([Obj([("bar", Arr([Str("a")]))])]))]),
                   Obj([("$foo[0]", Obj([("$bar[]", Arr([Str("b"), Str("c")]))]))]))
      == Ok(Obj([("foo", Arr([Obj([("bar", Arr([Str("a"), Str("b"), Str("c")]))])]))]))
  {
    assert "foo"[0] == 'f' && "bar"[0] == 'b' && "constructor"[0] == 'c';
    assert AppendKey("bar") == "$bar[]";
    assert Decimal(0) == "0";
    assert PatchKey("foo", 0) == "$foo[0]";
    assert [Str("a")] + [Str("b"), Str("c")] == [Str("a"), Str("b"), Str("c")];
    AppendArrays("bar", [Str("a")], [Str("b"), Str("c")]);
    PatchMergesElement("foo", Obj([("bar", Arr([Str("a")]))]), Obj([("$bar[]", Arr([Str("b"), Str("c")]))]),
      Obj([("bar", Arr([Str("a"), Str("b"), Str("c")]))]));
  }

  /** A child with an own `constructor` member is not a plain object, so
      it replaces the parent whole instead of being merged into it. */
  lemma ConstructorKeyIsNotPlain(parent: Json, fields: seq<Field>)
    requires HasKey(fields, "constructor")
    ensures Merged(parent, Obj(fields)) == Ok(Obj(fields))
  {
    MergeNonObject(parent, Obj(fields));
  }
}
