/** What `merge` promises: the child wins, the keys are the union of both
    sides without `$` keys, parent keys first, each value is merged or
    cloned, and the child's override keys patch arrays in key order. */
module MergeProperties {
  import opened Documents
  import opened Walker
  import opened KeyOrder
  import opened MergeEngine

  /** When either side is not a plain object, the result is the child,
      whatever the parent: a scalar, an array, or undefined. */
  lemma MergeNonObject(parent: Json, child: Json)
    requires !IsPlainObject(parent) || !IsPlainObject(child)
    ensures Merged(parent, child) == Ok(child)
  {
    CloneIsIdentity(child);
  }

  /** The rounds of the loop store one member per key that does not start
      with `$`, in the order of `keys`, each holding that key's merged value. */
  lemma {:induction false} MergeKeysFields(parent: Json, child: Json, keys: seq<string>, n: nat, fs: seq<Field>)
    requires IsPlainObject(parent) && IsPlainObject(child) && n <= |keys|
    requires MergeKeys(parent, child, keys, n) == Ok(fs)
    ensures Keys(fs) == NonDollar(keys[..n])
    ensures forall j :: 0 <= j < |fs| ==> MergedValue(parent, child, fs[j].0) == Ok(fs[j].1)
  {
    if n > 0 {
      var done := MergeKeys(parent, child, keys, n - 1).value;
      MergeKeysFields(parent, child, keys, n - 1, done);
      assert keys[..n] == keys[..n - 1] + [keys[n - 1]];
      assert keys[..n][..n - 1] == keys[..n - 1];
      if !StartsWithDollar(keys[n - 1]) {
        assert Keys(fs) == Keys(done) + [keys[n - 1]];
      }
    }
  }

  predicate KeysDistinct(fields: seq<Field>) {
    Distinct(Keys(fields))
  }

  lemma DistinctKeysAgree(fields: seq<Field>)
    ensures DistinctKeys(fields) <==> KeysDistinct(fields)
  {
    if DistinctKeys(fields) {
      assert Distinct(Keys(fields));
    }
    if KeysDistinct(fields) {
      forall i, j | 0 <= i < j < |fields| ensures fields[i].0 != fields[j].0 {
        assert Keys(fields)[i] != Keys(fields)[j];
      }
    }
  }

  /** Merging two plain objects keeps the keys of both that do not start
      with `$`, each once: the parent's in the parent's order, then the
      child's new ones in the child's order. */
  lemma MergedKeys(parent: Json, child: Json, r: Json)
    requires IsPlainObject(parent) && IsPlainObject(child)
    requires DistinctKeys(parent.fields) && DistinctKeys(child.fields)
    requires Merged(parent, child) == Ok(r)
    ensures r.Obj? && DistinctKeys(r.fields)
    ensures Keys(r.fields) == NonDollar(Keys(parent.fields))
      + NonDollar(Without(Keys(child.fields), Keys(parent.fields)))
  {
    var kp, kc := Keys(parent.fields), Keys(child.fields);
    var keys := UnionKeys(parent, child);
    DistinctKeysAgree(parent.fields);
    DistinctKeysAgree(child.fields);
    DedupUnion(kp, kc);
    DedupMembers(kp + kc);
    MergedKeySet(parent, child, r);
    MergeKeysFields(parent, child, keys, |keys|, r.fields);
    assert keys[..|keys|] == keys;
    NonDollarAppend(kp, Without(kc, kp));
    NonDollarDistinct(keys);
    DistinctKeysAgree(r.fields);
  }

  /** A key is in the merge of two plain objects exactly when it is in
      either of them and does not start with `$`. */
  lemma MergedKeySet(parent: Json, child: Json, r: Json)
    requires IsPlainObject(parent) && IsPlainObject(child)
    requires Merged(parent, child) == Ok(r)
    ensures r.Obj?
    ensures forall k :: HasKey(r.fields, k) <==>
      (HasKey(parent.fields, k) || HasKey(child.fields, k)) && !StartsWithDollar(k)
  {
    var kp, kc := Keys(parent.fields), Keys(child.fields);
    var keys := UnionKeys(parent, child);
    DedupMembers(kp + kc);
    MergeKeysFields(parent, child, keys, |keys|, r.fields);
    assert keys[..|keys|] == keys;
    NonDollarMembers(keys);
    forall k ensures HasKey(r.fields, k) <==> k in Keys(r.fields) {
      if HasKey(r.fields, k) {
        var i :| 0 <= i < |r.fields| && r.fields[i].0 == k;
        assert Keys(r.fields)[i] == k;
      }
    }
    forall k ensures HasKey(parent.fields, k) <==> k in kp {
      if HasKey(parent.fields, k) {
        var i :| 0 <= i < |parent.fields| && parent.fields[i].0 == k;
        assert kp[i] == k;
      }
    }
    forall k ensures HasKey(child.fields, k) <==> k in kc {
      if HasKey(child.fields, k) {
        var i :| 0 <= i < |child.fields| && child.fields[i].0 == k;
        assert kc[i] == k;
      }
    }
  }

  /** Each member of a merge of two plain objects holds that key's merged
      value: the base value of the key, patched when it is an array. */
  lemma MergedMember(parent: Json, child: Json, r: Json, k: string)
    requires IsPlainObject(parent) && IsPlainObject(child)
    requires Merged(parent, child) == Ok(r)
    requires r.Obj? && HasKey(r.fields, k)
    ensures MergedValue(parent, child, k) == Ok(Lookup(r.fields, k))
  {
    var keys := UnionKeys(parent, child);
    MergeKeysFields(parent, child, keys, |keys|, r.fields);
    var i := IndexOf(r.fields, k);
    assert MergedValue(parent, child, r.fields[i].0) == Ok(r.fields[i].1);
  }

  // ------------------------------------------------- values of the members

  /** Without an override key for `k` in the child, the member under `k`
      is the merge of both values when both sides have `k`, and otherwise
      the value of the side that has it. */
  lemma MemberWithoutOverrides(parent: Json, child: Json, r: Json, k: string)
    requires IsPlainObject(parent) && IsPlainObject(child)
    requires Merged(parent, child) == Ok(r)
    requires HasKey(parent.fields, k) || HasKey(child.fields, k)
    requires !StartsWithDollar(k) && NoOverridesFor(child, k)
    ensures r.Obj? && HasKey(r.fields, k)
    ensures HasKey(parent.fields, k) && HasKey(child.fields, k) ==>
      Merged(Member(parent.fields, k), Member(child.fields, k)) == Ok(Lookup(r.fields, k))
    ensures HasKey(parent.fields, k) && !HasKey(child.fields, k) ==>
      Lookup(r.fields, k) == Member(parent.fields, k)
    ensures !HasKey(parent.fields, k) && HasKey(child.fields, k) ==>
      Lookup(r.fields, k) == Member(child.fields, k)
  {
    MergedKeySet(parent, child, r);
    MergedMember(parent, child, r, k);
    CloneIsIdentity(Lookup(parent.fields, k));
    CloneIsIdentity(Lookup(child.fields, k));
    var base := BaseValue(parent, child, k);
    if base.Ok? && base.value.Arr? {
      NoOverridesKeepArray(base.value.elems, k, child, |child.fields|);
    }
  }

  /** The child wins: a child member that is neither a plain object nor
      an array is kept as it is, whatever the parent holds under that key. */
  lemma ChildScalarWins(parent: Json, child: Json, r: Json, k: string)
    requires IsPlainObject(parent) && IsPlainObject(child)
    requires Merged(parent, child) == Ok(r)
    requires HasKey(child.fields, k) && !StartsWithDollar(k)
    requires !IsPlainObject(Member(child.fields, k)) && !Member(child.fields, k).Arr?
    ensures r.Obj? && HasKey(r.fields, k) && Lookup(r.fields, k) == Member(child.fields, k)
  {
    MergedKeySet(parent, child, r);
    MergedMember(parent, child, r, k);
    CloneIsIdentity(Member(child.fields, k));
    if HasKey(parent.fields, k) {
      MergeNonObject(Member(parent.fields, k), Member(child.fields, k));
    }
  }

  /** Override keys only act on arrays: when the value merged under `k`
      is not an array, it is the member, untouched by `$k[…]` keys. */
  lemma OverridesIgnoredOnNonArray(parent: Json, child: Json, r: Json, k: string)
    requires IsPlainObject(parent) && IsPlainObject(child)
    requires Merged(parent, child) == Ok(r)
    requires r.Obj? && HasKey(r.fields, k)
    requires BaseValue(parent, child, k).Ok? && !BaseValue(parent, child, k).value.Arr?
    ensures Lookup(r.fields, k) == BaseValue(parent, child, k).value
  {
    MergedMember(parent, child, r, k);
  }

  // ------------------------------------------------------ override keys

  /** The child has no `$key[]` or `$key[n]` member. */
  predicate NoOverridesFor(child: Json, key: string)
    requires child.Obj?
  {
    forall i :: 0 <= i < |child.fields| ==> DirectiveFor(key, child.fields[i].0).None?
  }

  lemma {:induction false} NoOverridesKeepArray(elems: seq<Json>, key: string, child: Json, n: nat)
    requires child.Obj? && n <= |child.fields| && NoOverridesFor(child, key)
    ensures ApplyDirectives(elems, key, child, n) == Ok(elems)
  {
    if n > 0 {
      NoOverridesKeepArray(elems, key, child, n - 1);
    }
  }

  /** Every override key for `key` is `$key[]` with an array value. */
  predicate OnlyArrayAppends(child: Json, key: string)
    requires child.Obj?
  {
    forall i :: 0 <= i < |child.fields| && DirectiveFor(key, child.fields[i].0).Some? ==>
      DirectiveFor(key, child.fields[i].0) == Some(Append) && child.fields[i].1.Arr?
  }

  /** The elements the `$key[]` members among `fields` carry, in order. */
  function Appended(key: string, fields: seq<Field>): seq<Json> {
    if fields == [] then []
    else
      var last := fields[|fields| - 1];
      Appended(key, fields[..|fields| - 1]) + AppendedBy(key, last)
  }

  /** `$key[]` members append clones of their arrays, in the child's key order. */
  lemma {:induction false} AppendsConcatenate(elems: seq<Json>, key: string, child: Json, n: nat)
    requires child.Obj? && n <= |child.fields| && OnlyArrayAppends(child, key)
    ensures ApplyDirectives(elems, key, child, n) == Ok(elems + Appended(key, child.fields[..n]))
  {
    if n == 0 {
      assert elems + [] == elems;
    } else {
      AppendsConcatenate(elems, key, child, n - 1);
      AppendRound(elems, key, child, n - 1);
    }
  }

  /** The elements a member appends, when it is `$key[]` with an array
      value. */
  function AppendedBy(key: string, f: Field): seq<Json> {
    if DirectiveFor(key, f.0) == Some(Append) && f.1.Arr? then f.1.elems else []
  }

  lemma AppendedSnoc(key: string, fields: seq<Field>, j: nat)
    requires j < |fields|
    ensures Appended(key, fields[..j + 1]) == Appended(key, fields[..j]) + AppendedBy(key, fields[j])
  {
    assert fields[..j + 1][..j] == fields[..j];
  }

  /** One round of the override loop under `OnlyArrayAppends`. */
  lemma AppendRound(elems: seq<Json>, key: string, child: Json, j: nat)
    requires child.Obj? && j < |child.fields| && OnlyArrayAppends(child, key)
    requires ApplyDirectives(elems, key, child, j) == Ok(elems + Appended(key, child.fields[..j]))
    ensures ApplyDirectives(elems, key, child, j + 1) == Ok(elems + Appended(key, child.fields[..j + 1]))
  {
    AppendedSnoc(key, child.fields, j);
    var before := Appended(key, child.fields[..j]);
    var (k, v) := child.fields[j];
    var extra := AppendedBy(key, child.fields[j]);
    var cur := elems + before;
    if DirectiveFor(key, k).Some? {
      assert DirectiveFor(key, k) == Some(Append) && v.Arr?;
      CloneIsIdentity(v);
      assert Spread(Clone(v)) == Ok(v.elems);
      assert ApplyDirectives(elems, key, child, j + 1) == Ok(cur + extra);
    } else {
      assert extra == [] && cur + extra == cur;
      assert ApplyDirectives(elems, key, child, j + 1) == Ok(cur);
    }
    assert cur + extra == elems + (before + extra);
  }

  /** Some `$key[j]` member among the child's first `n` targets element `j`. */
  predicate Targets(child: Json, key: string, n: nat, j: nat)
    requires child.Obj? && n <= |child.fields|
  {
    exists i :: 0 <= i < n && DirectiveFor(key, child.fields[i].0) == Some(At(j))
  }

  /** Overrides never shorten the array, and an element no `$key[j]`
      member targets keeps its value. */
  lemma {:induction false} OverridesFrame(elems: seq<Json>, key: string, child: Json, n: nat, out: seq<Json>)
    requires child.Obj? && n <= |child.fields|
    requires ApplyDirectives(elems, key, child, n) == Ok(out)
    ensures |out| >= |elems|
    ensures forall j :: 0 <= j < |elems| && !Targets(child, key, n, j) ==> out[j] == elems[j]
  {
    if n > 0 {
      var cur := ApplyDirectives(elems, key, child, n - 1).value;
      OverridesFrame(elems, key, child, n - 1, cur);
      forall j | 0 <= j < |elems| && !Targets(child, key, n, j) ensures out[j] == elems[j] {
        assert DirectiveFor(key, child.fields[n - 1].0) != Some(At(j));
      }
    }
  }

  /** The child's only override key for `key` is its `p`-th member, and
      that member patches element `i`. */
  predicate OnlyPatch(child: Json, key: string, p: nat, i: nat)
    requires child.Obj?
  {
    && p < |child.fields| && DirectiveFor(key, child.fields[p].0) == Some(At(i))
    && forall q :: 0 <= q < |child.fields| && q != p ==> DirectiveFor(key, child.fields[q].0).None?
  }

  /** Members that are no overrides of `key` leave the array as it was. */
  lemma {:induction false} NoOverridesBetween(elems: seq<Json>, key: string, child: Json, from: nat, n: nat)
    requires child.Obj? && from <= n <= |child.fields|
    requires forall q :: from <= q < n ==> DirectiveFor(key, child.fields[q].0).None?
    ensures ApplyDirectives(elems, key, child, n) == ApplyDirectives(elems, key, child, from)
    decreases n
  {
    if n > from {
      NoOverridesBetween(elems, key, child, from, n - 1);
    }
  }

  /** A single `$key[i]: v` override: inside the array, element `i`
      becomes `merge(elems[i], v)` and the others stay, and a merge that
      throws makes the patching throw; past the end, the array grows to
      `i + 1` elements, the gap reads as undefined and element `i` is `v`. */
  lemma SinglePatch(elems: seq<Json>, key: string, child: Json, p: nat, i: nat)
    requires child.Obj? && OnlyPatch(child, key, p, i)
    ensures i < |elems| && Merged(elems[i], child.fields[p].1).Ok? ==>
      ApplyDirectives(elems, key, child, |child.fields|)
        == Ok(elems[i := Merged(elems[i], child.fields[p].1).value])
    ensures i < |elems| && Merged(elems[i], child.fields[p].1).Err? ==>
      ApplyDirectives(elems, key, child, |child.fields|)
        == Err(Merged(elems[i], child.fields[p].1).error)
    ensures i >= |elems| ==>
      ApplyDirectives(elems, key, child, |child.fields|)
        == Ok(elems + seq(i - |elems|, _ => Undefined) + [child.fields[p].1])
  {
    var v := child.fields[p].1;
    var m := Merged(ElemAt(elems, i), v);
    PatchRound(elems, key, child, p, i);
    NoOverridesBetween(elems, key, child, p + 1, |child.fields|);
    if i >= |elems| {
      MergeNonObject(Undefined, v);
      assert Store(elems, i, v) == elems + seq(i - |elems|, _ => Undefined) + [v];
    }
  }

  /** The rounds up to and including the `$key[i]` member of `OnlyPatch`. */
  lemma PatchRound(elems: seq<Json>, key: string, child: Json, p: nat, i: nat)
    requires child.Obj? && OnlyPatch(child, key, p, i)
    ensures var m := Merged(ElemAt(elems, i), child.fields[p].1);
      ApplyDirectives(elems, key, child, p + 1) == if m.Ok? then Ok(Store(elems, i, m.value)) else Err(m.error)
  {
    NoOverridesBetween(elems, key, child, 0, p);
  }

  /** A member patched by one `$k[i]: v` override, `i` inside the array
      `xs` merged under `k`: it holds `xs` with element `i` replaced by
      `merge(xs[i], v)`, so an object value is merged into an object
      element rather than replacing it. */
  lemma MemberWithOnePatch(parent: Json, child: Json, r: Json, k: string, p: nat, i: nat, xs: seq<Json>)
    requires IsPlainObject(parent) && IsPlainObject(child)
    requires Merged(parent, child) == Ok(r)
    requires HasKey(parent.fields, k) || HasKey(child.fields, k)
    requires !StartsWithDollar(k) && BaseValue(parent, child, k) == Ok(Arr(xs))
    requires OnlyPatch(child, k, p, i) && i < |xs|
    ensures r.Obj? && HasKey(r.fields, k)
    ensures Merged(xs[i], child.fields[p].1).Ok?
    ensures Lookup(r.fields, k) == Arr(xs[i := Merged(xs[i], child.fields[p].1).value])
  {
    MergedKeySet(parent, child, r);
    MergedMember(parent, child, r, k);
    SinglePatch(xs, k, child, p, i);
  }

  // ---------------------------------------------------------- idempotence

  /** No plain object that `merge` descends into has a key starting with
      `$`. Arrays and other objects are cloned whole, so what they hold
      does not matter. */
  predicate NoDollarKeys(j: Json) {
    IsPlainObject(j) ==>
      forall i :: 0 <= i < |j.fields| ==> !StartsWithDollar(j.fields[i].0) && NoDollarKeys(j.fields[i].1)
  }

  /** Merging a document with itself gives it back, as long as it has no
      `$` keys to drop or apply. */
  lemma {:induction false} MergeIdempotent(x: Json)
    requires WellFormed(x) && NoDollarKeys(x)
    ensures Merged(x, x) == Ok(x)
    decreases x, 1
  {
    if !IsPlainObject(x) {
      MergeNonObject(x, x);
    } else {
      var ks := Keys(x.fields);
      DistinctKeysAgree(x.fields);
      DedupUnion(ks, ks);
      WithoutCovered(ks, ks);
      assert UnionKeys(x, x) == ks;
      MergeKeysIdempotent(x, |ks|);
      assert x.fields[..|ks|] == x.fields;
    }
  }

  lemma {:induction false} MergeKeysIdempotent(x: Json, n: nat)
    requires WellFormed(x) && NoDollarKeys(x) && IsPlainObject(x)
    requires n <= |x.fields|
    ensures MergeKeys(x, x, Keys(x.fields), n) == Ok(x.fields[..n])
    decreases x, 0, n
  {
    if n > 0 {
      MergeKeysIdempotent(x, n - 1);
      var v := x.fields[n - 1].1;
      assert WellFormed(v) && NoDollarKeys(v);
      MergeIdempotent(v);
      SelfMergeRound(x, n - 1);
    }
  }

  /** One round of a self-merge, given that the member's value merges
      with itself to itself. */
  lemma SelfMergeRound(x: Json, i: nat)
    requires WellFormed(x) && NoDollarKeys(x) && IsPlainObject(x)
    requires i < |x.fields| && Merged(x.fields[i].1, x.fields[i].1) == Ok(x.fields[i].1)
    requires MergeKeys(x, x, Keys(x.fields), i) == Ok(x.fields[..i])
    ensures MergeKeys(x, x, Keys(x.fields), i + 1) == Ok(x.fields[..i + 1])
  {
    var k := x.fields[i].0;
    var v := x.fields[i].1;
    assert Keys(x.fields)[i] == k && !StartsWithDollar(k);
    assert HasKey(x.fields, k);
    assert IndexOf(x.fields, k) == i;
    assert BaseValue(x, x, k) == Ok(v);
    if v.Arr? {
      NoOverridesKeepArray(v.elems, k, x, |x.fields|);
    }
    assert MergedValue(x, x, k) == Ok(v);
    assert x.fields[..i + 1] == x.fields[..i] + [(k, v)];
  }
}
