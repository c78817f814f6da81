/** The tree walker of `src/jfather.js`: a post-order rebuild of a
    document that applies a function to every plain object. */
module Walker {
  import opened Documents

  /** `walk(obj, fn)`: a plain object has each member walked, is rebuilt
      with the same keys in the same order, and is then handed to `fn`;
      an array is walked element by element and `fn` never sees it;
      anything else comes back as it is. */
  function Walk(j: Json, fn: Json -> Json): Json
    decreases j
  {
    if IsPlainObject(j) then
      fn(Obj(seq(|j.fields|, i requires 0 <= i < |j.fields| =>
        (j.fields[i].0, Walk(j.fields[i].1, fn)))))
    else if j.Arr? then
      Arr(seq(|j.elems|, i requires 0 <= i < |j.elems| => Walk(j.elems[i], fn)))
    else
      j
  }

  /** `clone(obj)`: the walker with the identity function. */
  function Clone(j: Json): Json {
    Walk(j, v => v)
  }

  /** What one call of the walker does at each kind of node. */
  lemma WalkShape(j: Json, fn: Json -> Json)
    ensures !IsPlainObject(j) && !j.Arr? ==> Walk(j, fn) == j
    ensures j.Arr? ==>
      && Walk(j, fn).Arr? && |Walk(j, fn).elems| == |j.elems|
      && forall i :: 0 <= i < |j.elems| ==> Walk(j, fn).elems[i] == Walk(j.elems[i], fn)
    ensures IsPlainObject(j) ==> exists rebuilt: seq<Field> ::
      && Keys(rebuilt) == Keys(j.fields)
      && (forall i :: 0 <= i < |rebuilt| ==> rebuilt[i].1 == Walk(j.fields[i].1, fn))
      && Walk(j, fn) == fn(Obj(rebuilt))
  {
    if IsPlainObject(j) {
      var rebuilt := seq(|j.fields|, i requires 0 <= i < |j.fields| =>
        (j.fields[i].0, Walk(j.fields[i].1, fn)));
      assert Keys(rebuilt) == Keys(j.fields);
      assert Walk(j, fn) == fn(Obj(rebuilt));
    }
  }

  /** A walker whose function leaves every object as it is returns the
      document it was given. */
  lemma {:induction false} WalkIdentity(j: Json, fn: Json -> Json)
    requires forall o :: fn(o) == o
    ensures Walk(j, fn) == j
    decreases j
  {
    if IsPlainObject(j) {
      var fs := j.fields;
      var rebuilt := seq(|fs|, i requires 0 <= i < |fs| => (fs[i].0, Walk(fs[i].1, fn)));
      forall i | 0 <= i < |fs| ensures rebuilt[i] == fs[i] {
        WalkIdentity(fs[i].1, fn);
      }
      assert rebuilt == fs;
    } else if j.Arr? {
      var es := j.elems;
      var walked := seq(|es|, i requires 0 <= i < |es| => Walk(es[i], fn));
      forall i | 0 <= i < |es| ensures walked[i] == es[i] {
        WalkIdentity(es[i], fn);
      }
      assert walked == es;
    }
  }

  /** A clone is deep-equal to the original. */
  lemma CloneIsIdentity(j: Json)
    ensures Clone(j) == j
  {
    WalkIdentity(j, v => v);
  }
}
