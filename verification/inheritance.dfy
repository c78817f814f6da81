/** One step of `inherit` in `src/jfather.js`: a node whose `$extends`
    member is set is merged into the ancestor document that member names.
    Fetching the ancestor (`load`) is outside the model, so the ancestor
    is a parameter. */
module Inheritance {
  import opened Documents
  import opened KeyOrder
  import opened MergeEngine
  import opened MergeProperties

  const ExtendsKey: string := "$extends"

  /** `obj?.$extends`: undefined for undefined and null; `$extends` is no
      array or string property, so only an object can have one. */
  function ExtendsOf(node: Json): (r: Json)
    ensures node.Obj? ==> r == Lookup(node.fields, ExtendsKey)
    ensures !node.Obj? ==> r == Undefined
  {
    if node.Undefined? || node.Null? then Undefined
    else
      assert ExtendsKey[0] == '$';
      Get(node, ExtendsKey).value
  }

  /** `inherit(obj)` once `load(obj.$extends)` has produced `ancestor`:
      a node without the marker is returned as it is, and only an object
      can carry the marker. */
  function Inherit(node: Json, ancestor: Json): (r: Result<Json>)
    ensures !node.Obj? ==> r == Ok(node)
    ensures node.Obj? && !HasKey(node.fields, ExtendsKey) ==> r == Ok(node)
  {
    if ExtendsOf(node).Undefined? then Ok(node)
    else Merged(ancestor, node)
  }

  /** The result of a step never extends anything. A node extending a
      plain ancestor loses its `$extends` member (and every other `$`
      key); its members are the ancestor's, in order, then the node's new
      ones. */
  lemma InheritedKeys(node: Json, ancestor: Json, r: Json)
    requires IsPlainObject(node) && IsPlainObject(ancestor)
    requires DistinctKeys(node.fields) && DistinctKeys(ancestor.fields)
    requires Inherit(node, ancestor) == Ok(r)
    ensures r.Obj? && DistinctKeys(r.fields)
    ensures ExtendsOf(r).Undefined?
    ensures !ExtendsOf(node).Undefined? ==> !HasKey(r.fields, ExtendsKey)
    ensures !ExtendsOf(node).Undefined? ==>
      Keys(r.fields) == NonDollar(Keys(ancestor.fields))
        + NonDollar(Without(Keys(node.fields), Keys(ancestor.fields)))
  {
    if !ExtendsOf(node).Undefined? {
      MergedKeys(ancestor, node, r);
      MergedKeySet(ancestor, node, r);
      assert StartsWithDollar(ExtendsKey);
    }
  }

  /** After one step the node no longer extends anything: a second step
      gives it back unchanged, whatever ancestor it is given. */
  lemma InheritSettles(node: Json, ancestor: Json, r: Json, other: Json)
    requires IsPlainObject(node) && IsPlainObject(ancestor)
    requires DistinctKeys(node.fields) && DistinctKeys(ancestor.fields)
    requires !ExtendsOf(node).Undefined?
    requires Inherit(node, ancestor) == Ok(r)
    ensures Inherit(r, other) == Ok(r)
  {
    InheritedKeys(node, ancestor, r);
  }

  /** When the ancestor (or the node itself) is not a plain object, the
      node replaces it whole, `$extends` member included. */
  lemma NonObjectAncestor(node: Json, ancestor: Json)
    requires node.Obj? && HasKey(node.fields, ExtendsKey)
    requires !Member(node.fields, ExtendsKey).Undefined?
    requires !IsPlainObject(ancestor) || !IsPlainObject(node)
    ensures Inherit(node, ancestor) == Ok(node)
  {
    MergeNonObject(ancestor, node);
  }

  /** The node's own members win over the ancestor's: a member of the node
      that is neither a plain object nor an array, and whose key does not
      start with `$`, is kept as it is. */
  lemma NodeScalarWins(node: Json, ancestor: Json, r: Json, k: string)
    requires IsPlainObject(node) && IsPlainObject(ancestor)
    requires Inherit(node, ancestor) == Ok(r)
    requires HasKey(node.fields, k) && !StartsWithDollar(k)
    requires !IsPlainObject(Member(node.fields, k)) && !Member(node.fields, k).Arr?
    ensures r.Obj? && HasKey(r.fields, k) && Lookup(r.fields, k) == Member(node.fields, k)
  {
    if !ExtendsOf(node).Undefined? {
      ChildScalarWins(ancestor, node, r, k);
    }
  }

  /** A member only the ancestor has, with no override key for it in the
      node, is inherited unchanged. */
  lemma AncestorMemberInherited(node: Json, ancestor: Json, r: Json, k: string)
    requires IsPlainObject(node) && IsPlainObject(ancestor)
    requires !ExtendsOf(node).Undefined?
    requires Inherit(node, ancestor) == Ok(r)
    requires HasKey(ancestor.fields, k) && !HasKey(node.fields, k)
    requires !StartsWithDollar(k) && NoOverridesFor(node, k)
    ensures r.Obj? && HasKey(r.fields, k) && Lookup(r.fields, k) == Member(ancestor.fields, k)
  {
    MemberWithoutOverrides(ancestor, node, r, k);
  }
}
