/** JSON documents as the merge engine sees them, with JavaScript's
    property-read and plain-object tests stated over them. */
module Documents {

  /** A JSON value, plus JavaScript's `undefined`, which `merge` and
      `query` can return. Objects keep their members in enumeration order. */
  datatype Json =
    | Undefined
    | Null
    | Bool(b: bool)
    | Num(n: int)
    | Str(s: string)
    | Arr(elems: seq<Json>)
    | Obj(fields: seq<Field>)

  type Field = (string, Json)

  /** The `TypeError`s the core can raise. */
  datatype Error =
    | InvalidChain(chain: string)      // query: a segment matches neither form
    | PropertyOfNothing(key: string)   // reading a property of undefined or null
    | NotIterable                      // `push(...v)` with a v that cannot be spread

  datatype Option<+T> = None | Some(value: T)

  datatype Result<+T> = Ok(value: T) | Err(error: Error) {
    predicate IsFailure() { Err? }
    function PropagateFailure<U>(): Result<U> requires Err? { Err(error) }
    function Extract(): T requires Ok? { value }
  }

  // ---------------------------------------------------------------- members

  function Keys(fields: seq<Field>): (ks: seq<string>)
    ensures |ks| == |fields|
    ensures forall i :: 0 <= i < |fields| ==> ks[i] == fields[i].0
  {
    seq(|fields|, i requires 0 <= i < |fields| => fields[i].0)
  }

  /** Own-key membership (`Object.hasOwn`). */
  predicate HasKey(fields: seq<Field>, k: string) {
    exists i :: 0 <= i < |fields| && fields[i].0 == k
  }

  function IndexOf(fields: seq<Field>, k: string): (i: nat)
    requires HasKey(fields, k)
    ensures i < |fields| && fields[i].0 == k
    ensures forall j :: 0 <= j < i ==> fields[j].0 != k
  {
    if fields[0].0 == k then 0 else 1 + IndexOf(fields[1..], k)
  }

  /** The value stored under an own key `k`. */
  function Member(fields: seq<Field>, k: string): Json
    requires HasKey(fields, k)
  {
    fields[IndexOf(fields, k)].1
  }

  /** `obj[k]` on an object, own keys only: the member, or undefined. */
  function Lookup(fields: seq<Field>, k: string): Json {
    if HasKey(fields, k) then Member(fields, k) else Undefined
  }

  predicate DistinctKeys(fields: seq<Field>) {
    forall i, j :: 0 <= i < j < |fields| ==> fields[i].0 != fields[j].0
  }

  /** Every object in the document has distinct keys, as every JavaScript
      object does. */
  predicate WellFormed(j: Json) {
    match j
    case Arr(elems) => forall i :: 0 <= i < |elems| ==> WellFormed(elems[i])
    case Obj(fields) =>
      DistinctKeys(fields) && forall i :: 0 <= i < |fields| ==> WellFormed(fields[i].1)
    case _ => true
  }

  /** `Object === obj?.constructor`: an object literal whose prototype is
      `Object.prototype`, unless it shadows `constructor` with an own key
      (no JSON value can equal the `Object` function). */
  predicate IsPlainObject(j: Json) {
    j.Obj? && !HasKey(j.fields, "constructor")
  }

  // ------------------------------------------------------ decimal numerals

  predicate IsDigit(c: char) { '0' <= c <= '9' }

  predicate AllDigits(s: string) { forall i :: 0 <= i < |s| ==> IsDigit(s[i]) }

  /** `\w` of a Unicode-mode regular expression without the `i` flag. */
  predicate IsWordChar(c: char) {
    IsDigit(c) || 'a' <= c <= 'z' || 'A' <= c <= 'Z' || c == '_'
  }

  /** `Number(s)` for a string of decimal digits. */
  function DigitsValue(s: string): nat
    requires AllDigits(s)
  {
    if s == [] then 0
    else DigitsValue(s[..|s| - 1]) * 10 + (s[|s| - 1] as int - '0' as int)
  }

  function DigitChar(d: nat): (c: char)
    requires d < 10
    ensures IsDigit(c) && c as int - '0' as int == d
  {
    ('0' as int + d) as char
  }

  /** `String(n)` for a non-negative integer. */
  function Decimal(n: nat): (s: string)
    decreases n
  {
    if n < 10 then [DigitChar(n)] else Decimal(n / 10) + [DigitChar(n % 10)]
  }

  /** The array index a property key denotes: a canonical decimal numeral
      (`"0"`, or digits without a leading zero). */
  function CanonicalIndex(key: string): Option<nat> {
    if key != [] && AllDigits(key) && (key[0] != '0' || |key| == 1)
    then Some(DigitsValue(key)) else None
  }

  lemma {:induction false} DecimalDigits(n: nat)
    ensures AllDigits(Decimal(n)) && DigitsValue(Decimal(n)) == n
    ensures Decimal(n) != [] && (Decimal(n)[0] == '0' ==> n == 0 && |Decimal(n)| == 1)
    decreases n
  {
    if n >= 10 {
      DecimalDigits(n / 10);
      var s := Decimal(n);
      assert s[..|s| - 1] == Decimal(n / 10);
      assert s[0] == Decimal(n / 10)[0];
    }
  }

  /** The numeral `String(n)` is the canonical key of array index `n`. */
  lemma DecimalIsCanonicalIndex(n: nat)
    ensures CanonicalIndex(Decimal(n)) == Some(n)
  {
    DecimalDigits(n);
  }

  // --------------------------------------------------------- property read

  /** `v[key]` for a document `v`: reading from undefined or null throws;
      arrays and strings expose `length` and their canonical indices; an
      object yields its own member; anything else reads as undefined. */
  function Get(v: Json, key: string): (r: Result<Json>)
    ensures r.Err? <==> v.Undefined? || v.Null?
    ensures v.Obj? && HasKey(v.fields, key) ==> r == Ok(Member(v.fields, key))
    ensures v.Obj? && !HasKey(v.fields, key) ==> r == Ok(Undefined)
  {
    match v
    case Undefined => Err(PropertyOfNothing(key))
    case Null => Err(PropertyOfNothing(key))
    case Obj(fields) => Ok(Lookup(fields, key))
    case Arr(elems) =>
      if key == "length" then Ok(Num(|elems|))
      else (match CanonicalIndex(key)
            case Some(i) => Ok(if i < |elems| then elems[i] else Undefined)
            case None => Ok(Undefined))
    case Str(s) =>
      if key == "length" then Ok(Num(|s|))
      else (match CanonicalIndex(key)
            case Some(i) => Ok(if i < |s| then Str([s[i]]) else Undefined)
            case None => Ok(Undefined))
    case _ => Ok(Undefined)
  }

  /** Reading the element at index `i` of an array through its numeral. */
  lemma GetIndex(elems: seq<Json>, i: nat)
    requires i < |elems|
    ensures Get(Arr(elems), Decimal(i)) == Ok(elems[i])
  {
    DecimalIsCanonicalIndex(i);
    DecimalDigits(i);
    assert Decimal(i) != "length" by {
      assert Decimal(i)[0] != 'l';
    }
  }
}
