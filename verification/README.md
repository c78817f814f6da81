# jfather core in Dafny

jfather extends JSON documents. A `$extends` member names an ancestor
document. The node carrying it is deep-merged into that ancestor: the
node's members win, and child keys `$name[]` and `$name[index]` append to
or patch the array merged under `name`. The project models the synchronous
core of `src/jfather.js`:

- `walk` (`Walker.Walk`): a post-order rebuild of a document. It applies a
  function to every plain object.
- `clone` (`Walker.Clone`): the walk with the identity function.
- `query` (`PathQuery.Query`): a `while` loop that consumes a chain of
  `.name` and `[digits]` segments.
- `merge` (`MergeEngine.Merge`, `MergeMember`, `PatchArray`): loops that
  fill the result one key at a time and then patch arrays in place.
- The `$extends` step of `inherit` (`Inheritance.Inherit`). The ancestor
  document that `load` would fetch is a parameter.

Documents are the datatype `Documents.Json`. It holds JSON values plus
JavaScript's `undefined`, and objects keep their members in enumeration
order. JavaScript's property read `v[key]` is `Documents.Get`, and the test
`Object === obj?.constructor` is `Documents.IsPlainObject`. That test is
false for an object with an own `constructor` member, and such a document
is treated as opaque, exactly as in the code.

Each loop method is proved equal to a recursive specification function:
`PathQuery.Queried`, `MergeEngine.Merged`, `MergeEngine.MergedValue` and
`MergeEngine.ApplyDirectives`. The specification functions take the number
of finished rounds as an argument, so the first round that throws decides
the error, as in the code. The properties are then proved about those
functions.

Where the unit tests and the code disagree, the model follows the code.
`query` does not prefix a dot to a chain that starts with a name. The
code's regular expression matches neither alternative, so `query(obj,
"foo")` throws `Invalid chain: foo`. `PathQuery.BareNameIsInvalid` states
this for every such chain. The unit test at
`test/unit/jfather.test.js:202-205` expects `"bar"` instead.

Two further points about what the code does:

- A `$name[]` override spreads its value with `push(...clone(value))`.
  An array adds its elements and a string adds its characters. Any other
  value throws a `TypeError`. See `MergeEngine.Spread`,
  `MergeExamples.AppendStringSpreads` and
  `MergeExamples.AppendNonIterableThrows`.
- `src/index.js` re-exports an `extend` that `src/jfather.js` does not
  define. There is no `extend` in this model; `transform` plays its role
  and is left out (below).

## Model

| member | source | states |
|---|---|---|
| Walker.Walk | src/jfather.js:15-29 | The walker itself: members of a plain object are walked and the rebuilt object is given to `fn`; arrays are walked element by element; other values are returned as they are. Its contract is `Walker.WalkShape`. |
| Walker.Clone | src/jfather.js:66-68 | `clone` is the walker with the identity function; `Walker.CloneIsIdentity` states what it returns. |
| Walker.WalkShape | src/jfather.js:15-29 | A plain object is rebuilt with the same keys in the same order and walked members, then handed to `fn`. An array keeps its length and has each element walked. Anything else, undefined and null included, is returned unchanged. |
| Walker.WalkIdentity | src/jfather.js:15-29 | A walk whose function returns every object unchanged gives back the document it was given. |
| Walker.CloneIsIdentity | src/jfather.js:66-68 | `clone(obj)` is deep-equal to `obj`. |
| Documents.IsPlainObject | src/jfather.js:16 | `Object === obj?.constructor` holds for an object, and fails for every other value and for an object with an own `constructor` member. The same test guards `merge` at src/jfather.js:104. |
| Documents.Get | src/jfather.js:84-87 | A property read throws exactly on undefined and null. On an object it yields the own member, or undefined when the key is absent. |
| Documents.DecimalIsCanonicalIndex | src/jfather.js:87 | `String(n)` is the canonical key of array index `n`, so `Number(digits)` reads the intended element. |
| Documents.GetIndex | src/jfather.js:87 | Reading an array at the numeral of an in-range index yields that element. |
| PathQuery.MatchSegment | src/jfather.js:79-82 | A match is a non-empty prefix of the chain. A `prop` match is `.` followed by every word character that comes next, at least one. An `index` match is `[`, a non-empty run of digits, then `]`. A chain starting with `.` matches exactly when a word character follows. A chain starting with `[` matches exactly when digits and then `]` follow. Any other chain never matches. |
| PathQuery.WordRun | src/jfather.js:79 | `\w+` is greedy: the run is all word characters, and the character after it is not one. |
| PathQuery.DigitRun | src/jfather.js:79 | `\d+` is greedy: the run is all digits, and the character after it is not a digit. |
| PathQuery.Query | src/jfather.js:78-94 | The loop returns or throws exactly what the recursive reading `Queried` of the chain gives. |
| PathQuery.QueryFollowsSteps | src/jfather.js:78-94 | A chain written from well-formed `.name` and `[digits]` steps selects exactly what following those property reads one by one reaches, errors included. |
| PathQuery.QueryRejectsBadSegment | src/jfather.js:88-90 | A well-formed prefix followed by text that matches neither form throws `Invalid chain` with the whole chain. This covers a bare name at the start, a word character after an index step (`[0]foo`) and a stray `]` (`.foo]`). |
| PathQuery.InvalidChainNamesWholeChain | src/jfather.js:89 | An `Invalid chain` error always carries the chain `query` was called with, never the remainder. |
| PathQuery.QueryIndex | src/jfather.js:86-87 | `[n]`, with any number of digits, reads element `n` of an array. |
| PathQuery.TwoDigitIndex | test/unit/jfather.test.js:217-237 | `[11]` on a 13-element array reads the twelfth element. |
| PathQuery.NameThenIndex | test/unit/jfather.test.js:239-242 | `.foo[1]` on `{foo: ["bar", "baz"]}` is `"baz"`. |
| PathQuery.PropertyOfMissingMember | test/unit/jfather.test.js:249-272 | `.qux.quux` on `{foo: {bar: "baz"}}` throws because it reads `quux` of undefined. |
| PathQuery.RejectsUnsupportedChain | test/unit/jfather.test.js:274-279 | `.?foo` throws `Invalid chain: .?foo`. |
| PathQuery.BareNameIsInvalid | src/jfather.js:79-90 | Any chain that starts with neither `.` nor `[` throws `Invalid chain` with that chain, on any document. |
| KeyOrder.Dedup | src/jfather.js:109-112 | The iteration order of `new Set(keys)`: each key at its first occurrence. `KeyOrder.DedupMembers`, `DedupDistinct` and `DedupUnion` state its properties. |
| KeyOrder.DedupMembers | src/jfather.js:109-112 | `new Set(keys)` neither loses nor repeats a key. |
| KeyOrder.DedupDistinct | src/jfather.js:109-112 | On keys without repetitions, `new Set` keeps them all, in order. |
| KeyOrder.DedupUnion | src/jfather.js:109-112 | `new Set([...a, ...b])` iterates all of `a`, then the keys of `b` that `a` lacks, in order. |
| KeyOrder.WithoutMembers | src/jfather.js:109-112 | The new keys of the child are exactly those the parent lacks. |
| KeyOrder.NonDollarAppend | src/jfather.js:114-116 | Skipping `$` keys distributes over concatenation. |
| KeyOrder.NonDollarMembers | src/jfather.js:114-116 | A key survives the skip exactly when it does not start with `$`. |
| KeyOrder.NonDollarDistinct | src/jfather.js:114-116 | Skipping `$` keys keeps the key list free of repetitions. |
| KeyOrder.WithoutCovered | src/jfather.js:109-112 | When the parent has every key of the child, the child adds no new keys. |
| MergeEngine.DirectiveFor | src/jfather.js:133-139 | Only a key starting with `$` can be an element override of `key`; `MergeEngine.DirectiveForShape` gives the full shape. |
| MergeEngine.DirectiveForShape | src/jfather.js:133-139 | A key is an element override of `key` exactly when it is `$key[digits]` (digits possibly empty). Such a key appends when there are no digits and otherwise patches element `Number(digits)`. |
| MergeEngine.OverrideKeyParses | src/jfather.js:133-139 | Every key `$key[digits]` is read as that override: an append for `$key[]`, a patch of element `Number(digits)` otherwise. |
| MergeEngine.Spread | src/jfather.js:141-142 | `push(...v)` adds the elements of an array or the one-character strings of a string, and throws for every other value. |
| MergeEngine.Store | src/jfather.js:144-147 | `array[n] = v` sets element `n` and leaves every other element as it read before. Past the end, the array grows to `n + 1` and the gap reads as undefined. |
| MergeEngine.Merge | src/jfather.js:103-153 | The loop over the union of keys returns or throws exactly `Merged(parent, child)`. |
| MergeEngine.MergeMember | src/jfather.js:118-150 | One round stores the merge, or the clone of the side that has the key, and then patches an array value. The result is exactly `MergedValue`. |
| MergeEngine.PatchArray | src/jfather.js:137-149 | The loop over the child's override keys appends and patches in the child's key order, and stops at the first error. The result is exactly `ApplyDirectives`. |
| MergeEngine.MergeKeysFailure | src/jfather.js:108-128 | A round that throws ends the whole merge with that error. |
| MergeEngine.DirectivesFailure | src/jfather.js:140-149 | An override that throws ends the patching with that error. |
| MergeProperties.MergeNonObject | src/jfather.js:104-106 | When either side is not a plain object, the merge is the child itself, undefined included. |
| MergeProperties.MergeKeysFields | src/jfather.js:108-128 | The rounds store one member per key that does not start with `$`, in iteration order, each holding that key's merged value. |
| MergeProperties.DistinctKeysAgree | src/jfather.js:108-112 | An object has distinct member names exactly when its key list has no repetitions. |
| MergeProperties.MergedKeys | src/jfather.js:108-128 | The merge of two plain objects is an object with distinct keys. Its keys are the parent's non-`$` keys in order, then the child's new non-`$` keys in order. |
| MergeProperties.MergedKeySet | src/jfather.js:108-128 | A key is in the merge exactly when it is in either side and does not start with `$`. |
| MergeProperties.MergedMember | src/jfather.js:118-150 | Every member of the merge holds that key's merged value. |
| MergeProperties.MemberWithoutOverrides | src/jfather.js:118-128 | Without override keys, a key on both sides holds the merge of both values, and a key on one side holds that side's value. |
| MergeProperties.ChildScalarWins | src/jfather.js:118-121 | A child member that is neither a plain object nor an array replaces the parent's value. |
| MergeProperties.OverridesIgnoredOnNonArray | src/jfather.js:130-132 | Override keys do not touch a merged value that is not an array. |
| MergeProperties.NoOverridesKeepArray | src/jfather.js:137-149 | Without override keys for `key`, the array is left as it is. |
| MergeProperties.AppendsConcatenate | src/jfather.js:141-142 | `$key[]` members holding arrays append their elements in the child's key order. |
| MergeProperties.OverridesFrame | src/jfather.js:140-149 | Overrides never shorten the array, and an element that no `$key[j]` targets keeps its value. |
| MergeProperties.SinglePatch | src/jfather.js:143-147 | A single `$key[i]: v` override sets element `i` to `merge(old element, v)` and leaves the others. A merge that throws makes the patching throw. Past the end, the array grows to `i + 1` elements, the gap reads as undefined and element `i` is `v`. |
| MergeProperties.MemberWithOnePatch | src/jfather.js:130-147 | When the child's only override of `k` is `$k[i]: v` with `i` inside the array `xs` merged under `k`, the member is `xs` with element `i` replaced by `merge(xs[i], v)`. |
| MergeProperties.MergeIdempotent | test/unit/jfather.test.js:283-287 | Merging a document into itself gives it back, as long as no plain object that merge descends into has a `$` key. |
| MergeProperties.MergeKeysIdempotent | src/jfather.js:108-128 | Every round of a self-merge stores the member as it was. |
| MergeProperties.SelfMergeRound | src/jfather.js:118-128 | In a self-merge, the round for a key stores that key's own value, so the member is kept as it was. |
| MergeExamples.OverrideKeysParse | src/jfather.js:133-139 | `$k[]` is read as an append to `k` and `$k[i]` as a patch of element `i` of `k`; the two keys differ. |
| MergeExamples.MergeSharedAndNew | src/jfather.js:108-128 | Merging `{a, b}` with `{a, c}`, values taken whole: the child's value wins under `a`, `b` keeps the parent's, `c` is added, and the order is `a, b, c`. |
| MergeExamples.MergeTwoObjects | test/unit/jfather.test.js:314-324 | `{foo: "bar", baz: "qux"}` merged with `{foo: "quux", corge: "grault"}` is `{foo: "quux", baz: "qux", corge: "grault"}`. |
| MergeExamples.PatchThenAppend | src/jfather.js:130-150 | `$k[0]` replaces element 0 of `k`, `$k[]` appends its array's elements after the kept element 1, and neither override key is copied. |
| MergeExamples.MergeWithOverrides | test/unit/jfather.test.js:326-334 | `$foo[0]` patches element 0, `$foo[]` appends, and neither key is copied. |
| MergeExamples.AppendToNonArrayIgnored | src/jfather.js:130-132 | `$k[]` leaves a merged value that is not an array as it is. |
| MergeExamples.OverrideOfNonArrayIgnored | test/unit/jfather.test.js:336-339 | `$foo[]` is ignored when `foo` is not an array. |
| MergeExamples.AppendArrays | src/jfather.js:141-142 | `$k[]` holding an array appends its elements after those of `k`. |
| MergeExamples.PatchMergesElement | src/jfather.js:143-147 | `$k[0]: c` on `{k: [x0]}` gives `{k: [merge(x0, c)]}`. |
| MergeExamples.OverrideInsidePatch | test/readme.js:229-238 | `$foo[0]: {"$bar[]": ["b", "c"]}` on `{foo: [{bar: ["a"]}]}` gives `{foo: [{bar: ["a", "b", "c"]}]}`. |
| MergeExamples.AppendStringSpreads | src/jfather.js:141-142 | A string appended with `$k[]` adds its characters, one string each, after the array's elements. |
| MergeExamples.AppendNonIterableThrows | src/jfather.js:141-142 | Appending a value that is neither an array nor a string throws, and the whole merge fails. |
| MergeExamples.ConstructorKeyIsNotPlain | src/jfather.js:104-106 | A child with an own `constructor` member is not plain, so it replaces any parent whole. |
| Inheritance.ExtendsOf | src/jfather.js:163 | `obj?.$extends` is undefined for everything but an object, and an object's own member otherwise. |
| Inheritance.Inherit | src/jfather.js:162-169 | A node that is not an object, or that lacks `$extends`, is returned unchanged. |
| Inheritance.InheritedKeys | src/jfather.js:162-169 | The result never extends anything. An extending node loses `$extends` and its other `$` keys, and gets the ancestor's keys then its own new ones. |
| Inheritance.InheritSettles | src/jfather.js:162-169 | A second step on the result gives it back unchanged, whatever the ancestor. |
| Inheritance.NonObjectAncestor | src/jfather.js:168 | When the ancestor or the node is not a plain object, the node is returned whole, `$extends` included. |
| Inheritance.NodeScalarWins | src/jfather.js:168 | The node's scalar members win over the ancestor's. |
| Inheritance.AncestorMemberInherited | src/jfather.js:168 | A member only the ancestor has, with no override for it, is inherited unchanged. |

## Left out

- `walkAsync` (src/jfather.js:39-58) is left out because it is asynchronous. It does on promises what `walk` does on values.
- `transform`, `load` and `parse` (src/jfather.js:177-202) are left out. They fetch over the network, decode JSON text and run asynchronously. `load`'s fragment selection is `query`, which is modelled.
- `Inheritance.Inherit` takes the ancestor as a parameter. That the ancestor is itself transformed, and that `$extends` cycles never terminate, is not modelled.
- Numbers are integers. Floating point, `NaN`, infinities and number formatting are not modelled.
- Object keys keep insertion order. JavaScript enumerates integer-like keys first, in ascending order; that ordering is not modelled.
- Inherited properties are not modelled. `key in obj` and `obj[key]` see only own members, so `__proto__` and keys of `Object.prototype` such as `toString` behave as ordinary absent keys.
- `MergeEngine.DirectiveFor` compares the key literally. The code builds a regular expression from the key, in Unicode mode, whenever the key's merged value is an array. A key holding regular-expression metacharacters matches differently there (`a.b` also matches `$aXb[]`). A key such as `a(`, `a)`, `a]`, `a{` or `a\` is not a valid pattern, so `new RegExp` throws a `SyntaxError` and the whole merge throws, e.g. `merge({"a(": [1]}, {})`. The model returns a result there. Deciding which keys form a valid pattern would need a model of the regular-expression grammar.
- `MergeEngine.Store` does not model the array-index limit of 2^32 - 2 or the precision of `Number` for very long digit strings. A hole in an array is modelled as an element holding undefined.
- Strings are sequences of characters. UTF-16 code units, surrogate pairs and the Unicode-aware `\w` of non-ASCII text are not modelled.
- Non-mutation and aliasing of the arguments are not captured. Documents are values, so no input can change and no result can share structure with an input.
