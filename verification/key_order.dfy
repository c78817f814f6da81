/** Key sequences as `merge` iterates them: `new Set([...a, ...b])`
    keeps first occurrences in insertion order, and keys starting with
    `$` are skipped. */
module KeyOrder {

  predicate Distinct(s: seq<string>) {
    forall i, j :: 0 <= i < j < |s| ==> s[i] != s[j]
  }

  /** Iteration order of `new Set(s)`. */
  function Dedup(s: seq<string>): seq<string> {
    if s == [] then []
    else
      var d := Dedup(s[..|s| - 1]);
      if s[|s| - 1] in d then d else d + [s[|s| - 1]]
  }

  /** The elements of `b` that do not occur in `a`, in order. */
  function Without(b: seq<string>, a: seq<string>): seq<string> {
    if b == [] then []
    else Without(b[..|b| - 1], a) + (if b[|b| - 1] in a then [] else [b[|b| - 1]])
  }

  predicate StartsWithDollar(k: string) {
    |k| > 0 && k[0] == '$'
  }

  /** The keys of `s` that do not start with `$`, in order. */
  function NonDollar(s: seq<string>): seq<string> {
    if s == [] then []
    else NonDollar(s[..|s| - 1]) + (if StartsWithDollar(s[|s| - 1]) then [] else [s[|s| - 1]])
  }

  /** `new Set` neither loses nor repeats an element. */
  lemma {:induction false} DedupMembers(s: seq<string>)
    ensures Distinct(Dedup(s))
    ensures forall x :: x in Dedup(s) <==> x in s
  {
    if s != [] {
      var init := s[..|s| - 1];
      DedupMembers(init);
      assert s == init + [s[|s| - 1]];
    }
  }

  /** On a sequence without repetitions `new Set` keeps everything in place. */
  lemma {:induction false} DedupDistinct(s: seq<string>)
    requires Distinct(s)
    ensures Dedup(s) == s
  {
    if s != [] {
      var init := s[..|s| - 1];
      DedupDistinct(init);
      assert s[|s| - 1] !in init;
      assert s == init + [s[|s| - 1]];
    }
  }

  /** `new Set([...a, ...b])` for key lists without repetitions: all of
      `a`, then the keys of `b` that `a` lacks. */
  lemma {:induction false} DedupUnion(a: seq<string>, b: seq<string>)
    requires Distinct(a) && Distinct(b)
    ensures Dedup(a + b) == a + Without(b, a)
  {
    if b == [] {
      assert a + b == a;
      DedupDistinct(a);
    } else {
      var init := b[..|b| - 1];
      var x := b[|b| - 1];
      DedupUnion(a, init);
      assert a + b == (a + init) + [x];
      assert (a + b)[..|a + b| - 1] == a + init;
      WithoutMembers(init, a);
      assert x !in init;
    }
  }

  lemma {:induction false} WithoutMembers(b: seq<string>, a: seq<string>)
    ensures forall x :: x in Without(b, a) <==> x in b && x !in a
  {
    if b != [] {
      var init := b[..|b| - 1];
      WithoutMembers(init, a);
      assert b == init + [b[|b| - 1]];
    }
  }

  /** Skipping `$` keys distributes over concatenation. */
  lemma {:induction false} NonDollarAppend(a: seq<string>, b: seq<string>)
    ensures NonDollar(a + b) == NonDollar(a) + NonDollar(b)
  {
    if b == [] {
      assert a + b == a;
    } else {
      var init := b[..|b| - 1];
      NonDollarAppend(a, init);
      assert (a + b)[..|a + b| - 1] == a + init;
    }
  }

  lemma {:induction false} NonDollarMembers(s: seq<string>)
    ensures forall x :: x in NonDollar(s) <==> x in s && !StartsWithDollar(x)
  {
    if s != [] {
      NonDollarMembers(s[..|s| - 1]);
      assert s == s[..|s| - 1] + [s[|s| - 1]];
    }
  }

  lemma {:induction false} NonDollarDistinct(s: seq<string>)
    requires Distinct(s)
    ensures Distinct(NonDollar(s))
  {
    if s != [] {
      var init := s[..|s| - 1];
      NonDollarDistinct(init);
      NonDollarMembers(init);
      assert s[|s| - 1] !in init;
    }
  }

  /** Nothing of `b` is new when `a` already has all of it. */
  lemma {:induction false} WithoutCovered(b: seq<string>, a: seq<string>)
    requires forall x :: x in b ==> x in a
    ensures Without(b, a) == []
  {
    if b != [] {
      assert b[|b| - 1] in b;
      WithoutCovered(b[..|b| - 1], a);
    }
  }
}
