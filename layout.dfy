/** The dataset layout the inspection utility walks: a root folder holding
    subset folders, each holding class folders, each holding image files.
    The two ordered lists the utility walks it with are a configuration
    value passed to every operation instead of module-level constants. */
module Layout {

  datatype Option<T> = None | Some(value: T)

  /** The ordered class list and the ordered subset list. */
  datatype Config = Config(classes: seq<string>, subsets: seq<string>)

  /** The repository's configuration: two diagnostic classes, three splits. */
  const Default: Config := Config(["NORMAL", "PNEUMONIA"], ["train", "test", "val"])

  /** A dataset root on disk. `dirs` maps every subset folder that exists to
      the class folders that exist inside it, and each class folder to the
      names of its entries in directory-listing order. A key that is absent
      is a folder that does not exist. */
  datatype Tree = Tree(dirs: map<string, map<string, seq<string>>>)

  predicate ClassExists(t: Tree, s: string, c: string)
  {
    s in t.dirs && c in t.dirs[s]
  }

  /** The listing of folder `<root>/s/c`, or None when it does not exist. */
  function Listing(t: Tree, s: string, c: string): (r: Option<seq<string>>)
    ensures r.Some? <==> ClassExists(t, s, c)
  {
    if ClassExists(t, s, c) then Some(t.dirs[s][c]) else None
  }

  predicate Distinct<T(==)>(xs: seq<T>)
  {
    forall i, j :: 0 <= i < j < |xs| ==> xs[i] != xs[j]
  }

  function Min(a: int, b: int): int { if a <= b then a else b }

  function Max(a: int, b: int): int { if a >= b then a else b }

  /** The elements of `xs` that satisfy `p`, in their order in `xs`: a list
      comprehension with a condition. */
  function Filter<T>(p: T -> bool, xs: seq<T>): (r: seq<T>)
    ensures |r| <= |xs|
  {
    if |xs| == 0 then []
    else Filter(p, xs[..|xs| - 1]) + (if p(xs[|xs| - 1]) then [xs[|xs| - 1]] else [])
  }

  /** The positions of `xs` whose element satisfies `p`. */
  function Positions<T>(p: T -> bool, xs: seq<T>): set<int>
  {
    set i | 0 <= i < |xs| && p(xs[i])
  }

  /** A filter keeps one element per satisfying position. */
  lemma {:induction false} FilterLengthIsPositions<T>(p: T -> bool, xs: seq<T>)
    ensures |Filter(p, xs)| == |Positions(p, xs)|
  {
    if |xs| > 0 {
      var n := |xs| - 1;
      var init := xs[..n];
      FilterLengthIsPositions(p, init);
      assert Positions(p, xs) == Positions(p, init) + (if p(xs[n]) then {n} else {}) by {
        forall i | i in Positions(p, xs) && i < n ensures i in Positions(p, init) {
          assert init[i] == xs[i];
        }
        forall i | i in Positions(p, init) ensures i in Positions(p, xs) {
          assert init[i] == xs[i];
        }
      }
      assert n !in Positions(p, init);
    }
  }

  /** An element is kept exactly when it occurs in `xs` and satisfies `p`. */
  lemma {:induction false} FilterMembers<T>(p: T -> bool, xs: seq<T>, x: T)
    ensures x in Filter(p, xs) <==> x in xs && p(x)
  {
    if |xs| > 0 {
      var n := |xs| - 1;
      FilterMembers(p, xs[..n], x);
      assert xs == xs[..n] + [xs[n]];
    }
  }

  /** A kept element occurs as often as in `xs`; a dropped one not at all. */
  lemma {:induction false} FilterMultiplicity<T>(p: T -> bool, xs: seq<T>, x: T)
    ensures multiset(Filter(p, xs))[x] == if p(x) then multiset(xs)[x] else 0
  {
    if |xs| > 0 {
      var n := |xs| - 1;
      FilterMultiplicity(p, xs[..n], x);
      assert xs == xs[..n] + [xs[n]];
    }
  }

  /** A filter keeps everything exactly when every element satisfies `p`. */
  lemma {:induction false} FilterKeepsAllIff<T>(p: T -> bool, xs: seq<T>)
    ensures |Filter(p, xs)| == |xs| <==> forall i :: 0 <= i < |xs| ==> p(xs[i])
  {
    if |xs| > 0 {
      var n := |xs| - 1;
      FilterKeepsAllIff(p, xs[..n]);
      if |Filter(p, xs)| == |xs| {
        forall i | 0 <= i < |xs| ensures p(xs[i]) {
          if i < n { assert xs[..n][i] == xs[i]; }
        }
      }
      if forall i :: 0 <= i < |xs| ==> p(xs[i]) {
        assert forall i :: 0 <= i < n ==> p(xs[..n][i]);
      }
    }
  }

  /** Filtering distributes over concatenation. */
  lemma {:induction false} FilterConcat<T>(p: T -> bool, a: seq<T>, b: seq<T>)
    ensures Filter(p, a + b) == Filter(p, a) + Filter(p, b)
  {
    if |b| > 0 {
      var n := |b| - 1;
      FilterConcat(p, a, b[..n]);
      assert (a + b)[..|a + b| - 1] == a + b[..n];
    } else {
      assert a + b == a;
    }
  }

  /** Two filters whose conditions no element meets together keep at most
      as many elements as the list holds. */
  lemma {:induction false} FilterDisjointSum<T>(p: T -> bool, q: T -> bool, xs: seq<T>)
    requires forall x :: p(x) ==> !q(x)
    ensures |Filter(p, xs)| + |Filter(q, xs)| <= |xs|
  {
    if |xs| > 0 {
      FilterDisjointSum(p, q, xs[..|xs| - 1]);
    }
  }

  /** Concatenation is associative. */
  lemma ConcatAssoc<T>(a: seq<T>, b: seq<T>, c: seq<T>)
    ensures (a + b) + c == a + (b + c)
  {
  }
}
