/** `std::set<std::string>`, which the event classes use for their keyword
    lists: kept as a sequence in ascending order of `std::string`'s `<`, so
    iterating over it is walking the sequence. */
module StringSets {

  /** `std::string` ordering: lexicographic on character codes, a proper
      prefix first. */
  predicate Less(a: string, b: string)
    decreases |a|
  {
    if a == [] then b != []
    else if b == [] then false
    else if a[0] != b[0] then a[0] < b[0]
    else Less(a[1..], b[1..])
  }

  lemma {:induction false} LessIrreflexive(a: string)
    ensures !Less(a, a)
    decreases |a|
  {
    if a != [] { LessIrreflexive(a[1..]); }
  }

  lemma {:induction false} LessTransitive(a: string, b: string, c: string)
    requires Less(a, b) && Less(b, c)
    ensures Less(a, c)
    decreases |a|
  {
    if a != [] && b != [] && c != [] && a[0] == b[0] && b[0] == c[0] {
      LessTransitive(a[1..], b[1..], c[1..]);
    }
  }

  lemma {:induction false} LessTotal(a: string, b: string)
    requires a != b
    ensures Less(a, b) || Less(b, a)
    decreases |a|
  {
    if a != [] && b != [] && a[0] == b[0] {
      LessTotal(a[1..], b[1..]);
    }
  }

  /** Each element is smaller than the next. */
  predicate Ascending(s: seq<string>) {
    forall i :: 0 <= i < |s| - 1 ==> Less(s[i], s[i + 1])
  }

  /** Ascending sequences are strictly ordered throughout, hence hold no
      element twice. */
  lemma {:induction false} AscendingOrdered(s: seq<string>, i: nat, j: nat)
    requires Ascending(s) && i < j < |s|
    ensures Less(s[i], s[j]) && s[i] != s[j]
    decreases j - i
  {
    if j > i + 1 {
      AscendingOrdered(s, i + 1, j);
      LessTransitive(s[i], s[i + 1], s[j]);
    }
    if s[i] == s[j] { LessIrreflexive(s[i]); }
  }

  /** `insert(x)`: adds `x` at its place unless it is already there. */
  function Insert(s: seq<string>, x: string): (r: seq<string>)
    ensures |r| <= |s| + 1
    decreases |s|
  {
    if s == [] then [x]
    else if x == s[0] then s
    else if Less(x, s[0]) then [x] + s
    else [s[0]] + Insert(s[1..], x)
  }

  /** Inserting into an ascending sequence keeps it ascending, adds exactly
      `x` and leaves it alone when `x` is there already. */
  lemma {:induction false} InsertFacts(s: seq<string>, x: string)
    requires Ascending(s)
    ensures Ascending(Insert(s, x))
    ensures forall y :: y in Insert(s, x) <==> y in s || y == x
    ensures x in s ==> Insert(s, x) == s
    ensures x !in s ==> |Insert(s, x)| == |s| + 1
    ensures Insert(s, x)[0] == x || (s != [] && Insert(s, x)[0] == s[0])
    decreases |s|
  {
    if s == [] || x == s[0] {
    } else if Less(x, s[0]) {
      assert x !in s by {
        forall k | 0 <= k < |s| ensures s[k] != x {
          if k > 0 { AscendingOrdered(s, 0, k); LessTransitive(x, s[0], s[k]); LessIrreflexive(x); }
        }
      }
    } else {
      LessTotal(x, s[0]);
      InsertFacts(s[1..], x);
    }
  }

  /** Inserting the names one after another, as `_init` does. */
  function InsertAll(s: seq<string>, xs: seq<string>): (r: seq<string>)
    ensures |r| <= |s| + |xs|
    decreases |xs|
  {
    if xs == [] then s else InsertAll(Insert(s, xs[0]), xs[1..])
  }

  /** Into an ascending sequence, the result is ascending and holds exactly
      the old members and the new names. */
  lemma {:induction false} InsertAllFacts(s: seq<string>, xs: seq<string>)
    requires Ascending(s)
    ensures Ascending(InsertAll(s, xs))
    ensures forall y :: y in InsertAll(s, xs) <==> y in s || y in xs
    decreases |xs|
  {
    if xs != [] {
      InsertFacts(s, xs[0]);
      InsertAllFacts(Insert(s, xs[0]), xs[1..]);
    }
  }
}
