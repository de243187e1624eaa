/** String scanning used by the event classes: `std::string::find` and the
    two delimiter splitters of src/Event.cc (`splitString`, `splitTuple`). */
module Text {
  import opened Common

  /** `npos`, the value `std::string::find` returns when nothing is found,
      on a platform with a 64-bit `size_t`. */
  const NPOS: int := TWO_64 - 1

  /** `d` occurs in `s` starting at position `j`. */
  predicate OccursAt(s: string, d: string, j: int) {
    0 <= j && j + |d| <= |s| && s[j..j + |d|] == d
  }

  /** First occurrence of `d` in `s` at or after `from`. */
  function FindFrom(s: string, d: string, from: nat): (r: Option<nat>)
    ensures r.Some? ==> from <= r.value && OccursAt(s, d, r.value)
    ensures r.Some? ==> forall j :: from <= j < r.value ==> !OccursAt(s, d, j)
    ensures r.None? ==> forall j :: from <= j ==> !OccursAt(s, d, j)
    decreases |s| - from
  {
    if from + |d| > |s| then None
    else if s[from..from + |d|] == d then Some(from)
    else FindFrom(s, d, from + 1)
  }

  /** `s.find(d)`: the first position where `d` occurs. */
  function Find(s: string, d: string): (r: Option<nat>)
    ensures r.Some? ==> OccursAt(s, d, r.value) && forall j :: 0 <= j < r.value ==> !OccursAt(s, d, j)
    ensures r.None? ==> forall j :: !OccursAt(s, d, j)
  {
    FindFrom(s, d, 0)
  }

  /** The pieces `Event::splitString` appends: the text between consecutive
      occurrences of `d`, leaving out empty pieces. */
  function Split(s: string, d: string): (r: seq<string>)
    requires |d| > 0
    decreases |s|
  {
    match Find(s, d)
    case None => if s == [] then [] else [s]
    case Some(k) => (if k > 0 then [s[..k]] else []) + Split(s[k + |d|..], d)
  }

  /** Event::splitString: appends the pieces of `str` to `results`. The
      delimiter must not be empty: with an empty one `find` always returns 0
      and the loop never ends. */
  method SplitString(str: string, delim: string, results: seq<string>) returns (out: seq<string>)
    requires |delim| > 0
    ensures out == results + Split(str, delim)
  {
    var s := str;
    out := results;
    var cutAt := Find(s, delim);
    while cutAt.Some?
      invariant cutAt == Find(s, delim)
      invariant out + Split(s, delim) == results + Split(str, delim)
      decreases |s|
    {
      var k := cutAt.value;
      SplitUnfold(s, delim, k);
      var rest := s[k + |delim|..];
      ghost var piece: seq<string> := if k > 0 then [s[..k]] else [];
      ConcatAssoc(out, piece, Split(rest, delim));
      if k > 0 {
        out := out + [s[..k]];
      }
      assert out + Split(rest, delim) == results + Split(str, delim);
      s := rest;
      cutAt := Find(s, delim);
    }
    if |s| > 0 {
      out := out + [s];
    }
  }

  lemma ConcatAssoc(a: seq<string>, b: seq<string>, c: seq<string>)
    ensures (a + b) + c == a + (b + c)
  {
  }

  lemma SplitUnfold(s: string, d: string, k: nat)
    requires |d| > 0 && Find(s, d) == Some(k)
    ensures k + |d| <= |s|
    ensures Split(s, d) == (if k > 0 then [s[..k]] else []) + Split(s[k + |d|..], d)
  {
  }

  /** A piece `Split` may return: non-empty and free of the delimiter. */
  ghost predicate Piece(p: string, d: string) {
    p != [] && forall j :: !OccursAt(p, d, j)
  }

  /** Each piece is non-empty and free of the delimiter. */
  lemma {:induction false} SplitPieces(s: string, d: string)
    requires |d| > 0
    ensures forall i :: 0 <= i < |Split(s, d)| ==> Piece(Split(s, d)[i], d)
    decreases |s|
  {
    match Find(s, d)
    case None =>
    case Some(k) =>
      var rest := s[k + |d|..];
      SplitUnfold(s, d, k);
      SplitPieces(rest, d);
      if k > 0 {
        var p := s[..k];
        forall j ensures !OccursAt(p, d, j) {
          if OccursAt(p, d, j) {
            assert p[j..j + |d|] == s[j..j + |d|];
            assert OccursAt(s, d, j);
          }
        }
        assert Piece(p, d);
        assert Split(s, d) == [p] + Split(rest, d);
      }
  }

  /** Pieces each followed by the delimiter, the form "~~" separates the
      tuples of a legacy message in. */
  function JoinTerminated(ps: seq<string>, d: string): (r: string)
    ensures |r| == SumLengths(ps) + |ps| * |d|
  {
    if ps == [] then [] else ps[0] + d + JoinTerminated(ps[1..], d)
  }

  function SumLengths(ps: seq<string>): nat {
    if ps == [] then 0 else |ps[0]| + SumLengths(ps[1..])
  }

  /** A piece that cannot start an occurrence of the delimiter anywhere. */
  predicate Clean(p: string, d: string)
    requires |d| > 0
  {
    p != [] && forall i :: 0 <= i < |p| ==> p[i] != d[0]
  }

  lemma FindAfterClean(p: string, d: string, rest: string)
    requires |d| > 0 && Clean(p, d)
    ensures Find(p + d + rest, d) == Some(|p|)
  {
    var s := p + d + rest;
    assert OccursAt(s, d, |p|) by { assert s[|p|..|p| + |d|] == d; }
    forall j | 0 <= j < |p| ensures !OccursAt(s, d, j) {
      assert s[j] == p[j];
    }
  }

  lemma FindInClean(p: string, d: string)
    requires |d| > 0 && Clean(p, d)
    ensures Find(p, d) == None
  {
    forall j ensures !OccursAt(p, d, j) {
      if 0 <= j && j + |d| <= |p| { assert p[j..j + |d|][0] == p[j]; }
    }
  }

  /** A clean piece followed by the delimiter is split off first. */
  lemma SplitCons(p: string, d: string, rest: string)
    requires |d| > 0 && Clean(p, d)
    ensures Split(p + d + rest, d) == [p] + Split(rest, d)
  {
    var s := p + d + rest;
    FindAfterClean(p, d, rest);
    assert s[..|p|] == p;
    assert s[|p| + |d|..] == rest;
    SplitUnfold(s, d, |p|);
  }

  /** Splitting delimiter-terminated clean pieces gives the pieces back. */
  lemma {:induction false} SplitJoinTerminated(ps: seq<string>, d: string)
    requires |d| > 0
    requires forall i :: 0 <= i < |ps| ==> Clean(ps[i], d)
    ensures Split(JoinTerminated(ps, d), d) == ps
  {
    if ps != [] {
      SplitCons(ps[0], d, JoinTerminated(ps[1..], d));
      SplitJoinTerminated(ps[1..], d);
    }
  }

  /** A tuple "a||b||c" of clean fields splits into exactly its fields. */
  lemma SplitThree(a: string, b: string, c: string, d: string)
    requires |d| > 0 && Clean(a, d) && Clean(b, d) && Clean(c, d)
    ensures Split(a + d + b + d + c, d) == [a, b, c]
  {
    assert a + d + b + d + c == a + d + (b + d + c);
    SplitCons(a, d, b + d + c);
    SplitCons(b, d, c);
    FindInClean(c, d);
  }

  /** "a||b||" of clean fields splits into the two fields. */
  lemma SplitTwoTerminated(a: string, b: string, d: string)
    requires |d| > 0 && Clean(a, d) && Clean(b, d)
    ensures Split(a + d + b + d, d) == [a, b]
  {
    assert a + d + b + d == a + d + (b + d + []);
    SplitCons(a, d, b + d + []);
    SplitCons(b, d, []);
  }

  // ------------------------------------------------------------ splitTuple

  /** `str.substr(0, cut)` for a cut position given as a `size_t`. */
  function Prefix(str: string, cut: int): (r: string)
    requires cut >= 0
    ensures |r| <= |str| && r == str[..|r|]
    ensures cut <= |str| ==> |r| == cut
  {
    if cut <= |str| then str[..cut] else str
  }

  /** The `size_t` position `find` returns. */
  function FindPosition(str: string, d: string): (cut: int)
    requires |str| < NPOS
    ensures 0 <= cut <= NPOS
    ensures cut == NPOS <==> Find(str, d).None?
  {
    match Find(str, d) case None => NPOS case Some(k) => assert k + |d| <= |str|; k
  }

  /** One step of splitTuple: the piece before the delimiter and what
      `str.substr(cutAt + delim_len)` leaves, computed with `size_t`
      wrap-around (`npos + 2` is 1). Fails as `substr` does when the start
      position is past the end. */
  function TupleStep(str: string, d: string): (r: Result<(string, string)>)
    requires |str| < NPOS && |d| < TWO_64
    ensures r.Success? ==> r.value.0 == Prefix(str, FindPosition(str, d))
    ensures Find(str, d).Some? ==> r.Success?
  {
    var cut := FindPosition(str, d);
    var next := (cut + |d|) % TWO_64;
    if next > |str| then Failure(OutOfRange)
    else Success((Prefix(str, cut), str[next..]))
  }

  /** Event::splitTuple: exactly three pieces, without checking that the
      delimiter occurs. */
  function SplitTuple(str: string, d: string): (r: Result<seq<string>>)
    requires |str| < NPOS && |d| < TWO_64
    ensures r.Success? ==> |r.value| == 3
  {
    var (p1, s2) :- TupleStep(str, d);
    var (p2, s3) :- TupleStep(s2, d);
    Success([p1, p2, Prefix(s3, FindPosition(s3, d))])
  }

  /** With both delimiters present the three pieces are the fields. */
  lemma SplitTupleOfFields(a: string, b: string, c: string, d: string)
    requires 0 < |d| && |a + d + b + d + c| < NPOS && Clean(a, d) && Clean(b, d) && Clean(c, d)
    ensures SplitTuple(a + d + b + d + c, d) == Success([a, b, c])
  {
    assert a + d + b + d + c == a + d + (b + d + c);
    TupleStepClean(a, d, b + d + c);
    TupleStepClean(b, d, c);
    FindInClean(c, d);
    assert Prefix(c, FindPosition(c, d)) == c;
  }

  /** A clean piece followed by the delimiter is cut off first. */
  lemma TupleStepClean(p: string, d: string, rest: string)
    requires 0 < |d| && |p + d + rest| < NPOS && Clean(p, d)
    ensures TupleStep(p + d + rest, d) == Success((p, rest))
  {
    var s := p + d + rest;
    FindAfterClean(p, d, rest);
    assert s[..|p|] == p && s[|p| + |d|..] == rest;
    TupleStepFound(s, d, |p|);
  }

  lemma TupleStepFound(str: string, d: string, k: nat)
    requires |str| < NPOS && |d| < TWO_64 && Find(str, d) == Some(k)
    ensures k + |d| <= |str|
    ensures TupleStep(str, d) == Success((str[..k], str[k + |d|..]))
  {
    assert FindPosition(str, d) == k;
    assert (k + |d|) % TWO_64 == k + |d|;
  }

  /** Without the two-character delimiter, `npos + 2` wraps to 1: the piece
      is the whole text and only its first character is cut. */
  lemma TupleStepMissing(str: string, d: string)
    requires 0 < |str| < NPOS && |d| == 2 && Find(str, d) == None
    ensures TupleStep(str, d) == Success((str, str[1..]))
  {
    assert FindPosition(str, d) == NPOS;
    assert (NPOS + |d|) % TWO_64 == 1;
  }

  /** Without a delimiter the `size_t` sum wraps to `delim_len - 1`, so
      "abc" yields three overlapping suffixes. */
  lemma SplitTupleWraps()
    ensures SplitTuple("abc", "||") == Success(["abc", "bc", "c"])
  {
    FindInClean("abc", "||");
    TupleStepMissing("abc", "||");
    assert "abc"[1..] == "bc";
    FindInClean("bc", "||");
    TupleStepMissing("bc", "||");
    assert "bc"[1..] == "c";
    FindInClean("c", "||");
    assert Prefix("c", FindPosition("c", "||")) == "c";
  }

  /** ... and a one-character text makes the second `substr` throw. */
  lemma SplitTupleThrows()
    ensures SplitTuple("a", "||") == Failure(OutOfRange)
  {
    FindInClean("a", "||");
    TupleStepMissing("a", "||");
    assert "a"[1..] == "";
    assert Find("", "||") == None;
    assert FindPosition("", "||") == NPOS;
    assert (NPOS + |"||"|) % TWO_64 == 1;
    assert TupleStep("", "||") == Failure(OutOfRange);
  }
}
