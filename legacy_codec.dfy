/** The text the legacy transmitter and receiver of src/events/Events.cc
    exchange a DataProperty tree in. Every tuple is `type||name||value`
    followed by `~~`. A node's tuple carries the number of its direct
    children and is followed by their tuples, depth first. */
module LegacyCodec {
  import opened Common
  import opened Text

  const TUPLE_END: string := "~~"
  const FIELD_SEP: string := "||"

  /** The `boost::any` a DataProperty holds, for the types the codec
      handles. `AOther` is a value of any other type, and also the empty
      value `unmarshall` stores for a tag it does not know. Floating-point
      values are not modelled. */
  datatype Any = AInt(i: int) | ALong(l: int) | ABool(b: bool) | AString(s: string) | AOther

  /** A DataProperty: a named value, or a named node with ordered children. */
  datatype Property = Leaf(name: string, value: Any) | Node(name: string, children: seq<Property>)

  /** `getValue()`: a node holds a container, which no comparison accepts. */
  function ValueOf(p: Property): Any { if p.Leaf? then p.value else AOther }

  // ---------------------------------------------------------------- writing

  function Tuple(tag: string, name: string, text: string): string {
    tag + FIELD_SEP + name + FIELD_SEP + text
  }

  /** The type tag `encode` writes for a value. */
  function TagOf(v: Any): string {
    match v
    case AInt(_) => "int"
    case ALong(_) => "long long"
    case ABool(_) => "bool"
    case AString(_) => "string"
    case AOther => ""
  }

  /** What `operator<<` prints for the value; a `bool` prints as 1 or 0. */
  function TextOf(v: Any): string {
    match v
    case AInt(i) => Decimal(i)
    case ALong(l) => Decimal(l)
    case ABool(b) => if b then "1" else "0"
    case AString(s) => s
    case AOther => ""
  }

  /** `encode`: one terminated tuple for a value of a handled type, and the
      empty string for a value of any other type. */
  function Encode(p: Property): (r: string)
    ensures p.Node? ==> r == ""
    ensures p.Leaf? ==> r == JoinTerminated(Lines(Rows(p)), TUPLE_END)
  {
    if p.Node? || p.value.AOther? then ""
    else Tuple(TagOf(p.value), p.name, TextOf(p.value)) + TUPLE_END
  }

  /** What `marshall` returns: a leaf is encoded; a node writes its header
      tuple, holding its number of children, then each child in order. */
  function MarshallText(p: Property): string
    decreases p
  {
    match p
    case Leaf(_, _) => Encode(p)
    case Node(name, cs) => Tuple("node", name, Decimal(|cs|)) + TUPLE_END + MarshallAll(cs)
  }

  function MarshallAll(cs: seq<Property>): string
    decreases cs
  {
    if cs == [] then "" else MarshallText(cs[0]) + MarshallAll(cs[1..])
  }

  /** The children's texts are written one after the other. */
  lemma {:induction false} MarshallAllAppend(a: seq<Property>, b: seq<Property>)
    ensures MarshallAll(a + b) == MarshallAll(a) + MarshallAll(b)
    decreases |a|
  {
    if a == [] {
      assert a + b == b;
    } else {
      assert (a + b)[0] == a[0] && (a + b)[1..] == a[1..] + b;
      MarshallAllAppend(a[1..], b);
      var t, r, s := MarshallText(a[0]), MarshallAll(a[1..]), MarshallAll(b);
      assert t + (r + s) == (t + r) + s;
    }
  }

  lemma MarshallAllSnoc(cs: seq<Property>, i: nat)
    requires i < |cs|
    ensures MarshallAll(cs[..i + 1]) == MarshallAll(cs[..i]) + MarshallText(cs[i])
  {
    assert cs[..i + 1] == cs[..i] + [cs[i]];
    MarshallAllAppend(cs[..i], [cs[i]]);
    assert [cs[i]][1..] == [];
  }

  /** What `marshall` leaves in `*nTuples`: one per direct child of a node,
      one for a leaf. */
  function TupleCount(p: Property): nat {
    if p.Node? then |p.children| else 1
  }

  /** EventTransmitter::marshall: the children are encoded in order into one
      buffer while the tuple count is bumped once per child; the header
      is written last, in front of the buffer. */
  method Marshall(p: Property) returns (text: string, nTuples: int)
    ensures text == MarshallText(p)
    ensures nTuples == TupleCount(p)
    decreases p
  {
    nTuples := 0;
    if p.Node? {
      var buffer := "";
      var i := 0;
      while i < |p.children|
        invariant 0 <= i <= |p.children|
        invariant nTuples == i
        invariant buffer == MarshallAll(p.children[..i])
      {
        var c := p.children[i];
        MarshallAllSnoc(p.children, i);
        if c.Node? {
          var encoded, _ := Marshall(c);
          buffer := buffer + encoded;
        } else {
          buffer := buffer + Encode(c);
        }
        nTuples := nTuples + 1;
        i := i + 1;
      }
      assert p.children[..i] == p.children;
      text := Tuple("node", p.name, Decimal(nTuples)) + TUPLE_END + buffer;
    } else {
      text := Encode(p);
      nTuples := nTuples + 1;
    }
  }

  // ---------------------------------------------------------------- reading

  /** `istringstream >> x` for the tag named in the tuple. Floating-point
      tags are not modelled; an unknown tag stores an empty value. */
  function ParseValue(tag: string, text: string): Result<Any>
  {
    if tag == "int" then Success(AInt(StreamInteger(text, INT32_MIN, INT32_MAX)))
    else if tag == "bool" then Success(ABool(StreamBool(text)))
    else if tag == "long long" then Success(ALong(StreamInteger(text, INT64_MIN, INT64_MAX)))
    else if tag == "float" || tag == "double" then Failure(Unmodelled("floating-point value"))
    else if tag == "string" then Success(AString(text))
    else Success(AOther)
  }

  /** What a value parses to: only the floating-point tags fail; a parsed
      value carries the tag it was read under, unless the tag is none of the
      handled ones; integers stay in the range of their C++ type; a string
      is the text itself. */
  lemma ParseValueShape(tag: string, text: string)
    ensures ParseValue(tag, text).Failure? <==> tag == "float" || tag == "double"
    ensures ParseValue(tag, text).Success? ==> ParseValue(tag, text).value.AOther? || TagOf(ParseValue(tag, text).value) == tag
    ensures ParseValue(tag, text).Success? && ParseValue(tag, text).value.AOther? ==> tag !in ["int", "bool", "long long", "string"]
    ensures ParseValue(tag, text).Success? && ParseValue(tag, text).value.AInt? ==>
      INT32_MIN <= ParseValue(tag, text).value.i <= INT32_MAX
    ensures ParseValue(tag, text).Success? && ParseValue(tag, text).value.ALong? ==>
      INT64_MIN <= ParseValue(tag, text).value.l <= INT64_MAX
    ensures tag == "string" ==> ParseValue(tag, text) == Success(AString(text))
  {
  }

  /** The tuples left from `pos` on, the measure the cursor decreases. */
  function Remaining(n: nat, pos: nat): nat {
    if pos < n then n - pos else 0
  }

  /** The fields of every tuple, as `splitString(vec[i], "||")` returns
      them. Splitting has no effect, so reading tuple `i`'s fields from this
      table is splitting it when the cursor reaches it. */
  function FieldTable(vec: seq<string>): (tbl: seq<seq<string>>)
    ensures |tbl| == |vec|
    ensures forall i :: 0 <= i < |vec| ==> tbl[i] == Split(vec[i], FIELD_SEP)
  {
    if vec == [] then [] else [Split(vec[0], FIELD_SEP)] + FieldTable(vec[1..])
  }

  /** Appends `acc` in front of the children a successful parse found. */
  function Then(acc: seq<Property>, r: Result<(seq<Property>, nat)>): Result<(seq<Property>, nat)> {
    match r
    case Failure(e) => Failure(e)
    case Success(x) => Success((acc + x.0, x.1))
  }

  /** One pass of the loop body of the recursive `unmarshall`: the tuple at
      `pos` is split on "||"; `vec.at` and `vec2.at` throw out_of_range when
      the tuple or one of its three fields is missing. A node reads as many
      children as its value says, depth first, from the next tuple on.
      `tbl` holds the fields of every tuple (FieldTable). */
  function ParseOne(tbl: seq<seq<string>>, pos: nat): (r: Result<(Property, nat)>)
    ensures r.Success? ==> pos < r.value.1 <= |tbl|
    decreases Remaining(|tbl|, pos), 0
  {
    if pos >= |tbl| then Failure(OutOfRange)
    else
      var f := tbl[pos];
      if |f| < 3 then Failure(OutOfRange)
      else if f[0] == "node" then
        var sub :- ParseList(StreamInteger(f[2], INT32_MIN, INT32_MAX), tbl, pos + 1);
        Success((Node(f[1], sub.0), sub.1))
      else
        var v :- ParseValue(f[0], f[2]);
        Success((Leaf(f[1], v), pos + 1))
  }

  /** The recursive `unmarshall(nTuples, root, vec, pos)`: `count` tuples
      in a row, each with everything below it. */
  function ParseList(count: int, tbl: seq<seq<string>>, pos: nat): (r: Result<(seq<Property>, nat)>)
    ensures r.Success? ==> pos <= r.value.1 && (r.value.1 <= |tbl| || r.value.1 == pos)
    ensures r.Success? ==> |r.value.0| == (if count > 0 then count else 0)
    decreases Remaining(|tbl|, pos), 1
  {
    if count <= 0 then Success(([], pos))
    else
      var first :- ParseOne(tbl, pos);
      Then([first.0], ParseList(count - 1, tbl, first.1))
  }

  /** `unmarshall(nTuples, text)`: the first tuple only names the root,
      which is always a node whatever its type; the children are then read
      as the `nTuples` of the message, not the count in the first tuple,
      says. The text is split with the corrected splitter. */
  function Unmarshall(nTuples: int, text: string): (r: Result<Property>)
    ensures r.Success? ==> r.value.Node? && |r.value.children| == (if nTuples > 0 then nTuples else 0)
    ensures Split(text, TUPLE_END) == [] ==> r == Failure(OutOfRange)
  {
    var vec := Split(text, TUPLE_END);
    if |vec| == 0 then Failure(OutOfRange)
    else
      var tbl := FieldTable(vec);
      var f := tbl[0];
      if |f| < 3 then Failure(OutOfRange)
      else
        var res :- ParseList(nTuples, tbl, 1);
        Success(Node(f[1], res.0))
  }

  /** What one tuple decodes to: a short or missing tuple is out of range;
      otherwise the key is the second field, the tag "node" alone makes a
      node, and any other tag is parsed as a leaf value from the third field. */
  lemma ParseOneShape(tbl: seq<seq<string>>, pos: nat)
    ensures pos >= |tbl| || |tbl[pos]| < 3 ==> ParseOne(tbl, pos) == Failure(OutOfRange)
    ensures ParseOne(tbl, pos).Success? ==> |tbl[pos]| >= 3 && ParseOne(tbl, pos).value.0.name == tbl[pos][1]
    ensures ParseOne(tbl, pos).Success? ==> (ParseOne(tbl, pos).value.0.Node? <==> tbl[pos][0] == "node")
    ensures ParseOne(tbl, pos).Success? && ParseOne(tbl, pos).value.0.Leaf? ==>
      ParseOne(tbl, pos).value.1 == pos + 1 && ParseValue(tbl[pos][0], tbl[pos][2]) == Success(ParseOne(tbl, pos).value.0.value)
  {
  }

  lemma ThenThen(a: seq<Property>, b: seq<Property>, r: Result<(seq<Property>, nat)>)
    ensures Then(a, Then(b, r)) == Then(a + b, r)
  {
    if r.Success? { assert a + (b + r.value.0) == (a + b) + r.value.0; }
  }

  /** ParseList takes one tuple, then the rest. */
  lemma OneStep(n: int, tbl: seq<seq<string>>, pos: nat, c: Property, mid: nat)
    requires n > 0 && ParseOne(tbl, pos) == Success((c, mid))
    ensures ParseList(n, tbl, pos) == Then([c], ParseList(n - 1, tbl, mid))
  {
  }

  /** One pass of the loop of the recursive `unmarshall`: the tuple at the
      cursor, and for a node everything below it. */
  method UnmarshallOne(vec: seq<string>, pos: nat) returns (r: Result<(Property, nat)>)
    ensures r == ParseOne(FieldTable(vec), pos)
    decreases Remaining(|vec|, pos), 0
  {
    if pos >= |vec| {
      return Failure(OutOfRange);
    }
    var fields := SplitString(vec[pos], FIELD_SEP, []);
    assert fields == FieldTable(vec)[pos];
    if |fields| < 3 {
      return Failure(OutOfRange);
    }
    var tag, key, val := fields[0], fields[1], fields[2];
    if tag == "node" {
      var count := StreamInteger(val, INT32_MIN, INT32_MAX);
      var sub := UnmarshallChildren(count, vec, pos + 1);
      if sub.Failure? {
        return Failure(sub.error);
      }
      r := Success((Node(key, sub.value.0), sub.value.1));
    } else {
      var v := ParseValue(tag, val);
      if v.Failure? {
        return Failure(v.error);
      }
      r := Success((Leaf(key, v.value), pos + 1));
    }
  }

  /** The recursive `unmarshall` with its by-reference cursor: `nTuples`
      passes, each adding one child and advancing the cursor, which comes
      back as the second component. */
  method UnmarshallChildren(nTuples: int, vec: seq<string>, pos0: nat) returns (r: Result<(seq<Property>, nat)>)
    ensures r == ParseList(nTuples, FieldTable(vec), pos0)
    decreases Remaining(|vec|, pos0), 1
  {
    ghost var tbl := FieldTable(vec);
    var children: seq<Property> := [];
    var pos := pos0;
    var i := 0;
    assert Then([], ParseList(nTuples, tbl, pos)) == ParseList(nTuples, tbl, pos) by {
      var x := ParseList(nTuples, tbl, pos);
      if x.Success? { assert [] + x.value.0 == x.value.0; }
    }
    while i < nTuples
      invariant pos0 <= pos
      invariant ParseList(nTuples, tbl, pos0) == Then(children, ParseList(nTuples - i, tbl, pos))
      decreases nTuples - i
    {
      var one := UnmarshallOne(vec, pos);
      if one.Failure? {
        return Failure(one.error);
      }
      var (child, next) := one.value;
      OneStep(nTuples - i, tbl, pos, child, next);
      ThenThen(children, [child], ParseList(nTuples - i - 1, tbl, next));
      children := children + [child];
      pos := next;
      i := i + 1;
    }
    assert children + [] == children;
    r := Success((children, pos));
  }

  /** EventReceiver::unmarshall(nTuples, text), with the corrected splitter. */
  method UnmarshallText(nTuples: int, text: string) returns (r: Result<Property>)
    ensures r == Unmarshall(nTuples, text)
  {
    var vec := SplitString(text, TUPLE_END, []);
    assert vec == Split(text, TUPLE_END);
    if |vec| == 0 {
      return Failure(OutOfRange);
    }
    var fields := SplitString(vec[0], FIELD_SEP, []);
    assert fields == FieldTable(vec)[0];
    if |fields| < 3 {
      return Failure(OutOfRange);
    }
    var res := UnmarshallChildren(nTuples, vec, 1);
    if res.Failure? {
      return Failure(res.error);
    }
    r := Success(Node(fields[1], res.value.0));
  }

  // ------------------------------------------------- the splitter as written

  /** EventReceiver::splitString as written. `cutAt` is an `unsigned int`,
      which holds only the low 32 bits of the 64-bit `size_t` that `find`
      returns. `npos` becomes 2^32 - 1, so the loop test against the 64-bit
      `npos` never fails. When the delimiter is missing, the whole rest is
      appended and `cutAt + delim_len`, wrapping in 32 bits, cuts only
      `delim_len - 1` characters. The text shrinks until `substr` is asked
      for a start past its end and throws. */
  method SplitStringAsWritten(str: string, delim: string, results: seq<string>) returns (r: Result<seq<string>>)
    requires 2 <= |delim| < TWO_32 && |str| < TWO_32
    ensures r == Failure(OutOfRange)
  {
    var s := str;
    var out := results;
    while FindPosition(s, delim) % TWO_32 != NPOS
      invariant |s| <= |str|
      decreases |s|
    {
      var cutAt := FindPosition(s, delim) % TWO_32;
      if cutAt > 0 {
        out := out + [Prefix(s, cutAt)];
      }
      var next := (cutAt + |delim|) % TWO_32;
      if next > |s| {
        return Failure(OutOfRange);
      }
      assert next > 0 by {
        match Find(s, delim)
        case Some(k) =>
          assert FindPosition(s, delim) == k;
          assert k + |delim| <= |s| < TWO_32;
        case None =>
          assert cutAt == TWO_32 - 1 by { assert FindPosition(s, delim) == NPOS; }
          assert cutAt + |delim| == TWO_32 + (|delim| - 1);
      }
      s := s[next..];
    }
    // The loop test holds for every value of an unsigned int.
    assert false;
  }

  /** `unmarshall(nTuples, text)` as written: the first split already
      throws, so no message is ever decoded on a platform with a 64-bit
      `size_t`. */
  method UnmarshallAsWritten(nTuples: int, text: string) returns (r: Result<Property>)
    requires |text| < TWO_32
    ensures r == Failure(OutOfRange)
  {
    var vec := SplitStringAsWritten(text, TUPLE_END, []);
    if vec.Failure? {
      return Failure(vec.error);
    }
    r := Failure(OutOfRange);
  }

  // ------------------------------------------------------------- round trip

  /** Text a field can hold: non-empty and free of '|' and '~'. */
  predicate Plain(s: string) {
    s != [] && forall i :: 0 <= i < |s| ==> s[i] != '|' && s[i] != '~'
  }

  /** The trees the codec round-trips: plain names, values of the four
      handled types within their C++ ranges and, for strings, plain text. */
  predicate WellFormed(p: Property)
    decreases p
  {
    Plain(p.name) &&
    match p
    case Leaf(_, v) =>
      (match v
       case AInt(i) => IsInt32(i)
       case ALong(l) => IsInt64(l)
       case ABool(_) => true
       case AString(s) => Plain(s)
       case AOther => false)
    case Node(_, cs) => |cs| <= INT32_MAX && AllWellFormed(cs)
  }

  predicate AllWellFormed(cs: seq<Property>)
    decreases cs
  {
    cs == [] || (WellFormed(cs[0]) && AllWellFormed(cs[1..]))
  }

  /** The three fields of one tuple. */
  datatype Row = Row(tag: string, name: string, text: string)

  function Line(r: Row): string { Tuple(r.tag, r.name, r.text) }

  function Lines(rs: seq<Row>): (ls: seq<string>)
    ensures |ls| == |rs|
    ensures forall i :: 0 <= i < |rs| ==> ls[i] == Line(rs[i])
  {
    if rs == [] then [] else [Line(rs[0])] + Lines(rs[1..])
  }

  /** The tuples `marshall` writes for a tree, as their fields, depth first. */
  function Rows(p: Property): seq<Row>
    decreases p
  {
    match p
    case Leaf(name, v) => if v.AOther? then [] else [Row(TagOf(v), name, TextOf(v))]
    case Node(name, cs) => [Row("node", name, Decimal(|cs|))] + RowsAll(cs)
  }

  function RowsAll(cs: seq<Property>): seq<Row>
    decreases cs
  {
    if cs == [] then [] else Rows(cs[0]) + RowsAll(cs[1..])
  }

  lemma {:induction false} JoinConcat(a: seq<string>, b: seq<string>, d: string)
    ensures JoinTerminated(a + b, d) == JoinTerminated(a, d) + JoinTerminated(b, d)
  {
    if a != [] {
      assert (a + b)[1..] == a[1..] + b;
      JoinConcat(a[1..], b, d);
    } else {
      assert a + b == b;
    }
  }

  lemma LinesConcat(a: seq<Row>, b: seq<Row>)
    ensures Lines(a + b) == Lines(a) + Lines(b)
  {
  }

  /** The marshalled text is the tuples, each followed by "~~". */
  lemma {:induction false} MarshallLines(p: Property)
    ensures MarshallText(p) == JoinTerminated(Lines(Rows(p)), TUPLE_END)
    decreases p
  {
    match p
    case Leaf(_, _) =>
    case Node(name, cs) =>
      var h := Row("node", name, Decimal(|cs|));
      MarshallAllLines(cs);
      LinesConcat([h], RowsAll(cs));
      JoinConcat([Line(h)], Lines(RowsAll(cs)), TUPLE_END);
  }

  lemma {:induction false} MarshallAllLines(cs: seq<Property>)
    ensures MarshallAll(cs) == JoinTerminated(Lines(RowsAll(cs)), TUPLE_END)
    decreases cs
  {
    if cs != [] {
      MarshallLines(cs[0]);
      MarshallAllLines(cs[1..]);
      LinesConcat(Rows(cs[0]), RowsAll(cs[1..]));
      JoinConcat(Lines(Rows(cs[0])), Lines(RowsAll(cs[1..])), TUPLE_END);
    }
  }

  predicate Avoids(s: string, c: char) {
    forall i :: 0 <= i < |s| ==> s[i] != c
  }

  lemma AvoidsTuple(tag: string, name: string, text: string, c: char)
    requires c != '|' && Avoids(tag, c) && Avoids(name, c) && Avoids(text, c)
    ensures Avoids(Tuple(tag, name, text), c)
  {
    var s := Tuple(tag, name, text);
    forall i | 0 <= i < |s| ensures s[i] != c {
      if i < |tag| { assert s[i] == tag[i]; }
      else if i < |tag| + 2 { assert s[i] == '|'; }
      else if i < |tag| + 2 + |name| { assert s[i] == name[i - |tag| - 2]; }
      else if i < |tag| + 4 + |name| { assert s[i] == '|'; }
      else { assert s[i] == text[i - |tag| - 4 - |name|]; }
    }
  }

  lemma PlainDecimal(i: int)
    ensures Plain(Decimal(i))
  {
    DecimalHasNoChar(i, '|');
    DecimalHasNoChar(i, '~');
  }

  /** The tag and text of a handled value are plain. */
  lemma PlainFields(v: Any)
    requires !v.AOther? && (v.AString? ==> Plain(v.s))
    ensures Plain(TagOf(v)) && Plain(TextOf(v))
  {
    match v
    case AInt(i) => PlainDecimal(i);
    case ALong(l) => PlainDecimal(l);
    case ABool(_) =>
    case AString(_) =>
  }

  predicate PlainRow(r: Row) { Plain(r.tag) && Plain(r.name) && Plain(r.text) }

  /** A tuple of plain fields contains no '~' and splits into its fields. */
  lemma TupleFacts(r: Row)
    requires PlainRow(r)
    ensures Clean(Line(r), TUPLE_END)
    ensures Split(Line(r), FIELD_SEP) == [r.tag, r.name, r.text]
  {
    AvoidsTuple(r.tag, r.name, r.text, '~');
    SplitThree(r.tag, r.name, r.text, FIELD_SEP);
  }

  /** Every row of a well-formed tree has plain fields. */
  lemma {:induction false} RowsPlain(p: Property)
    requires WellFormed(p)
    ensures forall i :: 0 <= i < |Rows(p)| ==> PlainRow(Rows(p)[i])
    decreases p
  {
    match p
    case Leaf(name, v) =>
      PlainFields(v);
    case Node(name, cs) =>
      PlainDecimal(|cs|);
      RowsAllPlain(cs);
  }

  lemma {:induction false} RowsAllPlain(cs: seq<Property>)
    requires AllWellFormed(cs)
    ensures forall i :: 0 <= i < |RowsAll(cs)| ==> PlainRow(RowsAll(cs)[i])
    decreases cs
  {
    if cs != [] {
      RowsPlain(cs[0]);
      RowsAllPlain(cs[1..]);
      var a, b := Rows(cs[0]), RowsAll(cs[1..]);
      assert forall i :: 0 <= i < |a + b| ==> (a + b)[i] == if i < |a| then a[i] else b[i - |a|];
    }
  }

  function Fields(r: Row): seq<string> { [r.tag, r.name, r.text] }

  /** From `pos` on, the table holds the fields of `rs`. */
  predicate Holds(tbl: seq<seq<string>>, pos: nat, rs: seq<Row>) {
    pos + |rs| <= |tbl| && forall k :: 0 <= k < |rs| ==> tbl[pos + k] == Fields(rs[k])
  }

  /** A window of the table holding `a + b` holds `a`, then `b`. */
  lemma Window(tbl: seq<seq<string>>, pos: nat, a: seq<Row>, b: seq<Row>)
    requires Holds(tbl, pos, a + b)
    ensures Holds(tbl, pos, a) && Holds(tbl, pos + |a|, b)
  {
    forall k | 0 <= k < |a| ensures tbl[pos + k] == Fields(a[k]) {
      assert (a + b)[k] == a[k];
    }
    forall k | 0 <= k < |b| ensures tbl[pos + |a| + k] == Fields(b[k]) {
      assert (a + b)[|a| + k] == b[k];
      assert pos + |a| + k == pos + (|a| + k);
    }
  }

  /** The value of a leaf reads back from the text `encode` printed. */
  lemma ParseValueBack(v: Any)
    requires !v.AOther?
    requires v.AInt? ==> IsInt32(v.i)
    requires v.ALong? ==> IsInt64(v.l)
    ensures ParseValue(TagOf(v), TextOf(v)) == Success(v)
  {
    match v
    case AInt(i) => StreamDecimal(i, INT32_MIN, INT32_MAX);
    case ALong(l) => StreamDecimal(l, INT64_MIN, INT64_MAX);
    case ABool(b) => StreamBoolDecimal(b);
    case AString(_) =>
  }

  /** A leaf's tuple at the cursor parses back to the leaf. */
  lemma ParseLeaf(name: string, v: Any, tbl: seq<seq<string>>, pos: nat)
    requires WellFormed(Leaf(name, v))
    requires pos < |tbl| && tbl[pos] == Fields(Row(TagOf(v), name, TextOf(v)))
    ensures ParseOne(tbl, pos) == Success((Leaf(name, v), pos + 1))
  {
    ParseValueBack(v);
    assert TagOf(v) != "node";
  }

  /** A node's header at the cursor, followed by its children's tuples. */
  lemma ParseNode(name: string, cs: seq<Property>, tbl: seq<seq<string>>, pos: nat, end: nat)
    requires |cs| <= INT32_MAX
    requires pos < |tbl| && tbl[pos] == Fields(Row("node", name, Decimal(|cs|)))
    requires ParseList(|cs|, tbl, pos + 1) == Success((cs, end))
    ensures ParseOne(tbl, pos) == Success((Node(name, cs), end))
  {
    StreamDecimal(|cs|, INT32_MIN, INT32_MAX);
  }

  /** Where each child's tuples start, and where the last one's end. */
  function Offsets(cs: seq<Property>, pos: nat): (ends: seq<nat>)
    ensures |ends| == |cs| + 1 && ends[0] == pos
    ensures ends[|cs|] == pos + |RowsAll(cs)|
    decreases cs
  {
    if cs == [] then [pos] else [pos] + Offsets(cs[1..], pos + |Rows(cs[0])|)
  }

  /** Each child's rows lie at its offset, and the next child's start just
      after them. */
  lemma {:induction false} WindowAt(cs: seq<Property>, tbl: seq<seq<string>>, pos: nat, i: nat)
    requires Holds(tbl, pos, RowsAll(cs)) && i < |cs|
    ensures Holds(tbl, Offsets(cs, pos)[i], Rows(cs[i]))
    ensures Offsets(cs, pos)[i + 1] == Offsets(cs, pos)[i] + |Rows(cs[i])|
    decreases cs
  {
    var a, b := Rows(cs[0]), RowsAll(cs[1..]);
    assert RowsAll(cs) == a + b;
    Window(tbl, pos, a, b);
    var mid := pos + |a|;
    var tail := Offsets(cs[1..], mid);
    assert Offsets(cs, pos) == [pos] + tail;
    if i > 0 {
      WindowAt(cs[1..], tbl, mid, i - 1);
      assert cs[1..][i - 1] == cs[i];
    }
  }

  /** A list parses once every child parses from its offset to the next. */
  lemma {:induction false} Chain(cs: seq<Property>, tbl: seq<seq<string>>, ends: seq<nat>)
    requires |ends| == |cs| + 1
    requires forall i :: 0 <= i < |cs| ==> ParseOne(tbl, ends[i]) == Success((cs[i], ends[i + 1]))
    ensures ParseList(|cs|, tbl, ends[0]) == Success((cs, ends[|cs|]))
    decreases cs
  {
    if cs != [] {
      assert forall i :: 0 <= i < |cs[1..]| ==> cs[1..][i] == cs[i + 1];
      assert forall i :: 0 <= i < |ends[1..]| ==> ends[1..][i] == ends[i + 1];
      Chain(cs[1..], tbl, ends[1..]);
      assert ParseOne(tbl, ends[0]) == Success((cs[0], ends[1]));
      assert [cs[0]] + cs[1..] == cs;
    }
  }

  /** The tuples of a well-formed tree, found at the cursor, parse back to
      the tree, and the cursor ends just past them. */
  lemma {:induction false} ParseOneTuples(p: Property, tbl: seq<seq<string>>, pos: nat)
    requires WellFormed(p)
    requires Holds(tbl, pos, Rows(p))
    ensures ParseOne(tbl, pos) == Success((p, pos + |Rows(p)|))
    decreases p, 1
  {
    if p.Leaf? {
      assert tbl[pos + 0] == Fields(Rows(p)[0]);
      ParseLeaf(p.name, p.value, tbl, pos);
    } else {
      ParseNodeTuples(p.name, p.children, tbl, pos);
    }
  }

  lemma {:induction false} ParseNodeTuples(name: string, cs: seq<Property>, tbl: seq<seq<string>>, pos: nat)
    requires WellFormed(Node(name, cs))
    requires Holds(tbl, pos, Rows(Node(name, cs)))
    ensures ParseOne(tbl, pos) == Success((Node(name, cs), pos + 1 + |RowsAll(cs)|))
    decreases cs, 2
  {
    NodeParts(name, cs, tbl, pos);
    ParseNode(name, cs, tbl, pos, pos + 1 + |RowsAll(cs)|);
  }

  /** The header of a node's tuples, and the children after it. */
  lemma {:induction false} NodeParts(name: string, cs: seq<Property>, tbl: seq<seq<string>>, pos: nat)
    requires WellFormed(Node(name, cs))
    requires Holds(tbl, pos, Rows(Node(name, cs)))
    ensures |cs| <= INT32_MAX && pos < |tbl| && tbl[pos] == Fields(Row("node", name, Decimal(|cs|)))
    ensures ParseList(|cs|, tbl, pos + 1) == Success((cs, pos + 1 + |RowsAll(cs)|))
    decreases cs, 1
  {
    var h := Row("node", name, Decimal(|cs|));
    Window(tbl, pos, [h], RowsAll(cs));
    assert tbl[pos + 0] == Fields([h][0]);
    ParseListTuples(cs, tbl, pos + 1);
  }

  lemma {:induction false} ParseListTuples(cs: seq<Property>, tbl: seq<seq<string>>, pos: nat)
    requires AllWellFormed(cs)
    requires Holds(tbl, pos, RowsAll(cs))
    ensures ParseList(|cs|, tbl, pos) == Success((cs, pos + |RowsAll(cs)|))
    decreases cs, 0
  {
    var ends := Offsets(cs, pos);
    forall i | 0 <= i < |cs|
      ensures ParseOne(tbl, ends[i]) == Success((cs[i], ends[i + 1]))
    {
      AllWellFormedAt(cs, i);
      WindowAt(cs, tbl, pos, i);
      ParseOneTuples(cs[i], tbl, ends[i]);
    }
    Chain(cs, tbl, ends);
  }

  lemma {:induction false} AllWellFormedAt(cs: seq<Property>, i: nat)
    requires AllWellFormed(cs) && i < |cs|
    ensures WellFormed(cs[i])
    decreases cs
  {
    if i > 0 {
      AllWellFormedAt(cs[1..], i - 1);
    }
  }

  /** Tuples written from plain rows split back into the rows' fields. */
  lemma LinesTable(rows: seq<Row>)
    requires forall i :: 0 <= i < |rows| ==> PlainRow(rows[i])
    ensures Holds(FieldTable(Lines(rows)), 0, rows)
  {
    var tbl := FieldTable(Lines(rows));
    forall k | 0 <= k < |rows| ensures tbl[0 + k] == Fields(rows[k]) {
      TupleFacts(rows[k]);
    }
  }

  /** The marshalled text splits back into the tuples of the tree. */
  lemma MarshalledLines(t: Property)
    requires WellFormed(t)
    ensures Split(MarshallText(t), TUPLE_END) == Lines(Rows(t))
  {
    var rows := Rows(t);
    var vec := Lines(rows);
    MarshallLines(t);
    RowsPlain(t);
    forall i | 0 <= i < |vec| ensures Clean(vec[i], TUPLE_END) { TupleFacts(rows[i]); }
    SplitJoinTerminated(vec, TUPLE_END);
  }

  /** Round trip: a well-formed node marshalled, then unmarshalled with the
      tuple count `marshall` reported, gives back the same names, value
      types, values and nesting, in order. */
  lemma RoundTrip(t: Property)
    requires t.Node? && WellFormed(t)
    ensures Unmarshall(TupleCount(t), MarshallText(t)) == Success(t)
  {
    var h := Row("node", t.name, Decimal(|t.children|));
    var rest := RowsAll(t.children);
    var tbl := FieldTable(Split(MarshallText(t), TUPLE_END));
    MarshalledHolds(t);
    assert Rows(t) == [h] + rest;
    HeadRest(tbl, h, rest);
    ParseListTuples(t.children, tbl, 1);
  }

  /** The tuples of the marshalled text hold the rows of the tree. */
  lemma MarshalledHolds(t: Property)
    requires WellFormed(t)
    ensures Holds(FieldTable(Split(MarshallText(t), TUPLE_END)), 0, Rows(t))
  {
    MarshalledLines(t);
    RowsPlain(t);
    LinesTable(Rows(t));
  }

  /** `unmarshall` reads the root's name from the first tuple and the
      children from the second tuple on. */
  lemma UnmarshallFrom(n: int, text: string, name: string, cs: seq<Property>, end: nat)
    requires |Split(text, TUPLE_END)| > 0
    requires |FieldTable(Split(text, TUPLE_END))[0]| >= 3 && FieldTable(Split(text, TUPLE_END))[0][1] == name
    requires ParseList(n, FieldTable(Split(text, TUPLE_END)), 1) == Success((cs, end))
    ensures Unmarshall(n, text) == Success(Node(name, cs))
  {
  }

  lemma HeadRest(tbl: seq<seq<string>>, h: Row, rest: seq<Row>)
    requires Holds(tbl, 0, [h] + rest)
    ensures |tbl| > 0 && tbl[0] == Fields(h) && Holds(tbl, 1, rest)
  {
    Window(tbl, 0, [h], rest);
    assert tbl[0 + 0] == Fields([h][0]);
  }

  /** The text of a list of trees behind a header tuple of any plain tag,
      naming the root and counting the trees, unmarshalls with that count
      into a node of that name holding the trees: the root's tag is never
      read. */
  lemma ListRoundTrip(tag: string, name: string, cs: seq<Property>)
    requires Plain(tag) && Plain(name) && AllWellFormed(cs)
    ensures Unmarshall(|cs|, Tuple(tag, name, Decimal(|cs|)) + TUPLE_END + MarshallAll(cs)) == Success(Node(name, cs))
  {
    ListHolds(tag, name, cs);
    HeaderThenTrees(Tuple(tag, name, Decimal(|cs|)) + TUPLE_END + MarshallAll(cs), Row(tag, name, Decimal(|cs|)), cs);
  }

  /** Any text whose tuples hold a header row naming the root, then the
      rows of the trees, unmarshalls into that root holding the trees. */
  lemma HeaderThenTrees(text: string, h: Row, cs: seq<Property>)
    requires AllWellFormed(cs)
    requires Holds(FieldTable(Split(text, TUPLE_END)), 0, [h] + RowsAll(cs))
    ensures Unmarshall(|cs|, text) == Success(Node(h.name, cs))
  {
    var tbl := FieldTable(Split(text, TUPLE_END));
    HeadRest(tbl, h, RowsAll(cs));
    ParseListTuples(cs, tbl, 1);
    UnmarshallFrom(|cs|, text, h.name, cs, 1 + |RowsAll(cs)|);
  }

  lemma ListHolds(tag: string, name: string, cs: seq<Property>)
    requires Plain(tag) && Plain(name) && AllWellFormed(cs)
    ensures Holds(FieldTable(Split(Tuple(tag, name, Decimal(|cs|)) + TUPLE_END + MarshallAll(cs), TUPLE_END)), 0,
                  [Row(tag, name, Decimal(|cs|))] + RowsAll(cs))
  {
    var rows := [Row(tag, name, Decimal(|cs|))] + RowsAll(cs);
    ListPlain(Row(tag, name, Decimal(|cs|)), cs);
    ListLines(Row(tag, name, Decimal(|cs|)), cs);
    LinesSplit(rows);
    LinesTable(rows);
  }

  lemma ListPlain(h: Row, cs: seq<Property>)
    requires Plain(h.tag) && Plain(h.name) && h.text == Decimal(|cs|) && AllWellFormed(cs)
    ensures forall i :: 0 <= i < |[h] + RowsAll(cs)| ==> PlainRow(([h] + RowsAll(cs))[i])
  {
    PlainDecimal(|cs|);
    RowsAllPlain(cs);
  }

  /** Plain rows, written as terminated tuples, split back into the tuples. */
  lemma LinesSplit(rows: seq<Row>)
    requires forall i :: 0 <= i < |rows| ==> PlainRow(rows[i])
    ensures Split(JoinTerminated(Lines(rows), TUPLE_END), TUPLE_END) == Lines(rows)
  {
    var vec := Lines(rows);
    forall i | 0 <= i < |vec| ensures Clean(vec[i], TUPLE_END) { TupleFacts(rows[i]); }
    SplitJoinTerminated(vec, TUPLE_END);
  }

  lemma ListLines(h: Row, cs: seq<Property>)
    ensures Line(h) + TUPLE_END + MarshallAll(cs) == JoinTerminated(Lines([h] + RowsAll(cs)), TUPLE_END)
  {
    MarshallAllLines(cs);
    LinesConcat([h], RowsAll(cs));
    JoinConcat([Line(h)], Lines(RowsAll(cs)), TUPLE_END);
    assert JoinTerminated([Line(h)], TUPLE_END) == Line(h) + TUPLE_END + JoinTerminated([], TUPLE_END);
  }

  /** The fields of "string||" + name + "||": the trailing empty value is
      dropped, leaving two. */
  lemma EmptyStringFields(name: string)
    requires Plain(name)
    ensures Split("string||" + name + "||", FIELD_SEP) == ["string", name]
  {
    assert "string||" + name + "||" == "string" + FIELD_SEP + name + FIELD_SEP;
    SplitTwoTerminated("string", name, FIELD_SEP);
  }

  /** A string leaf with an empty value leaves only two fields in its tuple,
      and `vec2.at(2)` throws. */
  lemma EmptyStringFails(name: string, vec: seq<string>, pos: nat)
    requires Plain(name) && pos < |vec| && vec[pos] == "string||" + name + "||"
    ensures ParseOne(FieldTable(vec), pos) == Failure(OutOfRange)
  {
    EmptyStringFields(name);
  }

  /** The same, for a whole message: a node holding one empty string. */
  lemma EmptyStringMessage(root: string, name: string)
    requires Plain(root) && Plain(name)
    ensures Unmarshall(1, MarshallText(Node(root, [Leaf(name, AString(""))]))) == Failure(OutOfRange)
  {
    var h := Row("node", root, Decimal(1));
    var vec := [Line(h), "string||" + name + "||"];
    EmptyStringLines(root, name);
    PlainDecimal(1);
    TupleFacts(h);
    assert FieldTable(vec)[0] == Fields(h);
    EmptyStringFails(name, vec, 1);
  }

  lemma EmptyStringLines(root: string, name: string)
    requires Plain(root) && Plain(name)
    ensures Split(MarshallText(Node(root, [Leaf(name, AString(""))])), TUPLE_END)
      == [Line(Row("node", root, Decimal(1))), "string||" + name + "||"]
  {
    var h := Row("node", root, Decimal(1));
    var leaf := Tuple("string", name, "");
    var lines := [Line(h), leaf];
    assert leaf == "string||" + name + "||";
    assert MarshallText(Node(root, [Leaf(name, AString(""))])) == JoinTerminated(lines, TUPLE_END) by {
      assert MarshallAll([Leaf(name, AString(""))]) == leaf + TUPLE_END + "";
    }
    assert forall i :: 0 <= i < |lines| ==> Clean(lines[i], TUPLE_END) by {
      PlainDecimal(1);
      TupleFacts(h);
      AvoidsTuple("string", name, "", '~');
    }
    SplitJoinTerminated(lines, TUPLE_END);
  }

  /** A leaf marshalled on its own cannot be read back: its tuple names the
      root and the one child `nTuples` announces is missing. */
  lemma LeafRootFails(name: string, v: Any)
    requires WellFormed(Leaf(name, v))
    ensures Unmarshall(TupleCount(Leaf(name, v)), MarshallText(Leaf(name, v))) == Failure(OutOfRange)
  {
    var r := Row(TagOf(v), name, TextOf(v));
    PlainFields(v);
    TupleFacts(r);
    assert MarshallText(Leaf(name, v)) == JoinTerminated([Line(r)], TUPLE_END);
    SplitJoinTerminated([Line(r)], TUPLE_END);
    var tbl := FieldTable(Split(MarshallText(Leaf(name, v)), TUPLE_END));
    assert |tbl| == 1;
    assert ParseOne(tbl, 1) == Failure(OutOfRange);
  }

  // ------------------------------------------------------------ comparison

  /** EventReceiver::equal: values of different types, and values of a type
      it does not handle, are unequal; otherwise their values are compared. */
  function Equal(v1: Any, v2: Any): (r: bool)
    ensures r <==> v1 == v2 && !v1.AOther?
  {
    match (v1, v2)
    case (AInt(a), AInt(b)) => a == b
    case (ALong(a), ALong(b)) => a == b
    case (ABool(a), ABool(b)) => a == b
    case (AString(a), AString(b)) => a == b
    case _ => false
  }

  /** `findUnique(name, 1)`: the first property of that name below the root,
      searched depth first with each child looked at before its children. */
  function FindUnique(p: Property, name: string): (r: Option<Property>)
    ensures r.Some? ==> r.value.name == name
    ensures p.Leaf? ==> r.None?
    decreases p
  {
    if p.Leaf? then None else FindIn(p.children, name)
  }

  function FindIn(cs: seq<Property>, name: string): (r: Option<Property>)
    ensures r.Some? ==> r.value.name == name
    ensures (exists i :: 0 <= i < |cs| && cs[i].name == name) ==> r.Some?
    decreases cs
  {
    if cs == [] then None
    else if cs[0].name == name then Some(cs[0])
    else match FindUnique(cs[0], name)
      case Some(q) => Some(q)
      case None =>
        var r := FindIn(cs[1..], name);
        assert forall i :: 1 <= i < |cs| ==> cs[i] == cs[1..][i - 1];
        r
  }

  /** The message carries a property of that name, so the comparison does
      not dereference a null result. */
  predicate HasField(p: Property, name: string) { FindUnique(p, name).Some? }

  /** The matching test of `matchingReceive` and `checkMessageCache`. */
  predicate Matches(p: Property, name: string, v: Any)
    requires HasField(p, name)
  {
    Equal(ValueOf(FindUnique(p, name).value), v)
  }
}
