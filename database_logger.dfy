/** python/lsst/ctrl/events/logging/DatabaseLogger.py: `_insertRecord`
    derives the columns of one row of the log table from a log record's
    property set, and removes TOPIC from that set on the way. How Python
    renders a value with `%s` is given as `show`; the SQL command and its
    execution are not part of this model. */
module DatabaseLoggers {
  import opened Common

  /** A value of the property set: a string, an integer or a DateTime. */
  datatype Item = Text(s: string) | Number(n: int) | Stamp(nsecs: int)

  /** A name and its values; `ps.get` gives the one value, or the list of
      them when there are several. */
  datatype Property = Property(name: string, values: seq<Item>)

  /** `self.keywords`: the names that have a column of their own. */
  const KEYWORDS: seq<string> :=
    ["HOSTID", "RUNID", "SLICEID", "LEVEL", "LOG", "DATE", "NODE", "TIMESTAMP", "COMMENT", "STATUS",
     "PIPELINE", "pipeline", "EVENTTIME", "PUBTIME", "TYPE", "STAGEID", "stageId", "LOOPNUM", "loopnum"]

  const TOPIC: string := "TOPIC"
  const CUSTOM_LIMIT: nat := 4096
  const COMMENT_LIMIT: nat := 2048

  predicate DistinctNames(es: seq<Property>) {
    forall i, j :: 0 <= i < j < |es| ==> es[i].name != es[j].name
  }

  function Find(es: seq<Property>, name: string): (r: Option<seq<Item>>)
    ensures r.None? <==> forall i :: 0 <= i < |es| ==> es[i].name != name
    ensures r.Some? ==> exists i :: 0 <= i < |es| && es[i].name == name && es[i].values == r.value
  {
    if es == [] then None
    else if es[0].name == name then Some(es[0].values)
    else
      var r := Find(es[1..], name);
      assert r.Some? ==> exists i :: 0 <= i < |es[1..]| && es[1..][i].name == name && es[1..][i].values == r.value;
      r
  }

  /** `ps.get(name)`, which raises for a missing name. */
  function GetValues(es: seq<Property>, name: string): (r: Result<seq<Item>>)
    ensures r.Failure? <==> Find(es, name).None?
    ensures r.Failure? ==> r.error == NotFound(name)
    ensures r.Success? ==> r.value == Find(es, name).value
  {
    match Find(es, name)
    case None => Failure(NotFound(name))
    case Some(v) => Success(v)
  }

  /** The values under `name`, or `default` when there is none. */
  function FindOr(es: seq<Property>, name: string, default: seq<Item>): (r: seq<Item>)
    ensures Find(es, name).Some? ==> r == Find(es, name).value
    ensures Find(es, name).None? ==> r == default
  {
    match Find(es, name)
    case None => default
    case Some(v) => v
  }

  /** `ps.remove(name)`: every entry under another name, in order. */
  function Without(es: seq<Property>, name: string): (r: seq<Property>)
    ensures forall p :: p in r <==> p in es && p.name != name
    ensures (forall i :: 0 <= i < |es| ==> es[i].name != name) ==> r == es
  {
    if es == [] then []
    else if es[0].name == name then Without(es[1..], name)
    else
      var rest := Without(es[1..], name);
      assert forall p :: p in es[1..] ==> p in es;
      [es[0]] + rest
  }

  /** No entry after the first carries the first entry's name. */
  lemma HeadNameFresh(es: seq<Property>)
    requires es != [] && DistinctNames(es)
    ensures DistinctNames(es[1..])
    ensures forall p :: p in es[1..] ==> p.name != es[0].name
  {
    var tail := es[1..];
    forall i, j | 0 <= i < j < |tail| ensures tail[i].name != tail[j].name {
      assert tail[i] == es[i + 1] && tail[j] == es[j + 1];
    }
    forall p | p in tail ensures p.name != es[0].name {
      var k :| 0 <= k < |tail| && tail[k] == p;
      assert es[k + 1] == p;
    }
  }

  /** An entry whose name none of `rest` carries keeps the names distinct. */
  lemma ConsDistinct(h: Property, rest: seq<Property>)
    requires DistinctNames(rest)
    requires forall p :: p in rest ==> p.name != h.name
    ensures DistinctNames([h] + rest)
  {
    var r := [h] + rest;
    forall i, j | 0 <= i < j < |r| ensures r[i].name != r[j].name {
      assert r[j] == rest[j - 1] && r[j] in rest;
      if i > 0 { assert r[i] == rest[i - 1]; }
    }
  }

  /** Removing a name keeps the other names distinct. */
  lemma {:induction false} WithoutKeepsDistinct(es: seq<Property>, name: string)
    requires DistinctNames(es)
    ensures DistinctNames(Without(es, name))
    decreases |es|
  {
    if es != [] {
      HeadNameFresh(es);
      WithoutKeepsDistinct(es[1..], name);
      if es[0].name != name {
        ConsDistinct(es[0], Without(es[1..], name));
      }
    }
  }

  /** Python slicing `s[0:n]`. */
  function Truncate(s: string, n: nat): (r: string)
    ensures |r| <= n && r <= s
    ensures |s| <= n ==> r == s
    ensures |s| > n ==> |r| == n
  {
    if |s| <= n then s else s[..n]
  }

  // ---------------------------------------------------------------- comment

  /** The list of values joined with `sep`. */
  function Join(vs: seq<string>, sep: string): (r: string)
    decreases |vs|
  {
    if vs == [] then ""
    else if |vs| == 1 then vs[0]
    else Join(vs[..|vs| - 1], sep) + sep + vs[|vs| - 1]
  }

  function DropLeadingEmpty(vs: seq<string>): (r: seq<string>)
    ensures r == [] || r[0] != ""
    ensures |r| <= |vs| && r == vs[|vs| - |r|..]
    ensures forall i :: 0 <= i < |vs| - |r| ==> vs[i] == ""
  {
    if vs == [] then []
    else if vs[0] == "" then
      var r := DropLeadingEmpty(vs[1..]);
      assert forall i :: 1 <= i < |vs| - |r| ==> vs[i] == vs[1..][i - 1];
      r
    else vs
  }

  /** What the comment loop builds: an accumulator that is still empty
      takes the next value as it is, so leading empty values vanish, and
      the rest are joined with ";". */
  function JoinedComment(vs: seq<string>): (r: string)
  {
    Join(DropLeadingEmpty(vs), ";")
  }

  /** The strings of a list of values, if all are strings. */
  function Texts(vs: seq<Item>): (r: Option<seq<string>>)
    ensures r.Some? <==> forall i :: 0 <= i < |vs| ==> vs[i].Text?
    ensures r.Some? ==> |r.value| == |vs| && forall i :: 0 <= i < |vs| ==> r.value[i] == vs[i].s
  {
    if vs == [] then Some([])
    else if !vs[0].Text? then None
    else match Texts(vs[1..])
      case None => None
      case Some(rest) => Some([vs[0].s] + rest)
  }

  /** What the comment loop holds: a string, or a value that is not one,
      which Python lets the loop take as it is. */
  datatype Comment = Str(s: string) | Raw(x: Item)

  /** One turn of the comment loop: an accumulator equal to "" takes the
      value as it is; a string accumulator and a string value are joined
      with ";"; any other `+` raises a TypeError. */
  function CommentStep(acc: Comment, v: Item): (r: Result<Comment>)
  {
    if acc == Str("") then Success(if v.Text? then Str(v.s) else Raw(v))
    else if acc.Str? && v.Text? then Success(Str(acc.s + ";" + v.s))
    else Failure(TypeMismatch("COMMENT"))
  }

  /** The comment loop over all of `vs`, turn by turn from "". */
  function CommentFold(vs: seq<Item>): (r: Result<Comment>)
    decreases |vs|
  {
    if vs == [] then Success(Str(""))
    else match CommentFold(vs[..|vs| - 1])
      case Failure(e) => Failure(e)
      case Success(acc) => CommentStep(acc, vs[|vs| - 1])
  }

  /** The comment before it is sliced: the one value as it is when there
      is one, else what the loop makes of the values. */
  function CommentText(vs: seq<Item>): (r: Result<Comment>)
    ensures AllText(vs) <==> r.Success? && r.value.Str?
    ensures r.Success? && r.value.Str? ==> r.value.s == JoinedComment(Texts(vs).value)
    ensures r.Success? && r.value.Raw? <==> vs != [] && !vs[|vs| - 1].Text? && AllBlank(vs[..|vs| - 1])
    ensures r.Success? && r.value.Raw? ==> r.value.x == vs[|vs| - 1]
    ensures r.Failure? ==> r.error == TypeMismatch("COMMENT")
  {
    CommentFoldOutcome(vs);
    if |vs| == 1 then
      if vs[0].Text? then Success(Str(vs[0].s)) else Success(Raw(vs[0]))
    else CommentFold(vs)
  }

  // ----------------------------------------------------------------- custom

  function Contains(ks: seq<string>, name: string): bool {
    exists i :: 0 <= i < |ks| && ks[i] == name
  }

  /** `"%s : %s;" % (name, ps.get(name))`. */
  function Piece(p: Property, show: seq<Item> -> string): (r: string)
    ensures |r| > 0
  {
    p.name + " : " + show(p.values) + ";"
  }

  /** The pieces of the entries outside the keyword list, in order. */
  function CustomOf(es: seq<Property>, show: seq<Item> -> string): (r: string)
    decreases |es|
  {
    if es == [] then ""
    else CustomOf(es[..|es| - 1], show) +
         (if Contains(KEYWORDS, es[|es| - 1].name) then "" else Piece(es[|es| - 1], show))
  }

  /** The custom column before truncation. */
  function CustomText(es: seq<Property>, show: seq<Item> -> string): (r: string)
  {
    if CustomOf(es, show) == "" then "NULL" else CustomOf(es, show)
  }

  // ------------------------------------------------------------------- row

  /** The columns of the INSERT, each the value(s) `%s` renders. */
  datatype Row = Row(
    hostId: seq<Item>, runId: seq<Item>, sliceId: seq<Item>, status: seq<Item>, level: seq<Item>,
    log: seq<Item>, date: seq<Item>, node: seq<Item>, timestamp: int, custom: string, comment: string,
    pipeline: seq<Item>, eventTime: seq<Item>, pubTime: seq<Item>, eventType: seq<Item>,
    stageId: seq<Item>, loopNum: seq<Item>)

  /** `ts.nsecs()`: only a single DateTime has it. */
  function Nanoseconds(vs: seq<Item>): (r: Result<int>)
    ensures r.Success? <==> |vs| == 1 && vs[0].Stamp?
    ensures r.Success? ==> r.value == vs[0].nsecs
    ensures r.Failure? ==> r.error == TypeMismatch("TIMESTAMP")
  {
    if |vs| == 1 && vs[0].Stamp? then Success(vs[0].nsecs) else Failure(TypeMismatch("TIMESTAMP"))
  }

  /** The columns that need no lookup of their own, over the set with TOPIC
      already removed. */
  function Columns(rest: seq<Property>, show: seq<Item> -> string): (r: (seq<Item>, seq<Item>, seq<Item>, seq<Item>, string))
    ensures r.0 == FindOr(rest, "STATUS", [Text("NULL")])
    ensures Find(rest, "pipeline").Some? ==> r.1 == Find(rest, "pipeline").value
    ensures Find(rest, "pipeline").None? && Find(rest, "PIPELINE").Some? ==> r.1 == Find(rest, "PIPELINE").value
    ensures Find(rest, "pipeline").None? && Find(rest, "PIPELINE").None? ==> r.1 == [Text("NULL")]
    ensures Find(rest, "stageId").Some? ==> r.2 == Find(rest, "stageId").value
    ensures Find(rest, "stageId").None? && Find(rest, "STAGEID").Some? ==> r.2 == Find(rest, "STAGEID").value
    ensures Find(rest, "stageId").None? && Find(rest, "STAGEID").None? ==> r.2 == [Text("-1")]
    ensures Find(rest, "loopnum").Some? ==> r.3 == Find(rest, "loopnum").value
    ensures Find(rest, "loopnum").None? && Find(rest, "LOOPNUM").Some? ==> r.3 == Find(rest, "LOOPNUM").value
    ensures Find(rest, "loopnum").None? && Find(rest, "LOOPNUM").None? ==> r.3 == [Text("-1")]
    ensures r.4 == Truncate(CustomText(rest, show), CUSTOM_LIMIT)
  {
    (FindOr(rest, "STATUS", [Text("NULL")]),
     FindOr(rest, "pipeline", FindOr(rest, "PIPELINE", [Text("NULL")])),
     FindOr(rest, "stageId", FindOr(rest, "STAGEID", [Text("-1")])),
     FindOr(rest, "loopnum", FindOr(rest, "LOOPNUM", [Text("-1")])),
     Truncate(CustomText(rest, show), CUSTOM_LIMIT))
  }

  /** The values read before TOPIC is removed, each lookup of which can
      raise. */
  datatype Fields = Fields(
    hostId: seq<Item>, runId: seq<Item>, sliceId: seq<Item>, level: seq<Item>, log: seq<Item>,
    date: seq<Item>, eventTime: seq<Item>, pubTime: seq<Item>, eventType: seq<Item>,
    node: seq<Item>, timestamp: int, comment: Comment)

  function RequiredFields(es: seq<Property>): (r: Result<Fields>)
    ensures Find(es, "HOSTID").None? ==> r == Failure(NotFound("HOSTID"))
    ensures r.Success? ==> Find(es, "COMMENT").Some? &&
                           CommentText(Find(es, "COMMENT").value) == Success(r.value.comment)
    ensures r.Success? ==> r.value.node == FindOr(es, "NODE", [Number(-1)])
    ensures r.Success? ==> Find(es, "TIMESTAMP").Some? &&
                           Nanoseconds(Find(es, "TIMESTAMP").value) == Success(r.value.timestamp)
  {
    var hostId :- GetValues(es, "HOSTID");
    var runId :- GetValues(es, "RUNID");
    var sliceId :- GetValues(es, "SLICEID");
    var level :- GetValues(es, "LEVEL");
    var log :- GetValues(es, "LOG");
    var date :- GetValues(es, "DATE");
    var ts :- GetValues(es, "TIMESTAMP");
    var eventTime :- GetValues(es, "EVENTTIME");
    var pubTime :- GetValues(es, "PUBTIME");
    var eventType :- GetValues(es, "TYPE");
    var node := FindOr(es, "NODE", [Number(-1)]);
    var timestamp :- Nanoseconds(ts);
    var commentValues :- GetValues(es, "COMMENT");
    var comment :- CommentText(commentValues);
    Success(Fields(hostId, runId, sliceId, level, log, date, eventTime, pubTime, eventType, node, timestamp, comment))
  }

  /** The row `_insertRecord` builds from the entries `es`, or the
      exception it raises first. A comment that is not a string gets as far
      as `comment[0:2048]`, which raises. */
  function RecordRow(es: seq<Property>, show: seq<Item> -> string): (r: Result<Row>)
    ensures r.Success? <==> RequiredFields(es).Success? && RequiredFields(es).value.comment.Str?
    ensures RequiredFields(es).Failure? ==> r == Failure(RequiredFields(es).error)
    ensures RequiredFields(es).Success? && RequiredFields(es).value.comment.Raw? ==>
              r == Failure(TypeMismatch("COMMENT"))
    ensures r.Success? ==> |r.value.comment| <= COMMENT_LIMIT && |r.value.custom| <= CUSTOM_LIMIT
    ensures r.Success? ==> r.value.comment == Truncate(RequiredFields(es).value.comment.s, COMMENT_LIMIT)
  {
    var f :- RequiredFields(es);
    var cs := Columns(Without(es, TOPIC), show);
    if f.comment.Raw? then Failure(TypeMismatch("COMMENT"))
    else
      Success(Row(f.hostId, f.runId, f.sliceId, cs.0, f.level, f.log, f.date, f.node, f.timestamp, cs.4,
                  Truncate(f.comment.s, COMMENT_LIMIT), cs.1, f.eventTime, f.pubTime, f.eventType, cs.2, cs.3))
  }

  /** The property set handed to `_insertRecord`, which it changes. */
  class LogProperties {
    var entries: seq<Property>

    /** A property set holds each name once. */
    predicate Valid()
      reads this
    {
      DistinctNames(entries)
    }

    constructor (entries: seq<Property>)
      requires DistinctNames(entries)
      ensures this.entries == entries && Valid()
    {
      this.entries := entries;
    }

    /** `ps.exists(name)`. */
    function Exists(name: string): (b: bool)
      reads this
      ensures b <==> Find(entries, name).Some?
    {
      Find(entries, name).Some?
    }

    /** `ps.get(name)`. */
    function Get(name: string): (r: Result<seq<Item>>)
      reads this
      ensures r == GetValues(entries, name)
    {
      GetValues(entries, name)
    }

    /** `ps.valueCount(name)`. */
    function ValueCount(name: string): (n: nat)
      reads this
      ensures Find(entries, name).None? ==> n == 0
      ensures Find(entries, name).Some? ==> n == |Find(entries, name).value|
    {
      match Find(entries, name)
      case None => 0
      case Some(vs) => |vs|
    }

    /** `ps.remove(name)`. */
    method Remove(name: string)
      modifies this
      ensures entries == Without(old(entries), name)
      ensures old(Valid()) ==> Valid()
    {
      if Valid() { WithoutKeepsDistinct(entries, name); }
      entries := Without(entries, name);
    }
  }

  /** The comment loop over the values of COMMENT. */
  method JoinComment(vs: seq<Item>) returns (r: Result<Comment>)
    ensures r == CommentFold(vs)
  {
    var comment := Str("");
    var i := 0;
    assert vs[..0] == [];
    while i < |vs|
      invariant 0 <= i <= |vs|
      invariant CommentFold(vs[..i]) == Success(comment)
    {
      assert vs[..i + 1][..i] == vs[..i];
      if comment == Str("") {
        comment := if vs[i].Text? then Str(vs[i].s) else Raw(vs[i]);
      } else if comment.Str? && vs[i].Text? {
        comment := Str(comment.s + ";" + vs[i].s);
      } else {
        // `+` with a value that is not a string
        CommentFoldFails(vs, i + 1);
        return Failure(TypeMismatch("COMMENT"));
      }
      i := i + 1;
    }
    assert vs[..i] == vs;
    return Success(comment);
  }

  /** A turn that raises ends the loop: no later value is looked at. */
  lemma {:induction false} CommentFoldFails(vs: seq<Item>, i: nat)
    requires i <= |vs| && CommentFold(vs[..i]) == Failure(TypeMismatch("COMMENT"))
    ensures CommentFold(vs) == Failure(TypeMismatch("COMMENT"))
    decreases |vs| - i
  {
    if i < |vs| {
      assert vs[..i + 1][..i] == vs[..i];
      CommentFoldFails(vs, i + 1);
    } else {
      assert vs[..i] == vs;
    }
  }

  /** The custom loop over the names outside the keyword list. */
  method BuildCustom(es: seq<Property>, show: seq<Item> -> string) returns (custom: string)
    ensures custom == CustomText(es, show)
  {
    custom := "";
    var i := 0;
    while i < |es|
      invariant 0 <= i <= |es|
      invariant custom == CustomOf(es[..i], show)
    {
      assert es[..i + 1][..i] == es[..i];
      if !Contains(KEYWORDS, es[i].name) {
        custom := custom + Piece(es[i], show);
      }
      i := i + 1;
    }
    assert es[..i] == es;
    if custom == "" {
      custom := "NULL";
    }
  }

  /** The lookups of `_insertRecord` that can raise, in their order. */
  method ReadFields(ps: LogProperties) returns (r: Result<Fields>)
    ensures r == RequiredFields(ps.entries)
  {
    var hostId :- ps.Get("HOSTID");
    var runId :- ps.Get("RUNID");
    var sliceId :- ps.Get("SLICEID");
    var level :- ps.Get("LEVEL");
    var log :- ps.Get("LOG");
    var date :- ps.Get("DATE");
    var ts :- ps.Get("TIMESTAMP");
    var eventTime :- ps.Get("EVENTTIME");
    var pubTime :- ps.Get("PUBTIME");
    var eventType :- ps.Get("TYPE");
    var node := [Number(-1)];
    if ps.Exists("NODE") {
      node := ps.Get("NODE").value;
    }
    if !(|ts| == 1 && ts[0].Stamp?) {
      return Failure(TypeMismatch("TIMESTAMP"));
    }
    var timestamp := ts[0].nsecs;
    var commentList :- ps.Get("COMMENT");
    var comment: Comment;
    if ps.ValueCount("COMMENT") == 1 {
      comment := if commentList[0].Text? then Str(commentList[0].s) else Raw(commentList[0]);
    } else {
      comment :- JoinComment(commentList);
    }
    r := Success(Fields(hostId, runId, sliceId, level, log, date, eventTime, pubTime, eventType, node, timestamp, comment));
  }

  /** The columns read after TOPIC is removed; none of them can raise. */
  method ReadColumns(ps: LogProperties, show: seq<Item> -> string) returns (status: seq<Item>, pipeline: seq<Item>,
                                                                           stageId: seq<Item>, loopNum: seq<Item>,
                                                                           custom: string)
    ensures (status, pipeline, stageId, loopNum, custom) == Columns(ps.entries, show)
  {
    status := [Text("NULL")];
    if ps.Exists("STATUS") {
      status := ps.Get("STATUS").value;
    }
    if ps.Exists("pipeline") {
      pipeline := ps.Get("pipeline").value;
    } else if ps.Exists("PIPELINE") {
      pipeline := ps.Get("PIPELINE").value;
    } else {
      pipeline := [Text("NULL")];
    }
    stageId := [Text("-1")];
    if ps.Exists("stageId") {
      stageId := ps.Get("stageId").value;
    } else if ps.Exists("STAGEID") {
      stageId := ps.Get("STAGEID").value;
    }
    loopNum := [Text("-1")];
    if ps.Exists("loopnum") {
      loopNum := ps.Get("loopnum").value;
    } else if ps.Exists("LOOPNUM") {
      loopNum := ps.Get("LOOPNUM").value;
    }
    custom := BuildCustom(ps.entries, show);
    custom := Truncate(custom, CUSTOM_LIMIT);
  }

  /** `_insertRecord(dbTable, ps)` up to building the command. TOPIC is
      removed once the lookups and the comment loop got through, before a
      comment that is not a string is sliced. */
  method InsertRecord(ps: LogProperties, show: seq<Item> -> string) returns (r: Result<Row>)
    requires ps.Valid()
    modifies ps
    ensures r == RecordRow(old(ps.entries), show)
    ensures RequiredFields(old(ps.entries)).Success? ==> ps.entries == Without(old(ps.entries), TOPIC)
    ensures RequiredFields(old(ps.entries)).Failure? ==> ps.entries == old(ps.entries)
    ensures ps.Valid()
  {
    var f :- ReadFields(ps);
    if ps.Exists(TOPIC) {
      ps.Remove(TOPIC);
    }
    assert ps.entries == Without(old(ps.entries), TOPIC);
    var status, pipeline, stageId, loopNum, custom := ReadColumns(ps, show);
    if f.comment.Raw? {
      // `comment[0:2048]` on a value that is not a string
      return Failure(TypeMismatch("COMMENT"));
    }
    r := Success(Row(f.hostId, f.runId, f.sliceId, status, f.level, f.log, f.date, f.node, f.timestamp, custom,
                     Truncate(f.comment.s, COMMENT_LIMIT), pipeline, f.eventTime, f.pubTime, f.eventType, stageId, loopNum));
  }

  // ----------------------------------------------------------------- lemmas

  lemma {:induction false} JoinStartsWith(vs: seq<string>, sep: string)
    requires vs != []
    ensures vs[0] <= Join(vs, sep)
    decreases |vs|
  {
    if |vs| > 1 {
      JoinStartsWith(vs[..|vs| - 1], sep);
    }
  }

  /** One step of the comment loop. */
  lemma {:induction false} JoinedCommentSnoc(vs: seq<string>, x: string)
    ensures JoinedComment(vs + [x]) == if JoinedComment(vs) == "" then x else JoinedComment(vs) + ";" + x
    decreases |vs|
  {
    if vs == [] {
      assert [] + [x] == [x];
    } else if vs[0] == "" {
      assert (vs + [x])[1..] == vs[1..] + [x];
      JoinedCommentSnoc(vs[1..], x);
    } else {
      assert DropLeadingEmpty(vs + [x]) == vs + [x];
      assert (vs + [x])[..|vs + [x]| - 1] == vs;
      JoinStartsWith(vs, ";");
    }
  }

  /** Without leading empty values, the comment is the values joined with
      ";" in order. */
  lemma CommentIsJoin(vs: seq<string>)
    requires vs == [] || vs[0] != ""
    ensures JoinedComment(vs) == Join(vs, ";")
  {
  }

  /** Leading empty values leave no trace: not even a separator. */
  lemma {:induction false} CommentDropsLeadingEmpty(vs: seq<string>)
    ensures JoinedComment([""] + vs) == JoinedComment(vs)
  {
    assert ([""] + vs)[1..] == vs;
  }

  /** The branch for a single value changes nothing: the loop would make
      the same comment of every list of values. */
  lemma CommentSingle(vs: seq<Item>)
    ensures CommentText(vs) == CommentFold(vs)
  {
    if |vs| == 1 {
      assert vs[..0] == [];
    }
  }

  /** An empty comment is made of empty values only. */
  lemma {:induction false} JoinedCommentEmpty(vs: seq<string>)
    ensures JoinedComment(vs) == "" <==> forall i :: 0 <= i < |vs| ==> vs[i] == ""
  {
    var d := DropLeadingEmpty(vs);
    if d != [] {
      JoinStartsWith(d, ";");
      assert d[0] == vs[|vs| - |d|];
    }
  }

  /** What the loop makes of any list of values: the joined strings when
      all are strings; the one value that is not a string when it comes
      last and every value before it is ""; otherwise a TypeError. */
  lemma {:induction false} CommentFoldOutcome(vs: seq<Item>)
    ensures AllText(vs) <==> CommentFold(vs).Success? && CommentFold(vs).value.Str?
    ensures CommentFold(vs).Success? && CommentFold(vs).value.Str? ==>
              CommentFold(vs).value.s == JoinedComment(Texts(vs).value)
    ensures CommentFold(vs).Success? && CommentFold(vs).value.Raw? <==>
              vs != [] && !vs[|vs| - 1].Text? && AllBlank(vs[..|vs| - 1])
    ensures CommentFold(vs).Success? && CommentFold(vs).value.Raw? ==> CommentFold(vs).value.x == vs[|vs| - 1]
    ensures CommentFold(vs).Failure? ==> CommentFold(vs).error == TypeMismatch("COMMENT")
    decreases |vs|
  {
    if vs != [] {
      var init, last := vs[..|vs| - 1], vs[|vs| - 1];
      CommentFoldOutcome(init);
      SnocFacts(vs);
      match CommentFold(init)
      case Failure(e) =>
        assert CommentFold(vs) == Failure(e);
      case Success(Raw(x)) =>
        assert CommentFold(vs) == Failure(TypeMismatch("COMMENT"));
      case Success(Str(t)) =>
        assert CommentFold(vs) == CommentStep(Str(t), last);
        BlankJoined(init);
        if last.Text? {
          TextsSnoc(vs);
          JoinedCommentSnoc(Texts(init).value, last.s);
        }
    }
  }

  lemma {:induction false} TextsSnoc(vs: seq<Item>)
    requires vs != [] && AllText(vs)
    ensures Texts(vs).value == Texts(vs[..|vs| - 1]).value + [vs[|vs| - 1].s]
    decreases |vs|
  {
    if |vs| > 1 {
      var tail := vs[1..];
      assert AllText(tail) by {
        assert forall i :: 0 <= i < |tail| ==> tail[i] == vs[i + 1];
      }
      TextsSnoc(tail);
      assert tail[..|tail| - 1] == vs[..|vs| - 1][1..];
      assert vs[..|vs| - 1][0] == vs[0];
    }
  }

  predicate AllText(vs: seq<Item>) {
    forall i :: 0 <= i < |vs| ==> vs[i].Text?
  }

  predicate AllBlank(vs: seq<Item>) {
    forall i :: 0 <= i < |vs| ==> vs[i] == Text("")
  }

  /** Both predicates over a list are the predicate over the list without
      its last value, and a fact about that value. */
  lemma SnocFacts(vs: seq<Item>)
    requires vs != []
    ensures AllText(vs) <==> AllText(vs[..|vs| - 1]) && vs[|vs| - 1].Text?
    ensures AllBlank(vs[..|vs| - 1]) ==> AllText(vs[..|vs| - 1])
  {
    assert forall i :: 0 <= i < |vs| - 1 ==> vs[..|vs| - 1][i] == vs[i];
  }

  /** Blank values are exactly the strings that join to "". */
  lemma BlankJoined(vs: seq<Item>)
    requires AllText(vs)
    ensures AllBlank(vs) <==> JoinedComment(Texts(vs).value) == ""
  {
    JoinedCommentEmpty(Texts(vs).value);
  }

  /** A piece is written for each entry outside the keyword list, so the
      column is "NULL" exactly when every name is a keyword. */
  lemma {:induction false} CustomEmpty(es: seq<Property>, show: seq<Item> -> string)
    ensures CustomOf(es, show) == "" <==> forall i :: 0 <= i < |es| ==> Contains(KEYWORDS, es[i].name)
    decreases |es|
  {
    if es != [] {
      var init := es[..|es| - 1];
      CustomEmpty(init, show);
      assert forall i :: 0 <= i < |init| ==> init[i] == es[i];
    }
  }

  /** TOPIC is not a keyword: left in the set, it would give a piece of
      its own, which is why it is removed first. */
  lemma {:induction false} TopicWouldShow(es: seq<Property>, show: seq<Item> -> string, v: seq<Item>)
    ensures CustomOf(es + [Property(TOPIC, v)], show) == CustomOf(es, show) + Piece(Property(TOPIC, v), show)
  {
    assert (es + [Property(TOPIC, v)])[..|es|] == es;
    assert !Contains(KEYWORDS, TOPIC) by {
      forall i | 0 <= i < |KEYWORDS|
        ensures KEYWORDS[i] != TOPIC
      {
      }
    }
  }
}
