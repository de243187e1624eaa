/** src/PipelineLogEvent.cc: a log event that also carries the pipeline
    coordinates of the record it reports. */
module PipelineLogEvents {
  import opened Common
  import opened PropertySets
  import opened Messages
  import opened StringSets
  import opened BaseEvent
  import LogEvents

  const DATAID: string := "DATAID"
  const LOOPNUM: string := "LOOPNUM"
  const PIPELINE: string := "PIPELINE"
  const SLICEID: string := "SLICEID"
  const STAGEID: string := "STAGEID"

  const FIELDS: Schema := [(DATAID, TStr), (LOOPNUM, TInt), (PIPELINE, TStr), (SLICEID, TInt), (STAGEID, TInt)]

  /** The keywords of a PipelineLogEvent: a LogEvent's, then the five
      fields. */
  const PIPE_KEYWORDS: seq<string> := InsertAll(InsertAll(InsertAll([], KEYWORDS), FieldNames(LogEvents.FIELDS)), FieldNames(FIELDS))

  /** The header fields of a pipeline log event: the base ones, the log
      event's, then these. */
  const SCHEMA_OUT: Schema := HEADER_OUT + LogEvents.FIELDS + FIELDS
  const SCHEMA_IN: Schema := HEADER_IN + LogEvents.FIELDS + FIELDS

  /** A string field of the record: "unknown" when absent, otherwise
      `getAsString`, which fails on a value that is not a string. */
  function StringField(rec: PropertySet, name: string): (r: Result<string>)
    ensures !Exists(rec, name) ==> r == Success("unknown")
    ensures Exists(rec, name) ==> (r.Success? <==> Lookup(rec, name).value.Str?)
    ensures Exists(rec, name) && r.Success? ==> Lookup(rec, name) == Some(Str(r.value))
  {
    if !Exists(rec, name) then Success("unknown") else GetString(rec, name)
  }

  /** An integer field of the record: -1 when absent, otherwise
      `getAsInt`, which takes an int or a bool. */
  function IntField(rec: PropertySet, name: string): (r: Result<int>)
    ensures !Exists(rec, name) ==> r == Success(-1)
    ensures Exists(rec, name) ==> (r.Success? <==> Lookup(rec, name).value.Int? || Lookup(rec, name).value.Bool?)
    ensures Lookup(rec, name) == Some(Bool(true)) ==> r == Success(1)
    ensures Lookup(rec, name) == Some(Bool(false)) ==> r == Success(0)
    ensures (Exists(rec, name) && Lookup(rec, name).value.Int?) ==> r == Success(Lookup(rec, name).value.i)
  {
    if !Exists(rec, name) then Success(-1) else GetAsInt(rec, name)
  }

  /** The record constructor's values, all five read. */
  datatype Coordinates = Coordinates(dataId: string, loopnum: int, pipeline: string, sliceId: int, stageId: int)

  function RecordCoordinates(rec: PropertySet): (r: Result<Coordinates>)
    ensures r.Success? <==> StringField(rec, DATAID).Success? && IntField(rec, LOOPNUM).Success? &&
                            StringField(rec, PIPELINE).Success? && IntField(rec, SLICEID).Success? &&
                            IntField(rec, STAGEID).Success?
    ensures r.Success? ==> r.value == Coordinates(StringField(rec, DATAID).value, IntField(rec, LOOPNUM).value,
                                                  StringField(rec, PIPELINE).value, IntField(rec, SLICEID).value,
                                                  IntField(rec, STAGEID).value)
  {
    var d :- StringField(rec, DATAID);
    var l :- IntField(rec, LOOPNUM);
    var p :- StringField(rec, PIPELINE);
    var s :- IntField(rec, SLICEID);
    var st :- IntField(rec, STAGEID);
    Success(Coordinates(d, l, p, s, st))
  }

  /** TYPE and the five writes, in the constructor's order. */
  function CoordinateWrites(tag: string, c: Coordinates): (ws: seq<(string, Value)>)
    ensures |ws| == 6
  {
    [(TYPE, Str(tag)), (DATAID, Str(c.dataId)), (LOOPNUM, Int(c.loopnum)),
     (PIPELINE, Str(c.pipeline)), (SLICEID, Int(c.sliceId)), (STAGEID, Int(c.stageId))]
  }

  function WithCoordinates(ps: PropertySet, tag: string, c: Coordinates): PropertySet {
    SetAll(ps, CoordinateWrites(tag, c))
  }

  /** The sets after each of the writes, from `ps` on. */
  function CoordinateSteps(ps: PropertySet, tag: string, c: Coordinates): (r: seq<PropertySet>)
    ensures |r| == 7 && r[0] == ps
  {
    var p1 := Set(ps, TYPE, Str(tag));
    var p2 := Set(p1, DATAID, Str(c.dataId));
    var p3 := Set(p2, LOOPNUM, Int(c.loopnum));
    var p4 := Set(p3, PIPELINE, Str(c.pipeline));
    var p5 := Set(p4, SLICEID, Int(c.sliceId));
    [ps, p1, p2, p3, p4, p5, Set(p5, STAGEID, Int(c.stageId))]
  }

  /** Folding the writes is making them one after the other. */
  lemma WithCoordinatesSteps(ps: PropertySet, tag: string, c: Coordinates)
    ensures WithCoordinates(ps, tag, c) == CoordinateSteps(ps, tag, c)[6]
  {
    var ws := CoordinateWrites(tag, c);
    var p := CoordinateSteps(ps, tag, c);
    SetAllUnfold(p[0], ws, 0);
    SetAllUnfold(p[1], ws, 1);
    SetAllUnfold(p[2], ws, 2);
    SetAllUnfold(p[3], ws, 3);
    SetAllUnfold(p[4], ws, 4);
    SetAllUnfold(p[5], ws, 5);
    assert ws[6..] == [];
  }

  /** The six writes are to six different names. */
  lemma CoordinateWritesDistinct(tag: string, c: Coordinates)
    ensures DistinctWrites(CoordinateWrites(tag, c))
  {
    var ws := CoordinateWrites(tag, c);
    assert ws[0].0[0] == 'T' && ws[1].0[0] == 'D' && ws[2].0[0] == 'L' && ws[3].0[0] == 'P';
    assert ws[4].0[0] == 'S' && ws[5].0[0] == 'S' && ws[4].0[1] == 'L' && ws[5].0[1] == 'T';
  }

  lemma FieldList()
    ensures FieldNames(FIELDS) == [DATAID, LOOPNUM, PIPELINE, SLICEID, STAGEID]
  {
  }

  /** How the coordinates are read back by the getters. */
  function ReadCoordinates(ps: PropertySet): (r: Result<Coordinates>)
    ensures r.Success? ==> Lookup(ps, DATAID) == Some(Str(r.value.dataId)) && Lookup(ps, LOOPNUM) == Some(Int(r.value.loopnum))
    ensures r.Success? ==> Lookup(ps, PIPELINE) == Some(Str(r.value.pipeline)) && Lookup(ps, SLICEID) == Some(Int(r.value.sliceId))
    ensures r.Success? ==> Lookup(ps, STAGEID) == Some(Int(r.value.stageId))
    ensures r.Success? ==> Typed(ps, FIELDS)
  {
    var d :- GetString(ps, DATAID);
    var l :- GetInt(ps, LOOPNUM);
    var p :- GetString(ps, PIPELINE);
    var s :- GetInt(ps, SLICEID);
    var st :- GetInt(ps, STAGEID);
    assert Typed(ps, FIELDS) by {
      forall i | 0 <= i < |FIELDS| ensures Lookup(ps, FIELDS[i].0).Some? && HasTag(Lookup(ps, FIELDS[i].0).value, FIELDS[i].1) {
        assert i == 0 || i == 1 || i == 2 || i == 3 || i == 4;
      }
    }
    Success(Coordinates(d, l, p, s, st))
  }

  lemma ReadCoordinatesTyped(ps: PropertySet)
    ensures Typed(ps, FIELDS) ==> ReadCoordinates(ps).Success?
  {
    assert FIELDS[0] == (DATAID, TStr) && FIELDS[1] == (LOOPNUM, TInt) && FIELDS[2] == (PIPELINE, TStr);
    assert FIELDS[3] == (SLICEID, TInt) && FIELDS[4] == (STAGEID, TInt);
  }

  /** The writes are read back as written, and only TYPE and the five
      fields change. */
  lemma WithCoordinatesFacts(ps: PropertySet, tag: string, c: Coordinates)
    ensures ReadCoordinates(WithCoordinates(ps, tag, c)) == Success(c)
    ensures Lookup(WithCoordinates(ps, tag, c), TYPE) == Some(Str(tag))
    ensures forall n :: n != TYPE && n !in FieldNames(FIELDS) ==> Lookup(WithCoordinates(ps, tag, c), n) == Lookup(ps, n)
  {
    var ws := CoordinateWrites(tag, c);
    var r := WithCoordinates(ps, tag, c);
    CoordinateWritesDistinct(tag, c);
    SetAllWritten(ps, ws);
    assert ws[0].0 == TYPE && ws[1].0 == DATAID && ws[2].0 == LOOPNUM;
    assert ws[3].0 == PIPELINE && ws[4].0 == SLICEID && ws[5].0 == STAGEID;
    FieldList();
    forall n | n != TYPE && n !in FieldNames(FIELDS) ensures Lookup(r, n) == Lookup(ps, n) {
      SetAllElsewhere(ps, ws, n);
    }
  }

  method NewDefault() returns (e: Event)
    ensures fresh(e) && e.Valid() && e.kind == PipelineLogEvent && e.psp == None
    ensures e.keywords == PIPE_KEYWORDS
  {
    e := LogEvents.NewDefault();
    e.AddKeywords(PipelineLogEvent, FieldNames(FIELDS));
  }

  /** `PipelineLogEvent(runId, rec)` after its base `LogEvent(runId, rec)`,
      whose result is the event passed in: TYPE becomes the pipeline-log
      tag and each coordinate is the record's or its default. A record
      value of the wrong type raises and no event results. */
  method FromRecord(e: Event, rec: PropertySet, pipelineLog: string) returns (r: Result<()>)
    requires e.Valid() && e.psp.Some?
    modifies e
    ensures e.Valid() && e.kind == PipelineLogEvent && e.psp.Some?
    ensures e.keywords == InsertAll(old(e.keywords), FieldNames(FIELDS))
    ensures r.Success? <==> RecordCoordinates(rec).Success?
    ensures r.Success? ==> ReadCoordinates(e.psp.value) == RecordCoordinates(rec)
    ensures r.Success? ==> Lookup(e.psp.value, TYPE) == Some(Str(pipelineLog))
    ensures r.Success? ==> forall n :: n != TYPE && n !in FieldNames(FIELDS) ==> Lookup(e.psp.value, n) == Lookup(old(e.psp.value), n)
  {
    e.AddKeywords(PipelineLogEvent, FieldNames(FIELDS));
    var c := RecordCoordinates(rec);
    if c.Failure? { return Failure(c.error); }
    ghost var before := e.psp.value;
    WriteCoordinates(e, pipelineLog, c.value);
    WithCoordinatesFacts(before, pipelineLog, c.value);
    return Success(());
  }

  /** The constructor's writes: TYPE, then the five coordinates. */
  method WriteCoordinates(e: Event, tag: string, c: Coordinates)
    requires e.psp.Some?
    modifies e`psp
    ensures e.psp == Some(WithCoordinates(old(e.psp.value), tag, c))
  {
    WithCoordinatesSteps(e.psp.value, tag, c);
    e.SetProperty(TYPE, Str(tag));
    e.SetProperty(DATAID, Str(c.dataId));
    e.SetProperty(LOOPNUM, Int(c.loopnum));
    e.SetProperty(PIPELINE, Str(c.pipeline));
    e.SetProperty(SLICEID, Int(c.sliceId));
    e.SetProperty(STAGEID, Int(c.stageId));
  }

  /** `PipelineLogEvent(msg)`: `LogEvent(msg)`, then the five fields. */
  method FromMessage(msg: TextMessage) returns (r: Result<Event>)
    ensures r.Success? <==> ReadFields(msg.header, msg.body, SCHEMA_IN).Success?
    ensures r.Success? ==> fresh(r.value) && r.value.Valid() && r.value.kind == PipelineLogEvent
    ensures r.Success? ==> r.value.keywords == PIPE_KEYWORDS
    ensures r.Success? ==> r.value.psp == Some(ReadFields(msg.header, msg.body, SCHEMA_IN).value)
  {
    ReadFieldsConcat(msg.header, msg.body, HEADER_IN + LogEvents.FIELDS, FIELDS);
    var base := LogEvents.FromMessage(msg);
    if base.Failure? { return Failure(base.error); }
    var e := base.value;
    var ok := e.Extend(PipelineLogEvent, FIELDS, msg.header);
    if ok.Failure? { return Failure(ok.error); }
    return Success(e);
  }

  /** `getDataId`. */
  function GetDataId(e: Event): (r: Result<string>)
    reads e
    requires e.psp.Some?
    ensures r.Success? <==> Lookup(e.psp.value, DATAID).Some? && Lookup(e.psp.value, DATAID).value.Str?
    ensures r.Success? ==> Lookup(e.psp.value, DATAID) == Some(Str(r.value))
  {
    GetString(e.psp.value, DATAID)
  }

  /** `getLoopnum`. */
  function GetLoopnum(e: Event): (r: Result<int>)
    reads e
    requires e.psp.Some?
    ensures r.Success? <==> Lookup(e.psp.value, LOOPNUM).Some? && Lookup(e.psp.value, LOOPNUM).value.Int?
    ensures r.Success? ==> Lookup(e.psp.value, LOOPNUM) == Some(Int(r.value))
  {
    GetInt(e.psp.value, LOOPNUM)
  }

  /** `getPipeline`. */
  function GetPipeline(e: Event): (r: Result<string>)
    reads e
    requires e.psp.Some?
    ensures r.Success? <==> Lookup(e.psp.value, PIPELINE).Some? && Lookup(e.psp.value, PIPELINE).value.Str?
    ensures r.Success? ==> Lookup(e.psp.value, PIPELINE) == Some(Str(r.value))
  {
    GetString(e.psp.value, PIPELINE)
  }

  /** `getSliceId`. */
  function GetSliceId(e: Event): (r: Result<int>)
    reads e
    requires e.psp.Some?
    ensures r.Success? <==> Lookup(e.psp.value, SLICEID).Some? && Lookup(e.psp.value, SLICEID).value.Int?
    ensures r.Success? ==> Lookup(e.psp.value, SLICEID) == Some(Int(r.value))
  {
    GetInt(e.psp.value, SLICEID)
  }

  /** `getStageId`. */
  function GetStageId(e: Event): (r: Result<int>)
    reads e
    requires e.psp.Some?
    ensures r.Success? <==> Lookup(e.psp.value, STAGEID).Some? && Lookup(e.psp.value, STAGEID).value.Int?
    ensures r.Success? ==> Lookup(e.psp.value, STAGEID) == Some(Int(r.value))
  {
    GetInt(e.psp.value, STAGEID)
  }

  /** The five getters succeed together exactly when the fields are stored
      with their types, and then give the coordinates that were written. */
  lemma GettersRead(e: Event)
    requires e.psp.Some?
    ensures Typed(e.psp.value, FIELDS) <==>
      GetDataId(e).Success? && GetLoopnum(e).Success? && GetPipeline(e).Success? && GetSliceId(e).Success? && GetStageId(e).Success?
    ensures ReadCoordinates(e.psp.value).Success? ==>
      ReadCoordinates(e.psp.value).value ==
        Coordinates(GetDataId(e).value, GetLoopnum(e).value, GetPipeline(e).value, GetSliceId(e).value, GetStageId(e).value)
  {
    ReadCoordinatesTyped(e.psp.value);
  }
}
