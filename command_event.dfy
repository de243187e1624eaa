/** src/CommandEvent.cc: an event that carries an originator id and a
    destination id in six integer header fields. */
module CommandEvents {
  import opened Common
  import opened PropertySets
  import opened Messages
  import opened StringSets
  import opened BaseEvent
  import EventTypes
  import IdStatics
  import LocationIDs

  const ORIG_IPID: string := "ORIG_IPID"
  const ORIG_PROCESSID: string := "ORIG_PROCESSID"
  const ORIG_LOCALID: string := "ORIG_LOCALID"
  const DEST_IPID: string := "DEST_IPID"
  const DEST_PROCESSID: string := "DEST_PROCESSID"
  const DEST_LOCALID: string := "DEST_LOCALID"

  /** The subclass fields, in the order of `populateHeader` and of the
      message constructor. */
  const FIELDS: Schema := [(ORIG_IPID, TInt), (ORIG_PROCESSID, TInt), (ORIG_LOCALID, TInt),
                           (DEST_IPID, TInt), (DEST_PROCESSID, TInt), (DEST_LOCALID, TInt)]

  /** The keywords of a CommandEvent: the base ones, then the six fields. */
  const CMD_KEYWORDS: seq<string> := InsertAll(InsertAll([], KEYWORDS), FieldNames(FIELDS))

  /** An id's three values: IP address, process id, local id. */
  datatype Triple = Triple(ip: int, pid: int, local: int)

  /** The six writes `_constructor` makes, then TYPE "_C". */
  function WithIds(c: PropertySet, o: Triple, d: Triple): PropertySet {
    SetAll(c, IdWrites(o, d))
  }

  /** What the six values are read back as. */
  function Originator(ps: PropertySet): (r: Result<Triple>)
    ensures r.Success? <==> GetInt(ps, ORIG_IPID).Success? && GetInt(ps, ORIG_PROCESSID).Success? && GetInt(ps, ORIG_LOCALID).Success?
    ensures r.Success? ==> Lookup(ps, ORIG_IPID) == Some(Int(r.value.ip)) && Lookup(ps, ORIG_PROCESSID) == Some(Int(r.value.pid)) &&
                           Lookup(ps, ORIG_LOCALID) == Some(Int(r.value.local))
  {
    var ip :- GetInt(ps, ORIG_IPID);
    var pid :- GetInt(ps, ORIG_PROCESSID);
    var local :- GetInt(ps, ORIG_LOCALID);
    Success(Triple(ip, pid, local))
  }

  function Destination(ps: PropertySet): (r: Result<Triple>)
    ensures r.Success? <==> GetInt(ps, DEST_IPID).Success? && GetInt(ps, DEST_PROCESSID).Success? && GetInt(ps, DEST_LOCALID).Success?
    ensures r.Success? ==> Lookup(ps, DEST_IPID) == Some(Int(r.value.ip)) && Lookup(ps, DEST_PROCESSID) == Some(Int(r.value.pid)) &&
                           Lookup(ps, DEST_LOCALID) == Some(Int(r.value.local))
  {
    var ip :- GetInt(ps, DEST_IPID);
    var pid :- GetInt(ps, DEST_PROCESSID);
    var local :- GetInt(ps, DEST_LOCALID);
    Success(Triple(ip, pid, local))
  }

  /** The ids written by `_constructor` are the ids read back, each from
      its own fields, and nothing outside TYPE and the six fields
      changes. */
  lemma WithIdsFacts(c: PropertySet, o: Triple, d: Triple)
    ensures Originator(WithIds(c, o, d)) == Success(o)
    ensures Destination(WithIds(c, o, d)) == Success(d)
    ensures Lookup(WithIds(c, o, d), TYPE) == Some(Str(EventTypes.COMMAND))
    ensures forall n :: n != TYPE && n !in FieldNames(FIELDS) ==> Lookup(WithIds(c, o, d), n) == Lookup(c, n)
    ensures Typed(c, HEADER_OUT) ==> Typed(WithIds(c, o, d), HEADER_OUT + FIELDS)
  {
    WithIdsLookups(c, o, d);
    WithIdsRead(c, o, d);
    if Typed(c, HEADER_OUT) {
      WithIdsTyped(c, o, d);
    }
  }

  /** Each id is read back from its own three fields. */
  lemma WithIdsRead(c: PropertySet, o: Triple, d: Triple)
    ensures Originator(WithIds(c, o, d)) == Success(o)
    ensures Destination(WithIds(c, o, d)) == Success(d)
  {
    var r := WithIds(c, o, d);
    WithIdsLookups(c, o, d);
    assert GetInt(r, ORIG_IPID) == Success(o.ip) && GetInt(r, ORIG_PROCESSID) == Success(o.pid);
    assert GetInt(r, ORIG_LOCALID) == Success(o.local);
    assert GetInt(r, DEST_IPID) == Success(d.ip) && GetInt(r, DEST_PROCESSID) == Success(d.pid);
    assert GetInt(r, DEST_LOCALID) == Success(d.local);
  }

  /** The sets after each of WithIds' writes, from `c` on. */
  function IdSteps(c: PropertySet, o: Triple, d: Triple): (ps: seq<PropertySet>)
    ensures |ps| == 8 && ps[0] == c
  {
    var p1 := Set(c, ORIG_IPID, Int(o.ip));
    var p2 := Set(p1, ORIG_PROCESSID, Int(o.pid));
    var p3 := Set(p2, ORIG_LOCALID, Int(o.local));
    var p4 := Set(p3, DEST_IPID, Int(d.ip));
    var p5 := Set(p4, DEST_PROCESSID, Int(d.pid));
    var p6 := Set(p5, DEST_LOCALID, Int(d.local));
    [c, p1, p2, p3, p4, p5, p6, Set(p6, TYPE, Str(EventTypes.COMMAND))]
  }

  /** WithIds' writes, in order. */
  function IdWrites(o: Triple, d: Triple): (ws: seq<(string, Value)>)
    ensures |ws| == 7
  {
    [(ORIG_IPID, Int(o.ip)), (ORIG_PROCESSID, Int(o.pid)), (ORIG_LOCALID, Int(o.local)),
     (DEST_IPID, Int(d.ip)), (DEST_PROCESSID, Int(d.pid)), (DEST_LOCALID, Int(d.local)),
     (TYPE, Str(EventTypes.COMMAND))]
  }

  /** The seven writes are to seven different names; only TYPE is a header
      field, and it is given a string. */
  lemma IdWritesShape(o: Triple, d: Triple)
    ensures DistinctWrites(IdWrites(o, d))
    ensures WritesFit(IdWrites(o, d), HEADER_OUT)
  {
    var ws := IdWrites(o, d);
    assert ws[0].0[0] == 'O' && ws[1].0[0] == 'O' && ws[2].0[0] == 'O';
    assert ws[3].0[0] == 'D' && ws[4].0[0] == 'D' && ws[5].0[0] == 'D' && ws[6].0[0] == 'T';
    assert |ws[0].0| == 9 && |ws[1].0| == 14 && |ws[2].0| == 12;
    assert |ws[3].0| == 9 && |ws[4].0| == 14 && |ws[5].0| == 12;
    assert ws[0].0[1] == 'R' && ws[1].0[1] == 'R' && ws[2].0[1] == 'R';
    assert ws[3].0[1] == 'E' && ws[4].0[1] == 'E' && ws[5].0[1] == 'E' && ws[6].0[1] == 'Y';
    HeaderSecondLetters();
    assert HEADER_OUT[0] == (TYPE, TStr);
  }

  /** Folding the writes is making them one after the other. */
  lemma WithIdsSteps(c: PropertySet, o: Triple, d: Triple)
    ensures WithIds(c, o, d) == IdSteps(c, o, d)[7]
  {
    var ws := IdWrites(o, d);
    var p := IdSteps(c, o, d);
    SetAllUnfold(p[0], ws, 0);
    SetAllUnfold(p[1], ws, 1);
    SetAllUnfold(p[2], ws, 2);
    SetAllUnfold(p[3], ws, 3);
    SetAllUnfold(p[4], ws, 4);
    SetAllUnfold(p[5], ws, 5);
    SetAllUnfold(p[6], ws, 6);
    assert ws[7..] == [];
  }

  lemma FieldList()
    ensures FieldNames(FIELDS) == [ORIG_IPID, ORIG_PROCESSID, ORIG_LOCALID, DEST_IPID, DEST_PROCESSID, DEST_LOCALID]
  {
  }

  lemma WithIdsLookups(c: PropertySet, o: Triple, d: Triple)
    ensures Lookup(WithIds(c, o, d), ORIG_IPID) == Some(Int(o.ip))
    ensures Lookup(WithIds(c, o, d), ORIG_PROCESSID) == Some(Int(o.pid))
    ensures Lookup(WithIds(c, o, d), ORIG_LOCALID) == Some(Int(o.local))
    ensures Lookup(WithIds(c, o, d), DEST_IPID) == Some(Int(d.ip))
    ensures Lookup(WithIds(c, o, d), DEST_PROCESSID) == Some(Int(d.pid))
    ensures Lookup(WithIds(c, o, d), DEST_LOCALID) == Some(Int(d.local))
    ensures Lookup(WithIds(c, o, d), TYPE) == Some(Str(EventTypes.COMMAND))
    ensures forall n :: n != TYPE && n !in FieldNames(FIELDS) ==> Lookup(WithIds(c, o, d), n) == Lookup(c, n)
  {
    var ws := IdWrites(o, d);
    IdWritesShape(o, d);
    SetAllWritten(c, ws);
    assert ws[0].0 == ORIG_IPID && ws[1].0 == ORIG_PROCESSID && ws[2].0 == ORIG_LOCALID;
    assert ws[3].0 == DEST_IPID && ws[4].0 == DEST_PROCESSID && ws[5].0 == DEST_LOCALID && ws[6].0 == TYPE;
    FieldList();
    forall n | n != TYPE && n !in FieldNames(FIELDS) ensures Lookup(WithIds(c, o, d), n) == Lookup(c, n) {
      SetAllElsewhere(c, ws, n);
    }
  }

  lemma WithIdsTyped(c: PropertySet, o: Triple, d: Triple)
    requires Typed(c, HEADER_OUT)
    ensures Typed(WithIds(c, o, d), HEADER_OUT + FIELDS)
  {
    var ws := IdWrites(o, d);
    var r := WithIds(c, o, d);
    IdWritesShape(o, d);
    TypedAfterSetAll(c, HEADER_OUT, ws);
    SetAllWritten(c, ws);
    assert Typed(r, FIELDS) by {
      forall i | 0 <= i < |FIELDS| ensures Lookup(r, FIELDS[i].0).Some? && HasTag(Lookup(r, FIELDS[i].0).value, FIELDS[i].1) {
        assert FIELDS[i].0 == ws[i].0 && FIELDS[i].1 == TInt;
      }
    }
    TypedConcat(r, HEADER_OUT, FIELDS);
  }

  method NewDefault() returns (e: Event)
    ensures fresh(e) && e.Valid() && e.kind == CommandEvent && e.psp == None
    ensures e.keywords == CMD_KEYWORDS
  {
    e := new Event.Default();
    e.AddKeywords(CommandEvent, FieldNames(FIELDS));
  }

  /** `CommandEvent(runId, originator, destination, ps)` as written: each
      id's getters read the LocationID statics, so both ids report the
      statics' values at the time of the call. */
  method New(runId: string, originator: LocationIDs.LocationID, destination: LocationIDs.LocationID,
             ps: PropertySet, hostName: string, now: int)
    returns (e: Event)
    ensures fresh(e) && e.Valid() && e.kind == CommandEvent
    ensures e.keywords == CMD_KEYWORDS
    ensures e.psp.Some?
    ensures Originator(e.psp.value) ==
            Success(Triple(originator.GetIPAddress(), originator.GetProcessID(), originator.GetLocalID()))
    ensures Destination(e.psp.value) ==
            Success(Triple(destination.GetIPAddress(), destination.GetProcessID(), destination.GetLocalID()))
  {
    var o := Triple(originator.GetIPAddress(), originator.GetProcessID(), originator.GetLocalID());
    var d := Triple(destination.GetIPAddress(), destination.GetProcessID(), destination.GetLocalID());
    e := NewFromIds(runId, o, d, ps, hostName, now);
  }

  /** The constructor with the two ids passed by value, so that the
      originator fields come from the originator alone and the destination
      fields from the destination alone. */
  method NewFromIds(runId: string, o: Triple, d: Triple, ps: PropertySet, hostName: string, now: int)
    returns (e: Event)
    ensures fresh(e) && e.Valid() && e.kind == CommandEvent
    ensures e.keywords == CMD_KEYWORDS
    ensures e.psp == Some(WithIds(Constructed(runId, ps, hostName, now), o, d))
    ensures Originator(e.psp.value) == Success(o) && Destination(e.psp.value) == Success(d)
  {
    e := new Event(runId, ps, hostName, now);
    e.AddKeywords(CommandEvent, FieldNames(FIELDS));
    WriteIds(e, o, d);
    WithIdsRead(Constructed(runId, ps, hostName, now), o, d);
  }

  /** With the caller's properties of the types the header needs, the
      constructed command event has every header field it publishes. */
  lemma NewIsTyped(runId: string, o: Triple, d: Triple, ps: PropertySet, hostName: string, now: int)
    requires CallerTypesFit(ps)
    ensures Typed(WithIds(Constructed(runId, ps, hostName, now), o, d), HEADER_OUT + FIELDS)
  {
    ConstructedIsTyped(runId, ps, hostName, now);
    WithIdsTyped(Constructed(runId, ps, hostName, now), o, d);
  }

  /** The writes of `_constructor`: the six id fields, then TYPE. */
  method WriteIds(e: Event, o: Triple, d: Triple)
    requires e.psp.Some?
    modifies e`psp
    ensures e.psp == Some(WithIds(old(e.psp.value), o, d))
  {
    WithIdsSteps(e.psp.value, o, d);
    e.SetProperty(ORIG_IPID, Int(o.ip));
    e.SetProperty(ORIG_PROCESSID, Int(o.pid));
    e.SetProperty(ORIG_LOCALID, Int(o.local));
    e.SetProperty(DEST_IPID, Int(d.ip));
    e.SetProperty(DEST_PROCESSID, Int(d.pid));
    e.SetProperty(DEST_LOCALID, Int(d.local));
    e.SetProperty(TYPE, Str(EventTypes.COMMAND));
  }

  /** Two distinct ids made one after the other, then given to the
      constructor as originator and destination: all six fields hold the
      destination's values, the originator's are lost. */
  method OriginatorLost(shared: IdStatics.Statics, runId: string, ps: PropertySet, hostName: string, now: int)
    returns (e: Event)
    modifies shared
    ensures e.psp.Some?
    ensures Originator(e.psp.value) == Success(Triple(4, 5, 6))
    ensures Destination(e.psp.value) == Success(Triple(4, 5, 6))
  {
    var originator := new LocationIDs.LocationID(shared, 1, 2, 3);
    var destination := new LocationIDs.LocationID(shared, 4, 5, 6);
    e := New(runId, originator, destination, ps, hostName, now);
  }

  /** `CommandEvent(msg)`. */
  method FromMessage(msg: TextMessage) returns (r: Result<Event>)
    ensures r.Success? <==> ReadFields(msg.header, msg.body, HEADER_IN + FIELDS).Success?
    ensures r.Success? ==> fresh(r.value) && r.value.Valid() && r.value.kind == CommandEvent
    ensures r.Success? ==> r.value.keywords == CMD_KEYWORDS
    ensures r.Success? ==> r.value.psp == Some(ReadFields(msg.header, msg.body, HEADER_IN + FIELDS).value)
  {
    ReadFieldsConcat(msg.header, msg.body, HEADER_IN, FIELDS);
    var base := BaseEvent.FromMessage(msg);
    if base.Failure? { return Failure(base.error); }
    var e := base.value;
    var ok := e.Extend(CommandEvent, FIELDS, msg.header);
    if ok.Failure? { return Failure(ok.error); }
    return Success(e);
  }

  /** `getOriginator`: `new LocationID` of the ORIG_* values, which sets
      the LocationID statics. */
  method GetOriginator(e: Event, shared: IdStatics.Statics) returns (r: Result<LocationIDs.LocationID>)
    requires e.psp.Some?
    modifies shared
    ensures r.Success? <==> Originator(e.psp.value).Success?
    ensures r.Success? ==> fresh(r.value) && r.value.shared == shared
    ensures r.Success? ==> Triple(r.value.GetIPAddress(), r.value.GetProcessID(), r.value.GetLocalID()) == Originator(e.psp.value).value
    ensures r.Failure? ==> unchanged(shared)
  {
    var o :- Originator(e.psp.value);
    var id := new LocationIDs.LocationID(shared, o.ip, o.pid, o.local);
    return Success(id);
  }

  /** `getDestination`, likewise from the DEST_* values. */
  method GetDestination(e: Event, shared: IdStatics.Statics) returns (r: Result<LocationIDs.LocationID>)
    requires e.psp.Some?
    modifies shared
    ensures r.Success? <==> Destination(e.psp.value).Success?
    ensures r.Success? ==> fresh(r.value) && r.value.shared == shared
    ensures r.Success? ==> Triple(r.value.GetIPAddress(), r.value.GetProcessID(), r.value.GetLocalID()) == Destination(e.psp.value).value
    ensures r.Failure? ==> unchanged(shared)
  {
    var d :- Destination(e.psp.value);
    var id := new LocationIDs.LocationID(shared, d.ip, d.pid, d.local);
    return Success(id);
  }

  /** Asking for the originator and then the destination: the originator
      object then reports the destination's values. */
  method OriginatorThenDestination(e: Event, shared: IdStatics.Statics)
    returns (o: LocationIDs.LocationID, d: LocationIDs.LocationID)
    requires e.psp.Some? && Originator(e.psp.value).Success? && Destination(e.psp.value).Success?
    modifies shared
    ensures Triple(o.GetIPAddress(), o.GetProcessID(), o.GetLocalID()) == Destination(e.psp.value).value
    ensures Triple(d.GetIPAddress(), d.GetProcessID(), d.GetLocalID()) == Destination(e.psp.value).value
  {
    var ro := GetOriginator(e, shared);
    o := ro.value;
    var rd := GetDestination(e, shared);
    d := rd.value;
  }
}
