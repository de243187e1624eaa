/** src/StatusEvent.cc: an event that also carries its originator's id in
    three integer header fields. */
module StatusEvents {
  import opened Common
  import opened PropertySets
  import opened Messages
  import opened StringSets
  import opened BaseEvent
  import EventTypes
  import IdStatics
  import LocationIDs

  const ORIG_IPID: string := "ORIG_IPID"
  const ORIG_PROCESSID: string := "ORIG_PROCESSID"
  const ORIG_LOCALID: string := "ORIG_LOCALID"

  /** The fields `populateHeader` adds after the base ones, and the message
      constructor reads after the base ones, in that order. */
  const FIELDS: Schema := [(ORIG_IPID, TInt), (ORIG_PROCESSID, TInt), (ORIG_LOCALID, TInt)]

  /** The keywords of a StatusEvent: the base ones, then the three fields. */
  const STATUS_KEYWORDS: seq<string> := InsertAll(InsertAll([], KEYWORDS), FieldNames(FIELDS))

  /** `StatusEvent()`: a default event with the three keywords added. */
  method NewDefault() returns (e: Event)
    ensures fresh(e) && e.Valid() && e.kind == StatusEvent && e.psp == None
    ensures e.keywords == STATUS_KEYWORDS
  {
    e := new Event.Default();
    e.AddKeywords(StatusEvent, FieldNames(FIELDS));
  }

  /** `StatusEvent(runID, originatorID, ps)`: the base construction, then
      the originator's three values and TYPE "_S". The originator's getters
      read the LocationID statics at that moment. */
  method New(runId: string, originator: LocationIDs.LocationID, ps: PropertySet, hostName: string, now: int)
    returns (e: Event)
    ensures fresh(e) && e.Valid() && e.kind == StatusEvent && e.psp.Some?
    ensures e.keywords == STATUS_KEYWORDS
    ensures Lookup(e.psp.value, ORIG_IPID) == Some(Int(originator.GetIPAddress()))
    ensures Lookup(e.psp.value, ORIG_PROCESSID) == Some(Int(originator.GetProcessID()))
    ensures Lookup(e.psp.value, ORIG_LOCALID) == Some(Int(originator.GetLocalID()))
    ensures Lookup(e.psp.value, TYPE) == Some(Str(EventTypes.STATUS))
    ensures forall n :: n != TYPE && n !in FieldNames(FIELDS) ==>
              Lookup(e.psp.value, n) == Lookup(Constructed(runId, ps, hostName, now), n)
    ensures CallerTypesFit(ps) ==> Typed(e.psp.value, HEADER_OUT + FIELDS)
  {
    var ip, pid, local := originator.GetIPAddress(), originator.GetProcessID(), originator.GetLocalID();
    e := new Event(runId, ps, hostName, now);
    e.AddKeywords(StatusEvent, FieldNames(FIELDS));
    WriteOriginator(e, ip, pid, local);
    WithOriginatorFacts(Constructed(runId, ps, hostName, now), ip, pid, local);
    if CallerTypesFit(ps) {
      ConstructedIsTyped(runId, ps, hostName, now);
    }
  }

  /** The writes of `_constructor`: the three id fields, then TYPE. */
  method WriteOriginator(e: Event, ip: int, pid: int, local: int)
    requires e.psp.Some?
    modifies e`psp
    ensures e.psp == Some(WithOriginator(old(e.psp.value), ip, pid, local))
  {
    WithOriginatorSteps(e.psp.value, ip, pid, local);
    e.SetProperty(ORIG_IPID, Int(ip));
    e.SetProperty(ORIG_PROCESSID, Int(pid));
    e.SetProperty(ORIG_LOCALID, Int(local));
    e.SetProperty(TYPE, Str(EventTypes.STATUS));
  }

  /** The four writes `_constructor` makes, in order. */
  function OriginatorWrites(ip: int, pid: int, local: int): (ws: seq<(string, Value)>)
    ensures |ws| == 4
  {
    [(ORIG_IPID, Int(ip)), (ORIG_PROCESSID, Int(pid)), (ORIG_LOCALID, Int(local)), (TYPE, Str(EventTypes.STATUS))]
  }

  /** The four writes `_constructor` makes over the base property set. */
  function WithOriginator(c: PropertySet, ip: int, pid: int, local: int): PropertySet {
    SetAll(c, OriginatorWrites(ip, pid, local))
  }

  /** The sets after each of the writes, from `c` on. */
  function OriginatorSteps(c: PropertySet, ip: int, pid: int, local: int): (ps: seq<PropertySet>)
    ensures |ps| == 5 && ps[0] == c
  {
    var p1 := Set(c, ORIG_IPID, Int(ip));
    var p2 := Set(p1, ORIG_PROCESSID, Int(pid));
    var p3 := Set(p2, ORIG_LOCALID, Int(local));
    [c, p1, p2, p3, Set(p3, TYPE, Str(EventTypes.STATUS))]
  }

  /** Folding the writes is making them one after the other. */
  lemma WithOriginatorSteps(c: PropertySet, ip: int, pid: int, local: int)
    ensures WithOriginator(c, ip, pid, local) == OriginatorSteps(c, ip, pid, local)[4]
  {
    var ws := OriginatorWrites(ip, pid, local);
    var p := OriginatorSteps(c, ip, pid, local);
    SetAllUnfold(p[0], ws, 0);
    SetAllUnfold(p[1], ws, 1);
    SetAllUnfold(p[2], ws, 2);
    SetAllUnfold(p[3], ws, 3);
    assert ws[4..] == [];
  }

  /** The writes are to four different names; only TYPE is a header field,
      and it is given a string. */
  lemma OriginatorWritesShape(ip: int, pid: int, local: int)
    ensures DistinctWrites(OriginatorWrites(ip, pid, local))
    ensures WritesFit(OriginatorWrites(ip, pid, local), HEADER_OUT)
  {
    var ws := OriginatorWrites(ip, pid, local);
    assert ws[0].0[1] == 'R' && ws[1].0[1] == 'R' && ws[2].0[1] == 'R' && ws[3].0[1] == 'Y';
    assert |ws[0].0| == 9 && |ws[1].0| == 14 && |ws[2].0| == 12;
    HeaderSecondLetters();
    assert HEADER_OUT[0] == (TYPE, TStr);
  }

  lemma FieldList()
    ensures FieldNames(FIELDS) == [ORIG_IPID, ORIG_PROCESSID, ORIG_LOCALID]
  {
  }

  lemma WithOriginatorFacts(c: PropertySet, ip: int, pid: int, local: int)
    ensures Lookup(WithOriginator(c, ip, pid, local), ORIG_IPID) == Some(Int(ip))
    ensures Lookup(WithOriginator(c, ip, pid, local), ORIG_PROCESSID) == Some(Int(pid))
    ensures Lookup(WithOriginator(c, ip, pid, local), ORIG_LOCALID) == Some(Int(local))
    ensures Lookup(WithOriginator(c, ip, pid, local), TYPE) == Some(Str(EventTypes.STATUS))
    ensures forall n :: n != TYPE && n !in FieldNames(FIELDS) ==> Lookup(WithOriginator(c, ip, pid, local), n) == Lookup(c, n)
    ensures Typed(c, HEADER_OUT) ==> Typed(WithOriginator(c, ip, pid, local), HEADER_OUT + FIELDS)
  {
    var ws := OriginatorWrites(ip, pid, local);
    var r := WithOriginator(c, ip, pid, local);
    OriginatorWritesShape(ip, pid, local);
    SetAllWritten(c, ws);
    assert ws[0].0 == ORIG_IPID && ws[1].0 == ORIG_PROCESSID && ws[2].0 == ORIG_LOCALID && ws[3].0 == TYPE;
    FieldList();
    forall n | n != TYPE && n !in FieldNames(FIELDS) ensures Lookup(r, n) == Lookup(c, n) {
      SetAllElsewhere(c, ws, n);
    }
    if Typed(c, HEADER_OUT) {
      TypedAfterSetAll(c, HEADER_OUT, ws);
      assert Typed(r, FIELDS) by {
        forall i | 0 <= i < |FIELDS| ensures Lookup(r, FIELDS[i].0).Some? && HasTag(Lookup(r, FIELDS[i].0).value, FIELDS[i].1) {
          assert FIELDS[i].0 == ws[i].0 && FIELDS[i].1 == TInt;
        }
      }
      TypedConcat(r, HEADER_OUT, FIELDS);
    }
  }

  /** `StatusEvent(msg)`: `Event(msg)`, the keywords, then the three ints
      from the header. */
  method FromMessage(msg: TextMessage) returns (r: Result<Event>)
    ensures r.Success? <==> ReadFields(msg.header, msg.body, HEADER_IN + FIELDS).Success?
    ensures r.Success? ==> fresh(r.value) && r.value.Valid() && r.value.kind == StatusEvent
    ensures r.Success? ==> r.value.keywords == STATUS_KEYWORDS
    ensures r.Success? ==> r.value.psp == Some(ReadFields(msg.header, msg.body, HEADER_IN + FIELDS).value)
  {
    ReadFieldsConcat(msg.header, msg.body, HEADER_IN, FIELDS);
    var base := BaseEvent.FromMessage(msg);
    if base.Failure? { return Failure(base.error); }
    var e := base.value;
    var ok := e.Extend(StatusEvent, FIELDS, msg.header);
    if ok.Failure? { return Failure(ok.error); }
    return Success(e);
  }

  /** `getOriginator`: reads the three ints and makes `new LocationID` of
      them, which sets the LocationID statics. */
  method GetOriginator(e: Event, shared: IdStatics.Statics) returns (r: Result<LocationIDs.LocationID>)
    requires e.psp.Some?
    modifies shared
    ensures r.Success? <==> GetInt(e.psp.value, ORIG_IPID).Success? && GetInt(e.psp.value, ORIG_PROCESSID).Success? &&
                            GetInt(e.psp.value, ORIG_LOCALID).Success?
    ensures r.Success? ==> fresh(r.value) && r.value.shared == shared
    ensures r.Success? ==> r.value.GetIPAddress() == GetInt(e.psp.value, ORIG_IPID).value &&
                           r.value.GetProcessID() == GetInt(e.psp.value, ORIG_PROCESSID).value &&
                           r.value.GetLocalID() == GetInt(e.psp.value, ORIG_LOCALID).value
    ensures r.Failure? ==> unchanged(shared)
  {
    var ip :- GetInt(e.psp.value, ORIG_IPID);
    var pid :- GetInt(e.psp.value, ORIG_PROCESSID);
    var local :- GetInt(e.psp.value, ORIG_LOCALID);
    var id := new LocationIDs.LocationID(shared, ip, pid, local);
    return Success(id);
  }
}
