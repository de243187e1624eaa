/** src/EventFactory.cc: turning a received message into an event of the
    class its TYPE names, together with the class-dependent header layout
    (the virtual `populateHeader` and the message constructors). */
module EventFactory {
  import opened Common
  import opened PropertySets
  import opened Messages
  import opened BaseEvent
  import EventTypes
  import StatusEvents
  import CommandEvents
  import LogEvents
  import PipelineLogEvents

  /** The class `createEvent` makes for a TYPE value. */
  function KindOfType(t: string): (k: Kind)
    ensures k == LogEvent <==> t == EventTypes.LOG
    ensures k == StatusEvent <==> t == EventTypes.STATUS
    ensures k == CommandEvent <==> t == EventTypes.COMMAND
    ensures k == PlainEvent <==> t != EventTypes.LOG && t != EventTypes.STATUS && t != EventTypes.COMMAND
  {
    EventTypes.TagsDistinct();
    if t == EventTypes.LOG then LogEvent
    else if t == EventTypes.STATUS then StatusEvent
    else if t == EventTypes.COMMAND then CommandEvent
    else PlainEvent
  }

  /** The fields a class adds to the base header. */
  function ClassFields(k: Kind): Schema {
    match k
    case PlainEvent => []
    case StatusEvent => StatusEvents.FIELDS
    case CommandEvent => CommandEvents.FIELDS
    case LogEvent => LogEvents.FIELDS
    case PipelineLogEvent => LogEvents.FIELDS + PipelineLogEvents.FIELDS
  }

  /** What each class's `populateHeader` writes, in order. */
  function OutSchema(k: Kind): Schema { HEADER_OUT + ClassFields(k) }

  /** What each class's message constructor reads, in order. */
  function InSchema(k: Kind): Schema { HEADER_IN + ClassFields(k) }

  /** Every field read is a field written. */
  lemma InWithinOut(k: Kind)
    ensures forall f :: f in InSchema(k) ==> f in OutSchema(k)
  {
    HeaderOutNames();
  }

  /** The virtual `populateHeader`: it fails (a pex exception from `get`)
      exactly when a field of the class is missing or of another type. */
  function PopulateHeader(e: Event, h: Header): (r: Result<Header>)
    reads e
    requires e.psp.Some?
    ensures r.Success? <==> Typed(e.psp.value, OutSchema(e.kind))
    ensures r.Success? ==> forall i :: 0 <= i < |OutSchema(e.kind)| ==>
              OutSchema(e.kind)[i].0 in r.value && Carries(r.value[OutSchema(e.kind)[i].0], Lookup(e.psp.value, OutSchema(e.kind)[i].0).value)
    ensures r.Success? ==> forall n :: n in h && n !in FieldNames(OutSchema(e.kind)) ==> n in r.value && r.value[n] == h[n]
  {
    WriteHeader(e.psp.value, h, OutSchema(e.kind))
  }

  /** `createEvent`: TYPE is read with `getStringProperty` (a CMSException
      when missing), then the class is chosen by comparing it with the
      LOG, STATUS and COMMAND tags; anything else is a plain Event. */
  method CreateEvent(msg: TextMessage) returns (r: Result<Event>)
    ensures GetStringProperty(msg.header, TYPE).Failure? ==> r.Failure?
    ensures r.Success? <==>
              (GetStringProperty(msg.header, TYPE).Success? &&
               ReadFields(msg.header, msg.body, InSchema(KindOfType(GetStringProperty(msg.header, TYPE).value))).Success?)
    ensures r.Success? ==> fresh(r.value) && r.value.Valid()
    ensures r.Success? ==> r.value.kind == KindOfType(GetStringProperty(msg.header, TYPE).value)
    ensures r.Success? ==> r.value.psp == Some(ReadFields(msg.header, msg.body, InSchema(r.value.kind)).value)
  {
    var t :- GetStringProperty(msg.header, TYPE);
    if t == EventTypes.LOG {
      r := LogEvents.FromMessage(msg);
    } else if t == EventTypes.STATUS {
      r := StatusEvents.FromMessage(msg);
    } else if t == EventTypes.COMMAND {
      r := CommandEvents.FromMessage(msg);
    } else {
      assert HEADER_IN + [] == HEADER_IN;
      r := BaseEvent.FromMessage(msg);
    }
  }

  /** Publishing and receiving, for any class: a property set with every
      field of its class present with its type is written into a fresh
      header; the class's message constructor then reads every field back
      unchanged, into any body, whose other names it keeps. */
  lemma HeaderRoundTrip(ps: PropertySet, k: Kind, body: PropertySet)
    requires Typed(ps, OutSchema(k))
    ensures WriteHeader(ps, map[], OutSchema(k)).Success?
    ensures ReadFields(WriteHeader(ps, map[], OutSchema(k)).value, body, InSchema(k)).Success?
    ensures forall n :: n in FieldNames(InSchema(k)) ==>
              Lookup(ReadFields(WriteHeader(ps, map[], OutSchema(k)).value, body, InSchema(k)).value, n) == Lookup(ps, n)
    ensures forall n :: n !in FieldNames(InSchema(k)) ==>
              Lookup(ReadFields(WriteHeader(ps, map[], OutSchema(k)).value, body, InSchema(k)).value, n) == Lookup(body, n)
  {
    InWithinOut(k);
    BaseEvent.HeaderRoundTrip(ps, map[], OutSchema(k), InSchema(k), body);
  }

  /** The written header's TYPE selects the class again, for the four
      classes the factory knows: the value it carries is the event's own
      TYPE. */
  lemma DispatchRoundTrip(ps: PropertySet, k: Kind)
    requires Typed(ps, OutSchema(k))
    requires Lookup(ps, TYPE).Some? && Lookup(ps, TYPE).value.Str? && KindOfType(Lookup(ps, TYPE).value.s) == k
    ensures GetStringProperty(WriteHeader(ps, map[], OutSchema(k)).value, TYPE) == Success(Lookup(ps, TYPE).value.s)
    ensures KindOfType(GetStringProperty(WriteHeader(ps, map[], OutSchema(k)).value, TYPE).value) == k
  {
    HeaderOutNames();
    assert OutSchema(k)[0] == (TYPE, TStr);
  }
}
