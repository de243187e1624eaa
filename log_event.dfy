/** src/LogEvent.cc: an event for a log record, with the level and the
    logger name as header fields. */
module LogEvents {
  import opened Common
  import opened PropertySets
  import opened Messages
  import opened StringSets
  import opened BaseEvent
  import EventTypes

  const LEVEL: string := "LEVEL"
  const LOGGER: string := "LOG"

  const FIELDS: Schema := [(LEVEL, TInt), (LOGGER, TStr)]

  /** The keywords of every LogEvent: the base ones and LEVEL and LOG. */
  const LOG_KEYWORDS: seq<string> := InsertAll(InsertAll([], KEYWORDS), FieldNames(FIELDS))

  /** What the log4cxx constructor takes from a logging event. */
  datatype LoggingEvent = LoggingEvent(
    loggerName: string, level: int, message: string, timestamp: int, threadName: string,
    fileName: string, className: string, methodName: string, lineNumber: int)

  /** The nested "location" set. */
  function Location(ev: LoggingEvent): PropertySet {
    Set(Set(Set(Set([], "filename", Str(ev.fileName)), "classname", Str(ev.className)),
            "methodname", Str(ev.methodName)), "linenumber", Int(ev.lineNumber))
  }

  /** The writes of the log4cxx constructor over a property set. */
  function LoggingProperties(ps: PropertySet, ev: LoggingEvent): PropertySet {
    var p := Set(Set(Set(ps, TYPE, Str(EventTypes.LOG)), LOGGER, Str(ev.loggerName)), LEVEL, Int(ev.level));
    Set(Set(Set(Set(p, "message", Str(ev.message)), "timestamp", Long(ev.timestamp)),
            "threadname", Str(ev.threadName)), "location", Nested(Location(ev)))
  }

  /** The writes of the log4cxx constructor from the empty set, one set
      after each write. */
  function LoggingSteps(ev: LoggingEvent): (ps: seq<PropertySet>)
    ensures |ps| == 8 && ps[7] == LoggingProperties([], ev)
  {
    var p1 := Set([], TYPE, Str(EventTypes.LOG));
    var p2 := Set(p1, LOGGER, Str(ev.loggerName));
    var p3 := Set(p2, LEVEL, Int(ev.level));
    var p4 := Set(p3, "message", Str(ev.message));
    var p5 := Set(p4, "timestamp", Long(ev.timestamp));
    var p6 := Set(p5, "threadname", Str(ev.threadName));
    [[], p1, p2, p3, p4, p5, p6, Set(p6, "location", Nested(Location(ev)))]
  }

  /** Starting from the empty set, the log4cxx constructor's writes hold
      TYPE "_L", the logger and the level ... */
  lemma LoggingHeaderFacts(ev: LoggingEvent)
    ensures Lookup(LoggingProperties([], ev), TYPE) == Some(Str(EventTypes.LOG))
    ensures Lookup(LoggingProperties([], ev), LOGGER) == Some(Str(ev.loggerName))
    ensures Lookup(LoggingProperties([], ev), LEVEL) == Some(Int(ev.level))
  {
    var p := LoggingSteps(ev);
    LaterWrites(ev, 1, TYPE);
    LaterWrites(ev, 2, LOGGER);
    LaterWrites(ev, 3, LEVEL);
  }

  /** ... but no EVENTTIME: the set lacks a base header field, so it cannot
      be written into a header. */
  lemma LoggingNoEventTime(ev: LoggingEvent)
    ensures Lookup(LoggingProperties([], ev), EVENTTIME) == None
    ensures !Typed(LoggingProperties([], ev), HEADER_OUT + FIELDS)
  {
    var p := LoggingSteps(ev);
    LaterWrites(ev, 0, EVENTTIME);
    EventTimeSecond(FIELDS);
    NotTypedAt(LoggingProperties([], ev), HEADER_OUT + FIELDS, 1);
  }

  /** ... and the message, timestamp, thread name and nested location. */
  lemma LoggingBodyFacts(ev: LoggingEvent)
    ensures Lookup(LoggingProperties([], ev), "message") == Some(Str(ev.message))
    ensures Lookup(LoggingProperties([], ev), "timestamp") == Some(Long(ev.timestamp))
    ensures Lookup(LoggingProperties([], ev), "threadname") == Some(Str(ev.threadName))
    ensures Lookup(LoggingProperties([], ev), "location") == Some(Nested(Location(ev)))
  {
    var p := LoggingSteps(ev);
    LaterWrites(ev, 4, "message");
    LaterWrites(ev, 5, "timestamp");
    LaterWrites(ev, 6, "threadname");
  }

  /** A name none of the writes after step `k` uses reads as it did after
      step `k`. */
  lemma LaterWrites(ev: LoggingEvent, k: nat, n: string)
    requires k < 7
    requires k < 1 ==> n != TYPE
    requires k < 2 ==> n != LOGGER
    requires k < 3 ==> n != LEVEL
    requires k < 4 ==> n != "message"
    requires k < 5 ==> n != "timestamp"
    requires k < 6 ==> n != "threadname"
    requires n != "location"
    ensures Lookup(LoggingSteps(ev)[7], n) == Lookup(LoggingSteps(ev)[k], n)
  {
    var p := LoggingSteps(ev);
    if k < 6 { SetElsewhere(p[6], "location", Nested(Location(ev)), n); }
    if k < 5 { SetElsewhere(p[5], "threadname", Str(ev.threadName), n); }
    if k < 4 { SetElsewhere(p[4], "timestamp", Long(ev.timestamp), n); }
    if k < 3 { SetElsewhere(p[3], "message", Str(ev.message), n); }
    if k < 2 { SetElsewhere(p[2], LEVEL, Int(ev.level), n); }
    if k < 1 { SetElsewhere(p[1], LOGGER, Str(ev.loggerName), n); }
  }

  lemma LocationFacts(ev: LoggingEvent)
    ensures Lookup(Location(ev), "filename") == Some(Str(ev.fileName))
    ensures Lookup(Location(ev), "classname") == Some(Str(ev.className))
    ensures Lookup(Location(ev), "methodname") == Some(Str(ev.methodName))
    ensures Lookup(Location(ev), "linenumber") == Some(Int(ev.lineNumber))
    ensures Names(Location(ev)) == ["filename", "classname", "methodname", "linenumber"]
  {
    var p1 := Set([], "filename", Str(ev.fileName));
    var p2 := Set(p1, "classname", Str(ev.className));
    var p3 := Set(p2, "methodname", Str(ev.methodName));
    SetNames([], "filename", Str(ev.fileName));
    LookupNames(p1, "classname");
    SetNames(p1, "classname", Str(ev.className));
    LookupNames(p2, "methodname");
    SetNames(p2, "methodname", Str(ev.methodName));
    LookupNames(p3, "linenumber");
    SetNames(p3, "linenumber", Int(ev.lineNumber));
  }

  /** `LogEvent()`. */
  method NewDefault() returns (e: Event)
    ensures fresh(e) && e.Valid() && e.kind == LogEvent && e.psp == None
    ensures e.keywords == LOG_KEYWORDS
  {
    e := new Event.Default();
    e.AddKeywords(LogEvent, FieldNames(FIELDS));
  }

  /** `LogEvent(event, pool)` as written: it starts from `Event()`, which
      never allocates `_psp`, so the first `_psp->set` is a write through a
      null pointer. */
  method FromLoggingEventAsWritten(ev: LoggingEvent) returns (e: Event, first: Result<()>)
    ensures fresh(e) && e.kind == LogEvent
    ensures first == Failure(NullDereference) && e.psp == None
  {
    e := new Event.Default();
    e.AddKeywords(LogEvent, FieldNames(FIELDS));
    first := e.TrySetProperty(TYPE, Str(EventTypes.LOG));
  }

  /** The same constructor over an allocated `_psp`: the event then holds
      the log4cxx constructor's writes (LoggingHeaderFacts, LoggingBodyFacts,
      LoggingNoEventTime). */
  method FromLoggingEvent(ev: LoggingEvent) returns (e: Event)
    ensures fresh(e) && e.Valid() && e.kind == LogEvent
    ensures e.keywords == LOG_KEYWORDS
    ensures e.psp == Some(LoggingProperties([], ev))
  {
    e := NewDefault();
    WriteLoggingEvent(e, ev);
  }

  /** The writes of the log4cxx constructor into a newly allocated, empty
      `_psp`, one `_psp->set` at a time; the location is a property set of
      its own, filled before it is stored. */
  method WriteLoggingEvent(e: Event, ev: LoggingEvent)
    modifies e`psp
    ensures e.psp == Some(LoggingProperties([], ev))
  {
    e.psp := Some([]);
    e.SetProperty(TYPE, Str(EventTypes.LOG));
    e.SetProperty(LOGGER, Str(ev.loggerName));
    e.SetProperty(LEVEL, Int(ev.level));
    e.SetProperty("message", Str(ev.message));
    e.SetProperty("timestamp", Long(ev.timestamp));
    e.SetProperty("threadname", Str(ev.threadName));
    var loc := [];
    loc := Set(loc, "filename", Str(ev.fileName));
    loc := Set(loc, "classname", Str(ev.className));
    loc := Set(loc, "methodname", Str(ev.methodName));
    loc := Set(loc, "linenumber", Int(ev.lineNumber));
    e.SetProperty("location", Nested(loc));
  }

  /** `LogEvent(msg)`: `Event(msg)`, then LEVEL and LOG from the header. */
  method FromMessage(msg: TextMessage) returns (r: Result<Event>)
    ensures r.Success? <==> ReadFields(msg.header, msg.body, HEADER_IN + FIELDS).Success?
    ensures r.Success? ==> fresh(r.value) && r.value.Valid() && r.value.kind == LogEvent
    ensures r.Success? ==> r.value.keywords == LOG_KEYWORDS
    ensures r.Success? ==> r.value.psp == Some(ReadFields(msg.header, msg.body, HEADER_IN + FIELDS).value)
  {
    ReadFieldsConcat(msg.header, msg.body, HEADER_IN, FIELDS);
    var base := BaseEvent.FromMessage(msg);
    if base.Failure? { return Failure(base.error); }
    var e := base.value;
    var ok := e.Extend(LogEvent, FIELDS, msg.header);
    if ok.Failure? { return Failure(ok.error); }
    return Success(e);
  }

  /** `getLevel` and `getLogger`: `get<int>` and `get<std::string>`. */
  function GetLevel(e: Event): (r: Result<int>)
    reads e
    requires e.psp.Some?
    ensures r.Success? <==> Lookup(e.psp.value, LEVEL).Some? && Lookup(e.psp.value, LEVEL).value.Int?
    ensures r.Success? ==> Lookup(e.psp.value, LEVEL) == Some(Int(r.value))
  {
    GetInt(e.psp.value, LEVEL)
  }

  function GetLogger(e: Event): (r: Result<string>)
    reads e
    requires e.psp.Some?
    ensures r.Success? <==> Lookup(e.psp.value, LOGGER).Some? && Lookup(e.psp.value, LOGGER).value.Str?
    ensures r.Success? ==> Lookup(e.psp.value, LOGGER) == Some(Str(r.value))
  {
    GetString(e.psp.value, LOGGER)
  }
}
