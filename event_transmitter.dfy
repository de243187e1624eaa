/** src/EventTransmitter.cc: a transmitter configured from a policy or from
    a host, topic and port, and `publishEvent`, which marshals an event into
    a text message and stamps it with the transmitter's topic and the
    publication time.

    The broker is an input: whether the connection is accepted, or a later
    CMS call fails, is given to the constructor; what is sent is recorded
    in order. */
module Transmitters {
  import opened Common
  import opened Policies
  import PropertySets
  import opened Messages
  import opened BaseEvent
  import opened EventFactory
  import opened EventLibraries

  /** `EventBroker::DEFAULTHOSTPORT`. */
  const DEFAULT_HOST_PORT: int := 61616

  /** What the broker does when a client sets up its connection. */
  datatype Broker =
    | Up                          // connection, session and the rest are created
    | Refuses(reason: string)     // `createConnection` or `start` raises a CMSException
    | Breaks(reason: string)      // a later CMS call of the set-up raises one

  /** What the policy constructor hands to `init`: nothing when events are
      turned off, which returns before any other key is read. */
  datatype Settings = EventsOff | Connect(hostName: string, topicName: string, hostPort: int)

  /** The checks of `EventTransmitter(const Policy&)`: "turnEventsoff" (a
      lower-case o, false when absent) comes first; then a topic and a host
      are required, and the port defaults to 61616. A value of another type
      raises the policy's type error. */
  function TransmitterSettings(p: Policy): (r: Result<Settings>)
    ensures "turnEventsoff" in p && p["turnEventsoff"] == PBool(true) ==> r == Success(EventsOff)
    ensures ("turnEventsoff" !in p || p["turnEventsoff"] == PBool(false)) && "topicName" !in p ==>
              r == Failure(NotFound("topicName"))
    ensures ("turnEventsoff" !in p || p["turnEventsoff"] == PBool(false)) && "topicName" in p &&
            p["topicName"].PString? && "hostName" !in p ==>
              r == Failure(NotFound("hostName"))
    ensures r.Success? && r.value.Connect? ==>
              && ("turnEventsoff" !in p || p["turnEventsoff"] == PBool(false))
              && "topicName" in p && p["topicName"] == PString(r.value.topicName)
              && "hostName" in p && p["hostName"] == PString(r.value.hostName)
              && ("hostPort" in p ==> p["hostPort"] == PInt(r.value.hostPort))
              && ("hostPort" !in p ==> r.value.hostPort == DEFAULT_HOST_PORT)
    ensures r.Success? && r.value.EventsOff? ==> "turnEventsoff" in p && p["turnEventsoff"] == PBool(true)
  {
    var off :- GetBoolOr(p, "turnEventsoff", false);
    if off then Success(EventsOff)
    else if "topicName" !in p then Failure(NotFound("topicName"))
    else
      var topic :- GetString(p, "topicName");
      var host :- GetString(p, "hostName");
      var port :- GetIntOr(p, "hostPort", DEFAULT_HOST_PORT);
      Success(Connect(host, topic, port))
  }

  const URI_OPTIONS: string := "?wireFormat=openwire&transport.useAsyncSend=true"

  /** The broker URI `init` builds: scheme, host, the port as `operator<<`
      prints it, and the transport options. */
  function BrokerUri(hostName: string, hostPort: int): (u: string) {
    "tcp://" + hostName + ":" + Decimal(hostPort) + URI_OPTIONS
  }

  /** The URI holds the host after the scheme and, between the colon and
      the options, the text of a number that reads back as the port. */
  lemma BrokerUriParts(hostName: string, hostPort: int)
    ensures var u := BrokerUri(hostName, hostPort);
      && |u| == 7 + |hostName| + |Decimal(hostPort)| + |URI_OPTIONS|
      && u[..6] == "tcp://"
      && u[6..6 + |hostName|] == hostName
      && u[6 + |hostName|] == ':'
      && ScanInteger(u[7 + |hostName|..|u| - |URI_OPTIONS|]) == Some(hostPort)
      && u[|u| - |URI_OPTIONS|..] == URI_OPTIONS
  {
    TcpUriParts(hostName, hostPort, URI_OPTIONS);
  }

  /** The exception `init` raises for a broker that is not `Up`. */
  function SetupError(b: Broker): (e: Error)
    requires !b.Up?
  {
    match b
    case Refuses(reason) => RuntimeError("Failed to connect to broker: " + reason + " (is broker running?)")
    case Breaks(reason) => RuntimeError("Trouble creating EventTransmitter: " + reason)
  }

  /** The message `event.marshall(message)` fills in: the header from the
      event's `populateHeader` and, as the body, its custom properties. An
      event without a property set makes `populateHeader` dereference a null
      pointer. */
  function Marshalled(e: Event): (r: Result<TextMessage>)
    reads e
    ensures e.psp.None? ==> r == Failure(NullDereference)
    ensures e.psp.Some? ==> (r.Success? <==> PopulateHeader(e, map[]).Success?)
    ensures r.Success? ==> e.psp.Some? && r.value.header == PopulateHeader(e, map[]).value
    ensures r.Success? ==> r.value.body == RemoveAll(e.psp.value, e.keywords)
  {
    if e.psp.None? then Failure(NullDereference)
    else
      var h :- PopulateHeader(e, map[]);
      Success(TextMessage(h, RemoveAll(e.psp.value, e.keywords)))
  }

  /** The header after `publishEvent` has set TOPIC and PUBTIME over what
      the event wrote. */
  function Stamped(h: Header, topicName: string, pubTime: int): (r: Header)
    ensures TOPIC in r && r[TOPIC] == HStr(topicName)
    ensures PUBTIME in r && r[PUBTIME] == HLong(pubTime)
    ensures forall n :: n in h && n != TOPIC && n != PUBTIME ==> n in r && r[n] == h[n]
    ensures forall n :: n in r ==> n in h || n == TOPIC || n == PUBTIME
  {
    h[TOPIC := HStr(topicName)][PUBTIME := HLong(pubTime)]
  }

  class EventTransmitter {
    /** `_topicName`; a policy that turns events off leaves it empty. */
    const topicName: string
    const turnEventsOff: bool
    /** `brokerUri`, or "" when `init` never built one. */
    const brokerUri: string
    /** The text messages sent, oldest first. */
    var sent: seq<TextMessage>

    constructor Make(topicName: string, turnEventsOff: bool, brokerUri: string)
      ensures this.topicName == topicName && this.turnEventsOff == turnEventsOff
      ensures this.brokerUri == brokerUri && sent == []
    {
      this.topicName := topicName;
      this.turnEventsOff := turnEventsOff;
      this.brokerUri := brokerUri;
      sent := [];
    }

    /** `EventTransmitter(hostName, topicName, hostPort)`: events on; the
        constructor raises what `init` raises. */
    static method Create(lib: EventLibrary, hostName: string, topicName: string, hostPort: int, broker: Broker)
      returns (r: Result<EventTransmitter>)
      modifies lib
      ensures lib.libraryInitialized == if old(lib.libraryInitialized) == 0 then 1 else old(lib.libraryInitialized)
      ensures old(lib.Valid()) ==> lib.Valid() && lib.activemqInitializations == 1
      ensures !broker.Up? ==> r == Failure(SetupError(broker))
      ensures broker.Up? ==> r.Success? && fresh(r.value)
      ensures r.Success? ==> r.value.topicName == topicName && !r.value.turnEventsOff && r.value.sent == []
      ensures r.Success? ==> r.value.brokerUri == BrokerUri(hostName, hostPort)
    {
      lib.InitializeLibrary();
      if !broker.Up? {
        return Failure(SetupError(broker));
      }
      var t := new EventTransmitter.Make(topicName, false, BrokerUri(hostName, hostPort));
      return Success(t);
    }

    /** `EventTransmitter(const Policy&)`: events turned off give a
        transmitter with no topic that is never set up. */
    static method FromPolicy(lib: EventLibrary, p: Policy, broker: Broker) returns (r: Result<EventTransmitter>)
      modifies lib
      ensures lib.libraryInitialized == if old(lib.libraryInitialized) == 0 then 1 else old(lib.libraryInitialized)
      ensures old(lib.Valid()) ==> lib.Valid() && lib.activemqInitializations == 1
      ensures TransmitterSettings(p).Failure? ==> r == Failure(TransmitterSettings(p).error)
      ensures TransmitterSettings(p) == Success(EventsOff) ==>
                r.Success? && fresh(r.value) && r.value.topicName == "" && r.value.turnEventsOff &&
                r.value.brokerUri == "" && r.value.sent == []
      ensures TransmitterSettings(p).Success? && TransmitterSettings(p).value.Connect? ==>
                var c := TransmitterSettings(p).value;
                && (!broker.Up? ==> r == Failure(SetupError(broker)))
                && (broker.Up? ==> r.Success? && fresh(r.value) && r.value.topicName == c.topicName &&
                                   !r.value.turnEventsOff && r.value.sent == [] &&
                                   r.value.brokerUri == BrokerUri(c.hostName, c.hostPort))
    {
      lib.InitializeLibrary();
      var settings := TransmitterSettings(p);
      if settings.Failure? {
        return Failure(settings.error);
      }
      var c := settings.value;
      if c.EventsOff? {
        var t := new EventTransmitter.Make("", true, "");
        return Success(t);
      }
      if !broker.Up? {
        return Failure(SetupError(broker));
      }
      var t := new EventTransmitter.Make(c.topicName, false, BrokerUri(c.hostName, c.hostPort));
      return Success(t);
    }

    /** What `publishEvent(event)` sends, the clock reading taken after
        marshalling being `pubTime`. A transmitter whose events are off has
        no session to create the message with. */
    function Outgoing(e: Event, pubTime: int): (r: Result<TextMessage>)
      reads e
      ensures turnEventsOff ==> r == Failure(NullDereference)
      ensures !turnEventsOff ==> (r.Success? <==> Marshalled(e).Success?)
      ensures r.Success? ==> r.value.body == Marshalled(e).value.body
      ensures r.Success? ==> TOPIC in r.value.header && r.value.header[TOPIC] == HStr(topicName)
      ensures r.Success? ==> PUBTIME in r.value.header && r.value.header[PUBTIME] == HLong(pubTime)
      ensures r.Success? ==> forall n :: n in Marshalled(e).value.header && n != TOPIC && n != PUBTIME ==>
                n in r.value.header && r.value.header[n] == Marshalled(e).value.header[n]
    {
      if turnEventsOff then Failure(NullDereference)
      else
        var m :- Marshalled(e);
        Success(TextMessage(Stamped(m.header, topicName, pubTime), m.body))
    }

    /** `publishEvent(event)`: the event is not changed. */
    method PublishEvent(e: Event, pubTime: int) returns (r: Result<()>)
      modifies this`sent
      ensures Outgoing(e, pubTime).Failure? ==> r == Failure(Outgoing(e, pubTime).error) && sent == old(sent)
      ensures Outgoing(e, pubTime).Success? ==> r == Success(()) && sent == old(sent) + [Outgoing(e, pubTime).value]
    {
      if turnEventsOff {
        return Failure(NullDereference);
      }
      var m := Marshalled(e);
      if m.Failure? {
        return Failure(m.error);
      }
      var header := m.value.header[TOPIC := HStr(topicName)];
      header := header[PUBTIME := HLong(pubTime)];
      sent := sent + [TextMessage(header, m.value.body)];
      return Success(());
    }

    /** `getTopicName`. */
    function GetTopicName(): (name: string)
      ensures name == topicName
    {
      topicName
    }
  }

  /** Whatever TOPIC and PUBTIME the event holds, the message carries the
      transmitter's topic and the publication time; every other header
      field, and the body, is what the event marshals to. */
  lemma PublishStamps(t: EventTransmitter, e: Event, pubTime: int)
    requires !t.turnEventsOff && e.psp.Some? && Typed(e.psp.value, OutSchema(e.kind))
    ensures t.Outgoing(e, pubTime).Success?
    ensures var m := t.Outgoing(e, pubTime).value;
      && TOPIC in m.header && m.header[TOPIC] == HStr(t.topicName)
      && PUBTIME in m.header && m.header[PUBTIME] == HLong(pubTime)
      && m.body == RemoveAll(e.psp.value, e.keywords)
      && forall i :: 0 <= i < |OutSchema(e.kind)| && OutSchema(e.kind)[i].0 != TOPIC && OutSchema(e.kind)[i].0 != PUBTIME ==>
           OutSchema(e.kind)[i].0 in m.header &&
           Carries(m.header[OutSchema(e.kind)[i].0], PropertySets.Lookup(e.psp.value, OutSchema(e.kind)[i].0).value)
  {
  }
}
