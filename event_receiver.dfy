/** Winter2012a/src/EventReceiver.cc: a receiver configured from a policy
    or from a host, topic, port and selector, and `receiveEvent`, which
    turns the next text message into an event of the class its TYPE names.

    The broker is an input as for the transmitter; the consumer is given
    the sequence of deliveries its successive `receive` calls return. */
module Receivers {
  import opened Common
  import opened Policies
  import opened Messages
  import opened BaseEvent
  import opened EventFactory
  import opened EventLibraries
  import Transmitters

  /** `EventReceiver::infiniteTimeout`. */
  const INFINITE_TIMEOUT: int := -1

  /** What a policy configures: nothing when events are turned off, which
      returns before any other key is read. */
  datatype Settings =
    | EventsOff
    | Connect(hostName: string, topicName: string, hostPort: int, selector: string)

  /** The checks of `EventReceiver(const Policy&)`: "turnEventsOff" (a
      capital O, false when absent) first; then a topic and a host are
      required, the port defaults to 61616 and the selector to "". The flag
      is read a second time after the topic, with the same result. */
  function ReceiverSettings(p: Policy): (r: Result<Settings>)
    ensures "turnEventsOff" in p && p["turnEventsOff"] == PBool(true) ==> r == Success(EventsOff)
    ensures ("turnEventsOff" !in p || p["turnEventsOff"] == PBool(false)) && "topicName" !in p ==>
              r == Failure(NotFound("topicName"))
    ensures ("turnEventsOff" !in p || p["turnEventsOff"] == PBool(false)) && "topicName" in p &&
            p["topicName"].PString? && "hostName" !in p ==>
              r == Failure(NotFound("hostName"))
    ensures r.Success? && r.value.Connect? ==>
              && ("turnEventsOff" !in p || p["turnEventsOff"] == PBool(false))
              && "topicName" in p && p["topicName"] == PString(r.value.topicName)
              && "hostName" in p && p["hostName"] == PString(r.value.hostName)
              && ("hostPort" in p ==> p["hostPort"] == PInt(r.value.hostPort))
              && ("hostPort" !in p ==> r.value.hostPort == Transmitters.DEFAULT_HOST_PORT)
              && ("selector" in p ==> p["selector"] == PString(r.value.selector))
              && ("selector" !in p ==> r.value.selector == "")
    ensures r.Success? && r.value.EventsOff? ==> "turnEventsOff" in p && p["turnEventsOff"] == PBool(true)
  {
    var off :- GetBoolOr(p, "turnEventsOff", false);
    if off then Success(EventsOff)
    else if "topicName" !in p then Failure(NotFound("topicName"))
    else
      var topic :- GetString(p, "topicName");
      if "hostName" !in p then Failure(NotFound("hostName"))
      else
        var host :- GetString(p, "hostName");
        var port :- GetIntOr(p, "hostPort", Transmitters.DEFAULT_HOST_PORT);
        var selector :- GetStringOr(p, "selector", "");
        Success(Connect(host, topic, port, selector))
  }

  /** The URI `init` builds; unlike the transmitter's it asks for no
      asynchronous sends. */
  const URI_OPTIONS: string := "?wireFormat=openwire"

  function ReceiverUri(hostName: string, hostPort: int): (u: string) {
    "tcp://" + hostName + ":" + Decimal(hostPort) + URI_OPTIONS
  }

  /** The URI holds the host after the scheme and a number that reads back
      as the port before the options. */
  lemma ReceiverUriParts(hostName: string, hostPort: int)
    ensures var u := ReceiverUri(hostName, hostPort);
      && |u| == 7 + |hostName| + |Decimal(hostPort)| + |URI_OPTIONS|
      && u[..6] == "tcp://"
      && u[6..6 + |hostName|] == hostName
      && u[6 + |hostName|] == ':'
      && ScanInteger(u[7 + |hostName|..|u| - |URI_OPTIONS|]) == Some(hostPort)
      && u[|u| - |URI_OPTIONS|..] == URI_OPTIONS
  {
    TcpUriParts(hostName, hostPort, URI_OPTIONS);
  }

  /** The consumer `init` creates on the topic. */
  datatype Consumer = Plain | Selecting(selector: string)

  /** "" means no selector; any other selector is passed to the session. */
  function ConsumerFor(selector: string): (c: Consumer)
    ensures c.Plain? <==> selector == ""
    ensures c.Selecting? ==> c.selector == selector
  {
    if selector == "" then Plain else Selecting(selector)
  }

  function SetupError(b: Transmitters.Broker): (e: Error)
    requires !b.Up?
  {
    match b
    case Refuses(reason) => RuntimeError("Failed to connect to broker: " + reason + " (is broker running?)")
    case Breaks(reason) => RuntimeError("Trouble creating EventReceiver: " + reason)
  }

  /** What one `_consumer->receive(timeout)` returns. */
  datatype Delivery =
    | Text(m: TextMessage)       // a text message
    | NonText                    // a message of another JMS type
    | NoMessage                  // the null pointer: nothing came in time
    | Fault(reason: string)      // an ActiveMQException

  /** What `receiveEvent` is left with before the factory is called: a
      message to turn into an event, the null pointer, an exception, or
      no return because the wait goes on past the modelled deliveries. */
  datatype Outcome = Deliver(m: TextMessage) | Null | Raise(error: Error) | Blocked

  /** One read on the deliveries: an exhausted input waits for ever when
      the timeout is infinite and times out otherwise. */
  function Read(ds: seq<Delivery>, timeout: int): (Outcome, seq<Delivery>) {
    if ds == [] then (if timeout == INFINITE_TIMEOUT then Blocked else Null, [])
    else match ds[0]
      case Text(m) => (Deliver(m), ds[1..])
      case NonText => (Raise(RuntimeError("Unexpected JMS Message type")), ds[1..])
      case NoMessage => (Null, ds[1..])
      case Fault(reason) => (Raise(RuntimeError(reason)), ds[1..])
  }

  /** What `receiveEvent` returns. */
  datatype Reception = Got(e: Event) | NullEvent | Waiting

  class EventReceiver {
    /** `_topic`; a policy that turns events off leaves it empty. */
    const topic: string
    const turnEventsOff: bool
    /** `_selector`. */
    const selector: string
    /** `jmsURL`, or "" when `init` never built one. */
    const uri: string
    /** `_consumer`, absent while events are off. */
    const consumer: Option<Consumer>
    /** What the consumer will return to the next reads, in order. */
    var deliveries: seq<Delivery>

    constructor Make(topic: string, turnEventsOff: bool, selector: string, uri: string,
                     consumer: Option<Consumer>, deliveries: seq<Delivery>)
      ensures this.topic == topic && this.turnEventsOff == turnEventsOff && this.selector == selector
      ensures this.uri == uri && this.consumer == consumer && this.deliveries == deliveries
    {
      this.topic := topic;
      this.turnEventsOff := turnEventsOff;
      this.selector := selector;
      this.uri := uri;
      this.consumer := consumer;
      this.deliveries := deliveries;
    }

    /** `EventReceiver(hostName, topicName, selector, hostPort)`, and with
        "" for the selector `EventReceiver(hostName, topicName, hostPort)`:
        events on; the constructor raises what `init` raises. */
    static method Create(lib: EventLibrary, hostName: string, topicName: string, selector: string, hostPort: int,
                         broker: Transmitters.Broker, deliveries: seq<Delivery>)
      returns (r: Result<EventReceiver>)
      modifies lib
      ensures lib.libraryInitialized == if old(lib.libraryInitialized) == 0 then 1 else old(lib.libraryInitialized)
      ensures old(lib.Valid()) ==> lib.Valid() && lib.activemqInitializations == 1
      ensures !broker.Up? ==> r == Failure(SetupError(broker))
      ensures broker.Up? ==> r.Success? && fresh(r.value)
      ensures r.Success? ==> r.value.topic == topicName && !r.value.turnEventsOff && r.value.selector == selector
      ensures r.Success? ==> r.value.uri == ReceiverUri(hostName, hostPort) && r.value.consumer == Some(ConsumerFor(selector))
      ensures r.Success? ==> r.value.deliveries == deliveries
    {
      lib.InitializeLibrary();
      if !broker.Up? {
        return Failure(SetupError(broker));
      }
      var rc := new EventReceiver.Make(topicName, false, selector, ReceiverUri(hostName, hostPort),
                                       Some(ConsumerFor(selector)), deliveries);
      return Success(rc);
    }

    /** `EventReceiver(const Policy&)`: events turned off give a receiver
        with no topic that never initialises the library or a consumer. */
    static method FromPolicy(lib: EventLibrary, p: Policy, broker: Transmitters.Broker, deliveries: seq<Delivery>)
      returns (r: Result<EventReceiver>)
      modifies lib
      ensures ReceiverSettings(p).Failure? ==> r == Failure(ReceiverSettings(p).error)
      ensures ReceiverSettings(p).Failure? || ReceiverSettings(p) == Success(EventsOff) ==>
                lib.libraryInitialized == old(lib.libraryInitialized) &&
                lib.activemqInitializations == old(lib.activemqInitializations)
      ensures ReceiverSettings(p) == Success(EventsOff) ==>
                r.Success? && fresh(r.value) && r.value.topic == "" && r.value.turnEventsOff &&
                r.value.consumer.None? && r.value.deliveries == deliveries
      ensures ReceiverSettings(p).Success? && ReceiverSettings(p).value.Connect? ==>
                var c := ReceiverSettings(p).value;
                && lib.libraryInitialized == (if old(lib.libraryInitialized) == 0 then 1 else old(lib.libraryInitialized))
                && (old(lib.Valid()) ==> lib.Valid() && lib.activemqInitializations == 1)
                && (!broker.Up? ==> r == Failure(SetupError(broker)))
                && (broker.Up? ==> r.Success? && fresh(r.value) && r.value.topic == c.topicName &&
                                   !r.value.turnEventsOff && r.value.selector == c.selector &&
                                   r.value.uri == ReceiverUri(c.hostName, c.hostPort) &&
                                   r.value.consumer == Some(ConsumerFor(c.selector)) &&
                                   r.value.deliveries == deliveries)
    {
      var settings := ReceiverSettings(p);
      if settings.Failure? {
        return Failure(settings.error);
      }
      var c := settings.value;
      if c.EventsOff? {
        var rc := new EventReceiver.Make("", true, "", "", None, deliveries);
        return Success(rc);
      }
      r := Create(lib, c.hostName, c.topicName, c.selector, c.hostPort, broker, deliveries);
    }

    /** What `receiveEvent(timeout)` gets from the consumer, and what is
        left to read: nothing at all while events are off. */
    function Next(timeout: int): (Outcome, seq<Delivery>)
      reads this
    {
      if turnEventsOff then (Null, deliveries) else Read(deliveries, timeout)
    }

    /** `receiveEvent(timeout)`: the message becomes an event through the
        factory, whose failure to read the header propagates. */
    method ReceiveEvent(timeout: int) returns (r: Result<Reception>)
      modifies this`deliveries
      ensures deliveries == old(Next(timeout)).1
      ensures old(Next(timeout)).0 == Null ==> r == Success(NullEvent)
      ensures old(Next(timeout)).0 == Blocked ==> r == Success(Waiting)
      ensures old(Next(timeout)).0.Raise? ==> r == Failure(old(Next(timeout)).0.error)
      ensures old(Next(timeout)).0.Deliver? ==>
                var m := old(Next(timeout)).0.m;
                && (r.Success? <==> GetStringProperty(m.header, TYPE).Success? &&
                                    ReadFields(m.header, m.body, InSchema(KindOfType(GetStringProperty(m.header, TYPE).value))).Success?)
                && (r.Success? ==> r.value.Got? && fresh(r.value.e) && r.value.e.Valid() &&
                                   r.value.e.kind == KindOfType(GetStringProperty(m.header, TYPE).value) &&
                                   r.value.e.psp == Some(ReadFields(m.header, m.body, InSchema(r.value.e.kind)).value))
    {
      if turnEventsOff {
        return Success(NullEvent);
      }
      var (outcome, rest) := Read(deliveries, timeout);
      deliveries := rest;
      match outcome
      case Null => r := Success(NullEvent);
      case Blocked => r := Success(Waiting);
      case Raise(err) => r := Failure(err);
      case Deliver(m) =>
        var made := CreateEvent(m);
        if made.Failure? {
          return Failure(made.error);
        }
        r := Success(Got(made.value));
    }

    /** `receiveEvent()`: a read that waits for ever. */
    method ReceiveEventBlocking() returns (r: Result<Reception>)
      modifies this`deliveries
      ensures deliveries == old(Next(INFINITE_TIMEOUT)).1
      ensures old(Next(INFINITE_TIMEOUT)).0 == Null ==> r == Success(NullEvent)
      ensures old(Next(INFINITE_TIMEOUT)).0 == Blocked ==> r == Success(Waiting)
      ensures old(Next(INFINITE_TIMEOUT)).0.Raise? ==> r == Failure(old(Next(INFINITE_TIMEOUT)).0.error)
      ensures old(Next(INFINITE_TIMEOUT)).0.Deliver? ==>
                var m := old(Next(INFINITE_TIMEOUT)).0.m;
                && (r.Success? <==> GetStringProperty(m.header, TYPE).Success? &&
                                    ReadFields(m.header, m.body, InSchema(KindOfType(GetStringProperty(m.header, TYPE).value))).Success?)
                && (r.Success? ==> r.value.Got? && fresh(r.value.e) &&
                                   r.value.e.kind == KindOfType(GetStringProperty(m.header, TYPE).value))
    {
      r := ReceiveEvent(INFINITE_TIMEOUT);
    }

    /** `getTopicName`. */
    function GetTopicName(): (name: string)
      ensures name == topic
    {
      topic
    }
  }

  /** A read consumes one delivery when there is one and none otherwise;
      it blocks only on an exhausted input with an infinite timeout, and it
      hands a message to the factory only when the delivery is a text
      message. */
  lemma ReadConsumes(ds: seq<Delivery>, timeout: int)
    ensures ds != [] ==> Read(ds, timeout).1 == ds[1..]
    ensures ds == [] ==> Read(ds, timeout).1 == []
    ensures Read(ds, timeout).0 == Blocked <==> ds == [] && timeout == INFINITE_TIMEOUT
    ensures Read(ds, timeout).0.Deliver? <==> ds != [] && ds[0].Text?
    ensures Read(ds, timeout).0.Deliver? ==> Read(ds, timeout).0.m == ds[0].m
  {
  }
}
