/** src/EventSystem.cc: the registry of transmitters and receivers keyed by
    topic name. A topic takes one transmitter and, except through the
    selector overload, one receiver; lookups return the first entry under a
    topic; one process-wide default instance is made on first use. */
module EventSystems {
  import opened Common
  import opened Policies
  import opened Messages
  import opened BaseEvent
  import opened EventFactory
  import opened EventLibraries
  import opened Transmitters
  import opened Receivers
  import Hosts

  /** The place of the first transmitter registered under `name`. */
  function FirstTransmitter(ts: seq<EventTransmitter>, name: string): (i: Option<nat>)
    ensures i.Some? ==> i.value < |ts| && ts[i.value].topicName == name
    ensures i.Some? ==> forall j :: 0 <= j < i.value ==> ts[j].topicName != name
    ensures i.None? <==> forall j :: 0 <= j < |ts| ==> ts[j].topicName != name
    decreases |ts|
  {
    if ts == [] then None
    else if ts[0].topicName == name then Some(0)
    else match FirstTransmitter(ts[1..], name)
      case None => None
      case Some(k) => Some(k + 1)
  }

  /** The place of the first receiver registered under `name`. */
  function FirstReceiver(rs: seq<EventReceiver>, name: string): (i: Option<nat>)
    ensures i.Some? ==> i.value < |rs| && rs[i.value].topic == name
    ensures i.Some? ==> forall j :: 0 <= j < i.value ==> rs[j].topic != name
    ensures i.None? <==> forall j :: 0 <= j < |rs| ==> rs[j].topic != name
    decreases |rs|
  {
    if rs == [] then None
    else if rs[0].topic == name then Some(0)
    else match FirstReceiver(rs[1..], name)
      case None => None
      case Some(k) => Some(k + 1)
  }

  /** No two transmitters share a topic. */
  predicate DistinctTransmitterTopics(ts: seq<EventTransmitter>) {
    forall i, j :: 0 <= i < j < |ts| ==> ts[i].topicName != ts[j].topicName
  }

  /** No two receivers share a topic. */
  predicate DistinctReceiverTopics(rs: seq<EventReceiver>) {
    forall i, j :: 0 <= i < j < |rs| ==> rs[i].topic != rs[j].topic
  }

  function AlreadyRegistered(topicName: string): Error {
    RuntimeError("topic " + topicName + " is already registered with EventSystem")
  }

  function NotRegistered(topicName: string): Error {
    RuntimeError("topic " + topicName + " is not registered with EventSystem")
  }

  /** The receiving call spells the message with a capital T. */
  function NoReceiver(topicName: string): Error {
    RuntimeError("Topic " + topicName + " is not registered with EventSystem")
  }

  /** The topic a policy-built object reports: none when events are off. */
  function TransmitterTopic(s: Transmitters.Settings): string {
    if s.EventsOff? then "" else s.topicName
  }

  function ReceiverTopic(s: Receivers.Settings): string {
    if s.EventsOff? then "" else s.topicName
  }

  /** A text message the factory can turn into an event. */
  predicate Readable(m: TextMessage) {
    GetStringProperty(m.header, TYPE).Success? &&
    ReadFields(m.header, m.body, InSchema(KindOfType(GetStringProperty(m.header, TYPE).value))).Success?
  }

  class EventSystem {
    /** `_transmitters`, in registration order. */
    var transmitters: seq<EventTransmitter>
    /** `_receivers`, in registration order. */
    var receivers: seq<EventReceiver>

    /** `EventSystem()`: initialises the library. */
    constructor (lib: EventLibrary)
      modifies lib
      ensures transmitters == [] && receivers == []
      ensures lib.libraryInitialized == if old(lib.libraryInitialized) == 0 then 1 else old(lib.libraryInitialized)
      ensures old(lib.Valid()) ==> lib.Valid() && lib.activemqInitializations == 1
    {
      transmitters := [];
      receivers := [];
      new;
      lib.InitializeLibrary();
    }

    /** `getTransmitter(name)`. */
    method GetTransmitter(name: string) returns (t: Option<EventTransmitter>)
      ensures FirstTransmitter(transmitters, name).None? ==> t.None?
      ensures FirstTransmitter(transmitters, name).Some? ==>
                t == Some(transmitters[FirstTransmitter(transmitters, name).value])
    {
      var i := 0;
      while i < |transmitters|
        invariant 0 <= i <= |transmitters|
        invariant forall j :: 0 <= j < i ==> transmitters[j].topicName != name
      {
        if transmitters[i].GetTopicName() == name {
          FirstTransmitterAt(transmitters, name, i);
          return Some(transmitters[i]);
        }
        i := i + 1;
      }
      return None;
    }

    /** `getReceiver(name)`. */
    method GetReceiver(name: string) returns (rc: Option<EventReceiver>)
      ensures FirstReceiver(receivers, name).None? ==> rc.None?
      ensures FirstReceiver(receivers, name).Some? ==>
                rc == Some(receivers[FirstReceiver(receivers, name).value])
    {
      var i := 0;
      while i < |receivers|
        invariant 0 <= i <= |receivers|
        invariant forall j :: 0 <= j < i ==> receivers[j].topic != name
      {
        if receivers[i].GetTopicName() == name {
          FirstReceiverAt(receivers, name, i);
          return Some(receivers[i]);
        }
        i := i + 1;
      }
      return None;
    }

    /** `createTransmitter(hostName, topicName, hostPort)`: a registered
        topic is refused before anything is constructed. */
    method CreateTransmitter(lib: EventLibrary, hostName: string, topicName: string, hostPort: int, broker: Broker)
      returns (r: Result<()>)
      modifies this`transmitters, lib
      ensures FirstTransmitter(old(transmitters), topicName).Some? ==>
                r == Failure(AlreadyRegistered(topicName)) && transmitters == old(transmitters)
      ensures FirstTransmitter(old(transmitters), topicName).None? && !broker.Up? ==>
                r == Failure(Transmitters.SetupError(broker)) && transmitters == old(transmitters)
      ensures FirstTransmitter(old(transmitters), topicName).None? && broker.Up? ==>
                && r.Success? && |transmitters| == |old(transmitters)| + 1
                && transmitters[..|old(transmitters)|] == old(transmitters)
                && var t := transmitters[|old(transmitters)|];
                   fresh(t) && t.topicName == topicName && !t.turnEventsOff && t.sent == [] &&
                   t.brokerUri == BrokerUri(hostName, hostPort)
      ensures DistinctTransmitterTopics(old(transmitters)) ==> DistinctTransmitterTopics(transmitters)
      ensures old(lib.Valid()) ==> lib.Valid()
    {
      var existing := GetTransmitter(topicName);
      if existing.Some? {
        return Failure(AlreadyRegistered(topicName));
      }
      var made := EventTransmitter.Create(lib, hostName, topicName, hostPort, broker);
      if made.Failure? {
        return Failure(made.error);
      }
      transmitters := transmitters + [made.value];
      return Success(());
    }

    /** `createTransmitter(policy)`: the transmitter is constructed first,
        then refused if its topic is registered. */
    method CreateTransmitterFromPolicy(lib: EventLibrary, p: Policy, broker: Broker) returns (r: Result<()>)
      modifies this`transmitters, lib
      ensures TransmitterSettings(p).Failure? ==>
                r == Failure(TransmitterSettings(p).error) && transmitters == old(transmitters)
      ensures TransmitterSettings(p).Success? && TransmitterSettings(p).value.Connect? && !broker.Up? ==>
                r == Failure(Transmitters.SetupError(broker)) && transmitters == old(transmitters)
      ensures TransmitterSettings(p).Success? && (TransmitterSettings(p).value.EventsOff? || broker.Up?) ==>
                var topic := TransmitterTopic(TransmitterSettings(p).value);
                && (FirstTransmitter(old(transmitters), topic).Some? ==>
                      r == Failure(AlreadyRegistered(topic)) && transmitters == old(transmitters))
                && (FirstTransmitter(old(transmitters), topic).None? ==>
                      && r.Success? && |transmitters| == |old(transmitters)| + 1
                      && transmitters[..|old(transmitters)|] == old(transmitters)
                      && fresh(transmitters[|old(transmitters)|])
                      && transmitters[|old(transmitters)|].topicName == topic
                      && transmitters[|old(transmitters)|].turnEventsOff == TransmitterSettings(p).value.EventsOff?)
      ensures DistinctTransmitterTopics(old(transmitters)) ==> DistinctTransmitterTopics(transmitters)
      ensures old(lib.Valid()) ==> lib.Valid() && lib.activemqInitializations == 1
    {
      var made := EventTransmitter.FromPolicy(lib, p, broker);
      if made.Failure? {
        return Failure(made.error);
      }
      var t := made.value;
      var existing := GetTransmitter(t.GetTopicName());
      if existing.Some? {
        return Failure(AlreadyRegistered(t.GetTopicName()));
      }
      transmitters := transmitters + [t];
      return Success(());
    }

    /** `createReceiver(hostName, topicName, hostPort)`: a registered topic
        is refused before anything is constructed. */
    method CreateReceiver(lib: EventLibrary, hostName: string, topicName: string, hostPort: int, broker: Broker,
                          deliveries: seq<Delivery>) returns (r: Result<()>)
      modifies this`receivers, lib
      ensures FirstReceiver(old(receivers), topicName).Some? ==>
                r == Failure(AlreadyRegistered(topicName)) && receivers == old(receivers)
      ensures FirstReceiver(old(receivers), topicName).None? && !broker.Up? ==>
                r == Failure(Receivers.SetupError(broker)) && receivers == old(receivers)
      ensures FirstReceiver(old(receivers), topicName).None? && broker.Up? ==>
                && r.Success? && |receivers| == |old(receivers)| + 1
                && receivers[..|old(receivers)|] == old(receivers)
                && var rc := receivers[|old(receivers)|];
                   fresh(rc) && rc.topic == topicName && !rc.turnEventsOff && rc.selector == "" &&
                   rc.consumer == Some(Plain) && rc.deliveries == deliveries
      ensures DistinctReceiverTopics(old(receivers)) ==> DistinctReceiverTopics(receivers)
      ensures old(lib.Valid()) ==> lib.Valid()
    {
      var existing := GetReceiver(topicName);
      if existing.Some? {
        return Failure(AlreadyRegistered(topicName));
      }
      var made := EventReceiver.Create(lib, hostName, topicName, "", hostPort, broker, deliveries);
      if made.Failure? {
        return Failure(made.error);
      }
      receivers := receivers + [made.value];
      return Success(());
    }

    /** `createReceiver(hostName, topicName, selector, hostPort)`: appended
        without looking for the topic, so one topic can have several
        receivers, of which lookups find the earliest. */
    method CreateSelectingReceiver(lib: EventLibrary, hostName: string, topicName: string, selector: string,
                                   hostPort: int, broker: Broker, deliveries: seq<Delivery>) returns (r: Result<()>)
      modifies this`receivers, lib
      ensures !broker.Up? ==> r == Failure(Receivers.SetupError(broker)) && receivers == old(receivers)
      ensures broker.Up? ==>
                && r.Success? && |receivers| == |old(receivers)| + 1
                && receivers[..|old(receivers)|] == old(receivers)
                && var rc := receivers[|old(receivers)|];
                   fresh(rc) && rc.topic == topicName && !rc.turnEventsOff && rc.selector == selector &&
                   rc.consumer == Some(ConsumerFor(selector)) && rc.deliveries == deliveries
      ensures broker.Up? ==>
                FirstReceiver(receivers, topicName) ==
                (if FirstReceiver(old(receivers), topicName).Some? then FirstReceiver(old(receivers), topicName)
                 else Some(|old(receivers)|))
      ensures old(lib.Valid()) ==> lib.Valid()
    {
      var made := EventReceiver.Create(lib, hostName, topicName, selector, hostPort, broker, deliveries);
      if made.Failure? {
        return Failure(made.error);
      }
      receivers := receivers + [made.value];
      FirstReceiverAppend(old(receivers), made.value, topicName);
      return Success(());
    }

    /** `createReceiver(policy)`: constructed first, then refused if its
        topic is registered. */
    method CreateReceiverFromPolicy(lib: EventLibrary, p: Policy, broker: Broker, deliveries: seq<Delivery>)
      returns (r: Result<()>)
      modifies this`receivers, lib
      ensures ReceiverSettings(p).Failure? ==>
                r == Failure(ReceiverSettings(p).error) && receivers == old(receivers)
      ensures ReceiverSettings(p).Success? && ReceiverSettings(p).value.Connect? && !broker.Up? ==>
                r == Failure(Receivers.SetupError(broker)) && receivers == old(receivers)
      ensures ReceiverSettings(p).Success? && (ReceiverSettings(p).value.EventsOff? || broker.Up?) ==>
                var topic := ReceiverTopic(ReceiverSettings(p).value);
                && (FirstReceiver(old(receivers), topic).Some? ==>
                      r == Failure(AlreadyRegistered(topic)) && receivers == old(receivers))
                && (FirstReceiver(old(receivers), topic).None? ==>
                      && r.Success? && |receivers| == |old(receivers)| + 1
                      && receivers[..|old(receivers)|] == old(receivers)
                      && fresh(receivers[|old(receivers)|])
                      && receivers[|old(receivers)|].topic == topic
                      && receivers[|old(receivers)|].turnEventsOff == ReceiverSettings(p).value.EventsOff?
                      && receivers[|old(receivers)|].deliveries == deliveries)
      ensures DistinctReceiverTopics(old(receivers)) ==> DistinctReceiverTopics(receivers)
      ensures old(lib.Valid()) ==> lib.Valid()
    {
      var made := EventReceiver.FromPolicy(lib, p, broker, deliveries);
      if made.Failure? {
        return Failure(made.error);
      }
      var rc := made.value;
      var existing := GetReceiver(rc.GetTopicName());
      if existing.Some? {
        return Failure(AlreadyRegistered(rc.GetTopicName()));
      }
      receivers := receivers + [rc];
      return Success(());
    }

    /** `publishEvent(topicName, event)`: through the first transmitter
        under the topic. */
    method PublishEvent(topicName: string, e: Event, pubTime: int) returns (r: Result<()>)
      modifies transmitters
      ensures FirstTransmitter(transmitters, topicName).None? ==>
                r == Failure(NotRegistered(topicName)) &&
                forall j :: 0 <= j < |transmitters| ==> transmitters[j].sent == old(transmitters[j].sent)
      ensures FirstTransmitter(transmitters, topicName).Some? ==>
                var t := transmitters[FirstTransmitter(transmitters, topicName).value];
                && (t.Outgoing(e, pubTime).Failure? ==> r == Failure(t.Outgoing(e, pubTime).error) && t.sent == old(t.sent))
                && (t.Outgoing(e, pubTime).Success? ==> r == Success(()) && t.sent == old(t.sent) + [t.Outgoing(e, pubTime).value])
                && forall j :: 0 <= j < |transmitters| && transmitters[j] != t ==> transmitters[j].sent == old(transmitters[j].sent)
    {
      var found := GetTransmitter(topicName);
      if found.None? {
        return Failure(NotRegistered(topicName));
      }
      r := found.value.PublishEvent(e, pubTime);
    }

    /** `receiveEvent(topicName, timeout)`: from the first receiver under
        the topic. */
    method ReceiveEvent(topicName: string, timeout: int) returns (r: Result<Reception>)
      modifies receivers
      ensures FirstReceiver(receivers, topicName).None? ==>
                r == Failure(NoReceiver(topicName)) &&
                forall j :: 0 <= j < |receivers| ==> receivers[j].deliveries == old(receivers[j].deliveries)
      ensures FirstReceiver(receivers, topicName).Some? ==>
                var rc := receivers[FirstReceiver(receivers, topicName).value];
                var next := old(rc.Next(timeout));
                && rc.deliveries == next.1
                && (next.0 == Null ==> r == Success(NullEvent))
                && (next.0 == Blocked ==> r == Success(Waiting))
                && (next.0.Raise? ==> r == Failure(next.0.error))
                && (next.0.Deliver? ==> (r.Success? <==> Readable(next.0.m)))
                && (next.0.Deliver? && r.Success? ==>
                      r.value.Got? && fresh(r.value.e) &&
                      r.value.e.kind == KindOfType(GetStringProperty(next.0.m.header, TYPE).value))
                && forall j :: 0 <= j < |receivers| && receivers[j] != rc ==> receivers[j].deliveries == old(receivers[j].deliveries)
    {
      var found := GetReceiver(topicName);
      if found.None? {
        return Failure(NoReceiver(topicName));
      }
      r := found.value.ReceiveEvent(timeout);
    }

    /** `receiveEvent(topicName)`: a read that waits for ever. */
    method ReceiveEventBlocking(topicName: string) returns (r: Result<Reception>)
      modifies receivers
      ensures FirstReceiver(receivers, topicName).None? ==> r == Failure(NoReceiver(topicName))
      ensures FirstReceiver(receivers, topicName).Some? ==>
                var rc := receivers[FirstReceiver(receivers, topicName).value];
                var next := old(rc.Next(INFINITE_TIMEOUT));
                && rc.deliveries == next.1
                && (next.0 == Null ==> r == Success(NullEvent))
                && (next.0 == Blocked ==> r == Success(Waiting))
                && (next.0.Raise? ==> r == Failure(next.0.error))
                && (next.0.Deliver? ==> (r.Success? <==> Readable(next.0.m)))
    {
      r := ReceiveEvent(topicName, INFINITE_TIMEOUT);
    }
  }

  /** `getDefaultEventSystem` and the statics behind it. */
  class DefaultEventSystem {
    /** `defaultEventSystem`, null until the first call. */
    var instance: Option<EventSystem>
    /** `EventSystem::_IPId`, an `int`. */
    var ipId: int

    constructor ()
      ensures instance.None? && ipId == 0
    {
      instance := None;
      ipId := 0;
    }

    /** The first call looks up the host, keeps its address and allocates
        an empty system; later calls return the same object and change
        nothing. */
    method Get(lib: EventLibrary, host: Hosts.Host, name: string, address: seq<int>) returns (es: EventSystem)
      requires |address| >= 4
      modifies this, lib, host
      ensures old(instance).Some? ==> es == old(instance).value && instance == old(instance) && ipId == old(ipId)
      ensures old(instance).None? ==>
                fresh(es) && es.transmitters == [] && es.receivers == [] && ipId == ToInt32(host.ipAddr)
      ensures old(instance).None? && !old(host.created) ==>
                ipId == ToInt32(Hosts.Pack(address[0], address[1], address[2], address[3]))
      ensures instance == Some(es)
    {
      if instance.None? {
        host.GetHost(name, address);
        ipId := ToInt32(host.GetIPAddress());
        var created := new EventSystem(lib);
        instance := Some(created);
      }
      es := instance.value;
    }
  }

  /** Appending a receiver leaves the first one under a topic in place, or
      makes the new one the first. */
  lemma {:induction false} FirstReceiverAppend(rs: seq<EventReceiver>, rc: EventReceiver, name: string)
    ensures FirstReceiver(rs + [rc], name) ==
            if FirstReceiver(rs, name).Some? then FirstReceiver(rs, name)
            else if rc.topic == name then Some(|rs|) else None
    decreases |rs|
  {
    if rs != [] {
      assert (rs + [rc])[1..] == rs[1..] + [rc];
      FirstReceiverAppend(rs[1..], rc, name);
    }
  }

  lemma FirstTransmitterAt(ts: seq<EventTransmitter>, name: string, i: nat)
    requires i < |ts| && ts[i].topicName == name
    requires forall j :: 0 <= j < i ==> ts[j].topicName != name
    ensures FirstTransmitter(ts, name) == Some(i)
  {
  }

  lemma FirstReceiverAt(rs: seq<EventReceiver>, name: string, i: nat)
    requires i < |rs| && rs[i].topic == name
    requires forall j :: 0 <= j < i ==> rs[j].topic != name
    ensures FirstReceiver(rs, name) == Some(i)
  {
  }
}
