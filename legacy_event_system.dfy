/** The legacy EventSystem of src/events/EventSystem.cc: two lists of
    transmitters and receivers, appended to without any check, searched
    front to back by topic name, and one process-wide default instance. */
module LegacyEventSystem {
  import opened Common
  import opened Policies
  import opened LegacyCodec
  import opened LegacyEvents

  /** `EventLog::getLoggingTopic()`, the message type of published records. */
  const LOGGING_TOPIC: string := "LSSTLogging"

  /** The place of the first transmitter registered under `name`. */
  function FirstTransmitter(ts: seq<Transmitter>, name: string): (i: Option<nat>)
    ensures i.Some? ==> i.value < |ts| && ts[i.value].topic == name
    ensures i.Some? ==> forall j :: 0 <= j < i.value ==> ts[j].topic != name
    ensures i.None? <==> forall j :: 0 <= j < |ts| ==> ts[j].topic != name
    decreases |ts|
  {
    if ts == [] then None
    else if ts[0].topic == name then Some(0)
    else match FirstTransmitter(ts[1..], name)
      case None => None
      case Some(k) => Some(k + 1)
  }

  /** The place of the first receiver registered under `name`. */
  function FirstReceiver(rs: seq<Receiver>, name: string): (i: Option<nat>)
    ensures i.Some? ==> i.value < |rs| && rs[i.value].topic == name
    ensures i.Some? ==> forall j :: 0 <= j < i.value ==> rs[j].topic != name
    ensures i.None? <==> forall j :: 0 <= j < |rs| ==> rs[j].topic != name
    decreases |rs|
  {
    if rs == [] then None
    else if rs[0].topic == name then Some(0)
    else match FirstReceiver(rs[1..], name)
      case None => None
      case Some(k) => Some(k + 1)
  }

  function NotRegistered(topicName: string): Error {
    RuntimeError("topic " + topicName + " is not registered with EventSystem")
  }

  /** The receiving calls spell the message with a capital T. */
  function NoReceiver(topicName: string): Error {
    RuntimeError("Topic " + topicName + " is not registered with EventSystem")
  }

  class EventSystem {
    /** `_transmitters`, in registration order. */
    var transmitters: seq<Transmitter>
    /** `_receivers`, in registration order. */
    var receivers: seq<Receiver>

    constructor ()
      ensures transmitters == [] && receivers == []
    {
      transmitters := [];
      receivers := [];
    }

    /** `createTransmitter(hostName, topicName)`: always appended, even
        under a topic already registered. */
    method CreateTransmitter(hostName: string, topicName: string, brokerUp: bool) returns (t: Transmitter)
      modifies this`transmitters
      ensures fresh(t) && t.topic == topicName && !t.turnEventsOff && !t.useLocalSockets
      ensures t.connected == brokerUp && t.sent == []
      ensures transmitters == old(transmitters) + [t]
    {
      t := new Transmitter(hostName, topicName, brokerUp);
      transmitters := transmitters + [t];
    }

    /** `createTransmitter(policy)`: a policy the constructor rejects
        registers nothing. */
    method CreateTransmitterFromPolicy(p: Policy, brokerUp: bool) returns (r: Result<Transmitter>)
      modifies this`transmitters
      ensures TransmitterConfig(p).Failure? ==>
                r == Failure(TransmitterConfig(p).error) && transmitters == old(transmitters)
      ensures TransmitterConfig(p).Success? ==>
                var c := TransmitterConfig(p).value;
                && r.Success? && fresh(r.value) && transmitters == old(transmitters) + [r.value]
                && r.value.topic == c.topicName && r.value.turnEventsOff == c.turnEventsOff
                && r.value.useLocalSockets == c.useLocalSockets && r.value.sent == []
                && r.value.connected == (!c.turnEventsOff && !c.useLocalSockets && brokerUp)
    {
      var c := TransmitterConfig(p);
      if c.Failure? {
        return Failure(c.error);
      }
      var t := new Transmitter.Configured(c.value, brokerUp);
      transmitters := transmitters + [t];
      return Success(t);
    }

    /** `createReceiver(hostName, topicName)`; the receiver is the one its
        constructor evidently intends, with events on. */
    method CreateReceiver(hostName: string, topicName: string, brokerUp: bool, incoming: seq<Arrival>) returns (rc: Receiver)
      modifies this`receivers
      ensures fresh(rc) && rc.topic == topicName && !rc.turnEventsOff && !rc.useLocalSockets
      ensures rc.connected == brokerUp && rc.cache == [] && rc.arrivals == DecodeAll(incoming)
      ensures receivers == old(receivers) + [rc]
    {
      rc := new Receiver(hostName, topicName, brokerUp, incoming);
      receivers := receivers + [rc];
    }

    /** `createReceiver(policy)`. */
    method CreateReceiverFromPolicy(p: Policy, brokerUp: bool, incoming: seq<Arrival>) returns (r: Result<Receiver>)
      modifies this`receivers
      ensures ReceiverConfig(p).Failure? ==>
                r == Failure(ReceiverConfig(p).error) && receivers == old(receivers)
      ensures ReceiverConfig(p).Success? ==>
                var c := ReceiverConfig(p).value;
                && r.Success? && fresh(r.value) && receivers == old(receivers) + [r.value]
                && r.value.topic == c.topicName && r.value.turnEventsOff == c.turnEventsOff
                && r.value.useLocalSockets == c.useLocalSockets
                && r.value.connected == (!c.turnEventsOff && !c.useLocalSockets && brokerUp)
                && r.value.cache == [] && r.value.arrivals == DecodeAll(incoming)
    {
      var c := ReceiverConfig(p);
      if c.Failure? {
        return Failure(c.error);
      }
      var rc := new Receiver.Configured(c.value, brokerUp, incoming);
      receivers := receivers + [rc];
      return Success(rc);
    }

    /** `getTransmitter(name)`: the first transmitter under `name`. */
    method GetTransmitter(name: string) returns (t: Option<Transmitter>)
      ensures FirstTransmitter(transmitters, name).None? ==> t.None?
      ensures FirstTransmitter(transmitters, name).Some? ==>
                t == Some(transmitters[FirstTransmitter(transmitters, name).value])
    {
      var i := 0;
      while i < |transmitters|
        invariant 0 <= i <= |transmitters|
        invariant forall j :: 0 <= j < i ==> transmitters[j].topic != name
      {
        if transmitters[i].GetTopicName() == name {
          FirstTransmitterAt(transmitters, name, i);
          return Some(transmitters[i]);
        }
        i := i + 1;
      }
      return None;
    }

    /** `getReceiver(name)`: the first receiver under `name`. */
    method GetReceiver(name: string) returns (rc: Option<Receiver>)
      ensures FirstReceiver(receivers, name).None? ==> rc.None?
      ensures FirstReceiver(receivers, name).Some? ==>
                rc == Some(receivers[FirstReceiver(receivers, name).value])
    {
      var i := 0;
      while i < |receivers|
        invariant 0 <= i <= |receivers|
        invariant forall j :: 0 <= j < i ==> receivers[j].topic != name
      {
        if receivers[i].GetTopicName() == name {
          FirstReceiverAt(receivers, name, i);
          return Some(receivers[i]);
        }
        i := i + 1;
      }
      return None;
    }

    /** `publish(topicName, dpt)`: through the first transmitter under the
        topic, with an empty message type. */
    method Publish(topicName: string, dp: Property) returns (r: Result<()>)
      modifies transmitters`sent
      ensures forall j :: 0 <= j < |transmitters| ==>
                transmitters[j].turnEventsOff == old(transmitters[j].turnEventsOff) &&
                transmitters[j].useLocalSockets == old(transmitters[j].useLocalSockets) &&
                transmitters[j].connected == old(transmitters[j].connected)
      ensures FirstTransmitter(transmitters, topicName).None? ==> r == Failure(NotRegistered(topicName))
      ensures FirstTransmitter(transmitters, topicName).Some? ==>
                var t := transmitters[FirstTransmitter(transmitters, topicName).value];
                (r, t.sent) == old(t.Publication("", MarshallText(dp), TupleCount(dp)))
      ensures FirstTransmitter(transmitters, topicName).None? ==> forall j :: 0 <= j < |transmitters| ==>
                transmitters[j].sent == old(transmitters[j].sent)
      ensures FirstTransmitter(transmitters, topicName).Some? ==> forall j :: 0 <= j < |transmitters| ==>
                transmitters[j] != transmitters[FirstTransmitter(transmitters, topicName).value] ==>
                transmitters[j].sent == old(transmitters[j].sent)
    {
      var found := GetTransmitter(topicName);
      if found.None? {
        return Failure(NotRegistered(topicName));
      }
      r := found.value.Publish("", dp);
    }

    /** `publish(topicName, LogRecord)`: the record's data go out with the
        logging topic as message type. */
    method PublishRecord(topicName: string, data: seq<Property>) returns (r: Result<()>)
      modifies transmitters`sent
      ensures forall j :: 0 <= j < |transmitters| ==>
                transmitters[j].turnEventsOff == old(transmitters[j].turnEventsOff) &&
                transmitters[j].useLocalSockets == old(transmitters[j].useLocalSockets) &&
                transmitters[j].connected == old(transmitters[j].connected)
      ensures FirstTransmitter(transmitters, topicName).None? ==> r == Failure(NotRegistered(topicName))
      ensures FirstTransmitter(transmitters, topicName).Some? ==>
                var t := transmitters[FirstTransmitter(transmitters, topicName).value];
                (r, t.sent) == old(t.Publication(LOGGING_TOPIC, RecordText(data), RecordTuples(data)))
      ensures FirstTransmitter(transmitters, topicName).None? ==> forall j :: 0 <= j < |transmitters| ==>
                transmitters[j].sent == old(transmitters[j].sent)
      ensures FirstTransmitter(transmitters, topicName).Some? ==> forall j :: 0 <= j < |transmitters| ==>
                transmitters[j] != transmitters[FirstTransmitter(transmitters, topicName).value] ==>
                transmitters[j].sent == old(transmitters[j].sent)
    {
      var found := GetTransmitter(topicName);
      if found.None? {
        return Failure(NotRegistered(topicName));
      }
      r := found.value.PublishRecord(LOGGING_TOPIC, data);
    }

    /** `receive(topicName, timeout)`. */
    method ReceiveTimed(topicName: string, timeout: int) returns (r: Result<Received>)
      modifies receivers`cache, receivers`arrivals
      ensures forall j :: 0 <= j < |receivers| ==>
                receivers[j].turnEventsOff == old(receivers[j].turnEventsOff) &&
                receivers[j].useLocalSockets == old(receivers[j].useLocalSockets) &&
                receivers[j].connected == old(receivers[j].connected)
      ensures FirstReceiver(receivers, topicName).None? ==> r == Failure(NoReceiver(topicName))
      ensures FirstReceiver(receivers, topicName).Some? ==>
                var rc := receivers[FirstReceiver(receivers, topicName).value];
                (r, rc.cache, rc.arrivals) == old(rc.Receipt(timeout))
      ensures FirstReceiver(receivers, topicName).None? ==> forall j :: 0 <= j < |receivers| ==>
                receivers[j].cache == old(receivers[j].cache) && receivers[j].arrivals == old(receivers[j].arrivals)
      ensures FirstReceiver(receivers, topicName).Some? ==> forall j :: 0 <= j < |receivers| ==>
                receivers[j] != receivers[FirstReceiver(receivers, topicName).value] ==>
                receivers[j].cache == old(receivers[j].cache) && receivers[j].arrivals == old(receivers[j].arrivals)
    {
      var found := GetReceiver(topicName);
      if found.None? {
        return Failure(NoReceiver(topicName));
      }
      r := found.value.ReceiveTimed(timeout);
    }

    /** `receive(topicName)`: a read that waits for ever. */
    method Receive(topicName: string) returns (r: Result<Received>)
      modifies receivers`cache, receivers`arrivals
      ensures forall j :: 0 <= j < |receivers| ==>
                receivers[j].turnEventsOff == old(receivers[j].turnEventsOff) &&
                receivers[j].useLocalSockets == old(receivers[j].useLocalSockets) &&
                receivers[j].connected == old(receivers[j].connected)
      ensures FirstReceiver(receivers, topicName).None? ==> r == Failure(NoReceiver(topicName))
      ensures FirstReceiver(receivers, topicName).Some? ==>
                var rc := receivers[FirstReceiver(receivers, topicName).value];
                (r, rc.cache, rc.arrivals) == old(rc.Receipt(INFINITE_TIMEOUT))
      ensures FirstReceiver(receivers, topicName).None? ==> forall j :: 0 <= j < |receivers| ==>
                receivers[j].cache == old(receivers[j].cache) && receivers[j].arrivals == old(receivers[j].arrivals)
      ensures FirstReceiver(receivers, topicName).Some? ==> forall j :: 0 <= j < |receivers| ==>
                receivers[j] != receivers[FirstReceiver(receivers, topicName).value] ==>
                receivers[j].cache == old(receivers[j].cache) && receivers[j].arrivals == old(receivers[j].arrivals)
    {
      r := ReceiveTimed(topicName, INFINITE_TIMEOUT);
    }

    /** The blocking `matchingReceive(topicName, name, value)`, which every
        overload without a timeout reaches. */
    method MatchingReceive(topicName: string, name: string, value: Any) returns (r: Result<Received>)
      modifies receivers`cache, receivers`arrivals
      ensures forall j :: 0 <= j < |receivers| ==>
                receivers[j].turnEventsOff == old(receivers[j].turnEventsOff) &&
                receivers[j].useLocalSockets == old(receivers[j].useLocalSockets) &&
                receivers[j].connected == old(receivers[j].connected)
      ensures FirstReceiver(receivers, topicName).None? ==> r == Failure(NoReceiver(topicName))
      ensures FirstReceiver(receivers, topicName).Some? ==>
                var rc := receivers[FirstReceiver(receivers, topicName).value];
                (r, rc.cache, rc.arrivals) == old(rc.MatchReceipt(name, value))
      ensures FirstReceiver(receivers, topicName).None? ==> forall j :: 0 <= j < |receivers| ==>
                receivers[j].cache == old(receivers[j].cache) && receivers[j].arrivals == old(receivers[j].arrivals)
      ensures FirstReceiver(receivers, topicName).Some? ==> forall j :: 0 <= j < |receivers| ==>
                receivers[j] != receivers[FirstReceiver(receivers, topicName).value] ==>
                receivers[j].cache == old(receivers[j].cache) && receivers[j].arrivals == old(receivers[j].arrivals)
    {
      var found := GetReceiver(topicName);
      if found.None? {
        return Failure(NoReceiver(topicName));
      }
      r := found.value.MatchingReceive(name, value);
    }
  }

  /** `getDefaultEventSystem` and the static pointer behind it. */
  class DefaultEventSystem {
    /** `defaultEventSystem`, null until the first call. */
    var instance: Option<EventSystem>

    constructor ()
      ensures instance.None?
    {
      instance := None;
    }

    /** The first call allocates an empty system; every later call returns
        that same object. */
    method Get() returns (es: EventSystem)
      modifies this
      ensures old(instance).Some? ==> es == old(instance).value && instance == old(instance)
      ensures old(instance).None? ==> fresh(es) && es.transmitters == [] && es.receivers == []
      ensures instance == Some(es)
    {
      if instance.None? {
        var created := new EventSystem();
        instance := Some(created);
      }
      es := instance.value;
    }
  }

  lemma FirstTransmitterAt(ts: seq<Transmitter>, name: string, i: nat)
    requires i < |ts| && ts[i].topic == name
    requires forall j :: 0 <= j < i ==> ts[j].topic != name
    ensures FirstTransmitter(ts, name) == Some(i)
  {
  }

  lemma FirstReceiverAt(rs: seq<Receiver>, name: string, i: nat)
    requires i < |rs| && rs[i].topic == name
    requires forall j :: 0 <= j < i ==> rs[j].topic != name
    ensures FirstReceiver(rs, name) == Some(i)
  {
  }
}
