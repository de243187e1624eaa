/** The legacy EventTransmitter and EventReceiver of src/events/Events.cc,
    around the tuple codec: the checks their policy constructors make, what
    `publish` sends, and the receiver's cache of messages that a
    `matchingReceive` read but did not want.

    The transport is abstract. A transmitter records what it sends; a
    receiver is given the sequence of arrivals its transport will deliver
    to successive reads. Whether the broker accepted the connection is an
    input: the constructors catch a CMSException and leave the producer or
    consumer null. */
module LegacyEvents {
  import opened Common
  import opened Policies
  import opened LegacyCodec

  /** The integer message property that carries the tuple count. */
  const TUPLECOUNT_PROPERTY: string := "LSSTEVENTTUPLES"

  /** `EventReceiver::infiniteTimeout`. The legacy receiver header is not
      part of this model; the value is the one the newer receiver declares. */
  const INFINITE_TIMEOUT: int := -1
  /** Tag and name of the header ahead of a record of several trees. */
  const NODELIST: string := "nodelist"

  /** What a policy configures a transmitter or a receiver with. */
  datatype Config = Config(hostName: string, topicName: string, turnEventsOff: bool, useLocalSockets: bool)

  /** The checks of `EventTransmitter(const Policy&)`, in the order the
      constructor makes them. Events turned off skip none of them; the
      flag is spelt "turnEventsoff". */
  function TransmitterConfig(p: Policy): (r: Result<Config>)
    ensures "topicName" !in p ==> r == Failure(NotFound("topicName"))
    ensures "topicName" in p && GetBoolOr(p, "turnEventsoff", false).Success? &&
            GetBoolOr(p, "useLocalSockets", false) == Success(false) && "hostName" !in p ==>
              r == Failure(NotFound("hostName"))
    ensures r.Success? ==> "topicName" in p && p["topicName"] == PString(r.value.topicName)
    ensures r.Success? ==> r.value.turnEventsOff == ("turnEventsoff" in p && p["turnEventsoff"] == PBool(true))
    ensures r.Success? ==> r.value.useLocalSockets == ("useLocalSockets" in p && p["useLocalSockets"] == PBool(true))
    ensures r.Success? && !r.value.useLocalSockets ==> "hostName" in p && p["hostName"] == PString(r.value.hostName)
    ensures r.Success? && "hostName" !in p ==> r.value.hostName == ""
  {
    if "topicName" !in p then Failure(NotFound("topicName"))
    else
      var off :- GetBoolOr(p, "turnEventsoff", false);
      var local :- GetBoolOr(p, "useLocalSockets", false);
      if !local && "hostName" !in p then Failure(NotFound("hostName"))
      else
        var host :- GetStringOr(p, "hostName", "");
        var topic :- GetString(p, "topicName");
        Success(Config(host, topic, off, local))
  }

  /** The checks of `EventReceiver(const Policy&)`: the topic is read before
      the flags, "turnEventsOff" has a capital O, a missing host raises the
      receiver's own HostNotSpecified, and the host defaults to "non". */
  function ReceiverConfig(p: Policy): (r: Result<Config>)
    ensures "topicName" !in p ==> r == Failure(NotFound("topicName"))
    ensures "topicName" in p && GetString(p, "topicName").Success? && GetBoolOr(p, "turnEventsOff", false).Success? &&
            GetBoolOr(p, "useLocalSockets", false) == Success(false) && "hostName" !in p ==>
              r == Failure(HostNotSpecified)
    ensures r.Success? ==> "topicName" in p && p["topicName"] == PString(r.value.topicName)
    ensures r.Success? ==> r.value.turnEventsOff == ("turnEventsOff" in p && p["turnEventsOff"] == PBool(true))
    ensures r.Success? ==> r.value.useLocalSockets == ("useLocalSockets" in p && p["useLocalSockets"] == PBool(true))
    ensures r.Success? && !r.value.useLocalSockets ==> "hostName" in p && p["hostName"] == PString(r.value.hostName)
    ensures r.Success? && "hostName" !in p ==> r.value.hostName == "non"
  {
    if "topicName" !in p then Failure(NotFound("topicName"))
    else
      var topic :- GetString(p, "topicName");
      var off :- GetBoolOr(p, "turnEventsOff", false);
      var local :- GetBoolOr(p, "useLocalSockets", false);
      if !local && "hostName" !in p then Failure(HostNotSpecified)
      else
        var host :- GetStringOr(p, "hostName", "non");
        Success(Config(host, topic, off, local))
  }

  // ------------------------------------------------------------ transmitter

  /** `strlen(s.c_str())`: the characters before the first NUL. */
  function CLength(s: string): (n: nat)
    ensures n <= |s|
    ensures forall i :: 0 <= i < n ==> s[i] != '\0'
    ensures n < |s| ==> s[n] == '\0'
    decreases |s|
  {
    if s == [] || s[0] == '\0' then 0 else 1 + CLength(s[1..])
  }

  /** One message on the wire: a TextMessage with its CMSType, the tuple
      count as LSSTEVENTTUPLES and the text; or, over a local socket, the
      tuple count followed by the C string of the text. */
  datatype Sent =
    | ToBroker(cmsType: string, tuples: int, text: string)
    | ToSocket(tuples: int, text: string)

  /** The text and tuple count `publish(type, LogRecord)` sends for the
      record's data: the one tree's own marshalled text, or else a
      "nodelist" header counting the trees, ahead of all of them. */
  function RecordText(data: seq<Property>): string {
    if |data| == 1 then MarshallText(data[0])
    else Tuple(NODELIST, NODELIST, Decimal(|data|)) + TUPLE_END + MarshallAll(data)
  }

  function RecordTuples(data: seq<Property>): int {
    if |data| == 1 then TupleCount(data[0]) else |data|
  }

  /** The loop of `publish(type, LogRecord)`: every tree marshalled in
      turn into one stream, remembering the text and tuple count of the
      last one; `nTuples` is uninitialised in the source and is read only
      after at least one tree. */
  method MarshallRecord(data: seq<Property>) returns (stream: string, messageText: string, nTuples: int)
    ensures stream == MarshallAll(data)
    ensures |data| > 0 ==> messageText == MarshallText(data[|data| - 1]) && nTuples == TupleCount(data[|data| - 1])
  {
    var nRecords := 0;
    stream := "";
    messageText := "";
    nTuples := 0;
    while nRecords < |data|
      invariant 0 <= nRecords <= |data|
      invariant stream == MarshallAll(data[..nRecords])
      invariant nRecords > 0 ==> messageText == MarshallText(data[nRecords - 1]) && nTuples == TupleCount(data[nRecords - 1])
    {
      messageText, nTuples := Marshall(data[nRecords]);
      StreamStep(data, nRecords);
      stream := stream + messageText;
      nRecords := nRecords + 1;
    }
    assert data[..nRecords] == data;
  }

  lemma StreamStep(data: seq<Property>, n: nat)
    requires n < |data|
    ensures MarshallAll(data[..n + 1]) == MarshallAll(data[..n]) + MarshallText(data[n])
  {
    assert data[..n + 1] == data[..n] + [data[n]];
    MarshallAllSnoc(data[..n], data[n]);
  }

  class Transmitter {
    /** `_topicName`, fixed at construction. */
    const topic: string
    var turnEventsOff: bool
    var useLocalSockets: bool
    /** `_producer` was created: `init` got through to the broker. */
    var connected: bool
    /** What has been sent, oldest first. */
    var sent: seq<Sent>

    /** `EventTransmitter(hostName, topicName)`: events on, over the broker. */
    constructor (hostName: string, topicName: string, brokerUp: bool)
      ensures topic == topicName && !turnEventsOff && !useLocalSockets
      ensures connected == brokerUp && sent == []
    {
      topic := topicName;
      turnEventsOff := false;
      useLocalSockets := false;
      connected := brokerUp;
      sent := [];
    }

    /** The policy constructor after its checks: `init` returns at once when
        events are off, and a local socket needs no broker. */
    constructor Configured(c: Config, brokerUp: bool)
      ensures topic == c.topicName && turnEventsOff == c.turnEventsOff && useLocalSockets == c.useLocalSockets
      ensures connected == (!c.turnEventsOff && !c.useLocalSockets && brokerUp) && sent == []
    {
      topic := c.topicName;
      turnEventsOff := c.turnEventsOff;
      useLocalSockets := c.useLocalSockets;
      connected := !c.turnEventsOff && !c.useLocalSockets && brokerUp;
      sent := [];
    }

    function GetTopicName(): (name: string)
      ensures name == topic
    {
      topic
    }

    /** What the private `publish(type, text, nTuples)` puts on the wire;
        without a producer the broker path writes through a null session. */
    function Outgoing(cmsType: string, text: string, n: int): Result<Sent>
      reads this`useLocalSockets, this`connected
    {
      if useLocalSockets then Success(ToSocket(n, text[..CLength(text)]))
      else if connected then Success(ToBroker(cmsType, n, text))
      else Failure(NullDereference)
    }

    /** What a `publish` that has marshalled `text` with `n` tuples returns
        and leaves sent: nothing is sent while events are off, and a failed
        send sends nothing. */
    function Publication(cmsType: string, text: string, n: int): (Result<()>, seq<Sent>)
      reads this`turnEventsOff, this`useLocalSockets, this`connected, this`sent
    {
      if turnEventsOff then (Success(()), sent)
      else match Outgoing(cmsType, text, n)
        case Success(m) => (Success(()), sent + [m])
        case Failure(e) => (Failure(e), sent)
    }

    /** The private `publish(type, text, nTuples)`. */
    method Send(cmsType: string, text: string, n: int) returns (r: Result<()>)
      modifies this`sent
      ensures r.Success? <==> Outgoing(cmsType, text, n).Success?
      ensures r.Success? ==> r == Success(()) && sent == old(sent) + [Outgoing(cmsType, text, n).value]
      ensures r.Failure? ==> r == Failure(Outgoing(cmsType, text, n).error) && sent == old(sent)
    {
      if useLocalSockets {
        sent := sent + [ToSocket(n, text[..CLength(text)])];
        return Success(());
      }
      if !connected {
        return Failure(NullDereference);
      }
      sent := sent + [ToBroker(cmsType, n, text)];
      return Success(());
    }

    /** `publish(type, dpt)`: nothing when events are off; otherwise the
        marshalled tree with the tuple count `marshall` reports. */
    method Publish(cmsType: string, dp: Property) returns (r: Result<()>)
      modifies this`sent
      ensures (r, sent) == old(Publication(cmsType, MarshallText(dp), TupleCount(dp)))
    {
      if turnEventsOff {
        return Success(());
      }
      var text, n := Marshall(dp);
      r := Send(cmsType, text, n);
    }

    /** `publish(type, LogRecord)`: every tree of the record is marshalled in
        turn into one stream; a single tree is sent as itself, any other
        number behind a "nodelist" header whose count is the number of
        trees. */
    method PublishRecord(cmsType: string, data: seq<Property>) returns (r: Result<()>)
      modifies this`sent
      ensures (r, sent) == old(Publication(cmsType, RecordText(data), RecordTuples(data)))
    {
      if turnEventsOff {
        return Success(());
      }
      var stream, messageText, nTuples := MarshallRecord(data);
      var nRecords := |data|;
      if nRecords == 1 {
        r := Send(cmsType, messageText, nTuples);
      } else {
        var header := "nodelist||nodelist||" + Decimal(nRecords) + TUPLE_END;
        NodeListHeader(Decimal(nRecords));
        r := Send(cmsType, header + stream, nRecords);
      }
    }
  }

  /** A publication sends one message or none: none while events are off
      or when the broker path has no producer, which is the only failure;
      otherwise the text goes to the broker whole, or to the socket cut at
      its first NUL. */
  lemma PublicationSends(t: Transmitter, cmsType: string, text: string, n: int)
    ensures var (r, after) := t.Publication(cmsType, text, n);
      && (t.turnEventsOff ==> r == Success(()) && after == t.sent)
      && (r.Failure? <==> !t.turnEventsOff && !t.useLocalSockets && !t.connected)
      && (r.Failure? ==> r.error == NullDereference && after == t.sent)
      && (!t.turnEventsOff && t.useLocalSockets ==> after == t.sent + [ToSocket(n, text[..CLength(text)])])
      && (!t.turnEventsOff && !t.useLocalSockets && t.connected ==> after == t.sent + [ToBroker(cmsType, n, text)])
  {
  }

  lemma {:induction false} MarshallAllSnoc(cs: seq<Property>, c: Property)
    ensures MarshallAll(cs + [c]) == MarshallAll(cs) + MarshallText(c)
    decreases |cs|
  {
    if cs == [] {
      assert [c][1..] == [];
    } else {
      assert (cs + [c])[1..] == cs[1..] + [c];
      MarshallAllSnoc(cs[1..], c);
    }
  }

  /** A record's message unmarshalls, with the tuple count sent beside it,
      into what was published: the single tree, or a node named "nodelist"
      holding the trees in order. */
  lemma RecordRoundTrip(data: seq<Property>)
    requires AllWellFormed(data)
    requires |data| == 1 ==> data[0].Node?
    ensures Unmarshall(RecordTuples(data), RecordText(data)) ==
            Success(if |data| == 1 then data[0] else Node(NODELIST, data))
  {
    if |data| == 1 {
      SingleRecord(data);
    } else {
      NodeListRecord(data);
    }
  }

  lemma SingleRecord(data: seq<Property>)
    requires AllWellFormed(data) && |data| == 1 && data[0].Node?
    ensures Unmarshall(RecordTuples(data), RecordText(data)) == Success(data[0])
  {
    AllWellFormedAt(data, 0);
    RoundTrip(data[0]);
  }

  lemma NodeListRecord(data: seq<Property>)
    requires AllWellFormed(data) && |data| != 1
    ensures Unmarshall(RecordTuples(data), RecordText(data)) == Success(Node(NODELIST, data))
  {
    NodeListPlain();
    ListRoundTrip(NODELIST, NODELIST, data);
  }

  /** The header `publish` writes is the tuple of a node named NODELIST. */
  lemma NodeListHeader(count: string)
    ensures "nodelist||nodelist||" + count + TUPLE_END == Tuple(NODELIST, NODELIST, count) + TUPLE_END
  {
  }

  lemma NodeListPlain()
    ensures Plain(NODELIST)
  {
    forall i | 0 <= i < |NODELIST| ensures NODELIST[i] != '|' && NODELIST[i] != '~' {
    }
  }

  // --------------------------------------------------------------- receiver

  /** What the transport delivers to one read: a message with its tuple
      count and text, or nothing (a timeout, or a consumer that returns no
      message). */
  datatype Arrival = Message(tuples: int, text: string) | Silence

  /** What a read returns: a tree, the null pointer, or no return at all
      because a blocking read waits beyond the modelled arrivals. */
  datatype Received = Got(p: Property) | NoEvent | Waiting

  /** What the receiver makes of one arrival: the outcome of
      `processTextMessage`/`processStandaloneMessage` for a message, or
      nothing to process. */
  datatype Incoming = Delivered(tree: Result<Property>) | Nothing

  /** `processTextMessage` and `processStandaloneMessage`: unmarshall the
      text with the tuple count that came with it. The text is split with
      the corrected splitter; with `splitString` as written every decode
      ends in out_of_range (`LegacyCodec.UnmarshallAsWritten`). */
  function Decoded(a: Arrival): (i: Incoming)
    ensures a.Silence? <==> i.Nothing?
    ensures a.Message? ==> i == Delivered(Unmarshall(a.tuples, a.text))
  {
    match a
    case Silence => Nothing
    case Message(n, text) => Delivered(Unmarshall(n, text))
  }

  /** The arrivals as the receiver processes them, one by one. Decoding
      depends on nothing but the arrival, so the model decodes each arrival
      when the receiver is built rather than when it is read. */
  function DecodeAll(arr: seq<Arrival>): (r: seq<Incoming>)
    ensures |r| == |arr|
    ensures forall k :: 0 <= k < |arr| ==> r[k] == Decoded(arr[k])
    decreases |arr|
  {
    if arr == [] then [] else [Decoded(arr[0])] + DecodeAll(arr[1..])
  }

  /** One transport read on the arrivals: the next one is consumed; when
      none is left a read that waits for ever waits and any other read
      times out. */
  function Deliver(arr: seq<Incoming>, wait: bool): (Result<Received>, seq<Incoming>) {
    if arr == [] then (Success(if wait then Waiting else NoEvent), [])
    else match arr[0]
      case Nothing => (Success(NoEvent), arr[1..])
      case Delivered(Success(p)) => (Success(Got(p)), arr[1..])
      case Delivered(Failure(e)) => (Failure(e), arr[1..])
  }

  /** The scan of `checkMessageCache` over `ps`: the first entry whose
      property `name` holds `value`, or none. An entry examined before a
      match that lacks the property makes `findUnique` return the null
      pointer, which is then dereferenced. */
  function FirstMatch(ps: seq<Property>, name: string, value: Any): (r: Result<Option<nat>>)
    ensures r.Success? && r.value.Some? ==>
              r.value.value < |ps| && HasField(ps[r.value.value], name) && Matches(ps[r.value.value], name, value)
    ensures r.Success? ==> forall j :: 0 <= j < |ps| && (r.value.None? || j < r.value.value) ==>
              HasField(ps[j], name) && !Matches(ps[j], name, value)
    ensures r.Failure? ==> r.error == NullDereference
    ensures r.Failure? ==>
              exists k :: 0 <= k < |ps| && !HasField(ps[k], name) &&
                forall j :: 0 <= j < k ==> HasField(ps[j], name) && !Matches(ps[j], name, value)
    decreases |ps|
  {
    if ps == [] then Success(None)
    else if !HasField(ps[0], name) then Failure(NullDereference)
    else if Matches(ps[0], name, value) then Success(Some(0))
    else match FirstMatch(ps[1..], name, value)
      case Failure(e) => Failure(e)
      case Success(None) => Success(None)
      case Success(Some(k)) => Success(Some(k + 1))
  }

  /** An arrival that the loop of the blocking `matchingReceive` cannot
      test: `_receive()` returned the null pointer, or the tree it returned
      has no property `name`, so the pointer `findUnique` returns is null. */
  predicate Untestable(a: Incoming, name: string) {
    a.Nothing? || (a.tree.Success? && !HasField(a.tree.value, name))
  }

  /** What the loop of the blocking `matchingReceive` does with the
      arrivals: the trees that do not match, in arrival order, go to the
      cache, until a tree matches, a text fails to decode, an arrival cannot
      be tested, or the arrivals run out and the call waits. */
  datatype Drained = Drained(pushed: seq<Property>, rest: seq<Incoming>, outcome: Result<Received>)

  function Drain(arr: seq<Incoming>, name: string, value: Any): Drained
    decreases |arr|
  {
    if arr == [] then Drained([], [], Success(Waiting))
    else match arr[0]
      case Nothing => Drained([], arr[1..], Failure(NullDereference))
      case Delivered(Failure(e)) => Drained([], arr[1..], Failure(e))
      case Delivered(Success(p)) =>
        if !HasField(p, name) then Drained([], arr[1..], Failure(NullDereference))
        else if Matches(p, name, value) then Drained([], arr[1..], Success(Got(p)))
        else
          var d := Drain(arr[1..], name, value);
          Drained([p] + d.pushed, d.rest, d.outcome)
  }

  /** What `Drain` does, in terms of its input: the first |pushed| arrivals
      decode to the pushed trees, each carrying the property and none
      matching; the arrival after them decides the outcome (a match, a
      decoding failure, or a null dereference on an arrival that cannot be
      tested), unless all were pushed and the call waits. */
  lemma {:induction false} DrainFacts(arr: seq<Incoming>, name: string, value: Any)
    ensures var d := Drain(arr, name, value);
      && |d.pushed| <= |arr|
      && (forall k :: 0 <= k < |d.pushed| ==>
            arr[k] == Delivered(Success(d.pushed[k])) &&
            HasField(d.pushed[k], name) && !Matches(d.pushed[k], name, value))
      && (d.outcome.Success? && d.outcome.value.Got? ==>
            |d.pushed| < |arr| && arr[|d.pushed|] == Delivered(Success(d.outcome.value.p)) &&
            HasField(d.outcome.value.p, name) && Matches(d.outcome.value.p, name, value))
      && (d.outcome.Failure? ==>
            && |d.pushed| < |arr|
            && (|| arr[|d.pushed|] == Delivered(Failure(d.outcome.error))
                || (Untestable(arr[|d.pushed|], name) && d.outcome.error == NullDereference)))
    decreases |arr|
  {
    if arr != [] {
      if arr[0].Delivered? && arr[0].tree.Success? && HasField(arr[0].tree.value, name) &&
         !Matches(arr[0].tree.value, name, value) {
        var p := arr[0].tree.value;
        DrainFacts(arr[1..], name, value);
        var d, d' := Drain(arr, name, value), Drain(arr[1..], name, value);
        assert d.pushed == [p] + d'.pushed;
        forall k | 0 < k < |d.pushed| ensures arr[k] == Delivered(Success(d.pushed[k])) {
          assert d.pushed[k] == d'.pushed[k - 1] && arr[k] == arr[1..][k - 1];
        }
        assert forall k :: 0 < k < |arr| ==> arr[k] == arr[1..][k - 1];
      }
    }
  }

  /** How much of the arrivals the loop consumes: the rest is what follows
      the pushed trees and the arrival that decided the outcome, and the
      call waits exactly when every arrival was pushed. */
  lemma {:induction false} DrainShape(arr: seq<Incoming>, name: string, value: Any)
    ensures var d := Drain(arr, name, value);
      && |d.pushed| <= |arr| && |d.rest| <= |arr|
      && (forall k :: 0 <= k < |d.rest| ==> d.rest[k] == arr[|arr| - |d.rest| + k])
      && (d.outcome == Success(Waiting) <==> |d.pushed| == |arr|)
      && (d.outcome == Success(Waiting) ==> d.rest == [])
      && (d.outcome != Success(Waiting) ==> |d.pushed| < |arr| && |d.rest| == |arr| - |d.pushed| - 1)
      && d.outcome != Success(NoEvent)
    decreases |arr|
  {
    if arr != [] {
      if arr[0].Delivered? && arr[0].tree.Success? && HasField(arr[0].tree.value, name) &&
         !Matches(arr[0].tree.value, name, value) {
        DrainShape(arr[1..], name, value);
        assert forall k :: 0 < k < |arr| ==> arr[k] == arr[1..][k - 1];
      }
    }
  }

  class Receiver {
    /** `_topicName`, fixed at construction. */
    const topic: string
    var turnEventsOff: bool
    var useLocalSockets: bool
    /** `_consumer` was created: `init` got through to the broker. */
    var connected: bool
    /** `_messageCache`, front first. */
    var cache: seq<Property>
    /** What the transport will deliver to the next reads, in order. */
    var arrivals: seq<Incoming>

    /** `EventReceiver(hostName, topicName)` with events on, as intended. */
    constructor (hostName: string, topicName: string, brokerUp: bool, incoming: seq<Arrival>)
      ensures topic == topicName && !turnEventsOff && !useLocalSockets && connected == brokerUp
      ensures cache == [] && arrivals == DecodeAll(incoming)
    {
      topic := topicName;
      turnEventsOff := false;
      useLocalSockets := false;
      connected := brokerUp;
      cache := [];
      arrivals := DecodeAll(incoming);
    }

    /** `EventReceiver(hostName, topicName)` as written: `_turnEventsOff` is
        never assigned, so `init` tests whatever the member happens to
        hold, given here as `indeterminate`. */
    constructor AsWritten(hostName: string, topicName: string, brokerUp: bool, incoming: seq<Arrival>, indeterminate: bool)
      ensures topic == topicName && turnEventsOff == indeterminate && !useLocalSockets
      ensures connected == (!indeterminate && brokerUp)
      ensures cache == [] && arrivals == DecodeAll(incoming)
    {
      topic := topicName;
      turnEventsOff := indeterminate;
      useLocalSockets := false;
      connected := !indeterminate && brokerUp;
      cache := [];
      arrivals := DecodeAll(incoming);
    }

    /** The policy constructor after its checks. */
    constructor Configured(c: Config, brokerUp: bool, incoming: seq<Arrival>)
      ensures topic == c.topicName && turnEventsOff == c.turnEventsOff && useLocalSockets == c.useLocalSockets
      ensures connected == (!c.turnEventsOff && !c.useLocalSockets && brokerUp)
      ensures cache == [] && arrivals == DecodeAll(incoming)
    {
      topic := c.topicName;
      turnEventsOff := c.turnEventsOff;
      useLocalSockets := c.useLocalSockets;
      connected := !c.turnEventsOff && !c.useLocalSockets && brokerUp;
      cache := [];
      arrivals := DecodeAll(incoming);
    }

    function GetTopicName(): (name: string)
      ensures name == topic
    {
      topic
    }

    /** What `_receive(timeout)` returns and leaves to read: nothing when
        events are off, a null consumer dereferenced on the broker path
        without a connection, otherwise the next arrival; the timeout only
        decides whether an exhausted input waits. */
    function TimedRead(timeout: int): (Result<Received>, seq<Incoming>)
      reads this
    {
      if turnEventsOff then (Success(NoEvent), arrivals)
      else if !useLocalSockets && !connected then (Failure(NullDereference), arrivals)
      else Deliver(arrivals, timeout == INFINITE_TIMEOUT)
    }

    /** What the blocking `_receive()` returns: over the broker it asks the
        consumer without looking at the flag; over a socket it is
        `_receive(infiniteTimeout)`. */
    function BlockingRead(): (Result<Received>, seq<Incoming>)
      reads this
    {
      if useLocalSockets then TimedRead(INFINITE_TIMEOUT)
      else if !connected then (Failure(NullDereference), arrivals)
      else Deliver(arrivals, true)
    }

    /** A blocking read can return a tree: otherwise the first one of
        `matchingReceive` dereferences a null pointer. */
    predicate Live() reads this {
      if useLocalSockets then !turnEventsOff else connected
    }

    method ReadTimed(timeout: int) returns (r: Result<Received>)
      modifies this`arrivals
      ensures (r, arrivals) == old(TimedRead(timeout))
    {
      if turnEventsOff {
        return Success(NoEvent);
      }
      if !useLocalSockets && !connected {
        return Failure(NullDereference);
      }
      r := Take(timeout == INFINITE_TIMEOUT);
    }

    method ReadBlocking() returns (r: Result<Received>)
      modifies this`arrivals
      ensures (r, arrivals) == old(BlockingRead())
    {
      if useLocalSockets {
        r := ReadTimed(INFINITE_TIMEOUT);
      } else if !connected {
        r := Failure(NullDereference);
      } else {
        r := Take(true);
      }
    }

    /** The transport read itself. */
    method Take(wait: bool) returns (r: Result<Received>)
      modifies this`arrivals
      ensures (r, arrivals) == Deliver(old(arrivals), wait)
    {
      if arrivals == [] {
        return Success(if wait then Waiting else NoEvent);
      }
      var a := arrivals[0];
      arrivals := arrivals[1..];
      if a.Nothing? {
        return Success(NoEvent);
      }
      var p := a.tree;
      if p.Failure? {
        return Failure(p.error);
      }
      return Success(Got(p.value));
    }

    /** What `receive(timeout)` returns and leaves in the cache and the
        arrivals. */
    function Receipt(timeout: int): (Result<Received>, seq<Property>, seq<Incoming>)
      reads this
    {
      if cache != [] then (Success(Got(cache[0])), cache[1..], arrivals)
      else (TimedRead(timeout).0, [], TimedRead(timeout).1)
    }

    /** What the blocking `matchingReceive(name, value)` returns and leaves
        in the cache and the arrivals. */
    function MatchReceipt(name: string, value: Any): (Result<Received>, seq<Property>, seq<Incoming>)
      reads this
    {
      match FirstMatch(cache, name, value)
      case Failure(e) => (Failure(e), cache, arrivals)
      case Success(Some(i)) => (Success(Got(cache[i])), cache[..i] + cache[i + 1..], arrivals)
      case Success(None) =>
        if !Live() then (Failure(NullDereference), cache, arrivals)
        else
          var d := Drain(arrivals, name, value);
          (d.outcome, cache + d.pushed, d.rest)
    }

    /** `receive()`: the front of the cache, removed, before anything is
        read from the transport. */
    method Receive() returns (r: Result<Received>)
      modifies this`cache, this`arrivals
      ensures old(cache) != [] ==> r == Success(Got(old(cache)[0])) && cache == old(cache)[1..] && arrivals == old(arrivals)
      ensures old(cache) == [] ==> (r, arrivals) == old(BlockingRead()) && cache == []
    {
      if |cache| != 0 {
        r := Success(Got(cache[0]));
        cache := cache[1..];
        return;
      }
      r := ReadBlocking();
    }

    /** `receive(timeout)`: the same, with a read that gives up. */
    method ReceiveTimed(timeout: int) returns (r: Result<Received>)
      modifies this`cache, this`arrivals
      ensures old(cache) != [] ==> r == Success(Got(old(cache)[0])) && cache == old(cache)[1..] && arrivals == old(arrivals)
      ensures old(cache) == [] ==> (r, arrivals) == old(TimedRead(timeout)) && cache == []
      ensures (r, cache, arrivals) == old(Receipt(timeout))
    {
      if |cache| != 0 {
        r := Success(Got(cache[0]));
        cache := cache[1..];
        return;
      }
      r := ReadTimed(timeout);
    }

    /** `checkMessageCache`: the first cached tree whose property matches.
        The pointer it returns is modelled by its place in the cache; its
        own `remove` is handed the matched child, which is never an element
        of the cache, and removes nothing. */
    method CheckMessageCache(name: string, value: Any) returns (found: Result<Option<nat>>)
      ensures found == FirstMatch(cache, name, value)
    {
      var i := 0;
      while i < |cache|
        invariant 0 <= i <= |cache|
        invariant forall j :: 0 <= j < i ==> HasField(cache[j], name) && !Matches(cache[j], name, value)
      {
        if !HasField(cache[i], name) {
          // `getValue` on the null pointer `findUnique` returns
          FirstMatchUntestable(cache, name, value, i);
          return Failure(NullDereference);
        }
        if Matches(cache[i], name, value) {
          FirstMatchAt(cache, name, value, i);
          return Success(Some(i));
        }
        i := i + 1;
      }
      FirstMatchNone(cache, name, value);
      return Success(None);
    }

    /** The blocking `matchingReceive(name, value)`: a cached match is
        returned and removed first; otherwise arrivals are read, every one
        that does not match is appended to the back of the cache, and the
        first that matches is returned without being cached. A message
        examined on the way that lacks the property ends the call with a
        null dereference. */
    method MatchingReceive(name: string, value: Any) returns (r: Result<Received>)
      modifies this`cache, this`arrivals
      ensures FirstMatch(old(cache), name, value).Failure? ==>
                r == Failure(NullDereference) && cache == old(cache) && arrivals == old(arrivals)
      ensures FirstMatch(old(cache), name, value).Success? && FirstMatch(old(cache), name, value).value.Some? ==>
                var i := FirstMatch(old(cache), name, value).value.value;
                r == Success(Got(old(cache)[i])) && cache == old(cache)[..i] + old(cache)[i + 1..] && arrivals == old(arrivals)
      ensures FirstMatch(old(cache), name, value) == Success(None) && !old(Live()) ==>
                r == Failure(NullDereference) && cache == old(cache)
      ensures FirstMatch(old(cache), name, value) == Success(None) && old(Live()) ==>
                var d := Drain(old(arrivals), name, value);
                r == d.outcome && cache == old(cache) + d.pushed && arrivals == d.rest
      ensures (r, cache, arrivals) == old(MatchReceipt(name, value))
    {
      var found := CheckMessageCache(name, value);
      if found.Failure? {
        return found.PropagateFailure();
      }
      if found.value.Some? {
        var i := found.value.value;
        r := Success(Got(cache[i]));
        cache := cache[..i] + cache[i + 1..];
        return;
      }
      if !Live() {
        // the first read dereferences the null consumer, or returns the
        // null pointer that `findUnique` is then called on
        return Failure(NullDereference);
      }
      r := ReadUntilMatch(name, value);
    }

    /** The loop of the blocking `matchingReceive`. */
    method ReadUntilMatch(name: string, value: Any) returns (r: Result<Received>)
      requires Live()
      modifies this`cache, this`arrivals
      ensures var d := Drain(old(arrivals), name, value);
              r == d.outcome && cache == old(cache) + d.pushed && arrivals == d.rest
    {
      ghost var cache0, arr0 := cache, arrivals;
      ghost var d0 := Drain(arr0, name, value);
      while true
        invariant Live()
        invariant DrainedSoFar(cache0, d0, cache, arrivals, name, value)
        decreases |arrivals|
      {
        assert BlockingRead() == Deliver(arrivals, true);
        LoopTurn(cache0, d0, cache, arrivals, name, value);
        var dpt := ReadBlocking();
        // An exception, or a wait that never ends
        if dpt.Failure? || dpt.value.Waiting? {
          return dpt;
        }
        // `findUnique` on the null pointer, or `getValue` on the null
        // pointer it returns
        if dpt.value.NoEvent? || !HasField(dpt.value.p, name) {
          return Failure(NullDereference);
        }
        if Matches(dpt.value.p, name, value) {
          return dpt;
        }
        cache := cache + [dpt.value.p];
      }
    }
  }

  /** The invariant of the loop that computes `Drain(arr0)` with `cache0`
      cached before it: what is cached so far and what the rest of the
      arrivals drain to make up the whole. */
  predicate DrainedSoFar(cache0: seq<Property>, d0: Drained, cache: seq<Property>,
                         arr: seq<Incoming>, name: string, value: Any)
  {
    cache0 + d0.pushed == cache + Drain(arr, name, value).pushed &&
    d0.rest == Drain(arr, name, value).rest && d0.outcome == Drain(arr, name, value).outcome
  }

  /** One turn of the loop: a read that ends the loop returns the outcome
      and leaves the rest, and a non-matching tree is cached and keeps the
      invariant on fewer arrivals. */
  lemma LoopTurn(cache0: seq<Property>, d0: Drained, cache: seq<Property>,
                 arr: seq<Incoming>, name: string, value: Any)
    requires DrainedSoFar(cache0, d0, cache, arr, name, value)
    ensures var (r, rest) := Deliver(arr, true);
            r.Failure? || r.value.Waiting? ==>
              r == d0.outcome && cache == cache0 + d0.pushed && rest == d0.rest
    ensures var (r, rest) := Deliver(arr, true);
            r.Success? && (r.value.NoEvent? || (r.value.Got? && !HasField(r.value.p, name))) ==>
              d0.outcome == Failure(NullDereference) && cache == cache0 + d0.pushed && rest == d0.rest
    ensures var (r, rest) := Deliver(arr, true);
            r.Success? && r.value.Got? && HasField(r.value.p, name) && Matches(r.value.p, name, value) ==>
              r == d0.outcome && cache == cache0 + d0.pushed && rest == d0.rest
    ensures var (r, rest) := Deliver(arr, true);
            r.Success? && r.value.Got? && HasField(r.value.p, name) && !Matches(r.value.p, name, value) ==>
              |rest| < |arr| && DrainedSoFar(cache0, d0, cache + [r.value.p], rest, name, value)
  {
    DrainStep(arr, name, value);
    var (r, rest) := Deliver(arr, true);
    if r.Success? && r.value.Got? && HasField(r.value.p, name) && !Matches(r.value.p, name, value) {
      var later := Drain(rest, name, value).pushed;
      assert cache + ([r.value.p] + later) == (cache + [r.value.p]) + later;
    } else {
      assert cache + [] == cache;
    }
  }

  /** One turn of the loop that computes `Drain`: the blocking read of the
      next arrival, and what `Drain` makes of it. */
  lemma DrainStep(arr: seq<Incoming>, name: string, value: Any)
    ensures var (r, rest) := Deliver(arr, true);
            r.Failure? || r.value.Waiting? ==> Drain(arr, name, value) == Drained([], rest, r)
    ensures var (r, rest) := Deliver(arr, true);
            r.Success? && (r.value.NoEvent? || (r.value.Got? && !HasField(r.value.p, name))) ==>
              Drain(arr, name, value) == Drained([], rest, Failure(NullDereference))
    ensures var (r, rest) := Deliver(arr, true);
            r.Success? && r.value.Got? && HasField(r.value.p, name) && Matches(r.value.p, name, value) ==>
              Drain(arr, name, value) == Drained([], rest, r)
    ensures var (r, rest) := Deliver(arr, true);
            r.Success? && r.value.Got? && HasField(r.value.p, name) && !Matches(r.value.p, name, value) ==>
              |rest| < |arr| &&
              Drain(arr, name, value).pushed == [r.value.p] + Drain(rest, name, value).pushed &&
              Drain(arr, name, value).rest == Drain(rest, name, value).rest &&
              Drain(arr, name, value).outcome == Drain(rest, name, value).outcome
  {
  }

  lemma FirstMatchAt(ps: seq<Property>, name: string, value: Any, i: nat)
    requires i < |ps| && HasField(ps[i], name) && Matches(ps[i], name, value)
    requires forall j :: 0 <= j < i ==> HasField(ps[j], name) && !Matches(ps[j], name, value)
    ensures FirstMatch(ps, name, value) == Success(Some(i))
  {
  }

  lemma FirstMatchUntestable(ps: seq<Property>, name: string, value: Any, i: nat)
    requires i < |ps| && !HasField(ps[i], name)
    requires forall j :: 0 <= j < i ==> HasField(ps[j], name) && !Matches(ps[j], name, value)
    ensures FirstMatch(ps, name, value) == Failure(NullDereference)
  {
  }

  lemma FirstMatchNone(ps: seq<Property>, name: string, value: Any)
    requires forall j :: 0 <= j < |ps| ==> HasField(ps[j], name) && !Matches(ps[j], name, value)
    ensures FirstMatch(ps, name, value) == Success(None)
  {
  }
}
