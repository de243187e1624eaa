/** src/EventAppender.cc: a log4cxx appender that publishes each logging
    event as a LogEvent on a topic. Its options are set by name, it keeps
    at most one transmitter, builds it on demand and drops it when a
    publication fails. What log4cxx's `LogLog::error` reports is recorded
    in `errors`; whether the broker accepts a connection is given to each
    call that may construct a transmitter. */
module EventAppenders {
  import opened Common
  import opened PropertySets
  import opened Messages
  import opened BaseEvent
  import opened EventLibraries
  import opened Transmitters

  /** log4cxx `StringHelper::equalsIgnoreCase(s, upper, lower)`: walks `s`
      and accepts each character equal to the one at the same place in
      `upper` or in `lower`; `upper` must end where `s` ends. */
  function EqualsIgnoreCase(s: string, upper: string, lower: string): (b: bool)
    requires |upper| == |lower|
    ensures b <==> |s| == |upper| && forall i :: 0 <= i < |s| ==> s[i] == upper[i] || s[i] == lower[i]
  {
    if s == [] then upper == []
    else if upper == [] then false
    else (s[0] == upper[0] || s[0] == lower[0]) && EqualsIgnoreCase(s[1..], upper[1..], lower[1..])
  }

  predicate IsUpperLetter(c: char) { 'A' <= c <= 'Z' }

  function LowerLetter(c: char): (l: char)
    requires IsUpperLetter(c)
  {
    (c as int + 32) as char
  }

  function UpperChar(c: char): (u: char) {
    if 'a' <= c <= 'z' then (c as int - 32) as char else c
  }

  /** `l` is `u` spelt in lower case, letter for letter. */
  predicate LowerOf(u: string, l: string) {
    |l| == |u| && forall i :: 0 <= i < |u| ==> IsUpperLetter(u[i]) && l[i] == LowerLetter(u[i])
  }

  function Upper(s: string): (u: string)
    ensures |u| == |s| && forall i :: 0 <= i < |s| ==> u[i] == UpperChar(s[i])
  {
    if s == [] then [] else [UpperChar(s[0])] + Upper(s[1..])
  }

  /** For an option name of capital letters, `equalsIgnoreCase` against it
      and its lower-case spelling is ASCII case folding. */
  lemma IgnoreCaseIsFolding(s: string, name: string, lower: string)
    requires LowerOf(name, lower)
    ensures EqualsIgnoreCase(s, name, lower) <==> Upper(s) == name
  {
    if Upper(s) == name {
      assert forall i :: 0 <= i < |s| ==> s[i] == name[i] || s[i] == lower[i] by {
        forall i | 0 <= i < |s|
          ensures s[i] == name[i] || s[i] == lower[i]
        {
          assert UpperChar(s[i]) == name[i];
        }
      }
    }
    if EqualsIgnoreCase(s, name, lower) {
      assert forall i :: 0 <= i < |s| ==> Upper(s)[i] == name[i];
    }
  }

  /** The options the appender handles itself. */
  datatype OptionName = Broker | Port | Topic | RunId | Other

  const BROKER_OPTION: string := "BROKER"
  const PORT_OPTION: string := "PORT"
  const TOPIC_OPTION: string := "TOPIC"
  const RUNID_OPTION: string := "RUNID"

  /** The branch of `setOption` an option name takes, tried in order. */
  function Classify(option: string): (k: OptionName) {
    if EqualsIgnoreCase(option, BROKER_OPTION, "broker") then Broker
    else if EqualsIgnoreCase(option, PORT_OPTION, "port") then Port
    else if EqualsIgnoreCase(option, TOPIC_OPTION, "topic") then Topic
    else if EqualsIgnoreCase(option, RUNID_OPTION, "runid") then RunId
    else Other
  }

  /** The lower-case spellings `setOption` passes beside each name. */
  lemma BrokerSpelling()
    ensures LowerOf(BROKER_OPTION, "broker")
  {
    assert "broker"[0] == LowerLetter('B') && "broker"[1] == LowerLetter('R') && "broker"[2] == LowerLetter('O');
    assert "broker"[3] == LowerLetter('K') && "broker"[4] == LowerLetter('E') && "broker"[5] == LowerLetter('R');
  }

  lemma PortSpelling()
    ensures LowerOf(PORT_OPTION, "port")
  {
    assert "port"[0] == LowerLetter('P') && "port"[1] == LowerLetter('O');
    assert "port"[2] == LowerLetter('R') && "port"[3] == LowerLetter('T');
  }

  lemma TopicSpelling()
    ensures LowerOf(TOPIC_OPTION, "topic")
  {
    assert "topic"[0] == LowerLetter('T') && "topic"[1] == LowerLetter('O') && "topic"[2] == LowerLetter('P');
    assert "topic"[3] == LowerLetter('I') && "topic"[4] == LowerLetter('C');
  }

  lemma RunIdSpelling()
    ensures LowerOf(RUNID_OPTION, "runid")
  {
    assert "runid"[0] == LowerLetter('R') && "runid"[1] == LowerLetter('U') && "runid"[2] == LowerLetter('N');
    assert "runid"[3] == LowerLetter('I') && "runid"[4] == LowerLetter('D');
  }

  /** An option is recognised in any mix of cases, and only under its own
      name. */
  lemma ClassifyFolds(option: string)
    ensures Classify(option) == Broker <==> Upper(option) == BROKER_OPTION
    ensures Classify(option) == Port <==> Upper(option) == PORT_OPTION
    ensures Classify(option) == Topic <==> Upper(option) == TOPIC_OPTION
    ensures Classify(option) == RunId <==> Upper(option) == RUNID_OPTION
    ensures Classify(option) == Other <==>
              Upper(option) != BROKER_OPTION && Upper(option) != PORT_OPTION &&
              Upper(option) != TOPIC_OPTION && Upper(option) != RUNID_OPTION
  {
    BrokerSpelling();
    PortSpelling();
    TopicSpelling();
    RunIdSpelling();
    IgnoreCaseIsFolding(option, BROKER_OPTION, "broker");
    IgnoreCaseIsFolding(option, PORT_OPTION, "port");
    IgnoreCaseIsFolding(option, TOPIC_OPTION, "topic");
    IgnoreCaseIsFolding(option, RUNID_OPTION, "runid");
  }

  const NO_BROKER: string := "Appender requires broker option to be specified"

  function Unreachable(broker: string, port: int): (msg: string) {
    "Couldn't reach broker " + broker + " at port " + Decimal(port)
  }

  class EventAppender {
    /** `_transmitter`; None is the null pointer. */
    var transmitter: Option<EventTransmitter>
    var broker: string
    var port: int
    var topic: string
    var runid: string
    /** `AppenderSkeleton::closed`. */
    var closed: bool
    /** The messages given to `LogLog::error`, in order. */
    var errors: seq<string>
    /** The options handed on to `AppenderSkeleton::setOption`, in order. */
    var inherited: seq<(string, string)>

    /** `EventAppender()`; `LogEvent::LOGGING_TOPIC` is not part of this
        model and is given as `loggingTopic`. */
    constructor (loggingTopic: string)
      ensures transmitter.None? && port == DEFAULT_HOST_PORT && topic == loggingTopic
      ensures broker == "" && runid == "" && !closed && errors == [] && inherited == []
    {
      transmitter := None;
      port := DEFAULT_HOST_PORT;
      topic := loggingTopic;
      broker := "";
      runid := "";
      closed := false;
      errors := [];
      inherited := [];
    }

    /** `setOption(option, value)`: each recognised option sets its own
        field; PORT is read with `atoi`; anything else goes to the base
        class. */
    method SetOption(option: string, value: string)
      modifies this`broker, this`port, this`topic, this`runid, this`inherited
      ensures broker == if Classify(option) == Broker then value else old(broker)
      ensures port == if Classify(option) == Port then Atoi(value) else old(port)
      ensures topic == if Classify(option) == Topic then value else old(topic)
      ensures runid == if Classify(option) == RunId then value else old(runid)
      ensures inherited == if Classify(option) == Other then old(inherited) + [(option, value)] else old(inherited)
    {
      if EqualsIgnoreCase(option, BROKER_OPTION, "broker") {
        broker := value;
      } else if EqualsIgnoreCase(option, PORT_OPTION, "port") {
        port := Atoi(value);
      } else if EqualsIgnoreCase(option, TOPIC_OPTION, "topic") {
        topic := value;
      } else if EqualsIgnoreCase(option, RUNID_OPTION, "runid") {
        runid := value;
      } else {
        inherited := inherited + [(option, value)];
      }
    }

    /** `activateOptions`: without a broker nothing is attempted; otherwise
        a transmitter is constructed, and a failure is reported and leaves
        none. */
    method ActivateOptions(lib: EventLibrary, reach: Transmitters.Broker)
      modifies this`transmitter, this`errors, lib
      ensures broker == "" ==> transmitter == old(transmitter) && errors == old(errors) + [NO_BROKER]
      ensures broker != "" && !reach.Up? ==>
                transmitter.None? && errors == old(errors) + [Unreachable(broker, port)]
      ensures broker != "" && reach.Up? ==>
                && errors == old(errors) && transmitter.Some? && fresh(transmitter.value)
                && transmitter.value.topicName == topic && !transmitter.value.turnEventsOff
                && transmitter.value.brokerUri == BrokerUri(broker, port) && transmitter.value.sent == []
      ensures old(lib.Valid()) ==> lib.Valid()
    {
      if broker == "" {
        errors := errors + [NO_BROKER];
        return;
      }
      var made := EventTransmitter.Create(lib, broker, topic, port, reach);
      if made.Failure? {
        errors := errors + [Unreachable(broker, port)];
        transmitter := None;
      } else {
        transmitter := Some(made.value);
      }
    }

    /** `getTransmitter`: constructs one only while there is none. Its
        handler catches log4cxx's `Exception`, which the constructor's
        `RuntimeErrorException` is not: a failed construction leaves the
        call with that exception and no transmitter. */
    method GetTransmitter(lib: EventLibrary, reach: Transmitters.Broker) returns (r: Result<EventTransmitter>)
      modifies this`transmitter, lib
      ensures r.Success? ==> transmitter == Some(r.value)
      ensures r.Failure? ==> transmitter.None?
      ensures old(transmitter).Some? ==> r == Success(old(transmitter).value) && unchanged(lib)
      ensures old(transmitter).None? && !reach.Up? ==> r == Failure(SetupError(reach))
      ensures old(transmitter).None? && reach.Up? ==>
                && r.Success? && fresh(r.value)
                && r.value.topicName == topic && !r.value.turnEventsOff
                && r.value.brokerUri == BrokerUri(broker, port) && r.value.sent == []
      ensures old(lib.Valid()) ==> lib.Valid()
    {
      if transmitter.None? {
        var made := EventTransmitter.Create(lib, broker, topic, port, reach);
        if made.Failure? {
          return made.PropagateFailure();
        }
        transmitter := Some(made.value);
      }
      r := Success(transmitter.value);
    }

    /** `append`: `e` is the LogEvent built from the logging event, over an
        allocated property set. RUNID is set when the option is non-empty,
        and the event is published on the transmitter `getTransmitter`
        gives. The handler around `publishEvent` catches log4cxx's
        `Exception` too, which no failure of `publishEvent` is: every
        failure leaves the call, nothing is reported and the transmitter is
        kept. */
    method Append(lib: EventLibrary, e: Event, reach: Transmitters.Broker, pubTime: int) returns (r: Result<()>)
      requires e.psp.Some?
      requires transmitter.Some? ==> transmitter.value != e as object
      modifies this`transmitter, lib, e`psp
      modifies if transmitter.Some? then {transmitter.value} else {}
      ensures e.psp == if runid != "" then Some(Set(old(e.psp.value), RUNID, Str(runid))) else old(e.psp)
      ensures old(transmitter).None? && !reach.Up? ==> r == Failure(SetupError(reach)) && transmitter.None?
      ensures old(transmitter).Some? ==>
                var t := old(transmitter).value;
                && transmitter == old(transmitter)
                && (t.Outgoing(e, pubTime).Success? ==>
                      r == Success(()) && t.sent == old(t.sent) + [t.Outgoing(e, pubTime).value])
                && (t.Outgoing(e, pubTime).Failure? ==>
                      r == Failure(t.Outgoing(e, pubTime).error) && t.sent == old(t.sent))
      ensures old(transmitter).None? && reach.Up? ==>
                && transmitter.Some? && fresh(transmitter.value)
                && transmitter.value.topicName == topic
                && transmitter.value.brokerUri == BrokerUri(broker, port)
                && (Marshalled(e).Failure? ==> r == Failure(Marshalled(e).error) && transmitter.value.sent == [])
                && (Marshalled(e).Success? ==>
                      && r == Success(())
                      && transmitter.value.sent ==
                         [TextMessage(Stamped(Marshalled(e).value.header, topic, pubTime), Marshalled(e).value.body)])
      ensures old(lib.Valid()) ==> lib.Valid()
    {
      if runid != "" {
        e.SetProperty(RUNID, Str(runid));
      }
      var t :- GetTransmitter(lib, reach);
      r := t.PublishEvent(e, pubTime);
    }

    /** `close`: the first call closes the appender, later calls do
        nothing. */
    method Close()
      modifies this`closed
      ensures closed
      ensures old(closed) ==> unchanged(this)
    {
      if closed {
        return;
      }
      closed := true;
    }

    /** `isClosed`. */
    function IsClosed(): (b: bool)
      reads this
      ensures b == closed
    {
      closed
    }
  }
}
