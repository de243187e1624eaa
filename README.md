# ctrl_events in Dafny

This project models the sequential logic of the LSST `ctrl_events` package:
the event classes that carry a property set over an ActiveMQ topic, the
registries that map topic names to transmitters and receivers, the
identifier classes and the host address they are built from, the log4cxx
appender, the legacy tuple codec of the old `lsst::events` package with its
receive cache, and two Python helpers (the database logger's row builder and
the test environment). The broker is not modelled. A transmitter records the
messages it sends. A receiver is given the sequence of deliveries its
consumer will return. The constructors are told whether the broker accepts
the connection.

One module stands for each source file, in the form that file takes:

- Objects whose members the source updates are classes with `modifies`
  frames. These are `Event`, the transmitters and receivers, the registries,
  the id classes and their statics, `Host`, the library latch, the appender
  and the logger's property set.
- Loops are methods with invariants. Each is proved equal to a
  specification function, and the properties are proved about that function.
- The rest are datatypes and functions.

Shared modules:

- `Common`: results and errors, 32-bit wrap-around, and decimal text as
  iostreams print and read it.
- `Text`: `std::string::find` and the splitters of `src/Event.cc`.
- `PropertySets`: a daf_base `PropertySet`, as a sequence of named values in
  insertion order.
- `Policies`: a pex `Policy`, as a map.
- `StringSets`: a `std::set<std::string>`, as an ascending sequence.
- `Messages`: a CMS text message: a header map and a body.

## Model

| member | source | states |
|---|---|---|
| Text.Find | src/Event.cc:430-447 | `find` returns the first place the delimiter occurs, or none when it occurs nowhere |
| Text.SplitString | src/Event.cc:430-447 | the loop appends exactly `Split(str, delim)` to the results it was given |
| Text.SplitPieces | src/Event.cc:430-447 | every piece `splitString` returns is non-empty and holds no delimiter |
| Text.SplitJoinTerminated | src/Event.cc:430-447 | pieces that hold no delimiter, each followed by the delimiter, split back into exactly those pieces |
| Text.SplitTuple | src/Event.cc:449-466 | a successful `splitTuple` returns exactly three strings |
| Text.SplitTupleOfFields | src/Event.cc:449-466 | `a + d + b + d + c` splits into `[a, b, c]` |
| Text.SplitTupleWraps | src/Event.cc:449-466 | with no delimiter, `npos + len` wraps round, and "abc" gives "abc", "bc", "c" |
| Text.SplitTupleThrows | src/Event.cc:449-466 | a one-character string with no delimiter runs past its end: out_of_range |
| Common.ToInt32 | src/EventSystem.cc:82-92 | assigning to an `int` wraps modulo 2^32 into the int range and keeps a value that fits |
| Common.ScanDecimal | src/events/Events.cc:241-272 | an integer printed in decimal reads back as itself |
| Common.StreamInteger | src/events/Events.cc:757-812 | reading an int from a stream gives a value within the type's bounds |
| Common.AtoiDecimal | src/EventAppender.cc:80-81 | `atoi` reads back every integer as `operator<<` prints it |
| Common.AtoiLeading | src/EventAppender.cc:80-81 | `atoi` of white space, an optional sign, digits and a non-digit tail is the digits' value with the sign |
| Common.AtoiNoDigits | src/EventAppender.cc:80-81 | `atoi` is 0 when no digit follows the white space and the sign |
| Common.SkipBlanks | src/EventAppender.cc:80-81 | leading white space before any other character is skipped |
| Common.ReadDigitsStops | src/EventAppender.cc:80-81 | the run of digits ends at the first non-digit, giving the value of the digits before it |
| Policies.GetString | src/EventTransmitter.cc:94-134 | a string iff the name holds one; an absent name raises NotFound |
| Policies.GetBool | src/EventTransmitter.cc:100 | a bool iff the name holds one; an absent name raises NotFound |
| Policies.GetInt | src/EventTransmitter.cc:120 | an int iff the name holds one; an absent name raises NotFound |
| Policies.GetStringOr | src/events/Events.cc:50 | `getString(name, default)`: the default when the name is absent, otherwise what `getString` gives |
| Policies.GetIntOr | src/EventTransmitter.cc:118-121 | the default when the name is absent, otherwise what `getInt` gives |
| StringSets.InsertFacts | src/Event.cc:97-105 | inserting into the keyword set keeps it ascending, adds exactly the new name (one more element) and leaves a set that holds it alone |
| StringSets.InsertAllFacts | src/Event.cc:97-105 | inserting several names keeps the set ascending and holds exactly the old members and the new names |
| Messages.GetStringProperty | src/Event.cc:107-121 | a header string iff the header holds one under the name; otherwise a CMS exception |
| Messages.GetIntProperty | src/CommandEvent.cc:93-99 | a header int iff the header holds one under the name; otherwise a CMS exception |
| Messages.GetLongProperty | src/Event.cc:117-118 | a header long iff the header holds one under the name; otherwise a CMS exception |
| BaseEvent.Event.Default | src/Event.cc:93-105 | `Event()` holds the seven keywords in set order and has no property set |
| BaseEvent.Event.constructor | src/Event.cc:148-202 | `Event(runId, ps)` holds the keywords and exactly `Constructed(runId, ps, ...)` |
| BaseEvent.BaseKeywordsAscending | src/Event.cc:97-105 | the seven base keywords inserted one by one make an ascending set |
| BaseEvent.DefaultedFacts | src/Event.cc:175-189 | STATUS, EVENTTIME and HOSTID keep the caller's value when present and get "unknown", the clock and the host name otherwise; no other name changes |
| BaseEvent.BaseWritesFacts | src/Event.cc:156-172 | after the base writes RUNID, TYPE "_E", TOPIC "uninitialized" and PUBTIME 0 hold; every other name keeps its value |
| BaseEvent.Constructed | src/Event.cc:156-202 | RUNID, TYPE "_E", TOPIC "uninitialized" and PUBTIME 0 are set whatever the caller gave; STATUS ("unknown"), EVENTTIME and HOSTID are filled in only when absent; every other name keeps the caller's value |
| BaseEvent.SetIfAbsent | src/Event.cc:175-189 | the name gets the value only when it is absent; all other names are untouched |
| BaseEvent.ConstructedIsTyped | src/Event.cc:156-212 | a constructed event whose STATUS, EVENTTIME and HOSTID have the right types has every base header field |
| BaseEvent.ConstructedCustomNames | src/Event.cc:132-202 | construction keeps the caller's custom names, in their order |
| BaseEvent.SetAllKeepsCustom | src/Event.cc:156-172 | a run of writes to keyword names changes neither the custom names nor their order |
| BaseEvent.TypedAfterSetAll | src/Event.cc:156-212 | writes whose values have each field's type keep a typed set typed |
| BaseEvent.CustomNamesExample | src/Event.cc:132-146 | run id, "myname" and STATUS given: the only custom name is "myname" |
| BaseEvent.Event.AddKeywords | src/StatusEvent.cc:79-83 | a subclass `_init` inserts its names into the ascending keyword set |
| BaseEvent.Event.Extend | src/StatusEvent.cc:85-91 | a subclass's message constructor adds its names to the keywords and succeeds iff its header fields read, with the property set then holding them |
| BaseEvent.Receive | src/Event.cc:107-121 | a header value is read iff it has the requested type, and then carries the value read |
| BaseEvent.Event.GetFilterablePropertyNames | src/Event.cc:123-130 | the result is the keyword set, in ascending order without duplicates |
| BaseEvent.Event.GetCustomPropertyNames | src/Event.cc:132-146 | the erase loop leaves the property names that are not keywords, in their order |
| BaseEvent.WithoutMembers | src/Event.cc:132-146 | a name is in the result iff it is a given name and not a keyword |
| BaseEvent.Event.GetCustomPropertySet | src/Event.cc:238-245 | the copy has every keyword removed and the rest unchanged; the event is not changed |
| BaseEvent.RemoveAll | src/Event.cc:238-245 | a name maps to nothing if it is a keyword, else to its old value |
| BaseEvent.CustomNamesAgree | src/Event.cc:132-146 | the names of the custom set are the custom names, in the same order |
| BaseEvent.SetKeywordKeepsCustom | src/Event.cc:295-301 | setting a keyword changes neither the custom names nor their order |
| BaseEvent.Event.GetPropertySet | src/Event.cc:247-254 | a copy of the set, or the empty set when none was allocated |
| BaseEvent.Event.SetEventTime | src/Event.cc:218-220 | EVENTTIME is set to the argument and nothing else changes |
| BaseEvent.Event.GetEventTime | src/Event.cc:214-216 | EVENTTIME read as a `long long` |
| BaseEvent.Event.UpdateEventTime | src/Event.cc:222-227 | EVENTTIME is set to the clock reading |
| BaseEvent.Event.SetPubTime | src/Event.cc:256-258 | PUBTIME is set to the argument and nothing else changes |
| BaseEvent.Event.GetPubTime | src/Event.cc:260-265 | PUBTIME read as a `long long` |
| BaseEvent.Event.GetPubDate | src/Event.cc:267-277 | "not published" exactly when PUBTIME is 0, otherwise the date of PUBTIME |
| BaseEvent.Event.SetStatus | src/Event.cc:295-297 | STATUS is set, and `getStatus` then returns it |
| BaseEvent.Event.SetTopic | src/Event.cc:299-305 | TOPIC is set, and `getTopic` then returns it |
| BaseEvent.Event.GetHostId | src/Event.cc:279-281 | HOSTID read as a string |
| BaseEvent.Event.GetRunId | src/Event.cc:283-285 | RUNID read as a string |
| BaseEvent.Event.GetType | src/Event.cc:287-289 | TYPE read as a string |
| BaseEvent.Event.GetStatus | src/Event.cc:291-293 | STATUS read as a string |
| BaseEvent.Event.GetTopic | src/Event.cc:303-305 | TOPIC read as a string |
| BaseEvent.Event.TrySetProperty | src/Event.cc:93-95 | a write through a never-allocated `_psp` fails; otherwise the value is set |
| BaseEvent.Fetch | src/Event.cc:204-212 | `get<T>` succeeds iff the name is present with type T, and raises NotFound when absent |
| BaseEvent.WriteHeader | src/Event.cc:204-212 | `populateHeader` succeeds iff every field is present with its type; it copies each field and keeps every other header entry |
| BaseEvent.ReadFields | src/Event.cc:107-121 | the message constructor gives each field its header value and leaves every other body property as it was |
| BaseEvent.HeaderRoundTrip | src/Event.cc:107-212 | fields written into a header are read back with the values they had; body properties stay as received |
| BaseEvent.FromMessage | src/Event.cc:107-121 | `Event(msg)` succeeds iff every base field is in the header, and holds the body with those fields read in |
| StatusEvents.NewDefault | src/StatusEvent.cc:74-83 | `StatusEvent()` adds ORIG_IPID, ORIG_PROCESSID and ORIG_LOCALID to the keywords |
| StatusEvents.New | src/StatusEvent.cc:93-111 | after the base defaults the event holds the originator's three values and TYPE "_S"; every other name is as `Event` made it |
| StatusEvents.WriteOriginator | src/StatusEvent.cc:101-111 | the constructor's three id writes and TYPE "_S" leave exactly `WithOriginator` of the old set |
| StatusEvents.WithOriginatorFacts | src/StatusEvent.cc:101-111 | the four writes hold their values, touch nothing else, and keep the header writable |
| StatusEvents.FromMessage | src/StatusEvent.cc:85-91 | the message constructor reads the base fields, then the three ints |
| StatusEvents.GetOriginator | src/StatusEvent.cc:121-128 | the new LocationID reports exactly the three stored ints |
| CommandEvents.NewDefault | src/CommandEvent.cc:74-87 | `CommandEvent()` adds the six ORIG_ and DEST_ keywords |
| CommandEvents.New | src/CommandEvent.cc:103-124 | the ORIG_ fields hold what the originator reports and the DEST_ fields what the destination reports, at the time of the call |
| CommandEvents.NewFromIds | src/CommandEvent.cc:111-124 | the set is the base construction followed by the six id writes and TYPE; the originator reads back from the ORIG_ fields alone and the destination from the DEST_ fields alone |
| CommandEvents.NewIsTyped | src/CommandEvent.cc:111-124 | with caller properties of the right types, the constructed command event has every header field it publishes |
| CommandEvents.WriteIds | src/CommandEvent.cc:111-124 | the constructor's six id writes and TYPE "_C" leave exactly `WithIds` of the old set |
| CommandEvents.WithIdsRead | src/CommandEvent.cc:111-124 | after the writes each id reads back from its own three fields |
| CommandEvents.WithIdsLookups | src/CommandEvent.cc:111-124 | each of the six fields holds its id's value, TYPE is "_C", and no other name changes |
| CommandEvents.WithIdsFacts | src/CommandEvent.cc:111-124 | both ids read back as written; no other name changes; the header stays writable |
| CommandEvents.OriginatorLost | src/CommandEvent.cc:111-124 | two distinct LocationIDs given to the constructor leave the destination's values in all six fields |
| CommandEvents.FromMessage | src/CommandEvent.cc:89-101 | the message constructor reads the base fields, then the six ints |
| CommandEvents.GetOriginator | src/CommandEvent.cc:138-143 | the new LocationID reports the ORIG_ values |
| CommandEvents.GetDestination | src/CommandEvent.cc:145-152 | the new LocationID reports the DEST_ values |
| CommandEvents.OriginatorThenDestination | src/CommandEvent.cc:138-152 | after asking for both ids, the originator reports the destination's values |
| LogEvents.NewDefault | src/LogEvent.cc:67-69 | `LogEvent()` adds LEVEL and LOG to the keywords |
| LogEvents.FromLoggingEventAsWritten | src/LogEvent.cc:71-99 | the first write goes through the null `_psp` left by `Event()` |
| LogEvents.FromLoggingEvent | src/LogEvent.cc:71-99 | the event has the LogEvent keywords and holds exactly the log4cxx constructor's writes over an empty set |
| LogEvents.WriteLoggingEvent | src/LogEvent.cc:74-96 | the seven writes, the location set filled before it is stored, leave the constructor's property set |
| LogEvents.LoggingHeaderFacts | src/LogEvent.cc:74-76 | TYPE is "_L", LOG the logger name and LEVEL the level |
| LogEvents.LoggingNoEventTime | src/LogEvent.cc:71-99 | no EVENTTIME is written, so the set does not carry the base header fields |
| LogEvents.LoggingBodyFacts | src/LogEvent.cc:82-96 | message, timestamp, threadname and the nested location hold the logging event's values |
| LogEvents.LocationFacts | src/LogEvent.cc:83-95 | the location set holds filename, classname, methodname and linenumber, in that order |
| LogEvents.FromMessage | src/LogEvent.cc:109-119 | the message constructor reads the base fields, then LEVEL (int) and LOG (string) |
| LogEvents.GetLevel | src/LogEvent.cc:133-138 | LEVEL iff it is stored as an int |
| LogEvents.GetLogger | src/LogEvent.cc:140-144 | LOG iff it is stored as a string |
| PipelineLogEvents.NewDefault | src/PipelineLogEvent.cc:46-57 | adds DATAID, LOOPNUM, PIPELINE, SLICEID and STAGEID to the LogEvent keywords |
| PipelineLogEvents.StringField | src/PipelineLogEvent.cc:79-93 | "unknown" when absent, else the record's string, and a type error otherwise |
| PipelineLogEvents.IntField | src/PipelineLogEvent.cc:84-103 | -1 when absent, else the record's int (a bool reads as 0 or 1), and a type error otherwise |
| PipelineLogEvents.RecordCoordinates | src/PipelineLogEvent.cc:71-105 | all five values of the record, with their defaults |
| PipelineLogEvents.FromRecord | src/PipelineLogEvent.cc:71-105 | the event then holds the record's coordinates and the pipeline-log TYPE; every other name is unchanged |
| PipelineLogEvents.WriteCoordinates | src/PipelineLogEvent.cc:71-105 | TYPE and the five coordinate writes leave exactly `WithCoordinates` of the old set |
| PipelineLogEvents.WithCoordinatesFacts | src/PipelineLogEvent.cc:71-105 | the five writes read back as written and touch nothing else |
| PipelineLogEvents.FromMessage | src/PipelineLogEvent.cc:59-69 | the message constructor reads the LogEvent fields, then the five coordinates |
| PipelineLogEvents.GetDataId | src/PipelineLogEvent.cc:117-119 | DATAID iff it is stored as a string; otherwise the property set's exception |
| PipelineLogEvents.GetLoopnum | src/PipelineLogEvent.cc:121-123 | LOOPNUM iff it is stored as an int; otherwise the property set's exception |
| PipelineLogEvents.GetPipeline | src/PipelineLogEvent.cc:125-127 | PIPELINE iff it is stored as a string; otherwise the property set's exception |
| PipelineLogEvents.GetSliceId | src/PipelineLogEvent.cc:129-131 | SLICEID iff it is stored as an int; otherwise the property set's exception |
| PipelineLogEvents.GetStageId | src/PipelineLogEvent.cc:133-135 | STAGEID iff it is stored as an int; otherwise the property set's exception |
| PipelineLogEvents.GettersRead | src/PipelineLogEvent.cc:117-135 | all five getters succeed exactly when the fields are stored with their types, and then give the coordinates read back |
| EventFactory.KindOfType | src/EventFactory.cc:75-88 | LOG gives a LogEvent, STATUS a StatusEvent, COMMAND a CommandEvent, and any other TYPE a plain Event |
| EventFactory.PopulateHeader | src/Event.cc:204-212 | each class's `populateHeader` succeeds iff its fields have their types, and writes each of them |
| EventFactory.CreateEvent | src/EventFactory.cc:75-88 | no TYPE string: failure; otherwise an event of the class TYPE names, read by that class's message constructor |
| EventFactory.HeaderRoundTrip | src/StatusEvent.cc:85-119 | for every class, the fields `populateHeader` writes are read back by the message constructor with their values |
| EventFactory.DispatchRoundTrip | src/EventFactory.cc:75-88 | the TYPE a class writes selects that class again |
| LocationIds.LocationId.Default | src/LocationId.cc:41-46 | the host name and pid are stored; the local id is the counter, which then goes up by one |
| LocationIds.LocationId.constructor | src/LocationId.cc:48-52 | stores its arguments and leaves the counter alone |
| LocationIds.LocationId.Copy | src/LocationId.cc:54-58 | copies the three fields and leaves the counter alone |
| LocationIds.LocationId.GetHostName | src/LocationId.cc:62-64 | the host name this id holds |
| LocationIds.LocationId.GetProcessID | src/LocationId.cc:66-68 | the pid this id holds |
| LocationIds.LocationId.GetLocalID | src/LocationId.cc:70-72 | the local id this id holds |
| LocationIds.Counter.constructor | src/LocationId.cc:60 | the shared counter starts at 0 |
| LocationIds.SuccessiveIds | src/LocationId.cc:41-60 | two default ids get consecutive numbers starting at the counter, and both keep the host name |
| IdStatics.StoredIP | src/LocationID.cc:13-21 | `ip & 0xFFFFFFFF` in an `int` is the address modulo 2^32, negative above INT_MAX |
| LocationIDs.LocationID.Default | src/LocationID.cc:13-21 | writes the shared address, pid and local id; the local id is the old counter, which goes up by one |
| LocationIDs.LocationID.constructor | src/LocationID.cc:23-37 | overwrites the shared values and leaves the counter alone |
| LocationIDs.LocationID.Copy | src/LocationID.cc:27-29 | writes the shared values back onto themselves, so nothing changes |
| LocationIDs.LocationID.GetIPAddress | src/LocationID.cc:47-49 | the address last written to the shared values, whichever id wrote it |
| LocationIDs.LocationID.GetProcessID | src/LocationID.cc:51-53 | the shared pid |
| LocationIDs.LocationID.GetLocalID | src/LocationID.cc:55-57 | the shared local id |
| LocationIDs.TwoDefaultIds | src/LocationID.cc:13-21 | after two default ids, both report the second one's local id |
| LocationIDs.ReconstituteOverwrites | src/LocationID.cc:23-37 | a reconstituted id changes what an earlier id reports |
| OriginatorIDs.OriginatorID.Default | src/OriginatorID.cc:13-21 | as for LocationID, with the originator's own counter |
| OriginatorIDs.OriginatorID.constructor | src/OriginatorID.cc:23-29 | sets the shared values; the counter is untouched |
| OriginatorIDs.OriginatorID.GetIPAddress | src/OriginatorID.cc:39-41 | the shared address |
| OriginatorIDs.OriginatorID.GetProcessID | src/OriginatorID.cc:43-45 | the shared pid |
| OriginatorIDs.OriginatorID.GetLocalID | src/OriginatorID.cc:47-49 | the shared local id |
| OriginatorIDs.LastCallWins | src/OriginatorID.cc:13-49 | the last constructor call decides what every instance reports |
| DestinationIDs.DestinationID.Default | src/DestinationID.cc:14-22 | as for LocationID, with the destination's own counter |
| DestinationIDs.DestinationID.FromOriginator | src/DestinationID.cc:24-38 | copies the originator's three values; no counter moves |
| DestinationIDs.DestinationID.constructor | src/DestinationID.cc:28-38 | stores its arguments; the counter is untouched |
| DestinationIDs.DestinationID.GetIPAddress | src/DestinationID.cc:48-50 | the shared address |
| DestinationIDs.DestinationID.GetProcessID | src/DestinationID.cc:52-54 | the shared pid |
| DestinationIDs.DestinationID.GetLocalID | src/DestinationID.cc:56-58 | the shared local id |
| DestinationIDs.IndependentCounters | src/DestinationID.cc:14-22 | an originator and a destination are numbered by separate counters |
| Hosts.Pack | src/Host.cc:84-89 | `(a<<24)\|(b<<16)\|(c<<8)\|d` of the masked bytes is a 32-bit unsigned value |
| Hosts.Byte | src/Host.cc:84-89 | masking with 0xFF leaves a value below 256 congruent to the input |
| Hosts.PackUnpack | src/Host.cc:84-89 | unpacking the address big-endian gives the four masked bytes back |
| Hosts.UnpackPack | src/Host.cc:84-89 | packing the four bytes of an address gives the address back |
| Hosts.Host.constructor | src/Host.cc:57-60 | nothing looked up yet: no name and address 0 |
| Hosts.Host.GetHost | src/Host.cc:69-102 | the first call records the name and the packed address; later calls change nothing |
| Hosts.Host.GetIPAddress | src/Host.cc:104-106 | the address recorded by the lookup, 0 before it |
| Hosts.Host.GetHostName | src/Host.cc:108-110 | the name recorded by the lookup, empty before it |
| EventLibraries.EventLibrary.constructor | src/EventLibrary.cc:75 | the flag starts at 0 |
| EventLibraries.EventLibrary.InitializeLibrary | src/EventLibrary.cc:69-73 | the first call initialises ActiveMQ and sets the flag to 1; later calls do nothing |
| EventLibraries.InitializeRepeatedly | src/EventLibrary.cc:69-73 | any number of calls initialise the library exactly once |
| Policies.GetBoolOr | src/EventTransmitter.cc:94-134 | the default when the name is absent, the value when it is a bool, a type error otherwise |
| Transmitters.TransmitterSettings | src/EventTransmitter.cc:94-134 | "turnEventsoff" true skips all checks; a missing topicName or hostName raises NotFound; hostPort defaults to 61616 |
| Common.TcpUriParts | src/EventTransmitter.cc:145-200 | a broker URI is "tcp://", the host, ":", the port in decimal and the options, and the port reads back from it |
| Transmitters.BrokerUriParts | src/EventTransmitter.cc:145-200 | the URI is "tcp://", the host, ":", the port in decimal and the openwire/async query; the port reads back |
| Transmitters.EventTransmitter.Create | src/EventTransmitter.cc:136-200 | with the broker up: a transmitter on the topic and URI; otherwise the setup exception; the library is initialised once |
| Transmitters.EventTransmitter.FromPolicy | src/EventTransmitter.cc:94-134 | a rejected policy raises its error; events off gives an empty topic and no connection; otherwise as `Create` |
| Transmitters.Marshalled | src/EventTransmitter.cc:202-218 | fails on a null property set or an unwritable header; otherwise the header of the class's `populateHeader` and the custom set as body |
| Transmitters.Stamped | src/EventTransmitter.cc:202-218 | TOPIC and PUBTIME are overwritten and every other header entry kept |
| Transmitters.EventTransmitter.Outgoing | src/EventTransmitter.cc:202-218 | the message carries the marshalled body, this topic and the publication time |
| Transmitters.EventTransmitter.PublishEvent | src/EventTransmitter.cc:202-218 | on success exactly that message is sent and the event is untouched; on failure nothing is sent |
| Transmitters.EventTransmitter.GetTopicName | src/EventTransmitter.cc:220-224 | the topic given at construction |
| Receivers.ReceiverSettings | Winter2012a/src/EventReceiver.cc:73-121 | "turnEventsOff" true skips all checks; a missing topicName or hostName raises NotFound; port 61616 and selector "" by default |
| Receivers.ReceiverUriParts | Winter2012a/src/EventReceiver.cc:144-197 | the URI is "tcp://", the host, ":", the port and "?wireFormat=openwire" |
| Receivers.ConsumerFor | Winter2012a/src/EventReceiver.cc:185-188 | the empty selector gives a plain consumer, any other selector is passed on |
| Receivers.EventReceiver.Create | Winter2012a/src/EventReceiver.cc:123-197 | with the broker up: a receiver on the topic, URI and selector; otherwise the setup exception |
| Receivers.EventReceiver.FromPolicy | Winter2012a/src/EventReceiver.cc:73-121 | a rejected policy raises its error; events off gives no consumer; otherwise as `Create` |
| Receivers.EventReceiver.ReceiveEvent | Winter2012a/src/EventReceiver.cc:208-233 | no consumer or no message gives NULL; a non-text message raises; a text message becomes an event of the class its TYPE names |
| Receivers.EventReceiver.ReceiveEventBlocking | Winter2012a/src/EventReceiver.cc:199-206 | the same as a read with the infinite timeout |
| Receivers.EventReceiver.GetTopicName | Winter2012a/src/EventReceiver.cc:235-239 | the topic given at construction |
| EventSystems.FirstTransmitter | src/EventSystem.cc:182-195 | the first transmitter under the name, or none iff no transmitter has that name |
| EventSystems.FirstReceiver | src/EventSystem.cc:224-232 | the first receiver under the name, or none iff no receiver has that name |
| EventSystems.EventSystem.constructor | src/EventSystem.cc:69-73 | empty lists; the library is initialised |
| EventSystems.EventSystem.GetTransmitter | src/EventSystem.cc:182-195 | the search loop returns the first entry under the name, or empty |
| EventSystems.EventSystem.GetReceiver | src/EventSystem.cc:224-232 | the search loop returns the first entry under the name, or empty |
| EventSystems.EventSystem.CreateTransmitter | src/EventSystem.cc:116-127 | a registered topic raises "already registered" and changes nothing; otherwise the new transmitter is appended; topics stay distinct |
| EventSystems.EventSystem.CreateTransmitterFromPolicy | src/EventSystem.cc:101-114 | the transmitter is built first; a duplicate topic is then refused and the list is unchanged |
| EventSystems.EventSystem.CreateReceiver | src/EventSystem.cc:144-158 | a registered topic raises and changes nothing; otherwise the receiver is appended |
| EventSystems.EventSystem.CreateSelectingReceiver | src/EventSystem.cc:160-170 | always appended; a lookup still finds the earliest receiver under the topic |
| EventSystems.FirstReceiverAppend | src/EventSystem.cc:160-170 | appending keeps the first receiver under a topic, or makes the new one the first |
| EventSystems.EventSystem.CreateReceiverFromPolicy | src/EventSystem.cc:129-142 | built first, then refused on a duplicate topic with the list unchanged |
| EventSystems.EventSystem.PublishEvent | src/EventSystem.cc:172-180 | an unregistered topic raises and nothing is sent; otherwise that transmitter alone sends |
| EventSystems.EventSystem.ReceiveEvent | src/EventSystem.cc:209-216 | an unregistered topic raises; otherwise that receiver's next delivery decides the result |
| EventSystems.EventSystem.ReceiveEventBlocking | src/EventSystem.cc:197-199 | the same with the infinite timeout |
| EventSystems.DefaultEventSystem.Get | src/EventSystem.cc:82-92 | the first call looks up the host, keeps its address as `int`, and allocates; later calls return the same object |
| EventAppenders.EqualsIgnoreCase | src/EventAppender.cc:77-89 | true iff the lengths agree and each character equals the upper or the lower spelling |
| EventAppenders.ClassifyFolds | src/EventAppender.cc:77-89 | each option is recognised in any mix of cases, and only under its own name |
| EventAppenders.EventAppender.constructor | src/EventAppender.cc:63-67 | no transmitter, port 61616, the logging topic, and nothing else set |
| EventAppenders.EventAppender.SetOption | src/EventAppender.cc:77-89 | BROKER, PORT (by `atoi`), TOPIC and RUNID each set their own field; any other option goes to the base class |
| EventAppenders.EventAppender.ActivateOptions | src/EventAppender.cc:91-105 | an empty broker logs its message; a failed construction logs "Couldn't reach broker b at port p" and leaves no transmitter |
| EventAppenders.EventAppender.GetTransmitter | src/EventAppender.cc:108-116 | the transmitter it has, untouched; else a new one for the broker, topic and port; a failed construction leaves the call with the constructor's exception (the handler catches log4cxx's `Exception` only) and no transmitter |
| EventAppenders.EventAppender.Append | src/EventAppender.cc:119-158 | RUNID is set only for a non-empty runid; the event goes to the transmitter `getTransmitter` gives; a failed construction or publication leaves the call with its exception, reports nothing and keeps the transmitter |
| EventAppenders.EventAppender.Close | src/EventAppender.cc:160-164 | closing twice is closing once |
| EventAppenders.EventAppender.IsClosed | src/EventAppender.cc:160-164 | whether `close` has run |
| LegacyCodec.Marshall | src/events/Events.cc:209-239 | the loop writes the node header with its direct-child count, then each child's text in order |
| LegacyCodec.MarshallLines | src/events/Events.cc:209-272 | the marshalled text is the tree's tuples, depth first, each followed by "~~" |
| LegacyCodec.Encode | src/events/Events.cc:241-272 | a node writes nothing of its own; a leaf writes its one tuple followed by "~~" |
| LegacyCodec.ParseValueShape | src/events/Events.cc:757-812 | only the floating-point tags fail; a value read under a handled tag has that tag, an unknown tag gives an empty value; ints and long longs stay in range; a string is the text itself |
| LegacyCodec.ParseOneShape | src/events/Events.cc:757-812 | a missing or short tuple is out of range; the key is the second field; "node" alone makes a node; any other tag is a leaf parsed from the third field, with the cursor one further |
| LegacyCodec.UnmarshallText | src/events/Events.cc:728-755 | `unmarshall(nTuples, text)` with a splitter that stops at the last delimiter equals `Unmarshall` |
| LegacyCodec.UnmarshallChildren | src/events/Events.cc:757-812 | the by-reference cursor loop equals `ParseList` on the split tuples |
| LegacyCodec.UnmarshallOne | src/events/Events.cc:757-812 | one pass of the loop body equals `ParseOne` |
| LegacyCodec.ParseList | src/events/Events.cc:757-812 | a successful parse returns exactly the requested number of children and moves the cursor forward |
| LegacyCodec.Unmarshall | src/events/Events.cc:728-755 | a result is a node with `nTuples` children; text without tuples fails |
| LegacyCodec.ParseValueBack | src/events/Events.cc:757-812 | each int, long long, bool or string value printed by `encode` reads back as itself |
| LegacyCodec.RoundTrip | src/events/Events.cc:209-812 | a well-formed node marshalled, then unmarshalled with its tuple count, is the same tree |
| LegacyCodec.ListRoundTrip | src/events/Events.cc:728-812 | a header tuple followed by well-formed children reads back as a node with those children |
| LegacyCodec.FieldTable | src/events/Events.cc:728-755 | each tuple is split on "\|\|" |
| LegacyCodec.EmptyStringFails | src/events/Events.cc:757-812 | a tuple "string\|\|name\|\|" has no third field, so parsing it raises out_of_range |
| LegacyCodec.EmptyStringMessage | src/events/Events.cc:766-770 | a string leaf with an empty value splits into two fields, so reading its third field fails |
| LegacyCodec.LeafRootFails | src/events/Events.cc:728-755 | a lone leaf cannot be read back: its tuple becomes the root |
| LegacyCodec.SplitStringAsWritten | src/events/Events.cc:814-827 | with `unsigned int cutAt`, every call ends in out_of_range |
| LegacyCodec.UnmarshallAsWritten | src/events/Events.cc:728-755 | so every `unmarshall` as written fails |
| LegacyCodec.Equal | src/events/Events.cc:591-628 | true iff the values have the same handled type and are equal |
| LegacyCodec.FindUnique | src/events/Events.cc:633 | the call `findUnique(name, 1)` under the assumed daf_data search (see "Left out"): a found property has the name asked for; a leaf holds none |
| LegacyCodec.FindIn | src/events/Events.cc:633 | under the same assumed search: a child with the name is found whenever one exists, and what is found has the name |
| LegacyEvents.TransmitterConfig | src/events/Events.cc:38-51 | a missing topicName raises NotFound; without local sockets a missing hostName raises NotFound; "turnEventsoff" and "useLocalSockets" are read as given |
| LegacyEvents.ReceiverConfig | src/events/Events.cc:329-351 | a missing topicName raises NotFound; without local sockets a missing hostName raises HostNotSpecified; the host defaults to "non" |
| LegacyEvents.Transmitter.constructor | src/events/Events.cc:53-58 | events on, no local sockets, connected iff the broker is up |
| LegacyEvents.Transmitter.Configured | src/events/Events.cc:60-73 | `init` returns early when events are off or sockets are local |
| LegacyEvents.Transmitter.Send | src/events/Events.cc:173-207 | one message with its type, text and tuple count is sent, or nothing on failure |
| LegacyEvents.CLength | src/events/Events.cc:173-207 | `strlen` counts the characters before the first NUL |
| LegacyEvents.Transmitter.Publish | src/events/Events.cc:124-145 | nothing while events are off; otherwise the marshalled tree with its tuple count |
| LegacyEvents.MarshallRecord | src/events/Events.cc:159-163 | the stream is every tree's marshalled text in order; the text and tuple count kept are the last tree's |
| LegacyEvents.Transmitter.PublishRecord | src/events/Events.cc:147-171 | one data tree is sent alone; several are sent under a "nodelist" header |
| LegacyEvents.Transmitter.GetTopicName | src/events/Events.cc:274-276 | the topic given at construction |
| LegacyEvents.RecordRoundTrip | src/events/Events.cc:147-171 | a published record unmarshalls to its single tree, or to the "nodelist" of its trees |
| LegacyEvents.SingleRecord | src/events/Events.cc:147-171 | a record of one data tree reads back as that tree |
| LegacyEvents.NodeListRecord | src/events/Events.cc:147-171 | any other record reads back as the "nodelist" node of its trees |
| LegacyEvents.Decoded | src/events/Events.cc:661-669 | an arriving text message is unmarshalled with its tuple count, by `Unmarshall` with the corrected splitter (see "Findings"): as written, `splitString` makes every decode end in out_of_range |
| LegacyEvents.DecodeAll | src/events/Events.cc:661-669 | every arrival is decoded on its own, in order |
| LegacyEvents.Receiver.constructor | src/events/Events.cc:353-357 | events on, empty cache, connected iff the broker is up |
| LegacyEvents.Receiver.AsWritten | src/events/Events.cc:353-357 | `_turnEventsOff` is never set, so whether `init` connects depends on an indeterminate value |
| LegacyEvents.Receiver.Configured | src/events/Events.cc:359-413 | `init` returns early when events are off or sockets are local |
| LegacyEvents.Receiver.GetTopicName | src/events/Events.cc:829-831 | the topic given at construction |
| LegacyEvents.Receiver.ReadTimed | src/events/Events.cc:495-538 | nothing while events are off; a null consumer dereferenced without a connection; otherwise the next arrival |
| LegacyEvents.Receiver.ReadBlocking | src/events/Events.cc:426-434 | over the broker it reads without looking at the flag, and dereferences null without a connection; over a socket it is the timed read with the infinite timeout |
| LegacyEvents.Receiver.Take | src/events/Events.cc:495-538 | consumes one arrival: a tree, no event, or the decoding error; with none left it waits or gives no event |
| LegacyEvents.Receiver.Receive | src/events/Events.cc:415-424 | the front of the cache is returned and removed before anything is read |
| LegacyEvents.Receiver.ReceiveTimed | src/events/Events.cc:436-445 | the same, with a read that gives up after the timeout |
| LegacyEvents.Receiver.CheckMessageCache | src/events/Events.cc:630-640 | the loop returns exactly `FirstMatch` of the cache: the first match, none, or the null dereference on the first examined message lacking the property |
| LegacyEvents.FirstMatch | src/events/Events.cc:630-640 | the first match, every message before it carrying the property and not matching; none when every message carries it and none matches; a null dereference at a message lacking the property with only non-matches before it |
| LegacyEvents.Receiver.MatchingReceive | src/events/Events.cc:556-573 | a cache scan that dereferences null changes nothing; a cached match is returned and removed; with no match and no live transport the first read dereferences null; otherwise arrivals are read as `Drain` says, each non-match queued at the back of the cache |
| LegacyEvents.Receiver.ReadUntilMatch | src/events/Events.cc:556-573 | the loop equals `Drain`: the match is returned and not cached, earlier arrivals are cached in order, and a null read or a tree without the property ends it with a null dereference |
| LegacyEvents.DrainFacts | src/events/Events.cc:556-573 | what the loop caches are the decoded arrivals before the one that ends it, each carrying the property and not matching, in arrival order; the arrival after them is the match, the decoding error returned, or a null read or tree without the property that ends in a null dereference |
| LegacyEvents.DrainShape | src/events/Events.cc:556-573 | the loop consumes the cached arrivals and the one that ends it, leaving the rest; it waits exactly when every arrival was cached, and never returns "no event" |
| LegacyEvents.DrainStep | src/events/Events.cc:556-573 | one blocking read: an error, a wait or a match ends the loop with that result, a null read or a tree without the property ends it with a null dereference, a non-match is cached and the loop goes on with fewer arrivals |
| LegacyEvents.LoopTurn | src/events/Events.cc:556-573 | one turn of the loop keeps its invariant: a read that ends it returns `Drain`'s outcome with `Drain`'s cache and rest, and a cached non-match leaves the invariant on fewer arrivals |
| LegacyEventSystem.FirstTransmitter | src/events/EventSystem.cc:76-83 | the first transmitter under the name, or none iff there is none |
| LegacyEventSystem.FirstReceiver | src/events/EventSystem.cc:148-155 | the first receiver under the name, or none iff there is none |
| LegacyEventSystem.EventSystem.CreateTransmitter | src/events/EventSystem.cc:39-42 | always appended, even under a registered topic |
| LegacyEventSystem.EventSystem.CreateTransmitterFromPolicy | src/events/EventSystem.cc:44-47 | a rejected policy raises and appends nothing; otherwise appended |
| LegacyEventSystem.EventSystem.CreateReceiver | src/events/EventSystem.cc:49-52 | always appended |
| LegacyEventSystem.EventSystem.CreateReceiverFromPolicy | src/events/EventSystem.cc:54-57 | a rejected policy raises and appends nothing; otherwise appended |
| LegacyEventSystem.EventSystem.GetTransmitter | src/events/EventSystem.cc:76-83 | the search loop returns the first match, or empty |
| LegacyEventSystem.EventSystem.GetReceiver | src/events/EventSystem.cc:148-155 | the search loop returns the first match, or empty |
| LegacyEventSystem.EventSystem.Publish | src/events/EventSystem.cc:59-65 | an unregistered topic raises and nothing is sent; otherwise the first transmitter on the topic publishes with an empty type; no other transmitter sends, and no transmitter's settings (events off, local sockets, connection) change |
| LegacyEventSystem.EventSystem.PublishRecord | src/events/EventSystem.cc:67-74 | the same, with the logging topic as the message type; no other transmitter sends and no settings change |
| LegacyEventSystem.EventSystem.Receive | src/events/EventSystem.cc:87-97 | an unregistered topic raises; otherwise the first receiver on the topic does `receive` with the infinite timeout; no other receiver's cache or arrivals change, and no receiver's settings (events off, local sockets, connection) change |
| LegacyEventSystem.EventSystem.ReceiveTimed | src/events/EventSystem.cc:91-97 | an unregistered topic raises; otherwise that receiver's timed `receive`; no other receiver's cache or arrivals change and no settings change |
| LegacyEventSystem.EventSystem.MatchingReceive | src/events/EventSystem.cc:115-121 | an unregistered topic raises; otherwise that receiver's `matchingReceive`; no other receiver's cache or arrivals change and no settings change |
| LegacyEventSystem.DefaultEventSystem.Get | src/events/EventSystem.cc:33-37 | the instance is created on the first call and returned ever after |
| DatabaseLoggers.GetValues | python/lsst/ctrl/events/logging/DatabaseLogger.py:25-39 | the values under the name, or NotFound when the name is absent |
| DatabaseLoggers.FindOr | python/lsst/ctrl/events/logging/DatabaseLogger.py:35-39 | the first value under the name, or the default when absent |
| DatabaseLoggers.LogProperties.Exists | python/lsst/ctrl/events/logging/DatabaseLogger.py:36-37 | true iff the name is present |
| DatabaseLoggers.LogProperties.Get | python/lsst/ctrl/events/logging/DatabaseLogger.py:25-34 | the values under the name, or NotFound |
| DatabaseLoggers.LogProperties.ValueCount | python/lsst/ctrl/events/logging/DatabaseLogger.py:44-45 | the number of values under the name, 0 when absent |
| DatabaseLoggers.Nanoseconds | python/lsst/ctrl/events/logging/DatabaseLogger.py:39 | the nanoseconds of a single timestamp; anything else is a type error |
| DatabaseLoggers.JoinComment | python/lsst/ctrl/events/logging/DatabaseLogger.py:41-51 | the loop computes `CommentFold` of the values, and stops at the first `+` that raises |
| DatabaseLoggers.CommentText | python/lsst/ctrl/events/logging/DatabaseLogger.py:41-51 | the comment is a string exactly when every value is one, and then the values joined; it is the non-string value itself exactly when that value comes last after only empty strings; every other list raises a TypeError |
| DatabaseLoggers.CommentIsJoin | python/lsst/ctrl/events/logging/DatabaseLogger.py:41-51 | when the first value is not empty, the comment is the values joined with ";" |
| DatabaseLoggers.CommentDropsLeadingEmpty | python/lsst/ctrl/events/logging/DatabaseLogger.py:41-51 | empty values before the first non-empty one leave no separator |
| DatabaseLoggers.CommentSingle | python/lsst/ctrl/events/logging/DatabaseLogger.py:44-51 | for every list of values the single-value branch gives what the loop would |
| DatabaseLoggers.LogProperties.Remove | python/lsst/ctrl/events/logging/DatabaseLogger.py:54-55 | the name is removed from the caller's set in place; nothing else changes |
| DatabaseLoggers.Columns | python/lsst/ctrl/events/logging/DatabaseLogger.py:57-96 | STATUS or "NULL"; pipeline, stageid and loopnum take the lower-case name, else the upper-case one, else "NULL", "-1" and "-1"; custom is cut to 4096 characters |
| DatabaseLoggers.ReadColumns | python/lsst/ctrl/events/logging/DatabaseLogger.py:57-95 | the branches and the custom loop compute `Columns` |
| DatabaseLoggers.Without | python/lsst/ctrl/events/logging/DatabaseLogger.py:54-55 | exactly the entries under other names remain; a name that is absent leaves the set as it was |
| DatabaseLoggers.WithoutKeepsDistinct | python/lsst/ctrl/events/logging/DatabaseLogger.py:54-55 | removing a name keeps the remaining names distinct |
| DatabaseLoggers.CommentFoldOutcome | python/lsst/ctrl/events/logging/DatabaseLogger.py:41-51 | for every list, what the loop ends with: joined strings when all are strings, the last value when it alone is not a string and every value before it is empty, otherwise a TypeError |
| DatabaseLoggers.CommentFoldFails | python/lsst/ctrl/events/logging/DatabaseLogger.py:47-51 | once a turn raises, the loop over the whole list raises the same error |
| DatabaseLoggers.JoinedCommentEmpty | python/lsst/ctrl/events/logging/DatabaseLogger.py:47-51 | the joined comment is empty exactly when every value is empty |
| DatabaseLoggers.BuildCustom | python/lsst/ctrl/events/logging/DatabaseLogger.py:82-94 | the loop computes `CustomText`: "name : value;" for each non-keyword, or "NULL" |
| DatabaseLoggers.CustomEmpty | python/lsst/ctrl/events/logging/DatabaseLogger.py:82-94 | custom is empty iff every name is a keyword |
| DatabaseLoggers.Truncate | python/lsst/ctrl/events/logging/DatabaseLogger.py:95-96 | the prefix of at most the limit's length |
| DatabaseLoggers.RequiredFields | python/lsst/ctrl/events/logging/DatabaseLogger.py:25-51 | a missing HOSTID raises NotFound; on success the comment is `CommentText` of COMMENT, the node is NODE or -1, and the timestamp is the nanoseconds of TIMESTAMP |
| DatabaseLoggers.ReadFields | python/lsst/ctrl/events/logging/DatabaseLogger.py:25-51 | the reads and the comment loop equal `RequiredFields` |
| DatabaseLoggers.RecordRow | python/lsst/ctrl/events/logging/DatabaseLogger.py:23-101 | fails exactly when reading a required field or the comment loop fails, with that error, or when the comment is not a string and its slice raises a TypeError; the comment is cut to 2048 characters, and custom is at most 4096 |
| DatabaseLoggers.InsertRecord | python/lsst/ctrl/events/logging/DatabaseLogger.py:23-101 | returns `RecordRow` of the set; TOPIC is removed whenever the reads and the comment loop got through, also when the slice of a non-string comment then raises; the set is unchanged when they fail |
| DatabaseLoggers.TopicWouldShow | python/lsst/ctrl/events/logging/DatabaseLogger.py:54-94 | a TOPIC entry would add its own piece to custom, since TOPIC is no keyword: removing it first is what keeps it out |
| TestEnvironments.Initial | tests/testEnvironment.py:34-49 | broker "lsst8.ncsa.illinois.edu", port 61616, test domain "ncsa.illinois.edu", no test hosts |
| TestEnvironments.ValidTestDomain | tests/testEnvironment.py:68-83 | false for no host; true for a listed host; otherwise true iff there is a '.' and the text after the first one is a test domain |
| TestEnvironments.LoggingTopicParts | tests/testEnvironment.py:57-63 | the topic starts with the logging topic and "_", and ends with "_" and the pid in decimal, which reads back |
| TestEnvironments.LoggingTopic | tests/testEnvironment.py:57-63 | the logging topic, "_", the host, "_" and the pid: its length is the parts' plus two, and it starts with the topic and "_" |
| TestEnvironments.InitialDomain | tests/testEnvironment.py:68-83 | a host under ncsa.illinois.edu is valid; a host without a '.' is not |

## Left out

- Broker I/O is not modelled: connections, sessions, producers, consumers
  and Unix sockets. Whether the broker accepts a connection, and what a
  consumer delivers, are inputs.
- The legacy socket transport (src/events/Events.cc:74-122, 371-391,
  642-658) is not modelled. The bytes a socket delivers are given as the
  arrivals.
- Broker-side semantics are not modelled: queues, selector evaluation,
  wildcards and multi-topic fan-out.
- The JSON body codec (src/Event.cc:307-425) is not modelled. A message
  body carries the custom property set itself.
- Clocks are parameters: `DateTime::now` and `gettimeofday`. So are
  `getpid`, `gethostname` and `gethostbyname`.
- `asctime` formatting in `getEventDate` and `getPubDate` is not modelled.
  `GetPubDate` returns the publication time rather than its text.
- The timed `matchingReceive` (src/events/Events.cc:447-493, 575-590, and
  the timed registry overloads at src/events/EventSystem.cc:123-146) is
  not modelled. Its behaviour rests on elapsed wall-clock time.
- Float and double values are not modelled. Legacy `ParseValue` returns a
  failure for a "float" or "double" tuple, and `Equal` never sees one.
- The typed `matchingReceive` overloads (src/events/Events.cc:540-555,
  src/events/EventSystem.cc:99-114) are not modelled separately. Each one
  wraps its value into the one generic call the model has.
- LegacyCodec.FindIn: daf_data's `DataProperty::findUnique` is not part
  of this model, and its behaviour is assumed. The assumed search is depth
  first and pre-order: each child is looked at before its own children,
  and the first property with the name is returned. No check is made that
  the name is unique.
- LegacyCodec.FindUnique: the call `findUnique(name, 1)` uses the search
  assumed for LegacyCodec.FindIn, with the depth argument 1 taken to start
  it at the root's children.
- A null dereference (src/events/Events.cc:567-568, 633-634) is modelled as
  the `NullDereference` failure the call returns, with the state as it was
  at that point. The process crash it causes is not modelled.
- LegacyEvents.Receiver.ReadUntilMatch stops when the modelled arrivals run
  out and reports that it is still waiting. The source blocks for ever.
- `EventSystem::createOriginatorID` (src/EventSystem.cc:218-222) is the
  default `LocationID` constructor, which
  LocationIDs.LocationID.Default models.
- `castToStatusEvent` and `castToCommandEvent` (src/EventSystem.cc:234-240)
  are unchecked casts with no logic and are not modelled.
- src/EventLog.cc, src/EventFormatter.cc, src/events/EventLog.cc and
  src/events/EventFormatter.cc are logging glue and are not part of this
  model. `EventLog::getLoggingTopic()` is the constant "LSSTLogging".
- `LogEvent::LOGGING_TOPIC`, `EventTypes::PIPELINELOG` and
  `Event::setRunId` are not in the source files of this model. The topic
  and the tag are parameters, and setting RUNID is modelled as a `set`.
- The subclass constructors `LogEvent(runId, rec)` and
  `PipelineLogEvent(runId, rec)` start from their base
  `LogEvent(runId, rec)`, which is not among these sources.
  PipelineLogEvents.FromRecord therefore starts from a given event.
- PropertySets: the order in which a daf_base `PropertySet` lists its
  names is insertion order here. The order of the custom string in
  DatabaseLoggers is the property set's order, where Python's set
  iteration order is unspecified.
- DatabaseLoggers: Python's `%s` rendering of a value is a parameter
  (`show`). The SQL `INSERT` and its execution are not modelled.
- EventAppenders.EventAppender.SetOption: `atoi` is modelled as the value
  its digits spell. Overflow past `int` is not wrapped.
- EventAppenders.EventAppender.Append: the LogEvent is built by the caller
  from an allocated property set (see the findings). log4cxx's
  `AppenderSkeleton` option handling is recorded, not performed.
- EventAppenders.EventAppender.ActivateOptions takes the
  `pexExceptions::RuntimeError` it catches (src/EventAppender.cc:99) to be
  the `RuntimeErrorException` the transmitter's constructor throws
  (src/EventTransmitter.cc:182, 198). lsst::pex::exceptions, which defines
  both names, is not part of this model.
- EventAppenders.EventAppender.GetTransmitter and
  EventAppenders.EventAppender.Append: log4cxx's `Exception`, which their
  handlers name (src/EventAppender.cc:53, 112, 153), is taken to be
  unrelated to the lsst::pex and CMS exceptions, so no failure is caught.
  An exception leaving `append` and what log4cxx then does with it is not
  modelled.
- LocationIDs.LocationID.Default, LocationIds.LocationId.Default,
  OriginatorIDs.OriginatorID.Default and DestinationIDs.DestinationID.Default:
  the local counter is an unbounded integer. The source's `int
  _localCounter++` (src/LocationID.cc:17, src/LocationId.cc:45,
  src/OriginatorID.cc:17, src/DestinationID.cc:18) overflows after 2^31 - 1
  ids, which is undefined behaviour in C++; that overflow is not modelled.
- LogEvents.GetLevel, LogEvents.GetLogger and the PipelineLogEvents getters
  (GetDataId, GetLoopnum, GetPipeline, GetSliceId, GetStageId) require an
  allocated property set. On the null `_psp` of a default-constructed event
  the source dereferences null; the model does not reach that case.
- LegacyCodec.MarshallText has no contract of its own. What it writes is
  stated by LegacyCodec.MarshallLines and LegacyCodec.Marshall, because a
  contract on the function itself makes every proof that unfolds it too
  costly.
- DatabaseLoggers.CommentStep takes Python's comparison of a non-string
  value with "" to be false, and `+` or slicing of such a value with a
  string to raise a TypeError.
- Concurrency is not modelled: the GIL, locks and unsynchronised statics.
- src/Transmitter.cc, src/Receiver.cc, src/EventReceiver.cc,
  src/EventEnqueuer.cc, src/EventDequeuer.cc, Winter2012a/src/CommandEvent.cc,
  the scripts and the examples are not part of this model.
- The filterable-set constructors and the dotted-name checks declared in
  include/lsst/ctrl/events/Event.h have no implementation in these
  sources and are not modelled.

## Findings

| source | as written | input that shows it | evidently intended | confidence | as-written member | corrected member |
|---|---|---|---|---|---|---|
| src/events/Events.cc:814-827 | `cutAt` is an `unsigned int`, compared with the 64-bit `npos`, so the loop never sees "not found" and ends with `substr` past the end (out_of_range) | any text under 2^32 characters, e.g. "node\|\|r\|\|0~~" | stop when `find` fails, as `splitString` in src/Event.cc does | not executed | LegacyCodec.UnmarshallAsWritten | LegacyCodec.UnmarshallText |
| src/CommandEvent.cc:111-124 | the LocationID fields are class statics, so an originator and a destination both report the destination's values | `LocationID(1,2,3)` then `LocationID(4,5,6)` as originator and destination | ORIG_ from the originator, DEST_ from the destination | not executed | CommandEvents.OriginatorLost | CommandEvents.NewFromIds |
| src/LogEvent.cc:71-99 | starts from `Event()`, which never allocates `_psp`, then writes through it | any logging event | build over an allocated property set | not executed | LogEvents.FromLoggingEventAsWritten | LogEvents.FromLoggingEvent |
| src/events/Events.cc:353-357 | `EventReceiver(hostName, topicName)` never sets `_turnEventsOff`, which `init` tests | a receiver built with this constructor, whose member holds true | events on, as the transmitter's constructor sets them | not executed | LegacyEvents.Receiver.AsWritten | LegacyEvents.Receiver.constructor |
