/** src/Event.cc: the base event. An event is a property set plus the list of
    keyword names that go into the message header instead of the body; the
    subclasses add keywords of their own. Header writing and reading are
    described once, by a schema of (name, type) fields, and each class
    contributes its fields. */
module BaseEvent {
  import opened Common
  import opened PropertySets
  import opened Messages
  import opened StringSets
  import EventTypes

  const TYPE: string := "TYPE"
  const EVENTTIME: string := "EVENTTIME"
  const HOSTID: string := "HOSTID"
  const RUNID: string := "RUNID"
  const STATUS: string := "STATUS"
  const TOPIC: string := "TOPIC"
  const PUBTIME: string := "PUBTIME"

  const UNINITIALIZED: string := "uninitialized"

  /** The keywords in the order `_init` inserts them. */
  const KEYWORDS: seq<string> := [TYPE, EVENTTIME, HOSTID, RUNID, STATUS, TOPIC, PUBTIME]

  /** The C++ class an event object was created as. */
  datatype Kind = PlainEvent | StatusEvent | CommandEvent | LogEvent | PipelineLogEvent

  // ------------------------------------------------------------- schemas

  /** The C++ type a header field is written and read with. */
  datatype Tag = TStr | TInt | TLong

  /** Header fields in the order a `populateHeader` or message constructor
      handles them. */
  type Schema = seq<(string, Tag)>

  /** Fields `Event::populateHeader` writes, in its order. */
  const HEADER_OUT: Schema := [(TYPE, TStr), (EVENTTIME, TLong), (HOSTID, TStr), (RUNID, TStr),
                               (STATUS, TStr), (TOPIC, TStr), (PUBTIME, TLong)]
  /** Fields `Event(TextMessage*)` reads, in its order. */
  const HEADER_IN: Schema := [(TYPE, TStr), (HOSTID, TStr), (RUNID, TStr), (STATUS, TStr),
                              (TOPIC, TStr), (EVENTTIME, TLong), (PUBTIME, TLong)]

  function FieldNames(s: Schema): (r: seq<string>)
    ensures |r| == |s| && forall i :: 0 <= i < |s| ==> r[i] == s[i].0
  {
    if s == [] then [] else [s[0].0] + FieldNames(s[1..])
  }

  predicate HasTag(v: Value, t: Tag) {
    match t
    case TStr => v.Str?
    case TInt => v.Int?
    case TLong => v.Long?
  }

  /** The header value that carries a property value of the field's type. */
  predicate Carries(h: HeaderValue, v: Value) {
    match h
    case HStr(s) => v == Str(s)
    case HInt(i) => v == Int(i)
    case HLong(l) => v == Long(l)
  }

  /** `_psp->get<T>(name)` for the field's type, as a header value. */
  function Fetch(ps: PropertySet, name: string, t: Tag): (r: Result<HeaderValue>)
    ensures r.Success? <==> Lookup(ps, name).Some? && HasTag(Lookup(ps, name).value, t)
    ensures r.Success? ==> Carries(r.value, Lookup(ps, name).value)
    ensures !Exists(ps, name) ==> r == Failure(NotFound(name))
  {
    match t
    case TStr => var s :- GetString(ps, name); Success(HStr(s))
    case TInt => var i :- GetInt(ps, name); Success(HInt(i))
    case TLong => var l :- GetLong(ps, name); Success(HLong(l))
  }

  /** `msg->getXProperty(name)` for the field's type, as a property value. */
  function Receive(h: Header, name: string, t: Tag): (r: Result<Value>)
    ensures r.Success? <==> name in h && match t case TStr => h[name].HStr? case TInt => h[name].HInt? case TLong => h[name].HLong?
    ensures r.Success? ==> Carries(h[name], r.value) && HasTag(r.value, t)
    ensures r.Failure? ==> r.error.CmsError?
  {
    match t
    case TStr => var s :- GetStringProperty(h, name); Success(Str(s))
    case TInt => var i :- GetIntProperty(h, name); Success(Int(i))
    case TLong => var l :- GetLongProperty(h, name); Success(Long(l))
  }

  /** Every field of the schema is present with its type. */
  predicate Typed(ps: PropertySet, s: Schema) {
    forall i :: 0 <= i < |s| ==> Lookup(ps, s[i].0).Some? && HasTag(Lookup(ps, s[i].0).value, s[i].1)
  }

  /** A set missing one field of the schema is not typed for it. */
  lemma NotTypedAt(ps: PropertySet, s: Schema, i: nat)
    requires i < |s| && Lookup(ps, s[i].0).None?
    ensures !Typed(ps, s)
  {
  }

  /** A `populateHeader`: copies each field into the header, failing on the
      first field that is missing or of another type. */
  function WriteHeader(ps: PropertySet, h: Header, s: Schema): (r: Result<Header>)
    ensures r.Success? <==> Typed(ps, s)
    ensures r.Success? ==> forall n :: n in h && n !in FieldNames(s) ==> n in r.value && r.value[n] == h[n]
    ensures r.Success? ==> forall n :: n in r.value ==> n in h || n in FieldNames(s)
    ensures r.Success? ==> forall i :: 0 <= i < |s| ==> s[i].0 in r.value && Carries(r.value[s[i].0], Lookup(ps, s[i].0).value)
    decreases |s|
  {
    if s == [] then Success(h)
    else
      var v :- Fetch(ps, s[0].0, s[0].1);
      var rest := WriteHeader(ps, h[s[0].0 := v], s[1..]);
      assert FieldNames(s) == [s[0].0] + FieldNames(s[1..]);
      assert rest.Success? ==> forall n :: n in h && n !in FieldNames(s) ==> n in rest.value && rest.value[n] == h[n] by {
        if rest.Success? {
          forall n | n in h && n !in FieldNames(s) ensures n in rest.value && rest.value[n] == h[n] {
            assert n != s[0].0 && n !in FieldNames(s[1..]);
            assert h[s[0].0 := v][n] == h[n];
          }
        }
      }
      assert rest.Success? ==> Typed(ps, s) by {
        if rest.Success? {
          forall i | 0 <= i < |s| ensures Lookup(ps, s[i].0).Some? && HasTag(Lookup(ps, s[i].0).value, s[i].1) {
            if i > 0 { assert s[i] == s[1..][i - 1]; }
          }
        }
      }
      assert Typed(ps, s) ==> Typed(ps, s[1..]) by {
        if Typed(ps, s) {
          forall i | 0 <= i < |s| - 1 ensures Lookup(ps, s[1..][i].0).Some? && HasTag(Lookup(ps, s[1..][i].0).value, s[1..][i].1) {
            assert s[1..][i] == s[i + 1];
          }
        }
      }
      rest
  }

  /** A message constructor's reads: each field is taken from the header
      and set in the property set, failing on the first one missing. */
  function ReadFields(h: Header, ps: PropertySet, s: Schema): (r: Result<PropertySet>)
    ensures r.Success? ==> forall n :: n !in FieldNames(s) ==> Lookup(r.value, n) == Lookup(ps, n)
    ensures r.Success? ==> forall i :: 0 <= i < |s| ==> s[i].0 in h && Lookup(r.value, s[i].0).Some? && Carries(h[s[i].0], Lookup(r.value, s[i].0).value)
    decreases |s|
  {
    if s == [] then Success(ps)
    else
      var v :- Receive(h, s[0].0, s[0].1);
      var rest := ReadFields(h, Set(ps, s[0].0, v), s[1..]);
      if rest.Success? then
        assert forall i :: 1 <= i < |s| ==> s[i] == s[1..][i - 1];
        assert FieldNames(s) == [s[0].0] + FieldNames(s[1..]);
        rest
      else rest
  }

  /** Reading succeeds on any header that every field was written into. */
  lemma {:induction false} ReadFieldsSucceeds(h: Header, ps: PropertySet, s: Schema, src: PropertySet)
    requires forall i :: 0 <= i < |s| ==>
               (s[i].0 in h && Lookup(src, s[i].0).Some? &&
                HasTag(Lookup(src, s[i].0).value, s[i].1) && Carries(h[s[i].0], Lookup(src, s[i].0).value))
    ensures ReadFields(h, ps, s).Success?
    decreases |s|
  {
    if s != [] {
      var v := Lookup(src, s[0].0).value;
      assert Receive(h, s[0].0, s[0].1).Success?;
      forall i | 0 <= i < |s| - 1
        ensures s[1..][i].0 in h && Lookup(src, s[1..][i].0).Some? &&
          HasTag(Lookup(src, s[1..][i].0).value, s[1..][i].1) && Carries(h[s[1..][i].0], Lookup(src, s[1..][i].0).value)
      {
        assert s[1..][i] == s[i + 1];
      }
      ReadFieldsSucceeds(h, Set(ps, s[0].0, Receive(h, s[0].0, s[0].1).value), s[1..], src);
    }
  }

  /** Carrying a value through a header field loses nothing. */
  lemma CarriesUnique(h: HeaderValue, v: Value, w: Value)
    requires Carries(h, v) && Carries(h, w)
    ensures v == w
  {
  }

  /** The header round trip: a property set whose fields have their types
      is written into a header; reading the fields back (in any order, into
      any body) restores every field, and the body keeps everything else. */
  lemma HeaderRoundTrip(ps: PropertySet, h: Header, out: Schema, inn: Schema, body: PropertySet)
    requires Typed(ps, out)
    requires forall f :: f in inn ==> f in out
    ensures WriteHeader(ps, h, out).Success?
    ensures ReadFields(WriteHeader(ps, h, out).value, body, inn).Success?
    ensures forall n :: n in FieldNames(inn) ==> Lookup(ReadFields(WriteHeader(ps, h, out).value, body, inn).value, n) == Lookup(ps, n)
    ensures forall n :: n !in FieldNames(inn) ==> Lookup(ReadFields(WriteHeader(ps, h, out).value, body, inn).value, n) == Lookup(body, n)
  {
    var w := WriteHeader(ps, h, out).value;
    forall i | 0 <= i < |inn|
      ensures inn[i].0 in w && Lookup(ps, inn[i].0).Some? && HasTag(Lookup(ps, inn[i].0).value, inn[i].1) &&
              Carries(w[inn[i].0], Lookup(ps, inn[i].0).value)
    {
      assert inn[i] in out;
      var j :| 0 <= j < |out| && out[j] == inn[i];
    }
    ReadFieldsSucceeds(w, body, inn, ps);
    var r := ReadFields(w, body, inn).value;
    forall n | n in FieldNames(inn) ensures Lookup(r, n) == Lookup(ps, n) {
      var i :| 0 <= i < |inn| && FieldNames(inn)[i] == n;
      CarriesUnique(w[n], Lookup(r, n).value, Lookup(ps, n).value);
    }
  }

  /** Reading the fields of `a + b` is reading those of `a`, then those of
      `b` into the result: a subclass constructor reading its fields after
      the base constructor has read the base ones. */
  lemma {:induction false} ReadFieldsConcat(h: Header, ps: PropertySet, a: Schema, b: Schema)
    ensures ReadFields(h, ps, a + b) ==
      (match ReadFields(h, ps, a)
       case Failure(e) => Failure(e)
       case Success(q) => ReadFields(h, q, b))
    decreases |a|
  {
    if a == [] {
      assert a + b == b;
    } else {
      assert (a + b)[0] == a[0] && (a + b)[1..] == a[1..] + b;
      var v := Receive(h, a[0].0, a[0].1);
      if v.Success? {
        ReadFieldsConcat(h, Set(ps, a[0].0, v.value), a[1..], b);
      }
    }
  }

  /** Setting a value of the right type keeps a schema's fields typed. */
  lemma TypedAfterSet(ps: PropertySet, s: Schema, name: string, v: Value)
    requires Typed(ps, s)
    requires forall i :: 0 <= i < |s| && s[i].0 == name ==> HasTag(v, s[i].1)
    ensures Typed(Set(ps, name, v), s)
  {
  }

  /** Every write to a field of the schema has the field's type. */
  predicate WritesFit(ws: seq<(string, Value)>, s: Schema) {
    forall i, j :: 0 <= i < |ws| && 0 <= j < |s| && ws[i].0 == s[j].0 ==> HasTag(ws[i].1, s[j].1)
  }

  lemma {:induction false} TypedAfterSetAll(ps: PropertySet, s: Schema, ws: seq<(string, Value)>)
    requires Typed(ps, s) && WritesFit(ws, s)
    ensures Typed(SetAll(ps, ws), s)
    decreases |ws|
  {
    if ws != [] {
      TypedAfterSet(ps, s, ws[0].0, ws[0].1);
      assert WritesFit(ws[1..], s) by {
        forall i, j | 0 <= i < |ws[1..]| && 0 <= j < |s| && ws[1..][i].0 == s[j].0
          ensures HasTag(ws[1..][i].1, s[j].1)
        {
          assert ws[1..][i] == ws[i + 1];
        }
      }
      TypedAfterSetAll(Set(ps, ws[0].0, ws[0].1), s, ws[1..]);
    }
  }

  /** The base header names told apart by their second letter; only TYPE
      has a Y there. */
  lemma HeaderSecondLetters()
    ensures forall j :: 0 <= j < |HEADER_OUT| ==> |HEADER_OUT[j].0| > 1 && HEADER_OUT[j].0[1] in "YVOUT"
    ensures forall j :: 0 < j < |HEADER_OUT| ==> HEADER_OUT[j].0[1] != 'Y'
  {
    assert HEADER_OUT[0].0[1] == 'Y' && HEADER_OUT[1].0[1] == 'V' && HEADER_OUT[2].0[1] == 'O';
    assert HEADER_OUT[3].0[1] == 'U' && HEADER_OUT[4].0[1] == 'T' && HEADER_OUT[5].0[1] == 'O';
    assert HEADER_OUT[6].0[1] == 'U';
  }

  lemma TypedConcat(ps: PropertySet, a: Schema, b: Schema)
    requires Typed(ps, a) && Typed(ps, b)
    ensures Typed(ps, a + b)
  {
    forall i | 0 <= i < |a + b| ensures Lookup(ps, (a + b)[i].0).Some? && HasTag(Lookup(ps, (a + b)[i].0).value, (a + b)[i].1) {
      if i >= |a| { assert (a + b)[i] == b[i - |a|]; }
    }
  }

  /** EVENTTIME is the second field of every header schema. */
  lemma EventTimeSecond(s: Schema)
    ensures |HEADER_OUT + s| > 1 && (HEADER_OUT + s)[1] == (EVENTTIME, TLong)
  {
    assert HEADER_OUT[1] == (EVENTTIME, TLong);
  }

  /** The base header fields are the keywords, TYPE first. */
  lemma HeaderOutNames()
    ensures FieldNames(HEADER_OUT) == KEYWORDS && HEADER_OUT[0] == (TYPE, TStr)
    ensures forall f :: f in HEADER_IN ==> f in HEADER_OUT
  {
  }

  /** Field names of a concatenation. */
  lemma FieldNamesConcat(a: Schema, b: Schema)
    ensures FieldNames(a + b) == FieldNames(a) + FieldNames(b)
  {
  }

  // ------------------------------------------------------- the base event

  /** `_init`'s base keywords make an ascending set. */
  lemma BaseKeywordsAscending()
    ensures Ascending(InsertAll([], KEYWORDS))
  {
    InsertAllFacts([], KEYWORDS);
  }

  /** What `Event::_constructor` makes of the caller's property set: a copy
      with STATUS, EVENTTIME and HOSTID defaulted, RUNID, TYPE, TOPIC and
      PUBTIME overwritten, and nothing else changed. */
  function Constructed(runId: string, ps: PropertySet, hostName: string, now: int): (r: PropertySet)
    ensures Lookup(r, RUNID) == Some(Str(runId))
    ensures Lookup(r, TYPE) == Some(Str(EventTypes.EVENT))
    ensures Lookup(r, TOPIC) == Some(Str(UNINITIALIZED))
    ensures Lookup(r, PUBTIME) == Some(Long(0))
    ensures Lookup(r, STATUS) == if Exists(ps, STATUS) then Lookup(ps, STATUS) else Some(Str("unknown"))
    ensures Lookup(r, EVENTTIME) == if Exists(ps, EVENTTIME) then Lookup(ps, EVENTTIME) else Some(Long(now))
    ensures Lookup(r, HOSTID) == if Exists(ps, HOSTID) then Lookup(ps, HOSTID) else Some(Str(hostName))
    ensures forall n :: n !in KEYWORDS ==> Lookup(r, n) == Lookup(ps, n)
  {
    DefaultedFacts(ps, hostName, now);
    BaseWritesFacts(Defaulted(ps, hostName, now), runId);
    SetAll(Defaulted(ps, hostName, now), BaseWrites(runId))
  }

  /** The first three steps of `_constructor`: STATUS, EVENTTIME and HOSTID
      where the caller gave none. */
  function Defaulted(ps: PropertySet, hostName: string, now: int): PropertySet {
    SetIfAbsent(SetIfAbsent(SetIfAbsent(ps, STATUS, Str("unknown")), EVENTTIME, Long(now)), HOSTID, Str(hostName))
  }

  lemma DefaultedFacts(ps: PropertySet, hostName: string, now: int)
    ensures Lookup(Defaulted(ps, hostName, now), STATUS) == if Exists(ps, STATUS) then Lookup(ps, STATUS) else Some(Str("unknown"))
    ensures Lookup(Defaulted(ps, hostName, now), EVENTTIME) == if Exists(ps, EVENTTIME) then Lookup(ps, EVENTTIME) else Some(Long(now))
    ensures Lookup(Defaulted(ps, hostName, now), HOSTID) == if Exists(ps, HOSTID) then Lookup(ps, HOSTID) else Some(Str(hostName))
    ensures forall n :: n != STATUS && n != EVENTTIME && n != HOSTID ==> Lookup(Defaulted(ps, hostName, now), n) == Lookup(ps, n)
  {
    var p1 := SetIfAbsent(ps, STATUS, Str("unknown"));
    var p2 := SetIfAbsent(p1, EVENTTIME, Long(now));
    assert Lookup(p2, STATUS) == Lookup(p1, STATUS);
  }

  /** The last four steps of `_constructor`, in order. */
  function BaseWrites(runId: string): (ws: seq<(string, Value)>)
    ensures |ws| == 4
  {
    [(RUNID, Str(runId)), (TYPE, Str(EventTypes.EVENT)), (TOPIC, Str(UNINITIALIZED)), (PUBTIME, Long(0))]
  }

  lemma BaseWritesFacts(p: PropertySet, runId: string)
    ensures Lookup(SetAll(p, BaseWrites(runId)), RUNID) == Some(Str(runId))
    ensures Lookup(SetAll(p, BaseWrites(runId)), TYPE) == Some(Str(EventTypes.EVENT))
    ensures Lookup(SetAll(p, BaseWrites(runId)), TOPIC) == Some(Str(UNINITIALIZED))
    ensures Lookup(SetAll(p, BaseWrites(runId)), PUBTIME) == Some(Long(0))
    ensures forall n :: n != RUNID && n != TYPE && n != TOPIC && n != PUBTIME ==>
              Lookup(SetAll(p, BaseWrites(runId)), n) == Lookup(p, n)
  {
    var ws := BaseWrites(runId);
    assert ws[0].0[0] == 'R' && ws[1].0[1] == 'Y' && ws[2].0[1] == 'O' && ws[3].0[0] == 'P';
    assert ws[1].0[0] == 'T' && ws[2].0[0] == 'T';
    SetAllLast(p, ws, 0);
    SetAllLast(p, ws, 1);
    SetAllLast(p, ws, 2);
    SetAllLast(p, ws, 3);
    forall n | n != RUNID && n != TYPE && n != TOPIC && n != PUBTIME
      ensures Lookup(SetAll(p, ws), n) == Lookup(p, n)
    {
      SetAllElsewhere(p, ws, n);
    }
  }

  /** `if (!_psp->exists(name)) _psp->set(name, v)`. */
  function SetIfAbsent(ps: PropertySet, name: string, v: Value): (r: PropertySet)
    ensures Lookup(r, name) == if Exists(ps, name) then Lookup(ps, name) else Some(v)
    ensures forall n :: n != name ==> Lookup(r, n) == Lookup(ps, n)
  {
    if Exists(ps, name) then ps else Set(ps, name, v)
  }

  /** The caller's STATUS, EVENTTIME and HOSTID, where given, have the types
      the header needs. */
  predicate CallerTypesFit(ps: PropertySet) {
    && (Exists(ps, STATUS) ==> Lookup(ps, STATUS).value.Str?)
    && (Exists(ps, EVENTTIME) ==> Lookup(ps, EVENTTIME).value.Long?)
    && (Exists(ps, HOSTID) ==> Lookup(ps, HOSTID).value.Str?)
  }

  /** A constructed event can always be written into a header: every base
      field is there with its type, provided the caller did not supply a
      STATUS, EVENTTIME or HOSTID of another type. */
  lemma ConstructedIsTyped(runId: string, ps: PropertySet, hostName: string, now: int)
    requires CallerTypesFit(ps)
    ensures Typed(Constructed(runId, ps, hostName, now), HEADER_OUT)
  {
    var r := Constructed(runId, ps, hostName, now);
    assert Lookup(r, TYPE).Some? && Lookup(r, TYPE).value.Str?;
    assert Lookup(r, EVENTTIME).Some? && Lookup(r, EVENTTIME).value.Long?;
    assert Lookup(r, HOSTID).Some? && Lookup(r, HOSTID).value.Str?;
    assert Lookup(r, RUNID).Some? && Lookup(r, RUNID).value.Str?;
    assert Lookup(r, STATUS).Some? && Lookup(r, STATUS).value.Str?;
    assert Lookup(r, TOPIC).Some? && Lookup(r, TOPIC).value.Str?;
    assert Lookup(r, PUBTIME).Some? && Lookup(r, PUBTIME).value.Long?;
    forall i | 0 <= i < |HEADER_OUT| ensures Lookup(r, HEADER_OUT[i].0).Some? && HasTag(Lookup(r, HEADER_OUT[i].0).value, HEADER_OUT[i].1) {
      assert i == 0 || i == 1 || i == 2 || i == 3 || i == 4 || i == 5 || i == 6;
    }
  }

  /** The property set with every keyword removed (`getCustomPropertySet`). */
  function RemoveAll(ps: PropertySet, ks: seq<string>): (r: PropertySet)
    ensures forall n :: Lookup(r, n) == if n in ks then None else Lookup(ps, n)
    decreases |ks|
  {
    if ks == [] then ps else RemoveAll(Remove(ps, ks[0]), ks[1..])
  }

  lemma RemoveAllStep(ps: PropertySet, ks: seq<string>)
    requires ks != []
    ensures RemoveAll(ps, ks) == RemoveAll(Remove(ps, ks[0]), ks[1..])
  {
  }

  /** `names` without the keywords, order kept (`getCustomPropertyNames`). */
  function Without(names: seq<string>, ks: seq<string>): (r: seq<string>)
  {
    if names == [] then []
    else (if names[0] in ks then [] else [names[0]]) + Without(names[1..], ks)
  }

  /** A name survives iff it was given and is no keyword. */
  lemma {:induction false} WithoutMembers(names: seq<string>, ks: seq<string>)
    ensures forall n :: n in Without(names, ks) <==> n in names && n !in ks
  {
    if names != [] {
      WithoutMembers(names[1..], ks);
      assert names == [names[0]] + names[1..];
    }
  }

  lemma {:induction false} NamesAfterRemove(ps: PropertySet, k: string)
    ensures Names(Remove(ps, k)) == Without(Names(ps), [k])
  {
    if ps != [] {
      NamesAfterRemove(ps[1..], k);
      assert Names(ps) == [ps[0].name] + Names(ps[1..]);
      if ps[0].name != k {
        assert Names(Remove(ps, k)) == [ps[0].name] + Names(Remove(ps[1..], k));
      }
    }
  }

  lemma {:induction false} WithoutTwice(names: seq<string>, k: string, ks: seq<string>)
    ensures Without(Without(names, [k]), ks) == Without(names, [k] + ks)
  {
    if names != [] {
      WithoutTwice(names[1..], k, ks);
      assert names[0] in [k] + ks <==> names[0] == k || names[0] in ks;
      assert Without(names, [k] + ks) == (if names[0] in [k] + ks then [] else [names[0]]) + Without(names[1..], [k] + ks);
      if names[0] != k {
        var w := Without(names[1..], [k]);
        assert Without(names, [k]) == [names[0]] + w;
        assert ([names[0]] + w)[0] == names[0] && ([names[0]] + w)[1..] == w;
        assert Without([names[0]] + w, ks) == (if names[0] in ks then [] else [names[0]]) + Without(w, ks);
      } else {
        assert names[0] in [k];
        assert Without(names, [k]) == [] + Without(names[1..], [k]) == Without(names[1..], [k]);
        assert Without(names, [k] + ks) == [] + Without(names[1..], [k] + ks) == Without(names[1..], [k] + ks);
      }
    }
  }

  /** The two ways the source computes the custom part agree: the names
      `getCustomPropertyNames` keeps are the names of the set
      `getCustomPropertySet` returns, in the same order. */
  lemma {:induction false} CustomNamesAgree(ps: PropertySet, ks: seq<string>)
    ensures Names(RemoveAll(ps, ks)) == Without(Names(ps), ks)
    decreases |ks|
  {
    if ks == [] {
      WithoutNone(Names(ps));
    } else {
      CustomNamesAgree(Remove(ps, ks[0]), ks[1..]);
      NamesAfterRemove(ps, ks[0]);
      WithoutTwice(Names(ps), ks[0], ks[1..]);
      assert [ks[0]] + ks[1..] == ks;
    }
  }

  lemma {:induction false} WithoutNone(names: seq<string>)
    ensures Without(names, []) == names
  {
    if names != [] { WithoutNone(names[1..]); }
  }

  /** Setting a keyword does not change the custom names or their order. */
  lemma SetKeywordKeepsCustom(ps: PropertySet, k: string, v: Value, ks: seq<string>)
    requires k in ks
    ensures Without(Names(Set(ps, k, v)), ks) == Without(Names(ps), ks)
  {
    SetNames(ps, k, v);
    if !Exists(ps, k) {
      WithoutConcat(Names(ps), [k], ks);
      assert Without([k], ks) == [] + Without([], ks);
    }
  }

  /** `Event(runId, ps)` keeps the caller's custom properties, in the
      caller's order: it only adds or overwrites keywords. */
  lemma ConstructedCustomNames(runId: string, ps: PropertySet, hostName: string, now: int)
    ensures Without(Names(Constructed(runId, ps, hostName, now)), KEYWORDS) == Without(Names(ps), KEYWORDS)
  {
    var p1 := SetIfAbsent(ps, STATUS, Str("unknown"));
    var p2 := SetIfAbsent(p1, EVENTTIME, Long(now));
    if !Exists(ps, STATUS) { SetKeywordKeepsCustom(ps, STATUS, Str("unknown"), KEYWORDS); }
    if !Exists(p1, EVENTTIME) { SetKeywordKeepsCustom(p1, EVENTTIME, Long(now), KEYWORDS); }
    if !Exists(p2, HOSTID) { SetKeywordKeepsCustom(p2, HOSTID, Str(hostName), KEYWORDS); }
    SetAllKeepsCustom(Defaulted(ps, hostName, now), BaseWrites(runId), KEYWORDS);
  }

  /** Writes to keywords only do not change the custom names or their
      order. */
  lemma {:induction false} SetAllKeepsCustom(ps: PropertySet, ws: seq<(string, Value)>, ks: seq<string>)
    requires forall i :: 0 <= i < |ws| ==> ws[i].0 in ks
    ensures Without(Names(SetAll(ps, ws)), ks) == Without(Names(ps), ks)
    decreases |ws|
  {
    if ws != [] {
      SetKeywordKeepsCustom(ps, ws[0].0, ws[0].1, ks);
      SetAllKeepsCustom(Set(ps, ws[0].0, ws[0].1), ws[1..], ks);
    }
  }

  /** `Without` depends only on which names are keywords. */
  lemma {:induction false} WithoutSameKeywords(names: seq<string>, ks: seq<string>, ls: seq<string>)
    requires forall n :: n in ks <==> n in ls
    ensures Without(names, ks) == Without(names, ls)
  {
    if names != [] { WithoutSameKeywords(names[1..], ks, ls); }
  }

  /** The situation exercised for `getCustomPropertyNames`: a run id, a
      property `myname` and a STATUS given to the constructor leave
      `myname` as the only custom name. */
  lemma CustomNamesExample(runId: string, status: string, hostName: string, now: int)
    ensures Without(Names(Constructed(runId, [Entry("myname", Str("myname")), Entry(STATUS, Str(status))], hostName, now)),
                    InsertAll([], KEYWORDS)) == ["myname"]
  {
    var ps := [Entry("myname", Str("myname")), Entry(STATUS, Str(status))];
    var c := Constructed(runId, ps, hostName, now);
    var ks := InsertAll([], KEYWORDS);
    ConstructedCustomNames(runId, ps, hostName, now);
    InsertAllFacts([], KEYWORDS);
    WithoutSameKeywords(Names(c), ks, KEYWORDS);
    MyNameExample(ps, status);
  }

  lemma MyNameExample(ps: PropertySet, status: string)
    requires ps == [Entry("myname", Str("myname")), Entry(STATUS, Str(status))]
    ensures Without(Names(ps), KEYWORDS) == ["myname"]
  {
    assert Names(ps) == ["myname", STATUS];
    assert "myname" !in KEYWORDS by { assert "myname"[0] == 'm'; }
    assert Without([STATUS], KEYWORDS) == [] + Without([], KEYWORDS);
    assert Without(["myname", STATUS], KEYWORDS) == ["myname"] + Without([STATUS], KEYWORDS);
  }

  /** What `getPubDate` returns: nothing for an event never published,
      otherwise the publication time (asctime formatting is not modelled). */
  datatype PubDate = NotPublished | PublishedAt(nsecs: int)

  class Event {
    var kind: Kind
    /** `_keywords`, a `std::set`, in ascending order. */
    var keywords: seq<string>
    /** `_psp`; `None` for an event made by the default constructor, which
        never allocates one. */
    var psp: Option<PropertySet>

    ghost predicate Valid()
      reads this`keywords
    {
      Ascending(keywords)
    }

    /** `Event()`: the keywords only. */
    constructor Default()
      ensures Valid() && kind == PlainEvent && psp == None
      ensures keywords == InsertAll([], KEYWORDS)
    {
      kind := PlainEvent;
      BaseKeywordsAscending();
      keywords := InsertAll([], KEYWORDS);
      psp := None;
    }

    /** `Event(runId, ps)`; the host name and the clock are inputs. */
    constructor (runId: string, ps: PropertySet, hostName: string, now: int)
      ensures Valid() && kind == PlainEvent
      ensures keywords == InsertAll([], KEYWORDS)
      ensures psp == Some(Constructed(runId, ps, hostName, now))
    {
      kind := PlainEvent;
      BaseKeywordsAscending();
      keywords := InsertAll([], KEYWORDS);
      psp := Some(Constructed(runId, ps, hostName, now));
    }

    /** A subclass `_init`: adds its keywords. */
    method AddKeywords(k: Kind, names: seq<string>)
      requires Valid()
      modifies this`kind, this`keywords
      ensures Valid() && kind == k && keywords == InsertAll(old(keywords), names)
    {
      InsertAllFacts(keywords, names);
      kind := k;
      keywords := InsertAll(keywords, names);
    }

    /** A subclass message constructor after `Event(msg)`: `_init` adds the
        subclass keywords, then each subclass field is read from the header;
        a missing one raises a CMSException and no event results. */
    method Extend(k: Kind, fields: Schema, h: Header) returns (r: Result<()>)
      requires Valid() && psp.Some?
      modifies this`kind, this`keywords, this`psp
      ensures Valid() && kind == k && keywords == InsertAll(old(keywords), FieldNames(fields))
      ensures r.Success? <==> ReadFields(h, old(psp.value), fields).Success?
      ensures r.Success? ==> psp == Some(ReadFields(h, old(psp.value), fields).value)
    {
      AddKeywords(k, FieldNames(fields));
      var props := ReadFields(h, psp.value, fields);
      if props.Failure? { return Failure(props.error); }
      psp := Some(props.value);
      return Success(());
    }

    /** `_psp->set(name, v)` where `_psp` may never have been allocated:
        then the write goes through a null pointer and nothing is set. */
    method TrySetProperty(name: string, v: Value) returns (r: Result<()>)
      modifies this`psp
      ensures old(psp).None? ==> r == Failure(NullDereference) && psp == old(psp)
      ensures old(psp).Some? ==> r.Success? && psp == Some(Set(old(psp).value, name, v))
    {
      if psp.None? { return Failure(NullDereference); }
      psp := Some(Set(psp.value, name, v));
      return Success(());
    }

    /** `_psp->set(name, v)` on an allocated `_psp`. */
    method SetProperty(name: string, v: Value)
      requires psp.Some?
      modifies this`psp
      ensures psp == Some(Set(old(psp.value), name, v))
    {
      psp := Some(Set(psp.value, name, v));
    }

    /** `getFilterablePropertyNames`: the keywords in ascending order. */
    method GetFilterablePropertyNames() returns (names: seq<string>)
      requires Valid()
      ensures names == keywords && Ascending(names)
    {
      names := [];
      var i := 0;
      while i < |keywords|
        invariant 0 <= i <= |keywords| && names == keywords[..i]
      {
        names := names + [keywords[i]];
        i := i + 1;
      }
    }

    /** `getCustomPropertyNames`: the property names that are not keywords,
        in the order of the property set. `names.erase(it)` leaves the
        iterator on the element that moved into its place. */
    method GetCustomPropertyNames() returns (names: seq<string>)
      requires psp.Some?
      ensures names == Without(Names(psp.value), keywords)
    {
      ghost var all := Names(psp.value);
      names := Names(psp.value);
      var i := 0;
      while i < |names|
        invariant 0 <= i <= |names|
        invariant Without(names, keywords) == Without(all, keywords)
        invariant forall j :: 0 <= j < i ==> names[j] !in keywords
        decreases |names| - i
      {
        if names[i] !in keywords {
          i := i + 1;
        } else {
          EraseKeyword(names, i, keywords);
          var erased := names[..i] + names[i + 1..];
          assert forall j :: 0 <= j < i ==> erased[j] == names[j];
          names := erased;
        }
      }
      WithoutNoKeyword(names, keywords);
    }

    /** `getCustomPropertySet`: a copy with each keyword removed. */
    method GetCustomPropertySet() returns (r: PropertySet)
      requires psp.Some?
      ensures r == RemoveAll(psp.value, keywords)
    {
      r := psp.value;
      var i := 0;
      while i < |keywords|
        invariant 0 <= i <= |keywords|
        invariant RemoveAll(r, keywords[i..]) == RemoveAll(psp.value, keywords)
      {
        RemoveAllStep(r, keywords[i..]);
        assert keywords[i..][1..] == keywords[i + 1..];
        r := Remove(r, keywords[i]);
        i := i + 1;
      }
    }

    /** `getPropertySet`: a copy, or an empty set when none was allocated. */
    function GetPropertySet(): (r: PropertySet)
      reads this
      ensures psp.Some? ==> r == psp.value
      ensures psp.None? ==> r == []
    {
      if psp.Some? then psp.value else []
    }

    function GetEventTime(): (r: Result<int>)
      reads this
      requires psp.Some?
      ensures r == GetLong(psp.value, EVENTTIME)
    {
      GetLong(psp.value, EVENTTIME)
    }

    method SetEventTime(nsecs: int)
      requires psp.Some?
      modifies this`psp
      ensures psp == Some(Set(old(psp.value), EVENTTIME, Long(nsecs)))
    {
      SetProperty(EVENTTIME, Long(nsecs));
    }

    /** `updateEventTime`, the clock reading being an input. */
    method UpdateEventTime(now: int)
      requires psp.Some?
      modifies this`psp
      ensures psp == Some(Set(old(psp.value), EVENTTIME, Long(now)))
    {
      SetProperty(EVENTTIME, Long(now));
    }

    method SetPubTime(t: int)
      requires psp.Some?
      modifies this`psp
      ensures psp == Some(Set(old(psp.value), PUBTIME, Long(t)))
    {
      SetProperty(PUBTIME, Long(t));
    }

    function GetPubTime(): (r: Result<int>)
      reads this
      requires psp.Some?
      ensures r == GetLong(psp.value, PUBTIME)
    {
      GetLong(psp.value, PUBTIME)
    }

    /** `getPubDate`: the empty string for a publication time of 0. */
    function GetPubDate(): (r: Result<PubDate>)
      reads this
      requires psp.Some?
      ensures r.Success? <==> GetPubTime().Success?
      ensures r.Success? ==> (r.value == NotPublished <==> GetPubTime().value == 0)
      ensures r.Success? && r.value.PublishedAt? ==> r.value.nsecs == GetPubTime().value
    {
      var t :- GetPubTime();
      Success(if t == 0 then NotPublished else PublishedAt(t))
    }

    function GetHostId(): (r: Result<string>) reads this requires psp.Some?
      ensures r == GetString(psp.value, HOSTID)
    { GetString(psp.value, HOSTID) }

    function GetRunId(): (r: Result<string>) reads this requires psp.Some?
      ensures r == GetString(psp.value, RUNID)
    { GetString(psp.value, RUNID) }

    function GetType(): (r: Result<string>) reads this requires psp.Some?
      ensures r == GetString(psp.value, TYPE)
    { GetString(psp.value, TYPE) }

    function GetStatus(): (r: Result<string>) reads this requires psp.Some?
      ensures r == GetString(psp.value, STATUS)
    { GetString(psp.value, STATUS) }

    function GetTopic(): (r: Result<string>) reads this requires psp.Some?
      ensures r == GetString(psp.value, TOPIC)
    { GetString(psp.value, TOPIC) }

    method SetStatus(status: string)
      requires psp.Some?
      modifies this`psp
      ensures psp == Some(Set(old(psp.value), STATUS, Str(status)))
      ensures GetStatus() == Success(status)
    {
      SetProperty(STATUS, Str(status));
    }

    method SetTopic(topic: string)
      requires psp.Some?
      modifies this`psp
      ensures psp == Some(Set(old(psp.value), TOPIC, Str(topic)))
      ensures GetTopic() == Success(topic)
    {
      SetProperty(TOPIC, Str(topic));
    }
  }

  /** `Event(TextMessage*)`: the body's properties with the header fields
      set over them; a missing header field raises a CMSException. */
  method FromMessage(msg: TextMessage) returns (r: Result<Event>)
    ensures r.Success? <==> ReadFields(msg.header, msg.body, HEADER_IN).Success?
    ensures r.Success? ==> fresh(r.value) && r.value.Valid() && r.value.kind == PlainEvent
    ensures r.Success? ==> r.value.keywords == InsertAll([], KEYWORDS)
    ensures r.Success? ==> r.value.psp == Some(ReadFields(msg.header, msg.body, HEADER_IN).value)
  {
    var props := ReadFields(msg.header, msg.body, HEADER_IN);
    if props.Failure? { return Failure(props.error); }
    var e := new Event.Default();
    e.psp := Some(props.value);
    return Success(e);
  }

  lemma EraseKeyword(names: seq<string>, i: nat, ks: seq<string>)
    requires i < |names| && names[i] in ks
    ensures Without(names[..i] + names[i + 1..], ks) == Without(names, ks)
  {
    var a, x, b := names[..i], names[i], names[i + 1..];
    assert names == a + ([x] + b);
    WithoutConcat(a, [x] + b, ks);
    assert ([x] + b)[1..] == b;
    assert Without([x] + b, ks) == Without(b, ks);
    WithoutConcat(a, b, ks);
  }

  lemma {:induction false} WithoutConcat(a: seq<string>, b: seq<string>, ks: seq<string>)
    ensures Without(a + b, ks) == Without(a, ks) + Without(b, ks)
  {
    if a != [] {
      WithoutConcat(a[1..], b, ks);
      assert (a + b)[1..] == a[1..] + b;
    } else {
      assert a + b == b;
    }
  }

  lemma {:induction false} WithoutNoKeyword(names: seq<string>, ks: seq<string>)
    requires forall j :: 0 <= j < |names| ==> names[j] !in ks
    ensures Without(names, ks) == names
  {
    if names != [] { WithoutNoKeyword(names[1..], ks); }
  }

}
