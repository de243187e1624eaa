/** The property sets events carry (daf_base PropertySet): named, typed
    values, at most one per name. Only the value types the event classes use
    are represented; a property holds a single value, not an array. Values are
    immutable here, so `deepCopy` is the identity. */
module PropertySets {
  import opened Common

  datatype Value =
    | Str(s: string)
    | Int(i: int)     // C++ int
    | Long(l: int)    // C++ long long
    | Bool(b: bool)
    | Nested(ps: seq<Entry>)

  datatype Entry = Entry(name: string, value: Value)

  type PropertySet = seq<Entry>

  function Names(ps: PropertySet): (r: seq<string>)
    ensures |r| == |ps| && forall i :: 0 <= i < |ps| ==> r[i] == ps[i].name
  {
    if ps == [] then [] else [ps[0].name] + Names(ps[1..])
  }

  /** No name is used twice. */
  predicate Distinct(ps: PropertySet) {
    var ns := Names(ps);
    forall i, j :: 0 <= i < j < |ns| ==> ns[i] != ns[j]
  }

  function Lookup(ps: PropertySet, name: string): (r: Option<Value>)
  {
    if ps == [] then None
    else if ps[0].name == name then Some(ps[0].value)
    else Lookup(ps[1..], name)
  }

  predicate Exists(ps: PropertySet, name: string) { Lookup(ps, name).Some? }

  /** `get<T>(name)` without the type: NotFound when absent. */
  function Get(ps: PropertySet, name: string): (r: Result<Value>)
    ensures r.Success? <==> Exists(ps, name)
    ensures r.Success? ==> Lookup(ps, name) == Some(r.value)
    ensures r.Failure? ==> r.error == NotFound(name)
  {
    match Lookup(ps, name)
    case None => Failure(NotFound(name))
    case Some(v) => Success(v)
  }

  /** `get<std::string>(name)`, and `getAsString(name)`, which accepts only
      a string too: a value of another type is a TypeError. */
  function GetString(ps: PropertySet, name: string): (r: Result<string>)
    ensures r.Success? <==> Lookup(ps, name).Some? && Lookup(ps, name).value.Str?
    ensures r.Success? ==> Lookup(ps, name) == Some(Str(r.value))
    ensures !Exists(ps, name) ==> r == Failure(NotFound(name))
  {
    var v :- Get(ps, name);
    if v.Str? then Success(v.s) else Failure(TypeMismatch(name))
  }

  /** `get<int>(name)`. */
  function GetInt(ps: PropertySet, name: string): (r: Result<int>)
    ensures r.Success? <==> Lookup(ps, name).Some? && Lookup(ps, name).value.Int?
    ensures r.Success? ==> Lookup(ps, name) == Some(Int(r.value))
    ensures !Exists(ps, name) ==> r == Failure(NotFound(name))
  {
    var v :- Get(ps, name);
    if v.Int? then Success(v.i) else Failure(TypeMismatch(name))
  }

  /** `get<long long>(name)`. */
  function GetLong(ps: PropertySet, name: string): (r: Result<int>)
    ensures r.Success? <==> Lookup(ps, name).Some? && Lookup(ps, name).value.Long?
    ensures r.Success? ==> Lookup(ps, name) == Some(Long(r.value))
    ensures !Exists(ps, name) ==> r == Failure(NotFound(name))
  {
    var v :- Get(ps, name);
    if v.Long? then Success(v.l) else Failure(TypeMismatch(name))
  }

  /** `getAsInt(name)`: an int, or a bool widened to 0 or 1. */
  function GetAsInt(ps: PropertySet, name: string): (r: Result<int>)
    ensures Lookup(ps, name) == Some(Bool(true)) ==> r == Success(1)
    ensures Lookup(ps, name) == Some(Bool(false)) ==> r == Success(0)
    ensures (Lookup(ps, name).Some? && Lookup(ps, name).value.Int?) ==> r == GetInt(ps, name)
    ensures r.Success? ==> Lookup(ps, name).Some? && (Lookup(ps, name).value.Int? || Lookup(ps, name).value.Bool?)
  {
    var v :- Get(ps, name);
    match v
    case Int(i) => Success(i)
    case Bool(b) => Success(if b then 1 else 0)
    case _ => Failure(TypeMismatch(name))
  }

  /** `set(name, value)`: replaces the value of an existing name where it
      stands, otherwise adds the name at the end. */
  function Set(ps: PropertySet, name: string, v: Value): (r: PropertySet)
    ensures Lookup(r, name) == Some(v)
    ensures forall n :: n != name ==> Lookup(r, n) == Lookup(ps, n)
  {
    if ps == [] then [Entry(name, v)]
    else if ps[0].name == name then [Entry(name, v)] + ps[1..]
    else [ps[0]] + Set(ps[1..], name, v)
  }

  /** One step of Set's frame, for proofs that walk a chain of writes. */
  lemma SetElsewhere(ps: PropertySet, name: string, v: Value, n: string)
    requires n != name
    ensures Lookup(Set(ps, name, v), n) == Lookup(ps, n)
  {
  }

  /** A run of `set` calls, one per write, in order. */
  function SetAll(ps: PropertySet, ws: seq<(string, Value)>): (r: PropertySet)
    decreases |ws|
  {
    if ws == [] then ps else SetAll(Set(ps, ws[0].0, ws[0].1), ws[1..])
  }

  /** None of the writes is to `n`. */
  predicate Untouched(ws: seq<(string, Value)>, n: string) {
    forall i :: 0 <= i < |ws| ==> ws[i].0 != n
  }

  /** A name no write uses keeps its value. */
  lemma {:induction false} SetAllElsewhere(ps: PropertySet, ws: seq<(string, Value)>, n: string)
    requires Untouched(ws, n)
    ensures Lookup(SetAll(ps, ws), n) == Lookup(ps, n)
    decreases |ws|
  {
    if ws != [] {
      assert Untouched(ws[1..], n) by {
        forall i | 0 <= i < |ws[1..]| ensures ws[1..][i].0 != n { assert ws[1..][i] == ws[i + 1]; }
      }
      SetAllElsewhere(Set(ps, ws[0].0, ws[0].1), ws[1..], n);
    }
  }

  /** A name holds the value of the last write to it. */
  lemma {:induction false} SetAllLast(ps: PropertySet, ws: seq<(string, Value)>, i: nat)
    requires i < |ws| && forall j :: i < j < |ws| ==> ws[j].0 != ws[i].0
    ensures Lookup(SetAll(ps, ws), ws[i].0) == Some(ws[i].1)
    decreases |ws|
  {
    if i == 0 {
      assert Untouched(ws[1..], ws[0].0) by {
        forall k | 0 <= k < |ws[1..]| ensures ws[1..][k].0 != ws[0].0 { assert ws[1..][k] == ws[k + 1]; }
      }
      SetAllElsewhere(Set(ps, ws[0].0, ws[0].1), ws[1..], ws[0].0);
    } else {
      assert ws[1..][i - 1] == ws[i];
      assert forall j :: i - 1 < j < |ws[1..]| ==> ws[1..][j].0 != ws[1..][i - 1].0 by {
        forall j | i - 1 < j < |ws[1..]| ensures ws[1..][j].0 != ws[1..][i - 1].0 { assert ws[1..][j] == ws[j + 1]; }
      }
      SetAllLast(Set(ps, ws[0].0, ws[0].1), ws[1..], i - 1);
    }
  }

  /** No two writes are to the same name. */
  predicate DistinctWrites(ws: seq<(string, Value)>) {
    forall i, j :: 0 <= i < j < |ws| ==> ws[i].0 != ws[j].0
  }

  /** With distinct names, every write is read back. */
  lemma SetAllWritten(ps: PropertySet, ws: seq<(string, Value)>)
    requires DistinctWrites(ws)
    ensures forall i :: 0 <= i < |ws| ==> Lookup(SetAll(ps, ws), ws[i].0) == Some(ws[i].1)
  {
    forall i | 0 <= i < |ws| ensures Lookup(SetAll(ps, ws), ws[i].0) == Some(ws[i].1) {
      SetAllLast(ps, ws, i);
    }
  }

  /** One write taken off the front of the writes from `k` on. */
  lemma SetAllUnfold(ps: PropertySet, ws: seq<(string, Value)>, k: nat)
    requires k < |ws|
    ensures SetAll(ps, ws[k..]) == SetAll(Set(ps, ws[k].0, ws[k].1), ws[k + 1..])
  {
    assert ws[k..][1..] == ws[k + 1..];
  }

  /** `remove(name)`: drops the name; nothing else changes. */
  function Remove(ps: PropertySet, name: string): (r: PropertySet)
    ensures Lookup(r, name) == None
    ensures forall n :: n != name ==> Lookup(r, n) == Lookup(ps, n)
  {
    if ps == [] then []
    else if ps[0].name == name then Remove(ps[1..], name)
    else [ps[0]] + Remove(ps[1..], name)
  }

  /** A name is found exactly when it is listed. */
  lemma {:induction false} LookupNames(ps: PropertySet, name: string)
    ensures Lookup(ps, name).None? <==> name !in Names(ps)
  {
    if ps != [] {
      LookupNames(ps[1..], name);
      assert Names(ps) == [ps[0].name] + Names(ps[1..]);
    }
  }

  /** `set` keeps the order of the names and adds a new name last. */
  lemma {:induction false} SetNames(ps: PropertySet, name: string, v: Value)
    ensures Exists(ps, name) ==> Names(Set(ps, name, v)) == Names(ps)
    ensures !Exists(ps, name) ==> Names(Set(ps, name, v)) == Names(ps) + [name]
  {
    if ps != [] && ps[0].name != name {
      SetNames(ps[1..], name, v);
      assert Names([ps[0]] + Set(ps[1..], name, v)) == [ps[0].name] + Names(Set(ps[1..], name, v));
      assert Names(ps) == [ps[0].name] + Names(ps[1..]);
    }
  }

  lemma SetKeepsDistinct(ps: PropertySet, name: string, v: Value)
    requires Distinct(ps)
    ensures Distinct(Set(ps, name, v))
  {
    SetNames(ps, name, v);
    LookupNames(ps, name);
  }

  lemma {:induction false} RemoveNames(ps: PropertySet, name: string)
    ensures forall n :: n in Names(Remove(ps, name)) ==> n in Names(ps)
  {
    if ps != [] {
      RemoveNames(ps[1..], name);
      assert Names(ps) == [ps[0].name] + Names(ps[1..]);
      if ps[0].name != name {
        assert Names([ps[0]] + Remove(ps[1..], name)) == [ps[0].name] + Names(Remove(ps[1..], name));
      }
    }
  }

  lemma {:induction false} RemoveKeepsDistinct(ps: PropertySet, name: string)
    requires Distinct(ps)
    ensures Distinct(Remove(ps, name))
  {
    if ps != [] {
      assert Names(ps) == [ps[0].name] + Names(ps[1..]);
      assert Distinct(ps[1..]);
      RemoveKeepsDistinct(ps[1..], name);
      RemoveNames(ps[1..], name);
      if ps[0].name != name {
        var rest := Remove(ps[1..], name);
        var ns := Names(ps);
        assert ps[0].name !in Names(ps[1..]) by {
          forall k | 0 <= k < |Names(ps[1..])| ensures Names(ps[1..])[k] != ps[0].name {
            assert Names(ps[1..])[k] == ns[k + 1];
          }
        }
        assert Names([ps[0]] + rest) == [ps[0].name] + Names(rest);
      }
    }
  }
}
