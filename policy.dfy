/** The pex Policy a transmitter or receiver is configured from: named
    values of a few types. Only the lookups the event classes make are
    modelled; each raises NameNotFound for a missing name and a type error
    for a value of another type. */
module Policies {
  import opened Common

  datatype PolicyValue = PString(s: string) | PBool(b: bool) | PInt(i: int)

  type Policy = map<string, PolicyValue>

  /** `policy.getString(name)`. */
  function GetString(p: Policy, name: string): (r: Result<string>)
    ensures r.Success? <==> name in p && p[name].PString?
    ensures r.Success? ==> p[name] == PString(r.value)
    ensures name !in p ==> r == Failure(NotFound(name))
  {
    if name !in p then Failure(NotFound(name))
    else if p[name].PString? then Success(p[name].s)
    else Failure(TypeMismatch(name))
  }

  /** `policy.getBool(name)`. */
  function GetBool(p: Policy, name: string): (r: Result<bool>)
    ensures r.Success? <==> name in p && p[name].PBool?
    ensures r.Success? ==> p[name] == PBool(r.value)
    ensures name !in p ==> r == Failure(NotFound(name))
  {
    if name !in p then Failure(NotFound(name))
    else if p[name].PBool? then Success(p[name].b)
    else Failure(TypeMismatch(name))
  }

  /** `policy.getInt(name)`. */
  function GetInt(p: Policy, name: string): (r: Result<int>)
    ensures r.Success? <==> name in p && p[name].PInt?
    ensures r.Success? ==> p[name] == PInt(r.value)
    ensures name !in p ==> r == Failure(NotFound(name))
  {
    if name !in p then Failure(NotFound(name))
    else if p[name].PInt? then Success(p[name].i)
    else Failure(TypeMismatch(name))
  }

  /** `getString(name, default)`, and a `getString` whose NameNotFound is
      caught and replaced by a default. */
  function GetStringOr(p: Policy, name: string, d: string): (r: Result<string>)
    ensures name !in p ==> r == Success(d)
    ensures name in p ==> r == GetString(p, name)
  {
    if name in p then GetString(p, name) else Success(d)
  }

  /** `getBool(name, default)`, and a caught `getBool`. */
  function GetBoolOr(p: Policy, name: string, d: bool): (r: Result<bool>)
    ensures name !in p ==> r == Success(d)
    ensures name in p ==> r == GetBool(p, name)
  {
    if name in p then GetBool(p, name) else Success(d)
  }

  /** A caught `getInt`. */
  function GetIntOr(p: Policy, name: string, d: int): (r: Result<int>)
    ensures name !in p ==> r == Success(d)
    ensures name in p ==> r == GetInt(p, name)
  {
    if name in p then GetInt(p, name) else Success(d)
  }
}
