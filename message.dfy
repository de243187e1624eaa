/** The CMS text message an event travels in: typed header properties and a
    body. The body is the JSON text of the event's custom properties; since
    the JSON codec is not modelled, the body carries that property set itself. */
module Messages {
  import opened Common
  import opened PropertySets

  datatype HeaderValue = HStr(s: string) | HInt(i: int) | HLong(l: int)

  type Header = map<string, HeaderValue>

  datatype TextMessage = TextMessage(header: Header, body: PropertySet)

  /** `getStringProperty(name)`: a missing property, or one of another
      type, raises a CMSException. */
  function GetStringProperty(h: Header, name: string): (r: Result<string>)
    ensures r.Success? <==> name in h && h[name].HStr?
    ensures r.Success? ==> h[name] == HStr(r.value)
    ensures r.Failure? ==> r.error.CmsError?
  {
    if name in h && h[name].HStr? then Success(h[name].s) else Failure(CmsError(name))
  }

  /** `getIntProperty(name)`. */
  function GetIntProperty(h: Header, name: string): (r: Result<int>)
    ensures r.Success? <==> name in h && h[name].HInt?
    ensures r.Success? ==> h[name] == HInt(r.value)
    ensures r.Failure? ==> r.error.CmsError?
  {
    if name in h && h[name].HInt? then Success(h[name].i) else Failure(CmsError(name))
  }

  /** `getLongProperty(name)`. */
  function GetLongProperty(h: Header, name: string): (r: Result<int>)
    ensures r.Success? <==> name in h && h[name].HLong?
    ensures r.Success? ==> h[name] == HLong(r.value)
    ensures r.Failure? ==> r.error.CmsError?
  {
    if name in h && h[name].HLong? then Success(h[name].l) else Failure(CmsError(name))
  }
}
