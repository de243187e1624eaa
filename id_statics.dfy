/** The class-level statics behind src/LocationID.cc, src/OriginatorID.cc and
    src/DestinationID.cc: each of those classes keeps its id fields and its
    counter as `static int`s, so one `Statics` object stands for one class's
    statics and every instance of that class reads it. */
module IdStatics {
  import opened Common

  class Statics {
    var localCounter: int
    var localID: int
    var ipAddress: int
    var pid: int

    /** The static initialisers: everything starts at 0. */
    constructor ()
      ensures localCounter == 0 && localID == 0 && ipAddress == 0 && pid == 0
    {
      localCounter := 0;
      localID := 0;
      ipAddress := 0;
      pid := 0;
    }
  }

  /** `host.getIPAddress() & 0x0FFFFFFFF` assigned to an `int`: the unsigned
      32-bit host address is masked (keeping all of it) and read back as a
      signed value. */
  function StoredIP(hostIp: nat): (r: int)
    requires hostIp < TWO_32
    ensures IsInt32(r)
    ensures r % TWO_32 == hostIp
    ensures hostIp <= INT32_MAX ==> r == hostIp
    ensures hostIp > INT32_MAX ==> r == hostIp - TWO_32
  {
    ToInt32(hostIp % TWO_32)
  }
}
