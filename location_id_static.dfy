/** src/LocationID.cc: an id whose three fields are class statics. A new id,
    of any constructor, overwrites what every existing id reports. */
module LocationIDs {
  import opened Common
  import opened IdStatics

  class LocationID {
    /** The class's statics, shared by every instance. */
    const shared: Statics

    /** `LocationID()`: the host address and the pid (inputs here), and the
        counter's value, which is then incremented. */
    constructor Default(shared: Statics, hostIp: nat, pid: int)
      requires hostIp < TWO_32
      modifies shared
      ensures this.shared == shared
      ensures shared.ipAddress == StoredIP(hostIp) && shared.pid == pid
      ensures shared.localID == old(shared.localCounter)
      ensures shared.localCounter == old(shared.localCounter) + 1
    {
      this.shared := shared;
      shared.ipAddress := StoredIP(hostIp);
      shared.pid := pid;
      shared.localID := shared.localCounter;
      shared.localCounter := shared.localCounter + 1;
    }

    /** `LocationID(ip, pid, localID)`: a reconstituted id; the counter is
        left alone. */
    constructor (shared: Statics, ipAddress: int, pid: int, localID: int)
      modifies shared
      ensures this.shared == shared
      ensures shared.ipAddress == ipAddress && shared.pid == pid && shared.localID == localID
      ensures shared.localCounter == old(shared.localCounter)
    {
      this.shared := shared;
      shared.ipAddress := ipAddress;
      shared.pid := pid;
      shared.localID := localID;
    }

    /** The copy constructor: writes the shared values back onto
        themselves. */
    constructor Copy(id: LocationID)
      modifies id.shared
      ensures shared == id.shared
      ensures shared.ipAddress == old(id.shared.ipAddress) && shared.pid == old(id.shared.pid)
      ensures shared.localID == old(id.shared.localID) && shared.localCounter == old(id.shared.localCounter)
    {
      shared := id.shared;
      var ip, pid, local := id.shared.ipAddress, id.shared.pid, id.shared.localID;
      id.shared.ipAddress := ip;
      id.shared.pid := pid;
      id.shared.localID := local;
    }

    function GetIPAddress(): (ip: int) reads shared ensures ip == shared.ipAddress { shared.ipAddress }
    function GetProcessID(): (id: int) reads shared ensures id == shared.pid { shared.pid }
    function GetLocalID(): (id: int) reads shared ensures id == shared.localID { shared.localID }
  }

  /** Two default-constructed ids: both then report the second one's local
      id, one above the counter's value before the first. */
  method TwoDefaultIds(shared: Statics, hostIp: nat, pid: int) returns (first: LocationID, second: LocationID)
    requires hostIp < TWO_32
    modifies shared
    ensures first.shared == shared && second.shared == shared
    ensures first.GetLocalID() == second.GetLocalID() == old(shared.localCounter) + 1
    ensures shared.localCounter == old(shared.localCounter) + 2
  {
    first := new LocationID.Default(shared, hostIp, pid);
    second := new LocationID.Default(shared, hostIp, pid);
  }

  /** A reconstituted id changes what an earlier id reports. */
  method ReconstituteOverwrites(earlier: LocationID, ipAddress: int, pid: int, localID: int) returns (later: LocationID)
    modifies earlier.shared
    ensures later.shared == earlier.shared
    ensures earlier.GetIPAddress() == ipAddress && earlier.GetProcessID() == pid && earlier.GetLocalID() == localID
  {
    later := new LocationID(earlier.shared, ipAddress, pid, localID);
  }
}
