/** src/OriginatorID.cc: the same shared-statics id as LocationID, with a
    counter of its own. */
module OriginatorIDs {
  import opened Common
  import opened IdStatics

  class OriginatorID {
    const shared: Statics

    /** `OriginatorID()`: host address, pid, and the post-incremented
        counter. */
    constructor Default(shared: Statics, hostIp: nat, pid: int)
      requires hostIp < TWO_32
      modifies shared
      ensures this.shared == shared
      ensures shared.ipAddress == StoredIP(hostIp) && shared.pid == pid
      ensures shared.localID == old(shared.localCounter)
      ensures shared.localCounter == old(shared.localCounter) + 1
    {
      this.shared := shared;
      shared.ipAddress := StoredIP(hostIp);
      shared.pid := pid;
      shared.localID := shared.localCounter;
      shared.localCounter := shared.localCounter + 1;
    }

    /** `OriginatorID(ip, pid, localID)`: sets the shared values; the counter
        is untouched. */
    constructor (shared: Statics, ipAddress: int, pid: int, localID: int)
      modifies shared
      ensures this.shared == shared
      ensures shared.ipAddress == ipAddress && shared.pid == pid && shared.localID == localID
      ensures shared.localCounter == old(shared.localCounter)
    {
      this.shared := shared;
      shared.ipAddress := ipAddress;
      shared.pid := pid;
      shared.localID := localID;
    }

    function GetIPAddress(): (ip: int) reads shared ensures ip == shared.ipAddress { shared.ipAddress }
    function GetProcessID(): (id: int) reads shared ensures id == shared.pid { shared.pid }
    function GetLocalID(): (id: int) reads shared ensures id == shared.localID { shared.localID }
  }

  /** The last constructor call wins for every instance. */
  method LastCallWins(shared: Statics, hostIp: nat, pid: int, ipAddress: int, otherPid: int, localID: int)
    returns (first: OriginatorID, second: OriginatorID)
    requires hostIp < TWO_32
    modifies shared
    ensures first.GetIPAddress() == second.GetIPAddress() == ipAddress
    ensures first.GetProcessID() == second.GetProcessID() == otherPid
    ensures first.GetLocalID() == second.GetLocalID() == localID
    ensures shared.localCounter == old(shared.localCounter) + 1
  {
    first := new OriginatorID.Default(shared, hostIp, pid);
    second := new OriginatorID(shared, ipAddress, otherPid, localID);
  }
}
