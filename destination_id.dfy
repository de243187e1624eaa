/** src/DestinationID.cc: a shared-statics id with its own counter,
    constructible from an OriginatorID. */
module DestinationIDs {
  import opened Common
  import opened IdStatics
  import OriginatorIDs

  class DestinationID {
    const shared: Statics

    constructor Default(shared: Statics, hostIp: nat, pid: int)
      requires hostIp < TWO_32
      modifies shared
      ensures this.shared == shared
      ensures shared.ipAddress == StoredIP(hostIp) && shared.pid == pid
      ensures shared.localID == old(shared.localCounter)
      ensures shared.localCounter == old(shared.localCounter) + 1
    {
      this.shared := shared;
      shared.ipAddress := StoredIP(hostIp);
      shared.pid := pid;
      shared.localID := shared.localCounter;
      shared.localCounter := shared.localCounter + 1;
    }

    /** `DestinationID(const OriginatorID&)`: copies the originator's values;
        neither counter moves. */
    constructor FromOriginator(shared: Statics, id: OriginatorIDs.OriginatorID)
      modifies shared
      ensures this.shared == shared
      ensures shared.ipAddress == old(id.GetIPAddress()) && shared.pid == old(id.GetProcessID())
      ensures shared.localID == old(id.GetLocalID())
      ensures shared.localCounter == old(shared.localCounter)
      ensures shared != id.shared ==> unchanged(id.shared)
    {
      this.shared := shared;
      var ip, pid, local := id.GetIPAddress(), id.GetProcessID(), id.GetLocalID();
      shared.ipAddress := ip;
      shared.pid := pid;
      shared.localID := local;
    }

    constructor (shared: Statics, ipAddress: int, pid: int, localID: int)
      modifies shared
      ensures this.shared == shared
      ensures shared.ipAddress == ipAddress && shared.pid == pid && shared.localID == localID
      ensures shared.localCounter == old(shared.localCounter)
    {
      this.shared := shared;
      shared.ipAddress := ipAddress;
      shared.pid := pid;
      shared.localID := localID;
    }

    function GetIPAddress(): (ip: int) reads shared ensures ip == shared.ipAddress { shared.ipAddress }
    function GetProcessID(): (id: int) reads shared ensures id == shared.pid { shared.pid }
    function GetLocalID(): (id: int) reads shared ensures id == shared.localID { shared.localID }
  }

  /** The two classes count independently: making an OriginatorID and a
      DestinationID by default gives each the value of its own counter. */
  method IndependentCounters(origStatics: Statics, destStatics: Statics, hostIp: nat, pid: int)
    returns (o: OriginatorIDs.OriginatorID, d: DestinationID)
    requires hostIp < TWO_32 && origStatics != destStatics
    modifies origStatics, destStatics
    ensures o.GetLocalID() == old(origStatics.localCounter) && d.GetLocalID() == old(destStatics.localCounter)
    ensures origStatics.localCounter == old(origStatics.localCounter) + 1
    ensures destStatics.localCounter == old(destStatics.localCounter) + 1
  {
    o := new OriginatorIDs.OriginatorID.Default(origStatics, hostIp, pid);
    d := new DestinationID.Default(destStatics, hostIp, pid);
  }
}
