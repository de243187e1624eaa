/** src/LocationId.cc: the newer id, whose fields belong to each instance;
    only the counter is process wide. */
module LocationIds {

  /** `LocationId::_localCounter`. */
  class Counter {
    var localCounter: int

    constructor ()
      ensures localCounter == 0
    {
      localCounter := 0;
    }
  }

  class LocationId {
    const hostname: string
    const pid: int
    const localID: int

    /** `LocationId()`: the host name from `Host::getHost()` and the pid
        (inputs here), and the post-incremented counter. */
    constructor Default(counter: Counter, hostName: string, pid: int)
      modifies counter
      ensures hostname == hostName && this.pid == pid
      ensures localID == old(counter.localCounter) && counter.localCounter == old(counter.localCounter) + 1
    {
      hostname := hostName;
      this.pid := pid;
      localID := counter.localCounter;
      counter.localCounter := counter.localCounter + 1;
    }

    /** `LocationId(hostname, pid, localID)`: stores its arguments; no
        counter is involved. */
    constructor (hostname: string, pid: int, localID: int)
      ensures this.hostname == hostname && this.pid == pid && this.localID == localID
    {
      this.hostname := hostname;
      this.pid := pid;
      this.localID := localID;
    }

    constructor Copy(id: LocationId)
      ensures hostname == id.hostname && pid == id.pid && localID == id.localID
    {
      hostname := id.hostname;
      pid := id.pid;
      localID := id.localID;
    }

    function GetHostName(): (name: string) ensures name == hostname { hostname }
    function GetProcessID(): (id: int) ensures id == pid { pid }
    function GetLocalID(): (id: int) ensures id == localID { localID }
  }

  /** Successive default ids are numbered from the counter upwards, and a
      later id leaves an earlier one as it was. */
  method SuccessiveIds(counter: Counter, hostName: string, pid: int) returns (first: LocationId, second: LocationId)
    modifies counter
    ensures first.GetLocalID() == old(counter.localCounter) && second.GetLocalID() == first.GetLocalID() + 1
    ensures first.GetHostName() == second.GetHostName() == hostName
  {
    first := new LocationId.Default(counter, hostName, pid);
    var before := first.GetLocalID();
    second := new LocationId.Default(counter, hostName, pid);
    assert first.GetLocalID() == before;
  }
}
