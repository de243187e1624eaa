/** src/EventLibrary.cc: the ActiveMQ library is initialised at most once
    per process, behind the static flag `libraryInitialized`. */
module EventLibraries {

  class EventLibrary {
    /** `EventLibrary::libraryInitialized`. */
    var libraryInitialized: int
    /** How many times `ActiveMQCPP::initializeLibrary` has run. */
    var activemqInitializations: nat

    /** Only 0 and 1 are ever stored, and the library has run its
        initialisation exactly when the flag is 1. */
    predicate Valid()
      reads this
    {
      (libraryInitialized == 0 && activemqInitializations == 0) ||
      (libraryInitialized == 1 && activemqInitializations == 1)
    }

    /** The process starts with the flag at 0. */
    constructor ()
      ensures libraryInitialized == 0 && activemqInitializations == 0
      ensures Valid()
    {
      libraryInitialized := 0;
      activemqInitializations := 0;
    }

    /** `initializeLibrary`: the first call initialises the library and
        sets the flag; every later call does nothing. */
    method InitializeLibrary()
      modifies this
      ensures libraryInitialized == if old(libraryInitialized) == 0 then 1 else old(libraryInitialized)
      ensures old(libraryInitialized) == 0 ==> activemqInitializations == old(activemqInitializations) + 1
      ensures old(libraryInitialized) != 0 ==> activemqInitializations == old(activemqInitializations)
      ensures old(Valid()) ==> Valid() && libraryInitialized == 1 && activemqInitializations == 1
    {
      if libraryInitialized == 0 {
        activemqInitializations := activemqInitializations + 1;
        libraryInitialized := 1;
      }
    }
  }

  /** Any number of calls, from the first, initialise the library once. */
  method InitializeRepeatedly(lib: EventLibrary, calls: nat)
    requires lib.Valid()
    modifies lib
    ensures calls > 0 ==> lib.libraryInitialized == 1 && lib.activemqInitializations == 1
    ensures calls == 0 ==> lib.libraryInitialized == old(lib.libraryInitialized)
    ensures lib.Valid()
  {
    var i := 0;
    while i < calls
      invariant 0 <= i <= calls
      invariant lib.Valid()
      invariant i > 0 ==> lib.libraryInitialized == 1
      invariant i == 0 ==> lib.libraryInitialized == old(lib.libraryInitialized)
    {
      lib.InitializeLibrary();
      i := i + 1;
    }
  }
}
