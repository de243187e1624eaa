/** The TYPE tags of src/EventTypes.cc, which decide the class a received
    message is turned into. */
module EventTypes {
  const EVENT: string := "_E"
  const LOG: string := "_L"
  const STATUS: string := "_S"
  const COMMAND: string := "_C"

  /** The four tags are pairwise different, so the factory's dispatch on
      TYPE is unambiguous. */
  lemma TagsDistinct()
    ensures EVENT != LOG && EVENT != STATUS && EVENT != COMMAND
    ensures LOG != STATUS && LOG != COMMAND && STATUS != COMMAND
  {
    assert EVENT[1] != LOG[1] && EVENT[1] != STATUS[1] && EVENT[1] != COMMAND[1];
    assert LOG[1] != STATUS[1] && LOG[1] != COMMAND[1] && STATUS[1] != COMMAND[1];
  }
}
