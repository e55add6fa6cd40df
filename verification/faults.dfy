/** The exceptions the scripts let escape, as values. */
module Faults {

  datatype Fault =
    | NoChildId          // IndexError: the session or profile lists no child
    | DateOutOfRange     // OverflowError: a datetime sum left the years 1..9999
    | NoFirstDraft       // IndexError: totalHits > 0 but the draft list is empty
    | ProfileUnavailable // ValueError: the profile request did not return 200
    | NoneNotSliceable   // TypeError: slicing the None that get_all_photos fell through to
}
