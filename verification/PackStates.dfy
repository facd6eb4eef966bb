/** The states of one download. */
module PackStates {
  datatype PackState = Queued | Running | Complete | Incomplete
}
