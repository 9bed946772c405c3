/** The statuses of a session whose setup is over, as its pump, its readers and its connections see them. */
module SessionStatus {
  datatype Status = Open | Closing | Closed | Error

  predicate Final(st: Status) { st == Closed || st == Error }
}
