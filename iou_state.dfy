/** The IOU state and its single command (IOUState and IOUContract.Create). */
module IouState {
  import opened Base

  /** An obligation of `borrower` towards `lender` of `value` (a Kotlin Int). */
  datatype IOUState = IOUState(value: Int32, lender: Party, borrower: Party)

  /** The parties an IOU state involves, lender first. */
  function Participants(s: IOUState): (r: seq<Party>)
    ensures |r| == 2 && r[0] == s.lender && r[1] == s.borrower
  {
    [s.lender, s.borrower]
  }
}
