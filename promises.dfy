/**
 * The outcome of an asynchronous operation as its awaiting caller sees it, and the
 * reasons the capture pipeline rejects with.
 */
module Promises {

  /** Rejection reasons: the pipeline's own three, and whatever a collaborator throws. */
  datatype Failure =
    | EmptyUrl             // `new Error('Empty URL')`
    | TabClosed            // the string 'Tab closed'
    | Timeout              // the string 'timeout'
    | Thrown(message: string)

  /** A promise's state; once it leaves `Pending` it never changes again. */
  datatype Settlement<+T> = Pending | Fulfilled(value: T) | Rejected(reason: Failure)

  /** Settling a promise: the first settlement wins, later ones are ignored. */
  function SettleOnce<T>(current: Settlement<T>, next: Settlement<T>): Settlement<T> {
    if current.Pending? then next else current
  }
}
