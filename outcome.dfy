/** How a call to the community-manager service ends. */
module Outcomes {
  import opened Wrappers

  /**
   * The value a call returns, a `SecurityException`, or a `SocialServiceException` with
   * its message (`None` for a null message).
   */
  datatype Outcome<T> = Returned(value: T) | SecurityFailure | ServiceFailure(message: Option<string>) {

    predicate IsFailure() {
      !Returned?
    }

    function PropagateFailure<U>(): Outcome<U>
      requires IsFailure()
    {
      if SecurityFailure? then SecurityFailure else ServiceFailure(message)
    }

    function Extract(): T
      requires Returned?
    {
      value
    }
  }

  /** A call whose text answer is then decoded: failures pass through unchanged. */
  function Decoded<T>(o: Outcome<string>, decode: string -> T): (r: Outcome<T>)
    ensures r.Returned? <==> o.Returned?
    ensures o.SecurityFailure? <==> r.SecurityFailure?
    ensures o.ServiceFailure? ==> r == ServiceFailure(o.message)
  {
    match o
    case Returned(text) => Returned(decode(text))
    case SecurityFailure => SecurityFailure
    case ServiceFailure(m) => ServiceFailure(m)
  }
}
