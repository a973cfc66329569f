/** Failure-carrying results shared by every component. */
module Wrappers {

  datatype Option<+T> = None | Some(value: T)

  /** Why a batch, a compilation, an alias or a host command was refused. */
  datatype Fault =
    | NotAnArray | NotAnObject | UnknownOp | InvalidId | DuplicateId | UnknownField | InvalidField | InvalidNumber
    | InvalidShape | InvalidTarget | UnknownReference
    | UnsupportedMapping | AliasFault | NoIdsReturned | HostRefused

  datatype Result<+T> = Ok(value: T) | Err(error: Fault) {
    predicate IsFailure() {
      Err?
    }

    function PropagateFailure<U>(): Result<U>
      requires Err?
    {
      Err(error)
    }

    function Extract(): T
      requires Ok?
    {
      value
    }
  }

  function MapSeq<T, U>(f: T -> U, s: seq<T>): (r: seq<U>)
    ensures |r| == |s|
    ensures forall i :: 0 <= i < |s| ==> r[i] == f(s[i])
  {
    seq(|s|, i requires 0 <= i < |s| => f(s[i]))
  }
}
