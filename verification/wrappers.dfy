/** Failure-carrying results for the codec.

    The printer script signals failure in three ways: it raises (ValueError
    from a checksum or envelope check, ValueError from an IntEnum constructor,
    struct.error from a size mismatch), or it returns None. Raising becomes
    `Err(...)` of `Result`; returning None becomes `None` of `Option`. */
module Wrappers {

  datatype Option<+T> = None | Some(value: T)

  /** Why an operation raised, with the data the exception carries. */
  datatype Error =
    | InvalidChecksum(provided: seq<int>, computed: seq<int>)  // validate_checksum
    | InvalidResponse(response: seq<int>)                      // clean_serial_response
    | StructSize(expected: nat, actual: nat)                   // struct.unpack on a buffer of the wrong size
    | NotEnumMember(enumName: string, value: int)              // IntEnum(value) for an unlisted value
    | InputTooShort(length: nat)                               // judge_serial_number_is_ok

  datatype Result<+T> = Ok(value: T) | Err(error: Error) {
    predicate IsFailure() { Err? }

    function PropagateFailure<U>(): Result<U>
      requires Err?
    {
      Err(error)
    }

    function Extract(): T
      requires Ok?
    {
      value
    }
  }
}
