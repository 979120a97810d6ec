/** Failure-carrying results shared by every part of the model.

    The Python code signals failure by raising; here each failure is a value of
    `Error`, one constructor per kind of failure the core can raise. */
module Wrappers {

  /** The kinds of failure the core raises. */
  datatype Error =
    | InsufficientPadding   // pkcs1_v1_5_pad: target length leaves fewer than 8 filler bytes
    | MalformedPadding      // pkcs1_v1_5_unpad: block too short or no 00 00 separator
    | ValueTooLarge         // num_encryption / num_decryption: the number is not below n
    | DivisionByZero        // mod_inverse: `a // m` reached with m == 0 (a, m not coprime)

  datatype Option<+T> = None | Some(value: T)

  datatype Result<+T> = Ok(value: T) | Err(error: Error) {
    predicate IsFailure() {
      Err?
    }

    function PropagateFailure<U>(): Result<U>
      requires Err?
    {
      Err(error)
    }

    function Extract(): T
      requires Ok?
    {
      value
    }
  }
}
