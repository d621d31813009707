/** The few PHP value notions the library relies on. */
module Php {

  /** A PHP string is a sequence of bytes; here each byte is one char below 256. */
  predicate IsByteString(s: string)
  {
    forall i | 0 <= i < |s| :: s[i] as int < 256
  }

  type PhpString = s: string | IsByteString(s) witness ""

  /** A string-typed PHP parameter or property, which may also hold null. */
  datatype Value = Null | Str(s: PhpString)

  /** PHP's `empty()` (and falsiness) on such a value: null, "" and "0" are
      empty; every other string, including "00", " " and "false", is not. */
  predicate Empty(v: Value): (b: bool)
    ensures v.Null? ==> b
    ensures v.Str? && |v.s| >= 2 ==> !b
    ensures v.Str? && |v.s| == 1 ==> (b <==> v.s[0] == '0')
    ensures v.Str? && |v.s| == 0 ==> b
  {
    v == Null || v == Str("") || v == Str("0")
  }
}

/** The exceptions of the Sendloop\MTA\Exception namespace, and the
    datatypes that carry them instead of a throw. */
module Exceptions {
  import opened Php

  datatype Error =
    | InvalidArgument(message: string)
    | InvalidAPIKey
    | HTTPException(message: string)
    | Exception(message: string)

  datatype Option<+T> = None | Some(value: T)

  /** The outcome of a PHP call that returns a value or throws. */
  datatype Result<+T> = Ok(value: T) | Err(error: Error)

  /** The outcome of a PHP call that returns nothing or throws. */
  datatype Outcome = Pass | Fail(error: Error)
}
