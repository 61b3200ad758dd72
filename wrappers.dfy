// Option and Result, used wherever the Python code returns None or raises,
// and two facts about sequence prefixes that the loops over lists use.

module Wrappers {
  datatype Option<T> = None | Some(value: T)

  /** The exception classes the modelled code raises or catches. */
  datatype Error =
    | ValueError(msg: string)
    | FileNotFoundError(path: string)
    | IndexError
    | RuntimeError(msg: string)
    | Timeout

  datatype Result<T> = Ok(value: T) | Err(error: Error)
  {
    predicate IsOk() { Ok? }
  }

  /** One more element read: the prefix grows by it. */
  lemma SnocSlice<T>(s: seq<T>, i: nat)
    requires i < |s|
    ensures s[..i] + [s[i]] == s[..i + 1]
  {
  }

  /** The loop bound reached: the prefix is everything. */
  lemma WholePrefix<T>(s: seq<T>)
    ensures s[..|s|] == s
  {
  }
}
