/** Shared result types for calls that may fail. */
module Common {

  datatype Option<+T> = None | Some(value: T)

  /** Go's uint16. */
  type uint16 = n: int | 0 <= n < 0x1_0000

  /** A Go (value, error) pair in which exactly one side is meaningful. */
  datatype Result<+T, +E> = Ok(value: T) | Err(error: E)

  /** An equality-based label selector matches what carries all its labels. */
  predicate Selects(selector: map<string, string>, labels: map<string, string>) {
    forall k :: k in selector ==> k in labels && labels[k] == selector[k]
  }
}
