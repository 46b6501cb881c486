/**
 * The erased Java values that travel along the edges of a dataflow graph, and the
 * exceptions the modelled code throws.
 */
module Values {
  import opened Wrappers

  /**
   * Java generics are erased at runtime, so every edge carries plain objects. The
   * constructors cover what the library itself builds: strings, integers and booleans
   * from the examples, `Pair.pair(a, b)` built by the two-way zip and
   * `Tuple.tuple(a, b, c)` built by the three-way zip.
   */
  datatype Value =
    | Str(s: string)
    | Int(i: int)
    | Bool(b: bool)
    | Pair(left: Value, right: Value)
    | Tuple(items: seq<Value>)

  /** A failure signalled by a stream (the `Throwable` handed to `onError`). */
  datatype Throwable = Throwable(message: string)

  /** The exceptions thrown by the modelled operations; `None` is a `null` message. */
  datatype Exception =
    | NullPointerException(message: Option<string>)
    | IllegalArgumentException(message: Option<string>)
    | ClassCastException
    | RuntimeException(message: Option<string>)   // any other unchecked exception, thrown by user code
}
