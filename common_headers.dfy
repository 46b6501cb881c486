/** `CommonHeaders`: the two header names the library reserves, and lookups of them. */
module CommonHeaders {
  import opened Wrappers
  import opened Values
  import opened Messages

  /** The correlation key of a message. */
  const KEY: string := "fluid.key"

  /** The message a transformed message was derived from. */
  const ORIGINAL: string := "fluid.original"

  /**
   * `key(data)`: the `KEY` header cast to `String`; `null` when the header is absent,
   * a `ClassCastException` when it holds something other than a string.
   */
  function Key<T>(data: Message<T>): (r: Result<Option<string>, Exception>)
    ensures KEY !in data.headers <==> r == Ok(None)
    ensures KEY in data.headers && data.headers[KEY].Str? ==> r == Ok(Some(data.headers[KEY].s))
    ensures KEY in data.headers && !data.headers[KEY].Str? ==> r == Err(ClassCastException)
  {
    match data.Get(KEY)
    case None => Ok(None)
    case Some(Str(s)) => Ok(Some(s))
    case Some(_) => Err(ClassCastException)
  }

  /**
   * `keyOpt(data)`: the optional lookup of `KEY`. The cast to `Optional<String>` is
   * unchecked, so whatever is stored is returned.
   */
  function KeyOpt<T>(data: Message<T>): (r: Option<Value>)
    ensures r.Some? <==> KEY in data.headers
    ensures r.Some? ==> r.value == data.headers[KEY]
  {
    data.Get(KEY)
  }

  /** `original(data)`: the `ORIGINAL` header, `None` standing for `null` (the generic cast is unchecked). */
  function Original<T>(data: Message<T>): (r: Option<Value>)
    ensures r.Some? <==> ORIGINAL in data.headers
    ensures r.Some? ==> r.value == data.headers[ORIGINAL]
  {
    data.Get(ORIGINAL)
  }

  /** `originalOpt(data)`: the optional lookup of `ORIGINAL`, `None` standing for `Optional.empty()`. */
  function OriginalOpt<T>(data: Message<T>): (r: Option<Value>)
    ensures r.Some? <==> ORIGINAL in data.headers
    ensures r.Some? ==> r.value == data.headers[ORIGINAL]
  {
    data.Get(ORIGINAL)
  }

  /** The two reserved names are distinct. */
  lemma ReservedNamesDiffer()
    ensures KEY != ORIGINAL
  {
    assert KEY[6] != ORIGINAL[6];
  }

  /** Setting the correlation key leaves the original-message lookups unchanged, and conversely. */
  lemma ReservedHeadersIndependent<T>(data: Message<T>, v: Value)
    ensures Original(data.WithHeader(KEY, v)) == Original(data)
    ensures OriginalOpt(data.WithHeader(KEY, v)) == OriginalOpt(data)
    ensures KeyOpt(data.WithHeader(ORIGINAL, v)) == KeyOpt(data)
    ensures Key(data.WithHeader(ORIGINAL, v)) == Key(data)
  {
    ReservedNamesDiffer();
  }

  /** Once the key is set to a string, both lookups of it return that string. */
  lemma KeyAfterSet<T>(data: Message<T>, s: string)
    ensures Key(data.WithHeader(KEY, Str(s))) == Ok(Some(s))
    ensures KeyOpt(data.WithHeader(KEY, Str(s))) == Some(Str(s))
  {
  }
}
