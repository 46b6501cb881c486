/** The message carried on every edge: a payload plus an immutable header map. */
module Messages {
  import opened Wrappers
  import opened Values

  /**
   * `Message<T>`: `headers` is never updated in place; every operation that sets a
   * header or a payload returns a new message.
   */
  datatype Message<T> = Message(payload: T, headers: map<string, Value>) {

    /** `get(key)`: the header stored under `key`, `None` (null) when there is none. */
    function Get(key: string): (r: Option<Value>)
      ensures r.Some? <==> key in headers
      ensures r.Some? ==> r.value == headers[key]
    {
      if key in headers then Some(headers[key]) else None
    }

    /** `with(payload)`: a message with another payload and the same headers. */
    function With<U>(newPayload: U): (r: Message<U>)
      ensures r.payload == newPayload
      ensures forall k :: r.Get(k) == Get(k)
    {
      Message(newPayload, headers)
    }

    /** `with(key, value)`: a copy with one header set, all other headers and the payload kept. */
    function WithHeader(key: string, value: Value): (r: Message<T>)
      ensures r.payload == payload
      ensures r.Get(key) == Some(value)
      ensures forall k :: k != key ==> r.Get(k) == Get(k)
    {
      Message(payload, headers[key := value])
    }
  }

  /** `new Message<>(payload)`: a message without headers. */
  function Of<T>(payload: T): (m: Message<T>)
    ensures m.payload == payload
    ensures forall k :: m.Get(k) == None
  {
    Message(payload, map[])
  }

  /** `Message::payload` as a function value. */
  function PayloadOf<T>(m: Message<T>): T {
    m.payload
  }
}
