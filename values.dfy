/** Values shared by every component: optional and failing results, the Python
    exceptions the core raises, JSON-like record values, store points and bus
    messages. */
module Values {

  datatype Option<+T> = None | Some(value: T)

  /** The Python exceptions the modelled code can raise. */
  datatype Error =
    | IndexError      // a channel name with too few `:`-separated parts
    | ValueError      // `int(...)` on a non-numeric string, or a wrong number of parts to unpack
    | KeyError        // a missing dictionary key
    | ClientError     // the store client rejected a write (InfluxDBClientError)

  datatype Result<+T> = Ok(value: T) | Err(error: Error)

  /** A decoded JSON / store value. Python's `None` is `Null`. */
  datatype Value = Null | Str(s: string) | Int(i: int) | Real(r: real) | Bool(b: bool)

  /** A record is a Python dict from column name to value. */
  type Record = map<string, Value>

  /** `d.get(k)`: the value under `k`, or `None` when the key is absent. */
  function Get(d: map<string, Value>, k: string): Value
  {
    if k in d then d[k] else Null
  }

  /** A point handed to the time-series store's `write_points`. */
  datatype Point = Point(measurement: string, tags: map<string, Value>, fields: map<string, Value>, time: Value)

  /** A message payload as JSON text; the serialisation itself is opaque: either it
      decodes to a list of records or `json.loads` rejects it. */
  datatype Payload = Batch(records: seq<Record>) | Undecodable

  /** A pub/sub `pmessage`: the channel it arrived on and its data. */
  datatype Message = Message(channel: string, data: Payload)

  /** What a subscription loop's `listen()` yields: a pattern message, any other
      message type (subscription confirmations), or a lost bus connection. */
  datatype Event = PMessage(msg: Message) | OtherType | Disconnect

  // Sequence facts stated on their own, so that proofs about long or deeply
  // nested elements do not have to rediscover them.

  lemma TailOfConcat<T>(a: seq<T>, b: seq<T>)
    requires a != []
    ensures (a + b)[0] == a[0] && (a + b)[1..] == a[1..] + b
  {
  }

  lemma ConcatAssociates<T>(a: seq<T>, b: seq<T>, c: seq<T>)
    ensures a + (b + c) == (a + b) + c
  {
  }
}
