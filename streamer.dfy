/** The streamer (src/streamer.py): it splits each hour of the dataset into
    500-row batches, publishes them on data channels with the final batch named
    `LAST`, replays a batch on request, and keeps the messages the bus refused in
    a FIFO that a drain pass retries. */
module Streamer {
  import opened Values
  import opened Text
  import opened Channels

  const BatchSize: nat := 500

  /** A dataset row: its CSV columns and the precomputed `hour` column. */
  datatype Row = Row(hour: int, record: Record)

  /** `get_data_hour`: the rows of one hour, in dataset order. */
  function DataHour(rows: seq<Row>, hour: int): (r: seq<Row>)
    ensures |r| <= |rows|
    ensures forall x :: x in r <==> x in rows && x.hour == hour
  {
    if rows == [] then []
    else (if rows[0].hour == hour then [rows[0]] else []) + DataHour(rows[1..], hour)
  }

  /** Selecting an hour distributes over concatenation: the filter keeps the
      dataset's order. */
  lemma {:induction false} DataHourAppend(a: seq<Row>, b: seq<Row>, hour: int)
    ensures DataHour(a + b, hour) == DataHour(a, hour) + DataHour(b, hour)
  {
    if a != [] {
      DataHourAppend(a[1..], b, hour);
      var head := if a[0].hour == hour then [a[0]] else [];
      assert (a + b)[0] == a[0] && (a + b)[1..] == a[1..] + b;
      assert DataHour(a + b, hour) == head + DataHour(a[1..] + b, hour);
      assert DataHour(a, hour) == head + DataHour(a[1..], hour);
    } else {
      assert a + b == b;
    }
  }

  /** `batch.to_json(orient='records')`: every row becomes one record that also
      carries the added `hour` column. The JSON text itself stays opaque. */
  function ToPayload(batch: seq<Row>): (p: Payload)
    ensures p.Batch? && |p.records| == |batch|
  {
    Batch(seq(|batch|, i requires 0 <= i < |batch| => batch[i].record["hour" := Int(batch[i].hour)]))
  }

  /** Python's slice `s[start:stop]` (and pandas `iloc`): negative bounds count from
      the end, bounds are clamped to the length, an inverted range is empty. */
  function PySlice<T>(s: seq<T>, start: int, stop: int): seq<T>
  {
    var lo := ClampIndex(start, |s|);
    var hi := ClampIndex(stop, |s|);
    if lo < hi then s[lo..hi] else []
  }

  function ClampIndex(i: int, n: nat): (r: nat)
    ensures r <= n
  {
    if i < 0 then (if i + n < 0 then 0 else i + n) else if i > n then n else i
  }

  /** With non-negative bounds a Python slice is the plain sub-sequence, cut at the end. */
  lemma PySliceNonNegative<T>(s: seq<T>, start: nat, stop: nat)
    requires start <= stop
    ensures PySlice(s, start, stop) == s[Min(start, |s|)..Min(stop, |s|)]
  {
  }

  function Min(a: nat, b: nat): nat { if a < b then a else b }

  /** The number of batches of an hour with `n` rows: `len(range(0, n, 500))`. */
  function NumBatches(n: nat): nat { (n + BatchSize - 1) / BatchSize }

  /** Rows `[500 i, min(500 i + 500, n))`, `data_hour.iloc[offset:offset + 500]`. */
  function Slice(data: seq<Row>, i: nat): seq<Row>
    requires i < NumBatches(|data|)
  {
    data[i * BatchSize .. Min(i * BatchSize + BatchSize, |data|)]
  }

  /** The batches of an hour, in publication order. */
  function Batches(data: seq<Row>): (bs: seq<seq<Row>>)
    ensures |bs| == NumBatches(|data|)
  {
    seq(NumBatches(|data|), i requires 0 <= i < NumBatches(|data|) => Slice(data, i))
  }

  /** The index label of batch `i`: `LAST` when `offset + 500 >= n`, the number otherwise. */
  function Label(i: nat, n: nat): string
  {
    if i * BatchSize + BatchSize >= n then Sentinel else IntToString(i)
  }

  /** The messages one hour's pass of `publish_data_thread` publishes, in order. */
  function HourMessages(rows: seq<Row>, hour: int): (ms: seq<Message>)
    ensures |ms| == NumBatches(|DataHour(rows, hour)|)
  {
    var data := DataHour(rows, hour);
    var bs := Batches(data);
    seq(|bs|, i requires 0 <= i < |bs| =>
      Message(DataChannel(Label(i, |data|), IntToString(hour)), ToPayload(bs[i])))
  }

  /** Message `i` of an hour: batch `i` of its rows, under its label. */
  lemma HourMessageAt(rows: seq<Row>, hour: int, i: nat)
    requires i < NumBatches(|DataHour(rows, hour)|)
    ensures var data := DataHour(rows, hour);
      HourMessages(rows, hour)[i] ==
        Message(DataChannel(Label(i, |data|), IntToString(hour)), ToPayload(data[i * BatchSize .. Min(i * BatchSize + BatchSize, |data|)]))
  {
  }

  /** Batch sizes: every batch but the last holds exactly 500 rows, the last holds
      between 1 and 500, and an empty hour has no batch at all. */
  lemma BatchShape(data: seq<Row>)
    ensures |data| == 0 <==> Batches(data) == []
    ensures forall i :: 0 <= i < |Batches(data)| - 1 ==> |Batches(data)[i]| == BatchSize
    ensures |data| > 0 ==> 1 <= |Batches(data)[|Batches(data)| - 1]| <= BatchSize
  {
  }

  /** Only the final batch is labelled `LAST`; all others carry their own index. */
  lemma LabelsOfHour(n: nat, i: nat)
    requires i < NumBatches(n)
    ensures Label(i, n) == Sentinel <==> i == NumBatches(n) - 1
    ensures i < NumBatches(n) - 1 ==> Label(i, n) == IntToString(i)
  {
    if i < NumBatches(n) - 1 {
      assert i * BatchSize + BatchSize < n;
      assert IntToString(i) != Sentinel by {
        assert IntToString(i)[0] != 'L';
      }
    }
  }

  function Flatten<T>(bs: seq<seq<T>>): seq<T>
  {
    if bs == [] then [] else Flatten(bs[..|bs| - 1]) + bs[|bs| - 1]
  }

  lemma {:induction false} FlattenPrefix(data: seq<Row>, j: nat)
    requires j <= NumBatches(|data|)
    ensures Flatten(Batches(data)[..j]) == data[..Min(j * BatchSize, |data|)]
  {
    if j > 0 {
      var bs := Batches(data);
      FlattenPrefix(data, j - 1);
      assert bs[..j][..j - 1] == bs[..j - 1];
      assert bs[j - 1] == Slice(data, j - 1);
      assert data[..Min(j * BatchSize, |data|)]
          == data[..(j - 1) * BatchSize] + data[(j - 1) * BatchSize .. Min(j * BatchSize, |data|)];
    }
  }

  /** The batches concatenate to the hour's rows, in order. */
  lemma BatchesConcatenate(data: seq<Row>)
    ensures Flatten(Batches(data)) == data
  {
    var k := NumBatches(|data|);
    FlattenPrefix(data, k);
    assert Batches(data)[..k] == Batches(data);
  }

  /** The number of leading successful attempts among `n` attempts from `a`. */
  function LeadingUp(up: nat -> bool, a: nat, n: nat): (j: nat)
    ensures j <= n
    decreases n
  {
    if n == 0 || !up(a) then 0 else 1 + LeadingUp(up, a + 1, n - 1)
  }

  /** The streamer's outbound state: what the bus accepted, the `pending_data`
      FIFO, and the number of publish attempts made (which selects the outcome of
      the next one). */
  datatype Outbox = Outbox(sent: seq<Message>, pending: seq<Message>, attempts: nat)

  /** `publish_data`: attempt `up(attempts)`; on failure the message goes to the tail
      of the FIFO. */
  function Publish(o: Outbox, m: Message, up: nat -> bool): Outbox
  {
    if up(o.attempts) then Outbox(o.sent + [m], o.pending, o.attempts + 1)
    else Outbox(o.sent, o.pending + [m], o.attempts + 1)
  }

  /** Publishing the messages one after the other. */
  function PublishAll(o: Outbox, ms: seq<Message>, up: nat -> bool): Outbox
  {
    if ms == [] then o else Publish(PublishAll(o, ms[..|ms| - 1], up), ms[|ms| - 1], up)
  }

  /** One publish keeps every message: accepted at the tail of `sent` or queued at
      the tail of `pending`, and uses one attempt. */
  lemma PublishKeeps(o: Outbox, m: Message, up: nat -> bool)
    ensures var r := Publish(o, m, up);
      && multiset(r.sent + r.pending) == multiset(o.sent + o.pending) + multiset{m}
      && r.attempts == o.attempts + 1
      && |r.sent| >= |o.sent| && r.sent[..|o.sent|] == o.sent
      && |r.pending| >= |o.pending| && r.pending[..|o.pending|] == o.pending
  {
    var r := Publish(o, m, up);
    if up(o.attempts) {
      assert r.sent + r.pending == o.sent + [m] + o.pending;
      assert (o.sent + [m])[..|o.sent|] == o.sent;
    } else {
      assert r.sent + r.pending == (o.sent + o.pending) + [m];
      assert (o.pending + [m])[..|o.pending|] == o.pending;
    }
  }

  /** Publishing never loses a message: each one is either accepted by the bus, in
      order after what was accepted before, or queued; one attempt is used per message. */
  lemma {:induction false} PublishAllKeepsEverything(o: Outbox, ms: seq<Message>, up: nat -> bool)
    ensures var r := PublishAll(o, ms, up);
      && multiset(r.sent + r.pending) == multiset(o.sent + o.pending) + multiset(ms)
      && r.attempts == o.attempts + |ms|
      && |r.sent| >= |o.sent| && r.sent[..|o.sent|] == o.sent
      && |r.pending| >= |o.pending| && r.pending[..|o.pending|] == o.pending
  {
    if ms != [] {
      var ms' := ms[..|ms| - 1];
      var m := ms[|ms| - 1];
      PublishAllKeepsEverything(o, ms', up);
      var p := PublishAll(o, ms', up);
      PublishKeeps(p, m, up);
      assert ms == ms' + [m];
      var r := Publish(p, m, up);
      assert r.sent[..|o.sent|] == r.sent[..|p.sent|][..|o.sent|];
      assert r.pending[..|o.pending|] == r.pending[..|p.pending|][..|o.pending|];
    }
  }

  /** Publishing one more message of a sequence. */
  lemma PublishAllStep(o: Outbox, ms: seq<Message>, i: nat, up: nat -> bool)
    requires i < |ms|
    ensures PublishAll(o, ms[..i + 1], up) == Publish(PublishAll(o, ms[..i], up), ms[i], up)
  {
    assert ms[..i + 1][..i] == ms[..i];
  }

  /** Publishing a concatenation is publishing its parts one after the other. */
  lemma {:induction false} PublishAllAppend(o: Outbox, a: seq<Message>, b: seq<Message>, up: nat -> bool)
    ensures PublishAll(o, a + b, up) == PublishAll(PublishAll(o, a, up), b, up)
  {
    if b == [] {
      assert a + b == a;
    } else {
      PublishAllAppend(o, a, b[..|b| - 1], up);
      assert (a + b)[..|a + b| - 1] == a + b[..|b| - 1];
    }
  }

  /** The messages of the first `hours` hours of a pass of `publish_data_thread`. */
  function DayMessages(rows: seq<Row>, hours: nat): seq<Message>
  {
    if hours == 0 then [] else DayMessages(rows, hours - 1) + HourMessages(rows, hours - 1)
  }

  /** `send_pending_data`: nothing when the FIFO is empty; otherwise pop the head and
      publish it, repeatedly, until the FIFO is empty or an attempt fails, in which
      case the failed message goes back to the tail and the pass stops. */
  function Drain(o: Outbox, up: nat -> bool): Outbox
    decreases |o.pending|
  {
    if o.pending == [] then o
    else if up(o.attempts) then Drain(Outbox(o.sent + [o.pending[0]], o.pending[1..], o.attempts + 1), up)
    else Outbox(o.sent, o.pending[1..] + [o.pending[0]], o.attempts + 1)
  }

  /** The drain pass exactly: with `j` leading successful attempts, the first `j`
      queued messages are delivered in FIFO order; if some message fails it is
      re-queued at the tail behind the rest and the pass makes no further attempt. */
  lemma {:induction false} DrainFifo(o: Outbox, up: nat -> bool)
    ensures var j := LeadingUp(up, o.attempts, |o.pending|);
      var r := Drain(o, up);
      && r.sent == o.sent + o.pending[..j]
      && (j == |o.pending| ==> r.pending == [] && r.attempts == o.attempts + j)
      && (j < |o.pending| ==> r.pending == o.pending[j + 1..] + [o.pending[j]] && r.attempts == o.attempts + j + 1)
    decreases |o.pending|
  {
    if o.pending != [] && up(o.attempts) {
      var o' := Outbox(o.sent + [o.pending[0]], o.pending[1..], o.attempts + 1);
      DrainFifo(o', up);
      var j' := LeadingUp(up, o'.attempts, |o'.pending|);
      assert o.pending[..j' + 1] == [o.pending[0]] + o'.pending[..j'];
      ConcatAssociates(o.sent, [o.pending[0]], o'.pending[..j']);
      if j' < |o'.pending| {
        assert o'.pending[j' + 1..] == o.pending[j' + 2..];
      }
    }
  }

  /** A drain pass never loses or duplicates a message. */
  lemma {:induction false} DrainKeepsEverything(o: Outbox, up: nat -> bool)
    ensures multiset(Drain(o, up).sent + Drain(o, up).pending) == multiset(o.sent + o.pending)
    decreases |o.pending|
  {
    if o.pending != [] {
      var p := o.pending;
      assert p == [p[0]] + p[1..];
      if up(o.attempts) {
        var o' := Outbox(o.sent + [p[0]], p[1..], o.attempts + 1);
        DrainKeepsEverything(o', up);
        assert o'.sent + o'.pending == o.sent + p;
      } else {
        assert multiset(o.sent + (p[1..] + [p[0]])) == multiset(o.sent) + multiset(p[1..]) + multiset([p[0]]);
      }
    }
  }

  /** `get_data_hour_batch`: `int(hour)` and `int(batch_index)` (ValueError on a
      non-numeric one, `LAST` included), then rows `[500 i, 500 i + 500)` of that
      hour as Python slices them. */
  function DataHourBatch(rows: seq<Row>, index: string, hour: string): Result<Payload>
  {
    match ParseInt(hour)
    case None => Err(ValueError)
    case Some(h) =>
      match ParseInt(index)
      case None => Err(ValueError)
      case Some(i) => Ok(ToPayload(PySlice(DataHour(rows, h), i * BatchSize, i * BatchSize + BatchSize)))
  }

  /** Replay is deterministic: the batch replayed for index `i` is exactly the batch
      originally published as number `i` of the hour, the final one included. */
  lemma ReplayMatchesOriginal(rows: seq<Row>, hour: int, i: nat)
    requires i < NumBatches(|DataHour(rows, hour)|)
    ensures DataHourBatch(rows, IntToString(i), IntToString(hour)) == Ok(HourMessages(rows, hour)[i].data)
  {
    ParseIntToString(i);
    ParseIntToString(hour);
    var data := DataHour(rows, hour);
    PySliceNonNegative(data, i * BatchSize, i * BatchSize + BatchSize);
    assert i * BatchSize <= |data|;
    var batch := data[i * BatchSize .. Min(i * BatchSize + BatchSize, |data|)];
    assert PySlice(data, i * BatchSize, i * BatchSize + BatchSize) == batch;
    HourMessageAt(rows, hour, i);
    assert HourMessages(rows, hour)[i].data == ToPayload(batch);
  }

  /** A replay request past the end of the hour yields an empty batch. */
  lemma ReplayPastEndIsEmpty(rows: seq<Row>, hour: int, i: nat)
    requires i * BatchSize >= |DataHour(rows, hour)|
    ensures DataHourBatch(rows, IntToString(i), IntToString(hour)) == Ok(Batch([]))
  {
    ParseIntToString(i);
    ParseIntToString(hour);
    PySliceNonNegative(DataHour(rows, hour), i * BatchSize, i * BatchSize + BatchSize);
  }

  /** A replay request for `LAST` raises ValueError. */
  lemma ReplayOfLastFails(rows: seq<Row>, hour: string)
    ensures DataHourBatch(rows, Sentinel, hour) == Err(ValueError)
  {
    LastIsNotNumeric();
  }

  /** What one event of the replay subscription loop did. */
  datatype ReplayOutcome = Ignored | Replayed(channel: string) | Crashed(error: Error)

  class StreamerNode {
    /** The dataset read at start-up, with its hour column. */
    const dataset: seq<Row>
    /** Whether the bus accepts the k-th publish attempt. */
    const busUp: nat -> bool

    var sent: seq<Message>
    var pending: seq<Message>
    var attempts: nat

    function Box(): Outbox
      reads this
    {
      Outbox(sent, pending, attempts)
    }

    constructor (dataset: seq<Row>, busUp: nat -> bool)
      ensures this.dataset == dataset && this.busUp == busUp
      ensures Box() == Outbox([], [], 0)
    {
      this.dataset := dataset;
      this.busUp := busUp;
      sent, pending, attempts := [], [], 0;
    }

    /** `publish_data(channel, message)`. */
    method PublishData(m: Message)
      modifies this
      ensures Box() == Publish(old(Box()), m, busUp)
      ensures busUp(old(attempts)) ==> pending == old(pending)
      ensures !busUp(old(attempts)) ==> pending == old(pending) + [m]
    {
      if busUp(attempts) {
        sent := sent + [m];
      } else {
        pending := pending + [m];
      }
      attempts := attempts + 1;
    }

    /** One hour of the batching loop in `publish_data_thread`. */
    method PublishHour(hour: int)
      modifies this
      ensures Box() == PublishAll(old(Box()), HourMessages(dataset, hour), busUp)
    {
      var data := DataHour(dataset, hour);
      var n := |data|;
      ghost var ms := HourMessages(dataset, hour);
      var batchIndex: nat := 0;
      var offset: nat := 0;
      while offset < n
        invariant offset == batchIndex * BatchSize
        invariant batchIndex <= NumBatches(n)
        invariant Box() == PublishAll(old(Box()), ms[..batchIndex], busUp)
      {
        PublishAllStep(old(Box()), ms, batchIndex, busUp);
        PublishBatch(hour, data, offset, batchIndex);
        batchIndex := batchIndex + 1;
        offset := offset + BatchSize;
      }
      assert ms[..batchIndex] == ms;
    }

    /** The body of the batching loop: rows `[offset, offset + 500)` published under
        `LAST` when they reach the end of the hour, under their index otherwise. */
    method PublishBatch(hour: int, data: seq<Row>, offset: nat, batchIndex: nat)
      requires data == DataHour(dataset, hour)
      requires offset == batchIndex * BatchSize && offset < |data|
      modifies this
      ensures batchIndex < |HourMessages(dataset, hour)|
      ensures Box() == Publish(old(Box()), HourMessages(dataset, hour)[batchIndex], busUp)
    {
      var n := |data|;
      var batch := data[offset .. Min(offset + BatchSize, n)];
      HourMessageAt(dataset, hour, batchIndex);
      var index := if offset + BatchSize >= n then Sentinel else IntToString(batchIndex);
      var m := Message(DataChannel(index, IntToString(hour)), ToPayload(batch));
      PublishData(m);
    }

    /** One pass of the outer loop of `publish_data_thread`: hours 0 to 23 in order. */
    method PublishDay()
      modifies this
      ensures Box() == PublishAll(old(Box()), DayMessages(dataset, 24), busUp)
    {
      for hour := 0 to 24
        invariant Box() == PublishAll(old(Box()), DayMessages(dataset, hour), busUp)
      {
        PublishHour(hour);
        PublishAllAppend(old(Box()), DayMessages(dataset, hour), HourMessages(dataset, hour), busUp);
      }
    }

    /** `send_pending_data`. */
    method SendPendingData()
      modifies this
      ensures Box() == Drain(old(Box()), busUp)
    {
      if pending == [] {
        return;
      }
      while pending != []
        invariant Drain(Box(), busUp) == Drain(old(Box()), busUp)
        decreases |pending|
      {
        var m := pending[0];
        pending := pending[1..];
        if busUp(attempts) {
          sent := sent + [m];
          attempts := attempts + 1;
        } else {
          pending := pending + [m];
          attempts := attempts + 1;
          return;
        }
      }
    }

    /** One event of `listening_incoming_messages`: a request on
        `weather_channel:request:{index}:{hour}` republishes that batch on
        `weather_channel:data:{index}:{hour}` with the request's own strings. */
    method HandleRequest(ev: Event) returns (out: ReplayOutcome)
      modifies this
      ensures ev.PMessage? && StreamerParts(ev.msg.channel).None? ==> out == Crashed(ValueError) && Box() == old(Box())
      ensures out.Replayed? ==>
        (&& ev.PMessage? && StreamerParts(ev.msg.channel).Some?
         && var p := StreamerParts(ev.msg.channel).value;
            && StartsWith(ev.msg.channel, "weather_channel:request:")
            && DataHourBatch(dataset, p.index, p.hour).Ok?
            && out.channel == DataChannel(p.index, p.hour)
            && Box() == Publish(old(Box()), Message(out.channel, DataHourBatch(dataset, p.index, p.hour).value), busUp))
      ensures !out.Replayed? ==> Box() == old(Box())
      ensures !ev.PMessage? ==> out == Ignored
      ensures ev.PMessage? && StreamerParts(ev.msg.channel).Some? && !StartsWith(ev.msg.channel, "weather_channel:request:") ==> out == Ignored
      ensures ev.PMessage? && StreamerParts(ev.msg.channel).Some? && StartsWith(ev.msg.channel, "weather_channel:request:") ==>
        var p := StreamerParts(ev.msg.channel).value;
        var batch := DataHourBatch(dataset, p.index, p.hour);
        && (out.Replayed? <==> batch.Ok?)
        && (batch.Err? ==> out == Crashed(batch.error))
    {
      if !ev.PMessage? {
        return Ignored;
      }
      var parts := StreamerParts(ev.msg.channel);
      if parts.None? {
        return Crashed(ValueError);
      }
      if !StartsWith(ev.msg.channel, "weather_channel:request:") {
        return Ignored;
      }
      var p := parts.value;
      var batch := DataHourBatch(dataset, p.index, p.hour);
      if batch.Err? {
        return Crashed(batch.error);
      }
      var channel := DataChannel(p.index, p.hour);
      PublishData(Message(channel, batch.value));
      out := Replayed(channel);
    }
  }
}
