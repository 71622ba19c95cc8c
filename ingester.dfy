/** The ingester (src/ingester.py): it caches every data message, records for
    each hour the set of batch slots received, flushes an hour's cached batches
    to the store once slots 0..87 are all present, notifies the processor, drops
    the hour's messages from the cache, and otherwise asks the streamer for a
    missing batch once a `LAST` has been seen. */
module Ingester {
  import opened Values
  import opened Text
  import opened Channels

  /** `num_batches_per_hour`. */
  const BatchesPerHour: nat := 88
  /** The slot a `LAST` batch fills: `num_batches_per_hour - 1`. */
  const LastSlot: nat := BatchesPerHour - 1

  /** The hour part of a cached message's channel, `get_parts(channel)[3]`. */
  function HourOf(m: Message): Option<string>
  {
    match IngesterParts(m.channel)
    case None => None
    case Some(p) => Some(p.hour)
  }

  /** The slot a batch index fills: slot 87 for `LAST`, `int(index)` otherwise
      (`None`: `int` raises ValueError). */
  function SlotOf(index: string): Option<int>
  {
    if index == Sentinel then Some(LastSlot) else ParseInt(index)
  }

  /** What one iteration of the first loop of `all_batches_received` does with a
      cached message: nothing (another hour), add a slot, or raise. */
  datatype Seen = Skip | Fill(slot: int) | Raise(error: Error)

  function Inspect(m: Message, hour: string): Seen
  {
    match IngesterParts(m.channel)
    case None => Raise(IndexError)
    case Some(p) =>
      if p.hour != hour then Skip
      else match SlotOf(p.index)
        case None => Raise(ValueError)
        case Some(s) => Fill(s)
  }

  /** The slots the first loop of `all_batches_received` adds while walking the cache
      front to back, and the exception that stopped it, if any. */
  datatype Scan = Scan(slots: set<int>, failure: Option<Error>)

  function ScanCache(cache: seq<Message>, hour: string): Scan
  {
    if cache == [] then Scan({}, None)
    else
      var prev := ScanCache(cache[..|cache| - 1], hour);
      if prev.failure.Some? then prev
      else match Inspect(cache[|cache| - 1], hour)
        case Skip => prev
        case Fill(s) => Scan(prev.slots + {s}, None)
        case Raise(e) => Scan(prev.slots, Some(e))
  }

  /** The second loop of `all_batches_received`: every slot `0 <= i < 88` present. */
  predicate Complete(s: set<int>)
  {
    forall i :: 0 <= i < BatchesPerHour ==> i in s
  }

  /** The set `request_batches` builds: slots in `range(87)` not yet received. */
  function MissingSlots(s: set<int>): set<int>
  {
    set i | 0 <= i < LastSlot && i !in s
  }

  /** The received set of `hour`, `{}` when the hour has no entry yet. */
  function Prior(received: map<string, set<int>>, hour: string): set<int>
  {
    if hour in received then received[hour] else {}
  }

  // ---------------------------------------------------------------- slots

  /** The `LAST` batch of an hour fills slot 87, batch `i` fills slot `i`, and a
      message of another hour fills nothing. */
  lemma InspectDataChannel(index: string, hour: string, other: string, data: Payload)
    requires ':' !in index && ':' !in hour
    ensures Inspect(Message(DataChannel(Sentinel, hour), data), hour) == Fill(LastSlot)
    ensures ParseInt(index).Some? && index != Sentinel ==> Inspect(Message(DataChannel(index, hour), data), hour) == Fill(ParseInt(index).value)
    ensures ParseInt(index).None? && index != Sentinel ==> Inspect(Message(DataChannel(index, hour), data), hour) == Raise(ValueError)
    ensures other != hour ==> Inspect(Message(DataChannel(index, hour), data), other) == Skip
  {
    DataChannelParses(index, hour);
    assert ':' !in Sentinel by { assert forall k :: 0 <= k < |Sentinel| ==> Sentinel[k] != ':'; }
    DataChannelParses(Sentinel, hour);
  }

  /** A scan that failed in a prefix of the cache has the same outcome on the whole. */
  lemma {:induction false} ScanStops(cache: seq<Message>, hour: string, j: nat)
    requires j <= |cache|
    requires ScanCache(cache[..j], hour).failure.Some?
    ensures ScanCache(cache, hour) == ScanCache(cache[..j], hour)
    decreases |cache|
  {
    if j < |cache| {
      assert cache[..|cache| - 1][..j] == cache[..j];
      ScanStops(cache[..|cache| - 1], hour, j);
    } else {
      assert cache[..j] == cache;
    }
  }

  /** One more cached message extends a scan that has not stopped: a slot of the
      hour is added, another hour's message is skipped, a bad index raises. */
  lemma ScanFills(cache: seq<Message>, hour: string, i: nat, s: int)
    requires i < |cache| && Inspect(cache[i], hour) == Fill(s)
    requires ScanCache(cache[..i], hour).failure.None?
    ensures ScanCache(cache[..i + 1], hour) == Scan(ScanCache(cache[..i], hour).slots + {s}, None)
  {
    assert cache[..i + 1][..i] == cache[..i];
  }

  lemma ScanSkips(cache: seq<Message>, hour: string, i: nat)
    requires i < |cache| && Inspect(cache[i], hour) == Skip
    ensures ScanCache(cache[..i + 1], hour) == ScanCache(cache[..i], hour)
  {
    assert cache[..i + 1][..i] == cache[..i];
  }

  lemma ScanRaises(cache: seq<Message>, hour: string, i: nat, e: Error)
    requires i < |cache| && Inspect(cache[i], hour) == Raise(e)
    requires ScanCache(cache[..i], hour).failure.None?
    ensures ScanCache(cache[..i + 1], hour) == Scan(ScanCache(cache[..i], hour).slots, Some(e))
  {
    assert cache[..i + 1][..i] == cache[..i];
  }

  /** A cache none of whose messages belongs to `hour` contributes nothing to it. */
  lemma {:induction false} ScanAllSkip(cache: seq<Message>, hour: string)
    requires forall i :: 0 <= i < |cache| ==> Inspect(cache[i], hour) == Skip
    ensures ScanCache(cache, hour) == Scan({}, None)
  {
    if cache != [] {
      ScanAllSkip(cache[..|cache| - 1], hour);
    }
  }

  /** Scanning a cache in two parts: the slots of both parts, and the second
      part's failure, once the first part did not raise. */
  lemma {:induction false} ScanConcat(a: seq<Message>, b: seq<Message>, hour: string)
    requires ScanCache(a, hour).failure.None?
    ensures ScanCache(a + b, hour) == Scan(ScanCache(a, hour).slots + ScanCache(b, hour).slots, ScanCache(b, hour).failure)
  {
    if b == [] {
      assert a + b == a;
    } else {
      var b' := b[..|b| - 1];
      ScanConcat(a, b', hour);
      assert (a + b)[..|a + b| - 1] == a + b';
      assert (a + b)[|a + b| - 1] == b[|b| - 1];
    }
  }

  /** `all_batches_received` raises for `hour` exactly when one of the cached
      messages of `hour` has an index that is neither `LAST` nor numeric. */
  lemma {:induction false} ScanFailure(cache: seq<Message>, hour: string)
    ensures ScanCache(cache, hour).failure.None? <==> forall i :: 0 <= i < |cache| ==> !Inspect(cache[i], hour).Raise?
  {
    if cache != [] {
      var c' := cache[..|cache| - 1];
      ScanFailure(c', hour);
      if ScanCache(c', hour).failure.Some? {
        var i :| 0 <= i < |c'| && Inspect(c'[i], hour).Raise?;
        assert c'[i] == cache[i];
      } else {
        forall i | 0 <= i < |c'| ensures Inspect(cache[i], hour) == Inspect(c'[i], hour) {
        }
      }
    }
  }

  /** Every slot the scan collects is the slot of a cached message of `hour`. */
  lemma {:induction false} ScanSlotsAreFilled(cache: seq<Message>, hour: string)
    ensures forall x :: x in ScanCache(cache, hour).slots ==> exists i :: 0 <= i < |cache| && Inspect(cache[i], hour) == Fill(x)
  {
    if cache != [] {
      var c' := cache[..|cache| - 1];
      ScanSlotsAreFilled(c', hour);
      forall x | x in ScanCache(cache, hour).slots
        ensures exists i :: 0 <= i < |cache| && Inspect(cache[i], hour) == Fill(x)
      {
        if x in ScanCache(c', hour).slots {
          var i :| 0 <= i < |c'| && Inspect(c'[i], hour) == Fill(x);
          assert cache[i] == c'[i];
        }
      }
    }
  }

  /** A scan that does not raise collects the slot of every cached message of `hour`. */
  lemma {:induction false} FilledSlotsAreScanned(cache: seq<Message>, hour: string)
    requires ScanCache(cache, hour).failure.None?
    ensures forall i, x :: 0 <= i < |cache| && Inspect(cache[i], hour) == Fill(x) ==> x in ScanCache(cache, hour).slots
  {
    if cache != [] {
      var c' := cache[..|cache| - 1];
      FilledSlotsAreScanned(c', hour);
      forall i, x | 0 <= i < |cache| - 1 && Inspect(cache[i], hour) == Fill(x)
        ensures x in ScanCache(cache, hour).slots
      {
        assert cache[i] == c'[i];
      }
    }
  }

  /** What `all_batches_received` adds for `hour` when it does not raise: exactly the
      slots of the cached messages whose hour part is `hour`; it raises exactly
      when one of those messages has an index that is neither `LAST` nor numeric. */
  lemma ScanContents(cache: seq<Message>, hour: string)
    ensures ScanCache(cache, hour).failure.None? <==> forall i :: 0 <= i < |cache| ==> !Inspect(cache[i], hour).Raise?
    ensures ScanCache(cache, hour).failure.None? ==>
      forall x :: x in ScanCache(cache, hour).slots <==> exists i :: 0 <= i < |cache| && Inspect(cache[i], hour) == Fill(x)
  {
    ScanFailure(cache, hour);
    ScanSlotsAreFilled(cache, hour);
    if ScanCache(cache, hour).failure.None? {
      FilledSlotsAreScanned(cache, hour);
    }
  }

  /** Arrival order and redelivery do not matter: two caches holding the same
      messages, in any order and with any number of copies, give the same scan. */
  lemma ScanDependsOnlyOnMessages(c1: seq<Message>, c2: seq<Message>, hour: string)
    requires forall m :: m in c1 <==> m in c2
    requires ScanCache(c1, hour).failure.None?
    ensures ScanCache(c2, hour) == ScanCache(c1, hour)
  {
    ScanContents(c1, hour);
    ScanContents(c2, hour);
    forall i | 0 <= i < |c2| ensures !Inspect(c2[i], hour).Raise? {
      assert c2[i] in c1;
      var j :| 0 <= j < |c1| && c1[j] == c2[i];
    }
    forall x ensures x in ScanCache(c1, hour).slots <==> x in ScanCache(c2, hour).slots {
      if x in ScanCache(c1, hour).slots {
        var i :| 0 <= i < |c1| && Inspect(c1[i], hour) == Fill(x);
        assert c1[i] in c2;
        var j :| 0 <= j < |c2| && c2[j] == c1[i];
      }
      if x in ScanCache(c2, hour).slots {
        var i :| 0 <= i < |c2| && Inspect(c2[i], hour) == Fill(x);
        assert c2[i] in c1;
        var j :| 0 <= j < |c1| && c1[j] == c2[i];
      }
    }
  }

  /** An hour is complete exactly when nothing is left to request and the `LAST`
      slot is filled; `request_batches` never asks for slot 87, so an hour whose
      only gap is slot 87 is incomplete with nothing to request. */
  lemma CompleteIffNothingMissing(s: set<int>)
    ensures Complete(s) <==> MissingSlots(s) == {} && LastSlot in s
    ensures LastSlot !in MissingSlots(s)
  {
    if MissingSlots(s) == {} && LastSlot in s {
      forall i | 0 <= i < BatchesPerHour ensures i in s {
        if i < LastSlot {
          assert i !in MissingSlots(s);
        }
      }
    }
  }

  // ---------------------------------------------------------------- purge

  /** `clear_cached_data_for_hour`: the list comprehension keeping the messages whose
      hour part is not `hour`. */
  function Purge(cache: seq<Message>, hour: string): seq<Message>
  {
    if cache == [] then []
    else (if HourOf(cache[0]) != Some(hour) then [cache[0]] else []) + Purge(cache[1..], hour)
  }

  /** The purge removes exactly the messages of `hour` and keeps every other one. */
  lemma {:induction false} PurgeMembers(cache: seq<Message>, hour: string)
    ensures forall m :: m in Purge(cache, hour) <==> m in cache && HourOf(m) != Some(hour)
    ensures |Purge(cache, hour)| <= |cache|
  {
    if cache != [] {
      PurgeMembers(cache[1..], hour);
      assert forall m :: m in cache <==> m == cache[0] || m in cache[1..];
    }
  }

  /** The purge keeps the original order: it distributes over concatenation, and it
      leaves a cache with no message of `hour` unchanged. */
  lemma {:induction false} PurgeAppend(a: seq<Message>, b: seq<Message>, hour: string)
    ensures Purge(a + b, hour) == Purge(a, hour) + Purge(b, hour)
  {
    if a == [] {
      assert a + b == b;
    } else {
      PurgeAppend(a[1..], b, hour);
      TailOfConcat(a, b);
      var head := if HourOf(a[0]) != Some(hour) then [a[0]] else [];
      ConcatAssociates(head, Purge(a[1..], hour), Purge(b, hour));
    }
  }

  lemma {:induction false} PurgeOtherHours(cache: seq<Message>, hour: string)
    requires forall i :: 0 <= i < |cache| ==> HourOf(cache[i]) != Some(hour)
    ensures Purge(cache, hour) == cache
  {
    if cache != [] {
      PurgeOtherHours(cache[1..], hour);
      assert [cache[0]] + cache[1..] == cache;
    }
  }

  /** After the purge the cache contributes no slot to `hour`: what keeps a flushed
      hour complete is the received set, which the purge does not touch. */
  lemma PurgeLeavesNothingToScan(cache: seq<Message>, hour: string)
    requires forall m :: m in cache ==> IngesterParts(m.channel).Some?
    ensures ScanCache(Purge(cache, hour), hour) == Scan({}, None)
  {
    var p := Purge(cache, hour);
    PurgeMembers(cache, hour);
    forall i | 0 <= i < |p| ensures Inspect(p[i], hour) == Skip {
      assert p[i] in p && p[i] in cache;
    }
    ScanAllSkip(p, hour);
  }

  // ---------------------------------------------------------------- writes

  /** The keys `send_raw_data_to_influxdb` reads from every entry. */
  const RawKeys: seq<string> := ["zip_code", "state", "temp_c", "pressure_mb", "humidity", "precip_mm", "time"]

  predicate HasRawKeys(e: Record)
  {
    forall k :: k in RawKeys ==> k in e
  }

  /** The point `send_raw_data_to_influxdb` builds for one entry. */
  function RawPoint(e: Record): Point
    requires HasRawKeys(e)
  {
    Point("weather_data",
      map["zip_code" := e["zip_code"], "state" := e["state"]],
      map["temp_c" := e["temp_c"], "pressure_mb" := e["pressure_mb"], "humidity" := e["humidity"], "precip_mm" := e["precip_mm"]],
      e["time"])
  }

  /** The points of a decoded batch, or KeyError when some entry lacks a key. */
  function RawPoints(batch: seq<Record>): Result<seq<Point>>
  {
    if forall i :: 0 <= i < |batch| ==> HasRawKeys(batch[i])
    then Ok(seq(|batch|, i requires 0 <= i < |batch| && HasRawKeys(batch[i]) => RawPoint(batch[i])))
    else Err(KeyError)
  }

  /** The store's answer to one `write_points` call: accepted, a connection error
      (caught and logged), or a client error (raised to the caller). */
  datatype WriteOutcome = Written | ConnectionFailed | Rejected

  /** The write attempts made while handling a run of cached messages, and the
      exception that stopped the run, if any. */
  datatype Flush = Flush(writes: seq<seq<Point>>, error: Option<Error>)

  /** `handle_message`: an undecodable payload is dropped; otherwise its points are
      built (KeyError) and written as the `k`-th write. */
  function HandleSpec(m: Message, k: nat, store: nat -> WriteOutcome): Flush
  {
    match m.data
    case Undecodable => Flush([], None)
    case Batch(records) =>
      match RawPoints(records)
      case Err(e) => Flush([], Some(e))
      case Ok(points) => Flush([points], if store(k) == Rejected then Some(ClientError) else None)
  }

  /** Handling the cached messages in order (only those of `hour` when one is given),
      stopping at the first exception; `k` is the number of earlier writes. */
  function FlushCache(ms: seq<Message>, hour: Option<string>, k: nat, store: nat -> WriteOutcome): Flush
  {
    if ms == [] then Flush([], None)
    else
      var prev := FlushCache(ms[..|ms| - 1], hour, k, store);
      var m := ms[|ms| - 1];
      if prev.error.Some? || (hour.Some? && HourOf(m) != hour) then prev
      else
        var h := HandleSpec(m, k + |prev.writes|, store);
        Flush(prev.writes + h.writes, h.error)
  }

  /** A message the flush handles extends a flush that has not stopped by its own writes and outcome. */
  lemma FlushHandles(ms: seq<Message>, hour: Option<string>, k: nat, store: nat -> WriteOutcome, i: nat, f: Flush, h: Flush)
    requires i < |ms| && (hour.None? || HourOf(ms[i]) == hour)
    requires f == FlushCache(ms[..i], hour, k, store) && f.error.None?
    requires h == HandleSpec(ms[i], k + |f.writes|, store)
    ensures FlushCache(ms[..i + 1], hour, k, store) == Flush(f.writes + h.writes, h.error)
  {
    assert ms[..i + 1][..i] == ms[..i];
  }

  /** A message of another hour leaves a flush that has not stopped as it is. */
  lemma FlushSkips(ms: seq<Message>, hour: Option<string>, k: nat, store: nat -> WriteOutcome, i: nat)
    requires i < |ms| && hour.Some? && HourOf(ms[i]) != hour
    ensures FlushCache(ms[..i + 1], hour, k, store) == FlushCache(ms[..i], hour, k, store)
  {
    assert ms[..i + 1][..i] == ms[..i];
  }

  /** The points of every decodable cached message of `hour` (of all hours for `None`), in cache order. */
  function CachedWrites(ms: seq<Message>, hour: Option<string>): seq<seq<Point>>
  {
    if ms == [] then []
    else
      var m := ms[|ms| - 1];
      CachedWrites(ms[..|ms| - 1], hour)
        + (if (hour.None? || HourOf(m) == hour) && m.data.Batch? && RawPoints(m.data.records).Ok?
           then [RawPoints(m.data.records).value] else [])
  }

  /** When no exception stops the flush, it writes the points of every decodable
      cached message of the hour, in cache order, one write each, whatever the
      store answered; connection errors are swallowed. */
  lemma {:induction false} FlushWritesCachedBatches(ms: seq<Message>, hour: Option<string>, k: nat, store: nat -> WriteOutcome)
    ensures FlushCache(ms, hour, k, store).error.None? ==> FlushCache(ms, hour, k, store).writes == CachedWrites(ms, hour)
  {
    if ms != [] {
      var prev := FlushCache(ms[..|ms| - 1], hour, k, store);
      FlushWritesCachedBatches(ms[..|ms| - 1], hour, k, store);
      if prev.error.Some? {
        assert FlushCache(ms, hour, k, store) == prev;
      }
    }
  }

  /** Only client errors change the course of a flush: two stores that reject the
      same writes lead to the same attempts and the same outcome. */
  lemma {:induction false} FlushIgnoresConnectionErrors(ms: seq<Message>, hour: Option<string>, k: nat, s1: nat -> WriteOutcome, s2: nat -> WriteOutcome)
    requires forall j :: (s1(j) == Rejected) == (s2(j) == Rejected)
    ensures FlushCache(ms, hour, k, s1) == FlushCache(ms, hour, k, s2)
  {
    if ms != [] {
      FlushIgnoresConnectionErrors(ms[..|ms| - 1], hour, k, s1, s2);
    }
  }

  /** `list.remove(x)`: drop the first element equal to `x`. */
  function RemoveFirst<T(==)>(s: seq<T>, x: T): seq<T>
  {
    if s == [] then [] else if s[0] == x then s[1..] else [s[0]] + RemoveFirst(s[1..], x)
  }

  // ---------------------------------------------------------------- the node

  /** An effect on the outside world, in the order the ingester caused it. */
  datatype Effect = Write(points: seq<Point>) | Publish(channel: string, payload: string)

  /** What one event of the subscription loop in `handle_incoming_messages` did. */
  datatype StepOutcome =
    | Ignored                         // not a data pmessage
    | Resubscribed                    // the bus connection was lost; locals reset
    | Waiting                         // cached; hour incomplete and no LAST seen yet
    | Requested(index: Option<int>)   // cached; hour incomplete, `request_batches` returned `index`
    | Flushed                         // cached; hour complete: sent, notified, cleared
    | FlushAborted                    // the store rejected a write; locals reset, cache kept
    | Crashed(error: Error)           // an uncaught exception ended the thread

  class IngesterNode {
    /** The store's answer to the k-th `write_points` call. */
    const store: nat -> WriteOutcome
    /** Whether the bus accepts the k-th publish. */
    const busUp: nat -> bool

    /** `cached_data.queue`. */
    var cache: seq<Message>
    /** `received_batches_indexes`. */
    var received: map<string, set<int>>
    /** `pending_messages.queue`. */
    var pending: seq<string>
    /** The locals of the subscription loop. */
    var receivedLast: bool
    var lastRequestIndex: int

    var effects: seq<Effect>
    var writeCount: nat
    var publishCount: nat

    /** Every cached channel has the four parts `get_parts` needs, and the loop never
        updates `last_request_index` from its initial -1. */
    ghost predicate Valid()
      reads this
    {
      && (forall m :: m in cache ==> IngesterParts(m.channel).Some?)
      && lastRequestIndex == -1
    }

    constructor (store: nat -> WriteOutcome, busUp: nat -> bool)
      ensures Valid()
      ensures this.store == store && this.busUp == busUp
      ensures cache == [] && received == map[] && pending == [] && !receivedLast
      ensures effects == [] && writeCount == 0 && publishCount == 0
    {
      this.store := store;
      this.busUp := busUp;
      cache, received, pending := [], map[], [];
      receivedLast, lastRequestIndex := false, -1;
      effects, writeCount, publishCount := [], 0, 0;
    }

    /** The start of each pass of the outer loop: fresh subscription, fresh locals. */
    method Resubscribe()
      modifies this`receivedLast, this`lastRequestIndex
      ensures !receivedLast && lastRequestIndex == -1
    {
      receivedLast := false;
      lastRequestIndex := -1;
    }

    /** The loop of `send_raw_data_to_influxdb` that builds the points of a batch. */
    static method BuildRawPoints(batch: seq<Record>) returns (r: Result<seq<Point>>)
      ensures r == RawPoints(batch)
      ensures r.Ok? <==> forall i :: 0 <= i < |batch| ==> HasRawKeys(batch[i])
      ensures r.Err? ==> r.error == KeyError
      ensures r.Ok? ==> |r.value| == |batch| && forall i :: 0 <= i < |batch| ==> r.value[i] == RawPoint(batch[i])
    {
      var points: seq<Point> := [];
      var i := 0;
      while i < |batch|
        invariant 0 <= i <= |batch|
        invariant forall j :: 0 <= j < i ==> HasRawKeys(batch[j])
        invariant |points| == i && forall j :: 0 <= j < i ==> points[j] == RawPoint(batch[j])
      {
        if !HasRawKeys(batch[i]) {
          return Err(KeyError);
        }
        points := points + [RawPoint(batch[i])];
        i := i + 1;
      }
      assert points == RawPoints(batch).value;
      return Ok(points);
    }

    /** `handle_message` with `send_raw_data_to_influxdb`: a connection error from
        the store is swallowed, a client error is raised. */
    method HandleMessage(m: Message) returns (error: Option<Error>)
      modifies this`effects, this`writeCount
      ensures var f := HandleSpec(m, old(writeCount), store);
        && error == f.error
        && effects == old(effects) + WritesOf(f.writes)
        && writeCount == old(writeCount) + |f.writes|
    {
      if m.data.Undecodable? {
        return None;
      }
      var points := BuildRawPoints(m.data.records);
      if points.Err? {
        return Some(points.error);
      }
      effects := effects + [Write(points.value)];
      var outcome := store(writeCount);
      writeCount := writeCount + 1;
      error := if outcome == Rejected then Some(ClientError) else None;
    }

    /** `send_all_cached_data` (with `hour`) and the first loop of `send_pending`
        (with `None`): handle the cached messages in order, stopping at the first
        exception. The cache itself is not changed. */
    method HandleCached(hour: Option<string>) returns (error: Option<Error>)
      modifies this`effects, this`writeCount
      ensures var f := FlushCache(cache, hour, old(writeCount), store);
        && error == f.error
        && effects == old(effects) + WritesOf(f.writes)
        && writeCount == old(writeCount) + |f.writes|
    {
      var snapshot := cache;
      ghost var effects0, count0 := effects, writeCount;
      ghost var f := Flush([], None);
      var i := 0;
      error := None;
      while i < |snapshot| && error.None?
        invariant 0 <= i <= |snapshot|
        invariant f == FlushCache(snapshot[..i], hour, count0, store)
        invariant error == f.error
        invariant effects == effects0 + WritesOf(f.writes)
        invariant writeCount == count0 + |f.writes|
      {
        var m := snapshot[i];
        if hour.None? || HourOf(m) == hour {
          ghost var h := HandleSpec(m, writeCount, store);
          FlushHandles(snapshot, hour, count0, store, i, f, h);
          error := HandleMessage(m);
          WritesOfAppend(f.writes, h.writes);
          f := Flush(f.writes + h.writes, h.error);
        } else {
          FlushSkips(snapshot, hour, count0, store, i);
        }
        i := i + 1;
      }
      if error.Some? {
        FlushStops(snapshot, hour, count0, store, i);
      } else {
        assert snapshot[..i] == snapshot;
      }
      assert f == FlushCache(cache, hour, count0, store);
    }

    /** `notify_processor(hour)`: on failure only the channel string is queued
        (`Queue.put` takes `hour` as its `block` argument). */
    method NotifyProcessor(hour: string)
      modifies this`effects, this`publishCount, this`pending
      ensures effects == old(effects) + [Publish(ProcessorChannel(hour), hour)]
      ensures publishCount == old(publishCount) + 1
      ensures pending == if busUp(old(publishCount)) then old(pending) else old(pending) + [ProcessorChannel(hour)]
    {
      var channel := ProcessorChannel(hour);
      effects := effects + [Publish(channel, hour)];
      if !busUp(publishCount) {
        pending := pending + [channel];
      }
      publishCount := publishCount + 1;
    }

    /** `send_pending`: re-handle every cached message (nothing is removed from the
        cache), then empty `pending_messages` one `remove` at a time without
        publishing anything. */
    method SendPending() returns (error: Option<Error>)
      modifies this`effects, this`writeCount, this`pending
      ensures var f := FlushCache(cache, None, old(writeCount), store);
        && error == f.error
        && effects == old(effects) + WritesOf(f.writes)
        && writeCount == old(writeCount) + |f.writes|
      ensures pending == if error.Some? then old(pending) else []
    {
      error := HandleCached(None);
      if error.Some? {
        return;
      }
      var snapshot := pending;
      var i := 0;
      while i < |snapshot|
        modifies this`pending
        invariant 0 <= i <= |snapshot|
        invariant pending == snapshot[i..]
      {
        pending := RemoveFirst(pending, snapshot[i]);
        i := i + 1;
      }
    }

    /** `clear_cached_data_for_hour`. */
    method ClearCachedDataForHour(hour: string)
      requires Valid()
      modifies this`cache
      ensures Valid()
      ensures cache == Purge(old(cache), hour)
    {
      PurgeMembers(cache, hour);
      cache := Purge(cache, hour);
    }

    /** The first loop of `all_batches_received(hour)`: walk the cache front to
        back, creating the hour's received set at the first cached message (of any
        hour) and adding the slot of each message of `hour`; an index that is neither
        `LAST` nor numeric raises ValueError. */
    method RecordCachedSlots(hour: string) returns (failure: Option<Error>)
      requires Valid()
      modifies this`received
      ensures failure == ScanCache(cache, hour).failure
      ensures received == if cache != [] || hour in old(received)
        then old(received)[hour := Prior(old(received), hour) + ScanCache(cache, hour).slots]
        else old(received)
    {
      var c := cache;
      // `received_batches_indexes[hour]`, kept aside while the loop adds to it
      var created := hour in received;
      var slots := if created then received[hour] else {};
      ghost var scan := Scan({}, None);
      var i := 0;
      while i < |c|
        invariant 0 <= i <= |c|
        invariant scan == ScanCache(c[..i], hour) && scan.failure.None?
        invariant slots == Prior(old(received), hour) + scan.slots
        invariant created == (i > 0 || hour in old(received))
        invariant received == old(received)
      {
        var m := c[i];
        assert m in cache;
        var parts := IngesterParts(m.channel).value;
        created := true;
        if parts.hour == hour {
          var slot := SlotOf(parts.index);
          if slot.None? {
            assert Inspect(m, hour) == Raise(ValueError);
            ScanRaises(c, hour, i, ValueError);
            ScanStops(c, hour, i + 1);
            received := received[hour := slots];
            return Some(ValueError);
          }
          assert Inspect(m, hour) == Fill(slot.value);
          ScanFills(c, hour, i, slot.value);
          slots := slots + {slot.value};
          scan := Scan(scan.slots + {slot.value}, None);
        } else {
          assert Inspect(m, hour) == Skip;
          ScanSkips(c, hour, i);
        }
        i := i + 1;
      }
      assert c[..i] == c;
      if created {
        received := received[hour := slots];
      }
      return None;
    }

    /** `all_batches_received(hour)`: record the cached slots, then report whether
        slots 0..87 are all present. With an empty cache and no entry for `hour` the
        final lookup raises KeyError. */
    method AllBatchesReceived(hour: string) returns (r: Result<bool>)
      requires Valid()
      modifies this`received
      ensures cache == [] && hour !in old(received) ==> r == Err(KeyError) && received == old(received)
      ensures cache != [] || hour in old(received) ==>
        var scan := ScanCache(cache, hour);
        && received == old(received)[hour := Prior(old(received), hour) + scan.slots]
        && r == if scan.failure.Some? then Err(scan.failure.value) else Ok(Complete(received[hour]))
    {
      var failure := RecordCachedSlots(hour);
      if failure.Some? {
        return Err(failure.value);
      }
      if hour !in received {
        return Err(KeyError);
      }
      var index := 0;
      while index < BatchesPerHour
        invariant 0 <= index <= BatchesPerHour
        invariant forall j :: 0 <= j < index ==> j in received[hour]
      {
        if index !in received[hour] {
          return Ok(false);
        }
        index := index + 1;
      }
      return Ok(true);
    }

    /** `request_batches(hour)`: collect the slots of `range(87)` not received, and
        publish a request for one of them (the first in Python's set iteration order,
        which the model leaves open); return it if the publish went through. */
    method RequestBatches(hour: string) returns (r: Option<int>)
      requires hour in received
      modifies this`effects, this`publishCount
      ensures MissingSlots(received[hour]) == {} ==>
        r == None && effects == old(effects) && publishCount == old(publishCount)
      ensures MissingSlots(received[hour]) != {} ==>
        && publishCount == old(publishCount) + 1
        && exists b :: b in MissingSlots(received[hour])
             && effects == old(effects) + [Publish(RequestChannel(IntToString(b), hour), hour)]
             && r == if busUp(old(publishCount)) then Some(b) else None
      ensures r.Some? ==> 0 <= r.value < LastSlot && r.value !in received[hour]
    {
      var missing: set<int> := {};
      var index := 0;
      while index < LastSlot
        invariant 0 <= index <= LastSlot
        invariant missing == set i | 0 <= i < index && i !in received[hour]
      {
        if index !in received[hour] {
          missing := missing + {index};
        }
        index := index + 1;
      }
      assert missing == MissingSlots(received[hour]);
      if missing == {} {
        return None;
      }
      var b :| b in missing;
      effects := effects + [Publish(RequestChannel(IntToString(b), hour), hour)];
      r := if busUp(publishCount) then Some(b) else None;
      publishCount := publishCount + 1;
    }

    /** The completion branch of the subscription loop: send the hour's cached
        batches, notify the processor, clear the hour from the cache and reset
        `received_last`, in that order, whatever the writes' connection outcome. A
        client error from the store instead ends the pass (fresh locals, cache
        kept); a KeyError ends the thread. */
    method FlushHour(hour: string) returns (out: StepOutcome)
      requires Valid()
      modifies this`effects, this`writeCount, this`publishCount, this`pending, this`cache, this`receivedLast, this`lastRequestIndex
      ensures Valid()
      ensures out.Flushed? || out.FlushAborted? || out.Crashed?
      ensures var f := FlushCache(old(cache), Some(hour), old(writeCount), store);
        && (out.Flushed? <==> f.error.None?)
        && (out.FlushAborted? <==> f.error == Some(ClientError))
        && (out.Crashed? ==> f.error == Some(out.error))
        && writeCount == old(writeCount) + |f.writes|
        && (!out.Flushed? ==>
              && cache == old(cache) && effects == old(effects) + WritesOf(f.writes)
              && pending == old(pending) && publishCount == old(publishCount))
      ensures out.Flushed? ==>
        && effects == old(effects) + WritesOf(CachedWrites(old(cache), Some(hour))) + [Publish(ProcessorChannel(hour), hour)]
        && cache == Purge(old(cache), hour)
        && !receivedLast
        && publishCount == old(publishCount) + 1
        && pending == if busUp(old(publishCount)) then old(pending) else old(pending) + [ProcessorChannel(hour)]
      ensures out.FlushAborted? ==> !receivedLast
    {
      var error := HandleCached(Some(hour));
      if error == Some(ClientError) {
        Resubscribe();
        return FlushAborted;
      }
      if error.Some? {
        return Crashed(error.value);
      }
      FlushWritesCachedBatches(cache, Some(hour), old(writeCount), store);
      NotifyProcessor(hour);
      ClearCachedDataForHour(hour);
      receivedLast := false;
      return Flushed;
    }

    /** The first steps for a data message: note a `LAST`, cache the message and
        test the hour's completion. */
    method CacheAndCheck(m: Message, hour: string, index: string) returns (complete: Result<bool>)
      requires Valid()
      requires IngesterParts(m.channel).Some?
      modifies this`cache, this`receivedLast, this`received
      ensures Valid()
      ensures cache == old(cache) + [m]
      ensures receivedLast == (old(receivedLast) || index == Sentinel)
      ensures forall h :: h in old(received) ==> h in received && old(received)[h] <= received[h]
      ensures var scan := ScanCache(cache, hour);
        && received == old(received)[hour := Prior(old(received), hour) + scan.slots]
        && complete == if scan.failure.Some? then Err(scan.failure.value) else Ok(Complete(received[hour]))
    {
      if index == Sentinel {
        receivedLast := true;
      }
      cache := cache + [m];
      complete := AllBatchesReceived(hour);
    }

    /** The whole effect of a data message `m` on `hour` with batch index `index`:
        the message is cached and its slot recorded; a bad index raises; a
        complete hour is flushed (or the flush raises); an incomplete hour waits
        until a `LAST` has been seen and then requests one missing slot. */
    twostate predicate DataStep(m: Message, hour: string, index: string, out: StepOutcome)
      reads this
    {
      var cached := old(cache) + [m];
      var scan := ScanCache(cached, hour);
      var slots := Prior(old(received), hour) + scan.slots;
      var last := old(receivedLast) || index == Sentinel;
      var f := FlushCache(cached, Some(hour), old(writeCount), store);
      && received == old(received)[hour := slots]
      // only a flush writes to the store, and only a flush can queue a notification
      && writeCount == old(writeCount) + (if scan.failure.None? && Complete(slots) then |f.writes| else 0)
      && (!(out == Flushed) ==> pending == old(pending))
      && (scan.failure.Some? ==>
            && out == Crashed(scan.failure.value) && cache == cached && effects == old(effects) && receivedLast == last
            && publishCount == old(publishCount))
      && (scan.failure.None? && !Complete(slots) && !last ==>
            && out == Waiting && cache == cached && effects == old(effects) && !receivedLast
            && publishCount == old(publishCount))
      && (scan.failure.None? && !Complete(slots) && last ==>
            && out.Requested? && cache == cached && receivedLast
            && (MissingSlots(slots) == {} ==>
                  out.index == None && effects == old(effects) && publishCount == old(publishCount))
            && (MissingSlots(slots) != {} ==>
                  && publishCount == old(publishCount) + 1
                  && (exists b :: b in MissingSlots(slots)
                        && effects == old(effects) + [Publish(RequestChannel(IntToString(b), hour), hour)]
                        && out.index == if busUp(old(publishCount)) then Some(b) else None)))
      && (scan.failure.None? && Complete(slots) && f.error.None? ==>
            && out == Flushed
            && effects == old(effects) + WritesOf(CachedWrites(cached, Some(hour))) + [Publish(ProcessorChannel(hour), hour)]
            && cache == Purge(cached, hour)
            && !receivedLast
            && publishCount == old(publishCount) + 1
            && pending == if busUp(old(publishCount)) then old(pending) else old(pending) + [ProcessorChannel(hour)])
      && (scan.failure.None? && Complete(slots) && f.error.Some? ==>
            && out == (if f.error == Some(ClientError) then FlushAborted else Crashed(f.error.value))
            && cache == cached
            && effects == old(effects) + WritesOf(f.writes)
            && publishCount == old(publishCount)
            && (out == FlushAborted ==> !receivedLast))
    }

    /** A data message: cache it, test completion, then flush or, once a `LAST` has
        been seen, request a missing batch. The back-off branch compares the request
        with `last_request_index`, which is -1 and never a requested index. */
    method OnData(m: Message, hour: string, index: string) returns (out: StepOutcome)
      requires Valid()
      requires IngesterParts(m.channel).Some?
      requires IngesterParts(m.channel).value.index == index && IngesterParts(m.channel).value.hour == hour
      modifies this`effects, this`writeCount, this`publishCount, this`pending, this`cache, this`receivedLast, this`lastRequestIndex, this`received
      ensures Valid()
      ensures DataStep(m, hour, index, out)
      ensures out.Requested? ==> out.index != Some(lastRequestIndex)
      ensures forall h :: h in old(received) ==> h in received && old(received)[h] <= received[h]
    {
      var complete := CacheAndCheck(m, hour, index);
      if complete.Err? {
        return Crashed(complete.error);
      }
      if complete.value {
        out := FlushHour(hour);
      } else if receivedLast {
        var requested := RequestBatches(hour);
        // the stall back-off would need the request to equal -1
        assert requested != Some(lastRequestIndex);
        out := Requested(requested);
      } else {
        out := Waiting;
      }
    }

    /** One event of the subscription loop of `handle_incoming_messages`. */
    method Step(ev: Event) returns (out: StepOutcome)
      requires Valid()
      modifies this
      ensures Valid()
      ensures out.Requested? ==> out.index != Some(lastRequestIndex)
      ensures forall h :: h in old(received) ==> h in received && old(received)[h] <= received[h]
      ensures ev.OtherType? ==> out == Ignored && unchanged(this)
      ensures ev.Disconnect? ==> out == Resubscribed && !receivedLast
      ensures !ev.PMessage? ==>
        && cache == old(cache) && received == old(received) && effects == old(effects)
        && pending == old(pending) && writeCount == old(writeCount) && publishCount == old(publishCount)
      ensures ev.PMessage? && IngesterParts(ev.msg.channel).None? ==> out == Crashed(IndexError) && unchanged(this)
      ensures ev.PMessage? && IngesterParts(ev.msg.channel).Some? && !StartsWith(ev.msg.channel, "weather_channel:data:") ==>
        out == Ignored && unchanged(this)
      ensures ev.PMessage? && IngesterParts(ev.msg.channel).Some? && StartsWith(ev.msg.channel, "weather_channel:data:") ==>
        var parts := IngesterParts(ev.msg.channel).value;
        DataStep(ev.msg, parts.hour, parts.index, out)
    {
      match ev
      case OtherType =>
        return Ignored;
      case Disconnect =>
        Resubscribe();
        return Resubscribed;
      case PMessage(m) =>
        var parts := IngesterParts(m.channel);
        if parts.None? {
          return Crashed(IndexError);
        }
        if !StartsWith(m.channel, "weather_channel:data:") {
          return Ignored;
        }
        out := OnData(m, parts.value.hour, parts.value.index);
    }

    /** The subscription loop over a finite sequence of events, until a crash. An
        hour that was complete stays complete. */
    method Run(events: seq<Event>) returns (crash: Option<Error>)
      requires Valid()
      modifies this
      ensures Valid()
      ensures forall h :: h in old(received) && Complete(old(received)[h]) ==> h in received && Complete(received[h])
    {
      var i := 0;
      while i < |events|
        invariant 0 <= i <= |events|
        invariant Valid()
        invariant forall h :: h in old(received) ==> h in received && old(received)[h] <= received[h]
      {
        var out := Step(events[i]);
        if out.Crashed? {
          return Some(out.error);
        }
        i := i + 1;
      }
      return None;
    }
  }

  /** The effects of a run of write attempts. */
  function WritesOf(writes: seq<seq<Point>>): (r: seq<Effect>)
    ensures |r| == |writes| && forall i :: 0 <= i < |writes| ==> r[i] == Write(writes[i])
  {
    seq(|writes|, i requires 0 <= i < |writes| => Write(writes[i]))
  }

  lemma WritesOfAppend(a: seq<seq<Point>>, b: seq<seq<Point>>)
    ensures WritesOf(a + b) == WritesOf(a) + WritesOf(b)
  {
  }

  lemma {:induction false} FlushStops(ms: seq<Message>, hour: Option<string>, k: nat, store: nat -> WriteOutcome, j: nat)
    requires j <= |ms|
    requires FlushCache(ms[..j], hour, k, store).error.Some?
    ensures FlushCache(ms, hour, k, store) == FlushCache(ms[..j], hour, k, store)
    decreases |ms|
  {
    if j < |ms| {
      assert ms[..|ms| - 1][..j] == ms[..j];
      FlushStops(ms[..|ms| - 1], hour, k, store, j);
    } else {
      assert ms[..j] == ms;
    }
  }
}
