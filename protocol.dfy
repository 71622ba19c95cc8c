/** How the streamer's batching and the ingester's slot tracking fit together over
    the shared channel names: what an hour's publication fills, when it completes,
    and how replayed batches close the gaps. */
module Protocol {
  import opened Values
  import opened Text
  import opened Channels
  import opened Streamer
  import opened Ingester

  /** The slots an hour published as `k` batches fills: 0..k-2 and the `LAST` slot. */
  predicate PublishedSlot(k: nat, x: int)
  {
    0 <= x < k - 1 || x == LastSlot
  }

  /** Batch `i` of an hour with `n > 0` rows fills slot 87 when it is the last one
      and slot `i` otherwise. */
  lemma PublishedBatchSlot(rows: seq<Row>, hour: int, i: nat)
    requires i < |HourMessages(rows, hour)|
    ensures var k := NumBatches(|DataHour(rows, hour)|);
      Inspect(HourMessages(rows, hour)[i], IntToString(hour)) == if i == k - 1 then Fill(LastSlot) else Fill(i)
  {
    var n := |DataHour(rows, hour)|;
    var h := IntToString(hour);
    LabelsOfHour(n, i);
    ParseIntToString(i);
    InspectDataChannel(IntToString(i), h, h, HourMessages(rows, hour)[i].data);
  }

  /** An hour with `n > 0` rows, published as `k = ceil(n / 500)` batches, fills
      exactly the slots 0..k-2 and 87 of the ingester, without raising. */
  lemma HourSlots(rows: seq<Row>, hour: int)
    requires |DataHour(rows, hour)| > 0
    ensures var s := ScanCache(HourMessages(rows, hour), IntToString(hour));
      && s.failure.None?
      && forall x :: x in s.slots <==> PublishedSlot(NumBatches(|DataHour(rows, hour)|), x)
  {
    var ms := HourMessages(rows, hour);
    var h := IntToString(hour);
    var k := NumBatches(|DataHour(rows, hour)|);
    forall i | 0 <= i < |ms| ensures Inspect(ms[i], h) == if i == k - 1 then Fill(LastSlot) else Fill(i) {
      PublishedBatchSlot(rows, hour, i);
    }
    ScanContents(ms, h);
    var s := ScanCache(ms, h);
    forall x ensures x in s.slots <==> PublishedSlot(k, x) {
      if PublishedSlot(k, x) {
        if x == LastSlot {
          assert Inspect(ms[k - 1], h) == Fill(x);
        } else {
          assert Inspect(ms[x], h) == Fill(x);
        }
      }
    }
  }

  /** Such an hour is complete exactly when it has at least 88 batches; otherwise
      slot k-1, below 87, is missing, and it is one `request_batches` can ask for. */
  lemma PublishedHourComplete(k: nat, slots: set<int>)
    requires k > 0
    requires forall x :: x in slots <==> PublishedSlot(k, x)
    ensures Complete(slots) <==> k >= BatchesPerHour
    ensures k < BatchesPerHour ==> k - 1 in MissingSlots(slots)
  {
    if k < BatchesPerHour {
      assert k - 1 !in slots;
    }
  }

  /** The payload the streamer replays for batch `i` of `hour`. */
  function ReplayPayload(rows: seq<Row>, hour: int, i: nat): Payload
  {
    ToPayload(PySlice(DataHour(rows, hour), i * BatchSize, i * BatchSize + BatchSize))
  }

  /** The message the streamer republishes for the ingester's request of slot `i`. */
  function ReplayMessage(rows: seq<Row>, hour: int, i: nat): Message
  {
    Message(DataChannel(IntToString(i), IntToString(hour)), ReplayPayload(rows, hour, i))
  }

  /** A request for slot `i` of `hour` parses on the streamer's side, is answered,
      and the answer fills slot `i` on the ingester's side; past the end of the
      hour's rows the answer is an empty batch that still fills its slot. */
  lemma ReplayFillsSlot(rows: seq<Row>, hour: int, i: nat)
    ensures StreamerParts(RequestChannel(IntToString(i), IntToString(hour))) ==
      Some(Parts(Namespace, "request", IntToString(i), IntToString(hour)))
    ensures DataHourBatch(rows, IntToString(i), IntToString(hour)) == Ok(ReplayPayload(rows, hour, i))
    ensures Inspect(ReplayMessage(rows, hour, i), IntToString(hour)) == Fill(i)
    ensures i * BatchSize >= |DataHour(rows, hour)| ==> ReplayPayload(rows, hour, i) == Batch([])
  {
    RequestChannelParses(IntToString(i), IntToString(hour));
    ParseIntToString(i);
    ParseIntToString(hour);
    LabelsOfHour(1, 0);
    assert IntToString(i) != Sentinel by {
      assert IntToString(i)[0] != 'L';
    }
    InspectDataChannel(IntToString(i), IntToString(hour), IntToString(hour), ReplayPayload(rows, hour, i));
    if i * BatchSize >= |DataHour(rows, hour)| {
      ReplayPastEndIsEmpty(rows, hour, i);
    }
  }

  /** The streamer's answers to the requests for `replays`, in that order. */
  function Replays(rows: seq<Row>, hour: int, replays: seq<nat>): (ms: seq<Message>)
    ensures |ms| == |replays|
    ensures forall j :: 0 <= j < |replays| ==> ms[j] == ReplayMessage(rows, hour, replays[j])
  {
    seq(|replays|, j requires 0 <= j < |replays| => ReplayMessage(rows, hour, replays[j]))
  }

  /** Scanning the answers alone raises nothing and fills every requested slot. */
  lemma ReplaysFill(rows: seq<Row>, hour: int, replays: seq<nat>)
    ensures ScanCache(Replays(rows, hour, replays), IntToString(hour)).failure.None?
    ensures forall j :: 0 <= j < |replays| ==> replays[j] in ScanCache(Replays(rows, hour, replays), IntToString(hour)).slots
  {
    var h := IntToString(hour);
    var extra := Replays(rows, hour, replays);
    forall j | 0 <= j < |replays| ensures Inspect(extra[j], h) == Fill(replays[j]) {
      ReplayFillsSlot(rows, hour, replays[j]);
    }
    ScanContents(extra, h);
  }

  /** Once the `LAST` slot is in, replaying every slot `request_batches` can report
      missing completes the hour, whatever else is cached and in whatever order the
      replays arrive. */
  lemma ReplaysComplete(rows: seq<Row>, hour: int, cache: seq<Message>, replays: seq<nat>)
    requires ScanCache(cache, IntToString(hour)).failure.None?
    requires LastSlot in ScanCache(cache, IntToString(hour)).slots
    requires forall b :: b in MissingSlots(ScanCache(cache, IntToString(hour)).slots) ==> b in replays
    ensures var s := ScanCache(cache + Replays(rows, hour, replays), IntToString(hour));
      s.failure.None? && Complete(s.slots)
  {
    var h := IntToString(hour);
    var extra := Replays(rows, hour, replays);
    var before := ScanCache(cache, h).slots;
    ReplaysFill(rows, hour, replays);
    ScanConcat(cache, extra, h);
    var after := ScanCache(cache + extra, h).slots;
    assert after == before + ScanCache(extra, h).slots;
    forall i | 0 <= i < BatchesPerHour ensures i in after {
      if i !in before {
        assert i != LastSlot;
        assert i in MissingSlots(before);
        assert i in replays;
        var j :| 0 <= j < |replays| && replays[j] == i;
        assert i in ScanCache(extra, h).slots;
      }
    }
  }
}
