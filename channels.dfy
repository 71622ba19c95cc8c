/** The channel-name protocol shared by the streamer, the ingester and the
    processor: `weather_channel:{kind}:{index|LAST}:{hour}`, and the two
    `get_parts` functions that take such a name apart. */
module Channels {
  import opened Values
  import opened Text

  const Namespace: string := "weather_channel"
  const Sentinel: string := "LAST"

  /** `f"weather_channel:data:{index}:{hour}"`: one batch of an hour. */
  function DataChannel(index: string, hour: string): string
  {
    "weather_channel:data:" + index + ":" + hour
  }

  /** `f"weather_channel:request:{index}:{hour}"`: ask for batch `index` again. */
  function RequestChannel(index: string, hour: string): string
  {
    "weather_channel:request:" + index + ":" + hour
  }

  /** `f"weather_channel:processor:{hour}"`: hour `hour` has been flushed. */
  function ProcessorChannel(hour: string): string
  {
    "weather_channel:processor:" + hour
  }

  datatype Parts = Parts(name: string, kind: string, index: string, hour: string)

  /** The ingester's `get_parts` (src/ingester.py): the first four pieces of the
      split; fewer than four pieces raise IndexError, more are ignored. */
  function IngesterParts(channel: string): (r: Option<Parts>)
    ensures r.Some? <==> |Split(channel, ':')| >= 4
  {
    var p := Split(channel, ':');
    if |p| >= 4 then Some(Parts(p[0], p[1], p[2], p[3])) else None
  }

  /** The streamer's `get_parts` (src/streamer.py): unpacking demands exactly four
      pieces; any other count raises ValueError. */
  function StreamerParts(channel: string): (r: Option<Parts>)
    ensures r.Some? <==> |Split(channel, ':')| == 4
  {
    var p := Split(channel, ':');
    if |p| == 4 then Some(Parts(p[0], p[1], p[2], p[3])) else None
  }

  /** The streamer's parser accepts fewer names than the ingester's and agrees with
      it where both accept; they differ exactly on names with more than four pieces. */
  lemma StreamerPartsRefinesIngester(channel: string)
    ensures StreamerParts(channel).Some? ==> IngesterParts(channel) == StreamerParts(channel)
    ensures (IngesterParts(channel).Some? && StreamerParts(channel).None?) <==> |Split(channel, ':')| > 4
  {
  }

  /** A four-part name is the colon-join of its parts. */
  lemma FourPartJoin(kind: string, index: string, hour: string)
    ensures "weather_channel:" + kind + ":" + index + ":" + hour == Join([Namespace, kind, index, hour], ':')
  {
    var parts := [Namespace, kind, index, hour];
    assert Join(parts[3..], ':') == hour;
    assert Join(parts[2..], ':') == index + ":" + hour;
    assert Join(parts[1..], ':') == kind + ":" + index + ":" + hour;
  }

  /** A four-part name with colon-free parts splits back into those parts. */
  lemma FourPartName(kind: string, index: string, hour: string)
    requires ':' !in kind && ':' !in index && ':' !in hour
    ensures Split("weather_channel:" + kind + ":" + index + ":" + hour, ':') == [Namespace, kind, index, hour]
  {
    var parts := [Namespace, kind, index, hour];
    FourPartJoin(kind, index, hour);
    assert ':' !in Namespace by {
      assert forall i :: 0 <= i < |Namespace| ==> Namespace[i] != ':';
    }
    SplitJoin(parts, ':');
  }

  /** A data channel built with a colon-free index and hour parses back to the same
      index and hour with either parser, and carries the data prefix the ingester's
      subscription loop tests for. */
  lemma DataChannelParses(index: string, hour: string)
    requires ':' !in index && ':' !in hour
    ensures IngesterParts(DataChannel(index, hour)) == Some(Parts(Namespace, "data", index, hour))
    ensures StreamerParts(DataChannel(index, hour)) == Some(Parts(Namespace, "data", index, hour))
    ensures StartsWith(DataChannel(index, hour), "weather_channel:data:")
  {
    var name := DataChannel(index, hour);
    assert name == "weather_channel:" + "data" + ":" + index + ":" + hour;
    FourPartName("data", index, hour);
    assert Split(name, ':') == [Namespace, "data", index, hour];
    assert name[..|"weather_channel:data:"|] == "weather_channel:data:";
  }

  /** Likewise for a request channel, which the streamer's replay loop tests for. */
  lemma RequestChannelParses(index: string, hour: string)
    requires ':' !in index && ':' !in hour
    ensures IngesterParts(RequestChannel(index, hour)) == Some(Parts(Namespace, "request", index, hour))
    ensures StreamerParts(RequestChannel(index, hour)) == Some(Parts(Namespace, "request", index, hour))
    ensures StartsWith(RequestChannel(index, hour), "weather_channel:request:")
  {
    var name := RequestChannel(index, hour);
    assert name == "weather_channel:" + "request" + ":" + index + ":" + hour;
    FourPartName("request", index, hour);
    assert Split(name, ':') == [Namespace, "request", index, hour];
    assert name[..|"weather_channel:request:"|] == "weather_channel:request:";
  }
}
