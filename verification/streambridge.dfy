/** The WebSocket relay lambda (packages/streambridge): a process-wide table
    of connections keyed by connection id, a route dispatch over it, and
    three header sniffers for audio buffers. The sniffers read bytes; Node's
    "ascii" decoding clears the high bit of each byte before comparing. */
module StreamBridge {
  import opened Media

  // ---------------------------------------------------------------------
  // Connections and route dispatch
  // ---------------------------------------------------------------------

  /** A stored connection; `audioStream` is absent until a chunk arrives. */
  datatype WebSocketConnection = WebSocketConnection(connectionId: string, audioStream: Option<string>)

  /** What the handler reads from an API Gateway WebSocket event. */
  datatype HandlerEvent = HandlerEvent(connectionId: string, routeKey: string, body: Option<string>)

  datatype Response = Response(statusCode: int, body: string)

  const ConnectedResponse := Response(200, "Connected")
  const DisconnectedResponse := Response(200, "Disconnected")
  const NotFoundResponse := Response(400, "Connection not found")
  const ChunkReceivedResponse := Response(200, "{\"message\":\"Audio chunk received\"}")
  const UnknownRouteResponse := Response(400, "{\"message\":\"Unknown route\"}")

  /** Every entry is stored under its own connection id. */
  ghost predicate KeyedById(connections: map<string, WebSocketConnection>)
  {
    forall id :: id in connections ==> connections[id].connectionId == id
  }

  /** The response to one event and the table after it. */
  datatype Outcome = Outcome(response: Response, connections: map<string, WebSocketConnection>)

  /** One invocation of the handler, as a function of the table before it. */
  function Route(connections: map<string, WebSocketConnection>, event: HandlerEvent): (o: Outcome)
    ensures KeyedById(connections) ==> KeyedById(o.connections)
    ensures o.response.statusCode == 200 || o.response.statusCode == 400
    ensures forall id :: id != event.connectionId ==>
              (id in o.connections <==> id in connections)
              && (id in connections ==> o.connections[id] == connections[id])
  {
    var id := event.connectionId;
    match event.routeKey
    case "$connect" =>
      Outcome(ConnectedResponse, connections[id := WebSocketConnection(id, None)])
    case "$disconnect" =>
      Outcome(DisconnectedResponse, connections - {id})
    case "$default" =>
      if id !in connections then Outcome(NotFoundResponse, connections)
      else Outcome(ChunkReceivedResponse, connections[id := connections[id].(audioStream := event.body)])
    case _ =>
      Outcome(UnknownRouteResponse, connections)
  }

  /** `$connect` answers 200 "Connected" and stores a fresh connection, with
      no stream, under the event's id. */
  lemma RouteConnect(connections: map<string, WebSocketConnection>, id: string, body: Option<string>)
    ensures Route(connections, HandlerEvent(id, "$connect", body))
            == Outcome(Response(200, "Connected"), connections[id := WebSocketConnection(id, None)])
  {
  }

  /** `$disconnect` answers 200 "Disconnected" and the id is no longer in the
      table, whether or not it was before. */
  lemma RouteDisconnect(connections: map<string, WebSocketConnection>, id: string, body: Option<string>)
    ensures var o := Route(connections, HandlerEvent(id, "$disconnect", body));
            && o.response == Response(200, "Disconnected")
            && id !in o.connections
            && o.connections == connections - {id}
  {
  }

  /** A chunk (`$default`) for an id not in the table is answered 400
      "Connection not found" and the table is unchanged. */
  lemma RouteChunkUnknownConnection(connections: map<string, WebSocketConnection>, id: string, body: Option<string>)
    requires id !in connections
    ensures Route(connections, HandlerEvent(id, "$default", body))
            == Outcome(Response(400, "Connection not found"), connections)
  {
  }

  /** A chunk for a stored id is answered 200 and its raw body becomes that
      connection's stream; the rest of the entry is kept. */
  lemma RouteChunkStored(connections: map<string, WebSocketConnection>, id: string, body: Option<string>)
    requires id in connections
    ensures var o := Route(connections, HandlerEvent(id, "$default", body));
            && o.response.statusCode == 200
            && id in o.connections
            && o.connections[id].audioStream == body
            && o.connections[id].connectionId == connections[id].connectionId
  {
  }

  /** A chunk on a connected socket is accepted and becomes its stream,
      whatever it was before. */
  lemma ChunkAfterConnect(connections: map<string, WebSocketConnection>, id: string, body: Option<string>)
    ensures
      var afterConnect := Route(connections, HandlerEvent(id, "$connect", None)).connections;
      var o := Route(afterConnect, HandlerEvent(id, "$default", body));
      o.response == ChunkReceivedResponse
      && o.connections[id] == WebSocketConnection(id, body)
  {
  }

  /** After a disconnect, a chunk on that id is refused and changes nothing. */
  lemma ChunkAfterDisconnect(connections: map<string, WebSocketConnection>, id: string, body: Option<string>)
    ensures
      var afterDisconnect := Route(connections, HandlerEvent(id, "$disconnect", None)).connections;
      Route(afterDisconnect, HandlerEvent(id, "$default", body))
        == Outcome(NotFoundResponse, afterDisconnect)
  {
  }

  /** Reconnecting forgets the stream held under the old connection. */
  lemma ReconnectResetsStream(connections: map<string, WebSocketConnection>, id: string, body: Option<string>)
    ensures Route(connections, HandlerEvent(id, "$connect", body)).connections[id].audioStream == None
  {
  }

  /** A route the relay does not know is answered with 400 and the table is
      left as it was. */
  lemma UnknownRouteChangesNothing(connections: map<string, WebSocketConnection>, event: HandlerEvent)
    requires event.routeKey !in {"$connect", "$disconnect", "$default"}
    ensures Route(connections, event) == Outcome(UnknownRouteResponse, connections)
  {
  }

  /** The module-level `connections` map and the exported handler. */
  class Relay {
    var connections: map<string, WebSocketConnection>

    ghost predicate Valid()
      reads this
    {
      KeyedById(connections)
    }

    constructor ()
      ensures Valid() && connections == map[]
    {
      connections := map[];
    }

    /** `handler(event)` */
    method Handler(event: HandlerEvent) returns (r: Response)
      requires Valid()
      modifies this
      ensures Valid()
      ensures Outcome(r, connections) == Route(old(connections), event)
    {
      var id := event.connectionId;
      if event.routeKey == "$connect" {
        connections := connections[id := WebSocketConnection(id, None)];
        return ConnectedResponse;
      } else if event.routeKey == "$disconnect" {
        connections := connections - {id};
        return DisconnectedResponse;
      } else if event.routeKey == "$default" {
        if id !in connections {
          return NotFoundResponse;
        }
        var connection := connections[id];
        connections := connections[id := connection.(audioStream := event.body)];
        return ChunkReceivedResponse;
      }
      r := UnknownRouteResponse;
    }
  }

  // ---------------------------------------------------------------------
  // Header sniffing
  // ---------------------------------------------------------------------

  /** One byte decoded as "ascii": the high bit is cleared. */
  function Ascii(b: bv8): char
  {
    ((b & 0x7F) as int) as char
  }

  /** `buffer.toString("ascii", start, start + |tag|) === tag` */
  predicate AsciiTagAt(buffer: seq<bv8>, start: nat, tag: string)
    requires start + |tag| <= |buffer|
  {
    forall k :: 0 <= k < |tag| ==> Ascii(buffer[start + k]) == tag[k]
  }

  predicate IsRiff(buffer: seq<bv8>)
    requires |buffer| >= 4
  {
    AsciiTagAt(buffer, 0, "RIFF")
  }

  /** An MPEG audio frame sync: eleven set bits. */
  predicate Mp3Sync(buffer: seq<bv8>)
    requires |buffer| >= 2
  {
    buffer[0] == 0xFF && buffer[1] & 0xE0 == 0xE0
  }

  /** An ADTS sync as the relay tests it: twelve set bits. */
  predicate AacSync(buffer: seq<bv8>)
    requires |buffer| >= 2
  {
    buffer[0] == 0xFF && buffer[1] & 0xF0 == 0xF0
  }

  /** `detectAudioFormat(buffer)` */
  function DetectAudioFormat(buffer: seq<bv8>): (format: string)
    ensures format in {"wav", "mp3", "aac", "flac", "pcm"}
  {
    if |buffer| >= 12 && IsRiff(buffer) && AsciiTagAt(buffer, 8, "WAVE") then "wav"
    else if |buffer| >= 3 && Mp3Sync(buffer) then "mp3"
    else if |buffer| >= 2 && AacSync(buffer) then "aac"
    else if |buffer| >= 4 && AsciiTagAt(buffer, 0, "fLaC") then "flac"
    else "pcm"
  }

  /** A WAVE file header is recognised, and so is any buffer whose first
      twelve bytes spell RIFF....WAVE once their high bits are cleared. */
  lemma WavRecognised(buffer: seq<bv8>)
    requires |buffer| >= 12
    requires buffer[0] & 0x7F == 0x52 && buffer[1] & 0x7F == 0x49
    requires buffer[2] & 0x7F == 0x46 && buffer[3] & 0x7F == 0x46
    requires buffer[8] & 0x7F == 0x57 && buffer[9] & 0x7F == 0x41
    requires buffer[10] & 0x7F == 0x56 && buffer[11] & 0x7F == 0x45
    ensures DetectAudioFormat(buffer) == "wav"
  {
    assert IsRiff(buffer) by {
      assert Ascii(buffer[0]) == 'R' && Ascii(buffer[1]) == 'I';
      assert Ascii(buffer[2]) == 'F' && Ascii(buffer[3]) == 'F';
    }
    assert AsciiTagAt(buffer, 8, "WAVE") by {
      assert Ascii(buffer[8]) == 'W' && Ascii(buffer[9]) == 'A';
      assert Ascii(buffer[10]) == 'V' && Ascii(buffer[11]) == 'E';
    }
  }

  /** Only a buffer that spells RIFF at 0 and WAVE at 8 is classed as WAV. */
  lemma WavOnlyForRiffWave(buffer: seq<bv8>)
    ensures DetectAudioFormat(buffer) == "wav" ==>
              |buffer| >= 12 && IsRiff(buffer) && AsciiTagAt(buffer, 8, "WAVE")
  {
  }

  /** A buffer is MP3 exactly when it has three or more bytes and starts with
      an MPEG frame sync (a sync byte 0xFF can never start a RIFF tag). */
  lemma Mp3IffSync(buffer: seq<bv8>)
    ensures DetectAudioFormat(buffer) == "mp3" <==> |buffer| >= 3 && Mp3Sync(buffer)
  {
    if |buffer| >= 12 && |buffer| >= 3 && Mp3Sync(buffer) {
      assert !IsRiff(buffer) by {
        assert Ascii(buffer[0]) != "RIFF"[0];
      }
    }
  }

  /** Only a buffer of exactly two bytes is ever classed as AAC: on any
      longer one the (weaker) MP3 sync test fires first. */
  lemma AacOnlyForTwoBytes(buffer: seq<bv8>)
    ensures DetectAudioFormat(buffer) == "aac" <==> |buffer| == 2 && AacSync(buffer)
  {
    if |buffer| >= 2 && AacSync(buffer) {
      assert Mp3Sync(buffer);
    }
  }

  /** A buffer is FLAC exactly when its first four bytes spell "fLaC": an
      'f' can start neither a RIFF tag nor a frame sync. */
  lemma FlacIffMarker(buffer: seq<bv8>)
    ensures DetectAudioFormat(buffer) == "flac" <==> |buffer| >= 4 && AsciiTagAt(buffer, 0, "fLaC")
  {
    if |buffer| >= 4 && AsciiTagAt(buffer, 0, "fLaC") {
      assert Ascii(buffer[0 + 0]) == "fLaC"[0];
      assert !Mp3Sync(buffer);
      assert !IsRiff(buffer) by {
        assert Ascii(buffer[0]) != "RIFF"[0];
      }
    }
  }

  /** Raw PCM is the fallback: a buffer is "pcm" exactly when none of the
      four header tests passes. */
  lemma PcmIffNoHeader(buffer: seq<bv8>)
    ensures DetectAudioFormat(buffer) == "pcm" <==>
              && !(|buffer| >= 12 && IsRiff(buffer) && AsciiTagAt(buffer, 8, "WAVE"))
              && !(|buffer| >= 3 && Mp3Sync(buffer))
              && !(|buffer| >= 2 && AacSync(buffer))
              && !(|buffer| >= 4 && AsciiTagAt(buffer, 0, "fLaC"))
  {
  }

  /** The bytes 66 4C 61 43 ("fLaC") are recognised. */
  lemma FlacRecognised(buffer: seq<bv8>)
    requires |buffer| >= 4
    requires buffer[0] == 0x66 && buffer[1] == 0x4C && buffer[2] == 0x61 && buffer[3] == 0x43
    ensures DetectAudioFormat(buffer) == "flac"
  {
    assert Ascii(buffer[0]) == 'f' && Ascii(buffer[1]) == 'L';
    assert Ascii(buffer[2]) == 'a' && Ascii(buffer[3]) == 'C';
    assert !Mp3Sync(buffer);
    assert AsciiTagAt(buffer, 0, "fLaC");
    assert !IsRiff(buffer) by {
      assert Ascii(buffer[0]) != "RIFF"[0];
    }
  }

  /** `readUInt16LE(offset)` */
  function U16LE(buffer: seq<bv8>, offset: nat): (v: int)
    requires offset + 2 <= |buffer|
    ensures 0 <= v < 0x1_0000
  {
    buffer[offset] as int + 0x100 * buffer[offset + 1] as int
  }

  /** `readUInt32LE(offset)` */
  function U32LE(buffer: seq<bv8>, offset: nat): (v: int)
    requires offset + 4 <= |buffer|
    ensures 0 <= v < 0x1_0000_0000
  {
    U16LE(buffer, offset) + 0x1_0000 * U16LE(buffer, offset + 2)
  }

  /** The MPEG-1 sample-rate table the relay uses (index 3 is reserved). */
  const Mp3SampleRates: seq<int> := [44100, 48000, 32000]

  /** The ADTS sample-rate table (indices 12 to 15 are reserved). */
  const AacSampleRates: seq<int> :=
    [96000, 88200, 64000, 48000, 44100, 32000, 24000, 22050, 16000, 12000, 11025, 8000]

  /** `table[index] || fallback`: a missing (or zero) entry gives the fallback. */
  function LookupOr(table: seq<int>, index: nat, fallback: int): int
  {
    if index < |table| && table[index] != 0 then table[index] else fallback
  }

  /** The byte at `index`, or 0 past the end. */
  function ByteAt(buffer: seq<bv8>, index: int): bv8
  {
    if 0 <= index < |buffer| then buffer[index] else 0
  }

  /** Bits 3..2 of the third MPEG header byte. */
  function Mp3RateIndex(b2: bv8): nat
  {
    ((b2 >> 2) & 0x03) as nat
  }

  /** Bits 5..2 of the third ADTS header byte. */
  function AdtsRateIndex(b2: bv8): nat
  {
    ((b2 >> 2) & 0x0F) as nat
  }

  /** Bits 7..6 of the fourth MPEG header byte. */
  function Mp3ChannelMode(b3: bv8): nat
  {
    ((b3 >> 6) & 0x03) as nat
  }

  /** Bit 0 of the third and bits 7..6 of the fourth ADTS header byte. */
  function AdtsChannelConfig(b2: bv8, b3: bv8): nat
  {
    (((b2 & 0x01) << 2) | ((b3 >> 6) & 0x03)) as nat
  }

  /** `detectSampleRate(buffer)` */
  function DetectSampleRate(buffer: seq<bv8>): (rate: int)
    ensures 0 <= rate < 0x1_0000_0000
    ensures rate == 0 ==> |buffer| >= 28 && IsRiff(buffer)
  {
    if |buffer| >= 28 && IsRiff(buffer) then U32LE(buffer, 24)
    else if |buffer| >= 4 && Mp3Sync(buffer) then
      LookupOr(Mp3SampleRates, Mp3RateIndex(ByteAt(buffer, 2)), 44100)
    else if |buffer| >= 7 && AacSync(buffer) then
      LookupOr(AacSampleRates, AdtsRateIndex(ByteAt(buffer, 2)), 44100)
    else 44100
  }

  /** Outside a RIFF header the rate is always an MPEG-1 rate: the ADTS
      branch is never reached, and the reserved MP3 index falls back to
      44100. */
  lemma SampleRateWithoutRiff(buffer: seq<bv8>)
    requires !(|buffer| >= 28 && IsRiff(buffer))
    ensures DetectSampleRate(buffer) in {44100, 48000, 32000}
  {
    if |buffer| >= 7 && AacSync(buffer) {
      assert Mp3Sync(buffer);
    }
  }

  /** A RIFF header of at least 28 bytes yields its little-endian rate field. */
  lemma SampleRateFromRiff(buffer: seq<bv8>)
    requires |buffer| >= 28 && IsRiff(buffer)
    ensures DetectSampleRate(buffer)
            == buffer[24] as int + 0x100 * buffer[25] as int
               + 0x1_0000 * buffer[26] as int + 0x100_0000 * buffer[27] as int
  {
  }

  /** `detectChannels(buffer)` */
  function DetectChannels(buffer: seq<bv8>): (channels: int)
    ensures 0 <= channels < 0x1_0000
    ensures channels == 0 ==> |buffer| >= 24 && IsRiff(buffer)
  {
    if |buffer| >= 24 && IsRiff(buffer) then U16LE(buffer, 22)
    else if |buffer| >= 4 && Mp3Sync(buffer) then
      (if Mp3ChannelMode(ByteAt(buffer, 3)) == 3 then 1 else 2)
    else if |buffer| >= 4 && AacSync(buffer) then
      var config := AdtsChannelConfig(ByteAt(buffer, 2), ByteAt(buffer, 3));
      if config != 0 then config else 2
    else 2
  }

  /** A RIFF header of at least 24 bytes yields its little-endian channel
      field. */
  lemma ChannelsFromRiff(buffer: seq<bv8>)
    requires |buffer| >= 24 && IsRiff(buffer)
    ensures DetectChannels(buffer) == buffer[22] as int + 0x100 * buffer[23] as int
  {
  }

  /** Outside a RIFF header the channel count is 1 (MP3 mono) or 2. */
  lemma ChannelsWithoutRiff(buffer: seq<bv8>)
    requires !(|buffer| >= 24 && IsRiff(buffer))
    ensures DetectChannels(buffer) in {1, 2}
    ensures DetectChannels(buffer) == 1 <==>
              |buffer| >= 4 && Mp3Sync(buffer) && Mp3ChannelMode(buffer[3]) == 3
  {
    if |buffer| >= 4 && AacSync(buffer) {
      assert Mp3Sync(buffer);
    }
  }

  // ---------------------------------------------------------------------
  // Format detection as evidently intended
  // ---------------------------------------------------------------------

  /** An ADTS header: twelve sync bits followed by the layer bits 00. */
  predicate AdtsHeader(buffer: seq<bv8>)
    requires |buffer| >= 2
  {
    buffer[0] == 0xFF && buffer[1] & 0xF6 == 0xF0
  }

  /** Format detection with the ADTS test (sync plus layer 00) made before
      the MPEG sync test, so that AAC streams are recognised. */
  function DetectAudioFormatAdtsFirst(buffer: seq<bv8>): (format: string)
    ensures format in {"wav", "mp3", "aac", "flac", "pcm"}
  {
    if |buffer| >= 12 && IsRiff(buffer) && AsciiTagAt(buffer, 8, "WAVE") then "wav"
    else if |buffer| >= 2 && AdtsHeader(buffer) then "aac"
    else if |buffer| >= 3 && Mp3Sync(buffer) then "mp3"
    else if |buffer| >= 4 && AsciiTagAt(buffer, 0, "fLaC") then "flac"
    else "pcm"
  }

  /** An ADTS frame header (0xFF 0xF1 ...) is classed as MP3 as written. */
  lemma AdtsFrameReportedAsMp3()
    ensures DetectAudioFormat([0xFF, 0xF1, 0x50, 0x80, 0x02, 0x1F, 0xFC]) == "mp3"
  {
    var b: seq<bv8> := [0xFF, 0xF1, 0x50, 0x80, 0x02, 0x1F, 0xFC];
    assert !IsRiff(b) by {
      assert Ascii(b[0]) != "RIFF"[0];
    }
  }

  /** With the ADTS test first, every ADTS header is AAC, and every MPEG
      frame whose layer bits are not 00 is still MP3. */
  lemma AdtsFirstClassifies(buffer: seq<bv8>)
    requires |buffer| >= 3
    ensures AdtsHeader(buffer) ==> DetectAudioFormatAdtsFirst(buffer) == "aac"
    ensures Mp3Sync(buffer) && buffer[1] & 0x06 != 0 ==> DetectAudioFormatAdtsFirst(buffer) == "mp3"
  {
    if buffer[0] == 0xFF && |buffer| >= 4 {
      assert !IsRiff(buffer) by {
        assert Ascii(buffer[0]) != "RIFF"[0];
      }
    }
  }
}
