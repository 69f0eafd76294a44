/** The stream sink handed to the capture manager as its StreamTarget
    (packages/gum2novasonic; the socket-free earlier copy of the class has
    the same logic). It holds the current capture stream and stops every
    track of a stream it is asked to let go of. */
module GumSink {
  import opened Media
  import MicManagerClass

  /** What `setStream` may be called with. */
  datatype StreamArg = Undefined | Null | Given(stream: Stream)

  const UndefinedStreamMessage := "Stream from GUM cannot be undefined"

  /** The tracks of a held stream, none when nothing is held. */
  function TracksOf(held: Option<Stream>): seq<TrackId>
  {
    if held.Some? then held.value.tracks else []
  }

  /** The tracks of several streams, in order. */
  function AllTracks(streams: seq<Stream>): seq<TrackId>
  {
    if streams == [] then []
    else AllTracks(streams[..|streams| - 1]) + streams[|streams| - 1].tracks
  }

  /** The hooks the sink advertises: all five optional hooks, none of which
      throws. */
  const SinkTarget := StreamTarget({Start, Stop, OnStreamStart, OnStreamStop, OnStreamError}, map[])

  class Gum2NovaSonic {
    var gumStream: Option<Stream>
    /** Every `track.stop()` this sink has called, in order. */
    ghost var stopped: seq<TrackId>
    /** Every stream this sink has been given, in order. */
    ghost var received: seq<Stream>

    /** The current stream is the last one received, and every earlier
        stream (and the current one, once released) has had all of its
        tracks stopped, in the order the streams came. */
    ghost predicate Valid()
      reads this
    {
      && (gumStream.None? ==> stopped == AllTracks(received))
      && (gumStream.Some? ==>
            && received != []
            && gumStream.value == received[|received| - 1]
            && stopped == AllTracks(received[..|received| - 1]))
    }

    constructor ()
      ensures Valid()
      ensures gumStream == None && stopped == [] && received == []
    {
      gumStream := None;
      stopped := [];
      received := [];
    }

    /** The capability record this sink hands to a manager. */
    function SetStreamTarget(): (t: StreamTarget)
      ensures forall h :: t.Has(h)
      ensures t.throwing == map[]
    {
      SinkTarget
    }

    /** `setStream(arg)`: `undefined` is refused before anything changes;
        otherwise the held stream, if any, has every track stopped, and the
        argument (a stream, or nothing for `null`) is held instead. */
    method SetStream(arg: StreamArg) returns (err: Option<string>)
      requires Valid()
      modifies this
      ensures Valid()
      ensures arg.Undefined? ==>
                err == Some(UndefinedStreamMessage) && gumStream == old(gumStream)
                && stopped == old(stopped) && received == old(received)
      ensures !arg.Undefined? ==> err == None && stopped == old(stopped) + TracksOf(old(gumStream))
      ensures arg.Null? ==> gumStream == None && received == old(received)
      ensures arg.Given? ==> gumStream == Some(arg.stream) && received == old(received) + [arg.stream]
    {
      if arg.Undefined? {
        return Some(UndefinedStreamMessage);
      }
      if gumStream.Some? {
        var tracks := gumStream.value.tracks;
        ghost var stopped0 := stopped;
        var i := 0;
        while i < |tracks|
          invariant 0 <= i <= |tracks|
          invariant stopped == stopped0 + tracks[..i]
          invariant gumStream == old(gumStream) && received == old(received)
        {
          stopped := stopped + [tracks[i]];
          assert tracks[..i + 1] == tracks[..i] + [tracks[i]];
          i := i + 1;
        }
        assert tracks[..i] == tracks;
        assert received[..|received| - 1] + [received[|received| - 1]] == received;
      }
      match arg {
        case Null =>
          gumStream := None;
        case Given(s) =>
          gumStream := Some(s);
          received := received + [s];
          assert received[..|received| - 1] == old(received);
      }
      err := None;
    }

    /** `start()`: logs only. */
    method Start()
      ensures unchanged(this)
    {
    }

    /** `stop()`: logs only. */
    method Stop()
      ensures unchanged(this)
    {
    }

    /** `onStreamStart()`: logs only. */
    method OnStreamStart()
      ensures unchanged(this)
    {
    }

    /** `onStreamStop()`: logs only. */
    method OnStreamStop()
      ensures unchanged(this)
    {
    }

    /** `onStreamError(error)`: logs only. */
    method OnStreamError(message: string)
      ensures unchanged(this)
    {
    }
  }

  /** Handed to the capture manager, the sink is told every step of a
      recording's start, in order. */
  lemma SinkHearsWholeStart(s: Stream)
    ensures RunHooks(SinkTarget, MicManagerClass.StartHooks(s)) == HookRun(MicManagerClass.StartHooks(s), None)
  {
    MicManagerClass.CompleteTargetStartOrder(SinkTarget, s);
  }

  /** ... and every step of its stop, in order. */
  lemma SinkHearsWholeStop()
    ensures MicManagerClass.TeardownNotice(Some(SinkTarget), true)
            == [MicManagerClass.Invoked(SetStreamCall(None)), MicManagerClass.Invoked(StopCall),
                MicManagerClass.Invoked(OnStreamStopCall)]
  {
    MicManagerClass.CompleteTargetStopOrder(SinkTarget);
  }

  /** A start followed by the manager's stop, `setStream(s)` then
      `setStream(null)`, stops exactly the tracks of `s` and leaves nothing
      held. */
  method StartThenStop(sink: Gum2NovaSonic, s: Stream)
    requires sink.Valid() && sink.gumStream == None
    modifies sink
    ensures sink.Valid() && sink.gumStream == None
    ensures sink.stopped == old(sink.stopped) + s.tracks
    ensures sink.received == old(sink.received) + [s]
  {
    var _ := sink.SetStream(Given(s));
    var _ := sink.SetStream(Null);
  }
}
