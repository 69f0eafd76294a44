/** The class version of the capture-session manager (packages/mic_manager):
    one live instance per process, a microphone-list cache, a held stream and
    a pluggable StreamTarget whose optional hooks are called in a fixed order.
    This version keeps no lifecycle state. The process-wide
    `_instanceCreated` flag lives in an InstanceRegistry object; calls to the
    platform, to the target and to the default audio element are recorded in
    a ghost log. */
module MicManagerClass {
  import opened Media

  datatype MicError =
    | MicManagerError(message: string)
    | DeviceError(message: string)
    | StreamError(message: string)
    /** An Error thrown by the target's own onStreamError hook, which escapes as is. */
    | TargetError(message: string)

  const MicListCacheDuration := 5000

  predicate CacheFresh(cache: Option<seq<Microphone>>, timestamp: int, now: int)
  {
    cache.Some? && now - timestamp < MicListCacheDuration
  }

  /** Observable effects, in the order they happen. */
  datatype Event =
    | RequestStream(constraints: AudioConstraints)
    | EnumerateDevices
    /** `track.stop()` was attempted; `threw` says whether it threw (and was swallowed). */
    | StopTrack(track: TrackId, threw: bool)
    | Invoked(call: HookCall)
    | SetElementSource(source: Option<Stream>)
    | PlayElement

  function Invocations(calls: seq<HookCall>): seq<Event>
  {
    seq(|calls|, i requires 0 <= i < |calls| => Invoked(calls[i]))
  }

  /** One stop attempt per track, in order, whatever each attempt does. */
  function TrackStops(tracks: seq<TrackId>, failing: set<TrackId>): seq<Event>
  {
    if tracks == [] then []
    else TrackStops(tracks[..|tracks| - 1], failing)
         + [StopTrack(tracks[|tracks| - 1], tracks[|tracks| - 1] in failing)]
  }

  lemma TrackStopsStep(tracks: seq<TrackId>, failing: set<TrackId>, i: nat)
    requires i < |tracks|
    ensures TrackStops(tracks[..i + 1], failing)
            == TrackStops(tracks[..i], failing) + [StopTrack(tracks[i], tracks[i] in failing)]
  {
    assert tracks[..i + 1][..i] == tracks[..i];
  }

  lemma TrackStopsBounds(tracks: seq<TrackId>, failing: set<TrackId>)
    ensures TrackStops(tracks[..0], failing) == []
    ensures TrackStops(tracks[..|tracks|], failing) == TrackStops(tracks, failing)
  {
    assert tracks[..0] == [];
    assert tracks[..|tracks|] == tracks;
  }

  /** Every track is attempted exactly once, in order, failures included. */
  lemma {:induction false} TrackStopsAttemptAll(tracks: seq<TrackId>, failing: set<TrackId>)
    ensures |TrackStops(tracks, failing)| == |tracks|
    ensures forall i :: 0 <= i < |tracks| ==>
              TrackStops(tracks, failing)[i] == StopTrack(tracks[i], tracks[i] in failing)
  {
    if tracks != [] {
      var front := tracks[..|tracks| - 1];
      TrackStopsAttemptAll(front, failing);
      assert forall i :: 0 <= i < |front| ==> front[i] == tracks[i];
    }
  }

  /** The hooks stopRecording calls on a target, in this order. */
  const StopHooks := [SetStreamCall(None), StopCall, OnStreamStopCall]

  /** The hooks startRecording calls on a target once a stream is acquired. */
  function StartHooks(s: Stream): seq<HookCall>
  {
    [SetStreamCall(Some(s)), StartCall, OnStreamStartCall]
  }

  /** What stopRecording tells the target, or the default audio element. */
  function TeardownNotice(target: Option<StreamTarget>, hasElements: bool): seq<Event>
  {
    if target.Some? then Invocations(RunHooks(target.value, StopHooks).invoked)
    else if hasElements then [SetElementSource(None)]
    else []
  }

  /** Everything stopRecording does, given the stream it holds. */
  function StopTrace(held: Option<Stream>, target: Option<StreamTarget>, hasElements: bool,
                     failing: set<TrackId>): seq<Event>
  {
    match held
    case None => []
    case Some(s) => TrackStops(s.tracks, failing) + TeardownNotice(target, hasElements)
  }

  lemma StopTraceCases(held: Option<Stream>, target: Option<StreamTarget>, hasElements: bool,
                       failing: set<TrackId>)
    ensures held.None? ==> StopTrace(held, target, hasElements, failing) == []
    ensures held.Some? ==>
              StopTrace(held, target, hasElements, failing)
              == TrackStops(held.value.tracks, failing) + TeardownNotice(target, hasElements)
  {
  }

  /** Reporting a start failure: the target's onStreamError, when present, receives it. */
  function ReportTrace(target: Option<StreamTarget>, e: MicError): seq<Event>
  {
    if target.Some? then Invocations(RunHooks(target.value, [OnStreamErrorCall(e.message)]).invoked)
    else []
  }

  /** The error startRecording finally throws: `e`, unless onStreamError itself threw. */
  function Reported(target: Option<StreamTarget>, e: MicError): MicError
  {
    if target.Some? && RunHooks(target.value, [OnStreamErrorCall(e.message)]).thrown.Some?
    then TargetError(RunHooks(target.value, [OnStreamErrorCall(e.message)]).thrown.value)
    else e
  }

  /** A target that implements every hook and throws from none is told, on
      start, setStream(stream), start, onStreamStart, in exactly that order. */
  lemma CompleteTargetStartOrder(target: StreamTarget, s: Stream)
    requires target.optional == {Start, Stop, OnStreamStart, OnStreamStop, OnStreamError}
    requires target.throwing == map[]
    ensures RunHooks(target, StartHooks(s)) == HookRun(StartHooks(s), None)
  {
    RunHooksComplete(target, StartHooks(s));
  }

  /** Such a target is told, on stop, setStream(null), stop, onStreamStop. */
  lemma CompleteTargetStopOrder(target: StreamTarget)
    requires target.optional == {Start, Stop, OnStreamStart, OnStreamStop, OnStreamError}
    requires target.throwing == map[]
    ensures TeardownNotice(Some(target), true)
            == [Invoked(SetStreamCall(None)), Invoked(StopCall), Invoked(OnStreamStopCall)]
  {
    RunHooksComplete(target, StopHooks);
    assert RunHooks(target, StopHooks).invoked == StopHooks;
    assert Invocations(StopHooks)[0] == Invoked(SetStreamCall(None));
  }

  /** Such a target hears a start failure through onStreamError, and the
      failure is thrown unchanged. */
  lemma CompleteTargetErrorReport(target: StreamTarget, e: MicError)
    requires target.optional == {Start, Stop, OnStreamStart, OnStreamStop, OnStreamError}
    requires target.throwing == map[]
    ensures ReportTrace(Some(target), e) == [Invoked(OnStreamErrorCall(e.message))]
    ensures Reported(Some(target), e) == e
  {
    RunHooksComplete(target, [OnStreamErrorCall(e.message)]);
  }

  /** A target with only the required setStream hears setStream alone on start... */
  lemma MinimalTargetStartOrder(target: StreamTarget, s: Stream)
    requires target.optional == {} && target.throwing == map[]
    ensures RunHooks(target, StartHooks(s)) == HookRun([SetStreamCall(Some(s))], None)
  {
    var start := StartHooks(s);
    assert start[1..][1..][1..] == [];
    assert Present(target, start[1..][1..]) == [];
    assert Present(target, start[1..]) == [];
    RunHooksNothingThrows(target, start);
  }

  /** ... and on stop ... */
  lemma MinimalTargetStopOrder(target: StreamTarget)
    requires target.optional == {} && target.throwing == map[]
    ensures TeardownNotice(Some(target), true) == [Invoked(SetStreamCall(None))]
  {
    assert StopHooks[1..][1..][1..] == [];
    assert Present(target, StopHooks[1..][1..]) == [];
    assert Present(target, StopHooks[1..]) == [];
    RunHooksNothingThrows(target, StopHooks);
  }

  /** ... and nothing of a start failure, which is thrown unchanged. */
  lemma MinimalTargetErrorReport(target: StreamTarget, e: MicError)
    requires target.optional == {} && target.throwing == map[]
    ensures ReportTrace(Some(target), e) == []
    ensures Reported(Some(target), e) == e
  {
    RunHooksNothingThrows(target, [OnStreamErrorCall(e.message)]);
  }

  /** The process-wide `MicManager._instanceCreated` flag. */
  class InstanceRegistry {
    var instanceCreated: bool

    constructor ()
      ensures !instanceCreated
    {
      instanceCreated := false;
    }
  }

  class MicManager {
    const registry: InstanceRegistry
    var stream: Option<Stream>
    var streamTarget: Option<StreamTarget>
    var useDefaultAudioElement: bool
    /** Whether the widget elements (and so the default audio element) exist. */
    var hasElements: bool
    var micListCache: Option<seq<Microphone>>
    var micListCacheTimestamp: int
    ghost var calls: seq<Event>
    /** The target that was handed the stream now held, if any. */
    ghost var streamHolder: Option<StreamTarget>

    /** The default audio element is in use exactly when there is no custom
        target, and only the current target can hold the current stream: a
        target never keeps a stream that was set up for another one. */
    ghost predicate Valid()
      reads this
    {
      && (useDefaultAudioElement <==> streamTarget.None?)
      && (streamHolder.Some? ==> stream.Some? && streamHolder == streamTarget)
    }

    /** The body of the constructor after its guard: claim the flag, install
        the target given in the parameters. */
    constructor Init(registry: InstanceRegistry, target: Option<StreamTarget>)
      requires !registry.instanceCreated
      modifies registry
      ensures Valid() && this.registry == registry && registry.instanceCreated
      ensures stream == None && streamTarget == target && !hasElements
      ensures micListCache == None && micListCacheTimestamp == 0
      ensures calls == [] && streamHolder == None
    {
      this.registry := registry;
      stream := None;
      streamTarget := target;
      useDefaultAudioElement := target.None?;
      hasElements := false;
      micListCache := None;
      micListCacheTimestamp := 0;
      calls := [];
      streamHolder := None;
      new;
      registry.instanceCreated := true;
    }

    /** `new MicManager(params)`: refused while an instance is live. */
    static method Create(registry: InstanceRegistry, target: Option<StreamTarget>)
      returns (m: MicManager?, err: Option<MicError>)
      modifies registry
      ensures registry.instanceCreated
      ensures old(registry.instanceCreated) ==>
                m == null && err == Some(MicManagerError("MicManager instance already created"))
      ensures !old(registry.instanceCreated) ==>
                && err == None && m != null && fresh(m) && m.Valid() && m.registry == registry
                && m.stream == None && m.streamTarget == target && !m.hasElements
                && m.micListCache == None && m.micListCacheTimestamp == 0
                && m.calls == [] && m.streamHolder == None
    {
      if registry.instanceCreated {
        return null, Some(MicManagerError("MicManager instance already created"));
      }
      m := new MicManager.Init(registry, target);
      err := None;
    }

    /** The state part of `createMicUI(params)`: a `streamTarget` among the
        parameters is installed first through setStreamTarget (stopping an
        open stream, with the old target told), then the widget elements
        exist. */
    method CreateMicUI(target: Option<StreamTarget>, failing: set<TrackId>)
      requires Valid()
      modifies this`stream, this`calls, this`streamHolder, this`streamTarget,
               this`useDefaultAudioElement, this`hasElements
      ensures Valid() && hasElements
      ensures target.None? ==>
                && stream == old(stream) && streamHolder == old(streamHolder)
                && streamTarget == old(streamTarget)
                && useDefaultAudioElement == old(useDefaultAudioElement)
                && calls == old(calls)
      ensures target.Some? ==>
                && stream == None && streamHolder == None
                && streamTarget == target && !useDefaultAudioElement
                && calls == old(calls) + StopTrace(old(stream), old(streamTarget), old(hasElements), failing)
    {
      if target.Some? {
        SetStreamTarget(target.value, failing);
      }
      hasElements := true;
    }

    /** `stopRecording()` with `failing` the tracks whose stop() throws. A
        no-op without a stream; otherwise every track is attempted, the target
        (or else the audio element) is told, and the stream is released even
        when a hook throws. */
    method StopRecording(failing: set<TrackId>)
      requires Valid()
      modifies this`stream, this`calls, this`streamHolder
      ensures Valid()
      ensures stream == None && streamHolder == None
      ensures old(stream).None? ==> calls == old(calls)
      ensures old(stream).Some? ==>
                calls == old(calls) + (TrackStops(old(stream).value.tracks, failing)
                                       + TeardownNotice(streamTarget, hasElements))
    {
      if stream.Some? {
        ghost var calls0 := calls;
        StopEachTrack(stream.value.tracks, failing);
        NotifyTeardown();
        AppendAssoc(calls0, TrackStops(old(stream).value.tracks, failing), TeardownNotice(streamTarget, hasElements));
        // finally
        stream := None;
        streamHolder := None;
      }
    }

    /** The track loop of stopRecording: `track.stop()` on each track in
        turn; a throw is caught and logged, and the loop goes on. */
    method StopEachTrack(tracks: seq<TrackId>, failing: set<TrackId>)
      modifies this`calls
      ensures calls == old(calls) + TrackStops(tracks, failing)
    {
      var i := 0;
      TrackStopsBounds(tracks, failing);
      while i < |tracks|
        invariant 0 <= i <= |tracks|
        invariant calls == old(calls) + TrackStops(tracks[..i], failing)
      {
        calls := calls + [StopTrack(tracks[i], tracks[i] in failing)];
        TrackStopsStep(tracks, failing, i);
        assert calls == old(calls) + (TrackStops(tracks[..i], failing) + [StopTrack(tracks[i], tracks[i] in failing)]);
        i := i + 1;
      }
    }

    /** The notification part of stopRecording: the target hears
        setStream(null), stop, onStreamStop (a throw ends the sequence and is
        logged), or else the audio element loses its source. */
    method NotifyTeardown()
      modifies this`calls
      ensures calls == old(calls) + TeardownNotice(streamTarget, hasElements)
    {
      if streamTarget.Some? {
        var run := RunHooks(streamTarget.value, StopHooks);
        calls := calls + Invocations(run.invoked);
      } else if hasElements {
        calls := calls + [SetElementSource(None)];
      }
    }

    /** `setStreamTarget(target)`: an open stream is stopped, with the old
        target told, before the new target is installed. */
    method SetStreamTarget(target: StreamTarget, failing: set<TrackId>)
      requires Valid()
      modifies this`stream, this`calls, this`streamHolder, this`streamTarget, this`useDefaultAudioElement
      ensures Valid()
      ensures stream == None && streamHolder == None
      ensures streamTarget == Some(target) && !useDefaultAudioElement
      ensures calls == old(calls) + StopTrace(old(stream), old(streamTarget), hasElements, failing)
    {
      StopTraceCases(stream, streamTarget, hasElements, failing);
      if stream.Some? {
        StopRecording(failing);
      } else {
        assert calls + [] == calls;
      }
      streamTarget := Some(target);
      useDefaultAudioElement := false;
    }

    /** `clearStreamTarget()`: an open stream is stopped, then the default
        audio element is used again. */
    method ClearStreamTarget(failing: set<TrackId>)
      requires Valid()
      modifies this`stream, this`calls, this`streamHolder, this`streamTarget, this`useDefaultAudioElement
      ensures Valid()
      ensures stream == None && streamHolder == None
      ensures streamTarget == None && useDefaultAudioElement
      ensures calls == old(calls) + StopTrace(old(stream), old(streamTarget), hasElements, failing)
    {
      StopTraceCases(stream, streamTarget, hasElements, failing);
      if stream.Some? {
        StopRecording(failing);
      } else {
        assert calls + [] == calls;
      }
      streamTarget := None;
      useDefaultAudioElement := true;
    }

    /** `getMicrophoneList()` at time `now`; the cache is written only after a
        successful enumeration. */
    method GetMicrophoneList(now: int, hasMediaDevices: bool,
                             permission: Settled<Stream>, devices: Settled<seq<DeviceInfo>>)
      returns (r: Result<seq<Microphone>, MicError>)
      modifies this`micListCache, this`micListCacheTimestamp, this`calls
      ensures CacheFresh(old(micListCache), old(micListCacheTimestamp), now) ==>
                r == Ok(old(micListCache).value) && unchanged(this)
      ensures !CacheFresh(old(micListCache), old(micListCacheTimestamp), now) && !hasMediaDevices ==>
                r == Err(DeviceError("MediaDevices API not supported")) && unchanged(this)
      ensures !CacheFresh(old(micListCache), old(micListCacheTimestamp), now) && hasMediaDevices ==>
                if permission.Rejected? then
                  && r == Err(DeviceError(MessageOf(permission.reason, "Failed to get microphone list")))
                  && micListCache == old(micListCache) && micListCacheTimestamp == old(micListCacheTimestamp)
                  && calls == old(calls) + [RequestStream(PermissionRequest)]
                else if devices.Rejected? then
                  && r == Err(DeviceError(MessageOf(devices.reason, "Failed to get microphone list")))
                  && micListCache == old(micListCache) && micListCacheTimestamp == old(micListCacheTimestamp)
                  && calls == old(calls) + [RequestStream(PermissionRequest), EnumerateDevices]
                else
                  && r == Ok(ToMicrophones(devices.value))
                  && micListCache == Some(ToMicrophones(devices.value)) && micListCacheTimestamp == now
                  && calls == old(calls) + [RequestStream(PermissionRequest), EnumerateDevices]
    {
      if micListCache.Some? && now - micListCacheTimestamp < MicListCacheDuration {
        return Ok(micListCache.value);
      }
      if !hasMediaDevices {
        return Err(DeviceError("MediaDevices API not supported"));
      }
      calls := calls + [RequestStream(PermissionRequest)];
      if permission.Rejected? {
        return Err(DeviceError(MessageOf(permission.reason, "Failed to get microphone list")));
      }
      calls := calls + [EnumerateDevices];
      if devices.Rejected? {
        return Err(DeviceError(MessageOf(devices.reason, "Failed to get microphone list")));
      }
      var microphones := ToMicrophones(devices.value);
      micListCache := Some(microphones);
      micListCacheTimestamp := now;
      r := Ok(microphones);
    }

    /** `startRecording(deviceId)`. `failing` is passed to the implicit stop;
        `acquisition` is the outcome of getUserMedia and `playback` the
        rejection of the default element's play(), if it rejects. */
    method StartRecording(deviceId: string, failing: set<TrackId>,
                          acquisition: Settled<Stream>, playback: Option<Rejection>)
      returns (err: Option<MicError>)
      requires Valid()
      modifies this`stream, this`calls, this`streamHolder
      ensures Valid()
      ensures
        var prefix := old(calls) + StopTrace(old(stream), streamTarget, hasElements, failing)
                      + [RequestStream(RequestConstraints(deviceId))];
        match acquisition
        case Rejected(reason) =>
          var e := StreamError(MessageOf(reason, "Failed to start recording"));
          && stream == None && streamHolder == None
          && err == Some(Reported(streamTarget, e))
          && calls == prefix + ReportTrace(streamTarget, e)
        case Resolved(s) =>
          && stream == Some(s)
          && if streamTarget.Some? then
               var run := RunHooks(streamTarget.value, StartHooks(s));
               && streamHolder == streamTarget
               && if run.thrown.None? then
                    err == None && calls == prefix + Invocations(run.invoked)
                  else
                    var e := StreamError(run.thrown.value);
                    && err == Some(Reported(streamTarget, e))
                    && calls == prefix + Invocations(run.invoked) + ReportTrace(streamTarget, e)
             else if hasElements then
               && streamHolder == None
               && calls == prefix + [SetElementSource(Some(s)), PlayElement]
               && err == if playback.Some? then Some(StreamError(MessageOf(playback.value, "Failed to start recording"))) else None
             else
               streamHolder == None && err == None && calls == prefix
    {
      StopTraceCases(stream, streamTarget, hasElements, failing);
      if stream.Some? {
        StopRecording(failing);
      } else {
        assert calls + [] == calls;
      }
      var constraints := RequestConstraints(deviceId);
      calls := calls + [RequestStream(constraints)];
      var failure: Option<Rejection> := None;
      match acquisition {
        case Rejected(reason) =>
          failure := Some(reason);
        case Resolved(s) =>
          stream := Some(s);
          if streamTarget.Some? {
            streamHolder := streamTarget;
            var run := RunHooks(streamTarget.value, StartHooks(s));
            calls := calls + Invocations(run.invoked);
            if run.thrown.Some? {
              failure := Some(ErrorValue(run.thrown.value));
            }
          } else if useDefaultAudioElement && hasElements {
            calls := calls + [SetElementSource(Some(s)), PlayElement];
            failure := playback;
          }
      }
      if failure.Some? {
        var e := StreamError(MessageOf(failure.value, "Failed to start recording"));
        if streamTarget.Some? {
          var report := RunHooks(streamTarget.value, [OnStreamErrorCall(e.message)]);
          calls := calls + Invocations(report.invoked);
        }
        return Some(Reported(streamTarget, e));
      }
      err := None;
    }

    /** The state part of `dispose()`: stop, drop the widget, clear the cache,
        and free the instance flag so that a new manager can be created. */
    method Dispose(failing: set<TrackId>)
      requires Valid()
      modifies this`stream, this`calls, this`streamHolder, this`hasElements,
               this`micListCache, this`micListCacheTimestamp, registry
      ensures Valid()
      ensures stream == None && streamHolder == None && !hasElements
      ensures micListCache == None && micListCacheTimestamp == 0
      ensures !registry.instanceCreated
      ensures calls == old(calls) + StopTrace(old(stream), streamTarget, old(hasElements), failing)
    {
      StopTraceCases(stream, streamTarget, hasElements, failing);
      StopRecording(failing);
      assert old(calls) + [] == old(calls);
      hasElements := false;
      micListCache := None;
      micListCacheTimestamp := 0;
      registry.instanceCreated := false;
    }
  }

  /** Creating, disposing and creating again succeeds; a second creation
      without a dispose in between is refused. */
  method CreateDisposeCreate(registry: InstanceRegistry, target: Option<StreamTarget>)
    returns (first: Option<MicError>, duplicate: Option<MicError>, afterDispose: Option<MicError>)
    requires !registry.instanceCreated
    modifies registry
    ensures first == None && afterDispose == None
    ensures duplicate == Some(MicManagerError("MicManager instance already created"))
  {
    var m;
    m, first := MicManager.Create(registry, target);
    var again;
    again, duplicate := MicManager.Create(registry, target);
    m.Dispose({});
    again, afterDispose := MicManager.Create(registry, target);
  }
}
