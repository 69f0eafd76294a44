/** The capture-session manager of packages/micmgr: the record returned by
    `jfmicmgr(params)`, whose closure variables (the state atom, the
    microphone-list cache and its timestamp, the held audio stream) become the
    fields of one object. Calls to the platform and state notifications are
    recorded in a ghost log. */
module JfMicMgr {
  import opened Media

  datatype MgrState = Uninitialized | Idle | Recording | Error

  function StateName(s: MgrState): string
  {
    match s
    case Uninitialized => "Uninitialized"
    case Idle => "Idle"
    case Recording => "Recording"
    case Error => "Error"
  }

  /** The `validStateChanges` table: no state leads to itself or back to
      Uninitialized; every state but Idle leads to Idle, and every state but
      Error can fail. */
  function ValidStateChanges(from: MgrState): (next: seq<MgrState>)
    ensures from !in next && Uninitialized !in next
    ensures Idle in next <==> from != Idle
    ensures Error in next <==> from != Error
  {
    match from
    case Uninitialized => [Idle, Recording, Error]
    case Idle => [Recording, Error]
    case Recording => [Idle, Error]
    case Error => [Idle]
  }

  predicate CanChange(from: MgrState, to: MgrState)
  {
    to in ValidStateChanges(from)
  }

  /** The shape of the table: no state moves to itself, nothing moves back to
      Uninitialized, Error only leads to Idle, and Idle can be re-entered only
      from Uninitialized, Recording or Error. */
  lemma TransitionTableShape()
    ensures forall s :: !CanChange(s, s)
    ensures forall s :: !CanChange(s, Uninitialized)
    ensures forall t :: CanChange(Error, t) <==> t == Idle
    ensures forall s :: CanChange(s, Idle) <==> s != Idle
    ensures forall s, t :: s != t && t != Uninitialized && s != Error ==> CanChange(s, t)
  {
  }

  /** Errors raised by the manager: the base class and its two subclasses. */
  datatype MicError =
    | MicManagerError(message: string)
    | DeviceError(message: string)
    | StreamError(message: string)

  function InvalidChangeMessage(from: MgrState, to: MgrState): string
  {
    "Invalid state change from " + StateName(from) + " to " + StateName(to)
  }

  const MicListCacheDuration := 54321

  /** The cache answers when it holds a list (an empty list is truthy too) and
      strictly fewer than `ttl` milliseconds have passed. */
  predicate CacheFresh(cache: Option<seq<Microphone>>, timestamp: int, now: int, ttl: int)
  {
    cache.Some? && now - timestamp < ttl
  }

  /** The audio target given at creation: an HTMLAudioElement, or a handler
      object, to which this version never routes the stream. */
  datatype Target = AudioElementTarget | HandlerTarget

  /** Observable effects, in the order they happen. */
  datatype Event =
    | StateSet(state: MgrState)
    | RequestStream(constraints: AudioConstraints)
    | EnumerateDevices
    | StopTrack(track: TrackId)
    | RemoveTrack(track: TrackId)
    | AttachToElement(stream: Stream)
    | PlayElement

  /** The effects of stopping, then removing, each track in turn. */
  function TrackTeardown(tracks: seq<TrackId>): seq<Event>
  {
    if tracks == [] then []
    else TrackTeardown(tracks[..|tracks| - 1])
         + [StopTrack(tracks[|tracks| - 1]), RemoveTrack(tracks[|tracks| - 1])]
  }

  /** One turn of the teardown loop adds the stop and the removal of one
      more track to the effects. */
  lemma TeardownStep(tracks: seq<TrackId>, i: nat)
    requires i < |tracks|
    ensures TrackTeardown(tracks[..i + 1]) == TrackTeardown(tracks[..i]) + [StopTrack(tracks[i]), RemoveTrack(tracks[i])]
  {
    assert tracks[..i + 1][..i] == tracks[..i];
  }

  /** ... and removes that track from what remains of the stream. */
  lemma RemovalStep(tracks: seq<TrackId>, i: nat)
    requires i < |tracks|
    ensures Without(Remaining(tracks, tracks[..i]), tracks[i]) == Remaining(tracks, tracks[..i + 1])
  {
    var prefix := tracks[..i];
    assert tracks[..i + 1] == prefix + [tracks[i]];
    RemoveOneMore(tracks, prefix, tracks[i]);
  }

  /** Before the teardown loop nothing is removed; after it, everything is. */
  lemma TeardownBounds(tracks: seq<TrackId>)
    ensures Remaining(tracks, tracks[..0]) == tracks && TrackTeardown(tracks[..0]) == []
    ensures Remaining(tracks, tracks[..|tracks|]) == []
    ensures TrackTeardown(tracks[..|tracks|]) == TrackTeardown(tracks)
  {
    assert tracks[..0] == [];
    assert tracks[..|tracks|] == tracks;
    RemovingAllTracksEmpties(tracks, tracks);
  }

  /** The held stream once every one of its tracks has been removed. */
  function Emptied(s: Option<Stream>): Option<Stream>
  {
    match s
    case None => None
    case Some(st) => Some(st.(tracks := []))
  }

  class MicSession {
    /** `currentState` of the returned record: read once, at creation. */
    const currentState: MgrState
    const audioStreamTarget: Target
    /** The `$currentState` atom. */
    var state: MgrState
    var micListCache: Option<seq<Microphone>>
    var micListCacheTimestamp: int
    var audioStream: Option<Stream>
    ghost var calls: seq<Event>

    /** `jfmicmgr(params)` at time `now`. */
    constructor (target: Target, now: int)
      ensures currentState == Uninitialized && state == Uninitialized
      ensures audioStreamTarget == target
      ensures micListCache == None && micListCacheTimestamp == now
      ensures audioStream == None && calls == []
    {
      currentState := Uninitialized;
      audioStreamTarget := target;
      state := Uninitialized;
      micListCache := None;
      micListCacheTimestamp := now;
      audioStream := None;
      calls := [];
    }

    /** `changeState(newState)`: a move the table allows is committed and
        notified; any other raises MicManagerError and changes nothing. */
    method ChangeState(newState: MgrState) returns (err: Option<MicError>)
      modifies this`state, this`calls
      ensures CanChange(old(state), newState) ==>
                err == None && state == newState && calls == old(calls) + [StateSet(newState)]
      ensures !CanChange(old(state), newState) ==>
                && err == Some(MicManagerError(InvalidChangeMessage(old(state), newState)))
                && state == old(state) && calls == old(calls)
    {
      if newState !in ValidStateChanges(state) {
        return Some(MicManagerError(InvalidChangeMessage(state, newState)));
      }
      state := newState;
      calls := calls + [StateSet(newState)];
      err := None;
    }

    /** `stopRecording()`: stops and removes every track of the held stream,
        keeps holding the (now empty) stream, and never touches the state. */
    method StopRecording()
      modifies this`audioStream, this`calls
      ensures audioStream == Emptied(old(audioStream))
      ensures calls == old(calls) + if old(audioStream).Some? then TrackTeardown(old(audioStream).value.tracks) else []
    {
      if audioStream.Some? {
        var held := audioStream.value;
        var tracks := held.tracks;
        ghost var calls0 := calls;
        var i := 0;
        TeardownBounds(tracks);
        while i < |tracks|
          invariant 0 <= i <= |tracks|
          invariant audioStream == Some(held.(tracks := Remaining(tracks, tracks[..i])))
          invariant calls == calls0 + TrackTeardown(tracks[..i])
        {
          var track := tracks[i];
          // track.stop(), then audioStream.removeTrack(track)
          audioStream := Some(audioStream.value.(tracks := Without(audioStream.value.tracks, track)));
          RemovalStep(tracks, i);
          calls := calls + [StopTrack(track), RemoveTrack(track)];
          TeardownStep(tracks, i);
          assert calls == calls0 + (TrackTeardown(tracks[..i]) + [StopTrack(track), RemoveTrack(track)]);
          i := i + 1;
        }
      }
    }

    /** `getMicrophoneList()` at time `now`. `hasMediaDevices` says whether the
        platform exposes navigator.mediaDevices; `permission` and `devices`
        are the outcomes of getUserMedia and enumerateDevices. */
    method GetMicrophoneList(now: int, hasMediaDevices: bool,
                             permission: Settled<Stream>, devices: Settled<seq<DeviceInfo>>)
      returns (r: Result<seq<Microphone>, MicError>)
      modifies this`micListCache, this`micListCacheTimestamp, this`state, this`calls
      // a fresh cache answers alone
      ensures CacheFresh(old(micListCache), old(micListCacheTimestamp), now, MicListCacheDuration) ==>
                r == Ok(old(micListCache).value) && unchanged(this)
      // no media devices: rejected before any platform call
      ensures !CacheFresh(old(micListCache), old(micListCacheTimestamp), now, MicListCacheDuration) && !hasMediaDevices ==>
                r == Err(DeviceError("MediaDevices API not supported")) && unchanged(this)
      // from here on, a fetch
      ensures !CacheFresh(old(micListCache), old(micListCacheTimestamp), now, MicListCacheDuration) && hasMediaDevices ==>
                if permission.Rejected? then
                  && r == Err(DeviceError(MessageOf(permission.reason, "Failed to get microphone list")))
                  && micListCache == old(micListCache) && micListCacheTimestamp == old(micListCacheTimestamp)
                  && state == old(state) && calls == old(calls) + [RequestStream(PermissionRequest)]
                else if devices.Rejected? then
                  && r == Err(DeviceError(MessageOf(devices.reason, "Failed to get microphone list")))
                  && micListCache == old(micListCache) && micListCacheTimestamp == old(micListCacheTimestamp)
                  && state == old(state) && calls == old(calls) + [RequestStream(PermissionRequest), EnumerateDevices]
                else
                  // the cache is refreshed before the move to Idle, which fails from Idle
                  && micListCache == Some(ToMicrophones(devices.value)) && micListCacheTimestamp == now
                  && state == Idle
                  && (old(state) != Idle ==>
                        r == Ok(ToMicrophones(devices.value))
                        && calls == old(calls) + [RequestStream(PermissionRequest), EnumerateDevices, StateSet(Idle)])
                  && (old(state) == Idle ==>
                        r == Err(DeviceError(InvalidChangeMessage(Idle, Idle)))
                        && calls == old(calls) + [RequestStream(PermissionRequest), EnumerateDevices])
      ensures audioStream == old(audioStream)
    {
      if micListCache.Some? && now - micListCacheTimestamp < MicListCacheDuration {
        return Ok(micListCache.value);
      }
      if !hasMediaDevices {
        return Err(DeviceError("MediaDevices API not supported"));
      }
      calls := calls + [RequestStream(PermissionRequest)];
      if permission.Rejected? {
        return Err(DeviceError(MessageOf(permission.reason, "Failed to get microphone list")));
      }
      calls := calls + [EnumerateDevices];
      if devices.Rejected? {
        return Err(DeviceError(MessageOf(devices.reason, "Failed to get microphone list")));
      }
      var microphones := ToMicrophones(devices.value);
      micListCache := Some(microphones);
      micListCacheTimestamp := now;
      var changeErr := ChangeState(Idle);
      if changeErr.Some? {
        return Err(DeviceError(changeErr.value.message));
      }
      r := Ok(microphones);
    }

    /** `getMicrophoneList()` as evidently intended: a successful fetch
        settles in Idle without asking to move from Idle to Idle, so every
        successful enumeration yields its list. */
    method RefreshMicrophoneList(now: int, hasMediaDevices: bool,
                                 permission: Settled<Stream>, devices: Settled<seq<DeviceInfo>>)
      returns (r: Result<seq<Microphone>, MicError>)
      modifies this`micListCache, this`micListCacheTimestamp, this`state, this`calls
      ensures CacheFresh(old(micListCache), old(micListCacheTimestamp), now, MicListCacheDuration) ==>
                r == Ok(old(micListCache).value) && unchanged(this)
      ensures !CacheFresh(old(micListCache), old(micListCacheTimestamp), now, MicListCacheDuration) ==>
                if hasMediaDevices && permission.Resolved? && devices.Resolved? then
                  && r == Ok(ToMicrophones(devices.value)) && state == Idle
                  && micListCache == Some(ToMicrophones(devices.value)) && micListCacheTimestamp == now
                else
                  && r.Err? && r.error.DeviceError? && state == old(state)
                  && micListCache == old(micListCache) && micListCacheTimestamp == old(micListCacheTimestamp)
    {
      if micListCache.Some? && now - micListCacheTimestamp < MicListCacheDuration {
        return Ok(micListCache.value);
      }
      if !hasMediaDevices {
        return Err(DeviceError("MediaDevices API not supported"));
      }
      calls := calls + [RequestStream(PermissionRequest)];
      if permission.Rejected? {
        return Err(DeviceError(MessageOf(permission.reason, "Failed to get microphone list")));
      }
      calls := calls + [EnumerateDevices];
      if devices.Rejected? {
        return Err(DeviceError(MessageOf(devices.reason, "Failed to get microphone list")));
      }
      var microphones := ToMicrophones(devices.value);
      micListCache := Some(microphones);
      micListCacheTimestamp := now;
      if state != Idle {
        var _ := ChangeState(Idle);
      }
      r := Ok(microphones);
    }

    /** `startRecording(deviceId)`; `acquisition` is the outcome of getUserMedia. */
    method StartRecording(deviceId: Option<string>, acquisition: Settled<Stream>)
      returns (err: Option<MicError>)
      modifies this`audioStream, this`calls
      ensures
        var stopped := if old(audioStream).Some? then TrackTeardown(old(audioStream).value.tracks) else [];
        var request := RequestStream(RequestConstraints(if deviceId.Some? then deviceId.value else ""));
        match acquisition
        case Rejected(reason) =>
          && err == Some(StreamError(MessageOf(reason, "Failed to start recording")))
          && audioStream == Emptied(old(audioStream))
          && calls == old(calls) + stopped + [request]
        case Resolved(stream) =>
          && err == None
          && audioStream == Some(stream)
          && calls == old(calls) + stopped + [request]
                     + if audioStreamTarget == AudioElementTarget then [AttachToElement(stream), PlayElement] else []
    {
      if audioStream.Some? {
        StopRecording();
      }
      var constraints := RequestConstraints(if deviceId.Some? then deviceId.value else "");
      calls := calls + [RequestStream(constraints)];
      match acquisition {
        case Rejected(reason) =>
          return Some(StreamError(MessageOf(reason, "Failed to start recording")));
        case Resolved(stream) =>
          audioStream := Some(stream);
          if audioStreamTarget == AudioElementTarget {
            calls := calls + [AttachToElement(stream), PlayElement];
          }
          err := None;
      }
    }
  }

  /** A refresh after the cache has expired, from Idle, is rejected although
      the enumeration succeeded: `changeState("Idle")` refuses Idle to Idle. */
  method ExpiredRefreshFromIdle(devices: seq<DeviceInfo>, t0: int, stream: Stream)
    returns (first: Result<seq<Microphone>, MicError>, second: Result<seq<Microphone>, MicError>)
    ensures first == Ok(ToMicrophones(devices))
    ensures second == Err(DeviceError("Invalid state change from Idle to Idle"))
  {
    var session := new MicSession(AudioElementTarget, t0);
    first := session.GetMicrophoneList(t0, true, Resolved(stream), Resolved(devices));
    second := session.GetMicrophoneList(t0 + MicListCacheDuration, true, Resolved(stream), Resolved(devices));
    assert InvalidChangeMessage(Idle, Idle) == "Invalid state change from Idle to Idle";
  }

  /** With the intended refresh, the same two calls both yield the list. */
  method ExpiredRefreshFromIdleIntended(devices: seq<DeviceInfo>, t0: int, stream: Stream)
    returns (first: Result<seq<Microphone>, MicError>, second: Result<seq<Microphone>, MicError>)
    ensures first == Ok(ToMicrophones(devices))
    ensures second == Ok(ToMicrophones(devices))
  {
    var session := new MicSession(AudioElementTarget, t0);
    first := session.RefreshMicrophoneList(t0, true, Resolved(stream), Resolved(devices));
    second := session.RefreshMicrophoneList(t0 + MicListCacheDuration, true, Resolved(stream), Resolved(devices));
  }
}
