/** Values shared by the capture-session managers and the stream sinks:
    streams as identities carrying track ids, enumerated devices, the
    settled outcome of an asynchronous platform call, capture constraints,
    and the capability set of a StreamTarget. */
module Media {

  datatype Option<+T> = None | Some(value: T)

  datatype Result<+T, +E> = Ok(value: T) | Err(error: E)

  type TrackId = nat

  /** A MediaStream: an identity and the ids of the tracks it carries. */
  datatype Stream = Stream(id: nat, tracks: seq<TrackId>)

  /** A microphone as offered to the user. */
  datatype Microphone = Microphone(deviceId: string, labelText: string)

  /** One entry of `enumerateDevices()`. */
  datatype DeviceInfo = DeviceInfo(kind: string, deviceId: string, labelText: string)

  /** What a rejected promise carried: an Error with its message, or any other value. */
  datatype Rejection = ErrorValue(message: string) | NonErrorValue

  /** The settled outcome of one asynchronous platform call (getUserMedia,
      enumerateDevices, play), supplied by the caller of the model. */
  datatype Settled<+T> = Resolved(value: T) | Rejected(reason: Rejection)

  /** `error instanceof Error ? error.message : fallback` */
  function MessageOf(reason: Rejection, fallback: string): string
  {
    match reason
    case ErrorValue(m) => m
    case NonErrorValue => fallback
  }

  // ---------------------------------------------------------------------
  // Capture constraints
  // ---------------------------------------------------------------------

  datatype DeviceConstraint = AnyDevice | Exact(id: string)

  datatype AudioConstraints = AudioConstraints(
    deviceId: DeviceConstraint,
    echoCancellation: bool,
    noiseSuppression: bool,
    autoGainControl: bool)

  /** The permission request made before enumerating: no device, all processing on. */
  const PermissionRequest := AudioConstraints(AnyDevice, true, true, true)

  /** The constraints of a capture request: `{exact: id}` for a truthy
      (non-empty) id, no device constraint otherwise; echo cancellation,
      noise suppression and automatic gain all enabled. */
  function RequestConstraints(deviceId: string): (c: AudioConstraints)
    ensures c.deviceId == AnyDevice <==> deviceId == ""
    ensures c.deviceId != AnyDevice ==> c.deviceId == Exact(deviceId)
    ensures c.echoCancellation && c.noiseSuppression && c.autoGainControl
  {
    AudioConstraints(if deviceId != "" then Exact(deviceId) else AnyDevice, true, true, true)
  }

  lemma AppendAssoc<T>(a: seq<T>, b: seq<T>, c: seq<T>)
    ensures (a + b) + c == a + (b + c)
  {
  }

  // ---------------------------------------------------------------------
  // Device enumeration: filter to audio inputs, map to microphones
  // ---------------------------------------------------------------------

  const AudioInput := "audioinput"

  /** `device.label || "Microphone (<deviceId>)"` */
  function MicrophoneLabel(d: DeviceInfo): (text: string)
    ensures text != ""
    ensures d.labelText != "" ==> text == d.labelText
  {
    if d.labelText != "" then d.labelText else "Microphone (" + d.deviceId + ")"
  }

  /** The microphone a device becomes when it is kept. */
  function AsMicrophone(d: DeviceInfo): Microphone
  {
    Microphone(d.deviceId, MicrophoneLabel(d))
  }

  /** `devices.filter(kind === "audioinput").map(...)` */
  function ToMicrophones(devices: seq<DeviceInfo>): (mics: seq<Microphone>)
    ensures |mics| <= |devices|
    ensures forall m :: m in mics ==> m.labelText != ""
  {
    if devices == [] then []
    else
      (if devices[0].kind == AudioInput then [AsMicrophone(devices[0])] else [])
      + ToMicrophones(devices[1..])
  }

  /** Filtering and mapping distribute over concatenation: the result keeps
      the enumeration order of the devices. */
  lemma {:induction false} ToMicrophonesAppend(a: seq<DeviceInfo>, b: seq<DeviceInfo>)
    ensures ToMicrophones(a + b) == ToMicrophones(a) + ToMicrophones(b)
  {
    if a == [] {
      assert a + b == b;
    } else {
      var head := if a[0].kind == AudioInput then [AsMicrophone(a[0])] else [];
      assert (a + b)[0] == a[0];
      assert (a + b)[1..] == a[1..] + b;
      ToMicrophonesAppend(a[1..], b);
      calc {
        ToMicrophones(a + b);
        head + ToMicrophones(a[1..] + b);
        head + (ToMicrophones(a[1..]) + ToMicrophones(b));
        (head + ToMicrophones(a[1..])) + ToMicrophones(b);
        ToMicrophones(a) + ToMicrophones(b);
      }
    }
  }

  /** A microphone is listed exactly when some audio-input device yields it. */
  lemma {:induction false} ToMicrophonesMembership(devices: seq<DeviceInfo>, m: Microphone)
    ensures m in ToMicrophones(devices) <==>
            exists d :: d in devices && d.kind == AudioInput && m == AsMicrophone(d)
  {
    if devices != [] {
      ToMicrophonesMembership(devices[1..], m);
      assert forall d :: d in devices <==> d == devices[0] || d in devices[1..];
    }
  }

  /** Every audio-input device appears, and nothing else does. */
  lemma {:induction false} ToMicrophonesCount(devices: seq<DeviceInfo>)
    ensures |ToMicrophones(devices)| == |AudioInputs(devices)|
  {
    if devices != [] {
      ToMicrophonesCount(devices[1..]);
    }
  }

  /** The audio-input devices, in order (reference definition for counting). */
  function AudioInputs(devices: seq<DeviceInfo>): seq<DeviceInfo>
  {
    if devices == [] then []
    else (if devices[0].kind == AudioInput then [devices[0]] else []) + AudioInputs(devices[1..])
  }

  // ---------------------------------------------------------------------
  // Track removal (MediaStream.removeTrack)
  // ---------------------------------------------------------------------

  /** The track list after `removeTrack(t)`. */
  function Without(tracks: seq<TrackId>, t: TrackId): (r: seq<TrackId>)
  {
    if tracks == [] then []
    else (if tracks[0] == t then [] else [tracks[0]]) + Without(tracks[1..], t)
  }

  /** The track list after `removeTrack` has been called with each of
      `removed` in turn. */
  function Remaining(tracks: seq<TrackId>, removed: seq<TrackId>): (r: seq<TrackId>)
  {
    if removed == [] then tracks
    else Without(Remaining(tracks, removed[..|removed| - 1]), removed[|removed| - 1])
  }

  /** `removeTrack(t)` drops exactly the track `t`. */
  lemma {:induction false} WithoutMembership(tracks: seq<TrackId>, t: TrackId, x: TrackId)
    ensures x in Without(tracks, t) <==> x in tracks && x != t
  {
    if tracks != [] {
      WithoutMembership(tracks[1..], t, x);
      assert x in tracks <==> x == tracks[0] || x in tracks[1..];
    }
  }

  /** What remains is exactly the tracks not removed. */
  lemma {:induction false} RemainingMembership(tracks: seq<TrackId>, removed: seq<TrackId>, x: TrackId)
    ensures x in Remaining(tracks, removed) <==> x in tracks && x !in removed
  {
    if removed != [] {
      var front := removed[..|removed| - 1];
      var last := removed[|removed| - 1];
      RemainingMembership(tracks, front, x);
      WithoutMembership(Remaining(tracks, front), last, x);
      assert removed == front + [last];
    }
  }

  /** One more `removeTrack(t)` removes `t` from what remains. */
  lemma RemoveOneMore(tracks: seq<TrackId>, removed: seq<TrackId>, t: TrackId)
    ensures Without(Remaining(tracks, removed), t) == Remaining(tracks, removed + [t])
  {
    assert (removed + [t])[..|removed|] == removed;
  }

  /** Removing every track a stream reported leaves it empty. */
  lemma RemovingAllTracksEmpties(tracks: seq<TrackId>, removed: seq<TrackId>)
    requires forall x :: x in tracks ==> x in removed
    ensures Remaining(tracks, removed) == []
  {
    var r := Remaining(tracks, removed);
    if r != [] {
      RemainingMembership(tracks, removed, r[0]);
      assert false;
    }
  }

  // ---------------------------------------------------------------------
  // StreamTarget: a required setStream and five optional hooks
  // ---------------------------------------------------------------------

  datatype Hook = SetStream | Start | Stop | OnStreamStart | OnStreamStop | OnStreamError

  /** One invocation of a hook, with its argument. */
  datatype HookCall =
    | SetStreamCall(stream: Option<Stream>)
    | StartCall
    | StopCall
    | OnStreamStartCall
    | OnStreamStopCall
    | OnStreamErrorCall(message: string)
  {
    function HookOf(): Hook
    {
      match this
      case SetStreamCall(_) => SetStream
      case StartCall => Start
      case StopCall => Stop
      case OnStreamStartCall => OnStreamStart
      case OnStreamStopCall => OnStreamStop
      case OnStreamErrorCall(_) => OnStreamError
    }
  }

  /** The capability set of a stream target. `setStream` is always there;
      `optional` lists the optional hooks it implements; `throwing` maps each
      hook that throws when called to the message of the Error it throws. */
  datatype StreamTarget = StreamTarget(optional: set<Hook>, throwing: map<Hook, string>)
  {
    predicate Has(h: Hook)
    {
      h == SetStream || h in optional
    }
  }

  /** The calls of `calls` whose hook the target implements, in order. */
  function Present(target: StreamTarget, calls: seq<HookCall>): seq<HookCall>
  {
    if calls == [] then []
    else (if target.Has(calls[0].HookOf()) then [calls[0]] else []) + Present(target, calls[1..])
  }

  /** Exactly the calls to implemented hooks are kept. */
  lemma {:induction false} PresentMembership(target: StreamTarget, calls: seq<HookCall>, c: HookCall)
    ensures c in Present(target, calls) <==> c in calls && target.Has(c.HookOf())
  {
    if calls != [] {
      PresentMembership(target, calls[1..], c);
      assert c in calls <==> c == calls[0] || c in calls[1..];
    }
  }

  /** What running `target.h?.()` statements in sequence did: the calls that
      reached the target, and the message of the Error that ended the run. */
  datatype HookRun = HookRun(invoked: seq<HookCall>, thrown: Option<string>)

  /** Run the hook calls in order: an absent optional hook is skipped, and the
      first present hook that throws ends the run. A run that ends normally
      reached every present hook; one that ends with an Error ended at a
      throwing hook, whose message it carries. */
  function RunHooks(target: StreamTarget, calls: seq<HookCall>): (r: HookRun)
    ensures r.thrown.None? ==> r.invoked == Present(target, calls)
    ensures r.thrown.Some? ==>
              && r.invoked != []
              && r.invoked[|r.invoked| - 1].HookOf() in target.throwing
              && r.thrown.value == target.throwing[r.invoked[|r.invoked| - 1].HookOf()]
  {
    if calls == [] then HookRun([], None)
    else
      var c := calls[0];
      if !target.Has(c.HookOf()) then RunHooks(target, calls[1..])
      else if c.HookOf() in target.throwing then HookRun([c], Some(target.throwing[c.HookOf()]))
      else
        var rest := RunHooks(target, calls[1..]);
        HookRun([c] + rest.invoked, rest.thrown)
  }

  /** Only implemented hooks are ever called, and only calls that were made. */
  lemma {:induction false} RunHooksInvokesPresent(target: StreamTarget, calls: seq<HookCall>, c: HookCall)
    ensures c in RunHooks(target, calls).invoked ==> c in calls && target.Has(c.HookOf())
  {
    if calls != [] {
      RunHooksInvokesPresent(target, calls[1..], c);
    }
  }

  /** A run calls the implemented hooks in order and stops at the first one
      that throws: what it invoked is a prefix of the implemented calls, and
      no invoked hook before the last one throws. */
  lemma {:induction false} RunHooksStopsAtFirstThrow(target: StreamTarget, calls: seq<HookCall>)
    ensures var r := RunHooks(target, calls);
            && |r.invoked| <= |Present(target, calls)|
            && r.invoked == Present(target, calls)[..|r.invoked|]
            && forall k :: 0 <= k < |r.invoked| - 1 ==> r.invoked[k].HookOf() !in target.throwing
  {
    if calls != [] {
      var c := calls[0];
      RunHooksStopsAtFirstThrow(target, calls[1..]);
      if target.Has(c.HookOf()) && c.HookOf() !in target.throwing {
        var rest := RunHooks(target, calls[1..]);
        assert Present(target, calls) == [c] + Present(target, calls[1..]);
        assert ([c] + Present(target, calls[1..]))[..1 + |rest.invoked|]
               == [c] + Present(target, calls[1..])[..|rest.invoked|];
      }
    }
  }

  /** A run ends with an Error exactly when some implemented hook among the
      calls throws. */
  lemma {:induction false} RunHooksThrowsIff(target: StreamTarget, calls: seq<HookCall>)
    ensures RunHooks(target, calls).thrown.None? <==>
            forall c :: c in calls && target.Has(c.HookOf()) ==> c.HookOf() !in target.throwing
  {
    if calls != [] {
      RunHooksThrowsIff(target, calls[1..]);
      assert forall c :: c in calls <==> c == calls[0] || c in calls[1..];
    }
  }

  /** A target none of whose hooks throws receives exactly the calls to the
      hooks it implements, in order. */
  lemma RunHooksNothingThrows(target: StreamTarget, calls: seq<HookCall>)
    requires target.throwing == map[]
    ensures RunHooks(target, calls) == HookRun(Present(target, calls), None)
  {
    RunHooksThrowsIff(target, calls);
  }

  /** A target that implements every hook and throws from none receives
      exactly the calls made, in the order made. */
  lemma {:induction false} RunHooksComplete(target: StreamTarget, calls: seq<HookCall>)
    requires forall c :: c in calls ==> target.Has(c.HookOf()) && c.HookOf() !in target.throwing
    ensures RunHooks(target, calls) == HookRun(calls, None)
  {
    if calls != [] {
      RunHooksComplete(target, calls[1..]);
      assert [calls[0]] + calls[1..] == calls;
    }
  }
}
