/** The recording state machine, the listener list and the PCM decoder of the audio
    capture service. The native recorder is outside the model: each call into it is
    a parameter saying whether it succeeded and, if not, with which message. */
module AudioService {

  import opened Outcomes

  // ---------------------------------------------------------------------------
  // State and errors

  datatype AudioErrorType =
    | PermissionDenied
    | DeviceUnavailable
    | RecordingFailed
    | AlreadyRecording
    | NotRecording
    | InitializationFailed

  /** What a call into the native recorder did. */
  datatype NativeOutcome = Succeeded | Failed(message: string)

  /** A registered listener, identified as `indexOf` identifies it: by reference. */
  type Listener = nat

  datatype ServiceState = ServiceState(isRecording: bool, isInitialized: bool, callbacks: seq<Listener>)

  const INITIAL_STATE: ServiceState := ServiceState(false, false, [])

  /** The state after a call, and the error it threw if it threw one. */
  datatype Step = Step(state: ServiceState, error: Option<AudioErrorType>)

  // ---------------------------------------------------------------------------
  // Error messages

  /** `part` occurs in `s` at position `i`. */
  predicate OccursAt(s: string, part: string, i: int) {
    0 <= i && i + |part| <= |s| && s[i..i + |part|] == part
  }

  /** `String.prototype.includes`. */
  predicate Includes(s: string, part: string) {
    exists i :: 0 <= i <= |s| && OccursAt(s, part, i)
  }

  /** The message the service puts on the error `initialize` throws. */
  const INIT_FAILURE_MESSAGE: string := "Failed to initialize audio recorder"

  /** The test `startRecording` applies to a failure's message. */
  predicate MentionsPermission(message: string) {
    Includes(message, "permission") || Includes(message, "denied")
  }

  lemma InitFailureMessageIsNotAboutPermission()
    ensures !MentionsPermission(INIT_FAILURE_MESSAGE)
  {
    var m := INIT_FAILURE_MESSAGE;
    forall i | 0 <= i <= |m|
      ensures !OccursAt(m, "permission", i)
    {
      if i + 10 <= |m| {
        assert m[i..i + 10][0] == m[i];
      }
    }
    forall i | 0 <= i <= |m|
      ensures !OccursAt(m, "denied", i)
    {
      if i + 6 <= |m| {
        assert m[i..i + 6][0] == m[i] && m[i..i + 6][1] == m[i + 1] && m[i..i + 6][2] == m[i + 2];
      }
    }
  }

  // ---------------------------------------------------------------------------
  // Recording

  /** `initialize`: a no-op once initialised, otherwise the native init decides. */
  function Initialize(s: ServiceState, init: NativeOutcome): (r: Result<ServiceState, string>)
    ensures s.isInitialized ==> r == Ok(s)
    ensures !s.isInitialized && init.Failed? ==> r == Err(INIT_FAILURE_MESSAGE)
    ensures r.Ok? ==> r.value == s.(isInitialized := true)
  {
    if s.isInitialized then Ok(s)
    else if init.Failed? then Err(INIT_FAILURE_MESSAGE)
    else Ok(s.(isInitialized := true))
  }

  /** `startRecording`. Any failure after the guard is caught, leaves the service
      not recording, and is reported as a permission denial if its message says
      so, as a recording failure otherwise. */
  function StartRecording(s: ServiceState, init: NativeOutcome, start: NativeOutcome): (r: Step)
    ensures s.isRecording ==> r == Step(s, Some(AlreadyRecording))
    ensures r.error.None? <==> !s.isRecording && (s.isInitialized || init.Succeeded?) && start.Succeeded?
    ensures r.error.None? ==> r.state == ServiceState(true, true, s.callbacks)
    ensures !s.isRecording && r.error.Some? ==> !r.state.isRecording && r.state.callbacks == s.callbacks
    ensures r.error == Some(PermissionDenied) <==>
      !s.isRecording && (s.isInitialized || init.Succeeded?) && start.Failed? && MentionsPermission(start.message)
  {
    if s.isRecording then Step(s, Some(AlreadyRecording))
    else
      match Initialize(s, init)
      case Err(message) =>
        InitFailureMessageIsNotAboutPermission();
        Step(s.(isRecording := false), Some(Classify(message)))
      case Ok(ready) =>
        if start.Failed? then Step(ready.(isRecording := false), Some(Classify(start.message)))
        else Step(ready.(isRecording := true), None)
  }

  /** The catch block's choice of error type. */
  function Classify(message: string): (e: AudioErrorType)
    ensures e == PermissionDenied <==> MentionsPermission(message)
    ensures e != PermissionDenied ==> e == RecordingFailed
  {
    if MentionsPermission(message) then PermissionDenied else RecordingFailed
  }

  /** A failing native init surfaces as a recording failure, never as
      `INITIALIZATION_FAILED`: the catch in `startRecording` re-wraps it. */
  lemma InitFailureReportsRecordingFailed(s: ServiceState, start: NativeOutcome)
    requires !s.isRecording && !s.isInitialized
    ensures StartRecording(s, Failed("init"), start).error == Some(RecordingFailed)
  {
    InitFailureMessageIsNotAboutPermission();
  }

  /** `stopRecording`. A failing native stop leaves the service recording. */
  function StopRecording(s: ServiceState, stop: NativeOutcome): (r: Step)
    ensures !s.isRecording ==> r == Step(s, Some(NotRecording))
    ensures s.isRecording && stop.Succeeded? ==> r == Step(s.(isRecording := false), None)
    ensures s.isRecording && stop.Failed? ==> r == Step(s, Some(RecordingFailed))
  {
    if !s.isRecording then Step(s, Some(NotRecording))
    else if stop.Failed? then Step(s, Some(RecordingFailed))
    else Step(s.(isRecording := false), None)
  }

  /** A successful start followed by a successful stop returns to a stopped,
      initialised service with the same listeners. */
  lemma StartThenStop(s: ServiceState, init: NativeOutcome)
    requires !s.isRecording && (s.isInitialized || init.Succeeded?)
    ensures var started := StartRecording(s, init, Succeeded);
      && started.error.None?
      && StopRecording(started.state, Succeeded) == Step(ServiceState(false, true, s.callbacks), None)
  {
  }

  /** `cleanup`: stop if recording (a failing stop aborts the cleanup), then drop
      every listener and forget the initialisation. */
  function Cleanup(s: ServiceState, stop: NativeOutcome): (r: Step)
    ensures r.error.None? <==> !s.isRecording || stop.Succeeded?
    ensures r.error.None? ==> r.state == ServiceState(false, false, [])
    ensures r.error.Some? ==> r == Step(s, Some(RecordingFailed))
  {
    var stopped := if s.isRecording then StopRecording(s, stop) else Step(s, None);
    if stopped.error.Some? then stopped
    else Step(stopped.state.(callbacks := [], isInitialized := false), None)
  }

  lemma CleanupReturnsToInitialState(s: ServiceState)
    ensures Cleanup(s, Succeeded) == Step(INITIAL_STATE, None)
  {
  }

  // ---------------------------------------------------------------------------
  // Listeners

  /** `onAudioSample`: the listener goes at the end of the list. */
  function Subscribe(s: ServiceState, listener: Listener): (r: ServiceState)
    ensures r.callbacks == s.callbacks + [listener]
    ensures r.isRecording == s.isRecording && r.isInitialized == s.isInitialized
  {
    s.(callbacks := s.callbacks + [listener])
  }

  /** `Array.prototype.indexOf`: the first position of `x`, or -1. */
  function IndexOf(xs: seq<Listener>, x: Listener): (i: int)
    ensures -1 <= i < |xs|
    ensures i == -1 <==> x !in xs
    ensures 0 <= i ==> xs[i] == x && x !in xs[..i]
    decreases |xs|
  {
    if |xs| == 0 then -1
    else if xs[0] == x then 0
    else
      var j := IndexOf(xs[1..], x);
      assert forall k :: 0 <= k < |xs| - 1 ==> xs[1..][k] == xs[k + 1];
      if j == -1 then -1 else j + 1
  }

  /** The closure `onAudioSample` returns: remove the first occurrence, if any. */
  function Unsubscribe(s: ServiceState, listener: Listener): (r: ServiceState)
    ensures listener !in s.callbacks ==> r == s
    ensures r.isRecording == s.isRecording && r.isInitialized == s.isInitialized
  {
    var i := IndexOf(s.callbacks, listener);
    if i == -1 then s
    else s.(callbacks := s.callbacks[..i] + s.callbacks[i + 1..])
  }

  /** Unsubscribing removes exactly one registration of the listener and keeps
      every other listener in order. */
  lemma UnsubscribeRemovesFirstOccurrence(s: ServiceState, listener: Listener)
    requires listener in s.callbacks
    ensures var i := IndexOf(s.callbacks, listener);
      && 0 <= i
      && Unsubscribe(s, listener).callbacks == s.callbacks[..i] + s.callbacks[i + 1..]
      && listener !in s.callbacks[..i]
      && multiset(Unsubscribe(s, listener).callbacks) == multiset(s.callbacks) - multiset{listener}
  {
    var cs := s.callbacks;
    var i := IndexOf(cs, listener);
    assert cs == cs[..i] + [cs[i]] + cs[i + 1..];
  }

  /** Subscribing and then calling the returned closure leaves the list as it was
      when the listener was not yet registered. */
  lemma SubscribeThenUnsubscribe(s: ServiceState, listener: Listener)
    requires listener !in s.callbacks
    ensures Unsubscribe(Subscribe(s, listener), listener) == s
  {
    var cs := s.callbacks + [listener];
    assert IndexOf(cs, listener) == |s.callbacks| by {
      assert cs[..|s.callbacks|] == s.callbacks;
    }
    assert cs[..|s.callbacks|] + cs[|s.callbacks| + 1..] == s.callbacks;
  }

  /** Calling the closure a second time after its registration is gone changes
      nothing. */
  lemma UnsubscribeTwiceIsNoOp(s: ServiceState, listener: Listener)
    requires multiset(s.callbacks)[listener] <= 1
    ensures Unsubscribe(Unsubscribe(s, listener), listener) == Unsubscribe(s, listener)
  {
    if listener in s.callbacks {
      UnsubscribeRemovesFirstOccurrence(s, listener);
      assert listener !in multiset(Unsubscribe(s, listener).callbacks);
    }
  }

  // ---------------------------------------------------------------------------
  // PCM decoding

  newtype byte = x: int | 0 <= x < 256

  const PCM_SCALE: real := 32768.0

  /** `DataView.getInt16(offset, true)`: two bytes, low first, as a two's-complement
      16-bit value. */
  function Int16Le(lo: byte, hi: byte): (v: int)
    ensures -32768 <= v <= 32767
  {
    var u := lo as int + 256 * hi as int;
    if u >= 32768 then u - 65536 else u
  }

  /** The little-endian bytes of a 16-bit value. */
  function Int16LeBytes(v: int): (bytes: (byte, byte))
    requires -32768 <= v <= 32767
  {
    var u := if v < 0 then v + 65536 else v;
    ((u % 256) as byte, (u / 256) as byte)
  }

  lemma Int16RoundTrip(v: int)
    requires -32768 <= v <= 32767
    ensures Int16Le(Int16LeBytes(v).0, Int16LeBytes(v).1) == v
  {
  }

  lemma BytesRoundTrip(lo: byte, hi: byte)
    ensures Int16LeBytes(Int16Le(lo, hi)) == (lo, hi)
  {
  }

  datatype DecodeError =
    /** An odd byte count: `new Float32Array(n / 2)` truncates the length, but the
        loop still runs while `i < n / 2`, so its last `getInt16(n - 1, true)` reads
        past the end of the buffer and throws a RangeError. */
    | OffsetOutsideDataView

  /** `base64ToFloat32Array` after the base64 step. The quotient by 32768 is exact
      in single precision, so no rounding is modelled. */
  function DecodePcm16(bytes: seq<byte>): (r: Result<seq<real>, DecodeError>)
    ensures r.Err? <==> |bytes| % 2 == 1
    ensures r.Ok? ==> |r.value| * 2 == |bytes|
    ensures r.Ok? ==> forall i :: 0 <= i < |r.value| ==>
      r.value[i] == Int16Le(bytes[2 * i], bytes[2 * i + 1]) as real / PCM_SCALE
  {
    if |bytes| % 2 == 1 then Err(OffsetOutsideDataView)
    else Ok(seq(|bytes| / 2, i requires 0 <= i < |bytes| / 2 =>
      Int16Le(bytes[2 * i], bytes[2 * i + 1]) as real / PCM_SCALE))
  }

  /** Every decoded sample lies in [-1, 32767/32768], inside [-1, 1). */
  lemma DecodedSamplesInRange(bytes: seq<byte>)
    requires |bytes| % 2 == 0
    ensures forall x :: x in DecodePcm16(bytes).value ==> -1.0 <= x <= 32767.0 / 32768.0 < 1.0
  {
  }

  /** The recorder's encoding of 16-bit samples. */
  function EncodePcm16(pcm: seq<int>): (bytes: seq<byte>)
    requires forall i :: 0 <= i < |pcm| ==> -32768 <= pcm[i] <= 32767
    ensures |bytes| == 2 * |pcm|
    ensures forall i :: 0 <= i < |pcm| ==>
      bytes[2 * i] == Int16LeBytes(pcm[i]).0 && bytes[2 * i + 1] == Int16LeBytes(pcm[i]).1
  {
    if |pcm| == 0 then []
    else
      var head := Int16LeBytes(pcm[0]);
      var rest := EncodePcm16(pcm[1..]);
      assert forall i :: 1 <= i < |pcm| ==> pcm[1..][i - 1] == pcm[i];
      [head.0, head.1] + rest
  }

  /** Decoding what the recorder encoded gives each sample divided by 32768. */
  lemma DecodeEncoded(pcm: seq<int>)
    requires forall i :: 0 <= i < |pcm| ==> -32768 <= pcm[i] <= 32767
    ensures var r := DecodePcm16(EncodePcm16(pcm));
      && r.Ok? && |r.value| == |pcm|
      && forall i :: 0 <= i < |pcm| ==> r.value[i] == pcm[i] as real / PCM_SCALE
  {
    var bytes := EncodePcm16(pcm);
    var r := DecodePcm16(bytes);
    assert r.Ok? && |r.value| == |pcm|;
    forall i | 0 <= i < |pcm|
      ensures r.value[i] == pcm[i] as real / PCM_SCALE
    {
      Int16RoundTrip(pcm[i]);
      assert r.value[i] == Int16Le(bytes[2 * i], bytes[2 * i + 1]) as real / PCM_SCALE;
    }
  }
}
