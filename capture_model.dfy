/**
 * The capture bridge `VoiceRecorder`: its optional `MediaRecorder` and the scratch file
 * `record.3gp`. Recording itself is opaque: the bytes a session produces are given to the
 * model when the session is stopped, which is when the recorder finalises the file.
 */
module CaptureModel {
  import opened Base

  /** The states of Android's `MediaRecorder` the bridge can reach (`Idle` is its "Initial" state). */
  datatype RecorderPhase = Idle | Initialized | DataSourceConfigured | Prepared | Recording | Released

  /** A recorder instance; `id` tells instances apart. */
  datatype Recorder = Recorder(id: nat, phase: RecorderPhase)

  // Each recorder call, with the state in which Android allows it (any other state throws
  // IllegalStateException).

  function SetAudioSource(r: Recorder): Recorder
    requires r.phase == Idle
  {
    r.(phase := Initialized)
  }

  function SetOutputFormat(r: Recorder): Recorder
    requires r.phase == Initialized
  {
    r.(phase := DataSourceConfigured)
  }

  /** `setAudioEncoder(...)`: allowed after the output format, and keeps the recorder there. */
  function SetAudioEncoder(r: Recorder): Recorder
    requires r.phase == DataSourceConfigured
  {
    r
  }

  /** `setOutputFile(...)`: allowed after the output format, and keeps the recorder there. */
  function SetOutputFile(r: Recorder): Recorder
    requires r.phase == DataSourceConfigured
  {
    r
  }

  /** `prepare()`, after the encoder and the output file were set. */
  function PrepareRecorder(r: Recorder): Recorder
    requires r.phase == DataSourceConfigured
  {
    r.(phase := Prepared)
  }

  function StartRecorder(r: Recorder): Recorder
    requires r.phase == Prepared
  {
    r.(phase := Recording)
  }

  /** `stop()` returns the recorder to its initial state. */
  function StopRecorder(r: Recorder): Recorder
    requires r.phase == Recording
  {
    r.(phase := Idle)
  }

  function ReleaseRecorder(r: Recorder): Recorder
  {
    r.(phase := Released)
  }

  /** `created` counts the recorders made so far, and so names the next one. */
  datatype CaptureState = CaptureState(recorder: Option<Recorder>, created: nat, file: Option<Bytes>)

  /**
   * The current recorder is one that was made, and while it records nothing else has
   * written the scratch file since the leftover was deleted.
   */
  predicate Consistent(s: CaptureState)
  {
    (s.recorder.Some? ==> s.recorder.value.id < s.created)
    && (s.recorder.Some? && s.recorder.value.phase == Recording ==> s.file.None?)
  }

  function Initial(leftover: Option<Bytes>): (s: CaptureState)
    ensures s.recorder.None? && s.file == leftover && Consistent(s)
  {
    CaptureState(None, 0, leftover)
  }

  /**
   * `startRecord()`: without the permission nothing happens; with it, a new recorder
   * replaces the current one, the leftover file is deleted, and the new recorder is
   * configured, prepared and started.
   */
  function StartRecord(s: CaptureState, granted: bool): (r: CaptureState)
    ensures !granted ==> r == s
    ensures granted ==>
      r.recorder == Some(Recorder(s.created, Recording)) && r.created == s.created + 1 && r.file.None?
    ensures granted && s.recorder.Some? && Consistent(s) ==> r.recorder.value.id > s.recorder.value.id
    ensures Consistent(s) ==> Consistent(r)
  {
    if !granted then s
    else
      var made := Recorder(s.created, Idle);
      var started := StartRecorder(PrepareRecorder(SetOutputFile(SetAudioEncoder(SetOutputFormat(SetAudioSource(made))))));
      CaptureState(Some(started), s.created + 1, None)
  }

  /**
   * What `sendRecord()` can run without an exception: a recorder, if any, is recording
   * (`stop()` throws otherwise), and without one the file it reads exists.
   */
  predicate CanSend(s: CaptureState)
  {
    (s.recorder.Some? ==> s.recorder.value.phase == Recording)
    && (s.recorder.None? ==> s.file.Some?)
  }

  datatype SendOutcome = SendOutcome(next: CaptureState, sent: Bytes)

  /**
   * `sendRecord()`: stop and release the recorder if there is one (it stays in the field),
   * read the whole file, hand it to the service, delete the file.
   */
  function SendRecord(s: CaptureState, captured: Bytes): (o: SendOutcome)
    requires CanSend(s)
    ensures s.recorder.Some? ==>
      o.sent == captured && o.next.recorder == Some(s.recorder.value.(phase := Released))
    ensures s.recorder.None? ==> o.sent == s.file.value && o.next.recorder == None
    ensures o.next.file == None && o.next.created == s.created
    ensures Consistent(s) ==> Consistent(o.next)
  {
    var (recorder, file) :=
      if s.recorder.Some? then (Some(ReleaseRecorder(StopRecorder(s.recorder.value))), Some(captured))
      else (None, s.file);
    SendOutcome(CaptureState(recorder, s.created, None), file.value)
  }

  /** A session started with the permission sends exactly what it recorded. */
  lemma SessionSendsItsRecording(s: CaptureState, captured: Bytes)
    ensures CanSend(StartRecord(s, true))
    ensures SendRecord(StartRecord(s, true), captured).sent == captured
  {
  }
}
