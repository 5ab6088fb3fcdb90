/**
 * `VoiceRecorder` as a class: the `recorder` field, the scratch file and the service it
 * sends to. `sendRecord` is proved to hand the service exactly the bytes the model says,
 * through exactly one call of `MqttService.Send`.
 */
module Capture {
  import opened Base
  import opened CaptureModel
  import MqttModel
  import Mqtt

  class VoiceRecorder {
    const service: Mqtt.MqttService
    var recorder: Option<Recorder>
    /** The number of recorders made so far. */
    var created: nat
    /** `record.3gp` in the cache directory. */
    var file: Option<Bytes>

    ghost function State(): CaptureState
      reads this
    {
      CaptureState(recorder, created, file)
    }

    ghost predicate Valid()
      reads this
    {
      Consistent(State())
    }

    constructor (service: Mqtt.MqttService, leftover: Option<Bytes>)
      ensures Valid() && State() == Initial(leftover) && this.service == service
    {
      this.service := service;
      recorder := None;
      created := 0;
      file := leftover;
    }

    /** `startRecord()`; `granted` is the answer of the permission check. */
    method StartRecord(granted: bool)
      requires Valid()
      modifies this
      ensures Valid() && State() == CaptureModel.StartRecord(old(State()), granted)
    {
      if granted {
        var r := Recorder(created, Idle);
        created := created + 1;
        recorder := Some(r);
        if file.Some? {
          file := None;
        }
        r := SetAudioSource(r);
        r := SetOutputFormat(r);
        r := SetAudioEncoder(r);
        r := SetOutputFile(r);
        r := PrepareRecorder(r);
        r := StartRecorder(r);
        recorder := Some(r);
      }
    }

    /** `sendRecord()`; `captured` is what the current recorder, if any, has recorded. */
    method SendRecord(captured: Bytes)
      requires Valid() && CanSend(State()) && service.Valid()
      modifies this, service
      ensures Valid() && State() == CaptureModel.SendRecord(old(State()), captured).next
      ensures service.Valid()
      ensures service.State() ==
        MqttModel.Send(old(service.State()), CaptureModel.SendRecord(old(State()), captured).sent)
    {
      if recorder.Some? {
        // stop() finalises the session's recording into the file
        recorder := Some(StopRecorder(recorder.value));
        file := Some(captured);
      }
      if recorder.Some? {
        recorder := Some(ReleaseRecorder(recorder.value));
      }
      var bytes := file.value;
      service.Send(bytes);
      file := None;
    }
  }
}
