/**
 * `VoicePlayer` as a class: the `isPlaying` flag, the scratch file and the media player
 * are fields, and each handler steps the player through the same calls, in the same
 * order, as the Kotlin code, proved to end where `PlaybackModel` says.
 */
module Playback {
  import opened Base
  import opened PlaybackModel

  class VoicePlayer {
    var isPlaying: bool
    /** `received_audio.3gp` in the cache directory. */
    var file: Option<Bytes>
    var player: MediaPlayer

    ghost function State(): PlaybackState
      reads this
    {
      PlaybackState(isPlaying, file, player)
    }

    ghost predicate Valid()
      reads this
    {
      Consistent(State())
    }

    constructor (leftover: Option<Bytes>)
      ensures Valid() && State() == Initial(leftover)
    {
      isPlaying := false;
      file := leftover;
      player := MediaPlayer(Idle, None);
    }

    /** The body of the observer `startWorking` registers on the service's inbound audio. */
    method OnPayload(payload: Bytes)
      requires Valid() && player.phase != End
      modifies this
      ensures Valid() && State() == PayloadReceived(old(State()), payload)
    {
      if file.Some? {
        file := None;
      }
      file := Some(payload);
      player := Reset(player);
      player := SetDataSource(player, file.value);
      player := Prepare(player);
      isPlaying := true;
      player := Start(player);
    }

    /** The completion listener installed in `init`. */
    method OnCompletion()
      requires Valid() && player.phase == Started
      modifies this
      ensures Valid() && State() == PlaybackFinished(old(State()))
    {
      isPlaying := false;
      player := player.(phase := PlaybackCompleted);
    }

    method StopPlaying()
      requires Valid() && player.phase != End
      modifies this
      ensures Valid() && State() == PlaybackModel.StopPlaying(old(State()))
    {
      isPlaying := false;
      if player.phase == Started {
        player := Stop(player);
      }
      if file.Some? {
        file := None;
      }
    }

    method ShutDown()
      requires Valid()
      modifies this
      ensures Valid() && State() == PlaybackModel.ShutDown(old(State()))
    {
      player := Release(player);
      if file.Some? {
        file := None;
      }
    }
  }
}
