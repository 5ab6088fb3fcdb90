/**
 * The playback bridge `VoicePlayer`: its `isPlaying` flag, the scratch file
 * `received_audio.3gp` (present with its bytes, or absent) and the Android `MediaPlayer`
 * it drives, reduced to the player's state and the bytes it has loaded.
 */
module PlaybackModel {
  import opened Base

  /** The states of Android's `MediaPlayer` the bridge can reach. */
  datatype Phase = Idle | Initialized | Prepared | Started | PlaybackCompleted | Stopped | End

  datatype MediaPlayer = MediaPlayer(phase: Phase, source: Option<Bytes>)

  // Each player call, with the states in which Android allows it (any other state
  // throws IllegalStateException).

  function Reset(p: MediaPlayer): MediaPlayer
    requires p.phase != End
  {
    MediaPlayer(Idle, None)
  }

  /** `setDataSource(path)`: the player takes the content of the file at `path`. */
  function SetDataSource(p: MediaPlayer, content: Bytes): MediaPlayer
    requires p.phase == Idle
  {
    MediaPlayer(Initialized, Some(content))
  }

  function Prepare(p: MediaPlayer): MediaPlayer
    requires p.phase == Initialized || p.phase == Stopped
  {
    p.(phase := Prepared)
  }

  function Start(p: MediaPlayer): MediaPlayer
    requires p.phase == Prepared || p.phase == Started || p.phase == PlaybackCompleted
  {
    p.(phase := Started)
  }

  function Stop(p: MediaPlayer): MediaPlayer
    requires p.phase in {Prepared, Started, Stopped, PlaybackCompleted}
  {
    p.(phase := Stopped)
  }

  function Release(p: MediaPlayer): MediaPlayer
  {
    p.(phase := End)
  }

  datatype PlaybackState = PlaybackState(isPlaying: bool, file: Option<Bytes>, player: MediaPlayer)

  /**
   * Until the player is released, `isPlaying` says whether it is playing, and while it plays
   * it plays what the scratch file holds.
   */
  predicate Consistent(s: PlaybackState)
  {
    (s.player.phase != End ==> (s.isPlaying <==> s.player.phase == Started))
    && (s.player.phase == Started ==> s.player.source.Some? && s.file == s.player.source)
  }

  /** A new bridge: not playing, a new idle player, and whatever the cache already held. */
  function Initial(leftover: Option<Bytes>): (s: PlaybackState)
    ensures !s.isPlaying && s.player.phase == Idle && s.file == leftover
    ensures Consistent(s)
  {
    PlaybackState(false, leftover, MediaPlayer(Idle, None))
  }

  /**
   * The observer of the service's inbound audio: overwrite the scratch file, reset the
   * player, load and start the new payload. Whatever was playing before is superseded.
   */
  function PayloadReceived(s: PlaybackState, payload: Bytes): (r: PlaybackState)
    requires s.player.phase != End
    ensures r.file == Some(payload) && r.isPlaying
    ensures r.player.phase == Started && r.player.source == Some(payload)
    ensures Consistent(r)
  {
    PlaybackState(true, Some(payload),
                  Start(Prepare(SetDataSource(Reset(s.player), payload))))
  }

  /** The completion listener: the player is done and `isPlaying` drops; the file stays. */
  function PlaybackFinished(s: PlaybackState): (r: PlaybackState)
    requires s.player.phase == Started
    ensures !r.isPlaying && r.file == s.file
    ensures r.player == s.player.(phase := PlaybackCompleted)
    ensures Consistent(r)
  {
    PlaybackState(false, s.file, s.player.(phase := PlaybackCompleted))
  }

  /** `stopPlaying()`: clear `isPlaying`, stop the player only if it plays, delete the file. */
  function StopPlaying(s: PlaybackState): (r: PlaybackState)
    requires s.player.phase != End
    ensures !r.isPlaying && r.file == None
    ensures s.player.phase == Started ==> r.player == s.player.(phase := Stopped)
    ensures s.player.phase != Started ==> r.player == s.player
    ensures r.player.phase != Started && r.player.phase != End
    ensures Consistent(r)
  {
    var player := if s.player.phase == Started then Stop(s.player) else s.player;
    PlaybackState(false, None, player)
  }

  /** `shutDown()`: release the player and delete the file; `isPlaying` is left as it is. */
  function ShutDown(s: PlaybackState): (r: PlaybackState)
    ensures r.player.phase == End && r.file == None && r.isPlaying == s.isPlaying
    ensures Consistent(r)
  {
    PlaybackState(s.isPlaying, None, Release(s.player))
  }

  /** Stopping twice is the same as stopping once. */
  lemma StopPlayingIsIdempotent(s: PlaybackState)
    requires s.player.phase != End
    ensures StopPlaying(StopPlaying(s)) == StopPlaying(s)
  {
  }

  // ---------------------------------------------------------------------------
  // Runs of the bridge

  datatype PlayerEvent = Payload(bytes: Bytes) | Completion | StopRequest | ShutDownRequest

  /**
   * An event that can happen in `s` without an exception: completion only fires while the
   * player plays, and no call may reach a released player except release itself.
   */
  predicate Enabled(s: PlaybackState, e: PlayerEvent)
  {
    match e
    case Payload(_) => s.player.phase != End
    case Completion => s.player.phase == Started
    case StopRequest => s.player.phase != End
    case ShutDownRequest => true
  }

  function Step(s: PlaybackState, e: PlayerEvent): PlaybackState
    requires Enabled(s, e)
  {
    match e
    case Payload(bytes) => PayloadReceived(s, bytes)
    case Completion => PlaybackFinished(s)
    case StopRequest => StopPlaying(s)
    case ShutDownRequest => ShutDown(s)
  }

  /** Every event of `es` is enabled in the state the earlier ones leave. */
  predicate Feasible(s: PlaybackState, es: seq<PlayerEvent>)
    decreases |es|, 0
  {
    es == [] || (Feasible(s, AllButLast(es)) && Enabled(Run(s, AllButLast(es)), Last(es)))
  }

  function Run(s: PlaybackState, es: seq<PlayerEvent>): PlaybackState
    requires Feasible(s, es)
    decreases |es|, 1
  {
    if es == [] then s else Step(Run(s, AllButLast(es)), Last(es))
  }

  /** The bytes of the latest inbound payload among `es`. */
  function LastPayload(es: seq<PlayerEvent>): Option<Bytes>
    decreases |es|
  {
    if es == [] then None
    else if Last(es).Payload? then Some(Last(es).bytes)
    else LastPayload(AllButLast(es))
  }

  /**
   * After any run the bridge is consistent, and whatever the scratch file still holds is
   * the latest payload received (or the file as it was, when none arrived); a player that
   * is playing plays that latest payload only.
   */
  lemma {:induction false} RunKeepsLatestPayload(s: PlaybackState, es: seq<PlayerEvent>)
    requires Consistent(s) && Feasible(s, es)
    ensures Consistent(Run(s, es))
    ensures Run(s, es).file.Some? ==>
      Run(s, es).file == (if LastPayload(es).Some? then LastPayload(es) else s.file)
    ensures Run(s, es).player.phase == Started && LastPayload(es).Some? ==>
      Run(s, es).player.source == LastPayload(es)
    decreases |es|
  {
    if es != [] {
      RunKeepsLatestPayload(s, AllButLast(es));
    }
  }
}
