/**
 * One guild's player: the station it was last asked to play, the player's
 * volume, the track the player holds and its pause flag.
 * The audio engine's answer to a load request is an input (LoadOutcome).
 */
module Audio {
  import opened Util
  import opened Stations

  /** The volume a fresh player starts with. */
  const DEFAULT_VOLUME: int := 5

  /**
   * What the audio engine reports for a load request: a track, a playlist
   * (with or without a first track), no match, or a failure.
   */
  datatype LoadOutcome = TrackLoaded | PlaylistLoaded(hasFirstTrack: bool) | NoMatches | LoadFailed

  /** Whether the engine hands the player a track to start (replacing the current one). */
  predicate StartsTrack(o: LoadOutcome)
  {
    o.TrackLoaded? || (o.PlaylistLoaded? && o.hasFirstTrack)
  }

  /** The state of one guild's player, as a value. */
  datatype Session = Session(station: Option<RadioStation>, volume: int, track: Option<string>, paused: bool) {
    /** `playingTrack != null && !isPaused`. */
    predicate Playing() { track.Some? && !paused }
  }

  /** A player as `GuildAudioManager()` creates it. */
  function NewSession(): Session
  {
    Session(None, DEFAULT_VOLUME, None, false)
  }

  /** The effect of `playTrack(url, station)` when the engine answers `o`. */
  function AfterPlay(s: Session, url: string, station: RadioStation, o: LoadOutcome): (r: Session)
    ensures r.station == Some(station)
    ensures r.volume == s.volume && r.paused == s.paused
    ensures StartsTrack(o) ==> r.track == Some(url)
    ensures !StartsTrack(o) ==> r.track == s.track
  {
    s.(station := Some(station), track := if StartsTrack(o) then Some(url) else s.track)
  }

  /** The effect of `stop()`: no track, no station; volume kept. */
  function AfterStop(s: Session): (r: Session)
    ensures r.station.None? && !r.Playing() && r.volume == s.volume
  {
    s.(station := None, track := None)
  }

  /** The effect of `setVolume(v)`: the volume becomes `v.coerceIn(0, 100)`. */
  function AfterSetVolume(s: Session, v: int): (r: Session)
    ensures 0 <= r.volume <= 100
    ensures 0 <= v <= 100 ==> r.volume == v
    ensures r.station == s.station && r.Playing() == s.Playing()
  {
    s.(volume := Clamp(v, 0, 100))
  }

  /** Every operation keeps the volume within [0, 100]. */
  ghost predicate SessionOk(s: Session)
  {
    0 <= s.volume <= 100
  }

  /** A new player is stopped, holds no station and has volume 5; the operations keep the volume range. */
  lemma SessionInvariant(s: Session, url: string, st: RadioStation, o: LoadOutcome, v: int)
    requires SessionOk(s)
    ensures SessionOk(NewSession()) && !NewSession().Playing() && NewSession().station.None?
    ensures SessionOk(AfterPlay(s, url, st, o)) && SessionOk(AfterStop(s)) && SessionOk(AfterSetVolume(s, v))
  {
  }

  /** Stopping after any play leaves no station; setting a volume twice equals setting it once. */
  lemma {:induction false} StopUndoesPlay(s: Session, url: string, st: RadioStation, o: LoadOutcome, v: int)
    ensures AfterStop(AfterPlay(s, url, st, o)).station.None?
    ensures !AfterStop(AfterPlay(s, url, st, o)).Playing()
    ensures AfterSetVolume(AfterSetVolume(s, v), v) == AfterSetVolume(s, v)
  {
  }

  /** A guild's player (`GuildAudioManager`). */
  class GuildAudioManager {
    var currentStation: Option<RadioStation>
    var volume: int
    var playingTrack: Option<string>
    var paused: bool

    ghost predicate Valid()
      reads this
    {
      0 <= volume <= 100
    }

    /** The player as a Session value. */
    function State(): Session
      reads this
    {
      Session(currentStation, volume, playingTrack, paused)
    }

    constructor ()
      ensures Valid() && State() == NewSession()
    {
      currentStation := None;
      volume := DEFAULT_VOLUME;
      playingTrack := None;
      paused := false;
    }

    /**
     * `playTrack(url, station)`: the station is recorded first, whatever the
     * engine later answers; a loaded track replaces the current one.
     */
    method PlayTrack(url: string, station: RadioStation, outcome: LoadOutcome)
      requires Valid()
      modifies this
      ensures Valid() && State() == AfterPlay(old(State()), url, station, outcome)
    {
      currentStation := Some(station);
      if StartsTrack(outcome) {
        playingTrack := Some(url);
      }
    }

    /** `stop()`: stops the track and forgets the station. */
    method Stop()
      requires Valid()
      modifies this
      ensures Valid() && State() == AfterStop(old(State()))
    {
      playingTrack := None;
      currentStation := None;
    }

    /** `setVolume(v)`: stores `v.coerceIn(0, 100)`. */
    method SetVolume(v: int)
      requires Valid()
      modifies this
      ensures Valid() && State() == AfterSetVolume(old(State()), v)
    {
      volume := Clamp(v, 0, 100);
    }

    /** `getVolume()`. */
    function GetVolume(): (v: int)
      reads this
      requires Valid()
      ensures 0 <= v <= 100 && v == State().volume
    {
      volume
    }

    /** `isPlaying()`: a track is present and the player is not paused. */
    predicate IsPlaying()
      reads this
    {
      State().Playing()
    }

    /** `getCurrentStation()`. */
    function GetCurrentStation(): Option<RadioStation>
      reads this
    {
      currentStation
    }
  }
}
