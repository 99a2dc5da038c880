/**
 * The guild -> player registry (`AudioHandler`): players are created lazily,
 * one per guild, and never removed. Unknown guilds get default answers.
 */
module AudioHandling {
  import opened Util
  import opened Stations
  import opened Audio

  /** What a slash command of the audio group answers. */
  datatype AudioReply =
    | NoReply                                   // the handler returned before replying
    | NotInVoiceChannel
    | StreamStarted
    | NotImplemented                            // a station name instead of a link
    | PlaybackStopped
    | NoMusicPlaying
    | VolumeChanged(volume: int)
    | NowPlaying(station: Option<RadioStation>, volume: int, playing: bool)
    | StayModeRejected
    | StayModeRequested(enable: bool)           // the handler asks the bot to switch 24/7 mode

  /** The audio commands `getAudioCommands()` registers. */
  const AUDIO_COMMANDS: seq<string> := ["play", "stop", "volume", "nowplaying", "247"]

  /** `volume.coerceIn(0, 100)` with the default 5 for a missing option. */
  function RequestedVolume(value: Option<int>): (v: int)
    ensures 0 <= v <= 100
    ensures value.None? ==> v == DEFAULT_VOLUME
    ensures value.Some? && 0 <= value.value <= 100 ==> v == value.value
  {
    Clamp(value.GetOr(DEFAULT_VOLUME), 0, 100)
  }

  /** The 24/7 toggle: rejected while nothing plays, otherwise the opposite of the current mode. */
  function StayDecision(playing: bool, enabled: bool): (r: AudioReply)
    ensures !playing <==> r == StayModeRejected
    ensures playing ==> r == StayModeRequested(!enabled)
  {
    if !playing then StayModeRejected else StayModeRequested(!enabled)
  }

  /**
   * The players after `playStation(g, station)`: the guild's player (a new one
   * if it had none) plays the station's stream link; with no link at all
   * nothing is loaded and the player keeps its station.
   */
  ghost function AfterPlayStation(sessions: map<string, Session>, g: string, station: RadioStation, outcome: LoadOutcome): (r: map<string, Session>)
    ensures g in r && r.Keys == sessions.Keys + {g}
    ensures forall h :: h in sessions && h != g ==> r[h] == sessions[h]
    ensures StreamUrl(station) != "" ==> r[g].station == Some(station)
  {
    var before := if g in sessions then sessions[g] else NewSession();
    sessions[g := if StreamUrl(station) == "" then before else AfterPlay(before, StreamUrl(station), station, outcome)]
  }

  /** `playStation` as its two steps: the player is created if needed, then plays the link if there is one. */
  lemma PlayStationSteps(before: map<string, Session>, created: map<string, Session>, g: string, station: RadioStation, outcome: LoadOutcome)
    requires created == if g in before then before else before[g := NewSession()]
    ensures AfterPlayStation(before, g, station, outcome)
         == if StreamUrl(station) == "" then created else created[g := AfterPlay(created[g], StreamUrl(station), station, outcome)]
  {
  }

  /** Updating the guild's player right after creating it is the same as setting it. */
  lemma CreatedThenUpdated(before: map<string, Session>, created: map<string, Session>, g: string, after: Session)
    requires created == if g in before then before else before[g := NewSession()]
    ensures created[g := after] == before[g := after]
  {
  }

  /**
   * Creating the guild's player first, as the play buttons do before
   * `playStation`, changes nothing about the result.
   */
  lemma CreateThenPlay(sessions: map<string, Session>, g: string, station: RadioStation, outcome: LoadOutcome)
    ensures AfterPlayStation(if g in sessions then sessions else sessions[g := NewSession()], g, station, outcome)
         == AfterPlayStation(sessions, g, station, outcome)
  {
  }

  /**
   * What an audio command does to the guild's player `before` and what it
   * answers:
   * - "play": the caller must be in a voice channel; a link starting with "http"
   *   is played as a "Custom Stream"; anything else is answered "not implemented";
   * - "stop": stops the player; "nowplaying": reports the player;
   * - "volume": only while playing, the value (default 5) clamped to [0, 100];
   * - "247": only while playing, asks the bot to flip its 24/7 mode;
   * - any other name: no reply, no change.
   */
  function AudioCommandEffect(before: Session, name: string, stationOption: Option<string>,
                              valueOption: Option<int>, callerInVoice: bool, outcome: LoadOutcome,
                              stayEnabled: Option<bool>): (r: (Session, AudioReply))
    ensures name !in AUDIO_COMMANDS ==> r == (before, NoReply)
    ensures name == "play" && !callerInVoice ==> r == (before, NotInVoiceChannel)
    ensures name == "play" && callerInVoice ==>
      var input := stationOption.GetOr("");
      if StartsWith(input, "http") then r.1 == StreamStarted && r.0.station == Some(CustomStream(input)) && r.0.volume == before.volume
      else r == (before, NotImplemented)
    ensures name == "stop" ==> r.1 == PlaybackStopped && r.0.station.None? && !r.0.Playing()
    ensures name == "volume" && !before.Playing() ==> r == (before, NoMusicPlaying)
    ensures name == "volume" && before.Playing() ==>
      r.1 == VolumeChanged(RequestedVolume(valueOption)) && r.0.volume == RequestedVolume(valueOption)
      && r.0.Playing() && r.0.station == before.station
    ensures name == "nowplaying" ==> r == (before, NowPlaying(before.station, before.volume, before.Playing()))
    ensures name == "247" ==> r.0 == before && (r.1 == StayModeRejected <==> !before.Playing())
  {
    if name == "play" then
      if !callerInVoice then (before, NotInVoiceChannel)
      else
        var input := stationOption.GetOr("");
        if StartsWith(input, "http") then (AfterPlay(before, input, CustomStream(input), outcome), StreamStarted)
        else (before, NotImplemented)
    else if name == "stop" then (AfterStop(before), PlaybackStopped)
    else if name == "volume" then
      if !before.Playing() then (before, NoMusicPlaying)
      else (AfterSetVolume(before, RequestedVolume(valueOption)), VolumeChanged(RequestedVolume(valueOption)))
    else if name == "nowplaying" then (before, NowPlaying(before.station, before.volume, before.Playing()))
    else if name == "247" then (before, StayDecision(before.Playing(), stayEnabled.GetOr(false)))
    else (before, NoReply)
  }

  class AudioHandler {
    var audioManagers: map<string, GuildAudioManager>
    ghost var Repr: set<object>

    /** The footprint is the handler and its players; every player is owned by exactly one guild. */
    ghost predicate Valid()
      reads this, Repr
    {
      && Repr == {this} + audioManagers.Values
      && (forall g :: g in audioManagers ==> audioManagers[g].Valid())
      && (forall g, h :: g in audioManagers && h in audioManagers && g != h ==> audioManagers[g] != audioManagers[h])
    }

    /** Each guild's player as a Session value. */
    ghost function Sessions(): (m: map<string, Session>)
      reads this, Repr
      requires Valid()
      ensures m.Keys == audioManagers.Keys
    {
      map g | g in audioManagers :: audioManagers[g].State()
    }

    constructor ()
      ensures Valid() && fresh(Repr) && Sessions() == map[]
    {
      audioManagers := map[];
      Repr := {this};
    }

    /**
     * `getOrCreateAudioManager(g)` (`computeIfAbsent`): the existing player if the
     * guild has one, otherwise a new one that is stored for the guild.
     */
    method GetOrCreateAudioManager(g: string) returns (m: GuildAudioManager)
      requires Valid()
      modifies this
      ensures Valid() && fresh(Repr - old(Repr))
      ensures g in audioManagers && m == audioManagers[g] && m in Repr
      ensures g in old(audioManagers) ==> m == old(audioManagers[g]) && audioManagers == old(audioManagers)
      ensures g !in old(audioManagers) ==> fresh(m)
      ensures Sessions() == if g in old(Sessions()) then old(Sessions()) else old(Sessions())[g := NewSession()]
    {
      if g in audioManagers {
        m := audioManagers[g];
      } else {
        m := AddAudioManager(g);
      }
    }

    /** The `computeIfAbsent` insertion: a new player, stored for a guild that had none. */
    method AddAudioManager(g: string) returns (m: GuildAudioManager)
      requires Valid() && g !in audioManagers
      modifies this
      ensures Valid() && fresh(m) && Repr == old(Repr) + {m}
      ensures audioManagers == old(audioManagers)[g := m]
      ensures Sessions() == old(Sessions())[g := NewSession()]
    {
      m := new GuildAudioManager();
      ghost var before := audioManagers;
      audioManagers := audioManagers[g := m];
      forall o: GuildAudioManager
        ensures o in audioManagers.Values <==> o in before.Values + {m}
      {
        if o in before.Values {
          var k :| k in before && before[k] == o;
          assert audioManagers[k] == o;
        }
        if o == m {
          assert audioManagers[g] == m;
        }
      }
      Repr := Repr + {m};
    }

    /**
     * `playStation(g, station)`: the stream link is urlResolved, else url; with
     * no link at all nothing is loaded and the player keeps its station.
     */
    method PlayStation(g: string, station: RadioStation, outcome: LoadOutcome)
      requires Valid()
      modifies Repr
      ensures Valid() && fresh(Repr - old(Repr))
      ensures Sessions() == AfterPlayStation(old(Sessions()), g, station, outcome)
    {
      ghost var before := Sessions();
      var _ := GetOrCreateAudioManager(g);
      ghost var created := Sessions();
      var streamUrl := StreamUrl(station);
      if streamUrl != "" {
        PlayOnExisting(g, streamUrl, station, outcome);
      }
      PlayStationSteps(before, created, g, station, outcome);
    }

    /** `playTrack` on the guild's existing player. */
    method PlayOnExisting(g: string, url: string, station: RadioStation, outcome: LoadOutcome)
      requires Valid() && g in audioManagers
      modifies Repr
      ensures Valid() && Repr == old(Repr) && audioManagers == old(audioManagers)
      ensures Sessions() == old(Sessions())[g := AfterPlay(old(Sessions())[g], url, station, outcome)]
    {
      audioManagers[g].PlayTrack(url, station, outcome);
    }

    /** `stopAudio(g)`: stops the guild's player if it has one; never creates one. */
    method StopAudio(g: string)
      requires Valid()
      modifies Repr
      ensures Valid() && Repr == old(Repr) && audioManagers == old(audioManagers)
      ensures Sessions() == if g in old(Sessions()) then old(Sessions())[g := AfterStop(old(Sessions())[g])] else old(Sessions())
    {
      if g in audioManagers {
        audioManagers[g].Stop();
      }
    }

    /** `setVolume(g, v)`: sets the guild's player volume (clamped) if it has one; never creates one. */
    method SetVolume(g: string, v: int)
      requires Valid()
      modifies Repr
      ensures Valid() && Repr == old(Repr) && audioManagers == old(audioManagers)
      ensures Sessions() == if g in old(Sessions()) then old(Sessions())[g := AfterSetVolume(old(Sessions())[g], v)] else old(Sessions())
    {
      if g in audioManagers {
        audioManagers[g].SetVolume(v);
      }
    }

    /** `getCurrentStation(g)`: null for a guild without a player. */
    function GetCurrentStation(g: string): (r: Option<RadioStation>)
      reads this, Repr
      requires Valid()
      ensures g !in Sessions() ==> r.None?
      ensures g in Sessions() ==> r == Sessions()[g].station
    {
      if g in audioManagers then audioManagers[g].GetCurrentStation() else None
    }

    /** `getCurrentVolume(g)`: 5 for a guild without a player. */
    function GetCurrentVolume(g: string): (r: int)
      reads this, Repr
      requires Valid()
      ensures 0 <= r <= 100
      ensures g !in Sessions() ==> r == DEFAULT_VOLUME
      ensures g in Sessions() ==> r == Sessions()[g].volume
    {
      if g in audioManagers then audioManagers[g].GetVolume() else DEFAULT_VOLUME
    }

    /** `isPlaying(g)`: false for a guild without a player. */
    predicate IsPlaying(g: string)
      reads this, Repr
      requires Valid()
      ensures IsPlaying(g) <==> g in Sessions() && Sessions()[g].Playing()
    {
      g in audioManagers && audioManagers[g].IsPlaying()
    }

    /**
     * `handleAudioCommand`: a command outside a guild does nothing; inside one the
     * guild's player is created first, then the command named runs:
     * - "play": the caller must be in a voice channel; a link starting with "http"
     *   is played as a "Custom Stream" (through `playTrack`, not `playStation`);
     *   anything else is answered "not implemented";
     * - "stop": stops the player; "nowplaying": reports the player;
     * - "volume": only while playing, the value (default 5) clamped to [0, 100];
     * - "247": only while playing, asks the bot to flip its 24/7 mode;
     *   `stayEnabled` is what the bot reports for the guild (null bot: false).
     */
    method HandleAudioCommand(guild: Option<string>, name: string, stationOption: Option<string>,
                              valueOption: Option<int>, callerInVoice: bool, outcome: LoadOutcome,
                              stayEnabled: Option<bool>)
      returns (reply: AudioReply)
      requires Valid()
      modifies Repr
      ensures Valid() && fresh(Repr - old(Repr))
      ensures guild.None? ==> reply == NoReply && Sessions() == old(Sessions())
      ensures guild.Some? ==>
        var g := guild.value;
        var before := if g in old(Sessions()) then old(Sessions())[g] else NewSession();
        var effect := AudioCommandEffect(before, name, stationOption, valueOption, callerInVoice, outcome, stayEnabled);
        Sessions() == old(Sessions())[g := effect.0] && reply == effect.1
    {
      if guild.None? {
        return NoReply;
      }
      var g := guild.value;
      ghost var before := Sessions();
      var _ := GetOrCreateAudioManager(g);
      ghost var created := Sessions();
      reply := RunAudioCommand(g, name, stationOption, valueOption, callerInVoice, outcome, stayEnabled);
      CreatedThenUpdated(before, created, g, Sessions()[g]);
    }

    /** The command body on the guild's player `m` (here `audioManagers[g]`), once it exists. */
    method RunAudioCommand(g: string, name: string, stationOption: Option<string>,
                           valueOption: Option<int>, callerInVoice: bool, outcome: LoadOutcome,
                           stayEnabled: Option<bool>)
      returns (reply: AudioReply)
      requires Valid() && g in audioManagers
      modifies Repr
      ensures Valid() && Repr == old(Repr) && audioManagers == old(audioManagers)
      ensures var effect := AudioCommandEffect(old(Sessions())[g], name, stationOption, valueOption, callerInVoice, outcome, stayEnabled);
        Sessions() == old(Sessions())[g := effect.0] && reply == effect.1
    {
      reply := NoReply;
      if name == "play" {
        if !callerInVoice {
          reply := NotInVoiceChannel;
        } else {
          var input := stationOption.GetOr("");
          if StartsWith(input, "http") {
            PlayOnExisting(g, input, CustomStream(input), outcome);
            reply := StreamStarted;
          } else {
            reply := NotImplemented;
          }
        }
      } else if name == "stop" {
        StopAudio(g);
        reply := PlaybackStopped;
      } else if name == "volume" {
        if !IsPlaying(g) {
          reply := NoMusicPlaying;
        } else {
          var safe := RequestedVolume(valueOption);
          SetVolume(g, safe);
          reply := VolumeChanged(safe);
        }
      } else if name == "nowplaying" {
        reply := NowPlaying(GetCurrentStation(g), GetCurrentVolume(g), IsPlaying(g));
      } else if name == "247" {
        reply := StayDecision(IsPlaying(g), stayEnabled.GetOr(false));
      }
    }
  }
}
