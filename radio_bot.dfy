/**
 * The older single-class bot (`RadioBot`): slash-command routing by name and
 * its own idle-disconnect timers, which have no 24/7 exception.
 */
module Bot {
  import opened Util
  import opened Audio
  import opened AudioHandling
  import opened SearchHandling
  import opened DisconnectTimers

  /** The names `isSearchCommand` accepts. */
  const ROUTED_SEARCH: seq<string> := ["search", "top", "country", "genre", "random", "help"]
  /** The names `isAudioCommand` accepts. */
  const ROUTED_AUDIO: seq<string> := ["play", "stop", "volume", "nowplaying"]

  /** `registerCommands`: the search commands, then the audio commands. */
  const REGISTERED: seq<string> := SEARCH_COMMANDS + AUDIO_COMMANDS

  /** Which handler a slash command reaches. */
  datatype Route = SearchRoute | AudioRoute | FavoritesRoute | UnknownRoute

  predicate IsSearchCommand(name: string)
  {
    name in ROUTED_SEARCH
  }

  predicate IsAudioCommand(name: string)
  {
    name in ROUTED_AUDIO
  }

  /** `onSlashCommandInteraction`: the first matching branch of the `when`, as written. */
  function RouteCommand(name: string): Route
  {
    if IsSearchCommand(name) then SearchRoute
    else if IsAudioCommand(name) then AudioRoute
    else if name == "favorites" then FavoritesRoute
    else UnknownRoute
  }

  /**
   * The two name lists are disjoint, so the order of the branches does not
   * matter; each list reaches its own handler, "favorites" the placeholder,
   * and every other name is unknown.
   */
  lemma RoutingPartition(name: string)
    ensures !(IsSearchCommand(name) && IsAudioCommand(name))
    ensures RouteCommand(name) == SearchRoute <==> name in ROUTED_SEARCH
    ensures RouteCommand(name) == AudioRoute <==> name in ROUTED_AUDIO
    ensures RouteCommand(name) == FavoritesRoute <==> name == "favorites"
    ensures RouteCommand(name) == UnknownRoute <==> name !in ROUTED_SEARCH && name !in ROUTED_AUDIO && name != "favorites"
  {
  }

  /** The search names routed are exactly the ones the search handler registers. */
  lemma SearchRoutingMatchesRegistration(name: string)
    ensures RouteCommand(name) == SearchRoute <==> name in SEARCH_COMMANDS
  {
  }

  /**
   * As written, "/247" is registered with Discord (it is one of the audio
   * handler's commands) but routed as unknown, so it never reaches
   * `handle247Command`.
   */
  lemma StayCommandIsUnrouted()
    ensures "247" in REGISTERED
    ensures RouteCommand("247") == UnknownRoute
  {
    assert REGISTERED[10] == "247";
  }

  /** The routing with the audio handler's own command list, "247" included. */
  function RouteCommandCorrected(name: string): Route
  {
    if name in SEARCH_COMMANDS then SearchRoute
    else if name in AUDIO_COMMANDS then AudioRoute
    else if name == "favorites" then FavoritesRoute
    else UnknownRoute
  }

  /**
   * With the correction every registered command reaches the handler that
   * registered it, and every other name is routed exactly as before.
   */
  lemma CorrectedRoutingReachesHandlers(name: string)
    ensures name in SEARCH_COMMANDS ==> RouteCommandCorrected(name) == SearchRoute
    ensures name in AUDIO_COMMANDS ==> RouteCommandCorrected(name) == AudioRoute
    ensures name in REGISTERED ==> RouteCommandCorrected(name) != UnknownRoute
    ensures name != "247" ==> RouteCommandCorrected(name) == RouteCommand(name)
  {
    assert "247" !in SEARCH_COMMANDS;
  }

  class RadioBot {
    const audioHandler: AudioHandler
    /** Guild -> id of its pending disconnect job. */
    var disconnectTimers: map<string, nat>
    /** The id the next launched job gets. */
    var nextJob: nat

    ghost predicate Valid()
      reads this, audioHandler, audioHandler.Repr
    {
      audioHandler.Valid() && TimersOk(disconnectTimers, nextJob)
    }

    constructor (audioHandler: AudioHandler)
      requires audioHandler.Valid()
      ensures Valid() && this.audioHandler == audioHandler && disconnectTimers == map[]
    {
      this.audioHandler := audioHandler;
      disconnectTimers := map[];
      nextJob := 0;
    }

    /** `cancelDisconnectTimer`: no entry, no change; otherwise the job is cancelled and its entry removed. */
    method CancelDisconnectTimer(g: string)
      requires Valid()
      modifies this
      ensures Valid() && disconnectTimers == Cancel(old(disconnectTimers), g) && nextJob == old(nextJob)
    {
      CancelStopsJob(disconnectTimers, nextJob, g);
      if g in disconnectTimers {
        disconnectTimers := disconnectTimers - {g};
      }
    }

    /** `startDisconnectTimer`: cancels the guild's job, then launches a new one. */
    method StartDisconnectTimer(g: string)
      requires Valid()
      modifies this
      ensures Valid() && disconnectTimers == Arm(old(disconnectTimers), old(nextJob), g) && nextJob == old(nextJob) + 1
    {
      ArmReplacesJob(disconnectTimers, nextJob, g);
      CancelDisconnectTimer(g);
      disconnectTimers := disconnectTimers[g := nextJob];
      nextJob := nextJob + 1;
    }

    /**
     * `onGuildVoiceUpdate`: `humans` counts the non-bot members of the bot's
     * channel, None when the bot has no voice state, is in no audio channel
     * or its channel is null. No 24/7 flag is consulted.
     */
    method OnGuildVoiceUpdate(g: string, humans: Option<nat>)
      requires Valid()
      modifies this
      ensures Valid()
      ensures var a := VoiceUpdateAction(humans, false);
        disconnectTimers == ApplyAction(old(disconnectTimers), old(nextJob), g, a) && nextJob == NextAfter(old(nextJob), a)
    {
      if humans.None? {
        return;
      }
      if humans.value == 0 {
        StartDisconnectTimer(g);
      } else {
        CancelDisconnectTimer(g);
      }
    }

    /**
     * The fire of the guild's pending job: `humans` is the re-read count
     * (None when the gateway or guild is gone or the bot left the channel, a
     * null channel counting as 0). Only an empty channel stops the audio and
     * closes the connection; the entry is removed in every case.
     */
    method FireDisconnectTimer(g: string, humans: Option<nat>) returns (closeConnection: bool)
      requires Valid() && g in disconnectTimers
      modifies this, audioHandler.Repr
      ensures Valid() && audioHandler.Repr == old(audioHandler.Repr)
      ensures closeConnection == DisconnectsOnFire(humans)
      ensures disconnectTimers == Cancel(old(disconnectTimers), g) && nextJob == old(nextJob)
      ensures audioHandler.Sessions() ==
        if closeConnection && g in old(audioHandler.Sessions())
        then old(audioHandler.Sessions())[g := AfterStop(old(audioHandler.Sessions())[g])]
        else old(audioHandler.Sessions())
    {
      closeConnection := false;
      if humans == Some(0) {
        audioHandler.StopAudio(g);
        closeConnection := true;
      }
      CancelStopsJob(disconnectTimers, nextJob, g);
      disconnectTimers := disconnectTimers - {g};
    }

    /** The timer part of `stop`: every job is cancelled and the map emptied. */
    method Stop()
      requires Valid()
      modifies this
      ensures Valid() && disconnectTimers == map[] && nextJob == old(nextJob)
    {
      disconnectTimers := map[];
    }
  }
}
