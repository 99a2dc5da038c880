/**
 * `VoiceChannelManager`: the idle-disconnect timers, the per-guild 24/7 flags
 * and the write of the reconnection record when the 24/7 mode changes.
 */
module VoiceChannels {
  import opened Util
  import opened Stations
  import opened Discord
  import opened Audio
  import opened AudioHandling
  import opened ReconnectionStore
  import opened ReconnectionServices
  import opened DisconnectTimers

  /**
   * What `updateReconnectionState` saves for a guild: its connected channel and
   * current station, or None when the gateway is null, the guild is unknown
   * (or its lookup throws), the bot is not connected or no station is set.
   */
  function PersistTarget(jda: Option<Gateway>, station: Option<RadioStation>, g: string): (r: Option<(string, RadioStation)>)
    ensures r.Some? <==> jda.Some? && ConnectedChannel(jda.value, g).Some? && station.Some?
    ensures r.Some? ==> r.value == (ConnectedChannel(jda.value, g).value, station.value)
  {
    if jda.None? then None
    else match ConnectedChannel(jda.value, g)
      case None => None
      case Some(ch) => if station.None? then None else Some((ch, station.value))
  }

  /**
   * The reconnection table after `updateReconnectionState` wrote `flag` for
   * guild g: the row is replaced only when there is something to save
   * (`target`), the station encodes and the database is reachable; no other
   * guild's row changes.
   */
  function PersistedRows(rows: map<string, Row>, target: Option<(string, RadioStation)>, codec: Codec,
                         connected: bool, g: string, flag: bool, now: int): (r: map<string, Row>)
    ensures forall h :: h != g ==> (h in r <==> h in rows) && (h in r ==> r[h] == rows[h])
    ensures target.Some? && codec.encode(target.value.1).Some? && connected ==>
      g in r && r[g].channelId == target.value.0 && r[g].stationData == codec.encode(target.value.1).value
      && ReadFlag(r[g].mode247Enabled) == flag && r[g].lastUpdated == now
    ensures target.None? || codec.encode(target.value.1).None? || !connected ==> r == rows
  {
    if target.None? || codec.encode(target.value.1).None? || !connected then rows
    else rows[g := SavedRow(target.value.0, codec.encode(target.value.1).value, flag, now)]
  }

  class VoiceChannelManager {
    var jda: Option<Gateway>
    const audioHandler: AudioHandler
    var reconnectionService: ReconnectionService?
    /** Guild -> id of its pending disconnect job. */
    var disconnectTimers: map<string, nat>
    /** The id the next launched job gets. */
    var nextJob: nat
    /** Guilds in 24/7 mode; only `true` is ever stored. */
    var mode247Enabled: map<string, bool>

    ghost predicate Valid()
      reads this, audioHandler, audioHandler.Repr
    {
      && audioHandler.Valid()
      && TimersOk(disconnectTimers, nextJob)
      && (forall g :: g in mode247Enabled ==> mode247Enabled[g])
    }

    /** The reconnection table the manager writes through its service, if it has one. */
    function StoreFrame(): set<object>
      reads this
    {
      if reconnectionService == null then {} else {reconnectionService.database}
    }

    constructor (jda: Option<Gateway>, audioHandler: AudioHandler)
      requires audioHandler.Valid()
      ensures Valid() && this.jda == jda && this.audioHandler == audioHandler
      ensures reconnectionService == null && disconnectTimers == map[] && mode247Enabled == map[]
    {
      this.jda := jda;
      this.audioHandler := audioHandler;
      reconnectionService := null;
      disconnectTimers := map[];
      nextJob := 0;
      mode247Enabled := map[];
    }

    /** `setReconnectionService`. */
    method SetReconnectionService(service: ReconnectionService)
      requires Valid()
      modifies this
      ensures Valid() && reconnectionService == service
      ensures jda == old(jda) && disconnectTimers == old(disconnectTimers) && mode247Enabled == old(mode247Enabled)
    {
      reconnectionService := service;
    }

    /** `updateJDA`. */
    method UpdateJDA(gw: Option<Gateway>)
      requires Valid()
      modifies this
      ensures Valid() && jda == gw && reconnectionService == old(reconnectionService)
      ensures disconnectTimers == old(disconnectTimers) && mode247Enabled == old(mode247Enabled)
    {
      jda := gw;
    }

    /** `is247ModeEnabled`: false for a guild never switched on. */
    predicate Is247ModeEnabled(g: string)
      reads this
      ensures Is247ModeEnabled(g) <==> g in mode247Enabled && mode247Enabled[g]
    {
      g in mode247Enabled && mode247Enabled[g]
    }

    /** `cancelDisconnectTimer`: no entry, no change; otherwise the job is cancelled and its entry removed. */
    method CancelDisconnectTimer(g: string)
      requires Valid()
      modifies this
      ensures Valid() && disconnectTimers == Cancel(old(disconnectTimers), g) && nextJob == old(nextJob)
      ensures mode247Enabled == old(mode247Enabled) && jda == old(jda) && reconnectionService == old(reconnectionService)
    {
      CancelStopsJob(disconnectTimers, nextJob, g);
      if g in disconnectTimers {
        disconnectTimers := disconnectTimers - {g};
      }
    }

    /** `startDisconnectTimer`: cancels the guild's job, then launches a new one. */
    method StartDisconnectTimer(g: string)
      requires Valid()
      modifies this
      ensures Valid() && disconnectTimers == Arm(old(disconnectTimers), old(nextJob), g) && nextJob == old(nextJob) + 1
      ensures mode247Enabled == old(mode247Enabled) && jda == old(jda) && reconnectionService == old(reconnectionService)
    {
      ArmReplacesJob(disconnectTimers, nextJob, g);
      CancelDisconnectTimer(g);
      disconnectTimers := disconnectTimers[g := nextJob];
      nextJob := nextJob + 1;
    }

    /**
     * `handleVoiceUpdate`: `humans` is the number of non-bot members in the
     * bot's channel, None when the bot is not in an audio channel.
     */
    method HandleVoiceUpdate(g: string, humans: Option<nat>)
      requires Valid()
      modifies this
      ensures Valid()
      ensures var a := VoiceUpdateAction(humans, old(Is247ModeEnabled(g)));
        disconnectTimers == ApplyAction(old(disconnectTimers), old(nextJob), g, a) && nextJob == NextAfter(old(nextJob), a)
      ensures mode247Enabled == old(mode247Enabled) && jda == old(jda) && reconnectionService == old(reconnectionService)
    {
      if humans.None? {
        return;
      }
      if humans.value == 0 {
        if !Is247ModeEnabled(g) {
          StartDisconnectTimer(g);
        }
      } else {
        CancelDisconnectTimer(g);
      }
    }

    /**
     * The fire of the guild's pending job after its delay: the channel is
     * re-read (`humans`, see DisconnectsOnFire); only an empty channel stops
     * the guild's audio and closes the connection (the returned flag). The
     * entry is removed in every case. The reconnection record is not touched.
     */
    method FireDisconnectTimer(g: string, humans: Option<nat>) returns (closeConnection: bool)
      requires Valid() && g in disconnectTimers
      modifies this, audioHandler.Repr
      ensures Valid() && audioHandler.Repr == old(audioHandler.Repr)
      ensures closeConnection == DisconnectsOnFire(humans)
      ensures disconnectTimers == Cancel(old(disconnectTimers), g) && nextJob == old(nextJob)
      ensures mode247Enabled == old(mode247Enabled) && jda == old(jda) && reconnectionService == old(reconnectionService)
      ensures audioHandler.Sessions() ==
        if closeConnection && g in old(audioHandler.Sessions())
        then old(audioHandler.Sessions())[g := AfterStop(old(audioHandler.Sessions())[g])]
        else old(audioHandler.Sessions())
    {
      closeConnection := false;
      if humans == Some(0) {
        audioHandler.StopAudio(g);
        closeConnection := true;
      }
      CancelStopsJob(disconnectTimers, nextJob, g);
      disconnectTimers := disconnectTimers - {g};
    }

    /**
     * `updateReconnectionState`: saves the guild's channel, current station and
     * flag only when the service, the gateway, the guild, its connected channel
     * and the station are all present; otherwise nothing is written.
     */
    method UpdateReconnectionState(g: string, flag: bool, now: int)
      requires Valid()
      modifies StoreFrame()
      ensures Valid()
      ensures var target := PersistTarget(jda, audioHandler.GetCurrentStation(g), g);
        reconnectionService != null ==>
          var db := reconnectionService.database;
          if target.None? || reconnectionService.codec.encode(target.value.1).None? || !db.connected
          then db.rows == old(db.rows)
          else db.rows == old(db.rows)[g := SavedRow(target.value.0, reconnectionService.codec.encode(target.value.1).value, flag, now)]
    {
      var service := reconnectionService;
      if service == null {
        return;
      }
      var target := PersistTarget(jda, audioHandler.GetCurrentStation(g), g);
      if target.None? {
        return;
      }
      var _ := service.SaveState(g, target.value.0, target.value.1, flag, now);
    }

    /**
     * `set247Mode`: enabling stores the flag and cancels the guild's timer;
     * disabling removes the flag. Either way the reconnection record is then
     * rewritten with the new flag (see UpdateReconnectionState).
     */
    method Set247Mode(g: string, enabled: bool, now: int)
      requires Valid()
      modifies this, StoreFrame()
      ensures Valid() && jda == old(jda) && reconnectionService == old(reconnectionService) && nextJob == old(nextJob)
      ensures Is247ModeEnabled(g) == enabled
      ensures forall h :: h != g ==> Is247ModeEnabled(h) == old(Is247ModeEnabled(h))
      ensures enabled ==> mode247Enabled == old(mode247Enabled)[g := true] && disconnectTimers == Cancel(old(disconnectTimers), g)
      ensures !enabled ==> mode247Enabled == old(mode247Enabled) - {g} && disconnectTimers == old(disconnectTimers)
      ensures var target := PersistTarget(jda, audioHandler.GetCurrentStation(g), g);
        reconnectionService != null ==>
          var db := reconnectionService.database;
          if target.None? || reconnectionService.codec.encode(target.value.1).None? || !db.connected
          then db.rows == old(db.rows)
          else db.rows == old(db.rows)[g := SavedRow(target.value.0, reconnectionService.codec.encode(target.value.1).value, enabled, now)]
    {
      if enabled {
        mode247Enabled := mode247Enabled[g := true];
        CancelDisconnectTimer(g);
      } else {
        mode247Enabled := mode247Enabled - {g};
      }
      UpdateReconnectionState(g, enabled, now);
    }

    /** `cancelAllTimers`: every job is cancelled and the timer map emptied; the 24/7 flags stay. */
    method CancelAllTimers()
      requires Valid()
      modifies this
      ensures Valid() && disconnectTimers == map[] && nextJob == old(nextJob)
      ensures mode247Enabled == old(mode247Enabled) && jda == old(jda) && reconnectionService == old(reconnectionService)
    {
      disconnectTimers := map[];
    }
  }

  /**
   * Enabling 24/7 twice leaves the same flags, timers and reconnection table
   * as enabling it once: each is the post-state `Set247Mode(g, true, now)`
   * gives, applied a second time with the same gateway and station.
   */
  lemma EnableTwiceIsOnce(flags: map<string, bool>, timers: map<string, nat>, rows: map<string, Row>,
                          target: Option<(string, RadioStation)>, codec: Codec, connected: bool, g: string, now: int)
    ensures flags[g := true][g := true] == flags[g := true]
    ensures Cancel(Cancel(timers, g), g) == Cancel(timers, g)
    ensures var once := PersistedRows(rows, target, codec, connected, g, true, now);
      PersistedRows(once, target, codec, connected, g, true, now) == once
  {
  }
}
