/**
 * `Command247`: the `/247` slash command. It is refused while nothing plays
 * in the guild; otherwise it switches the guild's 24/7 mode to the opposite
 * of its current value through `VoiceChannelManager.set247Mode`.
 */
module StayCommand {
  import opened Util
  import opened AudioHandling
  import opened VoiceChannels
  import opened DisconnectTimers

  datatype StayReply =
    | NoGuild          // the event has no guild: the command returns without a reply
    | StreamRequired   // "Kein Stream aktiv"
    | ModeDisabled
    | ModeEnabled

  class Command247 {
    const audioHandler: AudioHandler
    const voiceChannelManager: VoiceChannelManager

    /** The command and the voice-channel manager share one audio handler. */
    ghost predicate Valid()
      reads voiceChannelManager, voiceChannelManager.audioHandler, voiceChannelManager.audioHandler.Repr
    {
      voiceChannelManager.audioHandler == audioHandler && voiceChannelManager.Valid()
    }

    constructor (audioHandler: AudioHandler, voiceChannelManager: VoiceChannelManager)
      requires voiceChannelManager.audioHandler == audioHandler && voiceChannelManager.Valid()
      ensures this.audioHandler == audioHandler && this.voiceChannelManager == voiceChannelManager && Valid()
    {
      this.audioHandler := audioHandler;
      this.voiceChannelManager := voiceChannelManager;
    }

    /**
     * `execute`: with no guild nothing happens; while nothing plays the
     * command is refused and no flag changes; otherwise the guild's flag
     * afterwards is the negation of the flag before, set through
     * `set247Mode(g, false)` or `set247Mode(g, true)`, and no other guild's
     * flag changes. `now` is the clock reading the reconnection record gets.
     */
    method Execute(guild: Option<string>, now: int) returns (reply: StayReply)
      requires Valid()
      modifies voiceChannelManager, voiceChannelManager.StoreFrame()
      ensures Valid()
      ensures guild.None? ==> reply == NoGuild && voiceChannelManager.mode247Enabled == old(voiceChannelManager.mode247Enabled)
      ensures guild.Some? && !old(audioHandler.IsPlaying(guild.value)) ==>
        reply == StreamRequired && voiceChannelManager.mode247Enabled == old(voiceChannelManager.mode247Enabled)
      ensures guild.Some? && old(audioHandler.IsPlaying(guild.value)) ==>
        && voiceChannelManager.Is247ModeEnabled(guild.value) == !old(voiceChannelManager.Is247ModeEnabled(guild.value))
        && reply == (if voiceChannelManager.Is247ModeEnabled(guild.value) then ModeEnabled else ModeDisabled)
        && forall h :: h != guild.value ==> voiceChannelManager.Is247ModeEnabled(h) == old(voiceChannelManager.Is247ModeEnabled(h))
      ensures guild.Some? ==>
        StayDecision(old(audioHandler.IsPlaying(guild.value)), old(voiceChannelManager.Is247ModeEnabled(guild.value)))
        == (if reply == StreamRequired then StayModeRejected else StayModeRequested(reply == ModeEnabled))
      ensures voiceChannelManager.nextJob == old(voiceChannelManager.nextJob)
      ensures voiceChannelManager.disconnectTimers ==
        if reply == ModeEnabled then Cancel(old(voiceChannelManager.disconnectTimers), guild.value) else old(voiceChannelManager.disconnectTimers)
      ensures voiceChannelManager.reconnectionService == old(voiceChannelManager.reconnectionService)
      ensures var service := old(voiceChannelManager.reconnectionService);
        service != null ==>
          if reply == ModeEnabled || reply == ModeDisabled then
            var target := PersistTarget(voiceChannelManager.jda, audioHandler.GetCurrentStation(guild.value), guild.value);
            service.database.rows == PersistedRows(old(service.database.rows), target, service.codec, service.database.connected,
                                                   guild.value, reply == ModeEnabled, now)
          else service.database.rows == old(service.database.rows)
    {
      if guild.None? {
        return NoGuild;
      }
      var g := guild.value;
      if !audioHandler.IsPlaying(g) {
        return StreamRequired;
      }
      var isCurrentlyEnabled := voiceChannelManager.Is247ModeEnabled(g);
      if isCurrentlyEnabled {
        voiceChannelManager.Set247Mode(g, false, now);
        reply := ModeDisabled;
      } else {
        voiceChannelManager.Set247Mode(g, true, now);
        reply := ModeEnabled;
      }
    }
  }
}
