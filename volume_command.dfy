/**
 * `VolumeCommand`: the `/volume` slash command. It is refused while nothing
 * plays in the guild; otherwise the requested value, 5 when the option is
 * missing, is clamped to 0..100 and set on the guild's player.
 */
module VolumeCommands {
  import opened Util
  import opened Audio
  import AudioHandling

  datatype VolumeReply =
    | NoGuild                   // the event has no guild: the command returns without a reply
    | NoMusicPlaying
    | VolumeChanged(volume: int)

  class VolumeCommand {
    const audioHandler: AudioHandling.AudioHandler

    constructor (audioHandler: AudioHandling.AudioHandler)
      ensures this.audioHandler == audioHandler
    {
      this.audioHandler := audioHandler;
    }

    /**
     * `execute`: with no guild nothing happens; while nothing plays the
     * command is refused and every player keeps its volume; otherwise the
     * guild's player gets the clamped value, which is also the value the
     * reply reports.
     */
    method Execute(guild: Option<string>, value: Option<int>) returns (reply: VolumeReply)
      requires audioHandler.Valid()
      modifies audioHandler, audioHandler.Repr
      ensures audioHandler.Valid()
      ensures guild.None? ==> reply == NoGuild && audioHandler.Sessions() == old(audioHandler.Sessions())
      ensures guild.Some? && !old(audioHandler.IsPlaying(guild.value)) ==>
        reply == NoMusicPlaying && audioHandler.Sessions() == old(audioHandler.Sessions())
      ensures guild.Some? && old(audioHandler.IsPlaying(guild.value)) ==>
        && reply == VolumeChanged(AudioHandling.RequestedVolume(value))
        && audioHandler.GetCurrentVolume(guild.value) == reply.volume
        && audioHandler.IsPlaying(guild.value)
        && audioHandler.Sessions() == old(audioHandler.Sessions())[guild.value := AfterSetVolume(old(audioHandler.Sessions())[guild.value], reply.volume)]
    {
      if guild.None? {
        return NoGuild;
      }
      var g := guild.value;
      var volume := value.GetOr(DEFAULT_VOLUME);
      if !audioHandler.IsPlaying(g) {
        return NoMusicPlaying;
      }
      var audioManager := audioHandler.GetOrCreateAudioManager(g);
      var safeVolume := Clamp(volume, 0, 100);
      audioManager.SetVolume(safeVolume);
      assert audioHandler.audioManagers[g] == audioManager;
      reply := VolumeChanged(safeVolume);
    }
  }
}
