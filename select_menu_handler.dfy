/**
 * `SelectMenuHandler`: the volume menu under a station list.
 */
module SelectMenus {
  import opened Util
  import opened Audio
  import opened AudioHandling
  import opened UI

  /** What a menu selection answers. */
  datatype MenuReply =
    | MenuIgnored               // no guild, or a menu this handler does not know
    | MenuDeferred              // acknowledged with nothing selected
    | VolumeRejected            // nothing is playing
    | VolumeSet(shown: int)     // "Volume set to <shown>%": the value as parsed, before clamping
    | InvalidVolume             // the value is not an Int

  class SelectMenuHandler {
    const audioHandler: AudioHandler

    constructor (audioHandler: AudioHandler)
      ensures this.audioHandler == audioHandler
    {
      this.audioHandler := audioHandler;
    }

    /**
     * `handleSelectMenuInteraction`: only "volume_select" inside a guild is
     * handled; the first selected value, while the guild is playing, is parsed
     * and handed to `setVolume` (which clamps it). No value, nothing playing
     * or a value that is not an Int leaves the player as it was.
     */
    method HandleSelectMenuInteraction(guild: Option<string>, menuId: string, values: seq<string>) returns (reply: MenuReply)
      requires audioHandler.Valid()
      modifies audioHandler.Repr
      ensures audioHandler.Valid() && audioHandler.Repr == old(audioHandler.Repr)
      ensures guild.None? || menuId != "volume_select" ==>
        reply == MenuIgnored && audioHandler.Sessions() == old(audioHandler.Sessions())
      ensures guild.Some? && menuId == "volume_select" ==>
        var g := guild.value;
        if values == [] then reply == MenuDeferred && audioHandler.Sessions() == old(audioHandler.Sessions())
        else if !old(audioHandler.IsPlaying(g)) then reply == VolumeRejected && audioHandler.Sessions() == old(audioHandler.Sessions())
        else if ParseInt(values[0]).None? then reply == InvalidVolume && audioHandler.Sessions() == old(audioHandler.Sessions())
        else
          var v := ParseInt(values[0]).value;
          && reply == VolumeSet(v)
          && g in old(audioHandler.Sessions())
          && audioHandler.Sessions() == old(audioHandler.Sessions())[g := AfterSetVolume(old(audioHandler.Sessions())[g], v)]
    {
      if guild.None? || menuId != "volume_select" {
        return MenuIgnored;
      }
      var g := guild.value;
      if values == [] {
        return MenuDeferred;
      }
      if !audioHandler.IsPlaying(g) {
        return VolumeRejected;
      }
      var parsed := ParseInt(values[0]);
      if parsed.None? {
        return InvalidVolume;
      }
      audioHandler.SetVolume(g, parsed.value);
      reply := VolumeSet(parsed.value);
    }
  }

  /**
   * Every option of the volume menu, chosen while a station plays, sets the
   * player to exactly the volume it shows, and the reply reports that volume.
   */
  lemma MenuOptionsSetTheirVolume(i: int, s: Session)
    requires 0 <= i < 20
    ensures ParseInt(VolumeOption(5 * (i + 1)).value) == Some(5 * (i + 1))
    ensures AfterSetVolume(s, ParseInt(VolumeOption(5 * (i + 1)).value).value).volume == 5 * (i + 1)
  {
    VolumeOptionsParse(5 * (i + 1));
  }
}
