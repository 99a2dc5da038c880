/**
 * What the bot can see of Discord through JDA, frozen as a value: which guilds
 * it is in, their voice channels and whether it may join them, the channel
 * its voice connection reports, and which calls throw.
 */
module Discord {
  import opened Util

  /** One guild: voice channel id -> `selfMember.hasAccess(channel)`, and `audioManager.connectedChannel`. */
  datatype GuildInfo = GuildInfo(voiceChannels: map<string, bool>, connectedChannel: Option<string>)

  /**
   * `guilds`: `jda.getGuildById` answers; `failing`: guilds whose lookups throw;
   * `refusesConnection`: guilds whose `openAudioConnection` throws.
   */
  datatype Gateway = Gateway(guilds: map<string, GuildInfo>, failing: set<string>, refusesConnection: set<string>)

  /** The outcome of the three checks both the cleanup and the startup replay run on a stored record. */
  datatype Validity = Valid | GuildMissing | ChannelMissing | AccessLost | CheckThrew

  /**
   * Guild exists, then voice channel exists, then access retained; a lookup
   * that throws counts as a failed check of its own kind.
   */
  function CheckRecord(gw: Gateway, guildId: string, channelId: string): (v: Validity)
    ensures v == Valid <==>
      guildId !in gw.failing && guildId in gw.guilds &&
      channelId in gw.guilds[guildId].voiceChannels &&
      gw.guilds[guildId].voiceChannels[channelId]
    ensures v == GuildMissing <==> guildId !in gw.failing && guildId !in gw.guilds
  {
    if guildId in gw.failing then CheckThrew
    else if guildId !in gw.guilds then GuildMissing
    else if channelId !in gw.guilds[guildId].voiceChannels then ChannelMissing
    else if !gw.guilds[guildId].voiceChannels[channelId] then AccessLost
    else Valid
  }

  /** `audioManager.connectedChannel` of a guild, None when the guild is unknown or the lookup throws. */
  function ConnectedChannel(gw: Gateway, guildId: string): Option<string>
  {
    if guildId in gw.failing || guildId !in gw.guilds then None else gw.guilds[guildId].connectedChannel
  }
}
