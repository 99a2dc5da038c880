# radioss in Dafny

radioss is a Discord bot that plays internet radio stations in voice channels.
This project models the bot's per-guild playback state and the bookkeeping around it, and proves properties of that model.
Discord (JDA), the audio engine, HTTP and SQLite are not modelled; their answers come in as parameters.

What is modelled, one Dafny module per Kotlin file:

- **Idle-disconnect timers and 24/7 mode** (`VoiceChannels`, `Bot`, `DisconnectTimers`).
  A guild whose voice channel has no humans left gets one pending disconnect job, unless 24/7 mode is on.
  A job that fires re-reads the human count before it stops the audio.
- **Slash-command routing of the older `RadioBot`** (`Bot`).
- **Reconnection after a restart** (`ReconnectionStore`, `ReconnectionServices`, `Reconnection`, `Cleanup`).
  This covers the guild-keyed table of saved sessions, the three-step validity check, the startup replay and the periodic sweep of invalid records.
- **Audio sessions** (`Audio`, `AudioHandling`, `Stations`, `StayCommand`, `VolumeCommands`).
  This covers the lazily created player per guild, stream-URL choice, volume clamping and the play, stop, volume and 24/7 commands.
- **Search results and pagination** (`SearchHandling`, `Buttons`, `SelectMenus`, `UI`).
  This covers the per-user result, page and term maps, the page arithmetic, button-id dispatch and the text and buttons a result page shows.
- **Favorites** (`FavoriteStore`, `Favorites`).
  This is a table keyed by (user, station uuid) with insert-or-replace and newest-first listing.
- **Administration and commands** (`Admin`, `StatusCommands`, `Commands`, `Registration`).
  This covers admin id parsing, the `/status` report and its duration format, the command table with its global/admin split, and the registration-completion flag.

Shared pieces live in `Util` (Option, Kotlin string and integer helpers, page arithmetic) and `Discord` (the gateway as a value).
Each Kotlin class whose fields change in place is a Dafny `class`; its methods state which fields change and how.
A method that delegates to another object's method repeats that object's new state in its own contract: the timers, the job counter and the rewritten reconnection record included.
The SQLite tables are `map` fields.
Pending coroutine jobs are explicit records, and each step of a job (a timer firing, a cleanup round, a registration callback) is an explicit method.

## Model

| member | source | states |
|---|---|---|
| DisconnectTimers.Cancel | src/main/kotlin/bot/VoiceChannelManager.kt:102-108 | after cancelling, the guild has no pending job; a guild without one is left as it was; every other guild keeps its job |
| DisconnectTimers.CancelStopsJob | src/main/kotlin/bot/VoiceChannelManager.kt:102-108 | cancelling keeps job ids unique and the cancelled job is no longer pending anywhere |
| DisconnectTimers.ArmReplacesJob | src/main/kotlin/bot/VoiceChannelManager.kt:63-64 | arming cancels first, so the guild ends with exactly one pending job, a fresh one; the replaced job is gone and other guilds are untouched |
| DisconnectTimers.VoiceUpdateAction | src/main/kotlin/bot/VoiceChannelManager.kt:36-60 | no channel: no timer change; an empty channel arms a timer exactly when 24/7 is off; an occupied channel always cancels |
| DisconnectTimers.VoiceUpdateOutcome | src/main/kotlin/bot/VoiceChannelManager.kt:51-60 | a voice update keeps at most one job per guild, touches only its own guild, leaves a fresh job for an empty channel outside 24/7 and none for an occupied one |
| VoiceChannels.PersistTarget | src/main/kotlin/bot/VoiceChannelManager.kt:124-135 | a record is written exactly when the gateway, the guild's connected channel and the current station are all present, and it holds that channel and station |
| VoiceChannels.VoiceChannelManager.constructor | src/main/kotlin/bot/VoiceChannelManager.kt:11-20 | a new manager has no service, no timers and no 24/7 guild |
| VoiceChannels.VoiceChannelManager.SetReconnectionService | src/main/kotlin/bot/VoiceChannelManager.kt:22-24 | stores the service and changes nothing else |
| VoiceChannels.VoiceChannelManager.UpdateJDA | src/main/kotlin/bot/VoiceChannelManager.kt:26-28 | replaces the gateway and changes nothing else |
| VoiceChannels.VoiceChannelManager.Is247ModeEnabled | src/main/kotlin/bot/VoiceChannelManager.kt:142-144 | true only for a guild whose flag is stored; an unknown guild reports false |
| VoiceChannels.VoiceChannelManager.CancelDisconnectTimer | src/main/kotlin/bot/VoiceChannelManager.kt:102-108 | the guild's entry is removed (no change when it had none); the 24/7 flags are untouched |
| VoiceChannels.VoiceChannelManager.StartDisconnectTimer | src/main/kotlin/bot/VoiceChannelManager.kt:63-100 | cancels the guild's job, then registers one new job; at most one job per guild is kept |
| VoiceChannels.VoiceChannelManager.HandleVoiceUpdate | src/main/kotlin/bot/VoiceChannelManager.kt:30-61 | the timers become what VoiceUpdateAction decides for the old 24/7 flag; no channel changes nothing; the 24/7 flags are never changed |
| VoiceChannels.VoiceChannelManager.FireDisconnectTimer | src/main/kotlin/bot/VoiceChannelManager.kt:68-97 | audio is stopped and the connection closed only when the re-read human count is 0; the entry is removed in every outcome; the reconnection record is not touched |
| VoiceChannels.PersistedRows | src/main/kotlin/bot/VoiceChannelManager.kt:124-140 | the row for the guild holds its channel, encoded station, flag and time when there is something to save, the station encodes and the database is reachable; otherwise the table is unchanged; no other guild's row changes |
| VoiceChannels.VoiceChannelManager.UpdateReconnectionState | src/main/kotlin/bot/VoiceChannelManager.kt:124-140 | the table changes only when service, gateway, guild, channel and station are present and the station encodes; then the guild's row holds them and the flag |
| VoiceChannels.VoiceChannelManager.Set247Mode | src/main/kotlin/bot/VoiceChannelManager.kt:110-122 | afterwards the guild's flag equals `enabled` and no other flag changes; enabling also cancels the guild's timer; the record is rewritten with the new flag |
| VoiceChannels.VoiceChannelManager.CancelAllTimers | src/main/kotlin/bot/VoiceChannelManager.kt:146-149 | no timer is left and the 24/7 flags are untouched |
| VoiceChannels.EnableTwiceIsOnce | src/main/kotlin/bot/VoiceChannelManager.kt:110-140 | enabling 24/7 twice leaves the same flags, timers and reconnection table as enabling it once |
| Bot.RoutingPartition | src/main/kotlin/bot/RadioBot.kt:88-104 | the search and audio name lists are disjoint; each list reaches its handler, "favorites" the placeholder, and every other name is unknown |
| Bot.SearchRoutingMatchesRegistration | src/main/kotlin/bot/RadioBot.kt:277-282 | the names routed to search are exactly the names the search handler registers |
| Bot.StayCommandIsUnrouted | src/main/kotlin/bot/RadioBot.kt:284-288 | "247" is registered but routed as unknown (see Findings) |
| Bot.CorrectedRoutingReachesHandlers | src/main/kotlin/bot/RadioBot.kt:244-251 | with the audio handler's own list, every registered name reaches the handler that registered it, and no other name is routed differently |
| Bot.RadioBot.constructor | src/main/kotlin/bot/RadioBot.kt:25-39 | a new bot has no pending timer |
| Bot.RadioBot.CancelDisconnectTimer | src/main/kotlin/bot/RadioBot.kt:236-242 | the guild's entry is removed (no change when it had none) |
| Bot.RadioBot.StartDisconnectTimer | src/main/kotlin/bot/RadioBot.kt:197-234 | cancels the guild's job, then registers one new job |
| Bot.RadioBot.OnGuildVoiceUpdate | src/main/kotlin/bot/RadioBot.kt:169-195 | no channel changes nothing; 0 humans arms a timer and any human cancels it; there is no 24/7 exception |
| Bot.RadioBot.FireDisconnectTimer | src/main/kotlin/bot/RadioBot.kt:202-231 | audio stops only when the re-read count is 0; the entry is removed in every outcome |
| Bot.RadioBot.Stop | src/main/kotlin/bot/RadioBot.kt:66-67 | no timer is left afterwards |
| ReconnectionStore.FlagRoundTrip | src/main/kotlin/database/ReconnectionDatabase.kt:70-94 | the 24/7 flag, written as 1/0 and read as `== 1`, reads back as written |
| ReconnectionStore.StateOf | src/main/kotlin/database/ReconnectionDatabase.kt:90-96 | a loaded state carries the row's guild, channel, data and time, and its flag is true exactly when the column is 1 |
| ReconnectionStore.Lookup | src/main/kotlin/database/ReconnectionDatabase.kt:81-104 | a guild reads back a state exactly when it has a row, and the state is that row's |
| ReconnectionStore.SaveThenLoad | src/main/kotlin/database/ReconnectionDatabase.kt:58-74 | after an upsert the guild loads exactly what was saved, flag included, and every other guild loads what it did before |
| ReconnectionStore.IdsOf | src/main/kotlin/database/ReconnectionDatabase.kt:184-190 | a guild id is in the set exactly when some listed state carries it |
| ReconnectionStore.DistinctIdsCount | src/main/kotlin/database/ReconnectionDatabase.kt:41 | states with pairwise different guild ids (the primary key) name as many guilds as there are states |
| ReconnectionStore.ListingCoversTable | src/main/kotlin/database/ReconnectionDatabase.kt:111-133 | a listing of the table names every guild that has a row, each once, with that row's contents |
| ReconnectionStore.DistinctElementsAtMostLength | src/main/kotlin/database/ReconnectionDatabase.kt:155-168 | a list of ids names at most as many distinct guilds as it has entries |
| ReconnectionStore.BatchDeleteCount | src/main/kotlin/database/ReconnectionDatabase.kt:155-168 | the rows a batch delete removes are at most the number of ids given and at most the rows there were; a guild survives exactly when it was not listed |
| ReconnectionStore.ReconnectionDatabase.constructor | src/main/kotlin/database/ReconnectionDatabase.kt:9-36 | the database opens over the rows already in the file |
| ReconnectionStore.ReconnectionDatabase.SaveState | src/main/kotlin/database/ReconnectionDatabase.kt:58-79 | an upsert keyed by guild id that returns true; a failing database returns false and changes nothing |
| ReconnectionStore.ReconnectionDatabase.LoadState | src/main/kotlin/database/ReconnectionDatabase.kt:81-109 | the guild's row as a state; null when there is no row or the database fails |
| ReconnectionStore.ReconnectionDatabase.LoadAllStates | src/main/kotlin/database/ReconnectionDatabase.kt:111-138 | every row exactly once with its contents; the empty list when the database fails |
| ReconnectionStore.ReconnectionDatabase.DeleteState | src/main/kotlin/database/ReconnectionDatabase.kt:140-153 | true exactly when the guild had a row; afterwards it has none; a failing database returns false and changes nothing |
| ReconnectionStore.ReconnectionDatabase.DeleteStates | src/main/kotlin/database/ReconnectionDatabase.kt:155-173 | an empty list returns 0 and changes nothing; otherwise exactly the listed guilds lose their rows and the count of removed rows is returned; a failure returns 0 |
| Discord.CheckRecord | src/main/kotlin/services/ReconnectionService.kt:97-127 | a record is valid exactly when its guild exists, its voice channel exists and the bot still has access, with no lookup throwing; a missing guild is reported as such |
| ReconnectionServices.Decoded | src/main/kotlin/services/ReconnectionService.kt:37-53 | a stored row becomes a record exactly when its station JSON decodes, keeping guild, channel and flag |
| ReconnectionServices.DecodeAll | src/main/kotlin/services/ReconnectionService.kt:55-78 | the decoded records are never more than the rows |
| ReconnectionServices.DecodeAllAppend | src/main/kotlin/services/ReconnectionService.kt:59-75 | decoding keeps the rows' relative order: decoding a concatenation decodes each part |
| ReconnectionServices.DecodeAllKeepsExactlyDecodable | src/main/kotlin/services/ReconnectionService.kt:59-75 | every returned record comes from a stored row, and every row whose station decodes is returned |
| ReconnectionServices.InvalidIds | src/main/kotlin/services/ReconnectionService.kt:97-128 | the ids collected are never more than the records |
| ReconnectionServices.InvalidIdsExact | src/main/kotlin/services/ReconnectionService.kt:97-128 | an id is collected exactly when one of its records fails a check |
| ReconnectionServices.CollectedAreInvalid | src/main/kotlin/services/ReconnectionService.kt:88-128 | over a listing of the table, the collected ids are exactly the guilds whose stored record is invalid |
| ReconnectionServices.ReconnectionService.constructor | src/main/kotlin/services/ReconnectionService.kt:10-18 | a new service has no gateway |
| ReconnectionServices.ReconnectionService.UpdateJDA | src/main/kotlin/services/ReconnectionService.kt:140-142 | stores the gateway |
| ReconnectionServices.ReconnectionService.SaveState | src/main/kotlin/services/ReconnectionService.kt:20-35 | a station that fails to encode returns false with no write; otherwise the encoded row is upserted and the database's answer returned |
| ReconnectionServices.ReconnectionService.LoadState | src/main/kotlin/services/ReconnectionService.kt:37-53 | null when there is no row or the station does not decode; otherwise the row's guild, channel and flag with the decoded station |
| ReconnectionServices.ReconnectionService.LoadAllStates | src/main/kotlin/services/ReconnectionService.kt:55-78 | the rows in the database's order with undecodable ones skipped (see DecodeAllKeepsExactlyDecodable) |
| ReconnectionServices.ReconnectionService.DeleteState | src/main/kotlin/services/ReconnectionService.kt:80-86 | true exactly when the guild had a row, which is then gone |
| ReconnectionServices.ReconnectionService.CleanupInvalidStates | src/main/kotlin/services/ReconnectionService.kt:88-138 | without a gateway it returns 0 and deletes nothing; otherwise exactly the invalid records are deleted and their number returned |
| Reconnection.ReplayLeavesOthers | src/main/kotlin/bot/ReconnectionManager.kt:44-76 | a guild with no record that passes its checks keeps its player exactly as it was: failed records never reach the audio side |
| Reconnection.ReplayPlaysEachReplayable | src/main/kotlin/bot/ReconnectionManager.kt:79-83 | every record that passes ends with a player for its guild, and a station with a stream link is the one that player holds |
| Reconnection.ReplayFlagsExact | src/main/kotlin/bot/ReconnectionManager.kt:86-90 | 24/7 is switched on exactly for the guilds of replayed records whose flag is set, every other guild keeps its flag, and nothing is switched off |
| Reconnection.ReplayTimersExact | src/main/kotlin/bot/VoiceChannelManager.kt:110-121 | after the replay a guild keeps its pending disconnect job exactly when no replayed record with its flag set is for it, and a kept job is unchanged |
| Reconnection.DecodeAllKeepsGuildsDistinct | src/main/kotlin/services/ReconnectionService.kt:55-78 | skipping undecodable rows keeps one record per guild, each from the listing |
| Reconnection.RowsStep | src/main/kotlin/bot/ReconnectionManager.kt:29-37 | replaying one more record keeps the table facts of the loop: every failed record so far is gone, every replayed record without the flag is as it was, every replayed record with the flag is kept, and guilds not reached yet are untouched |
| Reconnection.ReconnectionManager.constructor | src/main/kotlin/bot/ReconnectionManager.kt:9-15 | the manager shares one service and one player registry with the voice-channel manager |
| Reconnection.ReconnectionManager.DropRecord | src/main/kotlin/bot/ReconnectionManager.kt:42-96 | a failed record is deleted from the table |
| Reconnection.ReconnectionManager.RestoreRecord | src/main/kotlin/bot/ReconnectionManager.kt:79-90 | the station is played; 24/7 is switched on only for a set flag and never off; a set flag also cancels the guild's disconnect timer and rewrites its record with the flag on, through `updateReconnectionState`; no job is launched and no other record changes |
| Reconnection.ReconnectionManager.RestoreMode | src/main/kotlin/bot/ReconnectionManager.kt:87-90 | `set247Mode(g, true)` turns g's flag on, cancels g's disconnect timer, launches no job, leaves the players alone and rewrites g's record with the flag on when its channel and station are known, the station encodes and the database is reachable |
| Reconnection.ReconnectionManager.PlayRecord | src/main/kotlin/bot/ReconnectionManager.kt:79-83 | the guild's player is created if needed and then plays the stored station |
| Reconnection.ReconnectionManager.ReconnectGuild | src/main/kotlin/bot/ReconnectionManager.kt:42-97 | a failed check or refused connection deletes the record with no audio or 24/7 change; otherwise the station is played and a set flag restored, which cancels the guild's timer and rewrites its record; no other guild's record or timer changes |
| Reconnection.ReconnectionManager.ReplayAll | src/main/kotlin/bot/ReconnectionManager.kt:29-37 | the records are replayed in list order, each followed by a 500 ms pause; a failing record never stops the next; the players, flags and timers are the in-order replay and no job is launched; failed records are gone, replayed records without the flag are as they were, replayed records with the flag are kept, and unlisted guilds are untouched |
| Reconnection.ReconnectionManager.Reconnect | src/main/kotlin/bot/ReconnectionManager.kt:18-40 | no records means nothing happens; otherwise players, flags and disconnect timers are the in-order replay, no job is launched, every failed record is gone, replayed records without the flag are as they were, replayed records with the flag are kept, and unlisted guilds are untouched |
| Cleanup.CleanupScheduler.constructor | src/main/kotlin/bot/CleanupScheduler.kt:7-12 | a new scheduler has no job |
| Cleanup.CleanupScheduler.StartPeriodicCleanup | src/main/kotlin/bot/CleanupScheduler.kt:14-37 | while a job is active nothing happens; otherwise a new active job waits intervalHours · 3,600,000 ms per round and has not yet run |
| Cleanup.CleanupScheduler.RunRound | src/main/kotlin/bot/CleanupScheduler.kt:23-35 | one loop round waits a full interval before it sweeps, so every finished round was preceded by one full wait; the job stays active and the sweep deletes exactly the invalid records |
| Cleanup.CleanupScheduler.ScopeCancelled | src/main/kotlin/bot/CleanupScheduler.kt:29-31 | cancelling the coroutine scope leaves the job recorded but no longer active, so a later start launches a new one |
| Cleanup.CleanupScheduler.Stop | src/main/kotlin/bot/CleanupScheduler.kt:39-43 | no job is recorded afterwards |
| Cleanup.CleanupScheduler.RunCleanupNow | src/main/kotlin/bot/CleanupScheduler.kt:45-55 | returns the sweep's count: the invalid records are deleted, or 0 and no change without a gateway |
| Stations.DefaultStation | src/main/kotlin/models/RadioStation.kt:7-19 | all ten string fields default to empty and bitrate and votes to 0 |
| Stations.CustomStream | src/main/kotlin/handlers/AudioHandler.kt:141-146 | a raw link becomes a station named "Custom Stream" whose url and resolved url are both the link, with no uuid |
| Stations.StreamUrl | src/main/kotlin/handlers/AudioHandler.kt:75 | the resolved url when it is non-empty, else the raw url; empty exactly when both are empty |
| Audio.AfterPlay | src/main/kotlin/audio/GuildAudioManager.kt:27-33 | the station is recorded whatever the engine answers; only a loaded track (or a playlist's first track) replaces the current one; volume and pause kept |
| Audio.AfterStop | src/main/kotlin/audio/GuildAudioManager.kt:35-39 | afterwards there is no station and nothing plays; the volume is kept |
| Audio.AfterSetVolume | src/main/kotlin/audio/GuildAudioManager.kt:41-45 | the volume becomes the value clamped to [0, 100]; station and playing state kept |
| Audio.SessionInvariant | src/main/kotlin/audio/GuildAudioManager.kt:18-23 | a new player is stopped, holds no station and has volume 5; every operation keeps the volume within [0, 100] |
| Audio.StopUndoesPlay | src/main/kotlin/audio/GuildAudioManager.kt:27-45 | stopping after any play leaves no station and nothing playing; setting a volume twice equals setting it once |
| Audio.GuildAudioManager.constructor | src/main/kotlin/audio/GuildAudioManager.kt:18-25 | a new player has volume 5, no station and no track |
| Audio.GuildAudioManager.PlayTrack | src/main/kotlin/audio/GuildAudioManager.kt:27-33 | the player's new state is AfterPlay of the old one |
| Audio.GuildAudioManager.Stop | src/main/kotlin/audio/GuildAudioManager.kt:35-39 | the player's new state is AfterStop of the old one |
| Audio.GuildAudioManager.SetVolume | src/main/kotlin/audio/GuildAudioManager.kt:41-45 | the player's new state is AfterSetVolume of the old one |
| Audio.GuildAudioManager.GetVolume | src/main/kotlin/audio/GuildAudioManager.kt:47-49 | the stored volume, always within [0, 100] |
| AudioHandling.RequestedVolume | src/main/kotlin/handlers/AudioHandler.kt:59-192 | always within [0, 100]; 5 when the option is missing; an in-range value is kept |
| AudioHandling.StayDecision | src/main/kotlin/handlers/AudioHandler.kt:211-241 | rejected exactly when nothing plays; otherwise asks for the opposite of the current mode |
| AudioHandling.AfterPlayStation | src/main/kotlin/handlers/AudioHandler.kt:73-88 | the guild gets a player if it had none and no other player changes; a station with a stream link is the one the player holds |
| AudioHandling.PlayStationSteps | src/main/kotlin/handlers/AudioHandler.kt:73-88 | creating the player and then playing the link (if any) is exactly AfterPlayStation |
| AudioHandling.CreatedThenUpdated | src/main/kotlin/handlers/AudioHandler.kt:44-46 | updating the player right after creating it is the same as setting it |
| AudioHandling.CreateThenPlay | src/main/kotlin/handlers/AudioHandler.kt:110-114 | creating the player before `playStation` changes nothing about the result (`computeIfAbsent` is idempotent) |
| AudioHandling.AudioCommandEffect | src/main/kotlin/handlers/AudioHandler.kt:48-70 | per command: play needs a caller in voice and an "http" link, stop clears station and track, volume and 247 are rejected while nothing plays, nowplaying changes nothing, other names do nothing |
| AudioHandling.AudioHandler.constructor | src/main/kotlin/handlers/AudioHandler.kt:17-26 | a new handler has no players |
| AudioHandling.AudioHandler.GetOrCreateAudioManager | src/main/kotlin/handlers/AudioHandler.kt:110-114 | an existing player is returned unchanged with the map untouched; otherwise a new player is stored for the guild |
| AudioHandling.AudioHandler.AddAudioManager | src/main/kotlin/handlers/AudioHandler.kt:111-113 | a new default player is stored for the guild and nothing else changes |
| AudioHandling.AudioHandler.PlayStation | src/main/kotlin/handlers/AudioHandler.kt:73-88 | the players become AfterPlayStation of the old ones |
| AudioHandling.AudioHandler.PlayOnExisting | src/main/kotlin/handlers/AudioHandler.kt:83 | only the guild's player changes, by AfterPlay |
| AudioHandling.AudioHandler.StopAudio | src/main/kotlin/handlers/AudioHandler.kt:90-92 | stops the guild's player if it has one; an unknown guild changes nothing and gets no player |
| AudioHandling.AudioHandler.SetVolume | src/main/kotlin/handlers/AudioHandler.kt:94-96 | clamps and sets the guild's volume if it has a player; an unknown guild changes nothing and gets no player |
| AudioHandling.AudioHandler.GetCurrentStation | src/main/kotlin/handlers/AudioHandler.kt:98-100 | the player's station; null for an unknown guild |
| AudioHandling.AudioHandler.GetCurrentVolume | src/main/kotlin/handlers/AudioHandler.kt:102-104 | the player's volume; 5 for an unknown guild; always within [0, 100] |
| AudioHandling.AudioHandler.IsPlaying | src/main/kotlin/handlers/AudioHandler.kt:106-108 | true exactly when the guild has a player that holds a track and is not paused |
| AudioHandling.AudioHandler.HandleAudioCommand | src/main/kotlin/handlers/AudioHandler.kt:44-71 | outside a guild nothing changes; otherwise the guild's player (created if needed) and the reply are AudioCommandEffect and no other player changes |
| AudioHandling.AudioHandler.RunAudioCommand | src/main/kotlin/handlers/AudioHandler.kt:116-242 | on an existing player, the new player and the reply are AudioCommandEffect |
| StayCommand.Command247.constructor | src/main/kotlin/commands/Command247.kt:10-14 | the command shares the voice-channel manager's audio handler |
| StayCommand.Command247.Execute | src/main/kotlin/commands/Command247.kt:20-51 | no guild: nothing; nothing playing: refused with no flag change; otherwise the guild's flag becomes the negation of its old value, the reply names the new mode, and no other guild's flag changes; enabling cancels the guild's disconnect timer, no job is launched, and the guild's record is rewritten with the new flag when its channel and station are known, the station encodes and the database is reachable; a refused or guildless command leaves the table alone |
| VolumeCommands.VolumeCommand.constructor | src/main/kotlin/commands/VolumeCommand.kt:10-13 | the command uses the given audio handler |
| VolumeCommands.VolumeCommand.Execute | src/main/kotlin/commands/VolumeCommand.kt:20-42 | no guild or nothing playing: no player changes; otherwise the player's volume becomes the option (default 5) clamped to [0, 100] and the reply reports that same value |
| SearchHandling.TopCount | src/main/kotlin/handlers/SearchHandler.kt:63-64 | the count is always within [1, 50]; 20 when none is given; an in-range count is kept, and out-of-range ones go to the nearer bound |
| SearchHandling.QueryFor | src/main/kotlin/handlers/SearchHandler.kt:52-86 | a name outside the six search commands asks nothing; "top" asks for the clamped count; "search" asks by name with the 50-station limit |
| SearchHandling.FirstPageIsPageOne | src/main/kotlin/handlers/SearchHandler.kt:100-101 | the list a fresh search shows (`take(5)`) is the page-1 slice the page buttons show later; it is empty exactly when nothing was found; page 1 is a valid page then |
| SearchHandling.RandomIndex | src/main/kotlin/handlers/SearchHandler.kt:238-239 | a station is picked only from a non-empty list, at an index inside it |
| SearchHandling.SearchHandler.constructor | src/main/kotlin/handlers/SearchHandler.kt:23-25 | a new handler knows no user |
| SearchHandling.SearchHandler.GetUserSearchResults | src/main/kotlin/handlers/SearchHandler.kt:266-268 | the user's stored results; empty for an unknown user |
| SearchHandling.SearchHandler.GetUserCurrentPage | src/main/kotlin/handlers/SearchHandler.kt:270-272 | the user's stored page; 1 for an unknown user |
| SearchHandling.SearchHandler.GetUserSearchTerm | src/main/kotlin/handlers/SearchHandler.kt:274-276 | the user's stored term; "" for an unknown user |
| SearchHandling.SearchHandler.GetPaginationData | src/main/kotlin/handlers/SearchHandler.kt:282-288 | the three getters together; empty results, page 1 and "" for an unknown user |
| SearchHandling.SearchHandler.SetUserCurrentPage | src/main/kotlin/handlers/SearchHandler.kt:278-280 | the page is stored as given, unchecked, for that user only; results and terms untouched |
| SearchHandling.SearchHandler.CompleteSearch | src/main/kotlin/handlers/SearchHandler.kt:92-120 | an API answer is stored for the user with page 1 and the query's term, and its first page is shown; an API failure stores nothing |
| SearchHandling.SearchThenPagination | src/main/kotlin/handlers/SearchHandler.kt:96-98 | after a search the user reads back the answer, page 1 and the term, and no other user gains or loses an entry |
| Util.Clamp | src/main/kotlin/commands/VolumeCommand.kt:34 | `coerceIn` over a non-empty range: the result is in range, an in-range value is kept, and out-of-range values go to the nearer bound |
| Util.CoerceIn | src/main/kotlin/handlers/ButtonHandler.kt:193 | `coerceIn` for any bounds: an empty range throws (None); otherwise as Clamp |
| Util.TotalPagesIsCeiling | src/main/kotlin/handlers/SearchHandler.kt:100 | `(n + 4) / 5` is the ceiling of n / 5: the pages hold every item, none is empty, and there are none exactly when n = 0 |
| Util.PageSlice | src/main/kotlin/handlers/ButtonHandler.kt:222-224 | the slice exists exactly when its start is within the list; it holds the items from (p − 1)·5 on, five of them or as many as remain |
| Util.ValidPagesHaveSlices | src/main/kotlin/handlers/ButtonHandler.kt:222-224 | every page from 1 to the page count has a non-empty slice |
| Util.SubsetSize | src/main/kotlin/database/ReconnectionDatabase.kt:155-168 | a subset is no larger than its superset, and a proper subset is smaller |
| Util.RemovePrefix | src/main/kotlin/handlers/ButtonHandler.kt:59 | with the prefix present, prefix + result is the input; otherwise the input is kept |
| Util.TrimStart | src/main/kotlin/services/AdminService.kt:20 | a suffix of the input that does not start with whitespace |
| Util.TrimEnd | src/main/kotlin/services/AdminService.kt:20 | a prefix of the input that does not end with whitespace |
| Util.TrimmedBlankIsEmpty | src/main/kotlin/services/AdminService.kt:20-21 | a trimmed string is blank exactly when it is empty |
| Util.Split | src/main/kotlin/services/AdminService.kt:19 | at least one piece, and no piece holds the separator |
| Util.JoinSplit | src/main/kotlin/services/AdminService.kt:19 | splitting on a character and joining with it gives the original text back |
| Util.SplitJoin | src/main/kotlin/services/AdminService.kt:19 | joining pieces that do not hold the separator and splitting again gives the pieces back |
| Util.Take | src/main/kotlin/commands/StatusCommand.kt:78 | `take(n)`: a prefix of the list of length min(n, size) |
| Util.DigitsOfNatToString | src/main/kotlin/ui/UIBuilder.kt:106-113 | reading back the digits a number is printed with gives the number |
| Util.ParseInt | src/main/kotlin/handlers/SelectMenuHandler.kt:45 | `toInt` succeeds only with a value that fits a JVM Int |
| Util.ParseIntOfIntToString | src/main/kotlin/handlers/SelectMenuHandler.kt:45 | every Int printed with `toString` reads back unchanged with `toInt`, so each volume option's value parses to its volume |
| Buttons.PlayButtonRoute | src/main/kotlin/ui/UIBuilder.kt:77-84 | the play button of row k (from 0) is routed as a play of the one-based row number k + 1 |
| Buttons.DiffersAt | src/main/kotlin/handlers/ButtonHandler.kt:23-42 | an id differing from a prefix at some position is not routed by that prefix |
| Buttons.NoHandledPrefix | src/main/kotlin/handlers/ButtonHandler.kt:23-42 | an id whose first two characters rule out every handled prefix falls through to the exact-name branches |
| Buttons.NavButtonsAreHandled | src/main/kotlin/ui/UIBuilder.kt:66-75 | the five navigation buttons route to first, previous, page label, next and last, in that order |
| Buttons.NavIdsRoute | src/main/kotlin/handlers/ButtonHandler.kt:31-39 | the names first_page, prev_page, page_info, next_page and last_page reach their own branches |
| Buttons.UtilityAndPlayButtonsAreHandled | src/main/kotlin/ui/UIBuilder.kt:77-92 | stop, now-playing and refresh buttons reach their handlers, and every play button is routed as a play |
| Buttons.PlayIndex | src/main/kotlin/handlers/ButtonHandler.kt:58-66 | an index exists exactly when the suffix parses as an Int |
| Buttons.PlayTarget | src/main/kotlin/handlers/ButtonHandler.kt:65-69 | a station is picked exactly when the index parses and lies inside the results, and it is one of the results |
| Buttons.PlayButtonPlaysShownStation | src/main/kotlin/handlers/ButtonHandler.kt:58-69 | the play button of row k on a page picks exactly the station shown in row k of that page |
| Buttons.NavigationLandsOnAPage | src/main/kotlin/handlers/ButtonHandler.kt:187-213 | over a non-empty list every move lands on an existing, non-empty page (first on 1, last on the last, next and previous one page); over an empty list there is no page |
| Buttons.FindByUuid | src/main/kotlin/handlers/ButtonHandler.kt:250-251 | absent exactly when no result has that uuid; otherwise the first result with that uuid |
| Buttons.ButtonHandler.constructor | src/main/kotlin/handlers/ButtonHandler.kt:10-15 | keeps the search handler, audio handler and favorites service it is given |
| Buttons.ButtonHandler.HandlePlayButton | src/main/kotlin/handlers/ButtonHandler.kt:45-112 | not in voice, an unparsable suffix, an index outside the results or a failed connection leave the players unchanged with their own replies; otherwise the picked station plays on the guild's (possibly new) player |
| Buttons.ButtonHandler.HandleStopButton | src/main/kotlin/handlers/ButtonHandler.kt:114-146 | the guild's player, if any, is stopped and no other guild changes |
| Buttons.ButtonHandler.HandleNowPlayingButton | src/main/kotlin/handlers/ButtonHandler.kt:148-156 | a guild without a player shows "Not Active" at the default volume; otherwise a now-playing card exactly when the player plays a station |
| Buttons.ButtonHandler.HandleRefreshButton | src/main/kotlin/handlers/ButtonHandler.kt:158-185 | without results only acknowledged; a stored page outside the list is an error; otherwise that page of the results is shown again |
| Buttons.ButtonHandler.HandlePageNavigation | src/main/kotlin/handlers/ButtonHandler.kt:187-197 | the aimed page clamped to the existing pages is stored for the user alone and shown; over an empty list nothing is stored and the click fails |
| Buttons.ButtonHandler.HandleFavoriteButton | src/main/kotlin/handlers/ButtonHandler.kt:244-266 | only a uuid among the user's results is saved, keyed by user and uuid, and only while the database is reachable |
| Buttons.ButtonHandler.HandleUnfavoriteButton | src/main/kotlin/handlers/ButtonHandler.kt:268-289 | only a uuid among the user's results is removed, and only that user's row |
| Buttons.ButtonHandler.HandleButtonInteraction | src/main/kotlin/handlers/ButtonHandler.kt:18-43 | outside a guild or for an unknown id nothing changes; each routed click has exactly its handler's effect and reply: a play or favorite-play click plays the picked station (PlayClick), stop stops the guild's player, now-playing shows the card, refresh re-shows the page, navigation stores and shows the aimed page (NavigationClick), and the favorite buttons write or remove the found station's row; each changes only its own state |
| Buttons.ButtonHandler.HandleAudioButton | src/main/kotlin/handlers/ButtonHandler.kt:24-29 | the play, favorite-play, stop and now-playing routes have their handler's effect on the players and reply (PlayClick, StopClick, the status card) and leave the search state and the favorites as they are |
| Buttons.ButtonHandler.HandleListButton | src/main/kotlin/handlers/ButtonHandler.kt:26-41 | the list and favorite routes have their handler's effect and reply (RefreshClick, NavigationClick, FavoriteClick, UnfavoriteClick) and leave the players as they are; only navigation moves the page and only favorite buttons write favorites |
| SelectMenus.SelectMenuHandler.constructor | src/main/kotlin/handlers/SelectMenuHandler.kt:7-10 | keeps the audio handler it is given |
| SelectMenus.SelectMenuHandler.HandleSelectMenuInteraction | src/main/kotlin/handlers/SelectMenuHandler.kt:13-69 | outside a guild or for another menu nothing changes; no selected value, nothing playing or a non-Int value leave the players unchanged with their own replies; otherwise only the guild's player gets the clamped volume and the reply shows the parsed value |
| SelectMenus.MenuOptionsSetTheirVolume | src/main/kotlin/handlers/SelectMenuHandler.kt:45-46 | every option of the volume menu parses to the volume it shows and sets the player to exactly that volume |
| UI.NumbersFollowResults | src/main/kotlin/ui/UIBuilder.kt:32-33 | the number shown before a row is that station's one-based position in the whole result list |
| UI.DisplayNameShape | src/main/kotlin/ui/UIBuilder.kt:34 | a shown name has at most 33 characters; a name of up to 30 is shown whole, a longer one keeps its first 30 and ends with "..." |
| UI.InfoParts | src/main/kotlin/ui/UIBuilder.kt:36-48 | at most four parts, none of them empty |
| UI.JoinAppend | src/main/kotlin/ui/UIBuilder.kt:38 | appending a part to a joined list adds one separator before it, none when the list was empty |
| UI.JoinEmpty | src/main/kotlin/ui/UIBuilder.kt:50 | a join of non-empty parts is empty exactly when there are no parts |
| UI.AppendInfo | src/main/kotlin/ui/UIBuilder.kt:37-40 | one append step keeps the text equal to the join of the parts appended so far |
| UI.BuildInfo | src/main/kotlin/ui/UIBuilder.kt:35-49 | the built info line is the present parts (country, two tags, bitrate, votes) joined by " • " |
| UI.NoDetailsExactly | src/main/kotlin/ui/UIBuilder.kt:50 | "No details available" is shown exactly for a station with no country, no tags, no bitrate and no votes |
| UI.Footer | src/main/kotlin/ui/UIBuilder.kt:54-58 | one page shows only the footer text; more pages show "Page p of t • " with the current page and the page count, followed by the footer text |
| UI.CreateVolumeSelectMenu | src/main/kotlin/ui/UIBuilder.kt:101-116 | the "volume_select" menu has twenty options, for 5, 10, ..., 100 in that order |
| UI.VolumeOptionsParse | src/main/kotlin/ui/UIBuilder.kt:112 | every option's value reads back as the volume its label shows, within 0..100 |
| UI.CreatePaginationButtons | src/main/kotlin/ui/UIBuilder.kt:63-99 | the navigation row only with more than one page, and the play, utility and volume rows only with stations, in that order; the volume row offers 5 %, 10 %, …, 100 % in order |
| UI.NavigationFlags | src/main/kotlin/ui/UIBuilder.kt:66-75 | first and previous are disabled exactly on page 1, next and last exactly on the last page, the page label always |
| UI.AudioStatus | src/main/kotlin/ui/UIBuilder.kt:136-161 | the now-playing card exactly while playing with a known station, showing its name and non-empty country and genre; the volume is shown either way |
| FavoriteStore.UserKeys | src/main/kotlin/database/FavoriteDatabase.kt:138 | exactly the station uuids the user has a row for |
| FavoriteStore.NewestExists | src/main/kotlin/database/FavoriteDatabase.kt:138 | among any non-empty set of the user's stations one has the latest creation time, so `ORDER BY created_at DESC` has a first row |
| FavoriteStore.JustAddedComesFirst | src/main/kotlin/database/FavoriteDatabase.kt:67-78 | a station added later than every other favorite of its user is listed first |
| FavoriteStore.EntriesOf | src/main/kotlin/database/FavoriteDatabase.kt:168-169 | the rows a listing names, one per key, in the listing's order |
| FavoriteStore.NonEmptyData | src/main/kotlin/database/FavoriteDatabase.kt:170-172 | never longer than the rows read |
| FavoriteStore.NonEmptyDataExact | src/main/kotlin/database/FavoriteDatabase.kt:168-172 | no empty station data survives and every non-empty one does |
| FavoriteStore.ListingStep | src/main/kotlin/database/FavoriteDatabase.kt:146-148 | reading the newest remaining row next keeps the listing newest first, each station once |
| FavoriteStore.ListingDone | src/main/kotlin/database/FavoriteDatabase.kt:146-152 | an exhausted cursor has listed all of the user's stations, newest first, each once |
| FavoriteStore.FavoriteDatabase.constructor | src/main/kotlin/database/FavoriteDatabase.kt:38-47 | opens the table keyed by (user_id, station_uuid) over the rows already in the file |
| FavoriteStore.FavoriteDatabase.AddFavorite | src/main/kotlin/database/FavoriteDatabase.kt:67-83 | insert-or-replace stamped with the given time, so re-adding replaces data and time and still succeeds; false and no change when the database fails |
| FavoriteStore.FavoriteDatabase.GetFavoriteStationData | src/main/kotlin/database/FavoriteDatabase.kt:85-101 | the stored data exactly when the row exists and the database works, null otherwise |
| FavoriteStore.FavoriteDatabase.RemoveFavorite | src/main/kotlin/database/FavoriteDatabase.kt:103-117 | true exactly when the row existed; afterwards that row alone is gone |
| FavoriteStore.FavoriteDatabase.IsFavorite | src/main/kotlin/database/FavoriteDatabase.kt:119-135 | true exactly when the row exists and the database works |
| FavoriteStore.FavoriteDatabase.NewestFirstListing | src/main/kotlin/database/FavoriteDatabase.kt:138-148 | the cursor lists each of the user's stations once, newest first |
| FavoriteStore.FavoriteDatabase.GetFavorites | src/main/kotlin/database/FavoriteDatabase.kt:137-157 | the user's station uuids newest first, each once; empty when the database fails |
| FavoriteStore.FavoriteDatabase.GetFavoriteStationsData | src/main/kotlin/database/FavoriteDatabase.kt:159-182 | the user's non-empty station data, newest first; empty when the database fails |
| Favorites.DecodeStations | src/main/kotlin/services/FavoriteService.kt:69-76 | never more stations than stored entries |
| Favorites.DecodeStationsAppend | src/main/kotlin/services/FavoriteService.kt:69-76 | decoding keeps the stored order: the decode of a concatenation is the concatenation of the decodes |
| Favorites.SingleDecode | src/main/kotlin/services/FavoriteService.kt:70-75 | one entry yields its decoded station, or nothing when decoding fails |
| Favorites.FavoriteService.constructor | src/main/kotlin/services/FavoriteService.kt:9-14 | keeps the database and the station JSON codec |
| Favorites.FavoriteService.AddFavorite | src/main/kotlin/services/FavoriteService.kt:17-37 | an empty uuid or a station that fails to encode returns false and leaves the table alone; otherwise the encoded station is upserted under (user, uuid) and the database's answer returned |
| Favorites.FavoriteService.RemoveFavorite | src/main/kotlin/services/FavoriteService.kt:40-51 | an empty uuid returns false and leaves the table alone; otherwise that row alone is removed, true exactly when it existed |
| Favorites.FavoriteService.IsFavorite | src/main/kotlin/services/FavoriteService.kt:54-59 | true exactly for a non-empty uuid with a row while the database works |
| Favorites.FavoriteService.GetFavorites | src/main/kotlin/services/FavoriteService.kt:62-64 | the user's uuids newest first, each once; empty when the database fails |
| Favorites.FavoriteService.GetFavoriteStations | src/main/kotlin/services/FavoriteService.kt:67-77 | the user's stored stations newest first, with empty and undecodable entries dropped |
| Favorites.FavoriteService.ToggleFavorite | src/main/kotlin/services/FavoriteService.kt:80-88 | as written: the result is the negation of the earlier favorite state; a favorite is removed; a non-favorite with a uuid is stored with its encoded station and time when it encodes and the database is reachable, the table otherwise unchanged; for an empty uuid it reports true although nothing is stored |
| Favorites.FavoriteService.ToggleFavoriteCorrected | src/main/kotlin/services/FavoriteService.kt:80-88 | the result is exactly whether the station is a favorite afterwards, a favorite is always removed, and no other row changes |
| Admin.TrimAll | src/main/kotlin/services/AdminService.kt:19 | one trimmed piece per piece, in order |
| Admin.NonBlank | src/main/kotlin/services/AdminService.kt:20 | never longer than its input; keeps exactly the non-blank pieces |
| Admin.TrimmedIdsHas | src/main/kotlin/services/AdminService.kt:18-20 | an id survives trimming and filtering exactly when it is non-blank and the trim of some piece |
| Admin.ParseIds | src/main/kotlin/services/AdminService.kt:10-30 | an unset or blank variable gives no ids |
| Admin.ParseIdsExact | src/main/kotlin/services/AdminService.kt:18-21 | for a non-blank variable, an id is loaded exactly when it is non-blank and the trim of some comma-separated piece |
| Admin.ParseJoinedIds | src/main/kotlin/services/AdminService.kt:18-21 | clean ids written comma-separated load back as exactly their set |
| Admin.AdminService.constructor | src/main/kotlin/services/AdminService.kt:7-8 | the admin users and admin guilds are the ids parsed from ADMIN_USER_IDS and ADMIN_GUILD_IDS |
| Admin.AdminService.IsAdmin | src/main/kotlin/services/AdminService.kt:54-68 | nobody is an admin while none is configured; otherwise exactly the configured users |
| Admin.AdminService.IsAdminGuild | src/main/kotlin/services/AdminService.kt:74-88 | no guild is an admin guild while none is configured; otherwise exactly the configured guilds |
| Admin.AdminService.GetAdminCount | src/main/kotlin/services/AdminService.kt:70-72 | zero exactly when nobody is an admin |
| Admin.AdminService.AdminCountZeroIffNoAdmin | src/main/kotlin/services/AdminService.kt:54-72 | the admin set is empty exactly when no user passes `isAdmin` |
| StatusCommands.DurationPartsRecompose | src/main/kotlin/commands/StatusCommand.kt:177-180 | hours, minutes and seconds are in range, and days, hours, minutes and seconds add back up to the whole duration |
| StatusCommands.DropLeadingZeros | src/main/kotlin/commands/StatusCommand.kt:182-187 | a suffix of the components, never empty when they are not |
| StatusCommands.DropLeadingZerosKeepsTotal | src/main/kotlin/commands/StatusCommand.kt:182-187 | leaving out leading zero components does not change the seconds they stand for |
| StatusCommands.Render | src/main/kotlin/commands/StatusCommand.kt:183-186 | one written piece per component |
| StatusCommands.ComponentsTotal | src/main/kotlin/commands/StatusCommand.kt:177-180 | the four components of a duration stand for exactly that many seconds |
| StatusCommands.JoinDays | src/main/kotlin/commands/StatusCommand.kt:183 | the days form is its four pieces joined by spaces |
| StatusCommands.JoinHours | src/main/kotlin/commands/StatusCommand.kt:184 | the hours form is its three pieces joined by spaces |
| StatusCommands.JoinMinutes | src/main/kotlin/commands/StatusCommand.kt:185 | the minutes form is its two pieces joined by a space |
| StatusCommands.RenderComponents | src/main/kotlin/commands/StatusCommand.kt:183-186 | the pieces written for the last one, two, three and four components |
| StatusCommands.FormatDurationShowsComponents | src/main/kotlin/commands/StatusCommand.kt:176-188 | the text shows the components from the first non-zero unit down to the seconds, which always appear, and the shown components add up to the whole duration |
| StatusCommands.CountPlaying | src/main/kotlin/commands/StatusCommand.kt:69 | the number of players that are playing (the size of the set of their positions); zero exactly when none plays, all exactly when every one plays |
| StatusCommands.PlayerStatus | src/main/kotlin/commands/StatusCommand.kt:62-104 | as written: the totals are the player count and the number of players playing, the first ten players are listed in order (a short list whole), and the footer is the version footer whatever the list's length |
| StatusCommands.MoreNoticeIsOverwritten | src/main/kotlin/commands/StatusCommand.kt:88-102 | with eleven players or more the reply's footer never says how many players were left off the list |
| StatusCommands.PlayerStatusCorrected | src/main/kotlin/commands/StatusCommand.kt:62-104 | as PlayerStatus, with the same playing count, but a list longer than ten keeps the "Showing N more..." footer with N the players left off |
| StatusCommands.CorrectedNoticeCountsHidden | src/main/kotlin/commands/StatusCommand.kt:88-90 | the number in the corrected notice plus the listed players is exactly the number of players |
| StatusCommands.StatusCommand.constructor | src/main/kotlin/commands/StatusCommand.kt:17-24 | keeps the admin service and gateway and records the start time |
| StatusCommands.StatusCommand.Execute | src/main/kotlin/commands/StatusCommand.kt:35-60 | a non-admin only gets the permission error; an admin gets the invalid-subcommand error exactly for a name other than player, guild or system; player sends the report as written (PlayerStatus, with the version footer); guild reports the guild count or that the gateway is missing; system reports the formatted uptime and the admin count |
| Commands.Position | src/main/kotlin/commands/CommandManager.kt:34-52 | every command has a declaration position, and the command declared there is that command |
| Commands.CommandAtInjective | src/main/kotlin/commands/CommandManager.kt:34-52 | two positions hold the same command exactly when they are the same position |
| Commands.DeclaredFrom | src/main/kotlin/commands/CommandManager.kt:31-54 | the commands from a position on, in declaration order, one per position |
| Commands.Names | src/main/kotlin/commands/CommandManager.kt:34-52 | one key per command, each the name that command registers |
| Commands.SlashNameInjective | src/main/kotlin/commands/CommandManager.kt:34-52 | two commands register the same name exactly when they are the same command |
| Commands.RegistryComplete | src/main/kotlin/commands/CommandManager.kt:31-54 | every command kind is in the table |
| Commands.CommandTableSize | src/main/kotlin/commands/CommandManager.kt:32-53 | the table has thirteen keys and no key twice |
| Commands.FilterByKey | src/main/kotlin/commands/CommandManager.kt:58 | keeps exactly the commands whose key matches or misses "status", as asked, and never grows |
| Commands.FilterByKeySplits | src/main/kotlin/commands/CommandManager.kt:56-64 | every command passes exactly one of the two key filters |
| Commands.GetAllCommands | src/main/kotlin/commands/CommandManager.kt:56-59 | exactly the commands other than status |
| Commands.GetAdminCommands | src/main/kotlin/commands/CommandManager.kt:61-64 | exactly the status command |
| Commands.RegistryHasEveryCommand | src/main/kotlin/commands/CommandManager.kt:34-52 | every command is in the table and only status has the admin key |
| Commands.CommandListsPartition | src/main/kotlin/commands/CommandManager.kt:56-64 | the global and admin lists are disjoint and together make up the whole table |
| Commands.CommandFor | src/main/kotlin/commands/CommandManager.kt:68 | a command found under a name registers that name; nothing is found exactly when the name is not a key |
| Commands.CommandForAt | src/main/kotlin/commands/CommandManager.kt:68 | the lookup in a list finds a member of the list with that name, and nothing exactly when no member has it |
| Commands.CommandForSlashName | src/main/kotlin/commands/CommandManager.kt:68 | looking up the name a command registers finds that command |
| Commands.UnknownNameIsNoCommand | src/main/kotlin/commands/CommandManager.kt:77-79 | a name missing from the table is no command's name |
| Commands.ExecuteCommand | src/main/kotlin/commands/CommandManager.kt:66-80 | an unknown command is reported exactly when no command registers the name; otherwise the command registering that name runs |
| Registration.CommandRegistrar.constructor | src/main/kotlin/bot/CommandRegistrar.kt:8-13 | starts unregistered with nothing sent and the admin commands of the table |
| Registration.CommandRegistrar.AdminTargets | src/main/kotlin/bot/CommandRegistrar.kt:57-59 | only guilds the bot is in, and none while no admin guild is configured |
| Registration.CommandRegistrar.RegisterCommands | src/main/kotlin/bot/CommandRegistrar.kt:15-46 | once registered nothing is sent; otherwise one global request; a failure leaves the flag false for a retry; success goes on to the admin guilds or, with no admin commands, sets the flag |
| Registration.CommandRegistrar.RegisterAdminCommands | src/main/kotlin/bot/CommandRegistrar.kt:48-89 | with no admin guild configured or none of them joined the flag is set and nothing is sent; otherwise each target guild gets one request and a batch waits for that many answers |
| Registration.CommandRegistrar.AdminCallback | src/main/kotlin/bot/CommandRegistrar.kt:72-86 | success or failure, one answer raises its batch's counter; the flag becomes set exactly when some batch has all its answers |
| Registration.CommandRegistrar.RegisterAdminCommandsForGuild | src/main/kotlin/bot/CommandRegistrar.kt:91-106 | a joined guild gets one request exactly when it is an admin guild and there are admin commands; the flag is untouched |
| Registration.AdminCommandsPresent | src/main/kotlin/bot/CommandRegistrar.kt:36-40 | the admin list is never empty, so a successful global registration always goes on to the admin guilds |

## Left out

- JDA: guild, channel and member lookups, `openAudioConnection` and `closeAudioConnection` are inputs or a `Gateway` value. Closing the connection is a returned flag.
- lavaplayer: a track load is a `LoadOutcome` parameter. The send handler, scheduler and load-result callbacks are not part of this model.
- HTTP (`RadioBrowserAPI`, webhooks, heartbeat): search results come in as a list.
- Coroutines run one step at a time. Races are not modelled, such as a timer's `finally` removing the entry of a newer timer.
- SQLite and JDBC: a missing connection and any `SQLException` are the `connected`/`online` flag. Failing calls return their failure value and change nothing. Schema creation and the station_data migration are left out.
- The order in which SQLite returns rows from `loadAllStates`, and the order of rows with equal `created_at`, is arbitrary. The model fixes no order beyond what the query's `ORDER BY` promises.
- JSON encoding of stations is an opaque pair of partial functions (`Codec`).
- `System.currentTimeMillis()`, `Instant.now()` and `Random` are parameters (the clock, and a roll for the random pick).
- `Version.FOOTER_TEXT` is a parameter.
- Embeds, colours, ephemeral flags and emoji rendering are left out. Only the strings, numbers and flags a reply carries are modelled.
- `StatusCommand`: the average volume (floating point), JVM uptime, memory, Java version, guild member counts and top-guild listing are left out. The player list comes from the audio handler as an input.
- Strings are sequences of Unicode scalar values, where Kotlin strings are sequences of UTF-16 code units; whitespace for `trim`/`isBlank` is the ASCII set.
- UI.DisplayNameShape: the 30-character limit counts Unicode scalar values, not UTF-16 code units as Kotlin's `length`/`take(30)` do. A name with characters outside the Basic Multilingual Plane (emoji) is therefore cut later in the model than in the bot, and the bot's cut can split a surrogate pair, which the model cannot represent.
- Durations are natural numbers of seconds.
- StatusCommands.StatusCommand.Execute: requires `now >= startTime`; `Instant.now()` is the wall clock and can step back, and the negative uptime `formatDuration` would then print is not modelled.
- Util.ParseInt: accepts ASCII digits only; Kotlin's `toInt` also accepts the other Unicode decimal digits (through `Character.digit`). The ids and menu values the bot parses are ones it printed itself, in ASCII.
- The favorites page re-render (`updateFavoritesPaginationMessage`) is left out. The favorite navigation buttons store their page in the same per-user page map as the search buttons, so the model handles both with the same navigation.
- `createStationInfoEmbed`, `createHelpEmbed` and the error/success embeds are left out; they are fixed text.
- `CommandManager.executeCommand` rethrows a command's exception. The model only records which command runs.
- `CleanupScheduler.runCleanupNow` catches an exception from the sweep and returns 0. In the model the sweep cannot throw, so that path is left out.
- The wrapper commands (search, top, country, genre, random, play, stop, now playing, favorites, help, vote, feedback) are left out, and so are wiring, lifecycle and `Version.kt`. Their logic is the search, play and pagination code modelled here.
- Several shown files come from different revisions and disagree on signatures. Each file is modelled as it stands.
- Buttons.PlayIndex: computed with unbounded integers, while Kotlin's `Int` arithmetic would wrap for page numbers near 2^31. Navigation only ever stores pages between 1 and the page count.
- Cleanup.CleanupScheduler.StartPeriodicCleanup: `intervalHours * 3600_000` is computed without `Long` overflow.
- VolumeCommands.VolumeCommand.Execute: the integer option is taken as an unbounded `int`; JDA's `asInt` narrowing of a `Long` option value to a 32-bit `Int` is not modelled. The same holds for the option values read by AudioHandling.RequestedVolume and SearchHandling.TopCount.

## Findings

| source | as written | input that shows it | evidently intended | confidence | as-written member | corrected member |
|---|---|---|---|---|---|---|
| src/main/kotlin/bot/RadioBot.kt:277-288 | `isAudioCommand` lists play, stop, volume and nowplaying only, so "247" falls to the unknown-command branch | the slash command "247", which `registerCommands` sends to Discord through the audio handler's list | every registered command reaches the handler that registered it | high (not executed) | Bot.StayCommandIsUnrouted | Bot.CorrectedRoutingReachesHandlers |
| src/main/kotlin/services/FavoriteService.kt:80-88 | `toggleFavorite` returns true after `addFavorite` whatever the add returned | a station with an empty uuid: `addFavorite` refuses it, yet the toggle reports it as now a favorite | the result says whether the station is a favorite afterwards | high (not executed) | Favorites.FavoriteService.ToggleFavorite | Favorites.FavoriteService.ToggleFavoriteCorrected |
| src/main/kotlin/commands/StatusCommand.kt:88-102 | the "Showing N more..." footer set for more than ten players is overwritten by the version footer at line 102 | eleven active players | the footer tells how many players the list leaves out | high (not executed) | StatusCommands.MoreNoticeIsOverwritten | StatusCommands.CorrectedNoticeCountsHidden |
