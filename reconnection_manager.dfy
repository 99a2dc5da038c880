/**
 * `ReconnectionManager`: at startup, every stored reconnection record is
 * replayed in the order the service lists it. A record whose guild, channel
 * or access is gone, or whose connection cannot be opened, is deleted; the
 * others get their station played again and, when their flag is set, their
 * 24/7 mode switched back on.
 */
module Reconnection {
  import opened Util
  import opened Stations
  import opened Discord
  import opened Audio
  import opened AudioHandling
  import opened ReconnectionStore
  import opened ReconnectionServices
  import opened VoiceChannels
  import opened DisconnectTimers

  /** The pause after each replayed record, against Discord's rate limits. */
  const PACING_MS: int := 500

  /** A record whose three checks pass and whose connection opens gets played again. */
  predicate Replayable(gw: Gateway, s: SavedSession)
  {
    CheckRecord(gw, s.guildId, s.channelId) == Valid && s.guildId !in gw.refusesConnection
  }

  /** No two records of the list are for the same guild. */
  predicate DistinctGuilds(states: seq<SavedSession>)
  {
    forall i, j :: 0 <= i < j < |states| ==> states[i].guildId != states[j].guildId
  }

  /** A guild no record of the list is for. */
  predicate Untouched(states: seq<SavedSession>, g: string)
  {
    forall i :: 0 <= i < |states| ==> states[i].guildId != g
  }

  /** The players after replaying `states` in order. */
  ghost function ReplaySessions(sessions: map<string, Session>, gw: Gateway, states: seq<SavedSession>,
                                outcomeOf: string -> LoadOutcome): map<string, Session>
    decreases |states|
  {
    if states == [] then sessions
    else
      var acc := ReplaySessions(sessions, gw, states[..|states| - 1], outcomeOf);
      var s := states[|states| - 1];
      if Replayable(gw, s) then AfterPlayStation(acc, s.guildId, s.station, outcomeOf(s.guildId)) else acc
  }

  /** The 24/7 flags after replaying `states` in order: a replayed record with its flag set switches the mode on. */
  function ReplayFlags(flags: map<string, bool>, gw: Gateway, states: seq<SavedSession>): map<string, bool>
    decreases |states|
  {
    if states == [] then flags
    else
      var acc := ReplayFlags(flags, gw, states[..|states| - 1]);
      var s := states[|states| - 1];
      if Replayable(gw, s) && s.mode247Enabled then acc[s.guildId := true] else acc
  }

  /** The disconnect timers after replaying `states` in order: switching the mode on cancels the guild's pending job. */
  function ReplayTimers(timers: map<string, nat>, gw: Gateway, states: seq<SavedSession>): map<string, nat>
    decreases |states|
  {
    if states == [] then timers
    else
      var acc := ReplayTimers(timers, gw, states[..|states| - 1]);
      var s := states[|states| - 1];
      if Replayable(gw, s) && s.mode247Enabled then Cancel(acc, s.guildId) else acc
  }

  /**
   * A guild that has no replayable record in the list keeps its player
   * exactly as it was: failed records never reach the audio side.
   */
  lemma {:induction false} ReplayLeavesOthers(sessions: map<string, Session>, gw: Gateway, states: seq<SavedSession>,
                                              outcomeOf: string -> LoadOutcome, g: string)
    requires forall i :: 0 <= i < |states| && states[i].guildId == g ==> !Replayable(gw, states[i])
    ensures var r := ReplaySessions(sessions, gw, states, outcomeOf);
      (g in r <==> g in sessions) && (g in r ==> r[g] == sessions[g])
    decreases |states|
  {
    if states != [] {
      var init := states[..|states| - 1];
      forall i | 0 <= i < |init| && init[i].guildId == g
        ensures !Replayable(gw, init[i])
      {
        assert init[i] == states[i];
      }
      ReplayLeavesOthers(sessions, gw, init, outcomeOf, g);
    }
  }

  /**
   * Each replayable record ends with a player for its guild, and a station
   * with a stream link is the one that player holds.
   */
  lemma {:induction false} ReplayPlaysEachReplayable(sessions: map<string, Session>, gw: Gateway, states: seq<SavedSession>,
                                                     outcomeOf: string -> LoadOutcome, i: int)
    requires DistinctGuilds(states) && 0 <= i < |states| && Replayable(gw, states[i])
    ensures var r := ReplaySessions(sessions, gw, states, outcomeOf);
      states[i].guildId in r &&
      (StreamUrl(states[i].station) != "" ==> r[states[i].guildId].station == Some(states[i].station))
    decreases |states|
  {
    var init := states[..|states| - 1];
    if i < |states| - 1 {
      assert init[i] == states[i];
      ReplayPlaysEachReplayable(sessions, gw, init, outcomeOf, i);
    }
  }

  /**
   * The mode is switched on exactly for the guilds of replayed records whose
   * flag is set; every other guild keeps its flag, and nothing is switched off.
   */
  lemma {:induction false} ReplayFlagsExact(flags: map<string, bool>, gw: Gateway, states: seq<SavedSession>, g: string)
    ensures var r := ReplayFlags(flags, gw, states);
      && (g in r <==> g in flags || exists i :: 0 <= i < |states| && states[i].guildId == g && Replayable(gw, states[i]) && states[i].mode247Enabled)
      && ((exists i :: 0 <= i < |states| && states[i].guildId == g && Replayable(gw, states[i]) && states[i].mode247Enabled) ==> r[g])
      && ((forall i :: 0 <= i < |states| && states[i].guildId == g ==> !(Replayable(gw, states[i]) && states[i].mode247Enabled)) ==>
            g in flags ==> r[g] == flags[g])
    decreases |states|
  {
    if states != [] {
      var init := states[..|states| - 1];
      ReplayFlagsExact(flags, gw, init, g);
      forall i | 0 <= i < |init|
        ensures init[i] == states[i]
      {
      }
    }
  }

  /**
   * After the replay a guild has a pending disconnect job exactly when it had
   * one before and no replayed record of the list switched its mode on; a job
   * that survives is the one it had.
   */
  lemma {:induction false} ReplayTimersExact(timers: map<string, nat>, gw: Gateway, states: seq<SavedSession>, g: string)
    ensures var r := ReplayTimers(timers, gw, states);
      && (g in r <==> g in timers && forall i :: 0 <= i < |states| && states[i].guildId == g ==> !(Replayable(gw, states[i]) && states[i].mode247Enabled))
      && (g in r ==> r[g] == timers[g])
    decreases |states|
  {
    if states != [] {
      var init := states[..|states| - 1];
      ReplayTimersExact(timers, gw, init, g);
      forall i | 0 <= i < |init|
        ensures init[i] == states[i]
      {
      }
    }
  }

  /** Dropping the records that do not decode keeps the guilds of a listing distinct. */
  lemma {:induction false} DecodeAllKeepsGuildsDistinct(codec: Codec, xs: seq<ReconnectionState>)
    requires forall i, j :: 0 <= i < j < |xs| ==> xs[i].guildId != xs[j].guildId
    ensures DistinctGuilds(DecodeAll(codec, xs))
    ensures forall i :: 0 <= i < |DecodeAll(codec, xs)| ==> exists k :: 0 <= k < |xs| && xs[k].guildId == DecodeAll(codec, xs)[i].guildId
    decreases |xs|
  {
    if xs != [] {
      var init := xs[..|xs| - 1];
      var last := xs[|xs| - 1];
      DecodeAllKeepsGuildsDistinct(codec, init);
      var d := DecodeAll(codec, init);
      forall i | 0 <= i < |d|
        ensures d[i].guildId != last.guildId
        ensures exists k :: 0 <= k < |xs| && xs[k].guildId == d[i].guildId
      {
        var k :| 0 <= k < |init| && init[k].guildId == d[i].guildId;
        assert xs[k] == init[k];
      }
      var r := DecodeAll(codec, xs);
      if Decoded(codec, last).Some? {
        assert r == d + [Decoded(codec, last).value];
        assert r[|r| - 1].guildId == xs[|xs| - 1].guildId;
      } else {
        assert r == d;
      }
    }
  }

  /** Between `before` and `after` only guild g's record may have changed, and no record was added for another guild. */
  ghost predicate OnlyRecordChanged(before: map<string, Row>, after: map<string, Row>, g: string)
  {
    && after.Keys <= before.Keys + {g}
    && forall h :: h != g && h in before ==> h in after && after[h] == before[h]
  }

  /**
   * The table after the first n records of `states` were replayed from
   * `rows0`: each failed record is gone (when the database works), a
   * replayed record without the flag is as it was, a replayed record with
   * the flag is kept (it is only ever rewritten), and the records of guilds
   * not yet reached are as they were.
   */
  ghost predicate RowsReplayed(states: seq<SavedSession>, n: int, gw: Gateway, connected: bool,
                               rows0: map<string, Row>, rows: map<string, Row>)
    requires 0 <= n <= |states|
  {
    && (connected ==> forall k :: 0 <= k < n && !Replayable(gw, states[k]) ==> states[k].guildId !in rows)
    && (forall k :: 0 <= k < n && Replayable(gw, states[k]) && !states[k].mode247Enabled ==>
          (states[k].guildId in rows <==> states[k].guildId in rows0)
          && (states[k].guildId in rows ==> rows[states[k].guildId] == rows0[states[k].guildId]))
    && (forall k :: 0 <= k < n && Replayable(gw, states[k]) && states[k].mode247Enabled && states[k].guildId in rows0 ==>
          states[k].guildId in rows)
    && (forall g :: (forall k :: 0 <= k < n ==> states[k].guildId != g) ==>
          (g in rows <==> g in rows0) && (g in rows ==> rows[g] == rows0[g]))
  }

  /** One replayed record keeps the table facts `reconnect` promises about the records replayed so far. */
  lemma RowsStep(decoded: seq<SavedSession>, i: int, gw: Gateway, connected: bool,
                 rows0: map<string, Row>, before: map<string, Row>, after: map<string, Row>)
    requires 0 <= i < |decoded| && DistinctGuilds(decoded)
    requires RowsReplayed(decoded, i, gw, connected, rows0, before)
    requires OnlyRecordChanged(before, after, decoded[i].guildId)
    requires connected && !Replayable(gw, decoded[i]) ==> decoded[i].guildId !in after
    requires Replayable(gw, decoded[i]) && !decoded[i].mode247Enabled ==> after == before
    requires Replayable(gw, decoded[i]) && decoded[i].mode247Enabled && decoded[i].guildId in before ==> decoded[i].guildId in after
    ensures RowsReplayed(decoded, i + 1, gw, connected, rows0, after)
  {
  }

  class ReconnectionManager {
    const service: ReconnectionService
    const audioHandler: AudioHandler
    const voiceChannelManager: VoiceChannelManager
    const jda: Gateway

    /** The manager, the voice-channel manager and the audio handler share one service and one player registry. */
    ghost predicate Valid()
      reads voiceChannelManager, audioHandler, audioHandler.Repr
    {
      && voiceChannelManager.audioHandler == audioHandler
      && voiceChannelManager.reconnectionService == service
      && voiceChannelManager.Valid()
    }

    constructor (service: ReconnectionService, audioHandler: AudioHandler, voiceChannelManager: VoiceChannelManager, jda: Gateway)
      requires voiceChannelManager.audioHandler == audioHandler && voiceChannelManager.reconnectionService == service
      requires voiceChannelManager.Valid()
      ensures Valid()
      ensures this.service == service && this.audioHandler == audioHandler
      ensures this.voiceChannelManager == voiceChannelManager && this.jda == jda
    {
      this.service := service;
      this.audioHandler := audioHandler;
      this.voiceChannelManager := voiceChannelManager;
      this.jda := jda;
    }

    /** A record that fails is deleted, before any audio call. */
    method DropRecord(g: string)
      requires Valid()
      modifies service.database
      ensures Valid()
      ensures service.database.rows == if service.database.connected then old(service.database.rows) - {g} else old(service.database.rows)
    {
      var _ := service.DeleteState(g);
    }

    /** A record that passes gets its station played and, when its flag is set, its 24/7 mode switched on. */
    method RestoreRecord(s: SavedSession, outcome: LoadOutcome, now: int)
      requires Valid()
      modifies service.database, audioHandler.Repr, voiceChannelManager
      ensures Valid() && fresh(audioHandler.Repr - old(audioHandler.Repr))
      ensures voiceChannelManager.jda == old(voiceChannelManager.jda)
      ensures audioHandler.Sessions() == AfterPlayStation(old(audioHandler.Sessions()), s.guildId, s.station, outcome)
      ensures voiceChannelManager.mode247Enabled ==
        if s.mode247Enabled then old(voiceChannelManager.mode247Enabled)[s.guildId := true] else old(voiceChannelManager.mode247Enabled)
      ensures s.mode247Enabled ==> service.database.rows.Keys <= old(service.database.rows.Keys) + {s.guildId}
      ensures forall h :: h != s.guildId && h in old(service.database.rows) ==>
        h in service.database.rows && service.database.rows[h] == old(service.database.rows)[h]
      ensures !s.mode247Enabled ==> service.database.rows == old(service.database.rows)
      ensures voiceChannelManager.nextJob == old(voiceChannelManager.nextJob)
      ensures voiceChannelManager.disconnectTimers ==
        if s.mode247Enabled then Cancel(old(voiceChannelManager.disconnectTimers), s.guildId) else old(voiceChannelManager.disconnectTimers)
      ensures s.mode247Enabled ==>
        var target := PersistTarget(voiceChannelManager.jda, audioHandler.GetCurrentStation(s.guildId), s.guildId);
        service.database.rows == PersistedRows(old(service.database.rows), target, service.codec, service.database.connected, s.guildId, true, now)
    {
      assert voiceChannelManager !in audioHandler.Repr && service.database !in audioHandler.Repr;
      PlayRecord(s, outcome);
      if s.mode247Enabled {
        RestoreMode(s.guildId, now);
      }
    }

    /** The 24/7 half of a restore: `set247Mode(g, true)`, which leaves the players alone and rewrites only g's record. */
    method RestoreMode(g: string, now: int)
      requires Valid()
      modifies service.database, voiceChannelManager
      ensures Valid() && audioHandler.Repr == old(audioHandler.Repr)
      ensures audioHandler.Sessions() == old(audioHandler.Sessions())
      ensures voiceChannelManager.jda == old(voiceChannelManager.jda)
      ensures voiceChannelManager.mode247Enabled == old(voiceChannelManager.mode247Enabled)[g := true]
      ensures service.database.rows.Keys <= old(service.database.rows.Keys) + {g}
      ensures forall h :: h != g && h in old(service.database.rows) ==>
        h in service.database.rows && service.database.rows[h] == old(service.database.rows)[h]
      ensures voiceChannelManager.disconnectTimers == Cancel(old(voiceChannelManager.disconnectTimers), g)
      ensures voiceChannelManager.nextJob == old(voiceChannelManager.nextJob)
      ensures var target := PersistTarget(voiceChannelManager.jda, audioHandler.GetCurrentStation(g), g);
        service.database.rows == PersistedRows(old(service.database.rows), target, service.codec, service.database.connected, g, true, now)
    {
      assert voiceChannelManager !in audioHandler.Repr && service.database !in audioHandler.Repr;
      voiceChannelManager.Set247Mode(g, true, now);
    }

    /** The audio half of a restore: the guild's player is created if needed and the station played. */
    method PlayRecord(s: SavedSession, outcome: LoadOutcome)
      requires Valid()
      modifies audioHandler.Repr
      ensures Valid() && fresh(audioHandler.Repr - old(audioHandler.Repr))
      ensures audioHandler.Sessions() == AfterPlayStation(old(audioHandler.Sessions()), s.guildId, s.station, outcome)
    {
      assert voiceChannelManager !in audioHandler.Repr;
      ghost var before := audioHandler.Sessions();
      var _ := audioHandler.GetOrCreateAudioManager(s.guildId);
      assert voiceChannelManager !in audioHandler.Repr;
      audioHandler.PlayStation(s.guildId, s.station, outcome);
      CreateThenPlay(before, s.guildId, s.station, outcome);
    }

    /**
     * `reconnectGuild` for one record: a failed check or a refused connection
     * deletes the record before any audio call; otherwise the record's station
     * is played and, when its flag is set, the 24/7 mode switched on (which
     * rewrites the record through the voice-channel manager).
     */
    method ReconnectGuild(s: SavedSession, outcome: LoadOutcome, now: int)
      requires Valid()
      modifies service.database, audioHandler.Repr, voiceChannelManager
      ensures Valid() && fresh(audioHandler.Repr - old(audioHandler.Repr))
      ensures voiceChannelManager.jda == old(voiceChannelManager.jda)
      ensures OnlyRecordChanged(old(service.database.rows), service.database.rows, s.guildId)
      ensures !Replayable(jda, s) ==>
        && audioHandler.Sessions() == old(audioHandler.Sessions())
        && voiceChannelManager.mode247Enabled == old(voiceChannelManager.mode247Enabled)
        && service.database.rows == (if service.database.connected then old(service.database.rows) - {s.guildId} else old(service.database.rows))
      ensures Replayable(jda, s) ==>
        && audioHandler.Sessions() == AfterPlayStation(old(audioHandler.Sessions()), s.guildId, s.station, outcome)
        && voiceChannelManager.mode247Enabled == (if s.mode247Enabled then old(voiceChannelManager.mode247Enabled)[s.guildId := true]
                                                  else old(voiceChannelManager.mode247Enabled))
        && (s.mode247Enabled ==> service.database.rows.Keys <= old(service.database.rows.Keys) + {s.guildId})
        && (forall h :: h != s.guildId && h in old(service.database.rows) ==> h in service.database.rows && service.database.rows[h] == old(service.database.rows)[h])
        && (!s.mode247Enabled ==> service.database.rows == old(service.database.rows))
        && (s.mode247Enabled ==>
              var target := PersistTarget(voiceChannelManager.jda, audioHandler.GetCurrentStation(s.guildId), s.guildId);
              service.database.rows == PersistedRows(old(service.database.rows), target, service.codec, service.database.connected, s.guildId, true, now))
      ensures voiceChannelManager.nextJob == old(voiceChannelManager.nextJob)
      ensures voiceChannelManager.disconnectTimers ==
        if Replayable(jda, s) && s.mode247Enabled then Cancel(old(voiceChannelManager.disconnectTimers), s.guildId)
        else old(voiceChannelManager.disconnectTimers)
    {
      if CheckRecord(jda, s.guildId, s.channelId) != Validity.Valid || s.guildId in jda.refusesConnection {
        DropRecord(s.guildId);
      } else {
        RestoreRecord(s, outcome, now);
      }
    }

    /** The `forEach` of `reconnect`: each record replayed in turn, each followed by the pause. */
    method ReplayAll(decoded: seq<SavedSession>, outcomeOf: string -> LoadOutcome, now: int) returns (pausedMs: int)
      requires Valid() && DistinctGuilds(decoded)
      modifies service.database, audioHandler.Repr, voiceChannelManager
      ensures Valid() && fresh(audioHandler.Repr - old(audioHandler.Repr))
      ensures pausedMs == PACING_MS * |decoded|
      ensures audioHandler.Sessions() == ReplaySessions(old(audioHandler.Sessions()), jda, decoded, outcomeOf)
      ensures voiceChannelManager.mode247Enabled == ReplayFlags(old(voiceChannelManager.mode247Enabled), jda, decoded)
      ensures RowsReplayed(decoded, |decoded|, jda, service.database.connected, old(service.database.rows), service.database.rows)
      ensures voiceChannelManager.disconnectTimers == ReplayTimers(old(voiceChannelManager.disconnectTimers), jda, decoded)
      ensures voiceChannelManager.nextJob == old(voiceChannelManager.nextJob)
    {
      pausedMs := 0;
      ghost var sessions0 := audioHandler.Sessions();
      ghost var flags0 := voiceChannelManager.mode247Enabled;
      ghost var timers0 := voiceChannelManager.disconnectTimers;
      ghost var rows0 := service.database.rows;
      for i := 0 to |decoded|
        invariant Valid() && fresh(audioHandler.Repr - old(audioHandler.Repr))
        invariant pausedMs == PACING_MS * i
        invariant audioHandler.Sessions() == ReplaySessions(sessions0, jda, decoded[..i], outcomeOf)
        invariant voiceChannelManager.mode247Enabled == ReplayFlags(flags0, jda, decoded[..i])
        invariant RowsReplayed(decoded, i, jda, service.database.connected, rows0, service.database.rows)
        invariant voiceChannelManager.disconnectTimers == ReplayTimers(timers0, jda, decoded[..i])
        invariant voiceChannelManager.nextJob == old(voiceChannelManager.nextJob)
      {
        var s := decoded[i];
        assert decoded[..i + 1][..i] == decoded[..i] && decoded[..i + 1][i] == s;
        ghost var rowsBefore := service.database.rows;
        ReconnectGuild(s, outcomeOf(s.guildId), now);
        RowsStep(decoded, i, jda, service.database.connected, rows0, rowsBefore, service.database.rows);
        pausedMs := pausedMs + PACING_MS;
      }
      assert decoded[..|decoded|] == decoded;
    }

    /**
     * `reconnect`: the records the service lists (`listing`, decoded into
     * `states`) are replayed one after another, each followed by a 500 ms
     * pause; a failing record never stops the next. Afterwards the players
     * and flags are the in-order replay, every failed record is gone from the
     * table, and the records of guilds not listed are untouched.
     */
    method Reconnect(outcomeOf: string -> LoadOutcome, now: int)
      returns (pausedMs: int, ghost listing: seq<ReconnectionState>, ghost states: seq<SavedSession>)
      requires Valid()
      modifies service.database, audioHandler.Repr, voiceChannelManager
      ensures Valid() && fresh(audioHandler.Repr - old(audioHandler.Repr))
      ensures service.database.connected ==> Lists(listing, old(service.database.rows))
      ensures !service.database.connected ==> listing == []
      ensures states == DecodeAll(service.codec, listing) && DistinctGuilds(states)
      ensures pausedMs == PACING_MS * |states|
      ensures audioHandler.Sessions() == ReplaySessions(old(audioHandler.Sessions()), jda, states, outcomeOf)
      ensures voiceChannelManager.mode247Enabled == ReplayFlags(old(voiceChannelManager.mode247Enabled), jda, states)
      ensures RowsReplayed(states, |states|, jda, service.database.connected, old(service.database.rows), service.database.rows)
      ensures voiceChannelManager.disconnectTimers == ReplayTimers(old(voiceChannelManager.disconnectTimers), jda, states)
      ensures voiceChannelManager.nextJob == old(voiceChannelManager.nextJob)
    {
      var decoded;
      decoded, listing := service.LoadAllStates();
      states := decoded;
      if service.database.connected {
        DecodeAllKeepsGuildsDistinct(service.codec, listing);
      }
      pausedMs := 0;
      if decoded == [] {
        return;
      }
      pausedMs := ReplayAll(decoded, outcomeOf, now);
    }
  }
}
