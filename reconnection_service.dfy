/**
 * `ReconnectionService`: the reconnection table seen through the station
 * JSON codec, plus the periodic validity sweep over the stored records.
 */
module ReconnectionServices {
  import opened Util
  import opened Stations
  import opened Discord
  import opened ReconnectionStore

  /** `ReconnectionService.ReconnectionState`: a stored record with its station decoded. */
  datatype SavedSession = SavedSession(guildId: string, channelId: string, station: RadioStation, mode247Enabled: bool)

  /** A stored row with its station decoded, or None when the JSON does not decode. */
  function Decoded(codec: Codec, s: ReconnectionState): (r: Option<SavedSession>)
    ensures r.Some? <==> codec.decode(s.stationData).Some?
    ensures r.Some? ==> r.value == SavedSession(s.guildId, s.channelId, codec.decode(s.stationData).value, s.mode247Enabled)
  {
    match codec.decode(s.stationData)
    case Some(st) => Some(SavedSession(s.guildId, s.channelId, st, s.mode247Enabled))
    case None => None
  }

  /** The records of `xs` whose station decodes, in the order of `xs` (what `loadAllStates` returns). */
  function DecodeAll(codec: Codec, xs: seq<ReconnectionState>): (r: seq<SavedSession>)
    ensures |r| <= |xs|
    decreases |xs|
  {
    if xs == [] then []
    else
      var last := Decoded(codec, xs[|xs| - 1]);
      DecodeAll(codec, xs[..|xs| - 1]) + (if last.Some? then [last.value] else [])
  }

  /** Decoding a concatenation decodes each part: the records keep their relative order. */
  lemma {:induction false} DecodeAllAppend(codec: Codec, xs: seq<ReconnectionState>, ys: seq<ReconnectionState>)
    ensures DecodeAll(codec, xs + ys) == DecodeAll(codec, xs) + DecodeAll(codec, ys)
    decreases |ys|
  {
    if ys == [] {
      assert xs + ys == xs;
    } else {
      var init := ys[..|ys| - 1];
      DecodeAllAppend(codec, xs, init);
      assert (xs + ys)[..|xs + ys| - 1] == xs + init;
    }
  }

  /**
   * Exactly the decodable records survive: each output comes from an input
   * record, and each decodable input record is in the output.
   */
  lemma {:induction false} DecodeAllKeepsExactlyDecodable(codec: Codec, xs: seq<ReconnectionState>)
    ensures forall s :: s in DecodeAll(codec, xs) ==> exists x :: x in xs && Decoded(codec, x) == Some(s)
    ensures forall x :: x in xs && Decoded(codec, x).Some? ==> Decoded(codec, x).value in DecodeAll(codec, xs)
    decreases |xs|
  {
    if xs != [] {
      var init := xs[..|xs| - 1];
      DecodeAllKeepsExactlyDecodable(codec, init);
      forall x | x in xs
        ensures x in init || x == xs[|xs| - 1]
      {
        var k :| 0 <= k < |xs| && xs[k] == x;
        if k < |xs| - 1 {
          assert init[k] == x;
        }
      }
    }
  }

  /** The guild ids `cleanupInvalidStates` collects from `xs`, in order. */
  function InvalidIds(gw: Gateway, xs: seq<ReconnectionState>): (ids: seq<string>)
    ensures |ids| <= |xs|
    decreases |xs|
  {
    if xs == [] then []
    else
      var last := xs[|xs| - 1];
      InvalidIds(gw, xs[..|xs| - 1]) + (if CheckRecord(gw, last.guildId, last.channelId) != Valid then [last.guildId] else [])
  }

  /** An id is collected exactly when one of its records fails a check. */
  lemma {:induction false} InvalidIdsExact(gw: Gateway, xs: seq<ReconnectionState>, g: string)
    ensures g in InvalidIds(gw, xs) <==>
      exists i :: 0 <= i < |xs| && xs[i].guildId == g && CheckRecord(gw, g, xs[i].channelId) != Valid
    decreases |xs|
  {
    if xs != [] {
      var init := xs[..|xs| - 1];
      InvalidIdsExact(gw, init, g);
      if exists i :: 0 <= i < |init| && init[i].guildId == g && CheckRecord(gw, g, init[i].channelId) != Valid {
        var i :| 0 <= i < |init| && init[i].guildId == g && CheckRecord(gw, g, init[i].channelId) != Valid;
        assert xs[i] == init[i];
      }
    }
  }

  /** The guilds of a table whose stored record fails a check against the gateway. */
  ghost function InvalidGuilds(gw: Gateway, rows: map<string, Row>): set<string>
  {
    set g | g in rows && CheckRecord(gw, g, rows[g].channelId) != Valid
  }

  /** Over a listing of the table, the collected ids are exactly the table's invalid guilds. */
  lemma CollectedAreInvalid(gw: Gateway, xs: seq<ReconnectionState>, rows: map<string, Row>)
    requires Lists(xs, rows)
    ensures (set k | k in InvalidIds(gw, xs)) == InvalidGuilds(gw, rows)
  {
    ListingCoversTable(xs, rows);
    forall g
      ensures g in InvalidIds(gw, xs) <==> g in InvalidGuilds(gw, rows)
    {
      InvalidIdsExact(gw, xs, g);
      if g in InvalidGuilds(gw, rows) {
        var i :| 0 <= i < |xs| && xs[i] == StateOf(g, rows[g]);
        assert xs[i].guildId == g && CheckRecord(gw, g, xs[i].channelId) != Valid;
      }
    }
  }

  class ReconnectionService {
    const database: ReconnectionDatabase
    /** kotlinx.serialization's station JSON (`ignoreUnknownKeys`, `coerceInputValues`). */
    const codec: Codec
    /** The gateway the sweep checks against; null until `updateJDA` is called. */
    var jda: Option<Gateway>

    constructor (database: ReconnectionDatabase, codec: Codec)
      ensures this.database == database && this.codec == codec && jda.None?
    {
      this.database := database;
      this.codec := codec;
      jda := None;
    }

    /** `updateJDA`. */
    method UpdateJDA(gw: Option<Gateway>)
      modifies this
      ensures jda == gw
    {
      jda := gw;
    }

    /**
     * `saveState`: a station that fails to encode returns false without
     * touching the table; otherwise the encoded row is upserted and the
     * database's answer is returned.
     */
    method SaveState(g: string, ch: string, station: RadioStation, flag: bool, now: int) returns (ok: bool)
      modifies database
      ensures codec.encode(station).None? ==> !ok && database.rows == old(database.rows)
      ensures codec.encode(station).Some? ==>
        ok == database.connected &&
        database.rows == if database.connected then old(database.rows)[g := SavedRow(ch, codec.encode(station).value, flag, now)]
                         else old(database.rows)
    {
      var data := codec.encode(station);
      if data.None? {
        return false;
      }
      ok := database.SaveState(g, ch, data.value, flag, now);
    }

    /** `loadState`: null when there is no row (or the database fails) or its station does not decode. */
    function LoadState(g: string): (r: Option<SavedSession>)
      reads database
      ensures database.LoadState(g).None? ==> r.None?
      ensures database.LoadState(g).Some? ==> r == Decoded(codec, database.LoadState(g).value)
      ensures r.Some? ==> r.value.guildId == g && r.value.channelId == database.rows[g].channelId
                          && (r.value.mode247Enabled <==> database.rows[g].mode247Enabled == 1)
    {
      match database.LoadState(g)
      case None => None
      case Some(row) => Decoded(codec, row)
    }

    /**
     * `loadAllStates`: the rows in the database's order, undecodable ones
     * skipped; `listing` is that order.
     */
    method LoadAllStates() returns (states: seq<SavedSession>, ghost listing: seq<ReconnectionState>)
      ensures database.connected ==> Lists(listing, database.rows)
      ensures !database.connected ==> listing == []
      ensures states == DecodeAll(codec, listing)
    {
      var rowsRead := database.LoadAllStates();
      listing := rowsRead;
      states := [];
      for i := 0 to |rowsRead|
        invariant states == DecodeAll(codec, rowsRead[..i])
      {
        assert rowsRead[..i + 1][..i] == rowsRead[..i];
        var station := codec.decode(rowsRead[i].stationData);
        if station.None? {
          continue;
        }
        states := states + [SavedSession(rowsRead[i].guildId, rowsRead[i].channelId, station.value, rowsRead[i].mode247Enabled)];
      }
      assert rowsRead[..|rowsRead|] == rowsRead;
    }

    /** `deleteState`. */
    method DeleteState(g: string) returns (removed: bool)
      modifies database
      ensures removed <==> database.connected && g in old(database.rows)
      ensures database.rows == if database.connected then old(database.rows) - {g} else old(database.rows)
    {
      removed := database.DeleteState(g);
    }

    /**
     * `cleanupInvalidStates`: without a gateway it returns 0 and deletes
     * nothing; otherwise exactly the records whose guild is gone, whose channel
     * is gone, whose channel the bot may no longer join, or whose check throws
     * are deleted, and their number is returned.
     */
    method CleanupInvalidStates() returns (count: int)
      modifies database
      ensures jda.None? || !database.connected ==> count == 0 && database.rows == old(database.rows)
      ensures jda.Some? && database.connected ==>
        database.rows == old(database.rows) - InvalidGuilds(jda.value, old(database.rows)) &&
        count == |InvalidGuilds(jda.value, old(database.rows))|
    {
      var allStates := database.LoadAllStates();
      if jda.None? {
        return 0;
      }
      var gw := jda.value;
      var invalid: seq<string> := [];
      for i := 0 to |allStates|
        invariant invalid == InvalidIds(gw, allStates[..i])
      {
        assert allStates[..i + 1][..i] == allStates[..i];
        var check := CheckRecord(gw, allStates[i].guildId, allStates[i].channelId);
        if check != Valid {
          invalid := invalid + [allStates[i].guildId];
        }
      }
      assert allStates[..|allStates|] == allStates;
      if invalid != [] {
        if database.connected {
          CollectedAreInvalid(gw, allStates, database.rows);
          assert old(database.rows).Keys * InvalidGuilds(gw, old(database.rows)) == InvalidGuilds(gw, old(database.rows));
        }
        count := database.DeleteStates(invalid);
        return;
      }
      if database.connected {
        CollectedAreInvalid(gw, allStates, database.rows);
        assert InvalidGuilds(gw, database.rows) == {};
      }
      count := 0;
    }
  }
}
