/**
 * The `reconnection_state` table: one row per guild (guild_id is the primary
 * key) holding the voice channel, the station as JSON text, the 24/7 flag as
 * an INTEGER and the time of the last write. The table is a map keyed by
 * guild id; a database whose connection is missing or whose statements throw
 * SQLException is one with `connected == false`.
 */
module ReconnectionStore {
  import opened Util

  /** A row of the table; the 24/7 flag is stored as an integer column. */
  datatype Row = Row(channelId: string, stationData: string, mode247Enabled: int, lastUpdated: int)

  /** `ReconnectionDatabase.ReconnectionState`: a row as it is read back. */
  datatype ReconnectionState = ReconnectionState(
    guildId: string, channelId: string, stationData: string, mode247Enabled: bool, lastUpdated: int)

  /** `if (mode247Enabled) 1 else 0`: how the flag is written. */
  function FlagColumn(b: bool): int
  {
    if b then 1 else 0
  }

  /** `getInt("mode247_enabled") == 1`: how the flag is read. */
  predicate ReadFlag(v: int)
  {
    v == 1
  }

  /** The flag reads back as it was written. */
  lemma FlagRoundTrip(b: bool)
    ensures ReadFlag(FlagColumn(b)) == b
  {
  }

  /** The row for guild g as `loadState`/`loadAllStates` build it. */
  function StateOf(g: string, r: Row): (s: ReconnectionState)
    ensures s.guildId == g && s.channelId == r.channelId && s.stationData == r.stationData
    ensures s.mode247Enabled <==> r.mode247Enabled == 1
    ensures s.lastUpdated == r.lastUpdated
  {
    ReconnectionState(g, r.channelId, r.stationData, ReadFlag(r.mode247Enabled), r.lastUpdated)
  }

  /** `SELECT ... WHERE guild_id = ? LIMIT 1` on a table: the guild's row, or null. */
  function Lookup(rows: map<string, Row>, g: string): (r: Option<ReconnectionState>)
    ensures r.Some? <==> g in rows
    ensures r.Some? ==> r.value == StateOf(g, rows[g])
  {
    if g in rows then Some(StateOf(g, rows[g])) else None
  }

  /** The row `saveState(g, ch, data, flag)` writes at time `now`. */
  function SavedRow(ch: string, data: string, flag: bool, now: int): Row
  {
    Row(ch, data, FlagColumn(flag), now)
  }

  /**
   * After an upsert the guild reads back exactly what was saved, flag
   * included, and every other guild reads back what it did before.
   */
  lemma SaveThenLoad(rows: map<string, Row>, g: string, ch: string, data: string, flag: bool, now: int, h: string)
    ensures Lookup(rows[g := SavedRow(ch, data, flag, now)], g) == Some(ReconnectionState(g, ch, data, flag, now))
    ensures h != g ==> Lookup(rows[g := SavedRow(ch, data, flag, now)], h) == Lookup(rows, h)
  {
    FlagRoundTrip(flag);
  }

  /**
   * `loadAllStates`: the statement yields each row once, in an order SQLite
   * chooses; `Lists(states, rows)` says `states` is such a listing.
   */
  ghost predicate Lists(states: seq<ReconnectionState>, rows: map<string, Row>)
  {
    && |states| == |rows.Keys|
    && (forall i :: 0 <= i < |states| ==> states[i].guildId in rows && states[i] == StateOf(states[i].guildId, rows[states[i].guildId]))
    && (forall i, j :: 0 <= i < j < |states| ==> states[i].guildId != states[j].guildId)
  }

  /** The guild ids of a list of states, as a set. */
  function IdsOf(states: seq<ReconnectionState>): (ids: set<string>)
    ensures forall g :: g in ids <==> exists i :: 0 <= i < |states| && states[i].guildId == g
  {
    set i | 0 <= i < |states| :: states[i].guildId
  }

  /** Distinct ids: a list of n states with pairwise different guilds names n guilds. */
  lemma {:induction false} DistinctIdsCount(states: seq<ReconnectionState>)
    requires forall i, j :: 0 <= i < j < |states| ==> states[i].guildId != states[j].guildId
    ensures |IdsOf(states)| == |states|
  {
    if states != [] {
      var init := states[..|states| - 1];
      DistinctIdsCount(init);
      var last := states[|states| - 1].guildId;
      assert IdsOf(states) == IdsOf(init) + {last};
      assert last !in IdsOf(init);
    }
  }

  /** A listing names every guild of the table: nothing is missed, nothing is repeated. */
  lemma ListingCoversTable(states: seq<ReconnectionState>, rows: map<string, Row>)
    requires Lists(states, rows)
    ensures IdsOf(states) == rows.Keys
    ensures forall g :: g in rows ==> exists i :: 0 <= i < |states| && states[i] == StateOf(g, rows[g])
  {
    DistinctIdsCount(states);
    assert IdsOf(states) <= rows.Keys;
    SubsetSize(IdsOf(states), rows.Keys);
    forall g | g in rows
      ensures exists i :: 0 <= i < |states| && states[i] == StateOf(g, rows[g])
    {
      var i :| 0 <= i < |states| && states[i].guildId == g;
      assert states[i] == StateOf(g, rows[g]);
    }
  }

  /** A sequence has at least as many elements as it has distinct ones. */
  lemma {:induction false} DistinctElementsAtMostLength(ids: seq<string>)
    ensures |set k | k in ids| <= |ids|
  {
    if ids != [] {
      var init := ids[..|ids| - 1];
      DistinctElementsAtMostLength(init);
      assert (set k | k in ids) == (set k | k in init) + {ids[|ids| - 1]};
    }
  }

  /**
   * `deleteStates(ids)`: `DELETE ... WHERE guild_id IN (ids)` removes each
   * listed guild that has a row; the update count is the number of rows removed,
   * never more than the number of ids given nor the number of rows there were.
   */
  lemma BatchDeleteCount(rows: map<string, Row>, ids: seq<string>)
    ensures |rows.Keys * (set k | k in ids)| <= |ids|
    ensures |rows.Keys * (set k | k in ids)| <= |rows.Keys|
    ensures forall g :: g in rows - (set k | k in ids) <==> g in rows && g !in ids
  {
    var s := set k | k in ids;
    DistinctElementsAtMostLength(ids);
    SubsetSize(rows.Keys * s, s);
    SubsetSize(rows.Keys * s, rows.Keys);
  }

  class ReconnectionDatabase {
    /** The table, keyed by the primary key guild_id. */
    var rows: map<string, Row>
    /** False when the connection is missing or its statements throw SQLException. */
    const connected: bool

    /** Opens the database over the rows an earlier run left in the file. */
    constructor (existing: map<string, Row>, connected: bool)
      ensures rows == existing && this.connected == connected
    {
      rows := existing;
      this.connected := connected;
    }

    /**
     * `saveState`: `INSERT OR REPLACE` keyed by guild id; true when a row was
     * written, false (and no change) when the database fails.
     */
    method SaveState(g: string, ch: string, data: string, flag: bool, now: int) returns (ok: bool)
      modifies this
      ensures ok == connected
      ensures rows == if connected then old(rows)[g := SavedRow(ch, data, flag, now)] else old(rows)
    {
      if !connected {
        return false;
      }
      rows := rows[g := SavedRow(ch, data, flag, now)];
      ok := true;
    }

    /** `loadState`: the guild's row, or null when it has none or the database fails. */
    function LoadState(g: string): (r: Option<ReconnectionState>)
      reads this
      ensures r.Some? <==> connected && g in rows
      ensures r.Some? ==> r == Lookup(rows, g)
    {
      if connected then Lookup(rows, g) else None
    }

    /** `loadAllStates`: every row once, or the empty list when the database fails. */
    method LoadAllStates() returns (states: seq<ReconnectionState>)
      ensures connected ==> Lists(states, rows)
      ensures !connected ==> states == []
    {
      states := [];
      if !connected {
        return;
      }
      var remaining := rows.Keys;
      while remaining != {}
        invariant remaining <= rows.Keys
        invariant |states| + |remaining| == |rows.Keys|
        invariant forall i :: 0 <= i < |states| ==>
          states[i].guildId in rows && states[i].guildId !in remaining &&
          states[i] == StateOf(states[i].guildId, rows[states[i].guildId])
        invariant forall i, j :: 0 <= i < j < |states| ==> states[i].guildId != states[j].guildId
        decreases |remaining|
      {
        var g :| g in remaining;
        states := states + [StateOf(g, rows[g])];
        remaining := remaining - {g};
      }
    }

    /** `deleteState`: true exactly when the guild had a row, which is then gone. */
    method DeleteState(g: string) returns (removed: bool)
      modifies this
      ensures removed <==> connected && g in old(rows)
      ensures rows == if connected then old(rows) - {g} else old(rows)
    {
      if !connected {
        return false;
      }
      removed := g in rows;
      rows := rows - {g};
    }

    /**
     * `deleteStates`: an empty list returns 0 at once; otherwise the listed
     * guilds lose their rows and the count of removed rows is returned
     * (0 and no change when the database fails).
     */
    method DeleteStates(ids: seq<string>) returns (count: int)
      modifies this
      ensures ids == [] || !connected ==> count == 0 && rows == old(rows)
      ensures ids != [] && connected ==>
        rows == old(rows) - (set k | k in ids) && count == |old(rows).Keys * (set k | k in ids)|
    {
      if ids == [] {
        return 0;
      }
      if !connected {
        return 0;
      }
      var listed := set k | k in ids;
      count := |rows.Keys * listed|;
      rows := rows - listed;
    }
  }
}
