/**
 * The `favorites` table: one row per (user_id, station_uuid) primary key,
 * holding the station as JSON text and the time it was (last) added. The
 * table is a map keyed by that pair; a database whose connection is missing
 * or whose statements throw SQLException is one with `connected == false`.
 */
module FavoriteStore {
  import opened Util

  /** The non-key columns of a row. */
  datatype Favorite = Favorite(stationData: string, createdAt: int)

  /** The station uuids a user has rows for. */
  function UserKeys(rows: map<(string, string), Favorite>, u: string): (ks: set<string>)
    ensures forall k :: k in ks <==> (u, k) in rows
  {
    set p | p in rows.Keys && p.0 == u :: p.1
  }

  /**
   * `ORDER BY created_at DESC` over one user's rows: `keys` names each of the
   * user's stations once, and the creation times never increase along it
   * (rows with equal times come in an order SQLite chooses).
   */
  ghost predicate NewestFirst(rows: map<(string, string), Favorite>, u: string, keys: seq<string>)
  {
    && (forall i :: 0 <= i < |keys| ==> (u, keys[i]) in rows)
    && (forall k :: (u, k) in rows ==> k in keys)
    && (forall i, j :: 0 <= i < j < |keys| ==> keys[i] != keys[j])
    && (forall i, j :: 0 <= i < j < |keys| ==> rows[(u, keys[i])].createdAt >= rows[(u, keys[j])].createdAt)
  }

  /** Among the user's remaining stations there is a newest one. */
  lemma {:induction false} NewestExists(rows: map<(string, string), Favorite>, u: string, s: set<string>)
    requires s != {} && forall k :: k in s ==> (u, k) in rows
    ensures exists k :: k in s && forall r :: r in s ==> rows[(u, k)].createdAt >= rows[(u, r)].createdAt
    decreases |s|
  {
    var x :| x in s;
    var rest := s - {x};
    if rest == {} {
      assert s == {x};
    } else {
      NewestExists(rows, u, rest);
      var m :| m in rest && forall r :: r in rest ==> rows[(u, m)].createdAt >= rows[(u, r)].createdAt;
      if rows[(u, m)].createdAt >= rows[(u, x)].createdAt {
        assert forall r :: r in s ==> r in rest || r == x;
      } else {
        assert forall r :: r in s ==> r in rest || r == x;
      }
    }
  }

  /**
   * A station added later than every other favorite of its user is the first
   * thing `getFavorites` lists.
   */
  lemma JustAddedComesFirst(rows: map<(string, string), Favorite>, u: string, k: string, data: string, now: int, keys: seq<string>)
    requires forall p :: p in rows && p.0 == u ==> rows[p].createdAt < now
    requires NewestFirst(rows[(u, k) := Favorite(data, now)], u, keys)
    ensures |keys| > 0 && keys[0] == k
  {
  }

  /** The rows a listing names, in its order. */
  function EntriesOf(rows: map<(string, string), Favorite>, u: string, keys: seq<string>): (es: seq<Favorite>)
    requires forall i :: 0 <= i < |keys| ==> (u, keys[i]) in rows
    ensures |es| == |keys| && forall i :: 0 <= i < |keys| ==> es[i] == rows[(u, keys[i])]
  {
    seq(|keys|, i requires 0 <= i < |keys| => rows[(u, keys[i])])
  }

  /** The station data of `entries` that is not empty, in order (`if (data.isNotEmpty())`). */
  function NonEmptyData(entries: seq<Favorite>): (ds: seq<string>)
    ensures |ds| <= |entries|
    decreases |entries|
  {
    if entries == [] then []
    else
      var last := entries[|entries| - 1].stationData;
      NonEmptyData(entries[..|entries| - 1]) + (if last != "" then [last] else [])
  }

  /** No empty string survives, and every non-empty one does, with its position order kept. */
  lemma {:induction false} NonEmptyDataExact(entries: seq<Favorite>)
    ensures forall d :: d in NonEmptyData(entries) ==> d != "" && exists i :: 0 <= i < |entries| && entries[i].stationData == d
    ensures forall i :: 0 <= i < |entries| && entries[i].stationData != "" ==> entries[i].stationData in NonEmptyData(entries)
    decreases |entries|
  {
    if entries != [] {
      var init := entries[..|entries| - 1];
      NonEmptyDataExact(init);
      forall i | 0 <= i < |entries| - 1
        ensures entries[i] == init[i]
      {
      }
    }
  }

  /**
   * Part way through the cursor: the stations listed so far come newest
   * first, each once, none of them still remaining, and none older than a
   * remaining one; listed and remaining stations together are all of the
   * user's.
   */
  ghost predicate ListedSoFar(rows: map<(string, string), Favorite>, u: string, keys: seq<string>, remaining: set<string>)
  {
    && (forall k :: k in remaining ==> (u, k) in rows)
    && (forall i :: 0 <= i < |keys| ==> (u, keys[i]) in rows && keys[i] !in remaining)
    && (forall k :: (u, k) in rows ==> k in remaining || k in keys)
    && (forall i, j :: 0 <= i < j < |keys| ==> keys[i] != keys[j])
    && (forall i, j :: 0 <= i < j < |keys| ==> rows[(u, keys[i])].createdAt >= rows[(u, keys[j])].createdAt)
    && (forall i, k :: 0 <= i < |keys| && k in remaining ==> rows[(u, keys[i])].createdAt >= rows[(u, k)].createdAt)
  }

  /** Listing the newest remaining station next keeps the cursor's order. */
  lemma ListingStep(rows: map<(string, string), Favorite>, u: string, keys: seq<string>, remaining: set<string>, k: string)
    requires ListedSoFar(rows, u, keys, remaining)
    requires k in remaining && forall r :: r in remaining ==> rows[(u, k)].createdAt >= rows[(u, r)].createdAt
    ensures ListedSoFar(rows, u, keys + [k], remaining - {k})
  {
    var keys' := keys + [k];
    assert forall i :: 0 <= i < |keys| ==> keys'[i] == keys[i];
  }

  /** A finished cursor lists the user's stations newest first. */
  lemma ListingDone(rows: map<(string, string), Favorite>, u: string, keys: seq<string>)
    requires ListedSoFar(rows, u, keys, {})
    ensures NewestFirst(rows, u, keys)
  {
  }

  class FavoriteDatabase {
    /** The table, keyed by the primary key (user_id, station_uuid). */
    var rows: map<(string, string), Favorite>
    /** False when the connection is missing or its statements throw SQLException. */
    const connected: bool

    /** Opens the database over the rows an earlier run left in the file. */
    constructor (existing: map<(string, string), Favorite>, connected: bool)
      ensures rows == existing && this.connected == connected
    {
      rows := existing;
      this.connected := connected;
    }

    /**
     * `addFavorite`: `INSERT OR REPLACE` stamped with `now`, so re-adding
     * replaces the data and the time and still succeeds; false and no change
     * when the database fails.
     */
    method AddFavorite(u: string, k: string, data: string, now: int) returns (ok: bool)
      modifies this
      ensures ok == connected
      ensures rows == if connected then old(rows)[(u, k) := Favorite(data, now)] else old(rows)
    {
      if !connected {
        return false;
      }
      rows := rows[(u, k) := Favorite(data, now)];
      ok := true;
    }

    /** `getFavoriteStationData`: the stored JSON, or null when there is no row or the database fails. */
    function GetFavoriteStationData(u: string, k: string): (r: Option<string>)
      reads this
      ensures r.Some? <==> connected && (u, k) in rows
      ensures r.Some? ==> r.value == rows[(u, k)].stationData
    {
      if connected && (u, k) in rows then Some(rows[(u, k)].stationData) else None
    }

    /** `removeFavorite`: true exactly when the row existed, which is then gone. */
    method RemoveFavorite(u: string, k: string) returns (removed: bool)
      modifies this
      ensures removed <==> connected && (u, k) in old(rows)
      ensures rows == if connected then old(rows) - {(u, k)} else old(rows)
    {
      if !connected {
        return false;
      }
      removed := (u, k) in rows;
      rows := rows - {(u, k)};
    }

    /** `isFavorite`: false for a missing row and when the database fails. */
    predicate IsFavorite(u: string, k: string)
      reads this
      ensures IsFavorite(u, k) <==> connected && (u, k) in rows
    {
      connected && (u, k) in rows
    }

    /**
     * The cursor of `SELECT ... WHERE user_id = ? ORDER BY created_at DESC`:
     * the user's stations, newest first.
     */
    method NewestFirstListing(u: string) returns (keys: seq<string>)
      ensures NewestFirst(rows, u, keys)
    {
      var remaining := UserKeys(rows, u);
      keys := [];
      while remaining != {}
        invariant ListedSoFar(rows, u, keys, remaining)
        decreases |remaining|
      {
        NewestExists(rows, u, remaining);
        var k :| k in remaining && forall r :: r in remaining ==> rows[(u, k)].createdAt >= rows[(u, r)].createdAt;
        ListingStep(rows, u, keys, remaining, k);
        keys := keys + [k];
        remaining := remaining - {k};
      }
      ListingDone(rows, u, keys);
    }

    /** `getFavorites`: the user's station uuids, newest first; empty when the database fails. */
    method GetFavorites(u: string) returns (uuids: seq<string>)
      ensures connected ==> NewestFirst(rows, u, uuids)
      ensures !connected ==> uuids == []
    {
      if !connected {
        return [];
      }
      uuids := NewestFirstListing(u);
    }

    /**
     * `getFavoriteStationsData`: the user's stored JSON, newest first, with
     * empty strings left out; `listing` is the order of the rows read.
     */
    method GetFavoriteStationsData(u: string) returns (data: seq<string>, ghost listing: seq<string>)
      ensures connected ==> NewestFirst(rows, u, listing) && data == NonEmptyData(EntriesOf(rows, u, listing))
      ensures !connected ==> data == [] && listing == []
    {
      listing := [];
      if !connected {
        return [], listing;
      }
      var keys := NewestFirstListing(u);
      listing := keys;
      data := [];
      for i := 0 to |keys|
        invariant data == NonEmptyData(EntriesOf(rows, u, keys[..i]))
      {
        assert EntriesOf(rows, u, keys[..i + 1])[..i] == EntriesOf(rows, u, keys[..i]);
        var d := rows[(u, keys[i])].stationData;
        if d != "" {
          data := data + [d];
        }
      }
      assert keys[..|keys|] == keys;
    }
  }
}
