/**
 * `FavoriteService`: the favorites table seen through the station JSON
 * codec, with the empty-uuid guards and the toggle.
 */
module Favorites {
  import opened Util
  import opened Stations
  import opened FavoriteStore

  /** The stations of `data` that decode, in order (`mapNotNull` over the decoder). */
  function DecodeStations(codec: Codec, data: seq<string>): (r: seq<RadioStation>)
    ensures |r| <= |data|
    decreases |data|
  {
    if data == [] then []
    else
      var last := codec.decode(data[|data| - 1]);
      DecodeStations(codec, data[..|data| - 1]) + (if last.Some? then [last.value] else [])
  }

  /**
   * Decoding keeps the order of the stored list: decoding a concatenation
   * decodes each part; and a single entry yields its station or nothing.
   */
  lemma {:induction false} DecodeStationsAppend(codec: Codec, xs: seq<string>, ys: seq<string>)
    ensures DecodeStations(codec, xs + ys) == DecodeStations(codec, xs) + DecodeStations(codec, ys)
    decreases |ys|
  {
    if ys == [] {
      assert xs + ys == xs;
    } else {
      var init := ys[..|ys| - 1];
      DecodeStationsAppend(codec, xs, init);
      assert (xs + ys)[..|xs + ys| - 1] == xs + init;
    }
  }

  /** A single entry decodes to its station, or to nothing when the decoder fails. */
  lemma SingleDecode(codec: Codec, d: string)
    ensures DecodeStations(codec, [d]) == if codec.decode(d).Some? then [codec.decode(d).value] else []
  {
    assert [d][..0] == [];
  }

  class FavoriteService {
    const database: FavoriteDatabase
    /** kotlinx.serialization's station JSON (`ignoreUnknownKeys`, `coerceInputValues`). */
    const codec: Codec

    constructor (database: FavoriteDatabase, codec: Codec)
      ensures this.database == database && this.codec == codec
    {
      this.database := database;
      this.codec := codec;
    }

    /**
     * `addFavorite`: an empty uuid or a station that fails to encode returns
     * false without touching the table; otherwise the row is upserted and the
     * database's answer returned.
     */
    method AddFavorite(u: string, station: RadioStation, now: int) returns (ok: bool)
      modifies database
      ensures station.stationUuid == "" || codec.encode(station).None? ==> !ok && database.rows == old(database.rows)
      ensures station.stationUuid != "" && codec.encode(station).Some? ==>
        ok == database.connected &&
        database.rows == if database.connected
                         then old(database.rows)[(u, station.stationUuid) := Favorite(codec.encode(station).value, now)]
                         else old(database.rows)
    {
      if station.stationUuid == "" {
        return false;
      }
      var data := codec.encode(station);
      if data.None? {
        return false;
      }
      ok := database.AddFavorite(u, station.stationUuid, data.value, now);
    }

    /** `removeFavorite`: an empty uuid returns false without touching the table. */
    method RemoveFavorite(u: string, k: string) returns (removed: bool)
      modifies database
      ensures k == "" ==> !removed && database.rows == old(database.rows)
      ensures k != "" ==>
        (removed <==> database.connected && (u, k) in old(database.rows)) &&
        database.rows == if database.connected then old(database.rows) - {(u, k)} else old(database.rows)
    {
      if k == "" {
        return false;
      }
      removed := database.RemoveFavorite(u, k);
    }

    /** `isFavorite`: false for an empty uuid, else the table's answer. */
    predicate IsFavorite(u: string, k: string)
      reads database
      ensures IsFavorite(u, k) <==> k != "" && database.connected && (u, k) in database.rows
    {
      k != "" && database.IsFavorite(u, k)
    }

    /** `getFavorites`: the table's newest-first list of the user's uuids. */
    method GetFavorites(u: string) returns (uuids: seq<string>)
      ensures database.connected ==> NewestFirst(database.rows, u, uuids)
      ensures !database.connected ==> uuids == []
    {
      uuids := database.GetFavorites(u);
    }

    /**
     * `getFavoriteStations`: the user's stored stations, newest first, with
     * empty and undecodable entries dropped; `listing` is the order of the rows read.
     */
    method GetFavoriteStations(u: string) returns (stations: seq<RadioStation>, ghost listing: seq<string>)
      ensures database.connected ==>
        && NewestFirst(database.rows, u, listing)
        && stations == DecodeStations(codec, NonEmptyData(EntriesOf(database.rows, u, listing)))
      ensures !database.connected ==> stations == []
    {
      var data;
      data, listing := database.GetFavoriteStationsData(u);
      stations := [];
      for i := 0 to |data|
        invariant stations == DecodeStations(codec, data[..i])
      {
        assert data[..i + 1][..i] == data[..i];
        var station := codec.decode(data[i]);
        if station.Some? {
          stations := stations + [station.value];
        }
      }
      assert data[..|data|] == data;
    }

    /**
     * `toggleFavorite` as written: a favorite is removed and false returned;
     * otherwise the station is added and true returned whatever the add did.
     * So a station with an empty uuid is reported as now a favorite although
     * nothing was stored.
     */
    method ToggleFavorite(u: string, station: RadioStation, now: int) returns (nowFavorite: bool)
      modifies database
      ensures nowFavorite == !old(IsFavorite(u, station.stationUuid))
      ensures old(IsFavorite(u, station.stationUuid)) ==> database.rows == old(database.rows) - {(u, station.stationUuid)}
      ensures station.stationUuid == "" ==> nowFavorite && !IsFavorite(u, station.stationUuid) && database.rows == old(database.rows)
      ensures !old(IsFavorite(u, station.stationUuid)) && station.stationUuid != "" ==>
        database.rows == if codec.encode(station).Some? && database.connected
                         then old(database.rows)[(u, station.stationUuid) := Favorite(codec.encode(station).value, now)]
                         else old(database.rows)
    {
      if IsFavorite(u, station.stationUuid) {
        var _ := RemoveFavorite(u, station.stationUuid);
        nowFavorite := false;
      } else {
        var _ := AddFavorite(u, station, now);
        nowFavorite := true;
      }
    }

    /**
     * `toggleFavorite` reporting the add's own answer: the result is then
     * exactly whether the station is a favorite afterwards.
     */
    method ToggleFavoriteCorrected(u: string, station: RadioStation, now: int) returns (nowFavorite: bool)
      modifies database
      ensures nowFavorite == IsFavorite(u, station.stationUuid)
      ensures old(IsFavorite(u, station.stationUuid)) ==> !nowFavorite
      ensures forall p :: p != (u, station.stationUuid) ==>
        (p in database.rows <==> p in old(database.rows)) && (p in database.rows ==> database.rows[p] == old(database.rows)[p])
    {
      if IsFavorite(u, station.stationUuid) {
        var _ := RemoveFavorite(u, station.stationUuid);
        nowFavorite := false;
      } else {
        nowFavorite := AddFavorite(u, station, now);
      }
    }
  }
}
