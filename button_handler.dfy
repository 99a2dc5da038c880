/**
 * `ButtonHandler`: the buttons under a station list. The button id picks the
 * action; play buttons pick a station of the user's current page, navigation
 * buttons move the user's page, favorite buttons write the favorites table.
 * Whether the clicking member is in a voice channel and whether the gateway
 * opens the audio connection are inputs.
 */
module Buttons {
  import opened Util
  import opened Stations
  import opened Audio
  import opened AudioHandling
  import opened SearchHandling
  import opened FavoriteStore
  import opened Favorites
  import opened UI

  /** The four page moves. */
  datatype NavKind = First | Prev | Next | Last

  /** What a button id asks for. */
  datatype ButtonAction =
    | PlayButton(suffix: string)
    | FavoritePlayButton(suffix: string)
    | FavoriteButton(uuid: string)
    | UnfavoriteButton(uuid: string)
    | StopButton
    | NowPlayingButton
    | RefreshButton
    | Navigate(kind: NavKind, favoritesView: bool)
    | PageInfo
    | NoAction

  /** `handleButtonInteraction`'s `when`: the first branch whose prefix or name matches. */
  function ButtonRoute(id: string): ButtonAction
  {
    if StartsWith(id, "play_") then PlayButton(RemovePrefix(id, "play_"))
    else if StartsWith(id, "fav_play_") then FavoritePlayButton(RemovePrefix(id, "fav_play_"))
    else if StartsWith(id, "favorite_") then FavoriteButton(RemovePrefix(id, "favorite_"))
    else if StartsWith(id, "unfavorite_") then UnfavoriteButton(RemovePrefix(id, "unfavorite_"))
    else if id == "stop_audio" then StopButton
    else if id == "now_playing" then NowPlayingButton
    else if id == "refresh_search" then RefreshButton
    else if id == "first_page" then Navigate(First, false)
    else if id == "prev_page" then Navigate(Prev, false)
    else if id == "next_page" then Navigate(Next, false)
    else if id == "last_page" then Navigate(Last, false)
    else if StartsWith(id, "fav_first_page") then Navigate(First, true)
    else if StartsWith(id, "fav_prev_page") then Navigate(Prev, true)
    else if StartsWith(id, "fav_next_page") then Navigate(Next, true)
    else if StartsWith(id, "fav_last_page") then Navigate(Last, true)
    else if id == "page_info" || id == "fav_page_info" then PageInfo
    else NoAction
  }

  /** The k-th play button of the list (k from 0) is routed as a play of row k + 1. */
  lemma {:induction false} PlayButtonRoute(k: int)
    requires 0 <= k < PAGE_SIZE
    ensures ButtonRoute(PlayRow()[k].id) == PlayButton(IntToString(k + 1))
  {
    var id := PlayRow()[k].id;
    assert id == "play_" + IntToString(k + 1);
    assert StartsWith(id, "play_") by { assert id[..5] == "play_"; }
    assert RemovePrefix(id, "play_") == id[5..];
  }

  /** A string whose character at `i` differs from the prefix's does not start with it. */
  lemma DiffersAt(s: string, prefix: string, i: nat)
    requires i < |s| && i < |prefix| && s[i] != prefix[i]
    ensures !StartsWith(s, prefix)
  {
  }

  /** None of the handled prefixes starts an id whose first two characters rule them out. */
  lemma NoHandledPrefix(s: string)
    requires |s| >= 2 && s[0] != 'u' && (s[0] == 'p' ==> s[1] != 'l') && (s[0] == 'f' ==> s[1] != 'a')
    ensures !StartsWith(s, "play_") && !StartsWith(s, "fav_play_") && !StartsWith(s, "favorite_") && !StartsWith(s, "unfavorite_")
    ensures !StartsWith(s, "fav_first_page") && !StartsWith(s, "fav_prev_page")
    ensures !StartsWith(s, "fav_next_page") && !StartsWith(s, "fav_last_page")
  {
    var i := if s[0] == 'p' then 1 else 0;
    var j := if s[0] == 'f' then 1 else 0;
    DiffersAt(s, "play_", i);
    DiffersAt(s, "fav_play_", j);
    DiffersAt(s, "favorite_", j);
    DiffersAt(s, "unfavorite_", 0);
    DiffersAt(s, "fav_first_page", j);
    DiffersAt(s, "fav_prev_page", j);
    DiffersAt(s, "fav_next_page", j);
    DiffersAt(s, "fav_last_page", j);
  }

  /**
   * Every button the station list carries reaches a handler: the navigation
   * row moves pages and its page label is only acknowledged.
   */
  lemma NavButtonsAreHandled(p: int, t: int)
    ensures ButtonRoute(NavRow(p, t)[0].id) == Navigate(First, false)
    ensures ButtonRoute(NavRow(p, t)[1].id) == Navigate(Prev, false)
    ensures ButtonRoute(NavRow(p, t)[2].id) == PageInfo
    ensures ButtonRoute(NavRow(p, t)[3].id) == Navigate(Next, false)
    ensures ButtonRoute(NavRow(p, t)[4].id) == Navigate(Last, false)
  {
    NavIdsRoute();
  }

  lemma NavIdsRoute()
    ensures ButtonRoute("first_page") == Navigate(First, false)
    ensures ButtonRoute("prev_page") == Navigate(Prev, false)
    ensures ButtonRoute("page_info") == PageInfo
    ensures ButtonRoute("next_page") == Navigate(Next, false)
    ensures ButtonRoute("last_page") == Navigate(Last, false)
  {
    NoHandledPrefix("first_page");
    NoHandledPrefix("prev_page");
    NoHandledPrefix("page_info");
    NoHandledPrefix("next_page");
    NoHandledPrefix("last_page");
  }

  /** The utility row stops, shows the player and refreshes; every play button plays. */
  lemma UtilityAndPlayButtonsAreHandled()
    ensures ButtonRoute(UtilityRow()[0].id) == StopButton
    ensures ButtonRoute(UtilityRow()[1].id) == NowPlayingButton
    ensures ButtonRoute(UtilityRow()[2].id) == RefreshButton
    ensures forall k :: 0 <= k < PAGE_SIZE ==> ButtonRoute(PlayRow()[k].id).PlayButton?
  {
    NoHandledPrefix("stop_audio");
    NoHandledPrefix("now_playing");
    NoHandledPrefix("refresh_search");
    forall k | 0 <= k < PAGE_SIZE
      ensures ButtonRoute(PlayRow()[k].id).PlayButton?
    {
      PlayButtonRoute(k);
    }
  }

  /** `removePrefix("play_").toInt() - 1` placed on page `page`: None when the suffix is not an Int. */
  function PlayIndex(suffix: string, page: int): (r: Option<int>)
    ensures r.Some? <==> ParseInt(suffix).Some?
  {
    match ParseInt(suffix)
    case None => None
    case Some(k) => Some(PageStart(page) + k - 1)
  }

  /** The station a play button picks: only an index inside the results picks one. */
  function PlayTarget(results: seq<RadioStation>, page: int, suffix: string): (r: Option<RadioStation>)
    ensures r.Some? <==> PlayIndex(suffix, page).Some? && 0 <= PlayIndex(suffix, page).value < |results|
    ensures r.Some? ==> r.value in results
  {
    var i := PlayIndex(suffix, page);
    if i.Some? && 0 <= i.value < |results| then Some(results[i.value]) else None
  }

  /**
   * The play button of row k on a page plays exactly the station shown in
   * row k of that page.
   */
  lemma PlayButtonPlaysShownStation(results: seq<RadioStation>, page: int, k: int)
    requires PageSlice(results, page).Some? && 0 <= k < |PageSlice(results, page).value|
    ensures PlayTarget(results, page, IntToString(k + 1)) == Some(PageSlice(results, page).value[k])
  {
    ParseIntOfIntToString(k + 1);
  }

  /** The page a move aims at before clamping. */
  function NavTarget(kind: NavKind, current: int, n: nat): int
  {
    match kind
    case First => 1
    case Prev => current - 1
    case Next => current + 1
    case Last => TotalPages(n)
  }

  /** `targetPage.coerceIn(1, totalPages)`: None for an empty list, where the range is empty and Kotlin throws. */
  function NavigatedPage(target: int, n: nat): Option<int>
  {
    CoerceIn(target, 1, TotalPages(n))
  }

  /**
   * A move over a non-empty list always lands on a page that exists and shows
   * at least one station; first lands on 1, last on the last page, and a move
   * that stays inside the list goes exactly one page. Over an empty list
   * nothing is stored.
   */
  lemma NavigationLandsOnAPage(kind: NavKind, current: int, results: seq<RadioStation>)
    ensures results == [] <==> NavigatedPage(NavTarget(kind, current, |results|), |results|).None?
    ensures var r := NavigatedPage(NavTarget(kind, current, |results|), |results|);
      r.Some? ==>
        && 1 <= r.value <= TotalPages(|results|)
        && PageSlice(results, r.value).Some? && |PageSlice(results, r.value).value| > 0
        && (kind == First ==> r.value == 1)
        && (kind == Last ==> r.value == TotalPages(|results|))
        && (kind == Next && 1 <= current < TotalPages(|results|) ==> r.value == current + 1)
        && (kind == Prev && 1 < current <= TotalPages(|results|) ==> r.value == current - 1)
  {
    TotalPagesIsCeiling(|results|);
    var r := NavigatedPage(NavTarget(kind, current, |results|), |results|);
    if r.Some? {
      ValidPagesHaveSlices(results, r.value);
    }
  }

  /** `results.find { it.stationUuid == uuid }`: the first station with that uuid. */
  function FindByUuid(results: seq<RadioStation>, uuid: string): (r: Option<RadioStation>)
    ensures r.None? <==> forall i :: 0 <= i < |results| ==> results[i].stationUuid != uuid
    ensures r.Some? ==> r.value in results && r.value.stationUuid == uuid
    ensures r.Some? ==>
      exists i :: 0 <= i < |results| && results[i] == r.value && (forall j :: 0 <= j < i ==> results[j].stationUuid != uuid)
  {
    if results == [] then None
    else if results[0].stationUuid == uuid then Some(results[0])
    else
      var r := FindByUuid(results[1..], uuid);
      if r.Some? then
        var i :| 0 <= i < |results[1..]| && results[1..][i] == r.value && (forall j :: 0 <= j < i ==> results[1..][j].stationUuid != uuid);
        assert results[i + 1] == r.value;
        assert forall j :: 0 <= j < i + 1 ==> results[j].stationUuid != uuid by {
          forall j | 0 <= j < i + 1 ensures results[j].stationUuid != uuid {
            if j > 0 { assert results[j] == results[1..][j - 1]; }
          }
        }
        r
      else r
  }

  /** What a button click answers. */
  datatype ButtonReply =
    | Ignored                                   // returned before doing anything
    | Deferred                                  // only acknowledged
    | MemberNotInVoice
    | NowPlayingStation(station: RadioStation)
    | PlaybackError                             // the audio connection could not be opened
    | Stopped
    | Status(card: StatusCard)
    | ShowPage(stations: seq<RadioStation>, page: int, totalPages: int)
    | FavoriteSaved(added: bool)                // "Added to favorites!" or "Already in favorites!"
    | FavoriteRemoved
    | ButtonError                               // an exception reached the bot's listener

  // The effect of each routed click, as the handler for that route gives it.

  /** A play click: the reply and the players afterwards (see HandlePlayButton). */
  ghost function PlayClick(sessions: map<string, Session>, results: seq<RadioStation>, page: int, g: string, suffix: string,
                           callerInVoice: bool, connects: bool, outcome: LoadOutcome): (ButtonReply, map<string, Session>)
  {
    var target := PlayTarget(results, page, suffix);
    if !callerInVoice then (MemberNotInVoice, sessions)
    else if ParseInt(suffix).None? then (Ignored, sessions)
    else if target.None? then (Deferred, sessions)
    else if !connects then (PlaybackError, sessions)
    else (NowPlayingStation(target.value), AfterPlayStation(sessions, g, target.value, outcome))
  }

  /** A stop click: the guild's player, if it has one, is stopped. */
  ghost function StopClick(sessions: map<string, Session>, g: string): map<string, Session>
  {
    if g in sessions then sessions[g := AfterStop(sessions[g])] else sessions
  }

  /** The card a now-playing click shows: "Not Active" without a player, the station card exactly while one plays. */
  ghost predicate NowPlayingReply(sessions: map<string, Session>, g: string, reply: ButtonReply)
  {
    && reply.Status?
    && (g !in sessions ==> reply.card == NotActiveCard(DEFAULT_VOLUME))
    && (g in sessions ==> (reply.card.NowPlayingCard? <==> sessions[g].Playing() && sessions[g].station.Some?))
  }

  /** A refresh click over the user's results and stored page. */
  function RefreshClick(results: seq<RadioStation>, page: int): ButtonReply
  {
    if results == [] then Deferred
    else if PageSlice(results, page).None? then ButtonError
    else ShowPage(PageSlice(results, page).value, page, TotalPages(|results|))
  }

  /** A page move: the reply and the users' stored pages afterwards (see HandlePageNavigation). */
  function NavigationClick(pages: map<string, int>, results: seq<RadioStation>, current: int, u: string, kind: NavKind)
    : (ButtonReply, map<string, int>)
  {
    NavigationLandsOnAPage(kind, current, results);
    var p := NavigatedPage(NavTarget(kind, current, |results|), |results|);
    if p.None? then (ButtonError, pages)
    else (ShowPage(PageSlice(results, p.value).value, p.value, TotalPages(|results|)), pages[u := p.value])
  }

  /** A favorite click: the reply and the favorites table afterwards (see HandleFavoriteButton). */
  function FavoriteClick(rows: map<(string, string), Favorite>, results: seq<RadioStation>, u: string, uuid: string,
                         codec: Codec, connected: bool, now: int): (ButtonReply, map<(string, string), Favorite>)
  {
    var found := FindByUuid(results, uuid);
    if found.None? then (Deferred, rows)
    else
      var data := codec.encode(found.value);
      if uuid == "" || data.None? then (FavoriteSaved(false), rows)
      else (FavoriteSaved(connected), if connected then rows[(u, uuid) := Favorite(data.value, now)] else rows)
  }

  /** An unfavorite click: the reply and the favorites table afterwards (see HandleUnfavoriteButton). */
  function UnfavoriteClick(rows: map<(string, string), Favorite>, results: seq<RadioStation>, u: string, uuid: string,
                           connected: bool): (ButtonReply, map<(string, string), Favorite>)
  {
    if FindByUuid(results, uuid).None? then (Deferred, rows)
    else (FavoriteRemoved, if uuid != "" && connected then rows - {(u, uuid)} else rows)
  }

  class ButtonHandler {
    const searchHandler: SearchHandler
    const audioHandler: AudioHandler
    const favoriteService: FavoriteService

    ghost predicate Valid()
      reads this, audioHandler, audioHandler.Repr
    {
      audioHandler.Valid()
    }

    constructor (searchHandler: SearchHandler, audioHandler: AudioHandler, favoriteService: FavoriteService)
      requires audioHandler.Valid()
      ensures Valid()
      ensures this.searchHandler == searchHandler && this.audioHandler == audioHandler && this.favoriteService == favoriteService
    {
      this.searchHandler := searchHandler;
      this.audioHandler := audioHandler;
      this.favoriteService := favoriteService;
    }

    /**
     * `handlePlayButton` (and the favorites variant, which reads the same
     * search results): the member must be in a voice channel, the suffix an
     * Int, and the index inside the results; then the connection is opened
     * and the station played. Every early exit leaves the players unchanged.
     */
    method HandlePlayButton(g: string, u: string, suffix: string, callerInVoice: bool, connects: bool, outcome: LoadOutcome)
      returns (reply: ButtonReply)
      requires Valid()
      modifies audioHandler.Repr
      ensures Valid() && fresh(audioHandler.Repr - old(audioHandler.Repr))
      ensures var target := PlayTarget(old(searchHandler.GetUserSearchResults(u)), old(searchHandler.GetUserCurrentPage(u)), suffix);
        if !callerInVoice then reply == MemberNotInVoice && audioHandler.Sessions() == old(audioHandler.Sessions())
        else if ParseInt(suffix).None? then reply == Ignored && audioHandler.Sessions() == old(audioHandler.Sessions())
        else if target.None? then reply == Deferred && audioHandler.Sessions() == old(audioHandler.Sessions())
        else if !connects then reply == PlaybackError && audioHandler.Sessions() == old(audioHandler.Sessions())
        else reply == NowPlayingStation(target.value) &&
             audioHandler.Sessions() == AfterPlayStation(old(audioHandler.Sessions()), g, target.value, outcome)
    {
      if !callerInVoice {
        return MemberNotInVoice;
      }
      var k := ParseInt(suffix);
      if k.None? {
        return Ignored;
      }
      var results := searchHandler.GetUserSearchResults(u);
      var page := searchHandler.GetUserCurrentPage(u);
      var index := PageStart(page) + k.value - 1;
      if !(0 <= index < |results|) {
        return Deferred;
      }
      var station := results[index];
      assert PlayTarget(results, page, suffix) == Some(station);
      if !connects {
        return PlaybackError;
      }
      ghost var before := audioHandler.Sessions();
      var _ := audioHandler.GetOrCreateAudioManager(g);
      audioHandler.PlayStation(g, station, outcome);
      CreateThenPlay(before, g, station, outcome);
      reply := NowPlayingStation(station);
    }

    /** `handleStopButton`: the guild's player is stopped (if it has one) and the connection closed. */
    method HandleStopButton(g: string) returns (reply: ButtonReply)
      requires Valid()
      modifies audioHandler.Repr
      ensures Valid() && audioHandler.Repr == old(audioHandler.Repr) && reply == Stopped
      ensures audioHandler.Sessions() ==
        if g in old(audioHandler.Sessions()) then old(audioHandler.Sessions())[g := AfterStop(old(audioHandler.Sessions())[g])]
        else old(audioHandler.Sessions())
    {
      audioHandler.StopAudio(g);
      reply := Stopped;
    }

    /** `handleNowPlayingButton`: the status card of the guild's player; a guild without one shows "Not Active" at volume 5. */
    method HandleNowPlayingButton(g: string) returns (reply: ButtonReply)
      requires Valid()
      ensures reply.Status?
      ensures g !in audioHandler.Sessions() ==> reply.card == NotActiveCard(DEFAULT_VOLUME)
      ensures g in audioHandler.Sessions() ==>
        var s := audioHandler.Sessions()[g];
        reply.card.NowPlayingCard? <==> s.Playing() && s.station.Some?
    {
      reply := Status(AudioStatus(audioHandler.GetCurrentStation(g), audioHandler.GetCurrentVolume(g), audioHandler.IsPlaying(g)));
    }

    /**
     * `handleRefreshButton`: with results, the user's current page is shown
     * again (a stored page outside the list makes `subList` throw); without
     * results the click is only acknowledged.
     */
    method HandleRefreshButton(u: string) returns (reply: ButtonReply)
      ensures var results := searchHandler.GetUserSearchResults(u);
        var page := searchHandler.GetUserCurrentPage(u);
        if results == [] then reply == Deferred
        else if PageSlice(results, page).None? then reply == ButtonError
        else reply == ShowPage(PageSlice(results, page).value, page, TotalPages(|results|))
    {
      var results := searchHandler.GetUserSearchResults(u);
      var page := searchHandler.GetUserCurrentPage(u);
      if results == [] {
        return Deferred;
      }
      var slice := PageSlice(results, page);
      if slice.None? {
        return ButtonError;
      }
      reply := ShowPage(slice.value, page, TotalPages(|results|));
    }

    /**
     * `handlePageNavigation` after first/previous/next/last: the aimed page
     * clamped to the list's pages is stored for the user and shown. Over an
     * empty list `coerceIn` throws and nothing is stored.
     */
    method HandlePageNavigation(u: string, kind: NavKind) returns (reply: ButtonReply)
      modifies searchHandler
      ensures searchHandler.userSearchResults == old(searchHandler.userSearchResults)
      ensures searchHandler.userSearchTerms == old(searchHandler.userSearchTerms)
      ensures var results := old(searchHandler.GetUserSearchResults(u));
        var p := NavigatedPage(NavTarget(kind, old(searchHandler.GetUserCurrentPage(u)), |results|), |results|);
        if p.None? then reply == ButtonError && searchHandler.userCurrentPage == old(searchHandler.userCurrentPage)
        else
          && searchHandler.userCurrentPage == old(searchHandler.userCurrentPage)[u := p.value]
          && PageSlice(results, p.value).Some?
          && reply == ShowPage(PageSlice(results, p.value).value, p.value, TotalPages(|results|))
    {
      var results := searchHandler.GetUserSearchResults(u);
      var current := searchHandler.GetUserCurrentPage(u);
      var target := NavTarget(kind, current, |results|);
      NavigationLandsOnAPage(kind, current, results);
      var p := NavigatedPage(target, |results|);
      if p.None? {
        return ButtonError;
      }
      searchHandler.SetUserCurrentPage(u, p.value);
      reply := ShowPage(PageSlice(results, p.value).value, p.value, TotalPages(|results|));
    }

    /**
     * `handleFavoriteButton`: only a uuid found in the user's current results
     * is added, through the favorites service.
     */
    method HandleFavoriteButton(u: string, uuid: string, now: int) returns (reply: ButtonReply)
      modifies favoriteService.database
      ensures var found := FindByUuid(searchHandler.GetUserSearchResults(u), uuid);
        var db := favoriteService.database;
        if found.None? then reply == Deferred && db.rows == old(db.rows)
        else
          var data := favoriteService.codec.encode(found.value);
          if uuid == "" || data.None? then reply == FavoriteSaved(false) && db.rows == old(db.rows)
          else reply == FavoriteSaved(db.connected) &&
               db.rows == if db.connected then old(db.rows)[(u, uuid) := Favorite(data.value, now)] else old(db.rows)
    {
      var results := searchHandler.GetUserSearchResults(u);
      var found := FindByUuid(results, uuid);
      if found.None? {
        return Deferred;
      }
      var added := favoriteService.AddFavorite(u, found.value, now);
      reply := FavoriteSaved(added);
    }

    /**
     * `handleUnfavoriteButton`: only a uuid found in the user's current
     * results is removed, through the favorites service.
     */
    method HandleUnfavoriteButton(u: string, uuid: string) returns (reply: ButtonReply)
      modifies favoriteService.database
      ensures var found := FindByUuid(searchHandler.GetUserSearchResults(u), uuid);
        var db := favoriteService.database;
        if found.None? then reply == Deferred && db.rows == old(db.rows)
        else reply == FavoriteRemoved &&
             db.rows == if uuid != "" && db.connected then old(db.rows) - {(u, uuid)} else old(db.rows)
    {
      var results := searchHandler.GetUserSearchResults(u);
      var found := FindByUuid(results, uuid);
      if found.None? {
        return Deferred;
      }
      var _ := favoriteService.RemoveFavorite(u, uuid);
      reply := FavoriteRemoved;
    }

    /**
     * `handleButtonInteraction`: outside a guild nothing happens; otherwise the
     * routed action runs, and it changes only what it is about.
     */
    method HandleButtonInteraction(guild: Option<string>, u: string, id: string, callerInVoice: bool, connects: bool,
                                   outcome: LoadOutcome, now: int)
      returns (reply: ButtonReply)
      requires Valid()
      modifies searchHandler, audioHandler.Repr, favoriteService.database
      ensures Valid() && fresh(audioHandler.Repr - old(audioHandler.Repr))
      ensures var a := ButtonRoute(id);
        guild.None? || a.NowPlayingButton? || a.RefreshButton? || a.PageInfo? || a.NoAction? ==>
          && audioHandler.Sessions() == old(audioHandler.Sessions())
          && searchHandler.userCurrentPage == old(searchHandler.userCurrentPage)
          && favoriteService.database.rows == old(favoriteService.database.rows)
      ensures guild.None? ==> reply == Ignored
      ensures guild.Some? && ButtonRoute(id).NoAction? ==> reply == Ignored
      ensures guild.Some? && ButtonRoute(id).PageInfo? ==> reply == Deferred
      ensures searchHandler.userSearchResults == old(searchHandler.userSearchResults)
      ensures searchHandler.userSearchTerms == old(searchHandler.userSearchTerms)
      ensures var a := ButtonRoute(id);
        a.PlayButton? || a.FavoritePlayButton? || a.StopButton? ==>
          && searchHandler.userCurrentPage == old(searchHandler.userCurrentPage)
          && favoriteService.database.rows == old(favoriteService.database.rows)
      ensures ButtonRoute(id).Navigate? ==>
        && audioHandler.Sessions() == old(audioHandler.Sessions())
        && favoriteService.database.rows == old(favoriteService.database.rows)
      ensures ButtonRoute(id).FavoriteButton? || ButtonRoute(id).UnfavoriteButton? ==>
        && audioHandler.Sessions() == old(audioHandler.Sessions())
        && searchHandler.userCurrentPage == old(searchHandler.userCurrentPage)
      ensures var a := ButtonRoute(id);
        guild.Some? && (a.PlayButton? || a.FavoritePlayButton?) ==>
          (reply, audioHandler.Sessions()) == PlayClick(old(audioHandler.Sessions()), old(searchHandler.GetUserSearchResults(u)),
                                                        old(searchHandler.GetUserCurrentPage(u)), guild.value, a.suffix, callerInVoice, connects, outcome)
      ensures guild.Some? && ButtonRoute(id).StopButton? ==>
        reply == Stopped && audioHandler.Sessions() == StopClick(old(audioHandler.Sessions()), guild.value)
      ensures guild.Some? && ButtonRoute(id).NowPlayingButton? ==> NowPlayingReply(audioHandler.Sessions(), guild.value, reply)
      ensures guild.Some? && ButtonRoute(id).RefreshButton? ==>
        reply == RefreshClick(searchHandler.GetUserSearchResults(u), searchHandler.GetUserCurrentPage(u))
      ensures var a := ButtonRoute(id);
        guild.Some? && a.Navigate? ==>
          (reply, searchHandler.userCurrentPage) == NavigationClick(old(searchHandler.userCurrentPage), old(searchHandler.GetUserSearchResults(u)),
                                                                    old(searchHandler.GetUserCurrentPage(u)), u, a.kind)
      ensures var a := ButtonRoute(id);
        guild.Some? && a.FavoriteButton? ==>
          (reply, favoriteService.database.rows) == FavoriteClick(old(favoriteService.database.rows), searchHandler.GetUserSearchResults(u), u, a.uuid,
                                                                  favoriteService.codec, favoriteService.database.connected, now)
      ensures var a := ButtonRoute(id);
        guild.Some? && a.UnfavoriteButton? ==>
          (reply, favoriteService.database.rows) == UnfavoriteClick(old(favoriteService.database.rows), searchHandler.GetUserSearchResults(u), u, a.uuid,
                                                                    favoriteService.database.connected)
    {
      if guild.None? {
        return Ignored;
      }
      var a := ButtonRoute(id);
      if a.PlayButton? || a.FavoritePlayButton? || a.StopButton? || a.NowPlayingButton? {
        reply := HandleAudioButton(guild.value, u, a, callerInVoice, connects, outcome);
      } else {
        reply := HandleListButton(u, a, now);
      }
    }

    /** The routes that act on the guild's player; the search state and the favorites stay as they are. */
    method HandleAudioButton(g: string, u: string, a: ButtonAction, callerInVoice: bool, connects: bool, outcome: LoadOutcome)
      returns (reply: ButtonReply)
      requires Valid() && (a.PlayButton? || a.FavoritePlayButton? || a.StopButton? || a.NowPlayingButton?)
      modifies audioHandler.Repr
      ensures Valid() && fresh(audioHandler.Repr - old(audioHandler.Repr))
      ensures searchHandler.userSearchResults == old(searchHandler.userSearchResults)
      ensures searchHandler.userSearchTerms == old(searchHandler.userSearchTerms)
      ensures searchHandler.userCurrentPage == old(searchHandler.userCurrentPage)
      ensures favoriteService.database.rows == old(favoriteService.database.rows)
      ensures a.NowPlayingButton? ==> audioHandler.Sessions() == old(audioHandler.Sessions())
      ensures a.PlayButton? || a.FavoritePlayButton? ==>
        (reply, audioHandler.Sessions()) == PlayClick(old(audioHandler.Sessions()), old(searchHandler.GetUserSearchResults(u)),
                                                      old(searchHandler.GetUserCurrentPage(u)), g, a.suffix, callerInVoice, connects, outcome)
      ensures a.StopButton? ==> reply == Stopped && audioHandler.Sessions() == StopClick(old(audioHandler.Sessions()), g)
      ensures a.NowPlayingButton? ==> NowPlayingReply(audioHandler.Sessions(), g, reply)
    {
      assert searchHandler !in audioHandler.Repr && favoriteService.database !in audioHandler.Repr;
      match a
      case PlayButton(suffix) =>
        reply := HandlePlayButton(g, u, suffix, callerInVoice, connects, outcome);
      case FavoritePlayButton(suffix) =>
        reply := HandlePlayButton(g, u, suffix, callerInVoice, connects, outcome);
      case StopButton =>
        reply := HandleStopButton(g);
      case NowPlayingButton =>
        reply := HandleNowPlayingButton(g);
    }

    /** The routes about the user's result list and favorites; the players stay as they are. */
    method HandleListButton(u: string, a: ButtonAction, now: int) returns (reply: ButtonReply)
      requires Valid() && !(a.PlayButton? || a.FavoritePlayButton? || a.StopButton? || a.NowPlayingButton?)
      modifies searchHandler, favoriteService.database
      ensures Valid() && audioHandler.Repr == old(audioHandler.Repr)
      ensures audioHandler.Sessions() == old(audioHandler.Sessions())
      ensures searchHandler.userSearchResults == old(searchHandler.userSearchResults)
      ensures searchHandler.userSearchTerms == old(searchHandler.userSearchTerms)
      ensures !a.Navigate? ==> searchHandler.userCurrentPage == old(searchHandler.userCurrentPage)
      ensures !(a.FavoriteButton? || a.UnfavoriteButton?) ==> favoriteService.database.rows == old(favoriteService.database.rows)
      ensures a.NoAction? ==> reply == Ignored
      ensures a.PageInfo? ==> reply == Deferred
      ensures a.RefreshButton? ==> reply == RefreshClick(searchHandler.GetUserSearchResults(u), searchHandler.GetUserCurrentPage(u))
      ensures a.Navigate? ==>
        (reply, searchHandler.userCurrentPage) == NavigationClick(old(searchHandler.userCurrentPage), old(searchHandler.GetUserSearchResults(u)),
                                                                  old(searchHandler.GetUserCurrentPage(u)), u, a.kind)
      ensures a.FavoriteButton? ==>
        (reply, favoriteService.database.rows) == FavoriteClick(old(favoriteService.database.rows), searchHandler.GetUserSearchResults(u), u, a.uuid,
                                                                favoriteService.codec, favoriteService.database.connected, now)
      ensures a.UnfavoriteButton? ==>
        (reply, favoriteService.database.rows) == UnfavoriteClick(old(favoriteService.database.rows), searchHandler.GetUserSearchResults(u), u, a.uuid,
                                                                  favoriteService.database.connected)
    {
      assert searchHandler !in audioHandler.Repr && favoriteService.database !in audioHandler.Repr;
      match a
      case FavoriteButton(uuid) =>
        reply := HandleFavoriteButton(u, uuid, now);
      case UnfavoriteButton(uuid) =>
        reply := HandleUnfavoriteButton(u, uuid);
      case RefreshButton =>
        reply := HandleRefreshButton(u);
      case Navigate(kind, _) =>
        reply := HandlePageNavigation(u, kind);
      case PageInfo =>
        reply := Deferred;
      case NoAction =>
        reply := Ignored;
    }
  }
}
