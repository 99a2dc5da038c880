/**
 * The text and component layout `UIBuilder` produces for a page of stations:
 * row numbers, shortened names, the info line, the footer, the button rows
 * and the volume menu, and the choice the audio-status card makes. Embeds and
 * colours are left to JDA; what is modelled is the strings and flags.
 */
module UI {
  import opened Util
  import opened Stations

  /** Names longer than this are cut. */
  const NAME_LIMIT: nat := 30
  /** Between the parts of a station's info line. */
  const SEPARATOR: string := " • "
  /** The info line of a station with nothing to show. */
  const NO_DETAILS: string := "No details available"

  /** `(currentPage - 1) * 5 + index + 1`: the number shown before row `index` of page `page`. */
  function RowNumber(page: int, index: int): int
  {
    (page - 1) * PAGE_SIZE + index + 1
  }

  /** The numbers shown are 1-based positions in the whole result list. */
  lemma {:induction false} NumbersFollowResults<T>(items: seq<T>, page: int, k: int)
    requires PageSlice(items, page).Some? && 0 <= k < |PageSlice(items, page).value|
    ensures 1 <= RowNumber(page, k) <= |items|
    ensures items[RowNumber(page, k) - 1] == PageSlice(items, page).value[k]
  {
    assert RowNumber(page, k) - 1 == PageStart(page) + k;
  }

  /** `if (name.length > 30) name.take(30) + "..." else name`. */
  function DisplayName(name: string): string
  {
    if |name| > NAME_LIMIT then name[..NAME_LIMIT] + "..." else name
  }

  /**
   * A shown name is at most 33 characters; a short name is shown whole, a
   * long one keeps its first 30 characters and is marked with "...".
   */
  lemma DisplayNameShape(name: string)
    ensures |DisplayName(name)| <= NAME_LIMIT + 3
    ensures |name| <= NAME_LIMIT ==> DisplayName(name) == name
    ensures |name| > NAME_LIMIT ==>
      && |DisplayName(name)| == NAME_LIMIT + 3
      && DisplayName(name)[..NAME_LIMIT] == name[..NAME_LIMIT]
      && DisplayName(name)[NAME_LIMIT..] == "..."
  {
    if |name| > NAME_LIMIT {
      assert DisplayName(name)[NAME_LIMIT..] == "...";
    }
  }

  /** The field title of a row: "<number>. <shown name>". */
  function RowTitle(page: int, index: int, name: string): string
  {
    IntToString(RowNumber(page, index)) + ". " + DisplayName(name)
  }

  /** `tags.split(",").take(2).joinToString(", ")`: the first two tags. */
  function FirstTwoTags(tags: string): string
  {
    Join(Take(Split(tags, ','), 2), ", ")
  }

  /** The parts of the info line, in order: country, tags, bitrate, votes, each only when present. */
  function InfoParts(st: RadioStation): (parts: seq<string>)
    ensures forall i :: 0 <= i < |parts| ==> parts[i] != ""
    ensures |parts| <= 4
  {
    (if st.country != "" then ["🌍 " + st.country] else [])
    + (if st.tags != "" then ["🎵 " + FirstTwoTags(st.tags)] else [])
    + (if st.bitrate > 0 then ["🎧 " + IntToString(st.bitrate) + "kbps"] else [])
    + (if st.votes > 0 then ["⭐ " + IntToString(st.votes)] else [])
  }

  /** Appending a part to a joined list puts one separator before it. */
  lemma {:induction false} JoinAppend(parts: seq<string>, p: string, sep: string)
    ensures Join(parts + [p], sep) == if parts == [] then p else Join(parts, sep) + sep + p
    decreases |parts|
  {
    if parts == [] {
      assert parts + [p] == [p];
    } else if |parts| == 1 {
      assert (parts + [p])[1..] == [p];
    } else {
      JoinAppend(parts[1..], p, sep);
      assert (parts + [p])[1..] == parts[1..] + [p];
    }
  }

  /** A join of non-empty parts is empty exactly when there are no parts. */
  lemma JoinEmpty(parts: seq<string>, sep: string)
    requires forall i :: 0 <= i < |parts| ==> parts[i] != ""
    ensures Join(parts, sep) == "" <==> parts == []
  {
    if |parts| > 1 {
      assert |Join(parts, sep)| >= |parts[0]|;
    }
  }

  /** One step of the `buildString`: " • " first when something is already there, then the part. */
  method AppendInfo(info: string, ghost parts: seq<string>, part: string) returns (r: string)
    requires info == Join(parts, SEPARATOR) && part != ""
    requires forall i :: 0 <= i < |parts| ==> parts[i] != ""
    ensures r == Join(parts + [part], SEPARATOR)
  {
    JoinAppend(parts, part, SEPARATOR);
    JoinEmpty(parts, SEPARATOR);
    r := info;
    if r != "" {
      r := r + SEPARATOR;
    }
    r := r + part;
  }

  /**
   * The `buildString` of a station's info line: each present part is
   * appended, preceded by " • " when something is already there.
   */
  method BuildInfo(st: RadioStation) returns (info: string)
    ensures info == Join(InfoParts(st), SEPARATOR)
  {
    var a := if st.country != "" then ["🌍 " + st.country] else [];
    var b := if st.tags != "" then ["🎵 " + FirstTwoTags(st.tags)] else [];
    var c := if st.bitrate > 0 then ["🎧 " + IntToString(st.bitrate) + "kbps"] else [];
    var d := if st.votes > 0 then ["⭐ " + IntToString(st.votes)] else [];
    info := "";
    if st.country != "" {
      info := AppendInfo(info, [], "🌍 " + st.country);
    }
    assert info == Join(a, SEPARATOR);
    if st.tags != "" {
      info := AppendInfo(info, a, "🎵 " + FirstTwoTags(st.tags));
    } else {
      assert a + b == a;
    }
    assert info == Join(a + b, SEPARATOR);
    if st.bitrate > 0 {
      info := AppendInfo(info, a + b, "🎧 " + IntToString(st.bitrate) + "kbps");
    } else {
      assert a + b + c == a + b;
    }
    assert info == Join(a + b + c, SEPARATOR);
    if st.votes > 0 {
      info := AppendInfo(info, a + b + c, "⭐ " + IntToString(st.votes));
    } else {
      assert a + b + c + d == a + b + c;
    }
    assert info == Join(a + b + c + d, SEPARATOR);
    assert InfoParts(st) == a + b + c + d;
  }

  /** `info.ifEmpty { "No details available" }`. */
  function InfoOrDefault(info: string): string
  {
    if info == "" then NO_DETAILS else info
  }

  /** The fallback text appears exactly for a station with no country, no tags, no bitrate and no votes. */
  lemma NoDetailsExactly(st: RadioStation)
    ensures InfoOrDefault(Join(InfoParts(st), SEPARATOR)) == NO_DETAILS <==>
      st.country == "" && st.tags == "" && st.bitrate <= 0 && st.votes <= 0
  {
    var parts := InfoParts(st);
    JoinEmpty(parts, SEPARATOR);
    var a := if st.country != "" then ["🌍 " + st.country] else [];
    var b := if st.tags != "" then ["🎵 " + FirstTwoTags(st.tags)] else [];
    var c := if st.bitrate > 0 then ["🎧 " + IntToString(st.bitrate) + "kbps"] else [];
    var d := if st.votes > 0 then ["⭐ " + IntToString(st.votes)] else [];
    assert parts == a + b + c + d;
    if parts != [] {
      JoinStartsWithFirst(parts, SEPARATOR);
      assert parts[0][0] in {'🌍', '🎵', '🎧', '⭐'};
      assert Join(parts, SEPARATOR)[0] != NO_DETAILS[0];
    }
  }

  /** The footer: "Page p of t • <footer text>" when there is more than one page, else the footer text alone. */
  function Footer(page: int, totalPages: int, footerText: string): (f: string)
    ensures totalPages <= 1 ==> f == footerText
    ensures totalPages > 1 ==> StartsWith(f, "Page ")
    ensures totalPages > 1 ==>
      && StartsWith(f, "Page " + IntToString(page) + " of " + IntToString(totalPages) + " • ")
      && |f| > |footerText| && f[|f| - |footerText|..] == footerText
  {
    if totalPages > 1 then "Page " + IntToString(page) + " of " + IntToString(totalPages) + " • " + footerText
    else footerText
  }

  /** The components of a message: a button, or a single-choice menu. */
  datatype Component =
    | Button(id: string, text: string, disabled: bool)
    | Menu(menuId: string, options: seq<MenuOption>)

  /** An option of a select menu: what is shown and what is sent back. */
  datatype MenuOption = MenuOption(text: string, value: string, description: string)

  /** The navigation row for page p of t. */
  function NavRow(p: int, t: int): seq<Component>
  {
    [ Button("first_page", "⏮️ First", p == 1),
      Button("prev_page", "◀️ Previous", p == 1),
      Button("page_info", "Page " + IntToString(p) + "/" + IntToString(t), true),
      Button("next_page", "▶️ Next", p == t),
      Button("last_page", "⏭️ Last", p == t) ]
  }

  /** The five play buttons: "play_1" … "play_5". */
  function PlayRow(): seq<Component>
  {
    seq(PAGE_SIZE, i requires 0 <= i < PAGE_SIZE => Button("play_" + IntToString(i + 1), "▶️ " + IntToString(i + 1), false))
  }

  /** Stop, info and refresh. */
  function UtilityRow(): seq<Component>
  {
    [Button("stop_audio", "⏹️ Stop", false), Button("now_playing", "ℹ️ Info", false), Button("refresh_search", "🔄 Refresh", false)]
  }

  /** The emoji of a volume option. */
  function VolumeEmoji(v: int): string
  {
    if v <= 15 then "🔈" else if v <= 50 then "🔉" else "🔊"
  }

  /** The option for volume v: shown as "<emoji> v%", sent back as v's digits. */
  function VolumeOption(v: int): MenuOption
  {
    MenuOption(VolumeEmoji(v) + " " + IntToString(v) + "%", IntToString(v), "Set volume to " + IntToString(v) + "%")
  }

  /** `createVolumeSelectMenu`: one option per volume 5, 10, …, 100, in that order. */
  method CreateVolumeSelectMenu() returns (menu: Component)
    ensures menu.Menu? && menu.menuId == "volume_select" && |menu.options| == 20
    ensures forall i :: 0 <= i < 20 ==> menu.options[i] == VolumeOption(5 * (i + 1))
  {
    var options: seq<MenuOption> := [];
    var volume := 5;
    while volume <= 100
      invariant 5 <= volume <= 105 && volume % 5 == 0
      invariant |options| == volume / 5 - 1
      invariant forall i :: 0 <= i < |options| ==> options[i] == VolumeOption(5 * (i + 1))
      decreases 105 - volume
    {
      options := options + [VolumeOption(volume)];
      volume := volume + 5;
    }
    menu := Menu("volume_select", options);
  }

  /**
   * Every option the volume menu offers is a valid volume once parsed: its
   * value reads back as an Int between 5 and 100, the one its label shows.
   */
  lemma VolumeOptionsParse(v: int)
    requires 5 <= v <= 100
    ensures ParseInt(VolumeOption(v).value) == Some(v)
    ensures 0 <= v <= 100
  {
    ParseIntOfIntToString(v);
  }

  /** The rows `createPaginationButtons` returns, given the volume menu. */
  function PaginationRows(p: int, t: int, hasStations: bool, volumeMenu: Component): seq<seq<Component>>
  {
    (if t > 1 then [NavRow(p, t)] else [])
    + (if hasStations then [PlayRow(), UtilityRow(), [volumeMenu]] else [])
  }

  /**
   * `createPaginationButtons`: the navigation row only when there is more than
   * one page, then the play, utility and volume rows only when there are stations.
   */
  method CreatePaginationButtons(p: int, t: int, hasStations: bool) returns (rows: seq<seq<Component>>)
    ensures |rows| <= 4
    ensures |rows| == (if t > 1 then 1 else 0) + (if hasStations then 3 else 0)
    ensures t > 1 ==> rows[0] == NavRow(p, t)
    ensures hasStations ==> rows[|rows| - 3] == PlayRow() && rows[|rows| - 2] == UtilityRow()
    ensures hasStations ==> var m := rows[|rows| - 1];
      |m| == 1 && m[0].Menu? && m[0].menuId == "volume_select" && |m[0].options| == 20
      && forall i :: 0 <= i < 20 ==> m[0].options[i] == VolumeOption(5 * (i + 1))
  {
    rows := [];
    if t > 1 {
      rows := rows + [NavRow(p, t)];
    }
    if hasStations {
      rows := rows + [PlayRow()];
      rows := rows + [UtilityRow()];
      var menu := CreateVolumeSelectMenu();
      rows := rows + [[menu]];
    }
  }

  /** First/previous are disabled exactly on page 1, next/last exactly on the last page; the page label never reacts. */
  lemma NavigationFlags(p: int, t: int)
    ensures NavRow(p, t)[0].disabled <==> p == 1
    ensures NavRow(p, t)[1].disabled <==> p == 1
    ensures NavRow(p, t)[2].disabled
    ensures NavRow(p, t)[3].disabled <==> p == t
    ensures NavRow(p, t)[4].disabled <==> p == t
  {
  }

  /** What the audio-status card shows. */
  datatype StatusCard =
    | NowPlayingCard(name: string, country: string, genre: string, volume: int, bitrate: string, codec: string, rating: string)
    | NotActiveCard(volume: int)

  /** `ifEmpty { fallback }`. */
  function OrElse(s: string, fallback: string): string
  {
    if s == "" then fallback else s
  }

  /** `createAudioStatusEmbed`: the details only while playing and a station is known. */
  function AudioStatus(station: Option<RadioStation>, volume: int, isPlaying: bool): (c: StatusCard)
    ensures c.NowPlayingCard? <==> isPlaying && station.Some?
    ensures c.volume == volume
    ensures c.NowPlayingCard? ==> c.name == station.value.name && c.genre != "" && c.country != ""
  {
    if isPlaying && station.Some? then
      var st := station.value;
      NowPlayingCard(st.name, OrElse(st.country, "Unknown"), OrElse(FirstTwoTags(st.tags), "Not specified"), volume,
                     if st.bitrate > 0 then IntToString(st.bitrate) + " kbps" else "Unknown",
                     OrElse(st.codec, "Unknown"), IntToString(st.votes))
    else NotActiveCard(volume)
  }
}
