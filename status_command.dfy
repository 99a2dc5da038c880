/**
 * `StatusCommand` (`/status player|guild|system`): an admin-only report. The
 * embeds are reduced to the numbers and texts they carry; JVM statistics and
 * the average volume are not modelled. The players come in as the list the
 * audio handler reports, the clock as the current time in seconds.
 */
module StatusCommands {
  import opened Util
  import opened Stations
  import opened Discord
  import opened Admin

  const SECONDS_PER_MINUTE: nat := 60
  const SECONDS_PER_HOUR: nat := 3600
  const SECONDS_PER_DAY: nat := 86400

  /** How many players the player report lists by name. */
  const LISTED_PLAYERS: nat := 10

  // ------------------------------------------------------------ formatDuration

  /** `duration.toDays()`. */
  function Days(s: nat): nat { s / SECONDS_PER_DAY }
  /** `duration.toHours() % 24`. */
  function Hours(s: nat): nat { (s / SECONDS_PER_HOUR) % 24 }
  /** `duration.toMinutes() % 60`. */
  function Minutes(s: nat): nat { (s / SECONDS_PER_MINUTE) % 60 }
  /** `duration.seconds % 60`. */
  function Seconds(s: nat): nat { s % SECONDS_PER_MINUTE }

  /** The four components are in range and add back up to the whole duration. */
  lemma DurationPartsRecompose(s: nat)
    ensures Hours(s) < 24 && Minutes(s) < 60 && Seconds(s) < 60
    ensures Days(s) * SECONDS_PER_DAY + Hours(s) * SECONDS_PER_HOUR + Minutes(s) * SECONDS_PER_MINUTE + Seconds(s) == s
  {
    var a := s / 60;
    var b := a / 60;
    assert s == a * 60 + s % 60;
    assert a == b * 60 + a % 60;
    assert b == (b / 24) * 24 + b % 24;
    assert b == s / 3600 by {
      assert s == b * 3600 + (a % 60) * 60 + s % 60;
      assert 0 <= (a % 60) * 60 + s % 60 < 3600;
    }
    assert b / 24 == s / 86400 by {
      assert s == (b / 24) * 86400 + (b % 24) * 3600 + (a % 60) * 60 + s % 60;
      assert 0 <= (b % 24) * 3600 + (a % 60) * 60 + s % 60 < 86400;
    }
  }

  /** `formatDuration`: the largest non-zero unit and every smaller one; a duration under a minute is seconds only. */
  function FormatDuration(s: nat): string
  {
    var days, hours, minutes, seconds := Days(s), Hours(s), Minutes(s), Seconds(s);
    if days > 0 then NatToString(days) + "d " + NatToString(hours) + "h " + NatToString(minutes) + "m " + NatToString(seconds) + "s"
    else if hours > 0 then NatToString(hours) + "h " + NatToString(minutes) + "m " + NatToString(seconds) + "s"
    else if minutes > 0 then NatToString(minutes) + "m " + NatToString(seconds) + "s"
    else NatToString(seconds) + "s"
  }

  /** One unit of a duration as shown: its number and its letter. */
  datatype Component = Component(value: nat, unit: char)

  /** The seconds one unit letter stands for. */
  function Weight(u: char): nat
  {
    if u == 'd' then SECONDS_PER_DAY
    else if u == 'h' then SECONDS_PER_HOUR
    else if u == 'm' then SECONDS_PER_MINUTE
    else 1
  }

  /** The seconds a list of components stands for. */
  function Total(cs: seq<Component>): nat
    decreases |cs|
  {
    if cs == [] then 0 else cs[0].value * Weight(cs[0].unit) + Total(cs[1..])
  }

  /** The four components of a duration, largest unit first. */
  function Components(s: nat): seq<Component>
  {
    [Component(Days(s), 'd'), Component(Hours(s), 'h'), Component(Minutes(s), 'm'), Component(Seconds(s), 's')]
  }

  /** Leading zero components are not shown; the last one always is. */
  function DropLeadingZeros(cs: seq<Component>): (r: seq<Component>)
    ensures |r| <= |cs| && (cs != [] ==> r != [])
    ensures r == cs[|cs| - |r|..]
    decreases |cs|
  {
    if |cs| > 1 && cs[0].value == 0 then DropLeadingZeros(cs[1..]) else cs
  }

  /** Dropping zero components changes nothing about what they add up to. */
  lemma {:induction false} DropLeadingZerosKeepsTotal(cs: seq<Component>)
    ensures Total(DropLeadingZeros(cs)) == Total(cs)
    decreases |cs|
  {
    if |cs| > 1 && cs[0].value == 0 {
      DropLeadingZerosKeepsTotal(cs[1..]);
    }
  }

  /** How a component is written: the number, then the letter. */
  function Render(cs: seq<Component>): (pieces: seq<string>)
    ensures |pieces| == |cs|
    decreases |cs|
  {
    if cs == [] then [] else [NatToString(cs[0].value) + [cs[0].unit]] + Render(cs[1..])
  }

  /** The components of a duration add up to it. */
  lemma ComponentsTotal(s: nat)
    ensures Total(Components(s)) == s
  {
    DurationPartsRecompose(s);
    var cs := Components(s);
    assert cs[1..] == [cs[1], cs[2], cs[3]];
    assert cs[1..][1..] == [cs[2], cs[3]];
    assert cs[1..][1..][1..] == [cs[3]];
    assert [cs[3]][1..] == [];
    assert Total([cs[3]]) == Seconds(s);
    assert Total(cs[1..][1..]) == Minutes(s) * SECONDS_PER_MINUTE + Seconds(s);
    assert Total(cs[1..]) == Hours(s) * SECONDS_PER_HOUR + Minutes(s) * SECONDS_PER_MINUTE + Seconds(s);
  }

  /** The four-unit text is its four pieces joined by spaces. */
  lemma JoinDays(d: string, h: string, m: string, sec: string)
    ensures d + "d " + h + "h " + m + "m " + sec + "s" == Join([d + "d"] + ([h + "h"] + ([m + "m"] + [sec + "s"])), " ")
  {
    JoinHours(h, m, sec);
    var rest := [h + "h"] + ([m + "m"] + [sec + "s"]);
    assert ([d + "d"] + rest)[1..] == rest;
  }

  /** The three-unit text is its three pieces joined by spaces. */
  lemma JoinHours(h: string, m: string, sec: string)
    ensures h + "h " + m + "m " + sec + "s" == Join([h + "h"] + ([m + "m"] + [sec + "s"]), " ")
  {
    JoinMinutes(m, sec);
    var rest := [m + "m"] + [sec + "s"];
    assert ([h + "h"] + rest)[1..] == rest;
  }

  /** The two-unit text is its two pieces joined by a space. */
  lemma JoinMinutes(m: string, sec: string)
    ensures m + "m " + sec + "s" == Join([m + "m"] + [sec + "s"], " ")
  {
    assert ([m + "m"] + [sec + "s"])[1..] == [sec + "s"];
  }

  /** Rendering the last one, two, three or all four components. */
  lemma RenderComponents(s: nat)
    ensures Render(Components(s)[3..]) == [NatToString(Seconds(s)) + "s"]
    ensures Render(Components(s)[2..]) == [NatToString(Minutes(s)) + "m"] + [NatToString(Seconds(s)) + "s"]
    ensures Render(Components(s)[1..]) == [NatToString(Hours(s)) + "h"] + ([NatToString(Minutes(s)) + "m"] + [NatToString(Seconds(s)) + "s"])
    ensures Render(Components(s)) ==
      [NatToString(Days(s)) + "d"] + ([NatToString(Hours(s)) + "h"] + ([NatToString(Minutes(s)) + "m"] + [NatToString(Seconds(s)) + "s"]))
  {
    var cs := Components(s);
    assert cs[3..][1..] == [];
    assert cs[2..][1..] == cs[3..];
    assert cs[1..][1..] == cs[2..];
  }

  /**
   * `formatDuration` shows the components of the duration from the first
   * non-zero one down to the seconds, which are always shown; the shown
   * components add up to the whole duration.
   */
  lemma FormatDurationShowsComponents(s: nat)
    ensures FormatDuration(s) == Join(Render(DropLeadingZeros(Components(s))), " ")
    ensures Total(DropLeadingZeros(Components(s))) == s
    ensures var shown := DropLeadingZeros(Components(s));
      (shown[0].value > 0 || |shown| == 1) && shown[|shown| - 1] == Component(Seconds(s), 's')
  {
    ComponentsTotal(s);
    DropLeadingZerosKeepsTotal(Components(s));
    RenderComponents(s);
    var cs := Components(s);
    var d, h, m, sec := NatToString(Days(s)), NatToString(Hours(s)), NatToString(Minutes(s)), NatToString(Seconds(s));
    JoinDays(d, h, m, sec);
    JoinHours(h, m, sec);
    JoinMinutes(m, sec);
    if Days(s) == 0 {
      assert DropLeadingZeros(cs) == DropLeadingZeros(cs[1..]);
      if Hours(s) == 0 {
        assert DropLeadingZeros(cs[1..]) == DropLeadingZeros(cs[2..]);
        if Minutes(s) == 0 {
          assert DropLeadingZeros(cs[2..]) == cs[3..];
        }
      }
    }
  }

  // ------------------------------------------------------------ player report

  /** What the report reads of one player. */
  datatype PlayerInfo = PlayerInfo(guildId: string, isPlaying: bool, currentStation: Option<RadioStation>, volume: int)

  /** The player report: totals, the players listed by name, and the footer. */
  datatype PlayerReport = PlayerReport(totalPlayers: nat, playingCount: nat, listed: seq<PlayerInfo>, footer: string)

  /** `activePlayers.count { it.isPlaying }`. */
  function CountPlaying(players: seq<PlayerInfo>): (n: nat)
    ensures n <= |players|
    ensures n == 0 <==> forall i :: 0 <= i < |players| ==> !players[i].isPlaying
    ensures n == |players| <==> forall i :: 0 <= i < |players| ==> players[i].isPlaying
    ensures n == |PlayingIndices(players)|
    decreases |players|
  {
    if players == [] then
      assert PlayingIndices(players) == {};
      0
    else
      var init := players[..|players| - 1];
      var last := |players| - 1;
      assert forall i :: 0 <= i < |init| ==> init[i] == players[i];
      assert PlayingIndices(players) == PlayingIndices(init) + (if players[last].isPlaying then {last} else {});
      CountPlaying(init) + (if players[last].isPlaying then 1 else 0)
  }

  /** The positions of the players that are playing. */
  function PlayingIndices(players: seq<PlayerInfo>): set<int>
  {
    set i | 0 <= i < |players| && players[i].isPlaying
  }

  /** The footer the report would need to name the players left off the list. */
  function MoreNotice(hidden: nat): string
  {
    "Showing " + NatToString(hidden) + " more..."
  }

  /**
   * `handlePlayerSubcommand` as written: the first ten players are listed,
   * and the "Showing N more..." footer set for longer lists is replaced by
   * the version footer before the reply is sent.
   */
  function PlayerStatus(players: seq<PlayerInfo>, footerText: string): (r: PlayerReport)
    ensures r.totalPlayers == |players| && r.playingCount <= r.totalPlayers
    ensures r.playingCount == |PlayingIndices(players)| && r.footer == footerText
    ensures |r.listed| <= LISTED_PLAYERS && r.listed <= players
    ensures |players| <= LISTED_PLAYERS ==> r.listed == players
    ensures |players| > LISTED_PLAYERS ==> |r.listed| == LISTED_PLAYERS
  {
    PlayerReport(|players|, CountPlaying(players), Take(players, LISTED_PLAYERS), footerText)
  }

  /** With eleven players or more, the notice about the unlisted players never reaches the reply. */
  lemma MoreNoticeIsOverwritten(players: seq<PlayerInfo>, footerText: string)
    requires |players| > LISTED_PLAYERS
    requires footerText != MoreNotice(|players| - LISTED_PLAYERS)
    ensures PlayerStatus(players, footerText).footer != MoreNotice(|players| - |PlayerStatus(players, footerText).listed|)
  {
  }

  /** The report with the "more" notice kept for lists longer than ten. */
  function PlayerStatusCorrected(players: seq<PlayerInfo>, footerText: string): (r: PlayerReport)
    ensures r.totalPlayers == |players| && r.playingCount <= r.totalPlayers
    ensures r.playingCount == |PlayingIndices(players)|
    ensures |r.listed| <= LISTED_PLAYERS && r.listed <= players
    ensures |players| <= LISTED_PLAYERS ==> r.listed == players && r.footer == footerText
    ensures |players| > LISTED_PLAYERS ==> r.footer == MoreNotice(|players| - |r.listed|)
  {
    var listed := Take(players, LISTED_PLAYERS);
    PlayerReport(|players|, CountPlaying(players), listed,
      if |players| > LISTED_PLAYERS then MoreNotice(|players| - LISTED_PLAYERS) else footerText)
  }

  /** The corrected footer says how many players are missing from the list: the listed and the noticed ones make up the total. */
  lemma CorrectedNoticeCountsHidden(players: seq<PlayerInfo>, footerText: string, hidden: nat)
    requires |players| > LISTED_PLAYERS
    requires PlayerStatusCorrected(players, footerText).footer == MoreNotice(hidden)
    ensures |PlayerStatusCorrected(players, footerText).listed| + hidden == |players|
  {
    var r := PlayerStatusCorrected(players, footerText);
    var k := |players| - |r.listed|;
    assert MoreNotice(hidden) == MoreNotice(k);
    var a, b := "Showing " + NatToString(hidden), "Showing " + NatToString(k);
    assert a == MoreNotice(hidden)[..|MoreNotice(hidden)| - 8];
    assert b == MoreNotice(k)[..|MoreNotice(k)| - 8];
    assert NatToString(hidden) == a[8..] && NatToString(k) == b[8..];
    DigitsOfNatToString(hidden);
    DigitsOfNatToString(k);
  }

  // ------------------------------------------------------------ the command

  /** What `/status` answers. */
  datatype StatusReply =
    | NoPermission
    | InvalidSubcommand
    | PlayerStatusReply(report: PlayerReport)
    | JdaNotAvailable
    | GuildStatus(totalGuilds: nat)
    | SystemStatus(botUptime: string, adminCount: nat)

  class StatusCommand {
    const adminService: AdminService
    const jda: Option<Gateway>
    /** `Instant.now()` when the command was created, in seconds. */
    const startTime: int

    constructor (adminService: AdminService, jda: Option<Gateway>, now: int)
      ensures this.adminService == adminService && this.jda == jda && startTime == now
    {
      this.adminService := adminService;
      this.jda := jda;
      startTime := now;
    }

    /**
     * `execute`: the admin check comes before anything else; then the
     * subcommand is dispatched, and an unknown or missing one gets the error
     * reply alone. The player subcommand answers with the report as written
     * (PlayerStatus), whose footer is the version footer. Durations are
     * natural numbers of seconds, so the uptime `now - startTime` is taken as
     * non-negative: a wall clock set back below the start time is not modelled.
     */
    function Execute(userId: string, subcommand: Option<string>, players: seq<PlayerInfo>, now: int, footerText: string): (r: StatusReply)
      requires now >= startTime
      ensures !adminService.IsAdmin(userId) ==> r == NoPermission
      ensures adminService.IsAdmin(userId) ==>
        (r == InvalidSubcommand <==> subcommand !in {Some("player"), Some("guild"), Some("system")})
      ensures subcommand == Some("player") && adminService.IsAdmin(userId) ==>
        r.PlayerStatusReply? && r.report.totalPlayers == |players| && r.report.playingCount <= |players|
        && |r.report.listed| <= LISTED_PLAYERS && r.report.footer == footerText
        && r.report == PlayerStatus(players, footerText)
      ensures subcommand == Some("guild") && adminService.IsAdmin(userId) ==>
        if jda.None? then r == JdaNotAvailable else r == GuildStatus(|jda.value.guilds|)
      ensures subcommand == Some("system") && adminService.IsAdmin(userId) ==>
        r.SystemStatus? && r.botUptime == FormatDuration(now - startTime)
        && r.adminCount == |adminService.adminUserIds|
    {
      if !adminService.IsAdmin(userId) then NoPermission
      else if subcommand == Some("player") then PlayerStatusReply(PlayerStatus(players, footerText))
      else if subcommand == Some("guild") then
        if jda.None? then JdaNotAvailable else GuildStatus(|jda.value.guilds|)
      else if subcommand == Some("system") then
        SystemStatus(FormatDuration(now - startTime), adminService.GetAdminCount())
      else InvalidSubcommand
    }
  }
}
