/** The schedule cache (GameManager.swift): one map per league from a
    `yyyy-MM-dd` day key to that day's games, filled by turning a league's
    schedule JSON into game records. The HTTP request and the thread hops
    around it are not modelled: the parsed payload is handed in. */
module Schedule {
  import opened Common
  import opened Teams
  import opened SwiftyJson
  import opened Sorting
  import opened FeedModel

  /** Date handling left to Foundation's formatters. */
  datatype Calendar = Calendar(
    parseTimestamp: string -> Option<int>, // "yyyy-MM-dd'T'HH:mm:ssZZZZZ" in GMT
    dayKey: int -> string,                 // "yyyy-MM-dd"
    clockTime: int -> string)              // "h:mm a"

  /** The team lookup tables, by team name, of each league. */
  datatype TeamTables = TeamTables(nhl: map<string, Team>, mlb: map<string, Team>)

  function TeamTable(tables: TeamTables, league: League): map<string, Team>
  {
    match league
    case NHL => tables.nhl
    case MLB => tables.mlb
  }

  /** What GameManager stores for a game: the state is the display string
      it computes, not a GameState. */
  datatype ScheduledGame = ScheduledGame(
    homeTeam: Team, awayTeam: Team, startTime: int, gameState: string, feeds: seq<Feed>)

  /** A game with its feeds replaced by their identities. */
  datatype GameView = GameView(
    homeTeam: Team, awayTeam: Team, startTime: int, gameState: string, feeds: seq<FeedIdentity>)

  function Identities(feeds: seq<Feed>): (ids: seq<FeedIdentity>)
    ensures |ids| == |feeds|
  {
    seq(|feeds|, i requires 0 <= i < |feeds| => feeds[i].Identity())
  }

  lemma IdentitiesSnoc(feeds: seq<Feed>, feed: Feed)
    ensures Identities(feeds + [feed]) == Identities(feeds) + [feed.Identity()]
  {
  }

  function View(g: ScheduledGame): GameView
  {
    GameView(g.homeTeam, g.awayTeam, g.startTime, g.gameState, Identities(g.feeds))
  }

  function Views(games: seq<ScheduledGame>): (vs: seq<GameView>)
    ensures |vs| == |games|
  {
    seq(|games|, i requires 0 <= i < |games| => View(games[i]))
  }

  function StartTimeOf(g: ScheduledGame): int
  {
    g.startTime
  }

  /** Every feed object the games hold. */
  function FeedSet(games: seq<ScheduledGame>): (fs: set<Feed>)
    ensures forall g, f :: g in games && f in g.feeds ==> f in fs
  {
    set g, f | g in games && f in g.feeds :: f
  }

  /** No feed of the games has fetched a playlist list or recorded a CDN, as
      for a feed straight out of `Feed(...)`. */
  predicate Unfetched(games: seq<ScheduledGame>)
    reads FeedSet(games)
  {
    forall f :: f in FeedSet(games) ==> f.feedPlaylists.None? && f.lastCDN.None?
  }

  lemma FeedSetSnoc(games: seq<ScheduledGame>, g: ScheduledGame)
    ensures FeedSet(games + [g]) == FeedSet(games) + set f | f in g.feeds
  {
    var a := games + [g];
    forall x | x in a
      ensures x in games || x == g
    {
    }
  }

  /** The outcome of a reload, as the callbacks see it. */
  datatype Reply = Delivered(games: seq<ScheduledGame>) | Failed(message: string) | NoReply

  const NoGamesMessage: string := "There are no games today."

  // ---------------------------------------------------------------------
  // Reading one game out of the schedule JSON
  // ---------------------------------------------------------------------

  function HomeTeamName(g: Json): string
  {
    StringValue(Path(g, ["teams", "home", "team", "teamName"]))
  }

  function AwayTeamName(g: Json): string
  {
    StringValue(Path(g, ["teams", "away", "team", "teamName"]))
  }

  /** `content.media.epg[0].items`, or nothing when `epg` is not a non-empty array. */
  function FeedItems(g: Json): seq<Json>
  {
    match ArrayOpt(Path(g, ["content", "media", "epg"]))
    case None => []
    case Some(media) => if |media| > 0 then ArrayValue(Member(media[0], "items")) else []
  }

  /** NHL names a feed's playback id `mediaPlaybackId`, MLB `id`. */
  function PlaybackIdKey(league: League): string
  {
    match league
    case NHL => "mediaPlaybackId"
    case MLB => "id"
  }

  /** The feed an EPG item becomes (Feed's initialiser normalises the type). */
  function FeedOf(item: Json, league: League, date: string): FeedIdentity
  {
    FeedIdentity(NormalizeFeedType(StringValue(Member(item, "mediaFeedType"))),
                 StringValue(Member(item, "callLetters")),
                 StringValue(Member(item, "feedName")),
                 IntValue(Member(item, PlaybackIdKey(league))),
                 league, date)
  }

  /** One feed per item, in item order. */
  function FeedsOf(items: seq<Json>, league: League, date: string): (ids: seq<FeedIdentity>)
    ensures |ids| == |items|
  {
    seq(|items|, i requires 0 <= i < |items| => FeedOf(items[i], league, date))
  }

  lemma FeedsOfSnoc(items: seq<Json>, k: int, league: League, date: string)
    requires 0 <= k < |items|
    ensures FeedsOf(items[..k + 1], league, date) == FeedsOf(items[..k], league, date) + [FeedOf(items[k], league, date)]
  {
    assert items[..k + 1] == items[..k] + [items[k]];
  }

  /** The NHL state string, chosen by `status.abstractGameState`. */
  function NhlStateText(g: Json, startTime: int, clockTime: int -> string): string
  {
    match StringValue(Path(g, ["status", "abstractGameState"]))
    case "Preview" => clockTime(startTime)
    case "Live" =>
      StringValue(Path(g, ["linescore", "currentPeriodOrdinal"])) + " \U{2013} " +
      StringValue(Path(g, ["linescore", "currentPeriodTimeRemaining"]))
    case "Final" => "Final"
    case _ => ""
  }

  /** The MLB state string, chosen by `status.detailedState`; an
      unrecognised state is shown as it is. */
  function MlbStateText(g: Json, startTime: int, clockTime: int -> string): string
  {
    var detailed := StringValue(Path(g, ["status", "detailedState"]));
    match detailed
    case "Preview" => clockTime(startTime)
    case "In Progress" =>
      StringValue(Path(g, ["linescore", "currentInningOrdinal"])) + " \U{2013} " +
      StringValue(Path(g, ["linescore", "inningHalf"]))
    case "Final" => "Final"
    case _ => detailed
  }

  function StateText(league: League, g: Json, startTime: int, clockTime: int -> string): string
  {
    match league
    case NHL => NhlStateText(g, startTime, clockTime)
    case MLB => MlbStateText(g, startTime, clockTime)
  }

  /** The game a JSON entry becomes, if both teams are in the table and the
      start time parses; otherwise the entry is dropped. */
  function GameViewOf(league: League, g: Json, table: map<string, Team>, calendar: Calendar, date: string)
    : Option<GameView>
  {
    var start := calendar.parseTimestamp(StringValue(Member(g, "gameDate")));
    if HomeTeamName(g) in table && AwayTeamName(g) in table && start.Some? then
      Some(GameView(table[HomeTeamName(g)], table[AwayTeamName(g)], start.value,
                    StateText(league, g, start.value, calendar.clockTime),
                    FeedsOf(FeedItems(g), league, date)))
    else None
  }

  /** An entry is dropped exactly when a team is unknown or its start time
      does not parse; a kept entry has the looked-up teams and the parsed
      start. */
  lemma GameViewOfKeeps(league: League, g: Json, table: map<string, Team>, calendar: Calendar, date: string)
    ensures var r := GameViewOf(league, g, table, calendar, date);
      && (r.None? <==>
            HomeTeamName(g) !in table || AwayTeamName(g) !in table ||
            calendar.parseTimestamp(StringValue(Member(g, "gameDate"))).None?)
      && (r.Some? ==>
            && r.value.homeTeam == table[HomeTeamName(g)]
            && r.value.awayTeam == table[AwayTeamName(g)]
            && Some(r.value.startTime) == calendar.parseTimestamp(StringValue(Member(g, "gameDate"))))
  {
  }

  /** A kept entry has one feed per EPG item, each carrying the item's
      playback id, the league and the schedule's day key. */
  lemma GameViewOfFeeds(league: League, g: Json, table: map<string, Team>, calendar: Calendar, date: string)
    requires GameViewOf(league, g, table, calendar, date).Some?
    ensures var feeds := GameViewOf(league, g, table, calendar, date).value.feeds;
      && |feeds| == |FeedItems(g)|
      && forall k :: 0 <= k < |feeds| ==>
           && feeds[k].playbackID == IntValue(Member(FeedItems(g)[k], PlaybackIdKey(league)))
           && feeds[k].league == league
           && feeds[k].gameDate == date
  {
  }

  /** The games of a list of JSON entries, in entry order. */
  function GamesOf(league: League, entries: seq<Json>, table: map<string, Team>, calendar: Calendar, date: string)
    : seq<GameView>
  {
    if entries == [] then []
    else
      var last := GameViewOf(league, entries[|entries| - 1], table, calendar, date);
      GamesOf(league, entries[..|entries| - 1], table, calendar, date) +
        (if last.Some? then [last.value] else [])
  }

  /** Entries are converted one by one: the games of a concatenation are
      the concatenation of the games. */
  lemma {:induction false} GamesOfAppend(league: League, a: seq<Json>, b: seq<Json>,
                                         table: map<string, Team>, calendar: Calendar, date: string)
    ensures GamesOf(league, a + b, table, calendar, date) ==
            GamesOf(league, a, table, calendar, date) + GamesOf(league, b, table, calendar, date)
    decreases |b|
  {
    if b != [] {
      var b0 := b[..|b| - 1];
      var last := GameViewOf(league, b[|b| - 1], table, calendar, date);
      var tail := if last.Some? then [last.value] else [];
      assert (a + b)[..|a + b| - 1] == a + b0;
      assert (a + b)[|a + b| - 1] == b[|b| - 1];
      assert GamesOf(league, a + b, table, calendar, date) == GamesOf(league, a + b0, table, calendar, date) + tail;
      assert GamesOf(league, b, table, calendar, date) == GamesOf(league, b0, table, calendar, date) + tail;
      GamesOfAppend(league, a, b0, table, calendar, date);
    } else {
      assert a + b == a;
    }
  }

  lemma GamesOfSingle(league: League, g: Json, table: map<string, Team>, calendar: Calendar, date: string)
    ensures var v := GameViewOf(league, g, table, calendar, date);
            GamesOf(league, [g], table, calendar, date) == if v.Some? then [v.value] else []
  {
    assert [g][..0] == [];
  }

  /** One more entry adds its game, if it has one. */
  lemma GamesOfStep(league: League, entries: seq<Json>, i: int,
                    table: map<string, Team>, calendar: Calendar, date: string)
    requires 0 <= i < |entries|
    ensures var v := GameViewOf(league, entries[i], table, calendar, date);
      GamesOf(league, entries[..i + 1], table, calendar, date) ==
      GamesOf(league, entries[..i], table, calendar, date) + (if v.Some? then [v.value] else [])
  {
    assert entries[..i + 1][..i] == entries[..i];
    assert entries[..i + 1][i] == entries[i];
  }

  /** An entry that cannot be converted is dropped without disturbing the
      entries around it. */
  lemma DroppedEntryLeavesRest(league: League, a: seq<Json>, bad: Json, b: seq<Json>,
                               table: map<string, Team>, calendar: Calendar, date: string)
    requires HomeTeamName(bad) !in table || AwayTeamName(bad) !in table ||
             calendar.parseTimestamp(StringValue(Member(bad, "gameDate"))).None?
    ensures GamesOf(league, a + [bad] + b, table, calendar, date) ==
            GamesOf(league, a, table, calendar, date) + GamesOf(league, b, table, calendar, date)
  {
    GamesOfAppend(league, a + [bad], b, table, calendar, date);
    GamesOfAppend(league, a, [bad], table, calendar, date);
    GamesOfSingle(league, bad, table, calendar, date);
  }

  // ---------------------------------------------------------------------
  // Which way a payload goes
  // ---------------------------------------------------------------------

  datatype Route = GameList(entries: seq<Json>) | NoGames | Silent

  /** NHL: with a positive `totalItems` and a `dates` array whose first
      element has a `games` array, those games; with `totalItems` present
      but not positive, or no `dates` array, the "no games" error; else
      nothing at all. */
  function NhlRoute(payload: Json): Route
  {
    var j := DictionaryValue(payload);
    match (if "totalItems" in j then IntOpt(j["totalItems"]) else None)
    case None => Silent
    case Some(numGames) =>
      var dates := if "dates" in j then ArrayOpt(j["dates"]) else None;
      if numGames > 0 && dates.Some? then
        var games := if |dates.value| > 0 then Lookup(DictionaryValue(dates.value[0]), "games") else None;
        if games.Some? && ArrayOpt(games.value).Some? then GameList(ArrayOpt(games.value).value) else Silent
      else NoGames
  }

  /** MLB: an unreadable payload, a missing or non-positive `totalItems`, or
      no `dates[0].games` array all end the reload without a word. */
  function MlbRoute(payload: Option<Json>): Route
  {
    match payload
    case None => Silent
    case Some(p) =>
      var j := DictionaryValue(p);
      var total := if "totalItems" in j then IntOpt(j["totalItems"]) else None;
      if total.None? || total.value <= 0 then Silent
      else if "dates" in j && ArrayOpt(Member(At(j["dates"], 0), "games")).Some? then
        GameList(ArrayOpt(Member(At(j["dates"], 0), "games")).value)
      else Silent
  }

  /** `totalItems` decides between the error and silence. */
  lemma RouteOnTotalItems(payload: Json, n: int)
    ensures payload.JObj? && "totalItems" !in payload.fields ==> NhlRoute(payload) == Silent
    ensures payload.JObj? && "totalItems" in payload.fields && payload.fields["totalItems"] == JNum(n) && n <= 0 ==>
            NhlRoute(payload) == NoGames
    ensures payload.JObj? && "totalItems" in payload.fields && payload.fields["totalItems"] == JNum(n) && n <= 0 ==>
            MlbRoute(Some(payload)) == Silent
    ensures !payload.JObj? ==> NhlRoute(payload) == Silent && MlbRoute(Some(payload)) == Silent
  {
  }

  lemma ViewsAppend(a: seq<ScheduledGame>, b: seq<ScheduledGame>)
    ensures Views(a + b) == Views(a) + Views(b)
  {
  }

  lemma ViewsSnoc(a: seq<ScheduledGame>, g: ScheduledGame)
    ensures Views(a + [g]) == Views(a) + [View(g)]
  {
    ViewsAppend(a, [g]);
    assert Views([g]) == [View(g)];
  }

  /** Reordering games reorders their views the same way. */
  lemma {:induction false} ViewsPermutation(a: seq<ScheduledGame>, b: seq<ScheduledGame>)
    requires multiset(a) == multiset(b)
    ensures multiset(Views(a)) == multiset(Views(b))
    decreases |a|
  {
    if |a| == 0 {
      assert |multiset(b)| == 0;
    } else {
      var x := a[0];
      assert x in multiset(b);
      var k :| 0 <= k < |b| && b[k] == x;
      var rest := b[..k] + b[k + 1..];
      assert b == b[..k] + [x] + b[k + 1..];
      assert a == [x] + a[1..];
      assert multiset(b) == multiset(b[..k]) + multiset{x} + multiset(b[k + 1..]);
      assert multiset(a) == multiset{x} + multiset(a[1..]);
      assert multiset(rest) == multiset(b[..k]) + multiset(b[k + 1..]);
      assert multiset(a[1..]) == multiset(a) - multiset{x};
      assert multiset(rest) == multiset(b) - multiset{x};
      ViewsPermutation(a[1..], rest);
      ViewsAppend([x], a[1..]);
      ViewsAppend(b[..k], [x]);
      ViewsAppend(b[..k] + [x], b[k + 1..]);
      ViewsAppend(b[..k], b[k + 1..]);
    }
  }

  /** The MLB sort, `startTime >=` as the comparator: latest game first. */
  method SortByStartTime(games: seq<ScheduledGame>) returns (sorted: seq<ScheduledGame>)
    ensures NonIncreasing(sorted, StartTimeOf)
    ensures multiset(sorted) == multiset(games)
    ensures multiset(Views(sorted)) == multiset(Views(games))
    ensures FeedSet(sorted) == FeedSet(games)
  {
    var buffer := new ScheduledGame[|games|](i requires 0 <= i < |games| => games[i]);
    assert buffer[..] == games;
    SortDescending(buffer, StartTimeOf);
    sorted := buffer[..];
    ViewsPermutation(sorted, games);
    forall g
      ensures g in sorted <==> g in games
    {
      assert g in sorted <==> g in multiset(sorted);
      assert g in games <==> g in multiset(games);
    }
    assert FeedSet(sorted) == FeedSet(games);
  }

  // ---------------------------------------------------------------------
  // The manager
  // ---------------------------------------------------------------------

  class GameManager {
    var nhlGames: map<string, seq<ScheduledGame>>
    var mlbGames: map<string, seq<ScheduledGame>>
    const calendar: Calendar
    const teams: TeamTables

    constructor (calendar: Calendar, teams: TeamTables)
      ensures nhlGames == map[] && mlbGames == map[]
      ensures this.calendar == calendar && this.teams == teams
    {
      nhlGames := map[];
      mlbGames := map[];
      this.calendar := calendar;
      this.teams := teams;
    }

    function Cache(league: League): map<string, seq<ScheduledGame>>
      reads this
    {
      match league
      case NHL => nhlGames
      case MLB => mlbGames
    }

    /** `getGames`: the league's own entry for the day, if any. */
    function GetGames(date: int, league: League): (r: Option<seq<ScheduledGame>>)
      reads this
      ensures r.Some? <==> calendar.dayKey(date) in Cache(league)
      ensures r.Some? ==> r.value == Cache(league)[calendar.dayKey(date)]
    {
      var key := calendar.dayKey(date);
      match league
      case NHL => if key in nhlGames then Some(nhlGames[key]) else None
      case MLB => if key in mlbGames then Some(mlbGames[key]) else None
    }

    /** The inner loop: one feed object per EPG item. */
    method MakeFeeds(items: seq<Json>, league: League, date: string) returns (feeds: seq<Feed>)
      ensures Identities(feeds) == FeedsOf(items, league, date)
      ensures forall f :: f in feeds ==> fresh(f) && f.feedPlaylists.None? && f.lastCDN.None?
    {
      feeds := [];
      for k := 0 to |items|
        invariant Identities(feeds) == FeedsOf(items[..k], league, date)
        invariant forall f :: f in feeds ==> fresh(f) && f.feedPlaylists.None? && f.lastCDN.None?
      {
        var item := items[k];
        var feed := new Feed(StringValue(Member(item, "mediaFeedType")),
                             StringValue(Member(item, "callLetters")),
                             StringValue(Member(item, "feedName")),
                             IntValue(Member(item, PlaybackIdKey(league))),
                             league, date);
        FeedsOfSnoc(items, k, league, date);
        IdentitiesSnoc(feeds, feed);
        feeds := feeds + [feed];
      }
      assert items[..|items|] == items;
    }

    /** The body of the outer loop: the game one entry becomes, if any. */
    method ConvertGame(league: League, jsonGame: Json, date: string) returns (game: Option<ScheduledGame>)
      ensures var v := GameViewOf(league, jsonGame, TeamTable(teams, league), calendar, date);
        && (game.Some? <==> v.Some?)
        && (game.Some? ==> View(game.value) == v.value)
      ensures game.Some? ==> forall f :: f in game.value.feeds ==> fresh(f) && f.feedPlaylists.None? && f.lastCDN.None?
    {
      var table := TeamTable(teams, league);
      var homeName := HomeTeamName(jsonGame);
      var awayName := AwayTeamName(jsonGame);
      var gameDate := calendar.parseTimestamp(StringValue(Member(jsonGame, "gameDate")));
      if homeName in table && awayName in table && gameDate.Some? {
        var gameFeeds := MakeFeeds(FeedItems(jsonGame), league, date);
        var gameState := StateText(league, jsonGame, gameDate.value, calendar.clockTime);
        game := Some(ScheduledGame(table[homeName], table[awayName], gameDate.value, gameState, gameFeeds));
      } else {
        game := None;
      }
    }

    /** The outer loop: one game per convertible entry, in entry order. */
    method ConvertGames(league: League, entries: seq<Json>, date: string) returns (games: seq<ScheduledGame>)
      ensures Views(games) == GamesOf(league, entries, TeamTable(teams, league), calendar, date)
      ensures fresh(FeedSet(games)) && Unfetched(games)
    {
      ghost var table := TeamTable(teams, league);
      games := [];
      for i := 0 to |entries|
        invariant Views(games) == GamesOf(league, entries[..i], table, calendar, date)
        invariant fresh(FeedSet(games)) && Unfetched(games)
      {
        var game := ConvertGame(league, entries[i], date);
        GamesOfStep(league, entries, i, table, calendar, date);
        if game.Some? {
          ViewsSnoc(games, game.value);
          FeedSetSnoc(games, game.value);
          games := games + [game.value];
        }
      }
      assert entries[..|entries|] == entries;
    }

    /** `getNHLGames`: replaces the day's NHL entry wholesale, reports "no
        games", or does nothing; the MLB map is never touched. */
    method GetNHLGames(date: string, payload: Json) returns (reply: Reply)
      modifies this
      ensures mlbGames == old(mlbGames)
      ensures NhlRoute(payload).GameList? ==>
        && reply.Delivered?
        && nhlGames == old(nhlGames)[date := reply.games]
        && Views(reply.games) == GamesOf(NHL, NhlRoute(payload).entries, teams.nhl, calendar, date)
      ensures NhlRoute(payload).NoGames? ==> reply == Failed(NoGamesMessage) && nhlGames == old(nhlGames)
      ensures NhlRoute(payload).Silent? ==> reply == NoReply && nhlGames == old(nhlGames)
      ensures reply.Delivered? ==> fresh(FeedSet(reply.games)) && Unfetched(reply.games)
    {
      var j := DictionaryValue(payload);
      reply := NoReply;
      if "totalItems" in j && IntOpt(j["totalItems"]).Some? {
        var numGames := IntOpt(j["totalItems"]).value;
        if numGames > 0 && "dates" in j && ArrayOpt(j["dates"]).Some? {
          var dates := ArrayOpt(j["dates"]).value;
          if |dates| > 0 && "games" in DictionaryValue(dates[0]) &&
             ArrayOpt(DictionaryValue(dates[0])["games"]).Some? {
            var jsonGames := ArrayOpt(DictionaryValue(dates[0])["games"]).value;
            var newGames := ConvertGames(NHL, jsonGames, date);
            nhlGames := nhlGames[date := newGames];
            reply := Delivered(newGames);
          }
        } else {
          reply := Failed(NoGamesMessage);
        }
      }
    }

    /** `getMLBGames`: as for NHL, but every early exit is silent and the
        games are sorted latest first before they are stored. */
    method GetMLBGames(date: string, payload: Option<Json>) returns (reply: Reply)
      modifies this
      ensures nhlGames == old(nhlGames)
      ensures MlbRoute(payload).GameList? ==>
        && reply.Delivered?
        && mlbGames == old(mlbGames)[date := reply.games]
        && NonIncreasing(reply.games, StartTimeOf)
        && multiset(Views(reply.games)) ==
           multiset(GamesOf(MLB, MlbRoute(payload).entries, teams.mlb, calendar, date))
      ensures !MlbRoute(payload).GameList? ==> reply == NoReply && mlbGames == old(mlbGames)
      ensures reply.Delivered? ==> fresh(FeedSet(reply.games)) && Unfetched(reply.games)
    {
      reply := NoReply;
      if payload.None? {
        return;
      }
      var mlbJSON := DictionaryValue(payload.value);
      if !("totalItems" in mlbJSON && IntOpt(mlbJSON["totalItems"]).Some? && IntOpt(mlbJSON["totalItems"]).value > 0) {
        return;
      }
      if !("dates" in mlbJSON && ArrayOpt(Member(At(mlbJSON["dates"], 0), "games")).Some?) {
        return;
      }
      var mlbGamesJSON := ArrayOpt(Member(At(mlbJSON["dates"], 0), "games")).value;
      assert MlbRoute(payload) == GameList(mlbGamesJSON);
      var newGames := ConvertGames(MLB, mlbGamesJSON, date);
      newGames := SortByStartTime(newGames);
      mlbGames := mlbGames[date := newGames];
      reply := Delivered(newGames);
    }

    /** `reloadGames`: dispatches on the league with the day key of `date`.
        An NHL payload must be readable JSON (the NHL path force-unwraps it). */
    method ReloadGames(date: int, league: League, payload: Option<Json>) returns (reply: Reply)
      requires league == NHL ==> payload.Some?
      modifies this
      ensures Cache(if league == NHL then MLB else NHL) == old(Cache(if league == NHL then MLB else NHL))
      ensures reply.Delivered? ==> GetGames(date, league) == Some(reply.games)
      ensures reply.Delivered? ==>
        Cache(league) == old(Cache(league))[calendar.dayKey(date) := reply.games]
      ensures !reply.Delivered? ==> Cache(league) == old(Cache(league))
      ensures league == NHL && NhlRoute(payload.value).GameList? ==>
        && reply.Delivered?
        && Views(reply.games) ==
           GamesOf(NHL, NhlRoute(payload.value).entries, teams.nhl, calendar, calendar.dayKey(date))
      ensures league == NHL && NhlRoute(payload.value).NoGames? ==> reply == Failed(NoGamesMessage)
      ensures league == NHL && NhlRoute(payload.value).Silent? ==> reply == NoReply
      ensures league == MLB && MlbRoute(payload).GameList? ==>
        && reply.Delivered?
        && NonIncreasing(reply.games, StartTimeOf)
        && multiset(Views(reply.games)) ==
           multiset(GamesOf(MLB, MlbRoute(payload).entries, teams.mlb, calendar, calendar.dayKey(date)))
      ensures league == MLB && !MlbRoute(payload).GameList? ==> reply == NoReply
      ensures reply.Delivered? ==> fresh(FeedSet(reply.games)) && Unfetched(reply.games)
    {
      var key := calendar.dayKey(date);
      match league
      case NHL => reply := GetNHLGames(key, payload.value);
      case MLB => reply := GetMLBGames(key, payload);
    }
  }

  /** The scenario of a live NHL game in its second period. */
  lemma NhlLiveStateText(startTime: int, clockTime: int -> string)
    ensures var g := JObj(map[
              "status" := JObj(map["abstractGameState" := JStr("Live")]),
              "linescore" := JObj(map["currentPeriodOrdinal" := JStr("2nd"),
                                      "currentPeriodTimeRemaining" := JStr("05:23")])]);
            NhlStateText(g, startTime, clockTime) == "2nd \U{2013} 05:23"
  {
    var status := JObj(map["abstractGameState" := JStr("Live")]);
    var linescore := JObj(map["currentPeriodOrdinal" := JStr("2nd"),
                              "currentPeriodTimeRemaining" := JStr("05:23")]);
    var g := JObj(map["status" := status, "linescore" := linescore]);
    TwoStepPath(g, "status", "abstractGameState");
    TwoStepPath(g, "linescore", "currentPeriodOrdinal");
    TwoStepPath(g, "linescore", "currentPeriodTimeRemaining");
  }

  /** `json[a][b]`. */
  lemma TwoStepPath(g: Json, a: string, b: string)
    ensures Path(g, [a, b]) == Member(Member(g, a), b)
  {
    assert [a, b][1..] == [b];
    assert Path(g, [a, b]) == Path(Member(g, a), [b]);
    assert [b][1..] == [];
    assert Path(Member(g, a), [b]) == Path(Member(Member(g, a), b), []);
  }

  /** Every branch of the NHL state switch: the clock time for a preview, the
      period ordinal and the time remaining for a live game, "Final" for a
      finished one, and a blank for any other abstract state. */
  lemma NhlStateTexts(g: Json, startTime: int, clockTime: int -> string)
    ensures var a := StringValue(Path(g, ["status", "abstractGameState"]));
            && (a == "Preview" ==> NhlStateText(g, startTime, clockTime) == clockTime(startTime))
            && (a == "Live" ==>
                  NhlStateText(g, startTime, clockTime) ==
                  StringValue(Path(g, ["linescore", "currentPeriodOrdinal"])) + " \U{2013} " +
                  StringValue(Path(g, ["linescore", "currentPeriodTimeRemaining"])))
            && (a == "Final" ==> NhlStateText(g, startTime, clockTime) == "Final")
            && (a !in {"Preview", "Live", "Final"} ==> NhlStateText(g, startTime, clockTime) == "")
  {
  }

  /** Every branch of the MLB state switch: the clock time for a preview, the
      inning ordinal and half for a game in progress, "Final" for a finished
      one, and any other detailed state (such as "Postponed") as it is. */
  lemma MlbStateTexts(g: Json, startTime: int, clockTime: int -> string)
    ensures var d := StringValue(Path(g, ["status", "detailedState"]));
            && (d == "Preview" ==> MlbStateText(g, startTime, clockTime) == clockTime(startTime))
            && (d == "In Progress" ==>
                  MlbStateText(g, startTime, clockTime) ==
                  StringValue(Path(g, ["linescore", "currentInningOrdinal"])) + " \U{2013} " +
                  StringValue(Path(g, ["linescore", "inningHalf"])))
            && (d == "Final" ==> MlbStateText(g, startTime, clockTime) == "Final")
            && (d !in {"Preview", "In Progress", "Final"} ==> MlbStateText(g, startTime, clockTime) == d)
    ensures StringValue(Path(g, ["status", "detailedState"])) == "Postponed" ==>
            MlbStateText(g, startTime, clockTime) == "Postponed"
  {
  }
}
