# LazyMan schedule and stream core, in Dafny

This project models the core of LazyMan for iOS, an app that lists the
day's NHL and MLB games and resolves a playable HLS stream for each
broadcast feed. It covers these parts:

- **Teams and leagues** (`teams.dfy`, module `Teams`). A team is a value.
  Its name is "location shortName". Team `==` and `<` look at the name
  only. The favourites list of every league is hard-wired to nil.
- **CDNs** (`cdn.dfy`, module `Cdn`). The two content-delivery networks,
  with their URL suffixes and titles.
- **Games** (`game.dfy`, module `GameModel`):
  - the `GameState` enum and its raw values;
  - the classifier from two status strings and a "start time TBD" flag;
  - the failable `Game` initialiser and the display text;
  - game `<` and `==`.
- **Feeds** (`feed.dfy`, module `FeedModel`). A broadcast feed:
  - how its type is normalised and how it is titled;
  - the redirect URLs tried for its stream;
  - the variant list built from the multivariant playlist (RFC 8216,
    section 4.3.4.2), sorted by bandwidth and cached on the feed object.
- **The schedule cache** (`schedule.dfy`, module `Schedule`, class
  `GameManager`). It keeps one map per league, from a `yyyy-MM-dd` day key
  to that day's games. A reload turns the league's schedule JSON into game
  records:
  - one feed object per EPG item;
  - a state string per league;
  - MLB games sorted latest first.
- **Support modules**:
  - `json.dfy` (module `SwiftyJson`): the SwiftyJSON accessors the cache
    uses, over a JSON tree.
  - `sorting.dfy` (module `Sorting`): the in-place descending sort both
    list builders rely on.
  - `common.dfy` (module `Common`): Swift's string `<`, `Int` to decimal
    text, and substring search.

Objects the app mutates are Dafny classes with `modifies` clauses:
- `Feed`, whose playlist cache changes;
- `GameManager`, whose two maps change.

The loops that build lists are methods with loop invariants, proved
against specification functions:
- the variant loop of `getFeedPlaylists`;
- the game and feed loops of `getNHLGames` and `getMLBGames`.

Anything that touches the outside world is passed in as a function:
- the network, and URL parsing;
- the HLS parser, and relative-URL resolution;
- the date formatters.

`TeamManager`'s two team tables are handed to the manager's constructor
as values.

Three behaviours of the code worth knowing:
- MLB game states do not pass through the `GameState` classifier.
  `getMLBGames` switches on `detailedState` itself and shows any unknown
  state verbatim.
- "Auto" is not always the first variant. Swift's `sort` leaves the order
  of ties open, and "Auto" has no bandwidth, so it sorts as `Int.max`. A
  rendition that reports no bandwidth (or exactly `Int.max`) can stand
  before it (`AutoCanComeSecond`). If every parsed entry reports a
  bandwidth below `Int.max`, "Auto" is first (`AutoFirstWhenBandwidthsKnown`).
- Game `<` is not a strict total order:
  - Two final games are never ordered.
  - Once a favourite team is involved, `<` answers "does the left game
    have a favourite", so such a game is less than itself.
  - With the favourites list nil, as shipped, `<` is a strict weak order.

## Model

| member | source | states |
|---|---|---|
| Common.StringLess | LazyMan-iOS/Models/Teams.swift:36-38 | Swift's string `<`, character by character, a proper prefix first; its order properties are the three lemmas below |
| Common.StringLessIrreflexive | LazyMan-iOS/Models/Teams.swift:36-38 | no name is `<` itself under Swift's string order |
| Common.StringLessTransitive | LazyMan-iOS/Models/Teams.swift:36-38 | string `<` is transitive |
| Common.StringLessTrichotomy | LazyMan-iOS/Models/Teams.swift:36-38 | any two strings are equal or ordered one way |
| Common.IntToString | LazyMan-iOS/Feed.swift:181 | `String(playbackID)` is canonical decimal text: digits after an optional '-' that appears exactly for negative ids, no leading zero except "0" itself, and "0" exactly for 0 |
| Common.NatToString | LazyMan-iOS/Feed.swift:181 | the decimal text of a non-negative id: digits only, starting with '0' exactly for 0, with no leading zero |
| Common.NatToStringValue | LazyMan-iOS/Feed.swift:181 | the decimal digits of a non-negative id read back as the id |
| Common.ParseInt | LazyMan-iOS/GameManager.swift:107 | `intValue` of a decimal string: an optionally signed run of digits read as a number, anything else nothing; `IntToStringRoundTrip` shows it inverts `IntToString` |
| Common.IntToStringRoundTrip | LazyMan-iOS/Feed.swift:181 | the id text in a redirect URL parses back to the playback id (`FeedModel.DistinctIdsGiveDistinctUrls` turns this into distinct URLs for distinct ids) |
| Common.Contains | LazyMan-iOS/Models/Game.swift:18 | `String.contains` answers true exactly when the word occurs at some position |
| Teams.LeagueRawValue | LazyMan-iOS/Models/Teams.swift:11-13 | a league's raw value is three characters long; the values themselves are in `Teams.LeagueLiterals` |
| Teams.LeagueLiterals | LazyMan-iOS/Models/Teams.swift:11-12 | the raw values are "NHL" and "MLB" |
| Teams.LeagueFromRawValue | LazyMan-iOS/Models/Teams.swift:11-13 | `League(rawValue:)` only accepts a raw value of the league it returns |
| Teams.LeagueRawValueRoundTrip | LazyMan-iOS/Models/Teams.swift:11-13 | reading a league's raw value back gives the league |
| Teams.Favorites | LazyMan-iOS/Models/Teams.swift:15-19 | every league's favourites list is nil |
| Teams.Name | LazyMan-iOS/Models/Teams.swift:26-28 | the name is the location, one space, then the short name |
| Teams.SameTeam | LazyMan-iOS/Models/Teams.swift:40-42 | team `==`: the names are equal |
| Teams.TeamLess | LazyMan-iOS/Models/Teams.swift:36-38 | team `<`: Swift's string `<` on the names |
| Teams.IsFavoriteAmong | LazyMan-iOS/Models/Teams.swift:30-32 | `favorites?.contains(self) ?? false` for a given list: false for no list, else some listed team is `==` this one |
| Teams.IsFavorite | LazyMan-iOS/Models/Teams.swift:30-32 | `isFavorite`: membership in the team's own league's favourites list |
| Teams.NoTeamIsFavorite | LazyMan-iOS/Models/Teams.swift:30-32 | `isFavorite` is false for every team |
| Teams.SameTeamIgnoresOtherFields | LazyMan-iOS/Models/Teams.swift:40-42 | team `==` holds iff the names agree, whatever the abbreviation and league |
| Teams.NameSplitIsAmbiguous | LazyMan-iOS/Models/Teams.swift:40-42 | teams with different locations can be `==` ("New York"/"Rangers" and "New"/"York Rangers") |
| Teams.TeamLessIsStrictOrder | LazyMan-iOS/Models/Teams.swift:35-42 | team `<` is irreflexive and transitive, any two teams are `==` or ordered, and `==` teams are not ordered |
| Cdn.RawValue | LazyMan-iOS/Models/CDN.swift:11-12 | each raw value is a three-character URL suffix |
| Cdn.Title | LazyMan-iOS/Models/CDN.swift:14-21 | every CDN has a non-empty title |
| Cdn.Literals | LazyMan-iOS/Models/CDN.swift:11-21 | Akamai is "akc" titled "Akamai"; Level3 is "l3c" titled "Level 3" |
| Cdn.AllCases | LazyMan-iOS/Models/CDN.swift:11 | `allCases` has two distinct entries |
| Cdn.AllCasesComplete | LazyMan-iOS/Models/CDN.swift:11 | every CDN is listed in `allCases` |
| Cdn.AllCasesInDeclarationOrder | LazyMan-iOS/Models/CDN.swift:11-12 | `allCases` is Akamai then Level 3, without repetition |
| Cdn.FromRawValue | LazyMan-iOS/Models/CDN.swift:11-12 | `CDN(rawValue:)` only accepts the raw value of the CDN it returns |
| Cdn.RawValueRoundTrip | LazyMan-iOS/Models/CDN.swift:11-12 | raw values are distinct and read back to their case |
| Sorting.SortDescending | LazyMan-iOS/Feed.swift:116-122 | the sorted array is a permutation of the input with keys non-increasing |
| FeedModel.FeedCdnDetail | LazyMan-iOS/Feed.swift:34-37 | a CDN's detail text is empty |
| FeedModel.FeedCdnRawValue | LazyMan-iOS/Feed.swift:19-21 | Feed.swift's CDN raw values: Level3 is "l3c", Akamai is "akc" |
| FeedModel.FeedCdnTitle | LazyMan-iOS/Feed.swift:23-32 | Feed.swift's CDN titles: "Level 3" and "Akamai" |
| FeedModel.NormalizeFeedType | LazyMan-iOS/Feed.swift:53-65 | the feed-type spelling the initialiser stores; its cases are stated in `NormalizeFeedTypeFacts` |
| FeedModel.FeedCdnAgreesWithModelsCdn | LazyMan-iOS/Feed.swift:19-32 | Feed.swift's CDN enum agrees with Models/CDN.swift case by case on raw value and title |
| FeedModel.NormalizeFeedTypeFacts | LazyMan-iOS/Feed.swift:53-65 | HOME, AWAY, FRENCH and NATIONAL become Home, Away, French and National; anything else is kept; normalising is idempotent |
| FeedModel.TitleOf | LazyMan-iOS/Feed.swift:142-159 | the three-way title choice of `getTitle`; its cases are stated in `TitleFallbacks` |
| FeedModel.TitleFallbacks | LazyMan-iOS/Feed.swift:142-159 | the title is the feed name, else exactly "<type> (<call letters>)", else the type; it is empty only when all three are |
| FeedModel.HomeFeedTitle | LazyMan-iOS/Feed.swift:142-159 | a HOME feed with call letters NESN and no name is titled "Home (NESN)" |
| FeedModel.FirstBody | LazyMan-iOS/Feed.swift:179-195 | the redirect body comes from the first URL whose fetch succeeds; there is none iff every fetch fails |
| FeedModel.AutoPlaylist | LazyMan-iOS/Feed.swift:88 | the "Auto" variant: the master URL, with no bandwidth and no frame rate |
| FeedModel.RenditionOf | LazyMan-iOS/Feed.swift:95-110 | one parsed entry gives a variant only when it, its path and the resolved URL exist; the quality defaults to "Unknown" |
| FeedModel.Renditions | LazyMan-iOS/Feed.swift:93-114 | the variants of all usable entries in entry order; see `RenditionsComeFromEntries` |
| FeedModel.BuiltPlaylists | LazyMan-iOS/Feed.swift:86-114 | "Auto" with the master URL, followed by the renditions |
| FeedModel.RenditionsComeFromEntries | LazyMan-iOS/Feed.swift:93-112 | each variant comes from a parsed entry with a resolvable path; every such entry gives a variant; no more variants than entries |
| FeedModel.CollectPlaylists | LazyMan-iOS/Feed.swift:86-114 | the loop builds "Auto" followed by the variants of the usable entries, in entry order |
| FeedModel.BandwidthKey | LazyMan-iOS/Feed.swift:118-119 | the sort key: the bandwidth, or `Int.max` when there is none |
| FeedModel.UnknownBandwidthFirst | LazyMan-iOS/Feed.swift:116-122 | after the sort, every variant without a bandwidth stands before every variant with a bandwidth below `Int.max` |
| FeedModel.AutoFirstWhenBandwidthsKnown | LazyMan-iOS/Feed.swift:88-122 | if every parsed entry reports a bandwidth below `Int.max`, "Auto" is first in the sorted list |
| FeedModel.AutoCanComeSecond | LazyMan-iOS/Feed.swift:116-122 | a variant without a bandwidth ties with "Auto", and the list with that variant first is a correctly sorted permutation |
| FeedModel.Feed.constructor | LazyMan-iOS/Feed.swift:51-72 | the feed stores the normalised type and the other fields as given, with no cached list |
| FeedModel.Feed.GetDetail | LazyMan-iOS/Feed.swift:161-164 | a feed's detail text is empty |
| FeedModel.Feed.GetTitle | LazyMan-iOS/Feed.swift:142-159 | `getTitle` is `TitleOf` on the feed's own fields |
| FeedModel.Feed.RedirectCandidates | LazyMan-iOS/Feed.swift:175-208 | NHL tries base/date/id plus the CDN suffix, then the same URL without it; MLB tries only the suffixed URL under its own base |
| FeedModel.IdTextIsRecoverable | LazyMan-iOS/Feed.swift:181 | a URL made of a fixed prefix, the id text and a fixed suffix determines the id |
| FeedModel.DistinctIdsGiveDistinctUrls | LazyMan-iOS/Feed.swift:175-201 | two feeds of one league and day with different playback ids ask for different first redirect URLs on any CDN |
| FeedModel.Feed.MasterURL | LazyMan-iOS/Feed.swift:168-209 | the master URL is the first fetchable redirect body read as a URL; see `MasterURLFallback` |
| FeedModel.CacheHit | LazyMan-iOS/Feed.swift:76 | the cache answers when a list is stored and `lastCDN` is the requested CDN |
| FeedModel.MasterURLFallback | LazyMan-iOS/Feed.swift:168-209 | a successful first fetch decides the master URL; only NHL falls back to the unsuffixed URL; MLB gives nil when the first fetch fails |
| FeedModel.Feed.GetFeedPlaylists | LazyMan-iOS/Feed.swift:74-138 | cache hit returns the cached list; no master URL delivers nothing and keeps the cache; otherwise the stored and delivered list is the built list sorted by bandwidth, descending |
| FeedModel.SecondRequestRefetches | LazyMan-iOS/Feed.swift:76-79 | as written, a second request for the same CDN goes back to the network and can deliver nothing although a list is cached |
| FeedModel.GetFeedPlaylistsMemoized | LazyMan-iOS/Feed.swift:74-138 | with `lastCDN` recorded, a delivered list is afterwards a cache hit for its CDN |
| FeedModel.SecondRequestIsCached | LazyMan-iOS/Feed.swift:76-79 | with `lastCDN` recorded, a second request for the same CDN returns the first list whatever the network does |
| GameModel.StateRawValue | LazyMan-iOS/Models/Game.swift:11-13 | raw values lie in 0..5 |
| GameModel.StateFromRawValue | LazyMan-iOS/Models/Game.swift:11-13 | `GameState(rawValue:)` succeeds exactly for 0..5 |
| GameModel.StateRawValueRoundTrip | LazyMan-iOS/Models/Game.swift:11-13 | raw values follow declaration order (live < preview < other < final < postponed < tbd), are distinct and read back |
| GameModel.ClassifyState | LazyMan-iOS/Models/Game.swift:15-36 | each state holds iff its word is mentioned (or the TBD flag is set) and no word of higher precedence is: postponed > tbd > live > preview > final > other |
| GameModel.MakeGame | LazyMan-iOS/Models/Game.swift:80-90 | the initialiser fails iff the teams' leagues differ; otherwise it stores every field and takes the league of the home team |
| GameModel.GameStateDescription | LazyMan-iOS/Models/Game.swift:57-72 | `gameStateDescription`; its cases are stated in `DescriptionDependsOnlyOnState` |
| GameModel.DescriptionDependsOnlyOnState | LazyMan-iOS/Models/Game.swift:57-72 | final, postponed and tbd show fixed words; live and other show the live text; preview shows the clock time; nothing else matters |
| GameModel.HasFavoriteAmong | LazyMan-iOS/Models/Game.swift:74-76 | `hasFavoriteTeam` for a given favourites lookup: the home or the away team is a favourite |
| GameModel.HasFavoriteTeam | LazyMan-iOS/Models/Game.swift:74-76 | `hasFavoriteTeam` with the favourites as shipped; `NoGameHasFavorite` shows it is always false |
| GameModel.LessUnder | LazyMan-iOS/Models/Game.swift:97-107 | game `<` for a given favourites lookup: the favourite test, then start time for two live or two preview games, else the state raw values |
| GameModel.GameLess | LazyMan-iOS/Models/Game.swift:97-107 | game `<` with the favourites as shipped |
| GameModel.SameGame | LazyMan-iOS/Models/Game.swift:109-111 | game `==`: same away team and same start time |
| GameModel.NoGameHasFavorite | LazyMan-iOS/Models/Game.swift:74-76 | no game has a favourite team |
| GameModel.GameLessIsLexicographic | LazyMan-iOS/Models/Game.swift:97-107 | without favourites, `<` orders by state raw value, then by start time for two live or two preview games |
| GameModel.GameLessIsStrictWeakOrder | LazyMan-iOS/Models/Game.swift:97-107 | without favourites, `<` is irreflexive and transitive, and incomparability is transitive |
| GameModel.FinalGamesAreUnordered | LazyMan-iOS/Models/Game.swift:101-106 | two final games are never `<` each other |
| GameModel.FavoriteBreaksStrictness | LazyMan-iOS/Models/Game.swift:98-100 | with favourites, a game with a favourite is `<` itself and two such games are each `<` the other |
| GameModel.SomeFavoritesMakeAGameLessThanItself | LazyMan-iOS/Models/Game.swift:98-100 | naming a game's home team as a favourite makes that game `<` itself |
| GameModel.SameGameIsEquivalence | LazyMan-iOS/Models/Game.swift:109-111 | game `==` is an equivalence that ignores the home team, state, live text and feeds |
| GameModel.EqualGamesCanBeOrdered | LazyMan-iOS/Models/Game.swift:97-111 | a live game is `==` to the same slot reported final, yet `<` it |
| SwiftyJson.Member | LazyMan-iOS/GameManager.swift:91 | a present key of an object gives its member; anything else gives null |
| SwiftyJson.Path | LazyMan-iOS/GameManager.swift:91-92 | a chain of subscripts: no keys give the value itself, one key gives its member |
| SwiftyJson.PathConcat | LazyMan-iOS/GameManager.swift:91-92 | a chain of subscripts can be split anywhere into two chains |
| SwiftyJson.PathFromNull | LazyMan-iOS/GameManager.swift:194 | once a subscript misses, every later subscript misses too, so a chain never fails |
| SwiftyJson.At | LazyMan-iOS/GameManager.swift:194 | an in-range index of an array gives its element; anything else gives null |
| SwiftyJson.StringValue | LazyMan-iOS/GameManager.swift:91 | `stringValue` is the string itself, the decimal text of a number, "true" or "false" for a boolean, and "" for null, arrays and objects |
| SwiftyJson.IntOpt | LazyMan-iOS/GameManager.swift:83 | `.int` is the number itself, 1 or 0 for a boolean, and absent for anything else |
| SwiftyJson.IntValue | LazyMan-iOS/GameManager.swift:107 | `intValue` is the number itself, 1 or 0 for a boolean, the value of a decimal string (0 for any other string), and 0 for null, arrays and objects |
| SwiftyJson.ArrayOpt | LazyMan-iOS/GameManager.swift:85 | `.array` is the array's items, and absent for anything else |
| SwiftyJson.ArrayValue | LazyMan-iOS/GameManager.swift:102 | `arrayValue` is the array's items, and empty for anything else |
| SwiftyJson.DictionaryValue | LazyMan-iOS/GameManager.swift:81 | `dictionaryValue` is the object's fields, and empty for anything else |
| SwiftyJson.Lookup | LazyMan-iOS/GameManager.swift:83-87 | a Swift dictionary subscript: present exactly for a key in the map, and then its value |
| Schedule.FeedItems | LazyMan-iOS/GameManager.swift:100-102 | the items of the first EPG entry, or none when `epg` is missing or empty |
| Schedule.HomeTeamName | LazyMan-iOS/GameManager.swift:91 | the home team's name at `teams.home.team.teamName` (MLB reads the same path at line 200) |
| Schedule.AwayTeamName | LazyMan-iOS/GameManager.swift:92 | the away team's name at `teams.away.team.teamName` (MLB reads the same path at line 201) |
| Schedule.TeamTable | LazyMan-iOS/GameManager.swift:91-92 | the team table of the league: `nhlTeams` for NHL (`mlbTeams` for MLB, lines 200-201) |
| Schedule.PlaybackIdKey | LazyMan-iOS/GameManager.swift:107 | NHL reads a feed's id from `mediaPlaybackId` (MLB from `id`, line 215) |
| Schedule.FeedOf | LazyMan-iOS/GameManager.swift:104-109 | one EPG item becomes a feed with its type, call letters, name, playback id (by league), league and day key |
| Schedule.NhlStateText | LazyMan-iOS/GameManager.swift:116-136 | the NHL state string; its cases are stated in `NhlStateTexts` |
| Schedule.MlbStateText | LazyMan-iOS/GameManager.swift:223-238 | the MLB state string; its cases are stated in `MlbStateTexts` |
| Schedule.StateText | LazyMan-iOS/GameManager.swift:114-136 | the state string by league: the NHL switch here, the MLB switch at lines 221-238 |
| Schedule.Unfetched | LazyMan-iOS/GameManager.swift:104-109 | no feed of the games holds a playlist list or a `lastCDN`, as `Feed(...)` leaves them |
| Schedule.GameViewOf | LazyMan-iOS/GameManager.swift:91-138 | one schedule entry as a game, or nothing; see `GameViewOfKeeps` and `GameViewOfFeeds` |
| Schedule.GamesOf | LazyMan-iOS/GameManager.swift:89-140 | the games of the convertible entries, in entry order; see `GamesOfAppend` and `DroppedEntryLeavesRest` |
| Schedule.NhlRoute | LazyMan-iOS/GameManager.swift:81-157 | which NHL branch a payload takes: a games list, "no games", or silence |
| Schedule.MlbRoute | LazyMan-iOS/GameManager.swift:190-194 | which MLB branch a payload takes: a games list or silence |
| Schedule.FeedsOf | LazyMan-iOS/GameManager.swift:100-111 | there is one feed per EPG item |
| Schedule.GameViewOfKeeps | LazyMan-iOS/GameManager.swift:91-96 | an entry is dropped iff a team is unknown or the start time does not parse; a kept entry has the looked-up teams and the parsed start |
| Schedule.GameViewOfFeeds | LazyMan-iOS/GameManager.swift:100-111 | a kept entry has one feed per EPG item, with the item's playback id, the league and the day key |
| Schedule.GamesOfAppend | LazyMan-iOS/GameManager.swift:89-140 | entries are converted independently: the games of a concatenation are the concatenated games |
| Schedule.DroppedEntryLeavesRest | LazyMan-iOS/GameManager.swift:96 | an unconvertible entry is skipped and the entries around it are still converted |
| Schedule.RouteOnTotalItems | LazyMan-iOS/GameManager.swift:83-157 | NHL: missing `totalItems` is silent and a non-positive count reports "no games"; MLB: a non-positive count is silent; a non-object payload is silent for both |
| Schedule.SortByStartTime | LazyMan-iOS/GameManager.swift:247-249 | the MLB games come out latest first, as a permutation of the converted games holding the same feed objects |
| Schedule.ViewsPermutation | LazyMan-iOS/GameManager.swift:247-249 | sorting the games permutes their contents the same way |
| Schedule.NhlLiveStateText | LazyMan-iOS/GameManager.swift:124-126 | a live NHL game in the 2nd period with 05:23 left reads "2nd – 05:23" |
| Schedule.NhlStateTexts | LazyMan-iOS/GameManager.swift:116-135 | NHL: a preview shows the clock time, a live game "<period ordinal> – <time remaining>", a final game "Final", any other abstract state "" |
| Schedule.MlbStateTexts | LazyMan-iOS/GameManager.swift:223-238 | MLB: a preview shows the clock time, a game in progress "<inning ordinal> – <inning half>", a final game "Final", any other detailed state verbatim ("Postponed" reads "Postponed") |
| Schedule.GameManager.constructor | LazyMan-iOS/GameManager.swift:17-18 | both game maps start empty |
| Schedule.GameManager.GetGames | LazyMan-iOS/GameManager.swift:35-45 | the answer is the league's own map entry for the date's day key, if there is one |
| Schedule.GameManager.MakeFeeds | LazyMan-iOS/GameManager.swift:100-111 | the loop builds one feed per EPG item, in order, whose identity is `FeedsOf`; every feed is a new object with no cached list and no `lastCDN` |
| Schedule.GameManager.ConvertGame | LazyMan-iOS/GameManager.swift:91-139 | one entry becomes a game exactly when `GameViewOf` keeps it, and then the game is that view; every feed is a new object with no cached list and no `lastCDN` |
| Schedule.GameManager.ConvertGames | LazyMan-iOS/GameManager.swift:89-140 | the loop builds exactly the games `GamesOf` specifies, in entry order; every feed is a new object with no cached list and no `lastCDN` |
| Schedule.GameManager.GetNHLGames | LazyMan-iOS/GameManager.swift:59-161 | with a games list, the day's NHL entry is replaced by its converted games and they are delivered, each feed new and `Unfetched`; a zero count or missing dates reports "There are no games today."; otherwise nothing changes; the MLB map is untouched |
| Schedule.GameManager.GetMLBGames | LazyMan-iOS/GameManager.swift:163-259 | with a games list, the day's MLB entry becomes the converted games sorted latest first, and they are delivered, each feed new and `Unfetched`; every other path is silent and changes nothing; the NHL map is untouched |
| Schedule.GameManager.ReloadGames | LazyMan-iOS/GameManager.swift:47-57 | only the requested league's map changes, and only when games are delivered, and then `getGames` for that date answers the delivered list; for NHL the reply is the converted games, "no games" or silence as the payload routes; for MLB it is a latest-first permutation of the converted games or silence; every delivered feed is new and `Unfetched` |

## Left out

- The user interface, the logo images, the video player and the
  `GameOptionCellText` protocol beyond its two members are not modelled.
- Networking is not modelled. The redirect fetch (`String(contentsOf:)`),
  `URL(string:)`, the schedule HTTP requests and their callbacks are
  function parameters or a payload handed in. Thread hops
  (`DispatchQueue`) and the races between them are not modelled.
- Foundation is not modelled. `DateFormatter` parsing and formatting are
  parameters. The unused formatter built in `getMasterURL` is left out.
- Pantomime (the HLS parser) and `URLByReplacingLastPathComponent` are
  parameters. The parser's frame rate is taken as already rounded, so the
  floating-point rounding is left out.
- Schedule.GameManager.GetMLBGames: the bundled
  `mlbschedule2018-04-05.json` read is left out, because its data is
  never used. The "Bad URL" error is left out: the request URL is not
  modelled, and the model is handed the reply to it. The day key in that
  URL comes from a `DateFormatter` with no fixed locale, so a URL that
  does not parse cannot be ruled out.
- Schedule.GameManager.GetNHLGames: when the NHL request URL does not
  parse, `getNHLGames` does nothing at all, without a reply. The model is
  always handed a payload, so it does not capture that case.
- Schedule.GameManager.GetMLBGames: the sort comparator `>=` is not a
  strict weak ordering, and Swift does not promise what its sort then
  does. The model promises what a sort by start time promises: a
  permutation, latest first, with the order of ties unspecified.
- Schedule.GameManager.ReloadGames: an unreadable NHL payload crashes the
  app (`try!` on `data!`). The model requires a readable NHL payload
  instead.
- Schedule.GameManager.GetMLBGames: a failed MLB request crashes the app,
  because `data!` is evaluated inside `try?`, which catches thrown errors
  but not a nil unwrap. The model reads a missing or unreadable MLB
  payload as `None` and returns silently.
- FeedModel.Feed.MasterURL: the redirect candidates are force-unwrapped
  `URL(string:)!` values, which crash when the text is not a URL. The
  model fetches the candidate strings as they are, so that crash does not
  occur in the model.
- `Date` is modelled as a whole number of seconds (`int`). Sub-second
  start times and time zones are left to the date-parsing and formatting
  parameters.
- Schedule.NhlStateText: the `print("error")` on an unknown NHL status is
  console output and is left out; the state text is "" as in the source.
- Schedule.GameManager.constructor: the contents of `TeamManager.nhlTeams`
  and `TeamManager.mlbTeams` are not modelled. The tables are a parameter
  of the constructor, and every property holds for any tables.
- Schedule.ScheduledGame: `GameManager` builds games with an initialiser
  that `Models/Game.swift` does not declare (a string state and no league).
  The schedule stores its own record with exactly those fields.
  `GameModel.Game` models `Models/Game.swift` as written.
- SwiftyJson.IntValue: JSON numbers are integers in this model.
  Fractional numbers, and SwiftyJSON's conversions between strings,
  booleans and numbers beyond decimal integers, are left out.
- Common.StringLess: Swift compares strings by Unicode canonical
  equivalence over grapheme clusters. The model compares characters one
  by one. The same holds for every string comparison in the model:
  `Common.Contains`, team `==` (`Teams.SameTeam`), the string switches
  in `FeedModel.NormalizeFeedType`, `Schedule.NhlStateText` and
  `Schedule.MlbStateText`, and the team-table lookups by name.
- FeedModel.Feed: the `playbackID` is an unbounded integer. The 64-bit
  width of `Int` is kept only for bandwidths, where `Int.max` is the sort
  key of a missing value.
- FeedModel.Feed.GetFeedPlaylists: the `error` callback is never called
  by the source, and the failure branch posts an empty block. Both come
  out as "nothing delivered".

## Findings

Every feed a reload delivers is new and `Unfetched`, so its `lastCDN` is
nil. That is all `SecondRequestRefetches` asks of a feed, so the defect
below holds for the feeds the schedule hands out, not just for feeds built
by hand.

| source | as written | input that shows it | evidently intended | confidence | as-written member | corrected member |
|---|---|---|---|---|---|---|
| LazyMan-iOS/Feed.swift:76 | `lastCDN` is declared and tested but never assigned, so the cached playlist list is never used and every request refetches | any feed: request playlists for a CDN with the network up, then again for the same CDN with the network down; the second request delivers nothing | record the CDN with the list, so a repeated request for the same CDN is answered from the cache | high, not executed | FeedModel.SecondRequestRefetches | FeedModel.SecondRequestIsCached |
