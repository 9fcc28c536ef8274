/** Games and their states (Models/Game.swift): the state classifier, the
    failable initialiser, the display text, and the `<` and `==` used to
    present games. */
module GameModel {
  import opened Common
  import opened Teams
  import FeedModel

  /** The declaration order is the raw value, and the raw value is a sort key. */
  datatype GameState = Live | Preview | Other | Final | Postponed | Tbd

  function StateRawValue(s: GameState): (n: nat)
    ensures n < 6
  {
    match s
    case Live => 0
    case Preview => 1
    case Other => 2
    case Final => 3
    case Postponed => 4
    case Tbd => 5
  }

  /** Swift's synthesised `GameState(rawValue:)`. */
  function StateFromRawValue(n: int): (r: Option<GameState>)
    ensures r.Some? <==> 0 <= n < 6
  {
    if n == 0 then Some(Live)
    else if n == 1 then Some(Preview)
    else if n == 2 then Some(Other)
    else if n == 3 then Some(Final)
    else if n == 4 then Some(Postponed)
    else if n == 5 then Some(Tbd)
    else None
  }

  /** Raw values follow the declaration order, are distinct, and read back. */
  lemma StateRawValueRoundTrip(s: GameState, t: GameState)
    ensures StateFromRawValue(StateRawValue(s)) == Some(s)
    ensures StateRawValue(s) == StateRawValue(t) ==> s == t
    ensures StateRawValue(Live) < StateRawValue(Preview) < StateRawValue(Other) <
            StateRawValue(Final) < StateRawValue(Postponed) < StateRawValue(Tbd)
  {
    match s
    case Live =>
    case Preview =>
    case Other =>
    case Final =>
    case Postponed =>
    case Tbd =>
  }

  /** `[abstractState, detailedState].contains(where: { $0.contains(word) })`,
      stated with substring occurrence. */
  ghost predicate Mentions(abstractState: string, detailedState: string, word: string)
  {
    Occurs(abstractState, word) || Occurs(detailedState, word)
  }

  /** `GameState.init(abstractState:detailedState:startTimeTBD:)`: the first
      rule that applies wins, in the order postponed, tbd, live, preview,
      final; otherwise `other`. */
  function ClassifyState(abstractState: string, detailedState: string, startTimeTBD: bool): (r: GameState)
    ensures r == Postponed <==> Mentions(abstractState, detailedState, "Postponed")
    ensures r == Tbd <==>
      !Mentions(abstractState, detailedState, "Postponed") &&
      (Mentions(abstractState, detailedState, "TBD") || startTimeTBD)
    ensures r == Live <==>
      !Mentions(abstractState, detailedState, "Postponed") &&
      !Mentions(abstractState, detailedState, "TBD") && !startTimeTBD &&
      Mentions(abstractState, detailedState, "Live")
    ensures r == Preview <==>
      !Mentions(abstractState, detailedState, "Postponed") &&
      !Mentions(abstractState, detailedState, "TBD") && !startTimeTBD &&
      !Mentions(abstractState, detailedState, "Live") &&
      Mentions(abstractState, detailedState, "Preview")
    ensures r == Final <==>
      !Mentions(abstractState, detailedState, "Postponed") &&
      !Mentions(abstractState, detailedState, "TBD") && !startTimeTBD &&
      !Mentions(abstractState, detailedState, "Live") &&
      !Mentions(abstractState, detailedState, "Preview") &&
      Mentions(abstractState, detailedState, "Final")
    ensures r == Other <==>
      !Mentions(abstractState, detailedState, "Postponed") &&
      !Mentions(abstractState, detailedState, "TBD") && !startTimeTBD &&
      !Mentions(abstractState, detailedState, "Live") &&
      !Mentions(abstractState, detailedState, "Preview") &&
      !Mentions(abstractState, detailedState, "Final")
  {
    var states := [abstractState, detailedState];
    if Contains(states[0], "Postponed") || Contains(states[1], "Postponed") then Postponed
    else if Contains(states[0], "TBD") || Contains(states[1], "TBD") || startTimeTBD then Tbd
    else if Contains(states[0], "Live") || Contains(states[1], "Live") then Live
    else if Contains(states[0], "Preview") || Contains(states[1], "Preview") then Preview
    else if Contains(states[0], "Final") || Contains(states[1], "Final") then Final
    else Other
  }

  /** Start times are seconds; `Date` is not modelled further. Game.swift
      stores the feeds as objects. */
  datatype Game = Game(
    homeTeam: Team, awayTeam: Team, startTime: int, gameState: GameState,
    liveGameState: string, feeds: seq<FeedModel.Feed>, league: League)

  /** What `init?` guarantees of every game it builds. */
  predicate WellFormed(g: Game)
  {
    g.homeTeam.league == g.awayTeam.league && g.league == g.homeTeam.league
  }

  /** `Game.init?`: fails exactly when the two teams are in different leagues. */
  function MakeGame(homeTeam: Team, awayTeam: Team, startTime: int, gameState: GameState,
                    liveGameState: string, feeds: seq<FeedModel.Feed>): (r: Option<Game>)
    ensures r.None? <==> homeTeam.league != awayTeam.league
    ensures r.Some? ==> WellFormed(r.value) && r.value.league == homeTeam.league
    ensures r.Some? ==> r.value.homeTeam == homeTeam && r.value.awayTeam == awayTeam &&
                        r.value.startTime == startTime && r.value.gameState == gameState &&
                        r.value.liveGameState == liveGameState && r.value.feeds == feeds
  {
    if homeTeam.league != awayTeam.league then None
    else Some(Game(homeTeam, awayTeam, startTime, gameState, liveGameState, feeds, homeTeam.league))
  }

  /** `gameStateDescription`; `clockTime` is the "h:mm a" formatter. */
  function GameStateDescription(g: Game, clockTime: int -> string): string
  {
    match g.gameState
    case Live => g.liveGameState
    case Preview => clockTime(g.startTime)
    case Other => g.liveGameState
    case Final => "Final"
    case Postponed => "Postponed"
    case Tbd => "TBD"
  }

  /** The description is a fixed word for final, postponed and tbd games, the
      live text for live and other games, the clock time for previews: it
      depends on nothing else. */
  lemma DescriptionDependsOnlyOnState(g: Game, h: Game, clockTime: int -> string)
    requires g.gameState == h.gameState
    requires g.gameState in {Live, Other} ==> g.liveGameState == h.liveGameState
    requires g.gameState == Preview ==> g.startTime == h.startTime
    ensures GameStateDescription(g, clockTime) == GameStateDescription(h, clockTime)
    ensures g.gameState == Final ==> GameStateDescription(g, clockTime) == "Final"
    ensures g.gameState == Postponed ==> GameStateDescription(g, clockTime) == "Postponed"
    ensures g.gameState == Tbd ==> GameStateDescription(g, clockTime) == "TBD"
    ensures g.gameState in {Live, Other} ==> GameStateDescription(g, clockTime) == g.liveGameState
    ensures g.gameState == Preview ==> GameStateDescription(g, clockTime) == clockTime(g.startTime)
  {
  }

  // ---------------------------------------------------------------------
  // Ordering and equality
  // ---------------------------------------------------------------------

  /** `hasFavoriteTeam`, for a given favourites lookup. */
  predicate HasFavoriteAmong(favorites: League -> Option<seq<Team>>, g: Game)
  {
    IsFavoriteAmong(favorites(g.homeTeam.league), g.homeTeam) ||
    IsFavoriteAmong(favorites(g.awayTeam.league), g.awayTeam)
  }

  predicate HasFavoriteTeam(g: Game)
  {
    HasFavoriteAmong(Favorites, g)
  }

  /** Game `<` for a given favourites lookup. */
  predicate LessUnder(favorites: League -> Option<seq<Team>>, lhs: Game, rhs: Game)
  {
    var lf := HasFavoriteAmong(favorites, lhs);
    var rf := HasFavoriteAmong(favorites, rhs);
    if lf || rf then lf
    else if (lhs.gameState == Live && rhs.gameState == Live) ||
            (lhs.gameState == Preview && rhs.gameState == Preview) then
      lhs.startTime < rhs.startTime
    else
      StateRawValue(lhs.gameState) < StateRawValue(rhs.gameState)
  }

  /** Game `<` as the app runs it, with `League.favorites` always nil. */
  predicate GameLess(lhs: Game, rhs: Game)
  {
    LessUnder(Favorites, lhs, rhs)
  }

  /** Game `==`: same away team and same start time. */
  predicate SameGame(lhs: Game, rhs: Game)
  {
    SameTeam(lhs.awayTeam, rhs.awayTeam) && lhs.startTime == rhs.startTime
  }

  lemma NoGameHasFavorite(g: Game)
    ensures !HasFavoriteTeam(g)
  {
    NoTeamIsFavorite(g.homeTeam);
    NoTeamIsFavorite(g.awayTeam);
  }

  /** With no favourites, `<` is lexicographic: first the state's raw value,
      then, for two live or two preview games, the start time. */
  lemma GameLessIsLexicographic(lhs: Game, rhs: Game)
    ensures GameLess(lhs, rhs) <==>
      StateRawValue(lhs.gameState) < StateRawValue(rhs.gameState) ||
      (lhs.gameState == rhs.gameState && lhs.gameState in {Live, Preview} && lhs.startTime < rhs.startTime)
  {
    NoGameHasFavorite(lhs);
    NoGameHasFavorite(rhs);
    StateRawValueRoundTrip(lhs.gameState, rhs.gameState);
  }

  /** Without favourites `<` is a strict weak order: irreflexive, transitive,
      and incomparability is transitive. */
  lemma GameLessIsStrictWeakOrder(a: Game, b: Game, c: Game)
    ensures !GameLess(a, a)
    ensures GameLess(a, b) && GameLess(b, c) ==> GameLess(a, c)
    ensures !GameLess(a, b) && !GameLess(b, a) && !GameLess(b, c) && !GameLess(c, b) ==>
            !GameLess(a, c) && !GameLess(c, a)
  {
    GameLessIsLexicographic(a, a);
    GameLessIsLexicographic(a, b);
    GameLessIsLexicographic(b, a);
    GameLessIsLexicographic(b, c);
    GameLessIsLexicographic(c, b);
    GameLessIsLexicographic(a, c);
    GameLessIsLexicographic(c, a);
    StateRawValueRoundTrip(a.gameState, b.gameState);
    StateRawValueRoundTrip(b.gameState, c.gameState);
    StateRawValueRoundTrip(a.gameState, c.gameState);
  }

  /** `<` is not total: two final games are never ordered, whatever their
      teams and start times. */
  lemma FinalGamesAreUnordered(a: Game, b: Game)
    requires a.gameState == Final && b.gameState == Final
    ensures !GameLess(a, b) && !GameLess(b, a)
  {
    GameLessIsLexicographic(a, b);
    GameLessIsLexicographic(b, a);
  }

  /** Once a favourite is involved `<` answers `lhs.hasFavoriteTeam`, so a
      game with a favourite team is less than itself, and two such games are
      each less than the other. */
  lemma FavoriteBreaksStrictness(favorites: League -> Option<seq<Team>>, g: Game, h: Game)
    requires HasFavoriteAmong(favorites, g) && HasFavoriteAmong(favorites, h)
    ensures LessUnder(favorites, g, g)
    ensures LessUnder(favorites, g, h) && LessUnder(favorites, h, g)
  {
  }

  /** Such a favourites list exists for every game: naming its home team. */
  lemma {:induction false} SomeFavoritesMakeAGameLessThanItself(g: Game)
    ensures LessUnder(l => Some([g.homeTeam]), g, g)
  {
    assert SameTeam([g.homeTeam][0], g.homeTeam);
    assert HasFavoriteAmong(l => Some([g.homeTeam]), g);
  }

  /** `==` is an equivalence that ignores the home team, the state, the live
      text and the feeds. */
  lemma SameGameIsEquivalence(a: Game, b: Game, c: Game, home: Team, state: GameState, feeds: seq<FeedModel.Feed>)
    ensures SameGame(a, a)
    ensures SameGame(a, b) ==> SameGame(b, a)
    ensures SameGame(a, b) && SameGame(b, c) ==> SameGame(a, c)
    ensures SameGame(a, a.(homeTeam := home, gameState := state, liveGameState := "", feeds := feeds))
  {
  }

  /** `==` and `<` disagree: a live game and the same slot reported final are
      `==`, yet the live one is `<` the final one. */
  lemma EqualGamesCanBeOrdered(g: Game)
    requires g.gameState == Live
    ensures SameGame(g, g.(gameState := Final)) && GameLess(g, g.(gameState := Final))
  {
    GameLessIsLexicographic(g, g.(gameState := Final));
  }
}
