/** Leagues and teams (Models/Teams.swift). A team is a value; its name is
    computed, and equality and ordering look at that name only. */
module Teams {
  import opened Common

  datatype League = NHL | MLB

  /** The raw value Swift gives a `String` enum case without an explicit one:
      the case name itself. */
  function LeagueRawValue(l: League): (s: string)
    ensures |s| == 3
  {
    match l
    case NHL => "NHL"
    case MLB => "MLB"
  }

  /** Swift's synthesised `League(rawValue:)`. */
  function LeagueFromRawValue(s: string): (r: Option<League>)
    ensures r.Some? ==> LeagueRawValue(r.value) == s
  {
    if s == "NHL" then Some(NHL)
    else if s == "MLB" then Some(MLB)
    else None
  }

  /** The raw values are the case names, as the schedule code and the
      stream URLs spell them. */
  lemma LeagueLiterals()
    ensures LeagueRawValue(NHL) == "NHL" && LeagueRawValue(MLB) == "MLB"
  {
  }

  lemma LeagueRawValueRoundTrip(l: League)
    ensures LeagueFromRawValue(LeagueRawValue(l)) == Some(l)
  {
    match l
    case NHL =>
    case MLB =>
  }

  /** The logo image is not modelled. */
  datatype Team = Team(location: string, shortName: string, abbreviation: string, league: League)

  /** The favourites list of a league: hard-wired to "no list". */
  function Favorites(l: League): (r: Option<seq<Team>>)
    ensures r.None?
  {
    None
  }

  /** `"\(location) \(shortName)"`. */
  function Name(t: Team): (s: string)
    ensures |s| == |t.location| + 1 + |t.shortName|
    ensures s[..|t.location|] == t.location
    ensures s[|t.location|] == ' '
    ensures s[|t.location| + 1..] == t.shortName
  {
    t.location + " " + t.shortName
  }

  /** Team `==`: the names agree; abbreviation, logo and league are ignored. */
  predicate SameTeam(a: Team, b: Team)
  {
    Name(a) == Name(b)
  }

  /** Team `<`: Swift's string `<` on the names. */
  predicate TeamLess(a: Team, b: Team)
  {
    StringLess(Name(a), Name(b))
  }

  /** `favorites?.contains(self) ?? false` for a given favourites list;
      `contains` uses Team `==`. */
  predicate IsFavoriteAmong(favorites: Option<seq<Team>>, t: Team)
  {
    match favorites
    case None => false
    case Some(list) => exists i :: 0 <= i < |list| && SameTeam(list[i], t)
  }

  predicate IsFavorite(t: Team)
  {
    IsFavoriteAmong(Favorites(t.league), t)
  }

  lemma NoTeamIsFavorite(t: Team)
    ensures !IsFavorite(t)
  {
  }

  /** Team `==` holds exactly when the names agree, whatever the other fields. */
  lemma SameTeamIgnoresOtherFields(a: Team, b: Team)
    ensures SameTeam(a, b) <==> a.location + " " + a.shortName == b.location + " " + b.shortName
    ensures SameTeam(a, a.(abbreviation := b.abbreviation, league := b.league))
  {
  }

  /** Two teams with different locations can still be `==`, because the
      space that joins location and short name may also occur inside them. */
  lemma NameSplitIsAmbiguous()
    ensures var a := Team("New York", "Rangers", "NYR", NHL);
            var b := Team("New", "York Rangers", "NYR", NHL);
            SameTeam(a, b) && a.location != b.location
  {
    assert "New York" + " " + "Rangers" == "New" + " " + "York Rangers";
  }

  /** Team `<` is a strict order on names: irreflexive, transitive, and any
      two teams are either `==` or ordered one way. */
  lemma TeamLessIsStrictOrder(a: Team, b: Team, c: Team)
    ensures !TeamLess(a, a)
    ensures TeamLess(a, b) && TeamLess(b, c) ==> TeamLess(a, c)
    ensures SameTeam(a, b) || TeamLess(a, b) || TeamLess(b, a)
    ensures SameTeam(a, b) ==> !TeamLess(a, b)
  {
    StringLessIrreflexive(Name(a));
    if TeamLess(a, b) && TeamLess(b, c) {
      StringLessTransitive(Name(a), Name(b), Name(c));
    }
    StringLessTrichotomy(Name(a), Name(b));
  }
}
