/** One broadcast feed of a game (Feed.swift): its identity, its display
    title, the redirect URLs tried for a stream, and the list of playable
    variants built from the stream's HLS multivariant playlist. */
module FeedModel {
  import opened Common
  import opened Teams
  import opened Sorting
  import Cdn

  // ---------------------------------------------------------------------
  // Feed.swift declares its own CDN enum, with the cases in the other
  // order and the title member named getTitle; it is kept apart from
  // Models/CDN.swift.
  // ---------------------------------------------------------------------

  datatype CDN = Level3 | Akamai

  function FeedCdnRawValue(c: CDN): string
  {
    match c
    case Level3 => "l3c"
    case Akamai => "akc"
  }

  function FeedCdnTitle(c: CDN): string
  {
    match c
    case Level3 => "Level 3"
    case Akamai => "Akamai"
  }

  function FeedCdnDetail(c: CDN): (s: string)
    ensures |s| == 0
  {
    ""
  }

  /** The case of Models/CDN.swift with the same name. */
  function ToModelsCdn(c: CDN): Cdn.CDN
  {
    match c
    case Level3 => Cdn.Level3
    case Akamai => Cdn.Akamai
  }

  /** The two copies agree case by case on raw value and title, and the
      correspondence is one-to-one. */
  lemma FeedCdnAgreesWithModelsCdn(c: CDN, d: CDN)
    ensures Cdn.RawValue(ToModelsCdn(c)) == FeedCdnRawValue(c)
    ensures Cdn.Title(ToModelsCdn(c)) == FeedCdnTitle(c)
    ensures ToModelsCdn(c) == ToModelsCdn(d) ==> c == d
  {
    match c
    case Level3 =>
    case Akamai =>
  }

  // ---------------------------------------------------------------------
  // Identity and title
  // ---------------------------------------------------------------------

  /** `init`'s switch on the feed type: four upper-case codes are spelled
      out, anything else is kept as it is. */
  function NormalizeFeedType(feedType: string): (r: string)
  {
    match feedType
    case "HOME" => "Home"
    case "AWAY" => "Away"
    case "FRENCH" => "French"
    case "NATIONAL" => "National"
    case _ => feedType
  }

  predicate IsFeedTypeCode(s: string)
  {
    s == "HOME" || s == "AWAY" || s == "FRENCH" || s == "NATIONAL"
  }

  /** Only the four codes change; normalising twice changes nothing more. */
  lemma NormalizeFeedTypeFacts(s: string)
    ensures !IsFeedTypeCode(s) ==> NormalizeFeedType(s) == s
    ensures IsFeedTypeCode(s) ==> NormalizeFeedType(s) != s && |NormalizeFeedType(s)| == |s|
    ensures !IsFeedTypeCode(NormalizeFeedType(s))
    ensures NormalizeFeedType(NormalizeFeedType(s)) == NormalizeFeedType(s)
    ensures s == "HOME" ==> NormalizeFeedType(s) == "Home"
    ensures s == "AWAY" ==> NormalizeFeedType(s) == "Away"
    ensures s == "FRENCH" ==> NormalizeFeedType(s) == "French"
    ensures s == "NATIONAL" ==> NormalizeFeedType(s) == "National"
  {
  }

  /** `getTitle`: the feed name; failing that `"<type> (<call letters>)"`;
      failing that the feed type. */
  function TitleOf(feedType: string, callLetters: string, feedName: string): string
  {
    if feedName != "" then feedName
    else if callLetters != "" then feedType + " (" + callLetters + ")"
    else feedType
  }

  lemma {:induction false} TitleFallbacks(feedType: string, callLetters: string, feedName: string)
    ensures feedName != "" ==> TitleOf(feedType, callLetters, feedName) == feedName
    ensures feedName == "" && callLetters != "" ==>
      var t := TitleOf(feedType, callLetters, feedName);
      && t == feedType + " (" + callLetters + ")"
      && t[..|feedType|] == feedType && Occurs(t, callLetters) && t[|t| - 1] == ')'
    ensures feedName == "" && callLetters == "" ==> TitleOf(feedType, callLetters, feedName) == feedType
    ensures TitleOf(feedType, callLetters, feedName) == "" <==> feedName == "" && callLetters == "" && feedType == ""
  {
    if feedName == "" && callLetters != "" {
      var t := TitleOf(feedType, callLetters, feedName);
      assert t[|feedType| + 2..|feedType| + 2 + |callLetters|] == callLetters;
      assert OccursAt(t, callLetters, |feedType| + 2);
    }
  }

  datatype FeedIdentity = FeedIdentity(
    feedType: string, callLetters: string, feedName: string,
    playbackID: int, league: League, gameDate: string)

  // ---------------------------------------------------------------------
  // Stream resolution inputs. The network, URL parsing, the HLS playlist
  // parser and relative-URL resolution are outside the model; they are
  // handed in as functions.
  // ---------------------------------------------------------------------

  /** One media playlist entry of a multivariant playlist (the
      EXT-X-STREAM-INF attributes of section 4.3.4.2 of RFC 8216), as the
      parser reports it; the frame rate is already rounded. */
  datatype MediaPlaylist = MediaPlaylist(
    path: Option<string>, resolution: Option<string>,
    bandwidth: Option<SwiftInt>, framerate: Option<int>)

  datatype StreamServices = StreamServices(
    fetchBody: string -> Option<string>,                 // String(contentsOf:), None when it throws
    toURL: string -> Option<string>,                     // URL(string:)
    parsePlaylist: string -> seq<Option<MediaPlaylist>>, // the parser's getPlaylist(index) for each index
    resolve: (string, string) -> Option<string>)         // URLByReplacingLastPathComponent

  datatype FeedPlaylist = FeedPlaylist(
    url: string, quality: string, bandwidth: Option<SwiftInt>, framerate: Option<int>)

  const NhlStreamBase: string := "http://nhl.freegamez.ga/m3u8/"
  const MlbStreamBase: string := "http://nhl.freegamez.ga/mlb/m3u8/"

  /** The first successfully fetched body, trying the URLs in order. */
  function FirstBody(urls: seq<string>, fetch: string -> Option<string>): (r: Option<string>)
    ensures r.None? <==> forall i :: 0 <= i < |urls| ==> fetch(urls[i]).None?
    ensures r.Some? ==> exists i :: 0 <= i < |urls| && fetch(urls[i]) == r &&
                                    forall j :: 0 <= j < i ==> fetch(urls[j]).None?
  {
    if urls == [] then None
    else match fetch(urls[0])
      case Some(body) => Some(body)
      case None =>
        var r := FirstBody(urls[1..], fetch);
        assert forall i :: 0 < i < |urls| ==> urls[i] == urls[1..][i - 1];
        if r.Some? then
          var i :| 0 <= i < |urls[1..]| && fetch(urls[1..][i]) == r &&
                   forall j :: 0 <= j < i ==> fetch(urls[1..][j]).None?;
          assert fetch(urls[i + 1]) == r;
          r
        else
          r
  }

  // ---------------------------------------------------------------------
  // Building and ordering the variant list
  // ---------------------------------------------------------------------

  function AutoPlaylist(masterURL: string): FeedPlaylist
  {
    FeedPlaylist(masterURL, "Auto", None, None)
  }

  /** The variant a parsed entry contributes: only an entry with a path
      that resolves against the master URL contributes one. */
  function RenditionOf(masterURL: string, entry: Option<MediaPlaylist>,
                       resolve: (string, string) -> Option<string>): Option<FeedPlaylist>
  {
    match entry
    case None => None
    case Some(m) =>
      match m.path
      case None => None
      case Some(p) =>
        match resolve(masterURL, p)
        case None => None
        case Some(u) =>
          Some(FeedPlaylist(u, if m.resolution.Some? then m.resolution.value else "Unknown",
                            m.bandwidth, m.framerate))
  }

  /** The variants of the usable entries, in entry order. */
  function Renditions(masterURL: string, entries: seq<Option<MediaPlaylist>>,
                      resolve: (string, string) -> Option<string>): seq<FeedPlaylist>
  {
    if entries == [] then []
    else
      var last := RenditionOf(masterURL, entries[|entries| - 1], resolve);
      Renditions(masterURL, entries[..|entries| - 1], resolve) +
        (if last.Some? then [last.value] else [])
  }

  /** The list before sorting: "Auto" first, then one variant per usable entry. */
  function BuiltPlaylists(masterURL: string, entries: seq<Option<MediaPlaylist>>,
                          resolve: (string, string) -> Option<string>): seq<FeedPlaylist>
  {
    [AutoPlaylist(masterURL)] + Renditions(masterURL, entries, resolve)
  }

  /** Every variant comes from some usable entry, every usable entry gives a
      variant, and there are never more variants than entries. */
  lemma {:induction false} RenditionsComeFromEntries(masterURL: string, entries: seq<Option<MediaPlaylist>>,
                                                    resolve: (string, string) -> Option<string>)
    ensures var rs := Renditions(masterURL, entries, resolve);
      && |rs| <= |entries|
      && (forall k :: 0 <= k < |rs| ==>
            exists i :: 0 <= i < |entries| && RenditionOf(masterURL, entries[i], resolve) == Some(rs[k]))
      && (forall i :: 0 <= i < |entries| && RenditionOf(masterURL, entries[i], resolve).Some? ==>
            RenditionOf(masterURL, entries[i], resolve).value in rs)
  {
    if entries != [] {
      var init := entries[..|entries| - 1];
      RenditionsComeFromEntries(masterURL, init, resolve);
      var rs := Renditions(masterURL, entries, resolve);
      var rs0 := Renditions(masterURL, init, resolve);
      forall k | 0 <= k < |rs|
        ensures exists i :: 0 <= i < |entries| && RenditionOf(masterURL, entries[i], resolve) == Some(rs[k])
      {
        if k < |rs0| {
          var i :| 0 <= i < |init| && RenditionOf(masterURL, init[i], resolve) == Some(rs0[k]);
          assert entries[i] == init[i];
        } else {
          assert RenditionOf(masterURL, entries[|entries| - 1], resolve) == Some(rs[k]);
        }
      }
      forall i | 0 <= i < |entries| && RenditionOf(masterURL, entries[i], resolve).Some?
        ensures RenditionOf(masterURL, entries[i], resolve).value in rs
      {
        if i < |init| {
          assert entries[i] == init[i];
        }
      }
    }
  }

  /** The sort key: a missing bandwidth reads as `Int.max`. */
  function BandwidthKey(p: FeedPlaylist): int
  {
    if p.bandwidth.Some? then p.bandwidth.value else IntMax
  }

  /** What the sort promises: a permutation of the built list, bandwidths
      non-increasing. */
  predicate OrderedByBandwidth(sorted: seq<FeedPlaylist>, built: seq<FeedPlaylist>)
  {
    NonIncreasing(sorted, BandwidthKey) && multiset(sorted) == multiset(built)
  }

  /** The `for index in 0..<count` loop: appends one variant per usable entry
      after the "Auto" entry. */
  method CollectPlaylists(masterURL: string, entries: seq<Option<MediaPlaylist>>,
                          resolve: (string, string) -> Option<string>)
    returns (playlists: seq<FeedPlaylist>)
    ensures playlists == BuiltPlaylists(masterURL, entries, resolve)
    ensures |playlists| >= 1 && playlists[0] == AutoPlaylist(masterURL)
  {
    playlists := [AutoPlaylist(masterURL)];
    for index := 0 to |entries|
      invariant playlists == [AutoPlaylist(masterURL)] + Renditions(masterURL, entries[..index], resolve)
    {
      assert entries[..index + 1][..index] == entries[..index];
      if entries[index].Some? && entries[index].value.path.Some? {
        var mediaPlaylist := entries[index].value;
        var mediaURL := resolve(masterURL, mediaPlaylist.path.value);
        if mediaURL.Some? {
          var quality := if mediaPlaylist.resolution.Some? then mediaPlaylist.resolution.value else "Unknown";
          playlists := playlists + [FeedPlaylist(mediaURL.value, quality, mediaPlaylist.bandwidth, mediaPlaylist.framerate)];
        }
      }
    }
    assert entries[..|entries|] == entries;
  }

  /** After the sort, every entry without a bandwidth ("Auto" among them)
      stands before every entry whose bandwidth is below `Int.max`. */
  lemma UnknownBandwidthFirst(sorted: seq<FeedPlaylist>, built: seq<FeedPlaylist>, p: int, q: int)
    requires OrderedByBandwidth(sorted, built)
    requires 0 <= p < |sorted| && 0 <= q < |sorted|
    requires sorted[p].bandwidth.None?
    requires sorted[q].bandwidth.Some? && sorted[q].bandwidth.value < IntMax
    ensures p < q
  {
    assert q < p ==> BandwidthKey(sorted[q]) >= BandwidthKey(sorted[p]);
  }

  /** If every parsed entry reports a bandwidth below `Int.max`, no variant
      can tie with "Auto", and the sorted list starts with it. */
  lemma {:induction false} AutoFirstWhenBandwidthsKnown(masterURL: string, entries: seq<Option<MediaPlaylist>>,
                                                       resolve: (string, string) -> Option<string>,
                                                       sorted: seq<FeedPlaylist>)
    requires OrderedByBandwidth(sorted, BuiltPlaylists(masterURL, entries, resolve))
    requires forall i :: 0 <= i < |entries| && entries[i].Some? ==>
               entries[i].value.bandwidth.Some? && entries[i].value.bandwidth.value < IntMax
    ensures |sorted| >= 1 && sorted[0] == AutoPlaylist(masterURL)
  {
    var built := BuiltPlaylists(masterURL, entries, resolve);
    var rs := Renditions(masterURL, entries, resolve);
    assert built[0] in multiset(sorted);
    var a :| 0 <= a < |sorted| && sorted[a] == AutoPlaylist(masterURL);
    RenditionsComeFromEntries(masterURL, entries, resolve);
    forall k | 0 <= k < |sorted| && sorted[k] != AutoPlaylist(masterURL)
      ensures sorted[k].bandwidth.Some? && sorted[k].bandwidth.value < IntMax
    {
      assert sorted[k] in multiset(built);
      assert sorted[k] in rs;
      var j :| 0 <= j < |rs| && rs[j] == sorted[k];
      var i :| 0 <= i < |entries| && RenditionOf(masterURL, entries[i], resolve) == Some(rs[j]);
    }
    if a != 0 {
      assert BandwidthKey(sorted[0]) >= BandwidthKey(sorted[a]);
    }
  }

  /** Without that guarantee "Auto" may lose its place: a variant that
      reports no bandwidth ties with it, and the sort may put that variant
      first. */
  lemma {:induction false} AutoCanComeSecond(masterURL: string, m: MediaPlaylist,
                                             resolve: (string, string) -> Option<string>)
    requires m.path.Some? && resolve(masterURL, m.path.value).Some?
    requires m.bandwidth.None?
    ensures var built := BuiltPlaylists(masterURL, [Some(m)], resolve);
            var rendition := RenditionOf(masterURL, Some(m), resolve);
            && rendition.Some?
            && built == [AutoPlaylist(masterURL), rendition.value]
            && OrderedByBandwidth([rendition.value, AutoPlaylist(masterURL)], built)
  {
    var rendition := RenditionOf(masterURL, Some(m), resolve);
    assert Renditions(masterURL, [Some(m)], resolve) ==
           Renditions(masterURL, [], resolve) + [rendition.value];
    var sorted := [rendition.value, AutoPlaylist(masterURL)];
    assert BandwidthKey(sorted[0]) == IntMax == BandwidthKey(sorted[1]);
  }

  // ---------------------------------------------------------------------
  // The feed object
  // ---------------------------------------------------------------------

  /** True when `getFeedPlaylists` may answer from the cached list. */
  predicate CacheHit(feedPlaylists: Option<seq<FeedPlaylist>>, lastCDN: Option<CDN>, cdn: CDN)
  {
    feedPlaylists.Some? && lastCDN == Some(cdn)
  }

  class Feed {
    const feedType: string
    const callLetters: string
    const feedName: string
    const playbackID: int
    const league: League
    const gameDate: string
    var feedPlaylists: Option<seq<FeedPlaylist>>
    /** Declared and consulted, but never assigned. */
    var lastCDN: Option<CDN>

    function Identity(): FeedIdentity
    {
      FeedIdentity(feedType, callLetters, feedName, playbackID, league, gameDate)
    }

    constructor (feedType: string, callLetters: string, feedName: string,
                 playbackID: int, league: League, gameDate: string)
      ensures Identity() == FeedIdentity(NormalizeFeedType(feedType), callLetters, feedName,
                                         playbackID, league, gameDate)
      ensures feedPlaylists.None? && lastCDN.None?
    {
      this.feedType := NormalizeFeedType(feedType);
      this.callLetters := callLetters;
      this.feedName := feedName;
      this.playbackID := playbackID;
      this.league := league;
      this.gameDate := gameDate;
      this.feedPlaylists := None;
      this.lastCDN := None;
    }

    function GetTitle(): string
    {
      TitleOf(feedType, callLetters, feedName)
    }

    function GetDetail(): (s: string)
      ensures |s| == 0
    {
      ""
    }

    /** The redirect URLs `getMasterURL` fetches, in the order it tries them:
        NHL tries the CDN-suffixed URL, then the same URL without the suffix;
        MLB tries only the suffixed URL, under its own base. */
    function RedirectCandidates(cdn: CDN): (urls: seq<string>)
      ensures league == NHL ==>
        (&& |urls| == 2
         && urls[1] == NhlStreamBase + gameDate + "/" + IntToString(playbackID)
         && urls[0] == urls[1] + FeedCdnRawValue(cdn))
      ensures league == MLB ==>
        (&& |urls| == 1
         && urls[0] == MlbStreamBase + gameDate + "/" + IntToString(playbackID) + FeedCdnRawValue(cdn))
    {
      match league
      case NHL =>
        var base := NhlStreamBase + gameDate + "/";
        [base + IntToString(playbackID) + FeedCdnRawValue(cdn), base + IntToString(playbackID)]
      case MLB =>
        var base := MlbStreamBase + gameDate + "/";
        [base + IntToString(playbackID) + FeedCdnRawValue(cdn)]
    }

    /** `getMasterURL`: the body of the first redirect URL that can be
        fetched, read as a URL. A body that is not a URL gives no master URL;
        it does not fall back to the next candidate. */
    function MasterURL(cdn: CDN, net: StreamServices): (r: Option<string>)
    {
      match FirstBody(RedirectCandidates(cdn), net.fetchBody)
      case None => None
      case Some(body) => net.toURL(body)
    }

    /** `getFeedPlaylists`. Every call rebuilds the list unless the cache
        answers; when no master URL is obtained nothing is delivered and the
        stored list is left alone. */
    method GetFeedPlaylists(cdn: CDN, net: StreamServices) returns (delivered: Option<seq<FeedPlaylist>>)
      modifies this
      ensures lastCDN == old(lastCDN)
      ensures CacheHit(old(feedPlaylists), old(lastCDN), cdn) ==>
        delivered == old(feedPlaylists) && feedPlaylists == old(feedPlaylists)
      ensures !CacheHit(old(feedPlaylists), old(lastCDN), cdn) && MasterURL(cdn, net).None? ==>
        delivered.None? && feedPlaylists == old(feedPlaylists)
      ensures !CacheHit(old(feedPlaylists), old(lastCDN), cdn) && MasterURL(cdn, net).Some? ==>
        var m := MasterURL(cdn, net).value;
        delivered.Some? && feedPlaylists == delivered &&
        OrderedByBandwidth(delivered.value, BuiltPlaylists(m, net.parsePlaylist(m), net.resolve))
    {
      if feedPlaylists.Some? && lastCDN.Some? && lastCDN.value == cdn {
        delivered := feedPlaylists;
      } else {
        var master := MasterURL(cdn, net);
        if master.Some? {
          var masterURL := master.value;
          var playlists := CollectPlaylists(masterURL, net.parsePlaylist(masterURL), net.resolve);
          var buffer := new FeedPlaylist[|playlists|](i requires 0 <= i < |playlists| => playlists[i]);
          assert buffer[..] == playlists;
          SortDescending(buffer, BandwidthKey);
          feedPlaylists := Some(buffer[..]);
          delivered := feedPlaylists;
        } else {
          delivered := None;
        }
      }
    }
  }

  /** As written, `lastCDN` stays nil, so the cache never answers: a second
      request for the same CDN goes back to the network, and if the network
      fails by then nothing is delivered although a list is stored. */
  method SecondRequestRefetches(f: Feed, cdn: CDN, first: StreamServices, second: StreamServices)
    returns (a: Option<seq<FeedPlaylist>>, b: Option<seq<FeedPlaylist>>)
    requires f.lastCDN.None?
    requires f.MasterURL(cdn, first).Some? && f.MasterURL(cdn, second).None?
    modifies f
    ensures a.Some? && b.None? && f.feedPlaylists == a
  {
    a := f.GetFeedPlaylists(cdn, first);
    b := f.GetFeedPlaylists(cdn, second);
  }

  /** `getFeedPlaylists` with the evidently intended bookkeeping: a list
      that was delivered is remembered together with its CDN. */
  method GetFeedPlaylistsMemoized(f: Feed, cdn: CDN, net: StreamServices) returns (delivered: Option<seq<FeedPlaylist>>)
    modifies f
    ensures CacheHit(old(f.feedPlaylists), old(f.lastCDN), cdn) ==>
      delivered == old(f.feedPlaylists) && f.feedPlaylists == old(f.feedPlaylists)
    ensures !CacheHit(old(f.feedPlaylists), old(f.lastCDN), cdn) && f.MasterURL(cdn, net).None? ==>
      delivered.None? && f.feedPlaylists == old(f.feedPlaylists) && f.lastCDN == old(f.lastCDN)
    ensures !CacheHit(old(f.feedPlaylists), old(f.lastCDN), cdn) && f.MasterURL(cdn, net).Some? ==>
      var m := f.MasterURL(cdn, net).value;
      delivered.Some? && f.feedPlaylists == delivered &&
      OrderedByBandwidth(delivered.value, BuiltPlaylists(m, net.parsePlaylist(m), net.resolve))
    ensures delivered.Some? ==> CacheHit(f.feedPlaylists, f.lastCDN, cdn)
  {
    delivered := f.GetFeedPlaylists(cdn, net);
    if delivered.Some? {
      f.lastCDN := Some(cdn);
    }
  }

  /** With the bookkeeping in place the second request for a CDN is answered
      from the cache, whatever the network does by then. */
  method SecondRequestIsCached(f: Feed, cdn: CDN, first: StreamServices, second: StreamServices)
    returns (a: Option<seq<FeedPlaylist>>, b: Option<seq<FeedPlaylist>>)
    requires f.MasterURL(cdn, first).Some?
    modifies f
    ensures a.Some? && b == a && f.feedPlaylists == a
  {
    a := GetFeedPlaylistsMemoized(f, cdn, first);
    b := GetFeedPlaylistsMemoized(f, cdn, second);
  }

  /** The id text sits between a fixed prefix and a fixed suffix, so the
      surrounding URL determines the id. */
  lemma {:induction false} IdTextIsRecoverable(prefix: string, suffix: string, a: int, b: int)
    requires prefix + IntToString(a) + suffix == prefix + IntToString(b) + suffix
    ensures a == b
  {
    var u := prefix + IntToString(a) + suffix;
    var n := |IntToString(a)|;
    assert |IntToString(b)| == n;
    assert u[|prefix|..|prefix| + n] == IntToString(a);
    assert (prefix + IntToString(b) + suffix)[|prefix|..|prefix| + n] == IntToString(b);
    IntToStringRoundTrip(a);
    IntToStringRoundTrip(b);
  }

  /** Two feeds of the same league and day with different playback ids ask
      for different first redirect URLs on any CDN. */
  lemma {:induction false} DistinctIdsGiveDistinctUrls(f: Feed, g: Feed, cdn: CDN)
    requires f.league == g.league && f.gameDate == g.gameDate
    requires f.playbackID != g.playbackID
    ensures f.RedirectCandidates(cdn)[0] != g.RedirectCandidates(cdn)[0]
  {
    var base := (if f.league == NHL then NhlStreamBase else MlbStreamBase) + f.gameDate + "/";
    var suffix := FeedCdnRawValue(cdn);
    assert f.RedirectCandidates(cdn)[0] == base + IntToString(f.playbackID) + suffix;
    assert g.RedirectCandidates(cdn)[0] == base + IntToString(g.playbackID) + suffix;
    if f.RedirectCandidates(cdn)[0] == g.RedirectCandidates(cdn)[0] {
      IdTextIsRecoverable(base, suffix, f.playbackID, g.playbackID);
    }
  }

  /** For NHL the unsuffixed URL is fetched only when the suffixed fetch
      fails; for MLB the outcome depends on the suffixed fetch alone. */
  lemma MasterURLFallback(f: Feed, cdn: CDN, net: StreamServices)
    ensures var urls := f.RedirectCandidates(cdn);
      net.fetchBody(urls[0]).Some? ==> f.MasterURL(cdn, net) == net.toURL(net.fetchBody(urls[0]).value)
    ensures var urls := f.RedirectCandidates(cdn);
      f.league == NHL && net.fetchBody(urls[0]).None? ==>
        f.MasterURL(cdn, net) == (if net.fetchBody(urls[1]).Some? then net.toURL(net.fetchBody(urls[1]).value) else None)
    ensures var urls := f.RedirectCandidates(cdn);
      f.league == MLB && net.fetchBody(urls[0]).None? ==> f.MasterURL(cdn, net).None?
  {
    var urls := f.RedirectCandidates(cdn);
    if f.league == NHL && net.fetchBody(urls[0]).None? {
      assert urls[1..] == [urls[1]];
    }
  }

  /** "HOME" with call letters and no feed name is titled "Home (NESN)". */
  lemma HomeFeedTitle()
    ensures TitleOf(NormalizeFeedType("HOME"), "NESN", "") == "Home (NESN)"
  {
  }
}
