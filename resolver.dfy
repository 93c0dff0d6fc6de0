/**
 * `resolve_tracks`: a Spotify playlist link becomes one searched track per
 * playlist item; any other query becomes the first search result. Every
 * returned track carries the requester. The playlist service and the search
 * are parameters; an exception from either (or a malformed item) makes the
 * whole call raise.
 */
module Resolver {
  import opened Common
  import opened Text
  import opened Tracks
  import opened Autoplay

  const PlaylistMarker := "spotify.com/playlist"
  const VideoSearchPrefix := "ytsearch:"

  /** A playlist item's track data: its name and its artists' names. */
  datatype TrackData = TrackData(name: string, artists: seq<string>)

  /** A playlist item; `None` when it has no (or empty) track data. */
  datatype Item = Item(track: Option<TrackData>)

  datatype FetchOutcome = FetchRaised | Items(items: seq<Item>)

  datatype Resolution = ResolveRaised | Resolved(tracks: seq<Track>)

  /** The playlist branch is taken iff the marker occurs in the query at some index. */
  function IsPlaylist(query: string): (b: bool)
    ensures b <==> exists i :: OccursAt(query, PlaylistMarker, i)
  {
    ContainsIffOccurs(query, PlaylistMarker);
    Contains(query, PlaylistMarker)
  }

  /** The playlist id: after the last '/', then before the first '?'. */
  function PlaylistId(query: string): (pid: string)
    ensures pid == BeforeFirst(AfterLast(query, '/'), '?')
    ensures '/' !in pid && '?' !in pid
    ensures |pid| <= |query|
  {
    var tail := AfterLast(query, '/');
    var pid := BeforeFirst(tail, '?');
    assert forall k :: 0 <= k < |pid| ==> pid[k] == tail[k];
    pid
  }

  /**
   * Where the id sits in the query: it starts right after the last '/' (or at
   * the start when there is none), no '/' follows that point, and it ends at
   * the first '?' after it (or at the end of the query).
   */
  lemma PlaylistIdLocated(query: string)
    ensures var k := |query| - |AfterLast(query, '/')|; var pid := PlaylistId(query);
      && 0 <= k && k + |pid| <= |query|
      && query[k..k + |pid|] == pid
      && (k == 0 || query[k - 1] == '/')
      && '/' !in query[k..]
      && (k + |pid| == |query| || query[k + |pid|] == '?')
  {
    var tail := AfterLast(query, '/');
    SliceOfSuffix(query, tail, BeforeFirst(tail, '?'));
  }

  /** A prefix `pid` of a suffix `tail` of `query` sits in `query` right where `tail` starts. */
  lemma SliceOfSuffix(query: string, tail: string, pid: string)
    requires |tail| <= |query| && tail == query[|query| - |tail|..]
    requires |pid| <= |tail| && pid == tail[..|pid|]
    ensures var k := |query| - |tail|;
      && query[k..k + |pid|] == pid
      && (|pid| < |tail| ==> query[k + |pid|] == tail[|pid|])
  {
    var k := |query| - |tail|;
    assert query[k..][..|pid|] == query[k..k + |pid|];
  }

  /** A first search result, tagged with who asked for it. */
  function FirstResult(search: string -> SearchOutcome, q: string, who: Requester): (r: Resolution)
    ensures r.Resolved? ==> |r.tracks| <= 1
    ensures r.Resolved? && r.tracks != [] ==>
      && search(VideoSearchPrefix + q).Found? && search(VideoSearchPrefix + q).results != []
      && r.tracks[0] == WithRequester(search(VideoSearchPrefix + q).results[0], who)
    ensures r.ResolveRaised? <==> search(VideoSearchPrefix + q).SearchRaised?
  {
    match search(VideoSearchPrefix + q)
    case SearchRaised => ResolveRaised
    case Found(results) => if results == [] then Resolved([]) else Resolved([WithRequester(results[0], who)])
  }

  /**
   * What one playlist item adds: nothing when it has no track data, otherwise
   * the first result for "name first-artist". An item with no artists raises.
   */
  function Contribution(item: Item, search: string -> SearchOutcome, who: Requester): (r: Resolution)
    ensures r.Resolved? ==> |r.tracks| <= 1
    ensures item.track.None? ==> r == Resolved([])
  {
    if item.track.None? then Resolved([])
    else if item.track.value.artists == [] then ResolveRaised
    else FirstResult(search, item.track.value.name + " " + item.track.value.artists[0], who)
  }

  /** The playlist loop's result: the items' contributions in order, or a raise from the first item that raises. */
  function PlaylistTracks(items: seq<Item>, search: string -> SearchOutcome, who: Requester): (r: Resolution)
    ensures r.Resolved? ==> |r.tracks| <= |items|
    ensures (forall i :: 0 <= i < |items| ==> items[i].track.None?) ==> r == Resolved([])
    decreases |items|
  {
    if items == [] then Resolved([])
    else
      var before := PlaylistTracks(items[..|items| - 1], search, who);
      var last := Contribution(items[|items| - 1], search, who);
      if before.ResolveRaised? || last.ResolveRaised? then ResolveRaised
      else Resolved(before.tracks + last.tracks)
  }

  /** The requester attributes are set on a track. */
  predicate Tagged(t: Track, who: Requester) {
    && t.extras.requesterName == Some(who.displayName)
    && t.extras.requesterTag == Some(who.discriminator)
    && t.extras.requesterId == Some(who.id)
    && t.extras.requesterAvatar == Some(who.avatarUrl)
  }

  /** At most one track per item, and every track carries the requester. */
  lemma {:induction false} PlaylistTracksBounded(items: seq<Item>, search: string -> SearchOutcome, who: Requester)
    ensures var r := PlaylistTracks(items, search, who);
      r.Resolved? ==> |r.tracks| <= |items| && forall i :: 0 <= i < |r.tracks| ==> Tagged(r.tracks[i], who)
    decreases |items|
  {
    if items != [] {
      var init := items[..|items| - 1];
      PlaylistTracksBounded(init, search, who);
      var before := PlaylistTracks(init, search, who);
      var last := Contribution(items[|items| - 1], search, who);
      if before.Resolved? && last.Resolved? {
        var all := before.tracks + last.tracks;
        forall i | 0 <= i < |all|
          ensures Tagged(all[i], who)
        {
          if i >= |before.tracks| {
            assert all[i] == last.tracks[0];
          }
        }
      }
    }
  }

  /** Once an item raises, the loop's result over any longer prefix is a raise. */
  lemma {:induction false} RaiseIsFinal(items: seq<Item>, i: nat, j: nat, search: string -> SearchOutcome, who: Requester)
    requires i <= j <= |items|
    requires PlaylistTracks(items[..i], search, who).ResolveRaised?
    ensures PlaylistTracks(items[..j], search, who).ResolveRaised?
    decreases j - i
  {
    if i < j {
      assert items[..i + 1][..i] == items[..i];
      RaiseIsFinal(items, i + 1, j, search, who);
    }
  }

  /** Items without track data are skipped: they contribute nothing. */
  lemma SkippedItems(items: seq<Item>, item: Item, search: string -> SearchOutcome, who: Requester)
    requires item.track.None?
    ensures PlaylistTracks(items + [item], search, who) == PlaylistTracks(items, search, who)
  {
    assert (items + [item])[..|items|] == items;
  }

  /** The `for item in items` loop. */
  method ResolvePlaylist(items: seq<Item>, search: string -> SearchOutcome, who: Requester) returns (r: Resolution)
    ensures r == PlaylistTracks(items, search, who)
  {
    var tracks: seq<Track> := [];
    for i := 0 to |items|
      invariant PlaylistTracks(items[..i], search, who) == Resolved(tracks)
    {
      assert items[..i + 1][..i] == items[..i];
      var item := items[i];
      if item.track.None? {
        continue;
      }
      var data := item.track.value;
      if data.artists == [] {
        RaiseIsFinal(items, i + 1, |items|, search, who);
        assert items[..|items|] == items;
        return ResolveRaised;
      }
      var q := data.name + " " + data.artists[0];
      var found := search(VideoSearchPrefix + q);
      if found.SearchRaised? {
        RaiseIsFinal(items, i + 1, |items|, search, who);
        assert items[..|items|] == items;
        return ResolveRaised;
      }
      if found.results != [] {
        tracks := tracks + [WithRequester(found.results[0], who)];
      }
    }
    assert items[..|items|] == items;
    r := Resolved(tracks);
  }

  /** `resolve_tracks` as a whole. */
  function Resolve(query: string, fetch: string -> FetchOutcome, search: string -> SearchOutcome, who: Requester): (r: Resolution)
    ensures IsPlaylist(query) && fetch(PlaylistId(query)).FetchRaised? ==> r.ResolveRaised?
    ensures r.Resolved? && IsPlaylist(query) ==> |r.tracks| <= |fetch(PlaylistId(query)).items|
    ensures r.Resolved? && !IsPlaylist(query) ==> |r.tracks| <= 1
    ensures r.Resolved? ==> forall i :: 0 <= i < |r.tracks| ==> Tagged(r.tracks[i], who)
  {
    if IsPlaylist(query) then
      match fetch(PlaylistId(query))
      case FetchRaised => ResolveRaised
      case Items(items) =>
        PlaylistTracksBounded(items, search, who);
        PlaylistTracks(items, search, who)
    else FirstResult(search, query, who)
  }

  /** A query that is not a playlist link resolves to nothing or to exactly the first search result. */
  lemma PlainQueryFirstResult(query: string, fetch: string -> FetchOutcome, search: string -> SearchOutcome, who: Requester)
    requires !IsPlaylist(query)
    ensures var r := Resolve(query, fetch, search, who);
      && (r.ResolveRaised? <==> search(VideoSearchPrefix + query).SearchRaised?)
      && (r.Resolved? && search(VideoSearchPrefix + query).results == [] ==> r.tracks == [])
      && (r.Resolved? && search(VideoSearchPrefix + query).results != [] ==>
            r.tracks == [WithRequester(search(VideoSearchPrefix + query).results[0], who)])
  {
  }

  /** `resolve_tracks` on the objects: the playlist branch runs the loop. */
  method ResolveTracks(query: string, fetch: string -> FetchOutcome, search: string -> SearchOutcome, who: Requester) returns (r: Resolution)
    ensures r == Resolve(query, fetch, search, who)
    ensures r.Resolved? && IsPlaylist(query) ==> |r.tracks| <= |fetch(PlaylistId(query)).items|
    ensures r.Resolved? && !IsPlaylist(query) ==> |r.tracks| <= 1
    ensures r.Resolved? ==> forall i :: 0 <= i < |r.tracks| ==> Tagged(r.tracks[i], who)
  {
    if IsPlaylist(query) {
      var fetched := fetch(PlaylistId(query));
      if fetched.FetchRaised? {
        return ResolveRaised;
      }
      r := ResolvePlaylist(fetched.items, search, who);
      PlaylistTracksBounded(fetched.items, search, who);
    } else {
      r := FirstResult(search, query, who);
    }
  }
}
