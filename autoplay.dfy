/**
 * Choosing the next track when the queue runs dry (`get_autoplay_track`):
 * pick a seed, search for similar tracks ("title author", then "author"),
 * avoid tracks with the seed's title, pick one of the top five, tag it as
 * an autoplay pick and make it the new seed.
 *
 * The search service is the parameter `search`; a search that raises is
 * `SearchRaised`. `random.choice` is any element of the candidates.
 */
module Autoplay {
  import opened Common
  import opened Text
  import opened Tracks
  import opened State

  datatype SearchOutcome = SearchRaised | Found(results: seq<Track>)

  const SearchPrefix := "ytmsearch:"
  const PickLimit := 5

  /** `state.autoplay_seed or state.current`: the seed takes precedence over the current track. */
  function SeedOf(p: Playback): (r: Option<Track>)
    ensures p.autoplaySeed.Some? ==> r == p.autoplaySeed
    ensures p.autoplaySeed.None? ==> r == p.current
    ensures r.None? <==> p.autoplaySeed.None? && p.current.None?
  {
    if p.autoplaySeed.Some? then p.autoplaySeed else p.current
  }

  /** The queries in the order they are tried: title and author, then the author alone. */
  function Queries(seed: Track): (r: seq<string>)
    ensures |r| == 2 && r[1] == seed.author
    ensures |r[0]| == |seed.title| + 1 + |seed.author|
    ensures r[0][..|seed.title|] == seed.title && r[0][|seed.title|] == ' ' && r[0][|seed.title| + 1..] == seed.author
  {
    var q := seed.title + " " + seed.author;
    assert q[..|seed.title|] == seed.title && q[|seed.title| + 1..] == seed.author;
    [q, seed.author]
  }

  /** The search string for one query. */
  function SearchFor(query: string): string {
    SearchPrefix + query
  }

  /** The results whose lower-cased title differs from the seed's, in their order. */
  function DropSameTitle(results: seq<Track>, seed: Track): (r: seq<Track>)
    ensures |r| <= |results|
    ensures forall t :: t in r ==> t in results && !SameTitle(t, seed)
    ensures forall t :: t in results && !SameTitle(t, seed) ==> t in r
    decreases |results|
  {
    if results == [] then []
    else (if !SameTitle(results[0], seed) then [results[0]] else []) + DropSameTitle(results[1..], seed)
  }

  /**
   * The filter keeps order and multiplicity: filtering a concatenation is
   * concatenating the filtered parts, so each result in turn is appended
   * exactly when its title differs from the seed's.
   */
  lemma {:induction false} DropSameTitleAppend(a: seq<Track>, b: seq<Track>, seed: Track)
    ensures DropSameTitle(a + b, seed) == DropSameTitle(a, seed) + DropSameTitle(b, seed)
    decreases |a|
  {
    if a == [] {
      assert a + b == b;
    } else {
      assert (a + b)[0] == a[0];
      assert (a + b)[1..] == a[1..] + b;
      DropSameTitleAppend(a[1..], b, seed);
    }
  }

  /**
   * Scanning the results left to right: the filter of the first `i + 1`
   * results extends the filter of the first `i` by `results[i]` exactly when
   * its title differs from the seed's, and the filter of a prefix is a prefix
   * of the whole filter.
   */
  lemma DropSameTitlePrefix(results: seq<Track>, i: nat, seed: Track)
    requires i < |results|
    ensures DropSameTitle(results[..i + 1], seed)
      == DropSameTitle(results[..i], seed) + (if SameTitle(results[i], seed) then [] else [results[i]])
    ensures var d := DropSameTitle(results[..i], seed);
      |d| <= |DropSameTitle(results, seed)| && DropSameTitle(results, seed)[..|d|] == d
  {
    var front := results[..i];
    var t := results[i];
    assert results[..i + 1] == front + [t];
    DropSameTitleAppend(front, [t], seed);
    assert DropSameTitle([t], seed) == (if SameTitle(t, seed) then [] else [t]) by {
      assert [t][1..] == [];
    }
    assert results == front + results[i..];
    DropSameTitleAppend(front, results[i..], seed);
  }

  function Take(s: seq<Track>, n: nat): (r: seq<Track>)
    ensures |r| == if |s| < n then |s| else n
    ensures r == s[..|r|]
  {
    if |s| < n then s else s[..n]
  }

  /**
   * The tracks the pick is drawn from: the first five that do not repeat the
   * seed's title, or the first five results when every result repeats it.
   */
  function Candidates(seed: Track, results: seq<Track>): (r: seq<Track>)
    requires results != []
    ensures 1 <= |r| <= PickLimit
    ensures forall c :: c in r ==> c in results
    ensures (exists t :: t in results && !SameTitle(t, seed)) ==> forall c :: c in r ==> !SameTitle(c, seed)
    ensures (forall t :: t in results ==> SameTitle(t, seed)) ==> r == Take(results, PickLimit)
    ensures (exists t :: t in results && !SameTitle(t, seed)) ==> r == Take(DropSameTitle(results, seed), PickLimit)
  {
    var filtered := DropSameTitle(results, seed);
    assert filtered != [] ==> filtered[0] in filtered;
    if filtered != [] then Take(filtered, PickLimit) else Take(results, PickLimit)
  }

  /** A search outcome that counts as results: it did not raise and found something. */
  predicate Usable(o: SearchOutcome) {
    o.Found? && o.results != []
  }

  /** The searches issued: the second query runs only when the first raised or found nothing. */
  function IssuedSearches(seed: Track, search: string -> SearchOutcome): (r: seq<string>)
    ensures 1 <= |r| <= 2
    ensures r[0] == SearchFor(seed.title + " " + seed.author)
    ensures |r| == 2 <==> !Usable(search(r[0]))
    ensures |r| == 2 ==> r[1] == SearchFor(seed.author)
  {
    var first := SearchFor(Queries(seed)[0]);
    if Usable(search(first)) then [first] else [first, SearchFor(Queries(seed)[1])]
  }

  /** The results of the first query that found any, or `None` when neither did. */
  function FirstResults(seed: Track, search: string -> SearchOutcome): (r: Option<seq<Track>>)
    ensures r.Some? ==> r.value != []
    ensures r.None? <==> !Usable(search(SearchFor(Queries(seed)[0]))) && !Usable(search(SearchFor(Queries(seed)[1])))
    ensures var issued := IssuedSearches(seed, search);
      r.Some? ==> r.value == search(issued[|issued| - 1]).results
  {
    var o0 := search(SearchFor(Queries(seed)[0]));
    var o1 := search(SearchFor(Queries(seed)[1]));
    if Usable(o0) then Some(o0.results)
    else if Usable(o1) then Some(o1.results)
    else None
  }

  /** `pick` is a candidate of the first useful search, tagged as an autoplay pick. */
  ghost predicate PickedFrom(seed: Track, search: string -> SearchOutcome, pick: Track) {
    && FirstResults(seed, search).Some?
    && exists c :: c in Candidates(seed, FirstResults(seed, search).value) && pick == MarkAutoplay(c)
  }

  /** What `get_autoplay_track` may return for a record whose seed choice is `seed`. */
  ghost predicate AutoplayResult(seed: Option<Track>, search: string -> SearchOutcome, pick: Option<Track>) {
    match seed
    case None => pick.None?
    case Some(s) =>
      && (pick.None? <==> FirstResults(s, search).None?)
      && (pick.Some? ==> PickedFrom(s, search, pick.value))
  }

  /** The search loop of `get_autoplay_track`, for a given seed. */
  method SearchSimilar(seed: Track, search: string -> SearchOutcome) returns (pick: Option<Track>, issued: seq<string>)
    ensures issued == IssuedSearches(seed, search)
    ensures pick.None? <==> FirstResults(seed, search).None?
    ensures pick.Some? ==> PickedFrom(seed, search, pick.value) && pick.value.extras.autoplay
  {
    var queries := Queries(seed);
    issued := [];
    pick := None;
    for k := 0 to |queries|
      invariant |issued| == k
      invariant forall j :: 0 <= j < k ==> issued[j] == SearchFor(queries[j])
      invariant forall j :: 0 <= j < k ==> !Usable(search(SearchFor(queries[j])))
      invariant pick == None
    {
      var query := SearchFor(queries[k]);
      issued := issued + [query];
      var outcome := search(query);
      if outcome.SearchRaised? {
        continue;
      }
      if outcome.results == [] {
        continue;
      }
      var results := outcome.results;
      var candidates := Candidates(seed, results);
      assert candidates[0] in candidates;
      var c :| c in candidates;
      pick := Some(MarkAutoplay(c));
      assert FirstResults(seed, search) == Some(results);
      return;
    }
  }

  /**
   * `get_autoplay_track(state)`: no seed means no pick and no change; a pick
   * becomes the new seed; nothing else in the record changes.
   */
  method GetAutoplayTrack(state: MusicState, search: string -> SearchOutcome) returns (pick: Option<Track>)
    modifies state
    ensures AutoplayResult(SeedOf(old(state.View())), search, pick)
    ensures state.View() == old(state.View()).(autoplaySeed := if pick.Some? then pick else old(state.autoplaySeed))
  {
    var seed := if state.autoplaySeed.Some? then state.autoplaySeed else state.current;
    if seed.None? {
      return None;
    }
    var issued;
    pick, issued := SearchSimilar(seed.value, search);
    if pick.Some? {
      state.autoplaySeed := pick;
    }
  }

  /** `get_autoplay_track` on guild `g`'s record inside the registry: only that record's seed can change. */
  method GetAutoplayTrackIn(reg: Registry, g: GuildId, search: string -> SearchOutcome) returns (pick: Option<Track>)
    requires reg.Valid() && g in reg.states
    modifies reg.states[g]
    ensures reg.Valid() && reg.states == old(reg.states)
    ensures AutoplayResult(SeedOf(old(reg.View())[g]), search, pick)
    ensures reg.View() == old(reg.View())[g := old(reg.View())[g].(autoplaySeed := if pick.Some? then pick else old(reg.View())[g].autoplaySeed)]
  {
    ghost var before := reg.View();
    ghost var p := before[g];
    pick := GetAutoplayTrack(reg.states[g], search);
    forall h | h in reg.states && h != g
      ensures reg.states[h].View() == old(reg.states[h].View())
    {
      assert reg.states[h] != reg.states[g];
    }
    assert reg.View() == before[g := p.(autoplaySeed := if pick.Some? then pick else p.autoplaySeed)];
  }

  /**
   * When any result of the useful search has a title other than the seed's,
   * the pick's title differs from the seed's (case-insensitively).
   */
  lemma PickAvoidsSeedTitle(seed: Track, search: string -> SearchOutcome, pick: Track)
    requires PickedFrom(seed, search, pick)
    requires exists t :: t in FirstResults(seed, search).value && !SameTitle(t, seed)
    ensures !SameTitle(pick, seed)
  {
    var c :| c in Candidates(seed, FirstResults(seed, search).value) && pick == MarkAutoplay(c);
  }
}
