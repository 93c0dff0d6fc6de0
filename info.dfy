/**
 * The read-only commands: `/nowplaying`, `/queue`, `/history`, `/favorites`
 * and `/lyrics`. Each either refuses with a titled message or shows a card;
 * none changes a record.
 */
module InfoCommands {
  import opened Common
  import opened Text
  import opened Tracks
  import opened State
  import opened Embed

  /** A shown embed: title, description, fields, thumbnail and footer text. */
  datatype Card = Card(title: string, description: string, fields: seq<Field>, thumbnail: Option<string>, footer: string)

  datatype Reply = Refused(title: string) | Shown(card: Card)

  const NoMusic := "❌ No Music Playing"
  const NowPlayingTitle := "🎶 Now Playing"
  const QueueEmpty := "📭 Queue Empty"
  const QueueTitle := "🎵 Music Queue"
  const QueueFooter := "Queue • Music System"
  const NoHistory := "📭 No History Found"
  const HistoryTitle := "🕒 Recently Played"
  const NoFavorites := "⭐ No Favorites"
  const FavoritesTitle := "⭐ Favorite Songs"
  const LyricsNotFound := "❌ Lyrics Not Found"
  const ListLimit := 10
  const LyricsLimit := 4096
  const LyricsKeep := 4090

  /** The guild's record, if the guild has one. */
  function RecordOf(reg: map<GuildId, Playback>, g: GuildId): Option<Playback> {
    if g in reg then Some(reg[g]) else None
  }

  /** What `/nowplaying` reads from the guild's voice client: its volume, if it has one. */
  datatype VoiceClient = VoiceClient(volume: Option<nat>)

  /** `/nowplaying`: refused unless there is a record with a current track and a voice client. */
  function NowPlaying(reg: map<GuildId, Playback>, g: GuildId, client: Option<VoiceClient>, guildName: string): (r: Reply)
    ensures r.Refused? <==> g !in reg || reg[g].current.None? || client.None?
    ensures r.Refused? ==> r.title == NoMusic
    ensures r.Shown? ==>
      var t := reg[g].current.value;
      && |r.card.fields| == (if client.value.volume.Some? then 3 else 2)
      && r.card.fields[0] == Field("Artist", if t.author == "" then "Unknown" else t.author, true)
      && r.card.fields[|r.card.fields| - 1] == Field("Autoplay", if reg[g].autoplay then "ON ✅" else "OFF ❌", true)
      && (client.value.volume.Some? ==> r.card.fields[1] == Field("Volume", Decimal(client.value.volume.value) + "%", true))
      && r.card.title == NowPlayingTitle
      && r.card.description == (if t.uri != "" then Link(t.title, t.uri) else t.title)
      && (r.card.thumbnail.Some? <==> t.artwork != "")
      && (r.card.thumbnail.Some? ==> r.card.thumbnail.value == t.artwork)
      && r.card.footer == "Requested in " + guildName
  {
    if g !in reg || reg[g].current.None? || client.None? then Refused(NoMusic)
    else
      var p := reg[g];
      var t := p.current.value;
      var artist := Field("Artist", if t.author == "" then "Unknown" else t.author, true);
      var volume := if client.value.volume.Some? then [Field("Volume", Decimal(client.value.volume.value) + "%", true)] else [];
      var autoplay := Field("Autoplay", if p.autoplay then "ON ✅" else "OFF ❌", true);
      Shown(Card(
        NowPlayingTitle,
        if t.uri != "" then Link(t.title, t.uri) else t.title,
        [artist] + volume + [autoplay],
        if t.artwork != "" then Some(t.artwork) else None,
        "Requested in " + guildName))
  }

  /** One listing line: the number in backticks, the bold title, a dash and the author. */
  function Line(n: nat, t: Track): string {
    "`" + Decimal(n) + ".` **" + t.title + "** — " + t.author
  }

  /** The number a listing line starts with reads back as `n`. */
  lemma LineShowsNumber(n: nat, t: Track)
    ensures var d := Decimal(n);
      && Line(n, t)[0] == '`'
      && Line(n, t)[1..1 + |d|] == d && Value(d) == n
      && Line(n, t)[1 + |d|] == '.'
  {
    DecimalValue(n);
  }

  /** `"\n".join(lines)`. */
  function JoinLines(lines: seq<string>): string
    decreases |lines|
  {
    if lines == [] then ""
    else if |lines| == 1 then lines[0]
    else lines[0] + "\n" + JoinLines(lines[1..])
  }

  /** Numbered lines for `tracks`, counting from `from`. */
  function Numbered(tracks: seq<Track>, from: nat): (r: seq<string>)
    ensures |r| == |tracks|
    ensures forall i :: 0 <= i < |tracks| ==> r[i] == Line(from + i, tracks[i])
    decreases |tracks|
  {
    if tracks == [] then [] else [Line(from, tracks[0])] + Numbered(tracks[1..], from + 1)
  }

  /** The first ten tracks (all of them when there are fewer). */
  function FirstTen(tracks: seq<Track>): (r: seq<Track>)
    ensures |r| == if |tracks| < ListLimit then |tracks| else ListLimit
    ensures r == tracks[..|r|]
  {
    if |tracks| < ListLimit then tracks else tracks[..ListLimit]
  }

  /** The last ten tracks (all of them when there are fewer). */
  function LastTen(tracks: seq<Track>): (r: seq<Track>)
    ensures |r| == if |tracks| < ListLimit then |tracks| else ListLimit
    ensures r == tracks[|tracks| - |r|..]
  {
    if |tracks| < ListLimit then tracks else tracks[|tracks| - ListLimit..]
  }

  /** The footer of `/queue`: how many tracks are not listed, or the plain footer when none are hidden. */
  function QueueFooterFor(n: nat): (r: string)
    ensures n > ListLimit ==> r == "And " + Decimal(n - ListLimit) + " more tracks in queue..."
    ensures n <= ListLimit ==> r == QueueFooter
  {
    if n > ListLimit then "And " + Decimal(n - ListLimit) + " more tracks in queue..." else QueueFooter
  }

  /**
   * `/queue`: refused when there is no record or its queue is empty; otherwise
   * the first ten tracks numbered from 1, and a footer counting the rest.
   */
  function QueueCommand(reg: map<GuildId, Playback>, g: GuildId): (r: Reply)
    ensures r.Refused? <==> g !in reg || reg[g].queue == []
    ensures r.Refused? ==> r.title == QueueEmpty
    ensures r.Shown? ==>
      && r.card.description == JoinLines(Numbered(FirstTen(reg[g].queue), 1))
      && r.card.footer == QueueFooterFor(|reg[g].queue|)
  {
    if g !in reg || reg[g].queue == [] then Refused(QueueEmpty)
    else
      var q := reg[g].queue;
      Shown(Card(QueueTitle, JoinLines(Numbered(FirstTen(q), 1)), [], None, QueueFooterFor(|q|)))
  }

  /** The listed lines of `/queue` are exactly the first ten tracks, the i-th numbered i + 1. */
  lemma QueueListsFirstTen(q: seq<Track>)
    ensures var lines := Numbered(FirstTen(q), 1);
      && |lines| <= ListLimit
      && (|q| >= ListLimit ==> |lines| == ListLimit)
      && forall i :: 0 <= i < |lines| ==> lines[i] == Line(i + 1, q[i])
  {
  }

  /** `MusicState` defines no `history` or `favorites` attribute, so both read as empty. */
  function HistoryOf(p: Option<Playback>): seq<Track> {
    []
  }

  function FavoritesOf(p: Option<Playback>): seq<Track> {
    []
  }

  /** `/history` on a given history: refused when empty, else its last ten. */
  function HistoryListing(history: seq<Track>): (r: Reply)
    ensures r.Refused? <==> history == []
    ensures r.Shown? ==> r.card.description == JoinLines(Numbered(LastTen(history), 1))
  {
    if history == [] then Refused(NoHistory)
    else Shown(Card(HistoryTitle, JoinLines(Numbered(LastTen(history), 1)), [], None, "History • Music System"))
  }

  /** `/favorites` on given favorites: refused when empty, else the first ten. */
  function FavoritesListing(favorites: seq<Track>): (r: Reply)
    ensures r.Refused? <==> favorites == []
    ensures r.Shown? ==> r.card.description == JoinLines(Numbered(FirstTen(favorites), 1))
  {
    if favorites == [] then Refused(NoFavorites)
    else Shown(Card(FavoritesTitle, JoinLines(Numbered(FirstTen(favorites), 1)), [], None, "Favorites • Music System"))
  }

  /** With the attributes absent, `/history` and `/favorites` always refuse. */
  lemma HistoryAndFavoritesAlwaysEmpty(reg: map<GuildId, Playback>, g: GuildId)
    ensures HistoryListing(HistoryOf(RecordOf(reg, g))) == Refused(NoHistory)
    ensures FavoritesListing(FavoritesOf(RecordOf(reg, g))) == Refused(NoFavorites)
  {
  }

  /** Lyrics longer than an embed description allows are cut to 4090 characters plus a newline and an ellipsis. */
  function Truncate(lyrics: string): (r: string)
    ensures |r| <= LyricsLimit
    ensures |lyrics| <= LyricsLimit ==> r == lyrics
    ensures |lyrics| > LyricsLimit ==> |r| == LyricsKeep + 2 && r[..LyricsKeep] == lyrics[..LyricsKeep] && r[LyricsKeep..] == "\n…"
  {
    if |lyrics| > LyricsLimit then lyrics[..LyricsKeep] + "\n…" else lyrics
  }

  /** Truncated text fits, so truncating again changes nothing. */
  lemma TruncateIdempotent(lyrics: string)
    ensures Truncate(Truncate(lyrics)) == Truncate(lyrics)
  {
  }

  /** What the lyrics service answers: it raised, found nothing, or found a song (whose lyrics may be empty). */
  datatype LyricsLookup = LookupRaised | NoSong | Song(title: string, lyrics: string)

  /**
   * `/lyrics`: refused without a current track; a failed lookup, no song or
   * empty lyrics give "Lyrics Not Found"; otherwise the (truncated) lyrics.
   */
  function LyricsCommand(reg: map<GuildId, Playback>, g: GuildId, lookup: (string, string) -> LyricsLookup, guildName: string): (r: Reply)
    ensures g !in reg || reg[g].current.None? ==> r == Refused(NoMusic)
    ensures g in reg && reg[g].current.Some? ==>
      var found := lookup(reg[g].current.value.title, reg[g].current.value.author);
      && (r.Refused? <==> !found.Song? || found.lyrics == "")
      && (r.Refused? ==> r.title == LyricsNotFound)
      && (r.Shown? ==> r.card.description == Truncate(found.lyrics) && |r.card.description| <= LyricsLimit)
  {
    if g !in reg || reg[g].current.None? then Refused(NoMusic)
    else
      var t := reg[g].current.value;
      var found := lookup(t.title, t.author);
      if !found.Song? || found.lyrics == "" then Refused(LyricsNotFound)
      else Shown(Card("🎤 " + found.title, Truncate(found.lyrics), [], None, "Requested in " + guildName))
  }
}
