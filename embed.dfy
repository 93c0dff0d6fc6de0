/**
 * The control-panel embed rendered from a playback record (`build_player_embed`).
 * A pure function of the record: it reads every field it shows and changes nothing.
 */
module Embed {
  import opened Common
  import opened Text
  import opened Tracks
  import opened State

  const SystemIcon := "https://media.discordapp.net/attachments/1420115492580098272/1452709148344062106/Mikey.png?ex=694acc52&is=69497ad2&hm=22b482987bea03204bab414b2eb2e489d644d4bc9585c9702d879b5b6d47ff24&=&format=webp&quality=lossless"

  datatype Field = Field(name: string, value: string, inline: bool)

  /** The parts of a Discord embed the panel sets. */
  datatype Panel = Panel(
    title: string,
    description: string,
    author: string,
    authorIcon: string,
    fields: seq<Field>,
    thumbnail: Option<string>,
    footer: string,
    footerIcon: string)

  /** A track is playing and a requester name is attached to it. */
  predicate HasRequester(track: Option<Track>) {
    track.Some? && track.value.extras.requesterName.Some?
  }

  /** The requester shown on the panel, with "Music System" standing in when there is none. */
  function RequesterName(track: Option<Track>): (r: string)
    ensures HasRequester(track) ==> r == track.value.extras.requesterName.value
    ensures !HasRequester(track) ==> r == "Music System"
  {
    if HasRequester(track) then track.value.extras.requesterName.value else "Music System"
  }

  /** The requester's avatar, falling back to the system icon. */
  function RequesterAvatar(track: Option<Track>): (r: string)
    ensures HasRequester(track) && track.value.extras.requesterAvatar.Some? ==> r == track.value.extras.requesterAvatar.value
    ensures !(HasRequester(track) && track.value.extras.requesterAvatar.Some?) ==> r == SystemIcon
  {
    if HasRequester(track) then
      match track.value.extras.requesterAvatar
      case Some(url) => url
      case None => SystemIcon
    else SystemIcon
  }

  /** The "Requested By" field: name and tag (tag "0000" when absent), else "Music System". */
  function RequestedBy(track: Option<Track>): (r: string)
    ensures !HasRequester(track) ==> r == "Music System"
    ensures HasRequester(track) && track.value.extras.requesterTag.None? ==> r == RequesterName(track) + " #0000"
    ensures HasRequester(track) && track.value.extras.requesterTag.Some? ==>
      r == RequesterName(track) + " #" + track.value.extras.requesterTag.value
  {
    if HasRequester(track) then
      var tag := match track.value.extras.requesterTag
        case Some(t) => t
        case None => "0000";
      RequesterName(track) + " #" + tag
    else "Music System"
  }

  /** `M:SS` for a positive length in milliseconds, otherwise "Live". */
  function Duration(length: Option<int>): (r: string)
    ensures r == "Live" <==> length.None? || length.value <= 0
  {
    if length.Some? && length.value > 0 then
      var r := Decimal(length.value / 60000) + ":" + TwoDigits((length.value / 1000) % 60);
      assert r[|r| - 3] == ':' && "Live"[1] == 'i';
      r
    else "Live"
  }

  lemma DivOfDiv(ms: nat)
    ensures ms / 60000 == (ms / 1000) / 60
  {
    var t := ms / 1000;
    var a := ms % 1000;
    assert ms == 1000 * t + a;
    var q := t / 60;
    var b := t % 60;
    assert t == 60 * q + b;
    assert ms == 60000 * q + (1000 * b + a);
    assert 0 <= 1000 * b + a < 60000;
  }

  /**
   * Reading a rendered duration back: minutes before the colon, two-digit seconds
   * below 60 after it, and together they give the whole seconds of the length.
   */
  lemma DurationReadsBack(ms: int)
    requires ms > 0
    ensures var d := Duration(Some(ms)); var k := |d| - 3;
      && k >= 1 && d[k] == ':'
      && AllDigits(d[..k]) && AllDigits(d[k + 1..])
      && Value(d[..k]) == ms / 60000
      && Value(d[k + 1..]) == (ms / 1000) % 60 < 60
      && Value(d[..k]) * 60 + Value(d[k + 1..]) == ms / 1000
  {
    var m := Decimal(ms / 60000);
    var ss := TwoDigits((ms / 1000) % 60);
    var d := Duration(Some(ms));
    assert d == m + ":" + ss;
    var k := |d| - 3;
    assert d[..k] == m;
    assert d[k + 1..] == ss;
    DecimalValue(ms / 60000);
    DivOfDiv(ms);
  }

  function OnOff(b: bool): string {
    if b then "ON" else "OFF"
  }

  /** The two switches at the head of the footer, each at a fixed offset after its label. */
  function Switches(a: string, l: string): (r: string)
    ensures |r| == 19 + |a| + |l|
    ensures r[..10] == "Autoplay: " && r[10..10 + |a|] == a
    ensures r[10 + |a|..19 + |a|] == " • Loop: " && r[19 + |a|..] == l
  {
    var first := "Autoplay: " + a;
    var r := first + " • Loop: " + l;
    assert r[..|first|] == first && first[..10] == "Autoplay: " && first[10..] == a;
    assert r[|first|..|first| + 9] == " • Loop: ";
    r
  }

  /**
   * The footer: the autoplay switch, then the loop switch, then the queue
   * length (`FooterShowsQueueLength`), then the credit line.
   */
  function Footer(p: Playback): (r: string)
    ensures var a := OnOff(p.autoplay); var l := OnOff(p.loop);
      && |r| > 19 + |a| + |l|
      && r[..10] == "Autoplay: " && r[10..10 + |a|] == a
      && r[10 + |a|..19 + |a|] == " • Loop: " && r[19 + |a|..19 + |a| + |l|] == l
  {
    var a := OnOff(p.autoplay);
    var l := OnOff(p.loop);
    var head := Switches(a, l);
    var r := head + " • Queue: " + Decimal(|p.queue|) + "\n© 2025 Mac GunJon • Music System";
    assert r[..|head|] == head;
    r
  }

  /** The footer states the queue length exactly: the digits after "Queue: " read back as it. */
  lemma FooterShowsQueueLength(p: Playback)
    ensures var f := Footer(p);
      var head := "Autoplay: " + OnOff(p.autoplay) + " • Loop: " + OnOff(p.loop) + " • Queue: ";
      var n := Decimal(|p.queue|);
      && f[|head|..|head| + |n|] == n
      && AllDigits(n) && Value(n) == |p.queue|
      && f[|head| + |n|] == '\n'
  {
    var head := "Autoplay: " + OnOff(p.autoplay) + " • Loop: " + OnOff(p.loop) + " • Queue: ";
    var n := Decimal(|p.queue|);
    var tail := "\n© 2025 Mac GunJon • Music System";
    assert Footer(p) == head + n + tail;
    assert (head + n + tail)[|head| + |n|] == tail[0];
    DecimalValue(|p.queue|);
  }

  /**
   * The Markdown link `[title](uri)`: the title between the brackets, the uri
   * between the parentheses.
   */
  function Link(title: string, uri: string): (r: string)
    ensures |r| == |title| + |uri| + 4
    ensures r[0] == '[' && r[1..|title| + 1] == title
    ensures r[|title| + 1..|title| + 3] == "](" && r[|title| + 3..|r| - 1] == uri && r[|r| - 1] == ')'
  {
    var r := "[" + title + "](" + uri + ")";
    assert r[1..|title| + 1] == title;
    assert r[|title| + 3..|r| - 1] == uri;
    r
  }

  /** The four fields shown while a track is current: link, requester, duration, artist. */
  function NowPlayingFields(t: Track): (r: seq<Field>)
    ensures |r| == 4
    ensures r[0].value == Link(t.title, t.uri) && !r[0].inline
    ensures r[1].inline && r[2].inline && r[3].inline
    ensures r[1].value == RequestedBy(Some(t))
    ensures r[2].value == Duration(t.length)
    ensures r[3].value == if t.author == "" then "Unknown Artist" else t.author
  {
    [ Field("🎶 Music Now Playing", Link(t.title, t.uri), false),
      Field("🎧 Requested By", RequestedBy(Some(t)), true),
      Field("⏱ Duration", Duration(t.length), true),
      Field("✍ Artist", if t.author == "" then "Unknown Artist" else t.author, true) ]
  }

  const IdleField := Field("🎶 Player Status", "Nothing is playing right now.\nUse `/play` to start music.", false)

  function RequestedByLine(name: string): string {
    "Requested by " + name
  }

  function PanelFields(current: Option<Track>): (r: seq<Field>)
    ensures current.None? ==> r == [IdleField]
    ensures current.Some? ==> r == NowPlayingFields(current.value)
  {
    if current.Some? then NowPlayingFields(current.value) else [IdleField]
  }

  const PanelTitle := "🎵 Music Control Panel"
  const PanelDescription := "Control playback using the buttons below.\nQueue, autoplay, and loop status are shown at the footer."

  /** The panel for a record. */
  function BuildPlayerEmbed(p: Playback): (r: Panel)
    ensures p.current.None? ==> r.fields == [IdleField] && r.thumbnail.None?
    ensures p.current.None? ==> r.author == RequestedByLine("Music System") && r.authorIcon == SystemIcon
    ensures p.current.Some? ==> r.fields == NowPlayingFields(p.current.value)
    ensures r.author == RequestedByLine(RequesterName(p.current)) && r.authorIcon == RequesterAvatar(p.current)
    ensures r.thumbnail.Some? <==> p.current.Some? && p.current.value.artwork != ""
    ensures r.thumbnail.Some? ==> r.thumbnail.value == p.current.value.artwork
    ensures r.title == PanelTitle && r.description == PanelDescription
    ensures r.footer == Footer(p) && r.footerIcon == r.authorIcon
  {
    var avatar := RequesterAvatar(p.current);
    Panel(
      PanelTitle,
      PanelDescription,
      RequestedByLine(RequesterName(p.current)),
      avatar,
      PanelFields(p.current),
      if p.current.Some? && p.current.value.artwork != "" then Some(p.current.value.artwork) else None,
      Footer(p),
      avatar)
  }
}
