/**
 * The `/play` command: guards, joining the caller's voice channel, the
 * guild's record (created on first use), resolving the query, then the
 * start-or-enqueue loop, the panel message and the follow-up notices.
 */
module PlayCommand {
  import opened Common
  import opened Tracks
  import opened State
  import opened Effects
  import Controls

  const ServiceOffline := "❌ Music Service Offline"
  const VoiceRequired := "🔊 Voice Channel Required"
  const NoResults := "❌ No Results Found"
  const AutoCorrectApplied := "🔎 Auto-Correct Applied"
  const TrackQueued := "📥 Track Queued"

  /** What `/play` reads from the guild's voice client. */
  datatype Client = Client(channel: Option<ChannelId>, playing: bool, paused: bool)

  /**
   * The answers of everything outside the core during one `/play`: whether
   * the audio node is up, the caller's voice state, the guild's voice client
   * before and after a connect attempt (`None` after a failed connect with no
   * client left), the resolved tracks (`None` when resolving raised), whether
   * editing the existing panel raises, and the id a newly sent panel gets.
   */
  datatype Env = Env(
    nodeReady: bool,
    voice: Option<Controls.VoiceState>,
    client: Option<Client>,
    afterConnect: Option<Client>,
    resolved: Option<seq<Track>>,
    editFails: bool,
    newMessage: MessageId)

  datatype Enqueued = Enqueued(record: Playback, started: bool)

  /**
   * The `for track in tracks` loop, one track at a time: while the player is
   * idle and nothing was started yet, the track is started (old `current` to
   * `previous`, the track to `current` and the seed); every other track is
   * appended to the queue.
   */
  function Feed(p: Playback, tracks: seq<Track>, busy: bool, started: bool): (r: Enqueued)
    ensures started ==> r.started
    decreases |tracks|
  {
    if tracks == [] then Enqueued(p, started)
    else if !busy && !started then
      Feed(p.(previous := p.current, current := Some(tracks[0]), autoplaySeed := Some(tracks[0])), tracks[1..], busy, true)
    else
      Feed(p.(queue := p.queue + [tracks[0]]), tracks[1..], busy, started)
  }

  /** Once a track is started (or the player is busy) the loop only appends, in order. */
  lemma {:induction false} FeedAppends(p: Playback, tracks: seq<Track>, busy: bool, started: bool)
    requires busy || started
    ensures Feed(p, tracks, busy, started) == Enqueued(p.(queue := p.queue + tracks), started)
    decreases |tracks|
  {
    if tracks != [] {
      var p' := p.(queue := p.queue + [tracks[0]]);
      FeedAppends(p', tracks[1..], busy, started);
      assert p'.queue + tracks[1..] == p.queue + tracks;
    } else {
      assert p.queue + tracks == p.queue;
    }
  }

  /**
   * What the loop does overall: a track is started iff the player is idle and
   * something was resolved; then it is the first track, the old `current`
   * becomes `previous`, and only the first is not queued; otherwise every
   * track is appended in order and `current`, `previous` and the seed stay.
   */
  lemma FeedResult(p: Playback, tracks: seq<Track>, busy: bool)
    ensures var r := Feed(p, tracks, busy, false);
      && (r.started <==> !busy && tracks != [])
      && (r.started ==> r.record == p.(previous := p.current, current := Some(tracks[0]), autoplaySeed := Some(tracks[0]), queue := p.queue + tracks[1..]))
      && (!r.started ==> r.record == p.(queue := p.queue + tracks))
  {
    if tracks == [] {
      assert p.queue + tracks == p.queue;
    } else if !busy {
      FeedAppends(p.(previous := p.current, current := Some(tracks[0]), autoplaySeed := Some(tracks[0])), tracks[1..], busy, true);
    } else {
      FeedAppends(p, tracks, busy, false);
    }
  }

  /** The loop on the guild's record; `queuedOnly` stays true until a track is started. */
  method StartOrEnqueue(state: MusicState, tracks: seq<Track>, busy: bool)
    returns (started: bool, queuedOnly: bool, effects: seq<Effect>)
    modifies state
    ensures Enqueued(state.View(), started) == Feed(old(state.View()), tracks, busy, false)
    ensures queuedOnly == !started
    ensures effects == if started then [Play(tracks[0], false)] else []
  {
    started, queuedOnly, effects := false, true, [];
    for i := 0 to |tracks|
      invariant Feed(state.View(), tracks[i..], busy, started) == Feed(old(state.View()), tracks, busy, false)
      invariant queuedOnly == !started
      invariant started <==> !busy && i > 0
      invariant effects == if started then [Play(tracks[0], false)] else []
    {
      assert tracks[i..][1..] == tracks[i + 1..];
      var track := tracks[i];
      if !busy && !started {
        state.previous := state.current;
        state.current := Some(track);
        effects := effects + [Play(track, false)];
        state.autoplaySeed := Some(track);
        started := true;
        queuedOnly := false;
      } else {
        state.queue := state.queue + [track];
      }
    }
  }

  /** The record `/play` works on: the existing one, or a fresh one; either way `manual_action` is set to false. */
  function Registered(reg: map<GuildId, Playback>, g: GuildId): (p: Playback)
    ensures g in reg ==> p == reg[g].(manualAction := Some(false))
    ensures g !in reg ==> p == Initial.(manualAction := Some(false))
  {
    (if g in reg then reg[g] else Initial).(manualAction := Some(false))
  }

  /** The channel a voice client is in, `None` when there is no client. */
  function ChannelOf(client: Option<Client>): Option<ChannelId> {
    if client.Some? then client.value.channel else None
  }

  /** The channel the connect, move and disconnect calls among `effects` target, last one winning (each taken as succeeding). */
  function ChannelAfter(start: Option<ChannelId>, effects: seq<Effect>): Option<ChannelId>
    decreases |effects|
  {
    if effects == [] then start
    else
      var next := match effects[0]
        case Connect(c) => Some(c)
        case MoveTo(c) => Some(c)
        case Disconnect(_) => None
        case _ => start;
      ChannelAfter(next, effects[1..])
  }

  /** Taking the calls of `a` and then those of `b` is taking the calls of `a + b`. */
  lemma {:induction false} ChannelAfterAppend(start: Option<ChannelId>, a: seq<Effect>, b: seq<Effect>)
    ensures ChannelAfter(start, a + b) == ChannelAfter(ChannelAfter(start, a), b)
    decreases |a|
  {
    if a != [] {
      assert (a + b)[0] == a[0];
      assert (a + b)[1..] == a[1..] + b;
      var next := match a[0]
        case Connect(c) => Some(c)
        case MoveTo(c) => Some(c)
        case Disconnect(_) => None
        case _ => start;
      ChannelAfterAppend(next, a[1..], b);
    } else {
      assert a + b == b;
    }
  }

  /**
   * Connecting to, or moving to, the caller's channel: a connect without a
   * client, a move when the client is elsewhere, nothing when it is already
   * there. The connect or move issued targets the caller's channel.
   */
  function JoinEffects(client: Option<Client>, channel: ChannelId): (r: seq<Effect>)
    ensures client.None? ==> r == [Connect(channel)]
    ensures client.Some? ==> (r == [MoveTo(channel)] <==> client.value.channel != Some(channel)) && |r| <= 1
    ensures client.Some? && client.value.channel == Some(channel) ==> r == []
    ensures ChannelAfter(ChannelOf(client), r) == Some(channel)
  {
    if client.None? then [Connect(channel)]
    else if client.value.channel != Some(channel) then [MoveTo(channel)]
    else []
  }

  /**
   * The panel after the loop: sent (and remembered) when the record has no
   * panel message, edited otherwise; a failed edit sends a new one instead.
   */
  function PanelStep(p: Playback, editFails: bool, newMessage: MessageId): (r: (Playback, seq<Effect>))
    ensures r.0 == p.(message := r.0.message) && r.0.message.Some?
    ensures r.1 == [EditPanel(p)] <==> p.message.Some? && !editFails
    ensures r.1 == [SendPanel(p)] <==> p.message.None? || editFails
    ensures r.0.message != p.message ==> r.0.message == Some(newMessage)
  {
    if p.message.None? || editFails then (p.(message := Some(newMessage)), [SendPanel(p)])
    else (p, [EditPanel(p)])
  }

  /** The notices after the panel: auto-correct when a corrected track was started, "queued" when nothing was. */
  function Notices(started: bool, current: Option<Track>): (r: seq<Effect>)
    ensures Reply(TrackQueued) in r <==> !started
    ensures Reply(AutoCorrectApplied) in r <==> started && current.Some? && current.value.extras.autocorrected
  {
    (if started && current.Some? && current.value.extras.autocorrected then [Reply(AutoCorrectApplied)] else [])
    + (if !started then [Reply(TrackQueued)] else [])
  }

  /**
   * `/play` for guild `g` as a transition. The voice check comes before the
   * record exists; a failed or empty resolution leaves the record created with
   * only `manual_action` set. With no player after a failed connect, reading
   * `player.playing` raises once tracks were resolved.
   */
  function PlayStep(reg: map<GuildId, Playback>, g: GuildId, env: Env): (r: Outcome)
    ensures !env.nodeReady ==> r == Outcome(reg, [Reply(ServiceOffline)], false)
    ensures env.nodeReady && (env.voice.None? || env.voice.value.channel.None?) ==> r == Outcome(reg, [Reply(VoiceRequired)], false)
    ensures r.registry.Keys <= reg.Keys + {g}
    ensures forall h :: h in reg && h != g ==> h in r.registry && r.registry[h] == reg[h]
  {
    if !env.nodeReady then Outcome(reg, [Reply(ServiceOffline)], false)
    else if env.voice.None? || env.voice.value.channel.None? then Outcome(reg, [Reply(VoiceRequired)], false)
    else
      var channel := env.voice.value.channel.value;
      var player := if env.client.None? then env.afterConnect else env.client;
      var r := InChannel(reg, g, player, env);
      Outcome(r.registry, JoinEffects(env.client, channel) + r.effects, r.raised)
  }

  /**
   * `/play` once the bot is in the caller's channel with `player` (`None` when
   * connecting failed and left no client).
   */
  function InChannel(reg: map<GuildId, Playback>, g: GuildId, player: Option<Client>, env: Env): (r: Outcome)
    ensures r.registry.Keys == reg.Keys + {g}
    ensures forall h :: h in reg && h != g ==> r.registry[h] == reg[h]
    ensures r.registry[g].manualAction == Some(false)
  {
    var reg' := reg[g := Registered(reg, g)];
    assert reg'[g := reg'[g]] == reg';
    AfterRegister(reg', g, player, env)
  }

  /** `InChannel` once guild `g` has its record: the rejection, the crash, or the loop and panel. */
  function AfterRegister(reg: map<GuildId, Playback>, g: GuildId, player: Option<Client>, env: Env): (r: Outcome)
    requires g in reg
    ensures r.registry.Keys == reg.Keys
    ensures forall h :: h in reg && h != g ==> r.registry[h] == reg[h]
    ensures r.registry[g].manualAction == reg[g].manualAction
  {
    if env.resolved.None? || env.resolved.value == [] then
      Outcome(reg, [Reply(NoResults)], false)
    else if player.None? then
      Outcome(reg, [], true)
    else
      var done := Resolved(reg[g], env.resolved.value, player.value.playing || player.value.paused, env);
      Outcome(reg[g := done.0], done.1, false)
  }

  /** Everything after a non-empty resolution: the loop, the panel, the notices. */
  function Resolved(p: Playback, tracks: seq<Track>, busy: bool, env: Env): (r: (Playback, seq<Effect>))
    requires tracks != []
    ensures r.0.message.Some? && r.0.manualAction == p.manualAction
    ensures Played(r.1) == if busy then [] else [tracks[0]]
    ensures Reply(TrackQueued) in r.1 <==> busy
  {
    var e := Feed(p, tracks, busy, false);
    FeedResult(p, tracks, busy);
    var started := if e.started then [Play(tracks[0], false)] else [];
    var panel := PanelStep(e.record, env.editFails, env.newMessage);
    var notices := Notices(e.started, panel.0.current);
    PlayedAppend(started, panel.1);
    PlayedAppend(started + panel.1, notices);
    assert Played(panel.1) == [] && Played(notices) == [] by {
      assert forall x :: x in panel.1 ==> !x.Play?;
    }
    assert Reply(TrackQueued) !in started + panel.1;
    (panel.0, started + panel.1 + notices)
  }

  /** `/play` on the objects. */
  method PlayQuery(reg: Registry, g: GuildId, env: Env) returns (effects: seq<Effect>, raised: bool)
    requires reg.Valid()
    modifies reg, reg.states.Values
    ensures reg.Valid()
    ensures Outcome(reg.View(), effects, raised) == PlayStep(old(reg.View()), g, env)
  {
    if !env.nodeReady {
      return [Reply(ServiceOffline)], false;
    }
    if env.voice.None? || env.voice.value.channel.None? {
      return [Reply(VoiceRequired)], false;
    }
    var channel := env.voice.value.channel.value;
    var player := env.client;
    if player.None? {
      effects := [Connect(channel)];
      player := env.afterConnect;
    } else if player.value.channel != Some(channel) {
      effects := [MoveTo(channel)];
    } else {
      effects := [];
    }
    var more;
    more, raised := PlayInChannel(reg, g, player, env);
    effects := effects + more;
  }

  /** `InChannel` on the objects. */
  method PlayInChannel(reg: Registry, g: GuildId, player: Option<Client>, env: Env) returns (effects: seq<Effect>, raised: bool)
    requires reg.Valid()
    modifies reg, reg.states.Values
    ensures reg.Valid()
    ensures Outcome(reg.View(), effects, raised) == InChannel(old(reg.View()), g, player, env)
  {
    ghost var before: map<GuildId, Playback> := reg.View();
    Register(reg, g);
    ghost var p := Registered(before, g);
    effects, raised := PlayRegistered(reg, g, player, env);
    assert InChannel(before, g, player, env) == AfterRegister(before[g := p], g, player, env);
  }

  /** The part of `InChannel` after the record is registered. */
  method PlayRegistered(reg: Registry, g: GuildId, player: Option<Client>, env: Env) returns (effects: seq<Effect>, raised: bool)
    requires reg.Valid() && g in reg.states
    modifies reg.states[g]
    ensures reg.Valid()
    ensures Outcome(reg.View(), effects, raised) == AfterRegister(old(reg.View()), g, player, env)
  {
    if env.resolved.None? || env.resolved.value == [] {
      return [Reply(NoResults)], false;
    }
    if player.None? {
      return [], true;
    }
    var busy := player.value.playing || player.value.paused;
    effects := RunResolved(reg, g, env.resolved.value, busy, env);
    raised := false;
  }

  /** `music_states.setdefault(g, MusicState())` followed by `manual_action = False`. */
  method Register(reg: Registry, g: GuildId)
    requires reg.Valid()
    modifies reg, reg.states.Values
    ensures reg.Valid() && g in reg.states
    ensures g in old(reg.states) ==> reg.states[g] == old(reg.states[g])
    ensures g !in old(reg.states) ==> fresh(reg.states[g])
    ensures reg.View() == old(reg.View())[g := Registered(old(reg.View()), g)]
  {
    ghost var before := reg.View();
    var state := reg.SetDefault(g);
    assert state.View().(manualAction := Some(false)) == Registered(before, g);
    reg.Update(g, state.View().(manualAction := Some(false)));
    if g !in before {
      SetTwice(before, g, Initial, Registered(before, g));
    }
  }

  /**
   * Everything after a non-empty resolution, on the guild's record: the loop,
   * then the panel (a newly sent panel message is remembered), then the notices.
   */
  method ResolvedOn(state: MusicState, tracks: seq<Track>, busy: bool, env: Env) returns (effects: seq<Effect>)
    requires tracks != []
    modifies state
    ensures state.View() == Resolved(old(state.View()), tracks, busy, env).0
    ensures effects == Resolved(old(state.View()), tracks, busy, env).1
  {
    ghost var p0 := state.View();
    var started, queuedOnly, playEffects := StartOrEnqueue(state, tracks, busy);
    var shown := state.View();
    var panelEffects;
    if state.message.None? || env.editFails {
      panelEffects := [SendPanel(shown)];
      state.message := Some(env.newMessage);
    } else {
      panelEffects := [EditPanel(shown)];
    }
    var notices: seq<Effect> := [];
    if started && state.current.Some? && state.current.value.extras.autocorrected {
      notices := [Reply(AutoCorrectApplied)];
    }
    if queuedOnly {
      notices := notices + [Reply(TrackQueued)];
    }
    effects := playEffects + panelEffects + notices;
    ResolvedSteps(p0, tracks, busy, env);
  }

  /** `ResolvedOn` for guild `g`'s record inside the registry; no other record changes. */
  method RunResolved(reg: Registry, g: GuildId, tracks: seq<Track>, busy: bool, env: Env) returns (effects: seq<Effect>)
    requires reg.Valid() && g in reg.states && tracks != []
    modifies reg.states[g]
    ensures reg.Valid() && reg.states == old(reg.states)
    ensures reg.View() == old(reg.View())[g := Resolved(old(reg.View())[g], tracks, busy, env).0]
    ensures effects == Resolved(old(reg.View())[g], tracks, busy, env).1
  {
    ghost var before: map<GuildId, Playback> := reg.View();
    effects := ResolvedOn(reg.states[g], tracks, busy, env);
    forall h | h in reg.states && h != g
      ensures reg.states[h].View() == old(reg.states[h].View())
    {
      assert reg.states[h] != reg.states[g];
    }
    assert reg.View() == before[g := reg.states[g].View()];
  }

  /** `Resolved` as its three steps: the loop, the panel, the notices. */
  lemma ResolvedSteps(p: Playback, tracks: seq<Track>, busy: bool, env: Env)
    requires tracks != []
    ensures var e := Feed(p, tracks, busy, false);
      var panel := PanelStep(e.record, env.editFails, env.newMessage);
      Resolved(p, tracks, busy, env)
        == (panel.0, (if e.started then [Play(tracks[0], false)] else []) + panel.1 + Notices(e.started, panel.0.current))
  {
  }

  /** The player `/play` goes on with: the existing client, or what connecting left. */
  function PlayerAfterJoin(env: Env): Option<Client> {
    if env.client.None? then env.afterConnect else env.client
  }

  /** Both guards passed: the caller is in a voice channel and the node is up. */
  predicate GuardsPass(env: Env) {
    env.nodeReady && env.voice.Some? && env.voice.value.channel.Some?
  }

  /**
   * Past the guards, `/play` always leaves a record for the guild (the
   * existing one is reused) with `manual_action` false, and no other record
   * changes.
   */
  lemma PlayKeepsOneRecordPerGuild(reg: map<GuildId, Playback>, g: GuildId, env: Env)
    requires GuardsPass(env)
    ensures var r := PlayStep(reg, g, env);
      && r.registry.Keys == reg.Keys + {g}
      && r.registry[g].manualAction == Some(false)
      && forall h :: h in reg && h != g ==> r.registry[h] == reg[h]
  {
  }

  /**
   * A failed or empty resolution is refused after the record was made: the
   * record is the old one (or a fresh one) with only `manual_action` set.
   */
  lemma PlayRejectsNoResults(reg: map<GuildId, Playback>, g: GuildId, env: Env)
    requires GuardsPass(env)
    requires env.resolved.None? || env.resolved.value == []
    ensures var r := PlayStep(reg, g, env);
      && r.registry == reg[g := Registered(reg, g)]
      && r.effects[|r.effects| - 1] == Reply(NoResults)
      && Played(r.effects) == [] && !r.raised
  {
    var r := PlayStep(reg, g, env);
    var channel := env.voice.value.channel.value;
    var reg' := reg[g := Registered(reg, g)];
    assert r.effects == JoinEffects(env.client, channel) + [Reply(NoResults)];
    PlayedAppend(JoinEffects(env.client, channel), [Reply(NoResults)]);
  }

  /** The record after a successful resolution, as the loop and the panel leave it. */
  lemma ResolvedRecord(p: Playback, tracks: seq<Track>, busy: bool, env: Env)
    requires tracks != []
    ensures var q := Resolved(p, tracks, busy, env).0;
      && (!busy ==> q.(message := p.message) == p.(previous := p.current, current := Some(tracks[0]), autoplaySeed := Some(tracks[0]), queue := p.queue + tracks[1..]))
      && (busy ==> q.(message := p.message) == p.(queue := p.queue + tracks))
  {
    FeedResult(p, tracks, busy);
  }

  /** `InChannel` with tracks resolved and a player: `Resolved` on the registered record. */
  lemma InChannelResolved(reg: map<GuildId, Playback>, g: GuildId, c: Client, env: Env)
    requires env.resolved.Some? && env.resolved.value != []
    ensures var done := Resolved(Registered(reg, g), env.resolved.value, c.playing || c.paused, env);
      InChannel(reg, g, Some(c), env) == Outcome(reg[g := done.0], done.1, false)
  {
    var done := Resolved(Registered(reg, g), env.resolved.value, c.playing || c.paused, env);
    var reg' := reg[g := Registered(reg, g)];
    assert reg'[g := done.0] == reg[g := done.0];
  }

  /** Past the guards, with tracks resolved and a player: the join, then `Resolved` on the registered record. */
  lemma PlayStepResolved(reg: map<GuildId, Playback>, g: GuildId, env: Env)
    requires GuardsPass(env) && env.resolved.Some? && env.resolved.value != [] && PlayerAfterJoin(env).Some?
    ensures var c := PlayerAfterJoin(env).value;
      var done := Resolved(Registered(reg, g), env.resolved.value, c.playing || c.paused, env);
      PlayStep(reg, g, env) == Outcome(reg[g := done.0], JoinEffects(env.client, env.voice.value.channel.value) + done.1, false)
  {
    InChannelResolved(reg, g, PlayerAfterJoin(env).value, env);
  }

  /** The join plays nothing. */
  lemma JoinPlaysNothing(client: Option<Client>, channel: ChannelId)
    ensures Played(JoinEffects(client, channel)) == []
  {
    var join := JoinEffects(client, channel);
    assert forall x :: x in join ==> !x.Play?;
  }

  /**
   * With an idle player the first resolved track is started: it becomes
   * `current` and the seed, the old `current` becomes `previous`, it is the
   * only track played, and the rest are queued in order.
   */
  lemma PlayIdleStartsFirst(reg: map<GuildId, Playback>, g: GuildId, env: Env)
    requires GuardsPass(env) && env.resolved.Some? && env.resolved.value != []
    requires PlayerAfterJoin(env).Some? && !PlayerAfterJoin(env).value.playing && !PlayerAfterJoin(env).value.paused
    ensures var r := PlayStep(reg, g, env);
      var p := Registered(reg, g);
      var tracks := env.resolved.value;
      && !r.raised
      && r.registry[g].current == Some(tracks[0]) && r.registry[g].autoplaySeed == Some(tracks[0])
      && r.registry[g].previous == p.current
      && r.registry[g].queue == p.queue + tracks[1..]
      && Played(r.effects) == [tracks[0]]
      && Reply(TrackQueued) !in r.effects
  {
    var p := Registered(reg, g);
    var tracks := env.resolved.value;
    PlayStepResolved(reg, g, env);
    ResolvedRecord(p, tracks, false, env);
    var done := Resolved(p, tracks, false, env);
    var join := JoinEffects(env.client, env.voice.value.channel.value);
    PlayedAppend(join, done.1);
    JoinPlaysNothing(env.client, env.voice.value.channel.value);
  }

  /**
   * With a playing or paused player nothing is started: `current`,
   * `previous` and the seed stay, every resolved track is appended in order,
   * and the "queued" notice is sent.
   */
  lemma PlayBusyAppendsAll(reg: map<GuildId, Playback>, g: GuildId, env: Env)
    requires GuardsPass(env) && env.resolved.Some? && env.resolved.value != []
    requires PlayerAfterJoin(env).Some? && (PlayerAfterJoin(env).value.playing || PlayerAfterJoin(env).value.paused)
    ensures var r := PlayStep(reg, g, env);
      var p := Registered(reg, g);
      && !r.raised
      && r.registry[g].current == p.current && r.registry[g].previous == p.previous
      && r.registry[g].autoplaySeed == p.autoplaySeed
      && r.registry[g].queue == p.queue + env.resolved.value
      && Played(r.effects) == []
      && Reply(TrackQueued) in r.effects
  {
    var p := Registered(reg, g);
    var tracks := env.resolved.value;
    PlayStepResolved(reg, g, env);
    ResolvedRecord(p, tracks, true, env);
    var done := Resolved(p, tracks, true, env);
    var join := JoinEffects(env.client, env.voice.value.channel.value);
    PlayedAppend(join, done.1);
    JoinPlaysNothing(env.client, env.voice.value.channel.value);
  }
}
