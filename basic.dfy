/**
 * The slash commands that act on the player or on the guild's record:
 * `/join`, `/leave`, `/pause`, `/resume`, `/skip`, `/volume`, `/seek`,
 * `/shuffle`, `/loop`, `/autoplay` and `/clear`.
 *
 * `/leave` calls `state.reset()`, which `MusicState` does not define: the call
 * raises before the record is dropped. `LeaveAsWritten` is that code;
 * `Leave` drops the record as the command evidently intends.
 */
module BasicCommands {
  import opened Common
  import opened Tracks
  import opened State
  import opened Effects
  import opened Transitions
  import Controls
  import PlayCommand

  type Client = PlayCommand.Client

  const VoiceRequired := "Voice Channel Required"
  const Connected := "Connected"
  const NotConnected := "Not Connected"
  const Disconnected := "Disconnected"
  const NothingPlaying := "Nothing Playing"
  const Paused := "Playback Paused"
  const NotPaused := "Not Paused"
  const Resumed := "Playback Resumed"
  const Skipped := "Track Skipped"
  const VolumeUpdated := "Volume Updated"
  const SeekDone := "Seek Successful"
  const QueueEmpty := "Queue Empty"
  const Shuffled := "Queue Shuffled"
  const NoSession := "No Session"
  const LoopMode := "Loop Mode"
  const AutoplayTitle := "Autoplay"
  const Cleared := "Queue Cleared"

  /**
   * `/join`: refused without a caller's channel; otherwise the same connect
   * or move as `/play`, then a confirmation; the connect or move issued
   * targets the caller's channel.
   */
  function Join(voice: Option<Controls.VoiceState>, client: Option<Client>): (r: seq<Effect>)
    ensures voice.None? || voice.value.channel.None? ==> r == [Reply(VoiceRequired)]
    ensures voice.Some? && voice.value.channel.Some? ==>
      && |r| > 0 && r[|r| - 1] == Reply(Connected)
      && r[..|r| - 1] == PlayCommand.JoinEffects(client, voice.value.channel.value)
      && (Connect(voice.value.channel.value) in r <==> client.None?)
      && (MoveTo(voice.value.channel.value) in r <==> client.Some? && client.value.channel != voice.value.channel)
      && PlayCommand.ChannelAfter(PlayCommand.ChannelOf(client), r) == voice.value.channel
  {
    if voice.None? || voice.value.channel.None? then [Reply(VoiceRequired)]
    else
      var channel := voice.value.channel.value;
      var moves := PlayCommand.JoinEffects(client, channel);
      var r := moves + [Reply(Connected)];
      assert r[..|r| - 1] == moves;
      PlayCommand.ChannelAfterAppend(PlayCommand.ChannelOf(client), moves, [Reply(Connected)]);
      r
  }

  /** `/pause`: only a playing player is paused. */
  function PauseCommand(client: Option<Client>): (r: seq<Effect>)
    ensures Pause(true) in r <==> client.Some? && client.value.playing
    ensures |r| > 0 && r[|r| - 1] == (if client.Some? && client.value.playing then Reply(Paused) else Reply(NothingPlaying))
  {
    if client.None? || !client.value.playing then [Reply(NothingPlaying)]
    else [Pause(true), Reply(Paused)]
  }

  /** `/resume`: only a paused player is resumed. */
  function ResumeCommand(client: Option<Client>): (r: seq<Effect>)
    ensures Pause(false) in r <==> client.Some? && client.value.paused
    ensures |r| > 0 && r[|r| - 1] == (if client.Some? && client.value.paused then Reply(Resumed) else Reply(NotPaused))
  {
    if client.None? || !client.value.paused then [Reply(NotPaused)]
    else [Pause(false), Reply(Resumed)]
  }

  /** `/skip`: stops a playing player; the track end that follows picks the next track. */
  function SkipCommand(client: Option<Client>): (r: seq<Effect>)
    ensures Stop in r <==> client.Some? && client.value.playing
    ensures Played(r) == []
  {
    if client.None? || !client.value.playing then [Reply(NothingPlaying)]
    else [Stop, Reply(Skipped)]
  }

  /** The volume `/volume` sets for any integer argument. */
  function ClampVolume(level: int): (r: int)
    ensures 1 <= r <= 200
    ensures 1 <= level <= 200 ==> r == level
    ensures level < 1 ==> r == 1
    ensures level > 200 ==> r == 200
  {
    var capped := if level < 200 then level else 200;
    if capped < 1 then 1 else capped
  }

  /** Clamping twice is clamping once. */
  lemma ClampVolumeIdempotent(level: int)
    ensures ClampVolume(ClampVolume(level)) == ClampVolume(level)
  {
  }

  /** `/volume`: needs a voice client; the level is clamped into [1, 200]. */
  function VolumeCommand(client: Option<Client>, level: int): (r: seq<Effect>)
    ensures client.None? ==> r == [Reply(NotConnected)]
    ensures client.Some? ==> r == [SetVolume(ClampVolume(level)), Reply(VolumeUpdated)]
  {
    if client.None? then [Reply(NotConnected)]
    else [SetVolume(ClampVolume(level)), Reply(VolumeUpdated)]
  }

  /**
   * Whole seconds in a track, `(length or 0) // 1000`: a missing or zero
   * length counts as 0; otherwise the largest whole number of seconds not
   * past the length (floor division, which Dafny's `/` agrees with for a
   * positive divisor).
   */
  function MaxSeconds(length: Option<int>): (r: int)
    ensures length.None? || length.value == 0 ==> r == 0
    ensures length.Some? ==> r * 1000 <= length.value < (r + 1) * 1000
  {
    if length.None? || length.value == 0 then 0 else length.value / 1000
  }

  /** The second `/seek` goes to: clamped into [0, the track's whole seconds]. */
  function ClampSeek(seconds: int, length: Option<int>): (r: int)
    ensures r >= 0
    ensures r <= MaxSeconds(length) || r == 0
    ensures 0 <= seconds <= MaxSeconds(length) ==> r == seconds
    ensures seconds > MaxSeconds(length) >= 0 ==> r == MaxSeconds(length)
    ensures seconds < 0 || MaxSeconds(length) < 0 ==> r == 0
  {
    var capped := if seconds < MaxSeconds(length) then seconds else MaxSeconds(length);
    if capped < 0 then 0 else capped
  }

  /** The seek position in milliseconds never passes the end of a track with a known length. */
  lemma SeekStaysInTrack(seconds: int, len: int)
    requires len >= 0
    ensures 0 <= ClampSeek(seconds, Some(len)) * 1000 <= len
  {
    var r := ClampSeek(seconds, Some(len));
    if len != 0 {
      assert r <= len / 1000 || r == 0;
      assert (len / 1000) * 1000 <= len;
    }
  }

  /** `/seek`: refused unless the player is playing and the record has a current track. */
  function SeekCommand(client: Option<Client>, reg: map<GuildId, Playback>, g: GuildId, seconds: int): (r: seq<Effect>)
    ensures r == [Reply(NothingPlaying)] <==>
      client.None? || !client.value.playing || g !in reg || reg[g].current.None?
    ensures r != [Reply(NothingPlaying)] ==>
      r == [Seek(ClampSeek(seconds, reg[g].current.value.length) * 1000), Reply(SeekDone)]
  {
    if client.None? || !client.value.playing || g !in reg || reg[g].current.None? then [Reply(NothingPlaying)]
    else [Seek(ClampSeek(seconds, reg[g].current.value.length) * 1000), Reply(SeekDone)]
  }

  /** `/shuffle`: refused on a missing record or an empty queue; otherwise the queue is permuted in place. */
  method ShuffleCommand(reg: Registry, g: GuildId) returns (effects: seq<Effect>)
    requires reg.Valid()
    modifies reg.states.Values
    ensures reg.Valid() && reg.states == old(reg.states)
    ensures g !in old(reg.View()) || old(reg.View())[g].queue == [] ==>
      effects == [Reply(QueueEmpty)] && reg.View() == old(reg.View())
    ensures g in old(reg.View()) && old(reg.View())[g].queue != [] ==>
      && effects == [Reply(Shuffled)]
      && IsShuffleOf(reg.View()[g].queue, old(reg.View())[g].queue)
      && reg.View() == old(reg.View())[g := old(reg.View())[g].(queue := reg.View()[g].queue)]
  {
    if g !in reg.states || reg.states[g].queue == [] {
      return [Reply(QueueEmpty)];
    }
    var p := reg.states[g].View();
    assert IsShuffleOf(p.queue, p.queue);
    var shuffled :| IsShuffleOf(shuffled, p.queue);
    reg.Update(g, p.(queue := shuffled));
    effects := [Reply(Shuffled)];
  }

  /** The panel re-render after a toggle: only when there is a panel and a voice client. */
  function ToggleRefresh(p: Playback, client: Option<Client>): (r: seq<Effect>)
    ensures r != [] <==> p.message.Some? && client.Some?
    ensures Played(r) == []
  {
    if p.message.Some? && client.Some? then [EditPanel(p)] else []
  }

  /** `/loop`: refused without a record; otherwise the loop switch flips and the panel is re-rendered. */
  method LoopCommand(reg: Registry, g: GuildId, client: Option<Client>) returns (effects: seq<Effect>)
    requires reg.Valid()
    modifies reg.states.Values
    ensures reg.Valid() && reg.states == old(reg.states)
    ensures g !in old(reg.View()) ==> effects == [Reply(NoSession)] && reg.View() == old(reg.View())
    ensures g in old(reg.View()) ==>
      var p' := ToggleLoop(old(reg.View())[g]);
      reg.View() == old(reg.View())[g := p'] && effects == [Reply(LoopMode)] + ToggleRefresh(p', client)
  {
    if g !in reg.states {
      return [Reply(NoSession)];
    }
    var p' := ToggleLoop(reg.states[g].View());
    reg.Update(g, p');
    effects := [Reply(LoopMode)] + ToggleRefresh(p', client);
  }

  /** `/autoplay`: refused without a record; otherwise the autoplay switch flips (seeding from `current` when turned on with no seed). */
  method AutoplayCommand(reg: Registry, g: GuildId, client: Option<Client>) returns (effects: seq<Effect>)
    requires reg.Valid()
    modifies reg.states.Values
    ensures reg.Valid() && reg.states == old(reg.states)
    ensures g !in old(reg.View()) ==> effects == [Reply(NoSession)] && reg.View() == old(reg.View())
    ensures g in old(reg.View()) ==>
      var p' := ToggleAutoplay(old(reg.View())[g]);
      reg.View() == old(reg.View())[g := p'] && effects == [Reply(AutoplayTitle)] + ToggleRefresh(p', client)
  {
    if g !in reg.states {
      return [Reply(NoSession)];
    }
    var p' := ToggleAutoplay(reg.states[g].View());
    reg.Update(g, p');
    effects := [Reply(AutoplayTitle)] + ToggleRefresh(p', client);
  }

  /** `/clear`: refused on a missing record or an empty queue; otherwise only the queue is emptied. */
  method ClearCommand(reg: Registry, g: GuildId) returns (effects: seq<Effect>)
    requires reg.Valid()
    modifies reg.states.Values
    ensures reg.Valid() && reg.states == old(reg.states)
    ensures g !in old(reg.View()) || old(reg.View())[g].queue == [] ==>
      effects == [Reply(QueueEmpty)] && reg.View() == old(reg.View())
    ensures g in old(reg.View()) && old(reg.View())[g].queue != [] ==>
      effects == [Reply(Cleared)] && reg.View() == old(reg.View())[g := ClearQueue(old(reg.View())[g])]
  {
    if g !in reg.states || reg.states[g].queue == [] {
      return [Reply(QueueEmpty)];
    }
    reg.Update(g, ClearQueue(reg.states[g].View()));
    effects := [Reply(Cleared)];
  }

  /** What `/leave` does before it reaches the record: the forced disconnect and blanking the panel. */
  function LeaveEffects(reg: map<GuildId, Playback>, g: GuildId): (r: seq<Effect>)
    ensures |r| > 0 && r[0] == Disconnect(true) && Played(r) == []
    ensures BlankPanel in r <==> g in reg && reg[g].message.Some?
  {
    [Disconnect(true)] + (if g in reg && reg[g].message.Some? then [BlankPanel] else [])
  }

  /**
   * `/leave` as written: with a record, `state.reset()` raises, so the record
   * is never dropped and no reply is sent.
   */
  function LeaveAsWritten(reg: map<GuildId, Playback>, g: GuildId, client: Option<Client>): (r: Outcome)
    ensures r.registry == reg
    ensures r.raised <==> client.Some? && g in reg
  {
    if client.None? then Outcome(reg, [Reply(NotConnected)], false)
    else if g in reg then Outcome(reg, LeaveEffects(reg, g), true)
    else Outcome(reg, LeaveEffects(reg, g) + [Reply(Disconnected)], false)
  }

  /** `/leave` as intended: the guild's record is dropped, and no other. */
  function Leave(reg: map<GuildId, Playback>, g: GuildId, client: Option<Client>): (r: Outcome)
    ensures !r.raised
    ensures client.None? ==> r.registry == reg && r.effects == [Reply(NotConnected)]
    ensures client.Some? ==> r.registry == reg - {g} && r.effects == LeaveEffects(reg, g) + [Reply(Disconnected)]
  {
    if client.None? then Outcome(reg, [Reply(NotConnected)], false)
    else Outcome(reg - {g}, LeaveEffects(reg, g) + [Reply(Disconnected)], false)
  }

  /**
   * The discrepancy: after `/leave` as written, the next `/play` in the guild
   * picks up the stale record (queue, tracks, switches and panel all kept);
   * after the intended `/leave` it starts from a fresh record.
   */
  lemma LeaveKeepsStaleSession(reg: map<GuildId, Playback>, g: GuildId, c: Client)
    requires g in reg
    ensures LeaveAsWritten(reg, g, Some(c)).raised
    ensures PlayCommand.Registered(LeaveAsWritten(reg, g, Some(c)).registry, g) == reg[g].(manualAction := Some(false))
    ensures PlayCommand.Registered(Leave(reg, g, Some(c)).registry, g) == Initial.(manualAction := Some(false))
  {
  }

  /** `/leave` as written, on the objects. */
  method LeaveAsWrittenCommand(reg: Registry, g: GuildId, client: Option<Client>) returns (effects: seq<Effect>, raised: bool)
    ensures Outcome(reg.View(), effects, raised) == LeaveAsWritten(reg.View(), g, client)
  {
    if client.None? {
      return [Reply(NotConnected)], false;
    }
    effects := [Disconnect(true)];
    if g in reg.states {
      if reg.states[g].message.Some? {
        effects := effects + [BlankPanel];
      }
      return effects, true;
    }
    effects := effects + [Reply(Disconnected)];
    raised := false;
  }

  /** `/leave` as intended, on the objects. */
  method LeaveCommand(reg: Registry, g: GuildId, client: Option<Client>) returns (effects: seq<Effect>)
    requires reg.Valid()
    modifies reg
    ensures reg.Valid()
    ensures Outcome(reg.View(), effects, false) == Leave(old(reg.View()), g, client)
  {
    if client.None? {
      return [Reply(NotConnected)];
    }
    effects := [Disconnect(true)];
    if g in reg.states && reg.states[g].message.Some? {
      effects := effects + [BlankPanel];
    }
    reg.Pop(g);
    effects := effects + [Reply(Disconnected)];
  }
}
