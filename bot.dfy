/**
 * The live track-end handler (`on_track_end`) and `cleanup_player`. In strict
 * priority: replay `current` when loop is on, else take the queue front, else
 * (autoplay on and a seed present) take an autoplay pick, else clean up:
 * disconnect, mark the panel finished and drop the guild's registry entry.
 *
 * `TrackEnd` is the transition as a function of the registry's value and of
 * the autoplay result; `OnTrackEnd` performs it on the objects.
 */
module Bot {
  import opened Common
  import opened Tracks
  import opened State
  import opened Effects
  import opened Autoplay
  import opened Transitions

  /** The panel edit after a transition, when a panel message exists. */
  function PanelRefresh(p: Playback): (r: seq<Effect>)
    ensures |r| <= 1 && Played(r) == []
    ensures r != [] <==> p.message.Some?
  {
    if p.message.Some? then [EditPanel(p)] else []
  }

  /** `cleanup_player`: disconnect, mark the panel finished, drop exactly this guild's entry. */
  function Cleanup(reg: map<GuildId, Playback>, g: GuildId): (r: Step)
    requires g in reg
    ensures r.registry == reg - {g}
    ensures |r.effects| >= 1 && r.effects[0] == Disconnect(false) && Played(r.effects) == []
    ensures ShowFinished in r.effects <==> reg[g].message.Some?
  {
    var finish := if reg[g].message.Some? then [ShowFinished] else [];
    assert Played([Disconnect(false)] + finish) == [];
    Step(reg - {g}, [Disconnect(false)] + finish)
  }

  /** The autoplay branch is the one evaluated for this guild. */
  predicate AutoplayBranch(reg: map<GuildId, Playback>, guild: Option<GuildId>) {
    && guild.Some? && guild.value in reg
    && var p := reg[guild.value];
    && !(p.loop && p.current.Some?)
    && p.queue == []
    && p.autoplay && p.autoplaySeed.Some?
  }

  /**
   * One track end for `guild`, given what autoplay returns if it is asked.
   * Only this guild's entry can change; it is removed exactly when the player
   * is disconnected; at most one track is played.
   */
  function TrackEnd(reg: map<GuildId, Playback>, guild: Option<GuildId>, pick: Option<Track>): (r: Step)
    ensures guild.None? || guild.value !in reg ==> r == Step(reg, [])
    ensures r.registry.Keys <= reg.Keys
    ensures forall h :: h in reg && guild != Some(h) ==> h in r.registry && r.registry[h] == reg[h]
    ensures Disconnect(false) in r.effects <==> guild.Some? && guild.value in reg && guild.value !in r.registry
    ensures |Played(r.effects)| <= 1
  {
    if guild.None? || guild.value !in reg then Step(reg, [])
    else
      var g := guild.value;
      var p := reg[g];
      if p.loop && p.current.Some? then
        Step(reg, [Play(p.current.value, false)])
      else if p.queue != [] then
        var p' := Advance(p);
        PlayedAppend([Play(p.queue[0], false)], PanelRefresh(p'));
        Step(reg[g := p'], [Play(p.queue[0], false)] + PanelRefresh(p'))
      else if p.autoplay && p.autoplaySeed.Some? && pick.Some? then
        var p' := TakeAutoplay(p, pick.value);
        PlayedAppend([Play(pick.value, false)], PanelRefresh(p'));
        Step(reg[g := p'], [Play(pick.value, false)] + PanelRefresh(p'))
      else
        Cleanup(reg, g)
  }

  /** Loop on with a current track: replay it; the registry and the panel stay as they are. */
  lemma LoopReplaysCurrent(reg: map<GuildId, Playback>, g: GuildId, pick: Option<Track>)
    requires g in reg && reg[g].loop && reg[g].current.Some?
    ensures TrackEnd(reg, Some(g), pick).registry == reg
    ensures TrackEnd(reg, Some(g), pick).effects == [Play(reg[g].current.value, false)]
  {
  }

  /**
   * Queue branch (also reached with loop on but nothing current): exactly the
   * front becomes `current` and is the one track played, the old `current`
   * becomes `previous`, the rest keep their order, the seed is untouched.
   */
  lemma QueuePopsFront(reg: map<GuildId, Playback>, g: GuildId, pick: Option<Track>)
    requires g in reg && reg[g].queue != [] && (!reg[g].loop || reg[g].current.None?)
    ensures var r := TrackEnd(reg, Some(g), pick);
      && g in r.registry
      && r.registry[g].current == Some(reg[g].queue[0])
      && r.registry[g].previous == reg[g].current
      && r.registry[g].queue == reg[g].queue[1..]
      && r.registry[g].autoplaySeed == reg[g].autoplaySeed
      && r.registry[g].(queue := reg[g].queue, current := reg[g].current, previous := reg[g].previous) == reg[g]
      && Played(r.effects) == [reg[g].queue[0]]
  {
    var p' := Advance(reg[g]);
    PlayedAppend([Play(reg[g].queue[0], false)], PanelRefresh(p'));
  }

  /** Autoplay branch with a candidate: the candidate is played and becomes `current`, the old `current` becomes `previous`. */
  lemma AutoplayTakesPick(reg: map<GuildId, Playback>, g: GuildId, t: Track)
    requires AutoplayBranch(reg, Some(g))
    ensures var r := TrackEnd(reg, Some(g), Some(t));
      && g in r.registry
      && r.registry[g].current == Some(t)
      && r.registry[g].previous == reg[g].current
      && r.registry[g].queue == []
      && Played(r.effects) == [t]
  {
    var p' := TakeAutoplay(reg[g], t);
    PlayedAppend([Play(t, false)], PanelRefresh(p'));
  }

  /**
   * Nothing to play (empty queue, and autoplay off, no seed or no candidate):
   * the player is disconnected and exactly this guild's entry is removed.
   */
  lemma NothingLeftCleansUp(reg: map<GuildId, Playback>, g: GuildId, pick: Option<Track>)
    requires g in reg && !(reg[g].loop && reg[g].current.Some?) && reg[g].queue == []
    requires !reg[g].autoplay || reg[g].autoplaySeed.None? || pick.None?
    ensures TrackEnd(reg, Some(g), pick) == Cleanup(reg, g)
    ensures TrackEnd(reg, Some(g), pick).registry == reg - {g}
    ensures TrackEnd(reg, Some(g), pick).effects[0] == Disconnect(false)
    ensures Played(TrackEnd(reg, Some(g), pick).effects) == []
  {
  }

  /** `cleanup_player` on the objects. Disconnect and panel failures are swallowed, so they change nothing. */
  method CleanupPlayer(reg: Registry, g: GuildId) returns (effects: seq<Effect>)
    requires reg.Valid() && g in reg.states
    modifies reg
    ensures reg.Valid()
    ensures reg.View() == Cleanup(old(reg.View()), g).registry
    ensures effects == Cleanup(old(reg.View()), g).effects
  {
    effects := [Disconnect(false)];
    if reg.states[g].message.Some? {
      effects := effects + [ShowFinished];
    }
    reg.Pop(g);
  }

  /** The queue branch: the front of the queue becomes `current` and is played. */
  method QueueStep(reg: Registry, g: GuildId) returns (effects: seq<Effect>)
    requires reg.Valid() && g in reg.states
    requires reg.states[g].queue != [] && !(reg.states[g].loop && reg.states[g].current.Some?)
    modifies reg.states[g]
    ensures reg.Valid()
    ensures reg.View() == TrackEnd(old(reg.View()), Some(g), None).registry
    ensures effects == TrackEnd(old(reg.View()), Some(g), None).effects
  {
    var p := reg.states[g].View();
    ghost var before := reg.View();
    var p' := Advance(p);
    reg.Update(g, p');
    effects := [Play(p'.current.value, false)] + PanelRefresh(p');
    assert TrackEnd(before, Some(g), None) == Step(before[g := p'], effects);
  }

  /** The autoplay branch: ask for a pick; play it, or clean up when there is none. */
  method AutoplayStep(reg: Registry, g: GuildId, search: string -> SearchOutcome)
    returns (effects: seq<Effect>, pick: Option<Track>)
    requires reg.Valid() && g in reg.states && AutoplayBranch(reg.View(), Some(g))
    modifies reg, reg.states.Values
    ensures reg.Valid()
    ensures reg.View() == TrackEnd(old(reg.View()), Some(g), pick).registry
    ensures effects == TrackEnd(old(reg.View()), Some(g), pick).effects
    ensures AutoplayResult(old(reg.View())[g].autoplaySeed, search, pick)
  {
    var p := reg.states[g].View();
    ghost var before := reg.View();
    pick := GetAutoplayTrackIn(reg, g, search);
    ghost var mid := before[g := p.(autoplaySeed := if pick.Some? then pick else p.autoplaySeed)];
    if pick.Some? {
      var p' := TakeAutoplay(p, pick.value);
      reg.Update(g, p');
      SetTwice(before, g, p.(autoplaySeed := pick), p');
      effects := [Play(pick.value, false)] + PanelRefresh(p');
      assert TrackEnd(before, Some(g), pick) == Step(before[g := p'], effects);
    } else {
      assert mid == before;
      effects := CleanupPlayer(reg, g);
      assert TrackEnd(before, Some(g), pick) == Cleanup(before, g);
    }
  }

  /**
   * `on_track_end` on the objects. `guild` is the event's guild (`None` when
   * the payload has no player or guild); `pick` is what autoplay returned, if it
   * was asked.
   */
  method OnTrackEnd(reg: Registry, guild: Option<GuildId>, search: string -> SearchOutcome)
    returns (effects: seq<Effect>, pick: Option<Track>)
    requires reg.Valid()
    modifies reg, reg.states.Values
    ensures reg.Valid()
    ensures reg.View() == TrackEnd(old(reg.View()), guild, pick).registry
    ensures effects == TrackEnd(old(reg.View()), guild, pick).effects
    ensures pick.Some? ==> AutoplayBranch(old(reg.View()), guild)
    ensures AutoplayBranch(old(reg.View()), guild) ==> AutoplayResult(old(reg.View())[guild.value].autoplaySeed, search, pick)
  {
    pick := None;
    if guild.None? {
      return [], None;
    }
    var g := guild.value;
    if g !in reg.states {
      return [], None;
    }
    var state := reg.states[g];
    if state.loop && state.current.Some? {
      return [Play(state.current.value, false)], None;
    }
    if state.queue != [] {
      effects := QueueStep(reg, g);
    } else if state.autoplay && state.autoplaySeed.Some? {
      effects, pick := AutoplayStep(reg, g, search);
    } else {
      ghost var before := reg.View();
      effects := CleanupPlayer(reg, g);
      assert TrackEnd(before, guild, pick) == Cleanup(before, g);
    }
  }
}
