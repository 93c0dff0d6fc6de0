/**
 * `play_next`, the second next-track policy, which nothing in the bot calls.
 * It differs from the live track-end handler in two ways: popping the queue
 * also makes the new track the autoplay seed, and it never cleans up (with
 * nothing to play it just returns). Its autoplay call passes the guild id as
 * a second argument to the one-parameter `get_autoplay_track`, which raises a
 * `TypeError` before anything is searched: `NextAsWritten` is that code,
 * `NextCorrected` is the same policy with the call made with one argument.
 */
module Player {
  import opened Common
  import opened Tracks
  import opened State
  import opened Effects
  import opened Autoplay
  import opened Transitions

  /** `play_next` as written: its autoplay branch raises `TypeError` and changes nothing. */
  function NextAsWritten(reg: map<GuildId, Playback>, g: GuildId): (r: Outcome)
    ensures r.registry.Keys == reg.Keys
    ensures r.raised <==> g in reg && !(reg[g].loop && reg[g].current.Some?) && reg[g].queue == [] && reg[g].autoplay
    ensures r.raised ==> r.registry == reg && r.effects == []
  {
    if g !in reg then Outcome(reg, [], false)
    else
      var p := reg[g];
      if p.loop && p.current.Some? then Outcome(reg, [Play(p.current.value, false)], false)
      else if p.queue != [] then
        var p' := AdvanceSeeded(p);
        Outcome(reg[g := p'], [Play(p'.current.value, false)], false)
      else if p.autoplay then Outcome(reg, [], true)
      else Outcome(reg, [], false)
  }

  /**
   * `play_next` with the autoplay lookup called as intended; `pick` is what
   * it returned. Never raises and never removes the guild's entry.
   */
  function NextCorrected(reg: map<GuildId, Playback>, g: GuildId, pick: Option<Track>): (r: Outcome)
    ensures r.registry.Keys == reg.Keys && !r.raised
    ensures forall h :: h in reg && h != g ==> r.registry[h] == reg[h]
    ensures |Played(r.effects)| <= 1
  {
    if g !in reg then Outcome(reg, [], false)
    else
      var p := reg[g];
      if p.loop && p.current.Some? then Outcome(reg, [Play(p.current.value, false)], false)
      else if p.queue != [] then
        var p' := AdvanceSeeded(p);
        Outcome(reg[g := p'], [Play(p'.current.value, false)], false)
      else if p.autoplay && pick.Some? then
        Outcome(reg[g := TakeAutoplay(p, pick.value)], [Play(pick.value, false)], false)
      else Outcome(reg, [], false)
  }

  /** With no entry for the guild, neither variant does anything. */
  lemma NoStateNoop(reg: map<GuildId, Playback>, g: GuildId, pick: Option<Track>)
    requires g !in reg
    ensures NextAsWritten(reg, g) == Outcome(reg, [], false)
    ensures NextCorrected(reg, g, pick) == Outcome(reg, [], false)
  {
  }

  /** Loop on with a current track: replay it, nothing changes. */
  lemma NextLoopReplays(reg: map<GuildId, Playback>, g: GuildId, pick: Option<Track>)
    requires g in reg && reg[g].loop && reg[g].current.Some?
    ensures NextCorrected(reg, g, pick) == Outcome(reg, [Play(reg[g].current.value, false)], false)
    ensures NextAsWritten(reg, g) == NextCorrected(reg, g, pick)
  {
  }

  /**
   * Queue branch: the front becomes `current` and the seed, the old `current`
   * becomes `previous`; it is the live handler's transition except for the seed.
   */
  lemma NextPopsAndSeeds(reg: map<GuildId, Playback>, g: GuildId, pick: Option<Track>)
    requires g in reg && reg[g].queue != [] && (!reg[g].loop || reg[g].current.None?)
    ensures var r := NextCorrected(reg, g, pick);
      && r.registry[g].current == Some(reg[g].queue[0])
      && r.registry[g].autoplaySeed == r.registry[g].current
      && r.registry[g].previous == reg[g].current
      && r.registry[g].queue == reg[g].queue[1..]
      && r.registry[g].(autoplaySeed := reg[g].autoplaySeed) == Advance(reg[g])
      && Played(r.effects) == [reg[g].queue[0]]
    ensures NextAsWritten(reg, g) == NextCorrected(reg, g, pick)
  {
  }

  /** With nothing in the queue and no candidate, the corrected call returns with the registry unchanged; it never cleans up. */
  lemma NextNoCandidateKeepsState(reg: map<GuildId, Playback>, g: GuildId)
    requires g in reg && !(reg[g].loop && reg[g].current.Some?) && reg[g].queue == []
    ensures NextCorrected(reg, g, None) == Outcome(reg, [], false)
  {
  }

  /** A candidate is played, becomes `current` and the seed; the old `current` becomes `previous`. */
  lemma NextTakesCandidate(reg: map<GuildId, Playback>, g: GuildId, t: Track)
    requires g in reg && !(reg[g].loop && reg[g].current.Some?) && reg[g].queue == [] && reg[g].autoplay
    ensures var r := NextCorrected(reg, g, Some(t));
      && r.registry[g] == TakeAutoplay(reg[g], t)
      && r.registry[g].current == Some(t) && r.registry[g].autoplaySeed == Some(t)
      && Played(r.effects) == [t]
  {
  }

  /**
   * The discrepancy: whenever the corrected call would play an autoplay
   * candidate, the call as written raises instead, plays nothing and leaves
   * the track that just ended as `current`.
   */
  lemma AsWrittenAutoplayRaises(reg: map<GuildId, Playback>, g: GuildId, t: Track)
    requires g in reg && !(reg[g].loop && reg[g].current.Some?) && reg[g].queue == [] && reg[g].autoplay
    ensures NextAsWritten(reg, g).raised
    ensures Played(NextAsWritten(reg, g).effects) == []
    ensures Played(NextCorrected(reg, g, Some(t)).effects) == [t]
  {
  }

  /** `play_next` as written, on the objects. `raised` is the `TypeError` of the autoplay call. */
  method PlayNextAsWritten(reg: Registry, g: GuildId) returns (effects: seq<Effect>, raised: bool)
    requires reg.Valid()
    modifies reg.states.Values
    ensures reg.Valid() && reg.states == old(reg.states)
    ensures Outcome(reg.View(), effects, raised) == NextAsWritten(old(reg.View()), g)
  {
    effects, raised := [], false;
    if g !in reg.states {
      return;
    }
    var p := reg.states[g].View();
    if p.loop && p.current.Some? {
      effects := [Play(p.current.value, false)];
    } else if p.queue != [] {
      var p' := AdvanceSeeded(p);
      reg.Update(g, p');
      effects := [Play(p'.current.value, false)];
    } else if p.autoplay {
      raised := true;
    }
  }

  /** `play_next` with the one-argument autoplay call, on the objects. */
  method PlayNext(reg: Registry, g: GuildId, search: string -> SearchOutcome) returns (effects: seq<Effect>, pick: Option<Track>)
    requires reg.Valid()
    modifies reg.states.Values
    ensures reg.Valid() && reg.states == old(reg.states)
    ensures Outcome(reg.View(), effects, false) == NextCorrected(old(reg.View()), g, pick)
    ensures pick.Some? ==> g in old(reg.View()) && AutoplayResult(SeedOf(old(reg.View())[g]), search, pick)
    ensures (g in old(reg.View()) && !(old(reg.View())[g].loop && old(reg.View())[g].current.Some?)
             && old(reg.View())[g].queue == [] && old(reg.View())[g].autoplay)
      ==> AutoplayResult(SeedOf(old(reg.View())[g]), search, pick)
  {
    effects, pick := [], None;
    if g !in reg.states {
      return;
    }
    var p := reg.states[g].View();
    ghost var before := reg.View();
    assert before[g] == p;
    if p.loop && p.current.Some? {
      effects := [Play(p.current.value, false)];
    } else if p.queue != [] {
      var p' := AdvanceSeeded(p);
      reg.Update(g, p');
      effects := [Play(p'.current.value, false)];
    } else if p.autoplay {
      effects, pick := NextAutoplay(reg, g, search);
    }
  }

  /** The autoplay branch of `play_next` with the one-argument call, on the objects. */
  method NextAutoplay(reg: Registry, g: GuildId, search: string -> SearchOutcome) returns (effects: seq<Effect>, pick: Option<Track>)
    requires reg.Valid() && g in reg.states
    requires var p := reg.View()[g]; !(p.loop && p.current.Some?) && p.queue == [] && p.autoplay
    modifies reg.states[g]
    ensures reg.Valid() && reg.states == old(reg.states)
    ensures Outcome(reg.View(), effects, false) == NextCorrected(old(reg.View()), g, pick)
    ensures AutoplayResult(SeedOf(old(reg.View())[g]), search, pick)
  {
    ghost var before := reg.View();
    var p := reg.states[g].View();
    effects := [];
    pick := GetAutoplayTrackIn(reg, g, search);
    ghost var mid := before[g := p.(autoplaySeed := if pick.Some? then pick else p.autoplaySeed)];
    if pick.Some? {
      var p' := TakeAutoplay(p, pick.value);
      reg.Update(g, p');
      SetTwice(before, g, p.(autoplaySeed := pick), p');
      effects := [Play(pick.value, false)];
    } else {
      assert mid == before;
    }
  }
}
