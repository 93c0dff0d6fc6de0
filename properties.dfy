/**
 * Properties of sequences of track ends on the live handler.
 */
module Properties {
  import opened Common
  import opened Tracks
  import opened State
  import opened Effects
  import opened Transitions
  import opened Bot

  /** `n` track ends in guild `g` with no autoplay candidate, their effects concatenated in order. */
  function Ends(reg: map<GuildId, Playback>, g: GuildId, n: nat): (r: Step)
    decreases n
  {
    if n == 0 then Step(reg, [])
    else
      var first := TrackEnd(reg, Some(g), None);
      var rest := Ends(first.registry, g, n - 1);
      Step(rest.registry, first.effects + rest.effects)
  }

  /**
   * With loop off, `n` track ends (no more than the queue holds) play the
   * first `n` queued tracks in queue order; the rest stay queued, the last one
   * played is `current`, and the switches and the seed are untouched.
   */
  lemma {:induction false} QueueDrainsInOrder(reg: map<GuildId, Playback>, g: GuildId, n: nat)
    requires g in reg && !reg[g].loop && n <= |reg[g].queue|
    ensures var r := Ends(reg, g, n);
      && g in r.registry
      && Played(r.effects) == reg[g].queue[..n]
      && r.registry[g].queue == reg[g].queue[n..]
      && (n > 0 ==> r.registry[g].current == Some(reg[g].queue[n - 1]))
      && r.registry[g].loop == reg[g].loop && r.registry[g].autoplay == reg[g].autoplay
      && r.registry[g].autoplaySeed == reg[g].autoplaySeed
    decreases n
  {
    if n > 0 {
      var p := reg[g];
      var first := TrackEnd(reg, Some(g), None);
      QueuePopsFront(reg, g, None);
      QueueDrainsInOrder(first.registry, g, n - 1);
      var rest := Ends(first.registry, g, n - 1);
      PlayedAppend(first.effects, rest.effects);
      FrontThenRest(p.queue, n);
    } else {
      assert reg[g].queue[..0] == [];
      assert reg[g].queue[0..] == reg[g].queue;
    }
  }

  /** Taking the front and then `n - 1` of the rest is taking `n`. */
  lemma FrontThenRest(q: seq<Track>, n: nat)
    requires 0 < n <= |q|
    ensures [q[0]] + q[1..][..n - 1] == q[..n]
    ensures q[1..][n - 1..] == q[n..]
    ensures n > 1 ==> q[1..][n - 2] == q[n - 1]
  {
    assert [q[0]] + q[1..][..n - 1] == q[..n];
  }

  /** With loop on and a current track, any number of track ends replays it every time and changes nothing. */
  lemma {:induction false} LoopRepeatsForever(reg: map<GuildId, Playback>, g: GuildId, n: nat)
    requires g in reg && reg[g].loop && reg[g].current.Some?
    ensures Ends(reg, g, n).registry == reg
    ensures Played(Ends(reg, g, n).effects) == seq(n, _ => reg[g].current.value)
    decreases n
  {
    if n > 0 {
      LoopReplaysCurrent(reg, g, None);
      LoopRepeatsForever(reg, g, n - 1);
      var first := TrackEnd(reg, Some(g), None);
      var rest := Ends(reg, g, n - 1);
      PlayedAppend(first.effects, rest.effects);
      assert seq(n, _ => reg[g].current.value) == [reg[g].current.value] + seq(n - 1, _ => reg[g].current.value);
    }
  }

  /**
   * Once the queue is drained with loop and autoplay off, the next track end
   * disconnects and removes the guild's record.
   */
  lemma DrainThenCleanup(reg: map<GuildId, Playback>, g: GuildId)
    requires g in reg && !reg[g].loop && !reg[g].autoplay
    ensures var r := Ends(reg, g, |reg[g].queue|);
      TrackEnd(r.registry, Some(g), None).registry == r.registry - {g}
  {
    QueueDrainsInOrder(reg, g, |reg[g].queue|);
    var r := Ends(reg, g, |reg[g].queue|);
    assert reg[g].queue[|reg[g].queue|..] == [];
    NothingLeftCleansUp(r.registry, g, None);
  }
}
