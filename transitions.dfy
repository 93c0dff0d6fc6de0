/**
 * The changes the handlers make to one playback record, as functions on its
 * value. Each handler is modelled by a method that performs the same
 * assignments on a `MusicState` and is proved to agree with these.
 */
module Transitions {
  import opened Common
  import opened Tracks
  import opened State

  /**
   * The queue front becomes `current` and the old `current` becomes `previous`;
   * no track is lost or reordered and the seed is left alone.
   */
  function Advance(p: Playback): (r: Playback)
    requires p.queue != []
    ensures r.current.Some? && [r.current.value] + r.queue == p.queue
    ensures r.previous == p.current
    ensures r.(queue := p.queue, current := p.current, previous := p.previous) == p
  {
    p.(previous := p.current, current := Some(p.queue[0]), queue := p.queue[1..])
  }

  /** `Advance` that also makes the new current track the seed; it differs from `Advance` in the seed only. */
  function AdvanceSeeded(p: Playback): (r: Playback)
    requires p.queue != []
    ensures r.autoplaySeed == r.current && r.current == Some(p.queue[0])
    ensures r.(autoplaySeed := p.autoplaySeed) == Advance(p)
  {
    var a := Advance(p);
    a.(autoplaySeed := a.current)
  }

  /** An autoplay pick becomes `current` and the seed; the old `current` becomes `previous`. */
  function TakeAutoplay(p: Playback, t: Track): (r: Playback)
    ensures r.current == Some(t) && r.autoplaySeed == Some(t) && r.previous == p.current
    ensures r.(current := p.current, previous := p.previous, autoplaySeed := p.autoplaySeed) == p
  {
    p.(previous := p.current, current := Some(t), autoplaySeed := Some(t))
  }

  /**
   * Back: `previous` becomes `current` and the seed, `previous` is consumed, the
   * old `current` is dropped, the queue stays. The record gets an
   * `autoplay_enabled` attribute set to false; the `autoplay` switch itself is
   * not touched.
   */
  function Back(p: Playback): (r: Playback)
    requires p.previous.Some?
    ensures r.current == p.previous && r.previous.None? && r.autoplaySeed == p.previous
    ensures r.queue == p.queue && r.autoplay == p.autoplay && r.loop == p.loop
    ensures r.autoplayEnabled == Some(false)
    ensures r.(current := p.current, previous := p.previous, autoplaySeed := p.autoplaySeed, autoplayEnabled := p.autoplayEnabled) == p
  {
    p.(autoplayEnabled := Some(false)).(current := p.previous).(previous := None).(autoplaySeed := p.previous)
  }

  /** The loop switch flips and nothing else changes. */
  function ToggleLoop(p: Playback): (r: Playback)
    ensures r.loop == !p.loop
    ensures r.(loop := p.loop) == p
  {
    p.(loop := !p.loop)
  }

  /**
   * The autoplay switch flips; turning it on with no seed fills the seed from
   * `current`; otherwise the seed is unchanged.
   */
  function ToggleAutoplay(p: Playback): (r: Playback)
    ensures r.autoplay == !p.autoplay
    ensures r.autoplaySeed == if r.autoplay && p.autoplaySeed.None? then p.current else p.autoplaySeed
    ensures r.(autoplay := p.autoplay, autoplaySeed := p.autoplaySeed) == p
  {
    var q := p.(autoplay := !p.autoplay);
    if q.autoplay && q.autoplaySeed.None? && q.current.Some? then q.(autoplaySeed := q.current) else q
  }

  /** The queue is emptied and nothing else changes. */
  function ClearQueue(p: Playback): (r: Playback)
    ensures r.queue == [] && r.(queue := p.queue) == p
  {
    p.(queue := [])
  }

  /** `shuffled` holds exactly the tracks of `queue`, each as often. */
  predicate IsShuffleOf(shuffled: seq<Track>, queue: seq<Track>) {
    multiset(shuffled) == multiset(queue)
  }

  /** Toggling the loop switch twice restores the record. */
  lemma ToggleLoopTwice(p: Playback)
    ensures ToggleLoop(ToggleLoop(p)) == p
  {
  }

  /**
   * Toggling autoplay twice restores the switch; one of the two toggles turned
   * it on, so a missing seed has been filled from `current`.
   */
  lemma ToggleAutoplayTwice(p: Playback)
    ensures ToggleAutoplay(ToggleAutoplay(p)).autoplay == p.autoplay
    ensures ToggleAutoplay(ToggleAutoplay(p)).autoplaySeed == if p.autoplaySeed.None? then p.current else p.autoplaySeed
  {
  }
}
