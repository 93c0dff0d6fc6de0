/**
 * The per-guild playback record (`MusicState`) and the process-wide registry
 * `music_states` that maps a guild id to its record.
 */
module State {
  import opened Common
  import opened Tracks

  /** Discord guild ids are positive snowflakes. */
  type GuildId = x: int | 0 < x witness 1

  /** Identifies the control-panel message the bot sent. */
  type MessageId = nat

  /**
   * The value held by a `MusicState` at one moment. `autoplayEnabled` and
   * `manualAction` are the attributes some handlers attach to the record on
   * the fly; `None` means the attribute was never set.
   */
  datatype Playback = Playback(
    queue: seq<Track>,
    current: Option<Track>,
    previous: Option<Track>,
    loop: bool,
    autoplay: bool,
    autoplaySeed: Option<Track>,
    message: Option<MessageId>,
    autoplayEnabled: Option<bool>,
    manualAction: Option<bool>)

  /** What `MusicState()` holds right after construction. */
  const Initial := Playback([], None, None, false, false, None, None, None, None)

  class MusicState {
    var queue: seq<Track>
    var current: Option<Track>
    var previous: Option<Track>
    var loop: bool
    var autoplay: bool
    var autoplaySeed: Option<Track>
    var message: Option<MessageId>
    var autoplayEnabled: Option<bool>
    var manualAction: Option<bool>

    /** The record's fields as one value. */
    function View(): Playback
      reads this
    {
      Playback(queue, current, previous, loop, autoplay, autoplaySeed, message, autoplayEnabled, manualAction)
    }

    /** A fresh record: empty queue, no tracks, both modes off, no panel. */
    constructor ()
      ensures queue == []
      ensures current == None && previous == None && autoplaySeed == None
      ensures !loop && !autoplay
      ensures message == None
      ensures autoplayEnabled == None && manualAction == None
      ensures View() == Initial
    {
      queue := [];
      current := None;
      previous := None;
      loop := false;
      autoplay := false;
      autoplaySeed := None;
      message := None;
      autoplayEnabled := None;
      manualAction := None;
    }

    /** Overwrites every field at once with the fields of `v`. */
    method Store(v: Playback)
      modifies this
      ensures View() == v
    {
      queue, current, previous := v.queue, v.current, v.previous;
      loop, autoplay, autoplaySeed := v.loop, v.autoplay, v.autoplaySeed;
      message, autoplayEnabled, manualAction := v.message, v.autoplayEnabled, v.manualAction;
    }
  }

  /** Giving a guild a value twice leaves only the second. */
  lemma SetTwice(m: map<GuildId, Playback>, g: GuildId, a: Playback, b: Playback)
    ensures m[g := a][g := b] == m[g := b]
  {
  }

  /** `music_states`: at most one record per guild, never one record for two guilds. */
  class Registry {
    var states: map<GuildId, MusicState>

    ghost predicate Valid()
      reads this
    {
      forall g, h :: g in states && h in states && g != h ==> states[g] != states[h]
    }

    /** The registry as a map from guild id to record value. */
    function View(): map<GuildId, Playback>
      reads this, states.Values
    {
      map g | g in states :: states[g].View()
    }

    constructor ()
      ensures Valid()
      ensures states == map[]
      ensures View() == map[]
    {
      states := map[];
    }

    /** `music_states.setdefault(g, MusicState())`. */
    method SetDefault(g: GuildId) returns (s: MusicState)
      requires Valid()
      modifies this
      ensures Valid()
      ensures g in old(states) ==> states == old(states) && s == old(states)[g]
      ensures g !in old(states) ==> fresh(s) && states == old(states)[g := s] && s.View() == Initial
      ensures View() == if g in old(View()) then old(View()) else old(View())[g := Initial]
    {
      if g in states {
        s := states[g];
      } else {
        s := new MusicState();
        states := states[g := s];
        assert View() == old(View())[g := Initial];
      }
    }

    /** Gives guild `g`'s record the value `v`; every other record keeps its value. */
    method Update(g: GuildId, v: Playback)
      requires Valid() && g in states
      modifies states[g]
      ensures Valid() && states == old(states)
      ensures View() == old(View())[g := v]
    {
      states[g].Store(v);
      forall h | h in states && h != g
        ensures states[h].View() == old(states[h].View())
      {
        assert states[h] != states[g];
      }
      assert View() == old(View())[g := v];
    }

    /** `music_states.pop(g, None)`: removes this guild's entry and no other. */
    method Pop(g: GuildId)
      requires Valid()
      modifies this
      ensures Valid()
      ensures states == old(states) - {g}
      ensures View() == old(View()) - {g}
    {
      states := states - {g};
      assert View() == old(View()) - {g};
    }
  }
}
