/**
 * Calls the core makes on its collaborators, recorded instead of performed:
 * the audio player, the panel message, and replies to the interaction.
 * Failures of panel edits and of disconnects are swallowed by the bot and
 * never feed back into the state, so an effect carries no outcome.
 */
module Effects {
  import opened Common
  import opened Tracks
  import opened State

  type ChannelId = nat

  datatype Effect =
    | Play(track: Track, replace: bool)   // player.play(track[, replace=True])
    | Stop                                // player.stop(); the backend then fires a track end
    | Pause(pause: bool)                  // player.pause(flag)
    | SetVolume(level: int)               // player.set_volume(level)
    | Seek(position: int)                 // player.seek(ms)
    | Disconnect(force: bool)             // player.disconnect([force=True])
    | Connect(channel: ChannelId)         // channel.connect(cls=wavelink.Player)
    | MoveTo(channel: ChannelId)          // player.move_to(channel)
    | EditPanel(shown: Playback)          // the panel message edited to build_player_embed(shown)
    | SendPanel(shown: Playback)          // a new panel message, build_player_embed(shown), sent as a follow-up
    | ShowFinished                        // the "Playback Finished" panel edit with no buttons
    | BlankPanel                          // the panel edited to no embed and no buttons
    | RefreshView                         // the interaction's own message re-rendered with the view
    | RemoveView                          // the interaction's own message re-rendered without the view
    | Reply(title: string)                // an embed reply (or follow-up) with this title

  /** What one handler does: the registry's value afterwards and the calls it made, in order. */
  datatype Step = Step(registry: map<GuildId, Playback>, effects: seq<Effect>)

  /** A `Step` of a handler that can also end in an uncaught exception (`raised`). */
  datatype Outcome = Outcome(registry: map<GuildId, Playback>, effects: seq<Effect>, raised: bool)

  /** The tracks handed to `player.play`, in order. */
  function Played(effects: seq<Effect>): (r: seq<Track>)
    ensures |r| <= |effects|
  {
    if effects == [] then []
    else (if effects[0].Play? then [effects[0].track] else []) + Played(effects[1..])
  }

  lemma {:induction false} PlayedAppend(a: seq<Effect>, b: seq<Effect>)
    ensures Played(a + b) == Played(a) + Played(b)
  {
    if a == [] {
      assert a + b == b;
    } else {
      assert (a + b)[0] == a[0];
      assert (a + b)[1..] == a[1..] + b;
      PlayedAppend(a[1..], b);
      var h := if a[0].Play? then [a[0].track] else [];
      assert Played(a + b) == h + Played(a[1..] + b);
    }
  }
}
