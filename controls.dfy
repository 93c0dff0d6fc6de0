/**
 * The button panel (`MusicControlView`): who may press, which buttons are
 * enabled, and what each button does to the guild's record and the player.
 * The player's channel, volume and paused flag are read from a snapshot;
 * what the handlers ask of the player is recorded as effects.
 */
module Controls {
  import opened Common
  import opened Tracks
  import opened State
  import opened Effects
  import opened Transitions

  /** The presser's voice state; `channel` may be empty even when a voice state exists. */
  datatype VoiceState = VoiceState(channel: Option<ChannelId>)

  /** What the handlers read from the player object. */
  datatype PlayerInfo = PlayerInfo(channel: Option<ChannelId>, volume: int, paused: bool)

  /** A button of the view: its label and whether it is greyed out. */
  datatype Button = Button(name: string, disabled: bool)

  const DownLabel := "🔉 Down"
  const UpLabel := "🔊 Up"
  const BackLabel := "⏮ Back"
  const PauseLabel := "⏸ Pause"
  const ResumeLabel := "▶ Resume"
  const SkipLabel := "⏭ Skip"
  const ShuffleLabel := "🔀 Shuffle"
  const LoopLabel := "🔁 Loop"
  const AutoplayLabel := "🔄 Autoplay"
  const StopLabel := "⏹ Stop"

  const AccessRestricted := "Access Restricted"
  const VolumeChanged := "Audio Level Changed"
  const Reverted := "⏮ Playback Reverted"
  const Skipped := "⏭ Track Skipped"
  const Shuffled := "🔀 Queue Shuffled"
  const LoopTitle := "🔁 Playback Loop"
  const MusicError := "❌ Music Error"
  const AutoplayTitle := "🔄 Autoplay"
  const Stopped := "Music Stopped"

  /**
   * `_check_user`: a presser with no voice state is refused; otherwise the
   * presser passes exactly when their channel is the player's channel (both
   * empty counts as the same).
   */
  function CheckUser(voice: Option<VoiceState>, player: PlayerInfo): (ok: bool)
    ensures voice.None? ==> !ok
    ensures voice.Some? ==> (ok <==> voice.value.channel == player.channel)
  {
    voice.Some? && voice.value.channel == player.channel
  }

  /** The three facts `_sync_buttons` derives before its loop. */
  datatype Flags = Flags(hasPlayer: bool, hasQueue: bool, hasPrevious: bool)

  function FlagsOf(reg: map<GuildId, Playback>, g: GuildId, player: PlayerInfo): (f: Flags)
    ensures f.hasPlayer <==> player.channel.Some?
    ensures f.hasQueue <==> g in reg && reg[g].queue != []
    ensures f.hasPrevious <==> g in reg && reg[g].previous.Some?
  {
    Flags(player.channel.Some?,
          g in reg && reg[g].queue != [],
          g in reg && reg[g].previous.Some?)
  }

  predicate PlayerButton(name: string) {
    name in {DownLabel, UpLabel, PauseLabel, ResumeLabel, SkipLabel, LoopLabel, AutoplayLabel, StopLabel}
  }

  /**
   * The disabled flag `_sync_buttons` gives a button with this label, or `None`
   * for a label it does not touch.
   */
  function DisabledFor(name: string, f: Flags): (r: Option<bool>)
    ensures PlayerButton(name) ==> r == Some(!f.hasPlayer)
    ensures name == BackLabel ==> r == Some(!f.hasPrevious)
    ensures name == ShuffleLabel ==> r == Some(!f.hasQueue)
    ensures r.None? <==> !PlayerButton(name) && name != BackLabel && name != ShuffleLabel
  {
    if name == DownLabel || name == UpLabel then Some(!f.hasPlayer)
    else if name == BackLabel then Some(!f.hasPrevious)
    else if name == PauseLabel || name == ResumeLabel then Some(!f.hasPlayer)
    else if name == SkipLabel then Some(!f.hasPlayer)
    else if name == ShuffleLabel then Some(!f.hasQueue)
    else if name == LoopLabel then Some(!f.hasPlayer)
    else if name == AutoplayLabel then Some(!f.hasPlayer)
    else if name == StopLabel then Some(!f.hasPlayer)
    else None
  }

  /** One button after `_sync_buttons`: the label never changes. */
  function Synced(b: Button, f: Flags): (r: Button)
    ensures r.name == b.name
    ensures r.disabled == match DisabledFor(b.name, f) case Some(d) => d case None => b.disabled
  {
    match DisabledFor(b.name, f)
    case Some(d) => b.(disabled := d)
    case None => b
  }

  /** Volume down: ten lower, never below 1. */
  function VolumeDown(v: int): (r: int)
    ensures r >= 1 && r >= v - 10
    ensures r == 1 || r == v - 10
  {
    if v - 10 < 1 then 1 else v - 10
  }

  /** Volume up: ten higher, never above 1000. */
  function VolumeUp(v: int): (r: int)
    ensures r <= 1000 && r <= v + 10
    ensures r == 1000 || r == v + 10
  {
    if v + 10 > 1000 then 1000 else v + 10
  }

  /** Away from the bounds, one press of each button undoes the other. */
  lemma VolumeStepsUndo(v: int)
    requires 11 <= v <= 990
    ensures VolumeUp(VolumeDown(v)) == v && VolumeDown(VolumeUp(v)) == v
  {
  }

  /** The effects of Back: rejected without a `previous`, otherwise replay the previous track in place of the current one. */
  function BackEffects(p: Option<Playback>): (r: seq<Effect>)
    ensures p.None? || p.value.previous.None? ==> r == [Reply(Reverted)]
    ensures p.Some? && p.value.previous.Some? ==> Played(r) == [p.value.previous.value]
  {
    if p.None? || p.value.previous.None? then [Reply(Reverted)]
    else
      PlayedAppend([Play(p.value.previous.value, true)], [Reply(Reverted)]);
      [Play(p.value.previous.value, true), Reply(Reverted)]
  }

  /**
   * The history holds one track: a second Back right after a successful one
   * is refused and plays nothing.
   */
  lemma SecondBackRefused(p: Playback)
    requires p.previous.Some?
    ensures Played(BackEffects(Some(p))) == [p.previous.value]
    ensures BackEffects(Some(Back(p))) == [Reply(Reverted)] && Played(BackEffects(Some(Back(p)))) == []
  {
    assert Played([Reply(Reverted)]) == [];
  }

  class ControlView {
    const guild: GuildId
    const children: array<Button>

    /** Every button as `_sync_buttons` leaves it for these flags. */
    ghost predicate SyncedTo(old_: seq<Button>, f: Flags)
      reads children
    {
      |old_| == children.Length && forall i :: 0 <= i < children.Length ==> children[i] == Synced(old_[i], f)
    }

    /** `MusicControlView(player, guild_id)`: the buttons, synced once. */
    constructor (g: GuildId, buttons: seq<Button>, reg: Registry, player: PlayerInfo)
      ensures guild == g
      ensures fresh(children) && SyncedTo(buttons, FlagsOf(reg.View(), g, player))
    {
      guild := g;
      children := new Button[|buttons|](i requires 0 <= i < |buttons| => buttons[i]);
      new;
      SyncButtons(reg, player);
    }

    /** `_sync_buttons`: every button gets the disabled flag its label calls for. */
    method SyncButtons(reg: Registry, player: PlayerInfo)
      modifies children
      ensures SyncedTo(old(children[..]), FlagsOf(reg.View(), guild, player))
    {
      var f := FlagsOf(reg.View(), guild, player);
      for i := 0 to children.Length
        invariant forall j :: 0 <= j < i ==> children[j] == Synced(old(children[j]), f)
        invariant forall j :: i <= j < children.Length ==> children[j] == old(children[j])
      {
        children[i] := Synced(children[i], f);
      }
    }

    /** `volume_down`: lower the volume by ten, at least 1. */
    method VolumeDownPressed(reg: Registry, voice: Option<VoiceState>, player: PlayerInfo) returns (effects: seq<Effect>)
      modifies children
      ensures !CheckUser(voice, player) ==> effects == [Reply(AccessRestricted)] && children[..] == old(children[..])
      ensures CheckUser(voice, player) ==> effects == [SetVolume(VolumeDown(player.volume)), Reply(VolumeChanged)]
      ensures CheckUser(voice, player) ==> SyncedTo(old(children[..]), FlagsOf(reg.View(), guild, player))
    {
      if !CheckUser(voice, player) {
        return [Reply(AccessRestricted)];
      }
      effects := [SetVolume(VolumeDown(player.volume))];
      SyncButtons(reg, player);
      effects := effects + [Reply(VolumeChanged)];
    }

    /** `volume_up`: raise the volume by ten, at most 1000. */
    method VolumeUpPressed(reg: Registry, voice: Option<VoiceState>, player: PlayerInfo) returns (effects: seq<Effect>)
      modifies children
      ensures !CheckUser(voice, player) ==> effects == [Reply(AccessRestricted)] && children[..] == old(children[..])
      ensures CheckUser(voice, player) ==> effects == [SetVolume(VolumeUp(player.volume)), Reply(VolumeChanged)]
      ensures CheckUser(voice, player) ==> SyncedTo(old(children[..]), FlagsOf(reg.View(), guild, player))
    {
      if !CheckUser(voice, player) {
        return [Reply(AccessRestricted)];
      }
      effects := [SetVolume(VolumeUp(player.volume))];
      SyncButtons(reg, player);
      effects := effects + [Reply(VolumeChanged)];
    }

    /**
     * `back`: rejected, with nothing changed, when there is no record or no
     * `previous`; otherwise `Back` is applied to the record and the previous
     * track replaces the playing one.
     */
    method BackPressed(reg: Registry, voice: Option<VoiceState>, player: PlayerInfo) returns (effects: seq<Effect>)
      requires reg.Valid()
      modifies children, reg.states.Values
      ensures reg.Valid() && reg.states == old(reg.states)
      ensures !CheckUser(voice, player) ==> effects == [Reply(AccessRestricted)] && reg.View() == old(reg.View())
      ensures CheckUser(voice, player) ==>
        var before := old(reg.View());
        var p := if guild in before then Some(before[guild]) else None;
        && effects == BackEffects(p)
        && reg.View() == (if p.Some? && p.value.previous.Some? then before[guild := Back(p.value)] else before)
      ensures CheckUser(voice, player) && guild in old(reg.View()) && old(reg.View())[guild].previous.Some? ==>
        SyncedTo(old(children[..]), FlagsOf(reg.View(), guild, player))
      ensures !(CheckUser(voice, player) && guild in old(reg.View()) && old(reg.View())[guild].previous.Some?) ==>
        children[..] == old(children[..])
    {
      if !CheckUser(voice, player) {
        return [Reply(AccessRestricted)];
      }
      if guild !in reg.states || reg.states[guild].previous.None? {
        return [Reply(Reverted)];
      }
      var p := reg.states[guild].View();
      reg.Update(guild, Back(p));
      effects := [Play(p.previous.value, true)];
      SyncButtons(reg, player);
      effects := effects + [Reply(Reverted)];
    }

    /** `pause_resume`: flips pausing and relabels the pressed button to the action it now offers. */
    method PauseResumePressed(reg: Registry, voice: Option<VoiceState>, player: PlayerInfo, pressed: nat) returns (effects: seq<Effect>)
      requires pressed < children.Length
      modifies children
      ensures !CheckUser(voice, player) ==> effects == [Reply(AccessRestricted)] && children[..] == old(children[..])
      ensures CheckUser(voice, player) ==> effects == [Pause(!player.paused), RefreshView]
      ensures CheckUser(voice, player) ==>
        var relabelled := old(children[..])[pressed := old(children[pressed]).(name := if player.paused then PauseLabel else ResumeLabel)];
        SyncedTo(relabelled, FlagsOf(reg.View(), guild, player))
    {
      if !CheckUser(voice, player) {
        return [Reply(AccessRestricted)];
      }
      if player.paused {
        effects := [Pause(false)];
        children[pressed] := children[pressed].(name := PauseLabel);
      } else {
        effects := [Pause(true)];
        children[pressed] := children[pressed].(name := ResumeLabel);
      }
      SyncButtons(reg, player);
      effects := effects + [RefreshView];
    }

    /** `skip`: only stops the player; the track end that follows picks the next track. */
    method SkipPressed(reg: Registry, voice: Option<VoiceState>, player: PlayerInfo) returns (effects: seq<Effect>)
      modifies children
      ensures !CheckUser(voice, player) ==> effects == [Reply(AccessRestricted)] && children[..] == old(children[..])
      ensures CheckUser(voice, player) ==> effects == [Stop, Reply(Skipped)] && Played(effects) == []
      ensures CheckUser(voice, player) ==> SyncedTo(old(children[..]), FlagsOf(reg.View(), guild, player))
    {
      if !CheckUser(voice, player) {
        return [Reply(AccessRestricted)];
      }
      effects := [Stop];
      SyncButtons(reg, player);
      effects := effects + [Reply(Skipped)];
    }

    /** `shuffle`: silently ignored without a record or with an empty queue; otherwise the queue is permuted in place. */
    method ShufflePressed(reg: Registry, voice: Option<VoiceState>, player: PlayerInfo) returns (effects: seq<Effect>)
      requires reg.Valid()
      modifies children, reg.states.Values
      ensures reg.Valid() && reg.states == old(reg.states)
      ensures !CheckUser(voice, player) ==> effects == [Reply(AccessRestricted)]
      ensures !CheckUser(voice, player) || guild !in old(reg.View()) || old(reg.View())[guild].queue == [] ==>
        reg.View() == old(reg.View())
      ensures CheckUser(voice, player) && (guild !in old(reg.View()) || old(reg.View())[guild].queue == []) ==> effects == []
      ensures CheckUser(voice, player) && guild in old(reg.View()) && old(reg.View())[guild].queue != [] ==>
        && effects == [Reply(Shuffled)]
        && guild in reg.View()
        && IsShuffleOf(reg.View()[guild].queue, old(reg.View())[guild].queue)
        && reg.View() == old(reg.View())[guild := old(reg.View())[guild].(queue := reg.View()[guild].queue)]
        && SyncedTo(old(children[..]), FlagsOf(reg.View(), guild, player))
      ensures !CheckUser(voice, player) || guild !in old(reg.View()) || old(reg.View())[guild].queue == [] ==>
        children[..] == old(children[..])
    {
      if !CheckUser(voice, player) {
        return [Reply(AccessRestricted)];
      }
      if guild !in reg.states || reg.states[guild].queue == [] {
        return [];
      }
      var p := reg.states[guild].View();
      assert IsShuffleOf(p.queue, p.queue);
      var shuffled :| IsShuffleOf(shuffled, p.queue);
      reg.Update(guild, p.(queue := shuffled));
      SyncButtons(reg, player);
      effects := [Reply(Shuffled)];
    }

    /** `loop`: silently ignored without a record; otherwise the loop switch flips. */
    method LoopPressed(reg: Registry, voice: Option<VoiceState>, player: PlayerInfo) returns (effects: seq<Effect>)
      requires reg.Valid()
      modifies children, reg.states.Values
      ensures reg.Valid() && reg.states == old(reg.states)
      ensures !CheckUser(voice, player) ==> effects == [Reply(AccessRestricted)]
      ensures !CheckUser(voice, player) || guild !in old(reg.View()) ==> reg.View() == old(reg.View())
      ensures CheckUser(voice, player) && guild !in old(reg.View()) ==> effects == []
      ensures CheckUser(voice, player) && guild in old(reg.View()) ==>
        && effects == [Reply(LoopTitle)] && reg.View() == old(reg.View())[guild := ToggleLoop(old(reg.View())[guild])]
        && SyncedTo(old(children[..]), FlagsOf(reg.View(), guild, player))
      ensures !CheckUser(voice, player) || guild !in old(reg.View()) ==> children[..] == old(children[..])
    {
      if !CheckUser(voice, player) {
        return [Reply(AccessRestricted)];
      }
      if guild !in reg.states {
        return [];
      }
      reg.Update(guild, ToggleLoop(reg.states[guild].View()));
      SyncButtons(reg, player);
      effects := [Reply(LoopTitle)];
    }

    /**
     * `autoplay`: an error reply without a record; otherwise the switch flips
     * (seeding from `current` when turned on with no seed) and the panel, if
     * any, is re-rendered from the new record.
     */
    method AutoplayPressed(reg: Registry, voice: Option<VoiceState>, player: PlayerInfo) returns (effects: seq<Effect>)
      requires reg.Valid()
      modifies children, reg.states.Values
      ensures reg.Valid() && reg.states == old(reg.states)
      ensures !CheckUser(voice, player) ==> effects == [Reply(AccessRestricted)]
      ensures !CheckUser(voice, player) || guild !in old(reg.View()) ==> reg.View() == old(reg.View())
      ensures CheckUser(voice, player) && guild !in old(reg.View()) ==> effects == [Reply(MusicError)]
      ensures CheckUser(voice, player) && guild in old(reg.View()) ==>
        var p' := ToggleAutoplay(old(reg.View())[guild]);
        && reg.View() == old(reg.View())[guild := p']
        && effects == (if p'.message.Some? then [EditPanel(p')] else []) + [Reply(AutoplayTitle)]
        && SyncedTo(old(children[..]), FlagsOf(reg.View(), guild, player))
      ensures !CheckUser(voice, player) || guild !in old(reg.View()) ==> children[..] == old(children[..])
    {
      if !CheckUser(voice, player) {
        return [Reply(AccessRestricted)];
      }
      if guild !in reg.states {
        return [Reply(MusicError)];
      }
      var p' := ToggleAutoplay(reg.states[guild].View());
      reg.Update(guild, p');
      SyncButtons(reg, player);
      effects := [];
      if p'.message.Some? {
        effects := [EditPanel(p')];
      }
      effects := effects + [Reply(AutoplayTitle)];
    }

    /** `stop`: disconnect, drop this guild's record (if any) and take the buttons off the message. */
    method StopPressed(reg: Registry, voice: Option<VoiceState>, player: PlayerInfo) returns (effects: seq<Effect>)
      requires reg.Valid()
      modifies children, reg
      ensures reg.Valid()
      ensures !CheckUser(voice, player) ==> effects == [Reply(AccessRestricted)] && reg.View() == old(reg.View())
      ensures CheckUser(voice, player) ==>
        && effects == [Disconnect(false), RemoveView, Reply(Stopped)]
        && reg.View() == old(reg.View()) - {guild}
        && SyncedTo(old(children[..]), Flags(player.channel.Some?, false, false))
    {
      if !CheckUser(voice, player) {
        return [Reply(AccessRestricted)];
      }
      effects := [Disconnect(false)];
      reg.Pop(guild);
      SyncButtons(reg, player);
      effects := effects + [RemoveView, Reply(Stopped)];
    }
  }

  /** After Stop, every button but Back and Shuffle follows the player's channel, and those two are disabled. */
  lemma StopDisablesHistoryButtons(b: Button, channel: Option<ChannelId>)
    requires b.name == BackLabel || b.name == ShuffleLabel
    ensures Synced(b, Flags(channel.Some?, false, false)).disabled
  {
  }
}
