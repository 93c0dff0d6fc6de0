# A verified model of a Discord music bot's playback core

This project models the core of a Discord music bot built on the wavelink
Lavalink client. Each guild (Discord server) has one `MusicState` record in the
process-wide registry `music_states`. The record holds:

- the queue;
- the current and previous track;
- the loop and autoplay switches;
- the autoplay seed;
- the control-panel message.

Every path that changes playback acts on that record:

- the live track-end handler (`on_track_end`) and `cleanup_player`;
- the unused `play_next` policy;
- autoplay's similar-track search;
- the button panel (`MusicControlView`) and its per-user cooldown;
- the `/play` command and the track resolver behind it;
- the other slash commands.

The model has two layers:

- **Values.** Each handler is a Dafny function from the registry's value
  (`map<GuildId, Playback>`) to the new value and the calls the handler makes
  on its collaborators. Those calls are recorded as `Effects.Effect`: play,
  stop, pause, volume, seek, disconnect, connect, panel edits and replies.
  A panel edit records the playback record it renders; the embed itself is
  `Embed.BuildPlayerEmbed` of that record.
- **Objects.** The registry is the class `State.Registry`, which maps guild ids
  to `State.MusicState` objects. A method on those objects performs each
  handler's assignments. Its `ensures` ties the new state and the effects to
  the value-level function.

The lemmas state the bot's promises:

- loop replays the current track;
- the queue drains in order;
- nothing left to play means disconnect and drop the record;
- autoplay never repeats the seed's title when it has a choice;
- only the acting guild's record ever changes.

Search, the Spotify playlist service, the lyrics service, the clock and random
choice become parameters. `:|` stands for the random pick.

Some behaviours of the code that are easy to miss:

- the track-end handler does not read the `manual_action` flag that `/play` sets;
- the queue branch of the live handler leaves the autoplay seed untouched;
- the bot adds no cap of its own on playlists: every item the fetch returns is resolved;
- the Back button writes an `autoplay_enabled` attribute and leaves the
  `autoplay` switch alone.

## Model

| member | source | states |
|---|---|---|
| State.MusicState.constructor | music/state.py:3-10 | a new record has an empty queue, no tracks, no seed, no panel, and loop and autoplay off |
| State.Registry.SetDefault | commands/play.py:74-77 | an existing record is returned unchanged; otherwise one fresh initial record is added for exactly this guild |
| State.Registry.Update | music/state.py:13 | guild `g`'s record gets the new value and every other record keeps its value (records are never shared) |
| State.Registry.Pop | bot.py:92-93 | the entry of this guild, and no other, is removed |
| Tracks.WithRequester | music/resolver.py:25-28 | the four requester attributes are set from the member, and the title, author, uri and length are kept |
| Tracks.MarkAutoplay | music/autoplay.py:58-61 | the pick is tagged `autoplay` and keeps its title, author, uri and length |
| Text.Lower | music/autoplay.py:49 | same length; each character is case-folded (ASCII letters) |
| Text.ContainsIffOccurs | music/resolver.py:9 | the substring test holds iff the marker occurs at some index |
| Text.AfterLast | music/resolver.py:10 | a suffix of the input containing no separator, preceded by the separator when shorter |
| Text.BeforeFirst | music/resolver.py:10 | a prefix of the input containing no separator, followed by the separator when shorter |
| Text.Decimal | music/embed.py:60 | a non-empty digit string with no leading zero |
| Text.DecimalValue | music/embed.py:60 | reading the decimal rendering back gives the number |
| Text.TwoDigits | music/embed.py:60 | exactly two digits denoting `n` (zero-padded) |
| Embed.RequesterName | music/embed.py:26-31 | the requester's name when one is attached to the current track, else "Music System" |
| Embed.RequesterAvatar | music/embed.py:26-31 | the requester's avatar when present, else the system icon |
| Embed.RequestedBy | music/embed.py:47-56 | "name #tag" with the requester's tag, or "name #0000" when the tag is missing; "Music System" without a requester |
| Embed.Link | music/embed.py:40-44 | the Markdown link: the title between the brackets and the uri between the parentheses |
| Embed.Duration | music/embed.py:59-63 | "Live" exactly when the length is missing or not positive |
| Embed.DurationReadsBack | music/embed.py:59-63 | minutes before the colon, two-digit seconds below 60 after it, together the track's whole seconds |
| Embed.Footer | music/embed.py:90-98 | the autoplay switch ("ON"/"OFF") right after "Autoplay: ", then the loop switch right after " • Loop: " |
| Embed.FooterShowsQueueLength | music/embed.py:90-98 | the footer's number after "Queue: " reads back as the queue length |
| Embed.NowPlayingFields | music/embed.py:39-76 | four fields: the `[title](uri)` link (not inline), then inline the requester, the duration, and the artist with "Unknown Artist" as fallback |
| Embed.PanelFields | music/embed.py:39-87 | the idle field without a current track, otherwise the four now-playing fields |
| Embed.BuildPlayerEmbed | music/embed.py:7-100 | the fixed title and description; the author line "Requested by" the requester name with the requester's avatar (system name and icon when idle); the idle field or the four now-playing fields; a thumbnail exactly when the current track has artwork, and it is that artwork; the footer with the switches and queue length, with the author's icon |
| Effects.PlayedAppend | bot.py:34-51 | the tracks played by two effect sequences in a row are those of the first, then of the second |
| Autoplay.SeedOf | music/autoplay.py:20-22 | the seed takes precedence over the current track; none only when both are missing |
| Autoplay.Queries | music/autoplay.py:24-27 | two queries: the seed's title, a space and its author; then the author alone |
| Autoplay.DropSameTitle | music/autoplay.py:47-50 | keeps exactly the results whose lower-cased title differs from the seed's, and no more than there were |
| Autoplay.DropSameTitleAppend | music/autoplay.py:47-50 | the filter keeps order and multiplicity: filtering a concatenation concatenates the filtered parts |
| Autoplay.DropSameTitlePrefix | music/autoplay.py:47-50 | scanning left to right, each result is appended exactly when its title differs from the seed's, and a prefix's filter is a prefix of the whole filter |
| Autoplay.Candidates | music/autoplay.py:52-53 | one to five of the results; the first five of the filtered results when any result has another title (none of them repeating the seed's title); the first five results when none does |
| Autoplay.IssuedSearches | music/autoplay.py:24-42 | "title author" is searched first, and the artist-only search runs iff the first raised or found nothing |
| Autoplay.FirstResults | music/autoplay.py:32-42 | no results iff neither query found any; otherwise the non-empty results of the last search issued |
| Autoplay.SearchSimilar | music/autoplay.py:32-70 | issues exactly the searches above; returns a tagged candidate of the first useful search, or nothing iff neither was useful |
| Autoplay.GetAutoplayTrack | music/autoplay.py:5-70 | no seed gives no pick; a pick is a candidate and becomes the new seed; nothing else in the record changes |
| Autoplay.GetAutoplayTrackIn | music/autoplay.py:5-70 | the same on one guild's record in the registry; no other record changes |
| Autoplay.PickAvoidsSeedTitle | music/autoplay.py:47-53 | when some result has another title, the pick's title differs from the seed's |
| Transitions.Advance | bot.py:38-41 | the queue front becomes current and the old current becomes previous; no track is lost or reordered |
| Transitions.AdvanceSeeded | music/player.py:14-19 | `Advance` that also makes the new current track the seed, differing only in the seed |
| Transitions.TakeAutoplay | music/player.py:24-27 | the pick becomes current and seed; the old current becomes previous; nothing else changes |
| Transitions.Back | music/controls.py:122-130 | previous becomes current and seed; the history is consumed; queue and switches kept; `autoplay_enabled` set false |
| Transitions.ToggleLoop | commands/basic.py:244 | only the loop switch flips |
| Transitions.ToggleAutoplay | commands/basic.py:275-277 | the switch flips; turning it on with no seed seeds from current; nothing else changes |
| Transitions.ClearQueue | commands/basic.py:307 | only the queue is emptied |
| Transitions.ToggleLoopTwice | music/controls.py:205-223 | toggling loop twice restores the record |
| Transitions.ToggleAutoplayTwice | music/controls.py:227-271 | toggling autoplay twice restores the switch and fills a missing seed from current |
| Controls.SecondBackRefused | music/controls.py:112-130 | Back plays the previous track; a second Back right after it is refused and plays nothing |
| Bot.PanelRefresh | bot.py:59-67 | a panel edit is issued iff a panel message exists, and it plays nothing |
| Bot.Cleanup | bot.py:71-93 | disconnect first; "finished" panel iff a panel exists; exactly this guild's record is dropped |
| Bot.TrackEnd | bot.py:21-67 | no guild or no record: nothing happens; only this guild's record can change; it is removed iff the player is disconnected; at most one track is played |
| Bot.LoopReplaysCurrent | bot.py:33-35 | loop on with a current track: exactly that track is replayed and nothing changes |
| Bot.QueuePopsFront | bot.py:38-41 | the front is the one track played and becomes current, the rest keep their order, and the seed is untouched |
| Bot.AutoplayTakesPick | bot.py:44-51 | a candidate is played and becomes current; the old current becomes previous |
| Bot.NothingLeftCleansUp | bot.py:52-57 | with nothing to play the handler is `cleanup_player`: disconnect and drop this guild's record |
| Bot.CleanupPlayer | bot.py:71-93 | the registry and effects are those of `Cleanup` |
| Bot.QueueStep | bot.py:38-41 | the queue branch on the objects agrees with `TrackEnd` |
| Bot.AutoplayStep | bot.py:44-57 | the autoplay branch on the objects agrees with `TrackEnd` for the pick autoplay returned |
| Bot.OnTrackEnd | bot.py:21-67 | the handler on the objects agrees with `TrackEnd`; autoplay is consulted only in its branch, and then as `get_autoplay_track` promises |
| Player.NextAsWritten | music/player.py:5-29 | the autoplay branch raises with nothing changed and nothing played; no entry is ever removed |
| Player.NextCorrected | music/player.py:5-29 | never raises and never removes an entry; only this guild's record changes; at most one track is played |
| Player.NoStateNoop | music/player.py:6-8 | without a record neither variant does anything |
| Player.NextLoopReplays | music/player.py:10-12 | loop on with a current track: replay it, and both variants agree |
| Player.NextPopsAndSeeds | music/player.py:14-19 | the front becomes current and seed; this is the live handler's queue transition except for the seed |
| Player.NextNoCandidateKeepsState | music/player.py:21-28 | with no candidate, the record stays as it is and there is no cleanup |
| Player.NextTakesCandidate | music/player.py:21-28 | a candidate is played and becomes current and seed |
| Player.AsWrittenAutoplayRaises | music/player.py:22 | whenever the intended call would play a candidate, the code as written raises and plays nothing |
| Player.PlayNextAsWritten | music/player.py:5-29 | on the objects, agrees with `NextAsWritten` |
| Player.PlayNext | music/player.py:5-29 | on the objects, agrees with `NextCorrected`; in the autoplay branch (no loop replay, empty queue, autoplay on) the pick, present or missing, is what `get_autoplay_track` returns for the record's seed |
| Player.NextAutoplay | music/player.py:21-28 | the autoplay branch on the objects agrees with `NextCorrected` for a pick that `get_autoplay_track` could return |
| Controls.CheckUser | music/controls.py:20-32 | a presser with no voice state is refused; otherwise the presser passes exactly when in the player's channel |
| Controls.FlagsOf | music/controls.py:35-41 | has-player iff the player has a channel; has-queue and has-previous read from the guild's record |
| Controls.DisabledFor | music/controls.py:43-66 | player buttons follow the player, Back follows the history, Shuffle follows the queue, and other labels are untouched |
| Controls.Synced | music/controls.py:43-66 | a synced button keeps its label and takes the flag its label calls for |
| Controls.VolumeDown | music/controls.py:74 | ten lower, never below 1 |
| Controls.VolumeUp | music/controls.py:93 | ten higher, never above 1000 |
| Controls.VolumeStepsUndo | music/controls.py:70-104 | away from the bounds, one press of each volume button undoes the other |
| Controls.BackEffects | music/controls.py:108-141 | refused without a previous track; otherwise the previous track is played |
| Controls.ControlView.constructor | music/controls.py:13-17 | the view's buttons are synced to the guild's record and the player |
| Controls.ControlView.SyncButtons | music/controls.py:35-66 | every button gets the disabled flag its label calls for |
| Controls.ControlView.VolumeDownPressed | music/controls.py:70-85 | a stranger is refused; otherwise the volume is lowered and the buttons are re-synced |
| Controls.ControlView.VolumeUpPressed | music/controls.py:89-104 | a stranger is refused; otherwise the volume is raised and the buttons are re-synced |
| Controls.ControlView.BackPressed | music/controls.py:108-141 | refused with nothing changed, buttons included, without a record or history; otherwise `Back` is applied, the previous track replaces the current one, and the buttons are re-synced to the new record |
| Controls.ControlView.PauseResumePressed | music/controls.py:145-161 | flips pausing and relabels the pressed button to the action it now offers |
| Controls.ControlView.SkipPressed | music/controls.py:165-179 | only stops the player; no track is played directly |
| Controls.ControlView.ShufflePressed | music/controls.py:183-201 | silent, with records and buttons unchanged, without a record or queue; otherwise the queue becomes a permutation of itself, nothing else in the registry changes, and the buttons are re-synced |
| Controls.ControlView.LoopPressed | music/controls.py:205-223 | silent, with records and buttons unchanged, without a record; otherwise only the loop switch flips and the buttons are re-synced |
| Controls.ControlView.AutoplayPressed | music/controls.py:227-271 | error reply, buttons unchanged, without a record; otherwise `ToggleAutoplay` is applied, the buttons are re-synced and the panel is re-rendered from the new record |
| Controls.ControlView.StopPressed | music/controls.py:275-291 | disconnect, drop exactly this guild's record, and take the view off the message |
| Controls.StopDisablesHistoryButtons | music/controls.py:275-291 | with the record gone, Back and Shuffle are disabled |
| Cooldown.Blocked | music/cooldown.py:20-22 | never blocked without a recorded use or with a recorded time of 0; otherwise blocked iff less than the cooldown has passed |
| Cooldown.Recorded | music/cooldown.py:25 | the use is recorded at `now` for this user and action |
| Cooldown.RecordedKeepsOthers | music/cooldown.py:25 | recording leaves every other user's and action's time unchanged |
| Cooldown.ButtonCooldown.constructor | music/cooldown.py:11-12 | nothing is recorded |
| Cooldown.ButtonCooldown.Check | music/cooldown.py:14-26 | blocked iff a non-zero last use is within the cooldown; then the wait is returned and nothing changes; otherwise the use is recorded |
| Cooldown.FirstUseAllowed | music/cooldown.py:20-22 | the first use of a user/action pair is allowed |
| Cooldown.RemainingInRange | music/cooldown.py:22-23 | when blocked, the time left lies in (0, cooldown] |
| Cooldown.ImmediateRepeatBlocked | music/cooldown.py:20-26 | a repeat at the same instant is blocked for the whole cooldown |
| PlayCommand.Feed | commands/play.py:108-131 | a started loop stays started |
| PlayCommand.FeedAppends | commands/play.py:108-131 | once busy or started, the loop appends every remaining track in order |
| PlayCommand.FeedResult | commands/play.py:108-131 | a track is started iff the player is idle and something was resolved; it is the first track and only it is not queued |
| PlayCommand.StartOrEnqueue | commands/play.py:108-131 | the loop on the record agrees with `Feed`; `queued_only` is true iff nothing was started |
| PlayCommand.Registered | commands/play.py:74-81 | the existing record or a fresh one, with `manual_action` false |
| PlayCommand.JoinEffects | commands/play.py:60-69 | connect without a client; move when the client is in another channel; nothing when it is already in the caller's channel; the connect or move issued targets the caller's channel |
| PlayCommand.ChannelAfterAppend | commands/play.py:60-69 | the channel reached by two runs of connect and move calls is that of their concatenation |
| PlayCommand.PanelStep | commands/play.py:136-154 | edit an existing panel, send a new one when there is none or the edit fails; the record then holds a panel |
| PlayCommand.Notices | commands/play.py:159-194 | the "queued" notice iff nothing was started; the auto-correct notice iff a corrected track was started |
| PlayCommand.PlayStep | commands/play.py:17-194 | offline node and missing voice channel are refused with nothing changed; at most this guild's record is added or changed |
| PlayCommand.InChannel | commands/play.py:74-194 | this guild has a record with `manual_action` false and no other record changes |
| PlayCommand.AfterRegister | commands/play.py:86-194 | no record is added or removed, and no other record changes |
| PlayCommand.Resolved | commands/play.py:108-194 | the record gets a panel; the first track is played iff the player is idle |
| PlayCommand.PlayStepResolved | commands/play.py:60-131 | past the guards, with tracks and a player, `/play` is the join followed by `Resolved` on the registered record |
| PlayCommand.PlayQuery | commands/play.py:17-194 | `/play` on the objects agrees with `PlayStep` |
| PlayCommand.PlayInChannel | commands/play.py:74-194 | on the objects, agrees with `InChannel` |
| PlayCommand.PlayRegistered | commands/play.py:86-194 | on the objects, agrees with `AfterRegister` |
| PlayCommand.Register | commands/play.py:74-81 | an existing record object is reused, otherwise a fresh one is made; its value is `Registered` |
| PlayCommand.RunResolved | commands/play.py:108-194 | on the objects, agrees with `Resolved` on this guild's record only |
| PlayCommand.ResolvedOn | commands/play.py:108-194 | on the guild's record, the loop, the panel and the notices agree with `Resolved` |
| PlayCommand.PlayKeepsOneRecordPerGuild | commands/play.py:74-77 | past the guards, the guild ends with exactly one record with `manual_action` false; no other record changes |
| PlayCommand.PlayRejectsNoResults | commands/play.py:86-103 | a failed or empty resolution is refused, leaving the record with only `manual_action` set |
| PlayCommand.ResolvedRecord | commands/play.py:108-154 | after resolution the record is the loop's result plus a panel message |
| PlayCommand.PlayIdleStartsFirst | commands/play.py:108-131 | with an idle player, the first track is the only one played and becomes current and seed; the rest are queued in order |
| PlayCommand.PlayBusyAppendsAll | commands/play.py:108-194 | with a busy player, every track is appended in order, the current tracks stay, and "queued" is replied |
| BasicCommands.Join | commands/basic.py:14-42 | refused without a voice channel; otherwise exactly `/play`'s connect-or-move step, then "Connected"; the connect or move issued targets the caller's channel |
| BasicCommands.PauseCommand | commands/basic.py:85-104 | pauses iff the player is playing; the reply says which |
| BasicCommands.ResumeCommand | commands/basic.py:108-127 | resumes iff the player is paused; the reply says which |
| BasicCommands.SkipCommand | commands/basic.py:131-150 | stops iff the player is playing and plays nothing |
| BasicCommands.ClampVolume | commands/basic.py:166 | the volume set is in [1, 200], and equals the request when it is in range |
| BasicCommands.ClampVolumeIdempotent | commands/basic.py:166 | clamping twice equals clamping once |
| BasicCommands.VolumeCommand | commands/basic.py:154-175 | refused without a client; otherwise the clamped volume is set |
| BasicCommands.MaxSeconds | commands/basic.py:193 | 0 for a missing or zero length; otherwise the whole seconds of the length, rounded down |
| BasicCommands.ClampSeek | commands/basic.py:193-194 | the target second is in [0, whole seconds of the track]; the request when in range; the whole seconds above it; 0 for a negative request |
| BasicCommands.SeekStaysInTrack | commands/basic.py:183-196 | the seek position in ms never passes the end of the track |
| BasicCommands.SeekCommand | commands/basic.py:179-203 | refused unless playing with a current track; otherwise seeks to the clamped second |
| BasicCommands.ShuffleCommand | commands/basic.py:207-226 | refused without a record or queue; otherwise the queue becomes a permutation of itself and nothing else changes |
| BasicCommands.ToggleRefresh | commands/basic.py:253-257 | the panel is re-rendered iff there is a panel and a voice client |
| BasicCommands.LoopCommand | commands/basic.py:230-257 | refused without a record; otherwise only the loop switch flips |
| BasicCommands.AutoplayCommand | commands/basic.py:261-291 | refused without a record; otherwise `ToggleAutoplay` is applied |
| BasicCommands.ClearCommand | commands/basic.py:295-314 | refused without a record or queue; otherwise only the queue is emptied |
| BasicCommands.LeaveEffects | commands/basic.py:61-71 | forced disconnect first; the panel is blanked iff there is one |
| BasicCommands.LeaveAsWritten | commands/basic.py:46-81 | the registry never changes; it raises iff connected with a record |
| BasicCommands.Leave | commands/basic.py:46-81 | refused without a client; otherwise exactly this guild's record is dropped |
| BasicCommands.LeaveKeepsStaleSession | commands/basic.py:72-73 | after `/leave` as written, the next `/play` reuses the stale record; after the intended one, it starts fresh |
| BasicCommands.LeaveAsWrittenCommand | commands/basic.py:46-81 | on the objects, agrees with `LeaveAsWritten` |
| BasicCommands.LeaveCommand | commands/basic.py:46-81 | on the objects, agrees with `Leave` |
| InfoCommands.NowPlaying | commands/info.py:12-52 | refused iff there is no record, no current track or no voice client; otherwise the "Now Playing" card: `[title](uri)`, or the title alone without a uri; the artist, the volume when known, the autoplay switch; the artwork as thumbnail when present; "Requested in" the guild name |
| InfoCommands.LineShowsNumber | commands/info.py:71-74 | the number a listing line starts with reads back as its position |
| InfoCommands.Numbered | commands/info.py:71-74 | one line per track, the i-th numbered from + i |
| InfoCommands.FirstTen | commands/info.py:73 | the first min(10, n) tracks |
| InfoCommands.LastTen | commands/info.py:113 | the last min(10, n) tracks |
| InfoCommands.QueueFooterFor | commands/info.py:82-87 | counts the unlisted tracks when there are more than ten |
| InfoCommands.QueueCommand | commands/info.py:58-89 | refused iff there is no record or the queue is empty; otherwise the first ten tracks, numbered from 1 |
| InfoCommands.QueueListsFirstTen | commands/info.py:71-74 | the listed lines are exactly the first ten tracks, the i-th numbered i + 1 |
| InfoCommands.HistoryListing | commands/info.py:95-119 | refused iff the history is empty; otherwise its last ten tracks |
| InfoCommands.FavoritesListing | commands/info.py:125-149 | refused iff the favorites are empty; otherwise their first ten tracks |
| InfoCommands.HistoryAndFavoritesAlwaysEmpty | commands/info.py:95-149 | with no such attributes on the record, both commands always refuse |
| InfoCommands.Truncate | commands/info.py:189-191 | at most 4096 characters; short lyrics are unchanged; long ones keep their first 4090 characters plus a newline and an ellipsis |
| InfoCommands.TruncateIdempotent | commands/info.py:189-191 | truncating twice equals truncating once |
| InfoCommands.LyricsCommand | commands/info.py:155-200 | refused without a current track; a failed or empty lookup gives "not found"; otherwise the truncated lyrics |
| Resolver.IsPlaylist | music/resolver.py:9 | the playlist branch is taken iff "spotify.com/playlist" occurs in the query at some index |
| Resolver.PlaylistId | music/resolver.py:10 | the text after the last '/', cut before the first '?'; it contains neither |
| Resolver.PlaylistIdLocated | music/resolver.py:10 | the id starts right after the query's last '/' (or at its start) and ends at the first '?' after that point (or at the query's end) |
| Resolver.FirstResult | music/resolver.py:35-47 | raises iff the search raises; at most one track, which carries the requester |
| Resolver.Contribution | music/resolver.py:14-30 | an item without track data adds nothing; others add at most one track |
| Resolver.PlaylistTracks | music/resolver.py:13-32 | no more tracks than items; nothing when no item has track data |
| Resolver.PlaylistTracksBounded | music/resolver.py:13-32 | at most one track per item, and every track carries the requester |
| Resolver.RaiseIsFinal | music/resolver.py:13-32 | once an item raises, the whole loop raises |
| Resolver.SkippedItems | music/resolver.py:14-16 | items without track data are skipped |
| Resolver.ResolvePlaylist | music/resolver.py:13-32 | the loop's result is the items' contributions in order |
| Resolver.PlainQueryFirstResult | music/resolver.py:35-47 | a non-playlist query resolves to nothing or to the first search result |
| Resolver.Resolve | music/resolver.py:5-47 | a failing playlist fetch raises; at most one track per playlist item, at most one for a plain query; every track carries the requester |
| Resolver.ResolveTracks | music/resolver.py:5-47 | at most one track per playlist item, at most one track for a plain query, and every track carries the requester |
| Properties.QueueDrainsInOrder | bot.py:37-41 | with loop off, n track ends play the first n queued tracks in order; the rest stay queued and the switches and seed are untouched |
| Properties.LoopRepeatsForever | bot.py:32-35 | with loop on and a current track, every track end replays it and nothing changes |
| Properties.DrainThenCleanup | bot.py:37-57 | with loop and autoplay off, once the queue is drained the next track end disconnects and drops the record |

## Left out

- Discord and wavelink I/O: replies are modelled by their titles only, embed colours are not modelled, and neither are the exact descriptions of reply embeds.
- The audio player's own state after a call (`playing`, `paused`, `is_done`) is a snapshot the handler reads; what the backend does with a `play` or `stop` is not modelled.
- Concurrency: handlers are async, and interleavings between them are not modelled; each handler runs to completion on its own.
- The failures of panel edits, disconnects, `send` and `move_to` are swallowed by the bot, or treated as not happening. A panel edit that fails in `/play` is modelled, because it changes the record, and so is a failed connect in `/play` (commands/play.py:63-66), through the voice client seen afterwards.
- A `connect` that raises in `/join` (commands/basic.py:32) and a `player.play` that raises (bot.py:34-51, commands/play.py:121) are not modelled: the model treats both as succeeding, so it does not capture the skipped "Connected" reply, the skipped panel refresh or the resolved tracks left unqueued after such a raise.
- Cooldown.ButtonCooldown.Check: the monotonic clock is whole ticks rather than floating-point seconds, and the `round(..., 1)` of the remaining time is dropped.
- Text.Lower: only ASCII letters are case-folded; Python's full Unicode `lower()` is not modelled.
- `state.player` (commands/play.py:78) is an attribute nothing reads back, so it is not part of the record.
- The `extras = {}` reset for tracks without an extras namespace (music/autoplay.py:58-59) is folded into the autoplay tag.
- Spotify and Genius clients that failed to start are folded into "the service call raised".
- `start_bot`, `on_ready`, the keep-alive web server, the Lavalink connection and `core/config.py` are not part of this model.
- Panel edits that also rebuild the button view are modelled as the panel edit only; the rebuilt view's button states are what `SyncButtons` states.
- The guild name in the `/nowplaying` and `/lyrics` footers is a parameter.

## Findings

| source | as written | input that shows it | evidently intended | confidence | as-written member | corrected member |
|---|---|---|---|---|---|---|
| music/player.py:22 | `get_autoplay_track(state, gid)` passes two arguments to a one-parameter function, so it raises `TypeError` | a record with an empty queue, autoplay on, and loop off or no current track | call `get_autoplay_track(state)` and play the candidate | not executed | Player.AsWrittenAutoplayRaises | Player.NextTakesCandidate |
| commands/basic.py:72 | `state.reset()` is not defined on `MusicState`; the `AttributeError` stops `/leave` before `music_states.pop` | `/leave` while connected in a guild with a record | drop the guild's record so the next `/play` starts fresh | not executed | BasicCommands.LeaveKeepsStaleSession | BasicCommands.Leave |
