# Discord transcription bot: recording registry, presence rule and settings table

This project models the sequential core of a Discord bot that records voice
channels of a configured category and posts a Gemini transcription to a text
channel. It covers two parts.

- **main.py.** The recording registry `recording_states` maps a guild to its
  live session. `start_recording` inserts an entry. `stop_recording_cleanup`
  pops it. The `/stop` command stops capture but keeps the entry. The
  `on_voice_state_update` handler decides between start, stop-and-cleanup and
  nothing. `process_recording` joins the speakers' buffers, transcribes,
  enhances and posts the result. `SilenceAudioSource.read` yields the
  keep-alive frame.
- **config_manager.py.** The per-guild settings table is keyed by
  `str(guild_id)`. Each record has an optional voice category id and an
  optional text channel id.

Modules:

- `Wrappers`: `Option`, and `Reply` for a call that returns or raises.
- `GuildKey`: Python's `str` on an `int`, written out as decimal digits. It is
  proved injective.
- `Settings`: the table as a value (`Lookup`, `WithVoiceCategory`,
  `WithTextChannel`, `Without`), lemmas about it, and the `ConfigManager`
  class that updates `data` in place.
- `Presence`: the decision rule `Decide` and its characterisation.
- `Registry`: the world (`recording_states`, each guild's `voice_client`, and
  the log of platform calls). It has one pure step function per operation,
  their properties, and the `Bot` class whose methods follow the source
  statement by statement and are proved equal to the step functions.
- `Transcript`: `process_recording` as a method with the loop that collects
  the buffers, the join, and the silence frame.

Discord and Gemini are abstract:

- A channel is an id plus an optional category id.
- A resolved category is a list of voice channels, each with its members and
  their bot flag.
- `connect`'s success is a parameter.
- What `transcribe_audio` and `enhance_transcription` give back is a
  parameter: a value, or an exception. Each is called at most once per
  recording, and the call log records the argument it got.
- `get_channel` resolution is a parameter: an `Option` for the category, a set
  of resolvable ids for text channels.
- Every call into the platform or the AI service is recorded, in order.

The model follows the code where it is easy to misread:

- A recording starts only when `before.channel` is empty. A member moving in
  from a channel outside the category starts nothing (main.py:144).
- The registry has two states per guild, present or absent. There are no
  Connecting or Finalizing states.
- Only an empty `audio_data` skips transcription. Buffers that are all empty
  are still joined and transcribed (main.py:213).
- There is no retry, backoff, semaphore or failure-message mapping. An
  exception from `transcribe_audio` or `enhance_transcription` ends
  `process_recording` before anything is sent.
- `/stop` keeps the entry, and the bot stays connected. No join starts a new
  recording until a leave empties the category. If the entry exists but
  capture has already stopped, the command sends no reply (`NoReply`).

## Model

| member | source | states |
|---|---|---|
| `GuildKey.Digits` | config_manager.py:32 | the decimal spelling of a non-negative id is non-empty, digits only, and one character exactly below 10 |
| `GuildKey.Str` | config_manager.py:40 | `str(guild_id)` is non-empty and starts with '-' exactly for negative ids |
| `GuildKey.DigitsInjective` | config_manager.py:32 | equal digit strings come from equal numbers |
| `GuildKey.StrInjective` | config_manager.py:40 | equal keys `str(a) == str(b)` imply `a == b` |
| `GuildKey.DistinctGuildsDistinctKeys` | config_manager.py:32 | distinct guild ids get distinct dictionary keys |
| `Settings.Lookup` | config_manager.py:39-40 | `get_channels(g)`: the record stored under `str(g)`, or `{}`; characterised by `LookupMissing` and the read-back lemmas |
| `Settings.WithVoiceCategory` | config_manager.py:31-32 | the table after `set_voice_category(g, c)`: `setdefault(str(g), {})` then the field set; characterised by `SetVoiceCategoryReadBack` and `OtherGuildsUnchanged` |
| `Settings.WithTextChannel` | config_manager.py:35-36 | the table after `set_text_channel(g, ch)`; characterised by `SetTextChannelReadBack` and `OtherGuildsUnchanged` |
| `Settings.Without` | config_manager.py:42-43 | the table after `pop(str(g), None)`; characterised by `UnsetClears` and `OtherGuildsUnchanged` |
| `Settings.LookupMissing` | config_manager.py:39-40 | `get_channels` of a guild without a record is `{}` |
| `Settings.SetVoiceCategoryReadBack` | config_manager.py:31-32 | after `set_voice_category(g, c)` the record of g has `voice_category_id == c` and keeps its `text_channel_id` (setdefault merges) |
| `Settings.SetTextChannelReadBack` | config_manager.py:35-36 | after `set_text_channel(g, ch)` the record of g has `text_channel_id == ch` and keeps its `voice_category_id` |
| `Settings.SetIdempotent` | config_manager.py:31-36 | setting the same field to the same value twice gives the same table as once |
| `Settings.SettersCommute` | config_manager.py:31-36 | setting both fields gives the same record in either order |
| `Settings.UnsetClears` | config_manager.py:42-43 | after `unset_channels(g)` g reads `{}`; unsetting an absent guild is a no-op; unsetting twice equals once |
| `Settings.OtherGuildsUnchanged` | config_manager.py:31-43 | each set or unset for g leaves every other guild's record unchanged |
| `Settings.ConfigManager.constructor` | config_manager.py:8-11 | the table starts as what was loaded |
| `Settings.ConfigManager.SetVoiceCategory` | config_manager.py:31-33 | `data` becomes the merge of `voice_category_id`; g's record changes in that field only; other guilds unchanged |
| `Settings.ConfigManager.SetTextChannel` | config_manager.py:35-37 | `data` becomes the merge of `text_channel_id`; other guilds unchanged |
| `Settings.ConfigManager.GetChannels` | config_manager.py:39-40 | the `Lookup` of the current `data` |
| `Settings.ConfigManager.UnsetChannels` | config_manager.py:42-44 | the record of g is gone (reads `{}`); other guilds unchanged |
| `Presence.IsTarget` | main.py:141 | `is_target(ch)`: a channel is given and its category id equals the configured one |
| `Presence.Decide` | main.py:131-153 | the handler's routing to start in a channel, cleanup, or nothing; characterised by `BotsAndUnconfiguredIgnored`, `StartIff` and `CleanupIff` |
| `Presence.NonBots` | main.py:151 | the list comprehension keeps only non-bot members |
| `Presence.NonBotsEmptyIff` | main.py:151 | no non-bot is left in a channel exactly when all its members are bots |
| `Presence.NobodyLeftIff` | main.py:151-152 | the `all(...)` over the category holds exactly when only bots remain in any of its voice channels |
| `Presence.BotsAndUnconfiguredIgnored` | main.py:133-139 | events from bots, and guilds whose `voice_category_id` is missing or 0, never start or stop |
| `Presence.StartIff` | main.py:141-146 | the handler starts in channel ch exactly when a human comes from no channel into ch of the category, and the guild has no entry and no voice client |
| `Presence.CleanupIff` | main.py:149-153 | cleanup runs exactly when the join branch is not taken, the member left a channel of the category, the category resolves and only bots remain |
| `Presence.BlockedJoinIsIgnored` | main.py:144-149 | a join blocked by an entry or a voice client does nothing, even though the stop branch is an `elif` |
| `Presence.HumanPresentBlocksCleanup` | main.py:150-153 | a human in any channel of the category prevents the cleanup |
| `Registry.StartStep` | main.py:158-177 | `start_recording` on the world; characterised by `StartStepEffect`, `StepsTouchOneGuild` and `StepsPreserveInv` |
| `Registry.CleanupStep` | main.py:182-194 | `stop_recording_cleanup` on the world; characterised by `CleanupEffect` and `CleanupStopsThenDisconnects` |
| `Registry.StopCommandStep` | main.py:116-126 | the registry effect of `/stop`; characterised by `StopCommandEffect` and `ManualStopBlocksRestart` |
| `Registry.Apply` | main.py:144-153 | what the handler's routed action does: start, cleanup, or nothing |
| `Registry.StepsTouchOneGuild` | main.py:158-194 | start, cleanup and `/stop` for g leave every other guild's entry and voice client alone and only append calls concerning g |
| `Registry.StepsPreserveInv` | main.py:172-193 | every step keeps each registered guild's voice client connected to the session's channel |
| `Registry.StartStepEffect` | main.py:158-176 | start never replaces an entry; with an entry or voice client nothing changes; a failed connect changes neither map; an unguarded start whose connect succeeds inserts g's session on that channel, leaves g's voice client recording on it, and appends exactly connect, play and start_recording; any insertion of g is such a start |
| `Registry.StartTwiceConnectsOnce` | main.py:159-160 | a second start for a guild just started is a no-op |
| `Registry.CleanupEffect` | main.py:182-185 | cleanup always leaves g absent, is a no-op for an absent guild, is idempotent, and disconnects a present guild |
| `Registry.CleanupStopsThenDisconnects` | main.py:187-193 | cleanup of a live session stops capture if recording, then disconnects |
| `Registry.StopCommandEffect` | main.py:118-125 | `/stop` never removes the entry; without an entry it changes nothing; it changes state exactly when the guild's voice client is recording, and then the client stays connected with `recording` false and the one call made is `stop_recording` |
| `Registry.ManualStopBlocksRestart` | main.py:119-126 | after `/stop` the entry remains, so no join can start a recording |
| `Registry.StopsNeverExceedStarts` | main.py:124-125 | over any sequence of routed events and `/stop` commands, per guild, stop-captures never exceed start-captures plus the capture already running |
| `Registry.FreshBotStopsAtMostStarts` | main.py:170 | from a fresh process each guild's capture is stopped at most once per capture started, so `finished_callback` runs at most once per session |
| `Registry.RunPreservesInv` | main.py:57 | the registry invariant holds after any sequence of events |
| `Registry.Bot.constructor` | main.py:57 | the registry starts empty |
| `Registry.Bot.StartRecording` | main.py:158-177 | the new state is the start step of the old one and keeps the invariant; the outcome says skipped exactly when guarded, and started exactly when g was inserted, which is exactly when the start is unguarded and connect succeeds; a started session is on the given channel |
| `Registry.Bot.StopRecordingCleanup` | main.py:182-194 | the new state is the cleanup step of the old one and keeps the invariant; g is absent afterwards |
| `Registry.Bot.StopCommand` | main.py:116-126 | the new state is the `/stop` step and keeps the invariant; the entry map is unchanged; the reply is "not recording" exactly without an entry, and "stopped" exactly when the entry's voice client was recording, which then is no longer recording |
| `Registry.Bot.OnVoiceStateUpdate` | main.py:131-153 | the new state is what the decision rule's action does to the old state, and the invariant is kept |
| `Transcript.Files` | main.py:208-211 | the blobs are the speakers' files, one per entry, in `audio_data` order |
| `Transcript.Join` | main.py:217 | `b"".join(blobs)`; characterised by `JoinSize` and `JoinPlacesEachBlob` |
| `Transcript.JoinSize` | main.py:217 | the joined buffer is as long as all blobs together |
| `Transcript.JoinPlacesEachBlob` | main.py:217 | each blob appears unchanged in the joined buffer at the sum of the lengths before it |
| `Transcript.MergedRecording` | main.py:208-217 | the merged recording is as long as the speakers' files together, and each speaker's file of `audio_data` sits in it unchanged, after the files of the speakers before it |
| `Transcript.EmptyBuffersJoinEmpty` | main.py:213-217 | buffers that are all empty join to an empty recording |
| `Transcript.ProcessRecording` | main.py:206-236 | an empty `audio_data` makes no call; otherwise the first call transcribes the join of the files; enhance gets the transcript or ""; a send happens exactly when both calls returned and a truthy `text_channel_id` resolves, and it sends the enhanced text to that channel |
| `Transcript.SilenceFrame` | main.py:67-70 | one read is 20 ms of 48 kHz stereo 16-bit audio (3840 bytes), all zero |

## Left out

- gemini_client.py is not part of this model. It wraps the google-genai SDK (upload, polling `get_file`, `generate_content`, `test_connection`). What `transcribe_audio` and `enhance_transcription` return, or that they raise, is a parameter of `Transcript.ProcessRecording`.
- config.py is not part of this model. It only declares environment settings with defaults; its `api_concurrency` is never passed to the client.
- JSON and file I/O (`_cleanup`, `_load_config`, `_save` in config_manager.py) are left out. The constructor takes the loaded table as given, and records hold only integer ids.
- The temporary MP3 file written and unlinked in `process_recording` is file I/O and is left out.
- Slash-command replies and embeds (main.py:89-114), `on_ready`, the error handlers and logging are gateway glue and are left out. Only `/stop`'s reply kind is modelled.
- The MP3 encoding inside pycord's sink and the playing of the silence source are left out. Playing is a recorded call.
- `finished_callback` is left out because it is delivery glue. The platform's later callback is the recorded `StopCapture` call, and `Transcript.ProcessRecording` is the step it leads to.
- Exceptions raised by `vc.play`, `vc.start_recording`, `vc.disconnect` or `ch.send` are left out. Only a failed `channel.connect()` is modelled.
- The platform dropping a voice connection on its own is left out.
- asyncio interleavings are left out: between concurrent voice events, across the `await channel.connect()` gap in the start guard, and between the recording callback and `disconnect`. Every handler is a sequential step.
