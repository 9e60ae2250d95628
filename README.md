# Deafen mover: a Dafny model of the voice-state handler

The bot watches voice-state updates in one Discord guild. When a member
deafens themselves, it remembers the voice channel they were in and moves them
to a fixed "deafened" channel. When they undeafen while still in that
channel, it moves them back to the remembered channel. All of its state is one
dictionary, `previous_channels`, from member id to the channel id the member
was in when they deafened.

The model has three modules, one file each:

- `voice_events.dfy` (`VoiceEvents`) holds the values the handler reads. A
  member is an id, a bot flag and a guild id. A voice state is an optional
  channel id and the member's own deafen flag. A guild is a map from channel
  id to channel kind (voice or other); an id that is not a key does not
  resolve. The module also holds the two transition tests and the "resolves
  to a voice channel" test.
- `deafen_mover.dfy` (`DeafenMover`) holds the handler. `Step` is the
  specification of one update as a function of the records before it: the
  records after it and the move requested, if any. `DeafenStep` and
  `UndeafenStep` are its two branches, reached after `Ignored` (the bot and
  guild guards) has let the update through. The lemmas state the handler's
  promises about it. `Tracker` is the handler as the source has it: a class
  whose `previousChannels` map field is updated in place by `Handle`, with
  the same guard order and early returns. `Handle`'s postcondition ties the
  new map and the returned move request to `Step`. `ParkAndReturn` is a
  client that drives a fresh `Tracker` through a deafen and the matching
  undeafen.
- `event_stream.dfy` (`EventStream`) replays a sequence of updates through
  `Step`, one after the other, as the gateway delivers them. Its lemmas show
  three things. Updates about other members leave a member's record alone.
  Dropping the updates the guards ignore does not change the final records.
  Every new record comes from a deafen by a member who was in voice.

The configuration values `GUILD_ID` and `DEAFENED_CHANNEL_ID` are a `Config`
value in the functions and two constants of `Tracker`. The `Tracker`
constructor requires both to be non-zero, as the startup check demands.

The handler behaves as follows, and the model follows it:

- Only `self_deaf` is looked at.
- The deafened channel is one fixed id.
- The record is written before the deafened channel is validated.
- On undeafen, the record is popped before any location check.

Deafening again while already in the deafened channel therefore overwrites
the record with the deafened channel itself (`RedeafenInDeafenedChannel`).
The record does not keep the earlier channel. The following undeafen then
requests no move, because the recorded channel is the current one.

## Model

| member | source | states |
|---|---|---|
| VoiceEvents.JustDeafened | bot.py:37 | "just deafened" holds exactly when `self_deaf` flipped and is set after the update |
| VoiceEvents.JustUndeafened | bot.py:38 | "just undeafened" holds exactly when `self_deaf` flipped and is clear after the update, and then "just deafened" does not hold |
| VoiceEvents.IsVoiceChannel | bot.py:50-51 | an id that does not resolve in the guild, or resolves to a channel of another kind, is not a voice channel; one that resolves to a voice channel is (the same test guards the move back at bot.py:77-78) |
| VoiceEvents.TransitionCases | bot.py:37-38 | "just deafened" and "just undeafened" never hold together; neither holds while `self_deaf` is unchanged; when it flips, the flag after the update decides which one holds |
| DeafenMover.DeafenStep | bot.py:41-65 | the deafen branch: with no current channel nothing changes; otherwise the member's record becomes the current channel and no other entry changes; a move is requested iff the deafened channel resolves to a voice channel and is not the current one, and then the move is to it |
| DeafenMover.UndeafenStep | bot.py:68-92 | the undeafen branch: the member's record is gone afterwards and no other entry changes; without a record there is no move; a move is requested iff a record existed, the member is in the deafened channel, and the recorded id resolves to a voice channel other than the current one; the move is then to the recorded id |
| DeafenMover.Step | bot.py:28-92 | one update touches only the member's own entry; a move is requested only for a non-bot member of the configured guild, only to a voice channel that resolves and is not the member's current one, and only to the deafened channel or to the member's recorded channel |
| DeafenMover.IgnoredMemberNoOp | bot.py:30-35 | an update about a bot or from another guild leaves the records unchanged and requests no move |
| DeafenMover.UnchangedFlagNoOp | bot.py:37-41 | an update that leaves `self_deaf` as it was leaves the records unchanged and requests no move |
| DeafenMover.DeafenRecordsChannel | bot.py:43-47 | on a deafen with no current channel nothing changes; with one, the record becomes that channel and overwrites any earlier value, even when the deafened channel is invalid or is the current channel |
| DeafenMover.DeafenMoveIff | bot.py:50-60 | on a deafen, a move is requested exactly when the member is in voice, the deafened channel resolves to a voice channel and the member is not in it; the target is the deafened channel |
| DeafenMover.RedeafenInDeafenedChannel | bot.py:47-57 | deafening again inside the deafened channel requests no move, and the record becomes the deafened channel |
| DeafenMover.UndeafenDropsRecord | bot.py:69-71 | on an undeafen, the member's entry is always removed whatever the later checks decide; with no entry, nothing changes and no move is requested |
| DeafenMover.UndeafenMoveIff | bot.py:69-87 | on an undeafen, a move back is requested exactly when a record existed, the member is in the deafened channel, the recorded id resolves to a voice channel and is not the current channel; the target is the recorded id |
| DeafenMover.DeafenUndeafenRoundTrip | bot.py:41-87 | deafening in voice channel C (not the deafened channel D, which is valid) requests a move to D and records C; undeafening in D then requests a move back to C if C still resolves to a voice channel and no move otherwise, and the record is gone either way |
| DeafenMover.Tracker.constructor | bot.py:18 | the handler starts with no records, with the two configured ids, both required non-zero |
| DeafenMover.Tracker.Handle | bot.py:28-92 | the in-place handler: the new `previousChannels` and the returned move request are exactly those of `Step` on the old map |
| DeafenMover.ParkAndReturn | bot.py:41-92 | a fresh handler given a deafen in voice channel C and then an undeafen in the deafened channel requests the move there, then the move back to C, and is left with no records |
| EventStream.Replay | bot.py:28-92 | after any stream of updates, the record of every member the stream does not mention is unchanged |
| EventStream.Relevant | bot.py:30-35 | the updates kept are exactly those of the stream that are neither about a bot nor from another guild |
| EventStream.RelevantAppend | bot.py:30-35 | filtering the guarded updates out of a concatenated stream gives the filtered first part followed by the filtered second part, so the kept updates keep their order and multiplicity |
| EventStream.ReplayIgnoresIgnored | bot.py:30-35 | removing every update about a bot or from another guild, anywhere in a stream, does not change the final records |
| EventStream.ReplayAppend | bot.py:18-28 | how sequential delivery to the handler composes (a law of the fold, not of the handler): handling a stream in two consecutive parts, the second starting from the records the first leaves, gives the same records as handling it whole |
| EventStream.ReplayKeysFromDeafens | bot.py:43-47 | a record that did not exist before a stream was created by an update in it that the guards did not ignore and that deafened a member who was in voice |

## Left out

- The Discord client, intents and event registration (bot.py:11-15, bot.py:21, bot.py:27) and `on_ready` (bot.py:22-24) are library wiring and output.
- The `print` logging inside the handler is output only.
- The `member.move_to` call and its `Forbidden` / `HTTPException` failures (bot.py:59-65, bot.py:86-92) are a network call. They become the returned move request. The records never depend on whether the move succeeds, because a failure is only logged.
- Reading `DISCORD_TOKEN`, `GUILD_ID` and `DEAFENED_CHANNEL_ID` from the environment, and `client.run` (bot.py:6-8, bot.py:95-100), are process I/O. The non-zero check on the two ids is the `Tracker` constructor's precondition. The token check is not modelled.
- Async scheduling: each update is handled as one sequential step up to the move request. Updates that interleave during a pending move are not modelled.
- Channel kinds: `get_channel` can return many channel classes. The model only distinguishes a voice channel from anything else, plus an id that does not resolve.
- The handler has no server-deafen handling, streaming exemption or AFK-channel lookup, so the model has none either.
