# Discord voice presence, with a debounced leave

This project models the part of the `discord_sync` plugin that tracks who is in the Discord guild's voice
channels and reports it to a QQ group. The plugin keeps three module-level dicts:

- `voice_cache`: user id to channel name, in insertion order;
- `user_name_cache`: user id to display name;
- `pending_leave_tasks`: user id to the delayed leave task and the channel it was started for.

The `DiscordMonitor` client updates these dicts in three places:

- `on_ready` rebuilds the two caches from the guild's voice channels;
- `on_voice_state_update` handles one join, leave or switch;
- `wait_and_push_leave` sleeps 60 seconds before it announces a leave, so that a quick reconnect can cancel it.

The `/status` command groups the cached users by channel.

The model has these modules:

- `PyDict` is an insertion-ordered Python dict, as a sequence of pairs. Assigning an existing key keeps its
  position, assigning a new key appends it, and `pop` removes the key.
- `Presence` is the state as a value, and each callback as a pure transition: `Update`, `Fire` and `Resync`.
  A leave task is an entry of `State.tasks`. Its index is its identity, and its status is sleeping,
  cancelled or fired. Each call to `try_active_push` is a notification appended to `State.sent`.
  `CancelTask` is `task.cancel()`: a sleeping task becomes cancelled, and a finished one stays as it is.
- `PresenceFacts` holds the properties of those transitions. These cover each branch, the invariant that
  reachable states keep, the debounce scenarios and what a resync leaves in the caches. A run of callbacks
  is a sequence of `Step`s: a voice-state event, the end of one task's sleep, or `on_ready`. `Steps`
  applies them in order. The scenarios let any steps about other users come in between: their events,
  their timers ending, and a resync. A task once cancelled or finished stays so through any run.
- `Status` describes the `/status` reply. Its grouping is tied to an independent layout: each channel once,
  in the order of its first cached user, and under it that channel's users in cache order.
- `DiscordSync.DiscordMonitor` is the client as a class with the dicts as fields. Its methods change the
  fields in place, with the loops of the source. `OnReady`, `OnVoiceStateUpdate` and `FireLeave` are each
  proved to end in the state that `Resync`, `Update` or `Fire` gives, and to keep the invariant.
  `CacheMembers`, the inner loop of `on_ready`, is proved to end in the caches that `LoadVoice` and
  `LoadNames` give. `HandleStatus`, `GroupByChannel` and `RenderLines` change nothing. They are proved to
  return what `StatusOf` gives, what `Grouped` gives, and the title followed by `Lines`.

The model follows the code where the code and its own description differ:

- A second leave within the delay overwrites the pending entry and does not cancel the first task.
- A task that finishes its sleep deletes whatever pending entry its user has, even one that belongs to a
  later task. `OverwrittenLeaveStillFires` shows the consequence: the user is announced as having left
  while they are in a channel.
- `on_ready` clears only the two caches and keeps the pending leaves.
- A finished task does not touch `voice_cache`.
- A reconnect is recognised by comparing channel names, not channel ids. The early return compares
  channels by id, as discord.py's channel equality does.

## Model

| member | source | states |
|---|---|---|
| PyDict.Put | src/plugins/discord_sync/__init__.py:79 | the key then maps to the new value and every other key keeps its value; an existing key keeps its position, a new key goes last; keys stay distinct |
| PyDict.Pop | src/plugins/discord_sync/__init__.py:81 | `pop(key, None)`: the key is absent afterwards, whether or not it was present; the other keys keep their values and their order; keys stay distinct |
| PyDict.Get | src/plugins/discord_sync/__init__.py:186 | a value is found exactly when the key is among the dict's keys, and it is the value stored under that key |
| PyDict.PutTwice | src/plugins/discord_sync/__init__.py:186-188 | assigning a key twice is the same as assigning it the second value once |
| Presence.Update | src/plugins/discord_sync/__init__.py:64-126 | an event of another guild, of a bot, or with the same channel before and after changes nothing; otherwise the display name is recorded, the user's cached channel is the one after the event or absent, no other user's cache, pending entry or task changes, and at most one notification is pushed |
| Presence.CancelTask | src/plugins/discord_sync/__init__.py:97-100 | `task.cancel()` on a leave task: a sleeping task becomes cancelled and keeps its user, name and channel; a cancelled or finished task is unchanged; no other task changes |
| Presence.Cache | src/plugins/discord_sync/__init__.py:73-81 | the display name is recorded and the user's channel follows `after` (assigned, or popped when there is none); other users and the pending state are untouched |
| Presence.React | src/plugins/discord_sync/__init__.py:83-126 | the three branches leave the caches alone, touch only the user's own pending entry and task, never drop a task, and push at most one notification |
| Presence.StartLeave | src/plugins/discord_sync/__init__.py:83-91 | the leave branch appends one task, changes only the user's pending entry, and pushes nothing |
| Presence.DropPending | src/plugins/discord_sync/__init__.py:95-100 | the user's pending entry is removed and no task other than the one it named changes |
| Presence.Rejoin | src/plugins/discord_sync/__init__.py:93-116 | the join branch removes the user's pending entry, changes no other task, and pushes at most one notification |
| Presence.Switch | src/plugins/discord_sync/__init__.py:119-126 | the switch branch removes the user's pending entry, changes no other task, and pushes at most one notification |
| PresenceFacts.IgnoredEventChangesNothing | src/plugins/discord_sync/__init__.py:66-71 | each of the three early returns leaves the whole state unchanged |
| PresenceFacts.LeaveStartsOneTask | src/plugins/discord_sync/__init__.py:83-91 | a leave pushes nothing, starts exactly one sleeping task with the user, name and left channel, points the user's entry at it, and removes the user from `voice_cache` |
| PresenceFacts.JoinResolvesPendingLeave | src/plugins/discord_sync/__init__.py:95-111 | a join with a pending entry removes it and cancels its task; it pushes nothing when the entry's channel has the joined channel's name, and otherwise one switch from that channel |
| PresenceFacts.JoinWithoutPendingLeave | src/plugins/discord_sync/__init__.py:113-116 | a join without a pending entry pushes one join notice and caches the joined channel |
| PresenceFacts.SwitchIsImmediate | src/plugins/discord_sync/__init__.py:119-126 | a switch pushes exactly one switch notice at once, removes any pending entry and cancels its task |
| PresenceFacts.UpdateKeepsOthersTasks | src/plugins/discord_sync/__init__.py:83-126 | in a state satisfying the invariant, no event of one user changes a task of another user |
| PresenceFacts.FireOutcome | src/plugins/discord_sync/__init__.py:128-144 | a sleeping task pushes one leave notice with its own name and channel, becomes finished, and leaves its user without a pending entry, whichever task that entry named; nothing else changes; a cancelled or finished task changes nothing |
| PresenceFacts.UpdateKeepsSettled | src/plugins/discord_sync/__init__.py:95-126 | no voice-state event changes a task that is already cancelled or finished |
| PresenceFacts.StepKeepsSettled | src/plugins/discord_sync/__init__.py:39-144 | no callback changes a task that is already cancelled or finished |
| PresenceFacts.StepsKeepSettled | src/plugins/discord_sync/__init__.py:39-144 | through any run of callbacks a cancelled or finished task stays as it is, so its wake-up at the end changes nothing |
| PresenceFacts.FireAtMostOnce | src/plugins/discord_sync/__init__.py:128-144 | once a task's sleep has ended, whatever callbacks follow, its sleep ending again changes nothing |
| PresenceFacts.InitialInv | src/plugins/discord_sync/__init__.py:32-35 | the empty dicts satisfy the invariant: distinct cache keys, a name for every cached user, every pending entry naming a sleeping task of that user for that channel |
| PresenceFacts.UpdateKeepsInv | src/plugins/discord_sync/__init__.py:64-126 | every voice-state event keeps the invariant |
| PresenceFacts.FireKeepsInv | src/plugins/discord_sync/__init__.py:128-144 | the end of every task's sleep keeps the invariant |
| PresenceFacts.StepByOther | src/plugins/discord_sync/__init__.py:39-144 | a callback not about a user (another user's event or timer, or a resync) keeps the invariant, that user's pending entry and task, and every earlier notification |
| PresenceFacts.StepsByOthers | src/plugins/discord_sync/__init__.py:39-144 | a run of callbacks not about a user keeps the invariant, that user's pending entry and task, and every earlier notification |
| PresenceFacts.LeaveThenOthers | src/plugins/discord_sync/__init__.py:83-91 | after a leave and any callbacks about other users, the user's entry still names the leave's sleeping task for the left channel, and the leave pushed nothing |
| PresenceFacts.ReconnectSameChannelIsSilent | src/plugins/discord_sync/__init__.py:83-105 | leaving a channel, any callbacks about other users, then rejoining a channel of the same name: the leave and the rejoin push nothing, the entry is removed, the task is cancelled, the user is cached in the joined channel, and the end of the task's sleep after any later callbacks changes nothing |
| PresenceFacts.ReconnectOtherChannelIsSwitch | src/plugins/discord_sync/__init__.py:83-111 | leaving, any callbacks about other users, then rejoining a channel with another name: the rejoin pushes exactly one switch notice from the left channel, the task is cancelled, and after any later callbacks its wake-up never pushes a leave |
| PresenceFacts.DelayedLeaveFires | src/plugins/discord_sync/__init__.py:128-140 | after a leave and any callbacks about other users (their events, their timers ending, a resync), the end of the task's sleep pushes exactly the leave notice of that user and channel and removes the entry; earlier notifications are kept |
| PresenceFacts.OverwrittenLeaveFiresFirst | src/plugins/discord_sync/__init__.py:87-90 | after two leaves in a row, the first task still fires and removes the entry that the second leave wrote, while the second task stays asleep |
| PresenceFacts.StaleTaskFiresAfterJoin | src/plugins/discord_sync/__init__.py:113-136 | a sleeping task whose user has no pending entry is not cancelled by a join, so it pushes a leave after the join notice |
| PresenceFacts.OverwrittenLeaveStillFires | src/plugins/discord_sync/__init__.py:83-140 | two leaves, the first sleep ending, a join, then the second sleep ending push leave, join and leave, while the user is cached in the joined channel |
| PresenceFacts.LoadedUsers | src/plugins/discord_sync/__init__.py:51-60 | loading the roster leaves each roster user in `voice_cache` exactly once and gives `user_name_cache` exactly the roster's users |
| PresenceFacts.LoadVoiceGet | src/plugins/discord_sync/__init__.py:51-58 | a user's cached channel is the channel of that user's last roster entry, and there is none for a user not in the roster |
| PresenceFacts.LastChannelOf | src/plugins/discord_sync/__init__.py:51-58 | the last entry of a user in the roster determines that user's channel |
| PresenceFacts.LoadedName | src/plugins/discord_sync/__init__.py:51-59 | a user's cached display name is the name of the user's last roster entry |
| PresenceFacts.ChannelRosterSound | src/plugins/discord_sync/__init__.py:52-55 | every entry taken from a channel is a non-bot member of that channel |
| PresenceFacts.ChannelRosterComplete | src/plugins/discord_sync/__init__.py:52-55 | every non-bot member of a channel is taken from it |
| PresenceFacts.RosterSound | src/plugins/discord_sync/__init__.py:51-55 | every roster entry is a non-bot member of one of the voice channels |
| PresenceFacts.RosterComplete | src/plugins/discord_sync/__init__.py:51-55 | every non-bot member of every voice channel is in the roster |
| PresenceFacts.RosterEntries | src/plugins/discord_sync/__init__.py:51-55 | the roster lists exactly the non-bot members of the voice channels |
| PresenceFacts.RosterUsers | src/plugins/discord_sync/__init__.py:51-57 | the roster's users are exactly the ids of non-bot members in voice channels |
| PresenceFacts.ResyncRebuildsCaches | src/plugins/discord_sync/__init__.py:42-60 | once the guild is found, both caches hold exactly the non-bot members in voice, each once; the pending entries, tasks and notifications are kept |
| PresenceFacts.ResyncCachesMember | src/plugins/discord_sync/__init__.py:51-59 | when no user is listed twice, each non-bot member is cached with its own channel and display name |
| PresenceFacts.ResyncKeepsInv | src/plugins/discord_sync/__init__.py:39-62 | `on_ready` keeps the invariant, whether or not the guild is found |
| Status.Dedup | src/plugins/discord_sync/__init__.py:186-187 | the channels taken once each, with exactly the channels of the input |
| Status.GroupedChannels | src/plugins/discord_sync/__init__.py:184-188 | the grouping's keys are the cached channels, each once, in the order of their first cached user |
| Status.GroupedMembers | src/plugins/discord_sync/__init__.py:184-188 | a cached channel's group holds the display names of the users cached in it, in cache order; there is no group for any other channel |
| Status.GroupedValid | src/plugins/discord_sync/__init__.py:184-188 | the grouping has each channel once |
| Status.DedupFirstSeen | src/plugins/discord_sync/__init__.py:185-187 | of two channels in the grouping, the one listed first has the earlier first cached user |
| Status.LinesAreLayout | src/plugins/discord_sync/__init__.py:190-194 | rendering a grouping of the cached members gives, for each key in order, the channel heading followed by one line per user |
| Status.StatusReport | src/plugins/discord_sync/__init__.py:179-196 | the reply is the fixed empty message exactly when `voice_cache` is empty; otherwise it is the title, then each channel once in first-seen order with its heading, then its users in cache order |
| Status.CachedUsersHaveNames | src/plugins/discord_sync/__init__.py:188 | in a state satisfying the invariant, every cached user has a cached name, so the reply never falls back to the raw id |
| DiscordSync.DiscordMonitor.constructor | src/plugins/discord_sync/__init__.py:32-35 | the client starts with empty dicts and no tasks, in a state satisfying the invariant |
| DiscordSync.DiscordMonitor.OnReady | src/plugins/discord_sync/__init__.py:39-62 | the fields end as `Resync` gives: unchanged without the guild, otherwise both caches rebuilt from the roster; the count is the number of non-bot members visited; the invariant is kept |
| DiscordSync.DiscordMonitor.CacheMembers | src/plugins/discord_sync/__init__.py:52-60 | the inner loop assigns each non-bot member of the channel to both caches, in order, and counts them |
| DiscordSync.DiscordMonitor.OnVoiceStateUpdate | src/plugins/discord_sync/__init__.py:64-126 | the fields end as `Update` gives for the event, and the invariant is kept |
| DiscordSync.DiscordMonitor.FireLeave | src/plugins/discord_sync/__init__.py:128-144 | the fields end as `Fire` gives for the task, and the invariant is kept |
| DiscordSync.DiscordMonitor.HandleStatus | src/plugins/discord_sync/__init__.py:179-196 | the reply is the empty message exactly when `voice_cache` is empty; otherwise it is the title and each channel once in first-seen order, with its users in cache order |
| DiscordSync.DiscordMonitor.GroupByChannel | src/plugins/discord_sync/__init__.py:184-188 | the loop builds the grouping `Grouped` describes, from the current caches |
| DiscordSync.DiscordMonitor.RenderLines | src/plugins/discord_sync/__init__.py:190-194 | the title, then each group's heading followed by its users' lines |

## Left out

- All I/O is left out: the Discord gateway connection, `get_guild`, and the QQ side behind `try_active_push`
  (`get_bots`, the group id conversion, `send_group_msg`). The model records each push as a notification
  value and commits to no delivery.
- Reading the configuration is left out, including the fallback token from `discord_bots`. The guild id is
  a constructor parameter. The 60-second delay is not a number in the model: the end of a task's sleep is
  an explicit `FireLeave` call.
- Asyncio scheduling is left out. Each callback runs to completion before the next event. The model does
  not cover a task being cancelled while it awaits `try_active_push`, before it deletes the pending entry.
  It also does not cover events that interleave with that await.
- Logging is left out, along with the emoji and Chinese texts of the notifications and of the reply. A
  notice is a `Joined`, `Left` or `Switched` value. The reply is a list of lines, not the newline-joined
  string.
- The startup hook that runs the client, the command registration and its aliases are not part of this
  model. Neither are the bot's other plugins or its configuration module.
- Members and channels are reduced to the fields the code reads. A member is its id string, guild id, bot
  flag and display name. A channel is its id and name.
