/**
  The `DiscordMonitor` client of the plugin, with the plugin's module-level dicts as
  its fields. Each callback changes the fields in place, as the Python code does, and
  is proved to end in the state the transition of the same name in `Presence` gives.
 */
module DiscordSync {
  import opened Wrappers
  import PyDict
  import opened Presence
  import PresenceFacts
  import Status

  class DiscordMonitor {
    /** `DISCORD_GUILD_ID`. */
    const guildId: int

    var voiceCache: PyDict.Dict<UserId, string>
    var userNameCache: map<UserId, string>
    var pendingLeaveTasks: map<UserId, PendingLeave>
    /** The leave tasks created so far; a task's id is its index. */
    var tasks: seq<LeaveTask>
    /** The notifications handed to `try_active_push`, oldest first. */
    var sent: seq<Notice>

    function Model(): (m: State)
      reads this
    {
      State(voiceCache, userNameCache, pendingLeaveTasks, tasks, sent)
    }

    ghost predicate Valid()
      reads this
    {
      Inv(Model())
    }

    constructor (guildId: int)
      ensures Valid() && this.guildId == guildId && Model() == Initial
    {
      this.guildId := guildId;
      voiceCache, userNameCache, pendingLeaveTasks, tasks, sent := [], map[], map[], [], [];
      PresenceFacts.InitialInv();
    }

    /** `on_ready`; `guild` is what `self.get_guild(DISCORD_GUILD_ID)` returned. */
    method OnReady(guild: Option<Guild>) returns (count: nat)
      requires Valid()
      modifies this
      ensures Valid()
      ensures Model() == Resync(old(Model()), guild)
      ensures count == if guild.Some? then |Roster(guild.value.voiceChannels)| else 0
    {
      PresenceFacts.ResyncKeepsInv(Model(), guild);
      count := 0;
      if guild.None? {
        return;
      }
      var chs := guild.value.voiceChannels;
      voiceCache := [];
      userNameCache := map[];
      for i := 0 to |chs|
        invariant voiceCache == LoadVoice(Roster(chs[..i]))
        invariant userNameCache == LoadNames(Roster(chs[..i]))
        invariant count == |Roster(chs[..i])|
        invariant pendingLeaveTasks == old(pendingLeaveTasks) && tasks == old(tasks) && sent == old(sent)
      {
        var added := CacheMembers(chs[i], Roster(chs[..i]));
        count := count + added;
        PresenceFacts.RosterStep(chs, i);
      }
      assert chs[..|chs|] == chs;
    }

    /** The inner loop of `on_ready`: cache every non-bot member of `channel`, given the entries `seen` so far. */
    method CacheMembers(channel: VoiceChannel, ghost seen: seq<RosterEntry>) returns (added: nat)
      requires voiceCache == LoadVoice(seen) && userNameCache == LoadNames(seen)
      modifies this`voiceCache, this`userNameCache
      ensures voiceCache == LoadVoice(seen + ChannelRoster(channel, channel.members))
      ensures userNameCache == LoadNames(seen + ChannelRoster(channel, channel.members))
      ensures added == |ChannelRoster(channel, channel.members)|
    {
      added := 0;
      var members := channel.members;
      assert seen + ChannelRoster(channel, members[..0]) == seen;
      for j := 0 to |members|
        invariant voiceCache == LoadVoice(seen + ChannelRoster(channel, members[..j]))
        invariant userNameCache == LoadNames(seen + ChannelRoster(channel, members[..j]))
        invariant added == |ChannelRoster(channel, members[..j])|
      {
        var member := members[j];
        ghost var done := seen + ChannelRoster(channel, members[..j]);
        PresenceFacts.ExtendRoster(seen, channel, members, j);
        if member.bot {
          continue;
        }
        var entry := RosterEntry(member.id, channel.name, member.displayName);
        PresenceFacts.LoadStep(done, entry);
        voiceCache := PyDict.Put(voiceCache, member.id, channel.name);
        userNameCache := userNameCache[member.id := member.displayName];
        added := added + 1;
      }
      assert members[..|members|] == members;
    }

    /** `on_voice_state_update`. */
    method OnVoiceStateUpdate(e: VoiceEvent)
      requires Valid()
      modifies this
      ensures Valid()
      ensures Model() == Update(guildId, old(Model()), e)
    {
      PresenceFacts.UpdateKeepsInv(guildId, Model(), e);
      if e.member.guildId != guildId {
        return;
      }
      if e.member.bot {
        return;
      }
      if SameChannel(e.before, e.after) {
        return;
      }

      var userId := e.member.id;
      var name := e.member.displayName;
      userNameCache := userNameCache[userId := name];

      if e.after.Some? {
        voiceCache := PyDict.Put(voiceCache, userId, e.after.value.name);
      } else {
        voiceCache := PyDict.Pop(voiceCache, userId);
      }
      ghost var cached := Cache(old(Model()), e.member, e.after);
      assert Model() == cached;
      assert Update(guildId, old(Model()), e) == React(cached, e.member, e.before, e.after);

      if e.before.Some? && e.after.None? {
        // the task is started; nothing is pushed now
        var task := |tasks|;
        tasks := tasks + [LeaveTask(userId, name, e.before.value.name, Sleeping)];
        pendingLeaveTasks := pendingLeaveTasks[userId := PendingLeave(task, e.before.value.name)];
        return;
      } else if e.before.None? && e.after.Some? {
        if userId in pendingLeaveTasks {
          var pendingInfo := pendingLeaveTasks[userId];
          pendingLeaveTasks := pendingLeaveTasks - {userId};
          tasks := CancelTask(tasks, pendingInfo.task);
          if pendingInfo.channel == e.after.value.name {
            // reconnected to the same channel: nothing is pushed
            return;
          } else {
            sent := sent + [Switched(name, pendingInfo.channel, e.after.value.name)];
            return;
          }
        }
        sent := sent + [Joined(name, e.after.value.name)];
        return;
      } else if e.before.Some? && e.after.Some? {
        if userId in pendingLeaveTasks {
          var pendingInfo := pendingLeaveTasks[userId];
          pendingLeaveTasks := pendingLeaveTasks - {userId};
          tasks := CancelTask(tasks, pendingInfo.task);
        }
        sent := sent + [Switched(name, e.before.value.name, e.after.value.name)];
      }
    }

    /** The rest of `wait_and_push_leave` once the sleep of task `id` has ended. */
    method FireLeave(id: nat)
      requires Valid()
      modifies this
      ensures Valid()
      ensures Model() == Fire(old(Model()), id)
    {
      PresenceFacts.FireKeepsInv(Model(), id);
      if id >= |tasks| || tasks[id].status != Sleeping {
        // cancelled or already finished: CancelledError, or no second wake-up
        return;
      }
      var t := tasks[id];
      tasks := tasks[id := t.(status := Fired)];
      sent := sent + [Left(t.name, t.channel)];
      if t.user in pendingLeaveTasks {
        pendingLeaveTasks := pendingLeaveTasks - {t.user};
      }
    }

    /** `handle_status`: the reply it finishes the command with. */
    method HandleStatus() returns (r: Status.Reply)
      ensures r == Status.StatusOf(voiceCache, userNameCache)
      ensures r.NoOneInVoice? <==> voiceCache == []
      ensures voiceCache != [] ==>
        r == Status.Report([Status.Header] + Status.Layout(Status.Dedup(Status.ChannelsOf(voiceCache)), voiceCache, userNameCache))
    {
      Status.StatusReport(voiceCache, userNameCache);
      if voiceCache == [] {
        return Status.NoOneInVoice;
      }
      var channels := GroupByChannel();
      var msgLines := RenderLines(channels);
      r := Status.Report(msgLines);
    }

    /** The second loop of `handle_status`: the title, then each channel's heading and users. */
    static method RenderLines(channels: PyDict.Dict<string, seq<string>>) returns (msgLines: seq<Status.Line>)
      ensures msgLines == [Status.Header] + Status.Lines(channels)
    {
      msgLines := [Status.Header];
      for k := 0 to |channels|
        invariant msgLines == [Status.Header] + Status.Lines(channels[..k])
      {
        var (c, users) := channels[k];
        ghost var done := msgLines;
        msgLines := msgLines + [Status.ChannelHeading(c)];
        for j := 0 to |users|
          invariant msgLines == done + [Status.ChannelHeading(c)] + Status.UserLines(users[..j])
        {
          Status.UserLinesStep(users, j);
          msgLines := msgLines + [Status.UserLine(users[j])];
        }
        assert users[..|users|] == users;
        Status.LinesStep(channels, k);
      }
      assert channels[..|channels|] == channels;
    }

    /** The first loop of `handle_status`: the `channels` dict, channel -> display names. */
    method GroupByChannel() returns (channels: PyDict.Dict<string, seq<string>>)
      ensures channels == Status.Grouped(voiceCache, userNameCache)
    {
      channels := [];
      for i := 0 to |voiceCache|
        invariant channels == Status.Grouped(voiceCache[..i], userNameCache)
      {
        var (uid, c) := voiceCache[i];
        Status.GroupedStep(voiceCache, userNameCache, i);
        ghost var g := channels;
        if PyDict.Get(channels, c).None? {
          channels := PyDict.Put(channels, c, []);
        }
        var users := PyDict.Get(channels, c).value;
        PyDict.PutTwice(g, c, [], users + [Status.DisplayName(userNameCache, uid)]);
        channels := PyDict.Put(channels, c, users + [Status.DisplayName(userNameCache, uid)]);
      }
      assert voiceCache[..|voiceCache|] == voiceCache;
    }
  }
}
