/**
  The voice-presence debounce of the Discord-to-QQ bridge, as pure transitions over
  a `State` value. `State` holds the three module-level dicts of the plugin
  (`voice_cache`, `user_name_cache`, `pending_leave_tasks`), the delayed leave tasks
  that have been started, and the notifications pushed so far.
 */
module Presence {
  import opened Wrappers
  import PyDict

  /** `str(member.id)`. */
  type UserId = string

  /** A Discord voice channel; discord.py compares channels by id. */
  datatype Channel = Channel(id: int, name: string)

  datatype Member = Member(id: UserId, guildId: int, bot: bool, displayName: string)

  /** One `on_voice_state_update` callback: the member and the channel before and after. */
  datatype VoiceEvent = VoiceEvent(member: Member, before: Option<Channel>, after: Option<Channel>)

  /** What `try_active_push` is asked to send. */
  datatype Notice =
    | Joined(name: string, channel: string)
    | Left(name: string, channel: string)
    | Switched(name: string, fromChannel: string, toChannel: string)

  /** An asyncio task running `wait_and_push_leave`: asleep, cancelled, or finished after its sleep. */
  datatype TaskStatus = Sleeping | Cancelled | Fired

  /** The arguments a leave task was started with, and where it is in its life. */
  datatype LeaveTask = LeaveTask(user: UserId, name: string, channel: string, status: TaskStatus)

  /** A `pending_leave_tasks` entry: `{"task": ..., "channel": ...}`; `task` indexes `State.tasks`. */
  datatype PendingLeave = PendingLeave(task: nat, channel: string)

  datatype State = State(
    voice: PyDict.Dict<UserId, string>,     // voice_cache: user -> channel name
    names: map<UserId, string>,             // user_name_cache: user -> display name
    pending: map<UserId, PendingLeave>,     // pending_leave_tasks
    tasks: seq<LeaveTask>,                  // every task created so far, by id
    sent: seq<Notice>)                      // every notification pushed so far

  const Initial := State([], map[], map[], [], [])

  /** `before.channel == after.channel` on two optional discord.py channels. */
  predicate SameChannel(a: Option<Channel>, b: Option<Channel>) {
    match (a, b)
    case (None, None) => true
    case (Some(x), Some(y)) => x.id == y.id
    case _ => false
  }

  /** The three early returns of `on_voice_state_update`. */
  predicate Ignored(guild: int, e: VoiceEvent) {
    e.member.guildId != guild || e.member.bot || SameChannel(e.before, e.after)
  }

  function ChannelName(c: Option<Channel>): (name: Option<string>) {
    match c
    case Some(ch) => Some(ch.name)
    case None => None
  }

  /** `task.cancel()`: a task still asleep becomes cancelled; a finished one is left alone. */
  function CancelTask(tasks: seq<LeaveTask>, id: nat): (r: seq<LeaveTask>)
    ensures |r| == |tasks|
    ensures forall j :: 0 <= j < |tasks| && j != id ==> r[j] == tasks[j]
    ensures id < |tasks| ==> r[id].status != Sleeping && r[id].(status := tasks[id].status) == tasks[id]
    ensures id < |tasks| && tasks[id].status != Sleeping ==> r[id] == tasks[id]
    ensures id < |tasks| && tasks[id].status == Sleeping ==> r[id].status == Cancelled
  {
    if id < |tasks| && tasks[id].status == Sleeping then tasks[id := tasks[id].(status := Cancelled)]
    else tasks
  }

  /** `log'` is `log` with at most one notification appended. */
  predicate AppendsAtMostOne(log: seq<Notice>, log': seq<Notice>) {
    log' == log || (|log'| == |log| + 1 && log'[..|log|] == log)
  }

  /**
    `on_voice_state_update` for the configured guild `guild`. A leave starts a new
    sleeping task (without cancelling one that may already sit under the user) and
    sends nothing; a join cancels a pending leave and reports a switch unless the
    user came back to the channel of that name, or reports a join; a switch cancels
    a pending leave and reports the switch.
   */
  function Update(guild: int, s: State, e: VoiceEvent): (r: State)
    ensures Ignored(guild, e) ==> r == s
    ensures !Ignored(guild, e) ==> r.names == s.names[e.member.id := e.member.displayName]
    ensures !Ignored(guild, e) ==> PyDict.Get(r.voice, e.member.id) == ChannelName(e.after)
    ensures forall u :: u != e.member.id ==> PyDict.Get(r.voice, u) == PyDict.Get(s.voice, u)
    ensures r.pending - {e.member.id} == s.pending - {e.member.id}
    ensures |s.tasks| <= |r.tasks|
    ensures forall j :: 0 <= j < |s.tasks| && (e.member.id in s.pending ==> j != s.pending[e.member.id].task) ==>
      r.tasks[j] == s.tasks[j]
    ensures AppendsAtMostOne(s.sent, r.sent)
    ensures PyDict.Valid(s.voice) ==> PyDict.Valid(r.voice)
  {
    if Ignored(guild, e) then s
    else React(Cache(s, e.member, e.after), e.member, e.before, e.after)
  }

  /** Lines 83-126: the leave, join or switch branch, after the caches are updated. */
  function React(s: State, m: Member, before: Option<Channel>, after: Option<Channel>): (r: State)
    requires !SameChannel(before, after)
    ensures r.voice == s.voice && r.names == s.names
    ensures r.pending - {m.id} == s.pending - {m.id}
    ensures |s.tasks| <= |r.tasks|
    ensures forall j :: 0 <= j < |s.tasks| && (m.id in s.pending ==> j != s.pending[m.id].task) ==> r.tasks[j] == s.tasks[j]
    ensures AppendsAtMostOne(s.sent, r.sent)
  {
    match (before, after)
    case (Some(c), None) => StartLeave(s, m, c)
    case (None, Some(d)) => Rejoin(s, m, d)
    case (Some(c), Some(d)) => Switch(s, m, c, d)
  }

  /** Lines 75-81: the display name is recorded and the channel follows `after`. */
  function Cache(s: State, m: Member, after: Option<Channel>): (r: State)
    ensures r.names == s.names[m.id := m.displayName]
    ensures PyDict.Get(r.voice, m.id) == ChannelName(after)
    ensures forall u :: u != m.id ==> PyDict.Get(r.voice, u) == PyDict.Get(s.voice, u)
    ensures PyDict.Valid(s.voice) ==> PyDict.Valid(r.voice)
    ensures r.pending == s.pending && r.tasks == s.tasks && r.sent == s.sent
  {
    s.(names := s.names[m.id := m.displayName],
       voice := match after
                case Some(d) => PyDict.Put(s.voice, m.id, d.name)
                case None => PyDict.Pop(s.voice, m.id))
  }

  /** The leave branch: a new task and a new entry for the user, nothing sent. */
  function StartLeave(s: State, m: Member, c: Channel): (r: State)
    ensures r.voice == s.voice && r.names == s.names && r.sent == s.sent
    ensures r.pending - {m.id} == s.pending - {m.id}
    ensures |r.tasks| == |s.tasks| + 1 && r.tasks[..|s.tasks|] == s.tasks
  {
    s.(tasks := s.tasks + [LeaveTask(m.id, m.displayName, c.name, Sleeping)],
       pending := s.pending[m.id := PendingLeave(|s.tasks|, c.name)])
  }

  /** `pending_leave_tasks.pop(user_id)` and `cancel()` of its task, when there is an entry. */
  function DropPending(s: State, u: UserId): (r: State)
    ensures r.voice == s.voice && r.names == s.names && r.sent == s.sent
    ensures r.pending == s.pending - {u}
    ensures |r.tasks| == |s.tasks|
    ensures forall j :: 0 <= j < |s.tasks| && (u in s.pending ==> j != s.pending[u].task) ==> r.tasks[j] == s.tasks[j]
  {
    if u in s.pending then s.(pending := s.pending - {u}, tasks := CancelTask(s.tasks, s.pending[u].task))
    else s
  }

  /** The join branch. */
  function Rejoin(s: State, m: Member, d: Channel): (r: State)
    ensures r.voice == s.voice && r.names == s.names
    ensures r.pending == s.pending - {m.id}
    ensures |r.tasks| == |s.tasks|
    ensures forall j :: 0 <= j < |s.tasks| && (m.id in s.pending ==> j != s.pending[m.id].task) ==> r.tasks[j] == s.tasks[j]
    ensures AppendsAtMostOne(s.sent, r.sent)
  {
    if m.id in s.pending then
      var p := s.pending[m.id];
      var resumed := DropPending(s, m.id);
      if p.channel == d.name then resumed
      else resumed.(sent := s.sent + [Switched(m.displayName, p.channel, d.name)])
    else
      s.(sent := s.sent + [Joined(m.displayName, d.name)])
  }

  /** The switch branch. */
  function Switch(s: State, m: Member, c: Channel, d: Channel): (r: State)
    ensures r.voice == s.voice && r.names == s.names
    ensures r.pending == s.pending - {m.id}
    ensures |r.tasks| == |s.tasks|
    ensures forall j :: 0 <= j < |s.tasks| && (m.id in s.pending ==> j != s.pending[m.id].task) ==> r.tasks[j] == s.tasks[j]
    ensures AppendsAtMostOne(s.sent, r.sent)
  {
    var cleared := DropPending(s, m.id);
    cleared.(sent := s.sent + [Switched(m.displayName, c.name, d.name)])
  }

  /**
    The 60-second sleep of leave task `id` ending. A task still asleep pushes one
    `Left` with the name and channel it was started with, then deletes whatever
    `pending_leave_tasks` entry its user has; any other task does nothing.
   */
  function Fire(s: State, id: nat): (r: State) {
    if id < |s.tasks| && s.tasks[id].status == Sleeping then
      var t := s.tasks[id];
      s.(sent := s.sent + [Left(t.name, t.channel)],
         tasks := s.tasks[id := t.(status := Fired)],
         pending := s.pending - {t.user})
    else s
  }

  // ----- on_ready -----

  datatype VoiceChannel = VoiceChannel(name: string, members: seq<Member>)

  datatype Guild = Guild(voiceChannels: seq<VoiceChannel>)

  /** One non-bot member found in a voice channel during the resync. */
  datatype RosterEntry = RosterEntry(user: UserId, channel: string, name: string)

  /** The non-bot members among `ms`, in order, as found in channel `c`. */
  function ChannelRoster(c: VoiceChannel, ms: seq<Member>): (es: seq<RosterEntry>) {
    if ms == [] then []
    else
      var m := ms[|ms| - 1];
      ChannelRoster(c, ms[..|ms| - 1]) + if m.bot then [] else [RosterEntry(m.id, c.name, m.displayName)]
  }

  /** What the nested loops of `on_ready` visit, in visiting order. */
  function Roster(chs: seq<VoiceChannel>): (es: seq<RosterEntry>) {
    if chs == [] then []
    else
      var c := chs[|chs| - 1];
      Roster(chs[..|chs| - 1]) + ChannelRoster(c, c.members)
  }

  /** The users named by the entries `es`. */
  function UserSet(es: seq<RosterEntry>): (users: set<UserId>) {
    if es == [] then {} else UserSet(es[..|es| - 1]) + {es[|es| - 1].user}
  }

  /** `voice_cache` after assigning the roster's entries, in order, to an empty dict. */
  function LoadVoice(es: seq<RosterEntry>): (d: PyDict.Dict<UserId, string>) {
    if es == [] then []
    else
      var e := es[|es| - 1];
      PyDict.Put(LoadVoice(es[..|es| - 1]), e.user, e.channel)
  }

  /** `user_name_cache` after the same assignments. */
  function LoadNames(es: seq<RosterEntry>): (names: map<UserId, string>) {
    if es == [] then map[]
    else
      var e := es[|es| - 1];
      LoadNames(es[..|es| - 1])[e.user := e.name]
  }

  /**
    `on_ready`: without the guild nothing happens; otherwise `voice_cache` and
    `user_name_cache` are cleared and refilled from the roster. Pending leaves and
    their tasks are kept.
   */
  function Resync(s: State, guild: Option<Guild>): (r: State) {
    match guild
    case None => s
    case Some(g) =>
      var es := Roster(g.voiceChannels);
      s.(voice := LoadVoice(es), names := LoadNames(es))
  }

  // ----- invariant -----

  /** The entry `pending[u]` points at a task of `u`, still asleep, started for the same channel. */
  predicate PendingMatchesTask(s: State, u: UserId)
    requires u in s.pending
  {
    var p := s.pending[u];
    p.task < |s.tasks| && s.tasks[p.task].user == u && s.tasks[p.task].channel == p.channel
    && s.tasks[p.task].status == Sleeping
  }

  /**
    What every reachable state satisfies: `voice_cache` has each user once, every
    user in it has a cached display name, and every pending entry points at a task
    of that user that is still asleep.
   */
  ghost predicate Inv(s: State) {
    && PyDict.Valid(s.voice)
    && (forall u :: u in PyDict.Keys(s.voice) ==> u in s.names)
    && (forall u :: u in s.pending ==> PendingMatchesTask(s, u))
  }
}
