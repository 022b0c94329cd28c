/**
  Properties of the debounce transitions in `Presence`: what each branch of
  `on_voice_state_update` does, what a firing leave task does, that the invariant
  is kept, the debounce scenarios, and what `on_ready` rebuilds.
 */
module PresenceFacts {
  import opened Wrappers
  import PyDict
  import opened Presence

  /** A member whose events are not dropped by the first two early returns. */
  predicate Tracked(guild: int, m: Member) {
    m.guildId == guild && !m.bot
  }

  // ----- one event -----

  /** Another guild, a bot, or an unchanged channel: nothing at all changes. */
  lemma IgnoredEventChangesNothing(guild: int, s: State, e: VoiceEvent)
    requires e.member.guildId != guild || e.member.bot || SameChannel(e.before, e.after)
    ensures Update(guild, s, e) == s
  {
  }

  /** Leaving C: nothing is sent now, one new sleeping task carries the name and C, and the user's entry points at it. */
  lemma LeaveStartsOneTask(guild: int, s: State, m: Member, c: Channel)
    requires Tracked(guild, m)
    ensures var r := Update(guild, s, VoiceEvent(m, Some(c), None));
      && r.sent == s.sent
      && r.tasks == s.tasks + [LeaveTask(m.id, m.displayName, c.name, Sleeping)]
      && r.pending == s.pending[m.id := PendingLeave(|s.tasks|, c.name)]
      && PyDict.Get(r.voice, m.id) == None
      && r.names == s.names[m.id := m.displayName]
  {
  }

  /**
    Joining D with a pending leave: the entry is removed and its task cancelled; nothing
    is sent when the entry's channel is named D, otherwise one `Switched` from it to D.
   */
  lemma JoinResolvesPendingLeave(guild: int, s: State, m: Member, d: Channel)
    requires Tracked(guild, m) && Inv(s) && m.id in s.pending
    ensures var p := s.pending[m.id];
      var r := Update(guild, s, VoiceEvent(m, None, Some(d)));
      && m.id !in r.pending
      && |r.tasks| == |s.tasks| && r.tasks[p.task].status == Cancelled
      && (forall j :: 0 <= j < |s.tasks| && j != p.task ==> r.tasks[j] == s.tasks[j])
      && r.sent == (if p.channel == d.name then s.sent else s.sent + [Switched(m.displayName, p.channel, d.name)])
      && PyDict.Get(r.voice, m.id) == Some(d.name)
  {
    assert PendingMatchesTask(s, m.id);
  }

  /** Joining D with nothing pending: exactly one `Joined(D)`, and no task is touched. */
  lemma JoinWithoutPendingLeave(guild: int, s: State, m: Member, d: Channel)
    requires Tracked(guild, m) && m.id !in s.pending
    ensures var r := Update(guild, s, VoiceEvent(m, None, Some(d)));
      && r.sent == s.sent + [Joined(m.displayName, d.name)]
      && r.pending == s.pending && r.tasks == s.tasks
      && PyDict.Get(r.voice, m.id) == Some(d.name)
  {
  }

  /**
    Moving from C to a different channel D: exactly one `Switched(C, D)` at once, and no
    pending entry is left for the user; a task the entry pointed at is cancelled.
   */
  lemma SwitchIsImmediate(guild: int, s: State, m: Member, c: Channel, d: Channel)
    requires Tracked(guild, m) && Inv(s) && c.id != d.id
    ensures var r := Update(guild, s, VoiceEvent(m, Some(c), Some(d)));
      && r.sent == s.sent + [Switched(m.displayName, c.name, d.name)]
      && m.id !in r.pending
      && |r.tasks| == |s.tasks|
      && (m.id in s.pending ==> r.tasks[s.pending[m.id].task].status == Cancelled)
      && PyDict.Get(r.voice, m.id) == Some(d.name)
  {
    if m.id in s.pending {
      assert PendingMatchesTask(s, m.id);
    }
  }

  /** An event of one user never touches a task of another user (given the invariant). */
  lemma UpdateKeepsOthersTasks(guild: int, s: State, e: VoiceEvent, id: nat)
    requires Inv(s) && id < |s.tasks| && s.tasks[id].user != e.member.id
    ensures var r := Update(guild, s, e);
      id < |r.tasks| && r.tasks[id] == s.tasks[id]
  {
    if e.member.id in s.pending {
      assert PendingMatchesTask(s, e.member.id);
    }
    assert id < |Update(guild, s, e).tasks|;
  }

  // ----- the leave timer -----

  /**
    The end of a task's sleep: a task still asleep pushes one `Left` with the name and
    channel it was started with, becomes finished, and its user is left without a
    pending entry (whichever task that entry pointed at); the other entries, the caches
    and the other tasks stay. A cancelled or finished task changes nothing.
   */
  lemma FireOutcome(s: State, id: nat)
    ensures var r := Fire(s, id);
      if id < |s.tasks| && s.tasks[id].status == Sleeping then
        var t := s.tasks[id];
        && r.sent == s.sent + [Left(t.name, t.channel)]
        && t.user !in r.pending
        && (forall v :: v != t.user ==> (v in r.pending <==> v in s.pending))
        && (forall v :: v != t.user && v in s.pending ==> r.pending[v] == s.pending[v])
        && |r.tasks| == |s.tasks| && r.tasks[id].status == Fired
        && (forall j :: 0 <= j < |s.tasks| && j != id ==> r.tasks[j] == s.tasks[j])
        && r.voice == s.voice && r.names == s.names
      else r == s
  {
  }

  // ----- the invariant -----

  lemma InitialInv()
    ensures Inv(Initial)
  {
  }

  lemma {:induction false} UpdateKeepsInv(guild: int, s: State, e: VoiceEvent)
    requires Inv(s)
    ensures Inv(Update(guild, s, e))
  {
    var r := Update(guild, s, e);
    var u := e.member.id;
    if !Ignored(guild, e) {
      forall v | v in PyDict.Keys(r.voice) ensures v in r.names {
        if v != u {
          assert PyDict.Get(r.voice, v) == PyDict.Get(s.voice, v);
        }
      }
      forall v | v in r.pending ensures PendingMatchesTask(r, v) {
        if v != u {
          assert v in s.pending - {u};
          assert PendingMatchesTask(s, v);
          UpdateKeepsOthersTasks(guild, s, e, s.pending[v].task);
        }
      }
    }
  }

  lemma FireKeepsInv(s: State, id: nat)
    requires Inv(s)
    ensures Inv(Fire(s, id))
  {
    var r := Fire(s, id);
    forall v | v in r.pending ensures PendingMatchesTask(r, v) {
      assert PendingMatchesTask(s, v);
    }
  }

  // ----- runs of callbacks -----

  /** One callback the client receives: a voice-state event, the end of a leave task's sleep, or `on_ready`. */
  datatype Step = Voice(e: VoiceEvent) | Wake(id: nat) | Ready(guild: Option<Guild>)

  function Apply(guild: int, s: State, st: Step): (r: State) {
    match st
    case Voice(e) => Update(guild, s, e)
    case Wake(id) => Fire(s, id)
    case Ready(g) => Resync(s, g)
  }

  /** Handling the callbacks `sts` one after another. */
  function Steps(guild: int, s: State, sts: seq<Step>): (r: State)
    decreases |sts|
  {
    if sts == [] then s else Steps(guild, Apply(guild, s, sts[0]), sts[1..])
  }

  /** `st` is not about user `u`: another user's event, the wake-up of a task not asleep for `u`, or a resync. */
  predicate ByOther(s: State, st: Step, u: UserId) {
    match st
    case Voice(e) => e.member.id != u
    case Wake(id) => id < |s.tasks| && s.tasks[id].status == Sleeping ==> s.tasks[id].user != u
    case Ready(_) => true
  }

  /** Each of the callbacks `sts` is, when it comes, not about user `u`. */
  predicate OthersOnly(guild: int, s: State, sts: seq<Step>, u: UserId)
    decreases |sts|
  {
    sts == [] || (ByOther(s, sts[0], u) && OthersOnly(guild, Apply(guild, s, sts[0]), sts[1..], u))
  }

  /** A cancelled or finished task stays as it is through any voice-state event. */
  lemma UpdateKeepsSettled(guild: int, s: State, e: VoiceEvent, id: nat)
    requires id < |s.tasks| && s.tasks[id].status != Sleeping
    ensures var r := Update(guild, s, e);
      id < |r.tasks| && r.tasks[id] == s.tasks[id]
  {
  }

  /** A cancelled or finished task stays as it is through any callback. */
  lemma StepKeepsSettled(guild: int, s: State, st: Step, id: nat)
    requires id < |s.tasks| && s.tasks[id].status != Sleeping
    ensures var r := Apply(guild, s, st);
      id < |r.tasks| && r.tasks[id] == s.tasks[id]
  {
    if st.Voice? {
      UpdateKeepsSettled(guild, s, st.e, id);
    }
  }

  /** A cancelled or finished task stays as it is through any run of callbacks, so its wake-up changes nothing. */
  lemma {:induction false} StepsKeepSettled(guild: int, s: State, sts: seq<Step>, id: nat)
    requires id < |s.tasks| && s.tasks[id].status != Sleeping
    ensures var r := Steps(guild, s, sts);
      && id < |r.tasks| && r.tasks[id] == s.tasks[id]
      && Fire(r, id) == r
    decreases |sts|
  {
    if sts != [] {
      StepKeepsSettled(guild, s, sts[0], id);
      StepsKeepSettled(guild, Apply(guild, s, sts[0]), sts[1..], id);
    }
  }

  /** A task fires at most once: after its sleep has ended, whatever follows, a second wake-up does nothing. */
  lemma FireAtMostOnce(guild: int, s: State, id: nat, later: seq<Step>)
    requires id < |s.tasks|
    ensures var r := Steps(guild, Fire(s, id), later);
      Fire(r, id) == r
  {
    StepsKeepSettled(guild, Fire(s, id), later, id);
  }

  /**
    A callback not about user `u` keeps the invariant, `u`'s pending entry, `u`'s
    task `id`, and the notifications pushed so far.
   */
  lemma StepByOther(guild: int, s: State, st: Step, u: UserId, id: nat)
    requires Inv(s) && id < |s.tasks| && s.tasks[id].user == u && ByOther(s, st, u)
    ensures var r := Apply(guild, s, st);
      && Inv(r) && id < |r.tasks| && r.tasks[id] == s.tasks[id]
      && (u in r.pending <==> u in s.pending) && (u in s.pending ==> r.pending[u] == s.pending[u])
      && |s.sent| <= |r.sent| && r.sent[..|s.sent|] == s.sent
  {
    var r := Apply(guild, s, st);
    match st
    case Voice(e) =>
      UpdateKeepsInv(guild, s, e);
      UpdateKeepsOthersTasks(guild, s, e, id);
      assert AppendsAtMostOne(s.sent, r.sent);
      assert u in r.pending - {e.member.id} <==> u in s.pending - {e.member.id};
      if u in s.pending {
        assert u in s.pending - {e.member.id};
        assert (r.pending - {e.member.id})[u] == (s.pending - {e.member.id})[u];
      }
    case Wake(k) =>
      FireKeepsInv(s, k);
    case Ready(g) =>
      ResyncKeepsInv(s, g);
  }

  /** A run of callbacks not about user `u` keeps what one such callback keeps. */
  lemma {:induction false} StepsByOthers(guild: int, s: State, sts: seq<Step>, u: UserId, id: nat)
    requires Inv(s) && id < |s.tasks| && s.tasks[id].user == u && OthersOnly(guild, s, sts, u)
    ensures var r := Steps(guild, s, sts);
      && Inv(r) && id < |r.tasks| && r.tasks[id] == s.tasks[id]
      && (u in r.pending <==> u in s.pending) && (u in s.pending ==> r.pending[u] == s.pending[u])
      && |s.sent| <= |r.sent| && r.sent[..|s.sent|] == s.sent
    decreases |sts|
  {
    if sts != [] {
      var s1 := Apply(guild, s, sts[0]);
      StepByOther(guild, s, sts[0], u, id);
      StepsByOthers(guild, s1, sts[1..], u, id);
      var r := Steps(guild, s1, sts[1..]);
      assert r.sent[..|s1.sent|][..|s.sent|] == r.sent[..|s.sent|];
    }
  }

  // ----- debounce scenarios -----

  /** The leave of `m` from `c` and what follows it while only others act: the entry and its task are kept. */
  lemma LeaveThenOthers(guild: int, s: State, m: Member, c: Channel, between: seq<Step>)
    requires Tracked(guild, m) && Inv(s)
    requires OthersOnly(guild, Update(guild, s, VoiceEvent(m, Some(c), None)), between, m.id)
    ensures var n := |s.tasks|;
      var s1 := Update(guild, s, VoiceEvent(m, Some(c), None));
      var s2 := Steps(guild, s1, between);
      && s1.sent == s.sent && Inv(s2)
      && m.id in s2.pending && s2.pending[m.id] == PendingLeave(n, c.name)
      && n < |s2.tasks| && s2.tasks[n] == LeaveTask(m.id, m.displayName, c.name, Sleeping)
      && |s.sent| <= |s2.sent| && s2.sent[..|s.sent|] == s.sent
  {
    var s1 := Update(guild, s, VoiceEvent(m, Some(c), None));
    LeaveStartsOneTask(guild, s, m, c);
    UpdateKeepsInv(guild, s, VoiceEvent(m, Some(c), None));
    StepsByOthers(guild, s1, between, m.id, |s.tasks|);
  }

  /**
    Leaving C, any callbacks about other users, then coming back to a channel named C:
    nothing is pushed by the leave or the return, the task is cancelled, and its
    wake-up, after whatever follows, pushes nothing either.
   */
  lemma ReconnectSameChannelIsSilent(guild: int, s: State, m: Member, c: Channel, d: Channel,
                                     between: seq<Step>, later: seq<Step>)
    requires Tracked(guild, m) && Inv(s) && d.name == c.name
    requires OthersOnly(guild, Update(guild, s, VoiceEvent(m, Some(c), None)), between, m.id)
    ensures var n := |s.tasks|;
      var s1 := Update(guild, s, VoiceEvent(m, Some(c), None));
      var s2 := Steps(guild, s1, between);
      var s3 := Update(guild, s2, VoiceEvent(m, None, Some(d)));
      var s4 := Steps(guild, s3, later);
      && s1.sent == s.sent && s3.sent == s2.sent
      && m.id !in s3.pending
      && n < |s3.tasks| && s3.tasks[n].status == Cancelled
      && PyDict.Get(s3.voice, m.id) == Some(d.name)
      && Fire(s4, n) == s4
  {
    var s2 := Steps(guild, Update(guild, s, VoiceEvent(m, Some(c), None)), between);
    LeaveThenOthers(guild, s, m, c, between);
    JoinResolvesPendingLeave(guild, s2, m, d);
    StepsKeepSettled(guild, Update(guild, s2, VoiceEvent(m, None, Some(d))), later, |s.tasks|);
  }

  /**
    Leaving C, any callbacks about other users, then coming back to a channel with
    another name: the return pushes one `Switched(C, D)`, and the cancelled task never
    pushes a `Left`, whatever follows.
   */
  lemma ReconnectOtherChannelIsSwitch(guild: int, s: State, m: Member, c: Channel, d: Channel,
                                      between: seq<Step>, later: seq<Step>)
    requires Tracked(guild, m) && Inv(s) && d.name != c.name
    requires OthersOnly(guild, Update(guild, s, VoiceEvent(m, Some(c), None)), between, m.id)
    ensures var n := |s.tasks|;
      var s1 := Update(guild, s, VoiceEvent(m, Some(c), None));
      var s2 := Steps(guild, s1, between);
      var s3 := Update(guild, s2, VoiceEvent(m, None, Some(d)));
      var s4 := Steps(guild, s3, later);
      && s1.sent == s.sent && s3.sent == s2.sent + [Switched(m.displayName, c.name, d.name)]
      && m.id !in s3.pending
      && n < |s3.tasks| && s3.tasks[n].status == Cancelled
      && Fire(s4, n) == s4
  {
    var s2 := Steps(guild, Update(guild, s, VoiceEvent(m, Some(c), None)), between);
    LeaveThenOthers(guild, s, m, c, between);
    JoinResolvesPendingLeave(guild, s2, m, d);
    StepsKeepSettled(guild, Update(guild, s2, VoiceEvent(m, None, Some(d))), later, |s.tasks|);
  }

  /**
    Leaving C, any callbacks about other users (their events, their timers, a resync),
    then the timer ending: exactly one `Left` with the name and channel of the leave is
    appended, the entry is gone, and nothing pushed before is lost.
   */
  lemma DelayedLeaveFires(guild: int, s: State, m: Member, c: Channel, between: seq<Step>)
    requires Tracked(guild, m) && Inv(s)
    requires OthersOnly(guild, Update(guild, s, VoiceEvent(m, Some(c), None)), between, m.id)
    ensures var s1 := Update(guild, s, VoiceEvent(m, Some(c), None));
      var s2 := Steps(guild, s1, between);
      var s3 := Fire(s2, |s.tasks|);
      && s1.sent == s.sent
      && s3.sent == s2.sent + [Left(m.displayName, c.name)]
      && |s.sent| <= |s2.sent| && s2.sent[..|s.sent|] == s.sent
      && m.id !in s3.pending
  {
    LeaveThenOthers(guild, s, m, c, between);
  }

  /** The first of two leaves in a row fires and removes the entry that the second one wrote. */
  lemma OverwrittenLeaveFiresFirst(guild: int, s: State, m: Member, c: Channel, c': Channel)
    requires Tracked(guild, m)
    ensures var n := |s.tasks|;
      var s2 := Update(guild, Update(guild, s, VoiceEvent(m, Some(c), None)), VoiceEvent(m, Some(c'), None));
      var s3 := Fire(s2, n);
      && s3.sent == s.sent + [Left(m.displayName, c.name)]
      && |s3.tasks| == n + 2 && s3.tasks[n + 1] == LeaveTask(m.id, m.displayName, c'.name, Sleeping)
      && m.id !in s3.pending
  {
    var n := |s.tasks|;
    var s1 := Update(guild, s, VoiceEvent(m, Some(c), None));
    LeaveStartsOneTask(guild, s, m, c);
    var s2 := Update(guild, s1, VoiceEvent(m, Some(c'), None));
    LeaveStartsOneTask(guild, s1, m, c');
    assert s2.tasks[n] == LeaveTask(m.id, m.displayName, c.name, Sleeping);
    assert s2.tasks[n + 1] == LeaveTask(m.id, m.displayName, c'.name, Sleeping);
  }

  /** A sleeping task of a user without an entry still fires after the user joins again. */
  lemma StaleTaskFiresAfterJoin(guild: int, s: State, m: Member, d: Channel, k: nat, ch: string)
    requires Tracked(guild, m) && m.id !in s.pending
    requires k < |s.tasks| && s.tasks[k] == LeaveTask(m.id, m.displayName, ch, Sleeping)
    ensures var r := Fire(Update(guild, s, VoiceEvent(m, None, Some(d))), k);
      && r.sent == s.sent + [Joined(m.displayName, d.name), Left(m.displayName, ch)]
      && PyDict.Get(r.voice, m.id) == Some(d.name)
  {
    JoinWithoutPendingLeave(guild, s, m, d);
  }

  /**
    Two leaves in a row, the first task fires, the user joins D, then the second task
    fires: the user is announced as having left although it is in D.
   */
  lemma OverwrittenLeaveStillFires(guild: int, s: State, m: Member, c: Channel, c': Channel, d: Channel)
    requires Tracked(guild, m)
    ensures var n := |s.tasks|;
      var s3 := Steps(guild, s, [Voice(VoiceEvent(m, Some(c), None)), Voice(VoiceEvent(m, Some(c'), None)), Wake(n)]);
      var s5 := Steps(guild, s3, [Voice(VoiceEvent(m, None, Some(d))), Wake(n + 1)]);
      && s3.sent == s.sent + [Left(m.displayName, c.name)]
      && s5.sent == s.sent + [Left(m.displayName, c.name), Joined(m.displayName, d.name), Left(m.displayName, c'.name)]
      && PyDict.Get(s5.voice, m.id) == Some(d.name)
  {
    var n := |s.tasks|;
    var leave, leave', join := VoiceEvent(m, Some(c), None), VoiceEvent(m, Some(c'), None), VoiceEvent(m, None, Some(d));
    var s3 := Fire(Update(guild, Update(guild, s, leave), leave'), n);
    StepsOfThree(guild, s, Voice(leave), Voice(leave'), Wake(n));
    OverwrittenLeaveFiresFirst(guild, s, m, c, c');
    StepsOfTwo(guild, s3, Voice(join), Wake(n + 1));
    StaleTaskFiresAfterJoin(guild, s3, m, d, n + 1, c'.name);
    var s5 := Fire(Update(guild, s3, join), n + 1);
    assert s5.sent == s3.sent + [Joined(m.displayName, d.name), Left(m.displayName, c'.name)];
    Concat(s.sent, Left(m.displayName, c.name), Joined(m.displayName, d.name), Left(m.displayName, c'.name));
  }

  lemma Concat(log: seq<Notice>, x: Notice, y: Notice, z: Notice)
    ensures (log + [x]) + [y, z] == log + [x, y, z]
  {
    assert [x] + [y, z] == [x, y, z];
  }

  lemma StepsOfTwo(guild: int, s: State, a: Step, b: Step)
    ensures Steps(guild, s, [a, b]) == Apply(guild, Apply(guild, s, a), b)
  {
    var s1 := Apply(guild, s, a);
    assert [a, b][1..] == [b];
    assert Steps(guild, s, [a, b]) == Steps(guild, s1, [b]);
    assert [b][1..] == [];
    assert Steps(guild, s1, [b]) == Steps(guild, Apply(guild, s1, b), []);
  }

  lemma StepsOfThree(guild: int, s: State, a: Step, b: Step, c: Step)
    ensures Steps(guild, s, [a, b, c]) == Apply(guild, Apply(guild, Apply(guild, s, a), b), c)
  {
    assert [a, b, c][1..] == [b, c];
    assert Steps(guild, s, [a, b, c]) == Steps(guild, Apply(guild, s, a), [b, c]);
    StepsOfTwo(guild, Apply(guild, s, a), b, c);
  }

  // ----- on_ready -----

  /** `es[i]` is the last roster entry for its user. */
  predicate LastFor(es: seq<RosterEntry>, i: nat)
    requires i < |es|
  {
    forall j :: i < j < |es| ==> es[j].user != es[i].user
  }

  lemma {:induction false} UserSetWitness(es: seq<RosterEntry>, u: UserId)
    requires u in UserSet(es)
    ensures exists i :: 0 <= i < |es| && es[i].user == u
  {
    var n := |es| - 1;
    if es[n].user != u {
      UserSetWitness(es[..n], u);
      var i :| 0 <= i < n && es[..n][i].user == u;
      assert es[i] == es[..n][i];
    }
  }

  lemma {:induction false} UserSetHas(es: seq<RosterEntry>, i: nat)
    requires i < |es|
    ensures es[i].user in UserSet(es)
  {
    var n := |es| - 1;
    if i < n {
      UserSetHas(es[..n], i);
      assert es[..n][i] == es[i];
    }
  }

  /** Loading the roster into empty caches: both hold exactly the roster's users, each once. */
  lemma {:induction false} LoadedUsers(es: seq<RosterEntry>)
    ensures PyDict.Valid(LoadVoice(es))
    ensures forall u :: u in PyDict.Keys(LoadVoice(es)) <==> u in UserSet(es)
    ensures LoadNames(es).Keys == UserSet(es)
  {
    if es != [] {
      var n := |es| - 1;
      LoadedUsers(es[..n]);
      var d := LoadVoice(es[..n]);
      assert LoadVoice(es) == PyDict.Put(d, es[n].user, es[n].channel);
      assert PyDict.Keys(LoadVoice(es)) == if es[n].user in PyDict.Keys(d) then PyDict.Keys(d) else PyDict.Keys(d) + [es[n].user];
    }
  }

  /** The channel of the last roster entry of `u`, if any. */
  function LastChannel(es: seq<RosterEntry>, u: UserId): (c: Option<string>) {
    if es == [] then None
    else if es[|es| - 1].user == u then Some(es[|es| - 1].channel)
    else LastChannel(es[..|es| - 1], u)
  }

  /** The later assignment wins: a user's cached channel is that of the user's last roster entry. */
  lemma {:induction false} LoadVoiceGet(es: seq<RosterEntry>, u: UserId)
    ensures PyDict.Get(LoadVoice(es), u) == LastChannel(es, u)
  {
    if es != [] {
      var n := |es| - 1;
      LoadVoiceGet(es[..n], u);
      assert LoadVoice(es) == PyDict.Put(LoadVoice(es[..n]), es[n].user, es[n].channel);
    }
  }

  lemma {:induction false} LastChannelOf(es: seq<RosterEntry>, i: nat)
    requires i < |es| && LastFor(es, i)
    ensures LastChannel(es, es[i].user) == Some(es[i].channel)
  {
    var n := |es| - 1;
    if i < n {
      var front := es[..n];
      assert front[i] == es[i];
      assert LastFor(front, i) by {
        forall j | i < j < |front| ensures front[j].user != front[i].user { assert front[j] == es[j]; }
      }
      LastChannelOf(front, i);
    }
  }

  /** Each user's cached display name is that of the user's last roster entry. */
  lemma {:induction false} LoadedName(es: seq<RosterEntry>, i: nat)
    requires i < |es| && LastFor(es, i)
    ensures es[i].user in LoadNames(es) && LoadNames(es)[es[i].user] == es[i].name
  {
    var n := |es| - 1;
    var front := es[..n];
    var u := es[i].user;
    var names := LoadNames(front);
    assert LoadNames(es) == names[es[n].user := es[n].name];
    if i < n {
      assert front[i] == es[i];
      assert LastFor(front, i) by {
        forall j | i < j < |front| ensures front[j].user != front[i].user { assert front[j] == es[j]; }
      }
      LoadedName(front, i);
      assert LoadNames(es)[u] == names[u];
    }
  }

  /** One more channel extends the roster by that channel's non-bot members. */
  lemma RosterStep(chs: seq<VoiceChannel>, i: nat)
    requires i < |chs|
    ensures Roster(chs[..i + 1]) == Roster(chs[..i]) + ChannelRoster(chs[i], chs[i].members)
  {
    assert chs[..i + 1][..i] == chs[..i];
  }

  /** One more member extends a channel's roster by that member unless it is a bot. */
  lemma ChannelRosterStep(c: VoiceChannel, ms: seq<Member>, j: nat)
    requires j < |ms|
    ensures ChannelRoster(c, ms[..j + 1])
      == ChannelRoster(c, ms[..j]) + if ms[j].bot then [] else [RosterEntry(ms[j].id, c.name, ms[j].displayName)]
  {
    assert ms[..j + 1][..j] == ms[..j];
  }

  /** The same step, after the entries of the channels before. */
  lemma ExtendRoster(seen: seq<RosterEntry>, c: VoiceChannel, ms: seq<Member>, j: nat)
    requires j < |ms|
    ensures ms[j].bot ==> seen + ChannelRoster(c, ms[..j + 1]) == seen + ChannelRoster(c, ms[..j])
    ensures !ms[j].bot ==> seen + ChannelRoster(c, ms[..j + 1]) == seen + ChannelRoster(c, ms[..j]) + [Entry(c, ms[j])]
  {
    ChannelRosterStep(c, ms, j);
  }

  /** Loading one more roster entry is one more assignment to each cache. */
  lemma LoadStep(es: seq<RosterEntry>, e: RosterEntry)
    ensures LoadVoice(es + [e]) == PyDict.Put(LoadVoice(es), e.user, e.channel)
    ensures LoadNames(es + [e]) == LoadNames(es)[e.user := e.name]
  {
    assert (es + [e])[..|es|] == es;
  }

  function Entry(c: VoiceChannel, m: Member): (e: RosterEntry) {
    RosterEntry(m.id, c.name, m.displayName)
  }

  /** Every entry of a channel's roster is a non-bot member of that channel. */
  lemma {:induction false} ChannelRosterSound(c: VoiceChannel, ms: seq<Member>, e: RosterEntry)
    requires e in ChannelRoster(c, ms)
    ensures exists mi :: 0 <= mi < |ms| && !ms[mi].bot && e == Entry(c, ms[mi])
  {
    var n := |ms| - 1;
    if e in ChannelRoster(c, ms[..n]) {
      ChannelRosterSound(c, ms[..n], e);
      var mi :| 0 <= mi < n && !ms[..n][mi].bot && e == Entry(c, ms[..n][mi]);
      assert ms[mi] == ms[..n][mi];
    } else {
      assert e == Entry(c, ms[n]);
    }
  }

  /** Every non-bot member of a channel is in that channel's roster. */
  lemma {:induction false} ChannelRosterComplete(c: VoiceChannel, ms: seq<Member>, mi: nat)
    requires mi < |ms| && !ms[mi].bot
    ensures Entry(c, ms[mi]) in ChannelRoster(c, ms)
  {
    var n := |ms| - 1;
    if mi < n {
      ChannelRosterComplete(c, ms[..n], mi);
      assert ms[..n][mi] == ms[mi];
    }
  }

  /** `e` describes a non-bot member of one of the channels `chs`. */
  ghost predicate Listed(chs: seq<VoiceChannel>, e: RosterEntry) {
    exists ci, mi :: 0 <= ci < |chs| && 0 <= mi < |chs[ci].members| && !chs[ci].members[mi].bot
      && e == Entry(chs[ci], chs[ci].members[mi])
  }

  lemma {:induction false} RosterSound(chs: seq<VoiceChannel>, e: RosterEntry)
    requires e in Roster(chs)
    ensures Listed(chs, e)
  {
    var n := |chs| - 1;
    if e in Roster(chs[..n]) {
      RosterSound(chs[..n], e);
      var ci, mi :| 0 <= ci < n && 0 <= mi < |chs[..n][ci].members| && !chs[..n][ci].members[mi].bot
        && e == Entry(chs[..n][ci], chs[..n][ci].members[mi]);
      assert chs[ci] == chs[..n][ci];
    } else {
      ChannelRosterSound(chs[n], chs[n].members, e);
    }
  }

  lemma {:induction false} RosterComplete(chs: seq<VoiceChannel>, ci: nat, mi: nat)
    requires ci < |chs| && mi < |chs[ci].members| && !chs[ci].members[mi].bot
    ensures Entry(chs[ci], chs[ci].members[mi]) in Roster(chs)
  {
    var n := |chs| - 1;
    if ci < n {
      assert chs[..n][ci] == chs[ci];
      RosterComplete(chs[..n], ci, mi);
    } else {
      ChannelRosterComplete(chs[n], chs[n].members, mi);
    }
  }

  /** The roster lists exactly the non-bot members of the voice channels. */
  lemma RosterEntries(chs: seq<VoiceChannel>)
    ensures forall e :: e in Roster(chs) <==> Listed(chs, e)
  {
    forall e | e in Roster(chs) ensures Listed(chs, e) {
      RosterSound(chs, e);
    }
    forall e | Listed(chs, e) ensures e in Roster(chs) {
      var ci, mi :| 0 <= ci < |chs| && 0 <= mi < |chs[ci].members| && !chs[ci].members[mi].bot
        && e == Entry(chs[ci], chs[ci].members[mi]);
      RosterComplete(chs, ci, mi);
    }
  }

  /** `u` is a non-bot member of one of the guild's voice channels. */
  ghost predicate InVoice(g: Guild, u: UserId) {
    exists ci, mi :: 0 <= ci < |g.voiceChannels| && 0 <= mi < |g.voiceChannels[ci].members|
      && !g.voiceChannels[ci].members[mi].bot && g.voiceChannels[ci].members[mi].id == u
  }

  /** The users of the roster are exactly the non-bot members of the voice channels. */
  lemma RosterUsers(g: Guild, u: UserId)
    ensures u in UserSet(Roster(g.voiceChannels)) <==> InVoice(g, u)
  {
    var chs := g.voiceChannels;
    var es := Roster(chs);
    if u in UserSet(es) {
      UserSetWitness(es, u);
      var i :| 0 <= i < |es| && es[i].user == u;
      RosterSound(chs, es[i]);
    }
    if InVoice(g, u) {
      var ci, mi :| 0 <= ci < |chs| && 0 <= mi < |chs[ci].members| && !chs[ci].members[mi].bot && chs[ci].members[mi].id == u;
      RosterComplete(chs, ci, mi);
      var i :| 0 <= i < |es| && es[i] == Entry(chs[ci], chs[ci].members[mi]);
      UserSetHas(es, i);
    }
  }

  /**
    After `on_ready` found the guild, both caches hold exactly the non-bot members of its
    voice channels, each user once; pending leaves, tasks and the log are not touched.
   */
  lemma ResyncRebuildsCaches(s: State, g: Guild)
    ensures var r := Resync(s, Some(g));
      && r.pending == s.pending && r.tasks == s.tasks && r.sent == s.sent
      && PyDict.Valid(r.voice)
      && (forall u :: u in PyDict.Keys(r.voice) <==> InVoice(g, u))
      && (forall u :: u in r.names <==> InVoice(g, u))
  {
    LoadedUsers(Roster(g.voiceChannels));
    forall u ensures u in UserSet(Roster(g.voiceChannels)) <==> InVoice(g, u) {
      RosterUsers(g, u);
    }
  }

  /**
    When no user is listed twice, each non-bot member is cached with the name of the
    channel it was found in and its display name.
   */
  lemma ResyncCachesMember(s: State, g: Guild, ci: nat, mi: nat)
    requires ci < |g.voiceChannels| && mi < |g.voiceChannels[ci].members| && !g.voiceChannels[ci].members[mi].bot
    requires var es := Roster(g.voiceChannels); forall i, j :: 0 <= i < j < |es| ==> es[i].user != es[j].user
    ensures var r := Resync(s, Some(g));
      var m := g.voiceChannels[ci].members[mi];
      && PyDict.Get(r.voice, m.id) == Some(g.voiceChannels[ci].name)
      && m.id in r.names && r.names[m.id] == m.displayName
  {
    var chs := g.voiceChannels;
    var es := Roster(chs);
    var e := Entry(chs[ci], chs[ci].members[mi]);
    RosterComplete(chs, ci, mi);
    var i :| 0 <= i < |es| && es[i] == e;
    LoadVoiceGet(es, e.user);
    LastChannelOf(es, i);
    LoadedName(es, i);
  }

  lemma ResyncKeepsInv(s: State, g: Option<Guild>)
    requires Inv(s)
    ensures Inv(Resync(s, g))
  {
    if g.Some? {
      LoadedUsers(Roster(g.value.voiceChannels));
      var r := Resync(s, g);
      forall v | v in r.pending ensures PendingMatchesTask(r, v) {
        assert PendingMatchesTask(s, v);
      }
    }
  }
}
