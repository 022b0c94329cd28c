/**
  The `/status` command: the users in `voice_cache` grouped by channel, channels in
  the order of their first cached user, users in cache order under their channel.
 */
module Status {
  import opened Wrappers
  import PyDict
  import Presence

  /** The lines of the reply: the title, a heading per channel, a line per user. */
  datatype Line = Header | ChannelHeading(channel: string) | UserLine(name: string)

  /** `matcher.finish(...)`: the fixed "nobody in voice" text, or the grouped lines. */
  datatype Reply = NoOneInVoice | Report(lines: seq<Line>)

  /** `user_name_cache.get(uid, uid)`. */
  function DisplayName(names: map<Presence.UserId, string>, uid: Presence.UserId): (name: string) {
    if uid in names then names[uid] else uid
  }

  /** The `channels` dict built by the first loop of `handle_status`. */
  function Grouped(voice: PyDict.Dict<Presence.UserId, string>, names: map<Presence.UserId, string>)
    : (channels: PyDict.Dict<string, seq<string>>)
  {
    if voice == [] then []
    else
      var n := |voice| - 1;
      var g := Grouped(voice[..n], names);
      var (uid, c) := voice[n];
      PyDict.Put(g, c, PyDict.Get(g, c).GetOr([]) + [DisplayName(names, uid)])
  }

  function UserLines(users: seq<string>): (lines: seq<Line>) {
    seq(|users|, i requires 0 <= i < |users| => UserLine(users[i]))
  }

  /** The lines the second loop appends for the groups. */
  function Lines(groups: PyDict.Dict<string, seq<string>>): (lines: seq<Line>) {
    if groups == [] then []
    else
      var n := |groups| - 1;
      Lines(groups[..n]) + [ChannelHeading(groups[n].0)] + UserLines(groups[n].1)
  }

  function StatusOf(voice: PyDict.Dict<Presence.UserId, string>, names: map<Presence.UserId, string>): (r: Reply) {
    if voice == [] then NoOneInVoice else Report([Header] + Lines(Grouped(voice, names)))
  }

  /** One more cached user extends the grouping by one assignment. */
  lemma GroupedStep(voice: PyDict.Dict<Presence.UserId, string>, names: map<Presence.UserId, string>, i: nat)
    requires i < |voice|
    ensures var g := Grouped(voice[..i], names);
      Grouped(voice[..i + 1], names)
        == PyDict.Put(g, voice[i].1, PyDict.Get(g, voice[i].1).GetOr([]) + [DisplayName(names, voice[i].0)])
  {
    assert voice[..i + 1][..i] == voice[..i];
  }

  lemma UserLinesStep(users: seq<string>, j: nat)
    requires j < |users|
    ensures UserLines(users[..j + 1]) == UserLines(users[..j]) + [UserLine(users[j])]
  {
  }

  /** One more group extends the lines by its heading and its users. */
  lemma LinesStep(groups: PyDict.Dict<string, seq<string>>, k: nat)
    requires k < |groups|
    ensures Lines(groups[..k + 1]) == Lines(groups[..k]) + [ChannelHeading(groups[k].0)] + UserLines(groups[k].1)
  {
    assert groups[..k + 1][..k] == groups[..k];
  }

  // ----- reference definitions -----

  /** The channel of every cached user, in cache order. */
  function ChannelsOf(voice: PyDict.Dict<Presence.UserId, string>): (cs: seq<string>) {
    if voice == [] then [] else var n := |voice| - 1; ChannelsOf(voice[..n]) + [voice[n].1]
  }

  /** The elements of `s` in the order of their first occurrence, each once. */
  function Dedup(s: seq<string>): (r: seq<string>)
    ensures PyDict.Distinct(r)
    ensures forall x :: x in r <==> x in s
  {
    if s == [] then []
    else
      var n := |s| - 1;
      var d := Dedup(s[..n]);
      if s[n] in d then d else PyDict.DistinctSnoc(d, s[n]); d + [s[n]]
  }

  /** The position of the first occurrence of `x` in `s`. */
  function FirstIndex(s: seq<string>, x: string): (i: nat)
    requires x in s
    ensures i < |s| && s[i] == x && forall j :: 0 <= j < i ==> s[j] != x
  {
    if s[0] == x then 0 else 1 + FirstIndex(s[1..], x)
  }

  /** The display names of the cached users in channel `c`, in cache order. */
  function Members(voice: PyDict.Dict<Presence.UserId, string>, names: map<Presence.UserId, string>, c: string)
    : (users: seq<string>)
  {
    if voice == [] then []
    else
      var n := |voice| - 1;
      Members(voice[..n], names, c) + if voice[n].1 == c then [DisplayName(names, voice[n].0)] else []
  }

  /** The reply laid out channel by channel, for the channels `cs`. */
  function Layout(cs: seq<string>, voice: PyDict.Dict<Presence.UserId, string>, names: map<Presence.UserId, string>)
    : (lines: seq<Line>)
  {
    if cs == [] then []
    else
      var n := |cs| - 1;
      Layout(cs[..n], voice, names) + [ChannelHeading(cs[n])] + UserLines(Members(voice, names, cs[n]))
  }

  // ----- properties -----

  /** Each channel is a key of the grouping once, in the order of its first cached user. */
  lemma {:induction false} GroupedChannels(voice: PyDict.Dict<Presence.UserId, string>, names: map<Presence.UserId, string>)
    ensures PyDict.Keys(Grouped(voice, names)) == Dedup(ChannelsOf(voice))
  {
    if voice != [] {
      var n := |voice| - 1;
      GroupedChannels(voice[..n], names);
      var cs := ChannelsOf(voice[..n]);
      var c := voice[n].1;
      assert ChannelsOf(voice) == cs + [c];
      assert (cs + [c])[..|cs|] == cs;
    }
  }

  lemma {:induction false} MembersOfAbsent(voice: PyDict.Dict<Presence.UserId, string>, names: map<Presence.UserId, string>, c: string)
    requires c !in ChannelsOf(voice)
    ensures Members(voice, names, c) == []
  {
    if voice != [] {
      MembersOfAbsent(voice[..|voice| - 1], names, c);
    }
  }

  /** Under each channel the grouping lists exactly that channel's cached users, in cache order. */
  lemma {:induction false} GroupedMembers(voice: PyDict.Dict<Presence.UserId, string>, names: map<Presence.UserId, string>)
    ensures forall c :: PyDict.Get(Grouped(voice, names), c)
                        == if c in ChannelsOf(voice) then Some(Members(voice, names, c)) else None
  {
    if voice != [] {
      var n := |voice| - 1;
      var front := voice[..n];
      GroupedMembers(front, names);
      var g := Grouped(front, names);
      var (uid, c) := voice[n];
      var cs := ChannelsOf(front);
      assert ChannelsOf(voice) == cs + [c];
      assert Grouped(voice, names) == PyDict.Put(g, c, PyDict.Get(g, c).GetOr([]) + [DisplayName(names, uid)]);
      if c !in cs {
        MembersOfAbsent(front, names, c);
      }
      assert PyDict.Get(g, c).GetOr([]) == Members(front, names, c);
      forall c' ensures PyDict.Get(Grouped(voice, names), c')
                        == if c' in ChannelsOf(voice) then Some(Members(voice, names, c')) else None
      {
        if c' == c {
          assert Members(voice, names, c) == Members(front, names, c) + [DisplayName(names, uid)];
        } else {
          assert Members(voice, names, c') == Members(front, names, c');
          assert c' in ChannelsOf(voice) <==> c' in cs;
        }
      }
    }
  }

  /** A grouping whose lists are the member lists of `voice` renders as the `Layout` of its keys. */
  lemma {:induction false} LinesAreLayout(g: PyDict.Dict<string, seq<string>>, voice: PyDict.Dict<Presence.UserId, string>,
                                          names: map<Presence.UserId, string>)
    requires forall i :: 0 <= i < |g| ==> g[i].1 == Members(voice, names, g[i].0)
    ensures Lines(g) == Layout(PyDict.Keys(g), voice, names)
  {
    PyDict.KeysAt(g);
    if g != [] {
      var n := |g| - 1;
      LinesAreLayout(g[..n], voice, names);
      PyDict.KeysAt(g[..n]);
      assert PyDict.Keys(g)[..n] == PyDict.Keys(g[..n]);
    }
  }

  /**
    The reply: the fixed message exactly when `voice_cache` is empty; otherwise the
    title, then for each channel once, in the order of its first cached user, its
    heading followed by its users' display names in cache order.
   */
  lemma StatusReport(voice: PyDict.Dict<Presence.UserId, string>, names: map<Presence.UserId, string>)
    ensures StatusOf(voice, names).NoOneInVoice? <==> voice == []
    ensures voice != [] ==>
      StatusOf(voice, names) == Report([Header] + Layout(Dedup(ChannelsOf(voice)), voice, names))
  {
    var g := Grouped(voice, names);
    GroupedChannels(voice, names);
    GroupedMembers(voice, names);
    GroupedValid(voice, names);
    forall i | 0 <= i < |g| ensures g[i].1 == Members(voice, names, g[i].0) {
      PyDict.GetAt(g, i);
      PyDict.KeysAt(g);
      assert g[i].0 in PyDict.Keys(g);
    }
    LinesAreLayout(g, voice, names);
  }

  lemma {:induction false} GroupedValid(voice: PyDict.Dict<Presence.UserId, string>, names: map<Presence.UserId, string>)
    ensures PyDict.Valid(Grouped(voice, names))
  {
    if voice != [] {
      GroupedValid(voice[..|voice| - 1], names);
    }
  }

  /** Channels in first-seen order: of two listed channels, the earlier one has the earlier first user. */
  lemma {:induction false} DedupFirstSeen(s: seq<string>)
    ensures forall i, j :: 0 <= i < j < |Dedup(s)| ==> FirstIndex(s, Dedup(s)[i]) < FirstIndex(s, Dedup(s)[j])
  {
    if s != [] {
      var n := |s| - 1;
      var front := s[..n];
      var d := Dedup(front);
      var r := Dedup(s);
      DedupFirstSeen(front);
      assert r == if s[n] in d then d else d + [s[n]];
      forall i, j | 0 <= i < j < |r| ensures FirstIndex(s, r[i]) < FirstIndex(s, r[j]) {
        assert r[i] == d[i] && r[i] in front;
        FirstIndexPrefix(s, n, r[i]);
        if j < |d| {
          assert r[j] == d[j] && r[j] in front;
          FirstIndexPrefix(s, n, r[j]);
          assert FirstIndex(front, d[i]) < FirstIndex(front, d[j]);
        } else {
          assert r[j] == s[n] && s[n] !in front;
          FirstIndexPrefix(s, n, s[n]);
          assert FirstIndex(front, d[i]) < n;
        }
      }
    }
  }

  lemma {:induction false} FirstIndexPrefix(s: seq<string>, n: nat, x: string)
    requires n <= |s| && x in s
    ensures x in s[..n] ==> FirstIndex(s, x) == FirstIndex(s[..n], x)
    ensures x !in s[..n] ==> FirstIndex(s, x) >= n
  {
    var i := FirstIndex(s, x);
    if x in s[..n] {
      var k := FirstIndex(s[..n], x);
      assert s[k] == x;
      assert i <= k;
      assert s[..n][i] == x;
    }
  }

  /** In a reachable state every cached user has a cached name, so the id fallback is never shown. */
  lemma CachedUsersHaveNames(s: Presence.State)
    requires Presence.Inv(s)
    ensures forall i :: 0 <= i < |s.voice| ==>
      s.voice[i].0 in s.names && DisplayName(s.names, s.voice[i].0) == s.names[s.voice[i].0]
  {
    PyDict.KeysAt(s.voice);
    forall i | 0 <= i < |s.voice| ensures s.voice[i].0 in s.names {
      assert PyDict.Keys(s.voice)[i] == s.voice[i].0;
    }
  }
}
