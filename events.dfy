/** The bot's event-correlation core as values: the two dictionaries of api.py
    (`message_user_map`, `weekly_unsend_count`, lines 18-19), one function per handler,
    and a fold over a sequence of events, with the properties that hold across several
    events. The class in bot.dfy updates the same state in place and is specified by
    these functions. */
module Events {
  import opened Wrappers
  import opened Reply

  type MsgId = string
  type UserId = string
  type GroupId = string

  /** What `handle_message` remembers about a group text message. */
  datatype Record = Record(userId: UserId, groupId: GroupId, text: string)

  /** The mention span of the pushed message and the user it tags. */
  datatype Mentionee = Mentionee(index: nat, length: nat, userId: UserId)

  /** A message pushed to group `to`. */
  datatype Push = Push(to: GroupId, text: string, mention: Mentionee)

  /** The message records keyed by message id, and the weekly recall counts keyed by
      user id alone. */
  datatype State = State(messages: map<MsgId, Record>, counts: map<UserId, nat>)

  /** `weekly_unsend_count.get(u, 0)`. */
  function CountOf(counts: map<UserId, nat>, u: UserId): nat
  {
    if u in counts then counts[u] else 0
  }

  /** Python's truthiness test `if group_id:` — absent and empty ids are both false. */
  predicate InGroup(groupId: Option<GroupId>)
  {
    groupId.Some? && groupId.value != ""
  }

  /** What every reachable state satisfies: records only come from group messages, and a
      user appears in the counts only after at least one recall. */
  predicate Valid(s: State)
  {
    && (forall m :: m in s.messages ==> s.messages[m].groupId != "")
    && (forall u :: u in s.counts ==> s.counts[u] >= 1)
  }

  /** `handle_message` for a text message `msgId` sent by `userId` (api.py:35-46). */
  function Remember(s: State, msgId: MsgId, userId: UserId, groupId: Option<GroupId>, text: string): State
  {
    if InGroup(groupId) then
      s.(messages := s.messages[msgId := Record(userId, groupId.value, text)])
    else
      s
  }

  /** A message with a (non-empty) group id is stored as exactly (user, group, text)
      under its id, replacing any earlier record for that id, and every other record
      stays; any other message changes nothing. The counts never change. */
  lemma RememberStores(s: State, msgId: MsgId, userId: UserId, groupId: Option<GroupId>, text: string)
    ensures var r := Remember(s, msgId, userId, groupId, text);
            && r.counts == s.counts
            && (InGroup(groupId) ==> r.messages.Keys == s.messages.Keys + {msgId})
            && (InGroup(groupId) ==> r.messages[msgId] == Record(userId, groupId.value, text))
            && (forall m :: m in s.messages && m != msgId ==> m in r.messages && r.messages[m] == s.messages[m])
            && (!InGroup(groupId) ==> r.messages == s.messages)
  {
  }

  /** What a recall notice says: the recalled record, the name the recaller is shown
      as, and which recall of the week this is. */
  datatype Warning = Warning(rec: Record, name: string, count: nat)

  /** The push that carries warning `w` (api.py:73-99): the reply text with its mention
      of the recaller, sent to the record's group. */
  function Notice(w: Warning): Push
  {
    var m := BuildReply(w.name, w.rec.text, w.count);
    Push(w.rec.groupId, m.text, Mentionee(m.index, m.length, w.rec.userId))
  }

  /** The push handed to `push_message`, if any. */
  function Render(w: Option<Warning>): Option<Push>
  {
    if w.Some? then Some(Notice(w.value)) else None
  }

  /** The notice goes to the record's group and tags the record's user; its mention
      span covers exactly the display name, and the recalled text and the count's
      numeral appear in it. */
  lemma NoticeMentionsName(w: Warning)
    ensures var p := Notice(w);
            var t := |Opening| + |w.name| + |AfterName|;
            var at := p.mention.index + p.mention.length + |BeforeCount|;
            && p.to == w.rec.groupId && p.mention.userId == w.rec.userId
            && p.mention.length == |w.name|
            && p.mention.index + p.mention.length <= |p.text|
            && p.text[p.mention.index..p.mention.index + p.mention.length] == w.name
            && t + |w.rec.text| <= |p.text| && p.text[t..t + |w.rec.text|] == w.rec.text
            && at + |Decimal(w.count)| <= |p.text| && p.text[at..at + |Decimal(w.count)|] == Decimal(w.count)
  {
    ReplyLayout(w.name, w.rec.text, w.count);
  }

  /** `handle_unsend` for message `msgId`, with `profile` the outcome of the profile
      lookup (api.py:49-99). */
  function Unsend(s: State, msgId: MsgId, profile: Option<string>): (State, Option<Warning>)
  {
    if msgId !in s.messages then
      (s, None)
    else
      var rec := s.messages[msgId];
      var count := CountOf(s.counts, rec.userId) + 1;
      var name := DisplayName(rec.userId, profile);
      (s.(counts := s.counts[rec.userId := count]), Some(Warning(rec, name, count)))
  }

  /** A recall of a message id with no record changes nothing and pushes nothing. */
  lemma UnsendUnrecorded(s: State, msgId: MsgId, profile: Option<string>)
    requires msgId !in s.messages
    ensures Unsend(s, msgId, profile) == (s, None)
  {
  }

  /** A recall of a recorded message leaves the records alone, raises its sender's count
      (absent counting as 0) by one, leaves every other user's count as it was, and
      yields the notice for the new count. */
  lemma UnsendRecorded(s: State, msgId: MsgId, profile: Option<string>)
    requires msgId in s.messages
    ensures var rec := s.messages[msgId];
            var count := CountOf(s.counts, rec.userId) + 1;
            var r := Unsend(s, msgId, profile);
            && r.0.messages == s.messages
            && r.0.counts.Keys == s.counts.Keys + {rec.userId}
            && CountOf(r.0.counts, rec.userId) == count
            && (forall u :: u != rec.userId ==> CountOf(r.0.counts, u) == CountOf(s.counts, u))
            && r.1 == Some(Warning(rec, DisplayName(rec.userId, profile), count))
  {
  }

  /** In a reachable state every push goes to a real group: records are only kept for
      messages with a non-empty group id. */
  lemma UnsendPushesToGroup(s: State, msgId: MsgId, profile: Option<string>)
    requires Valid(s)
    ensures var w := Unsend(s, msgId, profile).1;
            w.Some? ==> Notice(w.value).to != ""
  {
  }

  /** `weekly_unsend_count.clear()` (api.py:111). */
  function Clear(s: State): State
  {
    s.(counts := map[])
  }

  /** After the clear every count is zero and the records are all still there. */
  lemma ClearDropsCounts(s: State)
    ensures Clear(s).messages == s.messages
    ensures forall u :: CountOf(Clear(s).counts, u) == 0
  {
  }

  /* ---------------- traces of events ---------------- */

  /** An event delivered to the bot: a text message, an unsend together with the outcome
      of the profile lookup it triggers, or the weekly reset. */
  datatype Event =
    | Sent(msgId: MsgId, userId: UserId, groupId: Option<GroupId>, text: string)
    | Unsent(msgId: MsgId, profile: Option<string>)
    | WeekReset

  function Step(s: State, e: Event): (State, Option<Warning>)
  {
    match e
    case Sent(m, u, g, t) => (Remember(s, m, u, g, t), None)
    case Unsent(m, p) => Unsend(s, m, p)
    case WeekReset => (Clear(s), None)
  }

  function Pushed(p: Option<Warning>): seq<Warning>
  {
    if p.Some? then [p.value] else []
  }

  /** Handles `events` in order from `s`; the final state and every push, in order. */
  function Run(s: State, events: seq<Event>): (State, seq<Warning>)
    decreases |events|
  {
    if events == [] then
      (s, [])
    else
      var (s1, p) := Step(s, events[0]);
      var (s2, ps) := Run(s1, events[1..]);
      (s2, Pushed(p) + ps)
  }

  /** One recall of `msgId` per entry of `ps`, each with its own profile-lookup outcome. */
  function Recalls(msgId: MsgId, ps: seq<Option<string>>): (es: seq<Event>)
    ensures |es| == |ps| && forall i :: 0 <= i < |ps| ==> es[i] == Unsent(msgId, ps[i])
  {
    if ps == [] then [] else [Unsent(msgId, ps[0])] + Recalls(msgId, ps[1..])
  }

  /** Every handler keeps `Valid`. */
  lemma StepKeepsValid(s: State, e: Event)
    requires Valid(s)
    ensures Valid(Step(s, e).0)
  {
  }

  /** Any sequence of events keeps `Valid`, pushes at most one message per event, and
      never removes a message record: neither a recall nor the weekly reset deletes
      one. */
  lemma {:induction false} RunKeepsValid(s: State, events: seq<Event>)
    ensures var r := Run(s, events);
            && (Valid(s) ==> Valid(r.0))
            && s.messages.Keys <= r.0.messages.Keys
            && |r.1| <= |events|
    decreases |events|
  {
    if events != [] {
      if Valid(s) {
        StepKeepsValid(s, events[0]);
      }
      RunKeepsValid(Step(s, events[0]).0, events[1..]);
    }
  }

  /** Two events in a row. */
  lemma RunTwo(s: State, e1: Event, e2: Event)
    ensures var (s1, p1) := Step(s, e1);
            var (s2, p2) := Step(s1, e2);
            Run(s, [e1, e2]) == (s2, Pushed(p1) + Pushed(p2))
  {
    var (s1, p1) := Step(s, e1);
    var (s2, p2) := Step(s1, e2);
    var es := [e1, e2];
    assert es[1..] == [e2] && [e2][1..] == [];
    assert Run(s1, [e2]) == (s2, Pushed(p2) + []);
    assert Run(s, es) == (s2, Pushed(p1) + Run(s1, [e2]).1);
    assert Pushed(p2) + [] == Pushed(p2);
  }

  /** A trace that starts with an event that pushes nothing. */
  lemma RunSilent(s: State, es: seq<Event>)
    requires es != [] && Step(s, es[0]).1 == None
    ensures Run(s, es) == Run(Step(s, es[0]).0, es[1..])
  {
    var r1 := Run(Step(s, es[0]).0, es[1..]);
    assert Pushed(None) + r1.1 == r1.1;
  }

  /** A trace that starts with a recall of a recorded message. */
  lemma RunUnsent(s: State, msgId: MsgId, profile: Option<string>, es: seq<Event>)
    requires msgId in s.messages && es != [] && es[0] == Unsent(msgId, profile)
    ensures var rec := s.messages[msgId];
            var r1 := Run(Unsend(s, msgId, profile).0, es[1..]);
            Run(s, es) == (r1.0, [Warning(rec, DisplayName(rec.userId, profile), CountOf(s.counts, rec.userId) + 1)] + r1.1)
  {
  }

  /** Recalling the same message once per lookup outcome in `ps`: no record is removed,
      so every recall finds the same record and raises its sender's count by one, whatever
      its own lookup gave; nobody else's count moves. */
  lemma {:induction false} RepeatedUnsend(s: State, msgId: MsgId, ps: seq<Option<string>>)
    requires msgId in s.messages
    ensures var rec := s.messages[msgId];
            var r := Run(s, Recalls(msgId, ps));
            && r.0.messages == s.messages
            && CountOf(r.0.counts, rec.userId) == CountOf(s.counts, rec.userId) + |ps|
            && (forall u :: u != rec.userId ==> CountOf(r.0.counts, u) == CountOf(s.counts, u))
    decreases |ps|
  {
    if ps != [] {
      var es := Recalls(msgId, ps);
      assert es[1..] == Recalls(msgId, ps[1..]);
      RunUnsent(s, msgId, ps[0], es);
      RepeatedUnsend(Unsend(s, msgId, ps[0]).0, msgId, ps[1..]);
    }
  }

  /** ... and every one of those recalls pushes a notice quoting the same stored text;
      the i-th one names the recaller as its own lookup `ps[i]` resolved and carries the
      running count old + i + 1. */
  lemma {:induction false} RepeatedUnsendNotices(s: State, msgId: MsgId, ps: seq<Option<string>>)
    requires msgId in s.messages
    ensures var rec := s.messages[msgId];
            var base := CountOf(s.counts, rec.userId);
            var ws := Run(s, Recalls(msgId, ps)).1;
            && |ws| == |ps|
            && (forall i :: 0 <= i < |ps| ==> ws[i] == Warning(rec, DisplayName(rec.userId, ps[i]), base + i + 1))
    decreases |ps|
  {
    if ps != [] {
      var rec := s.messages[msgId];
      var base := CountOf(s.counts, rec.userId);
      var es := Recalls(msgId, ps);
      assert es[1..] == Recalls(msgId, ps[1..]);
      RunUnsent(s, msgId, ps[0], es);
      var s1 := Unsend(s, msgId, ps[0]).0;
      RepeatedUnsendNotices(s1, msgId, ps[1..]);
      var ws1 := Run(s1, es[1..]).1;
      var ws := Run(s, es).1;
      assert ws == [Warning(rec, DisplayName(rec.userId, ps[0]), base + 1)] + ws1;
      forall i | 0 <= i < |ps|
        ensures ws[i] == Warning(rec, DisplayName(rec.userId, ps[i]), base + i + 1)
      {
        if i > 0 {
          assert ws[i] == ws1[i - 1] && ps[i] == ps[1..][i - 1];
        }
      }
    }
  }

  /** The count is keyed by user alone: recalls of one user's messages in two different
      groups add up in one count, and the second notice, pushed to the second group,
      already carries the total. */
  lemma CountIsSharedAcrossGroups(s: State, m1: MsgId, m2: MsgId, p1: Option<string>, p2: Option<string>)
    requires m1 in s.messages && m2 in s.messages
    requires s.messages[m1].userId == s.messages[m2].userId
    requires s.messages[m1].groupId != s.messages[m2].groupId
    ensures var u := s.messages[m1].userId;
            var r := Run(s, [Unsent(m1, p1), Unsent(m2, p2)]);
            && CountOf(r.0.counts, u) == CountOf(s.counts, u) + 2
            && r.1 == [Warning(s.messages[m1], DisplayName(u, p1), CountOf(s.counts, u) + 1),
                       Warning(s.messages[m2], DisplayName(u, p2), CountOf(s.counts, u) + 2)]
  {
    var es := [Unsent(m1, p1), Unsent(m2, p2)];
    RunUnsent(s, m1, p1, es);
    assert es[1..] == [Unsent(m2, p2)];
    RunUnsent(Unsend(s, m1, p1).0, m2, p2, es[1..]);
    assert es[1..][1..] == [];
  }

  /** A recall of a message id that was never recorded (sent before the bot started, or
      outside a group) changes nothing and pushes nothing, whatever the profile lookup
      would have said. */
  lemma UnrecordedUnsendIsIgnored(s: State, msgId: MsgId, userId: UserId, groupId: Option<GroupId>, text: string, profile: Option<string>)
    requires msgId !in s.messages && !InGroup(groupId)
    ensures Run(s, [Sent(msgId, userId, groupId, text), Unsent(msgId, profile)]) == (s, [])
  {
    RunTwo(s, Sent(msgId, userId, groupId, text), Unsent(msgId, profile));
    assert Remember(s, msgId, userId, groupId, text) == s;
    assert Pushed(None) + Pushed(None) == [];
  }

  /** A group message recalled right after it is sent: the notice goes to that group,
      tags the sender and quotes exactly the text that was sent. */
  lemma SendThenUnsend(s: State, msgId: MsgId, userId: UserId, groupId: GroupId, text: string, profile: Option<string>)
    requires groupId != ""
    ensures var r := Run(s, [Sent(msgId, userId, Some(groupId), text), Unsent(msgId, profile)]);
            var count := CountOf(s.counts, userId) + 1;
            && CountOf(r.0.counts, userId) == count
            && msgId in r.0.messages && r.0.messages[msgId] == Record(userId, groupId, text)
            && r.1 == [Warning(Record(userId, groupId, text), DisplayName(userId, profile), count)]
  {
    var es := [Sent(msgId, userId, Some(groupId), text), Unsent(msgId, profile)];
    var s1 := Remember(s, msgId, userId, Some(groupId), text);
    RunSilent(s, es);
    assert es[1..] == [Unsent(msgId, profile)];
    RunUnsent(s1, msgId, profile, es[1..]);
    assert es[1..][1..] == [];
  }

  /** After the weekly reset the next recall is the first of the week again, and it is
      still announced: the reset keeps the message records. */
  lemma ResetStartsNewWeek(s: State, msgId: MsgId, profile: Option<string>)
    requires msgId in s.messages
    ensures var rec := s.messages[msgId];
            var r := Run(s, [WeekReset, Unsent(msgId, profile)]);
            && CountOf(r.0.counts, rec.userId) == 1
            && r.1 == [Warning(rec, DisplayName(rec.userId, profile), 1)]
  {
    var es := [WeekReset, Unsent(msgId, profile)];
    RunSilent(s, es);
    assert es[1..] == [Unsent(msgId, profile)];
    RunUnsent(Clear(s), msgId, profile, es[1..]);
    assert es[1..][1..] == [];
  }

  /** Within a week (no reset among the events) no count ever goes down. */
  lemma {:induction false} CountsGrowWithinWeek(s: State, events: seq<Event>, u: UserId)
    requires forall i :: 0 <= i < |events| ==> !events[i].WeekReset?
    ensures CountOf(Run(s, events).0.counts, u) >= CountOf(s.counts, u)
    decreases |events|
  {
    if events != [] {
      var s1 := Step(s, events[0]).0;
      assert CountOf(s1.counts, u) >= CountOf(s.counts, u);
      CountsGrowWithinWeek(s1, events[1..], u);
    }
  }
}
