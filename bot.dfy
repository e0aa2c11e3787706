/** The bot's two module-level dictionaries and the handlers that update them in place
    (api.py, lines 18-19, 35-99 and 111). Each method is specified by the matching
    function of the Events module, whose properties are proved there. */
module LineBot {
  import opened Wrappers
  import opened Reply
  import opened Events

  class Bot {
    /** `message_user_map`: message id to the record of a group text message. */
    var messages: map<MsgId, Record>
    /** `weekly_unsend_count`: user id to the number of recalls this week. */
    var counts: map<UserId, nat>

    function Snapshot(): State
      reads this
    {
      State(messages, counts)
    }

    predicate Valid()
      reads this
    {
      Events.Valid(Snapshot())
    }

    /** The dictionaries as the process starts: both empty. */
    constructor ()
      ensures Valid()
      ensures messages == map[] && counts == map[]
    {
      messages := map[];
      counts := map[];
    }

    /** `handle_message`: a text message with a (non-empty) group id is stored under its
        message id, replacing any earlier record for that id; any other message is
        ignored. The counts are not touched. */
    method HandleMessage(msgId: MsgId, userId: UserId, groupId: Option<GroupId>, text: string)
      requires Valid()
      modifies this
      ensures Valid()
      ensures Snapshot() == Remember(old(Snapshot()), msgId, userId, groupId, text)
      ensures counts == old(counts)
    {
      if groupId.Some? && groupId.value != "" {
        messages := messages[msgId := Record(userId, groupId.value, text)];
      }
    }

    /** `handle_unsend`: for a recorded message, bumps its sender's weekly count and
        returns the notice to push; for an unrecorded one, does nothing and returns
        `None`. `profile` is the outcome of `get_group_member_profile`; the records are
        never changed. */
    method HandleUnsend(msgId: MsgId, profile: Option<string>) returns (push: Option<Push>)
      requires Valid()
      modifies this
      ensures Valid()
      ensures var (s, w) := Unsend(old(Snapshot()), msgId, profile);
              Snapshot() == s && push == Render(w)
      ensures messages == old(messages)
      ensures push.Some? ==> push.value.to != ""
    {
      if msgId !in messages {
        return None;
      }
      var rec := messages[msgId];
      var count := CountOf(counts, rec.userId) + 1;
      counts := counts[rec.userId := count];
      var name := DisplayName(rec.userId, profile);
      var reply := BuildReply(name, rec.text, count);
      push := Some(Push(rec.groupId, reply.text, Mentionee(reply.index, reply.length, rec.userId)));
      UnsendPushesToGroup(old(Snapshot()), msgId, profile);
    }

    /** The clearing step of the weekly reset loop: all counts are dropped, the message
        records are kept. */
    method WeeklyClear()
      requires Valid()
      modifies this`counts
      ensures Valid()
      ensures Snapshot() == Clear(old(Snapshot()))
      ensures counts == map[]
    {
      counts := map[];
    }
  }
}
