/**
 * `GET /messages/conversation/:otherUserId` (server.js): it returns the messages
 * between the caller and the other user and, as a side effect, marks the ones
 * the other user sent to the caller as read.
 */
module Messaging {
  import opened Wrappers
  import opened Tables

  /** A message of the conversation between `me` and `other`, in either direction. */
  predicate Between(m: Message, me: int, other: int) {
    (m.senderId == me && m.receiverId == other) || (m.senderId == other && m.receiverId == me)
  }

  predicate UnreadFrom(m: Message, sender: int, receiver: int) {
    m.senderId == sender && m.receiverId == receiver && !m.isRead
  }

  /** The ids of the messages `receiver` has not yet read from `sender` (the unread count's rows). */
  function UnreadIds(messages: map<int, Message>, sender: int, receiver: int): (ids: set<int>)
    ensures forall k :: k in ids <==> k in messages && UnreadFrom(messages[k], sender, receiver)
  {
    set k | k in messages && UnreadFrom(messages[k], sender, receiver)
  }

  /** `UPDATE Message SET is_read = 1 WHERE receiver_id = me AND sender_id = other AND is_read = 0`. */
  function MarkRead(messages: map<int, Message>, me: int, other: int): (ms: map<int, Message>)
    ensures ms.Keys == messages.Keys
    ensures UnreadIds(ms, other, me) == {}
    ensures forall k :: k in messages ==>
      && ms[k].senderId == messages[k].senderId && ms[k].receiverId == messages[k].receiverId
      && ms[k].listingId == messages[k].listingId && ms[k].content == messages[k].content
    ensures forall k :: k in messages && !(messages[k].senderId == other && messages[k].receiverId == me)
                        ==> ms[k] == messages[k]
    ensures forall k :: k in messages && messages[k].isRead ==> ms[k].isRead
  {
    map k | k in messages :: if UnreadFrom(messages[k], other, me) then messages[k].(isRead := true) else messages[k]
  }

  function FetchConversation(db: Db, caller: Caller, other: int): (s: Step<map<int, Message>>)
    ensures s.result.Ok?
    ensures forall k :: k in s.result.value <==>
      k in db.messages && Between(db.messages[k], caller.userId, other) && db.messages[k].senderId in db.users
    ensures forall k :: k in s.result.value ==> s.result.value[k] == db.messages[k]
    ensures s.db == db.(messages := s.db.messages)
    ensures s.db.messages == MarkRead(db.messages, caller.userId, other)
    ensures UnreadIds(s.db.messages, other, caller.userId) == {}
    ensures WellFormed(db) ==> WellFormed(s.db)
  {
    var conversation := map k | k in db.messages && Between(db.messages[k], caller.userId, other)
                                && db.messages[k].senderId in db.users :: db.messages[k];
    Step(db.(messages := MarkRead(db.messages, caller.userId, other)), Ok(conversation))
  }

  /** Fetching the same conversation again changes nothing more. */
  lemma MarkReadIdempotent(messages: map<int, Message>, me: int, other: int)
    ensures MarkRead(MarkRead(messages, me, other), me, other) == MarkRead(messages, me, other)
  {
    var once := MarkRead(messages, me, other);
    var twice := MarkRead(once, me, other);
    assert forall k :: k in once ==> !UnreadFrom(once[k], other, me);
    assert twice.Keys == once.Keys;
  }
}
