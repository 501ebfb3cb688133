/** The message log on its values: who may read a conversation, which messages
    form it, and what reading it marks as read. */
module Messaging {
  import opened Common
  import opened Records

  type Messages = map<string, Message>

  /** `m` was sent from `a` to `b` or from `b` to `a`. */
  predicate Between(m: Message, a: string, b: string) {
    (m.senderId == a && m.receiverId == b) || (m.senderId == b && m.receiverId == a)
  }

  /** The guard of the history route: `caller` may read its conversation with `peer`
      when they are the same user, or when `peer` has sent `caller` at least one
      message. Having only sent messages to `peer` does not suffice. */
  predicate MayRead(messages: Messages, caller: string, peer: string) {
    caller == peer || exists k :: k in messages && messages[k].senderId == peer && messages[k].receiverId == caller
  }

  /** The log after every message from `from` to `to` is flagged as read. */
  function MarkRead(messages: Messages, from: string, to: string): Messages {
    map k | k in messages ::
      if messages[k].senderId == from && messages[k].receiverId == to then messages[k].(read := true) else messages[k]
  }

  /** The read-marking loop of the history route: `Object.values(messages).forEach(...)`
      flagging, in log order, every message from `from` to `to`. */
  method MarkInOrder(order: seq<string>, messages: Messages, from: string, to: string) returns (result: Messages)
    requires IsOrderOf(order, messages)
    ensures result == MarkRead(messages, from, to)
  {
    OrderExactly(order, messages);
    result := messages;
    var i := 0;
    while i < |order|
      invariant 0 <= i <= |order|
      invariant result.Keys == messages.Keys
      invariant forall j :: 0 <= j < i ==> result[order[j]] == MarkRead(messages, from, to)[order[j]]
      invariant forall j :: i <= j < |order| ==> result[order[j]] == messages[order[j]]
    {
      var k := order[i];
      var msg := result[k];
      if msg.senderId == from && msg.receiverId == to {
        result := result[k := msg.(read := true)];
      }
      i := i + 1;
    }
    forall k | k in result ensures result[k] == MarkRead(messages, from, to)[k] {
      var j :| 0 <= j < |order| && order[j] == k;
    }
  }

  /** The keys of the messages between `a` and `b`, in log order. */
  function ConversationIds(order: seq<string>, messages: Messages, a: string, b: string): (r: seq<string>)
    ensures forall k :: k in r ==> k in messages
  {
    Filter(order, k => k in messages && Between(messages[k], a, b))
  }

  /** The messages between `a` and `b`, in log order. */
  function Conversation(order: seq<string>, messages: Messages, a: string, b: string): seq<Message> {
    Values(ConversationIds(order, messages, a, b), messages)
  }

  /** Marking touches the read flag, and only that, of exactly the messages from
      `from` to `to`; a message that was read stays read. */
  lemma MarkReadExactly(messages: Messages, from: string, to: string)
    ensures MarkRead(messages, from, to).Keys == messages.Keys
    ensures forall k :: k in messages ==>
      && MarkRead(messages, from, to)[k].read == (messages[k].read || (messages[k].senderId == from && messages[k].receiverId == to))
      && MarkRead(messages, from, to)[k].(read := messages[k].read) == messages[k]
  {
  }

  /** Marking changes no key, and no message's id, sender or receiver. */
  lemma MarkReadKeepsAllButRead(messages: Messages, from: string, to: string)
    ensures MarkRead(messages, from, to).Keys == messages.Keys
    ensures forall k :: k in messages ==>
      var m := MarkRead(messages, from, to)[k];
      m.id == messages[k].id && m.senderId == messages[k].senderId && m.receiverId == messages[k].receiverId
  {
  }

  /** Marking the same direction twice is marking it once. */
  lemma MarkReadIdempotent(messages: Messages, from: string, to: string)
    ensures MarkRead(MarkRead(messages, from, to), from, to) == MarkRead(messages, from, to)
  {
    var once := MarkRead(messages, from, to);
    var twice := MarkRead(once, from, to);
    assert twice.Keys == once.Keys;
    forall k | k in once ensures twice[k] == once[k] {
    }
  }

  /** Marking never changes who may read what. */
  lemma MarkReadKeepsAccess(messages: Messages, from: string, to: string, caller: string, peer: string)
    ensures MayRead(MarkRead(messages, from, to), caller, peer) == MayRead(messages, caller, peer)
  {
    var marked := MarkRead(messages, from, to);
    if MayRead(messages, caller, peer) && caller != peer {
      var k :| k in messages && messages[k].senderId == peer && messages[k].receiverId == caller;
      assert marked[k].senderId == peer && marked[k].receiverId == caller;
    }
  }

  /** Marking never changes which messages form a conversation. */
  lemma MarkReadKeepsConversationIds(order: seq<string>, messages: Messages, from: string, to: string, a: string, b: string)
    ensures ConversationIds(order, MarkRead(messages, from, to), a, b) == ConversationIds(order, messages, a, b)
  {
    var marked := MarkRead(messages, from, to);
    FilterAgrees(order, k => k in marked && Between(marked[k], a, b), k => k in messages && Between(messages[k], a, b));
  }

  /** When `order` enumerates the log, a conversation holds exactly the logged
      messages between the two users, in either direction. */
  lemma ConversationExactly(order: seq<string>, messages: Messages, a: string, b: string)
    requires IsOrderOf(order, messages)
    ensures forall x :: x in Conversation(order, messages, a, b) <==> x in messages.Values && Between(x, a, b)
  {
    var ids := ConversationIds(order, messages, a, b);
    var conv := Conversation(order, messages, a, b);
    forall x | x in conv ensures x in messages.Values && Between(x, a, b) {
      var i :| 0 <= i < |conv| && conv[i] == x;
      assert ids[i] in ids;
    }
    forall x | x in messages.Values && Between(x, a, b) ensures x in conv {
      var k :| k in messages && messages[k] == x;
      assert k in ids;
      var i :| 0 <= i < |ids| && ids[i] == k;
      assert conv[i] == x;
    }
  }

  /** Reading a history a second time returns what the first read returned and
      leaves the log as the first read left it. */
  lemma SecondReadChangesNothing(order: seq<string>, messages: Messages, caller: string, peer: string)
    requires MayRead(messages, caller, peer)
    ensures var first := MarkRead(messages, peer, caller);
      && MayRead(first, caller, peer)
      && MarkRead(first, peer, caller) == first
      && Conversation(order, MarkRead(first, peer, caller), caller, peer) == Conversation(order, first, caller, peer)
  {
    MarkReadKeepsAccess(messages, peer, caller, caller, peer);
    MarkReadIdempotent(messages, peer, caller);
  }

  /** A message sent from A to B and then B's read of its history with A: B is
      allowed, and the returned conversation ends with that message, now read. */
  lemma SendThenRead(order: seq<string>, messages: Messages, msg: Message)
    requires IsOrderOf(order, messages) && msg.id !in messages && !msg.read
    ensures var log := messages[msg.id := msg];
      var after := MarkRead(log, msg.senderId, msg.receiverId);
      var conv := Conversation(order + [msg.id], after, msg.receiverId, msg.senderId);
      && MayRead(log, msg.receiverId, msg.senderId)
      && |conv| > 0 && conv[|conv| - 1] == msg.(read := true)
  {
    var log := messages[msg.id := msg];
    var after := MarkRead(log, msg.senderId, msg.receiverId);
    var a, b := msg.receiverId, msg.senderId;
    FilterSnoc(order, msg.id, k => k in after && Between(after[k], a, b));
    var ids := ConversationIds(order + [msg.id], after, a, b);
    assert ids[|ids| - 1] == msg.id;
  }
}
