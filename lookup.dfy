/** `findChatData`: the message whose id is asked for, found by filtering the
    chat list and taking the first survivor. */
module ChatLookup {
  import opened ChatTypes
  import opened Seqs

  /** The filter predicate `chat.parentChatting.id === id`. */
  function WithId(id: Id): ChatPair -> bool
  {
    (p: ChatPair) => p.parentChatting.id == id
  }

  /** Some entry of `chats` carries a parent message with this id. */
  predicate HasChat(chats: seq<ChatPair>, id: Id)
  {
    exists k :: 0 <= k < |chats| && chats[k].parentChatting.id == id
  }

  /** Reference definition: the position of the first entry with this id. */
  function FirstIndex(chats: seq<ChatPair>, id: Id): (k: nat)
    requires HasChat(chats, id)
    ensures k < |chats| && chats[k].parentChatting.id == id
    ensures forall j :: 0 <= j < k ==> chats[j].parentChatting.id != id
  {
    if chats[0].parentChatting.id == id then 0
    else
      var k :| 0 <= k < |chats| && chats[k].parentChatting.id == id;
      assert chats[1..][k - 1] == chats[k];
      1 + FirstIndex(chats[1..], id)
  }

  /** `chatData.filter(chat => chat.parentChatting.id === id)[0].parentChatting`.
      A missing id makes the source read a field of `undefined`, so the caller
      must supply an id that is present. */
  function FindChat(chats: seq<ChatPair>, id: Id): (c: Chatting)
    requires HasChat(chats, id)
    ensures c == chats[FirstIndex(chats, id)].parentChatting
    ensures c.id == id
  {
    FilterFirst(chats, WithId(id), FirstIndex(chats, id));
    Filter(chats, WithId(id))[0].parentChatting
  }

  /** Entries appended after a match do not disturb it: the first match of
      `chats + extra` is that of `chats`. */
  lemma FindChatAppend(chats: seq<ChatPair>, extra: seq<ChatPair>, id: Id)
    requires HasChat(chats, id)
    ensures HasChat(chats + extra, id)
    ensures FindChat(chats + extra, id) == FindChat(chats, id)
  {
    var k := FirstIndex(chats, id);
    assert (chats + extra)[k] == chats[k];
  }

  /** The entry at `k` is the first with this id, so it is the one found. */
  lemma FindChatAt(chats: seq<ChatPair>, id: Id, k: nat)
    requires k < |chats| && chats[k].parentChatting.id == id
    requires forall j :: 0 <= j < k ==> chats[j].parentChatting.id != id
    ensures HasChat(chats, id) && FindChat(chats, id) == chats[k].parentChatting
  {
  }
}
