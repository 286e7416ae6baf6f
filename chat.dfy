/**
 * The chat store (`stores/chat.ts`): the per-channel view of the message list.
 */
module Chat {
  import opened Seqs

  datatype ChatMessage = ChatMessage(
    id: string,
    channelId: string,
    sender: string,
    body: string,
    createdAt: string)

  function InChannel(channelId: string): ChatMessage -> bool {
    (m: ChatMessage) => m.channelId == channelId
  }

  /**
   * `getMessagesForChannel`: exactly the messages of that channel, in store
   * order. It is a function of the store's value, so the store is not changed.
   */
  function MessagesForChannel(messages: seq<ChatMessage>, channelId: string): (r: seq<ChatMessage>)
    ensures forall m :: m in r ==> m.channelId == channelId
    ensures IsSubsequence(r, messages)
    ensures forall i :: 0 <= i < |messages| && messages[i].channelId == channelId ==> messages[i] in r
    ensures |r| == Count(messages, InChannel(channelId))
  {
    Filter(messages, InChannel(channelId))
  }
}
