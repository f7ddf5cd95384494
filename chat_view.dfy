/**
 * `ChatArea`: which messages open a new header (avatar, author and time), the composer's
 * submit, and the choice between the message list and the voice placeholder.
 */
module ChatView {
  import opened Wrappers
  import opened Text

  /** A message of the list, reduced to what the grouping and the header read. */
  datatype ChatMessage = ChatMessage(id: string, author: string, content: string, timestamp: string)

  /** `showAvatar`: the first message, and every message whose author differs from the one before. */
  predicate ShowAvatar(messages: seq<ChatMessage>, index: int)
    requires 0 <= index < |messages|
  {
    index == 0 || messages[index - 1].author != messages[index].author
  }

  /**
   * Messages `j` to `index` form one group: `j` shows the header, the others do not, and all
   * have the same author.
   */
  ghost predicate GroupedUnder(messages: seq<ChatMessage>, j: int, index: int)
    requires 0 <= index < |messages|
  {
    && 0 <= j <= index && ShowAvatar(messages, j)
    && (forall k :: j <= k <= index ==> messages[k].author == messages[index].author)
    && (forall k :: j < k <= index ==> !ShowAvatar(messages, k))
  }

  /**
   * The header a message sits under names its own author: going back from any message, the
   * nearest message showing a header has the same author, and so has every message between.
   */
  lemma {:induction false} HeaderAbove(messages: seq<ChatMessage>, index: int)
    requires 0 <= index < |messages|
    ensures exists j :: GroupedUnder(messages, j, index)
    decreases index
  {
    if ShowAvatar(messages, index) {
      assert GroupedUnder(messages, index, index);
    } else {
      HeaderAbove(messages, index - 1);
      var j :| GroupedUnder(messages, j, index - 1);
      assert GroupedUnder(messages, j, index);
    }
  }

  /**
   * `handleSendMessage`: a blank draft stays as it is and nothing is handed on; any other draft
   * is handed on as typed (the second component; the code only logs it) and the box is cleared.
   */
  function SendMessage(draft: string): (r: (string, Option<string>))
    ensures r.1.None? <==> IsBlank(draft)
    ensures r.1.None? ==> r.0 == draft
    ensures r.1.Some? ==> r.0 == "" && r.1.value == draft
  {
    if IsBlank(draft) then (draft, None) else ("", Some(draft))
  }

  /** What the area renders for a channel. */
  datatype View = VoicePlaceholder(channelName: string) | MessageList(channelName: string)

  /** A voice channel gets the join placeholder, every other type the message list. */
  function ViewFor(channelName: string, channelType: string): (v: View)
    ensures v.VoicePlaceholder? <==> channelType == "voice"
    ensures v.channelName == channelName
  {
    if channelType == "voice" then VoicePlaceholder(channelName) else MessageList(channelName)
  }
}
