/** The chat widget's conversation: the messages restored from session storage,
    the greeting shown before them, a submit that appends the user's message
    and a typing placeholder, the reply or error that fills the placeholder in,
    and the effect that saves the messages back. Clock readings (`Date.now()`
    and the formatted time) are parameters. */
module ChatWidget {
  import opened Wrappers
  import opened Text
  import opened Seqs
  import opened Storage
  import ChatApi

  const STORAGE_KEY := "chat_widget_user_messages"
  const BOT_NAME := "Chat Bot AI"
  const GREETING_TEXT := "Xin chào! Tôi có thể hỗ trợ gì cho bạn hôm nay?"
  const DEFAULT_SENDER_NAME := "Bạn"
  const NO_REPLY_TEXT := "Hiện chưa có câu trả lời phù hợp."
  const ERROR_TEXT := "Xin lỗi, hệ thống đang gặp sự cố. Vui lòng thử lại sau."

  datatype Sender = User | Assistant

  /** A message; `isTyping` is absent on the user's messages. */
  datatype ChatMessage = ChatMessage(id: int, sender: Sender, senderName: string, content: string, time: string, isTyping: Option<bool>)

  /** What `JSON.parse` makes of the stored text. */
  datatype Parsed = Threw | NotAnArray | AnArray(messages: seq<ChatMessage>)

  function NotTyping(ms: seq<ChatMessage>): (r: seq<ChatMessage>)
    ensures |r| == |ms|
    ensures forall k :: 0 <= k < |ms| ==> r[k] == ms[k].(isTyping := Some(false))
  {
    seq(|ms|, k requires 0 <= k < |ms| => ms[k].(isTyping := Some(false)))
  }

  /** The initial `userMessages`, from the stored text (`None` when the key is
      absent). */
  function Restore(raw: Option<string>, parse: string -> Parsed): (r: seq<ChatMessage>)
    ensures raw.None? || raw.value == "" ==> r == []
    ensures raw.Some? && raw.value != "" && !parse(raw.value).AnArray? ==> r == []
    ensures raw.Some? && raw.value != "" && parse(raw.value).AnArray? ==> r == NotTyping(parse(raw.value).messages)
    ensures forall k :: 0 <= k < |r| ==> r[k].isTyping == Some(false)
  {
    if raw.None? || raw.value == "" then []
    else
      match parse(raw.value)
      case AnArray(ms) => NotTyping(ms)
      case _ => []
  }

  /** Saving a list and restoring it gives the same messages with none of them
      typing, whenever `JSON.parse` reads back what `JSON.stringify` wrote
      (the text of an array is never empty). */
  lemma SaveThenRestore(ms: seq<ChatMessage>, stringify: seq<ChatMessage> -> string, parse: string -> Parsed)
    requires stringify(ms) != "" && parse(stringify(ms)) == AnArray(ms)
    ensures Restore(Some(stringify(ms)), parse) == NotTyping(ms)
    ensures forall k :: 0 <= k < |ms| ==>
      var m := Restore(Some(stringify(ms)), parse)[k];
      m.id == ms[k].id && m.sender == ms[k].sender && m.content == ms[k].content && m.time == ms[k].time
  {
  }

  function Greeting(time: string): ChatMessage {
    ChatMessage(1, Assistant, BOT_NAME, GREETING_TEXT, time, None)
  }

  /** `messages`: the greeting, then the user's conversation. */
  function Messages(greetingTime: string, userMessages: seq<ChatMessage>): (r: seq<ChatMessage>)
    ensures |r| == |userMessages| + 1
    ensures r[0] == Greeting(greetingTime) && r[1..] == userMessages
  {
    [Greeting(greetingTime)] + userMessages
  }

  /** `user?.name || "Bạn"` */
  function SenderName(userName: Option<string>): (name: string)
    ensures name != ""
    ensures userName.Some? && userName.value != "" ==> name == userName.value
    ensures userName.None? || userName.value == "" ==> name == DEFAULT_SENDER_NAME
  {
    if userName.Some? && userName.value != "" then userName.value else DEFAULT_SENDER_NAME
  }

  /** The two messages a submit appends: the user's, with id `now`, and the
      assistant's typing placeholder, with id `now + 1`. */
  function Submitted(prev: seq<ChatMessage>, trimmed: string, now: int, time: string, userName: Option<string>): (r: seq<ChatMessage>)
    ensures |r| == |prev| + 2 && r[..|prev|] == prev
    ensures r[|prev|] == ChatMessage(now, User, SenderName(userName), trimmed, time, None)
    ensures r[|prev| + 1] == ChatMessage(now + 1, Assistant, BOT_NAME, "", time, Some(true))
  {
    prev + [ChatMessage(now, User, SenderName(userName), trimmed, time, None),
            ChatMessage(now + 1, Assistant, BOT_NAME, "", time, Some(true))]
  }

  /** The `map` that fills in the placeholder: every message carrying `id` gets
      `content` and `time` and stops typing; the others are kept. */
  function Replaced(prev: seq<ChatMessage>, id: int, content: string, time: string): (r: seq<ChatMessage>)
    ensures |r| == |prev|
    ensures forall k :: 0 <= k < |prev| && prev[k].id != id ==> r[k] == prev[k]
    ensures forall k :: 0 <= k < |prev| && prev[k].id == id ==>
      r[k] == prev[k].(content := content, time := time, isTyping := Some(false))
  {
    seq(|prev|, k requires 0 <= k < |prev| =>
      if prev[k].id == id then prev[k].(content := content, time := time, isTyping := Some(false)) else prev[k])
  }

  /** The reply's text: `response?.reply ?? NO_REPLY_TEXT`; an empty reply is
      kept as it is. */
  function ReplyText(response: Option<ChatApi.ChatResponse>): (text: string)
    ensures response.Some? && response.value.reply.Some? ==> text == response.value.reply.value
    ensures response.None? || response.value.reply.None? ==> text == NO_REPLY_TEXT
  {
    if response.Some? && response.value.reply.Some? then response.value.reply.value else NO_REPLY_TEXT
  }

  function Ids(ms: seq<ChatMessage>): (r: seq<int>)
    ensures |r| == |ms| && forall k :: 0 <= k < |ms| ==> r[k] == ms[k].id
  {
    seq(|ms|, k requires 0 <= k < |ms| => ms[k].id)
  }

  /** While ids are unique, filling in the placeholder changes exactly one
      message, the placeholder itself. */
  lemma UniqueIdsReplaceOne(prev: seq<ChatMessage>, j: nat, content: string, time: string)
    requires NoDuplicates(Ids(prev)) && j < |prev|
    ensures var r := Replaced(prev, prev[j].id, content, time);
      && r[j] == prev[j].(content := content, time := time, isTyping := Some(false))
      && forall k :: 0 <= k < |prev| && k != j ==> r[k] == prev[k]
  {
    forall k | 0 <= k < |prev| && k != j ensures prev[k].id != prev[j].id {
      if k < j {
        assert Ids(prev)[k] != Ids(prev)[j];
      } else {
        assert Ids(prev)[j] != Ids(prev)[k];
      }
    }
  }

  function MaxId(ms: seq<ChatMessage>): (m: int)
    ensures forall k :: 0 <= k < |ms| ==> ms[k].id <= m
  {
    if ms == [] then 0
    else
      var rest := MaxId(ms[1..]);
      assert forall k :: 1 <= k < |ms| ==> ms[k].id == ms[1..][k - 1].id;
      if ms[0].id > rest then ms[0].id else rest
  }

  /** The user message's id, taken past every id in use. */
  function FreshId(prev: seq<ChatMessage>, now: int): (id: int)
    ensures id >= now
    ensures forall k :: 0 <= k < |prev| ==> prev[k].id < id
  {
    if now > MaxId(prev) then now else MaxId(prev) + 1
  }

  /** A submit whose ids are taken past every id in use. */
  function SubmittedFresh(prev: seq<ChatMessage>, trimmed: string, now: int, time: string, userName: Option<string>): seq<ChatMessage> {
    Submitted(prev, trimmed, FreshId(prev, now), time, userName)
  }

  /** With fresh ids, submits keep the ids unique, so each reply fills in its
      own placeholder and nothing else. */
  lemma {:induction false} FreshIdsStayUnique(prev: seq<ChatMessage>, trimmed: string, now: int, time: string, userName: Option<string>)
    requires NoDuplicates(Ids(prev))
    ensures NoDuplicates(Ids(SubmittedFresh(prev, trimmed, now, time, userName)))
    ensures var r := SubmittedFresh(prev, trimmed, now, time, userName);
      forall k :: 0 <= k < |r| && k != |prev| + 1 ==> r[k].id != r[|prev| + 1].id
  {
    var r := SubmittedFresh(prev, trimmed, now, time, userName);
    var id := FreshId(prev, now);
    assert r[|prev|].id == id && r[|prev| + 1].id == id + 1;
    forall i, j | 0 <= i < j < |r| ensures Ids(r)[i] != Ids(r)[j] {
      if j < |prev| {
        assert r[i] == prev[i] && r[j] == prev[j];
        assert Ids(prev)[i] != Ids(prev)[j];
      } else if i < |prev| {
        assert r[i] == prev[i];
      }
    }
  }

  /** The widget's state, over the session storage it saves to. */
  class Widget {
    var inputValue: string
    var userMessages: seq<ChatMessage>
    /** `isPending` of the send mutation: while it is set the text area and the
        send button are disabled and Enter does not submit. */
    var sending: bool
    /** The placeholder id the pending send's continuation captured. */
    var placeholderId: int
    const session: WebStorage

    /** Mounting: the input is empty, nothing is being sent and the
        conversation is restored. */
    constructor (session: WebStorage, parse: string -> Parsed)
      ensures this.session == session
      ensures inputValue == "" && userMessages == Restore(session.GetItem(STORAGE_KEY), parse)
      ensures !sending
    {
      this.session := session;
      inputValue := "";
      userMessages := Restore(session.GetItem(STORAGE_KEY), parse);
      sending := false;
      placeholderId := 0;
    }

    /** Typing in the text area, which is disabled while a send is pending. */
    method SetInput(text: string)
      modifies this
      ensures inputValue == (if old(sending) then old(inputValue) else text)
      ensures userMessages == old(userMessages) && sending == old(sending) && placeholderId == old(placeholderId)
    {
      if !sending {
        inputValue := text;
      }
    }

    /** `handleSubmit`: nothing happens while a send is pending or when the
        input is blank; otherwise the two messages are appended, the input is
        cleared, and the trimmed text is sent, its reply awaited for the
        placeholder `now + 1`. */
    method Submit(now: int, time: string, userName: Option<string>) returns (sent: Option<string>)
      modifies this
      ensures old(sending) || IsBlank(old(inputValue)) ==>
        && sent.None? && inputValue == old(inputValue) && userMessages == old(userMessages)
        && sending == old(sending) && placeholderId == old(placeholderId)
      ensures !old(sending) && !IsBlank(old(inputValue)) ==>
        && sent == Some(Trim(old(inputValue)))
        && inputValue == ""
        && userMessages == Submitted(old(userMessages), Trim(old(inputValue)), now, time, userName)
        && sending && placeholderId == now + 1
    {
      if sending {
        return None;
      }
      var trimmed := Trim(inputValue);
      TrimEmptyIffBlank(inputValue);
      if trimmed == "" {
        return None;
      }
      userMessages := Submitted(userMessages, trimmed, now, time, userName);
      inputValue := "";
      sending := true;
      placeholderId := now + 1;
      sent := Some(trimmed);
    }

    /** The send's `then`: the reply fills in the captured placeholder and the
        send is no longer pending. */
    method ReceiveReply(response: Option<ChatApi.ChatResponse>, time: string)
      requires sending
      modifies this
      ensures userMessages == Replaced(old(userMessages), placeholderId, ReplyText(response), time)
      ensures !sending && inputValue == old(inputValue) && placeholderId == old(placeholderId)
    {
      userMessages := Replaced(userMessages, placeholderId, ReplyText(response), time);
      sending := false;
    }

    /** The send's `catch`: the apology fills in the captured placeholder and
        the send is no longer pending. */
    method ReceiveError(time: string)
      requires sending
      modifies this
      ensures userMessages == Replaced(old(userMessages), placeholderId, ERROR_TEXT, time)
      ensures !sending && inputValue == old(inputValue) && placeholderId == old(placeholderId)
    {
      userMessages := Replaced(userMessages, placeholderId, ERROR_TEXT, time);
      sending := false;
    }

    /** The persist effect: the messages are written under the one key. */
    method Persist(stringify: seq<ChatMessage> -> string)
      modifies session
      ensures session.items == old(session.items)[STORAGE_KEY := stringify(userMessages)]
    {
      session.SetItem(STORAGE_KEY, stringify(userMessages));
    }
  }

  /** As written, with the submit guard in place: a reply that arrives within
      the millisecond, then a message sent at the next one. The new message
      takes the id of the earlier placeholder, already filled in, so two
      messages share an id (and a list key) while no text is overwritten. */
  method QuickRoundTripRepeatsId() returns (ms: seq<ChatMessage>)
    ensures |ms| == 4 && !NoDuplicates(Ids(ms))
    ensures ms[1].id == ms[2].id && ms[1].sender == Assistant && ms[2].sender == User
    ensures ms[0].content == "a" && ms[1].content == "reply" && ms[2].content == "b" && ms[3].isTyping == Some(true)
  {
    var session := new WebStorage(map[]);
    var w := new Widget(session, (_: string) => Threw);
    TrimOfTrimmed("a");
    TrimOfTrimmed("b");
    w.SetInput("a");
    var first := w.Submit(1000, "t", None);
    w.ReceiveReply(Some(ChatApi.ChatResponse(Some("reply"), [], None)), "t");
    w.SetInput("b");
    var second := w.Submit(1001, "t", None);
    ms := w.userMessages;
    assert Ids(ms)[1] == Ids(ms)[2];
  }
}
