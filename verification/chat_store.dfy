/**
 * `store/chatStore.ts`: the message list of the open conversation and the
 * chat flags. Each action is a function from state to state.
 */
module ChatStore {
  import opened Base
  import JsArray

  datatype MessageType = User | Assistant | System

  /** A frontend chat message; the free-form `metadata` is not modelled. */
  datatype ChatMessage = ChatMessage(
    id: string, user_id: string, content: string, messageType: MessageType,
    timestamp: string, conversation_id: string)

  /** A `Partial<ChatMessage>`: `Some` for each key the update carries. */
  datatype Patch = Patch(
    id: Option<string>, user_id: Option<string>, content: Option<string>,
    messageType: Option<MessageType>, timestamp: Option<string>, conversation_id: Option<string>)

  datatype State = State(
    messages: seq<ChatMessage>, currentConversationId: Option<string>,
    isTyping: bool, isConnected: bool, error: Option<string>)

  /** The state the store is created with. */
  const Initial := State([], None, false, false, None)

  /** The store starts with no messages, no conversation, no error and both flags off. */
  lemma InitialIsEmpty()
    ensures Initial.messages == [] && Initial.currentConversationId == None && Initial.error == None
    ensures !Initial.isTyping && !Initial.isConnected
    ensures RemoveMessage(Initial, "") == Initial
  {
  }

  /** The field after a spread: the update's value when it carries the key. */
  function Pick<T>(update: Option<T>, current: T): T {
    if update.Some? then update.value else current
  }

  /** `{ ...message, ...updates }`. */
  function Merge(m: ChatMessage, p: Patch): ChatMessage {
    ChatMessage(
      Pick(p.id, m.id), Pick(p.user_id, m.user_id), Pick(p.content, m.content),
      Pick(p.messageType, m.messageType), Pick(p.timestamp, m.timestamp),
      Pick(p.conversation_id, m.conversation_id))
  }

  /** Merging is idempotent, and an update that carries every key replaces the message outright. */
  lemma MergeLaws(m: ChatMessage, p: Patch, full: ChatMessage)
    ensures Merge(Merge(m, p), p) == Merge(m, p)
    ensures Merge(m, Patch(Some(full.id), Some(full.user_id), Some(full.content),
      Some(full.messageType), Some(full.timestamp), Some(full.conversation_id))) == full
  {
  }

  /** `addMessage`: appended after the existing messages. */
  function AddMessage(s: State, m: ChatMessage): (r: State)
    ensures |r.messages| == |s.messages| + 1
    ensures r.messages[..|s.messages|] == s.messages && r.messages[|s.messages|] == m
    ensures r.(messages := s.messages) == s
  {
    s.(messages := s.messages + [m])
  }

  /** `setMessages`: the list is replaced. */
  function SetMessages(s: State, messages: seq<ChatMessage>): (r: State)
    ensures r.messages == messages
    ensures r.(messages := s.messages) == s
  {
    s.(messages := messages)
  }

  /** `clearMessages`: the list becomes empty. */
  function ClearMessages(s: State): (r: State)
    ensures r.messages == []
    ensures r.(messages := s.messages) == s
  {
    s.(messages := [])
  }

  /** `setCurrentConversationId`. */
  function SetCurrentConversationId(s: State, id: Option<string>): (r: State)
    ensures r.currentConversationId == id
    ensures r.(currentConversationId := s.currentConversationId) == s
  {
    s.(currentConversationId := id)
  }

  /** `setTyping`. */
  function SetTyping(s: State, typing: bool): (r: State)
    ensures r.isTyping == typing
    ensures r.(isTyping := s.isTyping) == s
  {
    s.(isTyping := typing)
  }

  /** `setConnected`. */
  function SetConnected(s: State, connected: bool): (r: State)
    ensures r.isConnected == connected
    ensures r.(isConnected := s.isConnected) == s
  {
    s.(isConnected := connected)
  }

  /** `setError`: unlike the other stores, the flags are left alone. */
  function SetError(s: State, error: Option<string>): (r: State)
    ensures r.error == error
    ensures r.(error := s.error) == s
  {
    s.(error := error)
  }

  /** `clearError`. */
  function ClearError(s: State): (r: State)
    ensures r.error == None
    ensures r.(error := s.error) == s
  {
    s.(error := None)
  }

  /** The mapping `updateMessage` applies to each entry. */
  function MergeIfId(id: string, p: Patch): ChatMessage -> ChatMessage {
    (m: ChatMessage) => if m.id == id then Merge(m, p) else m
  }

  /** `updateMessage`: merges the update into the messages with that id, position by position. */
  function UpdateMessage(s: State, id: string, p: Patch): (r: State)
    ensures |r.messages| == |s.messages|
    ensures forall i :: 0 <= i < |s.messages| && s.messages[i].id == id ==> r.messages[i] == Merge(s.messages[i], p)
    ensures forall i :: 0 <= i < |s.messages| && s.messages[i].id != id ==> r.messages[i] == s.messages[i]
    ensures r.(messages := s.messages) == s
  {
    s.(messages := JsArray.Map(s.messages, MergeIfId(id, p)))
  }

  /** The test `removeMessage` filters with. */
  function KeepUnless(id: string): ChatMessage -> bool {
    (m: ChatMessage) => m.id != id
  }

  /** `removeMessage`: drops every message with that id and keeps the rest. */
  function RemoveMessage(s: State, id: string): (r: State)
    ensures forall i :: 0 <= i < |r.messages| ==> r.messages[i].id != id && r.messages[i] in s.messages
    ensures forall i :: 0 <= i < |s.messages| && s.messages[i].id != id ==> s.messages[i] in r.messages
    ensures r.(messages := s.messages) == s
  {
    s.(messages := JsArray.Filter(s.messages, KeepUnless(id)))
  }

  /**
   * Removing a message just appended takes it off the end again, provided
   * no earlier message shares its id.
   */
  lemma AddThenRemove(s: State, m: ChatMessage)
    requires forall i :: 0 <= i < |s.messages| ==> s.messages[i].id != m.id
    ensures RemoveMessage(AddMessage(s, m), m.id) == s
  {
    JsArray.FilterConcat(s.messages, [m], KeepUnless(m.id));
    JsArray.FilterKeepsAll(s.messages, KeepUnless(m.id));
  }

  /** Removal keeps the relative order of the survivors. */
  lemma RemoveKeepsOrder(s: State, id: string, front: seq<ChatMessage>, back: seq<ChatMessage>)
    requires s.messages == front + back
    ensures RemoveMessage(s, id).messages ==
      RemoveMessage(s.(messages := front), id).messages + RemoveMessage(s.(messages := back), id).messages
  {
    JsArray.FilterConcat(front, back, KeepUnless(id));
  }

  /** Updating a message and then removing it is the same as removing it. */
  lemma UpdateThenRemove(s: State, id: string, p: Patch)
    requires p.id.None?
    ensures RemoveMessage(UpdateMessage(s, id, p), id) == RemoveMessage(s, id)
  {
    UpdateRemoveList(s.messages, id, p);
  }

  lemma {:induction false} UpdateRemoveList(ms: seq<ChatMessage>, id: string, p: Patch)
    requires p.id.None?
    ensures JsArray.Filter(JsArray.Map(ms, MergeIfId(id, p)), KeepUnless(id)) == JsArray.Filter(ms, KeepUnless(id))
  {
    if ms != [] {
      UpdateRemoveList(ms[1..], id, p);
      var mapped := JsArray.Map(ms, MergeIfId(id, p));
      assert mapped[1..] == JsArray.Map(ms[1..], MergeIfId(id, p));
      assert mapped[0].id == ms[0].id;
    }
  }
}
