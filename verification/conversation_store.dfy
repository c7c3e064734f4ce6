/**
 * `store/conversationStore.ts`: the conversation list of the frontend.
 * Every action builds a new state from the old one, so each is a function
 * from state (and arguments) to state.
 */
module ConversationStore {
  import opened Base
  import JsArray

  datatype Conversation = Conversation(
    id: string, title: string, created_at: string, updated_at: string,
    message_count: Option<int>, last_message: Option<string>)

  /** A `Partial<Conversation>`: `Some` for each key the update carries. */
  datatype Patch = Patch(
    id: Option<string>, title: Option<string>, created_at: Option<string>, updated_at: Option<string>,
    message_count: Option<int>, last_message: Option<string>)

  const NoChange := Patch(None, None, None, None, None, None)

  datatype State = State(
    conversations: seq<Conversation>, currentConversationId: Option<string>,
    isLoading: bool, error: Option<string>)

  /** The state the store is created with. */
  const Initial := State([], None, false, None)

  /** The field after a spread: the update's value when it carries the key. */
  function Pick<T>(update: Option<T>, current: T): T {
    if update.Some? then update.value else current
  }

  /** `{ ...conv, ...updates }`. */
  function Merge(c: Conversation, p: Patch): Conversation {
    Conversation(
      Pick(p.id, c.id), Pick(p.title, c.title), Pick(p.created_at, c.created_at),
      Pick(p.updated_at, c.updated_at),
      if p.message_count.Some? then p.message_count else c.message_count,
      if p.last_message.Some? then p.last_message else c.last_message)
  }

  /** One update after another: the later one wins on every key both carry. */
  function Then(p: Patch, q: Patch): Patch {
    Patch(
      if q.id.Some? then q.id else p.id,
      if q.title.Some? then q.title else p.title,
      if q.created_at.Some? then q.created_at else p.created_at,
      if q.updated_at.Some? then q.updated_at else p.updated_at,
      if q.message_count.Some? then q.message_count else p.message_count,
      if q.last_message.Some? then q.last_message else p.last_message)
  }

  /** An empty update leaves a conversation as it is; repeating an update changes nothing more; two merges are one merge of the combined update. */
  lemma MergeLaws(c: Conversation, p: Patch, q: Patch)
    ensures Merge(c, NoChange) == c
    ensures Merge(Merge(c, p), p) == Merge(c, p)
    ensures Merge(Merge(c, p), q) == Merge(c, Then(p, q))
  {
  }

  /** `setConversations`: the list is replaced, nothing else changes. */
  function SetConversations(s: State, conversations: seq<Conversation>): (r: State)
    ensures r.conversations == conversations
    ensures r.(conversations := s.conversations) == s
  {
    s.(conversations := conversations)
  }

  /** `addConversation`: the new conversation goes first, the others keep their order. */
  function AddConversation(s: State, c: Conversation): (r: State)
    ensures |r.conversations| == |s.conversations| + 1
    ensures r.conversations[0] == c && r.conversations[1..] == s.conversations
    ensures r.(conversations := s.conversations) == s
  {
    s.(conversations := [c] + s.conversations)
  }

  /** The test `removeConversation` filters with. */
  function KeepUnless(id: string): Conversation -> bool {
    (c: Conversation) => c.id != id
  }

  /**
   * `removeConversation`: drops every conversation with that id and clears
   * the current selection exactly when it was that id.
   */
  function RemoveConversation(s: State, id: string): (r: State)
    ensures forall i :: 0 <= i < |r.conversations| ==> r.conversations[i].id != id && r.conversations[i] in s.conversations
    ensures forall i :: 0 <= i < |s.conversations| && s.conversations[i].id != id ==> s.conversations[i] in r.conversations
    ensures r.currentConversationId == None <==> s.currentConversationId == None || s.currentConversationId == Some(id)
    ensures r.currentConversationId != None ==> r.currentConversationId == s.currentConversationId
    ensures r.isLoading == s.isLoading && r.error == s.error
  {
    s.(conversations := JsArray.Filter(s.conversations, KeepUnless(id)),
       currentConversationId := if s.currentConversationId == Some(id) then None else s.currentConversationId)
  }

  /** Removing an id no conversation has leaves the list as it is. */
  lemma RemoveUnknownKeepsList(s: State, id: string)
    requires forall i :: 0 <= i < |s.conversations| ==> s.conversations[i].id != id
    ensures RemoveConversation(s, id).conversations == s.conversations
  {
    JsArray.FilterKeepsAll(s.conversations, KeepUnless(id));
  }

  /** Removing the id of a conversation just added removes it and whatever else had that id, in order. */
  lemma AddThenRemove(s: State, c: Conversation)
    ensures RemoveConversation(AddConversation(s, c), c.id).conversations == RemoveConversation(s, c.id).conversations
  {
    JsArray.FilterConcat([c], s.conversations, KeepUnless(c.id));
  }

  /** Removal keeps the relative order of the survivors: it commutes with splitting the list. */
  lemma RemoveKeepsOrder(s: State, id: string, front: seq<Conversation>, back: seq<Conversation>)
    requires s.conversations == front + back
    ensures RemoveConversation(s, id).conversations ==
      RemoveConversation(s.(conversations := front), id).conversations + RemoveConversation(s.(conversations := back), id).conversations
  {
    JsArray.FilterConcat(front, back, KeepUnless(id));
  }

  /** `setCurrentConversation`: only the selection changes. */
  function SetCurrentConversation(s: State, id: Option<string>): (r: State)
    ensures r.currentConversationId == id
    ensures r.(currentConversationId := s.currentConversationId) == s
  {
    s.(currentConversationId := id)
  }

  /** The mapping `updateConversation` applies to each entry. */
  function MergeIfId(id: string, p: Patch): Conversation -> Conversation {
    (c: Conversation) => if c.id == id then Merge(c, p) else c
  }

  /** `updateConversation`: merges the update into the entries with that id, position by position. */
  function UpdateConversation(s: State, id: string, p: Patch): (r: State)
    ensures |r.conversations| == |s.conversations|
    ensures forall i :: 0 <= i < |s.conversations| && s.conversations[i].id == id ==>
      r.conversations[i] == Merge(s.conversations[i], p)
    ensures forall i :: 0 <= i < |s.conversations| && s.conversations[i].id != id ==>
      r.conversations[i] == s.conversations[i]
    ensures r.(conversations := s.conversations) == s
  {
    s.(conversations := JsArray.Map(s.conversations, MergeIfId(id, p)))
  }

  /** An update to an unknown id, or an empty update, leaves the state as it is. */
  lemma UpdateNoop(s: State, id: string, p: Patch)
    requires p == NoChange || forall i :: 0 <= i < |s.conversations| ==> s.conversations[i].id != id
    ensures UpdateConversation(s, id, p) == s
  {
    var r := UpdateConversation(s, id, p);
    assert r.conversations == s.conversations by {
      forall i | 0 <= i < |s.conversations| ensures r.conversations[i] == s.conversations[i] {
        MergeLaws(s.conversations[i], p, p);
      }
    }
  }

  /** `setLoading`. */
  function SetLoading(s: State, loading: bool): (r: State)
    ensures r.isLoading == loading
    ensures r.(isLoading := s.isLoading) == s
  {
    s.(isLoading := loading)
  }

  /** `setError`: records the error and ends loading. */
  function SetError(s: State, error: Option<string>): (r: State)
    ensures r.error == error && !r.isLoading
    ensures r.conversations == s.conversations && r.currentConversationId == s.currentConversationId
  {
    s.(error := error, isLoading := false)
  }

  /** `clearError`: only the error changes, so a loading flag set by `setError` stays off. */
  function ClearError(s: State): (r: State)
    ensures r.error == None
    ensures r.(error := s.error) == s
  {
    s.(error := None)
  }

  /** Clearing after setting an error restores everything but the loading flag. */
  lemma SetThenClearError(s: State, error: Option<string>)
    ensures ClearError(SetError(s, error)) == s.(error := None, isLoading := false)
  {
  }
}
