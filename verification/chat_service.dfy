/**
 * `services/chat_service.go`: storing and paging chat messages and chat
 * sessions. The database is abstracted: a query's matching rows, in the
 * order the query asks for, and the outcome of a write are inputs, and a
 * page of rows is the slice `LIMIT`/`OFFSET` selects.
 */
module ChatService {
  import opened Base
  import opened Models
  import UpdateMaps

  /**
   * The pagination clamp the service applies: a limit in `1..max` is kept,
   * anything else becomes `fallback`.
   */
  function ClampLimit(limit: int, max: nat, fallback: nat): (r: nat)
    requires 1 <= fallback <= max
    ensures 1 <= r <= max
    ensures 1 <= limit <= max ==> r == limit
    ensures !(1 <= limit <= max) ==> r == fallback
  {
    if limit <= 0 || limit > max then fallback else limit
  }

  /** A clamped limit passes the same clamp unchanged. */
  lemma ClampLimitIdempotent(limit: int, max: nat, fallback: nat)
    requires 1 <= fallback <= max
    ensures ClampLimit(ClampLimit(limit, max, fallback), max, fallback) == ClampLimit(limit, max, fallback)
  {
  }

  function HistoryLimit(limit: int): nat { ClampLimit(limit, 100, 50) }
  function RecentLimit(limit: int): nat { ClampLimit(limit, 50, 10) }
  function SessionsLimit(limit: int): nat { ClampLimit(limit, 100, 20) }
  function ConversationLimit(limit: int): nat { ClampLimit(limit, 200, 50) }

  /** `GetOneConversationHistory`'s offset clamp: a negative offset becomes 0. */
  function ConversationOffset(offset: int): (r: nat)
    ensures offset >= 0 ==> r == offset
    ensures offset < 0 ==> r == 0
  {
    if offset < 0 then 0 else offset
  }

  /**
   * The rows a query with `LIMIT limit OFFSET offset` returns: at most
   * `limit` consecutive rows starting at `offset`. A negative offset adds
   * no `OFFSET` clause.
   */
  function Page<T>(rows: seq<T>, limit: nat, offset: int): (r: seq<T>)
    ensures |r| <= limit && |r| <= |rows|
    ensures 0 <= offset <= |rows| ==>
      r == rows[offset..if offset + limit <= |rows| then offset + limit else |rows|]
    ensures offset < 0 ==> r == rows[..if limit <= |rows| then limit else |rows|]
    ensures offset >= |rows| ==> r == []
  {
    var start := if offset < 0 then 0 else if offset > |rows| then |rows| else offset;
    var end := if start + limit > |rows| then |rows| else start + limit;
    rows[start..end]
  }

  /** The reverse of a sequence: its last element first. */
  function Reversed<T>(s: seq<T>): seq<T> {
    if s == [] then [] else Reversed(s[1..]) + [s[0]]
  }

  lemma {:induction false} ReversedIndex<T>(s: seq<T>)
    ensures |Reversed(s)| == |s|
    ensures forall i :: 0 <= i < |s| ==> Reversed(s)[i] == s[|s| - 1 - i]
  {
    if s != [] {
      ReversedIndex(s[1..]);
    }
  }

  /** Reversing twice gives back the original sequence. */
  lemma ReversedInvolution<T>(s: seq<T>)
    ensures Reversed(Reversed(s)) == s
  {
    ReversedIndex(s);
    ReversedIndex(Reversed(s));
  }

  /** Reversal keeps every element, with its multiplicity. */
  lemma {:induction false} ReversedMultiset<T>(s: seq<T>)
    ensures multiset(Reversed(s)) == multiset(s)
  {
    if s != [] {
      ReversedMultiset(s[1..]);
      assert s == [s[0]] + s[1..];
    }
  }

  /** The two-pointer swap loop that turns a newest-first page oldest-first. */
  method ReverseInPlace<T>(a: array<T>)
    modifies a
    ensures a[..] == Reversed(old(a[..]))
  {
    var i, j := 0, a.Length - 1;
    while i < j
      invariant 0 <= i <= a.Length && i + j == a.Length - 1
      invariant forall k :: 0 <= k < i ==> a[k] == old(a[a.Length - 1 - k]) && a[a.Length - 1 - k] == old(a[k])
      invariant forall k :: i <= k <= j ==> a[k] == old(a[k])
    {
      a[i], a[j] := a[j], a[i];
      i, j := i + 1, j - 1;
    }
    ReversedIndex(old(a[..]));
  }

  /**
   * `SendMessage`: empty content is refused before anything is stored;
   * otherwise the new message is inserted and returned.
   */
  function SendMessage(userID: Uuid, conversationID: Uuid, content: string, role: string,
                       messageID: Uuid, insertError: Option<string>): (r: Result<ChatMessage>)
    ensures content == "" ==> r == Err("消息内容不能为空")
    ensures content != "" && insertError.Some? ==> r == Err("消息保存失败")
    ensures r.Ok? <==> content != "" && insertError.None?
    ensures r.Ok? ==> r.value == ChatMessage(userID, conversationID, content, role, messageID)
  {
    if content == "" then Err("消息内容不能为空")
    else if insertError.Some? then Err("消息保存失败")
    else Ok(ChatMessage(userID, conversationID, content, role, messageID))
  }

  /** Turns a page into a new array, reverses it in place and returns its contents. */
  method ReversedPage(page: seq<ChatMessage>) returns (messages: seq<ChatMessage>)
    ensures messages == Reversed(page)
  {
    var a := new ChatMessage[|page|](i requires 0 <= i < |page| => page[i]);
    assert a[..] == page;
    ReverseInPlace(a);
    messages := a[..];
  }

  /**
   * `GetChatHistory`: `rows` are the user's messages newest first; the
   * clamped page of them is returned oldest first.
   */
  method GetChatHistory(rows: seq<ChatMessage>, queryError: Option<string>, limit: int, offset: int)
    returns (r: Result<seq<ChatMessage>>)
    ensures queryError.Some? ==> r == Err("获取聊天历史失败")
    ensures queryError.None? ==> r == Ok(Reversed(Page(rows, HistoryLimit(limit), offset)))
  {
    if queryError.Some? {
      return Err("获取聊天历史失败");
    }
    var messages := ReversedPage(Page(rows, HistoryLimit(limit), offset));
    return Ok(messages);
  }

  /**
   * `GetRecentMessages`: `rows` are the conversation's messages newest
   * first; the newest `RecentLimit(limit)` of them are returned oldest first.
   */
  method GetRecentMessages(rows: seq<ChatMessage>, queryError: Option<string>, limit: int)
    returns (r: Result<seq<ChatMessage>>)
    ensures queryError.Some? ==> r == Err("获取最近消息失败")
    ensures queryError.None? ==> r == Ok(Reversed(Page(rows, RecentLimit(limit), 0)))
  {
    if queryError.Some? {
      return Err("获取最近消息失败");
    }
    var messages := ReversedPage(Page(rows, RecentLimit(limit), 0));
    return Ok(messages);
  }

  /** The most recent messages come back as the last of the page, newest last. */
  lemma RecentMessagesOrder(rows: seq<ChatMessage>, limit: int)
    requires |rows| >= RecentLimit(limit)
    ensures var page := Reversed(Page(rows, RecentLimit(limit), 0));
      |page| == RecentLimit(limit) && page[|page| - 1] == rows[0] && page[0] == rows[RecentLimit(limit) - 1]
  {
    ReversedIndex(Page(rows, RecentLimit(limit), 0));
  }

  /**
   * The error check shared by the writes that must touch a row: a database
   * error first, then zero affected rows as "not found or not yours".
   */
  function CheckWrite(result: DbResult, failure: string, missing: string): (err: Option<string>)
    ensures result.error.Some? ==> err == Some(failure)
    ensures result.error.None? && result.rowsAffected == 0 ==> err == Some(missing)
    ensures err == None <==> result.error.None? && result.rowsAffected > 0
  {
    if result.error.Some? then Some(failure)
    else if result.rowsAffected == 0 then Some(missing)
    else None
  }

  /** `DeleteMessage`, given the outcome of the delete restricted to the caller's messages. */
  function DeleteMessage(result: DbResult): (err: Option<string>)
    ensures err == None <==> result.error.None? && result.rowsAffected > 0
    ensures result.error.None? && result.rowsAffected == 0 ==> err == Some("消息不存在或无权删除")
  {
    CheckWrite(result, "删除消息失败", "消息不存在或无权删除")
  }

  /** `ClearHistory`: deleting none of the caller's messages is not an error. */
  function ClearHistory(deleteError: Option<string>): (err: Option<string>)
    ensures err == None <==> deleteError == None
    ensures err.Some? ==> err.value == "清空聊天历史失败"
  {
    if deleteError.Some? then Some("清空聊天历史失败") else None
  }

  /** The title of a new session: the given one, or "新的聊天" followed by the time stamp. */
  function SessionTitle(title: string, stamp: string): (r: string)
    ensures title != "" ==> r == title
    ensures title == "" ==> r == "新的聊天" + stamp
    ensures r != ""
  {
    if title == "" then "新的聊天" + stamp else title
  }

  /**
   * `CreateChatSession`. The fresh session ID and the `01-02 15:04` time
   * stamp are parameters.
   */
  function CreateChatSession(userID: Uuid, title: string, sessionID: Uuid, stamp: string,
                             insertError: Option<string>): (r: Result<ChatSession>)
    ensures r.Ok? <==> insertError.None?
    ensures r.Err? ==> r.error == "创建聊天会话失败"
    ensures r.Ok? ==> (r.value.IsActive && r.value.Title != "" && r.value.Description == ""
      && r.value.ID == sessionID && r.value.UserID == userID
      && r.value.Title == SessionTitle(title, stamp))
  {
    if insertError.Some? then Err("创建聊天会话失败")
    else Ok(ChatSession(sessionID, userID, SessionTitle(title, stamp), "", true))
  }

  /** `GetChatSessions`: `rows` are the user's active sessions, most recently updated first. */
  function GetChatSessions(rows: seq<ChatSession>, queryError: Option<string>, limit: int, offset: int)
    : (r: Result<seq<ChatSession>>)
    ensures queryError.Some? <==> r == Err("获取聊天会话列表失败")
    ensures queryError.None? ==> r == Ok(Page(rows, SessionsLimit(limit), offset))
    ensures r.Ok? ==> |r.value| <= 100 && (1 <= limit <= 100 ==> |r.value| <= limit)
    ensures r.Ok? && !(1 <= limit <= 100) ==> |r.value| <= 20
    ensures r.Ok? && 0 <= offset && offset + SessionsLimit(limit) <= |rows| ==>
      r.value == rows[offset..offset + SessionsLimit(limit)]
  {
    if queryError.Some? then Err("获取聊天会话列表失败")
    else Ok(Page(rows, SessionsLimit(limit), offset))
  }

  /** The fields a session update may change. */
  const SessionFields: set<string> := {"title", "description"}

  /**
   * `UpdateChatSession`: filters the update map and, when something is
   * left, issues the update and checks it. `issued` is the map sent to the
   * database, if any; `result` is that write's outcome.
   */
  method UpdateChatSession<V>(updates: map<string, V>, result: DbResult)
    returns (issued: Option<map<string, V>>, err: Option<string>)
    ensures issued.None? <==> updates.Keys * SessionFields == {}
    ensures issued.Some? ==> (issued.value == UpdateMaps.Whitelisted(updates, SessionFields)
      && issued.value != map[])
    ensures issued.None? ==> err == Some("没有有效的更新字段")
    ensures issued.Some? ==> err == CheckWrite(result, "更新聊天会话失败", "会话不存在或无权修改")
  {
    var filtered := UpdateMaps.FilterUpdates(updates, SessionFields);
    UpdateMaps.WhitelistedEmptyIff(updates, SessionFields);
    if |filtered| == 0 {
      return None, Some("没有有效的更新字段");
    }
    issued := Some(filtered);
    err := CheckWrite(result, "更新聊天会话失败", "会话不存在或无权修改");
  }

  /** `DeleteChatSession`: a soft delete that clears `is_active` on the caller's session. */
  function DeleteChatSession(result: DbResult): (err: Option<string>)
    ensures err == None <==> result.error.None? && result.rowsAffected > 0
    ensures result.error.None? && result.rowsAffected == 0 ==> err == Some("会话不存在或无权删除")
  {
    CheckWrite(result, "删除聊天会话失败", "会话不存在或无权删除")
  }

  /**
   * `GetOneConversationHistory`: `rows` are the conversation's messages
   * oldest first; the clamped page is returned as is.
   */
  function GetOneConversationHistory(rows: seq<ChatMessage>, queryError: Option<string>, limit: int, offset: int)
    : (r: Result<seq<ChatMessage>>)
    ensures queryError.Some? <==> r == Err("获取对话历史失败")
    ensures queryError.None? ==> r == Ok(Page(rows, ConversationLimit(limit), ConversationOffset(offset)))
    ensures r.Ok? ==> |r.value| <= 200
    ensures r.Ok? && offset < 0 ==> r.value == Page(rows, ConversationLimit(limit), 0)
    ensures r.Ok? && 0 <= offset && offset + ConversationLimit(limit) <= |rows| ==>
      r.value == rows[offset..offset + ConversationLimit(limit)]
  {
    if queryError.Some? then Err("获取对话历史失败")
    else Ok(Page(rows, ConversationLimit(limit), ConversationOffset(offset)))
  }
}
