# Chat backend and frontend state, modelled in Dafny

This project models a chat service. Its backend is written in Go and its
browser client in TypeScript. At the centre is the WebSocket **hub**. The hub
keeps two tables:

- the set of live client sessions;
- for each user, the list of that user's sessions, in the order they registered.

Every session has a bounded mailbox of 256 frames, and the mailbox can be
closed. The hub registers and unregisters sessions, broadcasts to every
session, and sends to every session of one user. A session whose mailbox is
full gets evicted.

Around the hub the model covers:

- the request validators and string helpers;
- the JWT middleware's choice of token source;
- configuration read from the environment;
- the chat and user services, which clamp pagination, reverse query results
  in place, and whitelist the keys of update maps;
- the HTTP handlers' normalisation and check order;
- assembling the request for the language model and extracting its answer;
- the vector store client.

On the frontend side it covers:

- the three zustand stores;
- the WebSocket client's reconnect state machine;
- the profile form's validation rule.

Every module is sequential. Database queries, HTTP exchanges, password
hashing and token parsing are never executed. Their results are parameters:

- query rows come in the order the query asks for, with an optional query error;
- writes return an error or a count of affected rows;
- HTTP exchanges are a transport error, or a status with a decoded body;
- bcrypt and JWT are functions passed in.

Wall-clock time and generated IDs are also parameters.

The hub is modelled as the code behaves, including two consequences of how
it sends:

- **Half eviction.** On a full mailbox, `SendToUser` and broadcast close the
  mailbox and delete the session from `clients` only, under the comment that
  a failed send closes the connection (`websocket/hub.go` lines 97-101 and
  124-128). The session stays in its user's list in `userClients`. A later
  `unregister` of that session finds it absent from `clients` and does
  nothing (line 69), so the user's entry lingers. A later `SendToUser` to that
  user meets the closed mailbox. In Go, a send on a closed channel panics,
  and the model returns that as `Panicked(at)`. `Hub.HalfEvictionScenario`
  walks through the whole sequence.
- **Blocking welcome.** The welcome message is a plain blocking
  `client.send <- data` (lines 63-65), not a `select` with a `default`.
  `Hub.Hub.Register` therefore requires the mailbox to have room; a fresh
  session's empty mailbox always has room.

One other behaviour is reproduced as written. When the collection lookup in
`InitCollection` fails, the error the code returns wraps the earlier `err`
variable. That variable is always nil at that point, so Go formats it as
`%!w(<nil>)` and the lookup's own cause is lost.

Strings are sequences of characters. For the Go code each character stands
for one byte; for the TypeScript code, one UTF-16 code unit.

## Model

| member | source | states |
|---|---|---|
| Hub.Marshal | gobtgemini/demo/go-chat-backend/websocket/hub.go:110-113 | encoding succeeds exactly on values with nothing unencodable, and the payload is the value encoded |
| Hub.MessageEncodable | gobtgemini/demo/go-chat-backend/websocket/hub.go:167-174 | a hub message encodes exactly when its optional `data` encodes |
| Hub.ServerMessageMarshals | gobtgemini/demo/go-chat-backend/websocket/hub.go:58-63 | a server message (welcome, pong) always encodes, so the marshal guard before the welcome and pong sends never skips them |
| Hub.Dispatch | gobtgemini/demo/go-chat-backend/websocket/hub.go:262-283 | `ping` gets a pong reply and `chat` is logged; every other type is warned about |
| Hub.Stamp | gobtgemini/demo/go-chat-backend/websocket/hub.go:257-259 | an inbound message gets the session's user ID, username and arrival time; its type, content and data are kept |
| Hub.Client.constructor | gobtgemini/demo/go-chat-backend/websocket/hub.go:214-221 | a new session has an empty, open mailbox |
| Hub.Client.Push | gobtgemini/demo/go-chat-backend/websocket/hub.go:64 | a blocking send onto an open mailbox with room appends the payload at the tail |
| Hub.Client.Offer | gobtgemini/demo/go-chat-backend/websocket/hub.go:97-99 | the non-blocking send appends exactly when the mailbox has room, and changes nothing otherwise |
| Hub.Client.Close | gobtgemini/demo/go-chat-backend/websocket/hub.go:71 | closing marks the mailbox closed and keeps its queued frames; the mailbox must still be open |
| Hub.Client.Receive | gobtgemini/demo/go-chat-backend/websocket/hub.go:297-304 | the writer takes the oldest frame; a drained, closed mailbox gives nothing (FIFO) |
| Hub.Client.HandleInbound | gobtgemini/demo/go-chat-backend/websocket/hub.go:256-283 | `ping` enqueues exactly one pong into the session's own mailbox, or panics when the mailbox is closed; other types enqueue nothing; the message is stamped |
| Hub.RemoveFirstCount | gobtgemini/demo/go-chat-backend/websocket/hub.go:75-80 | the splice takes exactly one occurrence of the client out of the list, and nothing when it is absent |
| Hub.RemoveFirstAt | gobtgemini/demo/go-chat-backend/websocket/hub.go:75-78 | splicing at the first matching index is removing the first occurrence |
| Hub.SpliceDistinct | gobtgemini/demo/go-chat-backend/websocket/hub.go:77 | in a duplicate-free list the splice removes every trace of the client and keeps the rest duplicate-free |
| Hub.Hub.constructor | gobtgemini/demo/go-chat-backend/websocket/hub.go:33-41 | a new hub has both tables empty |
| Hub.Hub.Register | gobtgemini/demo/go-chat-backend/websocket/hub.go:47-65 | the client joins the live set and is appended at the end of its user's list, which is created when absent; exactly one welcome frame is queued; the hub invariant is kept |
| Hub.Hub.Unregister | gobtgemini/demo/go-chat-backend/websocket/hub.go:67-92 | a live client leaves the live set, its mailbox is closed and its first occurrence leaves its user's list, and the user key goes when the list empties; for a client not live, nothing changes (so unregistering twice is unregistering once) |
| Hub.Hub.Deliver | gobtgemini/demo/go-chat-backend/websocket/hub.go:97-101 | push or evict: the payload is appended when there is room, or else the mailbox is closed and the client leaves the live set only; the user lists are untouched |
| Hub.Hub.Broadcast | gobtgemini/demo/go-chat-backend/websocket/hub.go:94-103 | every live client is served by push-or-evict; the user lists are untouched, and the live set only shrinks |
| Hub.Hub.BroadcastMessage | gobtgemini/demo/go-chat-backend/websocket/hub.go:136-144 | a marshal error is returned before any mailbox is touched; otherwise the broadcast runs on the encoded message |
| Hub.Hub.SendToUser | gobtgemini/demo/go-chat-backend/websocket/hub.go:109-133 | a marshal error comes back first with nothing changed; a user with no entry or an empty list gets nil with nothing changed; otherwise each listed client in order is served push-or-evict, and the first closed mailbox met is a panic at that position, after the clients before it were served; the user lists are never touched |
| Hub.Hub.ConnectedUsersCoverConnections | gobtgemini/demo/go-chat-backend/websocket/hub.go:147-154 | every live client's user has an entry, so a non-zero `GetTotalConnections` (the live clients) means a non-zero `GetConnectedUsers` (the users with an entry) |
| Hub.HalfEvictionScenario | gobtgemini/demo/go-chat-backend/websocket/hub.go:69 | one session, its mailbox overfilled, then unregistered: 1 connected user and 0 connections remain, and the next `SendToUser` panics at the first listed client |
| Hub.TwoSessionsScenario | gobtgemini/demo/go-chat-backend/websocket/hub.go:83-85 | with two sessions of one user, unregistering one leaves 1 user and 1 connection, and unregistering both leaves none |
| Hub.SingleSession | gobtgemini/demo/go-chat-backend/websocket/hub.go:47-65 | registering one session into a new hub gives exactly that session, listed under its user, with one frame queued |
| Hub.FillMailbox | gobtgemini/demo/go-chat-backend/websocket/hub.go:122-130 | sending to the single session until its mailbox holds 256 frames keeps it live and open |
| Hub.Overflow | gobtgemini/demo/go-chat-backend/websocket/hub.go:124-128 | one more send to the full mailbox closes it and empties the live set, but the session stays listed under its user |
| Hub.TwoSessions | gobtgemini/demo/go-chat-backend/websocket/hub.go:50 | two sessions of one user are listed in registration order |
| UtilsAuth.Contains | gobtgemini/demo/go-chat-backend/utils/auth.go:97-104 | the index-by-index scan returns true exactly when the pattern occurs somewhere |
| UtilsAuth.LongerNeverContained | gobtgemini/demo/go-chat-backend/utils/auth.go:98 | a pattern longer than the text is never found |
| UtilsAuth.EmptyAlwaysContained | gobtgemini/demo/go-chat-backend/utils/auth.go:98-100 | the empty pattern is always found |
| UtilsAuth.SingleByteContained | gobtgemini/demo/go-chat-backend/utils/auth.go:97-104 | a one-byte pattern is found exactly when that byte occurs |
| UtilsAuth.ValidateEmail | gobtgemini/demo/go-chat-backend/utils/auth.go:79-85 | an email is accepted exactly when its length is 6..254 and it holds `@` and `.` anywhere |
| UtilsAuth.NoLocalPartAccepted | gobtgemini/demo/go-chat-backend/utils/auth.go:79-85 | `@domain.com` is accepted: positions are not checked |
| UtilsAuth.NoDotRefused | gobtgemini/demo/go-chat-backend/utils/auth.go:84 | an address without a dot is refused at any length |
| UtilsAuth.LengthsCountBytes | gobtgemini/demo/go-chat-backend/utils/auth.go:88-95 | `ValidateUsername` and `ValidatePassword` bound bytes, not characters: `k` three-byte characters make a valid username only for k ≤ 16 and a valid password only for 2 ≤ k ≤ 42 |
| UtilsCommon.Escape | gobtgemini/demo/go-chat-backend/utils/common.go:100-106 | `<`, `>`, `&`, `"` and `'` become `&lt;`, `&gt;`, `&amp;`, `&quot;` and `&#39;`, and every other byte is copied; no entity contains `<`, `>`, `"` or `'` |
| UtilsCommon.SanitizeConcat | gobtgemini/demo/go-chat-backend/utils/common.go:98-108 | `SanitizeString` escapes byte by byte, so it distributes over concatenation |
| UtilsCommon.SanitizeRemovesMarkup | gobtgemini/demo/go-chat-backend/utils/common.go:100-106 | the output contains no `<`, `>`, `"` or `'` |
| UtilsCommon.SanitizeNeverShrinks | gobtgemini/demo/go-chat-backend/utils/common.go:98-108 | the output is never shorter than the input |
| UtilsCommon.SanitizeIdentityIff | gobtgemini/demo/go-chat-backend/utils/common.go:98-108 | the output equals the input exactly when the input has none of the five special bytes |
| UtilsCommon.SanitizeSinglePass | gobtgemini/demo/go-chat-backend/utils/common.go:100-107 | one pass only: `<` becomes exactly `&lt;`, and `&lt;` becomes `&amp;lt;` |
| UtilsCommon.TruncateString | gobtgemini/demo/go-chat-backend/utils/common.go:111-116 | an input that fits is returned as is; otherwise the result is the first `maxLength` bytes plus `...`, of length `maxLength+3`; a negative `maxLength` panics |
| UtilsCommon.IsValidUUID | gobtgemini/demo/go-chat-backend/utils/common.go:127-130 | an ID is accepted exactly when it has 36 bytes of which exactly four are dashes |
| UtilsCommon.DashesAnywhere | gobtgemini/demo/go-chat-backend/utils/common.go:129 | dash positions are not checked: four leading dashes and 32 other bytes pass |
| UtilsCommon.NilUuidValid | gobtgemini/demo/go-chat-backend/utils/common.go:129 | the canonical nil UUID passes |
| UtilsCommon.FormatError | gobtgemini/demo/go-chat-backend/utils/common.go:119-124 | a nil error gives the empty string, and any other error gives `context: message` |
| GoStrings.TrimLeft | gobtgemini/demo/go-chat-backend/handlers/chat_handler.go:91 | the result is a suffix of the input, everything dropped is whitespace, and it does not start with whitespace |
| GoStrings.TrimRight | gobtgemini/demo/go-chat-backend/handlers/chat_handler.go:91 | the result is a prefix of the input, everything dropped is whitespace, and it does not end with whitespace |
| GoStrings.TrimSpace | gobtgemini/demo/go-chat-backend/handlers/chat_handler.go:91 | the result is a slice of the input with no whitespace at either end, and everything dropped before and after it is whitespace |
| GoStrings.TrimSpaceEmptyIff | gobtgemini/demo/go-chat-backend/handlers/chat_handler.go:91-98 | trimming yields "" exactly for all-whitespace content, which is what the empty-message check refuses |
| GoStrings.TrimSpaceIdempotent | gobtgemini/demo/go-chat-backend/handlers/auth_handler.go:66 | trimming twice is trimming once |
| GoStrings.LowerByte | gobtgemini/demo/go-chat-backend/handlers/auth_handler.go:67 | only `A`..`Z` change, each to its lower-case letter |
| GoStrings.ToLower | gobtgemini/demo/go-chat-backend/handlers/auth_handler.go:67 | lower-casing keeps the length and lowers each byte |
| GoStrings.ToLowerIdempotent | gobtgemini/demo/go-chat-backend/handlers/auth_handler.go:67 | the result is lower-case, and lowering again changes nothing |
| GoStrings.LowerUnchanged | gobtgemini/demo/go-chat-backend/handlers/auth_handler.go:67 | a lower-case string is its own lower-casing |
| GoStrings.TrimSpaceKeepsLower | gobtgemini/demo/go-chat-backend/handlers/auth_handler.go:67 | trimming keeps a string lower-case |
| GoStrings.TrimPrefix | gobtgemini/demo/go-chat-backend/middleware/auth.go:31 | with the prefix present, prefix plus result is the input; otherwise the input is returned |
| GoStrings.RuneCount | gobtgemini/demo/go-chat-backend/handlers/auth_handler.go:29-31 | the character count the binding tags compare is at most the byte count, and equals it on ASCII text |
| GoStrings.JoinConcat | gobtgemini/demo/go-chat-backend/handlers/chat_handler.go:155 | joining two non-empty lists of parts one after the other puts exactly one separator between them, so `Join` (which gives "" for no parts and the part itself for one) puts the separator between every two consecutive parts |
| GoStrings.CountByte | gobtgemini/demo/go-chat-backend/utils/common.go:129 | the count is the number of occurrences of the byte (its multiplicity in the string), at most the length, and zero exactly when the byte is absent |
| Strconv.Atoi | gobtgemini/demo/go-chat-backend/config/config.go:76 | parsing succeeds exactly on an optional sign followed by digits whose value is in the 64-bit range, and yields that value |
| Strconv.ParseBool | gobtgemini/demo/go-chat-backend/config/config.go:86 | the six true spellings give true and the six false spellings give false |
| Strconv.Digits | gobtgemini/demo/go-chat-backend/websocket/hub.go:110 | the decimal digits of a natural number form a non-empty digit string without leading zeros: it starts with `0` only for 0, and is one digit long exactly below 10 |
| Strconv.Itoa | gobtgemini/demo/go-chat-backend/services/chroma_service.go:226 | `%d` of an integer is decimal syntax whose signed value is that integer, with a minus sign exactly for negative integers |
| Strconv.DigitsValue | gobtgemini/demo/go-chat-backend/services/chroma_service.go:226 | the digits of `n` read back as `n` |
| Strconv.ItoaAtoiRoundTrip | gobtgemini/demo/go-chat-backend/services/chroma_service.go:226 | formatting a 64-bit integer with `%d` and parsing it with `Atoi` gives the integer back |
| Config.GetString | gobtgemini/demo/go-chat-backend/config/config.go:66-71 | a set, non-empty variable wins; an unset or empty one gives the default |
| Config.GetInt | gobtgemini/demo/go-chat-backend/config/config.go:74-81 | a variable that parses as an integer wins; anything else gives the default |
| Config.GetBool | gobtgemini/demo/go-chat-backend/config/config.go:84-91 | a variable that parses as a boolean wins; anything else gives the default |
| Config.GetIntIgnoresGarbage | gobtgemini/demo/go-chat-backend/config/config.go:74-81 | a set but unparsable value such as `24h` leaves the default |
| Config.EmptyEnvDefaults | gobtgemini/demo/go-chat-backend/config/config.go:43-62 | with nothing set, every field of `FromEnv`, the record `LoadConfig` builds, takes its default (port `8080`, 24 JWT hours, collection `chat_memory`, and the rest) |
| Config.EmptyValueIsUnset | gobtgemini/demo/go-chat-backend/config/config.go:67-70 | a variable set to "" counts as unset |
| Config.Holder.constructor | gobtgemini/demo/go-chat-backend/config/config.go:33 | before loading, `Get` returns nil |
| Config.Holder.LoadConfig | gobtgemini/demo/go-chat-backend/config/config.go:36-63 | after loading, `Get` (config.go:94-96) returns the record built from the environment |
| UpdateMaps.FilterUpdates | gobtgemini/demo/go-chat-backend/services/chat_service.go:179-188 | the key-by-key loop builds exactly the whitelisted sub-map |
| UpdateMaps.WhitelistedEmptyIff | gobtgemini/demo/go-chat-backend/services/chat_service.go:190-193 | the filtered map is empty exactly when no key of the update is allowed |
| UpdateMaps.WhitelistedEntries | gobtgemini/demo/go-chat-backend/services/user_service.go:121-136 | a key survives exactly when it is both present and allowed, and keeps its value |
| UpdateMaps.WhitelistedIdempotent | gobtgemini/demo/go-chat-backend/services/user_service.go:175-194 | filtering twice is filtering once |
| ChatService.ClampLimit | gobtgemini/demo/go-chat-backend/services/chat_service.go:54-56 | a limit in `1..max` is kept, and anything else becomes the fallback |
| ChatService.ClampLimitIdempotent | gobtgemini/demo/go-chat-backend/services/chat_service.go:159-161 | clamping twice is clamping once |
| ChatService.HistoryLimit | gobtgemini/demo/go-chat-backend/services/chat_service.go:54-56 | the history limit is clamped to 1..100 with fallback 50 |
| ChatService.RecentLimit | gobtgemini/demo/go-chat-backend/services/chat_service.go:81-83 | the recent-context limit is clamped to 1..50 with fallback 10 |
| ChatService.SessionsLimit | gobtgemini/demo/go-chat-backend/services/chat_service.go:159-161 | the session-list limit is clamped to 1..100 with fallback 20 |
| ChatService.ConversationLimit | gobtgemini/demo/go-chat-backend/services/chat_service.go:235-237 | the conversation limit is clamped to 1..200 with fallback 50 |
| ChatService.ConversationOffset | gobtgemini/demo/go-chat-backend/services/chat_service.go:238-240 | a negative offset becomes 0 and any other is kept |
| ChatService.Page | gobtgemini/demo/go-chat-backend/services/chat_service.go:61-65 | a page is the run of at most `limit` rows starting at the offset, cut short at the end of the rows (so the last page may be partial); a negative offset reads from the first row, and an offset past the end gives none |
| ChatService.ReversedIndex | gobtgemini/demo/go-chat-backend/services/chat_service.go:70-72 | the reverse has the same length, with element `i` taken from position `n-1-i` |
| ChatService.ReversedInvolution | gobtgemini/demo/go-chat-backend/services/chat_service.go:70-72 | reversing twice restores the list |
| ChatService.ReversedMultiset | gobtgemini/demo/go-chat-backend/services/chat_service.go:96-98 | reversal keeps exactly the same elements |
| ChatService.ReverseInPlace | gobtgemini/demo/go-chat-backend/services/chat_service.go:70-72 | the two-pointer swap loop leaves the array as the exact reverse of its old contents |
| ChatService.SendMessage | gobtgemini/demo/go-chat-backend/services/chat_service.go:24-48 | empty content is refused before any write, and a failed insert is an error; otherwise the stored message has exactly the given fields |
| ChatService.ReversedPage | gobtgemini/demo/go-chat-backend/services/chat_service.go:69-72 | the rows are returned in reverse query order |
| ChatService.GetChatHistory | gobtgemini/demo/go-chat-backend/services/chat_service.go:51-75 | a query error maps to its fixed error; otherwise the result is the clamped page, reversed into chronological order |
| ChatService.GetRecentMessages | gobtgemini/demo/go-chat-backend/services/chat_service.go:78-101 | a query error maps to its fixed error; otherwise the result is the newest `RecentLimit(limit)` rows, oldest first |
| ChatService.RecentMessagesOrder | gobtgemini/demo/go-chat-backend/services/chat_service.go:96-98 | the last context message is the newest row, and the first is the oldest row in the page |
| ChatService.CheckWrite | gobtgemini/demo/go-chat-backend/services/chat_service.go:204-206 | a write error gives the failure text, zero rows gives the "not found or no permission" text, and only a write that touched rows succeeds |
| ChatService.DeleteMessage | gobtgemini/demo/go-chat-backend/services/chat_service.go:104-116 | deletion succeeds exactly when rows were affected, and zero rows gives `消息不存在或无权删除` |
| ChatService.ClearHistory | gobtgemini/demo/go-chat-backend/services/chat_service.go:119-127 | clearing fails exactly when the delete fails |
| ChatService.SessionTitle | gobtgemini/demo/go-chat-backend/services/chat_service.go:131-133 | a given title is kept, and an empty one becomes `新的聊天` plus the timestamp text, so a title is never empty |
| ChatService.CreateChatSession | gobtgemini/demo/go-chat-backend/services/chat_service.go:130-153 | a new session is active, has a non-empty title and belongs to the caller; a failed insert is an error |
| ChatService.GetChatSessions | gobtgemini/demo/go-chat-backend/services/chat_service.go:156-175 | a query error maps to its fixed error; a successful query gives the page at the clamped limit (1..100, fallback 20, so at most 20 rows for an out-of-range limit), in query order |
| ChatService.UpdateChatSession | gobtgemini/demo/go-chat-backend/services/chat_service.go:178-209 | only `title` and `description` survive, with their values; with none left, nothing is issued and the call errors; otherwise the write's error or zero rows decide the result |
| ChatService.DeleteChatSession | gobtgemini/demo/go-chat-backend/services/chat_service.go:212-228 | deletion succeeds exactly when rows were affected, and zero rows gives `会话不存在或无权删除` |
| ChatService.GetOneConversationHistory | gobtgemini/demo/go-chat-backend/services/chat_service.go:230-265 | a query error maps to its fixed error; a successful query gives the page at the clamped limit (1..200, fallback 50), with a negative offset read as 0 |
| UserService.DefaultPreference | gobtgemini/demo/go-chat-backend/services/user_service.go:63-70 | a new user's preference is `gpt-3.5-turbo` with 2000 tokens, a context window of 10, memory on and no system prompt |
| UserService.Register | gobtgemini/demo/go-chat-backend/services/user_service.go:24-77 | the username, email and password checks run in that order, then the duplicate check, hashing and insert; a new user has nickname = username and is active |
| UserService.RegisterValidatesFirst | gobtgemini/demo/go-chat-backend/services/user_service.go:26-34 | an input failing a format check is refused whatever the store holds or the hash yields |
| UserService.Login | gobtgemini/demo/go-chat-backend/services/user_service.go:80-103 | an unknown user, then a disabled user, then a wrong password is refused, in that order; only an active user with the right password logs in |
| UserService.LoginDisabledIgnoresPassword | gobtgemini/demo/go-chat-backend/services/user_service.go:89-91 | a disabled account is refused before the password is looked at |
| UserService.GetUserByID | gobtgemini/demo/go-chat-backend/services/user_service.go:106-116 | a found row is returned, and a missing row gives `用户不存在` |
| UserService.UpdateProfile | gobtgemini/demo/go-chat-backend/services/user_service.go:119-145 | only `nickname` and `avatar` survive; with none left, nothing is issued and the call errors; a failed write gives `用户资料更新失败` |
| UserService.GetUserPreference | gobtgemini/demo/go-chat-backend/services/user_service.go:148-170 | a stored preference is returned; a missing one is created as the default and returned, unless creating it fails |
| UserService.RegisterAndLookupAgree | gobtgemini/demo/go-chat-backend/services/user_service.go:152-165 | a missing preference comes back as exactly the default a new user gets |
| UserService.UpdateUserPreference | gobtgemini/demo/go-chat-backend/services/user_service.go:173-203 | only the six preference keys survive; with none left, nothing is issued and the call errors; a failed write gives `用户偏好更新失败` |
| ChatHandler.FallbackPreference | gobtgemini/demo/go-chat-backend/handlers/chat_handler.go:118-134 | the fallback preference has a context window of 10, memory on and no system prompt |
| ChatHandler.FallbackIsServiceDefault | gobtgemini/demo/go-chat-backend/handlers/chat_handler.go:118-124 | the handler's fallback is the service's default preference, without a user ID |
| ChatHandler.ResolvePreference | gobtgemini/demo/go-chat-backend/handlers/chat_handler.go:112-135 | the stored preference is used when the lookup succeeds; without a user service, or when the lookup fails, the fallback is used |
| ChatHandler.ContextOrFallback | gobtgemini/demo/go-chat-backend/handlers/chat_handler.go:138-142 | when fetching the context fails, the context is exactly the user's message |
| ChatHandler.MemoriesUsed | gobtgemini/demo/go-chat-backend/handlers/chat_handler.go:144-151 | memories are searched only when memory is on and a vector store exists, and a failed search contributes none |
| ChatHandler.MergeMemory | gobtgemini/demo/go-chat-backend/handlers/chat_handler.go:153-161 | with no memories the prompt is unchanged; otherwise the memory prompt is appended after a blank line, or becomes the prompt when the prompt is empty |
| ChatHandler.MergeMemoryKeepsPrompt | gobtgemini/demo/go-chat-backend/handlers/chat_handler.go:154-161 | the merged prompt starts with the user's own prompt and ends with `MemoryPrompt`: `相关记忆：` followed by the memories joined by newlines |
| ChatHandler.SendMessage | gobtgemini/demo/go-chat-backend/handlers/chat_handler.go:66-230 | 401 without a user; 400 `INVALID_REQUEST` for a body that does not decode or breaks its binding tags (nil conversation ID, no content, over 4000 characters); 400 `EMPTY_MESSAGE` for content that is blank after trimming, before anything is saved; 500 when saving or generating fails; otherwise 200 with the trimmed message, even when the real-time delivery fails |
| ChatHandler.Answer | gobtgemini/demo/go-chat-backend/handlers/chat_handler.go:111-222 | once the user's message is stored: the model is asked with the recent messages (or only that message) and the resolved preference whose system prompt carries the memories; a model failure is a 500 `AI_SERVICE_ERROR`; a panicking hub send ends the request; otherwise the reply carries the user's message, the stored answer when storing succeeded, and the answer text |
| ChatHandler.DefaultQuery | gobtgemini/demo/go-chat-backend/handlers/chat_handler.go:245-246 | a missing query parameter reads as its default |
| ChatHandler.QueryLimit | gobtgemini/demo/go-chat-backend/handlers/chat_handler.go:249-252 | an unparsable, non-positive or too-large limit becomes 50, and any other is kept |
| ChatHandler.QueryOffset | gobtgemini/demo/go-chat-backend/handlers/chat_handler.go:254-257 | an unparsable or negative offset becomes 0, and any other is kept |
| ChatHandler.MissingParamsDefaults | gobtgemini/demo/go-chat-backend/handlers/chat_handler.go:445-456 | without parameters the limit is 50 and the offset 0, under both upper bounds |
| ChatHandler.HandlerLimitsSurviveService | gobtgemini/demo/go-chat-backend/handlers/chat_handler.go:261 | the handler's clamped values pass through the service clamps unchanged |
| ChatHandler.GetChatHistory | gobtgemini/demo/go-chat-backend/handlers/chat_handler.go:233-279 | 401 without a user and 500 `HISTORY_FETCH_FAILED` on a query error; otherwise the history at the clamped limit and offset, echoed back |
| ChatHandler.GetOneConversationHistory | gobtgemini/demo/go-chat-backend/handlers/chat_handler.go:425-476 | 401 without a user, 400 without a conversation ID, 500 on a query error; otherwise the page at the handler's clamped limit (1..200) and offset, with that limit and offset echoed back |
| AuthHandler.Normalize | gobtgemini/demo/go-chat-backend/handlers/auth_handler.go:66-67 | the username is trimmed, and the email is lower-cased then trimmed |
| AuthHandler.NormalizeIdempotent | gobtgemini/demo/go-chat-backend/handlers/auth_handler.go:66-67 | normalising twice is normalising once |
| AuthHandler.Register | gobtgemini/demo/go-chat-backend/handlers/auth_handler.go:54-129 | 400 `INVALID_REQUEST` for a body that does not decode or breaks its binding tags (3..50 characters of username, an email address, 6..128 characters of password); then 400 `INVALID_EMAIL` before 400 `INVALID_USERNAME` on the cleaned fields; once those checks pass, 409 `REGISTRATION_FAILED` when the service refuses, 500 `TOKEN_GENERATION_FAILED` when no token is made, and otherwise 201 with the token and the registered user; a 201 happens only that way |
| AuthHandler.HandlerChecksCoverService | gobtgemini/demo/go-chat-backend/handlers/auth_handler.go:70-84 | after the handler's checks pass, the service's username and email checks pass too |
| AuthHandler.WideUsernameRefusedAfterBinding | gobtgemini/demo/go-chat-backend/handlers/auth_handler.go:29-84 | a username of 17 to 50 three-byte characters passes the binding tags, which count characters, and is then refused as `INVALID_USERNAME` by the byte-counting check |
| AuthHandler.Login | gobtgemini/demo/go-chat-backend/handlers/auth_handler.go:132-189 | 400 `INVALID_REQUEST` for a body that does not decode or lacks either field, and 401 `LOGIN_FAILED` when the service refuses the trimmed name; once it accepts, 500 `TOKEN_GENERATION_FAILED` when no token is made and otherwise 200 with the token and the user; a 200 happens only that way |
| AuthHandler.GetProfile | gobtgemini/demo/go-chat-backend/handlers/auth_handler.go:231-284 | 401 without a user and 404 `USER_NOT_FOUND`; preferences are included only when one was obtained |
| AuthHandler.FirstProfileShowsDefault | gobtgemini/demo/go-chat-backend/handlers/auth_handler.go:270-279 | the first profile view of a user with no preference row shows the default preference |
| AuthHandler.ProfileUpdates | gobtgemini/demo/go-chat-backend/handlers/auth_handler.go:308-314 | `nickname` is present only for a non-empty request nickname, with the sanitised trimmed value; `avatar` only when non-empty, trimmed |
| AuthHandler.BlankNicknameClears | gobtgemini/demo/go-chat-backend/handlers/auth_handler.go:309-311 | a whitespace-only nickname passes the emptiness check and is stored as "" |
| AuthHandler.UpdateProfile | gobtgemini/demo/go-chat-backend/handlers/auth_handler.go:287-344 | 401 without a user and 400 for a bad body; with no keys it is 400 `NO_UPDATE_DATA` and the service is never called; 500 `UPDATE_FAILED` when the service fails; the map sent to the service holds exactly the non-empty fields, the nickname trimmed and HTML-escaped and the avatar trimmed |
| LLMService.SystemPrompt | gobtgemini/demo/go-chat-backend/services/llm_service.go:94-97 | the preference's prompt is used when non-empty, and the fixed default otherwise |
| LLMService.RequestContentsShape | gobtgemini/demo/go-chat-backend/services/llm_service.go:100-120 | `RequestContents` has as many contents as messages; a leading `user` message gets the system prompt and a blank line prepended, and otherwise all messages pass through in order |
| LLMService.BuildContents | gobtgemini/demo/go-chat-backend/services/llm_service.go:100-120 | the appending loop builds exactly the specified contents |
| LLMService.ExtractResponse | gobtgemini/demo/go-chat-backend/services/llm_service.go:187-213 | an API error, no candidates, no parts or empty text is an error; otherwise the result is the first part's text of the first candidate |
| LLMService.Interpret | gobtgemini/demo/go-chat-backend/services/llm_service.go:160-184 | transport failures, non-200 statuses and undecodable bodies each give their own error; any answer is non-empty |
| LLMService.GenerateResponse | gobtgemini/demo/go-chat-backend/services/llm_service.go:76-214 | an empty message list is refused before the configuration is read, and an empty API URL before the network is used; otherwise the reply to the assembled request is interpreted |
| LLMService.ValidateAPIConfig | gobtgemini/demo/go-chat-backend/services/llm_service.go:217-227 | the configuration is refused exactly when the API URL is empty |
| LLMService.GetSupportedModels | gobtgemini/demo/go-chat-backend/services/llm_service.go:230-241 | the fixed list has seven entries, starting with `gpt-3.5-turbo` |
| LLMService.DefaultModels | gobtgemini/demo/go-chat-backend/services/llm_service.go:230-241 | the configured default model `gemini-2.0-flash` is not among the listed models |
| ChromaService.CollectionExists | gobtgemini/demo/go-chat-backend/services/chroma_service.go:171-196 | 200 means present, 404 and 500 mean absent, and any other status is an error |
| ChromaService.CreateCollection | gobtgemini/demo/go-chat-backend/services/chroma_service.go:199-221 | creation succeeds exactly on status 200 or 201 |
| ChromaService.FindIDFirst | gobtgemini/demo/go-chat-backend/services/chroma_service.go:158-167 | the lookup `FindID` yields the ID of the first collection with the name, and fails exactly when none has it |
| ChromaService.Chroma.constructor | gobtgemini/demo/go-chat-backend/services/chroma_service.go:99-125 | a new service knows no collection ID yet |
| ChromaService.Chroma.GetCollectionIDByName | gobtgemini/demo/go-chat-backend/services/chroma_service.go:128-168 | the scan returns and records the ID of the first collection with the configured name; no match or a failed listing is an error that records nothing |
| ChromaService.Chroma.InitCollection | gobtgemini/demo/go-chat-backend/services/chroma_service.go:100-125 | a missing collection is created first; success records the looked-up ID; a failed lookup returns an error without its cause |
| ChromaService.Min | gobtgemini/demo/go-chat-backend/services/chroma_service.go:413-418 | the result is one of the arguments and no larger than either |
| ChromaService.DocIDSameSecond | gobtgemini/demo/go-chat-backend/services/chroma_service.go:226 | two memories of one user and type get the same document ID (`DocID`, user ID, type and Unix second joined by `_`) exactly when they are stored in the same second |
| ChromaService.SearchLimit | gobtgemini/demo/go-chat-backend/services/chroma_service.go:316-318 | a limit outside 1..20 becomes 5 |
| ChromaService.CreateEmbedding | gobtgemini/demo/go-chat-backend/services/chroma_service.go:274-312 | an empty outer list or an empty first vector is an error; otherwise the first vector is returned |
| ChromaService.FirstRow | gobtgemini/demo/go-chat-backend/services/chroma_service.go:361-364 | the documents of the first query row, or none when there are no rows |
| ChromaService.SearchMemory | gobtgemini/demo/go-chat-backend/services/chroma_service.go:315-373 | an embedding failure is an error; otherwise the query asks for the clamped number of results and yields the first row's documents |
| ChromaService.AddMemory | gobtgemini/demo/go-chat-backend/services/chroma_service.go:240-271 | adding succeeds exactly on status 200 or 201 |
| ChromaService.HealthCheck | gobtgemini/demo/go-chat-backend/services/chroma_service.go:397-410 | the store is healthy exactly when the heartbeat answers 200 |
| Middleware.SelectToken | gobtgemini/demo/go-chat-backend/middleware/auth.go:29-37 | a `Bearer ` header with something after the prefix supplies the token; otherwise the `token` query parameter does; the token is empty only when both are missing |
| Middleware.UserFromContext | gobtgemini/demo/go-chat-backend/middleware/auth.go:72-88 | a missing `user_id` is an error; otherwise the user is built from the three keys, and a missing name or email panics on the type assertion |
| Middleware.StoreClaims | gobtgemini/demo/go-chat-backend/middleware/auth.go:62-64 | the three keys are added, the other keys are kept, and reading them back gives the claims' user |
| Middleware.Context.constructor | gobtgemini/demo/go-chat-backend/middleware/auth.go:25-26 | a request starts with no keys and no response |
| Middleware.Context.Refuse | gobtgemini/demo/go-chat-backend/middleware/auth.go:41-46 | a refusal writes 401 with its code and aborts, leaving the keys alone |
| Middleware.Context.JWTAuth | gobtgemini/demo/go-chat-backend/middleware/auth.go:24-69 | no token gives 401 `MISSING_TOKEN` and an unparsable token 401 `INVALID_TOKEN`, both aborting with no keys stored; a valid token stores the claims and continues the chain |
| Middleware.AcceptedRequestHasUser | gobtgemini/demo/go-chat-backend/middleware/auth.go:62-82 | after the middleware accepts a token, the handlers read back that token's user |
| JsArray.Filter | gobtgemini/demo/chat-frontend/src/store/conversationStore.ts:50 | the result is no longer than the input and holds exactly the input elements that pass |
| JsArray.FilterConcat | gobtgemini/demo/chat-frontend/src/store/chatStore.ts:74 | filtering keeps order: it distributes over concatenation |
| JsArray.FilterKeepsAll | gobtgemini/demo/chat-frontend/src/store/chatStore.ts:74 | the filter returns its input exactly when every element passes |
| JsArray.FilterIdempotent | gobtgemini/demo/chat-frontend/src/lib/websocket.ts:136 | filtering twice is filtering once |
| JsArray.Map | gobtgemini/demo/chat-frontend/src/store/chatStore.ts:66-68 | the result has the same length, with each element mapped in place |
| ConversationStore.MergeLaws | gobtgemini/demo/chat-frontend/src/store/conversationStore.ts:62 | an empty spread changes nothing, spreading the same update twice is spreading it once, and two spreads are one spread of the combined update |
| ConversationStore.SetConversations | gobtgemini/demo/chat-frontend/src/store/conversationStore.ts:38-40 | the list is replaced and nothing else changes |
| ConversationStore.AddConversation | gobtgemini/demo/chat-frontend/src/store/conversationStore.ts:42-46 | the new conversation goes first, and the others follow in their old order |
| ConversationStore.RemoveConversation | gobtgemini/demo/chat-frontend/src/store/conversationStore.ts:48-53 | every entry with the id goes and every other entry stays; the selection is cleared exactly when it was that id |
| ConversationStore.RemoveUnknownKeepsList | gobtgemini/demo/chat-frontend/src/store/conversationStore.ts:50 | removing an id no entry has leaves the list as it is |
| ConversationStore.AddThenRemove | gobtgemini/demo/chat-frontend/src/store/conversationStore.ts:42-53 | removing the id of a just-added conversation gives the same list as removing it before the add |
| ConversationStore.RemoveKeepsOrder | gobtgemini/demo/chat-frontend/src/store/conversationStore.ts:50 | removal keeps the survivors in their relative order |
| ConversationStore.SetCurrentConversation | gobtgemini/demo/chat-frontend/src/store/conversationStore.ts:55-57 | only the selection changes |
| ConversationStore.UpdateConversation | gobtgemini/demo/chat-frontend/src/store/conversationStore.ts:59-65 | position by position, entries with the id get the update merged in and the others are unchanged; the length is kept |
| ConversationStore.UpdateNoop | gobtgemini/demo/chat-frontend/src/store/conversationStore.ts:61-63 | an update to an unknown id, or an empty update, changes nothing |
| ConversationStore.SetLoading | gobtgemini/demo/chat-frontend/src/store/conversationStore.ts:67-69 | only the loading flag changes |
| ConversationStore.SetError | gobtgemini/demo/chat-frontend/src/store/conversationStore.ts:71-73 | the error is recorded and loading ends; the list and the selection are kept |
| ConversationStore.ClearError | gobtgemini/demo/chat-frontend/src/store/conversationStore.ts:75-77 | only the error changes |
| ConversationStore.SetThenClearError | gobtgemini/demo/chat-frontend/src/store/conversationStore.ts:71-77 | setting then clearing an error restores everything except the loading flag, which stays off |
| ChatStore.InitialIsEmpty | gobtgemini/demo/chat-frontend/src/store/chatStore.ts:27-31 | the store starts with no messages, no conversation, no error and both flags off |
| ChatStore.MergeLaws | gobtgemini/demo/chat-frontend/src/store/chatStore.ts:67 | spreading the same update twice is spreading it once, and an update carrying every key replaces the message |
| ChatStore.AddMessage | gobtgemini/demo/chat-frontend/src/store/chatStore.ts:34-38 | the message is appended after the existing ones, and nothing else changes |
| ChatStore.SetMessages | gobtgemini/demo/chat-frontend/src/store/chatStore.ts:40-42 | the list is replaced and nothing else changes |
| ChatStore.ClearMessages | gobtgemini/demo/chat-frontend/src/store/chatStore.ts:44-46 | the list becomes empty and nothing else changes |
| ChatStore.SetCurrentConversationId | gobtgemini/demo/chat-frontend/src/store/chatStore.ts:48-50 | only the conversation id changes |
| ChatStore.SetTyping | gobtgemini/demo/chat-frontend/src/store/chatStore.ts:52-54 | only the typing flag changes |
| ChatStore.SetConnected | gobtgemini/demo/chat-frontend/src/store/chatStore.ts:56-58 | only the connected flag changes |
| ChatStore.SetError | gobtgemini/demo/chat-frontend/src/store/chatStore.ts:60-62 | only the error changes; unlike the other stores, no flag is touched |
| ChatStore.ClearError | gobtgemini/demo/chat-frontend/src/store/chatStore.ts:78-80 | only the error changes |
| ChatStore.UpdateMessage | gobtgemini/demo/chat-frontend/src/store/chatStore.ts:64-70 | position by position, messages with the id get the update merged in and the others are unchanged |
| ChatStore.RemoveMessage | gobtgemini/demo/chat-frontend/src/store/chatStore.ts:72-76 | every message with the id goes and every other message stays |
| ChatStore.AddThenRemove | gobtgemini/demo/chat-frontend/src/store/chatStore.ts:34-76 | removing a just-appended message whose id was unused restores the state |
| ChatStore.RemoveKeepsOrder | gobtgemini/demo/chat-frontend/src/store/chatStore.ts:74 | removal keeps the survivors in their relative order |
| ChatStore.UpdateThenRemove | gobtgemini/demo/chat-frontend/src/store/chatStore.ts:64-76 | updating a message without changing its id, then removing it, is just removing it |
| AuthStore.Login | gobtgemini/demo/chat-frontend/src/store/authStore.ts:33-42 | the user and token are recorded, the flag is on and the error is cleared |
| AuthStore.Logout | gobtgemini/demo/chat-frontend/src/store/authStore.ts:44-53 | the user and token are dropped, the flag is off and the error is cleared |
| AuthStore.LogoutForgetsLogin | gobtgemini/demo/chat-frontend/src/store/authStore.ts:33-53 | after logging out, who was logged in makes no difference, and logging out twice is logging out once |
| AuthStore.SetLoading | gobtgemini/demo/chat-frontend/src/store/authStore.ts:55-57 | only the loading flag changes |
| AuthStore.SetError | gobtgemini/demo/chat-frontend/src/store/authStore.ts:59-61 | the error is recorded and loading ends; the session is kept |
| AuthStore.ClearError | gobtgemini/demo/chat-frontend/src/store/authStore.ts:63-65 | only the error changes |
| AuthStore.UpdateUser | gobtgemini/demo/chat-frontend/src/store/authStore.ts:67-72 | the update is merged into the signed-in user, and nothing happens when nobody is signed in |
| AuthStore.UpdateUserIdempotent | gobtgemini/demo/chat-frontend/src/store/authStore.ts:70 | repeating an update changes nothing more |
| AuthStore.Partialize | gobtgemini/demo/chat-frontend/src/store/authStore.ts:76-80 | only the user, the token and the flag are persisted |
| AuthStore.ReloadKeepsSession | gobtgemini/demo/chat-frontend/src/store/authStore.ts:74-80 | a reload restores the session with loading off and no error; errors and loading never reach storage; after a logout a reload gives the initial state |
| WebSocketClient.RetryDelays | gobtgemini/demo/chat-frontend/src/lib/websocket.ts:125-127 | the k-th retry waits 1000·k ms |
| WebSocketClient.Client.constructor | gobtgemini/demo/chat-frontend/src/lib/websocket.ts:7-20 | a new client has no socket, no token, no handlers and a zero counter |
| WebSocketClient.Client.SetToken | gobtgemini/demo/chat-frontend/src/lib/websocket.ts:22-24 | only the token changes |
| WebSocketClient.Client.Connect | gobtgemini/demo/chat-frontend/src/lib/websocket.ts:26-87 | nothing happens when the socket is open, a connect is in progress, or the token is null or empty; otherwise a socket is opened with the token, or, when creating it throws, the in-progress flag clears |
| WebSocketClient.Client.OnOpen | gobtgemini/demo/chat-frontend/src/lib/websocket.ts:53-59 | the counter resets to 0, the in-progress flag clears, the heartbeat starts and the connect handlers run in order |
| WebSocketClient.Client.OnMessage | gobtgemini/demo/chat-frontend/src/lib/websocket.ts:61-68 | the message handlers run only for a frame that parses |
| WebSocketClient.Client.HandleReconnect | gobtgemini/demo/chat-frontend/src/lib/websocket.ts:121-131 | while fewer than 5 attempts were made, the counter is incremented and a retry is set after 1000 times the new count; then it gives up, so the counter never passes 5 |
| WebSocketClient.Client.OnClose | gobtgemini/demo/chat-frontend/src/lib/websocket.ts:70-76 | the heartbeat stops, the disconnect handlers run and a retry is considered |
| WebSocketClient.Client.OnError | gobtgemini/demo/chat-frontend/src/lib/websocket.ts:78-82 | the in-progress flag clears and the error handlers run |
| WebSocketClient.Client.Disconnect | gobtgemini/demo/chat-frontend/src/lib/websocket.ts:89-98 | the counter is set to its maximum, the heartbeat stops and the socket is dropped |
| WebSocketClient.Client.Send | gobtgemini/demo/chat-frontend/src/lib/websocket.ts:100-106 | a frame is written only when `IsConnected` holds (the socket is open), and dropped otherwise |
| WebSocketClient.Client.Heartbeat | gobtgemini/demo/chat-frontend/src/lib/websocket.ts:108-112 | each tick sends the ping frame like any other frame |
| WebSocketClient.Client.SetHandlers | gobtgemini/demo/chat-frontend/src/lib/websocket.ts:133-159 | the handler list of one channel is replaced; every other list and the connection state are unchanged |
| WebSocketClient.Client.Subscribe | gobtgemini/demo/chat-frontend/src/lib/websocket.ts:133-134 | the handler is appended to its own list only |
| WebSocketClient.Client.Unsubscribe | gobtgemini/demo/chat-frontend/src/lib/websocket.ts:135-137 | every occurrence of the handler leaves its list, and the other lists are unchanged |
| WebSocketClient.FailingServer | gobtgemini/demo/chat-frontend/src/lib/websocket.ts:121-131 | n connect-and-close rounds schedule retries after 1, 2, … seconds, at most five of them, and the counter ends at min(n, 5) |
| WebSocketClient.DisconnectThenClose | gobtgemini/demo/chat-frontend/src/lib/websocket.ts:89-106 | after `disconnect`, the close that follows schedules nothing and a frame sent meanwhile is dropped |
| ProfilePage.UsernameIssues | gobtgemini/demo/chat-frontend/src/pages/ProfilePage.tsx:15 | a username is accepted exactly with 3..50 characters, and otherwise gets one issue |
| ProfilePage.Validate | gobtgemini/demo/chat-frontend/src/pages/ProfilePage.tsx:14-28 | a form passes exactly when the username length, the email and the password rule all pass; field issues come first, the username's before the email's, and the refinement runs even when a field failed, adding its `confirmPassword` issue last exactly when the password rule fails |
| ProfilePage.FieldIssuesKeepRule | gobtgemini/demo/chat-frontend/src/pages/ProfilePage.tsx:14-28 | a two-letter username with an unconfirmed new password gets both issues, the username's first |
| ProfilePage.NoNewPasswordIgnoresCurrent | gobtgemini/demo/chat-frontend/src/pages/ProfilePage.tsx:20-24 | without a new or confirmed password the rule passes, whatever the current password |
| ProfilePage.NewPasswordIsConfirmed | gobtgemini/demo/chat-frontend/src/pages/ProfilePage.tsx:21-22 | a passing form with a new password has it confirmed and gives the current password |
| ProfilePage.UnconfirmedRefused | gobtgemini/demo/chat-frontend/src/pages/ProfilePage.tsx:20-28 | an unconfirmed new password is refused on `confirmPassword`, whatever the current password |
| ProfilePage.Submit | gobtgemini/demo/chat-frontend/src/pages/ProfilePage.tsx:50-80 | an invalid form is refused with its issues; a valid one merges username and email into the signed-in user and resets the form with empty passwords |
| ProfilePage.SavedFormResubmits | gobtgemini/demo/chat-frontend/src/pages/ProfilePage.tsx:68-74 | after a save the reset form validates again, the user carries the new username and email with everything else kept, and the token is unchanged |

## Left out

- Goroutines and channels: `Run`'s select loop, `readPump`/`writePump`, deadlines, the 54-second ticker and the WebSocket upgrade. Each hub operation is one sequential step on one state.
- `Hub.Hub.BroadcastMessage`: the send on the unbuffered `broadcast` channel blocks until `Run` takes it; the model runs the broadcast case directly.
- `Hub.Hub.SendToUser` reads `userClients` outside the control loop, which is a data race in the code. The model has one thread, so the race cannot occur.
- JWT signing and parsing, and bcrypt hashing and comparison, are foreign library calls. They are parameters.
- Database access (gorm queries, migrations, generated IDs and timestamps) is not modelled. Query results and affected-row counts are inputs.
- gorm treats a negative offset as no offset; `ChatService.Page` models that directly.
- HTTP: the request helpers in `utils/common.go`, the network parts of the language-model and vector-store clients, routing in `main.go`, and the frontend's API fetches. Exchanges are inputs.
- `LLMService.GenerateResponse`: the failure of `http.NewRequest` ("创建请求失败", `services/llm_service.go:142-145`) is not modelled, because building the request is not modelled; the model's `post` only returns a transport error or a reply.
- Floating point: `Temperature` and the embedding vectors. Vectors are values of a type parameter, and the temperature is dropped from the records.
- Wall-clock time: message timestamps, JWT expiry, the title stamp of `CreateChatSession` and the Unix second in document IDs are parameters.
- Logging, `localStorage` writes, the `console` output of the WebSocket client, and the ten-second sleep in `InitCollection`.
- The React components other than the profile form's schema and submit, and the effect wiring of `useWebSocket.ts`.
- `useWebSocket.ts` reads `data.message`, but the hub's chat payload carries `user_message` and `assistant_message`, so that branch never fires. It is not modelled.
- The other chat handlers (`DeleteMessage`, `ClearHistory`, `GetConversations`, `CreateConversation`) are not modelled as handlers. The service operations they call are modelled.
- `ClearUserMemory` and `GetMemoryStats` are placeholders that return nil or fixed data. They are not modelled.
- `ChatHandler.SendMessage`: a failure to save the assistant's reply, or to add a memory, is only logged. The model does not produce those log records.
- `ChromaService.Chroma.GetCollectionIDByName`: a failure reading the body is not told apart from a failure decoding it. Both give the decode error's text.
- `Hub.Marshal`: JSON is kept as the document it encodes rather than as bytes. Field order and escaping are not modelled.
- `GoStrings.TrimSpace`: only ASCII whitespace is trimmed. Unicode spaces are not.
- `GoStrings.ToLower`: only ASCII letters are lower-cased.
- `AuthHandler.Register`: the validator's `email` binding rule is a parameter (`isEmail`); its pattern is not reproduced.
- `GoStrings.RuneCount`: the binding tags count characters of well-formed UTF-8. The JSON decoder's replacement of malformed bytes is not modelled.
- The `required` tag on the conversation ID is modelled as "not the nil UUID". A value that is not a UUID is a decoding failure, `None`.
- `ProfilePage.Validate`: the schema library's email check is a parameter. Its regular expression is not reproduced.
- `ConversationStore.Merge`, `ChatStore.Merge`, `AuthStore.Merge`: an update key that is present but holds `undefined` is treated as absent. In JavaScript, spreading such a key overwrites the field with `undefined`.
- `WebSocketClient.Client.OnClose`: only the current socket's events are modelled. A socket replaced by a later `connect` can still deliver its own close event, and the model does not capture that.
- `WebSocketClient.Client.OnOpen`: starting a heartbeat while one is already installed leaks the old interval. The model keeps only a flag for it.
- `Config.FromEnv`: the default API key literal is a credential, so it is a parameter rather than reproduced.
- `.env` loading is not modelled; the environment is a map.
- The test file `main_test.go` re-implements the checks inline. Its email table lists `@domain.com` as invalid, but `ValidateEmail` accepts it (`UtilsAuth.NoLocalPartAccepted`).
- The deployment script `start-chroma.py` is not modelled.
