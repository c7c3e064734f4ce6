/**
 * The records of `models/models.go` that the services and handlers work
 * on. Database bookkeeping (timestamps, soft-delete marks, the preloaded
 * `User` relation, JSON metadata) and the floating-point `Temperature`
 * are not modelled.
 */
module Models {
  import opened Base

  datatype User = User(
    ID: Uuid, Username: string, Email: string, Password: string,
    Nickname: string, Avatar: string, IsActive: bool)

  datatype ChatMessage = ChatMessage(
    UserID: Uuid, ConversationID: Uuid, Content: string, Role: string, MessageID: Uuid)

  datatype ChatSession = ChatSession(
    ID: Uuid, UserID: Uuid, Title: string, Description: string, IsActive: bool)

  datatype UserPreference = UserPreference(
    UserID: Uuid, LLMModel: string, MaxTokens: int, SystemPrompt: string,
    ContextWindow: int, MemoryEnabled: bool)

  /** The outcome of a single-row lookup (`First`): a row, `ErrRecordNotFound`, or another error. */
  datatype Query<+T> = Found(row: T) | NotFound | Failed(error: string)

  /** The outcome of a write: its error, if any, and `RowsAffected`. */
  datatype DbResult = DbResult(error: Option<string>, rowsAffected: nat)
}
