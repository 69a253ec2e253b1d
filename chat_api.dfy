/** The chat assistant's request: the path chosen by the user's role, the body
    sent, and the reply taken from the response. The POST itself is a
    parameter. */
module ChatApi {
  import opened Wrappers

  const EMPLOYEE_ROLE := "EMPLOYEE"
  const EMPLOYEE_CHAT_PATH := "/ai/employee/chat"
  const CHAT_PATH := "/ai/chat"

  /** The reply object under the response body's `data`. */
  datatype ChatResponse = ChatResponse(reply: Option<string>, suggestedActions: seq<string>, relevantData: Option<string>)

  /** A response body: its `data` field, absent when the body has none. */
  datatype ChatEnvelope = ChatEnvelope(data: Option<ChatResponse>)

  /** The path for a role; `None` is a missing role (`null` or `undefined`). */
  function ChatPath(role: Option<string>): (path: string)
    ensures role == Some(EMPLOYEE_ROLE) <==> path == EMPLOYEE_CHAT_PATH
    ensures path == EMPLOYEE_CHAT_PATH || path == CHAT_PATH
  {
    if role == Some(EMPLOYEE_ROLE) then EMPLOYEE_CHAT_PATH else CHAT_PATH
  }

  /** The request body `{ message }`. */
  function ChatBody(message: string): (body: map<string, string>)
    ensures body.Keys == {"message"} && body["message"] == message
  {
    map["message" := message]
  }

  /** `sendEmployeeChatMessage`: the POST's body `data` field. */
  function SendChatMessage(message: string, role: Option<string>,
                           post: (string, map<string, string>) -> ChatEnvelope): (r: Option<ChatResponse>)
    ensures r == post(ChatPath(role), ChatBody(message)).data
  {
    post(ChatPath(role), ChatBody(message)).data
  }

  /** Only the role "EMPLOYEE" reaches the employee assistant; a missing role,
      or any other text, goes to the general one. */
  lemma RoleSelectsPath(role: Option<string>)
    ensures role.None? ==> ChatPath(role) == CHAT_PATH
    ensures role.Some? && role.value != EMPLOYEE_ROLE ==> ChatPath(role) == CHAT_PATH
    ensures ChatPath(Some(EMPLOYEE_ROLE)) != ChatPath(None)
  {
  }
}
