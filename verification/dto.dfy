/** The shapes of the chat endpoints' requests and responses. */
module ChatDto {
  import opened Wrappers
  import opened Guardrails

  datatype MessageRole = User | Assistant | System

  datatype Message = Message(role: MessageRole, content: string)

  datatype ChatRequest = ChatRequest(sessionId: string, messages: seq<Message>, clinicId: Option<string>)

  /** 'bloodwork_info' | 'book_consult' | 'emergency' | 'none' */
  datatype CtaType = BloodworkInfo | BookConsult | EmergencyCall | NoCta

  /** `kind` is the source's `type`, `caption` its `label`. */
  datatype CtaAction = CtaAction(kind: CtaType, caption: Option<string>, url: Option<string>)

  /** The chat service fills in `cta` and `guardrailTriggered` on every path;
      `guardrailTriggered == None` is the `null` it sends when no guardrail fired. */
  datatype ChatResponse = ChatResponse(
    message: string,
    sessionId: string,
    cta: CtaAction,
    guardrailTriggered: Option<GuardrailType>)

  datatype TranscriptRequest = TranscriptRequest(sessionId: string, messages: seq<Message>)

  datatype TranscriptResponse = TranscriptResponse(
    summary: string,
    transcript: string,
    generatedAt: string,
    sessionId: string)
}
