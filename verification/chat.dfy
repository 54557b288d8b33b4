/** The chat service: one chat turn (guardrails, then the completion
    gateway, then the call-to-action), the opening greeting, and the
    transcript with its summary. */
module Chat {
  import opened Wrappers
  import opened Text
  import opened Config
  import opened ChatDto
  import opened OpenAi
  import Guardrails

  /** Why a turn produced no response: the conversation had no last message
      to read (the source fails reading `content` of `undefined`), or the
      gateway failed. */
  datatype TurnError = EmptyConversation | Upstream(error: UpstreamError)

  // ---------------------------------------------------------------- CTA

  const BloodworkWords: seq<string> := ["bloodwork", "lab", "panel", "testing"]
  const ConsultWords: seq<string> := ["consult", "book", "schedule", "appointment"]

  const BloodworkCta: CtaAction := CtaAction(BloodworkInfo, Some("Learn About Bloodwork"), None)
  const ConsultCta: CtaAction := CtaAction(BookConsult, Some("Book a Consultation"), None)
  const EmergencyCallCta: CtaAction := CtaAction(EmergencyCall, Some("Call 911"), None)
  const NoAction: CtaAction := CtaAction(NoCta, None, None)

  /** Some word of `words` occurs in `text`. */
  predicate MentionsAny(text: string, words: seq<string>)
  {
    exists i :: 0 <= i < |words| && Contains(text, words[i])
  }

  /** The bloodwork test of `determineCta`, as written there. */
  predicate MentionsBloodwork(lowerResponse: string)
  {
    Contains(lowerResponse, "bloodwork") || Contains(lowerResponse, "lab")
    || Contains(lowerResponse, "panel") || Contains(lowerResponse, "testing")
  }

  /** The consultation test of `determineCta`, as written there. */
  predicate MentionsConsultation(lowerResponse: string)
  {
    Contains(lowerResponse, "consult") || Contains(lowerResponse, "book")
    || Contains(lowerResponse, "schedule") || Contains(lowerResponse, "appointment")
  }

  lemma {:induction false} MentionsAsListed(t: string)
    ensures MentionsBloodwork(t) <==> MentionsAny(t, BloodworkWords)
    ensures MentionsConsultation(t) <==> MentionsAny(t, ConsultWords)
  {
    if MentionsAny(t, BloodworkWords) {
      var i :| 0 <= i < |BloodworkWords| && Contains(t, BloodworkWords[i]);
      assert i == 0 || i == 1 || i == 2 || i == 3;
    }
    if MentionsAny(t, ConsultWords) {
      var i :| 0 <= i < |ConsultWords| && Contains(t, ConsultWords[i]);
      assert i == 0 || i == 1 || i == 2 || i == 3;
    }
    if MentionsBloodwork(t) {
      if Contains(t, "bloodwork") { assert Contains(t, BloodworkWords[0]); }
      else if Contains(t, "lab") { assert Contains(t, BloodworkWords[1]); }
      else if Contains(t, "panel") { assert Contains(t, BloodworkWords[2]); }
      else { assert Contains(t, BloodworkWords[3]); }
    }
    if MentionsConsultation(t) {
      if Contains(t, "consult") { assert Contains(t, ConsultWords[0]); }
      else if Contains(t, "book") { assert Contains(t, ConsultWords[1]); }
      else if Contains(t, "schedule") { assert Contains(t, ConsultWords[2]); }
      else { assert Contains(t, ConsultWords[3]); }
    }
  }

  /** `determineCta`: bloodwork words take priority over consultation words;
      neither gives no action. It never proposes the emergency call. */
  function DetermineCta(response: string): (cta: CtaAction)
    ensures cta == BloodworkCta <==> MentionsAny(Lower(response), BloodworkWords)
    ensures cta == ConsultCta <==>
      !MentionsAny(Lower(response), BloodworkWords) && MentionsAny(Lower(response), ConsultWords)
    ensures cta == NoAction <==>
      !MentionsAny(Lower(response), BloodworkWords) && !MentionsAny(Lower(response), ConsultWords)
  {
    MentionsAsListed(Lower(response));
    if MentionsBloodwork(Lower(response)) then BloodworkCta
    else if MentionsConsultation(Lower(response)) then ConsultCta
    else NoAction
  }

  /** The case of letters in the reply never changes its call-to-action. */
  lemma {:induction false} DetermineCtaIgnoresCase(a: string, b: string)
    requires SameUpToCase(a, b)
    ensures DetermineCta(a) == DetermineCta(b)
  {
    SameUpToCaseLower(a, b);
  }

  /** The call-to-action that accompanies a guardrail's canned reply. */
  function GuardrailCta(kind: Option<Guardrails.GuardrailType>): (cta: CtaAction)
    ensures cta == EmergencyCallCta <==> kind == Some(Guardrails.Emergency)
    ensures cta != EmergencyCallCta ==> cta == ConsultCta
  {
    if kind == Some(Guardrails.Emergency) then EmergencyCallCta else ConsultCta
  }

  // --------------------------------------------------------- transcript

  /** 55 double horizontal box-drawing characters (U+2550). */
  const Banner: string := "═══════════════════════════════════════════════════════"
  /** 55 light horizontal box-drawing characters (U+2500). */
  const Rule: string := "───────────────────────────────────────────────────────"

  function Header(clinicName: string, timestamp: string): seq<string>
  {
    [Banner, "  CONVERSATION TRANSCRIPT - " + clinicName, Banner, "Generated: " + timestamp, Rule, ""]
  }

  const Footer: seq<string> := ["", Rule, ""]

  /** The speaker label of the transcript. */
  function Speaker(role: MessageRole): (s: string)
    ensures s == "Monica (AI Assistant)" <==> role == Assistant
    ensures s == "You" <==> role != Assistant
  {
    if role == Assistant then "Monica (AI Assistant)" else "You"
  }

  function SpeakerLine(role: MessageRole): string
  {
    "[" + Speaker(role) + "]"
  }

  /** The lines message `i` adds: its speaker, its content and, unless it is
      the last message, a blank line. */
  function Block(messages: seq<Message>, i: nat): seq<string>
    requires i < |messages|
  {
    [SpeakerLine(messages[i].role), messages[i].content] + if i < |messages| - 1 then [""] else []
  }

  /** The lines of the first `k` messages. */
  function Rendered(messages: seq<Message>, k: nat): seq<string>
    requires k <= |messages|
  {
    if k == 0 then [] else Rendered(messages, k - 1) + Block(messages, k - 1)
  }

  /** All lines of a transcript, before they are joined. */
  function TranscriptLines(clinicName: string, timestamp: string, messages: seq<Message>): seq<string>
  {
    Header(clinicName, timestamp) + Rendered(messages, |messages|) + Footer
  }

  /** Message `i` occupies lines 3i and 3i + 1 of the rendered messages, and
      line 3i + 2 is blank unless message `i` is the last one. */
  lemma {:induction false} RenderedLayout(messages: seq<Message>, k: nat)
    requires k <= |messages|
    ensures |Rendered(messages, k)| == if k == |messages| && k > 0 then 3 * k - 1 else 3 * k
    ensures forall i :: 0 <= i < k ==>
      && Rendered(messages, k)[3 * i] == SpeakerLine(messages[i].role)
      && Rendered(messages, k)[3 * i + 1] == messages[i].content
      && (i < |messages| - 1 ==> Rendered(messages, k)[3 * i + 2] == "")
  {
    if k > 0 {
      RenderedLayout(messages, k - 1);
      var before := Rendered(messages, k - 1);
      var block := Block(messages, k - 1);
      var after := Rendered(messages, k);
      assert after == before + block;
      assert |before| == 3 * (k - 1);
      forall i | 0 <= i < k
        ensures after[3 * i] == SpeakerLine(messages[i].role)
        ensures after[3 * i + 1] == messages[i].content
        ensures i < |messages| - 1 ==> after[3 * i + 2] == ""
      {
        if i < k - 1 {
          assert after[3 * i] == before[3 * i];
          assert after[3 * i + 1] == before[3 * i + 1];
          assert after[3 * i + 2] == before[3 * i + 2];
        } else {
          assert after[3 * i..] == block;
        }
      }
    }
  }

  /** The layout of a transcript: a six-line header (banner, title with the
      clinic name, banner, generation time, rule, blank), three lines per
      message except that no blank line follows the last one, and a
      three-line footer (blank, rule, blank). */
  lemma {:induction false} TranscriptLayout(clinicName: string, timestamp: string, messages: seq<Message>)
    ensures var lines := TranscriptLines(clinicName, timestamp, messages);
      && |lines| == (if |messages| == 0 then 9 else 6 + 3 * |messages| - 1 + 3)
      && lines[0] == Banner && lines[1] == "  CONVERSATION TRANSCRIPT - " + clinicName && lines[2] == Banner
      && lines[3] == "Generated: " + timestamp && lines[4] == Rule && lines[5] == ""
      && lines[|lines| - 3..] == ["", Rule, ""]
      && forall i :: 0 <= i < |messages| ==>
           && lines[6 + 3 * i] == "[" + Speaker(messages[i].role) + "]"
           && lines[7 + 3 * i] == messages[i].content
           && (i < |messages| - 1 ==> lines[8 + 3 * i] == "")
  {
    RenderedLayout(messages, |messages|);
    var lines := TranscriptLines(clinicName, timestamp, messages);
    var body := Rendered(messages, |messages|);
    assert lines == Header(clinicName, timestamp) + body + Footer;
    forall i | 0 <= i < |messages|
      ensures lines[6 + 3 * i] == "[" + Speaker(messages[i].role) + "]"
      ensures lines[7 + 3 * i] == messages[i].content
      ensures i < |messages| - 1 ==> lines[8 + 3 * i] == ""
    {
      assert lines[6 + 3 * i] == body[3 * i];
      assert lines[7 + 3 * i] == body[3 * i + 1];
      if i < |messages| - 1 {
        assert lines[8 + 3 * i] == body[3 * i + 2];
      }
    }
  }

  /** The two-message conversation "Hi" / "Hello" renders as the header,
      "[You]", "Hi", a blank line, "[Monica (AI Assistant)]", "Hello" and
      the footer. */
  lemma GreetingExchangeTranscript(clinicName: string, timestamp: string)
    ensures TranscriptLines(clinicName, timestamp, [Message(User, "Hi"), Message(Assistant, "Hello")])
         == Header(clinicName, timestamp) + ["[You]", "Hi", "", "[Monica (AI Assistant)]", "Hello"] + Footer
  {
    var messages := [Message(User, "Hi"), Message(Assistant, "Hello")];
    assert SpeakerLine(User) == "[You]" && SpeakerLine(Assistant) == "[Monica (AI Assistant)]";
    assert Block(messages, 0) == ["[You]", "Hi", ""];
    assert Block(messages, 1) == ["[Monica (AI Assistant)]", "Hello"];
    assert Rendered(messages, 1) == ["[You]", "Hi", ""];
    assert Rendered(messages, 2) == ["[You]", "Hi", "", "[Monica (AI Assistant)]", "Hello"];
  }

  // ------------------------------------------------------------ summary

  const TooShortToSummarize: string := "Conversation too short to summarize."
  const SummaryUnavailable: string := "Summary unavailable. Please review the transcript above."
  const SummarizerPrompt: string :=
    "You are a helpful assistant that summarizes health consultation conversations. "
    + "Be concise and focus on actionable information."

  /** The fixed head of the summary request; the conversation text follows it. */
  const SummaryInstructions: string :=
    "Please provide a brief, helpful summary of this health consultation conversation. \n"
    + "Focus on:\n- Main topics discussed\n- Key questions asked\n- Important information shared\n"
    + "- Any recommended next steps\n\nKeep the summary concise (3-5 sentences) and user-friendly.\n\n"
    + "Conversation:\n"

  /** One line per message: "Monica: ..." for the assistant, "User: ..." otherwise. */
  function ConversationText(messages: seq<Message>): string
  {
    Join(seq(|messages|, i requires 0 <= i < |messages| =>
      (if messages[i].role == Assistant then "Monica" else "User") + ": " + messages[i].content), "\n")
  }

  /** The conversation the summary is asked for: one user message holding
      the instructions and the conversation text. */
  function SummaryMessages(messages: seq<Message>): seq<Message>
  {
    [Message(User, SummaryInstructions + ConversationText(messages))]
  }

  /** The summary made of the gateway's answer: a failure becomes the
      fallback text instead of an error. */
  function SummaryText(answer: Result<string, UpstreamError>): (s: string)
    ensures answer.Failure? ==> s == SummaryUnavailable
    ensures answer.Success? ==> s == answer.value
  {
    match answer
    case Success(summary) => summary
    case Failure(_) => SummaryUnavailable
  }

  // ------------------------------------------------------------ service

  class ChatService {
    const clinic: ClinicConfig
    const gateway: CompletionGateway
    /** `getMonicaSystemPrompt`: the persona prompt built from the clinic profile. */
    const systemPromptFor: ClinicConfig -> string

    constructor (clinic: ClinicConfig, gateway: CompletionGateway, systemPromptFor: ClinicConfig -> string)
      ensures this.clinic == clinic && this.gateway == gateway && this.systemPromptFor == systemPromptFor
    {
      this.clinic := clinic;
      this.gateway := gateway;
      this.systemPromptFor := systemPromptFor;
    }

    /** `processChat`. A guardrail on the last message answers with its
        canned text and never calls the gateway. Otherwise the gateway
        answers; a gateway failure becomes an error, and the PHI check of
        the reply does not change what is returned. */
    method ProcessChat(request: ChatRequest) returns (r: Result<ChatResponse, TurnError>)
      modifies gateway
      ensures |request.messages| == 0 ==>
        r == Failure(EmptyConversation) && gateway.requests == old(gateway.requests)
      ensures |request.messages| > 0 ==>
        var last := request.messages[|request.messages| - 1].content;
        && (Guardrails.EmergencyFires(last) ==>
              && gateway.requests == old(gateway.requests)
              && r == Success(ChatResponse(Guardrails.EmergencyResponse, request.sessionId,
                                           EmergencyCallCta, Some(Guardrails.Emergency))))
        && (!Guardrails.EmergencyFires(last) && Guardrails.MedicalAdviceFires(last) ==>
              && gateway.requests == old(gateway.requests)
              && r == Success(ChatResponse(Guardrails.MedicalAdviceResponse, request.sessionId,
                                           ConsultCta, Some(Guardrails.MedicalAdvice))))
        && (!Guardrails.EmergencyFires(last) && !Guardrails.MedicalAdviceFires(last) ==>
              && gateway.requests
                 == old(gateway.requests) + [ProviderMessages(systemPromptFor(clinic), request.messages)]
              && r == match old(gateway.Answer(systemPromptFor(clinic), request.messages))
                      case Failure(e) => Failure(Upstream(e))
                      case Success(ai) => Success(ChatResponse(ai, request.sessionId, DetermineCta(ai), None)))
    {
      if |request.messages| == 0 {
        return Failure(EmptyConversation);
      }
      var lastMessage := request.messages[|request.messages| - 1];
      var guardrailResult := Guardrails.CheckMessage(lastMessage.content);
      if guardrailResult.triggered {
        return Success(ChatResponse(guardrailResult.response.value, request.sessionId,
                                    GuardrailCta(guardrailResult.kind), guardrailResult.kind));
      }
      var systemPrompt := systemPromptFor(clinic);
      var aiResponse := gateway.Chat(systemPrompt, request.messages);
      if aiResponse.Failure? {
        return Failure(Upstream(aiResponse.error));
      }
      var safe := Guardrails.ValidateResponse(aiResponse.value);
      if !safe {
        // Only logged: the reply is returned unchanged.
      }
      var cta := DetermineCta(aiResponse.value);
      return Success(ChatResponse(aiResponse.value, request.sessionId, cta, None));
    }

    /** `getGreeting`: the gateway's answer to "Hello", with no
        call-to-action and no guardrail. */
    method GetGreeting(sessionId: string) returns (r: Result<ChatResponse, TurnError>)
      modifies gateway
      ensures gateway.requests == old(gateway.requests) + [ProviderMessages(systemPromptFor(clinic), GreetingMessages)]
      ensures r == match old(gateway.Answer(systemPromptFor(clinic), GreetingMessages))
                   case Failure(e) => Failure(Upstream(e))
                   case Success(greeting) => Success(ChatResponse(greeting, sessionId, NoAction, None))
    {
      var systemPrompt := systemPromptFor(clinic);
      var greeting := gateway.GenerateGreeting(systemPrompt);
      if greeting.Failure? {
        return Failure(Upstream(greeting.error));
      }
      return Success(ChatResponse(greeting.value, sessionId, NoAction, None));
    }

    /** `formatTranscript`, with the clock reading passed in. */
    method FormatTranscript(messages: seq<Message>, timestamp: string) returns (text: string)
      ensures text == Join(TranscriptLines(clinic.name, timestamp, messages), "\n")
    {
      var lines: seq<string> := [];
      lines := lines + [Banner];
      lines := lines + ["  CONVERSATION TRANSCRIPT - " + clinic.name];
      lines := lines + [Banner];
      lines := lines + ["Generated: " + timestamp];
      lines := lines + [Rule];
      lines := lines + [""];
      for index := 0 to |messages|
        invariant lines == Header(clinic.name, timestamp) + Rendered(messages, index)
      {
        var msg := messages[index];
        lines := lines + ["[" + Speaker(msg.role) + "]"];
        lines := lines + [msg.content];
        if index < |messages| - 1 {
          lines := lines + [""];
        }
      }
      lines := lines + [""];
      lines := lines + [Rule];
      lines := lines + [""];
      assert lines == TranscriptLines(clinic.name, timestamp, messages);
      text := Join(lines, "\n");
    }

    /** `generateSummary`: too short a conversation is not sent to the
        gateway, and a gateway failure gives the fallback text. */
    method GenerateSummary(messages: seq<Message>) returns (summary: string)
      modifies gateway
      ensures |messages| < 2 ==> summary == TooShortToSummarize && gateway.requests == old(gateway.requests)
      ensures |messages| >= 2 ==>
        && gateway.requests
           == old(gateway.requests) + [ProviderMessages(SummarizerPrompt, SummaryMessages(messages))]
        && summary == SummaryText(old(gateway.Answer(SummarizerPrompt, SummaryMessages(messages))))
    {
      if |messages| < 2 {
        return TooShortToSummarize;
      }
      var answer := gateway.Chat(SummarizerPrompt, SummaryMessages(messages));
      if answer.Failure? {
        return SummaryUnavailable;
      }
      return answer.value;
    }

    /** `generateTranscript`: the formatted transcript and its summary, with
        both clock readings passed in. */
    method GenerateTranscript(request: TranscriptRequest, timestamp: string, generatedAt: string)
      returns (response: TranscriptResponse)
      modifies gateway
      ensures response.transcript == Join(TranscriptLines(clinic.name, timestamp, request.messages), "\n")
      ensures response.sessionId == request.sessionId && response.generatedAt == generatedAt
      ensures |request.messages| < 2 ==>
        response.summary == TooShortToSummarize && gateway.requests == old(gateway.requests)
      ensures |request.messages| >= 2 ==>
        && gateway.requests
           == old(gateway.requests) + [ProviderMessages(SummarizerPrompt, SummaryMessages(request.messages))]
        && response.summary
           == SummaryText(old(gateway.Answer(SummarizerPrompt, SummaryMessages(request.messages))))
    {
      var transcript := FormatTranscript(request.messages, timestamp);
      var summary := GenerateSummary(request.messages);
      response := TranscriptResponse(summary, transcript, generatedAt, request.sessionId);
    }
  }
}
