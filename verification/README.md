# Monica chat backend: guardrails and response shaping, in Dafny

This project models the safety and response-shaping pipeline of the Monica
chat backend. Monica is a clinic's virtual health assistant.

- **Guardrail evaluator.** It checks each user message for emergencies and
  for requests for medical advice. It checks each assistant reply for requests
  for protected health information (PHI).
- **Chat service.** It runs one chat turn. A guardrail either answers with a
  canned text, or the language-model gateway answers and a call-to-action (CTA)
  is chosen from the reply. The service also produces the opening greeting, the
  formatted transcript and the transcript's summary.

Files and modules:

- `wrappers.dfy` (`Wrappers`): `Option` and `Result`.
- `text.dfy` (`Text`): ASCII lower-casing, `includes`, `join`, and the regular-expression
  character classes `\s`, `\w`, `\d` and `.`.
- `patterns.dfy` (`Patterns`): the 17 regular expressions of the guardrail
  service. Each is a named constructor, and `Holds` states, pattern by pattern,
  what a match is.
- `guardrails.dfy` (`Guardrails`): the keyword and pattern lists, the two canned
  replies and the checks. Each check is a search loop proved against an `exists`
  specification.
- `config.dfy` (`Config`), `dto.dfy` (`ChatDto`): the clinic profile and the
  request and response shapes.
- `gateway.dfy` (`OpenAi`): the completion gateway. It is a class that records
  every message list it sends to the provider. The provider's answer to the n-th
  request is a parameter `provider(n, messages)`. "The gateway was not called"
  is stated as "`requests` is unchanged".
- `chat.dfy` (`Chat`): CTA classification, the transcript layout, the summary,
  and the `ChatService` class.

Two behaviours of the code are kept as written:

- A chat request with no messages is not rejected before the turn runs. The
  service reads `content` of an undefined last message and fails. The model
  returns `Failure(EmptyConversation)` and does not call the gateway.
- A reply that fails the PHI check is returned unchanged.

## Model

| member | source | states |
|---|---|---|
| Patterns.TestIgnoresCase | backend/src/guardrails/guardrails.service.ts:35-57 | every medical-advice and PHI pattern carries the `i` flag, so changing the case of letters never changes whether it matches |
| Patterns.DoseQuestionMatches | backend/src/guardrails/guardrails.service.ts:36 | "How many mg of ibuprofen should I take?" matches the dosage-question pattern |
| Patterns.BirthDateQuestionMatches | backend/src/guardrails/guardrails.service.ts:51 | "What is your date of birth?" matches the date-of-birth PHI pattern |
| Guardrails.Classify | backend/src/guardrails/guardrails.service.ts:59-107 | the result is an emergency exactly when some emergency keyword occurs in the lower-cased message. It is medical advice exactly when no keyword occurs and some medical-advice pattern matches. Otherwise nothing triggers. `triggered` holds exactly when the type is non-null. Every triggered result carries its canned reply. The type is never `phi_request` |
| Guardrails.CheckMessage | backend/src/guardrails/guardrails.service.ts:59-77 | `checkMessage` returns the result `Classify` describes: the emergency check first, the medical-advice check only if the emergency check did not fire |
| Guardrails.CheckEmergency | backend/src/guardrails/guardrails.service.ts:79-93 | the early-return loop over the keywords returns the emergency result exactly when some keyword is a substring of the lower-cased message. The result does not depend on which keyword matched. Otherwise it returns `{triggered: false, type: null}` |
| Guardrails.CheckMedicalAdvice | backend/src/guardrails/guardrails.service.ts:95-107 | the early-return loop over the patterns returns the medical-advice result exactly when some pattern matches the message, and the untriggered result otherwise |
| Guardrails.ValidateResponse | backend/src/guardrails/guardrails.service.ts:109-117 | `validateResponse` is false exactly when some PHI pattern matches the reply |
| Guardrails.EmergencyWhateverElse | backend/src/guardrails/guardrails.service.ts:59-93 | a message containing an emergency keyword is classified as an emergency whatever text surrounds it |
| Guardrails.ClassifyIgnoresCase | backend/src/guardrails/guardrails.service.ts:59-107 | two messages that differ only in the case of letters get the same guardrail result |
| Guardrails.KillMyselfIsEmergency | backend/src/guardrails/guardrails.service.ts:79-90 | "I want to kill myself" gets the emergency result |
| Guardrails.ChestPainWithDoseQuestionIsEmergency | backend/src/guardrails/guardrails.service.ts:37-70 | "I'm having chest pain, what dose of aspirin should I take" matches the "what dose" medical-advice pattern, and still it is classified as an emergency, not medical advice, because the emergency check runs first |
| OpenAi.ProviderMessages | backend/src/openai/openai.service.ts:18-25 | the provider receives the system prompt as the first message, then the conversation unchanged and in order |
| OpenAi.Outcome | backend/src/openai/openai.service.ts:27-44 | a provider error becomes the single "failed to get response" error. A missing or empty completion becomes the apology text, so a successful call never returns "". Non-empty content is returned as is |
| OpenAi.CompletionGateway.Chat | backend/src/openai/openai.service.ts:18-45 | exactly one request is sent per call, with no retry, and the result is what the provider answered |
| OpenAi.CompletionGateway.GenerateGreeting | backend/src/openai/openai.service.ts:47-56 | the greeting is `chat` with the single user message "Hello" |
| Chat.MentionsAsListed | backend/src/chat/chat.service.ts:89-108 | the two `includes` chains of `determineCta` test exactly the words of the bloodwork list and of the consultation list |
| Chat.DetermineCta | backend/src/chat/chat.service.ts:86-116 | a bloodwork word (bloodwork, lab, panel, testing) in the lower-cased reply gives `bloodwork_info`, also when a consultation word is present. Otherwise a consultation word (consult, book, schedule, appointment) gives `book_consult`. Otherwise the result is `{type: 'none'}`. Each case has its fixed label |
| Chat.DetermineCtaIgnoresCase | backend/src/chat/chat.service.ts:86-87 | the case of letters in the reply never changes its CTA |
| Chat.GuardrailCta | backend/src/chat/chat.service.ts:43-46 | a guardrail trigger gets `{emergency, 'Call 911'}` exactly when its type is emergency, and `{book_consult, 'Book a Consultation'}` otherwise |
| Chat.Speaker | backend/src/chat/chat.service.ts:147 | the speaker is "Monica (AI Assistant)" exactly for the assistant role, and "You" for every other role |
| Chat.RenderedLayout | backend/src/chat/chat.service.ts:146-153 | message i occupies lines 3i (`[speaker]`) and 3i+1 (its content). Line 3i+2 is blank unless message i is the last. The messages take 3n-1 lines, or none when there are no messages |
| Chat.TranscriptLayout | backend/src/chat/chat.service.ts:135-160 | a transcript has a 6-line header: banner, title with the clinic name, banner, `Generated: <ts>`, rule, blank. Then the message lines, then a 3-line footer: blank, rule, blank. That makes 6 + 3n - 1 + 3 lines for n >= 1 messages, and 9 lines for none |
| Chat.GreetingExchangeTranscript | backend/src/chat/chat.service.ts:135-160 | `[{user, "Hi"}, {assistant, "Hello"}]` renders as the header, `[You]`, `Hi`, a blank line, `[Monica (AI Assistant)]`, `Hello`, then the footer |
| Chat.SummaryText | backend/src/chat/chat.service.ts:183-192 | a gateway failure becomes "Summary unavailable. Please review the transcript above." instead of an error. A successful answer is the summary |
| Chat.ChatService.constructor | backend/src/chat/chat.service.ts:21-28 | the service keeps the clinic profile, the gateway and the prompt builder it is given |
| Chat.ChatService.ProcessChat | backend/src/chat/chat.service.ts:30-72 | a request without messages fails without calling the gateway. An emergency in the last message returns exactly `{emergency text, sessionId, Call 911, 'emergency'}`, and a medical-advice request returns exactly `{medical-advice text, sessionId, Book a Consultation, 'medical_advice'}`. In both cases the gateway is not called. Otherwise exactly one gateway request (the persona prompt, then the whole conversation) is sent. A gateway failure becomes an error. A reply becomes `{reply, sessionId, determineCta(reply), null}` whatever the PHI check says |
| Chat.ChatService.GetGreeting | backend/src/chat/chat.service.ts:74-84 | one greeting request is sent. Its answer is returned with the given sessionId, `cta = {type: 'none'}` and `guardrailTriggered = null`. A gateway failure becomes an error |
| Chat.ChatService.FormatTranscript | backend/src/chat/chat.service.ts:135-160 | the text is the transcript's lines (see TranscriptLayout) joined with newlines |
| Chat.ChatService.GenerateSummary | backend/src/chat/chat.service.ts:162-193 | fewer than 2 messages give "Conversation too short to summarize." and no gateway call. Otherwise exactly one summarization request is sent, and a failure gives the fallback text instead of an error |
| Chat.ChatService.GenerateTranscript | backend/src/chat/chat.service.ts:118-133 | the response holds the formatted transcript, the summary as `generateSummary` gives it, the given generation time and the request's sessionId |

## Left out

- Case mapping of non-ASCII characters. `Text.Lower` maps only `A`-`Z`. JavaScript's
  `toLowerCase` also maps other letters, for example the Kelvin sign to `k`, and
  "İ" to two characters. So a message that reaches an emergency keyword only
  through such a mapping is not an emergency in the model. For the `i` flag of
  the patterns, ASCII folding is exact, because every pattern letter is ASCII and
  no `u` flag is set.
- UTF-16 code units. Dafny characters are Unicode scalar values, while JavaScript
  strings are UTF-16 code units. None of the patterns or keywords contains a
  character outside the Basic Multilingual Plane.
- Regular-expression matching in general. There is no regex engine. Each of the
  17 fixed patterns is written out as the predicate of what a match is
  (`Patterns.Holds`).
- `getMonicaSystemPrompt` (backend/src/prompts/monica.prompt.ts). It is a static
  template and becomes the `systemPromptFor` parameter of the chat service.
- Loading the clinic profile from the environment (backend/src/config/clinic.config.ts).
  The profile is a constructor parameter.
- The OpenAI SDK call itself: the model name, temperature, token limit and
  penalties, and the role cast. The provider is the `provider` parameter of the
  gateway.
- Clocks. `toLocaleString()` and `toISOString()` are passed in as `timestamp` and `generatedAt`.
- Console logging. This covers the warning when a reply asks for PHI, and the
  error logs of the gateway and of the summary.
- Asynchrony. `async`/`await` is modelled as sequential calls.
- The HTTP controller. This covers session-id generation for the greeting and the
  health endpoint. The unused `clinicId` of a request is carried but never read.
- The avatar provider proxy, the frontend, the embed script and the framework modules.
- No lemma shows that a concrete ordinary reply passes the PHI check. Proving that
  no pattern matches a given text would mean ruling out every position of every
  pattern.
