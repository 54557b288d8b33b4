/** The completion gateway: the one call to the language-model provider.
    The provider is a parameter. It answers the n-th request (counting from
    0) with `provider(n, messages)`, so two identical requests may get
    different answers. `requests` records, in order, every message list sent
    to it; a method that leaves `requests` unchanged made no call. */
module OpenAi {
  import opened Wrappers
  import opened ChatDto

  /** What the provider answered: an error (network, authentication, rate
      limit, malformed response), or a completion whose content may be missing. */
  datatype ProviderReply = ProviderError | Completion(content: Option<string>)

  /** The error `chat` throws whatever went wrong: "Failed to get response from AI". */
  datatype UpstreamError = FailedToGetResponse

  const Apology: string := "I apologize, I had trouble processing that. Could you try again?"

  /** The message list sent to the provider: the system prompt first, then
      the conversation in the caller's order. */
  function ProviderMessages(systemPrompt: string, messages: seq<Message>): (r: seq<Message>)
    ensures |r| == |messages| + 1 && r[0] == Message(System, systemPrompt) && r[1..] == messages
  {
    [Message(System, systemPrompt)] + messages
  }

  /** What `chat` makes of the provider's reply. A missing or empty content
      becomes the apology text, so a successful call never yields "". */
  function Outcome(reply: ProviderReply): (r: Result<string, UpstreamError>)
    ensures r.Failure? <==> reply.ProviderError?
    ensures r.Success? ==> r.value != ""
    ensures reply.Completion? && reply.content.Some? && reply.content.value != "" ==> r == Success(reply.content.value)
    ensures reply.Completion? && (reply.content.None? || reply.content.value == "") ==> r == Success(Apology)
  {
    match reply
    case ProviderError => Failure(FailedToGetResponse)
    case Completion(content) =>
      if content.Some? && content.value != "" then Success(content.value) else Success(Apology)
  }

  /** The one-message conversation the greeting submits. */
  const GreetingMessages: seq<Message> := [Message(User, "Hello")]

  class CompletionGateway {
    const provider: (nat, seq<Message>) -> ProviderReply
    var requests: seq<seq<Message>>

    constructor (provider: (nat, seq<Message>) -> ProviderReply)
      ensures this.provider == provider && requests == []
    {
      this.provider := provider;
      requests := [];
    }

    /** What the next call of `Chat(systemPrompt, messages)` returns. */
    function Answer(systemPrompt: string, messages: seq<Message>): Result<string, UpstreamError>
      reads this
    {
      Outcome(provider(|requests|, ProviderMessages(systemPrompt, messages)))
    }

    /** `chat`: one request to the provider, no retry. */
    method Chat(systemPrompt: string, messages: seq<Message>) returns (r: Result<string, UpstreamError>)
      modifies this
      ensures requests == old(requests) + [ProviderMessages(systemPrompt, messages)]
      ensures r == old(Answer(systemPrompt, messages))
    {
      var formattedMessages := ProviderMessages(systemPrompt, messages);
      var reply := provider(|requests|, formattedMessages);
      requests := requests + [formattedMessages];
      r := Outcome(reply);
    }

    /** `generateGreeting`: `chat` with the single user message "Hello". */
    method GenerateGreeting(systemPrompt: string) returns (r: Result<string, UpstreamError>)
      modifies this
      ensures requests == old(requests) + [ProviderMessages(systemPrompt, GreetingMessages)]
      ensures r == old(Answer(systemPrompt, GreetingMessages))
    {
      r := Chat(systemPrompt, GreetingMessages);
    }
  }
}
