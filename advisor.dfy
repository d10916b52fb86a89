/**
  The `ask` command of startup_discord_bot.py: the key check, the request
  sent to the text-generation provider, and the replies chosen from the
  provider's outcome, including the 1900-character slicing of long answers.
  The HTTP exchange itself is a caller-supplied function from the request to
  its outcome, so "no request is made" becomes "the provider is never consulted".
*/
module Advisor {
  import opened Wrappers
  import opened Messages
  import opened Chunking

  const NotConfigured: string := "⚠️ AI feature not configured. Add ANTHROPIC_API_KEY to Replit Secrets."
  const ApiUrl: string := "https://api.anthropic.com/v1/messages"
  const ApiVersion: string := "2023-06-01"
  const ModelId: string := "claude-sonnet-4-20250514"
  const MaxTokens: nat := 500
  /** The instruction template; the question follows it directly. */
  const PromptPrefix: string := "As a startup advisor, answer this question concisely (max 400 words): "
  const AdvisorTitle: string := "🤖 AI Startup Advisor"
  const Unavailable: string := "❌ AI service temporarily unavailable"
  /** The exception branch sends this followed by the exception's text. */
  const ErrorPrefix: string := "❌ Error: "

  datatype ChatMessage = ChatMessage(role: string, content: string)

  /** The JSON body `{model, max_tokens, messages}`. */
  datatype RequestBody = RequestBody(model: string, maxTokens: nat, messages: seq<ChatMessage>)

  datatype Request = Request(url: string, headers: seq<(string, string)>, body: RequestBody)

  /**
    What the provider call ends in: a response with its HTTP status and, for
    status 200, the text of the first content block; or an exception anywhere
    in the exchange (transport failure, a body without that text), carrying
    the exception's description.
  */
  datatype ApiOutcome = Response(status: int, answer: string) | Failure(description: string)

  /** The question a prompt wraps, or None when the content is not built from the template. */
  function PromptQuestion(content: string): (q: Option<string>)
    ensures q.Some? ==> content == PromptPrefix + q.value
  {
    if PromptPrefix <= content then Some(content[|PromptPrefix|..]) else None
  }

  /** The POST that `ask` sends for `question` with the configured key. */
  function BuildRequest(apiKey: string, question: string): (q: Request)
    ensures q.url == ApiUrl
    ensures q.headers == [("x-api-key", apiKey), ("anthropic-version", ApiVersion), ("content-type", "application/json")]
    ensures q.body.model == ModelId && q.body.maxTokens == 500
    ensures |q.body.messages| == 1 && q.body.messages[0].role == "user"
    ensures PromptQuestion(q.body.messages[0].content) == Some(question)
  {
    var content := PromptPrefix + question;
    assert content[|PromptPrefix|..] == question;
    Request(ApiUrl,
      [("x-api-key", apiKey), ("anthropic-version", ApiVersion), ("content-type", "application/json")],
      RequestBody(ModelId, MaxTokens, [ChatMessage("user", content)]))
  }

  /** Different questions give different requests: the question is carried whole. */
  lemma BuildRequestInjective(apiKey: string, q1: string, q2: string)
    requires BuildRequest(apiKey, q1) == BuildRequest(apiKey, q2)
    ensures q1 == q2
  {
    var c := BuildRequest(apiKey, q1).body.messages[0].content;
    assert PromptQuestion(c) == Some(q1) && PromptQuestion(c) == Some(q2);
  }

  /** One untitled embed per slice of a long answer. */
  function ChunkMessage(chunk: string): Message
  {
    Embed(None, Some(chunk), [], None)
  }

  /** The descriptions of a run of messages, in order. */
  function Descriptions(ms: seq<Message>): seq<string>
  {
    seq(|ms|, i requires 0 <= i < |ms| => DescriptionText(ms[i]))
  }

  /** One untitled embed per slice, in order. */
  function SliceMessages(chunks: seq<string>): (r: seq<Message>)
    ensures |r| == |chunks|
    ensures Descriptions(r) == chunks
  {
    seq(|chunks|, i requires 0 <= i < |chunks| => ChunkMessage(chunks[i]))
  }

  /** What a status-200 answer becomes: one titled embed if it fits, else its 1900-character slices in order. */
  function AnswerReplies(answer: string): (r: seq<Message>)
    ensures |answer| <= ChunkSize ==> r == [Embed(Some(AdvisorTitle), Some(answer), [], None)]
    ensures |answer| > ChunkSize ==>
      && |r| >= 2
      && (|r| - 1) * ChunkSize < |answer| <= |r| * ChunkSize
      && (forall i :: 0 <= i < |r| ==> r[i].Embed? && r[i].title.None? && r[i].description.Some? && r[i].fields == [] && r[i].footer.None?)
      && FixedWidthPieces(Descriptions(r))
      && Flatten(Descriptions(r)) == answer
  {
    if |answer| > ChunkSize then
      ChunksFlatten(answer);
      SliceMessages(Chunks(answer))
    else
      [Embed(Some(AdvisorTitle), Some(answer), [], None)]
  }

  /** The replies to the provider's outcome. */
  function OutcomeReplies(outcome: ApiOutcome): (r: seq<Message>)
    ensures |r| >= 1
    ensures outcome.Failure? ==> r == [Plain(ErrorPrefix + outcome.description)]
    ensures outcome.Response? && outcome.status != 200 ==> r == [Plain(Unavailable)]
    ensures outcome.Response? && outcome.status == 200 ==> r == AnswerReplies(outcome.answer)
    ensures outcome.Response? && outcome.status == 200 ==> Flatten(Descriptions(r)) == outcome.answer
  {
    match outcome
    case Failure(d) => [Plain(ErrorPrefix + d)]
    case Response(status, answer) =>
      if status == 200 then AnswerReplies(answer) else [Plain(Unavailable)]
  }

  /** What one `!ask` does: the request it sends, if any, and the replies. */
  datatype AskResult = AskResult(request: Option<Request>, replies: seq<Message>)

  /** `!ask <question>` with the configured key (empty when unset) and the provider behind the endpoint. */
  function Ask(apiKey: string, question: string, provider: Request -> ApiOutcome): (r: AskResult)
    ensures r.request.None? <==> apiKey == ""
    ensures apiKey == "" ==> r.replies == [Plain(NotConfigured)]
    ensures r.request.Some? ==>
      && r.request.value == BuildRequest(apiKey, question)
      && r.replies == OutcomeReplies(provider(r.request.value))
  {
    if apiKey == "" then
      AskResult(None, [Plain(NotConfigured)])
    else
      var request := BuildRequest(apiKey, question);
      AskResult(Some(request), OutcomeReplies(provider(request)))
  }

  /** Without a key the provider is never consulted: any two providers give the same result. */
  lemma AskWithoutKeyMakesNoRequest(question: string, p1: Request -> ApiOutcome, p2: Request -> ApiOutcome)
    ensures Ask("", question, p1) == Ask("", question, p2)
  {
  }

  /** A 200 answer of 4500 characters goes out as three untitled embeds of 1900, 1900 and 700 characters. */
  lemma AnswerOf4500(answer: string)
    requires |answer| == 4500
    ensures AnswerReplies(answer) == [ChunkMessage(answer[..1900]), ChunkMessage(answer[1900..3800]), ChunkMessage(answer[3800..])]
  {
    ChunksOf4500(answer);
  }

  /** Sending one more slice extends the messages by that slice's embed. */
  lemma SliceMessagesStep(chunks: seq<string>, k: nat)
    requires k < |chunks|
    ensures SliceMessages(chunks[..k + 1]) == SliceMessages(chunks[..k]) + [ChunkMessage(chunks[k])]
  {
  }

  /** Sends the slices of a long answer one by one, each as an untitled embed. */
  method SendSlices(ch: Channel, answer: string, chunks: seq<string>)
    requires chunks == Chunks(answer)
    modifies ch
    ensures ch.sent == old(ch.sent) + SliceMessages(chunks)
  {
    ghost var before := ch.sent;
    for k := 0 to |chunks|
      invariant ch.sent == before + SliceMessages(chunks[..k])
      invariant Flatten(Descriptions(SliceMessages(chunks[..k]))) == answer[..Min(k * ChunkSize, |answer|)]
    {
      ch.Send(ChunkMessage(chunks[k]));
      SliceMessagesStep(chunks, k);
      ChunksPrefix(answer, k + 1);
    }
    assert chunks[..|chunks|] == chunks;
  }

  /** Sends a status-200 answer: one titled embed, or the slices one by one. */
  method SendAnswer(ch: Channel, answer: string)
    modifies ch
    ensures ch.sent == old(ch.sent) + AnswerReplies(answer)
  {
    if |answer| > ChunkSize {
      var chunks := Chunks(answer);
      SendSlices(ch, answer, chunks);
    } else {
      ch.Send(Embed(Some(AdvisorTitle), Some(answer), [], None));
    }
  }

  method AskAi(ch: Channel, apiKey: string, question: string, provider: Request -> ApiOutcome)
    modifies ch
    ensures ch.sent == old(ch.sent) + Ask(apiKey, question, provider).replies
  {
    if apiKey == "" {
      ch.Send(Plain(NotConfigured));
      return;
    }
    var request := BuildRequest(apiKey, question);
    var outcome := provider(request);
    match outcome
    case Failure(d) =>
      ch.Send(Plain(ErrorPrefix + d));
    case Response(status, answer) =>
      if status == 200 {
        SendAnswer(ch, answer);
      } else {
        ch.Send(Plain(Unavailable));
      }
  }
}
