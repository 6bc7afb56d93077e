/** `generate_reply` of backend/app/ai_engine.py: the prompt, the outbound
    chat-completion request, the extraction of the first choice's text with
    its apology fallback, the local template reply, and the choice between
    the external and the local mode. */
module AiEngine {
  import opened Wrappers
  import opened Text
  import opened PyJson

  // ---------------------------------------------------------------------
  // Fixed texts and settings

  const PromptIntro := "You are a customer support assistant for this business:\n"
  const CustomerLead := "\n\nCustomer: "
  const AssistantCue := "\nAssistant:"

  const Greeting := "Hello! Thanks for your message. Based on the business info I have, here's a helpful reply:\n\n"
  const Ellipsis := "..."
  const ResponseLead := "\n\nResponse to your message: "
  const CallToAction := "\n\nIf you'd like more details or want a human to follow up, say 'talk to human'."
  /** How many characters of the business text the local reply quotes. */
  const ExcerptLimit: nat := 500

  const Apology := "Sorry, I couldn't generate a reply right now."

  const CompletionsUrl := "https://api.openai.com/v1/chat/completions"
  const ModelName := "gpt-4o-mini"
  const SystemInstruction := "You are a helpful assistant that replies concisely"
  const MaxTokens := 250
  const TimeoutSeconds: nat := 30
  const BearerPrefix := "Bearer "

  // ---------------------------------------------------------------------
  // Configuration: the mode is chosen by the API key, passed in explicitly

  /** The value `os.getenv('OPENAI_API_KEY')` had at start-up. */
  datatype Config = Config(openAiKey: Option<string>)

  /** `bool(OPENAI_KEY)`: Python treats `None` and `""` as false, every
      other string (even one of spaces) as true. */
  predicate UseOpenAi(cfg: Config) {
    match cfg.openAiKey
    case None => false
    case Some(key) => key != ""
  }

  // ---------------------------------------------------------------------
  // Prompt

  /** The prompt sent to the model: a fixed introduction, the business text,
      a customer marker, the customer's message and a cue for the answer.
      Its layout is stated by `PromptLayout`. */
  function BuildPrompt(business: string, message: string): (p: string)
    ensures |p| == |PromptIntro| + |business| + |CustomerLead| + |message| + |AssistantCue|
  {
    PromptIntro + business + CustomerLead + message + AssistantCue
  }

  /** Where each part sits in the prompt: both inputs appear verbatim, the
      business text right after the introduction and the message between
      the customer marker and the closing cue. */
  lemma PromptLayout(business: string, message: string)
    ensures var p := BuildPrompt(business, message);
            && p[..|PromptIntro|] == PromptIntro
            && p[|PromptIntro|..|PromptIntro| + |business|] == business
            && p[|PromptIntro| + |business|..|p| - |AssistantCue| - |message|] == CustomerLead
            && p[|p| - |AssistantCue| - |message|..|p| - |AssistantCue|] == message
            && p[|p| - |AssistantCue|..] == AssistantCue
  {
  }

  /** Knowing where the business text ends, the prompt gives back both inputs. */
  lemma PromptInjective(b1: string, m1: string, b2: string, m2: string)
    requires BuildPrompt(b1, m1) == BuildPrompt(b2, m2)
    requires |b1| == |b2|
    ensures b1 == b2 && m1 == m2
  {
    PromptLayout(b1, m1);
    PromptLayout(b2, m2);
  }

  /** Without that knowledge it does not: a business text that contains the
      customer marker reads the same as a shorter one followed by a message
      carrying the rest. */
  lemma PromptNotInjective(x: string, y: string, message: string)
    ensures BuildPrompt(x + CustomerLead + y, message) == BuildPrompt(x, y + CustomerLead + message)
    ensures x + CustomerLead + y != x
  {
    assert |x + CustomerLead + y| > |x|;
  }

  // ---------------------------------------------------------------------
  // Outbound request (external mode)

  /** What `client.post(url, json=data, headers=headers)` is given, with the
      client's timeout in seconds. */
  datatype HttpRequest = HttpRequest(url: string, headers: map<string, string>, body: Value, timeoutSeconds: nat)

  /** The chat-completion request for `prompt`, authorised with `key`. */
  function BuildRequest(key: string, prompt: string): (req: HttpRequest)
    ensures req.url == CompletionsUrl && req.timeoutSeconds == TimeoutSeconds
    ensures BearerKey(req) == Some(key)
    ensures RequestContent(req, 0, "system") == Some(SystemInstruction)
    ensures RequestContent(req, 1, "user") == Some(prompt)
    ensures Subscript(req.body, Name("model")) == Some(Str(ModelName))
    ensures Subscript(req.body, Name("max_tokens")) == Some(Int(MaxTokens))
    ensures req.headers.Keys == {"Authorization"}
    ensures req.body.Dict? && req.body.entries.Keys == {"model", "messages", "max_tokens"}
    ensures var messages := req.body.entries["messages"]; messages.List? && |messages.items| == 2
    ensures forall i :: 0 <= i < 2 ==> RequestFields(req, i) == {"role", "content"}
  {
    var messages := [
      Dict(map["role" := Str("system"), "content" := Str(SystemInstruction)]),
      Dict(map["role" := Str("user"), "content" := Str(prompt)])
    ];
    var data := Dict(map["model" := Str(ModelName), "messages" := List(messages), "max_tokens" := Int(MaxTokens)]);
    HttpRequest(CompletionsUrl, map["Authorization" := BearerPrefix + key], data, TimeoutSeconds)
  }

  /** The keys of message number `i` of a request body; empty when there is
      no such message or it is not an object. */
  function RequestFields(req: HttpRequest, i: int): set<string> {
    match Subscript(req.body, Name("messages"))
    case Some(List(items)) =>
      if 0 <= i < |items| && items[i].Dict? then items[i].entries.Keys else {}
    case _ => {}
  }

  /** The key carried by a request's `Authorization: Bearer <key>` header. */
  function BearerKey(req: HttpRequest): Option<string> {
    if "Authorization" in req.headers && BearerPrefix <= req.headers["Authorization"]
    then Some(req.headers["Authorization"][|BearerPrefix|..])
    else None
  }

  /** The `content` of message number `i` of a request body, provided that
      message has the given `role`. */
  function RequestContent(req: HttpRequest, i: int, role: string): Option<string> {
    var messages :- Subscript(req.body, Name("messages"));
    var message :- Subscript(messages, Index(i));
    var r :- Subscript(message, Name("role"));
    var content :- Subscript(message, Name("content"));
    if r == Str(role) && content.Str? then Some(content.s) else None
  }

  // ---------------------------------------------------------------------
  // Reading the reply out of the response body

  /** The response shape the extraction accepts: an object whose `choices`
      is a non-empty list whose first element is an object with a `message`
      object whose `content` is a string. */
  predicate WellShaped(body: Value) {
    && body.Dict? && "choices" in body.entries
    && var choices := body.entries["choices"];
    && choices.List? && |choices.items| > 0
    && var first := choices.items[0];
    && first.Dict? && "message" in first.entries
    && var message := first.entries["message"];
    && message.Dict? && "content" in message.entries
    && message.entries["content"].Str?
  }

  /** The first choice's text in a well-shaped body. */
  function Content(body: Value): string
    requires WellShaped(body)
  {
    body.entries["choices"].items[0].entries["message"].entries["content"].s
  }

  /** `r['choices'][0]['message']['content'].strip()`, step by step with
      Python's subscript rules; `None` where one of the steps raises
      (`KeyError`, `IndexError`, `TypeError`, or `AttributeError` when the
      content is not a string and so has no `strip`). */
  function ExtractReply(body: Value): (r: Option<string>)
    ensures r.Some? <==> WellShaped(body)
    ensures r.Some? ==> r.value == Strip(Content(body))
  {
    var choices :- Subscript(body, Name("choices"));
    var first :- Subscript(choices, Index(0));
    var message :- Subscript(first, Name("message"));
    var content :- Subscript(message, Name("content"));
    if content.Str? then Some(Strip(content.s)) else None
  }

  /** The `try`/`except Exception` around the extraction: a body of any
      other shape yields the fixed apology. */
  function ReplyFromBody(body: Value): (r: string)
    ensures WellShaped(body) ==> r == Strip(Content(body))
    ensures !WellShaped(body) ==> r == Apology
  {
    match ExtractReply(body)
    case Some(text) => text
    case None => Apology
  }

  // ---------------------------------------------------------------------
  // Local template reply

  /** Python's `len(s[:500])`. */
  function ExcerptLength(business: string): (k: nat)
    ensures k <= ExcerptLimit && k <= |business|
    ensures k == ExcerptLimit || k == |business|
  {
    |Take(business, ExcerptLimit)|
  }

  /** Length of the template with every slot empty. */
  const TemplateLength: nat := |Greeting| + |Ellipsis| + |ResponseLead| + |CallToAction|

  /** The reply used when no API key is configured: a greeting, at most the
      first 500 characters of the business text, an ellipsis, the customer's
      message after a fixed lead, and a call to action. Its layout is stated
      by `FallbackLayout`. */
  function FallbackReply(business: string, message: string): (r: string)
    ensures |r| == TemplateLength + ExcerptLength(business) + |message|
  {
    Greeting + Take(business, ExcerptLimit) + Ellipsis + ResponseLead + message + CallToAction
  }

  /** Where each part sits in the local reply: the greeting first, then the
      excerpt (a prefix of the business text), the ellipsis, the lead, the
      message verbatim, and the call to action last. */
  lemma FallbackLayout(business: string, message: string)
    ensures var r, k := FallbackReply(business, message), ExcerptLength(business);
            && r[..|Greeting|] == Greeting
            && r[|Greeting|..|Greeting| + k] == business[..k]
            && r[|Greeting| + k..|Greeting| + k + |Ellipsis|] == Ellipsis
            && r[|Greeting| + k + |Ellipsis|..|r| - |CallToAction| - |message|] == ResponseLead
            && r[|r| - |CallToAction| - |message|..|r| - |CallToAction|] == message
            && r[|r| - |CallToAction|..] == CallToAction
  {
    var k := ExcerptLength(business);
    var excerpt := Take(business, ExcerptLimit);
    assert excerpt == business[..k];
    Layout6(Greeting, excerpt, Ellipsis, ResponseLead, message, CallToAction);
  }

  /** Offsets of the six parts of a concatenation. This lemma and `DropEmpty`
      and `SlotShift` below state their facts over free strings: proved
      directly on the long template constants, the same steps cost the
      solver several times more and exceed its resource limit. */
  lemma Layout6(a: string, b: string, c: string, d: string, e: string, f: string)
    ensures var r := a + b + c + d + e + f;
            && r[..|a|] == a
            && r[|a|..|a| + |b|] == b
            && r[|a| + |b|..|a| + |b| + |c|] == c
            && r[|a| + |b| + |c|..|r| - |f| - |e|] == d
            && r[|r| - |f| - |e|..|r| - |f|] == e
            && r[|r| - |f|..] == f
  {
  }

  /** The reply depends on the business text only through its first 500
      characters: beyond that, it neither changes nor grows. */
  lemma FallbackDependsOnlyOnExcerpt(b1: string, b2: string, message: string)
    requires Take(b1, ExcerptLimit) == Take(b2, ExcerptLimit)
    ensures FallbackReply(b1, message) == FallbackReply(b2, message)
    ensures |FallbackReply(b1, message)| <= TemplateLength + ExcerptLimit + |message|
  {
  }

  /** With both inputs empty the reply is the bare template. */
  lemma FallbackOfEmptyInputs()
    ensures FallbackReply("", "") == Greeting + Ellipsis + ResponseLead + CallToAction
    ensures |FallbackReply("", "")| == TemplateLength
  {
    assert Take("", ExcerptLimit) == "";
    DropEmpty(Greeting, Ellipsis, ResponseLead, CallToAction);
  }

  lemma DropEmpty(a: string, c: string, d: string, f: string)
    ensures a + "" + c + d + "" + f == a + c + d + f
  {
  }

  /** Knowing the excerpt's length, the reply gives back the excerpt and the
      customer's message. */
  lemma FallbackInjective(b1: string, m1: string, b2: string, m2: string)
    requires FallbackReply(b1, m1) == FallbackReply(b2, m2)
    requires ExcerptLength(b1) == ExcerptLength(b2)
    ensures Take(b1, ExcerptLimit) == Take(b2, ExcerptLimit)
    ensures m1 == m2
  {
    FallbackLayout(b1, m1);
    FallbackLayout(b2, m2);
    var k := ExcerptLength(b1);
    assert Take(b1, ExcerptLimit) == b1[..k];
    assert Take(b2, ExcerptLimit) == b2[..k];
  }

  /** Without it the reply does not: an excerpt that itself ends in the
      ellipsis and the message lead reads the same as the shorter excerpt
      before a message that starts with them. */
  lemma FallbackNotInjective(x: string, message: string)
    requires |x| + |Ellipsis| + |ResponseLead| <= ExcerptLimit
    ensures FallbackReply(x + Ellipsis + ResponseLead, message) == FallbackReply(x, Ellipsis + ResponseLead + message)
    ensures x + Ellipsis + ResponseLead != x
  {
    FallbackOfShort(x + Ellipsis + ResponseLead, message);
    FallbackOfShort(x, Ellipsis + ResponseLead + message);
    SlotShift(Greeting, x, Ellipsis, ResponseLead, message, CallToAction);
  }

  /** A business text within the limit is quoted whole. */
  lemma FallbackOfShort(business: string, message: string)
    requires |business| <= ExcerptLimit
    ensures FallbackReply(business, message) == Greeting + business + Ellipsis + ResponseLead + message + CallToAction
  {
  }

  /** Moving a copy of the separator `e + r` from the end of the first slot
      to the start of the second leaves the text unchanged. */
  lemma SlotShift(g: string, x: string, e: string, r: string, m: string, c: string)
    ensures g + (x + e + r) + e + r + m + c == g + x + e + r + (e + r + m) + c
  {
  }

  // ---------------------------------------------------------------------
  // generate_reply

  /** Why `client.post(...)` or `res.json()` raised: these escape
      `generate_reply`, which catches errors of the extraction only. The
      label only names the kind of failure; `OtherError` covers every other
      exception the client can raise (protocol, read or encoding errors). */
  datatype TransportError = ConnectFailed | TimedOut | BodyNotJson | OtherError

  /** What the outbound call produced: the parsed JSON body, whatever the
      HTTP status, or the exception it raised. */
  datatype Upstream = Parsed(body: Value) | Failed(error: TransportError)

  /** What `generate_reply` does: return a reply, or raise. */
  datatype Outcome = Replied(text: string) | Raised(error: TransportError)

  /** The request `generate_reply` sends in external mode. */
  function ExternalRequest(cfg: Config, business: string, message: string): (req: HttpRequest)
    requires UseOpenAi(cfg)
    ensures BearerKey(req) == cfg.openAiKey
    ensures RequestContent(req, 1, "user") == Some(BuildPrompt(business, message))
  {
    BuildRequest(cfg.openAiKey.value, BuildPrompt(business, message))
  }

  /** `generate_reply(business_text, user_message)` under configuration
      `cfg`, with `post` standing for the HTTP call and `res.json()`. */
  function GenerateReply(cfg: Config, business: string, message: string, post: HttpRequest -> Upstream): (r: Outcome)
    ensures !UseOpenAi(cfg) ==> r == Replied(FallbackReply(business, message))
    ensures r.Raised? <==> UseOpenAi(cfg) && post(ExternalRequest(cfg, business, message)).Failed?
    ensures r.Raised? ==> r.error == post(ExternalRequest(cfg, business, message)).error
    ensures UseOpenAi(cfg) && post(ExternalRequest(cfg, business, message)).Parsed? ==>
              var body := post(ExternalRequest(cfg, business, message)).body;
              r == Replied(if WellShaped(body) then Strip(Content(body)) else Apology)
  {
    var prompt := BuildPrompt(business, message);
    if UseOpenAi(cfg) then
      match post(BuildRequest(cfg.openAiKey.value, prompt))
      case Failed(e) => Raised(e)
      case Parsed(body) => Replied(ReplyFromBody(body))
    else
      Replied(FallbackReply(business, message))
  }

  /** In local mode the outbound call is never made: any two transports give
      the same reply. */
  lemma LocalModeIgnoresTransport(cfg: Config, business: string, message: string,
                                  post1: HttpRequest -> Upstream, post2: HttpRequest -> Upstream)
    requires !UseOpenAi(cfg)
    ensures GenerateReply(cfg, business, message, post1) == GenerateReply(cfg, business, message, post2)
  {
  }
}
