/**
 * The `POST` handler of the content route, abstracted from HTTP.
 *
 * The request body is the parsed JSON (`None` when `request.json()` throws);
 * `reread` is what the second `request.json()` in the outer `catch` gives.
 * Which keys are configured, what the backend replies, and which strings
 * `JSON.parse` accepts are parameters.
 */
module ContentRoute {
  import opened Wrappers
  import opened Text
  import opened KeyFailover
  import opened ContentPrompts
  import opened ContentFallback

  /** The members of the request body the handler reads. */
  datatype Request = Request(topicName: Option<string>, contentType: Option<string>, subjectName: Option<string>,
                             syllabus: Option<string>, testConfig: Option<TestConfig>)

  /** The `content` of a successful response: the model's text, a parsed JSON array, or fallback material. */
  datatype Body = Generated(text: string) | ParsedJson(source: string) | Canned(material: Content)

  /**
   * The JSON the handler answers with: `success: true` with the content, the
   * echoed kind and topic, the fallback flag and message; or status 400.
   */
  datatype Response =
    | Success(content: Body, contentType: Option<string>, topicName: Option<string>, fallback: bool, message: Option<string>)
    | InvalidContentType

  datatype Handled = Handled(response: Response, trace: seq<Event>)

  const NoKeyMessage := "Using high-quality educational content. AI enhancement available with API key."
  const OverloadedMessage := "All AI services are currently overloaded. Using comprehensive educational content. Please try again in a few minutes."
  const UnavailableMessage := "AI service temporarily unavailable. Using high-quality educational content."
  const RecoveredMessage := "Using educational content. Service will be available when quota resets."
  const BasicMessage := "Using educational content."

  /** The fallback material for the request's own fields. */
  function FallbackFor(req: Request): Content {
    FallbackContent(req.contentType, req.topicName, req.subjectName, req.testConfig)
  }

  /**
   * The structured-output step for flashcards and quiz: the greedy `[`…`]`
   * match of the text, when there is one and `JSON.parse` accepts it.
   */
  function ExtractArray(text: string, parses: string -> bool): (r: Option<string>)
    ensures r.Some? ==> GreedyMatch(text, '[', ']') == r && parses(r.value)
    ensures r.None? ==> GreedyMatch(text, '[', ']').None? || !parses(GreedyMatch(text, '[', ']').value)
  {
    match GreedyMatch(text, '[', ']')
    case None => None
    case Some(m) => if parses(m) then Some(m) else None
  }

  /** Which message the `catch (apiError)` branch picks for a failover error. */
  function ApiErrorMessage(message: string): string {
    if Contains(message, QuotaLimitsMessage) || Contains(message, "overloaded") then OverloadedMessage
    else UnavailableMessage
  }

  /**
   * The outer `catch`: fallback material for the re-read body with defaults
   * "roadmap", "Topic" and "Subject", or the basic roadmap when that read fails too.
   */
  function Recover(reread: Option<Request>): (r: Response)
    ensures r.Success? && r.fallback
  {
    match reread
    case Some(b) =>
      var kind := Some(OrElse(b.contentType, "roadmap"));
      var topic := Some(OrElse(b.topicName, "Topic"));
      Success(Canned(FallbackContent(kind, topic, Some(OrElse(b.subjectName, "Subject")), b.testConfig)),
              kind, topic, true, Some(RecoveredMessage))
    case None =>
      Success(Canned(FallbackContent(Some("roadmap"), Some("Topic"), Some("Subject"), None)),
              Some("roadmap"), Some("Topic"), true, Some(BasicMessage))
  }

  /** The handler as a function of its inputs: the response and the backend trace. */
  function Handle(body: Option<Request>, reread: Option<Request>, configured: seq<bool>,
                  backend: nat -> Reply, parses: string -> bool): Handled
    requires |configured| == ContentPolicy.keyCount
  {
    if body.None? then Handled(Recover(reread), [])
    else
      var req := body.value;
      if !AnyConfigured(configured) then
        Handled(Success(Canned(FallbackFor(req)), req.contentType, req.topicName, true, Some(NoKeyMessage)), [])
      else
        match PromptForContentType(req.contentType, req.topicName, req.subjectName, req.syllabus, req.testConfig)
        case TypeError => Handled(Recover(reread), [])
        case NoPrompt => Handled(InvalidContentType, [])
        case Prompt(_) =>
          var run := Failover(ContentPolicy, configured, backend, DefaultMaxRetries);
          Handled(Answer(req, run.outcome, parses), run.trace)
  }

  /** The inner `try`/`catch (apiError)` once the failover engine has returned or thrown. */
  function Answer(req: Request, outcome: Outcome, parses: string -> bool): Response {
    match outcome
    case Returned(text) =>
      var content :=
        if req.contentType == Some("flashcards") || req.contentType == Some("quiz") then
          match ExtractArray(text, parses)
          case Some(json) => ParsedJson(json)
          case None => Canned(FallbackFor(req))
        else Generated(text);
      Success(content, req.contentType, req.topicName, false, None)
    case Thrown(m) =>
      Success(Canned(FallbackFor(req)), req.contentType, req.topicName, true, Some(ApiErrorMessage(m)))
  }

  /**
   * The handler as the route runs it: it decides on the configured keys first,
   * then builds the prompt, runs the failover engine and overwrites `content`
   * when the structured output cannot be used.
   */
  method Post(body: Option<Request>, reread: Option<Request>, configured: seq<bool>,
              backend: nat -> Reply, parses: string -> bool)
    returns (response: Response, trace: seq<Event>)
    requires |configured| == ContentPolicy.keyCount
    ensures Handled(response, trace) == Handle(body, reread, configured, backend, parses)
  {
    trace := [];
    if body.None? {
      response := Recover(reread);
      return;
    }
    var req := body.value;
    if !AnyConfigured(configured) {
      response := Success(Canned(FallbackFor(req)), req.contentType, req.topicName, true, Some(NoKeyMessage));
      return;
    }
    var prompt := PromptForContentType(req.contentType, req.topicName, req.subjectName, req.syllabus, req.testConfig);
    if prompt.TypeError? {
      response := Recover(reread);
      return;
    }
    if prompt.NoPrompt? {
      response := InvalidContentType;
      return;
    }
    var outcome;
    outcome, trace := CallWithFailover(ContentPolicy, configured, backend, DefaultMaxRetries, 0);
    assert Run(outcome, trace) == Failover(ContentPolicy, configured, backend, DefaultMaxRetries);
    response := Respond(req, outcome, parses);
    HandlePrompted(req, reread, configured, backend, parses);
  }

  /** With a key configured and a prompt built, the handler answers from the failover run. */
  lemma HandlePrompted(req: Request, reread: Option<Request>, configured: seq<bool>,
                       backend: nat -> Reply, parses: string -> bool)
    requires |configured| == ContentPolicy.keyCount && AnyConfigured(configured)
    requires PromptForContentType(req.contentType, req.topicName, req.subjectName, req.syllabus, req.testConfig).Prompt?
    ensures var run := Failover(ContentPolicy, configured, backend, DefaultMaxRetries);
            Handle(Some(req), reread, configured, backend, parses) == Handled(Answer(req, run.outcome, parses), run.trace)
  {
  }

  /**
   * The inner `try` as the route runs it: `content` starts as the model's
   * text and is overwritten for flashcards and quiz; a thrown error is
   * answered with the fallback material.
   */
  method Respond(req: Request, outcome: Outcome, parses: string -> bool) returns (response: Response)
    ensures response == Answer(req, outcome, parses)
  {
    if outcome.Thrown? {
      response := Success(Canned(FallbackFor(req)), req.contentType, req.topicName, true, Some(ApiErrorMessage(outcome.message)));
      return;
    }
    var content := Generated(outcome.text);
    if req.contentType == Some("flashcards") || req.contentType == Some("quiz") {
      var match_ := GreedyMatch(outcome.text, '[', ']');
      if match_.Some? && parses(match_.value) {
        content := ParsedJson(match_.value);
      } else {
        content := Canned(FallbackFor(req));
      }
    }
    response := Success(content, req.contentType, req.topicName, false, None);
  }

  // ---------------------------------------------------------------------------
  // Properties
  // ---------------------------------------------------------------------------

  /** The handler never fails: the only non-success answer is the 400 for an unknown kind with keys configured. */
  lemma OnlyUnknownKindIsRejected(body: Option<Request>, reread: Option<Request>, configured: seq<bool>,
                                  backend: nat -> Reply, parses: string -> bool)
    requires |configured| == ContentPolicy.keyCount
    ensures Handle(body, reread, configured, backend, parses).response.InvalidContentType?
            <==> && body.Some? && AnyConfigured(configured)
                 && !ThrowsTypeError(body.value.testConfig)
                 && (body.value.contentType.None? || body.value.contentType.value !in Kinds)
  {
    if body.Some? {
      var req := body.value;
      PromptOutcomes(req.contentType, req.topicName, req.subjectName, req.syllabus, req.testConfig);
    }
  }

  /**
   * With no key configured the fallback is returned before the kind is
   * validated and without any backend call, so an unknown kind gets the
   * generic text naming the topic and the subject instead of a 400.
   */
  lemma NoKeysFallbackBeforeValidation(req: Request, reread: Option<Request>, configured: seq<bool>,
                                       backend: nat -> Reply, parses: string -> bool)
    requires |configured| == ContentPolicy.keyCount && !AnyConfigured(configured)
    ensures var h := Handle(Some(req), reread, configured, backend, parses);
            && h.trace == []
            && h.response == Success(Canned(FallbackFor(req)), req.contentType, req.topicName, true, Some(NoKeyMessage))
    ensures req.contentType.None? || req.contentType.value !in Kinds ==>
              var material := Handle(Some(req), reread, configured, backend, parses).response.content.material;
              && material.Document?
              && Contains(material.text, Show(req.topicName))
              && Contains(material.text, Show(req.subjectName))
  {
    if req.contentType.None? || req.contentType.value !in Kinds {
      UnknownKindGetsGenericText(req.contentType, req.topicName, req.subjectName, req.testConfig);
      DocumentNamesTopicAndSubject(req.contentType, req.topicName, req.subjectName, req.testConfig);
    }
  }

  /**
   * A live answer for flashcards or quiz is the first-`[`-to-last-`]`
   * substring of the model's text when `JSON.parse` accepts it, and the
   * fallback otherwise; for the other kinds it is the text unchanged.
   */
  lemma LiveContent(req: Request, reread: Option<Request>, configured: seq<bool>,
                    backend: nat -> Reply, parses: string -> bool)
    requires |configured| == ContentPolicy.keyCount && AnyConfigured(configured)
    requires PromptForContentType(req.contentType, req.topicName, req.subjectName, req.syllabus, req.testConfig).Prompt?
    requires Failover(ContentPolicy, configured, backend, DefaultMaxRetries).outcome.Returned?
    ensures var text := Failover(ContentPolicy, configured, backend, DefaultMaxRetries).outcome.text;
            var r := Handle(Some(req), reread, configured, backend, parses).response;
            && r.Success? && !r.fallback
            && (req.contentType in {Some("flashcards"), Some("quiz")} ==>
                  if GreedyMatch(text, '[', ']').Some? && parses(GreedyMatch(text, '[', ']').value)
                  then r.content == ParsedJson(GreedyMatch(text, '[', ']').value)
                  else r.content == Canned(FallbackFor(req)))
            && (req.contentType !in {Some("flashcards"), Some("quiz")} ==> r.content == Generated(text))
  {
  }

  /**
   * The parsed substring starts at the first `[` of the text and ends at the
   * last `]`: nothing before it opens a bracket and nothing after it closes one.
   */
  lemma ParsedArrayIsGreedy(text: string, parses: string -> bool)
    requires ExtractArray(text, parses).Some?
    ensures exists i, j :: Brackets(text, '[', ']', i, j) && ExtractArray(text, parses).value == text[i..j + 1]
  {
    GreedyMatchShape(text, '[', ']');
  }

  /**
   * When every key is exhausted the user is told the services are overloaded;
   * when the engine finds no usable key at all the message is the generic one.
   */
  lemma ApiErrorMessages()
    ensures ApiErrorMessage(ContentPolicy.exhaustedMessage) == OverloadedMessage
    ensures ApiErrorMessage(NoKeysMessage) == UnavailableMessage
  {
    ContainsInfix(QuotaLimitsMessage + " or are ", "overloaded", "");
    assert QuotaLimitsMessage + " or are " + "overloaded" + "" == QuotaOrOverloadMessage;
    NoKeysMessageLacks("overloaded", 'r');
    NoKeysMessageLacks(QuotaLimitsMessage, 'q');
  }

  /** A request makes at most 15 backend calls and sleeps at most twice. */
  lemma CallBudget(body: Option<Request>, reread: Option<Request>, configured: seq<bool>,
                   backend: nat -> Reply, parses: string -> bool)
    requires |configured| == ContentPolicy.keyCount
    ensures CallCount(Handle(body, reread, configured, backend, parses).trace) <= 15
    ensures SleepCount(Handle(body, reread, configured, backend, parses).trace) <= DefaultMaxRetries
  {
    FailoverBounds(ContentPolicy, configured, backend, DefaultMaxRetries);
  }
}
