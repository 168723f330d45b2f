/**
 * The `POST` handler of the syllabus route, abstracted from HTTP.
 *
 * The request body is the parsed JSON (`None` when reading it throws);
 * `reread` is what the second `request.json()` in the outer `catch` gives.
 * Which keys are configured, what the backend replies, and what `JSON.parse`
 * makes of the matched text are parameters.
 */
module SyllabusRoute {
  import opened Wrappers
  import opened Text
  import opened KeyFailover
  import opened SyllabusOutline
  import opened MindMapFallback

  /** The members of the request body the handler reads. */
  datatype Request = Request(subjectName: Option<string>, syllabus: Option<string>)

  /**
   * What `JSON.parse` does with the matched object: it throws with a message,
   * or it yields an object whose `mindMap` member is an array of topics
   * (`None` when it is missing or not iterable, so that `countTopics` throws).
   */
  datatype JsonParse = Malformed(error: string) | Parsed(mindMap: Option<seq<Topic>>)

  /** The JSON the handler answers with; the live answer has no `fallback` or `message` member. */
  datatype Response = Success(mindMap: seq<Topic>, totalTopics: nat, fallback: bool, message: Option<string>)

  datatype Handled = Handled(response: Response, trace: seq<Event>)

  const NoKeyMessage := "Using structured learning path. AI enhancement available with API key."
  const QuotaMessage := "All AI quotas exceeded. Using comprehensive learning structure. Quotas reset in 24 hours."
  const UnavailableMessage := "AI service temporarily unavailable. Using structured learning path."
  const RecoveredMessage := "Using structured learning path. Service will be available when quota resets."
  const BasicMessage := "Using basic learning structure."
  const NoJsonMessage := "No valid JSON found in response"
  /** The `TypeError` raised when `countTopics` iterates a missing `mindMap`. */
  const NotIterableMessage := "mindMap is not iterable"

  /** A fallback answer for an outline. */
  function FallbackAnswer(m: seq<Topic>, message: string): (r: Response)
    ensures r.fallback && r.message == Some(message)
  {
    Success(m, TopicCount(m), true, Some(message))
  }

  /**
   * The outer `catch`: the fallback outline for the re-read syllabus (the empty
   * string when it is missing), or for the empty syllabus when that read fails too.
   */
  function Recover(reread: Option<Request>): (r: Response)
    ensures r.fallback
  {
    match reread
    case Some(b) =>
      FallbackAnswer(FallbackMindMap(Some(OrElse(b.syllabus, ""))).value, RecoveredMessage)
    case None =>
      FallbackAnswer(FallbackMindMap(Some("")).value, BasicMessage)
  }

  /** The fallback outline for the request's syllabus, or the outer `catch` when building it throws. */
  function FallbackOr(req: Request, reread: Option<Request>, message: string): Response {
    match FallbackMindMap(req.syllabus)
    case None => Recover(reread)
    case Some(m) => FallbackAnswer(m, message)
  }

  /** Which message the `catch (apiError)` branch picks for an error message. */
  function ApiErrorMessage(error: string): string {
    if Contains(error, QuotaLimitsMessage) then QuotaMessage else UnavailableMessage
  }

  /** The live path after the failover engine returns: the outline parsed from the text, or the error raised. */
  function Interpret(text: string, parse: string -> JsonParse): Result
  {
    match GreedyMatch(text, '{', '}')
    case None => Failed(NoJsonMessage)
    case Some(json) =>
      match parse(json)
      case Malformed(e) => Failed(e)
      case Parsed(None) => Failed(NotIterableMessage)
      case Parsed(Some(m)) => Live(m)
  }

  datatype Result = Live(mindMap: seq<Topic>) | Failed(error: string)

  /** The handler as a function of its inputs: the response and the backend trace. */
  function Handle(body: Option<Request>, reread: Option<Request>, configured: seq<bool>,
                  backend: nat -> Reply, parse: string -> JsonParse): Handled
    requires |configured| == SyllabusPolicy.keyCount
  {
    if body.None? then Handled(Recover(reread), [])
    else
      var req := body.value;
      if !AnyConfigured(configured) then Handled(FallbackOr(req, reread, NoKeyMessage), [])
      else
        var run := Failover(SyllabusPolicy, configured, backend, DefaultMaxRetries);
        Handled(Answer(req, reread, run.outcome, parse), run.trace)
  }

  /** The answer once the engine has returned or thrown: the parsed outline, or the fallback with the error's message. */
  function Answer(req: Request, reread: Option<Request>, outcome: Outcome, parse: string -> JsonParse): Response {
    var result := match outcome
      case Thrown(m) => Failed(m)
      case Returned(text) => Interpret(text, parse);
    match result
    case Live(m) => Success(m, TopicCount(m), false, None)
    case Failed(e) => FallbackOr(req, reread, ApiErrorMessage(e))
  }

  /** The fallback outline as the route builds it, with `countTopics` run as a loop. */
  method Fallback(req: Request, reread: Option<Request>, message: string) returns (response: Response)
    ensures response == FallbackOr(req, reread, message)
  {
    var syllabus := if req.syllabus.Some? then req.syllabus else Some("");
    var basic := BasicMessage;
    if req.syllabus.Some? {
      basic := message;
    } else if reread.Some? {
      syllabus := Some(OrElse(reread.value.syllabus, ""));
      basic := RecoveredMessage;
    }
    var m := FallbackMindMap(syllabus).value;
    var total := CountTopics(m);
    response := Success(m, total, true, Some(basic));
  }

  /**
   * The handler as the route runs it: it decides on the configured keys
   * first, runs the failover engine, matches and parses the object, and
   * counts the nodes of whichever outline it answers with.
   */
  method Post(body: Option<Request>, reread: Option<Request>, configured: seq<bool>,
              backend: nat -> Reply, parse: string -> JsonParse)
    returns (response: Response, trace: seq<Event>)
    requires |configured| == SyllabusPolicy.keyCount
    ensures Handled(response, trace) == Handle(body, reread, configured, backend, parse)
  {
    trace := [];
    if body.None? {
      var m := FallbackMindMap(Some(if reread.Some? then OrElse(reread.value.syllabus, "") else "")).value;
      var total := CountTopics(m);
      response := Success(m, total, true, Some(if reread.Some? then RecoveredMessage else BasicMessage));
      return;
    }
    var req := body.value;
    if !AnyConfigured(configured) {
      response := Fallback(req, reread, NoKeyMessage);
      return;
    }
    var outcome;
    outcome, trace := CallWithFailover(SyllabusPolicy, configured, backend, DefaultMaxRetries, 0);
    var error: string;
    if outcome.Thrown? {
      error := outcome.message;
    } else {
      var found := GreedyMatch(outcome.text, '{', '}');
      if found.None? {
        error := NoJsonMessage;
      } else {
        var parsed := parse(found.value);
        if parsed.Malformed? {
          error := parsed.error;
        } else if parsed.mindMap.None? {
          error := NotIterableMessage;
        } else {
          var total := CountTopics(parsed.mindMap.value);
          response := Success(parsed.mindMap.value, total, false, None);
          return;
        }
      }
    }
    response := Fallback(req, reread, ApiErrorMessage(error));
  }

  // ---------------------------------------------------------------------------
  // Properties
  // ---------------------------------------------------------------------------

  /**
   * The handler always answers with an outline and `totalTopics` is its node
   * count; a fallback outline has one to six topics, nothing completed and
   * every id naming one node.
   */
  lemma AnswerIsCounted(body: Option<Request>, reread: Option<Request>, configured: seq<bool>,
                        backend: nat -> Reply, parse: string -> JsonParse)
    requires |configured| == SyllabusPolicy.keyCount
    ensures WellCounted(Handle(body, reread, configured, backend, parse).response)
  {
    RecoverWellCounted(reread);
    if body.Some? {
      FallbackWellCounted(body.value, reread, NoKeyMessage);
      AnswerWellCounted(body.value, reread, Failover(SyllabusPolicy, configured, backend, DefaultMaxRetries).outcome, parse);
    }
  }

  lemma AnswerWellCounted(req: Request, reread: Option<Request>, outcome: Outcome, parse: string -> JsonParse)
    ensures WellCounted(Answer(req, reread, outcome, parse))
  {
    var result := match outcome
      case Thrown(m) => Failed(m)
      case Returned(text) => Interpret(text, parse);
    if result.Failed? {
      FallbackWellCounted(req, reread, ApiErrorMessage(result.error));
    }
  }

  /** `totalTopics` is the outline's node count, and a fallback outline is well formed. */
  ghost predicate WellCounted(r: Response) {
    && r.totalTopics == TopicCount(r.mindMap)
    && (r.fallback ==> 1 <= |r.mindMap| <= MaxTopics && AllOpen(r.mindMap) && UniqueIds(r.mindMap))
  }

  lemma RecoverWellCounted(reread: Option<Request>)
    ensures WellCounted(Recover(reread))
  {
    FallbackWellFormed(Some(""));
    if reread.Some? {
      FallbackWellFormed(Some(OrElse(reread.value.syllabus, "")));
    }
  }

  lemma FallbackWellCounted(req: Request, reread: Option<Request>, message: string)
    ensures WellCounted(FallbackOr(req, reread, message))
  {
    RecoverWellCounted(reread);
    if req.syllabus.Some? {
      FallbackWellFormed(req.syllabus);
    }
  }

  /**
   * The answer is live exactly when some key is configured, the engine
   * returns text, and an object with a `mindMap` array is parsed out of it;
   * the live answer is that array, without a message.
   */
  lemma LiveExactlyWhenParsed(body: Option<Request>, reread: Option<Request>, configured: seq<bool>,
                              backend: nat -> Reply, parse: string -> JsonParse)
    requires |configured| == SyllabusPolicy.keyCount
    ensures var r := Handle(body, reread, configured, backend, parse).response;
            var run := Failover(SyllabusPolicy, configured, backend, DefaultMaxRetries);
            && (!r.fallback <==>
                  body.Some? && AnyConfigured(configured) && run.outcome.Returned?
                  && Interpret(run.outcome.text, parse).Live?)
            && (!r.fallback ==> r.message.None? && r.mindMap == Interpret(run.outcome.text, parse).mindMap)
  {
  }

  /**
   * The live outline is what `JSON.parse` made of the first-`{`-to-last-`}`
   * substring of the model's text.
   */
  lemma LiveOutlineFromObject(text: string, parse: string -> JsonParse)
    requires Interpret(text, parse).Live?
    ensures exists i, j :: Brackets(text, '{', '}', i, j) && parse(text[i..j + 1]) == Parsed(Some(Interpret(text, parse).mindMap))
  {
    GreedyMatchShape(text, '{', '}');
    var i, j :| Brackets(text, '{', '}', i, j) && GreedyMatch(text, '{', '}').value == text[i..j + 1];
    assert parse(text[i..j + 1]) == Parsed(Some(Interpret(text, parse).mindMap));
  }

  /** With no key configured the backend is never called and the no-key message is given. */
  lemma NoKeysNoCalls(req: Request, reread: Option<Request>, configured: seq<bool>,
                      backend: nat -> Reply, parse: string -> JsonParse)
    requires |configured| == SyllabusPolicy.keyCount && !AnyConfigured(configured)
    requires req.syllabus.Some?
    ensures var h := Handle(Some(req), reread, configured, backend, parse);
            && h.trace == []
            && h.response.mindMap == FallbackMindMap(req.syllabus).value
            && h.response.message == Some(NoKeyMessage)
  {
  }

  /**
   * A missing syllabus makes every fallback throw, so any answer that is not
   * live comes from the outer `catch`.
   */
  lemma MissingSyllabusRecovers(req: Request, reread: Option<Request>, configured: seq<bool>,
                                backend: nat -> Reply, parse: string -> JsonParse)
    requires |configured| == SyllabusPolicy.keyCount && req.syllabus.None?
    ensures var r := Handle(Some(req), reread, configured, backend, parse).response;
            r.fallback ==> r == Recover(reread)
  {
  }

  /** When both reads of the body fail the answer is the generic outline of 24 nodes. */
  lemma LastResort(reread: Option<Request>, configured: seq<bool>, backend: nat -> Reply, parse: string -> JsonParse)
    requires |configured| == SyllabusPolicy.keyCount
    ensures Handle(None, None, configured, backend, parse).response == Success(GenericMap, 24, true, Some(BasicMessage))
  {
    EmptySyllabusGetsGeneric();
    TemplateSizes();
  }

  /**
   * Only the quota-exhausted error earns the quota message; running out of
   * configured keys, a reply without an object and a missing `mindMap` all
   * get the unavailable message.
   */
  lemma ErrorMessages()
    ensures ApiErrorMessage(SyllabusPolicy.exhaustedMessage) == QuotaMessage
    ensures ApiErrorMessage(NoKeysMessage) == UnavailableMessage
    ensures ApiErrorMessage(NoJsonMessage) == UnavailableMessage
    ensures ApiErrorMessage(NotIterableMessage) == UnavailableMessage
  {
    ContainsInfix("", QuotaLimitsMessage, "");
    assert "" + QuotaLimitsMessage + "" == QuotaLimitsMessage;
    NoKeysMessageLacks(QuotaLimitsMessage, 'q');
    QuotaMessageLacks(NoJsonMessage);
    QuotaMessageLacks(NotIterableMessage);
  }

  lemma QuotaMessageLacks(s: string)
    requires s == NoJsonMessage || s == NotIterableMessage
    ensures !Contains(s, QuotaLimitsMessage)
  {
    assert 'q' in QuotaLimitsMessage;
    assert 'q' !in s;
    if Contains(s, QuotaLimitsMessage) {
      ContainsChars(s, QuotaLimitsMessage, 'q');
    }
  }

  /** When both keys are exhausted the user is told the quotas are exceeded and given the fallback. */
  lemma ExhaustedGetsQuotaMessage(req: Request, reread: Option<Request>, configured: seq<bool>,
                                  backend: nat -> Reply, parse: string -> JsonParse)
    requires |configured| == SyllabusPolicy.keyCount && AnyConfigured(configured) && req.syllabus.Some?
    requires Failover(SyllabusPolicy, configured, backend, DefaultMaxRetries).outcome == Thrown(SyllabusPolicy.exhaustedMessage)
    ensures var r := Handle(Some(req), reread, configured, backend, parse).response;
            r.fallback && r.message == Some(QuotaMessage) && r.mindMap == FallbackMindMap(req.syllabus).value
  {
    ErrorMessages();
  }

  /** A request makes at most six backend calls and sleeps at most twice. */
  lemma CallBudget(body: Option<Request>, reread: Option<Request>, configured: seq<bool>,
                   backend: nat -> Reply, parse: string -> JsonParse)
    requires |configured| == SyllabusPolicy.keyCount
    ensures CallCount(Handle(body, reread, configured, backend, parse).trace) <= 6
    ensures SleepCount(Handle(body, reread, configured, backend, parse).trace) <= DefaultMaxRetries
  {
    FailoverBounds(SyllabusPolicy, configured, backend, DefaultMaxRetries);
  }
}
