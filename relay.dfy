/** The server's handling of one `chat message` event: the inbound value is
    normalised and validated, analysed, turned into a completion request, sent
    through the retry client, and answered with either a tutor response or an
    error reply; a log entry is written either way. The connection registry
    that counts clients and their messages is the class at the end. */
module Relay {
  import opened JsString
  import opened JsValues
  import opened Wrappers
  import Analyzer
  import Prompt
  import Completion
  import Feedback

  // ================================================================ normalisation

  const MaxMessageLength: nat := 1000

  const DefaultModel: string := "openai/gpt-3.5-turbo"
  const DefaultPersonality: string := "conversation_partner"
  const DefaultLearningMode: string := "conversation"
  const DefaultDifficulty: string := "intermediate"
  const DefaultFeedbackStyle: string := "gentle"

  /** The errors the handler can throw, and their messages. */
  datatype Failure = InvalidFormat | TextRequired | TooLong | InvalidResponse

  function FailureMessage(f: Failure): string {
    match f
    case InvalidFormat => "Invalid message format"
    case TextRequired => "Message text is required"
    case TooLong => "Message too " + "long. Maximum " + "1000 characters " + "allowed."
    case InvalidResponse => "Invalid API response format"
  }

  /** The learning parameters of a message once defaults are filled in. The
      text is a string; the other fields are whatever the client sent, when
      truthy. */
  datatype Request = Request(text: string, model: JsValue, personality: JsValue, learningMode: JsValue,
                             difficultyLevel: JsValue, feedbackStyle: JsValue)

  datatype Checked = Accepted(request: Request) | Rejected(failure: Failure)

  /** A text the handler goes on with: present and at most 1000 UTF-16 code units. */
  predicate ValidText(s: string) {
    s != "" && Utf16Length(s) <= MaxMessageLength
  }

  /** The text checks, once the fields are known. */
  function CheckText(text: JsValue, model: JsValue, personality: JsValue, learningMode: JsValue,
                     difficultyLevel: JsValue, feedbackStyle: JsValue): (r: Checked)
    ensures r.Accepted? <==> text.Str? && ValidText(text.s)
    ensures r.Accepted? ==> r.request.text == text.s
    ensures r.Rejected? ==> r.failure == (if text.Str? && text.s != "" then TooLong else TextRequired)
  {
    if !Truthy(text) || !text.Str? then Rejected(TextRequired)
    else if Utf16Length(text.s) > MaxMessageLength then Rejected(TooLong)
    else Accepted(Request(text.s, model, personality, learningMode, difficultyLevel, feedbackStyle))
  }

  /** The two accepted message formats: a bare string takes every default, an
      object (an array is one too) takes each field with `||` its default;
      anything else is refused. */
  function Normalize(data: JsValue): (r: Checked) {
    match data
    case Str(s) =>
      CheckText(data, Str(DefaultModel), Str(DefaultPersonality), Str(DefaultLearningMode),
                Str(DefaultDifficulty), Str(DefaultFeedbackStyle))
    case Obj(_) | Arr(_) =>
      CheckText(Get(data, "text"), Or(Get(data, "model"), Str(DefaultModel)),
                Or(Get(data, "personality"), Str(DefaultPersonality)),
                Or(Get(data, "learningMode"), Str(DefaultLearningMode)),
                Or(Get(data, "difficultyLevel"), Str(DefaultDifficulty)),
                Or(Get(data, "feedbackStyle"), Str(DefaultFeedbackStyle)))
    case _ => Rejected(InvalidFormat)
  }

  /** The text a message carries, if it is in one of the two formats. */
  function CarriedText(data: JsValue): JsValue {
    match data
    case Str(_) => data
    case Obj(_) | Arr(_) => Get(data, "text")
    case _ => Undefined
  }

  /** A message is accepted exactly when it is a string or an object whose
      text is a non-empty string of at most 1000 code units; the refusal says
      which check failed. */
  lemma AcceptedIff(data: JsValue)
    ensures Normalize(data).Accepted? <==> CarriedText(data).Str? && ValidText(CarriedText(data).s)
    ensures Normalize(data).Accepted? ==> Normalize(data).request.text == CarriedText(data).s
    ensures !(data.Str? || data.Obj? || data.Arr?) ==> Normalize(data) == Rejected(InvalidFormat)
    ensures (data.Str? || data.Obj? || data.Arr?) && !(CarriedText(data).Str? && CarriedText(data).s != "") ==>
              Normalize(data) == Rejected(TextRequired)
    ensures (data.Str? || data.Obj? || data.Arr?) && CarriedText(data).Str? && Utf16Length(CarriedText(data).s) > MaxMessageLength ==>
              Normalize(data) == Rejected(TooLong)
  {
  }

  /** An array passes the format check but carries no text. */
  lemma ArrayNeedsText(items: seq<JsValue>)
    ensures CarriedText(Arr(items)) == Undefined
    ensures Normalize(Arr(items)) == Rejected(TextRequired)
  {
    NoElementNamed(items, "text", 0);
  }

  /** A bare string gets all five defaults. */
  lemma StringGetsDefaults(s: string)
    requires ValidText(s)
    ensures Normalize(Str(s)) == Accepted(Request(s, Str(DefaultModel), Str(DefaultPersonality),
                                                  Str(DefaultLearningMode), Str(DefaultDifficulty),
                                                  Str(DefaultFeedbackStyle)))
  {
  }

  /** In an object, a truthy field is kept and a falsy or missing one is
      replaced by its default, so every field of an accepted request is truthy. */
  lemma ObjectFieldsOrDefaults(data: JsValue)
    requires data.Obj? && Normalize(data).Accepted?
    ensures var q := Normalize(data).request;
      && (Truthy(Get(data, "model")) ==> q.model == Get(data, "model"))
      && (!Truthy(Get(data, "model")) ==> q.model == Str(DefaultModel))
      && (Truthy(Get(data, "personality")) ==> q.personality == Get(data, "personality"))
      && (!Truthy(Get(data, "personality")) ==> q.personality == Str(DefaultPersonality))
      && (Truthy(Get(data, "learningMode")) ==> q.learningMode == Get(data, "learningMode"))
      && (!Truthy(Get(data, "learningMode")) ==> q.learningMode == Str(DefaultLearningMode))
      && (Truthy(Get(data, "difficultyLevel")) ==> q.difficultyLevel == Get(data, "difficultyLevel"))
      && (!Truthy(Get(data, "difficultyLevel")) ==> q.difficultyLevel == Str(DefaultDifficulty))
      && (Truthy(Get(data, "feedbackStyle")) ==> q.feedbackStyle == Get(data, "feedbackStyle"))
      && (!Truthy(Get(data, "feedbackStyle")) ==> q.feedbackStyle == Str(DefaultFeedbackStyle))
      && Truthy(q.model) && Truthy(q.personality) && Truthy(q.learningMode)
      && Truthy(q.difficultyLevel) && Truthy(q.feedbackStyle)
  {
  }

  /** More than 1000 characters are always too many code units. */
  lemma LongTextRejected(s: string)
    requires |s| > MaxMessageLength
    ensures Normalize(Str(s)) == Rejected(TooLong)
  {
  }

  // ================================================================ error replies

  const RateLimitReply: string := "Too many " + "requests. " + "Please wait a " +
                                  "moment before " + "trying again."
  const NetworkReply: string := "Network error. " + "Please check " + "your connection " +
                                "and try again."
  const InvalidMessageReply: string := "Please provide a valid message."
  const ApologyReply: string := "I apologize, " + "but I " + "encountered an " +
                                "error. Please " + "try again."

  /** The reply the `catch` block chooses from the error's message. */
  function ErrorReply(message: string): string {
    if Includes(message, "rate limit") then RateLimitReply
    else if Includes(message, "network") || Includes(message, "timeout") then NetworkReply
    else if Includes(message, "Invalid message format") || Includes(message, "Message text is required")
    then InvalidMessageReply
    else if Includes(message, "Message too long") then message
    else ApologyReply
  }

  lemma InvalidFormatMisses1()
    ensures !Includes(FailureMessage(InvalidFormat), "rate limit")
    ensures !Includes(FailureMessage(InvalidFormat), "network")
  {
    NotIncludedBy(FailureMessage(InvalidFormat), "rate limit", 0, 0);
    NotIncludedBy(FailureMessage(InvalidFormat), "network", 6, 6);
  }

  lemma InvalidFormatMisses2()
    ensures !Includes(FailureMessage(InvalidFormat), "timeout")
  {
    NotIncludedBy(FailureMessage(InvalidFormat), "timeout", 5, 5);
  }

  lemma InvalidFormatReply()
    ensures ErrorReply(FailureMessage(InvalidFormat)) == InvalidMessageReply
  {
    InvalidFormatMisses1();
    InvalidFormatMisses2();
    IncludesSelf(FailureMessage(InvalidFormat));
  }

  lemma TextRequiredMisses1()
    ensures !Includes(FailureMessage(TextRequired), "rate limit")
    ensures !Includes(FailureMessage(TextRequired), "network")
  {
    NotIncludedBy(FailureMessage(TextRequired), "rate limit", 0, 0);
    NotIncludedBy(FailureMessage(TextRequired), "network", 6, 6);
  }

  lemma TextRequiredMisses2()
    ensures !Includes(FailureMessage(TextRequired), "timeout")
  {
    NotIncludedBy(FailureMessage(TextRequired), "timeout", 0, 1);
  }

  lemma TextRequiredReply()
    ensures ErrorReply(FailureMessage(TextRequired)) == InvalidMessageReply
  {
    TextRequiredMisses1();
    TextRequiredMisses2();
    IncludesSelf(FailureMessage(TextRequired));
  }

  lemma TooLongMisses1()
    ensures !Includes(FailureMessage(TooLong), "rate limit")
  {
    NotIncludedBy(FailureMessage(TooLong), "rate limit", 0, 2);
  }

  lemma TooLongMisses2()
    ensures !Includes(FailureMessage(TooLong), "network")
  {
    NotIncludedBy(FailureMessage(TooLong), "network", 6, 6);
  }

  lemma TooLongMisses3()
    ensures !Includes(FailureMessage(TooLong), "timeout")
  {
    NotIncludedBy(FailureMessage(TooLong), "timeout", 0, 1);
  }

  lemma TooLongMisses4()
    ensures !Includes(FailureMessage(TooLong), "Invalid message format")
  {
    NotIncludedBy(FailureMessage(TooLong), "Invalid message format", 0, 0);
  }

  lemma TooLongMisses5()
    ensures !Includes(FailureMessage(TooLong), "Message text is required")
  {
    NotIncludedBy(FailureMessage(TooLong), "Message text is required", 18, 18);
  }

  lemma TooLongReply()
    ensures ErrorReply(FailureMessage(TooLong)) == FailureMessage(TooLong)
  {
    TooLongMisses1();
    TooLongMisses2();
    TooLongMisses3();
    TooLongMisses4();
    TooLongMisses5();
    TooLongSaysSo();
  }

  lemma TooLongSaysSo()
    ensures Includes(FailureMessage(TooLong), "Message too long")
  {
    OccursAtPointwise(FailureMessage(TooLong), "Message too long", 0);
    IncludesAt(FailureMessage(TooLong), "Message too long", 0);
  }

  lemma InvalidResponseMisses1()
    ensures !Includes(FailureMessage(InvalidResponse), "rate limit")
    ensures !Includes(FailureMessage(InvalidResponse), "network")
  {
    NotIncludedBy(FailureMessage(InvalidResponse), "rate limit", 0, 2);
    NotIncludedBy(FailureMessage(InvalidResponse), "network", 6, 6);
  }

  lemma InvalidResponseMisses2()
    ensures !Includes(FailureMessage(InvalidResponse), "timeout")
    ensures !Includes(FailureMessage(InvalidResponse), "Invalid message format")
  {
    NotIncludedBy(FailureMessage(InvalidResponse), "timeout", 5, 5);
    NotIncludedBy(FailureMessage(InvalidResponse), "Invalid message format", 13, 13);
  }

  lemma InvalidResponseMisses3()
    ensures !Includes(FailureMessage(InvalidResponse), "Message text is required")
    ensures !Includes(FailureMessage(InvalidResponse), "Message too long")
  {
    NotIncludedBy(FailureMessage(InvalidResponse), "Message text is required", 0, 0);
    NotIncludedBy(FailureMessage(InvalidResponse), "Message too long", 0, 0);
  }

  lemma InvalidResponseReply()
    ensures ErrorReply(FailureMessage(InvalidResponse)) == ApologyReply
  {
    InvalidResponseMisses1();
    InvalidResponseMisses2();
    InvalidResponseMisses3();
  }

  /** The reply for each error the handler throws: both validation failures
      ask for a valid message, the length failure is passed on verbatim, and a
      response without choices gets the generic apology. */
  lemma FailureReplies(f: Failure)
    ensures ErrorReply(FailureMessage(f)) == (match f
      case InvalidFormat => InvalidMessageReply
      case TextRequired => InvalidMessageReply
      case TooLong => FailureMessage(TooLong)
      case InvalidResponse => ApologyReply)
  {
    match f {
      case InvalidFormat => InvalidFormatReply();
      case TextRequired => TextRequiredReply();
      case TooLong => TooLongReply();
      case InvalidResponse => InvalidResponseReply();
    }
  }

  // ================================================================ the request

  /** The user turn: the text quoted and the analysis as JSON. */
  function UserContent(text: string, analysis: Analyzer.SpeechAnalysis): string {
    ContentHead(text) + Analyzer.AnalysisJson(analysis) + ContentTail
  }

  function ContentHead(text: string): string {
    "Student said: \"" + text + "\"\n\nSpeech Analysis: "
  }

  const ContentTail: string :=
    "\n\n" +
    "Please provide " + "appropriate " + "feedback and " + "continue the " +
    "conversation."

  const MaxTokens: nat := 600

  /** The completion request: model, system turn, user turn and token limit. */
  datatype ApiRequest = ApiRequest(model: JsValue, systemPrompt: string, userContent: string, maxTokens: nat)

  // ================================================================ replies and logs

  datatype Metadata = Metadata(model: JsValue, personality: JsValue, learningMode: JsValue, difficultyLevel: JsValue)

  /** The `tutor response` event: a reply with its analysis and feedback, or an
      error reply whose analysis and feedback are `null`. */
  datatype TutorResponse =
    | Reply(reply: string, speechAnalysis: Analyzer.SpeechAnalysis, learningFeedback: Feedback.LearningFeedback,
            metadata: Metadata)
    | ErrorResponse(reply: string)

  /** `s.substring(0, 100) + (s.length > 100 ? '...' : '')`. */
  function Truncate(s: string): (r: string)
    ensures |r| <= 103
    ensures |s| <= 100 ==> r == s
    ensures |s| > 100 ==> |r| == 103 && r[..100] == s[..100] && r[100..] == "..."
  {
    if |s| <= 100 then s else s[..100] + "..."
  }

  datatype AnalysisSummary = AnalysisSummary(wordCount: nat, grammarIssuesCount: nat, fluencyScore: int,
                                             vocabularyLevel: Analyzer.VocabularyLevel)

  datatype LogEntry = LogEntry(userMessage: string, tutorReply: string, learningMode: JsValue,
                               difficultyLevel: JsValue, speechAnalysis: Option<AnalysisSummary>,
                               success: bool, errorDetails: Option<string>)

  function Summary(a: Analyzer.SpeechAnalysis): AnalysisSummary {
    AnalysisSummary(a.wordCount, |a.grammarIssues|, a.fluencyScore, a.vocabularyLevel)
  }

  /** `typeof data === 'string' ? data : (data?.text || '')`, as written: a
      truthy text of any type passes through. */
  function FailedTextAsWritten(data: JsValue): JsValue {
    match data
    case Str(_) => data
    case Obj(_) => Or(Get(data, "text"), Str(""))
    case _ => Str("")
  }

  /** `typeof data === 'object' ? (data?.learningMode || '') : ''`. */
  function FailedMode(data: JsValue): JsValue {
    match data
    case Obj(_) => Or(Get(data, "learningMode"), Str(""))
    case _ => Str("")
  }

  /** The failure log as written: `substring` on a text that is not a
      string throws a TypeError, and no entry is written. */
  function FailedLogAsWritten(data: JsValue, reply: string, f: Failure): Option<LogEntry> {
    var text := FailedTextAsWritten(data);
    if text.Str? then
      Some(LogEntry(Truncate(text.s), Truncate(reply), FailedMode(data), Str(""), None, false,
                    Some(FailureMessage(f))))
    else None
  }

  /** A message whose text is a number is refused, and its failure log then
      throws instead of being written. */
  lemma NumericTextLosesFailureLog()
    ensures Normalize(Obj(map["text" := Num(5)])) == Rejected(TextRequired)
    ensures FailedLogAsWritten(Obj(map["text" := Num(5)]), InvalidMessageReply, TextRequired) == None
  {
    assert Get(Obj(map["text" := Num(5)]), "text") == Num(5);
  }

  /** The failed text as intended: the message's text when it is a string,
      and the empty text otherwise. */
  function FailedText(data: JsValue): string {
    var text := CarriedText(data);
    if text.Str? then text.s else ""
  }

  /** The intended text agrees with the written one wherever that one is a string. */
  lemma FailedTextAgrees(data: JsValue)
    ensures FailedTextAsWritten(data).Str? ==> FailedText(data) == FailedTextAsWritten(data).s
    ensures FailedTextAsWritten(data).Str? <==> FailedLogAsWritten(data, "", InvalidFormat).Some?
  {
    if data.Arr? {
      NoElementNamed(data.items, "text", 0);
    }
  }

  function FailedLog(data: JsValue, reply: string, f: Failure): (r: LogEntry)
    ensures r.userMessage == Truncate(FailedText(data)) && r.tutorReply == Truncate(reply)
    ensures !r.success && r.speechAnalysis.None? && r.errorDetails == Some(FailureMessage(f))
  {
    LogEntry(Truncate(FailedText(data)), Truncate(reply), FailedMode(data), Str(""), None, false,
             Some(FailureMessage(f)))
  }

  /** Whenever the written failure log is produced, the intended one equals it. */
  lemma FailedLogCorrectsOnlyTheCrash(data: JsValue, reply: string, f: Failure)
    ensures FailedLogAsWritten(data, reply, f).Some? ==> FailedLogAsWritten(data, reply, f).value == FailedLog(data, reply, f)
    ensures |FailedLog(data, reply, f).userMessage| <= 103
  {
    FailedTextAgrees(data);
  }

  // ================================================================ the handler

  /** What one message leads to: the event sent back, the log entry, the
      completion request (if one was built), and the retry client's waits and
      attempts. */
  datatype Handled = Handled(response: TutorResponse, log: LogEntry, sent: Option<ApiRequest>,
                             delays: seq<int>, attempts: nat)

  /** The reply for a failure the handler throws. */
  function Refusal(data: JsValue, f: Failure, sent: Option<ApiRequest>, delays: seq<int>, attempts: nat): Handled {
    var reply := ErrorReply(FailureMessage(f));
    Handled(ErrorResponse(reply), FailedLog(data, reply, f), sent, delays, attempts)
  }

  /** The `chat message` handler for a message `data`; `hasKey` says whether
      an API key is configured and `server` answers each attempt. */
  function HandleMessage(data: JsValue, hasKey: bool, server: nat -> Completion.Outcome): Handled {
    match Normalize(data)
    case Rejected(f) => Refusal(data, f, None, [], 0)
    case Accepted(q) => Respond(data, q, hasKey, server)
  }

  /** The handler once the message passed validation as `q`. */
  function Respond(data: JsValue, q: Request, hasKey: bool, server: nat -> Completion.Outcome): Handled {
    var analysis := Analyzer.Analysis(q.text, q.difficultyLevel, q.learningMode);
    var request := ApiRequest(q.model, Prompt.TutorPrompt(q.personality, q.difficultyLevel, q.feedbackStyle),
                              UserContent(q.text, analysis), MaxTokens);
    Answer(data, q, analysis, request, Completion.CallWithRetry(hasKey, server, request.userContent, Completion.MaxRetries))
  }

  /** What the handler does with the retry client's result: a body without
      choices is an error, a reply is sent back with its feedback and logged. */
  function Answer(data: JsValue, q: Request, analysis: Analyzer.SpeechAnalysis, request: ApiRequest,
                  run: Completion.Run): Handled {
    match run.body
    case NoChoices => Refusal(data, InvalidResponse, Some(request), run.delays, run.attempts)
    case Choice(reply) =>
      Handled(Reply(reply, analysis, Feedback.FeedbackOf(reply),
                    Metadata(q.model, q.personality, q.learningMode, q.difficultyLevel)),
              LogEntry(Truncate(q.text), Truncate(reply), q.learningMode, q.difficultyLevel,
                       Some(Summary(analysis)), true, None),
              Some(request), run.delays, run.attempts)
  }

  /** The answer reports the request, the waits and the attempts; it is a
      reply exactly when the body has choices, and the generic apology
      otherwise. */
  lemma AnswerShape(data: JsValue, q: Request, analysis: Analyzer.SpeechAnalysis, request: ApiRequest,
                    run: Completion.Run)
    ensures var h := Answer(data, q, analysis, request, run);
      && h.sent == Some(request) && h.delays == run.delays && h.attempts == run.attempts
      && (h.response.Reply? <==> run.body.Choice?)
      && (h.response.Reply? ==> h.response.reply == run.body.content
                                && h.response.speechAnalysis == analysis
                                && h.response.learningFeedback == Feedback.FeedbackOf(run.body.content)
                                && h.log.success && h.log.userMessage == Truncate(q.text))
      && (h.response.ErrorResponse? ==> h.response.reply == ApologyReply && !h.log.success)
  {
    InvalidResponseReply();
  }

  /** A refused message is answered with an error reply and nothing further
      happens: no analysis, no request, no attempt, no wait. */
  lemma RefusalStopsEarly(data: JsValue, hasKey: bool, server: nat -> Completion.Outcome)
    requires Normalize(data).Rejected?
    ensures var h := HandleMessage(data, hasKey, server);
      && h.response == ErrorResponse(ErrorReply(FailureMessage(Normalize(data).failure)))
      && h.sent.None? && h.attempts == 0 && h.delays == []
      && !h.log.success
  {
  }

  /** On a refused message the handler writes the intended failure log. The
      code as written writes the same entry, except when the carried text is
      a truthy value that is not a string: there its log call throws and no
      entry is written. */
  lemma RefusalLogAgainstWritten(data: JsValue, hasKey: bool, server: nat -> Completion.Outcome)
    requires Normalize(data).Rejected?
    ensures var f := Normalize(data).failure;
      var written := FailedLogAsWritten(data, ErrorReply(FailureMessage(f)), f);
      && (written.Some? ==> written.value == HandleMessage(data, hasKey, server).log)
      && (written.None? <==> Truthy(CarriedText(data)) && !CarriedText(data).Str?)
  {
    var f := Normalize(data).failure;
    assert HandleMessage(data, hasKey, server).log == FailedLog(data, ErrorReply(FailureMessage(f)), f);
    FailedLogCorrectsOnlyTheCrash(data, ErrorReply(FailureMessage(f)), f);
    WrittenLogThrowsIff(data, ErrorReply(FailureMessage(f)), f);
  }

  /** The written failure log throws exactly on a truthy text that is not a string. */
  lemma WrittenLogThrowsIff(data: JsValue, reply: string, f: Failure)
    ensures FailedLogAsWritten(data, reply, f).None? <==> Truthy(CarriedText(data)) && !CarriedText(data).Str?
  {
    if data.Arr? {
      NoElementNamed(data.items, "text", 0);
    }
  }

  /** Too long a text is answered with the length message itself. */
  lemma TooLongIsReportedVerbatim(data: JsValue, hasKey: bool, server: nat -> Completion.Outcome)
    requires Normalize(data) == Rejected(TooLong)
    ensures HandleMessage(data, hasKey, server).response == ErrorResponse(FailureMessage(TooLong))
  {
    TooLongReply();
  }

  /** An accepted message sends one request built from its fields; it gets a
      tutor reply unless the upstream answer has no choices, and whatever it
      gets comes after at most three attempts. */
  lemma AcceptedIsSent(data: JsValue, q: Request, hasKey: bool, server: nat -> Completion.Outcome)
    requires Normalize(data) == Accepted(q)
    ensures var h := HandleMessage(data, hasKey, server);
      var analysis := Analyzer.Analysis(q.text, q.difficultyLevel, q.learningMode);
      var run := Completion.CallWithRetry(hasKey, server, UserContent(q.text, analysis), Completion.MaxRetries);
      && h.sent == Some(ApiRequest(q.model, Prompt.TutorPrompt(q.personality, q.difficultyLevel, q.feedbackStyle),
                                   UserContent(q.text, analysis), MaxTokens))
      && h.attempts <= Completion.MaxRetries
      && (h.response.Reply? <==> run.body.Choice?)
      && (h.response.Reply? ==> h.response.reply == run.body.content
                                && h.response.speechAnalysis == analysis
                                && h.response.learningFeedback == Feedback.FeedbackOf(run.body.content)
                                && h.log.success)
      && (h.response.ErrorResponse? ==> h.response.reply == ApologyReply)
  {
    var analysis := Analyzer.Analysis(q.text, q.difficultyLevel, q.learningMode);
    var request := ApiRequest(q.model, Prompt.TutorPrompt(q.personality, q.difficultyLevel, q.feedbackStyle),
                              UserContent(q.text, analysis), MaxTokens);
    var run := Completion.CallWithRetry(hasKey, server, request.userContent, Completion.MaxRetries);
    Completion.AttemptsBounded(hasKey, server, request.userContent, Completion.MaxRetries);
    AnswerShape(data, q, analysis, request, run);
  }

  /** Without a key an accepted message always gets the canned reply chosen
      from its user turn, and no attempt is made. */
  lemma NoKeyGetsFallback(data: JsValue, q: Request, server: nat -> Completion.Outcome)
    requires Normalize(data) == Accepted(q)
    ensures var h := HandleMessage(data, false, server);
      && h.response.Reply?
      && h.response.reply == Completion.FallbackReply(
           UserContent(q.text, Analyzer.Analysis(q.text, q.difficultyLevel, q.learningMode)))
      && h.attempts == 0 && h.delays == []
  {
  }

  /** A user turn whose analysis JSON holds "hey" reads as a greeting. */
  lemma ContentWithHeyGreets(text: string, analysis: Analyzer.SpeechAnalysis)
    requires Includes(Analyzer.AnalysisJson(analysis), "hey")
    ensures Completion.IsGreeting(UserContent(text, analysis))
  {
    IncludesInConcat(ContentHead(text), Analyzer.AnalysisJson(analysis), ContentTail, "hey");
    Completion.HeyIsGreeting(UserContent(text, analysis));
  }

  /** The fallback looks at the whole user turn, analysis included: once the
      analysis reports a subject-verb agreement issue, its suggestion text
      ("they are") makes the turn look like a greeting, whatever was said. */
  lemma AgreementIssueLooksLikeGreeting(data: JsValue, q: Request, server: nat -> Completion.Outcome)
    requires Normalize(data) == Accepted(q)
    requires Analyzer.SubjectVerbAgreement in Analyzer.Analysis(q.text, q.difficultyLevel, q.learningMode).grammarIssues
    ensures HandleMessage(data, false, server).response.reply == Completion.GreetingReply
  {
    var analysis := Analyzer.Analysis(q.text, q.difficultyLevel, q.learningMode);
    Analyzer.AgreementIssueJsonSaysHey(analysis);
    ContentWithHeyGreets(q.text, analysis);
    NoKeyGetsFallback(data, q, server);
  }

  // ================================================================ the registry

  /** What the registry keeps of a client. */
  datatype ClientInfo = ClientInfo(id: string, messageCount: nat)

  /** The `connections` map and the two counters. */
  class Registry {
    var connections: map<string, ClientInfo>
    var totalConnections: int
    var activeConnections: int

    constructor()
      ensures connections == map[] && totalConnections == 0 && activeConnections == 0
    {
      connections := map[];
      totalConnections := 0;
      activeConnections := 0;
    }

    /** `connection`: both counters go up and the client is (re)registered
        with no messages. */
    method Connect(id: string)
      modifies this
      ensures connections == old(connections)[id := ClientInfo(id, 0)]
      ensures totalConnections == old(totalConnections) + 1
      ensures activeConnections == old(activeConnections) + 1
    {
      totalConnections := totalConnections + 1;
      activeConnections := activeConnections + 1;
      connections := connections[id := ClientInfo(id, 0)];
    }

    /** `chat message`: a registered client's count goes up by one (an
        unknown one is left alone), then the message is handled. */
    method ChatMessage(id: string, data: JsValue, hasKey: bool, server: nat -> Completion.Outcome)
      returns (handled: Handled)
      modifies this
      ensures handled == HandleMessage(data, hasKey, server)
      ensures id in old(connections) ==>
                connections == old(connections)[id := old(connections)[id].(messageCount := old(connections)[id].messageCount + 1)]
      ensures id !in old(connections) ==> connections == old(connections)
      ensures totalConnections == old(totalConnections) && activeConnections == old(activeConnections)
    {
      CountMessage(id);
      handled := Handle(data, hasKey, server);
    }

    /** `client.messageCount++` when the client is registered. */
    method CountMessage(id: string)
      modifies this
      ensures id in old(connections) ==>
                connections == old(connections)[id := old(connections)[id].(messageCount := old(connections)[id].messageCount + 1)]
      ensures id !in old(connections) ==> connections == old(connections)
      ensures totalConnections == old(totalConnections) && activeConnections == old(activeConnections)
    {
      if id in connections {
        var client := connections[id];
        connections := connections[id := client.(messageCount := client.messageCount + 1)];
      }
    }

    /** `disconnect`: the active count goes down even for an unknown client,
        and the client is forgotten. */
    method Disconnect(id: string)
      modifies this
      ensures connections == old(connections) - {id}
      ensures totalConnections == old(totalConnections)
      ensures activeConnections == old(activeConnections) - 1
    {
      activeConnections := activeConnections - 1;
      if id in connections {
        connections := connections - {id};
      }
    }
  }

  /** The handler's body, step by step through the imperative analyzer, the
      retry loop and the feedback scanner. */
  method Handle(data: JsValue, hasKey: bool, server: nat -> Completion.Outcome) returns (handled: Handled)
    ensures handled == HandleMessage(data, hasKey, server)
  {
    var checked := Normalize(data);
    if checked.Rejected? {
      return Refusal(data, checked.failure, None, [], 0);
    }
    var q := checked.request;
    var analysis := Analyzer.AnalyzeSpeechForLearning(q.text, q.difficultyLevel, q.learningMode);
    var content := UserContent(q.text, analysis);
    var request := ApiRequest(q.model, Prompt.TutorPrompt(q.personality, q.difficultyLevel, q.feedbackStyle),
                              content, MaxTokens);
    var run := Completion.MakeApiCallWithRetry(hasKey, server, content, Completion.MaxRetries);
    if run.body.NoChoices? {
      return Refusal(data, InvalidResponse, Some(request), run.delays, run.attempts);
    }
    var reply := run.body.content;
    var feedback := Feedback.ExtractLearningFeedback(reply);
    handled := Handled(Reply(reply, analysis, feedback, Metadata(q.model, q.personality, q.learningMode, q.difficultyLevel)),
                       LogEntry(Truncate(q.text), Truncate(reply), q.learningMode, q.difficultyLevel,
                                Some(Summary(analysis)), true, None),
                       Some(request), run.delays, run.attempts);
  }
}
