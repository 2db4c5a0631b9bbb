/** The chat-completion client: up to `maxRetries` HTTP attempts with waits
    between them, and a canned reply when no key is configured or every attempt
    failed (makeAPICallWithRetry, createFallbackResponse). The HTTP endpoint is
    an oracle giving the outcome of each numbered attempt; `sleep` is recorded
    as the list of its arguments in milliseconds. */
module Completion {
  import opened JsString
  import opened Wrappers

  /** CONFIG.maxRetries. */
  const MaxRetries: nat := 3

  /** What the server reads from a response body: `data.choices[0].message.content`,
      or the lack of a first choice. */
  datatype Body = NoChoices | Choice(content: string)

  /** One attempt: an HTTP response with its status, its `retry-after` header as
      `parseInt` reads it (None for NaN) and its body, or no response at all
      (a network error or the 30-second timeout). */
  datatype Outcome =
    | Response(status: nat, retryAfter: Option<int>, body: Body)
    | NoResponse

  /** How the loop treats an attempt. A status of 500 or more makes axios throw
      (validateStatus), a status of 400 or more other than 429 is thrown by the
      loop itself, and both land in the same catch. */
  datatype Step = Returned(body: Body) | RateLimited(wait: int) | Failed

  function Pow2(k: nat): (r: nat)
    ensures r >= 1
  {
    if k == 0 then 1 else 2 * Pow2(k - 1)
  }

  /** The wait after a 429 on attempt k: `(parseInt(retry-after) || 2^k) * 1000`. */
  function RateLimitWait(retryAfter: Option<int>, attempt: nat): int {
    (if retryAfter.Some? && retryAfter.value != 0 then retryAfter.value else Pow2(attempt)) * 1000
  }

  /** The wait after failed attempt k: `min(1000 * 2^(k-1), 10000)`. */
  function Backoff(attempt: nat): (r: nat)
    requires attempt >= 1
    ensures 1000 <= r <= 10000
    ensures attempt >= 5 ==> r == 10000
    ensures attempt < 5 ==> r == 1000 * Pow2(attempt - 1)
  {
    BackoffGrows(attempt);
    if 1000 * Pow2(attempt - 1) < 10000 then 1000 * Pow2(attempt - 1) else 10000
  }

  lemma {:induction false} BackoffGrows(attempt: nat)
    requires attempt >= 1
    ensures attempt >= 5 ==> 1000 * Pow2(attempt - 1) >= 16000
    ensures attempt < 5 ==> 1000 * Pow2(attempt - 1) <= 8000
  {
    if attempt > 5 {
      BackoffGrows(attempt - 1);
    } else {
      assert Pow2(0) == 1 && Pow2(1) == 2 && Pow2(2) == 4 && Pow2(3) == 8 && Pow2(4) == 16;
    }
  }

  function Classify(attempt: nat, outcome: Outcome): Step {
    match outcome
    case NoResponse => Failed
    case Response(status, retryAfter, body) =>
      if status >= 500 then Failed
      else if status == 429 then RateLimited(RateLimitWait(retryAfter, attempt))
      else if status >= 400 then Failed
      else Returned(body)
  }

  // ---------------------------------------------------------------- the retry loop

  /** The attempts from `attempt` to `maxRetries`: the body returned, if any,
      the waits and the number of attempts made. */
  datatype Attempts = Attempts(returned: Option<Body>, delays: seq<int>, count: nat)

  function RetryFrom(server: nat -> Outcome, attempt: nat, maxRetries: nat): Attempts
    requires attempt >= 1
    decreases maxRetries + 1 - attempt
  {
    if attempt > maxRetries then Attempts(None, [], 0)
    else
      match Classify(attempt, server(attempt))
      case Returned(body) => Attempts(Some(body), [], 1)
      case RateLimited(wait) =>
        var rest := RetryFrom(server, attempt + 1, maxRetries);
        Attempts(rest.returned, [wait] + rest.delays, 1 + rest.count)
      case Failed =>
        var rest := RetryFrom(server, attempt + 1, maxRetries);
        Attempts(rest.returned, (if attempt < maxRetries then [Backoff(attempt)] else []) + rest.delays, 1 + rest.count)
  }

  datatype Source = Upstream | Fallback

  /** The value makeAPICallWithRetry resolves to, with the waits and attempts
      made on the way. */
  datatype Run = Run(body: Body, source: Source, delays: seq<int>, attempts: nat)

  /** makeAPICallWithRetry(requestData, maxRetries), where `userMessage` is
      `requestData.messages[1].content`. */
  function CallWithRetry(hasKey: bool, server: nat -> Outcome, userMessage: string, maxRetries: nat): Run {
    if !hasKey then Run(FallbackResponse(userMessage), Fallback, [], 0)
    else
      var tail := RetryFrom(server, 1, maxRetries);
      match tail.returned
      case Some(body) => Run(body, Upstream, tail.delays, tail.count)
      case None => Run(FallbackResponse(userMessage), Fallback, tail.delays, tail.count)
  }

  method MakeApiCallWithRetry(hasKey: bool, server: nat -> Outcome, userMessage: string, maxRetries: nat)
    returns (run: Run)
    ensures run == CallWithRetry(hasKey, server, userMessage, maxRetries)
  {
    if !hasKey {
      return Run(FallbackResponse(userMessage), Fallback, [], 0);
    }
    var delays: seq<int> := [];
    var attempt := 1;
    while attempt <= maxRetries
      invariant 1 <= attempt <= maxRetries + 1
      invariant RetryFrom(server, 1, maxRetries).returned == RetryFrom(server, attempt, maxRetries).returned
      invariant RetryFrom(server, 1, maxRetries).delays == delays + RetryFrom(server, attempt, maxRetries).delays
      invariant RetryFrom(server, 1, maxRetries).count == attempt - 1 + RetryFrom(server, attempt, maxRetries).count
      decreases maxRetries + 1 - attempt
    {
      match Classify(attempt, server(attempt)) {
        case Returned(body) =>
          return Run(body, Upstream, delays, attempt);
        case RateLimited(wait) =>
          // a 429 waits even after the last attempt
          delays := delays + [wait];
        case Failed =>
          if attempt < maxRetries {
            delays := delays + [Backoff(attempt)];
          }
      }
      attempt := attempt + 1;
    }
    return Run(FallbackResponse(userMessage), Fallback, delays, attempt - 1);
  }

  // ---------------------------------------------------------------- properties of the loop

  /** Without a key no attempt is made, nothing is awaited and the reply is the
      fallback's. */
  lemma NoKeyNoAttempt(server: nat -> Outcome, userMessage: string, maxRetries: nat)
    ensures CallWithRetry(false, server, userMessage, maxRetries)
            == Run(FallbackResponse(userMessage), Fallback, [], 0)
  {
  }

  /** From attempt `a` on, at most `maxRetries + 1 - a` attempts are made, and each
      adds at most one wait. */
  lemma {:induction false} RetryFromBounds(server: nat -> Outcome, a: nat, maxRetries: nat)
    requires 1 <= a <= maxRetries + 1
    ensures RetryFrom(server, a, maxRetries).count <= maxRetries + 1 - a
    ensures |RetryFrom(server, a, maxRetries).delays| <= RetryFrom(server, a, maxRetries).count
    decreases maxRetries + 1 - a
  {
    if a <= maxRetries && !Classify(a, server(a)).Returned? {
      RetryFromBounds(server, a + 1, maxRetries);
    }
  }

  lemma AttemptsBounded(hasKey: bool, server: nat -> Outcome, userMessage: string, maxRetries: nat)
    ensures CallWithRetry(hasKey, server, userMessage, maxRetries).attempts <= maxRetries
    ensures |CallWithRetry(hasKey, server, userMessage, maxRetries).delays|
            <= CallWithRetry(hasKey, server, userMessage, maxRetries).attempts
  {
    RetryFromBounds(server, 1, maxRetries);
  }

  /** A run ends with an upstream body exactly when some attempt returned one,
      and that body is the one of the first such attempt. */
  lemma {:induction false} RetryFromReturns(server: nat -> Outcome, a: nat, maxRetries: nat)
    requires 1 <= a <= maxRetries + 1
    ensures RetryFrom(server, a, maxRetries).returned.Some? <==>
            exists k :: a <= k <= maxRetries && Classify(k, server(k)).Returned?
    ensures RetryFrom(server, a, maxRetries).returned.Some? ==>
            exists k :: a <= k <= maxRetries &&
                        Classify(k, server(k)) == Returned(RetryFrom(server, a, maxRetries).returned.value) &&
                        RetryFrom(server, a, maxRetries).count == k + 1 - a &&
                        forall j :: a <= j < k ==> !Classify(j, server(j)).Returned?
    decreases maxRetries + 1 - a
  {
    if a <= maxRetries && !Classify(a, server(a)).Returned? {
      RetryFromReturns(server, a + 1, maxRetries);
      var r := RetryFrom(server, a, maxRetries);
      if r.returned.Some? {
        var k :| a + 1 <= k <= maxRetries &&
                 Classify(k, server(k)) == Returned(RetryFrom(server, a + 1, maxRetries).returned.value) &&
                 RetryFrom(server, a + 1, maxRetries).count == k + 1 - (a + 1) &&
                 forall j :: a + 1 <= j < k ==> !Classify(j, server(j)).Returned?;
        assert forall j :: a <= j < k ==> !Classify(j, server(j)).Returned?;
      }
    }
  }

  /** The run is an upstream one exactly when a key is set and some attempt
      got a response with a status below 400 other than 429. */
  lemma UpstreamIffSomeAttemptReturned(hasKey: bool, server: nat -> Outcome, userMessage: string, maxRetries: nat)
    ensures CallWithRetry(hasKey, server, userMessage, maxRetries).source == Upstream <==>
            hasKey && exists k :: 1 <= k <= maxRetries && Classify(k, server(k)).Returned?
  {
    RetryFromReturns(server, 1, maxRetries);
  }

  /** When every attempt from `a` on fails, the waits are the backoff schedule
      of attempts a .. maxRetries - 1: nothing is awaited after the last one. */
  lemma {:induction false} AllFailedSchedule(server: nat -> Outcome, a: nat, maxRetries: nat)
    requires 1 <= a <= maxRetries
    requires forall k :: a <= k <= maxRetries ==> Classify(k, server(k)).Failed?
    ensures RetryFrom(server, a, maxRetries).returned == None
    ensures RetryFrom(server, a, maxRetries).count == maxRetries + 1 - a
    ensures RetryFrom(server, a, maxRetries).delays
            == seq(maxRetries - a, i requires 0 <= i < maxRetries - a => Backoff(a + i))
    decreases maxRetries + 1 - a
  {
    assert Classify(a, server(a)).Failed?;
    if a < maxRetries {
      AllFailedSchedule(server, a + 1, maxRetries);
      var rest := RetryFrom(server, a + 1, maxRetries).delays;
      assert [Backoff(a)] + rest == seq(maxRetries - a, i requires 0 <= i < maxRetries - a => Backoff(a + i));
    } else {
      assert RetryFrom(server, a + 1, maxRetries).delays == [];
    }
  }

  /** With the configured three attempts all failing, the client waits 1 s and
      then 2 s, and then answers with the fallback. */
  lemma ThreeFailuresWaitOneThenTwoSeconds(server: nat -> Outcome, userMessage: string)
    requires forall k :: 1 <= k <= MaxRetries ==> Classify(k, server(k)).Failed?
    ensures CallWithRetry(true, server, userMessage, MaxRetries)
            == Run(FallbackResponse(userMessage), Fallback, [1000, 2000], 3)
  {
    AllFailedSchedule(server, 1, MaxRetries);
    assert Pow2(0) == 1 && Pow2(1) == 2;
  }

  /** The last attempt adds a wait only when it is rate limited. */
  lemma LastAttemptWaits(server: nat -> Outcome, maxRetries: nat)
    requires maxRetries >= 1
    ensures RetryFrom(server, maxRetries, maxRetries).delays
            == match Classify(maxRetries, server(maxRetries))
               case RateLimited(wait) => [wait]
               case _ => []
  {
    assert RetryFrom(server, maxRetries + 1, maxRetries) == Attempts(None, [], 0);
  }

  /** A 429 waits for the retry-after value in seconds, or for 2^k seconds on
      attempt k when the header is missing, unreadable or zero; the attempt is
      used up either way. */
  lemma RateLimitedAttempt(server: nat -> Outcome, a: nat, maxRetries: nat)
    requires 1 <= a <= maxRetries
    requires server(a).Response? && server(a).status == 429
    ensures RetryFrom(server, a, maxRetries).delays
            == [RateLimitWait(server(a).retryAfter, a)] + RetryFrom(server, a + 1, maxRetries).delays
    ensures RetryFrom(server, a, maxRetries).count == 1 + RetryFrom(server, a + 1, maxRetries).count
    ensures server(a).retryAfter.None? || server(a).retryAfter == Some(0) ==>
              RateLimitWait(server(a).retryAfter, a) == 1000 * Pow2(a)
    ensures server(a).retryAfter.Some? && server(a).retryAfter.value != 0 ==>
              RateLimitWait(server(a).retryAfter, a) == 1000 * server(a).retryAfter.value
  {
  }

  /** Without rate limiting every wait is a backoff between 1 s and 10 s, and a
      run that falls back waited once less than it attempted. */
  lemma {:induction false} BackoffOnlyWaits(server: nat -> Outcome, a: nat, maxRetries: nat)
    requires 1 <= a <= maxRetries + 1
    requires forall k :: a <= k <= maxRetries ==> !Classify(k, server(k)).RateLimited?
    ensures forall i :: 0 <= i < |RetryFrom(server, a, maxRetries).delays| ==>
              1000 <= RetryFrom(server, a, maxRetries).delays[i] <= 10000
    ensures a <= maxRetries && RetryFrom(server, a, maxRetries).returned.None? ==>
              |RetryFrom(server, a, maxRetries).delays| == RetryFrom(server, a, maxRetries).count - 1
    decreases maxRetries + 1 - a
  {
    if a <= maxRetries && Classify(a, server(a)).Failed? {
      BackoffOnlyWaits(server, a + 1, maxRetries);
      var rest := RetryFrom(server, a + 1, maxRetries);
      if a == maxRetries {
        assert rest == Attempts(None, [], 0);
      }
    }
  }

  // ---------------------------------------------------------------- the fallback reply

  const GreetingReply: string :=
    "Hello! I'm your " + "English tutor. " + "I'm here to " + "help you " + "practice " +
    "speaking " + "English. " + "Unfortunately, " + "I'm currently " +
    "running in demo " + "mode without " + "full AI " + "capabilities, " +
    "but I can still " + "help you " + "practice! " + "Please continue " +
    "speaking and " + "I'll provide " + "basic feedback."
  const QuestionReply: string :=
    "That's a great " + "question! I can " + "see you're " + "practicing your " +
    "English well. " + "In full mode, I " + "would provide " + "detailed " +
    "feedback on " + "your grammar, " + "pronunciation, " + "and vocabulary. " +
    "For now, keep " + "practicing - " + "your speech is " + "being analyzed " +
    "and you're " + "doing great!"
  const GenericReply: string :=
    "Thank you for " + "sharing that " + "with me! I can " + "see you're " +
    "making good " + "progress with " + "your English " + "speaking. Your " +
    "message was " + "clear and " + "well-structured. " + "Keep practicing " +
    "and you'll " + "continue to " + "improve!"

  /** The alternatives of `/hello|hi|hey|good morning|good afternoon|good evening/i`. */
  const GreetingWords: seq<string> := ["hello", "hi", "hey", "good morning", "good afternoon", "good evening"]

  /** The regex test: unanchored and case-insensitive, so it also fires on
      "this", "which" or "they". The alternatives are lower-case ASCII, so
      matching the lower-cased message is the same as ignoring case. */
  predicate IsGreeting(message: string) {
    exists i :: 0 <= i < |GreetingWords| && Includes(Lower(message), GreetingWords[i])
  }

  function FallbackReply(userMessage: string): (r: string)
    ensures IsGreeting(userMessage) ==> r == GreetingReply
    ensures !IsGreeting(userMessage) && Includes(userMessage, "?") ==> r == QuestionReply
    ensures !IsGreeting(userMessage) && !Includes(userMessage, "?") ==> r == GenericReply
  {
    if IsGreeting(userMessage) then GreetingReply
    else if Includes(userMessage, "?") then QuestionReply
    else GenericReply
  }

  /** "they" and "this" count as greetings. */
  lemma UnanchoredGreeting()
    ensures IsGreeting("they") && IsGreeting("this")
  {
    assert Lower("they") == "they" && Lower("this") == "this";
    assert OccursAt("they", "hey", 1) && OccursAt("this", "hi", 1);
    IncludesAt("they", "hey", 1);
    IncludesAt("this", "hi", 1);
    assert GreetingWords[2] == "hey" && GreetingWords[1] == "hi";
  }

  /** Whatever holds "hey", in any case, is a greeting. */
  lemma HeyIsGreeting(message: string)
    requires Includes(message, "hey")
    ensures IsGreeting(message)
  {
    IncludesLower(message, "hey");
    assert Lower("hey") == "hey";
    assert GreetingWords[2] == "hey";
  }

  /** createFallbackResponse: a body shaped like an upstream reply. */
  function FallbackResponse(userMessage: string): (r: Body)
    ensures r.Choice? && r.content == FallbackReply(userMessage)
  {
    Choice(FallbackReply(userMessage))
  }
}
