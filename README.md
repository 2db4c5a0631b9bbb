# English Tutor AI — a verified model of its message pipeline

English Tutor AI is a voice tutor. The browser transcribes what the student
says and sends the transcript to a Node server over a socket. The server
validates the message and runs a heuristic speech analysis (grammar rules,
vocabulary level, pronunciation hints, a fluency score, suggestions). It
composes a system prompt from tables of personalities, levels and feedback
styles. It then asks a chat-completion service for a reply, retrying with
backoff and falling back to canned replies, and pulls tagged feedback out
of the reply. The browser keeps a bounded conversation history, session
counters and a vocabulary set, scores grammar and fluency on its own, and
can run a microphone diagnostic.

This project models that logic in Dafny and proves what each step promises.
It has one module per component:

- `JsString`, `JsValues`, `Json`: the JavaScript primitives the code relies on.
  - `split` on a literal and on a regex class run, `trim`, `indexOf`,
    `includes`, `toLowerCase` on ASCII, UTF-16 `length` and `padStart`.
  - Truthiness, `||` and property-name lookup.
  - `JSON.stringify` of the analysis record.
- `Analyzer`: `analyzeSpeechForLearning` and its helpers.
- `Prompt`: `getEnhancedTutorPrompt`.
- `Completion`: `makeAPICallWithRetry` and `createFallbackResponse`.
- `Feedback`: `extractLearningFeedback`.
- `Relay`: the `chat message` handler, its error replies, the interaction log
  and the connection registry (a class).
- `Client`: the browser's scorers, lookups, timer, transcript loop, history
  and session state (a class).
- `Diagnostics`: the microphone diagnostic and the session-report average.

Loops and in-place updates in the source are methods with loop invariants,
each proved equal to a specification function. Properties of those
functions are proved as lemmas. The HTTP layer is an oracle
`server: nat -> Outcome` giving the outcome of each attempt. Sleeps are
returned as a list of delays in milliseconds. Whether an API key is set is
a boolean parameter.

## Model

| member | source | states |
|---|---|---|
| JsString.Utf16Length | index.js:237 | `text.length` counts UTF-16 code units: between one and two per character |
| JsString.IndexOf | index.js:482-485 | the result is -1 or an occurrence at or after `from`, and no occurrence lies between `from` and it |
| JsString.IncludesIff | index.js:479 | `includes` holds exactly when the text occurs at some position |
| JsString.Split | index.js:509 | `split` on a literal separator yields at least one piece |
| JsString.CountPositive | index.js:509 | `split(neg).length - 1` is at least 1 when the negative occurs |
| JsString.CountZero | index.js:509 | `split(neg).length - 1` is 0 when the negative does not occur |
| JsString.SplitPiecesExcludeSeparator | index.js:509 | no piece of `split(sep)` contains the separator |
| JsString.SplitWithoutSeparator | index.js:509 | a text without the separator splits into itself alone |
| JsString.SpaceSplitPiecesHaveNoSpace | public/js/script.js:434 | no piece of `split(' ')` holds a space |
| JsString.SplitRuns | index.js:473 | `split(/[.!?]+/)` and `split(/\s+/)` yield at least one piece |
| JsString.SplitRunsPiecesOutside | index.js:473 | no piece holds a character of the class split on |
| JsString.SplitRunsWithoutClass | index.js:473 | a text without a class character is not split |
| JsString.SplitRunsKeepsOutsideChars | index.js:473 | every character outside the class survives in some piece |
| JsString.SplitRunsPiecesFromSource | index.js:473 | every character of a piece comes from the text |
| JsString.TrimIsCore | index.js:476 | `trim()` is a slice with only white space cut off either side, and it neither starts nor ends with white space |
| JsString.TrimNonEmptyIff | index.js:473 | `s.trim().length > 0` exactly when `s` has a character that is not white space |
| JsString.TrimUntouched | index.js:670 | trimming a text without surrounding white space changes nothing |
| JsString.KeepWordChars | index.js:563 | `replace(/[^\w]/g, '')` leaves only word characters |
| JsString.NatToString | public/js/script.js:954 | `toString()` of a whole number is a non-empty string of digits |
| JsString.NatToStringRoundTrip | public/js/script.js:954 | the printed digits read back as the number |
| JsString.PadStart | public/js/script.js:954 | `padStart` gives the width, or the text when it is already longer |
| JsValues.PropertyKey | index.js:627 | the property name a string selects is the string itself; an empty array selects the empty name |
| JsValues.SingletonArrayKey | index.js:627 | a one-element array selects what its element selects; a lone `null` or `undefined` selects the empty name |
| JsValues.NoElementNamed | index.js:222 | an array has no element under `text` or any name that does not start with a digit |
| JsValues.LookupOrOwn | index.js:627 | a table lookup misses exactly when the table has no own entry and `Object.prototype` has no member of that name; `\|\| fallback` takes the fallback only then |
| JsValues.OrDefault | index.js:224-228 | `a \|\| b` with a truthy default is truthy, and is the default exactly when `a` is falsy or equal to it |
| Json.EscapeKeepsPlainText | index.js:254 | `JSON.stringify` keeps every occurrence of a text without quotes, backslashes or control characters |
| Json.QuoteKeepsPlainText | index.js:254 | the same for a quoted string value |
| Json.ArrayIncludesItem | index.js:254 | a serialised array holds each serialised item |
| Json.ObjectIncludesValue | index.js:254 | a serialised object holds each member's serialised value |
| Analyzer.NonBlank | index.js:473 | the filter `s.trim().length > 0` keeps no more pieces than it is given |
| Analyzer.Flagged | index.js:479-517 | at most three issues, in rule order, each present exactly when its rule fired |
| Analyzer.SentenceIssues | index.js:475-517 | one sentence gives capitalization, agreement and double-negative issues in that order, each exactly when its rule holds on the trimmed lower-case sentence |
| Analyzer.IssueCountBound | index.js:471-521 | there are at most three issues per sentence |
| Analyzer.IPronounPositions | index.js:481-486 | the `indexOf` loop collects, in increasing order, exactly the positions after each `" i "` |
| Analyzer.CheckSentence | index.js:476-517 | the `forEach` body pushes exactly the sentence's issues |
| Analyzer.AnalyzeGrammar | index.js:471-521 | the issues are those of each sentence in sentence order, at most three per sentence |
| Analyzer.GrammarIssues | index.js:471-521 | the issues of each sentence in order (its properties: `Analyzer.AnalyzeGrammar`, `Analyzer.IssueCountBound`) |
| Analyzer.CountListed | index.js:533-535 | the exact count of matching tokens, at most the token count |
| Analyzer.LevelOfWords | index.js:537-544 | the level of a token list (its properties: `Analyzer.VocabularyBuckets`, `Analyzer.LevelMonotone`) |
| Analyzer.AssessVocabularyLevel | index.js:524-545 | the level of a text (its properties: `Analyzer.VocabularyBuckets`) |
| Analyzer.VocabularyBuckets | index.js:524-545 | with A and I the numbers of token positions on the advanced and intermediate lists: `advanced` iff 10·A > tokens; else `intermediate` iff 20·I > tokens; else `beginner`; the target level has no effect |
| Analyzer.CountListedIsListedPositions | index.js:533-535 | the filter's count is the number of token positions whose token is on the list |
| Analyzer.LevelMonotone | index.js:537-544 | for the same number of tokens, more advanced tokens and no fewer intermediate ones never give a lower level |
| Analyzer.CountListedUpdate | index.js:533-535 | replacing one token changes a list's count by the difference of the two tokens' membership |
| Analyzer.AdvancedWordInPlaceOfPlainNeverLowers | index.js:524-545 | putting an advanced word in place of a token on neither list never lowers the level |
| Analyzer.AdvancedWordCanLowerLevel | index.js:537-544 | adding an advanced word to a text can move it from `intermediate` to `beginner` |
| Analyzer.ConcernsAreDictionaryHits | index.js:548-574 | every concern is a cleaned token whose lookup in `difficultWords` found a value (an own tip, or the member the literal inherits), carrying that value; at most one per token; and every token that cleans to such a word gives one |
| Analyzer.Tip | index.js:553-564 | `difficultWords[word]`: an own tip, an inherited member or nothing (its properties: `Analyzer.InheritedConcernWords`) |
| Analyzer.PronunciationConcerns | index.js:548-574 | the concerns of a text (its properties: `Analyzer.ConcernsAreDictionaryHits`) |
| Analyzer.IdentifyPronunciationConcerns | index.js:548-574 | the `forEach` loop pushes exactly those concerns |
| Analyzer.InheritedNameCapital | index.js:553-564 | of the names every object inherits, only `constructor` and `__proto__` have no capital letter |
| Analyzer.ConcernWordsLower | index.js:550-563 | tokens without capital letters give concern words without capital letters |
| Analyzer.InheritedConcernWords | index.js:550-564 | so on the lower-cased text an inherited tip is only ever found for `constructor` or `__proto__` |
| Analyzer.InheritedWordConcern | index.js:562-570 | a token made of word characters that names an inherited member gives one concern carrying that member |
| Analyzer.InheritedFunctionConcernJson | index.js:254 | a concern whose tip is an inherited function serialises without a `tip` member |
| Analyzer.ConstructorConcern | index.js:553-570 | the token `constructor` gives one concern, serialised with only `word` and `type` |
| Analyzer.DistinctCountIsCardinality | index.js:592 | `new Set(words).size` is the number of different tokens |
| Analyzer.FluencyScoreRange | index.js:577-598 | the score is 50 plus the length, connective and variety adjustments, and always lies in [20, 95], so the clamp never applies |
| Analyzer.FluencyScore | index.js:577-598 | the fluency score (its properties: `Analyzer.FluencyScoreRange`) |
| Analyzer.CalculateFluencyScore | index.js:577-598 | updating the local score step by step gives that score |
| Analyzer.SuggestionsShape | index.js:601-623 | at most two suggestions, each present exactly under its mode condition, and the elaborate hint exactly below ten words |
| Analyzer.Suggestions | index.js:601-623 | the suggestions (its properties: `Analyzer.SuggestionsShape`) |
| Analyzer.GenerateLearningSuggestions | index.js:601-623 | pushing the suggestions one by one gives those suggestions |
| Analyzer.AnalysisInvariants | index.js:434-461 | every analysis keeps its text, counts at least one word, scores in [0, 100], has at most three issues per sentence, dictionary-backed concerns and at most two suggestions |
| Analyzer.Analysis | index.js:434-461 | the analysis record (its properties: `Analyzer.AnalysisInvariants`) |
| Analyzer.AnalyzeSpeechForLearning | index.js:434-468 | filling in the record field by field gives that analysis |
| Analyzer.AnalysisMembersHoldArrays | index.js:254 | the serialised analysis holds its issue and suggestion arrays |
| Analyzer.AnalysisJson | index.js:254 | `JSON.stringify` of the analysis (its properties: `Analyzer.AnalysisJsonListsIssues`, `Analyzer.AnalysisJsonCarriesSuggestions`) |
| Analyzer.IssueJsonCarriesTexts | index.js:488-515 | each serialised issue carries its description and suggestion |
| Analyzer.AnalysisJsonListsIssues | index.js:254 | the serialised analysis lists every grammar issue |
| Analyzer.AnalysisJsonCarriesSuggestions | index.js:254 | so the user turn carries every issue's suggestion |
| Analyzer.AgreementSuggestionSaysHey | index.js:502 | the agreement suggestion ("you/we/they") contains "hey" |
| Analyzer.AnalysisJsonKeepsSuggestionText | index.js:254 | any plain text inside a suggestion survives serialisation |
| Analyzer.AgreementIssueJsonSaysHey | index.js:254 | an analysis with an agreement issue serialises to a text holding "hey" |
| Analyzer.SingleSentence | index.js:473 | a text with no `.`, `!` or `?` and a visible character is one sentence |
| Analyzer.AgreementRuleSimplified | index.js:498 | the `' are '` test is implied by each of the three patterns |
| Analyzer.MissingNoExcludes | index.js:508-509 | a negative starting with "no" does not occur where "no" does not |
| Analyzer.NoNegatives | index.js:508-509 | without "no" and "never" the negative count is 0 |
| Analyzer.AgreementWithoutCapitalization | index.js:479-517 | a lower-case sentence starting with "i " that says "i are" and has no negatives gets only the agreement issue |
| Analyzer.AgreementExample | index.js:479-517 | "i are happy today and i are excited" gives exactly `[subject_verb_agreement]` |
| Analyzer.DoubleNegativeFlagged | index.js:507-517 | a sentence whose lower-case form counts two negatives gets the double-negative issue |
| Analyzer.DoubleNegativeExample | index.js:507-517 | "I don't know nothing" gets the double-negative issue |
| Analyzer.NothingCountsThree | index.js:508-509 | the word "nothing" alone counts 3 (not, no, nothing) |
| Prompt.PersonalityNamed | index.js:31-86 | a property name selects the personality stored under it |
| Prompt.LevelNamed | index.js:629-634 | a property name selects the level stored under it |
| Prompt.StyleNamed | index.js:636-641 | a property name selects the feedback style stored under it |
| Prompt.NamedRoundTrip | index.js:627-641 | each entry is found under its own name |
| Prompt.PersonalityOf | index.js:627 | never missing: the named personality when there is one, the inherited member for a name every object inherits, the conversation partner otherwise |
| Prompt.LevelLine | index.js:645 | a level without an entry is written as the printed inherited member for an inherited name, and as `undefined` otherwise |
| Prompt.StyleLine | index.js:646 | a style without an entry is written as the printed inherited member for an inherited name, and as `undefined` otherwise |
| Prompt.ComposeParts | index.js:643-648 | the prompt starts with the template, holds the `Student Level:` and `Feedback Style:` lines and ends with the closing sentence |
| Prompt.Template | index.js:31-86 | the text of each personality (its properties: `Prompt.TutorPromptShape`) |
| Prompt.BasePrompt | index.js:627 | the base prompt as text, printing an inherited member (its properties: `Prompt.TutorPromptShape`, `Prompt.InheritedKeysPrintMembers`) |
| Prompt.TutorPrompt | index.js:626-649 | the composed prompt (its properties: `Prompt.TutorPromptShape`) |
| Prompt.TutorPromptShape | index.js:626-649 | for any keys the prompt starts with the selected template, the printed inherited member for an inherited name, or the conversation partner's template otherwise; it holds both lines and ends with the closing sentence |
| Prompt.UnknownKeysReadUndefined | index.js:645-646 | an unknown level or style that no object inherits puts `Student Level: undefined` or `Feedback Style: undefined` in the prompt |
| Prompt.ComposeUndefinedLevel | index.js:645 | the prompt then holds `Student Level: undefined` |
| Prompt.ComposeUndefinedStyle | index.js:646 | the prompt then holds `Feedback Style: undefined` |
| Prompt.NonStringKeysMiss | index.js:627-646 | the property name of a value that is neither a string nor an array names no entry of any table and no inherited member |
| Prompt.NonStringKeysUseDefaults | index.js:627-646 | so such a personality means the conversation partner, and such a level or style reads `undefined` |
| Prompt.NonStringNameNotInherited | index.js:627 | no name printed from a non-string, non-array value is inherited |
| Prompt.SingletonArraySelects | index.js:627-646 | a one-element array chooses the same personality, level and style as its element |
| Prompt.ArrayPersonalitySelectsTemplate | index.js:627 | `["grammar_tutor"]` selects the grammar tutor |
| Prompt.InheritedNamesAreNoEntries | index.js:627-641 | no inherited name is an entry of any of the three tables |
| Prompt.InheritedNameIsNoPersonality | index.js:31-86 | no personality is stored under an inherited name |
| Prompt.InheritedNameIsNoLevel | index.js:629-634 | no level is stored under an inherited name |
| Prompt.InheritedNameIsNoStyle | index.js:636-641 | no feedback style is stored under an inherited name |
| Prompt.InheritedKeysPrintMembers | index.js:627-646 | a key naming an inherited member puts that member, printed, into the prompt as the base prompt, the level and the style |
| Completion.Backoff | index.js:389 | `min(1000·2^(k-1), 10000)` lies in [1000, 10000] and is 10000 from the fifth attempt on |
| Completion.MakeApiCallWithRetry | index.js:346-399 | the retry loop gives the run of the function model: body, source, waits and attempts |
| Completion.RetryFrom | index.js:355-394 | the retry loop as a function from attempt a on (its properties: `Completion.RetryFromBounds`, `Completion.RetryFromReturns`) |
| Completion.CallWithRetry | index.js:346-399 | the whole call: fallback without a key, else the retries and the fallback after them (its properties: `Completion.UpstreamIffSomeAttemptReturned`) |
| Completion.Classify | index.js:359-382 | one attempt's outcome: returned, rate limited or failed (its properties: `Completion.RetryFromReturns`) |
| Completion.RateLimitWait | index.js:370-376 | the wait of a 429 (its properties: `Completion.RateLimitedAttempt`) |
| Completion.NoKeyNoAttempt | index.js:350-353 | without a key, the reply is the fallback, with no attempt and no wait |
| Completion.RetryFromBounds | index.js:355-394 | from attempt a on, at most maxRetries + 1 - a attempts are made, each adding at most one wait |
| Completion.AttemptsBounded | index.js:355 | at most maxRetries attempts, and no more waits than attempts |
| Completion.RetryFromReturns | index.js:355-394 | a body comes back exactly when some attempt got a status below 400 other than 429, and it is that of the first such attempt |
| Completion.UpstreamIffSomeAttemptReturned | index.js:355-398 | the reply is upstream exactly when a key is set and some attempt returned; otherwise it is the fallback, never a throw |
| Completion.AllFailedSchedule | index.js:384-394 | when every attempt fails, the waits are the backoffs of all attempts but the last |
| Completion.ThreeFailuresWaitOneThenTwoSeconds | index.js:384-398 | three failures wait 1000 ms, then 2000 ms, then fall back |
| Completion.LastAttemptWaits | index.js:370-394 | the last attempt waits only when it is rate limited |
| Completion.RateLimitedAttempt | index.js:370-376 | a 429 waits retry-after seconds, or 2^k when the header is absent or zero, and uses up its attempt |
| Completion.BackoffOnlyWaits | index.js:384-393 | without rate limiting every wait is a backoff in [1000, 10000], and a run that falls back waited once less than it attempted |
| Completion.FallbackReply | index.js:402-415 | greeting reply for a greeting, else question reply for a `?`, else the generic reply |
| Completion.IsGreeting | index.js:404 | the unanchored greeting test (its properties: `Completion.UnanchoredGreeting`, `Completion.HeyIsGreeting`) |
| Completion.UnanchoredGreeting | index.js:404 | "they" and "this" count as greetings |
| Completion.HeyIsGreeting | index.js:404 | any text holding "hey", in any case, is a greeting |
| Completion.FallbackResponse | index.js:417-425 | the fallback always has a choice whose content is the fallback reply |
| Feedback.ScannedTagsAreTags | index.js:661-665 | each scanned tag opens with `[` and holds no other `[` |
| Feedback.CaptureEnd | index.js:661 | the lazy capture stops at the next `[` or at the end |
| Feedback.Spans | index.js:669-671 | every capture span lies after its tag and inside the reply |
| Feedback.Texts | index.js:670 | one trimmed text per span |
| Feedback.CapturesFromUnfold | index.js:669-671 | one `exec` step adds the trimmed capture and resumes where it ends |
| Feedback.CapturesFromDone | index.js:669 | the loop stops when no tag is left |
| Feedback.ScanTag | index.js:669-671 | the `while (exec)` loop collects exactly the tag's captures |
| Feedback.ExtractLearningFeedback | index.js:652-682 | grammar, pronunciation and vocabulary hold the captures of their tags; `general` stays empty |
| Feedback.FeedbackOf | index.js:652-682 | the feedback record (its properties: `Feedback.CapturesAreClean`, `Feedback.CaptureCountIsOccurrenceCount`) |
| Feedback.SpansHaveNoBracket | index.js:661 | no span holds a `[` |
| Feedback.CapturesAreClean | index.js:669-679 | every capture is trimmed and holds no `[` |
| Feedback.NoTagInsideCapture | index.js:661 | no tag occurs inside a capture |
| Feedback.SpanCountIsOccurrenceCount | index.js:669-671 | one span per occurrence of the tag |
| Feedback.CaptureCountIsOccurrenceCount | index.js:669-679 | one capture per occurrence of the tag |
| Feedback.RenderRoundTrip | index.js:669-679 | scanning a reply written as tag + item for each clean item gives back the items |
| Relay.CheckText | index.js:233-239 | accepted exactly when the text is a non-empty string of at most 1000 code units; otherwise too long or text required |
| Relay.Normalize | index.js:211-231 | the two formats: a string with all defaults, an object or array with `\|\|` defaults; anything else an invalid format (its properties: `Relay.AcceptedIff`) |
| Relay.AcceptedIff | index.js:211-239 | a message is accepted exactly when it is a string, or an object or array whose text is such a string; anything else is an invalid format |
| Relay.ArrayNeedsText | index.js:221-235 | an array passes the format check but carries no text, so it is refused as text required |
| Relay.StringGetsDefaults | index.js:213-220 | a bare string gets all five defaults |
| Relay.ObjectFieldsOrDefaults | index.js:221-228 | an object keeps each truthy field and defaults each falsy or missing one |
| Relay.LongTextRejected | index.js:237-239 | more than 1000 characters are always refused as too long |
| Relay.InvalidFormatReply | index.js:305-306 | an invalid format gets "Please provide a valid message." |
| Relay.TextRequiredReply | index.js:305-306 | a missing text gets "Please provide a valid message." |
| Relay.TooLongReply | index.js:307-308 | the too-long message is returned verbatim |
| Relay.TooLongSaysSo | index.js:238 | and it says "Message too long" |
| Relay.InvalidResponseReply | index.js:264-265 | a body without choices gets the generic apology |
| Relay.FailureReplies | index.js:298-309 | the reply for each error the handler throws |
| Relay.ErrorReply | index.js:298-309 | the reply chosen from an error message by its substrings (its properties: `Relay.FailureReplies`) |
| Relay.UserContent | index.js:254 | the user turn: the quoted text and the serialised analysis (its properties: `Relay.ContentWithHeyGreets`) |
| Relay.Truncate | index.js:706-707 | at most 103 characters: the text itself up to 100, else its first 100 and "..." |
| Relay.NumericTextLosesFailureLog | index.js:319-321 | a message whose text is a number is refused, and the failure log as written then throws |
| Relay.FailedLogAsWritten | index.js:319-321 | the failure log as written, missing when `substring` throws (its properties: `Relay.WrittenLogThrowsIff`) |
| Relay.FailedTextAgrees | index.js:319 | the corrected failed text equals the written one wherever that is a string |
| Relay.FailedLog | index.js:318-321 | the corrected failure log holds the truncated text and reply, no analysis, failure, and the error message |
| Relay.FailedLogCorrectsOnlyTheCrash | index.js:318-321 | whenever the written log exists, the corrected one equals it |
| Relay.WrittenLogThrowsIff | index.js:319-321 | the written failure log throws exactly when the carried text is a truthy non-string |
| Relay.AnswerShape | index.js:262-292 | the answer is a reply exactly when the body has choices (with its analysis and feedback, logged as a success), the apology otherwise |
| Relay.HandleMessage | index.js:199-322 | the handler as a function: refusal or response (its properties: `Relay.RefusalStopsEarly`, `Relay.AcceptedIsSent`) |
| Relay.Respond | index.js:244-262 | analysis, prompt, user turn and the retry client for an accepted message (its properties: `Relay.AcceptedIsSent`) |
| Relay.Answer | index.js:262-292 | the reply or apology for the retry client's result (its properties: `Relay.AnswerShape`) |
| Relay.RefusalStopsEarly | index.js:294-321 | a refused message gets an error reply, with no request, no attempt and no wait |
| Relay.RefusalLogAgainstWritten | index.js:294-321 | on a refused message the handler's log equals the written one whenever that one is produced, and that one is missing exactly for a truthy non-string text |
| Relay.TooLongIsReportedVerbatim | index.js:307-316 | too long a text is answered with the length message |
| Relay.AcceptedIsSent | index.js:244-292 | an accepted message sends one request built from its fields and validated text, after at most three attempts, and gets a reply unless the body has no choices |
| Relay.NoKeyGetsFallback | index.js:262 | without a key an accepted message gets the fallback chosen from its user turn, with no attempt |
| Relay.ContentWithHeyGreets | index.js:254 | a user turn whose analysis holds "hey" reads as a greeting |
| Relay.AgreementIssueLooksLikeGreeting | index.js:254 | without a key, any text with an agreement issue gets the greeting reply |
| Relay.Registry.constructor | index.js:169-171 | no connections and both counters at zero |
| Relay.Registry.Connect | index.js:174-187 | both counters go up and the client is registered with no messages |
| Relay.Registry.ChatMessage | index.js:199-208 | a registered client's count goes up by one, and the message is handled as the handler model says |
| Relay.Registry.CountMessage | index.js:204-208 | `client.messageCount++` only for a registered client |
| Relay.Registry.Disconnect | index.js:326-337 | the active count goes down even for an unknown client, and the client is removed |
| Relay.Handle | index.js:199-322 | the handler body, step by step, gives the handler model's result |
| Client.GrammarPoints | public/js/script.js:494-507 | in [50, 100]; 100 exactly when all three indicators hold, 50 exactly when none does |
| Client.EstimateGrammar | public/js/script.js:494-507 | updating the local score and capping it gives those points |
| Client.VariedIffComma | public/js/script.js:496-499 | the variety bonus goes to exactly the texts that hold a comma |
| Client.AssessFluency | public/js/script.js:510-521 | fluency is max(0, 100 - 10·fillers), and the flow is good exactly above ten tokens |
| Client.YouKnowNeverCounts | public/js/script.js:511-513 | the filler count is that of the one-word fillers, since "you know" never matches a token |
| Client.TutorModeFor | public/js/script.js:737-746 | never missing; an own result names a server template; an inherited member exactly for an inherited mode name; `conversation_partner` exactly for the other modes than the four focused ones |
| Client.LearningModeTemplates | public/js/script.js:737-746 | each focused mode maps to the template name of the same focus, which the server knows |
| Client.ScenarioContext | public/js/script.js:904-915 | never missing; the six keys give a "You are ..." context, an inherited name its inherited member, any other name the general-practice default |
| Client.ScenarioText | public/js/script.js:905-912 | the literal has an own entry exactly for the six keys, each starting "You are " |
| Client.ScenarioEntry | public/js/script.js:906-911 | each listed scenario's context starts "You are " |
| Client.ScenarioKeysAreOwn | public/js/script.js:905-912 | no scenario key is a name every object inherits |
| Client.PaddedNumber | public/js/script.js:954 | a padded number is all digits, reads back as the number and has two digits below 100 |
| Client.TimerDisplayReadsBack | public/js/script.js:951-954 | the display is whole minutes, a colon and two digits of seconds below 60 |
| Client.TimerDisplay | public/js/script.js:951-954 | the timer text (its properties: `Client.TimerDisplayReadsBack`) |
| Client.CollectedNonEmptyIff | public/js/script.js:370-381 | a transcript is non-empty exactly when some result of its kind has text |
| Client.CollectedLengths | public/js/script.js:370-381 | every transcript character goes to exactly one of the two transcripts |
| Client.Collected | public/js/script.js:370-381 | a transcript of one kind (its properties: `Client.CollectedNonEmptyIff`, `Client.CollectedLengths`) |
| Client.Prepended | public/js/script.js:1397-1402 | the new item comes first, the length is at most 50, and the rest is the old history's head |
| Client.HistoryKeepsRecent | public/js/script.js:1397-1402 | after many additions the history is the 50 newest items, newest first |
| Client.PrependAll | public/js/script.js:1387-1402 | a run of additions (its properties: `Client.HistoryKeepsRecent`) |
| Client.VocabularyIsLowerWords | public/js/script.js:451-455 | vocabulary entries are lower-case and hold no space |
| Client.Vocabulary | public/js/script.js:451-455 | the words added to the vocabulary set (its properties: `Client.VocabularyIsLowerWords`, `Client.VocabularyStep`) |
| Client.VocabularyStep | public/js/script.js:451-455 | each word adds its lower-case form exactly when it is longer than three code units |
| Client.SpokenMessageEffect | public/js/script.js:427-455 | one spoken message adds a message, words, an interaction graded 50-100 and only lower-case vocabulary |
| Client.Analyzed | public/js/script.js:433-455 | the session after `analyzeUserSpeech` (its properties: `Client.SpokenMessageEffect`) |
| Client.Counted | public/js/script.js:427-428 | the session after the counters are raised (its properties: `Client.SpokenMessageEffect`) |
| Client.MessageData | public/js/script.js:405-420 | the message as the socket delivers it (its properties: `Client.ClientMessageAccepted`) |
| Client.ClientMessageAccepted | public/js/script.js:405-424 | the server accepts the client's message when the transcript fits; an own tutor mode arrives unchanged and selects its template, an inherited one reaches the server as `{}` or not at all and selects the conversation partner |
| Client.MessageDataIgnoresAnalysis | public/js/script.js:405-428 | the message reports the session counters from before the message, whatever the analysis recorded |
| Client.ClientState.constructor | public/js/script.js:56-64 | an empty session |
| Client.ClientState.AddToConversationHistory | public/js/script.js:1387-1402 | the history becomes the prepended, bounded list; nothing else changes |
| Client.ClientState.AnalyzeUserSpeech | public/js/script.js:433-455 | one interaction is recorded and the text's vocabulary is added |
| Client.ClientState.HandleSpeechResult | public/js/script.js:363-429 | the transcripts gathered from `resultIndex` on; with a final one, analysis, history, the message sent and the counters |
| Client.ClientState.UpdateTutorModeFromLearningMode | public/js/script.js:736-748 | the tutor mode becomes the mapped one |
| Client.ClientState.SelectScenario | public/js/script.js:884-902 | the scenario and its context are recorded |
| Diagnostics.RunMicrophoneDiagnostic | public/js/microphone-fix.js:174-235 | the feature flags as found; with no media devices nothing more happens; a grant sets access and `granted`; a failure records the error name and one error |
| Diagnostics.Failing | public/js/microphone-fix.js:254-272 | the failed checks, in order: a check is listed exactly when it failed |
| Diagnostics.FailingAll | public/js/microphone-fix.js:254-272 | the failed checks are browser, media devices, speech and microphone, in that order |
| Diagnostics.Texts | public/js/microphone-fix.js:254-272 | one text per failed check |
| Diagnostics.PermissionFixes | public/js/microphone-fix.js:274-287 | two extra fixes exactly for the three named access errors, none otherwise |
| Diagnostics.Report | public/js/microphone-fix.js:254-257 | one check pushes its issue and fix exactly when it failed |
| Diagnostics.ShowMicrophoneDiagnosticResults | public/js/microphone-fix.js:250-321 | an issue per failed check; a fix per failed check, then the permission fixes; "All checks passed" exactly when there are no issues |
| Diagnostics.AllPassedIff | public/js/microphone-fix.js:314-321 | the panel reports success exactly when the four checks passed |
| Diagnostics.AudioContextIgnored | public/js/microphone-fix.js:254-272 | the audio-context flag changes no issue and no fix |
| Diagnostics.FixesPerIssue | public/js/microphone-fix.js:254-287 | there are as many fixes as issues, plus two for a named access error |
| Diagnostics.NoMediaDevicesTwoIssues | public/js/microphone-fix.js:198-272 | without media devices the diagnostic reports both that and microphone access, with no permission fixes |
| Diagnostics.AverageWordsPerMessage | public/js/microphone-fix.js:157 | the result r satisfies 2·d·r ≤ 2·words + d < 2·d·r + 2·d for d = max(messages, 1) |
| Diagnostics.AverageIsNearest | public/js/microphone-fix.js:157 | so it is the nearest whole number to the quotient, with halves rounded up |
| Diagnostics.AverageWithoutMessages | public/js/microphone-fix.js:157 | with no messages the average is the word count |

## Left out

- Express middleware, the rate limiter, static files and the HTTP routes (index.js:88-166): framework plumbing.
- Socket.IO events and emits, async scheduling and shutdown handlers: concurrency and I/O. The handler is one function of the message, and the registry is a class.
- `axios.post`, its timeout and headers, and the real `sleep`: the HTTP layer is an oracle and sleeps are recorded delays.
- Any status below 400 other than 429 counts as success. A missing `retry-after` is `None`; a present one is its `parseInt` value as an integer. NaN and fractions are not modelled.
- `Date.now`, `new Date()` and processing times: clocks are not modelled. The timer takes the elapsed milliseconds as a natural number.
- `temperature` and `stream` of the completion request: constants the model does not use.
- `console.log` and the `NODE_ENV` check of `logLearningInteraction`. Only the log entry and its truncation are modelled.
- `updateUserProgress` (index.js:685-699): it only logs.
- The `catch` in `analyzeSpeechForLearning` (index.js:462-465): no helper can throw on a string.
- The outer `catch` of `runMicrophoneDiagnostic` (public/js/microphone-fix.js:237-239): the feature checks and the device outcome are parameters, and nothing else can throw.
- The reply content is assumed to be a string. A body whose content is missing is modelled as having no choices.
- The `[EXPLANATION]` and `[EXAMPLE]` regexes: declared but never executed. `general` stays empty, as in the code.
- `Relay.Truncate` counts characters, not UTF-16 code units. It agrees with `substring` on text without characters above U+FFFF.
- `JsString.Lower`: ASCII case mapping only. Unicode case folding is not modelled.
- Table lookups know the twelve members `Object.prototype` gives every object literal in a standard runtime, and nothing a program adds to it. The inherited `__proto__` is the prototype object itself.
- Floating-point scores are not modelled:
  - `calculateComplexity`, `assessVocabulary` and `wordsPerMinute`;
  - `updateComprehensiveScores` and `updateLearningProgress`;
  - the client's `currentScores`, which `handleSpeechResult` sends and which `MessageData` leaves out.
- Ratios are compared by cross-multiplication, which is exact.
- `Math.round` is exact rational rounding.
- DOM, Web Speech, speech synthesis, audio analysis, `localStorage`, toasts and HTML templates: UI and foreign APIs.
  - History items keep only sender and message. The id, timestamp and metadata are left out.
  - Interactions keep only the text, its word count and the two integer scores.
- script.js also holds older copies of `generateSessionReport`, `runMicrophoneDiagnostic` and `showMicrophoneDiagnosticResults` (public/js/script.js:1864-2033). They have fewer permission fixes. The model follows microphone-fix.js.
- The capitalization rule is skipped when a sentence starts with "i " (index.js:479), so "i are happy today and i are excited" gets only the agreement issue (`Analyzer.AgreementExample`).
- Relay.HandleMessage, Relay.Respond, Relay.Answer, Relay.Refusal and Relay.Handle write the corrected failure log (`Relay.FailedLog`). For a refused message whose text is a truthy non-string, the code as written throws inside its `catch` (index.js:319-321) and writes no entry; `Relay.RefusalLogAgainstWritten` states where the two differ.

## Findings

| source | as written | input that shows it | evidently intended | confidence | as-written member | corrected member |
|---|---|---|---|---|---|---|
| index.js:318-321 | the failure log takes `data?.text \|\| ''` as the failed text and calls `substring` on it, which throws when the text is a truthy non-string | `{ text: 5 }`: refused as "Message text is required", then `(5).substring` throws inside the `catch`, so the failure is never logged | log the text when it is a string and `''` otherwise | not executed | Relay.NumericTextLosesFailureLog | Relay.FailedLogCorrectsOnlyTheCrash |
