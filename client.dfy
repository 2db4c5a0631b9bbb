/** The browser client's bookkeeping around one spoken message: the transcript
    loop over speech-recognition results, the quick grammar and fluency scores,
    the session's counters and vocabulary set, the bounded conversation history
    (newest first), the learning-mode and scenario lookups, the message sent to
    the server, and the session timer display. The page, the microphone and the
    socket are not modelled; the state the script keeps in `AppState` is the
    class at the end. */
module Client {
  import opened JsString
  import opened JsValues
  import opened Wrappers
  import Analyzer
  import Prompt
  import Relay

  // ================================================================ estimateGrammar

  /** `/^[A-Z]/.test(t)`. */
  predicate StartsUpper(t: string) {
    |t| > 0 && IsAsciiUpper(t[0])
  }

  /** `/[.!?]$/.test(t)`; without the `m` flag `$` is the end of the input. */
  predicate EndsWithSentenceEnd(t: string) {
    |t| > 0 && IsSentenceEnd(t[|t| - 1])
  }

  /** `sentences.some(s => s.includes(','))` over the non-blank sentences. */
  predicate HasVariedStructure(text: string) {
    exists s :: s in Analyzer.Sentences(text) && ',' in s
  }

  /** The grammar points of a text: 50, plus 15 for a capital first letter and
      15 for closing punctuation (both of the trimmed text), plus 20 for a comma
      in some sentence. */
  function GrammarPoints(text: string): (score: nat)
    ensures 50 <= score <= 100
    ensures score == 100 <==> StartsUpper(Trim(text)) && EndsWithSentenceEnd(Trim(text)) && HasVariedStructure(text)
    ensures score == 50 <==> !StartsUpper(Trim(text)) && !EndsWithSentenceEnd(Trim(text)) && !HasVariedStructure(text)
  {
    50 + (if StartsUpper(Trim(text)) then 15 else 0) + (if EndsWithSentenceEnd(Trim(text)) then 15 else 0)
    + (if HasVariedStructure(text) then 20 else 0)
  }

  /** `estimateGrammar`: the score is built up step by step and capped at 100,
      a cap the points never reach beyond. */
  method EstimateGrammar(text: string) returns (score: int)
    ensures score == GrammarPoints(text)
  {
    var trimmed := Trim(text);
    var hasProperCapitalization := StartsUpper(trimmed);
    var hasProperPunctuation := EndsWithSentenceEnd(trimmed);
    var hasVariedSentenceStructure := HasVariedStructure(text);
    score := 50;
    if hasProperCapitalization {
      score := score + 15;
    }
    if hasProperPunctuation {
      score := score + 15;
    }
    if hasVariedSentenceStructure {
      score := score + 20;
    }
    score := if score < 100 then score else 100;
  }

  /** A piece that survives the blank filter was a piece before it. */
  lemma {:induction false} NonBlankFromPieces(pieces: seq<string>, s: string)
    requires s in Analyzer.NonBlank(pieces)
    ensures s in pieces
  {
    if pieces != [] {
      var last := pieces[|pieces| - 1];
      var front := pieces[..|pieces| - 1];
      assert Analyzer.NonBlank(pieces) == Analyzer.NonBlank(front) + (if |Trim(last)| > 0 then [last] else []);
      if s in Analyzer.NonBlank(front) {
        NonBlankFromPieces(front, s);
        assert front <= pieces;
      }
    }
  }

  /** A piece with a non-space character survives the blank filter. */
  lemma {:induction false} NonBlankKeeps(pieces: seq<string>, s: string, j: nat)
    requires s in pieces && j < |s| && !IsSpace(s[j])
    ensures s in Analyzer.NonBlank(pieces)
  {
    var last := pieces[|pieces| - 1];
    var front := pieces[..|pieces| - 1];
    assert Analyzer.NonBlank(pieces) == Analyzer.NonBlank(front) + (if |Trim(last)| > 0 then [last] else []);
    if s == last {
      TrimNonEmptyIff(s);
    } else {
      assert pieces == front + [last];
      NonBlankKeeps(front, s, j);
    }
  }

  /** The 20-point variety bonus goes to exactly the texts that hold a comma:
      splitting on sentence ends keeps every comma, and a piece with a comma is
      never blank. */
  lemma VariedIffComma(text: string)
    ensures HasVariedStructure(text) <==> ',' in text
  {
    var pieces := SplitRuns(text, SentenceEnd);
    if HasVariedStructure(text) {
      var s :| s in Analyzer.Sentences(text) && ',' in s;
      NonBlankFromPieces(pieces, s);
      SplitRunsPiecesFromSource(text, SentenceEnd);
      var i :| 0 <= i < |s| && s[i] == ',';
      assert s[i] in text;
    }
    if ',' in text {
      var j :| 0 <= j < |text| && text[j] == ',';
      SplitRunsKeepsOutsideChars(text, SentenceEnd, j);
      var p, i :| p in pieces && 0 <= i < |p| && p[i] == text[j];
      NonBlankKeeps(pieces, p, i);
      assert p in Analyzer.Sentences(text) && ',' in p;
    }
  }

  // ================================================================ assessFluency

  const FillerWords: seq<string> := ["um", "uh", "like", "you know", "actually", "basically"]

  /** The fillers a single space-separated token can be. */
  const OneWordFillers: seq<string> := ["um", "uh", "like", "actually", "basically"]

  datatype WordFlow = Good | Short

  datatype FluencyIndicators = FluencyIndicators(fillerWordCount: nat, fluencyScore: nat, wordFlow: WordFlow)

  /** The lower-case space-separated tokens of a text. */
  function FluencyTokens(text: string): seq<string> {
    Split(Lower(text), " ")
  }

  /** `assessFluency`: ten points off per filler token, never below zero; the
      flow is good on more than ten tokens. */
  function AssessFluency(text: string): (r: FluencyIndicators)
    ensures r.fillerWordCount <= |FluencyTokens(text)|
    ensures r.fluencyScore <= 100 && r.fluencyScore % 10 == 0
    ensures r.fluencyScore + 10 * r.fillerWordCount >= 100
    ensures r.fluencyScore > 0 ==> r.fluencyScore + 10 * r.fillerWordCount == 100
    ensures r.wordFlow == Good <==> |FluencyTokens(text)| > 10
  {
    var words := FluencyTokens(text);
    var fillerCount := Analyzer.CountListed(words, FillerWords);
    FluencyIndicators(fillerCount, if 100 - fillerCount * 10 > 0 then 100 - fillerCount * 10 else 0,
                      if |words| > 10 then Good else Short)
  }

  /** Two lists that agree on every token count the same. */
  lemma {:induction false} CountListedAgree(words: seq<string>, a: seq<string>, b: seq<string>)
    requires forall i :: 0 <= i < |words| ==> (words[i] in a <==> words[i] in b)
    ensures Analyzer.CountListed(words, a) == Analyzer.CountListed(words, b)
  {
    if words != [] {
      CountListedAgree(words[..|words| - 1], a, b);
    }
  }

  /** `"you know"` holds a space, which no token does, so the fluency count
      is the count of the five one-word fillers. */
  lemma YouKnowNeverCounts(text: string)
    ensures AssessFluency(text).fillerWordCount == Analyzer.CountListed(FluencyTokens(text), OneWordFillers)
  {
    var words := FluencyTokens(text);
    SpaceSplitPiecesHaveNoSpace(Lower(text));
    forall i | 0 <= i < |words| ensures words[i] in FillerWords <==> words[i] in OneWordFillers {
      assert words[i] in Split(Lower(text), " ");
      assert "you know"[3] == ' ';
    }
    CountListedAgree(words, FillerWords, OneWordFillers);
  }

  // ================================================================ lookups

  /** The six own entries of `modeMapping`. */
  function ModeMapping(learningMode: string): Option<string> {
    if learningMode == "conversation" then Some("conversation_partner")
    else if learningMode == "grammar" then Some("grammar_tutor")
    else if learningMode == "pronunciation" then Some("pronunciation_coach")
    else if learningMode == "vocabulary" then Some("vocabulary_builder")
    else if learningMode == "fluency" then Some("fluency_coach")
    else if learningMode == "scenario" then Some("conversation_partner")
    else None
  }

  /** `modeMapping[learningMode] || 'conversation_partner'` on the object
      literal: a listed mode gives a tutor mode the server knows, a name the
      literal inherits gives the inherited member, and anything else falls
      back to the conversation partner. */
  function TutorModeFor(learningMode: string): (r: Found<string>)
    ensures !r.Missing?
    ensures r.Own? ==> Prompt.PersonalityNamed(r.value).Some?
    ensures r.Inherited? <==> learningMode in ObjectPrototypeNames
    ensures r.Inherited? ==> r.name == learningMode
    ensures r == Own("conversation_partner") <==>
              learningMode != "grammar" && learningMode != "pronunciation" &&
              learningMode != "vocabulary" && learningMode != "fluency" &&
              learningMode !in ObjectPrototypeNames
  {
    OrOwn(Lookup(ModeMapping(learningMode), learningMode), "conversation_partner")
  }

  /** Each focused learning mode picks the server template of the same focus. */
  lemma LearningModeTemplates()
    ensures TutorModeFor("grammar") == Own("grammar_tutor")
    ensures Prompt.PersonalityNamed(TutorModeFor("grammar").value) == Some(Prompt.GrammarTutor)
    ensures TutorModeFor("pronunciation") == Own("pronunciation_coach")
    ensures Prompt.PersonalityNamed(TutorModeFor("pronunciation").value) == Some(Prompt.PronunciationCoach)
    ensures TutorModeFor("vocabulary") == Own("vocabulary_builder")
    ensures Prompt.PersonalityNamed(TutorModeFor("vocabulary").value) == Some(Prompt.VocabularyBuilder)
    ensures TutorModeFor("fluency") == Own("fluency_coach")
    ensures Prompt.PersonalityNamed(TutorModeFor("fluency").value) == Some(Prompt.FluencyCoach)
    ensures TutorModeFor("scenario") == Own("conversation_partner")
    ensures Prompt.PersonalityNamed(TutorModeFor("scenario").value) == Some(Prompt.ConversationPartner)
  {
  }

  const ScenarioKeys: set<string> := {"job-interview", "restaurant", "travel", "shopping", "medical", "social"}

  const DefaultScenarioContext: string := "Practice general conversation."

  /** The six own entries of `contexts`. */
  function ScenarioText(scenario: string): (r: Option<string>)
    ensures r.Some? <==> scenario in ScenarioKeys
    ensures r.Some? ==> StartsWith(r.value, "You are ")
  {
    if scenario in ScenarioKeys then Some(ScenarioEntry(scenario)) else None
  }

  /** `contexts[scenario] || 'Practice general conversation.'` on the object
      literal: a listed scenario gives its "You are ..." context, a name the
      literal inherits gives the inherited member, and anything else the
      general context. */
  function ScenarioContext(scenario: string): (r: Found<string>)
    ensures !r.Missing?
    ensures r.Own? ==> |r.value| > 0
    ensures r.Inherited? <==> scenario in ObjectPrototypeNames
    ensures r.Inherited? ==> r.name == scenario
    ensures r == Own(DefaultScenarioContext) <==> scenario !in ScenarioKeys && scenario !in ObjectPrototypeNames
    ensures r.Own? ==> (StartsWith(r.value, "You are ") <==> scenario in ScenarioKeys)
  {
    assert DefaultScenarioContext[0] == 'P';
    ScenarioKeysAreOwn(scenario);
    LookupOrOwn(ScenarioText(scenario), scenario, DefaultScenarioContext);
    OrOwn(Lookup(ScenarioText(scenario), scenario), DefaultScenarioContext)
  }

  /** No scenario key is a name every object inherits. */
  lemma ScenarioKeysAreOwn(scenario: string)
    ensures scenario in ScenarioKeys ==> scenario !in ObjectPrototypeNames
  {
  }

  /** The context text of a listed scenario. */
  function ScenarioEntry(scenario: string): (r: string)
    requires scenario in ScenarioKeys
    ensures StartsWith(r, "You are ")
  {
    if scenario == "job-interview" then
      "You are " + "practicing for " + "a job " + "interview. Ask " + "relevant " +
      "questions about " + "experience, " + "skills, and " + "career goals."
    else if scenario == "restaurant" then
      "You are at a " + "restaurant. " + "Practice " + "ordering food, " +
      "asking about " + "menu items, and " + "dining " + "conversations."
    else if scenario == "travel" then
      "You are " + "traveling. " + "Practice " + "airport, hotel, " + "and tourist " +
      "interactions."
    else if scenario == "shopping" then
      "You are " + "shopping. " + "Practice asking " + "about products, " +
      "prices, and " + "making " + "purchases."
    else if scenario == "medical" then
      "You are at a " + "doctor's " + "office. " + "Practice " + "describing " +
      "symptoms and " + "health concerns."
    else
      "You are in a " + "social setting. " + "Practice casual " + "conversations " +
      "and small talk."
  }

  // ================================================================ timer

  /** `${minutes.toString().padStart(2, '0')}:${seconds.toString().padStart(2, '0')}`
      for `elapsed` milliseconds. */
  function TimerDisplay(elapsed: nat): string {
    PadStart(NatToString(elapsed / 60000), 2, '0') + ":" + PadStart(NatToString(elapsed % 60000 / 1000), 2, '0')
  }

  /** A number below 100 prints in at most two digits. */
  lemma SmallNumberLength(n: nat)
    requires n < 100
    ensures |NatToString(n)| <= 2
  {
    if n >= 10 {
      NatToStringLength(n / 10);
    }
  }

  /** A padded number is all digits and reads back as the number. */
  lemma PaddedNumber(n: nat)
    ensures var p := PadStart(NatToString(n), 2, '0');
      && |p| >= 2
      && (forall i :: 0 <= i < |p| ==> '0' <= p[i] <= '9')
      && DigitsValue(p) == n
      && (n < 100 ==> |p| == 2)
  {
    var s := NatToString(n);
    NatToStringRoundTrip(n);
    if n < 100 {
      SmallNumberLength(n);
    }
    if |s| < 2 {
      var z := seq(2 - |s|, _ => '0');
      assert PadStart(s, 2, '0') == z + s;
      DigitsValueLeadingZeros(2 - |s|, s);
    }
  }

  /** The display reads back as whole minutes, a colon, and two digits of the
      seconds past the minute, which stay below 60. */
  lemma TimerDisplayReadsBack(elapsed: nat)
    ensures var r := TimerDisplay(elapsed);
      && |r| >= 5 && r[|r| - 3] == ':'
      && (forall i :: 0 <= i < |r| && i != |r| - 3 ==> '0' <= r[i] <= '9')
      && DigitsValue(r[..|r| - 3]) == elapsed / 60000
      && DigitsValue(r[|r| - 2..]) == elapsed % 60000 / 1000 < 60
  {
    var m := PadStart(NatToString(elapsed / 60000), 2, '0');
    var s := PadStart(NatToString(elapsed % 60000 / 1000), 2, '0');
    PaddedNumber(elapsed / 60000);
    PaddedNumber(elapsed % 60000 / 1000);
    var r := m + ":" + s;
    assert r[..|r| - 3] == m;
    assert r[|r| - 2..] == s;
  }

  // ================================================================ speech results

  /** One entry of `event.results`: its first alternative's transcript and
      whether it is final; the confidence is only logged. */
  datatype SpeechResult = SpeechResult(transcript: string, isFinal: bool)

  /** The transcripts of `results[from..upTo]` that are final (or not), in order;
      indices past the end contribute nothing. */
  function Collected(results: seq<SpeechResult>, from: nat, upTo: nat, final: bool): string
    decreases upTo
  {
    if upTo <= from then ""
    else
      Collected(results, from, upTo - 1, final)
      + (if upTo - 1 < |results| && results[upTo - 1].isFinal == final then results[upTo - 1].transcript else "")
  }

  /** Something is collected exactly when some result in range of the wanted
      kind has a non-empty transcript. */
  lemma {:induction false} CollectedNonEmptyIff(results: seq<SpeechResult>, from: nat, upTo: nat, final: bool)
    requires upTo <= |results|
    ensures Collected(results, from, upTo, final) != "" <==>
              exists j :: from <= j < upTo && results[j].isFinal == final && results[j].transcript != ""
    decreases upTo
  {
    if upTo > from {
      CollectedNonEmptyIff(results, from, upTo - 1, final);
    }
  }

  /** Every character of the window goes to exactly one of the two transcripts. */
  lemma {:induction false} CollectedLengths(results: seq<SpeechResult>, from: nat, upTo: nat)
    ensures |Collected(results, from, upTo, true)| + |Collected(results, from, upTo, false)| ==
              TotalLength(results, from, upTo)
    decreases upTo
  {
    if upTo > from {
      CollectedLengths(results, from, upTo - 1);
    }
  }

  function TotalLength(results: seq<SpeechResult>, from: nat, upTo: nat): nat
    decreases upTo
  {
    if upTo <= from then 0
    else TotalLength(results, from, upTo - 1) + (if upTo - 1 < |results| then |results[upTo - 1].transcript| else 0)
  }

  // ================================================================ session state

  /** One analysed utterance; the complexity and vocabulary scores (floating
      point) are not modelled. */
  datatype Interaction = Interaction(text: string, wordCount: nat, grammarScore: int,
                                     fluencyIndicators: FluencyIndicators)

  /** `AppState.currentSession`. */
  datatype Session = Session(messagesCount: nat, wordsSpoken: nat, vocabularyUsed: set<string>,
                             interactions: seq<Interaction>)

  /** The settings a message carries. */
  datatype Settings = Settings(aiModel: string, tutorMode: Found<string>, learningMode: string,
                               difficultyLevel: string, feedbackStyle: string,
                               selectedScenario: string, scenarioContext: Found<string>)

  /** One entry of the conversation history; its id, timestamp and metadata
      are not modelled. */
  datatype HistoryItem = HistoryItem(sender: string, message: string)

  const MaxHistoryItems: nat := 50

  /** `unshift` then `slice(0, 50)` when longer. */
  function Prepended(history: seq<HistoryItem>, item: HistoryItem): (r: seq<HistoryItem>)
    ensures |r| == if |history| + 1 <= MaxHistoryItems then |history| + 1 else MaxHistoryItems
    ensures r[0] == item
    ensures r[1..] == history[..|r| - 1]
  {
    var h := [item] + history;
    if |h| > MaxHistoryItems then h[..MaxHistoryItems] else h
  }

  /** An item stays in the history exactly while fewer than 50 items are newer. */
  lemma {:induction false} HistoryKeepsRecent(history: seq<HistoryItem>, items: seq<HistoryItem>)
    requires |history| <= MaxHistoryItems
    ensures |PrependAll(history, items)| == if |items| + |history| <= MaxHistoryItems then
                                              |items| + |history| else MaxHistoryItems
    ensures PrependAll(history, items) == (Reverse(items) + history)[..|PrependAll(history, items)|]
  {
    if items != [] {
      var front := items[..|items| - 1];
      var last := items[|items| - 1];
      HistoryKeepsRecent(history, front);
      var h := PrependAll(history, front);
      var all := Reverse(items) + history;
      assert Reverse(items) == [last] + Reverse(front);
      assert all == [last] + (Reverse(front) + history);
      var r := Prepended(h, last);
      assert r == PrependAll(history, items);
      assert r[0] == all[0];
      assert r[1..] == all[1..|r|];
      assert r == all[..|r|];
    }
  }

  /** A run of `addToConversationHistory` calls, oldest first. */
  function PrependAll(history: seq<HistoryItem>, items: seq<HistoryItem>): seq<HistoryItem> {
    if items == [] then history else Prepended(PrependAll(history, items[..|items| - 1]), items[|items| - 1])
  }

  function Reverse<T>(s: seq<T>): (r: seq<T>)
    ensures |r| == |s|
  {
    if s == [] then [] else [s[|s| - 1]] + Reverse(s[..|s| - 1])
  }

  /** The words a text adds to the vocabulary set: its space-split pieces longer
      than three code units, in lower case. */
  function Vocabulary(words: seq<string>): set<string> {
    set w | w in words && Utf16Length(w) > 3 :: Lower(w)
  }

  /** Vocabulary entries are lower-case and hold no space. */
  lemma VocabularyIsLowerWords(text: string)
    ensures forall v :: v in Vocabulary(Split(text, " ")) ==> Lower(v) == v && ' ' !in v
  {
    SpaceSplitPiecesHaveNoSpace(text);
    forall v | v in Vocabulary(Split(text, " ")) ensures Lower(v) == v && ' ' !in v {
      var w :| w in Split(text, " ") && Utf16Length(w) > 3 && Lower(w) == v;
      LowerOfLower(Lower(w));
    }
  }

  /** The session after `analyzeUserSpeech(text)`: one more interaction, and
      the text's vocabulary added. */
  function Analyzed(session: Session, text: string): Session {
    session.(interactions := session.interactions + [Interaction(text, |Split(text, " ")|, GrammarPoints(text),
                                                                 AssessFluency(text))],
             vocabularyUsed := session.vocabularyUsed + Vocabulary(Split(text, " ")))
  }

  /** The session counters after a message is sent. */
  function Counted(session: Session, text: string): Session {
    session.(messagesCount := session.messagesCount + 1,
             wordsSpoken := session.wordsSpoken + |Split(text, " ")|)
  }

  /** After one spoken message the session has counted one more message and at
      least one more word, recorded one more interaction with a grammar score
      in [50, 100], and only gained vocabulary, all of it lower-case words. */
  lemma SpokenMessageEffect(session: Session, text: string)
    ensures var after := Counted(Analyzed(session, text), text);
      && after.messagesCount == session.messagesCount + 1
      && after.wordsSpoken > session.wordsSpoken
      && |after.interactions| == |session.interactions| + 1
      && 50 <= after.interactions[|session.interactions|].grammarScore <= 100
      && session.vocabularyUsed <= after.vocabularyUsed
      && forall v :: v in after.vocabularyUsed - session.vocabularyUsed ==> Lower(v) == v && ' ' !in v
  {
    VocabularyIsLowerWords(text);
  }

  /** The message the client emits for a final transcript. The current
      scores, a floating-point record, are not modelled. */
  function MessageData(text: string, settings: Settings, session: Session): JsValue {
    Obj(WithCarried(map[
      "text" := Str(text),
      "model" := Str(settings.aiModel),
      "learningMode" := Str(settings.learningMode),
      "difficultyLevel" := Str(settings.difficultyLevel),
      "feedbackStyle" := Str(settings.feedbackStyle),
      "sessionContext" := Obj(WithCarried(map[
        "messagesCount" := Num(session.messagesCount),
        "wordsSpoken" := Num(session.wordsSpoken),
        "scenario" := Str(settings.selectedScenario)], "scenarioContext", settings.scenarioContext))],
      "personality", settings.tutorMode))
  }

  /** What the socket's JSON encoding makes of a looked-up setting: a text
      stays a text, the prototype object becomes `{}`, and a function-valued
      member (or `undefined`) is dropped. */
  function Carried(v: Found<string>): Option<JsValue> {
    match v
    case Own(s) => Some(Str(s))
    case Inherited(name) => if name == "__proto__" then Some(Obj(map[])) else None
    case Missing => None
  }

  /** An object with one more member, if the encoding keeps it. */
  function WithCarried(fields: map<string, JsValue>, key: string, v: Found<string>): map<string, JsValue> {
    match Carried(v)
    case Some(x) => fields[key := x]
    case None => fields
  }

  /** The server accepts what the client sends whenever the transcript fits.
      A tutor mode chosen through a listed learning mode reaches the server
      unchanged and selects the template the mapping names; one that is an
      inherited member never reaches the server as a name, which then uses
      the conversation partner. */
  lemma ClientMessageAccepted(text: string, settings: Settings, session: Session, learningMode: string)
    requires Relay.ValidText(text)
    requires settings.tutorMode == TutorModeFor(learningMode)
    ensures Relay.Normalize(MessageData(text, settings, session)).Accepted?
    ensures var q := Relay.Normalize(MessageData(text, settings, session)).request;
      && q.text == text
      && (settings.tutorMode.Own? ==>
            q.personality == Str(settings.tutorMode.value)
            && Prompt.PersonalityOf(q.personality) == Own(Prompt.PersonalityNamed(settings.tutorMode.value).value))
      && (settings.tutorMode.Inherited? ==> Prompt.PersonalityOf(q.personality) == Own(Prompt.ConversationPartner))
  {
    var data := MessageData(text, settings, session);
    assert Get(data, "text") == Str(text);
    match settings.tutorMode {
      case Own(mode) =>
        assert Get(data, "personality") == Str(mode);
      case Inherited(name) =>
        if name == "__proto__" {
          assert Get(data, "personality") == Obj(map[]);
          Prompt.NonStringKeysMiss(Obj(map[]));
        } else {
          assert Get(data, "personality") == Undefined;
          assert Relay.Normalize(data).request.personality == Str(Relay.DefaultPersonality);
        }
    }
  }

  /** The client-side state of one page. */
  class ClientState {
    var history: seq<HistoryItem>
    var session: Session
    var settings: Settings

    constructor(history: seq<HistoryItem>, settings: Settings)
      ensures this.history == history && this.settings == settings
      ensures session == Session(0, 0, {}, [])
    {
      this.history := history;
      this.settings := settings;
      session := Session(0, 0, {}, []);
    }

    /** `addToConversationHistory`. */
    method AddToConversationHistory(sender: string, message: string)
      modifies this
      ensures history == Prepended(old(history), HistoryItem(sender, message))
      ensures session == old(session) && settings == old(settings)
    {
      history := [HistoryItem(sender, message)] + history;
      if |history| > MaxHistoryItems {
        history := history[..MaxHistoryItems];
      }
    }

    /** `analyzeUserSpeech`: record the interaction, then add each long word,
        lower-cased, to the vocabulary set. */
    method AnalyzeUserSpeech(text: string)
      modifies this
      ensures session == Analyzed(old(session), text)
      ensures history == old(history) && settings == old(settings)
    {
      var words := Split(text, " ");
      var grammarScore := EstimateGrammar(text);
      session := session.(interactions := session.interactions +
                            [Interaction(text, |words|, grammarScore, AssessFluency(text))]);
      ghost var before := session.vocabularyUsed;
      for i := 0 to |words|
        invariant session.vocabularyUsed == before + Vocabulary(words[..i])
        invariant session == old(session).(interactions := session.interactions, vocabularyUsed := session.vocabularyUsed)
        invariant session.interactions == old(session).interactions + [Interaction(text, |words|, grammarScore, AssessFluency(text))]
        invariant history == old(history) && settings == old(settings)
      {
        VocabularyStep(words, i);
        if Utf16Length(words[i]) > 3 {
          session := session.(vocabularyUsed := session.vocabularyUsed + {Lower(words[i])});
        }
      }
      assert words[..|words|] == words;
    }

    /** `handleSpeechResult`: gather the final and interim transcripts from
        `resultIndex` on; a non-empty final transcript is analysed, added to
        the history and sent, and then counted. */
    method HandleSpeechResult(results: seq<SpeechResult>, resultIndex: nat)
      returns (finalTranscript: string, interimTranscript: string, sent: Option<JsValue>)
      modifies this
      ensures finalTranscript == Collected(results, resultIndex, |results|, true)
      ensures interimTranscript == Collected(results, resultIndex, |results|, false)
      ensures settings == old(settings)
      ensures finalTranscript == "" ==> sent == None && history == old(history) && session == old(session)
      ensures finalTranscript != "" ==>
                && sent == Some(MessageData(finalTranscript, old(settings), old(session)))
                && history == Prepended(old(history), HistoryItem("user", finalTranscript))
                && session == Counted(Analyzed(old(session), finalTranscript), finalTranscript)
    {
      finalTranscript := "";
      interimTranscript := "";
      var i := resultIndex;
      while i < |results|
        invariant resultIndex <= i && (i <= |results| || i == resultIndex)
        invariant finalTranscript == Collected(results, resultIndex, i, true)
        invariant interimTranscript == Collected(results, resultIndex, i, false)
        decreases |results| - i
      {
        if results[i].isFinal {
          finalTranscript := finalTranscript + results[i].transcript;
        } else {
          interimTranscript := interimTranscript + results[i].transcript;
        }
        i := i + 1;
      }
      sent := None;
      if finalTranscript != "" {
        AnalyzeUserSpeech(finalTranscript);
        AddToConversationHistory("user", finalTranscript);
        MessageDataIgnoresAnalysis(finalTranscript, settings, old(session));
        assert session == Analyzed(old(session), finalTranscript) && settings == old(settings);
        sent := Some(MessageData(finalTranscript, settings, session));
        session := Counted(session, finalTranscript);
      }
    }

    /** `updateTutorModeFromLearningMode`. */
    method UpdateTutorModeFromLearningMode(learningMode: string)
      modifies this
      ensures settings == old(settings).(tutorMode := TutorModeFor(learningMode))
      ensures history == old(history) && session == old(session)
    {
      settings := settings.(tutorMode := TutorModeFor(learningMode));
    }

    /** `selectScenario`: remember the key and its prompt context. */
    method SelectScenario(scenario: string)
      modifies this
      ensures settings == old(settings).(selectedScenario := scenario, scenarioContext := ScenarioContext(scenario))
      ensures history == old(history) && session == old(session)
    {
      settings := settings.(selectedScenario := scenario, scenarioContext := ScenarioContext(scenario));
    }
  }

  /** Analysing a transcript leaves the counters the message reports alone. */
  lemma MessageDataIgnoresAnalysis(text: string, settings: Settings, session: Session)
    ensures MessageData(text, settings, Analyzed(session, text)) == MessageData(text, settings, session)
  {
    assert Analyzed(session, text).messagesCount == session.messagesCount;
    assert Analyzed(session, text).wordsSpoken == session.wordsSpoken;
  }

  /** Adding one more word to the words seen so far. */
  lemma VocabularyStep(words: seq<string>, i: nat)
    requires i < |words|
    ensures Vocabulary(words[..i + 1]) ==
              Vocabulary(words[..i]) + (if Utf16Length(words[i]) > 3 then {Lower(words[i])} else {})
  {
    assert words[..i + 1] == words[..i] + [words[i]];
  }
}
