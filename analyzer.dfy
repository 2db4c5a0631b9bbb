/** The server's heuristic speech analyzer: per-sentence grammar rules, a
    vocabulary-level bucket, a pronunciation dictionary, an additive fluency
    score and mode-dependent suggestions, gathered into one analysis record
    that is also serialised to JSON for the completion prompt. */
module Analyzer {
  import opened JsString
  import opened JsValues
  import opened Wrappers
  import Json

  // ================================================================ grammar

  datatype IssueKind = Capitalization | SubjectVerbAgreement | DoubleNegative

  datatype Severity = Minor | Major

  /** The fixed texts each rule reports; an issue is identified by its kind. */
  function IssueText(k: IssueKind): string {
    match k
    case Capitalization => "The pronoun \"I\" " + "should always " + "be capitalized"
    case SubjectVerbAgreement => "Subject-verb disagreement detected"
    case DoubleNegative => "Avoid using double negatives in English"
  }

  function SuggestionText(k: IssueKind): string {
    match k
    case Capitalization => "Remember to " + "capitalize \"I\" " + "when referring " +
                           "to yourself"
    case SubjectVerbAgreement => "Use \"am\" with " + "\"I\", \"is\" with " +
                                 "\"he/she/it\", " + "\"are\" with " + "\"you/we/they\""
    case DoubleNegative => "Use only one negative word per clause"
  }

  function SeverityOf(k: IssueKind): Severity {
    match k
    case Capitalization => Minor
    case SubjectVerbAgreement | DoubleNegative => Major
  }

  /** The order in which the rules are tried on one sentence. */
  function Rank(k: IssueKind): nat {
    match k
    case Capitalization => 0
    case SubjectVerbAgreement => 1
    case DoubleNegative => 2
  }

  /** The `type` member of an issue. */
  function KindName(k: IssueKind): string {
    match k
    case Capitalization => "capitalization"
    case SubjectVerbAgreement => "subject_verb_agreement"
    case DoubleNegative => "double_negative"
  }

  function SeverityName(s: Severity): string {
    match s
    case Minor => "minor"
    case Major => "major"
  }

  /** The pieces that survive `filter(s => s.trim().length > 0)`. */
  function NonBlank(pieces: seq<string>): (r: seq<string>)
    ensures |r| <= |pieces|
  {
    if pieces == [] then []
    else
      var last := pieces[|pieces| - 1];
      NonBlank(pieces[..|pieces| - 1]) + (if |Trim(last)| > 0 then [last] else [])
  }

  /** `text.split(/[.!?]+/).filter(s => s.trim().length > 0)`. */
  function Sentences(text: string): seq<string> {
    NonBlank(SplitRuns(text, SentenceEnd))
  }

  /** Rule (a), on the trimmed lower-case sentence `t`. */
  predicate CapitalizationRule(t: string) {
    Includes(t, " i ") && !StartsWith(t, "i ")
  }

  /** Rule (b). */
  predicate AgreementRule(t: string) {
    Includes(t, " are ") && (Includes(t, " i are ") || Includes(t, " he are ") || Includes(t, " she are "))
  }

  /** The sum of `t.split(neg).length - 1` over the six negatives: raw,
      non-overlapping substring counts, so "no" is also counted inside "know". */
  function NegativeCount(t: string): nat {
    Count(t, "not") + Count(t, "no") + Count(t, "never") + Count(t, "nothing") + Count(t, "nobody") + Count(t, "nowhere")
  }

  /** Rule (c). */
  predicate DoubleNegativeRule(t: string) {
    NegativeCount(t) > 1
  }

  /** The issues of the rules that fired, in rule order. */
  function Flagged(capitalization: bool, agreement: bool, negation: bool): (r: seq<IssueKind>)
    ensures |r| <= 3
    ensures forall i, j :: 0 <= i < j < |r| ==> Rank(r[i]) < Rank(r[j])
    ensures Capitalization in r <==> capitalization
    ensures SubjectVerbAgreement in r <==> agreement
    ensures DoubleNegative in r <==> negation
  {
    (if capitalization then [Capitalization] else [])
    + (if agreement then [SubjectVerbAgreement] else [])
    + (if negation then [DoubleNegative] else [])
  }

  /** The issues one sentence contributes, in rule order. */
  function SentenceIssues(sentence: string): (r: seq<IssueKind>)
    ensures |r| <= 3
    ensures forall i, j :: 0 <= i < j < |r| ==> Rank(r[i]) < Rank(r[j])
    ensures Capitalization in r <==> CapitalizationRule(Lower(Trim(sentence)))
    ensures SubjectVerbAgreement in r <==> AgreementRule(Lower(Trim(sentence)))
    ensures DoubleNegative in r <==> DoubleNegativeRule(Lower(Trim(sentence)))
  {
    var t := Lower(Trim(sentence));
    Flagged(CapitalizationRule(t), AgreementRule(t), DoubleNegativeRule(t))
  }

  /** The issues of a list of sentences, sentence after sentence. */
  function IssuesOf(sentences: seq<string>): seq<IssueKind> {
    if sentences == [] then []
    else IssuesOf(sentences[..|sentences| - 1]) + SentenceIssues(sentences[|sentences| - 1])
  }

  /** `analyzeGrammar(text)`. */
  function GrammarIssues(text: string): seq<IssueKind> {
    IssuesOf(Sentences(text))
  }

  lemma IssuesOfStep(sentences: seq<string>, n: nat)
    requires n < |sentences|
    ensures IssuesOf(sentences[..n + 1]) == IssuesOf(sentences[..n]) + SentenceIssues(sentences[n])
  {
    assert sentences[..n + 1][..n] == sentences[..n];
  }

  /** Each sentence contributes at most one issue of each kind. */
  lemma {:induction false} IssueCountBound(sentences: seq<string>)
    ensures |IssuesOf(sentences)| <= 3 * |sentences|
  {
    if sentences != [] {
      IssueCountBound(sentences[..|sentences| - 1]);
    }
  }

  /** The while loop of `analyzeGrammar` that collects the positions of every
      standalone lower-case "i" (one past each occurrence of " i "). */
  method IPronounPositions(t: string) returns (positions: seq<nat>)
    ensures forall p: nat :: p in positions <==> p >= 1 && OccursAt(t, " i ", p - 1)
    ensures forall i, j :: 0 <= i < j < |positions| ==> positions[i] < positions[j]
  {
    positions := [];
    var pos := IndexOf(t, " i ", 0);
    while pos != -1
      invariant pos == -1 || (0 <= pos && OccursAt(t, " i ", pos))
      invariant forall p: nat :: p in positions <==> p >= 1 && OccursAt(t, " i ", p - 1) && (pos == -1 || p - 1 < pos)
      invariant forall i, j :: 0 <= i < j < |positions| ==> positions[i] < positions[j]
      invariant forall i :: 0 <= i < |positions| ==> pos == -1 || positions[i] <= pos
      decreases if pos == -1 then 0 else |t| + 1 - pos
    {
      positions := positions + [pos + 1];
      pos := IndexOf(t, " i ", pos + 1);
    }
  }

  /** The body of the `forEach` in `analyzeGrammar`: the issues it pushes for
      one sentence. */
  method CheckSentence(sentence: string) returns (found: seq<IssueKind>)
    ensures found == SentenceIssues(sentence)
  {
    var trimmed := Lower(Trim(sentence));
    var capitalization: seq<IssueKind> := [];
    if Includes(trimmed, " i ") && !StartsWith(trimmed, "i ") {
      var positions := IPronounPositions(trimmed);
      assert IndexOf(trimmed, " i ", 0) + 1 in positions;
      if |positions| > 0 {
        capitalization := [Capitalization];
      }
    }
    var agreement: seq<IssueKind> := [];
    if Includes(trimmed, " are ")
      && (Includes(trimmed, " i are ") || Includes(trimmed, " he are ") || Includes(trimmed, " she are "))
    {
      agreement := [SubjectVerbAgreement];
    }
    var negation: seq<IssueKind> := [];
    var negativeCount := NegativeCount(trimmed);
    if negativeCount > 1 {
      negation := [DoubleNegative];
    }
    found := capitalization + agreement + negation;
  }

  /** `analyzeGrammar(text)`: the issues it pushes, sentence by sentence. */
  method AnalyzeGrammar(text: string) returns (issues: seq<IssueKind>)
    ensures issues == GrammarIssues(text)
    ensures |issues| <= 3 * |Sentences(text)|
  {
    var sentences := Sentences(text);
    issues := [];
    var n := 0;
    while n < |sentences|
      invariant 0 <= n <= |sentences|
      invariant issues == IssuesOf(sentences[..n])
    {
      var found := CheckSentence(sentences[n]);
      issues := issues + found;
      IssuesOfStep(sentences, n);
      n := n + 1;
    }
    assert sentences[..n] == sentences;
    IssueCountBound(sentences);
  }

  // ================================================================ vocabulary

  const BasicWords: seq<string> := ["the", "a", "an", "and", "or", "but", "is", "are", "was", "were",
    "have", "has", "had", "do", "does", "did", "will", "would", "can", "could", "should", "may",
    "might", "must"]
  const IntermediateWords: seq<string> := ["although", "however", "therefore", "furthermore",
    "nevertheless", "consequently", "specifically", "particularly", "especially"]
  const AdvancedWords: seq<string> := ["notwithstanding", "subsequently", "predominantly",
    "substantially", "comprehensively", "systematically"]

  datatype VocabularyLevel = Beginner | Intermediate | Advanced

  function LevelName(l: VocabularyLevel): string {
    match l
    case Beginner => "beginner"
    case Intermediate => "intermediate"
    case Advanced => "advanced"
  }

  /** `words.filter(word => list.includes(word)).length`: exact token matches. */
  function CountListed(words: seq<string>, list: seq<string>): (n: nat)
    ensures n <= |words|
  {
    if words == [] then 0
    else CountListed(words[..|words| - 1], list) + (if words[|words| - 1] in list then 1 else 0)
  }

  lemma {:induction false} CountListedConcat(a: seq<string>, b: seq<string>, list: seq<string>)
    ensures CountListed(a + b, list) == CountListed(a, list) + CountListed(b, list)
    decreases |b|
  {
    if b == [] {
      assert a + b == a;
    } else {
      assert (a + b)[..|a + b| - 1] == a + b[..|b| - 1];
      CountListedConcat(a, b[..|b| - 1], list);
    }
  }

  lemma {:induction false} CountListedRepeat(w: string, n: nat, list: seq<string>)
    ensures CountListed(seq(n, _ => w), list) == if w in list then n else 0
  {
    if n > 0 {
      assert seq(n, _ => w)[..n - 1] == seq(n - 1, _ => w);
      CountListedRepeat(w, n - 1, list);
    }
  }

  /** The bucket of a token list: the advanced ratio above 1/10 wins, then the
      intermediate ratio above 1/20; ratios are compared by cross-multiplication. */
  function LevelOfWords(words: seq<string>): VocabularyLevel {
    if 10 * CountListed(words, AdvancedWords) > |words| then Advanced
    else if 20 * CountListed(words, IntermediateWords) > |words| then Intermediate
    else Beginner
  }

  /** `assessVocabularyLevel(text, targetLevel)`: the target level is never read. */
  function AssessVocabularyLevel(text: string, targetLevel: JsValue): VocabularyLevel {
    LevelOfWords(SplitWords(Lower(text)))
  }

  /** The positions of the tokens that are on a list. */
  function ListedPositions(words: seq<string>, list: seq<string>): set<nat> {
    set i: nat | i < |words| && words[i] in list
  }

  /** The filter count is the number of positions holding a listed token. */
  lemma {:induction false} CountListedIsListedPositions(words: seq<string>, list: seq<string>)
    ensures CountListed(words, list) == |ListedPositions(words, list)|
    decreases |words|
  {
    if words == [] {
      assert ListedPositions(words, list) == {};
    } else {
      var n := |words| - 1;
      var init := words[..n];
      CountListedIsListedPositions(init, list);
      var last: set<nat> := if words[n] in list then {n} else {};
      forall i: nat ensures i in ListedPositions(words, list) <==> i in ListedPositions(init, list) + last {
        if i < n { assert words[i] == init[i]; }
      }
      assert ListedPositions(words, list) == ListedPositions(init, list) + last;
      assert n !in ListedPositions(init, list);
      assert ListedPositions(init, list) * last == {};
    }
  }

  /** The three buckets, each with its condition on the share of tokens that
      are on a list: more than a tenth advanced, else more than a twentieth
      intermediate, else beginner. */
  lemma VocabularyBuckets(text: string, targetLevel: JsValue)
    ensures var words := SplitWords(Lower(text));
      var advanced := |ListedPositions(words, AdvancedWords)|;
      var intermediate := |ListedPositions(words, IntermediateWords)|;
      && (AssessVocabularyLevel(text, targetLevel) == Advanced <==> 10 * advanced > |words|)
      && (AssessVocabularyLevel(text, targetLevel) == Intermediate <==>
            10 * advanced <= |words| && 20 * intermediate > |words|)
      && (AssessVocabularyLevel(text, targetLevel) == Beginner <==>
            10 * advanced <= |words| && 20 * intermediate <= |words|)
  {
    var words := SplitWords(Lower(text));
    CountListedIsListedPositions(words, AdvancedWords);
    CountListedIsListedPositions(words, IntermediateWords);
  }

  /** The order of the levels. */
  function LevelRank(l: VocabularyLevel): nat {
    match l
    case Beginner => 0
    case Intermediate => 1
    case Advanced => 2
  }

  /** With the token count and the intermediate count fixed, more advanced
      words never give a lower level; nor do more intermediate words with the
      advanced count fixed. */
  lemma LevelMonotone(words: seq<string>, more: seq<string>)
    requires |words| == |more|
    requires CountListed(words, AdvancedWords) <= CountListed(more, AdvancedWords)
    requires CountListed(words, IntermediateWords) <= CountListed(more, IntermediateWords)
    ensures LevelRank(LevelOfWords(words)) <= LevelRank(LevelOfWords(more))
  {
  }

  /** Changing one token changes each count by the two tokens' membership. */
  lemma CountListedUpdate(words: seq<string>, k: nat, w: string, list: seq<string>)
    requires k < |words|
    ensures CountListed(words[k := w], list) + (if words[k] in list then 1 else 0)
         == CountListed(words, list) + (if w in list then 1 else 0)
  {
    var updated := words[k := w];
    assert words == words[..k] + [words[k]] + words[k + 1..];
    assert updated == words[..k] + [w] + words[k + 1..];
    CountListedConcat(words[..k] + [words[k]], words[k + 1..], list);
    CountListedConcat(words[..k], [words[k]], list);
    CountListedConcat(words[..k] + [w], words[k + 1..], list);
    CountListedConcat(words[..k], [w], list);
    assert [words[k]][..0] == [] && [w][..0] == [];
  }

  /** Saying an advanced word in place of a token on neither list never lowers
      the level. */
  lemma AdvancedWordInPlaceOfPlainNeverLowers(words: seq<string>, k: nat, w: string)
    requires k < |words| && words[k] !in AdvancedWords && words[k] !in IntermediateWords
    requires w in AdvancedWords
    ensures LevelRank(LevelOfWords(words)) <= LevelRank(LevelOfWords(words[k := w]))
  {
    assert w !in IntermediateWords;
    CountListedUpdate(words, k, w, AdvancedWords);
    CountListedUpdate(words, k, w, IntermediateWords);
    LevelMonotone(words, words[k := w]);
  }

  /** Adding an advanced word can lower the level: nineteen tokens with one
      intermediate word are "intermediate", and one more token, advanced, leaves
      neither ratio above its threshold. */
  lemma AdvancedWordCanLowerLevel()
    ensures var words := ["however"] + seq(18, _ => "the");
      && LevelOfWords(words) == Intermediate
      && LevelOfWords(words + ["notwithstanding"]) == Beginner
  {
    var words := ["however"] + seq(18, _ => "the");
    CountListedRepeat("the", 18, AdvancedWords);
    CountListedRepeat("the", 18, IntermediateWords);
    CountListedConcat(["however"], seq(18, _ => "the"), AdvancedWords);
    CountListedConcat(["however"], seq(18, _ => "the"), IntermediateWords);
    assert CountListed(["however"], AdvancedWords) == 0;
    assert CountListed(["however"], IntermediateWords) == 1;
    CountListedConcat(words, ["notwithstanding"], AdvancedWords);
    CountListedConcat(words, ["notwithstanding"], IntermediateWords);
    assert CountListed(["notwithstanding"], AdvancedWords) == 1;
    assert CountListed(["notwithstanding"], IntermediateWords) == 0;
  }

  // ================================================================ pronunciation

  /** A concern names the cleaned word and what the dictionary found for it. */
  datatype PronunciationConcern = PronunciationConcern(word: string, tip: Found<string>)

  /** The six own entries of the dictionary of difficult words. */
  function DictionaryTip(word: string): Option<string> {
    if word == "through" then Some("pronounced as \"throo\", not \"throw\"")
    else if word == "thought" then Some("pronounced as " + "\"thawt\", with " +
                                        "the \"th\" sound")
    else if word == "three" then Some("practice the " + "\"th\" sound at " +
                                      "the beginning")
    else if word == "world" then Some("pronounced as \"wurld\", not \"word\"")
    else if word == "work" then Some("pronounced as " + "\"wurk\", with a " +
                                     "clear \"r\" sound")
    else if word == "comfortable" then Some("pronounced as " +
                                            "\"KUHM-f\U{259}r-t\U{259}-b\U{259}l\", " +
                                            "four syllables")
    else None
  }

  /** `difficultWords[cleanWord]` on the object literal: an own tip, or a
      member it inherits from `Object.prototype`. */
  function Tip(word: string): Found<string> {
    Lookup(DictionaryTip(word), word)
  }

  /** `if (difficultWords[cleanWord])`: every own tip is a non-empty text and
      every inherited member is truthy, so only a miss is skipped. */
  predicate Hit(word: string) {
    !Tip(word).Missing?
  }

  /** The concerns of a token list, token after token. */
  function ConcernsOf(tokens: seq<string>): seq<PronunciationConcern> {
    if tokens == [] then []
    else
      var word := KeepWordChars(tokens[|tokens| - 1]);
      ConcernsOf(tokens[..|tokens| - 1]) + (if Hit(word) then [PronunciationConcern(word, Tip(word))] else [])
  }

  /** `identifyPronunciationConcerns(text)`. */
  function PronunciationConcerns(text: string): seq<PronunciationConcern> {
    ConcernsOf(SplitWords(Lower(text)))
  }

  /** Every concern is a dictionary hit carrying what the lookup found, there
      is at most one per token, and every token whose cleaned form hits
      yields one. */
  lemma {:induction false} ConcernsAreDictionaryHits(tokens: seq<string>)
    ensures |ConcernsOf(tokens)| <= |tokens|
    ensures forall c :: c in ConcernsOf(tokens) ==> Hit(c.word) && c.tip == Tip(c.word)
    ensures forall i :: 0 <= i < |tokens| && Hit(KeepWordChars(tokens[i])) ==>
              PronunciationConcern(KeepWordChars(tokens[i]), Tip(KeepWordChars(tokens[i]))) in ConcernsOf(tokens)
  {
    if tokens != [] {
      var init := tokens[..|tokens| - 1];
      ConcernsAreDictionaryHits(init);
      forall i | 0 <= i < |tokens| - 1 ensures tokens[i] == init[i] { }
    }
  }

  /** A text with no ASCII capital letter. */
  predicate NoCapital(s: string) {
    forall c :: c in s ==> !IsAsciiUpper(c)
  }

  /** Of the twelve inherited names only `constructor` and `__proto__` have no
      capital letter. */
  lemma InheritedNameCapital(name: string)
    requires name in ObjectPrototypeNames
    ensures NoCapital(name) ==> name == "constructor" || name == "__proto__"
  {
    if name == "constructor" || name == "__proto__" {
    } else if name == "__defineGetter__" || name == "__lookupGetter__" {
      assert name[8] == 'G' && name[8] in name;
    } else if name == "__defineSetter__" || name == "__lookupSetter__" {
      assert name[8] == 'S' && name[8] in name;
    } else if name == "hasOwnProperty" {
      assert name[3] == 'O' && name[3] in name;
    } else if name == "isPrototypeOf" {
      assert name[2] == 'P' && name[2] in name;
    } else if name == "propertyIsEnumerable" {
      assert name[8] == 'I' && name[8] in name;
    } else if name == "toLocaleString" {
      assert name[2] == 'L' && name[2] in name;
    } else if name == "toString" {
      assert name[2] == 'S' && name[2] in name;
    } else if name == "valueOf" {
      assert name[5] == 'O' && name[5] in name;
    } else {
      assert false;
    }
  }

  /** Cleaned lower-case tokens give concerns with lower-case words. */
  lemma {:induction false} ConcernWordsLower(tokens: seq<string>)
    requires forall t :: t in tokens ==> NoCapital(t)
    ensures forall c :: c in ConcernsOf(tokens) ==> NoCapital(c.word)
  {
    if tokens != [] {
      var init := tokens[..|tokens| - 1];
      assert forall t :: t in init ==> t in tokens;
      ConcernWordsLower(init);
      var last := tokens[|tokens| - 1];
      assert last in tokens;
      forall c | c in KeepWordChars(last) ensures !IsAsciiUpper(c) {
        assert c in last;
      }
    }
  }

  /** A spoken text is lower-cased before the lookup, so the only inherited
      members it can reach are `constructor` (a function, whose `tip` the JSON
      leaves out) and `__proto__` (the prototype, written `{}`). */
  lemma InheritedConcernWords(text: string)
    ensures forall c :: c in PronunciationConcerns(text) && c.tip.Inherited? ==>
              c.word == "constructor" || c.word == "__proto__"
  {
    var lowered := Lower(text);
    var tokens := SplitWords(lowered);
    SplitRunsPiecesFromSource(lowered, Whitespace);
    forall t | t in tokens ensures NoCapital(t) {
      forall c | c in t ensures !IsAsciiUpper(c) {
        var i :| 0 <= i < |t| && t[i] == c;
        assert t[i] in lowered;
      }
    }
    ConcernWordsLower(tokens);
    ConcernsAreDictionaryHits(tokens);
    forall c | c in PronunciationConcerns(text) && c.tip.Inherited?
      ensures c.word == "constructor" || c.word == "__proto__"
    {
      InheritedNameCapital(c.word);
    }
  }

  /** A token made of word characters that is not in the dictionary but names
      an inherited member is a concern carrying that member. */
  lemma InheritedWordConcern(w: string)
    requires forall i :: 0 <= i < |w| ==> IsWordChar(w[i])
    requires DictionaryTip(w).None? && w in ObjectPrototypeNames
    ensures ConcernsOf([w]) == [PronunciationConcern(w, Inherited(w))]
  {
    assert [w][..0] == [];
  }

  /** A concern carrying an inherited function has no `tip` member in its
      JSON: `JSON.stringify` drops a function. */
  lemma InheritedFunctionConcernJson(w: string, name: string)
    requires name != "__proto__"
    ensures ConcernJson(PronunciationConcern(w, Inherited(name))) ==
            Json.Object([Json.Field("word", Json.Quote(w)), Json.Field("type", Json.Quote("pronunciation"))])
  {
    var word := Json.Field("word", Json.Quote(w));
    var kind := Json.Field("type", Json.Quote("pronunciation"));
    assert [word] + [] + [kind] == [word, kind];
  }

  /** So the token "constructor" yields `{"word":"constructor","type":"pronunciation"}`. */
  lemma ConstructorConcern()
    ensures ConcernsOf(["constructor"]) == [PronunciationConcern("constructor", Inherited("constructor"))]
    ensures ConcernJson(ConcernsOf(["constructor"])[0]) ==
            Json.Object([Json.Field("word", Json.Quote("constructor")),
                         Json.Field("type", Json.Quote("pronunciation"))])
  {
    InheritedWordConcern("constructor");
    InheritedFunctionConcernJson("constructor", "constructor");
  }

  /** The `forEach` loop of `identifyPronunciationConcerns`. */
  method IdentifyPronunciationConcerns(text: string) returns (concerns: seq<PronunciationConcern>)
    ensures concerns == PronunciationConcerns(text)
  {
    var words := SplitWords(Lower(text));
    concerns := [];
    for n := 0 to |words|
      invariant concerns == ConcernsOf(words[..n])
    {
      var cleanWord := KeepWordChars(words[n]);
      var tip := Tip(cleanWord);
      if !tip.Missing? {
        concerns := concerns + [PronunciationConcern(cleanWord, tip)];
      }
      assert words[..n + 1][..n] == words[..n];
    }
    assert words[..|words|] == words;
  }

  // ================================================================ fluency

  const ComplexMarkers: seq<string> := ["although", "because", "since", "while", "whereas", "however", "therefore"]

  /** Some connective occurs anywhere in the text, even inside a longer word. */
  predicate HasComplexStructure(lowerText: string) {
    exists i :: 0 <= i < |ComplexMarkers| && Includes(lowerText, ComplexMarkers[i])
  }

  /** `new Set(words).size`: the tokens that do not occur earlier. */
  function DistinctCount(words: seq<string>): nat {
    if words == [] then 0
    else
      var init := words[..|words| - 1];
      DistinctCount(init) + (if words[|words| - 1] in init then 0 else 1)
  }

  /** DistinctCount is the number of different tokens. */
  lemma {:induction false} DistinctCountIsCardinality(words: seq<string>)
    ensures DistinctCount(words) == |set w | w in words|
  {
    if words != [] {
      var init := words[..|words| - 1];
      var last := words[|words| - 1];
      DistinctCountIsCardinality(init);
      assert words == init + [last];
      var seen := set w | w in init;
      if last in init {
        assert (set w | w in words) == seen;
      } else {
        assert (set w | w in words) == seen + {last};
        assert last !in seen;
      }
    }
  }

  function LengthAdjustment(wordCount: int): int {
    if wordCount > 20 then 20 else if wordCount > 10 then 10 else if wordCount < 5 then -20 else 0
  }

  /** +10 for a unique/total ratio above 4/5, -10 below 3/5. */
  function VarietyAdjustment(unique: nat, total: nat): int {
    if 5 * unique > 4 * total then 10 else if 5 * unique < 3 * total then -10 else 0
  }

  function Clamp(x: int): int {
    if x > 100 then 100 else if x < 0 then 0 else x
  }

  /** `calculateFluencyScore(text, wordCount)`. */
  function FluencyScore(text: string, wordCount: int): int {
    var words := SplitWords(Lower(text));
    Clamp(50 + LengthAdjustment(wordCount) + (if HasComplexStructure(Lower(text)) then 15 else 0)
      + VarietyAdjustment(DistinctCount(words), |words|))
  }

  /** The clamp to [0,100] never bites: the score always lies in [20,95]. */
  lemma FluencyScoreRange(text: string, wordCount: int)
    ensures 20 <= FluencyScore(text, wordCount) <= 95
    ensures var words := SplitWords(Lower(text));
      FluencyScore(text, wordCount) == 50 + LengthAdjustment(wordCount)
        + (if HasComplexStructure(Lower(text)) then 15 else 0) + VarietyAdjustment(DistinctCount(words), |words|)
  {
  }

  /** `calculateFluencyScore`, updating its local score step by step. */
  method CalculateFluencyScore(text: string, wordCount: int) returns (score: int)
    ensures score == FluencyScore(text, wordCount)
    ensures 20 <= score <= 95
  {
    score := 50;
    if wordCount > 20 {
      score := score + 20;
    } else if wordCount > 10 {
      score := score + 10;
    } else if wordCount < 5 {
      score := score - 20;
    }
    var lowerText := Lower(text);
    if HasComplexStructure(lowerText) {
      score := score + 15;
    }
    var words := SplitWords(lowerText);
    var unique := DistinctCount(words);
    if 5 * unique > 4 * |words| {
      score := score + 10;
    } else if 5 * unique < 3 * |words| {
      score := score - 10;
    }
    score := if score > 100 then 100 else if score < 0 then 0 else score;
  }

  // ================================================================ suggestions

  const GrammarTip := "Focus on the " + "grammar " + "corrections " + "provided above"
  const VocabularyTip := "Try using more " + "complex " + "vocabulary and " +
                         "linking words"
  const FluencyTip := "Try speaking in " + "longer " + "sentences and " + "using " +
                      "connecting words"
  const ElaborateTip := "Try to " + "elaborate more " + "on your " + "thoughts - give " +
                        "examples or " + "details"

  /** `generateLearningSuggestions`, from the fields of the analysis it reads. */
  function Suggestions(issueCount: nat, level: VocabularyLevel, fluencyScore: int, wordCount: int,
                       learningMode: JsValue, difficultyLevel: JsValue): seq<string>
  {
    (if learningMode == Str("grammar") && issueCount > 0 then [GrammarTip] else [])
    + (if learningMode == Str("vocabulary") && Str(LevelName(level)) != difficultyLevel
         && level == Beginner && difficultyLevel == Str("intermediate") then [VocabularyTip] else [])
    + (if learningMode == Str("fluency") && fluencyScore < 70 then [FluencyTip] else [])
    + (if wordCount < 10 then [ElaborateTip] else [])
  }

  /** At most one mode-specific suggestion plus the length hint, each present
      exactly under its condition. */
  lemma SuggestionsShape(issueCount: nat, level: VocabularyLevel, fluencyScore: int, wordCount: int,
                         learningMode: JsValue, difficultyLevel: JsValue)
    ensures var r := Suggestions(issueCount, level, fluencyScore, wordCount, learningMode, difficultyLevel);
      && |r| <= 2
      && (GrammarTip in r <==> learningMode == Str("grammar") && issueCount > 0)
      && (VocabularyTip in r <==> learningMode == Str("vocabulary") && level == Beginner && difficultyLevel == Str("intermediate"))
      && (FluencyTip in r <==> learningMode == Str("fluency") && fluencyScore < 70)
      && (ElaborateTip in r <==> wordCount < 10)
  {
  }

  /** `generateLearningSuggestions`, pushing its suggestions one by one. */
  method GenerateLearningSuggestions(issueCount: nat, level: VocabularyLevel, fluencyScore: int, wordCount: int,
                                     learningMode: JsValue, difficultyLevel: JsValue) returns (suggestions: seq<string>)
    ensures suggestions == Suggestions(issueCount, level, fluencyScore, wordCount, learningMode, difficultyLevel)
    ensures |suggestions| <= 2
  {
    suggestions := [];
    if learningMode == Str("grammar") && issueCount > 0 {
      suggestions := suggestions + [GrammarTip];
    }
    if learningMode == Str("vocabulary") && Str(LevelName(level)) != difficultyLevel {
      if level == Beginner && difficultyLevel == Str("intermediate") {
        suggestions := suggestions + [VocabularyTip];
      }
    }
    if learningMode == Str("fluency") && fluencyScore < 70 {
      suggestions := suggestions + [FluencyTip];
    }
    if wordCount < 10 {
      suggestions := suggestions + [ElaborateTip];
    }
    SuggestionsShape(issueCount, level, fluencyScore, wordCount, learningMode, difficultyLevel);
  }

  // ================================================================ the analysis record

  datatype SpeechAnalysis = SpeechAnalysis(
    originalText: string,
    wordCount: nat,
    sentenceCount: nat,
    grammarIssues: seq<IssueKind>,
    vocabularyLevel: VocabularyLevel,
    pronunciationConcerns: seq<PronunciationConcern>,
    fluencyScore: int,
    suggestions: seq<string>)

  /** `analyzeSpeechForLearning(text, difficultyLevel, learningMode)`. */
  function Analysis(text: string, difficultyLevel: JsValue, learningMode: JsValue): SpeechAnalysis {
    var wordCount := |SplitWords(text)|;
    var issues := GrammarIssues(text);
    var level := AssessVocabularyLevel(text, difficultyLevel);
    var score := FluencyScore(text, wordCount);
    SpeechAnalysis(text, wordCount, |Sentences(text)|, issues, level, PronunciationConcerns(text), score,
      Suggestions(|issues|, level, score, wordCount, learningMode, difficultyLevel))
  }

  /** What every analysis satisfies, whatever the text. */
  lemma AnalysisInvariants(text: string, difficultyLevel: JsValue, learningMode: JsValue)
    ensures var a := Analysis(text, difficultyLevel, learningMode);
      && a.originalText == text
      && a.wordCount >= 1
      && 0 <= a.fluencyScore <= 100
      && |a.grammarIssues| <= 3 * a.sentenceCount
      && (forall c :: c in a.pronunciationConcerns ==> Hit(c.word) && c.tip == Tip(c.word))
      && |a.suggestions| <= 2
  {
    var a := Analysis(text, difficultyLevel, learningMode);
    FluencyScoreRange(text, a.wordCount);
    IssueCountBound(Sentences(text));
    ConcernsAreDictionaryHits(SplitWords(Lower(text)));
    SuggestionsShape(|a.grammarIssues|, a.vocabularyLevel, a.fluencyScore, a.wordCount, learningMode, difficultyLevel);
  }

  /** `analyzeSpeechForLearning`: the record filled in step by step. The `catch`
      branch that sets an `error` field is unreachable, since none of the helpers
      can throw on a string. */
  method AnalyzeSpeechForLearning(text: string, difficultyLevel: JsValue, learningMode: JsValue)
    returns (analysis: SpeechAnalysis)
    ensures analysis == Analysis(text, difficultyLevel, learningMode)
    ensures 0 <= analysis.fluencyScore <= 100
  {
    var wordCount := |SplitWords(text)|;
    analysis := SpeechAnalysis(text, wordCount, |Sentences(text)|, [], Beginner, [], 0, []);
    var issues := AnalyzeGrammar(text);
    analysis := analysis.(grammarIssues := issues);
    analysis := analysis.(vocabularyLevel := AssessVocabularyLevel(text, difficultyLevel));
    var concerns := IdentifyPronunciationConcerns(text);
    analysis := analysis.(pronunciationConcerns := concerns);
    var score := CalculateFluencyScore(text, analysis.wordCount);
    analysis := analysis.(fluencyScore := score);
    var suggestions := GenerateLearningSuggestions(|analysis.grammarIssues|, analysis.vocabularyLevel,
      analysis.fluencyScore, analysis.wordCount, learningMode, difficultyLevel);
    analysis := analysis.(suggestions := suggestions);
  }

  // ================================================================ JSON

  /** The issue object `{type, issue, suggestion, severity}`. */
  function IssueFields(kind: string, issue: string, suggestion: string, severity: string): seq<Json.Field> {
    [Json.Field("type", Json.Quote(kind)), Json.Field("issue", Json.Quote(issue)),
     Json.Field("suggestion", Json.Quote(suggestion)), Json.Field("severity", Json.Quote(severity))]
  }

  function IssueJson(k: IssueKind): string {
    Json.Object(IssueFields(KindName(k), IssueText(k), SuggestionText(k), SeverityName(SeverityOf(k))))
  }

  /** The `tip` member: a text is quoted, the prototype object is written as
      `{}`, and a function-valued member is left out, as `JSON.stringify` does. */
  function TipFields(tip: Found<string>): seq<Json.Field> {
    match tip
    case Own(t) => [Json.Field("tip", Json.Quote(t))]
    case Inherited(name) => if name == "__proto__" then [Json.Field("tip", Json.Object([]))] else []
    case Missing => []
  }

  /** The concern object `{word, tip, type}`. */
  function ConcernJson(c: PronunciationConcern): string {
    Json.Object([Json.Field("word", Json.Quote(c.word))] + TipFields(c.tip) +
      [Json.Field("type", Json.Quote("pronunciation"))])
  }

  /** The members of `JSON.stringify(analysis)`, in the order the record is
      built, each value already serialised. */
  function AnalysisMembers(text: string, words: string, sentences: string, issues: string, level: string,
                           concerns: string, score: string, suggestions: string): seq<Json.Field> {
    [Json.Field("originalText", text), Json.Field("wordCount", words),
     Json.Field("sentenceCount", sentences), Json.Field("grammarIssues", issues),
     Json.Field("vocabularyLevel", level), Json.Field("pronunciationConcerns", concerns),
     Json.Field("fluencyScore", score), Json.Field("suggestions", suggestions)]
  }

  function IssueItems(issues: seq<IssueKind>): seq<string> {
    seq(|issues|, i requires 0 <= i < |issues| => IssueJson(issues[i]))
  }

  function ConcernItems(concerns: seq<PronunciationConcern>): seq<string> {
    seq(|concerns|, i requires 0 <= i < |concerns| => ConcernJson(concerns[i]))
  }

  function SuggestionItems(suggestions: seq<string>): seq<string> {
    seq(|suggestions|, i requires 0 <= i < |suggestions| => Json.Quote(suggestions[i]))
  }

  /** `JSON.stringify(analysis)`. */
  function AnalysisJson(a: SpeechAnalysis): string {
    Json.Object(AnalysisMembers(Json.Quote(a.originalText), IntToString(a.wordCount), IntToString(a.sentenceCount),
      Json.Array(IssueItems(a.grammarIssues)), Json.Quote(LevelName(a.vocabularyLevel)),
      Json.Array(ConcernItems(a.pronunciationConcerns)), IntToString(a.fluencyScore),
      Json.Array(SuggestionItems(a.suggestions))))
  }

  /** The object holds its issue and suggestion arrays. */
  lemma AnalysisMembersHoldArrays(text: string, words: string, sentences: string, issues: string, level: string,
                                  concerns: string, score: string, suggestions: string)
    ensures Includes(Json.Object(AnalysisMembers(text, words, sentences, issues, level, concerns, score, suggestions)), issues)
    ensures Includes(Json.Object(AnalysisMembers(text, words, sentences, issues, level, concerns, score, suggestions)), suggestions)
  {
    Json.ObjectIncludesValue(AnalysisMembers(text, words, sentences, issues, level, concerns, score, suggestions), 3);
    Json.ObjectIncludesValue(AnalysisMembers(text, words, sentences, issues, level, concerns, score, suggestions), 7);
  }

  /** Each issue object carries the issue's description and its suggestion. */
  lemma IssueJsonCarriesTexts(k: IssueKind)
    ensures Includes(IssueJson(k), Json.Quote(IssueText(k)))
    ensures Includes(IssueJson(k), Json.Quote(SuggestionText(k)))
  {
    IssueObjectCarriesTexts(KindName(k), IssueText(k), SuggestionText(k), SeverityName(SeverityOf(k)));
  }

  lemma IssueObjectCarriesTexts(kind: string, issue: string, suggestion: string, severity: string)
    ensures Includes(Json.Object(IssueFields(kind, issue, suggestion, severity)), Json.Quote(issue))
    ensures Includes(Json.Object(IssueFields(kind, issue, suggestion, severity)), Json.Quote(suggestion))
  {
    Json.ObjectIncludesValue(IssueFields(kind, issue, suggestion, severity), 1);
    Json.ObjectIncludesValue(IssueFields(kind, issue, suggestion, severity), 2);
  }

  /** The serialised analysis lists every grammar issue's object. */
  lemma AnalysisJsonListsIssues(a: SpeechAnalysis, k: nat)
    requires k < |a.grammarIssues|
    ensures Includes(AnalysisJson(a), IssueJson(a.grammarIssues[k]))
  {
    var items := IssueItems(a.grammarIssues);
    AnalysisMembersHoldArrays(Json.Quote(a.originalText), IntToString(a.wordCount), IntToString(a.sentenceCount),
      Json.Array(items), Json.Quote(LevelName(a.vocabularyLevel)),
      Json.Array(ConcernItems(a.pronunciationConcerns)), IntToString(a.fluencyScore),
      Json.Array(SuggestionItems(a.suggestions)));
    Json.ArrayIncludesItem(items, k);
    IncludesTrans(AnalysisJson(a), Json.Array(items), items[k]);
  }

  /** So the completion prompt carries each issue's suggestion. */
  lemma AnalysisJsonCarriesSuggestions(a: SpeechAnalysis, k: nat)
    requires k < |a.grammarIssues|
    ensures Includes(AnalysisJson(a), Json.Quote(SuggestionText(a.grammarIssues[k])))
  {
    var g := a.grammarIssues[k];
    AnalysisJsonListsIssues(a, k);
    IssueJsonCarriesTexts(g);
    IncludesTrans(AnalysisJson(a), IssueJson(g), Json.Quote(SuggestionText(g)));
  }

  /** The agreement suggestion ends in "you/we/they", which holds "hey". */
  lemma AgreementSuggestionSaysHey()
    ensures Includes(SuggestionText(SubjectVerbAgreement), "hey")
  {
    var before := "Use \"am\" with " + "\"I\", \"is\" with " + "\"he/she/it\", " +
                  "\"are\" with " + "\"you/we/t";
    assert SuggestionText(SubjectVerbAgreement) == before + "hey" + "\"";
    IncludesSelf(SuggestionText(SubjectVerbAgreement));
    IncludesPart(SuggestionText(SubjectVerbAgreement), before, "hey", "\"");
  }

  /** Any plain text inside an issue's suggestion survives into the serialised
      analysis. */
  lemma AnalysisJsonKeepsSuggestionText(a: SpeechAnalysis, k: nat, t: string)
    requires k < |a.grammarIssues|
    requires Includes(SuggestionText(a.grammarIssues[k]), t)
    requires forall i :: 0 <= i < |t| ==> Json.Plain(t[i])
    ensures Includes(AnalysisJson(a), t)
  {
    AnalysisJsonCarriesSuggestions(a, k);
    Json.QuoteKeepsPlainText(SuggestionText(a.grammarIssues[k]), t);
    IncludesTrans(AnalysisJson(a), Json.Quote(SuggestionText(a.grammarIssues[k])), t);
  }

  /** An analysis with an agreement issue serialises to a text holding "hey". */
  lemma AgreementIssueJsonSaysHey(a: SpeechAnalysis)
    requires SubjectVerbAgreement in a.grammarIssues
    ensures Includes(AnalysisJson(a), "hey")
  {
    var k :| 0 <= k < |a.grammarIssues| && a.grammarIssues[k] == SubjectVerbAgreement;
    AgreementSuggestionSaysHey();
    AnalysisJsonKeepsSuggestionText(a, k, "hey");
  }

  // ================================================================ worked examples

  /** A text with no sentence-ending mark and some visible character is one sentence. */
  lemma SingleSentence(text: string)
    requires forall i :: 0 <= i < |text| ==> !IsSentenceEnd(text[i])
    requires exists i :: 0 <= i < |text| && !IsSpace(text[i])
    ensures Sentences(text) == [text]
    ensures GrammarIssues(text) == SentenceIssues(text)
  {
    SplitRunsWithoutClass(text, SentenceEnd);
    TrimNonEmptyIff(text);
    assert NonBlank([text]) == NonBlank([]) + [text];
    assert IssuesOf([text]) == IssuesOf([]) + SentenceIssues(text);
  }

  /** The issues of a sentence already in trimmed lower-case form. */
  lemma SentenceIssuesOfNormalized(t: string)
    requires Lower(Trim(t)) == t
    ensures SentenceIssues(t) == Flagged(CapitalizationRule(t), AgreementRule(t), DoubleNegativeRule(t))
  {
  }

  /** The `includes(' are ')` test of the agreement rule is implied by each of
      its three alternatives. */
  lemma AgreementRuleSimplified(t: string)
    ensures AgreementRule(t) <==> Includes(t, " i are ") || Includes(t, " he are ") || Includes(t, " she are ")
  {
    if Includes(t, " i are ") {
      assert " i" + " are " + "" == " i are ";
      IncludesPart(t, " i", " are ", "");
    }
    if Includes(t, " he are ") {
      assert " he" + " are " + "" == " he are ";
      IncludesPart(t, " he", " are ", "");
    }
    if Includes(t, " she are ") {
      assert " she" + " are " + "" == " she are ";
      IncludesPart(t, " she", " are ", "");
    }
  }

  /** A negative that starts with "no" does not occur where "no" does not. */
  lemma MissingNoExcludes(t: string, rest: string)
    requires !Includes(t, "no")
    ensures Count(t, "no" + rest) == 0
  {
    if Includes(t, "no" + rest) {
      assert "" + "no" + rest == "no" + rest;
      IncludesPart(t, "", "no", rest);
    }
    CountZero(t, "no" + rest);
  }

  /** A text in which neither "no" nor "never" occurs has no negative at all,
      since every other negative starts with "no". */
  lemma NoNegatives(t: string)
    requires !Includes(t, "no") && !Includes(t, "never")
    ensures NegativeCount(t) == 0
  {
    MissingNoExcludes(t, "t");
    MissingNoExcludes(t, "");
    MissingNoExcludes(t, "thing");
    MissingNoExcludes(t, "body");
    MissingNoExcludes(t, "where");
    assert "no" + "t" == "not" && "no" + "" == "no";
    assert "no" + "thing" == "nothing" && "no" + "body" == "nobody" && "no" + "where" == "nowhere";
    CountZero(t, "never");
  }

  /** One sentence in lower case that starts with "i ", says "i are" and has no
      negative gets exactly the agreement issue: the capitalization rule is
      suppressed by the leading "i ". */
  lemma AgreementWithoutCapitalization(t: string)
    requires forall i :: 0 <= i < |t| ==> !IsSentenceEnd(t[i]) && !IsAsciiUpper(t[i])
    requires |t| > 0 && !IsSpace(t[0]) && !IsSpace(t[|t| - 1])
    requires StartsWith(t, "i ")
    requires Includes(t, " i are ")
    requires !Includes(t, "no") && !Includes(t, "never")
    ensures GrammarIssues(t) == [SubjectVerbAgreement]
  {
    SingleSentence(t);
    LowerTrimUntouched(t);
    AgreementRuleSimplified(t);
    NoNegatives(t);
    SentenceIssuesOfNormalized(t);
    assert Flagged(false, true, false) == [SubjectVerbAgreement];
  }

  /** "i are happy today and i are excited" yields only the agreement issue. */
  lemma AgreementExample()
    ensures GrammarIssues("i are happy today and i are excited") == [SubjectVerbAgreement]
  {
    var t := "i are happy today and i are excited";
    assert t[..2] == "i ";
    assert !IsSpace(t[0]) && !IsSpace(t[|t| - 1]);
    AgreementExampleChars();
    AgreementExampleSaysIAre();
    AgreementExampleHasNoNegative();
    AgreementWithoutCapitalization(t);
  }

  lemma AgreementExampleChars()
    ensures var t := "i are happy today and i are excited";
      forall i :: 0 <= i < |t| ==> !IsSentenceEnd(t[i]) && !IsAsciiUpper(t[i])
  {
  }

  lemma AgreementExampleSaysIAre()
    ensures Includes("i are happy today and i are excited", " i are ")
  {
    var t := "i are happy today and i are excited";
    OccursAtPointwise(t, " i are ", 21);
    IncludesAt(t, " i are ", 21);
  }

  lemma AgreementExampleHasNoNegative()
    ensures !Includes("i are happy today and i are excited", "no")
    ensures !Includes("i are happy today and i are excited", "never")
  {
    AgreementExampleLacks("no");
    AgreementExampleLacks("never");
  }

  /** Every window of the example differs from "no" and from "never" in its
      first two letters. */
  lemma AgreementExampleLacks(negative: string)
    requires negative == "no" || negative == "never"
    ensures !Includes("i are happy today and i are excited", negative)
  {
    NotIncludedBy("i are happy today and i are excited", negative, 0, 1);
  }

  /** One sentence whose trimmed lower-case form holds two negatives gets the
      double-negative issue. */
  lemma DoubleNegativeFlagged(s: string, t: string)
    requires forall i :: 0 <= i < |s| ==> !IsSentenceEnd(s[i])
    requires |s| > 0 && !IsSpace(s[0]) && !IsSpace(s[|s| - 1])
    requires Lower(s) == t && NegativeCount(t) > 1
    ensures DoubleNegative in GrammarIssues(s)
  {
    SingleSentence(s);
    TrimUntouched(s);
  }

  /** "I don't know nothing" has a double negative: "not" and "nothing" both
      occur inside its last word. */
  lemma DoubleNegativeExample()
    ensures DoubleNegative in GrammarIssues("I don't know nothing")
  {
    var s := "I don't know nothing";
    assert !IsSpace(s[0]) && !IsSpace(s[|s| - 1]);
    DoubleNegativeExampleChars();
    DoubleNegativeExampleLowered();
    DoubleNegativeExampleCount();
    DoubleNegativeFlagged(s, "i don't know nothing");
  }

  lemma DoubleNegativeExampleChars()
    ensures var s := "I don't know nothing";
      forall i :: 0 <= i < |s| ==> !IsSentenceEnd(s[i])
  {
  }

  lemma DoubleNegativeExampleLowered()
    ensures Lower("I don't know nothing") == "i don't know nothing"
  {
    var rest := " don't know nothing";
    DoubleNegativeExampleParts();
    LowerConcat("I", rest);
    LowerCapitalI();
    DoubleNegativeExampleRestLowered();
  }

  lemma DoubleNegativeExampleParts()
    ensures "I don't know nothing" == "I" + " don't know nothing"
    ensures "i" + " don't know nothing" == "i don't know nothing"
  {
  }

  lemma LowerCapitalI()
    ensures Lower("I") == "i"
  {
  }

  lemma DoubleNegativeExampleRestLowered()
    ensures Lower(" don't know nothing") == " don't know nothing"
  {
    LowerOfLower(" don't know nothing");
  }

  lemma DoubleNegativeExampleCount()
    ensures NegativeCount("i don't know nothing") > 1
  {
    DoubleNegativeExampleHas("not");
    DoubleNegativeExampleHas("nothing");
  }

  /** "not" and "nothing" both start at the last word, position 13. */
  lemma DoubleNegativeExampleHas(negative: string)
    requires negative == "not" || negative == "nothing"
    ensures Count("i don't know nothing", negative) >= 1
  {
    var t := "i don't know nothing";
    OccursAtPointwise(t, negative, 13);
    IncludesAt(t, negative, 13);
    CountPositive(t, negative);
  }

  /** A text that starts with `sep` and has no other occurrence after it
      splits into exactly two pieces. */
  lemma OneOccurrence(t: string, sep: string, rest: string)
    requires |sep| > 0 && t == sep + rest && !Includes(rest, sep)
    ensures Count(t, sep) == 1
  {
    assert OccursAt(t, sep, 0);
    assert t[|sep|..] == rest;
    SplitWithoutSeparator(rest, sep);
  }

  /** The word "nothing" alone already counts 3, so on its own it is flagged as a
      double negative: "not", "no" and "nothing" each occur once in it. */
  lemma NothingCountsThree()
    ensures NegativeCount("nothing") == 3
  {
    NothingSplits();
    NothingHasNoOtherNegative();
  }

  lemma NothingSplits()
    ensures Count("nothing", "not") == 1 && Count("nothing", "no") == 1 && Count("nothing", "nothing") == 1
  {
    NothingSplitsOnNot();
    NothingSplitsOnNo();
    OneOccurrence("nothing", "nothing", "");
  }

  lemma NothingSplitsOnNot()
    ensures Count("nothing", "not") == 1
  {
    NotIncludedBy("hing", "not", 0, 0);
    OneOccurrence("nothing", "not", "hing");
  }

  lemma NothingSplitsOnNo()
    ensures Count("nothing", "no") == 1
  {
    NotIncludedBy("thing", "no", 1, 1);
    OneOccurrence("nothing", "no", "thing");
  }

  lemma NothingHasNoOtherNegative()
    ensures Count("nothing", "never") == 0 && Count("nothing", "nobody") == 0 && Count("nothing", "nowhere") == 0
  {
    NotIncludedBy("nothing", "never", 2, 2);
    CountZero("nothing", "never");
    NotIncludedBy("nothing", "nobody", 2, 2);
    CountZero("nothing", "nobody");
    NotIncludedBy("nothing", "nowhere", 2, 2);
    CountZero("nothing", "nowhere");
  }
}
