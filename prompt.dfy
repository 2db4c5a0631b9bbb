/** The system prompt the server sends with every message: a personality
    template followed by the student's level, the feedback style and a closing
    instruction (getEnhancedTutorPrompt). */
module Prompt {
  import opened JsString
  import opened JsValues
  import opened Wrappers

  // ---------------------------------------------------------------- the three tables

  datatype Personality = GrammarTutor | PronunciationCoach | ConversationPartner | VocabularyBuilder | FluencyCoach | Helpful | Creative | Technical | Casual | Professional

  /** The property name of a personality in PERSONALITY_PROMPTS. */
  function PersonalityKey(x: Personality): string {
    match x
    case GrammarTutor => "grammar_tutor"
    case PronunciationCoach => "pronunciation_coach"
    case ConversationPartner => "conversation_partner"
    case VocabularyBuilder => "vocabulary_builder"
    case FluencyCoach => "fluency_coach"
    case Helpful => "helpful"
    case Creative => "creative"
    case Technical => "technical"
    case Casual => "casual"
    case Professional => "professional"
  }

  /** The system-prompt template of a personality (PERSONALITY_PROMPTS). */
  function Template(x: Personality): string {
    match x
    case GrammarTutor =>
      "You are an " + "expert English " + "grammar tutor. " + "Your role is " + "to:\n" +
      "- Listen " + "carefully to " + "the user's " + "speech and " + "identify " +
      "grammar errors\n" +
      "- Provide " + "clear, " + "constructive " + "corrections " + "with " +
      "explanations\n" +
      "- Explain " + "grammar rules " + "in simple, " + "understandable " + "terms\n" +
      "- Encourage the " + "user while " + "pointing out " + "areas for " +
      "improvement\n" +
      "- Give specific " + "examples of " + "correct usage\n" +
      "- Be patient " + "and supportive " + "in your " + "feedback\n" +
      "Format your " + "response as: " + "[FEEDBACK] for " + "corrections, " +
      "[EXPLANATION] " + "for grammar " + "rules, " + "[EXAMPLE] for " + "examples."
    case PronunciationCoach =>
      "You are a " + "professional " + "English " + "pronunciation " + "coach. Your " +
      "role is to:\n" +
      "- Analyze the " + "user's speech " + "for " + "pronunciation " + "issues\n" +
      "- Provide " + "specific " + "feedback on " + "word " + "pronunciation\n" +
      "- Suggest mouth " + "positioning and " + "breathing " + "techniques\n" +
      "- Break down " + "difficult words " + "syllable by " + "syllable\n" +
      "- Encourage " + "proper rhythm " + "and intonation\n" +
      "- Give " + "practical tips " + "for accent " + "reduction\n" +
      "Format your " + "response with " + "[PRONUNCIATION] " + "for specific " +
      "word feedback, " + "[TIP] for " + "techniques, " + "[PRACTICE] for " +
      "exercises."
    case ConversationPartner =>
      "You are a " + "friendly " + "English " + "conversation " + "partner. Your " +
      "role is to:\n" +
      "- Engage in " + "natural, " + "flowing " + "conversations\n" +
      "- Ask follow-up " + "questions to " + "encourage more " + "speaking\n" +
      "- Gently " + "correct errors " + "without " + "interrupting " + "the flow\n" +
      "- Introduce new " + "vocabulary " + "naturally in " + "context\n" +
      "- Adapt your " + "language level " + "to match the " + "user's ability\n" +
      "- Create a " + "comfortable, " + "encouraging " + "environment for " +
      "practice\n" +
      "Keep " + "conversations " + "natural while " + "providing " + "subtle learning " +
      "opportunities."
    case VocabularyBuilder =>
      "You are an " + "English " + "vocabulary " + "specialist. " + "Your role is " +
      "to:\n" +
      "- Introduce new " + "words naturally " + "in conversation\n" +
      "- Explain word " + "meanings with " + "clear " + "definitions and " +
      "examples\n" +
      "- Teach " + "synonyms, " + "antonyms, and " + "word families\n" +
      "- Show how " + "words are used " + "in different " + "contexts\n" +
      "- Help with " + "collocations " + "and common " + "phrases\n" +
      "- Build the " + "user's active " + "vocabulary " + "through " + "practice\n" +
      "Format " + "responses with " + "[VOCABULARY] " + "for new words, " +
      "[CONTEXT] for " + "usage examples, " + "[PRACTICE] for " + "exercises."
    case FluencyCoach =>
      "You are an " + "English fluency " + "coach focused " + "on speaking " +
      "confidence. " + "Your role is " + "to:\n" +
      "- Encourage " + "natural " + "speaking rhythm " + "and flow\n" +
      "- Help reduce " + "hesitations and " + "filler words\n" +
      "- Provide " + "confidence-building " + "exercises\n" +
      "- Teach linking " + "words and " + "smooth " + "transitions\n" +
      "- Focus on " + "natural speech " + "patterns\n" +
      "- Celebrate " + "improvements " + "and progress\n" +
      "- Create " + "speaking " + "challenges " + "appropriate to " + "the user's " +
      "level\n" +
      "Emphasize " + "building " + "confidence and " + "natural speech " + "flow."
    case Helpful =>
      "You are a " + "helpful and " + "friendly AI " + "assistant. " + "Provide clear, " +
      "accurate, and " + "useful " + "responses."
    case Creative =>
      "You are a " + "creative and " + "imaginative AI " + "assistant. " +
      "Think outside " + "the box and " + "provide " + "innovative, " + "artistic " +
      "responses."
    case Technical =>
      "You are a " + "technical " + "expert AI " + "assistant. " + "Provide " +
      "detailed, " + "accurate " + "technical " + "information " + "with examples " +
      "and best " + "practices."
    case Casual =>
      "You are a " + "casual, " + "friendly AI " + "assistant. " + "Respond in a " +
      "relaxed, " + "conversational " + "tone like " + "talking to a " + "good friend."
    case Professional =>
      "You are a " + "professional AI " + "assistant. " + "Provide formal, " +
      "well-structured " + "responses " + "suitable for " + "business " + "contexts."
  }

  /** The entry a property name selects, if any. */
  function PersonalityNamed(key: string): (r: Option<Personality>)
    ensures r.Some? ==> PersonalityKey(r.value) == key
  {
    if key == "grammar_tutor" then Some(GrammarTutor)
    else if key == "pronunciation_coach" then Some(PronunciationCoach)
    else if key == "conversation_partner" then Some(ConversationPartner)
    else if key == "vocabulary_builder" then Some(VocabularyBuilder)
    else if key == "fluency_coach" then Some(FluencyCoach)
    else if key == "helpful" then Some(Helpful)
    else if key == "creative" then Some(Creative)
    else if key == "technical" then Some(Technical)
    else if key == "casual" then Some(Casual)
    else if key == "professional" then Some(Professional)
    else None
  }

  datatype Level = Beginner | Intermediate | Advanced | Native

  /** The property name of a level in difficultyContext. */
  function LevelKey(x: Level): string {
    match x
    case Beginner => "beginner"
    case Intermediate => "intermediate"
    case Advanced => "advanced"
    case Native => "native"
  }

  /** What the tutor is told about a level (difficultyContext). */
  function LevelText(x: Level): string {
    match x
    case Beginner =>
      "The student is " + "a beginner. Use " + "simple " + "vocabulary and " +
      "basic grammar. " + "Be very " + "encouraging and " + "patient."
    case Intermediate =>
      "The student has " + "intermediate " + "skills. You can " + "use more " +
      "complex " + "vocabulary and " + "grammar " + "structures."
    case Advanced =>
      "The student is " + "advanced. Feel " + "free to use " + "sophisticated " +
      "vocabulary and " + "complex grammar."
    case Native =>
      "The student " + "aims for " + "native-level " + "proficiency. " + "Use natural, " +
      "idiomatic " + "expressions and " + "advanced " + "structures."
  }

  /** The entry a property name selects, if any. */
  function LevelNamed(key: string): (r: Option<Level>)
    ensures r.Some? ==> LevelKey(r.value) == key
  {
    if key == "beginner" then Some(Beginner)
    else if key == "intermediate" then Some(Intermediate)
    else if key == "advanced" then Some(Advanced)
    else if key == "native" then Some(Native)
    else None
  }

  datatype Style = Gentle | Detailed | Immediate | Summary

  /** The property name of a style in feedbackContext. */
  function StyleKey(x: Style): string {
    match x
    case Gentle => "gentle"
    case Detailed => "detailed"
    case Immediate => "immediate"
    case Summary => "summary"
  }

  /** What the tutor is told about a feedback style (feedbackContext). */
  function StyleText(x: Style): string {
    match x
    case Gentle =>
      "Provide " + "feedback in a " + "very " + "encouraging and " + "supportive way. " +
      "Focus on " + "positive " + "reinforcement."
    case Detailed =>
      "Give " + "comprehensive " + "analysis with " + "specific " + "examples and " +
      "explanations."
    case Immediate =>
      "Correct errors " + "right away but " + "keep the " + "conversation " + "flowing."
    case Summary =>
      "Focus on " + "conversation " + "flow now, save " + "detailed " + "feedback for " +
      "the end."
  }

  /** The entry a property name selects, if any. */
  function StyleNamed(key: string): (r: Option<Style>)
    ensures r.Some? ==> StyleKey(r.value) == key
  {
    if key == "gentle" then Some(Gentle)
    else if key == "detailed" then Some(Detailed)
    else if key == "immediate" then Some(Immediate)
    else if key == "summary" then Some(Summary)
    else None
  }

  const Closing: string :=
    "Based on the " + "speech analysis " + "provided, adapt " + "your response " +
    "to help the " + "student improve " + "while " + "maintaining an " + "engaging " +
    "conversation."

  // ---------------------------------------------------------------- composition

  /** `PERSONALITY_PROMPTS[personality] || PERSONALITY_PROMPTS.conversation_partner`:
      every template is non-empty and every inherited member is truthy, so a
      listed personality keeps its own template, an inherited name keeps the
      inherited member, and only a miss falls back. */
  function PersonalityOf(personality: JsValue): (r: Found<Personality>)
    ensures !r.Missing?
    ensures PersonalityNamed(PropertyKey(personality)).Some? ==>
              r == Own(PersonalityNamed(PropertyKey(personality)).value)
    ensures PersonalityNamed(PropertyKey(personality)).None? ==>
              if PropertyKey(personality) in ObjectPrototypeNames then r == Inherited(PropertyKey(personality))
              else r == Own(ConversationPartner)
  {
    var key := PropertyKey(personality);
    LookupOrOwn(PersonalityNamed(key), key, ConversationPartner);
    OrOwn(Lookup(PersonalityNamed(key), key), ConversationPartner)
  }

  /** `${basePrompt}`: a template, or the inherited member printed. */
  function BasePrompt(personality: JsValue): string {
    match PersonalityOf(personality)
    case Own(p) => Template(p)
    case Inherited(name) => InheritedText(name)
    case Missing => Template(ConversationPartner)
  }

  /** `${difficultyContext[difficultyLevel]}`: an inherited member prints
      itself and a missing entry reads as `undefined`. */
  function LevelLine(difficultyLevel: JsValue): (r: string)
    ensures var key := PropertyKey(difficultyLevel);
      LevelNamed(key).None? ==> r == if key in ObjectPrototypeNames then InheritedText(key) else "undefined"
  {
    var key := PropertyKey(difficultyLevel);
    match Lookup(LevelNamed(key), key)
    case Own(l) => LevelText(l)
    case Inherited(name) => InheritedText(name)
    case Missing => "undefined"
  }

  /** `${feedbackContext[feedbackStyle]}`: an inherited member prints itself
      and a missing entry reads as `undefined`. */
  function StyleLine(feedbackStyle: JsValue): (r: string)
    ensures var key := PropertyKey(feedbackStyle);
      StyleNamed(key).None? ==> r == if key in ObjectPrototypeNames then InheritedText(key) else "undefined"
  {
    var key := PropertyKey(feedbackStyle);
    match Lookup(StyleNamed(key), key)
    case Own(s) => StyleText(s)
    case Inherited(name) => InheritedText(name)
    case Missing => "undefined"
  }

  /** The template of the system prompt around its variable parts. */
  function Compose(base: string, level: string, style: string, closing: string): string {
    base + "\n\nStudent Level: " + level + "\nFeedback Style: " + style + "\n\n" + closing
  }

  /** getEnhancedTutorPrompt. Its speech-analysis argument is never read, so the
      model does not take it. */
  function TutorPrompt(personality: JsValue, difficultyLevel: JsValue, feedbackStyle: JsValue): string {
    Compose(BasePrompt(personality), LevelLine(difficultyLevel), StyleLine(feedbackStyle), Closing)
  }

  // ---------------------------------------------------------------- properties

  /** Each table entry is found under its own property name and under no other. */
  lemma NamedRoundTrip(p: Personality, l: Level, s: Style)
    ensures PersonalityNamed(PersonalityKey(p)) == Some(p)
    ensures LevelNamed(LevelKey(l)) == Some(l)
    ensures StyleNamed(StyleKey(s)) == Some(s)
  {
  }

  lemma ComposeParts(base: string, level: string, style: string, closing: string)
    ensures StartsWith(Compose(base, level, style, closing), base)
    ensures Includes(Compose(base, level, style, closing), "\n\nStudent Level: " + level + "\n")
    ensures Includes(Compose(base, level, style, closing), "\nFeedback Style: " + style + "\n\n")
    ensures EndsWith(Compose(base, level, style, closing), closing)
  {
    var levelLine := "\n\nStudent Level: " + level + "\n";
    var styleLine := "\nFeedback Style: " + style + "\n\n";
    var rest := "Feedback Style: " + style + "\n\n" + closing;
    assert Compose(base, level, style, closing) == base + levelLine + rest;
    IncludesSelf(levelLine);
    IncludesInConcat(base, levelLine, rest, levelLine);
    var front := base + "\n\nStudent Level: " + level;
    assert Compose(base, level, style, closing) == front + styleLine + closing;
    IncludesSelf(styleLine);
    IncludesInConcat(front, styleLine, closing, styleLine);
  }

  /** Whatever the keys, the prompt starts with the selected template (the
      conversation partner's for an unknown personality, the printed member
      for an inherited name), carries the "Student Level:" and "Feedback
      Style:" lines with the looked-up texts and ends with the closing
      instruction. */
  lemma TutorPromptShape(personality: JsValue, difficultyLevel: JsValue, feedbackStyle: JsValue)
    ensures PersonalityNamed(PropertyKey(personality)).Some? ==>
              StartsWith(TutorPrompt(personality, difficultyLevel, feedbackStyle),
                         Template(PersonalityNamed(PropertyKey(personality)).value))
    ensures PersonalityNamed(PropertyKey(personality)).None? && PropertyKey(personality) !in ObjectPrototypeNames ==>
              StartsWith(TutorPrompt(personality, difficultyLevel, feedbackStyle), Template(ConversationPartner))
    ensures PersonalityNamed(PropertyKey(personality)).None? && PropertyKey(personality) in ObjectPrototypeNames ==>
              StartsWith(TutorPrompt(personality, difficultyLevel, feedbackStyle), InheritedText(PropertyKey(personality)))
    ensures Includes(TutorPrompt(personality, difficultyLevel, feedbackStyle),
                     "\n\nStudent Level: " + LevelLine(difficultyLevel) + "\n")
    ensures Includes(TutorPrompt(personality, difficultyLevel, feedbackStyle),
                     "\nFeedback Style: " + StyleLine(feedbackStyle) + "\n\n")
    ensures EndsWith(TutorPrompt(personality, difficultyLevel, feedbackStyle), Closing)
  {
    ComposeParts(BasePrompt(personality), LevelLine(difficultyLevel), StyleLine(feedbackStyle), Closing);
  }

  lemma LevelHeaderUndefined()
    ensures Includes("\n\nStudent Level: " + "undefined", "Student Level: undefined")
  {
    assert "\n\nStudent Level: " + "undefined" == "\n\n" + "Student Level: undefined" + "";
    IncludesSelf("Student Level: undefined");
    IncludesInConcat("\n\n", "Student Level: undefined", "", "Student Level: undefined");
  }

  lemma StyleHeaderUndefined()
    ensures Includes("\nFeedback Style: " + "undefined", "Feedback Style: undefined")
  {
    assert "\nFeedback Style: " + "undefined" == "\n" + "Feedback Style: undefined" + "";
    IncludesSelf("Feedback Style: undefined");
    IncludesInConcat("\n", "Feedback Style: undefined", "", "Feedback Style: undefined");
  }

  lemma ComposeUndefinedLevel(base: string, style: string, closing: string)
    ensures Includes(Compose(base, "undefined", style, closing), "Student Level: undefined")
  {
    var header := "\n\nStudent Level: " + "undefined";
    var rest := "\nFeedback Style: " + style + "\n\n" + closing;
    assert Compose(base, "undefined", style, closing) == base + header + rest;
    LevelHeaderUndefined();
    IncludesInConcat(base, header, rest, "Student Level: undefined");
  }

  lemma ComposeUndefinedStyle(base: string, level: string, closing: string)
    ensures Includes(Compose(base, level, "undefined", closing), "Feedback Style: undefined")
  {
    var front := base + "\n\nStudent Level: " + level;
    var header := "\nFeedback Style: " + "undefined";
    var rest := "\n\n" + closing;
    assert Compose(base, level, "undefined", closing) == front + header + rest;
    StyleHeaderUndefined();
    IncludesInConcat(front, header, rest, "Feedback Style: undefined");
  }

  /** A level or feedback style with neither an entry nor an inherited
      member is interpolated as the text "undefined". */
  lemma UnknownKeysReadUndefined(personality: JsValue, difficultyLevel: JsValue, feedbackStyle: JsValue)
    ensures LevelNamed(PropertyKey(difficultyLevel)).None? && PropertyKey(difficultyLevel) !in ObjectPrototypeNames ==>
              Includes(TutorPrompt(personality, difficultyLevel, feedbackStyle), "Student Level: undefined")
    ensures StyleNamed(PropertyKey(feedbackStyle)).None? && PropertyKey(feedbackStyle) !in ObjectPrototypeNames ==>
              Includes(TutorPrompt(personality, difficultyLevel, feedbackStyle), "Feedback Style: undefined")
  {
    if LevelNamed(PropertyKey(difficultyLevel)).None? && PropertyKey(difficultyLevel) !in ObjectPrototypeNames {
      ComposeUndefinedLevel(BasePrompt(personality), StyleLine(feedbackStyle), Closing);
    }
    if StyleNamed(PropertyKey(feedbackStyle)).None? && PropertyKey(feedbackStyle) !in ObjectPrototypeNames {
      ComposeUndefinedStyle(BasePrompt(personality), LevelLine(difficultyLevel), Closing);
    }
  }

  /** The property names of values that are not strings. */
  predicate NonStringName(key: string) {
    key == "undefined" || key == "null" || key == "true" || key == "false" || key == "[object Object]"
    || (|key| > 0 && (key[0] == '-' || '0' <= key[0] <= '9'))
  }

  lemma NonStringNameMissesPersonalities(key: string)
    requires NonStringName(key)
    ensures PersonalityNamed(key).None?
  {
  }

  lemma NonStringNameMissesLevels(key: string)
    requires NonStringName(key)
    ensures LevelNamed(key).None?
  {
  }

  lemma NonStringNameMissesStyles(key: string)
    requires NonStringName(key)
    ensures StyleNamed(key).None?
  {
  }

  /** A non-string name is no inherited name either. */
  lemma NonStringNameNotInherited(key: string)
    requires NonStringName(key)
    ensures key !in ObjectPrototypeNames
  {
  }

  /** None of the property names of a value that is neither a string nor an
      array names an entry of the three tables or an inherited member. */
  lemma NonStringKeysMiss(v: JsValue)
    requires !v.Str? && !v.Arr?
    ensures PersonalityNamed(PropertyKey(v)).None?
    ensures LevelNamed(PropertyKey(v)).None?
    ensures StyleNamed(PropertyKey(v)).None?
    ensures PropertyKey(v) !in ObjectPrototypeNames
  {
    if v.Num? {
      IntToStringStart(v.n);
    }
    assert NonStringName(PropertyKey(v));
    NonStringNameMissesPersonalities(PropertyKey(v));
    NonStringNameMissesLevels(PropertyKey(v));
    NonStringNameMissesStyles(PropertyKey(v));
    NonStringNameNotInherited(PropertyKey(v));
  }

  /** Hence such a personality selects the conversation partner, and such a
      level or style reads as "undefined". */
  lemma NonStringKeysUseDefaults(personality: JsValue, difficultyLevel: JsValue, feedbackStyle: JsValue)
    ensures !personality.Str? && !personality.Arr? ==> PersonalityOf(personality) == Own(ConversationPartner)
    ensures !difficultyLevel.Str? && !difficultyLevel.Arr? ==> LevelLine(difficultyLevel) == "undefined"
    ensures !feedbackStyle.Str? && !feedbackStyle.Arr? ==> StyleLine(feedbackStyle) == "undefined"
  {
    if !personality.Str? && !personality.Arr? { NonStringKeysMiss(personality); }
    if !difficultyLevel.Str? && !difficultyLevel.Arr? { NonStringKeysMiss(difficultyLevel); }
    if !feedbackStyle.Str? && !feedbackStyle.Arr? { NonStringKeysMiss(feedbackStyle); }
  }

  /** An array of one value that is neither `null` nor `undefined` selects
      exactly what the value itself selects in all three tables. */
  lemma SingletonArraySelects(x: JsValue)
    requires !x.Undefined? && !x.Null?
    ensures PersonalityOf(Arr([x])) == PersonalityOf(x)
    ensures LevelLine(Arr([x])) == LevelLine(x)
    ensures StyleLine(Arr([x])) == StyleLine(x)
  {
    SingletonArrayKey(x);
  }

  /** So `personality: ["grammar_tutor"]` selects the grammar tutor. */
  lemma ArrayPersonalitySelectsTemplate()
    ensures PersonalityOf(Arr([Str("grammar_tutor")])) == Own(GrammarTutor)
  {
    SingletonArraySelects(Str("grammar_tutor"));
  }

  /** An inherited name is no entry of the three tables. */
  lemma InheritedNamesAreNoEntries(key: string)
    requires key in ObjectPrototypeNames
    ensures PersonalityNamed(key).None? && LevelNamed(key).None? && StyleNamed(key).None?
  {
    InheritedNameIsNoPersonality(key);
    InheritedNameIsNoLevel(key);
    InheritedNameIsNoStyle(key);
  }

  /** No style key is a name every object inherits. */
  lemma InheritedNameIsNoStyle(key: string)
    requires key in ObjectPrototypeNames
    ensures StyleNamed(key).None?
  {
  }

  /** No level key is a name every object inherits. */
  lemma InheritedNameIsNoLevel(key: string)
    requires key in ObjectPrototypeNames
    ensures LevelNamed(key).None?
  {
  }

  /** No personality key is a name every object inherits. */
  lemma InheritedNameIsNoPersonality(key: string)
    requires key in ObjectPrototypeNames
    ensures PersonalityNamed(key).None?
  {
  }

  /** A key naming an inherited member puts that member, printed, into the
      prompt: as the base prompt, as the level and as the style. */
  lemma InheritedKeysPrintMembers(key: string, difficultyLevel: JsValue, feedbackStyle: JsValue)
    requires key in ObjectPrototypeNames
    ensures PersonalityOf(Str(key)) == Inherited(key)
    ensures StartsWith(TutorPrompt(Str(key), difficultyLevel, feedbackStyle), InheritedText(key))
    ensures LevelLine(Str(key)) == InheritedText(key)
    ensures StyleLine(Str(key)) == InheritedText(key)
  {
    InheritedNamesAreNoEntries(key);
    TutorPromptShape(Str(key), difficultyLevel, feedbackStyle);
  }
}
