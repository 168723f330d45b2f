/**
 * `getFallbackContent` of the content route: canned study material for a
 * topic, used whenever the live model is unavailable.
 *
 * Like the prompt builder, the route builds the whole table (four documents,
 * a 25-card deck and a quiz) and then indexes it by kind; an unknown kind
 * gets a one-sentence generic text. Only the topic and the subject are
 * interpolated; the prose is abbreviated.
 */
module ContentFallback {
  import opened Wrappers
  import opened Text
  import opened Template
  import opened ContentPrompts

  datatype Flashcard = Flashcard(question: string, answer: string)

  /** A quiz entry; `options` is absent on entries built from the short-answer templates. */
  datatype QuizItem = QuizItem(question: string, options: Option<seq<string>>, correctAnswer: string,
                               explanation: string, itemType: string)

  /** The fallback value: a markdown document, a flashcard deck, or a quiz. */
  datatype Content = Document(text: string) | Cards(cards: seq<Flashcard>) | Questions(items: seq<QuizItem>)

  const DeckSize := 25

  /** The values the fallback templates interpolate: only topic and subject, "undefined" when missing. */
  function FallbackValues(topic: Option<string>, subject: Option<string>): (v: Values)
    ensures v.topic == Show(topic) && v.subject == Show(subject)
  {
    Values(Show(topic), Show(subject), "", "", "", "")
  }

  // ---------------------------------------------------------------------------
  // Documents
  // ---------------------------------------------------------------------------

  const RoadmapDoc: seq<Segment> := [
    Lit("# Learning Roadmap: "), Slot(TopicField),
    Lit("\n\n## Phase 1: Foundation Building\n- Review fundamental concepts related to "), Slot(TopicField),
    Lit("\n\n## Phase 2: Core Concepts\n- Study the main principles of "), Slot(TopicField),
    Lit("\n- Connect it to other areas of "), Slot(SubjectField),
    Lit("\n\n## Phase 3: Application of "), Slot(TopicField),
    Lit("\n\n## Phase 4: Mastery of "), Slot(TopicField),
    Lit("\n- Explore advanced topics in "), Slot(SubjectField),
    Lit("\n\n## Resources\n- Recommended texts for "), Slot(SubjectField),
    Lit("\n\n*This roadmap provides a structured approach to mastering "), Slot(TopicField), Lit(".*")
  ]

  const DetailedNotesDoc: seq<Segment> := [
    Lit("# "), Slot(TopicField), Lit(" - Comprehensive Study Notes\n\n## 1. Introduction and Overview\n\n### Definition and Scope\n"),
    Slot(TopicField), Lit(" is a fundamental concept within "), Slot(SubjectField),
    Lit(" that encompasses key principles.\n\n"), Slot(TopicField),
    Lit(" plays a crucial role in "), Slot(SubjectField),
    Lit(".\n\n## 2. Fundamental Concepts of "), Slot(TopicField),
    Lit("\n\n## 9. Connections within "), Slot(SubjectField),
    Lit("\n\n*These comprehensive notes provide a thorough foundation for understanding "), Slot(TopicField), Lit(".*")
  ]

  const ShortNotesDoc: seq<Segment> := [
    Lit("# "), Slot(TopicField), Lit(" - Quick Reference Notes\n\n## Key Concepts\n- **Core Definition**: "),
    Slot(TopicField), Lit(" is a fundamental concept in "), Slot(SubjectField),
    Lit("\n\n## Key Relationships\n- **Connects To**: related topics in "), Slot(SubjectField),
    Lit("\n\n## Quick Self-Check\n- Can you explain "), Slot(TopicField),
    Lit(" in your own words?\n- Do you understand how it connects to other topics in "), Slot(SubjectField),
    Lit("?\n\n*Use these quick notes for rapid review of "), Slot(TopicField), Lit(".*")
  ]

  const CheatsheetDoc: seq<Segment> := [
    Lit("# "), Slot(TopicField), Lit(" - Ultimate Cheat Sheet\n\n## Quick Definitions\n**"),
    Slot(TopicField), Lit("**: Fundamental concept in "), Slot(SubjectField),
    Lit("\n\n## Quick Self-Assessment\n- Can explain "), Slot(TopicField),
    Lit(" clearly and accurately\n- Know how this connects to other topics in "), Slot(SubjectField),
    Lit("\n\n*Keep this cheat sheet handy for quick reference.*")
  ]

  /** The text given for a kind the table does not have. */
  const GenericDoc: seq<Segment> := [
    Lit("High-quality educational content for "), Slot(TopicField), Lit(" in "), Slot(SubjectField),
    Lit(". This comprehensive material covers all essential aspects of the topic with detailed explanations, practical examples, and learning strategies.")
  ]

  // ---------------------------------------------------------------------------
  // Flashcards
  // ---------------------------------------------------------------------------

  /** The ten question templates of the deck; each names the topic. */
  const CardQuestions: seq<seq<Segment>> := [
    [Lit("What is the fundamental definition of "), Slot(TopicField), Lit("?")],
    [Lit("How does "), Slot(TopicField), Lit(" relate to other concepts in "), Slot(SubjectField), Lit("?")],
    [Lit("What are the key principles governing "), Slot(TopicField), Lit("?")],
    [Lit("Describe a practical application of "), Slot(TopicField), Lit(".")],
    [Lit("What are the main components of "), Slot(TopicField), Lit("?")],
    [Lit("How would you solve a problem involving "), Slot(TopicField), Lit("?")],
    [Lit("What are common mistakes when working with "), Slot(TopicField), Lit("?")],
    [Lit("Why is "), Slot(TopicField), Lit(" important in "), Slot(SubjectField), Lit("?")],
    [Lit("What are the prerequisites for understanding "), Slot(TopicField), Lit("?")],
    [Lit("How has "), Slot(TopicField), Lit(" evolved in the field of "), Slot(SubjectField), Lit("?")]
  ]

  /** The ten answer templates, paired with the questions by position. */
  const CardAnswers: seq<seq<Segment>> := [
    [Slot(TopicField), Lit(" is a fundamental concept in "), Slot(SubjectField), Lit(" that encompasses key principles and applications.")],
    [Slot(TopicField), Lit(" serves as a foundational element that connects to multiple areas within "), Slot(SubjectField), Lit(".")],
    [Lit("The key principles include systematic analysis, practical application, theoretical understanding, and integration with related concepts in the field.")],
    [Lit("Practical applications include real-world problem-solving, industry implementations, research applications, and professional practice in various contexts.")],
    [Lit("Main components include theoretical foundations, practical applications, analytical methods, and connections to related concepts within the subject area.")],
    [Lit("Problem-solving involves systematic analysis, application of relevant principles, step-by-step methodology, and verification of results using established criteria.")],
    [Lit("Common mistakes include oversimplification, ignoring prerequisites, misapplying principles, and failing to consider practical constraints and limitations.")],
    [Slot(TopicField), Lit(" is important because it provides essential knowledge for advanced study and practical applications.")],
    [Lit("Prerequisites include understanding of basic concepts in "), Slot(SubjectField), Lit(", fundamental mathematical skills and analytical thinking.")],
    [Slot(TopicField), Lit(" has evolved through research contributions, technological advances, and integration with other fields.")]
  ]

  /** The 25-card deck: card `i` pairs question template `i mod 10` with answer template `i mod 10`. */
  function Deck(v: Values): (cards: seq<Flashcard>)
    ensures |cards| == DeckSize
  {
    seq(DeckSize, i requires 0 <= i < DeckSize =>
      Flashcard(Render(CardQuestions[i % |CardQuestions|], v), Render(CardAnswers[i % |CardAnswers|], v)))
  }

  // ---------------------------------------------------------------------------
  // Quiz
  // ---------------------------------------------------------------------------

  /**
   * The length `Array.from` takes from `testConfig?.questionCount || 15`:
   * the requested count, clamped at 0 for a negative one.
   */
  function QuizLength(tc: Option<TestConfig>): (n: nat)
    ensures tc.None? || tc.value.questionCount.None? || tc.value.questionCount == Some(0) ==> n == DefaultQuestionCount
    ensures tc.Some? && tc.value.questionCount.Some? && tc.value.questionCount.value > 0 ==> n == tc.value.questionCount.value
    ensures n == 0 <==> tc.Some? && tc.value.questionCount.Some? && tc.value.questionCount.value < 0
  {
    var c := RequestedCount(tc);
    if c < 0 then 0 else c
  }

  /** The rotation of entry types: all three for "mixed", otherwise the one requested type, "mcq" by default. */
  function QuizTypes(tc: Option<TestConfig>): (types: seq<string>)
    ensures |types| >= 1
  {
    if tc.Some? && tc.value.questionType == Some("mixed") then ["mcq", "short", "long"]
    else [OrElse(if tc.Some? then tc.value.questionType else None, "mcq")]
  }

  const McqOptions1: seq<string> := [
    "Understanding fundamental principles and applications",
    "Memorizing complex formulas and equations",
    "Learning historical facts and dates",
    "Practicing advanced mathematical calculations"]
  const McqOptions2: seq<string> := [
    "It is completely independent of other topics",
    "It serves as a foundation for advanced concepts",
    "It is only relevant for theoretical study",
    "It has no practical applications"]
  const McqOptions3: seq<string> := [
    "Memorizing all formulas without understanding",
    "Focusing only on theoretical aspects",
    "Combining theory with practical application",
    "Studying in isolation from other topics"]

  /** The question templates of the three multiple-choice entries. */
  const McqQuestions: seq<seq<Segment>> := [
    [Lit("What is the primary focus of "), Slot(TopicField), Lit(" in "), Slot(SubjectField), Lit("?")],
    [Lit("Which of the following best describes the relationship between "), Slot(TopicField),
     Lit(" and other concepts in "), Slot(SubjectField), Lit("?")],
    [Lit("What is the most effective approach to learning "), Slot(TopicField), Lit("?")]
  ]

  /** The option lists of the three multiple-choice entries. */
  const McqOptions: seq<seq<string>> := [McqOptions1, McqOptions2, McqOptions3]

  /** The position of the correct answer in each option list. */
  const McqCorrect: seq<nat> := [0, 1, 2]

  const McqExplanations: seq<string> := [
    "The primary focus is on understanding core principles and how they apply to real-world situations.",
    "This topic provides essential knowledge that supports understanding of more advanced concepts in the field.",
    "The most effective learning combines theoretical understanding with practical application and problem-solving."
  ]

  /** The question and model-answer templates of the three short-answer entries. */
  const ShortQuestions: seq<seq<Segment>> := [
    [Lit("Explain the importance of "), Slot(TopicField), Lit(" in the context of "), Slot(SubjectField), Lit(".")],
    [Lit("Describe the key principles that govern "), Slot(TopicField), Lit(".")],
    [Lit("How would you apply knowledge of "), Slot(TopicField), Lit(" to solve a practical problem?")]
  ]

  const ShortAnswers: seq<seq<Segment>> := [
    [Slot(TopicField), Lit(" is important because it provides foundational knowledge and connects to multiple areas within "),
     Slot(SubjectField), Lit(".")],
    [Lit("Key principles include systematic analysis, practical application, theoretical understanding, integration with related concepts, and evidence-based reasoning.")],
    [Lit("Application involves identifying the problem type, analyzing relevant factors, applying appropriate principles, and verifying results.")]
  ]

  const ShortExplanations: seq<string> := [
    "A good answer should demonstrate understanding of the topic's role as a foundation.",
    "The answer should show understanding of fundamental principles and their applications in the field.",
    "A strong answer demonstrates understanding of problem-solving methodology and practical application skills."
  ]

  /** `{ ...mcqQuestions[k], type }`: four options, the correct answer one of them. */
  function McqItem(v: Values, k: nat, itemType: string): (item: QuizItem)
    requires k < 3
    ensures item.options.Some? && |item.options.value| == 4 && item.correctAnswer in item.options.value
    ensures item.itemType == itemType
  {
    var options := McqOptions[k];
    QuizItem(Render(McqQuestions[k], v), Some(options), options[McqCorrect[k]], McqExplanations[k], itemType)
  }

  /** `{ ...shortQuestions[k], type }`: no options. */
  function ShortItem(v: Values, k: nat, itemType: string): (item: QuizItem)
    requires k < 3
    ensures item.options.None? && item.itemType == itemType
  {
    QuizItem(Render(ShortQuestions[k], v), None, Render(ShortAnswers[k], v), ShortExplanations[k], itemType)
  }

  /** Entry `i` of a quiz whose entry has type `itemType`. */
  function QuizEntry(v: Values, i: nat, itemType: string): QuizItem {
    if itemType == "mcq" then McqItem(v, i % 3, itemType) else ShortItem(v, i % 3, itemType)
  }

  function Quiz(v: Values, tc: Option<TestConfig>): (items: seq<QuizItem>)
    ensures |items| == QuizLength(tc)
  {
    var types := QuizTypes(tc);
    seq(QuizLength(tc), i requires 0 <= i < QuizLength(tc) => QuizEntry(v, i, types[i % |types|]))
  }

  // ---------------------------------------------------------------------------
  // The table
  // ---------------------------------------------------------------------------

  /** `getFallbackContent(contentType, topicName, subjectName, syllabus, testConfig)`; the syllabus is not used. */
  function FallbackContent(contentType: Option<string>, topic: Option<string>, subject: Option<string>,
                           tc: Option<TestConfig>): Content
  {
    var v := FallbackValues(topic, subject);
    match contentType
    case Some("flashcards") => Cards(Deck(v))
    case Some("quiz") => Questions(Quiz(v, tc))
    case _ => Document(Render(DocumentTemplate(contentType), v))
  }

  // ---------------------------------------------------------------------------
  // Properties
  // ---------------------------------------------------------------------------

  /** The kind decides the shape: a deck for flashcards, a quiz for quiz, a document otherwise. */
  lemma FallbackShape(contentType: Option<string>, topic: Option<string>, subject: Option<string>, tc: Option<TestConfig>)
    ensures FallbackContent(contentType, topic, subject, tc).Cards? <==> contentType == Some("flashcards")
    ensures FallbackContent(contentType, topic, subject, tc).Questions? <==> contentType == Some("quiz")
  {
  }

  /** Every fallback document, the generic text included, names the topic and the subject. */
  lemma DocumentNamesTopicAndSubject(contentType: Option<string>, topic: Option<string>, subject: Option<string>,
                                     tc: Option<TestConfig>)
    requires FallbackContent(contentType, topic, subject, tc).Document?
    ensures Contains(FallbackContent(contentType, topic, subject, tc).text, Show(topic))
    ensures Contains(FallbackContent(contentType, topic, subject, tc).text, Show(subject))
  {
    var v := FallbackValues(topic, subject);
    var doc := DocumentTemplate(contentType);
    assert FallbackContent(contentType, topic, subject, tc) == Document(Render(doc, v));
    RenderContains(doc, v, TopicField);
    RenderContains(doc, v, SubjectField);
  }

  /** The template behind a document kind. */
  function DocumentTemplate(contentType: Option<string>): (t: seq<Segment>)
    ensures Slot(TopicField) in t && Slot(SubjectField) in t
  {
    match contentType
    case Some("roadmap") => RoadmapDoc
    case Some("detailedNotes") => DetailedNotesDoc
    case Some("shortNotes") => ShortNotesDoc
    case Some("cheatsheet") => CheatsheetDoc
    case _ => GenericDoc
  }

  /** An unknown kind gets the generic sentence. */
  lemma UnknownKindGetsGenericText(contentType: Option<string>, topic: Option<string>, subject: Option<string>,
                                   tc: Option<TestConfig>)
    requires contentType.None? || contentType.value !in Kinds
    ensures FallbackContent(contentType, topic, subject, tc) == Document(Render(GenericDoc, FallbackValues(topic, subject)))
  {
  }

  /**
   * The deck has 25 cards; card `i` is built from question and answer
   * template `i mod 10`, so it repeats every ten cards, and every question
   * names the topic.
   */
  lemma {:induction false} DeckRotates(topic: Option<string>, subject: Option<string>, tc: Option<TestConfig>)
    ensures FallbackContent(Some("flashcards"), topic, subject, tc).Cards?
    ensures var cards := FallbackContent(Some("flashcards"), topic, subject, tc).cards;
            && |cards| == DeckSize
            && (forall i :: 0 <= i < DeckSize - 10 ==> cards[i] == cards[i + 10])
            && (forall i :: 0 <= i < DeckSize ==> Contains(cards[i].question, Show(topic)))
  {
    var v := FallbackValues(topic, subject);
    DeckIsFallback(topic, subject, tc);
    DeckPeriodic(v);
    DeckNamesTopic(v);
  }

  lemma DeckPeriodic(v: Values)
    ensures forall i :: 0 <= i < DeckSize - 10 ==> Deck(v)[i] == Deck(v)[i + 10]
  {
    var cards := Deck(v);
    forall i | 0 <= i < DeckSize - 10
      ensures cards[i] == cards[i + 10]
    {
      assert (i + 10) % 10 == i % 10;
    }
  }

  lemma DeckNamesTopic(v: Values)
    ensures forall i :: 0 <= i < DeckSize ==> Contains(Deck(v)[i].question, v.topic)
  {
    var cards := Deck(v);
    forall i | 0 <= i < DeckSize
      ensures Contains(cards[i].question, v.topic)
    {
      var k := i % 10;
      assert Slot(TopicField) in CardQuestions[k] by { QuestionsNameTopic(k); }
      RenderContains(CardQuestions[k], v, TopicField);
    }
  }

  lemma DeckIsFallback(topic: Option<string>, subject: Option<string>, tc: Option<TestConfig>)
    ensures FallbackContent(Some("flashcards"), topic, subject, tc) == Cards(Deck(FallbackValues(topic, subject)))
  {
  }

  lemma QuestionsNameTopic(k: nat)
    requires k < |CardQuestions|
    ensures Slot(TopicField) in CardQuestions[k]
  {
    assert CardQuestions[k][1] == Slot(TopicField);
  }

  /**
   * The quiz has `questionCount || 15` entries (none for a negative count).
   * Entry `i` has type `["mcq","short","long"][i mod 3]` for "mixed" and
   * `type || "mcq"` otherwise; multiple-choice entries carry four options
   * that include the correct answer, every other type is built from the
   * short-answer templates and carries no options.
   */
  lemma QuizRotates(topic: Option<string>, subject: Option<string>, tc: Option<TestConfig>)
    ensures FallbackContent(Some("quiz"), topic, subject, tc).Questions?
    ensures var items := FallbackContent(Some("quiz"), topic, subject, tc).items;
            && |items| == QuizLength(tc)
            && (forall i :: 0 <= i < |items| ==>
                  items[i].itemType == (if tc.Some? && tc.value.questionType == Some("mixed")
                                        then ["mcq", "short", "long"][i % 3]
                                        else OrElse(if tc.Some? then tc.value.questionType else None, "mcq")))
            && (forall i :: 0 <= i < |items| && items[i].itemType == "mcq" ==>
                  items[i].options.Some? && |items[i].options.value| == 4
                  && items[i].correctAnswer in items[i].options.value)
            && (forall i :: 0 <= i < |items| && items[i].itemType != "mcq" ==>
                  items[i] == ShortItem(FallbackValues(topic, subject), i % 3, items[i].itemType))
  {
    QuizIsFallback(topic, subject, tc);
    QuizShape(FallbackValues(topic, subject), tc);
  }

  lemma QuizShape(v: Values, tc: Option<TestConfig>)
    ensures var items := Quiz(v, tc);
            && (forall i :: 0 <= i < |items| ==>
                  items[i].itemType == (if tc.Some? && tc.value.questionType == Some("mixed")
                                        then ["mcq", "short", "long"][i % 3]
                                        else OrElse(if tc.Some? then tc.value.questionType else None, "mcq")))
            && (forall i :: 0 <= i < |items| && items[i].itemType == "mcq" ==>
                  items[i].options.Some? && |items[i].options.value| == 4
                  && items[i].correctAnswer in items[i].options.value)
            && (forall i :: 0 <= i < |items| && items[i].itemType != "mcq" ==>
                  items[i] == ShortItem(v, i % 3, items[i].itemType))
  {
    var items := Quiz(v, tc);
    var types := QuizTypes(tc);
    forall i | 0 <= i < |items|
      ensures items[i] == QuizEntry(v, i, types[i % |types|])
    {
    }
  }

  lemma QuizIsFallback(topic: Option<string>, subject: Option<string>, tc: Option<TestConfig>)
    ensures FallbackContent(Some("quiz"), topic, subject, tc) == Questions(Quiz(FallbackValues(topic, subject), tc))
  {
  }
}
