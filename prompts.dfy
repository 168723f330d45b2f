/**
 * `getPromptForContentType` of the content route: a table of six template
 * literals, one per content kind, built in full on every call and then
 * indexed by the requested kind.
 *
 * Request fields are `Option`s because the JSON body may omit them; a
 * missing string interpolates as "undefined". The prose between slots is
 * abbreviated; the slots, their order and the conditional blocks of the quiz
 * template are as in the route.
 */
module ContentPrompts {
  import opened Wrappers
  import opened Text
  import opened Template

  /** The `testConfig` object of a request: its `type` and `questionCount` members. */
  datatype TestConfig = TestConfig(questionType: Option<string>, questionCount: Option<int>)

  /** What the builder gives: a prompt, `null` for an unknown kind, or the TypeError the eager table throws. */
  datatype PromptResult = Prompt(text: string) | NoPrompt | TypeError

  /** The six content kinds the table has entries for. */
  const Kinds: seq<string> := ["roadmap", "detailedNotes", "shortNotes", "flashcards", "cheatsheet", "quiz"]

  const DefaultSyllabus := "Standard curriculum"
  const DefaultQuestionCount := 15

  /** `${x}` for a string member that may be missing. */
  function Show(x: Option<string>): (r: string)
    ensures x.Some? ==> r == x.value
    ensures x.None? ==> r == "undefined"
  {
    match x
    case Some(s) => s
    case None => "undefined"
  }

  /** `${n}` for a numeric member that may be missing. */
  function ShowCount(n: Option<int>): string {
    match n
    case Some(k) => IntToString(k)
    case None => "undefined"
  }

  /** `testConfig?.questionCount || 15`: a missing config, a missing count and 0 all give 15. */
  function RequestedCount(tc: Option<TestConfig>): (n: int)
    ensures n == DefaultQuestionCount <==>
              (tc.None? || tc.value.questionCount.None? || tc.value.questionCount.value in {0, DefaultQuestionCount})
    ensures n != DefaultQuestionCount ==> tc.Some? && tc.value.questionCount == Some(n)
  {
    if tc.Some? && tc.value.questionCount.Some? && tc.value.questionCount.value != 0
    then tc.value.questionCount.value
    else DefaultQuestionCount
  }

  /**
   * Building the quiz entry evaluates `testConfig.type.toUpperCase()` whenever
   * `testConfig` is present and its type is not "mixed"; a missing type throws.
   */
  predicate ThrowsTypeError(tc: Option<TestConfig>) {
    tc.Some? && tc.value.questionType.None?
  }

  /** The label of the "Question Type" line: "Mixed (MCQ, Short, Long)" or the upper-cased type. */
  function QuestionTypeLabel(cfg: TestConfig): (r: string)
    requires cfg.questionType.Some?
    ensures cfg.questionType != Some("mixed") ==> r == ToUpper(cfg.questionType.value)
  {
    if cfg.questionType == Some("mixed") then "Mixed (MCQ, Short, Long)" else ToUpper(cfg.questionType.value)
  }

  /** The "Test Configuration" block of the quiz prompt: present exactly when `testConfig` is. */
  function ConfigBlock(tc: Option<TestConfig>): (r: string)
    requires !ThrowsTypeError(tc)
    ensures tc.None? <==> r == ""
    ensures tc.Some? ==> Contains(r, QuestionTypeLabel(tc.value)) && Contains(r, ShowCount(tc.value.questionCount))
  {
    if tc.None? then ""
    else
      var a := "\nTest Configuration:\n- Question Type: ";
      var typeLabel := QuestionTypeLabel(tc.value);
      var b := "\n- Number of Questions: ";
      var count := ShowCount(tc.value.questionCount);
      var r := a + typeLabel + b + count + "\n";
      assert Contains(r, typeLabel) by {
        ContainsInfix(a, typeLabel, b + count + "\n");
        assert a + typeLabel + (b + count + "\n") == r;
      }
      assert Contains(r, count) by {
        ContainsInfix(a + typeLabel + b, count, "\n");
      }
      r
  }

  const MixedInstruction := "\nInclude:\n- 60% multiple choice questions (type: \"mcq\") with 4 options each\n- 30% short answer questions (type: \"short\")\n- 10% long answer questions (type: \"long\")\n"
  const McqInstruction := "\nCreate ONLY multiple choice questions (type: \"mcq\") with 4 options each.\n"
  const ShortInstruction := "\nCreate ONLY short answer questions (type: \"short\").\n"
  const LongInstruction := "\nCreate ONLY long answer questions (type: \"long\").\n"

  /** The type-specific instruction block of the quiz prompt, chosen by `testConfig?.type`. */
  function TypeBlock(tc: Option<TestConfig>): (r: string)
    ensures r != "" <==> tc.Some? && tc.value.questionType in {Some("mixed"), Some("mcq"), Some("short"), Some("long")}
    ensures tc.Some? && tc.value.questionType == Some("mcq") ==> r == McqInstruction
  {
    if tc.None? then ""
    else
      match tc.value.questionType
      case Some("mixed") => MixedInstruction
      case Some("mcq") => McqInstruction
      case Some("short") => ShortInstruction
      case Some("long") => LongInstruction
      case _ => ""
  }

  // ---------------------------------------------------------------------------
  // The six templates (prose abbreviated)
  // ---------------------------------------------------------------------------

  const RoadmapTemplate: seq<Segment> := [
    Lit("You are an expert educational content creator. Create a comprehensive, detailed learning roadmap for \""),
    Slot(TopicField), Lit("\" in the subject \""), Slot(SubjectField),
    Lit("\".\n\nContext: This is for a student learning about "), Slot(TopicField),
    Lit(" as part of their "), Slot(SubjectField),
    Lit(" studies.\n\n# Learning Roadmap: "), Slot(TopicField),
    Lit("\n\n## Phase 2: Core Learning\n- Break down the core concepts of "), Slot(TopicField),
    Lit(" into digestible parts\n\n## Phase 3: Advanced Application\n- Cover advanced aspects of "), Slot(TopicField),
    Lit("\n- Connect to broader concepts in "), Slot(SubjectField),
    Lit("\n- Show how "), Slot(TopicField),
    Lit(" connects to other topics\n\nGenerate this roadmap now. Base the content on standard educational approaches for "),
    Slot(TopicField), Lit(" in "), Slot(SubjectField), Lit(".")
  ]

  const DetailedNotesTemplate: seq<Segment> := [
    Lit("Generate extremely comprehensive, in-depth educational notes for \""), Slot(TopicField),
    Lit("\" in \""), Slot(SubjectField),
    Lit("\".\n\nBase your content EXACTLY on this syllabus: "), Slot(SyllabusField),
    Lit("\n\nCreate detailed notes covering EVERY aspect mentioned in the syllabus.\n\n# "), Slot(TopicField),
    Lit(" - Comprehensive Detailed Notes\n")
  ]

  const ShortNotesTemplate: seq<Segment> := [
    Lit("Create concise but comprehensive bullet-point notes for \""), Slot(TopicField),
    Lit("\" in \""), Slot(SubjectField),
    Lit("\".\n\nBase your content EXACTLY on this syllabus: "), Slot(SyllabusField),
    Lit("\n\nFormat as:\n# "), Slot(TopicField), Lit(" - Quick Reference Notes\n")
  ]

  const FlashcardsTemplate: seq<Segment> := [
    Lit("Create 25-30 comprehensive flashcards covering the ENTIRE syllabus for \""), Slot(TopicField),
    Lit("\" in \""), Slot(SubjectField),
    Lit("\".\n\nBase your content EXACTLY on this syllabus: "), Slot(SyllabusField),
    Lit("\n\nReturn ONLY a valid JSON array of {\"question\", \"answer\"} objects.")
  ]

  const CheatsheetTemplate: seq<Segment> := [
    Lit("Create a visually appealing, comprehensive cheat sheet for \""), Slot(TopicField),
    Lit("\" in \""), Slot(SubjectField),
    Lit("\".\n\nBase your content EXACTLY on this syllabus: "), Slot(SyllabusField),
    Lit("\n\n# Cheat Sheet: "), Slot(TopicField), Lit(" - Ultimate Cheat Sheet\n")
  ]

  const QuizTemplate: seq<Segment> := [
    Lit("Create a comprehensive quiz with "), Slot(CountField),
    Lit(" questions for \""), Slot(TopicField), Lit("\" in \""), Slot(SubjectField), Lit("\".\n\n"),
    Slot(ConfigField),
    Lit("\n\nBase your content EXACTLY on this syllabus: "), Slot(SyllabusField),
    Lit("\n\nReturn ONLY a valid JSON array of question objects.\n\n"),
    Slot(TypeField),
    Lit("\n\nEnsure comprehensive coverage with exactly "), Slot(CountField), Lit(" high-quality questions.")
  ]

  /** The table lookup `prompts[contentType]`. */
  function TemplateFor(kind: string): (r: Option<seq<Segment>>)
    ensures r.Some? <==> kind in Kinds
    ensures r.Some? ==> Slot(TopicField) in r.value && Slot(SubjectField) in r.value
    ensures r.Some? && kind != "roadmap" ==> Slot(SyllabusField) in r.value
    ensures kind == "roadmap" ==> r == Some(RoadmapTemplate) && Slot(SyllabusField) !in RoadmapTemplate
    ensures kind == "quiz" ==> r == Some(QuizTemplate)
  {
    match kind
    case "roadmap" => Some(RoadmapTemplate)
    case "detailedNotes" => Some(DetailedNotesTemplate)
    case "shortNotes" => Some(ShortNotesTemplate)
    case "flashcards" => Some(FlashcardsTemplate)
    case "cheatsheet" => Some(CheatsheetTemplate)
    case "quiz" => Some(QuizTemplate)
    case _ => None
  }

  /** The values the table interpolates (only computed when the table does not throw). */
  function PromptValues(topic: Option<string>, subject: Option<string>, syllabus: Option<string>, tc: Option<TestConfig>): Values
    requires !ThrowsTypeError(tc)
  {
    Values(Show(topic), Show(subject), OrElse(syllabus, DefaultSyllabus),
           IntToString(RequestedCount(tc)), ConfigBlock(tc), TypeBlock(tc))
  }

  /** `getPromptForContentType(contentType, topicName, subjectName, syllabus, testConfig)`. */
  function PromptForContentType(contentType: Option<string>, topic: Option<string>, subject: Option<string>,
                                syllabus: Option<string>, tc: Option<TestConfig>): (r: PromptResult)
  {
    if ThrowsTypeError(tc) then TypeError
    else if contentType.None? || TemplateFor(contentType.value).None? then NoPrompt
    else Prompt(Render(TemplateFor(contentType.value).value, PromptValues(topic, subject, syllabus, tc)))
  }

  // ---------------------------------------------------------------------------
  // Properties
  // ---------------------------------------------------------------------------

  /**
   * The builder's three outcomes: it throws for every kind when `testConfig`
   * is present without a type (the table is built before it is indexed);
   * otherwise it gives `null` exactly for kinds outside the table.
   */
  lemma PromptOutcomes(contentType: Option<string>, topic: Option<string>, subject: Option<string>,
                       syllabus: Option<string>, tc: Option<TestConfig>)
    ensures PromptForContentType(contentType, topic, subject, syllabus, tc).TypeError?
            <==> tc.Some? && tc.value.questionType.None?
    ensures PromptForContentType(contentType, topic, subject, syllabus, tc).NoPrompt?
            <==> !ThrowsTypeError(tc) && (contentType.None? || contentType.value !in Kinds)
  {
  }

  /** Every prompt names the topic and the subject verbatim. */
  lemma PromptNamesTopicAndSubject(contentType: Option<string>, topic: Option<string>, subject: Option<string>,
                                   syllabus: Option<string>, tc: Option<TestConfig>)
    requires PromptForContentType(contentType, topic, subject, syllabus, tc).Prompt?
    ensures Contains(PromptForContentType(contentType, topic, subject, syllabus, tc).text, Show(topic))
    ensures Contains(PromptForContentType(contentType, topic, subject, syllabus, tc).text, Show(subject))
  {
    var t := TemplateFor(contentType.value).value;
    var v := PromptValues(topic, subject, syllabus, tc);
    RenderContains(t, v, TopicField);
    RenderContains(t, v, SubjectField);
  }

  /** The five non-roadmap prompts embed the syllabus, or "Standard curriculum" when it is empty or missing. */
  lemma PromptEmbedsSyllabus(contentType: Option<string>, topic: Option<string>, subject: Option<string>,
                             syllabus: Option<string>, tc: Option<TestConfig>)
    requires PromptForContentType(contentType, topic, subject, syllabus, tc).Prompt?
    requires contentType != Some("roadmap")
    ensures Contains(PromptForContentType(contentType, topic, subject, syllabus, tc).text,
                     if syllabus.Some? && syllabus.value != "" then syllabus.value else DefaultSyllabus)
  {
    var v := PromptValues(topic, subject, syllabus, tc);
    PromptIsRendered(contentType, topic, subject, syllabus, tc);
    RenderContains(TemplateFor(contentType.value).value, v, SyllabusField);
  }

  /** The roadmap prompt does not depend on the syllabus at all. */
  lemma RoadmapIgnoresSyllabus(topic: Option<string>, subject: Option<string>,
                               syllabus1: Option<string>, syllabus2: Option<string>, tc: Option<TestConfig>)
    ensures PromptForContentType(Some("roadmap"), topic, subject, syllabus1, tc)
         == PromptForContentType(Some("roadmap"), topic, subject, syllabus2, tc)
  {
    if !ThrowsTypeError(tc) {
      var v1 := PromptValues(topic, subject, syllabus1, tc);
      var v2 := PromptValues(topic, subject, syllabus2, tc);
      assert v1.topic == v2.topic && v1.subject == v2.subject;
      RoadmapSlots(v1, v2);
      PromptIsRendered(Some("roadmap"), topic, subject, syllabus1, tc);
      PromptIsRendered(Some("roadmap"), topic, subject, syllabus2, tc);
    }
  }

  lemma PromptIsRendered(contentType: Option<string>, topic: Option<string>, subject: Option<string>,
                         syllabus: Option<string>, tc: Option<TestConfig>)
    requires !ThrowsTypeError(tc) && contentType.Some? && TemplateFor(contentType.value).Some?
    ensures PromptForContentType(contentType, topic, subject, syllabus, tc)
         == Prompt(Render(TemplateFor(contentType.value).value, PromptValues(topic, subject, syllabus, tc)))
  {
  }

  lemma RoadmapSlots(v1: Values, v2: Values)
    requires v1.topic == v2.topic && v1.subject == v2.subject
    ensures Render(RoadmapTemplate, v1) == Render(RoadmapTemplate, v2)
  {
    forall f | Slot(f) in RoadmapTemplate
      ensures Value(v1, f) == Value(v2, f)
    {
      assert f == TopicField || f == SubjectField;
    }
    RenderIgnores(RoadmapTemplate, v1, v2);
  }

  /**
   * The quiz prompt asks for `questionCount || 15` questions, carries the
   * configuration block whenever `testConfig` is present (whose count line
   * shows the raw `questionCount`, "undefined" when missing), and the
   * type-specific instruction.
   */
  lemma QuizPromptContents(topic: Option<string>, subject: Option<string>, syllabus: Option<string>, tc: Option<TestConfig>)
    requires !ThrowsTypeError(tc)
    ensures PromptForContentType(Some("quiz"), topic, subject, syllabus, tc).Prompt?
    ensures Contains(PromptForContentType(Some("quiz"), topic, subject, syllabus, tc).text, IntToString(RequestedCount(tc)))
    ensures tc.Some? ==> Contains(PromptForContentType(Some("quiz"), topic, subject, syllabus, tc).text,
                                  ShowCount(tc.value.questionCount))
    ensures Contains(PromptForContentType(Some("quiz"), topic, subject, syllabus, tc).text, TypeBlock(tc))
  {
    var v := PromptValues(topic, subject, syllabus, tc);
    QuizIsRendered(topic, subject, syllabus, tc);
    QuizSlots(v);
    if tc.Some? {
      ContainsTrans(Render(QuizTemplate, v), v.config, ShowCount(tc.value.questionCount));
    }
  }

  lemma QuizIsRendered(topic: Option<string>, subject: Option<string>, syllabus: Option<string>, tc: Option<TestConfig>)
    requires !ThrowsTypeError(tc)
    ensures PromptForContentType(Some("quiz"), topic, subject, syllabus, tc)
         == Prompt(Render(QuizTemplate, PromptValues(topic, subject, syllabus, tc)))
  {
    assert TemplateFor("quiz") == Some(QuizTemplate);
    PromptIsRendered(Some("quiz"), topic, subject, syllabus, tc);
  }

  lemma QuizSlots(v: Values)
    ensures Contains(Render(QuizTemplate, v), v.count)
    ensures Contains(Render(QuizTemplate, v), v.config)
    ensures Contains(Render(QuizTemplate, v), v.typeBlock)
  {
    RenderContains(QuizTemplate, v, CountField);
    RenderContains(QuizTemplate, v, ConfigField);
    RenderContains(QuizTemplate, v, TypeField);
  }

  /** Without a `testConfig` the quiz prompt has no configuration block and no type instruction. */
  lemma QuizPromptWithoutConfig(topic: Option<string>, subject: Option<string>, syllabus: Option<string>)
    ensures PromptForContentType(Some("quiz"), topic, subject, syllabus, None)
         == Prompt(Render(QuizTemplate, Values(Show(topic), Show(subject), OrElse(syllabus, DefaultSyllabus), "15", "", "")))
  {
    QuizIsRendered(topic, subject, syllabus, None);
    NoConfigValues(topic, subject, syllabus);
  }

  lemma NoConfigValues(topic: Option<string>, subject: Option<string>, syllabus: Option<string>)
    ensures PromptValues(topic, subject, syllabus, None)
         == Values(Show(topic), Show(subject), OrElse(syllabus, DefaultSyllabus), "15", "", "")
  {
    assert IntToString(15) == "15" by {
      assert NatToString(15) == NatToString(1) + [DigitChar(5)];
    }
  }
}
