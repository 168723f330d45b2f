/**
 * A worked syllabus: two capitalised headings, each followed by two
 * sentence-case lines, becomes two numbered topics with two subtopics each.
 */
module SyllabusExample {
  import opened Wrappers
  import opened Text
  import opened SyllabusOutline

  const Algebra := "ALGEBRA"
  const Linear := "Solving linear equations carefully"
  const Quadratic := "Quadratic formula applications"
  const Geometry := "GEOMETRY"
  const Triangles := "Triangle congruence theorems in detail"
  const Circles := "Circle properties and tangents"

  /** The six lines joined by line feeds. */
  function Joined(h1: string, a1: string, b1: string, h2: string, a2: string, b2: string): string {
    h1 + "\n" + (a1 + "\n" + (b1 + "\n" + (h2 + "\n" + (a2 + "\n" + b2))))
  }

  /** A trimmed single line that opens a topic named by the whole line. */
  predicate HeadLine(s: string) {
    '\n' !in s && Trim(s) == s && |s| >= MinLineLength && IsHeading(s) && HeadingName(s) == s
  }

  /** A trimmed single line, long enough and not a heading, that becomes a subtopic named by the whole line. */
  predicate BodyLine(s: string) {
    '\n' !in s && Trim(s) == s && |s| > MinSubtopicLength && !IsHeading(s) && BulletName(s) == s
  }

  /** A string with no whitespace at either end is its own trim. */
  lemma TrimmedAlready(s: string)
    requires s != [] && !IsSpace(s[0]) && !IsSpace(s[|s| - 1])
    ensures Trim(s) == s
  {
    assert LeadingSpaces(s) == 0;
  }

  /** A capitalised word followed by a space and a lower-case letter is not Title Case. */
  lemma SecondWordLower(t: string, n: nat)
    requires 2 <= n && n + 1 < |t| && IsUpper(t[0]) && t[n] == ' ' && IsLower(t[n + 1]) && t[|t| - 1] != ':'
    requires forall i :: 1 <= i < n ==> IsLower(t[i])
    ensures !IsTitleCase(t)
  {
    assert DropColon(t) == t;
    assert LeadingLower(t[1..]) == n - 1;
    assert !TitleWords(t[n + 1..]) by {
      assert t[n + 1..][0] == t[n + 1];
    }
  }

  /**
   * Any syllabus of two heading lines, each followed by two subtopic lines,
   * yields two topics numbered 1 and 2 with subtopics numbered 1 and 2.
   */
  lemma TwoSections(h1: string, a1: string, b1: string, h2: string, a2: string, b2: string)
    requires HeadLine(h1) && BodyLine(a1) && BodyLine(b1) && HeadLine(h2) && BodyLine(a2) && BodyLine(b2)
    requires |Joined(h1, a1, b1, h2, a2, b2)| >= MinSyllabusLength
    ensures ExtractTopics(Some(Joined(h1, a1, b1, h2, a2, b2))) == TwoTopics(h1, a1, b1, h2, a2, b2)
  {
    SixLines(h1, a1, b1, h2, a2, b2);
    SectionSteps(Start, h1, a1, b1);
    SectionSteps(Section(Start, h1, a1, b1), h2, a2, b2);
    FoldSections(h1, a1, b1, h2, a2, b2);
    ExtractFromLines(Joined(h1, a1, b1, h2, a2, b2), [h1] + ([a1] + ([b1] + ([h2] + ([a2] + ([b2] + []))))),
                     TwoTopics(h1, a1, b1, h2, a2, b2));
  }

  /** Folding over the six lines, once each line is known to take its step, ends in the two sections. */
  lemma FoldSections(h1: string, a1: string, b1: string, h2: string, a2: string, b2: string)
    requires SectionStepsHold(Start, h1, a1, b1) && SectionStepsHold(Section(Start, h1, a1, b1), h2, a2, b2)
    ensures Topics(Fold(Start, [h1] + ([a1] + ([b1] + ([h2] + ([a2] + ([b2] + []))))))) == TwoTopics(h1, a1, b1, h2, a2, b2)
  {
    var p2 := Section(Start, h1, a1, b1);
    FoldThree(Start, h1, a1, b1, [h2] + ([a2] + ([b2] + [])));
    FoldThree(p2, h2, a2, b2, []);
    TwoSectionTopics(h1, a1, b1, h2, a2, b2);
  }

  /** A syllabus long enough whose lines fold to at most six topics yields those topics. */
  lemma ExtractFromLines(text: string, lines: seq<string>, topics: seq<Topic>)
    requires |text| >= MinSyllabusLength && Lines(text) == lines
    requires Topics(Fold(Start, lines)) == topics && |topics| <= MaxTopics
    ensures ExtractTopics(Some(text)) == topics
  {
    FirstSixShort(topics);
  }

  lemma TwoSectionTopics(h1: string, a1: string, b1: string, h2: string, a2: string, b2: string)
    ensures Topics(Fold(Section(Section(Start, h1, a1, b1), h2, a2, b2), [])) == TwoTopics(h1, a1, b1, h2, a2, b2)
  {
    var t1 := Topic(TopicId(1), h1, false, [Subtopic(SubtopicId(1, 1), a1, false), Subtopic(SubtopicId(1, 2), b1, false)]);
    var t2 := Topic(TopicId(2), h2, false, [Subtopic(SubtopicId(2, 1), a2, false), Subtopic(SubtopicId(2, 2), b2, false)]);
    var p2 := Section(Start, h1, a1, b1);
    assert OpenTopic(Start, h1) == Progress([], Some(Topic(TopicId(1), h1, false, [])), 2, 1);
    var s11, s12 := Subtopic(SubtopicId(1, 1), a1, false), Subtopic(SubtopicId(1, 2), b1, false);
    assert [] + [s11] == [s11] && [s11] + [s12] == [s11, s12];
    assert p2 == Progress([], Some(t1), 2, 3);
    assert OpenTopic(p2, h2) == Progress([t1], Some(Topic(TopicId(2), h2, false, [])), 3, 1);
    var s21, s22 := Subtopic(SubtopicId(2, 1), a2, false), Subtopic(SubtopicId(2, 2), b2, false);
    assert [] + [s21] == [s21] && [s21] + [s22] == [s21, s22];
    assert Section(p2, h2, a2, b2) == Progress([t1], Some(t2), 3, 3);
  }

  lemma FirstSixShort(ts: seq<Topic>)
    requires |ts| <= MaxTopics
    ensures FirstSix(ts) == ts
  {
  }

  /** Topics 1 and 2, each with subtopics 1 and 2, named by the six lines. */
  function TwoTopics(h1: string, a1: string, b1: string, h2: string, a2: string, b2: string): seq<Topic> {
    [Topic(TopicId(1), h1, false, [Subtopic(SubtopicId(1, 1), a1, false), Subtopic(SubtopicId(1, 2), b1, false)]),
     Topic(TopicId(2), h2, false, [Subtopic(SubtopicId(2, 1), a2, false), Subtopic(SubtopicId(2, 2), b2, false)])]
  }

  /** The three lines of a section take the heading step and then two subtopic steps. */
  lemma SectionSteps(p: Progress, h: string, a: string, b: string)
    requires p.topicCounter >= 1 && HeadLine(h) && BodyLine(a) && BodyLine(b)
    ensures SectionStepsHold(p, h, a, b)
  {
    StepHead(p, h);
    StepBody(OpenTopic(p, h), a);
    StepBody(AddSubtopic(OpenTopic(p, h), a), b);
  }

  /** A heading line followed by two subtopic lines. */
  function Section(p: Progress, h: string, a: string, b: string): Progress
    requires p.topicCounter >= 1
  {
    AddSubtopic(AddSubtopic(OpenTopic(p, h), a), b)
  }

  /** A heading step and then two subtopic steps. */
  predicate SectionStepsHold(p: Progress, h: string, a: string, b: string)
    requires p.topicCounter >= 1
  {
    && Step(p, h) == OpenTopic(p, h)
    && Step(OpenTopic(p, h), a) == AddSubtopic(OpenTopic(p, h), a)
    && Step(AddSubtopic(OpenTopic(p, h), a), b) == AddSubtopic(AddSubtopic(OpenTopic(p, h), a), b)
  }

  lemma FoldThree(p: Progress, h: string, a: string, b: string, rest: seq<string>)
    requires p.topicCounter >= 1 && SectionStepsHold(p, h, a, b)
    ensures Fold(p, [h] + ([a] + ([b] + rest))) == Fold(Section(p, h, a, b), rest)
  {
    var q1 := OpenTopic(p, h);
    var q2 := AddSubtopic(q1, a);
    FoldCons(p, h, [a] + ([b] + rest));
    FoldCons(q1, a, [b] + rest);
    FoldCons(q2, b, rest);
  }

  lemma FoldCons(p: Progress, line: string, rest: seq<string>)
    requires p.topicCounter >= 1
    ensures Fold(p, [line] + rest) == Fold(Step(p, line), rest)
  {
    assert ([line] + rest)[1..] == rest;
  }

  lemma StepHead(p: Progress, h: string)
    requires p.topicCounter >= 1 && HeadLine(h)
    ensures Step(p, h) == OpenTopic(p, h)
  {
  }

  lemma StepBody(p: Progress, a: string)
    requires p.topicCounter >= 1 && p.current.Some? && BodyLine(a)
    ensures Step(p, a) == AddSubtopic(p, a)
  {
  }

  /** Splitting the joined text gives back the six lines, none of them blank. */
  lemma SixLines(h1: string, a1: string, b1: string, h2: string, a2: string, b2: string)
    requires HeadLine(h1) && BodyLine(a1) && BodyLine(b1) && HeadLine(h2) && BodyLine(a2) && BodyLine(b2)
    ensures Lines(Joined(h1, a1, b1, h2, a2, b2)) == [h1] + ([a1] + ([b1] + ([h2] + ([a2] + ([b2] + [])))))
  {
    SixSplit(h1, a1, b1, h2, a2, b2);
    SixNonBlank(h1, a1, b1, h2, a2, b2);
  }

  lemma SixSplit(h1: string, a1: string, b1: string, h2: string, a2: string, b2: string)
    requires '\n' !in h1 && '\n' !in a1 && '\n' !in b1 && '\n' !in h2 && '\n' !in a2 && '\n' !in b2
    ensures Split(Joined(h1, a1, b1, h2, a2, b2), '\n') == [h1] + ([a1] + ([b1] + ([h2] + ([a2] + ([b2] + [])))))
  {
    assert Split(b2, '\n') == [b2] + [];
    SplitCons(a2, '\n', b2);
    SplitCons(h2, '\n', a2 + "\n" + b2);
    SplitCons(b1, '\n', h2 + "\n" + (a2 + "\n" + b2));
    SplitCons(a1, '\n', b1 + "\n" + (h2 + "\n" + (a2 + "\n" + b2)));
    SplitCons(h1, '\n', a1 + "\n" + (b1 + "\n" + (h2 + "\n" + (a2 + "\n" + b2))));
  }

  lemma SixNonBlank(h1: string, a1: string, b1: string, h2: string, a2: string, b2: string)
    requires Trim(h1) != [] && Trim(a1) != [] && Trim(b1) != [] && Trim(h2) != [] && Trim(a2) != [] && Trim(b2) != []
    ensures var ls := [h1] + ([a1] + ([b1] + ([h2] + ([a2] + ([b2] + []))))); NonBlank(ls) == ls
  {
    NonBlankCons(b2, []);
    NonBlankCons(a2, [b2] + []);
    NonBlankCons(h2, [a2] + ([b2] + []));
    NonBlankCons(b1, [h2] + ([a2] + ([b2] + [])));
    NonBlankCons(a1, [b1] + ([h2] + ([a2] + ([b2] + []))));
    NonBlankCons(h1, [a1] + ([b1] + ([h2] + ([a2] + ([b2] + [])))));
  }

  lemma NonBlankCons(x: string, rest: seq<string>)
    requires Trim(x) != []
    ensures NonBlank([x] + rest) == [x] + NonBlank(rest)
  {
    assert ([x] + rest)[1..] == rest;
  }

  lemma AlgebraLine()
    ensures HeadLine(Algebra)
  {
    TrimmedAlready(Algebra);
    assert IsAllCaps(Algebra);
  }

  lemma GeometryLine()
    ensures HeadLine(Geometry)
  {
    TrimmedAlready(Geometry);
    assert IsAllCaps(Geometry);
  }

  /** A sentence-case line: a capitalised word, a space, then a lower-case letter. */
  lemma SentenceLine(t: string, n: nat)
    requires '\n' !in t && |t| > MinSubtopicLength && !IsSpace(t[|t| - 1]) && t[|t| - 1] != ':'
    requires 2 <= n && n + 1 < |t| && IsUpper(t[0]) && t[n] == ' ' && IsLower(t[n + 1])
    requires forall i :: 1 <= i < n ==> IsLower(t[i])
    ensures BodyLine(t)
  {
    TrimmedAlready(t);
    SecondWordLower(t, n);
    assert !IsDigit(t[0]);
    assert !IsUpper(t[1]) && !IsSpace(t[1]);
  }

  lemma LinearLine()
    ensures BodyLine(Linear)
  {
    SentenceLine(Linear, 7);
  }

  lemma QuadraticLine()
    ensures BodyLine(Quadratic)
  {
    SentenceLine(Quadratic, 9);
  }

  lemma TrianglesLine()
    ensures BodyLine(Triangles)
  {
    SentenceLine(Triangles, 8);
  }

  lemma CirclesLine()
    ensures BodyLine(Circles)
  {
    SentenceLine(Circles, 6);
  }

  lemma SmallIds()
    ensures TopicId(1) == "topic1" && TopicId(2) == "topic2"
    ensures SubtopicId(1, 1) == "topic1-1" && SubtopicId(1, 2) == "topic1-2"
    ensures SubtopicId(2, 1) == "topic2-1" && SubtopicId(2, 2) == "topic2-2"
  {
    assert NatToString(1) == "1" && NatToString(2) == "2";
  }

  /**
   * The ALGEBRA / GEOMETRY syllabus: `topic1` "ALGEBRA" with `topic1-1` and
   * `topic1-2`, then `topic2` "GEOMETRY" with `topic2-1` and `topic2-2`.
   */
  lemma SampleExtraction()
    ensures ExtractTopics(Some(Joined(Algebra, Linear, Quadratic, Geometry, Triangles, Circles))) == [
              Topic("topic1", "ALGEBRA", false,
                    [Subtopic("topic1-1", "Solving linear equations carefully", false),
                     Subtopic("topic1-2", "Quadratic formula applications", false)]),
              Topic("topic2", "GEOMETRY", false,
                    [Subtopic("topic2-1", "Triangle congruence theorems in detail", false),
                     Subtopic("topic2-2", "Circle properties and tangents", false)])]
  {
    AlgebraLine();
    LinearLine();
    QuadraticLine();
    GeometryLine();
    TrianglesLine();
    CirclesLine();
    SmallIds();
    TwoSections(Algebra, Linear, Quadratic, Geometry, Triangles, Circles);
  }
}
