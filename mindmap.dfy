/**
 * `generateFallbackMindMap` of the syllabus route: the outline extracted from
 * the syllabus when there is one, otherwise one of three fixed outlines chosen
 * by keywords in the lower-cased syllabus.
 */
module MindMapFallback {
  import opened Wrappers
  import opened Text
  import opened SyllabusOutline

  /** A fixed topic whose subtopics are numbered `<id>-1`, `<id>-2`, … */
  function Section(id: string, name: string, kids: seq<string>): (t: Topic)
    ensures t.id == id && !t.isCompleted && |t.children| == |kids|
    ensures forall j :: 0 <= j < |kids| ==>
              t.children[j].id == id + "-" + NatToString(j + 1) && !t.children[j].isCompleted
  {
    Topic(id, name, false, seq(|kids|, j requires 0 <= j < |kids| => Subtopic(id + "-" + NatToString(j + 1), kids[j], false)))
  }

  /** One fixed topic as written in the source: its id, its name and its subtopics' names. */
  datatype SectionSpec = SectionSpec(id: string, name: string, kids: seq<string>)

  function Build(specs: seq<SectionSpec>): (m: seq<Topic>)
    ensures |m| == |specs|
    ensures forall k :: 0 <= k < |specs| ==> m[k] == Section(specs[k].id, specs[k].name, specs[k].kids)
  {
    seq(|specs|, k requires 0 <= k < |specs| => Section(specs[k].id, specs[k].name, specs[k].kids))
  }

  /** The topic ids of a fixed outline are distinct and contain no dash. */
  ghost predicate GoodIds(specs: seq<SectionSpec>) {
    && (forall k1, k2 :: 0 <= k1 < |specs| && 0 <= k2 < |specs| && specs[k1].id == specs[k2].id ==> k1 == k2)
    && forall k :: 0 <= k < |specs| ==> '-' !in specs[k].id
  }

  lemma BuildSectioned(specs: seq<SectionSpec>)
    requires GoodIds(specs)
    ensures Sectioned(Build(specs)) && AllOpen(Build(specs))
  {
  }

  const MathSections: seq<SectionSpec> := [
    SectionSpec("fundamentals", "Mathematical Fundamentals",
            ["Basic Concepts and Definitions", "Number Systems and Operations", "Algebraic Expressions",
             "Equations and Inequalities"]),
    SectionSpec("functions", "Functions and Graphs",
            ["Function Concepts", "Linear and Quadratic Functions", "Polynomial Functions",
             "Exponential and Logarithmic Functions"]),
    SectionSpec("calculus", "Calculus Concepts",
            ["Limits and Continuity", "Derivatives and Applications", "Integration Techniques",
             "Applications of Integration"]),
    SectionSpec("applications", "Real-World Applications",
            ["Problem-Solving Strategies", "Mathematical Modeling", "Optimization Problems"])
  ]

  const ProgrammingSections: seq<SectionSpec> := [
    SectionSpec("fundamentals", "Programming Fundamentals",
            ["Introduction to Programming", "Variables and Data Types", "Control Structures",
             "Functions and Procedures"]),
    SectionSpec("datastructures", "Data Structures",
            ["Arrays and Lists", "Stacks and Queues", "Trees and Graphs", "Hash Tables"]),
    SectionSpec("algorithms", "Algorithms",
            ["Sorting Algorithms", "Search Algorithms", "Graph Algorithms", "Dynamic Programming"]),
    SectionSpec("applications", "Software Development",
            ["Software Design Principles", "Testing and Debugging", "Project Development"])
  ]

  const GenericSections: seq<SectionSpec> := [
    SectionSpec("introduction", "Introduction and Fundamentals",
            ["Basic Concepts and Definitions", "Historical Context and Development", "Key Terminology and Vocabulary",
             "Foundational Principles"]),
    SectionSpec("core", "Core Concepts and Theory",
            ["Theoretical Framework", "Main Principles and Laws", "Key Models and Systems", "Important Relationships"]),
    SectionSpec("intermediate", "Intermediate Topics",
            ["Advanced Theoretical Concepts", "Practical Applications", "Problem-Solving Techniques",
             "Case Studies and Examples"]),
    SectionSpec("advanced", "Advanced Applications",
            ["Complex Problem Solving", "Real-World Implementation", "Current Research and Trends",
             "Future Developments"]),
    SectionSpec("synthesis", "Integration and Mastery",
            ["Comprehensive Review", "Interdisciplinary Connections", "Professional Applications"])
  ]

  const MathMap := Build(MathSections)
  const ProgrammingMap := Build(ProgrammingSections)
  const GenericMap := Build(GenericSections)

  const MathKeywords: seq<string> := ["math", "calculus", "algebra"]
  const ProgrammingKeywords: seq<string> := ["computer", "programming", "software"]

  /** Some keyword occurs in `s`. */
  predicate MentionsAny(s: string, keywords: seq<string>) {
    exists i :: 0 <= i < |keywords| && Contains(s, keywords[i])
  }

  /**
   * The fallback outline for a syllabus; `None` when the syllabus is missing,
   * because `toLowerCase` on `undefined` throws before anything else runs.
   * The subject name is not consulted.
   */
  function FallbackMindMap(syllabus: Option<string>): (r: Option<seq<Topic>>)
    ensures r.None? <==> syllabus.None?
  {
    match syllabus
    case None => None
    case Some(s) =>
      var lower := ToLower(s);
      var extracted := ExtractTopics(syllabus);
      if |extracted| > 0 then Some(extracted)
      else if MentionsAny(lower, MathKeywords) then Some(MathMap)
      else if MentionsAny(lower, ProgrammingKeywords) then Some(ProgrammingMap)
      else Some(GenericMap)
  }

  // ---------------------------------------------------------------------------
  // Shape of every outline the fallback produces
  // ---------------------------------------------------------------------------

  /** No topic and no subtopic is marked completed. */
  ghost predicate AllOpen(ts: seq<Topic>) {
    forall k :: 0 <= k < |ts| ==>
      !ts[k].isCompleted && forall j :: 0 <= j < |ts[k].children| ==> !ts[k].children[j].isCompleted
  }

  /** Every id names one node: topics apart, subtopics apart, and no topic shares a subtopic's id. */
  ghost predicate UniqueIds(ts: seq<Topic>) {
    && (forall k1, k2 :: 0 <= k1 < |ts| && 0 <= k2 < |ts| && ts[k1].id == ts[k2].id ==> k1 == k2)
    && (forall k1, j1, k2, j2 ::
          && 0 <= k1 < |ts| && 0 <= j1 < |ts[k1].children|
          && 0 <= k2 < |ts| && 0 <= j2 < |ts[k2].children|
          && ts[k1].children[j1].id == ts[k2].children[j2].id
          ==> k1 == k2 && j1 == j2)
    && (forall k1, k2, j2 :: 0 <= k1 < |ts| && 0 <= k2 < |ts| && 0 <= j2 < |ts[k2].children|
          ==> ts[k1].id != ts[k2].children[j2].id)
  }

  /** Topic ids are dash-free and distinct, and subtopic ids extend their topic's id by a dash and a number. */
  ghost predicate Sectioned(ts: seq<Topic>) {
    && (forall k1, k2 :: 0 <= k1 < |ts| && 0 <= k2 < |ts| && ts[k1].id == ts[k2].id ==> k1 == k2)
    && forall k :: 0 <= k < |ts| ==>
         && '-' !in ts[k].id
         && forall j :: 0 <= j < |ts[k].children| ==> ts[k].children[j].id == ts[k].id + "-" + NatToString(j + 1)
  }

  /** Splitting at the first dash recovers the prefix and the suffix. */
  lemma DashSplit(a: string, x: string, b: string, y: string)
    requires '-' !in a && '-' !in b && a + "-" + x == b + "-" + y
    ensures a == b && x == y
  {
    var s := a + "-" + x;
    assert s[|a|] == '-';
    assert (b + "-" + y)[|b|] == '-';
    assert a == s[..|a|] == b;
    assert x == s[|a| + 1..] == y;
  }

  lemma {:induction false} SectionedIdsAreUnique(ts: seq<Topic>)
    requires Sectioned(ts)
    ensures UniqueIds(ts)
  {
    forall k1, j1, k2, j2 |
      && 0 <= k1 < |ts| && 0 <= j1 < |ts[k1].children|
      && 0 <= k2 < |ts| && 0 <= j2 < |ts[k2].children|
      && ts[k1].children[j1].id == ts[k2].children[j2].id
      ensures k1 == k2 && j1 == j2
    {
      DashSplit(ts[k1].id, NatToString(j1 + 1), ts[k2].id, NatToString(j2 + 1));
      NatToStringInjective(j1 + 1, j2 + 1);
    }
    forall k1, k2, j2 | 0 <= k1 < |ts| && 0 <= k2 < |ts| && 0 <= j2 < |ts[k2].children|
      ensures ts[k1].id != ts[k2].children[j2].id
    {
      var s := ts[k2].children[j2].id;
      assert s[|ts[k2].id|] == '-';
    }
  }

  /** A fixed outline's ids, read off in order, are distinct and dash-free. */
  lemma GoodIdsFrom(specs: seq<SectionSpec>, ids: seq<string>)
    requires |specs| == |ids| && forall k :: 0 <= k < |ids| ==> specs[k].id == ids[k]
    requires forall k1, k2 :: 0 <= k1 < k2 < |ids| ==> ids[k1] != ids[k2]
    requires forall k :: 0 <= k < |ids| ==> '-' !in ids[k]
    ensures GoodIds(specs)
  {
  }

  lemma MathIds()
    ensures GoodIds(MathSections)
  {
    var ids := ["fundamentals", "functions", "calculus", "applications"];
    assert MathSections[0].id == ids[0];
    assert MathSections[1].id == ids[1];
    assert MathSections[2].id == ids[2];
    assert MathSections[3].id == ids[3];
    GoodIdsFrom(MathSections, ids);
  }

  lemma ProgrammingIds()
    ensures GoodIds(ProgrammingSections)
  {
    var ids := ["fundamentals", "datastructures", "algorithms", "applications"];
    assert ProgrammingSections[0].id == ids[0];
    assert ProgrammingSections[1].id == ids[1];
    assert ProgrammingSections[2].id == ids[2];
    assert ProgrammingSections[3].id == ids[3];
    GoodIdsFrom(ProgrammingSections, ids);
  }

  lemma GenericIds()
    ensures GoodIds(GenericSections)
  {
    var ids := ["introduction", "core", "intermediate", "advanced", "synthesis"];
    assert GenericSections[0].id == ids[0];
    assert GenericSections[1].id == ids[1];
    assert GenericSections[2].id == ids[2];
    assert GenericSections[3].id == ids[3];
    assert GenericSections[4].id == ids[4];
    GoodIdsFrom(GenericSections, ids);
  }

  /** The fixed outlines are well formed. */
  lemma TemplatesWellFormed()
    ensures AllOpen(MathMap) && AllOpen(ProgrammingMap) && AllOpen(GenericMap)
    ensures UniqueIds(MathMap) && UniqueIds(ProgrammingMap) && UniqueIds(GenericMap)
  {
    MathIds();
    ProgrammingIds();
    GenericIds();
    BuildSectioned(MathSections);
    BuildSectioned(ProgrammingSections);
    BuildSectioned(GenericSections);
    SectionedIdsAreUnique(MathMap);
    SectionedIdsAreUnique(ProgrammingMap);
    SectionedIdsAreUnique(GenericMap);
  }

  /**
   * Whatever the fallback returns is a non-empty outline of at most six
   * topics, nothing completed, every id naming one node.
   */
  lemma FallbackWellFormed(syllabus: Option<string>)
    requires syllabus.Some?
    ensures var m := FallbackMindMap(syllabus).value;
            1 <= |m| <= MaxTopics && AllOpen(m) && UniqueIds(m)
  {
    TemplatesWellFormed();
    var extracted := ExtractTopics(syllabus);
    if |extracted| > 0 {
      ExtractedNumbering(syllabus);
      NumberedIdsDistinct(extracted);
    }
  }

  /** The fixed outlines have 19, 19 and 24 nodes, which is what `countTopics` reports for them. */
  lemma TemplateSizes()
    ensures TopicCount(MathMap) == 19 && TopicCount(ProgrammingMap) == 19 && TopicCount(GenericMap) == 24
  {
    MathSize();
    ProgrammingSize();
    GenericSize();
  }

  lemma MathSize()
    ensures TopicCount(MathMap) == 19
  {
    BuildCount(MathSections);
  }

  lemma ProgrammingSize()
    ensures TopicCount(ProgrammingMap) == 19
  {
    BuildCount(ProgrammingSections);
  }

  lemma GenericSize()
    ensures TopicCount(GenericMap) == 24
  {
    BuildCount(GenericSections);
  }

  /** Subtopics listed across a fixed outline. */
  function KidCount(specs: seq<SectionSpec>): nat {
    if specs == [] then 0 else |specs[0].kids| + KidCount(specs[1..])
  }

  /** `countTopics` on a fixed outline counts its topics and their subtopics. */
  lemma {:induction false} BuildCount(specs: seq<SectionSpec>)
    ensures TopicCount(Build(specs)) == |specs| + KidCount(specs)
  {
    if specs != [] {
      assert Build(specs)[1..] == Build(specs[1..]);
      BuildCount(specs[1..]);
    }
  }

  // ---------------------------------------------------------------------------
  // Which outline is chosen
  // ---------------------------------------------------------------------------

  /** Topics found in the syllabus always win over the keyword outlines. */
  lemma ExtractedTopicsWin(syllabus: string)
    requires HeadingNames(Lines(syllabus)) != [] && |syllabus| >= MinSyllabusLength
    ensures var m := FallbackMindMap(Some(syllabus)).value;
            && m == ExtractTopics(Some(syllabus))
            && m[0].name == HeadingNames(Lines(syllabus))[0]
  {
    ExtractedTopics(syllabus);
    var all := Topics(Fold(Start, Lines(syllabus)));
    NamesNonEmpty(all);
  }

  lemma NamesNonEmpty(ts: seq<Topic>)
    requires Names(ts) != []
    ensures ts != [] && Names(ts)[0] == ts[0].name
  {
  }

  /**
   * A keyword in any letter case anywhere in a syllabus without extracted
   * topics selects its outline, and the mathematics keywords take precedence
   * over the programming ones.
   */
  lemma KeywordChoosesOutline(before: string, word: string, after: string)
    requires ExtractTopics(Some(before + word + after)) == []
    requires ToLower(word) in MathKeywords || ToLower(word) in ProgrammingKeywords
    ensures ToLower(word) in MathKeywords ==> FallbackMindMap(Some(before + word + after)) == Some(MathMap)
    ensures ToLower(word) in ProgrammingKeywords && !MentionsAny(ToLower(before + word + after), MathKeywords)
            ==> FallbackMindMap(Some(before + word + after)) == Some(ProgrammingMap)
  {
    var lower := ToLower(before + word + after);
    ToLowerAppend(before + word, after);
    ToLowerAppend(before, word);
    ContainsInfix(ToLower(before), ToLower(word), ToLower(after));
    var keywords := if ToLower(word) in MathKeywords then MathKeywords else ProgrammingKeywords;
    var i :| 0 <= i < |keywords| && keywords[i] == ToLower(word);
    assert Contains(lower, keywords[i]);
  }

  /** A syllabus with neither extracted topics nor any keyword gets the generic outline. */
  lemma NoKeywordGetsGeneric(syllabus: string)
    requires ExtractTopics(Some(syllabus)) == []
    requires forall w :: w in MathKeywords + ProgrammingKeywords ==> !Contains(ToLower(syllabus), w)
    ensures FallbackMindMap(Some(syllabus)) == Some(GenericMap)
  {
  }

  /** The empty syllabus, which the last-resort branch passes, gets the generic outline. */
  lemma EmptySyllabusGetsGeneric()
    ensures FallbackMindMap(Some("")) == Some(GenericMap)
  {
    forall w | w in MathKeywords + ProgrammingKeywords
      ensures !Contains(ToLower(""), w)
    {
      assert ToLower("") == [];
    }
    NoKeywordGetsGeneric("");
  }
}
