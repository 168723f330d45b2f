/**
 * `extractTopicsFromSyllabus` and `countTopics` of the syllabus route.
 *
 * The extractor reads a syllabus line by line: headings open a new topic
 * (`topic1`, `topic2`, …), longer non-heading lines after a heading become
 * its subtopics (`topic1-1`, `topic1-2`, …), and at most six topics are kept.
 * The three heading patterns and the name clean-ups are written as character
 * predicates over ASCII.
 */
module SyllabusOutline {
  import opened Wrappers
  import opened Text

  /** A second-level node of a mind map. */
  datatype Subtopic = Subtopic(id: string, name: string, isCompleted: bool)

  /** A top-level node of a mind map with its direct children. */
  datatype Topic = Topic(id: string, name: string, isCompleted: bool, children: seq<Subtopic>)

  const MinSyllabusLength := 50
  const MinLineLength := 3
  const MinSubtopicLength := 10
  const MaxTopics := 6

  // ---------------------------------------------------------------------------
  // Line classification
  // ---------------------------------------------------------------------------

  /** Number of decimal digits at the start of `s`. */
  function LeadingDigits(s: string): (n: nat)
    ensures n <= |s|
    ensures forall i :: 0 <= i < n ==> IsDigit(s[i])
    ensures n < |s| ==> !IsDigit(s[n])
  {
    if |s| > 0 && IsDigit(s[0]) then 1 + LeadingDigits(s[1..]) else 0
  }

  /** Number of lower-case letters at the start of `s`. */
  function LeadingLower(s: string): (n: nat)
    ensures n <= |s|
    ensures forall i :: 0 <= i < n ==> IsLower(s[i])
    ensures n < |s| ==> !IsLower(s[n])
  {
    if |s| > 0 && IsLower(s[0]) then 1 + LeadingLower(s[1..]) else 0
  }

  /** `/^\d+\./`: one or more digits, then a full stop. */
  predicate IsNumbered(t: string) {
    var d := LeadingDigits(t);
    0 < d < |t| && t[d] == '.'
  }

  /** `/^[A-Z][A-Z\s]+$/`: a capital, then at least one more character, all capitals or whitespace. */
  predicate IsAllCaps(t: string) {
    |t| >= 2 && IsUpper(t[0]) && forall i :: 1 <= i < |t| ==> IsUpper(t[i]) || IsSpace(t[i])
  }

  /** `[A-Z][a-z]+(\s[A-Z][a-z]+)*`, the whole of `w`: capitalised words, one whitespace character apart. */
  predicate TitleWords(w: string)
    decreases |w|
  {
    && |w| >= 2 && IsUpper(w[0])
    && var n := 1 + LeadingLower(w[1..]);
       && n >= 2
       && (n == |w| || (IsSpace(w[n]) && TitleWords(w[n + 1..])))
  }

  /** `t` without one trailing colon. */
  function DropColon(t: string): (r: string)
    ensures r == t || (t == r + [':'])
  {
    if |t| > 0 && t[|t| - 1] == ':' then t[..|t| - 1] else t
  }

  /** `/^[A-Z][a-z]+(\s[A-Z][a-z]+)*:?$/`. */
  predicate IsTitleCase(t: string) {
    TitleWords(DropColon(t))
  }

  /** A trimmed line that opens a topic. */
  predicate IsHeading(t: string) {
    IsNumbered(t) || IsAllCaps(t) || IsTitleCase(t)
  }

  /**
   * `t.replace(/^\d+\.\s*\/, "")`: a leading number, its full stop and the
   * whitespace after it removed.
   */
  function StripNumber(t: string): (r: string)
    ensures !IsNumbered(t) ==> r == t
    ensures IsNumbered(t) ==>
              && |r| < |t| && r == t[|t| - |r|..]
              && (forall i :: 0 <= i < |t| - |r| ==> IsDigit(t[i]) || t[i] == '.' || IsSpace(t[i]))
              && (r == [] || !IsSpace(r[0]))
  {
    if IsNumbered(t) then
      var rest := t[LeadingDigits(t) + 1..];
      rest[LeadingSpaces(rest)..]
    else t
  }

  /** The name of a heading: the number prefix and then one trailing colon removed. */
  function HeadingName(t: string): (r: string)
    ensures r == StripNumber(t) || StripNumber(t) == r + [':']
  {
    DropColon(StripNumber(t))
  }

  /** `t.replace(/^[-•]\s*\/, "")`: a leading dash or bullet and the whitespace after it removed. */
  function BulletName(t: string): (r: string)
    ensures |t| > 0 && (t[0] == '-' || t[0] == '•') ==>
              && |r| < |t| && r == t[|t| - |r|..]
              && (forall i :: 1 <= i < |t| - |r| ==> IsSpace(t[i]))
              && (r == [] || !IsSpace(r[0]))
    ensures !(|t| > 0 && (t[0] == '-' || t[0] == '•')) ==> r == t
  {
    if |t| > 0 && (t[0] == '-' || t[0] == '•') then
      var rest := t[1..];
      rest[LeadingSpaces(rest)..]
    else t
  }

  /** The lines of the syllabus whose trimmed text is not empty, in order. */
  function NonBlank(lines: seq<string>): (r: seq<string>)
    ensures |r| <= |lines|
    ensures forall i :: 0 <= i < |r| ==> Trim(r[i]) != []
  {
    if lines == [] then []
    else (if Trim(lines[0]) != [] then [lines[0]] else []) + NonBlank(lines[1..])
  }

  function Lines(syllabus: string): seq<string> {
    NonBlank(Split(syllabus, '\n'))
  }

  // ---------------------------------------------------------------------------
  // The extraction as a fold over the lines
  // ---------------------------------------------------------------------------

  function TopicId(k: nat): string {
    "topic" + NatToString(k)
  }

  function SubtopicId(k: nat, j: nat): string {
    "topic" + NatToString(k) + "-" + NatToString(j)
  }

  /** The loop's variables: pushed topics, the open topic, and the two counters. */
  datatype Progress = Progress(done: seq<Topic>, current: Option<Topic>, topicCounter: nat, subtopicCounter: nat)

  const Start := Progress([], None, 1, 1)

  /** The topics so far, the open one included (what the route pushes after the loop). */
  function Topics(p: Progress): seq<Topic> {
    p.done + (if p.current.Some? then [p.current.value] else [])
  }

  /** One iteration of the loop over lines. */
  function Step(p: Progress, line: string): (r: Progress)
    requires p.topicCounter >= 1
    ensures r.topicCounter >= 1
  {
    StepTrimmed(p, Trim(line))
  }

  /** One iteration once the line has been trimmed. */
  function StepTrimmed(p: Progress, t: string): (r: Progress)
    requires p.topicCounter >= 1
    ensures r.topicCounter >= 1
  {
    if |t| < MinLineLength then p
    else if IsHeading(t) then OpenTopic(p, HeadingName(t))
    else if p.current.Some? && |t| > MinSubtopicLength then AddSubtopic(p, BulletName(t))
    else p
  }

  /** A heading: push the open topic and open a new one, `topic{topicCounter}`. */
  function OpenTopic(p: Progress, name: string): Progress {
    Progress(Topics(p), Some(Topic(TopicId(p.topicCounter), name, false, [])), p.topicCounter + 1, 1)
  }

  /** A subtopic line: append `topic{topicCounter - 1}-{subtopicCounter}` to the open topic. */
  function AddSubtopic(p: Progress, name: string): Progress
    requires p.topicCounter >= 1 && p.current.Some?
  {
    var c := p.current.value;
    var sub := Subtopic(SubtopicId(p.topicCounter - 1, p.subtopicCounter), name, false);
    Progress(p.done, Some(c.(children := c.children + [sub])), p.topicCounter, p.subtopicCounter + 1)
  }

  function Fold(p: Progress, lines: seq<string>): (r: Progress)
    requires p.topicCounter >= 1
    ensures r.topicCounter >= 1
    decreases |lines|
  {
    if lines == [] then p else Fold(Step(p, lines[0]), lines[1..])
  }

  /** Folding from line `i` is one step on that line, then folding from the next. */
  lemma FoldAt(p: Progress, lines: seq<string>, i: nat)
    requires p.topicCounter >= 1 && i < |lines|
    ensures Fold(p, lines[i..]) == Fold(Step(p, lines[i]), lines[i + 1..])
  {
    assert lines[i..][1..] == lines[i + 1..];
  }

  /** `topics.slice(0, 6)`, with the empty case the route returns separately. */
  function FirstSix(topics: seq<Topic>): (r: seq<Topic>)
    ensures |r| == if |topics| < MaxTopics then |topics| else MaxTopics
    ensures r == topics[..|r|]
  {
    if |topics| <= MaxTopics then topics else topics[..MaxTopics]
  }

  /** `extractTopicsFromSyllabus(syllabus, subjectName)` (the subject is not used). */
  function ExtractTopics(syllabus: Option<string>): seq<Topic> {
    if syllabus.None? || |syllabus.value| < MinSyllabusLength then []
    else FirstSix(Topics(Fold(Start, Lines(syllabus.value))))
  }

  /** The body of the extractor's loop: one line read into the open topic and the counters. */
  method ReadLine(topics: seq<Topic>, currentTopic: Option<Topic>, topicCounter: nat, subtopicCounter: nat, trimmed: string)
    returns (topics': seq<Topic>, currentTopic': Option<Topic>, topicCounter': nat, subtopicCounter': nat)
    requires topicCounter >= 1
    ensures Progress(topics', currentTopic', topicCounter', subtopicCounter')
         == StepTrimmed(Progress(topics, currentTopic, topicCounter, subtopicCounter), trimmed)
  {
    ghost var p := Progress(topics, currentTopic, topicCounter, subtopicCounter);
    topics', currentTopic', topicCounter', subtopicCounter' := topics, currentTopic, topicCounter, subtopicCounter;
    if |trimmed| < MinLineLength {
      assert StepTrimmed(p, trimmed) == p;
      return;
    }
    if IsHeading(trimmed) {
      if currentTopic.Some? {
        topics' := topics + [currentTopic.value];
      } else {
        assert topics + [] == topics;
      }
      assert topics' == Topics(p);
      currentTopic' := Some(Topic(TopicId(topicCounter), HeadingName(trimmed), false, []));
      topicCounter' := topicCounter + 1;
      subtopicCounter' := 1;
      assert StepTrimmed(p, trimmed) == OpenTopic(p, HeadingName(trimmed));
      assert OpenTopic(p, HeadingName(trimmed)) == Progress(topics', currentTopic', topicCounter', subtopicCounter');
    } else if currentTopic.Some? && |trimmed| > MinSubtopicLength {
      var c := currentTopic.value;
      var sub := Subtopic(SubtopicId(topicCounter - 1, subtopicCounter), BulletName(trimmed), false);
      currentTopic' := Some(c.(children := c.children + [sub]));
      subtopicCounter' := subtopicCounter + 1;
      assert StepTrimmed(p, trimmed) == AddSubtopic(p, BulletName(trimmed));
      assert AddSubtopic(p, BulletName(trimmed)) == Progress(topics', currentTopic', topicCounter', subtopicCounter');
    } else {
      assert StepTrimmed(p, trimmed) == p;
    }
  }

  /** The extractor as the route runs it: a loop over the lines updating the open topic and the counters. */
  method ExtractTopicsFromSyllabus(syllabus: Option<string>) returns (topics: seq<Topic>)
    ensures topics == ExtractTopics(syllabus)
  {
    if syllabus.None? || |syllabus.value| < MinSyllabusLength {
      return [];
    }
    var lines := Lines(syllabus.value);
    topics := [];
    var currentTopic: Option<Topic> := None;
    var topicCounter := 1;
    var subtopicCounter := 1;
    for i := 0 to |lines|
      invariant topicCounter >= 1
      invariant Fold(Start, lines) == Fold(Progress(topics, currentTopic, topicCounter, subtopicCounter), lines[i..])
    {
      FoldAt(Progress(topics, currentTopic, topicCounter, subtopicCounter), lines, i);
      topics, currentTopic, topicCounter, subtopicCounter := ReadLine(topics, currentTopic, topicCounter, subtopicCounter, Trim(lines[i]));
    }
    if currentTopic.Some? {
      topics := topics + [currentTopic.value];
    }
    if |topics| == 0 {
      return [];
    }
    topics := FirstSix(topics);
  }

  // ---------------------------------------------------------------------------
  // countTopics
  // ---------------------------------------------------------------------------

  /** Top-level nodes plus their direct children. */
  function TopicCount(mindMap: seq<Topic>): nat {
    if mindMap == [] then 0 else 1 + |mindMap[0].children| + TopicCount(mindMap[1..])
  }

  /** `countTopics(mindMap)`: an accumulating loop over the top-level nodes. */
  method CountTopics(mindMap: seq<Topic>) returns (count: nat)
    ensures count == TopicCount(mindMap)
  {
    count := 0;
    for i := 0 to |mindMap|
      invariant count + TopicCount(mindMap[i..]) == TopicCount(mindMap)
    {
      assert mindMap[i..][1..] == mindMap[i + 1..];
      count := count + 1 + |mindMap[i].children|;
    }
    assert mindMap[|mindMap|..] == [];
  }

  /** Every node's id, each topic's followed by its children's. */
  function AllIds(mindMap: seq<Topic>): seq<string> {
    if mindMap == [] then []
    else [mindMap[0].id] + seq(|mindMap[0].children|, j requires 0 <= j < |mindMap[0].children| => mindMap[0].children[j].id)
         + AllIds(mindMap[1..])
  }

  /** The count is the number of nodes: one per listed id. */
  lemma {:induction false} CountIsNodeCount(mindMap: seq<Topic>)
    ensures TopicCount(mindMap) == |AllIds(mindMap)|
  {
    if mindMap != [] {
      CountIsNodeCount(mindMap[1..]);
    }
  }

  /** Counting distributes over concatenation. */
  lemma {:induction false} TopicCountAppend(a: seq<Topic>, b: seq<Topic>)
    ensures TopicCount(a + b) == TopicCount(a) + TopicCount(b)
  {
    if a == [] {
      assert a + b == b;
    } else {
      assert (a + b)[1..] == a[1..] + b;
      TopicCountAppend(a[1..], b);
    }
  }
  // ---------------------------------------------------------------------------
  // Properties of the extractor
  // ---------------------------------------------------------------------------

  /** Topic `k` (from 1) has id `topic{k}`, its children `topic{k}-1`, `topic{k}-2`, …, and nothing is completed. */
  ghost predicate NumberedAs(t: Topic, k: nat) {
    && t.id == TopicId(k) && !t.isCompleted
    && forall j :: 0 <= j < |t.children| ==> t.children[j].id == SubtopicId(k, j + 1) && !t.children[j].isCompleted
  }

  ghost predicate AllNumbered(ts: seq<Topic>) {
    forall k :: 0 <= k < |ts| ==> NumberedAs(ts[k], k + 1)
  }

  /** What the loop keeps about its counters. */
  ghost predicate Consistent(p: Progress) {
    && (p.current.None? ==> p.done == [] && p.topicCounter == 1)
    && (p.current.Some? ==> p.topicCounter == |p.done| + 2 && p.subtopicCounter == |p.current.value.children| + 1)
    && AllNumbered(Topics(p))
  }

  lemma StepConsistent(p: Progress, line: string)
    requires p.topicCounter >= 1 && Consistent(p)
    ensures Consistent(Step(p, line))
  {
    var t := Trim(line);
    if |t| >= MinLineLength && IsHeading(t) {
      OpenConsistent(p, Topic(TopicId(p.topicCounter), HeadingName(t), false, []));
    } else if |t| >= MinLineLength && p.current.Some? && |t| > MinSubtopicLength {
      AddConsistent(p, Subtopic(SubtopicId(p.topicCounter - 1, p.subtopicCounter), BulletName(t), false));
    }
  }

  lemma OpenConsistent(p: Progress, c: Topic)
    requires p.topicCounter >= 1 && Consistent(p)
    requires c.id == TopicId(p.topicCounter) && !c.isCompleted && c.children == []
    ensures Consistent(Progress(Topics(p), Some(c), p.topicCounter + 1, 1))
  {
    var r := Progress(Topics(p), Some(c), p.topicCounter + 1, 1);
    assert |Topics(p)| + 1 == p.topicCounter;
    assert Topics(r) == Topics(p) + [c];
    assert NumberedAs(c, |Topics(p)| + 1);
  }

  lemma AddConsistent(p: Progress, sub: Subtopic)
    requires p.topicCounter >= 1 && Consistent(p) && p.current.Some?
    requires sub.id == SubtopicId(p.topicCounter - 1, p.subtopicCounter) && !sub.isCompleted
    ensures var c := p.current.value;
            Consistent(Progress(p.done, Some(c.(children := c.children + [sub])), p.topicCounter, p.subtopicCounter + 1))
  {
    var c := p.current.value;
    var c' := c.(children := c.children + [sub]);
    var r := Progress(p.done, Some(c'), p.topicCounter, p.subtopicCounter + 1);
    var k := |p.done|;
    assert Topics(p) == p.done + [c];
    assert Topics(p)[k] == c;
    assert NumberedAs(c, k + 1);
    assert NumberedAs(c', k + 1) by {
      forall j | 0 <= j < |c'.children|
        ensures c'.children[j].id == SubtopicId(k + 1, j + 1) && !c'.children[j].isCompleted
      {
        if j < |c.children| {
          assert c'.children[j] == c.children[j];
        }
      }
    }
    assert Topics(r) == p.done + [c'];
    forall i | 0 <= i < |Topics(r)|
      ensures NumberedAs(Topics(r)[i], i + 1)
    {
      if i < k {
        assert Topics(r)[i] == Topics(p)[i];
      }
    }
  }

  lemma {:induction false} FoldConsistent(p: Progress, lines: seq<string>)
    requires p.topicCounter >= 1 && Consistent(p)
    ensures Consistent(Fold(p, lines))
    decreases |lines|
  {
    if lines != [] {
      StepConsistent(p, lines[0]);
      FoldConsistent(Step(p, lines[0]), lines[1..]);
    }
  }

  /** The names of the heading lines, in order: the reference the extracted topics are compared with. */
  function HeadingNames(lines: seq<string>): seq<string> {
    if lines == [] then []
    else
      var t := Trim(lines[0]);
      (if |t| >= MinLineLength && IsHeading(t) then [HeadingName(t)] else []) + HeadingNames(lines[1..])
  }

  function Names(ts: seq<Topic>): (r: seq<string>)
    ensures |r| == |ts|
  {
    seq(|ts|, i requires 0 <= i < |ts| => ts[i].name)
  }

  lemma {:induction false} FoldNames(p: Progress, lines: seq<string>)
    requires p.topicCounter >= 1
    ensures Names(Topics(Fold(p, lines))) == Names(Topics(p)) + HeadingNames(lines)
    decreases |lines|
  {
    if lines != [] {
      StepNames(p, lines[0]);
      FoldNames(Step(p, lines[0]), lines[1..]);
      HeadingNamesCons(lines);
    }
  }

  lemma HeadingNamesCons(lines: seq<string>)
    requires lines != []
    ensures HeadingNames(lines) == HeadingNames([lines[0]]) + HeadingNames(lines[1..])
  {
    assert [lines[0]][1..] == [];
  }

  lemma StepNames(p: Progress, line: string)
    requires p.topicCounter >= 1
    ensures Names(Topics(Step(p, line))) == Names(Topics(p)) + HeadingNames([line])
  {
    var t := Trim(line);
    assert [line][1..] == [];
    if |t| >= MinLineLength && IsHeading(t) {
      assert HeadingNames([line]) == [HeadingName(t)];
      NamesSnoc(Topics(p), Topic(TopicId(p.topicCounter), HeadingName(t), false, []));
    } else {
      assert HeadingNames([line]) == [];
      if |t| >= MinLineLength && p.current.Some? && |t| > MinSubtopicLength {
        var c := p.current.value;
        NamesSnoc(p.done, c);
        NamesSnoc(p.done, AddSubtopic(p, BulletName(t)).current.value);
      }
    }
  }

  lemma NamesSnoc(ts: seq<Topic>, c: Topic)
    ensures Names(ts + [c]) == Names(ts) + [c.name]
  {
  }

  /**
   * The reference for the children: the bullet-stripped non-heading lines
   * longer than ten characters that come after some heading.
   */
  function SubtopicNames(lines: seq<string>, afterHeading: bool): seq<string> {
    if lines == [] then []
    else LineSubtopic(lines[0], afterHeading) + SubtopicNames(lines[1..], AfterLine(lines[0], afterHeading))
  }

  /** The subtopic name one line contributes: a long non-heading line once a heading has been seen. */
  function LineSubtopic(line: string, afterHeading: bool): seq<string> {
    var t := Trim(line);
    if |t| < MinLineLength || IsHeading(t) then []
    else if afterHeading && |t| > MinSubtopicLength then [BulletName(t)]
    else []
  }

  /** Whether a heading has been seen once this line is read. */
  function AfterLine(line: string, afterHeading: bool): bool {
    var t := Trim(line);
    afterHeading || (|t| >= MinLineLength && IsHeading(t))
  }

  function ChildNames(ts: seq<Topic>): seq<string> {
    if ts == [] then []
    else Kids(ts[0]) + ChildNames(ts[1..])
  }

  /** The names of one topic's subtopics, in order. */
  function Kids(c: Topic): (r: seq<string>)
    ensures |r| == |c.children|
    ensures forall j :: 0 <= j < |r| ==> r[j] == c.children[j].name
  {
    seq(|c.children|, j requires 0 <= j < |c.children| => c.children[j].name)
  }

  lemma {:induction false} ChildNamesAppend(a: seq<Topic>, b: seq<Topic>)
    ensures ChildNames(a + b) == ChildNames(a) + ChildNames(b)
  {
    if a == [] {
      assert a + b == b;
    } else {
      assert (a + b)[1..] == a[1..] + b;
      ChildNamesAppend(a[1..], b);
    }
  }

  lemma {:induction false} FoldChildren(p: Progress, lines: seq<string>)
    requires p.topicCounter >= 1
    ensures ChildNames(Topics(Fold(p, lines))) == ChildNames(Topics(p)) + SubtopicNames(lines, p.current.Some?)
    decreases |lines|
  {
    if lines != [] {
      var q := Step(p, lines[0]);
      StepChildren(p, lines[0]);
      FoldChildren(q, lines[1..]);
    }
  }

  /** One step adds the line's subtopic name, if any, and has a current topic once a heading was read. */
  lemma StepChildren(p: Progress, line: string)
    requires p.topicCounter >= 1
    ensures ChildNames(Topics(Step(p, line))) == ChildNames(Topics(p)) + LineSubtopic(line, p.current.Some?)
    ensures Step(p, line).current.Some? == AfterLine(line, p.current.Some?)
  {
    var t := Trim(line);
    if |t| >= MinLineLength && IsHeading(t) {
      OpenChildren(p, HeadingName(t));
    } else if |t| >= MinLineLength && p.current.Some? && |t| > MinSubtopicLength {
      AddChildren(p, BulletName(t));
    }
  }

  lemma OpenChildren(p: Progress, name: string)
    ensures ChildNames(Topics(OpenTopic(p, name))) == ChildNames(Topics(p))
  {
    var c := Topic(TopicId(p.topicCounter), name, false, []);
    ChildNamesAppend(Topics(p), [c]);
    assert ChildNames([c]) == [];
  }

  lemma AddChildren(p: Progress, name: string)
    requires p.topicCounter >= 1 && p.current.Some?
    ensures ChildNames(Topics(AddSubtopic(p, name))) == ChildNames(Topics(p)) + [name]
  {
    var c := p.current.value;
    var c' := AddSubtopic(p, name).current.value;
    ChildNamesAppend(p.done, [c]);
    ChildNamesAppend(p.done, [c']);
    assert ChildNames([c]) == Kids(c);
    assert ChildNames([c']) == Kids(c');
    assert Kids(c') == Kids(c) + [name];
  }

  // ---------------------------------------------------------------------------
  // Which topic each subtopic goes under
  // ---------------------------------------------------------------------------

  /** A line that opens a topic once trimmed. */
  predicate HeadingLine(line: string) {
    var t := Trim(line);
    |t| >= MinLineLength && IsHeading(t)
  }

  /** The subtopic names of the lines before the next heading line. */
  function SubtopicsUntilHeading(lines: seq<string>): seq<string> {
    if lines == [] || HeadingLine(lines[0]) then []
    else LineSubtopic(lines[0], true) + SubtopicsUntilHeading(lines[1..])
  }

  /**
   * The reference for the grouping: one entry per heading line, in order,
   * holding the subtopic names of the lines between it and the next heading
   * line (or the end of the text).
   */
  function Groups(lines: seq<string>): (r: seq<seq<string>>)
    ensures |r| == |HeadingNames(lines)|
  {
    if lines == [] then []
    else if HeadingLine(lines[0]) then [SubtopicsUntilHeading(lines[1..])] + Groups(lines[1..])
    else Groups(lines[1..])
  }

  /** The subtopic names of each topic, topic by topic. */
  function ChildGroups(ts: seq<Topic>): (r: seq<seq<string>>)
    ensures |r| == |ts|
  {
    if ts == [] then [] else [Kids(ts[0])] + ChildGroups(ts[1..])
  }

  lemma {:induction false} ChildGroupsAt(ts: seq<Topic>, k: nat)
    requires k < |ts|
    ensures ChildGroups(ts)[k] == Kids(ts[k])
  {
    if k > 0 {
      ChildGroupsAt(ts[1..], k - 1);
    }
  }

  lemma {:induction false} ChildGroupsAppend(a: seq<Topic>, b: seq<Topic>)
    ensures ChildGroups(a + b) == ChildGroups(a) + ChildGroups(b)
  {
    if a == [] {
      assert a + b == b;
    } else {
      assert (a + b)[1..] == a[1..] + b;
      ChildGroupsAppend(a[1..], b);
    }
  }

  /** The open topic's subtopics followed by the `pending` names still to come under it. */
  function OpenGroup(p: Progress, pending: seq<string>): seq<seq<string>> {
    if p.current.Some? then [Kids(p.current.value) + pending] else []
  }

  /**
   * Folding over `lines` closes the open topic with the subtopic lines up to
   * the next heading, and gives each later heading the subtopic lines up to
   * the heading after it.
   */
  lemma {:induction false} FoldGroups(p: Progress, lines: seq<string>)
    requires p.topicCounter >= 1
    ensures ChildGroups(Topics(Fold(p, lines)))
         == ChildGroups(p.done) + OpenGroup(p, SubtopicsUntilHeading(lines)) + Groups(lines)
    decreases |lines|
  {
    if lines == [] {
      ClosedGroups(p);
    } else {
      StepGroups(p, lines);
      FoldGroups(Step(p, lines[0]), lines[1..]);
    }
  }

  /** Pushing the open topic after the loop adds its group. */
  lemma ClosedGroups(p: Progress)
    ensures ChildGroups(Topics(p)) == ChildGroups(p.done) + OpenGroup(p, []) + []
  {
    ChildGroupsAppend(p.done, if p.current.Some? then [p.current.value] else []);
    if p.current.Some? {
      assert Kids(p.current.value) + [] == Kids(p.current.value);
      assert ChildGroups([p.current.value]) == [Kids(p.current.value)];
    } else {
      assert ChildGroups([]) == [];
    }
  }

  /** One step moves the first line into the groups, as `FoldGroups` needs. */
  lemma StepGroups(p: Progress, lines: seq<string>)
    requires p.topicCounter >= 1 && lines != []
    ensures var q := Step(p, lines[0]);
            ChildGroups(q.done) + OpenGroup(q, SubtopicsUntilHeading(lines[1..])) + Groups(lines[1..])
            == ChildGroups(p.done) + OpenGroup(p, SubtopicsUntilHeading(lines)) + Groups(lines)
  {
    var t := Trim(lines[0]);
    var x, g := SubtopicsUntilHeading(lines[1..]), Groups(lines[1..]);
    StepCases(p, lines[0]);
    GroupsCons(lines);
    if HeadingLine(lines[0]) {
      OpenGroups(p, HeadingName(t), x, g);
    } else if p.current.Some? && |t| > MinSubtopicLength {
      AddGroups(p, BulletName(t), x);
    }
  }

  /** The three things one step can do, by the kind of line. */
  lemma StepCases(p: Progress, line: string)
    requires p.topicCounter >= 1
    ensures var t := Trim(line);
            && (HeadingLine(line) ==> Step(p, line) == OpenTopic(p, HeadingName(t)))
            && (!HeadingLine(line) && p.current.Some? && |t| > MinSubtopicLength ==>
                  Step(p, line) == AddSubtopic(p, BulletName(t)))
            && (!HeadingLine(line) && !(p.current.Some? && |t| > MinSubtopicLength) ==> Step(p, line) == p)
  {
  }

  /** How the reference groups unfold over the first line. */
  lemma GroupsCons(lines: seq<string>)
    requires lines != []
    ensures var t, rest := Trim(lines[0]), lines[1..];
            && (HeadingLine(lines[0]) ==>
                  SubtopicsUntilHeading(lines) == [] && Groups(lines) == [SubtopicsUntilHeading(rest)] + Groups(rest))
            && (!HeadingLine(lines[0]) ==> Groups(lines) == Groups(rest))
            && (!HeadingLine(lines[0]) && |t| > MinSubtopicLength ==>
                  SubtopicsUntilHeading(lines) == [BulletName(t)] + SubtopicsUntilHeading(rest))
            && (!HeadingLine(lines[0]) && |t| <= MinSubtopicLength ==>
                  SubtopicsUntilHeading(lines) == SubtopicsUntilHeading(rest))
  {
    if !HeadingLine(lines[0]) {
      var t := Trim(lines[0]);
      if |t| > MinSubtopicLength {
        assert LineSubtopic(lines[0], true) == [BulletName(t)];
      } else {
        assert LineSubtopic(lines[0], true) == [];
      }
    }
  }

  /** A heading closes the open topic and opens one whose subtopics are the `pending` names. */
  lemma OpenGroups(p: Progress, name: string, pending: seq<string>, later: seq<seq<string>>)
    ensures var q := OpenTopic(p, name);
            ChildGroups(q.done) + OpenGroup(q, pending) + later
            == ChildGroups(p.done) + OpenGroup(p, []) + ([pending] + later)
  {
    var q := OpenTopic(p, name);
    ClosedGroups(p);
    var a, b := ChildGroups(p.done), OpenGroup(p, []);
    assert Kids(q.current.value) + pending == pending;
    assert ChildGroups(q.done) + OpenGroup(q, pending) == a + b + [pending];
    assert a + b + [pending] + later == a + b + ([pending] + later);
  }

  /** Appending a child adds its name to the topic's subtopic names. */
  lemma KidsSnoc(c: Topic, sub: Subtopic)
    ensures Kids(c.(children := c.children + [sub])) == Kids(c) + [sub.name]
  {
  }

  /** A subtopic line joins the open topic's group. */
  lemma AddGroups(p: Progress, name: string, pending: seq<string>)
    requires p.topicCounter >= 1 && p.current.Some?
    ensures var q := AddSubtopic(p, name);
            OpenGroup(q, pending) == OpenGroup(p, [name] + pending) && q.done == p.done
  {
    var c := p.current.value;
    KidsSnoc(c, Subtopic(SubtopicId(p.topicCounter - 1, p.subtopicCounter), name, false));
    assert (Kids(c) + [name]) + pending == Kids(c) + ([name] + pending);
  }

  /**
   * The extractor keeps each subtopic under the heading it follows: the k-th
   * topic returned is named by the k-th heading line, and its subtopics are
   * the bullet-stripped lines longer than ten characters between that heading
   * line and the next one.
   */
  lemma ExtractedGrouping(syllabus: string)
    requires |syllabus| >= MinSyllabusLength
    ensures var r := ExtractTopics(Some(syllabus));
            var g := Groups(Lines(syllabus));
            && |r| == (if |g| < MaxTopics then |g| else MaxTopics)
            && forall k :: 0 <= k < |r| ==>
                 r[k].name == HeadingNames(Lines(syllabus))[k] && Kids(r[k]) == g[k]
  {
    var all := Topics(Fold(Start, Lines(syllabus)));
    ExtractedTopics(syllabus);
    var r := ExtractTopics(Some(syllabus));
    assert r == all[..|r|];
    forall k | 0 <= k < |r|
      ensures r[k].name == HeadingNames(Lines(syllabus))[k] && Kids(r[k]) == Groups(Lines(syllabus))[k]
    {
      assert r[k] == all[k];
      assert Names(all)[k] == all[k].name;
      ChildGroupsAt(all, k);
    }
  }

  /**
   * What the extractor returns for a syllabus of at least 50 characters:
   * the first six heading lines, in order, named with the number prefix and
   * trailing colon removed; the children, in order, are the bullet-stripped
   * lines longer than ten characters that follow a heading (those of topics
   * past the sixth are dropped with them), and each topic's children are the
   * ones up to the next heading line.
   */
  lemma ExtractedTopics(syllabus: string)
    requires |syllabus| >= MinSyllabusLength
    ensures var all := Topics(Fold(Start, Lines(syllabus)));
            && ExtractTopics(Some(syllabus)) == FirstSix(all)
            && Names(all) == HeadingNames(Lines(syllabus))
            && ChildNames(all) == SubtopicNames(Lines(syllabus), false)
            && ChildGroups(all) == Groups(Lines(syllabus))
  {
    FoldNames(Start, Lines(syllabus));
    FoldChildren(Start, Lines(syllabus));
    FoldGroups(Start, Lines(syllabus));
    assert Topics(Start) == [];
    assert ChildGroups([]) + [] == [];
  }

  /** A syllabus that is missing, shorter than 50 characters, or has no heading line gives no topics. */
  lemma NoTopicsWithoutHeadings(syllabus: Option<string>)
    requires syllabus.None? || |syllabus.value| < MinSyllabusLength || HeadingNames(Lines(syllabus.value)) == []
    ensures ExtractTopics(syllabus) == []
  {
    if syllabus.Some? && |syllabus.value| >= MinSyllabusLength {
      ExtractedTopics(syllabus.value);
    }
  }

  /** At most six topics, numbered from `topic1` with consecutive child ids, none completed. */
  lemma ExtractedNumbering(syllabus: Option<string>)
    ensures |ExtractTopics(syllabus)| <= MaxTopics
    ensures AllNumbered(ExtractTopics(syllabus))
  {
    if syllabus.Some? && |syllabus.value| >= MinSyllabusLength {
      FoldConsistent(Start, Lines(syllabus.value));
    }
  }

  // ---------------------------------------------------------------------------
  // Distinct ids
  // ---------------------------------------------------------------------------

  lemma NoDashInNumber(n: nat)
    ensures '-' !in NatToString(n)
  {
  }

  lemma TopicIdInjective(a: nat, b: nat)
    requires TopicId(a) == TopicId(b)
    ensures a == b
  {
    assert TopicId(a)[5..] == NatToString(a);
    assert TopicId(b)[5..] == NatToString(b);
    NatToStringInjective(a, b);
  }

  lemma SubtopicIdInjective(a: nat, b: nat, c: nat, d: nat)
    requires SubtopicId(a, b) == SubtopicId(c, d)
    ensures a == c && b == d
  {
    var x, y, z, w := NatToString(a), NatToString(b), NatToString(c), NatToString(d);
    NoDashInNumber(a);
    NoDashInNumber(c);
    var s := SubtopicId(a, b);
    assert s == "topic" + x + "-" + y;
    assert s == "topic" + z + "-" + w;
    assert s[5 + |x|] == '-';
    assert s[5 + |z|] == '-';
    assert x == s[5..5 + |x|] == z;
    assert y == s[6 + |x|..] == w;
    NatToStringInjective(a, c);
    NatToStringInjective(b, d);
  }

  lemma TopicIdIsNotSubtopicId(a: nat, c: nat, d: nat)
    ensures TopicId(a) != SubtopicId(c, d)
  {
    NoDashInNumber(a);
    var s := SubtopicId(c, d);
    assert s[5 + |NatToString(c)|] == '-';
    assert '-' !in "topic";
  }

  /** Every id in a numbered outline names one node only. */
  lemma NumberedIdsDistinct(ts: seq<Topic>)
    requires AllNumbered(ts)
    ensures forall k1, k2 :: 0 <= k1 < |ts| && 0 <= k2 < |ts| && ts[k1].id == ts[k2].id ==> k1 == k2
    ensures forall k1, j1, k2, j2 ::
              && 0 <= k1 < |ts| && 0 <= j1 < |ts[k1].children|
              && 0 <= k2 < |ts| && 0 <= j2 < |ts[k2].children|
              && ts[k1].children[j1].id == ts[k2].children[j2].id
              ==> k1 == k2 && j1 == j2
    ensures forall k1, k2, j2 :: 0 <= k1 < |ts| && 0 <= k2 < |ts| && 0 <= j2 < |ts[k2].children|
              ==> ts[k1].id != ts[k2].children[j2].id
  {
    forall k1, k2 | 0 <= k1 < |ts| && 0 <= k2 < |ts| && ts[k1].id == ts[k2].id
      ensures k1 == k2
    {
      assert NumberedAs(ts[k1], k1 + 1) && NumberedAs(ts[k2], k2 + 1);
      TopicIdInjective(k1 + 1, k2 + 1);
    }
    forall k1, j1, k2, j2 |
      && 0 <= k1 < |ts| && 0 <= j1 < |ts[k1].children|
      && 0 <= k2 < |ts| && 0 <= j2 < |ts[k2].children|
      && ts[k1].children[j1].id == ts[k2].children[j2].id
      ensures k1 == k2 && j1 == j2
    {
      assert NumberedAs(ts[k1], k1 + 1) && NumberedAs(ts[k2], k2 + 1);
      SubtopicIdInjective(k1 + 1, j1 + 1, k2 + 1, j2 + 1);
    }
    forall k1, k2, j2 | 0 <= k1 < |ts| && 0 <= k2 < |ts| && 0 <= j2 < |ts[k2].children|
      ensures ts[k1].id != ts[k2].children[j2].id
    {
      assert NumberedAs(ts[k1], k1 + 1) && NumberedAs(ts[k2], k2 + 1);
      TopicIdIsNotSubtopicId(k1 + 1, k2 + 1, j2 + 1);
    }
  }
}
