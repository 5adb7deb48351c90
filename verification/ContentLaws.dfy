/** What the section tree and the flattened block list promise, for every input. */
module ContentLaws {
  import opened Options
  import opened Seqs
  import opened StableSort
  import opened Generation
  import opened ContentTransform
  import opened Statecharts
  import FigureHtml
  import JsText

  // ---------------------------------------------------------------- outline order

  /** The position is the first place an id is listed, and -1 exactly when it is not listed. */
  lemma {:induction false} IndexOfFirst(ids: seq<string>, id: string)
    ensures IndexOf(ids, id) == -1 <==> id !in ids
    ensures IndexOf(ids, id) != -1 ==>
              && 0 <= IndexOf(ids, id) < |ids| && ids[IndexOf(ids, id)] == id
              && id !in ids[..IndexOf(ids, id)]
  {
    if ids != [] && ids[0] != id {
      IndexOfFirst(ids[1..], id);
      var i := IndexOf(ids[1..], id);
      assert id in ids <==> id in ids[1..];
      if i >= 0 {
        assert ids[..i + 1] == [ids[0]] + ids[1..][..i];
      }
    }
  }

  /** A section's lessons: the one stable sort by outline position, unlisted lessons first, none lost or added. */
  lemma SectionLessonsLaw(lessons: seq<GeneratedLesson>, section: OutlineSection, r: seq<GeneratedLesson>)
    ensures r == SectionLessons(lessons, section)
            <==> StableSortOf(PositionIn(section), Select(SectionIdOf, lessons, section.id), r)
    ensures r == SectionLessons(lessons, section) ==>
              forall i, j :: 0 <= i < j < |r| && r[j].outlineLessonId !in Map(OutlineLessonId, section.lessons)
                ==> r[i].outlineLessonId !in Map(OutlineLessonId, section.lessons)
    ensures r == SectionLessons(lessons, section) ==>
              forall x :: multiset(r)[x] == if x.sectionId == section.id then multiset(lessons)[x] else 0
  {
    var matching := Select(SectionIdOf, lessons, section.id);
    StableSortIsSortBy(PositionIn(section), matching, r);
    if r == SectionLessons(lessons, section) {
      var ids := Map(OutlineLessonId, section.lessons);
      forall i, j | 0 <= i < j < |r| && r[j].outlineLessonId !in ids ensures r[i].outlineLessonId !in ids {
        assert PositionIn(section)(r[i]) <= PositionIn(section)(r[j]);
        IndexOfFirst(ids, r[i].outlineLessonId);
        IndexOfFirst(ids, r[j].outlineLessonId);
      }
      SortByPermutes(PositionIn(section), matching);
      forall x ensures multiset(r)[x] == if x.sectionId == section.id then multiset(lessons)[x] else 0 {
        SelectCount(SectionIdOf, lessons, section.id, x);
      }
    }
  }

  /** The outline lists the lesson in this section. */
  predicate Listed(section: OutlineSection, lesson: GeneratedLesson) {
    exists p :: 0 <= p < |section.lessons| && section.lessons[p].id == lesson.outlineLessonId
  }

  lemma PositionOfListed(section: OutlineSection, lesson: GeneratedLesson)
    ensures var k := PositionIn(section)(lesson);
            && (k == -1 <==> !Listed(section, lesson))
            && (k != -1 ==>
                  && 0 <= k < |section.lessons| && section.lessons[k].id == lesson.outlineLessonId
                  && forall p :: 0 <= p < k ==> section.lessons[p].id != lesson.outlineLessonId)
  {
    var ids := Map(OutlineLessonId, section.lessons);
    IndexOfFirst(ids, lesson.outlineLessonId);
    var k := IndexOf(ids, lesson.outlineLessonId);
    assert k != -1 ==> forall p :: 0 <= p < k ==> ids[..k][p] == section.lessons[p].id;
  }

  function WithId(lessons: seq<GeneratedLesson>, id: string): seq<GeneratedLesson> {
    Select((x: GeneratedLesson) => x.outlineLessonId, lessons, id)
  }

  /**
   * The lessons of a section stand as the outline lists them: unlisted ones first, then by the first place of
   * their id; and those of one id, like the unlisted ones, in the order in which they were given.
   */
  lemma SectionFollowsOutline(lessons: seq<GeneratedLesson>, section: OutlineSection)
    ensures var r := SectionLessons(lessons, section);
            var given := Select((x: GeneratedLesson) => x.sectionId, lessons, section.id);
            && (forall i, j :: 0 <= i < j < |r| && Listed(section, r[i]) ==> Listed(section, r[j]))
            && (forall i, j, q :: 0 <= i < j < |r| && 0 <= q < |section.lessons| && Listed(section, r[i])
                                  && section.lessons[q].id == r[j].outlineLessonId ==>
                  exists p :: 0 <= p <= q && section.lessons[p].id == r[i].outlineLessonId)
            && (forall id :: WithId(r, id) == WithId(given, id))
            && Select((x: GeneratedLesson) => Listed(section, x), r, false)
               == Select((x: GeneratedLesson) => Listed(section, x), given, false)
  {
    var r := SectionLessons(lessons, section);
    var matching, key := Select(SectionIdOf, lessons, section.id), PositionIn(section);
    var given := Select((x: GeneratedLesson) => x.sectionId, lessons, section.id);
    SelectSameKey(SectionIdOf, (x: GeneratedLesson) => x.sectionId, lessons, section.id);
    assert given == matching;
    SortByIsStableSort(key, matching);
    forall x: GeneratedLesson ensures key(x) == -1 <==> !Listed(section, x) {
      PositionOfListed(section, x);
    }
    forall i, j | 0 <= i < j < |r| && Listed(section, r[i]) ensures Listed(section, r[j]) {
      PositionOfListed(section, r[i]);
      PositionOfListed(section, r[j]);
    }
    forall i, j, q | 0 <= i < j < |r| && 0 <= q < |section.lessons| && Listed(section, r[i])
                     && section.lessons[q].id == r[j].outlineLessonId
      ensures exists p :: 0 <= p <= q && section.lessons[p].id == r[i].outlineLessonId
    {
      PositionOfListed(section, r[i]);
      PositionOfListed(section, r[j]);
      assert key(r[i]) <= key(r[j]) <= q;
    }
    forall id ensures WithId(r, id) == WithId(given, id) {
      SortKeepsFiles(key, (x: GeneratedLesson) => x.outlineLessonId, matching, id,
                     IndexOf(Map(OutlineLessonId, section.lessons), id));
    }
    SortKeepsFiles(key, (x: GeneratedLesson) => Listed(section, x), matching, false, -1);
  }

  function ComponentsAt(components: seq<LessonComponent>, order: int): seq<LessonComponent> {
    Select((c: LessonComponent) => c.order, components, order)
  }

  function BlocksAt(blocks: seq<CourseBlock>, order: int): seq<CourseBlock> {
    Select((b: CourseBlock) => b.order, blocks, order)
  }

  /** A lesson's blocks ascend by order; those of one order are the components of that order, as given. */
  lemma BlocksFollowOrder(parse: JsonParser, lesson: GeneratedLesson)
    ensures var blocks := BlocksOf(LessonToLesson(parse, lesson));
            && (forall i, j :: 0 <= i < j < |blocks| ==> blocks[i].order <= blocks[j].order)
            && (forall k :: BlocksAt(blocks, k) == Map(ToBlock(parse), ComponentsAt(lesson.components, k)))
  {
    var sorted := SortBy(ComponentOrder, lesson.components);
    SortByIsStableSort(ComponentOrder, lesson.components);
    forall k
      ensures BlocksAt(Map(ToBlock(parse), sorted), k) == Map(ToBlock(parse), ComponentsAt(lesson.components, k))
    {
      SelectMap(ToBlock(parse), (c: LessonComponent) => c.order, (b: CourseBlock) => b.order, sorted, k);
      SelectSameKey(ComponentOrder, (c: LessonComponent) => c.order, sorted, k);
      SelectSameKey(ComponentOrder, (c: LessonComponent) => c.order, lesson.components, k);
    }
  }

  // ---------------------------------------------------------------- conservation

  function LessonsFor(lessons: seq<GeneratedLesson>): OutlineSection -> seq<GeneratedLesson> {
    (section: OutlineSection) => SectionLessons(lessons, section)
  }

  /** The generated lessons in the order in which the result lists them. */
  function Placed(lessons: seq<GeneratedLesson>, sections: seq<OutlineSection>): seq<GeneratedLesson> {
    FlatMap(LessonsFor(lessons), sections)
  }

  function LessonsOf(section: CourseSection): seq<Lesson> {
    section.lessons
  }

  function ComponentCount(lesson: GeneratedLesson): nat {
    |lesson.components|
  }

  /** A lesson is placed once for each of its copies and each outline section that carries its section id. */
  lemma {:induction false} PlacedCount(lessons: seq<GeneratedLesson>, sections: seq<OutlineSection>, x: GeneratedLesson)
    ensures multiset(Placed(lessons, sections))[x]
         == multiset(lessons)[x] * multiset(Map(OutlineSectionId, sections))[x.sectionId]
  {
    if sections != [] {
      var first, rest := SectionLessons(lessons, sections[0]), Placed(lessons, sections[1..]);
      PlacedCount(lessons, sections[1..], x);
      SectionLessonsLaw(lessons, sections[0], first);
      IdCount(sections, x.sectionId);
      Distribute(multiset(lessons)[x], multiset(Map(OutlineSectionId, sections[1..]))[x.sectionId]);
    }
  }

  lemma Distribute(n: nat, m: nat)
    ensures n * (1 + m) == n + n * m
  {
  }

  lemma IdCount(sections: seq<OutlineSection>, id: string)
    requires sections != []
    ensures multiset(Map(OutlineSectionId, sections))[id]
         == (if id == sections[0].id then 1 else 0) + multiset(Map(OutlineSectionId, sections[1..]))[id]
  {
    assert Map(OutlineSectionId, sections) == [sections[0].id] + Map(OutlineSectionId, sections[1..]);
  }

  /** With distinct section ids every lesson whose section is in the outline appears exactly as often as given. */
  lemma EveryLessonOnce(lessons: seq<GeneratedLesson>, sections: seq<OutlineSection>, x: GeneratedLesson)
    requires forall i, j :: 0 <= i < j < |sections| ==> sections[i].id != sections[j].id
    ensures multiset(Placed(lessons, sections))[x]
         == if x.sectionId in Map(OutlineSectionId, sections) then multiset(lessons)[x] else 0
  {
    var ids, n := Map(OutlineSectionId, sections), multiset(lessons)[x];
    PlacedCount(lessons, sections, x);
    DistinctOnce(ids, x.sectionId);
    assert multiset(ids)[x.sectionId] == 1 ==> n * multiset(ids)[x.sectionId] == n;
  }

  lemma {:induction false} DistinctOnce(ids: seq<string>, id: string)
    requires forall i, j :: 0 <= i < j < |ids| ==> ids[i] != ids[j]
    ensures multiset(ids)[id] == if id in ids then 1 else 0
  {
    if ids != [] {
      DistinctOnce(ids[1..], id);
      assert ids == [ids[0]] + ids[1..];
    }
  }

  /** The tree lists exactly the placed lessons, and the flat list has one block per component of theirs. */
  lemma {:induction false} TreeHoldsPlacedLessons(
      parse: JsonParser, lessons: seq<GeneratedLesson>, sections: seq<OutlineSection>)
    ensures FlatMap(LessonsOf, Map(ToSection(parse, lessons), sections))
         == Map(ToLesson(parse), Placed(lessons, sections))
    ensures |Number(NestedBlocks(Map(ToSection(parse, lessons), sections)))|
         == Sum(ComponentCount, Placed(lessons, sections))
  {
    if sections != [] {
      var first, rest := SectionLessons(lessons, sections[0]), Placed(lessons, sections[1..]);
      TreeHoldsPlacedLessons(parse, lessons, sections[1..]);
      MapAppend(ToLesson(parse), first, rest);
      assert Map(ToSection(parse, lessons), sections)[1..] == Map(ToSection(parse, lessons), sections[1..]);
      LessonBlockCount(parse, first);
      SumAppend(ComponentCount, first, rest);
    }
  }

  lemma {:induction false} LessonBlockCount(parse: JsonParser, lessons: seq<GeneratedLesson>)
    ensures |FlatMap(StampedBlocks, Map(ToLesson(parse), lessons))| == Sum(ComponentCount, lessons)
  {
    if lessons != [] {
      LessonBlockCount(parse, lessons[1..]);
      SortByPermutes(ComponentOrder, lessons[0].components);
      assert |multiset(SortBy(ComponentOrder, lessons[0].components))| == |lessons[0].components|;
      assert Map(ToLesson(parse), lessons)[1..] == Map(ToLesson(parse), lessons[1..]);
    }
  }

  // ---------------------------------------------------------------- global numbering

  /** The number of blocks the tree lists before block b of lesson l of section s. */
  function Offset(sections: seq<CourseSection>, s: nat, l: nat, b: nat): nat
    requires s < |sections| && l < |sections[s].lessons|
  {
    |NestedBlocks(sections[..s])| + |FlatMap(StampedBlocks, sections[s].lessons[..l])| + b
  }

  /** Each nested block reappears at its offset, changed only in its order and its lesson id. */
  lemma BlockAtOffset(sections: seq<CourseSection>, s: nat, l: nat, b: nat)
    requires s < |sections| && l < |sections[s].lessons| && b < |BlocksOf(sections[s].lessons[l])|
    ensures var flat, at := Number(NestedBlocks(sections)), Offset(sections, s, l, b);
            && at < |flat|
            && flat[at]
               == BlocksOf(sections[s].lessons[l])[b].(order := at, lessonId := Some(sections[s].lessons[l].id))
  {
    var lessons := sections[s].lessons;
    var at := FlatMapAt(StampedBlocks, lessons, l, b);
    assert SectionBlocks(sections[s])[at] == StampedBlocks(lessons[l])[b];
    var flatAt := FlatMapAt(SectionBlocks, sections, s, at);
    assert flatAt == Offset(sections, s, l, b);
  }

  /** Conversely, every entry of the flat list is some nested block, at the offset that is the entry's order. */
  lemma EntryOrigin(sections: seq<CourseSection>, at: nat) returns (s: nat, l: nat, b: nat)
    requires at < |Number(NestedBlocks(sections))|
    ensures s < |sections| && l < |sections[s].lessons| && b < |BlocksOf(sections[s].lessons[l])|
    ensures at == Offset(sections, s, l, b) == Number(NestedBlocks(sections))[at].order
  {
    var inSection;
    s, inSection := FlatMapOrigin(SectionBlocks, sections, at);
    l, b := FlatMapOrigin(StampedBlocks, sections[s].lessons, inSection);
  }

  // ---------------------------------------------------------------- what a block shows

  /** The first text that is there and not empty, else the empty text. */
  function FirstText(texts: seq<Option<string>>): string {
    if texts == [] then "" else if texts[0].GetOr("") != "" then texts[0].value else FirstText(texts[1..])
  }

  /** b shows component c: type and content by the number of its type, its id, and its learning objectives. */
  ghost predicate Shows(parse: JsonParser, c: LessonComponent, b: CourseBlock) {
    var fields := parse(c.contentJson);
    && b.id == c.id && b.prompt == None
    && b.blockType == (match c.typeNumber case 2 => Heading case 4 => KnowledgeCheck case _ => Text)
    && (c.typeNumber == 1 ==>
          b.content == if fields.Some? then FirstText([fields.value.html, fields.value.plaintext]) else "")
    && (c.typeNumber == 2 ==> b.content == if fields.Some? then FirstText([fields.value.text]) else "")
    && (c.typeNumber == 3 ==>
          FigureHtml.Parse(b.content).Some? && FigureHtml.Parse(b.content).value.url == fields.GetOr(NO_FIELDS).url)
    && (c.typeNumber == 4 ==> b.content == c.contentJson)
    && (c.typeNumber !in {1, 2, 3, 4} ==>
          b.content == "[Unknown component type: " + JsText.Decimal(c.typeNumber) + "]")
    && (match c.alignment
        case None => b.alignment == None
        case Some(a) => b.alignment == Some(BlockAlignment([], a.learningObjectiveIds, [])))
  }

  lemma FirstOfTwo(a: Option<string>, b: Option<string>)
    ensures FirstText([a, b]) == if a.GetOr("") != "" then a.value else b.GetOr("")
    ensures FirstText([a]) == a.GetOr("")
  {
    assert [a, b][1..] == [b] && [b][1..] == [] && [a][1..] == [];
    assert FirstText([b]) == b.GetOr("");
  }

  lemma BlockShowsComponent(parse: JsonParser, c: LessonComponent)
    ensures Shows(parse, c, ComponentToBlock(parse, c))
  {
    if c.typeNumber == IMAGE {
      ImageBlockRoundTrip(parse, c);
    }
    var fields := parse(c.contentJson).GetOr(NO_FIELDS);
    FirstOfTwo(fields.html, fields.plaintext);
    FirstOfTwo(fields.text, None);
  }

  /** The tree mirrors the outline: its sections in order, each lesson under its own id and title. */
  lemma TreeMirrorsOutline(parse: JsonParser, lessons: seq<GeneratedLesson>, sections: seq<OutlineSection>, s: nat)
    requires s < |sections|
    ensures var tree, placed := Map(ToSection(parse, lessons), sections), SectionLessons(lessons, sections[s]);
            && |tree| == |sections|
            && tree[s].id == sections[s].id && tree[s].name == sections[s].title
            && |tree[s].lessons| == |placed|
            && forall l :: 0 <= l < |placed| ==>
                 && tree[s].lessons[l].id == placed[l].id && tree[s].lessons[l].title == placed[l].title
                 && tree[s].lessons[l].content == None
  {
  }

  /** Every entry of the flat list shows a component of a given lesson, under that lesson's id and its own place. */
  lemma EntriesShowComponents(parse: JsonParser, lessons: seq<GeneratedLesson>, sections: seq<OutlineSection>, at: nat)
    returns (lesson: GeneratedLesson, c: LessonComponent)
    requires at < |Number(NestedBlocks(Map(ToSection(parse, lessons), sections)))|
    ensures lesson in lessons && c in lesson.components
    ensures exists s :: 0 <= s < |sections| && sections[s].id == lesson.sectionId
    ensures var entry := Number(NestedBlocks(Map(ToSection(parse, lessons), sections)))[at];
            Shows(parse, c, entry) && entry.order == at && entry.lessonId == Some(lesson.id)
  {
    var tree := Map(ToSection(parse, lessons), sections);
    var s, l, b := EntryOrigin(tree, at);
    BlockAtOffset(tree, s, l, b);
    var placed := SectionLessons(lessons, sections[s]);
    lesson := placed[l];
    SortByPermutes(PositionIn(sections[s]), Select(SectionIdOf, lessons, sections[s].id));
    assert lesson in multiset(placed);
    SelectMembers(SectionIdOf, lessons, sections[s].id);
    var sorted := SortBy(ComponentOrder, lesson.components);
    c := sorted[b];
    SortByPermutes(ComponentOrder, lesson.components);
    assert c in multiset(sorted);
    BlockShowsComponent(parse, c);
  }

  // ---------------------------------------------------------------- images

  /** An image component survives as a figure: the block's text parses back to its url, texts and caption. */
  lemma ImageBlockRoundTrip(parse: JsonParser, c: LessonComponent)
    requires c.typeNumber == IMAGE
    ensures FigureHtml.Parse(ComponentToBlock(parse, c).content)
         == (var fields := parse(c.contentJson).GetOr(NO_FIELDS);
             Some(FigureHtml.Figure(fields.url, fields.altText,
                                    if fields.caption == Some("") then None else fields.caption)))
  {
    var fields := parse(c.contentJson).GetOr(NO_FIELDS);
    FigureHtml.ParsePrint(FigureHtml.Figure(fields.url, fields.altText, fields.caption));
  }

  // ---------------------------------------------------------------- independence of input order

  datatype LessonShape = LessonShape(
    id: string, sectionId: string, outlineLessonId: string, title: string, components: multiset<LessonComponent>)

  /** A lesson up to the order of its components. */
  function Shape(lesson: GeneratedLesson): LessonShape {
    LessonShape(lesson.id, lesson.sectionId, lesson.outlineLessonId, lesson.title, multiset(lesson.components))
  }

  function SectionOfShape(shape: LessonShape): string {
    shape.sectionId
  }

  /** The same lessons in any order, each with the same components in any order. */
  ghost predicate Rearranged(a: seq<GeneratedLesson>, b: seq<GeneratedLesson>) {
    multiset(Map(Shape, a)) == multiset(Map(Shape, b))
  }

  /** In a section, lessons at one outline position come out alike, and so do components of one order. */
  ghost predicate TiesComeOutAlike(parse: JsonParser, lessons: seq<GeneratedLesson>, section: OutlineSection) {
    var matching := Select(SectionIdOf, lessons, section.id);
    && TiesAgree(PositionIn(section), ToLesson(parse), matching)
    && forall lesson :: lesson in matching ==> TiesAgree(ComponentOrder, ToBlock(parse), lesson.components)
  }

  lemma SameShapeSameLesson(parse: JsonParser, x: GeneratedLesson, y: GeneratedLesson)
    requires Shape(x) == Shape(y) && TiesAgree(ComponentOrder, ToBlock(parse), x.components)
    ensures LessonToLesson(parse, x) == LessonToLesson(parse, y)
  {
    SortByIgnoresOrder(ComponentOrder, ToBlock(parse), x.components);
    assert SortsAlike(ComponentOrder, ToBlock(parse), x.components, y.components);
  }

  lemma RearrangedMatches(a: seq<GeneratedLesson>, b: seq<GeneratedLesson>, id: string)
    requires Rearranged(a, b)
    ensures Rearranged(Select(SectionIdOf, a, id), Select(SectionIdOf, b, id))
  {
    SelectMap(Shape, SectionIdOf, SectionOfShape, a, id);
    SelectMap(Shape, SectionIdOf, SectionOfShape, b, id);
    SelectsHaveSameElements(SectionOfShape, Map(Shape, a), Map(Shape, b), id);
  }

  lemma AlikeTiesGiveSameSection(parse: JsonParser, a: seq<GeneratedLesson>, b: seq<GeneratedLesson>,
                                 section: OutlineSection)
    requires Rearranged(a, b) && TiesComeOutAlike(parse, a, section)
    ensures BuildSection(parse, a, section) == BuildSection(parse, b, section)
  {
    var key, g := PositionIn(section), ToLesson(parse);
    var inA, inB := Select(SectionIdOf, a, section.id), Select(SectionIdOf, b, section.id);
    RearrangedMatches(a, b, section.id);
    forall x, y | x in inA && y in inB && Shape(x) == Shape(y) ensures KeyedBy(key, g)(x) == KeyedBy(key, g)(y) {
      SameShapeSameLesson(parse, x, y);
    }
    ImagesFollow(Shape, KeyedBy(key, g), inA, inB);
    SortImagesAlike(key, g, inA, inB);
  }

  /** Two lessons of a section at one position: unless they come out alike, their order shows. */
  lemma LessonOrderShows(parse: JsonParser, a: seq<GeneratedLesson>, section: OutlineSection,
                         x: GeneratedLesson, y: GeneratedLesson) returns (b: seq<GeneratedLesson>)
    requires x in a && y in a && x.sectionId == y.sectionId == section.id
    requires PositionIn(section)(x) == PositionIn(section)(y) && ToLesson(parse)(x) != ToLesson(parse)(y)
    ensures Rearranged(a, b) && BuildSection(parse, a, section) != BuildSection(parse, b, section)
  {
    var rest := ToFront(a, x, y);
    var one, other := [x, y] + rest, [y, x] + rest;
    SameElementsSameImages(Shape, a, one);
    SameElementsSameImages(Shape, a, other);
    var others := Select(SectionIdOf, rest, section.id);
    SelectFront(SectionIdOf, x, y, rest, section.id);
    SelectFront(SectionIdOf, y, x, rest, section.id);
    if BuildSection(parse, one, section) == BuildSection(parse, other, section) {
      TieAtFront(PositionIn(section), ToLesson(parse), x, y, others);
    }
    b := one;
    if BuildSection(parse, a, section) == BuildSection(parse, b, section) {
      b := other;
    }
  }

  /** A lesson of a replaced by one of the same shape, at the front. */
  lemma ReplacedAtFront(a: seq<GeneratedLesson>, k: nat, lesson: GeneratedLesson)
    requires k < |a| && Shape(lesson) == Shape(a[k])
    ensures Rearranged(a, [lesson] + (a[..k] + a[k + 1..]))
  {
    var others := a[..k] + a[k + 1..];
    MapTakeOut(Shape, a, k);
    MapTakeOut(Shape, [lesson] + others, 0);
    assert ([lesson] + others)[..0] + ([lesson] + others)[1..] == others;
  }

  /** Lessons that differ in the order of their components only, in front of the same others. */
  lemma FrontLessonShows(parse: JsonParser, section: OutlineSection, x: GeneratedLesson, y: GeneratedLesson,
                         others: seq<GeneratedLesson>)
    requires Shape(x) == Shape(y) && x.sectionId == section.id
    requires BuildSection(parse, [x] + others, section) == BuildSection(parse, [y] + others, section)
    ensures LessonToLesson(parse, x) == LessonToLesson(parse, y)
  {
    var key, g := PositionIn(section), ToLesson(parse);
    var sorted := SortBy(key, Select(SectionIdOf, others, section.id));
    assert ([x] + others)[1..] == others && ([y] + others)[1..] == others;
    var p := InsertSamePlace(key, x, y, sorted);
    assert SectionLessons([x] + others, section) == Insert(key, x, sorted);
    assert SectionLessons([y] + others, section) == Insert(key, y, sorted);
    assert Map(g, Insert(key, x, sorted))[p] == g(x) && Map(g, Insert(key, y, sorted))[p] == g(y);
  }

  /** Two components of one order in a lesson of a section: unless they come out alike, their order shows. */
  lemma ComponentOrderShows(parse: JsonParser, a: seq<GeneratedLesson>, section: OutlineSection,
                            k: nat, c: LessonComponent, d: LessonComponent) returns (b: seq<GeneratedLesson>)
    requires k < |a| && a[k].sectionId == section.id && c in a[k].components && d in a[k].components
    requires c.order == d.order && ToBlock(parse)(c) != ToBlock(parse)(d)
    ensures Rearranged(a, b) && BuildSection(parse, a, section) != BuildSection(parse, b, section)
  {
    var rest := ToFront(a[k].components, c, d);
    var x, y := a[k].(components := [c, d] + rest), a[k].(components := [d, c] + rest);
    var others := a[..k] + a[k + 1..];
    ReplacedAtFront(a, k, x);
    ReplacedAtFront(a, k, y);
    if BuildSection(parse, [x] + others, section) == BuildSection(parse, [y] + others, section) {
      FrontLessonShows(parse, section, x, y, others);
      TieAtFront(ComponentOrder, ToBlock(parse), c, d, rest);
    }
    b := [x] + others;
    if BuildSection(parse, a, section) == BuildSection(parse, b, section) {
      b := [y] + others;
    }
  }

  lemma UnlikeTiesShow(parse: JsonParser, a: seq<GeneratedLesson>, section: OutlineSection)
    returns (b: seq<GeneratedLesson>)
    requires !TiesComeOutAlike(parse, a, section)
    ensures Rearranged(a, b) && BuildSection(parse, a, section) != BuildSection(parse, b, section)
  {
    var matching := Select(SectionIdOf, a, section.id);
    SelectMembers(SectionIdOf, a, section.id);
    if !TiesAgree(PositionIn(section), ToLesson(parse), matching) {
      var x, y :| x in matching && y in matching && PositionIn(section)(x) == PositionIn(section)(y)
                  && ToLesson(parse)(x) != ToLesson(parse)(y);
      b := LessonOrderShows(parse, a, section, x, y);
    } else {
      var lesson :| lesson in matching && !TiesAgree(ComponentOrder, ToBlock(parse), lesson.components);
      var k :| 0 <= k < |a| && a[k] == lesson;
      var c, d :| c in lesson.components && d in lesson.components && ComponentOrder(c) == ComponentOrder(d)
                  && ToBlock(parse)(c) != ToBlock(parse)(d);
      b := ComponentOrderShows(parse, a, section, k, c, d);
    }
  }

  /** If b is a rearrangement of a, both give the same section tree and the same flat list. */
  ghost predicate SameCourse(parse: JsonParser, outline: CourseOutline,
                             a: seq<GeneratedLesson>, b: seq<GeneratedLesson>) {
    Rearranged(a, b) ==>
      var treeA, treeB := Map(ToSection(parse, a), outline.sections), Map(ToSection(parse, b), outline.sections);
      treeA == treeB && Number(NestedBlocks(treeA)) == Number(NestedBlocks(treeB))
  }

  /**
   * Reordering the lessons and the components inside each lesson never changes the course exactly when, in
   * each section of the outline, lessons at one position come out alike and components of one order do.
   */
  lemma InputOrderIrrelevant(parse: JsonParser, a: seq<GeneratedLesson>, outline: CourseOutline)
    ensures (forall section :: section in outline.sections ==> TiesComeOutAlike(parse, a, section))
       <==> forall b :: SameCourse(parse, outline, a, b)
  {
    var sections := outline.sections;
    if forall section :: section in sections ==> TiesComeOutAlike(parse, a, section) {
      forall b ensures SameCourse(parse, outline, a, b) {
        if Rearranged(a, b) {
          forall i | 0 <= i < |sections|
            ensures BuildSection(parse, a, sections[i]) == BuildSection(parse, b, sections[i])
          {
            AlikeTiesGiveSameSection(parse, a, b, sections[i]);
          }
          assert Map(ToSection(parse, a), sections) == Map(ToSection(parse, b), sections);
        }
      }
    } else {
      var i :| 0 <= i < |sections| && !TiesComeOutAlike(parse, a, sections[i]);
      var b := UnlikeTiesShow(parse, a, sections[i]);
      assert Map(ToSection(parse, a), sections)[i] != Map(ToSection(parse, b), sections)[i];
      assert !SameCourse(parse, outline, a, b);
    }
  }

  /** In particular when the lessons of each section have distinct positions and their components distinct orders. */
  lemma DistinctOrdersSuffice(parse: JsonParser, a: seq<GeneratedLesson>, b: seq<GeneratedLesson>,
                              outline: CourseOutline)
    requires Rearranged(a, b)
    requires forall section :: section in outline.sections ==>
               && DistinctKeys(PositionIn(section), Select(SectionIdOf, a, section.id))
               && forall lesson :: lesson in Select(SectionIdOf, a, section.id) ==>
                    DistinctKeys(ComponentOrder, lesson.components)
    ensures var treeA, treeB := Map(ToSection(parse, a), outline.sections), Map(ToSection(parse, b), outline.sections);
            treeA == treeB && Number(NestedBlocks(treeA)) == Number(NestedBlocks(treeB))
  {
    forall section | section in outline.sections ensures TiesComeOutAlike(parse, a, section) {
      DistinctTiesAgree(PositionIn(section), ToLesson(parse), Select(SectionIdOf, a, section.id));
      forall lesson | lesson in Select(SectionIdOf, a, section.id)
        ensures TiesAgree(ComponentOrder, ToBlock(parse), lesson.components)
      {
        DistinctTiesAgree(ComponentOrder, ToBlock(parse), lesson.components);
      }
    }
    InputOrderIrrelevant(parse, a, outline);
    assert SameCourse(parse, outline, a, b);
  }

  // ---------------------------------------------------------------- regeneration

  function Regenerate(parse: JsonParser): (CourseBlock, LessonComponent) -> CourseBlock {
    (block: CourseBlock, c: LessonComponent) => RegeneratedToBlock(parse, c, block)
  }

  /** The alignment of the last component that has one, else the default. */
  function LastAlignment(cs: seq<LessonComponent>, default: Option<BlockAlignment>): Option<BlockAlignment> {
    if cs == [] then default
    else if cs[|cs| - 1].alignment.Some? then TransformAlignment(cs[|cs| - 1].alignment)
    else LastAlignment(cs[..|cs| - 1], default)
  }

  /** However often a block is regenerated, it ends as the last component in the original block's place. */
  lemma {:induction false} RegenerationHistory(parse: JsonParser, cs: seq<LessonComponent>, block: CourseBlock)
    requires cs != []
    ensures Run(Regenerate(parse), block, cs)
         == (var last := cs[|cs| - 1];
             CourseBlock(last.id, BlockTypeOf(last.typeNumber), BlockContent(parse, last), block.prompt,
                         LastAlignment(cs, block.alignment), block.order, None))
    decreases |cs|
  {
    var before, last := cs[..|cs| - 1], cs[|cs| - 1];
    assert cs == before + [last];
    RunAppend(Regenerate(parse), block, before, [last]);
    var earlier := Run(Regenerate(parse), block, before);
    assert Run(Regenerate(parse), earlier, [last])
        == Run(Regenerate(parse), RegeneratedToBlock(parse, last, earlier), []);
    if before != [] {
      RegenerationHistory(parse, before, block);
    }
  }

  /** Regenerating any entries of the flat list, any number of times, keeps its numbering dense. */
  lemma RegenerationKeepsNumbering(parse: JsonParser, blocks: seq<CourseBlock>, updates: seq<seq<LessonComponent>>)
    requires |updates| == |blocks|
    requires forall i :: 0 <= i < |blocks| ==> blocks[i].order == i
    ensures forall i :: 0 <= i < |blocks| ==>
              var b := Run(Regenerate(parse), blocks[i], updates[i]);
              b.order == i && b.lessonId == if updates[i] == [] then blocks[i].lessonId else None
  {
    forall i | 0 <= i < |blocks|
      ensures var b := Run(Regenerate(parse), blocks[i], updates[i]);
              b.order == i && b.lessonId == if updates[i] == [] then blocks[i].lessonId else None
    {
      if updates[i] != [] {
        RegenerationHistory(parse, updates[i], blocks[i]);
      }
    }
  }
}
