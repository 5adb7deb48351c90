/**
 * From generated lessons and an approved outline to the editor's section tree and its flattened, globally
 * numbered block list.
 */
module ContentTransform {
  import opened Options
  import opened JsText
  import opened Seqs
  import opened StableSort
  import opened Generation
  import FigureHtml

  /** The fields read from a component's parsed content; text fields may be missing. */
  datatype JsonFields = JsonFields(
    html: Option<string>, plaintext: Option<string>, text: Option<string>,
    url: string, altText: string, caption: Option<string>)

  const NO_FIELDS := JsonFields(None, None, None, "", "", None)

  /** `JSON.parse`; None stands for a thrown error, after which the default content is used. */
  type JsonParser = string -> Option<JsonFields>

  datatype BlockType = Heading | Text | Interactive | KnowledgeCheck

  datatype BlockAlignment = BlockAlignment(
    personas: seq<string>, learningObjectives: seq<string>, kpis: seq<string>)

  datatype CourseBlock = CourseBlock(
    id: string, blockType: BlockType, content: string, prompt: Option<string>,
    alignment: Option<BlockAlignment>, order: int, lessonId: Option<string>)

  datatype Lesson = Lesson(id: string, title: string, content: Option<string>, blocks: Option<seq<CourseBlock>>)

  datatype CourseSection = CourseSection(id: string, name: string, lessons: seq<Lesson>)

  // ---------------------------------------------------------------- one component, one lesson

  function TransformAlignment(alignment: Option<ComponentAlignment>): Option<BlockAlignment> {
    match alignment
    case None => None
    case Some(a) => Some(BlockAlignment([], a.learningObjectiveIds, []))
  }

  function BlockTypeOf(typeNumber: int): BlockType {
    if typeNumber == HEADING then Heading else if typeNumber == QUIZ then KnowledgeCheck else Text
  }

  function BlockContent(parse: JsonParser, c: LessonComponent): string {
    var fields := parse(c.contentJson).GetOr(NO_FIELDS);
    if c.typeNumber == TEXT then OrElse(fields.html, OrElse(fields.plaintext, ""))
    else if c.typeNumber == HEADING then OrElse(fields.text, "")
    else if c.typeNumber == IMAGE then FigureHtml.Print(FigureHtml.Figure(fields.url, fields.altText, fields.caption))
    else if c.typeNumber == QUIZ then c.contentJson
    else "[Unknown component type: " + Decimal(c.typeNumber) + "]"
  }

  function ComponentToBlock(parse: JsonParser, c: LessonComponent): CourseBlock {
    CourseBlock(c.id, BlockTypeOf(c.typeNumber), BlockContent(parse, c), None,
                TransformAlignment(c.alignment), c.order, None)
  }

  function ToBlock(parse: JsonParser): LessonComponent -> CourseBlock {
    (c: LessonComponent) => ComponentToBlock(parse, c)
  }

  function ComponentOrder(c: LessonComponent): int {
    c.order
  }

  function LessonToLesson(parse: JsonParser, lesson: GeneratedLesson): Lesson {
    Lesson(lesson.id, lesson.title, None, Some(Map(ToBlock(parse), SortBy(ComponentOrder, lesson.components))))
  }

  function ToLesson(parse: JsonParser): GeneratedLesson -> Lesson {
    (lesson: GeneratedLesson) => LessonToLesson(parse, lesson)
  }

  /** A regenerated component takes over an existing block's place and prompt, and its alignment if it brings none. */
  function RegeneratedToBlock(parse: JsonParser, c: LessonComponent, existing: CourseBlock): CourseBlock {
    var newBlock := ComponentToBlock(parse, c);
    newBlock.(order := existing.order,
              alignment := if newBlock.alignment.Some? then newBlock.alignment else existing.alignment,
              prompt := existing.prompt)
  }

  // ---------------------------------------------------------------- sections

  /** `ids.indexOf(id)`. */
  function IndexOf(ids: seq<string>, id: string): int {
    if ids == [] then -1
    else if ids[0] == id then 0
    else var i := IndexOf(ids[1..], id); if i < 0 then -1 else i + 1
  }

  function OutlineLessonId(lesson: OutlineLesson): string {
    lesson.id
  }

  function OutlineSectionId(section: OutlineSection): string {
    section.id
  }

  function SectionIdOf(lesson: GeneratedLesson): string {
    lesson.sectionId
  }

  /** The outline position of a lesson within a section; -1 when the section does not list it. */
  function PositionIn(section: OutlineSection): GeneratedLesson -> int {
    var ids := Map(OutlineLessonId, section.lessons);
    (lesson: GeneratedLesson) => IndexOf(ids, lesson.outlineLessonId)
  }

  /** The lessons filed under a section, in outline order. */
  function SectionLessons(lessons: seq<GeneratedLesson>, section: OutlineSection): seq<GeneratedLesson> {
    SortBy(PositionIn(section), Select(SectionIdOf, lessons, section.id))
  }

  function BuildSection(parse: JsonParser, lessons: seq<GeneratedLesson>, section: OutlineSection): CourseSection {
    CourseSection(section.id, section.title, Map(ToLesson(parse), SectionLessons(lessons, section)))
  }

  function ToSection(parse: JsonParser, lessons: seq<GeneratedLesson>): OutlineSection -> CourseSection {
    (section: OutlineSection) => BuildSection(parse, lessons, section)
  }

  // ---------------------------------------------------------------- flattening, as a reference

  function BlocksOf(lesson: Lesson): seq<CourseBlock> {
    lesson.blocks.GetOr([])
  }

  function StampWith(lessonId: string): CourseBlock -> CourseBlock {
    (b: CourseBlock) => b.(lessonId := Some(lessonId))
  }

  /** A lesson's blocks, each carrying the id of its lesson. */
  function StampedBlocks(lesson: Lesson): seq<CourseBlock> {
    Map(StampWith(lesson.id), BlocksOf(lesson))
  }

  function SectionBlocks(section: CourseSection): seq<CourseBlock> {
    FlatMap(StampedBlocks, section.lessons)
  }

  /** Every block of the tree, over sections, then lessons, then blocks. */
  function NestedBlocks(sections: seq<CourseSection>): seq<CourseBlock> {
    FlatMap(SectionBlocks, sections)
  }

  /** The same blocks with `order` replaced by their place in the list. */
  function Number(blocks: seq<CourseBlock>): seq<CourseBlock> {
    seq(|blocks|, i requires 0 <= i < |blocks| => blocks[i].(order := i))
  }

  lemma NumberSnoc(blocks: seq<CourseBlock>, b: CourseBlock)
    ensures Number(blocks + [b]) == Number(blocks) + [b.(order := |blocks|)]
  {
  }

  /** The pushes for one lesson: every block goes out under the running counter and the lesson's id. */
  method PushBlocks(lessonData: Lesson, pushed: seq<CourseBlock>, counter: nat, ghost nested: seq<CourseBlock>)
    returns (allBlocks: seq<CourseBlock>, globalOrder: nat)
    requires pushed == Number(nested) && counter == |nested|
    ensures allBlocks == Number(nested + StampedBlocks(lessonData))
    ensures globalOrder == |nested| + |BlocksOf(lessonData)|
  {
    allBlocks, globalOrder := pushed, counter;
    var blocks := BlocksOf(lessonData);
    ghost var stamped := StampedBlocks(lessonData);
    assert nested + stamped[..0] == nested;
    for k := 0 to |blocks|
      invariant allBlocks == Number(nested + stamped[..k])
      invariant globalOrder == |nested| + k
    {
      NumberSnoc(nested + stamped[..k], stamped[k]);
      assert nested + stamped[..k] + [stamped[k]] == nested + stamped[..k + 1];
      allBlocks := allBlocks + [blocks[k].(order := globalOrder, lessonId := Some(lessonData.id))];
      globalOrder := globalOrder + 1;
    }
    assert stamped[..|blocks|] == stamped;
  }

  /** One turn of the section loop: the section's lessons are transformed and their blocks pushed. */
  method TransformSection(parse: JsonParser, lessons: seq<GeneratedLesson>, outlineSection: OutlineSection,
                          pushed: seq<CourseBlock>, counter: nat, ghost nested: seq<CourseBlock>)
    returns (section: CourseSection, allBlocks: seq<CourseBlock>, globalOrder: nat)
    requires pushed == Number(nested) && counter == |nested|
    ensures section == BuildSection(parse, lessons, outlineSection)
    ensures allBlocks == Number(nested + SectionBlocks(section))
    ensures globalOrder == |nested| + |SectionBlocks(section)|
  {
    allBlocks, globalOrder := pushed, counter;
    var sectionLessons := Select(SectionIdOf, lessons, outlineSection.id);
    sectionLessons := SortBy(PositionIn(outlineSection), sectionLessons);
    var transformed: seq<Lesson> := [];
    ghost var flat := nested;
    for j := 0 to |sectionLessons|
      invariant transformed == Map(ToLesson(parse), sectionLessons[..j])
      invariant flat == nested + FlatMap(StampedBlocks, transformed)
      invariant allBlocks == Number(flat) && globalOrder == |flat|
    {
      var lessonData := LessonToLesson(parse, sectionLessons[j]);
      allBlocks, globalOrder := PushBlocks(lessonData, allBlocks, globalOrder, flat);
      flat := flat + StampedBlocks(lessonData);
      FlatMapPush(StampedBlocks, nested, transformed, lessonData);
      MapPrefix(ToLesson(parse), sectionLessons, j);
      transformed := transformed + [lessonData];
    }
    assert sectionLessons[..|sectionLessons|] == sectionLessons;
    section := CourseSection(outlineSection.id, outlineSection.title, transformed);
  }

  /** The counter-and-push loops build the section tree and the numbered concatenation of its blocks. */
  method GeneratedLessonsToCourseContent(parse: JsonParser, lessons: seq<GeneratedLesson>, outline: CourseOutline)
    returns (sections: seq<CourseSection>, courseBlocks: seq<CourseBlock>)
    ensures sections == Map(ToSection(parse, lessons), outline.sections)
    ensures courseBlocks == Number(NestedBlocks(sections))
  {
    sections, courseBlocks := [], [];
    var globalOrder := 0;
    for i := 0 to |outline.sections|
      invariant sections == Map(ToSection(parse, lessons), outline.sections[..i])
      invariant courseBlocks == Number(NestedBlocks(sections))
      invariant globalOrder == |NestedBlocks(sections)|
    {
      var section;
      section, courseBlocks, globalOrder :=
        TransformSection(parse, lessons, outline.sections[i], courseBlocks, globalOrder, NestedBlocks(sections));
      FlatMapSnoc(SectionBlocks, sections, section);
      MapPrefix(ToSection(parse, lessons), outline.sections, i);
      sections := sections + [section];
    }
    assert outline.sections[..|outline.sections|] == outline.sections;
  }
}
