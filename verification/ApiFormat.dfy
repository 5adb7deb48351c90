/** The course content as the saving API takes it: block types as numbers. */
module ApiFormat {
  import opened Options
  import opened Seqs
  import opened Generation
  import opened ContentTransform
  import StableSort

  datatype ApiBlock = ApiBlock(id: string, typeNumber: int, content: string, prompt: Option<string>, order: int)

  datatype ApiLesson = ApiLesson(id: string, title: string, content: Option<string>, blocks: Option<seq<ApiBlock>>)

  datatype ApiSection = ApiSection(id: string, name: string, lessons: seq<ApiLesson>)

  datatype ApiContent = ApiContent(sections: seq<ApiSection>, courseBlocks: seq<ApiBlock>)

  function BlockTypeToProto(blockType: BlockType): int {
    match blockType
    case Heading => 1
    case Text => 2
    case Interactive => 3
    case KnowledgeCheck => 4
  }

  function BlockToApi(block: CourseBlock): ApiBlock {
    ApiBlock(block.id, BlockTypeToProto(block.blockType), block.content, block.prompt, block.order)
  }

  function LessonToApi(lesson: Lesson): ApiLesson {
    ApiLesson(lesson.id, lesson.title, lesson.content,
              if lesson.blocks.Some? then Some(Map(BlockToApi, lesson.blocks.value)) else None)
  }

  function SectionToApi(section: CourseSection): ApiSection {
    ApiSection(section.id, section.name, Map(LessonToApi, section.lessons))
  }

  function ToApiFormat(sections: seq<CourseSection>, courseBlocks: seq<CourseBlock>): ApiContent {
    ApiContent(Map(SectionToApi, sections), Map(BlockToApi, courseBlocks))
  }

  // ---------------------------------------------------------------- what reaches the API

  /** The block as the API takes it, its type by the number of the enumeration. */
  predicate SameBlock(api: ApiBlock, b: CourseBlock) {
    && api.id == b.id && api.content == b.content && api.prompt == b.prompt && api.order == b.order
    && (api.typeNumber == 1 <==> b.blockType == Heading) && (api.typeNumber == 2 <==> b.blockType == Text)
    && (api.typeNumber == 3 <==> b.blockType == Interactive) && (api.typeNumber == 4 <==> b.blockType == KnowledgeCheck)
  }

  predicate SameLessonParts(api: ApiLesson, lesson: Lesson) {
    && api.id == lesson.id && api.title == lesson.title && api.content == lesson.content
    && (api.blocks.Some? <==> lesson.blocks.Some?)
    && |ApiLessonBlocks(api)| == |BlocksOf(lesson)|
    && forall b :: 0 <= b < |BlocksOf(lesson)| ==> SameBlock(ApiLessonBlocks(api)[b], BlocksOf(lesson)[b])
  }

  /** Every section, lesson and block reaches the API in its own place, with every text it has. */
  lemma ApiMirrorsCourse(sections: seq<CourseSection>, courseBlocks: seq<CourseBlock>)
    ensures var api := ToApiFormat(sections, courseBlocks);
            && |api.sections| == |sections| && |api.courseBlocks| == |courseBlocks|
            && (forall i :: 0 <= i < |courseBlocks| ==> SameBlock(api.courseBlocks[i], courseBlocks[i]))
            && (forall s :: 0 <= s < |sections| ==>
                  && api.sections[s].id == sections[s].id && api.sections[s].name == sections[s].name
                  && |api.sections[s].lessons| == |sections[s].lessons|)
            && (forall s, l :: 0 <= s < |sections| && 0 <= l < |sections[s].lessons| ==>
                  SameLessonParts(api.sections[s].lessons[l], sections[s].lessons[l]))
  {
    forall s, l | 0 <= s < |sections| && 0 <= l < |sections[s].lessons|
      ensures SameLessonParts(LessonToApi(sections[s].lessons[l]), sections[s].lessons[l])
    {
    }
  }

  // ---------------------------------------------------------------- flattening commutes

  function ApiLessonBlocks(lesson: ApiLesson): seq<ApiBlock> {
    lesson.blocks.GetOr([])
  }

  function ApiSectionBlocks(section: ApiSection): seq<ApiBlock> {
    FlatMap(ApiLessonBlocks, section.lessons)
  }

  lemma {:induction false} LessonsFlattenAlike(lessons: seq<Lesson>)
    ensures FlatMap(ApiLessonBlocks, Map(LessonToApi, lessons)) == Map(BlockToApi, FlatMap(StampedBlocks, lessons))
  {
    if lessons != [] {
      LessonsFlattenAlike(lessons[1..]);
      var stamped := StampedBlocks(lessons[0]);
      assert Map(LessonToApi, lessons)[1..] == Map(LessonToApi, lessons[1..]);
      assert ApiLessonBlocks(LessonToApi(lessons[0])) == Map(BlockToApi, stamped);
      MapAppend(BlockToApi, stamped, FlatMap(StampedBlocks, lessons[1..]));
    }
  }

  lemma {:induction false} SectionsFlattenAlike(sections: seq<CourseSection>)
    ensures FlatMap(ApiSectionBlocks, Map(SectionToApi, sections)) == Map(BlockToApi, NestedBlocks(sections))
  {
    if sections != [] {
      SectionsFlattenAlike(sections[1..]);
      LessonsFlattenAlike(sections[0].lessons);
      assert Map(SectionToApi, sections)[1..] == Map(SectionToApi, sections[1..]);
      MapAppend(BlockToApi, SectionBlocks(sections[0]), NestedBlocks(sections[1..]));
    }
  }

  /** Flattening the nested API blocks gives the API's flat list, which differs only in carrying global orders. */
  lemma FlatteningCommutes(sections: seq<CourseSection>)
    ensures var api := ToApiFormat(sections, Number(NestedBlocks(sections)));
            var flat := FlatMap(ApiSectionBlocks, api.sections);
            && |flat| == |api.courseBlocks|
            && forall i :: 0 <= i < |flat| ==> api.courseBlocks[i] == flat[i].(order := i)
  {
    SectionsFlattenAlike(sections);
  }

  // ---------------------------------------------------------------- what the conversion keeps

  lemma OneLessonTypes(parse: JsonParser, lesson: GeneratedLesson)
    ensures forall b :: b in StampedBlocks(LessonToLesson(parse, lesson)) ==> !b.blockType.Interactive?
  {
    var lessonData := LessonToLesson(parse, lesson);
    var sorted, blocks := StableSort.SortBy(ComponentOrder, lesson.components), StampedBlocks(lessonData);
    forall i | 0 <= i < |blocks| ensures !blocks[i].blockType.Interactive? {
      assert blocks[i].blockType == BlocksOf(lessonData)[i].blockType == BlockTypeOf(sorted[i].typeNumber);
    }
  }

  lemma {:induction false} LessonTypes(parse: JsonParser, lessons: seq<GeneratedLesson>)
    ensures forall b :: b in FlatMap(StampedBlocks, Map(ToLesson(parse), lessons)) ==> !b.blockType.Interactive?
  {
    if lessons != [] {
      LessonTypes(parse, lessons[1..]);
      OneLessonTypes(parse, lessons[0]);
      assert Map(ToLesson(parse), lessons)[1..] == Map(ToLesson(parse), lessons[1..]);
    }
  }

  lemma {:induction false} TransformedTypes(parse: JsonParser, lessons: seq<GeneratedLesson>,
                                            outline: seq<OutlineSection>)
    ensures forall b :: b in NestedBlocks(Map(ToSection(parse, lessons), outline)) ==> !b.blockType.Interactive?
  {
    if outline != [] {
      TransformedTypes(parse, lessons, outline[1..]);
      assert Map(ToSection(parse, lessons), outline)[1..] == Map(ToSection(parse, lessons), outline[1..]);
      LessonTypes(parse, ContentTransform.SectionLessons(lessons, outline[0]));
    }
  }

  /** A transformed course reaches the API, nested and flat, with types 1, 2 and 4 only. */
  lemma ApiTypes(parse: JsonParser, lessons: seq<GeneratedLesson>, outline: seq<OutlineSection>)
    ensures var sections := Map(ToSection(parse, lessons), outline);
            var api := ToApiFormat(sections, Number(NestedBlocks(sections)));
            && (forall b :: b in api.courseBlocks ==> b.typeNumber in {1, 2, 4})
            && (forall b :: b in FlatMap(ApiSectionBlocks, api.sections) ==> b.typeNumber in {1, 2, 4})
  {
    TransformedTypes(parse, lessons, outline);
    var sections := Map(ToSection(parse, lessons), outline);
    var blocks := NestedBlocks(sections);
    SectionsFlattenAlike(sections);
    assert forall i :: 0 <= i < |blocks| ==> blocks[i] in blocks;
  }

  /** What the API form has no place for. */
  function Bare(block: CourseBlock): CourseBlock {
    block.(alignment := None, lessonId := None)
  }

  function BareLesson(lesson: Lesson): Lesson {
    lesson.(blocks := if lesson.blocks.Some? then Some(Map(Bare, lesson.blocks.value)) else None)
  }

  function BareSection(section: CourseSection): CourseSection {
    section.(lessons := Map(BareLesson, section.lessons))
  }

  lemma {:induction false} EqualImages<T, U, V>(f: T -> U, g: T -> V, a: seq<T>, b: seq<T>)
    requires forall x, y :: x in a && y in b ==> (f(x) == f(y) <==> g(x) == g(y))
    ensures Map(f, a) == Map(f, b) <==> Map(g, a) == Map(g, b)
  {
    if |a| == |b| {
      assert Map(f, a) == Map(f, b) <==> forall i :: 0 <= i < |a| ==> f(a[i]) == f(b[i]);
      assert Map(g, a) == Map(g, b) <==> forall i :: 0 <= i < |a| ==> g(a[i]) == g(b[i]);
    } else {
      assert |Map(f, a)| != |Map(f, b)| && |Map(g, a)| != |Map(g, b)|;
    }
  }

  lemma SameLesson(a: Lesson, b: Lesson)
    ensures LessonToApi(a) == LessonToApi(b) <==> BareLesson(a) == BareLesson(b)
  {
    if a.blocks.Some? && b.blocks.Some? {
      EqualImages(BlockToApi, Bare, a.blocks.value, b.blocks.value);
    }
  }

  lemma SameSection(a: CourseSection, b: CourseSection)
    ensures SectionToApi(a) == SectionToApi(b) <==> BareSection(a) == BareSection(b)
  {
    forall x, y | x in a.lessons && y in b.lessons
      ensures LessonToApi(x) == LessonToApi(y) <==> BareLesson(x) == BareLesson(y)
    {
      SameLesson(x, y);
    }
    EqualImages(LessonToApi, BareLesson, a.lessons, b.lessons);
  }

  /** Two courses have the same API form exactly when they differ in nothing but alignments and lesson ids. */
  lemma ApiFormLosesOnlyAlignment(
      s: seq<CourseSection>, t: seq<CourseSection>, p: seq<CourseBlock>, q: seq<CourseBlock>)
    ensures ToApiFormat(s, p) == ToApiFormat(t, q)
       <==> Map(BareSection, s) == Map(BareSection, t) && Map(Bare, p) == Map(Bare, q)
  {
    forall x, y | x in s && y in t ensures SectionToApi(x) == SectionToApi(y) <==> BareSection(x) == BareSection(y) {
      SameSection(x, y);
    }
    EqualImages(SectionToApi, BareSection, s, t);
    EqualImages(BlockToApi, Bare, p, q);
  }
}
