/** The messages of the generation service that the course editor and its machines exchange. */
module Generation {
  import opened Options

  /** Numbers of the LessonComponentType enumeration. */
  const TEXT := 1
  const HEADING := 2
  const IMAGE := 3
  const QUIZ := 4

  /** Numbers of the GenerationJobStatus enumeration that the machines test for. */
  const COMPLETED := 3
  const FAILED := 4

  datatype ComponentAlignment = ComponentAlignment(smeChunkIds: seq<string>, learningObjectiveIds: seq<string>)

  datatype LessonComponent = LessonComponent(
    id: string, typeNumber: int, order: int, contentJson: string, alignment: Option<ComponentAlignment>)

  datatype GeneratedLesson = GeneratedLesson(
    id: string, sectionId: string, outlineLessonId: string, title: string, components: seq<LessonComponent>)

  datatype OutlineLesson = OutlineLesson(id: string, title: string)

  datatype OutlineSection = OutlineSection(id: string, title: string, lessons: seq<OutlineLesson>)

  datatype CourseOutline = CourseOutline(id: string, sections: seq<OutlineSection>)

  datatype GenerationJob = GenerationJob(id: string, status: int, progressPercent: int, errorMessage: Option<string>)
}
