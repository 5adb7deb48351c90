/** The course builder: seven steps with guards, direct jumps, and a reset from anywhere. */
module CourseBuilder {
  import opened Options
  import opened JsText
  import opened AuthErrors
  import opened Statecharts

  datatype State =
    | CourseBasics | SmeSelection | AudienceSelection | ReviewGenerate
    | GeneratingOutline | OutlineReview | GeneratingLessons | Editor | Preview

  datatype Context = Context(
    courseId: Option<string>, title: string, desiredOutcome: string,
    selectedSmeIds: seq<string>, selectedAudienceIds: seq<string>,
    outlineJobId: Option<string>, lessonJobId: Option<string>, currentStep: int, error: Option<AuthError>)

  datatype Machine = Machine(state: State, ctx: Context)

  datatype Event =
    | Next
    | Previous
    | GoToStep(step: int)
    | SetTitle(title: string)
    | SetDesiredOutcome(outcome: string)
    | CourseCreated(courseId: string)
    | ToggleSme(smeId: string)
    | SetSmes(smeIds: seq<string>)
    | ToggleAudience(audienceId: string)
    | SetAudiences(audienceIds: seq<string>)
    | StartGeneration
    | OutlineJobStarted(jobId: string)
    | OutlineReady
    | OutlineApproved
    | OutlineRejected
    | LessonJobStarted(jobId: string)
    | GenerationComplete
    | Error(error: string)
    | DismissError
    | Reset

  const INITIAL_CONTEXT := Context(None, "", "", [], [], None, None, 1, None)
  const INITIAL := Entered(CourseBasics, INITIAL_CONTEXT)

  // ---------------------------------------------------------------- guards and selections

  predicate CanProceedFromStep1(ctx: Context) {
    HasText(ctx.title) && HasText(ctx.desiredOutcome)
  }

  predicate CanStartGeneration(ctx: Context) {
    && ctx.courseId.Some? && ctx.selectedSmeIds != [] && ctx.selectedAudienceIds != []
    && HasText(ctx.desiredOutcome)
  }

  function Without(ids: seq<string>, id: string): seq<string> {
    if ids == [] then []
    else if ids[0] == id then Without(ids[1..], id)
    else [ids[0]] + Without(ids[1..], id)
  }

  function Toggle(ids: seq<string>, id: string): seq<string> {
    if id in ids then Without(ids, id) else ids + [id]
  }

  // ---------------------------------------------------------------- step function

  function StepNumber(state: State): int {
    match state
    case CourseBasics => 1
    case SmeSelection => 2
    case AudienceSelection => 3
    case ReviewGenerate | GeneratingOutline => 4
    case OutlineReview | GeneratingLessons => 5
    case Editor => 6
    case Preview => 7
  }

  /** Every state's entry action records its step number. */
  function Entered(target: State, ctx: Context): Machine {
    Machine(target, ctx.(currentStep := StepNumber(target)))
  }

  /** The steps each state offers to jump to. */
  function JumpTarget(state: State, step: int): Option<State> {
    if state == CourseBasics then
      if step == 2 then Some(SmeSelection) else if step == 3 then Some(AudienceSelection)
      else if step == 4 then Some(ReviewGenerate) else if step == 5 then Some(OutlineReview)
      else if step == 6 then Some(Editor) else if step == 7 then Some(Preview) else None
    else if state == SmeSelection then
      if step == 1 then Some(CourseBasics) else if step == 3 then Some(AudienceSelection)
      else if step == 4 then Some(ReviewGenerate) else None
    else if state == AudienceSelection then
      if step == 1 then Some(CourseBasics) else if step == 2 then Some(SmeSelection)
      else if step == 4 then Some(ReviewGenerate) else None
    else if state == ReviewGenerate then
      if step == 1 then Some(CourseBasics) else if step == 2 then Some(SmeSelection)
      else if step == 3 then Some(AudienceSelection) else None
    else if state == Editor && step == 7 then Some(Preview)
    else if state == Preview && step == 6 then Some(Editor)
    else None
  }

  /** The target a NEXT, PREVIOUS or other plain transition leads to, if its guard admits it. */
  function PlainTarget(m: Machine, e: Event): Option<State> {
    match (m.state, e)
    case (CourseBasics, Next) => if CanProceedFromStep1(m.ctx) then Some(SmeSelection) else None
    case (SmeSelection, Next) => if m.ctx.selectedSmeIds != [] then Some(AudienceSelection) else None
    case (SmeSelection, Previous) => Some(CourseBasics)
    case (AudienceSelection, Next) => if m.ctx.selectedAudienceIds != [] then Some(ReviewGenerate) else None
    case (AudienceSelection, Previous) => Some(SmeSelection)
    case (ReviewGenerate, StartGeneration) => if CanStartGeneration(m.ctx) then Some(GeneratingOutline) else None
    case (ReviewGenerate, Previous) => Some(AudienceSelection)
    case (GeneratingOutline, OutlineReady) => Some(OutlineReview)
    case (OutlineReview, OutlineApproved) => Some(GeneratingLessons)
    case (OutlineReview, OutlineRejected) => Some(ReviewGenerate)
    case (OutlineReview, Previous) => Some(ReviewGenerate)
    case (GeneratingLessons, GenerationComplete) => Some(Editor)
    case (Editor, Next) => Some(Preview)
    case (Preview, Previous) => Some(Editor)
    case (_, GoToStep(step)) => JumpTarget(m.state, step)
    case _ => None
  }

  function ErrorOf(text: string): Option<AuthError> {
    Some(AuthError(NetworkError, Given(text), true))
  }

  function StepSelecting(m: Machine, e: Event): Machine {
    var ctx := m.ctx;
    match (m.state, e)
    case (CourseBasics, SetTitle(title)) => m.(ctx := ctx.(title := title))
    case (CourseBasics, SetDesiredOutcome(outcome)) => m.(ctx := ctx.(desiredOutcome := outcome))
    case (CourseBasics, CourseCreated(courseId)) => m.(ctx := ctx.(courseId := Some(courseId)))
    case (SmeSelection, ToggleSme(id)) => m.(ctx := ctx.(selectedSmeIds := Toggle(ctx.selectedSmeIds, id)))
    case (SmeSelection, SetSmes(ids)) => m.(ctx := ctx.(selectedSmeIds := ids))
    case (AudienceSelection, ToggleAudience(id)) =>
      m.(ctx := ctx.(selectedAudienceIds := Toggle(ctx.selectedAudienceIds, id)))
    case (AudienceSelection, SetAudiences(ids)) => m.(ctx := ctx.(selectedAudienceIds := ids))
    case _ => m
  }

  function StepGenerating(m: Machine, e: Event): Machine {
    var ctx := m.ctx;
    match (m.state, e)
    case (GeneratingOutline, OutlineJobStarted(jobId)) => m.(ctx := ctx.(outlineJobId := Some(jobId)))
    case (GeneratingOutline, Error(text)) => Entered(ReviewGenerate, ctx.(error := ErrorOf(text)))
    case (OutlineReview, OutlineJobStarted(jobId)) => Entered(GeneratingOutline, ctx.(outlineJobId := Some(jobId)))
    case (GeneratingLessons, LessonJobStarted(jobId)) => m.(ctx := ctx.(lessonJobId := Some(jobId)))
    case (GeneratingLessons, Error(text)) => Entered(OutlineReview, ctx.(error := ErrorOf(text)))
    case _ => m
  }

  function StepAssigning(m: Machine, e: Event): Machine {
    if e.DismissError? then m.(ctx := m.ctx.(error := None))
    else if e.Reset? then Entered(CourseBasics, INITIAL_CONTEXT)
    else if m.state in {CourseBasics, SmeSelection, AudienceSelection} then StepSelecting(m, e)
    else StepGenerating(m, e)
  }

  function Step(m: Machine, e: Event): Machine {
    var target := PlainTarget(m, e);
    if target.Some? then Entered(target.value, m.ctx) else StepAssigning(m, e)
  }

  // ---------------------------------------------------------------- the running machine

  /** The interpreter's object: events move the state and `assign` actions overwrite the context. */
  class Builder {
    var state: State
    var ctx: Context
    ghost var log: seq<Event>  // everything sent so far, oldest first

    function Snapshot(): Machine
      reads this
    {
      Machine(state, ctx)
    }

    /** The object is where the run of its log leads, so what holds of every run holds of it. */
    ghost predicate Valid()
      reads this
    {
      Snapshot() == Run(Step, INITIAL, log) && ctx.currentStep == StepNumber(state)
    }

    constructor ()
      ensures Valid() && log == [] && Snapshot() == INITIAL
    {
      state, ctx := CourseBasics, INITIAL_CONTEXT;
      log := [];
    }

    method Send(e: Event)
      requires Valid()
      modifies this
      ensures Valid() && log == old(log) + [e]
      ensures Snapshot() == Step(old(Snapshot()), e)
    {
      Dispatch(e);
      RunSnoc(Step, INITIAL, log, e);
      log := log + [e];
      ShownStep(log);
    }

    method Enter(target: State)
      modifies `state, `ctx
      ensures Snapshot() == Entered(target, old(ctx))
    {
      state := target;
      ctx := ctx.(currentStep := StepNumber(target));
    }

    method Dispatch(e: Event)
      modifies `state, `ctx
      ensures Snapshot() == Step(old(Snapshot()), e)
    {
      var target := PlainTarget(Machine(state, ctx), e);
      if target.Some? {
        Enter(target.value);
      } else {
        Assign(e);
      }
    }

    method Assign(e: Event)
      modifies `state, `ctx
      ensures Snapshot() == StepAssigning(old(Snapshot()), e)
    {
      if e.DismissError? {
        ctx := ctx.(error := None);
      } else if e.Reset? {
        ctx := INITIAL_CONTEXT;
        Enter(CourseBasics);
      } else if state in {CourseBasics, SmeSelection, AudienceSelection} {
        AssignSelection(e);
      } else {
        AssignGeneration(e);
      }
    }

    method AssignSelection(e: Event)
      modifies `state, `ctx
      ensures Snapshot() == StepSelecting(old(Snapshot()), e)
    {
      match (state, e) {
        case (CourseBasics, SetTitle(title)) => ctx := ctx.(title := title);
        case (CourseBasics, SetDesiredOutcome(outcome)) => ctx := ctx.(desiredOutcome := outcome);
        case (CourseBasics, CourseCreated(courseId)) => ctx := ctx.(courseId := Some(courseId));
        case (SmeSelection, ToggleSme(id)) => ctx := ctx.(selectedSmeIds := Toggle(ctx.selectedSmeIds, id));
        case (SmeSelection, SetSmes(ids)) => ctx := ctx.(selectedSmeIds := ids);
        case (AudienceSelection, ToggleAudience(id)) =>
          ctx := ctx.(selectedAudienceIds := Toggle(ctx.selectedAudienceIds, id));
        case (AudienceSelection, SetAudiences(ids)) => ctx := ctx.(selectedAudienceIds := ids);
        case _ =>
      }
    }

    method AssignGeneration(e: Event)
      modifies `state, `ctx
      ensures Snapshot() == StepGenerating(old(Snapshot()), e)
    {
      match (state, e) {
        case (GeneratingOutline, OutlineJobStarted(jobId)) => ctx := ctx.(outlineJobId := Some(jobId));
        case (GeneratingOutline, Error(text)) =>
          ctx := ctx.(error := ErrorOf(text));
          Enter(ReviewGenerate);
        case (OutlineReview, OutlineJobStarted(jobId)) =>
          ctx := ctx.(outlineJobId := Some(jobId));
          Enter(GeneratingOutline);
        case (GeneratingLessons, LessonJobStarted(jobId)) => ctx := ctx.(lessonJobId := Some(jobId));
        case (GeneratingLessons, Error(text)) =>
          ctx := ctx.(error := ErrorOf(text));
          Enter(OutlineReview);
        case _ =>
      }
    }
  }

  // ---------------------------------------------------------------- readiness

  predicate IsLate(state: State) {
    state in {GeneratingOutline, OutlineReview, GeneratingLessons, Editor, Preview}
  }

  /** From the start of generation on, everything generation needs is still there. */
  predicate LateMeansReady(m: Machine) {
    IsLate(m.state) ==> CanStartGeneration(m.ctx)
  }

  /** No jump from the first step to steps 5 to 7 before the course is ready. */
  predicate NoUnreadyJump(m: Machine, e: Event) {
    !(m.state == CourseBasics && e.GoToStep? && 5 <= e.step <= 7 && !CanStartGeneration(m.ctx))
  }

  lemma StepStaysReady(m: Machine, e: Event)
    requires LateMeansReady(m)
    ensures LateMeansReady(Step(m, e)) <==> NoUnreadyJump(m, e)
  {
  }

  /** A run stays ready in all late states exactly when it makes no such jump. */
  lemma ReadyExactlyWhen(es: seq<Event>)
    ensures Always(Step, LateMeansReady, INITIAL, es) <==> Along(Step, NoUnreadyJump, INITIAL, es)
  {
    forall m, e | LateMeansReady(m) ensures LateMeansReady(Step(m, e)) <==> NoUnreadyJump(m, e) {
      StepStaysReady(m, e);
    }
    SafeExactlyWhenAcceptable(Step, m => true, LateMeansReady, NoUnreadyJump, INITIAL, es);
  }

  /** A jump straight from the start to the outline review finds nothing ready. */
  lemma FirstJumpIsUnready()
    ensures !Always(Step, LateMeansReady, INITIAL, [GoToStep(5)])
  {
    ReadyExactlyWhen([GoToStep(5)]);
  }

  /** The step shown is the step of the state, after every run. */
  lemma ShownStep(es: seq<Event>)
    ensures Run(Step, INITIAL, es).ctx.currentStep == StepNumber(Run(Step, INITIAL, es).state)
  {
    RunKeeps(Step, (m: Machine) => m.ctx.currentStep == StepNumber(m.state), INITIAL, es);
  }

  // ---------------------------------------------------------------- selections

  lemma {:induction false} WithoutLaw(ids: seq<string>, id: string)
    ensures id !in Without(ids, id) && |Without(ids, id)| <= |ids|
    ensures id !in ids <==> Without(ids, id) == ids
    ensures Without(ids + [id], id) == Without(ids, id)
  {
    if ids == [] {
      assert ids + [id] == [id];
    } else {
      WithoutLaw(ids[1..], id);
      assert (ids + [id])[1..] == ids[1..] + [id];
      assert ids == [ids[0]] + ids[1..];
    }
  }

  /** Toggling twice restores a selection exactly when the id was not selected, or selected once, at the end. */
  lemma ToggleTwice(ids: seq<string>, id: string)
    ensures Toggle(Toggle(ids, id), id) == ids
       <==> id !in ids || (ids != [] && ids[|ids| - 1] == id && id !in ids[..|ids| - 1])
  {
    WithoutLaw(ids, id);
    if id in ids {
      var front := ids[..|ids| - 1];
      if ids[|ids| - 1] == id {
        assert ids == front + [id];
        WithoutLaw(front, id);
      }
    }
  }

  // ---------------------------------------------------------------- moving between steps

  /** What NEXT asks for where it leads on at all. */
  ghost predicate MayProceed(m: Machine) {
    match m.state
    case CourseBasics => NonBlank(m.ctx.title) && NonBlank(m.ctx.desiredOutcome)
    case SmeSelection => m.ctx.selectedSmeIds != []
    case AudienceSelection => m.ctx.selectedAudienceIds != []
    case Editor => true
    case _ => false
  }

  predicate MayGoBack(state: State) {
    state in {SmeSelection, AudienceSelection, ReviewGenerate, OutlineReview, Preview}
  }

  /** From the first step one may jump to any other, among the first four to any other, and between the last two. */
  predicate MayJump(state: State, shown: int, step: int) {
    || (state == CourseBasics && 2 <= step <= 7)
    || (state in {SmeSelection, AudienceSelection, ReviewGenerate} && 1 <= step <= 4 && step != shown)
    || (state in {Editor, Preview} && step == 13 - shown)
  }

  predicate Generating(state: State) {
    state == GeneratingOutline || state == GeneratingLessons
  }

  /** Where a move of the step shown leads: to a form of the new number, with nothing else changed. */
  predicate MovesTo(m: Machine, end: Machine, step: int) {
    !Generating(end.state) && end.ctx == m.ctx.(currentStep := step)
  }

  lemma BasicsGuard(m: Machine)
    requires m.state == CourseBasics && m.ctx.currentStep == 1
    ensures Step(m, Next) == if MayProceed(m) then Machine(SmeSelection, m.ctx.(currentStep := 2)) else m
  {
    TrimLeavesText(m.ctx.title);
    TrimLeavesText(m.ctx.desiredOutcome);
  }

  lemma NextMoves(m: Machine)
    requires m.ctx.currentStep == StepNumber(m.state)
    ensures if MayProceed(m) then MovesTo(m, Step(m, Next), m.ctx.currentStep + 1) else Step(m, Next) == m
  {
    if m.state == CourseBasics {
      BasicsGuard(m);
    }
  }

  lemma PreviousMoves(m: Machine)
    requires m.ctx.currentStep == StepNumber(m.state)
    ensures if MayGoBack(m.state) then MovesTo(m, Step(m, Previous), m.ctx.currentStep - 1) else Step(m, Previous) == m
  {
  }

  lemma JumpMoves(m: Machine, step: int)
    requires m.ctx.currentStep == StepNumber(m.state)
    ensures if MayJump(m.state, m.ctx.currentStep, step) then MovesTo(m, Step(m, GoToStep(step)), step)
            else Step(m, GoToStep(step)) == m
  {
  }

  /** NEXT and PREVIOUS move one step, and a jump shows the step asked for; none of them changes anything else. */
  lemma NavigationMovesSteps(es: seq<Event>, step: int)
    ensures var m := Run(Step, INITIAL, es);
            var shown := m.ctx.currentStep;
            && (if MayProceed(m) then MovesTo(m, Step(m, Next), shown + 1) else Step(m, Next) == m)
            && (if MayGoBack(m.state) then MovesTo(m, Step(m, Previous), shown - 1) else Step(m, Previous) == m)
            && (if MayJump(m.state, shown, step) then MovesTo(m, Step(m, GoToStep(step)), step)
                else Step(m, GoToStep(step)) == m)
  {
    ShownStep(es);
    NextMoves(Run(Step, INITIAL, es));
    PreviousMoves(Run(Step, INITIAL, es));
    JumpMoves(Run(Step, INITIAL, es), step);
  }

  /** Besides the two generating states, the step shown tells the state. */
  lemma ShownStepTellsState(es: seq<Event>, fs: seq<Event>)
    ensures var m, n := Run(Step, INITIAL, es), Run(Step, INITIAL, fs);
            && 1 <= m.ctx.currentStep <= 7
            && (!Generating(m.state) && !Generating(n.state) && m.ctx.currentStep == n.ctx.currentStep ==>
                  m.state == n.state)
            && (m.state == GeneratingOutline && n.state == ReviewGenerate ==> m.ctx.currentStep == n.ctx.currentStep)
            && (m.state == GeneratingLessons && n.state == OutlineReview ==> m.ctx.currentStep == n.ctx.currentStep)
  {
    ShownStep(es);
    ShownStep(fs);
  }

  /** What START_GENERATION asks for. */
  ghost predicate HasWhatGenerationNeeds(ctx: Context) {
    && ctx.courseId.Some? && ctx.selectedSmeIds != [] && ctx.selectedAudienceIds != []
    && NonBlank(ctx.desiredOutcome)
  }

  lemma GenerationGuard(m: Machine)
    requires m.state == ReviewGenerate && m.ctx.currentStep == 4
    ensures Step(m, StartGeneration) == if HasWhatGenerationNeeds(m.ctx) then m.(state := GeneratingOutline) else m
  {
    TrimLeavesText(m.ctx.desiredOutcome);
  }

  lemma OutlineGenerationFails(m: Machine, text: string)
    requires m.state == ReviewGenerate && m.ctx.currentStep == 4 && HasWhatGenerationNeeds(m.ctx)
    ensures Run(Step, m, [StartGeneration, Error(text)])
         == m.(ctx := m.ctx.(error := Some(AuthError(NetworkError, Given(text), true))))
  {
    GenerationGuard(m);
    RunTwo(Step, m, StartGeneration, Error(text));
  }

  lemma OutlineIsReviewed(m: Machine)
    requires m.state == ReviewGenerate && m.ctx.currentStep == 4 && HasWhatGenerationNeeds(m.ctx)
    ensures Run(Step, m, [StartGeneration, OutlineReady]) == Machine(OutlineReview, m.ctx.(currentStep := 5))
  {
    GenerationGuard(m);
    RunTwo(Step, m, StartGeneration, OutlineReady);
  }

  lemma OutlineGenerationComesBack(m: Machine)
    requires m.state == ReviewGenerate && m.ctx.currentStep == 4 && HasWhatGenerationNeeds(m.ctx)
    ensures Run(Step, m, [StartGeneration, OutlineReady] + [OutlineRejected]) == m
    ensures Run(Step, m, [StartGeneration, OutlineReady] + [Previous]) == m
  {
    OutlineIsReviewed(m);
    RunSnoc(Step, m, [StartGeneration, OutlineReady], OutlineRejected);
    RunSnoc(Step, m, [StartGeneration, OutlineReady], Previous);
  }

  lemma LessonGenerationComesBack(m: Machine, text: string)
    requires m.state == OutlineReview && m.ctx.currentStep == 5
    ensures Run(Step, m, [OutlineApproved, Error(text)])
         == m.(ctx := m.ctx.(error := Some(AuthError(NetworkError, Given(text), true))))
  {
    var failed := m.(ctx := m.ctx.(error := Some(AuthError(NetworkError, Given(text), true))));
    assert Step(m, OutlineApproved) == m.(state := GeneratingLessons);
    assert Step(m.(state := GeneratingLessons), Error(text)) == failed;
    RunTwo(Step, m, OutlineApproved, Error(text));
  }

  lemma RegeneratedOutlineComesBack(m: Machine, jobId: string)
    requires m.state == OutlineReview && m.ctx.currentStep == 5
    ensures Run(Step, m, [OutlineJobStarted(jobId), OutlineReady])
         == m.(ctx := m.ctx.(outlineJobId := Some(jobId)))
  {
    var generating := Machine(GeneratingOutline, m.ctx.(outlineJobId := Some(jobId), currentStep := 4));
    assert Step(m, OutlineJobStarted(jobId)) == generating;
    RunTwo(Step, m, OutlineJobStarted(jobId), OutlineReady);
  }

  lemma GenerationLeadsOn(m: Machine)
    ensures m.state == GeneratingOutline ==> MovesTo(m, Step(m, OutlineReady), 5)
    ensures m.state == GeneratingLessons ==> MovesTo(m, Step(m, GenerationComplete), 6)
    ensures Step(m, Reset) == INITIAL
  {
  }

  /**
   * Generation starts exactly when everything it needs is there. A failure leads back to the very form it was
   * started from, with a retryable error; so does a rejection, and a regenerated outline back to its review.
   * Success leads to the next step.
   */
  lemma GenerationComesBack(es: seq<Event>, jobId: string, text: string)
    ensures var m := Run(Step, INITIAL, es);
            var failed := m.(ctx := m.ctx.(error := Some(AuthError(NetworkError, Given(text), true))));
            && (m.state == ReviewGenerate ==> (Step(m, StartGeneration) != m <==> HasWhatGenerationNeeds(m.ctx)))
            && (m.state == ReviewGenerate && HasWhatGenerationNeeds(m.ctx) ==>
                  && Run(Step, m, [StartGeneration, Error(text)]) == failed
                  && Run(Step, m, [StartGeneration, OutlineReady] + [OutlineRejected]) == m
                  && Run(Step, m, [StartGeneration, OutlineReady] + [Previous]) == m)
            && (m.state == OutlineReview ==>
                  && Run(Step, m, [OutlineApproved, Error(text)]) == failed
                  && Run(Step, m, [OutlineJobStarted(jobId), OutlineReady])
                     == m.(ctx := m.ctx.(outlineJobId := Some(jobId))))
            && (m.state == GeneratingOutline ==> MovesTo(m, Step(m, OutlineReady), 5))
            && (m.state == GeneratingLessons ==> MovesTo(m, Step(m, GenerationComplete), 6))
            && Step(m, Reset) == INITIAL
  {
    ShownStep(es);
    var m := Run(Step, INITIAL, es);
    GenerationLeadsOn(m);
    if m.state == ReviewGenerate {
      GenerationGuard(m);
      if HasWhatGenerationNeeds(m.ctx) {
        OutlineGenerationFails(m, text);
        OutlineGenerationComesBack(m);
      }
    } else if m.state == OutlineReview {
      LessonGenerationComesBack(m, text);
      RegeneratedOutlineComesBack(m, jobId);
    }
  }

  // ---------------------------------------------------------------- building a course

  /** One walk from nothing to the preview, part by part. */
  function Basics(ctx: Context, courseId: string): seq<Event> {
    [SetTitle(ctx.title), SetDesiredOutcome(ctx.desiredOutcome)] + [CourseCreated(courseId), Next]
  }

  function Selections(ctx: Context): seq<Event> {
    [SetSmes(ctx.selectedSmeIds), Next, SetAudiences(ctx.selectedAudienceIds), Next]
  }

  function OutlinePart(jobId: string): seq<Event> {
    [StartGeneration, OutlineJobStarted(jobId)] + [OutlineReady, OutlineApproved]
  }

  function LessonPart(jobId: string): seq<Event> {
    [LessonJobStarted(jobId), GenerationComplete, Next, DismissError]
  }

  function Walk(ctx: Context, courseId: string, outlineJob: string, lessonJob: string): seq<Event> {
    Basics(ctx, courseId) + (Selections(ctx) + (OutlinePart(outlineJob) + LessonPart(lessonJob)))
  }

  lemma Described(ctx: Context)
    ensures Run(Step, INITIAL, [SetTitle(ctx.title), SetDesiredOutcome(ctx.desiredOutcome)])
         == Machine(CourseBasics, INITIAL_CONTEXT.(title := ctx.title, desiredOutcome := ctx.desiredOutcome))
  {
    RunTwo(Step, INITIAL, SetTitle(ctx.title), SetDesiredOutcome(ctx.desiredOutcome));
  }

  lemma Created(m: Machine, courseId: string)
    requires m.state == CourseBasics && NonBlank(m.ctx.title) && NonBlank(m.ctx.desiredOutcome)
    requires m.ctx.currentStep == 1
    ensures Run(Step, m, [CourseCreated(courseId), Next])
         == Machine(SmeSelection, m.ctx.(courseId := Some(courseId), currentStep := 2))
  {
    var created := m.(ctx := m.ctx.(courseId := Some(courseId)));
    assert Step(m, CourseCreated(courseId)) == created;
    BasicsGuard(created);
    RunTwo(Step, m, CourseCreated(courseId), Next);
  }

  lemma BasicsDone(ctx: Context, courseId: string)
    requires NonBlank(ctx.title) && NonBlank(ctx.desiredOutcome)
    ensures Run(Step, INITIAL, Basics(ctx, courseId))
         == Machine(SmeSelection, INITIAL_CONTEXT.(title := ctx.title, desiredOutcome := ctx.desiredOutcome,
                                                   courseId := Some(courseId), currentStep := 2))
  {
    Described(ctx);
    RunAppend(Step, INITIAL, [SetTitle(ctx.title), SetDesiredOutcome(ctx.desiredOutcome)],
              [CourseCreated(courseId), Next]);
    Created(Run(Step, INITIAL, [SetTitle(ctx.title), SetDesiredOutcome(ctx.desiredOutcome)]), courseId);
  }

  lemma SelectionsDone(m: Machine, ctx: Context)
    requires m.state == SmeSelection && ctx.selectedSmeIds != [] && ctx.selectedAudienceIds != []
    ensures Run(Step, m, Selections(ctx))
         == Machine(ReviewGenerate, m.ctx.(selectedSmeIds := ctx.selectedSmeIds,
                                           selectedAudienceIds := ctx.selectedAudienceIds, currentStep := 4))
  {
    var chosen := m.(ctx := m.ctx.(selectedSmeIds := ctx.selectedSmeIds));
    var audience := Machine(AudienceSelection, chosen.ctx.(currentStep := 3));
    assert Step(m, SetSmes(ctx.selectedSmeIds)) == chosen && Step(chosen, Next) == audience;
    RunFour(Step, m, SetSmes(ctx.selectedSmeIds), Next, SetAudiences(ctx.selectedAudienceIds), Next);
  }

  lemma GenerationStarts(m: Machine, jobId: string)
    requires m.state == ReviewGenerate && m.ctx.currentStep == 4 && HasWhatGenerationNeeds(m.ctx)
    ensures Run(Step, m, [StartGeneration, OutlineJobStarted(jobId)])
         == Machine(GeneratingOutline, m.ctx.(outlineJobId := Some(jobId)))
  {
    GenerationGuard(m);
    RunTwo(Step, m, StartGeneration, OutlineJobStarted(jobId));
  }

  lemma OutlineApproval(m: Machine)
    requires m.state == GeneratingOutline
    ensures Run(Step, m, [OutlineReady, OutlineApproved]) == Machine(GeneratingLessons, m.ctx.(currentStep := 5))
  {
    assert Step(m, OutlineReady) == Machine(OutlineReview, m.ctx.(currentStep := 5));
    RunTwo(Step, m, OutlineReady, OutlineApproved);
  }

  lemma OutlineDone(m: Machine, jobId: string)
    requires m.state == ReviewGenerate && m.ctx.currentStep == 4 && HasWhatGenerationNeeds(m.ctx)
    ensures Run(Step, m, OutlinePart(jobId))
         == Machine(GeneratingLessons, m.ctx.(outlineJobId := Some(jobId), currentStep := 5))
  {
    GenerationStarts(m, jobId);
    RunAppend(Step, m, [StartGeneration, OutlineJobStarted(jobId)], [OutlineReady, OutlineApproved]);
    OutlineApproval(Machine(GeneratingOutline, m.ctx.(outlineJobId := Some(jobId))));
  }

  lemma LessonsDone(m: Machine, jobId: string)
    requires m.state == GeneratingLessons
    ensures Run(Step, m, LessonPart(jobId))
         == Machine(Preview, m.ctx.(lessonJobId := Some(jobId), error := None, currentStep := 7))
  {
    var started := m.(ctx := m.ctx.(lessonJobId := Some(jobId)));
    var editing := Machine(Editor, started.ctx.(currentStep := 6));
    var previewing := Machine(Preview, started.ctx.(currentStep := 7));
    assert Step(m, LessonJobStarted(jobId)) == started;
    assert Step(started, GenerationComplete) == editing;
    assert Step(editing, Next) == previewing;
    RunFour(Step, m, LessonJobStarted(jobId), GenerationComplete, Next, DismissError);
  }

  /** Every course with a title, an outcome, experts and an audience can be built, and is previewed as filled in. */
  lemma EveryCourseCanBeBuilt(ctx: Context, courseId: string, outlineJob: string, lessonJob: string)
    requires NonBlank(ctx.title) && NonBlank(ctx.desiredOutcome)
    requires ctx.selectedSmeIds != [] && ctx.selectedAudienceIds != []
    ensures Run(Step, INITIAL, Walk(ctx, courseId, outlineJob, lessonJob))
         == Machine(Preview, Context(Some(courseId), ctx.title, ctx.desiredOutcome,
                                     ctx.selectedSmeIds, ctx.selectedAudienceIds,
                                     Some(outlineJob), Some(lessonJob), 7, None))
  {
    var generation := OutlinePart(outlineJob) + LessonPart(lessonJob);
    BasicsDone(ctx, courseId);
    RunAppend(Step, INITIAL, Basics(ctx, courseId), Selections(ctx) + generation);
    var m1 := Run(Step, INITIAL, Basics(ctx, courseId));
    SelectionsDone(m1, ctx);
    RunAppend(Step, m1, Selections(ctx), generation);
    var m2 := Run(Step, m1, Selections(ctx));
    OutlineDone(m2, outlineJob);
    RunAppend(Step, m2, OutlinePart(outlineJob), LessonPart(lessonJob));
    LessonsDone(Run(Step, m2, OutlinePart(outlineJob)), lessonJob);
  }

  // ---------------------------------------------------------------- who writes what

  function TitleWritten(m: Machine, e: Event): Option<string> {
    if m.state == CourseBasics && e.SetTitle? then Some(e.title) else if e.Reset? then Some("") else None
  }

  function OutcomeWritten(m: Machine, e: Event): Option<string> {
    if m.state == CourseBasics && e.SetDesiredOutcome? then Some(e.outcome) else if e.Reset? then Some("") else None
  }

  function CourseIdWritten(m: Machine, e: Event): Option<Option<string>> {
    if m.state == CourseBasics && e.CourseCreated? then Some(Some(e.courseId))
    else if e.Reset? then Some(None)
    else None
  }

  function SmesWritten(m: Machine, e: Event): Option<seq<string>> {
    if m.state == SmeSelection && e.ToggleSme? then Some(Toggle(m.ctx.selectedSmeIds, e.smeId))
    else if m.state == SmeSelection && e.SetSmes? then Some(e.smeIds)
    else if e.Reset? then Some([])
    else None
  }

  function AudiencesWritten(m: Machine, e: Event): Option<seq<string>> {
    if m.state == AudienceSelection && e.ToggleAudience? then Some(Toggle(m.ctx.selectedAudienceIds, e.audienceId))
    else if m.state == AudienceSelection && e.SetAudiences? then Some(e.audienceIds)
    else if e.Reset? then Some([])
    else None
  }

  function OutlineJobWritten(m: Machine, e: Event): Option<Option<string>> {
    if m.state in {GeneratingOutline, OutlineReview} && e.OutlineJobStarted? then Some(Some(e.jobId))
    else if e.Reset? then Some(None)
    else None
  }

  function LessonJobWritten(m: Machine, e: Event): Option<Option<string>> {
    if m.state == GeneratingLessons && e.LessonJobStarted? then Some(Some(e.jobId))
    else if e.Reset? then Some(None)
    else None
  }

  function ErrorWritten(m: Machine, e: Event): Option<Option<AuthError>> {
    if Generating(m.state) && e.Error? then Some(Some(AuthError(NetworkError, Given(e.error), true)))
    else if e.DismissError? || e.Reset? then Some(None)
    else None
  }

  lemma StepWrites(m: Machine, e: Event)
    ensures Step(m, e).ctx.title == TitleWritten(m, e).GetOr(m.ctx.title)
    ensures Step(m, e).ctx.desiredOutcome == OutcomeWritten(m, e).GetOr(m.ctx.desiredOutcome)
    ensures Step(m, e).ctx.courseId == CourseIdWritten(m, e).GetOr(m.ctx.courseId)
    ensures Step(m, e).ctx.selectedSmeIds == SmesWritten(m, e).GetOr(m.ctx.selectedSmeIds)
    ensures Step(m, e).ctx.selectedAudienceIds == AudiencesWritten(m, e).GetOr(m.ctx.selectedAudienceIds)
    ensures Step(m, e).ctx.outlineJobId == OutlineJobWritten(m, e).GetOr(m.ctx.outlineJobId)
    ensures Step(m, e).ctx.lessonJobId == LessonJobWritten(m, e).GetOr(m.ctx.lessonJobId)
    ensures Step(m, e).ctx.error == ErrorWritten(m, e).GetOr(m.ctx.error)
  {
  }

  /** On every run each field holds what was last written by the events meant for it, since any reset. */
  lemma {:induction false} ContextFollowsEvents(m: Machine, es: seq<Event>)
    ensures var ctx, end := m.ctx, Run(Step, m, es).ctx;
            && end.title == LastWritten(Step, TitleWritten, m, es, ctx.title)
            && end.desiredOutcome == LastWritten(Step, OutcomeWritten, m, es, ctx.desiredOutcome)
            && end.courseId == LastWritten(Step, CourseIdWritten, m, es, ctx.courseId)
            && end.selectedSmeIds == LastWritten(Step, SmesWritten, m, es, ctx.selectedSmeIds)
            && end.selectedAudienceIds == LastWritten(Step, AudiencesWritten, m, es, ctx.selectedAudienceIds)
            && end.outlineJobId == LastWritten(Step, OutlineJobWritten, m, es, ctx.outlineJobId)
            && end.lessonJobId == LastWritten(Step, LessonJobWritten, m, es, ctx.lessonJobId)
            && end.error == LastWritten(Step, ErrorWritten, m, es, ctx.error)
    decreases |es|
  {
    if es != [] {
      StepWrites(m, es[0]);
      ContextFollowsEvents(Step(m, es[0]), es[1..]);
    }
  }

  /** Where each event is handled. */
  predicate Expects(state: State, e: Event) {
    match e
    case SetTitle(_) | SetDesiredOutcome(_) | CourseCreated(_) => state == CourseBasics
    case ToggleSme(_) | SetSmes(_) => state == SmeSelection
    case ToggleAudience(_) | SetAudiences(_) => state == AudienceSelection
    case StartGeneration => state == ReviewGenerate
    case OutlineJobStarted(_) => state == GeneratingOutline || state == OutlineReview
    case OutlineReady => state == GeneratingOutline
    case OutlineApproved | OutlineRejected => state == OutlineReview
    case LessonJobStarted(_) | GenerationComplete => state == GeneratingLessons
    case Error(_) => Generating(state)
    case _ => true
  }

  lemma UnexpectedEventIgnored(m: Machine, e: Event)
    requires !Expects(m.state, e)
    ensures Step(m, e) == m
  {
  }

  lemma DismissalClearsError(m: Machine)
    ensures Step(m, DismissError) == m.(ctx := m.ctx.(error := Step(m, DismissError).ctx.error))
  {
  }

  /** In any number, events that the state does not handle have no effect, and DISMISS_ERROR none but on the error. */
  lemma {:induction false} UnexpectedEventsIgnored(m: Machine, es: seq<Event>)
    requires forall e :: e in es ==> e.DismissError? || !Expects(m.state, e)
    ensures Run(Step, m, es) == m.(ctx := m.ctx.(error := Run(Step, m, es).ctx.error))
    ensures DismissError !in es ==> Run(Step, m, es) == m
    decreases |es|
  {
    if es != [] {
      assert es[0] in es && forall e :: e in es[1..] ==> e in es;
      if es[0].DismissError? {
        DismissalClearsError(m);
      } else {
        UnexpectedEventIgnored(m, es[0]);
      }
      UnexpectedEventsIgnored(Step(m, es[0]), es[1..]);
    }
  }
}
