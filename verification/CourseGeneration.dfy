/**
 * The course generation flow: outline, review, queue and lessons, with two polling loops and a progress bar.
 * Transition actions run before the entry actions of the target (SCXML, section 3.13). Progress is kept in
 * hundredths of a percent, so that the factors 0.55 and 0.75 stay exact.
 */
module CourseGeneration {
  import opened Options
  import opened Seqs
  import opened Generation
  import opened AuthErrors
  import opened Statecharts

  datatype GenerationInput = GenerationInput(courseId: string, smeIds: seq<string>, desiredOutcome: string)

  datatype State =
    | Configure
    | OutlineSubmitting | OutlinePolling | OutlineWaiting | OutlineFetching  // generatingOutline
    | Viewing | Approving | Rejecting | Updating                             // reviewOutline
    | QueueSubmitting | Confirmation                                         // jobQueued
    | Background
    | LessonPolling | LessonWaiting | LessonFetching                         // generatingLessons
    | Complete

  datatype CurrentStep = ConfigureStep | OutlineStep | ReviewStep | QueuedStep | LessonsStep | CompleteStep

  datatype Context = Context(
    input: Option<GenerationInput>, outlineJob: Option<GenerationJob>, outline: Option<CourseOutline>,
    lessonJob: Option<GenerationJob>, generatedLessons: seq<GeneratedLesson>,
    currentStep: CurrentStep, progress: int, totalLessons: nat, error: Option<AuthError>)

  datatype Machine = Machine(state: State, ctx: Context)

  datatype Event =
    | SetInput(input: GenerationInput)
    | StartGeneration
    | OutlineGenerated(outline: CourseOutline)
    | ApproveOutline
    | RejectOutline(reason: string)
    | UpdateOutline(sections: seq<OutlineSection>)
    | RegenerateOutline
    | WaitForCompletion
    | NavigateAway
    | Cancel
    | Reset
    | Unhandled  // the declared events that no state handles
      // outcomes of the invoked actors, and the polling delays
    | JobSubmitted(job: GenerationJob)
    | JobReported(job: GenerationJob)
    | OutlineReturned(outline: CourseOutline)
    | LessonsListed(lessons: seq<GeneratedLesson>)
    | ActorFailed(thrown: Option<string>)
    | DelayElapsed

  const INITIAL_CONTEXT := Context(None, None, None, None, [], ConfigureStep, 0, 0, None)
  const INITIAL := Machine(Configure, INITIAL_CONTEXT)

  // ---------------------------------------------------------------- entry actions

  /** Entering a top-level state at its initial substate. */
  function Entered(target: State, ctx: Context): Machine
    requires target in {Configure, OutlineSubmitting, Viewing, QueueSubmitting, Background, LessonPolling, Complete}
  {
    match target
    case Configure => Machine(Configure, ctx.(currentStep := ConfigureStep, progress := 0))
    case OutlineSubmitting => Machine(OutlineSubmitting, ctx.(currentStep := OutlineStep, progress := 1000))
    case Viewing => Machine(Viewing, ctx.(currentStep := ReviewStep, progress := 0))
    case QueueSubmitting => Machine(QueueSubmitting, ctx.(currentStep := QueuedStep, progress := 0))
    case Background => Machine(Background, ctx.(currentStep := LessonsStep))
    case LessonPolling => Machine(LessonPolling, ctx.(currentStep := LessonsStep, progress := 1000))
    case Complete => Machine(Complete, ctx.(currentStep := CompleteStep, progress := 10000))
  }

  // ---------------------------------------------------------------- step function

  function Min(a: int, b: int): int {
    if a < b then a else b
  }

  function LessonsIn(section: OutlineSection): nat {
    |section.lessons|
  }

  function LessonCount(outline: Option<CourseOutline>): nat {
    if outline.Some? then Sum(LessonsIn, outline.value.sections) else 0
  }

  predicate CanStart(ctx: Context) {
    ctx.input.Some? && ctx.input.value.courseId != "" && ctx.input.value.smeIds != []
    && ctx.input.value.desiredOutcome != ""
  }

  function StepConfigure(ctx: Context, e: Event): Machine {
    match e
    case SetInput(input) => Machine(Configure, ctx.(input := Some(input), error := None))
    case StartGeneration => if CanStart(ctx) then Entered(OutlineSubmitting, ctx) else Machine(Configure, ctx)
    case OutlineGenerated(outline) => Entered(Viewing, ctx.(outline := Some(outline), progress := 10000))
    case _ => Machine(Configure, ctx)
  }

  function OutlineReport(ctx: Context, job: GenerationJob): Machine {
    if job.status == COMPLETED then Machine(OutlineFetching, ctx.(progress := 8000))
    else if job.status == FAILED then
      Entered(Configure, ctx.(error := JobFailure(job.errorMessage, OutlineGenerationFailed)))
    else Machine(OutlineWaiting, ctx.(progress := Min(7500, 2000 + 55 * job.progressPercent)))
  }

  function StepOutline(m: Machine, e: Event): Machine {
    var ctx := m.ctx;
    match (m.state, e)
    case (OutlineSubmitting, JobSubmitted(job)) =>
      Machine(OutlinePolling, ctx.(outlineJob := Some(job), progress := 2000))
    case (OutlineSubmitting, ActorFailed(thrown)) =>
      Entered(Configure, ctx.(error := NetworkFailure(thrown, GenerationStartFailed)))
    case (OutlinePolling, JobReported(job)) => OutlineReport(ctx.(outlineJob := Some(job)), job)
    case (OutlinePolling, ActorFailed(thrown)) =>
      Entered(Configure, ctx.(error := NetworkFailure(thrown, PollFailed)))
    case (OutlineWaiting, DelayElapsed) => m.(state := OutlinePolling)
    case (OutlineWaiting, Cancel) => Entered(Configure, ctx)
    case (OutlineFetching, OutlineReturned(outline)) =>
      Entered(Viewing, ctx.(outline := Some(outline), progress := 10000, error := None))
    case (OutlineFetching, ActorFailed(thrown)) =>
      Entered(Configure, ctx.(error := NetworkFailure(thrown, OutlineFetchFailed)))
    case _ => m
  }

  function StepReview(m: Machine, e: Event): Machine {
    var ctx := m.ctx;
    match (m.state, e)
    case (Viewing, ApproveOutline) => m.(state := Approving)
    case (Viewing, RejectOutline(_)) => m.(state := Rejecting)
    case (Viewing, UpdateOutline(_)) => m.(state := Updating)
    case (Viewing, RegenerateOutline) => Entered(OutlineSubmitting, ctx)
    case (Approving, OutlineReturned(outline)) =>
      Entered(QueueSubmitting, ctx.(outline := Some(outline), error := None))
    case (Approving, ActorFailed(thrown)) =>
      Machine(Viewing, ctx.(error := NetworkFailure(thrown, ApprovalFailed)))
    case (Rejecting, OutlineReturned(_)) => Entered(OutlineSubmitting, ctx.(outline := None, error := None))
    case (Rejecting, ActorFailed(thrown)) =>
      Machine(Viewing, ctx.(error := NetworkFailure(thrown, RejectionFailed)))
    case (Updating, OutlineReturned(outline)) => Machine(Viewing, ctx.(outline := Some(outline), error := None))
    case (Updating, ActorFailed(thrown)) =>
      Machine(Viewing, ctx.(error := NetworkFailure(thrown, UpdateFailed)))
    case _ => m
  }

  function StepQueue(m: Machine, e: Event): Machine {
    var ctx := m.ctx;
    match (m.state, e)
    case (QueueSubmitting, JobSubmitted(job)) =>
      Machine(Confirmation, ctx.(lessonJob := Some(job), progress := 500, totalLessons := LessonCount(ctx.outline)))
    case (QueueSubmitting, ActorFailed(thrown)) =>
      Entered(Viewing, ctx.(error := NetworkFailure(thrown, LessonStartFailed)))
    case (Confirmation, WaitForCompletion) => Entered(LessonPolling, ctx)
    case (Confirmation, NavigateAway) => Entered(Background, ctx)
    case _ => m
  }

  function LessonReport(ctx: Context, job: GenerationJob): Machine {
    if job.status == COMPLETED then Machine(LessonFetching, ctx.(progress := 9000))
    else if job.status == FAILED then
      Entered(Viewing, ctx.(error := JobFailure(job.errorMessage, LessonGenerationFailed)))
    else Machine(LessonWaiting, ctx.(progress := Min(8500, 1000 + 75 * job.progressPercent)))
  }

  function StepLessons(m: Machine, e: Event): Machine {
    var ctx := m.ctx;
    match (m.state, e)
    case (LessonPolling, JobReported(job)) => LessonReport(ctx.(lessonJob := Some(job)), job)
    case (LessonPolling, ActorFailed(thrown)) =>
      Entered(Viewing, ctx.(error := NetworkFailure(thrown, PollFailed)))
    case (LessonWaiting, DelayElapsed) => m.(state := LessonPolling)
    case (LessonWaiting, Cancel) => Entered(Viewing, ctx)
    case (LessonWaiting, NavigateAway) => Entered(Background, ctx)
    case (LessonFetching, LessonsListed(lessons)) =>
      Entered(Complete, ctx.(generatedLessons := lessons, progress := 10000, error := None))
    case (LessonFetching, ActorFailed(thrown)) =>
      Entered(Viewing, ctx.(error := NetworkFailure(thrown, LessonFetchFailed)))
    case (Complete, Reset) => Entered(Configure, INITIAL_CONTEXT)
    case _ => m
  }

  function Step(m: Machine, e: Event): Machine {
    match m.state
    case Configure => StepConfigure(m.ctx, e)
    case OutlineSubmitting | OutlinePolling | OutlineWaiting | OutlineFetching => StepOutline(m, e)
    case Viewing | Approving | Rejecting | Updating => StepReview(m, e)
    case QueueSubmitting | Confirmation => StepQueue(m, e)
    case _ => StepLessons(m, e)
  }

  // ---------------------------------------------------------------- the running machine

  /** The interpreter's object: transition actions and then entry actions overwrite the context. */
  class Generator {
    var state: State
    var ctx: Context
    ghost var log: seq<Event>  // everything sent so far, oldest first

    function Snapshot(): Machine
      reads this
    {
      Machine(state, ctx)
    }

    /** The object is where the run of its log leads, so what holds of every run holds of it. */
    ghost predicate Valid()
      reads this
    {
      Snapshot() == Run(Step, INITIAL, log) && Inv(Snapshot())
    }

    constructor ()
      ensures Valid() && log == [] && Snapshot() == INITIAL
    {
      state, ctx := Configure, INITIAL_CONTEXT;
      log := [];
    }

    method Send(e: Event)
      requires Valid()
      modifies this
      ensures Valid() && log == old(log) + [e]
      ensures Snapshot() == Step(old(Snapshot()), e)
    {
      Dispatch(e);
      RunSnoc(Step, INITIAL, log, e);
      log := log + [e];
      EveryRunKeepsInv(log);
    }

    /** Enters a top-level state at its initial substate and runs its entry actions. */
    method Enter(target: State)
      requires target in {Configure, OutlineSubmitting, Viewing, QueueSubmitting, Background, LessonPolling, Complete}
      modifies `state, `ctx
      ensures Snapshot() == Entered(target, old(ctx))
    {
      state := target;
      match target {
        case Configure => ctx := ctx.(currentStep := ConfigureStep, progress := 0);
        case OutlineSubmitting => ctx := ctx.(currentStep := OutlineStep, progress := 1000);
        case Viewing => ctx := ctx.(currentStep := ReviewStep, progress := 0);
        case QueueSubmitting => ctx := ctx.(currentStep := QueuedStep, progress := 0);
        case Background => ctx := ctx.(currentStep := LessonsStep);
        case LessonPolling => ctx := ctx.(currentStep := LessonsStep, progress := 1000);
        case Complete => ctx := ctx.(currentStep := CompleteStep, progress := 10000);
      }
    }

    method FailTo(target: State, failure: Option<AuthError>)
      requires target == Configure || target == Viewing
      modifies `state, `ctx
      ensures Snapshot() == Entered(target, old(ctx).(error := failure))
    {
      ctx := ctx.(error := failure);
      Enter(target);
    }

    method Dispatch(e: Event)
      modifies `state, `ctx
      ensures Snapshot() == Step(old(Snapshot()), e)
    {
      match state {
        case Configure => SendConfigure(e);
        case OutlineSubmitting | OutlinePolling | OutlineWaiting | OutlineFetching => SendOutline(e);
        case Viewing | Approving | Rejecting | Updating => SendReview(e);
        case QueueSubmitting | Confirmation => SendQueue(e);
        case _ => SendLessons(e);
      }
    }

    method SendConfigure(e: Event)
      requires state == Configure
      modifies `state, `ctx
      ensures Snapshot() == StepConfigure(old(Snapshot()).ctx, e)
    {
      match e {
        case SetInput(newInput) =>
          ctx := ctx.(input := Some(newInput), error := None);
        case StartGeneration =>
          if CanStart(ctx) {
            Enter(OutlineSubmitting);
          }
        case OutlineGenerated(newOutline) =>
          ctx := ctx.(outline := Some(newOutline), progress := 10000);
          Enter(Viewing);
        case _ =>
      }
    }

    method SendOutlineReport(job: GenerationJob)
      modifies `state, `ctx
      ensures Snapshot() == OutlineReport(old(Snapshot()).ctx, job)
    {
      if job.status == COMPLETED {
        ctx := ctx.(progress := 8000);
        state := OutlineFetching;
      } else if job.status == FAILED {
        FailTo(Configure, JobFailure(job.errorMessage, OutlineGenerationFailed));
      } else {
        ctx := ctx.(progress := Min(7500, 2000 + 55 * job.progressPercent));
        state := OutlineWaiting;
      }
    }

    method SendOutline(e: Event)
      modifies `state, `ctx
      ensures Snapshot() == StepOutline(old(Snapshot()), e)
    {
      match (state, e) {
        case (OutlineSubmitting, JobSubmitted(job)) =>
          ctx := ctx.(outlineJob := Some(job), progress := 2000);
          state := OutlinePolling;
        case (OutlineSubmitting, ActorFailed(thrown)) =>
          FailTo(Configure, NetworkFailure(thrown, GenerationStartFailed));
        case (OutlinePolling, JobReported(job)) =>
          ctx := ctx.(outlineJob := Some(job));
          SendOutlineReport(job);
        case (OutlinePolling, ActorFailed(thrown)) =>
          FailTo(Configure, NetworkFailure(thrown, PollFailed));
        case (OutlineWaiting, DelayElapsed) =>
          state := OutlinePolling;
        case (OutlineWaiting, Cancel) =>
          Enter(Configure);
        case (OutlineFetching, OutlineReturned(newOutline)) =>
          ctx := ctx.(outline := Some(newOutline), progress := 10000, error := None);
          Enter(Viewing);
        case (OutlineFetching, ActorFailed(thrown)) =>
          FailTo(Configure, NetworkFailure(thrown, OutlineFetchFailed));
        case _ =>
      }
    }

    method SendReview(e: Event)
      modifies `state, `ctx
      ensures Snapshot() == StepReview(old(Snapshot()), e)
    {
      match (state, e) {
        case (Viewing, ApproveOutline) =>
          state := Approving;
        case (Viewing, RejectOutline(_)) =>
          state := Rejecting;
        case (Viewing, UpdateOutline(_)) =>
          state := Updating;
        case (Viewing, RegenerateOutline) =>
          Enter(OutlineSubmitting);
        case (Approving, OutlineReturned(newOutline)) =>
          ctx := ctx.(outline := Some(newOutline), error := None);
          Enter(QueueSubmitting);
        case (Approving, ActorFailed(thrown)) =>
          ctx := ctx.(error := NetworkFailure(thrown, ApprovalFailed));
          state := Viewing;
        case (Rejecting, OutlineReturned(_)) =>
          ctx := ctx.(outline := None, error := None);
          Enter(OutlineSubmitting);
        case (Rejecting, ActorFailed(thrown)) =>
          ctx := ctx.(error := NetworkFailure(thrown, RejectionFailed));
          state := Viewing;
        case (Updating, OutlineReturned(newOutline)) =>
          ctx := ctx.(outline := Some(newOutline), error := None);
          state := Viewing;
        case (Updating, ActorFailed(thrown)) =>
          ctx := ctx.(error := NetworkFailure(thrown, UpdateFailed));
          state := Viewing;
        case _ =>
      }
    }

    method SendQueue(e: Event)
      modifies `state, `ctx
      ensures Snapshot() == StepQueue(old(Snapshot()), e)
    {
      match (state, e) {
        case (QueueSubmitting, JobSubmitted(job)) =>
          ctx := ctx.(lessonJob := Some(job), progress := 500, totalLessons := LessonCount(ctx.outline));
          state := Confirmation;
        case (QueueSubmitting, ActorFailed(thrown)) =>
          FailTo(Viewing, NetworkFailure(thrown, LessonStartFailed));
        case (Confirmation, WaitForCompletion) =>
          Enter(LessonPolling);
        case (Confirmation, NavigateAway) =>
          Enter(Background);
        case _ =>
      }
    }

    method SendLessonReport(job: GenerationJob)
      modifies `state, `ctx
      ensures Snapshot() == LessonReport(old(Snapshot()).ctx, job)
    {
      if job.status == COMPLETED {
        ctx := ctx.(progress := 9000);
        state := LessonFetching;
      } else if job.status == FAILED {
        FailTo(Viewing, JobFailure(job.errorMessage, LessonGenerationFailed));
      } else {
        ctx := ctx.(progress := Min(8500, 1000 + 75 * job.progressPercent));
        state := LessonWaiting;
      }
    }

    method SendLessons(e: Event)
      modifies `state, `ctx
      ensures Snapshot() == StepLessons(old(Snapshot()), e)
    {
      match (state, e) {
        case (LessonPolling, JobReported(job)) =>
          ctx := ctx.(lessonJob := Some(job));
          SendLessonReport(job);
        case (LessonPolling, ActorFailed(thrown)) =>
          FailTo(Viewing, NetworkFailure(thrown, PollFailed));
        case (LessonWaiting, DelayElapsed) =>
          state := LessonPolling;
        case (LessonWaiting, Cancel) =>
          Enter(Viewing);
        case (LessonWaiting, NavigateAway) =>
          Enter(Background);
        case (LessonFetching, LessonsListed(lessons)) =>
          ctx := ctx.(generatedLessons := lessons, progress := 10000, error := None);
          Enter(Complete);
        case (LessonFetching, ActorFailed(thrown)) =>
          FailTo(Viewing, NetworkFailure(thrown, LessonFetchFailed));
        case (Complete, Reset) =>
          ctx := INITIAL_CONTEXT;
          Enter(Configure);
        case _ =>
      }
    }
  }

  // ---------------------------------------------------------------- steps shown to the user

  function StepOf(state: State): CurrentStep {
    match state
    case Configure => ConfigureStep
    case OutlineSubmitting | OutlinePolling | OutlineWaiting | OutlineFetching => OutlineStep
    case Viewing | Approving | Rejecting | Updating => ReviewStep
    case QueueSubmitting | Confirmation => QueuedStep
    case Background | LessonPolling | LessonWaiting | LessonFetching => LessonsStep
    case Complete => CompleteStep
  }

  function StepIndex(step: CurrentStep): nat {
    match step
    case ConfigureStep => 0
    case OutlineStep => 1
    case ReviewStep => 2
    case QueuedStep => 3
    case LessonsStep => 4
    case CompleteStep => 5
  }

  /** Tests the name of the top-level state, nested or not. */
  predicate IsGenerating(state: State) {
    match state
    case OutlineSubmitting | OutlinePolling | OutlineWaiting | OutlineFetching => true
    case QueueSubmitting | Confirmation | LessonPolling | LessonWaiting | LessonFetching => true
    case _ => false
  }

  // ---------------------------------------------------------------- actor inputs

  datatype Invocation =
    | NoActor
    | CallGenerateOutline(input: GenerationInput)
    | CallPollJob(jobId: string)
    | CallGetOutline(courseId: string)
    | CallReview(courseId: string, outlineId: string)  // approve, reject or update
    | CallGenerateLessons(courseId: string)
    | CallListLessons(courseId: string)
    | NullDereference

  function PollInput(job: Option<GenerationJob>): Invocation {
    if job.Some? then CallPollJob(job.value.id) else NullDereference
  }

  /** The actor a state invokes, with its input; a failing non-null assertion is a NullDereference. */
  function Invoked(m: Machine): Invocation {
    var ctx := m.ctx;
    match m.state
    case OutlineSubmitting => if ctx.input.Some? then CallGenerateOutline(ctx.input.value) else NullDereference
    case OutlinePolling => PollInput(ctx.outlineJob)
    case OutlineFetching =>
      if ctx.input.Some? then CallGetOutline(ctx.input.value.courseId) else NullDereference
    case Approving | Rejecting | Updating =>
      if ctx.input.Some? && ctx.outline.Some? then CallReview(ctx.input.value.courseId, ctx.outline.value.id)
      else NullDereference
    case QueueSubmitting =>
      if ctx.input.Some? then CallGenerateLessons(ctx.input.value.courseId) else NullDereference
    case LessonPolling => PollInput(ctx.lessonJob)
    case LessonFetching =>
      if ctx.input.Some? then CallListLessons(ctx.input.value.courseId) else NullDereference
    case _ => NoActor
  }

  predicate InvokesSafely(m: Machine) {
    !Invoked(m).NullDereference?
  }

  /** Past confirmation: the lesson job exists and its lessons have been counted. */
  predicate LessonsUnderway(state: State) {
    state in {Confirmation, Background, LessonPolling, LessonWaiting, LessonFetching, Complete}
  }

  /** What holds after every run whatsoever. */
  predicate Inv(m: Machine) {
    var ctx := m.ctx;
    && ctx.currentStep == StepOf(m.state)
    && (m.state in {OutlinePolling, OutlineWaiting, OutlineFetching} ==> ctx.outlineJob.Some?)
    && (m.state == OutlineWaiting ==> ctx.outlineJob.value.status !in {COMPLETED, FAILED})
    && (m.state == OutlineFetching ==> ctx.outlineJob.value.status == COMPLETED)
    && (StepIndex(ctx.currentStep) >= 2 ==> ctx.outline.Some?)
    && (LessonsUnderway(m.state) ==> ctx.lessonJob.Some? && ctx.totalLessons == LessonCount(ctx.outline))
    && (m.state == LessonWaiting ==> ctx.lessonJob.value.status !in {COMPLETED, FAILED})
    && (m.state == LessonFetching ==> ctx.lessonJob.value.status == COMPLETED)
    && ctx.progress <= 10000
    && (ctx.progress == 10000 <==> m.state == Complete)
  }

  lemma OutlineKeepsInv(m: Machine, e: Event)
    requires Inv(m) && StepOf(m.state) == OutlineStep
    ensures Inv(StepOutline(m, e))
  {
  }

  lemma ReviewKeepsInv(m: Machine, e: Event)
    requires Inv(m) && StepOf(m.state) == ReviewStep
    ensures Inv(StepReview(m, e))
  {
  }

  lemma QueueKeepsInv(m: Machine, e: Event)
    requires Inv(m) && StepOf(m.state) == QueuedStep
    ensures Inv(StepQueue(m, e))
  {
  }

  lemma LessonReportKeepsInv(m: Machine, e: Event)
    requires Inv(m) && m.state == LessonPolling
    ensures Inv(StepLessons(m, e))
  {
  }

  lemma LessonDelayKeepsInv(m: Machine, e: Event)
    requires Inv(m) && m.state == LessonWaiting
    ensures Inv(StepLessons(m, e))
  {
  }

  lemma LessonsKeepInv(m: Machine, e: Event)
    requires Inv(m) && StepIndex(StepOf(m.state)) >= 4
    ensures Inv(StepLessons(m, e))
  {
    match m.state
    case LessonPolling => LessonReportKeepsInv(m, e);
    case LessonWaiting => LessonDelayKeepsInv(m, e);
    case _ =>
  }

  lemma StepKeepsInv(m: Machine, e: Event)
    requires Inv(m)
    ensures Inv(Step(m, e))
  {
    match StepOf(m.state)
    case ConfigureStep =>
    case OutlineStep => OutlineKeepsInv(m, e);
    case ReviewStep => ReviewKeepsInv(m, e);
    case QueuedStep => QueueKeepsInv(m, e);
    case _ => LessonsKeepInv(m, e);
  }

  /** After every run the invariant holds; in particular the bar is full exactly when the flow is complete. */
  lemma EveryRunKeepsInv(es: seq<Event>)
    ensures Inv(Run(Step, INITIAL, es))
    ensures Run(Step, INITIAL, es).ctx.progress == 10000 <==> Run(Step, INITIAL, es).state == Complete
  {
    forall m, e | Inv(m) ensures Inv(Step(m, e)) {
      StepKeepsInv(m, e);
    }
    RunKeeps(Step, Inv, INITIAL, es);
  }

  /** The step shown says whether generation is going on, background generation aside. */
  lemma GeneratingByStep(es: seq<Event>)
    ensures var m := Run(Step, INITIAL, es);
            IsGenerating(m.state) <==> StepIndex(m.ctx.currentStep) in {1, 3, 4} && m.state != Background
  {
    EveryRunKeepsInv(es);
  }

  /** Outside configuration and viewing, the input is set. */
  predicate InputKept(m: Machine) {
    m.state != Configure && m.state != Viewing ==> m.ctx.input.Some?
  }

  predicate Sound(m: Machine) {
    Inv(m) && InputKept(m)
  }

  /** The reviewer does not act on an outline that came without an input. */
  predicate ReviewsWithInput(m: Machine, e: Event) {
    !(m.state == Viewing && m.ctx.input.None?
      && (e.ApproveOutline? || e.RejectOutline? || e.UpdateOutline? || e.RegenerateOutline?))
  }

  lemma StepKeepsInput(m: Machine, e: Event)
    requires InputKept(m)
    ensures InputKept(Step(m, e)) <==> ReviewsWithInput(m, e)
    ensures InputKept(Step(m, e)) || Step(m, e).state in {OutlineSubmitting, Approving, Rejecting, Updating}
  {
  }

  lemma SoundIsSafe(m: Machine)
    requires Sound(m)
    ensures InvokesSafely(m)
  {
  }

  lemma StepInvokesSafely(m: Machine, e: Event)
    requires Sound(m)
    ensures ReviewsWithInput(m, e) ==> Sound(Step(m, e))
    ensures InvokesSafely(Step(m, e)) <==> ReviewsWithInput(m, e)
  {
    var next := Step(m, e);
    StepKeepsInv(m, e);
    StepKeepsInput(m, e);
    if InputKept(next) {
      SoundIsSafe(next);
    } else {
      assert Invoked(next).NullDereference?;
    }
  }

  /** All non-null assertions hold throughout a run exactly when no outline without input is acted on. */
  lemma AssertionsHoldExactlyWhen(es: seq<Event>)
    ensures Always(Step, InvokesSafely, INITIAL, es) <==> Along(Step, ReviewsWithInput, INITIAL, es)
  {
    forall m, e | Sound(m)
      ensures ReviewsWithInput(m, e) ==> Sound(Step(m, e))
      ensures InvokesSafely(Step(m, e)) <==> ReviewsWithInput(m, e)
    {
      StepInvokesSafely(m, e);
    }
    SafeExactlyWhenAcceptable(Step, Sound, InvokesSafely, ReviewsWithInput, INITIAL, es);
  }

  /** An outline handed over without an input and then approved dereferences the missing input. */
  lemma ApprovingWithoutInputIsUnsafe(outline: CourseOutline)
    ensures !Always(Step, InvokesSafely, INITIAL, [OutlineGenerated(outline), ApproveOutline])
  {
    var es := [OutlineGenerated(outline), ApproveOutline];
    assert es[1..] == [ApproveOutline];
    AssertionsHoldExactlyWhen(es);
  }

  lemma SafeRunKeepsInput(es: seq<Event>)
    requires Along(Step, ReviewsWithInput, INITIAL, es)
    ensures InputKept(Run(Step, INITIAL, es))
  {
    forall m, e | InputKept(m) && ReviewsWithInput(m, e) ensures InputKept(Step(m, e)) {
      StepKeepsInput(m, e);
    }
    AcceptableRunKeeps(Step, ReviewsWithInput, InputKept, INITIAL, es);
  }

  predicate OutlineOnlyWithInput(m: Machine, e: Event) {
    m.state == Configure && e.OutlineGenerated? ==> m.ctx.input.Some?
  }

  predicate InputSet(m: Machine) {
    m.state != Configure ==> m.ctx.input.Some?
  }

  /** The input is non-null outside configuration throughout a run exactly when no outline is handed over without it. */
  lemma InputSetExactlyWhen(es: seq<Event>)
    ensures Always(Step, InputSet, INITIAL, es) <==> Along(Step, OutlineOnlyWithInput, INITIAL, es)
  {
    SafeExactlyWhenAcceptable(Step, m => true, InputSet, OutlineOnlyWithInput, INITIAL, es);
  }

  lemma {:induction false} InputSetReviewsWithInput(m: Machine, es: seq<Event>)
    requires Always(Step, InputSet, m, es)
    ensures Along(Step, ReviewsWithInput, m, es)
    decreases |es|
  {
    if es != [] {
      InputSetReviewsWithInput(Step(m, es[0]), es[1..]);
    }
  }

  /** So every non-null assertion is safe on every run in which outlines are only handed over with an input set. */
  lemma AssertionsHoldWithInput(es: seq<Event>)
    requires Along(Step, OutlineOnlyWithInput, INITIAL, es)
    ensures Always(Step, InvokesSafely, INITIAL, es) && Always(Step, InputSet, INITIAL, es)
  {
    InputSetExactlyWhen(es);
    InputSetReviewsWithInput(INITIAL, es);
    AssertionsHoldExactlyWhen(es);
  }

  // ---------------------------------------------------------------- failure and completion

  predicate AwaitsActor(state: State) {
    state in {OutlineSubmitting, OutlinePolling, OutlineFetching, Approving, Rejecting, Updating,
              QueueSubmitting, LessonPolling, LessonFetching}
  }

  /** A failing actor, a failed job, or a cancel while waiting. */
  predicate IsSetback(m: Machine, e: Event) {
    || (AwaitsActor(m.state) && e.ActorFailed?)
    || (m.state in {OutlinePolling, LessonPolling} && e.JobReported? && e.job.status == FAILED)
    || (m.state in {OutlineWaiting, LessonWaiting} && e.Cancel?)
  }

  /** The text shown when the actor of a state fails without a message of its own. */
  function FailureText(state: State): Fallback {
    match state
    case OutlineSubmitting => GenerationStartFailed
    case OutlineFetching => OutlineFetchFailed
    case Approving => ApprovalFailed
    case Rejecting => RejectionFailed
    case Updating => UpdateFailed
    case QueueSubmitting => LessonStartFailed
    case LessonFetching => LessonFetchFailed
    case _ => PollFailed
  }

  /** The error of a failed actor, or of a failed job, whose empty message is as good as none. */
  function SetbackError(m: Machine, e: Event): Option<AuthError>
    requires IsSetback(m, e)
  {
    match e
    case ActorFailed(thrown) =>
      Some(AuthError(NetworkError, if thrown.Some? then Given(thrown.value) else Stock(FailureText(m.state)), true))
    case JobReported(job) =>
      var text := if m.state == OutlinePolling then OutlineGenerationFailed else LessonGenerationFailed;
      var message := job.errorMessage;
      Some(AuthError(NetworkError, if message.GetOr("") != "" then Given(message.value) else Stock(text), true))
    case _ => m.ctx.error
  }

  /** A setback costs nothing but progress: the flow falls back to its last form with input, outline and lessons
    * kept. */
  lemma SetbackKeepsWork(m: Machine, e: Event)
    requires Inv(m) && IsSetback(m, e)
    ensures var end := Step(m, e);
            && end.state == (if StepOf(m.state) == OutlineStep then Configure else Viewing)
            && end.ctx.input == m.ctx.input && end.ctx.outline == m.ctx.outline
            && end.ctx.generatedLessons == m.ctx.generatedLessons && end.ctx.totalLessons == m.ctx.totalLessons
            && end.ctx.progress == (if StepOf(m.state) == ReviewStep then m.ctx.progress else 0)
            && end.ctx.error == SetbackError(m, e)
            && (e.Cancel? || (end.ctx.error.Some? && end.ctx.error.value.retryable))
  {
    StepKeepsInv(m, e);
  }

  /** How many steps the straight path still takes. */
  function Distance(m: Machine): nat {
    match m.state
    case Configure => if CanStart(m.ctx) then 14 else 15
    case Rejecting => 14
    case OutlineSubmitting | OutlineWaiting => 13
    case OutlinePolling => 12
    case OutlineFetching | Updating => 11
    case Viewing => 10
    case Approving => 9
    case QueueSubmitting => 8
    case Confirmation | LessonWaiting => 7
    case LessonPolling => 6
    case LessonFetching => 5
    case Background | Complete => 0
  }

  /** The next event of the straight path. */
  function Forward(m: Machine, input: GenerationInput, job: GenerationJob, outline: CourseOutline): Event {
    match m.state
    case Configure => if CanStart(m.ctx) then StartGeneration else SetInput(input)
    case OutlineSubmitting | QueueSubmitting => JobSubmitted(job)
    case OutlinePolling | LessonPolling => JobReported(job)
    case OutlineWaiting | LessonWaiting => DelayElapsed
    case OutlineFetching | Approving | Rejecting | Updating => OutlineReturned(outline)
    case Viewing => ApproveOutline
    case Confirmation => WaitForCompletion
    case _ => LessonsListed([])
  }

  lemma ForwardAdvances(m: Machine, input: GenerationInput, job: GenerationJob, outline: CourseOutline)
    requires InputSet(m) && m.state != Background && m.state != Complete
    requires input.courseId != "" && input.smeIds != [] && input.desiredOutcome != "" && job.status == COMPLETED
    ensures var next := Step(m, Forward(m, input, job, outline));
            InputSet(next) && next.state != Background && Distance(next) < Distance(m)
  {
  }

  lemma ForwardKeepsInv(m: Machine, input: GenerationInput, job: GenerationJob, outline: CourseOutline)
    requires Inv(m) && InputSet(m) && m.state != Background && m.state != Complete
    requires input.courseId != "" && input.smeIds != [] && input.desiredOutcome != "" && job.status == COMPLETED
    ensures var next := Step(m, Forward(m, input, job, outline));
            Inv(next) && InputSet(next) && next.state != Background && Distance(next) < Distance(m)
  {
    StepKeepsInv(m, Forward(m, input, job, outline));
    ForwardAdvances(m, input, job, outline);
  }

  /** The word completes the flow from m, and no actor input on the way dereferences null. */
  ghost predicate CompletesSafely(m: Machine, es: seq<Event>) {
    Run(Step, m, es).state == Complete && Always(Step, InvokesSafely, m, es)
  }

  /** The straight path completes safely, whatever input is chosen and whatever the actors answer. */
  lemma {:induction false} CanAlwaysComplete(
      m: Machine, input: GenerationInput, job: GenerationJob, outline: CourseOutline) returns (es: seq<Event>)
    requires Inv(m) && InputSet(m) && m.state != Background
    requires input.courseId != "" && input.smeIds != [] && input.desiredOutcome != "" && job.status == COMPLETED
    ensures CompletesSafely(m, es)
    decreases Distance(m)
  {
    es := [];
    SoundIsSafe(m);
    if m.state != Complete {
      var e := Forward(m, input, job, outline);
      ForwardKeepsInv(m, input, job, outline);
      var rest := CanAlwaysComplete(Step(m, e), input, job, outline);
      es := [e] + rest;
      assert es[1..] == rest;
    }
  }

  /** Where the flow cannot be completed any more: in the background, or viewing an outline without an input. */
  predicate Stranded(m: Machine) {
    m.state == Background || (m.state == Viewing && m.ctx.input.None?)
  }

  lemma StepStaysStranded(m: Machine, e: Event)
    requires Stranded(m)
    ensures Stranded(Step(m, e)) || !InvokesSafely(Step(m, e))
  {
  }

  lemma {:induction false} StrandedForGood(m: Machine, es: seq<Event>)
    requires Stranded(m)
    ensures !CompletesSafely(m, es)
    decreases |es|
  {
    if es != [] {
      StepStaysStranded(m, es[0]);
      if Stranded(Step(m, es[0])) {
        StrandedForGood(Step(m, es[0]), es[1..]);
      } else {
        assert !Always(Step, InvokesSafely, Step(m, es[0]), es[1..]);
      }
    }
  }

  /** A run can be continued to a safe completion exactly when it was safe so far and is not stranded. */
  lemma CompletesExactlyWhen(es: seq<Event>)
    ensures (exists rest :: CompletesSafely(INITIAL, es + rest))
       <==> Along(Step, ReviewsWithInput, INITIAL, es) && !Stranded(Run(Step, INITIAL, es))
  {
    var m := Run(Step, INITIAL, es);
    AssertionsHoldExactlyWhen(es);
    EveryRunKeepsInv(es);
    forall rest
      ensures CompletesSafely(INITIAL, es + rest)
         <==> Always(Step, InvokesSafely, INITIAL, es) && CompletesSafely(m, rest)
    {
      RunAppend(Step, INITIAL, es, rest);
      AlwaysAppend(Step, InvokesSafely, INITIAL, es, rest);
    }
    if Stranded(m) {
      forall rest ensures !CompletesSafely(m, rest) {
        StrandedForGood(m, rest);
      }
    } else if Along(Step, ReviewsWithInput, INITIAL, es) {
      SafeRunKeepsInput(es);
      var input := GenerationInput("course", ["expert"], "outcome");
      var rest := CanAlwaysComplete(m, input, GenerationJob("job", COMPLETED, 0, None), CourseOutline("outline", []));
      assert CompletesSafely(INITIAL, es + rest);
    }
  }

  /** In particular wherever outlines are only handed over with an input, short of the background. */
  lemma CompletesWithInput(es: seq<Event>)
    requires Along(Step, OutlineOnlyWithInput, INITIAL, es) && Run(Step, INITIAL, es).state != Background
    ensures exists rest :: CompletesSafely(INITIAL, es + rest)
  {
    AssertionsHoldWithInput(es);
    AssertionsHoldExactlyWhen(es);
    AlwaysAtEnd(Step, InputSet, INITIAL, es);
    CompletesExactlyWhen(es);
  }

  /** Sent to the background, the flow stays there for good, with everything kept. */
  lemma {:induction false} BackgroundIsFinal(m: Machine, es: seq<Event>)
    ensures m.state == Background ==> Run(Step, m, es) == m
    ensures m.state in {Confirmation, LessonWaiting} ==>
              Run(Step, m, [NavigateAway] + es) == Machine(Background, m.ctx.(currentStep := LessonsStep))
    decreases |es|, if m.state == Background then 0 else 1
  {
    if m.state == Background {
      if es != [] {
        BackgroundIsFinal(m, es[1..]);
      }
    } else if m.state in {Confirmation, LessonWaiting} {
      assert ([NavigateAway] + es)[1..] == es;
      BackgroundIsFinal(Step(m, NavigateAway), es);
    }
  }

  // ---------------------------------------------------------------- who writes what

  predicate Resets(m: Machine, e: Event) {
    m.state == Complete && e.Reset?
  }

  function InputWritten(m: Machine, e: Event): Option<Option<GenerationInput>> {
    if m.state == Configure && e.SetInput? then Some(Some(e.input)) else if Resets(m, e) then Some(None) else None
  }

  /** An outline is handed over, fetched, approved or updated, and it is gone once it is rejected. */
  function OutlineWritten(m: Machine, e: Event): Option<Option<CourseOutline>> {
    if (m.state == Configure && e.OutlineGenerated?)
       || (m.state in {OutlineFetching, Approving, Updating} && e.OutlineReturned?) then Some(Some(e.outline))
    else if Resets(m, e) || Rejected(m, e) then Some(None)
    else None
  }

  function OutlineJobWritten(m: Machine, e: Event): Option<Option<GenerationJob>> {
    if (m.state == OutlineSubmitting && e.JobSubmitted?) || (m.state == OutlinePolling && e.JobReported?) then
      Some(Some(e.job))
    else if Resets(m, e) then Some(None)
    else None
  }

  function LessonJobWritten(m: Machine, e: Event): Option<Option<GenerationJob>> {
    if (m.state == QueueSubmitting && e.JobSubmitted?) || (m.state == LessonPolling && e.JobReported?) then
      Some(Some(e.job))
    else if Resets(m, e) then Some(None)
    else None
  }

  function LessonsWritten(m: Machine, e: Event): Option<seq<GeneratedLesson>> {
    if m.state == LessonFetching && e.LessonsListed? then Some(e.lessons)
    else if Resets(m, e) then Some([])
    else None
  }

  function TotalWritten(m: Machine, e: Event): Option<nat> {
    if m.state == QueueSubmitting && e.JobSubmitted? then Some(LessonCount(m.ctx.outline))
    else if Resets(m, e) then Some(0)
    else None
  }

  function ErrorWritten(m: Machine, e: Event): Option<Option<AuthError>> {
    if IsSetback(m, e) && !e.Cancel? then Some(SetbackError(m, e))
    else if (m.state == Configure && e.SetInput?) || (m.state == LessonFetching && e.LessonsListed?)
         || (m.state in {OutlineFetching, Approving, Rejecting, Updating} && e.OutlineReturned?) || Resets(m, e) then
      Some(None)
    else
      None
  }

  lemma StepWritesInput(m: Machine, e: Event)
    ensures Step(m, e).ctx.input == InputWritten(m, e).GetOr(m.ctx.input)
  {
  }

  lemma StepWritesOutline(m: Machine, e: Event)
    ensures Step(m, e).ctx.outline == OutlineWritten(m, e).GetOr(m.ctx.outline)
  {
  }

  lemma StepWritesLessons(m: Machine, e: Event)
    ensures Step(m, e).ctx.generatedLessons == LessonsWritten(m, e).GetOr(m.ctx.generatedLessons)
  {
  }

  lemma StepWritesOutlineJob(m: Machine, e: Event)
    ensures Step(m, e).ctx.outlineJob == OutlineJobWritten(m, e).GetOr(m.ctx.outlineJob)
  {
  }

  lemma StepWritesLessonJob(m: Machine, e: Event)
    ensures Step(m, e).ctx.lessonJob == LessonJobWritten(m, e).GetOr(m.ctx.lessonJob)
  {
  }

  lemma StepWritesTotal(m: Machine, e: Event)
    ensures Step(m, e).ctx.totalLessons == TotalWritten(m, e).GetOr(m.ctx.totalLessons)
  {
  }

  lemma OutlineWritesError(m: Machine, e: Event)
    requires StepOf(m.state) == OutlineStep
    ensures StepOutline(m, e).ctx.error == ErrorWritten(m, e).GetOr(m.ctx.error)
  {
  }

  lemma LessonsWriteError(m: Machine, e: Event)
    requires StepOf(m.state) == LessonsStep
    ensures StepLessons(m, e).ctx.error == ErrorWritten(m, e).GetOr(m.ctx.error)
  {
  }

  lemma StepWritesError(m: Machine, e: Event)
    ensures Step(m, e).ctx.error == ErrorWritten(m, e).GetOr(m.ctx.error)
  {
    match StepOf(m.state)
    case OutlineStep => OutlineWritesError(m, e);
    case LessonsStep => LessonsWriteError(m, e);
    case _ =>
  }

  /** On every run each field holds what was last written by the events meant for it, since any reset. */
  lemma {:induction false} ContextFollowsEvents(m: Machine, es: seq<Event>)
    ensures var ctx, end := m.ctx, Run(Step, m, es).ctx;
            && end.input == LastWritten(Step, InputWritten, m, es, ctx.input)
            && end.outline == LastWritten(Step, OutlineWritten, m, es, ctx.outline)
            && end.generatedLessons == LastWritten(Step, LessonsWritten, m, es, ctx.generatedLessons)
            && end.outlineJob == LastWritten(Step, OutlineJobWritten, m, es, ctx.outlineJob)
            && end.lessonJob == LastWritten(Step, LessonJobWritten, m, es, ctx.lessonJob)
            && end.totalLessons == LastWritten(Step, TotalWritten, m, es, ctx.totalLessons)
            && end.error == LastWritten(Step, ErrorWritten, m, es, ctx.error)
    decreases |es|
  {
    if es != [] {
      StepWritesInput(m, es[0]);
      StepWritesOutline(m, es[0]);
      StepWritesLessons(m, es[0]);
      StepWritesOutlineJob(m, es[0]);
      StepWritesLessonJob(m, es[0]);
      StepWritesTotal(m, es[0]);
      StepWritesError(m, es[0]);
      ContextFollowsEvents(Step(m, es[0]), es[1..]);
    }
  }

  /** The lessons of the last successful fetch along a word, or `latest` if the word has none. */
  function LastListed(m: Machine, es: seq<Event>, latest: Option<seq<GeneratedLesson>>): Option<seq<GeneratedLesson>>
    decreases |es|
  {
    if es == [] then latest
    else LastListed(Step(m, es[0]), es[1..],
                    if m.state == LessonFetching && es[0].LessonsListed? then Some(es[0].lessons) else latest)
  }

  lemma {:induction false} RunHoldsListed(m: Machine, es: seq<Event>, latest: Option<seq<GeneratedLesson>>)
    requires m.state == Complete ==> latest == Some(m.ctx.generatedLessons)
    ensures var end := Run(Step, m, es);
            end.state == Complete ==> LastListed(m, es, latest) == Some(end.ctx.generatedLessons)
    decreases |es|
  {
    if es != [] {
      RunHoldsListed(Step(m, es[0]), es[1..],
                     if m.state == LessonFetching && es[0].LessonsListed? then Some(es[0].lessons) else latest);
    }
  }

  /** A completed flow holds exactly the lessons it fetched last. */
  lemma CompleteHoldsFetchedLessons(es: seq<Event>)
    ensures var m := Run(Step, INITIAL, es);
            m.state == Complete ==> LastListed(INITIAL, es, None) == Some(m.ctx.generatedLessons)
  {
    RunHoldsListed(INITIAL, es, None);
  }

  /** From the review on, the outline is the one handed over, fetched, approved or updated last. */
  lemma ReviewHoldsLastOutline(es: seq<Event>)
    ensures var m := Run(Step, INITIAL, es);
            StepOf(m.state) !in {ConfigureStep, OutlineStep} ==>
              m.ctx.outline.Some? && m.ctx.outline == LastWritten(Step, OutlineWritten, INITIAL, es, None)
  {
    EveryRunKeepsInv(es);
    ContextFollowsEvents(INITIAL, es);
  }

  /** On every run without a review lacking an input, each actor is called with what was written last. */
  lemma ActorsGetWhatWasWrittenLast(es: seq<Event>)
    requires Along(Step, ReviewsWithInput, INITIAL, es)
    ensures var m := Run(Step, INITIAL, es);
            var input := LastWritten(Step, InputWritten, INITIAL, es, None);
            var outline := LastWritten(Step, OutlineWritten, INITIAL, es, None);
            var outlineJob := LastWritten(Step, OutlineJobWritten, INITIAL, es, None);
            var lessonJob := LastWritten(Step, LessonJobWritten, INITIAL, es, None);
            match m.state
            case OutlineSubmitting => input.Some? && Invoked(m) == CallGenerateOutline(input.value)
            case OutlinePolling => outlineJob.Some? && Invoked(m) == CallPollJob(outlineJob.value.id)
            case OutlineFetching => input.Some? && Invoked(m) == CallGetOutline(input.value.courseId)
            case Approving | Rejecting | Updating =>
              input.Some? && outline.Some? && Invoked(m) == CallReview(input.value.courseId, outline.value.id)
            case QueueSubmitting => input.Some? && Invoked(m) == CallGenerateLessons(input.value.courseId)
            case LessonPolling => lessonJob.Some? && Invoked(m) == CallPollJob(lessonJob.value.id)
            case LessonFetching => input.Some? && Invoked(m) == CallListLessons(input.value.courseId)
            case _ => Invoked(m) == NoActor
  {
    EveryRunKeepsInv(es);
    SafeRunKeepsInput(es);
    ContextFollowsEvents(INITIAL, es);
  }

  lemma UpdateVerdict(m: Machine, outline: CourseOutline, sections: seq<OutlineSection>)
    requires m.state == Viewing
    ensures Run(Step, m, [UpdateOutline(sections), OutlineReturned(outline)])
         == m.(ctx := m.ctx.(outline := Some(outline), error := None))
  {
    RunTwo(Step, m, UpdateOutline(sections), OutlineReturned(outline));
  }

  lemma ApproveVerdict(m: Machine, outline: CourseOutline)
    requires m.state == Viewing
    ensures Run(Step, m, [ApproveOutline, OutlineReturned(outline)])
         == Machine(QueueSubmitting, m.ctx.(outline := Some(outline), error := None, currentStep := QueuedStep,
                                            progress := 0))
  {
    RunTwo(Step, m, ApproveOutline, OutlineReturned(outline));
  }

  lemma RejectVerdict(m: Machine, outline: CourseOutline, reason: string)
    requires m.state == Viewing
    ensures Run(Step, m, [RejectOutline(reason), OutlineReturned(outline)])
         == Machine(OutlineSubmitting, m.ctx.(outline := None, error := None, currentStep := OutlineStep,
                                              progress := 1000))
  {
    RunTwo(Step, m, RejectOutline(reason), OutlineReturned(outline));
  }

  lemma RegenerateVerdict(m: Machine)
    requires m.state == Viewing
    ensures Step(m, RegenerateOutline)
         == Machine(OutlineSubmitting, m.ctx.(currentStep := OutlineStep, progress := 1000))
  {
  }

  /** What each verdict of the reviewer comes to once the server has answered. */
  lemma ReviewVerdicts(m: Machine, outline: CourseOutline, reason: string, sections: seq<OutlineSection>)
    requires m.state == Viewing
    ensures Run(Step, m, [UpdateOutline(sections), OutlineReturned(outline)])
         == m.(ctx := m.ctx.(outline := Some(outline), error := None))
    ensures Run(Step, m, [ApproveOutline, OutlineReturned(outline)])
         == Machine(QueueSubmitting, m.ctx.(outline := Some(outline), error := None, currentStep := QueuedStep,
                                            progress := 0))
    ensures Run(Step, m, [RejectOutline(reason), OutlineReturned(outline)])
         == Machine(OutlineSubmitting, m.ctx.(outline := None, error := None, currentStep := OutlineStep,
                                              progress := 1000))
    ensures Step(m, RegenerateOutline)
         == Machine(OutlineSubmitting, m.ctx.(currentStep := OutlineStep, progress := 1000))
  {
    UpdateVerdict(m, outline, sections);
    ApproveVerdict(m, outline);
    RegenerateVerdict(m);
    RejectVerdict(m, outline, reason);
  }

  /** Where each event is handled; an actor's outcome only in the state that invoked it. */
  predicate Expects(state: State, e: Event) {
    match e
    case SetInput(_) | StartGeneration | OutlineGenerated(_) => state == Configure
    case ApproveOutline | RejectOutline(_) | UpdateOutline(_) | RegenerateOutline => state == Viewing
    case WaitForCompletion => state == Confirmation
    case NavigateAway => state == Confirmation || state == LessonWaiting
    case Cancel | DelayElapsed => state == OutlineWaiting || state == LessonWaiting
    case Reset => state == Complete
    case Unhandled => false
    case JobSubmitted(_) => state == OutlineSubmitting || state == QueueSubmitting
    case JobReported(_) => state == OutlinePolling || state == LessonPolling
    case OutlineReturned(_) => state in {OutlineFetching, Approving, Rejecting, Updating}
    case LessonsListed(_) => state == LessonFetching
    case ActorFailed(_) => AwaitsActor(state)
  }

  lemma UnexpectedEventIgnored(m: Machine, e: Event)
    requires !Expects(m.state, e)
    ensures Step(m, e) == m
  {
  }

  /** In any number, events that the state does not handle have no effect. */
  lemma UnexpectedEventsIgnored(m: Machine, es: seq<Event>)
    requires forall e :: e in es ==> !Expects(m.state, e)
    ensures Run(Step, m, es) == m
  {
    forall e | e in es ensures Step(m, e) == m {
      UnexpectedEventIgnored(m, e);
    }
    RunStays(Step, m, es);
  }

  // ---------------------------------------------------------------- submissions

  predicate SubmitsLessons(m: Machine, e: Event) {
    m.state != QueueSubmitting && Step(m, e).state == QueueSubmitting
  }

  predicate Approved(m: Machine, e: Event) {
    m.state == Approving && e.OutlineReturned?
  }

  predicate SubmitsOutline(m: Machine, e: Event) {
    m.state != OutlineSubmitting && Step(m, e).state == OutlineSubmitting
  }

  predicate Started(m: Machine, e: Event) {
    m.state == Configure && e.StartGeneration? && CanStart(m.ctx)
  }

  predicate Regenerated(m: Machine, e: Event) {
    m.state == Viewing && e.RegenerateOutline?
  }

  predicate Rejected(m: Machine, e: Event) {
    m.state == Rejecting && e.OutlineReturned?
  }

  lemma StepSubmits(m: Machine, e: Event)
    ensures SubmitsLessons(m, e) <==> Approved(m, e)
    ensures SubmitsOutline(m, e) <==> Started(m, e) || Regenerated(m, e) || Rejected(m, e)
  {
  }

  /** Every approval submits the lessons once; every start, regeneration and rejection submits an outline once. */
  lemma {:induction false} SubmissionsCount(m: Machine, es: seq<Event>)
    ensures Count(Step, SubmitsLessons, m, es) == Count(Step, Approved, m, es)
    ensures Count(Step, SubmitsOutline, m, es)
         == Count(Step, Started, m, es) + Count(Step, Regenerated, m, es) + Count(Step, Rejected, m, es)
    decreases |es|
  {
    if es != [] {
      var next := Step(m, es[0]);
      StepSubmits(m, es[0]);
      SubmissionsCount(next, es[1..]);
    }
  }

  /** The outline of the last approval along a word, or `latest` if the word has none. */
  function SeenApproval(m: Machine, e: Event, latest: Option<CourseOutline>): Option<CourseOutline> {
    if Approved(m, e) then Some(e.outline) else latest
  }

  function LastApproval(m: Machine, es: seq<Event>, latest: Option<CourseOutline>): Option<CourseOutline>
    decreases |es|
  {
    if es == [] then latest else LastApproval(Step(m, es[0]), es[1..], SeenApproval(m, es[0], latest))
  }

  /** From the queue on, the outline in use is the approved one. */
  predicate UsesApproval(m: Machine, latest: Option<CourseOutline>) {
    StepIndex(StepOf(m.state)) >= 3 ==> latest.Some? && m.ctx.outline == latest
  }

  lemma {:induction false} RunUsesApproval(m: Machine, es: seq<Event>, latest: Option<CourseOutline>)
    requires UsesApproval(m, latest)
    ensures UsesApproval(Run(Step, m, es), LastApproval(m, es, latest))
    decreases |es|
  {
    if es != [] {
      var seen := SeenApproval(m, es[0], latest);
      assert UsesApproval(Step(m, es[0]), seen);
      RunUsesApproval(Step(m, es[0]), es[1..], seen);
    }
  }

  /** On every run, once lesson generation is under way the total is the lesson count of the outline last approved. */
  lemma TotalCountsApprovedOutline(es: seq<Event>)
    ensures var m := Run(Step, INITIAL, es);
            LessonsUnderway(m.state) ==>
              && LastApproval(INITIAL, es, None).Some?
              && m.ctx.totalLessons == Sum(LessonsIn, LastApproval(INITIAL, es, None).value.sections)
  {
    EveryRunKeepsInv(es);
    RunUsesApproval(INITIAL, es, None);
  }

  // ---------------------------------------------------------------- progress

  /** What the bar shows of a job: its report, scaled and capped. */
  predicate ShowsReport(progress: int, base: int, scale: int, cap: int, job: Option<GenerationJob>) {
    job.Some? && progress == (if base + scale * job.value.progressPercent < cap
                              then base + scale * job.value.progressPercent else cap)
  }

  /** Where the bar stands in each state: fixed marks, and the last report of the job that is polled. */
  predicate BarStands(m: Machine) {
    var p := m.ctx.progress;
    match m.state
    case Configure | Viewing | Approving | Rejecting | Updating | QueueSubmitting => p == 0
    case OutlineSubmitting => p == 1000
    case OutlinePolling => p == 2000 || ShowsReport(p, 2000, 55, 7500, m.ctx.outlineJob)
    case OutlineWaiting => ShowsReport(p, 2000, 55, 7500, m.ctx.outlineJob)
    case OutlineFetching => p == 8000
    case Confirmation => p == 500
    case LessonPolling => p == 1000 || ShowsReport(p, 1000, 75, 8500, m.ctx.lessonJob)
    case LessonWaiting => ShowsReport(p, 1000, 75, 8500, m.ctx.lessonJob)
    case Background => p == 500 || ShowsReport(p, 1000, 75, 8500, m.ctx.lessonJob)
    case LessonFetching => p == 9000
    case Complete => p == 10000
  }

  lemma OutlineKeepsBar(m: Machine, e: Event)
    requires BarStands(m) && StepOf(m.state) == OutlineStep
    ensures BarStands(StepOutline(m, e))
  {
  }

  lemma LessonsKeepBar(m: Machine, e: Event)
    requires BarStands(m) && StepOf(m.state) == LessonsStep
    ensures BarStands(StepLessons(m, e))
  {
  }

  lemma StepKeepsBar(m: Machine, e: Event)
    requires BarStands(m)
    ensures BarStands(Step(m, e))
  {
    match StepOf(m.state)
    case OutlineStep => OutlineKeepsBar(m, e);
    case LessonsStep => LessonsKeepBar(m, e);
    case _ =>
  }

  /** On every run the bar stands at the mark of the state, or at the last report of the job being polled. */
  lemma BarShowsReports(es: seq<Event>)
    ensures BarStands(Run(Step, INITIAL, es))
  {
    forall m, e | BarStands(m) ensures BarStands(Step(m, e)) {
      StepKeepsBar(m, e);
    }
    RunKeeps(Step, BarStands, INITIAL, es);
  }

  datatype Phase = OutlinePhase | LessonPhase | NoPhase

  function PhaseOf(state: State): Phase {
    match state
    case OutlineSubmitting | OutlinePolling | OutlineWaiting | OutlineFetching => OutlinePhase
    case QueueSubmitting | Confirmation | Background | LessonPolling | LessonWaiting | LessonFetching | Complete =>
      LessonPhase
    case _ => NoPhase
  }

  predicate InPhase(phase: Phase, m: Machine) {
    PhaseOf(m.state) == phase
  }

  /** A poll whose job is neither completed nor failed. */
  predicate Reports(m: Machine, e: Event) {
    && (m.state == OutlinePolling || m.state == LessonPolling)
    && e.JobReported? && e.job.status != COMPLETED && e.job.status != FAILED
  }

  /** The progress figures reported along the word never fall, nor below `last` at its start. */
  ghost predicate ReportsRise(m: Machine, es: seq<Event>, last: int)
    decreases |es|
  {
    es == []
    || (if Reports(m, es[0]) then
          es[0].job.progressPercent >= last && ReportsRise(Step(m, es[0]), es[1..], es[0].job.progressPercent)
        else ReportsRise(Step(m, es[0]), es[1..], last))
  }

  predicate DoesNotFall(m: Machine, e: Event) {
    m.ctx.progress <= Step(m, e).ctx.progress
  }

  predicate WithinBar(m: Machine) {
    0 <= m.ctx.progress <= 10000
  }

  /** Where the bar can stand when the highest figure reported so far is `last`. */
  predicate BarAt(m: Machine, last: int) {
    var p := m.ctx.progress;
    match m.state
    case OutlineSubmitting => p == 1000
    case OutlinePolling | OutlineWaiting => 2000 <= p <= Min(7500, 2000 + 55 * last)
    case OutlineFetching => p == 8000
    case QueueSubmitting => p == 0
    case Confirmation => p == 500
    case LessonPolling | LessonWaiting => 1000 <= p <= Min(8500, 1000 + 75 * last)
    case Background => 500 <= p <= 8500
    case LessonFetching => p == 9000
    case Complete => p == 10000
    case _ => false
  }

  lemma {:induction false} BarRises(phase: Phase, m: Machine, es: seq<Event>, last: nat)
    requires BarAt(m, last) && ReportsRise(m, es, last)
    requires Always(Step, m => InPhase(phase, m), m, es)
    ensures Along(Step, DoesNotFall, m, es) && Always(Step, WithinBar, m, es)
    decreases |es|
  {
    if es != [] {
      BarRises(phase, Step(m, es[0]), es[1..], if Reports(m, es[0]) then es[0].job.progressPercent else last);
    }
  }

  /** From its entry on, as long as a run stays in one generation phase and reports rise, the bar never falls. */
  lemma ProgressRises(phase: Phase, ctx: Context, es: seq<Event>)
    requires phase != NoPhase
    ensures var m := if phase.OutlinePhase? then Entered(OutlineSubmitting, ctx) else Entered(QueueSubmitting, ctx);
            Always(Step, m => InPhase(phase, m), m, es) && ReportsRise(m, es, 0) ==>
              Along(Step, DoesNotFall, m, es) && Always(Step, WithinBar, m, es)
  {
    var m := if phase.OutlinePhase? then Entered(OutlineSubmitting, ctx) else Entered(QueueSubmitting, ctx);
    if Always(Step, m => InPhase(phase, m), m, es) && ReportsRise(m, es, 0) {
      BarRises(phase, m, es, 0);
    }
  }
}
