/**
 * The component editor: editing with an undo stack, saving, and regenerating through a polled job.
 * An actor's outcome is an event; one that arrives outside the state that invoked the actor has no effect.
 */
module ComponentEditing {
  import opened Options
  import opened JsText
  import opened Generation
  import opened AuthErrors
  import opened Statecharts

  /** Idle, and the substates of `editing`; Submitting to FetchingLesson are nested in `regenerating`. */
  datatype State = Idle | Active | Saving | Submitting | Polling | Waiting | FetchingLesson

  datatype Context = Context(
    courseId: Option<string>, lesson: Option<GeneratedLesson>, activeComponent: Option<LessonComponent>,
    originalContent: Option<string>, editedContent: Option<string>, modificationPrompt: string,
    regenerationJob: Option<GenerationJob>, history: seq<string>, error: Option<AuthError>)

  datatype Machine = Machine(state: State, ctx: Context)

  datatype Event =
    | SelectComponent(component: LessonComponent, lesson: GeneratedLesson, courseId: string)
    | DeselectComponent
    | UpdateContent(content: string)
    | SetModificationPrompt(prompt: string)
    | Undo
    | ResetToOriginal
    | Save
    | Regenerate
    | PollRegeneration
    | CancelRegeneration
    | Retry
    | DismissError
      // outcomes of the invoked actors, and the polling delay
    | ComponentSaved(saved: LessonComponent)
    | JobSubmitted(job: GenerationJob)
    | JobReported(job: GenerationJob)
    | LessonFetched(fetched: GeneratedLesson)
    | ActorFailed(thrown: Option<string>)
    | DelayElapsed

  const INITIAL := Machine(Idle, Context(None, None, None, None, None, "", None, [], None))

  // ---------------------------------------------------------------- step function

  predicate HasUnsavedChanges(ctx: Context) {
    ctx.editedContent.Some? && ctx.editedContent != ctx.originalContent
  }

  predicate CanUndo(ctx: Context) {
    ctx.history != []
  }

  function Pushed(ctx: Context): seq<string> {
    if ctx.editedContent.Some? && ctx.editedContent.value != "" then ctx.history + [ctx.editedContent.value]
    else ctx.history
  }

  /** `top || originalContent` */
  function Popped(ctx: Context): Option<string>
    requires ctx.history != []
  {
    var top := ctx.history[|ctx.history| - 1];
    if top != "" then Some(top) else ctx.originalContent
  }

  function FindComponent(cs: seq<LessonComponent>, id: string): Option<LessonComponent> {
    if cs == [] then None else if cs[0].id == id then Some(cs[0]) else FindComponent(cs[1..], id)
  }

  /** `updated?.contentJson || fallback` */
  function ContentOr(updated: Option<LessonComponent>, fallback: Option<string>): Option<string> {
    if updated.Some? && updated.value.contentJson != "" then Some(updated.value.contentJson) else fallback
  }

  function Refetched(ctx: Context, fetched: GeneratedLesson): Context {
    var updated :=
      if ctx.activeComponent.Some? then FindComponent(fetched.components, ctx.activeComponent.value.id) else None;
    ctx.(lesson := Some(fetched),
         activeComponent := if updated.Some? then updated else ctx.activeComponent,
         originalContent := ContentOr(updated, ctx.originalContent),
         editedContent := ContentOr(updated, ctx.editedContent),
         modificationPrompt := "", regenerationJob := None, history := [], error := None)
  }

  function StepActive(ctx: Context, e: Event): Machine {
    match e
    case UpdateContent(content) =>
      Machine(Active, ctx.(history := Pushed(ctx), editedContent := Some(content), error := None))
    case SetModificationPrompt(prompt) => Machine(Active, ctx.(modificationPrompt := prompt))
    case Undo =>
      if CanUndo(ctx)
      then Machine(Active, ctx.(editedContent := Popped(ctx), history := ctx.history[..|ctx.history| - 1]))
      else Machine(Active, ctx)
    case ResetToOriginal => Machine(Active, ctx.(editedContent := ctx.originalContent, history := []))
    case Save => Machine(if HasUnsavedChanges(ctx) then Saving else Active, ctx)
    case Regenerate => Machine(if HasText(ctx.modificationPrompt) then Submitting else Active, ctx)
    case DeselectComponent => Machine(Idle, ctx)
    case _ => Machine(Active, ctx)
  }

  function StepPolling(ctx: Context, e: Event): Machine {
    match e
    case JobReported(job) =>
      var next := ctx.(regenerationJob := Some(job));
      if job.status == COMPLETED then Machine(FetchingLesson, next)
      else if job.status == FAILED
      then Machine(Active, next.(error := JobFailure(job.errorMessage, RegenerationFailed)))
      else Machine(Waiting, next)
    case ActorFailed(thrown) => Machine(Active, ctx.(error := NetworkFailure(thrown, PollFailed)))
    case _ => Machine(Polling, ctx)
  }

  function Step(m: Machine, e: Event): Machine {
    var ctx := m.ctx;
    if e.DismissError? && m.state != Idle then m.(ctx := ctx.(error := None))
    else match m.state
    case Idle =>
      if e.SelectComponent? then
        Machine(Active, ctx.(courseId := Some(e.courseId), lesson := Some(e.lesson),
                             activeComponent := Some(e.component),
                             originalContent := Some(e.component.contentJson),
                             editedContent := Some(e.component.contentJson),
                             modificationPrompt := "", history := [], error := None))
      else m
    case Active => StepActive(ctx, e)
    case Saving =>
      if e.ComponentSaved? then
        Machine(Active, ctx.(activeComponent := Some(e.saved), originalContent := Some(e.saved.contentJson),
                             history := [], error := None))
      else if e.ActorFailed? then
        Machine(Active, ctx.(error := NetworkFailure(e.thrown, SaveFailed)))
      else m
    case Submitting =>
      if e.JobSubmitted? then Machine(Polling, ctx.(regenerationJob := Some(e.job)))
      else if e.ActorFailed? then
        Machine(Active, ctx.(error := NetworkFailure(e.thrown, RegenerationStartFailed)))
      else m
    case Polling => StepPolling(ctx, e)
    case Waiting =>
      if e.DelayElapsed? then m.(state := Polling)
      else if e.CancelRegeneration? then m.(state := Active)
      else m
    case FetchingLesson =>
      if e.LessonFetched? then Machine(Active, Refetched(ctx, e.fetched))
      else if e.ActorFailed? then
        Machine(Active, ctx.(error := NetworkFailure(e.thrown, LessonRefetchFailed)))
      else m
  }

  // ---------------------------------------------------------------- the running machine

  /** The interpreter's object: events move the state and `assign` actions overwrite the context. */
  class Editor {
    var state: State
    var ctx: Context
    ghost var log: seq<Event>  // everything sent so far, oldest first

    function Snapshot(): Machine
      reads this
    {
      Machine(state, ctx)
    }

    /** The object is where the run of its log leads, so what holds of every run holds of it. */
    ghost predicate Valid()
      reads this
    {
      Snapshot() == Run(Step, INITIAL, log) && Inv(Snapshot())
    }

    constructor ()
      ensures Valid() && log == [] && Snapshot() == INITIAL
    {
      state, ctx := Idle, INITIAL.ctx;
      log := [];
    }

    method Send(e: Event)
      requires Valid()
      modifies this
      ensures Valid() && log == old(log) + [e]
      ensures Snapshot() == Step(old(Snapshot()), e)
    {
      Dispatch(e);
      RunSnoc(Step, INITIAL, log, e);
      log := log + [e];
      EveryRunKeepsInv(log);
    }

    method Dispatch(e: Event)
      modifies `state, `ctx
      ensures Snapshot() == Step(old(Snapshot()), e)
    {
      if e.DismissError? && state != Idle {
        ctx := ctx.(error := None);
        return;
      }
      match state {
        case Idle => SendIdle(e);
        case Active => SendActive(e);
        case Saving =>
          if e.ComponentSaved? {
            ctx := ctx.(activeComponent := Some(e.saved), originalContent := Some(e.saved.contentJson));
            ctx := ctx.(history := [], error := None);
            state := Active;
          } else if e.ActorFailed? {
            Fail(NetworkFailure(e.thrown, SaveFailed));
          }
        case Submitting =>
          if e.JobSubmitted? {
            ctx := ctx.(regenerationJob := Some(e.job));
            state := Polling;
          } else if e.ActorFailed? {
            Fail(NetworkFailure(e.thrown, RegenerationStartFailed));
          }
        case Polling => SendPolling(e);
        case Waiting =>
          if e.DelayElapsed? {
            state := Polling;
          } else if e.CancelRegeneration? {
            state := Active;
          }
        case FetchingLesson => SendFetching(e);
      }
    }

    method SendIdle(e: Event)
      requires state == Idle
      modifies `state, `ctx
      ensures Snapshot() == Step(old(Snapshot()), e)
    {
      if e.SelectComponent? {
        ctx := ctx.(courseId := Some(e.courseId), lesson := Some(e.lesson), activeComponent := Some(e.component));
        ctx := ctx.(originalContent := Some(e.component.contentJson), editedContent := Some(e.component.contentJson));
        ctx := ctx.(modificationPrompt := "", history := [], error := None);
        state := Active;
      }
    }

    method SendActive(e: Event)
      requires state == Active
      modifies `state, `ctx
      ensures Snapshot() == StepActive(old(Snapshot()).ctx, e)
    {
      match e {
        case UpdateContent(content) =>
          if ctx.editedContent.Some? && ctx.editedContent.value != "" {
            ctx := ctx.(history := ctx.history + [ctx.editedContent.value]);
          }
          ctx := ctx.(editedContent := Some(content), error := None);
        case SetModificationPrompt(prompt) =>
          ctx := ctx.(modificationPrompt := prompt);
        case Undo =>
          if CanUndo(ctx) {
            var top := ctx.history[|ctx.history| - 1];
            ctx := ctx.(editedContent := if top != "" then Some(top) else ctx.originalContent);
            ctx := ctx.(history := ctx.history[..|ctx.history| - 1]);
          }
        case ResetToOriginal =>
          ctx := ctx.(editedContent := ctx.originalContent, history := []);
        case Save =>
          if HasUnsavedChanges(ctx) {
            state := Saving;
          }
        case Regenerate =>
          if HasText(ctx.modificationPrompt) {
            state := Submitting;
          }
        case DeselectComponent =>
          state := Idle;
        case _ =>
      }
    }

    method SendPolling(e: Event)
      requires state == Polling
      modifies `state, `ctx
      ensures Snapshot() == StepPolling(old(Snapshot()).ctx, e)
    {
      if e.JobReported? {
        ctx := ctx.(regenerationJob := Some(e.job));
        if e.job.status == COMPLETED {
          state := FetchingLesson;
        } else if e.job.status == FAILED {
          Fail(JobFailure(e.job.errorMessage, RegenerationFailed));
        } else {
          state := Waiting;
        }
      } else if e.ActorFailed? {
        Fail(NetworkFailure(e.thrown, PollFailed));
      }
    }

    method SendFetching(e: Event)
      requires state == FetchingLesson && !e.DismissError?
      modifies `state, `ctx
      ensures Snapshot() == Step(old(Snapshot()), e)
    {
      if e.LessonFetched? {
        var updated: Option<LessonComponent> := None;
        if ctx.activeComponent.Some? {
          updated := FindComponent(e.fetched.components, ctx.activeComponent.value.id);
        }
        ctx := ctx.(lesson := Some(e.fetched));
        if updated.Some? {
          ctx := ctx.(activeComponent := updated);
        }
        ctx := ctx.(originalContent := ContentOr(updated, ctx.originalContent));
        ctx := ctx.(editedContent := ContentOr(updated, ctx.editedContent));
        ctx := ctx.(modificationPrompt := "", regenerationJob := None, history := [], error := None);
        state := Active;
      } else if e.ActorFailed? {
        Fail(NetworkFailure(e.thrown, LessonRefetchFailed));
      }
    }

    method Fail(failure: Option<AuthError>)
      modifies `state, `ctx
      ensures state == Active && ctx == old(ctx).(error := failure)
    {
      ctx := ctx.(error := failure);
      state := Active;
    }
  }

  // ---------------------------------------------------------------- what every run keeps

  /** Inside `editing` nothing the actors dereference is missing, and undo never finds an empty entry. */
  ghost predicate Inv(m: Machine) {
    var ctx := m.ctx;
    && (m.state != Idle ==>
          && ctx.courseId.Some? && ctx.lesson.Some? && ctx.activeComponent.Some?
          && ctx.originalContent.Some? && ctx.editedContent.Some?
          && (ctx.activeComponent.value.contentJson in {ctx.originalContent.value, ""}))
    && (m.state in {Polling, Waiting, FetchingLesson} ==> ctx.regenerationJob.Some?)
    && (m.state == Waiting ==> Unfinished(ctx.regenerationJob.value))
    && (m.state == FetchingLesson ==> ctx.regenerationJob.value.status == COMPLETED)
    && "" !in ctx.history
  }

  lemma StepKeepsInv(m: Machine, e: Event)
    requires Inv(m)
    ensures Inv(Step(m, e))
  {
    var ctx := m.ctx;
    if m.state == Active && e.Undo? && CanUndo(ctx) {
      assert forall h :: h in ctx.history[..|ctx.history| - 1] ==> h in ctx.history;
    }
  }

  lemma EveryRunKeepsInv(es: seq<Event>)
    ensures Inv(Run(Step, INITIAL, es))
  {
    forall m, e | Inv(m) ensures Inv(Step(m, e)) {
      StepKeepsInv(m, e);
    }
    RunKeeps(Step, Inv, INITIAL, es);
  }

  /** After any run, an undo restores the top of the history; its fallback to the original content is never taken. */
  lemma UndoRestoresTop(es: seq<Event>)
    requires Run(Step, INITIAL, es).state == Active && CanUndo(Run(Step, INITIAL, es).ctx)
    ensures var ctx := Run(Step, INITIAL, es).ctx;
            Step(Run(Step, INITIAL, es), Undo).ctx.editedContent == Some(ctx.history[|ctx.history| - 1])
  {
    EveryRunKeepsInv(es);
  }

  /** A refetched lesson does not bring the active component back empty. */
  predicate RefetchHasContent(m: Machine, e: Event) {
    m.state == FetchingLesson && e.LessonFetched? && m.ctx.activeComponent.Some? ==>
      var updated := FindComponent(e.fetched.components, m.ctx.activeComponent.value.id);
      updated.Some? ==> updated.value.contentJson != ""
  }

  ghost predicate OriginalIsActive(m: Machine) {
    m.state != Idle ==>
      m.ctx.activeComponent.Some? && m.ctx.originalContent == Some(m.ctx.activeComponent.value.contentJson)
  }

  lemma OriginalTracksComponent(es: seq<Event>)
    requires Along(Step, RefetchHasContent, INITIAL, es)
    ensures OriginalIsActive(Run(Step, INITIAL, es))
  {
    AcceptableRunKeeps(Step, RefetchHasContent, OriginalIsActive, INITIAL, es);
  }

  predicate RefetchKeepsTie(m: Machine, e: Event) {
    RefetchHasContent(m, e) || m.ctx.originalContent == Some("")
  }

  /** The tie holds throughout a run exactly when no refetch empties the component under a non-empty original. */
  lemma OriginalTracksExactlyWhen(es: seq<Event>)
    ensures Always(Step, OriginalIsActive, INITIAL, es) <==> Along(Step, RefetchKeepsTie, INITIAL, es)
  {
    SafeExactlyWhenAcceptable(Step, m => true, OriginalIsActive, RefetchKeepsTie, INITIAL, es);
  }

  // ---------------------------------------------------------------- undo

  /** A word of updates and undos with d updates open at its start and none at its end. */
  predicate Balanced(es: seq<Event>, d: nat) {
    if es == [] then d == 0
    else match es[0]
      case UpdateContent(_) => Balanced(es[1..], d + 1)
      case Undo => d > 0 && Balanced(es[1..], d - 1)
      case _ => false
  }

  predicate OverwritesText(m: Machine, e: Event) {
    e.UpdateContent? ==> m.ctx.editedContent.Some? && m.ctx.editedContent.value != ""
  }

  /** The history with the current text on top. */
  function Stack(ctx: Context): seq<string> {
    ctx.history + [ctx.editedContent.GetOr("")]
  }

  /** With base at the bottom of the stack and d texts above it, a balanced word ends with exactly base. */
  lemma {:induction false} BalancedFrom(m: Machine, es: seq<Event>, base: seq<string>, d: nat)
    requires m.state == Active && m.ctx.editedContent.Some? && base != []
    requires |Stack(m.ctx)| == |base| + d && Stack(m.ctx)[..|base|] == base
    requires forall i :: |base| - 1 <= i < |base| - 1 + d ==> Stack(m.ctx)[i] != ""
    requires Balanced(es, d) && Along(Step, OverwritesText, m, es)
    ensures var end := Run(Step, m, es);
            && end.state == Active && Stack(end.ctx) == base && end.ctx.editedContent.Some?
            && end.ctx == m.ctx.(history := end.ctx.history, editedContent := end.ctx.editedContent,
                                 error := end.ctx.error)
    decreases |es|
  {
    if es != [] {
      var next := Step(m, es[0]);
      if es[0].UpdateContent? {
        assert Stack(next.ctx) == Stack(m.ctx) + [es[0].content];
        BalancedFrom(next, es[1..], base, d + 1);
      } else {
        var top := |Stack(m.ctx)| - 2;
        assert m.ctx.history[top] == Stack(m.ctx)[top];
        assert Stack(next.ctx) == Stack(m.ctx)[..top + 1];
        BalancedFrom(next, es[1..], base, d - 1);
      }
    }
  }

  /** A word that overwrites text only: undoing every update restores the text and the history. */
  lemma TextualUndoRestores(m: Machine, es: seq<Event>)
    requires m.state == Active && m.ctx.editedContent.Some?
    requires Balanced(es, 0) && Along(Step, OverwritesText, m, es)
    ensures Restores(m, es)
  {
    BalancedFrom(m, es, Stack(m.ctx), 0);
    var end := Run(Step, m, es);
    assert end.ctx.history == Stack(end.ctx)[..|Stack(end.ctx)| - 1] == m.ctx.history;
    assert Stack(end.ctx)[|m.ctx.history|] == Stack(m.ctx)[|m.ctx.history|];
  }

  /** The word ends with the text and the history it started from. */
  predicate Restores(m: Machine, es: seq<Event>) {
    var end := Run(Step, m, es);
    end.ctx.editedContent == m.ctx.editedContent && end.ctx.history == m.ctx.history
  }

  /** Whatever a balanced word overwrites, it ends with at most the entries that lay below its open updates. */
  lemma {:induction false} HistoryBound(m: Machine, es: seq<Event>, base: nat, d: nat)
    requires m.state == Active && |m.ctx.history| <= base + d && Balanced(es, d)
    ensures var end := Run(Step, m, es);
            && end.state == Active && |end.ctx.history| <= base
            && end.ctx == m.ctx.(history := end.ctx.history, editedContent := end.ctx.editedContent,
                                 error := end.ctx.error)
    decreases |es|
  {
    if es != [] {
      HistoryBound(Step(m, es[0]), es[1..], base, if es[0].UpdateContent? then d + 1 else d - 1);
    }
  }

  /** A non-empty text at the bottom of the stack stays there. */
  lemma {:induction false} BottomStays(m: Machine, es: seq<Event>, d: nat)
    requires m.state == Active && m.ctx.editedContent.Some? && "" !in m.ctx.history && Balanced(es, d)
    requires Stack(m.ctx)[0] != ""
    ensures var end := Run(Step, m, es);
            end.ctx.editedContent.Some? && Stack(end.ctx)[0] == Stack(m.ctx)[0]
    decreases |es|
  {
    if es != [] {
      var next, h := Step(m, es[0]), m.ctx.history;
      if es[0].Undo? && h != [] {
        assert h[|h| - 1] in h;
        assert forall t :: t in h[..|h| - 1] ==> t in h;
      }
      BottomStays(next, es[1..], if es[0].UpdateContent? then d + 1 else d - 1);
    }
  }

  /** From an empty text and an empty history only empty updates lead back. */
  lemma {:induction false} EmptyStart(m: Machine, es: seq<Event>, d: nat)
    requires m.state == Active && m.ctx.editedContent == Some("") && m.ctx.history == [] && Balanced(es, d)
    ensures Restores(m, es) <==> forall e :: e in es && e.UpdateContent? ==> e.content == ""
    decreases |es|
  {
    if es != [] {
      var next := Step(m, es[0]);
      assert es == [es[0]] + es[1..];
      if es[0].UpdateContent? && es[0].content != "" {
        assert es[0] in es;
        BottomStays(next, es[1..], d + 1);
      } else {
        EmptyStart(next, es[1..], if es[0].UpdateContent? then d + 1 else d - 1);
      }
    }
  }

  /** One empty text overwritten above a non-empty history costs an entry for good. */
  lemma {:induction false} EmptyOverwriteCosts(m: Machine, es: seq<Event>, base: nat, d: nat)
    requires m.state == Active && 1 <= base && |m.ctx.history| == base + d && Balanced(es, d)
    requires !Along(Step, OverwritesText, m, es)
    ensures |Run(Step, m, es).ctx.history| < base
    decreases |es|
  {
    var next := Step(m, es[0]);
    if es[0].Undo? {
      EmptyOverwriteCosts(next, es[1..], base, d - 1);
    } else if OverwritesText(m, es[0]) {
      EmptyOverwriteCosts(next, es[1..], base, d + 1);
    } else {
      HistoryBound(next, es[1..], base - 1, d + 1);
    }
  }

  /** When exactly a balanced word leads back: what matters is which empty texts it overwrites, and on what. */
  ghost predicate UndoesFully(m: Machine, es: seq<Event>) {
    if m.ctx.history == [] then
      m.ctx.editedContent != Some("") || forall e :: e in es && e.UpdateContent? ==> e.content == ""
    else
      Along(Step, OverwritesText, m, es)
  }

  /**
   * Undoing every update made, in any interleaving, restores the text and the history exactly when the word
   * overwrites no empty text, or starts from an empty history under a non-empty text, or only writes empty
   * texts over an empty one; and in no case does it touch anything else but the error.
   */
  lemma BalancedUndoRestores(m: Machine, es: seq<Event>)
    requires m.state == Active && Inv(m) && Balanced(es, 0)
    ensures Restores(m, es) <==> UndoesFully(m, es)
    ensures var end := Run(Step, m, es);
            && end.state == Active
            && end.ctx == m.ctx.(history := end.ctx.history, editedContent := end.ctx.editedContent,
                                 error := end.ctx.error)
  {
    HistoryBound(m, es, |m.ctx.history|, 0);
    if m.ctx.history == [] {
      if m.ctx.editedContent == Some("") {
        EmptyStart(m, es, 0);
      } else {
        BottomStays(m, es, 0);
      }
    } else if Along(Step, OverwritesText, m, es) {
      TextualUndoRestores(m, es);
    } else {
      EmptyOverwriteCosts(m, es, |m.ctx.history|, 0);
    }
  }

  /** A component selected empty, written to and undone keeps the text: the empty one was never recorded. */
  lemma EmptyTextIsNotRestored(component: LessonComponent, lesson: GeneratedLesson, courseId: string, content: string)
    requires component.contentJson == "" && content != ""
    ensures var m := Step(INITIAL, SelectComponent(component, lesson, courseId));
            && m.state == Active && m.ctx.editedContent == Some("")
            && Balanced([UpdateContent(content), Undo], 0)
            && !Restores(m, [UpdateContent(content), Undo])
  {
    var m := Step(INITIAL, SelectComponent(component, lesson, courseId));
    var word := [UpdateContent(content), Undo];
    assert word[1..] == [Undo] && [Undo][1..] == [];
    assert word[0] in word;
    BalancedUndoRestores(m, word);
  }

  // ---------------------------------------------------------------- saving

  predicate IsProcessing(m: Machine) {
    m.state != Idle && m.state != Active
  }

  predicate IsOutcome(e: Event) {
    e.ComponentSaved? || e.JobSubmitted? || e.JobReported? || e.LessonFetched? || e.ActorFailed? || e.DelayElapsed?
  }

  predicate IsSaveOutcome(e: Event) {
    e.ComponentSaved? || e.ActorFailed?
  }

  /** While the machine is processing, nothing the user does changes the text, its history or the original. */
  lemma ProcessingLocksContent(m: Machine, e: Event)
    requires IsProcessing(m) && !IsOutcome(e)
    ensures Step(m, e).ctx == m.ctx.(error := Step(m, e).ctx.error)
    ensures Step(m, e).state == m.state || (m.state == Waiting && e.CancelRegeneration? && Step(m, e).state == Active)
  {
  }

  /** The text shown when the actor of a state fails without a message of its own. */
  function FailureText(state: State): Fallback {
    match state
    case Saving => SaveFailed
    case Submitting => RegenerationStartFailed
    case Polling => PollFailed
    case _ => LessonRefetchFailed
  }

  /** The retryable error that shows the message at hand, or else the given text. */
  function Failed(message: Option<string>, text: Fallback): AuthError {
    AuthError(NetworkError, if message.Some? then Given(message.value) else Stock(text), true)
  }

  /** A failing actor gives the text back for editing, with nothing changed but the error. */
  lemma FailureKeepsWork(m: Machine, thrown: Option<string>)
    requires IsProcessing(m) && m.state != Waiting
    ensures var end := Step(m, ActorFailed(thrown));
            end == Machine(Active, m.ctx.(error := Some(Failed(thrown, FailureText(m.state)))))
  {
  }

  lemma {:induction false} SavingWaits(m: Machine, es: seq<Event>)
    requires m.state == Saving && forall e :: e in es ==> !IsSaveOutcome(e)
    ensures var end := Run(Step, m, es); end == m.(ctx := m.ctx.(error := end.ctx.error))
    decreases |es|
  {
    if es != [] {
      assert es[0] in es && forall e :: e in es[1..] ==> e in es;
      SavingWaits(Step(m, es[0]), es[1..]);
    }
  }

  /** Whatever happens between SAVE and its response, the changes count as saved exactly if the response echoes them. */
  lemma SaveRoundTrip(m: Machine, es: seq<Event>, saved: LessonComponent)
    requires m.state == Active && HasUnsavedChanges(m.ctx)
    requires forall e :: e in es ==> !IsSaveOutcome(e)
    ensures var end := Run(Step, m, [Save] + es + [ComponentSaved(saved)]);
            && end.state == Active && end.ctx.history == []
            && end.ctx.editedContent == m.ctx.editedContent
            && (HasUnsavedChanges(end.ctx) <==> m.ctx.editedContent != Some(saved.contentJson))
  {
    var mid := Step(m, Save);
    assert [Save] + es + [ComponentSaved(saved)] == [Save] + (es + [ComponentSaved(saved)]);
    assert ([Save] + (es + [ComponentSaved(saved)]))[1..] == es + [ComponentSaved(saved)];
    RunAppend(Step, mid, es, [ComponentSaved(saved)]);
    SavingWaits(mid, es);
    var last := Run(Step, mid, es);
    assert Run(Step, last, [ComponentSaved(saved)]) == Run(Step, Step(last, ComponentSaved(saved)), []);
  }

  /** What the user can do to the text and its prompt while it is open for editing. */
  predicate IsEdit(e: Event) {
    e.UpdateContent? || e.Undo? || e.SetModificationPrompt? || e.ResetToOriginal?
  }

  lemma {:induction false} EditsKeepOriginal(m: Machine, es: seq<Event>)
    requires m.state == Active && forall e :: e in es ==> IsEdit(e)
    ensures var end := Run(Step, m, es);
            end == m.(ctx := m.ctx.(editedContent := end.ctx.editedContent, history := end.ctx.history,
                                    modificationPrompt := end.ctx.modificationPrompt, error := end.ctx.error))
    decreases |es|
  {
    if es != [] {
      assert IsEdit(es[0]) && forall e :: e in es[1..] ==> e in es;
      EditsKeepOriginal(Step(m, es[0]), es[1..]);
    }
  }

  /**
   * However a text was edited, a reset leads back to where it was opened: any edits and a reset bring back
   * the original with nothing to save or undo, so a machine without changes is where it started.
   */
  lemma ResetRoundTrip(m: Machine, es: seq<Event>)
    requires m.state == Active && forall e :: e in es ==> IsEdit(e)
    ensures var end := Run(Step, m, es + [ResetToOriginal]);
            && end.state == Active && !HasUnsavedChanges(end.ctx) && !CanUndo(end.ctx)
            && end.ctx.editedContent == m.ctx.originalContent
            && (m.ctx.editedContent == m.ctx.originalContent && !CanUndo(m.ctx) ==>
                  end == m.(ctx := m.ctx.(modificationPrompt := end.ctx.modificationPrompt, error := end.ctx.error)))
  {
    EditsKeepOriginal(m, es);
    RunSnoc(Step, m, es, ResetToOriginal);
  }

  // ---------------------------------------------------------------- regenerating

  predicate Unfinished(job: GenerationJob) {
    job.status != COMPLETED && job.status != FAILED
  }

  /** Rounds of the polling loop: a report of an unfinished job, then the delay. */
  function PollRounds(reports: seq<GenerationJob>): seq<Event> {
    if reports == [] then [] else [JobReported(reports[0])] + ([DelayElapsed] + PollRounds(reports[1..]))
  }

  /** A job is waited for only while it is neither completed nor failed, and its lesson fetched only once completed. */
  lemma WaitingMeansUnfinished(es: seq<Event>)
    ensures var m := Run(Step, INITIAL, es);
            && (m.state == Waiting ==> m.ctx.regenerationJob.Some? && m.ctx.regenerationJob.value.status !in {3, 4})
            && (m.state == FetchingLesson ==> m.ctx.regenerationJob.Some? && m.ctx.regenerationJob.value.status == 3)
  {
    EveryRunKeepsInv(es);
  }

  lemma {:induction false} PollingLoops(m: Machine, reports: seq<GenerationJob>)
    requires m.state == Polling && forall job :: job in reports ==> Unfinished(job)
    ensures var end := Run(Step, m, PollRounds(reports));
            end == m.(ctx := m.ctx.(regenerationJob := end.ctx.regenerationJob))
    decreases |reports|
  {
    if reports != [] {
      var waiting := Step(m, JobReported(reports[0]));
      var again := Step(waiting, DelayElapsed);
      var rest := PollRounds(reports[1..]);
      assert reports[0] in reports && forall job :: job in reports[1..] ==> job in reports;
      assert PollRounds(reports)[1..] == [DelayElapsed] + rest && ([DelayElapsed] + rest)[1..] == rest;
      assert Run(Step, waiting, [DelayElapsed] + rest) == Run(Step, again, rest);
      PollingLoops(again, reports[1..]);
    }
  }

  lemma FinishRegeneration(m: Machine, done: GenerationJob, fetched: GeneratedLesson)
    requires m.state == Polling && done.status == COMPLETED
    ensures Run(Step, m, [JobReported(done), LessonFetched(fetched)]) == Machine(Active, Refetched(m.ctx, fetched))
  {
    var fetching := Step(m, JobReported(done));
    assert [JobReported(done), LessonFetched(fetched)][1..] == [LessonFetched(fetched)];
    assert Run(Step, fetching, [LessonFetched(fetched)]) == Run(Step, Step(fetching, LessonFetched(fetched)), []);
  }

  /** The component refetched is the first of the lesson with the id looked for. */
  lemma {:induction false} FindsFirst(cs: seq<LessonComponent>, id: string)
    ensures FindComponent(cs, id).None? <==> forall i :: 0 <= i < |cs| ==> cs[i].id != id
    ensures FindComponent(cs, id).Some? ==>
              exists i :: 0 <= i < |cs| && cs[i] == FindComponent(cs, id).value && cs[i].id == id
                          && forall j :: 0 <= j < i ==> cs[j].id != id
  {
    if cs != [] && cs[0].id != id {
      FindsFirst(cs[1..], id);
      assert forall i :: 0 < i < |cs| ==> cs[i] == cs[1..][i - 1];
      if FindComponent(cs, id).Some? {
        var i :| 0 <= i < |cs| - 1 && cs[1..][i] == FindComponent(cs, id).value && cs[1..][i].id == id
                 && forall j :: 0 <= j < i ==> cs[1..][j].id != id;
        assert cs[i + 1] == FindComponent(cs, id).value;
      }
    }
  }

  lemma RegenerationBegins(m: Machine, job: GenerationJob)
    requires m.state == Active && NonBlank(m.ctx.modificationPrompt)
    ensures Run(Step, m, [Regenerate, JobSubmitted(job)]) == Machine(Polling, m.ctx.(regenerationJob := Some(job)))
  {
    TrimLeavesText(m.ctx.modificationPrompt);
    var submitting := m.(state := Submitting);
    assert Step(m, Regenerate) == submitting;
    RunSnoc(Step, m, [Regenerate], JobSubmitted(job));
    RunSnoc(Step, m, [], Regenerate);
    assert [] + [Regenerate] == [Regenerate] && [Regenerate] + [JobSubmitted(job)] == [Regenerate, JobSubmitted(job)];
  }

  lemma PollingGoesOn(m: Machine, job: GenerationJob, reports: seq<GenerationJob>)
    requires m.state == Active && NonBlank(m.ctx.modificationPrompt)
    requires forall r :: r in reports ==> Unfinished(r)
    ensures var polling := Run(Step, m, [Regenerate, JobSubmitted(job)] + PollRounds(reports));
            polling == Machine(Polling, m.ctx.(regenerationJob := polling.ctx.regenerationJob))
  {
    var begin := [Regenerate, JobSubmitted(job)];
    RegenerationBegins(m, job);
    RunAppend(Step, m, begin, PollRounds(reports));
    PollingLoops(Run(Step, m, begin), reports);
  }

  /** Submitted and polled for any number of rounds, a regeneration is still polling, and nothing else has changed. */
  lemma StillPolling(m: Machine, job: GenerationJob, reports: seq<GenerationJob>, tail: seq<Event>)
    requires m.state == Active && NonBlank(m.ctx.modificationPrompt)
    requires forall r :: r in reports ==> Unfinished(r)
    ensures var polling := Run(Step, m, [Regenerate, JobSubmitted(job)] + PollRounds(reports));
            && polling == Machine(Polling, m.ctx.(regenerationJob := polling.ctx.regenerationJob))
            && Run(Step, m, [Regenerate, JobSubmitted(job)] + (PollRounds(reports) + tail)) == Run(Step, polling, tail)
  {
    var begin, rounds := [Regenerate, JobSubmitted(job)], PollRounds(reports);
    PollingGoesOn(m, job, reports);
    RunAppend(Step, m, begin + rounds, tail);
    assert begin + rounds + tail == begin + (rounds + tail);
  }

  /**
   * A whole regeneration, through any number of polling rounds: the refetched lesson replaces the old one, the
   * component's text is its new text wherever that is non-empty, and nothing is left to save, to undo or to poll.
   */
  lemma RegenerationRoundTrip(
      m: Machine, job: GenerationJob, reports: seq<GenerationJob>, done: GenerationJob, fetched: GeneratedLesson)
    requires Inv(m) && m.state == Active && NonBlank(m.ctx.modificationPrompt)
    requires (forall r :: r in reports ==> Unfinished(r)) && done.status == COMPLETED
    ensures var word := [Regenerate, JobSubmitted(job)]
                        + (PollRounds(reports) + [JobReported(done), LessonFetched(fetched)]);
            var end, found := Run(Step, m, word), FindComponent(fetched.components, m.ctx.activeComponent.value.id);
            && end.state == Active && end.ctx.lesson == Some(fetched) && end.ctx.courseId == m.ctx.courseId
            && end.ctx.regenerationJob == None && end.ctx.error == None && !CanUndo(end.ctx)
            && end.ctx.activeComponent == (if found.Some? then found else m.ctx.activeComponent)
            && (if found.Some? && found.value.contentJson != "" then
                  end.ctx.editedContent == end.ctx.originalContent == Some(found.value.contentJson)
                else
                  end.ctx.editedContent == m.ctx.editedContent && end.ctx.originalContent == m.ctx.originalContent)
  {
    var begin, tail := [Regenerate, JobSubmitted(job)], [JobReported(done), LessonFetched(fetched)];
    StillPolling(m, job, reports, tail);
    FinishRegeneration(Run(Step, m, begin + PollRounds(reports)), done, fetched);
  }

  /** A failed job gives everything back for editing, with a retryable error that carries the job's own message. */
  lemma FailedRegenerationKeepsWork(
      m: Machine, job: GenerationJob, reports: seq<GenerationJob>, failed: GenerationJob)
    requires m.state == Active && NonBlank(m.ctx.modificationPrompt)
    requires (forall r :: r in reports ==> Unfinished(r)) && failed.status == 4
    ensures var message := if failed.errorMessage == Some("") then None else failed.errorMessage;
            Run(Step, m, [Regenerate, JobSubmitted(job)] + (PollRounds(reports) + [JobReported(failed)]))
            == m.(ctx := m.ctx.(regenerationJob := Some(failed), error := Some(Failed(message, RegenerationFailed))))
  {
    StillPolling(m, job, reports, [JobReported(failed)]);
    var polling := Run(Step, m, [Regenerate, JobSubmitted(job)] + PollRounds(reports));
    RunSnoc(Step, polling, [], JobReported(failed));
    assert [] + [JobReported(failed)] == [JobReported(failed)];
  }

  /** So does a cancel between two polls, without any error. */
  lemma CancelledRegenerationKeepsWork(
      m: Machine, job: GenerationJob, reports: seq<GenerationJob>, last: GenerationJob)
    requires m.state == Active && NonBlank(m.ctx.modificationPrompt)
    requires (forall r :: r in reports ==> Unfinished(r)) && Unfinished(last)
    ensures Run(Step, m, [Regenerate, JobSubmitted(job)]
                         + (PollRounds(reports) + [JobReported(last), CancelRegeneration]))
         == m.(ctx := m.ctx.(regenerationJob := Some(last)))
  {
    StillPolling(m, job, reports, [JobReported(last), CancelRegeneration]);
    var polling := Run(Step, m, [Regenerate, JobSubmitted(job)] + PollRounds(reports));
    RunSnoc(Step, polling, [JobReported(last)], CancelRegeneration);
    RunSnoc(Step, polling, [], JobReported(last));
    assert [] + [JobReported(last)] == [JobReported(last)];
    assert [JobReported(last)] + [CancelRegeneration] == [JobReported(last), CancelRegeneration];
  }

  lemma AgainIsText()
    ensures NonBlank("again")
  {
    assert !IsWhiteSpace("again"[0]);
  }

  /** A refetch that brings the selected component back empty leaves the original text behind. */
  lemma EmptyRefetchBreaksTie(
      component: LessonComponent, lesson: GeneratedLesson, courseId: string, job: GenerationJob)
    requires component.contentJson != "" && job.status == COMPLETED
    ensures var emptied := lesson.(components := [component.(contentJson := "")]);
            var es := [SelectComponent(component, lesson, courseId), SetModificationPrompt("again")]
                      + ([Regenerate, JobSubmitted(job)]
                         + (PollRounds([]) + [JobReported(job), LessonFetched(emptied)]));
            !OriginalIsActive(Run(Step, INITIAL, es))
  {
    var emptied := lesson.(components := [component.(contentJson := "")]);
    var select, prompt := SelectComponent(component, lesson, courseId), SetModificationPrompt("again");
    var tail := [Regenerate, JobSubmitted(job)] + (PollRounds([]) + [JobReported(job), LessonFetched(emptied)]);
    var m := Run(Step, INITIAL, [select, prompt]);
    assert [select, prompt] == [select] + [prompt];
    RunSnoc(Step, INITIAL, [select], prompt);
    RunSnoc(Step, INITIAL, [], select);
    assert [] + [select] == [select];
    EveryRunKeepsInv([select, prompt]);
    AgainIsText();
    RunAppend(Step, INITIAL, [select, prompt], tail);
    RegenerationRoundTrip(m, job, [], job, emptied);
  }

  // ---------------------------------------------------------------- selecting

  /** Deselected, nothing happens until a component is selected, and that starts afresh with its text alone. */
  lemma SelectingStartsAfresh(
      m: Machine, es: seq<Event>, component: LessonComponent, lesson: GeneratedLesson, courseId: string)
    requires m.state == Active && forall e :: e in es ==> !e.SelectComponent?
    ensures var text := Some(component.contentJson);
            && Run(Step, m, [DeselectComponent] + es) == m.(state := Idle)
            && Run(Step, m, [DeselectComponent] + es + [SelectComponent(component, lesson, courseId)])
               == Machine(Active, Context(Some(courseId), Some(lesson), Some(component), text, text, "",
                                          m.ctx.regenerationJob, [], None))
  {
    assert ([DeselectComponent] + es)[1..] == es;
    RunStays(Step, m.(state := Idle), es);
    RunSnoc(Step, m, [DeselectComponent] + es, SelectComponent(component, lesson, courseId));
  }

  // ---------------------------------------------------------------- who writes what

  predicate Selects(m: Machine, e: Event) {
    m.state == Idle && e.SelectComponent?
  }

  predicate Refetches(m: Machine, e: Event) {
    m.state == FetchingLesson && e.LessonFetched?
  }

  function PromptWritten(m: Machine, e: Event): Option<string> {
    if m.state == Active && e.SetModificationPrompt? then Some(e.prompt)
    else if Selects(m, e) || Refetches(m, e) then Some("")
    else None
  }

  function JobWritten(m: Machine, e: Event): Option<Option<GenerationJob>> {
    if (m.state == Submitting && e.JobSubmitted?) || (m.state == Polling && e.JobReported?) then Some(Some(e.job))
    else if Refetches(m, e) then Some(None)
    else None
  }

  function LessonWritten(m: Machine, e: Event): Option<Option<GeneratedLesson>> {
    if Selects(m, e) then Some(Some(e.lesson))
    else if Refetches(m, e) then Some(Some(e.fetched))
    else None
  }

  function CourseWritten(m: Machine, e: Event): Option<Option<string>> {
    if Selects(m, e) then Some(Some(e.courseId)) else None
  }

  function ErrorWritten(m: Machine, e: Event): Option<Option<AuthError>> {
    if m.state in {Saving, Submitting, Polling, FetchingLesson} && e.ActorFailed? then
      Some(Some(Failed(e.thrown, FailureText(m.state))))
    else if m.state == Polling && e.JobReported? && e.job.status == 4 then
      Some(Some(Failed(if e.job.errorMessage == Some("") then None else e.job.errorMessage, RegenerationFailed)))
    else if (m.state != Idle && e.DismissError?) || (m.state == Active && e.UpdateContent?)
         || (m.state == Saving && e.ComponentSaved?) || Selects(m, e) || Refetches(m, e) then
      Some(None)
    else
      None
  }

  lemma StepWrites(m: Machine, e: Event)
    ensures Step(m, e).ctx.modificationPrompt == PromptWritten(m, e).GetOr(m.ctx.modificationPrompt)
    ensures Step(m, e).ctx.regenerationJob == JobWritten(m, e).GetOr(m.ctx.regenerationJob)
    ensures Step(m, e).ctx.lesson == LessonWritten(m, e).GetOr(m.ctx.lesson)
    ensures Step(m, e).ctx.courseId == CourseWritten(m, e).GetOr(m.ctx.courseId)
    ensures Step(m, e).ctx.error == ErrorWritten(m, e).GetOr(m.ctx.error)
  {
  }

  /** On every run prompt, job, lesson, course and error are those of the last event meant for them. */
  lemma {:induction false} ContextFollowsEvents(m: Machine, es: seq<Event>)
    ensures var ctx, end := m.ctx, Run(Step, m, es).ctx;
            && end.modificationPrompt == LastWritten(Step, PromptWritten, m, es, ctx.modificationPrompt)
            && end.regenerationJob == LastWritten(Step, JobWritten, m, es, ctx.regenerationJob)
            && end.lesson == LastWritten(Step, LessonWritten, m, es, ctx.lesson)
            && end.courseId == LastWritten(Step, CourseWritten, m, es, ctx.courseId)
            && end.error == LastWritten(Step, ErrorWritten, m, es, ctx.error)
    decreases |es|
  {
    if es != [] {
      StepWrites(m, es[0]);
      ContextFollowsEvents(Step(m, es[0]), es[1..]);
    }
  }

  /** Edits of the text are lost or changed by nothing but what sets it. */
  predicate SetsText(e: Event) {
    || e.UpdateContent? || e.Undo? || e.ResetToOriginal? || e.SelectComponent?
    || e.ComponentSaved? || e.LessonFetched?
  }

  lemma {:induction false} WorkSurvives(m: Machine, es: seq<Event>)
    requires forall e :: e in es ==> !SetsText(e)
    ensures var end := Run(Step, m, es).ctx;
            && end.editedContent == m.ctx.editedContent && end.history == m.ctx.history
            && end.originalContent == m.ctx.originalContent && end.activeComponent == m.ctx.activeComponent
    decreases |es|
  {
    if es != [] {
      assert !SetsText(es[0]) && forall e :: e in es[1..] ==> e in es;
      WorkSurvives(Step(m, es[0]), es[1..]);
    }
  }

  // ---------------------------------------------------------------- requests

  predicate Enters(target: State, m: Machine, e: Event) {
    m.state != target && Step(m, e).state == target
  }

  predicate SavesChanges(m: Machine, e: Event) {
    m.state == Active && e.Save? && m.ctx.editedContent.Some? && m.ctx.editedContent != m.ctx.originalContent
  }

  ghost predicate AsksForText(m: Machine, e: Event) {
    m.state == Active && e.Regenerate? && NonBlank(m.ctx.modificationPrompt)
  }

  predicate Completes(m: Machine, e: Event) {
    m.state == Polling && e.JobReported? && e.job.status == 3
  }

  lemma StepRequests(m: Machine, e: Event)
    ensures Enters(Saving, m, e) <==> SavesChanges(m, e)
    ensures Enters(Submitting, m, e) <==> AsksForText(m, e)
    ensures Enters(FetchingLesson, m, e) <==> Completes(m, e)
  {
    TrimLeavesText(m.ctx.modificationPrompt);
  }

  /** Asked for in vain: to save no changes, to regenerate by a blank prompt, to undo what never was. */
  ghost predicate InVain(m: Machine, e: Event) {
    || (e.Save? && (m.ctx.editedContent.None? || m.ctx.editedContent == m.ctx.originalContent))
    || (e.Regenerate? && !NonBlank(m.ctx.modificationPrompt))
    || (e.Undo? && m.ctx.history == [])
  }

  lemma VainRequestIgnored(m: Machine, e: Event)
    requires m.state == Active && InVain(m, e)
    ensures Step(m, e) == m
  {
    TrimLeavesText(m.ctx.modificationPrompt);
  }

  /** Asked for in vain any number of times, nothing happens. */
  lemma VainRequestsIgnored(m: Machine, es: seq<Event>)
    requires m.state == Active && forall e :: e in es ==> InVain(m, e)
    ensures Run(Step, m, es) == m
  {
    forall e | e in es ensures Step(m, e) == m {
      VainRequestIgnored(m, e);
    }
    RunStays(Step, m, es);
  }

  /** Along any word there is one save per SAVE of changes, one job per REGENERATE, one refetch per completed job. */
  lemma {:induction false} RequestsCount(m: Machine, es: seq<Event>)
    ensures Count(Step, (m, e) => Enters(Saving, m, e), m, es) == Count(Step, SavesChanges, m, es)
    ensures Count(Step, (m, e) => Enters(Submitting, m, e), m, es) == Count(Step, (m, e) => AsksForText(m, e), m, es)
    ensures Count(Step, (m, e) => Enters(FetchingLesson, m, e), m, es) == Count(Step, Completes, m, es)
    decreases |es|
  {
    if es != [] {
      StepRequests(m, es[0]);
      RequestsCount(Step(m, es[0]), es[1..]);
    }
  }

  /** Where each event is handled; an actor's outcome only in the state that invoked it. */
  predicate Expects(state: State, e: Event) {
    match e
    case SelectComponent(_, _, _) => state == Idle
    case DismissError => state != Idle
    case PollRegeneration | Retry => false
    case CancelRegeneration | DelayElapsed => state == Waiting
    case ComponentSaved(_) => state == Saving
    case JobSubmitted(_) => state == Submitting
    case JobReported(_) => state == Polling
    case LessonFetched(_) => state == FetchingLesson
    case ActorFailed(_) => state in {Saving, Submitting, Polling, FetchingLesson}
    case _ => state == Active
  }

  lemma UnexpectedEventIgnored(m: Machine, e: Event)
    requires !Expects(m.state, e)
    ensures Step(m, e) == m
  {
  }

  lemma DismissalClearsError(m: Machine)
    ensures Step(m, DismissError) == m.(ctx := m.ctx.(error := Step(m, DismissError).ctx.error))
  {
  }

  /** In any number, events that the state does not handle have no effect, and DISMISS_ERROR none but on the error. */
  lemma {:induction false} UnexpectedEventsIgnored(m: Machine, es: seq<Event>)
    requires forall e :: e in es ==> e.DismissError? || !Expects(m.state, e)
    ensures Run(Step, m, es) == m.(ctx := m.ctx.(error := Run(Step, m, es).ctx.error))
    ensures DismissError !in es ==> Run(Step, m, es) == m
    decreases |es|
  {
    if es != [] {
      assert es[0] in es && forall e :: e in es[1..] ==> e in es;
      if es[0].DismissError? {
        DismissalClearsError(m);
      } else {
        UnexpectedEventIgnored(m, es[0]);
      }
      UnexpectedEventsIgnored(Step(m, es[0]), es[1..]);
    }
  }
}
