/** The registration wizard: guarded steps with back edges, the email check and the enterprise side flow. */
module Registration {
  import opened Options
  import opened JsText
  import opened AuthErrors
  import opened Statecharts

  datatype Plan = UnspecifiedPlan | Starter | Pro | Enterprise

  datatype State =
    | Email | CheckingEmail | Org | Account | PlanSelection
    | EnterpriseContact | SubmittingEnterprise | EnterpriseSuccess
    | Submitting | RedirectingToCheckout | Success

  datatype Context = Context(
    email: string, companyName: string, industry: string, teamSize: string,
    firstName: string, lastName: string, password: string, plan: Plan, seatCount: int,
    error: Option<AuthError>, checkoutUrl: Option<string>, emailExists: bool, retryCount: int)

  datatype Machine = Machine(state: State, ctx: Context)

  datatype Event =
    | Start
    | Next
    | Back
    | SetEmail(email: string)
    | SetOrg(companyName: string, industry: Option<string>, teamSize: Option<string>)
    | SetAccount(firstName: string, lastName: string, password: string)
    | SetPlan(plan: Plan, seatCount: int)
    | Submit
    | SelectEnterprise
    | CancelEnterprise
    | Retry
    | Reset
      // outcomes of the invoked actors
    | EmailChecked(taken: bool)
    | EnterpriseSubmitted
    | Registered(checkoutUrl: Option<string>)
    | ActorFailed(thrown: Option<string>)

  const INITIAL := Machine(Email, Context("", "", "", "", "", "", "", Starter, 1, None, None, false, 0))

  // ---------------------------------------------------------------- step function

  predicate HasCompany(ctx: Context) {
    HasText(ctx.companyName)
  }

  predicate HasAccount(ctx: Context) {
    HasText(ctx.firstName) && HasText(ctx.lastName) && |ctx.password| >= 8
  }

  predicate SelfServicePlan(plan: Plan) {
    plan == Starter || plan == Pro
  }

  function StepForm(m: Machine, e: Event): Machine {
    var ctx := m.ctx;
    match (m.state, e)
    case (Email, Start) => m.(ctx := ctx.(retryCount := 0))
    case (Email, SetEmail(email)) => m.(ctx := ctx.(email := email, error := None))
    case (Email, Next) => if |ctx.email| > 0 then m.(state := CheckingEmail) else m
    case (Org, SetOrg(companyName, industry, teamSize)) =>
      m.(ctx := ctx.(companyName := companyName, industry := OrElse(industry, ""), teamSize := OrElse(teamSize, ""),
                     error := None))
    case (Org, Next) => if HasCompany(ctx) then m.(state := Account) else m
    case (Org, Back) => m.(state := Email)
    case (Account, SetAccount(firstName, lastName, password)) =>
      m.(ctx := ctx.(firstName := firstName, lastName := lastName, password := password, error := None))
    case (Account, Next) => if HasAccount(ctx) then m.(state := PlanSelection) else m
    case (Account, Back) => m.(state := Org)
    case (PlanSelection, SetPlan(plan, seatCount)) =>
      m.(ctx := ctx.(plan := plan, seatCount := seatCount, error := None))
    case (PlanSelection, SelectEnterprise) => m.(state := EnterpriseContact)
    case (PlanSelection, Submit) => if SelfServicePlan(ctx.plan) then m.(state := Submitting) else m
    case (PlanSelection, Back) => m.(state := Account)
    case (EnterpriseContact, CancelEnterprise) => m.(state := PlanSelection)
    case (EnterpriseContact, Submit) => m.(state := SubmittingEnterprise)
    case _ => m
  }

  function StepActor(m: Machine, e: Event): Machine {
    var ctx := m.ctx;
    match (m.state, e)
    case (CheckingEmail, EmailChecked(taken)) =>
      if taken
      then Machine(Email, ctx.(error := Some(AuthError(ValidationError, Stock(EmailTaken), false)),
                               emailExists := true))
      else Machine(Org, ctx.(emailExists := false, error := None))
    case (CheckingEmail, ActorFailed(thrown)) =>
      Machine(Email, ctx.(error := NetworkFailure(thrown, EmailCheckFailed)))
    case (SubmittingEnterprise, EnterpriseSubmitted) => Machine(EnterpriseSuccess, ctx.(error := None))
    case (SubmittingEnterprise, ActorFailed(thrown)) =>
      Machine(EnterpriseContact, ctx.(error := NetworkFailure(thrown, EnterpriseSubmitFailed)))
    case (Submitting, Registered(checkoutUrl)) =>
      if checkoutUrl.Some? && checkoutUrl.value != ""
      then Machine(RedirectingToCheckout, ctx.(checkoutUrl := checkoutUrl, error := None))
      else Machine(Success, ctx.(error := None))
    case (Submitting, ActorFailed(thrown)) =>
      Machine(PlanSelection, ctx.(error := NetworkFailure(thrown, RegistrationFailed)))
    case _ => m
  }

  predicate AwaitsActor(state: State) {
    state in {CheckingEmail, SubmittingEnterprise, Submitting}
  }

  function Step(m: Machine, e: Event): Machine {
    if AwaitsActor(m.state) then StepActor(m, e) else StepForm(m, e)
  }

  // ---------------------------------------------------------------- the running machine

  /** The interpreter's object: events move the state and `assign` actions overwrite the context. */
  class Wizard {
    var state: State
    var ctx: Context
    ghost var log: seq<Event>  // everything sent so far, oldest first

    function Snapshot(): Machine
      reads this
    {
      Machine(state, ctx)
    }

    /** The object is where the run of its log leads, so what holds of every run holds of it. */
    ghost predicate Valid()
      reads this
    {
      Snapshot() == Run(Step, INITIAL, log) && Inv(Snapshot(), LastCheck(INITIAL, log, None))
    }

    constructor ()
      ensures Valid() && log == [] && Snapshot() == INITIAL
    {
      state, ctx := Email, INITIAL.ctx;
      log := [];
    }

    method Send(e: Event)
      requires Valid()
      modifies this
      ensures Valid() && log == old(log) + [e]
      ensures Snapshot() == Step(old(Snapshot()), e)
    {
      Dispatch(e);
      RunSnoc(Step, INITIAL, log, e);
      log := log + [e];
      RunKeepsInv(INITIAL, log, None);
    }

    method Dispatch(e: Event)
      modifies `state, `ctx
      ensures Snapshot() == Step(old(Snapshot()), e)
    {
      if AwaitsActor(state) {
        SendOutcome(e);
      } else {
        SendInput(e);
      }
    }

    method SendInput(e: Event)
      requires !AwaitsActor(state)
      modifies `state, `ctx
      ensures Snapshot() == StepForm(old(Snapshot()), e)
    {
      match (state, e) {
        case (Email, Start) => ctx := ctx.(retryCount := 0);
        case (Email, SetEmail(email)) => ctx := ctx.(email := email, error := None);
        case (Email, Next) => if |ctx.email| > 0 { state := CheckingEmail; }
        case (Org, SetOrg(companyName, industry, teamSize)) =>
          ctx := ctx.(companyName := companyName);
          ctx := ctx.(industry := OrElse(industry, ""), teamSize := OrElse(teamSize, ""));
          ctx := ctx.(error := None);
        case (Org, Next) => if HasCompany(ctx) { state := Account; }
        case (Org, Back) => state := Email;
        case (Account, SetAccount(firstName, lastName, password)) =>
          ctx := ctx.(firstName := firstName, lastName := lastName, password := password);
          ctx := ctx.(error := None);
        case (Account, Next) => if HasAccount(ctx) { state := PlanSelection; }
        case (Account, Back) => state := Org;
        case (PlanSelection, SetPlan(plan, seatCount)) =>
          ctx := ctx.(plan := plan, seatCount := seatCount);
          ctx := ctx.(error := None);
        case (PlanSelection, SelectEnterprise) => state := EnterpriseContact;
        case (PlanSelection, Submit) => if SelfServicePlan(ctx.plan) { state := Submitting; }
        case (PlanSelection, Back) => state := Account;
        case (EnterpriseContact, CancelEnterprise) => state := PlanSelection;
        case (EnterpriseContact, Submit) => state := SubmittingEnterprise;
        case _ =>
      }
    }

    method SendOutcome(e: Event)
      requires AwaitsActor(state)
      modifies `state, `ctx
      ensures Snapshot() == StepActor(old(Snapshot()), e)
    {
      match (state, e) {
        case (CheckingEmail, EmailChecked(taken)) =>
          if taken {
            ctx := ctx.(error := Some(AuthError(ValidationError, Stock(EmailTaken), false)), emailExists := true);
            state := Email;
          } else {
            ctx := ctx.(emailExists := false, error := None);
            state := Org;
          }
        case (CheckingEmail, ActorFailed(thrown)) =>
          ctx := ctx.(error := NetworkFailure(thrown, EmailCheckFailed));
          state := Email;
        case (SubmittingEnterprise, EnterpriseSubmitted) =>
          ctx := ctx.(error := None);
          state := EnterpriseSuccess;
        case (SubmittingEnterprise, ActorFailed(thrown)) =>
          ctx := ctx.(error := NetworkFailure(thrown, EnterpriseSubmitFailed));
          state := EnterpriseContact;
        case (Submitting, Registered(checkoutUrl)) =>
          if checkoutUrl.Some? && checkoutUrl.value != "" {
            ctx := ctx.(checkoutUrl := checkoutUrl, error := None);
            state := RedirectingToCheckout;
          } else {
            ctx := ctx.(error := None);
            state := Success;
          }
        case (Submitting, ActorFailed(thrown)) =>
          ctx := ctx.(error := NetworkFailure(thrown, RegistrationFailed));
          state := PlanSelection;
        case _ =>
      }
    }
  }

  // ---------------------------------------------------------------- what reaches the server

  /** A completed email check: the address sent and the answer. */
  datatype Check = Check(email: string, taken: bool)

  function SeenCheck(m: Machine, e: Event, latest: Option<Check>): Option<Check> {
    if m.state == CheckingEmail && e.EmailChecked? then Some(Check(m.ctx.email, e.taken)) else latest
  }

  /** The last check completed along a word, or `latest` if the word completes none. */
  function LastCheck(m: Machine, es: seq<Event>, latest: Option<Check>): Option<Check>
    decreases |es|
  {
    if es == [] then latest else LastCheck(Step(m, es[0]), es[1..], SeenCheck(m, es[0], latest))
  }

  /** Past a step, what it asks for is filled in. */
  ghost predicate FilledIn(m: Machine) {
    var ctx := m.ctx;
    && (m.state !in {Email, CheckingEmail, Org} ==> NonBlank(ctx.companyName))
    && (m.state !in {Email, CheckingEmail, Org, Account} ==>
          NonBlank(ctx.firstName) && NonBlank(ctx.lastName) && |ctx.password| >= 8)
  }

  /** Past the email step, the address is the one last checked, and it is free. */
  predicate CheckedAndHeld(m: Machine, latest: Option<Check>) {
    var ctx := m.ctx;
    && (m.state == CheckingEmail ==> ctx.email != "")
    && (m.state != Email && m.state != CheckingEmail ==> ctx.email != "" && latest == Some(Check(ctx.email, false)))
    && (m.state in {Submitting, RedirectingToCheckout, Success} ==> SelfServicePlan(ctx.plan))
    && (ctx.checkoutUrl.Some? <==> m.state == RedirectingToCheckout)
    && (m.state == RedirectingToCheckout ==> ctx.checkoutUrl.value != "")
    && ctx.emailExists == (latest.Some? && latest.value.taken)
    && ctx.retryCount == 0
  }

  ghost predicate Inv(m: Machine, latest: Option<Check>) {
    FilledIn(m) && CheckedAndHeld(m, latest)
  }

  lemma GuardsMeanFilled(ctx: Context)
    ensures HasCompany(ctx) <==> NonBlank(ctx.companyName)
    ensures HasAccount(ctx) <==> NonBlank(ctx.firstName) && NonBlank(ctx.lastName) && |ctx.password| >= 8
  {
    TrimLeavesText(ctx.companyName);
    TrimLeavesText(ctx.firstName);
    TrimLeavesText(ctx.lastName);
  }

  lemma DetailsStayFilled(m: Machine, e: Event)
    requires FilledIn(m) && m.state in {Email, Org, Account}
    ensures FilledIn(Step(m, e))
  {
    GuardsMeanFilled(m.ctx);
  }

  lemma StaysFilled(m: Machine, e: Event)
    requires FilledIn(m) && m.state !in {Email, Org, Account}
    ensures FilledIn(Step(m, e))
  {
  }

  lemma StaysChecked(m: Machine, e: Event, latest: Option<Check>)
    requires CheckedAndHeld(m, latest)
    ensures CheckedAndHeld(Step(m, e), SeenCheck(m, e, latest))
  {
  }

  lemma StepKeepsInv(m: Machine, e: Event, latest: Option<Check>)
    requires Inv(m, latest)
    ensures Inv(Step(m, e), SeenCheck(m, e, latest))
  {
    StaysChecked(m, e, latest);
    if m.state in {Email, Org, Account} {
      DetailsStayFilled(m, e);
    } else {
      StaysFilled(m, e);
    }
  }

  lemma {:induction false} RunKeepsInv(m: Machine, es: seq<Event>, latest: Option<Check>)
    requires Inv(m, latest)
    ensures Inv(Run(Step, m, es), LastCheck(m, es, latest))
    decreases |es|
  {
    if es != [] {
      StepKeepsInv(m, es[0], latest);
      RunKeepsInv(Step(m, es[0]), es[1..], SeenCheck(m, es[0], latest));
    }
  }

  /** What a form must hold to be sent, apart from the email check. */
  ghost predicate Complete(ctx: Context) {
    ctx.email != "" && NonBlank(ctx.companyName) && NonBlank(ctx.firstName) && NonBlank(ctx.lastName)
    && |ctx.password| >= 8
  }

  /** On every run, whatever is submitted is complete and its email is the one last checked, and found free. */
  lemma SubmittedFormsAreChecked(es: seq<Event>)
    ensures var m := Run(Step, INITIAL, es);
            m.state == Submitting || m.state == SubmittingEnterprise ==>
              && Complete(m.ctx)
              && LastCheck(INITIAL, es, None) == Some(Check(m.ctx.email, false))
              && (m.state == Submitting ==> m.ctx.plan == Starter || m.ctx.plan == Pro)
  {
    RunKeepsInv(INITIAL, es, None);
  }

  predicate SetsField(e: Event) {
    e.SetEmail? || e.SetOrg? || e.SetAccount? || e.SetPlan?
  }

  lemma StepKeepsForm(m: Machine, e: Event)
    requires !SetsField(e)
    ensures var end := Step(m, e);
            end.ctx == m.ctx.(error := end.ctx.error, checkoutUrl := end.ctx.checkoutUrl,
                              emailExists := end.ctx.emailExists, retryCount := end.ctx.retryCount)
  {
  }

  /** Going back and forth, checking, cancelling and failing to submit never lose or change what was filled in. */
  lemma {:induction false} FormSurvives(m: Machine, es: seq<Event>)
    requires forall e :: e in es ==> !SetsField(e)
    ensures var end := Run(Step, m, es);
            end.ctx == m.ctx.(error := end.ctx.error, checkoutUrl := end.ctx.checkoutUrl,
                              emailExists := end.ctx.emailExists, retryCount := end.ctx.retryCount)
    decreases |es|
  {
    if es != [] {
      assert !SetsField(es[0]) && forall e :: e in es[1..] ==> e in es;
      StepKeepsForm(m, es[0]);
      FormSurvives(Step(m, es[0]), es[1..]);
    }
  }

  /** The form as one walk through the wizard fills it in. */
  function Filled(ctx: Context): Context {
    ctx.(error := None, checkoutUrl := None, emailExists := false, retryCount := 0)
  }

  /** One walk through the wizard, step by step. */
  function EmailPart(ctx: Context): seq<Event> {
    [SetEmail(ctx.email), Next, EmailChecked(false)]
  }

  function OrgPart(ctx: Context): seq<Event> {
    [SetOrg(ctx.companyName, Some(ctx.industry), Some(ctx.teamSize)), Next]
  }

  function AccountPart(ctx: Context): seq<Event> {
    [SetAccount(ctx.firstName, ctx.lastName, ctx.password), Next]
  }

  function PlanPart(ctx: Context): seq<Event> {
    [SetPlan(ctx.plan, ctx.seatCount), Submit]
  }

  function Details(ctx: Context): seq<Event> {
    EmailPart(ctx) + (OrgPart(ctx) + AccountPart(ctx))
  }

  function Walk(ctx: Context): seq<Event> {
    Details(ctx) + PlanPart(ctx)
  }

  lemma WalkToOrg(ctx: Context)
    requires ctx.email != ""
    ensures Run(Step, INITIAL, EmailPart(ctx)) == Machine(Org, INITIAL.ctx.(email := ctx.email))
  {
    RunTwo(Step, Step(INITIAL, SetEmail(ctx.email)), Next, EmailChecked(false));
    assert EmailPart(ctx)[1..] == [Next, EmailChecked(false)];
  }

  lemma WalkToAccount(m: Machine, ctx: Context)
    requires m.state == Org && HasCompany(ctx)
    ensures Run(Step, m, OrgPart(ctx))
         == Machine(Account, m.ctx.(companyName := ctx.companyName, industry := ctx.industry, teamSize := ctx.teamSize,
                                    error := None))
  {
    var filled := m.ctx.(companyName := ctx.companyName, industry := ctx.industry, teamSize := ctx.teamSize,
                         error := None);
    assert Step(m, SetOrg(ctx.companyName, Some(ctx.industry), Some(ctx.teamSize))) == Machine(Org, filled);
    assert Step(Machine(Org, filled), Next) == Machine(Account, filled);
    RunTwo(Step, m, SetOrg(ctx.companyName, Some(ctx.industry), Some(ctx.teamSize)), Next);
  }

  lemma WalkToPlan(m: Machine, ctx: Context)
    requires m.state == Account && HasAccount(ctx)
    ensures Run(Step, m, AccountPart(ctx))
         == Machine(PlanSelection, m.ctx.(firstName := ctx.firstName, lastName := ctx.lastName,
                                          password := ctx.password, error := None))
  {
    var filled := m.ctx.(firstName := ctx.firstName, lastName := ctx.lastName, password := ctx.password, error := None);
    assert Step(m, SetAccount(ctx.firstName, ctx.lastName, ctx.password)) == Machine(Account, filled);
    assert Step(Machine(Account, filled), Next) == Machine(PlanSelection, filled);
    RunTwo(Step, m, SetAccount(ctx.firstName, ctx.lastName, ctx.password), Next);
  }

  lemma WalkToSubmit(m: Machine, ctx: Context)
    requires m.state == PlanSelection && SelfServicePlan(ctx.plan)
    ensures Run(Step, m, PlanPart(ctx))
         == Machine(Submitting, m.ctx.(plan := ctx.plan, seatCount := ctx.seatCount, error := None))
  {
    RunTwo(Step, m, SetPlan(ctx.plan, ctx.seatCount), Submit);
  }

  lemma DetailsFilledIn(ctx: Context)
    requires Complete(ctx)
    ensures Run(Step, INITIAL, Details(ctx))
         == Machine(PlanSelection, Filled(ctx).(plan := INITIAL.ctx.plan, seatCount := INITIAL.ctx.seatCount))
  {
    GuardsMeanFilled(ctx);
    RunAppend(Step, INITIAL, EmailPart(ctx), OrgPart(ctx) + AccountPart(ctx));
    WalkToOrg(ctx);
    var m := Run(Step, INITIAL, EmailPart(ctx));
    RunAppend(Step, m, OrgPart(ctx), AccountPart(ctx));
    WalkToAccount(m, ctx);
    WalkToPlan(Run(Step, m, OrgPart(ctx)), ctx);
  }

  /** Conversely, every complete form on a self-service plan can be submitted with exactly its values. */
  lemma CompleteFormsCanBeSubmitted(ctx: Context)
    requires Complete(ctx) && (ctx.plan == Starter || ctx.plan == Pro)
    ensures Run(Step, INITIAL, Walk(ctx)) == Machine(Submitting, Filled(ctx))
  {
    DetailsFilledIn(ctx);
    var m := Run(Step, INITIAL, Details(ctx));
    RunAppend(Step, INITIAL, Details(ctx), PlanPart(ctx));
    WalkToSubmit(m, ctx);
  }

  // ---------------------------------------------------------------- what the server's answers lead to

  /** A submitted form leads to checkout exactly when the answer carries a non-empty URL, which is then kept. */
  lemma CheckoutFollowsUrl(ctx: Context, url: Option<string>)
    requires Complete(ctx) && (ctx.plan == Starter || ctx.plan == Pro)
    ensures Run(Step, INITIAL, Walk(ctx) + [Registered(url)])
         == if url.Some? && url.value != "" then Machine(RedirectingToCheckout, Filled(ctx).(checkoutUrl := url))
            else Machine(Success, Filled(ctx))
  {
    CompleteFormsCanBeSubmitted(ctx);
    RunSnoc(Step, INITIAL, Walk(ctx), Registered(url));
  }

  /** The walk of the enterprise side flow, which asks for no plan. */
  function EnterpriseWalk(ctx: Context): seq<Event> {
    Details(ctx) + [SelectEnterprise, Submit]
  }

  /** Every complete form can also be sent as an enterprise request, with whatever plan was last chosen. */
  lemma EnterpriseFormsCanBeSubmitted(ctx: Context)
    requires Complete(ctx)
    ensures var sent := Filled(ctx).(plan := Starter, seatCount := 1);
            && Run(Step, INITIAL, EnterpriseWalk(ctx)) == Machine(SubmittingEnterprise, sent)
            && Run(Step, INITIAL, EnterpriseWalk(ctx) + [EnterpriseSubmitted]) == Machine(EnterpriseSuccess, sent)
  {
    DetailsFilledIn(ctx);
    RunAppend(Step, INITIAL, Details(ctx), [SelectEnterprise, Submit]);
    RunTwo(Step, Run(Step, INITIAL, Details(ctx)), SelectEnterprise, Submit);
    RunSnoc(Step, INITIAL, EnterpriseWalk(ctx), EnterpriseSubmitted);
  }

  /** The text shown when an actor fails without a message of its own. */
  function FailureText(awaiting: State): Fallback {
    match awaiting
    case CheckingEmail => EmailCheckFailed
    case SubmittingEnterprise => EnterpriseSubmitFailed
    case _ => RegistrationFailed
  }

  function Failed(thrown: Option<string>, awaiting: State): AuthError {
    AuthError(NetworkError, if thrown.Some? then Given(thrown.value) else Stock(FailureText(awaiting)), true)
  }

  /** The form from which an actor's work is sent off. */
  function FormOf(awaiting: State): State {
    match awaiting
    case CheckingEmail => Email
    case SubmittingEnterprise => EnterpriseContact
    case _ => PlanSelection
  }

  /** Sending off leaves the context alone. */
  lemma SendingKeepsForm(m: Machine, e: Event)
    requires !AwaitsActor(m.state) && AwaitsActor(Step(m, e).state)
    ensures Step(m, e) == m.(state := Step(m, e).state)
    ensures m.state == FormOf(Step(m, e).state)
  {
  }

  lemma FailureReturns(m: Machine, thrown: Option<string>)
    requires AwaitsActor(m.state)
    ensures Step(m, ActorFailed(thrown))
         == Machine(FormOf(m.state), m.ctx.(error := Some(Failed(thrown, m.state))))
  {
  }

  /** Whatever was sent off, its failure leads back to the very form it was sent from, with a retryable error. */
  lemma FailureUndoesSending(m: Machine, e: Event, thrown: Option<string>)
    requires !AwaitsActor(m.state) && AwaitsActor(Step(m, e).state)
    ensures Run(Step, m, [e, ActorFailed(thrown)])
         == m.(ctx := m.ctx.(error := Some(Failed(thrown, Step(m, e).state))))
  {
    var awaiting := Step(m, e);
    SendingKeepsForm(m, e);
    FailureReturns(awaiting, thrown);
    RunTwo(Step, m, e, ActorFailed(thrown));
  }

  /** A taken email leads back to the email step with an error that no retry helps against. */
  lemma TakenEmailReturns(m: Machine)
    requires m.state == Email && m.ctx.email != ""
    ensures Run(Step, m, [Next, EmailChecked(true)])
         == m.(ctx := m.ctx.(error := Some(AuthError(ValidationError, Stock(EmailTaken), false)), emailExists := true))
  {
    RunTwo(Step, m, Next, EmailChecked(true));
  }

  /** On every run the flag says what the last email check found, and a checkout URL is held only at checkout. */
  lemma FlagsFollowAnswers(es: seq<Event>)
    ensures var m, latest := Run(Step, INITIAL, es), LastCheck(INITIAL, es, None);
            && (m.ctx.emailExists <==> latest.Some? && latest.value.taken)
            && (m.ctx.checkoutUrl.Some? <==> m.state == RedirectingToCheckout)
            && m.ctx.retryCount == 0
  {
    RunKeepsInv(INITIAL, es, None);
  }

  // ---------------------------------------------------------------- errors

  /** An edit of the form that is open. */
  predicate Edits(m: Machine, e: Event) {
    || (m.state == Email && e.SetEmail?)
    || (m.state == Org && e.SetOrg?)
    || (m.state == Account && e.SetAccount?)
    || (m.state == PlanSelection && e.SetPlan?)
  }

  /** An answer that lets the flow go on. */
  predicate Succeeds(m: Machine, e: Event) {
    || (m.state == CheckingEmail && e == EmailChecked(false))
    || (m.state == SubmittingEnterprise && e.EnterpriseSubmitted?)
    || (m.state == Submitting && e.Registered?)
  }

  function ErrorWritten(m: Machine, e: Event): Option<Option<AuthError>> {
    if Edits(m, e) || Succeeds(m, e) then Some(None)
    else if m.state == CheckingEmail && e == EmailChecked(true) then
      Some(Some(AuthError(ValidationError, Stock(EmailTaken), false)))
    else if AwaitsActor(m.state) && e.ActorFailed? then Some(Some(Failed(e.thrown, m.state)))
    else None
  }

  lemma StepWritesError(m: Machine, e: Event)
    ensures Step(m, e).ctx.error == ErrorWritten(m, e).GetOr(m.ctx.error)
  {
  }

  /** The error shown is that of the last failure, unless an edit or a success came after it. */
  lemma {:induction false} ErrorsFollowOutcomes(m: Machine, es: seq<Event>)
    ensures Run(Step, m, es).ctx.error == LastWritten(Step, ErrorWritten, m, es, m.ctx.error)
    decreases |es|
  {
    if es != [] {
      StepWritesError(m, es[0]);
      ErrorsFollowOutcomes(Step(m, es[0]), es[1..]);
    }
  }

  // ---------------------------------------------------------------- going back

  /** The progress display counts four steps; every other state is shown as the first. */
  function StepIndex(state: State): nat {
    match state
    case Org => 1
    case Account => 2
    case PlanSelection => 3
    case _ => 0
  }

  /** Going back shows the step before and changes nothing; going on from there leads back to where one was. */
  lemma BackIsUndone(es: seq<Event>)
    requires Run(Step, INITIAL, es).state in {Org, Account, PlanSelection}
    ensures var m := Run(Step, INITIAL, es);
            var back := Step(m, Back);
            && StepIndex(back.state) == StepIndex(m.state) - 1 && back.ctx == m.ctx
            && (m.state != Org ==> Step(back, Next) == m)
            && (m.state == Org ==> Run(Step, back, [Next, EmailChecked(false)]) == m.(ctx := m.ctx.(error := None)))
  {
    RunKeepsInv(INITIAL, es, None);
    GuardsMeanFilled(Run(Step, INITIAL, es).ctx);
    RunTwo(Step, Step(Run(Step, INITIAL, es), Back), Next, EmailChecked(false));
  }

  /** The enterprise side flow is entered from the plan step and cancelled back to it, with nothing changed. */
  lemma CancelUndoesEnterprise(m: Machine)
    ensures m.state == PlanSelection ==> Run(Step, m, [SelectEnterprise, CancelEnterprise]) == m
    ensures m.state == EnterpriseContact ==>
              && Step(m, CancelEnterprise).state == PlanSelection
              && Run(Step, m, [CancelEnterprise, SelectEnterprise]) == m
  {
    RunTwo(Step, m, SelectEnterprise, CancelEnterprise);
    RunTwo(Step, m, CancelEnterprise, SelectEnterprise);
  }

  /** What is sent off or redirected is final: no event moves it any more. */
  lemma EndsAreFinal(m: Machine, es: seq<Event>)
    requires m.state in {EnterpriseSuccess, RedirectingToCheckout, Success}
    ensures Run(Step, m, es) == m
  {
    RunStays(Step, m, es);
  }

  // ---------------------------------------------------------------- guards and stray events

  /** NEXT and SUBMIT lead on exactly when what the open form asks for is filled in, and else do nothing. */
  lemma FormsAskForTheirFields(m: Machine)
    ensures m.state == Email ==> (Step(m, Next) != m <==> m.ctx.email != "")
    ensures m.state == Org ==> (Step(m, Next) != m <==> NonBlank(m.ctx.companyName))
    ensures m.state == Account ==>
              (Step(m, Next) != m <==>
                 NonBlank(m.ctx.firstName) && NonBlank(m.ctx.lastName) && |m.ctx.password| >= 8)
    ensures m.state == PlanSelection ==> (Step(m, Submit) != m <==> m.ctx.plan == Starter || m.ctx.plan == Pro)
  {
    TrimLeavesText(m.ctx.companyName);
    TrimLeavesText(m.ctx.firstName);
    TrimLeavesText(m.ctx.lastName);
  }

  /** Where each event is handled; an actor's outcome only in the state that invoked it. */
  predicate Expects(state: State, e: Event) {
    match e
    case Start | SetEmail(_) => state == Email
    case Next => state in {Email, Org, Account}
    case Back => state in {Org, Account, PlanSelection}
    case SetOrg(_, _, _) => state == Org
    case SetAccount(_, _, _) => state == Account
    case SetPlan(_, _) | SelectEnterprise => state == PlanSelection
    case Submit => state == PlanSelection || state == EnterpriseContact
    case CancelEnterprise => state == EnterpriseContact
    case Retry | Reset => false
    case EmailChecked(_) => state == CheckingEmail
    case EnterpriseSubmitted => state == SubmittingEnterprise
    case Registered(_) => state == Submitting
    case ActorFailed(_) => AwaitsActor(state)
  }

  lemma UnexpectedEventIgnored(m: Machine, e: Event)
    requires !Expects(m.state, e)
    ensures Step(m, e) == m
  {
  }

  /** In any number, events that the state does not handle have no effect. */
  lemma UnexpectedEventsIgnored(m: Machine, es: seq<Event>)
    requires forall e :: e in es ==> !Expects(m.state, e)
    ensures Run(Step, m, es) == m
  {
    forall e | e in es ensures Step(m, e) == m {
      UnexpectedEventIgnored(m, e);
    }
    RunStays(Step, m, es);
  }
}
