/** Accepting a team invitation: fetch, session check, acceptance, with retries bounded by the shared guard. */
module InvitationAccept {
  import opened Options
  import opened JsText
  import opened AuthErrors
  import opened Statecharts

  datatype InvitationStatus = UnspecifiedStatus | Pending | AcceptedStatus | ExpiredStatus | RevokedStatus

  datatype Invitation = Invitation(id: string, email: string, status: InvitationStatus)

  /** A session, with the email of its identity's traits if there is one. */
  datatype Session = Session(active: bool, email: Option<string>)

  datatype State =
    | Idle | FetchingInvitation | CheckingSession | EmailMismatch | NeedsAuth
    | RedirectingToRegister | RedirectingToLogin | Authenticated | Accepting | Accepted | ErrorState

  datatype Context = Context(
    token: Option<string>, invitation: Option<Invitation>, company: Option<string>,
    session: Option<Session>, isAuthenticated: bool,
    acceptedUser: Option<string>, acceptedCompany: Option<string>,
    error: Option<AuthError>, retryCount: int)

  datatype Machine = Machine(state: State, ctx: Context)

  /** What the server sends back: a response whose parts may be missing, or a thrown error with its message. */
  datatype FetchReply =
    | FetchResponse(invitation: Option<Invitation>, company: Option<string>)
    | FetchThrew(message: Option<string>)

  datatype AcceptReply =
    | AcceptResponse(invitation: Option<Invitation>, user: Option<string>, company: Option<string>)
    | AcceptThrew(message: Option<string>)

  datatype Event =
    | Start(token: string)
    | Retry
    | Reset
    | GoToRegister
    | GoToLogin
    | SessionReady(session: Session)
    | Accept
      // outcomes of the invoked actors
    | FetchReplied(fetchReply: FetchReply)
    | SessionChecked(found: Option<Session>)
    | SessionCheckFailed
    | AcceptReplied(acceptReply: AcceptReply)

  const INITIAL_CONTEXT := Context(None, None, None, None, false, None, None, None, 0)
  const INITIAL := Machine(Idle, INITIAL_CONTEXT)

  // ---------------------------------------------------------------- the actors

  datatype FetchOutcome = Fetched(invitation: Invitation, company: string) | FetchFailure(error: AuthError)

  datatype AcceptOutcome =
    | AcceptDone(invitation: Invitation, user: string, company: string)
    | AcceptFailure(error: AuthError)

  function Dead(code: AuthErrorCode, fallback: Fallback): AuthError {
    AuthError(code, Stock(fallback), false)
  }

  function Unclassified(message: Option<string>, fallback: Fallback): AuthError {
    NetworkFailure(message, fallback).value
  }

  function FetchInvitation(reply: FetchReply): FetchOutcome {
    match reply
    case FetchResponse(Some(invitation), Some(company)) =>
      if invitation.status == ExpiredStatus then FetchFailure(Dead(InvitationExpired, Expired))
      else if invitation.status == RevokedStatus then FetchFailure(Dead(InvitationRevoked, Revoked))
      else if invitation.status == AcceptedStatus then FetchFailure(Dead(InvitationAlreadyAccepted, AlreadyUsed))
      else Fetched(invitation, company)
    case FetchResponse(_, _) => FetchFailure(Dead(InvitationInvalid, NotFound))
    case FetchThrew(message) =>
      var text := ToLowerCase(message.GetOr(""));
      if Includes(text, "not found") || Includes(text, "404") then FetchFailure(Dead(InvitationInvalid, NotFound))
      else FetchFailure(Unclassified(message, FetchFailed))
  }

  function AcceptInvitation(reply: AcceptReply): AcceptOutcome {
    match reply
    case AcceptResponse(Some(invitation), Some(user), Some(company)) => AcceptDone(invitation, user, company)
    case AcceptResponse(_, _, _) => AcceptFailure(Unclassified(Some("Invalid response from server"), AcceptFailed))
    case AcceptThrew(message) =>
      var text := ToLowerCase(message.GetOr(""));
      if Includes(text, "expired") then AcceptFailure(Dead(InvitationExpired, Expired))
      else if Includes(text, "revoked") then AcceptFailure(Dead(InvitationRevoked, Revoked))
      else if Includes(text, "already accepted") || Includes(text, "already used")
      then AcceptFailure(Dead(InvitationAlreadyAccepted, AlreadyUsed))
      else if Includes(text, "email mismatch") || Includes(text, "unauthorized")
      then AcceptFailure(AuthError(Unknown, Stock(Mismatch), true))
      else AcceptFailure(Unclassified(message, AcceptFailed))
  }

  // ---------------------------------------------------------------- step function

  function InvitedEmail(ctx: Context): Option<string> {
    if ctx.invitation.Some? then Some(ctx.invitation.value.email) else None
  }

  function StepSession(ctx: Context, found: Option<Session>): Machine {
    if found.Some? && found.value.active then
      Machine(if found.value.email == InvitedEmail(ctx) then Authenticated else EmailMismatch,
              ctx.(session := found, isAuthenticated := true))
    else Machine(NeedsAuth, ctx)
  }

  function StepFetched(ctx: Context, outcome: FetchOutcome): Machine {
    match outcome
    case Fetched(invitation, company) =>
      Machine(CheckingSession, ctx.(invitation := Some(invitation), company := Some(company), error := None))
    case FetchFailure(error) => Machine(ErrorState, ctx.(error := Some(error)))
  }

  function StepAccepted(ctx: Context, outcome: AcceptOutcome): Machine {
    match outcome
    case AcceptDone(invitation, user, company) =>
      Machine(Accepted, ctx.(invitation := Some(invitation), acceptedUser := Some(user),
                             acceptedCompany := Some(company), error := None))
    case AcceptFailure(error) => Machine(ErrorState, ctx.(error := Some(error)))
  }

  predicate MayRetryError(ctx: Context) {
    CanRetry(ctx.retryCount, ctx.error) && ctx.error.Some? && ctx.error.value.retryable
  }

  function Step(m: Machine, e: Event): Machine {
    var ctx := m.ctx;
    match (m.state, e)
    case (Idle, Start(token)) => Machine(FetchingInvitation, ctx.(token := Some(token), error := None, retryCount := 0))
    case (FetchingInvitation, FetchReplied(reply)) => StepFetched(ctx, FetchInvitation(reply))
    case (CheckingSession, SessionChecked(found)) => StepSession(ctx, found)
    case (CheckingSession, SessionCheckFailed) => m.(state := NeedsAuth)
    case (EmailMismatch, GoToLogin) => m.(state := RedirectingToLogin)
    case (EmailMismatch, GoToRegister) => m.(state := RedirectingToRegister)
    case (EmailMismatch, Retry) =>
      if CanRetry(ctx.retryCount, ctx.error) then Machine(CheckingSession, ctx.(retryCount := ctx.retryCount + 1))
      else m
    case (NeedsAuth, GoToRegister) => m.(state := RedirectingToRegister)
    case (NeedsAuth, GoToLogin) => m.(state := RedirectingToLogin)
    case (NeedsAuth, SessionReady(session)) => Machine(CheckingSession, ctx.(session := Some(session)))
    case (Authenticated, Accept) => m.(state := Accepting)
    case (Accepting, AcceptReplied(reply)) => StepAccepted(ctx, AcceptInvitation(reply))
    case (ErrorState, Retry) =>
      if MayRetryError(ctx) then Machine(FetchingInvitation, ctx.(retryCount := ctx.retryCount + 1, error := None))
      else m
    case (ErrorState, Reset) => INITIAL
    case _ => m
  }

  // ---------------------------------------------------------------- the running machine

  /** The interpreter's object: events move the state and `assign` actions overwrite the context. */
  class Acceptance {
    var state: State
    var ctx: Context
    ghost var log: seq<Event>  // everything sent so far, oldest first

    function Snapshot(): Machine
      reads this
    {
      Machine(state, ctx)
    }

    /** The object is where the run of its log leads, so what holds of every run holds of it. */
    ghost predicate Valid()
      reads this
    {
      Snapshot() == Run(Step, INITIAL, log) && Inv(Snapshot(), LastFetch(INITIAL, log, None))
    }

    constructor ()
      ensures Valid() && log == [] && Snapshot() == INITIAL
    {
      state, ctx := Idle, INITIAL_CONTEXT;
      log := [];
    }

    method Send(e: Event)
      requires Valid()
      modifies this
      ensures Valid() && log == old(log) + [e]
      ensures Snapshot() == Step(old(Snapshot()), e)
    {
      Dispatch(e);
      RunSnoc(Step, INITIAL, log, e);
      log := log + [e];
      RunKeepsInv(INITIAL, log, None);
    }

    method Dispatch(e: Event)
      modifies `state, `ctx
      ensures Snapshot() == Step(old(Snapshot()), e)
    {
      match (state, e) {
        case (Idle, Start(token)) =>
          ctx := ctx.(token := Some(token), error := None, retryCount := 0);
          state := FetchingInvitation;
        case (FetchingInvitation, FetchReplied(reply)) => FinishFetch(FetchInvitation(reply));
        case (CheckingSession, SessionChecked(found)) => FinishSessionCheck(found);
        case (CheckingSession, SessionCheckFailed) => state := NeedsAuth;
        case (EmailMismatch, GoToLogin) => state := RedirectingToLogin;
        case (EmailMismatch, GoToRegister) => state := RedirectingToRegister;
        case (EmailMismatch, Retry) =>
          if CanRetry(ctx.retryCount, ctx.error) {
            ctx := ctx.(retryCount := ctx.retryCount + 1);
            state := CheckingSession;
          }
        case (NeedsAuth, GoToRegister) => state := RedirectingToRegister;
        case (NeedsAuth, GoToLogin) => state := RedirectingToLogin;
        case (NeedsAuth, SessionReady(session)) =>
          ctx := ctx.(session := Some(session));
          state := CheckingSession;
        case (Authenticated, Accept) => state := Accepting;
        case (Accepting, AcceptReplied(reply)) => FinishAccept(AcceptInvitation(reply));
        case (ErrorState, Retry) =>
          if MayRetryError(ctx) {
            ctx := ctx.(retryCount := ctx.retryCount + 1, error := None);
            state := FetchingInvitation;
          }
        case (ErrorState, Reset) =>
          ctx := INITIAL_CONTEXT;
          state := Idle;
        case _ =>
      }
    }

    method FinishFetch(outcome: FetchOutcome)
      modifies `state, `ctx
      ensures Snapshot() == StepFetched(old(ctx), outcome)
    {
      if outcome.Fetched? {
        ctx := ctx.(invitation := Some(outcome.invitation), company := Some(outcome.company), error := None);
        state := CheckingSession;
      } else {
        ctx := ctx.(error := Some(outcome.error));
        state := ErrorState;
      }
    }

    method FinishSessionCheck(found: Option<Session>)
      modifies `state, `ctx
      ensures Snapshot() == StepSession(old(ctx), found)
    {
      if found.Some? && found.value.active {
        state := if found.value.email == InvitedEmail(ctx) then Authenticated else EmailMismatch;
        ctx := ctx.(session := found, isAuthenticated := true);
      } else {
        state := NeedsAuth;
      }
    }

    method FinishAccept(outcome: AcceptOutcome)
      modifies `state, `ctx
      ensures Snapshot() == StepAccepted(old(ctx), outcome)
    {
      if outcome.AcceptDone? {
        ctx := ctx.(invitation := Some(outcome.invitation));
        ctx := ctx.(acceptedUser := Some(outcome.user), acceptedCompany := Some(outcome.company), error := None);
        state := Accepted;
      } else {
        ctx := ctx.(error := Some(outcome.error));
        state := ErrorState;
      }
    }
  }

  // ---------------------------------------------------------------- whose invitation, whose session

  /** A successful fetch: the token sent and the invitation returned for it. */
  datatype Fetch = Fetch(token: string, invitation: Invitation)

  predicate CompletesFetch(m: Machine, e: Event) {
    m.state == FetchingInvitation && m.ctx.token.Some? && e.FetchReplied? && FetchInvitation(e.fetchReply).Fetched?
  }

  function SeenFetch(m: Machine, e: Event, latest: Option<Fetch>): Option<Fetch> {
    if CompletesFetch(m, e) then Some(Fetch(m.ctx.token.value, FetchInvitation(e.fetchReply).invitation)) else latest
  }

  /** The last successful fetch along a word, or `latest` if the word has none. */
  function LastFetch(m: Machine, es: seq<Event>, latest: Option<Fetch>): Option<Fetch>
    decreases |es|
  {
    if es == [] then latest else LastFetch(Step(m, es[0]), es[1..], SeenFetch(m, es[0], latest))
  }

  predicate Usable(status: InvitationStatus) {
    status != ExpiredStatus && status != RevokedStatus && status != AcceptedStatus
  }

  predicate HasSessionFor(ctx: Context, invitation: Invitation) {
    ctx.session.Some? && ctx.session.value.active && ctx.session.value.email == Some(invitation.email)
  }

  predicate Inv(m: Machine, latest: Option<Fetch>) {
    var ctx := m.ctx;
    && 0 <= ctx.retryCount <= MAX_RETRY_COUNT
    && (m.state == FetchingInvitation ==> ctx.token.Some?)
    && (m.state == ErrorState ==> ctx.token.Some?)
    && (ctx.error.Some? <==> m.state == ErrorState)
    && (m.state == Idle ==> m == INITIAL)
    && (m.state in {CheckingSession, EmailMismatch, NeedsAuth, Authenticated, Accepting} ==>
          && ctx.token.Some? && ctx.invitation.Some? && Usable(ctx.invitation.value.status)
          && latest == Some(Fetch(ctx.token.value, ctx.invitation.value)))
    && (m.state in {Authenticated, Accepting} ==> HasSessionFor(ctx, ctx.invitation.value))
    && (m.state != Accepted && ctx.invitation.Some? ==> Usable(ctx.invitation.value.status))
    && (m.state == EmailMismatch ==>
          ctx.session.Some? && ctx.session.value.active && !HasSessionFor(ctx, ctx.invitation.value))
  }

  lemma StepKeepsInv(m: Machine, e: Event, latest: Option<Fetch>)
    requires Inv(m, latest)
    ensures Inv(Step(m, e), SeenFetch(m, e, latest))
  {
  }

  lemma {:induction false} RunKeepsInv(m: Machine, es: seq<Event>, latest: Option<Fetch>)
    requires Inv(m, latest)
    ensures Inv(Run(Step, m, es), LastFetch(m, es, latest))
    decreases |es|
  {
    if es != [] {
      StepKeepsInv(m, es[0], latest);
      RunKeepsInv(Step(m, es[0]), es[1..], SeenFetch(m, es[0], latest));
    }
  }

  /**
   * On every run, an acceptance is asked for only with an active session for the invited address, on a usable
   * invitation that was the last one fetched, with the token still in hand; and retries never exceed their bound.
   */
  lemma AcceptingIsAuthorised(es: seq<Event>)
    ensures var m := Run(Step, INITIAL, es);
            && m.ctx.retryCount <= MAX_RETRY_COUNT
            && (m.state == Authenticated || m.state == Accepting ==>
                  && m.ctx.token.Some? && m.ctx.invitation.Some?
                  && HasSessionFor(m.ctx, m.ctx.invitation.value)
                  && Usable(m.ctx.invitation.value.status)
                  && LastFetch(INITIAL, es, None) == Some(Fetch(m.ctx.token.value, m.ctx.invitation.value)))
  {
    RunKeepsInv(INITIAL, es, None);
  }

  // ---------------------------------------------------------------- dead invitations

  /** On every run an invitation in hand was still usable when it came; only an acceptance may bring a used one. */
  lemma InvitationInHandIsUsable(es: seq<Event>)
    ensures var m := Run(Step, INITIAL, es);
            m.state != Accepted && m.ctx.invitation.Some? ==> Usable(m.ctx.invitation.value.status)
  {
    RunKeepsInv(INITIAL, es, None);
  }

  /** The fetch succeeds exactly on a full response with a usable invitation. */
  lemma FetchSucceedsExactlyWhen(reply: FetchReply)
    ensures FetchInvitation(reply).Fetched?
       <==> reply.FetchResponse? && reply.invitation.Some? && reply.company.Some?
            && Usable(reply.invitation.value.status)
  {
  }

  /** After a response without a usable invitation, the machine stays in the error state until it is reset. */
  lemma {:induction false} UnusableInvitationIsFinal(m: Machine, reply: FetchReply, es: seq<Event>)
    requires m.state == FetchingInvitation && reply.FetchResponse?
    requires reply.invitation.None? || reply.company.None? || !Usable(reply.invitation.value.status)
    requires Reset !in es
    ensures var end := Run(Step, m, [FetchReplied(reply)] + es);
            end == Step(m, FetchReplied(reply)) && end.state == ErrorState
  {
    FetchSucceedsExactlyWhen(reply);
    assert ([FetchReplied(reply)] + es)[1..] == es;
    StaysInError(Step(m, FetchReplied(reply)), es);
  }

  lemma StaysInError(m: Machine, es: seq<Event>)
    requires m.state == ErrorState && m.ctx.error.Some? && !m.ctx.error.value.retryable
    requires Reset !in es
    ensures Run(Step, m, es) == m
  {
    RunStays(Step, m, es);
  }

  // ---------------------------------------------------------------- the way to acceptance

  /** The session check lets through exactly the active sessions for the invited address. */
  lemma SessionDecides(es: seq<Event>, found: Option<Session>)
    requires Run(Step, INITIAL, es).state == CheckingSession
    ensures var m := Run(Step, INITIAL, es);
            var next, active := Step(m, SessionChecked(found)).state, found.Some? && found.value.active;
            && m.ctx.invitation.Some?
            && (next == Authenticated <==> active && found.value.email == Some(m.ctx.invitation.value.email))
            && (next == EmailMismatch <==> active && found.value.email != Some(m.ctx.invitation.value.email))
            && (next == NeedsAuth <==> !active)
            && Step(m, SessionCheckFailed) == m.(state := NeedsAuth)
  {
    RunKeepsInv(INITIAL, es, None);
  }

  /** Every usable invitation is accepted by an active session for its address, with just what the server returned. */
  lemma UsableInvitationsAreAccepted(
      token: string, invitation: Invitation, company: string,
      accepted: Invitation, user: string, joined: string)
    requires invitation.status != ExpiredStatus && invitation.status != RevokedStatus
    requires invitation.status != AcceptedStatus
    ensures var session := Some(Session(true, Some(invitation.email)));
            && Run(Step, INITIAL, [Start(token), FetchReplied(FetchResponse(Some(invitation), Some(company))),
                                   SessionChecked(session), Accept,
                                   AcceptReplied(AcceptResponse(Some(accepted), Some(user), Some(joined)))])
               == Machine(Accepted, Context(Some(token), Some(accepted), Some(company), session, true,
                                            Some(user), Some(joined), None, 0))
  {
    var session := Some(Session(true, Some(invitation.email)));
    var fetched, replied := FetchReplied(FetchResponse(Some(invitation), Some(company))),
                            AcceptReplied(AcceptResponse(Some(accepted), Some(user), Some(joined)));
    RunTwo(Step, INITIAL, Start(token), fetched);
    var m := Run(Step, INITIAL, [Start(token), fetched]);
    RunTwo(Step, m, SessionChecked(session), Accept);
    RunAppend(Step, INITIAL, [Start(token), fetched], [SessionChecked(session), Accept]);
    var word := [Start(token), fetched] + [SessionChecked(session), Accept];
    RunSnoc(Step, INITIAL, word, replied);
    assert word + [replied] == [Start(token), fetched, SessionChecked(session), Accept, replied];
  }

  /** Where nothing leads to acceptance any more: sent away, or a third retry still found the wrong address. */
  predicate Lost(m: Machine) {
    || m.state == RedirectingToRegister || m.state == RedirectingToLogin
    || (m.state == EmailMismatch && m.ctx.retryCount >= 3)
  }

  /** How many steps the straight way still takes. */
  function Distance(state: State): nat {
    match state
    case ErrorState => 6
    case Idle => 5
    case FetchingInvitation | EmailMismatch | NeedsAuth => 4
    case CheckingSession => 3
    case Authenticated => 2
    case Accepting => 1
    case _ => 0
  }

  /** The next event of the straight way. */
  function Onward(m: Machine): Event {
    var invitation := Invitation("id", "email", Pending);
    match m.state
    case ErrorState => Reset
    case Idle => Start("token")
    case FetchingInvitation => FetchReplied(FetchResponse(Some(invitation), Some("company")))
    case EmailMismatch => Retry
    case NeedsAuth => SessionReady(Session(true, InvitedEmail(m.ctx)))
    case CheckingSession => SessionChecked(Some(Session(true, InvitedEmail(m.ctx))))
    case Authenticated => Accept
    case _ => AcceptReplied(AcceptResponse(Some(invitation), Some("user"), Some("company")))
  }

  lemma OnwardAdvances(m: Machine, latest: Option<Fetch>)
    requires Inv(m, latest) && !Lost(m) && m.state != Accepted
    ensures var next := Step(m, Onward(m)); !Lost(next) && Distance(next.state) < Distance(m.state)
  {
  }

  lemma {:induction false} WayToAcceptance(m: Machine, latest: Option<Fetch>) returns (es: seq<Event>)
    requires Inv(m, latest) && !Lost(m)
    ensures Run(Step, m, es).state == Accepted
    decreases Distance(m.state)
  {
    es := [];
    if m.state != Accepted {
      var e := Onward(m);
      OnwardAdvances(m, latest);
      StepKeepsInv(m, e, latest);
      var rest := WayToAcceptance(Step(m, e), SeenFetch(m, e, latest));
      es := [e] + rest;
      assert es[1..] == rest;
    }
  }

  lemma {:induction false} LostForGood(m: Machine, latest: Option<Fetch>, es: seq<Event>)
    requires Inv(m, latest) && Lost(m)
    ensures Lost(Run(Step, m, es))
    decreases |es|
  {
    if es != [] {
      StepKeepsInv(m, es[0], latest);
      LostForGood(Step(m, es[0]), SeenFetch(m, es[0], latest), es[1..]);
    }
  }

  /** A run can still end in acceptance exactly when it was not sent away and has a retry left after a mismatch. */
  lemma AcceptableExactlyWhen(es: seq<Event>)
    ensures (exists rest :: Run(Step, INITIAL, es + rest).state == Accepted) <==> !Lost(Run(Step, INITIAL, es))
  {
    var m, latest := Run(Step, INITIAL, es), LastFetch(INITIAL, es, None);
    RunKeepsInv(INITIAL, es, None);
    forall rest ensures Run(Step, INITIAL, es + rest) == Run(Step, m, rest) {
      RunAppend(Step, INITIAL, es, rest);
    }
    if Lost(m) {
      forall rest ensures Run(Step, INITIAL, es + rest).state != Accepted {
        LostForGood(m, latest, rest);
      }
    } else {
      var rest := WayToAcceptance(m, latest);
      assert Run(Step, INITIAL, es + rest).state == Accepted;
    }
  }

  /** Whoever asks to log in or to register is sent there, for good, with everything kept; acceptance is final too. */
  lemma {:induction false} EndsAreFinal(m: Machine, es: seq<Event>)
    ensures m.state in {RedirectingToRegister, RedirectingToLogin, Accepted} ==> Run(Step, m, es) == m
    ensures m.state in {EmailMismatch, NeedsAuth} ==>
              && Run(Step, m, [GoToLogin] + es) == m.(state := RedirectingToLogin)
              && Run(Step, m, [GoToRegister] + es) == m.(state := RedirectingToRegister)
    decreases |es|, if m.state in {EmailMismatch, NeedsAuth} then 1 else 0
  {
    if m.state in {EmailMismatch, NeedsAuth} {
      assert ([GoToLogin] + es)[1..] == es && ([GoToRegister] + es)[1..] == es;
      EndsAreFinal(m.(state := RedirectingToLogin), es);
      EndsAreFinal(m.(state := RedirectingToRegister), es);
    } else if es != [] {
      EndsAreFinal(m, es[1..]);
    }
  }

  // ---------------------------------------------------------------- retries

  predicate RetryHelps(m: Machine) {
    m.state == EmailMismatch || (m.state == ErrorState && m.ctx.error.Some? && m.ctx.error.value.retryable)
  }

  /** The retries made since the flow was last started, given that n were made before the word. */
  function RetriesSince(m: Machine, es: seq<Event>, n: int): int
    decreases |es|
  {
    if es == [] then n
    else
      var begun := (m.state == Idle && es[0].Start?) || (m.state == ErrorState && es[0].Reset?);
      var made := if begun then 0 else if es[0].Retry? && RetryHelps(m) && n < 3 then n + 1 else n;
      RetriesSince(Step(m, es[0]), es[1..], made)
  }

  lemma {:induction false} RunCountsRetries(m: Machine, es: seq<Event>, latest: Option<Fetch>)
    requires Inv(m, latest)
    ensures Run(Step, m, es).ctx.retryCount == RetriesSince(m, es, m.ctx.retryCount)
    decreases |es|
  {
    if es != [] {
      StepKeepsInv(m, es[0], latest);
      RunCountsRetries(Step(m, es[0]), es[1..], SeenFetch(m, es[0], latest));
    }
  }

  /** A retry repeats the step that failed, with nothing else changed, at most three times since the start. */
  lemma RetryRepeatsFailedStep(es: seq<Event>)
    ensures var m, n := Run(Step, INITIAL, es), RetriesSince(INITIAL, es, 0);
            && m.ctx.retryCount == n <= 3
            && (m.state in {EmailMismatch, ErrorState} ==>
                  Step(m, Retry)
                  == if n == 3 || !RetryHelps(m) then m
                     else Machine(if m.state == EmailMismatch then CheckingSession else FetchingInvitation,
                                  m.ctx.(retryCount := n + 1, error := None)))
  {
    RunKeepsInv(INITIAL, es, None);
    RunCountsRetries(INITIAL, es, None);
  }

  // ---------------------------------------------------------------- what the replies leave behind

  ghost predicate Says(message: Option<string>, part: string) {
    message.Some? && Mentions(message.value, part)
  }

  lemma SaysLowerCased(message: Option<string>, part: string)
    requires part != ""
    ensures Includes(ToLowerCase(message.GetOr("")), part) <==> Says(message, part)
  {
    LowerCaseIgnoresCase(message.GetOr(""), part);
  }

  /** A retryable error that shows the message at hand, or else the given text. */
  function Plain(message: Option<string>, text: Fallback): AuthError {
    AuthError(NetworkError, if message.Some? then Given(message.value) else Stock(text), true)
  }

  /** The text shown with a code that has one of its own. */
  function TextFor(code: AuthErrorCode): Fallback {
    match code
    case InvitationExpired => Expired
    case InvitationRevoked => Revoked
    case InvitationAlreadyAccepted => AlreadyUsed
    case InvitationInvalid => NotFound
    case _ => Mismatch
  }

  datatype Reply = OfFetch(fetch: FetchReply) | OfAccept(accept: AcceptReply)

  /**
   * What a fetch was refused for: each dead status has its code, and whatever the server says it does not know is
   * invalid; only other thrown failures can be retried, and they show their own message.
   */
  ghost predicate NamesFetchRefusal(error: AuthError, reply: FetchReply) {
    var full := reply.FetchResponse? && reply.invitation.Some? && reply.company.Some?;
    var lost := reply.FetchThrew? && (Says(reply.message, "not found") || Says(reply.message, "404"));
    && (error.code == InvitationExpired <==> full && reply.invitation.value.status == ExpiredStatus)
    && (error.code == InvitationRevoked <==> full && reply.invitation.value.status == RevokedStatus)
    && (error.code == InvitationAlreadyAccepted <==> full && reply.invitation.value.status == AcceptedStatus)
    && (error.code == InvitationInvalid <==> lost || (reply.FetchResponse? && !full))
    && (error.retryable <==> reply.FetchThrew? && !lost)
    && (if error.retryable then error == Plain(reply.message, FetchFailed)
        else error.message == Stock(TextFor(error.code)))
  }

  /** What an acceptance was refused for, by the words of the message; only a dead invitation cannot be retried. */
  ghost predicate NamesAcceptRefusal(error: AuthError, reply: AcceptReply) {
    var message := if reply.AcceptThrew? then reply.message else Some("Invalid response from server");
    var expired, revoked := Says(message, "expired"), Says(message, "revoked");
    var used := Says(message, "already accepted") || Says(message, "already used");
    var other := Says(message, "email mismatch") || Says(message, "unauthorized");
    var dead := reply.AcceptThrew? && (expired || revoked || used);
    && (error.code == InvitationExpired <==> dead && expired)
    && (error.code == InvitationRevoked <==> dead && revoked && !expired)
    && (error.code == InvitationAlreadyAccepted <==> dead && used && !expired && !revoked)
    && (error.code == Unknown <==> reply.AcceptThrew? && other && !dead)
    && (error.code == NetworkError <==> !dead && !(reply.AcceptThrew? && other))
    && (error.retryable <==> !dead)
    && (if error.code == NetworkError then error == Plain(message, AcceptFailed)
        else error.message == Stock(TextFor(error.code)))
  }

  ghost predicate ErrorNames(m: Machine, reply: Option<Reply>) {
    m.state == ErrorState ==>
      && m.ctx.error.Some? && reply.Some?
      && (match reply.value
          case OfFetch(fetch) => NamesFetchRefusal(m.ctx.error.value, fetch)
          case OfAccept(accept) => NamesAcceptRefusal(m.ctx.error.value, accept))
  }

  function SeenReply(m: Machine, e: Event, latest: Option<Reply>): Option<Reply> {
    if m.state == FetchingInvitation && e.FetchReplied? then Some(OfFetch(e.fetchReply))
    else if m.state == Accepting && e.AcceptReplied? then Some(OfAccept(e.acceptReply))
    else latest
  }

  /** The last reply taken along a word, or `latest` if the word has none. */
  function LastReply(m: Machine, es: seq<Event>, latest: Option<Reply>): Option<Reply>
    decreases |es|
  {
    if es == [] then latest else LastReply(Step(m, es[0]), es[1..], SeenReply(m, es[0], latest))
  }

  lemma FetchRefused(m: Machine, reply: FetchReply)
    requires m.state == FetchingInvitation
    ensures ErrorNames(Step(m, FetchReplied(reply)), Some(OfFetch(reply)))
  {
    if reply.FetchThrew? {
      SaysLowerCased(reply.message, "not found");
      SaysLowerCased(reply.message, "404");
    }
  }

  lemma AcceptRefused(m: Machine, reply: AcceptReply)
    requires m.state == Accepting
    ensures ErrorNames(Step(m, AcceptReplied(reply)), Some(OfAccept(reply)))
  {
    if reply.AcceptThrew? {
      SaysLowerCased(reply.message, "expired");
      SaysLowerCased(reply.message, "revoked");
      SaysLowerCased(reply.message, "already accepted");
      SaysLowerCased(reply.message, "already used");
      SaysLowerCased(reply.message, "email mismatch");
      SaysLowerCased(reply.message, "unauthorized");
    }
  }

  lemma {:induction false} RunNamesReason(m: Machine, es: seq<Event>, latest: Option<Reply>)
    requires ErrorNames(m, latest)
    ensures ErrorNames(Run(Step, m, es), LastReply(m, es, latest))
    decreases |es|
  {
    if es != [] {
      if m.state == FetchingInvitation && es[0].FetchReplied? {
        FetchRefused(m, es[0].fetchReply);
      } else if m.state == Accepting && es[0].AcceptReplied? {
        AcceptRefused(m, es[0].acceptReply);
      }
      RunNamesReason(Step(m, es[0]), es[1..], SeenReply(m, es[0], latest));
    }
  }

  /** On every run the error shown names what the last reply was refused for, and says whether a retry may help. */
  lemma ErrorNamesLastRefusal(es: seq<Event>)
    ensures ErrorNames(Run(Step, INITIAL, es), LastReply(INITIAL, es, None))
  {
    RunNamesReason(INITIAL, es, None);
  }

  predicate Resets(m: Machine, e: Event) {
    m.state == ErrorState && e.Reset?
  }

  function TokenWritten(m: Machine, e: Event): Option<Option<string>> {
    if m.state == Idle && e.Start? then Some(Some(e.token)) else if Resets(m, e) then Some(None) else None
  }

  function CompanyWritten(m: Machine, e: Event): Option<Option<string>> {
    if m.state == FetchingInvitation && e.FetchReplied? && e.fetchReply.FetchResponse?
       && e.fetchReply.invitation.Some? && e.fetchReply.company.Some? && Usable(e.fetchReply.invitation.value.status)
    then Some(e.fetchReply.company)
    else if Resets(m, e) then Some(None)
    else None
  }

  function SessionWritten(m: Machine, e: Event): Option<Option<Session>> {
    if m.state == CheckingSession && e.SessionChecked? && e.found.Some? && e.found.value.active then Some(e.found)
    else if m.state == NeedsAuth && e.SessionReady? then Some(Some(e.session))
    else if Resets(m, e) then Some(None)
    else None
  }

  function SignInWritten(m: Machine, e: Event): Option<bool> {
    if m.state == CheckingSession && e.SessionChecked? && e.found.Some? && e.found.value.active then Some(true)
    else if Resets(m, e) then Some(false)
    else None
  }

  lemma StepWrites(m: Machine, e: Event)
    ensures Step(m, e).ctx.token == TokenWritten(m, e).GetOr(m.ctx.token)
    ensures Step(m, e).ctx.company == CompanyWritten(m, e).GetOr(m.ctx.company)
    ensures Step(m, e).ctx.session == SessionWritten(m, e).GetOr(m.ctx.session)
    ensures Step(m, e).ctx.isAuthenticated == SignInWritten(m, e).GetOr(m.ctx.isAuthenticated)
  {
  }

  /** On every run the context holds what was last started with, fetched and found. */
  lemma ContextFollowsReplies(m: Machine, es: seq<Event>)
    ensures var end := Run(Step, m, es).ctx;
            && end.token == LastWritten(Step, TokenWritten, m, es, m.ctx.token)
            && end.company == LastWritten(Step, CompanyWritten, m, es, m.ctx.company)
            && end.session == LastWritten(Step, SessionWritten, m, es, m.ctx.session)
            && end.isAuthenticated == LastWritten(Step, SignInWritten, m, es, m.ctx.isAuthenticated)
    decreases |es|
  {
    if es != [] {
      StepWrites(m, es[0]);
      ContextFollowsReplies(Step(m, es[0]), es[1..]);
    }
  }

  /** Where each event is handled; an actor's outcome only in the state that invoked it. */
  predicate Expects(state: State, e: Event) {
    match e
    case Start(_) => state == Idle
    case Retry => state == EmailMismatch || state == ErrorState
    case Reset => state == ErrorState
    case GoToRegister | GoToLogin => state == EmailMismatch || state == NeedsAuth
    case SessionReady(_) => state == NeedsAuth
    case Accept => state == Authenticated
    case FetchReplied(_) => state == FetchingInvitation
    case SessionChecked(_) | SessionCheckFailed => state == CheckingSession
    case AcceptReplied(_) => state == Accepting
  }

  lemma UnexpectedEventIgnored(m: Machine, e: Event)
    requires !Expects(m.state, e)
    ensures Step(m, e) == m
  {
  }

  /** In any number, events that the state does not handle have no effect. */
  lemma UnexpectedEventsIgnored(m: Machine, es: seq<Event>)
    requires forall e :: e in es ==> !Expects(m.state, e)
    ensures Run(Step, m, es) == m
  {
    forall e | e in es ensures Step(m, e) == m {
      UnexpectedEventIgnored(m, e);
    }
    RunStays(Step, m, es);
  }
}
