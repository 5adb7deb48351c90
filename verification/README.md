# Mirai front end: content transformation, session token and flow machines

A Dafny model of the parts of the Mirai front end that carry its logic, with proofs over every input and every run.
`dafny verify dfyconfig.toml` checks the whole project.

* `ContentTransform.dfy` turns generated lessons and an approved outline into the editor's section tree and the
  flattened, globally numbered block list. The loops that push blocks under a running counter are methods; what they
  build is specified by filtering, stable sorting, mapping and flattening. `ContentLaws.dfy` proves what that result
  promises. `ApiFormat.dfy` is the conversion for saving. `FigureHtml.dfy` prints images as HTML figures and holds the
  parser that reads them back. `StableSort.dfy` states what section 22.1.3.27 of ECMA-262 (10th edition) asks of
  `Array.prototype.sort` and shows that only one list meets it.
* `SessionToken.dfy` is the regular-expression search for the session token in a Cookie header, compared with a lookup
  by name on headers written as section 4.2.1 of RFC 6265 says.
* `ComponentEditing.dfy`, `CourseGeneration.dfy`, `Registration.dfy`, `InvitationAccept.dfy` and `CourseBuilder.dfy` are
  the statecharts. Each has a step function over (state, context, event) and a class whose `Send` moves the state and
  overwrites the context in the statechart's own order: transition actions first, then the entry actions of the target
  (SCXML, section 3.13). User events and the outcomes of asynchronous actors are all events; an actor's outcome outside
  the state that invoked the actor has no effect, as the interpreter stops an actor when its state is left.
  `Statecharts.dfy` defines runs, and invariants along runs. For each machine there are theorems on where a run can lead,
  on what leads back, and on which event last wrote each part of the context.

The classes keep a ghost log of the events they were sent. `Valid()` says that state and context are what the run of that
log from the initial machine yields and that the machine's invariant holds; constructors establish it and every `Send`
keeps it.

Where a promise one would expect is not kept on all inputs, the model follows the code, the exact condition is proved,
and a lemma gives inputs that fail:

* Cookie lookup: `ExtractAgreesWithLookup` says when the search result is the looked-up value; it is not under a longer
  name (`LongerNameShadowsToken`) or a value that holds the token name (`ValueShadowsToken`).
* Non-null assertions in course generation: `AssertionsHoldExactlyWhen`; an outline handed over in `configure` without an
  input is safe until it is approved, rejected, updated or regenerated (`ApprovingWithoutInputIsUnsafe`).
* Readiness in the course builder: `ReadyExactlyWhen`; a jump from the first step to steps 5 to 7 skips the guards
  (`FirstJumpIsUnready`).
* Undo: an update over an empty text is not recorded. `BalancedUndoRestores` says for every word that undoes all its
  updates whether text and history come back; `EmptyTextIsNotRestored` is a run on which they do not.
* Order of the input: `InputOrderIrrelevant` says when lessons and components may come in any order; `UnlikeTiesShow`
  gives a rearrangement that shows wherever they may not.
* Completion: `CompletesExactlyWhen`; the background is never left, and an outline without an input cannot be acted on.
* Refetching: a component that comes back empty replaces the active component but not the original text;
  `OriginalTracksExactlyWhen` is the condition along runs, `EmptyRefetchBreaksTie` a run that breaks it.

## Model

| member | source | states |
|---|---|---|
| ContentTransform.GeneratedLessonsToCourseContent | frontend/src/lib/contentTransform.ts:176-221 | the nested loops with one running counter yield the section tree of every outline section in order, and as flat list exactly the concatenation of the tree's blocks, numbered from 0 and stamped with their lesson's id |
| ContentTransform.TransformSection | frontend/src/lib/contentTransform.ts:185-218 | one turn of the section loop builds the section from its filtered, stably sorted lessons and appends exactly that section's blocks under the next numbers |
| ContentTransform.PushBlocks | frontend/src/lib/contentTransform.ts:198-211 | the pushes for one lesson append its blocks in order, each with the next global order and the lesson's id, and advance the counter by their number |
| StableSort.SortByIsStableSort | frontend/src/lib/contentTransform.ts:160 | sorting by a numeric key gives an ascending list that keeps, for each key, the original order of the elements with that key |
| StableSort.StableSortIsSortBy | frontend/src/lib/contentTransform.ts:191-195 | that specification has exactly one solution for every key and every list |
| StableSort.SortByIgnoresOrder | frontend/src/lib/contentTransform.ts:160 | seen through any function, all orderings of a list sort to the same list if and only if elements with equal keys look the same through it |
| Seqs.SelectKeepsOrder | frontend/src/lib/contentTransform.ts:187 | filtering gives a subsequence: the elements with the key, all of them, in the order in which they stood |
| ContentLaws.IndexOfFirst | frontend/src/lib/contentTransform.ts:190-194 | an outline position is the first place the id is listed, and -1 exactly for ids that are not listed |
| ContentLaws.SectionLessonsLaw | frontend/src/lib/contentTransform.ts:187-195 | a list is the section's lessons if and only if it is the stable sort of the matching lessons by outline position; unlisted lessons come first, and every matching lesson is there as often as given and no other |
| ContentLaws.SectionFollowsOutline | frontend/src/lib/contentTransform.ts:187-195 | a section's lessons stand as the outline lists them, unlisted ones first, then by the first place at which their id is listed; those of one id, and the unlisted ones, keep the order in which they were given |
| ContentLaws.BlocksFollowOrder | frontend/src/lib/contentTransform.ts:159-166 | the orders of a lesson's blocks never fall, and for each order its blocks are, in sequence, the images of the components given with that order |
| ContentLaws.PlacedCount | frontend/src/lib/contentTransform.ts:185-187 | every lesson is placed as often as it is given, times the number of outline sections that carry its section id |
| ContentLaws.EveryLessonOnce | frontend/src/lib/contentTransform.ts:185-187 | with distinct section ids, a lesson whose section is in the outline is placed exactly as often as given, any other not at all |
| ContentLaws.TreeHoldsPlacedLessons | frontend/src/lib/contentTransform.ts:198-218 | the tree lists exactly the placed lessons in order, and the number of flat blocks is the sum of their component counts |
| ContentLaws.TreeMirrorsOutline | frontend/src/lib/contentTransform.ts:213-217 | the tree has the outline's sections in order under their ids and titles, each with its lessons under their own ids and titles |
| ContentLaws.BlockAtOffset | frontend/src/lib/contentTransform.ts:202-208 | each nested block reappears in the flat list at the number of blocks before it, changed only in order and lesson id |
| ContentLaws.EntryOrigin | frontend/src/lib/contentTransform.ts:202-208 | every flat entry comes from some nested block, whose offset is the entry's order |
| ContentLaws.EntriesShowComponents | frontend/src/lib/contentTransform.ts:84-151 | every entry of the flat list shows a component of a given lesson whose section is in the outline: type and text by the number of the component's type (the first non-empty text, the raw quiz, a figure with its url, or a note of an unknown type), its id and learning objectives, under its lesson's id and its own place |
| ContentLaws.InputOrderIrrelevant | frontend/src/lib/contentTransform.ts:159-220 | no rearrangement of the lessons, and of the components within lessons, changes the section tree or the flat list, if and only if, in every section of the outline, lessons at one position become equal lessons and components of one lesson with one order become equal blocks |
| ContentLaws.UnlikeTiesShow | frontend/src/lib/contentTransform.ts:159-195 | otherwise some rearrangement is given under which that section comes out different |
| ContentLaws.DistinctOrdersSuffice | frontend/src/lib/contentTransform.ts:159-220 | in particular nothing changes when the lessons of each section have distinct outline positions and the components of each of them distinct orders |
| ContentLaws.ImageBlockRoundTrip | frontend/src/lib/contentTransform.ts:118-133 | the content of an image block parses back to the component's url, alternative text and caption |
| ContentLaws.RegenerationHistory | frontend/src/lib/contentTransform.ts:227-240 | after any non-empty series of regenerations a block has the last component's id, type and content, the original's order and prompt, the latest alignment any of them had (else the original's), and no lesson id |
| ContentLaws.RegenerationKeepsNumbering | frontend/src/lib/contentTransform.ts:227-240 | regenerating any entries of a densely numbered list any number of times keeps the numbering; exactly the regenerated entries lose their lesson id |
| FigureHtml.UnescapeEscape | frontend/src/lib/contentTransform.ts:245-254 | escaping is invertible |
| FigureHtml.EscapeIsEscaped | frontend/src/lib/contentTransform.ts:245-254 | escaped text contains no raw angle bracket or quotation mark, and each ampersand in it opens one of the five references |
| FigureHtml.EscapedTexts | frontend/src/lib/contentTransform.ts:245-254 | conversely, every text of that form is the escape of exactly the text it unescapes to |
| FigureHtml.ParsePrint | frontend/src/lib/contentTransform.ts:124-127 | a parser of the figure text recovers url, alternative text and caption, an empty caption counting as absent |
| FigureHtml.FigureShows | frontend/src/lib/contentTransform.ts:124-127 | the figure's text holds an image with the escaped url as source and the escaped text as alternative, and any non-empty caption, escaped, as caption |
| ApiFormat.FlatteningCommutes | frontend/src/lib/contentTransform.ts:355-366 | flattening the nested API blocks gives the API's flat list at every index, up to the global order |
| ApiFormat.ApiMirrorsCourse | frontend/src/lib/contentTransform.ts:277-366 | every section, lesson and block reaches the API in its own place with its id, texts and order, and with type number 1, 2, 3 or 4 exactly if it is a heading, a text, interactive or a knowledge check |
| ApiFormat.ApiTypes | frontend/src/lib/contentTransform.ts:277-290 | every block of a transformed course, in the nested sections and in the flat list, has API type 1, 2 or 4 |
| ApiFormat.ApiFormLosesOnlyAlignment | frontend/src/lib/contentTransform.ts:325-366 | two courses have the same API form if and only if they differ in nothing but alignments and lesson ids |
| SessionToken.SearchHeader | frontend/src/lib/auth.config.ts:198-201 | on any rendered header the search yields the looked-up value, unless a misleading cookie comes first; then it yields that cookie's whole value if its name ends in the token name, else the part of its value behind the first place where the token name and an equals sign stand with text behind them |
| SessionToken.SearchInText | frontend/src/lib/auth.config.ts:198-201 | in a text without semicolons the search gives exactly what stands behind the first place that holds the key with text behind it, and nothing if there is no such place |
| SessionToken.ExtractAgreesWithLookup | frontend/src/lib/auth.config.ts:198-201 | extraction equals lookup if and only if no misleading cookie comes first or the text it shows, given in closed form, is the looked-up value |
| SessionToken.ExtractIsLookup | frontend/src/lib/auth.config.ts:198-201 | if no other name ends in the token name and no value contains it followed by an equals sign, extraction is the first non-empty value of the token cookie, else null |
| SessionToken.LongerNameShadowsToken | frontend/src/lib/auth.config.ts:198-201 | a cookie with any longer name ending in the token name is returned in place of the token, which lookup finds, and the two differ whenever the values do |
| SessionToken.ValueShadowsToken | frontend/src/lib/auth.config.ts:198-201 | so is the text behind the token name and an equals sign at the start of another cookie's value |
| SessionToken.SearchIsLeftmost | frontend/src/lib/auth.config.ts:199 | the search finds the leftmost place where the expression matches |
| SessionToken.CaptureLongest | frontend/src/lib/auth.config.ts:199 | the captured group is the longest run without a semicolon |
| SessionToken.SearchFindsText | frontend/src/lib/auth.config.ts:199-200 | a captured token is never empty and never contains a semicolon |
| SessionToken.SessionTokenCookie | frontend/src/lib/auth.config.ts:161-171 | the cookie text written for a token is the pair and its attributes joined by semicolons; the attributes are exactly path=/, SameSite=Lax, the domain where there is one and Secure where asked for; the text reads back as that token if and only if the token is non-empty and has no semicolon |
| JsText.TrimLeavesText | frontend/src/machines/componentEditingMachine.ts:220 | the guard on the trimmed text holds exactly if some character is not white space |
| JsText.DecimalReadsBack | frontend/src/lib/contentTransform.ts:145-151 | a type number is written in digits that read back as it, without leading zeros, after a minus sign if it is negative |
| JsText.LowerCaseIgnoresCase | frontend/src/machines/invitationAcceptMachine.ts:146-202 | looking for words in the lower-cased message is looking for them whatever the case of their letters |
| ComponentEditing.Editor.Send | frontend/src/machines/componentEditingMachine.ts:143-415 | the object stays where the run of everything it was sent leads, so its invariant and all that is proved of runs hold of the object after any calls; each event moves state and context as the step function says |
| ComponentEditing.EveryRunKeepsInv | frontend/src/machines/componentEditingMachine.ts:155-407 | after every run: inside `editing` everything dereferenced is non-null, the job is non-null from polling on, no history entry is empty, and the original text is the active component's unless that one came back empty |
| ComponentEditing.UndoRestoresTop | frontend/src/machines/componentEditingMachine.ts:199-205 | after every run an undo restores the top of the history; the fallback to the original text is never taken |
| ComponentEditing.OriginalTracksComponent | frontend/src/machines/componentEditingMachine.ts:212-262 | on runs whose refetches are non-empty the original text is the active component's text throughout |
| ComponentEditing.OriginalTracksExactlyWhen | frontend/src/machines/componentEditingMachine.ts:367-388 | the original text is the active component's throughout a run if and only if no refetch along it brings the component back empty while the original text is not |
| ComponentEditing.EmptyRefetchBreaksTie | frontend/src/machines/componentEditingMachine.ts:367-388 | a run from the start on which it is not: a component with a text is selected, regenerated and refetched empty |
| ComponentEditing.BalancedFrom | frontend/src/machines/componentEditingMachine.ts:185-205 | whatever lies above a base of the undo stack, a word that closes all open updates ends with exactly the base |
| ComponentEditing.BalancedUndoRestores | frontend/src/machines/componentEditingMachine.ts:185-205 | a word of updates and undos that undoes every update restores text and history if and only if: from a non-empty history, it overwrites no empty text; from an empty one, the text was non-empty, or every update is empty. It never touches anything else but the error |
| ComponentEditing.EmptyTextIsNotRestored | frontend/src/machines/componentEditingMachine.ts:185-205 | a run from the start on which it does not: a component with an empty text is selected, its text updated and the update undone |
| ComponentEditing.ProcessingLocksContent | frontend/src/machines/componentEditingMachine.ts:225-406 | while processing, no user event changes anything but the error, and only a cancel while waiting leaves the state |
| ComponentEditing.SaveRoundTrip | frontend/src/machines/componentEditingMachine.ts:212-246 | whatever happens between SAVE and its response, the edited text is unchanged, and no unsaved changes remain if and only if the response echoes it |
| ComponentEditing.FailureKeepsWork | frontend/src/machines/componentEditingMachine.ts:247-403 | a failing actor returns to editing with nothing changed but a retryable error, which shows the thrown message or else the text of the failed operation |
| ComponentEditing.WaitingMeansUnfinished | frontend/src/machines/componentEditingMachine.ts:299-361 | after every run, a job being waited for is neither completed nor failed, and a lesson is fetched only for a completed job |
| ComponentEditing.ResetRoundTrip | frontend/src/machines/componentEditingMachine.ts:206-211 | whatever word of edits, undos, prompts and resets came before, a reset ends with the original text and nothing to save or undo, so a machine opened without changes is back where it started but for prompt and error |
| ComponentEditing.RegenerationRoundTrip | frontend/src/machines/componentEditingMachine.ts:263-406 | a whole regeneration, through any number of polling rounds, ends in editing with the refetched lesson, the new text as both original and edited text wherever it is non-empty (else both unchanged), and no job, error or history |
| ComponentEditing.FindsFirst | frontend/src/machines/componentEditingMachine.ts:367-375 | the refetched component is the first of the lesson with the active component's id, and there is none exactly if no component has it |
| ComponentEditing.FailedRegenerationKeepsWork | frontend/src/machines/componentEditingMachine.ts:263-353 | a regeneration that after any number of polling rounds is reported failed ends in editing with texts, history and prompt kept and a retryable error carrying the job's own message where it has one |
| ComponentEditing.CancelledRegenerationKeepsWork | frontend/src/machines/componentEditingMachine.ts:354-361 | a regeneration cancelled between two polls, after any number of rounds, ends in editing with everything but the job as before |
| ComponentEditing.SelectingStartsAfresh | frontend/src/machines/componentEditingMachine.ts:155-224 | once deselected, nothing happens until a component is selected, and then editing starts with that component's text alone: no history, prompt or error is left |
| ComponentEditing.ContextFollowsEvents | frontend/src/machines/componentEditingMachine.ts:155-415 | after any word from any state, prompt, job, lesson, course and error are those of the last event that concerned them |
| ComponentEditing.WorkSurvives | frontend/src/machines/componentEditingMachine.ts:155-415 | text, history, original and component survive any word without an edit of the text, a selection, a save response or a refetch |
| ComponentEditing.RequestsCount | frontend/src/machines/componentEditingMachine.ts:212-361 | along any word, saves equal the SAVEs of changes, submitted jobs the REGENERATEs with a non-blank prompt, and refetches the jobs reported completed |
| ComponentEditing.VainRequestsIgnored | frontend/src/machines/componentEditingMachine.ts:199-224 | saving no changes, regenerating by a blank prompt and undoing with an empty history have no effect in any number |
| ComponentEditing.UnexpectedEventsIgnored | frontend/src/machines/componentEditingMachine.ts:151-415 | events a state does not handle, among them outcomes of actors it did not invoke, have no effect in any number, and dismissals none but on the error |
| CourseGeneration.Generator.Send | frontend/src/machines/courseGenerationMachine.ts:212-745 | the object stays where the run of everything it was sent leads, so its invariant and all that is proved of runs hold of the object after any calls; each event moves state and context as the step function says |
| CourseGeneration.EveryRunKeepsInv | frontend/src/machines/courseGenerationMachine.ts:224-745 | after every run: the step shown is that of the state, the outline is set from review on, the jobs are set while polled, from confirmation on the lessons are counted as the outline lists them, and progress is at most 100 and equals 100 exactly in `complete` |
| CourseGeneration.GeneratingByStep | frontend/src/machines/courseGenerationMachine.ts:769-794 | after every run `isGenerating` holds exactly if the step index is 1, 3 or 4 and generation is not in the background |
| CourseGeneration.AssertionsHoldExactlyWhen | frontend/src/machines/courseGenerationMachine.ts:224-745 | every non-null assertion in an actor's input holds throughout a run if and only if the reviewer never acts on an outline without an input |
| CourseGeneration.ApprovingWithoutInputIsUnsafe | frontend/src/machines/courseGenerationMachine.ts:249-256 | a run from the start on which one does not: an outline is handed over without an input and approved |
| CourseGeneration.InputSetExactlyWhen | frontend/src/machines/courseGenerationMachine.ts:237-256 | the input is non-null outside `configure` throughout a run if and only if OUTLINE_GENERATED is only taken with an input set |
| CourseGeneration.AssertionsHoldWithInput | frontend/src/machines/courseGenerationMachine.ts:224-745 | on every run in which OUTLINE_GENERATED is only taken with an input set, every non-null assertion holds and the input is non-null outside `configure` |
| CourseGeneration.SubmissionsCount | frontend/src/machines/courseGenerationMachine.ts:416-574 | on every run, lesson submissions equal approvals, and outline submissions equal starts plus regenerations plus rejections |
| CourseGeneration.TotalCountsApprovedOutline | frontend/src/machines/courseGenerationMachine.ts:437-557 | on every run, from confirmation on, the total is the summed lesson count of the outline last approved |
| CourseGeneration.CompleteHoldsFetchedLessons | frontend/src/machines/courseGenerationMachine.ts:697-709 | on every run, a completed flow holds exactly the lessons it fetched last |
| CourseGeneration.ReviewHoldsLastOutline | frontend/src/machines/courseGenerationMachine.ts:249-500 | on every run, from the review on, the outline is set and is the one handed over, fetched, approved or updated last |
| CourseGeneration.ContextFollowsEvents | frontend/src/machines/courseGenerationMachine.ts:224-745 | after any word from any state, input, outline, lessons, both jobs and the error are those of the last event that concerned them |
| CourseGeneration.ActorsGetWhatWasWrittenLast | frontend/src/machines/courseGenerationMachine.ts:263-743 | on every run on which no outline without an input is acted on, each actor is called with the input, the outline id or the job id written last, and states without an actor call none |
| CourseGeneration.ReviewVerdicts | frontend/src/machines/courseGenerationMachine.ts:416-520 | an update leads back to the review with the new outline, an approval to the queue with the approved one, a rejection to a new outline with the old one gone, and a regeneration there too with it kept |
| CourseGeneration.UnexpectedEventsIgnored | frontend/src/machines/courseGenerationMachine.ts:224-745 | events a state does not handle, among them outcomes of actors it did not invoke, have no effect in any number |
| CourseGeneration.BarShowsReports | frontend/src/machines/courseGenerationMachine.ts:263-743 | on every run the bar stands at the mark of its state, or at the last report of the job being polled, scaled and capped |
| CourseGeneration.BarRises | frontend/src/machines/courseGenerationMachine.ts:263-403 | from any point of a phase, with rising reports, progress never falls and stays within 0 and 100 |
| CourseGeneration.ProgressRises | frontend/src/machines/courseGenerationMachine.ts:526-743 | from the entry of the outline phase or of the queue, for as long as a run stays in the phase and reports rise from 0, progress never falls and stays within 0 and 100 |
| CourseGeneration.SetbackKeepsWork | frontend/src/machines/courseGenerationMachine.ts:287-725 | every failing actor, failed job and cancel leads back to the configuration (outline phase) or the review (later phases) with input, outline and lessons kept; all but a cancel leave a retryable error with the message at hand, or else the text of the failed operation |
| CourseGeneration.BackgroundIsFinal | frontend/src/machines/courseGenerationMachine.ts:575-606 | sent to the background, the flow stays there whatever happens, with everything kept |
| CourseGeneration.CanAlwaysComplete | frontend/src/machines/courseGenerationMachine.ts:224-745 | from every state that keeps the invariant, has its input set and is not the background, the straight path reaches `complete`, whatever the actors answer on it, and every actor input on the way is safe |
| CourseGeneration.CompletesExactlyWhen | frontend/src/machines/courseGenerationMachine.ts:224-745 | a run can be continued to `complete` with every non-null assertion holding from start to end if and only if the reviewer never acted without an input on it and it ends neither in the background nor viewing an outline without an input |
| CourseGeneration.CompletesWithInput | frontend/src/machines/courseGenerationMachine.ts:224-745 | so can every run that hands outlines over only with an input set and does not end in the background |
| Registration.Wizard.Send | frontend/src/machines/registrationMachine.ts:146-424 | the object stays where the run of everything it was sent leads, so its invariant and all that is proved of runs hold of the object after any calls; each event moves state and context as the step function says |
| Registration.SubmittedFormsAreChecked | frontend/src/machines/registrationMachine.ts:158-380 | on every run, when a form is submitted its email is non-empty and was the one last checked and found absent, company and names are non-blank, the password has at least 8 characters, and self-service submission has plan STARTER or PRO |
| Registration.FormSurvives | frontend/src/machines/registrationMachine.ts:158-380 | on any run without a setting event, however it moves back, fails or cancels, every form field keeps its value |
| Registration.CompleteFormsCanBeSubmitted | frontend/src/machines/registrationMachine.ts:158-294 | conversely, every complete form on such a plan is submitted with exactly its values by some run |
| Registration.CheckoutFollowsUrl | frontend/src/machines/registrationMachine.ts:341-361 | every complete form submitted on such a plan leads to checkout, with the URL kept, if and only if the answer carries a non-empty URL, and to success otherwise |
| Registration.EnterpriseFormsCanBeSubmitted | frontend/src/machines/registrationMachine.ts:301-336 | every complete form can also be sent as an enterprise request, whatever its plan, and succeeds when that is received |
| Registration.FailureUndoesSending | frontend/src/machines/registrationMachine.ts:214-380 | whatever is sent off from wherever, its failure leads back to the very form it was sent from, with a retryable error carrying the thrown message where there is one |
| Registration.TakenEmailReturns | frontend/src/machines/registrationMachine.ts:194-208 | a taken email leads back to the email step with an error that is not retryable and the flag set |
| Registration.FlagsFollowAnswers | frontend/src/machines/registrationMachine.ts:194-361 | on every run the flag holds exactly if the last email check found the address taken, and a checkout URL is held exactly at checkout |
| Registration.ErrorsFollowOutcomes | frontend/src/machines/registrationMachine.ts:158-380 | after any word from any state, the error is that of the last failure, unless the open form was edited or an actor succeeded after it |
| Registration.BackIsUndone | frontend/src/machines/registrationMachine.ts:231-297 | on every run, going back shows the step before with nothing changed, and going on from there leads back to the same machine |
| Registration.CancelUndoesEnterprise | frontend/src/machines/registrationMachine.ts:289-306 | the enterprise side flow and its cancel undo each other |
| Registration.EndsAreFinal | frontend/src/machines/registrationMachine.ts:330-424 | no word moves a flow that ended in success, enterprise success or checkout |
| Registration.FormsAskForTheirFields | frontend/src/machines/registrationMachine.ts:179-297 | NEXT and SUBMIT lead on if and only if what the open form asks for is filled in with more than blanks, and else change nothing |
| Registration.UnexpectedEventsIgnored | frontend/src/machines/registrationMachine.ts:157-424 | events a state does not handle, among them outcomes of actors it did not invoke, have no effect in any number |
| InvitationAccept.Acceptance.Send | frontend/src/machines/invitationAcceptMachine.ts:213-442 | the object stays where the run of everything it was sent leads, so its invariant and all that is proved of runs hold of the object after any calls; each event moves state and context as the step function says |
| InvitationAccept.AcceptingIsAuthorised | frontend/src/machines/invitationAcceptMachine.ts:225-403 | on every run, in `authenticated` and `accepting` the session is active with the invited email, and the invitation is usable, the last one fetched, and fetched with the token in context; retries stay within their bound |
| InvitationAccept.SessionDecides | frontend/src/machines/invitationAcceptMachine.ts:268-309 | on every run, the session check leads to `authenticated` if and only if the session is active with the invited email, to the mismatch if and only if it is active with another, and else to sign-in |
| InvitationAccept.UsableInvitationsAreAccepted | frontend/src/machines/invitationAcceptMachine.ts:213-417 | conversely, every usable invitation is accepted from the start by an active session for its address, and then holds just what the server returned |
| InvitationAccept.AcceptableExactlyWhen | frontend/src/machines/invitationAcceptMachine.ts:213-442 | a run can be continued to acceptance if and only if the user was not sent away to log in or register and a mismatch did not use up the third retry |
| InvitationAccept.RetryRepeatsFailedStep | frontend/src/machines/invitationAcceptMachine.ts:323-437 | on every run, a retry repeats the step that failed, if it may help, at most three times since the start, and counts as one |
| InvitationAccept.EndsAreFinal | frontend/src/machines/invitationAcceptMachine.ts:311-422 | asked to log in or to register, the flow goes there for good with everything kept; acceptance is final too |
| InvitationAccept.ErrorNamesLastRefusal | frontend/src/machines/invitationAcceptMachine.ts:107-202 | on every run, the error shown names by its code what the last reply was refused for, and is retryable exactly if the invitation itself is not dead |
| InvitationAccept.ContextFollowsReplies | frontend/src/machines/invitationAcceptMachine.ts:213-442 | after any word from any state, token, company, session and sign-in are those last started with, fetched and found, since any reset |
| InvitationAccept.UnexpectedEventsIgnored | frontend/src/machines/invitationAcceptMachine.ts:213-442 | events a state does not handle, among them outcomes of actors it did not invoke, have no effect in any number |
| InvitationAccept.InvitationInHandIsUsable | frontend/src/machines/invitationAcceptMachine.ts:107-157 | after every run, an invitation held in any state before acceptance is neither expired, revoked nor accepted |
| InvitationAccept.UnusableInvitationIsFinal | frontend/src/machines/invitationAcceptMachine.ts:424-440 | after a response without a usable invitation the machine stays in the error state, unchanged, until it is reset |
| CourseBuilder.Builder.Send | frontend/src/machines/courseBuilderMachine.ts:96-325 | the object stays where the run of everything it was sent leads, so its invariant and all that is proved of runs hold of the object after any calls; each event moves state and context as the step function says |
| CourseBuilder.ReadyExactlyWhen | frontend/src/machines/courseBuilderMachine.ts:86-314 | throughout a run the late states have everything generation needs if and only if no jump from the first step to steps 5 to 7 is made before that |
| CourseBuilder.FirstJumpIsUnready | frontend/src/machines/courseBuilderMachine.ts:130-137 | the jump from the first step to step 5 is such a run |
| CourseBuilder.ShownStep | frontend/src/machines/courseBuilderMachine.ts:104-325 | after every run the step shown is that of the state |
| CourseBuilder.NavigationMovesSteps | frontend/src/machines/courseBuilderMachine.ts:108-325 | on every run, NEXT moves one step forward if and only if the form open is filled in, PREVIOUS one step back, and a jump to the step asked for, between exactly the steps that offer it; none changes anything else |
| CourseBuilder.ShownStepTellsState | frontend/src/machines/courseBuilderMachine.ts:104-325 | on all runs the step shown is between 1 and 7 and, but for the two generating states, tells the state; these show the step of the form before them |
| CourseBuilder.GenerationComesBack | frontend/src/machines/courseBuilderMachine.ts:214-291 | on every run, generation starts if and only if all it needs is there; a failure, a rejection or a regeneration leads back to the very form it was started from, a success to the next step |
| CourseBuilder.EveryCourseCanBeBuilt | frontend/src/machines/courseBuilderMachine.ts:108-325 | every course with a title, an outcome, experts and an audience can be built, and is previewed exactly as filled in |
| CourseBuilder.ContextFollowsEvents | frontend/src/machines/courseBuilderMachine.ts:108-325 | after any word from any state, every field is what the last event meant for it wrote, since any reset |
| CourseBuilder.UnexpectedEventsIgnored | frontend/src/machines/courseBuilderMachine.ts:104-325 | events a state does not handle have no effect in any number, and dismissals none but on the error |
| CourseBuilder.ToggleTwice | frontend/src/machines/courseBuilderMachine.ts:147-156 | toggling an id twice restores a selection if and only if it was not selected, or selected once and last |

## Left out

- JSON parsing: the parsed fields are a parameter of the transformation, with the source's defaults when parsing fails; `url` and `altText` are taken to be present, and a parsed value that is not an object is not modelled.
- Characters: text is a sequence of characters rather than UTF-16 code units, which matters only for lengths of passwords with characters outside the basic plane.
- Untyped block types: `blockTypeToProto` maps a value outside its four declared types to 0; the model has only the four.
- `validateQuizContent`, step and status labels, route predicates, redirect URLs, and the client-side copies of the token reader: they would only add easy members.
- Progress is exact in hundredths of a percent; floating-point rounding of the factors 0.55 and 0.75 is not modelled.
- Telemetry, console output, start times, progress messages and unused context fields: no transition depends on them.
- Error texts: the fixed English fallback texts are named, not spelled out; texts that come from thrown errors or jobs are kept.
- Network calls, timers and the interpreter's mailbox: outcomes and elapsed delays are events that may arrive at any time; after a failed non-null assertion the model's run simply goes on.
- The payloads of rejecting and updating an outline (reason and sections), which only the server reads.
- The context object is overwritten with its updated copy, as `assign` does; sharing of objects between contexts is not modelled, as nothing is changed in place.
- Login, logout, invited-user and SME machines, hooks, middleware and the back end.
