# Verified models of the outreach application's hard parts

A Dafny project that models the concurrent screens, the algorithms and the background worker of the
application and proves properties of them over all inputs and all runs. `dafny verify dfyconfig.toml`
checks everything.

How the models are built:

- **Screens are objects and protocols.** A component whose handlers change state is a class with those
  fields and one method per handler or answer. A call to the server is two events, the one that starts it
  and the one in which its answer arrives; answers may arrive in any order, and may be a success, a refusal
  or a throw. Each method is proved to make exactly the step of a specification on values, so that theorems
  about runs of the specification are theorems about sequences of calls.
- **Every step is pinned.** What an event or call does is stated a second time, field by field and without the
  functions that compute it: `DraftEffects`, `LookaheadEffects`, `WizardEffects`, the replies in
  `ListPreparation`, `BulkRequests`, and the turns of the worker in `WorkerProtocol`.
- **Loops are loops.** Counting, grouping, filtering and batching loops are methods with invariants, proved
  against functions whose meaning is then proved separately.
- **What the code does not guarantee is stated too**: the exact condition under which it does hold, and a
  lemma that gives a run or input on which it does not.

| area | files |
|---|---|
| Draft editing, saving, hand-off and sending | `DraftProtocol`, `DraftEffects`, `DraftBookkeeping`, `DraftSafety`, `DraftSentSafety`, `DraftOrder`, `DraftHandoff`, `DraftUnsaved`, `DraftUnsavedSteps`, `DraftUnsavedRuns`, `DraftWitnesses`, `EmailSequenceWorkspace` |
| Look-ahead drafts: merging, runs, quota | `LookaheadMerge`, `LookaheadRuns`, `LookaheadEffects`, `LookaheadQuota`, `LookaheadWitnesses`, `EmailDraftsStage` |
| Research measurement | `TextDelta`, `MeasureResearch` |
| Button class migration | `MigrateButtonClasses` |
| List preparation | `ListPreparation`, `ContactsProtocol`, `ContactsEvidence`, `CampaignContactsManager` |
| Qualification screen | `QualificationRules`, `BulkRestore`, `BulkRequests`, `QualificationBuckets` |
| Comma lists | `CommaLists` |
| Import wizard | `WizardProtocol`, `WizardEffects`, `WizardSafety`, `WizardDuplicates`, `WizardFileNames`, `WizardWitnesses`, `AddContactsWizard` |
| Research worker | `WorkerProtocol`, `ResearchWorker` |
| Shared vocabulary | `Collections` (filter, stable sort, insertion-ordered Map), `Strings` (trim, join) |

## What the proofs found

Each of these names the lemma with the exact condition and then the lemmas with runs or inputs.

- A listed text can be left behind: the server does not hold it, no call is under way that would bring screen
  and server together, and the page shows neither banner nor edit mark for it. The moves that do this are
  named by `DraftUnsaved.Drops`, and without them it never happens
  (`DraftUnsavedRuns.TextIsTendedUnlessDropped`). Runs: another draft is opened before the autosave
  (`DraftWitnesses.OpeningAnotherLeavesText`); the call of the save throws after that (`ThrowLeavesText`); the
  newest save succeeds for another draft (`AnotherSuccessLeavesText`); a refusal comes after a newer save has
  begun (`StaleRefusalLeavesText`); an edit where no autosave runs is left (`ArchivedEditLeavesText`); a mark, a
  send or a generation takes down or hides the banner (`MarkHidesTheBanner`, `MarkOfAnotherLeavesText`,
  `SendOfAnotherLeavesText`, `GenerationLeavesText`).
- Answers that arrive in another order than the server stored leave the older text listed
  (`DraftUnsavedRuns.RestingAgrees`; run: `DraftWitnesses.OlderAnswerHidesNewerText`).
- The answer to a save replaces whatever was typed since the save began
  (`DraftUnsavedSteps.AnswersReplaceExactly`, `DraftSafety.EchoedSaveKeepsScreen`; run:
  `DraftSafety.LateAnswerDropsANewerEdit`).
- The save of a hand-off raises its banner only when it is refused, not when it throws
  (`DraftHandoff.FailedHandoffHoldsTheOpenedCopy`), and opening another draft takes the banner away
  (`DraftHandoff.BannerLostExactly`): a client can hold a text for which the page shows neither banner nor edit
  mark (runs: `DraftWitnesses.ThrownHandoffLeavesText`, `LeavingTheBannerLeavesText`).
- A save whose call throws, and an edit in an archived campaign, leave the edit mark up with no timer, save or
  banner (`DraftSafety.MarkCoverLostExactlyWhenStranded`; runs: `LostAnswerStrandsAnEdit`,
  `ArchivedEditStrandsTheMark`).
- A look-ahead result for a draft that was sent in the meantime shows it as an unsent draft again
  (`LookaheadMerge.LateResultReopensItsDraft`; run: `LookaheadWitnesses.LateAnswerReopensASentDraft`); and a
  contact that two runs generate for at once loses its mark with the first answer
  (`LookaheadRuns.ExactUnlessUnmarked`; run: `LookaheadWitnesses.FirstAnswerTakesTheMark`).
- A call that throws during list preparation leaves the screen running for good, with no button to press
  (`ContactsProtocol.StuckExactlyAfterThrow`, `StuckForGood`; run: `ThrowStrandsTheScreen`).
- A bulk restore over several runs or types shows rows as restored that no granted request named
  (`BulkRestore.RelabellingIsTruthful`; inputs: `UnconfirmedRowIsShownRestored`): a batch of mixed types is sent
  under the type of its first row (`BulkRestore.RequestNamesItsBatch`).
- Of a company with an undated research row, the undated row counts as the latest
  (`MeasureResearch.LatestIsNewest`; input: `UndatedRowIsKept`).
- A comma list cannot carry an item with a comma (`CommaLists.PrintThenParse`; input: `CommaCutsAnItem`).
- The wizard can ask to import rows whose duplicates it does not show
  (`WizardDuplicates.FreshUnlessStaled`; runs: `WizardWitnesses.FailedCheckIsForgotten`,
  `OlderCheckOverwrites`), and under the name of a file that the rows did not come from
  (`WizardFileNames.NameIsTrueUnlessMisnamed`; run: `WizardWitnesses.OlderFileUnderNewerName`).

## What is assumed

- Event handlers run to completion, and a handler sees the state its event finds; the effects of a
  component run after each event. The list of events a screen offers is the list of its enabled controls.
- A draft is saved only with a subject and a body, and a positive answer carries the texts that were stored
  (src/lib/email-generation/sequence.ts:186-195, src/app/actions/email.ts:644-652): the write-back's test for
  them always succeeds. A call that is refused or throws may have been stored before that, after
  it, or not at all; other sessions may store any text at any time. That the server refuses saves of a draft
  that is SENT or sending is not used: the runs include more than it allows.
- Generation actions answer with status DRAFT (src/app/actions/email.ts:253, 538, 588, 825): the lemmas that
  need this say so (`DraftSentSafety.FromGenerationAction`).
- The server keeps the sequence number of a known draft and gives a new one an unused number
  (prisma/schema.prisma:2267): `LookaheadMerge.Fits`, `DraftOrder.WellNumbered`.
- `Array.prototype.sort` is the stable sort; `Collections.StableSortUnique` proves that this leaves no
  freedom. The database sorts missing dates first in descending order.

## Model

| member | source | states |
|---|---|---|
| `DraftBookkeeping.RunKeepsInv` | src/components/EmailSequenceWorkspace.tsx:177-207 | In every run from a mounted screen the books balance: saves in flight carry numbers up to the newest, `saving` agrees with them, one send at a time matches `sendBusy`, the hand-off flag matches the hand-off, an armed autosave is for the text on screen, draft ids stay unique |
| `DraftBookkeeping.StepKeepsInv` | src/components/EmailSequenceWorkspace.tsx:253-257 | One event, with the leave-draft and autosave effects that follow it, keeps those books |
| `DraftSafety.SavingMeansNewestInFlight` | src/components/EmailSequenceWorkspace.tsx:410-446 | For every interleaving, `saving` is true exactly while the save with the newest number is in flight |
| `DraftSafety.StaleAnswerIsInert` | src/components/EmailSequenceWorkspace.tsx:414-418 | The answer to any older save leaves the edit mark, the retry banner, the prompt and `saving` unchanged; it may only write its own text back |
| `DraftSafety.AutosaveSubmitsTheScreen` | src/components/EmailSequenceWorkspace.tsx:487-504 | In every run an armed autosave submits exactly the text on screen, and never for a draft that is SENT or sending |
| `DraftSafety.MarkCoverLostExactlyWhenStranded` | src/components/EmailSequenceWorkspace.tsx:410-504 | While the edit mark is up a timer, a save in flight or a banner is there to take it down; an event ends this if and only if it is the newest save failing without an answer with no later edit and no banner waiting, or an edit where no autosave runs with no save and no banner |
| `DraftSafety.MarkedEditsAreNeverSilent` | src/components/EmailSequenceWorkspace.tsx:487-504 | In every run without such an event the edit mark never stands alone; it is about the mark only, not about the text |
| `DraftSafety.LostAnswerStrandsAnEdit` | src/components/EmailSequenceWorkspace.tsx:410-446 | A concrete run (edit, autosave, lost answer) after which the edit mark is up with no timer, no save and no banner |
| `DraftSafety.ArchivedEditStrandsTheMark` | src/components/EmailSequenceWorkspace.tsx:487-504 | A concrete run: an edit in an archived campaign, which is marked and has no timer, save or banner |
| `DraftSafety.EchoedSaveKeepsScreen` | src/components/EmailSequenceWorkspace.tsx:389-402 | When the server stored what it was sent, the answer leaves the text on screen alone if and only if another draft is shown or nothing was typed since the save began |
| `DraftSafety.LateAnswerDropsANewerEdit` | src/components/EmailSequenceWorkspace.tsx:389-402 | A concrete run in which the answer to an autosave replaces a newer edit and clears the edit mark |
| `DraftUnsavedSteps.MoveDropsExactly` | src/components/EmailSequenceWorkspace.tsx:253-710 | A listed text is looked after while it is what the server holds, or is on its way there in a call not stored yet, or is due to be replaced by what the server holds, or the page shows the banner for it or the edit mark. It stays so after a move of screen or server if and only if the move is not one that `DraftUnsaved.Drops` names: another draft put on screen; a draft generated; a save, a mark's save, a generation or a connected send answered by a throw, by a refusal that raises no banner for this text, by a success that takes mark and banner of another text down, or with a text the server no longer holds; a mark that hides the banner; another text stored for a connected send, for another session or for a call that threw |
| `DraftUnsavedRuns.TextIsTendedUnlessDropped` | src/components/EmailSequenceWorkspace.tsx:253-710 | In every run of screen and server from a freshly loaded page, with the server storing each call at a moment of its own and answers in any order, every listed text is looked after the whole time if and only if no move of the run is one of those |
| `DraftUnsavedRuns.RestingAgrees` | src/components/EmailSequenceWorkspace.tsx:389-402 | With no call in flight, no banner shown and no edit mark, the listed texts are what the server holds if and only if every text is looked after |
| `DraftUnsavedRuns.ScreenAndServerAgree` | src/components/EmailSequenceWorkspace.tsx:380-504 | A run without such a move that comes to rest ends with every listed text being what the server holds |
| `DraftUnsavedSteps.AnswersReplaceExactly` | src/components/EmailSequenceWorkspace.tsx:389-402 | Apart from editing and generating, an event changes the listed text of a draft if and only if it is the success of a save of that draft with another text: whatever was typed since that save began is gone |
| `DraftEffects.OnScreenIs` | src/components/EmailSequenceWorkspace.tsx:212-214 | The draft on screen is the listed one that is selected; if that id is not listed, the last one; none only for an empty list |
| `DraftEffects.MountedShows` | src/components/EmailSequenceWorkspace.tsx:177-217 | The screen opens on the last draft and its length, with nothing marked, announced or under way |
| `DraftEffects.EditLists` | src/components/EmailSequenceWorkspace.tsx:364-378 | For every state: where the editor is shown and enabled, typing gives the draft on screen the typed subject, or leaves its old one where none was typed, and likewise the body; its other fields, every other draft and the rest of the screen stay, except for the edit mark and the autosave; elsewhere nothing happens |
| `DraftEffects.LengthShows` | src/components/EmailSequenceWorkspace.tsx:945-958 | Choosing a length shows it and, with an unsent draft on screen, stores it in that draft alone and marks it edited; while a send or generation is under way nothing happens |
| `DraftEffects.DraftSelected` | src/components/EmailSequenceWorkspace.tsx:778-785 | Selecting a listed draft puts exactly it on screen with its own length if it has one; when that is another draft, prompt, edit mark and banner go; an unlisted id does nothing |
| `DraftEffects.LatestSelected` | src/components/EmailSequenceWorkspace.tsx:1034-1038 | The link back puts the last draft on screen and keeps the chosen length; prompt, edit mark and banner go if that is another draft |
| `DraftEffects.SaveStarts` | src/components/EmailSequenceWorkspace.tsx:410-451 | The button starts one save, of the text on screen, unless the draft is SENT or sending, a save is in flight or a send has the lock |
| `DraftEffects.RetryStarts` | src/components/EmailSequenceWorkspace.tsx:453-484 | A retry starts one save, of the banner's copy with its flag, with the length chosen now |
| `DraftEffects.AutosaveStarts` | src/components/EmailSequenceWorkspace.tsx:487-504 | The timer starts one save, of exactly what it was armed with, and is gone |
| `DraftEffects.SaveAnswerLists` | src/components/EmailSequenceWorkspace.tsx:380-446 | A successful answer lists the stored text for the saved draft alone; mark, banner and saving change only for the newest save: a success takes mark and its own banner down, a refusal puts up the banner with the copy and flag of the save, a throw does neither |
| `DraftEffects.ClientOpens` | src/components/EmailSequenceWorkspace.tsx:506-590 | A client is opened with exactly the subject and body on screen, at once or once the clipboard has the body, and the same copy is saved unless the draft was SENT; the cases in which nothing happens are exactly those listed |
| `DraftEffects.CopyKept` | src/components/EmailSequenceWorkspace.tsx:559-590 | While the clipboard is awaited the copy, length and status taken at the press are kept, and it is they that are saved and recorded; a failed copy only ends the hand-off |
| `DraftEffects.IntentRecorded` | src/components/EmailSequenceWorkspace.tsx:592-605 | A recorded intent dates exactly the draft that was handed off and raises the prompt; a refusal, a throw or a missing date does neither; the hand-off is over in any case |
| `DraftEffects.PromptAnswered` | src/components/EmailSequenceWorkspace.tsx:609-630 | Any answer takes the prompt down, which is up only for an unsent draft with a hand-off date; only yes goes on, to a mark of the copy on screen |
| `DraftEffects.MarkStarts` | src/components/EmailSequenceWorkspace.tsx:632-639 | Marking takes the lock and first saves the copy on screen, for a draft neither SENT nor sending with no send or generation under way |
| `DraftEffects.ConnectedStarts` | src/components/EmailSequenceWorkspace.tsx:677-692 | A connected send takes the lock and the copy on screen, under the same conditions and with a connected mailbox |
| `DraftEffects.MarkSaveAnswered` | src/components/EmailSequenceWorkspace.tsx:639-654 | The save before a mark: a success lists the stored text, takes mark and banner down and goes on to mark the same draft; a refusal ends the send with the banner up; a throw only ends it |
| `DraftEffects.MarkAnswered` | src/components/EmailSequenceWorkspace.tsx:654-673 | A successful mark makes exactly the marked draft SENT, at the time of the answer; a refusal or throw only gives up the lock |
| `DraftEffects.ConnectedAnswered` | src/components/EmailSequenceWorkspace.tsx:688-708 | A dated success makes exactly the sent draft SENT at that date and takes mark and banner down; anything else only gives up the lock |
| `DraftEffects.GenerationStarts` | src/components/EmailSequenceWorkspace.tsx:351-362 | A generation begins, remembering the length chosen, exactly where its button is shown and the campaign may be written to |
| `DraftEffects.GenerationLists` | src/components/EmailSequenceWorkspace.tsx:284-349 | A complete reply lists one draft with exactly its id, number, texts, status and length, undated, in place of the one with that id or besides all others, and puts it on screen with mark and banner down; an incomplete one only ends the generation |
| `DraftWitnesses.OpeningAnotherLeavesText` | src/components/EmailSequenceWorkspace.tsx:253-257 | A concrete run: an edit, and another draft is opened before the autosave; the server does not hold the text, no call is about it, and neither banner nor edit mark is |
| `DraftWitnesses.ThrowLeavesText` | src/components/EmailSequenceWorkspace.tsx:410-446 | A concrete run that ends so: an edit, its autosave, another draft opened, and the call of the autosave throws |
| `DraftWitnesses.ThrownHandoffLeavesText` | src/components/EmailSequenceWorkspace.tsx:416-445 | A concrete run: a client is opened with unsaved text, another draft is opened, and the save of the hand-off throws |
| `DraftWitnesses.LeavingTheBannerLeavesText` | src/components/EmailSequenceWorkspace.tsx:253-257 | A concrete run: the save of a hand-off is refused and announced, and opening another draft takes the banner away |
| `DraftWitnesses.StaleRefusalLeavesText` | src/components/EmailSequenceWorkspace.tsx:417-433 | A concrete run: a save is refused after a save of another draft has begun, and nothing is announced |
| `DraftWitnesses.AnotherSuccessLeavesText` | src/components/EmailSequenceWorkspace.tsx:434-437 | A concrete run: the newest save succeeds for another draft than the one being edited, which disarms the autosave |
| `DraftWitnesses.ArchivedEditLeavesText` | src/components/EmailSequenceWorkspace.tsx:487-504 | A concrete run: an edit in an archived campaign, where no autosave runs, and another draft is opened |
| `DraftWitnesses.MarkHidesTheBanner` | src/components/EmailSequenceWorkspace.tsx:656-675 | A concrete run: while a save is in flight another draft is opened and marked; its page announces the refusal of the save, and shows no banner once the draft is SENT |
| `DraftWitnesses.MarkOfAnotherLeavesText` | src/components/EmailSequenceWorkspace.tsx:637-655 | A concrete run: the save of a mark of another draft succeeds and takes the banner down |
| `DraftWitnesses.SendOfAnotherLeavesText` | src/components/EmailSequenceWorkspace.tsx:692-710 | A concrete run: the mailbox accepts another draft and the banner goes |
| `DraftWitnesses.GenerationLeavesText` | src/components/EmailSequenceWorkspace.tsx:284-362 | A concrete run: another draft has been generated anew and the banner goes |
| `DraftWitnesses.OlderAnswerHidesNewerText` | src/components/EmailSequenceWorkspace.tsx:389-418 | A concrete run: two saves of one draft are stored in order and answered in the other; the older text is listed, and nothing says that the server holds the newer one |
| `DraftSentSafety.OnlySendsMakeSent` | src/components/EmailSequenceWorkspace.tsx:632-710 | The only events that turn a draft SENT are a positive answer to marking it and a positive, dated answer to a connected send of it; no generation reply does |
| `DraftSentSafety.SendIsTraced` | src/components/EmailSequenceWorkspace.tsx:632-710 | Whatever send is in flight, the presses and answers that led to it are in the run, in order, for the same copy |
| `DraftSentSafety.SentOnlyWithEvidence` | src/components/EmailSequenceWorkspace.tsx:632-710 | In every run, a draft not SENT at the start is SENT later only after (a) a mark press, then a successful save of exactly the text on screen at that press, then a successful mark, or (b) a send press and a positive, dated answer from the mailbox for the text on screen at that press |
| `DraftOrder.RunKeepsOrder` | src/components/EmailSequenceWorkspace.tsx:325-335 | With numbers as the server assigns them, the draft list stays strictly sorted by sequence number, ids stay unique and the selection names a listed draft (none only for an empty list), in every run |
| `DraftOrder.NextEmailOnlyAfterLatestSent` | src/components/EmailSequenceWorkspace.tsx:216-225 | Generation of the next email starts only when the draft with the highest number is SENT and has a send time |
| `DraftHandoff.RunFixesSaves` | src/components/EmailSequenceWorkspace.tsx:414-418 | A save in flight keeps its payload for as long as it is in flight, and save numbers only grow |
| `DraftHandoff.StepEnqueues` | src/components/EmailSequenceWorkspace.tsx:410-416 | Each event starts at most one save, under the next number, with exactly the payload that event submits |
| `DraftHandoff.NewestAnswerBanner` | src/components/EmailSequenceWorkspace.tsx:416-445 | Whatever answers the newest save, a throw included, the banner shows exactly what it submitted if and only if the answer is a refusal, or a throw with that very banner up already |
| `DraftHandoff.FailedHandoffHoldsTheOpenedCopy` | src/components/EmailSequenceWorkspace.tsx:567-590 | Whatever happens after a client was opened with an unsent draft, and whatever answers the save of that hand-off while it is the newest: the banner holds exactly the copy the client was opened with if and only if the answer is a refusal, or a throw with that banner up already |
| `DraftHandoff.BannerSurvives` | src/components/EmailSequenceWorkspace.tsx:453-484 | Any number of failed retries, interleaved with anything that starts no other save and does not clear the banner, leaves the same copy and hand-off flag on it |
| `DraftHandoff.RetriesSubmitTheBanner` | src/components/EmailSequenceWorkspace.tsx:453-484 | In such a run every save that is begun is a retry, of exactly that copy and with that flag |
| `DraftHandoff.OpenedCopyIsKept` | src/components/EmailSequenceWorkspace.tsx:410-484 | From the opening of a client, over the refusal of its save while that is the newest, and through any number of failed retries among anything that does not supersede the banner: the banner holds the copy the client was opened with, and every save begun since the refusal is a retry of exactly that copy, as one that was handed off |
| `DraftHandoff.BannerLostExactly` | src/components/EmailSequenceWorkspace.tsx:253-257 | A banner is still up after an event if and only if the event is not one of: another draft put on screen, a draft generated, the success of the newest save of its draft, the refusal of another newest save, the success or refusal of a mark's save, a dated success of a connected send |
| `DraftHandoff.HandoffBannerIsTrue` | src/components/EmailSequenceWorkspace.tsx:420-431 | In every run, a banner or save that says its text was used for a send names a copy that a client was opened with, or that was on screen at a mark press |
| `EmailSequenceWorkspace.Workspace.constructor` | src/components/EmailSequenceWorkspace.tsx:177-217 | The screen mounts valid on the newest draft and its length |
| `EmailSequenceWorkspace.Workspace.SaveDraft` | src/components/EmailSequenceWorkspace.tsx:448-451 | The button does nothing while the newest save is in flight; otherwise it submits the text on screen of an editable draft |
| `EmailSequenceWorkspace.Workspace.AutosaveTimeout` | src/components/EmailSequenceWorkspace.tsx:487-504 | The timer submits what is on screen when it fires, for a draft neither SENT nor sending, under a new number |
| `EmailSequenceWorkspace.Workspace.SaveAnswered` | src/components/EmailSequenceWorkspace.tsx:410-446 | Only the newest save's answer may change the edit mark, the banner and `saving`, and `saving` then says whether the newest save is in flight |
| `EmailSequenceWorkspace.Workspace.OpenInEmailClient` | src/components/EmailSequenceWorkspace.tsx:506-563 | While a hand-off is in progress nothing changes; otherwise the client opens with the text on screen, at once or after the clipboard |
| `EmailSequenceWorkspace.Workspace.MarkAnswered` | src/components/EmailSequenceWorkspace.tsx:656-675 | The one draft that may change is the marked one; it is SENT then, and no edit of it is waiting |
| `EmailSequenceWorkspace.Workspace.SendConnected` | src/components/EmailSequenceWorkspace.tsx:677-692 | A send in progress is never replaced; otherwise the text on screen is sent |
| `EmailSequenceWorkspace.Workspace.Dispatch` | src/components/EmailSequenceWorkspace.tsx:177-710 | For any event, the object makes exactly the step of the protocol, handler and effects, and stays valid |
| `LookaheadMerge.MergeKeepsTidy` | src/components/EmailDraftsStage.tsx:77-122 | A merge keeps draft ids unique and the list strictly sorted by sequence number |
| `LookaheadMerge.MergeMembers` | src/components/EmailDraftsStage.tsx:93-121 | A result that lacks its id, a text, its number or its kind changes nothing. Any other leaves every draft with another id alone and lists one with its id, whose number, texts, kind and persona are the result's, whose source is the result's or the look-ahead, which is charged only if the result says so, is unsent and undated, and keeps of an old draft the stale reasons alone |
| `LookaheadMerge.LateResultReopensItsDraft` | src/components/EmailDraftsStage.tsx:93-121 | A SENT draft survives a merge if and only if the result is for another id; otherwise it becomes an unsent draft again |
| `LookaheadWitnesses.LateAnswerReopensASentDraft` | src/components/EmailDraftsStage.tsx:211-229 | A concrete run: the contact behind the reviewed one is generated for, its draft appears with a reload, is opened and sent before the answer of its generation arrives, and the answer shows it unsent again |
| `LookaheadMerge.MergeAllMembers` | src/components/EmailDraftsStage.tsx:77-122 | The drafts after any sequence of merges, without reference to their order or repetition: those that no complete result mentions, and for each complete result one draft that says, field by field, what the result says |
| `LookaheadMerge.MergeIsConfluent` | src/components/EmailDraftsStage.tsx:77-122 | Merging the same results in any order, any of them any number of times, gives the same drafts |
| `LookaheadMerge.DeliverAllPointwise` | src/components/EmailDraftsStage.tsx:217-223 | Each contact receives its own results; its other fields and all other contacts are untouched |
| `LookaheadMerge.LookaheadIsConfluent` | src/components/EmailDraftsStage.tsx:77-122 | Applying a look-ahead's results to the stage in any completion order, with any repetition, yields the same contacts |
| `LookaheadMerge.DeliveriesKeepTidy` | src/components/EmailDraftsStage.tsx:217-223 | After any deliveries every contact's drafts have unique ids and are strictly sorted |
| `LookaheadRuns.RunKeepsInv` | src/components/EmailDraftsStage.tsx:195-234 | In every run of the stage each look-ahead run has at most one request in flight, every contact shown as being prepared has one, and none is shown when nothing is in flight |
| `LookaheadRuns.ReviewKeyStartsOneRun` | src/components/EmailDraftsStage.tsx:198-208 | A contact and draft already offered for review starts no second run: offering it again changes nothing, generating it again only merges the draft |
| `LookaheadRuns.SupersededRunsAskNothing` | src/components/EmailDraftsStage.tsx:208-210 | Once a newer run has started, older runs issue no further request, whatever happens |
| `LookaheadRuns.MarksStayExact` | src/components/EmailDraftsStage.tsx:211-229 | If the marks were exactly the contacts with a request in flight, an answer keeps them exact if and only if no other request for its contact is in flight or its run goes straight on to that contact |
| `LookaheadRuns.StepUnmarksExactly` | src/components/EmailDraftsStage.tsx:195-229 | Marks that are exactly the contacts with a request in flight stay so after any event if and only if it is not an answer for a contact that another request is in flight for, whose run does not go straight on to that contact |
| `LookaheadRuns.ExactUnlessUnmarked` | src/components/EmailDraftsStage.tsx:195-229 | In every run of the stage the marks are exact the whole time if and only if no event of the run is such an answer |
| `LookaheadWitnesses.FirstAnswerTakesTheMark` | src/components/EmailDraftsStage.tsx:211-229 | A concrete run: the drafts of two contacts are reviewed one after the other, both look ahead to the third, and the first answer takes its mark away while the second request is in flight |
| `LookaheadRuns.SelectionIsTheUsers` | src/components/EmailDraftsStage.tsx:275-326 | In every run the queue is complete only with no contact selected, and nothing but selecting a contact or completing a send moves the selection |
| `LookaheadQuota.OnlyReportsCharge` | src/components/EmailDraftsStage.tsx:236-272 | A draft becomes shown as charged only through a positive answer to a commit for that very draft, a generation that was charged, or a reload |
| `LookaheadQuota.ChargesOnlyOnOpening` | src/components/EmailDraftsStage.tsx:236-283 | A charge is asked for once, only on opening a contact, and only for a draft of that contact that is look-ahead work with text, not charged yet |
| `LookaheadQuota.ChargeIsTraced` | src/components/EmailDraftsStage.tsx:236-272 | In every run, a draft shown as charged was so at the start, or some event of the run reported it |
| `LookaheadEffects.ReviewStarts` | src/components/EmailDraftsStage.tsx:195-210 | Opening a draft in an active stage starts one run, for a review key not seen before and if contacts were picked, which asks for the first of them; otherwise only the key is remembered, or nothing happens |
| `LookaheadEffects.AnswerLands` | src/components/EmailDraftsStage.tsx:209-231 | An answer takes its request out of flight and its contact's mark away; a usable result is merged into that contact alone; the run asks for its next contact if and only if it did not throw, is the newest and has one |
| `LookaheadEffects.GeneratedIsMerged` | src/components/EmailDraftsStage.tsx:494-516 | A draft generated on the open screen is merged into its contact alone, as charged AI work without a persona, and then counts as opened |
| `LookaheadEffects.OpeningCharges` | src/components/EmailDraftsStage.tsx:236-283 | Opening a contact selects it and asks for one charge, of the first of its look-ahead drafts that has text and is known to be uncharged, or for none if there is no such draft |
| `LookaheadEffects.SendMovesOn` | src/components/EmailDraftsStage.tsx:285-326 | A completed send makes exactly that draft of that contact SENT at that time; the next contact is selected and charged for, or, if there is none, nothing is selected and the queue is complete |
| `LookaheadEffects.ChargeAnswered` | src/components/EmailDraftsStage.tsx:250-269 | A granted charge marks exactly that draft of that contact as charged; a refused one changes no draft |
| `EmailDraftsStage.DraftsStage.constructor` | src/components/EmailDraftsStage.tsx:163-180 | The stage mounts with no run, no mark and nothing in flight |
| `EmailDraftsStage.DraftsStage.StartLookahead` | src/components/EmailDraftsStage.tsx:195-210 | A review key already offered changes nothing; what a new run asks for carries a number that no request in flight has |
| `EmailDraftsStage.DraftsStage.GenerationAnswered` | src/components/EmailDraftsStage.tsx:212-231 | Only the newest run asks on, and only for the next of its own contacts |
| `EmailDraftsStage.DraftsStage.Dispatch` | src/components/EmailDraftsStage.tsx:163-326 | For any event, the object makes exactly the step of the queue and stays valid |
| `TextDelta.TextDelta` | scripts/ad-hoc/measure-website-first-research.ts:128-137 | The counting loop returns one minus the share of positions, of the longer text, at which both texts agree (the size of the set of such positions), and zero for equal texts |
| `TextDelta.DeltaRange` | scripts/ad-hoc/measure-website-first-research.ts:128-137 | The distance lies between 0 and 1 |
| `TextDelta.DeltaSymmetric` | scripts/ad-hoc/measure-website-first-research.ts:128-137 | The distance is symmetric |
| `TextDelta.DeltaZero` | scripts/ad-hoc/measure-website-first-research.ts:128-137 | The distance is zero if and only if the texts are equal |
| `TextDelta.AgreementsChain` | scripts/ad-hoc/measure-website-first-research.ts:132-135 | Agreements of a text with two others, added up, exceed the agreements of those two by at most the middle text's positions within them |
| `TextDelta.DeltaTriangle` | scripts/ad-hoc/measure-website-first-research.ts:128-137 | The triangle inequality, for texts of any lengths |
| `MeasureResearch.LatestRows` | scripts/ad-hoc/measure-website-first-research.ts:184-187 | The Map loop keeps the first row of each company, in order |
| `MeasureResearch.KeepFirstRows` | scripts/ad-hoc/measure-website-first-research.ts:184-187 | One row per company that occurs, in the order of the rows |
| `MeasureResearch.LatestIsNewest` | scripts/ad-hoc/measure-website-first-research.ts:144-187 | On rows as the query orders them, the row kept is dated no earlier than any other of its company, unless some row of the company has no date, and then an undated row is kept |
| `MeasureResearch.UndatedRowIsKept` | scripts/ad-hoc/measure-website-first-research.ts:144-187 | Of an undated row in front of a dated one of its company, as the query orders them, the undated one is kept |
| `MeasureResearch.RegressionsChain` | scripts/ad-hoc/measure-website-first-research.ts:105-113 | A field lost between two snapshots was lost on exactly one side of any snapshot in between |
| `MeasureResearch.RegressionsAre` | scripts/ad-hoc/measure-website-first-research.ts:94-113 | The lost fields, in order: each of the four texts that was not blank and now is blank or missing, and the customer types if they were a non-empty list and are not now |
| `MeasureResearch.FieldTextIs` | scripts/ad-hoc/measure-website-first-research.ts:115-126 | The compared text is the six fields, each trimmed, on lines of their own |
| `MeasureResearch.ScoreWeighs` | scripts/ad-hoc/measure-website-first-research.ts:259-273 | A thousand input tokens weigh one, a text with nothing in common ten, another confidence two, a source one, a lost field three |
| `MeasureResearch.FieldsBalance` | scripts/ad-hoc/measure-website-first-research.ts:94-113 | Fields populated afterwards are those populated before, less the losses, plus the gains |
| `MeasureResearch.ZeroScore` | scripts/ad-hoc/measure-website-first-research.ts:263-276 | The change score is never negative, and zero if and only if input tokens, text, confidence and source count are the same and no primary field was lost |
| `MeasureResearch.ScoreTriangle` | scripts/ad-hoc/measure-website-first-research.ts:263-276 | The score of a change is at most the sum of the scores of its two halves |
| `MeasureResearch.BuildComparisonReport` | scripts/ad-hoc/measure-website-first-research.ts:253-409 | The report fails if and only if a before-row has no after-row for its company; otherwise it is the ranked comparison, its first three entries, and the entries with losses |
| `MeasureResearch.ReportIsRanked` | scripts/ad-hoc/measure-website-first-research.ts:257-323 | One entry per before-row, pairing it with the first after-row of its company, with the fields lost and the rounded score of that pair; the ranking is a permutation, descends by score, keeps ties in order, and nothing outside the top three outranks anything inside |
| `MeasureResearch.TopThreeIsTop` | scripts/ad-hoc/measure-website-first-research.ts:408 | With a rounding that keeps order, a change outside the top three is larger than one inside only where rounding made the scores equal |
| `MigrateButtonClasses.KeepLayout` | scripts/migrate-button-classes.ts:135-174 | The first loop keeps exactly the layout tokens that the shared class neither replaces nor covers, in order |
| `MigrateButtonClasses.ExtractExtras` | scripts/migrate-button-classes.ts:64-193 | The two loops compute the kept tokens followed by the missing overrides |
| `MigrateButtonClasses.ExtrasShape` | scripts/migrate-button-classes.ts:135-190 | The result is a subsequence of the tokens, namely those to be kept, followed by distinct overrides: exactly the important forms of other sizes that were not kept already |
| `MigrateButtonClasses.OtherSizesArePreserved` | scripts/migrate-button-classes.ts:176-190 | Every px, py, text-xs or text-[11px] token that is not a default size is present as an important override |
| `MigrateButtonClasses.ExtrasAre` | scripts/migrate-button-classes.ts:135-190 | What is in the result and what is not: the tokens that are not dropped for the kind of button, not covered and lay out, and the important forms of the other sizes |
| `MigrateButtonClasses.PaddingIsLayout` | scripts/migrate-button-classes.ts:21-22 | Of all tokens with a padding stem, those that lay out are the ones with one digit, or two with a point between them |
| `MigrateButtonClasses.ExtrasIdempotent` | scripts/migrate-button-classes.ts:64-193 | Feeding the result back in returns the same list, for both kinds of button |
| `ContactsProtocol.RunKeepsTickets` | src/components/CampaignContactsManager.tsx:131-199 | For any interleaving of prepare and retry calls with delayed answers and throws: the phase is running exactly while the newest preparation is in flight or after it threw, and once it has settled the phase is error or done |
| `ContactsProtocol.SupersededIsInert` | src/components/CampaignContactsManager.tsx:131-148 | An answer or throw of a superseded preparation changes nothing visible, starts no call, and only ends its own preparation |
| `ContactsProtocol.SupersededCallsNothing` | src/lib/campaign/list-preparation.ts:167-230 | Once a newer preparation has begun, an older one starts no further call to the server, in any continuation |
| `ContactsProtocol.StepKeepsCoherent` | src/components/CampaignContactsManager.tsx:131-199 | Every event keeps phase and data coherent, except exactly a retry while results are on screen |
| `ContactsProtocol.RunIsCoherent` | src/components/CampaignContactsManager.tsx:257-277 | In every run of the buttons the screen shows: done has a scoring run, no error and only rows that are qualification exceptions; error has no scoring run and no rows; running has no error, notice, scoring run or rows |
| `ContactsProtocol.StuckExactlyAfterThrow` | src/components/CampaignContactsManager.tsx:160-199 | A running screen whose newest preparation is no longer in flight is one whose newest preparation threw, and conversely |
| `ContactsProtocol.StuckForGood` | src/components/CampaignContactsManager.tsx:210-277 | Such a screen shows the same for ever: it offers no button, and no late answer changes it |
| `ContactsProtocol.ThrowStrandsTheScreen` | src/components/CampaignContactsManager.tsx:160-173 | The shortest run into it, with buttons the screen shows: a list is picked and the first call throws |
| `ContactsProtocol.PressesShow` | src/components/CampaignContactsManager.tsx:160-199 | Picking a list clears the screen and starts research under the next ticket; trying again keeps the failed run and its kind, and resumes that run if one is known |
| `ContactsProtocol.AnswerShows` | src/components/CampaignContactsManager.tsx:131-142 | For the newest preparation: a further call is awaited, or the error is shown with its message, its kind and the run to retry, and no result is left on screen |
| `ContactsProtocol.RowsShow` | src/components/CampaignContactsManager.tsx:143-158 | The result of a preparation is its scoring run, its message and, in order, exactly the loaded rows that are no match; rows that fail to load leave an error and no result |
| `ListPreparation.StartReply` | src/lib/campaign/list-preparation.ts:72-93 | From the reply to a start alone: scoring follows if and only if there was nothing to research; a poll of a run if and only if it was started under that id, by the view or else the result, or is running already; a retry with nothing to retry starts over; anything else is a research stop |
| `ListPreparation.PollReply` | src/lib/campaign/list-preparation.ts:95-123 | From the reply to a poll alone: the companies left are counted if and only if the run is completed or partial; it is polled again if and only if it is pending, or in progress and not stalled; otherwise, failed, cancelled or stalled, it is a research stop with the run's id, and without one if there is no run |
| `ListPreparation.GapReply` | src/lib/campaign/list-preparation.ts:131-140 | From the count alone: scoring follows if and only if it succeeded and no company is left; otherwise it is a research stop with the id of the run |
| `ListPreparation.CreationReply` | src/lib/campaign/list-preparation.ts:183-192 | From the reply to the creation alone: the scoring run named is scored if and only if it succeeded and named one; otherwise it is a scoring stop |
| `ListPreparation.ScoringReply` | src/lib/campaign/list-preparation.ts:148-160 | From the reply to the scoring alone: it is done if and only if scoring succeeded and did not end failed, with a message unless it is complete; otherwise it is a scoring stop |
| `ContactsEvidence.StagesAreTraced` | src/lib/campaign/list-preparation.ts:167-289 | For every preparation in flight, the answers behind its stage are in the run, in order: behind the count of companies, a poll of that run that found it completed or partial; behind scoring, that count or a start with nothing to research; and so on |
| `ContactsEvidence.ReadyOnlyWhenPrepared` | src/components/CampaignContactsManager.tsx:131-158 | In every run a list is shown as prepared only after the newest preparation itself was told that there was nothing to research, or polled a run that was completed or partial and was then told that no company is left; then created a scoring run, scored it and loaded its rows, in this order; what is shown is that run and those rows that are no match |
| `CampaignContactsManager.ContactsManager.constructor` | src/components/CampaignContactsManager.tsx:76-88 | The screen starts idle |
| `CampaignContactsManager.ContactsManager.PrepareList` | src/components/CampaignContactsManager.tsx:160-173 | The list is prepared under a ticket that no preparation in flight has, so that all of them are superseded |
| `CampaignContactsManager.ContactsManager.RetryResearch` | src/components/CampaignContactsManager.tsx:175-199 | The selected list is prepared under a new ticket; a failed research run is resumed, and only then |
| `CampaignContactsManager.ContactsManager.ShowResult` | src/components/CampaignContactsManager.tsx:143-158 | Whatever was on screen, the answer to the last call leaves a coherent screen: its run and exceptions only, or an error and no result |
| `CampaignContactsManager.ContactsManager.Answered` | src/components/CampaignContactsManager.tsx:92-199 | The answer for a superseded preparation shows nothing; the phase changes only from running, to an error or a result with which the rest of the screen agrees |
| `CampaignContactsManager.ContactsManager.Dispatch` | src/components/CampaignContactsManager.tsx:76-199 | For any event, the object makes exactly the step of the protocol and stays valid |
| `QualificationRules.RowKeyIsExact` | src/components/QualificationBuckets.tsx:127-129 | A row key identifies a row's type and id |
| `QualificationRules.CriterionKeyIsExact` | src/components/QualificationBuckets.tsx:287-292 | Two rows share a criterion if and only if their first details are of one kind and name it alike: by id, or by name where there is no id |
| `QualificationRules.PeersShareCriterion` | src/components/QualificationBuckets.tsx:279-292 | The peers of an eligible row are exactly the excluded rows with details, not kept, whose first detail names its criterion |
| `QualificationRules.GroupsAreWhole` | src/components/QualificationBuckets.tsx:278-301 | The groups have different criteria; each holds, in order, all eligible rows with its criterion, at least two |
| `QualificationRules.GroupsPartitionSharedRows` | src/components/QualificationBuckets.tsx:278-301 | Each row is listed, as often as it occurs, if and only if it is eligible and another eligible row shares its criterion; no row is in two groups |
| `QualificationRules.CountIsTotalSize` | src/components/QualificationBuckets.tsx:303-309 | The number in the heading is the sum of the group sizes if and only if no row key is listed twice |
| `QualificationRules.KeepingNeverReveals` | src/components/QualificationBuckets.tsx:267-276 | Keeping rows excluded takes them off the panel and never makes another row appear |
| `QualificationRules.KeepingAGroupRemovesIt` | src/components/QualificationBuckets.tsx:267-301 | With no row key twice, keeping a whole group removes that group and leaves all others as they were |
| `BulkRestore.BatchesPartitionTargets` | src/components/QualificationBuckets.tsx:223-231 | The batches are a permutation of the targets that have a run, one per run, each holding all targets of its run in order |
| `BulkRestore.OneRequestPerBatch` | src/components/QualificationBuckets.tsx:236-243 | One request per batch, in order, with the batch's run, the bucket asked for, the type of its first row and the ids of its rows in order; a throw is the last answer |
| `BulkRequests.OneRequestPerRun` | src/components/QualificationBuckets.tsx:223-247 | Said of the targets alone: one request for each run that a target has, in the order in which the runs first occur, each with that run's id, the bucket asked for, the type of the run's first target, and the ids of exactly the targets of that run, in order; without a throw no run is left out |
| `BulkRequests.UnaskedComeLater` | src/components/QualificationBuckets.tsx:236-247 | A run that a throw leaves unasked first occurs after every run that was asked |
| `BulkRequests.LastAnswerCounts` | src/components/QualificationBuckets.tsx:244-250 | The message shown is that of the last answer, the bucket that of the last answer that granted one |
| `BulkRequests.RowsShown` | src/components/QualificationBuckets.tsx:251-263 | Exactly the rows with the type and id of some target show the granted bucket, none after a throw or without a grant |
| `BulkRestore.RequestNamesItsBatch` | src/components/QualificationBuckets.tsx:237-243 | A request, which carries the type of its first row, names all rows of its batch if and only if they are of one type |
| `BulkRestore.RelabellingIsTruthful` | src/components/QualificationBuckets.tsx:236-263 | Whatever the server answers, only rows that a granted request named are relabelled: this holds if and only if the targets share one run and one type, or have no run |
| `BulkRestore.UnconfirmedRowIsShownRestored` | src/components/QualificationBuckets.tsx:236-263 | For any two rows of different runs, the second of which is refused, or of one run and different types, so that the request names the first alone: the second is shown as restored, which no answer confirmed |
| `QualificationBuckets.Buckets.ComputeExcludedGroups` | src/components/QualificationBuckets.tsx:278-301 | The reduction computes the groups |
| `QualificationBuckets.Buckets.ComputeExclusionContactCount` | src/components/QualificationBuckets.tsx:303-309 | The nested loops count the distinct row keys listed |
| `QualificationBuckets.Buckets.KeepExcluded` | src/components/QualificationBuckets.tsx:267-269 | Adds one row key to those kept |
| `QualificationBuckets.Buckets.KeepExcludedMany` | src/components/QualificationBuckets.tsx:271-277 | Adds the row keys to those kept, and no others |
| `QualificationBuckets.Buckets.Restored` | src/components/QualificationBuckets.tsx:197-217 | A single restore changes only the row it names, on a positive answer |
| `QualificationBuckets.Buckets.BatchByRun` | src/components/QualificationBuckets.tsx:223-231 | The loop computes the batches |
| `QualificationBuckets.Buckets.RestoreMany` | src/components/QualificationBuckets.tsx:219-265 | Sends, for each run that a target has and in the order of first occurrence, one request with that run, the bucket, the type of its first target and the ids of its targets, and shows the last message; only buckets change, only of rows asked for, and only once an answer was positive |
| `CommaLists.SplitIsTheOnlyCut` | src/lib/utils.ts:1-6 | A list of pieces is what splitting gives if and only if it is not empty, its pieces are comma-free and joining them with commas gives the text |
| `CommaLists.ParseIsClean` | src/lib/utils.ts:1-6 | Whatever the text, the items are trimmed, non-empty and comma-free |
| `CommaLists.ParseOfOnePiece` | src/lib/utils.ts:1-6 | A text without a comma is the one item left by trimming it, or none if nothing is left |
| `CommaLists.ParseAtComma` | src/lib/utils.ts:1-6 | At any comma, the items are those of the text in front of it followed by those of the text behind it |
| `CommaLists.ParseOfPrint` | src/lib/utils.ts:1-16 | Printing a list and parsing it back parses each item on its own |
| `CommaLists.PrintThenParse` | src/lib/utils.ts:1-16 | A printed list parses back to itself if and only if its items are trimmed, non-empty and comma-free |
| `CommaLists.CommaCutsAnItem` | src/lib/utils.ts:1-16 | Two clean items printed as one item, with a comma between them, come back as two |
| `CommaLists.ParsePrintParse` | src/lib/utils.ts:1-16 | Parsing, printing and parsing again gives what parsing gave, for every text |
| `CommaLists.PrintIsInjective` | src/lib/utils.ts:8-16 | Two such lists print alike only if they are equal |
| `WizardSafety.RunAgrees` | src/components/AddContactsWizard.tsx:75-222 | In every run, with files and answers arriving late: at the validate and name steps the validated rows are the validation of the current table under the current mapping, at the name step some row is importable, and the done step has a result |
| `WizardSafety.ImportSendsValidRows` | src/components/AddContactsWizard.tsx:177-222 | An import sends, under a name that is not blank, exactly the rows that are not invalid, in order, at least one, with the chosen mode and treatment of duplicates and, for an upload, the file name, with no other import in flight; nothing else sends |
| `WizardSafety.LateFileReturnsToPreview` | src/components/AddContactsWizard.tsx:120-144 | In every run, a readable file that is read late takes the wizard back to the preview of that file from any step |
| `WizardSafety.ImportableKeepsOrder` | src/components/AddContactsWizard.tsx:163-165 | The contacts sent are those of the subsequence of rows that are not invalid |
| `WizardEffects.FileTurnsUp` | src/components/AddContactsWizard.tsx:120-144 | A file read turns up at any step: a table with rows under headers is previewed with the mapping suggested for it, under the default name; an empty one is only complained about; an unreadable one leaves an error; a workbook's content is kept for its other sheets |
| `WizardEffects.FileIsPicked` | src/components/AddContactsWizard.tsx:120-140 | A file of a supported kind is noted by name and read; another kind is noted and complained about |
| `WizardEffects.PasteIsPreviewed` | src/components/AddContactsWizard.tsx:114-118 | Pasted text is taken in as a file's table is |
| `WizardEffects.SheetIsChanged` | src/components/AddContactsWizard.tsx:146-152 | Another sheet replaces table and mapping, and not the list name |
| `WizardEffects.MappingIsLeft` | src/components/AddContactsWizard.tsx:154-174 | An incomplete mapping is complained about; otherwise the current table is validated under it and its importable contacts are checked for duplicates |
| `WizardEffects.CheckIsAnswered` | src/components/AddContactsWizard.tsx:171-179 | A check shows its own duplicates, or its error |
| `WizardEffects.ImportIsPressed` | src/components/AddContactsWizard.tsx:182-204 | Without a name, or without a row to import, only a complaint; otherwise one import, when none is in flight |
| `WizardEffects.ImportIsAnswered` | src/components/AddContactsWizard.tsx:206-221 | With a list the wizard is done and shows the result; otherwise it shows an error where it is |
| `WizardEffects.WizardStartsOver` | src/components/AddContactsWizard.tsx:75-100 | Opening and closing forget everything but the calls in flight |
| `WizardEffects.InputsAreTaken` | src/components/AddContactsWizard.tsx:258-290 | Each plain input changes its own field, where the step shows it |
| `WizardEffects.StepsAreOffered` | src/components/AddContactsWizard.tsx:405-565 | The step buttons lead one step back, on from the preview, and on to the name once something can be imported and nothing is waited for |
| `WizardDuplicates.StepStalesExactly` | src/components/AddContactsWizard.tsx:163-175 | Duplicates on screen that are those of the rows to be imported stay so if and only if the event is not the last pending check answered for other rows, or failing while the right duplicates are not on screen |
| `WizardDuplicates.FreshUnlessStaled` | src/components/AddContactsWizard.tsx:163-175 | In every run, the duplicates shown with no check pending are those of the rows to be imported the whole time, if and only if no event of the run is such an answer |
| `WizardDuplicates.NameShowsItsDuplicates` | src/components/AddContactsWizard.tsx:163-175 | At the name step no check is pending, and in runs without such an answer the duplicates shown there are those of the rows about to be imported |
| `WizardWitnesses.FailedCheckIsForgotten` | src/components/AddContactsWizard.tsx:163-175 | A concrete run with a concrete library: the only check fails, and the wizard asks to import with a count of no duplicates |
| `WizardWitnesses.OlderCheckOverwrites` | src/components/AddContactsWizard.tsx:163-175 | A concrete run with a concrete library: two checks of different rows overlap, the older is answered last, and its duplicates are shown for the newer rows |
| `WizardFileNames.StepMisnamesExactly` | src/components/AddContactsWizard.tsx:118-149 | The file name an import would send, being that of the file the table came from, stays so if and only if the event is not a file read while another pick is the latest, or a sheet taken of another workbook than the one named |
| `WizardFileNames.NameIsTrueUnlessMisnamed` | src/components/AddContactsWizard.tsx:118-149 | In every run the name an import would send is true the whole time, if and only if no event of the run is such a read or sheet |
| `WizardWitnesses.OlderFileUnderNewerName` | src/components/AddContactsWizard.tsx:118-141 | A concrete run: two files are picked, the older is read first, and its table would be imported under the name of the other |
| `AddContactsWizard.Wizard.constructor` | src/components/AddContactsWizard.tsx:40-66 | The wizard starts closed and empty |
| `AddContactsWizard.Wizard.UploadRead` | src/components/AddContactsWizard.tsx:122-141 | Wherever the wizard is, it goes to the preview with a table, or stays at its step |
| `AddContactsWizard.Wizard.HandleContinueFromMap` | src/components/AddContactsWizard.tsx:151-175 | The validate step is reached if and only if the mapping has no error, and then with the validation of the current table and a check of its importable rows in flight |
| `AddContactsWizard.Wizard.DuplicateCheckAnswered` | src/components/AddContactsWizard.tsx:167-174 | An answered check shows its own duplicates whatever rows are validated by now; a failed one leaves those on screen |
| `AddContactsWizard.Wizard.HandleImport` | src/components/AddContactsWizard.tsx:177-200 | At the name step only a blank name is refused, and what is sent are the rows, at least one, that the validation of the current table lets through |
| `AddContactsWizard.Wizard.ImportAnswered` | src/components/AddContactsWizard.tsx:202-221 | The step changes only to done, on a positive answer with a list, whose result is then shown |
| `AddContactsWizard.Wizard.Dispatch` | src/components/AddContactsWizard.tsx:75-222 | For anything the screen offers, and any answer, the object makes exactly the step of the protocol and stays valid |
| `ResearchWorker.Worker.Run` | scripts/research-worker.ts:34-77 | For any outside world and any moments of SIGTERM: the log follows the protocol, no run is in flight at the end, and the shutdown is completed exactly when it was requested and no call outside a run threw |
| `ResearchWorker.Worker.TakeTurn` | scripts/research-worker.ts:43-66 | One turn of the loop leaves exactly the lines of that turn, which `WorkerProtocol.EveryTurnIsWorked` fixes: abandon stale runs, claim, and sleep if nothing was claimed or process the run that was |
| `ResearchWorker.Worker.Process` | scripts/research-worker.ts:52-66 | The claimed run is begun and then ends as the outside world says; a failure is logged and swallowed, and nothing stays in flight |
| `WorkerProtocol.LogsFollowProtocol` | scripts/research-worker.ts:43-67 | Every log the loop can leave is accepted by the protocol automaton, and between turns the worker is at the top of the loop or dead after a fatal error |
| `WorkerProtocol.EveryTurnIsWorked` | scripts/research-worker.ts:39-66 | After any turns, what the next one adds to the log, signals aside: unless a signal or a throw has ended the loop, stale runs are abandoned and a claim is begun; if it returns nothing the worker sleeps, and if it returns a run the worker begins that very run, which finishes or fails as the outside world says; after the end nothing is added |
| `WorkerProtocol.StartWork` | scripts/research-worker.ts:39-40 | The log opens with the schema being ready, or with the fatal error of the wait for it |
| `WorkerProtocol.SignalsAreHeard` | scripts/research-worker.ts:27-32 | SIGTERM is in the log if and only if it arrived at the start or while a call of some turn was waited for |
| `WorkerProtocol.ClaimIsFollowedUp` | scripts/research-worker.ts:45-66 | In any log that the automaton accepts, signals aside: a claim that returned is followed by sleep if and only if it returned nothing, otherwise by the beginning of the run it returned; a beginning is followed by the end of the same run; and neither sleep nor beginning comes otherwise |
| `WorkerProtocol.ClaimedRunsAreProcessed` | scripts/research-worker.ts:45-66 | In every log of the worker each claim that returned is followed up so: no claimed run is left unprocessed |
| `WorkerProtocol.OneRunAtATime` | scripts/research-worker.ts:46-66 | Each run begun settles before the next claim, the next begin and the end of the shutdown |
| `WorkerProtocol.ClaimFollowsSweep` | scripts/research-worker.ts:44-46 | Each claim comes directly after abandoning stale runs, signals aside |
| `WorkerProtocol.AtMostOneLateClaim` | scripts/research-worker.ts:27-46 | After SIGTERM at most one more claim is begun |
| `WorkerProtocol.FailuresDoNotStopTheLoop` | scripts/research-worker.ts:56-65 | The log with failing runs is the log in which all runs succeed, except for the lines of the failures |

## Left out

- Rendering, routing, popups, clipboard and session storage, form data: user interface and I/O.
- DraftSafety.MarkedEditsAreNeverSilent: speaks of the edit mark only; what becomes of the text is the subject of
  `DraftUnsaved`.
- Messages, personas, guidance, reply text, claim conflicts, personalization fields and draft kinds of the
  sequence screen: they do not take part in the save and send protocol.
- Stopping and restoring a sequence, and remounting the sequence screen for another contact: each mount is a
  run of its own.
- The email length that a mark's save submits is not traced into the evidence for SENT, only its subject and body.
- `visibleContacts`, `pickLookaheadContacts` and `pickNextContactAfterSend` of the drafts stage: the picked
  contacts are parameters of the events.
- Server actions, database, mail and AI providers, the clock: their answers are parameters.
- An error boundary that unmounts a screen after a throw in a transition: a throw only ends its call.
- The text of research stop messages (`researchStopMessage`) is a function parameter of the list preparation.
- The polling delay of the list preparation and of the worker: only that the wait ends.
- Parsers, mapping suggestion and row validation of the import: functions given to the wizard; a file is a
  text, and its kind is a function of its name.
- MeasureResearch.BuildComparisonReport: states the comparison, its ranking and the losses; does not state the
  summaries, cost estimates, pass rates and firmographics of the report, which are sums and shares over rows.
- MeasureResearch.ReportIsRanked: the score is an exact real, and the rounding of the score before ranking is an
  arbitrary function.
- Splitting a class string at white space, and the file scanning and rewriting of the button migration.
- Score details and persona choice on the qualification screen; the `pending` flag that disables its buttons.
- Characters are code points without surrogates in `CommaLists` and `MeasureResearch.FieldText`; the distance
  in `TextDelta` is proved for any alphabet, so for code units too.
- `toOptionalInt`, `formatDate` and the other helpers beside the comma lists: single-branch helpers.
- Middleware, redirects, other server actions and analysis scripts: no property beyond single-branch gates.
