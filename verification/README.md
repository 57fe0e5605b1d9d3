# Verification model of the property-tax platform

A Dafny model of the parts of the platform in which money, access and records of a municipality depend on several
writers or on two pieces of code that must agree. `dafny verify dfyconfig.toml` checks all of it.

## What is modelled

**The ledger.** Demands, payments, gateway callbacks, arrear rows and year-end runs are the rows of a `Database`
(`Services.dfy`) that `PaymentsService` and `DemandsService` update statement by statement. Each method is proved to
leave the database as a step of the state machine in `LedgerRuns.dfy`, and the laws of `LedgerLaws.dfy` hold over every
finite sequence of steps, as do those of `CarryLaws.dfy` on arrear rows and of `CarriedDebt.dfy` on what a survey owes
over two years. `CallbackLaws.dfy` says which gateway messages are believed, `LedgerFields.dfy` what each writer puts
into a row, column by column. A step is one request; the counter payment is two, its unlocked pre-check and its locked
commit, with anything in between.

**Receipts.** `Receipts.dfy` spreads a payment over the five heads with the loops of the source and compares them with
one cumulative fill function; `ReceiptRows.dfy` says what each name of the row shows, and `ReceiptLaws.dfy` joins this
to the assessment the heads come from.

**Tax.** `Tax.dfy`, `Assessment.dfy` and `Notice.dfy` model the engine, the assessment and the notice lines, which
compute the same tax a second time; `TaxClasses.dfy` has the charge of each class of property, `TaxLaws.dfy` rounding,
order and monotonicity, `RuleLaws.dfy` what each rebate and penalty rule does. `ReceiptBridge.dfy` follows a
survey through engine, assessment and ledger to the receipt of a counter payment.

**Sessions.** Database rows behind a cache that may lose any entry at any time (`SessionModel.dfy`,
`SessionServices.dfy`), with laws over runs of requests in `SessionRuns.dfy` and `SessionAccess.dfy`.

**Codecs.** Amounts in words with the reader that undoes them (`InrWords.dfy`), survey ids (`SurveyIds.dfy`,
`SurveyIdLaws.dfy`), the floor blob (`Floors.dfy`, `FloorText.dfy`, `FloorLaws.dfy`).

**Survey records and imports.** The table of surveys with its unique id, the id repair (`SurveyRecords.dfy`) and the
import job (`ImportModel.dfy`, `ImportService.dfy`, `ImportLaws.dfy`, `ImportOutcomes.dfy`, `SheetLaws.dfy`,
`ImportInstances.dfy`) with the audit's comparison of stored and proposed values (`SurveyAudit.dfy`).

Amounts are whole paise, times whole milliseconds, areas, rates and percentages real numbers. `None` stands for null,
undefined or a thrown error.

## Where the code differs from what it is for

- An amount of 2000 crore rupees or more is not said by its words: the table of units ends at nineteen
  (`InrWords.WordsSayTheNumberIff`, `InrWords.WordsClashFromTwoThousandCrore`).
- The notice lines differ from the engine's tax in two branches: where the engine falls back to an area no line shows,
  and where it charges the plot of open land that has floors (`Notice.NoticeAgreesIff`, with
  `Notice.BuiltWithoutAreasDiffers`, `Notice.OpenPlotWithFloorsDiffers` and `Notice.OpenLandFallbackDiffers`).
- Matrix rates are stored with four decimals and rounded to paise before they are multiplied by the area, so the tax of
  a large floor can be rupees away from the formula (`TaxLaws.HalvesSufficeIff`, `TaxLaws.PartPaiseRateInstance`).
- A single publication sets the arrears to 0 while the arrear rows stay (`LedgerLaws.SinglePublishKeepsMatchIff`,
  `CarryLaws.ArrearsLostByPublication`).
- A year-end commit leaves the source demand published with its outstanding and adds the same amount to the target, and
  paying either leaves the other as it is: the debt over the two years grows, and both copies can be collected
  (`CarriedDebt.CommitKeepsDebtIff`, `CarriedDebt.OneRupeePaidTwice`).
- The year-end preview, and so the commit, covers all unpaid demands only up to 5000 (`YearEndLaws.PreviewCompleteIff`,
  `CarryLaws.PreviewMissesOne`).
- The comment at `packages/types/src/survey-id.ts:159-163` says that rows with the same survey id and different parcels
  no longer collapse. They still do, for example when the repeated id is the canonical id of an earlier row
  (`SheetLaws.NewSheetIff`, `ImportInstances.TwoRowsOneRecord`).
- A row that an import leaves alone because no audited column changed keeps its old values in the columns that are not
  audited, such as the electricity id (`ImportLaws.SheetColumnsStoredIff`, `ImportLaws.UnauditedCorrectionIsLost`).
- Under UPDATE a found record is rewritten whenever it or the sheet has an area, because a stored decimal is compared as
  text and never equals the number of the sheet (`SurveyAudit.DecimalEqualsIff`, `ImportLaws.LeftAloneIff`,
  `ImportLaws.EqualAreaIsRewritten`).
- A printed floor with a building type but no usage type is read back with the building type as usage type
  (`FloorLaws.RoundTripIff`, `FloorLaws.BuildingAloneIsReadAsUsage`).

## Model

| member | source | states |
|---|---|---|
| LedgerLaws.LedgerAddsUp | apps/api/src/payments/payments.service.ts:1246-1301 | at every point of every refund-free run, a published demand has `amountPaid` equal to the SUCCESS payments of its survey and year and `outstanding` equal to `max(0, totalPayable - amountPaid)` |
| LedgerRuns.StepKeeps | apps/api/src/demands/demands.service.ts:327-348 | every step (online creation, callback, requery, counter pre-check and commit, publication, year-end commit) keeps the ledger invariant: balances agree with payments, a snapshot implies SUCCESS, unique columns stay unique |
| LedgerRuns.RunKeeps | apps/api/src/payments/payments.service.ts:1246-1301 | the invariant holds after any sequence of such steps |
| LedgerRuns.SettleCreditsAt | apps/api/src/payments/payments.service.ts:758-843 | a settlement raises the amount paid of each published demand by exactly what it adds to the SUCCESS payments counted for it |
| LedgerLaws.PaymentsGrowOverRuns | apps/api/src/payments/payments.service.ts:1229-1301 | between any two points of a run no payment disappears, leaves SUCCESS, or has its receipt number, collection date or snapshot rewritten |
| LedgerLaws.CreditedExactlyOnce | apps/api/src/payments/payments.service.ts:1180-1301 | any sequence of callbacks and requeries for one payment, repeated and in any order, credits a published demand its amount once if the payment reaches SUCCESS in it and not at all otherwise |
| LedgerLaws.GatewayStepFrame | apps/api/src/payments/payments.service.ts:1246-1301 | a callback or requery touches its own payment only, and of the demands only the balance of published ones |
| LedgerLaws.SuccessIsProcessed | apps/api/src/payments/payments.safety.ts:5-17 | a success with the right amount is dismissed as a duplicate only when the payment is already at SUCCESS |
| LedgerLaws.SuccessIsRecorded | apps/api/src/payments/payments.service.ts:1180-1301 | a success callback with the right amount and no clash of unique columns leaves the payment at SUCCESS, whatever callbacks came before |
| CallbackLaws.VerdictIs | apps/api/src/payments/payments.service.ts:1152-1227 | a callback that names no online payment is rejected; one whose row was processed is a duplicate unless it brings the success of a payment that is neither paid nor refunded; any other is processed if its amount is within one paise, or missing where none is required, and rejected if not |
| CallbackLaws.KeyOfCallback | apps/api/src/payments/payments.service.ts:64-73 | a callback is keyed by the idempotency key it brings, else by its merchant id |
| CallbackLaws.WrongAmountMovesNothing | apps/api/src/payments/payments.service.ts:1212-1227 | an amount more than one paise off, or missing where one is required, leaves payments and demands unchanged |
| CallbackLaws.OneRupeeIsRejected | apps/api/src/payments/payments.service.ts:75-81 | a success of one rupee for a payment of 5000 rupees is rejected and changes nothing |
| CallbackLaws.ProcessedWrites | apps/api/src/payments/payments.service.ts:1229-1301 | a processed callback sets SUCCESS, FAILED or keeps the status by its outcome, and writes gateway id, receipt number and date, unless another payment has the gateway id or receipt number: then nothing changes |
| CallbackLaws.ProcessedRow | apps/api/src/payments/payments.service.ts:1248-1309 | the row found for the callback, or a new one, then has its key and outcome and is processed; other rows stay |
| CallbackLaws.DuplicateChanges | apps/api/src/payments/payments.service.ts:1168-1210 | a duplicate may bring a gateway id onto its row, with key and outcome, and changes nothing else |
| CallbackLaws.RequeryWrites | apps/api/src/payments/payments.service.ts:1413-1516 | a successful requery ends at SUCCESS unless a unique column is taken, an unsuccessful one keeps status and money, and a citizen's leaves settled payments alone |
| CallbackLaws.StepToSuccess | apps/api/src/payments/payments.service.ts:1110-1516 | a step that takes a payment to SUCCESS is a success callback with a fitting amount, a successful requery, or a counter commit within the outstanding of a published demand |
| CallbackLaws.EverySuccessHasItsCause | apps/api/src/payments/payments.service.ts:1110-1516 | in every run from the empty ledger each payment at SUCCESS had such a confirmation or counter commit |
| LedgerFields.CreatedPayment | apps/api/src/payments/payments.service.ts:383-473 | an online payment is created for the outstanding of its published demand, else for the recomputed due, with its survey, year and link, and not at all for an amount that is not positive or a taken reference |
| LedgerFields.AdmittedIff | apps/api/src/payments/payments.service.ts:495-566 | a counter request is admitted if and only if its mode is not online and has its reference where needed, the survey is named, the client key is new, and the amount is positive and within the outstanding of a published demand |
| LedgerFields.RefusalIs | apps/api/src/payments/offline-rules.ts:23-83 | the first failing test of mode, survey, reference, publication and amount names the refusal |
| LedgerFields.AdmittedRequest | apps/api/src/payments/payments.service.ts:521-566 | it carries its demand, amount, mode and trimmed keys into the commit |
| LedgerFields.RecordedIff | apps/api/src/payments/payments.service.ts:576-693 | under the lock it is recorded if and only if the amount is still within the outstanding of the published demand and reference, receipt number and client key are new |
| LedgerFields.RecordedPayment | apps/api/src/payments/payments.service.ts:602-666 | the recorded payment is at SUCCESS, linked to its demand, and its snapshot shows each column of the demand before it, the amount and the balance after it |
| LedgerFields.CreditedSnapshot | apps/api/src/payments/payments.service.ts:758-843 | so does the snapshot of the first success of an online payment |
| LedgerFields.CounterReceiptShowsArrears | apps/api/src/payments/receipt-allocation.ts:78-113 | the receipt of a counter payment shows what it paid of the arrears of its demand |
| LedgerLaws.CounterCommitExact | apps/api/src/payments/payments.service.ts:576-667 | whatever ran between pre-check and locked commit, a recorded counter payment lowers `outstanding` by exactly its amount, never overpays, and changes nothing else |
| LedgerLaws.CounterNoCredit | apps/api/src/payments/payments.service.ts:521-600 | a pre-check, and a commit that is refused or replayed, moves no money |
| LedgerLaws.ClientKeyOnce | apps/api/src/payments/payments.service.ts:521-692 | over a whole run a client idempotency key belongs to at most one payment |
| LedgerLaws.CounterReceiptFits | apps/api/src/payments/payments.service.ts:602-648 | the snapshot of a counter payment recovers the outstanding before it exactly, and its receipt spreads over the heads without reaching the remainder branch |
| LedgerLaws.CreditedAsRecomputed | apps/api/src/payments/offline-rules.ts:88-96 | the incremental balance of a payment equals the balance a fresh assessment with the new amount paid gives |
| LedgerLaws.RepublishChangesNothing | apps/api/src/demands/demands.service.ts:272-400 | after any run at unchanged rates and rules, publishing an already published demand again with arrears preserved leaves the ledger as it is |
| WardPublication.WardRepublishKeepsPublished | apps/api/src/demands/demands.service.ts:148-230 | publishing a whole ward leaves every already published demand as payments and carries had left it |
| WardPublication.PublishAllAt | apps/api/src/demands/demands.service.ts:186-206 | publishing a ward writes each listed demand once, from its own row and payments, and no other row |
| WardPublication.PageAfter | apps/api/src/demands/demands.service.ts:172-209 | the page after the last id served starts at the first survey not yet served |
| LedgerLaws.ArrearsMatchRows | apps/api/src/demands/demands.service.ts:754-820 | while no single publication takes place, every demand's `arrears` is the sum of its arrear rows |
| LedgerLaws.SinglePublishKeepsMatchIff | apps/api/src/demands/demands.service.ts:100-146 | a single publication resets `arrears` to 0; it then equals the sum of the rows if and only if the demand has no rows |
| CarryLaws.PublishAfterCarry | apps/api/src/demands/demands.service.ts:100-146 | publishing a freshly carried demand alone leaves its rows and sets its arrears to 0, so that they differ |
| CarryLaws.PublishCarryPublish | apps/api/src/demands/demands.service.ts:100-146 | for any survey, pair of years and base tax with something due, the run publish, carry, publish from the empty ledger ends with arrears that differ from the rows |
| CarryLaws.ArrearsLostByPublication | apps/api/src/demands/demands.service.ts:100-146 | that run for one rupee of 2024 carried into 2025 |
| LedgerFields.PublishedDemandOf | apps/api/src/demands/demands.service.ts:327-400 | a published demand shows the engine's property, water and drainage tax of its survey, the penalty and rebate of its rules, its arrears, what was paid, and its old arrear rows; nothing else changes |
| OfflineRules.CheckAmount | apps/api/src/payments/offline-rules.ts:52-74 | a counter amount passes if and only if it is positive and at most the outstanding; the tolerance of half a paise admits nothing more |
| YearEndLaws.CommitEffect | apps/api/src/demands/demands.service.ts:758-820 | a commit keeps existing arrear rows, gives every previewed demand its row for the source year, sets `arrears` of a carried target to the sum of its rows with matching totals, and leaves other demands alone |
| CarryLaws.LaterCommitChangesNothing | apps/api/src/demands/demands.service.ts:736-750 | once a pair of years was committed in a run, committing it at any later point changes nothing, whatever happened in between and whatever its preview then shows |
| CarryLaws.CarriesKeptOverRuns | apps/api/src/demands/demands.service.ts:786-800 | between any two points of a run committed pairs of years stay committed with their summary, no demand disappears and no arrear row is changed or removed |
| YearEndLaws.CarriedRowsAreSkipped | apps/api/src/demands/demands.service.ts:786-792 | even without the record of the first run, demands that already have their row are skipped |
| YearEndLaws.PreviewCompleteIff | apps/api/src/demands/demands.service.ts:674-693 | the preview lists published demands with something outstanding, and all of them if and only if there are at most 5000 |
| CarryLaws.PreviewMissesOne | apps/api/src/demands/demands.service.ts:674-693 | with 5001 demands of one rupee unpaid, every preview misses one |
| YearEndLaws.CommitReachesAll | apps/api/src/demands/demands.service.ts:752-820 | with at most 5000 unpaid demands, each has its arrear row after the commit |
| YearEndLaws.YearEndCommitsCommute | apps/api/src/demands/demands.service.ts:754-820 | committing two years into a third gives the same ledger in either order |
| YearEndLaws.CarryAllRow | apps/api/src/demands/demands.service.ts:758-820 | after the loop each target depends on its own row before and its own amount only |
| YearEnd.CarriedAndSkippedAddUp | apps/api/src/demands/demands.service.ts:786-827 | the carried and the skipped rows, each counted on its own, add up to the previewed ones |
| LedgerFields.CreatedTarget | apps/api/src/demands/demands.service.ts:770-800 | a target that did not exist becomes a draft that owes the outstanding of the source demand and nothing else |
| LedgerFields.CarriedTarget | apps/api/src/demands/demands.service.ts:786-818 | a target that existed gets the row for the source year, its arrears are the sum of its rows with matching totals, and every other column stays |
| LedgerFields.CommittedSummary | apps/api/src/demands/demands.service.ts:822-850 | the record of a commit has the number previewed, the sum of their outstandings, and how many of them had no row of the year |
| CarriedDebt.ArrearsNeverExceedRows | apps/api/src/demands/demands.service.ts:100-820 | in every run from the empty ledger, single publications included, the arrears of a demand are at most the sum of its rows |
| CarriedDebt.CommitKeepsDebtIff | apps/api/src/demands/demands.service.ts:758-820 | at any point of any run a commit never lowers what a survey owes for the two years together, and leaves it the same if and only if the survey was not previewed, its row was already there, or the target was overpaid by at least the carried amount |
| CarriedDebt.CommitDoublesDebt | apps/api/src/demands/demands.service.ts:758-820 | where the target is new, or its arrears are its rows and it is not overpaid, the debt of the two years grows by the whole carried amount |
| CarriedDebt.BothCopiesPaid | apps/api/src/demands/demands.service.ts:758-820 | for any survey, pair of years and base taxes with something due in the first, there is a run from the empty ledger that publishes, carries, publishes with arrears and takes both payments at the counter: the demand of the first year is collected for it and once more for the second |
| CarriedDebt.OneRupeePaidTwice | apps/api/src/demands/demands.service.ts:758-820 | that run with one rupee of tax in each year: one is paid for 2024, two for 2025 |
| Services.PaymentsService.CreateOnlinePayment | apps/api/src/payments/payments.service.ts:383-473 | leaves the store as the creation step: a PENDING or FAILED payment of the payable amount, or no row |
| Services.PaymentsService.ApplyOnlineSuccessToDemand | apps/api/src/payments/payments.service.ts:758-843 | credits the published demand of the payment, found directly or by survey and year, and returns the receipt snapshot |
| Services.PaymentsService.SettlePayment | apps/api/src/payments/payments.service.ts:1246-1301 | the transaction credits only a first success and is undone by a clash on a unique column |
| Services.PaymentsService.HandleCallback | apps/api/src/payments/payments.service.ts:1110-1361 | rejects, recognises a duplicate, or processes, leaving the store as the callback step of the model |
| Services.PaymentsService.ProcessCallback | apps/api/src/payments/payments.service.ts:1229-1301 | the callback row is recorded and marked processed together with the settlement, or neither happens |
| Services.PaymentsService.FinalizeRequery | apps/api/src/payments/payments.service.ts:1375-1516 | staff requery and citizen sync leave the store as the requery step of the model |
| Services.PaymentsService.BeginOffline | apps/api/src/payments/payments.service.ts:495-566 | validation, replay of a known client key and unlocked pre-check; no row is written |
| Services.PaymentsService.CommitOffline | apps/api/src/payments/payments.service.ts:576-693 | re-check under the lock, payment, balance and snapshot, or a refusal or replay |
| Services.DemandsService.SumSuccessPayments | apps/api/src/demands/demands.service.ts:428-444 | returns the SUCCESS payments of the survey and year |
| Services.DemandsService.UpsertPublishedDemand | apps/api/src/demands/demands.service.ts:272-400 | writes the assessed demand with arrears preserved or reset, keeping its arrear rows |
| Services.DemandsService.Publish | apps/api/src/demands/demands.service.ts:100-146 | publishes one survey from the engine's tax and resets arrears |
| Services.DemandsService.PublishForWard | apps/api/src/demands/demands.service.ts:148-230 | the paged loop publishes every survey of the ward once, from the engine's tax, and `created` counts exactly those without a demand before |
| Services.DemandsService.PreviewYearEnd | apps/api/src/demands/demands.service.ts:671-727 | proposes each unpaid demand's outstanding and their total |
| Services.DemandsService.CarryRow | apps/api/src/demands/demands.service.ts:759-819 | creates a missing target, skips one already carried, otherwise adds its row and rewrites its totals |
| Services.DemandsService.CommitYearEnd | apps/api/src/demands/demands.service.ts:729-868 | leaves the ledger as the commit of the model; `carried + skipped` is the number of previewed demands |
| SessionRuns.CacheIsTransparent | apps/api/src/auth/session.service.ts:163-228 | along every run, with entries evicted at any time, each lookup answers as in the run that never uses the cache, and both hold the same rows |
| SessionRuns.FindIgnoresCache | apps/api/src/auth/session.service.ts:163-228 | one lookup accepts the same session, and revokes the same rows, as a lookup in the rows alone |
| SessionRuns.RequestKeeps | apps/api/src/auth/session.service.ts:230-340 | every request keeps each cache entry equal to an unrevoked row with the same token hash, through touch, rotation and revocation |
| SessionRuns.RunKeeps | apps/api/src/auth/session.service.ts:104-340 | cache and rows agree along every run |
| SessionRuns.LifetimeIsBounded | apps/api/src/auth/session.service.ts:153-228 | whatever touches and rotations lie between, no session is accepted at or after creation plus the absolute timeout, last activity plus the idle timeout, or its expiry |
| SessionRuns.RevokedForEver | apps/api/src/auth/session.service.ts:242-288 | once revoked a session is accepted by no later request of any run |
| SessionRuns.RequestsThatRevoke | apps/api/src/auth/session.service.ts:242-288 | logout, deletion by id, bulk revocation and a lookup of an expired session revoke the row |
| SessionAccess.AcceptedIff | apps/api/src/auth/session.service.ts:163-228 | a request is accepted as a session if and only if the session's row has the trimmed token, is unrevoked, and the time is before its expiry, before its last activity plus the idle timeout and before its creation plus the absolute timeout |
| SessionAccess.LookRow | apps/api/src/auth/session.service.ts:163-228 | a lookup changes nothing but that it revokes the row of its token once one of the three limits has passed |
| SessionAccess.LoginRow | apps/api/src/auth/session.service.ts:130-151 | a new row is active now and expires in seven days |
| SessionAccess.UseRow | apps/api/src/auth/session.service.ts:313-350 | the row of an accepted request is active now; with less than a day to its expiry it gets the new token and seven days |
| SessionAccess.RequestKeepsGood | apps/api/src/auth/session.service.ts:242-340 | a request that is no logout or revocation of a live session keeps it, no nearer to its limits |
| SessionAccess.StaysAccepted | apps/api/src/auth/session.service.ts:153-228 | after an accepted request the session is accepted, under the token its row then has, until the idle timeout after that request, the absolute timeout and the expiry, while no request ends it |
| SessionServices.SessionService.CreateSession | apps/api/src/auth/session.service.ts:130-151 | a new row and its cache entry |
| SessionServices.SessionService.FindValidSession | apps/api/src/auth/session.service.ts:163-228 | cache first, then rows, with expiry in both, leaving the store as the lookup of the model |
| SessionServices.SessionService.TouchSession | apps/api/src/auth/session.service.ts:230-240 | moves the last activity in row and cache |
| SessionServices.SessionService.RefreshSessionIfNeeded | apps/api/src/auth/session.service.ts:313-340 | rotates the token near expiry and drops the old entry, otherwise touches |
| SessionServices.SessionService.Authenticate | apps/api/src/auth/auth.guard.ts:47-71 | lookup, refresh and touch as one request |
| SessionServices.SessionService.DeleteSessionByToken | apps/api/src/auth/session.service.ts:242-250 | drops the entry and revokes the row of the token |
| SessionServices.SessionService.DeleteSessionById | apps/api/src/auth/session.service.ts:252-263 | revokes the user's own live row and drops its entry |
| SessionServices.SessionService.RevokeAllUserSessions | apps/api/src/auth/session.service.ts:265-288 | revokes every live row of the user but the excepted one, with their entries |
| Receipts.ReceiptsTelescope | apps/api/src/payments/receipt-allocation.ts:60-147 | for payments within the dues, each head's receipts add up to the growth of its cumulative fill |
| Receipts.SplittingIsIrrelevant | apps/api/src/payments/receipt-allocation.ts:60-147 | two ways of splitting the same total give every head the same amount |
| Receipts.AmountAppliedIsReceived | apps/api/src/payments/receipt-allocation.ts:101-146 | the applied amounts add up to the amount received even when the remainder branch fires |
| Receipts.NoRemainderIff | apps/api/src/payments/receipt-allocation.ts:115-138 | the remainder branch stays unused if and only if the amount received is not negative and at most the unpaid dues |
| Receipts.ReceiptWithinDues | apps/api/src/payments/receipt-allocation.ts:86-138 | a payment within the dues over-applies no head and fires no remainder |
| Receipts.ShareTotal | apps/api/src/payments/receipt-allocation.ts:86-113 | the shares of a payment add up to the part of it that the dues can take |
| Receipts.TakeInOrder | apps/api/src/payments/receipt-allocation.ts:101-113 | the second loop takes from the heads in order, each at most its unpaid due |
| Receipts.BuildReceiptAllocation | apps/api/src/payments/receipt-allocation.ts:60-147 | the two loops and the remainder branch give the receipt's row, whose parts add up to what was received |
| ReceiptRows.RowIs | apps/api/src/payments/receipt-allocation.ts:60-147 | for every input: arrears, property tax net of the rebate, water, drainage and penalty show their part of the payment in this order, and an excess goes to the last of penalty, drainage and water still open, else to property tax |
| ReceiptRows.LabelIs | apps/api/src/payments/receipt-allocation.ts:63-64 | the row is labelled with the trimmed name of its year, or a dash |
| ReceiptRows.RowWithinDues | apps/api/src/payments/receipt-allocation.ts:78-113 | within the dues no name shows more than its due, none shows anything before those in front of it are full, and they add up to the payment |
| ReceiptRows.ArrearsComeFirst | apps/api/src/payments/receipt-allocation.ts:78-113 | of 300 rupees paid on 300 of arrears, 1000 of property tax and 50 of penalty all are shown as arrears |
| ReceiptLaws.HeadsCoverPayable | apps/api/src/payments/receipt-allocation.ts:70-84 | the heads of any assessment sum to at least `totalPayable`, with equality if and only if the rebate is at most the property tax or the other current heads are 0 |
| ReceiptLaws.ReceiptWithinPayable | apps/api/src/payments/receipt-allocation.ts:66-138 | a payment keeping the total within `totalPayable` never over-applies a head nor reaches the remainder |
| TaxLaws.ExportTaxNonNegative | apps/api/src/tax/tax-calc.ts:269-530 | for non-negative percentages and floor areas no part of the summary is negative, whatever the matrix rates |
| ReceiptBridge.SurveyHeadsCoverPayable | apps/api/src/payments/receipt-allocation.ts:70-84 | the receipt heads of any assessed survey sum to at least `totalPayable` |
| ReceiptBridge.SurveyReceiptFits | apps/api/src/payments/payments.service.ts:602-648 | after any run whose base taxes the engine computed, the snapshot of every counter payment recovers the outstanding before it and its receipt needs no remainder |
| ReceiptLaws.OutstandingBeforeIff | apps/api/src/payments/receipt-allocation.ts:35-53 | the recovered outstanding is exact if and only if the payment exceeds it by at most 2 paise |
| Tax.ExportTax | apps/api/src/tax/tax-calc.ts:269-530 | `totalDemand` is the sum of its four parts in every branch; open land has no water and drainage tax |
| Tax.ChargeFloors | apps/api/src/tax/tax-calc.ts:336-401 | the floor loop returns the sums of the floors' taxes and assessable values and whether any floor has area |
| Tax.ComputeSurveyExportTax | apps/api/src/tax/tax-calc.ts:269-530 | the loop, the plot fallback and the open-land replacement together give the summary, or none for a blank zone |
| TaxLaws.FloorOrderIrrelevant | apps/api/src/tax/tax-calc.ts:336-480 | the summary does not depend on the order of the floors |
| TaxLaws.BuiltTaxRoundingError | apps/api/src/tax/tax-calc.ts:89-124 | for built property with percentages at most 100, the property tax is within 1.5 paise per floor, plus half a paise of rate over its area where the rate is not whole paise, of the formula without any rounding |
| TaxLaws.BuiltTaxErrorAtWholeRates | apps/api/src/tax/tax-calc.ts:114-124 | with rates of whole paise the property tax is within 1.5 paise per floor of the formula without any rounding |
| TaxLaws.HalvesSufficeIff | apps/api/src/tax/tax-calc.ts:89-124 | the bound of 1.5 paise holds for a floor of every area if and only if its effective rate is a whole number of paise |
| TaxLaws.PartPaiseRateInstance | apps/api/src/tax/tax-calc.ts:96-99 | 1000 square feet at 1.255 rupees are taxed 1209.60 where the formula gives 1204.80 |
| TaxLaws.TotalDemandMonotoneInRates | apps/api/src/tax/tax-calc.ts:126-152 | raising matrix rates never lowers the total demand of a built property with area |
| TaxClasses.CommercialFloor | apps/api/src/tax/tax-calc.ts:74-100 | a floor of a commercial property is charged twice its matrix rate at the commercial percentage |
| TaxClasses.ResidentialFloor | apps/api/src/tax/tax-calc.ts:74-100 | a floor of a residential property is charged its matrix rate once at the residential percentage, whatever its usage texts say |
| TaxClasses.FloorByItsOwnUse | apps/api/src/tax/tax-calc.ts:35-100 | in a mixed or unclassified property a floor with a usage type is charged by that type alone: double and commercial for shops, the full value where it says open, else like a house |
| TaxClasses.BuiltPropertyIsCharged | apps/api/src/tax/tax-calc.ts:336-452 | built property is charged the sum over its floors or, where no floor has an area or adds a value, its plot, else built-up, else plinth area at the zone's open-land or first positive rate; water and drainage are their own percentages of the assessed value, the penalty one of the property tax |
| TaxClasses.OpenLandIsCharged | apps/api/src/tax/tax-calc.ts:454-480 | open land is charged its plot at the full value, without a plot or rate like built property, and neither water nor drainage |
| TaxClasses.CommercialInstance | apps/api/src/tax/tax-calc.ts:74-124 | a shop of 1000 square feet at one rupee with percentages 80 and 60: property tax 1440, water 720, drainage 360 rupees |
| Tax.TaxConfigToRateTable | apps/api/src/reports/ward-tax-report-excel.ts:354-391 | the loop over the cells of a tax configuration builds its rate table |
| Tax.MatrixHoldsLast | apps/api/src/reports/ward-tax-report-excel.ts:370-373 | the matrix of that table holds the last rate given for a cell |
| Tax.AnyRateIsFirst | apps/api/src/reports/ward-tax-report-excel.ts:374-376 | the rate of any kind of a zone is its first positive one, whose cell is in the matrix as well |
| Assessment.HeadAdjustmentBounds | apps/api/src/tax/tax-calc.ts:532-554 | an adjustment by a non-negative rule value is never negative and never more than its head |
| Assessment.AssessedAmountsNonNegative | apps/api/src/tax/tax-calc.ts:562-594 | no sane rule set gives a negative rebate or penalty |
| Assessment.ComputePropertyAssessment | apps/api/src/tax/tax-calc.ts:556-610 | the rule loops compute the assessment |
| RuleLaws.AssessmentFields | apps/api/src/tax/tax-calc.ts:556-610 | the heads are those of the base tax, the current demand is their sum with penalty less rebate, and payable and outstanding follow |
| RuleLaws.NoRules | apps/api/src/tax/tax-calc.ts:564-585 | without rules there is no rebate and the penalty is that of the tax configuration |
| RuleLaws.RebateAppended | apps/api/src/tax/tax-calc.ts:562-571 | one rebate rule more takes its flat value or percentage, capped by its cap and the head, of the property tax or of the water tax as its head says, and leaves the penalty |
| RuleLaws.PenaltyAppended | apps/api/src/tax/tax-calc.ts:573-590 | the first property penalty replaces the configured one, later ones add, a water penalty always adds its part of the water tax |
| RuleLaws.HeadWithoutRules | apps/api/src/tax/tax-calc.ts:562-590 | without rules on a head, rebate and penalty do not depend on the tax of that head |
| RuleLaws.RuleOrderIrrelevant | apps/api/src/tax/tax-calc.ts:562-590 | the order of the rules is irrelevant |
| RuleLaws.TenPercentRebate | apps/api/src/tax/tax-calc.ts:562-571 | ten percent off 1000 rupees of property tax leave 900 to pay |
| Notice.BuildNoticeFloorLines | apps/api/src/public-property-tax/dues.util.ts:93-180 | the loop pushes exactly the notice lines of the survey |
| Notice.LineShowsFloor | apps/api/src/public-property-tax/dues.util.ts:93-144 | a line shows the floor's label and area, the monthly rate, and the charge at that rate |
| Notice.NoticeAgreesOnBuiltProperty | apps/api/src/public-property-tax/dues.util.ts:93-180 | for built property with area the taxes of the notice lines sum to the engine's property tax |
| Notice.NoticeAgreesOnOpenLand | apps/api/src/public-property-tax/dues.util.ts:146-177 | for open land without floors they do too, the mixed class included |
| Notice.NoticeAgreesIff | apps/api/src/public-property-tax/dues.util.ts:93-180 | for non-negative rates and areas the lines sum to the engine's property tax if and only if the plot charge of open land with floors equals the charge on its floors, and elsewhere a fallback charge that no line shows is 0 |
| Notice.BuiltWithoutAreasDiffers | apps/api/src/tax/tax-calc.ts:398-431 | a house with a 1000 square foot plot and no floor areas: engine 960 rupees, lines 0 |
| Notice.OpenPlotWithFloorsDiffers | apps/api/src/tax/tax-calc.ts:454-480 | open land of 1000 square feet with a floor: engine 1200 rupees, lines 0 |
| Notice.OpenLandFallbackDiffers | apps/api/src/tax/tax-calc.ts:398-431 | open land with a floor, no plot area and 1000 square feet built up: engine 1200 rupees, lines 0 |
| InrWords.IntegerToIndianWords | apps/api/src/payments/inr-words.ts:59-77 | the grouping with pushed parts gives the words of the number |
| InrWords.WordsSayTheNumberIff | apps/api/src/payments/inr-words.ts:39-77 | a left-to-right reader gets the number back from its words if and only if it is below 2000 crore |
| InrWords.WordsAreInjective | apps/api/src/payments/inr-words.ts:59-77 | below 2000 crore different numbers have different words |
| InrWords.WordsClashFromTwoThousandCrore | apps/api/src/payments/inr-words.ts:46-56 | from 2000 crore on a number and the one 100 crore above it have the same words |
| InrWords.AmountWordsSayTheAmountIff | apps/api/src/payments/inr-words.ts:83-104 | the reader gets the paise back from the amount in words if and only if the rupees are below 2000 crore |
| InrWords.AmountWordsAreInjective | apps/api/src/payments/inr-words.ts:83-104 | below that bound different whole-paise amounts have different words |
| SurveyIdLaws.ParsesIff | packages/types/src/survey-id.ts:30-54 | an id parses if and only if, trimmed, it is five fields in the documented format |
| SurveyIdLaws.ParseAfterGenerate | packages/types/src/survey-id.ts:33-95 | parsing a generated id gives the normalized parts for a numeric ULB code and at most three ward digits, and nothing otherwise |
| SurveyIdLaws.GenerateAfterParseIff | packages/types/src/survey-id.ts:33-95 | printing the parts of an id gives the id back if and only if it is canonical: trimmed, capital letter, padded numbers |
| SurveyIdLaws.GeneratedIsCanonical | packages/types/src/survey-id.ts:88-95 | every generated id that parses is canonical |
| SurveyIdLaws.GenerateIsInjective | packages/types/src/survey-id.ts:88-95 | equal generated ids have equal normalized parts |
| SurveyIdLaws.WardSurvivesIff | packages/types/src/survey-id.ts:56-62 | a generated id parses if and only if the ward number is below 1000; wards 1 to 999 come back from it |
| SurveyIdLaws.BuiltIdNames | packages/types/src/survey-id.ts:97-118 | an id built from a record names the ULB, the ward's number, and the record's own parcel, property and use, each from the old id only where the record has none |
| SurveyRecords.SurveyTable.RepairSurveyIdIfNeeded | apps/api/src/surveys/survey-id.util.ts:123-149 | keeps the id, rewrites the record, or is refused by the unique index when a deleted record holds the id |
| SurveyRecords.RepairedNeedsNoRepair | apps/api/src/surveys/survey-id.util.ts:79-149 | a record the repair has written never needs repair again, for every input |
| SurveyRecords.NeedsRepairAfterIff | apps/api/src/surveys/survey-id.util.ts:94-149 | after a repair the record still needs it if and only if another record holds the id it should carry |
| SurveyRecords.RepairKeeps | apps/api/src/surveys/survey-id.util.ts:123-149 | ids stay unique; other records and the other columns of this one are unchanged |
| SurveyRecords.RepairIsIdempotent | apps/api/src/surveys/survey-id.util.ts:123-149 | repairing twice leaves the rows of repairing once |
| SurveyRecords.RepairedIdNames | apps/api/src/surveys/survey-id.util.ts:79-149 | a repaired record carries an id that names its ULB, ward, parcel, property and old letter, and the columns of that id |
| SurveyRecords.ClashingRepairIs | apps/api/src/surveys/survey-id.util.ts:123-149 | a needed repair whose id another record has keeps the old id, or is refused if that record is deleted |
| ImportLaws.RunKeeps | apps/api/src/imports/imports.service.ts:487-795 | along every import survey ids stay unique, `processed = success + failed`, and under UPDATE every touched record stays live in a ward seen |
| ImportLaws.UpdateLeavesRecord | apps/api/src/imports/imports.service.ts:621-730 | under UPDATE an identified row leaves a live record with its canonical id, ward, parcel, property number and audited values, and changes no other record |
| ImportLaws.ImportedRowHasItsRecord | apps/api/src/imports/imports.service.ts:621-730 | under UPDATE each row with an identity succeeds and its record is among the touched ones |
| ImportLaws.CreateConflictIff | apps/api/src/imports/imports.service.ts:708-773 | the branch for a taken survey id runs if and only if the strategy is CREATE and a live record has the canonical id |
| ImportLaws.FailedRowChangesNothing | apps/api/src/imports/imports.service.ts:774-794 | a row fails if and only if it has no identity, and then changes no record |
| ImportOutcomes.IdentifiedIff | apps/api/src/imports/imports.service.ts:487-545 | a row has an identity if and only if it names a known ward by name or id, and a parcel and a property number by cell or, for a blank cell, by id |
| ImportOutcomes.IdentityFromCells | packages/types/src/survey-id.ts:164-191 | ward, parcel and property of a row are those of its cells, padded, and of its id only for blank cells |
| ImportOutcomes.CanonicalId | packages/types/src/survey-id.ts:140-152 | its canonical id names the ULB, the ward's number, parcel and property, and the letter of its raw id or R |
| ImportOutcomes.OutcomeIff | apps/api/src/imports/imports.service.ts:621-773 | SKIP leaves a live record alone, UPDATE one without an audited change, and a record is inserted exactly for a row about none, or under CREATE about a live one, whose canonical id is not taken |
| ImportOutcomes.RowWrites | apps/api/src/imports/imports.service.ts:664-773 | an inserted or rewritten record carries the identity, is live, and holds for each column the sheet's value, nothing where the sheet is blank, and else what was there; no other record changes |
| ImportOutcomes.CountersAdd | apps/api/src/imports/imports.service.ts:487-795 | along every import, rows with a survey id are counted as processed, those without an identity as failed, and the table grows by the number counted as inserted |
| ImportOutcomes.StatusIs | apps/api/src/imports/imports.service.ts:797-839 | a job without failures is completed, one with nothing but failures failed, any other partial |
| ImportLaws.EveryRowHasItsRecord | apps/api/src/imports/imports.service.ts:487-795 | in an UPDATE sheet without confusable rows every row ends with its own live record, one each, whatever the table held |
| ImportLaws.TakesOverIff | apps/api/src/imports/imports.service.ts:924-956 | under UPDATE a row adds no record of its own if and only if the holder of its canonical id, else of its raw id, else the record found at its place was touched by an earlier row |
| ImportLaws.OneRecordPerRowIff | apps/api/src/imports/imports.service.ts:487-795 | along every UPDATE import into any table, every row so far has its own live record, one each, if and only if no row took over an earlier row's record |
| SheetLaws.NewSheetIff | apps/api/src/imports/imports.service.ts:487-795 | importing under UPDATE a sheet of which the table knows no id and no place, every row ends with its own live record, one each, if and only if no row has an earlier row's canonical id, as its own or as its raw id, or place |
| SheetLaws.EmptyTableIff | apps/api/src/imports/imports.service.ts:487-795 | the same for every sheet imported into an empty table |
| ImportLaws.RepeatedRawIdCollapses | apps/api/src/imports/imports.service.ts:937-942 | a row with a new canonical id whose raw id is an earlier row's canonical id takes over that record: the earlier identity is gone and no record is added |
| ImportInstances.TwoRowsOneRecord | packages/types/src/survey-id.ts:159-163 | two rows with one survey id and parcels 1 and 2, imported into an empty table, both succeed and leave one record, the second |
| ImportInstances.TwoRowRun | apps/api/src/imports/imports.service.ts:487-795 | there is such a run: the two-row sheet can be imported into an empty table |
| SurveyAudit.EqualIffSameJson | apps/api/src/surveys/survey-audit.util.ts:89-112 | two values compare equal if and only if they serialize to the same JSON; the normalization changes nothing |
| SurveyAudit.PlainIff | apps/api/src/surveys/survey-audit.util.ts:89-103 | the text of a stored decimal matches the digit pattern if and only if it is not negative |
| SurveyAudit.DecimalEqualsIff | apps/api/src/surveys/survey-audit.util.ts:105-112 | a stored decimal compares equal to a decimal or a text with the same digits, and to no number and not to null |
| ImportLaws.NoAuditedChangeIff | apps/api/src/imports/imports.service.ts:640-656 | the audit finds no change if and only if identity and audited columns agree and neither record nor sheet has an area |
| ImportLaws.LeftAloneIff | apps/api/src/imports/imports.service.ts:640-656 | under UPDATE a live record is left alone if and only if it has the row's identity, every other audited column is as the sheet proposes, and neither the record nor the sheet has an area |
| ImportLaws.ReimportLeavesAloneIff | apps/api/src/imports/imports.service.ts:640-656 | a record just inserted from a row is left alone by the same row if and only if the row has no area |
| ImportLaws.EqualAreaIsRewritten | apps/api/src/surveys/survey-audit.util.ts:89-112 | a sheet with the 1000 square feet that are already stored rewrites the record with what it held |
| ImportLaws.SheetColumnsStoredIff | apps/api/src/imports/imports.service.ts:640-682 | under UPDATE a live record found ends with the columns and areas the sheet asks for if and only if the audit finds a change or no column outside the audit differs |
| ImportLaws.UnauditedCorrectionIsLost | apps/api/src/imports/imports.service.ts:650-656 | a sheet that corrects only the electricity id leaves the old one stored |
| ImportLaws.PruneIsConfined | apps/api/src/imports/import-reconcile.ts:11-51 | pruning hides only untouched live records of the one ward seen, only when asked for after an UPDATE without failures, and at most `max(10, ceil(2% of kept))` |
| ImportLaws.ReconciledWardMatchesFile | apps/api/src/imports/imports.service.ts:881-921 | after an UPDATE of one ward without failures that asks for it, the live records of the ward are exactly the touched ones if and only if the orphans are at most 10 or within 2 percent, rounded up, of the touched |
| ImportService.ImportsService.FindImportDuplicate | apps/api/src/imports/imports.service.ts:924-956 | finds by canonical id, then by the sheet's id, then a live record of the same ward, parcel and property number |
| ImportService.ImportsService.ImportRow | apps/api/src/imports/imports.service.ts:621-773 | skips, leaves, rewrites or creates; the update of the found record never meets a taken survey id |
| ImportService.ImportsService.ProcessJob | apps/api/src/imports/imports.service.ts:452-839 | the loop is a run of row steps, followed by the reconciliation and the job's report |
| ImportService.ImportsService.ReconcileWardOrphans | apps/api/src/imports/imports.service.ts:881-921 | soft-deletes the orphans of the ward within the cap, else none |
| Floors.WriteFloor | apps/api/src/surveys/floors.util.ts:76-94 | the pushed parts joined by bars are the printed floor |
| Floors.ReadFields | apps/api/src/surveys/floors.util.ts:31-43 | the loop collects the usage types in order and the last usage factor |
| FloorLaws.ParseAfterSerialize | apps/api/src/surveys/floors.util.ts:16-102 | parsing a printed list gives the floors back in order: label, areas in hundredths, usage texts, factor, position and segment |
| FloorLaws.RoundTripIff | apps/api/src/surveys/floors.util.ts:16-102 | for printable text each floor survives if and only if both areas are given with at most two decimals and no building type stands without a usage type |
| FloorLaws.BuildingAloneIsReadAsUsage | apps/api/src/surveys/floors.util.ts:45-46 | a floor printed with building type R and no usage type is read back with usage type R and no building type |
| FloorText.LabelOfHead | apps/api/src/surveys/floors.util.ts:28-28 | the label pattern finds exactly the printed label and area in feet |
| FloorText.SqMeterOfHead | apps/api/src/surveys/floors.util.ts:29-29 | the leftmost metre pattern finds exactly the printed area |
| FloorLaws.NumberOfNatText | apps/api/src/surveys/floors.util.ts:98-102 | a printed area reads back as its hundredths |

## Left out

- Refunds and settlements: a refund does not reverse the demand, so the ledger laws are about runs without refunds.
- Interleaving inside a gateway request: `handleCallback` and the requeries read the payment before their transaction,
  and `createOnlinePayment` writes its row twice; each is one step here. An HTTP request is one step of the session model.
- The gateway itself: payload parsing, decryption, signatures and status codes; a callback is a merchant id, an optional
  gateway id, an optional idempotency key, a classified outcome and an optional amount.
- Floating point: sums of whole paise are exact, and products are rounded from exact reals; numbers so large that
  JavaScript prints them with an exponent are not considered. Non-finite and negative amounts in words are errors in the
  source and have no value here.
- The `verified` flag, the check for payments of earlier years without a demand, survey existence and access checks, the
  gateway reference, audit logs, notifications, publication times and generated ids.
- The year lookup of a counter payment: the request carries the year the lookup settles on.
- The order of ties in the preview query: every answer that meets the query is allowed.
- CLOSED demands and PREVIEWED runs: nothing modelled writes them.
- The keyword tables for zones, construction types and the GIS class: the codes are inputs.
- The display columns and rate slots of the export summary.
- Session rows: IP address, user agent, cookies, password reset and failed cache writes that the source ignores. A cache
  entry's lifetime is covered by eviction at any time. Hashing is taken as injective and new tokens and ids as fresh.
- The ward pattern in a ward name (`apps/api/src/imports/column-maps.ts:424-427`): a row carries the number it finds.
- The mapped sheet columns besides the identity are texts, flags, counts and areas by name; reading cells, previewing,
  floors of an imported survey and the audit log are not part of the model. Numbers are finite. Database errors other
  than a taken survey id do not occur.
- `resolveSurveyIdentity`, the display formats of parcel and property numbers, and data-quality classification.
- Texts of floors that contain commas, `||`, line breaks or an embedded field: the printer has no escape for them, so the
  round trip is stated for texts without. Areas whose hundredths are negative are left out of it as well.
- HTTP controllers, guards, validation, rate limits, pages, PDF and Excel layout, tax-config versions.
