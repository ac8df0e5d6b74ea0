# Verification of the workspace backend

A Dafny model of the parts of this NestJS and Prisma backend that are more than record keeping,
with proofs of what they keep. Each service method is one atomic step on the tables it touches;
tables are sequences and maps with the unique and foreign keys of `prisma/schema.prisma` and its
migrations, and the time, new ids and the answers of other services are inputs.

Each service is modelled as functions on its tables, about which the laws are proved. Where the
source updates rows step by step there is also a class whose methods make the same checks and
writes, one database statement at a time, and are proved to have exactly the effect of those
functions; the row that a statement writes is computed by the function both share. The table below
names the methods that do more than that (loops, several writes that come to one, a Date object
that is moved); the other handlers of `DocumentsService`, `BillingService`, `AgileService`,
`AuthService` and `RealtimeGateway` add no law of their own and have no row.

| files | what they model |
|---|---|
| `BoardHistory`, `Sorting`, `BoardActions` | the board assistant: merged, paged history; applying proposals |
| `Folders`, `FolderRequests`, `FolderTree`, `Documents`, `DocumentRequests`, `DocumentsService` | document folders, the tree builder, documents and their version log |
| `Billing`, `BillingRequests`, `BillingStripe`, `BillingPaystack`, `BillingAmounts`, `BillingCoupling`, `BillingWebhooks`, `BillingCharges`, `BillingChanges`, `BillingIsolation`, `BillingReach`, `BillingService`, `Proration`, `Calendar`, `Blocks` | subscriptions and tenant status, requests, webhooks, charges, amounts, plan changes, calendar intervals |
| `Tasks`, `BoardView`, `BoardMoves`, `BoardRequests`, `Sprints`, `SprintRequests`, `Burndown`, `AgileService` | boards, work-in-progress limits, sprints, burndown |
| `AccessPolicy`, `ProjectRoles` | the project query filter and the computed actions |
| `Sessions`, `SessionRequests`, `AuthService` | sign-in sessions: rotation, cap, revocation |
| `Presence` | the reference-counted presence map |
| `Seqs`, `Text`, `Users`, `Tenants` | shared definitions |

`dafny verify dfyconfig.toml` checks the whole project.

## Where the code does less than one might expect

Each of these is stated exactly, with the condition under which the expected law holds and an
instance on which it fails.

- A plan change writes the subscription before the adjustment invoice and the tenant status. A
  second change of a cancelled subscription in the same millisecond meets a taken invoice number
  and leaves the tenant cancelled (`StepKeepsCoupledIff`, `SameMomentExample`).
- A Paystack charge that carries no date restarts the period each time it is applied
  (`ReapplyingIsIdleIff`, `UndatedChargeExample`). Returns from checkout are not deduplicated, so
  an old charge brought again puts its period back (`ReplayIsIdleIff`, `OldChargeExample`).
- A Paystack charge whose metadata names no tenant is applied to every tenant that returns it, and
  to the one its webhook finds: one payment can buy several subscriptions
  (`SecondTenantIsChargedIff`, `OnePaymentTwoSubscriptions`). A charge of the service's own checkout
  names its tenant and buys one (`NamedChargeHasOnePayee`, `PaidCheckoutBuysOnce`).
- The event key of a Paystack delivery leaves out the event type, so a notice of another type with
  the same reference or code counts as a repeat (`ShareKeyIff`, `DisableAfterCreate`).
- A delivery whose metadata names an unknown tenant is refused by the foreign key of the event
  table and leaves no event row (`ClaimsKeyIff`, `UnknownTenantExample`).
- Invoices are found by number alone, so a return that brings a charge another tenant was already
  invoiced for takes that invoice over (`RequestKeepsToIff`, `ReturnOfAnothersCharge`).
- A webhook may act on a row of another tenant than the one it resolves to, because the lookups
  leave undefined conditions out (`StripeKeepsToIff`, `PaystackKeepsToIff`,
  `PaymentOfAnotherTenant`, `StopOfUnknownSubscription`).
- A month added to a date late in its month overflows into the month after, which can put a later
  start before an earlier one (`MonthLandsOn`, `MonthKeepsOrderIff`, `MonthIsNotMonotone`).
- Deleting a folder sets the parent of archived children and the folder of documents to null
  (`ON DELETE SET NULL`, prisma/migrations/20260615162815_init/migration.sql:1097,1103), which can
  repeat a sibling name and part a document from its latest snapshot
  (`DeleteKeepsNamesUniqueIff`, `DeleteExample`, `FolderDeletionKeepsLatestIff`,
  `FolderDeletionExample`).
- Renaming a folder to the empty text skips the check of its name
  (`CreateAndUpdateKeepNamesUnique`, `RenameExample`).
- A sprint may be the target of its own completion; its tasks then stay and the report says they
  moved (`NoneLeftBehindIff`, `ReportIsRightIff`, `SelfTargetExample`).
- A socket whose room joins fail after the user was attached is counted off without having been
  counted on (`FailedJoinKeepsInvIff`, `FailedJoinExample`).
- Two users share a presence key when one tenant id is the other one extended by a colon
  (`KeysCollideIff`, `KeysMayCollide`). Tenant ids are generated as cuids
  (prisma/schema.prisma:672), which hold no colon, so no id the service generates collides
  (`ColonFreeIsApart`).
- A move that names no column is checked by the number of tasks of a status, not of a column, or
  not at all, so it may enter a full column (`MoveRespectsLimitIff`, `RestatusOverfillsIff`,
  `OrderOverfillsIff`, `UncheckedOverfillsIff`, `UnmatchedExample`).

## Model

| member | source | states |
|---|---|---|
| BoardHistory.PageIsExact | src/ai/ai.service.ts:1231-1305 | For every page and limit, the slice of the merged first page*limit rows of each source is the slice of the whole merged history. |
| BoardHistory.PagesCoverHistory | src/ai/ai.service.ts:1276-1305 | Pages 1 to totalPages, put one after the other, are the full history: nothing lost, nothing repeated. |
| BoardHistory.HistoryHoldsMatchingRows | src/ai/ai.service.ts:1226-1290 | The history is newest first and holds exactly the rows of both tables that the query matches, each as often as it is stored. |
| BoardHistory.RowStandsIffAskedFor | src/ai/ai.service.ts:1226-1290 | A row of either table stands in the history as often as it is stored exactly when the query asks for it: its tenant, type, project, board and search. |
| BoardHistory.PastLastPageIsEmpty | src/ai/ai.service.ts:1297-1305 | A page past totalPages is empty. |
| BoardHistory.CeilDivIsCeiling | src/ai/ai.service.ts:1304 | totalPages is the least number of pages that holds every entry. |
| Sorting.PrefixSortIsExact | src/ai/ai.service.ts:1291-1305 | A window that ends at n can be cut from the stable sort of the first n rows of two newest-first lists. |
| Sorting.StableSortUnique | src/ai/ai.service.ts:1291-1296 | Newest first with ties in arrival order fixes the list, so any correct stable sort returns it. |
| Sorting.MergeIsStableSort | src/ai/ai.service.ts:1291-1296 | Merging two newest-first lists is the stable sort of their concatenation. |
| BoardActions.Service.ApplyBoardActions | src/ai/ai.service.ts:1114-1218 | The loop leaves the rows, the executions and the results the specification gives, and applied plus failed is the number of results. |
| BoardActions.OneOutcomePerId | src/ai/ai.service.ts:1115-1198 | Every distinct id gets exactly one result, in order of first appearance, with the verdict its row, scope and execution call for. |
| BoardActions.EachRuns | src/ai/ai.service.ts:1129-1199 | Exactly the distinct pending board actions of the tenant in scope are executed, in order; their rows are settled and no other row is touched. |
| BoardActions.DueActionsRun | src/ai/ai.service.ts:1117-1153 | What is due: a pending board action of the tenant whose input names the project and no other board; every other id is not found or out of scope. |
| BoardActions.SingleStepsLeave | src/ai/ai.service.ts:1492-1558 | A single run executes what is not completed and settles its row, a cancellation a pending one, and neither touches another. |
| BoardActions.NothingRunsTwice | src/ai/ai.service.ts:1114-1558 | Over any run of requests, proposals, single runs and cancellations, the loop never executes an action twice, and no action succeeds twice by whichever path. |
| BoardActions.CompletedIsFinal | src/ai/ai.service.ts:1114-1558 | A completed action stays as it is over any run. |
| Folders.MoveCheckIsExact | src/documents/documents.service.ts:649-673 | On a forest the bounded walk accepts a move exactly when the folder is not on the new parent's chain and that chain has fewer than 50 folders. |
| Folders.ForestHasNoCycle | src/documents/documents.service.ts:649-673 | In a forest no chain of parents comes back to where it started. |
| Folders.StepKeepsForest | src/documents/documents.service.ts:162-293 | Every accepted create, update, archive, restore and delete keeps the parent links acyclic and within one tenant, and no folder changes tenant. |
| Folders.StepKeepsFolders | src/documents/documents.service.ts:162-293 | No accepted request removes a folder but the one it deletes. |
| Folders.DeleteKeepsNamesUniqueIff | src/documents/documents.service.ts:274-293 | An accepted deletion keeps sibling names unique exactly when no archived child shares its name with a root folder of the tenant. |
| Folders.DeleteExample | src/documents/documents.service.ts:274-293 | An instance: a root and an archived child of one name, and an accepted deletion that leaves two such roots. |
| Folders.CreateAndUpdateKeepNamesUnique | src/documents/documents.service.ts:162-237 | Creating and updating keep sibling names unique, exactly but for a rename in place to the empty text when a sibling already bears it, which skips the check. |
| Folders.RenameExample | src/documents/documents.service.ts:195-237 | An instance: renaming a root to the empty text beside a root of that name. |
| FolderRequests.CreateIsAcceptedIff | src/documents/documents.service.ts:162-190 | A folder is created exactly under no parent or a live one of the tenant, when no sibling has its name. |
| FolderRequests.CreateLeaves | src/documents/documents.service.ts:162-190 | The new folder has the tenant, the parent and the name of the request and is not archived; no other changes. |
| FolderRequests.UpdateIsAcceptedIff | src/documents/documents.service.ts:196-237 | An update of a live folder is accepted exactly when a parent that is sent is live, has a chain of fewer than 50 folders without this one, and no sibling has the name, unless neither is sent. |
| FolderRequests.UpdateLeaves | src/documents/documents.service.ts:213-228 | After an accepted update the folder has the sent parent, none for null, and its old one when none was sent; likewise the name; the rest and every other folder stay. |
| FolderRequests.MoveJoinsChains | src/documents/documents.service.ts:196-237 | After a move the folder's chain is itself followed by the chain its new parent had and has. |
| FolderRequests.ArchiveLeaves | src/documents/documents.service.ts:239-256 | Archiving is for live folders, stamps the time and changes nothing else. |
| FolderRequests.RestoreLeaves | src/documents/documents.service.ts:258-272 | Restoring clears the stamp and changes nothing else. |
| FolderRequests.DeleteLeaves | src/documents/documents.service.ts:274-293 | A folder is deleted exactly without live children and documents; its children become roots and all other folders stay. |
| FolderTree.IndexByParent | src/documents/documents.service.ts:142-149 | After the loop each key holds exactly the rows with that parent, in fetched order. |
| FolderTree.TreeHoldsReachableRowsOnce | src/documents/documents.service.ts:137-160 | On any parent links the tree holds, each exactly once, precisely the fetched folders whose ancestors were all fetched. |
| FolderTree.SiblingsInFetchedOrder | src/documents/documents.service.ts:150-158 | Siblings stand in the order they were fetched. |
| FolderTree.TreeNests | src/documents/documents.service.ts:137-160 | Each row sits among the children of its parent, the roots on top, in fetched order. |
| FolderTree.TreeOfForestIsPermutation | src/documents/documents.service.ts:137-160 | With archived folders included, the flattened tree of a forest is a permutation of the tenant's folders. |
| Documents.RequestKeepsInv | src/documents/documents.service.ts:339-563 | Every request keeps version numbers 1..n, a complete latest snapshot, ARCHIVED exactly with archivedAt and publishedAt on published documents, and every request but a folder deletion keeps each latest snapshot equal to its document. |
| Documents.RunKeepsInv | src/documents/documents.service.ts:339-563 | The invariant of RequestKeepsInv holds over every run of requests. |
| Documents.RequestKeepsLatestIff | src/documents/documents.service.ts:274-563 | A request keeps every latest snapshot equal to its document exactly when it is not the deletion of a folder of the tenant, without active children or documents, in which a document lies. |
| Documents.RunKeepsLatest | src/documents/documents.service.ts:274-563 | Over any run without such a deletion every latest snapshot equals its document. |
| Documents.RunOnlyAppends | src/documents/documents.service.ts:708-737 | Over any run a document's log only grows at the end, and a publication date once set is never cleared. |
| Documents.RestoreVersionReplaysSnapshot | src/documents/documents.service.ts:515-563 | Restoring version k gives the document the fields of version k and appends a snapshot equal to it. |
| Documents.RestoreVersionSucceedsIff | src/documents/documents.service.ts:515-563 | A manager's restore succeeds exactly when the version exists and the project and folder it names still do. |
| Documents.RestoreUndoesUpdate | src/documents/documents.service.ts:387-563 | Restoring the version before an update gives back the content before it. |
| Documents.RestoreIsUpdate | src/documents/documents.service.ts:461-472 | restoreDocument's second write, clearing archivedAt, finds it already cleared by the update. |
| DocumentRequests.UpdateIsAcceptedIff | src/documents/documents.service.ts:387-445 | An update is accepted exactly for one who manages the document, with a project and a folder that may be used and a slug that is its own or free. |
| DocumentRequests.UpdateLeaves | src/documents/documents.service.ts:387-445 | Field by field: what is sent replaces, null clears, what is left out stays; publication and archiving are dated; one numbered snapshot that shows the document is appended; all other documents and logs stay. |
| DocumentRequests.StatusLeaves | src/documents/documents.service.ts:447-459 | Publishing and archiving change the status and its dates alone. |
| DocumentRequests.RestoreLeaves | src/documents/documents.service.ts:461-472 | Restoring leaves a draft that is not archived, and the rest as it was. |
| DocumentRequests.CreateIsAcceptedIff | src/documents/documents.service.ts:339-379 | A document is created exactly with a project and a folder that may be used and a free slug. |
| DocumentRequests.CreateLeaves | src/documents/documents.service.ts:339-379 | It has what is sent, else is a draft for the team, belongs to the user, and its one version shows it. |
| DocumentRequests.RestoreVersionLeaves | src/documents/documents.service.ts:515-563 | The document has what the version shows, is archived or not as it was, keeps its slug and owner, and gains one snapshot; nothing else changes. |
| DocumentRequests.RemoveLeaves | src/documents/documents.service.ts:474-484 | A document and its log are removed exactly by one who manages it, and no other. |
| DocumentRequests.FolderRequestLeaves | src/documents/documents.service.ts:274-293 | A folder request changes documents only by a deletion, which asks that no live one lies in the folder and takes the others out of it. |
| Documents.FolderDeletionKeepsLatestIff | src/documents/documents.service.ts:274-293 | Deleting a folder keeps latest snapshots equal to their documents exactly when no document, archived ones included, lies in it. |
| Documents.FolderDeletionExample | src/documents/documents.service.ts:274-293 | An instance: deleting a folder with one archived document is accepted and parts the document from its latest snapshot. |
| DocumentsService.Service.WalkUp | src/documents/documents.service.ts:655-668 | For every limit the loop accepts or refuses a move, and with the error, as the chain of parents it walks calls for. |
| DocumentsService.Service.RestoreDocument | src/documents/documents.service.ts:461-472 | The effect of the update that sends DRAFT, then archivedAt cleared. |
| Calendar.IntervalLength | src/billing/billing.service.ts:3158-3176 | Every interval has its exact length for every start: 1 day, 7 days, the days of the start's month (also for unknown intervals), 365 or 366 days. |
| Calendar.IntervalEndsLater | src/billing/billing.service.ts:3158-3176 | An interval ends at least one day after it starts. |
| Calendar.MonthLandsOn | src/billing/billing.service.ts:3170-3173 | A month lands on the same date of the next month, or runs over into the month after by as many days as the next month is short. |
| Calendar.MonthKeepsOrderIff | src/billing/billing.service.ts:3170-3173 | A month from an instant ends no later than a month from every later instant exactly when the next month has the date, or is one day short of it and the instant is midnight. |
| Calendar.MonthKeepsOrderOfDaysIff | src/billing/billing.service.ts:3170-3173 | Of whole days: exactly when the next month is at most one day short of the date. |
| Calendar.OtherIntervalsKeepOrder | src/billing/billing.service.ts:3158-3169 | Days and weeks keep the order of starting days strictly, and years keep it. |
| Calendar.MonthIsNotMonotone | src/billing/billing.service.ts:3170-3173 | An instance of the order lost: in common years a month from 31 January ends after a month from 1 February. |
| Calendar.AddInterval | src/billing/billing.service.ts:3158-3176 | Mutating a copy of the date with setDate, setMonth or setFullYear gives the specified end and leaves the start alone. |
| Calendar.DayFromYearFormula | src/billing/billing.service.ts:3158-3176 | The year-by-year day count is the closed formula of section 21.4.1 of ECMA-262. |
| Calendar.FieldsOfMadeDay | src/billing/billing.service.ts:3158-3176 | A day made from a year, month and date within range has those fields back. |
| Calendar.MakeDayOfFields | src/billing/billing.service.ts:3158-3176 | A day is made again from its own year, month and date. |
| Proration.ProrationIsBounded | src/billing/billing.service.ts:3075-3118 | The ratio is in [0,1]; a change credits or invoices, never both, never more than the period amounts differ by, and never in the wrong direction. |
| Proration.SwappingPlansSwapsAmounts | src/billing/billing.service.ts:3104-3117 | Swapping the two plans swaps credit and invoice. |
| Proration.CreditOnlyNeverInvoices | src/billing/billing.service.ts:3111-3113 | Under credit_next_invoice nothing is invoiced and the credit is unchanged. |
| Proration.LaterChangeNeverCostsMore | src/billing/billing.service.ts:3100-3113 | A later change never raises the credit or the invoice. |
| Proration.WholePeriodAndSpentPeriod | src/billing/billing.service.ts:3100-3113 | Before the period starts the whole difference is due; once it has ended nothing is. |
| Proration.RatioFalls | src/billing/billing.service.ts:3097-3103 | The remaining ratio only falls with time. |
| Proration.RoundsToNearest | src/billing/billing.service.ts:3154-3156 | Rounding goes to a nearest cent, on a tie away from zero. |
| Proration.ScaledIsProduct | src/billing/billing.service.ts:3104 | The net change is rounded from the exact product of difference and ratio. |
| Proration.PeriodCostsEverySeat | src/billing/billing.service.ts:3075-3118 | A period costs the price for every seat, to the nearest cent. |
| Proration.RatioIsShareLeft | src/billing/billing.service.ts:3097-3103 | The ratio is exactly the share of the period that is left. |
| Proration.ShareLeftIsDue | src/billing/billing.service.ts:3104-3117 | A change within a currency credits or invoices the nearest cent of the share left of the difference, by its sign and the behaviour. |
| Proration.NothingIsDue | src/billing/billing.service.ts:3075-3095 | Without proration or between currencies neither is due. |
| Text.TrimCutsBlanks | src/billing/billing.service.ts:3229-3231 | Trimming a currency code cuts all blanks off its ends; LettersBecomeCapitals says the rest. |
| BillingCoupling.RunKeepsCoupled | src/billing/billing.service.ts:879-2385 | Over every run of billing steps in which no subscription changes plan twice in a millisecond, each tenant has at most one subscription and its status is the image of that subscription's status. |
| BillingCoupling.StepKeepsCoupledIff | src/billing/billing.service.ts:990-1070 | A step keeps the coupling exactly when it is not an immediate change of a cancelled subscription whose adjustment invoice number is taken. |
| BillingCoupling.StepKeepsTables | src/billing/billing.service.ts:879-2731 | Every step keeps one row per id and per tenant and adds or drops no tenant. |
| BillingCoupling.StepKeepsEvents | src/billing/billing.service.ts:1643-2795 | No step loses an event row. |
| BillingStripe.SubscriptionEventLeaves | src/billing/billing.service.ts:1994-2110 | A new Stripe subscription event leaves its tenant the row the object tells, field by field: status by deletion and Stripe's word, plan, seats, both ends of the period (an exact interval when none is sent), trial, customer and cancellation; the tenant's status to match; every other row, status and invoice as it was. |
| BillingStripe.SubscriptionEventWithoutRoom | src/billing/billing.service.ts:1994-2110 | When the tenant has another row, or the new id is taken, the books stay and the event has failed. |
| BillingStripe.SubscriptionEventOfNothing | src/billing/billing.service.ts:1994-2027 | Without an id, a tenant or a plan it changes nothing. |
| BillingStripe.WhoseEvent | src/billing/billing.service.ts:2452-2481 | An event is the metadata's tenant's, else of the row of its subscription, else of its customer. |
| BillingStripe.InvoiceEventLeaves | src/billing/billing.service.ts:2112-2199 | A new invoice or payment event books one invoice, field by field, to the first row taken for it, and changes nothing else. |
| BillingStripe.RowsTakenForInvoice | src/billing/billing.service.ts:2119-2136 | Which rows are taken for an invoice event's. |
| BillingStripe.SessionReturnLeaves | src/billing/billing.service.ts:2560-2704 | The return of a complete session leaves the tenant the row the session tells, one paid invoice, and nothing else. |
| BillingStripe.SessionReturnIsRefusedIff | src/billing/billing.service.ts:2533-2580 | A Stripe return goes through exactly for a manager of the session's tenant with a plan and room for the row; a refused one changes nothing. |
| BillingPaystack.WhoseObject | src/billing/billing.service.ts:2387-2421 | A Paystack object is the metadata's tenant's, else of the row of its codes, else of its customer. |
| BillingPaystack.NoticeLeaves | src/billing/billing.service.ts:2341-2385 | A new notice cancels or activates the first row taken for it, and its tenant, and nothing else. |
| BillingPaystack.ChargeEventEnds | src/billing/billing.service.ts:2201-2209 | A charge event is processed exactly when it has a payee, failed when the row could not be made, and else ignored. |
| BillingPaystack.ReturnGoesThroughIff | src/billing/billing.service.ts:2706-2731 | A Paystack return goes through exactly for a manager with a verified reference that names no other tenant and, when paid, is due a place; otherwise nothing changes. |
| BillingPaystack.DeliveryIsRefusedIff | src/billing/billing.service.ts:1717-1740 | A delivery is refused exactly without a signature, a type or the tenant it names. |
| BillingChanges.SameMomentBreaksCoupling | src/billing/billing.service.ts:1035-1061 | Three requests of one millisecond, up, cancel, up again, leave an active subscription with a cancelled tenant. |
| BillingChanges.SameMomentExample | src/billing/billing.service.ts:1035-1061 | Concrete tables, three plans and three requests on which the coupling is lost. |
| BillingChanges.ImmediateChangeStartsPeriod | src/billing/billing.service.ts:1028-1061 | A successful immediate change leaves a whole new period of exact length, revives a cancelled subscription and bills exactly the due adjustment, once. |
| BillingChanges.DueIsBounded | src/billing/billing.service.ts:3075-3152 | The adjustment lies between nothing and what the two period amounts differ by. |
| BillingChanges.DueIsShareLeft | src/billing/billing.service.ts:3075-3152 | The adjustment is the nearest cent of the share left of what the periods cost more for all seats, when it is to be invoiced, and else nothing. |
| BillingRequests.CreateIsAcceptedIff | src/billing/billing.service.ts:879-934 | A subscription is created exactly by a manager, for his tenant, on a plan that is sold, when the tenant has none. |
| BillingRequests.CreateLeaves | src/billing/billing.service.ts:879-934 | Its first terms, field by field, and the tenant's status; all other rows stay. |
| BillingRequests.UpdateIsAcceptedIff | src/billing/billing.service.ts:940-988 | An update is accepted exactly for a subscription of the tenant and a plan that exists and, unless its id is empty, is sold. |
| BillingRequests.UpdateLeaves | src/billing/billing.service.ts:940-988 | What is sent replaces, the rest stays, a cancellation is stamped, and a status that is sent reaches the tenant. |
| BillingRequests.ChangeIsAcceptedIff | src/billing/billing.service.ts:990-1070 | A change is accepted exactly for a plan that is sold, at the period's end or, at once, unless its adjustment number is taken. |
| BillingRequests.ChangeLeaves | src/billing/billing.service.ts:1028-1061 | An immediate change leaves the plan, one exact period from now and no cancellation, and keeps seats, provider and trial. |
| BillingRequests.CancelLeaves | src/billing/billing.service.ts:1072-1093 | Cancelling stamps the row cancelled, and the tenant, and nothing else. |
| BillingRequests.ResumeLeaves | src/billing/billing.service.ts:1095-1116 | Resuming makes row and tenant active and clears the cancellation, and nothing else. |
| BillingRequests.TrialLeaves | src/billing/billing.service.ts:1118-1141 | A trial lasts the plan's trial days, or fourteen. |
| BillingRequests.TenantTrialIsAcceptedIff | src/billing/billing.service.ts:1143-1196 | A tenant's trial starts exactly by a manager on a plan that is sold, for a tenant with a row or room for one. |
| BillingRequests.TenantTrialLeaves | src/billing/billing.service.ts:1143-1196 | It puts the row, or a new one, on a trial that is also its period, and keeps the provider's codes. |
| BillingRequests.RowsAreFound | src/billing/billing.service.ts:1925-1935 | Every lookup of a subscription finds a row with the fields asked for, and misses only when there is none. |
| BillingChanges.NewSubscriptionRunsOneInterval | src/billing/billing.service.ts:879-934 | A new subscription is the tenant's first, runs one exact interval, and, unless a status is sent, is on trial exactly when it is given a trial end. |
| BillingChanges.ResumeUndoesCancelIff | src/billing/billing.service.ts:1072-1116 | Resuming undoes a cancellation exactly when the subscription was active and not set to end. |
| BillingIsolation.RequestStaysInTenant | src/billing/billing.service.ts:879-1196 | Whatever a user asks for, no other tenant's subscription or status changes. |
| BillingReach.RequestKeepsToIff | src/billing/billing.service.ts:879-2795 | A request changes subscriptions, statuses and invoices of no tenant but the user's exactly when it is no return that passes the checks of its path and books under a number another tenant's invoice has. |
| BillingReach.ReturnOfAnothersCharge | src/billing/billing.service.ts:2233-2328 | An instance: a return with a charge that names no tenant takes over the invoice another tenant has for it. |
| BillingReach.StripeKeepsToIff | src/billing/billing.service.ts:1643-1715 | A Stripe delivery changes subscriptions, statuses and invoices of no tenant but the one it resolves to exactly when it is refused or repeated, or the row and the invoice it finds are that tenant's or unchanged. |
| BillingReach.PaystackKeepsToIff | src/billing/billing.service.ts:1717-1789 | The same of a Paystack delivery. |
| BillingReach.BookingWithinIff | src/billing/billing.service.ts:2112-2199 | A Stripe invoice or payment event keeps to its tenant exactly when the first row its subscription, or its tenant and customer, select is that tenant's, or nothing changes. |
| BillingReach.InvoiceGoesToOwner | src/billing/billing.service.ts:2112-2199 | The invoice of a Stripe event carries the tenant and subscription of the row it is booked to, and no other invoice changes. |
| BillingReach.NamedSubscriptionIsOwn | src/billing/billing.service.ts:2112-2137 | An event that names a stored subscription, and no tenant, is booked to that subscription's tenant. |
| BillingReach.StripeRowIsWithinIff | src/billing/billing.service.ts:1994-2110 | A Stripe subscription event writes within its tenant exactly when the row found by the object's id is the tenant's or missing. |
| BillingReach.PaymentOfAnotherTenant | src/billing/billing.service.ts:2112-2137 | An instance: a payment event for one tenant that names no subscription is booked to another's. |
| BillingReach.StopOfUnknownSubscription | src/billing/billing.service.ts:2341-2385 | An instance, where an empty filter matches every row: the end of an unknown subscription cancels the first one of the table. |
| BillingWebhooks.RepeatsChangeNothing | src/billing/billing.service.ts:1643-1789 | Any run of steps ends as the same run without the later deliveries of each recorded event, those whose first processing failed included. |
| BillingWebhooks.RepeatChangesNothing | src/billing/billing.service.ts:1695-1714 | A delivery whose key is taken changes nothing, whatever its body or time. |
| BillingWebhooks.ClaimsKeyIff | src/billing/billing.service.ts:1643-1768 | A delivery with a free key records its event exactly when its signature holds, it has a type and the tenant it names exists; otherwise it has no effect. |
| BillingWebhooks.UnknownTenantExample | src/billing/billing.service.ts:1717-1737 | An instance: a signed delivery that names a tenant that does not exist leaves no trace. |
| BillingWebhooks.ShareKeyIff | src/billing/billing.service.ts:3314-3321 | Two Paystack deliveries of identified objects have one key exactly when the objects are known by the same text, whatever the event types. |
| BillingWebhooks.ShareStripeKeyIff | src/billing/billing.service.ts:1643-1650 | Two Stripe deliveries have one key exactly when they are known by one id, and none has a Paystack key. |
| BillingWebhooks.SecondOfAKeyIsIdle | src/billing/billing.service.ts:1717-1789 | The second of two deliveries of one object has no effect, also when it is of another type. |
| BillingWebhooks.DisableAfterCreate | src/billing/billing.service.ts:3314-3321 | An instance: the disable notice that follows a create notice is taken for a repeat, and the subscription stays active. |
| BillingWebhooks.PaystackReturnNotes | src/billing/billing.service.ts:2706-2795 | A return from Paystack that goes through leaves one event row of its tenant, received or processed as the charge is, over whatever was noted before; otherwise no event changes. |
| BillingWebhooks.StripeReturnNotes | src/billing/billing.service.ts:2533-2795 | The same of a return from Stripe. |
| BillingCharges.EachPayeeBuysOnce | src/billing/billing.service.ts:2219-2731 | A dated charge brought along any run of webhooks and returns, by anyone, leaves every tenant it is applied to active on the terms of the charge, once however often it is applied, and no other tenant's subscription or status changed. |
| BillingCharges.InvoiceGoesToLastPayee | src/billing/billing.service.ts:2291-2336 | Over any such run the charge has one invoice, of the tenant it was applied to last, and no other invoice changes. |
| BillingCharges.NamedChargeHasOnePayee | src/billing/billing.service.ts:2219-2731 | A charge whose metadata names a tenant is applied to no other, over any run, whoever brings it. |
| BillingCharges.NamedChargeStaysInTenant | src/billing/billing.service.ts:2219-2731 | So over any such run no other tenant's subscription or status changes. |
| BillingCharges.OneReturnerOnePayee | src/billing/billing.service.ts:2219-2731 | A charge that names no tenant has one payee when the webhook finds that tenant, or nobody, and no other tenant returns it. |
| BillingCharges.SecondTenantIsChargedIff | src/billing/billing.service.ts:2706-2731 | After a charge was applied to one tenant, another one's return takes effect too exactly when it could have been made before, the charge names no tenant and no row id is taken twice. |
| BillingCharges.OnePaymentTwoSubscriptions | src/billing/billing.service.ts:2706-2731 | An instance: one dated charge that names no tenant, returned by two, gives both an active subscription. |
| BillingCharges.ChargeAppliesOnce | src/billing/billing.service.ts:2219-2339 | Any mix of webhooks and returns carrying one dated charge with one payee, by anyone, leaves the books as applying it once at the first step that has a payee, and unchanged when none has. |
| BillingCharges.ReapplyingIsIdleIff | src/billing/billing.service.ts:2233-2336 | Applying a charge again changes nothing exactly when it is dated or the clock stands still. |
| BillingAmounts.PriceRounds | src/billing/billing.service.ts:3207-3212 | A price for some seats comes, in the smallest unit, to the nearest whole number, on a tie the larger one. |
| BillingAmounts.PaysIff | src/billing/billing.service.ts:3289-3308 | A payment is accepted exactly in the expected currency and for the expected amount, or else for seats times price. |
| BillingCharges.ChargeableIff | src/billing/billing.service.ts:2219-2258 | A charge is due a place exactly when it has a plan and a number and pays as expected. |
| BillingCharges.CheckoutAsksIff | src/billing/billing.service.ts:2929-2981 | A Paystack checkout is asked for exactly for a plan in naira whose price for the seats rounds to something, and asks for that, with the metadata of tenant, plan, seats and expectation. |
| BillingCharges.ChargeBuysOnePeriod | src/billing/billing.service.ts:2233-2339 | An applied charge pays as expected, buys its plan for one exact interval from its date, for its seats, with one paid invoice of the amount and currency paid, and touches no other invoice and no other tenant. |
| BillingCharges.PaidCheckoutBuysOnce | src/billing/billing.service.ts:2219-2339 | From checkout to subscription: a checkout paid as asked ends, by any mix of webhooks and returns and whoever brings them, with one active period of the plan, the seats asked for and one paid invoice, whose amount is price times seats to the nearest kobo. |
| BillingCharges.PaidCheckoutTakesEffectIff | src/billing/billing.service.ts:2929-2981 | A paid checkout takes effect at a step exactly when this is its new webhook or a return by a manager of its tenant, and the tenant exists and has a row or a free id. |
| BillingCharges.WrongPaymentChangesNothing | src/billing/billing.service.ts:3289-3308 | A payment away from the expected amount, or from seats times price when none is expected, or in another currency, changes no subscription, tenant or invoice, by either path and whosever it is. |
| BillingCharges.BringsTheCharge | src/billing/billing.service.ts:2387-2421 | A webhook and a return do to the books exactly what applying the charge to its payee does, or nothing without one; the payee is told by the guards: signature and key, or permission and ownership, the plan and the payment, and the row. |
| BillingCharges.ResolvedAfterCharge | src/billing/billing.service.ts:2387-2421 | An applied charge goes on being found for the same tenant, or for nobody. |
| BillingCharges.ReplayIsIdleIff | src/billing/billing.service.ts:2706-2731 | At any point of any run, bringing a charge again changes nothing exactly when it has no payee, or the payee's row still has its plan, seats, period and codes without trial or cancellation, the tenant is active and the invoice is in place. |
| BillingCharges.OldChargeExample | src/billing/billing.service.ts:2706-2731 | An instance: a charge of day 0, one of day 31, and a return of the first one again, which puts the old period back. |
| BillingCharges.ReplayRevivesCancelled | src/billing/billing.service.ts:2706-2731 | A replay on a cancelled subscription makes it and its tenant active. |
| BillingCharges.UndatedChargeExample | src/billing/billing.service.ts:2233-2247 | An instance: an undated charge applied at two times leaves two periods. |
| BillingCharges.PaidCheckoutIsAccepted | src/billing/billing.service.ts:2929-2981 | A charge that pays a checkout as asked is accepted, even after the plan's price or currency has changed. |
| BillingService.Service.UpdateTenantStatusFromBilling | src/billing/billing.service.ts:1964-1978 | The tenant gets the image of the billing status and no other tenant changes. |
| BillingService.Service.AddPlanInterval | src/billing/billing.service.ts:3158-3176 | The end computed on a Date object is the specified one. |
| BillingService.Service.RecordStripeEvent | src/billing/billing.service.ts:1653-1694 | Claiming the event row as received, applying the event and completing the row comes to recording its outcome. |
| BillingService.Service.RecordPaystackEvent | src/billing/billing.service.ts:1727-1768 | The same of a Paystack event. |
| BillingService.Service.MovePlan | src/billing/billing.service.ts:1035-1061 | Row, invoice and tenant status in that order, stopping where the invoice is refused. |
| BoardView.ColumnsPartitionPlacedTasks | src/agile/agile.service.ts:818-838 | The columns' lists are pairwise disjoint and together hold exactly the tasks the board has a place for. |
| BoardView.BoardShowsVisibleTasks | src/agile/agile.service.ts:800-838 | The board shows exactly the tasks of its project that are neither archived nor deleted and have a place, each in one column. |
| BoardView.ColumnsAddUp | src/agile/agile.service.ts:818-838 | Any quantity summed over the columns comes to its sum over the placed tasks. |
| BoardView.ColumnMetricsAddUp | src/agile/agile.service.ts:1806-1831 | Field by field, the column metrics add up to the metrics of the placed tasks. |
| BoardView.ColumnsNeverExceedSummary | src/agile/agile.service.ts:1833-1859 | For quantities that are not negative, the columns together never exceed the board summary; the rest is what unplaced tasks hold. |
| BoardView.MetricsAddCards | src/agile/agile.service.ts:1806-1859 | Each field of the metrics is what its cards add to it. |
| BoardMoves.AcceptedIff | src/agile/agile.service.ts:994-1121 | A move of either kind is accepted exactly when the task is the caller's to move, the gate of DONE is open, what it names exists and the limit allows it. |
| BoardMoves.MoveRespectsLimitIff | src/agile/agile.service.ts:994-1121 | An ordered move or a status change leaves a limited column at or below the larger of its limit and what it held exactly when it is not a move the guards let through into the column while it is full. |
| BoardMoves.NamingMoveNeverOverfills | src/agile/agile.service.ts:1053-1121 | A move that names a column never enters a full column with a positive limit. |
| BoardMoves.RestatusOverfillsIff | src/agile/agile.service.ts:994-1051 | A status change overfills the default board's column of the new status exactly when it is permitted, enters the column, and the limit is above the count of the status but not above the column's. |
| BoardMoves.OrderOverfillsIff | src/agile/agile.service.ts:1053-1121 | The same of an ordered move that names no column and sends a new status: it must also leave the task without a column, and what it names must exist. |
| BoardMoves.UncheckedOverfillsIff | src/agile/agile.service.ts:994-1121 | A move that names no column and changes no status overfills a column exactly when it is permitted and enters it while it is full. |
| BoardMoves.StatusCountSuffices | src/agile/agile.service.ts:2013-2041 | The count of a status guards the default board's column of that status against every move that names no column and changes the status, as long as all tasks of the column carry it. |
| BoardMoves.UnmatchedExample | src/agile/agile.service.ts:994-1051 | An instance: a status change enters a full column, whose task carries another status. |
| BoardMoves.RunRespectsLimit | src/agile/agile.service.ts:994-1121 | Over any run of ordered moves and status changes, of which those that name no column do not overfill it by the three laws above, every column with a positive limit holds at most the larger of its limit and its initial count. |
| BoardMoves.RunKeepsDoneIffCompleted | src/agile/agile.service.ts:994-1121 | Over any run of ordered moves and status changes a task is DONE exactly when it carries a completion date. |
| BoardMoves.StepKeepsColumns | src/agile/agile.service.ts:1537-1580 | No move adds, removes or changes a column of a project that has one. |
| BoardMoves.OrderTouchesOne | src/agile/agile.service.ts:1088-1105 | A refused move leaves the task table alone; an accepted one rewrites its one task. |
| BoardMoves.OrderEnsuresBoard | src/agile/agile.service.ts:1537-1580 | A move leaves the boards as they are or as ensureDefaultBoard makes them. |
| BoardRequests.OrderIsAcceptedIff | src/agile/agile.service.ts:1053-1121 | An ordered move is accepted exactly for one's own task, by one who may move it, when column and sprint are the project's, there is room by the right count, and the gate of DONE is open. |
| BoardRequests.OrderLeaves | src/agile/agile.service.ts:1088-1105 | It gives the task the position, column, sprint and status that are sent, or the column's status, and the completion date to match; all else stays. |
| BoardRequests.RestatusIsAcceptedIff | src/agile/agile.service.ts:994-1012 | A status change is accepted exactly for one's own task, with room for a new status and the gate of DONE open. |
| BoardRequests.RestatusLeaves | src/agile/agile.service.ts:1008-1031 | It gives the task the status, the default board's column for it and the completion date to match, and nothing else. |
| BoardRequests.EnsureLeaves | src/agile/agile.service.ts:1537-1580 | The default board is the one marked so, else the first, marked now, else a new one with a column for each of the seven statuses. |
| BoardRequests.CountsAreFills | src/agile/agile.service.ts:1996-2041 | The two counts are of the tasks that stand in a column, and of those of a status. |
| Sprints.CompletionConservesTasks | src/agile/agile.service.ts:521-547 | Completion rewrites nothing but the sprint of unfinished tasks, and moved plus remaining is the earlier unfinished count. |
| Sprints.CompletionFillsTarget | src/agile/agile.service.ts:505-535 | Another sprint gains exactly the unfinished tasks, and the completed one keeps exactly the others. |
| Sprints.NoneLeftBehindIff | src/agile/agile.service.ts:505-535 | No unfinished task is left in the sprint exactly when there was none or they went somewhere else than the sprint itself. |
| Sprints.ReportIsRightIff | src/agile/agile.service.ts:543-547 | The reported remainder is right exactly when the sprint was not its own non-trivial target. |
| Sprints.SelfTargetExample | src/agile/agile.service.ts:505-547 | An instance: a sprint completed into itself keeps its task and reports it moved. |
| Sprints.CompletedIsFinal | src/agile/agile.service.ts:383-560 | A completed sprint stays as it is over any run of requests. |
| Sprints.ActiveLeavesOnlyByCompletion | src/agile/agile.service.ts:383-560 | Over any run in order of time an active sprint is still active at the end, or was completed by a request for it. |
| Sprints.RunKeepsNoOrphans | src/agile/agile.service.ts:421-444 | Over any run no task is left in a sprint that does not exist. |
| SprintRequests.CreateLeaves | src/agile/agile.service.ts:353-375 | A sprint is created exactly with a schedule, with the dates sent. |
| SprintRequests.UpdateIsAcceptedIff | src/agile/agile.service.ts:383-419 | An update is accepted exactly when it completes nothing, touches no date of a completed sprint, keeps a running one started and leaves a schedule. |
| SprintRequests.UpdateLeaves | src/agile/agile.service.ts:383-419 | It changes the dates that are sent, and nothing else. |
| SprintRequests.StartLeaves | src/agile/agile.service.ts:446-483 | A sprint is started now exactly when it is not completed and no other of the project runs. |
| SprintRequests.DeleteLeaves | src/agile/agile.service.ts:421-444 | A sprint is deleted exactly when it neither runs nor is completed and nothing hangs on it. |
| SprintRequests.CompleteIsAcceptedIff | src/agile/agile.service.ts:485-518 | A running sprint is completed exactly with no target, or one of the project that is not completed. |
| SprintRequests.CompleteLeaves | src/agile/agile.service.ts:505-547 | It is stamped, its open tasks go to the target, or to the backlog unless declined, the report counts them, and nothing else changes. |
| SprintRequests.AddLeaves | src/agile/agile.service.ts:593-622 | Tasks are added exactly when all are of the tenant and the project, and only their sprint changes. |
| Burndown.DaysBetween | src/agile/agile.service.ts:2071-2082 | The cursor loop yields the specified days. |
| Burndown.DaysAreConsecutive | src/agile/agile.service.ts:2071-2082 | The loop yields between 1 and 180 days, one day apart, from the first day to the last unless cut off. |
| Burndown.RemainingIsTotalLessCompleted | src/agile/agile.service.ts:1174-1186 | Each entry is the total less what was completed by that day, in points and in tasks. |
| Burndown.SeriesBurnsDown | src/agile/agile.service.ts:1166-1188 | For non-negative points the series never rises and stays between zero and the totals. |
| Burndown.SeriesWeighsOpenWork | src/agile/agile.service.ts:1174-1186 | Each entry bears its day and weighs the tasks not completed by it, by their points or one. |
| AgileService.Service.EnsureDefaultBoard | src/agile/agile.service.ts:1537-1580 | The default board, else the oldest one promoted, else a new one with the seven columns. |
| AgileService.Service.AssertWipLimitAllowsMove | src/agile/agile.service.ts:2013-2041 | Allows a move within a status, and otherwise decides by the default board's column of the new status. |
| AgileService.Service.UpdateTaskStatus | src/agile/agile.service.ts:994-1051 | The specified tables and outcome, also when the board is ensured twice. |
| AgileService.EnsuringTwiceIsOnce | src/agile/agile.service.ts:1537-1580 | A project that has its default board keeps it. |
| AccessPolicy.FilterAgreesWithCheck | src/access-policy/project-access-policy.service.ts:124-415 | The query selects a project of the user's tenant exactly when the computed actions include viewProject. |
| AccessPolicy.TaskFilterFollowsProject | src/access-policy/project-access-policy.service.ts:143-158 | The task query selects a task exactly when the project query selects its project. |
| AccessPolicy.AddingPermissionsKeepsActions | src/access-policy/project-access-policy.service.ts:331-415 | More global permissions never remove an action, on archived projects too. |
| AccessPolicy.NoAccessIff | src/access-policy/project-access-policy.service.ts:296-329 | The level is none exactly when no clause of the filter holds. |
| ProjectRoles.MembersMay | src/access-policy/project-access-policy.service.ts:296-415 | A member without a global permission may do exactly what the role's list says, comment with the permission for it, and in an archived project only what it leaves. |
| ProjectRoles.OutsidersMay | src/access-policy/project-access-policy.service.ts:296-415 | Someone who is not a member may do exactly what the team, the tasks, the visibility and the task permission let him. |
| ProjectRoles.ManagersMay | src/access-policy/project-access-policy.service.ts:296-415 | Whoever manages the tenant or all projects may do everything, in an archived project too. |
| ProjectRoles.ListsProjectIff | src/access-policy/project-access-policy.service.ts:124-143 | The query lists a project of the tenant exactly for managers, members, the team, those who work on its tasks, and everybody when it is open. |
| ProjectRoles.RoleIsNamed | src/access-policy/project-access-policy.service.ts:417-429 | Which normalised names stand for which role. |
| ProjectRoles.NamesAreJoined | src/access-policy/project-access-policy.service.ts:417-421 | A name of two words becomes the two in capitals joined by one underscore, whatever stands between them. |
| AccessPolicy.GrantsFor | src/access-policy/project-access-policy.service.ts:331-396 | Setting the flags one by one grants exactly what the level and the permissions allow. |
| AccessPolicy.ActionsFor | src/access-policy/project-access-policy.service.ts:331-415 | The finished record grants the specified actions, comments added and archived projects cut down. |
| AccessPolicy.GetProjectPermissions | src/access-policy/project-access-policy.service.ts:174-199 | Permissions are given out exactly when they include viewProject. |
| AccessPolicy.NormalizingTwiceIsOnce | src/access-policy/project-access-policy.service.ts:417-429 | A normalised role name normalises to itself. |
| Sessions.EnforceIsExact | src/auth/auth.service.ts:1510-1533 | Of the user's other active sessions the cap - 1 newest stay active and the rest are revoked. |
| Sessions.EnforceTouchesOthersOnly | src/auth/auth.service.ts:1510-1533 | Neither the current session nor another user's is touched. |
| Sessions.CapBoundsActive | src/auth/auth.service.ts:1510-1533 | Under a positive cap M at most M sessions of the user are active. |
| Sessions.SignInIsExact | src/auth/auth.service.ts:1144-1217 | After a sign-in the user's active sessions are exactly the new one, if the policy gives it a lifetime, and the cap - 1 newest others, or all others without a cap. |
| Sessions.RefreshIsExact | src/auth/auth.service.ts:417-461 | The same after an accepted refresh, for the session refreshed. |
| SessionRequests.RefreshSucceedsIff | src/auth/auth.service.ts:417-461 | A refresh succeeds exactly with a signed token that is the stored one, for a session that is alive in an open tenant. |
| SessionRequests.RefusedRefreshLeaves | src/auth/auth.service.ts:417-446 | A signed token of a live session refused for its tenant or as not the stored one revokes exactly this session; every other refusal changes nothing. |
| SessionRequests.AcceptedRefreshLeaves | src/auth/auth.service.ts:1168-1217 | The session's end moves by the tenant's policy, and nobody else's row is touched. |
| SessionRequests.SignInLeaves | src/auth/auth.service.ts:1144-1217 | A sign-in adds one unrevoked session with the end the policy gives it, and touches nobody else's. |
| SessionRequests.CapMeans | src/auth/auth.service.ts:1510-1533 | The cap is the policy's number of sessions, when it is set and not zero. |
| Sessions.LogoutEndsOne | src/auth/auth.service.ts:463-486 | Signing out revokes the named session if it is the user's and leaves every other as it is. |
| Sessions.NoRefreshAfterLogout | src/auth/auth.service.ts:417-486 | A session that was signed out cannot be refreshed, over any run and with any token. |
| Sessions.LogoutByTokenEndsOneIff | src/auth/auth.service.ts:488-521 | Signing out by token ends the token's session exactly when the token is valid, and no other. |
| SessionRequests.LogoutLeaves | src/auth/auth.service.ts:463-486 | Row by row what signing out leaves: an earlier revocation keeps its time. |
| SessionRequests.ResetSucceedsIff | src/auth/auth.service.ts:577-590 | A reset link works exactly while unused and not past its end, for an account not deactivated and a password the policy takes. |
| SessionRequests.ResetLeaves | src/auth/auth.service.ts:577-614 | It uses up every link of the user, revokes every session that was not, and touches nothing else. |
| SessionRequests.ChangeLeaves | src/auth/auth.service.ts:639-706 | A change of password revokes the user's other sessions when asked to, and else none. |
| SessionRequests.AskResetLeaves | src/auth/auth.service.ts:913-928 | A new link uses up the user's earlier ones. |
| Sessions.RunAges | src/auth/auth.service.ts:417-706 | Over any run a revoked session stays revoked, and one that is not active never becomes active again. |
| Sessions.NoRefreshAfterReset | src/auth/auth.service.ts:577-614 | No session that existed at a password reset can be refreshed afterwards, whatever happens in between. |
| Sessions.LinksDieWithReset | src/auth/auth.service.ts:577-614 | No reset link the user had at a reset works again, over any run. |
| Sessions.ChangeLeavesCurrentOnly | src/auth/auth.service.ts:639-706 | Changing the password and revoking the others leaves at most the current session active. |
| Presence.RunKeepsInv | src/collaboration/realtime.gateway.ts:57-86 | Over runs of connects, failed joins of users without live sockets and disconnects, each entry counts its user's live sockets, entries and live users coincide, and announcements alternate from online. |
| Presence.ConnectKeepsInv | src/collaboration/realtime.gateway.ts:57-78 | A connect keeps counts, entries and announcements right. |
| Presence.DisconnectKeepsInv | src/collaboration/realtime.gateway.ts:80-86 | A disconnect keeps counts, entries and announcements right. |
| Presence.FailedJoinKeepsInvIff | src/collaboration/realtime.gateway.ts:57-86 | A join that fails after the user was attached keeps the counts right exactly when the user has no live socket. |
| Presence.FailedJoinExample | src/collaboration/realtime.gateway.ts:57-86 | An instance: the failed join of a second socket takes a connected user off the list. |
| Presence.OnlineListIsExact | src/collaboration/realtime.gateway.ts:366-370 | The online list names exactly the tenant's users with a live socket, each once. |
| Presence.KeysCollideIff | src/collaboration/realtime.gateway.ts:336-364 | Users of two tenants can share a presence key exactly when one tenant id extends the other by a colon. |
| Presence.ColonFreeIsApart | src/collaboration/realtime.gateway.ts:336-364 | Ids without a colon, as the database generates them, never share a key. |
| Presence.KeysMayCollide | src/collaboration/realtime.gateway.ts:336-364 | An instance: two users that share a key. |
| Presence.RealtimeGateway.HandleConnection | src/collaboration/realtime.gateway.ts:57-78 | A connect that fails to join runs the disconnect handler, and comes to counting off a socket that was never counted on. |

## Left out

- Presence.RunKeepsInv: takes a connect as one step, and asks that no tenant id extends another by a colon and that joins fail only for users without live sockets; KeysCollideIff and FailedJoinKeepsInvIff show that both are needed.
- BoardMoves.RunRespectsLimit: asks that no move that names no column overfills this one; MoveRespectsLimitIff shows that this is needed, and when it holds is told by the guards in RestatusOverfillsIff, OrderOverfillsIff and UncheckedOverfillsIff.
- BillingCoupling.RunKeepsCoupled: excludes two plan changes of one subscription in one millisecond, the only steps that can break it (StepKeepsCoupledIff), and covers the methods of the billing service only; the admin service can set a tenant's status too.
- BillingCharges.ChargeAppliesOnce: is about charges with one payee, which NamedChargeHasOnePayee and OneReturnerOnePayee grant; with several payees EachPayeeBuysOnce and InvoiceGoesToLastPayee hold.
- BillingCharges.WrongPaymentChangesNothing: is about the books; the webhook still records an ignored event.
- BillingIsolation.RequestStaysInTenant: asks, as RequestKeepsToIff does, that no tenant has the empty id, which a request body may send and the database never generates.
- BoardActions.NothingRunsTwice: counts as executed again only what the apply loop executes; runAction executes failed and cancelled actions again, until one execution succeeds.
- BoardHistory.PageIsExact: takes rows of one creation time to stand in one order in every query of a table, which the database does not promise for an order without a tie-breaker.
- Documents.RunKeepsLatest: asks that no run deletes a folder in which an archived document lies; RequestKeepsLatestIff shows that this is needed.
- Calendar.IntervalLength: is in a zone of fixed offset; daylight saving and the limit of the time value at 8.64e15 ms are not modelled.
- Proration.ProrationIsBounded: is in whole cents and exact rationals, not in binary floating point.
- AccessPolicy.NormalizingTwiceIsOnce: is on ASCII letters and spaces; other case mappings are not modelled.
- Sprints.RunKeepsNoOrphans: covers the sprint requests; moving a task into a sprint by updateTaskOrder checks that the sprint exists.
- Reading and paging of lists other than the board history, search, and the completion rates and wording of metrics: single expressions over fetched rows.
- JSON metadata blobs (among them the note of a plan change at the period's end), invoice numbers, links, tax and due dates, change notes and document types: written and never read by the modelled logic.
- Provider statuses and event types are taken as the names and prefixes the code tests for, numbers in provider payloads as whole, and prices as exact decimals.
- Rows without an order are looked up in table order where the code asks for the first match without sorting.
- HTTP calls, signatures, password hashes and tokens: their results are inputs, and nothing is claimed about forging them.
- Audit and security events, mail, notifications and socket rooms other than presence: side effects without a law.
- Overlapping requests: the code gives no isolation between them, so each method is one step.
- Usage records, entitlements, features, the plan catalogue, createInvoice and updateInvoiceStatus: they leave subscriptions and tenants alone; the plan table may change in any way between steps.
- Controllers, request validation, configuration and seeds, and the admin, access-control, account and collaboration services: wiring and single guards.
