# IdentityMesh: verified model

A Dafny 4.11 model of the parts of IdentityMesh that decide whether an offboarding can be trusted: the lease-based
job queue, the offboarding case from draft to verdict, the synchronisation and correlation of accounts, the shared
rate limiter, SCIM paging and the PDF report.  `dafny verify dfyconfig.toml` checks everything.

How the system is modelled:

- A PostgreSQL table is a map from ids to rows; each statement or transaction is one atomic step.  The classes
  (`DistributedQueue`, `ConnectorTable`, `Service`, `IdentityTable`, `Limiter`) run the code's statements in program
  order; the `...Runs` modules let any number of invocations interleave, crash between statements and repeat.
- A run is any sequence of steps.  A step that does not apply changes nothing, so a theorem about runs has no
  hypothesis about scheduling unless it states one.
- Clocks, fresh ids, provider answers, page contents and the order in which queries return rows are inputs.

| files | what they hold |
|---|---|
| `JobQueue`, `JobQueueRuns`, `JobQueueSharedIds`, `JobQueueService` | the rows, all interleavings over them, exactly when fencing holds, and the worker class, proved to be runs |
| `Domain`, `Settings`, `Connectors`, `Text` | verdict and transition table, connector validation, planner and executor choices |
| `CaseTables`, `CaseRuns`, `CaseInvariant`, `CaseSteps` | the case tables, all interleavings over them, the invariant and its preservation |
| `Outcomes`, `CaseTheorems`, `CaseConnectors`, `CaseProvenance`, `CaseFailures`, `CaseVerification`, `CaseExactness`, `CaseExactRuns`, `CaseVerdicts` | what follows for every run |
| `CaseService` | the service methods with their loops, proved to be runs of `CaseRuns` |
| `Delivery`, `Interruption` | queue and lifecycle together, and what a crash leaves behind |
| `Reconciliation`, `ReconciliationRuns`, `Correlation`, `Matching`, `MatchingLaws`, `SyncRefinement` | synchronisation and correlation, and their refinement to one lifecycle step |
| `RateLimit`, `RateLimitRuns`, `Paging`, `PdfText`, `Pdf` | the self-contained algorithms |

Where the code does not do what one might expect, the model follows the code and says so in a lemma:

- Loops of one process share a worker id.  Then a stale failure is applied (`SharedIdsBreakTheFence`); the fence holds
  exactly for distinct ids (`FenceIsExact`), the bound on applied failures for any (`AtMostMaxFailures`).
- Nothing resumes an interrupted execution (`InterruptedForever`); a started case can finish exactly while its execution
  lives (`StartedCanFinishExactly`).
- The LDAP client decodes the stored configuration untrimmed, by type and whatever the case of a key, while validation
  trims and looks at exact keys; `PlannerAndExecutorAgree` says exactly when it accepts what validation accepted, and
  `PaddedFilterIsRefused`, `SecondSpellingIsRead`, `FractionIsRefused` and `MistypedNameIsRefused` show refusals.
- Columns are tested for "" before they are trimmed, so two employee numbers of white space link (`PaddedBlanksLink`).
- Connector edits are read, checked and written without a lock; overlapping ones can store an invalid connector
  (`OverlappingEditsBreakConnector`), though only in its write settings (`OverlappingEditsAreExact`,
  `OnlyWriteSettingsCanBreak`).
- The limiter aligns windows to whole seconds; for a fractional window a span of one window can admit three times
  the limit (`WindowSpanIsExact`), and a clock that lags a little over five minutes can have its window reset
  (`LagIsExact`).
- A reordered list of people can produce new candidates for an unchanged account (`ReorderingProposes`,
  and exactly when in `CandidatesIgnoreOrder`).
- A SCIM provider that reports too low a total truncates the list (`LowTotalTruncates`; exactly when a list is complete
  is in `CompleteExactly`).

## Model

| member | source | states |
|---|---|---|
| `JobQueueService.JobTable.Upsert` | backend/internal/workers/distributed.go:73-83 | the row that carries the key afterwards is returned, and it is new exactly when no row carried the key; the table stays a run of the queue |
| `JobQueueService.DistributedQueue.constructor` | backend/internal/workers/distributed.go:35-52 | a lease of ten seconds or more is kept and any other becomes two minutes; two heartbeat periods fit strictly inside the whole seconds of the lease in use |
| `JobQueueService.DistributedQueue.Enqueue` | backend/internal/workers/distributed.go:65-84 | an empty organisation or key and a priority outside 0 to 1000 are refused without change; otherwise one row per key, "created" is said exactly for a new key, and a new row is queued now with five attempts |
| `JobQueueService.DistributedQueue.Claim` | backend/internal/workers/distributed.go:119-137 | of the visible rows that are queued and due, or running past their lease, the one taken has the highest priority and among equals the earliest creation; it gets the lease and its next attempt number; nothing is returned exactly when there is no such row |
| `JobQueueService.DistributedQueue.Heartbeat` | backend/internal/workers/distributed.go:152-153 | no other row changes; this one changes only while running and owned by this worker, and then its lease ends the whole seconds of the lease from now |
| `JobQueueService.DistributedQueue.Finish` | backend/internal/workers/distributed.go:164-181 | no other row changes, nor this one unless owned; a released row keeps its attempts and succeeded, or is dead, or waits 2 to the power of min(attempt, 8) seconds by the attempt handed out and keeps the first 500 characters of the error; with distinct worker ids a row that changes is still at that attempt |
| `JobQueue.BestExists` | backend/internal/workers/distributed.go:122-130 | the ordering of the candidate query always has a first row |
| `JobQueue.BackoffBounds` | backend/internal/workers/distributed.go:176 | a failed attempt waits 2 to 256 seconds, doubling up to the eighth |
| `JobQueue.HeartbeatFitsLease` | backend/internal/workers/distributed.go:42-44 | for every requested lease, two heartbeat periods fit strictly inside the whole-second lease that is stored |
| `JobQueueRuns.RunKeepsInv` | backend/internal/workers/distributed.go:65-181 | the queue invariant holds after every run, whatever the worker ids |
| `JobQueueRuns.Conservation` | backend/internal/workers/distributed.go:119-181 | in every run attempts = applied failures + expired leases taken over + 1 if running or succeeded; running, owner and lease coincide; dead means attempts used up |
| `JobQueueRuns.AtMostMaxFailures` | backend/internal/workers/distributed.go:172-181 | at most max_attempts failures are ever applied to a job, even with shared worker ids |
| `JobQueueRuns.IdentityIsStable` | backend/internal/workers/distributed.go:65-181 | in every run a job keeps its identity, and SUCCEEDED and DEAD are absorbing |
| `JobQueueRuns.EnqueueIsIdempotent` | backend/internal/workers/distributed.go:65-84 | whatever happens in between, the second enqueue of a key returns the first job's id and never says created |
| `JobQueueRuns.LeaseIsExclusive` | backend/internal/workers/distributed.go:122-134 | until a lease runs out, no sequence of steps of others changes the row |
| `JobQueueRuns.NoStuckJob` | backend/internal/workers/distributed.go:124-125 | in every run an unfinished job is claimable once the longest lease or back-off has passed |
| `JobQueueRuns.StaleWorkerIsFenced` | backend/internal/workers/distributed.go:152-180 | with distinct worker ids, a loop whose lease was taken over can change the row by no heartbeat, success or failure |
| `JobQueueRuns.FailuresAreCurrent` | backend/internal/workers/distributed.go:172-180 | with distinct worker ids, an applied failure is about the current attempt and a queued job has an attempt left |
| `JobQueueRuns.AppliedFailureWaits` | backend/internal/workers/distributed.go:172-181 | in every run a failure that is applied makes its row wait 2 to the power of min(attempt, 8) seconds for the attempt handed out, and stores the first 500 characters of its error |
| `JobQueueSharedIds.SharedIdsBreakTheFence` | backend/internal/workers/distributed.go:86-94 | for any two loops that share a worker id and every n, there is a run in which a failure of the first attempt requeues a job with n + 1 attempts |
| `JobQueueSharedIds.FenceIsExact` | backend/internal/workers/distributed.go:86-181 | stale workers are fenced off in every run if and only if no two loops share a worker id, and the same is equivalent to every queued job having an attempt left in every run |
| `Domain.WalkClimbs` | backend/internal/domain/domain.go:84-94 | every walk along the transition table climbs in rank with each edge and leaves no terminal state |
| `Domain.EdgesAre` | backend/internal/domain/domain.go:84-94 | the whole table: an edge climbs one rank, or cancels one of the four statuses before running, or ends a running case early |
| `Domain.ReachabilityIsStrict` | backend/internal/domain/domain.go:84-94 | reachability by transitions is irreflexive, ranked and never starts in a terminal state |
| `Domain.ReachesExactly` | backend/internal/domain/domain.go:84-94 | a status is reachable from another if and only if it ranks higher and, for CANCELLED, the case has not started |
| `Connectors.PermittedIs` | backend/internal/httpapi/server.go:100-111 | the table by capability: discovery for all but CSV, disabling for SCIM, LDAP, Entra, Okta and Google, removal for SCIM, LDAP and GitHub, the rest for SCIM |
| `Connectors.ConnectorTable.CheckCapabilities` | backend/internal/httpapi/server.go:552-560 | the loop with its seen map accepts exactly lists without repetition whose capabilities that table allows |
| `Connectors.ConnectorTable.Create` | backend/internal/httpapi/server.go:538-630 | a row is stored exactly when its capabilities are allowed and distinct, writing is for no CSV source and comes with a write capability, and an LDAP configuration has its four texts, two filters in parentheses, a page size from 1 to 5000, known options, and what its write capabilities need |
| `Connectors.ConnectorTable.Update` | backend/internal/httpapi/product.go:589-714 | a serialised edit is stored exactly when the merged row satisfies the same demands and enabling writes comes with a write capability; all connectors stay valid |
| `Connectors.SoundIs` | backend/internal/httpapi/product.go:77-112 | the validity kept by all edits is, said over the stored members, exactly what the form demands |
| `Connectors.OverlappingEditsAreExact` | backend/internal/httpapi/product.go:589-714 | any number of edits that were all checked against one row leave a valid connector if and only if the permission, the capability list and the configuration that were written last go together |
| `Connectors.OverlappingEditsBreakConnector` | backend/internal/httpapi/product.go:589-714 | two such edits store an LDAP connector that may write without a disable strategy |
| `Connectors.SubstringTestIsMembership` | backend/internal/assurance/service.go:632-635 | searching the capability JSON for a write capability is list membership |
| `Connectors.PlannedWriteHasABranch` | backend/internal/assurance/service.go:630-637 | each action is planned exactly for its stored state, its connector type out of the five that disable or GitHub, write permission and listed capability; a planned write goes to the SCIM, the LDAP or the native branch of the executor by its type |
| `Settings.SoleIsAssigned` | backend/internal/assurance/service.go:127-133 | when one member only goes to a field, the LDAP client reads what validation checked, untrimmed |
| `Connectors.PlannerAndExecutorAgree` | backend/internal/assurance/service.go:121-139 | an LDAP disable that was planned found a strategy; the executor accepts the stored configuration if and only if every member has the type of its field, the page size is whole, and both filters and the strategy are stored without surrounding white space or replaced by an acceptable other spelling of their key |
| `Connectors.PlainSettingsAgree` | backend/internal/assurance/service.go:121-139 | where no key has a second spelling, the executor accepts if and only if types fit and filters and strategy are stored without padding |
| `Connectors.PaddedFilterIsRefused` | backend/internal/connectors/ldap/client.go:31-46 | every valid configuration stays valid with a blank before its user filter, and is then refused |
| `Connectors.SecondSpellingIsRead` | backend/internal/assurance/service.go:127-133 | every valid configuration stays valid with any other spelling of userFilter stored after it, and the client reads that one |
| `Connectors.FractionIsRefused` | backend/internal/httpapi/product.go:92-94 | every page size from 1 to 5000 passes validation, and the client accepts only whole ones |
| `Connectors.MistypedNameIsRefused` | backend/internal/assurance/service.go:127-133 | a server name that is not text passes validation and makes the client refuse |
| `CaseTables.EqualCountsMeanAllDisabled` | backend/internal/assurance/service.go:778-782 | disabled and active counts never exceed the managed count, and disabled equals managed exactly when every linked account is DISABLED |
| `CaseTables.DisabledIsListed` | backend/internal/assurance/service.go:321-326 | an id that a listing makes DISABLED has an inactive entry in it |
| `CaseSteps.StepKeepsInv` | backend/internal/assurance/service.go:591-807 | every statement of planners, approvers, cancellations, executions, syncs, reviews and edits keeps the coupling of cases, actions, executions and histories |
| `CaseSteps.RunKeepsInv` | backend/internal/assurance/service.go:591-807 | so does every run |
| `CaseTheorems.AtMostOnce` | backend/internal/assurance/service.go:700-734 | in every interleaving one execution at most passes the guard of a case and each action reaches its provider at most once |
| `CaseTheorems.CaseAndActionsAreCoupled` | backend/internal/assurance/service.go:599-731 | DRAFT has no actions, AWAITING_APPROVAL has some and all PLANNED, APPROVED has all APPROVED with an approver, and no action of a cancelled case ever reached a provider |
| `CaseTheorems.ExecutorHasABranch` | backend/internal/assurance/service.go:810-856 | no execution reaches the unsupported-type or LDAP-membership error |
| `CaseTheorems.OneEvidencePerAction` | backend/internal/assurance/service.go:764-769 | a returned execution left exactly one evidence record per action, with its outcome |
| `CaseTheorems.MovesAreAllowed` | backend/internal/domain/domain.go:84-94 | each pair of consecutive stored statuses is joined by transitions of the table |
| `CaseTheorems.StatusesFollowTransitions` | backend/internal/assurance/service.go:771-799 | every status that a statement stores, guarded or not, follows the stored one by allowed transitions; terminal stays terminal |
| `CaseTheorems.ChangesAreBounded` | backend/internal/domain/domain.go:84-94 | a case changes status at most five times in any run |
| `CaseTheorems.SnapshotsAddUp` | backend/internal/assurance/service.go:789-799 | every stored snapshot has succeeded + failed = connected, none negative, disabled + active <= managed, and of its own numbers INCONCLUSIVE exactly with a failed system, FAILED exactly with none and an active account, PARTIALLY_VERIFIED exactly otherwise with anything open |
| `CaseProvenance.DisabledIsWrittenFromARead` | backend/internal/assurance/service.go:735-738 | for every run and next step that makes an account DISABLED, the step either commits a listing, read before, whose last entry for the account is inactive, or stores the outcome of its own execution's re-read, an earlier step that saw the account inactive |
| `CaseProvenance.DisabledWasObserved` | backend/internal/assurance/service.go:203-212 | in every run a DISABLED account has such a write behind it, since which it stayed DISABLED |
| `CaseProvenance.SuccessWasObserved` | backend/internal/assurance/service.go:733-746 | in every run a write action is SUCCEEDED only after a re-read of its own that saw the account inactive |
| `CaseVerification.StoredVerdictIsExact` | backend/internal/assurance/service.go:775-799 | in every interleaving a stored verdict has three count steps of the case's own execution behind it: INCONCLUSIVE if and only if a system had failed; FAILED if and only if none had and a linked account was ACTIVE at the account count; PARTIALLY_VERIFIED if and only if neither and an account was not DISABLED, a candidate was pending or a manual action existed; VERIFIED if and only if none of these; and the case is COMPLETED, FAILED or PARTIAL accordingly |
| `CaseVerification.VerifiedMeansObservedDisabled` | backend/internal/assurance/service.go:771-799 | when a case is VERIFIED, some step of the run is the account count of an execution of that case, and at that step every account linked to the person was DISABLED by a write from its own inactive read, since which it had stayed so |
| `CaseFailures.FailedIsErred` | backend/internal/assurance/service.go:733-749 | in every run a system counts as failed in an execution if and only if a provider call of that execution to it returned an error |
| `CaseConnectors.OnlyWriteSettingsCanBreak` | backend/internal/httpapi/product.go:589-714 | in every run, with edits read and written in separate statements, a stored connector is valid if and only if the permission, capabilities and configuration written to it last go together; nothing else can break |
| `CaseConnectors.SerialisedEditsKeepConnectors` | backend/internal/httpapi/product.go:589-714 | if every write finds the row its check read, every connector of the run is valid |
| `CaseConnectors.PlannedDisableHasStrategy` | backend/internal/assurance/service.go:630-637 | then a planned disable has an enabled connector with the capability, and for LDAP a known strategy |
| `CaseExactness.PlanIsExact` | backend/internal/assurance/service.go:599-667 | after planning the actions are one per linked account and fit its stored state |
| `CaseExactRuns.QuietRunKeepsExact` | backend/internal/assurance/service.go:723-770 | while only the execution writes the person's accounts and links, outcomes and stored states stay in step |
| `CaseVerdicts.CountsAreUnique` | backend/internal/assurance/service.go:775-788 | in every run each of the three counts of a case is taken at most once |
| `CaseVerdicts.VerificationIsExact` | backend/internal/assurance/service.go:723-799 | if between planning and the account count only the execution writes the person's accounts and links, the verdict is VERIFIED if and only if every action succeeded and no candidate of the person was pending at the candidate count, whatever others write between the counts and after them |
| `CaseVerdicts.CountsFollowThePlan` | backend/internal/assurance/service.go:775-788 | every execution that returned took both counts after the plan |
| `CaseService.Choose` | backend/internal/assurance/service.go:613-639 | the first planning loop chooses one action per linked account, the one the planner's rule gives |
| `CaseService.InsertPlanned` | backend/internal/assurance/service.go:645-653 | the inserts add the planned rows and leave existing ones alone |
| `CaseService.Service.CreateCase` | backend/internal/assurance/service.go:591-598 | a DRAFT case for a known person, NoRows otherwise |
| `CaseService.Service.PlanCase` | backend/internal/assurance/service.go:599-667 | an unknown case, one that is no DRAFT and a person without a known identity are refused without change; otherwise one PLANNED action per linked account is stored and shown, and the case awaits approval, ready for an exact verdict |
| `CaseService.Service.ApproveCase` | backend/internal/assurance/service.go:677-698 | approves exactly a case that awaits approval, with every one of its actions, which exist, in the name of the user; nothing else changes |
| `CaseService.Service.CancelCase` | backend/internal/httpapi/product.go:432-447 | cancels exactly a DRAFT, PLANNED, AWAITING_APPROVAL or APPROVED case, leaves every action of it SKIPPED, and changes nothing else |
| `CaseService.Service.ReviewCandidate` | backend/internal/httpapi/product.go:245-295 | decides exactly a pending candidate, linking on acceptance, and refuses an account that is linked |
| `CaseService.Service.ExecuteAndVerify` | backend/internal/assurance/service.go:700-808 | runs exactly an APPROVED case; over all its actions, each loaded once, the outcome and the stored account follow the provider's answer, with one evidence record and one call per write; the systems that failed are those that erred; the verdict is exact |
| `CaseService.Service.Offboard` | backend/internal/assurance/service.go:591-808 | for every person with a known identity the four requests in a row all go through, and the verdict is VERIFIED exactly when every action succeeded and no candidate is pending |
| `CaseService.Service.LoadActions` | backend/internal/assurance/service.go:708-722 | loads every action of the case once |
| `CaseService.Service.Attempt` | backend/internal/assurance/service.go:731-759 | a write action is sent to its provider once, any other never; it succeeds exactly when the re-read saw the account inactive, which is then stored; a check succeeds exactly on a DISABLED account; an error alone marks the system as failed |
| `CaseService.Service.Perform` | backend/internal/assurance/service.go:724-770 | one iteration moves the execution by one action, stores its outcome and counts the attempt |
| `CaseService.Service.Verify` | backend/internal/assurance/service.go:771-799 | each of the four verdicts exactly for its rows: failed systems, then active accounts, then accounts not disabled, pending candidates or manual actions; one snapshot with the row counts; COMPLETED, FAILED or PARTIAL |
| `Delivery.HalvesAreRuns` | backend/cmd/server/main.go:93-102 | queue and lifecycle joined by delivery are still runs of each, so every theorem above holds of the whole |
| `Delivery.ExecutedAtMostOnce` | backend/cmd/server/main.go:93-102 | over any enqueues, claims, expiries, crashes and retries, a case is executed and an action sent at most once |
| `Delivery.SucceededMeansFinished` | backend/internal/httpapi/server.go:738-755 | a job is SUCCEEDED only when its case has a final status, and a case has at most one job |
| `Delivery.InterruptedForever` | backend/internal/assurance/service.go:700-707 | a case whose execution was interrupted keeps its status in every continuation and its job never succeeds |
| `Interruption.ApprovedCanBeInterrupted` | backend/internal/assurance/service.go:700-707 | in every run an approved case can be started and left interrupted by a crash |
| `Interruption.StartedCanFinishExactly` | backend/internal/assurance/service.go:700-808 | a case that has started and not finished has a continuation in which it finishes if and only if an execution still works on it |
| `Reconciliation.Upsert` | backend/internal/assurance/service.go:212 | one row per organisation, connector and external id; the row of the entry is updated or inserted, all others stay |
| `Reconciliation.ListedIffNotMissing` | backend/internal/assurance/service.go:218-220 | the last entry decides the state, and MISSING is exactly unlisted |
| `Reconciliation.ChooseEmail` | backend/internal/assurance/service.go:315-320 | the loop keeps the address the next row describes |
| `Reconciliation.KeptEmailIsPrimary` | backend/internal/assurance/service.go:315-320 | the last primary address with content wins; without primaries the first address with content |
| `Reconciliation.DiscoverLdap` | backend/internal/assurance/service.go:201-217 | after the loop every listed account has a row with the state and columns of its last entry, other rows are untouched, and the collected names are the listed ones |
| `Reconciliation.DiscoverScim` | backend/internal/assurance/service.go:313-331 | the same, and the collected row ids are exactly the rows of listed accounts |
| `Reconciliation.DiscoverNative` | backend/internal/assurance/service.go:432-448 | the same for the native providers |
| `Reconciliation.IdentityTable.SyncLdap` | backend/internal/assurance/service.go:168-252 | a failed listing changes no account; otherwise the row of each listed dn is DISABLED if its last entry has a lock time or the description DISABLED in any case and ACTIVE if not, with the cn, mail and employeeNumber of that entry; unlisted rows are MISSING, and missing_since dates the miss |
| `Reconciliation.IdentityTable.SyncScim` | backend/internal/assurance/service.go:274-366 | the same by row ids: the state is the active flag of the last user, the address the one kept, a known employee number stays and a new row takes the external id of the first user |
| `Reconciliation.IdentityTable.SyncNative` | backend/internal/assurance/service.go:399-480 | the same for the native providers, with the e-mail and employee number of the last user |
| `ReconciliationRuns.ReconciledAgrees` | backend/internal/assurance/service.go:201-220 | no row is deleted, every listed account is present, other connectors' rows and other tenants see no change, and every row of the connector agrees with the listing |
| `ReconciliationRuns.MissingSinceIsFirstMiss` | backend/internal/assurance/service.go:218-220 | over all sequences of syncs, failed ones included, missing_since is set exactly on MISSING rows and is the time of the first sync that missed the account since it was last listed |
| `Text.TrimIsExact` | backend/internal/correlation/correlation.go:34 | trimming cuts white space off both ends and nothing else: no visible ASCII character is lost and neither end is a blank, a tab or a line break |
| `Correlation.FoldAndTrimCommute` | backend/internal/correlation/correlation.go:33-43 | counting and comparing normalise addresses to the same text |
| `Correlation.NormalizedShape` | backend/internal/correlation/correlation.go:33-43 | a normalised address is the trimmed, folded text if that has exactly one separator with text on both sides, and empty otherwise |
| `Matching.CountEmails` | backend/internal/assurance/service.go:537-542 | the map holds, for each address, how many people carry it |
| `Matching.MatchAccount` | backend/internal/assurance/service.go:544-586 | the inner loop links to the first strong match, proposes the name matches before it, and opens at most one finding |
| `Matching.Correlate` | backend/internal/assurance/service.go:506-589 | the nested loops do that for every account and count the findings opened |
| `MatchingLaws.StrongMeans` | backend/internal/correlation/correlation.go:15-31 | a match is strong if and only if the external ids agree and the account has one, or the employee numbers agree and neither is "", or both carry an address of a trusted domain that no other person carries; trimmed and folded |
| `MatchingLaws.WeakMeans` | backend/internal/correlation/correlation.go:15-31 | a name makes a candidate if and only if there is no strong match and no address of their own, and the names agree and are not "" |
| `MatchingLaws.LinkIsExact` | backend/internal/assurance/service.go:547-566 | an account is linked afterwards if and only if it was or some person has a reason, and then to the first such person |
| `MatchingLaws.OrphanIsExact` | backend/internal/assurance/service.go:575-586 | an orphan finding is opened if and only if no person has a reason and none is open, and it is ambiguous exactly with a namesake |
| `MatchingLaws.BlanksNeverLink` | backend/internal/assurance/service.go:507-548 | an account without external id, employee number and address is never linked |
| `MatchingLaws.PaddedBlanksLink` | backend/internal/correlation/correlation.go:16 | two employee numbers of white space only link if and only if neither is "" |
| `MatchingLaws.EmailMatchesOnePerson` | backend/internal/assurance/service.go:557 | the address signal holds for one person at most |
| `MatchingLaws.LinksAreSound` | backend/internal/assurance/service.go:544-586 | for every link that correlation adds there are a person and an account record with such a reason, said over their columns; links, candidates and findings that exist never change |
| `MatchingLaws.CandidatesAreNamesakes` | backend/internal/assurance/service.go:567-573 | every candidate that correlation adds has the name of a person, no reason and no address of their own |
| `MatchingLaws.LinkIgnoresOrder` | backend/internal/assurance/service.go:547-566 | the link is the same for every order of people if and only if the strong matches name one person |
| `MatchingLaws.CorrelationIsIdempotent` | backend/internal/assurance/service.go:544-586 | a second correlation adds no link and no orphan finding in any order, and no candidate in the same order |
| `MatchingLaws.ReorderingProposes` | backend/internal/assurance/service.go:567-573 | in another order it can add candidates |
| `MatchingLaws.CandidatesIgnoreOrder` | backend/internal/assurance/service.go:567-573 | no order of people adds a candidate for an account if and only if all its name matches are known |
| `MatchingLaws.DecisionsAreFinal` | backend/internal/httpapi/product.go:245-295 | in every run a candidate leaves PENDING at most once and its pair is never proposed anew |
| `MatchingLaws.CorrelationIsCommit` | backend/internal/assurance/service.go:544-586 | what correlation adds is new links and new pending candidates only |
| `SyncRefinement.SyncIsLifecycleStep` | backend/internal/assurance/service.go:274-366 | a sync with its correlation writes exactly what one CommitSync step of the lifecycle writes, and links or proposes only accounts of its connector |
| `RateLimit.Limiter.Allow` | backend/internal/ratelimit/postgres.go:21-49 | an empty key, a limit below one and a window below a second are refused without change; otherwise the count of the aligned window of the clock grows by one, no other row changes, the call is allowed exactly up to the limit, and retry reaches exactly the expiry |
| `RateLimit.Limiter.Cleanup` | backend/internal/ratelimit/postgres.go:51-54 | a row stays exactly if it did not expire more than five minutes ago, and rows that stay are unchanged |
| `RateLimit.StartContains` | backend/internal/ratelimit/postgres.go:28-30 | every reading lies in its aligned window |
| `RateLimit.StartIsAligned` | backend/internal/ratelimit/postgres.go:28-30 | windows begin at multiples of their length |
| `RateLimit.StartsAreApart` | backend/internal/ratelimit/postgres.go:28-30 | aligned windows do not overlap |
| `RateLimitRuns.RunIsFaithful` | backend/internal/ratelimit/postgres.go:33-53 | with API clocks at most five minutes behind, and a little more, no cleanup ever resets a window that can still be counted in |
| `RateLimitRuns.FirstCallsAreAdmitted` | backend/internal/ratelimit/postgres.go:33-48 | of all calls for a key in a window exactly the first `limit` are admitted, on any interleaving of instances |
| `RateLimitRuns.AtMostTwiceTheLimit` | backend/internal/ratelimit/postgres.go:28-48 | any span of one aligned window length admits at most twice the limit |
| `RateLimitRuns.WindowSpanIsExact` | backend/internal/ratelimit/postgres.go:28-31 | a span of the requested window is bounded by twice the limit if and only if the window exceeds whole seconds by at most a nanosecond |
| `RateLimitRuns.LagIsExact` | backend/internal/ratelimit/postgres.go:51-54 | the limit of a window holds for every run if and only if no instance lags the database by more than five minutes, a microsecond and the stored fraction of a second that alignment drops |
| `Paging.List` | backend/internal/connectors/scim/client.go:185-209 | a page size outside 1 to 200 becomes 100; the loop returns what the recursive collection gives |
| `Paging.HonestListsAreComplete` | backend/internal/connectors/scim/client.go:185-209 | from an honest provider the result is the full list in order if 100 pages reach its end, and otherwise an error |
| `Paging.SmallListsAreComplete` | backend/internal/connectors/scim/client.go:244-268 | up to 100 resources are always listed |
| `Paging.FullPagesAreExact` | backend/internal/connectors/scim/client.go:185-209 | with full pages the list is complete exactly up to 100 pages |
| `Paging.ListsArePrefixes` | backend/internal/connectors/scim/client.go:202-206 | whatever totals a provider reports, pages in order give a prefix |
| `Paging.CompleteExactly` | backend/internal/connectors/scim/client.go:185-209 | for every provider that serves in order, the full list is returned if and only if some round within the limit ends the loop with everything handed out and every earlier round served something and reported a larger total |
| `Paging.LowTotalTruncates` | backend/internal/connectors/scim/client.go:203 | a total reported too low truncates the list |
| `PdfText.DecimalValue` | backend/internal/reports/pdf.go:96 | a printed number reads back as itself |
| `PdfText.PaddedLength` | backend/internal/reports/pdf.go:109 | a padded number has ten digits exactly below ten to the tenth |
| `PdfText.PaddedValue` | backend/internal/reports/pdf.go:109 | and reads back as itself |
| `PdfText.LiteralRoundTrip` | backend/internal/reports/pdf.go:69-77 | a literal reader stops at the closing parenthesis of an escaped text and gives the text back |
| `Pdf.Wrap` | backend/internal/reports/pdf.go:48-67 | every word once and in order, no line over the width unless it is one word, and each break was forced |
| `Pdf.WriteContent` | backend/internal/reports/pdf.go:80-91 | the loop writes the content stream of the lines |
| `Pdf.ContentRoundTrip` | backend/internal/reports/pdf.go:80-91 | the literals of the content stream are the lines, all and in order, with printable ASCII unchanged and a dash for anything else |
| `Pdf.WriteObjects` | backend/internal/reports/pdf.go:100-106 | the offsets array holds where each object begins |
| `Pdf.WriteTable` | backend/internal/reports/pdf.go:108-111 | the table has one entry per offset |
| `Pdf.Render` | backend/internal/reports/pdf.go:79-113 | the file is header, objects, table and trailer |
| `Pdf.ObjectIsAtOffset` | backend/internal/reports/pdf.go:103-106 | at its offset in the finished file stands "i 0 obj" with the object |
| `Pdf.EntryHasTwentyBytes` | backend/internal/reports/pdf.go:110 | an entry has 20 bytes exactly when its offset is below ten to the tenth |
| `Pdf.EntryIsAtPlace` | backend/internal/reports/pdf.go:108-111 | entry i stands at 20 times i in the table |
| `Pdf.StartXrefIsExact` | backend/internal/reports/pdf.go:107-112 | the number after startxref is where "xref" begins |
| `Pdf.LookupIsExact` | backend/internal/reports/pdf.go:107-112 | a reader that follows startxref finds for every object the byte where it begins |
| `Pdf.StreamIsExact` | backend/internal/reports/pdf.go:96 | /Length delimits exactly the stream |
| `Pdf.RootIsExact` | backend/internal/reports/pdf.go:108-112 | behind the table the trailer names object 1 as the root |
| `Pdf.References` | backend/internal/reports/pdf.go:92-99 | followed through the table, the catalog leads to the page tree, that to the page, and the page to its contents |
| `Pdf.RenderRoundTrip` | backend/internal/reports/pdf.go:79-113 | reading the file from its end, by startxref, root, page tree, page, contents and /Length, gives back every line in order with printable ASCII unchanged and a dash for anything else |

## Left out

- Organisations in the lifecycle: the case tables are those of one organisation; `Reconciliation` and the queue carry the column.
- Server name, URL, credential and dialling checks of the LDAP client: only what depends on the stored configuration is modelled.
- HTTP transport, LDAP wire calls and the native clients: a provider is an oracle that lists, disables and re-reads.
- Argon2, AES-GCM, Vault and SHA-256: library code; rate-limit keys stand for their hashes.
- Non-ASCII case folding: `Text.Lower` and `EqualFold` fold ASCII letters only, also for the keys of a stored configuration.
- JSON and CSV decoding, sessions, RBAC, dashboards, configuration, notifier and lifecycle events: plumbing around the modelled decisions.
- Access grants and entitlements: they are never deactivated, so there is no mirror property to prove.
- DUPLICATE_ACTIVE_ACCOUNT findings: the table has no key for them, so they are not idempotent; only orphan findings are modelled.
- Columns that no modelled decision reads (user names, account types, provider timestamps) are not kept.
- Access-review campaigns, scheduler locks and the in-process pool: small wrappers with easy properties.
- Database errors inside ExecuteAndVerify: an execution may stop after any statement, which covers what they leave behind; their messages are not modelled.
- A read of the action list that breaks off: the loop at backend/internal/assurance/service.go:714-722 does not look at the error of the row iterator, so it would go on with a short list; the model's list is always complete, and `OneEvidencePerAction` does not hold there.
- The statement that reads the person of a case for the final counts is folded into the count, since the person of a case never changes.
- PdfText.LiteralRoundTrip: the reader knows balanced parentheses and named escapes, not octal codes, which the writer never emits.
- Pdf.Wrap: takes the words that splitting on white space yields, and counts characters where the source counts bytes.
