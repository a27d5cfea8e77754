# Verified model of the Lotris help desk core

Lotris is a multi-tenant IT help desk: a .NET back end over SQL Server, worker jobs, and a TypeScript client. This
project models the parts of it that compute or keep something subtle, and proves what they keep. Each module follows
one component:

| module | component |
|---|---|
| `Tickets`, `TicketCalls` | ticket life cycle, audit log and timers: service calls, claims, intakes, worker jobs, batch reassignment; and every column, entry and timer as the accepted calls tell it |
| `Rca`, `RcaCalls` | root cause analyses: review, two-role approval, publication, the trigger on closing a critical ticket; and every column as the accepted calls tell it |
| `TicketClosing` | closing a ticket: the status update and the evaluation of analyses that follows it |
| `RefreshTokens` | refresh-token rotation, with every read and write a step of its own |
| `KpiAgreements`, `KpiCalls`, `KpiScoring` | KPI agreements, imports, actuals with cached sums, what the calls tell about them, and the scoring engine |
| `SqlSerializer`, `SqlReader`, `RowMapping` | the parameterised SQL statement builder, a reader of its statements, and its name mapping |
| `Chunker` | the text chunker of knowledge ingestion and the chunk index |
| `Search` | cosine similarity, ranking and keyword search |
| `Trend` | least-squares projection and warning levels |
| `EventStream` | the browser's incremental event-stream reader and the server's framing |
| `Csv` | the CSV line splitter of the KPI import |
| `Schedule` | calendar arithmetic of report schedules, report ranges and the schedule runner |
| `Checklist` | task checklists, progress and completion |
| `Common`, `NatArithmetic`, `RealArithmetic` | shapes and products the modules share |

Code that works on values is a function here; code that updates objects is a class whose methods carry the whole new
state in their contracts, as a function of the old one (`Apply`, `Advance…`, `…Pieces`); what the system promises is
then proved about those functions, over every run where there is state. In the state-machine modules a run is any
sequence of calls, accepted or refused, by any callers of any tenants.

What those functions write is told a second time, in terms that use none of them: which calls are accepted, by role,
tenant and status (`TicketCalls.Accepted`, `KpiCalls.Accepted`, `RcaCalls.Goes`), and each column, date, timer and log
entry by the last accepted call that sets it, over every run; a token's life by the clock; an import by its rows; a
score by the actuals; a date by the closed form of its day number; a statement by a reader that cuts its text at the
keywords and finds what the builder's calls asked for.

Properties the code does not always meet, each with the exact condition under which it does:

- A token is exchanged once: two refreshes of it both succeed exactly when both read it before either revoked it and
  both find their user (`RefreshTokens.BothExchangeIff`, `RefreshTokens.OverlapLeavesTwoLive`).
- A login has one live token, or two while a refresh replaces one by the other: exactly when every refresh issues its
  token while all others of the login but the one it exchanges are revoked (`RefreshTokens.OneLivePerLoginIff`).
- What is published is what was approved: exactly when, for both roles, the last edit accepted since the decision, if
  any, carries the text it was made on. An edit between the two decisions is enough to fail, and a blank text can be
  published too (`Rca.PublishedIsApprovedIff`, `Rca.SplitTextIsPublished`, `Rca.PublishedBlankIff`,
  `Rca.BlankIsPublished`).
- Two people approve: one user carries an analysis alone exactly when that user owns neither role and approves at least
  twice as a lead, and the rows of an approved analysis then name that user twice (`Rca.SoloApprovalIff`,
  `Rca.OneNameIsOneApprover`).
- A ticket can be closed without an error: exactly when the calls so far linked it to at most one analysis. It is
  CLOSED even so, and the call cannot be repeated (`TicketClosing.CloseFailsIff`, `Rca.EvaluationFailsIff`).
- A reassignment keeps log, dates and timers: exactly when the tickets it takes were assigned at that very moment
  (`Tickets.BatchKeepsInvIff`).
- Monthly and quarterly reports tile the calendar: exactly when every run reads the clock for the next one in the period
  it reports in, and the next run to store a report comes in the period it is scheduled for. A run on a month's last day
  that reads the clock again after midnight leaves that month out, however punctual the next one is
  (`Schedule.ReportsTileIff`, `Schedule.ScheduledTilesIff`, `Schedule.JanuarySkipped`).
- Weekly reports tile: exactly when runs are eight days apart, which on time they are not but for one that starts on a
  Sunday and reads the clock again after midnight (`Schedule.WeeklyTilesIff`, `Schedule.WeeklyOnScheduleTilesIff`).
- A schedule reports once a period: exactly when no run stores its job, fails to reschedule and is followed by another
  in the same period (`Schedule.ReportsOncePerPeriodIff`, `Schedule.RepeatHappens`).
- Placeholders match their parameters: exactly when the select list holds no values (`SqlSerializer.SelectPlaceholders`).
- A property shows its own column: exactly when its name returns in the schema and no column shadows it
  (`RowMapping.ShowsOwnCellIff`).
- Every checklist that shows 100 percent is all done: for lists of fewer than 200 items, and of no greater length
  (`Checklist.ShortListsAreExact`, `Checklist.LongListsAreNot`).
- Area weights are stored as they were checked: exactly when each is a whole number of hundredths. Otherwise their total
  may be off by half a hundredth more an area (`KpiAgreements.StoredIsCheckedIff`, `KpiAgreements.StoredWeightsDrift`).
- Events and CSV cells arrive as sent: exactly when they hold no newline, and no quote
  (`EventStream.DeliveryIsExactIffSingleLine`, `Csv.RoundTripIffQuoteFree`).

Where documentation and code disagree, the code is followed:

- `stubs/drizzle-mssql2.ts:134-135` says select expressions use no parameters, which nothing enforces
  (`SqlSerializer.SelectPlaceholders`).
- `docs/SPRINTS.md:332` completes a task when all checklist items and all assignments are done; the code looks at the
  checklist alone and accepts 99.5 percent (`Checklist.CompletedIff`).
- `docs/PHASE-8-PLAN.md:87` plans three approval stages; the code has the two owner roles, either of which a lead may
  fill (`Rca.SoloApprovalIff`).
- The transition table in `src/Lotris.Domain/Tickets/TicketLifecycle.cs:5-19` is not all the code writes: claims,
  automatic assignment and SLA escalation add links of their own (`Tickets.RunInv`).

`EventStream` covers the part of sections 9.2.5 and 9.2.6 of the WHATWG HTML Standard that the reader implements, `Csv`
the part of section 2 of RFC 4180 without its rule 7, and `RefreshTokens` the rotation that section 6 of RFC 6749 allows.

## Model

| member | source | states |
|---|---|---|
| `Tickets.RunInv` | src/Lotris.Application/Tickets/TicketService.cs:195-259 | in every reachable state, jobs included or not, each ticket's log is an unbroken chain from creation to its status, every link is a table edge, the claim shortcut or (with jobs) an SLA escalation; ResolvedAt and ClosedAt are the log's own times and set exactly in RESOLVED/CLOSED and CLOSED; AssignedAt, the resolution deadline and exactly one resolution timer at that deadline come together |
| `Tickets.StepInv` | src/Lotris.Application/Queue/QueueService.cs:60-104 | every call but a batch reassignment, accepted or refused, keeps that invariant for all tickets |
| `Tickets.StatusChangesBounded` | src/Lotris.Application/Tickets/TicketService.cs:193-259 | a ticket escalated k times has changed status at most 6 + 2k times, jobs included |
| `Tickets.BoundIsTight` | src/Lotris.Domain/Tickets/TicketLifecycle.cs:5-19 | for every k some run closes a ticket after k escalations and exactly 6 + 2k changes |
| `Tickets.LegalHistoriesHappen` | src/Lotris.Application/Tickets/TicketService.cs:195-259 | the chain condition is exact: every history it allows without jobs is that of some run of calls |
| `Tickets.ClosedIsFinal` | src/Lotris.Application/Tickets/TicketService.cs:460-465 | no call, job or batch reassignment, in any run from any state, changes a closed ticket, its log or its timers |
| `Tickets.StampsTellStatus` | src/Lotris.Application/Tickets/TicketService.cs:225-250 | in every run whatsoever, batch reassignments included, the resolved and closed dates tell the status |
| `Tickets.BreachFlagsTellLog` | src/Lotris.Infrastructure/Tickets/DapperTicketRepository.cs:305-340 | in every run, batch reassignments included, a breach flag is set iff the log holds that breach of the ticket |
| `Tickets.OthersUntouched` | src/Lotris.Infrastructure/Tickets/DapperTicketRepository.cs:152-178 | a call leaves every ticket but its own alone, and closed tickets and those of other tenants too |
| `Tickets.ClaimWithinCapacity` | src/Lotris.Application/Queue/QueueService.cs:66-88 | a successful claim adds exactly the claimed ticket to the claimant's open ones and stays within capacity |
| `Tickets.ReassignKeepsInvIff` | src/Lotris.Infrastructure/Tickets/DapperTicketRepository.cs:640-667 | a batch reassignment keeps the log ending at the status iff the ticket was ASSIGNED, keeps AssignedAt with a deadline iff there was one, and keeps the whole invariant iff, besides, it comes at the moment of the assignment |
| `Tickets.BatchKeepsInvIff` | src/Lotris.Application/Tickets/TicketService.cs:467-516 | a whole batch keeps the invariant iff every ticket some item of it takes was assigned, with a deadline, at this very moment |
| `Tickets.BatchTakes` | src/Lotris.Application/Tickets/TicketService.cs:486-509 | a ticket is handed over iff some item names it, in the tenant, unblocked and for an active engineer, and is unchanged otherwise |
| `Tickets.ReassignedNewIsReached` | src/Lotris.Application/Tickets/TicketService.cs:467-516 | a concrete run: a new ticket is created and reassigned |
| `Tickets.ReassignedNewBreaksInv` | src/Lotris.Application/Tickets/TicketService.cs:467-516 | that run ends ASSIGNED with a log that says NEW and no resolution timer |
| `Tickets.BatchHandsOver` | src/Lotris.Application/Tickets/TicketService.cs:486-509 | a batch logs and schedules nothing, leaves blocked and foreign tickets alone, and hands others only to active engineers it names for them |
| `Tickets.SelectEngineer` | src/Lotris.Workers/Jobs/AutoAssignJob.cs:62-83 | the first of the least loaded engineers under capacity is selected, and none exactly when all are at capacity |
| `Tickets.HelpDesk.WriteStatus` | src/Lotris.Infrastructure/Tickets/DapperTicketRepository.cs:180-242 | exactly the columns the update carries change, and only for this ticket |
| `Tickets.HelpDesk.UpdateStatus` | src/Lotris.Application/Tickets/TicketService.cs:189-289 | refusals and their order, and the whole new state of an accepted update: columns, log entries, timers (the evaluation after closing is in `TicketClosing`) |
| `Tickets.HelpDesk.Create` | src/Lotris.Application/Tickets/TicketService.cs:57-114 | a created ticket, routed at once when it has a team, with its log and pickup timer |
| `Tickets.HelpDesk.Claim` | src/Lotris.Application/Queue/QueueService.cs:49-104 | a claim's refusals, ticket, log entry and timer |
| `Tickets.HelpDesk.CreateFromWebForm` | src/Lotris.Infrastructure/Intake/IntakeService.cs:68-136 | the web form's ticket and log; no timer is scheduled |
| `Tickets.HelpDesk.ProcessInboundEmail` | src/Lotris.Infrastructure/Intake/IntakeService.cs:153-217 | an email's ticket starts TEAM_ASSIGNED; duplicates are dropped silently |
| `Tickets.HelpDesk.RunPickupSlaCheck` | src/Lotris.Workers/Jobs/PickupSlaCheckJob.cs:23-49 | a breach is flagged, logged and automatic assignment scheduled only while the ticket is queued |
| `Tickets.HelpDesk.RunResolutionSlaCheck` | src/Lotris.Workers/Jobs/ResolutionSlaCheckJob.cs:17-57 | an unresolved ticket is flagged, escalated and logged |
| `Tickets.HelpDesk.RunAutoAssign` | src/Lotris.Workers/Jobs/AutoAssignJob.cs:30-111 | a queued ticket goes to a least loaded engineer, with log entry and timer |
| `Tickets.HelpDesk.ReassignItem` | src/Lotris.Infrastructure/Tickets/DapperTicketRepository.cs:640-667 | one item of a batch, and whether it took effect |
| `Tickets.HelpDesk.BatchReassign` | src/Lotris.Application/Tickets/TicketService.cs:467-516 | role and size checks; items act in order, each judged in the state its predecessors left |
| `TicketCalls.AssignmentIsTold` | src/Lotris.Application/Queue/QueueService.cs:76-104 | in every run without batch reassignments a ticket that no accepted status update with assignee, claim or automatic assignment has touched has no assignee, dates or resolution timer; else assignee and AssignedAt are those of the last such call, and the deadline and the one resolution timer are at its time plus its minutes |
| `TicketCalls.CallsTellTickets` | src/Lotris.Infrastructure/Tickets/DapperTicketRepository.cs:152-242 | in every run, batch reassignments included, the tickets are those the accepted creations made, and each column is what the last accepted call that sets it says: tenant, status, team, assignee, pickup and resolution dates, resolved and closed dates, breach flags |
| `TicketCalls.PickupIsTold` | src/Lotris.Application/Tickets/TicketService.cs:72-114 | in every run a ticket has exactly one pickup timer, at creation plus the minutes of the creating call, when a call created it with a team, and none when it came by web form or email |
| `TicketCalls.CallsTellDeadlines` | src/Lotris.Workers/Jobs/AutoAssignJob.cs:84-111 | in every run the resolution timers of a ticket are, in order, the due times of its accepted assigning calls |
| `TicketCalls.ChecksAreTold` | src/Lotris.Workers/Jobs/PickupSlaCheckJob.cs:34-49 | each accepted pickup check schedules exactly one automatic assignment |
| `TicketCalls.CallsTellLog` | src/Lotris.Application/Tickets/TicketService.cs:252-289 | in every run the audit log holds, in order, the entries of the accepted calls and nothing else, with the status each ticket had |
| `TicketCalls.AcceptedIff` | src/Lotris.Application/Tickets/TicketService.cs:195-215 | a call writes iff its tenant, status, role, capacity and configuration conditions hold, stated by name; any other leaves the state as it was |
| `TicketCalls.UpdateRefusedIff` | src/Lotris.Application/Tickets/TicketService.cs:195-215 | a status update is answered NotFound iff the ticket is not the tenant's, BadRequest iff the step is not on the way, and otherwise Forbidden iff a non-lead escalates or closes |
| `TicketCalls.ClaimRefusedIff` | src/Lotris.Application/Queue/QueueService.cs:55-72 | a claim is answered NotFound, BadRequest and Forbidden under the same kind of conditions |
| `TicketCalls.TableIsTheWay` | src/Lotris.Domain/Tickets/TicketLifecycle.cs:5-19 | the table allows exactly the next step on the way NEW, TEAM_ASSIGNED, UNASSIGNED, ASSIGNED, IN_PROGRESS, RESOLVED, CLOSED and the detour from IN_PROGRESS over ESCALATED |
| `TicketCalls.OpenIsTold` | src/Lotris.Application/Queue/QueueService.cs:66-72 | in every run the tickets that count against an engineer are those last handed to that engineer and last moved to ASSIGNED, IN_PROGRESS or ESCALATED |
| `TicketClosing.CloseFailsIff` | src/Lotris.Application/Tickets/TicketService.cs:215-341 | closing fails iff the service refuses it or the ticket is linked to two analyses; refused it changes nothing, otherwise the ticket is CLOSED, dated and logged, whether the call fails or not |
| `TicketClosing.CloseFailsIffLinkedTwice` | src/Lotris.Application/Tickets/TicketService.cs:331-341 | the same read off the analysis calls: two of them have linked the ticket |
| `TicketClosing.CloseFailsAfterTwoCreates` | src/Lotris.Application/Tickets/TicketService.cs:331-341 | a run reaches a resolved ticket with two analyses opened by hand, whose close fails and leaves it CLOSED |
| `TicketClosing.ClosingHappensOnce` | src/Lotris.Application/Tickets/TicketService.cs:196-203 | a close that failed cannot be repeated: after any run the ticket is still closed and every status update of it is refused |
| `TicketClosing.ClosedCriticalIsAnalysed` | src/Lotris.Application/ProblemManagement/RcaService.cs:413-458 | in every run of ticket, job and analysis calls, a closed ticket that was critical when it was closed, with the rule on, is linked to an analysis |
| `TicketClosing.TicketService.UpdateStatus` | src/Lotris.Application/Tickets/TicketService.cs:189-341 | the ticket is updated first, and after closing the analyses are evaluated with its assignee; the evaluation's error is the answer |
| `TicketClosing.ClosingOpens` | src/Lotris.Application/ProblemManagement/RcaService.cs:413-444 | closing a critical ticket without an analysis, with the rule on, links it to a new draft under its title, owned by the first IT manager, else the first team lead, else the closer, and technically by the ticket's assignee, else that owner |
| `Rca.RunInv` | src/Lotris.Application/ProblemManagement/RcaService.cs:147-272 | in every reachable state an APPROVED or PUBLISHED analysis has had a decision in both roles since its last submission, as read off the calls, one IN_REVIEW has not; the rows name who decided; one known error exactly when published |
| `Rca.NeverMovesBack` | src/Lotris.Domain/ProblemManagement/RcaLifecycle.cs:5-23 | over any run no service call moves an analysis back, and owners and tenant never change |
| `Rca.OwnerAloneNeverApproves` | src/Lotris.Application/ProblemManagement/RcaService.cs:186-193 | if every approval of an analysis is made by one of its owners, even one holding both roles or a lead, it is never approved |
| `Rca.SoloApprovalIff` | src/Lotris.Application/ProblemManagement/RcaService.cs:186-220 | from a submission on, over any run in which nobody else approves, one user carries the analysis iff that user owns neither role and made at least two accepted approvals as a lead |
| `Rca.OneNameIsOneApprover` | src/Lotris.Application/ProblemManagement/RcaService.cs:186-220 | in every reachable state both rows of an approved or published analysis name one user iff every approval accepted since the submission was that user's, who then owns neither role |
| `Rca.PublishedTextIsRootCause` | src/Lotris.Application/ProblemManagement/RcaService.cs:244-253 | in a run the published text is the root cause; the fallbacks are never taken |
| `Rca.EditAfterApprovalIsPublished` | src/Lotris.Application/ProblemManagement/RcaService.cs:121-145 | from any APPROVED state a lead can replace the text by any other and publish it without a new decision |
| `Rca.TextIsLastEdit` | src/Lotris.Application/ProblemManagement/RcaService.cs:121-145 | over any run the root cause is the text of the last accepted edit that carries one, else what it was |
| `Rca.PublishedIsApprovedIff` | src/Lotris.Application/ProblemManagement/RcaService.cs:121-253 | in every run, the text published is the one both roles decided on iff for both roles the last edit accepted since the last decision, if any, carries the text it was made on |
| `Rca.PublishedIsDecidedIff` | src/Lotris.Application/ProblemManagement/RcaService.cs:174-253 | the same for each role by itself, whose decision and text are read off the calls |
| `Rca.PublishedIsUnchangedIff` | src/Lotris.Application/ProblemManagement/RcaService.cs:225-253 | from every reachable APPROVED state on, over any run, the text published is the one it then has iff the last accepted edit since carries it or there is none |
| `Rca.SplitTextIsPublished` | src/Lotris.Application/ProblemManagement/RcaService.cs:121-145 | a run in which the text is edited between the two decisions: it is approved and published with no later edit, although the process owner decided on another text |
| `Rca.PublishedBlankIff` | src/Lotris.Application/ProblemManagement/RcaService.cs:147-172 | although a submission needs a text, a blank one is published iff the last edit accepted since the submission made it blank |
| `Rca.BlankIsPublished` | src/Lotris.Application/ProblemManagement/RcaService.cs:121-145 | a concrete run from the start publishes an empty text |
| `Rca.EvaluateOpensOne` | src/Lotris.Application/ProblemManagement/RcaService.cs:413-458 | closing a ticket opens an analysis iff it has none, the rule is on and it is critical; that one is then its only one and closing again changes nothing; it fails iff the ticket is linked to two |
| `Rca.LinksAreMade` | src/Lotris.Infrastructure/ProblemManagement/DapperRcaRepository.cs:186-209 | the analyses a ticket is linked to are those the accepted creations, links and evaluations of the run linked it to |
| `Rca.EvaluationFailsIff` | src/Lotris.Application/ProblemManagement/RcaService.cs:422-426 | in every reachable state an evaluation fails iff the calls so far linked the ticket to two analyses, and then changes nothing |
| `Rca.TwoCreatesAreAmbiguous` | src/Lotris.Application/ProblemManagement/RcaService.cs:90-119 | two creations for one ticket make its evaluation fail |
| `Rca.AmbiguousForever` | src/Lotris.Infrastructure/ProblemManagement/DapperRcaRepository.cs:186-209 | once a ticket is linked to two analyses every later evaluation fails, whatever happens in between |
| `Rca.DecideRecords` | src/Lotris.Infrastructure/ProblemManagement/DapperRcaRepository.cs:595-620 | a decision is recorded in its row, and all rows are granted exactly when both roles have decided |
| `Rca.RcaService.Create` | src/Lotris.Application/ProblemManagement/RcaService.cs:90-119 | lead check, default owners, draft and primary link |
| `Rca.RcaService.CreateProblemAndRca` | src/Lotris.Infrastructure/ProblemManagement/DapperRcaRepository.cs:211-296 | the new record and its link |
| `Rca.RcaService.Update` | src/Lotris.Application/ProblemManagement/RcaService.cs:121-145 | editors only; absent fields keep their value |
| `Rca.RcaService.SubmitForReview` | src/Lotris.Application/ProblemManagement/RcaService.cs:147-172 | refusals in order; review starts with both rows open |
| `Rca.RcaService.ResetApprovals` | src/Lotris.Infrastructure/ProblemManagement/DapperRcaRepository.cs:535-569 | exactly two open rows, one per owner role |
| `Rca.RcaService.SetApprovalDecision` | src/Lotris.Infrastructure/ProblemManagement/DapperRcaRepository.cs:595-620 | every row of the role is granted to the caller, no other changes |
| `Rca.RcaService.ApproveRca` | src/Lotris.Application/ProblemManagement/RcaService.cs:174-223 | in which role a caller decides, and when the status follows |
| `Rca.RcaService.PublishRca` | src/Lotris.Application/ProblemManagement/RcaService.cs:225-253 | publication only from APPROVED, with one known error |
| `Rca.RcaService.Delegate` | src/Lotris.Application/ProblemManagement/RcaService.cs:274-284 | leads set the delegate of a visible analysis |
| `Rca.RcaService.Link` | src/Lotris.Infrastructure/ProblemManagement/DapperRcaRepository.cs:365-383 | a pair is linked at most once |
| `Rca.RcaService.EvaluateOnTicketClosed` | src/Lotris.Application/ProblemManagement/RcaService.cs:413-458 | two links fail, one stops, none may open an analysis with the right owners |
| `RcaCalls.OpeningNamesOwners` | src/Lotris.Application/ProblemManagement/RcaService.cs:428-444 | an accepted creation, and an evaluation of a critical ticket without an analysis, opens a draft with the owners its call names or the rule finds (first IT manager, else first team lead, else the closer; assignee, else that owner), linked to its ticket; no other creation or evaluation changes anything |
| `RcaCalls.CallsTellAnalyses` | src/Lotris.Application/ProblemManagement/RcaService.cs:90-145 | in every run the analyses are those such calls opened, with their title, tenant and owners, the delegate of the last accepted delegation and the texts of the last accepted edits |
| `RcaCalls.GoesIff` | src/Lotris.Application/ProblemManagement/RcaService.cs:121-253 | each call goes through iff its conditions on tenant, role, delegate, owner, text and status hold, stated by name, and changes nothing otherwise |
| `RcaCalls.ApprovalDecides` | src/Lotris.Application/ProblemManagement/RcaService.cs:186-223 | in every run an accepted approval grants one row: the process owner the first, the technical owner the second, any other lead the first that is open; the analysis is APPROVED iff both are then granted |
| `RcaCalls.SubmissionOpensRows` | src/Lotris.Infrastructure/ProblemManagement/DapperRcaRepository.cs:535-569 | an accepted submission opens one undecided row for each owner and moves the draft to review |
| `RefreshTokens.EveryInterleavingIsSound` | src/Lotris.Infrastructure/Auth/JwtTokenService.cs:75-114 | in every interleaving of logins, refreshes and logouts a successor is younger and of the same user, its predecessor is revoked, and no two tokens share one |
| `RefreshTokens.WrittenOnce` | src/Lotris.Infrastructure/Auth/DapperRefreshTokenRepository.cs:75-94 | once written, a token's revocation and successor never change again, in any run |
| `RefreshTokens.ChainsAreAcyclic` | src/Lotris.Infrastructure/Auth/DapperRefreshTokenRepository.cs:75-94 | following successors only ever leads to younger tokens |
| `RefreshTokens.ChainsDoNotMerge` | src/Lotris.Infrastructure/Auth/DapperRefreshTokenRepository.cs:75-94 | two tokens never reach the same successor in the same number of steps |
| `RefreshTokens.SpentTokenStaysSpent` | src/Lotris.Infrastructure/Auth/DapperRefreshTokenRepository.cs:56-73 | once a refresh, also one that found no user, or a logout has spent a token, no later lookup of it by a refresh or a logout succeeds, in any continuation |
| `RefreshTokens.BothExchangeIff` | src/Lotris.Infrastructure/Auth/JwtTokenService.cs:75-100 | in every interleaving two finished refreshes have both exchanged one token iff both had read it before either revoked it and both found its user; they then hold two different tokens of that user |
| `RefreshTokens.BothExchangeIffOverlap` | src/Lotris.Infrastructure/Auth/JwtTokenService.cs:75-100 | while the user is not removed the overlap alone decides |
| `RefreshTokens.OneLivePerLoginIff` | src/Lotris.Infrastructure/Auth/JwtTokenService.cs:75-100 | over every interleaving, in all its states two unrevoked tokens of a login are the old and the new one of a refresh in flight iff every refresh issues its token while all tokens of the login but the one it exchanges are revoked |
| `RefreshTokens.OneLivePerLoginUnlessOverlap` | src/Lotris.Infrastructure/Auth/JwtTokenService.cs:75-100 | that condition is met, and so two unrevoked tokens of a login are the old and the new one of a refresh in flight, in every interleaving in which no two refreshes of one login's tokens are in flight at once |
| `RefreshTokens.OneLiveAtRest` | src/Lotris.Infrastructure/Auth/JwtTokenService.cs:75-100 | so a login with no refresh in flight has at most one |
| `RefreshTokens.RefreshAlone` | src/Lotris.Infrastructure/Auth/JwtTokenService.cs:75-100 | a refresh whose steps are not interrupted does exactly what the whole call does |
| `RefreshTokens.LogoutAlone` | src/Lotris.Infrastructure/Auth/JwtTokenService.cs:102-114 | so does a logout |
| `RefreshTokens.WholeCallsAreRuns` | src/Lotris.Infrastructure/Auth/JwtTokenService.cs:38-114 | every sequence of whole calls is a run of the interleaved system |
| `RefreshTokens.SequentialKeepsOneLive` | src/Lotris.Infrastructure/Auth/JwtTokenService.cs:75-100 | without overlap each login keeps at most one active token |
| `RefreshTokens.RefreshesAtMostOnce` | src/Lotris.Infrastructure/Auth/JwtTokenService.cs:75-100 | without overlap a token is exchanged at most once |
| `RefreshTokens.OverlapLeavesTwoLive` | src/Lotris.Infrastructure/Auth/JwtTokenService.cs:82-98 | with overlap it is not: two interleaved refreshes of one token leave two active tokens |
| `RefreshTokens.RunInv` | src/Lotris.Infrastructure/Auth/JwtTokenService.cs:75-114 | the invariant behind these holds along every run |
| `RefreshTokens.FindActive` | src/Lotris.Infrastructure/Auth/DapperRefreshTokenRepository.cs:56-73 | a lookup returns an unrevoked, unexpired row of the hash, or none exactly when there is none |
| `RefreshTokens.FoundForItsLifetime` | src/Lotris.Infrastructure/Auth/DapperRefreshTokenRepository.cs:56-73 | in every interleaving the tokens are those the logins and refreshes issued, and a lookup at any time finds one iff it is unrevoked and the time is before its issue plus its lifetime |
| `RefreshTokens.ReadDecides` | src/Lotris.Infrastructure/Auth/DapperRefreshTokenRepository.cs:56-73 | in every interleaving the read of a refresh or logout goes on with a token iff it has the hash, is unrevoked and expires after the clock's time, and gives up iff every token of the hash is revoked or expired |
| `RefreshTokens.ExpiredIsRefused` | src/Lotris.Infrastructure/Auth/JwtTokenService.cs:75-81 | a whole refresh with a token at or after its expiry changes nothing and answers nothing |
| `RefreshTokens.ExchangeWrites` | src/Lotris.Infrastructure/Auth/JwtTokenService.cs:82-100 | a whole refresh with an unrevoked, unexpired token of a known user answers with a new token of that user with the lifetime asked for, and marks the old one used and revoked at the clock's readings in its favour |
| `RefreshTokens.UnknownUserRevokes` | src/Lotris.Infrastructure/Auth/JwtTokenService.cs:82-90 | of a user that is gone it is revoked without a successor and nothing is answered |
| `RefreshTokens.TokenRepository.Create` | src/Lotris.Infrastructure/Auth/DapperRefreshTokenRepository.cs:16-54 | one new row, never revoked, at the end |
| `RefreshTokens.TokenRepository.GetActiveByTokenHash` | src/Lotris.Infrastructure/Auth/DapperRefreshTokenRepository.cs:56-73 | the lookup's answer, found by scanning the rows |
| `RefreshTokens.TokenRepository.Touch` | src/Lotris.Infrastructure/Auth/DapperRefreshTokenRepository.cs:96-107 | only the last use of one row changes |
| `RefreshTokens.TokenRepository.Revoke` | src/Lotris.Infrastructure/Auth/DapperRefreshTokenRepository.cs:75-94 | a revoked row is left as it is; else revocation and successor are written once |
| `RefreshTokens.JwtTokenService.IssueToken` | src/Lotris.Infrastructure/Auth/JwtTokenService.cs:38-73 | a token of the user with its lifetime |
| `RefreshTokens.JwtTokenService.Refresh` | src/Lotris.Infrastructure/Auth/JwtTokenService.cs:75-100 | all outcomes of a refresh that is not overlapped: unknown token, vanished user, rotation |
| `RefreshTokens.JwtTokenService.RevokeRefreshToken` | src/Lotris.Infrastructure/Auth/JwtTokenService.cs:102-114 | an active token is revoked, anything else is ignored |
| `KpiAgreements.RunInv` | src/Lotris.Application/Kpi/KpiService.cs:248-359 | in every reachable state, through upsert and import alike, an agreement has no areas or area weights within 0.01 of 100, an engineer has one agreement a period, each stored score is the sum up to the last event, and actuals have their metric |
| `KpiAgreements.FrozenOnceSubmitted` | src/Lotris.Application/Kpi/KpiService.cs:254-258 | over any run from any state, once an agreement has left DRAFT its areas, metrics, weights and targets never change; its status only advances |
| `KpiAgreements.IngestionRefreshes` | src/Lotris.Application/Kpi/KpiService.cs:467-493 | right after an event counts for a metric its stored score is the sum of all its actuals |
| `KpiAgreements.StoredScoreLags` | src/Lotris.Application/Kpi/KpiService.cs:376-400 | in every reachable state the stored score lags the true sum by exactly the manual actuals since the last event |
| `KpiAgreements.CacheLag` | src/Lotris.Infrastructure/Kpi/DapperKpiRepository.cs:566-579 | the sum of actuals splits into the part up to the last event and the manual part since |
| `KpiAgreements.ComputedScoreRange` | src/Lotris.Application/Kpi/KpiService.cs:402-447 | the overall score computed for any reachable agreement without negative figures lies in [0, 100.01] |
| `KpiAgreements.StoredWeightsNearHundred` | packages/db/migrations/mssql/0005_kpi_engine.sql:127 | in every reachable state the area weights as their two-decimal columns keep them total 100 within 0.01 and half a hundredth an area |
| `KpiAgreements.StoredScoreRange` | packages/db/migrations/mssql/0005_kpi_engine.sql:127 | and the score computed from them exceeds 100 by no more than that |
| `KpiAgreements.StoredWeightsDrift` | src/Lotris.Application/Kpi/KpiService.cs:260-264 | a run meets the bound: two areas of 50.005 pass the check and are stored as 100.02 in all |
| `KpiAgreements.StoredIsCheckedIff` | packages/db/migrations/mssql/0005_kpi_engine.sql:127 | the columns keep the checked weights iff each is a whole number of hundredths |
| `KpiAgreements.WholeWeightsStay` | src/Lotris.Application/Kpi/KpiService.cs:260-264 | in every reachable state such weights are stored within 0.01 of 100 and their score is at most 100.01 |
| `KpiAgreements.KpiService.Create` | src/Lotris.Application/Kpi/KpiService.cs:212-246 | leads only, one agreement per engineer and period |
| `KpiAgreements.KpiService.UpsertAgreementAreas` | src/Lotris.Application/Kpi/KpiService.cs:248-307 | draft and weight checks, the foreign key on deleted metrics, and the areas that replace the old ones |
| `KpiAgreements.KpiService.CreateAreas` | src/Lotris.Application/Kpi/KpiService.cs:270-300 | the stored rows, default sort orders included |
| `KpiAgreements.KpiService.SubmitAgreement` | src/Lotris.Application/Kpi/KpiService.cs:309-331 | only a draft, only by a lead |
| `KpiAgreements.KpiService.AcceptAgreement` | src/Lotris.Application/Kpi/KpiService.cs:333-359 | only under review, only by the named engineer |
| `KpiAgreements.KpiService.UploadRows` | src/Lotris.Application/Kpi/KpiImportService.cs:27-61 | the pending rows of the agreement are replaced |
| `KpiAgreements.KpiService.ImportWithMapping` | src/Lotris.Application/Kpi/KpiImportService.cs:79-153 | draft and upload checks, the area imported into or created at weight 100, and the number imported |
| `KpiAgreements.MapRows` | src/Lotris.Application/Kpi/KpiImportService.cs:123-149 | rows without description or positive target are skipped, the others kept in order |
| `KpiAgreements.KpiService.RecordManually` | src/Lotris.Application/Kpi/KpiService.cs:376-400 | a manual actual touches no stored score |
| `KpiAgreements.KpiService.IngestEvent` | src/Lotris.Application/Kpi/KpiService.cs:461-529 | one actual of value 1 and the refreshed score, or nothing when nothing matches |
| `KpiAgreements.KpiService.SumActuals` | src/Lotris.Infrastructure/Kpi/DapperKpiRepository.cs:566-579 | the sum over the metric's actuals |
| `KpiCalls.ImportAddsRows` | src/Lotris.Application/Kpi/KpiImportService.cs:103-151 | an accepted import keeps the metrics of every area; the area with the least sort order, or a new one of weight 100 when there is none, gains in order exactly one unscored metric per row with a nonblank description and a positive target, with that row's description, weight and target; the rows are gone and nothing else changes |
| `KpiCalls.ImportCounts` | src/Lotris.Application/Kpi/KpiImportService.cs:123-152 | the number answered is the number of such rows |
| `KpiCalls.UpsertWritesRequest` | src/Lotris.Application/Kpi/KpiService.cs:266-300 | an accepted upsert replaces the areas by the request's, field by field and unscored, with the position as the default sort order, and changes nothing else |
| `KpiCalls.AcceptedIff` | src/Lotris.Application/Kpi/KpiService.cs:212-359 | each call is accepted iff its conditions on role, tenant, status, weights, uploads and recorded actuals hold, stated by name, and changes nothing otherwise |
| `KpiCalls.CallsTellAgreements` | src/Lotris.Application/Kpi/KpiService.cs:212-359 | in every run the agreements are those accepted calls drafted, with their parties and period; one is under review iff a lead submitted it and active iff, after that, its own engineer accepted it |
| `KpiCalls.CallsTellPending` | src/Lotris.Application/Kpi/KpiImportService.cs:27-61 | in every run the rows waiting are those of the last accepted upload, unless an import took them since |
| `KpiCalls.CallsTellActuals` | src/Lotris.Application/Kpi/KpiService.cs:376-529 | in every run the actuals are, in order, those recorded by hand and one of value 1 for each event that found a metric |
| `KpiCalls.ScoreCountsEvents` | src/Lotris.Application/Kpi/KpiService.cs:461-529 | in every run the stored score of a metric nobody recorded by hand is the number of its events |
| `KpiScoring.Compute` | src/Lotris.Application/Kpi/KpiScoringEngine.cs:25-50 | rounded area scores in order, and the overall score rounded once from the exact ones |
| `KpiScoring.ComputeArea` | src/Lotris.Application/Kpi/KpiScoringEngine.cs:30-43 | the area score under the metric weights |
| `KpiScoring.AreaScoreIsMean` | src/Lotris.Application/Kpi/KpiScoringEngine.cs:30-43 | an area score is the weighted mean of its capped metric scores |
| `KpiScoring.MetricScoreIsProportional` | src/Lotris.Application/Kpi/KpiScoringEngine.cs:37-39 | up to a positive target, score times target is 100 times the actual; from the target on the score is 100; without a positive target it is 0 |
| `KpiScoring.ReachedAreaScore` | src/Lotris.Application/Kpi/KpiScoringEngine.cs:30-43 | an area whose metrics have all reached the fraction f ≤ 1 of their targets scores 100 f, whatever the weights |
| `KpiScoring.ReachedOverall` | src/Lotris.Application/Kpi/KpiScoringEngine.cs:45-49 | when all metrics of all areas have, the exact overall score is f times the total area weight |
| `KpiScoring.WorkedAreaScore` | src/Lotris.Application/Kpi/KpiScoringEngine.cs:30-43 | while no target is exceeded, multiplying every actual by a factor in [0, 1] multiplies the exact area score by it |
| `KpiScoring.WorkedOverall` | src/Lotris.Application/Kpi/KpiScoringEngine.cs:45-49 | and the exact overall score, so halving every actual halves it |
| `KpiScoring.AreaScoreRange` | src/Lotris.Application/Kpi/KpiScoringEngine.cs:37-42 | area scores lie in [0, 100] and are 100 iff some weight counts and every metric that counts has met its target |
| `KpiScoring.OverallRange` | src/Lotris.Application/Kpi/KpiScoringEngine.cs:45-49 | with area weights up to 100.01 the stored overall score lies in [0, 100.01] |
| `KpiScoring.AreaScoreMonotone` | src/Lotris.Application/Kpi/KpiScoringEngine.cs:37-42 | higher actuals never lower an area score, exact or rounded |
| `KpiScoring.OverallMonotone` | src/Lotris.Application/Kpi/KpiScoringEngine.cs:47-49 | nor the overall score, whatever actuals rise at once |
| `KpiScoring.RescalingIsIrrelevant` | src/Lotris.Application/Kpi/KpiScoringEngine.cs:30-41 | multiplying an area's metric weights by a positive number changes nothing |
| `KpiScoring.OverallIgnoresScale` | src/Lotris.Application/Kpi/KpiScoringEngine.cs:30-47 | nor does doing so in every area at once, each by its own factor |
| `KpiScoring.RoundingBound` | src/Lotris.Application/Kpi/KpiScoringEngine.cs:45-49 | the stored overall score is within 0.005(1 + W/100) of what the stored area scores give |
| `KpiScoring.RoundExact` | src/Lotris.Application/Kpi/KpiScoringEngine.cs:45-49 | two-decimal values are kept and halves go away from zero |
| `SqlSerializer.SerializeChunks` | stubs/drizzle-mssql2.ts:25-68 | the text is the chunk tree's with its values numbered on from the shared list, which grows by exactly those values |
| `SqlSerializer.SerializeOne` | stubs/drizzle-mssql2.ts:29-64 | the same for each of the branches |
| `SqlSerializer.SerializeList` | stubs/drizzle-mssql2.ts:36-42 | the placeholders of an array, one per value |
| `SqlSerializer.ParamList.Push` | stubs/drizzle-mssql2.ts:34-35 | a placeholder names the position its value was put at |
| `SqlSerializer.SubstituteRestores` | stubs/drizzle-mssql2.ts:21-24 | putting params[i-1] for each @pi gives the text with its values inline, whatever else the list holds |
| `SqlSerializer.PlaceholdersConsecutive` | stubs/drizzle-mssql2.ts:21-24 | placeholders are consecutive, each once, in order |
| `SqlSerializer.NestingIsIrrelevant` | stubs/drizzle-mssql2.ts:53-55 | a tree and its flattened list mean the same |
| `SqlSerializer.SerializeParts` | stubs/drizzle-mssql2.ts:224-226 | clause parts share one numbering |
| `SqlSerializer.JoinNonEmptyNumbered` | stubs/drizzle-mssql2.ts:230-245 | dropping empty texts and joining the rest is numbering the joined nonempty parts |
| `SqlSerializer.BuildSelectCols` | stubs/drizzle-mssql2.ts:129-147 | the select list, each expression numbered from 1 for itself |
| `SqlSerializer.SelectBuilder.Exec` | stubs/drizzle-mssql2.ts:210-255 | a select list followed by the numbered JOIN, WHERE, GROUP BY, ORDER BY and OFFSET clauses and their values |
| `SqlSerializer.ChainCollects` | stubs/drizzle-mssql2.ts:189-204 | after any chain of calls the builder holds the conditions, joins, orders and groups in their order and the last limit and offset, however the kinds were mixed |
| `SqlSerializer.CallsCommute` | stubs/drizzle-mssql2.ts:189-204 | neighbouring calls of different kinds may change places without changing the statement |
| `SqlSerializer.RunChain` | stubs/drizzle-mssql2.ts:176-255 | a builder, a chain of calls and the execution give the statement of what the chain collects, with its values |
| `SqlSerializer.SelectPlaceholders` | stubs/drizzle-mssql2.ts:134-137 | a select statement's placeholders are @p1..@pn once each in order iff its select list holds no values |
| `SqlSerializer.SelectMeaning` | stubs/drizzle-mssql2.ts:210-255 | with a parameter-free select list, substitution gives the statement with its values inline |
| `SqlReader.ChainReadsBack` | stubs/drizzle-mssql2.ts:176-255 | the statement sent for any chain of calls, its parameters put back in, is read by cutting it at " OFFSET ", " ORDER BY ", " GROUP BY ", " WHERE ", " FROM [" and the separators " AND " and ", ": the selected expressions with their aliases, the table, the joins with kind, table and condition, the conditions, groups and orders in the order of the calls, and the last offset (or 0) and limit; for every chain whose names and expressions hold none of these words |
| `SqlReader.ComparisonIsLegible` | stubs/drizzle-mssql2.ts:224-228 | a comparison of a column with a value is such a condition, unless the column's name holds a space |
| `SqlReader.ColumnReadsBack` | stubs/drizzle-mssql2.ts:46-52 | a column's text reads back as its table and its name when neither holds a closing bracket |
| `SqlReader.ValuesReadBack` | stubs/drizzle-mssql2.ts:36-42 | between the parentheses of an array each value is an entry of its own, in order |
| `SqlReader.NumeralReadsBack` | stubs/drizzle-mssql2.ts:246-253 | offsets and limits are printed as the decimal numerals of their values, negative ones included |
| `SqlSerializer.BoundFieldDangles` | stubs/drizzle-mssql2.ts:136-137 | a select expression with a value leaves a placeholder without parameter |
| `SqlSerializer.ExecUpdate` | stubs/drizzle-mssql2.ts:324-340 | SET and WHERE share one numbering, undefined values are left out, and nothing is sent when nothing is set |
| `SqlSerializer.ExecDelete` | stubs/drizzle-mssql2.ts:355-362 | a DELETE's text and values |
| `SqlSerializer.StatementMeaning` | stubs/drizzle-mssql2.ts:324-362 | an UPDATE or DELETE means its text with values inline, and its placeholders are @p1..@pn in order |
| `SqlReader.UpdateReadsBack` | stubs/drizzle-mssql2.ts:324-340 | an UPDATE, its parameters put back in, reads as its table, the assignments that have a value, in order, and its condition |
| `SqlReader.DeleteReadsBack` | stubs/drizzle-mssql2.ts:355-362 | a DELETE reads as its table and its condition |
| `RowMapping.InsertedReadsBackIff` | stubs/drizzle-mssql2.ts:73-100 | a row of just the inserted columns is read back as the object inserted, whatever its values, iff each property name returns in the schema |
| `RowMapping.ShowsOwnCellIff` | stubs/drizzle-mssql2.ts:94-100 | in the object read from a whole row, in table order, a property shows what its column holds, whatever the row, iff its name returns in the schema and no later column outside it is called like the property |
| `RowMapping.ReadsOwnColumnIff` | stubs/drizzle-mssql2.ts:94-100 | the same for the position a property is read from |
| `RowMapping.InsertedPropertyReadsBack` | stubs/drizzle-mssql2.ts:290-299 | after an accepted insert such a property is read back with the value it was set to |
| `RowMapping.ShadowHappens` | stubs/drizzle-mssql2.ts:94-100 | a table with such a column, whose value the property then shows |
| `RowMapping.ReturnsIff` | stubs/drizzle-mssql2.ts:73-92 | a name returns iff no later property has its column and, when it is no property, it is no column |
| `RowMapping.OwnColumnsSuffice` | stubs/drizzle-mssql2.ts:73-92 | with a column of its own for every property each property is called after its own column and back |
| `RowMapping.AliasReturnsIff` | stubs/drizzle-mssql2.ts:258-272 | a recased alias is found again iff no earlier one differs from it only in case |
| `RowMapping.BuildFieldMap` | stubs/drizzle-mssql2.ts:73-81 | the last property of a column wins |
| `RowMapping.BuildColMap` | stubs/drizzle-mssql2.ts:84-92 | every property has its column |
| `RowMapping.MapRow` | stubs/drizzle-mssql2.ts:94-100 | the object a row becomes |
| `RowMapping.InsertColumns` | stubs/drizzle-mssql2.ts:290-294 | the columns and values an insert writes, undefined properties left out |
| `Chunker.ChunkText` | src/Lotris.Application/Intelligence/KnowledgeIngestionService.cs:168-199 | the chunks of the greedy packing of the trimmed paragraphs; none exactly for white space |
| `Chunker.PackParagraph` | src/Lotris.Application/Intelligence/KnowledgeIngestionService.cs:176-193 | one step of the packing, flush, oversize and append branches |
| `Chunker.SliceParagraph` | src/Lotris.Application/Intelligence/KnowledgeIngestionService.cs:182-188 | an oversize paragraph is cut into full slices and a rest |
| `Chunker.ChunksRecoverParagraphs` | src/Lotris.Application/Intelligence/KnowledgeIngestionService.cs:168-199 | splitting packed chunks and joining oversize slices gives the paragraph list back, in order, from nonempty chunks of at most maxChars |
| `Chunker.PackReadsBack` | src/Lotris.Application/Intelligence/KnowledgeIngestionService.cs:174-196 | reading the packed blocks back gives the paragraphs |
| `Chunker.ChunkLengths` | src/Lotris.Application/Intelligence/KnowledgeIngestionService.cs:176-196 | every chunk is nonempty and at most maxChars long |
| `Chunker.NothingToPack` | src/Lotris.Application/Intelligence/KnowledgeIngestionService.cs:197 | nothing is packed only for white space, so the whole-text fallback is never taken |
| `Chunker.FewestChunks` | src/Lotris.Application/Intelligence/KnowledgeIngestionService.cs:174-196 | for every text, no other chunking makes fewer chunks, neither one that packs neighbouring paragraphs differently nor one that cuts long or short ones into other parts |
| `Chunker.CountIsLeast` | src/Lotris.Application/Intelligence/KnowledgeIngestionService.cs:174-196 | the greedy count is at most the number of chunks of any chunking whose chunks fit |
| `Chunker.PackCount` | src/Lotris.Application/Intelligence/KnowledgeIngestionService.cs:174-196 | the packer makes as many chunks as counted, slices of long paragraphs included |
| `Chunker.SlicesAreFewest` | src/Lotris.Application/Intelligence/KnowledgeIngestionService.cs:182-188 | no cut of a paragraph into parts that fit has fewer parts than there are slices |
| `Chunker.CountMonotone` | src/Lotris.Application/Intelligence/KnowledgeIngestionService.cs:176-180 | a fuller open chunk never leads to fewer chunks |
| `Chunker.SplitOfJoin` | src/Lotris.Application/Intelligence/KnowledgeIngestionService.cs:170-192 | splitting a packed chunk at blank lines gives its paragraphs |
| `Chunker.PartsSpellText` | src/Lotris.Application/Intelligence/KnowledgeIngestionService.cs:170 | the parts a text is split into hold no blank line and, with one between each two, spell the text |
| `Chunker.TrimIsSlice` | src/Lotris.Application/Intelligence/KnowledgeIngestionService.cs:170 | trimming cuts white space off both ends and nothing else |
| `Chunker.ChunkIndex.IndexArticle` | src/Lotris.Application/Intelligence/KnowledgeIngestionService.cs:79-117 | an article's rows are replaced by its chunks, numbered from 0, with token estimates |
| `Chunker.ReindexReplaces` | src/Lotris.Application/Intelligence/KnowledgeIngestionService.cs:79-117 | an article has exactly its new chunks and every other article its old ones |
| `Chunker.IndexedRow` | src/Lotris.Application/Intelligence/KnowledgeIngestionService.cs:79-117 | after indexing, the k-th row of the article carries the number k, the k-th chunk, of 1 to 1200 characters, and its token estimate |
| `Chunker.TokensAreQuarters` | src/Lotris.Application/Intelligence/KnowledgeIngestionService.cs:201 | the estimate is a quarter of the length rounded down, and at least 1 |
| `Search.CosineSimilarity` | src/Lotris.Application/Intelligence/IntelligenceService.cs:658-670 | the loop computes the cosine, 0 for unequal lengths and zero vectors |
| `Search.CauchySchwarz` | src/Lotris.Application/Intelligence/IntelligenceService.cs:662-669 | dot² is at most na·nb for all vectors of one length |
| `Search.CosineBounded` | src/Lotris.Application/Intelligence/IntelligenceService.cs:658-670 | scores lie in [-1, 1], and are 1 iff the vectors point the same way |
| `Search.CosineTimesLengths` | src/Lotris.Application/Intelligence/IntelligenceService.cs:658-670 | for nonzero vectors of one length the score times both lengths is their inner product |
| `Search.DotWithAxis` | src/Lotris.Application/Intelligence/IntelligenceService.cs:662-669 | the inner product with a vector that is nonzero in one place is the product there |
| `Search.DotAdds` | src/Lotris.Application/Intelligence/IntelligenceService.cs:662-669 | and it is additive, so those products say what it is |
| `Search.RankSelectsBest` | src/Lotris.Application/Intelligence/IntelligenceService.cs:343-353 | at most topK qualifying hits in descending order, all of them if they fit, and no omitted one beats a kept one |
| `Search.SortedQualifying` | src/Lotris.Application/Intelligence/IntelligenceService.cs:350-351 | sorting keeps exactly the qualifying hits, ties in repository order |
| `Search.CutKeepsBest` | src/Lotris.Application/Intelligence/IntelligenceService.cs:352 | cutting a ranked list keeps the better hits |
| `Search.KeywordScoreRange` | src/Lotris.Application/Intelligence/IntelligenceService.cs:574-583 | keyword scores lie in [0, 1], positive iff some term occurs in the text and 1 iff all of them do |
| `Search.ScoreIsShare` | src/Lotris.Application/Intelligence/IntelligenceService.cs:574-583 | the score times the number of terms is the number of terms that occur in the text |
| `Search.PartsSpellQuery` | src/Lotris.Application/Intelligence/IntelligenceService.cs:574 | the parts a query is split into hold no space and, with one space between each two, spell the query |
| `Search.KeywordSearchFinds` | src/Lotris.Application/Intelligence/IntelligenceService.cs:574-585 | keyword search returns only chunks some term occurs in, as many as topK allows, each once and those with more terms first; a chunk left out has no more than any returned |
| `Search.BlankQueries` | src/Lotris.Application/Intelligence/IntelligenceService.cs:574 | a query has no terms iff it is white space |
| `Trend.FitIsOptimal` | src/Lotris.Infrastructure/Analytics/KpiTrendAnalyser.cs:212-233 | for every nonempty list and in all three branches no line has a smaller sum of squared vertical errors |
| `Trend.BestLineIsUnique` | src/Lotris.Infrastructure/Analytics/KpiTrendAnalyser.cs:212-233 | it is the only best line iff not all x agree |
| `Trend.DenominatorSign` | src/Lotris.Infrastructure/Analytics/KpiTrendAnalyser.cs:224-228 | the denominator is never negative and zero iff all x agree, so the fallback fires only on degenerate data |
| `Trend.DenominatorIsSpread` | src/Lotris.Infrastructure/Analytics/KpiTrendAnalyser.cs:224 | it is n times the squared spread of x |
| `Trend.ExcessError` | src/Lotris.Infrastructure/Analytics/KpiTrendAnalyser.cs:230-232 | any line's error is the fit's plus the squared distance of the two lines over the data |
| `Trend.FitSolvesNormalEquations` | src/Lotris.Infrastructure/Analytics/KpiTrendAnalyser.cs:230-232 | the fit solves the normal equations |
| `Trend.FitRecoversLine` | src/Lotris.Infrastructure/Analytics/KpiTrendAnalyser.cs:212-233 | points on a line give that line back |
| `Trend.HigherBetterIsMonotone` | src/Lotris.Infrastructure/Analytics/KpiTrendAnalyser.cs:40-52 | for a positive target a higher projection never raises the warning |
| `Trend.OnTargetIsQuietIffPositive` | src/Lotris.Infrastructure/Analytics/KpiTrendAnalyser.cs:53-65 | where lower is better a projection at or under target is quiet iff it is positive; zero divides by zero |
| `Trend.WarningIsMiss` | src/Lotris.Infrastructure/Analytics/KpiTrendAnalyser.cs:33-65 | for positive figures the warning is RED iff the projection misses the target by more than 15 percent and AMBER iff by more than one, on the side the direction asks for; a zero target never warns |
| `EventStream.Reader.Feed` | apps/web/hooks/useEventSource.ts:76-92 | after each read the buffer is the unfinished tail of all that was read and the delivered data is that of its complete lines |
| `EventStream.Reader.Connect` | apps/web/hooks/useEventSource.ts:71-93 | however the stream is cut, the same lines are parsed and the same tail is left |
| `EventStream.Reader.HandleLine` | apps/web/hooks/useEventSource.ts:84-91 | only data lines count and unparsable ones are skipped |
| `EventStream.SplitAppend` | apps/web/hooks/useEventSource.ts:79-81 | splitting a longer stream extends the last piece of the shorter |
| `EventStream.SplitAppendParts` | apps/web/hooks/useEventSource.ts:79-81 | complete lines of a prefix stay, and the tail is all that the rest can change |
| `EventStream.SplitIsJoinInverse` | apps/web/hooks/useEventSource.ts:80 | joining the split lines with newlines gives the text back |
| `EventStream.DeliveryIsExactIffSingleLine` | src/Lotris.Api/Notifications/SseConnectionManager.cs:120-127 | exactly the sent messages are delivered iff none holds a newline |
| `EventStream.BrokenMessage` | src/Lotris.Api/Notifications/SseConnectionManager.cs:125 | a message with a newline is delivered only up to it |
| `EventStream.GreetingIsSilent` | src/Lotris.Api/Notifications/SseConnectionManager.cs:25 | the opening comment delivers nothing |
| `EventStream.LinesOfFrame` | src/Lotris.Api/Notifications/SseConnectionManager.cs:120-127 | a message without a newline is written as one `data: ` line and the blank line that dispatches it |
| `Csv.SplitCsvLine` | src/Lotris.Infrastructure/Kpi/ClosedXmlKpiSpreadsheetParser.cs:81-108 | the loop computes the cells |
| `Csv.KeptCells` | src/Lotris.Infrastructure/Kpi/ClosedXmlKpiSpreadsheetParser.cs:87-106 | the cells hold every character but quotes and separating commas, in order |
| `Csv.CountCells` | src/Lotris.Infrastructure/Kpi/ClosedXmlKpiSpreadsheetParser.cs:96-101 | there is one more cell than unquoted commas |
| `Csv.SplitUndoesJoinQuoted` | src/Lotris.Infrastructure/Kpi/ClosedXmlKpiSpreadsheetParser.cs:81-108 | quoting and joining any nonempty list of quote-free cells is undone |
| `Csv.QuotesNeverSurvive` | src/Lotris.Infrastructure/Kpi/ClosedXmlKpiSpreadsheetParser.cs:90-94 | no cell ever holds a quote |
| `Csv.RoundTripIffQuoteFree` | src/Lotris.Infrastructure/Kpi/ClosedXmlKpiSpreadsheetParser.cs:90-94 | the round trip works iff no cell holds a quote |
| `Schedule.NextRunIsEarliest` | src/Lotris.Application/Reports/ReportService.cs:193-221 | the next run is strictly later, at 08:00 on the earliest Monday, first of month or first of quarter dated after today, at most 7, 31 or 92 days on |
| `Schedule.StoredFrequencyRuns` | src/Lotris.Application/Reports/ReportService.cs:193-221 | at eight: stored as WEEKLY on the Monday within the seven days after today, as MONTHLY on the first of the next month, as anything else on the first of the next quarter |
| `Schedule.DayNumberFormula` | src/Lotris.Application/Reports/ReportService.cs:193-221 | the calendar numbers days as the closed formula of the Gregorian calendar does |
| `Schedule.MillenniumIsSaturday` | src/Lotris.Application/Reports/ReportService.cs:200-204 | and names weekdays by it: 2000-01-01 was a Saturday |
| `Schedule.TicksOrder` | src/Lotris.Application/Reports/ReportService.cs:193-221 | the order of instants by date and time of day, in which runs are compared, is that of their ticks |
| `Schedule.NextRunMonotone` | src/Lotris.Application/Reports/ReportService.cs:193-221 | a later computation never schedules an earlier run |
| `Schedule.OnTimeRuns` | src/Lotris.Application/Reports/ReportService.cs:198-212 | weekly runs on time are seven days apart and monthly ones in consecutive months |
| `Schedule.FedIncreases` | src/Lotris.Application/Reports/ReportService.cs:193-221 | runs fed back give a strictly increasing schedule |
| `Schedule.FedWeekly` | src/Lotris.Application/Reports/ReportService.cs:198-205 | weekly ones are exactly seven days apart throughout |
| `Schedule.MonthlyCovers` | src/Lotris.Workers/Jobs/ReportScheduleRunnerJob.cs:84-90 | a monthly report covers exactly the month before the run's |
| `Schedule.QuarterlyCovers` | src/Lotris.Workers/Jobs/ReportScheduleRunnerJob.cs:92-98 | a quarterly one exactly the quarter before |
| `Schedule.MonthlyReportsTile` | src/Lotris.Workers/Jobs/ReportScheduleRunnerJob.cs:35-62 | a monthly report starts on the day after the last of another iff its run falls in the month after the other's; for a run at or after the scheduled instant, iff it falls in the scheduled month and the other read the clock for it in the month it ran in |
| `Schedule.QuarterlyReportsTile` | src/Lotris.Workers/Jobs/ReportScheduleRunnerJob.cs:35-62 | the same for quarters |
| `Schedule.WeeklyReportsOverlap` | src/Lotris.Workers/Jobs/ReportScheduleRunnerJob.cs:78-82 | on time, from Monday to Monday, neighbouring weekly reports share their boundary Monday and do not tile |
| `Schedule.WeeklyTilesIff` | src/Lotris.Workers/Jobs/ReportScheduleRunnerJob.cs:78-82 | weekly reports tile iff their runs are eight days apart, share dates iff nearer, and leave a gap iff further |
| `Schedule.ContinuesIff` | src/Lotris.Workers/Jobs/ReportScheduleRunnerJob.cs:75-98 | for any two runs of one frequency the reports tile iff the later is in the month or quarter after the earlier, weekly eight days on |
| `Schedule.ScheduledTilesIff` | src/Lotris.Workers/Jobs/ReportScheduleRunnerJob.cs:35-62 | monthly and quarterly, a run in the scheduled period continues the report iff both clock readings of the run before lie in one period; a later run never does |
| `Schedule.WeeklyOnScheduleTilesIff` | src/Lotris.Workers/Jobs/ReportScheduleRunnerJob.cs:35-62 | weekly, the scheduled day's report continues iff the run before was a Sunday's and read the clock again in the following week |
| `Schedule.ReportsTileIff` | src/Lotris.Workers/Jobs/ReportScheduleRunnerJob.cs:22-73 | over any sequence of passes, failed runs included, the stored reports tile iff every pass that stores one reads the clock for the next run in its own period and the next pass to store one is in the period scheduled; after a job without rescheduling, iff that pass is in the following period |
| `Schedule.LateReadingSkips` | src/Lotris.Workers/Jobs/ReportScheduleRunnerJob.cs:35-62 | a run that reads the clock again in a later period breaks the tiling, even when the next one comes at the scheduled instant |
| `Schedule.SkippedMonth` | src/Lotris.Workers/Jobs/ReportScheduleRunnerJob.cs:84-90 | monthly, no date of the month it ran in is in its own report or in that of any run it scheduled |
| `Schedule.JanuarySkipped` | src/Lotris.Workers/Jobs/ReportScheduleRunnerJob.cs:35-62 | such passes at the end of any January, which is never reported |
| `Schedule.NextRunIsNextPeriod` | src/Lotris.Application/Reports/ReportService.cs:193-221 | the next run falls in the very next week, month or quarter |
| `Schedule.ReportsOncePerPeriodIff` | src/Lotris.Workers/Jobs/ReportScheduleRunnerJob.cs:33-72 | over any sequence of passes no two reports fall in one week, month or quarter iff no run stores its job, fails to reschedule and is followed in the same period by a run that stores one |
| `Schedule.RepeatHappens` | src/Lotris.Workers/Jobs/ReportScheduleRunnerJob.cs:53-71 | two passes of one day that store the report twice |
| `Schedule.ScheduleRunner.ExecuteDueSchedules` | src/Lotris.Workers/Jobs/ReportScheduleRunnerJob.cs:22-73 | the due schedules run in the query's order, each as far as it gets, and no others change |
| `Schedule.ScheduleRunner.Run` | src/Lotris.Workers/Jobs/ReportScheduleRunnerJob.cs:35-71 | one schedule's turn: nothing, the job alone, or the job and the new run times from a second clock reading |
| `Schedule.PassFiresAllDue` | src/Lotris.Workers/Jobs/ReportScheduleRunnerJob.cs:24-62 | a pass runs exactly the due schedules and leaves due those whose run did not complete |
| `Schedule.DueIff` | src/Lotris.Workers/Jobs/ReportScheduleRunnerJob.cs:24-33 | a schedule is due iff it is active and the ticks of its next run are at most the clock's |
| `Schedule.RunMovesDates` | src/Lotris.Workers/Jobs/ReportScheduleRunnerJob.cs:53-62 | a completed run dates the schedule by the pass and plans the next run from the second reading; no run changes anything else |
| `Schedule.LastRunIsTold` | src/Lotris.Workers/Jobs/ReportScheduleRunnerJob.cs:53-62 | over any passes the last run date is the start of the last pass whose run completed |
| `Schedule.JobCoversPeriod` | src/Lotris.Workers/Jobs/ReportScheduleRunnerJob.cs:75-98 | the stored report is the schedule's, dated by the pass, and covers the seven days up to it, the month before or the quarter before |
| `Schedule.FiringsAreApart` | src/Lotris.Workers/Jobs/ReportScheduleRunnerJob.cs:24-62 | however often the runner passes, after a completed run the next report comes only at or after the run it scheduled |
| `Checklist.ProgressRange` | src/Lotris.Application/Tasks/TaskService.cs:345-356 | progress lies in 0..100, is 100 iff at least 99.5 percent are done and 0 iff at most 0.5 percent are |
| `Checklist.ProgressIsNearest` | src/Lotris.Application/Tasks/TaskService.cs:345-346 | progress is within half a percent of the exact share of finished items |
| `Checklist.ProgressMonotone` | src/Lotris.Application/Tasks/TaskService.cs:345-346 | more finished items of as many never show less |
| `Checklist.ShortListsAreExact` | src/Lotris.Application/Tasks/TaskService.cs:354-357 | under 200 items 100 percent means all of them |
| `Checklist.LongListsAreNot` | src/Lotris.Application/Tasks/TaskService.cs:354-357 | from 200 items on one item may be open |
| `Checklist.StoredIsShown` | src/Lotris.Application/Tasks/TaskService.cs:334-369 | after a tick or deletion that leaves items the stored progress is the shown one |
| `Checklist.LastDeletionKeepsProgress` | src/Lotris.Application/Tasks/TaskService.cs:340-343 | deleting the last item keeps the stored progress, which is then shown |
| `Checklist.CompletedIff` | src/Lotris.Application/Tasks/TaskService.cs:206-241 | over any run of checklist calls the task is completed iff it was or some tick or deletion left at least 99.5 percent done; no call undoes it |
| `Checklist.TickTwice` | src/Lotris.Application/Tasks/TaskService.cs:219-226 | ticking an item twice restores every mark |
| `Checklist.AddedGoesLast` | src/Lotris.Application/Tasks/TaskService.cs:188-189 | without an explicit order a new item goes after all others |
| `Checklist.RoundAtLeast` | src/Lotris.Application/Tasks/TaskService.cs:346 | when the half-to-even rounding reaches a given percentage |
| `Checklist.TaskService.AddChecklistItem` | src/Lotris.Application/Tasks/TaskService.cs:180-204 | an open item is appended and progress is not recomputed |
| `Checklist.TaskService.ToggleChecklistItem` | src/Lotris.Application/Tasks/TaskService.cs:206-229 | the item is flipped and progress recomputed, or it is not found |
| `Checklist.TaskService.DeleteChecklistItem` | src/Lotris.Application/Tasks/TaskService.cs:231-241 | the item is removed and progress recomputed |
| `Checklist.TaskService.RecomputeProgress` | src/Lotris.Application/Tasks/TaskService.cs:334-360 | stored progress, and completion at 100; nothing for an empty list |
| `Checklist.GoesIff` | src/Lotris.Application/Tasks/TaskService.cs:306-331 | a call goes through iff the task is the tenant's, its caller leads, created it or is assigned to it, and a ticked item is there; else nothing changes |
| `Checklist.TickTurnsOne` | src/Lotris.Application/Tasks/TaskService.cs:219-226 | a tick turns the mark of the one item with the identifier, dated by the call when it is now done and undated else, and touches no other |
| `Checklist.DeletionRemovesOne` | src/Lotris.Application/Tasks/TaskService.cs:231-241 | a deletion takes out the one item with the identifier and keeps the others in their order |
| `Checklist.DeletionOfNone` | src/Lotris.Application/Tasks/TaskService.cs:231-241 | and takes out nothing when it is not there |
| `Checklist.CompletionIsDated` | src/Lotris.Application/Tasks/TaskService.cs:352-360 | over any run the task is dated by the last call that left at least 99.5 percent done |

## Left out

- SQL text and mapping, HTTP, Redis, Hangfire, IMAP, the vector store and AI providers: foreign effects. Rows are
  kept in maps and sequences.
- Overlap of service calls outside refresh tokens: every other call is one step here, although the code reads and
  writes in several.
- Clocks, identifiers, hashes, configuration and lookups without a full order are parameters; fresh identifiers are
  unused ones, fresh token hashes distinct, token lifetimes positive.
- `Trend.FitIsOptimal`: does not model decimal or double rounding; nor do `Search`, `KpiScoring` and `Checklist`, whose numbers are exact but for the explicit rounding calls.
- `KpiAgreements.KpiService.RecordManually`: has the foreign key to the metric only, not those to tenants, users and definitions.
- `KpiAgreements.RunInv`: keeps weights as requested; what storing them in two decimals changes is `KpiAgreements.StoredWeightsNearHundred`. Metric weights, targets and scores are not rounded once more.
- `KpiAgreements.KpiService.UploadRows`: does not model file parsing and the refusals of extensions and headers; cell splitting is in `Csv`.
- `EventStream.Reader.Feed`: does not model UTF-8 decoding, reconnection and React state; the server lines are those of one connection.
- `Chunker.ChunkText`: does not model surrogate pairs; `AppendLine` is taken as one newline.
- `Search.CosineSimilarity`: takes the square root as a function with its defining property.
- `Schedule.ComputeDateRange`: does not model dates in year 1, and no date ends at year 9999, where .NET throws.
- `Schedule.ScheduleRunner.ExecuteDueSchedules`: takes how far each run gets as a parameter; report type, recipients and the queue of generation jobs are left out.
- `SqlSerializer.SerializeChunks`: works on tokens, so escaping and the textual likeness of @p1 and @p10 do not arise; nor do objects of no known shape, which serialize to nothing, and the grammar of OFFSET in grouped queries.
- `SqlReader.ChainReadsBack`: does not read chains in which a name or expression holds one of the words the reader cuts at, as a nested AND does; join kinds are the two the builder offers, INNER and LEFT.
- `SqlReader.UpdateReadsBack`: does not read assignments to columns whose names hold a bracket, a comma or the word WHERE between spaces.
- `RowMapping.InsertedReadsBackIff`: speaks of rows of the inserted columns alone, whole rows are `RowMapping.ShowsOwnCellIff`; values changing type on their way through the server and column names equal up to case are not modelled.
- `Csv.SplitCsvLine`: has no doubled quotes, as the parser has none.
- `Tickets.RunInv`: does not cover runs with batch reassignments, which break it (`Tickets.ReassignKeepsInvIff`); free text of log entries, comments, attachments, notifications and cache invalidation are left out.
- `Tickets.HelpDesk.UpdateStatus`: ends before the evaluation of analyses, which `TicketClosing.TicketService.UpdateStatus` adds; notifications and the ticket index are left out.
- `Tickets.HelpDesk.ProcessInboundEmail`: takes as a parameter whether a ticket of the sender with this title came within five minutes.
- `TicketClosing.TicketService.UpdateStatus`: takes the ticket's priority and title with the rule and the users; notifications and the ticket index are left out.
- `Rca.RcaService.CreateProblemAndRca`: does not model the problem record, references and the review date.
- `Rca.RcaService.Update`: models the two texts a publication may use, not the other fields of the patch.
- `Rca.RcaService.PublishRca`: models the known error's description, not its title, workaround, fix and ingestion as knowledge.
- `Chunker.ChunkIndex.IndexArticle`: does not model embeddings, vectors and the record of the index run.
- `RefreshTokens.RunInv`: does not model claims and signatures of access tokens.
- `Checklist.CompletedIff`: does not model the status changes of a task outside its checklist.
- Insert statements' text, raw `execute` (one call of `SerializeChunks`), trend snapshots and their database reads, hit excerpts, embeddings, upload parsing, team targets, definitions, onboarding, administration, health, workload reports and all screens: reading, formatting or storing without a property of their own.
