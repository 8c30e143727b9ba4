# Gaspo backend: verified core

A Dafny model of the algorithmic parts of the Gaspo backend, with proofs of what
they promise. The project is self-contained; `dafny verify dfyconfig.toml` checks
all of it.

## What is modelled

**The credit ledger.** Grants, allocations and events are sequences of rows, and
left joins, `GROUP BY` and `SUM` are functions over them (`LedgerTables`), so that
join fan-out is a theorem and not an assumption. `Balance` proves the three balance
queries equal, `SpendPlan` the drain order, `Rollover` what a renewal carries
forward. `LedgerRuns` and `Renewals` are the state machine over whole histories,
and `UsageService` is the class whose methods are its steps. `Billing` interleaves
Stripe deliveries one database step at a time: a delivery may be repeated, may race
another, and may fail anywhere; `BillingOrigins`, `Checkouts` and `Invoices` trace
each grant to the delivery and the payload that fix it.

**Scheduled executors.** `Exports` and `ExportsService` are the watermark protocol
over a log of rows that grows while runs are in flight. `Rules`, `RuleBudgets` and
`RulesService` are the rule engine's guardrails, with every outcome of every attempt
arbitrary (including an action applied whose record could not be saved).

**The agent loop.** `AgentLoop` drives an arbitrary provider, a function from the
number of the call to a reply or a failure. `Transcripts` states the tool protocol
and carries it through both vendor renderings and cache marking.

**Toolsets.** `ToolNames` and `McpBridge` build and narrow the bridged toolset;
`AttachedApps` is the sticky record of a conversation and the turn that uses it.

**Two small cores.** `Pricing` is charge against cost in exact arithmetic;
`RateLimit` is the fixed-window limiter as interleaved increment and expiry steps.

`Prelude` holds the shared vocabulary: optional values, sums, filters, groups,
first occurrences.

## Assumptions

- One clock at one precision, and money and budgets as integers or exact rationals.
- One `recordEvent` is atomic, and so is one evaluation of a rule; the runs of one
  export and the turns of one conversation do not overlap. The code takes no lock
  there. Renewals and top-ups do have a guard, and are interleaved step by step.
- Two deliveries for different invoices do not see each other's uncommitted rows;
  the amount carried and the seat count a renewal reads are arbitrary in `Billing`
  and exact in `LedgerRuns`.
- A query returns its rows in any order unless the code asks for one.
- A row is visible at its own timestamp: an insert that commits after a later read has
  passed its timestamp is not modelled.
- Prices in the catalogue are not negative.
- A Sheets call that fails has written nothing.

## Where the code and its promises differ

The model follows the code. Each difference has an exact condition or a failing
input above or below:

- The carried amount sums grants over the join without grouping, so an allowance
  drawn on twice or more rolls over too much (`Rollover.CarriesExactlyIff`,
  `Rollover.TwiceDrawnCarriesTooMuch`).
- A renewal paid before the old period ends copies the unspent allowance rather than
  moving it, and one paid after it ends carries nothing
  (`Renewals.RenewalAddsNoMoreIff`, `Renewals.RenewalCopiesCredits`,
  `Rollover.NothingCarriedAfterExpiry`).
- A paused reply is replayed to Anthropic with its original blocks but recorded
  without calls; if the blocks hold a local tool call, nobody answers it
  (`Transcripts.AnthropicRunsKeepProtocolIff`).
- The attached-apps cap can drop incoming actions: one that was already listed, or the
  first of more than 24 new ones (`AttachedApps.IncomingSurviveIff`,
  `AttachedApps.IncomingActionEvicted`, `AttachedApps.FreshListOverflows`). A failed
  read of the record can widen, shrink or drop what it held
  (`AttachedApps.GrowsIffReadsSuffice`).
- A limiter instance that dies between increment and expiry leaves a counter that
  never resets (`RateLimit.ReopensIff`, `RateLimit.StuckRefusesForever`).
- A run that throws after some replies records no usage for them
  (`AgentLoop.ThrownRunLosesUsage`).
- Until an export has succeeded once, its window is measured afresh at every attempt,
  so a failed first run can lose rows (`Exports.FailedRunKeepsBacklogIff`).
- An export whose row could not be saved after a successful append repeats the rows
  (`Exports.UnsavedKeepsHistoryIff`); rows sharing the timestamp at the 500-row cut
  are skipped (`Exports.CutKeepsBacklogIff`).
- The daily cap counts recorded successes, so an action whose success row was lost
  does not use it up (`Rules.AppliedWithinCapAndLost`).
- A renewal on an unknown plan is acknowledged with nothing granted, so Stripe does
  not deliver it again (`BillingOrigins.GrantedIffPlanWasKnown`,
  `BillingOrigins.UnknownPlanIsAcked`).
- A run on a model missing from the catalogue, or in it at a price of zero, is charged
  and recorded as free (`Pricing.RecordedFreeIff`, `Pricing.ZeroPricedIsFree`).
- Daily caps hold for days without their first instant; with both ends counted,
  twice the cap fits (`Rules.ClosedDayHoldsTwice`).

## Model

| member | source | states |
|---|---|---|
| LedgerTables.JoinOneFacts | src/usage/usage.service.ts:524-539 | In the grants-allocations join a grant's draws sum correctly, while its own credits appear once per draw (once when never drawn). |
| LedgerTables.WhereOfJoin | src/usage/usage.service.ts:444-445 | Filtering on the grant before or after the left join gives the same rows. |
| LedgerTables.PerGrantOfJoin | src/usage/usage.service.ts:533-539 | Grouping the join by the grant's primary key undoes the fan-out: one row per grant, with exactly what was spent on it. |
| Balance.GetBalance | src/usage/usage.service.ts:522-582 | For every ledger and instant: granted, used, live balance and expired credits are the plain per-grant sums, each of the four buckets holds its share in spend order, and each bucket's expiry is the least non-null expiry of its live grants, whatever order the rows come back in. |
| Balance.BucketsAddUp | src/usage/usage.service.ts:576-579 | The four buckets partition the live balance. |
| Balance.TruthIsLiveBalance | scripts/check-credit-balances.ts:25-35 | The reference query (pre-aggregated spend, no grouping) is the live balance. |
| Balance.CreditsByWorkspace | src/super-admin/super-admin.service.ts:118-173 | Every requested workspace gets exactly its own granted, used, live and paid totals, zero when it has no rows, for any list of ids. |
| Balance.CheckWorkspace | scripts/check-credit-balances.ts:47-54 | The three differently shaped queries agree on every workspace, ledger and instant. |
| SpendPlan.PlanAllocations | src/usage/usage.service.ts:221-239 | The sort-and-drain loop computes the plan described by each grant's cumulative share of the charge. |
| SpendPlan.PlanTotal | src/usage/usage.service.ts:228-237 | The plan totals the lesser of the charge (not below zero) and the positive credits held. |
| SpendPlan.PlanTakesOnce | src/usage/usage.service.ts:231-237 | Every grant pays at most once, a positive amount, from its own bucket, and no more than it holds. |
| SpendPlan.PlanDominates | src/usage/usage.service.ts:103-120 | Among all payments of the planned total, the plan takes the most from every prefix of the spend order. |
| SpendPlan.PlanIsPayment | src/usage/usage.service.ts:228-238 | The plan is itself such a payment, so the bound is attained. |
| SpendPlan.EarlierDrained | src/usage/usage.service.ts:109-112 | A later grant is touched only when every earlier one is drained. |
| SpendPlan.EarlierBucketsFirst | src/usage/usage.service.ts:103-114 | A bucket is touched only once every grant of every earlier one is paid out whole, in the order rollover, plan, top-up, reward: top-ups and rewards are reached only when the allowance is exhausted. |
| SpendPlan.OrderedIsStable | src/usage/usage.service.ts:225-227 | The sort keeps the incoming order inside each bucket, so oldest stays first. |
| SpendPlan.OrderedIsSorted | src/usage/usage.service.ts:225-227 | The sorted list follows the bucket order. |
| SpendPlan.OrderedIsPermutation | src/usage/usage.service.ts:225-227 | The sort neither loses nor invents a grant. |
| Rollover.JoinSumLaw | src/billing/subscriptions.service.ts:248-260 | Before the clamp, the ungrouped join sum is the unspent live plan credits plus, per grant drawn on more than once, (draws - 1) times its credits. |
| Rollover.CarriesExactlyIff | src/billing/subscriptions.service.ts:237-261 | The carried amount is never less than what is unspent, and equals it if and only if no non-empty live plan grant was drawn on more than once. |
| Rollover.TwiceDrawnCarriesTooMuch | src/billing/subscriptions.service.ts:248-260 | The failing input: 100 credits drawn on twice for 10 leave 80, and 180 roll over. |
| Rollover.NothingCarriesIff | src/billing/subscriptions.service.ts:248-260 | Nothing carries if and only if every live plan grant is used up, in one draw unless it was empty. |
| Rollover.DependsOnPlanOnly | src/billing/subscriptions.service.ts:237-258 | The measurement sees only the workspace's live plan grants and their draws. |
| Rollover.MeasuredTooLate | src/billing/subscriptions.service.ts:145-148 | Measured after the new allowance lands, the sum would contain that whole allowance. |
| Rollover.NothingCarriedAfterExpiry | src/billing/subscriptions.service.ts:258 | If the old allowance has already expired when the invoice is paid, nothing carries. |
| LedgerRuns.StepKeepsInv | src/usage/usage.service.ts:378-482 | Metering a run, granting, renewing or a tick of the clock overdraws no grant, keeps every allocation attached to a grant, and never shrinks a shortfall. |
| LedgerRuns.RunKeepsInv | src/usage/usage.service.ts:374-412 | Over every sequence of those steps no grant is overdrawn and charged minus allocated is a non-negative, never-decreasing shortfall per workspace. |
| LedgerRuns.Conservation | src/usage/usage.service.ts:517-520 | Granted = live + expired + allocated, in every reachable ledger. |
| LedgerRuns.SpendableIsBalance | src/usage/usage.service.ts:435-464 | What the planner is shown adds up to the balance getBalance reports. |
| LedgerRuns.RunSettlesAgainstBalance | src/usage/usage.service.ts:403-412 | A run takes exactly min(charge, balance) from the balance, and the rest is added to the shortfall. |
| LedgerRuns.RecordedCharges | src/usage/usage.service.ts:378-428 | A run adds one event of the workspace with the full charge, and only allocations that name that event, a live grant of the workspace and that grant's bucket. |
| UsageService.UsageService.LiveGrantsForSpending | src/usage/usage.service.ts:435-464 | The rows are exactly the workspace's live grants with credits left, oldest first, each with what was spent on it. |
| UsageService.UsageService.RecordEvent | src/usage/usage.service.ts:378-428 | recordEvent and allocate append one event with the full charge and allocations naming it and the live grants that pay, one ledger step, changing no grant and no earlier allocation. |
| UsageService.UsageService.GrantCredits | src/usage/usage.service.ts:466-482 | grantCredits raises one pot of the workspace by the credits, for as long as they live, and the paid cents by what was paid; every other pot of every workspace is as it was, at every later instant. |
| UsageService.UsageService.ApplyRenewal | src/billing/subscriptions.service.ts:176-226 | At every later instant the transaction is worth the seat bonus in rewards for good, the allowance in plan and what was carried in rollover until the period ends, and nothing in any other pot or workspace; paid cents rise by the price. It reports what it minted. |
| Renewals.RenewalAdds | src/billing/subscriptions.service.ts:176-218 | A renewal for a period still to come raises the balance by allowance, bonus and carried credits, so by what was bought if and only if nothing carried: the old allowance is not retired. |
| Renewals.RenewalAddsNoMoreIff | src/billing/subscriptions.service.ts:176-218 | It raises the balance by no more than what was bought if and only if every live allowance is used up, in one draw unless it was empty. |
| Renewals.RenewalCopiesCredits | src/billing/subscriptions.service.ts:176-218 | The failing input: 80 of 100 credits left after two draws, renewed in time for another 100, and 360 can be spent. |
| Renewals.RenewedIsWorth | src/billing/subscriptions.service.ts:176-218 | The same of the renewal step, for every ledger that satisfies the invariant. |
| Renewals.GrantedIsOneMore | src/usage/usage.service.ts:466-482 | The same of a single grant, which is the last row of the table and is dated to now. |
| Renewals.SeatBonusExact | src/billing/subscriptions.service.ts:263-267 | Nothing up to four seats, 10,000 credits for each of the next forty, 400,000 from there on. |
| Renewals.SeatBonusShape | src/billing/subscriptions.service.ts:263-267 | The seat bonus is monotone in seats, zero exactly up to the free seats, and at its cap exactly from 40 seats above them. |
| Renewals.RunKeepsHistory | src/billing/subscriptions.service.ts:155-226 | Over every run, each past renewal's grants are still in the ledger with the expiry they were minted with, and what it measured were live plan grants. |
| Renewals.AllowanceIsGone | src/billing/subscriptions.service.ts:237-243 | With renewals on schedule, neither an allowance nor its rollover is spendable once the following period has ended. |
| Renewals.RolloverNeverRolls | src/billing/subscriptions.service.ts:240-242 | No renewal ever measures a rollover grant. |
| Billing.StepKeepsInv | src/billing/billing.service.ts:278-393 | Every step of every delivery (retried, concurrent, aborted anywhere, also between its commit and its answer) keeps: committed batches whole, keys unique, at most one holder per invoice, acknowledgements backed by a grant. |
| Billing.GrantedAtMostOnce | src/database/entities/credit-grant.entity.ts:70-81 | Under every interleaving an invoice id has at most one plan grant and a checkout session at most one top-up. |
| Checkouts.AcknowledgedCheckoutIsCredited | src/billing/billing.service.ts:312-345 | An acknowledged one-off checkout that names a workspace and a positive number of credits and is not unpaid is credited exactly once, then and at every later moment. |
| Checkouts.TopUpsAreAsPaid | src/billing/billing.service.ts:324-333 | Every top-up has the workspace and credits of a delivered one-off session with its id, not unpaid, and no expiry. |
| Checkouts.UnabortedCheckoutIsCredited | src/billing/billing.service.ts:312-345 | In every schedule, a delivery of such a checkout that is never aborted and driven to an answer leaves it credited exactly once. |
| BillingOrigins.EveryGrantWasPaidFor | src/billing/billing.service.ts:312-393 | Every grant belongs to a batch written for one paid delivery that reached its commit, whether or not it was answered: exactly the top-up of a paid one-off checkout, or exactly the rollover, allowance and bonus of one period of the subscription the invoice names; all of them or none. |
| Invoices.PlanGrantsAreAsPaid | src/billing/billing.service.ts:371-384 | Every plan grant is the allowance of one delivered invoice for a new period: the workspace and a known plan that Stripe named for its subscription, that plan's credits, until the period end the invoice or the subscription names. |
| Invoices.RunKeepsMirror | src/billing/subscriptions.service.ts:104-139 | Over every run each subscription row, and what each delivery found, was named by acknowledged changes of that subscription or by its invoices, and an acknowledged change is mirrored from then on. |
| Invoices.ChangeIsMirrored | src/billing/subscriptions.service.ts:111-139 | The newest change wins: workspace, plan, and the period it names or else the one already there, and no other row changes. |
| Invoices.CommitMovesPeriod | src/billing/subscriptions.service.ts:220-223 | The commit moves the invoice's subscription to the period granted, and nothing else about any subscription. |
| Invoices.PeriodIsRenewal | src/billing/subscriptions.service.ts:176-218 | The rows a delivery commits are, row for row, what the ledger's renewal adds. |
| Billing.AcknowledgedMeansGrantedOnce | src/billing/billing.service.ts:356-393 | A renewal on a known plan acknowledged to Stripe is granted exactly once, then and at every later moment. |
| BillingOrigins.GrantedIffPlanWasKnown | src/billing/subscriptions.service.ts:160-171 | In every reachable state an invoice has one plan grant if some delivery of it that got past its commit or to its acknowledgement found a known plan, and none otherwise. |
| BillingOrigins.UnknownPlanIsAcked | src/billing/subscriptions.service.ts:160-166 | The failing input: a subscription synced on an unknown plan, its paid invoice acknowledged, nothing granted. |
| Billing.CheckoutPlusInvoiceGrantsOnePeriod | src/billing/billing.service.ts:306-318 | A subscription checkout and its first invoice grant one period and no top-up. |
| Billing.StepsRunOut | src/billing/billing.service.ts:356-393 | Every step brings its delivery strictly nearer to an answer. |
| Billing.SomeoneCanMove | src/billing/subscriptions.service.ts:227-234 | A delivery waiting on the unique index waits for one that can move: no deadlock. |
| Billing.UnabortedDeliveryGrants | src/billing/billing.service.ts:371-392 | In every schedule, a new delivery of a paid invoice whose subscription stays synced on a known plan, never aborted and driven to an answer, is acknowledged with the invoice granted exactly once. |
| Billing.RedeliveryCanGrant | src/billing/billing.service.ts:371-378 | From every reachable state such a schedule exists: a 503 loses nothing. |
| Billing.CommittedGrows | src/billing/subscriptions.service.ts:150-153 | Grants are append-only across every step. |
| Exports.StepKeepsInv | src/exports/exports.service.ts:217-265 | Row inserts, run starts, reads and finished runs (successful or failing at any Sheets call) keep the tab equal to the history it should hold; a lost save does when it lost nothing. |
| Exports.TabAlwaysHistory | src/exports/exports.service.ts:269-276 | Over any run the tab is empty, or one header and then exactly the rows after the first successful run's watermark and up to the stored one, in order, each once, if no append goes unsaved. |
| Exports.FromIsStable | src/exports/exports.service.ts:224-226 | Where the history starts is fixed by the first success and never moves. |
| Exports.FailedRunKeepsBacklogIff | src/exports/exports.service.ts:222-264 | A failed run leaves tab, rows and stored watermark alone, and the next run faces the same backlog if and only if some run has succeeded before or no row falls out of the lookback window in between. |
| Exports.FailedFirstRunLosesRow | src/exports/exports.service.ts:226 | The failing input: a first run reads a week-old row and fails, and no later run finds it. |
| Exports.RunReadsFrom | src/exports/exports.service.ts:222-226 | A run reads the first 500 rows after the stored watermark, or, until one is stored, after its own start less windowDays days. |
| Exports.FinishedSays | src/exports/exports.service.ts:241-264 | A finished run records how it went, and its schedule moves whether it went well or not; a run-now leaves the schedule alone. |
| Exports.SuccessAdvancesPastItsRows | src/exports/exports.service.ts:245-247 | A successful run takes exactly its rows off the front of the backlog, including when the 500-row cut applied. |
| Exports.CutKeepsBacklogIff | src/exports/exports.service.ts:269-276 | With timestamps that may tie, the rows read and the rows after the new watermark are the whole backlog if and only if it fits in 500 rows or no tie straddles the cut. |
| Exports.TiedRowIsSkipped | src/integrations/roas.service.ts:186-192 | The failing input: of 501 rows of one instant the last is neither read nor after the new watermark. |
| Exports.UnsavedKeepsHistoryIff | src/exports/exports.service.ts:258-264 | If saving the export's row fails, the tab is still the history if and only if the write had failed, went to a spreadsheet whose id was never stored, or had nothing to append. |
| Exports.UnsavedRunRepeats | src/exports/exports.service.ts:245-264 | Otherwise a fault-free next run appends the same rows again, after those of the lost run. |
| Exports.RowWrittenTwice | src/exports/exports.service.ts:258-264 | The failing input: a run of a new export whose tab ends up holding one row twice. |
| ExportsService.SheetsService.Write | src/integrations/sheets.service.ts:81-131 | Create, add tab, look for content, header once, append: the store after the call, for a failure at any of the API calls. |
| ExportsService.ExportsService.BuildTable | src/exports/exports.service.ts:277-306 | Reading the rows after the watermark, cut at 500, is one step of the protocol and keeps its invariant. |
| ExportsService.ExportsService.FinishRun | src/exports/exports.service.ts:234-264 | The write, the outcome fields and the schedule are one step of the protocol and keep its invariant. |
| ExportsService.ExportsService.FinishUnsaved | src/exports/exports.service.ts:234-264 | The write with its outcome lost is one step of the protocol, and keeps the invariant exactly when it appended nothing. |
| ExportsService.ExportsService.NewestOf | src/exports/exports.service.ts:269-276 | The reduce finds the latest timestamp, whatever the order of the rows, and none when there are none. |
| Rules.OneScaleIsBounded | src/rules/rules.service.ts:354-367 | One scale leaves a budget of at least 1 and at most f * current + 1, f = 1 + |maxScalePct| / 100. |
| Rules.OneScaleComputes | src/rules/rules.service.ts:354-367 | One scale is current * (100 + pct) / 100 rounded halves up and at least 1, pct being scalePct cut to maxScalePct on either side; scaling up never lowers a budget of at least 1, scaling down never raises it. |
| Rules.ScalesOnce | src/rules/rules.service.ts:361-362 | That leaves one possible budget. |
| Rules.EvaluationDoes | src/rules/rules.service.ts:278-332 | What one evaluation logs: alerts for the first breaches, or attempts on exactly the first breaches the two caps leave room for, in order, up to one whose failure could not be recorded; every applied scale logs its budget, scaled as above from the one loaded. |
| Rules.EveryRunDoes | src/rules/rules.service.ts:278-332 | The same of every evaluation of every history. |
| Rules.EvaluationKeepsInv | src/rules/rules.service.ts:291-332 | One evaluation, any breaches and any outcome of each attempt, keeps the daily cap over every window. |
| Rules.EveryDayIsCapped | src/rules/rules.service.ts:296-302 | Over all serial evaluations under a monotone clock, every 24 hours (closed at one end, wherever they start) hold at most dailyActionCap recorded successes. |
| Rules.AppliedWithinCapAndLost | src/rules/rules.service.ts:319-327 | Actions applied in such a day exceed the recorded successes by exactly those whose success row was lost, so they stay within the cap plus those. |
| Rules.LostRowPassesCap | src/rules/rules.service.ts:319-327 | The failing input: with one success row lost, two pauses pass a cap of one. |
| Rules.EveryRunIsCapped | src/rules/rules.service.ts:278-288 | A run records at most maxActionsPerRun attempts, only appends, and an alert-only rule changes no budget. |
| Rules.ClosedDayHoldsTwice | src/rules/rules.service.ts:297-300 | The exclusive lower bound matters: counting both ends of a day, two actions fit under a cap of one. |
| RuleBudgets.DailyGrowthIsBounded | src/rules/rules.service.ts:354-367 | If only this rule changes an entity, a budget B read at the start of any 24 hours ends them at most f^k * (B + k), k at most the daily cap plus applied actions whose success row was lost. |
| RuleBudgets.HistoryKeepsBudgets | src/rules/rules.service.ts:312-328 | Over every history the budgets are what replaying the recorded log gives, and every write in it is within one scale of what it replaced. |
| RulesService.RulesService.ExecuteMutations | src/rules/rules.service.ts:291-332 | The loop over the breaches that fit under the cap, with its retry of a failed record, logs exactly those attempts and scales, and reaches the specified world. |
| RulesService.RulesService.EvaluateRule | src/rules/rules.service.ts:274-288 | Quiet, alert-only and acting evaluations log exactly that, reach the specified world and keep the cap. |
| AgentLoop.Run | src/ai/ai.service.ts:783-924 | For every provider: at most seven create calls and one connector-free retry; each call but the last leads on (a reply to follow up, or servers unreachable for the first time), and the run throws exactly when the last is not answered; every request carries the transcript so far; each executable call is dispatched and audited once, in order; the totals add up all replies' tokens and reported costs and name the last model named, recorded exactly when the last call is answered. |
| AgentLoop.MeterAllSumsUp | src/ai/ai.service.ts:810-819 | Metering reply by reply is adding up: four token sums, the reported costs if any, the last model named. |
| AgentLoop.ReplyDecides | src/ai/ai.service.ts:822-891 | What one more reply does: remote activity is audited as it came; whole tool calls are run, audited and followed up; cut off, they are not run, and followed up the first time only; a pause is followed up; any other reply is the last. |
| AgentLoop.EndsOnce | src/ai/ai.service.ts:783-808 | That condition leaves no choice: the provider's behaviour alone fixes the number of calls and whether the run throws. |
| AgentLoop.ThrownRunLosesUsage | src/ai/ai.service.ts:793-799 | A first reply to follow up and then a failure: the run throws, and the first reply's tokens are on no record. |
| AgentLoop.RunCalls | src/ai/ai.service.ts:832-845 | One reply's calls are answered in order, each with its own outcome, audited under its app, and sent to its app, run here, or held; the first one held is kept. |
| AgentLoop.FollowUp | src/ai/ai.service.ts:825-891 | Run the calls, refuse a cut-off reply once, re-send a pause, otherwise stop. |
| Transcripts.RunConversation | src/ai/ai.service.ts:751-924 | The first request is the thread's turns, each as whoever said it said it, and then the prompt; every later one starts with it; every transcript is well formed; in buttons mode no Meta write is dispatched and the first one proposed is returned as pending. |
| Transcripts.ReplyIsReplayed | src/ai/ai.service.ts:826-889 | A reply to follow up is replayed with its text and its own blocks, with its calls unless it only paused; a tool turn follows exactly then, with each call's own outcome or, cut off, the refusal to run it. |
| Transcripts.TranscriptWellFormed | src/ai/ai.service.ts:825-889 | Each assistant turn with calls is followed at once by one tool turn answering exactly those ids in order, and no tool turn appears otherwise. |
| Transcripts.CutOffIsRefused | src/ai/ai.service.ts:850-879 | A call in a truncated reply is answered with an error, never executed or audited; the second such reply ends the run. |
| Transcripts.RenderOpenAi | src/ai/providers/gateway.provider.ts:161-195 | The nested rendering loops compute the specified OpenAI sequence. |
| Transcripts.OpenAiKeepsProtocol | src/ai/providers/gateway.provider.ts:161-195 | A well-formed transcript becomes one where each call id gets exactly one tool message before the next assistant or user turn. |
| Transcripts.OpenAiRoundTrip | src/ai/providers/gateway.provider.ts:161-195 | Nothing said is lost or changed: every text, call and answer of a well-formed transcript reads back from its rendering. |
| Transcripts.AnthropicKeepsProtocolIff | src/ai/providers/anthropic.provider.ts:144-168 | The Anthropic rendering keeps the protocol if and only if every assistant turn's original blocks carry the calls the turn records. |
| Transcripts.AnthropicRunsKeepProtocolIff | src/ai/ai.service.ts:881-889 | So a run's rendered transcript keeps it if and only if no reply paused with a tool call in its blocks. |
| Transcripts.PausedCallIsUnanswered | src/ai/ai.service.ts:881-889 | The failing input: one pause with a local call in its blocks. |
| Transcripts.WithTranscriptCache | src/ai/providers/anthropic.provider.ts:184-206 | The backward walk marks the turns chosen by the specification and changes no other. |
| Transcripts.CacheMarksOnly | src/ai/providers/anthropic.provider.ts:170-183 | Marks are on min(2, eligible) turns, the latest eligible ones, and erasing them gives the transcript back. |
| Transcripts.MarkingKeepsProtocol | src/ai/providers/anthropic.provider.ts:184-206 | Marking neither breaks nor mends the tool protocol. |
| Transcripts.AnthropicMessages | src/ai/providers/anthropic.provider.ts:120 | What is sent, rendered and marked, reads back turn by turn; marks are on the last block of the latest two turns that can carry one, the user's and the answered tool turns; the protocol is kept if and only if every turn's blocks carry its calls. |
| ToolNames.ExposedName | src/ai/providers/mcp-bridge.service.ts:187-202 | The search ends, and its answer is the first candidate not taken, 1 to 64 characters of the allowed alphabet. |
| ToolNames.SuffixedFacts | src/ai/providers/mcp-bridge.service.ts:196-199 | Whatever it was re-sliced from, a candidate's tail tells which suffix made it. |
| ToolNames.BaseNameAt | src/ai/providers/mcp-bridge.service.ts:192-193 | The first candidate is the app's name, two underscores and the tool's own name, character by character, anything outside the alphabet an underscore, cut at 64. |
| ToolNames.SuffixedKeeps | src/ai/providers/mcp-bridge.service.ts:197-198 | Each later candidate keeps as much of the one before as fits in front of its tail. |
| ToolNames.DecimalRoundTrip | src/ai/providers/mcp-bridge.service.ts:197 | Reading the numeric tail back gives the suffix. |
| ToolNames.CutNamesCollide | src/ai/providers/mcp-bridge.service.ts:193 | Cutting at 64 characters alone makes different tools share a name. |
| McpBridge.BuildToolset | src/ai/providers/mcp-bridge.service.ts:124-181 | min(200, total) tools, round by round in the servers' order, a prefix of each server's list in order, max-min fair at every prefix, distinct names routing to their own tool, apps announced in order of first contribution. |
| McpBridge.RoutingIsInjective | src/ai/providers/mcp-bridge.service.ts:148-152 | No tool is reachable under two names. |
| McpBridge.AnnouncedOwners | src/ai/providers/mcp-bridge.service.ts:158-163 | An app is announced exactly when it owns a tool, and once. |
| McpBridge.NarrowTo | src/ai/providers/mcp-bridge.service.ts:81-92 | The kept prefix, its routing and its apps, for any list to keep and any limit. |
| McpBridge.NarrowedAgrees | src/ai/providers/mcp-bridge.service.ts:74-80 | Names sent and names executable agree if and only if every kept name was in the toolset; apps announced always match what is executable. |
| McpBridge.SelectedFacts | src/ai/providers/tool-router.service.ts:92-115 | Whatever the model answers, the router returns distinct candidates in their order, or the whole list. |
| McpBridge.SelectedAre | src/ai/providers/tool-router.service.ts:98-114 | With more than 20 candidates and an answer naming any of the first 200, exactly the named ones are kept, in order; otherwise nothing is decided. |
| McpBridge.ToolsForMessage | src/ai/ai.service.ts:700-724 | The whole toolset is the fair round-robin merge, named and announced as built; after routing and the cap of 60, names sent, names executable and apps announced agree; with the router undecided the cut is as fair as the whole. |
| AttachedApps.AttachedAppsService.Merge | src/ai/providers/attached-apps.service.ts:96-119 | The merged record is the specified union, and nothing but this conversation's record changes. |
| AttachedApps.MergedListKeeps | src/ai/providers/attached-apps.service.ts:111-114 | A merged list is duplicate-free, at most 24, never shorter, and keeps the old list as a prefix as long as the union fits. |
| AttachedApps.NewActionsSurviveIff | src/ai/providers/attached-apps.service.ts:111-114 | All the actions the list did not have survive the cap if and only if they are at most 24, with or without a list before; up to 24 each of them does. |
| AttachedApps.IncomingSurviveIff | src/ai/providers/attached-apps.service.ts:111-114 | All incoming actions survive if and only if none of them sits in the places the union has to give up, for a server that has a list and for one that has none yet. |
| AttachedApps.FreshListOverflows | src/ai/providers/attached-apps.service.ts:20-22 | The promise that incoming actions are never dropped fails on a first turn: of 25 distinct actions the first is dropped. |
| AttachedApps.IncomingActionEvicted | src/ai/providers/attached-apps.service.ts:20-22 | And on a later one: a full list evicts an incoming action it already had. |
| AttachedApps.AttachServers | src/ai/ai.service.ts:323-418 | One turn with a conversation: what is sent, what is stored, and what a branch is handed, for every router answer and store failure. |
| AttachedApps.AttachOnce | src/ai/ai.service.ts:393-417 | Without a conversation nothing is merged; the branch still gets exactly what was sent. |
| AttachedApps.TurnAttachesExactly | src/ai/ai.service.ts:337-353 | A turn attaches what the thread already had and what the app router picked among the rest, and nothing else. |
| AttachedApps.RelevantIff | src/ai/providers/tool-router.service.ts:214-289 | Which apps the app router picks among those the thread has not used: the only one; all without a usable answer; those an answer names, or all if it names none of theirs; none on an empty answer. |
| AttachedApps.UndecidedAttachesAll | src/ai/ai.service.ts:345-352 | An app router that cannot decide leaves no connected server out. |
| AttachedApps.RoutedActionsAreExposed | src/ai/ai.service.ts:395-404 | Every action routed this turn is exposed this turn, if the union fits or the action is among at most 24 new ones. |
| AttachedApps.RoutedAreExposedIff | src/ai/ai.service.ts:372-404 | All the actions routed this turn are exposed this turn if and only if none of them sits in the places the union has to give up. |
| AttachedApps.RouterFailureChangesNothing | src/ai/ai.service.ts:377-386 | A server whose actions the router could not decide keeps exactly its list. |
| AttachedApps.ThreadKeeps | src/ai/providers/attached-apps.service.ts:45-53 | Over any thread: attached servers stay, everything is absorbing, narrowed never becomes everything, lists stay clean and grow at the end until the cap. |
| AttachedApps.SentGrows | src/ai/ai.service.ts:395-404 | A server sent in one turn and connected in a later one is sent again with at least as many actions, the earlier ones first while under the cap. |
| AttachedApps.SentFacts | src/ai/ai.service.ts:397-404 | In a conversation a connected server goes out exactly when the record holds it, with the actions recorded, whole when none are. |
| AttachedApps.SentInOrder | src/ai/ai.service.ts:358-362 | Servers go out in the order they came in. |
| AttachedApps.SentAloneIs | src/ai/ai.service.ts:372-390 | Outside a conversation each picked server goes out with the actions routed to it, whole when none were, and no other server does. |
| AttachedApps.GrowsIffReadsSuffice | src/ai/ai.service.ts:333-404 | Over the four combinations of the turn's two reads: every recorded server stays and its list grows if and only if nothing was attached, or, per server, the action router's answer makes up for the reads that were lost. |
| AttachedApps.LostReadWidensIff | src/ai/ai.service.ts:333-391 | With the first read lost, a narrowed server becomes whole if and only if it is attached and the action router has no answer. |
| AttachedApps.LostFirstReadWidens | src/ai/ai.service.ts:333-352 | The failing input for the first read. |
| AttachedApps.LostSecondReadShrinks | src/ai/providers/attached-apps.service.ts:101-117 | The failing input for the second: a list is replaced by a shorter one, and a server not connected this turn is forgotten. |
| AttachedApps.BranchInherits | src/ai/ai.service.ts:406-416 | A branch's record renders exactly what its parent's turn sent. |
| Pricing.CostMinusCharge | src/ai/providers/model-catalog.ts:240-261 | At list price, cached slices within the prompt: cost minus unrounded charge is inputPrice * (writes - 0.9 reads) per million. |
| Pricing.CostMinusChargeOverridden | src/ai/providers/model-catalog.ts:246-260 | With cost overrides the margin also holds the difference in price, on both sides. |
| Pricing.ListCostIs | src/ai/providers/model-catalog.ts:240-261 | Cost slice by slice, at our own prices, for cached slices within the prompt or beyond it. |
| Pricing.SoldAtCostIff | src/ai/providers/model-catalog.ts:217-219 | Before rounding, a run costs no more than its charge if and only if its model's input is priced at zero or writes <= 0.9 reads. |
| Pricing.CostAtMostTwiceCharge | src/ai/providers/model-catalog.ts:235-238 | Cost never exceeds twice the charge. |
| Pricing.BilledCoversCost | src/usage/usage.service.ts:344-349 | With the charge rounded up to whole credits the same two bounds hold. |
| Pricing.ChargeIsLeast | src/usage/usage.service.ts:344-349 | The charge is the least whole number of credits, at least one, that covers the list price at 400 to the dollar. |
| Pricing.UnknownModelCharge | src/usage/usage.service.ts:344-349 | For an unknown model it is the least that covers 2 credits per thousand tokens in and 10 per thousand out. |
| Pricing.RecordedFreeIff | src/usage/usage.service.ts:357-368 | A reported figure is the cost; without one a run is recorded as free if and only if its model is unknown, or on each side its price to us is zero or nothing was used; and it is charged all the same. |
| Pricing.ZeroPricedIsFree | src/ai/providers/model-catalog.ts:158-165 | The catalogued input: a gateway entry with no usable prices makes every run on it free, charged one credit. |
| Pricing.MeteredTogether | src/ai/ai.service.ts:810-819 | Metering n calls on their totals charges no more than metering each, and at most n - 1 credits less. |
| RateLimit.StepKeepsInv | src/common/guards/rate-limit.guard.ts:50-56 | Increments, late or lost expiries and ticks in any order keep the counter, its windows and the admissions in step. |
| RateLimit.WindowIsLimited | src/common/guards/rate-limit.guard.ts:62-67 | One incarnation of the counter admits at most limit requests. |
| RateLimit.AnyIntervalIsLimited | src/common/guards/rate-limit.guard.ts:53-55 | Any closed interval of length windowSeconds admits at most twice the limit, however late the expiry is set. |
| RateLimit.WindowLasts | src/common/guards/rate-limit.guard.ts:53-55 | From the moment its expiry is set a window lasts windowSeconds and no longer, whatever else happens. |
| RateLimit.ReopensIff | src/common/guards/rate-limit.guard.ts:53-55 | The counter can ever start a new window if and only if its expiry is set or its opener has yet to set it. |
| RateLimit.LostExpirySticks | src/common/guards/rate-limit.guard.ts:53-55 | Two steps suffice: the first request counts, and its instance dies. |
| RateLimit.StuckRefusesForever | src/common/guards/rate-limit.guard.ts:62-67 | If the opener died between increment and expiry, then once the limit is reached nothing is ever admitted again. |
| RateLimit.RateLimitGuard.CanActivate | src/common/guards/rate-limit.guard.ts:40-69 | A request on its own is those steps: unlimited routes and an unreachable Redis are allowed, otherwise the count decides. |

## Left out

- Stripe, Slack, Meta, Pipedream, Sheets and model HTTP calls: arbitrary outcomes stand in for them.
- Signatures, tokens, passwords and OAuth: authentication, not algorithms.
- Cron parsing and time zones: the next run is any instant.
- Floating point and `Math.round` on binary fractions: exact arithmetic, rounding halves up.
- Races between two `recordEvent` calls, two evaluations of one rule or two runs of one export: no lock exists, so the model serialises them.
- `campaign_insights` exports: a re-measurement with no watermark, so no history to keep.
- Metric extraction and comparison in rules: a finite table; breaches are arbitrary, which covers every metric.
- Account-scope verified-ROAS rules: they only record one alert.
- Answer text, the low-balance nudge and the spaces a run publishes: not part of the tool protocol.
- Router prompts and parsing of the answers: the answers are arbitrary sets of names or none.
- The two-hour expiry of a conversation's record: an expired record is a fresh thread.
- Subscription status changes (`markStatus`, cancellation): they move no credits.
- Onboarding, referral and admin grants: instances of `grantCredits`.
- Unicode code units in tool names: names are sequences of characters.
- Descriptions and parameter schemas of bridged tools: carried along unchanged.
- Dashboard read models other than `creditsByWorkspace`, DTOs, controllers, space specs: plumbing or finite checks.
- UsageService.UsageService.RecordEvent: takes the charge as an argument, because `Pricing` states how it is computed.
- Billing.UnabortedDeliveryGrants: takes a delivery that is driven to an answer, because whether Stripe redelivers and instances keep running is outside the program.
- RateLimit.RateLimitGuard.CanActivate: models one caller and route, because counters of different keys never meet.
- AttachedApps.AttachServers: takes the turns of one conversation as serial, because the record has no lock.
