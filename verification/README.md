# Fees, tenancy and attendance: a verified model

This project models the money-handling core of a multi-tenant coaching-institute backend and
proves properties of it with Dafny 4.11. Everything is checked with
`dafny verify dfyconfig.toml`.

## What is modelled

**Payment capture as a protocol.** Creating a payment order, upserting an invoice and handling a
`payment.captured` webhook are programs over one shared store of payments and invoices
(`CaptureProtocol`). Each step of a program is one database operation; what earlier reads returned
stays with the program as a snapshot, however stale; a save sends only the fields that changed since
the document was read; the index on the gateway payment id is global; a process may die between any
two steps. There are two semantics: *interleaved* (`Run`, `After`), and *serial*, where each request
runs alone to completion (`Serial`, `SerialAfter`).

- `CaptureInvariants`: what every step of every interleaving keeps.
- `CaptureSerial`, `CaptureLedger`: the exact effect of one request, at-most-once crediting, and the
  ledger law over whole serial runs.
- `CaptureProgress`: every interleaving ends, and no flow is ever stuck.
- `CaptureReduction`, `CaptureSimulation`: interleavings in which no two requests in flight concern
  the same invoice are equivalent to a serial run, in the order in which they claim or return.
- `CaptureEmbedding`: the converse, every serial run is such an interleaving.
- `CaptureClaims`, `CaptureCredits`: unrestricted interleavings, with the exact conditions under which
  each payment is claimed once and the ledger adds up.
- `CaptureStranded`: the credits of any interleaving are those of the deliveries that answered
  applied=true, and which captured payments are never credited.
- `CaptureStatus`: when an invoice's status stays in step with its ledger under interleavings.
- `CaptureRaces`: runs in which these conditions fail.
- `FeesService`, `Webhooks`: the service and the controller as classes whose methods update the
  collections in place, each shown to run its request of the protocol to completion.

The source's comment that exactly one of two concurrent deliveries wins (fees.service.ts:203-204)
does not hold of its code: the save at the claim does not test that the row is still CREATED, so two
deliveries that read the same row both pass it. `ClaimedOnceIff` gives the exact condition over every
interleaving with crashes: each payment is claimed once, and stays recorded, if and only if every claim
finds its row CREATED. `LedgerAlwaysIff` does the same for the ledger and the snapshots credits are
computed from. `ClaimAccounting` counts by how much claims outnumber captured rows,
`SharedRowCreditsTwice` and `StaleSnapshotLosesACredit` give runs that fail, and
`CompareAndSetClaimsOnce` is the guarantee of the *variant* in which a claim does test the status.
As long as no two requests in flight concern one invoice, the code meets both conditions, whichever
processes die (`ExclusiveAppliesOnce`, `ExclusiveLedger`); a process that dies between its claim and
its credit leaves a captured payment no delivery will credit (`CrashStrandsPayment`), so at most once
is what holds across crashes. That and a negative amount are the only ways in which a claim is not followed by
its credit (`CreditedIff`), and `EveryPaymentCreditedOnceIff` says exactly when every payment is claimed
once and credited. Status is saved apart from the amount, so stale snapshots can leave an invoice PAID with
money outstanding (`StaleSnapshotLeavesPaid`); `SyncAlwaysIff` is the exact condition, and exclusive
interleavings meet it (`ExclusiveStatus`).

**Money.** `FeeCalc` has the arithmetic in exact paisa. `Binary64` defines rounding to IEEE 754
binary64 (section 4.3.1 of IEEE 754-2019) and `Math.round` (section 21.3.2.28 of ECMAScript 2021);
`MoneyRounding` shows in which range the program's doubles agree exactly with whole paisa, for every
rounding within the unit roundoff. `FeePlans` is `createPlan` on doubles. The ledger results are
about amounts in whole paisa. With finer amounts, which explicit installments allow, capturing a
paisa or more still never lowers the paid amount (`CaptureKeepsPaidIff`); only a capture of nothing
can take a fraction of a paisa from a settled invoice (`SettledInvoiceCanDip`).

**Billing and the fee report.** `Billing` says what a `generateInvoices` run does without its loops,
and derives idempotence, growth and conservation. `Reports` relates the fold over `$group` rows to
per-invoice sums and to the protocol; `Totals` has the sums over unordered rows.

**Attendance.** `Attendance` and `AttendanceReport`: one row per student, batch and UTC day under any
sequence of calls, and the summary's counts and rounded rate.

**Tenant isolation.** `Filters` gives query filters a meaning, `TenantPlugin` has the plugin's hooks
and the context stack of a flow, `Isolation` shows that a scoped operation commutes with projecting
the collection to a tenant, `Operations` says document by document what such an operation does, and
`Noninterference` lifts isolation to traces.

## Model

| member | source | states |
|---|---|---|
| CaptureProtocol.Alone | src/modules/fees/fees.service.ts:179-252 | a request run with nothing in between always ends: a capture, order or upsert reaches a result, a refusal or an exception |
| CaptureInvariants.AllInterleavings | src/modules/fees/fees.service.ts:193-239 | whatever the interleaving of orders, upserts, deliveries and crashes: 0 <= amountPaid <= amountDue, amounts due and due dates never change, a payment id is on at most one row, a row has one exactly when it is CAPTURED, CAPTURED never reverts |
| CaptureInvariants.ApplyKeeps | src/modules/fees/fees.service.ts:193-239 | one move of one flow keeps the invariant of the store and of every other flow's stale snapshots |
| CaptureInvariants.NextKeeps | src/modules/fees/fees.service.ts:185-239 | the same for a single step of a capture, order or upsert |
| CaptureInvariants.ClaimKeeps | src/modules/fees/fees.service.ts:205-217 | the claim, written from a stale snapshot, keeps payment ids unique and marks the row CAPTURED |
| CaptureInvariants.SaveInvoiceKeeps | src/modules/fees/fees.service.ts:220-239 | crediting from a stale snapshot still leaves 0 <= amountPaid <= amountDue |
| CaptureInvariants.RoutingIsUnique | src/modules/fees/webhooks.controller.ts:67-75 | all payment rows with one order id have the same invoice, tenant and amount, so the tenant the webhook resolves does not depend on which row its bypass read returns |
| CaptureInvariants.AloneKeeps | src/modules/fees/fees.service.ts:179-252 | a request run alone keeps the invariant from start to end |
| CaptureSerial.CaptureAlone | src/modules/fees/fees.service.ts:185-251 | a delivery alone changes nothing and answers applied=false exactly when its payment id is in use anywhere or no row of its order is CREATED; otherwise it captures one such row and credits its invoice |
| CaptureSerial.OrderAlone | src/modules/fees/fees.service.ts:137-162 | an order alone inserts one CREATED row for an unpaid invoice of the tenant, and otherwise changes nothing |
| CaptureSerial.BillAlone | src/modules/fees/fees.service.ts:89-108 | an upsert alone inserts an invoice exactly when its tenant, student, plan and label have none |
| CaptureSerial.CaptureRecords | src/modules/fees/fees.service.ts:205-239 | field by field, what an applied delivery writes on its payment row and its invoice, and that every other row stays as it was |
| CaptureSerial.StaleSaves | src/modules/fees/fees.service.ts:205-239 | however stale the snapshot, a save of an unchanged document changes nothing, and the saves at the claim, the receipt and the credit move no field they did not assign |
| CaptureSerial.CaptureAnswers | src/modules/fees/fees.service.ts:185-251 | which facts of the store decide the answer, whatever it holds: a payment the tenant has recorded is refused naming the invoice of that row, no CREATED row of the order is refused naming none, and otherwise the answer names the invoice of the row taken, refused only by the unique index |
| CaptureSerial.OrderRecords | src/modules/fees/fees.service.ts:149-162 | the row an order adds is open, asks for exactly what makes the invoice whole, and every other row stays as it was |
| CaptureSerial.SerialKeeps | src/modules/fees/fee-calc.ts:50-67 | over every serial run: status is PAID iff amountPaid = amountDue > 0 and PARTIAL iff 0 < amountPaid < amountDue, and paid amounts, PAID and used payment ids only grow |
| CaptureSerial.AtMostOnce | src/modules/fees/fees.service.ts:186-217 | once a delivery claimed a payment id, every later delivery of it, for whatever order and tenant, is refused and leaves the whole store as it was |
| CaptureSerial.UsedLater | src/modules/fees/schemas/payment.schema.ts:30 | the payment id of a claim stays recorded at every later point of a serial run |
| CaptureLedger.LedgerLaw | src/modules/fees/fees.service.ts:220-239 | over every serial run an invoice's amountPaid is min(amountDue, what it was + the sum of all amounts credited to it), and every credit is non-negative |
| CaptureLedger.LedgerIgnoresOrder | src/modules/fees/fee-calc.ts:64-67 | runs that credit an invoice the same amounts in any order, with anything else in between, leave it with the same amountPaid |
| CaptureLedger.SumPermuted | src/modules/fees/fee-calc.ts:64-67 | a sum of credits does not depend on their order |
| CaptureLedger.StatusIsLastVerdict | src/modules/fees/fee-calc.ts:50-61 | in every state of a serial run an invoice's status is the verdict on its amounts and due date at the clock of the last request that credited or inserted it; orders never touch it |
| CaptureLedger.OrderAsksForOutstanding | src/modules/fees/fees.service.ts:143-162 | an order is refused exactly when the invoice is fully paid with something due, and otherwise asks for the whole outstanding balance, positive iff something is due |
| CaptureLedger.PaidIsAbsorbing | src/modules/fees/fees.service.ts:144-146 | a PAID invoice stays PAID with the same amountPaid over every serial run |
| CaptureProgress.RunsAreBounded | src/modules/fees/fees.service.ts:137-252 | no interleaving is longer than the operations its requests have left, so every one ends |
| CaptureProgress.CanFinish | src/modules/fees/fees.service.ts:137-252 | every interleaving, crashes included, can be continued, with no further crash, until every flow has ended |
| CaptureReduction.TightStep | src/modules/fees/fees.service.ts:193-239 | while no two flows in flight concern one invoice, and whichever of them die, every snapshot a flow will write from stays equal to the stored row |
| CaptureReduction.ExclusiveIsTight | src/modules/fees/fees.service.ts:193-239 | so at every point of every exclusive interleaving, crashes included, no snapshot is stale |
| CaptureReduction.NextWritesOnly | src/modules/fees/fees.service.ts:205-239 | a step writes only rows of the invoice its flow concerns |
| CaptureSimulation.Reduction | src/modules/fees/fees.service.ts:185-251 | an interleaving with at most one flow in flight per invoice ends in exactly the store of a serial run of the requests that committed, each served once with the same result and in the order of their claims, early returns and inserts, even when deliveries share a payment id; flows may die before their claim and need not all finish |
| CaptureEmbedding.SerialIsARun | src/modules/fees/fees.service.ts:185-251 | conversely, every serial run of requests is an exclusive interleaving of their flows without crashes: the same final store, each flow ends as its entry says, and the others have not begun |
| CaptureSimulation.MoveSimulated | src/modules/fees/fees.service.ts:185-251 | a move adds one entry, its own request's, at the end of the serial log exactly when its flow commits (a capture at its claim or early return, an order at its insert or refusal), and no entry otherwise |
| CaptureSimulation.OwingStep | src/modules/fees/fees.service.ts:220-239 | after its claim a capture only writes what the serial store already holds |
| CaptureClaims.SecondClaim | src/modules/fees/fees.service.ts:205-217 | with a payment id already on some row, a claim with the same id goes through if and only if it is on that very row |
| CaptureClaims.ClaimAccounting | src/modules/fees/fees.service.ts:205-217 | in every interleaving with crashes, the deliveries that passed their claim outnumber the rows captured by exactly the number of claims on rows no longer CREATED |
| CaptureClaims.CompareAndSetClaimsOnce | src/modules/fees/fees.service.ts:193-210 | variant, not the code: if every claim finds its row still CREATED, every payment id is claimed at most once and stays recorded, under all interleavings and crashes |
| CaptureClaims.ClaimedOnceIff | src/modules/fees/fees.service.ts:193-217 | over every interleaving of the code as it is, crashes included: no payment id is claimed twice and none is lost, if and only if every claim found its row CREATED |
| CaptureClaims.ExclusiveAppliesOnce | src/modules/fees/fees.service.ts:174-177 | in every exclusive interleaving, whichever flows die and wherever, and at every point of it, no two deliveries of one payment id have passed their claim and no claimed id is lost |
| CaptureClaims.CrashStrandsPayment | src/modules/fees/fees.service.ts:205-239 | a delivery claims and its process dies: the row is CAPTURED, the invoice as it was, the dead flow never credits it, and in every continuation another delivery of the payment passes only if a stale claim is made |
| CaptureClaims.StrandedIsRefused | src/modules/fees/fees.service.ts:186-217 | and every later delivery of it that runs alone is refused |
| CaptureCredits.LedgerAlwaysIff | src/modules/fees/fees.service.ts:220-239 | over every interleaving, crashes included: at every point an invoice's amountPaid is min(amountDue, what it was + all credits written to it), if and only if every credit was computed from a snapshot that does not mislead |
| CaptureCredits.ExclusiveLedger | src/modules/fees/fees.service.ts:220-239 | in every exclusive interleaving, whichever flows die, the ledger law holds at every point |
| CaptureCredits.StaleCreditIsExactIff | src/modules/fees/fees.service.ts:220-239 | a credit computed from a snapshot lands right on the stored invoice if and only if it is zero, or the snapshot's amount is current, or is still open and either way settles the invoice |
| CaptureStranded.CreditsAreApplied | src/modules/fees/fees.service.ts:220-251 | over every interleaving, crashes included: each amount is credited to an invoice as many times as deliveries of that amount answered applied=true for it |
| CaptureStranded.LedgerOfDeliveries | src/modules/fees/fees.service.ts:220-251 | where no snapshot misleads, an invoice's amountPaid is min(amountDue, what it was + the amounts of the deliveries that answered applied=true for it) |
| CaptureStranded.CreditedIff | src/modules/fees/fees.service.ts:205-251 | in every interleaving, a delivery that passed its claim and has ended was credited if and only if its amount is not negative and it did not die before its credit |
| CaptureStranded.CapturedIsCreditedOrStranded | src/modules/fees/fees.service.ts:205-251 | when every flow has ended, the rows captured and the stale claims are together the deliveries credited and those stranded |
| CaptureStranded.EveryPaymentCreditedOnceIff | src/modules/fees/fees.service.ts:174-177 | when every flow has ended, each payment was claimed once and every claim credited, if and only if every claim found its row CREATED, no delivery died between its claim and its credit, and none that claimed had a negative amount |
| CaptureStatus.StaleStatusIff | src/modules/fees/fees.service.ts:227-239 | a credit computed from a snapshot leaves amount and status in step if and only if it saves both or neither, or mixes two documents that stand alike |
| CaptureStatus.SyncAlwaysIff | src/modules/fees/fees.service.ts:227-239 | over every interleaving, crashes included: at every point an invoice is PAID exactly when paid in full and PARTIAL exactly when paid in part, if and only if every credit to it fits the stored row in that way |
| CaptureStatus.ExclusiveStatus | src/modules/fees/fees.service.ts:227-239 | in every exclusive interleaving, whichever flows die and wherever, every invoice keeps its status in step with its ledger |
| CaptureRaces.SharedRowCreditsTwice | src/modules/fees/fees.service.ts:193-239 | a run in which two deliveries hold one row: both are applied, one row is captured, the invoice is credited twice, and of two different payment ids the first is lost |
| CaptureRaces.StaleSnapshotLosesACredit | src/modules/fees/fees.service.ts:220-239 | a run in which two captured payments are applied and only the later credit is in the ledger |
| CaptureRaces.StaleSnapshotLeavesPaid | src/modules/fees/fees.service.ts:144-146 | for any two payments of which one settles the invoice and the smaller one does not: a run that ends with the invoice PAID, money outstanding, and every order for it refused |
| CaptureRaces.DiedOwingIsNotSerial | src/modules/fees/fees.service.ts:205-239 | a delivery that dies between its claim and its credit leaves a store in which no serial run of it, however often served, ends |
| FeesService.FeesService.ApplyCapturedPayment | src/modules/fees/fees.service.ts:179-252 | the method, from the tenant its order belongs to, takes the store exactly where the protocol's capture takes it, with the same result; each refusal has its cause and names the invoice of the recorded row, of the row the index rejected, or none; it throws only on a negative payment |
| FeesService.FeesService.CreditInvoice | src/modules/fees/fees.service.ts:220-251 | the part after the claim does what the protocol does from there, and adds or removes no row |
| FeesService.FeesService.ClaimRow | src/modules/fees/fees.service.ts:205-217 | the save fails exactly when another row has the payment id, and then changes nothing |
| FeesService.FeesService.GetInvoice | src/modules/fees/fees.service.ts:123-127 | the tenant's invoice, or not found for any other |
| FeesService.FeesService.CreatePaymentOrder | src/modules/fees/fees.service.ts:137-170 | runs the protocol's order; not found and already paid exactly when they apply; otherwise the one row it adds, field by field, and the answer, which has the row's order id and the whole balance |
| FeesService.FeesService.UpsertInvoice | src/modules/fees/fees.service.ts:89-108 | inserts under a new id exactly when the key has no invoice, and otherwise changes nothing |
| FeesService.FeesService.GenerateInvoices | src/modules/fees/fees.service.ts:65-112 | the errors exactly when they apply, and then nothing is upserted; otherwise old rows stay, every listed (student, label) has an invoice, `created` counts the new rows, each of which has, field by field, a listed student, the title, amount and due date of the first installment with its label, nothing paid, and the status of that at the clock; the run is a serial run of upserts of its students and installments |
| FeesService.JobKeeps | src/modules/fees/fees.service.ts:85-111 | so a billing run with non-negative installments keeps the invariant of serial runs and takes no paid amount, PAID status or payment id back |
| Webhooks.WebhooksController.Razorpay | src/modules/fees/webhooks.controller.ts:45-85 | events that are not verified, of another name, or without an order id or a payment id change nothing; any other runs its delivery to completion; in a reachable store it answers applied=true iff no row carries the entity's payment id, a row of its order is CREATED and its amount is not negative, and then captures one such row, field by field, with its invoice gaining the amount up to its balance; applied=false leaves the store as it was |
| Webhooks.DeliveryDecided | src/modules/fees/webhooks.controller.ts:67-84 | the facts about the store that decide the answer, what a delivery applied writes, what a negative one leaves, and that a refusal changes nothing |
| Billing.RerunIsNoOp | src/modules/fees/fees.service.ts:86-111 | a re-run with no new students creates 0 and changes no row, whatever payments, orders and runs came in between |
| Billing.LargerListAddsMissing | src/modules/fees/fees.service.ts:86-111 | two runs create together the keys missing before the first, and a larger list adds exactly the missing ones |
| Billing.BillingConserves | src/modules/fees/fees.service.ts:85-111 | after a first run for a split plan each listed student's invoices for it sum exactly to the plan total, however often the list repeats anybody |
| Billing.BillsAddUp | src/modules/fees/fee-calc.ts:33-42 | one invoice per installment, with distinct labels, sums to the installments |
| Billing.SplitTitlesDistinct | src/modules/fees/fee-calc.ts:38 | the labels of a split are pairwise distinct |
| Billing.UpsertStep | src/modules/fees/fees.service.ts:87-108 | one pass of the inner loop adds its key, its row and its count exactly when the key was missing, also when a label repeats |
| Billing.NewRowFields | src/modules/fees/fees.service.ts:87-105 | field by field, every new row of a run: tenant, plan, a listed student, the title, amount and due date of the first installment with its label, nothing paid, and the status these have at the clock |
| Text.NumeralInjective | src/modules/fees/fee-calc.ts:38 | different numbers print differently |
| Text.NumeralReads | src/modules/fees/fee-calc.ts:38 | a numeral reads back as its number and has no leading zero |
| Text.ShowRupeesReads | src/modules/fees/fees.service.ts:152 | the rupee text reads back as the paisa, in at most two decimals and without a trailing zero |
| Text.LabelInjective | src/modules/fees/fee-calc.ts:38 | `Installment i` determines i |
| Text.ShowRupeesInjective | src/modules/fees/fees.service.ts:152 | the rupee text of a whole-paisa amount determines it |
| Text.StubOrderIdInjective | src/modules/fees/razorpay.gateway.ts:60-61 | the stub order id determines the invoice and what was paid when it was made |
| FeeCalc.SplitEqualInstallments | src/modules/fees/fee-calc.ts:18-44 | errors on a count below 1 or a negative total; otherwise `count` non-negative, non-increasing amounts within one paisa of each other that sum exactly to the total, every prefix of k summing to base*k + min(k, remainder), numbered and evenly spaced |
| FeeCalc.FairSplitUnique | src/modules/fees/fee-calc.ts:28-34 | no other non-increasing list of that length and sum has spread at most one |
| FeeCalc.FairSplitMinimisesLargest | src/modules/fees/fee-calc.ts:28-34 | no list of that length and sum has a smaller largest part |
| FeeCalc.FairSplitShape | src/modules/fees/fee-calc.ts:29-34 | every fair split gives the extra paisa to the first total % count parts |
| FeeCalc.StatusPartition | src/modules/fees/fee-calc.ts:50-61 | for 0 <= paid <= due the four statuses partition the ledger positions |
| Binary64.FlErrorNormal | src/modules/fees/fee-calc.ts:28 | for zero and every magnitude in the normal range a double operation is off by at most the unit roundoff (IEEE 754-2019, section 4.3.1) |
| Binary64.FlError | src/modules/fees/fee-calc.ts:28 | in particular for zero and every magnitude from 0.001, a tenth of a paisa, up |
| Binary64.FlNearest | src/modules/fees/fee-calc.ts:28 | no double is nearer to the exact result than the rounded one |
| Binary64.NearestEvenTies | src/modules/fees/fee-calc.ts:28 | a tie in the last bit goes to the even significand |
| Binary64.MathRoundTies | src/modules/fees/fee-calc.ts:28 | Math.round is off by at most a half, and goes up on a tie |
| Binary64.FlMonotone | src/modules/fees/fee-calc.ts:28 | rounding keeps the order of exact results |
| Binary64.FlIsDouble | src/modules/fees/fee-calc.ts:28 | every rounded result fits a 53-bit significand |
| MoneyRounding.PaisaRoundTrip | src/modules/fees/razorpay.gateway.ts:45 | paisa stored as rupees and sent to the gateway come back exactly, up to 2^50 |
| MoneyRounding.RupeesOrder | src/modules/fees/fee-calc.ts:56-57 | comparing stored doubles compares the paisa |
| MoneyRounding.CreditIsExact | src/modules/fees/fee-calc.ts:64-67 | applying a payment to whole-paisa doubles stores the double of min(due, paid + payment) in paisa |
| MoneyRounding.StatusIsExact | src/modules/fees/fee-calc.ts:50-61 | the status computed on doubles is the status of the paisa |
| MoneyRounding.FullCaptureSettles | src/modules/fees/fee-calc.ts:56-66 | capturing the paisa the gateway was asked for makes amountPaid the same double as amountDue, and the status PAID |
| MoneyRounding.OrderIsExact | src/modules/fees/razorpay.gateway.ts:45 | the paisa sent to the gateway are exactly due minus paid |
| MoneyRounding.LedgerIsExact | src/modules/fees/fee-calc.ts:64-67 | any sequence of credits on doubles stores the double of the exact ledger |
| MoneyRounding.FoldIsExact | src/modules/fees/fees.service.ts:45-46 | if (n + 2) * total <= 2^51 paisa, the left fold of n rupee doubles times 100 rounds to exactly the total paisa |
| MoneyRounding.SumCheckIsExact | src/modules/fees/fees.service.ts:45-46 | in that range the check passes if and only if the paisa sum to the total |
| MoneyRounding.CaptureKeepsPaidIff | src/modules/fees/fee-calc.ts:64-67 | for a paid amount with any decimals, up to 11258999068426.24 rupees: capturing p paisa does not lower it if and only if p is at least one or rounding the amount to the paisa does not lower it |
| MoneyRounding.CreditNeverLowersIff | src/modules/fees/fee-calc.ts:64-67 | for any doubles, no payment whatever, zero and fractions of a paisa included, lowers the paid amount if and only if rounding that amount to the paisa does not lower it |
| MoneyRounding.SettledInvoiceCanDip | src/modules/fees/dto/fee.dto.ts:20-22 | an installment of 10.0625 rupees, once settled, loses a fraction of a paisa at a capture of zero, and at no other capture |
| FeePlans.CreatePlan | src/modules/fees/fees.service.ts:33-57 | no installments, an invalid count and a negative total are refused with their own errors; a list wins over a count and is stored as given iff it passes the sum check; a split in range is never rejected and is stored as fair parts of the rounded total, with their labels and due dates |
| FeePlans.Split | src/modules/fees/fee-calc.ts:18-44 | on a double total: the errors, or fair parts of its rounded paisa as rupees, with their labels and due dates |
| FeePlans.SplitFields | src/modules/fees/fee-calc.ts:36-42 | installment k of a stored split is labelled `Installment k`, falls due 30 days after the one before, and has its share of the paisa |
| FeePlans.SplitPassesSumCheck | src/modules/fees/fees.service.ts:36-49 | createPlan never rejects its own split in range |
| Reports.FeesSummary | src/modules/reports/reports.service.ts:38-48 | whatever order the groups come in: billed and collected are the plain sums over all invoices, and byStatus has exactly the statuses that occur with their counts |
| Reports.FoldSumsInvoices | src/modules/reports/reports.service.ts:24-47 | folding the first k groups sums exactly the invoices they hold |
| Reports.CountsPartition | src/modules/reports/reports.service.ts:46 | the status counts add up to the number of invoices |
| Reports.SummaryOutstanding | src/modules/reports/reports.service.ts:48 | in reachable stores outstanding is the sum of the balances and not negative |
| Reports.OutstandingIsWhatOrdersAsk | src/modules/reports/reports.service.ts:48 | it equals what createPaymentOrder would ask for over all unpaid invoices together |
| Reports.CaptureLowersOutstanding | src/modules/reports/reports.service.ts:48 | each capture lowers its tenant's figure by exactly what it credits, and no other tenant's |
| Attendance.NormalizeDate | src/modules/attendance/attendance.service.ts:68-72 | the midnight that starts the UTC day, also before 1970 |
| Attendance.SameBucketIff | src/modules/attendance/attendance.service.ts:68-72 | two dates share a bucket if and only if they fall on one UTC day |
| Attendance.AttendanceService.Upsert | src/modules/attendance/attendance.service.ts:29-39 | records one status, marker and source under its key, keeps one row per key, and moves or removes no row |
| Attendance.AttendanceService.MarkBatch | src/modules/attendance/attendance.service.ts:19-57 | each student marked has exactly one row of the batch at the midnight of the call's UTC day, with the last status given and who made it; no other row is new or changed; the ledger and the counts returned |
| Attendance.AttendanceService.MarkAll | src/modules/attendance/attendance.service.ts:19-57 | a sequence of calls, each with its own marker and its own students to notify, leaves the ledger that replaying them gives, every date it stores is a midnight, and each returns its own count |
| Attendance.LedgerDecidesRows | src/modules/attendance/attendance.service.ts:29-39 | every row says who marked it as the ledger does, and a row whose ledger entry is as before is unchanged field by field |
| Attendance.RecordedIffNamed | src/modules/attendance/attendance.service.ts:23-39 | over any sequence of calls a tenant, student, batch and UTC day is recorded exactly when it was before or a mark names it, and what no mark names stays as it was |
| Attendance.LastMarkWins | src/modules/attendance/attendance.service.ts:27-39 | and it has the status of the last mark that names it and who made it |
| Attendance.LastMarkStored | src/modules/attendance/attendance.service.ts:27-39 | so a collection that starts empty holds for it exactly one row, dated at its midnight, with what the last mark says |
| Attendance.OneKeyPerDay | src/modules/attendance/attendance.service.ts:23-31 | two marks are recorded under one key if and only if they are of one tenant, student, batch and UTC day |
| Attendance.NotifiedCounts | src/modules/attendance/attendance.service.ts:41-54 | a call notifies once for each absence of a student with somebody to notify |
| Attendance.RecordsOneLedger | src/modules/attendance/attendance.schema.ts:36 | a collection records one ledger only |
| AttendanceReport.GroupCountsDays | src/modules/reports/reports.service.ts:59-75 | the grouped counts are counts of class days in the ledger, and present <= total |
| AttendanceReport.PercentIsNearest | src/modules/reports/reports.service.ts:80 | in double arithmetic, for up to 2^40 days, the percentage is between 0 and 100 and within half a percent of the true ratio |
| AttendanceReport.RateInUnit | src/modules/reports/reports.service.ts:80 | the rate shown is between 0 and 1 |
| AttendanceReport.SummaryAgrees | src/modules/reports/reports.service.ts:76-81 | exactly one line for each student with recorded days and none for others, each agreeing with the ledger: days recorded, days attended, which are all but those marked absent, and the rate |
| Filters.RewriteMeans | src/common/tenant.plugin.ts:59 | a document matches the rewritten filter iff it is the tenant's and matches the original without its top-level tenantId key |
| Filters.WithoutMeans | src/common/tenant.plugin.ts:59 | what remains of a filter without its top-level tenantId key is every other condition, whatever that key said |
| Filters.RewriteNarrows | src/common/tenant.plugin.ts:58-59 | when the caller names no other tenant, the rewrite keeps exactly the tenant's matches |
| Filters.SpecialiseMeans | src/common/tenant.plugin.ts:59 | on a tenant's documents every filter means the same as one that mentions tenantId nowhere |
| Filters.ScopedQueryIsBlind | src/common/tenant.plugin.ts:58-59 | however and, or, nor, not and in nest conditions on tenantId, a scoped query is a tenant-free query over the tenant's own documents |
| TenantPlugin.TenantContextStore.Enter | src/common/tenant-context.ts:23-25 | the innermost context decides |
| TenantPlugin.TenantContextStore.Run | src/common/tenant-context.ts:23-25 | however callbacks nest, every query is judged by the context of the callback that makes it, also after inner runs return, and the surrounding context is back afterwards |
| TenantPlugin.VerdictIff | src/common/tenant.plugin.ts:47-57 | refused exactly when no context was entered or the innermost names no tenant and does not bypass; scoped to a tenant exactly when the innermost names it and does not bypass |
| TenantPlugin.Query.PreHook | src/common/tenant.plugin.ts:46-61 | with no context entered, or an innermost one that neither bypasses nor names a tenant, the query is refused and stays as it was; under bypass it stays; otherwise it matches exactly the innermost context's tenant's documents that meet the request |
| TenantPlugin.Aggregation.PreHook | src/common/tenant.plugin.ts:64-76 | the same three cases for a pipeline, which gets in front a $match on exactly the tenant's documents |
| TenantPlugin.Document.PreValidate | src/common/tenant.plugin.ts:82-104 | with no context, or one that names no tenant, refused; under bypass the document keeps the tenant it must name; otherwise it becomes the context's tenant's, or is refused unchanged when it names another |
| TenantPlugin.PreInsertMany | src/common/tenant.plugin.ts:107-119 | with no context, or one that names no tenant, refused; under bypass nothing changes; otherwise every document, whatever it said before, is the context's tenant's |
| Isolation.SelectScoped | src/common/tenant.plugin.ts:46-61 | a scoped find is a find on the tenant's own documents, in the same order, so the first match is the tenant's first match |
| Isolation.PipelineScoped | src/common/tenant.plugin.ts:75 | a pipeline behind the prefix is the pipeline on the tenant's own documents |
| Isolation.RawCommutes | src/common/tenant.plugin.ts:46-119 | for every operation, including those that take the first match: operating on the shared collection and projecting to the tenant is projecting and operating, with the same result |
| Isolation.RawKeepsRest | src/common/tenant.plugin.ts:46-119 | and everybody else's documents and their order stay as they were |
| Isolation.RawElsewhere | src/common/tenant.plugin.ts:46-119 | an operation under another tenant leaves the tenant's documents unchanged |
| Isolation.UpdateElsewhereIff | src/common/tenant.plugin.ts:46-61 | an update under another tenant leaves them unchanged if and only if it does not set tenantId to this tenant or matches nothing |
| Isolation.OwnerStays | src/common/tenant.plugin.ts:97-103 | a loaded document's owner stays true whichever tenant operates afterwards |
| Operations.RejectedIff | src/modules/fees/schemas/payment.schema.ts:30 | a write is rejected and changes nothing exactly when two documents, of whatever tenants, would carry one payment id afterwards |
| Operations.FindReturns | src/common/tenant.plugin.ts:58-59 | a find returns exactly the tenant's documents that meet the request, as often as they occur |
| Operations.FindOneReturns | src/common/tenant.plugin.ts:58-59 | a findOne returns the first of them, and nothing exactly when there is none |
| Operations.SelectConcat | src/common/tenant.plugin.ts:58-59 | what a query selects comes in the order of the collection |
| Operations.ProjectCounts | src/common/tenant.plugin.ts:58-59 | a tenant's documents and the rest together are the collection, each document on its own side |
| Operations.AggregateReturns | src/common/tenant.plugin.ts:75 | a pipeline runs its stages one after the other on the tenant's documents |
| Operations.UpdateDoes | src/common/tenant.plugin.ts:58-59 | an update changes the documents it takes in place, in the fields it sets and no other, and leaves every other document |
| Operations.DeleteManyDoes | src/common/tenant.plugin.ts:58-59 | a deleteMany removes the documents that meet the request and no other, and says how many |
| Operations.DeleteKeepsOrder | src/common/tenant.plugin.ts:58-59 | and leaves the others in their old order |
| Operations.DeleteOneDoes | src/common/tenant.plugin.ts:58-59 | a deleteOne removes the first of them, or nothing when there is none |
| Operations.UpsertUpdates | src/common/tenant.plugin.ts:58-59 | an upsert that finds a document does what an updateOne does |
| Operations.UpsertInserts | src/common/tenant.plugin.ts:58-59 | an upsert that finds none adds one document, the tenant's, with the inserted fields and the changes over them |
| Operations.CreateDoes | src/common/tenant.plugin.ts:82-104 | a create adds the tenant's document, unless the draft names another tenant |
| Operations.InsertManyDoes | src/common/tenant.plugin.ts:107-119 | an insertMany adds one document of the tenant for each draft |
| Operations.SaveDoes | src/common/tenant.plugin.ts:97-103 | a save changes the document with its id and no other, and is refused when that was loaded from another tenant |
| Noninterference.SoundStep | src/common/tenant.plugin.ts:82-104 | every event keeps the index, one owner per id, and the truth of every snapshot a flow was given |
| Noninterference.TenantOfIff | src/common/tenant.plugin.ts:47-57 | an operation is a tenant's exactly when the innermost context of its flow names the tenant and does not bypass |
| Noninterference.LastEvent | src/common/tenant.plugin.ts:46-119 | the last event of any trace adds its operation's effect on the collection at that point and, to its own tenant's observations only, its result |
| Noninterference.FindThenSave | src/common/tenant.plugin.ts:97-103 | a flow may save whatever a query of its own returned |
| Noninterference.CreateThenSave | src/common/tenant.plugin.ts:82-104 | and what it created itself |
| Noninterference.EnterDecides | src/common/tenant-context.ts:23-25 | a context entered decides for its own flow, and entering or leaving changes nothing for another |
| Noninterference.PurgingChangesNothing | src/common/tenant.plugin.ts:46-119 | over any trace of any flows, which save what they were given earlier, a tenant observes the same results and ends with the same documents as if nobody else's operations had run and nobody else's documents existed, as long as it uses no payment id another tenant holds |
| Noninterference.AgreeingCollections | src/common/tenant.plugin.ts:46-119 | two stores that agree on a tenant's documents give it the same results and still agree afterwards |
| Noninterference.OthersLeaveAlone | src/common/tenant.plugin.ts:46-119 | operations of other tenants leave a tenant's documents unchanged |
| Isolation.EffectCommutesIff | src/modules/fees/schemas/payment.schema.ts:30 | an operation does what it would on the tenant's documents alone if and only if it gives none of them a payment id another tenant holds (or is rejected on their own account); otherwise the global index rejects it and nothing changes |
| Isolation.UniqueSplit | src/modules/fees/schemas/payment.schema.ts:52-53 | the global index holds exactly when it holds of a tenant's documents, of the others', and the two share no payment id |
| Noninterference.IndexCrossesTenants | src/modules/fees/schemas/payment.schema.ts:52-53 | the index makes one tenant's write depend on another's row |
| Noninterference.MovingCrossesTenants | src/common/tenant.plugin.ts:59 | an update that sets tenantId can add a document to another tenant |
| Noninterference.ContextRestored | src/common/tenant-context.ts:21-50 | however runs nest, when all a flow entered is left the plugin judges it as before, whatever other flows do |

## Left out

- Live Razorpay orders: the order id and the amount come from the SDK; routing is proved for the stub gateway, whose order id is a function of the invoice and the amount paid.
- `generateInvoices` in the interleaved semantics: single upserts interleave as atomic steps, whole runs are serial, because nothing in the database stops two concurrent upserts of one key.
- FeesService.FeesService.GenerateInvoices: the plan and the batch's students are parameters, and every upsert of one call reads the same clock.
- FeesService.FeesService.CreatePaymentOrder: `keyId` in the answer and the order's notes are not modelled.
- Reports.FeesSummary: sums are in exact paisa, and the grouped rows are a parameter constrained by what `$group` promises; accumulated double error of long sums is not modelled.
- Webhooks.WebhooksController.Razorpay: the signature check is a boolean input, and the receipt URL and the clock readings are inputs.
- CaptureClaims.CompareAndSetClaimsOnce: describes a variant of the claim; the code has no such test.
- CaptureSimulation.Reduction: flows that died, or still are, between their claim and their credit are excluded, because such a store need not be one in which a serial run of whole requests ends (`DiedOwingIsNotSerial`); a refused capture may name another invoice, or none, in the part of its result the webhook drops.
- Attendance.AttendanceService.MarkBatch: the notification itself is a counter; who can be notified is a parameter.
- Noninterference.PurgingChangesNothing: bypass operations other than reads are excluded, single-document operations take the first match in the collection's order, ids of new documents are new, and a multi-document write the index rejects is rejected as a whole.
- `$lookup` and `$out` stages, regular expressions and dotted paths in filters, and operations outside the plugin's hook list.
- createdAt, updatedAt, `gateway` and other fields nothing reads; validators; the failed payment status, which no code path writes.
- Object ids are numbers printed in decimal; due dates are day stamps, so calendar months and daylight saving do not occur.
- Overflow of doubles to infinity, infinities and NaN.
- Notifications, receipts as PDF, S3, authentication, and the create, read, update, delete services, which would add easy members only.
- `performanceSummary`, the average of marks per student.
