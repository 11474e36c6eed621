# A verified model of the VPN shop's billing, reconciliation, messaging and text conversion

The shop sells VPN subscriptions through a Telegram bot. Users hold an internal
balance, pay through external providers whose webhooks may be late, repeated or
out of order, invite friends for a bonus, redeem promo codes and extend running
subscriptions; a VPN provider issues the keys and can fail at any moment. This
project models four parts of that system in Dafny and proves what they promise.

**Billing.** `Store` holds the tables: users, payments, subscriptions, ledger
rows (`balance_transactions`), promo codes, activations and referrals, and the
purchases whose debit is committed but whose key has not been answered yet. The
class `BillingStore.Tables` has one method for each service call, which updates
the tables in place; every method is proved equal to a step function on the
tables as a value (`PromoService`, `ReferralService`, `ExtensionService`,
`PaymentService`, `BalanceService`, `Reconcile`). `Machine` puts the steps
together: an event is one call with its inputs, and a run is any list of events
from the empty database. `BillingStore.Serve` shows that serving a list of calls
is such a run. Each call keeps the class's `Valid()`. `Invariant` states what
every reachable state satisfies; `Guarantees` reads the promises off it;
`Confluence` treats lists of webhook deliveries; `Progress` says what no later
call takes back; `Effects` says what each call does achieve; `AccountOutcomes`,
`OrderOutcomes`, `DeliveryOutcomes` and `ReconcileOutcomes` give the new tables
of every call in full, in terms of its inputs, with prices, words, days and
seconds spelled out; `Refunds` treats the refund that starts from an outdated
balance, `Crash` the purchase whose second phase dies, `DiscountLimits` the
discounts that are given but not recorded; `Examples` holds literal runs.

**Reconciliation.** `Reconcile` models the pass over a batch of active
subscriptions with its circuit breaker, as a loop over an array that is rolled
back when the breaker trips.

**Text.** `TelegramHtml`, `TagMachine`, `Whitespace`, `TagGuarantees` and
`TagNesting` model the converter from editor HTML to Telegram's subset:
tokenizer, tag stack, emitted chunks and final whitespace pass.

**Messages.** `Outbox` and `OutboxRuns` model the outgoing queue: claiming with
a limit, retries with growing delays, and the de-duplication of admin alerts
that live in the same queue.

How the model reads the source:

- A row's identifier is its position in its table. Database identifiers start at
  one, so a truthy identifier in the source is `Some` here. Times are whole
  seconds. A call reads the clock once; the source reads it twice when it
  activates a subscription, a difference of microseconds.
- Each service call is one atomic step, except the balance purchase, which is
  two (the source commits between the debit and the call to the VPN provider).
  Any other call may run between the two. Within one step a locked row is the
  current row. Across the two phases it is not: sessions are made with
  `expire_on_commit=False` (backend/app/db/session.py:54), and the second
  `SELECT ... FOR UPDATE` answers with the user object that the session already
  holds, so the refund adds the price to the balance as the debit left it (and
  writes nothing when the price is zero). The model's `Debit.seen` is that
  balance, and `Db.overwritten`, which no table holds, is the history of what
  such refunds have replaced.
- The VPN provider's answer is an input of the call: `Accepted`, `Rejected` (one
  of its two declared errors) or `Crashed` (any other exception). Provisioning a
  first order treats both failures alike. An extension paid from the balance or
  through a webhook is rolled back by a crash. The second phase of a balance
  purchase that crashes leaves the order paid and the subscription pending.
- Prices, days, promo values and promo limits are non-negative, as the schemas
  of the admin panel demand. Percents and adjustments are any integers.
- The lookup of a typed promo code (trimming, case-insensitive match) happens
  before the model: the call takes the row it found, or none.
- Amounts are kopecks. The referral bonus is 7000, as the code has it; the
  module's own text speaks of 100 roubles.
- The unique index on `external_id` is a refusal of the second insert.
- A reconciliation batch is any list of distinct active rows with a provider
  key; their order by `updated_at` is left open, so the results hold for every
  order. The provider's answer is a function of the key. A subscription's key
  may occur on several rows; the results do not need it to be unique.
- `SELECT ... FOR UPDATE SKIP LOCKED` is a set of rows other workers hold.

Behaviours of the code that a reader may not expect:

- A refund of a balance purchase writes over whatever has happened to the
  balance since the debit. `Refunds.RefundKeepsBooks` and
  `Guarantees.LedgerRefinesBalances` give the exact condition under which ledger
  and balance agree, `Guarantees.MoneyIsConserved` the law that holds without
  it, and `Examples.StaleExample` a run that loses 200.
- A balance purchase is settled, delivered or refunded, if and only if its
  second phase does not die of an exception other than the two it catches, such
  as an answer of the provider that does not parse (northline_client.py:259):
  `Crash.PurchaseSettlesUnlessCrashed`. After that no call repairs it
  (`Crash.CrashIsPermanent`), as in the run of `Crash.CrashExample`.
- When the breaker trips, the whole batch is rolled back but only the `flipped`
  counter is zeroed. `Reconcile.TrippedExtendedCounter` says exactly when the
  reported `extended` counter is still right, and
  `Reconcile.TrippedExtendedExample` shows a batch where it is not.
- The hooks of a paid order also run for an extension that was refunded
  (`Effects.DeliveryPaysReferral`, `Effects.DeliveryRecordsPromo`);
  `Examples.RefundedExtensionExample` is such a run.
- A promo use survives the refund of its order (`Progress.RefundCancelsDebit`,
  `Examples.UsedUpExample`), and orders are discounted beyond the promo's
  limits, which bound the recorded uses only
  (`DiscountLimits.DiscountsOutnumberUses`, `Examples.TwiceExample`).
- The bot's `apply_discount` says that a percent outside 0 to 100 leaves the
  amount unchanged. Its code clamps the percent instead
  (`Discount.OutOfRangeIsClamped` gives the exact condition,
  `Discount.OutOfRangeExample` an input), as the backend does
  (`Discount.DiscountsAgree`).
- The converter's remark that it closes forgotten tags because Telegram is
  strict must not be read as a repair of crossed ones: an entry can leave the
  middle of the stack. `TagNesting.NestedExactly` gives the exact condition for
  nested output, `TagNesting.CrossedExample` an input.

## Model

| member | source | states |
|---|---|---|
| Guarantees.MoneyIsConserved | backend/app/services/balance_service.py:199-265 | over every run, all balances together, with what refunds have written over, equal paid top-ups plus refunded external extensions minus balance orders that stayed paid, plus 7000 per paid referral, plus all promo grants and admin adjustments; nothing is written over when every refund finds the balance as its debit left it |
| Guarantees.LedgerRefinesBalances | backend/app/services/balance_service.py:86-107 | over every run, each balance is the sum of its user's ledger rows less what refunds have written over, and never negative; every row shows the running balance at that row if and only if every refund found the balance as its debit left it, and then balance and ledger agree |
| Guarantees.PaymentsSettle | backend/app/services/payment_service.py:742-782 | over every run, the purchase, refund and top-up rows of a payment add up to what its provider, purpose and status say |
| Guarantees.InFlightIsDebited | backend/app/services/balance_service.py:224-282 | over every run, a balance purchase waiting for its key has moved exactly minus its price, its order is paid and its subscription pending |
| Guarantees.PaidTimeIsKept | backend/app/services/extension_service.py:489-495 | over every run, a started subscription expires no earlier than its start plus 86400 seconds for each of its own days and of the days of every extension paid and not refunded (the days its order names, or the own days if it names none), whatever reconciliation did in between |
| Guarantees.ReferralsAddUp | backend/app/repositories/referral_repo.py:67-85 | over every run, the earnings summed from the ledger are 7000 per paid referral of the user, at most one referral exists per invited user |
| Guarantees.EachReferralPaidOnce | backend/app/services/referral_service.py:174-221 | over every run, a paid referral points to a real order of its referee, and exactly one bonus row refers to that order |
| Guarantees.PromosStayWithinLimits | backend/app/services/promo_service.py:244-263 | over every run, a promo's counter is its number of activation rows and neither the total nor the per-user limit is exceeded |
| Guarantees.GrantsAreBounded | backend/app/services/promo_service.py:265-297 | over every run, what a balance promo gives away is at most its value times its limit, in all and per user |
| Machine.RunKeepsInv | backend/app/services/balance_service.py:129-369 | every state reachable by any list of calls satisfies the whole invariant, in which the books count what refunds write over |
| Machine.StepKeepsInv | backend/app/services/payment_service.py:378-449 | each of the thirteen kinds of call keeps the invariant, without a condition |
| Machine.ReconciledKeepsInv | backend/app/services/subscription_reconcile_service.py:130-138 | a reconciliation pass over any selectable batch keeps the invariant, purchases in flight included |
| Machine.ReconciledRows | backend/app/services/subscription_reconcile_service.py:130-138 | a pass touches only active rows, keeps their identity and start, and never moves an expiry back |
| Confluence.DeliveriesAreConfluent | backend/app/services/payment_service.py:414-449 | any list of deliveries to an open payment ends where its first settling delivery alone ends; with none, only the payment's status and its pending subscription can differ |
| Confluence.OrderDoesNotMatter | backend/app/services/payment_service.py:414-449 | duplicates, reorderings and other statuses, each delivery at its own time: two lists that both contain a delivery spelling a word for paid, with one provider answer for those, end in databases that agree in everything but time stamps |
| Confluence.OneDeliveryIsEnough | backend/app/services/payment_service.py:414-449 | a list whose settling deliveries share one answer and one time ends in the database of a single paid delivery |
| Confluence.PaidAgrees | backend/app/services/payment_service.py:453-509 | paying at another time gives the same balances, ledger, promos, activations and statuses, and the same rows up to time stamps |
| Confluence.UnpaidMovesNothing | backend/app/services/payment_service.py:813-893 | without a delivery that spells a word for paid (and does not die in an extension call) no balance, ledger row, referral, promo or activation changes |
| Confluence.ClosedIgnores | backend/app/services/payment_service.py:414-426 | any list of deliveries to a paid or refunded payment changes nothing |
| Confluence.UnknownIgnored | backend/app/services/payment_service.py:400-412 | any list of deliveries for an unknown invoice changes nothing |
| Confluence.PaidOverwrites | backend/app/services/payment_service.py:453-509 | paying a payment that failed or expired before gives the same database as paying it at once |
| Progress.RunAdvances | backend/app/services/balance_service.py:257-265 | no continuation of a run removes or rewrites a ledger or activation row, changes a closed external payment, unpays a referral or shortens a started subscription |
| Progress.StepAdvances | backend/app/services/payment_service.py:414-449 | the same for one call of any kind |
| Progress.InFlightUntilFinished | backend/app/services/balance_service.py:282-317 | a committed debit keeps waiting for its own second phase, whatever other call runs |
| Progress.InFlightThroughRun | backend/app/services/balance_service.py:282-317 | the same through any run of other calls |
| Progress.RefundUndoesDebit | backend/app/services/balance_service.py:385-419 | a refund restores every balance, its ledger row cancels the debit and the order is refunded; but a promo use that phase one recorded stays recorded |
| Progress.RefundCancelsDebit | backend/app/services/balance_service.py:385-419 | across any run of other calls the refund row cancels the row of its own debit and a recorded promo use stays; but the refund puts back the balance from before the purchase, which is the current one plus the price exactly when nothing moved it since the debit |
| Progress.StepInFlight | backend/app/services/balance_service.py:282-317 | only the two phases of a purchase move the set of purchases in flight: the first adds a new order, the second removes its own |
| Progress.DebitedRows | backend/app/services/balance_service.py:199-265 | phase one takes exactly the charged price from the buyer, in one ledger row, and registers the purchase; activations grow exactly when the promo counted |
| Effects.DeliveryPays | backend/app/services/payment_service.py:453-509 | a paid delivery closes exactly its own payment, as refunded when an extension could not be delivered, and the only balances it moves are the payer's and the referrer's, by exactly these amounts |
| Effects.DeliveryPaysReferral | backend/app/services/payment_service.py:501-536 | a referral becomes paid by a delivery exactly when its referee's payment is not a top-up and not free; refunds do not matter |
| Effects.DeliveryRecordsPromo | backend/app/services/payment_service.py:538-568 | the promo use is recorded exactly when a real order still finds the promo within both limits, and the discount recorded plus the price paid is the original price |
| Effects.DeliveryServes | backend/app/services/payment_service.py:570-740 | a first order starts its subscription for its days or marks it failed; an extension adds its days to what is left or changes nothing; no other subscription moves |
| Effects.FinishOutcome | backend/app/services/balance_service.py:317-369 | however the database has moved on, the second phase activates the subscription for its days; or refunds the order, whose rows then sum to zero, and sets the balance to what the debit left plus the price; or dies and leaves a paid order, a pending subscription and rows that sum to minus the price |
| Effects.PurchaseCompletes | backend/app/services/balance_service.py:129-369 | what a balance purchase ends in for each provider answer, across any run of other calls between its two phases; a refund ends in the balance from before the purchase |
| Refunds.RefundIsCredit | backend/app/services/balance_service.py:385-419 | a refund credits the current balance if and only if the balance is still the one its debit left |
| Refunds.RefundKeepsBooks | backend/app/services/balance_service.py:385-419 | a first refund keeps every row at its running sum if and only if the balance has not moved since the debit; otherwise ledger and balance drift apart by exactly the movement, unless the price is zero |
| Refunds.StepLosses | backend/app/services/balance_service.py:395-397 | no other call writes over a balance, and a refund exactly what moved since its debit |
| Refunds.RunLosses | backend/app/services/balance_service.py:395-397 | what a run has written over is the sum of its outdated refunds, and nothing exactly when there is none |
| Examples.StaleExample | backend/app/services/balance_service.py:385-419 | a run in which an adjustment of 200 between the phases is lost: the balance is 1000, the ledger sums to 1200 |
| Crash.PurchaseSettlesUnlessCrashed | backend/app/services/balance_service.py:284-369 | a debited purchase ends active and paid, or failed and refunded with rows that sum to zero, if and only if its second phase does not die of an exception other than the two it catches |
| Crash.CrashIsPermanent | backend/app/services/balance_service.py:317-331 | after such a crash no run of calls ever settles the purchase: the price stays taken, the order paid, the subscription pending, and nothing is in flight for it |
| Crash.CrashExample | backend/app/services/balance_service.py:284-317 | a concrete run in which a user pays 500 and is left stranded with a pending subscription |
| Crash.StepFrames | backend/app/services/balance_service.py:282-317 | no call but its own second phase is affected by a purchase in flight |
| Crash.StrandedRun | backend/app/services/balance_service.py:282-317 | a stranded purchase can be regarded as forever in flight: the invariant carries over with it added |
| Effects.ExtendWithBalanceOutcome | backend/app/services/extension_service.py:315-403 | all or nothing: the days for the price, or two ledger rows that cancel and a refunded order, or no trace |
| DiscountLimits.DiscountsOutnumberUses | backend/app/services/promo_service.py:154-184 | over every run, the settled orders that a promo has discounted outnumber its recorded uses by exactly those that found no room when they were settled, or were free and paid through a provider |
| DiscountLimits.StepGap | backend/app/services/payment_service.py:538-568 | one call settles a discounted order and records its use, or settles it and counts as unrecorded, or moves neither number |
| Examples.TwiceExample | backend/app/services/payment_service.py:174-214 | a user with one use of a promo pays two orders at half the price; one use is recorded |
| Examples.UsedUpExample | backend/app/services/balance_service.py:385-419 | a refunded purchase has used up the promo: the next redemption is refused |
| Examples.RefundedExtensionExample | backend/app/services/payment_service.py:499-507 | a refunded extension pays the referrer 7000 |
| Effects.RedemptionsAreCounted | backend/app/services/promo_service.py:244-297 | of n redemptions by one user exactly as many succeed as both limits leave room for, each worth the promo's value |
| Effects.RoomIsNatural | backend/app/services/promo_service.py:244-263 | in every state that satisfies the invariant the remaining room is not negative |
| PaymentService.WebhookKeepsInv | backend/app/services/payment_service.py:378-449 | any webhook delivery keeps the invariant |
| PaymentService.HandlePaidKeepsInv | backend/app/services/payment_service.py:453-509 | marking paid, delivering and running the hooks keeps the invariant |
| PaymentService.CreateTopupKeepsInv | backend/app/services/payment_service.py:300-374 | creating a top-up keeps the invariant |
| PaymentService.CreateSubscriptionKeepsInv | backend/app/services/payment_service.py:137-296 | creating a subscription and its first order keeps the invariant |
| PaymentService.Charge | backend/app/services/payment_service.py:160-215 | a promo never raises the price, and a recorded discount names the promo and the original price; the exact amount is stated by OrderOutcomes |
| BalanceService.StartPurchaseKeepsInv | backend/app/services/balance_service.py:129-282 | the debit phase keeps the invariant, the purchase now waiting for its key |
| BalanceService.FinishPurchaseKeepsInv | backend/app/services/balance_service.py:284-443 | activation, refund or death of a purchase in flight keeps the invariant; a refund from an outdated balance is accounted as what it writes over |
| BalanceService.AdjustKeepsInv | backend/app/services/balance_service.py:66-127 | an admin adjustment keeps the invariant; one that would go below zero is refused |
| ExtensionService.ExtendWithBalanceKeepsInv | backend/app/services/extension_service.py:315-403 | an extension from the balance keeps the invariant, delivered, refunded or rolled back |
| ExtensionService.CreateExtensionKeepsInv | backend/app/services/extension_service.py:227-312 | creating an external extension order keeps the invariant |
| ExtensionService.ExtensionKeepsTimes | backend/app/services/extension_service.py:489-495 | adding days from the later of now and the expiry keeps every promise of paid time |
| PromoService.ApplyPromoKeepsInv | backend/app/services/promo_service.py:61-122 | redeeming a promo keeps the invariant |
| PromoService.RecordDiscountKeepsInv | backend/app/services/promo_service.py:124-222 | recording a discount keeps the invariant |
| ReferralService.RegisterKeepsInv | backend/app/services/referral_service.py:68-122 | registering a referral keeps the invariant: one referral per referee, none to oneself |
| ReferralService.BonusKeepsInv | backend/app/services/referral_service.py:162-225 | paying a bonus for a closed payment keeps the invariant |
| DeliveryOutcomes.UnpaidStatus | backend/app/services/payment_service.py:428-449 | for an open payment, a status that spells none of paid, success, succeeded and completed moves no money, delivers nothing and touches no bonus or promo; failed, fail and error fail the payment and its pending subscription, expired, cancelled and canceled expire it, and any other text is ignored |
| DeliveryOutcomes.PaidStatus | backend/app/services/payment_service.py:453-509 | each of the four words for paid, in any letter case, ends the payment paid, or refunded when its days could not be delivered; the tables change by what is delivered, by one bonus of 7000 if it is owed, by one use of the promo if there is room, and by nothing else |
| DeliveryOutcomes.VoidDelivery | backend/app/services/payment_service.py:400-426 | a delivery for an unknown invoice number, or for a paid or refunded payment, changes nothing |
| DeliveryOutcomes.HooksAsOwed | backend/app/services/payment_service.py:501-568 | the referrer of a real order is paid 7000, in one ledger row and one flagged referral, exactly when an unpaid referral of the payer exists |
| Statuses.StatusIsRead | backend/app/services/payment_service.py:428-436 | a status is classed by the word that it spells, whatever the case of its letters |
| OrderOutcomes.PurchaseIsDebited | backend/app/services/balance_service.py:156-265 | a balance purchase takes exactly the price less the percent of its discount promo, rounded down, and is refused exactly when the balance is smaller; ledger row, order, subscription and promo use are given in full |
| OrderOutcomes.SubscriptionIsOrdered | backend/app/services/payment_service.py:174-230 | a first order asks for exactly the price less the percent of its discount promo, rounded down, for a pending subscription of the days ordered |
| OrderOutcomes.TopupIsStored | backend/app/services/payment_service.py:300-374 | a top-up of at least 1000 under a new invoice number is stored with the user and amount asked for; any other is refused |
| OrderOutcomes.ExtensionIsOrdered | backend/app/services/extension_service.py:227-312 | an extension order names its subscription, days and price, and is refused without a running subscription with a key |
| OrderOutcomes.ExtensionIsPaid | backend/app/services/extension_service.py:315-403 | an extension from the balance in full: refused, delivered with the days it names (or the own days of the subscription if it names none) on top of the later of now and the expiry, refunded with two rows that cancel, or without a trace |
| OrderOutcomes.PurchaseIsFinished | backend/app/services/balance_service.py:317-443 | the second phase in full: the subscription runs its days from now, or the order is refunded with its ledger row, or nothing |
| AccountOutcomes.AdjustmentIsPosted | backend/app/services/balance_service.py:66-127 | a nonzero adjustment that leaves the balance non-negative is written to balance and ledger; any other changes nothing |
| AccountOutcomes.RedemptionIsPosted | backend/app/services/promo_service.py:97-118 | a balance promo is credited exactly when it is active, in its window, within both limits and not someone else's; otherwise nothing changes |
| AccountOutcomes.RefusalIsFirstFailure | backend/app/services/promo_service.py:97-122 | the error is that of the first check that fails |
| AccountOutcomes.RegistrationIsRecorded | backend/app/services/referral_service.py:68-122 | a referral is created exactly for a new user, invited by someone else, not yet invited and without a paid order |
| AccountOutcomes.NewRows | backend/app/db/models/promo_code.py:39-41 | a new user has an empty balance, a new promo no uses |
| ReconcileOutcomes.PassOverTable | backend/app/services/subscription_reconcile_service.py:229-367 | after a pass each row of the batch is what the answer about its key says: deactivated for an unknown or suspended key, expired for another inactive one, moved to an expiry more than 3600 seconds later, else unchanged; other rows and tables are unchanged, and so is everything after three unknown keys in a row |
| ReconcileOutcomes.TripIsThreeGone | backend/app/services/subscription_reconcile_service.py:151-183 | a batch trips exactly when some stretch of it holds at least three keys, all of them unknown |
| ReconcileOutcomes.ReportIsExact | backend/app/services/subscription_reconcile_service.py:153-159 | the counters of a committed batch in terms of its rows and answers |
| ReconcileOutcomes.TrippedReportIsExact | backend/app/services/subscription_reconcile_service.py:223-227 | the report of a tripped batch: the rows before the fatal one, that one as checked, no flips and three errors more |
| ReconcileOutcomes.AnswersAreRead | backend/app/services/subscription_reconcile_service.py:170-173 | codes and statuses are compared without regard to letter case |
| ReconcileOutcomes.TestKeys | backend/app/services/subscription_reconcile_service.py:85-93 | the keys that are not asked about |
| OrderOutcomes.PriceExists | backend/app/services/promo_service.py:44-50 | every price and percent have an amount that is the exact share rounded down |
| Discount.OnlyPrice | backend/app/services/promo_service.py:44-50 | the price is the only amount that is the exact share rounded down |
| TelegramHtml.TagBegins | backend/app/core/tg_html.py:57-57 | a tag begins exactly at a bracket, perhaps a slash, a letter, and a closing bracket somewhere after it |
| TelegramHtml.TagIsItsSlice | backend/app/core/tg_html.py:57-57 | the slice of a tag is its bracket, a slash exactly when it closes, its whole name in some mix of cases, its attributes and the first closing bracket |
| TelegramHtml.EscapeRoundTrip | backend/app/core/tg_html.py:75-101 | unescaping an escaped value gives it back |
| TelegramHtml.BareIsKept | backend/app/core/tg_html.py:41-46 | each of the twelve tags without attributes is kept as it is |
| TelegramHtml.LinkIsKept | backend/app/core/tg_html.py:77-82 | a link keeps its trimmed target, and is dropped without one |
| TelegramHtml.EmojiIsKept | backend/app/core/tg_html.py:83-87 | a custom emoji keeps its trimmed identifier, and is dropped without one |
| TelegramHtml.SpoilerIsKept | backend/app/core/tg_html.py:88-92 | a span is kept exactly when one of its classes is the spoiler |
| TelegramHtml.CodeIsKept | backend/app/core/tg_html.py:93-98 | code keeps the class that names a language, and no other |
| TelegramHtml.OthersAreDropped | backend/app/core/tg_html.py:99-101 | no other tag is kept |
| TelegramHtml.ClosedExactly | backend/app/core/tg_html.py:104-110 | a closing tag is emitted exactly for an emitted opening of a kept name |
| TelegramHtml.SplitAtSpace | backend/app/core/tg_html.py:90-90 | class names are what whitespace separates |
| TagMachine.JoinConcat | backend/app/core/tg_html.py:212-212 | chunks are joined in the order in which they were emitted |
| TagMachine.PlainConverts | backend/app/core/tg_html.py:154-216 | a text in which no tag begins is only tidied up |
| TagMachine.BoldConverts | backend/app/core/tg_html.py:154-216 | bold text without a bracket inside and without three newlines in a row comes back as it is |
| TagMachine.LineBreaks | backend/app/core/tg_html.py:187-189 | a line break and a rule become a newline |
| TagMachine.Paragraphs | backend/app/core/tg_html.py:178-193 | a paragraph ends in a blank line, whether or not it was opened |
| TagMachine.StrayClose | backend/app/core/tg_html.py:181-184 | closing any other tag that is not open emits nothing |
| TagGuarantees.NestedIsMarkup | backend/app/core/tg_html.py:154-216 | the result for properly nested input is the text of its forest: words in place, kept tags around their insides, tidied up |
| Outbox.BackoffMinutes | backend/app/services/outbox_service.py:25-29 | the delays are 2, 4, 8, 16 and 32 minutes, and an hour from then on |
| Outbox.FailureRetries | backend/app/services/outbox_service.py:166-173 | a failed message is due again after 2, 4, 8 or 16 minutes, and failed for good at its fifth attempt |
| Outbox.AlertIsSent | backend/app/services/admin_alert_service.py:135-156 | an alert is enqueued, due at once, exactly when there is an admin and no alert of its key was due within 600 seconds or is still to come |
| OutboxRuns.StepServes | backend/app/services/outbox_service.py:41-175 | each event does to the queue what its service does, row by row |
| BillingStore.Serve | backend/app/services/payment_service.py:378-449 | serving any list of calls on empty tables is the run of the machine and ends in a valid store |
| BillingStore.Dispatch | backend/app/services/payment_service.py:378-449 | each call changes the tables exactly as one step of the machine |
| BillingStore.Tables.PostEntry | backend/app/services/balance_service.py:200-265 | a posting updates balance and ledger together, and nothing else |
| BillingStore.Tables.AddAdminAdjust | backend/app/services/balance_service.py:66-127 | the stored balance is the returned one; a refusal changes nothing |
| BillingStore.Tables.StartPurchase | backend/app/services/balance_service.py:129-282 | phase one as a whole: refused exactly when the balance is below the price less the percent, rounded down, and else lower by exactly that amount, which is the order's |
| BillingStore.Tables.FinishPurchase | backend/app/services/balance_service.py:284-369 | phase two as a whole, by the provider's answer, with the refund computed from the balance of phase one |
| BillingStore.Tables.RefundAfterFailure | backend/app/services/balance_service.py:385-443 | the compensating step as written: the price is added to the balance that the session still holds, and replaces the current one |
| BillingStore.Tables.ValidateAndApply | backend/app/services/promo_service.py:61-122 | the checks in the source's order, each with its error; a discount promo answers with its percent, a balance promo with the balance it has credited |
| BillingStore.Tables.RecordDiscountActivation | backend/app/services/promo_service.py:124-222 | the use is recorded unless a limit is reached, even after the promo has expired |
| BillingStore.Tables.RecordPromoActivation | backend/app/services/payment_service.py:538-568 | the discount recorded is that of the payment's own promo |
| BillingStore.Tables.RegisterReferral | backend/app/services/referral_service.py:68-122 | a referral is created exactly for a new, not self-referred, not yet referred user without a paid order; a refusal changes nothing |
| BillingStore.Tables.GetStats | backend/app/services/referral_service.py:262-266 | what the profile shows: invited users, and 7000 per paid one, never more than all of them |
| BillingStore.Tables.CreateExtensionPayment | backend/app/services/extension_service.py:227-312 | a pending order, refused exactly when the subscription is not a running one of the user or the invoice number is used; a refusal changes nothing |
| BillingStore.Tables.AddDays | backend/app/services/extension_service.py:459-512 | the days that the order names, or the subscription's own, go on top of what is left of the subscription |
| BillingStore.Tables.RefundExtension | backend/app/services/extension_service.py:533-603 | the price goes to the balance and the payment is refunded |
| BillingStore.Tables.ApplyExtensionAfterPayment | backend/app/services/extension_service.py:411-456 | extends or refunds by the provider's answer |
| BillingStore.Tables.ExtendViaBalance | backend/app/services/extension_service.py:315-403 | succeeds exactly for a running subscription, a sufficient balance and an accepting provider, and then takes exactly the price; every failure leaves balances and subscriptions as they were |
| BillingStore.Tables.CreateTopupPayment | backend/app/services/payment_service.py:300-374 | refused exactly below the minimum of 1000 or for a used invoice number, and then unchanged; else stored with the caller's user and amount |
| BillingStore.Tables.CreateSubscriptionPayment | backend/app/services/payment_service.py:137-296 | a pending subscription of the days ordered and its order for exactly the price less the percent, rounded down; refused exactly for a used invoice number |
| BillingStore.Tables.ProvisionSubscriptionKey | backend/app/services/payment_service.py:570-740 | activation from now, or the failed-provider mark |
| BillingStore.Tables.HandleFailed | backend/app/services/payment_service.py:813-873 | fails the payment, and its subscription only while pending |
| BillingStore.Tables.HandleExpired | backend/app/services/payment_service.py:875-895 | expires the payment and nothing else |
| BillingStore.Tables.HandlePaid | backend/app/services/payment_service.py:453-509 | the whole paid branch, or nothing at all when it does not commit |
| BillingStore.Tables.ProcessWebhookPayment | backend/app/services/payment_service.py:378-449 | one delivery: the reply follows the word that the status spells, and without a word for paid no balance, ledger row, referral or activation changes; every reply other than processed means the tables are unchanged |
| BillingStore.Tables.ReconcileActive | backend/app/services/subscription_reconcile_service.py:109-378 | a pass over the fetched rows of the store: each row ends as the answer about its key says, or none changes after three unknown keys in a row, and no other row changes |
| Store.FindPayment | backend/app/services/payment_service.py:400-404 | finds the payment of an invoice number exactly when there is one |
| Store.FindReferral | backend/app/repositories/referral_repo.py:44-49 | finds the referral of a referee exactly when there is one |
| Reconcile.ReconcileSubscriptions | backend/app/services/subscription_reconcile_service.py:109-378 | the loop over the batch: rows and counters end as the specification says, and on a trip every row is as fetched and the report is that of the rows before the fatal one |
| Reconcile.BreakerExact | backend/app/services/subscription_reconcile_service.py:151-183 | a batch trips exactly when the answers for its non-test rows contain three unknown keys in a row |
| Reconcile.LostIsBounded | backend/app/services/subscription_reconcile_service.py:151-183 | a committed batch of n checked rows deactivates at most (2n+2)/3 of them as unknown |
| Reconcile.LostBoundAttained | backend/app/services/subscription_reconcile_service.py:151-183 | for every n some batch of n distinct keys commits and reaches that bound |
| Reconcile.PassIsSafe | backend/app/services/subscription_reconcile_service.py:278-367 | a tripped pass changes nothing; a committed one leaves test rows alone, deactivates or expires only what its answer says, never moves an expiry back, and leaves none more than an hour below an active key's expiry |
| Reconcile.CountersAreTrue | backend/app/services/subscription_reconcile_service.py:229-327 | the flipped and extended counters of a committed batch are the numbers of rows whose status and expiry changed |
| Reconcile.TrippedExtendedCounter | backend/app/services/subscription_reconcile_service.py:220-227 | a batch that trips at a row reports its true number of flips, and of extensions exactly when it had extended no row before that one |
| Reconcile.TrippedExtendedExample | backend/app/services/subscription_reconcile_service.py:220-227 | a batch of four whose report counts one extension although none was kept |
| Reconcile.PassIsIdempotent | backend/app/services/subscription_reconcile_service.py:117-119 | a second pass with the same answers over the rows still active changes none of them, whether the first committed or tripped |
| Discount.DiscountsAgree | bot/app/keyboards/catalog.py:163-174 | the bot shows what the backend charges for every price and percent; the extension flow agrees exactly when the price is not negative or the percent is zero or at least 100 |
| Discount.OutOfRangeIsClamped | bot/app/keyboards/catalog.py:163-174 | a percent outside 0 to 100 leaves the amount unchanged, as documented, exactly when it is negative or the amount is zero |
| Discount.OutOfRangeExample | bot/app/keyboards/catalog.py:163-174 | at 150 percent a price of 100 is shown as zero |
| Discount.DiscountRoundsDown | backend/app/services/promo_service.py:44-50 | for percents from 0 to 100 the price is the exact share rounded down, and the discount completes it to the original |
| Discount.DiscountBounded | backend/app/services/promo_service.py:44-50 | any percent: never negative and never above the original price |
| Discount.DiscountAntitone | backend/app/services/extension_service.py:74-82 | a larger percent never costs more |
| TagMachine.ToTelegramHtml | backend/app/core/tg_html.py:154-216 | the scanning loop yields the conversion defined on tokens and chunks; text in which no tag begins keeps its ink in order, and bold text comes back unchanged |
| TagMachine.PopMatching | backend/app/core/tg_html.py:170-177 | removes the topmost entry of the name, from anywhere in the stack, and reports whether its opening was emitted |
| TagMachine.HandleTag | backend/app/core/tg_html.py:166-201 | one tag moves output and stack as the machine says |
| TagMachine.CloseForgotten | backend/app/core/tg_html.py:207-210 | appends the missing closing tags, topmost first, for emitted openings only |
| TelegramHtml.TokensCover | backend/app/core/tg_html.py:159-164 | text and tag slices concatenate back to the scanned string |
| TelegramHtml.EscapedHasNoBrackets | backend/app/core/tg_html.py:75-101 | an escaped attribute value contains no bracket and no double quote |
| TelegramHtml.RenderedIsOneTag | backend/app/core/tg_html.py:75-101 | whatever the attributes, an opening tag is dropped or becomes a single tag of a whitelisted name with no bracket inside |
| TagGuarantees.EveryNameBalances | backend/app/core/tg_html.py:170-210 | for any input, no name is ever closed more often than opened, opens and closes are equal at the end, and every emitted tag is whitelisted |
| TagGuarantees.TextIsKept | backend/app/core/tg_html.py:161-205 | the text slices are emitted unchanged and in order, and nothing else is text |
| TagGuarantees.NestedIsForest | backend/app/core/tg_html.py:154-210 | a token list is properly nested exactly when it is the text of a forest |
| TagGuarantees.NestedStaysNested | backend/app/core/tg_html.py:154-210 | properly nested input yields exactly its forest rendered, properly nested, with nothing left for the closing loop |
| TagNesting.NestedExactly | backend/app/core/tg_html.py:170-210 | for any input, the emitted tags are properly nested if and only if no closing tag crosses an emitted tag opened after its own |
| TagNesting.RunNests | backend/app/core/tg_html.py:170-201 | as long as nothing has crossed, the tags open in the output are the emitted entries of the stack in order; after a crossing no continuation nests |
| TagNesting.CrossedExample | backend/app/core/tg_html.py:170-183 | two crossed tags come out crossed |
| Whitespace.FinalPassIsClean | backend/app/core/tg_html.py:212-216 | no run of three newlines and no whitespace at the ends; the result is the input with nothing but whitespace left out, all other characters in order; and the pass is idempotent |
| Whitespace.ThinnedKeepsInk | backend/app/core/tg_html.py:212-216 | leaving out whitespace keeps every other character, in order |
| Whitespace.CollapseThins | backend/app/core/tg_html.py:215-215 | collapsing leaves out nothing but whitespace |
| Whitespace.CollapseSplits | backend/app/core/tg_html.py:215-215 | text around any character other than a newline is collapsed on its own |
| Whitespace.CollapseNewlines | backend/app/core/tg_html.py:215-215 | a run of n newlines becomes one of at most two |
| Whitespace.CollapseRuns | backend/app/core/tg_html.py:215-215 | a final run of newlines keeps at most two and no run of three is left |
| Whitespace.CollapseFixed | backend/app/core/tg_html.py:215-215 | text without a run of three newlines is left alone |
| Whitespace.StripIsSlice | backend/app/core/tg_html.py:215-215 | trimming takes a slice with clean ends and leaves out only whitespace |
| Outbox.BatchIsTheLeast | backend/app/services/outbox_service.py:80-104 | a claim takes the least due pending rows by due time and identifier, at most the limit, and leaves a due row only when the limit is reached |
| Outbox.OnlyBatch | backend/app/services/outbox_service.py:80-104 | that description determines the batch |
| Outbox.BackoffGrows | backend/app/services/outbox_service.py:25-29 | the delay never shrinks with more attempts and is an hour exactly from the sixth on |
| Outbox.Queue.EnqueueMessage | backend/app/services/outbox_service.py:41-63 | a new pending message, due when asked or at once |
| Outbox.Queue.FetchPending | backend/app/services/outbox_service.py:66-118 | claims exactly the least due pending rows by due time and identifier, marks them and counts the attempt, and changes no other row |
| Outbox.Queue.MarkSent | backend/app/services/outbox_service.py:121-143 | marks the message, or reports it missing |
| Outbox.Queue.MarkFailed | backend/app/services/outbox_service.py:146-175 | due again after 2, 4, 8 or 16 minutes, or failed at the fifth attempt, or reported missing |
| Outbox.Queue.SendAdminAlert | backend/app/services/admin_alert_service.py:159-251 | enqueues, due at once, unless there is no admin or an alert of the key was due within 600 seconds |
| OutboxRuns.AttemptsCountClaims | backend/app/services/outbox_service.py:108-113 | over every run, attempts is the number of batches that held the message and at most five; a message is touched at most ten times |
| OutboxRuns.BatchesAreDisjoint | backend/app/services/outbox_service.py:80-118 | a claimed message is in no later batch unless it failed in between |
| OutboxRuns.RetryWaits | backend/app/services/outbox_service.py:166-173 | the next claim after a failure comes no sooner than the backoff |
| OutboxRuns.AlertRateIsBounded | backend/app/services/admin_alert_service.py:115-156 | over every run, alerts of one key are more than 600 seconds apart, so a window of L seconds holds at most L/600 + 1, although retries move due times |
| OutboxRuns.RunIsOk | backend/app/services/outbox_service.py:66-175 | over every run, status and attempts fit each other and alerts of one key stay apart |

## Left out

- TagMachine.ToTelegramHtml: starts after the rewriting of escaped tags (tg_html.py:113-152); the scanned string is the input.
- TelegramHtml.RenderedIsOneTag: the attribute parser (tg_html.py:58-72) is an arbitrary function of the raw attribute text.
- TagGuarantees.EveryNameBalances: speaks of emitted chunks, not of the joined string, where a text slice may itself contain brackets.
- OutboxRuns.AttemptsCountClaims: workers mark only messages they are dispatching; the source does not check this. The limit of attempts is its default of five, which no caller overrides.
- OutboxRuns.AlertRateIsBounded: the due time of an alert is the clock of the call. In the source it is the database time at the start of the transaction, while the window is measured on the clock of the call, so two alerts can be closer than 600 seconds by the length of a transaction and the bound is looser by as much.
- Reconcile.ReconcileSubscriptions: an answer is a result, a client error or an unavailable provider, as the source distinguishes; any other exception leaves the function and is not modelled. The alert sent on a trip is not part of this model.
- Progress.RefundUndoesDebit: the refund follows the debit at once, so that the balance is the old one; `Progress.RefundCancelsDebit` states the refund across other calls.
- Machine.StepKeepsInv: calls inside one transaction are not interleaved; the source reads `payment.status` and `bonus_paid` without a row lock, and a user object loaded earlier in the same request is not read again under the lock.
- ExtensionService.CreateExtensionKeepsInv: the promo branch (extension_service.py:162-225) reads fields its result type does not have, so no discounted extension is modelled.
- Text: lower-casing is that of ASCII input. Python also folds some other characters to ASCII letters, such as the Kelvin sign to k, so that a status or error code spelt with one of them matches there and not here.
- Texts and keys that no property needs: deactivation reasons, descriptions, `ref_subscription_id`, `key_url`, tariffs and devices, and the raw webhook bodies kept in `meta`.
- Notifications and log rows written by the billing calls; the outbox is modelled by itself.
- HTTP clients, their retries, invoice creation at the providers, Redis, background job wiring and the web framework: foreign I/O, whose results are inputs.
- Free trials, the worker's own expiry of payments and subscriptions, deactivation by an admin, and edits of promo limits by an admin.
- Users, subscriptions and promos deleted under a running call: foreign keys rule most of it out, and the model never deletes a row.
- Bot handlers and keyboards other than the discounted price, the admin application, migrations, seeds, support tickets and admin keys: they would add only easy members.
