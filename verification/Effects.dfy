/** What one call achieves, seen from outside: who is paid, which rows change and by
    how much. The invariant says what never goes wrong; this says what does happen. */
module Effects {
  import opened Sums
  import opened Options
  import opened Store
  import opened Invariant
  import opened Machine
  import opened Statuses
  import opened OrderOutcomes
  import Discount
  import PromoService
  import ReferralService
  import ExtensionService
  import PaymentService
  import BalanceService
  import Progress

  // ----- a paid delivery -----

  /** A delivery that settles the open payment p. */
  ghost predicate Settling(db: Db, p: nat, externalId: string, status: string, answer: Answer) {
    && Inv(db) && FindPayment(db.payments, externalId) == Some(p) && p < |db.payments| && Unpaid(db.payments[p])
    && SaysPaid(status)
    && !(!db.payments[p].purpose.ForTopup? && db.payments[p].extension.Some? && answer.Crashed?)
  }

  /** The extension could not be delivered, so its price goes back to the payer. */
  predicate Returned(pay: Payment, answer: Answer) { pay.extension.Some? && !answer.Accepted? }

  predicate RealOrder(pay: Payment) { !pay.purpose.ForTopup? && pay.amount > 0 }

  lemma SettlingIsPaid(db: Db, p: nat, externalId: string, status: string, answer: Answer, now: int)
    requires Settling(db, p, externalId, status, answer)
    ensures PaymentService.Webhook(db, externalId, status, answer, now)
            == PaymentService.Hooks(PaymentService.Settle(db, p, answer, now), p, now)
    ensures var pay := db.payments[p];
            && pay.user < |db.users| && (pay.sub.Some? ==> pay.sub.value < |db.subs|)
            && (pay.purpose.ForTopup? ==> pay.sub.None? && pay.extension.None?)
            && (pay.purpose.ForSubscription? ==> pay.sub.Some? && pay.extension.None?)
            && (pay.purpose.ForExtension? ==> pay.extension.Some? && pay.sub == Some(pay.extension.value.sub))
            && (pay.discount.Some? ==> pay.amount <= pay.discount.value.original)
  {
    hide Inv, PaymentService.Classify, PaymentService.Settle, PaymentService.Hooks, SaysPaid, SaysFailed, SaysExpired;
    StatusIsRead(status);
    InvShape(db, p);
  }

  /** What settling does before the hooks run. */
  lemma SettleOutcome(db: Db, p: nat, answer: Answer, now: int)
    requires p < |db.payments| && db.payments[p].user < |db.users|
    requires !PaymentService.Aborts(db.payments[p], answer)
    requires var pay := db.payments[p];
             && (pay.purpose.ForTopup? ==> pay.extension.None?)
             && (pay.sub.Some? ==> pay.sub.value < |db.subs|)
             && (pay.purpose.ForSubscription? ==> pay.sub.Some? && pay.extension.None?)
             && (pay.purpose.ForExtension? ==> pay.extension.Some? && pay.sub == Some(pay.extension.value.sub))
    ensures var pay := db.payments[p]; var db' := PaymentService.Settle(db, p, answer, now);
            && db'.payments == db.payments[p :=
                 pay.(paidAt := Some(now), status := if Returned(pay, answer) then PayRefunded else PayPaid)]
            && db'.users == (if pay.purpose.ForTopup? || Returned(pay, answer)
                             then db.users[pay.user := User(db.users[pay.user].balance + pay.amount)] else db.users)
            && db'.referrals == db.referrals && db'.promos == db.promos && db'.activations == db.activations
            && db'.subs == (match pay.purpose
                            case ForTopup => db.subs
                            case ForSubscription =>
                              var was := db.subs[pay.sub.value];
                              db.subs[pay.sub.value :=
                                if answer.Accepted?
                                then PaymentService.Started(was, PaymentService.StoredKey(answer.keyId), now)
                                else was.(status := SubFailedProvider)]
                            case ForExtension =>
                              if answer.Accepted? then
                                var was := db.subs[pay.sub.value];
                                db.subs[pay.sub.value := ExtensionService.Extended(was, pay.extension.value.days, now)]
                              else db.subs)
  {
    hide Sum;
  }

  /** The referral row that a real order of its referee flags: unpaid, and the only one. */
  lemma BonusRowIs(db: Db, p: nat)
    requires ReferralsOk(db.referrals, db.ledger, db.payments, |db.users|) && p < |db.payments|
    ensures forall r | 0 <= r < |db.referrals| ::
              ReferralService.BonusRow(db, p) == Some(r) <==>
                && !db.referrals[r].bonusPaid && db.referrals[r].referee == db.payments[p].user
                && RealOrder(db.payments[p])
  {
    hide Sum;
    var found := FindReferral(db.referrals, db.payments[p].user);
    forall r | 0 <= r < |db.referrals| && db.referrals[r].referee == db.payments[p].user ensures found == Some(r) {
    }
  }

  /** The referral that order p is about to pay, through the order's referrer. */
  function BonusTo(db: Db, p: nat, u: nat): int {
    var r := ReferralService.BonusRow(db, p);
    if r.Some? && db.referrals[r.value].referrer == u then REFERRAL_BONUS else 0
  }

  lemma SettleKeepsBonusRow(db: Db, p: nat, answer: Answer, now: int)
    requires p < |db.payments| && !PaymentService.Aborts(db.payments[p], answer)
    ensures ReferralService.BonusRow(PaymentService.Settle(db, p, answer, now), p) == ReferralService.BonusRow(db, p)
  {
    hide Sum;
  }

  /** The hooks: one bonus, and one promo use, at most. */
  lemma HooksOutcome(db: Db, p: nat, now: int)
    requires p < |db.payments|
    ensures var pay, r := db.payments[p], ReferralService.BonusRow(db, p);
            var db' := PaymentService.Hooks(db, p, now);
            && db'.payments == db.payments && db'.subs == db.subs && |db'.users| == |db.users|
            && (forall u | 0 <= u < |db.users| :: db'.users[u].balance == db.users[u].balance + BonusTo(db, p, u))
            && db'.referrals == (if r.None? then db.referrals
                                 else
                                   var row := db.referrals[r.value];
                                   db.referrals[r.value := row.(bonusPaid := true, bonusPaidAt := Some(now),
                                                                firstPurchase := Some(p))])
            && db'.activations == (if !RealOrder(pay) || !PromoCounts(db, pay) then db.activations
                                   else
                                     var used := pay.discount.value;
                                     var saved := Discount.Max(0, used.original - pay.amount);
                                     db.activations + [Activation(used.promo, pay.user, Some(p), saved)])
  {
    hide Sum;
  }

  /** The promo the order used is still there and within both limits. */
  predicate PromoCounts(db: Db, pay: Payment) {
    && pay.discount.Some? && pay.discount.value.promo < |db.promos|
    && !PromoService.Exhausted(db.promos[pay.discount.value.promo])
    && !PromoService.UsedUp(db, pay.discount.value.promo, pay.user)
  }

  lemma SettlingBonus(db: Db, p: nat, externalId: string, status: string, answer: Answer)
    requires Settling(db, p, externalId, status, answer)
    ensures forall r | 0 <= r < |db.referrals| ::
              ReferralService.BonusRow(db, p) == Some(r) <==>
                && !db.referrals[r].bonusPaid && db.referrals[r].referee == db.payments[p].user
                && RealOrder(db.payments[p])
  {
    hide LedgerOk, Settled, ReferralsOk, PaymentsOk, PromosOk, SubsOk, InFlightOk, TimesOk, Conserved, Sum;
    BonusRowIs(db, p);
  }

  /** A paid delivery closes exactly its own payment: refunded when an extension could not be
      delivered, paid otherwise; and credits exactly the payer and the referrer. */
  lemma DeliveryPays(db: Db, p: nat, externalId: string, status: string, answer: Answer, now: int)
    requires Settling(db, p, externalId, status, answer)
    ensures var pay := db.payments[p]; var db' := PaymentService.Webhook(db, externalId, status, answer, now);
            && |db'.payments| == |db.payments| && |db'.users| == |db.users|
            && db'.payments[p].status == (if Returned(pay, answer) then PayRefunded else PayPaid)
            && db'.payments[p].paidAt == Some(now)
            && (forall q | 0 <= q < |db.payments| && q != p :: db'.payments[q] == db.payments[q])
            && (forall u | 0 <= u < |db.users| ::
                  db'.users[u].balance - db.users[u].balance
                  == (if u == pay.user && (pay.purpose.ForTopup? || Returned(pay, answer)) then pay.amount else 0)
                    + BonusTo(db, p, u))
  {
    hide Inv, PaymentService.Settle, PaymentService.Hooks, PaymentService.Webhook, PaymentService.Classify,
      ReferralService.BonusRow;
    SettlingIsPaid(db, p, externalId, status, answer, now);
    SettleOutcome(db, p, answer, now);
    SettleKeepsBonusRow(db, p, answer, now);
    HooksOutcome(PaymentService.Settle(db, p, answer, now), p, now);
  }

  /** The delivery of a real order is what pays its referral, of any amount and whether or not
      the order was refunded or its key was issued; no other delivery pays one. */
  lemma DeliveryPaysReferral(db: Db, p: nat, externalId: string, status: string, answer: Answer, now: int)
    requires Settling(db, p, externalId, status, answer)
    ensures var pay := db.payments[p]; var db' := PaymentService.Webhook(db, externalId, status, answer, now);
            && |db'.referrals| == |db.referrals|
            && (forall r | 0 <= r < |db.referrals| ::
                  db'.referrals[r].bonusPaid <==>
                    db.referrals[r].bonusPaid || (db.referrals[r].referee == pay.user && RealOrder(pay)))
            && (forall r | 0 <= r < |db.referrals| && db'.referrals[r].bonusPaid && !db.referrals[r].bonusPaid ::
                  db'.referrals[r].firstPurchase == Some(p)
                    && BonusTo(db, p, db.referrals[r].referrer) == REFERRAL_BONUS)
  {
    hide Inv, PaymentService.Settle, PaymentService.Hooks, PaymentService.Webhook, PaymentService.Classify,
      ReferralService.BonusRow;
    SettlingIsPaid(db, p, externalId, status, answer, now);
    SettleOutcome(db, p, answer, now);
    SettleKeepsBonusRow(db, p, answer, now);
    SettlingBonus(db, p, externalId, status, answer);
    HooksOutcome(PaymentService.Settle(db, p, answer, now), p, now);
  }

  /** The delivery records the use of the order's promo exactly when a real order still finds
      it within its limits, and what it records makes up the price paid to the original one. */
  lemma DeliveryRecordsPromo(db: Db, p: nat, externalId: string, status: string, answer: Answer, now: int)
    requires Settling(db, p, externalId, status, answer)
    ensures var pay := db.payments[p]; var db' := PaymentService.Webhook(db, externalId, status, answer, now);
            if RealOrder(pay) && PromoCounts(db, pay) then
              && |db'.activations| == |db.activations| + 1 && db.activations <= db'.activations
              && var a := db'.activations[|db.activations|];
                 a.promo == pay.discount.value.promo && a.user == pay.user && a.payment == Some(p)
                 && a.amount + pay.amount == pay.discount.value.original
            else db'.activations == db.activations
  {
    hide Inv, PaymentService.Settle, PaymentService.Hooks, PaymentService.Webhook, PaymentService.Classify,
      ReferralService.BonusRow;
    SettlingIsPaid(db, p, externalId, status, answer, now);
    SettleOutcome(db, p, answer, now);
    HooksOutcome(PaymentService.Settle(db, p, answer, now), p, now);
  }

  /** What the delivery does to subscriptions: a new one runs its days from now, an extended
      one gains its days on top of what is left, and no other row changes. */
  lemma DeliveryServes(db: Db, p: nat, externalId: string, status: string, answer: Answer, now: int)
    requires Settling(db, p, externalId, status, answer)
    ensures var pay := db.payments[p]; var db' := PaymentService.Webhook(db, externalId, status, answer, now);
            && |db'.subs| == |db.subs|
            && (forall s | 0 <= s < |db.subs| && pay.sub != Some(s) :: db'.subs[s] == db.subs[s])
            && (pay.sub.Some? ==>
                  var was, sub := db.subs[pay.sub.value], db'.subs[pay.sub.value];
                  if pay.purpose.ForSubscription? && answer.Accepted? then
                    sub.status.SubActive? && sub.startedAt == Some(now) && sub.expiresAt == Some(now + 86400 * was.days)
                  else if pay.purpose.ForSubscription? then
                    sub.status.SubFailedProvider? && sub.expiresAt.None?
                  else if answer.Accepted? then
                    sub.status.SubActive? && sub.startedAt == was.startedAt
                    && sub.expiresAt == Some(Later(was.expiresAt, now)
                                             + 86400 * BoughtDays(pay.extension.value.days, was.days))
                  else sub == was)
  {
    hide Inv, PaymentService.Settle, PaymentService.Hooks, PaymentService.Webhook, PaymentService.Classify,
      ReferralService.BonusRow;
    SettlingIsPaid(db, p, externalId, status, answer, now);
    SettleOutcome(db, p, answer, now);
    if db.payments[p].purpose.ForSubscription? {
      NothingBought(db, p);
    }
    HooksOutcome(PaymentService.Settle(db, p, answer, now), p, now);
  }

  /** The subscription of an open first order has neither started nor an expiry. */
  lemma NothingBought(db: Db, p: nat)
    requires Inv(db) && p < |db.payments| && Unpaid(db.payments[p]) && db.payments[p].purpose.ForSubscription?
    ensures db.payments[p].sub.Some? && db.payments[p].sub.value < |db.subs|
    ensures db.subs[db.payments[p].sub.value].startedAt.None? && db.subs[db.payments[p].sub.value].expiresAt.None?
  {
    Progress.NotYetStarted(db, p);
    hide LedgerOk, Settled, ReferralsOk, PaymentsOk, PromosOk, InFlightOk, TimesOk, Sum;
    assert SubOk(db.subs[db.payments[p].sub.value]);
  }

  // ----- a balance purchase, from the debit to its answer -----

  lemma StartedInFlight(db: Db, user: nat, days: nat, price: nat, promo: Option<nat>, now: int)
    requires Inv(db) && BalanceService.Affordable(db, user, price, promo)
    ensures var d := BalanceService.DebitOf(db, user, days, price, promo);
            var db1 := BalanceService.StartPurchase(db, user, days, price, promo, now);
            && Inv(db1) && d in db1.inFlight && d.user == user && d.days == days
            && d.price == PaymentService.Charge(db, price, promo).0 && d.seen == db.users[user].balance - d.price
  {
    BalanceService.StartPurchaseKeepsInv(db, user, days, price, promo, now);
    hide Inv, Sum;
    Progress.DebitedRows(db, user, days, price, promo, now);
  }

  lemma AcceptedOutcome(db: Db, d: Debit, keyId: Option<string>, now: int)
    requires d in db.inFlight && DebitOk(d, db.payments, db.subs)
    ensures var db' := BalanceService.FinishPurchase(db, d, Accepted(keyId), now);
            && |db'.subs| == |db.subs|
            && db' == db.(inFlight := db.inFlight - {d}, subs := db'.subs)
            && var sub := db'.subs[d.sub];
               sub.status.SubActive? && sub.providerId == keyId && sub.startedAt == Some(now)
               && sub.expiresAt == Some(now + 86400 * d.days)
  {
  }

  lemma RejectedOutcome(db: Db, d: Debit, now: int)
    requires d in db.inFlight && DebitOk(d, db.payments, db.subs) && d.user < |db.users|
    ensures var db' := BalanceService.FinishPurchase(db, d, Rejected, now);
            && |db'.subs| == |db.subs| && |db'.payments| == |db.payments| && db'.inFlight == db.inFlight - {d}
            && db'.referrals == db.referrals && db'.activations == db.activations
            && db'.users == db.users[d.user := User(BalanceService.Repaid(db, d))]
            && db'.payments[d.payment] == db.payments[d.payment].(status := PayRefunded)
            && db'.subs[d.sub].status.SubFailed?
  {
  }

  /** However the database has moved on since the debit, its answer finds the purchase: the
      subscription starts, or the order is refunded and its rows sum to zero, or nothing is
      given for the price. */
  lemma FinishOutcome(db: Db, d: Debit, answer: Answer, now: int)
    requires Inv(db) && d in db.inFlight
    ensures var db' := BalanceService.FinishPurchase(db, d, answer, now);
            && d !in db'.inFlight && d.user < |db.users| && d.sub < |db'.subs| && d.payment < |db'.payments|
            && db'.referrals == db.referrals && db'.activations == db.activations
            && match answer
               case Accepted(keyId) =>
                 && db'.users == db.users && db'.ledger == db.ledger && db'.payments == db.payments
                 && var sub := db'.subs[d.sub];
                    sub.status.SubActive? && sub.providerId == keyId && sub.startedAt == Some(now)
                    && sub.expiresAt == Some(now + 86400 * d.days)
               case Rejected =>
                 && db'.users == db.users[d.user := User(BalanceService.Repaid(db, d))]
                 && db'.payments[d.payment].status.PayRefunded? && db'.subs[d.sub].status.SubFailed?
                 && Sum(db.ledger, OfPayment(d.payment)) == -(d.price as int)
                 && Sum(db'.ledger, OfPayment(d.payment)) == 0
               case Crashed =>
                 && db' == db.(inFlight := db.inFlight - {d})
                 && db'.payments[d.payment].status.PayPaid? && db'.subs[d.sub].status.SubPending?
                 && Sum(db'.ledger, OfPayment(d.payment)) == -(d.price as int)
  {
    hide Inv, Sum;
    InFlightShape(db, d);
    SettledAt(db, d.payment);
    match answer
    case Accepted(keyId) => AcceptedOutcome(db, d, keyId, now);
    case Rejected =>
      BalanceService.FinishPurchaseKeepsInv(db, d, Rejected, now);
      RejectedOutcome(db, d, now);
      SettledAt(BalanceService.FinishPurchase(db, d, Rejected, now), d.payment);
    case Crashed =>
  }

  lemma SettledAt(db: Db, p: nat)
    requires Inv(db) && p < |db.payments|
    ensures Sum(db.ledger, OfPayment(p)) == Due()(db.payments[p])
  {
    hide LedgerOk, ReferralsOk, PaymentsOk, PromosOk, SubsOk, InFlightOk, TimesOk, Conserved, Sum;
  }

  /** A balance purchase across any run of other calls between its two phases. */
  lemma PurchaseCompletes(db: Db, user: nat, days: nat, price: nat, promo: Option<nat>, now: int,
                          between: seq<Event>, answer: Answer, later: int)
    requires Inv(db) && BalanceService.Affordable(db, user, price, promo)
    requires forall e | e in between ::
               !(e.FinishPurchase? && e.debit == BalanceService.DebitOf(db, user, days, price, promo))
    ensures var d := BalanceService.DebitOf(db, user, days, price, promo);
            var db1 := RunFrom(BalanceService.StartPurchase(db, user, days, price, promo, now), between);
            var db2 := BalanceService.FinishPurchase(db1, d, answer, later);
            && user < |db1.users| && d.sub < |db2.subs| && d.payment < |db2.payments|
            && (answer.Accepted? ==>
                  db2.users == db1.users && db2.payments[d.payment].status.PayPaid? && db2.subs[d.sub].status.SubActive?
                  && db2.subs[d.sub].expiresAt == Some(later + 86400 * days))
            && (answer.Rejected? ==>
                  (if d.price == 0 then db2.users == db1.users
                   else db2.users == db1.users[user := User(db.users[user].balance)])
                  && db2.payments[d.payment].status.PayRefunded? && Sum(db2.ledger, OfPayment(d.payment)) == 0)
            && (answer.Crashed? ==>
                  db2.users == db1.users && db2.payments[d.payment].status.PayPaid?
                    && db2.subs[d.sub].status.SubPending?
                  && Sum(db2.ledger, OfPayment(d.payment)) == -(PaymentService.Charge(db, price, promo).0 as int))
  {
    hide Inv, Sum, RunFrom, BalanceService.StartPurchase, BalanceService.FinishPurchase, BalanceService.DebitOf;
    var d := BalanceService.DebitOf(db, user, days, price, promo);
    var start := BalanceService.StartPurchase(db, user, days, price, promo, now);
    StartedInFlight(db, user, days, price, promo, now);
    RunFromKeepsInv(start, between);
    Progress.InFlightThroughRun(start, between, d);
    FinishOutcome(RunFrom(start, between), d, answer, later);
    InFlightShape(RunFrom(start, between), d);
  }

  // ----- an extension from the balance -----

  /** All or nothing: the price for the days, or a paid-and-returned order, or no trace. */
  lemma ExtendWithBalanceOutcome(db: Db, user: nat, s: nat, days: nat, price: nat, answer: Answer, now: int)
    requires user < |db.users| && ExtensionService.Extendable(db, user, s) && db.users[user].balance >= price
    ensures var db' := ExtensionService.ExtendWithBalance(db, user, s, days, price, answer, now);
            var n, was := |db.ledger|, db.subs[s];
            match answer
            case Accepted(_) =>
              && db'.users == db.users[user := User(db.users[user].balance - price)]
              && |db'.ledger| == n + 1 && db'.ledger[..n] == db.ledger && db'.ledger[n].amount == -(price as int)
              && |db'.subs| == |db.subs|
              && (forall t | 0 <= t < |db.subs| && t != s :: db'.subs[t] == db.subs[t])
              && db'.subs[s].expiresAt == Some(Later(was.expiresAt, now) + 86400 * BoughtDays(days, was.days))
              && db'.subs[s].startedAt == was.startedAt && db'.subs[s].status.SubActive?
              && |db'.payments| == |db.payments| + 1 && db'.payments[|db.payments|].status.PayPaid?
            case Rejected =>
              && db'.users == db.users && db'.subs == db.subs
              && |db'.ledger| == n + 2 && db'.ledger[..n] == db.ledger
              && db'.ledger[n].amount + db'.ledger[n + 1].amount == 0
              && |db'.payments| == |db.payments| + 1 && db'.payments[|db.payments|].status.PayRefunded?
            case Crashed => db' == db
  {
    hide Sum;
  }

  // ----- redeeming a promo again and again -----

  function RedeemMany(db: Db, promo: nat, user: nat, now: int, n: nat): Db {
    if n == 0 then db else PromoService.ApplyPromo(RedeemMany(db, promo, user, now, n - 1), Some(promo), user, now)
  }

  function Min(a: int, b: int): int { if a < b then a else b }

  /** How many more times the user can redeem the promo. */
  function Room(db: Db, promo: nat, user: nat): int
    requires promo < |db.promos|
  {
    var own := db.promos[promo].maxPerUser - Sum(db.activations, OfPromoUser(promo, user));
    if db.promos[promo].maxTotal.None? then own
    else Min(own, db.promos[promo].maxTotal.value - db.promos[promo].current)
  }

  /** Nothing but the limits stands between the user and this balance promo. */
  predicate Open(db: Db, promo: nat, user: nat, now: int) {
    && promo < |db.promos| && db.promos[promo].kind.BalancePromo? && db.promos[promo].isActive
    && (db.promos[promo].validFrom.Some? ==> db.promos[promo].validFrom.value <= now)
    && (db.promos[promo].validUntil.Some? ==> now <= db.promos[promo].validUntil.value)
    && (db.promos[promo].owner.Some? ==> db.promos[promo].owner.value == user)
  }

  lemma RedeemOnce(db: Db, promo: nat, user: nat, now: int)
    requires user < |db.users| && Open(db, promo, user, now)
    ensures var db' := PromoService.ApplyPromo(db, Some(promo), user, now);
            && |db'.users| == |db.users| && Open(db', promo, user, now)
            && db'.promos[promo].value == db.promos[promo].value
            && (Room(db, promo, user) <= 0 ==> db' == db)
            && (Room(db, promo, user) > 0 ==>
                  db'.users == db.users[user := User(db.users[user].balance + db.promos[promo].value)]
                  && Room(db', promo, user) == Room(db, promo, user) - 1)
  {
    hide Sum;
    SumAppend(db.activations, Activation(promo, user, None, db.promos[promo].value), OfPromoUser(promo, user));
  }

  /** Of n attempts exactly as many succeed as both limits leave room for, and each gives the promo's value. */
  lemma {:induction false} RedemptionsAreCounted(db: Db, promo: nat, user: nat, now: int, n: nat)
    requires user < |db.users| && Open(db, promo, user, now) && Room(db, promo, user) >= 0
    ensures var db' := RedeemMany(db, promo, user, now, n); var k := Min(n, Room(db, promo, user));
            && |db'.users| == |db.users| && Open(db', promo, user, now)
            && db'.promos[promo].value == db.promos[promo].value
            && db'.users == db.users[user := User(db.users[user].balance + k * db.promos[promo].value)]
            && Room(db', promo, user) == Room(db, promo, user) - k
  {
    hide Sum, PromoService.ApplyPromo, Room;
    if n > 0 {
      RedemptionsAreCounted(db, promo, user, now, n - 1);
      RedeemOnce(RedeemMany(db, promo, user, now, n - 1), promo, user, now);
      OneMoreTime(Min(n - 1, Room(db, promo, user)), db.promos[promo].value);
    }
  }

  lemma OneMoreTime(k: int, v: int)
    ensures (k + 1) * v == k * v + v
  {
  }

  /** In a reachable state the room is never negative, so the count above always applies. */
  lemma RoomIsNatural(db: Db, promo: nat, user: nat)
    requires Inv(db) && promo < |db.promos|
    ensures Room(db, promo, user) >= 0
  {
    hide LedgerOk, Settled, ReferralsOk, PaymentsOk, SubsOk, InFlightOk, TimesOk, Conserved, Sum;
  }
}
