/** Payments through external providers: creation, and the webhook that settles them. */
module PaymentService {
  import opened Sums
  import opened Options
  import opened Store
  import opened Invariant
  import Text
  import Discount
  import PromoService
  import ReferralService
  import ExtensionService

  datatype StatusClass = PaidClass | FailedClass | ExpiredClass | UnknownClass

  function Classify(status: string): StatusClass {
    var normalized := Text.Lower(status);
    if normalized in ["paid", "success", "succeeded", "completed"] then PaidClass
    else if normalized in ["failed", "fail", "error"] then FailedClass
    else if normalized in ["expired", "cancelled", "canceled"] then ExpiredClass
    else UnknownClass
  }

  // ----- creation -----

  function CreateTopup(db: Db, user: nat, amount: int, externalId: string): Db {
    if user >= |db.users| || amount < MIN_TOPUP || FindPayment(db.payments, externalId).Some? then db
    else db.(payments := db.payments +
      [Payment(user, None, ForTopup, External, Some(externalId), amount, PayPending, None, None, None)])
  }

  /** The price after an optional promo, and what the payment remembers of it. */
  function Charge(db: Db, price: nat, promo: Option<nat>): (r: (nat, Option<Discounted>))
    ensures r.0 <= price
    ensures r.1.Some? ==> promo == Some(r.1.value.promo) && r.1.value.promo < |db.promos| && r.1.value.original == price
  {
    if promo.Some? && promo.value < |db.promos| && db.promos[promo.value].kind.DiscountPromo? then
      Discount.DiscountBounded(price, db.promos[promo.value].value);
      (Discount.ComputeDiscountedPrice(price, db.promos[promo.value].value), Some(Discounted(promo.value, price)))
    else (price, None)
  }

  function NewSubscription(user: nat, days: nat): Subscription {
    Subscription(user, days, SubPending, None, None, None, None)
  }

  /** The first order of the subscription about to be inserted at position s. */
  function FirstOrder(user: nat, s: nat, amount: nat, discount: Option<Discounted>, provider: Provider,
                      externalId: Option<string>, status: PayStatus, paidAt: Option<int>): Payment {
    Payment(user, Some(s), ForSubscription, provider, externalId, amount, status, paidAt, None, discount)
  }

  function CreateSubscriptionPayment(db: Db, user: nat, days: nat, price: nat, promo: Option<nat>,
                                     externalId: string): Db {
    if user >= |db.users| || FindPayment(db.payments, externalId).Some? then db
    else
      var (amount, discount) := Charge(db, price, promo);
      db.(subs := db.subs + [NewSubscription(user, days)],
          payments := db.payments +
            [FirstOrder(user, |db.subs|, amount, discount, External, Some(externalId), PayPending, None)])
  }

  // ----- webhook -----

  function MarkPaid(db: Db, p: nat, now: int): Db
    requires p < |db.payments|
  {
    db.(payments := db.payments[p := db.payments[p].(status := PayPaid, paidAt := Some(now))])
  }

  predicate IsExtension(p: Payment) { !p.purpose.ForTopup? && p.extension.Some? }

  /** A provider may answer with an empty key identifier, stored as none. */
  function StoredKey(keyId: Option<string>): Option<string> {
    if keyId == Some("") then None else keyId
  }

  function Started(sub: Subscription, keyId: Option<string>, now: int): Subscription {
    sub.(providerId := keyId, status := SubActive, startedAt := Some(now), expiresAt := Some(now + DAY * sub.days))
  }

  /** Any provider failure leaves the payment paid and marks the subscription. */
  function Provision(db: Db, p: nat, answer: Answer, now: int): Db
    requires p < |db.payments|
  {
    var s := db.payments[p].sub;
    if s.None? || s.value >= |db.subs| then db
    else
      var sub := db.subs[s.value];
      db.(subs := db.subs[s.value :=
        if answer.Accepted? then Started(sub, StoredKey(answer.keyId), now) else sub.(status := SubFailedProvider)])
  }

  function CreditTopup(db: Db, p: nat): Db
    requires p < |db.payments|
  {
    Post(db, db.payments[p].user, db.payments[p].amount, Topup, Some(p))
  }

  function RecordPromo(db: Db, p: nat): Db
    requires p < |db.payments|
  {
    var pay := db.payments[p];
    if pay.discount.None? then db
    else PromoService.RecordDiscount(db, pay.discount.value.promo, pay.user, p,
                                     Discount.Max(0, pay.discount.value.original - pay.amount))
  }

  /** The hooks of a paid order; they run whatever became of the key. */
  function Hooks(db: Db, p: nat, now: int): Db
    requires p < |db.payments|
  {
    if db.payments[p].purpose.ForTopup? || db.payments[p].amount == 0 then db
    else RecordPromo(ReferralService.ApplyReferrerBonus(db, p, now), p)
  }

  /** An extension whose provider call dies with an undeclared exception aborts the whole delivery. */
  predicate Aborts(p: Payment, answer: Answer) { IsExtension(p) && answer.Crashed? }

  /** Mark the payment paid and deliver what it pays for. */
  function Settle(db: Db, p: nat, answer: Answer, now: int): (r: Db)
    requires p < |db.payments| && !Aborts(db.payments[p], answer)
    ensures |r.payments| == |db.payments|
  {
    var marked := MarkPaid(db, p, now);
    if IsExtension(db.payments[p]) then ExtensionService.ApplyExtension(marked, p, answer, now)
    else match db.payments[p].purpose
      case ForSubscription => Provision(marked, p, answer, now)
      case ForTopup => CreditTopup(marked, p)
      case ForExtension => marked
  }

  function HandlePaid(db: Db, p: nat, answer: Answer, now: int): Db
    requires p < |db.payments|
  {
    if Aborts(db.payments[p], answer) then db else Hooks(Settle(db, p, answer, now), p, now)
  }

  function HandleFailed(db: Db, p: nat): Db
    requires p < |db.payments|
  {
    var s := db.payments[p].sub;
    var db1 := SetStatus(db, p, PayFailed);
    if s.Some? && s.value < |db.subs| && db.subs[s.value].status.SubPending? then
      db1.(subs := db.subs[s.value := db.subs[s.value].(status := SubFailed)])
    else db1
  }

  function HandleExpired(db: Db, p: nat): Db { SetStatus(db, p, PayExpired) }

  /** One webhook delivery. Only paid and refunded payments are final. */
  function Webhook(db: Db, externalId: string, status: string, answer: Answer, now: int): Db {
    var found := FindPayment(db.payments, externalId);
    if found.None? || !Unpaid(db.payments[found.value]) then db
    else match Classify(status)
      case PaidClass => HandlePaid(db, found.value, answer, now)
      case FailedClass => HandleFailed(db, found.value)
      case ExpiredClass => HandleExpired(db, found.value)
      case UnknownClass => db
  }

  // ----- every step keeps the invariant -----

  lemma CreateTopupKeepsInv(db: Db, user: nat, amount: int, externalId: string)
    requires Inv(db)
    ensures Inv(CreateTopup(db, user, amount, externalId))
  {
    hide LedgerOk, Settled, ReferralsOk, PaymentsOk, PromosOk, SubsOk, InFlightOk, TimesOk, Sum;
    if user < |db.users| && amount >= MIN_TOPUP && FindPayment(db.payments, externalId).None? {
      var row := Payment(user, None, ForTopup, External, Some(externalId), amount, PayPending, None, None, None);
      NewKeepsPayments(db.payments, row, |db.users|, |db.subs|);
      NewKeepsSettled(db.payments, db.ledger, row);
      OrdersGrow(db.payments, row);
      OrdersKeepReferrals(db.referrals, db.ledger, db.payments, db.payments + [row], |db.users|);
      NewKeepsSubs(db.payments, db.subs, row);
      NewKeepsTimes(db.payments, db.subs, row);
      NewKeepsInFlight(db.inFlight, db.payments, db.subs, row);
    }
  }

  /** Inserting a pending subscription together with its first order. */
  lemma FirstOrderKeepsRows(db: Db, row: Payment, days: nat)
    requires Inv(db) && row.purpose.ForSubscription? && row.sub == Some(|db.subs|)
    requires PaymentOk(row, |db.users|, |db.subs| + 1)
    requires row.externalId.Some? ==> FindPayment(db.payments, row.externalId.value).None?
    ensures var subs' := db.subs + [NewSubscription(row.user, days)]; var payments' := db.payments + [row];
            && PaymentsOk(payments', |db.users|, |subs'|)
            && ReferralsOk(db.referrals, db.ledger, payments', |db.users|)
            && SubsOk(payments', subs')
            && InFlightOk(db.inFlight, payments', subs')
            && TimesOk(payments', subs')
  {
    hide LedgerOk, Settled, ReferralsOk, PaymentsOk, PromosOk, SubsOk, InFlightOk, TimesOk, Conserved, Sum;
    var sub := NewSubscription(row.user, days);
    MoreSubsKeepPayments(db.payments, |db.users|, |db.subs|);
    NewKeepsPayments(db.payments, row, |db.users|, |db.subs| + 1);
    OrdersGrow(db.payments, row);
    OrdersKeepReferrals(db.referrals, db.ledger, db.payments, db.payments + [row], |db.users|);
    FirstOrderKeepsSubs(db.payments, db.subs, row, sub, |db.users|);
    NewKeepsTimes(db.payments, db.subs, row);
    NewSubKeepsTimes(db.payments + [row], db.subs, sub);
    NewKeepsInFlight(db.inFlight, db.payments, db.subs, row);
    NewSubKeepsInFlight(db.inFlight, db.payments + [row], db.subs, sub);
  }

  lemma CreateSubscriptionKeepsInv(db: Db, user: nat, days: nat, price: nat, promo: Option<nat>, externalId: string)
    requires Inv(db)
    ensures Inv(CreateSubscriptionPayment(db, user, days, price, promo, externalId))
  {
    hide LedgerOk, Settled, ReferralsOk, PaymentsOk, PromosOk, SubsOk, InFlightOk, TimesOk, Sum;
    if user < |db.users| && FindPayment(db.payments, externalId).None? {
      var (amount, discount) := Charge(db, price, promo);
      var row := FirstOrder(user, |db.subs|, amount, discount, External, Some(externalId), PayPending, None);
      FirstOrderKeepsRows(db, row, days);
      NewKeepsSettled(db.payments, db.ledger, row);
    }
  }

  /** Changing only the status of an external payment p: everything that is not money or time. */
  lemma StatusKeepsRows(db: Db, p: nat, row: Payment)
    requires Inv(db) && p < |db.payments| && db.payments[p].provider.External? && Unpaid(db.payments[p])
    requires SameOrder(db.payments[p], row) && (row.status.PayRefunded? ==> row.purpose.ForExtension?)
    ensures var payments' := db.payments[p := row];
            && PaymentsOk(payments', |db.users|, |db.subs|)
            && ReferralsOk(db.referrals, db.ledger, payments', |db.users|)
            && SubsOk(payments', db.subs)
            && InFlightOk(db.inFlight, payments', db.subs)
            && (!(row.purpose.ForExtension? && row.status.PayPaid?) ==> TimesOk(payments', db.subs))
  {
    hide LedgerOk, Settled, ReferralsOk, PaymentsOk, PromosOk, SubsOk, InFlightOk, TimesOk, Conserved, Sum;
    PaymentShape(db.payments, |db.users|, |db.subs|, p);
    StatusKeepsPayments(db.payments, p, row, |db.users|, |db.subs|);
    OrdersUpdate(db.payments, p, row);
    OrdersKeepReferrals(db.referrals, db.ledger, db.payments, db.payments[p := row], |db.users|);
    StatusKeepsSubs(db.payments, db.subs, p, row);
    StatusKeepsInFlight(db.inFlight, db.payments, db.subs, p, row);
    if !(row.purpose.ForExtension? && row.status.PayPaid?) {
      StatusKeepsTimes(db.payments, db.subs, p, row);
    }
  }

  lemma TopupKeepsInv(db: Db, p: nat, answer: Answer, now: int)
    requires Inv(db) && p < |db.payments| && db.payments[p].provider.External? && Unpaid(db.payments[p])
    requires db.payments[p].purpose.ForTopup? && !Aborts(db.payments[p], answer)
    ensures Inv(Settle(db, p, answer, now))
  {
    hide LedgerOk, Settled, ReferralsOk, PaymentsOk, PromosOk, SubsOk, InFlightOk, TimesOk, Conserved, Sum;
    var row := db.payments[p].(status := PayPaid, paidAt := Some(now));
    PaymentShape(db.payments, |db.users|, |db.subs|, p);
    StatusKeepsRows(db, p, row);
    CreditKeepsMoney(db, p, Topup, row);
  }

  lemma ExtendKeepsInv(db: Db, p: nat, answer: Answer, now: int)
    requires Inv(db) && p < |db.payments| && db.payments[p].provider.External? && Unpaid(db.payments[p])
    requires db.payments[p].purpose.ForExtension? && answer.Accepted?
    ensures Inv(Settle(db, p, answer, now))
  {
    hide LedgerOk, Settled, ReferralsOk, PaymentsOk, PromosOk, SubsOk, InFlightOk, TimesOk, Sum;
    PaymentShape(db.payments, |db.users|, |db.subs|, p);
    ExtensionStarted(db.payments, db.subs, p);
    var paid := db.payments[p].(status := PayPaid, paidAt := Some(now));
    var s, days := paid.extension.value.sub, paid.extension.value.days;
    StatusKeepsRows(db, p, paid);
    StatusKeepsSettled(db.payments, db.ledger, p, paid);
    DaysUpdate(db.payments, p, paid);
    ExtensionService.ExtensionKeepsTimes(db.payments, db.payments[p := paid], db.subs, s, days, now);
    ExtensionService.ExtendedKeepsSubs(db.payments[p := paid], db.subs, db.inFlight, s, days, now);
  }

  lemma RefundKeepsInv(db: Db, p: nat, answer: Answer, now: int)
    requires Inv(db) && p < |db.payments| && db.payments[p].provider.External? && Unpaid(db.payments[p])
    requires db.payments[p].purpose.ForExtension? && answer.Rejected?
    ensures Inv(Settle(db, p, answer, now))
  {
    hide LedgerOk, Settled, ReferralsOk, PaymentsOk, PromosOk, SubsOk, InFlightOk, TimesOk, Conserved, Sum;
    PaymentShape(db.payments, |db.users|, |db.subs|, p);
    var paid := db.payments[p].(status := PayPaid, paidAt := Some(now));
    var refunded := paid.(status := PayRefunded);
    assert db.payments[p := paid][p := refunded] == db.payments[p := refunded];
    StatusKeepsRows(db, p, refunded);
    CreditKeepsMoney(db, p, Refund, refunded);
  }

  lemma ProvisionKeepsInv(db: Db, p: nat, answer: Answer, now: int)
    requires Inv(db) && p < |db.payments| && db.payments[p].provider.External? && Unpaid(db.payments[p])
    requires db.payments[p].purpose.ForSubscription? && !Aborts(db.payments[p], answer)
    ensures Inv(Settle(db, p, answer, now))
  {
    hide LedgerOk, Settled, ReferralsOk, PaymentsOk, PromosOk, SubsOk, InFlightOk, TimesOk, Sum;
    PaymentShape(db.payments, |db.users|, |db.subs|, p);
    FirstOrderNotStarted(db.payments, db.subs, p);
    var paid := db.payments[p].(status := PayPaid, paidAt := Some(now));
    var s := paid.sub.value;
    var sub' := Settle(db, p, answer, now).subs[s];
    var payments' := db.payments[p := paid];
    StatusKeepsRows(db, p, paid);
    StatusKeepsSettled(db.payments, db.ledger, p, paid);
    ActiveStarted(db.payments, db.subs, s);
    ExternalNotInFlight(db.inFlight, payments', db.subs, p);
    SubKeepsInFlight(db.inFlight, payments', db.subs, p, s, sub');
    FirstOrderSubKeepsSubs(payments', db.subs, p, s, sub');
    StartKeepsTimes(payments', db.subs, s, sub');
  }

  lemma RecordPromoKeepsInv(db: Db, p: nat)
    requires Inv(db) && p < |db.payments|
    ensures Inv(RecordPromo(db, p))
  {
    hide Inv, Sum;
    var pay := db.payments[p];
    if pay.discount.Some? {
      PromoService.RecordDiscountKeepsInv(db, pay.discount.value.promo, pay.user, p,
                                          Discount.Max(0, pay.discount.value.original - pay.amount));
    }
  }

  lemma HooksKeepInv(db: Db, p: nat, now: int)
    requires Inv(db) && p < |db.payments| && !Unpaid(db.payments[p])
    ensures Inv(Hooks(db, p, now))
  {
    hide Inv, RecordPromo, Sum;
    ReferralService.BonusKeepsInv(db, p, now);
    RecordPromoKeepsInv(ReferralService.ApplyReferrerBonus(db, p, now), p);
  }

  lemma SettledIsClosed(db: Db, p: nat, answer: Answer, now: int)
    requires p < |db.payments| && !Aborts(db.payments[p], answer)
    ensures !Unpaid(Settle(db, p, answer, now).payments[p])
  {
  }

  lemma HandlePaidKeepsInv(db: Db, p: nat, answer: Answer, now: int)
    requires Inv(db) && p < |db.payments| && db.payments[p].provider.External? && Unpaid(db.payments[p])
    ensures Inv(HandlePaid(db, p, answer, now))
  {
    hide Inv, Hooks, Settle;
    InvShape(db, p);
    if !Aborts(db.payments[p], answer) {
      SettledIsClosed(db, p, answer, now);
      match db.payments[p].purpose {
        case ForSubscription => ProvisionKeepsInv(db, p, answer, now);
        case ForTopup => TopupKeepsInv(db, p, answer, now);
        case ForExtension =>
          if answer.Accepted? { ExtendKeepsInv(db, p, answer, now); } else { RefundKeepsInv(db, p, answer, now); }
      }
      HooksKeepInv(Settle(db, p, answer, now), p, now);
    }
  }

  lemma HandleFailedKeepsInv(db: Db, p: nat)
    requires Inv(db) && p < |db.payments| && db.payments[p].provider.External? && Unpaid(db.payments[p])
    ensures Inv(HandleFailed(db, p))
  {
    hide LedgerOk, Settled, ReferralsOk, PaymentsOk, PromosOk, SubsOk, InFlightOk, TimesOk, Sum;
    PaymentShape(db.payments, |db.users|, |db.subs|, p);
    var row := db.payments[p].(status := PayFailed);
    StatusKeepsRows(db, p, row);
    StatusKeepsSettled(db.payments, db.ledger, p, row);
    if row.extension.Some? {
      ExtensionStarted(db.payments, db.subs, p);
    } else if row.purpose.ForSubscription? {
      FirstOrderNotStarted(db.payments, db.subs, p);
      var s := row.sub.value;
      var sub' := HandleFailed(db, p).subs[s];
      var payments' := db.payments[p := row];
      ExternalNotInFlight(db.inFlight, payments', db.subs, p);
      SubKeepsInFlight(db.inFlight, payments', db.subs, p, s, sub');
      ActiveStarted(db.payments, db.subs, s);
      FirstOrderSubKeepsSubs(payments', db.subs, p, s, sub');
      StartKeepsTimes(payments', db.subs, s, sub');
    }
  }

  lemma HandleExpiredKeepsInv(db: Db, p: nat)
    requires Inv(db) && p < |db.payments| && db.payments[p].provider.External? && Unpaid(db.payments[p])
    ensures Inv(HandleExpired(db, p))
  {
    hide LedgerOk, Settled, ReferralsOk, PaymentsOk, PromosOk, SubsOk, InFlightOk, TimesOk, Sum;
    var row := db.payments[p].(status := PayExpired);
    StatusKeepsRows(db, p, row);
    StatusKeepsSettled(db.payments, db.ledger, p, row);
  }

  lemma FoundIsExternal(db: Db, externalId: string)
    requires Inv(db) && FindPayment(db.payments, externalId).Some?
    ensures db.payments[FindPayment(db.payments, externalId).value].provider.External?
  {
  }

  lemma WebhookKeepsInv(db: Db, externalId: string, status: string, answer: Answer, now: int)
    requires Inv(db)
    ensures Inv(Webhook(db, externalId, status, answer, now))
  {
    hide Inv, HandlePaid, HandleFailed, HandleExpired, Classify;
    var found := FindPayment(db.payments, externalId);
    if found.Some? && Unpaid(db.payments[found.value]) {
      FoundIsExternal(db, externalId);
      HandlePaidKeepsInv(db, found.value, answer, now);
      HandleFailedKeepsInv(db, found.value);
      HandleExpiredKeepsInv(db, found.value);
    }
  }
}
