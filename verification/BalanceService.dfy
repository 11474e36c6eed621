/** The internal balance: admin adjustments, and purchases split at the commit
    between the debit and the call to the VPN provider. */
module BalanceService {
  import opened Sums
  import opened Options
  import opened Store
  import opened Invariant
  import PaymentService

  function Adjust(db: Db, user: nat, amount: int): Db {
    if user >= |db.users| || amount == 0 || db.users[user].balance + amount < 0 then db
    else Post(db, user, amount, AdminAdjust, None)
  }

  /** What phase one of a purchase leaves in its local variables. */
  function DebitOf(db: Db, user: nat, days: nat, price: nat, promo: Option<nat>): Debit {
    var charge := PaymentService.Charge(db, price, promo).0;
    var balance := if user < |db.users| then db.users[user].balance else 0;
    Debit(user, |db.subs|, |db.payments|, charge, days, balance - charge)
  }

  /** The balance that the refund of a purchase leaves. */
  function Repaid(db: Db, d: Debit): int
    requires d.user < |db.users|
  {
    if d.price == 0 then db.users[d.user].balance else d.seen + d.price
  }

  predicate Affordable(db: Db, user: nat, price: nat, promo: Option<nat>) {
    user < |db.users| && db.users[user].balance >= PaymentService.Charge(db, price, promo).0
  }

  /** Phase one up to the promo: pending subscription, paid order, debit and its ledger row. */
  function Debited(db: Db, user: nat, days: nat, price: nat, promo: Option<nat>, now: int): Db {
    var (amount, discount) := PaymentService.Charge(db, price, promo);
    var order := PaymentService.FirstOrder(user, |db.subs|, amount, discount, FromBalance, None, PayPaid, Some(now));
    var db1 := db.(subs := db.subs + [PaymentService.NewSubscription(user, days)],
                   payments := db.payments + [order],
                   inFlight := db.inFlight + {DebitOf(db, user, days, price, promo)});
    Post(db1, user, -(amount as int), Purchase, Some(|db.payments|))
  }

  function StartPurchase(db: Db, user: nat, days: nat, price: nat, promo: Option<nat>, now: int): Db {
    if !Affordable(db, user, price, promo) then db
    else PaymentService.RecordPromo(Debited(db, user, days, price, promo, now), |db.payments|)
  }

  /** Phase two, for a purchase in flight: activate, refund, or (the process having
      died with another exception) nothing. The refund locks the user's row again, but the
      session answers with the object it already holds, as the debit left it. */
  function FinishPurchase(db: Db, d: Debit, answer: Answer, now: int): Db {
    if d !in db.inFlight || d.sub >= |db.subs| || d.payment >= |db.payments| then db
    else
      var done := db.(inFlight := db.inFlight - {d});
      match answer
      case Accepted(keyId) =>
        done.(subs := db.subs[d.sub := PaymentService.Started(db.subs[d.sub], keyId, now)])
      case Rejected =>
        var failed := SetStatus(done, d.payment, PayRefunded);
        PostSeen(failed.(subs := db.subs[d.sub := db.subs[d.sub].(status := SubFailed)]),
                 d.user, d.seen, d.price, Refund, Some(d.payment))
      case Crashed => done
  }

  lemma AdjustKeepsInv(db: Db, user: nat, amount: int)
    requires Inv(db)
    ensures Inv(Adjust(db, user, amount))
  {
    hide LedgerOk, Settled, ReferralsOk, PaymentsOk, PromosOk, SubsOk, InFlightOk, TimesOk, Sum;
    if user < |db.users| && amount != 0 && db.users[user].balance + amount >= 0 {
      PostKeepsLedger(db, user, amount, AdminAdjust, None);
      PostKeepsSettled(db, user, amount, AdminAdjust, None);
      PostKeepsReferrals(db, user, amount, AdminAdjust, None);
      PostTotals(db, user, amount, AdminAdjust, None);
    }
  }

  lemma NewDebitKeepsInFlight(inFlight: set<Debit>, payments: seq<Payment>, subs: seq<Subscription>, d: Debit)
    requires InFlightOk(inFlight, payments, subs) && DebitOk(d, payments, subs)
    requires forall e | e in inFlight :: e.payment != d.payment
    ensures InFlightOk(inFlight + {d}, payments, subs)
  {
  }

  lemma InFlightOld(inFlight: set<Debit>, payments: seq<Payment>, subs: seq<Subscription>)
    requires InFlightOk(inFlight, payments, subs)
    ensures forall e | e in inFlight :: DebitOk(e, payments, subs)
  {
  }

  lemma DebitedKeepsInv(db: Db, user: nat, days: nat, price: nat, promo: Option<nat>, now: int)
    requires Inv(db) && Affordable(db, user, price, promo)
    ensures Inv(Debited(db, user, days, price, promo, now))
  {
    hide LedgerOk, Settled, ReferralsOk, PaymentsOk, PromosOk, SubsOk, InFlightOk, TimesOk, Conserved, Sum;
    var (amount, discount) := PaymentService.Charge(db, price, promo);
    var order := PaymentService.FirstOrder(user, |db.subs|, amount, discount, FromBalance, None, PayPaid, Some(now));
    var d := DebitOf(db, user, days, price, promo);
    PaymentService.FirstOrderKeepsRows(db, order, days);
    DebitKeepsMoney(db, user, amount, order);
    InFlightOld(db.inFlight, db.payments, db.subs);
    NewDebitKeepsInFlight(db.inFlight, db.payments + [order],
                          db.subs + [PaymentService.NewSubscription(user, days)], d);
  }

  lemma StartPurchaseKeepsInv(db: Db, user: nat, days: nat, price: nat, promo: Option<nat>, now: int)
    requires Inv(db)
    ensures Inv(StartPurchase(db, user, days, price, promo, now))
  {
    hide Inv, PaymentService.RecordPromo, Sum;
    if Affordable(db, user, price, promo) {
      DebitedKeepsInv(db, user, days, price, promo, now);
      PaymentService.RecordPromoKeepsInv(Debited(db, user, days, price, promo, now), |db.payments|);
    }
  }

  /** The rows of a finished purchase: nobody else in flight shares its subscription or payment. */
  lemma FinishKeepsInFlight(inFlight: set<Debit>, payments: seq<Payment>, subs: seq<Subscription>, d: Debit,
                            row: Payment, sub: Subscription)
    requires InFlightOk(inFlight, payments, subs) && SubsOk(payments, subs) && d in inFlight
    requires DebitOk(d, payments, subs)
    ensures InFlightOk(inFlight - {d}, payments[d.payment := row], subs[d.sub := sub])
  {
  }

  lemma FinishPurchaseKeepsInv(db: Db, d: Debit, answer: Answer, now: int)
    requires Inv(db)
    ensures Inv(FinishPurchase(db, d, answer, now))
  {
    hide LedgerOk, Settled, ReferralsOk, PaymentsOk, PromosOk, SubsOk, InFlightOk, TimesOk, Conserved, Sum;
    if d in db.inFlight {
      InFlightOld(db.inFlight, db.payments, db.subs);
      assert DebitOk(d, db.payments, db.subs);
      PaymentShape(db.payments, |db.users|, |db.subs|, d.payment);
      var db' := FinishPurchase(db, d, answer, now);
      var row, sub := db'.payments[d.payment], db'.subs[d.sub];
      assert db.payments[d.payment := row] == db'.payments;
      assert db.subs[d.sub := sub] == db'.subs;
      FinishKeepsInFlight(db.inFlight, db.payments, db.subs, d, row, sub);
      if !answer.Crashed? {
        ActiveStarted(db.payments, db.subs, d.sub);
        StatusKeepsPayments(db.payments, d.payment, row, |db.users|, |db.subs|);
        StatusKeepsSubs(db.payments, db.subs, d.payment, row);
        FirstOrderSubKeepsSubs(db'.payments, db.subs, d.payment, d.sub, sub);
        StatusKeepsTimes(db.payments, db.subs, d.payment, row);
        StartKeepsTimes(db'.payments, db.subs, d.sub, sub);
      }
      if answer.Rejected? {
        SeenCreditKeepsMoney(db, d.payment, d.seen, row);
      }
    }
  }
}
