/** Extensions of running subscriptions, paid from the balance or by an external provider. */
module ExtensionService {
  import opened Sums
  import opened Options
  import opened Store
  import opened Invariant

  predicate Extendable(db: Db, user: nat, s: nat) {
    && s < |db.subs| && db.subs[s].user == user && db.subs[s].status.SubActive?
    && db.subs[s].providerId.Some? && db.subs[s].providerId.value != ""
  }

  /** The row after the provider has extended the key: days count from now or from
      the current expiry, whichever is later. */
  function Extended(sub: Subscription, days: nat, now: int): Subscription {
    var base := if sub.expiresAt.Some? && sub.expiresAt.value > now then sub.expiresAt.value else now;
    sub.(expiresAt := Some(base + DAY * EffectiveDays(days, sub.days)), status := SubActive)
  }

  function ExtensionOrder(user: nat, s: nat, days: nat, amount: nat, provider: Provider, externalId: Option<string>,
                          status: PayStatus, paidAt: Option<int>): Payment {
    Payment(user, Some(s), ForExtension, provider, externalId, amount, status, paidAt, Some(Extension(s, days)), None)
  }

  function CreateExtensionPayment(db: Db, user: nat, s: nat, days: nat, price: nat, externalId: string): Db {
    if user >= |db.users| || !Extendable(db, user, s) || FindPayment(db.payments, externalId).Some? then db
    else db.(payments := db.payments +
               [ExtensionOrder(user, s, days, price, External, Some(externalId), PayPending, None)])
  }

  /** The provider failed: credit the payer and mark the payment refunded. */
  function RefundExtension(db: Db, p: nat): Db
    requires p < |db.payments|
  {
    var pay := db.payments[p];
    if pay.user >= |db.users| then db
    else Post(SetStatus(db, p, PayRefunded), pay.user, pay.amount, Refund, Some(p))
  }

  /** Only the provider's two declared errors are answered with a refund; any other exception
      leaves the service, so its callers abort before they come here. */
  function ApplyExtension(db: Db, p: nat, answer: Answer, now: int): Db
    requires p < |db.payments| && !answer.Crashed?
  {
    var ext := db.payments[p].extension;
    if ext.None? || ext.value.sub >= |db.subs| then db
    else if answer.Accepted? then
      db.(subs := db.subs[ext.value.sub := Extended(db.subs[ext.value.sub], ext.value.days, now)])
    else RefundExtension(db, p)
  }

  /** Debit, ask the provider, extend or refund: one transaction, undone as a whole by any other exception. */
  function ExtendWithBalance(db: Db, user: nat, s: nat, days: nat, price: nat, answer: Answer, now: int): Db {
    if user >= |db.users| || !Extendable(db, user, s) || db.users[user].balance < price || answer.Crashed? then db
    else
      var p := |db.payments|;
      var order := ExtensionOrder(user, s, days, price, FromBalance, None, PayPaid, Some(now));
      var debited := Post(db.(payments := db.payments + [order]), user, -(price as int), Purchase, Some(p));
      ApplyExtension(debited, p, answer, now)
  }

  /** Inserting an extension order for a started subscription: all but money and time. */
  lemma NewOrderKeepsRows(db: Db, row: Payment)
    requires Inv(db) && PaymentOk(row, |db.users|, |db.subs|) && row.purpose.ForExtension?
    requires db.subs[row.extension.value.sub].startedAt.Some?
    requires row.externalId.Some? ==> FindPayment(db.payments, row.externalId.value).None?
    ensures PaymentsOk(db.payments + [row], |db.users|, |db.subs|)
    ensures ReferralsOk(db.referrals, db.ledger, db.payments + [row], |db.users|)
    ensures SubsOk(db.payments + [row], db.subs)
    ensures InFlightOk(db.inFlight, db.payments + [row], db.subs)
  {
    NewKeepsPayments(db.payments, row, |db.users|, |db.subs|);
    OrdersKeepReferrals(db.referrals, db.ledger, db.payments, db.payments + [row], |db.users|);
    NewKeepsSubs(db.payments, db.subs, row);
    NewKeepsInFlight(db.inFlight, db.payments, db.subs, row);
  }

  lemma CreateExtensionKeepsInv(db: Db, user: nat, s: nat, days: nat, price: nat, externalId: string)
    requires Inv(db)
    ensures Inv(CreateExtensionPayment(db, user, s, days, price, externalId))
  {
    hide LedgerOk, Settled, ReferralsOk, PaymentsOk, PromosOk, SubsOk, InFlightOk, TimesOk, Sum;
    if user < |db.users| && Extendable(db, user, s) && FindPayment(db.payments, externalId).None? {
      var order := ExtensionOrder(user, s, days, price, External, Some(externalId), PayPending, None);
      ActiveStarted(db.payments, db.subs, s);
      NewOrderKeepsRows(db, order);
      NewKeepsSettled(db.payments, db.ledger, order);
      NewKeepsTimes(db.payments, db.subs, order);
    }
  }

  /** An extension that takes effect keeps every promise of paid time. */
  lemma ExtensionKeepsTimes(payments: seq<Payment>, payments': seq<Payment>, subs: seq<Subscription>, s: nat,
                            days: nat, now: int)
    requires TimesOk(payments, subs) && s < |subs| && subs[s].startedAt.Some? && SubOk(subs[s])
    requires forall t: nat, own: nat :: Sum(payments', DaysFor(t, own))
               == Sum(payments, DaysFor(t, own)) + if t == s then EffectiveDays(days, own) else 0
    ensures TimesOk(payments', subs[s := Extended(subs[s], days, now)])
  {
  }

  lemma ExtendedKeepsSubs(payments: seq<Payment>, subs: seq<Subscription>, inFlight: set<Debit>, s: nat, days: nat,
                          now: int)
    requires SubsOk(payments, subs) && InFlightOk(inFlight, payments, subs)
    requires s < |subs| && subs[s].startedAt.Some?
    ensures var subs' := subs[s := Extended(subs[s], days, now)];
            SubsOk(payments, subs') && InFlightOk(inFlight, payments, subs')
  {
  }

  lemma ExtendWithBalanceKeepsInv(db: Db, user: nat, s: nat, days: nat, price: nat, answer: Answer, now: int)
    requires Inv(db)
    ensures Inv(ExtendWithBalance(db, user, s, days, price, answer, now))
  {
    hide LedgerOk, Settled, ReferralsOk, PaymentsOk, PromosOk, SubsOk, InFlightOk, TimesOk, Conserved;
    if user < |db.users| && Extendable(db, user, s) && db.users[user].balance >= price && !answer.Crashed? {
      var p := |db.payments|;
      var order := ExtensionOrder(user, s, days, price, FromBalance, None, PayPaid, Some(now));
      var db1 := Post(db.(payments := db.payments + [order]), user, -(price as int), Purchase, Some(p));
      ActiveStarted(db.payments, db.subs, s);
      NewOrderKeepsRows(db, order);
      DebitKeepsMoney(db, user, price, order);
      if answer.Accepted? {
        DaysAppend(db.payments, order);
        ExtensionKeepsTimes(db.payments, db1.payments, db.subs, s, days, now);
        ExtendedKeepsSubs(db1.payments, db.subs, db.inFlight, s, days, now);
      } else {
        var refunded := order.(status := PayRefunded);
        assert db1.payments[p := refunded] == db.payments + [refunded];
        CreditKeepsMoney(db1, p, Refund, refunded);
        NewOrderKeepsRows(db, refunded);
        NewKeepsTimes(db.payments, db.subs, refunded);
      }
    }
  }
}
