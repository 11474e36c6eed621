/** What the calls that create, pay and finish orders do to the tables, row by row. Prices
    are given by the rounding they satisfy, and times in seconds. */
module OrderOutcomes {
  import opened Sums
  import opened Options
  import opened Store
  import opened Invariant
  import opened Machine
  import opened Discount
  import opened AccountOutcomes
  import ExtensionService
  import PaymentService
  import BalanceService

  predicate Taken(db: Db, externalId: string) {
    exists i | 0 <= i < |db.payments| :: db.payments[i].externalId == Some(externalId)
  }

  /** The percent that a promo takes off: none for a missing promo or one of another kind. */
  function PercentOff(db: Db, promo: Option<nat>): nat {
    if promo.Some? && promo.value < |db.promos| && db.promos[promo.value].kind == DiscountPromo
    then db.promos[promo.value].value else 0
  }

  /** What the order remembers of a discount promo. */
  function Remembered(db: Db, price: nat, promo: Option<nat>): Option<Discounted> {
    if promo.Some? && promo.value < |db.promos| && db.promos[promo.value].kind == DiscountPromo
    then Some(Discounted(promo.value, price)) else None
  }

  lemma ChargeIsPrice(db: Db, price: nat, promo: Option<nat>, amount: int)
    ensures PriceIs(amount, price, PercentOff(db, promo)) <==> amount == PaymentService.Charge(db, price, promo).0
    ensures PaymentService.Charge(db, price, promo).1 == Remembered(db, price, promo)
  {
    OnlyPrice(price, PercentOff(db, promo), amount);
  }

  lemma PriceExists(price: nat, percent: nat) returns (amount: nat)
    ensures PriceIs(amount, price, percent)
  {
    DiscountBounded(price, percent);
    amount := ComputeDiscountedPrice(price, percent);
    OnlyPrice(price, percent, amount);
  }

  // ----- orders through a provider -----

  /** A top-up of at least ten roubles under a new invoice number is stored as asked for. */
  lemma TopupIsStored(db: Db, user: nat, amount: int, externalId: string)
    requires user < |db.users|
    ensures var db' := Step(db, CreateTopup(user, amount, externalId));
            if amount >= 1000 && !Taken(db, externalId) then
              db' == db.(payments := db.payments + [Payment(user, None, ForTopup, External, Some(externalId), amount,
                                                            PayPending, None, None, None)])
            else db' == db
  {
  }

  /** A first order costs the price less the promo's percent, rounded down, for a new pending
      subscription of the days ordered. */
  lemma SubscriptionIsOrdered(db: Db, user: nat, days: nat, price: nat, promo: Option<nat>, externalId: string,
                              amount: nat)
    requires user < |db.users| && PriceIs(amount, price, PercentOff(db, promo))
    ensures var db' := Step(db, CreateSubscriptionPayment(user, days, price, promo, externalId));
            if !Taken(db, externalId) then
              db' == db.(subs := db.subs + [Subscription(user, days, SubPending, None, None, None, None)],
                         payments := db.payments + [Payment(user, Some(|db.subs|), ForSubscription, External,
                                                            Some(externalId), amount, PayPending, None, None,
                                                            Remembered(db, price, promo))])
            else db' == db
  {
    ChargeIsPrice(db, price, promo, amount);
  }

  /** The subscription is a running one of the user, with a key at the provider. */
  predicate Running(db: Db, user: nat, s: nat) {
    && s < |db.subs| && db.subs[s].user == user && db.subs[s].status == SubActive
    && db.subs[s].providerId != None && db.subs[s].providerId != Some("")
  }

  lemma ExtensionIsOrdered(db: Db, user: nat, s: nat, days: nat, price: nat, externalId: string)
    requires user < |db.users|
    ensures var db' := Step(db, CreateExtensionPayment(user, s, days, price, externalId));
            if Running(db, user, s) && !Taken(db, externalId) then
              db' == db.(payments := db.payments + [Payment(user, Some(s), ForExtension, External, Some(externalId),
                                                            price, PayPending, None, Some(Extension(s, days)), None)])
            else db' == db
  {
  }

  // ----- orders from the balance -----

  /** The use of a discount promo, recorded for a payment if there is room for it. */
  function WithUse(db: Db, used: Option<Discounted>, user: nat, payment: nat, amount: nat): Db {
    if used.None? || used.value.promo >= |db.promos| then db
    else
      var p := db.promos[used.value.promo];
      if (p.maxTotal.Some? && p.current >= p.maxTotal.value) || Uses(db, used.value.promo, user) >= p.maxPerUser then db
      else
        db.(activations := db.activations
            + [Activation(used.value.promo, user, Some(payment), used.value.original - amount)],
            promos := db.promos[used.value.promo := p.(current := p.current + 1)])
  }

  lemma UseIsRecorded(db: Db, p: nat)
    requires p < |db.payments|
    requires var pay := db.payments[p]; pay.discount.Some? ==> pay.amount <= pay.discount.value.original
    ensures PaymentService.RecordPromo(db, p)
            == WithUse(db, db.payments[p].discount, db.payments[p].user, p, db.payments[p].amount)
  {
    if db.payments[p].discount.Some? {
      UsesAreSummed(db, db.payments[p].discount.value.promo, db.payments[p].user);
    }
    hide Sum;
  }

  /** A balance purchase costs the price less the promo's percent, rounded down. It is refused
      exactly when the balance is smaller; otherwise the balance falls by that amount, one ledger row
      shows it, the order is paid, the subscription waits, and the promo's use is recorded if
      there is room. */
  lemma PurchaseIsDebited(db: Db, user: nat, days: nat, price: nat, promo: Option<nat>, now: int, amount: nat)
    requires user < |db.users| && PriceIs(amount, price, PercentOff(db, promo))
    ensures var db' := Step(db, StartPurchase(user, days, price, promo, now));
            var s, p, after := |db.subs|, |db.payments|, db.users[user].balance - amount;
            if after >= 0 then
              db' == WithUse(
                db.(users := db.users[user := User(after)],
                    ledger := db.ledger + [Entry(user, -(amount as int), Purchase, Some(p), after)],
                    subs := db.subs + [Subscription(user, days, SubPending, None, None, None, None)],
                    payments := db.payments + [Payment(user, Some(s), ForSubscription, FromBalance, None, amount,
                                                       PayPaid,
                                                       Some(now), None, Remembered(db, price, promo))],
                    inFlight := db.inFlight + {Debit(user, s, p, amount, days, after)}),
                Remembered(db, price, promo), user, p, amount)
            else db' == db
  {
    ChargeIsPrice(db, price, promo, amount);
    if db.users[user].balance >= amount {
      UseIsRecorded(BalanceService.Debited(db, user, days, price, promo, now), |db.payments|);
    }
    hide Sum, PaymentService.RecordPromo, WithUse;
  }

  /** The second phase of a purchase: the subscription runs its days from now; or the order is
      refunded, one ledger row gives the price back and the subscription failed; or nothing. */
  lemma PurchaseIsFinished(db: Db, d: Debit, answer: Answer, now: int)
    requires Inv(db) && d in db.inFlight
    ensures d.user < |db.users| && d.sub < |db.subs| && d.payment < |db.payments|
    ensures var db' := Step(db, FinishPurchase(d, answer, now));
            var rest := db.(inFlight := db.inFlight - {d});
            var current, after := db.users[d.user].balance, d.seen + d.price;
            match answer
            case Accepted(keyId) =>
              db' == rest.(subs := db.subs[d.sub := db.subs[d.sub].(
                             status := SubActive, providerId := keyId, startedAt := Some(now),
                             expiresAt := Some(now + 86400 * d.days))])
            case Rejected =>
              && db'.users == db.users[d.user := User(if d.price == 0 then current else after)]
              && db'.ledger == db.ledger + [Entry(d.user, d.price, Refund, Some(d.payment), after)]
              && db'.subs == db.subs[d.sub := db.subs[d.sub].(status := SubFailed)]
              && db'.payments == db.payments[d.payment := db.payments[d.payment].(status := PayRefunded)]
              && db' == rest.(users := db'.users, ledger := db'.ledger, subs := db'.subs, payments := db'.payments,
                              overwritten := db'.overwritten)
            case Crashed => db' == rest
  {
    InFlightShape(db, d);
    hide Inv, Sum;
  }

  function Later(a: Option<int>, b: int): int { if a.Some? && a.value > b then a.value else b }

  /** The days that an extension order buys: those it names, or the subscription's own if none. */
  function BoughtDays(days: nat, own: nat): nat { if days > 0 then days else own }

  /** The row of a subscription that an extension has reached. */
  function Prolonged(sub: Subscription, days: nat, now: int): Subscription {
    sub.(status := SubActive, expiresAt := Some(Later(sub.expiresAt, now) + 86400 * BoughtDays(days, sub.days)))
  }

  lemma ExtendedIsProlonged(sub: Subscription, days: nat, now: int)
    ensures ExtensionService.Extended(sub, days, now) == Prolonged(sub, days, now)
  {
  }

  /** An extension from the balance: refused without a running subscription or enough money, else
      the days for the price, or the price out and back with a refunded order, or nothing. */
  lemma ExtensionIsPaid(db: Db, user: nat, s: nat, days: nat, price: nat, answer: Answer, now: int)
    requires user < |db.users|
    ensures var db' := Step(db, ExtendWithBalance(user, s, days, price, answer, now));
            var p, balance := |db.payments|, db.users[user].balance;
            var order := Payment(user, Some(s), ForExtension, FromBalance, None, price, PayPaid, Some(now),
                                 Some(Extension(s, days)), None);
            var debit := Entry(user, -(price as int), Purchase, Some(p), balance - price);
            if !Running(db, user, s) || balance < price || answer.Crashed? then db' == db
            else if answer.Accepted? then
              db' == db.(users := db.users[user := User(balance - price)], ledger := db.ledger + [debit],
                         payments := db.payments + [order], subs := db.subs[s := Prolonged(db.subs[s], days, now)])
            else
              db' == db.(ledger := db.ledger + [debit] + [Entry(user, price, Refund, Some(p), balance)],
                         payments := db.payments + [order.(status := PayRefunded)])
  {
    if Running(db, user, s) {
      ExtendedIsProlonged(db.subs[s], days, now);
    }
    hide ExtensionService.Extended, Prolonged;
    var order := Payment(user, Some(s), ForExtension, FromBalance, None, price, PayPaid, Some(now),
                         Some(Extension(s, days)), None);
    assert (db.payments + [order])[|db.payments| := order.(status := PayRefunded)]
           == db.payments + [order.(status := PayRefunded)];
    var balance := db.users[user].balance;
    assert db.users[user := User(balance - price)][user := User(balance)] == db.users;
  }
}
