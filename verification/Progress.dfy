/** What no later step takes back: ledger rows, closed payments, paid bonuses and
    bought time; and what a refund of a balance purchase does undo. */
module Progress {
  import opened Sums
  import opened Options
  import opened Store
  import opened Invariant
  import opened Machine
  import Reconcile
  import PromoService
  import ReferralService
  import ExtensionService
  import PaymentService
  import BalanceService

  /** A refunded payment and a paid external payment never change again. */
  ghost predicate PaymentsAdvance(payments: seq<Payment>, payments': seq<Payment>) {
    && OrdersKept(payments, payments')
    && (forall i | 0 <= i < |payments|
                   && (payments[i].status.PayRefunded?
                       || (payments[i].status.PayPaid? && payments[i].provider.External?)) ::
          payments'[i] == payments[i])
  }

  /** Referrals are never removed, redirected or unpaid. */
  ghost predicate ReferralsAdvance(referrals: seq<Referral>, referrals': seq<Referral>) {
    && |referrals| <= |referrals'|
    && (forall i | 0 <= i < |referrals| ::
          referrals'[i].referrer == referrals[i].referrer && referrals'[i].referee == referrals[i].referee
          && (referrals[i].bonusPaid ==> referrals'[i] == referrals[i]))
  }

  /** A started subscription keeps its start, and its expiry only moves forward. */
  ghost predicate SubAdvances(sub: Subscription, sub': Subscription) {
    && sub'.user == sub.user && sub'.days == sub.days
    && (sub.startedAt.Some? ==> sub'.startedAt == sub.startedAt)
    && (sub.startedAt.Some? && sub.expiresAt.Some? ==>
          sub'.expiresAt.Some? && sub'.expiresAt.value >= sub.expiresAt.value)
  }

  ghost predicate SubsAdvance(subs: seq<Subscription>, subs': seq<Subscription>) {
    |subs| <= |subs'| && forall s | 0 <= s < |subs| :: SubAdvances(subs[s], subs'[s])
  }

  ghost predicate Advances(db: Db, db': Db) {
    && |db.users| <= |db'.users| && |db.promos| <= |db'.promos|
    && db.ledger <= db'.ledger
    && db.activations <= db'.activations
    && PaymentsAdvance(db.payments, db'.payments)
    && ReferralsAdvance(db.referrals, db'.referrals)
    && SubsAdvance(db.subs, db'.subs)
  }

  lemma AdvancesTransitive(a: Db, b: Db, c: Db)
    requires Advances(a, b) && Advances(b, c)
    ensures Advances(a, c)
  {
  }

  /** Closing an open payment, with or without a posting. */
  lemma PaymentAdvances(db: Db, db': Db, p: nat)
    requires p < |db.payments| && Unpaid(db.payments[p]) && |db'.payments| == |db.payments|
    requires db'.payments == db.payments[p := db'.payments[p]] && SameOrder(db.payments[p], db'.payments[p])
    requires db'.referrals == db.referrals && db'.activations == db.activations && db'.promos == db.promos
    requires |db.users| <= |db'.users| && db.ledger <= db'.ledger && SubsAdvance(db.subs, db'.subs)
    ensures Advances(db, db')
  {
  }

  lemma SettleSubsAdvance(db: Db, p: nat, answer: Answer, now: int)
    requires Inv(db) && p < |db.payments| && Unpaid(db.payments[p])
    requires !PaymentService.Aborts(db.payments[p], answer)
    ensures SubsAdvance(db.subs, PaymentService.Settle(db, p, answer, now).subs)
  {
    hide Inv, Sum, Due;
    if db.payments[p].purpose.ForSubscription? {
      NotYetStarted(db, p);
    }
  }

  lemma SettleAdvances(db: Db, p: nat, answer: Answer, now: int)
    requires Inv(db) && p < |db.payments| && Unpaid(db.payments[p])
    requires !PaymentService.Aborts(db.payments[p], answer)
    ensures Advances(db, PaymentService.Settle(db, p, answer, now))
  {
    hide Inv, Sum, Advances, SubsAdvance;
    SettleSubsAdvance(db, p, answer, now);
    var db' := PaymentService.Settle(db, p, answer, now);
    assert db'.payments == db.payments[p := db'.payments[p]];
    PaymentAdvances(db, db', p);
  }

  lemma NotYetStarted(db: Db, p: nat)
    requires Inv(db) && p < |db.payments| && Unpaid(db.payments[p]) && db.payments[p].purpose.ForSubscription?
    ensures db.payments[p].sub.Some? && db.payments[p].sub.value < |db.subs|
    ensures db.subs[db.payments[p].sub.value].startedAt.None?
  {
  }

  lemma HooksAdvance(db: Db, p: nat, now: int)
    requires p < |db.payments|
    ensures Advances(db, PaymentService.Hooks(db, p, now))
  {
    hide Sum, PromoService.Exhausted, PromoService.UsedUp;
  }

  lemma WebhookAdvances(db: Db, externalId: string, status: string, answer: Answer, now: int)
    requires Inv(db)
    ensures Advances(db, PaymentService.Webhook(db, externalId, status, answer, now))
  {
    hide Inv, Sum, PaymentService.Classify, PaymentService.Settle, PaymentService.Hooks, Advances;
    var found := FindPayment(db.payments, externalId);
    Unchanged(db);
    if found.Some? && Unpaid(db.payments[found.value]) {
      var p := found.value;
      PaymentService.FoundIsExternal(db, externalId);
      if !PaymentService.Aborts(db.payments[p], answer) {
        var settled := PaymentService.Settle(db, p, answer, now);
        SettleAdvances(db, p, answer, now);
        HooksAdvance(settled, p, now);
        AdvancesTransitive(db, settled, PaymentService.Hooks(settled, p, now));
      }
      FailureAdvances(db, p);
    }
  }

  lemma Unchanged(db: Db)
    ensures Advances(db, db)
  {
  }

  lemma FailureAdvances(db: Db, p: nat)
    requires p < |db.payments| && Unpaid(db.payments[p])
    ensures Advances(db, PaymentService.HandleFailed(db, p)) && Advances(db, PaymentService.HandleExpired(db, p))
  {
  }

  lemma FinishAdvances(db: Db, d: Debit, answer: Answer, now: int)
    requires Inv(db)
    ensures Advances(db, BalanceService.FinishPurchase(db, d, answer, now))
  {
    hide Sum, LedgerOk, Settled, ReferralsOk, PaymentsOk, PromosOk, SubsOk, InFlightOk, TimesOk;
    if d in db.inFlight {
      BalanceService.InFlightOld(db.inFlight, db.payments, db.subs);
      assert DebitOk(d, db.payments, db.subs);
      var db' := BalanceService.FinishPurchase(db, d, answer, now);
      assert db'.payments == db.payments[d.payment := db'.payments[d.payment]];
      assert SubsAdvance(db.subs, db'.subs);
    }
  }

  lemma ReconciledAdvances(db: Db, batch: seq<nat>, ask: Reconcile.Provider, now: int)
    ensures Advances(db, Reconciled(db, batch, ask, now))
  {
    ReconciledRows(db, batch, ask, now);
    hide Sum, Reconcile.Pass, PutBack;
    var subs' := Reconciled(db, batch, ask, now).subs;
    forall s | 0 <= s < |db.subs| ensures SubAdvances(db.subs[s], subs'[s]) {
      assert Reconcile.RowKept(db.subs[s], subs'[s]);
    }
  }

  lemma ExtendWithBalanceAdvances(db: Db, user: nat, s: nat, days: nat, price: nat, answer: Answer, now: int)
    ensures Advances(db, ExtensionService.ExtendWithBalance(db, user, s, days, price, answer, now))
  {
    hide Sum;
  }

  lemma StartAdvances(db: Db, user: nat, days: nat, price: nat, promo: Option<nat>, now: int)
    ensures Advances(db, BalanceService.StartPurchase(db, user, days, price, promo, now))
  {
    hide Sum, PromoService.Exhausted, PromoService.UsedUp, PaymentService.Charge;
  }

  lemma StepAdvances(db: Db, e: Event)
    requires Inv(db)
    ensures Advances(db, Step(db, e))
  {
    hide Inv, Sum, Advances;
    if e.ExtendWithBalance? {
      ExtendWithBalanceAdvances(db, e.user, e.sub, e.days, e.price, e.answer, e.now);
    } else if e.StartPurchase? {
      StartAdvances(db, e.user, e.days, e.price, e.promoId, e.now);
    } else if e.FinishPurchase? {
      FinishAdvances(db, e.debit, e.answer, e.now);
    } else if e.Webhook? {
      WebhookAdvances(db, e.externalId, e.status, e.answer, e.now);
    } else if e.ReconcileBatch? {
      ReconciledAdvances(db, e.batch, e.ask, e.now);
    } else {
      OtherStepsAdvance(db, e);
    }
  }

  lemma OtherStepsAdvance(db: Db, e: Event)
    requires !e.ExtendWithBalance? && !e.StartPurchase? && !e.FinishPurchase? && !e.Webhook? && !e.ReconcileBatch?
    ensures Advances(db, Step(db, e))
  {
    hide Sum, ReferralService.RegistrationRefusal, PaymentService.Charge, ExtensionService.Extendable;
  }

  lemma {:induction false} RunFromAdvances(db: Db, more: seq<Event>)
    requires Inv(db)
    ensures Advances(db, RunFrom(db, more))
  {
    hide Advances, Inv, Step, Sum;
    if |more| == 0 {
      Unchanged(db);
    } else {
      var before := RunFrom(db, more[..|more| - 1]);
      RunFromAdvances(db, more[..|more| - 1]);
      RunFromKeepsInv(db, more[..|more| - 1]);
      StepAdvances(before, more[|more| - 1]);
      AdvancesTransitive(db, before, RunFrom(db, more));
    }
  }

  lemma {:induction false} RunFromConcat(db: Db, events: seq<Event>, more: seq<Event>)
    ensures RunFrom(db, events + more) == RunFrom(RunFrom(db, events), more)
  {
    hide Step;
    if |more| == 0 {
      assert events + more == events;
    } else {
      RunFromConcat(db, events, more[..|more| - 1]);
      assert (events + more)[..|events + more| - 1] == events + more[..|more| - 1];
    }
  }

  /** No continuation of a run rewrites the ledger, reopens or changes a closed payment,
      withdraws a bonus, or shortens a subscription. */
  lemma RunAdvances(events: seq<Event>, more: seq<Event>)
    ensures Advances(Run(events), Run(events + more))
  {
    hide Advances, Inv, RunFrom;
    RunFromConcat(EMPTY, events, more);
    RunKeepsInv(events);
    RunFromAdvances(Run(events), more);
  }

  // ----- the two phases of a balance purchase -----

  lemma SettleKeepsInFlight(db: Db, p: nat, answer: Answer, now: int)
    requires p < |db.payments| && !PaymentService.Aborts(db.payments[p], answer)
    ensures PaymentService.Settle(db, p, answer, now).inFlight == db.inFlight
    ensures PaymentService.Settle(db, p, answer, now).overwritten == db.overwritten
  {
  }

  lemma RecordKeepsInFlight(db: Db, p: nat)
    requires p < |db.payments|
    ensures PaymentService.RecordPromo(db, p).inFlight == db.inFlight
    ensures PaymentService.RecordPromo(db, p).overwritten == db.overwritten
  {
    hide PromoService.Exhausted, PromoService.UsedUp;
  }

  lemma HooksKeepInFlight(db: Db, p: nat, now: int)
    requires p < |db.payments|
    ensures PaymentService.Hooks(db, p, now).inFlight == db.inFlight
    ensures PaymentService.Hooks(db, p, now).overwritten == db.overwritten
  {
    hide PaymentService.RecordPromo, ReferralService.BonusRow;
    if PaymentService.Hooks(db, p, now) != db {
      RecordKeepsInFlight(ReferralService.ApplyReferrerBonus(db, p, now), p);
    }
  }

  lemma WebhookKeepsInFlight(db: Db, externalId: string, status: string, answer: Answer, now: int)
    ensures PaymentService.Webhook(db, externalId, status, answer, now).inFlight == db.inFlight
    ensures PaymentService.Webhook(db, externalId, status, answer, now).overwritten == db.overwritten
  {
    hide PaymentService.Settle, PaymentService.Hooks, PaymentService.Classify;
    var found := FindPayment(db.payments, externalId);
    if found.Some? && !PaymentService.Aborts(db.payments[found.value], answer) {
      SettleKeepsInFlight(db, found.value, answer, now);
      HooksKeepInFlight(PaymentService.Settle(db, found.value, answer, now), found.value, now);
    }
  }

  lemma OthersKeepInFlight(db: Db, e: Event)
    requires !e.StartPurchase? && !e.FinishPurchase? && !e.Webhook?
    ensures Step(db, e).inFlight == db.inFlight
    ensures Step(db, e).overwritten == db.overwritten
  {
    hide Sum, PromoService.Refusal, ReferralService.RegistrationRefusal, PaymentService.Charge, Reconcile.Pass;
  }

  lemma StartAddsInFlight(db: Db, user: nat, days: nat, price: nat, promo: Option<nat>, now: int)
    ensures BalanceService.StartPurchase(db, user, days, price, promo, now).inFlight ==
              if BalanceService.Affordable(db, user, price, promo)
              then db.inFlight + {BalanceService.DebitOf(db, user, days, price, promo)} else db.inFlight
    ensures BalanceService.StartPurchase(db, user, days, price, promo, now).overwritten == db.overwritten
  {
    hide PaymentService.RecordPromo, PaymentService.Charge;
    if BalanceService.Affordable(db, user, price, promo) {
      RecordKeepsInFlight(BalanceService.Debited(db, user, days, price, promo, now), |db.payments|);
    }
  }

  /** Only the two phases of a purchase move the set of purchases in flight: the first adds a
      new order, the second takes out its own. */
  lemma StepInFlight(db: Db, e: Event)
    ensures db.inFlight - (if e.FinishPurchase? then {e.debit} else {}) <= Step(db, e).inFlight
    ensures forall d | d in Step(db, e).inFlight :: d in db.inFlight || d.payment == |db.payments|
  {
    hide Sum, BalanceService.StartPurchase, PaymentService.Webhook;
    if e.StartPurchase? {
      StartAddsInFlight(db, e.user, e.days, e.price, e.promoId, e.now);
    } else if e.Webhook? {
      WebhookKeepsInFlight(db, e.externalId, e.status, e.answer, e.now);
    } else if !e.FinishPurchase? {
      OthersKeepInFlight(db, e);
    }
  }

  /** Every other call computes the balances it writes from the current ones. */
  lemma OnlyRefundsOverwrite(db: Db, e: Event)
    requires !e.FinishPurchase?
    ensures Step(db, e).overwritten == db.overwritten
  {
    hide Sum, BalanceService.StartPurchase, PaymentService.Webhook;
    if e.StartPurchase? {
      StartAddsInFlight(db, e.user, e.days, e.price, e.promoId, e.now);
    } else if e.Webhook? {
      WebhookKeepsInFlight(db, e.externalId, e.status, e.answer, e.now);
    } else {
      OthersKeepInFlight(db, e);
    }
  }

  /** A purchase in flight stays in flight, whatever else happens, until its own second phase. */
  lemma InFlightUntilFinished(db: Db, e: Event, d: Debit)
    requires d in db.inFlight
    requires !(e.FinishPurchase? && e.debit == d)
    ensures d in Step(db, e).inFlight
  {
    hide Step;
    StepInFlight(db, e);
  }

  lemma {:induction false} InFlightThroughRun(db: Db, events: seq<Event>, d: Debit)
    requires d in db.inFlight
    requires forall e | e in events :: !(e.FinishPurchase? && e.debit == d)
    ensures d in RunFrom(db, events).inFlight
  {
    hide Step;
    if |events| > 0 {
      InFlightThroughRun(db, events[..|events| - 1], d);
      InFlightUntilFinished(RunFrom(db, events[..|events| - 1]), events[|events| - 1], d);
    }
  }

  /** Did phase one use up the promo? */
  predicate PromoUsed(db: Db, user: nat, price: nat, promo: Option<nat>) {
    var discount := PaymentService.Charge(db, price, promo).1;
    discount.Some? && !PromoService.Exhausted(db.promos[discount.value.promo])
    && !PromoService.UsedUp(db, discount.value.promo, user)
  }

  lemma DebitedRows(db: Db, user: nat, days: nat, price: nat, promo: Option<nat>, now: int)
    requires BalanceService.Affordable(db, user, price, promo)
    ensures var db1 := BalanceService.StartPurchase(db, user, days, price, promo, now);
            var d := BalanceService.DebitOf(db, user, days, price, promo);
            && d in db1.inFlight && d.sub < |db1.subs| && d.payment < |db1.payments|
            && |db1.users| == |db.users| && |db1.ledger| == |db.ledger| + 1
            && db1.ledger[..|db.ledger|] == db.ledger
            && db1.ledger[|db.ledger|] == Entry(user, -(d.price as int), Purchase, Some(d.payment),
                                                db.users[user].balance - d.price)
            && db1.users == db.users[user := User(db.users[user].balance - d.price)]
            && (db1.activations == db.activations <==> !PromoUsed(db, user, price, promo))
  {
  }

  /** The balance after a purchase whose provider call failed is the one before it, the two
      ledger rows cancel, and the order is refunded; but the use of a promo is not given back. */
  lemma RefundUndoesDebit(db: Db, user: nat, days: nat, price: nat, promo: Option<nat>, now: int, later: int)
    requires BalanceService.Affordable(db, user, price, promo)
    ensures var d := BalanceService.DebitOf(db, user, days, price, promo);
            var db1 := BalanceService.StartPurchase(db, user, days, price, promo, now);
            var db2 := BalanceService.FinishPurchase(db1, d, Rejected, later);
            && db2.users == db.users
            && |db2.ledger| == |db.ledger| + 2 && db2.ledger[..|db.ledger|] == db.ledger
            && db2.ledger[|db.ledger|].amount + db2.ledger[|db.ledger| + 1].amount == 0
            && db2.ledger[|db.ledger| + 1].balanceAfter == db.users[user].balance
            && d.payment < |db2.payments| && db2.payments[d.payment].status.PayRefunded?
            && d.sub < |db2.subs| && db2.subs[d.sub].status.SubFailed?
            && d !in db2.inFlight
            && (db2.activations == db.activations <==> !PromoUsed(db, user, price, promo))
  {
    DebitedRows(db, user, days, price, promo, now);
    hide Sum, BalanceService.StartPurchase, PromoUsed, BalanceService.DebitOf;
    var d := BalanceService.DebitOf(db, user, days, price, promo);
    var db1 := BalanceService.StartPurchase(db, user, days, price, promo, now);
    var db2 := BalanceService.FinishPurchase(db1, d, Rejected, later);
    DebitUser(db, user, days, price, promo);
    assert db2.users == db.users;
  }

  /** Across any run of other calls, the refund still cancels the row of its own debit and leaves
      a promo use that phase one recorded. But the balance it leaves is the one before the
      purchase: it is the current one plus the price exactly when nothing has moved it since the debit. */
  lemma RefundCancelsDebit(db: Db, user: nat, days: nat, price: nat, promo: Option<nat>, now: int,
                           between: seq<Event>, later: int)
    requires Inv(db) && BalanceService.Affordable(db, user, price, promo)
    requires forall e | e in between ::
               !(e.FinishPurchase? && e.debit == BalanceService.DebitOf(db, user, days, price, promo))
    ensures var d := BalanceService.DebitOf(db, user, days, price, promo);
            var start := BalanceService.StartPurchase(db, user, days, price, promo, now);
            var db1 := RunFrom(start, between);
            var db2 := BalanceService.FinishPurchase(db1, d, Rejected, later);
            && user < |db1.users| && |db2.users| == |db1.users|
            && (d.price > 0 ==> db2.users[user].balance == db.users[user].balance)
            && (d.price == 0 ==> db2.users == db1.users)
            && (d.price > 0 ==> (db2.users[user].balance == db1.users[user].balance + d.price
                                 <==> db1.users[user].balance == db.users[user].balance - d.price))
            && |db.ledger| < |db1.ledger| && |db2.ledger| == |db1.ledger| + 1 && db1.ledger <= db2.ledger
            && db2.ledger[|db.ledger|].payment == db2.ledger[|db1.ledger|].payment == Some(d.payment)
            && db2.ledger[|db.ledger|].amount == -(d.price as int)
            && db2.ledger[|db.ledger|].amount + db2.ledger[|db1.ledger|].amount == 0
            && start.activations <= db2.activations
            && (start.activations == db.activations <==> !PromoUsed(db, user, price, promo))
  {
    hide Inv, Sum, RunFrom, Advances, PromoUsed, BalanceService.FinishPurchase;
    hide BalanceService.StartPurchase, BalanceService.DebitOf;
    var d := BalanceService.DebitOf(db, user, days, price, promo);
    var start := BalanceService.StartPurchase(db, user, days, price, promo, now);
    var db1 := RunFrom(start, between);
    DebitedRows(db, user, days, price, promo, now);
    DebitUser(db, user, days, price, promo);
    BalanceService.StartPurchaseKeepsInv(db, user, days, price, promo, now);
    RunFromKeepsInv(start, between);
    RunFromAdvances(start, between);
    AdvancesKeepsRows(start, db1);
    InFlightThroughRun(start, between, d);
    InFlightShape(db1, d);
    RefundRow(db1, d, later);
  }

  lemma AdvancesKeepsRows(db: Db, db': Db)
    requires Advances(db, db')
    ensures db.ledger <= db'.ledger && db.activations <= db'.activations
  {
  }

  lemma RefundRow(db: Db, d: Debit, now: int)
    requires d in db.inFlight && d.user < |db.users| && DebitOk(d, db.payments, db.subs)
    ensures var db' := BalanceService.FinishPurchase(db, d, Rejected, now);
            && db'.users == db.users[d.user := User(BalanceService.Repaid(db, d))]
            && db'.activations == db.activations && |db'.ledger| == |db.ledger| + 1 && db.ledger <= db'.ledger
            && db'.ledger[|db.ledger|].payment == Some(d.payment) && db'.ledger[|db.ledger|].amount == d.price
  {
  }

  lemma DebitUser(db: Db, user: nat, days: nat, price: nat, promo: Option<nat>)
    requires user < |db.users|
    ensures var d := BalanceService.DebitOf(db, user, days, price, promo);
            d.user == user && d.seen == db.users[user].balance - d.price
  {
  }
}
