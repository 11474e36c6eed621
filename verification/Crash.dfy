/** Balance purchases whose second phase dies with an exception the service does not
    catch: the code settles every other purchase, and never that one. */
module Crash {
  import opened Sums
  import opened Options
  import opened Store
  import opened Invariant
  import opened Machine
  import Reconcile
  import PromoService
  import ReferralService
  import ExtensionService
  import PaymentService
  import BalanceService
  import Progress
  import Effects

  /** The purchase got what it paid for. */
  predicate Delivered(db: Db, d: Debit) {
    && d.sub < |db.subs| && d.payment < |db.payments|
    && db.subs[d.sub].status.SubActive? && db.payments[d.payment].status.PayPaid?
  }

  /** The purchase got its money back: its ledger rows cancel. */
  predicate Returned(db: Db, d: Debit) {
    && d.sub < |db.subs| && d.payment < |db.payments|
    && db.subs[d.sub].status.SubFailed? && db.payments[d.payment].status.PayRefunded?
    && Sum(db.ledger, OfPayment(d.payment)) == 0
  }

  /** Debited for good: the order is paid and its price gone, the subscription is still
      pending, and no purchase in flight will ever come back to it. */
  ghost predicate Stranded(db: Db, d: Debit) {
    && DebitOk(d, db.payments, db.subs)
    && Sum(db.ledger, OfPayment(d.payment)) == -(d.price as int)
    && (forall e | e in db.inFlight :: e.payment != d.payment)
  }

  // ----- a stranded purchase as one that is forever in flight -----

  function With(db: Db, d: Debit): Db { db.(inFlight := db.inFlight + {d}) }

  /** No call but its own second phase looks at a purchase in flight. */
  lemma StepFrames(db: Db, e: Event, d: Debit)
    requires !(e.FinishPurchase? && e.debit == d)
    ensures Step(With(db, d), e) == With(Step(db, e), d)
  {
    hide Sum, With;
    match e
    case StartPurchase(user, days, price, promo, now) => StartFrames(db, user, days, price, promo, now, d);
    case FinishPurchase(debit, answer, now) => FinishFrames(db, debit, answer, now, d);
    case Webhook(externalId, status, answer, now) => WebhookFrames(db, externalId, status, answer, now, d);
    case ApplyPromo(promo, user, now) => PromoFrames(db, promo, user, now, d);
    case ExtendWithBalance(user, sub, days, price, answer, now) =>
      ExtensionFrames(db, user, sub, days, price, answer, now, d);
    case _ => OthersFrame(db, e, d);
  }

  lemma RecordFrames(db: Db, p: nat, d: Debit)
    requires p < |db.payments|
    ensures PaymentService.RecordPromo(With(db, d), p) == With(PaymentService.RecordPromo(db, p), d)
  {
    hide Sum;
  }

  lemma DebitFrames(db: Db, user: nat, days: nat, price: nat, promo: Option<nat>, now: int, d: Debit)
    ensures BalanceService.Debited(With(db, d), user, days, price, promo, now)
            == With(BalanceService.Debited(db, user, days, price, promo, now), d)
  {
    var other := BalanceService.DebitOf(db, user, days, price, promo);
    assert db.inFlight + {d} + {other} == db.inFlight + {other} + {d};
  }

  lemma StartFrames(db: Db, user: nat, days: nat, price: nat, promo: Option<nat>, now: int, d: Debit)
    ensures BalanceService.StartPurchase(With(db, d), user, days, price, promo, now)
            == With(BalanceService.StartPurchase(db, user, days, price, promo, now), d)
  {
    hide BalanceService.Debited, PaymentService.RecordPromo;
    DebitFrames(db, user, days, price, promo, now, d);
    if BalanceService.Affordable(db, user, price, promo) {
      DebitedOrders(db, user, days, price, promo, now);
      RecordFrames(BalanceService.Debited(db, user, days, price, promo, now), |db.payments|, d);
    }
  }

  lemma DebitedOrders(db: Db, user: nat, days: nat, price: nat, promo: Option<nat>, now: int)
    ensures |BalanceService.Debited(db, user, days, price, promo, now).payments| == |db.payments| + 1
  {
  }

  lemma FinishFrames(db: Db, debit: Debit, answer: Answer, now: int, d: Debit)
    requires debit != d
    ensures BalanceService.FinishPurchase(With(db, d), debit, answer, now)
            == With(BalanceService.FinishPurchase(db, debit, answer, now), d)
  {
    assert db.inFlight + {d} - {debit} == db.inFlight - {debit} + {d};
  }

  lemma BonusFrames(db: Db, p: nat, now: int, d: Debit)
    requires p < |db.payments|
    ensures ReferralService.ApplyReferrerBonus(With(db, d), p, now)
              == With(ReferralService.ApplyReferrerBonus(db, p, now), d)
    ensures |ReferralService.ApplyReferrerBonus(db, p, now).payments| == |db.payments|
  {
  }

  lemma HooksFrame(db: Db, p: nat, now: int, d: Debit)
    requires p < |db.payments|
    ensures PaymentService.Hooks(With(db, d), p, now) == With(PaymentService.Hooks(db, p, now), d)
  {
    hide PaymentService.RecordPromo, ReferralService.ApplyReferrerBonus;
    BonusFrames(db, p, now, d);
    RecordFrames(ReferralService.ApplyReferrerBonus(db, p, now), p, d);
  }

  lemma SettleFrames(db: Db, p: nat, answer: Answer, now: int, d: Debit)
    requires p < |db.payments| && !PaymentService.Aborts(db.payments[p], answer)
    ensures PaymentService.Settle(With(db, d), p, answer, now) == With(PaymentService.Settle(db, p, answer, now), d)
  {
  }

  lemma WebhookFrames(db: Db, externalId: string, status: string, answer: Answer, now: int, d: Debit)
    ensures PaymentService.Webhook(With(db, d), externalId, status, answer, now)
            == With(PaymentService.Webhook(db, externalId, status, answer, now), d)
  {
    hide PaymentService.Settle, PaymentService.Hooks, PaymentService.Classify;
    var found := FindPayment(db.payments, externalId);
    if found.Some? && !PaymentService.Aborts(db.payments[found.value], answer) {
      SettleFrames(db, found.value, answer, now, d);
      HooksFrame(PaymentService.Settle(db, found.value, answer, now), found.value, now, d);
    }
  }

  lemma PromoFrames(db: Db, promo: Option<nat>, user: nat, now: int, d: Debit)
    ensures PromoService.ApplyPromo(With(db, d), promo, user, now)
              == With(PromoService.ApplyPromo(db, promo, user, now), d)
  {
    hide Sum;
  }

  lemma ExtensionFrames(db: Db, user: nat, s: nat, days: nat, price: nat, answer: Answer, now: int, d: Debit)
    ensures ExtensionService.ExtendWithBalance(With(db, d), user, s, days, price, answer, now)
            == With(ExtensionService.ExtendWithBalance(db, user, s, days, price, answer, now), d)
  {
  }

  lemma OthersFrame(db: Db, e: Event, d: Debit)
    requires !e.StartPurchase? && !e.FinishPurchase? && !e.Webhook? && !e.ApplyPromo? && !e.ExtendWithBalance?
    ensures Step(With(db, d), e) == With(Step(db, e), d)
  {
    hide Sum, Reconcile.Pass;
  }

  lemma InFlightWith(db: Db, d: Debit)
    requires Inv(With(db, d))
    ensures DebitOk(d, db.payments, db.subs)
    ensures d !in db.inFlight ==> Stranded(db, d)
  {
    hide LedgerOk, ReferralsOk, PaymentsOk, PromosOk, SubsOk, TimesOk, Conserved, Sum;
    assert d in With(db, d).inFlight;
  }

  lemma StrandedStep(db: Db, e: Event, d: Debit)
    requires Inv(With(db, d)) && d !in db.inFlight
    ensures Inv(With(Step(db, e), d)) && d !in Step(db, e).inFlight
  {
    InFlightWith(db, d);
    hide Inv, Step, With;
    if e.FinishPurchase? && e.debit == d {
      NothingToFinish(db, d, e);
    } else {
      Progress.StepInFlight(db, e);
      StepFrames(db, e, d);
      StepKeepsInv(With(db, d), e);
    }
  }

  lemma NothingToFinish(db: Db, d: Debit, e: Event)
    requires d !in db.inFlight && e.FinishPurchase? && e.debit == d
    ensures Step(db, e) == db
  {
  }

  lemma {:induction false} StrandedRun(db: Db, d: Debit, events: seq<Event>)
    requires Inv(With(db, d)) && d !in db.inFlight
    ensures Inv(With(RunFrom(db, events), d)) && d !in RunFrom(db, events).inFlight
  {
    hide Inv, Step, With;
    if |events| > 0 {
      StrandedRun(db, d, events[..|events| - 1]);
      StrandedStep(RunFrom(db, events[..|events| - 1]), events[|events| - 1], d);
    }
  }

  // ----- the results -----

  /** The condition under which a debited purchase is settled: whatever runs between its phases, it
      ends delivered or returned exactly when its second phase does not die. */
  lemma PurchaseSettlesUnlessCrashed(db: Db, user: nat, days: nat, price: nat, promo: Option<nat>, now: int,
                                     between: seq<Event>, answer: Answer, later: int)
    requires Inv(db) && BalanceService.Affordable(db, user, price, promo)
    requires forall e | e in between ::
               !(e.FinishPurchase? && e.debit == BalanceService.DebitOf(db, user, days, price, promo))
    ensures var d := BalanceService.DebitOf(db, user, days, price, promo);
            var db1 := RunFrom(BalanceService.StartPurchase(db, user, days, price, promo, now), between);
            var db2 := BalanceService.FinishPurchase(db1, d, answer, later);
            && (Delivered(db2, d) || Returned(db2, d) <==> !answer.Crashed?)
            && (Stranded(db2, d) <==> answer.Crashed?)
  {
    var d := BalanceService.DebitOf(db, user, days, price, promo);
    var start := BalanceService.StartPurchase(db, user, days, price, promo, now);
    hide Inv, Sum, Delivered, Returned, Stranded, RunFrom;
    hide BalanceService.StartPurchase, BalanceService.FinishPurchase, BalanceService.DebitOf;
    Effects.StartedInFlight(db, user, days, price, promo, now);
    RunFromKeepsInv(start, between);
    Progress.InFlightThroughRun(start, between, d);
    SettlesUnlessCrashed(RunFrom(start, between), d, answer, later);
  }

  lemma SettlesUnlessCrashed(db: Db, d: Debit, answer: Answer, now: int)
    requires Inv(db) && d in db.inFlight
    ensures var db' := BalanceService.FinishPurchase(db, d, answer, now);
            && (Delivered(db', d) || Returned(db', d) <==> !answer.Crashed?)
            && (Stranded(db', d) <==> answer.Crashed?)
  {
    Effects.FinishOutcome(db, d, answer, now);
    InFlightShape(db, d);
    hide Inv, Sum, BalanceService.FinishPurchase;
    if answer.Crashed? {
      CrashStrands(db, d, now);
    }
  }

  lemma CrashStrands(db: Db, d: Debit, now: int)
    requires Inv(db) && d in db.inFlight
    ensures var db' := BalanceService.FinishPurchase(db, d, Crashed, now);
            With(db', d) == db && d !in db'.inFlight && Stranded(db', d)
  {
    InFlightShape(db, d);
    var db' := BalanceService.FinishPurchase(db, d, Crashed, now);
    assert db.inFlight - {d} + {d} == db.inFlight;
    assert With(db', d) == db;
    InFlightWith(db', d);
  }

  /** After the crash no run of calls ever settles the purchase: in every continuation the money
      is gone, the order paid, the subscription pending and nothing in flight for it. */
  lemma CrashIsPermanent(db: Db, d: Debit, now: int, after: seq<Event>)
    requires Inv(db) && d in db.inFlight
    ensures var db2 := RunFrom(BalanceService.FinishPurchase(db, d, Crashed, now), after);
            Stranded(db2, d) && !Delivered(db2, d) && !Returned(db2, d)
  {
    hide Inv, Sum, RunFrom, BalanceService.FinishPurchase;
    var db1 := BalanceService.FinishPurchase(db, d, Crashed, now);
    CrashStrands(db, d, now);
    StrandedRun(db1, d, after);
    InFlightWith(RunFrom(db1, after), d);
  }

  // ----- one such run -----

  const DEBITED_RUN := [NewUser, AdjustBalance(0, 1000), StartPurchase(0, 30, 500, None, 0)]

  const CRASHED_RUN := DEBITED_RUN + [FinishPurchase(Debit(0, 0, 0, 500, 30, 500), Crashed, 1)]

  lemma DebitedStart()
    ensures var db := Run(DEBITED_RUN);
            && db.users == [User(500)] && |db.payments| == 1 && db.payments[0].status.PayPaid?
            && |db.subs| == 1 && db.subs[0].status.SubPending? && db.inFlight == {Debit(0, 0, 0, 500, 30, 500)}
            && |db.ledger| == 2 && db.overwritten == []
  {
    var db2 := Step(Step(EMPTY, DEBITED_RUN[0]), DEBITED_RUN[1]);
    RunSnoc([], DEBITED_RUN[0]);
    RunSnoc([] + [DEBITED_RUN[0]], DEBITED_RUN[1]);
    RunSnoc([] + [DEBITED_RUN[0]] + [DEBITED_RUN[1]], DEBITED_RUN[2]);
    assert DEBITED_RUN == [] + [DEBITED_RUN[0]] + [DEBITED_RUN[1]] + [DEBITED_RUN[2]];
    hide Run, RunFrom;
    assert db2.users == [User(1000)] && db2.payments == [] && db2.subs == [] && db2.inFlight == {};
    assert |db2.ledger| == 1 && db2.overwritten == [];
  }

  /** A user with 1000 pays 500 for 30 days; the answer of the provider cannot be read. */
  lemma CrashExample()
    ensures var db := Run(CRASHED_RUN);
            && db.users == [User(500)] && |db.payments| == 1 && db.payments[0].status.PayPaid?
            && |db.subs| == 1 && db.subs[0].status.SubPending? && db.inFlight == {}
            && Stranded(db, Debit(0, 0, 0, 500, 30, 500))
  {
    var d := Debit(0, 0, 0, 500, 30, 500);
    DebitedStart();
    RunKeepsInv(DEBITED_RUN);
    CrashStrands(Run(DEBITED_RUN), d, 1);
    RunSnoc(DEBITED_RUN, FinishPurchase(d, Crashed, 1));
    hide Run, RunFrom, Inv, Stranded;
  }
}
