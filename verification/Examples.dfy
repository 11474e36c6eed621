/** Runs in which the exact conditions of the general results fail. */
module Examples {
  import opened Sums
  import opened Options
  import opened Store
  import opened Invariant
  import opened Machine
  import opened Refunds
  import Crash
  import opened Statuses
  import DiscountLimits
  import PaymentService
  import PromoService

  // ----- a refund writes over what has happened since the debit -----

  const MOVED_RUN := Crash.DEBITED_RUN + [AdjustBalance(0, 200)]

  const STALE_RUN := MOVED_RUN + [FinishPurchase(Debit(0, 0, 0, 500, 30, 500), Rejected, 1)]

  lemma MovedBalance()
    ensures var db := Run(MOVED_RUN);
            && db.users == [User(700)] && |db.payments| == 1 && |db.subs| == 1 && |db.ledger| == 3
            && db.inFlight == {Debit(0, 0, 0, 500, 30, 500)} && db.overwritten == []
  {
    Crash.DebitedStart();
    RunSnoc(Crash.DEBITED_RUN, AdjustBalance(0, 200));
    hide Run, RunFrom;
  }

  /** A user with 1000 is debited 500, is given 200, and is refunded: 1000 are left where the
      ledger sums to 1200, and the refund's row shows 1000. */
  lemma StaleExample()
    ensures var db := Run(STALE_RUN);
            && db.users == [User(1000)] && Sum(db.ledger, OfUser(0)) == 1200
            && |db.ledger| == 4 && db.ledger[3].balanceAfter == 1000
            && db.overwritten == [Overwrite(0, 200)]
            && !RunningOk(db.ledger) && !Undisturbed(STALE_RUN)
  {
    hide Inv, Sum, Run, RunFrom, Undisturbed, RunningOk;
    var db := Run(STALE_RUN);
    MovedBalance();
    RunSnoc(MOVED_RUN, FinishPurchase(Debit(0, 0, 0, 500, 30, 500), Rejected, 1));
    assert db.users == [User(1000)] && db.overwritten == [Overwrite(0, 200)];
    RunKeepsInv(STALE_RUN);
    LedgerFacts(db, 0);
    SumOfLosses(db.overwritten, 0);
    RunLosses(STALE_RUN);
  }

  /** One use for each user, half the price. */
  const HALF := Promo(DiscountPromo, 50, None, 1, 0, true, None, None, None)

  // ----- a refund does not give the promo back -----

  const USED_UP_RUN := [
    NewUser,
    NewPromo(HALF),
    AdjustBalance(0, 1000),
    StartPurchase(0, 30, 500, Some(0), 0),
    FinishPurchase(Debit(0, 0, 0, 250, 30, 750), Rejected, 1)]

  lemma UsesPromo()
    ensures var db := Run(USED_UP_RUN[..4]);
            && db.users == [User(750)] && |db.payments| == 1 && |db.subs| == 1
            && db.activations == [Activation(0, 0, Some(0), 250)] && db.promos == [HALF.(current := 1)]
            && db.inFlight == {Debit(0, 0, 0, 250, 30, 750)}
  {
    var start := [] + [USED_UP_RUN[0]] + [USED_UP_RUN[1]];
    var db3 := Step(Step(Step(EMPTY, USED_UP_RUN[0]), USED_UP_RUN[1]), USED_UP_RUN[2]);
    RunSnoc([], USED_UP_RUN[0]);
    RunSnoc([] + [USED_UP_RUN[0]], USED_UP_RUN[1]);
    RunSnoc(start, USED_UP_RUN[2]);
    RunSnoc(start + [USED_UP_RUN[2]], USED_UP_RUN[3]);
    assert USED_UP_RUN[..4] == start + [USED_UP_RUN[2]] + [USED_UP_RUN[3]];
    hide Run, RunFrom;
    assert db3.users == [User(1000)] && db3.promos == [HALF] && db3.activations == [] && db3.payments == [];
    assert db3.subs == [] && db3.inFlight == {};
    assert !PromoService.UsedUp(db3, 0, 0);
  }

  /** The money is back, the subscription failed, and the promo's only use is gone. */
  lemma UsedUpExample()
    ensures var db := Run(USED_UP_RUN);
            && db.users == [User(1000)] && |db.payments| == 1 && db.payments[0].status.PayRefunded?
            && |db.subs| == 1 && db.subs[0].status.SubFailed?
            && |db.promos| == 1 && db.promos[0].current == 1
            && PromoService.Refusal(db, Some(0), 0, 2) == Some(PromoService.PerUserExceeded)
  {
    UsesPromo();
    RunSnoc(USED_UP_RUN[..4], USED_UP_RUN[4]);
    assert USED_UP_RUN == USED_UP_RUN[..4] + [USED_UP_RUN[4]];
    var db := Run(USED_UP_RUN[..4]);
    hide Run, RunFrom;
    assert Sum(db.activations, OfPromoUser(0, 0)) == 1;
  }

  lemma RunFive(events: seq<Event>)
    requires |events| == 5
    ensures Run(events) == Step(Step(Step(Step(Step(EMPTY, events[0]), events[1]), events[2]), events[3]), events[4])
  {
    RunSnoc([], events[0]);
    RunSnoc(events[..1], events[1]);
    RunSnoc(events[..2], events[2]);
    RunSnoc(events[..3], events[3]);
    RunSnoc(events[..4], events[4]);
    assert events[..1] == [] + [events[0]] && events[..2] == events[..1] + [events[1]];
    assert events[..3] == events[..2] + [events[2]] && events[..4] == events[..3] + [events[3]];
    assert events == events[..4] + [events[4]];
  }

  // ----- a refunded extension pays the referrer -----

  const INVITED := [
    NewUser,
    NewUser,
    RegisterReferral(0, 1, true),
    AdjustBalance(1, 500),
    StartPurchase(1, 30, 500, None, 0)]

  const EXTENDING := INVITED + [
    FinishPurchase(Debit(1, 0, 0, 500, 30, 0), Accepted(Some("k")), 1),
    CreateExtensionPayment(1, 0, 30, 300, "x")]

  const REFUNDED_EXTENSION := EXTENDING + [Webhook("x", "paid", Rejected, 2)]

  lemma InvitedBuys()
    ensures var db := Run(INVITED);
            && db.users == [User(0), User(0)] && |db.payments| == 1 && db.payments[0].externalId.None?
            && |db.subs| == 1 && db.subs[0].user == 1
            && db.referrals == [Referral(0, 1, false, None, None)] && db.inFlight == {Debit(1, 0, 0, 500, 30, 0)}
  {
    var db4 := Step(Step(Step(Step(EMPTY, INVITED[0]), INVITED[1]), INVITED[2]), INVITED[3]);
    RunFive(INVITED);
    hide Run, RunFrom;
    assert db4.users == [User(0), User(500)] && db4.referrals == [Referral(0, 1, false, None, None)];
    assert db4.payments == [] && db4.subs == [] && db4.inFlight == {};
  }

  lemma InvitedExtends()
    ensures var db := Run(EXTENDING);
            && db.users == [User(0), User(0)] && |db.payments| == 2 && |db.subs| == 1
            && db.payments[1] == Payment(1, Some(0), ForExtension, External, Some("x"), 300, PayPending, None,
                                         Some(Extension(0, 30)), None)
            && db.referrals == [Referral(0, 1, false, None, None)]
  {
    var e5 := FinishPurchase(Debit(1, 0, 0, 500, 30, 0), Accepted(Some("k")), 1);
    var e6 := CreateExtensionPayment(1, 0, 30, 300, "x");
    InvitedBuys();
    RunSnoc(INVITED, e5);
    RunSnoc(INVITED + [e5], e6);
    assert EXTENDING == INVITED + [e5] + [e6];
    var db6 := Step(Run(INVITED), e5);
    hide Run, RunFrom;
    assert db6.subs[0].status.SubActive? && db6.subs[0].providerId == Some("k") && FindPayment(db6.payments, "x").None?;
  }

  /** The invited user has the extension's price back on the balance, and the referrer is paid for it. */
  lemma RefundedExtensionExample()
    ensures var db := Run(REFUNDED_EXTENSION);
            && db.users == [User(7000), User(300)]
            && |db.payments| == 2 && db.payments[1].status.PayRefunded?
            && |db.referrals| == 1 && db.referrals[0].bonusPaid && db.referrals[0].firstPurchase == Some(1)
  {
    InvitedExtends();
    RunSnoc(EXTENDING, Webhook("x", "paid", Rejected, 2));
    PaidIsPaid();
    StatusIsRead("paid");
    var db := Run(EXTENDING);
    hide Run, RunFrom, PaymentService.Classify;
    assert FindPayment(db.payments, "x") == Some(1) && FindReferral(db.referrals, 1) == Some(0);
  }

  // ----- two discounted orders, one recorded use -----

  const ORDERED := [
    NewUser,
    NewPromo(HALF),
    CreateSubscriptionPayment(0, 30, 500, Some(0), "a"),
    CreateSubscriptionPayment(0, 30, 500, Some(0), "b")]

  const PAID_ONCE := ORDERED + [Webhook("a", "paid", Accepted(Some("k")), 0)]

  const TWICE := PAID_ONCE + [Webhook("b", "paid", Accepted(Some("l")), 1)]

  function HalfPriced(s: nat, externalId: string): Payment {
    Payment(0, Some(s), ForSubscription, External, Some(externalId), 250, PayPending, None, None,
            Some(Discounted(0, 500)))
  }

  lemma OneOrder()
    ensures var db := Run(ORDERED[..3]);
            && db.users == [User(0)] && |db.subs| == 1 && db.payments == [HalfPriced(0, "a")]
            && db.promos == [HALF] && db.activations == [] && db.referrals == []
  {
    assert ORDERED[..3] == [] + [ORDERED[0]] + [ORDERED[1]] + [ORDERED[2]];
    RunSnoc([], ORDERED[0]);
    RunSnoc([] + [ORDERED[0]], ORDERED[1]);
    RunSnoc([] + [ORDERED[0]] + [ORDERED[1]], ORDERED[2]);
    hide Run, RunFrom;
  }

  lemma TwoOrders()
    ensures var db := Run(ORDERED);
            && db.users == [User(0)] && |db.subs| == 2 && db.payments == [HalfPriced(0, "a"), HalfPriced(1, "b")]
            && db.promos == [HALF] && db.activations == [] && db.referrals == []
  {
    OneOrder();
    assert ORDERED == ORDERED[..3] + [ORDERED[3]];
    RunSnoc(ORDERED[..3], ORDERED[3]);
    var db := Run(ORDERED[..3]);
    hide Run, RunFrom;
    assert FindPayment(db.payments, "b").None?;
  }

  lemma SettlesFirst(db: Db)
    requires db.payments == [HalfPriced(0, "a"), HalfPriced(1, "b")] && |db.subs| == 2
    ensures var settled := PaymentService.Settle(db, 0, Accepted(Some("k")), 0);
            && |settled.payments| == 2
            && settled.payments[0] == HalfPriced(0, "a").(status := PayPaid, paidAt := Some(0))
            && settled.payments[1] == HalfPriced(1, "b") && |settled.subs| == 2
            && settled.promos == db.promos && settled.activations == db.activations && settled.referrals == db.referrals
    ensures FindPayment(db.payments, "a") == Some(0)
  {
    assert db.payments[..1] == [HalfPriced(0, "a")];
  }

  lemma RecordsOnce(settled: Db)
    requires |settled.payments| == 2 && settled.payments[0] == HalfPriced(0, "a").(status := PayPaid, paidAt := Some(0))
    requires settled.promos == [HALF] && settled.activations == [] && settled.referrals == []
    ensures PaymentService.Hooks(settled, 0, 0)
            == settled.(promos := [HALF.(current := 1)], activations := [Activation(0, 0, Some(0), 250)])
  {
    assert !PromoService.UsedUp(settled, 0, 0);
  }

  lemma OnceRecorded()
    ensures var db := Run(PAID_ONCE);
            && |db.payments| == 2 && db.payments[0].status.PayPaid? && db.payments[0].amount == 250
            && db.payments[0].discount == Some(Discounted(0, 500))
            && db.payments[1] == HalfPriced(1, "b") && |db.subs| == 2
            && db.promos == [HALF.(current := 1)] && db.activations == [Activation(0, 0, Some(0), 250)]
            && db.referrals == []
  {
    TwoOrders();
    var db := Run(ORDERED);
    RunSnoc(ORDERED, Webhook("a", "paid", Accepted(Some("k")), 0));
    PaidIsPaid();
    StatusIsRead("paid");
    SettlesFirst(db);
    RecordsOnce(PaymentService.Settle(db, 0, Accepted(Some("k")), 0));
    hide Run, RunFrom, PaymentService.Classify, PaymentService.Settle, PaymentService.Hooks, FindPayment;
  }

  lemma TwicePaid()
    ensures var db := Run(TWICE);
            && |db.payments| == 2 && db.payments[0].status.PayPaid? && db.payments[1].status.PayPaid?
            && db.payments[0].amount == db.payments[1].amount == 250
            && db.payments[0].discount == db.payments[1].discount == Some(Discounted(0, 500))
            && db.promos == [HALF.(current := 1)] && db.activations == [Activation(0, 0, Some(0), 250)]
  {
    var e := Webhook("b", "paid", Accepted(Some("l")), 1);
    OnceRecorded();
    RunSnoc(PAID_ONCE, e);
    PaidIsPaid();
    StatusIsRead("paid");
    var db := Run(PAID_ONCE);
    hide Run, RunFrom, PaymentService.Classify;
    assert FindPayment(db.payments, "b") == Some(1);
    assert Sum(db.activations, OfPromoUser(0, 0)) == 1;
  }

  lemma SumOfTwo<T>(s: seq<T>, weight: T -> int)
    requires |s| == 2
    ensures Sum(s, weight) == weight(s[0]) + weight(s[1])
  {
    assert s == [] + [s[0]] + [s[1]];
    SumAppend([], s[0], weight);
    SumAppend([] + [s[0]], s[1], weight);
  }

  /** Both orders are paid at half the price, though the user has one use; one of them is not recorded. */
  lemma TwiceExample()
    ensures var db := Run(TWICE);
            && |db.payments| == 2 && db.payments[0].status.PayPaid? && db.payments[1].status.PayPaid?
            && db.payments[0].amount == db.payments[1].amount == 250
            && db.promos == [HALF.(current := 1)] && HALF.maxPerUser == 1 && |db.activations| == 1
            && DiscountLimits.UnrecordedIn(TWICE, 0) == 1
  {
    var db := Run(TWICE);
    TwicePaid();
    DiscountLimits.DiscountsOutnumberUses(TWICE, 0);
    hide Run, DiscountLimits.UnrecordedIn;
    SumOfTwo(db.payments, DiscountLimits.Discounted(0));
    SumAppend([], db.activations[0], DiscountLimits.Recorded(0));
    assert [] + [db.activations[0]] == db.activations;
  }
}
