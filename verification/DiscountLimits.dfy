/** Discounted orders against the limits of their promo. An order is discounted when it is
    created, without a look at the limits; the use is recorded when it is settled, if there
    is room. So the limits bound what is recorded, not what is discounted. */
module DiscountLimits {
  import opened Sums
  import opened Options
  import opened Store
  import opened Invariant
  import opened Machine
  import opened Statuses
  import PromoService
  import ReferralService
  import PaymentService
  import BalanceService
  import Reconcile
  import Progress
  import Confluence
  import Effects

  /** Orders settled at a price that promo p has lowered. */
  function Discounted(p: nat): Payment -> int {
    (pay: Payment) => if pay.discount.Some? && pay.discount.value.promo == p && !Unpaid(pay) then 1 else 0
  }

  function Recorded(p: nat): Activation -> int {
    (a: Activation) => if a.promo == p && a.payment.Some? then 1 else 0
  }

  /** The payment that a webhook settles. */
  function SettledBy(db: Db, e: Event): Option<nat> {
    if !e.Webhook? then None
    else
      var found := FindPayment(db.payments, e.externalId);
      if found.None? then None
      else
        var pay := db.payments[found.value];
        var dies := !pay.purpose.ForTopup? && pay.extension.Some? && e.answer.Crashed?;
        if Unpaid(pay) && SaysPaid(e.status) && !dies then found else None
  }

  /** The call settles an order discounted by promo p, and its use is not recorded: the promo has
      no room left, or the order, paid through a provider, was free. */
  predicate Unrecorded(db: Db, e: Event, p: nat) {
    match e
    case StartPurchase(user, _, price, promo, _) =>
      var discount := PaymentService.Charge(db, price, promo).1;
      && BalanceService.Affordable(db, user, price, promo) && discount.Some? && discount.value.promo == p
      && !Progress.PromoUsed(db, user, price, promo)
    case Webhook(_, _, _, _) =>
      var q := SettledBy(db, e);
      && q.Some? && db.payments[q.value].discount.Some? && db.payments[q.value].discount.value.promo == p
      && !(Effects.RealOrder(db.payments[q.value]) && Effects.PromoCounts(db, db.payments[q.value]))
    case _ => false
  }

  /** How many calls of the run do that. */
  function UnrecordedIn(events: seq<Event>, p: nat): nat {
    if |events| == 0 then 0
    else
      var n := |events| - 1;
      UnrecordedIn(events[..n], p) + if Unrecorded(Run(events[..n]), events[n], p) then 1 else 0
  }

  function Gap(db: Db, p: nat): int { Sum(db.payments, Discounted(p)) - Sum(db.activations, Recorded(p)) }

  // ----- one call -----

  /** Payments and activations that move only outside the two weights. */
  lemma GapStays(db: Db, db': Db, p: nat)
    requires |db.payments| <= |db'.payments| && db.activations <= db'.activations
    requires forall i | 0 <= i < |db.payments| :: Discounted(p)(db'.payments[i]) == Discounted(p)(db.payments[i])
    requires forall i | |db.payments| <= i < |db'.payments| :: Discounted(p)(db'.payments[i]) == 0
    requires forall i | |db.activations| <= i < |db'.activations| :: Recorded(p)(db'.activations[i]) == 0
    ensures Gap(db', p) == Gap(db, p)
  {
    hide Sum;
    var n, m := |db.payments|, |db.activations|;
    SameWeight(db.payments, db'.payments[..n], Discounted(p));
    SumConcat(db'.payments[..n], db'.payments[n..], Discounted(p));
    SumZero(db'.payments[n..], Discounted(p));
    assert db'.payments == db'.payments[..n] + db'.payments[n..];
    SumConcat(db.activations, db'.activations[m..], Recorded(p));
    SumZero(db'.activations[m..], Recorded(p));
    assert db'.activations == db.activations + db'.activations[m..];
  }

  lemma {:induction false} SameWeight<T>(a: seq<T>, b: seq<T>, weight: T -> int)
    requires |a| == |b| && forall i | 0 <= i < |a| :: weight(a[i]) == weight(b[i])
    ensures Sum(a, weight) == Sum(b, weight)
  {
    if |a| > 0 {
      SameWeight(a[..|a| - 1], b[..|b| - 1], weight);
    }
  }

  /** The new rows of a balance purchase. */
  lemma StartRows(db: Db, user: nat, days: nat, price: nat, promo: Option<nat>, now: int)
    requires BalanceService.Affordable(db, user, price, promo)
    ensures var discount := PaymentService.Charge(db, price, promo).1;
            var db' := BalanceService.StartPurchase(db, user, days, price, promo, now);
            && |db'.payments| == |db.payments| + 1 && db'.payments == db.payments + [db'.payments[|db.payments|]]
            && db'.payments[|db.payments|].discount == discount && db'.payments[|db.payments|].status.PayPaid?
            && if !Progress.PromoUsed(db, user, price, promo) then db'.activations == db.activations
               else
                 && |db'.activations| == |db.activations| + 1
                 && db'.activations == db.activations + [db'.activations[|db.activations|]]
                 && db'.activations[|db.activations|].promo == discount.value.promo
                 && db'.activations[|db.activations|].payment.Some?
  {
    hide Sum;
  }

  /** One settled order more, recorded or not. */
  lemma OneMore(db: Db, db': Db, row: Payment, p: nat)
    requires db'.payments == db.payments + [row] && !Unpaid(row)
    requires db'.activations == db.activations
             || (|db'.activations| == |db.activations| + 1 && row.discount.Some?
                 && db'.activations == db.activations + [db'.activations[|db.activations|]]
                 && db'.activations[|db.activations|].promo == row.discount.value.promo
                 && db'.activations[|db.activations|].payment.Some?)
    ensures Gap(db', p) == Gap(db, p)
              + if db'.activations == db.activations && row.discount.Some?
                && row.discount.value.promo == p then 1 else 0
  {
    hide Sum;
    SumAppend(db.payments, row, Discounted(p));
    if db'.activations != db.activations {
      SumAppend(db.activations, db'.activations[|db.activations|], Recorded(p));
    }
  }

  lemma StartGap(db: Db, user: nat, days: nat, price: nat, promo: Option<nat>, now: int, p: nat)
    ensures var e := StartPurchase(user, days, price, promo, now);
            Gap(Step(db, e), p) == Gap(db, p) + if Unrecorded(db, e, p) then 1 else 0
  {
    hide Gap, Progress.PromoUsed, PaymentService.Charge;
    if BalanceService.Affordable(db, user, price, promo) {
      StartRows(db, user, days, price, promo, now);
      var db' := BalanceService.StartPurchase(db, user, days, price, promo, now);
      OneMore(db, db', db'.payments[|db.payments|], p);
      OnlyDiscountsUsePromos(db, user, price, promo);
      hide BalanceService.StartPurchase;
    }
  }

  lemma OnlyDiscountsUsePromos(db: Db, user: nat, price: nat, promo: Option<nat>)
    ensures Progress.PromoUsed(db, user, price, promo) ==> PaymentService.Charge(db, price, promo).1.Some?
  {
  }

  /** A settling delivery: one order turns from open to settled, recorded or not. */
  lemma OneSettled(db: Db, db': Db, q: nat, p: nat)
    requires q < |db.payments| && |db'.payments| == |db.payments| && db'.payments == db.payments[q := db'.payments[q]]
    requires Unpaid(db.payments[q]) && !Unpaid(db'.payments[q]) && db'.payments[q].discount == db.payments[q].discount
    requires db'.activations == db.activations
             || (|db'.activations| == |db.activations| + 1 && db.payments[q].discount.Some?
                 && db'.activations == db.activations + [db'.activations[|db.activations|]]
                 && db'.activations[|db.activations|].promo == db.payments[q].discount.value.promo
                 && db'.activations[|db.activations|].payment.Some?)
    ensures var discount := db.payments[q].discount;
            Gap(db', p) == Gap(db, p)
              + if db'.activations == db.activations && discount.Some? && discount.value.promo == p then 1 else 0
  {
    hide Sum;
    SumUpdate(db.payments, q, db'.payments[q], Discounted(p));
    if db'.activations != db.activations {
      SumAppend(db.activations, db'.activations[|db.activations|], Recorded(p));
    }
  }

  lemma PaidStep(db: Db, e: Event)
    requires SettledBy(db, e).Some?
    ensures Step(db, e) == PaymentService.HandlePaid(db, SettledBy(db, e).value, e.answer, e.now)
    ensures !PaymentService.Aborts(db.payments[SettledBy(db, e).value], e.answer)
  {
    StatusIsRead(e.status);
    hide PaymentService.HandlePaid, PaymentService.Classify, SaysPaid, SaysFailed, SaysExpired;
  }

  lemma PaidGap(db: Db, e: Event, p: nat)
    requires Inv(db) && SettledBy(db, e).Some?
    ensures Gap(Step(db, e), p) == Gap(db, p) + if Unrecorded(db, e, p) then 1 else 0
  {
    hide Inv, Gap, PaymentService.HandlePaid, PaymentService.Classify, SaysPaid, Effects.PromoCounts;
    var q := SettledBy(db, e).value;
    PaidStep(db, e);
    var db' := PaymentService.HandlePaid(db, q, e.answer, e.now);
    Confluence.PaidCloses(db, q, e.answer, e.now);
    Effects.DeliveryRecordsPromo(db, q, e.externalId, e.status, e.answer, e.now);
    CountsIsDiscounted(db, db.payments[q]);
    if |db'.activations| > |db.activations| {
      assert db'.activations == db.activations + [db'.activations[|db.activations|]];
    }
    OneSettled(db, db', q, p);
  }

  lemma CountsIsDiscounted(db: Db, pay: Payment)
    ensures Effects.PromoCounts(db, pay) ==> pay.discount.Some?
  {
  }

  lemma OpenWebhookGap(db: Db, e: Event, p: nat)
    requires e.Webhook? && SettledBy(db, e).None?
    ensures Gap(Step(db, e), p) == Gap(db, p)
  {
    StatusIsRead(e.status);
    hide Sum, PaymentService.Classify, PaymentService.Settle, PaymentService.Hooks, Gap;
    hide SaysPaid, SaysFailed, SaysExpired;
    GapStays(db, Step(db, e), p);
  }

  lemma ExtendGap(db: Db, e: Event, p: nat)
    requires e.ExtendWithBalance?
    ensures Gap(Step(db, e), p) == Gap(db, p)
  {
    hide Sum, Gap;
    GapStays(db, Step(db, e), p);
  }

  lemma FinishGap(db: Db, e: Event, p: nat)
    requires Inv(db) && e.FinishPurchase?
    ensures Gap(Step(db, e), p) == Gap(db, p)
  {
    hide Inv, Sum, Gap;
    if e.debit in db.inFlight {
      InFlightShape(db, e.debit);
      GapStays(db, Step(db, e), p);
    }
  }

  lemma OthersGap(db: Db, e: Event, p: nat)
    requires !e.StartPurchase? && !e.Webhook? && !e.ExtendWithBalance? && !e.FinishPurchase?
    ensures Gap(Step(db, e), p) == Gap(db, p)
  {
    hide Sum, Gap, PaymentService.Charge, ReferralService.RegistrationRefusal, PromoService.Refusal, Reconcile.Pass;
    GapStays(db, Step(db, e), p);
  }

  lemma StepGap(db: Db, e: Event, p: nat)
    requires Inv(db)
    ensures Gap(Step(db, e), p) == Gap(db, p) + if Unrecorded(db, e, p) then 1 else 0
  {
    hide Inv, Sum, Step, Gap, SettledBy;
    if e.StartPurchase? {
      StartGap(db, e.user, e.days, e.price, e.promoId, e.now, p);
    } else if e.Webhook? && SettledBy(db, e).Some? {
      PaidGap(db, e, p);
    } else if e.Webhook? {
      OpenWebhookGap(db, e, p);
    } else if e.ExtendWithBalance? {
      ExtendGap(db, e, p);
    } else if e.FinishPurchase? {
      FinishGap(db, e, p);
    } else {
      OthersGap(db, e, p);
    }
  }

  // ----- runs -----

  /** Over any run, the settled orders that a promo has discounted outnumber its recorded uses by
      exactly the orders that found no room for theirs; so the two agree if and only if every
      discounted order was recorded when it was settled. */
  lemma {:induction false} DiscountsOutnumberUses(events: seq<Event>, p: nat)
    ensures var db := Run(events);
            Sum(db.payments, Discounted(p)) == Sum(db.activations, Recorded(p)) + UnrecordedIn(events, p)
  {
    hide Inv, Step, Unrecorded;
    if |events| > 0 {
      var n := |events| - 1;
      DiscountsOutnumberUses(events[..n], p);
      RunKeepsInv(events[..n]);
      StepGap(Run(events[..n]), events[n], p);
    }
  }
}
