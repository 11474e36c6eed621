/** What the billing machine guarantees over every run of service calls, whatever
    their order, and however often webhooks are repeated. */
module Guarantees {
  import opened Sums
  import opened Options
  import opened Store
  import opened Invariant
  import opened Machine
  import opened Refunds

  // ----- money -----

  /** Every balance is the sum of the user's ledger rows less what refunds have written over,
      and is not negative. Every row shows the balance right after it if and only if every
      refund found the balance as its debit had left it. */
  lemma LedgerRefinesBalances(events: seq<Event>)
    ensures var db := Run(events);
            && (forall u | 0 <= u < |db.users| ::
                  db.users[u].balance == Sum(db.ledger, OfUser(u)) - Sum(Losses(events), LossBy(u))
                  && db.users[u].balance >= 0)
            && ((forall i | 0 <= i < |db.ledger| ::
                   db.ledger[i].balanceAfter == Sum(db.ledger[..i + 1], OfUser(db.ledger[i].user)))
                <==> Undisturbed(events))
    ensures Undisturbed(events) ==>
              var db := Run(events);
              forall u | 0 <= u < |db.users| :: db.users[u].balance == Sum(db.ledger, OfUser(u))
  {
    RunKeepsInv(events);
    RunLosses(events);
    hide Run, Sum, Undisturbed, Losses;
    forall u: nat ensures Losses(events) == [] ==> Sum(Losses(events), LossBy(u)) == 0 {
      SumOfLosses(Losses(events), u);
    }
  }

  function PaidTopup(): Payment -> int {
    (p: Payment) => if p.purpose.ForTopup? && p.status.PayPaid? then p.amount else 0
  }

  function PaidFromBalance(): Payment -> int {
    (p: Payment) => if p.provider.FromBalance? && p.status.PayPaid? then p.amount else 0
  }

  function RefundedExternally(): Payment -> int {
    (p: Payment) => if p.provider.External? && p.purpose.ForExtension? && p.status.PayRefunded? then p.amount else 0
  }

  lemma {:induction false} DueSplits(payments: seq<Payment>, users: nat, subs: nat)
    requires forall i | 0 <= i < |payments| :: PaymentOk(payments[i], users, subs)
    ensures Sum(payments, Due())
            == Sum(payments, PaidTopup()) + Sum(payments, RefundedExternally()) - Sum(payments, PaidFromBalance())
  {
    if |payments| > 0 {
      DueSplits(payments[..|payments| - 1], users, subs);
      assert PaymentOk(payments[|payments| - 1], users, subs);
    }
  }

  /** All the money on balances, with what refunds have written over: paid top-ups, refunded
      external extensions, 7000 per paid referral, promo grants and admin adjustments, less
      what balance purchases keep. */
  lemma MoneyIsConserved(events: seq<Event>)
    ensures var db := Run(events);
            Sum(db.users, Balance()) + Sum(Losses(events), Loss()) ==
              Sum(db.payments, PaidTopup()) + Sum(db.payments, RefundedExternally())
                - Sum(db.payments, PaidFromBalance())
              + REFERRAL_BONUS * Sum(db.referrals, BonusPaid())
              + Sum(db.activations, Granted())
              + Sum(db.ledger, Adjusted())
    ensures Undisturbed(events) ==> Sum(Losses(events), Loss()) == 0
  {
    RunKeepsInv(events);
    RunLosses(events);
    SumOfLosses(Losses(events), 0);
    hide Run, Sum, LedgerOk, Settled, ReferralsOk, PromosOk, SubsOk, InFlightOk, TimesOk, PaymentOk;
    var db := Run(events);
    DueSplits(db.payments, |db.users|, |db.subs|);
  }

  /** The purchase, refund and top-up rows of a payment add up to what its status says. */
  lemma PaymentsSettle(events: seq<Event>, p: nat)
    requires p < |Run(events).payments|
    ensures var db := Run(events);
            var pay, moved := db.payments[p], Sum(db.ledger, OfPayment(p));
            match pay.provider
            case FromBalance =>
              && (pay.status.PayPaid? ==> moved == -(pay.amount as int))
              && (pay.status.PayRefunded? ==> moved == 0)
              && (pay.status.PayPaid? || pay.status.PayRefunded?)
            case External =>
              match pay.purpose
              case ForTopup => moved == if pay.status.PayPaid? then pay.amount else 0
              case ForExtension => moved == if pay.status.PayRefunded? then pay.amount else 0
              case ForSubscription => moved == 0 && !pay.status.PayRefunded?
  {
    RunKeepsInv(events);
    InvShape(Run(events), p);
    hide Run, Sum, LedgerOk, ReferralsOk, PromosOk, SubsOk, InFlightOk, TimesOk, Conserved;
  }

  /** Between its two phases a balance purchase is debited and nothing else. */
  lemma InFlightIsDebited(events: seq<Event>, d: Debit)
    requires d in Run(events).inFlight
    ensures var db := Run(events);
            && d.payment < |db.payments| && db.payments[d.payment].status.PayPaid?
            && Sum(db.ledger, OfPayment(d.payment)) == -(d.price as int)
            && d.sub < |db.subs| && db.subs[d.sub].status.SubPending?
  {
    RunKeepsInv(events);
    hide Run, Sum, LedgerOk, ReferralsOk, PromosOk, SubsOk, TimesOk, Conserved;
    assert DebitOk(d, Run(events).payments, Run(events).subs);
  }

  // ----- time -----

  /** The days that the payment has bought for subscription s: those its order names, or the
      subscription's own if it names none, once it is paid and not refunded. */
  function BoughtFor(s: nat, own: nat): Payment -> int {
    (p: Payment) =>
      if p.purpose == ForExtension && p.status == PayPaid && p.extension.Some? && p.extension.value.sub == s
      then (if p.extension.value.days > 0 then p.extension.value.days else own) else 0
  }

  /** Once started, a subscription runs at least for its own days and those of every
      extension that was paid and not refunded. */
  lemma PaidTimeIsKept(events: seq<Event>, s: nat)
    requires s < |Run(events).subs| && Run(events).subs[s].startedAt.Some?
    ensures var db := Run(events); var sub := db.subs[s];
            sub.expiresAt.Some?
            && sub.expiresAt.value >= sub.startedAt.value
                 + 86400 * (sub.days + Sum(db.payments, BoughtFor(s, sub.days)))
  {
    RunKeepsInv(events);
    hide Run, Sum, LedgerOk, Settled, ReferralsOk, PromosOk, InFlightOk, Conserved;
    var db := Run(events);
    assert SubOk(db.subs[s]) && TimeOk(s, db.subs[s], db.payments);
    var own := db.subs[s].days;
    SumAtMost(db.payments, DaysFor(s, own), BoughtFor(s, own));
    SumAtMost(db.payments, BoughtFor(s, own), DaysFor(s, own));
  }

  // ----- referrals -----

  lemma {:induction false} AtMostOne(referrals: seq<Referral>, p: nat, referee: nat)
    requires forall i, j | 0 <= i < j < |referrals| :: referrals[i].referee != referrals[j].referee
    requires forall i | 0 <= i < |referrals| && PaidFor(p)(referrals[i]) == 1 :: referrals[i].referee == referee
    ensures Sum(referrals, PaidFor(p)) <= 1
  {
    if |referrals| > 0 {
      var n := |referrals| - 1;
      if PaidFor(p)(referrals[n]) == 1 {
        SumZero(referrals[..n], PaidFor(p));
      } else {
        AtMostOne(referrals[..n], p, referee);
      }
    }
  }

  /** The earnings a user sees are 7000 per invited user whose first order was paid; nobody
      is invited twice, and one order pays the bonus of one referral at most once. */
  lemma ReferralsAddUp(events: seq<Event>, u: nat)
    ensures var db := Run(events);
            && Sum(db.ledger, BonusOf(u)) == REFERRAL_BONUS * Sum(db.referrals, PaidTo(u))
            && Sum(db.referrals, PaidTo(u)) <= Sum(db.referrals, InvitedBy(u))
            && (forall i, j | 0 <= i < j < |db.referrals| :: db.referrals[i].referee != db.referrals[j].referee)
  {
    RunKeepsInv(events);
    hide Run, Sum, LedgerOk, Settled, PromosOk, SubsOk, InFlightOk, TimesOk, Conserved;
    SumAtMost(Run(events).referrals, PaidTo(u), InvitedBy(u));
  }

  /** Each paid referral was paid by exactly one ledger row, for a real order of its referee. */
  lemma EachReferralPaidOnce(events: seq<Event>, r: nat)
    requires r < |Run(events).referrals| && Run(events).referrals[r].bonusPaid
    ensures var db := Run(events); var row := db.referrals[r];
            && row.firstPurchase.Some? && row.firstPurchase.value < |db.payments|
            && db.payments[row.firstPurchase.value].user == row.referee
            && !db.payments[row.firstPurchase.value].purpose.ForTopup?
            && Sum(db.ledger, BonusVia(row.firstPurchase.value)) == 1
  {
    RunKeepsInv(events);
    hide Run, Sum, LedgerOk, Settled, PromosOk, SubsOk, InFlightOk, TimesOk, Conserved;
    var db := Run(events);
    assert PaidForOk(db.referrals[r], db.payments);
    var p := db.referrals[r].firstPurchase.value;
    forall i | 0 <= i < |db.referrals| && PaidFor(p)(db.referrals[i]) == 1
      ensures db.referrals[i].referee == db.payments[p].user
    {
      assert PaidForOk(db.referrals[i], db.payments);
    }
    AtMostOne(db.referrals, p, db.payments[p].user);
    SumAtLeast(db.referrals, PaidFor(p));
    assert PaidFor(p)(db.referrals[r]) == 1;
  }

  // ----- promo codes -----

  /** The counter of a promo is its number of activations, and neither limit is ever exceeded. */
  lemma PromosStayWithinLimits(events: seq<Event>, p: nat, u: nat)
    requires p < |Run(events).promos|
    ensures var db := Run(events);
            && db.promos[p].current == Sum(db.activations, OfPromo(p))
            && (db.promos[p].maxTotal.Some? ==> db.promos[p].current <= db.promos[p].maxTotal.value)
            && Sum(db.activations, OfPromoUser(p, u)) <= db.promos[p].maxPerUser
  {
    RunKeepsInv(events);
    hide Run, Sum, LedgerOk, Settled, ReferralsOk, SubsOk, InFlightOk, TimesOk, Conserved;
  }

  function GrantedBy(p: nat): Activation -> int {
    (a: Activation) => if a.promo == p && a.payment.None? then a.amount else 0
  }

  function GrantedTo(p: nat, u: nat): Activation -> int {
    (a: Activation) => if a.promo == p && a.user == u && a.payment.None? then a.amount else 0
  }

  lemma {:induction false} GrantsBounded(activations: seq<Activation>, p: nat, u: nat, value: nat)
    requires forall i | 0 <= i < |activations| && activations[i].promo == p && activations[i].payment.None? ::
               activations[i].amount == value
    ensures Sum(activations, GrantedBy(p)) <= value * Sum(activations, OfPromo(p))
    ensures Sum(activations, GrantedTo(p, u)) <= value * Sum(activations, OfPromoUser(p, u))
  {
    if |activations| > 0 {
      var before, last := activations[..|activations| - 1], activations[|activations| - 1];
      GrantsBounded(before, p, u, value);
      OneMore(value, Sum(before, OfPromo(p)), OfPromo(p)(last));
      OneMore(value, Sum(before, OfPromoUser(p, u)), OfPromoUser(p, u)(last));
    }
  }

  lemma OneMore(value: nat, n: int, more: int)
    ensures value * (n + more) == value * n + value * more
  {
  }

  /** What a promo can ever give away, in all and to one user. */
  lemma GrantsAreBounded(events: seq<Event>, p: nat, u: nat)
    requires p < |Run(events).promos|
    ensures var db := Run(events);
            && (db.promos[p].maxTotal.Some? ==>
                  Sum(db.activations, GrantedBy(p)) <= db.promos[p].value * db.promos[p].maxTotal.value)
            && Sum(db.activations, GrantedTo(p, u)) <= db.promos[p].value * db.promos[p].maxPerUser
  {
    PromosStayWithinLimits(events, p, u);
    RunKeepsInv(events);
    hide Run, Sum, LedgerOk, Settled, ReferralsOk, SubsOk, InFlightOk, TimesOk, Conserved;
    var db := Run(events);
    GrantsBounded(db.activations, p, u, db.promos[p].value);
    if db.promos[p].maxTotal.Some? {
      MulMonotone(db.promos[p].value, Sum(db.activations, OfPromo(p)), db.promos[p].maxTotal.value);
    }
    MulMonotone(db.promos[p].value, Sum(db.activations, OfPromoUser(p, u)), db.promos[p].maxPerUser);
  }

  lemma MulMonotone(v: nat, a: int, b: int)
    requires a <= b
    ensures v * a <= v * b
  {
  }
}
