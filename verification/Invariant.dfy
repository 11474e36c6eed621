/** What every reachable state of the billing database satisfies, and how the
    two primitive updates (a posting, a new row) act on it. */
module Invariant {
  import opened Sums
  import opened Options
  import opened Store

  /** Shape of a payment row and its foreign keys. */
  ghost predicate PaymentOk(p: Payment, users: nat, subs: nat) {
    && p.user < users
    && (p.sub.Some? ==> p.sub.value < subs)
    && (p.discount.Some? ==> p.amount <= p.discount.value.original)
    && (p.provider.FromBalance? <==> p.externalId.None?)
    && (p.provider.FromBalance? ==> p.status.PayPaid? || p.status.PayRefunded?)
    && (p.provider.External? && p.status.PayRefunded? ==> p.purpose.ForExtension?)
    && (match p.purpose
        case ForTopup => p.sub.None? && p.extension.None? && p.provider.External?
        case ForSubscription => p.sub.Some? && p.extension.None?
        case ForExtension => p.extension.Some? && p.sub == Some(p.extension.value.sub))
  }

  ghost predicate PaymentsOk(payments: seq<Payment>, users: nat, subs: nat) {
    && (forall i | 0 <= i < |payments| :: PaymentOk(payments[i], users, subs))
    && (forall i, j | 0 <= i < j < |payments| ::
          payments[i].externalId.Some? ==> payments[i].externalId != payments[j].externalId)
  }

  /** Every row carries its user's running sum. */
  ghost predicate RunningOk(ledger: seq<Entry>) {
    forall i | 0 <= i < |ledger| :: ledger[i].balanceAfter == Sum(ledger[..i + 1], OfUser(ledger[i].user))
  }

  /** Every balance is the sum of its user's rows less what was written over, and not negative;
      every row shows the running sum exactly as long as nothing was. */
  ghost predicate LedgerOk(users: seq<User>, ledger: seq<Entry>, overwritten: seq<Overwrite>) {
    && (forall i | 0 <= i < |ledger| :: ledger[i].user < |users|)
    && (forall u | 0 <= u < |users| :: users[u].balance == Sum(ledger, OfUser(u)) - Sum(overwritten, LossBy(u)))
    && (forall u | u >= |users| :: Sum(ledger, OfUser(u)) == 0 && Sum(overwritten, LossBy(u)) == 0)
    && (RunningOk(ledger) <==> overwritten == [])
    && (forall u | 0 <= u < |users| :: users[u].balance >= 0)
  }

  /** The rows that settle a payment add up to what its status says. */
  ghost predicate Settled(payments: seq<Payment>, ledger: seq<Entry>) {
    && (forall p | 0 <= p < |payments| :: Sum(ledger, OfPayment(p)) == Due()(payments[p]))
    && (forall p | p >= |payments| :: Sum(ledger, OfPayment(p)) == 0)
  }

  ghost predicate ReferralsOk(referrals: seq<Referral>, ledger: seq<Entry>, payments: seq<Payment>, users: nat) {
    && (forall i | 0 <= i < |referrals| ::
          referrals[i].referrer < users && referrals[i].referee < users
            && referrals[i].referrer != referrals[i].referee)
    && (forall i, j | 0 <= i < j < |referrals| :: referrals[i].referee != referrals[j].referee)
    && (forall i | 0 <= i < |referrals| && referrals[i].bonusPaid :: PaidForOk(referrals[i], payments))
    && (forall u: nat :: Sum(ledger, BonusOf(u)) == REFERRAL_BONUS * Sum(referrals, PaidTo(u)))
    && (forall p: nat :: Sum(ledger, BonusVia(p)) == Sum(referrals, PaidFor(p)))
  }

  /** A paid referral points at a real order of its referee that was paid. */
  ghost predicate PaidForOk(r: Referral, payments: seq<Payment>) {
    && r.firstPurchase.Some? && r.firstPurchase.value < |payments|
    && var p := payments[r.firstPurchase.value];
       p.user == r.referee && !p.purpose.ForTopup? && p.amount > 0 && (p.status.PayPaid? || p.status.PayRefunded?)
  }

  ghost predicate PromosOk(promos: seq<Promo>, activations: seq<Activation>) {
    && (forall i | 0 <= i < |activations| :: activations[i].promo < |promos|)
    && (forall i | 0 <= i < |activations| && activations[i].payment.None? ::
          activations[i].amount == promos[activations[i].promo].value)
    && (forall p | 0 <= p < |promos| :: promos[p].current == Sum(activations, OfPromo(p)))
    && (forall p | p >= |promos| :: Sum(activations, OfPromo(p)) == 0)
    && (forall p | 0 <= p < |promos| && promos[p].maxTotal.Some? :: promos[p].current <= promos[p].maxTotal.value)
    && (forall p, u: nat | 0 <= p < |promos| :: Sum(activations, OfPromoUser(p, u)) <= promos[p].maxPerUser)
    && (forall p, u: nat | p >= |promos| :: Sum(activations, OfPromoUser(p, u)) == 0)
  }

  /** Money in the system, with what was written over, equals what its sources say. */
  ghost predicate Conserved(users: seq<User>, payments: seq<Payment>, ledger: seq<Entry>,
                            activations: seq<Activation>, referrals: seq<Referral>, overwritten: seq<Overwrite>) {
    Sum(users, Balance()) + Sum(overwritten, Loss()) ==
      Sum(payments, Due()) + REFERRAL_BONUS * Sum(referrals, BonusPaid())
      + Sum(activations, Granted()) + Sum(ledger, Adjusted())
  }

  ghost predicate SubOk(s: Subscription) {
    && (s.status.SubActive? ==> s.startedAt.Some?)
    && (s.startedAt.Some? <==> s.expiresAt.Some?)
    && (s.startedAt.Some? ==> !s.status.SubPending?)
  }

  predicate Unpaid(p: Payment) { !p.status.PayPaid? && !p.status.PayRefunded? }

  /** The first order of a subscription not yet paid: nothing has been provisioned. */
  ghost predicate SubsOk(payments: seq<Payment>, subs: seq<Subscription>) {
    && (forall s | 0 <= s < |subs| :: SubOk(subs[s]))
    && (forall i, j | 0 <= i < j < |payments|
                      && payments[i].purpose.ForSubscription? && payments[j].purpose.ForSubscription? ::
          payments[i].sub != payments[j].sub)
    && (forall i | 0 <= i < |payments| && payments[i].purpose.ForSubscription? && Unpaid(payments[i])
                   && payments[i].sub.Some? && payments[i].sub.value < |subs| ::
          subs[payments[i].sub.value].startedAt.None?)
    && (forall i | 0 <= i < |payments| && payments[i].extension.Some? && payments[i].extension.value.sub < |subs| ::
          subs[payments[i].extension.value.sub].startedAt.Some?)
  }

  ghost predicate DebitOk(d: Debit, payments: seq<Payment>, subs: seq<Subscription>) {
    && d.payment < |payments| && d.sub < |subs|
    && (var p := payments[d.payment];
        p.user == d.user && p.sub == Some(d.sub) && p.amount == d.price
        && p.purpose.ForSubscription? && p.provider.FromBalance? && p.status.PayPaid?)
    && (var s := subs[d.sub]; s.status.SubPending? && s.startedAt.None? && s.days == d.days)
    && d.seen >= 0
  }

  /** Each debited purchase in flight still finds its rows as it left them. */
  ghost predicate InFlightOk(inFlight: set<Debit>, payments: seq<Payment>, subs: seq<Subscription>) {
    && (forall d | d in inFlight :: DebitOk(d, payments, subs))
    && (forall d, e | d in inFlight && e in inFlight && d.payment == e.payment :: d == e)
  }

  /** A started subscription runs at least for its own days and every paid extension. */
  ghost predicate TimeOk(s: nat, sub: Subscription, payments: seq<Payment>) {
    sub.startedAt.Some? && sub.expiresAt.Some? ==>
      sub.expiresAt.value >= sub.startedAt.value + DAY * (sub.days + Sum(payments, DaysFor(s, sub.days)))
  }

  ghost predicate TimesOk(payments: seq<Payment>, subs: seq<Subscription>) {
    forall s | 0 <= s < |subs| :: TimeOk(s, subs[s], payments)
  }

  ghost predicate Inv(db: Db) {
    && PaymentsOk(db.payments, |db.users|, |db.subs|)
    && LedgerOk(db.users, db.ledger, db.overwritten)
    && Settled(db.payments, db.ledger)
    && ReferralsOk(db.referrals, db.ledger, db.payments, |db.users|)
    && PromosOk(db.promos, db.activations)
    && Conserved(db.users, db.payments, db.ledger, db.activations, db.referrals, db.overwritten)
    && SubsOk(db.payments, db.subs)
    && InFlightOk(db.inFlight, db.payments, db.subs)
    && TimesOk(db.payments, db.subs)
  }

  lemma EmptyInv()
    ensures Inv(EMPTY)
  {
    hide Sum, LedgerOk;
    EmptySums();
    EmptyLedger();
  }

  lemma EmptyLedger()
    ensures LedgerOk(EMPTY.users, EMPTY.ledger, EMPTY.overwritten)
  {
  }

  lemma EmptySums()
    ensures forall u: nat :: Sum(EMPTY.ledger, OfUser(u)) == 0 && Sum(EMPTY.ledger, OfPayment(u)) == 0
    ensures forall u: nat :: Sum(EMPTY.ledger, BonusOf(u)) == 0 && Sum(EMPTY.referrals, PaidTo(u)) == 0
    ensures forall u: nat :: Sum(EMPTY.ledger, BonusVia(u)) == 0 && Sum(EMPTY.referrals, PaidFor(u)) == 0
    ensures forall u: nat :: Sum(EMPTY.activations, OfPromo(u)) == 0
    ensures forall p: nat, u: nat :: Sum(EMPTY.activations, OfPromoUser(p, u)) == 0
    ensures Sum(EMPTY.users, Balance()) == Sum(EMPTY.payments, Due()) == Sum(EMPTY.referrals, BonusPaid())
            == Sum(EMPTY.activations, Granted()) == Sum(EMPTY.ledger, Adjusted()) == Sum(EMPTY.overwritten, Loss()) == 0
  {
  }

  lemma NeverNegative(users: seq<User>, ledger: seq<Entry>, overwritten: seq<Overwrite>, u: nat)
    requires LedgerOk(users, ledger, overwritten) && u < |users|
    ensures users[u].balance >= 0
  {
  }

  lemma ActiveStarted(payments: seq<Payment>, subs: seq<Subscription>, s: nat)
    requires SubsOk(payments, subs) && s < |subs|
    ensures SubOk(subs[s]) && (subs[s].status.SubActive? ==> subs[s].startedAt.Some? && subs[s].expiresAt.Some?)
  {
  }

  // ----- a posting -----

  /** A row keeps showing its running sum, or keeps failing to, whatever is appended. */
  lemma RunningAppend(ledger: seq<Entry>, e: Entry)
    ensures RunningOk(ledger + [e]) <==> RunningOk(ledger) && e.balanceAfter == Sum(ledger + [e], OfUser(e.user))
  {
    hide Sum;
    var ledger' := ledger + [e];
    assert ledger'[..|ledger| + 1] == ledger' && ledger'[|ledger|] == e;
    assert forall i | 0 <= i < |ledger| :: ledger'[i] == ledger[i] && ledger'[..i + 1] == ledger[..i + 1];
  }

  lemma UserSums(ledger: seq<Entry>, e: Entry)
    ensures forall u: nat :: Sum(ledger + [e], OfUser(u)) == Sum(ledger, OfUser(u)) + OfUser(u)(e)
  {
    forall u: nat ensures Sum(ledger + [e], OfUser(u)) == Sum(ledger, OfUser(u)) + OfUser(u)(e) {
      SumAppend(ledger, e, OfUser(u));
    }
  }

  lemma PostKeepsLedger(db: Db, user: nat, amount: int, reason: Reason, payment: Option<nat>)
    requires LedgerOk(db.users, db.ledger, db.overwritten) && user < |db.users|
    requires db.users[user].balance + amount >= 0
    ensures var db' := Post(db, user, amount, reason, payment); LedgerOk(db'.users, db'.ledger, db'.overwritten)
  {
    hide Sum, RunningOk;
    var e := Entry(user, amount, reason, payment, db.users[user].balance + amount);
    UserSums(db.ledger, e);
    RunningAppend(db.ledger, e);
    NothingLost(db.overwritten, user);
  }

  lemma NothingLost(overwritten: seq<Overwrite>, u: nat)
    ensures overwritten == [] ==> Sum(overwritten, LossBy(u)) == 0
  {
  }

  lemma LostSums(overwritten: seq<Overwrite>, o: Overwrite)
    ensures forall u: nat :: Sum(overwritten + [o], LossBy(u)) == Sum(overwritten, LossBy(u)) + LossBy(u)(o)
    ensures Sum(overwritten + [o], Loss()) == Sum(overwritten, Loss()) + o.lost
  {
    forall u: nat ensures Sum(overwritten + [o], LossBy(u)) == Sum(overwritten, LossBy(u)) + LossBy(u)(o) {
      SumAppend(overwritten, o, LossBy(u));
    }
    SumAppend(overwritten, o, Loss());
  }

  /** A posting computed from an outdated balance keeps the books, what it wrote over included. */
  lemma PostSeenKeepsLedger(db: Db, user: nat, seen: int, amount: nat, reason: Reason, payment: Option<nat>)
    requires LedgerOk(db.users, db.ledger, db.overwritten) && user < |db.users| && seen >= 0
    ensures var db' := PostSeen(db, user, seen, amount, reason, payment);
            LedgerOk(db'.users, db'.ledger, db'.overwritten)
  {
    hide Sum, RunningOk;
    var current := db.users[user].balance;
    var stored := if amount == 0 then current else seen + amount;
    var e := Entry(user, amount, reason, payment, seen + amount);
    UserSums(db.ledger, e);
    RunningAppend(db.ledger, e);
    NothingLost(db.overwritten, user);
    LostSums(db.overwritten, Overwrite(user, current + amount - stored));
  }

  lemma PostSeenTotals(db: Db, user: nat, seen: int, amount: nat, reason: Reason, payment: Option<nat>)
    requires user < |db.users|
    ensures var db' := PostSeen(db, user, seen, amount, reason, payment);
            Sum(db'.users, Balance()) + Sum(db'.overwritten, Loss())
            == Sum(db.users, Balance()) + Sum(db.overwritten, Loss()) + amount
  {
    var db' := PostSeen(db, user, seen, amount, reason, payment);
    SumUpdate(db.users, user, db'.users[user], Balance());
    LostSums(db.overwritten, Overwrite(user, db.users[user].balance + amount - db'.users[user].balance));
  }

  /** No aggregate over the ledger looks at the balance a row shows. */
  lemma ShownBalanceIsFree(ledger: seq<Entry>, e: Entry, shown: int)
    ensures var a, b := ledger + [e], ledger + [e.(balanceAfter := shown)];
            && (forall p: nat ::
                  Sum(a, OfPayment(p)) == Sum(b, OfPayment(p)) && Sum(a, BonusVia(p)) == Sum(b, BonusVia(p))
                  && Sum(a, BonusOf(p)) == Sum(b, BonusOf(p)))
            && Sum(a, Adjusted()) == Sum(b, Adjusted())
  {
    var e' := e.(balanceAfter := shown);
    forall p: nat
      ensures Sum(ledger + [e], OfPayment(p)) == Sum(ledger + [e'], OfPayment(p))
      ensures Sum(ledger + [e], BonusVia(p)) == Sum(ledger + [e'], BonusVia(p))
      ensures Sum(ledger + [e], BonusOf(p)) == Sum(ledger + [e'], BonusOf(p))
    {
      SumAppend(ledger, e, OfPayment(p));
      SumAppend(ledger, e', OfPayment(p));
      SumAppend(ledger, e, BonusVia(p));
      SumAppend(ledger, e', BonusVia(p));
      SumAppend(ledger, e, BonusOf(p));
      SumAppend(ledger, e', BonusOf(p));
    }
    SumAppend(ledger, e, Adjusted());
    SumAppend(ledger, e', Adjusted());
  }

  /** How a posting moves every aggregate over the ledger and the balances. */
  lemma PostSums(db: Db, user: nat, amount: int, reason: Reason, payment: Option<nat>)
    requires user < |db.users|
    ensures var db' := Post(db, user, amount, reason, payment);
            && (forall p: nat :: Sum(db'.ledger, OfPayment(p)) == Sum(db.ledger, OfPayment(p))
                  + if Settles(reason) && payment == Some(p) then amount else 0)
            && (forall u: nat :: Sum(db'.ledger, BonusOf(u)) == Sum(db.ledger, BonusOf(u))
                  + if reason.ReferralBonus? && u == user then amount else 0)
            && (forall p: nat :: Sum(db'.ledger, BonusVia(p)) == Sum(db.ledger, BonusVia(p))
                  + if reason.ReferralBonus? && payment == Some(p) then 1 else 0)
            && Sum(db'.ledger, Adjusted()) == Sum(db.ledger, Adjusted()) + (if reason.AdminAdjust? then amount else 0)
            && Sum(db'.users, Balance()) == Sum(db.users, Balance()) + amount
  {
    var db' := Post(db, user, amount, reason, payment);
    var e := db'.ledger[|db.ledger|];
    forall p: nat
      ensures Sum(db'.ledger, OfPayment(p)) == Sum(db.ledger, OfPayment(p)) + OfPayment(p)(e)
      ensures Sum(db'.ledger, BonusVia(p)) == Sum(db.ledger, BonusVia(p)) + BonusVia(p)(e)
      ensures Sum(db'.ledger, BonusOf(p)) == Sum(db.ledger, BonusOf(p)) + BonusOf(p)(e)
    {
      SumAppend(db.ledger, e, OfPayment(p));
      SumAppend(db.ledger, e, BonusVia(p));
      SumAppend(db.ledger, e, BonusOf(p));
    }
    SumAppend(db.ledger, e, Adjusted());
    SumUpdate(db.users, user, db'.users[user], Balance());
  }

  lemma PostKeepsSettled(db: Db, user: nat, amount: int, reason: Reason, payment: Option<nat>)
    requires Settled(db.payments, db.ledger) && user < |db.users| && !Settles(reason)
    ensures Settled(db.payments, Post(db, user, amount, reason, payment).ledger)
  {
  }

  lemma PostKeepsReferrals(db: Db, user: nat, amount: int, reason: Reason, payment: Option<nat>)
    requires ReferralsOk(db.referrals, db.ledger, db.payments, |db.users|) && user < |db.users|
               && !reason.ReferralBonus?
    ensures ReferralsOk(db.referrals, Post(db, user, amount, reason, payment).ledger, db.payments, |db.users|)
  {
  }

  /** How a posting moves the two sides of the conservation law. */
  lemma PostTotals(db: Db, user: nat, amount: int, reason: Reason, payment: Option<nat>)
    requires user < |db.users|
    ensures var db' := Post(db, user, amount, reason, payment);
            && Sum(db'.ledger, Adjusted()) == Sum(db.ledger, Adjusted()) + (if reason.AdminAdjust? then amount else 0)
            && Sum(db'.users, Balance()) == Sum(db.users, Balance()) + amount
  {
    PostSums(db, user, amount, reason, payment);
  }

  /** A posting that settles payment p, whose row becomes row: the ledger keeps agreeing
      with the payment table when the amount is the change in what is due. */
  lemma PostSettles(db: Db, user: nat, amount: int, reason: Reason, p: nat, row: Payment)
    requires Settled(db.payments, db.ledger) && user < |db.users| && Settles(reason)
    requires p < |db.payments| && Due()(row) == Due()(db.payments[p]) + amount
    ensures Settled(db.payments[p := row], Post(db, user, amount, reason, Some(p)).ledger)
    ensures Sum(db.payments[p := row], Due()) == Sum(db.payments, Due()) + amount
  {
    hide Sum;
    PostSums(db, user, amount, reason, Some(p));
    SumUpdate(db.payments, p, row, Due());
  }

  /** The same for a payment inserted together with its posting. */
  lemma PostSettlesNew(db: Db, user: nat, amount: int, reason: Reason, row: Payment)
    requires Settled(db.payments, db.ledger) && user < |db.users| && Settles(reason)
    requires Due()(row) == amount
    ensures Settled(db.payments + [row], Post(db, user, amount, reason, Some(|db.payments|)).ledger)
    ensures Sum(db.payments + [row], Due()) == Sum(db.payments, Due()) + amount
  {
  }

  // ----- payment rows -----

  /** Only the status and its time stamp of an order ever change. */
  predicate SameOrder(a: Payment, b: Payment) {
    b == a.(status := b.status, paidAt := b.paidAt)
  }

  /** The payment table may grow; its old rows keep their orders, and what was paid stays paid or refunded. */
  ghost predicate OrdersKept(payments: seq<Payment>, payments': seq<Payment>) {
    && |payments| <= |payments'|
    && (forall i | 0 <= i < |payments| ::
          SameOrder(payments[i], payments'[i]) && (Unpaid(payments'[i]) ==> Unpaid(payments[i])))
  }

  lemma OrdersKeepReferrals(referrals: seq<Referral>, ledger: seq<Entry>, payments: seq<Payment>,
                            payments': seq<Payment>, users: nat)
    requires ReferralsOk(referrals, ledger, payments, users) && OrdersKept(payments, payments')
    ensures ReferralsOk(referrals, ledger, payments', users)
  {
  }

  lemma NewKeepsPayments(payments: seq<Payment>, row: Payment, users: nat, subs: nat)
    requires PaymentsOk(payments, users, subs) && PaymentOk(row, users, subs)
    requires row.externalId.Some? ==> FindPayment(payments, row.externalId.value).None?
    ensures PaymentsOk(payments + [row], users, subs)
  {
  }

  lemma StatusKeepsPayments(payments: seq<Payment>, p: nat, row: Payment, users: nat, subs: nat)
    requires PaymentsOk(payments, users, subs) && p < |payments|
    requires PaymentOk(row, users, subs) && SameOrder(payments[p], row)
    ensures PaymentsOk(payments[p := row], users, subs)
  {
  }

  /** A new payment for something other than a first order. */
  lemma NewKeepsSubs(payments: seq<Payment>, subs: seq<Subscription>, row: Payment)
    requires SubsOk(payments, subs) && !row.purpose.ForSubscription?
    requires row.extension.Some? && row.extension.value.sub < |subs| ==> subs[row.extension.value.sub].startedAt.Some?
    ensures SubsOk(payments + [row], subs)
  {
  }

  lemma NewKeepsTimes(payments: seq<Payment>, subs: seq<Subscription>, row: Payment)
    requires TimesOk(payments, subs) && !(row.purpose.ForExtension? && row.status.PayPaid?)
    ensures TimesOk(payments + [row], subs)
  {
  }

  lemma NewKeepsInFlight(inFlight: set<Debit>, payments: seq<Payment>, subs: seq<Subscription>, row: Payment)
    requires InFlightOk(inFlight, payments, subs)
    ensures InFlightOk(inFlight, payments + [row], subs)
  {
  }

  lemma StatusKeepsSettled(payments: seq<Payment>, ledger: seq<Entry>, p: nat, row: Payment)
    requires Settled(payments, ledger) && p < |payments| && Due()(row) == Due()(payments[p])
    ensures Settled(payments[p := row], ledger) && Sum(payments[p := row], Due()) == Sum(payments, Due())
  {
    SumUpdate(payments, p, row, Due());
  }

  lemma NewKeepsSettled(payments: seq<Payment>, ledger: seq<Entry>, row: Payment)
    requires Settled(payments, ledger) && Due()(row) == 0
    ensures Settled(payments + [row], ledger) && Sum(payments + [row], Due()) == Sum(payments, Due())
  {
  }

  lemma DaysUpdate(payments: seq<Payment>, p: nat, row: Payment)
    requires p < |payments|
    ensures forall s: nat, own: nat :: Sum(payments[p := row], DaysFor(s, own))
              == Sum(payments, DaysFor(s, own)) - DaysFor(s, own)(payments[p]) + DaysFor(s, own)(row)
  {
    forall s: nat, own: nat
      ensures Sum(payments[p := row], DaysFor(s, own))
              == Sum(payments, DaysFor(s, own)) - DaysFor(s, own)(payments[p]) + DaysFor(s, own)(row)
    {
      SumUpdate(payments, p, row, DaysFor(s, own));
    }
  }

  lemma DaysAppend(payments: seq<Payment>, row: Payment)
    ensures forall s: nat, own: nat :: Sum(payments + [row], DaysFor(s, own))
              == Sum(payments, DaysFor(s, own)) + DaysFor(s, own)(row)
  {
  }

  /** No extension has been paid for a subscription that has not started. */
  lemma NotStartedNoDays(payments: seq<Payment>, subs: seq<Subscription>, s: nat)
    requires SubsOk(payments, subs) && s < |subs| && subs[s].startedAt.None?
    ensures forall own: nat :: Sum(payments, DaysFor(s, own)) == 0
  {
    forall own: nat ensures Sum(payments, DaysFor(s, own)) == 0 {
      SumZero(payments, DaysFor(s, own));
    }
  }

  /** Every paid-time promise survives an update of p that buys no days. */
  lemma StatusKeepsTimes(payments: seq<Payment>, subs: seq<Subscription>, p: nat, row: Payment)
    requires TimesOk(payments, subs) && p < |payments| && SameOrder(payments[p], row)
    requires row.purpose.ForExtension? && row.status.PayPaid? ==> payments[p].status.PayPaid?
    ensures TimesOk(payments[p := row], subs)
  {
    DaysUpdate(payments, p, row);
    assert forall s: nat, own: nat :: DaysFor(s, own)(row) <= DaysFor(s, own)(payments[p]);
  }

  lemma StatusKeepsSubs(payments: seq<Payment>, subs: seq<Subscription>, p: nat, row: Payment)
    requires SubsOk(payments, subs) && p < |payments| && SameOrder(payments[p], row)
    requires Unpaid(row) ==> Unpaid(payments[p])
    ensures SubsOk(payments[p := row], subs)
  {
  }

  lemma OrdersGrow(payments: seq<Payment>, row: Payment)
    ensures OrdersKept(payments, payments + [row])
  {
  }

  lemma OrdersUpdate(payments: seq<Payment>, p: nat, row: Payment)
    requires p < |payments| && SameOrder(payments[p], row) && (Unpaid(row) ==> Unpaid(payments[p]))
    ensures OrdersKept(payments, payments[p := row])
  {
  }

  // ----- subscription rows -----

  lemma MoreSubsKeepPayments(payments: seq<Payment>, users: nat, subs: nat)
    requires PaymentsOk(payments, users, subs)
    ensures PaymentsOk(payments, users, subs + 1)
  {
  }

  lemma FirstOrderKeepsSubs(payments: seq<Payment>, subs: seq<Subscription>, row: Payment, sub: Subscription,
                            users: nat)
    requires SubsOk(payments, subs) && PaymentsOk(payments, users, |subs|)
    requires row.purpose.ForSubscription? && row.sub == Some(|subs|) && row.extension.None?
    requires sub.startedAt.None? && SubOk(sub)
    ensures SubsOk(payments + [row], subs + [sub])
  {
  }

  lemma NewSubKeepsTimes(payments: seq<Payment>, subs: seq<Subscription>, sub: Subscription)
    requires TimesOk(payments, subs) && sub.startedAt.None?
    ensures TimesOk(payments, subs + [sub])
  {
  }

  lemma NewSubKeepsInFlight(inFlight: set<Debit>, payments: seq<Payment>, subs: seq<Subscription>, sub: Subscription)
    requires InFlightOk(inFlight, payments, subs)
    ensures InFlightOk(inFlight, payments, subs + [sub])
  {
  }

  /** Purchases in flight are paid from the balance, so external payments do not concern them. */
  lemma StatusKeepsInFlight(inFlight: set<Debit>, payments: seq<Payment>, subs: seq<Subscription>, p: nat, row: Payment)
    requires InFlightOk(inFlight, payments, subs) && p < |payments| && payments[p].provider.External?
    ensures InFlightOk(inFlight, payments[p := row], subs)
  {
  }

  /** The subscription of another first order may change freely under a purchase in flight. */
  lemma SubKeepsInFlight(inFlight: set<Debit>, payments: seq<Payment>, subs: seq<Subscription>, p: nat, s: nat,
                         sub: Subscription)
    requires InFlightOk(inFlight, payments, subs) && SubsOk(payments, subs)
    requires p < |payments| && payments[p].purpose.ForSubscription? && payments[p].sub == Some(s) && s < |subs|
    requires forall d | d in inFlight :: d.payment != p
    ensures InFlightOk(inFlight, payments, subs[s := sub])
  {
  }

  lemma ExternalNotInFlight(inFlight: set<Debit>, payments: seq<Payment>, subs: seq<Subscription>, p: nat)
    requires InFlightOk(inFlight, payments, subs) && p < |payments| && payments[p].provider.External?
    ensures forall d | d in inFlight :: d.payment != p
  {
  }

  /** Delivering or failing the first order p of subscription s. */
  lemma FirstOrderSubKeepsSubs(payments: seq<Payment>, subs: seq<Subscription>, p: nat, s: nat, sub: Subscription)
    requires SubsOk(payments, subs) && p < |payments| && s < |subs|
    requires payments[p].purpose.ForSubscription? && payments[p].sub == Some(s) && SubOk(sub)
    requires subs[s].startedAt.Some? ==> sub.startedAt.Some?
    requires sub.startedAt.Some? ==> !Unpaid(payments[p])
    ensures SubsOk(payments, subs[s := sub])
  {
  }

  /** Starting a subscription grants exactly its own days, nothing having been added before. */
  lemma StartKeepsTimes(payments: seq<Payment>, subs: seq<Subscription>, s: nat, sub: Subscription)
    requires TimesOk(payments, subs) && SubsOk(payments, subs) && s < |subs| && subs[s].startedAt.None?
    requires sub.startedAt.Some? ==>
               sub.expiresAt.Some? && sub.expiresAt.value >= sub.startedAt.value + DAY * sub.days
    ensures TimesOk(payments, subs[s := sub])
  {
    NotStartedNoDays(payments, subs, s);
    forall t {:trigger subs[t]} | 0 <= t < |subs| ensures TimeOk(t, subs[s := sub][t], payments) {
      assert TimeOk(t, subs[t], payments);
    }
  }

  lemma FirstOrderNotStarted(payments: seq<Payment>, subs: seq<Subscription>, p: nat)
    requires SubsOk(payments, subs) && p < |payments| && payments[p].purpose.ForSubscription? && Unpaid(payments[p])
    requires payments[p].sub.Some? && payments[p].sub.value < |subs|
    ensures subs[payments[p].sub.value].startedAt.None?
  {
  }

  lemma ExtensionStarted(payments: seq<Payment>, subs: seq<Subscription>, p: nat)
    requires SubsOk(payments, subs) && p < |payments|
    requires payments[p].extension.Some? && payments[p].extension.value.sub < |subs|
    ensures var s := payments[p].extension.value.sub;
            subs[s].startedAt.Some? && SubOk(subs[s])
  {
  }

  lemma PaymentShape(payments: seq<Payment>, users: nat, subs: nat, p: nat)
    requires PaymentsOk(payments, users, subs) && p < |payments|
    ensures PaymentOk(payments[p], users, subs)
  {
  }

  lemma InvShape(db: Db, p: nat)
    requires Inv(db) && p < |db.payments|
    ensures PaymentOk(db.payments[p], |db.users|, |db.subs|)
  {
  }

  lemma InFlightShape(db: Db, d: Debit)
    requires Inv(db) && d in db.inFlight
    ensures DebitOk(d, db.payments, db.subs) && d.user < |db.users|
  {
    hide LedgerOk, Settled, ReferralsOk, PaymentsOk, PromosOk, SubsOk, TimesOk, Conserved, Sum;
    PaymentShape(db.payments, |db.users|, |db.subs|, d.payment);
  }

  /** Money side of a purchase from the balance: the new order and its debit. */
  lemma DebitKeepsMoney(db: Db, user: nat, price: nat, order: Payment)
    requires Inv(db) && user < |db.users| && db.users[user].balance >= price
    requires order.provider.FromBalance? && order.amount == price && order.status.PayPaid?
    ensures var p := |db.payments|;
            var db' := Post(db.(payments := db.payments + [order]), user, -(price as int), Purchase, Some(p));
            && LedgerOk(db'.users, db'.ledger, db'.overwritten) && Settled(db'.payments, db'.ledger)
            && Conserved(db'.users, db'.payments, db'.ledger, db'.activations, db'.referrals, db'.overwritten)
            && (ReferralsOk(db.referrals, db.ledger, db'.payments, |db.users|)
                ==> ReferralsOk(db'.referrals, db'.ledger, db'.payments, |db'.users|))
  {
    var p := |db.payments|;
    hide LedgerOk, Settled, ReferralsOk, PaymentsOk, PromosOk, SubsOk, InFlightOk, TimesOk, Sum;
    var db1 := db.(payments := db.payments + [order]);
    PostKeepsLedger(db, user, -(price as int), Purchase, Some(p));
    PostSettlesNew(db, user, -(price as int), Purchase, order);
    PostTotals(db, user, -(price as int), Purchase, Some(p));
    if ReferralsOk(db.referrals, db.ledger, db1.payments, |db.users|) {
      PostKeepsReferrals(db1, user, -(price as int), Purchase, Some(p));
    }
  }

  /** Crediting a payment back, or in for the first time: the posting is the change in what is due. */
  lemma CreditKeepsMoney(db: Db, p: nat, reason: Reason, row: Payment)
    requires LedgerOk(db.users, db.ledger, db.overwritten) && Settled(db.payments, db.ledger)
               && Conserved(db.users, db.payments, db.ledger, db.activations, db.referrals, db.overwritten)
    requires ReferralsOk(db.referrals, db.ledger, db.payments, |db.users|)
    requires p < |db.payments| && db.payments[p].user < |db.users| && (reason.Refund? || reason.Topup?)
    requires SameOrder(db.payments[p], row) && !Unpaid(row) && Due()(row) == Due()(db.payments[p]) + row.amount
    ensures var db' := Post(db.(payments := db.payments[p := row]), row.user, row.amount, reason, Some(p));
            && LedgerOk(db'.users, db'.ledger, db'.overwritten) && Settled(db'.payments, db'.ledger)
            && Conserved(db'.users, db'.payments, db'.ledger, db'.activations, db'.referrals, db'.overwritten)
            && ReferralsOk(db'.referrals, db'.ledger, db'.payments, |db'.users|)
  {
    hide LedgerOk, Settled, ReferralsOk, Sum;
    NeverNegative(db.users, db.ledger, db.overwritten, row.user);
    PostKeepsLedger(db, row.user, row.amount, reason, Some(p));
    PostSettles(db, row.user, row.amount, reason, p, row);
    PostTotals(db, row.user, row.amount, reason, Some(p));
    OrdersKeepReferrals(db.referrals, db.ledger, db.payments, db.payments[p := row], |db.users|);
    PostKeepsReferrals(db.(payments := db.payments[p := row]), row.user, row.amount, reason, Some(p));
  }
  /** The same for a credit computed from an outdated balance. */
  lemma SeenCreditKeepsMoney(db: Db, p: nat, seen: int, row: Payment)
    requires LedgerOk(db.users, db.ledger, db.overwritten) && Settled(db.payments, db.ledger)
    requires Conserved(db.users, db.payments, db.ledger, db.activations, db.referrals, db.overwritten)
    requires ReferralsOk(db.referrals, db.ledger, db.payments, |db.users|)
    requires p < |db.payments| && db.payments[p].user < |db.users| && seen >= 0
    requires SameOrder(db.payments[p], row) && !Unpaid(row) && Due()(row) == Due()(db.payments[p]) + row.amount
    ensures var db' := PostSeen(db.(payments := db.payments[p := row]), row.user, seen, row.amount, Refund, Some(p));
            && LedgerOk(db'.users, db'.ledger, db'.overwritten) && Settled(db'.payments, db'.ledger)
            && Conserved(db'.users, db'.payments, db'.ledger, db'.activations, db'.referrals, db'.overwritten)
            && ReferralsOk(db'.referrals, db'.ledger, db'.payments, |db'.users|)
  {
    hide LedgerOk, Settled, ReferralsOk, Sum;
    CreditKeepsMoney(db, p, Refund, row);
    var db1 := db.(payments := db.payments[p := row]);
    PostSeenKeepsLedger(db1, row.user, seen, row.amount, Refund, Some(p));
    PostSeenTotals(db1, row.user, seen, row.amount, Refund, Some(p));
    PostTotals(db1, row.user, row.amount, Refund, Some(p));
    var shown := db.users[row.user].balance + row.amount;
    var e := Entry(row.user, row.amount, Refund, Some(p), shown);
    ShownBalanceIsFree(db.ledger, e, seen + row.amount);
    ShownKeepsRows(db1, db.ledger, e, seen + row.amount);
  }

  lemma ShownKeepsRows(db: Db, ledger: seq<Entry>, e: Entry, shown: int)
    ensures var a, b := ledger + [e], ledger + [e.(balanceAfter := shown)];
            && (Settled(db.payments, a) ==> Settled(db.payments, b))
            && (ReferralsOk(db.referrals, a, db.payments, |db.users|)
                ==> ReferralsOk(db.referrals, b, db.payments, |db.users|))
  {
    hide Sum;
    ShownBalanceIsFree(ledger, e, shown);
  }
}
