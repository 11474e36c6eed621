/** What one webhook delivery does to the tables, row by row, decided by the words of its
    status alone. */
module DeliveryOutcomes {
  import opened Sums
  import opened Options
  import opened Store
  import opened Invariant
  import opened Machine
  import opened Statuses
  import opened OrderOutcomes
  import PaymentService
  import ExtensionService
  import ReferralService

  /** Payment p carries the invoice number and is neither paid nor refunded. */
  ghost predicate OpenAt(db: Db, p: nat, externalId: string) {
    && Inv(db) && p < |db.payments| && db.payments[p].externalId == Some(externalId)
    && db.payments[p].status != PayPaid && db.payments[p].status != PayRefunded
  }

  /** An extension whose provider call dies takes the whole delivery with it. */
  predicate Dies(pay: Payment, answer: Answer) { pay.extension.Some? && answer.Crashed? }

  lemma OnlyOneHasNumber(db: Db, p: nat, externalId: string)
    requires Inv(db) && p < |db.payments| && db.payments[p].externalId == Some(externalId)
    ensures FindPayment(db.payments, externalId) == Some(p)
  {
    hide LedgerOk, Settled, ReferralsOk, PromosOk, SubsOk, InFlightOk, TimesOk, Conserved, Sum;
    assert FindPayment(db.payments, externalId).Some?;
  }

  // ----- any status but paid -----

  /** Without one of the words for paid no money moves, nothing is delivered and no bonus or promo
      is touched. A word for failed fails the payment and its pending subscription, a word for
      expired expires the payment, and any other text is ignored. */
  lemma UnpaidStatus(db: Db, p: nat, externalId: string, status: string, answer: Answer, now: int)
    requires OpenAt(db, p, externalId) && !SaysPaid(status)
    ensures var pay := db.payments[p];
            var s := pay.sub;
            var shown := if SaysFailed(status) then PayFailed else if SaysExpired(status) then PayExpired
              else pay.status;
            Step(db, Webhook(externalId, status, answer, now)) ==
              db.(payments := db.payments[p := pay.(status := shown)],
                  subs := if SaysFailed(status) && s.Some? && s.value < |db.subs|
                    && db.subs[s.value].status == SubPending
                          then db.subs[s.value := db.subs[s.value].(status := SubFailed)] else db.subs)
  {
    OnlyOneHasNumber(db, p, externalId);
    UnpaidStep(db, p, externalId, status, answer, now);
    hide Inv, SaysPaid, SaysFailed, SaysExpired;
    assert db.payments[p := db.payments[p]] == db.payments;
  }

  lemma UnpaidStep(db: Db, p: nat, externalId: string, status: string, answer: Answer, now: int)
    requires FindPayment(db.payments, externalId) == Some(p) && !SaysPaid(status)
    requires db.payments[p].status != PayPaid && db.payments[p].status != PayRefunded
    ensures Step(db, Webhook(externalId, status, answer, now)) ==
              if SaysFailed(status) then PaymentService.HandleFailed(db, p)
              else if SaysExpired(status) then PaymentService.HandleExpired(db, p) else db
  {
    StatusIsRead(status);
    hide SaysPaid, SaysFailed, SaysExpired, PaymentService.Classify;
    hide PaymentService.HandlePaid, PaymentService.HandleFailed, PaymentService.HandleExpired;
  }

  /** A paid or refunded payment, or an unknown invoice number, makes any delivery void. */
  lemma VoidDelivery(db: Db, externalId: string, status: string, answer: Answer, now: int)
    requires Inv(db)
    requires forall p | 0 <= p < |db.payments| && db.payments[p].externalId == Some(externalId) ::
               db.payments[p].status == PayPaid || db.payments[p].status == PayRefunded
    ensures Step(db, Webhook(externalId, status, answer, now)) == db
  {
    hide Inv, Sum, PaymentService.HandlePaid, PaymentService.Classify;
  }

  // ----- paid -----

  /** What the payment buys is delivered: a credit, a key, more days, or the money back. */
  function Served(db: Db, p: nat, answer: Answer, now: int): (r: Db)
    requires p < |db.payments|
    ensures |r.payments| == |db.payments|
  {
    var pay := db.payments[p];
    var paid := db.(payments := db.payments[p := pay.(status := PayPaid, paidAt := Some(now))]);
    if pay.user >= |db.users| || (pay.sub.Some? && pay.sub.value >= |db.subs|) then paid
    else
      var after := db.users[pay.user].balance + pay.amount;
      match pay.purpose
      case ForTopup =>
        paid.(users := db.users[pay.user := User(after)],
              ledger := db.ledger + [Entry(pay.user, pay.amount, Topup, Some(p), after)])
      case ForSubscription =>
        if pay.sub.None? then paid
        else
          var sub := db.subs[pay.sub.value];
          paid.(subs := db.subs[pay.sub.value :=
            if answer.Accepted? then
              sub.(providerId := if answer.keyId == Some("") then None else answer.keyId, status := SubActive,
                   startedAt := Some(now), expiresAt := Some(now + 86400 * sub.days))
            else sub.(status := SubFailedProvider)])
      case ForExtension =>
        if pay.extension.None? || pay.sub.None? then paid
        else if answer.Accepted? then
          paid.(subs := db.subs[pay.sub.value := Prolonged(db.subs[pay.sub.value], pay.extension.value.days, now)])
        else
          paid.(payments := db.payments[p := pay.(status := PayRefunded, paidAt := Some(now))],
                users := db.users[pay.user := User(after)],
                ledger := db.ledger + [Entry(pay.user, pay.amount, Refund, Some(p), after)])
  }

  /** The unpaid referral of a user, if there is one. */
  ghost predicate Owed(db: Db, user: nat, r: nat) {
    r < |db.referrals| && db.referrals[r].referee == user && !db.referrals[r].bonusPaid
  }

  function WithBonus(db: Db, r: nat, p: nat, now: int): Db
    requires r < |db.referrals|
  {
    var row := db.referrals[r];
    if row.referrer >= |db.users| then db
    else
      var after := db.users[row.referrer].balance + 7000;
      db.(users := db.users[row.referrer := User(after)],
          ledger := db.ledger + [Entry(row.referrer, 7000, ReferralBonus, Some(p), after)],
          referrals := db.referrals[r := row.(bonusPaid := true, bonusPaidAt := Some(now), firstPurchase := Some(p))])
  }

  lemma SettlesAsServed(db: Db, p: nat, answer: Answer, now: int)
    requires Inv(db) && p < |db.payments| && !Dies(db.payments[p], answer)
    ensures !PaymentService.Aborts(db.payments[p], answer)
    ensures PaymentService.Settle(db, p, answer, now) == Served(db, p, answer, now)
  {
    hide Inv;
    InvShape(db, p);
    if db.payments[p].purpose.ForExtension? {
      ExtendsAsServed(db, p, answer, now);
    } else {
      OrdersAsServed(db, p, answer, now);
    }
  }

  lemma OrdersAsServed(db: Db, p: nat, answer: Answer, now: int)
    requires p < |db.payments| && PaymentOk(db.payments[p], |db.users|, |db.subs|)
    requires !db.payments[p].purpose.ForExtension?
    ensures PaymentService.Settle(db, p, answer, now) == Served(db, p, answer, now)
  {
  }

  lemma ExtendsAsServed(db: Db, p: nat, answer: Answer, now: int)
    requires p < |db.payments| && PaymentOk(db.payments[p], |db.users|, |db.subs|)
    requires db.payments[p].purpose.ForExtension? && !answer.Crashed?
    ensures PaymentService.Settle(db, p, answer, now) == Served(db, p, answer, now)
  {
    hide ExtensionService.Extended, Prolonged;
    var pay := db.payments[p];
    var refunded := pay.(status := PayRefunded, paidAt := Some(now));
    ExtendedIsProlonged(db.subs[pay.sub.value], pay.extension.value.days, now);
    assert db.payments[p := pay.(status := PayPaid, paidAt := Some(now))][p := refunded] == db.payments[p := refunded];
  }

  lemma BonusIsOwed(db: Db, p: nat, r: nat, now: int)
    requires p < |db.payments| && !db.payments[p].purpose.ForTopup? && db.payments[p].amount > 0
    requires forall i, j | 0 <= i < j < |db.referrals| :: db.referrals[i].referee != db.referrals[j].referee
    requires Owed(db, db.payments[p].user, r)
    ensures ReferralService.ApplyReferrerBonus(db, p, now) == WithBonus(db, r, p, now)
  {
    var found := FindReferral(db.referrals, db.payments[p].user);
    assert found == Some(r);
  }

  lemma NoBonusIsOwed(db: Db, p: nat, now: int)
    requires p < |db.payments| && forall r: nat :: !Owed(db, db.payments[p].user, r)
    ensures ReferralService.ApplyReferrerBonus(db, p, now) == db
  {
    var found := FindReferral(db.referrals, db.payments[p].user);
    assert found.Some? ==> !Owed(db, db.payments[p].user, found.value);
  }

  ghost function Rewarded(db: Db, p: nat, now: int): Db
    requires p < |db.payments|
  {
    if r: nat :| Owed(db, db.payments[p].user, r) then WithBonus(db, r, p, now) else db
  }

  /** The rest of a real order: the referrer's bonus, if it is owed, and the use of the promo, if there is room. */
  ghost function Hooked(db: Db, p: nat, now: int): Db
    requires p < |db.payments|
  {
    var pay := db.payments[p];
    if pay.purpose.ForTopup? || pay.amount == 0 then db
    else WithUse(Rewarded(db, p, now), pay.discount, pay.user, p, pay.amount)
  }

  lemma HooksAsOwed(db: Db, p: nat, now: int)
    requires p < |db.payments|
    requires forall i, j | 0 <= i < j < |db.referrals| :: db.referrals[i].referee != db.referrals[j].referee
    requires var pay := db.payments[p]; pay.discount.Some? ==> pay.amount <= pay.discount.value.original
    ensures PaymentService.Hooks(db, p, now) == Hooked(db, p, now)
  {
    hide PaymentService.RecordPromo, ReferralService.ApplyReferrerBonus, WithUse, WithBonus;
    var pay := db.payments[p];
    if !pay.purpose.ForTopup? && pay.amount > 0 {
      var rewarded := ReferralService.ApplyReferrerBonus(db, p, now);
      if exists r: nat :: Owed(db, pay.user, r) {
        var r: nat :| Owed(db, pay.user, r);
        forall q: nat | Owed(db, pay.user, q) ensures q == r {
        }
        BonusIsOwed(db, p, r, now);
      } else {
        NoBonusIsOwed(db, p, now);
      }
      BonusKeepsPayments(db, p, now);
      UseIsRecorded(rewarded, p);
    }
  }

  lemma BonusKeepsPayments(db: Db, p: nat, now: int)
    requires p < |db.payments|
    ensures ReferralService.ApplyReferrerBonus(db, p, now).payments == db.payments
  {
  }

  lemma ServedOrder(db: Db, p: nat, answer: Answer, now: int)
    requires p < |db.payments|
    ensures var db' := Served(db, p, answer, now);
            && |db'.payments| == |db.payments| && db'.payments[p].discount == db.payments[p].discount
            && db'.payments[p].amount == db.payments[p].amount && db'.referrals == db.referrals
  {
  }

  lemma RefereesDiffer(db: Db, p: nat)
    requires Inv(db) && p < |db.payments|
    ensures forall i, j | 0 <= i < j < |db.referrals| :: db.referrals[i].referee != db.referrals[j].referee
    ensures var pay := db.payments[p]; pay.discount.Some? ==> pay.amount <= pay.discount.value.original
  {
    InvShape(db, p);
    hide LedgerOk, Settled, PaymentsOk, PromosOk, SubsOk, InFlightOk, TimesOk, Conserved, Sum;
  }

  /** With one of the words for paid, in any case, the payment ends paid, or refunded when the days
      of an extension could not be delivered; and the tables change by what is delivered, by one bonus
      of 7000 if the payer's referrer is owed one, and by one use of the order's promo, and by nothing else. */
  lemma PaidStatus(db: Db, p: nat, externalId: string, status: string, answer: Answer, now: int)
    requires OpenAt(db, p, externalId) && SaysPaid(status)
    ensures Step(db, Webhook(externalId, status, answer, now)) ==
              if Dies(db.payments[p], answer) then db else Hooked(Served(db, p, answer, now), p, now)
    ensures !Dies(db.payments[p], answer) ==>
              var after := Step(db, Webhook(externalId, status, answer, now)).payments;
              && |after| == |db.payments|
              && after[p].status == if db.payments[p].extension.Some? && !answer.Accepted? then PayRefunded else PayPaid
  {
    hide Inv, PaymentService.Settle, PaymentService.Hooks, Served, Hooked, SaysPaid;
    OnlyOneHasNumber(db, p, externalId);
    PaidStep(db, p, externalId, status, answer, now);
    NoTopupExtends(db, p);
    if !Dies(db.payments[p], answer) {
      RefereesDiffer(db, p);
      SettlesAsServed(db, p, answer, now);
      ServedOrder(db, p, answer, now);
      ServedStatus(db, p, answer, now);
      HooksAsOwed(Served(db, p, answer, now), p, now);
      HookedKeepsPayments(Served(db, p, answer, now), p, now);
    }
  }

  lemma PaidStep(db: Db, p: nat, externalId: string, status: string, answer: Answer, now: int)
    requires FindPayment(db.payments, externalId) == Some(p) && SaysPaid(status)
    requires db.payments[p].status != PayPaid && db.payments[p].status != PayRefunded
    ensures Step(db, Webhook(externalId, status, answer, now)) == PaymentService.HandlePaid(db, p, answer, now)
  {
    StatusIsRead(status);
    hide SaysPaid, SaysFailed, SaysExpired, PaymentService.Classify, PaymentService.HandlePaid;
  }

  lemma NoTopupExtends(db: Db, p: nat)
    requires Inv(db) && p < |db.payments|
    ensures db.payments[p].purpose.ForTopup? ==> db.payments[p].extension.None?
  {
    InvShape(db, p);
  }

  lemma ServedStatus(db: Db, p: nat, answer: Answer, now: int)
    requires Inv(db) && p < |db.payments|
    ensures Served(db, p, answer, now).payments[p].status
            == if db.payments[p].extension.Some? && !answer.Accepted? then PayRefunded else PayPaid
  {
    InvShape(db, p);
    hide Inv, Sum;
  }

  lemma HookedKeepsPayments(db: Db, p: nat, now: int)
    requires p < |db.payments|
    ensures Hooked(db, p, now).payments == db.payments
  {
  }
}
