/** Referrals: registration, the one-off bonus of the referrer, and the statistics. */
module ReferralService {
  import opened Sums
  import opened Options
  import opened Store
  import opened Invariant

  datatype ReferralError = NotNew | SelfReferral | AlreadyReferred | AlreadyPurchased

  predicate HasPaidHistory(db: Db, user: nat) {
    exists i | 0 <= i < |db.payments| ::
      db.payments[i].user == user && db.payments[i].status.PayPaid? && db.payments[i].amount > 0
  }

  function RegistrationRefusal(db: Db, referrer: nat, referee: nat, isNew: bool): Option<ReferralError> {
    if !isNew then Some(NotNew)
    else if referrer == referee then Some(SelfReferral)
    else if FindReferral(db.referrals, referee).Some? then Some(AlreadyReferred)
    else if HasPaidHistory(db, referee) then Some(AlreadyPurchased)
    else None
  }

  function RegisterReferral(db: Db, referrer: nat, referee: nat, isNew: bool): Db {
    if referrer >= |db.users| || referee >= |db.users|
      || RegistrationRefusal(db, referrer, referee, isNew).Some? then db
    else db.(referrals := db.referrals + [Referral(referrer, referee, false, None, None)])
  }

  /** Does payment p earn its payer's referrer the bonus, and through which row? */
  function BonusRow(db: Db, p: nat): (r: Option<nat>)
    ensures r.Some? ==> p < |db.payments| && r.value < |db.referrals| && !db.referrals[r.value].bonusPaid
                        && db.referrals[r.value].referrer < |db.users|
                        && db.referrals[r.value].referee == db.payments[p].user
                        && !db.payments[p].purpose.ForTopup? && db.payments[p].amount > 0
  {
    if p >= |db.payments| || db.payments[p].purpose.ForTopup? || db.payments[p].amount <= 0 then None
    else
      var r := FindReferral(db.referrals, db.payments[p].user);
      if r.None? || db.referrals[r.value].bonusPaid || db.referrals[r.value].referrer >= |db.users| then None else r
  }

  function ApplyReferrerBonus(db: Db, p: nat, now: int): Db {
    var r := BonusRow(db, p);
    if r.None? then db
    else
      var row := db.referrals[r.value];
      var db1 := Post(db, row.referrer, REFERRAL_BONUS, ReferralBonus, Some(p));
      db1.(referrals := db.referrals[r.value :=
             row.(bonusPaid := true, bonusPaidAt := Some(now), firstPurchase := Some(p))])
  }

  lemma RegisterKeepsInv(db: Db, referrer: nat, referee: nat, isNew: bool)
    requires Inv(db)
    ensures Inv(RegisterReferral(db, referrer, referee, isNew))
  {
    hide Sum, LedgerOk, Settled, PaymentsOk, PromosOk, SubsOk, InFlightOk, TimesOk;
    var row := Referral(referrer, referee, false, None, None);
    forall k: nat
      ensures Sum(db.referrals + [row], PaidTo(k)) == Sum(db.referrals, PaidTo(k))
      ensures Sum(db.referrals + [row], PaidFor(k)) == Sum(db.referrals, PaidFor(k))
    {
      SumAppend(db.referrals, row, PaidTo(k));
      SumAppend(db.referrals, row, PaidFor(k));
    }
    SumAppend(db.referrals, row, BonusPaid());
  }

  /** Flagging referral r as paid for by p moves each count of referrals by its own row. */
  lemma FlagSums(referrals: seq<Referral>, r: nat, row: Referral)
    requires r < |referrals|
    ensures forall k: nat :: Sum(referrals[r := row], PaidTo(k))
              == Sum(referrals, PaidTo(k)) - PaidTo(k)(referrals[r]) + PaidTo(k)(row)
    ensures forall k: nat :: Sum(referrals[r := row], PaidFor(k))
              == Sum(referrals, PaidFor(k)) - PaidFor(k)(referrals[r]) + PaidFor(k)(row)
    ensures Sum(referrals[r := row], BonusPaid())
              == Sum(referrals, BonusPaid()) - BonusPaid()(referrals[r]) + BonusPaid()(row)
  {
    forall k: nat
      ensures Sum(referrals[r := row], PaidTo(k))
                == Sum(referrals, PaidTo(k)) - PaidTo(k)(referrals[r]) + PaidTo(k)(row)
    {
      SumUpdate(referrals, r, row, PaidTo(k));
    }
    forall k: nat
      ensures Sum(referrals[r := row], PaidFor(k))
                == Sum(referrals, PaidFor(k)) - PaidFor(k)(referrals[r]) + PaidFor(k)(row)
    {
      SumUpdate(referrals, r, row, PaidFor(k));
    }
    SumUpdate(referrals, r, row, BonusPaid());
  }

  lemma BonusKeepsReferrals(db: Db, p: nat, now: int)
    requires ReferralsOk(db.referrals, db.ledger, db.payments, |db.users|)
    requires p < |db.payments| && !Unpaid(db.payments[p])
    ensures var db' := ApplyReferrerBonus(db, p, now);
            && ReferralsOk(db'.referrals, db'.ledger, db'.payments, |db'.users|)
            && Sum(db'.users, Balance()) - Sum(db.users, Balance())
               == REFERRAL_BONUS * (Sum(db'.referrals, BonusPaid()) - Sum(db.referrals, BonusPaid()))
            && Sum(db'.ledger, Adjusted()) == Sum(db.ledger, Adjusted())
  {
    hide Sum;
    var r := BonusRow(db, p);
    if r.Some? {
      var row := db.referrals[r.value];
      var paid := row.(bonusPaid := true, bonusPaidAt := Some(now), firstPurchase := Some(p));
      PostSums(db, row.referrer, REFERRAL_BONUS, ReferralBonus, Some(p));
      FlagSums(db.referrals, r.value, paid);
    }
  }

  lemma BonusKeepsInv(db: Db, p: nat, now: int)
    requires Inv(db)
    requires p < |db.payments| ==> !Unpaid(db.payments[p])
    ensures Inv(ApplyReferrerBonus(db, p, now))
  {
    hide LedgerOk, Settled, ReferralsOk, PaymentsOk, PromosOk, SubsOk, InFlightOk, TimesOk, Sum;
    var r := BonusRow(db, p);
    if r.Some? {
      var row := db.referrals[r.value];
      NeverNegative(db.users, db.ledger, db.overwritten, row.referrer);
      PostKeepsLedger(db, row.referrer, REFERRAL_BONUS, ReferralBonus, Some(p));
      PostKeepsSettled(db, row.referrer, REFERRAL_BONUS, ReferralBonus, Some(p));
      BonusKeepsReferrals(db, p, now);
    }
  }
}
