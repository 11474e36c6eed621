/** What the calls on accounts do to the tables, row by row: admin adjustments, promo
    codes and referrals. Each result is read off the inputs alone. */
module AccountOutcomes {
  import opened Sums
  import opened Options
  import opened Store
  import opened Invariant
  import opened Machine
  import PromoService

  // ----- admin adjustments -----

  /** A nonzero adjustment that leaves the balance non-negative is written to the balance and
      to one ledger row that shows it; any other changes nothing. */
  lemma AdjustmentIsPosted(db: Db, user: nat, amount: int)
    requires user < |db.users|
    ensures var db' := Step(db, AdjustBalance(user, amount));
            var after := db.users[user].balance + amount;
            if amount != 0 && after >= 0 then
              db' == db.(users := db.users[user := User(after)],
                         ledger := db.ledger + [Entry(user, amount, AdminAdjust, None, after)])
            else db' == db
  {
  }

  // ----- promo codes -----

  function UsedBy(promo: nat, user: nat): Activation -> bool { (a: Activation) => a.promo == promo && a.user == user }

  /** How often the user has used the promo. */
  function Uses(db: Db, promo: nat, user: nat): nat { Count(db.activations, UsedBy(promo, user)) }

  lemma UsesAreSummed(db: Db, promo: nat, user: nat)
    ensures Sum(db.activations, OfPromoUser(promo, user)) == Uses(db, promo, user)
  {
    SumIsCount(db.activations, OfPromoUser(promo, user), UsedBy(promo, user));
  }

  /** Nothing stands between the user and the promo. */
  predicate Redeemable(db: Db, promo: nat, user: nat, now: int) {
    && promo < |db.promos|
    && var p := db.promos[promo];
       && p.isActive
       && (p.validFrom.Some? ==> p.validFrom.value <= now)
       && (p.validUntil.Some? ==> now <= p.validUntil.value)
       && (p.maxTotal.Some? ==> p.current < p.maxTotal.value)
       && Uses(db, promo, user) < p.maxPerUser
       && (p.owner.Some? ==> p.owner.value == user)
  }

  /** A redeemable balance promo credits its value, with one ledger row, one activation and one
      more on the promo's counter. Any other promo changes nothing: one that is inactive, not yet
      or no longer valid, used up in all or by the user, someone else's, or for discounts. */
  lemma RedemptionIsPosted(db: Db, promo: nat, user: nat, now: int)
    requires user < |db.users|
    ensures var db' := Step(db, ApplyPromo(Some(promo), user, now));
            if Redeemable(db, promo, user, now) && db.promos[promo].kind.BalancePromo? then
              var p := db.promos[promo];
              var after := db.users[user].balance + p.value;
              db' == db.(users := db.users[user := User(after)],
                         ledger := db.ledger + [Entry(user, p.value, PromoBonus, None, after)],
                         activations := db.activations + [Activation(promo, user, None, p.value)],
                         promos := db.promos[promo := p.(current := p.current + 1)])
            else db' == db
    ensures Step(db, ApplyPromo(None, user, now)) == db
  {
    UsesAreSummed(db, promo, user);
    hide Sum;
  }

  /** The error that the user sees is that of the first check that fails. */
  lemma RefusalIsFirstFailure(db: Db, promo: nat, user: nat, now: int)
    requires promo < |db.promos|
    ensures var p := db.promos[promo]; var refusal := PromoService.Refusal(db, Some(promo), user, now);
            && (refusal == Some(PromoService.Inactive) <==> !p.isActive)
            && (refusal == Some(PromoService.NotStarted)
                <==> p.isActive && p.validFrom.Some? && now < p.validFrom.value)
            && (refusal == Some(PromoService.WindowPassed) <==>
                  p.isActive && !(p.validFrom.Some? && now < p.validFrom.value)
                  && p.validUntil.Some? && p.validUntil.value < now)
            && (refusal.None? <==> Redeemable(db, promo, user, now) && !p.kind.UnknownPromo?)
            && (refusal == Some(PromoService.InvalidType) <==> Redeemable(db, promo, user, now) && p.kind.UnknownPromo?)
            && (refusal == Some(PromoService.PerUserExceeded) ==> Uses(db, promo, user) >= p.maxPerUser)
            && (refusal == Some(PromoService.TotalExceeded) ==> p.maxTotal.Some? && p.current >= p.maxTotal.value)
            && (refusal == Some(PromoService.NotForThisUser) ==> p.owner.Some? && p.owner.value != user)
            && refusal != Some(PromoService.NotFound)
    ensures PromoService.Refusal(db, None, user, now) == Some(PromoService.NotFound)
  {
    UsesAreSummed(db, promo, user);
    hide Sum;
  }

  // ----- referrals -----

  predicate Purchased(db: Db, user: nat) {
    exists i | 0 <= i < |db.payments| ::
      db.payments[i].user == user && db.payments[i].status == PayPaid && db.payments[i].amount > 0
  }

  predicate Invited(db: Db, user: nat) {
    exists i | 0 <= i < |db.referrals| :: db.referrals[i].referee == user
  }

  /** A new user invited by someone else, for the first time and with no paid order, is referred;
      in every other case nothing changes. */
  lemma RegistrationIsRecorded(db: Db, referrer: nat, referee: nat, isNew: bool)
    requires referrer < |db.users| && referee < |db.users|
    ensures var db' := Step(db, RegisterReferral(referrer, referee, isNew));
            if isNew && referrer != referee && !Invited(db, referee) && !Purchased(db, referee) then
              db' == db.(referrals := db.referrals + [Referral(referrer, referee, false, None, None)])
            else db' == db
  {
  }

  // ----- new rows -----

  lemma NewRows(db: Db, promo: Promo)
    ensures Step(db, NewUser) == db.(users := db.users + [User(0)])
    ensures Step(db, NewPromo(promo)) == db.(promos := db.promos + [promo.(current := 0)])
  {
  }
}
