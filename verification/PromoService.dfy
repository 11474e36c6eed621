/** Promo codes: validation, balance grants, and the recording of discounts. */
module PromoService {
  import opened Sums
  import opened Options
  import opened Store
  import opened Invariant

  datatype PromoError =
    | NotFound | Inactive | NotStarted | WindowPassed | TotalExceeded | PerUserExceeded | NotForThisUser | InvalidType

  /** Which error the checks raise, in the order the source makes them. The code
      typed by the user is resolved to a row beforehand. */
  function Refusal(db: Db, promo: Option<nat>, user: nat, now: int): Option<PromoError> {
    if promo.None? || promo.value >= |db.promos| then Some(NotFound)
    else
      var p := db.promos[promo.value];
      if !p.isActive then Some(Inactive)
      else if p.validFrom.Some? && now < p.validFrom.value then Some(NotStarted)
      else if p.validUntil.Some? && now > p.validUntil.value then Some(WindowPassed)
      else if Exhausted(p) then Some(TotalExceeded)
      else if UsedUp(db, promo.value, user) then Some(PerUserExceeded)
      else if p.owner.Some? && p.owner.value != user then Some(NotForThisUser)
      else if p.kind.UnknownPromo? then Some(InvalidType)
      else None
  }

  predicate Exhausted(p: Promo) { p.maxTotal.Some? && p.current >= p.maxTotal.value }

  predicate UsedUp(db: Db, promo: nat, user: nat)
    requires promo < |db.promos|
  {
    Sum(db.activations, OfPromoUser(promo, user)) >= db.promos[promo].maxPerUser
  }

  /** Insert an activation row and bump the promo's counter. */
  function Activate(db: Db, promo: nat, user: nat, payment: Option<nat>, amount: int): Db
    requires promo < |db.promos|
  {
    db.(activations := db.activations + [Activation(promo, user, payment, amount)],
        promos := db.promos[promo := db.promos[promo].(current := db.promos[promo].current + 1)])
  }

  function ApplyPromo(db: Db, promo: Option<nat>, user: nat, now: int): Db {
    if user >= |db.users| || Refusal(db, promo, user, now).Some? then db
    else if db.promos[promo.value].kind.BalancePromo? then
      var amount := db.promos[promo.value].value;
      Activate(Post(db, user, amount, PromoBonus, None), promo.value, user, None, amount)
    else db
  }

  function RecordDiscount(db: Db, promo: nat, user: nat, payment: nat, discount: int): Db {
    if promo >= |db.promos| || Exhausted(db.promos[promo]) || UsedUp(db, promo, user) then db
    else Activate(db, promo, user, Some(payment), discount)
  }

  lemma ActivationSums(activations: seq<Activation>, a: Activation)
    ensures forall p: nat :: Sum(activations + [a], OfPromo(p)) == Sum(activations, OfPromo(p)) + OfPromo(p)(a)
    ensures forall p: nat, u: nat :: Sum(activations + [a], OfPromoUser(p, u))
              == Sum(activations, OfPromoUser(p, u)) + OfPromoUser(p, u)(a)
  {
  }

  lemma ActivateKeepsPromos(db: Db, promo: nat, user: nat, payment: Option<nat>, amount: int)
    requires promo < |db.promos| && PromosOk(db.promos, db.activations)
    requires !Exhausted(db.promos[promo]) && !UsedUp(db, promo, user)
    requires payment.None? ==> amount == db.promos[promo].value
    ensures var db' := Activate(db, promo, user, payment, amount);
            && PromosOk(db'.promos, db'.activations)
            && Sum(db'.activations, Granted()) == Sum(db.activations, Granted()) + if payment.None? then amount else 0
  {
    hide Sum;
    var a := Activation(promo, user, payment, amount);
    ActivationSums(db.activations, a);
    SumAppend(db.activations, a, Granted());
  }

  lemma ApplyPromoKeepsInv(db: Db, promo: Option<nat>, user: nat, now: int)
    requires Inv(db)
    ensures Inv(ApplyPromo(db, promo, user, now))
  {
    hide LedgerOk, Settled, ReferralsOk, PaymentsOk, PromosOk, SubsOk, InFlightOk, TimesOk, Sum;
    if user < |db.users| && Refusal(db, promo, user, now).None? && db.promos[promo.value].kind.BalancePromo? {
      var amount := db.promos[promo.value].value;
      var db1 := Post(db, user, amount, PromoBonus, None);
      NeverNegative(db.users, db.ledger, db.overwritten, user);
      PostKeepsLedger(db, user, amount, PromoBonus, None);
      PostKeepsSettled(db, user, amount, PromoBonus, None);
      PostKeepsReferrals(db, user, amount, PromoBonus, None);
      PostTotals(db, user, amount, PromoBonus, None);
      ActivateKeepsPromos(db1, promo.value, user, None, amount);
    }
  }

  lemma RecordDiscountKeepsInv(db: Db, promo: nat, user: nat, payment: nat, discount: int)
    requires Inv(db)
    ensures Inv(RecordDiscount(db, promo, user, payment, discount))
  {
    hide LedgerOk, Settled, ReferralsOk, PaymentsOk, PromosOk, SubsOk, InFlightOk, TimesOk, Sum;
    if promo < |db.promos| && !Exhausted(db.promos[promo]) && !UsedUp(db, promo, user) {
      ActivateKeepsPromos(db, promo, user, Some(payment), discount);
    }
  }
}
