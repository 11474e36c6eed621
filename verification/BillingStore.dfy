/** The services as they run: methods that update the tables in place. Each
    call has exactly the effect of one step of the machine, so runs of calls are runs
    of the machine and keep the invariant. */
module BillingStore {
  import opened Sums
  import opened Options
  import opened Store
  import opened Invariant
  import Machine
  import opened Discount
  import opened Statuses
  import opened OrderOutcomes
  import opened ReconcileOutcomes
  import AccountOutcomes
  import PromoService
  import ReferralService
  import ExtensionService
  import PaymentService
  import BalanceService
  import Reconcile

  datatype Failure =
    | InsufficientBalance | ProviderUnavailable | NotExtendable | TopupTooSmall | DuplicateInvoice | ServerError

  datatype WebhookReply = UnknownPayment | AlreadyTerminal | UnknownStatus | Processed(status: PayStatus) | RolledBack

  /** What an applied promo gives: a credited balance, or the percent to use later. */
  datatype Applied = BalanceCredited(balance: int) | DiscountNoted(percent: nat)

  class Tables {
    var users: seq<User>
    var payments: seq<Payment>
    var subs: seq<Subscription>
    var ledger: seq<Entry>
    var promos: seq<Promo>
    var activations: seq<Activation>
    var referrals: seq<Referral>
    var inFlight: set<Debit>
    ghost var overwritten: seq<Overwrite>

    ghost function View(): Db
      reads this
    {
      Db(users, payments, subs, ledger, promos, activations, referrals, inFlight, overwritten)
    }

    ghost predicate Valid()
      reads this
    {
      Inv(View())
    }

    constructor ()
      ensures View() == EMPTY && Valid()
    {
      users, payments, subs, ledger := [], [], [], [];
      promos, activations, referrals, inFlight, overwritten := [], [], [], {}, [];
      new;
      EmptyInv();
    }

    // ----- new rows -----

    method AddUser() returns (user: nat)
      requires Valid()
      modifies this`users
      ensures Valid()
      ensures View() == Machine.AddUser(old(View())) && user == |old(users)|
    {
      hide Inv, Sum;
      Machine.AddUserKeepsInv(View());
      user := |users|;
      users := users + [User(0)];
    }

    method AddPromo(promo: Promo) returns (id: nat)
      requires Valid()
      modifies this`promos
      ensures Valid()
      ensures View() == Machine.AddPromo(old(View()), promo) && id == |old(promos)|
    {
      hide Inv, Sum;
      Machine.AddPromoKeepsInv(View(), promo);
      id := |promos|;
      promos := promos + [promo.(current := 0)];
    }

    // ----- balances -----

    /** Every credit and debit: lock the user, write the balance, append the ledger row. */
    method PostEntry(user: nat, amount: int, reason: Reason, payment: Option<nat>) returns (newBalance: int)
      requires user < |users|
      modifies this`users, this`ledger
      ensures View() == Post(old(View()), user, amount, reason, payment)
      ensures newBalance == old(users[user].balance) + amount == users[user].balance
    {
      newBalance := users[user].balance + amount;
      users := users[user := User(newBalance)];
      ledger := ledger + [Entry(user, amount, reason, payment, newBalance)];
    }

    method AddAdminAdjust(user: nat, amount: int) returns (r: Result<int, Failure>)
      requires Valid() && user < |users|
      modifies this`users, this`ledger
      ensures Valid()
      ensures View() == BalanceService.Adjust(old(View()), user, amount)
      ensures r == if amount == 0 || old(users[user].balance) + amount >= 0
                then Ok(old(users[user].balance) + amount) else Err(InsufficientBalance)
      ensures r.Ok? ==> users[user].balance == r.value
    {
      hide Inv, Sum;
      BalanceService.AdjustKeepsInv(View(), user, amount);
      if amount == 0 {
        return Ok(users[user].balance);
      }
      var newBalance := users[user].balance + amount;
      if newBalance < 0 {
        return Err(InsufficientBalance);
      }
      newBalance := PostEntry(user, amount, AdminAdjust, None);
      return Ok(newBalance);
    }

    /** Phase one of a balance purchase, up to its commit. */
    method StartPurchase(user: nat, days: nat, price: nat, promo: Option<nat>, now: int)
      returns (r: Result<Debit, Failure>)
      requires Valid() && user < |users|
      modifies this
      ensures Valid()
      ensures View() == BalanceService.StartPurchase(old(View()), user, days, price, promo, now)
      ensures r == if BalanceService.Affordable(old(View()), user, price, promo)
                   then Ok(BalanceService.DebitOf(old(View()), user, days, price, promo)) else Err(InsufficientBalance)
      ensures r.Ok? ==> r.value in inFlight && users[user].balance == old(users[user].balance) - r.value.price
      ensures forall charge: nat | PriceIs(charge, price, PercentOff(old(View()), promo)) ::
                && (r.Ok? <==> old(users[user].balance) >= charge)
                && (r.Ok? ==> users[user].balance == old(users[user].balance) - charge && r.value.price == charge
                              && |payments| == |old(payments)| + 1 && payments[|old(payments)|].amount == charge)
    {
      hide Inv, Sum, PaymentService.RecordPromo;
      BalanceService.StartPurchaseKeepsInv(View(), user, days, price, promo, now);
      ghost var before := View();
      var amount, discount := price, None;
      if promo.Some? && promo.value < |promos| && promos[promo.value].kind.DiscountPromo? {
        DiscountBounded(price, promos[promo.value].value);
        amount := ComputeDiscountedPrice(price, promos[promo.value].value);
        discount := Some(Discounted(promo.value, price));
      }
      assert (amount, discount) == PaymentService.Charge(before, price, promo);
      forall charge: nat | PriceIs(charge, price, PercentOff(before, promo)) ensures charge == amount {
        ChargeIsPrice(before, price, promo, charge);
      }
      if users[user].balance < amount {
        return Err(InsufficientBalance);
      }
      var s, p := |subs|, |payments|;
      subs := subs + [PaymentService.NewSubscription(user, days)];
      payments := payments +
        [PaymentService.FirstOrder(user, s, amount, discount, FromBalance, None, PayPaid, Some(now))];
      var debit := Debit(user, s, p, amount, days, users[user].balance - amount);
      inFlight := inFlight + {debit};
      var balance := PostEntry(user, -(amount as int), Purchase, Some(p));
      assert View() == BalanceService.Debited(before, user, days, price, promo, now);
      RecordPromoActivation(p);
      return Ok(debit);
    }

    /** Phase two, once the VPN provider has answered (or the request has died). */
    method FinishPurchase(d: Debit, answer: Answer, now: int) returns (r: Result<nat, Failure>)
      requires Valid() && d in inFlight
      modifies this
      ensures Valid()
      ensures View() == BalanceService.FinishPurchase(old(View()), d, answer, now)
      ensures d !in inFlight
      ensures r == match answer
                   case Accepted(_) => Ok(d.sub)
                   case Rejected => Err(ProviderUnavailable)
                   case Crashed => Err(ServerError)
    {
      hide Inv, Sum;
      BalanceService.FinishPurchaseKeepsInv(View(), d, answer, now);
      InFlightShape(View(), d);
      inFlight := inFlight - {d};
      match answer {
        case Crashed =>
          return Err(ServerError);
        case Rejected =>
          RefundAfterFailure(d);
          return Err(ProviderUnavailable);
        case Accepted(keyId) =>
          var sub := subs[d.sub];
          subs := subs[d.sub := sub.(status := SubActive, providerId := keyId, startedAt := Some(now),
                                     expiresAt := Some(now + DAY * sub.days))];
          return Ok(d.sub);
      }
    }

    /** The compensating action of a failed balance purchase, with the balance that the
        session still holds. */
    method RefundAfterFailure(d: Debit)
      requires d.user < |users| && d.sub < |subs| && d.payment < |payments|
      modifies this`users, this`ledger, this`subs, this`payments, this`overwritten
      ensures var failed := old(View()).(subs := old(subs)[d.sub := old(subs)[d.sub].(status := SubFailed)]);
              View() == PostSeen(SetStatus(failed, d.payment, PayRefunded), d.user, d.seen, d.price, Refund,
                                 Some(d.payment))
    {
      subs := subs[d.sub := subs[d.sub].(status := SubFailed)];
      payments := payments[d.payment := payments[d.payment].(status := PayRefunded)];
      var newBalance := d.seen + d.price;
      ghost var current := users[d.user].balance;
      if newBalance != d.seen {
        users := users[d.user := User(newBalance)];
      }
      ledger := ledger + [Entry(d.user, d.price, Refund, Some(d.payment), newBalance)];
      if d.seen != current {
        overwritten := overwritten + [Overwrite(d.user, current + d.price - users[d.user].balance)];
      }
    }

    // ----- promo codes -----

    method ValidateAndApply(promo: Option<nat>, user: nat, now: int)
      returns (r: Result<Applied, PromoService.PromoError>)
      requires Valid() && user < |users|
      modifies this`users, this`ledger, this`promos, this`activations
      ensures Valid()
      ensures View() == PromoService.ApplyPromo(old(View()), promo, user, now)
      ensures var refusal := PromoService.Refusal(old(View()), promo, user, now);
              if refusal.Some? then r == Err(refusal.value)
              else r == Ok(match old(promos)[promo.value].kind
                           case DiscountPromo => DiscountNoted(old(promos)[promo.value].value)
                           case _ => BalanceCredited(old(users[user].balance) + old(promos)[promo.value].value))
    {
      hide Inv, Sum;
      PromoService.ApplyPromoKeepsInv(View(), promo, user, now);
      if promo.None? || promo.value >= |promos| {
        return Err(PromoService.NotFound);
      }
      var row := promos[promo.value];
      if !row.isActive {
        return Err(PromoService.Inactive);
      }
      if row.validFrom.Some? && now < row.validFrom.value {
        return Err(PromoService.NotStarted);
      }
      if row.validUntil.Some? && now > row.validUntil.value {
        return Err(PromoService.WindowPassed);
      }
      if row.maxTotal.Some? && row.current >= row.maxTotal.value {
        return Err(PromoService.TotalExceeded);
      }
      if Sum(activations, OfPromoUser(promo.value, user)) >= row.maxPerUser {
        return Err(PromoService.PerUserExceeded);
      }
      if row.owner.Some? && row.owner.value != user {
        return Err(PromoService.NotForThisUser);
      }
      match row.kind {
        case UnknownPromo =>
          return Err(PromoService.InvalidType);
        case DiscountPromo =>
          return Ok(DiscountNoted(row.value));
        case BalancePromo =>
          var balance := PostEntry(user, row.value, PromoBonus, None);
          activations := activations + [Activation(promo.value, user, None, row.value)];
          promos := promos[promo.value := row.(current := row.current + 1)];
          return Ok(BalanceCredited(balance));
      }
    }

    method RecordDiscountActivation(promo: nat, user: nat, payment: nat, discount: int)
      modifies this`promos, this`activations
      ensures View() == PromoService.RecordDiscount(old(View()), promo, user, payment, discount)
    {
      if promo >= |promos| {
        return;
      }
      var row := promos[promo];
      if row.maxTotal.Some? && row.current >= row.maxTotal.value {
        return;
      }
      if Sum(activations, OfPromoUser(promo, user)) >= row.maxPerUser {
        return;
      }
      activations := activations + [Activation(promo, user, Some(payment), discount)];
      promos := promos[promo := row.(current := row.current + 1)];
    }

    method RecordPromoActivation(p: nat)
      requires p < |payments|
      modifies this`promos, this`activations
      ensures View() == PaymentService.RecordPromo(old(View()), p)
    {
      var pay := payments[p];
      if pay.discount.Some? {
        var discount := Max(0, pay.discount.value.original - pay.amount);
        RecordDiscountActivation(pay.discount.value.promo, pay.user, p, discount);
      }
    }

    // ----- referrals -----

    method RegisterReferral(referrer: nat, referee: nat, isNew: bool)
      returns (r: Result<nat, ReferralService.ReferralError>)
      requires Valid() && referrer < |users| && referee < |users|
      modifies this`referrals
      ensures Valid()
      ensures View() == ReferralService.RegisterReferral(old(View()), referrer, referee, isNew)
      ensures r.Ok? ==> r.value == |old(referrals)| && |referrals| == r.value + 1
                        && isNew && referrer != referee && FindReferral(old(referrals), referee).None?
      ensures r.Err? ==> referrals == old(referrals)
      ensures r.Ok? <==> isNew && referrer != referee && !AccountOutcomes.Invited(old(View()), referee)
                         && !AccountOutcomes.Purchased(old(View()), referee)
      ensures r.Ok? ==> referrals == old(referrals) + [Referral(referrer, referee, false, None, None)]
    {
      hide Inv, Sum;
      ReferralService.RegisterKeepsInv(View(), referrer, referee, isNew);
      if !isNew {
        return Err(ReferralService.NotNew);
      }
      if referrer == referee {
        return Err(ReferralService.SelfReferral);
      }
      var existing := FindReferral(referrals, referee);
      if existing.Some? {
        return Err(ReferralService.AlreadyReferred);
      }
      if exists i | 0 <= i < |payments| ::
           payments[i].user == referee && payments[i].status.PayPaid? && payments[i].amount > 0
      {
        return Err(ReferralService.AlreadyPurchased);
      }
      referrals := referrals + [Referral(referrer, referee, false, None, None)];
      return Ok(|referrals| - 1);
    }

    method ApplyReferrerBonus(p: nat, now: int)
      requires p < |payments|
      modifies this`users, this`ledger, this`referrals
      ensures View() == ReferralService.ApplyReferrerBonus(old(View()), p, now)
    {
      var pay := payments[p];
      if pay.purpose.ForTopup? || pay.amount <= 0 {
        return;
      }
      var found := FindReferral(referrals, pay.user);
      if found.None? || referrals[found.value].bonusPaid {
        return;
      }
      var row := referrals[found.value];
      if row.referrer >= |users| {
        return;
      }
      var balance := PostEntry(row.referrer, REFERRAL_BONUS, ReferralBonus, Some(p));
      row := row.(bonusPaid := true, bonusPaidAt := Some(now), firstPurchase := Some(p));
      referrals := referrals[found.value := row];
    }

    /** The referral screen: what it shows as earned is 7000 per paid invitation. */
    method GetStats(user: nat) returns (invited: int, earned: int)
      requires Valid()
      ensures invited == Sum(referrals, InvitedBy(user))
      ensures earned == REFERRAL_BONUS * Sum(referrals, PaidTo(user)) && earned <= REFERRAL_BONUS * invited
      ensures invited == Count(referrals, (row: Referral) => row.referrer == user)
      ensures earned == 7000 * Count(referrals, (row: Referral) => row.referrer == user && row.bonusPaid)
    {
      hide Sum, LedgerOk, Settled, PromosOk, SubsOk, InFlightOk, TimesOk, Conserved;
      invited := Sum(referrals, InvitedBy(user));
      earned := Sum(ledger, BonusOf(user));
      SumAtMost(referrals, PaidTo(user), InvitedBy(user));
      SumIsCount(referrals, InvitedBy(user), (row: Referral) => row.referrer == user);
      SumIsCount(referrals, PaidTo(user), (row: Referral) => row.referrer == user && row.bonusPaid);
    }

    // ----- extensions -----

    method CreateExtensionPayment(user: nat, s: nat, days: nat, price: nat, externalId: string)
      returns (r: Result<nat, Failure>)
      requires Valid() && user < |users|
      modifies this`payments
      ensures Valid()
      ensures View() == ExtensionService.CreateExtensionPayment(old(View()), user, s, days, price, externalId)
      ensures r.Err? <==> !ExtensionService.Extendable(old(View()), user, s)
                          || FindPayment(old(payments), externalId).Some?
      ensures r.Ok? ==> r.value < |payments| && payments[r.value].externalId == Some(externalId)
                        && payments[r.value].status.PayPending?
      ensures r.Err? ==> payments == old(payments)
    {
      hide Inv, Sum;
      ExtensionService.CreateExtensionKeepsInv(View(), user, s, days, price, externalId);
      if s >= |subs| || subs[s].user != user || !subs[s].status.SubActive? || subs[s].providerId.None?
         || subs[s].providerId.value == ""
      {
        return Err(NotExtendable);
      }
      var clash := FindPayment(payments, externalId);
      if clash.Some? {
        return Err(DuplicateInvoice);
      }
      payments := payments +
        [ExtensionService.ExtensionOrder(user, s, days, price, External, Some(externalId), PayPending, None)];
      return Ok(|payments| - 1);
    }

    /** The provider has extended the key: add the days. */
    method AddDays(p: nat, now: int)
      requires p < |payments| && payments[p].extension.Some? && payments[p].extension.value.sub < |subs|
      modifies this`subs
      ensures subs == old(subs)[payments[p].extension.value.sub :=
                ExtensionService.Extended(old(subs)[payments[p].extension.value.sub],
                                          payments[p].extension.value.days, now)]
      ensures var s := payments[p].extension.value.sub;
              subs == old(subs)[s := Prolonged(old(subs)[s], payments[p].extension.value.days, now)]
    {
      var ext := payments[p].extension.value;
      var sub := subs[ext.sub];
      var days := if ext.days != 0 then ext.days else sub.days;
      var base := now;
      if sub.expiresAt.Some? && sub.expiresAt.value > now {
        base := sub.expiresAt.value;
      }
      subs := subs[ext.sub := sub.(expiresAt := Some(base + DAY * days), status := SubActive)];
    }

    method RefundExtension(p: nat)
      requires p < |payments|
      modifies this`users, this`ledger, this`payments
      ensures View() == ExtensionService.RefundExtension(old(View()), p)
    {
      var pay := payments[p];
      if pay.user < |users| {
        payments := payments[p := pay.(status := PayRefunded)];
        var balance := PostEntry(pay.user, pay.amount, Refund, Some(p));
      }
    }

    method ApplyExtensionAfterPayment(p: nat, answer: Answer, now: int)
      requires p < |payments| && !answer.Crashed?
      modifies this
      ensures View() == ExtensionService.ApplyExtension(old(View()), p, answer, now)
    {
      var ext := payments[p].extension;
      if ext.None? || ext.value.sub >= |subs| {
        return;
      }
      if answer.Accepted? {
        AddDays(p, now);
      } else {
        RefundExtension(p);
      }
    }

    method ExtendViaBalance(user: nat, s: nat, days: nat, price: nat, answer: Answer, now: int)
      returns (r: Result<nat, Failure>)
      requires Valid() && user < |users|
      modifies this
      ensures Valid()
      ensures View() == ExtensionService.ExtendWithBalance(old(View()), user, s, days, price, answer, now)
      ensures r.Ok? <==> ExtensionService.Extendable(old(View()), user, s) && old(users[user].balance) >= price
                         && answer.Accepted?
      ensures r.Ok? ==> users[user].balance == old(users[user].balance) - price && r.value == |old(payments)|
      ensures r.Err? ==> users == old(users) && subs == old(subs)
      ensures r.Err? ==>
                r.error == if !Running(old(View()), user, s) then NotExtendable
                           else if old(users[user].balance) < price then InsufficientBalance
                           else if answer.Crashed? then ServerError else ProviderUnavailable
    {
      hide Inv, Sum;
      ExtensionService.ExtendWithBalanceKeepsInv(View(), user, s, days, price, answer, now);
      if s >= |subs| || subs[s].user != user || !subs[s].status.SubActive? || subs[s].providerId.None?
         || subs[s].providerId.value == ""
      {
        return Err(NotExtendable);
      }
      if users[user].balance < price {
        return Err(InsufficientBalance);
      }
      if answer.Crashed? {
        return Err(ServerError);  // the transaction is rolled back before anything is written
      }
      var p := |payments|;
      payments := payments +
        [ExtensionService.ExtensionOrder(user, s, days, price, FromBalance, None, PayPaid, Some(now))];
      var debited := PostEntry(user, -(price as int), Purchase, Some(p));
      ApplyExtensionAfterPayment(p, answer, now);
      if answer.Accepted? {
        return Ok(p);
      }
      assert users == old(users);
      return Err(ProviderUnavailable);
    }

    // ----- external payments -----

    method CreateTopupPayment(user: nat, amount: int, externalId: string) returns (r: Result<nat, Failure>)
      requires Valid() && user < |users|
      modifies this`payments
      ensures Valid()
      ensures View() == PaymentService.CreateTopup(old(View()), user, amount, externalId)
      ensures r.Err? && r.error.TopupTooSmall? <==> amount < MIN_TOPUP
      ensures r.Err? <==> amount < MIN_TOPUP || FindPayment(old(payments), externalId).Some?
      ensures r.Err? ==> payments == old(payments)
      ensures r.Ok? ==> r.value < |payments| && payments[r.value].user == user && payments[r.value].amount == amount
                        && payments[r.value].purpose == ForTopup && amount >= 1000
    {
      hide Inv, Sum;
      PaymentService.CreateTopupKeepsInv(View(), user, amount, externalId);
      if amount < MIN_TOPUP {
        return Err(TopupTooSmall);
      }
      var clash := FindPayment(payments, externalId);
      if clash.Some? {
        return Err(DuplicateInvoice);
      }
      payments := payments +
        [Payment(user, None, ForTopup, External, Some(externalId), amount, PayPending, None, None, None)];
      return Ok(|payments| - 1);
    }

    method CreateSubscriptionPayment(user: nat, days: nat, price: nat, promo: Option<nat>, externalId: string)
      returns (r: Result<nat, Failure>)
      requires Valid() && user < |users|
      modifies this`payments, this`subs
      ensures Valid()
      ensures View() == PaymentService.CreateSubscriptionPayment(old(View()), user, days, price, promo, externalId)
      ensures r.Err? <==> FindPayment(old(payments), externalId).Some?
      ensures r.Ok? ==> r.value < |payments| && payments[r.value].amount <= price
      ensures r.Ok? ==> |subs| == |old(subs)| + 1 && subs[|old(subs)|].user == user && subs[|old(subs)|].days == days
                        && payments[r.value].user == user && payments[r.value].sub == Some(|old(subs)|)
      ensures forall charge: nat | PriceIs(charge, price, PercentOff(old(View()), promo)) ::
                r.Ok? ==> payments[r.value].amount == charge
      ensures r.Err? ==> View() == old(View())
    {
      hide Inv, Sum;
      PaymentService.CreateSubscriptionKeepsInv(View(), user, days, price, promo, externalId);
      ghost var before := View();
      var clash := FindPayment(payments, externalId);
      if clash.Some? {
        return Err(DuplicateInvoice);
      }
      var amount, discount := price, None;
      if promo.Some? && promo.value < |promos| && promos[promo.value].kind.DiscountPromo? {
        DiscountBounded(price, promos[promo.value].value);
        amount := ComputeDiscountedPrice(price, promos[promo.value].value);
        discount := Some(Discounted(promo.value, price));
      }
      assert (amount, discount) == PaymentService.Charge(before, price, promo);
      forall charge: nat | PriceIs(charge, price, PercentOff(before, promo)) ensures charge == amount {
        ChargeIsPrice(before, price, promo, charge);
      }
      var s := |subs|;
      subs := subs + [PaymentService.NewSubscription(user, days)];
      payments := payments +
        [PaymentService.FirstOrder(user, s, amount, discount, External, Some(externalId), PayPending, None)];
      return Ok(|payments| - 1);
    }

    method ProvisionSubscriptionKey(p: nat, answer: Answer, now: int)
      requires p < |payments|
      modifies this`subs
      ensures View() == PaymentService.Provision(old(View()), p, answer, now)
    {
      var s := payments[p].sub;
      if s.None? || s.value >= |subs| {
        return;
      }
      var sub := subs[s.value];
      if answer.Accepted? {
        var keyId := if answer.keyId == Some("") then None else answer.keyId;
        sub := sub.(providerId := keyId, status := SubActive, startedAt := Some(now),
                    expiresAt := Some(now + DAY * sub.days));
      } else {
        sub := sub.(status := SubFailedProvider);
      }
      subs := subs[s.value := sub];
    }

    method CreditTopup(p: nat)
      requires p < |payments|
      modifies this`users, this`ledger
      ensures View() == PaymentService.CreditTopup(old(View()), p)
    {
      if payments[p].user < |users| {
        var balance := PostEntry(payments[p].user, payments[p].amount, Topup, Some(p));
      }
    }

    method HandleFailed(p: nat)
      requires p < |payments|
      modifies this`payments, this`subs
      ensures View() == PaymentService.HandleFailed(old(View()), p)
    {
      payments := payments[p := payments[p].(status := PayFailed)];
      var s := payments[p].sub;
      if s.Some? && s.value < |subs| && subs[s.value].status.SubPending? {
        subs := subs[s.value := subs[s.value].(status := SubFailed)];
      }
    }

    method HandleExpired(p: nat)
      requires p < |payments|
      modifies this`payments
      ensures View() == PaymentService.HandleExpired(old(View()), p)
    {
      payments := payments[p := payments[p].(status := PayExpired)];
    }

    /** Mark paid, deliver, run the hooks; an undeclared exception of the extension call rolls all of it back. */
    method HandlePaid(p: nat, answer: Answer, now: int) returns (committed: bool)
      requires p < |payments|
      modifies this
      ensures View() == PaymentService.HandlePaid(old(View()), p, answer, now)
      ensures committed <==> !PaymentService.Aborts(old(payments[p]), answer)
    {
      hide Sum;
      var saved := payments;
      payments := payments[p := payments[p].(status := PayPaid, paidAt := Some(now))];
      assert View() == PaymentService.MarkPaid(old(View()), p, now);
      var pay := payments[p];
      if !pay.purpose.ForTopup? && pay.extension.Some? {
        if answer.Crashed? {
          payments := saved;
          return false;
        }
        ApplyExtensionAfterPayment(p, answer, now);
      } else if pay.purpose.ForSubscription? {
        ProvisionSubscriptionKey(p, answer, now);
      } else if pay.purpose.ForTopup? {
        CreditTopup(p);
      }
      assert View() == PaymentService.Settle(old(View()), p, answer, now);
      RunHooks(p, now);
      return true;
    }

    method RunHooks(p: nat, now: int)
      requires p < |payments|
      modifies this
      ensures View() == PaymentService.Hooks(old(View()), p, now)
    {
      if !payments[p].purpose.ForTopup? && payments[p].amount > 0 {
        ApplyReferrerBonus(p, now);
        RecordPromoActivation(p);
      }
    }

    method ProcessWebhookPayment(externalId: string, status: string, answer: Answer, now: int)
      returns (reply: WebhookReply)
      requires Valid()
      modifies this
      ensures Valid()
      ensures View() == PaymentService.Webhook(old(View()), externalId, status, answer, now)
      ensures !reply.Processed? ==> View() == old(View())
      ensures reply.UnknownPayment? <==> FindPayment(old(payments), externalId).None?
      ensures reply.AlreadyTerminal? <==> FindPayment(old(payments), externalId).Some?
                                          && !Unpaid(old(payments)[FindPayment(old(payments), externalId).value])
      ensures !reply.UnknownPayment? && !reply.AlreadyTerminal? ==>
                if SaysPaid(status) then reply == Processed(PayPaid) || reply == RolledBack
                else if SaysFailed(status) then reply == Processed(PayFailed)
                else if SaysExpired(status) then reply == Processed(PayExpired)
                else reply == UnknownStatus
      ensures !SaysPaid(status) ==> users == old(users) && ledger == old(ledger) && referrals == old(referrals)
                                    && activations == old(activations)
    {
      hide Inv, Sum, PaymentService.HandlePaid, PaymentService.HandleFailed, PaymentService.HandleExpired;
      hide SaysPaid, SaysFailed, SaysExpired;
      StatusIsRead(status);
      PaymentService.WebhookKeepsInv(View(), externalId, status, answer, now);
      var found := FindPayment(payments, externalId);
      if found.None? {
        return UnknownPayment;
      }
      var p := found.value;
      if payments[p].status.PayPaid? || payments[p].status.PayRefunded? {
        return AlreadyTerminal;
      }
      match PaymentService.Classify(status) {
        case PaidClass =>
          var committed := HandlePaid(p, answer, now);
          reply := if committed then Processed(PayPaid) else RolledBack;
          AbortedIsUnchanged(old(View()), p, answer, now);
        case FailedClass =>
          HandleFailed(p);
          reply := Processed(PayFailed);
        case ExpiredClass =>
          HandleExpired(p);
          reply := Processed(PayExpired);
        case UnknownClass =>
          reply := UnknownStatus;
      }
    }

    /** A reconciliation pass over the fetched batch. */
    method ReconcileActive(batch: seq<nat>, ask: Reconcile.Provider, now: int)
      returns (tally: Reconcile.Tally, tripped: bool)
      requires Valid() && Machine.Selectable(subs, batch)
      modifies this`subs
      ensures Valid()
      ensures View() == Machine.Reconciled(old(View()), batch, ask, now)
      ensures tripped <==> Reconcile.Trips(Machine.Rows(old(subs), batch), ask)
      ensures |subs| == |old(subs)| && forall s | 0 <= s < |subs| && s !in batch :: subs[s] == old(subs)[s]
      ensures tripped <==> ThreeGone(RowsOf(old(subs), batch), ask)
      ensures tripped ==> subs == old(subs) && tally.flipped == 0
      ensures !tripped ==> tally == Reconcile.Counted(RowsOf(old(subs), batch), ask)
      ensures !tripped ==> forall i | 0 <= i < |batch| ::
                var row := old(subs)[batch[i]];
                subs[batch[i]] == if TestKey(row.providerId) then row
                  else Corrected(row, ask(row.providerId.value), now)
    {
      hide Inv, Sum, Reconcile.Trips, Reconcile.Pass, Reconcile.Counted, Reconcile.Streak;
      hide ThreeGone, Corrected;
      Machine.ReconciledKeepsInv(View(), batch, ask, now);
      PassOverTable(View(), batch, ask, now);
      TripIsThreeGone(RowsOf(subs, batch), ask);
      assert RowsOf(subs, batch) == Machine.Rows(subs, batch);
      var fetched := Machine.Rows(subs, batch);
      var rows := new Subscription[|batch|](i requires 0 <= i < |batch| => fetched[i]);
      assert rows[..] == fetched;
      tally, tripped := Reconcile.ReconcileSubscriptions(rows, ask, now);
      subs := Machine.PutBack(subs, batch, rows[..]);
    }
  }

  /** Dispatch one call to its service, as the API does; calls about unknown users or
      impossible batches are refused before they reach one. */
  method Dispatch(t: Tables, e: Machine.Event)
    requires t.Valid()
    modifies t
    ensures t.Valid()
    ensures t.View() == Machine.Step(old(t.View()), e)
  {
    hide Inv, Sum, PaymentService.RecordPromo, Reconcile.Pass, PaymentService.Charge, PromoService.Refusal;
    match e {
      case NewUser => var user := t.AddUser();
      case NewPromo(promo) => var id := t.AddPromo(promo);
      case RegisterReferral(referrer, referee, isNew) =>
        if referrer < |t.users| && referee < |t.users| { var r := t.RegisterReferral(referrer, referee, isNew); }
      case CreateTopup(user, amount, externalId) =>
        if user < |t.users| { var r := t.CreateTopupPayment(user, amount, externalId); }
      case CreateSubscriptionPayment(user, days, price, promo, externalId) =>
        if user < |t.users| { var r := t.CreateSubscriptionPayment(user, days, price, promo, externalId); }
      case CreateExtensionPayment(user, sub, days, price, externalId) =>
        if user < |t.users| { var r := t.CreateExtensionPayment(user, sub, days, price, externalId); }
      case ExtendWithBalance(user, sub, days, price, answer, now) =>
        if user < |t.users| { var r := t.ExtendViaBalance(user, sub, days, price, answer, now); }
      case StartPurchase(user, days, price, promo, now) =>
        if user < |t.users| { var r := t.StartPurchase(user, days, price, promo, now); }
      case FinishPurchase(debit, answer, now) =>
        if debit in t.inFlight { var r := t.FinishPurchase(debit, answer, now); }
      case Webhook(externalId, status, answer, now) =>
        var r := t.ProcessWebhookPayment(externalId, status, answer, now);
      case ApplyPromo(promo, user, now) =>
        if user < |t.users| { var r := t.ValidateAndApply(promo, user, now); }
      case AdjustBalance(user, amount) =>
        if user < |t.users| { var r := t.AddAdminAdjust(user, amount); }
      case ReconcileBatch(batch, ask, now) =>
        if Machine.Selectable(t.subs, batch) { var tally, tripped := t.ReconcileActive(batch, ask, now); }
    }
  }

  /** Serving any list of calls on an empty database is a run of the machine. */
  method Serve(events: seq<Machine.Event>) returns (t: Tables)
    ensures fresh(t) && t.View() == Machine.Run(events) && t.Valid()
  {
    hide Inv, Sum, Machine.Step;
    t := new Tables();
    var i := 0;
    while i < |events|
      invariant 0 <= i <= |events| && fresh(t)
      invariant t.View() == Machine.Run(events[..i]) && t.Valid()
    {
      assert events[..i + 1][..i] == events[..i];
      Dispatch(t, events[i]);
      i := i + 1;
    }
    assert events[..i] == events;
  }

  lemma AbortedIsUnchanged(db: Db, p: nat, answer: Answer, now: int)
    requires p < |db.payments|
    ensures PaymentService.Aborts(db.payments[p], answer) ==> PaymentService.HandlePaid(db, p, answer, now) == db
  {
  }
}
