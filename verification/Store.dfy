/** The tables of the billing database and the weights its aggregates sum.
    A row's identifier is its position in its table. */
module Store {
  import opened Options

  const REFERRAL_BONUS := 7000
  const MIN_TOPUP := 1000
  const DAY := 86400

  datatype User = User(balance: int)

  datatype PayStatus = PayPending | PayPaid | PayFailed | PayExpired | PayRefunded
  datatype Purpose = ForSubscription | ForTopup | ForExtension
  datatype Provider = FromBalance | External

  /** What payment.meta carries: the extension it pays for, and the discount promo used. */
  datatype Extension = Extension(sub: nat, days: nat)
  datatype Discounted = Discounted(promo: nat, original: nat)

  datatype Payment = Payment(
    user: nat,
    sub: Option<nat>,
    purpose: Purpose,
    provider: Provider,
    externalId: Option<string>,
    amount: nat,
    status: PayStatus,
    paidAt: Option<int>,
    extension: Option<Extension>,
    discount: Option<Discounted>)

  datatype SubStatus = SubPending | SubActive | SubExpired | SubDeactivated | SubFailed | SubFailedProvider

  datatype Subscription = Subscription(
    user: nat,
    days: nat,
    status: SubStatus,
    providerId: Option<string>,
    startedAt: Option<int>,
    expiresAt: Option<int>,
    deactivatedAt: Option<int>)

  datatype Reason = Topup | Purchase | ReferralBonus | PromoBonus | Refund | AdminAdjust

  /** One row of balance_transactions. */
  datatype Entry = Entry(user: nat, amount: int, reason: Reason, payment: Option<nat>, balanceAfter: int)

  datatype PromoKind = BalancePromo | DiscountPromo | UnknownPromo

  datatype Promo = Promo(
    kind: PromoKind,
    value: nat,
    maxTotal: Option<nat>,
    maxPerUser: nat,
    current: nat,
    isActive: bool,
    validFrom: Option<int>,
    validUntil: Option<int>,
    owner: Option<nat>)

  datatype Activation = Activation(promo: nat, user: nat, payment: Option<nat>, amount: int)

  datatype Referral = Referral(
    referrer: nat,
    referee: nat,
    bonusPaid: bool,
    bonusPaidAt: Option<int>,
    firstPurchase: Option<nat>)

  /** The local variables of a balance purchase that has committed its debit
      and is still waiting for the VPN provider. seen is the balance as the debit left it,
      in the user object that the session keeps across the commit. */
  datatype Debit = Debit(user: nat, sub: nat, payment: nat, price: nat, days: nat, seen: int)

  /** A posting computed from an outdated balance, and what it took from the user by writing
      over the current one (negative when it gave). No table holds this: it is the history
      that the accounting laws need. */
  datatype Overwrite = Overwrite(user: nat, lost: int)

  datatype Db = Db(
    users: seq<User>,
    payments: seq<Payment>,
    subs: seq<Subscription>,
    ledger: seq<Entry>,
    promos: seq<Promo>,
    activations: seq<Activation>,
    referrals: seq<Referral>,
    inFlight: set<Debit>,
    overwritten: seq<Overwrite>)

  const EMPTY := Db([], [], [], [], [], [], [], {}, [])

  /** The VPN provider's answer to a request to create or extend a key: success,
      one of its two declared errors, or any other exception. */
  datatype Answer = Accepted(keyId: Option<string>) | Rejected | Crashed

  // ----- weights -----

  function Balance(): User -> int { (u: User) => u.balance }

  function Loss(): Overwrite -> int { (o: Overwrite) => o.lost }

  function LossBy(u: nat): Overwrite -> int {
    (o: Overwrite) => if o.user == u then o.lost else 0
  }

  function OfUser(u: nat): Entry -> int {
    (e: Entry) => if e.user == u then e.amount else 0
  }

  predicate Settles(r: Reason) { r.Topup? || r.Purchase? || r.Refund? }

  function OfPayment(p: nat): Entry -> int {
    (e: Entry) => if Settles(e.reason) && e.payment == Some(p) then e.amount else 0
  }

  function BonusOf(u: nat): Entry -> int {
    (e: Entry) => if e.reason.ReferralBonus? && e.user == u then e.amount else 0
  }

  function BonusVia(p: nat): Entry -> int {
    (e: Entry) => if e.reason.ReferralBonus? && e.payment == Some(p) then 1 else 0
  }

  function Adjusted(): Entry -> int {
    (e: Entry) => if e.reason.AdminAdjust? then e.amount else 0
  }

  function InvitedBy(u: nat): Referral -> int {
    (r: Referral) => if r.referrer == u then 1 else 0
  }

  function PaidTo(u: nat): Referral -> int {
    (r: Referral) => if r.referrer == u && r.bonusPaid then 1 else 0
  }

  function PaidFor(p: nat): Referral -> int {
    (r: Referral) => if r.bonusPaid && r.firstPurchase == Some(p) then 1 else 0
  }

  function BonusPaid(): Referral -> int {
    (r: Referral) => if r.bonusPaid then 1 else 0
  }

  function OfPromo(p: nat): Activation -> int {
    (a: Activation) => if a.promo == p then 1 else 0
  }

  function OfPromoUser(p: nat, u: nat): Activation -> int {
    (a: Activation) => if a.promo == p && a.user == u then 1 else 0
  }

  /** Balance promos are the activations without a payment. */
  function Granted(): Activation -> int {
    (a: Activation) => if a.payment.None? then a.amount else 0
  }

  /** What the ledger must have moved for a payment, read off the payment row alone. */
  function Due(): Payment -> int {
    (p: Payment) =>
      if p.provider.FromBalance? then (if p.status.PayPaid? then -(p.amount as int) else 0)
      else if p.purpose.ForTopup? then (if p.status.PayPaid? then p.amount else 0)
      else if p.purpose.ForExtension? then (if p.status.PayRefunded? then p.amount else 0)
      else 0
  }

  /** Days an extension payment adds: zero days fall back to the subscription's own. */
  function EffectiveDays(days: nat, own: nat): nat {
    if days != 0 then days else own
  }

  /** Days that paid extensions have bought for subscription s. */
  function DaysFor(s: nat, own: nat): Payment -> int {
    (p: Payment) =>
      if p.purpose.ForExtension? && p.status.PayPaid? && p.extension.Some? && p.extension.value.sub == s
      then EffectiveDays(p.extension.value.days, own) else 0
  }

  // ----- lookups -----

  function FindPayment(payments: seq<Payment>, externalId: string): (r: Option<nat>)
    ensures r.Some? ==> r.value < |payments| && payments[r.value].externalId == Some(externalId)
    ensures r.None? ==> forall i | 0 <= i < |payments| :: payments[i].externalId != Some(externalId)
  {
    if |payments| == 0 then None
    else if payments[|payments| - 1].externalId == Some(externalId) then Some(|payments| - 1)
    else FindPayment(payments[..|payments| - 1], externalId)
  }

  function FindReferral(referrals: seq<Referral>, referee: nat): (r: Option<nat>)
    ensures r.Some? ==> r.value < |referrals| && referrals[r.value].referee == referee
    ensures r.None? ==> forall i | 0 <= i < |referrals| :: referrals[i].referee != referee
  {
    if |referrals| == 0 then None
    else if referrals[|referrals| - 1].referee == referee then Some(|referrals| - 1)
    else FindReferral(referrals[..|referrals| - 1], referee)
  }

  // ----- how money moves -----

  /** Add amount to the locked user's balance and append the ledger row that says so. */
  function Post(db: Db, user: nat, amount: int, reason: Reason, payment: Option<nat>): Db {
    if user < |db.users| then
      var after := db.users[user].balance + amount;
      db.(users := db.users[user := User(after)],
          ledger := db.ledger + [Entry(user, amount, reason, payment, after)])
    else db
  }

  /** Add amount to a balance read earlier and append the ledger row that says so. The user's
      row is written only if the addition changes the object; then it replaces whatever the
      balance has become since. */
  function PostSeen(db: Db, user: nat, seen: int, amount: nat, reason: Reason, payment: Option<nat>): Db {
    if user < |db.users| then
      var current, after := db.users[user].balance, seen + amount;
      var stored := if amount == 0 then current else after;
      db.(users := db.users[user := User(stored)],
          ledger := db.ledger + [Entry(user, amount, reason, payment, after)],
          overwritten := if seen == current then db.overwritten
                         else db.overwritten + [Overwrite(user, current + amount - stored)])
    else db
  }

  function SetStatus(db: Db, p: nat, status: PayStatus): Db {
    if p < |db.payments| then db.(payments := db.payments[p := db.payments[p].(status := status)]) else db
  }
}
