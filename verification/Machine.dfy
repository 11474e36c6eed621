/** The billing machine: every service call as one step, and runs of steps. */
module Machine {
  import opened Sums
  import opened Options
  import opened Store
  import opened Invariant
  import Reconcile
  import PromoService
  import ReferralService
  import ExtensionService
  import PaymentService
  import BalanceService

  datatype Event =
    | NewUser
    | NewPromo(promo: Promo)
    | RegisterReferral(referrer: nat, referee: nat, isNew: bool)
    | CreateTopup(user: nat, amount: int, externalId: string)
    | CreateSubscriptionPayment(user: nat, days: nat, price: nat, promoId: Option<nat>, externalId: string)
    | CreateExtensionPayment(user: nat, sub: nat, days: nat, price: nat, externalId: string)
    | ExtendWithBalance(user: nat, sub: nat, days: nat, price: nat, answer: Answer, now: int)
    | StartPurchase(user: nat, days: nat, price: nat, promoId: Option<nat>, now: int)
    | FinishPurchase(debit: Debit, answer: Answer, now: int)
    | Webhook(externalId: string, status: string, answer: Answer, now: int)
    | ApplyPromo(promoId: Option<nat>, user: nat, now: int)
    | AdjustBalance(user: nat, amount: int)
    | ReconcileBatch(batch: seq<nat>, ask: Reconcile.Provider, now: int)

  // ----- a reconciliation pass over the table -----

  /** The batch is a possible result of the service's query. */
  predicate Selectable(subs: seq<Subscription>, batch: seq<nat>) {
    && (forall i | 0 <= i < |batch| ::
          batch[i] < |subs| && subs[batch[i]].status.SubActive? && subs[batch[i]].providerId.Some?)
    && (forall i, j | 0 <= i < j < |batch| :: batch[i] != batch[j])
  }

  function Rows(subs: seq<Subscription>, batch: seq<nat>): seq<Subscription>
    requires forall i | 0 <= i < |batch| :: batch[i] < |subs|
  {
    seq(|batch|, i requires 0 <= i < |batch| => subs[batch[i]])
  }

  function PutBack(subs: seq<Subscription>, batch: seq<nat>, rows: seq<Subscription>): (r: seq<Subscription>)
    requires |batch| == |rows| && forall i | 0 <= i < |batch| :: batch[i] < |subs|
    ensures |r| == |subs|
  {
    if |batch| == 0 then subs
    else PutBack(subs, batch[..|batch| - 1], rows[..|batch| - 1])[batch[|batch| - 1] := rows[|batch| - 1]]
  }

  function Reconciled(db: Db, batch: seq<nat>, ask: Reconcile.Provider, now: int): Db {
    if !Selectable(db.subs, batch) then db
    else db.(subs := PutBack(db.subs, batch, Reconcile.Pass(Rows(db.subs, batch), ask, now)))
  }

  lemma {:induction false} PutBackRows(subs: seq<Subscription>, batch: seq<nat>, rows: seq<Subscription>)
    requires |batch| == |rows| && Selectable(subs, batch)
    ensures forall i | 0 <= i < |batch| :: PutBack(subs, batch, rows)[batch[i]] == rows[i]
    ensures forall s | 0 <= s < |subs| && s !in batch :: PutBack(subs, batch, rows)[s] == subs[s]
  {
    if |batch| > 0 {
      var n := |batch| - 1;
      PutBackRows(subs, batch[..n], rows[..n]);
      assert batch == batch[..n] + [batch[n]];
      assert batch[n] !in batch[..n];
      forall i | 0 <= i < n ensures PutBack(subs, batch, rows)[batch[i]] == rows[i] {
        assert batch[..n][i] == batch[i] && rows[..n][i] == rows[i];
      }
    }
  }

  /** Only active rows of the batch change, and only as a pass may change a row. */
  lemma ReconciledRows(db: Db, batch: seq<nat>, ask: Reconcile.Provider, now: int)
    ensures |Reconciled(db, batch, ask, now).subs| == |db.subs|
    ensures forall s | 0 <= s < |db.subs| :: Reconcile.RowKept(db.subs[s], Reconciled(db, batch, ask, now).subs[s])
    ensures forall s | 0 <= s < |db.subs| && !db.subs[s].status.SubActive? ::
              Reconciled(db, batch, ask, now).subs[s] == db.subs[s]
  {
    if Selectable(db.subs, batch) {
      var rows := Rows(db.subs, batch);
      PutBackRows(db.subs, batch, Reconcile.Pass(rows, ask, now));
      Reconcile.PassIsSafe(rows, ask, now);
      forall s | 0 <= s < |db.subs|
        ensures Reconcile.RowKept(db.subs[s], Reconciled(db, batch, ask, now).subs[s])
      {
        if s in batch {
          var i :| 0 <= i < |batch| && batch[i] == s;
          assert Reconcile.RowKept(rows[i], Reconcile.Pass(rows, ask, now)[i]);
        }
      }
    }
  }

  /** Replacing the subscription table row by row, as a pass may. */
  lemma KeptRowsKeepSubs(payments: seq<Payment>, subs: seq<Subscription>, subs': seq<Subscription>,
                         inFlight: set<Debit>)
    requires |subs| == |subs'| && forall s | 0 <= s < |subs| :: Reconcile.RowKept(subs[s], subs'[s])
    requires forall s | 0 <= s < |subs| && !subs[s].status.SubActive? :: subs'[s] == subs[s]
    requires SubsOk(payments, subs) && InFlightOk(inFlight, payments, subs) && TimesOk(payments, subs)
    ensures SubsOk(payments, subs') && InFlightOk(inFlight, payments, subs') && TimesOk(payments, subs')
  {
  }

  lemma ReconciledKeepsInv(db: Db, batch: seq<nat>, ask: Reconcile.Provider, now: int)
    requires Inv(db)
    ensures Inv(Reconciled(db, batch, ask, now))
  {
    hide LedgerOk, Settled, ReferralsOk, PaymentsOk, PromosOk, SubsOk, InFlightOk, TimesOk, Sum;
    ReconciledRows(db, batch, ask, now);
    KeptRowsKeepSubs(db.payments, db.subs, Reconciled(db, batch, ask, now).subs, db.inFlight);
  }

  // ----- new users and promos -----

  function AddUser(db: Db): Db { db.(users := db.users + [User(0)]) }

  function AddPromo(db: Db, promo: Promo): Db { db.(promos := db.promos + [promo.(current := 0)]) }

  lemma AddUserKeepsInv(db: Db)
    requires Inv(db)
    ensures Inv(AddUser(db))
  {
    hide Sum, Settled, PromosOk, SubsOk, InFlightOk, TimesOk, RunningOk;
    SumAppend(db.users, User(0), Balance());
  }

  lemma AddPromoKeepsInv(db: Db, promo: Promo)
    requires Inv(db)
    ensures Inv(AddPromo(db, promo))
  {
    hide LedgerOk, Settled, ReferralsOk, PaymentsOk, SubsOk, InFlightOk, TimesOk, Sum;
  }

  // ----- steps and runs -----

  function Step(db: Db, e: Event): Db {
    match e
    case NewUser => AddUser(db)
    case NewPromo(promo) => AddPromo(db, promo)
    case RegisterReferral(referrer, referee, isNew) => ReferralService.RegisterReferral(db, referrer, referee, isNew)
    case CreateTopup(user, amount, externalId) => PaymentService.CreateTopup(db, user, amount, externalId)
    case CreateSubscriptionPayment(user, days, price, promo, externalId) =>
      PaymentService.CreateSubscriptionPayment(db, user, days, price, promo, externalId)
    case CreateExtensionPayment(user, sub, days, price, externalId) =>
      ExtensionService.CreateExtensionPayment(db, user, sub, days, price, externalId)
    case ExtendWithBalance(user, sub, days, price, answer, now) =>
      ExtensionService.ExtendWithBalance(db, user, sub, days, price, answer, now)
    case StartPurchase(user, days, price, promo, now) => BalanceService.StartPurchase(db, user, days, price, promo, now)
    case FinishPurchase(debit, answer, now) => BalanceService.FinishPurchase(db, debit, answer, now)
    case Webhook(externalId, status, answer, now) => PaymentService.Webhook(db, externalId, status, answer, now)
    case ApplyPromo(promo, user, now) => PromoService.ApplyPromo(db, promo, user, now)
    case AdjustBalance(user, amount) => BalanceService.Adjust(db, user, amount)
    case ReconcileBatch(batch, ask, now) => Reconciled(db, batch, ask, now)
  }

  function RunFrom(db: Db, events: seq<Event>): Db {
    if |events| == 0 then db else Step(RunFrom(db, events[..|events| - 1]), events[|events| - 1])
  }

  /** The state reached from the empty database. */
  function Run(events: seq<Event>): Db { RunFrom(EMPTY, events) }

  lemma StepKeepsInv(db: Db, e: Event)
    requires Inv(db)
    ensures Inv(Step(db, e))
  {
    hide Inv, Sum;
    match e
    case NewUser => AddUserKeepsInv(db);
    case NewPromo(promo) => AddPromoKeepsInv(db, promo);
    case RegisterReferral(referrer, referee, isNew) => ReferralService.RegisterKeepsInv(db, referrer, referee, isNew);
    case CreateTopup(user, amount, externalId) => PaymentService.CreateTopupKeepsInv(db, user, amount, externalId);
    case CreateSubscriptionPayment(user, days, price, promo, externalId) =>
      PaymentService.CreateSubscriptionKeepsInv(db, user, days, price, promo, externalId);
    case CreateExtensionPayment(user, sub, days, price, externalId) =>
      ExtensionService.CreateExtensionKeepsInv(db, user, sub, days, price, externalId);
    case ExtendWithBalance(user, sub, days, price, answer, now) =>
      ExtensionService.ExtendWithBalanceKeepsInv(db, user, sub, days, price, answer, now);
    case StartPurchase(user, days, price, promo, now) =>
      BalanceService.StartPurchaseKeepsInv(db, user, days, price, promo, now);
    case FinishPurchase(debit, answer, now) => BalanceService.FinishPurchaseKeepsInv(db, debit, answer, now);
    case Webhook(externalId, status, answer, now) =>
      PaymentService.WebhookKeepsInv(db, externalId, status, answer, now);
    case ApplyPromo(promo, user, now) => PromoService.ApplyPromoKeepsInv(db, promo, user, now);
    case AdjustBalance(user, amount) => BalanceService.AdjustKeepsInv(db, user, amount);
    case ReconcileBatch(batch, ask, now) => ReconciledKeepsInv(db, batch, ask, now);
  }

  lemma RunSnoc(events: seq<Event>, e: Event)
    ensures Run(events + [e]) == Step(Run(events), e)
  {
    assert (events + [e])[..|events|] == events;
  }

  lemma {:induction false} RunFromKeepsInv(db: Db, events: seq<Event>)
    requires Inv(db)
    ensures Inv(RunFrom(db, events))
  {
    hide Inv, Step;
    if |events| > 0 {
      RunFromKeepsInv(db, events[..|events| - 1]);
      StepKeepsInv(RunFrom(db, events[..|events| - 1]), events[|events| - 1]);
    }
  }

  /** Every reachable state satisfies the invariant. */
  lemma RunKeepsInv(events: seq<Event>)
    ensures Inv(Run(events))
  {
    hide Inv;
    EmptyInv();
    RunFromKeepsInv(EMPTY, events);
  }
}
