/** Webhook deliveries for one payment: duplicates, reorderings and unknown
    statuses do not change where the database ends up. */
module Confluence {
  import opened Sums
  import opened Options
  import opened Store
  import opened Invariant
  import opened PaymentService
  import opened Statuses
  import ExtensionService

  datatype Delivery = Delivery(status: string, answer: Answer, now: int)

  function Deliver(db: Db, externalId: string, d: Delivery): Db {
    Webhook(db, externalId, d.status, d.answer, d.now)
  }

  function DeliverAll(db: Db, externalId: string, ds: seq<Delivery>): Db
    decreases |ds|
  {
    if |ds| == 0 then db else DeliverAll(Deliver(db, externalId, ds[0]), externalId, ds[1..])
  }

  /** A delivery that settles an open payment: its text says paid, and it does not die in the
      provider call of an extension. */
  predicate Effective(pay: Payment, d: Delivery) {
    SaysPaid(d.status) && !(!pay.purpose.ForTopup? && pay.extension.Some? && d.answer.Crashed?)
  }

  function FirstEffective(pay: Payment, ds: seq<Delivery>): (r: Option<nat>)
    ensures r.Some? ==> r.value < |ds| && Effective(pay, ds[r.value])
                        && forall i | 0 <= i < r.value :: !Effective(pay, ds[i])
    ensures r.None? ==> forall i | 0 <= i < |ds| :: !Effective(pay, ds[i])
  {
    if |ds| == 0 then None
    else if Effective(pay, ds[0]) then Some(0)
    else
      var r := FirstEffective(pay, ds[1..]);
      if r.None? then None else Some(r.value + 1)
  }

  /** The status an open payment shows after deliveries none of which settles it. */
  function Shown(was: PayStatus, ds: seq<Delivery>): PayStatus
    decreases |ds|
  {
    if |ds| == 0 then was
    else
      var text := ds[0].status;
      Shown(if SaysFailed(text) then PayFailed else if SaysExpired(text) then PayExpired else was, ds[1..])
  }

  predicate AnyFailed(ds: seq<Delivery>) {
    exists i | 0 <= i < |ds| :: SaysFailed(ds[i].status)
  }

  /** The same payment, still open: only its status, and a pending subscription that a
      failure has marked, differ. */
  function StillOpen(db: Db, p: nat, status: PayStatus, failed: bool): Db
    requires p < |db.payments|
  {
    var db1 := SetStatus(db, p, status);
    var s := db.payments[p].sub;
    if failed && s.Some? && s.value < |db.subs| && db.subs[s.value].status.SubPending? then
      db1.(subs := db.subs[s.value := db.subs[s.value].(status := SubFailed)])
    else db1
  }

  lemma {:induction false} FindStable(payments: seq<Payment>, p: nat, row: Payment, externalId: string)
    requires p < |payments| && row.externalId == payments[p].externalId
    ensures FindPayment(payments[p := row], externalId) == FindPayment(payments, externalId)
  {
    var n := |payments| - 1;
    if p == n {
      assert payments[p := row][..n] == payments[..n];
    } else {
      FindStable(payments[..n], p, row, externalId);
      assert payments[p := row][..n] == payments[..n][p := row];
    }
  }

  /** Settling and its hooks leave every other payment alone and close p. */
  lemma PaidCloses(db: Db, p: nat, answer: Answer, now: int)
    requires p < |db.payments| && !Aborts(db.payments[p], answer)
    ensures var payments' := HandlePaid(db, p, answer, now).payments;
            && |payments'| == |db.payments| && SameOrder(db.payments[p], payments'[p]) && !Unpaid(payments'[p])
            && payments' == db.payments[p := payments'[p]]
  {
    SettleCloses(db, p, answer, now);
    HooksKeepPayments(Settle(db, p, answer, now), p, now);
    hide Settle, Hooks, Sum;
  }

  lemma HooksKeepPayments(db: Db, p: nat, now: int)
    requires p < |db.payments|
    ensures Hooks(db, p, now).payments == db.payments
  {
  }

  lemma SettleCloses(db: Db, p: nat, answer: Answer, now: int)
    requires p < |db.payments| && !Aborts(db.payments[p], answer)
    ensures var payments' := Settle(db, p, answer, now).payments;
            && |payments'| == |db.payments| && SameOrder(db.payments[p], payments'[p]) && !Unpaid(payments'[p])
            && payments' == db.payments[p := payments'[p]]
  {
  }

  /** Deliveries for a closed payment are ignored. */
  lemma {:induction false} ClosedIgnores(db: Db, externalId: string, ds: seq<Delivery>)
    requires FindPayment(db.payments, externalId).Some?
               && !Unpaid(db.payments[FindPayment(db.payments, externalId).value])
    ensures DeliverAll(db, externalId, ds) == db
  {
    if |ds| > 0 {
      ClosedIgnores(db, externalId, ds[1..]);
    }
  }

  /** Provisioning overwrites the status a failed delivery left on the subscription. */
  lemma ProvisionOverwrites(db: Db, p: nat, status: PayStatus, failed: bool, answer: Answer, now: int)
    requires p < |db.payments|
    ensures Provision(MarkPaid(StillOpen(db, p, status, failed), p, now), p, answer, now)
            == Provision(MarkPaid(db, p, now), p, answer, now)
  {
  }

  /** Without a pending subscription, marking the payment paid already erases the difference. */
  lemma MarkPaidOverwrites(db: Db, p: nat, status: PayStatus, failed: bool, now: int)
    requires p < |db.payments|
    requires db.payments[p].sub.Some? && db.payments[p].sub.value < |db.subs| ==>
               !db.subs[db.payments[p].sub.value].status.SubPending?
    ensures MarkPaid(StillOpen(db, p, status, failed), p, now) == MarkPaid(db, p, now)
  {
  }

  lemma SettleOverwrites(db: Db, p: nat, status: PayStatus, failed: bool, answer: Answer, now: int)
    requires Inv(db) && p < |db.payments| && !Aborts(db.payments[p], answer)
    ensures Settle(StillOpen(db, p, status, failed), p, answer, now) == Settle(db, p, answer, now)
  {
    hide Inv, Sum, MarkPaid, Provision, CreditTopup, StillOpen, ExtensionService.ApplyExtension;
    StillSameOrder(db, p, status, failed);
    if db.payments[p].purpose.ForSubscription? {
      FirstOrderIsNoExtension(db, p);
      ProvisionOverwrites(db, p, status, failed, answer, now);
    } else {
      OthersNotPending(db, p);
      MarkPaidOverwrites(db, p, status, failed, now);
    }
  }

  lemma StillSameOrder(db: Db, p: nat, status: PayStatus, failed: bool)
    requires p < |db.payments|
    ensures |StillOpen(db, p, status, failed).payments| == |db.payments|
    ensures StillOpen(db, p, status, failed).payments[p] == db.payments[p].(status := status)
  {
  }

  lemma FirstOrderIsNoExtension(db: Db, p: nat)
    requires Inv(db) && p < |db.payments| && db.payments[p].purpose.ForSubscription?
    ensures db.payments[p].extension.None?
  {
    InvShape(db, p);
  }

  /** Only a first order can have a pending subscription; that of an extension has started. */
  lemma OthersNotPending(db: Db, p: nat)
    requires Inv(db) && p < |db.payments| && !db.payments[p].purpose.ForSubscription?
    ensures db.payments[p].sub.Some? && db.payments[p].sub.value < |db.subs| ==>
              !db.subs[db.payments[p].sub.value].status.SubPending?
  {
    InvShape(db, p);
    hide LedgerOk, Settled, ReferralsOk, PaymentsOk, PromosOk, SubsOk, InFlightOk, TimesOk, Conserved, Sum;
    if db.payments[p].extension.Some? && db.payments[p].extension.value.sub < |db.subs| {
      ExtensionStarted(db.payments, db.subs, p);
    }
  }

  /** Whatever failed or expired deliveries did to an open payment, paying it overwrites. */
  lemma PaidOverwrites(db: Db, p: nat, status: PayStatus, failed: bool, answer: Answer, now: int)
    requires Inv(db) && p < |db.payments| && Unpaid(db.payments[p])
    ensures HandlePaid(StillOpen(db, p, status, failed), p, answer, now)
            == if Aborts(db.payments[p], answer) then StillOpen(db, p, status, failed)
               else HandlePaid(db, p, answer, now)
  {
    hide Inv, Hooks, Settle;
    if !Aborts(db.payments[p], answer) {
      SettleOverwrites(db, p, status, failed, answer, now);
    }
  }

  lemma FailStaysOpen(db: Db, p: nat, status: PayStatus, failed: bool)
    requires p < |db.payments|
    ensures HandleFailed(StillOpen(db, p, status, failed), p) == StillOpen(db, p, PayFailed, true)
  {
    var row := db.payments[p];
    assert db.payments[p := row.(status := status)][p := row.(status := PayFailed)]
           == db.payments[p := row.(status := PayFailed)];
  }

  lemma ExpireStaysOpen(db: Db, p: nat, status: PayStatus, failed: bool)
    requires p < |db.payments|
    ensures HandleExpired(StillOpen(db, p, status, failed), p) == StillOpen(db, p, PayExpired, failed)
  {
    var row := db.payments[p];
    assert db.payments[p := row.(status := status)][p := row.(status := PayExpired)]
           == db.payments[p := row.(status := PayExpired)];
  }

  lemma StillFound(db: Db, p: nat, externalId: string, status: PayStatus, failed: bool)
    requires FindPayment(db.payments, externalId) == Some(p)
    ensures p < |db.payments| && FindPayment(StillOpen(db, p, status, failed).payments, externalId) == Some(p)
  {
    FindStable(db.payments, p, db.payments[p].(status := status), externalId);
  }

  /** One delivery to a payment that earlier deliveries have left open. */
  lemma DeliverOpen(db: Db, p: nat, externalId: string, status: PayStatus, failed: bool, d: Delivery)
    requires Inv(db) && FindPayment(db.payments, externalId) == Some(p) && Unpaid(db.payments[p])
    requires !status.PayPaid? && !status.PayRefunded?
    ensures Deliver(StillOpen(db, p, status, failed), externalId, d) ==
              if Effective(db.payments[p], d) then HandlePaid(db, p, d.answer, d.now)
              else
                var status' := if SaysFailed(d.status) then PayFailed
                               else if SaysExpired(d.status) then PayExpired else status;
                StillOpen(db, p, status', failed || SaysFailed(d.status))
  {
    hide Inv, Sum, HandlePaid, HandleFailed, HandleExpired, Classify, StillOpen;
    StatusIsRead(d.status);
    hide SaysPaid, SaysFailed, SaysExpired;
    StillFound(db, p, externalId, status, failed);
    StillSameOrder(db, p, status, failed);
    PaidOverwrites(db, p, status, failed, d.answer, d.now);
    FailStaysOpen(db, p, status, failed);
    ExpireStaysOpen(db, p, status, failed);
  }

  lemma {:induction false} DeliveriesFromOpen(db: Db, p: nat, externalId: string, status: PayStatus, failed: bool,
                                              ds: seq<Delivery>)
    requires Inv(db) && FindPayment(db.payments, externalId) == Some(p) && Unpaid(db.payments[p])
    requires !status.PayPaid? && !status.PayRefunded?
    ensures var first := FirstEffective(db.payments[p], ds);
            DeliverAll(StillOpen(db, p, status, failed), externalId, ds) ==
              if first.Some? then HandlePaid(db, p, ds[first.value].answer, ds[first.value].now)
              else StillOpen(db, p, Shown(status, ds), failed || AnyFailed(ds))
    decreases |ds|
  {
    hide Inv, Sum, HandlePaid, StillOpen, Deliver, SaysPaid, SaysFailed, SaysExpired;
    if |ds| > 0 {
      DeliverOpen(db, p, externalId, status, failed, ds[0]);
      if Effective(db.payments[p], ds[0]) {
        StatusIsRead(ds[0].status);
        var paid := HandlePaid(db, p, ds[0].answer, ds[0].now);
        PaidCloses(db, p, ds[0].answer, ds[0].now);
        FindStable(db.payments, p, paid.payments[p], externalId);
        ClosedIgnores(paid, externalId, ds[1..]);
      } else {
        var text := ds[0].status;
        var next := if SaysFailed(text) then PayFailed else if SaysExpired(text) then PayExpired else status;
        DeliveriesFromOpen(db, p, externalId, next, failed || SaysFailed(text), ds[1..]);
        assert AnyFailed(ds) <==> SaysFailed(text) || AnyFailed(ds[1..]);
      }
    }
  }

  /** Any list of deliveries for an open payment: if one of them settles it, the whole
      database ends where the first such delivery alone would have left it; if none does,
      only the payment's status and a pending subscription of it can have changed. */
  lemma DeliveriesAreConfluent(db: Db, externalId: string, ds: seq<Delivery>)
    requires Inv(db) && FindPayment(db.payments, externalId).Some?
    requires Unpaid(db.payments[FindPayment(db.payments, externalId).value])
    ensures var p := FindPayment(db.payments, externalId).value;
            var first := FirstEffective(db.payments[p], ds);
            DeliverAll(db, externalId, ds) ==
              if first.Some? then Deliver(db, externalId, ds[first.value])
              else StillOpen(db, p, Shown(db.payments[p].status, ds), AnyFailed(ds))
  {
    hide Inv, Sum, HandlePaid, Classify, SaysPaid, SaysFailed, SaysExpired;
    var p := FindPayment(db.payments, externalId).value;
    assert StillOpen(db, p, db.payments[p].status, false) == db;
    DeliveriesFromOpen(db, p, externalId, db.payments[p].status, false, ds);
    var first := FirstEffective(db.payments[p], ds);
    if first.Some? {
      StatusIsRead(ds[first.value].status);
    }
  }

  // ----- deliveries at different times -----

  function Untimed(p: Payment): Payment { p.(paidAt := None) }

  /** The times of a started subscription, of which only the presence matters here. */
  function UntimedSub(s: Subscription): Subscription {
    s.(startedAt := if s.startedAt.Some? then Some(0) else None,
       expiresAt := if s.expiresAt.Some? then Some(0) else None)
  }

  function UntimedReferral(r: Referral): Referral { r.(bonusPaidAt := None) }

  /** The two databases differ in nothing but when things happened. */
  ghost predicate AgreeUpToTime(a: Db, b: Db) {
    && a.users == b.users && a.ledger == b.ledger && a.promos == b.promos && a.activations == b.activations
    && a.inFlight == b.inFlight
    && |a.payments| == |b.payments| && |a.subs| == |b.subs| && |a.referrals| == |b.referrals|
    && (forall i | 0 <= i < |a.payments| :: Untimed(a.payments[i]) == Untimed(b.payments[i]))
    && (forall i | 0 <= i < |a.subs| :: UntimedSub(a.subs[i]) == UntimedSub(b.subs[i]))
    && (forall i | 0 <= i < |a.referrals| :: UntimedReferral(a.referrals[i]) == UntimedReferral(b.referrals[i]))
  }

  lemma MarksAgree(db: Db, p: nat, now: int, later: int)
    requires p < |db.payments|
    ensures AgreeUpToTime(MarkPaid(db, p, now), MarkPaid(db, p, later))
  {
  }

  lemma ProvisionsAgree(a: Db, b: Db, p: nat, answer: Answer, now: int, later: int)
    requires AgreeUpToTime(a, b) && p < |a.payments| && a.subs == b.subs
    ensures AgreeUpToTime(Provision(a, p, answer, now), Provision(b, p, answer, later))
  {
    assert Untimed(a.payments[p]) == Untimed(b.payments[p]);
  }

  lemma ExtensionsAgree(a: Db, b: Db, p: nat, answer: Answer, now: int, later: int)
    requires AgreeUpToTime(a, b) && p < |a.payments| && a.subs == b.subs && !answer.Crashed?
    ensures AgreeUpToTime(ExtensionService.ApplyExtension(a, p, answer, now),
                          ExtensionService.ApplyExtension(b, p, answer, later))
  {
    assert Untimed(a.payments[p]) == Untimed(b.payments[p]);
  }

  lemma SettleAgrees(db: Db, p: nat, answer: Answer, now: int, later: int)
    requires p < |db.payments| && !Aborts(db.payments[p], answer)
    ensures AgreeUpToTime(Settle(db, p, answer, now), Settle(db, p, answer, later))
  {
    hide Sum, Provision, ExtensionService.ApplyExtension, AgreeUpToTime;
    var a, b := MarkPaid(db, p, now), MarkPaid(db, p, later);
    MarksAgree(db, p, now, later);
    ProvisionsAgree(a, b, p, answer, now, later);
    if !answer.Crashed? {
      ExtensionsAgree(a, b, p, answer, now, later);
    }
    CreditsAgree(a, b, p);
  }

  lemma CreditsAgree(a: Db, b: Db, p: nat)
    requires AgreeUpToTime(a, b) && p < |a.payments|
    ensures AgreeUpToTime(CreditTopup(a, p), CreditTopup(b, p))
  {
    assert Untimed(a.payments[p]) == Untimed(b.payments[p]);
  }

  lemma SettleKeepsReferrals(db: Db, p: nat, answer: Answer, now: int)
    requires p < |db.payments| && !Aborts(db.payments[p], answer)
    ensures Settle(db, p, answer, now).referrals == db.referrals
  {
    hide Sum;
  }

  lemma BonusesAgree(a: Db, b: Db, p: nat, now: int, later: int)
    requires AgreeUpToTime(a, b) && p < |a.payments| && a.referrals == b.referrals
    ensures AgreeUpToTime(ReferralService.ApplyReferrerBonus(a, p, now),
                          ReferralService.ApplyReferrerBonus(b, p, later))
    ensures ReferralService.ApplyReferrerBonus(a, p, now).payments == a.payments
  {
    assert Untimed(a.payments[p]) == Untimed(b.payments[p]);
  }

  lemma PromosAgree(a: Db, b: Db, p: nat)
    requires AgreeUpToTime(a, b) && p < |a.payments|
    ensures AgreeUpToTime(RecordPromo(a, p), RecordPromo(b, p))
  {
    hide Sum;
    assert Untimed(a.payments[p]) == Untimed(b.payments[p]);
  }

  /** The hooks look at no time, and stamp one only on the referral they pay. */
  lemma HooksAgree(a: Db, b: Db, p: nat, now: int, later: int)
    requires AgreeUpToTime(a, b) && p < |a.payments| && a.referrals == b.referrals
    ensures AgreeUpToTime(Hooks(a, p, now), Hooks(b, p, later))
  {
    hide RecordPromo, ReferralService.ApplyReferrerBonus;
    assert Untimed(a.payments[p]) == Untimed(b.payments[p]);
    BonusesAgree(a, b, p, now, later);
    PromosAgree(ReferralService.ApplyReferrerBonus(a, p, now), ReferralService.ApplyReferrerBonus(b, p, later), p);
  }

  lemma PaidAgrees(db: Db, p: nat, answer: Answer, now: int, later: int)
    requires p < |db.payments|
    ensures AgreeUpToTime(HandlePaid(db, p, answer, now), HandlePaid(db, p, answer, later))
  {
    hide Settle, Hooks;
    if !Aborts(db.payments[p], answer) {
      SettleAgrees(db, p, answer, now, later);
      SettleKeepsReferrals(db, p, answer, now);
      SettleKeepsReferrals(db, p, answer, later);
      HooksAgree(Settle(db, p, answer, now), Settle(db, p, answer, later), p, now, later);
    }
  }

  /** Duplicates, reorderings and noise, each delivery at its own time: two lists that both
      contain a settling delivery, with one provider answer for all of those, end in databases
      that agree in everything but time stamps. */
  lemma OrderDoesNotMatter(db: Db, externalId: string, ds: seq<Delivery>, es: seq<Delivery>, answer: Answer)
    requires Inv(db) && FindPayment(db.payments, externalId).Some?
    requires var pay := db.payments[FindPayment(db.payments, externalId).value];
             && (forall d | (d in ds || d in es) && Effective(pay, d) :: d.answer == answer)
             && (exists d | d in ds :: Effective(pay, d)) && (exists e | e in es :: Effective(pay, e))
    ensures AgreeUpToTime(DeliverAll(db, externalId, ds), DeliverAll(db, externalId, es))
  {
    hide Inv, Sum, HandlePaid, Classify, Aborts, AgreeUpToTime, SaysPaid, SaysFailed, SaysExpired;
    var p := FindPayment(db.payments, externalId).value;
    if Unpaid(db.payments[p]) {
      var d, e := FirstEffective(db.payments[p], ds), FirstEffective(db.payments[p], es);
      DeliveriesAreConfluent(db, externalId, ds);
      DeliveriesAreConfluent(db, externalId, es);
      StatusIsRead(ds[d.value].status);
      StatusIsRead(es[e.value].status);
      PaidAgrees(db, p, answer, ds[d.value].now, es[e.value].now);
    } else {
      ClosedIgnores(db, externalId, ds);
      ClosedIgnores(db, externalId, es);
      Agrees(db);
    }
  }

  lemma Agrees(db: Db)
    ensures AgreeUpToTime(db, db)
  {
  }

  /** When the settling deliveries also share their time, the databases are the same, namely
      that of a single paid delivery. */
  lemma OneDeliveryIsEnough(db: Db, externalId: string, ds: seq<Delivery>, answer: Answer, now: int)
    requires Inv(db) && FindPayment(db.payments, externalId).Some?
    requires var pay := db.payments[FindPayment(db.payments, externalId).value];
             && (forall d | d in ds && Effective(pay, d) :: d.answer == answer && d.now == now)
             && (exists d | d in ds :: Effective(pay, d))
    ensures DeliverAll(db, externalId, ds) == Webhook(db, externalId, "paid", answer, now)
  {
    PaidIsPaid();
    StatusIsRead("paid");
    hide Inv, Sum, HandlePaid, Classify, Aborts, SaysPaid, SaysFailed, SaysExpired;
    var p := FindPayment(db.payments, externalId).value;
    if Unpaid(db.payments[p]) {
      DeliveriesAreConfluent(db, externalId, ds);
      var first := FirstEffective(db.payments[p], ds).value;
      StatusIsRead(ds[first].status);
    } else {
      ClosedIgnores(db, externalId, ds);
    }
  }

  /** Without a settling delivery no money moves, no bonus is paid and no promo is used. */
  lemma UnpaidMovesNothing(db: Db, externalId: string, ds: seq<Delivery>)
    requires Inv(db)
    requires FindPayment(db.payments, externalId).Some? ==>
               forall d | d in ds :: !Effective(db.payments[FindPayment(db.payments, externalId).value], d)
    ensures var db' := DeliverAll(db, externalId, ds);
            && db'.users == db.users && db'.ledger == db.ledger && db'.referrals == db.referrals
            && db'.promos == db.promos && db'.activations == db.activations && db'.inFlight == db.inFlight
            && |db'.subs| == |db.subs|
            && (forall s | 0 <= s < |db.subs| :: db'.subs[s] == db.subs[s]
                  || (db.subs[s].status.SubPending? && db'.subs[s] == db.subs[s].(status := SubFailed)))
  {
    hide Inv, Sum, HandlePaid, Classify;
    var found := FindPayment(db.payments, externalId);
    if found.None? {
      UnknownIgnored(db, externalId, ds);
    } else if Unpaid(db.payments[found.value]) {
      DeliveriesAreConfluent(db, externalId, ds);
    } else {
      ClosedIgnores(db, externalId, ds);
    }
  }

  lemma {:induction false} UnknownIgnored(db: Db, externalId: string, ds: seq<Delivery>)
    requires FindPayment(db.payments, externalId).None?
    ensures DeliverAll(db, externalId, ds) == db
  {
    if |ds| > 0 {
      UnknownIgnored(db, externalId, ds[1..]);
    }
  }
}
