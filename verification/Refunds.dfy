/** The refund of a balance purchase and the balance it starts from. The session keeps the
    user's object across the commit, so the refund adds the price to the balance as the
    debit left it and writes over whatever has happened since. */
module Refunds {
  import opened Sums
  import opened Options
  import opened Store
  import opened Invariant
  import opened Machine
  import BalanceService
  import Progress

  // ----- one refund -----

  /** The refund as an ordinary credit of the current balance. */
  function Credited(db: Db, d: Debit): Db
    requires d.payment < |db.payments| && d.sub < |db.subs|
  {
    var failed := db.(inFlight := db.inFlight - {d}, subs := db.subs[d.sub := db.subs[d.sub].(status := SubFailed)]);
    Post(SetStatus(failed, d.payment, PayRefunded), d.user, d.price, Refund, Some(d.payment))
  }

  lemma RefundIsCredit(db: Db, d: Debit, now: int)
    requires Inv(db) && d in db.inFlight
    ensures d.user < |db.users| && d.payment < |db.payments| && d.sub < |db.subs|
    ensures BalanceService.FinishPurchase(db, d, Rejected, now) == Credited(db, d) <==>
              db.users[d.user].balance == d.seen
  {
    hide Inv, Sum;
    InFlightShape(db, d);
    var refunded, credited := BalanceService.FinishPurchase(db, d, Rejected, now), Credited(db, d);
    assert refunded.ledger[|db.ledger|].balanceAfter == d.seen + d.price;
    assert credited.ledger[|db.ledger|].balanceAfter == db.users[d.user].balance + d.price;
  }

  /** The books after a refund are the books as before it exactly when the balance has not
      moved since the debit: the sums of balance and ledger drift by what was written over,
      and the row shows a wrong balance. */
  lemma RefundKeepsBooks(db: Db, d: Debit, now: int)
    requires Inv(db) && d in db.inFlight && db.overwritten == []
    ensures var db' := BalanceService.FinishPurchase(db, d, Rejected, now);
            && d.user < |db.users| && |db'.users| == |db.users|
            && (RunningOk(db'.ledger) <==> db.users[d.user].balance == d.seen)
            && Sum(db'.ledger, OfUser(d.user)) - db'.users[d.user].balance
               == if d.price == 0 then 0 else db.users[d.user].balance - d.seen
  {
    hide Inv, RunningOk, Sum;
    InFlightShape(db, d);
    BalanceService.FinishPurchaseKeepsInv(db, d, Rejected, now);
    var db' := BalanceService.FinishPurchase(db, d, Rejected, now);
    var e := FinishPurchase(d, Rejected, now);
    RefundKeepsUsers(db, d, now);
    hide BalanceService.FinishPurchase;
    StepLosses(db, e);
    assert db'.overwritten == StepLoss(db, e);
    LedgerFacts(db', d.user);
    SumOfLosses(StepLoss(db, e), d.user);
  }

  lemma RefundKeepsUsers(db: Db, d: Debit, now: int)
    ensures |BalanceService.FinishPurchase(db, d, Rejected, now).users| == |db.users|
  {
  }

  lemma LedgerFacts(db: Db, u: nat)
    requires Inv(db) && u < |db.users|
    ensures db.users[u].balance == Sum(db.ledger, OfUser(u)) - Sum(db.overwritten, LossBy(u))
    ensures RunningOk(db.ledger) <==> db.overwritten == []
  {
    hide Settled, ReferralsOk, PaymentsOk, PromosOk, SubsOk, InFlightOk, TimesOk, Conserved, Sum, RunningOk;
  }

  lemma SumOfLosses(losses: seq<Overwrite>, u: nat)
    ensures losses == [] ==> Sum(losses, LossBy(u)) == 0 && Sum(losses, Loss()) == 0
    ensures |losses| == 1 && losses[0].user == u ==> Sum(losses, LossBy(u)) == losses[0].lost
  {
  }

  // ----- runs -----

  /** The call is a refund that finds the buyer's balance moved since the debit. */
  predicate Outdated(db: Db, e: Event) {
    && e.FinishPurchase? && e.answer.Rejected? && e.debit in db.inFlight
    && e.debit.user < |db.users| && e.debit.payment < |db.payments| && e.debit.sub < |db.subs|
    && db.users[e.debit.user].balance != e.debit.seen
  }

  /** What the call writes over. */
  function StepLoss(db: Db, e: Event): seq<Overwrite> {
    if !Outdated(db, e) then []
    else
      var d := e.debit;
      [Overwrite(d.user, if d.price == 0 then 0 else db.users[d.user].balance - d.seen)]
  }

  /** Every refund of the run finds the balance as its debit left it. */
  predicate Undisturbed(events: seq<Event>) {
    |events| > 0 ==>
      && Undisturbed(events[..|events| - 1])
      && !Outdated(Run(events[..|events| - 1]), events[|events| - 1])
  }

  /** What the refunds of the run write over. */
  function Losses(events: seq<Event>): seq<Overwrite> {
    if |events| == 0 then []
    else Losses(events[..|events| - 1]) + StepLoss(Run(events[..|events| - 1]), events[|events| - 1])
  }

  lemma StepLosses(db: Db, e: Event)
    ensures Step(db, e).overwritten == db.overwritten + StepLoss(db, e)
  {
    hide Sum, BalanceService.StartPurchase, BalanceService.FinishPurchase, Outdated;
    if e.FinishPurchase? {
      FinishLosses(db, e);
    } else {
      NoOtherIsOutdated(db, e);
      Progress.OnlyRefundsOverwrite(db, e);
    }
  }

  lemma NoOtherIsOutdated(db: Db, e: Event)
    requires !e.FinishPurchase?
    ensures !Outdated(db, e)
  {
  }

  lemma FinishLosses(db: Db, e: Event)
    requires e.FinishPurchase?
    ensures Step(db, e).overwritten == db.overwritten + StepLoss(db, e)
  {
    hide Sum;
  }

  lemma {:induction false} RunLosses(events: seq<Event>)
    ensures Run(events).overwritten == Losses(events)
    ensures Losses(events) == [] <==> Undisturbed(events)
  {
    hide Step, Outdated;
    if |events| > 0 {
      RunLosses(events[..|events| - 1]);
      StepLosses(Run(events[..|events| - 1]), events[|events| - 1]);
      LossIsOne(Run(events[..|events| - 1]), events[|events| - 1]);
    }
  }

  lemma LossIsOne(db: Db, e: Event)
    ensures StepLoss(db, e) == [] <==> !Outdated(db, e)
  {
  }
}
