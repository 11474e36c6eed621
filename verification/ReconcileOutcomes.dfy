/** What a reconciliation pass does to the subscription table, read off the provider's
    answers: which rows, to what, and when nothing at all. */
module ReconcileOutcomes {
  import opened Sums
  import opened Options
  import opened Text
  import opened Store
  import opened Machine
  import opened Reconcile

  // ----- keys and answers in their own terms -----

  /** No key to ask about: none, an empty one, or one handed out for tests. */
  predicate TestKey(id: Option<string>) {
    || id.None? || id.value == ""
    || (|id.value| >= 5 && id.value[..5] == "test_") || (|id.value| >= 11 && id.value[..11] == "nlsub_test_")
  }

  /** The provider does not know the key. */
  predicate Unknown(a: KeyAnswer) {
    a.ClientError? && (Spells(a.code, "invalid_provider_key") || Spells(a.code, "not_found"))
  }

  predicate Suspended(a: KeyAnswer) { a.Info? && Spells(a.status, "suspended") }

  /** The provider counts the key as active, or says nothing about it. */
  predicate Active(a: KeyAnswer) { a.Info? && (a.status == "" || Spells(a.status, "active")) }

  /** The row after the answer about its key. */
  function Corrected(row: Subscription, a: KeyAnswer, now: int): Subscription {
    if Unknown(a) || Suspended(a) then row.(status := SubDeactivated, deactivatedAt := Some(now))
    else if a.Info? && !Active(a) then row.(status := SubExpired)
    else if Active(a) && a.expiresAt.Some? && row.expiresAt.Some? && a.expiresAt.value - row.expiresAt.value > 3600
    then row.(expiresAt := a.expiresAt)
    else row
  }

  lemma TestKeys(id: Option<string>)
    ensures IsTest(id) <==> TestKey(id)
  {
  }

  lemma AnswersAreRead(a: KeyAnswer)
    ensures UnknownKey(a) <==> Unknown(a)
    ensures Inactive(a) <==> a.Info? && !Active(a)
    ensures a.Info? ==> (Lower(a.status) == "suspended" <==> Suspended(a))
    ensures Suspended(a) ==> !Active(a)
  {
    hide Lower, Spells;
    if a.ClientError? {
      LowerSpells(a.code, "invalid_provider_key");
      LowerSpells(a.code, "not_found");
    }
    if a.Info? {
      LowerSpells(a.status, "active");
      LowerSpells(a.status, "suspended");
      SuspendedHasLetters(a.status);
    }
  }

  lemma SuspendedHasLetters(s: string)
    ensures Spells(s, "suspended") ==> s != "" && !Spells(s, "active")
  {
  }

  lemma AppliesAsCorrected(row: Subscription, a: KeyAnswer, now: int)
    ensures ApplyAnswer(row, a, now) == Corrected(row, a, now)
  {
    AnswersAreRead(a);
    hide Lower, Spells;
  }

  // ----- three unknown keys in a row -----

  function RealRow(): Subscription -> bool { (s: Subscription) => !TestKey(s.providerId) }

  predicate Gone(row: Subscription, ask: Reconcile.Provider) { !TestKey(row.providerId)
                                                              && Unknown(ask(row.providerId.value)) }

  /** Rows i to k hold at least three keys, and all of those are unknown. */
  ghost predicate AllGone(rows: seq<Subscription>, ask: Reconcile.Provider, i: nat, k: nat) {
    && i <= k <= |rows| && Count(rows[i..k], RealRow()) >= 3
    && forall n | i <= n < k :: TestKey(rows[n].providerId) || Gone(rows[n], ask)
  }

  ghost predicate ThreeGone(rows: seq<Subscription>, ask: Reconcile.Provider) {
    exists i: nat, k: nat :: AllGone(rows, ask, i, k)
  }

  lemma LostIsGone(row: Subscription, ask: Reconcile.Provider)
    ensures Lost(row, ask) <==> Gone(row, ask)
  {
    TestKeys(row.providerId);
    if !TestKey(row.providerId) {
      AnswersAreRead(ask(row.providerId.value));
    }
    hide UnknownKey, Unknown, IsTest, TestKey;
  }

  /** How many of the rows have a key of their own. */
  function Real(): Subscription -> int { (s: Subscription) => if TestKey(s.providerId) then 0 else 1 }

  lemma RealIsCounted(rows: seq<Subscription>)
    ensures Sum(rows, Real()) == Count(rows, RealRow())
  {
    SumIsCount(rows, Real(), RealRow());
  }

  /** The streak is the number of keys in some window at the end that holds only lost keys and test rows. */
  lemma {:induction false} StreakWindow(rows: seq<Subscription>, ask: Reconcile.Provider) returns (i: nat)
    ensures i <= |rows| && Sum(rows[i..], Real()) == Streak(rows, ask)
    ensures forall n | i <= n < |rows| :: TestKey(rows[n].providerId) || Gone(rows[n], ask)
  {
    if |rows| == 0 {
      i := 0;
    } else {
      var n := |rows| - 1;
      var row := rows[n];
      TestKeys(row.providerId);
      LostIsGone(row, ask);
      hide IsTest, TestKey, Lost, Gone;
      var j := StreakWindow(rows[..n], ask);
      if IsTest(row.providerId) || Lost(row, ask) {
        i := j;
        assert rows[j..] == rows[..n][j..] + [row];
        SumAppend(rows[..n][j..], row, Real());
      } else {
        i := |rows|;
      }
    }
  }

  /** Conversely any such window is no longer than the streak. */
  lemma {:induction false} WindowInStreak(rows: seq<Subscription>, ask: Reconcile.Provider, i: nat)
    requires i <= |rows| && forall n | i <= n < |rows| :: TestKey(rows[n].providerId) || Gone(rows[n], ask)
    ensures Sum(rows[i..], Real()) <= Streak(rows, ask)
  {
    if i < |rows| {
      var n := |rows| - 1;
      var row := rows[n];
      TestKeys(row.providerId);
      LostIsGone(row, ask);
      hide IsTest, TestKey, Lost, Gone;
      WindowInStreak(rows[..n], ask, i);
      assert rows[i..] == rows[..n][i..] + [row];
      SumAppend(rows[..n][i..], row, Real());
    }
  }

  lemma {:induction false} FirstTrip(rows: seq<Subscription>, ask: Reconcile.Provider) returns (k: nat)
    requires Trips(rows, ask)
    ensures k <= |rows| && Streak(rows[..k], ask) >= BREAKER
  {
    hide Streak;
    if Streak(rows, ask) >= BREAKER {
      k := |rows|;
      assert rows[..k] == rows;
    } else {
      k := FirstTrip(rows[..|rows| - 1], ask);
      assert rows[..|rows| - 1][..k] == rows[..k];
    }
  }

  lemma TripIsThreeGone(rows: seq<Subscription>, ask: Reconcile.Provider)
    ensures Trips(rows, ask) <==> ThreeGone(rows, ask)
  {
    hide Streak, TestKey, Gone;
    if Trips(rows, ask) {
      var k := FirstTrip(rows, ask);
      var i := StreakWindow(rows[..k], ask);
      assert rows[..k][i..] == rows[i..k];
      RealIsCounted(rows[i..k]);
      assert forall n | i <= n < k :: rows[..k][n] == rows[n];
      assert AllGone(rows, ask, i, k);
    }
    if ThreeGone(rows, ask) {
      var i: nat, k: nat :| AllGone(rows, ask, i, k);
      RealIsCounted(rows[i..k]);
      assert forall n | i <= n < k :: rows[..k][n] == rows[n];
      WindowInStreak(rows[..k], ask, i);
      assert rows[..k][i..] == rows[i..k];
      EndTrips(rows[..k], ask);
      TripsExtends(rows, k, ask);
    }
  }

  lemma EndTrips(rows: seq<Subscription>, ask: Reconcile.Provider)
    requires Streak(rows, ask) >= BREAKER
    ensures Trips(rows, ask)
  {
  }

  // ----- the pass over the rows, and over the table -----

  /** Three unknown keys in a row leave every row alone. Otherwise each row becomes what the answer
      about its key says, and test rows stay. */
  lemma PassIsExact(rows: seq<Subscription>, ask: Reconcile.Provider, now: int)
    ensures ThreeGone(rows, ask) ==> Pass(rows, ask, now) == rows
    ensures !ThreeGone(rows, ask) ==> forall i | 0 <= i < |rows| ::
              Pass(rows, ask, now)[i] == if TestKey(rows[i].providerId) then rows[i]
                                         else Corrected(rows[i], ask(rows[i].providerId.value), now)
  {
    TripIsThreeGone(rows, ask);
    hide Trips, ThreeGone, Visit, Corrected;
    forall i | 0 <= i < |rows|
      ensures Visit(rows[i], ask, now) == if TestKey(rows[i].providerId) then rows[i]
                                          else Corrected(rows[i], ask(rows[i].providerId.value), now)
    {
      VisitIsExact(rows[i], ask, now);
    }
  }

  lemma VisitIsExact(row: Subscription, ask: Reconcile.Provider, now: int)
    ensures Visit(row, ask, now) == if TestKey(row.providerId) then row
                                    else Corrected(row, ask(row.providerId.value), now)
  {
    hide ApplyAnswer, Corrected;
    TestKeys(row.providerId);
    if !TestKey(row.providerId) {
      AppliesAsCorrected(row, ask(row.providerId.value), now);
    }
  }

  /** A batch of distinct active rows with a key. */
  predicate Fetched(subs: seq<Subscription>, batch: seq<nat>) {
    && (forall i | 0 <= i < |batch| ::
          batch[i] < |subs| && subs[batch[i]].status == SubActive && subs[batch[i]].providerId != None)
    && (forall i, j | 0 <= i < j < |batch| :: batch[i] != batch[j])
  }

  function RowsOf(subs: seq<Subscription>, batch: seq<nat>): seq<Subscription>
    requires Fetched(subs, batch)
  {
    seq(|batch|, i requires 0 <= i < |batch| => subs[batch[i]])
  }

  /** A pass writes the table: each row of the batch as its answer says, unless three unknown keys
      came in a row, and no other row, nor any other table. */
  lemma PassOverTable(db: Db, batch: seq<nat>, ask: Reconcile.Provider, now: int)
    requires Fetched(db.subs, batch)
    ensures var db' := Step(db, ReconcileBatch(batch, ask, now));
            && db' == db.(subs := db'.subs) && |db'.subs| == |db.subs|
            && (forall s | 0 <= s < |db.subs| && s !in batch :: db'.subs[s] == db.subs[s])
            && (ThreeGone(RowsOf(db.subs, batch), ask) ==> db' == db)
            && (!ThreeGone(RowsOf(db.subs, batch), ask) ==> forall i | 0 <= i < |batch| ::
                  var row := db.subs[batch[i]];
                  db'.subs[batch[i]] == if TestKey(row.providerId) then row
                                        else Corrected(row, ask(row.providerId.value), now))
  {
    hide ThreeGone, Corrected, TestKey, Pass;
    var rows := RowsOf(db.subs, batch);
    assert rows == Rows(db.subs, batch);
    PassIsExact(rows, ask, now);
    PutBackRows(db.subs, batch, Pass(rows, ask, now));
    PutBackSame(db.subs, batch);
  }

  lemma {:induction false} PutBackSame(subs: seq<Subscription>, batch: seq<nat>)
    requires Fetched(subs, batch)
    ensures PutBack(subs, batch, RowsOf(subs, batch)) == subs
  {
    var rows := RowsOf(subs, batch);
    PutBackRows(subs, batch, rows);
    var after := PutBack(subs, batch, rows);
    forall s | 0 <= s < |subs| ensures after[s] == subs[s] {
      if s in batch {
        var i :| 0 <= i < |batch| && batch[i] == s;
        assert after[batch[i]] == rows[i];
      }
    }
  }

  // ----- the report -----

  function Checked(): Subscription -> bool { RealRow() }

  function Skipped(): Subscription -> bool { (s: Subscription) => TestKey(s.providerId) }

  /** The provider's expiry of an active key is more than an hour earlier than ours. */
  function Shortened(ask: Reconcile.Provider): Subscription -> bool {
    (s: Subscription) =>
      && !TestKey(s.providerId)
      && var a := ask(s.providerId.value);
         Active(a) && a.expiresAt.Some? && s.expiresAt.Some? && s.expiresAt.value - a.expiresAt.value > 3600
  }

  /** The provider gave no information about a key, for another reason than not knowing it. */
  function Failed(ask: Reconcile.Provider): Subscription -> bool {
    (s: Subscription) => !TestKey(s.providerId) && !ask(s.providerId.value).Info? && !Unknown(ask(s.providerId.value))
  }

  /** The provider's expiry of an active key is more than an hour later than ours. */
  function Lengthened(ask: Reconcile.Provider): Subscription -> bool {
    (s: Subscription) =>
      && !TestKey(s.providerId)
      && var a := ask(s.providerId.value);
         Active(a) && a.expiresAt.Some? && s.expiresAt.Some? && a.expiresAt.value - s.expiresAt.value > 3600
  }

  /** The key is unknown, or known and not active. */
  function Ended(ask: Reconcile.Provider): Subscription -> bool {
    (s: Subscription) =>
      && !TestKey(s.providerId)
      && var a := ask(s.providerId.value); Unknown(a) || (a.Info? && !Active(a))
  }

  /** The counters of a pass in terms of the rows and the answers. */
  lemma ReportIsExact(rows: seq<Subscription>, ask: Reconcile.Provider)
    ensures var t := Counted(rows, ask);
            && t.checked == Count(rows, Checked()) && t.skippedTest == Count(rows, Skipped())
            && t.flipped == Count(rows, Ended(ask)) && t.extended == Count(rows, Lengthened(ask))
            && t.shrinkWarned == Count(rows, Shortened(ask)) && t.apiErrors == Count(rows, Failed(ask))
  {
    forall row | row in rows
      ensures FlippedRow(ask)(row) == if Ended(ask)(row) then 1 else 0
      ensures ExtendedRow(ask)(row) == if Lengthened(ask)(row) then 1 else 0
      ensures CheckedRow()(row) == if Checked()(row) then 1 else 0
      ensures SkippedRow()(row) == if Skipped()(row) then 1 else 0
      ensures ShrunkRow(ask)(row) == if Shortened(ask)(row) then 1 else 0
      ensures ErrorRow(ask)(row) == if Failed(ask)(row) then 1 else 0
    {
      TestKeys(row.providerId);
      LostIsGone(row, ask);
      if !TestKey(row.providerId) {
        AnswersAreRead(ask(row.providerId.value));
      }
    }
    hide CheckedRow, SkippedRow, FlippedRow, ExtendedRow, ShrunkRow, ErrorRow;
    hide Checked, Skipped, Ended, Lengthened, Shortened, Failed;
    SumIsCount(rows, FlippedRow(ask), Ended(ask));
    SumIsCount(rows, ExtendedRow(ask), Lengthened(ask));
    SumIsCount(rows, CheckedRow(), Checked());
    SumIsCount(rows, SkippedRow(), Skipped());
    SumIsCount(rows, ShrunkRow(ask), Shortened(ask));
    SumIsCount(rows, ErrorRow(ask), Failed(ask));
  }

  /** A pass that trips at row k reports the rows before it, itself as checked, no flips, and three
      errors more. */
  lemma TrippedReportIsExact(rows: seq<Subscription>, k: nat, ask: Reconcile.Provider)
    requires k <= |rows|
    ensures var before := rows[..k]; var t := TrippedTally(before, ask);
            && t.checked == Count(before, Checked()) + 1 && t.skippedTest == Count(before, Skipped())
            && t.flipped == 0 && t.extended == Count(before, Lengthened(ask))
            && t.shrinkWarned == Count(before, Shortened(ask)) && t.apiErrors == Count(before, Failed(ask)) + 3
  {
    ReportIsExact(rows[..k], ask);
    hide Checked, Skipped, Ended, Lengthened, Shortened, Failed;
  }
}
