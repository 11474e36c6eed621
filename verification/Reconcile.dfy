/** One reconciliation pass over a batch of active subscriptions, with the circuit
    breaker that abandons the batch when the provider stops recognising keys. */
module Reconcile {
  import opened Sums
  import opened Options
  import opened Store
  import Text

  const BREAKER := 3
  const DRIFT := 3600

  datatype KeyAnswer = Info(status: string, expiresAt: Option<int>) | ClientError(code: string) | Unavailable

  datatype Tally = Tally(checked: int, skippedTest: int, flipped: int, extended: int, shrinkWarned: int, apiErrors: int)

  predicate IsTest(id: Option<string>) {
    id.None? || id.value == "" || "nlsub_test_" <= id.value || "test_" <= id.value
  }

  predicate UnknownKey(a: KeyAnswer) {
    a.ClientError? && Text.Lower(a.code) in ["invalid_provider_key", "not_found"]
  }

  /** The provider says the key is not active (an empty status counts as active). */
  predicate Inactive(a: KeyAnswer) {
    a.Info? && a.status != "" && Text.Lower(a.status) != "active"
  }

  /** How much later the provider's expiry is than ours, when both are known. */
  function Drift(row: Subscription, a: KeyAnswer): Option<int> {
    if a.Info? && !Inactive(a) && a.expiresAt.Some? && row.expiresAt.Some?
    then Some(a.expiresAt.value - row.expiresAt.value) else None
  }

  predicate Extends(row: Subscription, a: KeyAnswer) { Drift(row, a).Some? && Drift(row, a).value > DRIFT }

  predicate Shrinks(row: Subscription, a: KeyAnswer) { Drift(row, a).Some? && -Drift(row, a).value > DRIFT }

  function ApplyAnswer(row: Subscription, a: KeyAnswer, now: int): Subscription {
    if UnknownKey(a) || (Inactive(a) && Text.Lower(a.status) == "suspended") then
      row.(status := SubDeactivated, deactivatedAt := Some(now))
    else if Inactive(a) then row.(status := SubExpired)
    else if Extends(row, a) then row.(expiresAt := a.expiresAt)
    else row
  }

  /** The provider's answers, fixed for the pass: one for each key, shared by rows with the same key. */
  type Provider = string -> KeyAnswer

  function Asked(row: Subscription, ask: Provider): KeyAnswer
    requires !IsTest(row.providerId)
  {
    ask(row.providerId.value)
  }

  function Visit(row: Subscription, ask: Provider, now: int): Subscription {
    if IsTest(row.providerId) then row else ApplyAnswer(row, Asked(row, ask), now)
  }

  predicate Lost(row: Subscription, ask: Provider) { !IsTest(row.providerId) && UnknownKey(Asked(row, ask)) }

  /** Length of the run of unknown keys that ends the rows; test rows are not part of it. */
  function Streak(rows: seq<Subscription>, ask: Provider): nat {
    if |rows| == 0 then 0
    else
      var row := rows[|rows| - 1];
      if IsTest(row.providerId) then Streak(rows[..|rows| - 1], ask)
      else if Lost(row, ask) then Streak(rows[..|rows| - 1], ask) + 1
      else 0
  }

  predicate Trips(rows: seq<Subscription>, ask: Provider) {
    |rows| > 0 && (Trips(rows[..|rows| - 1], ask) || Streak(rows, ask) >= BREAKER)
  }

  function Visited(rows: seq<Subscription>, ask: Provider, now: int): seq<Subscription> {
    seq(|rows|, i requires 0 <= i < |rows| => Visit(rows[i], ask, now))
  }

  /** The whole pass: everything or, when the breaker trips, nothing. */
  function Pass(rows: seq<Subscription>, ask: Provider, now: int): (r: seq<Subscription>)
    ensures |r| == |rows|
  {
    if Trips(rows, ask) then rows else Visited(rows, ask, now)
  }

  // ----- counters -----

  function CheckedRow(): Subscription -> int { (s: Subscription) => if IsTest(s.providerId) then 0 else 1 }

  function SkippedRow(): Subscription -> int { (s: Subscription) => if IsTest(s.providerId) then 1 else 0 }

  function LostRow(ask: Provider): Subscription -> int { (s: Subscription) => if Lost(s, ask) then 1 else 0 }

  function FlippedRow(ask: Provider): Subscription -> int {
    (s: Subscription) => if !IsTest(s.providerId) && (Lost(s, ask) || Inactive(Asked(s, ask))) then 1 else 0
  }

  function ExtendedRow(ask: Provider): Subscription -> int {
    (s: Subscription) => if !IsTest(s.providerId) && Extends(s, Asked(s, ask)) then 1 else 0
  }

  function ShrunkRow(ask: Provider): Subscription -> int {
    (s: Subscription) => if !IsTest(s.providerId) && Shrinks(s, Asked(s, ask)) then 1 else 0
  }

  function ErrorRow(ask: Provider): Subscription -> int {
    (s: Subscription) => if !IsTest(s.providerId) && !Lost(s, ask) && !Asked(s, ask).Info? then 1 else 0
  }

  function Counted(rows: seq<Subscription>, ask: Provider): Tally {
    Tally(Sum(rows, CheckedRow()), Sum(rows, SkippedRow()), Sum(rows, FlippedRow(ask)),
          Sum(rows, ExtendedRow(ask)), Sum(rows, ShrunkRow(ask)), Sum(rows, ErrorRow(ask)))
  }

  /** What a tripped pass reports: the rows before the fatal one were counted, the
      fatal one was checked, and only the flips are taken back. */
  function TrippedTally(before: seq<Subscription>, ask: Provider): Tally {
    var t := Counted(before, ask);
    t.(checked := t.checked + 1, flipped := 0, apiErrors := t.apiErrors + BREAKER)
  }

  lemma CountedAppend(rows: seq<Subscription>, row: Subscription, ask: Provider)
    ensures Counted(rows + [row], ask) == Tally(
      Sum(rows, CheckedRow()) + CheckedRow()(row), Sum(rows, SkippedRow()) + SkippedRow()(row),
      Sum(rows, FlippedRow(ask)) + FlippedRow(ask)(row), Sum(rows, ExtendedRow(ask)) + ExtendedRow(ask)(row),
      Sum(rows, ShrunkRow(ask)) + ShrunkRow(ask)(row), Sum(rows, ErrorRow(ask)) + ErrorRow(ask)(row))
  {
  }

  /** One more row: how the streak, the breaker and the counters move. */
  lemma OneMoreRow(rows: seq<Subscription>, k: nat, ask: Provider)
    requires k < |rows|
    ensures Streak(rows[..k + 1], ask) ==
              if IsTest(rows[k].providerId) then Streak(rows[..k], ask)
              else if Lost(rows[k], ask) then Streak(rows[..k], ask) + 1 else 0
    ensures Trips(rows[..k + 1], ask) <==> Trips(rows[..k], ask) || Streak(rows[..k + 1], ask) >= BREAKER
    ensures var t, row := Counted(rows[..k], ask), rows[k];
            Counted(rows[..k + 1], ask) == Tally(
              t.checked + CheckedRow()(row), t.skippedTest + SkippedRow()(row), t.flipped + FlippedRow(ask)(row),
              t.extended + ExtendedRow(ask)(row), t.shrinkWarned + ShrunkRow(ask)(row),
              t.apiErrors + ErrorRow(ask)(row))
  {
    assert rows[..k + 1] == rows[..k] + [rows[k]];
    assert rows[..k + 1][..k] == rows[..k];
    CountedAppend(rows[..k], rows[k], ask);
  }

  /** The breaker, once tripped on a prefix, has tripped on the batch. */
  lemma {:induction false} TripsExtends(rows: seq<Subscription>, k: nat, ask: Provider)
    requires k <= |rows| && Trips(rows[..k], ask)
    ensures Trips(rows, ask)
  {
    if k == |rows| {
      assert rows[..k] == rows;
    } else {
      assert rows[..|rows| - 1][..k] == rows[..k];
      TripsExtends(rows[..|rows| - 1], k, ask);
    }
  }

  lemma NoRows(rows: seq<Subscription>, ask: Provider)
    ensures !Trips(rows[..0], ask) && Streak(rows[..0], ask) == 0 && Counted(rows[..0], ask) == Tally(0, 0, 0, 0, 0, 0)
  {
  }

  lemma UnknownIsError(a: KeyAnswer)
    ensures UnknownKey(a) ==> a.ClientError?
  {
  }

  /** The loop of the service over the rows it fetched, mutating them in place; a
      rollback restores them all. */
  method ReconcileSubscriptions(rows: array<Subscription>, ask: Provider, now: int)
    returns (result: Tally, tripped: bool)
    modifies rows
    ensures tripped <==> Trips(old(rows[..]), ask)
    ensures rows[..] == Pass(old(rows[..]), ask, now)
    ensures !tripped ==> result == Counted(old(rows[..]), ask)
    ensures tripped ==> exists k :: 0 <= k < rows.Length && !Trips(old(rows[..])[..k], ask)
                                    && Streak(old(rows[..])[..k + 1], ask) == BREAKER
                                    && result == TrippedTally(old(rows[..])[..k], ask)
  {
    hide Streak, Trips, Counted, Text.Lower, UnknownKey;
    var fetched := rows[..];
    NoRows(fetched, ask);
    var consecutive := 0;
    result := Tally(0, 0, 0, 0, 0, 0);
    var i := 0;
    while i < rows.Length
      invariant 0 <= i <= rows.Length
      invariant !Trips(fetched[..i], ask)
      invariant consecutive == Streak(fetched[..i], ask) && consecutive < BREAKER
      invariant result == Counted(fetched[..i], ask)
      invariant forall j | 0 <= j < i :: rows[j] == Visit(fetched[j], ask, now)
      invariant forall j | i <= j < rows.Length :: rows[j] == fetched[j]
    {
      OneMoreRow(fetched, i, ask);
      var sub := rows[i];
      if IsTest(sub.providerId) {
        result := result.(skippedTest := result.skippedTest + 1);
        i := i + 1;
        continue;
      }
      result := result.(checked := result.checked + 1);
      var answer := ask(sub.providerId.value);
      UnknownIsError(answer);
      if UnknownKey(answer) {
        consecutive := consecutive + 1;
        if consecutive >= BREAKER {
          forall j | 0 <= j < rows.Length {
            rows[j] := fetched[j];
          }
          result := result.(apiErrors := result.apiErrors + consecutive, flipped := 0);
          TripsExtends(fetched, i + 1, ask);
          return result, true;
        }
        rows[i] := sub.(status := SubDeactivated, deactivatedAt := Some(now));
        result := result.(flipped := result.flipped + 1);
      } else if !answer.Info? {
        consecutive := 0;
        result := result.(apiErrors := result.apiErrors + 1);
      } else {
        consecutive := 0;
        if answer.status != "" && Text.Lower(answer.status) != "active" {
          if Text.Lower(answer.status) == "suspended" {
            rows[i] := sub.(status := SubDeactivated, deactivatedAt := Some(now));
          } else {
            rows[i] := sub.(status := SubExpired);
          }
          result := result.(flipped := result.flipped + 1);
        } else if answer.expiresAt.Some? && sub.expiresAt.Some? {
          var delta := answer.expiresAt.value - sub.expiresAt.value;
          if delta > DRIFT {
            rows[i] := sub.(expiresAt := answer.expiresAt);
            result := result.(extended := result.extended + 1);
          } else if -delta > DRIFT {
            result := result.(shrinkWarned := result.shrinkWarned + 1);
          }
        }
      }
      i := i + 1;
    }
    assert fetched[..i] == fetched;
    tripped := false;
  }

  // ----- the breaker trips exactly on three unknown keys in a row -----

  /** The answers the breaker sees. */
  function Answers(rows: seq<Subscription>, ask: Provider): seq<KeyAnswer> {
    if |rows| == 0 then []
    else
      var row := rows[|rows| - 1];
      Answers(rows[..|rows| - 1], ask) + if IsTest(row.providerId) then [] else [Asked(row, ask)]
  }

  ghost predicate ThreeUnknown(answers: seq<KeyAnswer>, j: nat) {
    j + 3 <= |answers| && UnknownKey(answers[j]) && UnknownKey(answers[j + 1]) && UnknownKey(answers[j + 2])
  }

  /** The streak is the run of unknown keys at the end of the answers, as long as it is not broken. */
  lemma {:induction false} StreakIsRun(rows: seq<Subscription>, ask: Provider)
    ensures Streak(rows, ask) <= |Answers(rows, ask)|
    ensures forall j | |Answers(rows, ask)| - Streak(rows, ask) <= j < |Answers(rows, ask)| ::
              UnknownKey(Answers(rows, ask)[j])
    ensures Streak(rows, ask) < |Answers(rows, ask)| ==>
              !UnknownKey(Answers(rows, ask)[|Answers(rows, ask)| - Streak(rows, ask) - 1])
  {
    if |rows| > 0 {
      StreakIsRun(rows[..|rows| - 1], ask);
    }
  }

  lemma {:induction false} BreakerExact(rows: seq<Subscription>, ask: Provider)
    ensures Trips(rows, ask) <==> exists j: nat :: ThreeUnknown(Answers(rows, ask), j)
  {
    hide UnknownKey, IsTest, Lost;
    if |rows| > 0 {
      var before := rows[..|rows| - 1];
      BreakerExact(before, ask);
      StreakIsRun(rows, ask);
      var earlier, answers := Answers(before, ask), Answers(rows, ask);
      assert forall j: nat :: ThreeUnknown(earlier, j) ==> ThreeUnknown(answers, j);
      if Streak(rows, ask) >= BREAKER {
        assert ThreeUnknown(answers, |answers| - 3);
      }
      if exists j: nat :: ThreeUnknown(answers, j) {
        var j: nat :| ThreeUnknown(answers, j);
        if j + 3 <= |earlier| {
          assert ThreeUnknown(earlier, j);
        }
      }
    }
  }

  /** Of n checked rows a committed batch deactivates at most (2n + 2) / 3 as unknown. */
  lemma {:induction false} LostIsBounded(rows: seq<Subscription>, ask: Provider)
    requires !Trips(rows, ask)
    ensures 3 * Sum(rows, LostRow(ask)) <= 2 * Sum(rows, CheckedRow()) + Streak(rows, ask)
    ensures Sum(rows, LostRow(ask)) <= (2 * Sum(rows, CheckedRow()) + 2) / 3
  {
    if |rows| > 0 {
      LostIsBounded(rows[..|rows| - 1], ask);
      assert Streak(rows[..|rows| - 1], ask) < BREAKER || |rows| == 1;
    }
  }

  /** A batch with distinct keys, in which two unknown keys alternate with one good one. */
  function WorstKey(i: nat): string { [if i % 3 == 2 then 'g' else 'b'] + seq(i, _ => 'x') }

  function WorstBatch(n: nat): seq<Subscription> {
    seq(n, i requires 0 <= i => Subscription(0, 30, SubActive, Some(WorstKey(i)), Some(0), Some(0), None))
  }

  function WorstProvider(): Provider {
    (id: string) => if |id| > 0 && id[0] == 'b' then ClientError("NOT_FOUND") else Unavailable
  }

  lemma NotFoundIsUnknown()
    ensures UnknownKey(ClientError("NOT_FOUND"))
  {
    assert Text.Lower("NOT_FOUND") == "not_found";
  }

  lemma WorstRow(n: nat, i: nat)
    requires i < n
    ensures var row := WorstBatch(n)[i];
            !IsTest(row.providerId) && (Lost(row, WorstProvider()) <==> i % 3 != 2)
  {
    NotFoundIsUnknown();
    hide Text.Lower;
    var key := WorstKey(i);
    assert key[0] != "nlsub_test_"[0] && key[0] != "test_"[0];
  }

  lemma WorstKeysDiffer(n: nat)
    ensures forall i, j | 0 <= i < j < n :: WorstBatch(n)[i].providerId != WorstBatch(n)[j].providerId
  {
    forall i, j | 0 <= i < j < n ensures WorstBatch(n)[i].providerId != WorstBatch(n)[j].providerId {
      assert |WorstKey(i)| < |WorstKey(j)|;
    }
  }

  lemma WorstGrows(n: nat)
    requires n > 0
    ensures |WorstBatch(n)| == n && WorstBatch(n)[..n - 1] == WorstBatch(n - 1)
    ensures WorstBatch(n) == WorstBatch(n - 1) + [WorstBatch(n)[n - 1]]
  {
  }

  lemma Thirds(n: nat)
    requires n > 0
    ensures (2 * n + 2) / 3 == (2 * (n - 1) + 2) / 3 + if n % 3 == 0 then 0 else 1
    ensures n % 3 == if (n - 1) % 3 == 2 then 0 else (n - 1) % 3 + 1
  {
  }

  lemma {:induction false} WorstRows(n: nat)
    ensures var rows := WorstBatch(n);
            && !Trips(rows, WorstProvider()) && Streak(rows, WorstProvider()) == n % 3
            && Sum(rows, CheckedRow()) == n && Sum(rows, LostRow(WorstProvider())) == (2 * n + 2) / 3
  {
    if n > 0 {
      hide IsTest, Lost, WorstProvider, WorstBatch;
      WorstRows(n - 1);
      WorstGrows(n);
      WorstRow(n, n - 1);
      Thirds(n);
    }
  }

  /** The bound is attained for every n, by a batch whose keys are all different. */
  lemma LostBoundAttained(n: nat)
    ensures var rows := WorstBatch(n);
            && (forall i, j | 0 <= i < j < n :: rows[i].providerId != rows[j].providerId)
            && !Trips(rows, WorstProvider())
            && Sum(rows, CheckedRow()) == n && Sum(rows, LostRow(WorstProvider())) == (2 * n + 2) / 3
  {
    WorstKeysDiffer(n);
    WorstRows(n);
  }

  // ----- what a pass does to the rows -----

  /** What the pass may do to one row: it keeps its identity, and its expiry never moves back. */
  ghost predicate RowKept(row: Subscription, row': Subscription) {
    && row'.user == row.user && row'.days == row.days && row'.providerId == row.providerId
    && row'.startedAt == row.startedAt
    && (row.expiresAt.Some? ==> row'.expiresAt.Some? && row'.expiresAt.value >= row.expiresAt.value)
    && (row.expiresAt.None? ==> row'.expiresAt.None?)
    && (row'.status == row.status || row'.status.SubDeactivated? || row'.status.SubExpired?)
  }

  /** What the provider's answer may do to the row that asked: it stays active unless its key is
      unknown or inactive, and its expiry ends no more than the drift below an active key's. */
  ghost predicate Answered(row: Subscription, a: KeyAnswer, row': Subscription) {
    && (UnknownKey(a) ==> row'.status.SubDeactivated?)
    && (Inactive(a) ==> row'.status.SubDeactivated? || row'.status.SubExpired?)
    && (!UnknownKey(a) && !Inactive(a) ==> row'.status == row.status)
    && (row'.expiresAt == row.expiresAt || (a.Info? && !Inactive(a) && row'.expiresAt == a.expiresAt))
    && (a.Info? && !Inactive(a) && a.expiresAt.Some? && row'.expiresAt.Some? ==>
          row'.expiresAt.value >= a.expiresAt.value - DRIFT)
  }

  lemma VisitIsSafe(row: Subscription, ask: Provider, now: int)
    ensures RowKept(row, Visit(row, ask, now))
    ensures if IsTest(row.providerId) then Visit(row, ask, now) == row
              else Answered(row, Asked(row, ask), Visit(row, ask, now))
  {
  }

  /** A tripped batch changes nothing. Otherwise test rows stay as they are, and every other
      row becomes what its answer allows; no expiry ever moves back. */
  lemma PassIsSafe(rows: seq<Subscription>, ask: Provider, now: int)
    ensures Trips(rows, ask) ==> Pass(rows, ask, now) == rows
    ensures forall i | 0 <= i < |rows| :: RowKept(rows[i], Pass(rows, ask, now)[i])
    ensures !Trips(rows, ask) ==> forall i | 0 <= i < |rows| ::
              if IsTest(rows[i].providerId) then Pass(rows, ask, now)[i] == rows[i]
              else Answered(rows[i], Asked(rows[i], ask), Pass(rows, ask, now)[i])
  {
    hide Visit, Answered, RowKept, IsTest;
    forall i | 0 <= i < |rows|
      ensures RowKept(rows[i], rows[i]) && RowKept(rows[i], Visit(rows[i], ask, now))
      ensures if IsTest(rows[i].providerId) then Visit(rows[i], ask, now) == rows[i]
              else Answered(rows[i], Asked(rows[i], ask), Visit(rows[i], ask, now))
    {
      VisitIsSafe(rows[i], ask, now);
      SameRow(rows[i]);
    }
  }

  lemma SameRow(row: Subscription)
    ensures RowKept(row, row)
  {
  }

  function StatusMoved(row: Subscription, row': Subscription): int { if row.status != row'.status then 1 else 0 }

  function ExpiryMoved(row: Subscription, row': Subscription): int { if row.expiresAt != row'.expiresAt then 1 else 0 }

  function Moves(rows: seq<Subscription>, rows': seq<Subscription>, moved: (Subscription, Subscription) -> int): int
    requires |rows| == |rows'|
  {
    if |rows| == 0 then 0
    else Moves(rows[..|rows| - 1], rows'[..|rows| - 1], moved) + moved(rows[|rows| - 1], rows'[|rows| - 1])
  }

  /** The counters of a committed batch are the numbers of rows whose status and expiry changed. */
  lemma {:induction false} CountersAreTrue(rows: seq<Subscription>, ask: Provider, now: int)
    requires forall i | 0 <= i < |rows| :: rows[i].status.SubActive?
    ensures Counted(rows, ask).flipped == Moves(rows, Visited(rows, ask, now), StatusMoved)
    ensures Counted(rows, ask).extended == Moves(rows, Visited(rows, ask, now), ExpiryMoved)
    ensures Counted(rows, ask).checked + Counted(rows, ask).skippedTest == |rows|
  {
    if |rows| > 0 {
      var before := rows[..|rows| - 1];
      CountersAreTrue(before, ask, now);
      assert Visited(rows, ask, now)[..|rows| - 1] == Visited(before, ask, now);
    }
  }

  lemma {:induction false} NothingMoves(rows: seq<Subscription>, moved: (Subscription, Subscription) -> int)
    requires forall row :: moved(row, row) == 0
    ensures Moves(rows, rows, moved) == 0
  {
    if |rows| > 0 {
      NothingMoves(rows[..|rows| - 1], moved);
    }
  }

  lemma FatalRowTrips(rows: seq<Subscription>, k: nat, ask: Provider)
    requires k < |rows| && Streak(rows[..k + 1], ask) == BREAKER
    ensures Trips(rows, ask)
  {
    TripsExtends(rows, k + 1, ask);
  }

  /** A batch that trips at row k changed no expiry, yet it reports the extensions it rolled
      back: its counter is right exactly when it had extended nothing before that row. */
  lemma TrippedExtendedCounter(rows: seq<Subscription>, k: nat, ask: Provider, now: int)
    requires k < |rows| && !Trips(rows[..k], ask) && Streak(rows[..k + 1], ask) == BREAKER
    ensures Pass(rows, ask, now) == rows
    ensures TrippedTally(rows[..k], ask).flipped == Moves(rows, Pass(rows, ask, now), StatusMoved)
    ensures TrippedTally(rows[..k], ask).extended == Moves(rows, Pass(rows, ask, now), ExpiryMoved)
            <==> forall i | 0 <= i < k && !IsTest(rows[i].providerId) :: !Extends(rows[i], Asked(rows[i], ask))
  {
    FatalRowTrips(rows, k, ask);
    hide Trips, Streak;
    NothingMoves(rows, StatusMoved);
    NothingMoves(rows, ExpiryMoved);
    SumAtLeast(rows[..k], ExtendedRow(ask));
    if forall i | 0 <= i < k && !IsTest(rows[i].providerId) :: !Extends(rows[i], Asked(rows[i], ask)) {
      SumZero(rows[..k], ExtendedRow(ask));
    } else {
      var i :| 0 <= i < k && !IsTest(rows[i].providerId) && Extends(rows[i], Asked(rows[i], ask));
      assert ExtendedRow(ask)(rows[..k][i]) == 1;
    }
  }

  function Row(key: string): Subscription { Subscription(0, 30, SubActive, Some(key), Some(0), Some(0), None) }

  /** One key whose expiry is two hours ahead; all others unknown. */
  function AheadProvider(): Provider {
    (id: string) => if id == "g" then Info("active", Some(7200)) else ClientError("NOT_FOUND")
  }

  /** A batch whose report is wrong: one extension counted, none kept. */
  lemma TrippedExtendedExample(now: int)
    ensures var rows := [Row("g"), Row("b"), Row("c"), Row("d")]; var ask := AheadProvider();
            && !Trips(rows[..3], ask) && Streak(rows[..4], ask) == BREAKER && Trips(rows, ask)
            && TrippedTally(rows[..3], ask).extended == 1
            && Moves(rows, Pass(rows, ask, now), ExpiryMoved) == 0
  {
    var rows, ask := [Row("g"), Row("b"), Row("c"), Row("d")], AheadProvider();
    AheadRows();
    hide Lost, IsTest, Extends, UnknownKey, AheadProvider;
    assert rows[..4] == rows;
    NoRows(rows, ask);
    OneMoreRow(rows, 0, ask);
    OneMoreRow(rows, 1, ask);
    OneMoreRow(rows, 2, ask);
    OneMoreRow(rows, 3, ask);
    NothingMoves(rows, ExpiryMoved);
  }

  lemma ShortKeyIsReal(key: string)
    requires |key| == 1
    ensures !IsTest(Row(key).providerId)
  {
  }

  lemma AheadKey()
    ensures Extends(Row("g"), Info("active", Some(7200))) && !UnknownKey(Info("active", Some(7200)))
  {
    ActiveIsActive();
  }

  lemma AheadRows()
    ensures var ask := AheadProvider();
            && (forall key | key in ["g", "b", "c", "d"] :: !IsTest(Row(key).providerId))
            && !Lost(Row("g"), ask) && Extends(Row("g"), Asked(Row("g"), ask))
            && (forall key | key in ["b", "c", "d"] :: Lost(Row(key), ask) && !Extends(Row(key), Asked(Row(key), ask)))
  {
    hide IsTest, Inactive, UnknownKey;
    NotFoundIsUnknown();
    AheadKey();
    forall key | key in ["g", "b", "c", "d"] ensures !IsTest(Row(key).providerId) {
      ShortKeyIsReal(key);
    }
  }

  lemma ActiveIsActive()
    ensures Text.Lower("active") == "active"
  {
  }

  // ----- running it again -----

  /** The rows the next pass would fetch again. */
  function StillActive(rows: seq<Subscription>): (r: seq<Subscription>)
    ensures forall row | row in r :: row in rows && row.status.SubActive? && row.providerId.Some?
    ensures (forall row | row in rows :: row.status.SubActive? && row.providerId.Some?) ==> r == rows
  {
    if |rows| == 0 then []
    else
      var row := rows[|rows| - 1];
      var before := StillActive(rows[..|rows| - 1]);
      assert rows == rows[..|rows| - 1] + [row];
      if row.status.SubActive? && row.providerId.Some? then before + [row] else before
  }

  /** A row that survives a visit as active needs no further visit. */
  lemma VisitSettles(row: Subscription, ask: Provider, now: int, later: int)
    requires Visit(row, ask, now).status.SubActive?
    ensures var row' := Visit(row, ask, now); !Lost(row', ask) && Visit(row', ask, later) == row'
  {
  }

  lemma {:induction false} NoLossNoTrip(rows: seq<Subscription>, ask: Provider)
    requires forall row | row in rows :: !Lost(row, ask)
    ensures !Trips(rows, ask) && Streak(rows, ask) == 0
  {
    if |rows| > 0 {
      NoLossNoTrip(rows[..|rows| - 1], ask);
    }
  }

  /** Running the pass again on the rows that are still active changes none of them,
      whether the first pass committed or tripped. */
  lemma PassIsIdempotent(rows: seq<Subscription>, ask: Provider, now: int, later: int)
    requires forall row | row in rows :: row.status.SubActive? && row.providerId.Some?
    ensures var again := StillActive(Pass(rows, ask, now)); Pass(again, ask, later) == again
  {
    var again := StillActive(Pass(rows, ask, now));
    if Trips(rows, ask) {
      assert again == rows;
    } else {
      forall row | row in again ensures !Lost(row, ask) && Visit(row, ask, later) == row {
        var i :| 0 <= i < |rows| && row == Visit(rows[i], ask, now);
        VisitSettles(rows[i], ask, now, later);
      }
      NoLossNoTrip(again, ask);
      assert Visited(again, ask, later) == again;
    }
  }
}
