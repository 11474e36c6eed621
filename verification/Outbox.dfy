/** The outbox: claiming the least due messages, bounded retries with growing
    delays, and the de-duplication of admin alerts stored in the same queue.
    A message's identifier is its position in the table; time is in seconds. */
module Outbox {
  import opened Options

  const MAX_ATTEMPTS := 5
  const DEDUP_WINDOW := 600
  const MINUTE := 60

  datatype Status = Pending | Dispatching | Sent | Failed

  /** alertKey is the dedup_key of an admin alert's payload. */
  datatype Message = Message(status: Status, attempts: nat, sendAfter: int, createdAt: int, alertKey: Option<string>)

  function Pow2(n: nat): nat { if n == 0 then 1 else 2 * Pow2(n - 1) }

  /** Minutes to wait after a failed attempt. */
  function Backoff(attempts: int): int {
    if attempts <= 0 then 1
    else if Pow2(attempts) < 60 then Pow2(attempts) else 60
  }

  lemma {:induction false} Pow2Grows(a: nat, b: nat)
    requires a <= b
    ensures 1 <= Pow2(a) <= Pow2(b)
  {
    if a < b {
      Pow2Grows(a, b - 1);
    } else if a > 0 {
      Pow2Grows(a - 1, a - 1);
    }
  }

  /** The delay never shrinks from one attempt to the next, and is capped at an hour from the sixth on. */
  lemma BackoffGrows(a: int, b: int)
    requires a <= b
    ensures 1 <= Backoff(a) <= Backoff(b) <= 60
    ensures Backoff(b) == 60 <==> b >= 6
  {
    if a >= 1 {
      Pow2Grows(a, b);
    }
    if b >= 1 {
      Pow2Grows(0, b);
    }
    assert Pow2(5) == 32 && Pow2(6) == 64;
    if 6 <= b {
      Pow2Grows(6, b);
    } else if 1 <= b {
      Pow2Grows(b, 5);
    }
  }

  /** The delays in minutes. */
  lemma BackoffMinutes(attempts: int)
    ensures Backoff(attempts) == if attempts <= 0 then 1 else if attempts == 1 then 2 else if attempts == 2 then 4
                                 else if attempts == 3 then 8 else if attempts == 4 then 16
                                 else if attempts == 5 then 32 else 60
  {
    if attempts >= 6 {
      BackoffGrows(6, attempts);
    }
    assert Pow2(2) == 4 && Pow2(3) == 8;
    assert Pow2(4) == 16 && Pow2(5) == 32;
  }

  // ----- claiming -----

  /** Rows the query may return: pending, due, and not locked by another worker. */
  predicate Due(rows: seq<Message>, i: int, now: int, locked: set<nat>) {
    0 <= i < |rows| && rows[i].status.Pending? && rows[i].sendAfter <= now && i !in locked
  }

  /** The query's order: by due time, then by identifier. */
  predicate Before(rows: seq<Message>, i: nat, j: nat)
    requires i < |rows| && j < |rows|
  {
    rows[i].sendAfter < rows[j].sendAfter || (rows[i].sendAfter == rows[j].sendAfter && i < j)
  }

  /** The least of the first k rows that are due and not yet taken. */
  function Least(rows: seq<Message>, now: int, locked: set<nat>, k: nat): (r: Option<nat>)
    requires k <= |rows|
    ensures r.Some? ==> r.value < k && Due(rows, r.value, now, locked)
                        && forall j | 0 <= j < k && Due(rows, j, now, locked) ::
                             j == r.value || Before(rows, r.value, j)
    ensures r.None? ==> forall j | 0 <= j < k :: !Due(rows, j, now, locked)
  {
    if k == 0 then None
    else
      var r := Least(rows, now, locked, k - 1);
      if Due(rows, k - 1, now, locked) && (r.None? || Before(rows, k - 1, r.value)) then Some(k - 1) else r
  }

  /** The first rows of the query, limit at most. */
  function Batch(rows: seq<Message>, now: int, limit: nat, locked: set<nat>): seq<nat> {
    if limit == 0 then []
    else
      var r := Least(rows, now, locked, |rows|);
      if r.None? then [] else [r.value] + Batch(rows, now, limit - 1, locked + {r.value})
  }

  /** What the query promises: due rows in order, and only later ones left behind. */
  ghost predicate IsBatch(rows: seq<Message>, now: int, limit: nat, locked: set<nat>, ids: seq<nat>) {
    && |ids| <= limit
    && (forall k | 0 <= k < |ids| :: Due(rows, ids[k], now, locked))
    && (forall k, l | 0 <= k < l < |ids| :: Before(rows, ids[k], ids[l]))
    && (forall j | Due(rows, j, now, locked) && j !in ids ::
          |ids| == limit && forall k | 0 <= k < |ids| :: Before(rows, ids[k], j))
  }

  lemma {:induction false} BatchIsTheLeast(rows: seq<Message>, now: int, limit: nat, locked: set<nat>)
    ensures IsBatch(rows, now, limit, locked, Batch(rows, now, limit, locked))
    decreases limit
  {
    var r := Least(rows, now, locked, |rows|);
    if limit > 0 && r.Some? {
      var rest := Batch(rows, now, limit - 1, locked + {r.value});
      BatchIsTheLeast(rows, now, limit - 1, locked + {r.value});
      var ids := [r.value] + rest;
      forall k | 0 <= k < |rest| ensures Due(rows, rest[k], now, locked) && Before(rows, r.value, rest[k]) {
        assert Due(rows, rest[k], now, locked + {r.value});
      }
      forall j | Due(rows, j, now, locked) && j !in ids
        ensures |ids| == limit && forall k | 0 <= k < |ids| :: Before(rows, ids[k], j)
      {
        assert r.value in ids && j != r.value && j !in rest;
        assert Due(rows, j, now, locked + {r.value});
      }
    }
  }

  /** Two answers to the query agree: position by position neither can be ahead of the other. */
  lemma {:induction false} BatchIsUnique(rows: seq<Message>, now: int, limit: nat, locked: set<nat>, a: seq<nat>,
                                         b: seq<nat>, n: nat)
    requires IsBatch(rows, now, limit, locked, a) && IsBatch(rows, now, limit, locked, b)
    requires n <= |a| && n <= |b|
    ensures a[..n] == b[..n]
  {
    if n > 0 {
      BatchIsUnique(rows, now, limit, locked, a, b, n - 1);
      NotBehind(rows, now, limit, locked, a, b, n - 1);
      NotBehind(rows, now, limit, locked, b, a, n - 1);
      assert a[n - 1] == b[n - 1];
      assert a[..n] == a[..n - 1] + [a[n - 1]] && b[..n] == b[..n - 1] + [b[n - 1]];
    }
  }

  lemma NotBehind(rows: seq<Message>, now: int, limit: nat, locked: set<nat>, a: seq<nat>, b: seq<nat>, k: nat)
    requires IsBatch(rows, now, limit, locked, a) && IsBatch(rows, now, limit, locked, b)
    requires k < |a| && k < |b| && a[..k] == b[..k]
    ensures a[k] == b[k] || Before(rows, b[k], a[k])
  {
  }

  /** The answer to the query is determined: these are the least due rows, and no others. */
  lemma OnlyBatch(rows: seq<Message>, now: int, limit: nat, locked: set<nat>, ids: seq<nat>)
    requires IsBatch(rows, now, limit, locked, ids)
    ensures ids == Batch(rows, now, limit, locked)
  {
    var batch := Batch(rows, now, limit, locked);
    BatchIsTheLeast(rows, now, limit, locked);
    NotShorter(rows, now, limit, locked, ids, batch);
    NotShorter(rows, now, limit, locked, batch, ids);
    BatchIsUnique(rows, now, limit, locked, ids, batch, |ids|);
    assert ids[..|ids|] == ids && batch[..|ids|] == batch;
  }

  lemma NotShorter(rows: seq<Message>, now: int, limit: nat, locked: set<nat>, a: seq<nat>, b: seq<nat>)
    requires IsBatch(rows, now, limit, locked, a) && IsBatch(rows, now, limit, locked, b)
    ensures |a| >= |b|
  {
    if |a| < |b| {
      BatchIsUnique(rows, now, limit, locked, a, b, |a|);
      var extra := b[|a|];
      assert Due(rows, extra, now, locked);
      forall k | 0 <= k < |a| ensures a[k] != extra {
        assert b[..|a|][k] == a[..|a|][k] && Before(rows, b[k], extra);
      }
    }
  }

  // ----- the operations -----

  function Claimed(rows: seq<Message>, ids: seq<nat>): (r: seq<Message>)
    ensures |r| == |rows|
  {
    seq(|rows|, i requires 0 <= i < |rows| =>
      if i in ids then rows[i].(status := Dispatching, attempts := rows[i].attempts + 1) else rows[i])
  }

  function Enqueued(rows: seq<Message>, now: int, sendAfter: Option<int>, alertKey: Option<string>): seq<Message> {
    rows + [Message(Pending, 0, if sendAfter.Some? then sendAfter.value else now, now, alertKey)]
  }

  function MarkedSent(rows: seq<Message>, id: nat): seq<Message> {
    if id < |rows| then rows[id := rows[id].(status := Sent)] else rows
  }

  function MarkedFailed(rows: seq<Message>, id: nat, now: int): seq<Message> {
    if id >= |rows| then rows
    else if rows[id].attempts >= MAX_ATTEMPTS then rows[id := rows[id].(status := Failed)]
    else rows[id := rows[id].(status := Pending, sendAfter := now + MINUTE * Backoff(rows[id].attempts))]
  }

  /** An alert with this key is recent: some row of it, in whatever status, is due no
      earlier than a window ago. */
  predicate RecentHit(rows: seq<Message>, key: string, now: int) {
    exists i | 0 <= i < |rows| :: rows[i].alertKey == Some(key) && rows[i].sendAfter >= now - DEDUP_WINDOW
  }

  /** An empty key is no key. */
  function DedupKey(key: Option<string>): Option<string> { if key == Some("") then None else key }

  predicate Suppressed(rows: seq<Message>, key: Option<string>, now: int) {
    DedupKey(key).Some? && RecentHit(rows, DedupKey(key).value, now)
  }

  function Alerted(rows: seq<Message>, key: Option<string>, now: int, adminKnown: bool): seq<Message> {
    if !adminKnown || Suppressed(rows, key, now) then rows else Enqueued(rows, now, None, DedupKey(key))
  }

  /** The first of two messages is due earlier, or at the same time with the smaller identifier. */
  predicate Sooner(a: Message, i: int, b: Message, j: int) {
    a.sendAfter < b.sendAfter || (a.sendAfter == b.sendAfter && i < j)
  }

  lemma BatchByRows(rows: seq<Message>, now: int, limit: nat, locked: set<nat>, ids: seq<nat>)
    requires IsBatch(rows, now, limit, locked, ids)
    ensures |ids| <= limit && forall k | 0 <= k < |ids| ::
              ids[k] < |rows| && rows[ids[k]].status == Pending && rows[ids[k]].sendAfter <= now && ids[k] !in locked
    ensures forall k, l | 0 <= k < l < |ids| :: Sooner(rows[ids[k]], ids[k], rows[ids[l]], ids[l])
    ensures forall j | 0 <= j < |rows| && j !in ids && rows[j].status == Pending && rows[j].sendAfter <= now
                       && j !in locked ::
              |ids| == limit && forall k | 0 <= k < |ids| :: Sooner(rows[ids[k]], ids[k], rows[j], j)
  {
    assert forall k | 0 <= k < |ids| :: Due(rows, ids[k], now, locked);
    assert forall k, l | 0 <= k < l < |ids| :: Before(rows, ids[k], ids[l]);
    forall j | 0 <= j < |rows| && j !in ids && rows[j].status == Pending && rows[j].sendAfter <= now && j !in locked
      ensures |ids| == limit && forall k | 0 <= k < |ids| :: Sooner(rows[ids[k]], ids[k], rows[j], j)
    {
      assert Due(rows, j, now, locked);
      assert forall k | 0 <= k < |ids| :: Before(rows, ids[k], j);
    }
  }

  lemma NoneTwice(rows: seq<Message>, now: int, limit: nat, locked: set<nat>, ids: seq<nat>)
    requires IsBatch(rows, now, limit, locked, ids)
    ensures forall k | 0 <= k < |ids| :: ids[k] < |rows|
    ensures forall k, l | 0 <= k < l < |ids| :: ids[k] != ids[l]
  {
    assert forall k | 0 <= k < |ids| :: Due(rows, ids[k], now, locked);
    assert forall k, l | 0 <= k < l < |ids| :: Before(rows, ids[k], ids[l]);
  }

  lemma ClaimedByRows(rows: seq<Message>, ids: seq<nat>)
    ensures forall i | 0 <= i < |rows| ::
              Claimed(rows, ids)[i] == if i in ids
                then rows[i].(status := Dispatching, attempts := rows[i].attempts + 1)
                                       else rows[i]
  {
  }

  lemma ClaimedNone(rows: seq<Message>)
    ensures Claimed(rows, []) == rows
  {
  }

  lemma ClaimedNext(rows: seq<Message>, ids: seq<nat>, k: nat)
    requires k < |ids| && ids[k] < |rows| && forall l | 0 <= l < k :: ids[l] != ids[k]
    ensures Claimed(rows, ids[..k])[ids[k]] == rows[ids[k]]
    ensures Claimed(rows, ids[..k + 1])
            == Claimed(rows, ids[..k])[ids[k] :=
                                       rows[ids[k]].(status := Dispatching, attempts := rows[ids[k]].attempts + 1)]
  {
    assert ids[..k + 1] == ids[..k] + [ids[k]];
  }

  /** What a failed attempt makes of a message: pending again after 2, 4, 8 or 16 minutes, or failed. */
  function Retried(m: Message, now: int): Message {
    if m.attempts >= 5 then m.(status := Failed)
    else
      m.(status := Pending,
         sendAfter := now + if m.attempts == 0 then 60 else if m.attempts == 1 then 120 else if m.attempts == 2 then 240
                            else if m.attempts == 3 then 480 else 960)
  }

  lemma FailureRetries(rows: seq<Message>, id: nat, now: int)
    ensures MarkedFailed(rows, id, now) == if id < |rows| then rows[id := Retried(rows[id], now)] else rows
  {
    if id < |rows| {
      BackoffMinutes(rows[id].attempts);
    }
  }

  /** The same alert was last due no more than ten minutes ago, or is still to come. */
  predicate Repeats(rows: seq<Message>, key: Option<string>, now: int) {
    key.Some? && key.value != "" && exists i | 0 <= i < |rows| ::
      rows[i].alertKey == key && rows[i].sendAfter >= now - 600
  }

  /** An alert is enqueued, due at once, unless there is no admin or it repeats one. */
  lemma AlertIsSent(rows: seq<Message>, key: Option<string>, now: int, adminKnown: bool)
    ensures Suppressed(rows, key, now) <==> Repeats(rows, key, now)
    ensures Alerted(rows, key, now, adminKnown) ==
              if !adminKnown || Repeats(rows, key, now) then rows
              else rows + [Message(Pending, 0, now, now, if key == Some("") then None else key)]
  {
    if Repeats(rows, key, now) {
      var i :| 0 <= i < |rows| && rows[i].alertKey == key && rows[i].sendAfter >= now - 600;
      assert rows[i].alertKey == Some(key.value);
    }
  }

  /** The service's methods on the table. A missing message is reported to the caller. */
  class Queue {
    var rows: seq<Message>

    constructor ()
      ensures rows == []
    {
      rows := [];
    }

    method EnqueueMessage(now: int, sendAfter: Option<int>) returns (id: nat)
      modifies this
      ensures rows == Enqueued(old(rows), now, sendAfter, None) && id == |old(rows)|
      ensures rows == old(rows) + [Message(Pending, 0, if sendAfter.Some? then sendAfter.value else now, now, None)]
    {
      id := |rows|;
      var due := now;
      if sendAfter.Some? {
        due := sendAfter.value;
      }
      rows := rows + [Message(Pending, 0, due, now, None)];
    }

    /** Claim the rows the query selects: mark them as dispatching with one more attempt. */
    method FetchPending(now: int, limit: nat, locked: set<nat>) returns (ids: seq<nat>)
      modifies this
      ensures IsBatch(old(rows), now, limit, locked, ids) && ids == Batch(old(rows), now, limit, locked)
      ensures rows == Claimed(old(rows), ids)
      ensures |ids| <= limit && forall k | 0 <= k < |ids| ::
                ids[k] < |rows| && old(rows)[ids[k]].status == Pending && old(rows)[ids[k]].sendAfter <= now
                && ids[k] !in locked
      ensures forall k, l | 0 <= k < l < |ids| :: Sooner(old(rows)[ids[k]], ids[k], old(rows)[ids[l]], ids[l])
      ensures forall j | 0 <= j < |rows| && j !in ids && old(rows)[j].status == Pending && old(rows)[j].sendAfter <= now
                         && j !in locked ::
                |ids| == limit && forall k | 0 <= k < |ids| :: Sooner(old(rows)[ids[k]], ids[k], old(rows)[j], j)
      ensures |rows| == |old(rows)| && forall i | 0 <= i < |rows| ::
                rows[i] == if i in ids then old(rows)[i].(status := Dispatching, attempts := old(rows)[i].attempts + 1)
                           else old(rows)[i]
    {
      hide IsBatch, Batch, Claimed, Due, Before, Sooner;
      ids := Batch(rows, now, limit, locked);
      BatchIsTheLeast(rows, now, limit, locked);
      BatchByRows(rows, now, limit, locked, ids);
      NoneTwice(rows, now, limit, locked, ids);
      ClaimedByRows(rows, ids);
      ghost var before := rows;
      ClaimedNone(before);
      var k := 0;
      while k < |ids|
        invariant 0 <= k <= |ids|
        invariant rows == Claimed(before, ids[..k])
      {
        ClaimedNext(before, ids, k);
        var row := rows[ids[k]];
        rows := rows[ids[k] := row.(status := Dispatching, attempts := row.attempts + 1)];
        k := k + 1;
      }
      assert ids[..k] == ids;
    }

    method MarkSent(id: nat) returns (r: Result<(), string>)
      modifies this
      ensures rows == MarkedSent(old(rows), id)
      ensures r.Err? <==> id >= |old(rows)|
      ensures rows == if id < |old(rows)| then old(rows)[id := old(rows)[id].(status := Sent)] else old(rows)
    {
      if id >= |rows| {
        return Err("not found");
      }
      rows := rows[id := rows[id].(status := Sent)];
      return Ok(());
    }

    method MarkFailed(id: nat, now: int) returns (r: Result<(), string>)
      modifies this
      ensures rows == MarkedFailed(old(rows), id, now)
      ensures r.Err? <==> id >= |old(rows)|
      ensures rows == if id < |old(rows)| then old(rows)[id := Retried(old(rows)[id], now)] else old(rows)
    {
      FailureRetries(rows, id, now);
      if id >= |rows| {
        return Err("not found");
      }
      var msg := rows[id];
      if msg.attempts >= MAX_ATTEMPTS {
        msg := msg.(status := Failed);
      } else {
        msg := msg.(status := Pending, sendAfter := now + MINUTE * Backoff(msg.attempts));
      }
      rows := rows[id := msg];
      return Ok(());
    }

    method SendAdminAlert(key: Option<string>, now: int, adminKnown: bool) returns (enqueued: bool)
      modifies this
      ensures rows == Alerted(old(rows), key, now, adminKnown)
      ensures enqueued <==> adminKnown && !Repeats(old(rows), key, now)
      ensures rows == if enqueued then old(rows)
                + [Message(Pending, 0, now, now, if key == Some("") then None else key)]
                      else old(rows)
    {
      AlertIsSent(rows, key, now, adminKnown);
      if !adminKnown {
        return false;
      }
      if key.Some? && key.value != "" && RecentHit(rows, key.value, now) {
        return false;
      }
      rows := rows + [Message(Pending, 0, now, now, DedupKey(key))];
      return true;
    }
  }
}
