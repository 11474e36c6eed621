/** Runs of the outbox under a monotone clock, with workers that mark only the
    messages they are dispatching. */
module OutboxRuns {
  import opened Options
  import opened Sums
  import opened Outbox

  /** Each event happens dt seconds after the one before it. */
  datatype Event =
    | Enqueue(dt: nat, sendAfter: Option<int>)
    | Fetch(dt: nat, limit: nat, locked: set<nat>)
    | Deliver(dt: nat, id: nat)
    | Fail(dt: nat, id: nat)
    | Alert(dt: nat, key: Option<string>, adminKnown: bool)

  datatype State = State(rows: seq<Message>, clock: int)

  predicate Held(rows: seq<Message>, id: nat) { id < |rows| && rows[id].status.Dispatching? }

  function Picked(st: State, e: Event): seq<nat> {
    if e.Fetch? then Batch(st.rows, st.clock + e.dt, e.limit, e.locked) else []
  }

  function Step(st: State, e: Event): State {
    var now := st.clock + e.dt;
    match e
    case Enqueue(_, sendAfter) => State(Enqueued(st.rows, now, sendAfter, None), now)
    case Fetch(_, _, _) => State(Claimed(st.rows, Picked(st, e)), now)
    case Deliver(_, id) => State(if Held(st.rows, id) then MarkedSent(st.rows, id) else st.rows, now)
    case Fail(_, id) => State(if Held(st.rows, id) then MarkedFailed(st.rows, id, now) else st.rows, now)
    case Alert(_, key, adminKnown) => State(Alerted(st.rows, key, now, adminKnown), now)
  }

  /** Each event does to the queue what its service does, at the clock it moves to. */
  lemma StepServes(st: State, e: Event)
    ensures var now := st.clock + e.dt; var st' := Step(st, e);
            && st'.clock == now
            && (e.Enqueue? ==>
                  st'.rows == st.rows + [Message(Pending, 0, if e.sendAfter.Some? then e.sendAfter.value
                                                 else now, now, None)])
            && (e.Deliver? ==>
                  st'.rows == if e.id < |st.rows| && st.rows[e.id].status == Dispatching
                              then st.rows[e.id := st.rows[e.id].(status := Sent)] else st.rows)
            && (e.Fail? ==>
                  st'.rows == if e.id < |st.rows| && st.rows[e.id].status == Dispatching
                              then st.rows[e.id := Retried(st.rows[e.id], now)] else st.rows)
            && (e.Alert? ==>
                  st'.rows == if !e.adminKnown || Repeats(st.rows, e.key, now) then st.rows
                              else st.rows + [Message(Pending, 0, now, now, if e.key == Some("") then None else e.key)])
            && (e.Fetch? ==>
                  && IsBatch(st.rows, now, e.limit, e.locked, Picked(st, e)) && |st'.rows| == |st.rows|
                  && forall i | 0 <= i < |st.rows| ::
                       st'.rows[i] == if i in Picked(st, e)
                                      then st.rows[i].(status := Dispatching, attempts := st.rows[i].attempts + 1)
                                      else st.rows[i])
  {
    if e.Fetch? {
      BatchIsTheLeast(st.rows, st.clock + e.dt, e.limit, e.locked);
    } else if e.Fail? {
      FailureRetries(st.rows, e.id, st.clock + e.dt);
    } else if e.Alert? {
      AlertIsSent(st.rows, e.key, st.clock + e.dt, e.adminKnown);
    }
    hide IsBatch, Batch, MarkedFailed, Alerted, Repeats, Retried;
  }

  function RunFrom(st: State, events: seq<Event>): State {
    if |events| == 0 then st else Step(RunFrom(st, events[..|events| - 1]), events[|events| - 1])
  }

  function Run(events: seq<Event>): State { RunFrom(State([], 0), events) }

  // ----- the invariant -----

  ghost predicate MessageOk(m: Message, clock: int) {
    && (m.status.Pending? ==> m.attempts < MAX_ATTEMPTS)
    && (m.status.Dispatching? ==> 1 <= m.attempts <= MAX_ATTEMPTS)
    && (m.status.Sent? ==> 1 <= m.attempts <= MAX_ATTEMPTS)
    && (m.status.Failed? ==> m.attempts == MAX_ATTEMPTS)
    && m.createdAt <= clock
    && (m.alertKey.Some? ==> m.sendAfter >= m.createdAt)
  }

  /** Alerts of one key are more than a window apart, however their due times have moved. */
  ghost predicate AlertsApart(rows: seq<Message>) {
    forall i, j | 0 <= i < j < |rows| && rows[i].alertKey.Some? && rows[i].alertKey == rows[j].alertKey ::
      rows[j].createdAt - rows[i].createdAt > DEDUP_WINDOW
  }

  ghost predicate QueueOk(st: State) {
    && (forall i | 0 <= i < |st.rows| :: MessageOk(st.rows[i], st.clock))
    && AlertsApart(st.rows)
  }

  /** Updates of status, attempts and due time that move no alert's due time back. */
  lemma UpdatesKeepAlerts(rows: seq<Message>, rows': seq<Message>)
    requires AlertsApart(rows) && |rows'| == |rows|
    requires forall i | 0 <= i < |rows| ::
               rows'[i].alertKey == rows[i].alertKey && rows'[i].createdAt == rows[i].createdAt
    ensures AlertsApart(rows')
  {
  }

  lemma PickedIsPending(st: State, e: Event, id: nat)
    requires id in Picked(st, e)
    ensures id < |st.rows| && st.rows[id].status.Pending? && st.rows[id].sendAfter <= st.clock + e.dt
  {
    BatchIsTheLeast(st.rows, st.clock + e.dt, e.limit, e.locked);
    assert Due(st.rows, id, st.clock + e.dt, e.locked);
  }

  /** A claimed row was pending, so it had an attempt left. */
  lemma ClaimKeepsMessage(st: State, e: Event, i: nat)
    requires i < |st.rows| && MessageOk(st.rows[i], st.clock) && e.Fetch?
    ensures MessageOk(Claimed(st.rows, Picked(st, e))[i], st.clock + e.dt)
  {
    hide Picked;
    if i in Picked(st, e) {
      PickedIsPending(st, e, i);
    }
  }

  lemma ClaimedRows(rows: seq<Message>, ids: seq<nat>)
    ensures forall i | 0 <= i < |rows| ::
              Claimed(rows, ids)[i].alertKey == rows[i].alertKey && Claimed(rows, ids)[i].createdAt == rows[i].createdAt
  {
  }

  lemma ClaimKeepsOk(st: State, e: Event)
    requires QueueOk(st) && e.Fetch?
    ensures QueueOk(State(Claimed(st.rows, Picked(st, e)), st.clock + e.dt))
  {
    hide Picked, MessageOk, AlertsApart, Claimed;
    var rows' := Claimed(st.rows, Picked(st, e));
    ClaimedRows(st.rows, Picked(st, e));
    UpdatesKeepAlerts(st.rows, rows');
    forall i | 0 <= i < |rows'| ensures MessageOk(rows'[i], st.clock + e.dt) {
      ClaimKeepsMessage(st, e, i);
    }
  }

  lemma FetchKeepsOk(st: State, e: Event)
    requires QueueOk(st) && e.Fetch?
    ensures QueueOk(Step(st, e))
  {
    hide QueueOk, Picked, Claimed;
    ClaimKeepsOk(st, e);
  }

  lemma MarkKeepsOk(st: State, e: Event)
    requires QueueOk(st) && (e.Deliver? || e.Fail?)
    ensures QueueOk(Step(st, e))
  {
  }

  lemma InsertKeepsOk(st: State, e: Event)
    requires QueueOk(st) && (e.Enqueue? || e.Alert?)
    ensures QueueOk(Step(st, e))
  {
  }

  lemma {:induction false} RunIsOk(events: seq<Event>)
    ensures QueueOk(Run(events))
  {
    hide QueueOk, Step;
    if |events| == 0 {
      EmptyIsOk();
    } else {
      var st, e := Run(events[..|events| - 1]), events[|events| - 1];
      RunIsOk(events[..|events| - 1]);
      match e
      case Fetch(_, _, _) => FetchKeepsOk(st, e);
      case Deliver(_, _) => MarkKeepsOk(st, e);
      case Fail(_, _) => MarkKeepsOk(st, e);
      case Enqueue(_, _) => InsertKeepsOk(st, e);
      case Alert(_, _, _) => InsertKeepsOk(st, e);
    }
  }

  lemma EmptyIsOk()
    ensures QueueOk(State([], 0))
  {
  }

  // ----- attempts count the claims, and are bounded -----

  /** How many batches of the run held the message. */
  function Claims(events: seq<Event>, id: nat): nat {
    if |events| == 0 then 0
    else
      var n := |events| - 1;
      Claims(events[..n], id) + if id in Picked(Run(events[..n]), events[n]) then 1 else 0
  }

  /** How many times the run touched the message: claims, deliveries and failures of a held message. */
  function Touches(events: seq<Event>, id: nat): nat {
    if |events| == 0 then 0
    else
      var n := |events| - 1;
      var st, e := Run(events[..n]), events[n];
      Touches(events[..n], id)
      + if id in Picked(st, e) || ((e.Deliver? || e.Fail?) && e.id == id && Held(st.rows, id)) then 1 else 0
  }

  /** What is left to do for a message. */
  function Fuel(m: Message): int {
    match m.status
    case Pending => 2 * (MAX_ATTEMPTS - m.attempts)
    case Dispatching => 2 * (MAX_ATTEMPTS - m.attempts) + 1
    case Sent => 0
    case Failed => 0
  }

  /** One event, seen from one message. */
  lemma StepOnMessage(st: State, e: Event, id: nat)
    requires QueueOk(st) && id < |st.rows|
    ensures var m, m' := st.rows[id], Step(st, e).rows[id];
            if id in Picked(st, e) then m'.attempts == m.attempts + 1 && Fuel(m') < Fuel(m)
            else if (e.Deliver? || e.Fail?) && e.id == id && Held(st.rows, id) then
              m'.attempts == m.attempts && Fuel(m') < Fuel(m)
            else m' == m
  {
    assert MessageOk(st.rows[id], st.clock);
    if id in Picked(st, e) {
      PickedIsPending(st, e, id);
    }
  }

  /** A new message starts with nothing claimed. */
  lemma StepInserts(st: State, e: Event, id: nat)
    requires |st.rows| <= id
    ensures id !in Picked(st, e)
    ensures id < |Step(st, e).rows| ==> Step(st, e).rows[id].status.Pending? && Step(st, e).rows[id].attempts == 0
  {
    if id in Picked(st, e) {
      PickedIsPending(st, e, id);
    }
  }

  lemma {:induction false} Unborn(events: seq<Event>, id: nat)
    requires |Run(events).rows| <= id
    ensures Claims(events, id) == 0 && Touches(events, id) == 0
  {
    if |events| > 0 {
      var st, e := Run(events[..|events| - 1]), events[|events| - 1];
      RowsGrow(st, e);
      Unborn(events[..|events| - 1], id);
      StepInserts(st, e, id);
    }
  }

  lemma RowsGrow(st: State, e: Event)
    ensures |st.rows| <= |Step(st, e).rows| <= |st.rows| + 1
  {
  }

  /** Over any run, attempts is the number of batches that held the message and never exceeds
      the maximum; and a message is touched at most twice per attempt, so it cannot be
      retried forever. */
  lemma {:induction false} AttemptsCountClaims(events: seq<Event>, id: nat)
    requires id < |Run(events).rows|
    ensures var m := Run(events).rows[id];
            && m.attempts == Claims(events, id) <= MAX_ATTEMPTS
            && Touches(events, id) + Fuel(m) <= 2 * MAX_ATTEMPTS
            && Touches(events, id) <= 2 * MAX_ATTEMPTS
  {
    RunIsOk(events);
    assert MessageOk(Run(events).rows[id], Run(events).clock);
    var n := |events| - 1;
    var st, e := Run(events[..n]), events[n];
    RowsGrow(st, e);
    RunIsOk(events[..n]);
    hide Run, QueueOk, Picked, MessageOk;
    RunStep(events);
    if id < |st.rows| {
      AttemptsCountClaims(events[..n], id);
      StepOnMessage(st, e, id);
    } else {
      Unborn(events[..n], id);
      StepInserts(st, e, id);
    }
  }

  lemma RunStep(events: seq<Event>)
    requires |events| > 0
    ensures Run(events) == Step(Run(events[..|events| - 1]), events[|events| - 1])
  {
  }

  // ----- batches are disjoint -----

  lemma {:induction false} NotPendingStays(st: State, events: seq<Event>, id: nat)
    requires id < |st.rows| && !st.rows[id].status.Pending?
    requires forall e | e in events :: !(e.Fail? && e.id == id)
    ensures id < |RunFrom(st, events).rows| && !RunFrom(st, events).rows[id].status.Pending?
  {
    if |events| > 0 {
      NotPendingStays(st, events[..|events| - 1], id);
    }
  }

  /** A claimed message is in no later batch unless it has failed in between. */
  lemma BatchesAreDisjoint(st: State, first: Event, between: seq<Event>, later: Event, id: nat)
    requires id in Picked(st, first)
    requires forall e | e in between :: !(e.Fail? && e.id == id)
    ensures id !in Picked(RunFrom(Step(st, first), between), later)
  {
    PickedIsPending(st, first, id);
    var st1 := Step(st, first);
    NotPendingStays(st1, between, id);
    var st2 := RunFrom(st1, between);
    if id in Picked(st2, later) {
      PickedIsPending(st2, later, id);
    }
  }

  /** After a failed attempt the next claim waits for the backoff. */
  lemma {:induction false} RetryWaits(st: State, fail: Event, between: seq<Event>, next: Event, id: nat)
    requires fail.Fail? && fail.id == id && Held(st.rows, id) && st.rows[id].attempts < MAX_ATTEMPTS
    requires id in Picked(RunFrom(Step(st, fail), between), next)
    requires forall k | 0 <= k < |between| :: id !in Picked(RunFrom(Step(st, fail), between[..k]), between[k])
    ensures RunFrom(Step(st, fail), between).clock + next.dt
            >= Retried(st.rows[id], st.clock + fail.dt).sendAfter
  {
    FailureRetries(st.rows, id, st.clock + fail.dt);
    var st1 := Step(st, fail);
    Untouched(st1, between, id);
    PickedIsPending(RunFrom(st1, between), next, id);
  }

  lemma PendingStays(st: State, e: Event, id: nat)
    requires id < |st.rows| && st.rows[id].status.Pending? && id !in Picked(st, e)
    ensures id < |Step(st, e).rows| && Step(st, e).rows[id] == st.rows[id]
  {
  }

  lemma {:induction false} Untouched(st: State, events: seq<Event>, id: nat)
    requires id < |st.rows| && st.rows[id].status.Pending?
    requires forall k | 0 <= k < |events| :: id !in Picked(RunFrom(st, events[..k]), events[k])
    ensures id < |RunFrom(st, events).rows| && RunFrom(st, events).rows[id] == st.rows[id]
  {
    hide Step, Picked;
    if |events| > 0 {
      var n := |events| - 1;
      forall k | 0 <= k < n ensures id !in Picked(RunFrom(st, events[..n][..k]), events[..n][k]) {
        assert events[..n][..k] == events[..k];
      }
      Untouched(st, events[..n], id);
      PendingStays(RunFrom(st, events[..n]), events[n], id);
    }
  }

  // ----- the rate of alerts -----

  function InWindow(key: string, from: int, length: nat): Message -> int {
    (m: Message) => if m.alertKey == Some(key) && from <= m.createdAt <= from + length then 1 else 0
  }

  /** With n alerts of the key in the window, the last lies at least n - 1 windows after its start. */
  lemma {:induction false} AlertsSpread(rows: seq<Message>, key: string, from: int, length: nat) returns (last: int)
    requires AlertsApart(rows)
    ensures var n := Sum(rows, InWindow(key, from, length));
            && 0 <= n
            && (n > 0 ==> from <= last <= from + length && DEDUP_WINDOW * (n - 1) <= last - from
                          && exists i :: 0 <= i < |rows| && rows[i].alertKey == Some(key) && rows[i].createdAt == last
                                         && forall j | i < j < |rows| && rows[j].alertKey == Some(key) ::
                                              InWindow(key, from, length)(rows[j]) == 0)
  {
    last := from;
    if |rows| > 0 {
      var n := |rows| - 1;
      last := AlertsSpread(rows[..n], key, from, length);
      if InWindow(key, from, length)(rows[n]) == 1 {
        last := rows[n].createdAt;
      }
    }
  }

  /** However often the alert is requested, a window of the given length holds at most
      length / 600 + 1 alerts of one key. */
  lemma AlertRateIsBounded(events: seq<Event>, key: string, from: int, length: nat)
    ensures Sum(Run(events).rows, InWindow(key, from, length)) <= length / DEDUP_WINDOW + 1
    ensures AlertsApart(Run(events).rows)
  {
    RunIsOk(events);
    var last := AlertsSpread(Run(events).rows, key, from, length);
  }
}
