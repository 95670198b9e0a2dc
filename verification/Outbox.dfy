/** The notification outbox: several workers reclaim, select, claim, deliver and mark rows of one table concurrently. */
module Outbox {
  import opened Common

  datatype Status = Pending | Processing | Sent | Skipped | Failed

  /** A drain of the queue is identified by the lock id it creates. */
  type Lock = nat

  /** An outbox row; expiries counts how often a lock on it was reclaimed. */
  datatype Row = Row(
    status: Status,
    lock: Option<Lock>,
    lockedAt: Option<int>,
    attempts: nat,
    nextAttemptAt: int,
    expiries: nat)

  /** What a worker remembers of a claimed row while it delivers it. */
  datatype Item = Item(attempts: nat, nextAttemptAt: int)

  datatype Drain = Drain(startedAt: int, candidates: set<string>, claimed: bool, items: map<string, Item>)

  datatype World = World(rows: map<string, Row>, drains: seq<Drain>)

  datatype Config = Config(maxAttempts: nat, lockMs: nat, baseSeconds: nat)

  ghost predicate Proper(c: Config) {
    c.maxAttempts > 0 && c.lockMs > 0 && c.baseSeconds > 0
  }

  /** How a delivery attempt ended. */
  datatype Result = Delivered | NoTarget | Error(retryable: bool)

  datatype Step =
    | Enqueue(id: string, now: int)
    | Reclaim(now: int)
    | Select(now: int, chosen: set<string>)
    | Claim(lock: Lock)
    | Fetch(lock: Lock)
    | Mark(lock: Lock, id: string, result: Result, now: int)

  // ---------- one step ----------

  function Power2(n: nat): nat {
    if n == 0 then 1 else 2 * Power2(n - 1)
  }

  function BackoffMs(c: Config, attempts: nat): int {
    Min(c.baseSeconds * Power2(Max(0, attempts - 1)), 3600) * 1000
  }

  predicate Expired(c: Config, r: Row, now: int) {
    r.status == Processing && r.lockedAt.Some? && r.lockedAt.value < now - c.lockMs
  }

  function Released(r: Row): Row {
    r.(status := Pending, lock := None, lockedAt := None, expiries := r.expiries + 1)
  }

  predicate Eligible(r: Row, now: int) {
    r.status == Pending && r.nextAttemptAt <= now && r.lock == None
  }

  predicate Claimable(r: Row) {
    r.status == Pending && r.lock == None
  }

  function Claimed(r: Row, lock: Lock, at: int): Row {
    r.(status := Processing, lock := Some(lock), lockedAt := Some(at), attempts := r.attempts + 1)
  }

  predicate HeldBy(r: Row, lock: Lock) {
    r.status == Processing && r.lock == Some(lock)
  }

  function Retry(c: Config, item: Item, result: Result): bool {
    result.Error? && result.retryable && item.attempts < c.maxAttempts
  }

  /** The row after its holder reports; the decision uses the attempts the worker remembers. */
  function Marked(c: Config, r: Row, item: Item, result: Result, now: int): Row {
    var r' := r.(lock := None, lockedAt := None);
    match result
    case Delivered => r'.(status := Sent)
    case NoTarget => r'.(status := Skipped)
    case Error(_) =>
      if Retry(c, item, result)
      then r'.(status := Pending, nextAttemptAt := now + BackoffMs(c, item.attempts))
      else r'.(status := Failed, nextAttemptAt := item.nextAttemptAt)
  }

  function Next(c: Config, w: World, s: Step): World {
    match s
    case Enqueue(id, now) =>
      if id in w.rows then w else w.(rows := w.rows[id := Row(Pending, None, None, 0, now, 0)])
    case Reclaim(now) =>
      w.(rows := map id | id in w.rows :: if Expired(c, w.rows[id], now) then Released(w.rows[id]) else w.rows[id])
    case Select(now, chosen) =>
      if forall id :: id in chosen ==> id in w.rows && Eligible(w.rows[id], now)
      then w.(drains := w.drains + [Drain(now, chosen, false, map[])]) else w
    case Claim(lock) =>
      if lock < |w.drains| && !w.drains[lock].claimed then
        var d := w.drains[lock];
        World(map id | id in w.rows :: if id in d.candidates && Claimable(w.rows[id])
                                       then Claimed(w.rows[id], lock, d.startedAt) else w.rows[id],
              w.drains[lock := d.(claimed := true)])
      else w
    case Fetch(lock) =>
      if lock < |w.drains| && w.drains[lock].claimed then
        var items := map id | id in w.rows && HeldBy(w.rows[id], lock) :: Item(w.rows[id].attempts, w.rows[id].nextAttemptAt);
        w.(drains := w.drains[lock := w.drains[lock].(items := items)])
      else w
    case Mark(lock, id, result, now) =>
      if lock < |w.drains| && id in w.drains[lock].items && id in w.rows && HeldBy(w.rows[id], lock)
      then w.(rows := w.rows[id := Marked(c, w.rows[id], w.drains[lock].items[id], result, now)]) else w
  }

  function Run(c: Config, w: World, steps: seq<Step>): World
    decreases |steps|
  {
    if steps == [] then w else Run(c, Next(c, w, steps[0]), steps[1..])
  }

  const EMPTY := World(map[], [])

  // ---------- what every interleaving keeps ----------

  predicate Terminal(s: Status) {
    s == Sent || s == Skipped || s == Failed
  }

  ghost predicate RowOk(c: Config, w: World, r: Row) {
    && (r.status == Processing <==> r.lock.Some?)
    && (r.lock.Some? <==> r.lockedAt.Some?)
    && (r.lock.Some? ==> r.lock.value < |w.drains| && w.drains[r.lock.value].claimed)
    && r.attempts <= c.maxAttempts + r.expiries
    && (r.status == Pending ==> r.attempts < c.maxAttempts + r.expiries)
  }

  ghost predicate DrainOk(w: World, lock: Lock)
    requires lock < |w.drains|
  {
    var d := w.drains[lock];
    && (!d.claimed ==> d.items == map[])
    && forall id :: id in d.items && id in w.rows && w.rows[id].lock == Some(lock) ==>
                      d.items[id] == Item(w.rows[id].attempts, w.rows[id].nextAttemptAt)
  }

  ghost predicate Inv(c: Config, w: World) {
    && (forall id :: id in w.rows ==> RowOk(c, w, w.rows[id]))
    && (forall lock :: 0 <= lock < |w.drains| ==> DrainOk(w, lock))
  }

  /** How a step may change one row. */
  ghost predicate RowStep(c: Config, w: World, s: Step, id: string, a: Row, b: Row) {
    || b == a
    || (s.Reclaim? && Expired(c, a, s.now) && b == Released(a))
    || (s.Claim? && Claimable(a) && s.lock < |w.drains| && !w.drains[s.lock].claimed
        && b == Claimed(a, s.lock, w.drains[s.lock].startedAt))
    || (s.Mark? && s.id == id && HeldBy(a, s.lock) && s.lock < |w.drains| && id in w.drains[s.lock].items
        && b == Marked(c, a, w.drains[s.lock].items[id], s.result, s.now))
  }

  lemma RowsMoveOneWay(c: Config, w: World, s: Step, id: string)
    requires id in w.rows
    ensures id in Next(c, w, s).rows && RowStep(c, w, s, id, w.rows[id], Next(c, w, s).rows[id])
  {
  }

  lemma RowStaysOk(c: Config, w: World, s: Step, id: string)
    requires Proper(c) && Inv(c, w) && id in Next(c, w, s).rows
    ensures RowOk(c, Next(c, w, s), Next(c, w, s).rows[id])
  {
    if id in w.rows {
      RowsMoveOneWay(c, w, s, id);
      assert RowOk(c, w, w.rows[id]);
      if s.Mark? && s.lock < |w.drains| {
        assert DrainOk(w, s.lock);
      }
    }
  }

  lemma DrainStaysOk(c: Config, w: World, s: Step, lock: Lock)
    requires Inv(c, w) && lock < |Next(c, w, s).drains|
    ensures DrainOk(Next(c, w, s), lock)
  {
    if lock < |w.drains| {
      assert DrainOk(w, lock);
      var w' := Next(c, w, s);
      forall id | id in w'.drains[lock].items && id in w'.rows && w'.rows[id].lock == Some(lock)
        ensures w'.drains[lock].items[id] == Item(w'.rows[id].attempts, w'.rows[id].nextAttemptAt)
      {
        if id in w.rows {
          RowsMoveOneWay(c, w, s, id);
        }
      }
    }
  }

  lemma NextKeepsInv(c: Config, w: World, s: Step)
    requires Proper(c) && Inv(c, w)
    ensures Inv(c, Next(c, w, s))
  {
    var w' := Next(c, w, s);
    forall id | id in w'.rows
      ensures RowOk(c, w', w'.rows[id])
    {
      RowStaysOk(c, w, s, id);
    }
    forall lock | 0 <= lock < |w'.drains|
      ensures DrainOk(w', lock)
    {
      DrainStaysOk(c, w, s, lock);
    }
  }

  lemma {:induction false} RunsKeepInv(c: Config, w: World, steps: seq<Step>)
    requires Proper(c) && Inv(c, w)
    ensures Inv(c, Run(c, w, steps))
    decreases |steps|
  {
    if steps != [] {
      NextKeepsInv(c, w, steps[0]);
      RunsKeepInv(c, Next(c, w, steps[0]), steps[1..]);
    }
  }

  /** Processing is exactly holding a lock, each lock belongs to one drain that has claimed, and no row is ever tried more
      often than the limit plus the number of locks that expired on it. */
  lemma ReachableRows(c: Config, steps: seq<Step>, id: string)
    requires Proper(c) && id in Run(c, EMPTY, steps).rows
    ensures var w := Run(c, EMPTY, steps);
            var r := w.rows[id];
            && (r.status == Processing <==> r.lock.Some?)
            && (r.lock.Some? ==> r.lock.value < |w.drains| && w.drains[r.lock.value].claimed)
            && r.attempts <= c.maxAttempts + r.expiries
  {
    RunsKeepInv(c, EMPTY, steps);
  }

  /** Sent, skipped and failed rows never change again. */
  lemma {:induction false} TerminalRowsAreFrozen(c: Config, w: World, steps: seq<Step>, id: string)
    requires Proper(c) && Inv(c, w) && id in w.rows && Terminal(w.rows[id].status)
    ensures id in Run(c, w, steps).rows && Run(c, w, steps).rows[id] == w.rows[id]
    decreases |steps|
  {
    if steps != [] {
      NextKeepsInv(c, w, steps[0]);
      RowsMoveOneWay(c, w, steps[0], id);
      TerminalRowsAreFrozen(c, Next(c, w, steps[0]), steps[1..], id);
    }
  }

  /** Once a drain has lost its lock on a row it never gets it back, so whatever it reports about that row, however late,
      changes nothing. */
  lemma {:induction false} ExpiredWorkerIsPowerless(c: Config, w: World, steps: seq<Step>, lock: Lock, id: string, result: Result, now: int)
    requires id in w.rows && w.rows[id].lock != Some(lock)
    requires lock < |w.drains| && w.drains[lock].claimed
    ensures var w' := Run(c, w, steps);
            id in w'.rows && w'.rows[id].lock != Some(lock) && Next(c, w', Mark(lock, id, result, now)) == w'
    decreases |steps|
  {
    if steps != [] {
      var w1 := Next(c, w, steps[0]);
      RowsMoveOneWay(c, w, steps[0], id);
      assert lock < |w1.drains| && w1.drains[lock].claimed;
      ExpiredWorkerIsPowerless(c, w1, steps[1..], lock, id, result, now);
    }
  }

  /** A row in delivery is moved only by the drain that holds it, or by a reclaim after the lock has run out. */
  lemma OnlyTheHolderMoves(c: Config, w: World, s: Step, id: string)
    requires Inv(c, w) && id in w.rows && w.rows[id].status == Processing && Next(c, w, s).rows[id] != w.rows[id]
    ensures || (s.Mark? && s.id == id && w.rows[id].lock == Some(s.lock))
            || (s.Reclaim? && w.rows[id].lockedAt.value + c.lockMs < s.now)
  {
    RowsMoveOneWay(c, w, s, id);
    assert RowOk(c, w, w.rows[id]);
  }

  // ---------- termination ----------

  /** How many more moves a row can make if no further lock on it expires. */
  function Rank(c: Config, r: Row): int {
    match r.status
    case Pending => 2 * (c.maxAttempts + r.expiries - r.attempts)
    case Processing => 2 * (c.maxAttempts + r.expiries - r.attempts) + 1
    case _ => 0
  }

  lemma MovesLowerTheRank(c: Config, w: World, s: Step, id: string)
    requires Proper(c) && Inv(c, w) && id in w.rows
    ensures var a, b := w.rows[id], Next(c, w, s).rows[id];
            && 0 <= Rank(c, b)
            && (Rank(c, a) == 0 <==> Terminal(a.status))
            && (s.Reclaim? && b != a ==> b.expiries == a.expiries + 1 && Rank(c, b) == Rank(c, a) + 1)
            && (!s.Reclaim? && b != a ==> b.expiries == a.expiries && Rank(c, b) < Rank(c, a))
  {
    NextKeepsInv(c, w, s);
    RowsMoveOneWay(c, w, s, id);
    assert RowOk(c, w, w.rows[id]) && RowOk(c, Next(c, w, s), Next(c, w, s).rows[id]);
    assert s.Mark? && s.lock < |w.drains| ==> DrainOk(w, s.lock);
  }

  /** The claims and marks that really moved a row. */
  function Moves(c: Config, w: World, steps: seq<Step>, id: string): nat
    decreases |steps|
  {
    if steps == [] then 0
    else
      var w' := Next(c, w, steps[0]);
      (if id in w.rows && id in w'.rows && w'.rows[id] != w.rows[id] && !steps[0].Reclaim? then 1 else 0)
      + Moves(c, w', steps[1..], id)
  }

  /** In any run a row makes at most its rank plus one move for each lock that expires meanwhile;
      a fresh row therefore makes at most twice the attempt limit plus its expiries. */
  lemma {:induction false} MovesAreBounded(c: Config, w: World, steps: seq<Step>, id: string)
    requires Proper(c) && Inv(c, w) && id in w.rows
    ensures var w' := Run(c, w, steps);
            id in w'.rows && w'.rows[id].expiries >= w.rows[id].expiries
            && Moves(c, w, steps, id) + Rank(c, w'.rows[id]) <= Rank(c, w.rows[id]) + (w'.rows[id].expiries - w.rows[id].expiries)
    decreases |steps|
  {
    if steps != [] {
      RowsMoveOneWay(c, w, steps[0], id);
      MovesLowerTheRank(c, w, steps[0], id);
      NextKeepsInv(c, w, steps[0]);
      MovesAreBounded(c, Next(c, w, steps[0]), steps[1..], id);
    }
  }

  /** No row is ever stuck: from every reachable state there is a way to get it sent. */
  lemma NoRowIsStuck(c: Config, w: World, id: string) returns (steps: seq<Step>)
    requires Proper(c) && Inv(c, w) && id in w.rows && !Terminal(w.rows[id].status)
    ensures id in Run(c, w, steps).rows && Run(c, w, steps).rows[id].status == Sent
  {
    var r := w.rows[id];
    assert RowOk(c, w, r);
    if r.status == Pending {
      steps := SendPending(c, w, id);
    } else {
      var reclaim := Reclaim(r.lockedAt.value + c.lockMs + 1);
      var w' := Next(c, w, reclaim);
      assert w'.rows[id] == Released(r);
      var rest := SendPending(c, w', id);
      steps := [reclaim] + rest;
      assert steps[1..] == rest;
    }
  }

  lemma SendPending(c: Config, w: World, id: string) returns (steps: seq<Step>)
    requires id in w.rows && w.rows[id].status == Pending && w.rows[id].lock == None
    ensures id in Run(c, w, steps).rows && Run(c, w, steps).rows[id].status == Sent
  {
    var at := w.rows[id].nextAttemptAt;
    var lock := |w.drains|;
    var s0, s1, s2, s3 := Select(at, {id}), Claim(lock), Fetch(lock), Mark(lock, id, Delivered, at);
    var w1 := Next(c, w, s0);
    assert w1.drains[lock] == Drain(at, {id}, false, map[]);
    var w2 := Next(c, w1, s1);
    assert HeldBy(w2.rows[id], lock);
    var w3 := Next(c, w2, s2);
    assert id in w3.drains[lock].items;
    var w4 := Next(c, w3, s3);
    steps := [s0, s1, s2, s3];
    assert steps[1..] == [s1, s2, s3] && steps[1..][1..] == [s2, s3] && steps[1..][1..][1..] == [s3];
    assert steps[1..][1..][1..][1..] == [];
    assert Run(c, w4, []) == w4;
    assert Run(c, w3, [s3]) == w4;
    assert Run(c, w2, [s2, s3]) == w4;
    assert Run(c, w1, [s1, s2, s3]) == w4;
  }

  /** The backoff never shrinks as attempts grow and never exceeds an hour. */
  lemma {:induction false} BackoffGrowsToAnHour(c: Config, a: nat, b: nat)
    requires a <= b
    ensures 0 <= BackoffMs(c, a) <= BackoffMs(c, b) <= HOUR
    decreases b - a
  {
    if a < b {
      BackoffGrowsToAnHour(c, a, b - 1);
      TimesGrows(c.baseSeconds, Power2(Max(0, b - 2)), Power2(Max(0, b - 1)));
    }
  }

  lemma TimesGrows(k: nat, x: nat, y: nat)
    requires x <= y
    ensures k * x <= k * y
  {
  }

  /** It starts at the base, doubles with every attempt, and stops at an hour. */
  lemma BackoffDoubles(c: Config, attempts: nat)
    requires attempts > 0
    ensures BackoffMs(c, 1) == (if c.baseSeconds < 3600 then c.baseSeconds else 3600) * 1000
    ensures BackoffMs(c, attempts + 1) == if 2 * BackoffMs(c, attempts) < HOUR then 2 * BackoffMs(c, attempts) else HOUR
  {
    assert Power2(attempts) == 2 * Power2(attempts - 1);
    Doubled(c.baseSeconds, Power2(attempts - 1));
  }

  lemma Doubled(k: nat, x: nat)
    ensures k * (2 * x) == 2 * (k * x)
  {
  }

  // ---------- what a report leads to ----------

  /** The drain remembers the row and still holds it. */
  ghost predicate Holds(w: World, lock: Lock, id: string) {
    && lock < |w.drains| && id in w.drains[lock].items && id in w.rows
    && w.rows[id].status == Processing && w.rows[id].lock == Some(lock)
  }

  /** The holder's report decides: a retryable error below the limit puts the row back, any other error fails it, no target
      skips it, a delivery sends it. A row that was put back is not due before the base delay, an hour at most, is over. */
  lemma MarkAnswers(c: Config, w: World, lock: Lock, id: string, result: Result, now: int)
    requires Proper(c) && Inv(c, w) && Holds(w, lock, id)
    ensures var w' := Next(c, w, Mark(lock, id, result, now));
            var r, r' := w.rows[id], w'.rows[id];
            && w' == w.(rows := w.rows[id := r'])
            && (r'.status == Pending <==> result.Error? && result.retryable && r.attempts < c.maxAttempts)
            && (r'.status == Failed <==> result.Error? && !(result.retryable && r.attempts < c.maxAttempts))
            && (r'.status == Skipped <==> result == NoTarget)
            && (r'.status == Sent <==> result == Delivered)
            && r'.lock == None && r'.lockedAt == None && r'.attempts == r.attempts && r'.expiries == r.expiries
            && (r'.status != Pending ==> r'.nextAttemptAt == r.nextAttemptAt)
            && (r'.status == Pending ==> r'.nextAttemptAt == now + BackoffMs(c, r.attempts))
            && forall later :: r'.status == Pending && Eligible(r', later) ==>
                                 later >= now + (if c.baseSeconds < 3600 then c.baseSeconds else 3600) * 1000
  {
    assert DrainOk(w, lock);
    BackoffGrowsToAnHour(c, 0, w.rows[id].attempts);
    assert BackoffMs(c, 0) == (if c.baseSeconds < 3600 then c.baseSeconds else 3600) * 1000;
  }

  /** Enqueueing, reclaiming and claiming, row by row: a new row is due at once; a row is released exactly when its lock
      is older than the limit, with nothing but the lock taken off; a candidate is taken exactly when it is waiting
      unlocked, which counts one attempt. */
  lemma OtherStepsAnswer(c: Config, w: World, id: string, now: int, lock: Lock)
    ensures var w' := Next(c, w, Enqueue(id, now));
            w' == if id in w.rows then w else w.(rows := w.rows[id := Row(Pending, None, None, 0, now, 0)])
    ensures id in w.rows ==>
              var r, r' := w.rows[id], Next(c, w, Reclaim(now)).rows[id];
              r' == if r.status == Processing && r.lockedAt.Some? && now - r.lockedAt.value > c.lockMs
                    then Row(Pending, None, None, r.attempts, r.nextAttemptAt, r.expiries + 1) else r
    ensures id in w.rows && lock < |w.drains| && !w.drains[lock].claimed ==>
              var r, r' := w.rows[id], Next(c, w, Claim(lock)).rows[id];
              r' == if id in w.drains[lock].candidates && r.status == Pending && r.lock == None
                    then Row(Processing, Some(lock), Some(w.drains[lock].startedAt), r.attempts + 1, r.nextAttemptAt, r.expiries)
                    else r
  {
  }

  /** A drain starts with exactly the rows it was given when all of them are waiting unlocked and due, and with none
      otherwise; what it fetches is what it holds. */
  lemma DrainsAnswer(c: Config, w: World, now: int, chosen: set<string>, lock: Lock)
    ensures Next(c, w, Select(now, chosen))
            == if forall id :: id in chosen ==>
                    id in w.rows && w.rows[id].status == Pending && w.rows[id].lock == None && w.rows[id].nextAttemptAt <= now
               then w.(drains := w.drains + [Drain(now, chosen, false, map[])]) else w
    ensures lock < |w.drains| && w.drains[lock].claimed ==>
              forall id :: Holds(Next(c, w, Fetch(lock)), lock, id) <==>
                           id in w.rows && w.rows[id].status == Processing && w.rows[id].lock == Some(lock)
  {
    assert forall id :: id in w.rows ==>
      (Eligible(w.rows[id], now) <==> w.rows[id].status == Pending && w.rows[id].lock == None && w.rows[id].nextAttemptAt <= now);
  }

  lemma {:induction false} LastStep(c: Config, w: World, steps: seq<Step>)
    requires steps != []
    ensures Run(c, w, steps) == Next(c, Run(c, w, steps[..|steps| - 1]), steps[|steps| - 1])
    decreases |steps|
  {
    if |steps| > 1 {
      assert steps[1..][..|steps| - 2] == steps[..|steps| - 1][1..];
      LastStep(c, Next(c, w, steps[0]), steps[1..]);
    } else {
      assert steps[1..] == [] && steps[..0] == [];
    }
  }

  /** The report accounts for the way the row ended. */
  ghost predicate Explains(c: Config, r: Row, result: Result, end: Status) {
    match end
    case Sent => result == Delivered
    case Skipped => result == NoTarget
    case Failed => result.Error? && (!result.retryable || r.attempts >= c.maxAttempts)
    case _ => false
  }

  ghost predicate EndedBy(c: Config, steps: seq<Step>, k: nat, id: string, end: Status) {
    && k < |steps| && steps[k].Mark? && steps[k].id == id
    && Holds(Run(c, EMPTY, steps[..k]), steps[k].lock, id)
    && Explains(c, Run(c, EMPTY, steps[..k]).rows[id], steps[k].result, end)
  }

  /** Over every run a row is sent only on a delivery, skipped only for want of a target, and failed only on a permanent
      error or at the limit, each reported by the drain that held it. */
  lemma {:induction false} EndsAreExplained(c: Config, steps: seq<Step>, id: string)
    requires Proper(c) && id in Run(c, EMPTY, steps).rows && Terminal(Run(c, EMPTY, steps).rows[id].status)
    ensures exists k: nat :: EndedBy(c, steps, k, id, Run(c, EMPTY, steps).rows[id].status)
    decreases |steps|
  {
    var n := |steps| - 1;
    assert steps != [];
    var before, s, w := steps[..n], steps[n], Run(c, EMPTY, steps[..n]);
    var end := Run(c, EMPTY, steps).rows[id].status;
    LastStep(c, EMPTY, steps);
    RunsKeepInv(c, EMPTY, before);
    if id in w.rows {
      RowsMoveOneWay(c, w, s, id);
      assert RowOk(c, w, w.rows[id]);
      if Terminal(w.rows[id].status) {
        EndsAreExplained(c, before, id);
        var k: nat :| EndedBy(c, before, k, id, end);
        assert steps[..k] == before[..k];
        assert EndedBy(c, steps, k, id, end);
      } else {
        MarkAnswers(c, w, s.lock, id, s.result, s.now);
        assert EndedBy(c, steps, n, id, end);
      }
    }
  }

  // ---------- claims and the backoff ----------

  /** Only a report puts a row's next attempt off. */
  lemma {:induction false} OnlyReportsReschedule(c: Config, w: World, steps: seq<Step>, id: string)
    requires id in w.rows && forall i :: 0 <= i < |steps| && steps[i].Mark? ==> steps[i].id != id
    ensures id in Run(c, w, steps).rows && Run(c, w, steps).rows[id].nextAttemptAt == w.rows[id].nextAttemptAt
    decreases |steps|
  {
    if steps != [] {
      RowsMoveOneWay(c, w, steps[0], id);
      assert steps[0].Mark? ==> steps[0].id != id;
      assert forall i :: 0 <= i < |steps[1..]| ==> steps[1..][i] == steps[i + 1];
      OnlyReportsReschedule(c, Next(c, w, steps[0]), steps[1..], id);
    }
  }

  /** The claim does not look at the time again: a drain that selected the row before another drain's failed attempt takes
      it although its backoff has only begun. */
  lemma StaleClaimIgnoresBackoff(c: Config) returns (steps: seq<Step>)
    requires Proper(c) && c.maxAttempts > 1
    ensures var w := Run(c, EMPTY, steps);
            && "1" in w.rows && w.rows["1"].status == Processing && w.rows["1"].lock == Some(1)
            && |w.drains| == 2 && w.drains[1].startedAt == 0 && w.rows["1"].attempts == 2
            && w.rows["1"].nextAttemptAt >= 1000
  {
    var begin := [Enqueue("1", 0), Select(0, {"1"}), Select(0, {"1"}), Claim(0)];
    var finish := [Fetch(0), Mark(0, "1", Error(true), 0), Claim(1)];
    steps := begin + finish;
    var w := BothSelected(c);
    FetchedAndFailed(c, w);
    RunInTwoParts(c, EMPTY, begin, finish);
  }

  lemma {:induction false} RunInTwoParts(c: Config, w: World, first: seq<Step>, second: seq<Step>)
    ensures Run(c, w, first + second) == Run(c, Run(c, w, first), second)
    decreases |first|
  {
    if first == [] {
      assert first + second == second;
    } else {
      assert (first + second)[1..] == first[1..] + second;
      RunInTwoParts(c, Next(c, w, first[0]), first[1..], second);
    }
  }

  lemma BothSelected(c: Config) returns (w: World)
    ensures w == Run(c, EMPTY, [Enqueue("1", 0), Select(0, {"1"}), Select(0, {"1"}), Claim(0)])
    ensures w == World(map["1" := Row(Processing, Some(0), Some(0), 1, 0, 0)],
                       [Drain(0, {"1"}, true, map[]), Drain(0, {"1"}, false, map[])])
  {
    var s0, s1, s2, s3 := Enqueue("1", 0), Select(0, {"1"}), Select(0, {"1"}), Claim(0);
    var queued := map["1" := Row(Pending, None, None, 0, 0, 0)];
    var w1 := Next(c, EMPTY, s0);
    assert w1 == World(queued, []);
    var w2 := Next(c, w1, s1);
    assert w2 == World(queued, [Drain(0, {"1"}, false, map[])]);
    var w3 := Next(c, w2, s2);
    assert w3 == World(queued, [Drain(0, {"1"}, false, map[]), Drain(0, {"1"}, false, map[])]);
    w := Next(c, w3, s3);
    assert w.rows == map["1" := Row(Processing, Some(0), Some(0), 1, 0, 0)];
    var steps := [s0, s1, s2, s3];
    assert steps[1..] == [s1, s2, s3] && [s1, s2, s3][1..] == [s2, s3] && [s2, s3][1..] == [s3] && [s3][1..] == [];
    assert Run(c, w, []) == w;
    assert Run(c, w3, [s3]) == w;
    assert Run(c, w2, [s2, s3]) == w;
    assert Run(c, w1, [s1, s2, s3]) == w;
  }

  lemma FetchedAndFailed(c: Config, w: World)
    requires Proper(c) && c.maxAttempts > 1
    requires w == World(map["1" := Row(Processing, Some(0), Some(0), 1, 0, 0)],
                        [Drain(0, {"1"}, true, map[]), Drain(0, {"1"}, false, map[])])
    ensures var w' := Run(c, w, [Fetch(0), Mark(0, "1", Error(true), 0), Claim(1)]);
            && "1" in w'.rows && w'.rows["1"].status == Processing && w'.rows["1"].lock == Some(1)
            && |w'.drains| == 2 && w'.drains[1].startedAt == 0 && w'.rows["1"].attempts == 2
            && w'.rows["1"].nextAttemptAt >= 1000
  {
    var s0, s1, s2 := Fetch(0), Mark(0, "1", Error(true), 0), Claim(1);
    var w1 := Next(c, w, s0);
    assert w1.drains[0].items == map["1" := Item(1, 0)];
    assert w1.drains[1] == w.drains[1];
    BackoffDoubles(c, 1);
    var w2 := Next(c, w1, s1);
    assert w2.rows["1"] == Row(Pending, None, None, 1, BackoffMs(c, 1), 0);
    var w3 := Next(c, w2, s2);
    assert [s0, s1, s2][1..] == [s1, s2] && [s1, s2][1..] == [s2] && [s2][1..] == [];
    assert Run(c, w3, []) == w3;
    assert Run(c, w2, [s2]) == w3;
    assert Run(c, w1, [s1, s2]) == w3;
  }
}
