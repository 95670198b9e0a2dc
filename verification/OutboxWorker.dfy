/** The worker that drains the outbox: the table updates of one drain, and the delivery of one claimed row. */
module OutboxWorker {
  import opened Common
  import opened Outbox

  // ---------- delivering one row ----------

  /** What the push provider answers for one endpoint. */
  datatype Push =
    | Accepted(message: string)
    | Unregistered
    | Transient(code: string)
    | Permanent(code: string)
    | Unexpected

  datatype Tried =
    | Pushed(messages: seq<string>)
    | Nobody
    | Raised(retryable: bool, code: string)

  predicate Fatal(p: Push) {
    p.Permanent? || p.Unexpected?
  }

  function Messages(answers: seq<Push>): seq<string> {
    if answers == [] then []
    else Messages(answers[..|answers| - 1])
         + if answers[|answers| - 1].Accepted? then [answers[|answers| - 1].message] else []
  }

  /** The codes of the transient errors, in order. */
  function Codes(answers: seq<Push>): seq<string> {
    if answers == [] then []
    else Codes(answers[..|answers| - 1])
         + if answers[|answers| - 1].Transient? then [answers[|answers| - 1].code] else []
  }

  /** The attempt stops at the first fatal answer. Otherwise one accepted push makes the attempt a success with every
      accepted message in order; failing that, the first transient error is raised. Unregistered endpoints met on the
      way are retired. */
  method TryPush(answers: seq<Push>) returns (r: Tried, retired: set<nat>)
    ensures forall k :: 0 <= k < |answers| && Fatal(answers[k]) && (forall i :: 0 <= i < k ==> !Fatal(answers[i])) ==>
                          && r == Raised(answers[k].Unexpected?, if answers[k].Unexpected? then "DELIVERY_UNEXPECTED" else answers[k].code)
                          && retired == set i | 0 <= i < k && answers[i].Unregistered?
    ensures (forall i :: 0 <= i < |answers| ==> !Fatal(answers[i])) ==>
              && retired == (set i | 0 <= i < |answers| && answers[i].Unregistered?)
              && r == if Messages(answers) != [] then Pushed(Messages(answers))
                      else if Codes(answers) != [] then Raised(true, Codes(answers)[0])
                      else Nobody
  {
    var successes: seq<string> := [];
    var transientErrors: seq<string> := [];
    retired := {};
    for n := 0 to |answers|
      invariant forall i :: 0 <= i < n ==> !Fatal(answers[i])
      invariant successes == Messages(answers[..n]) && transientErrors == Codes(answers[..n])
      invariant retired == set i | 0 <= i < n && answers[i].Unregistered?
    {
      assert answers[..n + 1][..n] == answers[..n];
      match answers[n]
      case Accepted(message) =>
        successes := successes + [message];
      case Unregistered =>
        retired := retired + {n};
      case Transient(code) =>
        transientErrors := transientErrors + [code];
      case Permanent(code) =>
        return Raised(false, code), retired;
      case Unexpected =>
        return Raised(true, "DELIVERY_UNEXPECTED"), retired;
    }
    assert answers[..|answers|] == answers;
    if |successes| > 0 {
      return Pushed(successes), retired;
    }
    if |transientErrors| > 0 {
      return Raised(true, transientErrors[0]), retired;
    }
    r := Nobody;
  }

  /** The SMS provider's answer, if it is asked. */
  datatype Sms = SmsAccepted | SmsError(retryable: bool)

  /** The recipient's number: none that may be used, one, or one that cannot be decrypted. */
  datatype Phone = NoPhone | KnownPhone | UnreadablePhone

  predicate NoneReached(answers: seq<Push>) {
    forall i :: 0 <= i < |answers| ==> answers[i].Unregistered?
  }

  /** A row is skipped only when nobody could be pushed to and SMS is not allowed; SMS is the fallback of exactly the rows
      without any live endpoint; an accepted push counts unless some endpoint failed for good; what fails unexpectedly
      is tried again. */
  method Deliver(answers: seq<Push>, smsAllowed: bool, phone: Phone, sms: Sms) returns (result: Result)
    ensures result == NoTarget <==> NoneReached(answers) && !smsAllowed
    ensures NoneReached(answers) && smsAllowed ==>
              result == match phone
                        case NoPhone => Error(false)
                        case UnreadablePhone => Error(true)
                        case KnownPhone => if sms.SmsAccepted? then Delivered else Error(sms.retryable)
    ensures !NoneReached(answers) ==>
              (result == Delivered <==> (forall i :: 0 <= i < |answers| ==> !Fatal(answers[i]))
                                        && exists i :: 0 <= i < |answers| && answers[i].Accepted?)
    ensures (exists i :: 0 <= i < |answers| && answers[i].Unexpected? && forall k :: 0 <= k < i ==> !Fatal(answers[k]))
            ==> result == Error(true)
    ensures (exists i :: 0 <= i < |answers| && answers[i].Permanent? && forall k :: 0 <= k < i ==> !Fatal(answers[k]))
            ==> result == Error(false)
    ensures !NoneReached(answers) && (forall i :: 0 <= i < |answers| ==> !Fatal(answers[i]) && !answers[i].Accepted?)
            ==> result == Error(true)
  {
    var tried, _ := TryPush(answers);
    FirstFatal(answers);
    MessagesAreExact(answers);
    CodesAreExact(answers);
    if tried.Pushed? {
      return Delivered;
    }
    if tried.Raised? {
      return Error(tried.retryable);
    }
    if !smsAllowed {
      return NoTarget;
    }
    if phone.UnreadablePhone? {
      return Error(true);
    }
    if phone.NoPhone? {
      return Error(false);
    }
    if sms.SmsError? {
      return Error(sms.retryable);
    }
    result := Delivered;
  }

  lemma {:induction false} MessagesAreExact(answers: seq<Push>)
    ensures Messages(answers) != [] <==> exists i :: 0 <= i < |answers| && answers[i].Accepted?
  {
    if answers != [] {
      var last := |answers| - 1;
      MessagesAreExact(answers[..last]);
      if i :| 0 <= i < |answers| && answers[i].Accepted? {
        assert i < last ==> answers[..last][i].Accepted?;
      }
    }
  }

  lemma {:induction false} CodesAreExact(answers: seq<Push>)
    ensures Codes(answers) != [] <==> exists i :: 0 <= i < |answers| && answers[i].Transient?
  {
    if answers != [] {
      var last := |answers| - 1;
      CodesAreExact(answers[..last]);
      if i :| 0 <= i < |answers| && answers[i].Transient? {
        assert i < last ==> answers[..last][i].Transient?;
      }
    }
  }

  /** The accepted messages come one per answer, in the order of the answers. */
  lemma {:induction false} MessagesInOrder(a: seq<Push>, b: seq<Push>)
    ensures Messages(a + b) == Messages(a) + Messages(b)
    decreases |b|
  {
    if b == [] {
      assert a + b == a;
    } else {
      var last := |b| - 1;
      MessagesInOrder(a, b[..last]);
      assert (a + b)[..|a + b| - 1] == a + b[..last] && (a + b)[|a + b| - 1] == b[last];
    }
  }

  lemma MessagesOfOne(p: Push)
    ensures Messages([p]) == if p.Accepted? then [p.message] else []
  {
    assert [p][..0] == [];
  }

  /** So do the codes of the transient errors. */
  lemma {:induction false} CodesInOrder(a: seq<Push>, b: seq<Push>)
    ensures Codes(a + b) == Codes(a) + Codes(b)
    decreases |b|
  {
    if b == [] {
      assert a + b == a;
    } else {
      var last := |b| - 1;
      CodesInOrder(a, b[..last]);
      assert (a + b)[..|a + b| - 1] == a + b[..last] && (a + b)[|a + b| - 1] == b[last];
    }
  }

  lemma CodesOfOne(p: Push)
    ensures Codes([p]) == if p.Transient? then [p.code] else []
  {
    assert [p][..0] == [];
  }

  lemma FirstFatal(answers: seq<Push>)
    ensures (exists k :: 0 <= k < |answers| && Fatal(answers[k])) ==>
              exists k :: 0 <= k < |answers| && Fatal(answers[k]) && forall i :: 0 <= i < k ==> !Fatal(answers[i])
  {
    var k := 0;
    while k < |answers| && !Fatal(answers[k])
      invariant 0 <= k <= |answers| && forall i :: 0 <= i < k ==> !Fatal(answers[i])
    {
      k := k + 1;
    }
  }

  // ---------- the table ----------

  class OutboxTable {
    const config: Config
    var rows: map<string, Row>
    var drains: seq<Drain>

    function View(): World
      reads this
    {
      World(rows, drains)
    }

    constructor (config: Config)
      ensures View() == EMPTY && this.config == config && Inv(config, View())
    {
      this.config := config;
      rows, drains := map[], [];
    }

    method EnqueueRow(id: string, now: int)
      requires Proper(config) && Inv(config, View())
      modifies this
      ensures View() == Next(config, old(View()), Enqueue(id, now))
      ensures Inv(config, View())
    {
      NextKeepsInv(config, View(), Enqueue(id, now));
      if id !in rows {
        rows := rows[id := Row(Pending, None, None, 0, now, 0)];
      }
    }

    method ReclaimExpired(now: int)
      requires Proper(config) && Inv(config, View())
      modifies this
      ensures View() == Next(config, old(View()), Reclaim(now))
      ensures Inv(config, View())
    {
      NextKeepsInv(config, View(), Reclaim(now));
      var expiredLock := now - config.lockMs;
      rows := map id | id in rows ::
        var r := rows[id];
        if r.status == Processing && r.lockedAt.Some? && r.lockedAt.value < expiredLock
        then r.(status := Pending, lockedAt := None, lock := None, expiries := r.expiries + 1) else r;
    }

    /** The ids the query returned become the candidates of a drain with a fresh lock id. */
    method SelectCandidates(now: int, chosen: set<string>) returns (lock: Lock)
      requires Proper(config) && Inv(config, View())
      requires forall id :: id in chosen ==> id in rows && Eligible(rows[id], now)
      modifies this
      ensures View() == Next(config, old(View()), Select(now, chosen)) && lock == |old(drains)|
      ensures Inv(config, View())
    {
      NextKeepsInv(config, View(), Select(now, chosen));
      lock := |drains|;
      drains := drains + [Drain(now, chosen, false, map[])];
    }

    method ClaimCandidates(lock: Lock)
      requires Proper(config) && Inv(config, View())
      requires lock < |drains| && !drains[lock].claimed
      modifies this
      ensures View() == Next(config, old(View()), Claim(lock))
      ensures Inv(config, View())
    {
      NextKeepsInv(config, View(), Claim(lock));
      var d := drains[lock];
      rows := map id | id in rows ::
        var r := rows[id];
        if id in d.candidates && r.status == Pending && r.lock == None
        then r.(status := Processing, lockedAt := Some(d.startedAt), lock := Some(lock), attempts := r.attempts + 1) else r;
      drains := drains[lock := d.(claimed := true)];
    }

    method FetchClaimed(lock: Lock) returns (items: map<string, Item>)
      requires Proper(config) && Inv(config, View())
      requires lock < |drains| && drains[lock].claimed
      modifies this
      ensures View() == Next(config, old(View()), Fetch(lock)) && items == drains[lock].items
      ensures Inv(config, View())
    {
      NextKeepsInv(config, View(), Fetch(lock));
      items := map id | id in rows && rows[id].lock == Some(lock) && rows[id].status == Processing ::
        Item(rows[id].attempts, rows[id].nextAttemptAt);
      assert items == map id | id in rows && HeldBy(rows[id], lock) :: Item(rows[id].attempts, rows[id].nextAttemptAt);
      drains := drains[lock := drains[lock].(items := items)];
    }

    method MarkRow(lock: Lock, id: string, result: Result, now: int)
      requires Proper(config) && Inv(config, View())
      requires lock < |drains| && id in drains[lock].items
      modifies this
      ensures View() == Next(config, old(View()), Mark(lock, id, result, now))
      ensures old(Holds(View(), lock, id)) ==>
                && id in rows
                && (rows[id].status == Pending <==> result == Error(true) && old(rows[id].attempts) < config.maxAttempts)
                && (rows[id].status == Failed <==> result.Error? && !(result.retryable && old(rows[id].attempts) < config.maxAttempts))
                && (rows[id].status == Skipped <==> result == NoTarget) && (rows[id].status == Sent <==> result == Delivered)
      ensures Inv(config, View())
    {
      NextKeepsInv(config, View(), Mark(lock, id, result, now));
      if Holds(View(), lock, id) {
        MarkAnswers(config, View(), lock, id, result, now);
      }
      var item := drains[lock].items[id];
      if id !in rows || rows[id].lock != Some(lock) || rows[id].status != Processing {
        return;
      }
      var r := rows[id].(lockedAt := None, lock := None);
      match result
      case Delivered =>
        rows := rows[id := r.(status := Sent)];
      case NoTarget =>
        rows := rows[id := r.(status := Skipped)];
      case Error(retryable) =>
        if retryable && item.attempts < config.maxAttempts {
          rows := rows[id := r.(status := Pending, nextAttemptAt := now + BackoffMs(config, item.attempts))];
        } else {
          rows := rows[id := r.(status := Failed, nextAttemptAt := item.nextAttemptAt)];
        }
    }
  }
}
