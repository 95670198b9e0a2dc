/** Visit reservations whose check and write are separate steps: several users' operations interleave, and every write
    is decided on the table as its check saw it. */
module Interleavings {
  import opened Common
  import opened Reservations

  /** An operation that passed its checks and has not been written yet. */
  datatype Pending =
    | Creating(id: string, row: Reservation)
    | Moving(id: string, seen: Reservation, update: Update)

  datatype World = World(table: Table, pending: seq<Pending>)

  /** AtOnce is an operation with nothing between its check and its write. */
  datatype Step =
    | AtOnce(call: Call)
    | Check(call: Call)
    | Write(flight: nat, now: int)

  /** What a move writes: its status and the columns that change. */
  function UpdateOf(seen: Reservation, row: Reservation): Update {
    Update(row.status,
           if row.alternative == seen.alternative then None else row.alternative,
           if row.confirmed == seen.confirmed then None else row.confirmed)
  }

  function Decided(t: Table, call: Call): Pending
    requires Apply(t, call.now, call.command).Done?
  {
    var c := call.command;
    KnownCommand(t, call.now, c);
    var row := Apply(t, call.now, c).table[c.id];
    if c.Create? then Creating(c.id, row) else Moving(c.id, t[c.id], UpdateOf(t[c.id], row))
  }

  predicate IsAcceptance(p: Pending) {
    p.Moving? && p.seen.status == AlternativeProposed && p.update.next == Confirmed
  }

  /** The insert, refused by the indexes on ids and on active reservations, and the conditional update. */
  function Written(t: Table, p: Pending, now: int): Table {
    match p
    case Creating(id, row) => if id in t then t else Insert(t, id, row)
    case Moving(id, seen, update) =>
      if StillOpen(t, id, seen.status, if IsAcceptance(p) then Some(now) else None) then t[id := Applied(t[id], update)] else t
  }

  function Next(w: World, s: Step): World {
    match s
    case AtOnce(call) => w.(table := After(w.table, Apply(w.table, call.now, call.command)))
    case Check(call) =>
      if Apply(w.table, call.now, call.command).Done? then w.(pending := w.pending + [Decided(w.table, call)]) else w
    case Write(f, now) => if f < |w.pending| then w.(table := Written(w.table, w.pending[f], now)) else w
  }

  function Interleave(w: World, steps: seq<Step>): World
    decreases |steps|
  {
    if steps == [] then w else Interleave(Next(w, steps[0]), steps[1..])
  }

  const START := World(map[], [])

  // ---------- what happens to one row ----------

  /** Later states of a row: a status once left never returns, and an offer that is answered is the offer that was made. */
  ghost predicate Follows(a: Reservation, b: Reservation) {
    && b.property == a.property && b.requester == a.requester && b.broker == a.broker && b.requested == a.requested
    && (b.status == Requested ==> b == a)
    && (b.status == AlternativeProposed ==> b == a || a.status == Requested)
    && (a.status == AlternativeProposed && b.status == Confirmed ==>
          a.alternative.Some? && b.confirmed == Some(a.alternative.value.window))
    && (a.status == Confirmed ==> b == a || b.status == Cancelled)
    && (!Active(a.status) ==> b == a)
  }

  lemma FollowsOn(a: Reservation, b: Reservation, c: Reservation)
    requires Follows(a, b) && Follows(b, c)
    ensures Follows(a, c)
  {
  }

  /** One legal move of a row; a confirmation confirms the window that the row held. */
  ghost predicate Legal(r: Reservation, r': Reservation) {
    && RowOk(r) && RowOk(r') && Allowed(r.status, r'.status)
    && r'.property == r.property && r'.requester == r.requester && r'.broker == r.broker && r'.requested == r.requested
    && (r'.status == Confirmed ==> Hold(r').Some? && Hold(r') == Hold(r))
  }

  lemma LegalFollows(r: Reservation, r': Reservation)
    requires Legal(r, r')
    ensures Follows(r, r')
  {
  }

  ghost predicate PendingOk(t: Table, p: Pending) {
    match p
    case Creating(id, row) => RowOk(row) && row.status == Requested
    case Moving(id, seen, update) => id in t && Follows(seen, t[id]) && Legal(seen, Applied(seen, update))
  }

  /** Rows are in order, no one has two active reservations for a listing, and what is pending was decided on an earlier
      state of its row. */
  ghost predicate Inv(w: World) {
    && (forall id :: id in w.table ==> RowOk(w.table[id]))
    && OneActive(w.table)
    && (forall f :: 0 <= f < |w.pending| ==> PendingOk(w.table, w.pending[f]))
  }

  ghost predicate RowMoved(t: Table, t': Table, id: string) {
    id in t && id in t' && t' == t[id := t'[id]] && Legal(t[id], t'[id])
  }

  ghost predicate RowAdded(t: Table, t': Table, id: string) {
    && id !in t && id in t' && t' == t[id := t'[id]] && RowOk(t'[id]) && t'[id].status == Requested
    && !HasActive(t, t'[id].property, t'[id].requester)
  }

  lemma CreationsAdd(t: Table, now: int, c: Command)
    requires c.Create? && Apply(t, now, c).Done?
    ensures RowAdded(t, Apply(t, now, c).table, c.id)
  {
  }

  lemma MovesAreLegal(t: Table, now: int, c: Command)
    requires !c.Create? && c.id in t && RowOk(t[c.id]) && Apply(t, now, c).Done?
    ensures RowMoved(t, Apply(t, now, c).table, c.id)
  {
    CommandsMove(t, now, c);
  }

  lemma CommandsAreLegal(t: Table, now: int, c: Command)
    requires (forall id :: id in t ==> RowOk(t[id])) && Apply(t, now, c).Done?
    ensures var t' := Apply(t, now, c).table;
            if c.Create? then RowAdded(t, t', c.id) else RowMoved(t, t', c.id)
  {
    KnownCommand(t, now, c);
    if c.Create? {
      CreationsAdd(t, now, c);
    } else {
      MovesAreLegal(t, now, c);
    }
  }

  lemma DecisionsAreLegal(t: Table, call: Call)
    requires (forall id :: id in t ==> RowOk(t[id])) && Apply(t, call.now, call.command).Done?
    ensures PendingOk(t, Decided(t, call))
  {
    var c := call.command;
    CommandsAreLegal(t, call.now, c);
    if !c.Create? {
      var row := Apply(t, call.now, c).table[c.id];
      CommandsMove(t, call.now, c);
      AppliedIsRow(t[c.id], row);
    }
  }

  lemma AppliedIsRow(seen: Reservation, row: Reservation)
    requires row == Advance(seen, row.status).(alternative := row.alternative, confirmed := row.confirmed)
    requires (row.alternative == None ==> seen.alternative == None) && (row.confirmed == None ==> seen.confirmed == None)
    ensures Applied(seen, UpdateOf(seen, row)) == row
  {
  }

  /** The row a conditional update finds is the row that its check had read. */
  lemma WritesFindWhatWasSeen(t: Table, p: Pending, now: int)
    requires PendingOk(t, p) && p.Moving? && Written(t, p, now) != t
    ensures t[p.id] == p.seen
  {
    LegalFollows(p.seen, Applied(p.seen, p.update));
  }

  lemma WritesAreLegal(t: Table, p: Pending, now: int)
    requires PendingOk(t, p) && Written(t, p, now) != t
    ensures if p.Moving? then RowMoved(t, Written(t, p, now), p.id) else RowAdded(t, Written(t, p, now), p.id)
  {
    if p.Moving? {
      WritesFindWhatWasSeen(t, p, now);
    }
  }

  /** Every step leaves the table alone, moves one row legally, or adds one. */
  lemma StepsAreLegal(w: World, s: Step) returns (id: string)
    requires Inv(w)
    ensures var t, t' := w.table, Next(w, s).table; t' == t || RowMoved(t, t', id) || RowAdded(t, t', id)
  {
    id := "";
    match s
    case AtOnce(call) =>
      id := call.command.id;
      if Apply(w.table, call.now, call.command).Done? {
        CommandsAreLegal(w.table, call.now, call.command);
      }
    case Check(_) =>
    case Write(f, now) =>
      if f < |w.pending| && Written(w.table, w.pending[f], now) != w.table {
        id := w.pending[f].id;
        assert PendingOk(w.table, w.pending[f]);
        WritesAreLegal(w.table, w.pending[f], now);
      }
  }

  lemma LegalStepsKeepOneActive(t: Table, t': Table, id: string)
    requires OneActive(t) && (RowMoved(t, t', id) || RowAdded(t, t', id))
    ensures OneActive(t')
  {
    forall i, j | i in t' && j in t' && i != j
      ensures NotBothActive(t'[i], t'[j])
    {
      if i in t && j in t {
        assert NotBothActive(t[i], t[j]);
      }
    }
  }

  lemma LegalStepsFollow(t: Table, t': Table, id: string, j: string)
    requires t' == t || RowMoved(t, t', id) || RowAdded(t, t', id)
    requires j in t
    ensures j in t' && Follows(t[j], t'[j])
  {
    if j == id && t' != t {
      LegalFollows(t[j], t'[j]);
    }
  }

  lemma PendingStaysOk(t: Table, t': Table, id: string, p: Pending)
    requires t' == t || RowMoved(t, t', id) || RowAdded(t, t', id)
    requires PendingOk(t, p)
    ensures PendingOk(t', p)
  {
    if p.Moving? {
      LegalStepsFollow(t, t', id, p.id);
      FollowsOn(p.seen, t[p.id], t'[p.id]);
    }
  }

  lemma NextKeepsInv(w: World, s: Step)
    requires Inv(w)
    ensures Inv(Next(w, s))
  {
    var w' := Next(w, s);
    var id := StepsAreLegal(w, s);
    if w'.table != w.table {
      LegalStepsKeepOneActive(w.table, w'.table, id);
    }
    forall f | 0 <= f < |w'.pending|
      ensures PendingOk(w'.table, w'.pending[f])
    {
      if f < |w.pending| {
        assert w'.pending[f] == w.pending[f];
        PendingStaysOk(w.table, w'.table, id, w.pending[f]);
      } else {
        DecisionsAreLegal(w.table, s.call);
      }
    }
  }

  /** In every interleaving of checks and writes a row is never lost, follows from every earlier state of it, and
      everything written was decided on the row that it changes. */
  lemma {:induction false} InterleavingsKeepRows(w: World, steps: seq<Step>)
    requires Inv(w)
    ensures Inv(Interleave(w, steps))
    ensures forall id :: id in w.table ==>
                           id in Interleave(w, steps).table && Follows(w.table[id], Interleave(w, steps).table[id])
    decreases |steps|
  {
    if steps != [] {
      var w1, w' := Next(w, steps[0]), Interleave(w, steps);
      var moved := StepsAreLegal(w, steps[0]);
      NextKeepsInv(w, steps[0]);
      InterleavingsKeepRows(w1, steps[1..]);
      forall id | id in w.table
        ensures id in w'.table && Follows(w.table[id], w'.table[id])
      {
        LegalStepsFollow(w.table, w1.table, moved, id);
        FollowsOn(w.table[id], w1.table[id], w'.table[id]);
      }
    }
  }

  /** However checks and writes interleave, a requester has one active reservation per listing. */
  lemma OneActiveAlways(steps: seq<Step>)
    ensures OneActive(Interleave(START, steps).table)
  {
    InterleavingsKeepRows(START, steps);
  }

  // ---------- the requesters' diaries ----------

  /** An acceptance of the pending offer has passed its check. */
  ghost predicate Answered(w: World, id: string) {
    id in w.table && w.table[id].status == AlternativeProposed
    && exists f :: 0 <= f < |w.pending| && w.pending[f].id == id && IsAcceptance(w.pending[f])
  }

  /** What a requester is committed to: open requests, confirmed visits, and offers about to be accepted. */
  ghost function Promised(w: World, id: string): Option<Window>
    requires id in w.table
  {
    if w.table[id].status == AlternativeProposed && !Answered(w, id) then None else Hold(w.table[id])
  }

  ghost predicate PromisesApart(w: World, i: string, j: string)
    requires i in w.table && j in w.table
  {
    w.table[i].requester == w.table[j].requester && Promised(w, i).Some? && Promised(w, j).Some? ==>
      !Overlaps(Promised(w, i).value, Promised(w, j).value)
  }

  ghost predicate PromisesDisjoint(w: World) {
    forall i, j :: i in w.table && j in w.table && i != j ==> PromisesApart(w, i, j)
  }

  /** The promise at id is new and asked the diary, or there was one before, or there is none. */
  ghost predicate PromiseAsked(w: World, w': World, id: string)
    requires id in w'.table
  {
    var r := w'.table[id];
    || Promised(w', id).None?
    || (id in w.table && w.table[id].requester == r.requester && Promised(w', id) == Promised(w, id))
    || !RequesterConflict(w.table, r.requester, Promised(w', id).value, Some(id))
  }

  ghost predicate OthersKeepPromises(w: World, w': World, id: string) {
    forall j :: j in w'.table && j != id ==>
      j in w.table && w'.table[j] == w.table[j] && Promised(w', j) == Promised(w, j)
  }

  lemma AskedPromisesFit(w: World, w': World, id: string, j: string)
    requires PromisesDisjoint(w) && id in w'.table && PromiseAsked(w, w', id) && OthersKeepPromises(w, w', id)
    requires j in w'.table && j != id
    ensures PromisesApart(w', id, j) && PromisesApart(w', j, id)
  {
    if Promised(w', id).Some? && Promised(w', j).Some? {
      if id in w.table && w.table[id].requester == w'.table[id].requester && Promised(w', id) == Promised(w, id) {
        assert PromisesApart(w, id, j);
      } else {
        assert Some(j) != Some(id) && Promised(w', j) == Hold(w.table[j]);
      }
    }
  }

  lemma AskedPromisesStayDisjoint(w: World, w': World, id: string)
    requires PromisesDisjoint(w) && OthersKeepPromises(w, w', id)
    requires id in w'.table ==> PromiseAsked(w, w', id)
    ensures PromisesDisjoint(w')
  {
    forall i, j | i in w'.table && j in w'.table && i != j
      ensures PromisesApart(w', i, j)
    {
      if i == id {
        AskedPromisesFit(w, w', id, j);
      } else if j == id {
        AskedPromisesFit(w, w', id, i);
      } else {
        assert PromisesApart(w, i, j);
      }
    }
  }

  lemma OnlyOneRowTouched(w: World, t': Table, id: string)
    requires RowMoved(w.table, t', id) || RowAdded(w.table, t', id)
    ensures OthersKeepPromises(w, w.(table := t'), id)
  {
    forall j | j in t' && j != id
      ensures j in w.table && t'[j] == w.table[j] && Promised(w.(table := t'), j) == Promised(w, j)
    {
      assert t'[j] == w.table[j];
      assert Answered(w.(table := t'), j) == Answered(w, j);
    }
  }

  lemma OpenRequestsAreUnanswered(w: World, id: string)
    requires Inv(w) && id in w.table && w.table[id].status == Requested
    ensures forall f :: 0 <= f < |w.pending| && w.pending[f].id == id ==> !IsAcceptance(w.pending[f])
  {
    forall f | 0 <= f < |w.pending| && w.pending[f].id == id
      ensures !IsAcceptance(w.pending[f])
    {
      assert PendingOk(w.table, w.pending[f]);
    }
  }

  /** A write takes up a promise that was made, or drops it. */
  lemma MovePromises(w: World, f: nat, now: int)
    requires Inv(w) && PromisesDisjoint(w) && f < |w.pending| && w.pending[f].Moving?
    ensures PromisesDisjoint(Next(w, Write(f, now)))
  {
    var p, w' := w.pending[f], Next(w, Write(f, now));
    assert PendingOk(w.table, p);
    if w'.table != w.table {
      WritesAreLegal(w.table, p, now);
      WritesFindWhatWasSeen(w.table, p, now);
      OnlyOneRowTouched(w, w'.table, p.id);
      if w'.table[p.id].status == AlternativeProposed {
        OpenRequestsAreUnanswered(w, p.id);
      }
      AskedPromisesStayDisjoint(w, w', p.id);
    }
  }

  lemma CommandPromises(w: World, call: Call)
    requires Inv(w) && PromisesDisjoint(w)
    ensures PromisesDisjoint(Next(w, AtOnce(call)))
  {
    var c, w' := call.command, Next(w, AtOnce(call));
    if Apply(w.table, call.now, c).Done? {
      CommandsAreLegal(w.table, call.now, c);
      OnlyOneRowTouched(w, w'.table, c.id);
      if c.Create? {
        CreationAsksDiary(w, call);
      } else {
        MoveAsksDiary(w, call);
      }
      AskedPromisesStayDisjoint(w, w', c.id);
    }
  }

  lemma CreationAsksDiary(w: World, call: Call)
    requires Inv(w) && call.command.Create? && Apply(w.table, call.now, call.command).Done?
    ensures call.command.id in Next(w, AtOnce(call)).table && PromiseAsked(w, Next(w, AtOnce(call)), call.command.id)
  {
    var c := call.command;
    NotYetThere(w.table, c.actor, Apply(w.table, call.now, c).table[c.id].requested, c.id);
  }

  lemma MoveAsksDiary(w: World, call: Call)
    requires Inv(w) && !call.command.Create? && Apply(w.table, call.now, call.command).Done?
    ensures call.command.id in Next(w, AtOnce(call)).table && PromiseAsked(w, Next(w, AtOnce(call)), call.command.id)
  {
    var c, t' := call.command, Next(w, AtOnce(call)).table;
    CommandsAreLegal(w.table, call.now, c);
    CommandsAsk(w.table, call.now, c);
    if t'[c.id].status == AlternativeProposed {
      OpenRequestsAreUnanswered(w, c.id);
    }
  }

  /** A check that passes for an acceptance makes a promise, which has asked the diary. */
  lemma CheckPromises(w: World, call: Call)
    requires Inv(w) && PromisesDisjoint(w) && !call.command.Create?
    ensures PromisesDisjoint(Next(w, Check(call)))
  {
    var c, w' := call.command, Next(w, Check(call));
    if Apply(w.table, call.now, c).Done? {
      KnownCommand(w.table, call.now, c);
      var p := Decided(w.table, call);
      forall j | j in w.table && (j != c.id || !IsAcceptance(p))
        ensures Promised(w', j) == Promised(w, j)
      {
        AnsweredElsewhere(w, p, j);
      }
      if IsAcceptance(p) {
        AcceptancesAsk(w.table, call);
      }
      AskedPromisesStayDisjoint(w, w', c.id);
    }
  }

  lemma AnsweredElsewhere(w: World, p: Pending, j: string)
    requires p.id != j || !IsAcceptance(p)
    ensures Answered(w.(pending := w.pending + [p]), j) <==> Answered(w, j)
  {
    var w' := w.(pending := w.pending + [p]);
    if Answered(w, j) {
      var f :| 0 <= f < |w.pending| && w.pending[f].id == j && IsAcceptance(w.pending[f]);
      assert w'.pending[f] == w.pending[f];
    }
    if Answered(w', j) {
      var f :| 0 <= f < |w'.pending| && w'.pending[f].id == j && IsAcceptance(w'.pending[f]);
      assert w.pending[f] == w'.pending[f];
    }
  }

  lemma AcceptancesAsk(t: Table, call: Call)
    requires !call.command.Create? && Apply(t, call.now, call.command).Done? && IsAcceptance(Decided(t, call))
    ensures call.command.id in t && Hold(t[call.command.id]).Some?
            && !RequesterConflict(t, t[call.command.id].requester, Hold(t[call.command.id]).value, Some(call.command.id))
  {
    KnownCommand(t, call.now, call.command);
  }

  ghost predicate NothingBeingCreated(w: World) {
    forall f :: 0 <= f < |w.pending| ==> w.pending[f].Moving?
  }

  lemma NextKeepsPromises(w: World, s: Step)
    requires Inv(w) && PromisesDisjoint(w) && NothingBeingCreated(w) && (s.Check? ==> !s.call.command.Create?)
    ensures PromisesDisjoint(Next(w, s)) && NothingBeingCreated(Next(w, s))
  {
    match s
    case AtOnce(call) => CommandPromises(w, call);
    case Check(call) => CheckPromises(w, call);
    case Write(f, now) =>
      if f < |w.pending| {
        MovePromises(w, f, now);
      }
  }

  ghost predicate CreationsAtOnce(steps: seq<Step>) {
    forall i :: 0 <= i < |steps| && steps[i].Check? ==> !steps[i].call.command.Create?
  }

  lemma {:induction false} InterleavingsKeepPromises(w: World, steps: seq<Step>)
    requires Inv(w) && PromisesDisjoint(w) && NothingBeingCreated(w) && CreationsAtOnce(steps)
    ensures PromisesDisjoint(Interleave(w, steps))
    decreases |steps|
  {
    if steps != [] {
      NextKeepsInv(w, steps[0]);
      NextKeepsPromises(w, steps[0]);
      assert forall i :: 0 <= i < |steps[1..]| ==> steps[1..][i] == steps[i + 1];
      InterleavingsKeepPromises(Next(w, steps[0]), steps[1..]);
    }
  }

  lemma PromisesCoverDiaries(w: World)
    requires PromisesDisjoint(w)
    ensures RequestersDisjoint(w.table)
  {
    forall i, j | i in w.table && j in w.table && i != j
      ensures DiaryApart(w.table[i], w.table[j])
    {
      assert PromisesApart(w, i, j);
    }
  }

  /** As long as requests are checked and written without a pause, every other operation may be written however late and
      in any order: a pending offer guards its window until the acceptance that passed its check is written. */
  lemma DiariesAreDisjoint(steps: seq<Step>)
    requires CreationsAtOnce(steps)
    ensures RequestersDisjoint(Interleave(START, steps).table)
  {
    InterleavingsKeepPromises(START, steps);
    PromisesCoverDiaries(Interleave(START, steps));
  }

  // ---------- the brokers' visits ----------

  ghost predicate NothingBeingConfirmed(w: World) {
    forall f :: 0 <= f < |w.pending| && w.pending[f].Moving? ==> w.pending[f].update.next != Confirmed
  }

  predicate Confirms(c: Command) {
    c.Approve? || c.Accept?
  }

  lemma UnconfirmedKeepsBrokers(t: Table, id: string, r: Reservation)
    requires BrokersDisjoint(t) && r.status != Confirmed
    ensures BrokersDisjoint(t[id := r])
  {
    var t' := t[id := r];
    forall i, j | i in t' && j in t' && i != j
      ensures VisitsApart(t'[i], t'[j])
    {
      if i != id && j != id {
        assert VisitsApart(t[i], t[j]);
      }
    }
  }

  lemma NextKeepsBrokers(w: World, s: Step)
    requires Inv(w) && BrokersDisjoint(w.table) && NothingBeingConfirmed(w) && (s.Check? ==> !Confirms(s.call.command))
    ensures BrokersDisjoint(Next(w, s).table) && NothingBeingConfirmed(Next(w, s))
  {
    var t, t' := w.table, Next(w, s).table;
    var id := StepsAreLegal(w, s);
    if t' != t {
      if t'[id].status == Confirmed {
        if s.Write? {
          WritesConfirmNothing(t, w.pending[s.flight], s.now, id);
        } else {
          ConfirmationsAsk(t, s.call, id);
        }
        ConfirmingKeepsBrokersIff(t, id, t'[id]);
      } else {
        UnconfirmedKeepsBrokers(t, id, t'[id]);
      }
    }
  }

  lemma ConfirmationsAsk(t: Table, call: Call, id: string)
    requires Apply(t, call.now, call.command).Done? && RowMoved(t, Apply(t, call.now, call.command).table, id)
    requires Apply(t, call.now, call.command).table[id].status == Confirmed
    ensures var r := Apply(t, call.now, call.command).table[id];
            r.confirmed.Some? && !BrokerConflict(t, r.broker, r.confirmed.value, id)
  {
    var c := call.command;
    KnownCommand(t, call.now, c);
    CommandsAsk(t, call.now, c);
  }

  lemma WritesConfirmNothing(t: Table, p: Pending, now: int, id: string)
    requires PendingOk(t, p) && (p.Moving? ==> p.update.next != Confirmed)
    requires Written(t, p, now) != t && id in t && id in Written(t, p, now) && Written(t, p, now)[id] != t[id]
    ensures Written(t, p, now)[id].status != Confirmed
  {
  }

  ghost predicate ConfirmationsAtOnce(steps: seq<Step>) {
    forall i :: 0 <= i < |steps| && steps[i].Check? ==> !Confirms(steps[i].call.command)
  }

  lemma {:induction false} InterleavingsKeepBrokers(w: World, steps: seq<Step>)
    requires Inv(w) && BrokersDisjoint(w.table) && NothingBeingConfirmed(w) && ConfirmationsAtOnce(steps)
    ensures BrokersDisjoint(Interleave(w, steps).table)
    decreases |steps|
  {
    if steps != [] {
      NextKeepsInv(w, steps[0]);
      NextKeepsBrokers(w, steps[0]);
      assert forall i :: 0 <= i < |steps[1..]| ==> steps[1..][i] == steps[i + 1];
      InterleavingsKeepBrokers(Next(w, steps[0]), steps[1..]);
    }
  }

  /** As long as approvals and acceptances are checked and written without a pause, a broker's visits stay disjoint. */
  lemma VisitsAreDisjoint(steps: seq<Step>)
    requires ConfirmationsAtOnce(steps)
    ensures BrokersDisjoint(Interleave(START, steps).table)
  {
    InterleavingsKeepBrokers(START, steps);
  }

  // ---------- what a single late write does ----------

  lemma WithoutHoldKeepsRequesters(t: Table, id: string, r: Reservation)
    requires RequestersDisjoint(t) && FirmHold(r).None?
    ensures RequestersDisjoint(t[id := r])
  {
    var t' := t[id := r];
    forall i, j | i in t' && j in t' && i != j
      ensures DiaryApart(t'[i], t'[j])
    {
      if i != id && j != id {
        assert DiaryApart(t[i], t[j]);
      }
    }
  }

  /** A late write keeps the requesters' diaries disjoint exactly when it is refused, takes no window, or takes one that
      no firm window of the requester overlaps by then. */
  lemma WriteKeepsRequestersIff(w: World, f: nat, now: int)
    requires Inv(w) && RequestersDisjoint(w.table) && f < |w.pending|
    ensures var t, t', id := w.table, Next(w, Write(f, now)).table, w.pending[f].id;
            RequestersDisjoint(t') <==>
            t' == t || FirmHold(t'[id]).None? || !FirmConflict(t, t'[id].requester, FirmHold(t'[id]).value, id)
  {
    var t, t', p := w.table, Next(w, Write(f, now)).table, w.pending[f];
    assert PendingOk(t, p);
    if t' != t {
      WritesAreLegal(t, p, now);
      if FirmHold(t'[p.id]).Some? {
        HoldingKeepsRequestersIff(t, p.id, t'[p.id]);
      } else {
        WithoutHoldKeepsRequesters(t, p.id, t'[p.id]);
      }
    }
  }

  /** A late write keeps the brokers' visits disjoint exactly when it is refused, confirms nothing, or would pass the
      availability check again. */
  lemma WriteKeepsBrokersIff(w: World, f: nat, now: int)
    requires Inv(w) && BrokersDisjoint(w.table) && f < |w.pending|
    ensures var t, t', id := w.table, Next(w, Write(f, now)).table, w.pending[f].id;
            BrokersDisjoint(t') <==>
            t' == t || t'[id].status != Confirmed || !BrokerConflict(t, t'[id].broker, t'[id].confirmed.value, id)
  {
    var t, t', p := w.table, Next(w, Write(f, now)).table, w.pending[f];
    assert PendingOk(t, p);
    if t' != t {
      WritesAreLegal(t, p, now);
      if t'[p.id].status == Confirmed {
        ConfirmingKeepsBrokersIff(t, p.id, t'[p.id]);
      } else {
        UnconfirmedKeepsBrokers(t, p.id, t'[p.id]);
      }
    }
  }

  /** A move is written exactly when its row still has the status that was read and, for an acceptance, the offer is open
      at that instant, which then is more than an hour before the visit; a request exactly when its id and its listing are
      still free. */
  lemma WrittenIff(w: World, f: nat, now: int)
    requires Inv(w) && f < |w.pending|
    ensures var t, t', p := w.table, Next(w, Write(f, now)).table, w.pending[f];
            match p
            case Creating(id, row) =>
              t' == (if id !in t && NoneOpen(t, row.property, row.requester) then t[id := row] else t)
            case Moving(id, seen, update) =>
              && id in t && (t' != t <==> t[id].status == seen.status
                                          && (seen.status == AlternativeProposed && update.next == Confirmed ==>
                                                now < seen.alternative.value.expiresAt))
              && (t' != t ==> t[id] == seen && t' == t[id := Applied(seen, update)])
              && (t' != t && seen.status == AlternativeProposed && t'[id].status == Confirmed ==>
                    now + HOUR < t'[id].confirmed.value.start)
  {
    var t, p := w.table, w.pending[f];
    assert PendingOk(t, p);
    if p.Creating? {
      ChecksMeanFree(t, p.row.requester, p.row.requested, None, "", p.row.property);
    } else {
      assert |Applied(t[p.id], p.update).history| == |t[p.id].history| + 1;
      var t' := Written(t, p, now);
      assert t' != t ==> t'[p.id] == Applied(t[p.id], p.update);
      if t[p.id].status == p.seen.status {
        assert t[p.id] == p.seen;
      }
      if t' != t {
        WritesFindWhatWasSeen(t, p, now);
      }
    }
  }

  // ---------- requests written late ----------

  /** The row was created since, or was an open request then and has since been confirmed for another window. */
  ghost predicate ArisenSince(t: Table, t': Table, j: string)
    requires j in t'
  {
    j !in t || (t[j].status == Requested && t'[j].status == Confirmed && t'[j].confirmed != Some(t[j].requested))
  }

  ghost predicate Clashes(t': Table, j: string, r: Reservation)
    requires j in t'
  {
    t'[j].requester == r.requester && FirmHold(t'[j]).Some? && Overlaps(FirmHold(t'[j]).value, r.requested)
  }

  lemma {:induction false} PendingStays(w: World, steps: seq<Step>, f: nat)
    requires f < |w.pending|
    ensures f < |Interleave(w, steps).pending| && Interleave(w, steps).pending[f] == w.pending[f]
    decreases |steps|
  {
    if steps != [] {
      PendingStays(Next(w, steps[0]), steps[1..], f);
    }
  }

  /** What a request written late can clash with did not stand in its way when it was checked. */
  lemma ClashesArise(t: Table, t': Table, j: string, r: Reservation)
    requires !RequesterConflict(t, r.requester, r.requested, None)
    requires j in t' && RowOk(t'[j]) && Clashes(t', j, r) && (j in t ==> RowOk(t[j]) && Follows(t[j], t'[j]))
    ensures ArisenSince(t, t', j)
  {
    if j in t {
      assert Some(j) != None && (Hold(t[j]).Some? && t[j].requester == r.requester ==> !Overlaps(Hold(t[j]).value, r.requested));
    }
  }

  /** Whatever happens between its check and its write, a new request keeps the diaries disjoint exactly when the insert is
      refused or nothing of the requester's that arose in between overlaps it: another request, or an offer that was made
      and accepted since. */
  lemma LateCreationKeepsRequestersIff(w: World, call: Call, steps: seq<Step>, now: int)
    requires Inv(w) && call.command.Create? && Apply(w.table, call.now, call.command).Done?
    requires RequestersDisjoint(Interleave(Next(w, Check(call)), steps).table)
    ensures var w' := Interleave(Next(w, Check(call)), steps);
            var t, t', id := w.table, w'.table, call.command.id;
            var row := Apply(t, call.now, call.command).table[id];
            RequestersDisjoint(Next(w', Write(|w.pending|, now)).table) <==>
            || id in t' || HasActive(t', row.property, row.requester)
            || !exists j :: j in t' && ArisenSince(t, t', j) && Clashes(t', j, row)
  {
    var w1 := Next(w, Check(call));
    var w' := Interleave(w1, steps);
    var t, t', id := w.table, w'.table, call.command.id;
    var row := Apply(t, call.now, call.command).table[id];
    NextKeepsInv(w, Check(call));
    InterleavingsKeepRows(w1, steps);
    PendingStays(w1, steps, |w.pending|);
    WriteKeepsRequestersIff(w', |w.pending|, now);
    forall j | j in t' && Clashes(t', j, row)
      ensures ArisenSince(t, t', j)
    {
      ClashesArise(t, t', j, row);
    }
    if id !in t' {
      ConflictIsClash(t', row, id);
    }
  }

  lemma ConflictIsClash(t: Table, r: Reservation, id: string)
    requires id !in t
    ensures FirmConflict(t, r.requester, r.requested, id) <==> exists j :: j in t && Clashes(t, j, r)
  {
  }

  // ---------- runs ----------

  function WithoutPause(calls: seq<Call>): (steps: seq<Step>)
    ensures |steps| == |calls| && forall i :: 0 <= i < |calls| ==> steps[i] == AtOnce(calls[i])
  {
    seq(|calls|, i requires 0 <= i < |calls| => AtOnce(calls[i]))
  }

  /** The runs of whole operations are the interleavings without a pause. */
  lemma {:induction false} RunsAreInterleavings(w: World, calls: seq<Call>)
    ensures Interleave(w, WithoutPause(calls)) == w.(table := Run(w.table, calls))
    decreases |calls|
  {
    if calls != [] {
      assert WithoutPause(calls)[1..] == WithoutPause(calls[1..]);
      RunsAreInterleavings(Next(w, AtOnce(calls[0])), calls[1..]);
    }
  }

  const EARLY := Window(10 * HOUR, 11 * HOUR)
  const LATE := Window(20 * HOUR, 21 * HOUR)

  function Asked(): Reservation {
    Reservation("q", "ann", "bob", Requested, LATE, None, None, [Entry(None, Requested)])
  }

  function Offered(): Reservation {
    Advance(Asked(), AlternativeProposed).(alternative := Some(Offer(EARLY, 9 * HOUR)))
  }

  function Agreed(): Reservation {
    Advance(Offered(), Confirmed).(confirmed := Some(EARLY))
  }

  function Second(): Reservation {
    Reservation("p", "ann", "cid", Requested, EARLY, None, None, [Entry(None, Requested)])
  }

  lemma OfferedAndAgreed(pending: seq<Pending>)
    ensures Next(World(map["2" := Asked()], pending), AtOnce(Call(0, Propose("2", "bob", Some(10 * HOUR), Some(11 * HOUR)))))
            == World(map["2" := Offered()], pending)
    ensures Next(World(map["2" := Offered()], pending), AtOnce(Call(0, Accept("2", "ann"))))
            == World(map["2" := Agreed()], pending)
  {
  }

  lemma SecondIsChecked(call: Call)
    requires call == Call(0, Create("1", "ann", true, Some(Listing("p", "cid")), Some(10 * HOUR), Some(11 * HOUR)))
    ensures Next(World(map["2" := Asked()], []), Check(call)) == World(map["2" := Asked()], [Creating("1", Second())])
  {
    assert "1"[0] != "2"[0] && "p"[0] != "q"[0];
  }

  lemma FourSteps(w: World, a: Step, b: Step, c: Step, d: Step)
    ensures Interleave(w, [a, b, c, d]) == Next(Next(Next(Next(w, a), b), c), d)
  {
    assert [a, b, c, d][1..] == [b, c, d] && [b, c, d][1..] == [c, d] && [c, d][1..] == [d] && [d][1..] == [];
    var w1 := Next(w, a);
    var w2 := Next(w1, b);
    var w3 := Next(w2, c);
    assert Interleave(w3, [d]) == Interleave(Next(w3, d), []);
    assert Interleave(w2, [c, d]) == Interleave(w3, [d]);
    assert Interleave(w1, [b, c, d]) == Interleave(w2, [c, d]);
  }

  /** A run in which nothing but one request is written late: while it is pending, the broker of another request of the
      same requester proposes its window, and the proposal is accepted. */
  lemma LateCreationClashes() returns (steps: seq<Step>, last: Step)
    ensures |steps| == 4 && steps[0].AtOnce? && steps[1].Check? && steps[2].AtOnce? && steps[3].AtOnce? && last == Write(0, 0)
    ensures var w := Interleave(START, steps);
            RequestersDisjoint(w.table) && !RequestersDisjoint(Next(w, last).table)
  {
    var ask := Call(0, Create("2", "ann", true, Some(Listing("q", "bob")), Some(20 * HOUR), Some(21 * HOUR)));
    var call := Call(0, Create("1", "ann", true, Some(Listing("p", "cid")), Some(10 * HOUR), Some(11 * HOUR)));
    steps := [AtOnce(ask), Check(call), AtOnce(Call(0, Propose("2", "bob", Some(10 * HOUR), Some(11 * HOUR)))),
              AtOnce(Call(0, Accept("2", "ann")))];
    last := Write(0, 0);
    FourSteps(START, steps[0], steps[1], steps[2], steps[3]);
    assert Next(START, steps[0]) == World(map["2" := Asked()], []);
    SecondIsChecked(call);
    OfferedAndAgreed([Creating("1", Second())]);
    SecondIsWritten(map["2" := Agreed()], Creating("1", Second()));
  }

  lemma SecondIsWritten(t: Table, p: Pending)
    requires t == map["2" := Agreed()] && p == Creating("1", Second())
    ensures RequestersDisjoint(t) && !RequestersDisjoint(Written(t, p, 0))
  {
    var t' := t["1" := Second()];
    assert "1"[0] != "2"[0] && "p"[0] != "q"[0];
    assert "1" !in t && !HasActive(t, "p", "ann");
    assert Written(t, p, 0) == t';
    assert t'["1"] == Second() && t'["2"] == Agreed();
    assert FirmHold(t'["1"]) == FirmHold(t'["2"]) == Some(EARLY);
    assert !DiaryApart(t'["1"], t'["2"]);
  }
}
