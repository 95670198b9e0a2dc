/** Visit reservations: a requester asks for a window, the listing's broker approves, rejects or
    proposes another window, and the requester accepts, declines or cancels. */
module Reservations {
  import opened Common

  datatype Status =
    | Requested
    | AlternativeProposed
    | Confirmed
    | Rejected
    | AlternativeDeclined
    | Cancelled
    | Completed

  datatype Offer = Offer(window: Window, expiresAt: int)

  datatype Entry = Entry(previous: Option<Status>, next: Status)

  datatype Reservation = Reservation(
    property: string,
    requester: string,
    broker: string,
    status: Status,
    requested: Window,
    alternative: Option<Offer>,
    confirmed: Option<Window>,
    history: seq<Entry>)

  type Table = map<string, Reservation>

  datatype Error =
    | InvalidWindow
    | PhoneNotVerified
    | NotFound
    | OwnListing
    | DuplicateActive
    | RequesterBusy
    | BrokerBusy
    | WrongStatus
    | TooLate

  datatype Outcome = Done(table: Table) | Refused(error: Error)

  /** A public listing as the lookup found it. */
  datatype Listing = Listing(property: string, broker: string)

  datatype Command =
    | Create(id: string, actor: string, phoneVerified: bool, listing: Option<Listing>, start: Option<int>, end: Option<int>)
    | Approve(id: string, actor: string)
    | Reject(id: string, actor: string)
    | Propose(id: string, actor: string, start: Option<int>, end: Option<int>)
    | Accept(id: string, actor: string)
    | Decline(id: string, actor: string)
    | Cancel(id: string, actor: string)

  // ---------- the checks ----------

  predicate LegalLength(w: Window) {
    30 * MINUTE <= w.end - w.start <= 180 * MINUTE
  }

  /** An unparsable date is None. */
  function VisitWindow(start: Option<int>, end: Option<int>, now: int): Option<Window> {
    if start.None? || end.None? || end.value <= start.value then None
    else
      var w := Window(start.value, end.value);
      if !LegalLength(w) then None
      else if w.start < now + 2 * HOUR then None
      else if w.start > now + 90 * DAY then None
      else Some(w)
  }

  predicate Active(s: Status) {
    s == Requested || s == AlternativeProposed || s == Confirmed
  }

  /** The window a reservation occupies in the requester's diary. */
  function Hold(r: Reservation): Option<Window> {
    match r.status
    case Requested => Some(r.requested)
    case AlternativeProposed => if r.alternative.Some? then Some(r.alternative.value.window) else None
    case Confirmed => r.confirmed
    case _ => None
  }

  predicate HasActive(t: Table, property: string, requester: string) {
    exists id :: id in t && t[id].property == property && t[id].requester == requester && Active(t[id].status)
  }

  predicate RequesterConflict(t: Table, requester: string, w: Window, excluded: Option<string>) {
    exists id :: id in t && Some(id) != excluded && t[id].requester == requester
                 && Hold(t[id]).Some? && Overlaps(Hold(t[id]).value, w)
  }

  predicate BrokerConflict(t: Table, broker: string, w: Window, excluded: string) {
    exists id :: id in t && id != excluded && t[id].broker == broker
                 && t[id].status == Confirmed && t[id].confirmed.Some? && Overlaps(t[id].confirmed.value, w)
  }

  // ---------- the operations ----------

  function Advance(r: Reservation, next: Status): Reservation {
    r.(status := next, history := r.history + [Entry(Some(r.status), next)])
  }

  /** The columns a move writes besides the history. */
  datatype Update = Update(next: Status, offer: Option<Offer>, confirmed: Option<Window>)

  function Applied(r: Reservation, u: Update): Reservation {
    Advance(r, u.next).(alternative := if u.offer.Some? then u.offer else r.alternative,
                        confirmed := if u.confirmed.Some? then u.confirmed else r.confirmed)
  }

  /** What the conditional update asks of the row: the status that was read and, given an instant, an offer open then. */
  predicate StillOpen(t: Table, id: string, expected: Status, openAt: Option<int>) {
    id in t && t[id].status == expected
    && (openAt.Some? ==> t[id].alternative.Some? && t[id].alternative.value.expiresAt > openAt.value)
  }

  function CreateOutcome(t: Table, now: int, c: Command): Outcome
    requires c.Create?
  {
    var w := VisitWindow(c.start, c.end, now);
    if w.None? then Refused(InvalidWindow)
    else if !c.phoneVerified then Refused(PhoneNotVerified)
    else if c.listing.None? then Refused(NotFound)
    else if c.listing.value.broker == c.actor then Refused(OwnListing)
    else if HasActive(t, c.listing.value.property, c.actor) then Refused(DuplicateActive)
    else if RequesterConflict(t, c.actor, w.value, None) then Refused(RequesterBusy)
    else if c.id in t then Refused(DuplicateActive)
    else Done(t[c.id := Reservation(c.listing.value.property, c.actor, c.listing.value.broker, Requested,
                                    w.value, None, None, [Entry(None, Requested)])])
  }

  predicate OwnedByBroker(t: Table, id: string, actor: string) {
    id in t && t[id].broker == actor
  }

  predicate OwnedByRequester(t: Table, id: string, actor: string) {
    id in t && t[id].requester == actor
  }

  function ApproveOutcome(t: Table, now: int, id: string, actor: string): Outcome {
    if !OwnedByBroker(t, id, actor) then Refused(NotFound)
    else
      var r := t[id];
      if r.status != Requested then Refused(WrongStatus)
      else if r.requested.start <= now then Refused(TooLate)
      else if BrokerConflict(t, actor, r.requested, id) then Refused(BrokerBusy)
      else Done(t[id := Advance(r, Confirmed).(confirmed := Some(r.requested))])
  }

  function RejectOutcome(t: Table, id: string, actor: string): Outcome {
    if !OwnedByBroker(t, id, actor) then Refused(NotFound)
    else if t[id].status != Requested then Refused(WrongStatus)
    else Done(t[id := Advance(t[id], Rejected)])
  }

  function ProposeOutcome(t: Table, now: int, id: string, actor: string, start: Option<int>, end: Option<int>): Outcome {
    if !OwnedByBroker(t, id, actor) then Refused(NotFound)
    else if t[id].status != Requested then Refused(WrongStatus)
    else
      var w := VisitWindow(start, end, now);
      if w.None? then Refused(InvalidWindow)
      else if BrokerConflict(t, actor, w.value, id) then Refused(BrokerBusy)
      else
        var offer := Offer(w.value, Min(now + 24 * HOUR, w.value.start - HOUR));
        Done(t[id := Advance(t[id], AlternativeProposed).(alternative := Some(offer))])
  }

  function AcceptOutcome(t: Table, now: int, id: string, actor: string): Outcome {
    if !OwnedByRequester(t, id, actor) then Refused(NotFound)
    else
      var r := t[id];
      if r.status != AlternativeProposed || r.alternative.None? then Refused(WrongStatus)
      else if r.alternative.value.expiresAt <= now || r.alternative.value.window.start <= now then Refused(TooLate)
      else if BrokerConflict(t, r.broker, r.alternative.value.window, id) then Refused(BrokerBusy)
      else if RequesterConflict(t, actor, r.alternative.value.window, Some(id)) then Refused(RequesterBusy)
      else Done(t[id := Advance(r, Confirmed).(confirmed := Some(r.alternative.value.window))])
  }

  function DeclineOutcome(t: Table, id: string, actor: string): Outcome {
    if !OwnedByRequester(t, id, actor) then Refused(NotFound)
    else if t[id].status != AlternativeProposed then Refused(WrongStatus)
    else Done(t[id := Advance(t[id], AlternativeDeclined)])
  }

  function CancelOutcome(t: Table, now: int, id: string, actor: string): Outcome {
    if !OwnedByRequester(t, id, actor) then Refused(NotFound)
    else
      var r := t[id];
      if !Active(r.status) then Refused(WrongStatus)
      else if r.status == Confirmed && r.confirmed.Some? && r.confirmed.value.start <= now then Refused(TooLate)
      else Done(t[id := Advance(r, Cancelled)])
  }

  function Apply(t: Table, now: int, c: Command): Outcome {
    match c
    case Create(_, _, _, _, _, _) => CreateOutcome(t, now, c)
    case Approve(id, actor) => ApproveOutcome(t, now, id, actor)
    case Reject(id, actor) => RejectOutcome(t, id, actor)
    case Propose(id, actor, start, end) => ProposeOutcome(t, now, id, actor, start, end)
    case Accept(id, actor) => AcceptOutcome(t, now, id, actor)
    case Decline(id, actor) => DeclineOutcome(t, id, actor)
    case Cancel(id, actor) => CancelOutcome(t, now, id, actor)
  }

  function After(t: Table, o: Outcome): Table {
    match o
    case Done(t') => t'
    case Refused(_) => t
  }

  datatype Call = Call(now: int, command: Command)

  function Run(t: Table, calls: seq<Call>): Table
    decreases |calls|
  {
    if calls == [] then t
    else Run(After(t, Apply(t, calls[0].now, calls[0].command)), calls[1..])
  }

  // ---------- what every reachable table satisfies ----------

  /** The windows nobody else may be given: an open request and a confirmed visit. */
  function FirmHold(r: Reservation): Option<Window> {
    if r.status == AlternativeProposed then None else Hold(r)
  }

  predicate Allowed(a: Status, b: Status) {
    match a
    case Requested => b == Confirmed || b == Rejected || b == AlternativeProposed || b == Cancelled
    case AlternativeProposed => b == Confirmed || b == AlternativeDeclined || b == Cancelled
    case Confirmed => b == Cancelled
    case _ => false
  }

  ghost predicate Chained(r: Reservation) {
    && |r.history| > 0
    && r.history[0] == Entry(None, Requested)
    && (forall i :: 0 < i < |r.history| ==>
          r.history[i].previous == Some(r.history[i - 1].next) && Allowed(r.history[i - 1].next, r.history[i].next))
    && r.history[|r.history| - 1].next == r.status
  }

  ghost predicate RowOk(r: Reservation) {
    && LegalLength(r.requested)
    && (r.alternative.Some? ==>
          LegalLength(r.alternative.value.window) && r.alternative.value.expiresAt <= r.alternative.value.window.start - HOUR)
    && (r.status == Requested ==> r.alternative.None?)
    && (r.status == AlternativeProposed ==> r.alternative.Some?)
    && (r.status == Confirmed ==> r.confirmed.Some?)
    && (r.confirmed.Some? ==> r.status == Confirmed || r.status == Cancelled)
    && (r.confirmed.Some? ==>
          || r.confirmed.value == r.requested
          || (r.alternative.Some? && r.confirmed.value == r.alternative.value.window))
    && r.status != Completed
    && r.broker != r.requester
    && Chained(r)
  }

  predicate DiaryApart(a: Reservation, b: Reservation) {
    a.requester == b.requester && FirmHold(a).Some? && FirmHold(b).Some? ==> !Overlaps(FirmHold(a).value, FirmHold(b).value)
  }

  predicate VisitsApart(a: Reservation, b: Reservation) {
    (a.broker == b.broker && a.status == Confirmed && b.status == Confirmed && a.confirmed.Some? && b.confirmed.Some?) ==>
      !Overlaps(a.confirmed.value, b.confirmed.value)
  }

  predicate NotBothActive(a: Reservation, b: Reservation) {
    a.property == b.property && a.requester == b.requester ==> !Active(a.status) || !Active(b.status)
  }

  ghost predicate RequestersDisjoint(t: Table) {
    forall i, j {:trigger DiaryApart(t[i], t[j])} :: i in t && j in t && i != j ==> DiaryApart(t[i], t[j])
  }

  ghost predicate BrokersDisjoint(t: Table) {
    forall i, j {:trigger VisitsApart(t[i], t[j])} :: i in t && j in t && i != j ==> VisitsApart(t[i], t[j])
  }

  ghost predicate OneActive(t: Table) {
    forall i, j {:trigger NotBothActive(t[i], t[j])} :: i in t && j in t && i != j ==> NotBothActive(t[i], t[j])
  }

  ghost predicate Safe(t: Table) {
    && (forall id :: id in t ==> RowOk(t[id]))
    && RequestersDisjoint(t)
    && BrokersDisjoint(t)
    && OneActive(t)
  }

  /** r may stand at id next to every other row of t. */
  ghost predicate Fits(t: Table, id: string, r: Reservation) {
    forall j :: j in t && j != id ==> DiaryApart(t[j], r) && VisitsApart(t[j], r) && NotBothActive(t[j], r)
  }

  lemma PutKeepsRequesters(t: Table, id: string, r: Reservation)
    requires RequestersDisjoint(t) && Fits(t, id, r)
    ensures RequestersDisjoint(t[id := r])
  {
  }

  lemma PutKeepsBrokers(t: Table, id: string, r: Reservation)
    requires BrokersDisjoint(t) && Fits(t, id, r)
    ensures BrokersDisjoint(t[id := r])
  {
  }

  lemma PutKeepsOneActive(t: Table, id: string, r: Reservation)
    requires OneActive(t) && Fits(t, id, r)
    ensures OneActive(t[id := r])
  {
  }

  lemma PutKeepsSafe(t: Table, id: string, r: Reservation)
    requires Safe(t) && RowOk(r) && Fits(t, id, r)
    ensures Safe(t[id := r])
  {
    PutKeepsRequesters(t, id, r);
    PutKeepsBrokers(t, id, r);
    PutKeepsOneActive(t, id, r);
  }

  lemma AdvanceKeepsChain(r: Reservation, next: Status)
    requires Chained(r) && Allowed(r.status, next)
    ensures Chained(Advance(r, next))
  {
    var h, h' := r.history, Advance(r, next).history;
    forall i | 0 < i < |h'|
      ensures h'[i].previous == Some(h'[i - 1].next) && Allowed(h'[i - 1].next, h'[i].next)
    {
      if i < |h| {
        assert h'[i] == h[i];
      }
      assert h'[i - 1] == h[i - 1];
    }
  }

  /** Moving a row along keeps the table safe when the new row adds no firm hold, or adds one that was checked. */
  lemma MoveKeepsSafe(t: Table, id: string, next: Status, r: Reservation)
    requires Safe(t) && id in t && Allowed(t[id].status, next)
    requires r == Advance(t[id], next).(alternative := r.alternative, confirmed := r.confirmed)
    requires RowOk(r)
    requires FirmHold(r).None? || FirmHold(r) == FirmHold(t[id])
             || !RequesterConflict(t, r.requester, FirmHold(r).value, Some(id))
    requires next != Confirmed || (r.confirmed.Some? && !BrokerConflict(t, r.broker, r.confirmed.value, id))
    ensures Safe(t[id := r])
  {
    forall j | j in t && j != id
      ensures DiaryApart(t[j], r) && VisitsApart(t[j], r) && NotBothActive(t[j], r)
    {
      assert Some(j) != Some(id);
      assert DiaryApart(t[j], t[id]) && NotBothActive(t[j], t[id]);
    }
    PutKeepsSafe(t, id, r);
  }

  lemma CreateKeepsSafe(t: Table, now: int, c: Command)
    requires Safe(t) && c.Create? && CreateOutcome(t, now, c).Done?
    ensures Safe(CreateOutcome(t, now, c).table)
  {
    PutKeepsSafe(t, c.id, CreateOutcome(t, now, c).table[c.id]);
  }

  /** Every command but a creation moves one row along a legal transition and leaves the row in order. */
  lemma CommandsMove(t: Table, now: int, c: Command)
    requires c.id in t && RowOk(t[c.id]) && !c.Create? && Apply(t, now, c).Done?
    ensures var t' := Apply(t, now, c).table;
            && c.id in t' && t' == t[c.id := t'[c.id]]
            && Allowed(t[c.id].status, t'[c.id].status) && RowOk(t'[c.id])
            && t'[c.id] == Advance(t[c.id], t'[c.id].status).(alternative := t'[c.id].alternative,
                                                              confirmed := t'[c.id].confirmed)
  {
    AdvanceKeepsChain(t[c.id], Apply(t, now, c).table[c.id].status);
  }

  /** A command that gives its row a new firm hold has asked the requester's diary, one that confirms it the broker's. */
  lemma CommandsAsk(t: Table, now: int, c: Command)
    requires c.id in t && RowOk(t[c.id]) && !c.Create? && Apply(t, now, c).Done?
    ensures var r := Apply(t, now, c).table[c.id];
            && (FirmHold(r).None? || FirmHold(r) == FirmHold(t[c.id])
                || !RequesterConflict(t, r.requester, FirmHold(r).value, Some(c.id)))
            && (r.status != Confirmed || (r.confirmed.Some? && !BrokerConflict(t, r.broker, r.confirmed.value, c.id)))
  {
  }

  lemma StepKeepsSafe(t: Table, now: int, c: Command)
    requires Safe(t)
    ensures Safe(After(t, Apply(t, now, c)))
  {
    if c.Create? {
      if CreateOutcome(t, now, c).Done? {
        CreateKeepsSafe(t, now, c);
      }
    } else if Apply(t, now, c).Done? {
      KnownCommand(t, now, c);
      var r := Apply(t, now, c).table[c.id];
      CommandsMove(t, now, c);
      CommandsAsk(t, now, c);
      MoveKeepsSafe(t, c.id, r.status, r);
    }
  }

  lemma KnownCommand(t: Table, now: int, c: Command)
    requires Apply(t, now, c).Done?
    ensures c.id in Apply(t, now, c).table && (c.id in t <==> !c.Create?)
  {
  }

  lemma {:induction false} RunsAreSafe(t: Table, calls: seq<Call>)
    requires Safe(t)
    ensures Safe(Run(t, calls))
    decreases |calls|
  {
    if calls != [] {
      StepKeepsSafe(t, calls[0].now, calls[0].command);
      RunsAreSafe(After(t, Apply(t, calls[0].now, calls[0].command)), calls[1..]);
    }
  }

  /** From the empty table on, however the operations are mixed: a requester's open requests and confirmed visits never
      overlap, a broker's confirmed visits never overlap, a requester has one active reservation per listing, every
      confirmed window is half an hour to three hours long, and nobody visits a listing of their own. */
  lemma ReachableTables(calls: seq<Call>, i: string, j: string)
    requires i in Run(map[], calls) && j in Run(map[], calls) && i != j
    ensures var a, b := Run(map[], calls)[i], Run(map[], calls)[j];
            && (a.requester == b.requester && FirmHold(a).Some? && FirmHold(b).Some? ==>
                  FirmHold(a).value.end <= FirmHold(b).value.start || FirmHold(b).value.end <= FirmHold(a).value.start)
            && (a.status == Confirmed ==>
                  a.confirmed.Some? && 1_800_000 <= a.confirmed.value.end - a.confirmed.value.start <= 10_800_000)
            && (b.status == Confirmed ==> b.confirmed.Some?)
            && (a.broker == b.broker && a.status == Confirmed && b.status == Confirmed ==>
                  a.confirmed.value.end <= b.confirmed.value.start || b.confirmed.value.end <= a.confirmed.value.start)
            && (a.property == b.property && a.requester == b.requester ==> !Active(a.status) || !Active(b.status))
            && a.broker != a.requester
  {
    var t := Run(map[], calls);
    RunsAreSafe(map[], calls);
    assert RowOk(t[i]) && RowOk(t[j]);
    assert DiaryApart(t[i], t[j]) && VisitsApart(t[i], t[j]) && NotBothActive(t[i], t[j]);
  }

  // ---------- what a run may do to one reservation ----------

  ghost predicate Extends(before: Reservation, after: Reservation) {
    && after.property == before.property
    && after.requester == before.requester
    && after.broker == before.broker
    && after.requested == before.requested
    && before.history <= after.history
    && (!Active(before.status) ==> after == before)
  }

  lemma StepExtends(t: Table, now: int, c: Command, id: string)
    requires id in t
    ensures id in After(t, Apply(t, now, c)) && Extends(t[id], After(t, Apply(t, now, c))[id])
  {
  }

  /** Reservations are never lost, their history only grows, and a closed one is frozen. */
  lemma {:induction false} RunsOnlyExtend(t: Table, calls: seq<Call>, id: string)
    requires id in t
    ensures id in Run(t, calls) && Extends(t[id], Run(t, calls)[id])
    decreases |calls|
  {
    if calls != [] {
      var t' := After(t, Apply(t, calls[0].now, calls[0].command));
      StepExtends(t, calls[0].now, calls[0].command, id);
      RunsOnlyExtend(t', calls[1..], id);
    }
  }

  /** An offer lapses an hour before its window, so the accept check on the window's own start never decides. */
  lemma AcceptLeavesAnHour(t: Table, now: int, id: string, actor: string)
    requires Safe(t) && id in t && t[id].alternative.Some?
    ensures t[id].alternative.value.window.start <= now ==> t[id].alternative.value.expiresAt <= now
    ensures AcceptOutcome(t, now, id, actor).Done? ==>
              var r := AcceptOutcome(t, now, id, actor).table[id];
              r.confirmed.Some? && now + HOUR < r.confirmed.value.start
  {
    assert RowOk(t[id]);
  }

  /** A proposal stays open for at least an hour and at most a day; answered within that hour, before anything else
      changes, it is accepted exactly when the requester is free, since the broker's own diary was checked already. */
  lemma ProposalIsAcceptedIff(t: Table, now: int, id: string, actor: string, start: Option<int>, end: Option<int>, later: int)
    requires ProposeOutcome(t, now, id, actor, start, end).Done? && now <= later < now + HOUR
    ensures var t' := ProposeOutcome(t, now, id, actor, start, end).table;
            && now + HOUR <= t'[id].alternative.value.expiresAt <= now + DAY
            && (AcceptOutcome(t', later, id, t[id].requester).Done? <==>
                !RequesterConflict(t, t[id].requester, Window(start.value, end.value), Some(id)))
  {
    var t' := ProposeOutcome(t, now, id, actor, start, end).table;
    var w := Window(start.value, end.value);
    SameConflicts(t, t', id, t[id].requester, t[id].broker, w);
  }

  lemma SameConflicts(t: Table, t': Table, id: string, requester: string, broker: string, w: Window)
    requires id in t && id in t' && t' == t[id := t'[id]]
    ensures RequesterConflict(t', requester, w, Some(id)) <==> RequesterConflict(t, requester, w, Some(id))
    ensures BrokerConflict(t', broker, w, id) <==> BrokerConflict(t, broker, w, id)
  {
    forall j | j != id
      ensures j in t <==> j in t'
      ensures j in t ==> t'[j] == t[j]
    {
    }
  }

  /** Every window a requester is asked to keep free, pending alternatives included. */
  ghost predicate HoldsDisjoint(t: Table) {
    forall i, j :: i in t && j in t && i != j && t[i].requester == t[j].requester
                   && Hold(t[i]).Some? && Hold(t[j]).Some?
                   ==> !Overlaps(Hold(t[i]).value, Hold(t[j]).value)
  }

  lemma ClashBreaksDiary(t: Table, id: string, r: Reservation)
    requires Hold(r).Some? && RequesterConflict(t, r.requester, Hold(r).value, Some(id))
    ensures !HoldsDisjoint(t[id := r])
  {
    var j :| j in t && Some(j) != Some(id) && t[j].requester == r.requester
             && Hold(t[j]).Some? && Overlaps(Hold(t[j]).value, Hold(r).value);
    var t' := t[id := r];
    assert j in t' && id in t' && t'[j] == t[j] && t'[id] == r;
  }

  lemma NoClashKeepsDiary(t: Table, id: string, r: Reservation)
    requires HoldsDisjoint(t) && Hold(r).Some? && !RequesterConflict(t, r.requester, Hold(r).value, Some(id))
    ensures HoldsDisjoint(t[id := r])
  {
    forall j | j in t && j != id && t[j].requester == r.requester && Hold(t[j]).Some?
      ensures !Overlaps(Hold(t[j]).value, Hold(r).value)
    {
      assert Some(j) != Some(id);
    }
  }

  /** A proposal keeps a requester's whole diary free of overlaps exactly when the requester check it omits would pass. */
  lemma ProposalKeepsDiaryIff(t: Table, now: int, id: string, actor: string, start: Option<int>, end: Option<int>)
    requires Safe(t) && HoldsDisjoint(t)
    requires ProposeOutcome(t, now, id, actor, start, end).Done?
    ensures HoldsDisjoint(ProposeOutcome(t, now, id, actor, start, end).table)
            <==> !RequesterConflict(t, t[id].requester, Window(start.value, end.value), Some(id))
  {
    var r := ProposeOutcome(t, now, id, actor, start, end).table[id];
    assert Hold(r) == Some(Window(start.value, end.value)) && r.requester == t[id].requester;
    if RequesterConflict(t, r.requester, Hold(r).value, Some(id)) {
      ClashBreaksDiary(t, id, r);
    } else {
      NoClashKeepsDiary(t, id, r);
    }
  }

  /** A reachable table in which a proposal overlaps another request of the same requester. */
  lemma ProposalsCanOverlap() returns (calls: seq<Call>)
    ensures !HoldsDisjoint(Run(map[], calls))
  {
    var a := Some(10 * HOUR);
    var b := Some(20 * HOUR);
    var c1 := Call(0, Create("1", "ann", true, Some(Listing("p", "bob")), a, Some(11 * HOUR)));
    var c2 := Call(0, Create("2", "ann", true, Some(Listing("q", "cid")), b, Some(21 * HOUR)));
    var c3 := Call(0, Propose("1", "bob", b, Some(21 * HOUR)));
    var t0: Table := map[];
    var r1 := Reservation("p", "ann", "bob", Requested, Window(10 * HOUR, 11 * HOUR), None, None, [Entry(None, Requested)]);
    var r2 := Reservation("q", "ann", "cid", Requested, Window(20 * HOUR, 21 * HOUR), None, None, [Entry(None, Requested)]);
    var t1 := t0["1" := r1];
    assert Apply(t0, 0, c1.command) == Done(t1);
    var t2 := t1["2" := r2];
    assert "1" != "2";
    assert Apply(t1, 0, c2.command) == Done(t2);
    var t3 := After(t2, Apply(t2, 0, c3.command));
    assert Hold(t3["1"]) == Some(r2.requested) && Hold(t3["2"]) == Some(r2.requested);
    assert t3["1"].requester == t3["2"].requester;
    calls := [c1, c2, c3];
    assert calls[1..] == [c2, c3] && calls[1..][1..] == [c3] && calls[1..][1..][1..] == [];
    assert Run(t3, []) == t3;
    assert Run(t2, [c3]) == t3;
    assert Run(t1, [c2, c3]) == t3;
    assert !HoldsDisjoint(t3);
  }

  /** Cancelling undoes a booking: the same requester may take the same window of the same listing again,
      unless some broker has meanwhile offered the requester an overlapping alternative. */
  lemma RebookAfterCancelIff(t: Table, now: int, id: string, actor: string, later: int, c: Command)
    requires Safe(t) && id in t && t[id].requester == actor
    requires t[id].status == Requested || (t[id].status == Confirmed && now < t[id].confirmed.value.start)
    requires c.Create? && c.actor == actor && c.phoneVerified && c.id !in t
    requires c.listing == Some(Listing(t[id].property, t[id].broker))
    requires VisitWindow(c.start, c.end, later) == FirmHold(t[id])
    ensures CancelOutcome(t, now, id, actor).Done?
    ensures CreateOutcome(CancelOutcome(t, now, id, actor).table, later, c).Done?
            <==> !exists j :: j in t && t[j].requester == actor && t[j].status == AlternativeProposed
                              && Overlaps(t[j].alternative.value.window, FirmHold(t[id]).value)
  {
    assert RowOk(t[id]);
    CancellationSucceedsIff(t, now, id, actor);
    var t' := CancelOutcome(t, now, id, actor).table;
    var w := FirmHold(t[id]).value;
    forall j | j in t && j != id && t[j].property == t[id].property && t[j].requester == actor
      ensures !Active(t[j].status)
    {
      assert NotBothActive(t[j], t[id]);
    }
    assert !HasActive(t', t[id].property, actor);
    DiaryAfterCancel(t, now, id, actor);
  }

  /** What clashes with a firm hold of a safe table is an alternative on offer. */
  lemma ClashIsAlternative(t: Table, id: string, j: string)
    requires Safe(t) && id in t && FirmHold(t[id]).Some? && j in t && j != id && t[j].requester == t[id].requester
    requires Hold(t[j]).Some? && Overlaps(Hold(t[j]).value, FirmHold(t[id]).value)
    ensures t[j].status == AlternativeProposed && t[j].alternative.Some?
    ensures Hold(t[j]) == Some(t[j].alternative.value.window)
  {
    assert RowOk(t[j]) && DiaryApart(t[j], t[id]);
  }

  lemma DiaryAfterCancel(t: Table, now: int, id: string, actor: string)
    requires Safe(t) && CancelOutcome(t, now, id, actor).Done? && FirmHold(t[id]).Some?
    ensures RequesterConflict(CancelOutcome(t, now, id, actor).table, actor, FirmHold(t[id]).value, None)
            <==> exists j :: j in t && t[j].requester == actor && t[j].status == AlternativeProposed
                             && Overlaps(t[j].alternative.value.window, FirmHold(t[id]).value)
  {
    var w := FirmHold(t[id]).value;
    var r := CancelOutcome(t, now, id, actor).table[id];
    if RequesterConflict(t[id := r], actor, w, None) {
      var j := RemainingClash(t, id, r);
    }
    if j :| j in t && t[j].requester == actor && t[j].status == AlternativeProposed
            && Overlaps(t[j].alternative.value.window, w) {
      assert RowOk(t[j]);
      AlternativeClashes(t[id := r], j, t[j], actor, w);
    }
  }

  /** What still clashes with a window after its row was closed is an alternative on offer. */
  lemma RemainingClash(t: Table, id: string, r: Reservation) returns (j: string)
    requires Safe(t) && id in t && FirmHold(t[id]).Some? && Hold(r).None?
    requires RequesterConflict(t[id := r], t[id].requester, FirmHold(t[id]).value, None)
    ensures j in t && t[j].requester == t[id].requester && t[j].status == AlternativeProposed && t[j].alternative.Some?
    ensures Overlaps(t[j].alternative.value.window, FirmHold(t[id]).value)
  {
    j :| j in t[id := r] && Some(j) != None && t[id := r][j].requester == t[id].requester
         && Hold(t[id := r][j]).Some? && Overlaps(Hold(t[id := r][j]).value, FirmHold(t[id]).value);
    assert j != id && t[id := r][j] == t[j];
    ClashIsAlternative(t, id, j);
  }

  lemma AlternativeClashes(t: Table, j: string, r: Reservation, requester: string, w: Window)
    requires j in t && t[j] == r && r.requester == requester && r.status == AlternativeProposed && r.alternative.Some?
    requires Overlaps(r.alternative.value.window, w)
    ensures RequesterConflict(t, requester, w, None)
  {
    assert Some(j) != None && Hold(t[j]) == Some(r.alternative.value.window);
  }

  /** Check and write are separate transactions. When two approvals both pass their check before either writes,
      the broker's confirmed visits stay disjoint exactly when the two requests do not clash. */
  lemma ApprovalsCheckedTogetherIff(t: Table, now: int, a: string, now': int, b: string)
    requires Safe(t) && a in t && b in t && a != b
    requires ApproveOutcome(t, now, a, t[a].broker).Done? && ApproveOutcome(t, now', b, t[b].broker).Done?
    ensures var r, r' := ApproveOutcome(t, now, a, t[a].broker).table[a], ApproveOutcome(t, now', b, t[b].broker).table[b];
            BrokersDisjoint(t[a := r][b := r']) <==> t[a].broker != t[b].broker || !Overlaps(t[a].requested, t[b].requested)
  {
    var r, r' := ApproveOutcome(t, now, a, t[a].broker).table[a], ApproveOutcome(t, now', b, t[b].broker).table[b];
    ConfirmationsCheckedTogetherIff(t, a, r, b, r');
  }

  /** The same for any two confirmations, by approval or acceptance, that passed the broker's check before either was
      written. */
  lemma ConfirmationsCheckedTogetherIff(t: Table, a: string, ra: Reservation, b: string, rb: Reservation)
    requires BrokersDisjoint(t) && a != b && ra.status == rb.status == Confirmed && ra.confirmed.Some? && rb.confirmed.Some?
    requires !BrokerConflict(t, ra.broker, ra.confirmed.value, a) && !BrokerConflict(t, rb.broker, rb.confirmed.value, b)
    ensures BrokersDisjoint(t[a := ra][b := rb])
            <==> ra.broker != rb.broker || !Overlaps(ra.confirmed.value, rb.confirmed.value)
  {
    var first := t[a := ra];
    ConfirmingKeepsBrokersIff(t, a, ra);
    ConfirmingKeepsBrokersIff(first, b, rb);
    forall j | j in first && j != a
      ensures j in t && first[j] == t[j]
    {
    }
    assert first[a] == ra;
  }

  /** Writing a confirmed row keeps the brokers' visits disjoint exactly when the availability check passes. */
  lemma ConfirmingKeepsBrokersIff(t: Table, id: string, r: Reservation)
    requires BrokersDisjoint(t) && r.status == Confirmed && r.confirmed.Some?
    ensures BrokersDisjoint(t[id := r]) <==> !BrokerConflict(t, r.broker, r.confirmed.value, id)
  {
    var t' := t[id := r];
    if BrokerConflict(t, r.broker, r.confirmed.value, id) {
      var j :| j in t && j != id && t[j].broker == r.broker
               && t[j].status == Confirmed && t[j].confirmed.Some? && Overlaps(t[j].confirmed.value, r.confirmed.value);
      assert j in t' && id in t' && !VisitsApart(t'[j], t'[id]);
    } else {
      forall i, j | i in t' && j in t' && i != j
        ensures VisitsApart(t'[i], t'[j])
      {
        if i != id && j != id {
          assert VisitsApart(t[i], t[j]);
        }
      }
    }
  }

  /** Two requesters ask one broker for the same hour. */
  lemma SameHourRequested() returns (calls: seq<Call>)
    ensures var t := Run(map[], calls);
            && t.Keys == {"1", "2"} && t["1"].requested == t["2"].requested == Window(10 * HOUR, 11 * HOUR)
            && t["1"].broker == t["2"].broker == "bob" && t["1"].status == t["2"].status == Requested
  {
    var w := Window(10 * HOUR, 11 * HOUR);
    var c1 := Call(0, Create("1", "ann", true, Some(Listing("p", "bob")), Some(w.start), Some(w.end)));
    var c2 := Call(0, Create("2", "dan", true, Some(Listing("p", "bob")), Some(w.start), Some(w.end)));
    var t1: Table := map["1" := Reservation("p", "ann", "bob", Requested, w, None, None, [Entry(None, Requested)])];
    assert Apply(map[], 0, c1.command) == Done(t1);
    var t2 := t1["2" := Reservation("p", "dan", "bob", Requested, w, None, None, [Entry(None, Requested)])];
    assert "1"[0] != "2"[0];
    assert Apply(t1, 0, c2.command) == Done(t2);
    calls := [c1, c2];
    assert calls[1..] == [c2] && calls[1..][1..] == [];
    assert Run(t2, []) == t2 && Run(t1, [c2]) == t2 && Run(map[], calls) == t2;
  }

  /** A run after which two overlapping requests to one broker both pass the approval's check. */
  lemma ApprovalsCanClash() returns (calls: seq<Call>)
    ensures var t := Run(map[], calls);
            && "1" in t && "2" in t
            && ApproveOutcome(t, 0, "1", "bob").Done? && ApproveOutcome(t, 0, "2", "bob").Done?
            && !BrokersDisjoint(t["1" := ApproveOutcome(t, 0, "1", "bob").table["1"]]
                                 ["2" := ApproveOutcome(t, 0, "2", "bob").table["2"]])
  {
    calls := SameHourRequested();
    var t := Run(map[], calls);
    RunsAreSafe(map[], calls);
    NothingConfirmed(t, "bob", t["1"].requested);
    assert "1"[0] != "2"[0];
    ApprovalsCheckedTogetherIff(t, 0, "1", 0, "2");
  }

  lemma NothingConfirmed(t: Table, broker: string, w: Window)
    requires forall j :: j in t ==> t[j].status == Requested
    ensures forall id :: !BrokerConflict(t, broker, w, id)
  {
  }

  // ---------- requester checks that are read before the write ----------

  /** Another firm hold of the requester overlaps the window. */
  predicate FirmConflict(t: Table, requester: string, w: Window, excluded: string) {
    exists j :: j in t && j != excluded && t[j].requester == requester
                && FirmHold(t[j]).Some? && Overlaps(FirmHold(t[j]).value, w)
  }

  /** Writing a row that holds a window keeps the requesters' diaries disjoint exactly when no firm hold clashes. */
  lemma HoldingKeepsRequestersIff(t: Table, id: string, r: Reservation)
    requires RequestersDisjoint(t) && FirmHold(r).Some?
    ensures RequestersDisjoint(t[id := r]) <==> !FirmConflict(t, r.requester, FirmHold(r).value, id)
  {
    var t' := t[id := r];
    if FirmConflict(t, r.requester, FirmHold(r).value, id) {
      var j :| j in t && j != id && t[j].requester == r.requester
               && FirmHold(t[j]).Some? && Overlaps(FirmHold(t[j]).value, FirmHold(r).value);
      assert j in t' && id in t' && !DiaryApart(t'[j], t'[id]);
    } else {
      forall i, j | i in t' && j in t' && i != j
        ensures DiaryApart(t'[i], t'[j])
      {
        if i != id && j != id {
          assert DiaryApart(t[i], t[j]);
        }
      }
    }
  }

  /** Two rows that each passed the requester check before either was written. */
  lemma WritesCheckedTogetherIff(t: Table, a: string, ra: Reservation, b: string, rb: Reservation)
    requires RequestersDisjoint(t) && a != b && FirmHold(ra).Some? && FirmHold(rb).Some?
    requires !RequesterConflict(t, ra.requester, FirmHold(ra).value, Some(a))
    requires !RequesterConflict(t, rb.requester, FirmHold(rb).value, Some(b))
    ensures RequestersDisjoint(t[a := ra][b := rb])
            <==> ra.requester != rb.requester || !Overlaps(FirmHold(ra).value, FirmHold(rb).value)
  {
    var first := t[a := ra];
    NoConflictIsFirm(t, ra.requester, FirmHold(ra).value, a);
    NoConflictIsFirm(t, rb.requester, FirmHold(rb).value, b);
    HoldingKeepsRequestersIff(t, a, ra);
    HoldingKeepsRequestersIff(first, b, rb);
    forall j | j in first && j != a
      ensures j in t && first[j] == t[j]
    {
    }
    assert first[a] == ra;
  }

  lemma NoConflictIsFirm(t: Table, requester: string, w: Window, id: string)
    requires !RequesterConflict(t, requester, w, Some(id))
    ensures !FirmConflict(t, requester, w, id)
  {
    forall j | j in t && j != id && t[j].requester == requester && FirmHold(t[j]).Some?
      ensures !Overlaps(FirmHold(t[j]).value, w)
    {
      assert Some(j) != Some(id) && Hold(t[j]) == FirmHold(t[j]);
    }
  }

  /** The insert of a new row; the unique index refuses a second active row for one listing and requester. */
  function Insert(t: Table, id: string, r: Reservation): Table {
    if HasActive(t, r.property, r.requester) then t else t[id := r]
  }

  /** Two requests that both pass their checks before either is written keep the requesters' diaries disjoint exactly
      when they are different requesters', for one listing, or for windows that do not clash. */
  lemma CreationsCheckedTogetherIff(t: Table, now: int, c: Command, now': int, c': Command)
    requires Safe(t) && c.Create? && c'.Create? && c.id != c'.id
    requires CreateOutcome(t, now, c).Done? && CreateOutcome(t, now', c').Done?
    ensures var r, r' := CreateOutcome(t, now, c).table[c.id], CreateOutcome(t, now', c').table[c'.id];
            RequestersDisjoint(Insert(Insert(t, c.id, r), c'.id, r'))
            <==> r.requester != r'.requester || r.property == r'.property || !Overlaps(r.requested, r'.requested)
  {
    var r, r' := CreateOutcome(t, now, c).table[c.id], CreateOutcome(t, now', c').table[c'.id];
    var first := t[c.id := r];
    assert Insert(t, c.id, r) == first;
    ActiveAfterInsert(t, c.id, r, r'.property, r'.requester);
    HoldingKeepsRequestersIff(t, c.id, r);
    NotYetThere(t, r.requester, r.requested, c.id);
    NotYetThere(t, r'.requester, r'.requested, c'.id);
    NoConflictIsFirm(t, r.requester, r.requested, c.id);
    WritesCheckedTogetherIff(t, c.id, r, c'.id, r');
  }

  lemma NotYetThere(t: Table, requester: string, w: Window, id: string)
    requires !RequesterConflict(t, requester, w, None)
    ensures !RequesterConflict(t, requester, w, Some(id))
  {
    forall j | j in t && Some(j) != Some(id) && t[j].requester == requester && Hold(t[j]).Some?
      ensures !Overlaps(Hold(t[j]).value, w)
    {
      assert Some(j) != None;
    }
  }

  lemma ActiveAfterInsert(t: Table, id: string, r: Reservation, property: string, requester: string)
    requires id !in t && Active(r.status) && !HasActive(t, property, requester)
    ensures HasActive(t[id := r], property, requester) <==> r.property == property && r.requester == requester
  {
    var t' := t[id := r];
    if r.property == property && r.requester == requester {
      assert id in t' && t'[id] == r;
    }
    forall j | j in t' && j != id
      ensures j in t && t'[j] == t[j]
    {
    }
  }

  /** A request and an acceptance that were checked on one table never clash, since each check saw the other window. */
  lemma CreationAndAcceptanceCheckedTogether(t: Table, now: int, c: Command, now': int, id: string, actor: string)
    requires Safe(t) && c.Create? && CreateOutcome(t, now, c).Done? && AcceptOutcome(t, now', id, actor).Done?
    ensures var r, r' := CreateOutcome(t, now, c).table[c.id], AcceptOutcome(t, now', id, actor).table[id];
            RequestersDisjoint(t[c.id := r][id := r']) && BrokersDisjoint(t[c.id := r][id := r'])
  {
    var r, r' := CreateOutcome(t, now, c).table[c.id], AcceptOutcome(t, now', id, actor).table[id];
    NotYetThere(t, r.requester, r.requested, c.id);
    OfferIsSeen(t, r.requester, r.requested, None, id);
    WritesCheckedTogetherIff(t, c.id, r, id, r');
    UnconfirmedHidesNothing(t, c.id, r, r'.broker, r'.confirmed.value, id);
    ConfirmingKeepsBrokersIff(t[c.id := r], id, r');
  }

  /** A requester check that passes saw every pending offer of the requester. */
  lemma OfferIsSeen(t: Table, requester: string, w: Window, excluded: Option<string>, id: string)
    requires !RequesterConflict(t, requester, w, excluded) && id in t && Some(id) != excluded
    requires t[id].status == AlternativeProposed && t[id].alternative.Some?
    ensures t[id].requester != requester || !Overlaps(w, t[id].alternative.value.window)
  {
    assert Hold(t[id]) == Some(t[id].alternative.value.window);
  }

  /** A new row that is not confirmed neither disturbs the brokers' visits nor changes an availability check. */
  lemma UnconfirmedHidesNothing(t: Table, n: string, r: Reservation, broker: string, w: Window, id: string)
    requires BrokersDisjoint(t) && n !in t && r.status != Confirmed && !BrokerConflict(t, broker, w, id)
    ensures BrokersDisjoint(t[n := r]) && !BrokerConflict(t[n := r], broker, w, id)
  {
    forall j | j in t[n := r] && j != n
      ensures j in t && t[n := r][j] == t[j]
    {
    }
  }

  /** Two acceptances checked on one table never clash for the requester, whose pending offers both checks saw; the
      broker's visits stay disjoint exactly when the two offers do not clash. */
  lemma AcceptancesCheckedTogetherIff(t: Table, now: int, a: string, now': int, b: string)
    requires Safe(t) && a in t && b in t && a != b
    requires AcceptOutcome(t, now, a, t[a].requester).Done? && AcceptOutcome(t, now', b, t[b].requester).Done?
    ensures var r, r' := AcceptOutcome(t, now, a, t[a].requester).table[a], AcceptOutcome(t, now', b, t[b].requester).table[b];
            && RequestersDisjoint(t[a := r][b := r'])
            && (BrokersDisjoint(t[a := r][b := r'])
                <==> t[a].broker != t[b].broker || !Overlaps(r.confirmed.value, r'.confirmed.value))
  {
    var r, r' := AcceptOutcome(t, now, a, t[a].requester).table[a], AcceptOutcome(t, now', b, t[b].requester).table[b];
    OfferIsSeen(t, r.requester, r.confirmed.value, Some(a), b);
    WritesCheckedTogetherIff(t, a, r, b, r');
    ConfirmationsCheckedTogetherIff(t, a, r, b, r');
  }

  /** An approval and an acceptance can only break the broker's diary: the acceptance's check saw the open request. */
  lemma ApprovalAndAcceptanceCheckedTogetherIff(t: Table, now: int, a: string, now': int, b: string)
    requires Safe(t) && a in t && b in t && a != b
    requires ApproveOutcome(t, now, a, t[a].broker).Done? && AcceptOutcome(t, now', b, t[b].requester).Done?
    ensures var r, r' := ApproveOutcome(t, now, a, t[a].broker).table[a], AcceptOutcome(t, now', b, t[b].requester).table[b];
            && RequestersDisjoint(t[a := r][b := r'])
            && (BrokersDisjoint(t[a := r][b := r'])
                <==> t[a].broker != t[b].broker || !Overlaps(t[a].requested, r'.confirmed.value))
  {
    var r, r' := ApproveOutcome(t, now, a, t[a].broker).table[a], AcceptOutcome(t, now', b, t[b].requester).table[b];
    ConfirmationsCheckedTogetherIff(t, a, r, b, r');
    NoConflictIsFirm(t, r'.requester, r'.confirmed.value, b);
    SameHoldKeepsRequesters(t, a, r, r'.requester, r'.confirmed.value, b);
    HoldingKeepsRequestersIff(t[a := r], b, r');
  }

  /** Replacing a row by one with the same firm hold of the same requester changes nobody's diary. */
  lemma SameHoldKeepsRequesters(t: Table, a: string, r: Reservation, requester: string, w: Window, id: string)
    requires RequestersDisjoint(t) && a in t && r.requester == t[a].requester && FirmHold(r) == FirmHold(t[a])
    requires !FirmConflict(t, requester, w, id)
    ensures RequestersDisjoint(t[a := r]) && !FirmConflict(t[a := r], requester, w, id)
  {
    var t' := t[a := r];
    forall j | j in t'
      ensures j in t && FirmHold(t'[j]) == FirmHold(t[j]) && t'[j].requester == t[j].requester
    {
    }
    forall i, j | i in t' && j in t' && i != j
      ensures DiaryApart(t'[i], t'[j])
    {
      assert DiaryApart(t[i], t[j]);
    }
  }

  /** Two overlapping requests of one requester for different listings that both pass against the empty table. */
  lemma CreationsCanClash() returns (c: Command, c': Command)
    ensures c.Create? && c'.Create? && c.id != c'.id
    ensures CreateOutcome(map[], 0, c).Done? && CreateOutcome(map[], 0, c').Done?
    ensures var r, r' := CreateOutcome(map[], 0, c).table[c.id], CreateOutcome(map[], 0, c').table[c'.id];
            !RequestersDisjoint(Insert(Insert(map[], c.id, r), c'.id, r'))
  {
    c := Create("1", "ann", true, Some(Listing("p", "bob")), Some(10 * HOUR), Some(11 * HOUR));
    c' := Create("2", "ann", true, Some(Listing("q", "cid")), Some(10 * HOUR), Some(11 * HOUR));
    assert c.id[0] != c'.id[0] && c.listing.value.property[0] != c'.listing.value.property[0];
    CreationsCheckedTogetherIff(map[], 0, c, 0, c');
  }

  // ---------- what each operation answers ----------

  /** A window somebody may ask for or be offered: half an hour to three hours long, two hours to ninety days ahead. */
  ghost predicate Bookable(start: Option<int>, end: Option<int>, now: int) {
    && start.Some? && end.Some?
    && 1_800_000 <= end.value - start.value <= 10_800_000
    && now + 7_200_000 <= start.value <= now + 7_776_000_000
  }

  ghost predicate Disjoint(a: Window, b: Window) {
    a.end <= b.start || b.end <= a.start
  }

  /** Neither an open request, nor a pending offer, nor a confirmed visit of the requester is in the way. */
  ghost predicate RequesterFree(t: Table, requester: string, w: Window, excluded: Option<string>) {
    forall j :: j in t && Some(j) != excluded && t[j].requester == requester ==>
      && (t[j].status == Requested ==> Disjoint(t[j].requested, w))
      && (t[j].status == AlternativeProposed && t[j].alternative.Some? ==> Disjoint(t[j].alternative.value.window, w))
      && (t[j].status == Confirmed && t[j].confirmed.Some? ==> Disjoint(t[j].confirmed.value, w))
  }

  /** No other confirmed visit of the broker is in the way. */
  ghost predicate BrokerFree(t: Table, broker: string, w: Window, excluded: string) {
    forall j :: j in t && j != excluded && t[j].broker == broker && t[j].status == Confirmed && t[j].confirmed.Some? ==>
      Disjoint(t[j].confirmed.value, w)
  }

  /** The requester's earlier reservations of the listing are all closed. */
  ghost predicate NoneOpen(t: Table, property: string, requester: string) {
    forall j :: j in t && t[j].property == property && t[j].requester == requester ==>
      t[j].status == Rejected || t[j].status == AlternativeDeclined || t[j].status == Cancelled || t[j].status == Completed
  }

  lemma ChecksMeanFree(t: Table, user: string, w: Window, excluded: Option<string>, id: string, property: string)
    ensures RequesterConflict(t, user, w, excluded) <==> !RequesterFree(t, user, w, excluded)
    ensures BrokerConflict(t, user, w, id) <==> !BrokerFree(t, user, w, id)
    ensures HasActive(t, property, user) <==> !NoneOpen(t, property, user)
  {
    RequesterCheckMeansFree(t, user, w, excluded);
    if !BrokerFree(t, user, w, id) {
      var j :| j in t && j != id && t[j].broker == user && t[j].status == Confirmed && t[j].confirmed.Some?
               && !Disjoint(t[j].confirmed.value, w);
      assert BrokerConflict(t, user, w, id);
    }
  }

  lemma RequesterCheckMeansFree(t: Table, user: string, w: Window, excluded: Option<string>)
    ensures RequesterConflict(t, user, w, excluded) <==> !RequesterFree(t, user, w, excluded)
  {
    if RequesterConflict(t, user, w, excluded) {
      var j :| j in t && Some(j) != excluded && t[j].requester == user && Hold(t[j]).Some? && Overlaps(Hold(t[j]).value, w);
      assert !Disjoint(Hold(t[j]).value, w);
    } else {
      forall j | j in t && Some(j) != excluded && t[j].requester == user && Hold(t[j]).Some?
        ensures Disjoint(Hold(t[j]).value, w)
      {
        assert !Overlaps(Hold(t[j]).value, w);
      }
    }
  }

  /** Nothing but the row at id is touched. */
  ghost predicate OnlyRow(t: Table, t': Table, id: string) {
    id in t' && t'.Keys == t.Keys + {id} && forall j :: j in t && j != id ==> t'[j] == t[j]
  }

  /** A request is taken exactly when the window is bookable, the phone verified, the listing public and somebody else's,
      none of the requester's reservations of it open, and the requester free; the first of these to fail is the answer. */
  lemma CreationAnswers(t: Table, now: int, c: Command)
    requires c.Create? && c.id !in t
    ensures var o := Apply(t, now, c);
            var w := if Bookable(c.start, c.end, now) then Window(c.start.value, c.end.value) else Window(0, 0);
            match o
            case Done(t') =>
              && Bookable(c.start, c.end, now) && c.phoneVerified && c.listing.Some? && c.listing.value.broker != c.actor
              && NoneOpen(t, c.listing.value.property, c.actor) && RequesterFree(t, c.actor, w, None)
              && OnlyRow(t, t', c.id)
              && t'[c.id] == Reservation(c.listing.value.property, c.actor, c.listing.value.broker, Requested, w, None, None,
                                         [Entry(None, Requested)])
            case Refused(error) =>
              error == (if !Bookable(c.start, c.end, now) then InvalidWindow
                       else if !c.phoneVerified then PhoneNotVerified
                       else if c.listing.None? then NotFound
                       else if c.listing.value.broker == c.actor then OwnListing
                       else if !NoneOpen(t, c.listing.value.property, c.actor) then DuplicateActive
                       else RequesterBusy)
              && (error == RequesterBusy ==> !RequesterFree(t, c.actor, w, None))
  {
    assert VisitWindow(c.start, c.end, now).Some? <==> Bookable(c.start, c.end, now);
    if Bookable(c.start, c.end, now) && c.listing.Some? {
      ChecksMeanFree(t, c.actor, Window(c.start.value, c.end.value), None, c.id, c.listing.value.property);
    }
  }

  /** An approval confirms the requested window exactly when the broker's own open request has not started and the broker
      is free. */
  lemma ApprovalAnswers(t: Table, now: int, id: string, actor: string)
    ensures match Apply(t, now, Approve(id, actor))
            case Done(t') =>
              && id in t && t[id].broker == actor && t[id].status == Requested
              && now < t[id].requested.start && BrokerFree(t, actor, t[id].requested, id)
              && OnlyRow(t, t', id) && t'[id].status == Confirmed && t'[id].confirmed == Some(t[id].requested)
              && t'[id] == t[id].(status := Confirmed, confirmed := t'[id].confirmed, history := t'[id].history)
            case Refused(error) =>
              error == (if id !in t || t[id].broker != actor then NotFound
                       else if t[id].status != Requested then WrongStatus
                       else if t[id].requested.start <= now then TooLate
                       else BrokerBusy)
              && (error == BrokerBusy ==> !BrokerFree(t, actor, t[id].requested, id))
  {
    if id in t {
      ChecksMeanFree(t, actor, t[id].requested, None, id, "");
    }
  }

  /** A proposal is made exactly when the broker's own request is open, the window bookable and the broker free. */
  lemma ProposalAnswers(t: Table, now: int, id: string, actor: string, start: Option<int>, end: Option<int>)
    ensures var w := if Bookable(start, end, now) then Window(start.value, end.value) else Window(0, 0);
            match Apply(t, now, Propose(id, actor, start, end))
            case Done(t') =>
              && id in t && t[id].broker == actor && t[id].status == Requested
              && Bookable(start, end, now) && BrokerFree(t, actor, w, id)
              && OnlyRow(t, t', id) && t'[id].status == AlternativeProposed
              && t'[id].alternative == Some(Offer(w, if w.start - 3_600_000 < now + 86_400_000 then w.start - 3_600_000
                                                     else now + 86_400_000))
              && t'[id] == t[id].(status := AlternativeProposed, alternative := t'[id].alternative, history := t'[id].history)
            case Refused(error) =>
              error == (if id !in t || t[id].broker != actor then NotFound
                       else if t[id].status != Requested then WrongStatus
                       else if !Bookable(start, end, now) then InvalidWindow
                       else BrokerBusy)
              && (error == BrokerBusy ==> !BrokerFree(t, actor, w, id))
  {
    assert VisitWindow(start, end, now).Some? <==> Bookable(start, end, now);
    if Bookable(start, end, now) {
      ChecksMeanFree(t, actor, Window(start.value, end.value), None, id, "");
    }
  }

  /** An acceptance confirms the offered window exactly when the requester's own offer is open, and broker and requester
      are free. */
  lemma AcceptanceAnswers(t: Table, now: int, id: string, actor: string)
    requires Safe(t)
    ensures match Apply(t, now, Accept(id, actor))
            case Done(t') =>
              && id in t && t[id].requester == actor && t[id].status == AlternativeProposed
              && now < t[id].alternative.value.expiresAt
              && BrokerFree(t, t[id].broker, t[id].alternative.value.window, id)
              && RequesterFree(t, actor, t[id].alternative.value.window, Some(id))
              && OnlyRow(t, t', id) && t'[id].status == Confirmed
              && t'[id].confirmed == Some(t[id].alternative.value.window)
              && t'[id] == t[id].(status := Confirmed, confirmed := t'[id].confirmed, history := t'[id].history)
            case Refused(error) =>
              error == (if id !in t || t[id].requester != actor then NotFound
                        else if t[id].status != AlternativeProposed then WrongStatus
                        else if t[id].alternative.value.expiresAt <= now then TooLate
                        else if !BrokerFree(t, t[id].broker, t[id].alternative.value.window, id) then BrokerBusy
                        else RequesterBusy)
              && (error == RequesterBusy ==> !RequesterFree(t, actor, t[id].alternative.value.window, Some(id)))
  {
    if id in t && t[id].alternative.Some? {
      var w := t[id].alternative.value.window;
      assert RowOk(t[id]);
      ChecksMeanFree(t, t[id].broker, w, Some(id), id, "");
      ChecksMeanFree(t, actor, w, Some(id), id, "");
    }
  }

  /** A rejection closes the broker's own open request, and a refusal the requester's own pending offer; either fails in
      any other status, and the closed row holds no window. */
  lemma ClosingAnswers(t: Table, now: int, id: string, actor: string)
    ensures match Apply(t, now, Reject(id, actor))
            case Done(t') => id in t && t[id].broker == actor && t[id].status == Requested && ClosedAs(t, t', id, Rejected)
            case Refused(error) => error == (if id !in t || t[id].broker != actor then NotFound else WrongStatus)
                                   && (error == WrongStatus ==> t[id].status != Requested)
    ensures match Apply(t, now, Decline(id, actor))
            case Done(t') => id in t && t[id].requester == actor && t[id].status == AlternativeProposed
                             && ClosedAs(t, t', id, AlternativeDeclined)
            case Refused(error) => error == (if id !in t || t[id].requester != actor then NotFound else WrongStatus)
                                   && (error == WrongStatus ==> t[id].status != AlternativeProposed)
  {
  }

  ghost predicate ClosedAs(t: Table, t': Table, id: string, status: Status)
    requires id in t
  {
    && OnlyRow(t, t', id) && t'[id].status == status && Hold(t'[id]) == None
    && t'[id] == t[id].(status := status, history := t[id].history + [Entry(Some(t[id].status), status)])
  }

  ghost predicate Cancellable(t: Table, now: int, id: string, actor: string) {
    && id in t && t[id].requester == actor
    && (|| t[id].status == Requested || t[id].status == AlternativeProposed
        || (t[id].status == Confirmed && t[id].confirmed.Some? && now < t[id].confirmed.value.start))
  }

  lemma CancelledIffCancellable(t: Table, now: int, id: string, actor: string)
    requires Safe(t)
    ensures CancelOutcome(t, now, id, actor).Done? <==> Cancellable(t, now, id, actor)
  {
    assert id in t ==> RowOk(t[id]);
  }

  /** A cancellation succeeds exactly when the reservation is the requester's own and open, a confirmed visit only before
      it starts. */
  lemma CancellationSucceedsIff(t: Table, now: int, id: string, actor: string)
    requires Safe(t)
    ensures Apply(t, now, Cancel(id, actor)).Done? <==> Cancellable(t, now, id, actor)
    ensures match Apply(t, now, Cancel(id, actor))
            case Done(t') => ClosedAs(t, t', id, Cancelled)
            case Refused(error) => error == if id !in t || t[id].requester != actor then NotFound
                                            else if t[id].status == Confirmed then TooLate else WrongStatus
  {
    assert id in t ==> RowOk(t[id]);
  }

  // ---------- the service ----------

  /** The reservation table and the operations that update it, each a check followed by a guarded update. */
  class ReservationService {
    var rows: Table

    constructor ()
      ensures rows == map[] && Safe(rows)
    {
      rows := map[];
    }

    method Create(now: int, c: Command) returns (o: Outcome)
      requires Safe(rows) && c.Create?
      modifies this
      ensures o == CreateOutcome(old(rows), now, c) && rows == After(old(rows), o) && Safe(rows)
    {
      StepKeepsSafe(rows, now, c);
      var w := VisitWindow(c.start, c.end, now);
      if w.None? {
        return Refused(InvalidWindow);
      }
      if !c.phoneVerified {
        return Refused(PhoneNotVerified);
      }
      if c.listing.None? {
        return Refused(NotFound);
      }
      var listing := c.listing.value;
      if listing.broker == c.actor {
        return Refused(OwnListing);
      }
      if HasActive(rows, listing.property, c.actor) {
        return Refused(DuplicateActive);
      }
      if RequesterConflict(rows, c.actor, w.value, None) {
        return Refused(RequesterBusy);
      }
      if c.id in rows {
        return Refused(DuplicateActive);
      }
      rows := rows[c.id := Reservation(listing.property, c.actor, listing.broker, Requested, w.value, None, None,
                                       [Entry(None, Requested)])];
      o := Done(rows);
    }

    /** The guarded update shared by the broker's and the requester's moves; it changes nothing when the row has moved on
        since it was read, or when the offer it answers has lapsed. */
    method Transition(id: string, expected: Status, next: Status, offer: Option<Offer>, confirmed: Option<Window>,
                      openAt: Option<int>) returns (changed: bool)
      modifies this
      ensures changed <==> StillOpen(old(rows), id, expected, openAt)
      ensures rows == if changed then old(rows)[id := Applied(old(rows)[id], Update(next, offer, confirmed))] else old(rows)
    {
      if !StillOpen(rows, id, expected, openAt) {
        return false;
      }
      var r := rows[id];
      if offer.Some? {
        r := r.(alternative := offer);
      }
      if confirmed.Some? {
        r := r.(confirmed := confirmed);
      }
      rows := rows[id := r.(status := next, history := r.history + [Entry(Some(expected), next)])];
      changed := true;
    }

    method Approve(now: int, id: string, actor: string) returns (o: Outcome)
      requires Safe(rows)
      modifies this
      ensures o == ApproveOutcome(old(rows), now, id, actor) && rows == After(old(rows), o) && Safe(rows)
    {
      StepKeepsSafe(rows, now, Command.Approve(id, actor));
      if !OwnedByBroker(rows, id, actor) {
        return Refused(NotFound);
      }
      var r := rows[id];
      if r.status != Requested {
        return Refused(WrongStatus);
      }
      if r.requested.start <= now {
        return Refused(TooLate);
      }
      if BrokerConflict(rows, actor, r.requested, id) {
        return Refused(BrokerBusy);
      }
      var changed := Transition(id, Requested, Confirmed, None, Some(r.requested), None);
      o := if changed then Done(rows) else Refused(WrongStatus);
    }

    method Reject(id: string, actor: string) returns (o: Outcome)
      requires Safe(rows)
      modifies this
      ensures o == RejectOutcome(old(rows), id, actor) && rows == After(old(rows), o) && Safe(rows)
    {
      StepKeepsSafe(rows, 0, Command.Reject(id, actor));
      if !OwnedByBroker(rows, id, actor) {
        return Refused(NotFound);
      }
      if rows[id].status != Requested {
        return Refused(WrongStatus);
      }
      var changed := Transition(id, Requested, Rejected, None, None, None);
      o := if changed then Done(rows) else Refused(WrongStatus);
    }

    method ProposeAlternative(now: int, id: string, actor: string, start: Option<int>, end: Option<int>) returns (o: Outcome)
      requires Safe(rows)
      modifies this
      ensures o == ProposeOutcome(old(rows), now, id, actor, start, end) && rows == After(old(rows), o) && Safe(rows)
    {
      StepKeepsSafe(rows, now, Command.Propose(id, actor, start, end));
      if !OwnedByBroker(rows, id, actor) {
        return Refused(NotFound);
      }
      if rows[id].status != Requested {
        return Refused(WrongStatus);
      }
      var w := VisitWindow(start, end, now);
      if w.None? {
        return Refused(InvalidWindow);
      }
      if BrokerConflict(rows, actor, w.value, id) {
        return Refused(BrokerBusy);
      }
      var expiresAt := w.value.start - HOUR;
      if now + 24 * HOUR < expiresAt {
        expiresAt := now + 24 * HOUR;
      }
      var changed := Transition(id, Requested, AlternativeProposed, Some(Offer(w.value, expiresAt)), None, None);
      o := if changed then Done(rows) else Refused(WrongStatus);
    }

    method AcceptAlternative(now: int, id: string, actor: string) returns (o: Outcome)
      requires Safe(rows)
      modifies this
      ensures o == AcceptOutcome(old(rows), now, id, actor) && rows == After(old(rows), o) && Safe(rows)
    {
      StepKeepsSafe(rows, now, Command.Accept(id, actor));
      if !OwnedByRequester(rows, id, actor) {
        return Refused(NotFound);
      }
      var r := rows[id];
      if r.status != AlternativeProposed || r.alternative.None? {
        return Refused(WrongStatus);
      }
      var offer := r.alternative.value;
      if offer.expiresAt <= now || offer.window.start <= now {
        return Refused(TooLate);
      }
      if BrokerConflict(rows, r.broker, offer.window, id) {
        return Refused(BrokerBusy);
      }
      if RequesterConflict(rows, actor, offer.window, Some(id)) {
        return Refused(RequesterBusy);
      }
      var changed := Transition(id, AlternativeProposed, Confirmed, None, Some(offer.window), Some(now));
      o := if changed then Done(rows) else Refused(WrongStatus);
    }

    method DeclineAlternative(id: string, actor: string) returns (o: Outcome)
      requires Safe(rows)
      modifies this
      ensures o == DeclineOutcome(old(rows), id, actor) && rows == After(old(rows), o) && Safe(rows)
    {
      StepKeepsSafe(rows, 0, Command.Decline(id, actor));
      if !OwnedByRequester(rows, id, actor) {
        return Refused(NotFound);
      }
      if rows[id].status != AlternativeProposed {
        return Refused(WrongStatus);
      }
      var changed := Transition(id, AlternativeProposed, AlternativeDeclined, None, None, None);
      o := if changed then Done(rows) else Refused(WrongStatus);
    }

    method Cancel(now: int, id: string, actor: string) returns (o: Outcome)
      requires Safe(rows)
      modifies this
      ensures o == CancelOutcome(old(rows), now, id, actor) && rows == After(old(rows), o) && Safe(rows)
      ensures o.Done? <==> Cancellable(old(rows), now, id, actor)
    {
      StepKeepsSafe(rows, now, Command.Cancel(id, actor));
      CancelledIffCancellable(rows, now, id, actor);
      if !OwnedByRequester(rows, id, actor) {
        return Refused(NotFound);
      }
      var r := rows[id];
      if !Active(r.status) {
        return Refused(WrongStatus);
      }
      if r.status == Confirmed && r.confirmed.Some? && r.confirmed.value.start <= now {
        return Refused(TooLate);
      }
      var changed := Transition(id, r.status, Cancelled, None, None, None);
      o := if changed then Done(rows) else Refused(WrongStatus);
    }
  }
}
