/** A reservation deposit and its ledger, written by four services whose reads and writes interleave:
    payment confirmation, refund after cancellation, the administrator's refund retry, and provider webhooks. */
module Deposits {
  import opened Common

  datatype Status = Ready | Paid | RefundPending | PartiallyRefunded | Refunded | Failed

  datatype Reason = UserCancellation | BrokerCancellation | PropertyUnavailable | AdminOverride

  /** Idempotency keys. A captured payment carries whatever text the client sent, so that may be any key but one built
      from a fresh webhook event. */
  datatype Key = PrepareKey | PlainKey(text: string) | RefundKey(reason: Reason) | WebhookKey(event: nat)

  type ClientKey = k: Key | !k.WebhookKey? witness PlainKey("")

  datatype Kind = Prepare | Capture | Refund

  datatype Progress = Pending | Processing | Succeeded | Unsuccessful

  datatype Txn = Txn(kind: Kind, progress: Progress, amount: int, key: Key)

  /** The deposit row, its ledger in creation order, and how many refund notices were queued. Amounts are whole won. */
  datatype Deposit = Deposit(
    amount: int,
    status: Status,
    hasReference: bool,
    refunded: int,
    retained: int,
    ledger: seq<Txn>,
    notices: nat)

  function Prepared(amount: int): Deposit {
    Deposit(amount, Ready, false, 0, 0, [Txn(Prepare, Succeeded, amount, PrepareKey)], 0)
  }

  /** What the provider reports about a payment; matches says that provider and currency are the deposit's. */
  datatype Report = Report(
    state: ReportState,
    matches: bool,
    total: int,
    balance: int,
    canceled: int,
    hasCancellation: bool)

  datatype ReportState = Done | Canceled | Abandoned | Other

  // ---------- looking things up in the ledger ----------

  function Latest(ledger: seq<Txn>, wanted: Txn -> bool): (r: Option<nat>)
    ensures r.Some? ==> r.value < |ledger| && wanted(ledger[r.value])
                        && forall j :: r.value < j < |ledger| ==> !wanted(ledger[j])
    ensures r.None? ==> forall j :: 0 <= j < |ledger| ==> !wanted(ledger[j])
  {
    if ledger == [] then None
    else if wanted(ledger[|ledger| - 1]) then Some(|ledger| - 1)
    else Latest(ledger[..|ledger| - 1], wanted)
  }

  function WithKey(key: Key): Txn -> bool {
    (t: Txn) => t.key == key
  }

  predicate IsCapture(t: Txn) {
    t.kind == Capture
  }

  predicate IsRefund(t: Txn) {
    t.kind == Refund
  }

  predicate IsRetriable(t: Txn) {
    t.kind == Refund && (t.progress == Pending || t.progress == Unsuccessful)
  }

  predicate IsUnsettled(t: Txn) {
    t.kind == Refund && t.progress != Succeeded
  }

  function Mark(d: Deposit, i: nat, progress: Progress): Deposit
    requires i < |d.ledger|
  {
    d.(ledger := d.ledger[i := d.ledger[i].(progress := progress)])
  }

  // ---------- the reads and the writes ----------

  /** Confirmation, first half: an unused key gets a pending capture row; None when there is nothing to capture. */
  function StartConfirm(d: Deposit, key: ClientKey): (Deposit, Option<nat>) {
    var existing := Latest(d.ledger, WithKey(key));
    if existing.Some? && d.ledger[existing.value].progress == Succeeded then (d, None)
    else if d.status != Ready then (d, None)
    else if existing.Some? then (d, existing)
    else (d.(ledger := d.ledger + [Txn(Capture, Pending, d.amount, key)]), Some(|d.ledger|))
  }

  /** Confirmation, second half: the deposit becomes paid whatever it is by now. */
  function CommitConfirm(d: Deposit, i: nat): Deposit
    requires i < |d.ledger|
  {
    Mark(d, i, Succeeded).(status := Paid, hasReference := true)
  }

  /** A paid deposit is put up for a full refund; the row for a reason is created at most once. */
  function QueueRefund(d: Deposit, reason: Reason): Deposit {
    if d.status != Paid then d
    else
      var ledger := if Latest(d.ledger, WithKey(RefundKey(reason))).Some? then d.ledger
                    else d.ledger + [Txn(Refund, Pending, d.amount, RefundKey(reason))];
      d.(status := RefundPending, refunded := d.amount, retained := 0, ledger := ledger)
  }

  function StartRefund(d: Deposit): Option<nat> {
    if d.status != RefundPending || !d.hasReference then None else Latest(d.ledger, IsRetriable)
  }

  function StartRetry(d: Deposit): Option<nat> {
    if d.status != RefundPending || !d.hasReference then None
    else
      var refund := Latest(d.ledger, IsRefund);
      if refund.Some? && d.ledger[refund.value].progress != Succeeded then refund else None
  }

  /** The conditional claim of a retry; lapsed says that a processing row has not been touched for ten minutes. */
  function ClaimRetry(d: Deposit, i: nat, lapsed: bool): Option<Deposit>
    requires i < |d.ledger|
  {
    match d.ledger[i].progress
    case Pending => Some(Mark(d, i, Processing))
    case Unsuccessful => Some(Mark(d, i, Processing))
    case Processing => if lapsed then Some(Mark(d, i, Processing)) else None
    case Succeeded => None
  }

  /** A refund is recorded with the status that follows from the retained amount read beforehand. */
  function CommitRefund(d: Deposit, i: nat, retainedSeen: int): Deposit
    requires i < |d.ledger|
  {
    Mark(d, i, Succeeded).(status := if retainedSeen == 0 then Refunded else PartiallyRefunded, notices := d.notices + 1)
  }

  function Fail(d: Deposit, i: nat): Deposit
    requires i < |d.ledger|
  {
    Mark(d, i, Unsuccessful)
  }

  predicate Acceptable(d: Deposit, r: Report) {
    r.matches && r.total == d.amount
    && (r.state == Canceled ==> r.canceled >= 0 && r.balance >= 0 && r.canceled + r.balance == d.amount && r.hasCancellation)
  }

  function StatusOf(r: Report): Status {
    if r.balance == 0 then Refunded else PartiallyRefunded
  }

  function WritePaid(d: Deposit, seen: Deposit, event: nat): Deposit
    requires |seen.ledger| <= |d.ledger|
  {
    if seen.status != Ready && seen.status != Failed then d
    else
      var capture := Latest(seen.ledger, IsCapture);
      var d' := if capture.Some? then Mark(d, capture.value, Succeeded)
                else d.(ledger := d.ledger + [Txn(Capture, Succeeded, d.amount, WebhookKey(event))]);
      d'.(status := Paid, hasReference := true)
  }

  predicate Changes(seen: Deposit, r: Report) {
    seen.status != StatusOf(r) || seen.refunded != r.canceled
  }

  function WriteCanceled(d: Deposit, seen: Deposit, r: Report, event: nat): Deposit
    requires |seen.ledger| <= |d.ledger|
  {
    if !Changes(seen, r) then d
    else
      var open := Latest(seen.ledger, IsUnsettled);
      var d' := if open.Some? then Mark(d, open.value, Succeeded)
                else if r.canceled - seen.refunded > 0 then
                  d.(ledger := d.ledger + [Txn(Refund, Succeeded, r.canceled - seen.refunded, WebhookKey(event))])
                else d;
      d'.(status := StatusOf(r), hasReference := true, refunded := r.canceled, retained := r.balance, notices := d.notices + 1)
  }

  /** A webhook's write, decided on the deposit as it was read. */
  function Reconcile(d: Deposit, seen: Deposit, r: Report, event: nat): Deposit
    requires |seen.ledger| <= |d.ledger|
  {
    if !Acceptable(seen, r) then d
    else match r.state
      case Done => WritePaid(d, seen, event)
      case Canceled => WriteCanceled(d, seen, r, event)
      case Abandoned => if seen.status == Ready then d.(status := Failed) else d
      case Other => d
  }

  // ---------- interleaved runs ----------

  /** What a caller remembers between its read and its write. A caller whose write went through may still be told that
      it failed; then it only marks its row. */
  datatype Flight =
    | Confirming(txn: nat)
    | Refunding(txn: nat, retainedSeen: int)
    | Retrying(txn: nat, retainedSeen: int, claimed: bool)
    | Reconciling(seen: Deposit, report: Report, event: nat)
    | Written(txn: nat)
    | Closed

  /** Money the provider really paid back. */
  datatype Payment = Payment(key: Key, amount: int)

  datatype World = World(deposit: Deposit, flights: seq<Flight>, payments: seq<Payment>)

  datatype Step =
    | BeginConfirm(key: ClientKey)
    | EndConfirm(flight: nat)
    | Queue(reason: Reason)
    | BeginRefund
    | BeginRetry
    | Claim(flight: nat, lapsed: bool)
    | Pay(flight: nat)
    | EndRefund(flight: nat)
    | Abort(flight: nat)
    | BeginReconcile(report: Report, event: nat)
    | EndReconcile(flight: nat)

  predicate MayPay(f: Flight) {
    f.Refunding? || (f.Retrying? && f.claimed)
  }

  /** The callers that mark their row as failed when something goes wrong. */
  predicate MayAbort(f: Flight) {
    f.Confirming? || f.Written? || MayPay(f)
  }

  function PaidKeys(payments: seq<Payment>): set<Key> {
    set i | 0 <= i < |payments| :: payments[i].key
  }

  /** The provider pays for a key once and answers a repeated key from memory. */
  function ProviderPays(payments: seq<Payment>, t: Txn): seq<Payment> {
    if t.key in PaidKeys(payments) then payments else payments + [Payment(t.key, t.amount)]
  }

  function Next(w: World, s: Step): World {
    var d := w.deposit;
    match s
    case BeginConfirm(key) =>
      var (d', i) := StartConfirm(d, key);
      if i.None? then w.(deposit := d') else w.(deposit := d', flights := w.flights + [Confirming(i.value)])
    case EndConfirm(f) =>
      if f < |w.flights| && w.flights[f].Confirming? && w.flights[f].txn < |d.ledger| then
        var i := w.flights[f].txn;
        w.(deposit := CommitConfirm(d, i), flights := w.flights[f := Written(i)])
      else w
    case Queue(reason) => w.(deposit := QueueRefund(d, reason))
    case BeginRefund =>
      var i := StartRefund(d);
      if i.None? then w else w.(flights := w.flights + [Refunding(i.value, d.retained)])
    case BeginRetry =>
      var i := StartRetry(d);
      if i.None? then w else w.(flights := w.flights + [Retrying(i.value, d.retained, false)])
    case Claim(f, lapsed) =>
      if f < |w.flights| && w.flights[f].Retrying? && !w.flights[f].claimed && w.flights[f].txn < |d.ledger| then
        var claimed := ClaimRetry(d, w.flights[f].txn, lapsed);
        if claimed.None? then w else w.(deposit := claimed.value, flights := w.flights[f := w.flights[f].(claimed := true)])
      else w
    case Pay(f) =>
      if f < |w.flights| && MayPay(w.flights[f]) && w.flights[f].txn < |d.ledger|
      then w.(payments := ProviderPays(w.payments, d.ledger[w.flights[f].txn])) else w
    case EndRefund(f) =>
      if f < |w.flights| && MayPay(w.flights[f]) && w.flights[f].txn < |d.ledger|
         && d.ledger[w.flights[f].txn].key in PaidKeys(w.payments) then
        var i := w.flights[f].txn;
        w.(deposit := CommitRefund(d, i, w.flights[f].retainedSeen), flights := w.flights[f := Written(i)])
      else w
    case Abort(f) =>
      if f < |w.flights| && MayAbort(w.flights[f]) && w.flights[f].txn < |d.ledger|
      then w.(deposit := Fail(d, w.flights[f].txn), flights := w.flights[f := Closed]) else w
    case BeginReconcile(report, event) => w.(flights := w.flights + [Reconciling(d, report, event)])
    case EndReconcile(f) =>
      if f < |w.flights| && w.flights[f].Reconciling? && |w.flights[f].seen.ledger| <= |d.ledger| then
        w.(deposit := Reconcile(d, w.flights[f].seen, w.flights[f].report, w.flights[f].event),
           flights := w.flights[f := Closed])
      else w
  }

  function Run(w: World, steps: seq<Step>): World
    decreases |steps|
  {
    if steps == [] then w else Run(Next(w, steps[0]), steps[1..])
  }

  function Start(amount: int): World {
    World(Prepared(amount), [], [])
  }

  // ---------- conservation ----------

  /** The amount has been divided into a refunded and a retained part. */
  predicate Settled(d: Deposit) {
    d.refunded + d.retained == d.amount
  }

  predicate RefundStatus(s: Status) {
    s == RefundPending || s == PartiallyRefunded || s == Refunded
  }

  /** Nothing is divided before the first refund decision, everything after it, and no part is ever negative. */
  ghost predicate Conserved(d: Deposit) {
    && d.amount > 0 && d.refunded >= 0 && d.retained >= 0
    && (Settled(d) || (d.refunded == 0 && d.retained == 0))
    && (RefundStatus(d.status) ==> Settled(d))
  }

  /** A refund row is a queued one for the whole deposit, or a settled one written by a webhook. */
  ghost predicate RowOk(d: Deposit, t: Txn) {
    && (t.kind == Prepare ==> t.progress == Succeeded)
    && (t.kind == Refund ==>
          || (t.key.RefundKey? && t.amount == d.amount)
          || (t.key.WebhookKey? && t.progress == Succeeded))
  }

  ghost predicate QueuedRow(d: Deposit, i: nat) {
    i < |d.ledger| && d.ledger[i].kind == Refund && d.ledger[i].key.RefundKey? && d.ledger[i].amount == d.amount
  }

  /** Rows are added and change progress; nothing else about them changes. */
  ghost predicate Grows(a: Deposit, b: Deposit) {
    && b.amount == a.amount
    && |a.ledger| <= |b.ledger|
    && forall i :: 0 <= i < |a.ledger| ==> b.ledger[i] == a.ledger[i].(progress := b.ledger[i].progress)
  }

  ghost predicate FlightOk(d: Deposit, f: Flight) {
    match f
    case Confirming(i) => i < |d.ledger| && d.ledger[i].kind == Capture
    case Refunding(i, _) => Settled(d) && QueuedRow(d, i)
    case Retrying(i, _, _) => Settled(d) && QueuedRow(d, i)
    case Reconciling(seen, _, _) => Grows(seen, d)
    case Written(i) => i < |d.ledger| && (d.ledger[i].kind == Capture || QueuedRow(d, i))
    case Closed => true
  }

  /** A deposit no refund has touched is ready; one that was paid for knows the payment's reference. */
  ghost predicate Sound(d: Deposit) {
    && Conserved(d)
    && (forall i :: 0 <= i < |d.ledger| ==> RowOk(d, d.ledger[i]))
    && (d.status == Ready ==> forall i :: 0 <= i < |d.ledger| ==> d.ledger[i].kind != Refund)
    && (d.status == Paid || d.status == RefundPending ==> d.hasReference)
  }

  ghost predicate Inv(w: World) {
    && Sound(w.deposit)
    && (forall i :: 0 <= i < |w.flights| ==> FlightOk(w.deposit, w.flights[i]))
  }

  /** What every write does to a sound deposit: it stays sound, rows are kept, and a division stays a division. */
  ghost predicate Improves(a: Deposit, b: Deposit) {
    Grows(a, b) && Sound(b) && (Settled(a) ==> Settled(b))
  }

  lemma MarkImproves(d: Deposit, i: nat, p: Progress)
    requires Sound(d) && i < |d.ledger| && (p == Succeeded || d.ledger[i].kind == Capture || QueuedRow(d, i))
    ensures Improves(d, Mark(d, i, p))
  {
    var d' := Mark(d, i, p);
    forall k | 0 <= k < |d'.ledger|
      ensures RowOk(d', d'.ledger[k])
    {
      assert RowOk(d, d.ledger[k]);
    }
  }

  lemma AppendImproves(d: Deposit, t: Txn)
    requires Sound(d) && RowOk(d, t) && (t.kind != Refund || d.status != Ready)
    ensures Improves(d, d.(ledger := d.ledger + [t]))
  {
    var d' := d.(ledger := d.ledger + [t]);
    forall k | 0 <= k < |d'.ledger|
      ensures RowOk(d', d'.ledger[k])
    {
      assert k < |d.ledger| ==> RowOk(d, d.ledger[k]) && d'.ledger[k] == d.ledger[k];
    }
  }

  lemma QueueImproves(d: Deposit, reason: Reason)
    requires Sound(d)
    ensures Improves(d, QueueRefund(d, reason))
  {
    if d.status == Paid {
      AppendImproves(d, Txn(Refund, Pending, d.amount, RefundKey(reason)));
    }
  }

  lemma WritePaidImproves(d: Deposit, seen: Deposit, event: nat)
    requires Sound(d) && Grows(seen, d)
    ensures Improves(d, WritePaid(d, seen, event))
  {
    var capture := Latest(seen.ledger, IsCapture);
    if capture.Some? {
      assert d.ledger[capture.value].kind == Capture;
      MarkImproves(d, capture.value, Succeeded);
    } else {
      AppendImproves(d, Txn(Capture, Succeeded, d.amount, WebhookKey(event)));
    }
  }

  lemma WriteCanceledImproves(d: Deposit, seen: Deposit, r: Report, event: nat)
    requires Sound(d) && Grows(seen, d) && Acceptable(seen, r) && r.state == Canceled
    ensures Improves(d, WriteCanceled(d, seen, r, event))
  {
    var open := Latest(seen.ledger, IsUnsettled);
    if open.Some? {
      MarkImproves(d, open.value, Succeeded);
    } else {
      AppendImproves(d.(status := Failed), Txn(Refund, Succeeded, r.canceled - seen.refunded, WebhookKey(event)));
    }
  }

  lemma ReconcileImproves(d: Deposit, seen: Deposit, r: Report, event: nat)
    requires Sound(d) && Grows(seen, d)
    ensures Improves(d, Reconcile(d, seen, r, event))
  {
    assert Improves(d, d);
    if Acceptable(seen, r) {
      match r.state
      case Done => WritePaidImproves(d, seen, event);
      case Canceled => WriteCanceledImproves(d, seen, r, event);
      case _ =>
    }
  }

  lemma FlightsSurvive(w: World, d: Deposit)
    requires Inv(w) && Improves(w.deposit, d)
    ensures forall i :: 0 <= i < |w.flights| ==> FlightOk(d, w.flights[i])
  {
    forall i | 0 <= i < |w.flights|
      ensures FlightOk(d, w.flights[i])
    {
      assert FlightOk(w.deposit, w.flights[i]);
    }
  }

  predicate MayWrite(f: Flight) {
    !f.Reconciling? && !f.Closed?
  }

  /** A write through the row a flight remembers. */
  lemma FlightImproves(w: World, f: nat, p: Progress)
    requires Inv(w) && f < |w.flights| && MayWrite(w.flights[f])
    ensures w.flights[f].txn < |w.deposit.ledger| && Improves(w.deposit, Mark(w.deposit, w.flights[f].txn, p))
    ensures w.flights[f].Refunding? || w.flights[f].Retrying? ==> Settled(w.deposit)
  {
    assert FlightOk(w.deposit, w.flights[f]);
    MarkImproves(w.deposit, w.flights[f].txn, p);
  }

  /** The write a step makes to the deposit, if any, improves it. */
  lemma StepImproves(w: World, s: Step)
    requires Inv(w)
    ensures Improves(w.deposit, Next(w, s).deposit)
  {
    var d := w.deposit;
    assert Improves(d, d);
    match s
    case BeginConfirm(key) => AppendImproves(d, Txn(Capture, Pending, d.amount, key));
    case Queue(reason) => QueueImproves(d, reason);
    case BeginRefund =>
    case BeginRetry =>
    case Pay(_) =>
    case BeginReconcile(_, _) =>
    case EndReconcile(f) =>
      if f < |w.flights| && w.flights[f].Reconciling? {
        assert FlightOk(d, w.flights[f]);
        ReconcileImproves(d, w.flights[f].seen, w.flights[f].report, w.flights[f].event);
      }
    case _ => FlightWriteImproves(w, s);
  }

  lemma FlightWriteImproves(w: World, s: Step)
    requires Inv(w) && (s.EndConfirm? || s.Claim? || s.EndRefund? || s.Abort?)
    ensures Improves(w.deposit, Next(w, s).deposit)
  {
    assert Improves(w.deposit, w.deposit);
    if s.flight < |w.flights| && MayWrite(w.flights[s.flight]) {
      FlightImproves(w, s.flight, if s.EndConfirm? || s.EndRefund? then Succeeded else if s.Claim? then Processing else Unsuccessful);
    }
  }

  /** A row found by its kind and an open progress is a queued refund row. */
  lemma OpenRowsAreQueued(d: Deposit, i: nat)
    requires Sound(d) && i < |d.ledger| && d.ledger[i].kind == Refund && d.ledger[i].progress != Succeeded
    ensures QueuedRow(d, i)
  {
    assert RowOk(d, d.ledger[i]);
  }

  /** A confirmation works on a capture row, whatever key the client sent. */
  lemma ConfirmsCaptureRows(d: Deposit, key: ClientKey)
    requires Sound(d) && StartConfirm(d, key).1.Some?
    ensures var (d', i) := StartConfirm(d, key); i.value < |d'.ledger| && d'.ledger[i.value].kind == Capture
  {
    var existing := Latest(d.ledger, WithKey(key));
    if existing.Some? {
      assert RowOk(d, d.ledger[existing.value]);
    }
  }

  lemma NextKeepsInv(w: World, s: Step)
    requires Inv(w)
    ensures Inv(Next(w, s))
  {
    var w' := Next(w, s);
    StepImproves(w, s);
    FlightsSurvive(w, w'.deposit);
    if s.BeginConfirm? && StartConfirm(w.deposit, s.key).1.Some? {
      ConfirmsCaptureRows(w.deposit, s.key);
    }
    if s.BeginRefund? && StartRefund(w.deposit).Some? {
      OpenRowsAreQueued(w.deposit, StartRefund(w.deposit).value);
    }
    if s.BeginRetry? && StartRetry(w.deposit).Some? {
      OpenRowsAreQueued(w.deposit, StartRetry(w.deposit).value);
    }
    forall i | 0 <= i < |w'.flights|
      ensures FlightOk(w'.deposit, w'.flights[i])
    {
      if i < |w.flights| {
        assert FlightOk(w'.deposit, w.flights[i]);
      }
    }
  }

  /** In every interleaving the amounts are conserved, and once divided the deposit stays divided. */
  lemma {:induction false} RunsConserve(w: World, steps: seq<Step>)
    requires Inv(w)
    ensures Inv(Run(w, steps))
    ensures Settled(w.deposit) ==> Settled(Run(w, steps).deposit)
    decreases |steps|
  {
    if steps != [] {
      NextKeepsInv(w, steps[0]);
      StepImproves(w, steps[0]);
      RunsConserve(Next(w, steps[0]), steps[1..]);
    }
  }

  lemma DepositsConserve(amount: int, steps: seq<Step>)
    requires amount > 0
    ensures Conserved(Run(Start(amount), steps).deposit)
  {
    RunsConserve(Start(amount), steps);
  }

  // ---------- the provider pays at most once per reason ----------

  function Reasons(steps: seq<Step>): set<Reason> {
    set i | 0 <= i < |steps| && steps[i].Queue? :: steps[i].reason
  }

  function TotalPaid(payments: seq<Payment>): int {
    if payments == [] then 0 else TotalPaid(payments[..|payments| - 1]) + payments[|payments| - 1].amount
  }

  /** Every queued row and every payment answers one of the given reasons, and no key was paid twice. */
  ghost predicate PaidFor(w: World, reasons: set<Reason>) {
    && (forall i :: 0 <= i < |w.deposit.ledger| && QueuedRow(w.deposit, i) ==> w.deposit.ledger[i].key.reason in reasons)
    && (forall i :: 0 <= i < |w.payments| ==>
          w.payments[i].key.RefundKey? && w.payments[i].key.reason in reasons && w.payments[i].amount == w.deposit.amount)
    && (forall i, j :: 0 <= i < j < |w.payments| ==> w.payments[i].key != w.payments[j].key)
  }

  /** Queueing is the only step that adds a refund row with a refund key, and it adds its own reason. */
  lemma StepAddsOnlyItsReason(w: World, s: Step, i: nat)
    requires Inv(w) && QueuedRow(Next(w, s).deposit, i)
    ensures (QueuedRow(w.deposit, i) && w.deposit.ledger[i].key == Next(w, s).deposit.ledger[i].key)
            || (s.Queue? && Next(w, s).deposit.ledger[i].key.reason == s.reason)
  {
    StepImproves(w, s);
  }

  lemma NextKeepsPaidFor(w: World, s: Step, reasons: set<Reason>)
    requires Inv(w) && PaidFor(w, reasons) && (s.Queue? ==> s.reason in reasons)
    ensures PaidFor(Next(w, s), reasons)
  {
    var w' := Next(w, s);
    StepImproves(w, s);
    forall i | 0 <= i < |w'.deposit.ledger| && QueuedRow(w'.deposit, i)
      ensures w'.deposit.ledger[i].key.reason in reasons
    {
      StepAddsOnlyItsReason(w, s, i);
    }
    if w'.payments != w.payments {
      assert s.Pay? && s.flight < |w.flights| && MayPay(w.flights[s.flight]);
      assert FlightOk(w.deposit, w.flights[s.flight]);
      var t := w.deposit.ledger[w.flights[s.flight].txn];
      assert w'.payments == w.payments + [Payment(t.key, t.amount)];
      forall i | 0 <= i < |w.payments|
        ensures w.payments[i].key != t.key
      {
        assert w.payments[i].key in PaidKeys(w.payments);
      }
    }
  }

  lemma {:induction false} RunKeepsPaidFor(w: World, steps: seq<Step>, reasons: set<Reason>)
    requires Inv(w) && PaidFor(w, reasons) && Reasons(steps) <= reasons
    ensures PaidFor(Run(w, steps), reasons) && Run(w, steps).deposit.amount == w.deposit.amount
    decreases |steps|
  {
    if steps != [] {
      assert steps[0].Queue? ==> steps[0].reason in Reasons(steps);
      forall r | r in Reasons(steps[1..])
        ensures r in reasons
      {
        var i :| 0 <= i < |steps[1..]| && steps[1..][i].Queue? && steps[1..][i].reason == r;
        assert steps[i + 1].Queue? && steps[i + 1].reason == r;
        assert r in Reasons(steps);
      }
      NextKeepsInv(w, steps[0]);
      StepImproves(w, steps[0]);
      NextKeepsPaidFor(w, steps[0], reasons);
      RunKeepsPaidFor(Next(w, steps[0]), steps[1..], reasons);
    }
  }

  lemma {:induction false} DistinctPaymentsAreFew(payments: seq<Payment>, reasons: set<Reason>, amount: int)
    requires forall i :: 0 <= i < |payments| ==>
                           payments[i].key.RefundKey? && payments[i].key.reason in reasons && payments[i].amount == amount
    requires forall i, j :: 0 <= i < j < |payments| ==> payments[i].key != payments[j].key
    ensures |payments| <= |reasons| && TotalPaid(payments) == |payments| * amount
    decreases |payments|
  {
    if payments != [] {
      var last := payments[|payments| - 1];
      var rest := payments[..|payments| - 1];
      forall i | 0 <= i < |rest|
        ensures rest[i].key.reason in reasons - {last.key.reason}
      {
        assert rest[i] == payments[i] && payments[i].key != last.key;
      }
      DistinctPaymentsAreFew(rest, reasons - {last.key.reason}, amount);
      assert |payments| * amount == |rest| * amount + amount;
    }
  }

  /** Whatever interleaves, fails or is repeated, the provider pays the full amount at most once for each reason
      a refund was queued for; and cancellation, the only caller, always queues the same reason. */
  lemma PayoutsAreBounded(amount: int, steps: seq<Step>)
    requires amount > 0
    ensures var payments := Run(Start(amount), steps).payments;
            && |payments| <= |Reasons(steps)|
            && TotalPaid(payments) == |payments| * amount
            && (|Reasons(steps)| <= 1 ==> TotalPaid(payments) <= amount)
  {
    var w := Run(Start(amount), steps);
    RunKeepsPaidFor(Start(amount), steps, Reasons(steps));
    DistinctPaymentsAreFew(w.payments, Reasons(steps), amount);
    if |w.payments| <= 1 {
      assert |w.payments| * amount <= amount;
    }
  }

  lemma {:induction false} RunInTwoParts(w: World, first: seq<Step>, second: seq<Step>)
    ensures Run(w, first + second) == Run(Run(w, first), second)
    decreases |first|
  {
    if first == [] {
      assert first + second == second;
    } else {
      assert (first + second)[1..] == first[1..] + second;
      RunInTwoParts(Next(w, first[0]), first[1..], second);
    }
  }

  lemma ThreeSteps(w: World, a: Step, b: Step, c: Step)
    ensures Run(w, [a, b, c]) == Next(Next(Next(w, a), b), c)
  {
    assert [a, b, c][1..] == [b, c] && [b, c][1..] == [c] && [c][1..] == [];
    assert Run(Next(Next(w, a), b), [c]) == Run(Next(Next(Next(w, a), b), c), []);
  }

  /** A confirmation starts, and before it ends a webhook reports the payment as done. */
  lemma PaidWhileConfirming(amount: int) returns (steps: seq<Step>, w: World)
    requires amount > 0
    ensures Run(Start(amount), steps) == w && Reasons(steps) == {}
    ensures w.flights == [Confirming(1), Closed] && w.payments == []
    ensures w.deposit == Deposit(amount, Paid, true, 0, 0, [Txn(Prepare, Succeeded, amount, PrepareKey),
                                                            Txn(Capture, Succeeded, amount, PlainKey("key"))], 0)
  {
    var done := Report(Done, true, amount, amount, 0, false);
    steps := [BeginConfirm(PlainKey("key")), BeginReconcile(done, 1), EndReconcile(1)];
    ThreeSteps(Start(amount), steps[0], steps[1], steps[2]);
    var pending := Txn(Capture, Pending, amount, PlainKey("key"));
    var w1 := Next(Start(amount), steps[0]);
    assert w1.deposit.ledger == [Txn(Prepare, Succeeded, amount, PrepareKey), pending] && w1.flights == [Confirming(1)];
    assert IsCapture(w1.deposit.ledger[1]);
    w := Run(Start(amount), steps);
    assert w.deposit.ledger == w1.deposit.ledger[1 := pending.(progress := Succeeded)];
  }

  /** The reservation is cancelled, and the refund is queued, paid and recorded. */
  lemma RefundPaid(w: World) returns (steps: seq<Step>, w': World)
    requires |w.flights| == 2 && |w.deposit.ledger| == 2 && w.deposit.status == Paid && w.deposit.hasReference
    requires w.payments == [] && forall i :: 0 <= i < 2 ==> !w.deposit.ledger[i].key.RefundKey?
    ensures Run(w, steps) == w' && Reasons(steps) == {UserCancellation}
    ensures w'.flights == w.flights + [Written(2)] && |w'.deposit.ledger| == 3
    ensures w'.payments == [Payment(RefundKey(UserCancellation), w.deposit.amount)]
    ensures w'.deposit.status == Refunded && w'.deposit.amount == w'.deposit.refunded == w.deposit.amount
  {
    var begin, finish := [Queue(UserCancellation), BeginRefund, Pay(2)], [EndRefund(2)];
    steps := begin + finish;
    RunInTwoParts(w, begin, finish);
    ThreeSteps(w, begin[0], begin[1], begin[2]);
    var w1 := Next(w, begin[0]);
    var refund := Txn(Refund, Pending, w.deposit.amount, RefundKey(UserCancellation));
    assert w1.deposit.ledger == w.deposit.ledger + [refund];
    assert IsRetriable(w1.deposit.ledger[2]);
    var w3 := Run(w, begin);
    assert w3.payments[0].key in PaidKeys(w3.payments);
    assert finish[1..] == [];
    w' := Run(w, steps);
    assert w' == Next(w3, EndRefund(2));
    assert steps[0] == Queue(UserCancellation);
  }

  /** A confirmation that ends after the refund was paid and recorded reopens the deposit as paid. */
  lemma LateConfirmationReopens(amount: int) returns (steps: seq<Step>, last: Step)
    requires amount > 0
    ensures Reasons(steps + [last]) == {UserCancellation}
    ensures var w := Run(Start(amount), steps);
            && w.deposit.status == Refunded && w.deposit.refunded == amount && TotalPaid(w.payments) == amount
            && Run(Start(amount), steps + [last]) == Next(w, last) && Next(w, last).deposit.status == Paid
  {
    var begin, w0 := PaidWhileConfirming(amount);
    var middle, w := RefundPaid(w0);
    steps, last := begin + middle, EndConfirm(0);
    RunInTwoParts(Start(amount), begin, middle);
    RunInTwoParts(Start(amount), steps, [last]);
    ReasonsOfParts(begin, middle);
    ReasonsOfParts(steps, [last]);
    assert w.payments[..0] == [];
    assert [last][1..] == [];
  }

  /** The callers whose write, still to come, takes a refund status back: any confirmation under way, a report of payment
      or of abandonment that was decided on the deposit as it was before it was paid. */
  predicate Reopens(f: Flight) {
    || f.Confirming?
    || (f.Reconciling? && Acceptable(f.seen, f.report)
        && ((f.report.state == Done && (f.seen.status == Ready || f.seen.status == Failed))
            || (f.report.state == Abandoned && f.seen.status == Ready)))
  }

  ghost predicate NothingReopens(w: World) {
    RefundStatus(w.deposit.status) && forall i :: 0 <= i < |w.flights| ==> !Reopens(w.flights[i])
  }

  lemma NextReopensNothing(w: World, s: Step)
    requires Inv(w) && NothingReopens(w)
    ensures NothingReopens(Next(w, s))
  {
    var w' := Next(w, s);
    if s.EndReconcile? && s.flight < |w.flights| {
      assert !Reopens(w.flights[s.flight]);
    }
    if s.EndConfirm? && s.flight < |w.flights| {
      assert !Reopens(w.flights[s.flight]);
    }
    forall i | 0 <= i < |w'.flights|
      ensures !Reopens(w'.flights[i])
    {
      assert i < |w.flights| ==> !Reopens(w.flights[i]);
    }
  }

  lemma {:induction false} RunsReopenNothing(w: World, steps: seq<Step>)
    requires Inv(w) && NothingReopens(w)
    ensures NothingReopens(Run(w, steps))
    decreases |steps|
  {
    if steps != [] {
      NextReopensNothing(w, steps[0]);
      NextKeepsInv(w, steps[0]);
      RunsReopenNothing(Next(w, steps[0]), steps[1..]);
    }
  }

  lemma ReopeningWrite(w: World, f: nat) returns (s: Step)
    requires Inv(w) && RefundStatus(w.deposit.status) && f < |w.flights| && Reopens(w.flights[f])
    ensures !RefundStatus(Run(w, [s]).deposit.status)
  {
    assert FlightOk(w.deposit, w.flights[f]);
    s := if w.flights[f].Confirming? then EndConfirm(f) else EndReconcile(f);
    assert [s][1..] == [];
    assert Run(w, [s]) == Run(Next(w, s), []);
  }

  /** A deposit under refund or refunded stays so for good exactly when no caller that would reopen it is under way. */
  lemma RefundStaysIff(w: World)
    requires Inv(w) && RefundStatus(w.deposit.status)
    ensures (forall steps :: RefundStatus(Run(w, steps).deposit.status))
            <==> forall i :: 0 <= i < |w.flights| ==> !Reopens(w.flights[i])
  {
    if forall i :: 0 <= i < |w.flights| ==> !Reopens(w.flights[i]) {
      forall steps
        ensures RefundStatus(Run(w, steps).deposit.status)
      {
        RunsReopenNothing(w, steps);
      }
    } else {
      var i :| 0 <= i < |w.flights| && Reopens(w.flights[i]);
      var s := ReopeningWrite(w, i);
      assert !RefundStatus(Run(w, [s]).deposit.status);
    }
  }

  lemma ReasonsOfParts(a: seq<Step>, b: seq<Step>)
    ensures Reasons(a + b) == Reasons(a) + Reasons(b)
  {
    forall r | r in Reasons(a) + Reasons(b)
      ensures r in Reasons(a + b)
    {
      if r in Reasons(a) {
        var i :| 0 <= i < |a| && a[i].Queue? && a[i].reason == r;
        assert (a + b)[i] == a[i];
      } else {
        var i :| 0 <= i < |b| && b[i].Queue? && b[i].reason == r;
        assert (a + b)[|a| + i] == b[i];
      }
    }
  }

  // ---------- the row behind a pending refund ----------

  ghost predicate KeyUnused(ledger: seq<Txn>, key: Key) {
    forall i :: 0 <= i < |ledger| ==> ledger[i].key != key
  }

  /** A refund row that is waiting, or whose last attempt failed. */
  ghost predicate MayBePaid(t: Txn) {
    t.kind == Refund && t.progress != Processing && t.progress != Succeeded
  }

  ghost predicate NewestRefund(ledger: seq<Txn>, i: int)
    requires 0 <= i < |ledger|
  {
    ledger[i].kind == Refund && forall j :: i < j < |ledger| ==> ledger[j].kind != Refund
  }

  lemma FoundIffUsed(ledger: seq<Txn>, key: Key)
    ensures Latest(ledger, WithKey(key)).None? <==> KeyUnused(ledger, key)
  {
    var found := Latest(ledger, WithKey(key));
    if found.Some? {
      assert WithKey(key)(ledger[found.value]);
    } else {
      assert forall i :: 0 <= i < |ledger| ==> !WithKey(key)(ledger[i]);
    }
  }

  lemma PickedIffAny(ledger: seq<Txn>)
    ensures Latest(ledger, IsRetriable).Some? <==> exists i :: 0 <= i < |ledger| && MayBePaid(ledger[i])
  {
    var picked := Latest(ledger, IsRetriable);
    if i :| 0 <= i < |ledger| && MayBePaid(ledger[i]) {
      assert IsRetriable(ledger[i]);
    }
    assert picked.Some? ==> MayBePaid(ledger[picked.value]);
  }

  lemma RetriedIffOpen(ledger: seq<Txn>)
    ensures var refund := Latest(ledger, IsRefund);
            (refund.Some? && ledger[refund.value].progress != Succeeded) <==>
            exists i :: 0 <= i < |ledger| && ledger[i].progress != Succeeded && NewestRefund(ledger, i)
  {
    var refund := Latest(ledger, IsRefund);
    if refund.Some? {
      assert forall j :: refund.value < j < |ledger| ==> !IsRefund(ledger[j]);
      assert NewestRefund(ledger, refund.value);
    }
    if i :| 0 <= i < |ledger| && ledger[i].progress != Succeeded && NewestRefund(ledger, i) {
      assert IsRefund(ledger[i]);
    }
  }

  /** Queueing adds the one row of its reason, for the whole amount, unless the key is in use. */
  lemma QueueingAnswers(d: Deposit, reason: Reason)
    ensures var d', row := QueueRefund(d, reason), Txn(Refund, Pending, d.amount, RefundKey(reason));
            if d.status != Paid then d' == d
            else d' == d.(status := RefundPending, refunded := d.amount, retained := 0,
                          ledger := if KeyUnused(d.ledger, RefundKey(reason)) then d.ledger + [row] else d.ledger)
  {
    FoundIffUsed(d.ledger, RefundKey(reason));
  }

  /** Queueing a refund leaves something for the automatic attempt to pay exactly when no row carries the refund's key
      yet, or some refund row is pending or failed. A capture confirmed under that very key takes the place of the row. */
  lemma QueuedRefundIsPayableIff(d: Deposit, reason: Reason)
    requires Sound(d) && d.status == Paid
    ensures StartRefund(QueueRefund(d, reason)).Some? <==>
            KeyUnused(d.ledger, RefundKey(reason)) || exists i :: 0 <= i < |d.ledger| && MayBePaid(d.ledger[i])
  {
    var d' := QueueRefund(d, reason);
    QueueingAnswers(d, reason);
    PickedIffAny(d'.ledger);
    if KeyUnused(d.ledger, RefundKey(reason)) {
      assert MayBePaid(d'.ledger[|d.ledger|]);
    }
  }

  /** An administrator can retry it exactly when the key is unused or the newest refund row is not settled, one whose
      processing was interrupted included. */
  lemma QueuedRefundIsRetriableIff(d: Deposit, reason: Reason)
    requires Sound(d) && d.status == Paid
    ensures StartRetry(QueueRefund(d, reason)).Some? <==>
            || KeyUnused(d.ledger, RefundKey(reason))
            || exists i :: 0 <= i < |d.ledger| && d.ledger[i].progress != Succeeded && NewestRefund(d.ledger, i)
  {
    var d' := QueueRefund(d, reason);
    QueueingAnswers(d, reason);
    RetriedIffOpen(d'.ledger);
    if KeyUnused(d.ledger, RefundKey(reason)) {
      assert NewestRefund(d'.ledger, |d.ledger|);
    }
  }

  lemma ConfirmedUnder(amount: int, key: ClientKey) returns (w: World)
    requires amount > 0 && key != PrepareKey
    ensures w == Next(Next(Start(amount), BeginConfirm(key)), EndConfirm(0)) && w.deposit.status == Paid
    ensures |w.deposit.ledger| == 2 && w.deposit.ledger[1].key == key
    ensures w.deposit.ledger[0].kind == Prepare && w.deposit.ledger[1].kind == Capture
  {
    var d := Start(amount).deposit;
    assert !WithKey(key)(d.ledger[0]);
    w := Next(Next(Start(amount), BeginConfirm(key)), EndConfirm(0));
  }

  /** A payment confirmed under the key of its own refund leaves the refund pending with no row to pay. */
  lemma RefundWithoutRow(amount: int) returns (steps: seq<Step>)
    requires amount > 0
    ensures var d := Run(Start(amount), steps).deposit;
            d.status == RefundPending && StartRefund(d).None? && StartRetry(d).None?
  {
    var key := RefundKey(UserCancellation);
    steps := [BeginConfirm(key), EndConfirm(0), Queue(UserCancellation)];
    ThreeSteps(Start(amount), steps[0], steps[1], steps[2]);
    var w := ConfirmedUnder(amount, key);
    assert WithKey(key)(w.deposit.ledger[1]);
    var d := QueueRefund(w.deposit, UserCancellation);
    assert d.ledger == w.deposit.ledger;
  }

  ghost predicate ClientsKeepOff(steps: seq<Step>) {
    forall i :: 0 <= i < |steps| && steps[i].BeginConfirm? ==> !steps[i].key.RefundKey?
  }

  /** Rows under refund keys are refund rows, and a pending refund has one. */
  ghost predicate Backed(d: Deposit) {
    && (forall i :: 0 <= i < |d.ledger| && d.ledger[i].key.RefundKey? ==> d.ledger[i].kind == Refund)
    && (d.status == RefundPending ==> exists i :: QueuedRow(d, i))
  }

  lemma NextKeepsBacked(w: World, s: Step)
    requires Inv(w) && Backed(w.deposit) && (s.BeginConfirm? ==> !s.key.RefundKey?)
    ensures Backed(Next(w, s).deposit)
  {
    var d, d' := w.deposit, Next(w, s).deposit;
    StepImproves(w, s);
    forall i | 0 <= i < |d'.ledger| && d'.ledger[i].key.RefundKey?
      ensures d'.ledger[i].kind == Refund
    {
      assert i < |d.ledger| ==> d'.ledger[i].kind == d.ledger[i].kind && d'.ledger[i].key == d.ledger[i].key;
    }
    if d'.status == RefundPending {
      if d.status == RefundPending {
        var i :| QueuedRow(d, i);
        assert QueuedRow(d', i);
      } else {
        assert s.Queue? && d.status == Paid;
        QueueingBacks(d, s.reason);
      }
    }
  }

  lemma QueueingBacks(d: Deposit, reason: Reason)
    requires Sound(d) && Backed(d) && d.status == Paid
    ensures exists i :: QueuedRow(QueueRefund(d, reason), i)
  {
    var d' := QueueRefund(d, reason);
    var existing := Latest(d.ledger, WithKey(RefundKey(reason)));
    if existing.Some? {
      assert RowOk(d, d.ledger[existing.value]);
      assert QueuedRow(d', existing.value);
    } else {
      assert QueuedRow(d', |d.ledger|);
    }
  }

  lemma {:induction false} RunsKeepBacked(w: World, steps: seq<Step>)
    requires Inv(w) && Backed(w.deposit) && ClientsKeepOff(steps)
    ensures Backed(Run(w, steps).deposit)
    decreases |steps|
  {
    if steps != [] {
      NextKeepsBacked(w, steps[0]);
      NextKeepsInv(w, steps[0]);
      assert ClientsKeepOff(steps[1..]) by {
        assert forall i :: 0 <= i < |steps[1..]| ==> steps[1..][i] == steps[i + 1];
      }
      RunsKeepBacked(Next(w, steps[0]), steps[1..]);
    }
  }

  /** As long as no client confirms under a refund key, a pending refund always has its row for the whole amount. */
  lemma PendingRefundsHaveARow(amount: int, steps: seq<Step>)
    requires amount > 0 && ClientsKeepOff(steps)
    ensures var d := Run(Start(amount), steps).deposit; d.status == RefundPending ==> exists i :: QueuedRow(d, i)
  {
    RunsKeepBacked(Start(amount), steps);
  }

  // ---------- the refund ledger against the refunded amount ----------

  function RefundOf(t: Txn): int {
    if t.kind == Refund && t.progress == Succeeded then t.amount else 0
  }

  /** The sum of the settled refund rows. */
  function LedgerRefunds(ledger: seq<Txn>): int {
    if ledger == [] then 0 else LedgerRefunds(ledger[..|ledger| - 1]) + RefundOf(ledger[|ledger| - 1])
  }

  lemma {:induction false} SettlingAdds(ledger: seq<Txn>, i: nat, t: Txn)
    requires i < |ledger|
    ensures LedgerRefunds(ledger[i := t]) == LedgerRefunds(ledger) - RefundOf(ledger[i]) + RefundOf(t)
    decreases |ledger|
  {
    var last := |ledger| - 1;
    if i == last {
      assert ledger[i := t][..last] == ledger[..last];
    } else {
      assert ledger[i := t][..last] == ledger[..last][i := t];
      SettlingAdds(ledger[..last], i, t);
    }
  }

  ghost predicate Balanced(d: Deposit) {
    LedgerRefunds(d.ledger) == d.refunded
  }

  /** The exact condition under which a cancellation webhook leaves the ledger in balance with the refunded amount,
      whatever it was before. A row found open and settled meanwhile adds nothing, so the settled rows must already add
      up to the reported amount; one still open adds its own amount; without an open row, the growth since the read. */
  lemma CancellationBalancesIff(d: Deposit, seen: Deposit, r: Report, event: nat)
    requires Grows(seen, d) && Acceptable(seen, r) && r.state == Canceled
    ensures var open, settled := Latest(seen.ledger, IsUnsettled), LedgerRefunds(d.ledger);
            Balanced(Reconcile(d, seen, r, event)) <==>
            if !Changes(seen, r) then settled == d.refunded
            else if open.None? then r.canceled == settled + Max(0, r.canceled - seen.refunded)
            else if d.ledger[open.value].progress == Succeeded then r.canceled == settled
            else r.canceled == settled + d.ledger[open.value].amount
  {
    var open := Latest(seen.ledger, IsUnsettled);
    if open.Some? {
      var i := open.value;
      assert seen.ledger[i].kind == Refund && d.ledger[i].kind == Refund;
      SettlingAdds(d.ledger, i, d.ledger[i].(progress := Succeeded));
    } else {
      var t := Txn(Refund, Succeeded, r.canceled - seen.refunded, WebhookKey(event));
      assert (d.ledger + [t])[..|d.ledger|] == d.ledger;
    }
  }

  /** A cancellation that meets a queued refund marks its row as paid in full, so the ledger balances exactly when the
      provider has cancelled everything and nothing was settled before; in either case nothing is left to pay, whether or
      not it was. */
  lemma QueuedRefundBalancesIff(d: Deposit, r: Report, event: nat)
    requires Sound(d) && d.status == RefundPending
    requires exists i :: 0 <= i < |d.ledger| && d.ledger[i].kind == Refund && d.ledger[i].progress != Succeeded
    requires Acceptable(d, r) && r.state == Canceled
    ensures var d' := Reconcile(d, d, r, event);
            && (Balanced(d') <==> r.balance + LedgerRefunds(d.ledger) == 0) && d'.status == StatusOf(r) && d'.refunded == r.canceled
            && LedgerRefunds(d'.ledger) == LedgerRefunds(d.ledger) + d.amount && StartRefund(d').None? && StartRetry(d').None?
  {
    var open :| 0 <= open < |d.ledger| && d.ledger[open].kind == Refund && d.ledger[open].progress != Succeeded;
    assert IsUnsettled(d.ledger[open]);
    var i := Latest(d.ledger, IsUnsettled).value;
    OpenRowsAreQueued(d, i);
    SettlingAdds(d.ledger, i, d.ledger[i].(progress := Succeeded));
    CancellationBalancesIff(d, d, r, event);
  }

  datatype Delivery = Delivery(report: Report, event: nat)

  /** Webhooks handled one after another, each reading the deposit the last one wrote. */
  function Deliver(d: Deposit, deliveries: seq<Delivery>): Deposit
    decreases |deliveries|
  {
    if deliveries == [] then d
    else Deliver(Reconcile(d, d, deliveries[0].report, deliveries[0].event), deliveries[1..])
  }

  ghost predicate OnlyGrowingCancellations(deliveries: seq<Delivery>, floor: int) {
    && (forall i :: 0 <= i < |deliveries| ==> deliveries[i].report.state == Canceled && deliveries[i].report.canceled >= floor)
    && (forall i, j :: 0 <= i < j < |deliveries| ==> deliveries[i].report.canceled <= deliveries[j].report.canceled)
  }

  /** With no refund queued locally and a provider whose cancelled amount never falls,
      the settled refund rows always add up to the refunded amount. */
  lemma {:induction false} CancellationsStayBalanced(d: Deposit, deliveries: seq<Delivery>)
    requires Balanced(d) && Latest(d.ledger, IsUnsettled).None? && OnlyGrowingCancellations(deliveries, d.refunded)
    ensures Balanced(Deliver(d, deliveries)) && Latest(Deliver(d, deliveries).ledger, IsUnsettled).None?
    decreases |deliveries|
  {
    if deliveries != [] {
      var r, event := deliveries[0].report, deliveries[0].event;
      var d' := Reconcile(d, d, r, event);
      if Acceptable(d, r) {
        CancellationBalancesIff(d, d, r, event);
        var t := Txn(Refund, Succeeded, r.canceled - d.refunded, WebhookKey(event));
        assert (d.ledger + [t])[..|d.ledger|] == d.ledger;
      }
      assert forall i :: 0 <= i < |deliveries[1..]| ==> deliveries[1..][i] == deliveries[i + 1];
      CancellationsStayBalanced(d', deliveries[1..]);
    }
  }

  /** A report delivered again under another event adds no ledger row and no notice. */
  lemma ReplayChangesNothing(d: Deposit, r: Report, event: nat, again: nat)
    requires r.state == Canceled
    ensures var d' := Reconcile(d, d, r, event); Reconcile(d', d', r, again) == d'
  {
  }

  /** Two cancellations that both read before either wrote record the first one twice. */
  lemma OverlappingCancellationsDoubleCount(d: Deposit, r1: Report, r2: Report, e1: nat, e2: nat)
    requires Balanced(d) && Latest(d.ledger, IsUnsettled).None? && r1.state == r2.state == Canceled
    requires Acceptable(d, r1) && Acceptable(d, r2) && d.refunded < r1.canceled < r2.canceled
    ensures var d1 := Reconcile(d, d, r1, e1);
            Balanced(d1) && !Balanced(Reconcile(d1, d, r2, e2))
            && LedgerRefunds(Reconcile(d1, d, r2, e2).ledger) == r2.canceled + (r1.canceled - d.refunded)
  {
    var d1 := Reconcile(d, d, r1, e1);
    CancellationBalancesIff(d, d, r1, e1);
    CancellationBalancesIff(d1, d, r2, e2);
    var t := Txn(Refund, Succeeded, r2.canceled - d.refunded, WebhookKey(e2));
    assert (d1.ledger + [t])[..|d1.ledger|] == d1.ledger;
  }

  /** Two cancellations of a paid deposit are both under way. */
  lemma TwoCancellationsRead(r1: Report, r2: Report) returns (steps: seq<Step>, w: World)
    ensures Run(Start(1000), steps) == w
    ensures w.deposit == Deposit(1000, Paid, true, 0, 0, [Txn(Prepare, Succeeded, 1000, PrepareKey),
                                                          Txn(Capture, Succeeded, 1000, WebhookKey(1))], 0)
    ensures w.flights == [Closed, Reconciling(w.deposit, r1, 2), Reconciling(w.deposit, r2, 3)]
  {
    var first := [BeginReconcile(Report(Done, true, 1000, 1000, 0, false), 1), EndReconcile(0), BeginReconcile(r1, 2)];
    var last := BeginReconcile(r2, 3);
    steps := first + [last];
    RunInTwoParts(Start(1000), first, [last]);
    ThreeSteps(Start(1000), first[0], first[1], first[2]);
    assert [last][1..] == [];
    w := Run(Start(1000), steps);
    assert w == Next(Run(Start(1000), first), last);
  }

  /** Two writes decided on the same read, one after the other. */
  lemma TwoWrites(w: World, r1: Report, e1: nat, r2: Report, e2: nat)
    requires w.flights == [Closed, Reconciling(w.deposit, r1, e1), Reconciling(w.deposit, r2, e2)]
    ensures Run(w, [EndReconcile(1), EndReconcile(2)]).deposit
            == Reconcile(Reconcile(w.deposit, w.deposit, r1, e1), w.deposit, r2, e2)
  {
    var writes := [EndReconcile(1), EndReconcile(2)];
    assert writes[1..] == [EndReconcile(2)] && writes[1..][1..] == [];
    var w1 := Next(w, EndReconcile(1));
    assert w1.flights[2] == w.flights[2];
    assert Run(w, writes) == Run(w1, [EndReconcile(2)]) == Run(Next(w1, EndReconcile(2)), []);
  }

  /** A run in which that happens: both reports are read from a paid deposit, then both are written. */
  lemma CancellationsCanOverlap() returns (steps: seq<Step>)
    ensures !Balanced(Run(Start(1000), steps).deposit)
  {
    var r1, r2 := Report(Canceled, true, 1000, 700, 300, true), Report(Canceled, true, 1000, 500, 500, true);
    var begin, w := TwoCancellationsRead(r1, r2);
    var writes := [EndReconcile(1), EndReconcile(2)];
    steps := begin + writes;
    RunInTwoParts(Start(1000), begin, writes);
    TwoWrites(w, r1, 2, r2, 3);
    NoSettledRefunds(w.deposit.ledger);
    OverlappingCancellationsDoubleCount(w.deposit, r1, r2, 2, 3);
  }

  lemma {:induction false} NoSettledRefunds(ledger: seq<Txn>)
    requires forall i :: 0 <= i < |ledger| ==> RefundOf(ledger[i]) == 0
    ensures LedgerRefunds(ledger) == 0
  {
    if ledger != [] {
      NoSettledRefunds(ledger[..|ledger| - 1]);
    }
  }

  lemma TwoSteps(w: World, a: Step, b: Step)
    ensures Run(w, [a, b]) == Next(Next(w, a), b)
  {
    var w1, w2 := Next(w, a), Next(Next(w, a), b);
    assert [a, b][1..] == [b] && [b][1..] == [];
    assert Run(w2, []) == w2 && Run(w1, [b]) == w2;
  }

  lemma EndReconcileWrites(w: World, f: nat)
    requires f < |w.flights| && w.flights[f].Reconciling? && |w.flights[f].seen.ledger| <= |w.deposit.ledger|
    ensures var w' := Next(w, EndReconcile(f));
            && w'.deposit == Reconcile(w.deposit, w.flights[f].seen, w.flights[f].report, w.flights[f].event)
            && w'.payments == w.payments && w'.flights == w.flights[f := Closed]
  {
  }

  /** A report that is read and written at once. */
  lemma ReportWrites(w: World, r: Report, event: nat)
    ensures var w' := Next(Next(w, BeginReconcile(r, event)), EndReconcile(|w.flights|));
            w'.deposit == Reconcile(w.deposit, w.deposit, r, event) && w'.payments == w.payments
            && w'.flights == w.flights + [Closed]
  {
    var w1 := w.(flights := w.flights + [Reconciling(w.deposit, r, event)]);
    assert Next(w, BeginReconcile(r, event)) == w1;
    EndReconcileWrites(w1, |w.flights|);
  }

  lemma PaidByReport() returns (steps: seq<Step>, w: World)
    ensures Run(Start(1000), steps) == w && w.flights == [Closed] && w.payments == []
    ensures w.deposit.amount == 1000 && w.deposit.status == Paid
    ensures w.deposit.ledger == [Txn(Prepare, Succeeded, 1000, PrepareKey), Txn(Capture, Succeeded, 1000, WebhookKey(1))]
  {
    var done := Report(Done, true, 1000, 1000, 0, false);
    steps := [BeginReconcile(done, 1), EndReconcile(0)];
    TwoSteps(Start(1000), steps[0], steps[1]);
    ReportWrites(Start(1000), done, 1);
    w := Run(Start(1000), steps);
    assert Latest(Start(1000).deposit.ledger, IsCapture).None?;
  }

  /** A deposit is paid and put up for refund. */
  lemma RefundQueued() returns (steps: seq<Step>, w: World)
    ensures Run(Start(1000), steps) == w && w.flights == [Closed] && w.payments == []
    ensures w.deposit.amount == 1000 && w.deposit.status == RefundPending
    ensures forall i :: 0 <= i < |w.deposit.ledger| ==> RefundOf(w.deposit.ledger[i]) == 0
    ensures exists i :: 0 <= i < |w.deposit.ledger| && IsUnsettled(w.deposit.ledger[i])
  {
    var begin, paid := PaidByReport();
    var queue := [Queue(UserCancellation)];
    steps := begin + queue;
    RunInTwoParts(Start(1000), begin, queue);
    assert queue[1..] == [];
    w := paid.(deposit := QueueRefund(paid.deposit, UserCancellation));
    assert Run(paid, queue) == w;
    assert w.deposit.ledger == paid.deposit.ledger + [Txn(Refund, Pending, 1000, RefundKey(UserCancellation))];
    assert IsUnsettled(w.deposit.ledger[2]);
  }

  /** A run in which a partial cancellation of 300 drops a queued refund of 1000: the row counts as paid, no payment was
      made, and none will be. */
  lemma PartialCancellationDropsRefund() returns (steps: seq<Step>)
    ensures var w := Run(Start(1000), steps);
            && w.deposit.status == PartiallyRefunded && w.deposit.refunded == 300 && LedgerRefunds(w.deposit.ledger) == 1000
            && w.payments == [] && StartRefund(w.deposit).None? && StartRetry(w.deposit).None?
  {
    var r := Report(Canceled, true, 1000, 700, 300, true);
    var begin, w := RefundQueued();
    var report := [BeginReconcile(r, 2), EndReconcile(|w.flights|)];
    steps := begin + report;
    RunsConserve(Start(1000), begin);
    RunInTwoParts(Start(1000), begin, report);
    TwoSteps(w, report[0], report[1]);
    ReportWrites(w, r, 2);
    NoSettledRefunds(w.deposit.ledger);
    QueuedRefundBalancesIff(w.deposit, r, 2);
  }

  // ---------- the refund ledger against the money paid ----------

  /** Settled refund rows stand for payments the provider made, and so do the final refund statuses. */
  ghost predicate Honest(w: World) {
    && (forall i: nat :: QueuedRow(w.deposit, i) && w.deposit.ledger[i].progress == Succeeded ==>
          w.deposit.ledger[i].key in PaidKeys(w.payments))
    && (w.deposit.status == Refunded || w.deposit.status == PartiallyRefunded ==> w.payments != [])
    && NoCancellationUnderWay(w)
  }

  ghost predicate NoCancellationUnderWay(w: World) {
    forall f :: 0 <= f < |w.flights| && w.flights[f].Reconciling? ==> w.flights[f].report.state != Canceled
  }

  ghost predicate NoCancellations(steps: seq<Step>) {
    forall i :: 0 <= i < |steps| && steps[i].BeginReconcile? ==> steps[i].report.state != Canceled
  }

  lemma PaidKeysStay(w: World, s: Step, key: Key)
    requires key in PaidKeys(w.payments)
    ensures key in PaidKeys(Next(w, s).payments)
  {
    var i :| 0 <= i < |w.payments| && w.payments[i].key == key;
    assert Next(w, s).payments[i].key == key;
  }

  /** Without cancellation reports a refund row is settled only by a refund that ends. */
  lemma RowsSettleByRefund(w: World, s: Step, i: nat)
    requires Inv(w) && NoCancellationUnderWay(w) && QueuedRow(w.deposit, i) && w.deposit.ledger[i].progress != Succeeded
    requires i < |Next(w, s).deposit.ledger| && Next(w, s).deposit.ledger[i].progress == Succeeded
    ensures s.EndRefund? && w.deposit.ledger[i].key in PaidKeys(w.payments) && Next(w, s).payments == w.payments
  {
    if (s.EndConfirm? || s.EndRefund? || s.EndReconcile?) && s.flight < |w.flights| {
      assert FlightOk(w.deposit, w.flights[s.flight]);
    }
  }

  lemma SettledRowsArePaid(w: World, s: Step, i: nat)
    requires Inv(w) && Honest(w)
    requires QueuedRow(Next(w, s).deposit, i) && Next(w, s).deposit.ledger[i].progress == Succeeded
    ensures Next(w, s).deposit.ledger[i].key in PaidKeys(Next(w, s).payments)
  {
    var d := w.deposit;
    StepImproves(w, s);
    StepAddsOnlyItsReason(w, s, i);
    if QueuedRow(d, i) {
      if d.ledger[i].progress == Succeeded {
        PaidKeysStay(w, s, d.ledger[i].key);
      } else {
        RowsSettleByRefund(w, s, i);
      }
    }
  }

  lemma NextKeepsCancellationsOut(w: World, s: Step)
    requires NoCancellationUnderWay(w) && (s.BeginReconcile? ==> s.report.state != Canceled)
    ensures NoCancellationUnderWay(Next(w, s))
  {
    forall f | 0 <= f < |Next(w, s).flights| && Next(w, s).flights[f].Reconciling?
      ensures Next(w, s).flights[f].report.state != Canceled
    {
      assert f < |w.flights| && w.flights[f].Reconciling? ==> w.flights[f].report.state != Canceled;
    }
  }

  lemma NextKeepsHonest(w: World, s: Step)
    requires Inv(w) && Honest(w) && (s.BeginReconcile? ==> s.report.state != Canceled)
    ensures Honest(Next(w, s))
  {
    var w' := Next(w, s);
    forall i: nat | QueuedRow(w'.deposit, i) && w'.deposit.ledger[i].progress == Succeeded
      ensures w'.deposit.ledger[i].key in PaidKeys(w'.payments)
    {
      SettledRowsArePaid(w, s, i);
    }
    NextKeepsCancellationsOut(w, s);
  }

  lemma {:induction false} RunsKeepHonest(w: World, steps: seq<Step>)
    requires Inv(w) && Honest(w) && NoCancellations(steps)
    ensures Honest(Run(w, steps))
    decreases |steps|
  {
    if steps != [] {
      NextKeepsHonest(w, steps[0]);
      NextKeepsInv(w, steps[0]);
      assert forall i :: 0 <= i < |steps[1..]| ==> steps[1..][i] == steps[i + 1];
      RunsKeepHonest(Next(w, steps[0]), steps[1..]);
    }
  }

  /** As long as the provider reports no cancellation, a settled refund row means that the provider was asked and paid
      under its key, and a refunded deposit that the whole amount was paid back at least once. */
  lemma SettledRefundsArePaid(amount: int, steps: seq<Step>)
    requires amount > 0 && NoCancellations(steps)
    ensures var w := Run(Start(amount), steps);
            && (forall i: nat :: QueuedRow(w.deposit, i) && w.deposit.ledger[i].progress == Succeeded ==>
                  w.deposit.ledger[i].key in PaidKeys(w.payments))
            && (w.deposit.status == Refunded || w.deposit.status == PartiallyRefunded ==> TotalPaid(w.payments) >= amount)
  {
    var w := Run(Start(amount), steps);
    RunsKeepHonest(Start(amount), steps);
    RunKeepsPaidFor(Start(amount), steps, Reasons(steps));
    DistinctPaymentsAreFew(w.payments, Reasons(steps), amount);
    if w.payments != [] {
      AtLeastOnce(|w.payments|, amount);
    }
  }

  lemma AtLeastOnce(n: nat, amount: int)
    requires n > 0 && amount > 0
    ensures n * amount >= amount
  {
  }

  // ---------- a refund that is queued once ----------

  ghost predicate QueuedAtMostOnce(steps: seq<Step>) {
    forall i, j :: 0 <= i < j < |steps| ==> !steps[i].Queue? || !steps[j].Queue?
  }

  ghost predicate NoRefundYet(d: Deposit) {
    d.status != RefundPending && forall i :: 0 <= i < |d.ledger| ==> d.ledger[i].kind != Refund
  }

  /** There is one refund row at most, and it is not settled as long as the refund is pending. */
  ghost predicate OneRefund(d: Deposit) {
    && (forall i, j :: 0 <= i < j < |d.ledger| ==> d.ledger[i].kind != Refund || d.ledger[j].kind != Refund)
    && (d.status == RefundPending ==> d.retained == 0 && forall i :: 0 <= i < |d.ledger| ==> RefundOf(d.ledger[i]) == 0)
  }

  /** Only queueing and cancellation reports add refund rows. */
  lemma StepAddsNoRefund(w: World, s: Step, i: nat)
    requires Inv(w) && NoCancellationUnderWay(w) && !s.Queue?
    requires i < |Next(w, s).deposit.ledger| && Next(w, s).deposit.ledger[i].kind == Refund
    ensures i < |w.deposit.ledger| && w.deposit.ledger[i].kind == Refund
  {
    StepImproves(w, s);
  }

  /** While a refund stays pending, no step but a cancellation report settles its row. */
  lemma PendingRowsStayOpen(w: World, s: Step, i: nat)
    requires Inv(w) && NoCancellationUnderWay(w) && !s.Queue? && i < |w.deposit.ledger|
    requires w.deposit.status == RefundPending && RefundOf(w.deposit.ledger[i]) == 0
    ensures Next(w, s).deposit.status == RefundPending ==>
              Next(w, s).deposit.retained == w.deposit.retained && i < |Next(w, s).deposit.ledger| && RefundOf(Next(w, s).deposit.ledger[i]) == 0
  {
    StepImproves(w, s);
    if (s.EndConfirm? || s.Claim? || s.Abort?) && s.flight < |w.flights| {
      assert FlightOk(w.deposit, w.flights[s.flight]);
    }
  }

  lemma NextKeepsOneRefund(w: World, s: Step)
    requires Inv(w) && NoCancellationUnderWay(w) && !s.Queue? && OneRefund(w.deposit)
    ensures OneRefund(Next(w, s).deposit) && (NoRefundYet(w.deposit) ==> NoRefundYet(Next(w, s).deposit))
  {
    var d, d' := w.deposit, Next(w, s).deposit;
    StepImproves(w, s);
    forall i: nat | i < |d'.ledger| && d'.ledger[i].kind == Refund
      ensures i < |d.ledger| && d.ledger[i].kind == Refund
      ensures d.status == RefundPending && d'.status == RefundPending ==> RefundOf(d'.ledger[i]) == 0
    {
      StepAddsNoRefund(w, s, i);
      if d.status == RefundPending {
        PendingRowsStayOpen(w, s, i);
      }
    }
    assert d'.status == RefundPending ==> d.status == RefundPending;
  }

  lemma QueueingAddsOne(d: Deposit, reason: Reason)
    requires Sound(d) && NoRefundYet(d)
    ensures OneRefund(QueueRefund(d, reason))
  {
  }

  lemma {:induction false} RunsKeepOneRefund(w: World, steps: seq<Step>)
    requires Inv(w) && NoCancellationUnderWay(w) && NoCancellations(steps) && QueuedAtMostOnce(steps)
    requires OneRefund(w.deposit)
    requires NoRefundYet(w.deposit) || forall i :: 0 <= i < |steps| ==> !steps[i].Queue?
    ensures OneRefund(Run(w, steps).deposit)
    decreases |steps|
  {
    if steps != [] {
      NextKeepsInv(w, steps[0]);
      NextKeepsCancellationsOut(w, steps[0]);
      if steps[0].Queue? {
        QueueingAddsOne(w.deposit, steps[0].reason);
      } else {
        NextKeepsOneRefund(w, steps[0]);
      }
      assert forall i :: 0 <= i < |steps[1..]| ==> steps[1..][i] == steps[i + 1];
      RunsKeepOneRefund(Next(w, steps[0]), steps[1..]);
    }
  }

  /** Cancellation queues a refund once. As long as no client confirms under a refund key and the provider reports no
      cancellation, a refund that is pending can then be paid, by the administrator's retry at the latest. */
  lemma SoleRefundIsPayable(amount: int, steps: seq<Step>)
    requires amount > 0 && ClientsKeepOff(steps) && NoCancellations(steps) && QueuedAtMostOnce(steps)
    ensures var d := Run(Start(amount), steps).deposit;
            d.status == RefundPending ==>
              StartRetry(d).Some? && QueuedRow(d, StartRetry(d).value) && d.ledger[StartRetry(d).value].progress != Succeeded
  {
    var d := Run(Start(amount), steps).deposit;
    RunsConserve(Start(amount), steps);
    RunsKeepOneRefund(Start(amount), steps);
    if d.status == RefundPending {
      PendingRefundsHaveARow(amount, steps);
      var i: nat :| QueuedRow(d, i);
      assert IsRefund(d.ledger[i]) && RefundOf(d.ledger[i]) == 0;
    }
  }

  // ---------- what a confirmation, a refund and a retry come to ----------

  lemma FourSteps(w: World, a: Step, b: Step, c: Step, d: Step)
    ensures Run(w, [a, b, c, d]) == Next(Next(Next(Next(w, a), b), c), d)
  {
    assert [a, b, c] + [d] == [a, b, c, d] && [d][1..] == [];
    RunInTwoParts(w, [a, b, c], [d]);
    ThreeSteps(w, a, b, c);
    var w3 := Next(Next(Next(w, a), b), c);
    assert Run(w3, [d]) == Run(Next(w3, d), []);
  }

  /** A confirmation gets under way exactly for a prepared deposit whose newest row under the key, if any, is not settled. */
  lemma ConfirmationBeginsIff(w: World, key: ClientKey)
    requires Inv(w)
    ensures var w' := Next(w, BeginConfirm(key));
            if w.deposit.status == Ready
               && forall i :: 0 <= i < |w.deposit.ledger| && NewestWithKey(w.deposit.ledger, i, key) ==> w.deposit.ledger[i].progress != Succeeded
            then |w'.flights| == |w.flights| + 1 && w'.flights[|w.flights|].Confirming?
            else w' == w
  {
    var existing := Latest(w.deposit.ledger, WithKey(key));
    if i :| 0 <= i < |w.deposit.ledger| && NewestWithKey(w.deposit.ledger, i, key) {
      assert WithKey(key)(w.deposit.ledger[i]);
      NewestIsUnique(w.deposit.ledger, i, existing.value, key);
    }
    if existing.Some? {
      assert forall j :: existing.value < j < |w.deposit.ledger| ==> !WithKey(key)(w.deposit.ledger[j]);
      assert NewestWithKey(w.deposit.ledger, existing.value, key);
    }
  }

  ghost predicate NewestWithKey(ledger: seq<Txn>, i: int, key: Key)
    requires 0 <= i < |ledger|
  {
    ledger[i].key == key && forall j :: i < j < |ledger| ==> ledger[j].key != key
  }

  lemma NewestIsUnique(ledger: seq<Txn>, i: nat, j: nat, key: Key)
    requires i < |ledger| && j < |ledger| && NewestWithKey(ledger, i, key)
    requires WithKey(key)(ledger[j]) && forall k :: j < k < |ledger| ==> !WithKey(key)(ledger[k])
    ensures i == j
  {
  }

  /** A confirmation that got under way and is answered leaves the deposit paid, with a settled capture row under the
      client's key and no money divided. */
  lemma ConfirmationPays(w: World, key: ClientKey)
    requires Inv(w) && |Next(w, BeginConfirm(key)).flights| > |w.flights|
    ensures var d := Run(w, [BeginConfirm(key), EndConfirm(|w.flights|)]).deposit;
            && d.status == Paid && d.hasReference && d.refunded == w.deposit.refunded && d.retained == w.deposit.retained
            && exists i :: 0 <= i < |d.ledger| && d.ledger[i].kind == Capture && d.ledger[i].progress == Succeeded
                           && d.ledger[i].key == key && (i >= |w.deposit.ledger| ==> d.ledger[i].amount == w.deposit.amount)
  {
    TwoSteps(w, BeginConfirm(key), EndConfirm(|w.flights|));
    ConfirmsCaptureRows(w.deposit, key);
    var w1 := Next(w, BeginConfirm(key));
    var i := w1.flights[|w.flights|].txn;
    var d := Next(w1, EndConfirm(|w.flights|)).deposit;
    assert w1.deposit.ledger[i].key == key;
    assert d.ledger[i] == w1.deposit.ledger[i].(progress := Succeeded);
  }

  /** An administrator's claim takes a row that is waiting or whose last attempt failed, and one in processing only after
      ten minutes without news; a claimed row is in processing. */
  lemma ClaimSucceedsIff(w: World, f: nat, lapsed: bool)
    requires Inv(w) && f < |w.flights| && w.flights[f].Retrying? && !w.flights[f].claimed
    ensures var i, w' := w.flights[f].txn, Next(w, Claim(f, lapsed));
            && i < |w.deposit.ledger|
            && (w'.flights[f] == w.flights[f].(claimed := true) <==>
                || w.deposit.ledger[i].progress == Pending || w.deposit.ledger[i].progress == Unsuccessful
                || (w.deposit.ledger[i].progress == Processing && lapsed))
            && (if w'.flights[f] == w.flights[f].(claimed := true)
                then w'.deposit == w.deposit.(ledger := w.deposit.ledger[i := w.deposit.ledger[i].(progress := Processing)])
                else w' == w)
  {
    assert FlightOk(w.deposit, w.flights[f]);
  }

  /** A second retry of the same row gets nowhere as long as the first is not ten minutes old, and a retry that has not
      claimed its row pays nothing. */
  lemma ClaimsExclude(w: World, f: nat, lapsed: bool, g: nat)
    requires Inv(w) && f < |w.flights| && w.flights[f].Retrying? && !w.flights[f].claimed
    requires g < |w.flights| && g != f && w.flights[g].Retrying? && !w.flights[g].claimed && w.flights[g].txn == w.flights[f].txn
    ensures var w' := Next(w, Claim(f, lapsed));
            && (w'.flights[f].claimed ==> Next(w', Claim(g, false)) == w')
            && Next(Next(w', Pay(g)), EndRefund(g)) == w'
  {
    ClaimSucceedsIff(w, f, lapsed);
    UnclaimedPaysNothing(Next(w, Claim(f, lapsed)), g);
  }

  /** What the end of a refund leaves: the key paid, the row settled, the status by the retained amount, one notice more. */
  ghost predicate PaidOut(w: World, w': World, i: nat)
    requires i < |w.deposit.ledger|
  {
    && i < |w'.deposit.ledger| && w.deposit.ledger[i].key in PaidKeys(w'.payments)
    && w'.deposit.ledger[i] == w.deposit.ledger[i].(progress := Succeeded)
    && w'.deposit.status == (if w.deposit.retained == 0 then Refunded else PartiallyRefunded)
    && w'.deposit.refunded == w.deposit.refunded && w'.deposit.retained == w.deposit.retained
    && w'.deposit.notices == w.deposit.notices + 1
  }

  lemma ProviderHasPaid(payments: seq<Payment>, t: Txn)
    ensures t.key in PaidKeys(ProviderPays(payments, t))
  {
    if t.key !in PaidKeys(payments) {
      assert ProviderPays(payments, t)[|payments|].key == t.key;
    }
  }

  /** Paying and recording through a flight that may pay. */
  lemma PayAndRecord(w: World, f: nat)
    requires f < |w.flights| && MayPay(w.flights[f]) && w.flights[f].txn < |w.deposit.ledger|
    requires w.flights[f].retainedSeen == w.deposit.retained
    ensures PaidOut(w, Next(Next(w, Pay(f)), EndRefund(f)), w.flights[f].txn)
  {
    ProviderHasPaid(w.payments, w.deposit.ledger[w.flights[f].txn]);
  }

  /** The automatic attempt takes the newest refund row that is waiting or has failed, and pays it. */
  lemma RefundAttemptPays(w: World, i: nat)
    requires Inv(w) && w.deposit.status == RefundPending
    requires i < |w.deposit.ledger| && MayBePaid(w.deposit.ledger[i])
    requires forall j :: i < j < |w.deposit.ledger| ==> !MayBePaid(w.deposit.ledger[j])
    ensures var f := |w.flights|; PaidOut(w, Run(w, [BeginRefund, Pay(f), EndRefund(f)]), i)
  {
    var f := |w.flights|;
    ThreeSteps(w, BeginRefund, Pay(f), EndRefund(f));
    NewestIsPicked(w.deposit.ledger, i);
    var w1 := Next(w, BeginRefund);
    assert w1.flights[f] == Refunding(i, w.deposit.retained);
    PayAndRecord(w1, f);
  }

  lemma NewestIsPicked(ledger: seq<Txn>, i: nat)
    requires i < |ledger| && MayBePaid(ledger[i]) && forall j :: i < j < |ledger| ==> !MayBePaid(ledger[j])
    ensures Latest(ledger, IsRetriable) == Some(i)
  {
    assert IsRetriable(ledger[i]);
    assert forall j :: i < j < |ledger| ==> !IsRetriable(ledger[j]);
  }

  /** An administrator's retry goes through, in its own four steps, exactly when the newest refund row may be paid or its
      processing has lapsed; otherwise it changes neither deposit nor payments. */
  lemma RetryPaysIff(w: World, i: nat, lapsed: bool)
    requires Inv(w) && w.deposit.status == RefundPending && i < |w.deposit.ledger| && NewestRefund(w.deposit.ledger, i)
    requires w.deposit.ledger[i].progress != Succeeded
    ensures var f := |w.flights|;
            var w' := Run(w, [BeginRetry, Claim(f, lapsed), Pay(f), EndRefund(f)]);
            if w.deposit.ledger[i].progress != Processing || lapsed then PaidOut(w, w', i)
            else w'.deposit == w.deposit && w'.payments == w.payments
  {
    var f := |w.flights|;
    var w1 := w.(flights := w.flights + [Retrying(i, w.deposit.retained, false)]);
    FourSteps(w, BeginRetry, Claim(f, lapsed), Pay(f), EndRefund(f));
    NextKeepsInv(w, BeginRetry);
    RetryBegins(w, i);
    if w.deposit.ledger[i].progress != Processing || lapsed {
      ClaimedPays(w1, f, lapsed);
    } else {
      ClaimSucceedsIff(w1, f, lapsed);
      UnclaimedPaysNothing(w1, f);
    }
  }

  lemma ClaimedPays(w: World, f: nat, lapsed: bool)
    requires Inv(w) && f < |w.flights| && w.flights[f].Retrying? && !w.flights[f].claimed
    requires w.flights[f].txn < |w.deposit.ledger| && w.flights[f].retainedSeen == w.deposit.retained
    requires w.deposit.ledger[w.flights[f].txn].progress != Succeeded
    requires w.deposit.ledger[w.flights[f].txn].progress != Processing || lapsed
    ensures PaidOut(w, Next(Next(Next(w, Claim(f, lapsed)), Pay(f)), EndRefund(f)), w.flights[f].txn)
  {
    ClaimSucceedsIff(w, f, lapsed);
    PayAndRecord(Next(w, Claim(f, lapsed)), f);
  }

  lemma RetryBegins(w: World, i: nat)
    requires Inv(w) && w.deposit.status == RefundPending && i < |w.deposit.ledger| && NewestRefund(w.deposit.ledger, i)
    requires w.deposit.ledger[i].progress != Succeeded
    ensures Next(w, BeginRetry) == w.(flights := w.flights + [Retrying(i, w.deposit.retained, false)])
  {
    assert IsRefund(w.deposit.ledger[i]);
    assert forall j :: i < j < |w.deposit.ledger| ==> !IsRefund(w.deposit.ledger[j]);
  }

  lemma UnclaimedPaysNothing(w: World, f: nat)
    requires f < |w.flights| && w.flights[f].Retrying? && !w.flights[f].claimed
    ensures Next(Next(w, Pay(f)), EndRefund(f)) == w
  {
  }

  /** An attempt that fails leaves the refund pending and its row to be tried again, by either way. */
  lemma FailedAttemptsCanBeRepeated(w: World, f: nat)
    requires Inv(w) && w.deposit.status == RefundPending && f < |w.flights| && MayPay(w.flights[f])
    ensures var w' := Next(w, Abort(f));
            && w.flights[f].txn < |w'.deposit.ledger| && w'.deposit.ledger[w.flights[f].txn].progress == Unsuccessful
            && w'.deposit.status == RefundPending && MayBePaid(w'.deposit.ledger[w.flights[f].txn])
            && StartRefund(w'.deposit).Some?
  {
    assert FlightOk(w.deposit, w.flights[f]);
    assert IsRetriable(Next(w, Abort(f)).deposit.ledger[w.flights[f].txn]);
  }

  /** Under the conditions of SoleRefundIsPayable the administrator's four steps really refund the whole deposit, unless
      another attempt is in processing and not ten minutes old. */
  lemma SoleRefundIsPaid(amount: int, steps: seq<Step>, lapsed: bool)
    requires amount > 0 && ClientsKeepOff(steps) && NoCancellations(steps) && QueuedAtMostOnce(steps)
    ensures var w := Run(Start(amount), steps);
            w.deposit.status == RefundPending ==>
              var f, i := |w.flights|, StartRetry(w.deposit);
              var w' := Run(w, [BeginRetry, Claim(f, lapsed), Pay(f), EndRefund(f)]);
              && i.Some? && QueuedRow(w.deposit, i.value)
              && (w.deposit.ledger[i.value].progress != Processing || lapsed ==>
                    PaidOut(w, w', i.value) && w'.deposit.status == Refunded)
  {
    var w := Run(Start(amount), steps);
    RunsConserve(Start(amount), steps);
    RunsKeepOneRefund(Start(amount), steps);
    SoleRefundIsPayable(amount, steps);
    if w.deposit.status == RefundPending {
      var i := StartRetry(w.deposit).value;
      assert forall j :: i < j < |w.deposit.ledger| ==> !IsRefund(w.deposit.ledger[j]);
      RetryPaysIff(w, i, lapsed);
    }
  }

  // ---------- what a report comes to ----------

  ghost predicate Newest(ledger: seq<Txn>, i: int, kind: Kind, open: bool)
    requires 0 <= i < |ledger|
  {
    && ledger[i].kind == kind && (open ==> ledger[i].progress != Succeeded)
    && forall j :: i < j < |ledger| ==> ledger[j].kind != kind || (open && ledger[j].progress == Succeeded)
  }

  /** The row found when the report was read is settled; without one a row is added, if there is anything to add. */
  ghost predicate SettledOrAdded(before: seq<Txn>, seen: seq<Txn>, after: seq<Txn>, kind: Kind, open: bool, amount: int, event: nat)
    requires |seen| <= |before|
  {
    || (exists i :: 0 <= i < |seen| && Newest(seen, i, kind, open) && after == before[i := before[i].(progress := Succeeded)])
    || ((forall i :: 0 <= i < |seen| ==> seen[i].kind != kind || (open && seen[i].progress == Succeeded))
        && after == if amount > 0 then before + [Txn(kind, Succeeded, amount, WebhookKey(event))] else before)
  }

  /** A report that names another provider, currency or amount, or whose cancelled and remaining parts do not add up,
      changes nothing. */
  lemma UnfitReportsChangeNothing(d: Deposit, seen: Deposit, r: Report, event: nat)
    requires |seen.ledger| <= |d.ledger|
    requires || !r.matches || r.total != seen.amount || r.state == Other
             || (r.state == Canceled && (r.canceled < 0 || r.balance < 0 || r.canceled + r.balance != r.total || !r.hasCancellation))
    ensures Reconcile(d, seen, r, event) == d
  {
  }

  /** A fitting report of payment makes the deposit paid exactly when it was read as prepared or failed; a report of
      abandonment makes it failed exactly when it was read as prepared. */
  lemma PaymentReportsAnswer(d: Deposit, seen: Deposit, r: Report, event: nat)
    requires Sound(d) && Grows(seen, d) && r.matches && r.total == seen.amount
    ensures var d' := Reconcile(d, seen, r, event);
            && (r.state == Done ==>
                  if seen.status == Ready || seen.status == Failed
                  then d' == d.(status := Paid, hasReference := true, ledger := d'.ledger)
                       && SettledOrAdded(d.ledger, seen.ledger, d'.ledger, Capture, false, d.amount, event)
                  else d' == d)
            && (r.state == Abandoned ==> d' == if seen.status == Ready then d.(status := Failed) else d)
  {
    if r.state == Done {
      var capture := Latest(seen.ledger, IsCapture);
      assert forall j :: 0 <= j < |seen.ledger| ==> (IsCapture(seen.ledger[j]) <==> seen.ledger[j].kind == Capture);
      if capture.Some? {
        assert Newest(seen.ledger, capture.value, Capture, false);
      }
    }
  }

  /** A fitting report of a cancellation divides the deposit as reported, by status and amounts, unless it was read as
      divided in just that way. */
  lemma CancellationReportsAnswer(d: Deposit, seen: Deposit, r: Report, event: nat)
    requires Sound(d) && Grows(seen, d) && r.matches && r.total == seen.amount && r.state == Canceled
    requires r.canceled >= 0 && r.balance >= 0 && r.canceled + r.balance == r.total && r.hasCancellation
    ensures var d' := Reconcile(d, seen, r, event);
            var status := if r.balance == 0 then Refunded else PartiallyRefunded;
            if seen.status == status && seen.refunded == r.canceled then d' == d
            else
              && d' == d.(status := status, hasReference := true, refunded := r.canceled, retained := r.balance,
                          notices := d.notices + 1, ledger := d'.ledger)
              && SettledOrAdded(d.ledger, seen.ledger, d'.ledger, Refund, true, r.canceled - seen.refunded, event)
  {
    var open := Latest(seen.ledger, IsUnsettled);
    assert forall j :: 0 <= j < |seen.ledger| ==>
                         (IsUnsettled(seen.ledger[j]) <==> seen.ledger[j].kind == Refund && seen.ledger[j].progress != Succeeded);
    if open.Some? {
      assert Newest(seen.ledger, open.value, Refund, true);
    }
  }
}
