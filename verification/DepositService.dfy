/** The deposit row as the services update it, one read or one write transaction per method. */
module DepositService {
  import opened Common
  import opened Deposits

  /** Between calls the row is sound; each write improves it, so amounts stay conserved and rows are never lost. */
  class DepositRow {
    const amount: int
    var status: Status
    var hasReference: bool
    var refunded: int
    var retained: int
    var ledger: seq<Txn>
    var notices: nat

    function View(): Deposit
      reads this
    {
      Deposit(amount, status, hasReference, refunded, retained, ledger, notices)
    }

    constructor (amount: int)
      requires amount > 0
      ensures View() == Prepared(amount) && Sound(View())
    {
      this.amount := amount;
      status, hasReference := Ready, false;
      refunded, retained := 0, 0;
      ledger := [Txn(Prepare, Succeeded, amount, PrepareKey)];
      notices := 0;
    }

    method Settle(i: nat, progress: Progress)
      requires i < |ledger|
      modifies this`ledger
      ensures View() == Mark(old(View()), i, progress)
    {
      ledger := ledger[i := ledger[i].(progress := progress)];
    }

    method BeginConfirm(key: ClientKey) returns (row: Option<nat>)
      requires Sound(View())
      modifies this
      ensures (View(), row) == StartConfirm(old(View()), key)
      ensures Improves(old(View()), View()) && (row.Some? ==> FlightOk(View(), Confirming(row.value)))
    {
      if StartConfirm(View(), key).1.Some? {
        ConfirmsCaptureRows(View(), key);
      }
      AppendImproves(View(), Txn(Capture, Pending, amount, key));
      var existing := Latest(ledger, WithKey(key));
      if existing.Some? && ledger[existing.value].progress == Succeeded {
        return None;
      }
      if status != Ready {
        return None;
      }
      if existing.Some? {
        return existing;
      }
      row := Some(|ledger|);
      ledger := ledger + [Txn(Capture, Pending, amount, key)];
    }

    method EndConfirm(row: nat)
      requires Sound(View()) && FlightOk(View(), Confirming(row))
      modifies this
      ensures View() == CommitConfirm(old(View()), row) && Improves(old(View()), View())
    {
      MarkImproves(View(), row, Succeeded);
      Settle(row, Succeeded);
      status := Paid;
      hasReference := true;
    }

    method QueueReservationRefund(reason: Reason)
      requires Sound(View())
      modifies this
      ensures View() == QueueRefund(old(View()), reason) && Improves(old(View()), View())
    {
      QueueImproves(View(), reason);
      if status != Paid {
        return;
      }
      if Latest(ledger, WithKey(RefundKey(reason))).None? {
        ledger := ledger + [Txn(Refund, Pending, amount, RefundKey(reason))];
      }
      status := RefundPending;
      refunded := amount;
      retained := 0;
    }

    /** The row and the retained amount a refund attempt goes out with. */
    method BeginPendingRefund() returns (row: Option<nat>, retainedSeen: int)
      ensures row == StartRefund(View()) && retainedSeen == retained
    {
      retainedSeen := retained;
      if status != RefundPending {
        return None, retained;
      }
      row := Latest(ledger, IsRetriable);
      if row.None? || !hasReference {
        return None, retained;
      }
    }

    method BeginAdminRetry() returns (row: Option<nat>, retainedSeen: int)
      ensures row == StartRetry(View()) && retainedSeen == retained
    {
      retainedSeen := retained;
      if status != RefundPending || !hasReference {
        return None, retained;
      }
      row := Latest(ledger, IsRefund);
      if row.Some? && ledger[row.value].progress == Succeeded {
        return None, retained;
      }
    }

    method ClaimAdminRetry(row: nat, lapsed: bool) returns (claimed: bool)
      requires Sound(View()) && QueuedRow(View(), row)
      modifies this`ledger
      ensures ClaimRetry(old(View()), row, lapsed) == if claimed then Some(View()) else None
      ensures claimed <==> || old(ledger[row].progress) == Pending || old(ledger[row].progress) == Unsuccessful
                           || (old(ledger[row].progress) == Processing && lapsed)
      ensures Improves(old(View()), View()) && (!claimed ==> View() == old(View()))
    {
      MarkImproves(View(), row, Processing);
      var progress := ledger[row].progress;
      claimed := progress == Pending || progress == Unsuccessful || (progress == Processing && lapsed);
      if claimed {
        Settle(row, Processing);
      }
    }

    method EndRefund(row: nat, retainedSeen: int)
      requires Sound(View()) && FlightOk(View(), Refunding(row, retainedSeen))
      modifies this
      ensures View() == CommitRefund(old(View()), row, retainedSeen) && Improves(old(View()), View())
    {
      MarkImproves(View(), row, Succeeded);
      Settle(row, Succeeded);
      if retainedSeen == 0 {
        status := Refunded;
      } else {
        status := PartiallyRefunded;
      }
      notices := notices + 1;
    }

    method AbortTransaction(row: nat)
      requires Sound(View()) && FlightOk(View(), Written(row))
      modifies this`ledger
      ensures View() == Fail(old(View()), row) && Improves(old(View()), View())
    {
      MarkImproves(View(), row, Unsuccessful);
      Settle(row, Unsuccessful);
    }

    method ReconcilePaid(seen: Deposit, event: nat)
      requires |seen.ledger| <= |ledger|
      modifies this
      ensures View() == WritePaid(old(View()), seen, event)
    {
      if seen.status == Ready || seen.status == Failed {
        var capture := Latest(seen.ledger, IsCapture);
        if capture.Some? {
          Settle(capture.value, Succeeded);
        } else {
          ledger := ledger + [Txn(Capture, Succeeded, amount, WebhookKey(event))];
        }
        status := Paid;
        hasReference := true;
      }
    }

    method ReconcileCanceled(seen: Deposit, r: Report, event: nat)
      requires |seen.ledger| <= |ledger|
      modifies this
      ensures View() == WriteCanceled(old(View()), seen, r, event)
    {
      var finalStatus := if r.balance == 0 then Refunded else PartiallyRefunded;
      if seen.status != finalStatus || seen.refunded != r.canceled {
        var refund := Latest(seen.ledger, IsUnsettled);
        if refund.Some? {
          Settle(refund.value, Succeeded);
        } else {
          var newlyRefunded := r.canceled - seen.refunded;
          if newlyRefunded > 0 {
            ledger := ledger + [Txn(Refund, Succeeded, newlyRefunded, WebhookKey(event))];
          }
        }
        status := finalStatus;
        hasReference := true;
        refunded := r.canceled;
        retained := r.balance;
        notices := notices + 1;
      }
    }

    method ReconcileReport(seen: Deposit, r: Report, event: nat)
      requires Sound(View()) && Grows(seen, View())
      modifies this
      ensures View() == Reconcile(old(View()), seen, r, event) && Improves(old(View()), View())
    {
      ReconcileImproves(View(), seen, r, event);
      if !r.matches || seen.amount != r.total {
        return;
      }
      if r.state == Done {
        ReconcilePaid(seen, event);
      } else if r.state == Canceled {
        if r.canceled < 0 || r.balance < 0 || r.canceled + r.balance != seen.amount || !r.hasCancellation {
          return;
        }
        ReconcileCanceled(seen, r, event);
      } else if r.state == Abandoned && seen.status == Ready {
        status := Failed;
      }
    }
  }
}
