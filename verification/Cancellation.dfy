/** Cancelling a visit: the reservation and its deposit's refund change in one transaction. */
module Cancellation {
  import opened Common
  import Deposits
  import DepositService
  import Reservations

  /** deposit is the one paid for this reservation, if any. */
  method CancelVisit(service: Reservations.ReservationService, deposit: DepositService.DepositRow?,
                     now: int, id: string, actor: string) returns (o: Reservations.Outcome)
    requires Reservations.Safe(service.rows)
    requires deposit != null ==> Deposits.Sound(deposit.View())
    modifies service, deposit
    ensures o == Reservations.CancelOutcome(old(service.rows), now, id, actor)
    ensures service.rows == Reservations.After(old(service.rows), o) && Reservations.Safe(service.rows)
    ensures deposit != null ==>
              && deposit.View() == (if o.Done? then Deposits.QueueRefund(old(deposit.View()), Deposits.UserCancellation)
                                    else old(deposit.View()))
              && Deposits.Improves(old(deposit.View()), deposit.View())
  {
    o := service.Cancel(now, id, actor);
    if o.Done? && deposit != null {
      deposit.QueueReservationRefund(Deposits.UserCancellation);
    }
  }

  /** After a cancellation, a deposit that was paid is under refund for the whole amount, and the refund can be paid unless
      a row already carried its key and nothing else is open; a deposit that was not paid is left alone. */
  lemma CancellationRefunds(d: Deposits.Deposit)
    requires Deposits.Sound(d)
    ensures var d' := Deposits.QueueRefund(d, Deposits.UserCancellation);
            && (d.status == Deposits.Paid ==>
                  && d'.status == Deposits.RefundPending && d'.refunded == d.amount && d'.retained == 0
                  && (Deposits.StartRefund(d').Some? <==>
                      || Deposits.KeyUnused(d.ledger, Deposits.RefundKey(Deposits.UserCancellation))
                      || (exists i :: 0 <= i < |d.ledger| && Deposits.MayBePaid(d.ledger[i]))))
            && (d.status != Deposits.Paid ==> d' == d)
  {
    if d.status == Deposits.Paid {
      Deposits.QueuedRefundIsPayableIff(d, Deposits.UserCancellation);
    }
  }
}
