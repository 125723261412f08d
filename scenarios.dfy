/** Clients of the two handlers on a fresh database, showing what the
    contracts alone determine for concrete payment sequences. Payment method
    1 is Card and 2 is Cash. */
module Scenarios {
  import opened Store
  import opened Pagos
  import Tickets

  function CardPayment(order: int, amount: real): (body: PagoBody) {
    PagoBody(Some(order), Some(CARD), Some(amount), None)
  }

  function CashPayment(order: int, amount: real): (body: PagoBody) {
    PagoBody(Some(order), Some(2), Some(amount), None)
  }

  /** Order total 100: a payment of 40 leaves 60 and issues no ticket; a
      further 15 leaves 45, which is within the threshold, and issues one. */
  method TicketOnSecondPayment(now: Timestamp) returns (first: Result<Receipt>, second: Result<Receipt>)
    ensures first.Success? && first.value.remaining == 60.0 && first.value.ticket.None?
    ensures second.Success? && second.value.totalPaid == 55.0 && second.value.remaining == 45.0
    ensures second.value.ticket.Some?
  {
    var db := new Database(map[7 := 100.0], {1, 2});
    first := PostPago(db, CardPayment(7, 40.0), now);
    second := PostPago(db, CardPayment(7, 15.0), now);
  }

  /** Order total 100: payments of 40 and 5 leave 55, above the threshold,
      so no ticket is issued and the ticket table stays empty. */
  method NoTicketAboveThreshold(now: Timestamp) returns (first: Result<Receipt>, second: Result<Receipt>, tickets: map<int, Ticket>)
    ensures first.Success? && first.value.ticket.None?
    ensures second.Success? && second.value.remaining == 55.0 && second.value.ticket.None?
    ensures tickets == map[]
  {
    var db := new Database(map[7 := 100.0], {1, 2});
    first := PostPago(db, CardPayment(7, 40.0), now);
    second := PostPago(db, CardPayment(7, 5.0), now);
    tickets := db.tickets;
  }

  /** Order total 200: a Card payment of 150 leaves exactly 50 and issues a
      ticket for 200; a further Card payment of 10 leaves 40 and issues a
      second ticket, since nothing looks for an existing one. */
  method RepeatedTickets(now: Timestamp)
    returns (db: Database, first: Result<Receipt>, second: Result<Receipt>)
    ensures first.Success? && first.value.remaining == 50.0 && first.value.ticket == Some(1)
    ensures second.Success? && second.value.totalPaid == 160.0 && second.value.ticket == Some(2)
    ensures fresh(db) && db.Valid() && db.orders == map[7 := 200.0] && db.methods == {1, 2}
    ensures db.pagos == [Payment(1, 7, CARD, 150.0, now, 200.0), Payment(2, 7, CARD, 10.0, now, 200.0)]
    ensures db.tickets == map[1 := Ticket(1, 7, CARD, 200.0), 2 := Ticket(2, 7, CARD, 200.0)]
  {
    db := new Database(map[7 := 200.0], {1, 2});
    assert Rejection(db.orders, db.methods, [], CardPayment(7, 150.0)) == None;
    first := PostPago(db, CardPayment(7, 150.0), now);
    assert first == Success(Receipt(Payment(1, 7, CARD, 150.0, now, 200.0), 150.0, 50.0, Some(1)));
    assert db.pagos == [Payment(1, 7, CARD, 150.0, now, 200.0)];
    assert db.tickets == map[1 := Ticket(1, 7, CARD, 200.0)] && db.nextTicketId == 2;
    assert Rejection(db.orders, db.methods, db.pagos, CardPayment(7, 10.0)) == None;
    second := PostPago(db, CardPayment(7, 10.0), now);
    assert second == Success(Receipt(Payment(2, 7, CARD, 10.0, now, 200.0), 160.0, 40.0, Some(2)));
  }

  /** Order total 100: a Cash payment of 100 settles the order and issues
      ticket 1; a further Cash payment of 10 on the settled order leaves -10
      and issues ticket 2. */
  method TicketOnPaidOrder(now: Timestamp) returns (first: Result<Receipt>, second: Result<Receipt>, tickets: map<int, Ticket>)
    ensures first.Success? && first.value.remaining == 0.0 && first.value.ticket == Some(1)
    ensures second.Success? && second.value.remaining == -10.0 && second.value.ticket == Some(2)
    ensures tickets == map[1 := Ticket(1, 7, CARD, 100.0), 2 := Ticket(2, 7, CARD, 100.0)]
  {
    var db := new Database(map[7 := 100.0], {1, 2});
    assert Rejection(db.orders, db.methods, [], CashPayment(7, 100.0)) == None;
    first := PostPago(db, CashPayment(7, 100.0), now);
    assert db.tickets == map[1 := Ticket(1, 7, CARD, 100.0)] && db.nextTicketId == 2;
    assert Rejection(db.orders, db.methods, db.pagos, CashPayment(7, 10.0)) == None;
    second := PostPago(db, CashPayment(7, 10.0), now);
    tickets := db.tickets;
  }

  /** Continuing from RepeatedTickets: creating a ticket for the order
      through the ticket store gives it a total of 400, two payments each
      carrying the 200 snapshot, although 160 was paid. */
  method SnapshotTicketTotal(now: Timestamp) returns (paid: real, created: Result<Tickets.TicketReply>)
    ensures paid == 160.0
    ensures created.Success? && created.value.Created? && created.value.ticket.total == 400.0
  {
    var db, _, second := RepeatedTickets(now);
    paid := second.value.totalPaid;
    PaymentsOfSingleOrder(db.pagos, 7);
    Tickets.TicketTotalCountsPayments(db.pagos, 7, 200.0);
    created := Tickets.PostTicket(db, Tickets.TicketBody(None, Some(7), Some(CARD)));
  }

  /** Order total 200: a Cash payment of 250 is accepted and leaves -50,
      the change owed, and issues a ticket; a Card payment of 1 on the same
      order is then refused. */
  method CashOverpayment(now: Timestamp) returns (cash: Result<Receipt>, card: Result<Receipt>)
    ensures cash.Success? && cash.value.remaining == -50.0 && cash.value.ticket.Some?
    ensures card == Failure(BadRequest(LimitExceeded))
  {
    var db := new Database(map[7 := 200.0], {1, 2});
    cash := PostPago(db, CashPayment(7, 250.0), now);
    card := PostPago(db, CardPayment(7, 1.0), now);
  }

  /** Without a payment method 1 in the database, a payment that reaches
      the threshold is still recorded, but the ticket insert fails: the
      request answers 500 and the payment stays. */
  method PaymentKeptWhenTicketFails(now: Timestamp) returns (r: Result<Receipt>, pagos: seq<Payment>)
    ensures r == Failure(ServerError)
    ensures |pagos| == 1 && pagos[0].amount == 100.0
  {
    var db := new Database(map[7 := 100.0], {2});
    r := PostPago(db, CashPayment(7, 100.0), now);
    pagos := db.pagos;
  }

  /** Whatever the database holds, a GET right after a successful POST on
      the same order reports the amount paid and the balance the POST
      answered with. */
  method BalanceAfterPayment(db: Database, body: PagoBody, now: Timestamp)
    returns (posted: Result<Receipt>, report: Result<Balance>)
    requires db.Valid()
    modifies db
    ensures posted.Success? ==>
              && report.Success?
              && report.value.totalPaid == posted.value.totalPaid
              && report.value.remaining == posted.value.remaining
              && (report.value.fullyPaid <==> posted.value.remaining <= 0.0)
              && posted.value.payment in report.value.payments
  {
    posted := PostPago(db, body, now);
    report := GetPagos(db, body.orderId);
  }
}
