/** The payment ledger behind /api/pagos: POST records a partial payment
    against an order and may issue a settlement ticket; GET reports what has
    been paid and what is still owed. */
module Pagos {
  import opened Store

  /** The largest remaining balance at which a payment triggers a ticket. */
  const SETTLEMENT_THRESHOLD: real := 50.0

  /** The JSON body of a POST: id_pedido, id_metodo_pago, monto_pago and the
      optional fecha_pago. `None` stands for a field that is absent. */
  datatype PagoBody = PagoBody(
    orderId: Option<int>,
    methodId: Option<int>,
    amount: Option<real>,
    paidAt: Option<Timestamp>)

  /** What a successful POST reports: the new payment row, the amount paid
      including it (totalPagado), the balance still owed (montoFaltante) and
      the id of the ticket it created, if any (newTicket). */
  datatype Receipt = Receipt(
    payment: Payment,
    totalPaid: real,
    remaining: real,
    ticket: Option<int>)

  /** What a successful GET reports: the order's payments, totalPagado,
      montoFaltante and pagadoCompleto. */
  datatype Balance = Balance(
    payments: seq<Payment>,
    totalPaid: real,
    remaining: real,
    fullyPaid: bool)

  datatype PagoReply = Recorded(receipt: Receipt) | Statement(balance: Balance)

  /** The `reduce` over monto_pago: a left fold, first payment first. */
  function SumAmounts(ps: seq<Payment>): (r: real) {
    if ps == [] then 0.0 else SumAmounts(ps[..|ps| - 1]) + ps[|ps| - 1].amount
  }

  /** When every amount is positive, the sum is non-negative, and positive
      exactly when there is a payment. */
  lemma {:induction false} SumAmountsPositive(ps: seq<Payment>)
    requires forall p :: p in ps ==> p.amount > 0.0
    ensures SumAmounts(ps) >= 0.0
    ensures SumAmounts(ps) == 0.0 <==> ps == []
  {
    if ps != [] {
      var init := ps[..|ps| - 1];
      assert forall p :: p in init ==> p in ps;
      SumAmountsPositive(init);
      assert ps[|ps| - 1] in ps;
    }
  }

  /** What has been paid so far on order `o`. */
  function AmountPaid(pagos: seq<Payment>, o: int): (r: real) {
    SumAmounts(PaymentsOf(pagos, o))
  }

  /** Recording a payment raises the amount paid on its own order by exactly
      its amount and leaves every other order's amount paid as it was. */
  lemma AmountPaidAppend(pagos: seq<Payment>, p: Payment, o: int)
    ensures AmountPaid(pagos + [p], o)
         == AmountPaid(pagos, o) + (if p.orderId == o then p.amount else 0.0)
  {
    PaymentsOfAppend(pagos, p, o);
    var before := PaymentsOf(pagos, o);
    if p.orderId == o {
      assert (before + [p])[..|before|] == before;
      assert SumAmounts(before + [p]) == SumAmounts(before) + p.amount;
    } else {
      assert before + [] == before;
    }
  }

  /** The checks a POST makes before it writes anything, in the order the
      handler makes them: the required fields (0 counts as missing), the
      sign of the amount, the order's existence, the Card ceiling, and the
      payment method the new row must connect to. `None` means the payment
      is recorded. */
  function Rejection(orders: map<int, real>, methods: set<int>, pagos: seq<Payment>, body: PagoBody)
    : (r: Option<Failure>)
    ensures !Truthy(body.orderId) || !Truthy(body.methodId) || !TruthyAmount(body.amount)
            ==> r == Some(BadRequest(MissingFields))
    ensures (Truthy(body.orderId) && Truthy(body.methodId) && TruthyAmount(body.amount)
             && body.amount.value < 0.0)
            ==> r == Some(BadRequest(NonPositiveAmount))
    ensures (Truthy(body.orderId) && Truthy(body.methodId) && TruthyAmount(body.amount)
             && body.amount.value > 0.0 && body.orderId.value !in orders)
            ==> r == Some(NotFound)
    ensures r.None? ==>
              && Truthy(body.orderId) && Truthy(body.methodId) && body.amount.Some?
              && body.amount.value > 0.0
              && body.orderId.value in orders && body.methodId.value in methods
    ensures r.None? && body.methodId == Some(CARD) ==>
              AmountPaid(pagos, body.orderId.value) + body.amount.value <= orders[body.orderId.value]
    ensures r == Some(BadRequest(LimitExceeded)) <==>
              && Truthy(body.orderId) && body.methodId == Some(CARD) && TruthyAmount(body.amount)
              && body.amount.value > 0.0 && body.orderId.value in orders
              && AmountPaid(pagos, body.orderId.value) + body.amount.value > orders[body.orderId.value]
  {
    if !Truthy(body.orderId) || !Truthy(body.methodId) || !TruthyAmount(body.amount) then
      Some(BadRequest(MissingFields))
    else if body.amount.value <= 0.0 then
      Some(BadRequest(NonPositiveAmount))
    else if body.orderId.value !in orders then
      Some(NotFound)
    else if AmountPaid(pagos, body.orderId.value) + body.amount.value > orders[body.orderId.value]
            && body.methodId.value == CARD then
      Some(BadRequest(LimitExceeded))
    else if body.methodId.value !in methods then
      Some(ServerError)
    else
      None
  }

  /** Only Card payments are held to the order total: whether a payment by
      any other method is accepted does not depend on what has already been
      paid. */
  lemma NonCardIgnoresHistory(orders: map<int, real>, methods: set<int>,
                              pagos: seq<Payment>, other: seq<Payment>, body: PagoBody)
    requires body.methodId != Some(CARD)
    ensures Rejection(orders, methods, pagos, body) == Rejection(orders, methods, other, body)
    ensures Rejection(orders, methods, pagos, body) != Some(BadRequest(LimitExceeded))
  {
  }

  /** After an accepted Card payment is appended, the order's amount paid is
      still within its total, whatever was paid before by other methods. */
  lemma CardPaymentWithinTotal(orders: map<int, real>, methods: set<int>,
                               pagos: seq<Payment>, body: PagoBody, p: Payment)
    requires Rejection(orders, methods, pagos, body) == None
    requires body.methodId == Some(CARD)
    requires p.orderId == body.orderId.value && p.amount == body.amount.value
    ensures AmountPaid(pagos + [p], p.orderId) <= orders[p.orderId]
  {
    AmountPaidAppend(pagos, p, p.orderId);
  }

  /** Once an order's payments reach its total (for instance after a Cash
      overpayment), every further Card payment on it is refused. */
  lemma SettledOrderRefusesCard(orders: map<int, real>, methods: set<int>,
                                pagos: seq<Payment>, body: PagoBody)
    requires body.orderId.Some? && body.orderId.value != 0 && body.orderId.value in orders
    requires body.methodId == Some(CARD)
    requires body.amount.Some? && body.amount.value > 0.0
    requires AmountPaid(pagos, body.orderId.value) >= orders[body.orderId.value]
    ensures Rejection(orders, methods, pagos, body) == Some(BadRequest(LimitExceeded))
  {
  }

  /** The two writes of a POST that passed its checks: the payment insert
      with the order total as snapshot and, when the balance left is at most
      the threshold, the insert of a Card ticket for the whole order total.
      `paidBefore` is what the order's earlier payments add up to. Nothing
      checks for an existing ticket, and the two writes are not one
      transaction: if the ticket insert fails the payment stays. */
  method RecordPayment(db: Database, o: int, m: int, amount: real, paidAt: Timestamp, paidBefore: real)
    returns (r: Result<Receipt>)
    requires db.Valid()
    requires amount > 0.0 && o in db.orders && m in db.methods
    modifies db
    ensures db.Valid()
    ensures db.orders == old(db.orders) && db.methods == old(db.methods)
    ensures var total := old(db.orders)[o];
            var p := Payment(old(db.nextPagoId), o, m, amount, paidAt, total);
            var paid := paidBefore + amount;
            var ticket := Ticket(old(db.nextTicketId), o, CARD, total);
            && db.pagos == old(db.pagos) + [p] && db.nextPagoId == old(db.nextPagoId) + 1
            && (total - paid > SETTLEMENT_THRESHOLD ==>
                  r == Success(Receipt(p, paid, total - paid, None))
                  && db.tickets == old(db.tickets) && db.nextTicketId == old(db.nextTicketId))
            && (total - paid <= SETTLEMENT_THRESHOLD && CARD in old(db.methods) ==>
                  r == Success(Receipt(p, paid, total - paid, Some(ticket.id)))
                  && ticket.id !in old(db.tickets)
                  && db.tickets == old(db.tickets)[ticket.id := ticket]
                  && db.nextTicketId == ticket.id + 1)
            && (total - paid <= SETTLEMENT_THRESHOLD && CARD !in old(db.methods) ==>
                  r == Failure(ServerError)
                  && db.tickets == old(db.tickets) && db.nextTicketId == old(db.nextTicketId))
  {
    var total := db.orders[o];
    var newTotalPaid := paidBefore + amount;
    // the new row connects to the order and to the payment method
    var created := db.CreatePago(o, m, amount, paidAt, total);
    var p := created.value;
    var remaining := total - newTotalPaid;
    var ticket: Option<int> := None;
    if remaining <= SETTLEMENT_THRESHOLD {
      // the ticket references payment method 1; the insert throws if that method is missing
      var t := db.CreateTicket(o, CARD, total);
      if t.None? {
        return Failure(ServerError);
      }
      ticket := Some(t.value.id);
    }
    return Success(Receipt(p, newTotalPaid, remaining, ticket));
  }

  /** POST /api/pagos. Validates the body, sums the order's payments, refuses
      a Card payment past the order total, and then makes the two writes of
      RecordPayment; the payment insert throws when the payment method is
      missing. */
  method PostPago(db: Database, body: PagoBody, now: Timestamp) returns (r: Result<Receipt>)
    requires db.Valid()
    modifies db
    ensures db.Valid()
    ensures db.orders == old(db.orders) && db.methods == old(db.methods)
    ensures var rejected := Rejection(old(db.orders), old(db.methods), old(db.pagos), body);
            rejected.Some? ==>
              r == Failure(rejected.value) && unchanged(db)
    ensures Rejection(old(db.orders), old(db.methods), old(db.pagos), body).None? ==>
              var o := body.orderId.value;
              var total := old(db.orders)[o];
              var p := Payment(old(db.nextPagoId), o, body.methodId.value, body.amount.value,
                               body.paidAt.GetOr(now), total);
              var paid := AmountPaid(old(db.pagos), o) + body.amount.value;
              var ticket := Ticket(old(db.nextTicketId), o, CARD, total);
              && db.pagos == old(db.pagos) + [p] && db.nextPagoId == old(db.nextPagoId) + 1
              && AmountPaid(db.pagos, o) == paid
              && (total - paid > SETTLEMENT_THRESHOLD ==>
                    r == Success(Receipt(p, paid, total - paid, None))
                    && db.tickets == old(db.tickets) && db.nextTicketId == old(db.nextTicketId))
              && (total - paid <= SETTLEMENT_THRESHOLD && CARD in old(db.methods) ==>
                    r == Success(Receipt(p, paid, total - paid, Some(ticket.id)))
                    && ticket.id !in old(db.tickets)
                    && db.tickets == old(db.tickets)[ticket.id := ticket]
                    && db.nextTicketId == ticket.id + 1)
              && (total - paid <= SETTLEMENT_THRESHOLD && CARD !in old(db.methods) ==>
                    r == Failure(ServerError)
                    && db.tickets == old(db.tickets) && db.nextTicketId == old(db.nextTicketId))
  {
    ghost var rejected := Rejection(db.orders, db.methods, db.pagos, body);
    if !Truthy(body.orderId) || !Truthy(body.methodId) || !TruthyAmount(body.amount) {
      assert rejected == Some(BadRequest(MissingFields));
      return Failure(BadRequest(MissingFields));
    }
    var o, m, amount := body.orderId.value, body.methodId.value, body.amount.value;
    if amount <= 0.0 {
      assert rejected == Some(BadRequest(NonPositiveAmount));
      return Failure(BadRequest(NonPositiveAmount));
    }
    var totalPaid := AmountPaid(db.pagos, o);
    if o !in db.orders {
      assert rejected == Some(NotFound);
      return Failure(NotFound);
    }
    if totalPaid + amount > db.orders[o] && m == CARD {
      assert rejected == Some(BadRequest(LimitExceeded));
      return Failure(BadRequest(LimitExceeded));
    }
    if m !in db.methods {
      // the payment insert connects to the payment method and throws before writing anything
      assert rejected == Some(ServerError);
      return Failure(ServerError);
    }
    assert rejected == None;
    ghost var before := db.pagos;
    r := RecordPayment(db, o, m, amount, body.paidAt.GetOr(now), totalPaid);
    assert AmountPaid(db.pagos, o) == totalPaid + amount by {
      assert db.pagos == before + [db.pagos[|db.pagos| - 1]];
      AmountPaidAppend(before, db.pagos[|db.pagos| - 1], o);
    }
  }

  /** GET /api/pagos?id_pedido=o. Reads only: the order's payments in
      insertion order, what they add up to, what is still owed, and whether
      the order is fully paid. */
  method GetPagos(db: Database, query: Option<int>) returns (r: Result<Balance>)
    requires db.Valid()
    ensures query.None? ==> r == Failure(BadRequest(MissingOrderId))
    ensures query.Some? && query.value !in db.orders ==> r == Failure(NotFound)
    ensures query.Some? && query.value in db.orders ==>
              var total := db.orders[query.value];
              && r.Success?
              && r.value.payments == PaymentsOf(db.pagos, query.value)
              && r.value.totalPaid == AmountPaid(db.pagos, query.value)
              && r.value.totalPaid >= 0.0
              && (r.value.totalPaid == 0.0 <==> r.value.payments == [])
              && r.value.remaining == total - r.value.totalPaid
              && (r.value.fullyPaid <==> r.value.totalPaid >= total)
              && (r.value.fullyPaid <==> r.value.remaining <= 0.0)
  {
    if query.None? {
      return Failure(BadRequest(MissingOrderId));
    }
    var o := query.value;
    var pagos := PaymentsOf(db.pagos, o);
    var totalPaid := SumAmounts(pagos);
    SumAmountsPositive(pagos);
    if o !in db.orders {
      return Failure(NotFound);
    }
    var total := db.orders[o];
    var remaining := total - totalPaid;
    var fullyPaid := totalPaid >= total;
    return Success(Balance(pagos, totalPaid, remaining, fullyPaid));
  }

  /** The handler: POST records, GET reports, PUT is an empty branch that
      never answers, and any other verb gets 405. */
  method HandlePago(db: Database, verb: string, body: PagoBody, query: Option<int>, now: Timestamp)
    returns (r: Result<PagoReply>)
    requires db.Valid()
    modifies db
    ensures db.Valid()
    ensures verb != "POST" ==> unchanged(db)
    ensures verb == "POST" && r.Success? ==> r.value.Recorded?
    ensures verb == "GET" && query.None? ==> r == Failure(BadRequest(MissingOrderId))
    ensures verb == "GET" && query.Some? && query.value !in db.orders ==> r == Failure(NotFound)
    ensures verb == "GET" && query.Some? && query.value in db.orders ==>
              var total := db.orders[query.value];
              && r.Success? && r.value.Statement?
              && r.value.balance.payments == PaymentsOf(db.pagos, query.value)
              && r.value.balance.totalPaid == AmountPaid(db.pagos, query.value)
              && r.value.balance.remaining == total - r.value.balance.totalPaid
              && (r.value.balance.fullyPaid <==> r.value.balance.totalPaid >= total)
    ensures verb == "PUT" ==> r == Failure(NoResponse)
    ensures verb != "POST" && verb != "GET" && verb != "PUT" ==> r == Failure(MethodNotAllowed)
  {
    if verb == "POST" {
      var res := PostPago(db, body, now);
      r := if res.Success? then Success(Recorded(res.value)) else Failure(res.error);
    } else if verb == "GET" {
      var res := GetPagos(db, query);
      r := if res.Success? then Success(Statement(res.value)) else Failure(res.error);
    } else if verb == "PUT" {
      r := Failure(NoResponse);
    } else {
      r := Failure(MethodNotAllowed);
    }
  }
}
