/** The database both API handlers share through one Prisma client: the
    order table (read only here), the payment-method table (read only here),
    the append-only payment table and the ticket table, plus the request
    shapes and error kinds common to both handlers. */
module Store {

  datatype Option<+T> = None | Some(value: T) {
    function GetOr(default: T): T {
      match this
      case Some(v) => v
      case None => default
    }
  }

  datatype Result<+T> = Success(value: T) | Failure(error: Failure)

  /** Why a request was answered with status 400. */
  datatype BadRequestReason =
    | MissingFields      // a required body field is absent or falsy
    | NonPositiveAmount  // monto_pago <= 0
    | LimitExceeded      // a Card payment would pass the order total
    | MissingOrderId     // GET /api/pagos without id_pedido
    | InvalidTicketId    // GET /api/tickets with a repeated id_ticket
    | MissingTicketId    // DELETE /api/tickets without id

  /** The error kinds the handlers answer with: 400, 404, 500 (an exception
      thrown by the store and caught by the handler), 405, and no answer at
      all (the empty PUT branch of /api/pagos). */
  datatype Failure =
    | BadRequest(reason: BadRequestReason)
    | NotFound
    | ServerError
    | MethodNotAllowed
    | NoResponse

  type Timestamp = int

  /** Payment method id 1 is Card; it is the only one whose payments are
      refused for exceeding the order total, and the one every automatic
      ticket carries. */
  const CARD: int := 1

  /** A row of the payment table (Pago). `total` is a snapshot of the order
      total at the moment the payment was recorded. */
  datatype Payment = Payment(
    id: int,          // id_pago
    orderId: int,     // id_pedido
    methodId: int,    // id_metodo_pago
    amount: real,     // monto_pago
    paidAt: Timestamp,// fecha_pago
    total: real)      // the order total when the payment was made

  /** A row of the ticket table. */
  datatype Ticket = Ticket(
    id: int,          // id_ticket
    orderId: int,     // id_pedido
    methodId: int,    // id_metodo_pago
    total: real)

  /** A query-string parameter: absent (or the empty string), given once, or
      repeated (Next.js then hands the handler an array). */
  datatype Param = Absent | One(value: int) | Several(values: seq<int>)

  /** JavaScript truthiness of a numeric body field: `undefined`, `null` and
      0 are falsy. */
  predicate Truthy(x: Option<int>) {
    x.Some? && x.value != 0
  }

  predicate TruthyAmount(x: Option<real>) {
    x.Some? && x.value != 0.0
  }

  /** The rows `prisma.pago.findMany({ where: { id_pedido } })` returns:
      the payments of order `o`, in insertion order. */
  function PaymentsOf(pagos: seq<Payment>, o: int): (r: seq<Payment>)
    ensures |r| <= |pagos|
    ensures forall p :: p in r ==> p in pagos && p.orderId == o
    ensures forall p :: p in pagos && p.orderId == o ==> p in r
  {
    if pagos == [] then []
    else if pagos[0].orderId == o then [pagos[0]] + PaymentsOf(pagos[1..], o)
    else PaymentsOf(pagos[1..], o)
  }

  /** Appending a payment extends the selection of its own order by that
      payment, at the end, and leaves every other order's selection as it was. */
  lemma {:induction false} PaymentsOfAppend(pagos: seq<Payment>, p: Payment, o: int)
    ensures PaymentsOf(pagos + [p], o)
         == PaymentsOf(pagos, o) + (if p.orderId == o then [p] else [])
  {
    if pagos == [] {
      assert pagos + [p] == [p];
    } else {
      assert (pagos + [p])[1..] == pagos[1..] + [p];
      PaymentsOfAppend(pagos[1..], p, o);
    }
  }

  /** A payment list that belongs to a single order is its own selection. */
  lemma {:induction false} PaymentsOfSingleOrder(pagos: seq<Payment>, o: int)
    requires forall p :: p in pagos ==> p.orderId == o
    ensures PaymentsOf(pagos, o) == pagos
  {
    if pagos != [] {
      assert forall p :: p in pagos[1..] ==> p in pagos;
      PaymentsOfSingleOrder(pagos[1..], o);
      assert [pagos[0]] + pagos[1..] == pagos;
    }
  }

  /** The shared database. Orders and payment methods are owned elsewhere and
      only read here; payments are only appended; tickets are inserted,
      overwritten and removed. Ids are assigned by auto-increment counters. */
  class Database {
    var orders: map<int, real>   // pedidos: id -> total
    var methods: set<int>        // metodo_pago ids
    var pagos: seq<Payment>
    var tickets: map<int, Ticket>
    var nextPagoId: int
    var nextTicketId: int

    /** The integrity the database keeps: every row references an existing
        order and payment method, ids are unique and below their counters,
        payments are stored in id order and every stored amount is positive. */
    ghost predicate Valid()
      reads this
    {
      && (forall p :: p in pagos ==>
            p.orderId in orders && p.methodId in methods
            && p.id < nextPagoId && p.amount > 0.0)
      && (forall i, j :: 0 <= i < j < |pagos| ==> pagos[i].id < pagos[j].id)
      && (forall k :: k in tickets ==>
            tickets[k].id == k && k < nextTicketId
            && tickets[k].orderId in orders && tickets[k].methodId in methods)
    }

    /** A database holding the given orders and payment methods, and no
        payment and no ticket yet. */
    constructor (orders: map<int, real>, methods: set<int>)
      ensures Valid()
      ensures this.orders == orders && this.methods == methods
      ensures pagos == [] && tickets == map[]
      ensures nextPagoId == 1 && nextTicketId == 1
    {
      this.orders := orders;
      this.methods := methods;
      pagos := [];
      tickets := map[];
      nextPagoId := 1;
      nextTicketId := 1;
    }

    /** `prisma.pago.create`: appends a payment connected to an existing
        order and payment method, with the next id; the insert fails and
        changes nothing when either is missing. */
    method CreatePago(orderId: int, methodId: int, amount: real, paidAt: Timestamp, total: real)
      returns (created: Option<Payment>)
      requires Valid()
      requires amount > 0.0
      modifies this
      ensures Valid()
      ensures orders == old(orders) && methods == old(methods)
      ensures tickets == old(tickets) && nextTicketId == old(nextTicketId)
      ensures created.None? <==> orderId !in orders || methodId !in methods
      ensures created.None? ==> unchanged(this)
      ensures created.Some? ==>
                created.value == Payment(old(nextPagoId), orderId, methodId, amount, paidAt, total)
                && pagos == old(pagos) + [created.value] && nextPagoId == old(nextPagoId) + 1
    {
      if orderId !in orders || methodId !in methods {
        return None;
      }
      var p := Payment(nextPagoId, orderId, methodId, amount, paidAt, total);
      pagos := pagos + [p];
      nextPagoId := nextPagoId + 1;
      return Some(p);
    }

    /** `prisma.ticket.create`: inserts a ticket under the next id; the
        insert fails and changes nothing when the order or the payment
        method it references is missing. */
    method CreateTicket(orderId: int, methodId: int, total: real) returns (created: Option<Ticket>)
      requires Valid()
      modifies this
      ensures Valid()
      ensures orders == old(orders) && methods == old(methods)
      ensures pagos == old(pagos) && nextPagoId == old(nextPagoId)
      ensures created.None? <==> orderId !in orders || methodId !in methods
      ensures created.None? ==> unchanged(this)
      ensures created.Some? ==>
                created.value == Ticket(old(nextTicketId), orderId, methodId, total)
                && created.value.id !in old(tickets)
                && tickets == old(tickets)[created.value.id := created.value]
                && nextTicketId == old(nextTicketId) + 1
    {
      if orderId !in orders || methodId !in methods {
        return None;
      }
      var t := Ticket(nextTicketId, orderId, methodId, total);
      tickets := tickets[t.id := t];
      nextTicketId := nextTicketId + 1;
      return Some(t);
    }

    /** `prisma.ticket.update`: overwrites the order, payment method and
        total of ticket `id`; fails and changes nothing when there is no
        such ticket or a reference is missing. */
    method UpdateTicket(id: int, orderId: int, methodId: int, total: real) returns (updated: Option<Ticket>)
      requires Valid()
      modifies this
      ensures Valid()
      ensures orders == old(orders) && methods == old(methods)
      ensures pagos == old(pagos) && nextPagoId == old(nextPagoId) && nextTicketId == old(nextTicketId)
      ensures updated.None? <==> id !in old(tickets) || orderId !in orders || methodId !in methods
      ensures updated.None? ==> unchanged(this)
      ensures updated.Some? ==>
                updated.value == Ticket(id, orderId, methodId, total)
                && tickets == old(tickets)[id := updated.value]
    {
      if id !in tickets || orderId !in orders || methodId !in methods {
        return None;
      }
      var t := Ticket(id, orderId, methodId, total);
      tickets := tickets[id := t];
      return Some(t);
    }

    /** `prisma.ticket.delete`: removes ticket `id` and returns it; fails and
        changes nothing when there is no such ticket. */
    method DeleteTicket(id: int) returns (deleted: Option<Ticket>)
      requires Valid()
      modifies this
      ensures Valid()
      ensures orders == old(orders) && methods == old(methods)
      ensures pagos == old(pagos) && nextPagoId == old(nextPagoId) && nextTicketId == old(nextTicketId)
      ensures deleted.None? <==> id !in old(tickets)
      ensures deleted.None? ==> unchanged(this)
      ensures deleted.Some? ==> deleted.value == old(tickets)[id] && tickets == old(tickets) - {id}
    {
      if id !in tickets {
        return None;
      }
      deleted := Some(tickets[id]);
      tickets := tickets - {id};
    }
  }
}
