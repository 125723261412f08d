/** The ticket store behind /api/tickets: read one ticket or list them all,
    create a ticket for an order, recompute and overwrite one, delete one.
    A ticket's total is recomputed from the order's payments by adding up
    the order-total snapshot each payment carries, not the amounts paid. */
module Tickets {
  import opened Store
  import Pagos

  /** The JSON body of POST and PUT: id (PUT only), id_pedido and
      id_metodo_pago. `None` stands for a field that is absent. */
  datatype TicketBody = TicketBody(id: Option<int>, orderId: Option<int>, methodId: Option<int>)

  /** The query string: id_ticket (GET) and id (DELETE). */
  datatype TicketQuery = TicketQuery(idTicket: Param, id: Param)

  datatype TicketReply =
    | Found(ticket: Ticket)
    | Listing(all: map<int, Ticket>)
    | Created(ticket: Ticket)
    | Updated(ticket: Ticket)
    | Deleted(ticket: Ticket)

  /** Sum of the `total` snapshot over the given payments, a left fold. */
  function SumSnapshots(ps: seq<Payment>): (r: real) {
    if ps == [] then 0.0 else SumSnapshots(ps[..|ps| - 1]) + ps[|ps| - 1].total
  }

  /** `prisma.pago.aggregate({ _sum: { total } })`: null over no rows. */
  function SnapshotAggregate(ps: seq<Payment>): (r: Option<real>) {
    if ps == [] then None else Some(SumSnapshots(ps))
  }

  /** `_sum.total || 0`: the total a created or updated ticket gets. The
      `|| 0` turns the null of an order with no payment into 0 (and leaves
      every number, 0 included, as it is), so it is 0 without payments and
      the snapshot sum otherwise. */
  function TicketTotal(pagos: seq<Payment>, o: int): (r: real)
    ensures PaymentsOf(pagos, o) == [] ==> r == 0.0
    ensures PaymentsOf(pagos, o) != [] ==> r == SumSnapshots(PaymentsOf(pagos, o))
  {
    SnapshotAggregate(PaymentsOf(pagos, o)).GetOr(0.0)
  }

  /** A new payment adds its snapshot to its own order's ticket total and
      leaves every other order's ticket total as it was. */
  lemma TicketTotalAppend(pagos: seq<Payment>, p: Payment, o: int)
    ensures TicketTotal(pagos + [p], o)
         == TicketTotal(pagos, o) + (if p.orderId == o then p.total else 0.0)
  {
    PaymentsOfAppend(pagos, p, o);
    var before := PaymentsOf(pagos, o);
    if p.orderId == o {
      assert (before + [p])[..|before|] == before;
      assert SumSnapshots(before + [p]) == SumSnapshots(before) + p.total;
    } else {
      assert before + [] == before;
    }
  }

  /** When every payment carries the same snapshot `t`, the snapshot sum is
      the number of payments times `t`. */
  lemma {:induction false} SumSnapshotsUniform(ps: seq<Payment>, t: real)
    requires forall p :: p in ps ==> p.total == t
    ensures SumSnapshots(ps) == |ps| as real * t
  {
    if ps != [] {
      var init := ps[..|ps| - 1];
      assert forall p :: p in init ==> p in ps;
      SumSnapshotsUniform(init, t);
    }
  }

  /** While an order's total stays `t`, every payment on it snapshots `t`,
      so the ticket total is the number of payments times the order total:
      it equals the order total only when the order was paid in one go. */
  lemma TicketTotalCountsPayments(pagos: seq<Payment>, o: int, t: real)
    requires forall p :: p in pagos && p.orderId == o ==> p.total == t
    ensures TicketTotal(pagos, o) == |PaymentsOf(pagos, o)| as real * t
  {
    var sel := PaymentsOf(pagos, o);
    if sel == [] {
      assert |sel| as real == 0.0;
    } else {
      assert forall p :: p in sel ==> p.total == t;
      SumSnapshotsUniform(sel, t);
      assert TicketTotal(pagos, o) == SumSnapshots(sel);
    }
  }

  /** Two or more payments that all carry the same positive snapshot `t`
      add up to more than `t`. */
  lemma {:induction false} SumSnapshotsExceedOne(ps: seq<Payment>, t: real)
    requires t > 0.0 && |ps| >= 2
    requires forall p :: p in ps ==> p.total == t
    ensures SumSnapshots(ps) > t
  {
    var init := ps[..|ps| - 1];
    assert forall p :: p in init ==> p in ps;
    if |ps| == 2 {
      assert SumSnapshots(init) == SumSnapshots(init[..0]) + init[0].total;
      assert init[0] in ps;
    } else {
      SumSnapshotsExceedOne(init, t);
    }
    assert ps[|ps| - 1] in ps;
  }

  /** An order of positive total `t` paid in two or more payments that stay
      within `t` gets a ticket total larger than what was paid. */
  lemma SplitPaymentOverstatesTicket(pagos: seq<Payment>, o: int, t: real)
    requires t > 0.0
    requires forall p :: p in pagos && p.orderId == o ==> p.total == t
    requires |PaymentsOf(pagos, o)| >= 2
    requires Pagos.AmountPaid(pagos, o) <= t
    ensures TicketTotal(pagos, o) > Pagos.AmountPaid(pagos, o)
  {
    SumSnapshotsExceedOne(PaymentsOf(pagos, o), t);
  }

  /** GET /api/tickets: with no id_ticket, every ticket, unfiltered; a
      repeated id_ticket is refused with 400; otherwise the ticket with that
      id, or 404. Reads only. */
  method GetTickets(db: Database, idTicket: Param) returns (r: Result<TicketReply>)
    requires db.Valid()
    ensures idTicket.Absent? ==> r == Success(Listing(db.tickets))
    ensures idTicket.Several? ==> r == Failure(BadRequest(InvalidTicketId))
    ensures idTicket.One? && idTicket.value !in db.tickets ==> r == Failure(NotFound)
    ensures idTicket.One? && idTicket.value in db.tickets ==>
              r == Success(Found(db.tickets[idTicket.value])) && r.value.ticket.id == idTicket.value
  {
    match idTicket
    case Absent =>
      r := Success(Listing(db.tickets));
    case Several(_) =>
      r := Failure(BadRequest(InvalidTicketId));
    case One(id) =>
      if id !in db.tickets {
        return Failure(NotFound);
      }
      r := Success(Found(db.tickets[id]));
  }

  /** POST /api/tickets: both ids are required (0 counts as missing); the
      new ticket's total is the order's snapshot sum. */
  method PostTicket(db: Database, body: TicketBody) returns (r: Result<TicketReply>)
    requires db.Valid()
    modifies db
    ensures db.Valid()
    ensures db.orders == old(db.orders) && db.methods == old(db.methods)
    ensures db.pagos == old(db.pagos) && db.nextPagoId == old(db.nextPagoId)
    ensures !Truthy(body.orderId) || !Truthy(body.methodId) ==>
              r == Failure(BadRequest(MissingFields)) && unchanged(db)
    ensures Truthy(body.orderId) && Truthy(body.methodId) ==>
              var o, m := body.orderId.value, body.methodId.value;
              var t := Ticket(old(db.nextTicketId), o, m, TicketTotal(db.pagos, o));
              && (o in db.orders && m in db.methods ==>
                    r == Success(Created(t)) && t.id !in old(db.tickets)
                    && db.tickets == old(db.tickets)[t.id := t] && db.nextTicketId == t.id + 1)
              && (o !in db.orders || m !in db.methods ==>
                    r == Failure(ServerError) && unchanged(db))
  {
    if !Truthy(body.orderId) || !Truthy(body.methodId) {
      return Failure(BadRequest(MissingFields));
    }
    var o, m := body.orderId.value, body.methodId.value;
    var total := TicketTotal(db.pagos, o);
    var created := db.CreateTicket(o, m, total);
    if created.None? {
      return Failure(ServerError);
    }
    r := Success(Created(created.value));
  }

  /** PUT /api/tickets: both ids are required; the total is recomputed as in
      POST and only ticket `id` is overwritten. A missing or unknown `id` makes
      the store throw (500). */
  method PutTicket(db: Database, body: TicketBody) returns (r: Result<TicketReply>)
    requires db.Valid()
    modifies db
    ensures db.Valid()
    ensures db.orders == old(db.orders) && db.methods == old(db.methods)
    ensures db.pagos == old(db.pagos) && db.nextPagoId == old(db.nextPagoId)
    ensures !Truthy(body.orderId) || !Truthy(body.methodId) ==>
              r == Failure(BadRequest(MissingFields)) && unchanged(db)
    ensures Truthy(body.orderId) && Truthy(body.methodId) ==>
              var o, m := body.orderId.value, body.methodId.value;
              var ok := body.id.Some? && body.id.value in old(db.tickets)
                        && o in db.orders && m in db.methods;
              && (ok ==>
                    var t := Ticket(body.id.value, o, m, TicketTotal(db.pagos, o));
                    r == Success(Updated(t)) && db.tickets == old(db.tickets)[t.id := t]
                    && db.nextTicketId == old(db.nextTicketId))
              && (!ok ==> r == Failure(ServerError) && unchanged(db))
    ensures forall k :: k in old(db.tickets) && body.id != Some(k) ==>
              k in db.tickets && db.tickets[k] == old(db.tickets)[k]
  {
    if !Truthy(body.orderId) || !Truthy(body.methodId) {
      return Failure(BadRequest(MissingFields));
    }
    var o, m := body.orderId.value, body.methodId.value;
    var total := TicketTotal(db.pagos, o);
    // parseInt(undefined) is NaN, which the store refuses
    if body.id.None? {
      return Failure(ServerError);
    }
    var updated := db.UpdateTicket(body.id.value, o, m, total);
    if updated.None? {
      return Failure(ServerError);
    }
    r := Success(Updated(updated.value));
  }

  /** `parseInt` applied to a query parameter: a repeated parameter arrives
      as an array, whose string form "a,b,..." parses to its first number;
      an empty array parses to NaN. */
  function ParseIdParam(p: Param): (r: Option<int>)
    requires !p.Absent?
  {
    match p
    case One(v) => Some(v)
    case Several(vs) => if |vs| > 0 then Some(vs[0]) else None
  }

  /** DELETE /api/tickets?id=...: without id, 400; otherwise exactly the
      ticket `parseInt` names is removed and returned: the id itself, or the
      first of a repeated id. An empty repeated id parses to NaN and
      deleting an unknown id makes the store throw (500). */
  method DeleteTicket(db: Database, id: Param) returns (r: Result<TicketReply>)
    requires db.Valid()
    modifies db
    ensures db.Valid()
    ensures db.orders == old(db.orders) && db.methods == old(db.methods)
    ensures db.pagos == old(db.pagos) && db.nextPagoId == old(db.nextPagoId)
    ensures id.Absent? ==> r == Failure(BadRequest(MissingTicketId)) && unchanged(db)
    ensures id.Several? && id.values == [] ==> r == Failure(ServerError) && unchanged(db)
    ensures id.One? || (id.Several? && id.values != []) ==>
              var k := if id.One? then id.value else id.values[0];
              && (k in old(db.tickets) ==>
                    r == Success(Deleted(old(db.tickets)[k]))
                    && db.tickets == old(db.tickets) - {k}
                    && db.nextTicketId == old(db.nextTicketId))
              && (k !in old(db.tickets) ==>
                    r == Failure(ServerError) && unchanged(db))
  {
    if id.Absent? {
      return Failure(BadRequest(MissingTicketId));
    }
    var k := ParseIdParam(id);
    if k.None? {
      return Failure(ServerError);
    }
    var deleted := db.DeleteTicket(k.value);
    if deleted.None? {
      return Failure(ServerError);
    }
    r := Success(Deleted(deleted.value));
  }

  /** The handler: dispatch on the HTTP verb; any verb other than GET, POST,
      PUT and DELETE gets 405 and changes nothing. */
  method HandleTickets(db: Database, verb: string, query: TicketQuery, body: TicketBody)
    returns (r: Result<TicketReply>)
    requires db.Valid()
    modifies db
    ensures db.Valid()
    ensures db.orders == old(db.orders) && db.methods == old(db.methods)
    ensures db.pagos == old(db.pagos) && db.nextPagoId == old(db.nextPagoId)
    ensures verb == "GET" ==> unchanged(db)
    ensures verb == "GET" && query.idTicket.Absent? ==> r == Success(Listing(db.tickets))
    ensures verb == "GET" && query.idTicket.Several? ==> r == Failure(BadRequest(InvalidTicketId))
    ensures verb == "GET" && query.idTicket.One? && query.idTicket.value !in db.tickets ==>
              r == Failure(NotFound)
    ensures verb == "GET" && query.idTicket.One? && query.idTicket.value in db.tickets ==>
              r == Success(Found(db.tickets[query.idTicket.value]))
    ensures verb == "POST" && r.Success? ==> r.value.Created?
    ensures verb == "PUT" && r.Success? ==> r.value.Updated?
    ensures verb == "DELETE" && r.Success? ==> r.value.Deleted? && r.value.ticket.id !in db.tickets
    ensures verb != "GET" && verb != "POST" && verb != "PUT" && verb != "DELETE" ==>
              r == Failure(MethodNotAllowed) && unchanged(db)
  {
    if verb == "GET" {
      r := GetTickets(db, query.idTicket);
    } else if verb == "POST" {
      r := PostTicket(db, body);
    } else if verb == "PUT" {
      r := PutTicket(db, body);
    } else if verb == "DELETE" {
      r := DeleteTicket(db, query.id);
    } else {
      r := Failure(MethodNotAllowed);
    }
  }
}
