# Order payments and settlement tickets, modelled in Dafny

This project models the two API handlers of a restaurant ordering system.

- `/api/pagos` is the payment ledger. POST records a partial payment (`monto_pago`) against an order (`id_pedido`) with a payment method (`id_metodo_pago`). A Card payment (method 1) that would take the amount paid past the order total is refused. A payment by any other method, Cash (2) for one, is never refused for that. Each payment row stores the order total of that moment as a snapshot. When the balance still owed (`montoFaltante`) is at most 50, the handler inserts a settlement ticket: method 1, total equal to the order total. GET reports the order's payments, the amount paid, the balance and whether the order is fully paid (`pagadoCompleto`).
- `/api/tickets` is the ticket store. It can read one ticket, list all tickets, create a ticket, recompute and overwrite a ticket, and delete a ticket. On create and update, a ticket's total is the sum of the order-total snapshots over the order's payments. It is not the sum of the amounts paid.

Files:

- `store.dfy` (module `Store`) holds the shared database as a class `Database`. It has the orders and payment methods (only read here), the append-only payment sequence, the ticket map and the auto-increment counters. It also holds the Prisma writes as methods, the request shapes, the error kinds, and the selection of an order's payments.
- `pagos.dfy` (module `Pagos`) holds the ledger. Sums and the pre-write checks are functions. The POST and GET branches and the dispatcher are methods; the two writes of an accepted POST are a method of their own.
- `tickets.dfy` (module `Tickets`) holds the ticket store. The snapshot aggregate is a function. The GET, POST, PUT and DELETE branches and the dispatcher are methods.
- `scenarios.dfy` (module `Scenarios`) holds clients of the handlers. They run on a fresh database, and their contracts pin down concrete payment sequences.

Each handler branch is a method over the `Database` object. Its `modifies` clause names the database. Its `ensures` clauses give the answer and the whole new state of the tables in terms of the old ones. Amounts are `real`. Error answers are a `Failure`: `BadRequest(reason)` is 400, `NotFound` is 404, `ServerError` is 500, `MethodNotAllowed` is 405, and `NoResponse` stands for the empty PUT branch of `/api/pagos`.

Behaviour of the code that the model keeps as written:

- Nothing checks whether a ticket already exists. Every payment that leaves a balance of at most 50 inserts another ticket, including a payment on an order that is already paid (`Scenarios.RepeatedTickets`, `Scenarios.TicketOnPaidOrder`).
- The payment insert and the ticket insert are not one transaction. If payment method 1 is missing from the method table, the ticket insert fails after the payment was stored. The request then answers 500 and the payment stays (`Scenarios.PaymentKeptWhenTicketFails`).
- A ticket created or updated through `/api/tickets` gets the number of payments times the order total. For an order paid in two parts this overstates what was paid (`Tickets.SplitPaymentOverstatesTicket`, `Scenarios.SnapshotTicketTotal`).
- PUT and DELETE on an unknown ticket id make the store throw. The handlers answer 500, not 404.
- A repeated `id` in the DELETE query arrives as an array. `parseInt` reads the first number of its comma-joined string form, so the first id is deleted.
- A body field holding 0 counts as missing (JavaScript truthiness), so `monto_pago: 0` gets "missing fields", not "amount must be positive". A query string holding "0" is present.

## Model

| member | source | states |
|---|---|---|
| Store.PaymentsOf | pages/api/pagos.ts:60-62 | the rows `findMany({ where: { id_pedido } })` returns: exactly the payments of that order, all of them, taken from the table |
| Store.PaymentsOfAppend | pages/api/pagos.ts:85-93 | appending a payment adds it at the end of its own order's payments and leaves every other order's payments as they were |
| Store.PaymentsOfSingleOrder | pages/api/tickets.ts:99-100 | a payment list that belongs to one order is its own selection for that order |
| Store.Database.CreatePago | pages/api/pagos.ts:85-93 | the payment insert connects to an existing order and payment method; it appends exactly one row with the next id and fails with no change otherwise; tickets are untouched |
| Store.Database.CreateTicket | pages/api/tickets.ts:107-113 | the ticket insert adds one ticket under a fresh id and keeps every existing ticket; it fails with no change when the referenced order or method is missing |
| Store.Database.UpdateTicket | pages/api/tickets.ts:134-141 | the update overwrites order, method and total of that one ticket and fails with no change when the ticket does not exist |
| Store.Database.DeleteTicket | pages/api/tickets.ts:156-158 | the delete removes exactly that ticket, returns it, and fails with no change when it does not exist |
| Pagos.SumAmountsPositive | pages/api/pagos.ts:64 | the `reduce` over `monto_pago` of payments with positive amounts is non-negative, and zero exactly when there is no payment |
| Pagos.AmountPaidAppend | pages/api/pagos.ts:64-65 | after a payment is recorded, its order's amount paid grows by exactly its amount; other orders' amounts paid are unchanged |
| Pagos.Rejection | pages/api/pagos.ts:45-83 | the checks made before any write: a missing or zero field gives 400, a negative amount 400, an unknown order 404, and a Card payment past the order total 400 (exactly then); an accepted payment has all fields, a positive amount, an existing order and method, and, for Card, stays within the total |
| Pagos.NonCardIgnoresHistory | pages/api/pagos.ts:78-83 | a payment not made by Card is never refused for exceeding the total; whether it is accepted does not depend on earlier payments |
| Pagos.CardPaymentWithinTotal | pages/api/pagos.ts:78-93 | after an accepted Card payment is appended, the order's amount paid does not exceed its total |
| Pagos.SettledOrderRefusesCard | pages/api/pagos.ts:78-83 | once the amount paid reaches the order total, every further Card payment with a positive amount is refused |
| Pagos.RecordPayment | pages/api/pagos.ts:85-105 | the two writes after the checks: exactly one payment appended with the next id and the order total as snapshot; a Card ticket for the order total under the next ticket id exactly when the balance left is at most 50; if the ticket insert fails the payment stays and the answer is 500 |
| Pagos.PostPago | pages/api/pagos.ts:42-115 | a refused request changes nothing; an accepted one appends exactly one payment with the order total as snapshot and `fecha_pago` defaulting to now; `totalPagado` is the new amount paid, `montoFaltante` is the total minus it; a Card ticket for the order total is inserted exactly when `montoFaltante` <= 50; if that insert fails the payment stays and the answer is 500 |
| Pagos.GetPagos | pages/api/pagos.ts:123-163 | read only: 400 without `id_pedido`, 404 for an unknown order; otherwise the order's payments, their sum, `montoFaltante` = total minus the sum, and `pagadoCompleto` true exactly when the sum reaches the total (equivalently, nothing is owed) |
| Pagos.HandlePago | pages/api/pagos.ts:38-178 | POST records; GET changes nothing and answers as GetPagos does (400 without `id_pedido`, 404 for an unknown order, otherwise the payments, their sum, `montoFaltante` and `pagadoCompleto`); PUT never answers; any other verb gets 405 with no change |
| Tickets.TicketTotal | pages/api/tickets.ts:99-105 | the aggregate with null replaced by 0: 0 for an order with no payment, otherwise the sum of the payments' total snapshots |
| Tickets.TicketTotalAppend | pages/api/tickets.ts:99-105 | a new payment adds its snapshot to its own order's ticket total and to no other |
| Tickets.SumSnapshotsUniform | pages/api/tickets.ts:99-105 | when every payment carries the same snapshot t, the snapshot sum is the number of payments times t |
| Tickets.TicketTotalCountsPayments | pages/api/tickets.ts:99-105 | while an order's total stays t, its ticket total is its number of payments times t |
| Tickets.SplitPaymentOverstatesTicket | pages/api/tickets.ts:99-111 | for an order of positive total paid in two or more payments within that total, the recomputed ticket total exceeds the amount paid |
| Tickets.SumSnapshotsExceedOne | pages/api/tickets.ts:99-105 | summing two or more snapshots of the same positive total gives more than that total |
| Tickets.GetTickets | pages/api/tickets.ts:28-91 | read only: no `id_ticket` lists every ticket, unfiltered; a repeated `id_ticket` gives 400; an unknown id 404; otherwise the ticket with that id |
| Tickets.PostTicket | pages/api/tickets.ts:92-118 | 400 and no change when either id is missing or 0; otherwise one new ticket under a fresh id whose total is the order's snapshot sum (0 with no payments), every other ticket kept; 500 and no change for an unknown order or method |
| Tickets.PutTicket | pages/api/tickets.ts:119-146 | 400 and no change when either id is missing; otherwise the total is recomputed as in POST and only the ticket with the given id is overwritten, the id counter kept; a missing or unknown id gives 500 and no change; every other ticket is unchanged |
| Tickets.DeleteTicket | pages/api/tickets.ts:147-162 | 400 and no change without `id`; otherwise the id `parseInt` reads is deleted: the id itself, or for a repeated `id` (an array, whose comma-joined string form parses to its first number) the first one; exactly that ticket is removed and returned and the id counter is kept; an empty repeated `id` (NaN) or an unknown id gives 500 and no change |
| Tickets.HandleTickets | pages/api/tickets.ts:21-167 | GET changes nothing and answers as GetTickets does (the full list, 400 for a repeated `id_ticket`, 404 for an unknown one, otherwise that ticket); any verb other than GET, POST, PUT and DELETE gets 405 and changes nothing; POST, PUT and DELETE answer with their own kind of reply |
| Scenarios.TicketOnSecondPayment | pages/api/pagos.ts:95-105 | order total 100: paying 40 leaves 60 and issues no ticket; paying 15 more leaves 45 and issues one |
| Scenarios.NoTicketAboveThreshold | pages/api/pagos.ts:95-105 | order total 100: paying 40 then 5 leaves 55 and the ticket table stays empty |
| Scenarios.RepeatedTickets | pages/api/pagos.ts:97-105 | order total 200: Card 150 leaves 50 and issues ticket 1; Card 10 more leaves 40 and issues ticket 2 |
| Scenarios.TicketOnPaidOrder | pages/api/pagos.ts:95-105 | order total 100: Cash 100 leaves 0 and issues ticket 1; Cash 10 more on the settled order leaves -10 and issues ticket 2 |
| Scenarios.SnapshotTicketTotal | pages/api/tickets.ts:99-113 | after those two payments, a ticket created through the ticket store totals 400 while 160 was paid |
| Scenarios.CashOverpayment | pages/api/pagos.ts:78-95 | a Cash payment of 250 on a total of 200 is accepted with `montoFaltante` -50; a Card payment of 1 afterwards is refused |
| Scenarios.PaymentKeptWhenTicketFails | pages/api/pagos.ts:85-105 | with no payment method 1, a payment that reaches the threshold is stored while the request answers 500 |
| Scenarios.BalanceAfterPayment | pages/api/pagos.ts:140-152 | after a successful POST, GET on the same order reports the same amount paid and balance, and the new payment among the order's payments |

## Left out

- CORS middleware, `runMiddleware` and response headers: transport glue with no effect on the tables. The `cors` middleware answers an OPTIONS preflight itself with 204, so OPTIONS never reaches the 405 branch; the model's `verb` is the method of a request that got past the middleware.
- The HTTP framing beyond the error kind: status codes are the `Failure` variants, and the response messages are not modelled.
- The `include: { metodo_pago: true }` of GET /api/pagos: each payment is returned as its bare row, without its joined payment method.
- The relational `include`/`select` of GET /api/tickets (order, payments, order lines, method name): the joined view is modelled as the ticket row itself.
- Concurrency: each request runs alone. The read of the amount paid and the append are not atomic in the code, so two concurrent Card payments can together pass the order total. A sequential model cannot show this.
- Floating point: amounts are exact reals, so the rounding of JavaScript numbers is not modelled.
- Values of other JSON types, such as ids and amounts sent as strings, and query strings that are not plain integers: the model takes JSON numbers and integer query values only. JavaScript's coercion of strings (`Number`, `parseInt`, the `+` of the `reduce`) and Prisma's type checks on the values it is given are not modelled.
- A repeated `id_pedido` in GET /api/pagos: the query value is modelled as present or absent.
- Parsing of `fecha_pago`: it arrives as an already-parsed timestamp, and the clock reading `new Date()` is the parameter `now`.
- Store failures other than missing referenced rows (lost connection and the like), which the handlers answer with 500.
- The foreign keys of the ticket table: the schema file is not part of this model. The ticket rows are taken to reference an order and a payment method, as the `pedido` and `metodo_pago` relations of GET /api/tickets show, so the store refuses a ticket that references a missing one.
- Changes to order totals: the order and payment-method tables are owned elsewhere and read only here. A payment's snapshot therefore always equals its order's current total in these runs.
- Pagos.HandlePago: for POST it states only that a success is a recorded payment. The full outcome is the contract of Pagos.PostPago, which it calls.
- Tickets.HandleTickets: for POST, PUT and DELETE it states only the kind of a successful reply and that a deleted ticket is gone. The full outcomes are the contracts of the branch methods it calls.
