# Ticket lifecycle model

A Dafny model of the backend of a small ticket tracker. A ticket is
created in status `created`, moves to `in_progress` once it has an assignee,
and ends in `completed`, after which it never changes. The model covers the
status state machine that every update goes through (`validateTransition`)
and the service operations around it (`create`, `findAll`, `findOne`,
`update`, `finalize`), with the repository replaced by an in-memory map.

Modules:

- `Wrappers` (`wrappers.dfy`): `Option` (a TypeScript `null`/`undefined`) and `Result` (a value or a thrown exception).
- `TicketEntity` (`ticket_entity.dfy`): the `TicketStatus`, `TicketTopic` and `TicketPriority` enumerations, the text each value is stored as, and the `Ticket` row.
- `NumberText` (`number_text.dfy`): the decimal text of an integer, as a template literal writes it. It is needed for the message `Ticket {id} not found`, and it has an inverse.
- `Transition` (`transition.dfy`): the validator. `ExitOf` follows the code's branches in the code's order and names the `return` or `throw` reached. `ValidateTransition` turns that exit into accept or reject-with-message. `Allowed` is the rule table the validator is proved to agree with.
- `TicketsService` (`tickets_service.dfy`): the request shapes, the pure effect of an update (`ApplyUpdate`) and of a finalize (`FinalizeTicket`) on a fetched ticket, and the class `TicketsService`. Its fields `rows` (id to ticket) and `nextId` (the id the store generates next) stand for the repository.
- `TicketLifecycle`: a client that takes one ticket through its whole life using only the contracts.

Modelling choices:

- Assignee truthiness. The validator tests the assignee with `!assignee`, so both `null` and `0` count as "no assignee". `IsTruthy` models exactly that.
- Ticket records. `findOne` returns a fresh entity object on every query. The service assigns fields on that object and then `save`s it. So a ticket is a value here: the field assignment builds an updated record, and `save` writes it to `rows` under its id.
- Update requests. In an update request (`UpdateTicket`) the assignee has three states: left out, explicit `null`, or an integer. The optional-field validator lets `null` through, and the service only tests `!== undefined`, so an explicit `null` removes the assignee. The status is optional, and a missing status means "keep the current one" (`??`).
- List filters (`FilterTickets`). All three filters are optional. The status filter is applied only when it is truthy. Every status text is non-empty, so a supplied status is always applied (`WhereOf`). The query's `order: { id: 'ASC' }` becomes a scan of the ids in ascending order.
- Ids. The store generates ids from 1 upwards, and nothing is ever deleted. So `nextId` is always above every stored id, and a new id is never already in use.
- The validator called directly. It accepts `completed → completed` (the same-status case) and rejects `completed → anything else` with "Invalid status transition". The service never reaches it for a completed ticket, because `update` rejects completed tickets first.
- Dead code. The code has an `in_progress → in_progress` branch after the same-status test. It can never run, because the same-status test has already caught that case. `ReconfirmBranchUnreachable` proves this.

## Model

| member | source | states |
|---|---|---|
| `TicketEntity.StatusName` | src/tickets/ticket.entity.ts:10-14 | each status is stored as a non-empty text, so it is truthy when used as a filter |
| `TicketEntity.ParseStatus` | src/tickets/ticket.entity.ts:10-14 | exactly the three texts `created`, `in_progress`, `completed` are statuses, and parsing inverts `StatusName` in both directions |
| `TicketEntity.TopicName` | src/tickets/ticket.entity.ts:16-21 | each topic is stored as a non-empty text |
| `TicketEntity.ParseTopic` | src/tickets/ticket.entity.ts:16-21 | exactly the four texts `billing`, `bug`, `feature`, `other` are topics, and parsing inverts `TopicName` |
| `TicketEntity.PriorityName` | src/tickets/ticket.entity.ts:23-27 | each priority is stored as a non-empty text |
| `TicketEntity.ParsePriority` | src/tickets/ticket.entity.ts:23-27 | exactly the three texts `low`, `medium`, `high` are priorities, and parsing inverts `PriorityName` |
| `NumberText.NatToDecimal` | src/tickets/tickets.service.ts:50 | the text of a natural number is a non-empty string of digits with no leading zero |
| `NumberText.NatDecimalRoundTrip` | src/tickets/tickets.service.ts:50 | reading the digits back gives the number again |
| `NumberText.IntToDecimal` | src/tickets/tickets.service.ts:50 | the text of an integer starts with a minus sign exactly when the integer is negative |
| `NumberText.IntToDecimalInjective` | src/tickets/tickets.service.ts:50 | two integers with the same text are equal |
| `Transition.ValidateTransition` | src/tickets/tickets.service.ts:87-130 | accepts exactly the table's three shapes: same status (for `in_progress` only with a truthy assignee), `created → in_progress` with a truthy assignee, and `in_progress → completed` with any assignee. The rejection message is fixed per case: `created → completed`, starting without an assignee, staying `in_progress` without an assignee, `in_progress → created`, and `completed → other` |
| `Transition.ReconfirmBranchUnreachable` | src/tickets/tickets.service.ts:92-125 | no input reaches either exit of the `in_progress → in_progress` branch |
| `Transition.RejectionReasonsAreFixed` | src/tickets/tickets.service.ts:93-129 | every rejection carries one of the four literal messages |
| `Transition.InProgressNeedsTruthyAssignee` | src/tickets/tickets.service.ts:92-125 | from a non-completed status, moving to or staying in `in_progress` is accepted exactly when the assignee is truthy. `in_progress → created` is always rejected |
| `TicketsService.NotFoundMessage` | src/tickets/tickets.service.ts:50 | the not-found message is `Ticket `, then the id's text, then ` not found` |
| `TicketsService.NotFoundMessageInjective` | src/tickets/tickets.service.ts:50 | different ids give different not-found messages |
| `TicketsService.WhereOf` | src/tickets/tickets.service.ts:34-42 | the query condition keeps exactly the filters that were supplied. A supplied status is always truthy |
| `TicketsService.ApplyUpdate` | src/tickets/tickets.service.ts:58-69 | a completed ticket always fails with "Completed tickets cannot change". Otherwise the update succeeds exactly when the validator accepts (current, next status, next assignee). A failure is always a bad request with one of the five fixed messages. On success the status is the requested one or else the current one, and the assignee is the supplied one (even `null`) or else the current one. Id, requester, topic, priority and description are unchanged. A successful result never leaves an `in_progress` ticket without a truthy assignee |
| `TicketsService.FinalizeTicket` | src/tickets/tickets.service.ts:77-83 | succeeds exactly when the current status is `in_progress`, and then changes only the status, to `completed`. Otherwise it fails with "Finalization is only allowed from in_progress status" |
| `TicketsService.FinalizeAgreesWithUpdate` | src/tickets/tickets.service.ts:55-85 | finalize succeeds on exactly the tickets that an update to `completed` succeeds on, and then gives the same ticket |
| `TicketsService.SameStatusUpdateIsNoOp` | src/tickets/tickets.service.ts:62-98 | for a non-completed ticket that satisfies the invariant, an update that resubmits the current status (or that has no fields) succeeds and changes nothing |
| `TicketsService.TicketsService.constructor` | src/tickets/ticket.entity.ts:32-33 | the store starts empty, its first generated id is 1, and the invariants hold |
| `TicketsService.TicketsService.Create` | src/tickets/tickets.service.ts:20-31 | the new ticket has status `created`, the given fields, and the assignee given or else `null`. Its id is fresh and is stored under that id; no other row changes; the invariants are kept |
| `TicketsService.TicketsService.FindAll` | src/tickets/tickets.service.ts:33-45 | returns only stored tickets that match every supplied filter, returns every such ticket, and lists them in strictly ascending order of id |
| `TicketsService.TicketsService.FindOne` | src/tickets/tickets.service.ts:47-53 | returns the stored ticket when the id is present, and otherwise fails with not found and the message `Ticket {id} not found` |
| `TicketsService.TicketsService.Update` | src/tickets/tickets.service.ts:55-72 | an absent id fails with not found. Otherwise the result is `ApplyUpdate` of the stored ticket. Only a success writes a row, and only the updated one; a rejection leaves the store unchanged. The invariants are kept |
| `TicketsService.TicketsService.Finalize` | src/tickets/tickets.service.ts:74-85 | an absent id fails with not found. Otherwise the result is `FinalizeTicket` of the stored ticket. Only a success writes the row; a rejection leaves the store unchanged. The invariants are kept |

`Valid()` says that every stored row sits under its own generated id,
between 1 and `nextId`, so ids are unique. `InProgressInvariant()` says
that every `in_progress` row has a truthy assignee. Each mutating method
keeps both.

## Left out

- HTTP wiring, the controller, the `ParseIntPipe`, and OpenAPI decorators. Ids reach the service as integers.
- Request validation of the create, update and filter shapes. Only their effect is kept, as Dafny types: integers, optional fields, enumerations. A non-empty description is one such check, and the model does not check it.
- The ORM and the database. The repository is a `map` plus an id counter. `save` is a map update, and `find` is an ascending scan.
- The `created_at`/`updated_at` timestamps, which the store sets from the clock.
- The seed script. Its random data and its own assignee rules are not service behaviour.
- The whole front-end. This includes its client-side copies of the transition rules and its query-string builder.
- Concurrency. Concurrent updates race with last-write-wins at the storage layer. The model is sequential.
- `NumberText.IntToDecimal`: it writes every integer in plain decimal. JavaScript writes numbers whose magnitude is at least 10^21 in exponent notation and rounds integers beyond 2^53. Such ids are not given this text.
- Integer width: ids and assignees are unbounded integers. The source's integers are JavaScript numbers and SQLite integers.
