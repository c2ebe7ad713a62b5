/**
 * The ticket service: create, list, look up, update and finalize tickets
 * held by a repository. The repository is modelled in memory as a map
 * from id to row plus the next id the store will generate.
 */
module TicketsService {
  import opened Wrappers
  import opened TicketEntity
  import opened NumberText
  import opened Transition

  /** The two exceptions the service throws. */
  datatype Error = NotFound(message: string) | BadRequest(message: string)

  const CompletedCannotChange := "Completed tickets cannot change"
  const FinalizeOnlyFromInProgress := "Finalization is only allowed from in_progress status"

  function NotFoundMessage(id: int): (m: string)
    ensures |m| == 17 + |IntToDecimal(id)|
  {
    "Ticket " + IntToDecimal(id) + " not found"
  }

  /** Tickets with different ids get different not-found messages. */
  lemma NotFoundMessageInjective(a: int, b: int)
    requires NotFoundMessage(a) == NotFoundMessage(b)
    ensures a == b
  {
    var m := NotFoundMessage(a);
    assert m[7..|m| - 10] == IntToDecimal(a);
    assert m[7..|m| - 10] == IntToDecimal(b);
    IntToDecimalInjective(a, b);
  }

  /** The fields a new ticket is created from. */
  datatype CreateTicket = CreateTicket(
    requesterId: int,
    assigneeId: Option<int>,
    topic: TicketTopic,
    priority: TicketPriority,
    description: string)

  /** A request field that may be left out (`undefined`) or supplied. */
  datatype Presence<+T> = Absent | Present(value: T)

  /**
   * A partial update. The assignee may be left out, supplied as `null`
   * (which unassigns), or supplied as an integer; the status may be left out.
   */
  datatype UpdateTicket = UpdateTicket(assigneeId: Presence<Option<int>>, status: Option<TicketStatus>)

  /** Optional equality filters for listing. */
  datatype FilterTickets = FilterTickets(status: Option<TicketStatus>, requesterId: Option<int>, assigneeId: Option<int>)

  /**
   * The query condition built from a filter: the status is added when it
   * is truthy, the ids whenever they are defined. Since every status text
   * is non-empty, the condition keeps exactly the supplied filters.
   */
  function WhereOf(filter: FilterTickets): (w: FilterTickets)
    ensures w == filter
  {
    FilterTickets(
      if filter.status.Some? && StatusName(filter.status.value) != "" then filter.status else None,
      if filter.requesterId.Some? then filter.requesterId else None,
      if filter.assigneeId.Some? then filter.assigneeId else None)
  }

  /** A row meets every condition present in `where`. */
  predicate Matches(t: Ticket, where: FilterTickets) {
    && (where.status.Some? ==> t.status == where.status.value)
    && (where.requesterId.Some? ==> t.requesterId == where.requesterId.value)
    && (where.assigneeId.Some? ==> t.assigneeId == Some(where.assigneeId.value))
  }

  /** The status an update moves to: the requested one, else the current one. */
  function NextStatus(t: Ticket, patch: UpdateTicket): TicketStatus {
    if patch.status.Some? then patch.status.value else t.status
  }

  /** The assignee after an update: the supplied value (possibly `null`), else the current one. */
  function NextAssignee(t: Ticket, patch: UpdateTicket): Option<int> {
    if patch.assigneeId.Present? then patch.assigneeId.value else t.assigneeId
  }

  /** The store invariant for one row: an in_progress ticket has a truthy assignee. */
  predicate InProgressAssigned(t: Ticket) {
    t.status == InProgress ==> IsTruthy(t.assigneeId)
  }

  /**
   * What an update does to a fetched ticket: the terminal guard, then the
   * validator, then the new status and assignee.
   */
  function ApplyUpdate(t: Ticket, patch: UpdateTicket): (r: Result<Ticket, Error>)
    ensures t.status == Completed ==> r == Failure(BadRequest(CompletedCannotChange))
    ensures r.Success? <==> t.status != Completed && Allowed(t.status, NextStatus(t, patch), NextAssignee(t, patch))
    ensures r.Failure? ==>
      && r.error.BadRequest?
      && r.error.message in
        {CompletedCannotChange, InProgressNeedsAssignee, MustPassThroughInProgress, StartNeedsAssignee, InvalidTransition}
    ensures r.Success? ==>
      && r.value.status == NextStatus(t, patch)
      && r.value.assigneeId == NextAssignee(t, patch)
      && r.value.id == t.id
      && r.value.requesterId == t.requesterId
      && r.value.topic == t.topic
      && r.value.priority == t.priority
      && r.value.description == t.description
    ensures r.Success? ==> InProgressAssigned(r.value)
  {
    if t.status == Completed then
      Failure(BadRequest(CompletedCannotChange))
    else
      var nextStatus := NextStatus(t, patch);
      var nextAssignee := NextAssignee(t, patch);
      match ValidateTransition(t.status, nextStatus, nextAssignee)
      case Reject(reason) => Failure(BadRequest(reason))
      case Accept => Success(t.(assigneeId := nextAssignee, status := nextStatus))
  }

  /** What finalizing does to a fetched ticket: only in_progress tickets complete. */
  function FinalizeTicket(t: Ticket): (r: Result<Ticket, Error>)
    ensures r.Success? <==> t.status == InProgress
    ensures r.Success? ==> r.value == t.(status := Completed)
    ensures r.Failure? ==> r.error == BadRequest(FinalizeOnlyFromInProgress)
  {
    if t.status != InProgress then Failure(BadRequest(FinalizeOnlyFromInProgress))
    else Success(t.(status := Completed))
  }

  /**
   * Finalizing is updating to completed with a narrower precondition: the
   * two succeed on the same tickets and then agree; they differ only in the
   * message when they fail.
   */
  lemma FinalizeAgreesWithUpdate(t: Ticket)
    ensures FinalizeTicket(t).Success? <==> ApplyUpdate(t, UpdateTicket(Absent, Some(Completed))).Success?
    ensures FinalizeTicket(t).Success? ==> FinalizeTicket(t) == ApplyUpdate(t, UpdateTicket(Absent, Some(Completed)))
  {
  }

  /** Resubmitting the current status and nothing else changes nothing, whenever it is accepted. */
  lemma SameStatusUpdateIsNoOp(t: Ticket)
    requires t.status != Completed
    requires InProgressAssigned(t)
    ensures ApplyUpdate(t, UpdateTicket(Absent, Some(t.status))) == Success(t)
    ensures ApplyUpdate(t, UpdateTicket(Absent, None)) == Success(t)
  {
  }

  /** Every row of `rows` satisfies the in_progress invariant. */
  predicate AllAssigned(rows: map<int, Ticket>) {
    forall id :: id in rows ==> InProgressAssigned(rows[id])
  }

  /**
   * The service together with the rows of its repository. `rows` maps each
   * stored id to its ticket; `nextId` is the id the store will generate next.
   */
  class TicketsService {
    var rows: map<int, Ticket>
    var nextId: int

    /** Ids are keys that the store generated, and each row carries its own key. */
    ghost predicate Valid()
      reads this
    {
      && 1 <= nextId
      && forall id :: id in rows ==> 1 <= id < nextId && rows[id].id == id
    }

    /** The store invariant: every in_progress ticket has a truthy assignee. */
    predicate InProgressInvariant()
      reads this
    {
      AllAssigned(rows)
    }

    constructor ()
      ensures Valid() && InProgressInvariant()
      ensures rows == map[] && nextId == 1
    {
      rows := map[];
      nextId := 1;
    }

    /** Inserts a new ticket in status created under a fresh id. */
    method Create(dto: CreateTicket) returns (t: Ticket)
      requires Valid()
      modifies this
      ensures Valid()
      ensures t == Ticket(old(nextId), dto.requesterId, dto.assigneeId, dto.topic, dto.priority, Created, dto.description)
      ensures t.id !in old(rows)
      ensures rows == old(rows)[t.id := t]
      ensures nextId == old(nextId) + 1
      ensures old(InProgressInvariant()) ==> InProgressInvariant()
    {
      t := Ticket(nextId, dto.requesterId, dto.assigneeId, dto.topic, dto.priority, DefaultStatus, dto.description);
      rows := rows[t.id := t];
      nextId := nextId + 1;
    }

    /** Lists the stored tickets meeting every supplied filter, by ascending id. */
    method FindAll(filter: FilterTickets) returns (r: seq<Ticket>)
      requires Valid()
      ensures forall k :: 0 <= k < |r| ==> r[k].id in rows && rows[r[k].id] == r[k] && Matches(r[k], filter)
      ensures forall id :: id in rows && Matches(rows[id], filter) ==> rows[id] in r
      ensures forall j, k :: 0 <= j < k < |r| ==> r[j].id < r[k].id
    {
      var where := WhereOf(filter);
      r := [];
      var i := 1;
      while i < nextId
        invariant 1 <= i <= nextId
        invariant forall k :: 0 <= k < |r| ==> r[k].id in rows && rows[r[k].id] == r[k] && Matches(r[k], where)
        invariant forall k :: 0 <= k < |r| ==> r[k].id < i
        invariant forall id :: id in rows && id < i && Matches(rows[id], where) ==> rows[id] in r
        invariant forall j, k :: 0 <= j < k < |r| ==> r[j].id < r[k].id
      {
        if i in rows && Matches(rows[i], where) {
          r := r + [rows[i]];
        }
        i := i + 1;
      }
    }

    /** Looks a ticket up by id. */
    method FindOne(id: int) returns (r: Result<Ticket, Error>)
      ensures r.Success? <==> id in rows
      ensures r.Success? ==> r.value == rows[id]
      ensures r.Failure? ==> r.error == NotFound(NotFoundMessage(id))
    {
      if id !in rows {
        return Failure(NotFound(NotFoundMessage(id)));
      }
      r := Success(rows[id]);
    }

    /** Changes the status and assignee of a ticket, as the state machine allows. */
    method Update(id: int, patch: UpdateTicket) returns (r: Result<Ticket, Error>)
      requires Valid()
      modifies this
      ensures Valid() && nextId == old(nextId)
      ensures id !in old(rows) ==> r == Failure(NotFound(NotFoundMessage(id)))
      ensures id in old(rows) ==> r == ApplyUpdate(old(rows)[id], patch)
      ensures rows == if r.Success? then old(rows)[id := r.value] else old(rows)
      ensures old(InProgressInvariant()) ==> InProgressInvariant()
    {
      var found := FindOne(id);
      if found.Failure? {
        return Failure(found.error);
      }
      var ticket := found.value;
      if ticket.status == Completed {
        return Failure(BadRequest(CompletedCannotChange));
      }
      var nextStatus := if patch.status.Some? then patch.status.value else ticket.status;
      var nextAssignee := if patch.assigneeId.Present? then patch.assigneeId.value else ticket.assigneeId;
      var verdict := ValidateTransition(ticket.status, nextStatus, nextAssignee);
      if verdict.Reject? {
        return Failure(BadRequest(verdict.reason));
      }
      ticket := ticket.(assigneeId := nextAssignee);
      ticket := ticket.(status := nextStatus);
      rows := rows[ticket.id := ticket];
      r := Success(ticket);
    }

    /** Completes an in_progress ticket. */
    method Finalize(id: int) returns (r: Result<Ticket, Error>)
      requires Valid()
      modifies this
      ensures Valid() && nextId == old(nextId)
      ensures id !in old(rows) ==> r == Failure(NotFound(NotFoundMessage(id)))
      ensures id in old(rows) ==> r == FinalizeTicket(old(rows)[id])
      ensures rows == if r.Success? then old(rows)[id := r.value] else old(rows)
      ensures old(InProgressInvariant()) ==> InProgressInvariant()
    {
      var found := FindOne(id);
      if found.Failure? {
        return Failure(found.error);
      }
      var ticket := found.value;
      if ticket.status != InProgress {
        return Failure(BadRequest(FinalizeOnlyFromInProgress));
      }
      ticket := ticket.(status := Completed);
      rows := rows[ticket.id := ticket];
      r := Success(ticket);
    }
  }
}

/** A client of the service: one ticket's life, derived from the contracts alone. */
module TicketLifecycle {
  import opened Wrappers
  import opened TicketEntity
  import opened Transition
  import opened TicketsService

  method Lifecycle() {
    var service := new TicketsService();
    var t := service.Create(CreateTicket(1, None, Bug, High, "App crashes"));
    assert t.status == Created && t.assigneeId == None;

    var started := service.Update(t.id, UpdateTicket(Absent, Some(InProgress)));
    assert started == Failure(BadRequest(StartNeedsAssignee));
    assert service.rows[t.id] == t;

    var startedWithAssignee := service.Update(t.id, UpdateTicket(Present(Some(9)), Some(InProgress)));
    assert startedWithAssignee == Success(t.(status := InProgress, assigneeId := Some(9)));

    var done := service.Finalize(t.id);
    assert done == Success(t.(status := Completed, assigneeId := Some(9)));

    var again := service.Finalize(t.id);
    assert again == Failure(BadRequest(FinalizeOnlyFromInProgress));
    var reopened := service.Update(t.id, UpdateTicket(Absent, Some(Created)));
    assert reopened == Failure(BadRequest(CompletedCannotChange));

    var listed := service.FindAll(FilterTickets(Some(Completed), Some(1), None));
    assert service.rows.Keys == {t.id};
    assert done.value in listed;
    assert forall k :: 0 <= k < |listed| ==> listed[k] == done.value;
    var none := service.FindAll(FilterTickets(Some(InProgress), None, None));
    assert done.value !in none;
  }
}
