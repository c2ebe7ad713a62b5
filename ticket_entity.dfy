/**
 * The `Ticket` entity and its three enumerations, as declared for the
 * ORM. Each enumeration value is stored as its text; `StatusName`,
 * `TopicName` and `PriorityName` give that text and the `Parse` functions
 * are their inverses, so the set of admissible column values is exactly
 * the set of enumeration members.
 */
module TicketEntity {
  import opened Wrappers

  datatype TicketStatus = Created | InProgress | Completed

  datatype TicketTopic = Billing | Bug | Feature | Other

  datatype TicketPriority = Low | Medium | High

  /** The status every new row gets (the column default). */
  const DefaultStatus: TicketStatus := Created

  /**
   * One row of the ticket table. `id` is generated by the store,
   * `assigneeId` is a nullable integer column, the rest are required.
   * The `created_at`/`updated_at` timestamps are not modelled.
   */
  datatype Ticket = Ticket(
    id: int,
    requesterId: int,
    assigneeId: Option<int>,
    topic: TicketTopic,
    priority: TicketPriority,
    status: TicketStatus,
    description: string)

  /** The text stored for a status. Every one is non-empty, hence truthy. */
  function StatusName(s: TicketStatus): (name: string)
    ensures |name| > 0
  {
    match s
    case Created => "created"
    case InProgress => "in_progress"
    case Completed => "completed"
  }

  /** Reads a stored status back; exactly the three status texts parse. */
  function ParseStatus(name: string): (r: Option<TicketStatus>)
    ensures r.Some? <==> name == "created" || name == "in_progress" || name == "completed"
    ensures r.Some? ==> StatusName(r.value) == name
    ensures forall s :: StatusName(s) == name ==> r == Some(s)
  {
    if name == "created" then Some(Created)
    else if name == "in_progress" then Some(InProgress)
    else if name == "completed" then Some(Completed)
    else None
  }

  function TopicName(t: TicketTopic): (name: string)
    ensures |name| > 0
  {
    match t
    case Billing => "billing"
    case Bug => "bug"
    case Feature => "feature"
    case Other => "other"
  }

  /** Exactly the four topic texts parse. */
  function ParseTopic(name: string): (r: Option<TicketTopic>)
    ensures r.Some? <==> name == "billing" || name == "bug" || name == "feature" || name == "other"
    ensures r.Some? ==> TopicName(r.value) == name
    ensures forall t :: TopicName(t) == name ==> r == Some(t)
  {
    if name == "billing" then Some(Billing)
    else if name == "bug" then Some(Bug)
    else if name == "feature" then Some(Feature)
    else if name == "other" then Some(Other)
    else None
  }

  function PriorityName(p: TicketPriority): (name: string)
    ensures |name| > 0
  {
    match p
    case Low => "low"
    case Medium => "medium"
    case High => "high"
  }

  /** Exactly the three priority texts parse. */
  function ParsePriority(name: string): (r: Option<TicketPriority>)
    ensures r.Some? <==> name == "low" || name == "medium" || name == "high"
    ensures r.Some? ==> PriorityName(r.value) == name
    ensures forall p :: PriorityName(p) == name ==> r == Some(p)
  {
    if name == "low" then Some(Low)
    else if name == "medium" then Some(Medium)
    else if name == "high" then Some(High)
    else None
  }
}
