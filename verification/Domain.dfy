/** Job statuses, rows, events and leases as the domain layer and the jobs table define them. */
module Domain {
  import opened Prelude

  /** Identifiers drawn by the source from UUID generators. */
  type JobId = nat
  datatype WorkerId = WorkerId(uuid: nat)

  /** A JSON document. It is stored and compared, never inspected. */
  type Document = int

  datatype JobStatus = PENDING | PROCESSING | SUCCESS | FAILED

  function AllowedSourceStatuses(target: JobStatus): set<JobStatus> {
    match target
    case PROCESSING => {PENDING, FAILED, PROCESSING}
    case SUCCESS => {PROCESSING}
    case FAILED => {PENDING, PROCESSING}
    case PENDING => {}
  }

  /** The columns of one row of the jobs table that the protocol reads or writes. */
  datatype JobRow = JobRow(
    status: JobStatus,
    result: Option<Document>,
    error: Option<string>,
    leaseOwner: Option<WorkerId>,
    leaseExpiresAt: Option<int>,
    leaseEpoch: nat)

  const NEW_ROW := JobRow(PENDING, None, None, None, None, 0)

  /** Rows of job_events; the envelope fields carry no state. */
  datatype Event =
    | Requested
    | ProcessingStarted(leaseEpoch: nat)
    | ProcessingCompleted(result: Document)
    | InferenceCompleted(result: Document)
    | DownstreamCompleted(result: Document)
    | ProcessingFailed(error: string)

  /** Everything the database holds about one job: its row and its event log, in commit order. */
  datatype JobState = JobState(row: JobRow, events: seq<Event>)

  const NEW_JOB := JobState(NEW_ROW, [Requested])

  type Topic = string

  /** The event envelope carried by Kafka messages: which job it is about, and its payload. */
  datatype Message = Message(job: JobId, body: Document)

  /** One row of outbox_messages. Row ids are the positions in the table, so id order is list order. */
  datatype OutboxRow = OutboxRow(topic: Topic, message: Message, published: bool, attempts: nat)

  /** The transitions that make sense: any unfinished job may be worked on, only a job being worked on can
      succeed, a job fails from where it has not already failed or finished, and none goes back to PENDING. */
  predicate MayFollow(source: JobStatus, target: JobStatus) {
    || (target == PROCESSING && source != SUCCESS)
    || (target == SUCCESS && source == PROCESSING)
    || (target == FAILED && source != SUCCESS && source != FAILED)
  }

  /** The table holds those transitions and no others; so nothing leaves SUCCESS. */
  lemma {:induction false} TransitionTable(target: JobStatus)
    ensures forall source :: source in AllowedSourceStatuses(target) <==> MayFollow(source, target)
    ensures AllowedSourceStatuses(target) == {} <==> target == PENDING
    ensures SUCCESS !in AllowedSourceStatuses(target)
  {
    assert PROCESSING in AllowedSourceStatuses(FAILED) && PROCESSING in AllowedSourceStatuses(SUCCESS);
    assert PROCESSING in AllowedSourceStatuses(PROCESSING);
  }
}
