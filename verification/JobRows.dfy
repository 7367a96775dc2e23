/** What the conditional UPDATE statements of the job repository do to one row. */
module JobRows {
  import opened Prelude
  import opened Domain

  /** The keyword arguments of `update_status`. */
  datatype StatusUpdate = StatusUpdate(
    target: JobStatus,
    result: Option<Document>,
    error: Option<string>,
    clearError: bool,
    expectedStatuses: Option<seq<JobStatus>>,
    leaseOwner: Option<WorkerId>,
    leaseEpoch: Option<nat>,
    releaseLease: bool)

  /** An update that names only its target status. */
  function PlainUpdate(target: JobStatus): StatusUpdate {
    StatusUpdate(target, None, None, false, None, None, None, false)
  }

  function Sources(update: StatusUpdate): set<JobStatus> {
    match update.expectedStatuses
    case Some(statuses) => set s | s in statuses
    case None => AllowedSourceStatuses(update.target)
  }

  /** The WHERE clause: source status, and the fencing token when the caller passes one. */
  predicate Admits(update: StatusUpdate, row: JobRow) {
    && row.status in Sources(update)
    && (update.leaseOwner.Some? ==> row.leaseOwner == update.leaseOwner)
    && (update.leaseEpoch.Some? ==> row.leaseEpoch == update.leaseEpoch.value)
  }

  /** The SET clause. */
  function Updated(update: StatusUpdate, row: JobRow): JobRow {
    row.(status := update.target,
         result := if update.result.Some? then update.result else row.result,
         error := if update.clearError then None
                  else if update.error.Some? then update.error else row.error,
         leaseOwner := if update.releaseLease then None else row.leaseOwner,
         leaseExpiresAt := if update.releaseLease then None else row.leaseExpiresAt)
  }

  predicate LeaseExpired(row: JobRow, now: int) {
    row.leaseExpiresAt.None? || row.leaseExpiresAt.value < now
  }

  predicate Claimable(row: JobRow, now: int) {
    row.status in {PENDING, FAILED} || (row.status == PROCESSING && LeaseExpired(row, now))
  }

  function Claimed(row: JobRow, owner: WorkerId, now: int, leaseSeconds: int): JobRow {
    row.(status := PROCESSING,
         leaseOwner := Some(owner),
         leaseExpiresAt := Some(now + leaseSeconds),
         leaseEpoch := row.leaseEpoch + 1)
  }

  predicate HoldsLease(row: JobRow, owner: WorkerId, epoch: nat) {
    row.leaseOwner == Some(owner) && row.leaseEpoch == epoch
  }

  /** Which rows an update admits, column by column, and what it leaves in them. */
  lemma {:induction false} UpdateMeans(update: StatusUpdate, row: JobRow)
    ensures Admits(update, row) <==>
              && (if update.expectedStatuses.Some? then row.status in update.expectedStatuses.value
                  else MayFollow(row.status, update.target))
              && (update.leaseOwner.None? || row.leaseOwner == update.leaseOwner)
              && (update.leaseEpoch.None? || update.leaseEpoch == Some(row.leaseEpoch))
    ensures Updated(update, row) ==
              JobRow(
                update.target,
                if update.result.Some? then update.result else row.result,
                if update.clearError then None else if update.error.Some? then update.error else row.error,
                if update.releaseLease then None else row.leaseOwner,
                if update.releaseLease then None else row.leaseExpiresAt,
                row.leaseEpoch)
  {
    TransitionTable(update.target);
  }

  /** A row that says SUCCESS can be neither claimed nor moved by an update that relies on the table. */
  lemma {:induction false} SuccessAdmitsNothing(update: StatusUpdate, row: JobRow, now: int)
    requires row.status == SUCCESS && update.expectedStatuses.None?
    ensures !Admits(update, row) && !Claimable(row, now)
  {
    TransitionTable(update.target);
  }
}

/** Sessions over the three tables, and the repositories that issue statements on them. */
module JobRepository {
  import opened Prelude
  import opened Domain
  import opened JobRows

  /** The committed contents of the jobs, job_events and outbox_messages tables. */
  datatype Tables = Tables(
    rows: map<JobId, JobRow>,
    events: map<JobId, seq<Event>>,
    outbox: seq<OutboxRow>)

  function LogOf(tables: Tables, id: JobId): seq<Event> {
    if id in tables.events then tables.events[id] else []
  }

  /** A unit of work: statements act on `tables`, and only `Database.Commit` makes them visible. */
  class Session {
    var tables: Tables

    constructor (committed: Tables)
      ensures tables == committed
    {
      tables := committed;
    }
  }

  class Database {
    var tables: Tables

    constructor ()
      ensures tables == Tables(map[], map[], [])
    {
      tables := Tables(map[], map[], []);
    }

    method Begin() returns (session: Session)
      ensures fresh(session) && session.tables == tables
    {
      session := new Session(tables);
    }

    method Commit(session: Session)
      modifies this
      ensures tables == session.tables
    {
      tables := session.tables;
    }
  }

  datatype UpdateOutcome = RowChanged(row: JobRow) | NoMatch | NoAllowedSource

  datatype JobLease = JobLease(owner: WorkerId, epoch: nat, expiresAt: int)

  /** The columns an UPDATE assigns, collected argument by argument. */
  datatype Assignments = Assignments(
    status: JobStatus,
    result: Option<Document>,
    error: Option<Option<string>>,
    clearLease: bool)

  /** The conjuncts of its WHERE clause beside the primary key. */
  datatype Conditions = Conditions(
    statuses: set<JobStatus>,
    owner: Option<WorkerId>,
    epoch: Option<nat>)

  class JobRepository {
    const session: Session

    constructor (session: Session)
      ensures this.session == session
    {
      this.session := session;
    }

    method Add(id: JobId, row: JobRow)
      modifies session
      ensures session.tables == old(session.tables).(rows := old(session.tables.rows)[id := row])
    {
      session.tables := session.tables.(rows := session.tables.rows[id := row]);
    }

    method Get(id: JobId) returns (row: Option<JobRow>)
      ensures row == if id in session.tables.rows then Some(session.tables.rows[id]) else None
    {
      row := if id in session.tables.rows then Some(session.tables.rows[id]) else None;
    }

    /** Runs one UPDATE ... RETURNING; the row is reported only when it matched. */
    method UpdateWhere(id: JobId, conditions: Conditions, values: Assignments) returns (row: Option<JobRow>)
      modifies session
      ensures session.tables.events == old(session.tables.events)
      ensures session.tables.outbox == old(session.tables.outbox)
      ensures row.Some? <==>
                && id in old(session.tables.rows)
                && old(session.tables.rows)[id].status in conditions.statuses
                && (conditions.owner.Some? ==> old(session.tables.rows)[id].leaseOwner == conditions.owner)
                && (conditions.epoch.Some? ==> old(session.tables.rows)[id].leaseEpoch == conditions.epoch.value)
      ensures row.None? ==> session.tables == old(session.tables)
      ensures row.Some? ==>
                && session.tables.rows == old(session.tables.rows)[id := row.value]
                && var before := old(session.tables.rows)[id];
                   row.value == before.(
                     status := values.status,
                     result := if values.result.Some? then values.result else before.result,
                     error := if values.error.Some? then values.error.value else before.error,
                     leaseOwner := if values.clearLease then None else before.leaseOwner,
                     leaseExpiresAt := if values.clearLease then None else before.leaseExpiresAt)
    {
      if id !in session.tables.rows {
        return None;
      }
      var current := session.tables.rows[id];
      if current.status !in conditions.statuses
         || (conditions.owner.Some? && current.leaseOwner != conditions.owner)
         || (conditions.epoch.Some? && current.leaseEpoch != conditions.epoch.value) {
        return None;
      }
      var next := current.(status := values.status);
      if values.result.Some? { next := next.(result := values.result); }
      if values.error.Some? { next := next.(error := values.error.value); }
      if values.clearLease { next := next.(leaseOwner := None, leaseExpiresAt := None); }
      session.tables := session.tables.(rows := session.tables.rows[id := next]);
      row := Some(next);
    }

    /** The compare-and-swap: it takes effect exactly when the row exists and meets the condition. */
    method UpdateStatus(id: JobId, update: StatusUpdate) returns (outcome: UpdateOutcome)
      modifies session
      ensures outcome.NoAllowedSource? <==> Sources(update) == {}
      ensures update.expectedStatuses.None? ==> (outcome.NoAllowedSource? <==> update.target == PENDING)
      ensures outcome.RowChanged? <==>
                id in old(session.tables.rows) && Admits(update, old(session.tables.rows)[id])
      ensures outcome.RowChanged? ==>
                && outcome.row == Updated(update, old(session.tables.rows)[id])
                && session.tables == old(session.tables).(rows := old(session.tables.rows)[id := outcome.row])
      ensures !outcome.RowChanged? ==> session.tables == old(session.tables)
      ensures outcome.RowChanged? <==>
                && id in old(session.tables.rows)
                && var row := old(session.tables.rows)[id];
                && (if update.expectedStatuses.Some? then row.status in update.expectedStatuses.value
                    else MayFollow(row.status, update.target))
                && (update.leaseOwner.None? || row.leaseOwner == update.leaseOwner)
                && (update.leaseEpoch.None? || update.leaseEpoch == Some(row.leaseEpoch))
      ensures outcome.RowChanged? ==>
                var row := old(session.tables.rows)[id];
                outcome.row == JobRow(
                  update.target,
                  if update.result.Some? then update.result else row.result,
                  if update.clearError then None else if update.error.Some? then update.error else row.error,
                  if update.releaseLease then None else row.leaseOwner,
                  if update.releaseLease then None else row.leaseExpiresAt,
                  row.leaseEpoch)
    {
      hide MayFollow;
      TransitionTable(update.target);
      if id in session.tables.rows {
        UpdateMeans(update, session.tables.rows[id]);
      }
      var sources := AllowedSourceStatuses(update.target);
      if update.expectedStatuses.Some? {
        sources := set s | s in update.expectedStatuses.value;
      }
      if sources == {} {
        return NoAllowedSource;
      }

      var values := Assignments(update.target, None, None, false);
      if update.result.Some? {
        values := values.(result := update.result);
      }
      if update.clearError {
        values := values.(error := Some(None));
      } else if update.error.Some? {
        values := values.(error := Some(update.error));
      }
      if update.releaseLease {
        values := values.(clearLease := true);
      }

      var conditions := Conditions(sources, None, None);
      if update.leaseOwner.Some? {
        conditions := conditions.(owner := update.leaseOwner);
      }
      if update.leaseEpoch.Some? {
        conditions := conditions.(epoch := update.leaseEpoch);
      }

      var row := UpdateWhere(id, conditions, values);
      outcome := if row.None? then NoMatch else RowChanged(row.value);
    }

    method ClaimForProcessing(id: JobId, owner: WorkerId, now: int, leaseSeconds: int)
      returns (lease: Option<JobLease>)
      modifies session
      ensures lease.Some? <==>
                id in old(session.tables.rows) && Claimable(old(session.tables.rows)[id], now)
      ensures lease.Some? <==>
                && id in old(session.tables.rows)
                && var row := old(session.tables.rows)[id];
                || row.status == PENDING || row.status == FAILED
                || (row.status == PROCESSING && (row.leaseExpiresAt.None? || row.leaseExpiresAt.value < now))
      ensures lease.Some? ==>
                && var row := old(session.tables.rows)[id];
                && id in session.tables.rows
                && session.tables.rows[id] ==
                     JobRow(PROCESSING, row.result, row.error, Some(owner), Some(now + leaseSeconds), row.leaseEpoch + 1)
      ensures lease.Some? ==>
                && var row := Claimed(old(session.tables.rows)[id], owner, now, leaseSeconds);
                && session.tables == old(session.tables).(rows := old(session.tables.rows)[id := row])
                && lease.value == JobLease(owner, row.leaseEpoch, now + leaseSeconds)
      ensures lease.None? ==> session.tables == old(session.tables)
    {
      var expiresAt := now + leaseSeconds;
      if id !in session.tables.rows {
        return None;
      }
      var current := session.tables.rows[id];
      var takeover := current.status == PROCESSING
                      && (current.leaseExpiresAt.None? || current.leaseExpiresAt.value < now);
      if current.status != PENDING && current.status != FAILED && !takeover {
        return None;
      }
      var next := current.(status := PROCESSING,
                           leaseOwner := Some(owner),
                           leaseExpiresAt := Some(expiresAt),
                           leaseEpoch := current.leaseEpoch + 1);
      session.tables := session.tables.(rows := session.tables.rows[id := next]);
      lease := Some(JobLease(owner, next.leaseEpoch, expiresAt));
    }

    method RenewLease(id: JobId, owner: WorkerId, epoch: nat, now: int, leaseSeconds: int)
      returns (renewed: bool)
      modifies session
      ensures renewed <==>
                id in old(session.tables.rows) && HoldsLease(old(session.tables.rows)[id], owner, epoch)
      ensures renewed <==>
                && id in old(session.tables.rows)
                && old(session.tables.rows)[id].leaseOwner == Some(owner)
                && old(session.tables.rows)[id].leaseEpoch == epoch
      ensures session.tables ==
                if renewed
                then old(session.tables).(rows := old(session.tables.rows)[id :=
                       old(session.tables.rows)[id].(leaseExpiresAt := Some(now + leaseSeconds))])
                else old(session.tables)
    {
      renewed := id in session.tables.rows
                 && session.tables.rows[id].leaseOwner == Some(owner)
                 && session.tables.rows[id].leaseEpoch == epoch;
      if renewed {
        var next := session.tables.rows[id].(leaseExpiresAt := Some(now + leaseSeconds));
        session.tables := session.tables.(rows := session.tables.rows[id := next]);
      }
    }
  }

  class EventRepository {
    const session: Session

    constructor (session: Session)
      ensures this.session == session
    {
      this.session := session;
    }

    method Add(id: JobId, event: Event)
      modifies session
      ensures session.tables == old(session.tables).(
                events := old(session.tables.events)[id := LogOf(old(session.tables), id) + [event]])
    {
      session.tables := session.tables.(
        events := session.tables.events[id := LogOf(session.tables, id) + [event]]);
    }
  }

  class OutboxRepository {
    const session: Session

    constructor (session: Session)
      ensures this.session == session
    {
      this.session := session;
    }

    method Add(topic: Topic, message: Message)
      modifies session
      ensures session.tables == old(session.tables).(
                outbox := old(session.tables.outbox) + [OutboxRow(topic, message, false, 0)])
    {
      session.tables := session.tables.(
        outbox := session.tables.outbox + [OutboxRow(topic, message, false, 0)]);
    }
  }
}
