/** The Redis reservation that makes a creation request idempotent. */
module Idempotency {
  import opened Prelude
  import opened Domain

  datatype RecordStatus = Processing | Completed

  /** The JSON value under one request key. */
  datatype Record = Record(status: RecordStatus, jobId: JobId)

  function RequestKey(key: string): string {
    "idem:req:" + key
  }

  /** Two requests share a record exactly when they carry the same key. */
  lemma {:induction false} RequestKeysAreInjective(a: string, b: string)
    ensures RequestKey(a) == RequestKey(b) <==> a == b
  {
    assert RequestKey(a)[9..] == a && RequestKey(b)[9..] == b;
  }

  /** The record a reader finds under a key. */
  function RecordOf(entries: map<string, Record>, key: string): Option<Record> {
    if RequestKey(key) in entries then Some(entries[RequestKey(key)]) else None
  }

  /** A stored record is read back under its own key, and no other key's reader notices. */
  lemma {:induction false} WritesAreReadBack(entries: map<string, Record>, key: string, record: Record, other: string)
    ensures var after := entries[RequestKey(key) := record];
            RecordOf(after, other) == if other == key then Some(record) else RecordOf(entries, other)
  {
    RequestKeysAreInjective(other, key);
  }

  class RedisIdempotencyStore {
    var entries: map<string, Record>

    constructor ()
      ensures entries == map[]
    {
      entries := map[];
    }

    method GetRequestRecord(key: string) returns (record: Option<Record>)
      ensures record == RecordOf(entries, key)
    {
      var name := RequestKey(key);
      record := if name in entries then Some(entries[name]) else None;
    }

    /** SET ... NX: the first reservation of a key stands. */
    method ReserveRequest(key: string, id: JobId) returns (reserved: bool)
      modifies this
      ensures reserved <==> RequestKey(key) !in old(entries)
      ensures entries == if reserved then old(entries)[RequestKey(key) := Record(Processing, id)] else old(entries)
    {
      var name := RequestKey(key);
      reserved := name !in entries;
      if reserved {
        entries := entries[name := Record(Processing, id)];
      }
    }

    method CompleteRequest(key: string, id: JobId)
      modifies this
      ensures entries == old(entries)[RequestKey(key) := Record(Completed, id)]
    {
      entries := entries[RequestKey(key) := Record(Completed, id)];
    }
  }
}

/** `JobService.create_job` called by any number of clients at once. */
module Creation {
  import opened Prelude
  import opened Domain
  import opened JobRepository
  import opened Attempts
  import opened Idempotency

  datatype CreateError = JobNotFound | UnableToReserve | Fault(error: string)

  /** Where one call stands between two of its awaits. */
  datatype Phase =
    | Looking                       // about to read the record of its key
    | Found(id: JobId)              // a record names a job; about to read that job
    | Drawn(id: JobId)              // no record; a job id is drawn, about to reserve
    | Refused                       // the key was taken meanwhile; about to read the record again
    | Reserved(id: JobId)           // about to commit the job
    | Committed(id: JobId)          // about to complete the reservation
    | Answered(id: JobId)
    | Errored(error: CreateError)
    | Crashed

  /** `key` is the name in the store of the key the call uses. */
  datatype Client = Client(key: string, body: Document, phase: Phase)

  datatype Creation = Creation(key: string, id: JobId, client: nat)

  /** `created` is the history of commits that took effect: under which key, which job, by which call. */
  datatype State = State(
    topic: Topic,
    records: map<string, Record>,
    tables: Tables,
    clients: seq<Client>,
    nextId: JobId,
    created: seq<Creation>)

  function Initial(topic: Topic): State {
    State(topic, map[], Tables(map[], map[], []), [], 0, [])
  }

  datatype Action =
    | Arrive(supplied: Option<string>, drawn: string, body: Document)
    | Look(client: nat)
    | ReadJob(client: nat)
    | Reserve(client: nat, fault: CommitFault)
    | LookAgain(client: nat)
    | Commit(client: nat, fault: CommitFault)
    | Complete(client: nat, fault: CommitFault)
    | Crash(client: nat)
    | Progress(job: JobId, row: JobRow, event: Event)        // a worker's committed step on an existing job
    | HandOff(target: Topic, message: Message)               // an outbox row for another stage
    | Mark(position: nat, published: bool, attempts: nat)    // a relay's committed step on an outbox row

  predicate Ended(phase: Phase) {
    phase.Answered? || phase.Errored? || phase.Crashed?
  }

  predicate Enabled(s: State, action: Action) {
    match action
    case Arrive(_, _, _) => true
    case Look(i) => i < |s.clients| && s.clients[i].phase.Looking?
    case ReadJob(i) => i < |s.clients| && s.clients[i].phase.Found?
    case Reserve(i, _) => i < |s.clients| && s.clients[i].phase.Drawn?
    case LookAgain(i) => i < |s.clients| && s.clients[i].phase.Refused?
    case Commit(i, _) => i < |s.clients| && s.clients[i].phase.Reserved?
    case Complete(i, _) => i < |s.clients| && s.clients[i].phase.Committed?
    case Crash(i) => i < |s.clients| && !Ended(s.clients[i].phase)
    case Progress(job, _, _) => job in s.tables.rows
    case HandOff(target, _) => target != s.topic
    case Mark(position, _, _) => position < |s.tables.outbox|
  }

  /** `idempotency_key or str(uuid4())`: a missing or empty key is replaced by a drawn one. */
  function KeyOf(supplied: Option<string>, drawn: string): string {
    if supplied.None? || supplied.value == "" then drawn else supplied.value
  }

  /** The one transaction of `create_job`. */
  function WithNewJob(tables: Tables, topic: Topic, id: JobId, body: Document): Tables {
    Tables(tables.rows[id := NEW_ROW],
           tables.events[id := LogOf(tables, id) + [Requested]],
           tables.outbox + [OutboxRow(topic, Message(id, body), false, 0)])
  }

  function Moved(s: State, i: nat, phase: Phase): State
    requires i < |s.clients|
  {
    s.(clients := s.clients[i := s.clients[i].(phase := phase)])
  }

  /** The call goes on, unless it sees an exception although the command took effect. */
  function Unless(fault: CommitFault, phase: Phase): Phase {
    if fault.CommitOk? then phase else Errored(Fault(fault.error))
  }

  function LookAt(s: State, i: nat, missing: State): State
    requires i < |s.clients|
  {
    var key := s.clients[i].key;
    if key in s.records then Moved(s, i, Found(s.records[key].jobId)) else missing
  }

  function Next(s: State, action: Action): State
    requires Enabled(s, action)
  {
    match action
    case Arrive(supplied, drawn, body) =>
      s.(clients := s.clients + [Client(RequestKey(KeyOf(supplied, drawn)), body, Looking)])
    case Look(i) => LookAt(s, i, Moved(s, i, Drawn(s.nextId)).(nextId := s.nextId + 1))
    case ReadJob(i) =>
      var id := s.clients[i].phase.id;
      Moved(s, i, if id in s.tables.rows then Answered(id) else Errored(JobNotFound))
    case Reserve(i, fault) =>
      var key, id := s.clients[i].key, s.clients[i].phase.id;
      if key in s.records then Moved(s, i, Unless(fault, Refused))
      else if fault.CommitLost? then Moved(s, i, Errored(Fault(fault.error)))
      else Moved(s, i, Unless(fault, Reserved(id))).(records := s.records[key := Record(Processing, id)])
    case LookAgain(i) => LookAt(s, i, Moved(s, i, Errored(UnableToReserve)))
    case Commit(i, fault) =>
      var key, id := s.clients[i].key, s.clients[i].phase.id;
      if fault.CommitLost? then Moved(s, i, Errored(Fault(fault.error)))
      else
        Moved(s, i, Unless(fault, Committed(id))).(
          tables := WithNewJob(s.tables, s.topic, id, s.clients[i].body),
          created := s.created + [Creation(key, id, i)])
    case Complete(i, fault) =>
      var key, id := s.clients[i].key, s.clients[i].phase.id;
      if fault.CommitLost? then Moved(s, i, Errored(Fault(fault.error)))
      else Moved(s, i, Unless(fault, Answered(id))).(records := s.records[key := Record(Completed, id)])
    case Crash(i) => Moved(s, i, Crashed)
    case Progress(job, row, event) =>
      s.(tables := s.tables.(rows := s.tables.rows[job := row],
                             events := s.tables.events[job := LogOf(s.tables, job) + [event]]))
    case HandOff(target, message) =>
      s.(tables := s.tables.(outbox := s.tables.outbox + [OutboxRow(target, message, false, 0)]))
    case Mark(k, published, attempts) =>
      var row := s.tables.outbox[k];
      s.(tables := s.tables.(outbox := s.tables.outbox[k := row.(published := published, attempts := attempts)]))
  }

  // ---------------------------------------------------------------- invariant

  /** The messages about a job that the outbox holds for the consume topic. */
  function Requests(outbox: seq<OutboxRow>, topic: Topic, id: JobId): seq<Message> {
    if outbox == [] then []
    else
      var last := outbox[|outbox| - 1];
      Requests(outbox[..|outbox| - 1], topic, id)
        + if last.topic == topic && last.message.job == id then [last.message] else []
  }

  ghost predicate Created(s: State, id: JobId) {
    exists n :: 0 <= n < |s.created| && s.created[n].id == id
  }

  ghost predicate Made(s: State, key: string, id: JobId) {
    exists n :: 0 <= n < |s.created| && s.created[n].key == key && s.created[n].id == id
  }

  /** The id a call has drawn and not yet committed. */
  function Pledge(phase: Phase): Option<JobId> {
    match phase
    case Drawn(id) => Some(id)
    case Reserved(id) => Some(id)
    case _ => None
  }

  ghost predicate StoreOk(s: State) {
    && (forall key :: key in s.records ==> s.records[key].jobId < s.nextId)
    && (forall a, b :: a in s.records && b in s.records && s.records[a].jobId == s.records[b].jobId ==> a == b)
  }

  ghost predicate CreatedOk(s: State) {
    && (forall n :: 0 <= n < |s.created| ==>
          s.created[n].key in s.records && s.records[s.created[n].key].jobId == s.created[n].id)
    && (forall m, n :: 0 <= m < n < |s.created| ==> s.created[m].key != s.created[n].key)
  }

  ghost predicate ClientOk(s: State, client: Client) {
    match client.phase
    case Found(id) => client.key in s.records && s.records[client.key].jobId == id
    case Drawn(id) => id < s.nextId && (forall key :: key in s.records ==> s.records[key].jobId != id)
    case Refused => client.key in s.records
    case Reserved(id) => client.key in s.records && s.records[client.key].jobId == id && !Created(s, id)
    case Committed(id) => Made(s, client.key, id)
    case Answered(id) => Made(s, client.key, id)
    case Errored(error) => error != UnableToReserve
    case _ => true
  }

  ghost predicate ClientsOk(s: State) {
    && (forall i :: 0 <= i < |s.clients| ==> ClientOk(s, s.clients[i]))
    && (forall i, j :: 0 <= i < j < |s.clients| && Pledge(s.clients[i].phase).Some? ==>
          Pledge(s.clients[i].phase) != Pledge(s.clients[j].phase))
  }

  ghost predicate JobOk(s: State, id: JobId) {
    if Created(s, id) then
      && id in s.tables.rows && id in s.tables.events
      && s.tables.events[id] != [] && s.tables.events[id][0] == Requested
      && |Requests(s.tables.outbox, s.topic, id)| == 1
    else
      id !in s.tables.rows && id !in s.tables.events && Requests(s.tables.outbox, s.topic, id) == []
  }

  ghost predicate TablesOk(s: State) {
    forall id :: JobOk(s, id)
  }

  /** The outbox carries, for a job, exactly the body with which the committing call was made, under its key. */
  ghost predicate CarriesItsBody(s: State, creation: Creation) {
    && creation.client < |s.clients|
    && s.clients[creation.client].key == creation.key
    && Requests(s.tables.outbox, s.topic, creation.id) == [Message(creation.id, s.clients[creation.client].body)]
  }

  ghost predicate BodiesOk(s: State) {
    forall n :: 0 <= n < |s.created| ==> CarriesItsBody(s, s.created[n])
  }

  ghost predicate Inv(s: State) {
    StoreOk(s) && CreatedOk(s) && ClientsOk(s) && TablesOk(s) && BodiesOk(s)
  }

  lemma {:induction false} RequestsOfAppend(outbox: seq<OutboxRow>, row: OutboxRow, topic: Topic, id: JobId)
    ensures Requests(outbox + [row], topic, id)
         == Requests(outbox, topic, id) + if row.topic == topic && row.message.job == id then [row.message] else []
  {
    assert (outbox + [row])[..|outbox|] == outbox;
  }

  /** Marking a row published or failed carries the same requests. */
  lemma {:induction false} RequestsOfMark(outbox: seq<OutboxRow>, k: nat, row: OutboxRow, topic: Topic, id: JobId)
    requires k < |outbox| && row.topic == outbox[k].topic && row.message == outbox[k].message
    ensures Requests(outbox[k := row], topic, id) == Requests(outbox, topic, id)
  {
    var n := |outbox| - 1;
    if k < n {
      assert outbox[k := row][..n] == outbox[..n][k := row];
      RequestsOfMark(outbox[..n], k, row, topic, id);
    } else {
      assert outbox[k := row][..n] == outbox[..n];
    }
  }

  lemma {:induction false} SameBodies(s: State, t: State)
    requires BodiesOk(s) && t.created == s.created && t.tables == s.tables && t.topic == s.topic
    requires |s.clients| <= |t.clients|
    requires forall i :: 0 <= i < |s.clients| ==> t.clients[i].key == s.clients[i].key && t.clients[i].body == s.clients[i].body
    ensures BodiesOk(t)
  {
    forall n | 0 <= n < |t.created| ensures CarriesItsBody(t, t.created[n]) {
      assert CarriesItsBody(s, s.created[n]);
    }
  }

  /** The part of a step that only concerns one call. */
  lemma {:induction false} MovedKeepsInv(s: State, i: nat, phase: Phase)
    requires Inv(s) && i < |s.clients|
    requires ClientOk(s, s.clients[i].(phase := phase))
    requires Pledge(phase).None? || Pledge(phase) == Pledge(s.clients[i].phase)
    ensures Inv(Moved(s, i, phase))
  {
    hide JobOk;
    var t := Moved(s, i, phase);
    forall id ensures Created(t, id) <==> Created(s, id) {}
    assert t.tables == s.tables && t.created == s.created;
    SameTables(s, t);
    SameBodies(s, t);
    SameClients(s, t, i);
  }

  lemma {:induction false} SameTables(s: State, t: State)
    requires TablesOk(s) && t.tables == s.tables && t.created == s.created && t.topic == s.topic
    ensures TablesOk(t)
  {
    forall id ensures JobOk(t, id) {
      assert JobOk(s, id);
    }
  }

  lemma {:induction false} SameClients(s: State, t: State, i: nat)
    requires ClientsOk(s) && i < |s.clients| && |t.clients| == |s.clients|
    requires forall j :: 0 <= j < |s.clients| && j != i ==> t.clients[j] == s.clients[j]
    requires t.records == s.records && t.created == s.created && s.nextId <= t.nextId
    requires ClientOk(t, t.clients[i])
    requires Pledge(t.clients[i].phase).None? || Pledge(t.clients[i].phase) == Pledge(s.clients[i].phase)
    ensures ClientsOk(t)
  {
    forall j | 0 <= j < |t.clients| ensures ClientOk(t, t.clients[j]) {
      assert ClientOk(s, s.clients[j]);
    }
  }

  lemma {:induction false} ArriveKeepsInv(s: State, client: Client)
    requires Inv(s) && client.phase == Looking
    ensures Inv(s.(clients := s.clients + [client]))
  {
    hide JobOk;
    var t := s.(clients := s.clients + [client]);
    SameTables(s, t);
    SameBodies(s, t);
    forall j | 0 <= j < |t.clients| ensures ClientOk(t, t.clients[j]) {
      if j < |s.clients| {
        assert ClientOk(s, s.clients[j]);
      }
    }
  }

  /** Drawing an id keeps it away from every record and every other call. */
  lemma {:induction false} DrawKeepsInv(s: State, i: nat)
    requires Inv(s) && i < |s.clients|
    requires forall j :: 0 <= j < |s.clients| && Pledge(s.clients[j].phase).Some? ==>
               Pledge(s.clients[j].phase).value < s.nextId
    ensures Inv(Moved(s, i, Drawn(s.nextId)).(nextId := s.nextId + 1))
  {
    hide JobOk, Created;
    var t := Moved(s, i, Drawn(s.nextId)).(nextId := s.nextId + 1);
    SameTables(s, t);
    SameBodies(s, t);
    forall j | 0 <= j < |t.clients| ensures ClientOk(t, t.clients[j]) {
      assert ClientOk(s, s.clients[j]);
      SameCreated(s, t);
    }
  }

  lemma {:induction false} SameCreated(s: State, t: State)
    requires t.created == s.created
    ensures forall id :: Created(t, id) <==> Created(s, id)
    ensures forall key, id :: Made(t, key, id) <==> Made(s, key, id)
  {
  }

  /** Every pledged id has been drawn. */
  lemma {:induction false} PledgesAreDrawn(s: State)
    requires Inv(s)
    ensures forall j :: 0 <= j < |s.clients| && Pledge(s.clients[j].phase).Some? ==>
              Pledge(s.clients[j].phase).value < s.nextId
  {
    hide JobOk, Created;
    forall j | 0 <= j < |s.clients| && Pledge(s.clients[j].phase).Some?
      ensures Pledge(s.clients[j].phase).value < s.nextId
    {
      assert ClientOk(s, s.clients[j]);
    }
  }

  lemma {:induction false} LookKeepsInv(s: State, i: nat)
    requires Inv(s) && Enabled(s, Look(i))
    ensures Inv(Next(s, Look(i)))
  {
    hide Inv, JobOk, Created;
    var key := s.clients[i].key;
    if key in s.records {
      assert ClientOk(s, s.clients[i].(phase := Found(s.records[key].jobId)));
      MovedKeepsInv(s, i, Found(s.records[key].jobId));
    } else {
      PledgesAreDrawn(s);
      DrawKeepsInv(s, i);
    }
  }

  lemma {:induction false} ClientIsOk(s: State, i: nat)
    requires Inv(s) && i < |s.clients|
    ensures ClientOk(s, s.clients[i])
  {
    hide JobOk, ClientOk;
  }

  lemma {:induction false} LookAgainKeepsInv(s: State, i: nat)
    requires Inv(s) && Enabled(s, LookAgain(i))
    ensures Inv(Next(s, LookAgain(i)))
  {
    hide Inv, JobOk, Created;
    ClientIsOk(s, i);
    MovedKeepsInv(s, i, Found(s.records[s.clients[i].key].jobId));
  }

  /** A job found under a key was created under that key. */
  lemma {:induction false} FoundWasCreated(s: State, key: string, id: JobId)
    requires Inv(s) && key in s.records && s.records[key].jobId == id && id in s.tables.rows
    ensures Made(s, key, id)
  {
    assert JobOk(s, id);
    var n :| 0 <= n < |s.created| && s.created[n].id == id;
    assert s.created[n].key == key;
  }

  lemma {:induction false} ReadJobKeepsInv(s: State, i: nat)
    requires Inv(s) && Enabled(s, ReadJob(i))
    ensures Inv(Next(s, ReadJob(i)))
  {
    hide Inv, JobOk, Created;
    ClientIsOk(s, i);
    var id := s.clients[i].phase.id;
    if id in s.tables.rows {
      FoundWasCreated(s, s.clients[i].key, id);
      MovedKeepsInv(s, i, Answered(id));
    } else {
      MovedKeepsInv(s, i, Errored(JobNotFound));
    }
  }

  /** A new reservation: the key was free, and the id was drawn by this call alone. */
  lemma {:induction false} ReserveTakes(s: State, i: nat, phase: Phase)
    requires Inv(s) && Enabled(s, Reserve(i, CommitOk)) && s.clients[i].key !in s.records
    requires phase == Reserved(s.clients[i].phase.id) || (phase.Errored? && phase.error.Fault?)
    ensures Inv(Moved(s, i, phase).(records := s.records[s.clients[i].key := Record(Processing, s.clients[i].phase.id)]))
  {
    hide JobOk;
    ClientIsOk(s, i);
    var key, id := s.clients[i].key, s.clients[i].phase.id;
    var t := Moved(s, i, phase).(records := s.records[key := Record(Processing, id)]);
    SameTables(s, t);
    SameBodies(s, t);
    SameCreated(s, t);
    NotYetCreated(s, id);
    forall j | 0 <= j < |t.clients| ensures ClientOk(t, t.clients[j]) {
      assert ClientOk(s, s.clients[j]);
      if j < i {
        assert Pledge(s.clients[j].phase) != Some(id);
      } else if i < j {
        assert Pledge(s.clients[j].phase) != Some(id);
      }
    }
  }

  /** An id that no record names was never committed. */
  lemma {:induction false} NotYetCreated(s: State, id: JobId)
    requires CreatedOk(s) && forall key :: key in s.records ==> s.records[key].jobId != id
    ensures !Created(s, id)
  {
  }

  lemma {:induction false} ReserveKeepsInv(s: State, i: nat, fault: CommitFault)
    requires Inv(s) && Enabled(s, Reserve(i, fault))
    ensures Inv(Next(s, Reserve(i, fault)))
  {
    hide Inv, JobOk, Created;
    if s.clients[i].key in s.records {
      MovedKeepsInv(s, i, Unless(fault, Refused));
    } else if fault.CommitLost? {
      MovedKeepsInv(s, i, Errored(Fault(fault.error)));
    } else {
      ReserveTakes(s, i, Unless(fault, Reserved(s.clients[i].phase.id)));
    }
  }

  lemma {:induction false} CreatedAfter(s: State, t: State, key: string, id: JobId)
    requires |t.created| == |s.created| + 1 && t.created[..|s.created|] == s.created
    requires t.created[|s.created|].key == key && t.created[|s.created|].id == id
    ensures forall other :: Created(t, other) <==> Created(s, other) || other == id
    ensures forall k, j :: Made(t, k, j) <==> Made(s, k, j) || (k == key && j == id)
  {
    forall other | Created(s, other) || other == id ensures Created(t, other) {
      if other == id {
        assert t.created[|s.created|].id == id;
      } else {
        var n :| 0 <= n < |s.created| && s.created[n].id == other;
        assert t.created[n].id == other;
      }
    }
    forall k, j | Made(s, k, j) || (k == key && j == id) ensures Made(t, k, j) {
      if k == key && j == id {
        assert t.created[|s.created|].id == id;
      } else {
        var n :| 0 <= n < |s.created| && s.created[n].key == k && s.created[n].id == j;
        assert t.created[n].id == j;
      }
    }
  }

  lemma {:induction false} CommitKeepsTables(s: State, i: nat, phase: Phase)
    requires Inv(s) && Enabled(s, Commit(i, CommitOk))
    ensures TablesOk(AfterCommit(s, i, phase))
  {
    var key, id := s.clients[i].key, s.clients[i].phase.id;
    var t := AfterCommit(s, i, phase);
    NotCreatedYet(s, i);
    CreatedAfter(s, t, key, id);
    hide Created, Made, ClientOk, CarriesItsBody;
    forall other ensures JobOk(t, other) {
      assert JobOk(s, other);
      RequestsOfAppend(s.tables.outbox, OutboxRow(s.topic, Message(id, s.clients[i].body), false, 0), s.topic, other);
    }
  }

  lemma {:induction false} KeyIsNew(s: State, key: string, id: JobId)
    requires CreatedOk(s) && key in s.records && s.records[key].jobId == id && !Created(s, id)
    ensures !HasJob(s, key)
  {
  }

  /** What a commit that takes effect leaves behind. */
  function AfterCommit(s: State, i: nat, phase: Phase): State
    requires i < |s.clients| && s.clients[i].phase.Reserved?
  {
    var id := s.clients[i].phase.id;
    Moved(s, i, phase).(tables := WithNewJob(s.tables, s.topic, id, s.clients[i].body),
                        created := s.created + [Creation(s.clients[i].key, id, i)])
  }

  lemma {:induction false} CommitKeepsBodies(s: State, i: nat, phase: Phase)
    requires Inv(s) && Enabled(s, Commit(i, CommitOk))
    ensures BodiesOk(AfterCommit(s, i, phase))
  {
    hide ClientOk;
    var t := AfterCommit(s, i, phase);
    var id := s.clients[i].phase.id;
    var row := OutboxRow(s.topic, Message(id, s.clients[i].body), false, 0);
    NotCreatedYet(s, i);
    assert JobOk(s, id);
    forall n | 0 <= n < |t.created| ensures CarriesItsBody(t, t.created[n]) {
      RequestsOfAppend(s.tables.outbox, row, s.topic, t.created[n].id);
      if n < |s.created| {
        assert CarriesItsBody(s, s.created[n]);
        assert s.created[n].id != id;
      }
    }
  }

  lemma {:induction false} NotCreatedYet(s: State, i: nat)
    requires Inv(s) && i < |s.clients| && s.clients[i].phase.Reserved?
    ensures var key, id := s.clients[i].key, s.clients[i].phase.id;
            !Created(s, id) && key in s.records && s.records[key].jobId == id
  {
    hide JobOk, CarriesItsBody;
    ClientIsOk(s, i);
  }

  /** No other call is about to commit the same id. */
  lemma {:induction false} CommitKeepsClients(s: State, i: nat, phase: Phase)
    requires Inv(s) && Enabled(s, Commit(i, CommitOk))
    requires phase == Committed(s.clients[i].phase.id) || (phase.Errored? && phase.error.Fault?)
    ensures ClientsOk(AfterCommit(s, i, phase))
  {
    var key, id := s.clients[i].key, s.clients[i].phase.id;
    var t := AfterCommit(s, i, phase);
    CreatedAfter(s, t, key, id);
    hide JobOk, CarriesItsBody, Created, Made;
    forall j | 0 <= j < |t.clients| ensures ClientOk(t, t.clients[j]) {
      assert ClientOk(s, s.clients[j]);
      if j < i {
        assert Pledge(s.clients[j].phase) != Some(id);
      } else if i < j {
        assert Pledge(s.clients[j].phase) != Some(id);
      }
    }
  }

  /** A commit is the first one for its key. */
  lemma {:induction false} CommitKeepsCreated(s: State, i: nat, phase: Phase)
    requires Inv(s) && Enabled(s, Commit(i, CommitOk))
    ensures CreatedOk(AfterCommit(s, i, phase)) && StoreOk(AfterCommit(s, i, phase))
  {
    NotCreatedYet(s, i);
    KeyIsNew(s, s.clients[i].key, s.clients[i].phase.id);
    hide JobOk, CarriesItsBody, ClientOk, Created;
  }

  lemma {:induction false} CommitTakes(s: State, i: nat, phase: Phase)
    requires Inv(s) && Enabled(s, Commit(i, CommitOk))
    requires phase == Committed(s.clients[i].phase.id) || (phase.Errored? && phase.error.Fault?)
    ensures Inv(AfterCommit(s, i, phase))
  {
    CommitKeepsTables(s, i, phase);
    CommitKeepsBodies(s, i, phase);
    CommitKeepsClients(s, i, phase);
    CommitKeepsCreated(s, i, phase);
    hide StoreOk, CreatedOk, ClientsOk, TablesOk, BodiesOk, AfterCommit;
  }

  lemma {:induction false} CommitKeepsInv(s: State, i: nat, fault: CommitFault)
    requires Inv(s) && Enabled(s, Commit(i, fault))
    ensures Inv(Next(s, Commit(i, fault)))
  {
    hide Inv, JobOk, Created;
    if fault.CommitLost? {
      MovedKeepsInv(s, i, Errored(Fault(fault.error)));
    } else {
      CommitTakes(s, i, Unless(fault, Committed(s.clients[i].phase.id)));
    }
  }

  lemma {:induction false} CompleteTakes(s: State, i: nat, phase: Phase)
    requires Inv(s) && Enabled(s, Complete(i, CommitOk))
    requires phase == Answered(s.clients[i].phase.id) || (phase.Errored? && phase.error.Fault?)
    ensures Inv(Moved(s, i, phase).(records := s.records[s.clients[i].key := Record(Completed, s.clients[i].phase.id)]))
  {
    CommittedIsMade(s, i);
    hide JobOk, CarriesItsBody;
    var key, id := s.clients[i].key, s.clients[i].phase.id;
    var t := Moved(s, i, phase).(records := s.records[key := Record(Completed, id)]);
    SameTables(s, t);
    SameBodies(s, t);
    SameCreated(s, t);
    hide Created, Made;
    forall j | 0 <= j < |t.clients| ensures ClientOk(t, t.clients[j]) {
      assert ClientOk(s, s.clients[j]);
    }
  }

  lemma {:induction false} CommittedIsMade(s: State, i: nat)
    requires Inv(s) && i < |s.clients| && s.clients[i].phase.Committed?
    ensures var key, id := s.clients[i].key, s.clients[i].phase.id;
            Made(s, key, id) && key in s.records && s.records[key].jobId == id
  {
    hide JobOk, CarriesItsBody;
    ClientIsOk(s, i);
  }

  lemma {:induction false} CompleteKeepsInv(s: State, i: nat, fault: CommitFault)
    requires Inv(s) && Enabled(s, Complete(i, fault))
    ensures Inv(Next(s, Complete(i, fault)))
  {
    hide Inv, JobOk, Created;
    if fault.CommitLost? {
      MovedKeepsInv(s, i, Errored(Fault(fault.error)));
    } else {
      CompleteTakes(s, i, Unless(fault, Answered(s.clients[i].phase.id)));
    }
  }

  /** Workers and relays neither add nor remove a request. */
  lemma {:induction false} PipelineKeepsRequests(s: State, action: Action, id: JobId)
    requires Enabled(s, action)
    requires action.Progress? || action.HandOff? || action.Mark?
    ensures Requests(Next(s, action).tables.outbox, s.topic, id) == Requests(s.tables.outbox, s.topic, id)
  {
    match action
    case HandOff(target, message) =>
      RequestsOfAppend(s.tables.outbox, OutboxRow(target, message, false, 0), s.topic, id);
    case Mark(k, published, attempts) =>
      var row := s.tables.outbox[k];
      RequestsOfMark(s.tables.outbox, k, row.(published := published, attempts := attempts), s.topic, id);
    case _ =>
  }

  lemma {:induction false} PipelineKeepsTables(s: State, action: Action)
    requires Inv(s) && Enabled(s, action)
    requires action.Progress? || action.HandOff? || action.Mark?
    ensures TablesOk(Next(s, action)) && BodiesOk(Next(s, action))
  {
    var t := Next(s, action);
    SameCreated(s, t);
    hide Created, Made, ClientOk, Requests;
    forall id ensures JobOk(t, id) {
      assert JobOk(s, id);
      PipelineKeepsRequests(s, action, id);
      if action.Progress? {
        assert JobOk(s, action.job);
      }
    }
    forall n | 0 <= n < |t.created| ensures CarriesItsBody(t, t.created[n]) {
      assert CarriesItsBody(s, s.created[n]);
      PipelineKeepsRequests(s, action, s.created[n].id);
    }
  }

  /** Workers and relays change rows, logs and marks, and neither add nor remove a job or its request. */
  lemma {:induction false} PipelineKeepsInv(s: State, action: Action)
    requires Inv(s) && Enabled(s, action)
    requires action.Progress? || action.HandOff? || action.Mark?
    ensures Inv(Next(s, action))
  {
    var t := Next(s, action);
    PipelineKeepsTables(s, action);
    SameCreated(s, t);
    hide Created, Made, TablesOk, BodiesOk;
    forall j | 0 <= j < |t.clients| ensures ClientOk(t, t.clients[j]) {
      assert ClientOk(s, s.clients[j]);
    }
  }

  lemma {:induction false} StepKeepsInv(s: State, action: Action)
    requires Inv(s) && Enabled(s, action)
    ensures Inv(Next(s, action))
  {
    hide Inv, Created;
    match action
    case Arrive(supplied, drawn, body) => ArriveKeepsInv(s, Client(RequestKey(KeyOf(supplied, drawn)), body, Looking));
    case Look(i) => LookKeepsInv(s, i);
    case ReadJob(i) => ReadJobKeepsInv(s, i);
    case Reserve(i, fault) => ReserveKeepsInv(s, i, fault);
    case LookAgain(i) => LookAgainKeepsInv(s, i);
    case Commit(i, fault) => CommitKeepsInv(s, i, fault);
    case Complete(i, fault) => CompleteKeepsInv(s, i, fault);
    case Crash(i) => MovedKeepsInv(s, i, Crashed);
    case _ => PipelineKeepsInv(s, action);
  }

  // ---------------------------------------------------------------- runs

  predicate Legal(s: State, actions: seq<Action>)
    decreases |actions|
  {
    actions == [] || (Enabled(s, actions[0]) && Legal(Next(s, actions[0]), actions[1..]))
  }

  function Exec(s: State, actions: seq<Action>): State
    requires Legal(s, actions)
    decreases |actions|
  {
    if actions == [] then s else Exec(Next(s, actions[0]), actions[1..])
  }

  lemma {:induction false} RunKeepsInv(s: State, actions: seq<Action>)
    requires Inv(s) && Legal(s, actions)
    ensures Inv(Exec(s, actions))
    decreases |actions|
  {
    hide Inv, Next, Enabled;
    if actions != [] {
      StepKeepsInv(s, actions[0]);
      RunKeepsInv(Next(s, actions[0]), actions[1..]);
    }
  }

  lemma {:induction false} Initially(topic: Topic)
    ensures Inv(Initial(topic))
  {
  }

  /** At most one job is ever committed under a key, and no job under two keys. */
  lemma {:induction false} OneJobPerKey(topic: Topic, actions: seq<Action>)
    requires Legal(Initial(topic), actions)
    ensures var created := Exec(Initial(topic), actions).created;
            forall m, n :: 0 <= m < n < |created| ==>
              created[m].key != created[n].key && created[m].id != created[n].id
  {
    hide Legal, Exec, JobOk, ClientOk, Next, Enabled;
    Initially(topic);
    RunKeepsInv(Initial(topic), actions);
  }

  /** Every successful answer names a committed job, and two answers name the same job exactly when they
      answer the same key. */
  lemma {:induction false} SameKeySameJob(topic: Topic, actions: seq<Action>, i: nat, j: nat)
    requires Legal(Initial(topic), actions)
    requires var s := Exec(Initial(topic), actions);
             i < |s.clients| && j < |s.clients| && s.clients[i].phase.Answered? && s.clients[j].phase.Answered?
    ensures var s := Exec(Initial(topic), actions);
            && s.clients[i].phase.id in s.tables.rows
            && (s.clients[i].key == s.clients[j].key <==> s.clients[i].phase.id == s.clients[j].phase.id)
  {
    hide Legal, Exec, Next, Enabled;
    Initially(topic);
    RunKeepsInv(Initial(topic), actions);
    var s := Exec(Initial(topic), actions);
    ClientIsOk(s, i);
    ClientIsOk(s, j);
    assert JobOk(s, s.clients[i].phase.id);
  }

  /** A job's row, its log, opening with the request event, and its one outbox row exist together or not at
      all, whatever workers and relays do meanwhile. */
  lemma {:induction false} RowEventAndOutboxTogether(topic: Topic, actions: seq<Action>, id: JobId)
    requires Legal(Initial(topic), actions)
    ensures var t := Exec(Initial(topic), actions).tables;
            || (id in t.rows && LogOf(t, id) != [] && LogOf(t, id)[0] == Requested && |Requests(t.outbox, topic, id)| == 1)
            || (id !in t.rows && LogOf(t, id) == [] && Requests(t.outbox, topic, id) == [])
  {
    hide Legal, Exec, Next, Enabled, Created, ClientOk;
    Initially(topic);
    RunKeepsInv(Initial(topic), actions);
    SameTopic(Initial(topic), actions);
    assert JobOk(Exec(Initial(topic), actions), id);
  }

  /** And that outbox row carries, for every commit in any run, exactly the body of the call that committed it. */
  lemma {:induction false} RequestCarriesTheCallersBody(topic: Topic, actions: seq<Action>, n: nat)
    requires Legal(Initial(topic), actions) && n < |Exec(Initial(topic), actions).created|
    ensures var s := Exec(Initial(topic), actions);
            var creation := s.created[n];
            && creation.client < |Calls(actions)| && Calls(actions)[creation.client].0 == creation.key
            && Requests(s.tables.outbox, topic, creation.id)
                 == [Message(creation.id, Calls(actions)[creation.client].1)]
  {
    hide Legal, Exec, Next, Enabled, Created, ClientOk, JobOk, Requests, Calls;
    Initially(topic);
    RunKeepsInv(Initial(topic), actions);
    SameTopic(Initial(topic), actions);
    RunCalls(Initial(topic), actions);
    var s := Exec(Initial(topic), actions);
    assert CarriesItsBody(s, s.created[n]);
    assert KeysAndBodies([]) == [];
    assert KeysAndBodies(s.clients) == Calls(actions);
  }

  /** The calls of a run: under which store name, and with what body. */
  function Calls(actions: seq<Action>): seq<(string, Document)> {
    if actions == [] then []
    else
      (match actions[0]
       case Arrive(supplied, drawn, body) =>
         [("idem:req:" + if supplied.Some? && |supplied.value| > 0 then supplied.value else drawn, body)]
       case _ => []) + Calls(actions[1..])
  }

  function KeysAndBodies(clients: seq<Client>): seq<(string, Document)> {
    seq(|clients|, i requires 0 <= i < |clients| => (clients[i].key, clients[i].body))
  }

  lemma {:induction false} StepCalls(s: State, action: Action)
    requires Enabled(s, action)
    ensures KeysAndBodies(Next(s, action).clients) == KeysAndBodies(s.clients) + Calls([action])
  {
    assert [action][1..] == [];
  }

  lemma {:induction false} RunCalls(s: State, actions: seq<Action>)
    requires Legal(s, actions)
    ensures KeysAndBodies(Exec(s, actions).clients) == KeysAndBodies(s.clients) + Calls(actions)
    decreases |actions|
  {
    hide Next, Enabled, KeysAndBodies;
    if actions != [] {
      var t := Next(s, actions[0]);
      StepCalls(s, actions[0]);
      RunCalls(t, actions[1..]);
      assert [actions[0]][1..] == [];
      assert Calls(actions) == Calls([actions[0]]) + Calls(actions[1..]);
      Associative(KeysAndBodies(s.clients), Calls([actions[0]]), Calls(actions[1..]));
    }
  }

  // ---------------------------------------------------------------- progress

  lemma {:induction false} StartWith(s: State, action: Action, rest: seq<Action>) returns (actions: seq<Action>)
    requires Enabled(s, action) && Legal(Next(s, action), rest)
    ensures Legal(s, actions) && Exec(s, actions) == Exec(Next(s, action), rest)
  {
    hide Next, Enabled;
    actions := [action] + rest;
    assert actions[1..] == rest;
  }

  /** However the other calls stand, a call with a key that nobody has reserved can get its own new job. */
  lemma {:induction false} NewKeyCanGetAJob(s: State, key: string, body: Document) returns (actions: seq<Action>)
    requires key != "" && RequestKey(key) !in s.records
    ensures Legal(s, actions)
    ensures var t := Exec(s, actions);
            && t.clients == s.clients + [Client("idem:req:" + key, body, Answered(s.nextId))]
            && t.records == s.records[RequestKey(key) := Record(Completed, s.nextId)]
            && t.tables == Tables(
                 s.tables.rows[s.nextId := JobRow(PENDING, None, None, None, None, 0)],
                 s.tables.events[s.nextId := LogOf(s.tables, s.nextId) + [Requested]],
                 s.tables.outbox + [OutboxRow(s.topic, Message(s.nextId, body), false, 0)])
  {
    var i := |s.clients|;
    var s1 := Next(s, Arrive(Some(key), "", body));
    var s2 := Next(s1, Look(i));
    var s3 := Next(s2, Reserve(i, CommitOk));
    var s4 := Next(s3, Commit(i, CommitOk));
    var s5 := Next(s4, Complete(i, CommitOk));
    assert s5.clients == s.clients + [Client(RequestKey(key), body, Answered(s.nextId))];
    var none: seq<Action> := [];
    actions := StartWith(s4, Complete(i, CommitOk), none);
    actions := StartWith(s3, Commit(i, CommitOk), actions);
    actions := StartWith(s2, Reserve(i, CommitOk), actions);
    actions := StartWith(s1, Look(i), actions);
    actions := StartWith(s, Arrive(Some(key), "", body), actions);
  }

  /** A repeated call can get the job its key names, and then nothing is written. */
  lemma {:induction false} OldKeyCanGetItsJob(s: State, key: string, body: Document) returns (actions: seq<Action>)
    requires key != "" && RequestKey(key) in s.records && s.records[RequestKey(key)].jobId in s.tables.rows
    ensures Legal(s, actions)
    ensures var t := Exec(s, actions);
            && t.clients == s.clients + [Client("idem:req:" + key, body, Answered(s.records[RequestKey(key)].jobId))]
            && t.records == s.records && t.tables == s.tables
  {
    var i := |s.clients|;
    var s1 := Next(s, Arrive(Some(key), "", body));
    var s2 := Next(s1, Look(i));
    var s3 := Next(s2, ReadJob(i));
    assert s3.clients == s.clients + [Client(RequestKey(key), body, Answered(s.records[RequestKey(key)].jobId))];
    var none: seq<Action> := [];
    actions := StartWith(s2, ReadJob(i), none);
    actions := StartWith(s1, Look(i), actions);
    actions := StartWith(s, Arrive(Some(key), "", body), actions);
  }

  lemma {:induction false} SameTopic(s: State, actions: seq<Action>)
    requires Legal(s, actions)
    ensures Exec(s, actions).topic == s.topic
    decreases |actions|
  {
    if actions != [] {
      SameTopic(Next(s, actions[0]), actions[1..]);
    }
  }

  /** Without expiry the error "Unable to reserve idempotency key" is never answered. */
  lemma {:induction false} ReservationIsNeverRefusedWithoutARecord(topic: Topic, actions: seq<Action>, i: nat)
    requires Legal(Initial(topic), actions) && i < |Exec(Initial(topic), actions).clients|
    ensures Exec(Initial(topic), actions).clients[i].phase != Errored(UnableToReserve)
  {
    hide Legal, Exec, Next, Enabled, Inv, Created;
    Initially(topic);
    RunKeepsInv(Initial(topic), actions);
    ClientIsOk(Exec(Initial(topic), actions), i);
  }

  // ---------------------------------------------------------------- abandoned keys

  ghost predicate HasJob(s: State, key: string) {
    exists n :: 0 <= n < |s.created| && s.created[n].key == key
  }

  /** Some call that reserved the key may still commit. */
  ghost predicate Pending(s: State, key: string) {
    exists i :: 0 <= i < |s.clients| && s.clients[i].key == key && s.clients[i].phase.Reserved?
  }

  /** The key is reserved, its job was not committed, and the call that reserved it is gone. */
  ghost predicate Abandoned(s: State, key: string) {
    key in s.records && !HasJob(s, key) && !Pending(s, key)
  }

  lemma {:induction false} StepKeepsAbandoned(s: State, action: Action, key: string)
    requires Inv(s) && Enabled(s, action) && Abandoned(s, key)
    ensures Abandoned(Next(s, action), key)
  {
    hide Inv, JobOk, Created, ClientOk;
    var t := Next(s, action);
    forall n | 0 <= n < |t.created| ensures t.created[n].key != key {
      if n >= |s.created| {
        assert s.clients[action.client].phase.Reserved?;
      }
    }
    forall i | 0 <= i < |t.clients| && t.clients[i].key == key ensures !t.clients[i].phase.Reserved? {
      assert i < |s.clients| ==> s.clients[i].key == key;
    }
  }

  lemma {:induction false} RunKeepsAbandoned(s: State, actions: seq<Action>, key: string)
    requires Inv(s) && Legal(s, actions) && Abandoned(s, key)
    ensures Inv(Exec(s, actions)) && Abandoned(Exec(s, actions), key)
    decreases |actions|
  {
    hide Inv, Abandoned, Next, Enabled;
    if actions != [] {
      StepKeepsInv(s, actions[0]);
      StepKeepsAbandoned(s, actions[0], key);
      RunKeepsAbandoned(Next(s, actions[0]), actions[1..], key);
    }
  }

  /** A reserved key can still get its job exactly when it has it or the reserving call is about to commit. */
  lemma {:induction false} ReservedKeyGetsAJobIff(s: State, key: string)
    requires Inv(s) && key in s.records
    ensures (exists actions :: Legal(s, actions) && HasJob(Exec(s, actions), key))
       <==> HasJob(s, key) || Pending(s, key)
  {
    hide Inv, Legal, Exec, HasJob, Pending;
    if HasJob(s, key) {
      var actions := StandingStillKeepsAJob(s, key);
      assert Legal(s, actions) && HasJob(Exec(s, actions), key);
    } else if Pending(s, key) {
      var actions := CommitGivesAJob(s, key);
      assert Legal(s, actions) && HasJob(Exec(s, actions), key);
    } else {
      forall actions | Legal(s, actions) ensures !HasJob(Exec(s, actions), key) {
        AbandonedGetsNoJob(s, actions, key);
      }
    }
  }

  lemma {:induction false} StandingStillKeepsAJob(s: State, key: string) returns (actions: seq<Action>)
    requires HasJob(s, key)
    ensures Legal(s, actions) && HasJob(Exec(s, actions), key)
  {
    actions := [];
  }

  lemma {:induction false} AbandonedGetsNoJob(s: State, actions: seq<Action>, key: string)
    requires Inv(s) && key in s.records && !HasJob(s, key) && !Pending(s, key) && Legal(s, actions)
    ensures !HasJob(Exec(s, actions), key)
  {
    hide Inv, Legal, Exec, HasJob, Pending;
    RunKeepsAbandoned(s, actions, key);
  }

  lemma {:induction false} CommitGivesAJob(s: State, key: string) returns (actions: seq<Action>)
    requires Pending(s, key)
    ensures Legal(s, actions) && HasJob(Exec(s, actions), key)
  {
    var i :| 0 <= i < |s.clients| && s.clients[i].key == key && s.clients[i].phase.Reserved?;
    var action := Commit(i, CommitOk);
    var t := Next(s, action);
    actions := [action];
    assert actions[1..] == [];
    assert Legal(t, actions[1..]) && Exec(t, actions[1..]) == t;
    assert t.created[|s.created|].key == key;
  }

  /** From then on no call with an abandoned key is ever answered with a job. */
  lemma {:induction false} AbandonedKeyIsNeverAnswered(s: State, actions: seq<Action>, key: string, i: nat)
    requires Inv(s) && Abandoned(s, key) && Legal(s, actions)
    requires i < |Exec(s, actions).clients| && Exec(s, actions).clients[i].key == key
    ensures !Exec(s, actions).clients[i].phase.Answered?
  {
    hide Inv, Legal, Exec, Created;
    RunKeepsAbandoned(s, actions, key);
    ClientIsOk(Exec(s, actions), i);
  }

  /** Such keys arise: a client that dies between its reservation and its commit leaves one behind, whatever
      key it used, so repeating the request with the same key is then of no use. */
  lemma {:induction false} CrashAbandonsItsKey(topic: Topic, supplied: string, body: Document)
    requires supplied != ""
    ensures var actions := [Arrive(Some(supplied), "", body), Look(0), Reserve(0, CommitOk), Crash(0)];
            && Legal(Initial(topic), actions)
            && Inv(Exec(Initial(topic), actions))
            && Abandoned(Exec(Initial(topic), actions), RequestKey(supplied))
  {
    hide Inv;
    var actions := [Arrive(Some(supplied), "", body), Look(0), Reserve(0, CommitOk), Crash(0)];
    var a := Next(Initial(topic), actions[0]);
    var b := Next(a, actions[1]);
    var c := Next(b, actions[2]);
    var d := Next(c, actions[3]);
    assert actions[1..][1..][1..][1..] == [];
    assert Legal(c, actions[3..]) && Exec(c, actions[3..]) == d by { assert actions[3..][1..] == []; }
    assert Legal(b, actions[2..]) && Exec(b, actions[2..]) == d by { assert actions[2..][1..] == actions[3..]; }
    assert Legal(a, actions[1..]) && Exec(a, actions[1..]) == d by { assert actions[1..][1..] == actions[2..]; }
    Initially(topic);
    RunKeepsInv(Initial(topic), actions);
  }
}

/** `JobService.create_job` as one client runs it, with the other clients and the workers in between. */
module JobService {
  import opened Prelude
  import opened Domain
  import opened JobRows
  import opened JobRepository
  import opened Attempts
  import opened Idempotency
  import opened Creation

  datatype Answer = Job(id: JobId, row: JobRow) | Error(error: CreateError)

  datatype World = World(entries: map<string, Record>, tables: Tables)

  /** A job whose row, log and one outbox row, with the given body, are there. */
  ghost predicate Exists(tables: Tables, topic: Topic, id: JobId, body: Document) {
    && id in tables.rows
    && LogOf(tables, id) != [] && LogOf(tables, id)[0] == Requested
    && Requests(tables.outbox, topic, id) == [Message(id, body)]
  }

  ghost predicate Absent(tables: Tables, topic: Topic, id: JobId) {
    id !in tables.rows && LogOf(tables, id) == [] && Requests(tables.outbox, topic, id) == []
  }

  /** What the rest of the system may do between two awaits of a call that has drawn `mine`: no record
      changes the job it names, jobs stay, and nobody writes about an id that only this call knows. */
  ghost predicate Rely(before: World, after: World, topic: Topic, mine: JobId) {
    && (forall key :: key in before.entries ==>
          key in after.entries && after.entries[key].jobId == before.entries[key].jobId)
    && (forall id :: id in before.tables.rows ==> id in after.tables.rows)
    && (forall body :: Exists(before.tables, topic, mine, body) ==> Exists(after.tables, topic, mine, body))
    && (Absent(before.tables, topic, mine) ==> Absent(after.tables, topic, mine))
  }

  /** What the rest of the system does in each gap between two awaits. */
  type Environment = (nat, World) -> World

  ghost predicate Respects(others: Environment, topic: Topic, mine: JobId) {
    forall gap, world :: Rely(world, others(gap, world), topic, mine)
  }

  ghost predicate Undisturbed(others: Environment) {
    forall gap, world :: others(gap, world) == world
  }

  ghost predicate FaultFree(met: Circumstances) {
    met.reserveFault.CommitOk? && met.commitFault.CommitOk? && met.completeFault.CommitOk?
  }

  /** What the two UUID generators return, and the faults met on the way. */
  datatype Circumstances = Circumstances(
    drawnKey: string,
    jobId: JobId,
    reserveFault: CommitFault,
    commitFault: CommitFault,
    completeFault: CommitFault)

  class JobService {
    const db: Database
    const store: RedisIdempotencyStore
    const topic: Topic

    constructor (db: Database, store: RedisIdempotencyStore, topic: Topic)
      ensures this.db == db && this.store == store && this.topic == topic
    {
      this.db, this.store, this.topic := db, store, topic;
    }

    ghost function Now(): World
      reads db, store
    {
      World(store.entries, db.tables)
    }

    method LetOthersRun(others: Environment, gap: nat, mine: JobId)
      requires Respects(others, topic, mine)
      modifies db, store
      ensures Rely(old(Now()), Now(), topic, mine)
      ensures Absent(old(db.tables), topic, mine) ==> mine !in db.tables.rows
      ensures Undisturbed(others) ==> Now() == old(Now())
    {
      var now := World(store.entries, db.tables);
      var next := others(gap, now);
      assert Rely(now, next, topic, mine);
      store.entries := next.entries;
      db.tables := next.tables;
    }

    method GetJob(id: JobId) returns (row: Option<JobRow>)
      ensures row == if id in db.tables.rows then Some(db.tables.rows[id]) else None
    {
      var session := db.Begin();
      var jobs := new JobRepository(session);
      row := jobs.Get(id);
    }

    /** The reply to a request whose key already names a job. */
    method AnswerDuplicate(record: Record) returns (answer: Answer)
      ensures answer == if record.jobId in db.tables.rows
                        then Job(record.jobId, db.tables.rows[record.jobId]) else Error(JobNotFound)
    {
      var row := GetJob(record.jobId);
      answer := if row.None? then Error(JobNotFound) else Job(record.jobId, row.value);
    }

    /** Row, event and outbox row in one transaction. */
    method WriteTransaction(id: JobId, payload: Document, fault: CommitFault)
      modifies db
      ensures db.tables == if fault.CommitLost? then old(db.tables)
                           else WithNewJob(old(db.tables), topic, id, payload)
    {
      var session := db.Begin();
      var jobs := new JobRepository(session);
      var events := new EventRepository(session);
      var outbox := new OutboxRepository(session);
      jobs.Add(id, NEW_ROW);
      events.Add(id, Requested);
      outbox.Add(topic, Message(id, payload));
      if !fault.CommitLost? {
        db.Commit(session);
      }
    }

    /** From the reservation on: the transaction, and the completed record. */
    method CommitReserved(key: string, payload: Document, met: Circumstances, others: Environment)
      returns (answer: Answer)
      requires Respects(others, topic, met.jobId)
      requires Absent(db.tables, topic, met.jobId)
      requires RequestKey(key) in store.entries && store.entries[RequestKey(key)].jobId == met.jobId
      modifies db, store
      ensures answer == if !met.commitFault.CommitOk? then Error(Fault(met.commitFault.error))
                        else if !met.completeFault.CommitOk? then Error(Fault(met.completeFault.error))
                        else Job(met.jobId, JobRow(PENDING, None, None, None, None, 0))
      ensures if met.commitFault.CommitLost? then db.tables == old(db.tables)
              else Exists(db.tables, topic, met.jobId, payload)
      ensures forall name :: name in old(store.entries) ==>
                name in store.entries && store.entries[name].jobId == old(store.entries)[name].jobId
      ensures forall id :: id in old(db.tables.rows) ==> id in db.tables.rows
      ensures FaultFree(met) && Undisturbed(others) ==>
                && store.entries == old(store.entries)[RequestKey(key) := Record(Completed, met.jobId)]
                && db.tables == Tables(
                     old(db.tables.rows)[met.jobId := JobRow(PENDING, None, None, None, None, 0)],
                     old(db.tables.events)[met.jobId := [Requested]],
                     old(db.tables.outbox) + [OutboxRow(topic, Message(met.jobId, payload), false, 0)])
    {
      hide RequestKey, Exists, Absent, Requests, LogOf, WithNewJob, Undisturbed, Respects;
      NewJobExists(db.tables, topic, met.jobId, payload);
      WriteTransaction(met.jobId, payload, met.commitFault);
      if !met.commitFault.CommitOk? {
        return Error(Fault(met.commitFault.error));
      }
      LetOthersRun(others, 3, met.jobId);
      if !met.completeFault.CommitLost? {
        store.CompleteRequest(key, met.jobId);
      }
      if !met.completeFault.CommitOk? {
        return Error(Fault(met.completeFault.error));
      }
      answer := Job(met.jobId, NEW_ROW);
    }

    /** A job in the answer is committed and is the one its key names. This call commits at most its own job, whole,
        with the payload it was called with, and only under a key that names it; a key that already named a job
        keeps it. Without faults the answer is a job, unless the key names one that is not there. */
    method CreateJob(payload: Document, idempotencyKey: Option<string>, met: Circumstances, others: Environment)
      returns (answer: Answer)
      requires Respects(others, topic, met.jobId)
      requires Absent(db.tables, topic, met.jobId)
      modifies db, store
      ensures var key := RequestKey(KeyOf(idempotencyKey, met.drawnKey));
              && (answer.Job? ==>
                    && answer.id in db.tables.rows
                    && key in store.entries && store.entries[key].jobId == answer.id)
              && (key in old(store.entries) ==>
                    key in store.entries && store.entries[key].jobId == old(store.entries)[key].jobId)
              && (met.jobId in db.tables.rows ==>
                    key in store.entries && store.entries[key].jobId == met.jobId)
              && (answer == Error(JobNotFound) ==> key in store.entries)
      ensures Exists(db.tables, topic, met.jobId, payload) || Absent(db.tables, topic, met.jobId)
      ensures FaultFree(met) ==> answer.Job? || answer == Error(JobNotFound)
      ensures FaultFree(met) && Undisturbed(others) ==>
                var key := RequestKey(KeyOf(idempotencyKey, met.drawnKey));
                if key in old(store.entries) then
                  var id := old(store.entries)[key].jobId;
                  && Now() == old(Now())
                  && answer == if id in old(db.tables.rows) then Job(id, old(db.tables.rows)[id]) else Error(JobNotFound)
                else
                  && answer == Job(met.jobId, JobRow(PENDING, None, None, None, None, 0))
                  && store.entries == old(store.entries)[key := Record(Completed, met.jobId)]
                  && db.tables == Tables(
                       old(db.tables.rows)[met.jobId := JobRow(PENDING, None, None, None, None, 0)],
                       old(db.tables.events)[met.jobId := [Requested]],
                       old(db.tables.outbox) + [OutboxRow(topic, Message(met.jobId, payload), false, 0)])
      ensures forall id :: id in old(db.tables.rows) ==> id in db.tables.rows
      ensures answer != Error(UnableToReserve)
    {
      hide RequestKey, Exists, Absent, Requests, LogOf, WithNewJob, Undisturbed, Respects;
      var key := if idempotencyKey.None? || idempotencyKey.value == "" then met.drawnKey else idempotencyKey.value;
      AbsentIsAbsent(db.tables, topic, met.jobId);
      var existing := store.GetRequestRecord(key);
      LetOthersRun(others, 0, met.jobId);
      if existing.Some? {
        answer := AnswerDuplicate(existing.value);
        return;
      }
      if met.reserveFault.CommitLost? {
        return Error(Fault(met.reserveFault.error));
      }
      var reserved := store.ReserveRequest(key, met.jobId);
      if !met.reserveFault.CommitOk? {
        return Error(Fault(met.reserveFault.error));
      }
      LetOthersRun(others, 1, met.jobId);
      if !reserved {
        existing := store.GetRequestRecord(key);
        LetOthersRun(others, 2, met.jobId);
        if existing.Some? {
          answer := AnswerDuplicate(existing.value);
          return;
        }
        return Error(UnableToReserve);
      }
      answer := CommitReserved(key, payload, met, others);
      AbsentIsAbsent(db.tables, topic, met.jobId);
    }
  }

  lemma {:induction false} AbsentIsAbsent(tables: Tables, topic: Topic, id: JobId)
    ensures Absent(tables, topic, id) ==> id !in tables.rows
    ensures forall body :: Exists(tables, topic, id, body) ==> id in tables.rows
  {
  }

  lemma {:induction false} NewJobExists(tables: Tables, topic: Topic, id: JobId, payload: Document)
    requires Absent(tables, topic, id)
    ensures Exists(WithNewJob(tables, topic, id, payload), topic, id, payload)
    ensures WithNewJob(tables, topic, id, payload) == Tables(
              tables.rows[id := JobRow(PENDING, None, None, None, None, 0)],
              tables.events[id := [Requested]],
              tables.outbox + [OutboxRow(topic, Message(id, payload), false, 0)])
  {
    RequestsOfAppend(tables.outbox, OutboxRow(topic, Message(id, payload), false, 0), topic, id);
    assert [] + [Message(id, payload)] == [Message(id, payload)];
    assert [] + [Requested] == [Requested];
    var after := WithNewJob(tables, topic, id, payload);
    assert after.events[id] == [Requested];
    assert LogOf(after, id) == [Requested];
  }

  /** The step belongs to call `i`. */
  predicate StepOf(action: Action, i: nat) {
    match action
    case Arrive(_, _, _) => false
    case Progress(_, _, _) => false
    case HandOff(_, _) => false
    case Mark(_, _, _) => false
    case _ => action.client == i
  }

  /** Every step of the others is one the call relies on. */
  lemma {:induction false} OthersKeepTheRely(s: State, action: Action, i: nat, mine: JobId)
    requires Inv(s) && Enabled(s, action) && !StepOf(action, i)
    requires i < |s.clients| && (Pledge(s.clients[i].phase) == Some(mine) || Created(s, mine))
    ensures Rely(World(s.records, s.tables), World(Next(s, action).records, Next(s, action).tables), s.topic, mine)
  {
    hide Inv;
    StepKeepsInv(s, action);
    RecordsKeepTheirJob(s, action);
    RowsStay(s, action);
    MineIsUntouched(s, action, i, mine);
    if Created(s, mine) {
      var creation := TheCreation(s, mine);
      CreationStays(s, action, creation);
      JobIsWhole(s, mine, creation);
      JobIsWhole(Next(s, action), mine, creation);
    } else {
      JobIsAbsent(s, mine);
      JobIsAbsent(Next(s, action), mine);
    }
  }

  lemma {:induction false} TheCreation(s: State, id: JobId) returns (creation: Creation)
    requires Created(s, id)
    ensures creation in s.created && creation.id == id
  {
    var n :| 0 <= n < |s.created| && s.created[n].id == id;
    creation := s.created[n];
  }

  lemma {:induction false} CreationStays(s: State, action: Action, creation: Creation)
    requires Inv(s) && Enabled(s, action) && creation in s.created
    ensures creation in Next(s, action).created && creation.client < |s.clients|
    ensures creation.client < |Next(s, action).clients|
    ensures Next(s, action).clients[creation.client].body == s.clients[creation.client].body
  {
    hide JobOk, ClientOk, Created;
    assert CarriesItsBody(s, creation);
  }

  lemma {:induction false} JobIsWhole(s: State, id: JobId, creation: Creation)
    requires Inv(s) && creation in s.created && creation.id == id
    ensures creation.client < |s.clients| && Exists(s.tables, s.topic, id, s.clients[creation.client].body)
  {
    assert CarriesItsBody(s, creation);
    var n :| 0 <= n < |s.created| && s.created[n] == creation;
    assert Created(s, id);
    assert JobOk(s, id);
  }

  lemma {:induction false} JobIsAbsent(s: State, id: JobId)
    requires Inv(s) && !Created(s, id)
    ensures Absent(s.tables, s.topic, id) && forall body :: !Exists(s.tables, s.topic, id, body)
  {
    assert JobOk(s, id);
  }

  lemma {:induction false} RecordsKeepTheirJob(s: State, action: Action)
    requires Inv(s) && Enabled(s, action)
    ensures forall key :: key in s.records ==>
              key in Next(s, action).records && Next(s, action).records[key].jobId == s.records[key].jobId
  {
    hide JobOk, Created;
    if action.Complete? {
      ClientIsOk(s, action.client);
    }
  }

  lemma {:induction false} RowsStay(s: State, action: Action)
    requires Enabled(s, action)
    ensures forall id :: id in s.tables.rows ==> id in Next(s, action).tables.rows
    ensures Next(s, action).topic == s.topic
  {
  }

  lemma {:induction false} MineIsUntouched(s: State, action: Action, i: nat, mine: JobId)
    requires Inv(s) && Enabled(s, action) && !StepOf(action, i)
    requires i < |s.clients| && (Pledge(s.clients[i].phase) == Some(mine) || Created(s, mine))
    ensures Created(Next(s, action), mine) <==> Created(s, mine)
  {
    hide JobOk, ClientOk;
    var t := Next(s, action);
    if action.Commit? && !action.fault.CommitLost? {
      CreatedAfter(s, t, s.clients[action.client].key, s.clients[action.client].phase.id);
    } else {
      SameCreated(s, t);
    }
  }
}
