/** The database tables, the sessions that write them, and the message broker. */
module Store {
  import opened Core
  import opened Deliveries

  datatype Account = Account(tenant: nat, active: bool)

  datatype Document = Document(tenant: nat, internalId: nat)

  /**
   * DLQEntryModel; an entry's id is its position in the table, and `payloadBytes` is the payload's
   * file_bytes_hex if it has one.
   */
  datatype DlqEntry = DlqEntry(
    tenant: nat,
    delivery: Option<nat>,
    account: Option<nat>,
    taskName: string,
    payloadBytes: Option<string>,
    reasonCode: string,
    reasonMessage: string,
    retryable: bool,
    replayedAt: Option<real>)

  /** The event type and payload of an audit event both spell the status. */
  datatype AuditEvent = AuditEvent(tenant: nat, delivery: nat, status: Status)

  datatype Tables = Tables(
    accounts: map<nat, Account>,
    documents: seq<Document>,
    deliveries: seq<Delivery>,
    dlq: seq<DlqEntry>,
    audit: seq<AuditEvent>)
  {
    /** UPDATE ... WHERE id = row.id. */
    function WithDelivery(row: Delivery): Tables {
      if row.id < |deliveries| then this.(deliveries := deliveries[row.id := row]) else this
    }
  }

  const SEND_DOCUMENT := "send_document"

  /** A send_document message. */
  datatype Message = Message(delivery: Option<nat>, bytesHex: string)

  class Broker {
    var queue: seq<Message>

    constructor ()
      ensures queue == []
    {
      queue := [];
    }

    method ApplyAsync(m: Message)
      modifies this
      ensures queue == old(queue) + [m]
    {
      queue := queue + [m];
    }
  }

  /** Committed tables, and every version ever committed. */
  class Database {
    var tables: Tables
    var commits: seq<Tables>

    constructor (tables: Tables)
      ensures this.tables == tables && commits == []
    {
      this.tables := tables;
      commits := [];
    }
  }

  /** Changes are visible to others only after Commit. */
  class Session {
    const db: Database
    var work: Tables

    constructor (db: Database)
      ensures this.db == db && work == db.tables && fresh(this)
    {
      this.db := db;
      work := db.tables;
    }

    method UpdateDelivery(entity: DocumentDelivery)
      modifies this
      ensures work == old(work).WithDelivery(entity.Row())
    {
      var row := entity.Row();
      if row.id < |work.deliveries| {
        work := work.(deliveries := work.deliveries[row.id := row]);
      }
    }

    method AddDlqEntry(entry: DlqEntry)
      modifies this
      ensures work == old(work).(dlq := old(work).dlq + [entry])
    {
      work := work.(dlq := work.dlq + [entry]);
    }

    method AddAuditEvent(event: AuditEvent)
      modifies this
      ensures work == old(work).(audit := old(work).audit + [event])
    {
      work := work.(audit := work.audit + [event]);
    }

    method Commit()
      modifies db
      ensures db.tables == work && db.commits == old(db.commits) + [work]
    {
      db.tables := work;
      db.commits := db.commits + [work];
    }
  }
}
