/** src/presentation/api/v1/documents.py: the endpoints that create and requeue deliveries. */
module Documents {
  import opened Core
  import opened Deliveries
  import opened Store

  datatype SubmitRequest = SubmitRequest(tenant: nat, internalId: nat, account: nat, bytesHex: string)

  datatype SubmitReply = Accepted202(delivery: nat) | Conflict409 | AccountNotFound404 | AccountInactive422

  predicate Known(t: Tables, document: Document) {
    document in t.documents
  }

  function SubmitReplyTo(t: Tables, req: SubmitRequest): SubmitReply {
    if Known(t, Document(req.tenant, req.internalId)) then Conflict409
    else if req.account !in t.accounts || t.accounts[req.account].tenant != req.tenant then AccountNotFound404
    else if !t.accounts[req.account].active then AccountInactive422
    else Accepted202(|t.deliveries|)
  }

  /** An accepted request adds a document, its PENDING delivery and one message. */
  function Submitted(t: Tables, req: SubmitRequest, now: real): Tables {
    if !SubmitReplyTo(t, req).Accepted202? then t
    else t.(documents := t.documents + [Document(req.tenant, req.internalId)],
            deliveries := t.deliveries
              + [NewDelivery(|t.deliveries|, req.tenant, |t.documents|, req.account, now)])
  }

  function SubmitMessages(t: Tables, req: SubmitRequest): seq<Message> {
    if SubmitReplyTo(t, req).Accepted202? then [Message(Some(|t.deliveries|), req.bytesHex)] else []
  }

  /** The same tenant has submitted a document under the same internal id. */
  predicate Same(document: Document, req: SubmitRequest) {
    document.tenant == req.tenant && document.internalId == req.internalId
  }

  /** Which reply is given when: the four cases, each by the stored documents and accounts alone. */
  lemma SubmitReplyIff(t: Tables, req: SubmitRequest)
    ensures var reply := SubmitReplyTo(t, req);
      var known := exists i :: 0 <= i < |t.documents| && Same(t.documents[i], req);
      var owned := req.account in t.accounts && t.accounts[req.account].tenant == req.tenant;
      && (reply.Conflict409? <==> known)
      && (reply.AccountNotFound404? <==> !known && !owned)
      && (reply.AccountInactive422? <==> !known && owned && t.accounts[req.account] == Account(req.tenant, false))
      && (reply.Accepted202? <==> !known && owned && t.accounts[req.account] == Account(req.tenant, true))
      && (reply.Accepted202? ==> reply.delivery == |t.deliveries|)
  {
    var d := Document(req.tenant, req.internalId);
    if d in t.documents {
      var i :| 0 <= i < |t.documents| && t.documents[i] == d;
      assert Same(t.documents[i], req);
    }
    assert forall i :: 0 <= i < |t.documents| && Same(t.documents[i], req) ==> t.documents[i] == d;
  }

  /** What an accepted submission leaves: a delivery never tried before, and one message with the file. */
  lemma SubmissionLeaves(t: Tables, req: SubmitRequest, now: real)
    ensures var t', messages := Submitted(t, req, now), SubmitMessages(t, req);
      if !SubmitReplyTo(t, req).Accepted202? then t' == t && messages == []
      else
        && t'.accounts == t.accounts && t'.dlq == t.dlq && t'.audit == t.audit
        && t'.documents == t.documents + [Document(req.tenant, req.internalId)]
        && |t'.deliveries| == |t.deliveries| + 1 && t'.deliveries[..|t.deliveries|] == t.deliveries
        && messages == [Message(Some(|t.deliveries|), req.bytesHex)]
        && var row := t'.deliveries[|t.deliveries|];
           && row.id == |t.deliveries| && row.document == |t.documents|
           && row.tenant == req.tenant && row.account == req.account
           && row.status == PENDING && row.retryCount == 0 && row.nextRetryAt == None && row.updatedAt == now
           && row.providerDocumentId == None && row.sentAt == None && row.finalAt == None
           && row.lastErrorCode == None && row.lastErrorMessage == None
  {
  }

  /** send_document_endpoint. */
  method SendDocumentEndpoint(db: Database, broker: Broker, req: SubmitRequest, now: real) returns (reply: SubmitReply)
    modifies db`tables, broker
    ensures reply == SubmitReplyTo(old(db.tables), req)
    ensures db.tables == Submitted(old(db.tables), req, now)
    ensures broker.queue == old(broker.queue) + SubmitMessages(old(db.tables), req)
  {
    var t := db.tables;
    if Known(t, Document(req.tenant, req.internalId)) {
      return Conflict409;
    }
    if req.account !in t.accounts || t.accounts[req.account].tenant != req.tenant {
      return AccountNotFound404;
    }
    if !t.accounts[req.account].active {
      return AccountInactive422;
    }
    var document, delivery := |t.documents|, |t.deliveries|;
    var row := NewDelivery(delivery, req.tenant, document, req.account, now);
    db.tables := t.(documents := t.documents + [Document(req.tenant, req.internalId)],
                    deliveries := t.deliveries + [row]);
    broker.ApplyAsync(Message(Some(delivery), req.bytesHex));
    return Accepted202(delivery);
  }

  /** The document's deliveries that are FAILED, newest first. */
  function FailedOf(rows: seq<Delivery>, document: nat): (ids: seq<nat>)
    ensures forall k :: 0 <= k < |ids| ==> ids[k] < |rows| && FailedFor(rows[ids[k]], document)
    ensures forall j, k :: 0 <= j < k < |ids| ==> ids[j] > ids[k]
    ensures forall i: nat :: i < |rows| && FailedFor(rows[i], document) ==> i in ids
  {
    if rows == [] then []
    else
      var n := |rows| - 1;
      (if FailedFor(rows[n], document) then [n] else []) + FailedOf(rows[..n], document)
  }

  predicate FailedFor(row: Delivery, document: nat) {
    row.document == document && row.status == FAILED
  }

  function Resends(ids: seq<nat>): seq<Message> {
    seq(|ids|, k requires 0 <= k < |ids| => Message(Some(ids[k]), ""))
  }

  /** The rows after a forced retry: the document's failed deliveries are PENDING again, nothing else moves. */
  function Requeued(rows: seq<Delivery>, document: nat): (r: seq<Delivery>)
    ensures |r| == |rows|
    ensures forall i :: 0 <= i < |rows| ==> r[i].retryCount == rows[i].retryCount
    ensures forall i :: 0 <= i < |rows| && rows[i].status != FAILED ==> r[i] == rows[i]
  {
    seq(|rows|, i requires 0 <= i < |rows| => if FailedFor(rows[i], document) then rows[i].Requeued() else rows[i])
  }

  function RequeueSome(rows: seq<Delivery>, ids: seq<nat>): (r: seq<Delivery>)
    ensures |r| == |rows|
  {
    seq(|rows|, i requires 0 <= i < |rows| => if i in ids then rows[i].Requeued() else rows[i])
  }

  lemma RequeueOneMore(rows: seq<Delivery>, ids: seq<nat>, k: nat)
    requires k < |ids| && ids[k] < |rows|
    requires forall i, j :: 0 <= i < j < |ids| ==> ids[i] > ids[j]
    ensures RequeueSome(rows, ids[..k])[ids[k]] == rows[ids[k]]
    ensures RequeueSome(rows, ids[..k + 1]) == RequeueSome(rows, ids[..k])[ids[k] := rows[ids[k]].Requeued()]
    ensures Resends(ids[..k + 1]) == Resends(ids[..k]) + [Message(Some(ids[k]), "")]
  {
    assert ids[..k + 1] == ids[..k] + [ids[k]];
    assert forall j :: 0 <= j < k ==> ids[j] != ids[k];
  }

  lemma RequeueAll(rows: seq<Delivery>, document: nat)
    ensures RequeueSome(rows, FailedOf(rows, document)) == Requeued(rows, document)
    ensures FailedOf(rows, document) != []
       <==> exists i :: 0 <= i < |rows| && FailedFor(rows[i], document)
  {
    var ids := FailedOf(rows, document);
    if ids != [] {
      assert FailedFor(rows[ids[0]], document);
    }
  }

  /** A forced retry row by row and message by message, without a word about how it finds them. */
  lemma ForcedRetryExactly(rows: seq<Delivery>, document: nat, i: nat)
    requires i < |rows|
    ensures var after, messages, hit := Requeued(rows, document), Resends(FailedOf(rows, document)),
        rows[i].document == document && rows[i].status == FAILED;
      && after[i] == (if hit then rows[i].(status := PENDING, nextRetryAt := None) else rows[i])
      && (Message(Some(i), "") in messages <==> hit)
      && (forall k :: 0 <= k < |messages| ==> messages[k].delivery.Some? && messages[k].bytesHex == "")
      && (forall j, k :: 0 <= j < k < |messages| ==> messages[j] != messages[k])
  {
    var ids := FailedOf(rows, document);
    var messages := Resends(ids);
    assert forall k :: 0 <= k < |ids| ==> messages[k] == Message(Some(ids[k]), "");
    if i in ids {
      var k :| 0 <= k < |ids| && ids[k] == i;
      assert messages[k] == Message(Some(i), "");
    }
  }

  /**
   * retry_document. Without `force` it changes nothing, because every FAILED delivery is terminal;
   * with it, every failed delivery of the document is requeued and published exactly once.
   */
  method RetryDocument(db: Database, broker: Broker, document: nat, force: bool) returns (found: bool)
    requires forall i :: 0 <= i < |db.tables.deliveries| ==> db.tables.deliveries[i].id == i
    modifies db`tables, broker
    ensures var rows := old(db.tables).deliveries;
      found <==> exists i :: 0 <= i < |rows| && FailedFor(rows[i], document)
    ensures !force ==> db.tables == old(db.tables) && broker.queue == old(broker.queue)
    ensures force ==>
      && db.tables == old(db.tables).(deliveries := Requeued(old(db.tables).deliveries, document))
      && broker.queue == old(broker.queue) + Resends(FailedOf(old(db.tables).deliveries, document))
  {
    var rows := db.tables.deliveries;
    var failed := FailedOf(rows, document);
    RequeueAll(rows, document);
    found := failed != [];
    if found {
      RetryEach(db, broker, failed, force);
    } else {
      assert db.tables.deliveries == RequeueSome(rows, failed);
      assert broker.queue == old(broker.queue) + Resends(failed);
    }
  }

  /** The endpoint's loop. */
  method RetryEach(db: Database, broker: Broker, failed: seq<nat>, force: bool)
    requires forall k :: 0 <= k < |failed| ==>
      failed[k] < |db.tables.deliveries|
      && db.tables.deliveries[failed[k]].status == FAILED
      && db.tables.deliveries[failed[k]].id == failed[k]
    requires forall j, k :: 0 <= j < k < |failed| ==> failed[j] > failed[k]
    modifies db`tables, broker
    ensures !force ==> db.tables == old(db.tables) && broker.queue == old(broker.queue)
    ensures force ==>
      && db.tables == old(db.tables).(deliveries := RequeueSome(old(db.tables).deliveries, failed))
      && broker.queue == old(broker.queue) + Resends(failed)
  {
    var rows := db.tables.deliveries;
    for k := 0 to |failed|
      invariant !force ==> db.tables == old(db.tables) && broker.queue == old(broker.queue)
      invariant |db.tables.deliveries| == |rows|
      invariant force ==> db.tables == old(db.tables).(deliveries := RequeueSome(rows, failed[..k]))
      invariant force ==> broker.queue == old(broker.queue) + Resends(failed[..k])
    {
      RequeueOneMore(rows, failed, k);
      RetryOne(db, broker, rows[failed[k]], force);
    }
    assert failed[..|failed|] == failed;
  }

  /** The loop body: one failed delivery. */
  method RetryOne(db: Database, broker: Broker, row: Delivery, force: bool)
    requires row.status == FAILED && row.id < |db.tables.deliveries|
    modifies db`tables, broker
    ensures !force ==> db.tables == old(db.tables) && broker.queue == old(broker.queue)
    ensures force ==> db.tables == old(db.tables).(deliveries := old(db.tables).deliveries[row.id := row.Requeued()])
    ensures force ==> broker.queue == old(broker.queue) + [Message(Some(row.id), "")]
  {
    var delivery := new DocumentDelivery(row);
    if delivery.IsTerminal() && !force {
      return;
    }
    delivery.Requeue();
    db.tables := db.tables.(deliveries := db.tables.deliveries[row.id := delivery.Row()]);
    broker.ApplyAsync(Message(Some(row.id), ""));
  }

  /** No (tenant, internal id) pair is stored twice, and each document has its own delivery. */
  ghost predicate OneDeliveryPerDocument(t: Tables) {
    && |t.deliveries| == |t.documents|
    && (forall i :: 0 <= i < |t.deliveries| ==> t.deliveries[i].document == i)
    && (forall i, j :: 0 <= i < j < |t.documents| ==> t.documents[i] != t.documents[j])
  }

  lemma SubmitKeepsUniqueness(t: Tables, req: SubmitRequest, now: real)
    requires OneDeliveryPerDocument(t)
    ensures OneDeliveryPerDocument(Submitted(t, req, now))
  {
  }

  /** Sending the same document again is answered 409 and leaves no trace. */
  lemma ResubmitIsHarmless(t: Tables, req: SubmitRequest, again: SubmitRequest, now: real, later: real)
    requires SubmitReplyTo(t, req).Accepted202?
    requires again.tenant == req.tenant && again.internalId == req.internalId
    ensures var t' := Submitted(t, req, now);
      && SubmitReplyTo(t', again) == Conflict409
      && Submitted(t', again, later) == t'
      && SubmitMessages(t', again) == []
  {
    var t' := Submitted(t, req, now);
    assert t'.documents[|t.documents|] == Document(req.tenant, req.internalId);
  }
}
