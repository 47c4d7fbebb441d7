/** src/domain/entities/document_delivery.py: the delivery record and its mark_* / schedule_retry methods. */
module Deliveries {
  import opened Core

  /** A row of the deliveries table; `id` is the row's position. */
  datatype Delivery = Delivery(
    id: nat,
    tenant: nat,
    document: nat,
    account: nat,
    status: Status,
    providerDocumentId: Option<string>,
    retryCount: nat,
    nextRetryAt: Option<real>,
    lastErrorCode: Option<string>,
    lastErrorMessage: Option<string>,
    sentAt: Option<real>,
    finalAt: Option<real>,
    updatedAt: real)
  {
    function MarkedSending(now: real): Delivery {
      this.(status := SENDING, updatedAt := now)
    }

    function MarkedSent(documentId: string, now: real): Delivery {
      this.(status := SENT, providerDocumentId := Some(documentId), sentAt := Some(now), updatedAt := now)
    }

    function MarkedFailed(code: string, message: string, now: real): Delivery {
      this.(status := FAILED, lastErrorCode := Some(code), lastErrorMessage := Some(message),
            finalAt := Some(now), updatedAt := now)
    }

    function RetryScheduled(at: real, now: real): Delivery {
      this.(retryCount := retryCount + 1, nextRetryAt := Some(at), status := PENDING, updatedAt := now)
    }

    /** What the forced retry endpoint does to a row (src/presentation/api/v1/documents.py, lines 228-229). */
    function Requeued(): Delivery {
      this.(status := PENDING, nextRetryAt := None)
    }
  }

  function NewDelivery(id: nat, tenant: nat, document: nat, account: nat, now: real): Delivery {
    Delivery(id, tenant, document, account, PENDING, None, 0, None, None, None, None, None, now)
  }

  /** The entity a session works on: loaded from a row, changed in place, written back as a row. */
  class DocumentDelivery {
    const loaded: Delivery
    var unifiedStatus: Status
    var providerDocumentId: Option<string>
    var retryCount: nat
    var nextRetryAt: Option<real>
    var lastErrorCode: Option<string>
    var lastErrorMessage: Option<string>
    var sentAt: Option<real>
    var finalAt: Option<real>
    var updatedAt: real

    constructor (row: Delivery)
      ensures Row() == row && fresh(this)
    {
      loaded := row;
      unifiedStatus := row.status;
      providerDocumentId := row.providerDocumentId;
      retryCount := row.retryCount;
      nextRetryAt := row.nextRetryAt;
      lastErrorCode := row.lastErrorCode;
      lastErrorMessage := row.lastErrorMessage;
      sentAt := row.sentAt;
      finalAt := row.finalAt;
      updatedAt := row.updatedAt;
    }

    function Row(): Delivery
      reads this
    {
      Delivery(loaded.id, loaded.tenant, loaded.document, loaded.account, unifiedStatus, providerDocumentId,
               retryCount, nextRetryAt, lastErrorCode, lastErrorMessage, sentAt, finalAt, updatedAt)
    }

    method MarkSending(now: real)
      modifies this
      ensures Row() == old(Row()).MarkedSending(now)
    {
      unifiedStatus := SENDING;
      updatedAt := now;
    }

    method MarkSent(documentId: string, now: real)
      modifies this
      ensures Row() == old(Row()).MarkedSent(documentId, now)
    {
      unifiedStatus := SENT;
      providerDocumentId := Some(documentId);
      sentAt := Some(now);
      updatedAt := now;
    }

    method MarkFailed(code: string, message: string, now: real)
      modifies this
      ensures Row() == old(Row()).MarkedFailed(code, message, now)
    {
      unifiedStatus := FAILED;
      lastErrorCode := Some(code);
      lastErrorMessage := Some(message);
      finalAt := Some(now);
      updatedAt := now;
    }

    method ScheduleRetry(at: real, now: real)
      modifies this
      ensures Row() == old(Row()).RetryScheduled(at, now)
    {
      retryCount := retryCount + 1;
      nextRetryAt := Some(at);
      unifiedStatus := PENDING;
      updatedAt := now;
    }

    method Requeue()
      modifies this
      ensures Row() == old(Row()).Requeued()
    {
      unifiedStatus := PENDING;
      nextRetryAt := None;
    }

    function IsTerminal(): bool
      reads this
    {
      unifiedStatus.IsTerminal()
    }
  }
}
