/**
 * The dead-letter queue: src/presentation/api/v1/dlq.py (one entry, a batch) and
 * src/infrastructure/queue/tasks/process_dlq_task.py (the automatic sweep).
 */
module Dlq {
  import opened Core
  import opened Store

  /** src/domain/entities/dlq_entry.py; the repository writes back `replayedAt` only. */
  class DLQEntry {
    const loaded: DlqEntry
    var replayedAt: Option<real>

    constructor (row: DlqEntry)
      ensures Row() == row && fresh(this)
    {
      loaded := row;
      replayedAt := row.replayedAt;
    }

    function Row(): DlqEntry
      reads this
    {
      loaded.(replayedAt := replayedAt)
    }

    method MarkReplayed(now: real)
      modifies this
      ensures Row() == old(Row()).(replayedAt := Some(now))
    {
      replayedAt := Some(now);
    }
  }

  /** What replays work on: the table and the messages published. */
  datatype Desk = Desk(entries: seq<DlqEntry>, queue: seq<Message>)

  datatype Reply = Replayed | NotFound404 | NotRetryable422

  /** The caller of a replay request: its tenant, and whether it forces non-retryable entries. */
  datatype Request = Request(tenant: nat, force: bool)

  function ReplyTo(entries: seq<DlqEntry>, id: nat, req: Request): Reply {
    if id >= |entries| || entries[id].tenant != req.tenant then NotFound404
    else if !entries[id].retryable && !req.force then NotRetryable422
    else Replayed
  }

  /** The message a manual replay of `e` publishes, if any. */
  function ReplayMessages(e: DlqEntry): seq<Message> {
    if e.taskName == SEND_DOCUMENT && e.delivery.Some? then [Message(e.delivery, "")] else []
  }

  function ReplayOne(desk: Desk, id: nat, req: Request, now: real): Desk {
    if ReplyTo(desk.entries, id, req) != Replayed then desk
    else Desk(desk.entries[id := desk.entries[id].(replayedAt := Some(now))],
              desk.queue + ReplayMessages(desk.entries[id]))
  }

  /** replay_dlq_entry applied to each id in order, 404 and 422 read as skips. */
  function ReplayEach(desk: Desk, ids: seq<nat>, req: Request, times: seq<real>): Desk
    requires |times| == |ids|
  {
    if ids == [] then desk
    else
      var n := |ids| - 1;
      ReplayOne(ReplayEach(desk, ids[..n], req, times[..n]), ids[n], req, times[n])
  }

  function Eligible(entries: seq<DlqEntry>, req: Request): nat -> bool {
    (id: nat) => ReplyTo(entries, id, req) == Replayed
  }

  /** Which reply is given when: a foreign entry is as good as a missing one. */
  lemma ReplyIff(entries: seq<DlqEntry>, id: nat, req: Request)
    ensures var reply := ReplyTo(entries, id, req);
      var own := id < |entries| && entries[id].tenant == req.tenant;
      && (reply == NotFound404 <==> !own)
      && (reply == NotRetryable422 <==> own && !entries[id].retryable && !req.force)
      && (reply == Replayed <==> own && (entries[id].retryable || req.force))
  {
  }

  /** Two tables that differ in replay times only. */
  ghost predicate SameButReplayTimes(a: seq<DlqEntry>, b: seq<DlqEntry>) {
    && |a| == |b|
    && forall i :: 0 <= i < |a| ==> a[i].(replayedAt := None) == b[i].(replayedAt := None)
  }

  lemma SameReplies(a: seq<DlqEntry>, b: seq<DlqEntry>, id: nat, req: Request)
    requires SameButReplayTimes(a, b)
    ensures ReplyTo(a, id, req) == ReplyTo(b, id, req)
    ensures id < |a| ==> ReplayMessages(a[id]) == ReplayMessages(b[id])
  {
    if id < |a| {
      assert a[id].(replayedAt := None) == b[id].(replayedAt := None);
    }
  }

  /** One replay: what it leaves alone, and what it writes. */
  lemma ReplayOneFrame(desk: Desk, id: nat, req: Request, now: real)
    ensures var after := ReplayOne(desk, id, req, now);
      && SameButReplayTimes(desk.entries, after.entries)
      && (forall i: nat :: i < |desk.entries| && i != id ==> after.entries[i] == desk.entries[i])
      && (if ReplyTo(desk.entries, id, req) == Replayed
          then after.entries[id].replayedAt == Some(now)
          else after == desk)
  {
  }

  lemma SameIsTransitive(a: seq<DlqEntry>, b: seq<DlqEntry>, c: seq<DlqEntry>)
    requires SameButReplayTimes(a, b) && SameButReplayTimes(b, c)
    ensures SameButReplayTimes(a, c)
  {
    forall i | 0 <= i < |a|
      ensures a[i].(replayedAt := None) == c[i].(replayedAt := None)
    {
      assert a[i].(replayedAt := None) == b[i].(replayedAt := None) == c[i].(replayedAt := None);
    }
  }

  /** What the fold leaves alone, and what it writes. */
  lemma {:induction false} ReplayEachFrame(desk: Desk, ids: seq<nat>, req: Request, times: seq<real>)
    requires |times| == |ids|
    ensures var after := ReplayEach(desk, ids, req, times);
      && SameButReplayTimes(desk.entries, after.entries)
      && (forall i: nat :: i < |desk.entries| ==>
            var e := desk.entries[i];
            if i in ids && e.tenant == req.tenant && (e.retryable || req.force) then after.entries[i].replayedAt.Some?
            else after.entries[i] == desk.entries[i])
  {
    if ids != [] {
      var n := |ids| - 1;
      ReplayEachFrame(desk, ids[..n], req, times[..n]);
      var before := ReplayEach(desk, ids[..n], req, times[..n]);
      SameReplies(desk.entries, before.entries, ids[n], req);
      ReplayOneFrame(before, ids[n], req, times[n]);
      SameIsTransitive(desk.entries, before.entries, ReplayEach(desk, ids, req, times).entries);
      assert ids == ids[..n] + [ids[n]];
    }
  }

  /** The messages a batch publishes are those of the eligible ids in order, whatever it marked on the way. */
  lemma {:induction false} ReplayEachTraffic(desk: Desk, ids: seq<nat>, req: Request, times: seq<real>)
    requires |times| == |ids|
    ensures ReplayEach(desk, ids, req, times).queue == desk.queue + ReplayTraffic(desk.entries, ids, req)
  {
    if ids != [] {
      var n := |ids| - 1;
      ReplayEachTraffic(desk, ids[..n], req, times[..n]);
      ReplayEachFrame(desk, ids[..n], req, times[..n]);
      SameReplies(desk.entries, ReplayEach(desk, ids[..n], req, times[..n]).entries, ids[n], req);
    }
  }

  /** The messages of the eligible ids, in order, read off the original table. */
  function ReplayTraffic(entries: seq<DlqEntry>, ids: seq<nat>, req: Request): seq<Message> {
    if ids == [] then []
    else
      var n := |ids| - 1;
      ReplayTraffic(entries, ids[..n], req)
      + if ReplyTo(entries, ids[n], req) == Replayed then ReplayMessages(entries[ids[n]]) else []
  }

  /** Foreign entries come out of a batch untouched, whatever ids it names and even when forced. */
  lemma ForeignEntriesUntouched(desk: Desk, ids: seq<nat>, req: Request, times: seq<real>, i: nat)
    requires |times| == |ids| && i < |desk.entries| && desk.entries[i].tenant != req.tenant
    ensures |ReplayEach(desk, ids, req, times).entries| == |desk.entries|
    ensures ReplayEach(desk, ids, req, times).entries[i] == desk.entries[i]
  {
    ReplayEachFrame(desk, ids, req, times);
  }

  /** replay_dlq_entry; the reply is the status the client gets. */
  method ReplayDlqEntry(db: Database, broker: Broker, id: nat, req: Request, now: real) returns (reply: Reply)
    modifies db`tables, broker
    ensures reply == ReplyTo(old(db.tables).dlq, id, req)
    ensures Desk(db.tables.dlq, broker.queue) == ReplayOne(Desk(old(db.tables).dlq, old(broker.queue)), id, req, now)
    ensures db.tables == old(db.tables).(dlq := db.tables.dlq)
  {
    var entries := db.tables.dlq;
    if id >= |entries| {
      return NotFound404;
    }
    var entry := new DLQEntry(entries[id]);
    if entry.loaded.tenant != req.tenant {
      return NotFound404;
    }
    if !entry.loaded.retryable && !req.force {
      return NotRetryable422;
    }
    if entry.loaded.taskName == SEND_DOCUMENT && entry.loaded.delivery.Some? {
      broker.ApplyAsync(Message(entry.loaded.delivery, ""));
    }
    entry.MarkReplayed(now);
    db.tables := db.tables.(dlq := entries[id := entry.Row()]);
    return Replayed;
  }

  /** The loop body of replay_batch, which writes out the checks of the single endpoint again. */
  method ReplayInBatch(db: Database, broker: Broker, id: nat, req: Request, now: real) returns (replayed: bool)
    modifies db`tables, broker
    ensures replayed <==> ReplyTo(old(db.tables).dlq, id, req) == Replayed
    ensures Desk(db.tables.dlq, broker.queue) == ReplayOne(Desk(old(db.tables).dlq, old(broker.queue)), id, req, now)
    ensures db.tables == old(db.tables).(dlq := db.tables.dlq)
  {
    var entries := db.tables.dlq;
    if id >= |entries| {
      return false;
    }
    var entry := new DLQEntry(entries[id]);
    if entry.loaded.tenant != req.tenant {
      return false;
    }
    if !entry.loaded.retryable && !req.force {
      return false;
    }
    if entry.loaded.taskName == SEND_DOCUMENT && entry.loaded.delivery.Some? {
      broker.ApplyAsync(Message(entry.loaded.delivery, ""));
    }
    entry.MarkReplayed(now);
    db.tables := db.tables.(dlq := entries[id := entry.Row()]);
    return true;
  }

  lemma ReplayEachSnoc(desk: Desk, ids: seq<nat>, req: Request, times: seq<real>, k: nat)
    requires |times| == |ids| && k < |ids|
    ensures ReplayEach(desk, ids[..k + 1], req, times[..k + 1])
         == ReplayOne(ReplayEach(desk, ids[..k], req, times[..k]), ids[k], req, times[k])
    ensures Count(ids[..k + 1], Eligible(desk.entries, req))
         == Count(ids[..k], Eligible(desk.entries, req))
          + if ReplyTo(ReplayEach(desk, ids[..k], req, times[..k]).entries, ids[k], req) == Replayed then 1 else 0
  {
    assert ids[..k + 1][..k] == ids[..k] && times[..k + 1][..k] == times[..k];
    ReplayEachFrame(desk, ids[..k], req, times[..k]);
    SameReplies(desk.entries, ReplayEach(desk, ids[..k], req, times[..k]).entries, ids[k], req);
  }

  /** replay_batch. */
  method ReplayBatch(db: Database, broker: Broker, ids: seq<nat>, req: Request, times: seq<real>)
    returns (replayed: nat)
    requires |times| == |ids|
    modifies db`tables, broker
    ensures Desk(db.tables.dlq, broker.queue)
         == ReplayEach(Desk(old(db.tables).dlq, old(broker.queue)), ids, req, times)
    ensures replayed == Count(ids, Eligible(old(db.tables).dlq, req))
    ensures db.tables == old(db.tables).(dlq := db.tables.dlq)
  {
    replayed := 0;
    ghost var desk := Desk(db.tables.dlq, broker.queue);
    for k := 0 to |ids|
      invariant Desk(db.tables.dlq, broker.queue) == ReplayEach(desk, ids[..k], req, times[..k])
      invariant replayed == Count(ids[..k], Eligible(desk.entries, req))
      invariant db.tables == old(db.tables).(dlq := db.tables.dlq)
    {
      ReplayEachSnoc(desk, ids, req, times, k);
      var done := ReplayInBatch(db, broker, ids[k], req, times[k]);
      if done {
        replayed := replayed + 1;
      }
    }
    assert ids[..|ids|] == ids && times[..|ids|] == times;
  }

  // ---- The automatic sweep ----

  predicate IsDue(e: DlqEntry) {
    e.replayedAt.None? && e.retryable
  }

  /** The entries the sweep's query returns. */
  function Due(entries: seq<DlqEntry>): (ids: seq<nat>)
    ensures forall k :: 0 <= k < |ids| ==> ids[k] < |entries| && IsDue(entries[ids[k]])
    ensures forall j, k :: 0 <= j < k < |ids| ==> ids[j] < ids[k]
    ensures forall i: nat :: i < |entries| && IsDue(entries[i]) ==> i in ids
  {
    if entries == [] then []
    else
      var n := |entries| - 1;
      Due(entries[..n]) + if IsDue(entries[n]) then [n] else []
  }

  /** The sweep's query, entry by entry. */
  lemma DueIff(entries: seq<DlqEntry>, i: nat)
    ensures i in Due(entries) <==> i < |entries| && entries[i].retryable && entries[i].replayedAt == None
  {
  }

  /** The sweep replays without looking at the task name; a missing delivery id is sent as it is. */
  function SweepMessage(e: DlqEntry): Message {
    Message(e.delivery, if e.payloadBytes.Some? then e.payloadBytes.value else "")
  }

  /** What the two kinds of replay publish for an entry: by hand a message without the file, and only for this task. */
  lemma ReplayTraffics(e: DlqEntry)
    ensures ReplayMessages(e) == if e.taskName == "send_document" && e.delivery != None
                                 then [Message(e.delivery, "")] else []
    ensures SweepMessage(e).delivery == e.delivery
    ensures e.payloadBytes.Some? ==> SweepMessage(e).bytesHex == e.payloadBytes.value
    ensures e.payloadBytes.None? ==> SweepMessage(e).bytesHex == ""
  {
  }

  /** The sweep's loop over `ids`; publishing fails for the ids in `broken`. */
  function SweepOver(desk: Desk, ids: seq<nat>, broken: set<nat>, now: real): Desk {
    if ids == [] then desk
    else
      var n := |ids| - 1;
      var done := SweepOver(desk, ids[..n], broken, now);
      var id := ids[n];
      if id in broken || id >= |done.entries| then done
      else Desk(done.entries[id := done.entries[id].(replayedAt := Some(now))],
                done.queue + [SweepMessage(done.entries[id])])
  }

  function Sweep(desk: Desk, broken: set<nat>, now: real): Desk {
    SweepOver(desk, Due(desk.entries), broken, now)
  }

  /** The ids whose publishing succeeds. */
  function Filter(ids: seq<nat>, broken: set<nat>): seq<nat> {
    if ids == [] then []
    else Filter(ids[..|ids| - 1], broken) + if ids[|ids| - 1] in broken then [] else [ids[|ids| - 1]]
  }

  /** The messages of these entries, in order. */
  function Messages(entries: seq<DlqEntry>, ids: seq<nat>): seq<Message> {
    if ids == [] then []
    else
      var n := |ids| - 1;
      Messages(entries, ids[..n]) + if ids[n] < |entries| then [SweepMessage(entries[ids[n]])] else []
  }

  lemma MessagesSnoc(entries: seq<DlqEntry>, ids: seq<nat>, id: nat)
    requires id < |entries|
    ensures Messages(entries, ids + [id]) == Messages(entries, ids) + [SweepMessage(entries[id])]
  {
    assert (ids + [id])[..|ids|] == ids;
  }

  lemma {:induction false} SweepOverFrame(desk: Desk, ids: seq<nat>, broken: set<nat>, now: real)
    requires forall k :: 0 <= k < |ids| ==> ids[k] < |desk.entries|
    ensures var after := SweepOver(desk, ids, broken, now);
      && SameButReplayTimes(desk.entries, after.entries)
      && (forall i: nat :: i < |desk.entries| ==>
            after.entries[i]
            == if i in ids && i !in broken then desk.entries[i].(replayedAt := Some(now)) else desk.entries[i])
  {
    if ids != [] {
      var n := |ids| - 1;
      SweepOverFrame(desk, ids[..n], broken, now);
      assert ids == ids[..n] + [ids[n]];
    }
  }

  /** The messages a sweep publishes are those of the ids that did not fail, in order. */
  lemma {:induction false} SweepOverTraffic(desk: Desk, ids: seq<nat>, broken: set<nat>, now: real)
    requires forall k :: 0 <= k < |ids| ==> ids[k] < |desk.entries|
    ensures SweepOver(desk, ids, broken, now).queue == desk.queue + Messages(desk.entries, Filter(ids, broken))
  {
    if ids != [] {
      var n := |ids| - 1;
      var before := SweepOver(desk, ids[..n], broken, now);
      SweepOverTraffic(desk, ids[..n], broken, now);
      SweepOverFrame(desk, ids[..n], broken, now);
      assert before.entries[ids[n]].(replayedAt := None) == desk.entries[ids[n]].(replayedAt := None);
      if ids[n] in broken {
        assert Filter(ids, broken) == Filter(ids[..n], broken);
      } else {
        MessagesSnoc(desk.entries, Filter(ids[..n], broken), ids[n]);
      }
    }
  }

  lemma {:induction false} NothingDue(entries: seq<DlqEntry>)
    requires forall i: nat :: i < |entries| ==> !IsDue(entries[i])
    ensures Due(entries) == []
  {
    if entries != [] {
      NothingDue(entries[..|entries| - 1]);
    }
  }

  /** A sweep leaves only the entries it failed to publish; with no failure the next sweep finds nothing. */
  lemma SweepLeavesOnlyBroken(desk: Desk, broken: set<nat>, now: real)
    ensures var after := Sweep(desk, broken, now);
      && |after.entries| == |desk.entries|
      && (forall i: nat :: i < |after.entries| && IsDue(after.entries[i]) ==> i in broken && IsDue(desk.entries[i]))
      && ((forall id :: id in Due(desk.entries) ==> id !in broken) ==>
            Due(after.entries) == [] && forall later: real :: Sweep(after, {}, later) == after)
  {
    SweepOverFrame(desk, Due(desk.entries), broken, now);
    var after := Sweep(desk, broken, now);
    if forall id :: id in Due(desk.entries) ==> id !in broken {
      NothingDue(after.entries);
    }
  }

  datatype Stats = Stats(scanned: nat, replayed: nat, skipped: nat)

  lemma SweepOverSnoc(desk: Desk, ids: seq<nat>, broken: set<nat>, now: real, k: nat)
    requires k < |ids| && forall j :: 0 <= j < |ids| ==> ids[j] < |desk.entries|
    ensures var before := SweepOver(desk, ids[..k], broken, now);
      && |before.entries| == |desk.entries|
      && SweepOver(desk, ids[..k + 1], broken, now)
         == if ids[k] in broken then before
            else Desk(before.entries[ids[k] := before.entries[ids[k]].(replayedAt := Some(now))],
                      before.queue + [SweepMessage(before.entries[ids[k]])])
  {
    assert ids[..k + 1][..k] == ids[..k];
    SweepOverFrame(desk, ids[..k], broken, now);
  }

  /** `_process_dlq`. */
  method ProcessDlq(db: Database, broker: Broker, broken: set<nat>, now: real) returns (stats: Stats)
    modifies db`tables, broker
    ensures Desk(db.tables.dlq, broker.queue) == Sweep(Desk(old(db.tables).dlq, old(broker.queue)), broken, now)
    ensures db.tables == old(db.tables).(dlq := db.tables.dlq)
    ensures stats.scanned == |Due(old(db.tables).dlq)| == stats.replayed + stats.skipped
    ensures stats.replayed == |broker.queue| - |old(broker.queue)|
    ensures var dlq := old(db.tables).dlq;
      broker.queue == old(broker.queue) + Messages(dlq, Filter(Due(dlq), broken))
  {
    ghost var desk := Desk(db.tables.dlq, broker.queue);
    var rows := db.tables.dlq;
    var ids := Due(rows);
    stats := Stats(|ids|, 0, 0);
    for k := 0 to |ids|
      invariant Desk(rows, broker.queue) == SweepOver(desk, ids[..k], broken, now)
      invariant stats.scanned == |ids| && stats.replayed + stats.skipped == k
      invariant stats.replayed == |broker.queue| - |desk.queue|
      invariant db.tables == old(db.tables)
    {
      SweepOverSnoc(desk, ids, broken, now, k);
      var id := ids[k];
      if id !in broken {
        broker.ApplyAsync(SweepMessage(rows[id]));
        rows := rows[id := rows[id].(replayedAt := Some(now))];
        stats := stats.(replayed := stats.replayed + 1);
      } else {
        stats := stats.(skipped := stats.skipped + 1);
      }
    }
    assert ids[..|ids|] == ids;
    SweepOverTraffic(desk, ids, broken, now);
    db.tables := db.tables.(dlq := rows);
  }

  // ---- Sweeps over a whole run ----

  /**
   * One thing that happens to the table: a new entry, a manual replay, a sweep, or a sweep whose
   * worker dies after its first `reached` entries and before its commit.
   */
  datatype Happening =
    | Arrives(e: DlqEntry)
    | Manual(id: nat, req: Request, at: real)
    | Swept(broken: set<nat>, at: real)
    | SweepDies(reached: nat, broken: set<nat>)

  /** `dispatched` lists, in order, the ids the sweeps published. */
  datatype Ledger = Ledger(desk: Desk, dispatched: seq<nat>)

  function Prefix(ids: seq<nat>, n: nat): seq<nat> {
    if n <= |ids| then ids[..n] else ids
  }

  /** The ids whose messages leave during `h`, if it is a sweep. */
  function Sent(entries: seq<DlqEntry>, h: Happening): seq<nat> {
    match h
    case Arrives(_) => []
    case Manual(_, _, _) => []
    case Swept(broken, _) => Filter(Due(entries), broken)
    case SweepDies(reached, broken) => Filter(Prefix(Due(entries), reached), broken)
  }

  function DeskAfter(desk: Desk, h: Happening): Desk {
    match h
    case Arrives(e) => desk.(entries := desk.entries + [e.(replayedAt := None)])
    case Manual(id, req, at) => ReplayOne(desk, id, req, at)
    case Swept(broken, at) => Sweep(desk, broken, at)
    case SweepDies(_, _) => desk.(queue := desk.queue + Messages(desk.entries, Sent(desk.entries, h)))
  }

  function After(l: Ledger, h: Happening): Ledger {
    Ledger(DeskAfter(l.desk, h), l.dispatched + Sent(l.desk.entries, h))
  }

  function History(hs: seq<Happening>): Ledger {
    if hs == [] then Ledger(Desk([], []), []) else After(History(hs[..|hs| - 1]), hs[|hs| - 1])
  }

  /** Every happening publishes the messages of the ids the ledger lists for it, in that order, or a manual replay's. */
  lemma DispatchedAreMessages(l: Ledger, h: Happening)
    ensures var messages :=
        if h.Manual?
        then if ReplyTo(l.desk.entries, h.id, h.req) == Replayed then ReplayMessages(l.desk.entries[h.id]) else []
        else Messages(l.desk.entries, Sent(l.desk.entries, h));
      && After(l, h).desk.queue == l.desk.queue + messages
      && After(l, h).dispatched == l.dispatched + Sent(l.desk.entries, h)
  {
    if h.Swept? {
      SweepOverTraffic(l.desk, Due(l.desk.entries), h.broken, h.at);
    }
  }

  function Is(id: nat): nat -> bool {
    (x: nat) => x == id
  }

  /** How often the sweeps published entry `id`. */
  function Dispatches(l: Ledger, id: nat): nat {
    Count(l.dispatched, Is(id))
  }

  /** The sweeps that published entry `id` and died before marking it. */
  function Dead(hs: seq<Happening>, id: nat): nat {
    if hs == [] then 0
    else
      var earlier, h := hs[..|hs| - 1], hs[|hs| - 1];
      Dead(earlier, id) + if h.SweepDies? && id in Sent(History(earlier).desk.entries, h) then 1 else 0
  }

  /** The sweeps that published entry `id` and committed. */
  function Marked(hs: seq<Happening>, id: nat): nat {
    if hs == [] then 0
    else
      var earlier, h := hs[..|hs| - 1], hs[|hs| - 1];
      Marked(earlier, id) + if h.Swept? && id in Sent(History(earlier).desk.entries, h) then 1 else 0
  }

  lemma {:induction false} CountConcat(a: seq<nat>, b: seq<nat>, id: nat)
    ensures Count(a + b, Is(id)) == Count(a, Is(id)) + Count(b, Is(id))
  {
    if b == [] {
      assert a + b == a;
    } else {
      var n := |b| - 1;
      CountConcat(a, b[..n], id);
      assert a + b == (a + b[..n]) + [b[n]];
      CountAppend(a + b[..n], b[n], Is(id));
    }
  }

  lemma {:induction false} CountIncreasing(ids: seq<nat>, id: nat)
    requires forall j, k :: 0 <= j < k < |ids| ==> ids[j] < ids[k]
    ensures Count(ids, Is(id)) == if id in ids then 1 else 0
  {
    if ids != [] {
      var n := |ids| - 1;
      CountIncreasing(ids[..n], id);
      assert ids == ids[..n] + [ids[n]];
    }
  }

  lemma {:induction false} CountFiltered(ids: seq<nat>, broken: set<nat>, id: nat)
    ensures Count(Filter(ids, broken), Is(id)) == if id in broken then 0 else Count(ids, Is(id))
  {
    if ids != [] {
      var n := |ids| - 1;
      CountFiltered(ids[..n], broken, id);
      CountAppend(Filter(ids[..n], broken), ids[n], Is(id));
      assert Filter(ids[..n], broken) + [] == Filter(ids[..n], broken);
    }
  }

  lemma {:induction false} FilterMember(ids: seq<nat>, broken: set<nat>, id: nat)
    ensures id in Filter(ids, broken) <==> id in ids && id !in broken
  {
    if ids != [] {
      var n := |ids| - 1;
      assert ids == ids[..n] + [ids[n]];
      FilterMember(ids[..n], broken, id);
    }
  }

  /** A happening publishes an entry at most once, and only entries that are due. */
  lemma SentOnce(l: Ledger, h: Happening, id: nat)
    ensures Dispatches(After(l, h), id)
         == Dispatches(l, id) + if id in Sent(l.desk.entries, h) then 1 else 0
    ensures id in Sent(l.desk.entries, h) ==> id in Due(l.desk.entries)
    ensures h.Swept? ==> (id in Sent(l.desk.entries, h) <==> id in Due(l.desk.entries) && id !in h.broken)
  {
    var due, ids := Due(l.desk.entries), Sent(l.desk.entries, h);
    CountConcat(l.dispatched, ids, id);
    match h {
      case Swept(broken, _) =>
        CountIncreasing(due, id);
        CountFiltered(due, broken, id);
        FilterMember(due, broken, id);
      case SweepDies(reached, broken) =>
        CountIncreasing(Prefix(due, reached), id);
        CountFiltered(Prefix(due, reached), broken, id);
        FilterMember(Prefix(due, reached), broken, id);
      case _ =>
    }
  }

  /** A replay time stays; a committed sweep sets it on what it published. */
  lemma MarksStay(desk: Desk, h: Happening, id: nat)
    requires id < |desk.entries|
    ensures var after := DeskAfter(desk, h).entries;
      && id < |after|
      && (desk.entries[id].replayedAt.Some? ==> after[id].replayedAt.Some?)
      && (h.Swept? && id in Sent(desk.entries, h) ==> after[id].replayedAt.Some?)
  {
    if h.Swept? {
      SweepOverFrame(desk, Due(desk.entries), h.broken, h.at);
      FilterMember(Due(desk.entries), h.broken, id);
    }
  }

  /**
   * Over any run, the sweeps that published an entry are those that died after publishing it and at
   * most one that committed: the sweeps publish each entry at most once if none of them died with it.
   */
  lemma {:induction false} SweepFiresOnce(hs: seq<Happening>, id: nat)
    ensures Dispatches(History(hs), id) == Dead(hs, id) + Marked(hs, id)
    ensures Marked(hs, id) <= 1
    ensures Marked(hs, id) == 1 ==>
      id < |History(hs).desk.entries| && History(hs).desk.entries[id].replayedAt.Some?
  {
    if hs != [] {
      var earlier, h := hs[..|hs| - 1], hs[|hs| - 1];
      var l := History(earlier);
      SweepFiresOnce(earlier, id);
      SentOnce(l, h, id);
      if id < |l.desk.entries| {
        MarksStay(l.desk, h, id);
      }
    }
  }

  /** Nothing that happens makes an entry retryable or shortens the table. */
  lemma RetryableStays(desk: Desk, h: Happening, id: nat)
    requires id < |desk.entries|
    ensures id < |DeskAfter(desk, h).entries|
    ensures DeskAfter(desk, h).entries[id].retryable == desk.entries[id].retryable
  {
    match h {
      case Swept(broken, at) =>
        var after := DeskAfter(desk, h).entries;
        SweepOverFrame(desk, Due(desk.entries), broken, at);
        assert after[id].(replayedAt := None) == desk.entries[id].(replayedAt := None);
      case _ =>
    }
  }

  /** Over any run, no sweep ever publishes an entry that is not retryable: a permanent failure stays where it is. */
  lemma {:induction false} PermanentNeverSwept(hs: seq<Happening>, id: nat)
    requires id >= |History(hs).desk.entries| || !History(hs).desk.entries[id].retryable
    ensures Dispatches(History(hs), id) == 0
  {
    if hs != [] {
      var earlier, h := hs[..|hs| - 1], hs[|hs| - 1];
      var l := History(earlier);
      if id < |l.desk.entries| {
        RetryableStays(l.desk, h, id);
      }
      PermanentNeverSwept(earlier, id);
      SentOnce(l, h, id);
      DueIff(l.desk.entries, id);
    }
  }

  /** A happening repeats an entry exactly when it publishes one that some sweep died with. */
  lemma RepeatsIff(hs: seq<Happening>, h: Happening, id: nat)
    ensures var before, after := History(hs), History(hs + [h]);
      && ((Dispatches(before, id) >= 1 && Dispatches(after, id) > Dispatches(before, id)) <==>
            (id in Sent(before.desk.entries, h) && Dead(hs, id) > 0))
      && (h.Swept? ==>
            (id in Sent(before.desk.entries, h) <==> id in Due(before.desk.entries) && id !in h.broken))
  {
    assert (hs + [h])[..|hs|] == hs;
    SweepFiresOnce(hs, id);
    SentOnce(History(hs), h, id);
  }

  lemma DueAlone(row: DlqEntry)
    requires IsDue(row)
    ensures Due([row]) == [0]
  {
    assert [row][..0] == [];
  }

  /** A table with one due entry. */
  lemma SentAlone(row: DlqEntry)
    requires IsDue(row)
    ensures Sent([row], SweepDies(1, {})) == [0] && Sent([row], Swept({}, 1.0)) == [0]
  {
    DueAlone(row);
    assert [0][..0] == [] && [0][..1] == [0];
    assert Filter([0], {}) == Filter([], {}) + [0];
  }

  lemma OneMessage(row: DlqEntry)
    ensures Messages([row], [0]) == [SweepMessage(row)]
  {
    assert [0][..0] == [];
  }

  lemma AfterArrival(e: DlqEntry)
    ensures After(Ledger(Desk([], []), []), Arrives(e)) == Ledger(Desk([e.(replayedAt := None)], []), [])
  {
    assert [] + [e.(replayedAt := None)] == [e.(replayedAt := None)];
  }

  lemma AfterDeath(row: DlqEntry)
    requires IsDue(row)
    ensures After(Ledger(Desk([row], []), []), SweepDies(1, {})) == Ledger(Desk([row], [SweepMessage(row)]), [0])
  {
    SentAlone(row);
    OneMessage(row);
    DispatchedAreMessages(Ledger(Desk([row], []), []), SweepDies(1, {}));
  }

  lemma AfterNextSweep(row: DlqEntry, l: Ledger)
    requires IsDue(row) && l == Ledger(Desk([row], [SweepMessage(row)]), [0])
    ensures var l' := After(l, Swept({}, 1.0));
      l'.dispatched == [0] + [0] && l'.desk.queue == [SweepMessage(row)] + [SweepMessage(row)]
  {
    SentAlone(row);
    OneMessage(row);
    DispatchedAreMessages(l, Swept({}, 1.0));
  }

  lemma HistoryOfThree(a: Happening, b: Happening, c: Happening)
    ensures History([a, b, c]) == After(After(After(Ledger(Desk([], []), []), a), b), c)
  {
    assert [a, b, c][..2] == [a, b] && [a, b][..1] == [a] && [a][..0] == [];
    assert History([a]) == After(History([]), a);
    assert History([a, b]) == After(History([a]), b);
  }

  /** It does happen: a sweep that dies after publishing makes the next one publish again. */
  lemma DeadSweepFiresTwice(e: DlqEntry)
    requires e.retryable
    ensures var l := History([Arrives(e), SweepDies(1, {}), Swept({}, 1.0)]);
      l.dispatched == [0, 0] && l.desk.queue == [SweepMessage(e), SweepMessage(e)]
  {
    var row := e.(replayedAt := None);
    AfterArrival(e);
    AfterDeath(row);
    AfterNextSweep(row, Ledger(Desk([row], [SweepMessage(row)]), [0]));
    HistoryOfThree(Arrives(e), SweepDies(1, {}), Swept({}, 1.0));
  }
}
