/**
 The outbox relay: it publishes a prefix of the oldest unprocessed rows and then marks that
 prefix. First one sweep as the code runs it, then any number of relays that may crash
 between publishing and marking.
 */
module Relay {
  import opened Common
  import opened Oldest

  datatype OutRow = OutRow(createdAt: Time, subject: string, payload: string, correlationId: string, processed: bool)

  /** What the broker receives; the row id is the deduplication key. */
  datatype Message = Message(id: Id, subject: string, payload: string, correlationHeader: Option<string>)

  function MessageOf(id: Id, r: OutRow): Message {
    Message(id, r.subject, r.payload, if r.correlationId == "" then None else Some(r.correlationId))
  }

  /** The message states what its row states, and has a correlation header exactly if the row has a correlation id. */
  predicate Carries(m: Message, rows: map<Id, OutRow>) {
    && m.id in rows
    && m.subject == rows[m.id].subject && m.payload == rows[m.id].payload
    && (m.correlationHeader == None <==> rows[m.id].correlationId == "")
    && (m.correlationHeader.Some? ==> m.correlationHeader.value == rows[m.id].correlationId)
  }

  function MessagesOf(rows: map<Id, OutRow>, ids: seq<Id>): seq<Message>
    requires forall id :: id in ids ==> id in rows
  {
    seq(|ids|, i requires 0 <= i < |ids| => MessageOf(ids[i], rows[ids[i]]))
  }

  lemma MessagesOfPrefix(rows: map<Id, OutRow>, ids: seq<Id>, n: nat)
    requires n <= |ids| && forall id :: id in ids ==> id in rows
    ensures MessagesOf(rows, ids)[..n] == MessagesOf(rows, ids[..n])
  {
  }

  function IdsOf(batch: seq<Message>): seq<Id> {
    seq(|batch|, i requires 0 <= i < |batch| => batch[i].id)
  }

  /** The backlog: unprocessed rows with their age. */
  function Backlog(rows: map<Id, OutRow>): map<Id, int> {
    map id | id in rows && !rows[id].processed :: rows[id].createdAt
  }

  /** UPDATE outbox_events SET processed_at WHERE id = ANY(ids) AND processed_at IS NULL. */
  function Marked(rows: map<Id, OutRow>, ids: seq<Id>): map<Id, OutRow> {
    map id | id in rows :: if id in ids then rows[id].(processed := true) else rows[id]
  }

  lemma MarkShrinksBacklog(rows: map<Id, OutRow>, ids: seq<Id>)
    ensures Backlog(Marked(rows, ids)) == Without(Backlog(rows), ids)
  {
  }

  // ---- One sweep ----

  class OutboxStore {
    var rows: map<Id, OutRow>

    /** A plain read of the oldest unprocessed rows. */
    method FetchBatch(limit: nat) returns (r: Option<seq<Message>>)
      ensures r.Some? ==> IsOldest(Backlog(rows), limit, IdsOf(r.value)) && r.value == MessagesOf(rows, IdsOf(r.value))
      ensures r.Some? ==> forall i :: 0 <= i < |r.value| ==> Carries(r.value[i], rows)
    {
      if * {
        return None;
      }
      var cursor := Pick(Backlog(rows), limit);
      var out: seq<Message> := [];
      for i := 0 to |cursor|
        invariant out == MessagesOf(rows, cursor[..i])
      {
        var row := rows[cursor[i]];
        var header := None;
        if row.correlationId != "" {
          header := Some(row.correlationId);
        }
        out := out + [Message(cursor[i], row.subject, row.payload, header)];
      }
      assert cursor[..|cursor|] == cursor;
      assert IdsOf(out) == cursor;
      return Some(out);
    }

    method MarkProcessed(ids: seq<Id>) returns (ok: bool)
      modifies this
      ensures rows == if ok then Marked(old(rows), ids) else old(rows)
      ensures rows.Keys == old(rows).Keys
      ensures forall id :: id in rows ==>
                rows[id] == old(rows)[id].(processed := old(rows)[id].processed || (ok && id in ids))
    {
      if * {
        return false;
      }
      rows := Marked(rows, ids);
      return true;
    }

    /** A scan of the table that counts the rows not yet marked. */
    method CountUnprocessed() returns (n: nat)
      ensures n == |Backlog(rows)|
    {
      n := 0;
      var todo := rows.Keys;
      ghost var seen: set<Id> := {};
      while todo != {}
        invariant todo <= rows.Keys && n == |seen|
        invariant forall id :: id in seen <==> id in rows && id !in todo && !rows[id].processed
        decreases todo
      {
        var id :| id in todo;
        if !rows[id].processed {
          n := n + 1;
          seen := seen + {id};
        }
        todo := todo - {id};
      }
      assert seen == Backlog(rows).Keys;
      assert |Backlog(rows)| == |Backlog(rows).Keys|;
    }
  }

  class Broker {
    var log: seq<Message>

    /** A publish that reports failure may still have been stored. */
    method Publish(m: Message) returns (ok: bool)
      modifies this
      ensures log == old(log) + [m] || (!ok && log == old(log))
    {
      if * {
        return false;
      }
      if * {
        log := log + [m];
        return false;
      }
      log := log + [m];
      return true;
    }
  }

  datatype SweepError = FetchFailed | MarkFailed

  class OutboxRelay {
    const store: OutboxStore
    const bus: Broker
    const batchSize: nat

    constructor (store: OutboxStore, bus: Broker, batchSize: nat)
      ensures this.store == store && this.bus == bus && this.batchSize == batchSize
    {
      this.store, this.bus, this.batchSize := store, bus, batchSize;
    }

    /** The publish loop: in order, up to the first failure; `published` are the ids that went out. */
    method PublishBatch(batch: seq<Message>) returns (published: seq<Id>, cut: bool)
      modifies bus
      ensures |published| <= |batch| && published == IdsOf(batch)[..|published|]
      ensures cut <==> |published| < |batch|
      ensures || bus.log == old(bus.log) + batch[..|published|]
              || (cut && bus.log == old(bus.log) + batch[..|published| + 1])
    {
      published, cut := [], false;
      for i := 0 to |batch|
        invariant published == IdsOf(batch)[..i] && !cut
        invariant bus.log == old(bus.log) + batch[..i]
      {
        var ok := bus.Publish(batch[i]);
        assert batch[..i + 1] == batch[..i] + [batch[i]];
        if !ok {
          cut := true;
          break;
        }
        published := published + [batch[i].id];
      }
    }

    /**
     Publishes the batch in order up to the first failure and marks what was published.
     `sent` is the length of that prefix, `cut` says whether a publish failed.
     */
    method Sweep() returns (e: Option<SweepError>, sent: nat, cut: bool, ghost ids: seq<Id>)
      modifies store, bus
      ensures e == Some(FetchFailed) ==> store.rows == old(store.rows) && bus.log == old(bus.log)
      ensures e != Some(FetchFailed) ==>
                && IsOldest(Backlog(old(store.rows)), batchSize, ids)
                && sent <= |ids| && (cut <==> sent < |ids|)
                && (|| bus.log == old(bus.log) + MessagesOf(old(store.rows), ids[..sent])
                    || (cut && bus.log == old(bus.log) + MessagesOf(old(store.rows), ids[..sent + 1])))
                && store.rows == (if e == None then Marked(old(store.rows), ids[..sent]) else old(store.rows))
      ensures e == Some(MarkFailed) ==> sent > 0
      ensures old(bus.log) <= bus.log
      ensures forall i :: |old(bus.log)| <= i < |bus.log| ==> Carries(bus.log[i], old(store.rows))
    {
      sent, cut, ids := 0, false, [];
      var fetched := store.FetchBatch(batchSize);
      if fetched == None {
        return Some(FetchFailed), sent, cut, ids;
      }
      var batch := fetched.value;
      ids := IdsOf(batch);
      var published: seq<Id>;
      published, cut := PublishBatch(batch);
      sent := |published|;
      MessagesOfPrefix(store.rows, ids, sent);
      if cut {
        MessagesOfPrefix(store.rows, ids, sent + 1);
      }
      if sent == 0 {
        assert Marked(store.rows, []) == store.rows;
        return None, sent, cut, ids;
      }
      var marked := store.MarkProcessed(published);
      return (if marked then None else Some(MarkFailed)), sent, cut, ids;
    }
  }

  /** A sweep that publishes and marks at least one row leaves a strictly smaller backlog. */
  lemma SweepShrinksBacklog(rows: map<Id, OutRow>, limit: nat, ids: seq<Id>, sent: nat)
    requires IsOldest(Backlog(rows), limit, ids) && sent <= |ids|
    ensures |Backlog(Marked(rows, ids[..sent]))| == |Backlog(rows)| - sent
    ensures sent == |ids| && limit > 0 && Backlog(rows) != map[] ==> |Backlog(Marked(rows, ids))| < |Backlog(rows)|
  {
    MarkShrinksBacklog(rows, ids[..sent]);
    WithoutSize(Backlog(rows), ids[..sent]);
    assert sent == |ids| ==> ids[..sent] == ids;
  }

  /** The table after error-free sweeps that fetched `batches` in turn. */
  ghost function Swept(rows: map<Id, OutRow>, batches: seq<seq<Id>>): map<Id, OutRow>
    decreases |batches|
  {
    if batches == [] then rows else Swept(Marked(rows, batches[0]), batches[1..])
  }

  lemma {:induction false} SweptBacklog(rows: map<Id, OutRow>, batches: seq<seq<Id>>)
    ensures Backlog(Swept(rows, batches)) == Left(Backlog(rows), batches)
    decreases |batches|
  {
    if batches != [] {
      MarkShrinksBacklog(rows, batches[0]);
      SweptBacklog(Marked(rows, batches[0]), batches[1..]);
    }
  }

  /** A fixed outbox of n unprocessed rows drains in exactly ceil(n / batch) error-free sweeps. */
  lemma OutboxDrains(rows: map<Id, OutRow>, limit: nat, batches: seq<seq<Id>>)
    requires limit > 0 && Rounds(Backlog(rows), limit, batches)
    ensures Backlog(Swept(rows, batches)) == map[] <==> |batches| >= CeilDiv(|Backlog(rows)|, limit)
  {
    SweptBacklog(rows, batches);
    RoundsDrain(Backlog(rows), limit, batches);
  }

  // ---- Any number of relays, with crashes ----

  /** A sweep in progress: its batch and how much of it is out. */
  datatype Worker = Worker(batch: seq<Id>, sent: nat)

  datatype State = State(rows: map<Id, OutRow>, stream: seq<Id>, workers: map<nat, Worker>)

  datatype Action =
    | Insert(id: Id, row: OutRow)                       // a service commits an outbox row
    | Fetch(w: nat, limit: nat, batch: seq<Id>)
    | Publish(w: nat, seen: bool)                       // unseen: stored, but reported as failed
    | Mark(w: nat)                                      // after the loop, or after its break
    | Crash(w: nat)                                     // or a failed mark

  ghost predicate Enabled(s: State, a: Action) {
    match a
    case Insert(id, row) => id !in s.rows && !row.processed
    case Fetch(w, limit, batch) => w !in s.workers && IsOldest(Backlog(s.rows), limit, batch)
    case Publish(w, _) => w in s.workers && s.workers[w].sent < |s.workers[w].batch|
    case Mark(w) => w in s.workers && s.workers[w].sent <= |s.workers[w].batch|
    case Crash(w) => w in s.workers
  }

  ghost function Next(s: State, a: Action): State
    requires Enabled(s, a)
  {
    match a
    case Insert(id, row) => s.(rows := s.rows[id := row])
    case Fetch(w, _, batch) => s.(workers := s.workers[w := Worker(batch, 0)])
    case Publish(w, seen) =>
      var x := s.workers[w];
      s.(stream := s.stream + [x.batch[x.sent]],
         workers := if seen then s.workers[w := x.(sent := x.sent + 1)] else s.workers)
    case Mark(w) =>
      s.(rows := Marked(s.rows, s.workers[w].batch[..s.workers[w].sent]), workers := s.workers - {w})
    case Crash(w) => s.(workers := s.workers - {w})
  }

  ghost function Run(rows: map<Id, OutRow>, trace: seq<Action>): Option<State> {
    if trace == [] then Some(State(rows, [], map[]))
    else
      match Run(rows, trace[..|trace| - 1])
      case None => None
      case Some(p) => if Enabled(p, trace[|trace| - 1]) then Some(Next(p, trace[|trace| - 1])) else None
  }

  ghost predicate Fresh(rows: map<Id, OutRow>) {
    forall id :: id in rows ==> !rows[id].processed
  }

  ghost predicate WorkerInv(s: State, x: Worker) {
    && x.sent <= |x.batch|
    && (forall i :: 0 <= i < |x.batch| ==> x.batch[i] in s.rows)
    && (forall i :: 0 <= i < x.sent ==> x.batch[i] in s.stream)
  }

  ghost predicate Inv(s: State) {
    && (forall id :: id in s.rows && s.rows[id].processed ==> id in s.stream)
    && (forall id :: id in s.stream ==> id in s.rows)
    && (forall w :: w in s.workers ==> WorkerInv(s, s.workers[w]))
  }

  lemma NextKeepsInv(s: State, a: Action)
    requires Inv(s) && Enabled(s, a)
    ensures Inv(Next(s, a))
    ensures s.rows.Keys <= Next(s, a).rows.Keys && s.stream <= Next(s, a).stream
  {
    var s' := Next(s, a);
    forall w | w in s'.workers ensures WorkerInv(s', s'.workers[w]) {
      if w in s.workers {
        assert WorkerInv(s, s.workers[w]);
      }
    }
    if a.Mark? {
      assert WorkerInv(s, s.workers[a.w]);
    }
  }

  /** However many relays run and crash: a processed row was published, and no row is ever lost from the table. */
  lemma {:induction false} ProcessedWasPublished(rows: map<Id, OutRow>, trace: seq<Action>)
    requires Fresh(rows) && Run(rows, trace).Some?
    ensures Inv(Run(rows, trace).value)
    ensures forall id :: id in Run(rows, trace).value.rows && Run(rows, trace).value.rows[id].processed
              ==> id in Run(rows, trace).value.stream
    ensures rows.Keys <= Run(rows, trace).value.rows.Keys
  {
    if trace != [] {
      ProcessedWasPublished(rows, trace[..|trace| - 1]);
      NextKeepsInv(Run(rows, trace[..|trace| - 1]).value, trace[|trace| - 1]);
    }
  }

  // ---- One relay over a fixed outbox: order of first publications ----

  /** Each published id once, at its first publication. */
  function Firsts(stream: seq<Id>): seq<Id> {
    if stream == [] then [] else
      var front, last := stream[..|stream| - 1], stream[|stream| - 1];
      if last in front then Firsts(front) else Firsts(front) + [last]
  }

  lemma {:induction false} FirstsHasAll(stream: seq<Id>, id: Id)
    ensures id in Firsts(stream) <==> id in stream
  {
    if stream != [] {
      FirstsHasAll(stream[..|stream| - 1], id);
      assert stream == stream[..|stream| - 1] + [stream[|stream| - 1]];
    }
  }

  ghost predicate InOrder(rows: map<Id, OutRow>, ids: seq<Id>) {
    && (forall id :: id in ids ==> id in rows)
    && forall i, j :: 0 <= i < j < |ids| ==> rows[ids[i]].createdAt <= rows[ids[j]].createdAt
  }

  /** Whatever is not yet published is no older than what is. */
  ghost predicate Frontier(s: State) {
    forall p, u :: p in s.stream && p in s.rows && u in s.rows && u !in s.stream ==>
      s.rows[p].createdAt <= s.rows[u].createdAt
  }

  /** The batch in hand comes before everything else that is unpublished. */
  ghost predicate BatchLeads(s: State, x: Worker) {
    && (forall i :: 0 <= i < |x.batch| ==> x.batch[i] in s.rows)
    && (forall i, j :: 0 <= i < j < |x.batch| ==> s.rows[x.batch[i]].createdAt <= s.rows[x.batch[j]].createdAt)
    && (forall i, u :: 0 <= i < |x.batch| && u in s.rows && u !in s.stream && u !in x.batch
          ==> s.rows[x.batch[i]].createdAt <= s.rows[u].createdAt)
  }

  ghost predicate OrderInv(s: State) {
    && Inv(s) && Frontier(s)
    && InOrder(s.rows, Firsts(s.stream))
    && (forall w :: w in s.workers ==> w == 0 && BatchLeads(s, s.workers[w]))
  }

  /** The steps of a single relay while no service adds rows. */
  predicate Alone(a: Action) {
    !a.Insert? && a.w == 0
  }

  /** The next row of the batch is no younger than anything else unpublished. */
  lemma NextIsOldest(s: State)
    requires OrderInv(s) && 0 in s.workers && s.workers[0].sent < |s.workers[0].batch|
    ensures var id := s.workers[0].batch[s.workers[0].sent];
            id in s.rows && forall u :: u in s.rows && u !in s.stream ==> s.rows[id].createdAt <= s.rows[u].createdAt
  {
    var x := s.workers[0];
    assert WorkerInv(s, x) && BatchLeads(s, x);
    forall u | u in s.rows && u !in s.stream ensures s.rows[x.batch[x.sent]].createdAt <= s.rows[u].createdAt {
      if u in x.batch {
        var j :| 0 <= j < |x.batch| && x.batch[j] == u;
        assert j >= x.sent;
      }
    }
  }

  lemma PublishKeepsFrontier(s: State, seen: bool)
    requires OrderInv(s) && Enabled(s, Publish(0, seen))
    ensures Frontier(Next(s, Publish(0, seen))) && InOrder(s.rows, Firsts(Next(s, Publish(0, seen)).stream))
  {
    var id := s.workers[0].batch[s.workers[0].sent];
    var s' := Next(s, Publish(0, seen));
    NextIsOldest(s);
    assert s'.stream == s.stream + [id] && s'.stream[..|s.stream|] == s.stream;
    if id !in s.stream {
      forall p | p in Firsts(s.stream) ensures p in s.stream && s.rows[p].createdAt <= s.rows[id].createdAt {
        FirstsHasAll(s.stream, p);
      }
    }
  }

  lemma FetchLeads(s: State, limit: nat, batch: seq<Id>)
    requires Inv(s) && IsOldest(Backlog(s.rows), limit, batch)
    ensures BatchLeads(s, Worker(batch, 0))
  {
    forall i, u | 0 <= i < |batch| && u in s.rows && u !in s.stream && u !in batch
      ensures s.rows[batch[i]].createdAt <= s.rows[u].createdAt
    {
      assert u in Backlog(s.rows);
    }
  }

  /** Keys and ages do not change while no service adds rows. */
  lemma AloneKeepsAges(s: State, a: Action)
    requires Alone(a) && Enabled(s, a)
    ensures Next(s, a).rows.Keys == s.rows.Keys
    ensures forall id :: id in s.rows ==> Next(s, a).rows[id].createdAt == s.rows[id].createdAt
  {
  }

  lemma PublishKeepsOrder(s: State, seen: bool)
    requires OrderInv(s) && Enabled(s, Publish(0, seen))
    ensures OrderInv(Next(s, Publish(0, seen)))
  {
    NextKeepsInv(s, Publish(0, seen));
    PublishKeepsFrontier(s, seen);
    assert BatchLeads(s, s.workers[0]);
  }

  /** Fetching, marking and crashing publish nothing. */
  lemma QuietKeepsOrder(s: State, a: Action)
    requires OrderInv(s) && Alone(a) && Enabled(s, a) && !a.Publish?
    ensures Frontier(Next(s, a)) && InOrder(Next(s, a).rows, Firsts(Next(s, a).stream))
  {
    AloneKeepsAges(s, a);
    assert Next(s, a).stream == s.stream;
  }

  lemma QuietKeepsBatch(s: State, a: Action)
    requires OrderInv(s) && Alone(a) && Enabled(s, a) && !a.Publish?
    ensures forall w :: w in Next(s, a).workers ==> w == 0 && BatchLeads(Next(s, a), Next(s, a).workers[w])
  {
    if a.Fetch? {
      FetchLeads(s, a.limit, a.batch);
    }
  }

  lemma OrderStep(s: State, a: Action)
    requires OrderInv(s) && Alone(a) && Enabled(s, a)
    ensures OrderInv(Next(s, a))
  {
    if a.Publish? {
      PublishKeepsOrder(s, a.seen);
    } else {
      NextKeepsInv(s, a);
      QuietKeepsOrder(s, a);
      QuietKeepsBatch(s, a);
    }
  }

  /** With one relay over a fixed outbox, rows are first published oldest first, whatever fails in between. */
  lemma {:induction false} FirstPublicationsInOrder(rows: map<Id, OutRow>, trace: seq<Action>)
    requires Fresh(rows) && Run(rows, trace).Some? && forall i :: 0 <= i < |trace| ==> Alone(trace[i])
    ensures var s := Run(rows, trace).value; OrderInv(s) && InOrder(s.rows, Firsts(s.stream))
    ensures var s := Run(rows, trace).value;
            s.rows.Keys == rows.Keys && forall id :: id in rows ==> s.rows[id].createdAt == rows[id].createdAt
  {
    if trace != [] {
      FirstPublicationsInOrder(rows, trace[..|trace| - 1]);
      OrderStep(Run(rows, trace[..|trace| - 1]).value, trace[|trace| - 1]);
      AloneKeepsAges(Run(rows, trace[..|trace| - 1]).value, trace[|trace| - 1]);
    }
  }
}
