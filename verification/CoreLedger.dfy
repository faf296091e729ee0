/**
 What every use case keeps: the seat ledger, the reservation state machine, and
 the outbox as a ledger from which both can be rebuilt.
 */
module CoreLedger {
  import opened Common
  import opened CoreModel
  import opened Sums

  // ---- Seat ledger ----

  /** A row as every reachable database holds it. */
  ghost predicate RowInv(id: Id, r: Row) {
    && r.id == id && id != ""
    && r.quantity > 0
    && r.amountCents >= 0
    && r.currency == CURRENCY
    && (r.version == 1 <==> r.status == Pending)
    && (r.version == 2 <==> r.status != Pending)
    && r.confirmedAt == (if r.status == Confirmed then Some(r.updatedAt) else None)
    && (r.status == Expired ==> r.updatedAt > r.expiresAt)
  }

  ghost predicate RowsInv(db: Db) {
    forall k :: k in db.reservations ==>
      && RowInv(k, db.reservations[k])
      && db.reservations[k].eventId in db.events
      && db.reservations[k].amountCents
           == Wrap64(db.events[db.reservations[k].eventId].priceCents * db.reservations[k].quantity)
  }

  /** The three checks of the load test's inventory query, for one event. */
  ghost predicate CountsOf(db: Db, e: Id)
    requires e in db.events
  {
    && db.events[e].reserved == Sum(db.reservations, InStatus(e, Pending))
    && db.events[e].sold == Sum(db.reservations, InStatus(e, Confirmed))
    && db.events[e].reserved + db.events[e].sold <= db.events[e].capacity <= INT4_MAX
  }

  ghost predicate CountersInv(db: Db) {
    forall e :: e in db.events ==> CountsOf(db, e)
  }

  ghost predicate OneActiveInv(db: Db) {
    forall a, b | a in db.reservations && b in db.reservations && a != b ::
      && db.reservations[a].Active() && db.reservations[b].Active()
      && db.reservations[a].userId == db.reservations[b].userId
      ==> db.reservations[a].eventId != db.reservations[b].eventId
  }

  ghost predicate LedgerInv(db: Db) {
    RowsInv(db) && CountersInv(db) && OneActiveInv(db)
  }

  /** A freshly seeded database. */
  ghost predicate Seeded(db: Db) {
    && db.reservations == map[]
    && db.outbox == []
    && forall e :: e in db.events ==>
         db.events[e].reserved == 0 && db.events[e].sold == 0 && 0 < db.events[e].capacity <= INT4_MAX
  }

  lemma SeededLedger(db: Db)
    requires Seeded(db)
    ensures LedgerInv(db)
  {
  }

  /** What a writing use case writes: the new row, the event's new counters, and why they were allowed. */
  ghost predicate Writes(db: Db, ev: EventRow, r: Row) {
    && r.eventId in db.events
    && if r.status == Pending then
         && r.id != "" && r.id !in db.reservations
         && !ActiveFor(db.reservations, r.userId, r.eventId)
         && r.quantity > 0 && r.amountCents >= 0 && r.currency == CURRENCY && r.version == 1 && r.confirmedAt == None
         && r.amountCents == Wrap64(db.events[r.eventId].priceCents * r.quantity)
         && SqlReserve(db.events[r.eventId], r.quantity) == Ok(ev)
       else
         && r.id in db.reservations
         && Transition(db.reservations[r.id], r.status, r.updatedAt) == Ok(r)
         && SqlSettle(db.events[r.eventId], r.quantity, r.status) == Ok(ev)
  }

  /** How the sum over the rows of one event in one status moves with a write. */
  lemma WriteMovesSum(db: Db, ev: EventRow, r: Row, e: Id, st: Status)
    requires RowsInv(db) && Writes(db, ev, r)
    ensures Sum(Write(db, ev, r).reservations, InStatus(e, st))
         == Sum(db.reservations, InStatus(e, st))
            + (if e == r.eventId && st == r.status then r.quantity else 0)
            - (if e == r.eventId && st == Pending && r.status != Pending then r.quantity else 0)
  {
    SumPut(db.reservations, InStatus(e, st), r.id, r);
  }

  /** The counters the guarded statement wrote, against the sums it did not look at. */
  lemma WriteKeepsCounts(db: Db, ev: EventRow, r: Row, e: Id)
    requires RowsInv(db) && Writes(db, ev, r) && e in db.events && CountsOf(db, e)
    ensures CountsOf(Write(db, ev, r), e)
  {
    WriteMovesSum(db, ev, r, e, Pending);
    WriteMovesSum(db, ev, r, e, Confirmed);
    if e == r.eventId && r.status != Pending {
      assert ev.reserved == db.events[e].reserved - r.quantity;
    }
  }

  lemma WriteKeepsCounters(db: Db, ev: EventRow, r: Row)
    requires LedgerInv(db) && Writes(db, ev, r)
    ensures CountersInv(Write(db, ev, r))
  {
    forall e | e in db.events ensures CountsOf(Write(db, ev, r), e) {
      assert CountsOf(db, e);
      WriteKeepsCounts(db, ev, r, e);
    }
  }

  lemma WriteKeepsRows(db: Db, ev: EventRow, r: Row)
    requires RowsInv(db) && Writes(db, ev, r)
    ensures RowsInv(Write(db, ev, r))
  {
  }

  lemma WriteKeepsOneActive(db: Db, ev: EventRow, r: Row)
    requires RowsInv(db) && OneActiveInv(db) && Writes(db, ev, r)
    ensures OneActiveInv(Write(db, ev, r))
  {
  }

  lemma WriteKeepsLedger(db: Db, ev: EventRow, r: Row)
    requires LedgerInv(db) && Writes(db, ev, r)
    ensures LedgerInv(Write(db, ev, r))
  {
    WriteKeepsRows(db, ev, r);
    WriteKeepsCounters(db, ev, r);
    WriteKeepsOneActive(db, ev, r);
  }

  /** An applied use case is exactly one permitted write, of the reservation it names. */
  lemma AppliedWrites(db: Db, op: Op) returns (ev: EventRow)
    requires LedgerInv(db) && Exec(db, op).Applied?
    ensures Writes(db, ev, Exec(db, op).row)
    ensures Exec(db, op).db == Write(db, ev, Exec(db, op).row)
    ensures Names(op.cmd, Exec(db, op).row)
  {
    var r := Exec(db, op).row;
    ev := Exec(db, op).db.events[r.eventId];
  }

  /** The written row is the one the command is about, in the state it asked for. */
  ghost predicate Names(c: Cmd, r: Row) {
    if c.Reserve? then r.status == Pending else r.id == c.rid && r.status == c.to
  }

  /** What a use case may do, without saying when. */
  ghost predicate StepOf(db: Db, c: Cmd, db': Db) {
    db' == db || exists ev, r :: Writes(db, ev, r) && Names(c, r) && db' == Write(db, ev, r)
  }

  lemma ExecIsStep(db: Db, op: Op)
    requires LedgerInv(db)
    ensures StepOf(db, op.cmd, Exec(db, op).After(db))
  {
    if Exec(db, op).Applied? {
      var ev := AppliedWrites(db, op);
    }
  }

  /** A use case settles only the reservation it names, and only as it was told. */
  lemma StepSettles(db: Db, c: Cmd, db': Db, rid: Id)
    requires StepOf(db, c, db') && rid in db'.reservations
    ensures var st := db'.reservations[rid].status;
            || (rid in db.reservations && st == db.reservations[rid].status)
            || st == Pending
            || (c.Settle? && c.rid == rid && st == c.to)
  {
  }

  /** Reserved and sold counters, capacity, one active reservation per user: kept by every use case. */
  lemma ExecKeepsLedger(db: Db, op: Op)
    requires LedgerInv(db)
    ensures LedgerInv(Exec(db, op).After(db))
  {
    if Exec(db, op).Applied? {
      var ev := AppliedWrites(db, op);
      WriteKeepsLedger(db, ev, Exec(db, op).row);
    }
  }

  lemma {:induction false} SerialKeepsLedger(db: Db, ops: seq<Op>)
    requires LedgerInv(db)
    ensures LedgerInv(Serial(db, ops))
  {
    if ops != [] {
      SerialKeepsLedger(db, ops[..|ops| - 1]);
      ExecKeepsLedger(Serial(db, ops[..|ops| - 1]), ops[|ops| - 1]);
    }
  }

  /**
   Settling an existing reservation, serially: a PENDING one always moves (an expiry only
   after the window), a settled one never does; no counter guard or version check can fail.
   */
  lemma SettleAlwaysLands(db: Db, op: Op)
    requires LedgerInv(db) && op.cmd.Settle? && op.cmd.rid in db.reservations
    ensures var r := db.reservations[op.cmd.rid];
            if r.status != Pending then Exec(db, op) == Settled(r, op.cmd.to).value
            else if op.cmd.to == Expired && op.env.now <= r.expiresAt then Exec(db, op) == Rejected(NotExpired)
            else Exec(db, op).Applied? && Exec(db, op).row == Transition(r, op.cmd.to, op.env.now).value
    ensures Exec(db, op) != Rejected(NotEnoughReserved) && Exec(db, op) != Rejected(Conflict)
  {
    CountersCoverRows(db, op.cmd.rid);
  }

  /** Confirming or failing an existing reservation leaves it settled, whatever it was before. */
  lemma OutcomeSettles(db: Db, op: Op)
    requires LedgerInv(db) && op.cmd.Settle? && op.cmd.to != Expired && op.cmd.rid in db.reservations
    ensures op.cmd.rid in Exec(db, op).After(db).reservations
    ensures Exec(db, op).After(db).reservations[op.cmd.rid].status != Pending
  {
    SettleAlwaysLands(db, op);
    if Exec(db, op).Applied? {
      var ev := AppliedWrites(db, op);
    }
  }

  /** Seats left for sale never go negative and no reservation is counted beyond its event's counter. */
  lemma CountersCoverRows(db: Db, k: Id)
    requires LedgerInv(db) && k in db.reservations
    ensures var r, ev := db.reservations[k], db.events[db.reservations[k].eventId];
            && (r.status == Pending ==> r.quantity <= ev.reserved)
            && (r.status == Confirmed ==> r.quantity <= ev.sold)
    ensures db.events[db.reservations[k].eventId].reserved >= 0 && db.events[db.reservations[k].eventId].sold >= 0
  {
    SumBounds(db.reservations, InStatus(db.reservations[k].eventId, Pending));
    SumBounds(db.reservations, InStatus(db.reservations[k].eventId, Confirmed));
  }

  // ---- The state machine over whole runs ----

  /** `r` may become `r'`: terms never change, a settled row never changes at all. */
  ghost predicate RowEvolves(r: Row, r': Row) {
    && r' == r.(status := r'.status, version := r'.version, confirmedAt := r'.confirmedAt, updatedAt := r'.updatedAt)
    && (r.status != Pending ==> r' == r)
  }

  ghost predicate Evolves(db: Db, db': Db) {
    && db'.events.Keys == db.events.Keys
    && (forall e :: e in db.events ==>
          db'.events[e] == db.events[e].(reserved := db'.events[e].reserved, sold := db'.events[e].sold))
    && (forall k :: k in db.reservations ==>
          k in db'.reservations && RowEvolves(db.reservations[k], db'.reservations[k]))
    && db.outbox <= db'.outbox
  }

  lemma ExecEvolves(db: Db, op: Op)
    requires LedgerInv(db)
    ensures Evolves(db, Exec(db, op).After(db))
  {
    if Exec(db, op).Applied? {
      var ev := AppliedWrites(db, op);
    }
  }

  lemma EvolvesTransitive(a: Db, b: Db, c: Db)
    requires Evolves(a, b) && Evolves(b, c)
    ensures Evolves(a, c)
  {
    forall k | k in a.reservations ensures k in c.reservations && RowEvolves(a.reservations[k], c.reservations[k]) {
      assert RowEvolves(a.reservations[k], b.reservations[k]);
      assert RowEvolves(b.reservations[k], c.reservations[k]);
    }
  }

  /**
   Over any run: rows are never lost, terms and prices never change, terminal states are final,
   the outbox only grows.
   */
  lemma {:induction false} SerialEvolves(db: Db, ops: seq<Op>)
    requires LedgerInv(db)
    ensures Evolves(db, Serial(db, ops))
  {
    if ops != [] {
      var front := ops[..|ops| - 1];
      SerialKeepsLedger(db, front);
      SerialEvolves(db, front);
      ExecEvolves(Serial(db, front), ops[|ops| - 1]);
      EvolvesTransitive(db, Serial(db, front), Serial(db, ops));
    }
  }

  // ---- Price ----

  lemma WrapIsExactIff(p: int)
    requires p > 0
    ensures Wrap64(p) == p <==> p < TWO_63
  {
  }

  /**
   The stored amount is price times quantity exactly when that product fits in an
   int64. The code multiplies without an overflow check.
   */
  lemma AmountExactIff(db: Db, k: Id)
    requires RowsInv(db) && k in db.reservations && db.events[db.reservations[k].eventId].priceCents > 0
    ensures var p := db.events[db.reservations[k].eventId].priceCents * db.reservations[k].quantity;
            db.reservations[k].amountCents == p <==> p < TWO_63
  {
    var price, quantity := db.events[db.reservations[k].eventId].priceCents, db.reservations[k].quantity;
    MulMonotone(1, price, quantity);
    WrapIsExactIff(price * quantity);
  }

  /** An event priced at 2^62 + 1 cents sells four seats for four cents. */
  lemma AmountOverflowExample()
    ensures var ev := EventRow(0, 0x4000_0000_0000_0001, 10, 0, 0);
            var db := Db(map["e" := ev], map[], []);
            var o := Exec(db, Op(Reserve("r", "e", "u", 4), Env(0, 10, "x", true)));
            Seeded(db) && o.Applied? && o.row.amountCents == 4
  {
  }

  // ---- The outbox as a ledger ----

  /** Everything the outbox alone says about counters and statuses. */
  datatype View = View(reserved: map<Id, int>, sold: map<Id, int>, status: map<Id, Status>)

  function At(m: map<Id, int>, e: Id): int {
    if e in m then m[e] else 0
  }

  function Bump(m: map<Id, int>, e: Id, d: int): map<Id, int> {
    m[e := At(m, e) + d]
  }

  function StatusOfReason(reason: string): Status {
    if reason == EXPIRED_REASON then Expired else if reason == FAILED_REASON then Failed else Cancelled
  }

  function Fold(v: View, t: Ticket): View {
    match t
    case TicketReserved(rid, eid, _, q, _, _, _) =>
      View(Bump(v.reserved, eid, q), v.sold, v.status[rid := Pending])
    case TicketConfirmed(rid, eid, q) =>
      View(Bump(v.reserved, eid, -q), Bump(v.sold, eid, q), v.status[rid := Confirmed])
    case TicketReleased(rid, eid, q, reason) =>
      View(Bump(v.reserved, eid, -q), v.sold, v.status[rid := StatusOfReason(reason)])
  }

  function Rebuild(outbox: seq<Ticket>): View {
    if outbox == [] then View(map[], map[], map[])
    else Fold(Rebuild(outbox[..|outbox| - 1]), outbox[|outbox| - 1])
  }

  /** Number of ticket.reserved (or of closing tickets) about one reservation. */
  function Tickets(outbox: seq<Ticket>, rid: Id, reserved: bool): nat {
    if outbox == [] then 0 else
      var t := outbox[|outbox| - 1];
      Tickets(outbox[..|outbox| - 1], rid, reserved) + (if t.rid == rid && t.TicketReserved? == reserved then 1 else 0)
  }

  ghost predicate ViewInv(db: Db) {
    var v := Rebuild(db.outbox);
    && (forall e :: e in db.events ==>
          At(v.reserved, e) == db.events[e].reserved && At(v.sold, e) == db.events[e].sold)
    && v.status.Keys == db.reservations.Keys
    && (forall k :: k in db.reservations ==> v.status[k] == db.reservations[k].status)
  }

  ghost predicate TicketCountInv(db: Db) {
    forall rid ::
      && Tickets(db.outbox, rid, true) == (if rid in db.reservations then 1 else 0)
      && Tickets(db.outbox, rid, false)
           == (if rid in db.reservations && db.reservations[rid].status != Pending then 1 else 0)
  }

  ghost predicate OutboxInv(db: Db) {
    ViewInv(db) && TicketCountInv(db)
  }

  /** Every ticket states the terms its reservation still has; the closing one states its final status. */
  ghost predicate TicketTrue(t: Ticket, db: Db) {
    && t.rid in db.reservations
    && var r := db.reservations[t.rid];
       match t
       case TicketReserved(_, eid, u, q, a, cur, exp) =>
         && r.eventId == eid && r.userId == u && r.quantity == q
         && r.amountCents == a && r.currency == cur && r.expiresAt == exp
       case TicketConfirmed(_, eid, q) => r.eventId == eid && r.quantity == q && r.status == Confirmed
       case TicketReleased(_, eid, q, reason) =>
         && r.eventId == eid && r.quantity == q
         && r.status in {Expired, Failed, Cancelled} && reason == ReasonText(r.status)
  }

  ghost predicate TicketsTrue(db: Db) {
    forall t :: t in db.outbox ==> TicketTrue(t, db)
  }

  lemma WriteKeepsView(db: Db, ev: EventRow, r: Row)
    requires ViewInv(db) && Writes(db, ev, r)
    ensures ViewInv(Write(db, ev, r))
  {
    var db' := Write(db, ev, r);
    assert db'.outbox[..|db'.outbox| - 1] == db.outbox;
    var v, v' := Rebuild(db.outbox), Rebuild(db'.outbox);
    assert v' == Fold(v, TicketFor(r));
    assert v'.status == v.status[r.id := r.status];
    forall e | e in db'.events
      ensures At(v'.reserved, e) == db'.events[e].reserved && At(v'.sold, e) == db'.events[e].sold
    {
      assert At(v.reserved, e) == db.events[e].reserved && At(v.sold, e) == db.events[e].sold;
    }
  }

  lemma WriteKeepsTicketCount(db: Db, ev: EventRow, r: Row)
    requires TicketCountInv(db) && Writes(db, ev, r)
    ensures TicketCountInv(Write(db, ev, r))
  {
    var db' := Write(db, ev, r);
    assert db'.outbox[..|db'.outbox| - 1] == db.outbox;
    forall rid
      ensures Tickets(db'.outbox, rid, true) == (if rid in db'.reservations then 1 else 0)
      ensures Tickets(db'.outbox, rid, false)
           == (if rid in db'.reservations && db'.reservations[rid].status != Pending then 1 else 0)
    {
      assert Tickets(db.outbox, rid, true) == (if rid in db.reservations then 1 else 0);
    }
  }

  lemma WriteKeepsTickets(db: Db, ev: EventRow, r: Row)
    requires LedgerInv(db) && TicketsTrue(db) && Writes(db, ev, r)
    ensures TicketsTrue(Write(db, ev, r))
  {
    var db' := Write(db, ev, r);
    forall t | t in db'.outbox ensures TicketTrue(t, db') {
      if t in db.outbox {
        assert TicketTrue(t, db);
      }
    }
  }

  lemma ExecKeepsOutbox(db: Db, op: Op)
    requires LedgerInv(db) && OutboxInv(db) && TicketsTrue(db)
    ensures OutboxInv(Exec(db, op).After(db)) && TicketsTrue(Exec(db, op).After(db))
  {
    if Exec(db, op).Applied? {
      var ev := AppliedWrites(db, op);
      WriteKeepsView(db, ev, Exec(db, op).row);
      WriteKeepsTicketCount(db, ev, Exec(db, op).row);
      WriteKeepsTickets(db, ev, Exec(db, op).row);
    }
  }

  /** From a seeded database, the outbox rebuilds both counters of every event and the status of every reservation. */
  lemma {:induction false} OutboxIsLedger(db: Db, ops: seq<Op>)
    requires Seeded(db)
    ensures LedgerInv(Serial(db, ops)) && OutboxInv(Serial(db, ops)) && TicketsTrue(Serial(db, ops))
  {
    SeededLedger(db);
    if ops != [] {
      OutboxIsLedger(db, ops[..|ops| - 1]);
      SerialKeepsLedger(db, ops);
      ExecKeepsOutbox(Serial(db, ops[..|ops| - 1]), ops[|ops| - 1]);
    }
  }
}
