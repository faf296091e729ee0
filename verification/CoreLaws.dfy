/**
 What each use case answers and leaves behind, for every command and every reachable
 database, in terms of rows, prices and sums of quantities alone.
 */
module CoreLaws {
  import opened Common
  import opened CoreModel
  import opened CoreLedger
  import opened Sums

  /** Seats of one event that are taken: the quantities of its PENDING and CONFIRMED reservations. */
  ghost function Taken(db: Db, eid: Id): int {
    Sum(db.reservations, InStatus(eid, Pending)) + Sum(db.reservations, InStatus(eid, Confirmed))
  }

  /** The seats asked for are not left. */
  ghost predicate Full(db: Db, eid: Id, quantity: int) {
    eid in db.events && db.events[eid].capacity < Taken(db, eid) + quantity
  }

  /** A reserve command that asks for something new: well formed, and its id, if it has one, is unused. */
  predicate Novel(db: Db, c: Cmd, env: Env)
    requires c.Reserve?
  {
    && c.eid != "" && c.userId != "" && c.quantity > 0
    && (c.rid != "" ==> env.idValid && c.rid !in db.reservations)
  }

  /** And its event exists and is on sale. */
  predicate OnSale(db: Db, c: Cmd, env: Env)
    requires c.Reserve?
  {
    Novel(db, c, env) && c.eid in db.events && db.events[c.eid].saleOpensAt <= env.now
  }

  lemma TakenIsCounted(db: Db, eid: Id)
    requires LedgerInv(db) && eid in db.events
    ensures Taken(db, eid) == db.events[eid].reserved + db.events[eid].sold
    ensures 0 <= Taken(db, eid) <= db.events[eid].capacity <= 0x7fff_ffff
  {
    assert CountsOf(db, eid);
    SumBounds(db.reservations, InStatus(eid, Pending));
    SumBounds(db.reservations, InStatus(eid, Confirmed));
  }

  // ---- Reserve ----

  /** Everything that is answered before seats are looked at. */
  lemma ReserveUnsold(db: Db, op: Op)
    requires op.cmd.Reserve?
    ensures var c := op.cmd;
            var malformed := c.eid == "" || c.userId == "" || c.quantity <= 0;
            && (malformed ==> Exec(db, op) == Rejected(InvalidQuantity))
            && (!malformed && c.rid != "" && !op.env.idValid ==> Exec(db, op) == Rejected(InvalidId))
            && (!malformed && c.rid != "" && op.env.idValid && c.rid in db.reservations ==>
                  Exec(db, op) == Replayed(db.reservations[c.rid]))
            && (Novel(db, c, op.env) && c.eid !in db.events ==> Exec(db, op) == Rejected(NotFound))
            && (Novel(db, c, op.env) && c.eid in db.events && op.env.now < db.events[c.eid].saleOpensAt ==>
                  Exec(db, op) == Rejected(SaleNotOpen))
  {
  }

  /**
   Sold out is answered exactly when the seats asked for are not left: the quantities of the
   PENDING and CONFIRMED reservations together with this one exceed the capacity (and fit the
   column type; beyond it the statement fails).
   */
  lemma SoldOutIff(db: Db, op: Op)
    requires LedgerInv(db) && op.cmd.Reserve?
    ensures var c := op.cmd;
            Exec(db, op) == Rejected(SoldOut) <==>
              && OnSale(db, c, op.env)
              && db.events[c.eid].capacity < Taken(db, c.eid) + c.quantity <= 0x7fff_ffff
  {
    if op.cmd.eid in db.events {
      TakenIsCounted(db, op.cmd.eid);
    }
  }

  /** The reservation a command creates. */
  predicate Creates(r: Row, c: Cmd, env: Env, priceCents: int)
    requires c.Reserve?
  {
    && r.id == (if c.rid != "" then c.rid else env.newId)
    && r.eventId == c.eid && r.userId == c.userId && r.quantity == c.quantity
    && r.status == Pending && r.version == 1 && r.confirmedAt == None
    && -0x8000_0000_0000_0000 <= r.amountCents < 0x8000_0000_0000_0000
    && (r.amountCents - priceCents * c.quantity) % 0x1_0000_0000_0000_0000 == 0
    && r.currency == "BRL"
    && r.createdAt == r.updatedAt == env.now && r.expiresAt - r.createdAt == env.ttl
  }

  lemma NewRowCreates(c: Cmd, env: Env, priceCents: int)
    requires c.Reserve?
    ensures Creates(NewRow(c, env, priceCents), c, env, priceCents)
  {
  }

  /** Whether the two unique keys and the amount column let the reservation in. */
  ghost predicate Admissible(db: Db, r: Row) {
    && r.amountCents >= 0
    && r.id !in db.reservations
    && !exists k :: k in db.reservations
         && (db.reservations[k].status == Pending || db.reservations[k].status == Confirmed)
         && db.reservations[k].userId == r.userId && db.reservations[k].eventId == r.eventId
  }

  lemma AdmissibleIff(db: Db, r: Row)
    ensures Admissible(db, r) <==> SqlInsert(db.reservations, r) == None
  {
  }

  /** The event has the seats, and the reservation is let in. */
  ghost predicate Fits(db: Db, c: Cmd, env: Env)
    requires c.Reserve?
  {
    && OnSale(db, c, env)
    && Taken(db, c.eid) + c.quantity <= db.events[c.eid].capacity
    && Admissible(db, NewRow(c, env, db.events[c.eid].priceCents))
  }

  /**
   A reserve command writes exactly when its seats are left and its keys are free; then its
   event's counter grows by its quantity, its reservation appears with the terms it asked for,
   and one ticket says so.
   */
  lemma ReservedIff(db: Db, op: Op)
    requires LedgerInv(db) && op.cmd.Reserve?
    ensures Exec(db, op).Applied? <==> Fits(db, op.cmd, op.env)
    ensures Exec(db, op).Applied? ==>
              var db', r, ev := Exec(db, op).db, Exec(db, op).row, db.events[op.cmd.eid];
              && Creates(r, op.cmd, op.env, ev.priceCents)
              && db'.events == db.events[op.cmd.eid := ev.(reserved := ev.reserved + op.cmd.quantity)]
              && db'.reservations == db.reservations[r.id := r]
              && db'.outbox == db.outbox + [TicketReserved(r.id, r.eventId, r.userId, r.quantity,
                                                           r.amountCents, r.currency, r.expiresAt)]
  {
    if OnSale(db, op.cmd, op.env) {
      TakenIsCounted(db, op.cmd.eid);
      AdmissibleIff(db, NewRow(op.cmd, op.env, db.events[op.cmd.eid].priceCents));
      NewRowCreates(op.cmd, op.env, db.events[op.cmd.eid].priceCents);
    }
  }

  /** What is left: the seats are there, but a key is taken or the amount is negative, or a number is too large. */
  lemma ReserveConflictIff(db: Db, op: Op)
    requires LedgerInv(db) && op.cmd.Reserve? && OnSale(db, op.cmd, op.env)
    ensures var seats := Taken(db, op.cmd.eid) + op.cmd.quantity;
            var r := NewRow(op.cmd, op.env, db.events[op.cmd.eid].priceCents);
            && (Exec(db, op) == Rejected(StoreError) <==>
                  seats > 0x7fff_ffff || (seats <= db.events[op.cmd.eid].capacity && r.amountCents < 0))
            && (Exec(db, op) == Rejected(Conflict) <==>
                  seats <= db.events[op.cmd.eid].capacity && r.amountCents >= 0 && !Admissible(db, r))
  {
    TakenIsCounted(db, op.cmd.eid);
    AdmissibleIff(db, NewRow(op.cmd, op.env, db.events[op.cmd.eid].priceCents));
  }

  // ---- Confirm, Expire, Fail, Cancel ----

  predicate Released(r: Row) {
    r.status == Expired || r.status == Failed || r.status == Cancelled
  }

  /** A settlement that does not move its reservation. */
  lemma UnsettledIs(db: Db, op: Op)
    requires op.cmd.Settle?
    ensures var rid, to := op.cmd.rid, op.cmd.to;
            && (rid == "" || rid !in db.reservations ==> Exec(db, op) == Rejected(NotFound))
            && (rid != "" && rid in db.reservations ==>
                  var r := db.reservations[rid];
                  && (r.status == Confirmed ==>
                        Exec(db, op) == if to == Confirmed then Replayed(r) else Rejected(InvalidTransition))
                  && (Released(r) ==>
                        Exec(db, op) == if to == Confirmed then Rejected(InvalidTransition) else Replayed(r))
                  && (r.status == Pending && to == Expired && op.env.now <= r.expiresAt ==>
                        Exec(db, op) == Rejected(NotExpired)))
  {
  }

  predicate Reason(to: Final, text: string) {
    || (to == Expired && text == "expired")
    || (to == Failed && text == "payment_failed")
    || (to == Cancelled && text == "cancelled")
  }

  /**
   A settlement of a PENDING reservation, an expiry after its window: exactly its state, version
   and times change, its seats leave the reserved counter, a confirmation sells them, and one
   ticket says so with the reason of the state.
   */
  lemma SettledIs(db: Db, op: Op)
    requires LedgerInv(db) && op.cmd.Settle? && op.cmd.rid in db.reservations
    requires db.reservations[op.cmd.rid].status == Pending
    requires op.cmd.to == Expired ==> op.env.now > db.reservations[op.cmd.rid].expiresAt
    ensures Exec(db, op).Applied?
    ensures var rid, to, db' := op.cmd.rid, op.cmd.to, Exec(db, op).db;
            var r := db.reservations[rid];
            var r', ev := db'.reservations[rid], db.events[r.eventId];
            && db'.reservations == db.reservations[rid := r']
            && r' == r.(status := to, version := 2, updatedAt := op.env.now,
                        confirmedAt := if to == Confirmed then Some(op.env.now) else None)
            && db'.events == db.events[r.eventId := ev.(reserved := ev.reserved - r.quantity,
                                                        sold := ev.sold + (if to == Confirmed then r.quantity else 0))]
            && |db'.outbox| == |db.outbox| + 1 && db.outbox <= db'.outbox
            && var t := db'.outbox[|db.outbox|];
               if to == Confirmed then t == TicketConfirmed(rid, r.eventId, r.quantity)
               else
                 t.TicketReleased? && Reason(to, t.reason) && t == TicketReleased(rid, r.eventId, r.quantity, t.reason)
  {
    SettleAlwaysLands(db, op);
    var ev := AppliedWrites(db, op);
  }

  /** Command `j` of a run confirmed `k`, at the instant the reservation carries. */
  predicate ConfirmedBy(ops: seq<Op>, j: int, k: Id, at: Option<Time>) {
    0 <= j < |ops| && ops[j].cmd == Settle(k, Confirmed) && at == Some(ops[j].env.now)
  }

  lemma StaysConfirmed(db: Db, op: Op, k: Id)
    requires LedgerInv(db) && k in db.reservations && db.reservations[k].status == Confirmed
    ensures k in Exec(db, op).After(db).reservations
    ensures Exec(db, op).After(db).reservations[k] == db.reservations[k]
  {
    ExecEvolves(db, op);
    assert RowEvolves(db.reservations[k], Exec(db, op).After(db).reservations[k]);
  }

  /** Over any run: a confirmed reservation carries the instant of the command that confirmed it. */
  lemma {:induction false} ConfirmedAtCommand(db: Db, ops: seq<Op>, k: Id) returns (j: nat)
    requires LedgerInv(db) && db.reservations == map[]
    requires k in Serial(db, ops).reservations && Serial(db, ops).reservations[k].status == Confirmed
    ensures ConfirmedBy(ops, j, k, Serial(db, ops).reservations[k].confirmedAt)
  {
    var last := |ops| - 1;
    var before := Serial(db, ops[..last]);
    SerialKeepsLedger(db, ops[..last]);
    if k in before.reservations && before.reservations[k].status == Confirmed {
      j := ConfirmedAtCommand(db, ops[..last], k);
      StaysConfirmed(before, ops[last], k);
    } else {
      ConfirmedNow(before, ops[last], k);
      j := last;
    }
  }

  lemma ConfirmedNow(db: Db, op: Op, k: Id)
    requires LedgerInv(db)
    requires var db' := Exec(db, op).After(db); k in db'.reservations && db'.reservations[k].status == Confirmed
    requires k in db.reservations ==> db.reservations[k].status != Confirmed
    ensures op.cmd == Settle(k, Confirmed)
    ensures Exec(db, op).After(db).reservations[k].confirmedAt == Some(op.env.now)
  {
    var ev := AppliedWrites(db, op);
    if op.cmd.Settle? {
      SettleAlwaysLands(db, op);
    }
  }
}
