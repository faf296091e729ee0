/**
 The pulsar-core database: its rows, the effect of each SQL statement, and the
 serial meaning of every use case. Nothing here is concurrent; `Interleaving`
 runs the same statements one by one, and `CoreStore` runs them on mutable tables.
 */
module CoreModel {
  import opened Common

  const INT4_MAX := 0x7fff_ffff
  const TWO_63 := 0x8000_0000_0000_0000
  const TWO_64 := 0x1_0000_0000_0000_0000

  const CURRENCY := "BRL"
  const EXPIRED_REASON := "expired"
  const FAILED_REASON := "payment_failed"
  const CANCELLED_REASON := "cancelled"

  /** Two's-complement int64 arithmetic, as Go computes `PriceCents * int64(Quantity)`. */
  function Wrap64(x: int): (r: int)
    ensures -TWO_63 <= r < TWO_63 && (r - x) % TWO_64 == 0
  {
    (x + TWO_63) % TWO_64 - TWO_63
  }

  datatype Status = Pending | Confirmed | Expired | Failed | Cancelled

  /** A state a reservation can be settled into. */
  type Final = s: Status | s != Pending witness Confirmed

  datatype Row = Row(
    id: Id,
    eventId: Id,
    userId: Id,
    status: Status,
    quantity: int,
    amountCents: int,
    currency: string,
    expiresAt: Time,
    confirmedAt: Option<Time>,
    version: int,
    createdAt: Time,
    updatedAt: Time)
  {
    /** Holds the partial unique index slot of its user and event. */
    predicate Active() {
      status == Pending || status == Confirmed
    }
  }

  datatype EventRow = EventRow(
    saleOpensAt: Time,
    priceCents: int,
    capacity: int,
    reserved: int,
    sold: int)

  /** Payloads of the core outbox. */
  datatype Ticket =
    | TicketReserved(rid: Id, eid: Id, userId: Id, quantity: int, amountCents: int, currency: string, expiresAt: Time)
    | TicketConfirmed(rid: Id, eid: Id, quantity: int)
    | TicketReleased(rid: Id, eid: Id, quantity: int, reason: string)

  datatype Db = Db(events: map<Id, EventRow>, reservations: map<Id, Row>, outbox: seq<Ticket>)

  datatype CoreError =
    | InvalidTransition | SoldOut | NotExpired | InvalidQuantity | NotEnoughReserved
    | SaleNotOpen | InvalidId | Conflict | NotFound | StoreError

  /** Confirm, Expire, Fail and Cancel are `Settle` with the state they aim at. */
  datatype Cmd =
    | Reserve(rid: Id, eid: Id, userId: Id, quantity: int)
    | Settle(rid: Id, to: Final)

  /** What a run reads from outside the database: clock, retention window, id generator, UUID syntax check. */
  datatype Env = Env(now: Time, ttl: Time, newId: Uuid, idValid: bool)

  /** Generated identifiers are never empty. */
  type Uuid = s: Id | s != "" witness "uuid"

  datatype Op = Op(cmd: Cmd, env: Env)

  // ---- Domain rules ----

  function NewRow(c: Cmd, env: Env, priceCents: int): Row
    requires c.Reserve?
  {
    Row(if c.rid == "" then env.newId else c.rid, c.eid, c.userId, Pending, c.quantity,
        Wrap64(priceCents * c.quantity), CURRENCY, env.now + env.ttl, None, 1, env.now, env.now)
  }

  /** The state machine: only PENDING moves, expiry only after the window, every move bumps the version. */
  function Transition(r: Row, to: Final, now: Time): Result<Row, CoreError> {
    if r.status != Pending then Err(InvalidTransition)
    else if to == Expired && now <= r.expiresAt then Err(NotExpired)
    else Ok(r.(status := to, version := r.version + 1, updatedAt := now,
               confirmedAt := if to == Confirmed then Some(now) else r.confirmedAt))
  }

  function ReasonText(to: Final): string {
    match to
    case Expired => EXPIRED_REASON
    case Failed => FAILED_REASON
    case Cancelled => CANCELLED_REASON
    case Confirmed => ""
  }

  function TicketFor(r: Row): Ticket {
    match r.status
    case Pending => TicketReserved(r.id, r.eventId, r.userId, r.quantity, r.amountCents, r.currency, r.expiresAt)
    case Confirmed => TicketConfirmed(r.id, r.eventId, r.quantity)
    case _ => TicketReleased(r.id, r.eventId, r.quantity, ReasonText(r.status))
  }

  // ---- SQL statements ----

  /** UPDATE events of ReserveCapacity: int4 arithmetic, then the capacity guard. */
  function SqlReserve(ev: EventRow, n: int): Result<EventRow, CoreError> {
    if n > INT4_MAX || ev.reserved + ev.sold + n > INT4_MAX then Err(StoreError)
    else if ev.reserved + ev.sold + n <= ev.capacity then Ok(ev.(reserved := ev.reserved + n))
    else Err(SoldOut)
  }

  /** UPDATE events of CommitSold and ReleaseCapacity. */
  function SqlSettle(ev: EventRow, n: int, to: Final): Result<EventRow, CoreError> {
    if ev.reserved < n then Err(NotEnoughReserved)
    else Ok(ev.(reserved := ev.reserved - n, sold := if to == Confirmed then ev.sold + n else ev.sold))
  }

  predicate ActiveFor(rows: map<Id, Row>, userId: Id, eid: Id) {
    exists k :: k in rows && rows[k].Active() && rows[k].userId == userId && rows[k].eventId == eid
  }

  /** INSERT INTO reservations: column check first, then the two unique indexes. */
  function SqlInsert(rows: map<Id, Row>, r: Row): Option<CoreError> {
    if r.amountCents < 0 then Some(StoreError)
    else if r.id in rows || ActiveFor(rows, r.userId, r.eventId) then Some(Conflict)
    else None
  }

  /** UPDATE reservations guarded by the previous version. */
  function SqlUpdate(rows: map<Id, Row>, r: Row): Option<CoreError> {
    if r.id in rows && rows[r.id].version == r.version - 1 then None else Some(Conflict)
  }

  /** The three writes of a use case become visible together. */
  function Write(db: Db, ev: EventRow, r: Row): Db {
    Db(db.events[r.eventId := ev], db.reservations[r.id := r], db.outbox + [TicketFor(r)])
  }

  // ---- Serial meaning of the use cases ----

  datatype Outcome =
    | Applied(db: Db, row: Row)
    | Replayed(row: Row)
    | Rejected(error: CoreError)
  {
    /** Committed state once the transaction has ended. */
    function After(before: Db): Db {
      if Applied? then db else before
    }
  }

  predicate ValidReserve(c: Cmd, env: Env)
    requires c.Reserve?
  {
    c.eid != "" && c.userId != "" && c.quantity > 0 && (c.rid != "" ==> env.idValid)
  }

  function ExecReserve(db: Db, c: Cmd, env: Env): Outcome
    requires c.Reserve?
  {
    if c.eid == "" || c.userId == "" || c.quantity <= 0 then Rejected(InvalidQuantity)
    else if c.rid != "" && !env.idValid then Rejected(InvalidId)
    else if c.rid != "" && c.rid in db.reservations then Replayed(db.reservations[c.rid])
    else if c.eid !in db.events then Rejected(NotFound)
    else if env.now < db.events[c.eid].saleOpensAt then Rejected(SaleNotOpen)
    else
      match SqlReserve(db.events[c.eid], c.quantity)
      case Err(e) => Rejected(e)
      case Ok(ev) =>
        var r := NewRow(c, env, ev.priceCents);
        match SqlInsert(db.reservations, r)
        case Some(e) => Rejected(e)
        case None => Applied(Write(db, ev, r), r)
  }

  /** A settled reservation answers a repeated settlement of the same family without writing. */
  function Settled(r: Row, to: Final): Option<Outcome> {
    if r.status == Pending then None
    else if (r.status == Confirmed) == (to == Confirmed) then Some(Replayed(r))
    else Some(Rejected(InvalidTransition))
  }

  function ExecSettle(db: Db, c: Cmd, now: Time): Outcome
    requires c.Settle?
  {
    if c.rid == "" || c.rid !in db.reservations then Rejected(NotFound)
    else
      var r := db.reservations[c.rid];
      match Settled(r, c.to)
      case Some(o) => o
      case None =>
        match Transition(r, c.to, now)
        case Err(e) => Rejected(e)
        case Ok(r') =>
          if r.eventId !in db.events then Rejected(NotFound)
          else
            match SqlSettle(db.events[r.eventId], r.quantity, c.to)
            case Err(e) => Rejected(e)
            case Ok(ev) =>
              match SqlUpdate(db.reservations, r')
              case Some(e) => Rejected(e)
              case None => Applied(Write(db, ev, r'), r')
  }

  function Exec(db: Db, op: Op): Outcome {
    if op.cmd.Reserve? then ExecReserve(db, op.cmd, op.env) else ExecSettle(db, op.cmd, op.env.now)
  }

  /** One use case after another. */
  function Serial(db: Db, ops: seq<Op>): Db {
    if ops == [] then db else
      var before := Serial(db, ops[..|ops| - 1]);
      Exec(before, ops[|ops| - 1]).After(before)
  }

  lemma SerialSnoc(db: Db, ops: seq<Op>, op: Op)
    ensures Serial(db, ops + [op]) == Exec(Serial(db, ops), op).After(Serial(db, ops))
  {
    assert (ops + [op])[..|ops|] == ops;
  }
}
