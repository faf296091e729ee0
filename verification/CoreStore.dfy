/**
 The reservation service as the code runs it: entities mutated in memory, guarded
 statements on mutable tables, one transaction around each use case. Any statement
 and any commit may fail; every method is proved against `CoreModel`.
 */
module CoreStore {
  import opened Common
  import opened CoreModel

  /** The reservation aggregate in memory. */
  class Reservation {
    const id: Id
    const eventId: Id
    const userId: Id
    const quantity: int
    const amountCents: int
    const currency: string
    const expiresAt: Time
    const createdAt: Time
    var status: Status
    var confirmedAt: Option<Time>
    var version: int
    var updatedAt: Time

    function ToRow(): Row
      reads this
    {
      Row(id, eventId, userId, status, quantity, amountCents, currency,
          expiresAt, confirmedAt, version, createdAt, updatedAt)
    }

    constructor FromRow(r: Row)
      ensures ToRow() == r
    {
      id, eventId, userId, quantity := r.id, r.eventId, r.userId, r.quantity;
      amountCents, currency, expiresAt, createdAt := r.amountCents, r.currency, r.expiresAt, r.createdAt;
      status, confirmedAt, version, updatedAt := r.status, r.confirmedAt, r.version, r.updatedAt;
    }

    constructor New(c: Cmd, env: Env, priceCents: int)
      requires c.Reserve?
      ensures ToRow() == NewRow(c, env, priceCents)
    {
      id := if c.rid == "" then env.newId else c.rid;
      eventId, userId, quantity := c.eid, c.userId, c.quantity;
      amountCents := Wrap64(priceCents * c.quantity);
      currency := CURRENCY;
      expiresAt := env.now + env.ttl;
      createdAt, updatedAt := env.now, env.now;
      status, confirmedAt, version := Pending, None, 1;
    }

    method Confirm(now: Time) returns (e: Option<CoreError>)
      modifies this
      ensures Transition(old(ToRow()), Confirmed, now) == (if e.None? then Ok(ToRow()) else Err(e.value))
      ensures e.Some? ==> ToRow() == old(ToRow())
    {
      if status != Pending {
        return Some(InvalidTransition);
      }
      status := Confirmed;
      confirmedAt := Some(now);
      Touch(now);
      return None;
    }

    method Expire(now: Time) returns (e: Option<CoreError>)
      modifies this
      ensures Transition(old(ToRow()), Expired, now) == (if e.None? then Ok(ToRow()) else Err(e.value))
      ensures e.Some? ==> ToRow() == old(ToRow())
    {
      if status != Pending {
        return Some(InvalidTransition);
      }
      if now <= expiresAt {
        return Some(NotExpired);
      }
      status := Expired;
      Touch(now);
      return None;
    }

    method MarkFailed(now: Time) returns (e: Option<CoreError>)
      modifies this
      ensures Transition(old(ToRow()), Failed, now) == (if e.None? then Ok(ToRow()) else Err(e.value))
      ensures e.Some? ==> ToRow() == old(ToRow())
    {
      if status != Pending {
        return Some(InvalidTransition);
      }
      status := Failed;
      Touch(now);
      return None;
    }

    method Cancel(now: Time) returns (e: Option<CoreError>)
      modifies this
      ensures Transition(old(ToRow()), Cancelled, now) == (if e.None? then Ok(ToRow()) else Err(e.value))
      ensures e.Some? ==> ToRow() == old(ToRow())
    {
      if status != Pending {
        return Some(InvalidTransition);
      }
      status := Cancelled;
      Touch(now);
      return None;
    }

    method Touch(now: Time)
      modifies this`version, this`updatedAt
      ensures version == old(version) + 1 && updatedAt == now
    {
      version := version + 1;
      updatedAt := now;
    }
  }

  /** The inventory aggregate in memory: the counter rules without the database. */
  class Event {
    const saleOpensAt: Time
    const priceCents: int
    const capacity: int
    var reserved: int
    var sold: int

    function ToRow(): EventRow
      reads this
    {
      EventRow(saleOpensAt, priceCents, capacity, reserved, sold)
    }

    constructor FromRow(r: EventRow)
      ensures ToRow() == r
    {
      saleOpensAt, priceCents, capacity := r.saleOpensAt, r.priceCents, r.capacity;
      reserved, sold := r.reserved, r.sold;
    }

    predicate SaleIsOpen(now: Time) {
      now >= saleOpensAt
    }

    /** Agrees with the guarded UPDATE wherever the counters fit the column type. */
    method Reserve(n: int) returns (e: Option<CoreError>)
      modifies this
      ensures n <= 0 ==> e == Some(InvalidQuantity)
      ensures n > 0 && n <= INT4_MAX && reserved + sold + n <= INT4_MAX
        ==> SqlReserve(old(ToRow()), n) == (if e.None? then Ok(ToRow()) else Err(e.value))
      ensures e.Some? ==> ToRow() == old(ToRow())
      ensures e.None? ==> reserved == old(reserved) + n && sold == old(sold) && reserved + sold <= capacity
    {
      if n <= 0 {
        return Some(InvalidQuantity);
      }
      if reserved + n + sold > capacity {
        return Some(SoldOut);
      }
      reserved := reserved + n;
      return None;
    }

    method Release(n: int) returns (e: Option<CoreError>)
      modifies this
      ensures n > 0 ==> SqlSettle(old(ToRow()), n, Cancelled) == (if e.None? then Ok(ToRow()) else Err(e.value))
      ensures n <= 0 ==> e == Some(NotEnoughReserved)
      ensures e.Some? ==> ToRow() == old(ToRow())
    {
      if n <= 0 || n > reserved {
        return Some(NotEnoughReserved);
      }
      reserved := reserved - n;
      return None;
    }

    method ConfirmSold(n: int) returns (e: Option<CoreError>)
      modifies this
      ensures n > 0 ==> SqlSettle(old(ToRow()), n, Confirmed) == (if e.None? then Ok(ToRow()) else Err(e.value))
      ensures n <= 0 ==> e == Some(NotEnoughReserved)
      ensures e.Some? ==> ToRow() == old(ToRow())
    {
      if n <= 0 || n > reserved {
        return Some(NotEnoughReserved);
      }
      reserved := reserved - n;
      sold := sold + n;
      return None;
    }
  }

  /** Tables plus the transaction in progress; `saved` is what a rollback restores. */
  class Store {
    var events: map<Id, EventRow>
    var reservations: map<Id, Row>
    var outbox: seq<Ticket>
    var saved: Option<Db>

    function Contents(): Db
      reads this
    {
      Db(events, reservations, outbox)
    }

    constructor (db: Db)
      ensures Contents() == db && saved == None
    {
      events, reservations, outbox := db.events, db.reservations, db.outbox;
      saved := None;
    }

    // ---- Transactions ----

    /** Opens a transaction unless one surrounds this call; `owner` is whoever opened it. */
    method Begin() returns (owner: bool)
      modifies this`saved
      ensures owner <==> old(saved) == None
      ensures saved == if owner then Some(Contents()) else old(saved)
    {
      if saved.Some? {
        return false;
      }
      saved := Some(Contents());
      return true;
    }

    /**
     Ends the transaction of its owner: rollback on failure, else commit, which may fail
     too and may then have taken effect or not. A nested end changes nothing.
     */
    method End(owner: bool, failed: bool) returns (commitFailed: bool)
      requires saved.Some?
      modifies this
      ensures !owner ==> !commitFailed && Contents() == old(Contents()) && saved == old(saved)
      ensures owner ==> saved == None
      ensures owner && failed ==> !commitFailed && Contents() == old(saved.value)
      ensures owner && !failed && !commitFailed ==> Contents() == old(Contents())
      ensures commitFailed ==> Contents() == old(Contents()) || Contents() == old(saved.value)
    {
      commitFailed := false;
      if !owner {
        return;
      }
      var undo := failed;
      if !failed {
        if * {
          commitFailed, undo := true, true;
        } else if * {
          commitFailed := true;
        }
      }
      if undo {
        events, reservations, outbox := saved.value.events, saved.value.reservations, saved.value.outbox;
      }
      saved := None;
    }

    // ---- Statements ----

    method Get(rid: Id) returns (r: Result<Reservation, CoreError>)
      ensures r.Ok? ==> fresh(r.value) && rid in reservations && r.value.ToRow() == reservations[rid]
      ensures r.Err? ==> r.error == StoreError || (r.error == NotFound && rid !in reservations)
    {
      if * {
        return Err(StoreError);
      }
      if rid !in reservations {
        return Err(NotFound);
      }
      var found := new Reservation.FromRow(reservations[rid]);
      return Ok(found);
    }

    method GetEvent(eid: Id) returns (r: Result<Event, CoreError>)
      ensures r.Ok? ==> fresh(r.value) && eid in events && r.value.ToRow() == events[eid]
      ensures r.Err? ==> r.error == StoreError || (r.error == NotFound && eid !in events)
    {
      if * {
        return Err(StoreError);
      }
      if eid !in events {
        return Err(NotFound);
      }
      var found := new Event.FromRow(events[eid]);
      return Ok(found);
    }

    /** Zero affected rows: the event is missing, or the guard failed. */
    method NotFoundOr(eid: Id, fallback: CoreError) returns (e: CoreError)
      ensures e == StoreError || e == (if eid in events then fallback else NotFound)
    {
      if * {
        return StoreError;
      }
      return if eid in events then fallback else NotFound;
    }

    method ReserveCapacity(eid: Id, n: int) returns (e: Option<CoreError>)
      modifies this`events
      ensures e == None ==>
                && eid in old(events) && SqlReserve(old(events)[eid], n).Ok?
                && events == old(events)[eid := SqlReserve(old(events)[eid], n).value]
      ensures e.Some? ==> events == old(events)
      ensures e.Some? && e.value != StoreError ==>
                if eid in events then SqlReserve(events[eid], n) == Err(e.value) else e.value == NotFound
    {
      if * {
        return Some(StoreError);
      }
      if n > INT4_MAX {
        return Some(StoreError);
      }
      if eid in events {
        var total := events[eid].reserved + events[eid].sold + n;
        if total > INT4_MAX {
          return Some(StoreError);
        }
        if total <= events[eid].capacity {
          events := events[eid := events[eid].(reserved := events[eid].reserved + n)];
          return None;
        }
      }
      var err := NotFoundOr(eid, SoldOut);
      return Some(err);
    }

    method ReleaseCapacity(eid: Id, n: int) returns (e: Option<CoreError>)
      modifies this`events
      ensures e == None ==>
                && eid in old(events) && old(events)[eid].reserved >= n
                && events == old(events)[eid := old(events)[eid].(reserved := old(events)[eid].reserved - n)]
      ensures e.Some? ==> events == old(events)
      ensures e.Some? && e.value != StoreError ==>
                if eid in events then events[eid].reserved < n && e.value == NotEnoughReserved else e.value == NotFound
    {
      if * {
        return Some(StoreError);
      }
      if eid in events && events[eid].reserved >= n {
        events := events[eid := events[eid].(reserved := events[eid].reserved - n)];
        return None;
      }
      var err := NotFoundOr(eid, NotEnoughReserved);
      return Some(err);
    }

    method CommitSold(eid: Id, n: int) returns (e: Option<CoreError>)
      modifies this`events
      ensures e == None ==>
                && eid in old(events) && old(events)[eid].reserved >= n
                && events == old(events)[eid := old(events)[eid].(reserved := old(events)[eid].reserved - n,
                                                                  sold := old(events)[eid].sold + n)]
      ensures e.Some? ==> events == old(events)
      ensures e.Some? && e.value != StoreError ==>
                if eid in events then events[eid].reserved < n && e.value == NotEnoughReserved else e.value == NotFound
    {
      if * {
        return Some(StoreError);
      }
      if eid in events && events[eid].reserved >= n {
        events := events[eid := events[eid].(reserved := events[eid].reserved - n, sold := events[eid].sold + n)];
        return None;
      }
      var err := NotFoundOr(eid, NotEnoughReserved);
      return Some(err);
    }

    method Create(res: Reservation) returns (e: Option<CoreError>)
      modifies this`reservations
      ensures e == None ==>
                && SqlInsert(old(reservations), res.ToRow()) == None
                && reservations == old(reservations)[res.id := res.ToRow()]
      ensures e.Some? ==> reservations == old(reservations)
      ensures e.Some? && e.value != StoreError ==> SqlInsert(reservations, res.ToRow()) == e
    {
      if * {
        return Some(StoreError);
      }
      if res.amountCents < 0 {
        return Some(StoreError);
      }
      if res.id in reservations || ActiveFor(reservations, res.userId, res.eventId) {
        return Some(Conflict);
      }
      reservations := reservations[res.id := res.ToRow()];
      return None;
    }

    /** Writes the four mutable columns, guarded by the previous version. */
    method Update(res: Reservation) returns (e: Option<CoreError>)
      modifies this`reservations
      ensures e == None ==>
                && SqlUpdate(old(reservations), res.ToRow()) == None
                && reservations == old(reservations)[res.id := old(reservations)[res.id].(
                     status := res.status, confirmedAt := res.confirmedAt,
                     version := res.version, updatedAt := res.updatedAt)]
      ensures e.Some? ==> reservations == old(reservations)
      ensures e.Some? && e.value != StoreError ==> SqlUpdate(reservations, res.ToRow()) == e
    {
      if * {
        return Some(StoreError);
      }
      if res.id !in reservations || reservations[res.id].version != res.version - 1 {
        return Some(Conflict);
      }
      reservations := reservations[res.id := reservations[res.id].(
        status := res.status, confirmedAt := res.confirmedAt, version := res.version, updatedAt := res.updatedAt)];
      return None;
    }

    /** Appends records one by one; a failure part-way is undone by the surrounding rollback. */
    method Enqueue(records: seq<Ticket>) returns (e: Option<CoreError>)
      modifies this`outbox
      ensures e == None ==> outbox == old(outbox) + records
      ensures e.Some? ==> e == Some(StoreError)
    {
      for i := 0 to |records|
        invariant outbox == old(outbox) + records[..i]
      {
        if * {
          return Some(StoreError);
        }
        assert records[..i + 1] == records[..i] + [records[i]];
        outbox := outbox + [records[i]];
      }
      assert records[..|records|] == records;
      return None;
    }
  }

  /** What one use case may do to the store and report: its serial meaning, or a store error. */
  ghost predicate Meets(before: Db, op: Op, after: Db, r: Result<Row, CoreError>) {
    if r == Err(StoreError) then after == before || after == Exec(before, op).After(before)
    else
      && after == Exec(before, op).After(before)
      && match Exec(before, op)
         case Applied(_, row) => r == Ok(row)
         case Replayed(row) => r == Ok(row)
         case Rejected(e) => r == Err(e)
  }

  /** The same for the callback inside the transaction: a failure may leave partial writes behind. */
  ghost predicate MeetsInTx(before: Db, op: Op, after: Db, r: Result<Row, CoreError>) {
    match r
    case Err(e) => e == StoreError || Exec(before, op) == Rejected(e)
    case Ok(row) =>
      && after == Exec(before, op).After(before)
      && (Exec(before, op) == Replayed(row) || (Exec(before, op).Applied? && Exec(before, op).row == row))
  }

  /** The primary key: rows are stored under their id. */
  ghost predicate Keyed(rows: map<Id, Row>) {
    forall k :: k in rows ==> rows[k].id == k
  }

  class ReservationService {
    const store: Store

    constructor (store: Store)
      ensures this.store == store
    {
      this.store := store;
    }

    method Reserve(c: Cmd, env: Env) returns (r: Result<Row, CoreError>)
      requires c.Reserve? && store.saved == None && Keyed(store.reservations)
      modifies store
      ensures store.saved == None && Keyed(store.reservations)
      ensures Meets(old(store.Contents()), Op(c, env), store.Contents(), r)
    {
      var owner := store.Begin();
      r := ReserveInTx(c, env);
      var commitFailed := store.End(owner, r.Err?);
      if commitFailed {
        r := Err(StoreError);
      }
    }

    /** Confirm, Expire, Fail and Cancel, by the state aimed at. */
    method SettleTo(c: Cmd, env: Env) returns (r: Result<Row, CoreError>)
      requires c.Settle? && store.saved == None && Keyed(store.reservations)
      modifies store
      ensures store.saved == None && Keyed(store.reservations)
      ensures Meets(old(store.Contents()), Op(c, env), store.Contents(), r)
    {
      var owner := store.Begin();
      if c.to == Confirmed {
        r := ConfirmInTx(c, env);
      } else {
        r := ReleaseInTx(c, env);
      }
      var commitFailed := store.End(owner, r.Err?);
      if commitFailed {
        r := Err(StoreError);
      }
    }

    method ReserveInTx(c: Cmd, env: Env) returns (r: Result<Row, CoreError>)
      requires c.Reserve?
      modifies store`events, store`reservations, store`outbox
      ensures MeetsInTx(old(store.Contents()), Op(c, env), store.Contents(), r)
    {
      if c.eid == "" || c.userId == "" || c.quantity <= 0 {
        return Err(InvalidQuantity);
      }
      if c.rid != "" && !env.idValid {
        return Err(InvalidId);
      }
      if c.rid != "" {
        var existing := store.Get(c.rid);
        if existing.Ok? {
          return Ok(existing.value.ToRow());
        }
        if existing.error != NotFound {
          return Err(existing.error);
        }
      }
      var event := store.GetEvent(c.eid);
      if event.Err? {
        return Err(event.error);
      }
      if !event.value.SaleIsOpen(env.now) {
        return Err(SaleNotOpen);
      }
      var e := store.ReserveCapacity(c.eid, c.quantity);
      if e.Some? {
        return Err(e.value);
      }
      var res := new Reservation.New(c, env, event.value.priceCents);
      e := store.Create(res);
      if e.Some? {
        return Err(e.value);
      }
      e := store.Enqueue([TicketReserved(res.id, res.eventId, res.userId, res.quantity,
                                         res.amountCents, res.currency, res.expiresAt)]);
      if e.Some? {
        return Err(e.value);
      }
      return Ok(res.ToRow());
    }

    method Load(rid: Id) returns (r: Result<Reservation, CoreError>)
      ensures r.Ok? ==>
                && fresh(r.value) && rid != "" && rid in store.reservations
                && r.value.ToRow() == store.reservations[rid]
      ensures r.Err? ==> r.error == StoreError || (r.error == NotFound && (rid == "" || rid !in store.reservations))
    {
      if rid == "" {
        return Err(NotFound);
      }
      r := store.Get(rid);
    }

    method ConfirmInTx(c: Cmd, env: Env) returns (r: Result<Row, CoreError>)
      requires c.Settle? && c.to == Confirmed && Keyed(store.reservations)
      modifies store`events, store`reservations, store`outbox
      ensures MeetsInTx(old(store.Contents()), Op(c, env), store.Contents(), r)
    {
      var loaded := Load(c.rid);
      if loaded.Err? {
        return Err(loaded.error);
      }
      var res := loaded.value;
      if res.status == Confirmed {
        return Ok(res.ToRow());
      }
      if res.status != Pending {
        return Err(InvalidTransition);
      }
      var e := res.Confirm(env.now);
      if e.Some? {
        return Err(e.value);
      }
      e := store.CommitSold(res.eventId, res.quantity);
      if e.Some? {
        return Err(e.value);
      }
      e := store.Update(res);
      if e.Some? {
        return Err(e.value);
      }
      e := store.Enqueue([TicketConfirmed(res.id, res.eventId, res.quantity)]);
      if e.Some? {
        return Err(e.value);
      }
      return Ok(res.ToRow());
    }

    method ReleaseInTx(c: Cmd, env: Env) returns (r: Result<Row, CoreError>)
      requires c.Settle? && c.to != Confirmed && Keyed(store.reservations)
      modifies store`events, store`reservations, store`outbox
      ensures MeetsInTx(old(store.Contents()), Op(c, env), store.Contents(), r)
    {
      var loaded := Load(c.rid);
      if loaded.Err? {
        return Err(loaded.error);
      }
      var res := loaded.value;
      if res.status == Expired || res.status == Failed || res.status == Cancelled {
        return Ok(res.ToRow());
      }
      var e: Option<CoreError>;
      if c.to == Expired {
        e := res.Expire(env.now);
      } else if c.to == Failed {
        e := res.MarkFailed(env.now);
      } else {
        e := res.Cancel(env.now);
      }
      if e.Some? {
        return Err(e.value);
      }
      e := store.ReleaseCapacity(res.eventId, res.quantity);
      if e.Some? {
        return Err(e.value);
      }
      e := store.Update(res);
      if e.Some? {
        return Err(e.value);
      }
      e := store.Enqueue([TicketReleased(res.id, res.eventId, res.quantity, ReasonText(c.to))]);
      if e.Some? {
        return Err(e.value);
      }
      return Ok(res.ToRow());
    }
  }
}
