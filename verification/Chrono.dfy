/**
 The expiry sweeper: it publishes overdue PENDING reservations oldest first, and cleans
 their holds only once the whole batch is out. Then: no seat leaks, because sweeping and
 handling the messages returns every overdue seat in ceil(n / batch) rounds.
 */
module Chrono {
  import opened Common
  import opened Oldest
  import opened CoreModel
  import opened CoreLedger
  import opened Sums

  /** Overdue PENDING rows that no transaction has locked, with their sort key. */
  function Overdue(rows: map<Id, Row>, now: Time, locked: set<Id>): map<Id, int> {
    map k | k in rows && rows[k].status == Pending && rows[k].expiresAt < now && k !in locked :: rows[k].expiresAt
  }

  datatype ExpiredReservation = ExpiredReservation(rid: Id, eid: Id, userId: Id, quantity: int)

  const ID_SUFFIX := "-expired"

  /** The compensation event, under an id that is stable across sweeps. */
  datatype ExpiredEvent = ExpiredEvent(messageId: string, reservation: ExpiredReservation, expiredAt: Time)

  function ExpiredOf(r: Row): ExpiredReservation {
    ExpiredReservation(r.id, r.eventId, r.userId, r.quantity)
  }

  function IdsOf(batch: seq<ExpiredReservation>): seq<Id> {
    seq(|batch|, i requires 0 <= i < |batch| => batch[i].rid)
  }

  function EventOf(r: Row, at: Time): ExpiredEvent {
    ExpiredEvent(r.id + ID_SUFFIX, ExpiredOf(r), at)
  }

  /** The window of an unpaid reservation has passed. */
  predicate Expirable(r: Row, now: Time) {
    r.status == Pending && r.expiresAt < now
  }

  predicate Describes(x: ExpiredReservation, r: Row) {
    x.rid == r.id && x.eid == r.eventId && x.userId == r.userId && x.quantity == r.quantity
  }

  /** A compensation event about one stored reservation, under an id that is the same in every sweep. */
  predicate Compensates(m: ExpiredEvent, rows: map<Id, Row>, wall: Time) {
    && m.reservation.rid in rows && Describes(m.reservation, rows[m.reservation.rid])
    && m.messageId == m.reservation.rid + "-expired" && m.expiredAt == wall
  }

  function EventsOf(rows: map<Id, Row>, ids: seq<Id>, at: Time): seq<ExpiredEvent>
    requires forall id :: id in ids ==> id in rows
  {
    seq(|ids|, i requires 0 <= i < |ids| => EventOf(rows[ids[i]], at))
  }

  lemma EventsOfSnoc(rows: map<Id, Row>, ids: seq<Id>, at: Time, i: nat)
    requires i < |ids| && forall id :: id in ids ==> id in rows
    ensures EventsOf(rows, ids[..i + 1], at) == EventsOf(rows, ids[..i], at) + [EventOf(rows[ids[i]], at)]
  {
  }

  // ---- One sweep ----

  class ReservationSource {
    var rows: map<Id, Row>
    var locked: set<Id>

    /**
     Reads in a transaction of its own and changes nothing; locked rows are skipped, not waited
     for. Rows are keyed by their id.
     */
    method FindExpired(now: Time, limit: nat) returns (r: Option<seq<ExpiredReservation>>)
      requires forall k :: k in rows ==> rows[k].id == k
      ensures r.Some? ==>
                && IsOldest(Overdue(rows, now, locked), limit, IdsOf(r.value))
                && forall i :: 0 <= i < |r.value| ==>
                     r.value[i].rid in rows && r.value[i] == ExpiredOf(rows[r.value[i].rid])
      ensures r.Some? ==> forall i :: 0 <= i < |r.value| ==>
                && r.value[i].rid in rows && Expirable(rows[r.value[i].rid], now) && r.value[i].rid !in locked
                && Describes(r.value[i], rows[r.value[i].rid])
      ensures r.Some? ==> forall k :: k in rows && Expirable(rows[k], now) && k !in locked && k !in IdsOf(r.value) ==>
                && |r.value| == limit
                && forall i :: 0 <= i < |r.value| ==>
                     r.value[i].rid in rows && rows[r.value[i].rid].expiresAt <= rows[k].expiresAt
    {
      if * {
        return None;
      }
      var cursor := Pick(Overdue(rows, now, locked), limit);
      var out: seq<ExpiredReservation> := [];
      for i := 0 to |cursor|
        invariant |out| == i && forall j :: 0 <= j < i ==> out[j] == ExpiredOf(rows[cursor[j]])
      {
        var row := rows[cursor[i]];
        out := out + [ExpiredReservation(row.id, row.eventId, row.userId, row.quantity)];
      }
      assert IdsOf(out) == cursor;
      forall k | k in rows && Expirable(rows[k], now) && k !in locked && k !in cursor
        ensures |cursor| == limit && forall i :: 0 <= i < |cursor| ==> rows[cursor[i]].expiresAt <= rows[k].expiresAt
      {
        LeftOutByFull(Overdue(rows, now, locked), limit, cursor, k);
      }
      return Some(out);
    }
  }

  class ExpiryBus {
    var log: seq<ExpiredEvent>

    /** A publish that reports failure may still have been stored. */
    method Publish(m: ExpiredEvent) returns (ok: bool)
      modifies this
      ensures log == old(log) + [m] || (!ok && log == old(log))
    {
      if * {
        return false;
      }
      if * {
        log := log + [m];
        return false;
      }
      log := log + [m];
      return true;
    }
  }

  class HoldCleaner {
    var released: seq<Id>

    method Release(rid: Id)
      modifies this
      ensures released == old(released) + [rid]
    {
      released := released + [rid];
    }
  }

  class Sweeper {
    const finder: ReservationSource
    const bus: ExpiryBus
    const holds: HoldCleaner
    const batchSize: nat

    constructor (finder: ReservationSource, bus: ExpiryBus, holds: HoldCleaner, batchSize: nat)
      ensures this.finder == finder && this.bus == bus && this.holds == holds && this.batchSize == batchSize
    {
      this.finder, this.bus, this.holds, this.batchSize := finder, bus, holds, batchSize;
    }

    /** The publish loop: stops at the first failure. */
    method PublishBatch(expired: seq<ExpiredReservation>, wall: Time, ghost ids: seq<Id>) returns (published: nat)
      requires |expired| == |ids|
      requires forall i :: 0 <= i < |ids| ==> ids[i] in finder.rows && expired[i] == ExpiredOf(finder.rows[ids[i]])
      requires forall k :: k in finder.rows ==> finder.rows[k].id == k
      modifies bus
      ensures published <= |ids|
      ensures bus.log == old(bus.log) + EventsOf(finder.rows, ids[..published], wall)
           || (published < |ids| && bus.log == old(bus.log) + EventsOf(finder.rows, ids[..published + 1], wall))
      ensures forall i :: |old(bus.log)| <= i < |bus.log| ==> Compensates(bus.log[i], finder.rows, wall)
    {
      published := 0;
      for i := 0 to |expired|
        invariant published == i && bus.log == old(bus.log) + EventsOf(finder.rows, ids[..i], wall)
      {
        EventsOfSnoc(finder.rows, ids, wall, i);
        var sent := bus.Publish(ExpiredEvent(expired[i].rid + ID_SUFFIX, expired[i], wall));
        if !sent {
          return;
        }
        published := published + 1;
      }
    }

    /** Hold hygiene for a whole batch. */
    method CleanHolds(expired: seq<ExpiredReservation>)
      modifies holds
      ensures holds.released == old(holds.released) + IdsOf(expired)
    {
      for i := 0 to |expired|
        invariant holds.released == old(holds.released) + IdsOf(expired)[..i]
      {
        holds.Release(expired[i].rid);
      }
    }

    /**
     Publishes a prefix of the batch: all of it, or up to the first failure. Holds are
     released exactly when all of it is out, and then for exactly the batch, in order.
     */
    method Sweep(now: Time, wall: Time) returns (ok: bool, published: nat, ghost ids: seq<Id>)
      requires forall k :: k in finder.rows ==> finder.rows[k].id == k
      modifies bus, holds
      ensures ok ==>
                && IsOldest(Overdue(finder.rows, now, finder.locked), batchSize, ids)
                && published == |ids|
                && bus.log == old(bus.log) + EventsOf(finder.rows, ids, wall)
                && holds.released == old(holds.released) + ids
      ensures !ok ==> holds.released == old(holds.released)
      ensures !ok ==>
                || (published == 0 && bus.log == old(bus.log))
                || (&& IsOldest(Overdue(finder.rows, now, finder.locked), batchSize, ids) && published < |ids|
                    && (|| bus.log == old(bus.log) + EventsOf(finder.rows, ids[..published], wall)
                        || bus.log == old(bus.log) + EventsOf(finder.rows, ids[..published + 1], wall)))
      ensures forall i :: |old(bus.log)| <= i < |bus.log| ==> Compensates(bus.log[i], finder.rows, wall)
    {
      ids := [];
      var found := finder.FindExpired(now, batchSize);
      if found == None {
        return false, 0, ids;
      }
      ids := IdsOf(found.value);
      published := PublishBatch(found.value, wall, ids);
      if published < |found.value| {
        return false, published, ids;
      }
      assert ids[..|ids|] == ids;
      CleanHolds(found.value);
      return true, published, ids;
    }
  }

  // ---- No leaked seat ----

  /** The expiry use cases a list of messages asks for, each at its own time. */
  function Expiries(ids: seq<Id>, envs: seq<Env>): seq<Op>
    requires |ids| == |envs|
  {
    seq(|ids|, i requires 0 <= i < |ids| => Op(Settle(ids[i], Expired), envs[i]))
  }

  /** Seats of one event held by reservations overdue at `t`. */
  ghost function OverdueSeats(db: Db, e: Id, t: Time): int {
    Sum(db.reservations, OverdueAt(e, t))
  }

  /** Only seats overdue at `t` were given back: the rest of each event's reserved counter is as it was. */
  ghost predicate Returned(db: Db, db': Db, t: Time) {
    && db'.events.Keys == db.events.Keys
    && forall e :: e in db.events ==>
         && db.events[e].reserved - OverdueSeats(db, e, t) == db'.events[e].reserved - OverdueSeats(db', e, t)
         && db'.events[e].sold == db.events[e].sold
  }

  lemma WriteExpires(db: Db, ev: EventRow, r: Row, t: Time)
    requires Writes(db, ev, r) && r.status == Expired && r.id in db.reservations && r.id == db.reservations[r.id].id
    ensures Overdue(Write(db, ev, r).reservations, t, {}) == Without(Overdue(db.reservations, t, {}), [r.id])
    ensures db.reservations[r.id].expiresAt < t ==> Returned(db, Write(db, ev, r), t)
  {
    if db.reservations[r.id].expiresAt < t {
      forall e | e in db.events
        ensures OverdueSeats(Write(db, ev, r), e, t)
             == OverdueSeats(db, e, t) - (if e == r.eventId then r.quantity else 0)
      {
        SumPut(db.reservations, OverdueAt(e, t), r.id, r);
      }
    }
  }

  /**
   `db'` is `db` with exactly the reservations `gone`, all overdue at `now`, expired: seen at `now`
   and at any other instant `t`, from which on their seats count as returned.
   */
  ghost predicate ExpiredFrom(db: Db, db': Db, now: Time, t: Time, gone: seq<Id>) {
    && LedgerInv(db')
    && Overdue(db'.reservations, now, {}) == Without(Overdue(db.reservations, now, {}), gone)
    && Overdue(db'.reservations, t, {}) == Without(Overdue(db.reservations, t, {}), gone)
    && (now <= t ==> Returned(db, db', t))
  }

  /** Handling the message of one overdue reservation always succeeds and returns its seats. */
  lemma ExpireOne(db: Db, rid: Id, env: Env, now: Time, t: Time)
    requires LedgerInv(db) && rid in Overdue(db.reservations, now, {}) && env.now >= now
    ensures ExpiredFrom(db, Exec(db, Op(Settle(rid, Expired), env)).After(db), now, t, [rid])
  {
    var op := Op(Settle(rid, Expired), env);
    SettleAlwaysLands(db, op);
    ExecKeepsLedger(db, op);
    var ev := AppliedWrites(db, op);
    WriteExpires(db, ev, Exec(db, op).row, now);
    WriteExpires(db, ev, Exec(db, op).row, t);
  }

  lemma ReturnedTransitive(a: Db, b: Db, c: Db, t: Time)
    requires Returned(a, b, t) && Returned(b, c, t)
    ensures Returned(a, c, t)
  {
    forall e | e in a.events
      ensures a.events[e].reserved - OverdueSeats(a, e, t) == c.events[e].reserved - OverdueSeats(c, e, t)
      ensures c.events[e].sold == a.events[e].sold
    {
      assert e in b.events;
    }
  }

  lemma ExpiredFromTransitive(a: Db, b: Db, c: Db, now: Time, t: Time, ids: seq<Id>, id: Id)
    requires ExpiredFrom(a, b, now, t, ids) && ExpiredFrom(b, c, now, t, [id])
    ensures ExpiredFrom(a, c, now, t, ids + [id])
  {
    if now <= t {
      ReturnedTransitive(a, b, c, t);
    }
    WithoutMore(Overdue(a.reservations, now, {}), ids, id);
    WithoutMore(Overdue(a.reservations, t, {}), ids, id);
  }

  lemma NothingExpired(db: Db, now: Time, t: Time)
    requires LedgerInv(db)
    ensures ExpiredFrom(db, db, now, t, [])
  {
    WithoutMore(Overdue(db.reservations, now, {}), [], "");
    WithoutMore(Overdue(db.reservations, t, {}), [], "");
  }

  lemma ExpiriesSnoc(ids: seq<Id>, envs: seq<Env>)
    requires |ids| == |envs| && ids != []
    ensures var n := |ids| - 1;
            Expiries(ids, envs) == Expiries(ids[..n], envs[..n]) + [Op(Settle(ids[n], Expired), envs[n])]
  {
  }

  /** The next message of a batch, handled after the ones before it. */
  lemma ExpireNext(db: Db, mid: Db, front: seq<Id>, last: Id, env: Env, now: Time, t: Time)
    requires ExpiredFrom(db, mid, now, t, front) && last !in front
    requires last in Overdue(db.reservations, now, {}) && env.now >= now
    ensures ExpiredFrom(db, Exec(mid, Op(Settle(last, Expired), env)).After(mid), now, t, front + [last])
  {
    WithoutMore(Overdue(db.reservations, now, {}), front, last);
    ExpireOne(mid, last, env, now, t);
    ExpiredFromTransitive(db, mid, Exec(mid, Op(Settle(last, Expired), env)).After(mid), now, t, front, last);
  }

  /** Distinct overdue reservations whose messages are handled no earlier than `now`. */
  ghost predicate Handleable(db: Db, ids: seq<Id>, envs: seq<Env>, now: Time) {
    && |ids| == |envs|
    && (forall i :: 0 <= i < |ids| ==> ids[i] in Overdue(db.reservations, now, {}) && envs[i].now >= now)
    && (forall i, j :: 0 <= i < j < |ids| ==> ids[i] != ids[j])
  }

  lemma HandleableFront(db: Db, ids: seq<Id>, envs: seq<Env>, now: Time)
    requires Handleable(db, ids, envs, now) && ids != []
    ensures var n := |ids| - 1;
            && Handleable(db, ids[..n], envs[..n], now)
            && ids[n] in Overdue(db.reservations, now, {}) && ids[n] !in ids[..n] && envs[n].now >= now
            && ids[..n] + [ids[n]] == ids
  {
  }

  /** The messages of a batch, handled one after another. */
  lemma {:induction false} RoundExpires(db: Db, ids: seq<Id>, envs: seq<Env>, now: Time, t: Time)
    requires LedgerInv(db) && Handleable(db, ids, envs, now)
    ensures ExpiredFrom(db, Serial(db, Expiries(ids, envs)), now, t, ids)
    decreases |ids|
  {
    if ids == [] {
      NothingExpired(db, now, t);
    } else {
      var n := |ids| - 1;
      var ops := Expiries(ids[..n], envs[..n]);
      HandleableFront(db, ids, envs, now);
      RoundExpires(db, ids[..n], envs[..n], now, t);
      ExpireNext(db, Serial(db, ops), ids[..n], ids[n], envs[n], now, t);
      ExpiriesSnoc(ids, envs);
      SerialSnoc(db, ops, Op(Settle(ids[n], Expired), envs[n]));
    }
  }

  /**
   One round: the database clock its sweep reads, the batch it publishes, the order in which
   the broker delivers that batch, and the environments the messages are handled in.
   */
  datatype Round = Round(now: Time, batch: seq<Id>, order: seq<Id>, envs: seq<Env>)

  function Expire(db: Db, r: Round): Db
    requires |r.order| == |r.envs|
  {
    Serial(db, Expiries(r.order, r.envs))
  }

  ghost predicate RoundOf(db: Db, limit: nat, r: Round) {
    && IsOldest(Overdue(db.reservations, r.now, {}), limit, r.batch)
    && multiset(r.order) == multiset(r.batch)
    && |r.envs| == |r.order|
    && forall i :: 0 <= i < |r.envs| ==> r.envs[i].now >= r.now
  }

  /**
   Sweeps on a clock that never runs backwards alternate with handling: `states[i]` is the
   database before round i. No core clock lags behind the sweep's.
   */
  ghost predicate Alternates(states: seq<Db>, t: Time, limit: nat, rounds: seq<Round>) {
    && |states| == |rounds| + 1
    && (forall i :: 0 <= i < |rounds| ==>
          && RoundOf(states[i], limit, rounds[i])
          && states[i + 1] == Expire(states[i], rounds[i]))
    && Clocked(t, rounds)
  }

  predicate Clocked(t: Time, rounds: seq<Round>) {
    && (forall i :: 0 <= i < |rounds| ==> t <= rounds[i].now)
    && (forall i, j :: 0 <= i < j < |rounds| ==> rounds[i].now <= rounds[j].now)
  }

  function LastNow(t: Time, rounds: seq<Round>): Time {
    if rounds == [] then t else rounds[|rounds| - 1].now
  }

  /** Another order of the batch holds the same distinct reservations. */
  lemma Reordered(db: Db, limit: nat, r: Round)
    requires RoundOf(db, limit, r)
    ensures Handleable(db, r.order, r.envs, r.now)
    ensures forall k :: k in r.order <==> k in r.batch
  {
    SameIds(r.order, r.batch);
    Distinct(r.batch);
    DistinctBack(r.order);
    forall i | 0 <= i < |r.order| ensures r.order[i] in Overdue(db.reservations, r.now, {}) {
      assert r.order[i] in r.batch;
    }
  }

  lemma SameIds(a: seq<Id>, b: seq<Id>)
    requires multiset(a) == multiset(b)
    ensures forall k :: k in a <==> k in b
  {
    forall k ensures k in a <==> k in b {
      assert k in a <==> k in multiset(a);
      assert k in b <==> k in multiset(b);
    }
  }

  lemma {:induction false} Distinct(ids: seq<Id>)
    requires forall i, j :: 0 <= i < j < |ids| ==> ids[i] != ids[j]
    ensures forall k :: multiset(ids)[k] <= 1
  {
    if ids != [] {
      var n := |ids| - 1;
      Distinct(ids[..n]);
      assert ids == ids[..n] + [ids[n]];
      assert ids[n] !in multiset(ids[..n]);
    }
  }

  lemma DistinctBack(ids: seq<Id>)
    requires forall k :: multiset(ids)[k] <= 1
    ensures forall i, j :: 0 <= i < j < |ids| ==> ids[i] != ids[j]
  {
    forall i, j | 0 <= i < j < |ids| ensures ids[i] != ids[j] {
      assert ids == ids[..j] + ids[j..];
      assert ids[i] in multiset(ids[..j]) && ids[j] in multiset(ids[j..]);
      assert multiset(ids)[ids[j]] == multiset(ids[..j])[ids[j]] + multiset(ids[j..])[ids[j]];
    }
  }

  /**
   A sweep at a later clock still takes the rows overdue at `t` first: it takes `limit` of
   them, or all that are left, whatever else has become overdue since.
   */
  lemma OldestFirst(rows: map<Id, Row>, t: Time, now: Time, limit: nat, batch: seq<Id>)
    requires t <= now && IsOldest(Overdue(rows, now, {}), limit, batch)
    ensures |Without(Overdue(rows, t, {}), batch)| == Remaining(|Overdue(rows, t, {})|, limit, 1)
  {
    var early, late := Overdue(rows, t, {}), Overdue(rows, now, {});
    var left := Without(early, batch);
    if left == map[] {
      assert early.Keys <= (set k | k in batch);
      SubsetSize(early.Keys, set k | k in batch);
      ElementsSize(batch);
      assert |early| == |early.Keys|;
    } else {
      var u :| u in left;
      assert u in late && u !in batch;
      WithoutSize(late, batch);
      assert u in Without(late, batch);
      assert forall i :: 0 <= i < |batch| ==> batch[i] in late && late[batch[i]] <= late[u];
      WithoutSize(early, batch);
    }
    assert Remaining(|early|, limit, 1) == if |early| < limit then 0 else |early| - limit;
  }

  lemma SubsetSize(a: set<Id>, b: set<Id>)
    requires a <= b
    ensures |a| <= |b|
  {
    assert b == a + (b - a);
  }

  lemma {:induction false} ElementsSize(ids: seq<Id>)
    ensures |set k | k in ids| <= |ids|
  {
    if ids != [] {
      var n := |ids| - 1;
      ElementsSize(ids[..n]);
      assert (set k | k in ids) == (set k | k in ids[..n]) + {ids[n]};
    }
  }

  /** What the rounds made of the reservations overdue at `t`, with all seats accounted for at `end`. */
  ghost predicate AfterSome(db: Db, db': Db, t: Time, end: Time, limit: nat, rounds: nat) {
    && LedgerInv(db') && Returned(db, db', end)
    && |Overdue(db'.reservations, t, {})| == Remaining(|Overdue(db.reservations, t, {})|, limit, rounds)
  }

  lemma SameElements(cands: map<Id, int>, a: seq<Id>, b: seq<Id>)
    requires forall k :: k in a <==> k in b
    ensures Without(cands, a) == Without(cands, b)
  {
  }

  lemma OneRound(db: Db, db': Db, t: Time, end: Time, limit: nat, r: Round)
    requires LedgerInv(db) && RoundOf(db, limit, r) && t <= r.now <= end && db' == Expire(db, r)
    ensures AfterSome(db, db', t, end, limit, 1)
    ensures |r.batch| < limit ==> Overdue(db'.reservations, r.now, {}) == map[]
  {
    Reordered(db, limit, r);
    RoundExpires(db, r.order, r.envs, r.now, t);
    RoundExpires(db, r.order, r.envs, r.now, end);
    SameElements(Overdue(db.reservations, t, {}), r.order, r.batch);
    OldestFirst(db.reservations, t, r.now, limit, r.batch);
    WithoutSize(Overdue(db.reservations, r.now, {}), r.batch);
    SameElements(Overdue(db.reservations, r.now, {}), r.order, r.batch);
  }

  lemma MoreRounds(a: Db, b: Db, c: Db, t: Time, end: Time, limit: nat, rounds: nat)
    requires AfterSome(a, b, t, end, limit, rounds) && AfterSome(b, c, t, end, limit, 1)
    ensures AfterSome(a, c, t, end, limit, rounds + 1)
  {
    ReturnedTransitive(a, b, c, end);
    RemainingSnoc(|Overdue(a.reservations, t, {})|, limit, rounds);
  }

  lemma {:induction false} RoundsExpire(
    states: seq<Db>, t: Time, end: Time, limit: nat, rounds: seq<Round>, k: nat)
    requires Alternates(states, t, limit, rounds) && LedgerInv(states[0]) && k <= |rounds|
    requires LastNow(t, rounds) == end
    ensures AfterSome(states[0], states[k], t, end, limit, k)
  {
    if k > 0 {
      RoundsExpire(states, t, end, limit, rounds, k - 1);
      assert states[k - 1 + 1] == Expire(states[k - 1], rounds[k - 1]);
      OneRound(states[k - 1], states[k], t, end, limit, rounds[k - 1]);
      MoreRounds(states[0], states[k - 1], states[k], t, end, limit, k - 1);
    }
  }

  lemma NoneOverdue(db: Db, t: Time)
    requires LedgerInv(db)
    ensures Overdue(db.reservations, t, {}) == map[] ==> forall e :: e in db.events ==> OverdueSeats(db, e, t) == 0
  {
    if Overdue(db.reservations, t, {}) == map[] {
      forall e | e in db.events ensures OverdueSeats(db, e, t) == 0 {
        forall k | k in db.reservations ensures !Selects(OverdueAt(e, t), db.reservations[k]) {
          assert k !in Overdue(db.reservations, t, {});
        }
        SumBounds(db.reservations, OverdueAt(e, t));
      }
    }
  }

  lemma EarlyOnesExpire(db: Db, db': Db, t: Time, end: Time, limit: nat, rounds: nat)
    requires limit > 0 && AfterSome(db, db', t, end, limit, rounds)
    ensures var enough := rounds >= CeilDiv(|Overdue(db.reservations, t, {})|, limit);
            && (Overdue(db'.reservations, t, {}) == map[] <==> enough)
            && (enough ==> forall e :: e in db'.events ==> OverdueSeats(db', e, t) == 0)
  {
    var n := |Overdue(db.reservations, t, {})|;
    RemainingIs(n, limit, rounds);
    CeilDivLeast(n, limit, rounds);
    NoneOverdue(db', t);
  }

  lemma ShortBatchClears(states: seq<Db>, t: Time, limit: nat, rounds: seq<Round>)
    requires Alternates(states, t, limit, rounds) && LedgerInv(states[0])
    requires rounds != [] && |rounds[|rounds| - 1].batch| < limit
    ensures forall e :: e in states[|rounds|].events ==> OverdueSeats(states[|rounds|], e, LastNow(t, rounds)) == 0
  {
    var n, end := |rounds|, LastNow(t, rounds);
    RoundsExpire(states, t, end, limit, rounds, n - 1);
    assert states[n - 1 + 1] == Expire(states[n - 1], rounds[n - 1]);
    OneRound(states[n - 1], states[n], t, end, limit, rounds[n - 1]);
    NoneOverdue(states[n], end);
  }

  /**
   No leaked seat: while the clock moves on, the n reservations overdue at `t` are all gone
   after ceil(n / limit) rounds and not before, although later sweeps also take rows that have
   become overdue since. At the last sweep's instant each event got back exactly the seats
   that were overdue then and no longer are; all of them once a batch comes out short.
   */
  lemma NoLeakedSeat(states: seq<Db>, t: Time, limit: nat, rounds: seq<Round>)
    requires limit > 0 && Alternates(states, t, limit, rounds) && LedgerInv(states[0])
    ensures var db, db' := states[0], states[|rounds|];
            var enough := |rounds| >= CeilDiv(|Overdue(db.reservations, t, {})|, limit);
            && (Overdue(db'.reservations, t, {}) == map[] <==> enough)
            && (enough ==> forall e :: e in db.events ==> OverdueSeats(db', e, t) == 0)
    ensures var db, db', end := states[0], states[|rounds|], LastNow(t, rounds);
            && db'.events.Keys == db.events.Keys
            && forall e :: e in db.events ==>
                 && db.events[e].reserved - db'.events[e].reserved
                      == OverdueSeats(db, e, end) - OverdueSeats(db', e, end)
                 && db'.events[e].sold == db.events[e].sold
    ensures var db', end := states[|rounds|], LastNow(t, rounds);
            rounds != [] && |rounds[|rounds| - 1].batch| < limit ==>
              forall e :: e in db'.events ==> OverdueSeats(db', e, end) == 0
  {
    var db, db', end := states[0], states[|rounds|], LastNow(t, rounds);
    RoundsExpire(states, t, end, limit, rounds, |rounds|);
    EarlyOnesExpire(db, db', t, end, limit, |rounds|);
    if rounds != [] && |rounds[|rounds| - 1].batch| < limit {
      ShortBatchClears(states, t, limit, rounds);
    }
  }
}
