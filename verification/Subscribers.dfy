/**
 The message handlers of both services as the code runs them, each between the broker's
 delivery and its acknowledgement, proved against the steps of `Saga`.
 */
module Subscribers {
  import opened Common
  import CoreStore
  import Processor
  import Delivery
  import opened Saga   // with its short names C, L, P and R

  // ---- Core ----

  /**
   One handled message: some behaviour of the store explains the new database, and without a
   store fault the handler answers without error exactly when the serial outcome may be acknowledged.
   */
  ghost predicate Serves(before: C.Db, m: Msg, env: C.Env, after: C.Db, ok: bool)
    requires CommandOf(m).Some?
  {
    exists fault :: ServesWith(before, m, env, after, ok, fault)
  }

  ghost predicate ServesWith(before: C.Db, m: Msg, env: C.Env, after: C.Db, ok: bool, fault: Fault)
    requires CommandOf(m).Some?
  {
    && after == RunCore(before, CommandOf(m).value, env, fault)
    && (ok <==> fault == Clean && Answered(m, C.Exec(before, C.Op(CommandOf(m).value, env))))
  }

  /** What a handler does is a work step of the saga, and the message is handled exactly when the handler answers. */
  lemma ServesIsWork(s: State, i: nat, env: C.Env, after: C.Db, ok: bool) returns (fault: Fault)
    requires i < |s.stream| && CommandOf(s.stream[i].msg).Some?
    requires Serves(s.core, s.stream[i].msg, env, after, ok)
    ensures Worked(s, i, env, fault).core == after
    ensures i in Worked(s, i, env, fault).handled <==> ok || i in s.handled
  {
    fault :| ServesWith(s.core, s.stream[i].msg, env, after, ok, fault);
  }

  /** What a use case returned fits some behaviour of the store. */
  lemma MeetsServes(before: C.Db, m: Msg, env: C.Env, after: C.Db, r: Result<C.Row, C.CoreError>)
    requires CommandOf(m).Some? && CoreStore.Meets(before, C.Op(CommandOf(m).value, env), after, r)
    ensures Serves(before, m, env, after, r.Ok? || (m.ReserveCmd? && TerminalRejection(r.error)))
  {
    var op := C.Op(CommandOf(m).value, env);
    var ok := r.Ok? || (m.ReserveCmd? && TerminalRejection(r.error));
    if r != Err(C.StoreError) || C.Exec(before, op) == C.Rejected(C.StoreError) {
      assert ServesWith(before, m, env, after, ok, Clean);
    } else if after == before {
      assert ServesWith(before, m, env, after, ok, Lost);
    } else {
      assert ServesWith(before, m, env, after, ok, Unreported);
    }
  }

  class CoreSubscribers {
    const service: CoreStore.ReservationService

    constructor (service: CoreStore.ReservationService)
      ensures this.service == service
    {
      this.service := service;
    }

    /** No transaction is open between two deliveries. */
    ghost predicate Idle()
      reads service.store
    {
      service.store.saved == None && CoreStore.Keyed(service.store.reservations)
    }

    /** Sold out is final and acknowledged; every other error goes back to the broker. */
    method OnReserve(m: Msg, env: C.Env) returns (ok: bool)
      requires m.ReserveCmd? && Idle()
      modifies service.store
      ensures Idle() && Serves(old(service.store.Contents()), m, env, service.store.Contents(), ok)
    {
      ghost var before := service.store.Contents();
      var r := service.Reserve(C.Reserve(m.rid, m.eid, m.userId, m.quantity), env);
      MeetsServes(before, m, env, service.store.Contents(), r);
      if r.Err? && r.error != C.SoldOut {
        return false;
      }
      return true;
    }

    method OnPaymentSucceeded(m: Msg, env: C.Env) returns (ok: bool)
      requires m.OutcomeMsg? && m.o.succeeded && Idle()
      modifies service.store
      ensures Idle() && Serves(old(service.store.Contents()), m, env, service.store.Contents(), ok)
    {
      ghost var before := service.store.Contents();
      var r := service.SettleTo(C.Settle(m.o.reservationId, C.Confirmed), env);
      MeetsServes(before, m, env, service.store.Contents(), r);
      return r.Ok?;
    }

    method OnPaymentFailed(m: Msg, env: C.Env) returns (ok: bool)
      requires m.OutcomeMsg? && !m.o.succeeded && Idle()
      modifies service.store
      ensures Idle() && Serves(old(service.store.Contents()), m, env, service.store.Contents(), ok)
    {
      ghost var before := service.store.Contents();
      var r := service.SettleTo(C.Settle(m.o.reservationId, C.Failed), env);
      MeetsServes(before, m, env, service.store.Contents(), r);
      return r.Ok?;
    }

    method OnReservationExpired(m: Msg, env: C.Env) returns (ok: bool)
      requires m.ExpiredMsg? && Idle()
      modifies service.store
      ensures Idle() && Serves(old(service.store.Contents()), m, env, service.store.Contents(), ok)
    {
      ghost var before := service.store.Contents();
      var r := service.SettleTo(C.Settle(m.rid, C.Expired), env);
      MeetsServes(before, m, env, service.store.Contents(), r);
      return r.Ok?;
    }

    /** One delivery: acknowledged exactly when its handler answered, else asked for again after the attempt's pause. */
    method Consume(m: Msg, env: C.Env, metadata: Option<nat>) returns (d: Delivery.Disposition)
      requires CommandOf(m).Some? && Idle()
      modifies service.store
      ensures Idle() && Serves(old(service.store.Contents()), m, env, service.store.Contents(), d.Ack?)
      ensures d.Nak? && metadata == Some(1) ==> d.delay == 100
      ensures d.Nak? && metadata == Some(2) ==> d.delay == 250
      ensures d.Nak? && metadata == Some(3) ==> d.delay == 500
      ensures d.Nak? && metadata == Some(4) ==> d.delay == 1000
      ensures d.Nak? && (metadata.Some? ==> metadata.value == 0 || metadata.value >= 5) ==> d.delay == 2000
    {
      var ok;
      match m {
        case ReserveCmd(_, _, _, _) => ok := OnReserve(m, env);
        case OutcomeMsg(o) =>
          if o.succeeded {
            ok := OnPaymentSucceeded(m, env);
          } else {
            ok := OnPaymentFailed(m, env);
          }
        case ExpiredMsg(_) => ok := OnReservationExpired(m, env);
      }
      d := Dispose(ok, metadata);
    }
  }

  /** The end of every delivery: acknowledge, or a negative acknowledgement with a delay. */
  method Dispose(ok: bool, metadata: Option<nat>) returns (d: Delivery.Disposition)
    ensures d.Ack? <==> ok
    ensures d.Nak? && metadata == Some(1) ==> d.delay == 100
    ensures d.Nak? && metadata == Some(2) ==> d.delay == 250
    ensures d.Nak? && metadata == Some(3) ==> d.delay == 500
    ensures d.Nak? && metadata == Some(4) ==> d.delay == 1000
    ensures d.Nak? && (metadata.Some? ==> metadata.value == 0 || metadata.value >= 5) ==> d.delay == 2000
  {
    if !ok {
      var delay := 2000;
      if metadata.Some? {
        delay := Delivery.RedeliveryDelay(metadata.value);
      }
      return Delivery.Nak(delay);
    }
    return Delivery.Ack;
  }

  /**
   A reserve command that `Consume` keeps refusing, each delivery coming no earlier than the delay
   it asked for (`refusals[i]` is its answer to delivery i + 1): first delivered no earlier than the
   sum of the pauses before the opening, it is not refused as not open at the last delivery.
   */
  lemma ConsumeMeetsOpening(times: seq<Time>, refusals: seq<Delivery.Disposition>, db: C.Db, c: C.Cmd, env: C.Env)
    requires |times| == |refusals| + 1 >= 5 && c.Reserve? && c.eid in db.events
    requires forall i :: 0 <= i < |refusals| ==>
               && refusals[i].Nak?
               && (i == 0 ==> refusals[i].delay == 100) && (i == 1 ==> refusals[i].delay == 250)
               && (i == 2 ==> refusals[i].delay == 500) && (i == 3 ==> refusals[i].delay == 1000)
               && (i >= 4 ==> refusals[i].delay == 2000)
    requires forall i :: 0 <= i < |refusals| ==> times[i + 1] >= times[i] + refusals[i].delay
    requires env.now >= times[|times| - 1]
    requires times[0] >= db.events[c.eid].saleOpensAt - (1850 + 2000 * (|times| - 5))
    ensures C.Exec(db, C.Op(c, env)) != C.Rejected(C.SaleNotOpen)
  {
    var pauses: seq<nat> := seq(|refusals|, i requires 0 <= i < |refusals| => refusals[i].delay);
    Delivery.AskedPausesPace(times, pauses);
    Delivery.OpeningTolerance(times, db, c, env);
  }

  // ---- Payment ----

  class PaymentSubscribers {
    const processor: Processor.PaymentProcessor

    constructor (processor: Processor.PaymentProcessor)
      ensures this.processor == processor
    {
      this.processor := processor;
    }

    /**
     Projects ticket.reserved. Whatever has become of the reservation since, a true ticket leaves
     its reservation's present user, amount, currency and expiry in the projection, so projecting
     true tickets keeps every projected context equal to its reservation.
     */
    method OnTicketReserved(t: C.Ticket, ghost core: C.Db) returns (ok: bool)
      requires t.TicketReserved?
      modifies processor.db`contexts
      ensures !ok ==> processor.db.contexts == old(processor.db.contexts)
      ensures ok ==> processor.db.contexts == old(processor.db.contexts)[
                       t.rid := P.Context(t.rid, t.userId, t.amountCents, t.currency, t.expiresAt)]
      ensures ok && L.TicketTrue(t, core) && core.reservations[t.rid].id == t.rid ==>
                processor.db.contexts[t.rid] == ContextOfRow(core.reservations[t.rid])
      ensures L.TicketTrue(t, core) && core.reservations[t.rid].id == t.rid
              && ContextsInv(core, old(processor.db.contexts)) ==>
                ContextsInv(core, processor.db.contexts)
    {
      ok := processor.db.Upsert(P.Context(t.rid, t.userId, t.amountCents, t.currency, t.expiresAt));
    }

    /** Runs the charge under the header's idempotency key or, without one, under the message id. */
    method OnPaymentProcess(m: Msg, w: Processor.Meanwhile, newId: Id, now: Time, answer: P.Charge)
      returns (ok: bool, nSleeps: nat)
      requires m.PayCmd?
      modifies processor.db, processor.acquirer
      ensures exists r: Result<(), Processor.HandleError> :: r.Ok? == ok &&
                Processor.Handled(old(processor.Now()), processor.Now(), RequestOf(m), KeyOf(m),
                                  Processor.AnswerOf(RequestOf(m), old(processor.db.contexts), w, processor.attempts),
                                  newId, now, answer, r)
      ensures KeyOf(m) == (if m.headerKey == "" then m.msgId else m.headerKey)
      ensures nSleeps == SleepsOf(m, Wait(old(processor.db.contexts), w), processor.attempts)
    {
      var key := m.headerKey;
      if key == "" {
        key := m.msgId;
      }
      var r, slept := processor.Handle(P.Request(m.rid, m.userId), key, w, newId, now, answer);
      return r.Ok?, slept;
    }
  }

  function RequestOf(m: Msg): P.Request
    requires m.PayCmd?
  {
    P.Request(m.rid, m.userId)
  }

  // ---- The price of waiting inline ----

  /** One delivery of a payment command, as far as its wait is concerned. */
  datatype Wait = Wait(start: map<Id, P.Context>, meanwhile: Processor.Meanwhile)

  ghost function SleepsOf(m: Msg, wait: Wait, attempts: nat): nat
    requires m.PayCmd?
  {
    Processor.SleepsOf(RequestOf(m), KeyOf(m), wait.start, wait.meanwhile, attempts)
  }

  /** All inline sleeps of the deliveries of one command. */
  ghost function Slept(m: Msg, waits: seq<Wait>, attempts: nat): nat
    requires m.PayCmd?
  {
    if waits == [] then 0
    else Slept(m, waits[..|waits| - 1], attempts) + SleepsOf(m, waits[|waits| - 1], attempts)
  }

  lemma {:induction false} SleptAtMost(m: Msg, waits: seq<Wait>, attempts: nat)
    requires m.PayCmd?
    ensures Slept(m, waits, attempts) <= |waits| * attempts
  {
    if waits != [] {
      var front, last := waits[..|waits| - 1], waits[|waits| - 1];
      SleptAtMost(m, front, attempts);
      var feed := Processor.Feed(last.start, m.rid, last.meanwhile);
      Processor.SleepsAtMost(feed, last.meanwhile.wakes, attempts, 0);
      assert |waits| * attempts == |front| * attempts + attempts;
    }
  }

  /**
   Over any run of the whole system, all deliveries of one payment command together pause inline
   at most MaxDeliver * attempts * delay, whatever each of their reads and sleeps meets.
   */
  lemma TotalInlinePause(
    core: C.Db, trace: seq<Action>, maxDeliver: nat, i: nat, waits: seq<Wait>, attempts: nat, delay: nat)
    requires Run(core, trace, maxDeliver).Some?
    requires var s := Run(core, trace, maxDeliver).value; i < |s.stream| && s.stream[i].msg.PayCmd?
    requires |waits| == Deliveries(trace, i)
    ensures var m := Run(core, trace, maxDeliver).value.stream[i].msg;
            Slept(m, waits, attempts) * delay <= maxDeliver * attempts * delay
  {
    var m := Run(core, trace, maxDeliver).value.stream[i].msg;
    BudgetHolds(core, trace, maxDeliver, i);
    SleptAtMost(m, waits, attempts);
    MulMonotone(|waits|, maxDeliver, attempts);
    MulMonotone(Slept(m, waits, attempts), maxDeliver * attempts, delay);
  }
}
