/**
 The whole saga over an at-least-once broker: two databases, two outboxes, relays that may
 crash between publish and mark, an expiry sweeper, and consumers whose messages may be
 duplicated, reordered, redelivered up to a budget and then dead-lettered.
 A core handler's use case takes effect in one step at some moment after its delivery;
 `Concurrent` runs them statement by statement and refines this machine.
 */
module Saga {
  import opened Common
  import C = CoreModel
  import L = CoreLedger
  import P = Payment
  import R = Replays

  datatype Msg =
    | ReserveCmd(rid: Id, eid: Id, userId: Id, quantity: int)
    | PayCmd(rid: Id, userId: Id, headerKey: string, msgId: string)
    | TicketMsg(t: C.Ticket)
    | OutcomeMsg(o: P.Outcome)
    | ExpiredMsg(rid: Id)

  /** One stored copy of a message; each subject has one consumer, so one budget. */
  datatype Entry = Entry(msg: Msg, deliveries: nat, acked: bool, dead: bool)

  /** How the store treats a core use case: runs it, fails it, or commits it and reports an error. */
  datatype Fault = Clean | Lost | Unreported

  /**
   `handled` are the entries a handler has answered without error, `landed` those whose core
   use case ran without a store fault, `applied` those whose use case committed or was
   recognised as a replay (reported or not), `running` the entry each payment run was started for,
   `working` the entry of each core handler at work: its use case takes effect at some later
   moment, and the broker may deliver the entry again meanwhile.
   */
  datatype State = State(
    core: C.Db,
    pay: P.State,
    corePublished: set<nat>, coreMarked: set<nat>,
    payPublished: set<nat>, payMarked: set<nat>,
    stream: seq<Entry>,
    running: map<string, nat>,
    working: map<nat, nat>,
    handled: set<nat>,
    landed: set<nat>,
    applied: set<nat>)

  datatype Action =
    | Gateway(msg: Msg)
    | RelayCore(i: nat, dropped: bool) | MarkCore(i: nat)
    | RelayPay(i: nat, dropped: bool) | MarkPay(i: nat)
    | Sweep(rid: Id, now: Time, dropped: bool)
    | DeliverCore(i: nat, w: nat)
    | Work(w: nat, env: C.Env, fault: Fault)
    | DeliverTicket(i: nat, stored: bool)
    | DeliverPay(i: nat)
    | PayStep(a: P.Action)
    | UserCancel(rid: Id, env: C.Env, fault: Fault)
    | Ack(i: nat) | DeadLetter(i: nat)

  // ---- Handlers ----

  function KeyOf(m: Msg): string
    requires m.PayCmd?
  {
    if m.headerKey != "" then m.headerKey else m.msgId
  }

  /** The core use case a message asks for. */
  function CommandOf(m: Msg): Option<C.Cmd> {
    match m
    case ReserveCmd(rid, eid, userId, quantity) => Some(C.Reserve(rid, eid, userId, quantity))
    case OutcomeMsg(o) => Some(C.Settle(o.reservationId, if o.succeeded then C.Confirmed else C.Failed))
    case ExpiredMsg(rid) => Some(C.Settle(rid, C.Expired))
    case PayCmd(_, _, _, _) => None
    case TicketMsg(_) => None
  }

  /** Sold out is the one rejection that is acknowledged, and only reserve commands meet it. */
  predicate TerminalRejection(e: C.CoreError) {
    e == C.SoldOut
  }

  predicate Answered(m: Msg, o: C.Outcome) {
    !o.Rejected? || (m.ReserveCmd? && TerminalRejection(o.error))
  }

  function ContextOf(t: C.Ticket): P.Context
    requires t.TicketReserved?
  {
    P.Context(t.rid, t.userId, t.amountCents, t.currency, t.expiresAt)
  }

  function RunCore(core: C.Db, c: C.Cmd, env: C.Env, fault: Fault): C.Db {
    if fault == Lost then core else C.Exec(core, C.Op(c, env)).After(core)
  }

  // ---- Machine ----

  predicate Deliverable(s: State, i: nat, maxDeliver: nat) {
    i < |s.stream| && !s.stream[i].acked && !s.stream[i].dead && s.stream[i].deliveries < maxDeliver
  }

  function Delivered(stream: seq<Entry>, i: nat): seq<Entry>
    requires i < |stream|
  {
    stream[i := stream[i].(deliveries := stream[i].deliveries + 1)]
  }

  function Append(stream: seq<Entry>, m: Msg, dropped: bool): seq<Entry> {
    if dropped then stream else stream + [Entry(m, 0, false, false)]
  }

  /** The run of a payment command answers without error at this step. */
  predicate Answers(s: P.State, a: P.Action)
    requires P.Enabled(s, a)
  {
    a.Conclude? || (a.Decide? && s.runs[a.key].pay.status != P.Pending)
  }

  predicate Enabled(s: State, a: Action, maxDeliver: nat) {
    match a
    case Gateway(m) => m.ReserveCmd? || m.PayCmd?
    case RelayCore(i, dropped) => i < |s.core.outbox| && i !in s.coreMarked && (dropped ==> i in s.corePublished)
    case MarkCore(i) => i in s.corePublished
    case RelayPay(i, dropped) => i < |s.pay.outbox| && i !in s.payMarked && (dropped ==> i in s.payPublished)
    case MarkPay(i) => i in s.payPublished
    case Sweep(rid, now, dropped) =>
      && rid in s.core.reservations
      && s.core.reservations[rid].status == C.Pending && s.core.reservations[rid].expiresAt < now
      && (dropped ==> exists j :: 0 <= j < |s.stream| && s.stream[j].msg == ExpiredMsg(rid))
    case DeliverCore(i, w) => Deliverable(s, i, maxDeliver) && CommandOf(s.stream[i].msg).Some? && w !in s.working
    case Work(w, _, _) =>
      w in s.working && s.working[w] < |s.stream| && CommandOf(s.stream[s.working[w]].msg).Some?
    case DeliverTicket(i, _) =>
      Deliverable(s, i, maxDeliver) && s.stream[i].msg.TicketMsg? && s.stream[i].msg.t.TicketReserved?
    case DeliverPay(i) =>
      Deliverable(s, i, maxDeliver) && s.stream[i].msg.PayCmd? && KeyOf(s.stream[i].msg) !in s.pay.runs
    case PayStep(b) => !b.Start? && !b.Project? && P.Enabled(s.pay, b)
    case UserCancel(_, _, _) => true
    case Ack(i) => i < |s.stream| && i in s.handled
    case DeadLetter(i) => i < |s.stream| && !s.stream[i].acked && s.stream[i].deliveries >= maxDeliver
  }

  /** The use case of entry `i` takes effect at one moment after its delivery. */
  function Worked(s: State, i: nat, env: C.Env, fault: Fault): State
    requires i < |s.stream| && CommandOf(s.stream[i].msg).Some?
  {
    var m := s.stream[i].msg;
    var c := CommandOf(m).value;
    s.(core := RunCore(s.core, c, env, fault),
       handled := if fault == Clean && Answered(m, C.Exec(s.core, C.Op(c, env))) then s.handled + {i} else s.handled,
       landed := if fault == Clean then s.landed + {i} else s.landed,
       applied := if fault != Lost && !C.Exec(s.core, C.Op(c, env)).Rejected? then s.applied + {i} else s.applied)
  }

  function DeliveredPay(s: State, i: nat): State
    requires i < |s.stream| && s.stream[i].msg.PayCmd?
  {
    var m := s.stream[i].msg;
    var start := P.Start(KeyOf(m), P.Request(m.rid, m.userId));
    var s' := s.(stream := Delivered(s.stream, i));
    if P.Enabled(s.pay, start) then s'.(pay := P.Next(s.pay, start), running := s.running[KeyOf(m) := i]) else s'
  }

  function Next(s: State, a: Action): State
    requires exists n :: Enabled(s, a, n)
  {
    match a
    case Gateway(m) => s.(stream := Append(s.stream, m, false))
    case RelayCore(i, dropped) =>
      s.(stream := Append(s.stream, TicketMsg(s.core.outbox[i]), dropped), corePublished := s.corePublished + {i})
    case MarkCore(i) => s.(coreMarked := s.coreMarked + {i})
    case RelayPay(i, dropped) =>
      s.(stream := Append(s.stream, OutcomeMsg(s.pay.outbox[i]), dropped), payPublished := s.payPublished + {i})
    case MarkPay(i) => s.(payMarked := s.payMarked + {i})
    case Sweep(rid, _, dropped) => s.(stream := Append(s.stream, ExpiredMsg(rid), dropped))
    case DeliverCore(i, w) => s.(stream := Delivered(s.stream, i), working := s.working[w := i])
    case Work(w, env, fault) => Worked(s, s.working[w], env, fault).(working := s.working - {w})
    case DeliverTicket(i, stored) =>
      var s' := s.(stream := Delivered(s.stream, i));
      if !stored then s'
      else s'.(pay := P.Next(s.pay, P.Project(ContextOf(s.stream[i].msg.t))), handled := s.handled + {i})
    case DeliverPay(i) => DeliveredPay(s, i)
    case PayStep(b) =>
      var s' := s.(pay := P.Next(s.pay, b));
      if Answers(s.pay, b) && b.key in s.running then s'.(handled := s.handled + {s.running[b.key]}) else s'
    case UserCancel(rid, env, fault) => s.(core := RunCore(s.core, C.Settle(rid, C.Cancelled), env, fault))
    case Ack(i) => s.(stream := s.stream[i := s.stream[i].(acked := true)])
    case DeadLetter(i) => s.(stream := s.stream[i := s.stream[i].(dead := true)])
  }

  function Init(core: C.Db): State {
    State(core, P.INIT, {}, {}, {}, {}, [], map[], map[], {}, {}, {})
  }

  function Run(core: C.Db, trace: seq<Action>, maxDeliver: nat): Option<State> {
    if trace == [] then Some(Init(core))
    else
      match Run(core, trace[..|trace| - 1], maxDeliver)
      case None => None
      case Some(p) => if Enabled(p, trace[|trace| - 1], maxDeliver) then Some(Next(p, trace[|trace| - 1])) else None
  }

  // ---- Invariant ----

  /** The projection of a reservation, whatever has become of it since. */
  function ContextOfRow(r: C.Row): P.Context {
    P.Context(r.id, r.userId, r.amountCents, r.currency, r.expiresAt)
  }

  ghost predicate CoreInv(core: C.Db) {
    L.LedgerInv(core) && L.OutboxInv(core) && L.TicketsTrue(core)
  }

  ghost predicate EntryTrue(core: C.Db, pay: P.State, m: Msg) {
    && (m.TicketMsg? ==> m.t in core.outbox)
    && (m.OutcomeMsg? ==> m.o in pay.outbox)
  }

  ghost predicate StreamInv(core: C.Db, pay: P.State, stream: seq<Entry>) {
    forall e :: e in stream ==> EntryTrue(core, pay, e.msg)
  }

  /** Every projected context equals its reservation's user, amount, currency and expiry. */
  ghost predicate ContextsInv(core: C.Db, contexts: map<Id, P.Context>) {
    forall rid :: rid in contexts ==> rid in core.reservations && contexts[rid] == ContextOfRow(core.reservations[rid])
  }

  /** A run that has its context was started by the owner of the reservation it names. */
  ghost predicate RunPriced(core: C.Db, run: P.Run) {
    run.Waiting? || (&& run.req.reservationId in core.reservations
                     && run.ctx == ContextOfRow(core.reservations[run.req.reservationId])
                     && run.req.userId == run.ctx.userId)
  }

  ghost predicate RunsPriced(core: C.Db, runs: map<string, P.Run>) {
    forall k :: k in runs ==> RunPriced(core, runs[k])
  }

  /** A payment is for an existing reservation, by its owner, over its stored amount. */
  ghost predicate PayPriced(core: C.Db, p: P.Pay) {
    && p.reservationId in core.reservations
    && var r := core.reservations[p.reservationId];
       p.userId == r.userId && p.amountCents == r.amountCents && p.currency == r.currency
  }

  ghost predicate PaysPriced(core: C.Db, payments: map<string, P.Pay>) {
    forall k :: k in payments ==> PayPriced(core, payments[k])
  }

  ghost predicate HasPayment(payments: map<string, P.Pay>, rid: Id, status: P.PayStatus) {
    exists k :: k in payments && payments[k].reservationId == rid && payments[k].status == status
  }

  ghost predicate AgreeInv(core: C.Db, payments: map<string, P.Pay>) {
    forall rid :: rid in core.reservations ==>
      && (core.reservations[rid].status == C.Confirmed ==> HasPayment(payments, rid, P.Succeeded))
      && (core.reservations[rid].status == C.Failed ==> HasPayment(payments, rid, P.Failed))
  }

  ghost predicate SettledIn(core: C.Db, rid: Id) {
    rid in core.reservations && core.reservations[rid].status != C.Pending
  }

  ghost predicate LandedInv(core: C.Db, stream: seq<Entry>, landed: set<nat>) {
    forall i :: i in landed ==>
      i < |stream| && (stream[i].msg.OutcomeMsg? ==> SettledIn(core, stream[i].msg.o.reservationId))
  }

  /** Message `m` is stored in the stream. */
  ghost predicate Stored(stream: seq<Entry>, m: Msg) {
    exists j :: 0 <= j < |stream| && stream[j].msg == m
  }

  /** An answered entry has been delivered, and so has one that a run or a handler was started for. */
  ghost predicate DeliveredInv(
    stream: seq<Entry>, handled: set<nat>, running: map<string, nat>, working: map<nat, nat>)
  {
    && (forall i :: i in handled ==> i < |stream| && stream[i].deliveries > 0)
    && (forall k :: k in running ==> running[k] < |stream| && stream[running[k]].deliveries > 0)
    && (forall w :: w in working ==> working[w] < |stream| && stream[working[w]].deliveries > 0)
  }

  ghost predicate BudgetInv(stream: seq<Entry>, handled: set<nat>, maxDeliver: nat) {
    forall i :: 0 <= i < |stream| ==>
      && stream[i].deliveries <= maxDeliver
      && (stream[i].dead ==> stream[i].deliveries == maxDeliver)
      && (stream[i].acked ==> i in handled)
  }

  /** What a relay has published or marked is in the stream. */
  ghost predicate CoreRelayed(outbox: seq<C.Ticket>, stream: seq<Entry>, published: set<nat>, marked: set<nat>) {
    && marked <= published
    && forall i :: i in published ==> i < |outbox| && Stored(stream, TicketMsg(outbox[i]))
  }

  ghost predicate PayRelayed(outbox: seq<P.Outcome>, stream: seq<Entry>, published: set<nat>, marked: set<nat>) {
    && marked <= published
    && forall i :: i in published ==> i < |outbox| && Stored(stream, OutcomeMsg(outbox[i]))
  }

  /** What the two sides know about each other. */
  ghost predicate LinkInv(core: C.Db, pay: P.State) {
    && ContextsInv(core, pay.contexts)
    && RunsPriced(core, pay.runs)
    && PaysPriced(core, pay.payments)
    && AgreeInv(core, pay.payments)
  }

  ghost predicate Inv(s: State) {
    && CoreInv(s.core)
    && P.Inv(s.pay)
    && LinkInv(s.core, s.pay)
    && StreamInv(s.core, s.pay, s.stream)
    && LandedInv(s.core, s.stream, s.landed)
  }

  // ---- Core steps ----

  lemma RunCoreKeeps(core: C.Db, c: C.Cmd, env: C.Env, fault: Fault)
    requires CoreInv(core)
    ensures CoreInv(RunCore(core, c, env, fault))
  {
    if fault != Lost {
      L.ExecKeepsLedger(core, C.Op(c, env));
      L.ExecKeepsOutbox(core, C.Op(c, env));
    }
  }

  lemma RunCoreSteps(core: C.Db, c: C.Cmd, env: C.Env, fault: Fault)
    requires L.LedgerInv(core)
    ensures L.Evolves(core, RunCore(core, c, env, fault))
    ensures L.StepOf(core, c, RunCore(core, c, env, fault))
  {
    L.ExecEvolves(core, C.Op(c, env));
    L.ExecIsStep(core, C.Op(c, env));
  }

  lemma EvolutionKeepsContext(core: C.Db, core': C.Db, rid: Id)
    requires L.Evolves(core, core') && rid in core.reservations
    ensures rid in core'.reservations && ContextOfRow(core'.reservations[rid]) == ContextOfRow(core.reservations[rid])
  {
    assert L.RowEvolves(core.reservations[rid], core'.reservations[rid]);
  }

  /** Everything the payment side knows about reservations survives a core step. */
  lemma CoreStepKeepsLink(core: C.Db, core': C.Db, pay: P.State)
    requires L.Evolves(core, core') && LinkInv(core, pay)
    ensures ContextsInv(core', pay.contexts) && RunsPriced(core', pay.runs) && PaysPriced(core', pay.payments)
  {
    forall rid | rid in core.reservations
      ensures rid in core'.reservations && ContextOfRow(core'.reservations[rid]) == ContextOfRow(core.reservations[rid])
    {
      EvolutionKeepsContext(core, core', rid);
    }
    forall k | k in pay.runs ensures RunPriced(core', pay.runs[k]) {
      assert RunPriced(core, pay.runs[k]);
    }
    forall k | k in pay.payments ensures PayPriced(core', pay.payments[k]) {
      assert PayPriced(core, pay.payments[k]);
    }
  }

  lemma CoreStepKeepsStream(core: C.Db, core': C.Db, pay: P.State, stream: seq<Entry>, landed: set<nat>)
    requires L.Evolves(core, core') && StreamInv(core, pay, stream) && LandedInv(core, stream, landed)
    ensures StreamInv(core', pay, stream) && LandedInv(core', stream, landed)
  {
    forall e | e in stream ensures EntryTrue(core', pay, e.msg) {
      assert EntryTrue(core, pay, e.msg);
    }
    forall i | i in landed && stream[i].msg.OutcomeMsg? ensures SettledIn(core', stream[i].msg.o.reservationId) {
      var rid := stream[i].msg.o.reservationId;
      assert L.RowEvolves(core.reservations[rid], core'.reservations[rid]);
    }
  }

  lemma CoreStepKeepsAgreement(core: C.Db, core': C.Db, payments: map<string, P.Pay>, c: C.Cmd)
    requires L.StepOf(core, c, core') && AgreeInv(core, payments)
    requires c.Settle? && c.to == C.Confirmed ==> HasPayment(payments, c.rid, P.Succeeded)
    requires c.Settle? && c.to == C.Failed ==> HasPayment(payments, c.rid, P.Failed)
    ensures AgreeInv(core', payments)
  {
    forall rid | rid in core'.reservations
      ensures core'.reservations[rid].status == C.Confirmed ==> HasPayment(payments, rid, P.Succeeded)
      ensures core'.reservations[rid].status == C.Failed ==> HasPayment(payments, rid, P.Failed)
    {
      L.StepSettles(core, c, core', rid);
    }
  }

  /** An outcome message in the stream is backed by a decided payment of the reservation it names. */
  lemma OutcomeIsBacked(s: State, i: nat)
    requires StreamInv(s.core, s.pay, s.stream) && P.OutboxInv(s.pay) && PaysPriced(s.core, s.pay.payments)
    requires i < |s.stream| && s.stream[i].msg.OutcomeMsg?
    ensures var o := s.stream[i].msg.o;
            && o.reservationId in s.core.reservations
            && o.amountCents == s.core.reservations[o.reservationId].amountCents
            && HasPayment(s.pay.payments, o.reservationId, if o.succeeded then P.Succeeded else P.Failed)
  {
    var o := s.stream[i].msg.o;
    assert s.stream[i] in s.stream;
    assert EntryTrue(s.core, s.pay, s.stream[i].msg);
    assert P.Backed(s.pay.payments, o);
    var k :| k in s.pay.payments && s.pay.payments[k].status != P.Pending && P.OutcomeOfRow(s.pay.payments[k]) == o;
    assert PayPriced(s.core, s.pay.payments[k]);
  }

  /** Run without a store fault, an outcome message never leaves its reservation PENDING. */
  lemma OutcomeLands(core: C.Db, o: P.Outcome, env: C.Env)
    requires L.LedgerInv(core) && o.reservationId in core.reservations
    ensures SettledIn(RunCore(core, CommandOf(OutcomeMsg(o)).value, env, Clean), o.reservationId)
  {
    L.OutcomeSettles(core, C.Op(CommandOf(OutcomeMsg(o)).value, env));
  }

  /**
   Which core work answers its message: faultless work that was accepted, or a reserve command
   that was sold out. Every other error, and every fault, goes back to the broker.
   */
  lemma WorkAnswersIff(s: State, i: nat, env: C.Env, fault: Fault)
    requires i < |s.stream| && CommandOf(s.stream[i].msg).Some?
    ensures var o := C.Exec(s.core, C.Op(CommandOf(s.stream[i].msg).value, env));
            && Worked(s, i, env, fault).handled - {i} == s.handled - {i}
            && (i in Worked(s, i, env, fault).handled <==>
                  || i in s.handled
                  || (fault == Clean && (!o.Rejected? || (s.stream[i].msg.ReserveCmd? && o.error == C.SoldOut))))
  {
  }

  /**
   One clean delivery of payment.succeeded: a PENDING reservation becomes CONFIRMED, any other
   stays as it was, and the message is answered exactly when the reservation ends up CONFIRMED.
   */
  lemma SucceededDelivery(core: C.Db, o: P.Outcome, env: C.Env)
    requires L.LedgerInv(core) && o.succeeded && o.reservationId in core.reservations
    ensures var core' := RunCore(core, CommandOf(OutcomeMsg(o)).value, env, Clean);
            && o.reservationId in core'.reservations
            && var st, st' := core.reservations[o.reservationId].status, core'.reservations[o.reservationId].status;
               && st' == (if st == C.Pending then C.Confirmed else st)
               && (st' == C.Confirmed <==>
                     Answered(OutcomeMsg(o), C.Exec(core, C.Op(CommandOf(OutcomeMsg(o)).value, env))))
  {
    var op := C.Op(CommandOf(OutcomeMsg(o)).value, env);
    L.SettleAlwaysLands(core, op);
    if C.Exec(core, op).Applied? {
      var ev := L.AppliedWrites(core, op);
    }
  }

  // ---- Preservation, action by action ----

  lemma InitInv(core: C.Db)
    requires L.Seeded(core)
    ensures Inv(Init(core))
  {
    L.OutboxIsLedger(core, []);
    P.InitInv();
  }

  /** Appending a true message, or changing an entry's bookkeeping, keeps what the stream says. */
  lemma StreamKeeps(core: C.Db, pay: P.State, stream: seq<Entry>, stream': seq<Entry>, landed: set<nat>)
    requires StreamInv(core, pay, stream) && LandedInv(core, stream, landed)
    requires |stream'| >= |stream|
    requires forall i :: 0 <= i < |stream| ==> stream'[i].msg == stream[i].msg
    requires forall i :: |stream| <= i < |stream'| ==> EntryTrue(core, pay, stream'[i].msg)
    ensures StreamInv(core, pay, stream') && LandedInv(core, stream', landed)
  {
    forall e | e in stream' ensures EntryTrue(core, pay, e.msg) {
      var i :| 0 <= i < |stream'| && stream'[i] == e;
      if i < |stream| {
        assert EntryTrue(core, pay, stream[i].msg);
      }
    }
  }

  predicate OfBroker(a: Action) {
    || a.Gateway? || a.RelayCore? || a.MarkCore? || a.RelayPay? || a.MarkPay?
    || a.Sweep? || a.DeliverCore? || a.Ack? || a.DeadLetter?
  }

  /** What the broker and the relays do: they append true messages and keep books. */
  lemma BrokerAppends(s: State, a: Action, maxDeliver: nat)
    requires Enabled(s, a, maxDeliver)
    requires OfBroker(a)
    ensures var s' := Next(s, a);
            && s'.core == s.core && s'.pay == s.pay && s'.landed == s.landed
            && |s'.stream| >= |s.stream|
            && (forall i :: 0 <= i < |s.stream| ==> s'.stream[i].msg == s.stream[i].msg)
            && (forall i :: |s.stream| <= i < |s'.stream| ==> EntryTrue(s.core, s.pay, s'.stream[i].msg))
  {
  }

  /** Nothing but the stream and its bookkeeping changed. */
  lemma BooksKeep(s: State, s': State)
    requires Inv(s) && s'.core == s.core && s'.pay == s.pay
    requires StreamInv(s.core, s.pay, s'.stream) && LandedInv(s.core, s'.stream, s'.landed)
    ensures Inv(s')
  {
  }

  lemma BrokerKeeps(s: State, a: Action, maxDeliver: nat)
    requires Inv(s) && Enabled(s, a, maxDeliver)
    requires OfBroker(a)
    ensures Inv(Next(s, a))
  {
    BrokerAppends(s, a, maxDeliver);
    StreamKeeps(s.core, s.pay, s.stream, Next(s, a).stream, s.landed);
    BooksKeep(s, Next(s, a));
  }

  /** A core use case that settles only what the payments allow keeps the whole invariant. */
  lemma CoreStepKeeps(s: State, c: C.Cmd, env: C.Env, fault: Fault)
    requires Inv(s)
    requires c.Settle? && c.to == C.Confirmed ==> HasPayment(s.pay.payments, c.rid, P.Succeeded)
    requires c.Settle? && c.to == C.Failed ==> HasPayment(s.pay.payments, c.rid, P.Failed)
    ensures Inv(s.(core := RunCore(s.core, c, env, fault)))
  {
    var core' := RunCore(s.core, c, env, fault);
    RunCoreKeeps(s.core, c, env, fault);
    RunCoreSteps(s.core, c, env, fault);
    CoreStepKeepsLink(s.core, core', s.pay);
    CoreStepKeepsStream(s.core, core', s.pay, s.stream, s.landed);
    CoreStepKeepsAgreement(s.core, core', s.pay.payments, c);
  }

  /** An entry whose use case has just run without a fault may join the landed ones. */
  lemma LandingKeeps(core: C.Db, stream: seq<Entry>, landed: set<nat>, i: nat)
    requires LandedInv(core, stream, landed) && i < |stream|
    requires stream[i].msg.OutcomeMsg? ==> SettledIn(core, stream[i].msg.o.reservationId)
    ensures LandedInv(core, stream, landed + {i})
  {
  }

  lemma OutcomeIsAllowed(s: State, i: nat)
    requires StreamInv(s.core, s.pay, s.stream) && P.OutboxInv(s.pay) && PaysPriced(s.core, s.pay.payments)
    requires i < |s.stream| && CommandOf(s.stream[i].msg).Some?
    ensures var c := CommandOf(s.stream[i].msg).value;
            && (c.Settle? && c.to == C.Confirmed ==> HasPayment(s.pay.payments, c.rid, P.Succeeded))
            && (c.Settle? && c.to == C.Failed ==> HasPayment(s.pay.payments, c.rid, P.Failed))
  {
    if s.stream[i].msg.OutcomeMsg? {
      OutcomeIsBacked(s, i);
    }
  }

  /** The landed entry's reservation is settled: the use case ran on it without a fault. */
  lemma DeliveryLands(s: State, i: nat, env: C.Env)
    requires Inv(s) && i < |s.stream| && CommandOf(s.stream[i].msg).Some?
    ensures s.stream[i].msg.OutcomeMsg? ==>
              SettledIn(RunCore(s.core, CommandOf(s.stream[i].msg).value, env, Clean), s.stream[i].msg.o.reservationId)
  {
    if s.stream[i].msg.OutcomeMsg? {
      OutcomeIsBacked(s, i);
      OutcomeLands(s.core, s.stream[i].msg.o, env);
    }
  }

  lemma WorkKeeps(s: State, i: nat, env: C.Env, fault: Fault)
    requires Inv(s) && i < |s.stream| && CommandOf(s.stream[i].msg).Some?
    ensures Inv(Worked(s, i, env, fault))
  {
    var c := CommandOf(s.stream[i].msg).value;
    var core' := RunCore(s.core, c, env, fault);
    var s' := Worked(s, i, env, fault);
    OutcomeIsAllowed(s, i);
    CoreStepKeeps(s, c, env, fault);
    if fault == Clean {
      DeliveryLands(s, i, env);
      LandingKeeps(core', s.stream, s.landed, i);
    }
    BooksKeep(s.(core := core'), s');
  }

  /** Decided payments stay as they are, so agreement survives every payment step. */
  lemma PayEvolutionKeepsAgreement(core: C.Db, p: map<string, P.Pay>, q: map<string, P.Pay>)
    requires AgreeInv(core, p) && P.RowsEvolve(p, q)
    ensures AgreeInv(core, q)
  {
    forall rid, st | st != P.Pending && HasPayment(p, rid, st) ensures HasPayment(q, rid, st) {
      var k :| k in p && p[k].reservationId == rid && p[k].status == st;
      assert k in q && P.PayEvolves(p[k], q[k]);
    }
  }

  /** A payment step prices new rows and runs from the projection. */
  lemma PayStepKeepsPrices(core: C.Db, s: P.State, s': P.State)
    requires ContextsInv(core, s.contexts) && RunsPriced(core, s.runs) && PaysPriced(core, s.payments)
    requires forall k :: k in core.reservations ==> L.RowInv(k, core.reservations[k])
    requires forall k :: k in s'.runs ==> P.RunMoves(s, k, s'.runs[k])
    requires forall k :: k in s'.payments ==> P.RowMoves(s, k, s'.payments[k])
    ensures RunsPriced(core, s'.runs) && PaysPriced(core, s'.payments)
  {
    forall k | k in s'.runs ensures RunPriced(core, s'.runs[k]) {
      assert P.RunMoves(s, k, s'.runs[k]);
      assert k in s.runs ==> RunPriced(core, s.runs[k]);
    }
    forall k | k in s'.payments ensures PayPriced(core, s'.payments[k]) {
      assert P.RowMoves(s, k, s'.payments[k]);
      assert k in s.payments ==> PayPriced(core, s.payments[k]);
      assert k in s.runs ==> RunPriced(core, s.runs[k]);
    }
  }

  lemma PayStepKeepsLink(core: C.Db, pay: P.State, pay': P.State)
    requires L.LedgerInv(core) && LinkInv(core, pay)
    requires forall k :: k in pay'.runs ==> P.RunMoves(pay, k, pay'.runs[k])
    requires forall k :: k in pay'.payments ==> P.RowMoves(pay, k, pay'.payments[k])
    requires pay'.contexts == pay.contexts && P.RowsEvolve(pay.payments, pay'.payments)
    ensures LinkInv(core, pay')
  {
    PayStepKeepsPrices(core, pay, pay');
    PayEvolutionKeepsAgreement(core, pay.payments, pay'.payments);
  }

  lemma PayStepKeepsStream(core: C.Db, pay: P.State, pay': P.State, stream: seq<Entry>)
    requires StreamInv(core, pay, stream) && pay.outbox <= pay'.outbox
    ensures StreamInv(core, pay', stream)
  {
    forall e | e in stream ensures EntryTrue(core, pay', e.msg) {
      assert EntryTrue(core, pay, e.msg);
    }
  }

  /** `pay'` is a legal successor of `pay`, whatever the step was. */
  ghost predicate PayMoves(pay: P.State, pay': P.State) {
    && P.Inv(pay') && P.Evolves(pay, pay') && pay'.contexts == pay.contexts
    && (forall k :: k in pay'.runs ==> P.RunMoves(pay, k, pay'.runs[k]))
    && (forall k :: k in pay'.payments ==> P.RowMoves(pay, k, pay'.payments[k]))
  }

  lemma PayStepMoves(pay: P.State, a: P.Action)
    requires P.Inv(pay) && P.Enabled(pay, a) && !a.Project?
    ensures PayMoves(pay, P.Next(pay, a))
  {
    P.NextKeepsInv(pay, a);
    P.StepMoves(pay, a);
  }

  lemma PayMoveKeeps(s: State, pay': P.State)
    requires Inv(s) && PayMoves(s.pay, pay')
    ensures Inv(s.(pay := pay'))
  {
    PayStepKeepsLink(s.core, s.pay, pay');
    PayStepKeepsStream(s.core, s.pay, pay', s.stream);
  }

  lemma ProjectKeeps(s: State, i: nat)
    requires Inv(s) && i < |s.stream| && s.stream[i].msg.TicketMsg? && s.stream[i].msg.t.TicketReserved?
    ensures Inv(s.(pay := P.Next(s.pay, P.Project(ContextOf(s.stream[i].msg.t)))))
  {
    var t := s.stream[i].msg.t;
    assert s.stream[i] in s.stream;
    assert EntryTrue(s.core, s.pay, s.stream[i].msg);
    assert L.TicketTrue(t, s.core);
    P.NextKeepsInv(s.pay, P.Project(ContextOf(t)));
  }

  /** Counting a delivery keeps the invariant. */
  lemma CountingKeeps(s: State, i: nat, handled: set<nat>)
    requires Inv(s) && i < |s.stream|
    ensures Inv(s.(stream := Delivered(s.stream, i), handled := handled))
  {
    StreamKeeps(s.core, s.pay, s.stream, Delivered(s.stream, i), s.landed);
    BooksKeep(s, s.(stream := Delivered(s.stream, i), handled := handled));
  }

  lemma DeliverTicketKeeps(s: State, a: Action, maxDeliver: nat)
    requires Inv(s) && Enabled(s, a, maxDeliver) && a.DeliverTicket?
    ensures Inv(Next(s, a))
  {
    if a.stored {
      ProjectKeeps(s, a.i);
      CountingKeeps(s.(pay := P.Next(s.pay, P.Project(ContextOf(s.stream[a.i].msg.t)))), a.i, s.handled + {a.i});
    } else {
      CountingKeeps(s, a.i, s.handled);
    }
  }

  lemma DeliverPayKeeps(s: State, i: nat)
    requires Inv(s) && i < |s.stream| && s.stream[i].msg.PayCmd?
    ensures Inv(DeliveredPay(s, i))
  {
    var start := P.Start(KeyOf(s.stream[i].msg), P.Request(s.stream[i].msg.rid, s.stream[i].msg.userId));
    StreamKeeps(s.core, s.pay, s.stream, Delivered(s.stream, i), s.landed);
    if P.Enabled(s.pay, start) {
      var pay' := P.Next(s.pay, start);
      PayStepMoves(s.pay, start);
      PayMoveKeeps(s, pay');
      StreamKeeps(s.core, pay', s.stream, Delivered(s.stream, i), s.landed);
      BooksKeep(s.(pay := pay'), DeliveredPay(s, i));
    }
  }

  lemma PayStepKeeps(s: State, a: Action, maxDeliver: nat)
    requires Inv(s) && Enabled(s, a, maxDeliver) && a.PayStep?
    ensures Inv(Next(s, a))
  {
    var pay' := P.Next(s.pay, a.a);
    PayStepMoves(s.pay, a.a);
    PayMoveKeeps(s, pay');
    BooksKeep(s.(pay := pay'), Next(s, a));
  }

  lemma NextKeepsInv(s: State, a: Action, maxDeliver: nat)
    requires Inv(s) && Enabled(s, a, maxDeliver)
    ensures Inv(Next(s, a))
  {
    match a {
      case Work(w, env, fault) => WorkKeeps(s, s.working[w], env, fault);
      case UserCancel(rid, env, fault) => CoreStepKeeps(s, C.Settle(rid, C.Cancelled), env, fault);
      case PayStep(_) => PayStepKeeps(s, a, maxDeliver);
      case DeliverTicket(_, _) => DeliverTicketKeeps(s, a, maxDeliver);
      case DeliverPay(i) => DeliverPayKeeps(s, i);
      case _ => BrokerKeeps(s, a, maxDeliver);
    }
  }

  lemma {:induction false} ReachableInv(core: C.Db, trace: seq<Action>, maxDeliver: nat)
    requires L.Seeded(core) && Run(core, trace, maxDeliver).Some?
    ensures Inv(Run(core, trace, maxDeliver).value)
  {
    if trace == [] {
      InitInv(core);
    } else {
      var front := trace[..|trace| - 1];
      ReachableInv(core, front, maxDeliver);
      NextKeepsInv(Run(core, front, maxDeliver).value, trace[|trace| - 1], maxDeliver);
    }
  }

  // ---- Results ----

  /**
   Agreement: in every reachable state a CONFIRMED reservation has a SUCCEEDED payment and a
   FAILED one a FAILED payment, over the reservation's own stored amount.
   */
  lemma CoreAgreesWithPayments(core: C.Db, trace: seq<Action>, maxDeliver: nat, rid: Id)
    requires L.Seeded(core) && Run(core, trace, maxDeliver).Some?
    requires rid in Run(core, trace, maxDeliver).value.core.reservations
    ensures var s := Run(core, trace, maxDeliver).value;
            var r := s.core.reservations[rid];
            && (r.status == C.Confirmed ==>
                  exists k :: k in s.pay.payments && s.pay.payments[k].reservationId == rid
                    && s.pay.payments[k].status == P.Succeeded && s.pay.payments[k].amountCents == r.amountCents)
            && (r.status == C.Failed ==>
                  exists k :: k in s.pay.payments && s.pay.payments[k].reservationId == rid
                    && s.pay.payments[k].status == P.Failed && s.pay.payments[k].amountCents == r.amountCents)
  {
    ReachableInv(core, trace, maxDeliver);
    var s := Run(core, trace, maxDeliver).value;
    forall k | k in s.pay.payments ensures PayPriced(s.core, s.pay.payments[k]) {
    }
  }

  /**
   Once an outcome message has been delivered without a store fault, its reservation is never
   PENDING again: a paid one is CONFIRMED, or had been released before.
   */
  lemma DeliveredOutcomeSettles(core: C.Db, trace: seq<Action>, maxDeliver: nat, i: nat)
    requires L.Seeded(core) && Run(core, trace, maxDeliver).Some?
    requires i in Run(core, trace, maxDeliver).value.landed
    requires i < |Run(core, trace, maxDeliver).value.stream|
    requires Run(core, trace, maxDeliver).value.stream[i].msg.OutcomeMsg?
    ensures var s := Run(core, trace, maxDeliver).value;
            SettledIn(s.core, s.stream[i].msg.o.reservationId)
  {
    ReachableInv(core, trace, maxDeliver);
  }

  lemma OutcomeIsPriced(core: C.Db, payments: map<string, P.Pay>, o: P.Outcome)
    requires P.Backed(payments, o) && PaysPriced(core, payments)
    ensures o.reservationId in core.reservations && o.amountCents == core.reservations[o.reservationId].amountCents
  {
    var k :| k in payments && payments[k].status != P.Pending && P.OutcomeOfRow(payments[k]) == o;
    assert PayPriced(core, payments[k]);
  }

  /** Price and window agree end to end, for every relay order and duplication. */
  lemma PricesAgree(core: C.Db, trace: seq<Action>, maxDeliver: nat)
    requires L.Seeded(core) && Run(core, trace, maxDeliver).Some?
    ensures var s := Run(core, trace, maxDeliver).value;
            && (forall rid :: rid in s.pay.contexts ==>
                  rid in s.core.reservations && s.pay.contexts[rid] == ContextOfRow(s.core.reservations[rid]))
            && (forall k :: k in s.pay.payments ==> PayPriced(s.core, s.pay.payments[k]))
            && (forall o :: o in s.pay.outbox ==>
                  && o.reservationId in s.core.reservations
                  && o.amountCents == s.core.reservations[o.reservationId].amountCents)
            && (forall k :: k in s.core.reservations ==>
                  s.core.reservations[k].eventId in s.core.events
                  && s.core.reservations[k].amountCents
                       == C.Wrap64(s.core.events[s.core.reservations[k].eventId].priceCents
                                   * s.core.reservations[k].quantity))
  {
    ReachableInv(core, trace, maxDeliver);
    var s := Run(core, trace, maxDeliver).value;
    forall o | o in s.pay.outbox
      ensures o.reservationId in s.core.reservations
      ensures o.amountCents == s.core.reservations[o.reservationId].amountCents
    {
      OutcomeIsPriced(s.core, s.pay.payments, o);
    }
  }

  /** An applied message with a reservation id has nothing left to do. */
  ghost predicate AppliedInv(core: C.Db, stream: seq<Entry>, applied: set<nat>) {
    forall i :: i in applied ==>
      && i < |stream| && CommandOf(stream[i].msg).Some?
      && (CommandOf(stream[i].msg).value.rid != "" ==> R.Done(core, CommandOf(stream[i].msg).value))
  }

  lemma AppliedKeeps(core: C.Db, core': C.Db, stream: seq<Entry>, stream': seq<Entry>, applied: set<nat>)
    requires AppliedInv(core, stream, applied) && L.Evolves(core, core')
    requires |stream| <= |stream'| && forall i :: 0 <= i < |stream| ==> stream'[i].msg == stream[i].msg
    ensures AppliedInv(core', stream', applied)
  {
    forall i | i in applied && CommandOf(stream[i].msg).value.rid != ""
      ensures R.Done(core', CommandOf(stream[i].msg).value)
    {
      var rid := CommandOf(stream[i].msg).value.rid;
      assert R.Done(core, CommandOf(stream[i].msg).value);
      assert L.RowEvolves(core.reservations[rid], core'.reservations[rid]);
    }
  }

  lemma EvolvesReflexive(core: C.Db)
    ensures L.Evolves(core, core)
  {
  }

  lemma WorkApplies(s: State, i: nat, env: C.Env, fault: Fault)
    requires L.LedgerInv(s.core) && AppliedInv(s.core, s.stream, s.applied)
    requires i < |s.stream| && CommandOf(s.stream[i].msg).Some?
    ensures var s' := Worked(s, i, env, fault); AppliedInv(s'.core, s'.stream, s'.applied)
  {
    var c := CommandOf(s.stream[i].msg).value;
    var s' := Worked(s, i, env, fault);
    RunCoreSteps(s.core, c, env, fault);
    AppliedKeeps(s.core, s'.core, s.stream, s'.stream, s.applied);
    if s'.applied != s.applied && c.rid != "" {
      R.AppliedIsDone(s.core, C.Op(c, env));
    }
  }

  /** Other steps run no message's use case; only a user's cancellation touches its database. */
  lemma OthersKeepStream(s: State, a: Action, maxDeliver: nat)
    requires Enabled(s, a, maxDeliver) && !a.Work?
    ensures var s' := Next(s, a);
            && |s.stream| <= |s'.stream| && (forall i :: 0 <= i < |s.stream| ==> s'.stream[i].msg == s.stream[i].msg)
            && s'.applied == s.applied && (!a.UserCancel? ==> s'.core == s.core)
  {
  }

  lemma NextApplies(s: State, a: Action, maxDeliver: nat)
    requires L.LedgerInv(s.core) && AppliedInv(s.core, s.stream, s.applied) && Enabled(s, a, maxDeliver)
    ensures AppliedInv(Next(s, a).core, Next(s, a).stream, Next(s, a).applied)
  {
    if a.Work? {
      WorkApplies(s, s.working[a.w], a.env, a.fault);
    } else {
      OthersKeepStream(s, a, maxDeliver);
      if a.UserCancel? {
        RunCoreSteps(s.core, C.Settle(a.rid, C.Cancelled), a.env, a.fault);
      } else {
        EvolvesReflexive(s.core);
      }
      AppliedKeeps(s.core, Next(s, a).core, s.stream, Next(s, a).stream, s.applied);
    }
  }

  lemma {:induction false} ReachableApplied(core: C.Db, trace: seq<Action>, maxDeliver: nat)
    requires L.Seeded(core) && Run(core, trace, maxDeliver).Some?
    ensures var s := Run(core, trace, maxDeliver).value; AppliedInv(s.core, s.stream, s.applied)
  {
    if trace != [] {
      var front := trace[..|trace| - 1];
      ReachableApplied(core, front, maxDeliver);
      ReachableInv(core, front, maxDeliver);
      NextApplies(Run(core, front, maxDeliver).value, trace[|trace| - 1], maxDeliver);
    }
  }

  /**
   Exactly-once effect over the broker: after any delivery of a message with a reservation id
   was applied, delivering any message it covers (itself, a duplicate, or another cause of the
   same settlement) leaves the core database unchanged, whatever the clock and the store do.
   */
  lemma RedeliveryChangesNothing(
    core: C.Db, trace: seq<Action>, maxDeliver: nat, i: nat, j: nat, env: C.Env, fault: Fault)
    requires L.Seeded(core) && Run(core, trace, maxDeliver).Some?
    requires var s := Run(core, trace, maxDeliver).value;
             && i in s.applied && i < |s.stream| && j < |s.stream|
             && CommandOf(s.stream[i].msg).Some? && CommandOf(s.stream[j].msg).Some?
             && R.Covers(CommandOf(s.stream[i].msg).value, CommandOf(s.stream[j].msg).value)
             && CommandOf(s.stream[j].msg).value.rid != ""
    ensures var s := Run(core, trace, maxDeliver).value; Worked(s, j, env, fault).core == s.core
  {
    ReachableApplied(core, trace, maxDeliver);
    var s := Run(core, trace, maxDeliver).value;
    R.DoneIsNoop(s.core, C.Op(CommandOf(s.stream[j].msg).value, env));
  }

  // ---- Deliveries, acknowledgements and relayed rows ----

  predicate Delivers(a: Action, i: nat) {
    a == DeliverPay(i) || (a.DeliverCore? && a.i == i) || (a.DeliverTicket? && a.i == i)
  }

  /** How often a run hands stream entry `i` to its consumer. */
  function Deliveries(trace: seq<Action>, i: nat): nat {
    if trace == [] then 0
    else Deliveries(trace[..|trace| - 1], i) + (if Delivers(trace[|trace| - 1], i) then 1 else 0)
  }

  /** The counter of an entry grows exactly when the entry is delivered. */
  lemma NextCounts(s: State, a: Action, maxDeliver: nat, i: nat)
    requires Enabled(s, a, maxDeliver)
    ensures |s.stream| <= |Next(s, a).stream|
    ensures i < |s.stream| ==>
              Next(s, a).stream[i].deliveries == s.stream[i].deliveries + (if Delivers(a, i) then 1 else 0)
    ensures |s.stream| <= i < |Next(s, a).stream| ==> Next(s, a).stream[i].deliveries == 0
    ensures Delivers(a, i) ==> i < |s.stream|
  {
  }

  lemma {:induction false} DeliveriesCounted(core: C.Db, trace: seq<Action>, maxDeliver: nat, i: nat)
    requires Run(core, trace, maxDeliver).Some?
    ensures var s := Run(core, trace, maxDeliver).value;
            Deliveries(trace, i) == if i < |s.stream| then s.stream[i].deliveries else 0
  {
    if trace != [] {
      var front := trace[..|trace| - 1];
      DeliveriesCounted(core, front, maxDeliver, i);
      NextCounts(Run(core, front, maxDeliver).value, trace[|trace| - 1], maxDeliver, i);
    }
  }

  lemma NextKeepsBudget(s: State, a: Action, maxDeliver: nat)
    requires BudgetInv(s.stream, s.handled, maxDeliver) && Enabled(s, a, maxDeliver)
    ensures BudgetInv(Next(s, a).stream, Next(s, a).handled, maxDeliver)
  {
  }

  /** What each step adds to the answered and started entries has been delivered. */
  lemma NewlyDelivered(s: State, a: Action, maxDeliver: nat)
    requires Enabled(s, a, maxDeliver)
    ensures forall i :: i in Next(s, a).handled && i !in s.handled ==>
              || Delivers(a, i)
              || (a.PayStep? && a.a.key in s.running && i == s.running[a.a.key])
              || (a.Work? && i == s.working[a.w])
    ensures forall k :: k in Next(s, a).running ==>
              (k in s.running && Next(s, a).running[k] == s.running[k]) || Delivers(a, Next(s, a).running[k])
    ensures forall w :: w in Next(s, a).working ==>
              (w in s.working && Next(s, a).working[w] == s.working[w]) || Delivers(a, Next(s, a).working[w])
  {
  }

  lemma NextKeepsDelivered(s: State, a: Action, maxDeliver: nat)
    requires DeliveredInv(s.stream, s.handled, s.running, s.working) && Enabled(s, a, maxDeliver)
    ensures DeliveredInv(Next(s, a).stream, Next(s, a).handled, Next(s, a).running, Next(s, a).working)
  {
    var s' := Next(s, a);
    NewlyDelivered(s, a, maxDeliver);
    forall i | i in s'.handled ensures i < |s'.stream| && s'.stream[i].deliveries > 0 {
      NextCounts(s, a, maxDeliver, i);
    }
    forall k | k in s'.running ensures s'.running[k] < |s'.stream| && s'.stream[s'.running[k]].deliveries > 0 {
      NextCounts(s, a, maxDeliver, s'.running[k]);
    }
    forall w | w in s'.working ensures s'.working[w] < |s'.stream| && s'.stream[s'.working[w]].deliveries > 0 {
      NextCounts(s, a, maxDeliver, s'.working[w]);
    }
  }

  lemma {:induction false} ReachableBudget(core: C.Db, trace: seq<Action>, maxDeliver: nat)
    requires Run(core, trace, maxDeliver).Some?
    ensures var s := Run(core, trace, maxDeliver).value;
            BudgetInv(s.stream, s.handled, maxDeliver) && DeliveredInv(s.stream, s.handled, s.running, s.working)
  {
    if trace != [] {
      var front := trace[..|trace| - 1];
      ReachableBudget(core, front, maxDeliver);
      NextKeepsBudget(Run(core, front, maxDeliver).value, trace[|trace| - 1], maxDeliver);
      NextKeepsDelivered(Run(core, front, maxDeliver).value, trace[|trace| - 1], maxDeliver);
    }
  }

  /**
   Over any run no entry is delivered more than `maxDeliver` times; a dead-lettered one was
   delivered exactly that often, an acknowledged one at least once.
   */
  lemma BudgetHolds(core: C.Db, trace: seq<Action>, maxDeliver: nat, i: nat)
    requires Run(core, trace, maxDeliver).Some?
    ensures Deliveries(trace, i) <= maxDeliver
    ensures var s := Run(core, trace, maxDeliver).value;
            i < |s.stream| ==>
              && (s.stream[i].dead ==> Deliveries(trace, i) == maxDeliver)
              && (s.stream[i].acked ==> Deliveries(trace, i) > 0)
  {
    ReachableBudget(core, trace, maxDeliver);
    DeliveriesCounted(core, trace, maxDeliver, i);
  }

  lemma StreamKeepsStored(stream: seq<Entry>, stream': seq<Entry>, m: Msg)
    requires Stored(stream, m) && |stream| <= |stream'|
    requires forall i :: 0 <= i < |stream| ==> stream'[i].msg == stream[i].msg
    ensures Stored(stream', m)
  {
    var j :| 0 <= j < |stream| && stream[j].msg == m;
    assert stream'[j].msg == m;
  }

  /** Steps only append to the stream and to both outboxes. */
  lemma StreamGrows(s: State, a: Action, maxDeliver: nat)
    requires Enabled(s, a, maxDeliver)
    ensures var s' := Next(s, a);
            |s.stream| <= |s'.stream| && forall i :: 0 <= i < |s.stream| ==> s'.stream[i].msg == s.stream[i].msg
  {
  }

  lemma RunCoreAppends(core: C.Db, c: C.Cmd, env: C.Env, fault: Fault)
    ensures core.outbox <= RunCore(core, c, env, fault).outbox
  {
  }

  lemma OutboxesGrow(s: State, a: Action, maxDeliver: nat)
    requires Enabled(s, a, maxDeliver)
    ensures s.core.outbox <= Next(s, a).core.outbox
    ensures s.pay.outbox <= Next(s, a).pay.outbox
  {
    match a {
      case Work(w, env, fault) => RunCoreAppends(s.core, CommandOf(s.stream[s.working[w]].msg).value, env, fault);
      case UserCancel(rid, env, fault) => RunCoreAppends(s.core, C.Settle(rid, C.Cancelled), env, fault);
      case PayStep(b) => P.OutboxGrows(s.pay, b);
      case _ =>
    }
  }

  /** Which step adds to the published rows, and that its message is then in the stream: new, or a duplicate of one. */
  lemma PublishesCore(s: State, a: Action, maxDeliver: nat)
    requires Enabled(s, a, maxDeliver)
    requires CoreRelayed(s.core.outbox, s.stream, s.corePublished, s.coreMarked)
    ensures Next(s, a).coreMarked <= Next(s, a).corePublished
    ensures forall i :: i in Next(s, a).corePublished ==>
              i in s.corePublished || (i < |s.core.outbox| && Stored(Next(s, a).stream, TicketMsg(s.core.outbox[i])))
  {
    if a.RelayCore? && !a.dropped {
      assert Next(s, a).stream[|s.stream|].msg == TicketMsg(s.core.outbox[a.i]);
    }
  }

  lemma PublishesPay(s: State, a: Action, maxDeliver: nat)
    requires Enabled(s, a, maxDeliver)
    requires PayRelayed(s.pay.outbox, s.stream, s.payPublished, s.payMarked)
    ensures Next(s, a).payMarked <= Next(s, a).payPublished
    ensures forall i :: i in Next(s, a).payPublished ==>
              i in s.payPublished || (i < |s.pay.outbox| && Stored(Next(s, a).stream, OutcomeMsg(s.pay.outbox[i])))
  {
    if a.RelayPay? && !a.dropped {
      assert Next(s, a).stream[|s.stream|].msg == OutcomeMsg(s.pay.outbox[a.i]);
    }
  }

  lemma NextKeepsCoreRelayed(s: State, a: Action, maxDeliver: nat)
    requires Enabled(s, a, maxDeliver)
    requires CoreRelayed(s.core.outbox, s.stream, s.corePublished, s.coreMarked)
    ensures var s' := Next(s, a); CoreRelayed(s'.core.outbox, s'.stream, s'.corePublished, s'.coreMarked)
  {
    var s' := Next(s, a);
    StreamGrows(s, a, maxDeliver);
    OutboxesGrow(s, a, maxDeliver);
    PublishesCore(s, a, maxDeliver);
    forall i | i in s'.corePublished
      ensures i < |s'.core.outbox| && Stored(s'.stream, TicketMsg(s'.core.outbox[i]))
    {
      if i in s.corePublished {
        StreamKeepsStored(s.stream, s'.stream, TicketMsg(s.core.outbox[i]));
      }
    }
  }

  lemma NextKeepsPayRelayed(s: State, a: Action, maxDeliver: nat)
    requires Enabled(s, a, maxDeliver)
    requires PayRelayed(s.pay.outbox, s.stream, s.payPublished, s.payMarked)
    ensures var s' := Next(s, a); PayRelayed(s'.pay.outbox, s'.stream, s'.payPublished, s'.payMarked)
  {
    var s' := Next(s, a);
    StreamGrows(s, a, maxDeliver);
    OutboxesGrow(s, a, maxDeliver);
    PublishesPay(s, a, maxDeliver);
    forall i | i in s'.payPublished
      ensures i < |s'.pay.outbox| && Stored(s'.stream, OutcomeMsg(s'.pay.outbox[i]))
    {
      if i in s.payPublished {
        StreamKeepsStored(s.stream, s'.stream, OutcomeMsg(s.pay.outbox[i]));
      }
    }
  }

  /**
   No event is lost between the outboxes and the broker: whatever a relay has marked is in
   the stream, for every crash between publish and mark and every dropped duplicate.
   */
  lemma {:induction false} MarkedIsStored(core: C.Db, trace: seq<Action>, maxDeliver: nat)
    requires Run(core, trace, maxDeliver).Some?
    ensures var s := Run(core, trace, maxDeliver).value;
            && CoreRelayed(s.core.outbox, s.stream, s.corePublished, s.coreMarked)
            && PayRelayed(s.pay.outbox, s.stream, s.payPublished, s.payMarked)
  {
    if trace != [] {
      var front := trace[..|trace| - 1];
      MarkedIsStored(core, front, maxDeliver);
      NextKeepsCoreRelayed(Run(core, front, maxDeliver).value, trace[|trace| - 1], maxDeliver);
      NextKeepsPayRelayed(Run(core, front, maxDeliver).value, trace[|trace| - 1], maxDeliver);
    }
  }
}
