/**
 What an answered message means: the work it asked for is done and will stay done, or it was
 a reserve command and its event was sold out when it was handled. Only answered messages are
 ever acknowledged, so nothing acknowledged is lost.
 */
module Answers {
  import opened Common
  import CoreLaws
  import opened Saga   // with its short names C, L, P and R

  predicate Released(r: C.Row) {
    r.status == C.Expired || r.status == C.Failed || r.status == C.Cancelled
  }

  /** The payment of `key` is decided and its outcome event is on its way. */
  ghost predicate PaidFor(pay: P.State, key: string) {
    key in pay.payments && pay.payments[key].status != P.Pending && P.OutcomeOfRow(pay.payments[key]) in pay.outbox
  }

  /** The reservation a command asked for: by its id, or without one by its terms. */
  ghost predicate HasReservation(core: C.Db, rid: Id, eid: Id, userId: Id, quantity: int) {
    if rid != "" then rid in core.reservations
    else exists k :: k in core.reservations && HasTerms(core.reservations[k], eid, userId, quantity)
  }

  predicate HasTerms(r: C.Row, eid: Id, userId: Id, quantity: int) {
    r.eventId == eid && r.userId == userId && r.quantity == quantity
  }

  /** The work of message `m` is done. */
  ghost predicate WorkDone(core: C.Db, pay: P.State, m: Msg) {
    match m
    case ReserveCmd(rid, eid, userId, quantity) => HasReservation(core, rid, eid, userId, quantity)
    case PayCmd(_, _, _, _) => PaidFor(pay, KeyOf(m))
    case TicketMsg(t) => t.rid in pay.contexts
    case OutcomeMsg(o) =>
      && o.reservationId in core.reservations
      && var r := core.reservations[o.reservationId];
         if o.succeeded then r.status == C.Confirmed else Released(r)
    case ExpiredMsg(rid) => rid in core.reservations && Released(core.reservations[rid])
  }

  /** The entry that step `a` answers as sold out, if it does. */
  function SoldBy(s: State, a: Action): set<nat> {
    if && a.Work? && a.fault == Clean && a.w in s.working && s.working[a.w] < |s.stream|
       && s.stream[s.working[a.w]].msg.ReserveCmd?
       && C.Exec(s.core, C.Op(CommandOf(s.stream[s.working[a.w]].msg).value, a.env)) == C.Rejected(C.SoldOut)
    then {s.working[a.w]} else {}
  }

  /** Step `n` of the run answered entry `i` as sold out. */
  ghost predicate SoldOutAt(core: C.Db, trace: seq<Action>, maxDeliver: nat, i: nat, n: nat) {
    && n < |trace| && Run(core, trace[..n], maxDeliver).Some?
    && i in SoldBy(Run(core, trace[..n], maxDeliver).value, trace[n])
  }

  /** And at that moment the PENDING and CONFIRMED quantities left no room for the seats it asked for. */
  ghost predicate FoundFull(core: C.Db, trace: seq<Action>, maxDeliver: nat, i: nat, n: nat) {
    && SoldOutAt(core, trace, maxDeliver, i, n)
    && var s := Run(core, trace[..n], maxDeliver).value;
       && i < |s.stream| && s.stream[i].msg.ReserveCmd?
       && CoreLaws.Full(s.core, s.stream[i].msg.eid, s.stream[i].msg.quantity)
  }

  lemma SoldOutIsFull(core: C.Db, trace: seq<Action>, maxDeliver: nat, i: nat, n: nat)
    requires L.Seeded(core) && SoldOutAt(core, trace, maxDeliver, i, n)
    ensures FoundFull(core, trace, maxDeliver, i, n)
  {
    ReachableInv(core, trace[..n], maxDeliver);
    var s := Run(core, trace[..n], maxDeliver).value;
    CoreLaws.SoldOutIff(s.core, C.Op(CommandOf(s.stream[i].msg).value, trace[n].env));
  }

  /** All entries a run has answered as sold out. */
  ghost function SoldOuts(core: C.Db, trace: seq<Action>, maxDeliver: nat): set<nat> {
    if trace == [] then {} else
      var front := trace[..|trace| - 1];
      SoldOuts(core, front, maxDeliver)
      + match Run(core, front, maxDeliver)
        case None => {}
        case Some(s) => SoldBy(s, trace[|trace| - 1])
  }

  lemma {:induction false} SoldOutHappened(core: C.Db, trace: seq<Action>, maxDeliver: nat, i: nat) returns (n: nat)
    requires i in SoldOuts(core, trace, maxDeliver)
    ensures SoldOutAt(core, trace, maxDeliver, i, n)
  {
    var front := trace[..|trace| - 1];
    if i in SoldOuts(core, front, maxDeliver) {
      n := SoldOutHappened(core, front, maxDeliver, i);
      assert front[..n] == trace[..n];
    } else {
      n := |trace| - 1;
    }
  }

  ghost predicate AnswersInv(core: C.Db, pay: P.State, stream: seq<Entry>, handled: set<nat>, sold: set<nat>) {
    forall i :: i in handled ==>
      && i < |stream|
      && (WorkDone(core, pay, stream[i].msg) || (stream[i].msg.ReserveCmd? && i in sold))
  }

  /** A success outcome whose reservation is released for good. */
  ghost predicate Unhonored(core: C.Db, m: Msg) {
    && m.OutcomeMsg? && m.o.succeeded
    && m.o.reservationId in core.reservations && Released(core.reservations[m.o.reservationId])
  }

  /** A success outcome that ran without a store fault was answered, or cannot be honored any more. */
  ghost predicate HonorInv(core: C.Db, stream: seq<Entry>, handled: set<nat>, landed: set<nat>) {
    forall i :: i in landed ==>
      && i < |stream|
      && (stream[i].msg.OutcomeMsg? && stream[i].msg.o.succeeded && i !in handled ==> Unhonored(core, stream[i].msg))
  }

  /** A payment run belongs to the entry it was started for, and works on that entry's request under its key. */
  ghost predicate RunOf(stream: seq<Entry>, running: map<string, nat>, key: string, run: P.Run) {
    && key in running && running[key] < |stream|
    && var m := stream[running[key]].msg;
       m.PayCmd? && KeyOf(m) == key && run.req == P.Request(m.rid, m.userId)
  }

  ghost predicate RunningInv(stream: seq<Entry>, runs: map<string, P.Run>, running: map<string, nat>) {
    forall k :: k in runs ==> RunOf(stream, running, k, runs[k])
  }

  // ---- Done stays done ----

  ghost predicate Onward(s: State, s': State) {
    && L.Evolves(s.core, s'.core) && P.Evolves(s.pay, s'.pay)
    && s.pay.contexts.Keys <= s'.pay.contexts.Keys
    && |s.stream| <= |s'.stream| && forall i :: 0 <= i < |s.stream| ==> s'.stream[i].msg == s.stream[i].msg
  }

  lemma CoreGoesOnward(s: State, a: Action, maxDeliver: nat)
    requires L.LedgerInv(s.core) && Enabled(s, a, maxDeliver)
    ensures L.Evolves(s.core, Next(s, a).core)
  {
    match a {
      case Work(w, env, fault) => RunCoreSteps(s.core, CommandOf(s.stream[s.working[w]].msg).value, env, fault);
      case UserCancel(rid, env, fault) => RunCoreSteps(s.core, C.Settle(rid, C.Cancelled), env, fault);
      case _ => EvolvesReflexive(s.core);
    }
  }

  lemma PayGoesOnward(pay: P.State, b: P.Action)
    requires P.Inv(pay) && P.Enabled(pay, b)
    ensures P.Evolves(pay, P.Next(pay, b)) && pay.contexts.Keys <= P.Next(pay, b).contexts.Keys
  {
    P.NextKeepsInv(pay, b);
    P.StepMoves(pay, b);
  }

  lemma PaySideGoesOnward(s: State, a: Action, maxDeliver: nat)
    requires P.Inv(s.pay) && Enabled(s, a, maxDeliver)
    ensures P.Evolves(s.pay, Next(s, a).pay) && s.pay.contexts.Keys <= Next(s, a).pay.contexts.Keys
  {
    match a {
      case PayStep(b) => PayGoesOnward(s.pay, b);
      case DeliverTicket(i, stored) => PayGoesOnward(s.pay, P.Project(ContextOf(s.stream[i].msg.t)));
      case DeliverPay(i) =>
        var start := P.Start(KeyOf(s.stream[i].msg), P.Request(s.stream[i].msg.rid, s.stream[i].msg.userId));
        if P.Enabled(s.pay, start) {
          PayGoesOnward(s.pay, start);
        }
      case _ => assert Next(s, a).pay == s.pay;
    }
  }

  lemma NextGoesOnward(s: State, a: Action, maxDeliver: nat)
    requires Inv(s) && Enabled(s, a, maxDeliver)
    ensures Onward(s, Next(s, a))
  {
    StreamGrows(s, a, maxDeliver);
    CoreGoesOnward(s, a, maxDeliver);
    PaySideGoesOnward(s, a, maxDeliver);
  }

  lemma ReservationStays(core: C.Db, core': C.Db, rid: Id, eid: Id, userId: Id, quantity: int)
    requires L.Evolves(core, core') && HasReservation(core, rid, eid, userId, quantity)
    ensures HasReservation(core', rid, eid, userId, quantity)
  {
    if rid == "" {
      var k :| k in core.reservations && HasTerms(core.reservations[k], eid, userId, quantity);
      assert L.RowEvolves(core.reservations[k], core'.reservations[k]);
      assert HasTerms(core'.reservations[k], eid, userId, quantity);
    }
  }

  lemma DoneStays(s: State, s': State, m: Msg)
    requires Onward(s, s') && WorkDone(s.core, s.pay, m)
    ensures WorkDone(s'.core, s'.pay, m)
  {
    match m {
      case ReserveCmd(rid, eid, userId, quantity) => ReservationStays(s.core, s'.core, rid, eid, userId, quantity);
      case OutcomeMsg(o) =>
        assert L.RowEvolves(s.core.reservations[o.reservationId], s'.core.reservations[o.reservationId]);
      case ExpiredMsg(rid) => assert L.RowEvolves(s.core.reservations[rid], s'.core.reservations[rid]);
      case PayCmd(_, _, _, _) => assert P.PayEvolves(s.pay.payments[KeyOf(m)], s'.pay.payments[KeyOf(m)]);
      case _ =>
    }
  }

  // ---- What is newly answered is done ----

  /** A settlement that is answered leaves its reservation in the family of states it asked for. */
  lemma AnsweredSettlement(core: C.Db, op: C.Op)
    requires L.LedgerInv(core) && op.cmd.Settle? && !C.Exec(core, op).Rejected?
    ensures var core' := C.Exec(core, op).After(core);
            && op.cmd.rid in core'.reservations
            && if op.cmd.to == C.Confirmed then core'.reservations[op.cmd.rid].status == C.Confirmed
               else Released(core'.reservations[op.cmd.rid])
  {
    L.SettleAlwaysLands(core, op);
    if C.Exec(core, op).Applied? {
      var ev := L.AppliedWrites(core, op);
    }
  }

  /** An accepted reserve command leaves a reservation behind. */
  lemma AnsweredReserve(core: C.Db, op: C.Op)
    requires L.LedgerInv(core) && op.cmd.Reserve? && !C.Exec(core, op).Rejected?
    ensures HasReservation(C.Exec(core, op).After(core), op.cmd.rid, op.cmd.eid, op.cmd.userId, op.cmd.quantity)
  {
    var core' := C.Exec(core, op).After(core);
    if op.cmd.rid == "" {
      assert HasTerms(core'.reservations[op.env.newId], op.cmd.eid, op.cmd.userId, op.cmd.quantity);
    }
  }

  lemma WorkIsDone(s: State, w: nat, env: C.Env)
    requires L.LedgerInv(s.core) && w in s.working && s.working[w] < |s.stream|
    requires CommandOf(s.stream[s.working[w]].msg).Some?
    requires var m := s.stream[s.working[w]].msg; Answered(m, C.Exec(s.core, C.Op(CommandOf(m).value, env)))
    ensures var m := s.stream[s.working[w]].msg;
            || WorkDone(RunCore(s.core, CommandOf(m).value, env, Clean), s.pay, m)
            || (m.ReserveCmd? && s.working[w] in SoldBy(s, Work(w, env, Clean)))
  {
    var m := s.stream[s.working[w]].msg;
    var op := C.Op(CommandOf(m).value, env);
    if !m.ReserveCmd? {
      AnsweredSettlement(s.core, op);
    } else if !C.Exec(s.core, op).Rejected? {
      AnsweredReserve(s.core, op);
    }
  }

  /** The step that answers a payment command leaves its payment decided and its outcome enqueued. */
  lemma AnswerPays(pay: P.State, b: P.Action)
    requires P.Inv(pay) && P.Enabled(pay, b) && Answers(pay, b)
    ensures PaidFor(P.Next(pay, b), b.key)
  {
    assert P.RunInv(pay.payments, b.key, pay.runs[b.key]);
    if b.Conclude? {
      P.SetStatusIsOwnRow(pay, b.key);
    }
  }

  /** Which steps answer an entry. */
  lemma WhoAnswers(s: State, a: Action, maxDeliver: nat, i: nat)
    requires Enabled(s, a, maxDeliver) && i in Next(s, a).handled && i !in s.handled
    ensures || (&& a.Work? && a.fault == Clean && i == s.working[a.w]
                && Answered(s.stream[i].msg, C.Exec(s.core, C.Op(CommandOf(s.stream[i].msg).value, a.env))))
            || (a.DeliverTicket? && a.stored && i == a.i)
            || (a.PayStep? && Answers(s.pay, a.a) && a.a.key in s.running && i == s.running[a.a.key])
  {
  }

  lemma TicketIsProjected(s: State, i: nat, maxDeliver: nat)
    requires Enabled(s, DeliverTicket(i, true), maxDeliver)
    ensures s.stream[i].msg.t.rid in Next(s, DeliverTicket(i, true)).pay.contexts
  {
  }

  lemma NewlyAnswered(s: State, a: Action, maxDeliver: nat, i: nat)
    requires L.LedgerInv(s.core) && P.Inv(s.pay)
    requires RunningInv(s.stream, s.pay.runs, s.running) && Enabled(s, a, maxDeliver)
    requires i in Next(s, a).handled && i !in s.handled
    ensures i < |s.stream|
    ensures || WorkDone(Next(s, a).core, Next(s, a).pay, s.stream[i].msg)
            || (s.stream[i].msg.ReserveCmd? && i in SoldBy(s, a))
  {
    WhoAnswers(s, a, maxDeliver, i);
    if a.Work? {
      WorkIsDone(s, a.w, a.env);
    } else if a.PayStep? {
      assert RunOf(s.stream, s.running, a.a.key, s.pay.runs[a.a.key]);
      AnswerPays(s.pay, a.a);
    } else {
      TicketIsProjected(s, i, maxDeliver);
    }
  }

  lemma NextKeepsAnswers(s: State, a: Action, maxDeliver: nat, sold: set<nat>)
    requires Inv(s) && RunningInv(s.stream, s.pay.runs, s.running) && Enabled(s, a, maxDeliver)
    requires AnswersInv(s.core, s.pay, s.stream, s.handled, sold)
    ensures AnswersInv(Next(s, a).core, Next(s, a).pay, Next(s, a).stream, Next(s, a).handled, sold + SoldBy(s, a))
  {
    var s' := Next(s, a);
    NextGoesOnward(s, a, maxDeliver);
    forall i | i in s'.handled
      ensures i < |s'.stream|
      ensures WorkDone(s'.core, s'.pay, s'.stream[i].msg) || (s'.stream[i].msg.ReserveCmd? && i in sold + SoldBy(s, a))
    {
      if i !in s.handled {
        NewlyAnswered(s, a, maxDeliver, i);
      } else if WorkDone(s.core, s.pay, s.stream[i].msg) {
        DoneStays(s, s', s.stream[i].msg);
      }
    }
  }

  // ---- Unanswered successes ----

  /** A confirmation that is refused finds its reservation released. */
  lemma RefusedConfirmation(core: C.Db, op: C.Op)
    requires L.LedgerInv(core) && op.cmd.Settle? && op.cmd.to == C.Confirmed && op.cmd.rid in core.reservations
    requires C.Exec(core, op).Rejected?
    ensures Released(core.reservations[op.cmd.rid])
  {
    L.SettleAlwaysLands(core, op);
  }

  lemma UnhonoredStays(core: C.Db, core': C.Db, m: Msg)
    requires L.Evolves(core, core') && Unhonored(core, m)
    ensures Unhonored(core', m)
  {
    assert L.RowEvolves(core.reservations[m.o.reservationId], core'.reservations[m.o.reservationId]);
  }

  /** Only faultless work lands, and what it does not answer it was refused. */
  lemma WhoLands(s: State, a: Action, maxDeliver: nat, i: nat)
    requires Enabled(s, a, maxDeliver) && i in Next(s, a).landed && i !in s.landed
    ensures a.Work? && a.fault == Clean && i == s.working[a.w] && i < |s.stream| && CommandOf(s.stream[i].msg).Some?
    ensures s.stream[i].msg.OutcomeMsg? && i !in Next(s, a).handled ==>
              C.Exec(s.core, C.Op(CommandOf(s.stream[i].msg).value, a.env)).Rejected?
  {
  }

  lemma HandledGrows(s: State, a: Action, maxDeliver: nat)
    requires Enabled(s, a, maxDeliver)
    ensures s.handled <= Next(s, a).handled
  {
  }

  lemma RefusedOutcome(s: State, i: nat, env: C.Env)
    requires L.LedgerInv(s.core) && StreamInv(s.core, s.pay, s.stream)
    requires P.OutboxInv(s.pay) && PaysPriced(s.core, s.pay.payments)
    requires i < |s.stream| && s.stream[i].msg.OutcomeMsg? && s.stream[i].msg.o.succeeded
    requires C.Exec(s.core, C.Op(CommandOf(s.stream[i].msg).value, env)).Rejected?
    ensures Unhonored(s.core, s.stream[i].msg)
  {
    OutcomeIsBacked(s, i);
    RefusedConfirmation(s.core, C.Op(CommandOf(s.stream[i].msg).value, env));
  }

  /** The landed entries of the next state, and the news about one of them. */
  lemma HonorMoves(s: State, s': State)
    requires Onward(s, s') && s.handled <= s'.handled && HonorInv(s.core, s.stream, s.handled, s.landed)
    requires forall i :: i in s'.landed && i !in s.landed ==> i < |s.stream|
    requires forall i :: i in s'.landed && i !in s.landed && i !in s'.handled ==>
               s.stream[i].msg.OutcomeMsg? && s.stream[i].msg.o.succeeded ==> Unhonored(s.core, s.stream[i].msg)
    ensures HonorInv(s'.core, s'.stream, s'.handled, s'.landed)
  {
    forall i | i in s'.landed && s'.stream[i].msg.OutcomeMsg? && s'.stream[i].msg.o.succeeded && i !in s'.handled
      ensures Unhonored(s'.core, s'.stream[i].msg)
    {
      UnhonoredStays(s.core, s'.core, s.stream[i].msg);
    }
  }

  lemma NextKeepsHonor(s: State, a: Action, maxDeliver: nat)
    requires Inv(s) && Enabled(s, a, maxDeliver) && HonorInv(s.core, s.stream, s.handled, s.landed)
    ensures HonorInv(Next(s, a).core, Next(s, a).stream, Next(s, a).handled, Next(s, a).landed)
  {
    var s' := Next(s, a);
    NextGoesOnward(s, a, maxDeliver);
    HandledGrows(s, a, maxDeliver);
    forall i | i in s'.landed && i !in s.landed
      ensures i < |s.stream|
      ensures s.stream[i].msg.OutcomeMsg? && s.stream[i].msg.o.succeeded && i !in s'.handled ==>
                Unhonored(s.core, s.stream[i].msg)
    {
      WhoLands(s, a, maxDeliver, i);
      if s.stream[i].msg.OutcomeMsg? && s.stream[i].msg.o.succeeded && i !in s'.handled {
        RefusedOutcome(s, i, a.env);
      }
    }
    HonorMoves(s, s');
  }

  /** Where the runs and their entries come from. */
  lemma RunsOfStep(s: State, a: Action, maxDeliver: nat)
    requires Enabled(s, a, maxDeliver)
    ensures forall k :: k in Next(s, a).pay.runs ==>
              || (a.DeliverPay? && RunOf(Next(s, a).stream, Next(s, a).running, k, Next(s, a).pay.runs[k]))
              || (&& k in s.pay.runs && Next(s, a).pay.runs[k].req == s.pay.runs[k].req
                  && (k in s.running ==> k in Next(s, a).running && Next(s, a).running[k] == s.running[k]))
  {
    if a.PayStep? {
      P.RequestsStay(s.pay, a.a);
    }
  }

  lemma NextKeepsRunning(s: State, a: Action, maxDeliver: nat)
    requires RunningInv(s.stream, s.pay.runs, s.running) && Enabled(s, a, maxDeliver)
    ensures RunningInv(Next(s, a).stream, Next(s, a).pay.runs, Next(s, a).running)
  {
    var s' := Next(s, a);
    StreamGrows(s, a, maxDeliver);
    RunsOfStep(s, a, maxDeliver);
    forall k | k in s'.pay.runs ensures RunOf(s'.stream, s'.running, k, s'.pay.runs[k]) {
      if k in s.pay.runs {
        assert RunOf(s.stream, s.running, k, s.pay.runs[k]);
      }
    }
  }

  lemma {:induction false} ReachableAnswers(core: C.Db, trace: seq<Action>, maxDeliver: nat)
    requires L.Seeded(core) && Run(core, trace, maxDeliver).Some?
    ensures var s := Run(core, trace, maxDeliver).value;
            && AnswersInv(s.core, s.pay, s.stream, s.handled, SoldOuts(core, trace, maxDeliver))
            && RunningInv(s.stream, s.pay.runs, s.running)
            && HonorInv(s.core, s.stream, s.handled, s.landed)
  {
    if trace != [] {
      var front, last := trace[..|trace| - 1], trace[|trace| - 1];
      var s := Run(core, front, maxDeliver).value;
      ReachableAnswers(core, front, maxDeliver);
      ReachableInv(core, front, maxDeliver);
      NextKeepsAnswers(s, last, maxDeliver, SoldOuts(core, front, maxDeliver));
      NextKeepsRunning(s, last, maxDeliver);
      NextKeepsHonor(s, last, maxDeliver);
    }
  }

  // ---- Results ----

  /**
   In every reachable state an answered message's work is done: a reserve command has its
   reservation, a success outcome has it CONFIRMED, a failure outcome or an expiry has it released,
   a ticket is projected, a payment command's key has a decided payment whose outcome is enqueued.
   The one exception: a reserve command that was handled when its event was sold out.
   */
  lemma AnsweredIsDone(core: C.Db, trace: seq<Action>, maxDeliver: nat, i: nat)
    requires L.Seeded(core) && Run(core, trace, maxDeliver).Some?
    requires i in Run(core, trace, maxDeliver).value.handled
    ensures var s := Run(core, trace, maxDeliver).value;
            && i < |s.stream|
            && (|| WorkDone(s.core, s.pay, s.stream[i].msg)
                || (s.stream[i].msg.ReserveCmd? && exists n :: FoundFull(core, trace, maxDeliver, i, n)))
  {
    ReachableAnswers(core, trace, maxDeliver);
    if i in SoldOuts(core, trace, maxDeliver) {
      var n := SoldOutHappened(core, trace, maxDeliver, i);
      SoldOutIsFull(core, trace, maxDeliver, i, n);
    }
  }

  /** Nothing acknowledged is lost. */
  lemma AcknowledgedIsDone(core: C.Db, trace: seq<Action>, maxDeliver: nat, i: nat)
    requires L.Seeded(core) && Run(core, trace, maxDeliver).Some?
    requires i < |Run(core, trace, maxDeliver).value.stream| && Run(core, trace, maxDeliver).value.stream[i].acked
    ensures var s := Run(core, trace, maxDeliver).value;
            || WorkDone(s.core, s.pay, s.stream[i].msg)
            || (s.stream[i].msg.ReserveCmd? && exists n :: FoundFull(core, trace, maxDeliver, i, n))
  {
    ReachableBudget(core, trace, maxDeliver);
    AnsweredIsDone(core, trace, maxDeliver, i);
  }

  /**
   A succeeded payment is honored if and only if its outcome was answered: delivered without a
   store fault, it finds its reservation released before, or leaves it CONFIRMED for good.
   */
  lemma SuccessIsHonoredIff(core: C.Db, trace: seq<Action>, maxDeliver: nat, i: nat)
    requires L.Seeded(core) && Run(core, trace, maxDeliver).Some? && i in Run(core, trace, maxDeliver).value.landed
    requires i < |Run(core, trace, maxDeliver).value.stream|
    requires var m := Run(core, trace, maxDeliver).value.stream[i].msg; m.OutcomeMsg? && m.o.succeeded
    ensures var s := Run(core, trace, maxDeliver).value;
            var rid := s.stream[i].msg.o.reservationId;
            && rid in s.core.reservations
            && (s.core.reservations[rid].status == C.Confirmed <==> i in s.handled)
            && (i !in s.handled ==> Released(s.core.reservations[rid]))
  {
    ReachableAnswers(core, trace, maxDeliver);
    DeliveredOutcomeSettles(core, trace, maxDeliver, i);
  }

  /** All outcome events of a stored payment name the reservation it is for. */
  lemma OutcomesName(pay: P.State, key: string)
    requires P.RowsInv(pay.payments) && P.OutboxInv(pay) && key in pay.payments
    ensures forall o :: o in pay.outbox && o.paymentId == pay.payments[key].id ==>
              o.reservationId == pay.payments[key].reservationId
  {
    forall o | o in pay.outbox && o.paymentId == pay.payments[key].id
      ensures o.reservationId == pay.payments[key].reservationId
    {
      assert P.Backed(pay.payments, o);
    }
  }

  /**
   An answered payment command has an outcome event for the reservation it names if and only if
   the payment stored under its key is for that reservation; the code never compares the two.
   */
  lemma AnsweredPaymentIsForIff(core: C.Db, trace: seq<Action>, maxDeliver: nat, i: nat)
    requires L.Seeded(core) && Run(core, trace, maxDeliver).Some?
    requires i in Run(core, trace, maxDeliver).value.handled
    requires i < |Run(core, trace, maxDeliver).value.stream| && Run(core, trace, maxDeliver).value.stream[i].msg.PayCmd?
    ensures var s := Run(core, trace, maxDeliver).value;
            var m := s.stream[i].msg;
            && PaidFor(s.pay, KeyOf(m))
            && var p := s.pay.payments[KeyOf(m)];
               p.reservationId == m.rid <==>
                 exists o :: o in s.pay.outbox && o.paymentId == p.id && o.reservationId == m.rid
  {
    ReachableAnswers(core, trace, maxDeliver);
    ReachableInv(core, trace, maxDeliver);
    var s := Run(core, trace, maxDeliver).value;
    OutcomesName(s.pay, KeyOf(s.stream[i].msg));
  }
}
