/** What one event, two users and a sweeper do to the core database in the runs below. */
module Scene {
  import opened Common
  import opened CoreModel

  const CORE := Db(map["e" := EventRow(0, 100, 10, 0, 0)], map[], [])

  const ENV_A := Env(0, 10, "x", true)
  const ROW_A := Row("a", "e", "u", Pending, 1, 100, "BRL", 10, None, 1, 0, 0)
  const TICKET_A := TicketReserved("a", "e", "u", 1, 100, "BRL", 10)
  const CORE_A := Db(map["e" := EventRow(0, 100, 10, 1, 0)], map["a" := ROW_A], [TICKET_A])

  const ENV_B := Env(90, 10, "x", true)
  const ROW_B := Row("b", "e", "v", Pending, 2, 200, "BRL", 100, None, 1, 90, 90)
  const TICKET_B := TicketReserved("b", "e", "v", 2, 200, "BRL", 100)
  const CORE_AB := Db(map["e" := EventRow(0, 100, 10, 3, 0)], map["a" := ROW_A, "b" := ROW_B], [TICKET_A, TICKET_B])

  const ENV_X := Env(11, 10, "x", true)
  const ROW_X := ROW_A.(status := Expired, version := 2, updatedAt := 11)
  const CORE_X := Db(CORE.events, map["a" := ROW_X], [TICKET_A, TicketReleased("a", "e", 1, "expired")])

  lemma ReserveA()
    ensures Exec(CORE, Op(Reserve("a", "e", "u", 1), ENV_A)) == Applied(CORE_A, ROW_A)
  {
    assert SqlInsert(CORE.reservations, ROW_A) == None;
    assert Write(CORE, EventRow(0, 100, 10, 1, 0), ROW_A) == CORE_A;
  }

  lemma ReserveB()
    ensures Exec(CORE_A, Op(Reserve("b", "e", "v", 2), ENV_B)) == Applied(CORE_AB, ROW_B)
  {
    assert SqlInsert(CORE_A.reservations, ROW_B) == None;
    assert Write(CORE_A, EventRow(0, 100, 10, 3, 0), ROW_B) == CORE_AB;
  }

  lemma ExpireA()
    ensures Exec(CORE_A, Op(Settle("a", Expired), ENV_X)) == Applied(CORE_X, ROW_X)
    ensures Exec(CORE_X, Op(Settle("a", Confirmed), ENV_X)) == Rejected(InvalidTransition)
  {
    assert Write(CORE_A, EventRow(0, 100, 10, 0, 0), ROW_X) == CORE_X;
  }
}

/**
 Two runs of the whole system, from a seeded database on, in which every component does what
 its code says and a promise is broken all the same: a customer is charged for a reservation
 that was released meanwhile, and a reused idempotency key charges for another reservation.
 */
module Mishaps {
  import opened Common
  import opened Saga   // with its short names C, L, P and R
  import opened Scene

  // ---- Running step by step ----

  lemma Then(core: C.Db, trace: seq<Action>, s: State, x: Action, s': State, maxDeliver: nat)
    requires Run(core, trace, maxDeliver) == Some(s) && Enabled(s, x, maxDeliver) && Next(s, x) == s'
    ensures Run(core, trace + [x], maxDeliver) == Some(s')
  {
    assert (trace + [x])[..|trace|] == trace;
  }

  /** The step of handler `w` on entry `i`, whose serial outcome is `o`. */
  function AfterWork(s: State, w: nat, i: nat, ok: bool, o: C.Outcome): State {
    s.(core := o.After(s.core), working := s.working - {w}, landed := s.landed + {i},
       handled := if ok then s.handled + {i} else s.handled,
       applied := if o.Rejected? then s.applied else s.applied + {i})
  }

  lemma WorkStep(s: State, w: nat, i: nat, c: C.Cmd, env: C.Env, o: C.Outcome)
    requires w in s.working && s.working[w] == i && i < |s.stream| && CommandOf(s.stream[i].msg) == Some(c)
    requires C.Exec(s.core, C.Op(c, env)) == o
    ensures Enabled(s, Work(w, env, Clean), 1)
    ensures Next(s, Work(w, env, Clean)) == AfterWork(s, w, i, Answered(s.stream[i].msg, o), o)
  {
  }

  function E(m: Msg, deliveries: nat): Entry {
    Entry(m, deliveries, false, false)
  }

  // ---- One user reserves and starts to pay ----

  const KEY := "k"
  const RESERVE_A := ReserveCmd("a", "e", "u", 1)
  const PAY_A := PayCmd("a", "u", KEY, "m1")
  const CONTEXT_A := P.Context("a", "u", 100, "BRL", 10)
  const STORED := P.Pay("p", "a", "u", 100, "BRL", P.Pending, KEY, "", "")

  /** Reserved, and nothing else. */
  function ReservedState(): State {
    Init(CORE).(core := CORE_A, stream := [E(RESERVE_A, 1)], handled := {0}, landed := {0}, applied := {0})
  }

  function ReservingState(): State {
    Init(CORE).(stream := [E(RESERVE_A, 1)], working := map[0 := 0])
  }

  lemma Reserving(maxDeliver: nat) returns (t: seq<Action>)
    requires maxDeliver > 0
    ensures Run(CORE, t, maxDeliver) == Some(ReservingState())
  {
    var s0, s1 := Init(CORE), Init(CORE).(stream := [E(RESERVE_A, 0)]);
    Then(CORE, [], s0, Gateway(RESERVE_A), s1, maxDeliver);
    t := [Gateway(RESERVE_A)];
    assert [] + t == t;
    Then(CORE, t, s1, DeliverCore(0, 0), ReservingState(), maxDeliver);
    t := t + [DeliverCore(0, 0)];
  }

  lemma ReserveStep()
    ensures Enabled(ReservingState(), Work(0, ENV_A, Clean), 1)
    ensures Next(ReservingState(), Work(0, ENV_A, Clean)) == ReservedState()
  {
    ReserveA();
    var s := ReservingState();
    assert s.core == CORE && s.stream[0] == E(RESERVE_A, 1);
    WorkStep(s, 0, 0, C.Reserve("a", "e", "u", 1), ENV_A, C.Applied(CORE_A, ROW_A));
    assert s.working - {0} == map[] && s.handled + {0} == {0} && s.landed + {0} == {0} && s.applied + {0} == {0};
    assert AfterWork(s, 0, 0, true, C.Applied(CORE_A, ROW_A)) == ReservedState();
  }

  lemma Reserved(maxDeliver: nat) returns (t: seq<Action>)
    requires maxDeliver > 0
    ensures Run(CORE, t, maxDeliver) == Some(ReservedState())
  {
    t := Reserving(maxDeliver);
    ReserveStep();
    Then(CORE, t, ReservingState(), Work(0, ENV_A, Clean), ReservedState(), maxDeliver);
    t := t + [Work(0, ENV_A, Clean)];
  }

  /** And projected. */
  function ProjectedState(): State {
    ReservedState().(pay := P.INIT.(contexts := map["a" := CONTEXT_A]), corePublished := {0},
                     stream := [E(RESERVE_A, 1), E(TicketMsg(TICKET_A), 1)], handled := {0, 1})
  }

  lemma Projected(maxDeliver: nat) returns (t: seq<Action>)
    requires maxDeliver > 0
    ensures Run(CORE, t, maxDeliver) == Some(ProjectedState())
  {
    t := Reserved(maxDeliver);
    var s := ReservedState();
    var s1 := s.(corePublished := {0}, stream := [E(RESERVE_A, 1), E(TicketMsg(TICKET_A), 0)]);
    Then(CORE, t, s, RelayCore(0, false), s1, maxDeliver);
    t := t + [RelayCore(0, false)];
    Then(CORE, t, s1, DeliverTicket(1, true), ProjectedState(), maxDeliver);
    t := t + [DeliverTicket(1, true)];
  }

  /** And the payment command at work, in its run's state `run` over the given table. */
  function PayingState(payments: map<string, P.Pay>, run: P.Run): State {
    ProjectedState().(pay := P.INIT.(contexts := map["a" := CONTEXT_A], payments := payments, runs := map[KEY := run]),
                      stream := [E(RESERVE_A, 1), E(TicketMsg(TICKET_A), 1), E(PAY_A, 1)], running := map[KEY := 2])
  }

  lemma Paying(maxDeliver: nat) returns (t: seq<Action>)
    requires maxDeliver > 0
    ensures Run(CORE, t, maxDeliver) == Some(PayingState(map[], P.Waiting(P.Request("a", "u"))))
  {
    t := Projected(maxDeliver);
    var s := ProjectedState();
    var s1 := s.(stream := [E(RESERVE_A, 1), E(TicketMsg(TICKET_A), 1), E(PAY_A, 0)]);
    Then(CORE, t, s, Gateway(PAY_A), s1, maxDeliver);
    t := t + [Gateway(PAY_A)];
    Then(CORE, t, s1, DeliverPay(2), PayingState(map[], P.Waiting(P.Request("a", "u"))), maxDeliver);
    t := t + [DeliverPay(2)];
  }

  lemma Persisting(maxDeliver: nat) returns (t: seq<Action>)
    requires maxDeliver > 0
    ensures Run(CORE, t, maxDeliver)
         == Some(PayingState(map[KEY := STORED], P.HasPayment(P.Request("a", "u"), CONTEXT_A, STORED)))
  {
    t := Paying(maxDeliver);
    var req := P.Request("a", "u");
    var s0, s1 := PayingState(map[], P.Waiting(req)), PayingState(map[], P.HasContext(req, CONTEXT_A));
    var s2 := PayingState(map[KEY := STORED], P.HasPayment(req, CONTEXT_A, STORED));
    assert P.Next(s0.pay, P.ReadContext(KEY)) == s1.pay;
    Then(CORE, t, s0, PayStep(P.ReadContext(KEY)), s1, maxDeliver);
    t := t + [PayStep(P.ReadContext(KEY))];
    assert P.Next(s1.pay, P.Persist(KEY, "p")) == s2.pay;
    Then(CORE, t, s1, PayStep(P.Persist(KEY, "p")), s2, maxDeliver);
    t := t + [PayStep(P.Persist(KEY, "p"))];
  }

  // ---- A charge that is not honored ----

  const PAID := STORED.(status := P.Succeeded, gatewayRef := "g")
  const OUTCOME_A := P.Outcome(true, "a", "p", 100, "g", "")

  /** Charged inside the window, and the outcome waits in the outbox. */
  function PaidState(): State {
    PayingState(map[], P.Waiting(P.Request("a", "u"))).(
      pay := P.State(map[KEY := PAID], map["a" := CONTEXT_A], [OUTCOME_A], map[], [KEY], [], [KEY]),
      handled := {0, 1, 2})
  }

  lemma Paid(maxDeliver: nat) returns (t: seq<Action>)
    requires maxDeliver > 0
    ensures Run(CORE, t, maxDeliver) == Some(PaidState())
  {
    t := Persisting(maxDeliver);
    var req, x, y := P.Request("a", "u"), P.Decide(KEY, 5, P.Approved("g")), P.Conclude(KEY);
    var s0 := PayingState(map[KEY := STORED], P.HasPayment(req, CONTEXT_A, STORED));
    var run1 := P.Finishing(req, CONTEXT_A, STORED, P.Verdict(true, "g", "", true));
    var s1 := s0.(pay := s0.pay.(runs := map[KEY := run1], calls := [KEY]));
    assert P.Next(s0.pay, x) == s1.pay;
    Then(CORE, t, s0, PayStep(x), s1, maxDeliver);
    t := t + [PayStep(x)];
    assert P.Next(s1.pay, y) == PaidState().pay;
    Then(CORE, t, s1, PayStep(y), PaidState(), maxDeliver);
    t := t + [PayStep(y)];
  }

  /** The sweeper expires the reservation before the relay gets to the outcome. */
  function ExpiredState(): State {
    PaidState().(core := CORE_X, handled := {0, 1, 2, 3}, landed := {0, 3}, applied := {0, 3},
                 stream := PaidState().stream + [E(ExpiredMsg("a"), 1)])
  }

  /** Its message is delivered. */
  function ExpiringState(): State {
    PaidState().(stream := PaidState().stream + [E(ExpiredMsg("a"), 1)], working := map[0 := 3])
  }

  lemma Expiring(maxDeliver: nat) returns (t: seq<Action>)
    requires maxDeliver > 0
    ensures Run(CORE, t, maxDeliver) == Some(ExpiringState())
  {
    t := Paid(maxDeliver);
    var s0 := PaidState();
    var s1 := s0.(stream := s0.stream + [E(ExpiredMsg("a"), 0)]);
    Then(CORE, t, s0, Sweep("a", 11, false), s1, maxDeliver);
    t := t + [Sweep("a", 11, false)];
    Then(CORE, t, s1, DeliverCore(3, 0), ExpiringState(), maxDeliver);
    t := t + [DeliverCore(3, 0)];
  }

  lemma ExpireStep()
    ensures Enabled(ExpiringState(), Work(0, ENV_X, Clean), 1)
    ensures Next(ExpiringState(), Work(0, ENV_X, Clean)) == ExpiredState()
  {
    ExpireA();
    var s := ExpiringState();
    assert s.stream[3] == E(ExpiredMsg("a"), 1);
    WorkStep(s, 0, 3, C.Settle("a", C.Expired), ENV_X, C.Applied(CORE_X, ROW_X));
    assert AfterWork(s, 0, 3, true, C.Applied(CORE_X, ROW_X)) == ExpiredState();
  }

  lemma Expired(maxDeliver: nat) returns (t: seq<Action>)
    requires maxDeliver > 0
    ensures Run(CORE, t, maxDeliver) == Some(ExpiredState())
  {
    t := Expiring(maxDeliver);
    ExpireStep();
    Then(CORE, t, ExpiringState(), Work(0, ENV_X, Clean), ExpiredState(), maxDeliver);
    t := t + [Work(0, ENV_X, Clean)];
  }

  /** The outcome is delivered without any fault, and refused. */
  function RefusedState(): State {
    ExpiredState().(payPublished := {0}, landed := {0, 3, 4},
                    stream := ExpiredState().stream + [E(OutcomeMsg(OUTCOME_A), 1)])
  }

  function RefusingState(): State {
    ExpiredState().(payPublished := {0}, stream := RefusedState().stream, working := map[0 := 4])
  }

  lemma Refusing(maxDeliver: nat) returns (t: seq<Action>)
    requires maxDeliver > 0
    ensures Run(CORE, t, maxDeliver) == Some(RefusingState())
  {
    t := Expired(maxDeliver);
    var s0 := ExpiredState();
    var s1 := s0.(payPublished := {0}, stream := s0.stream + [E(OutcomeMsg(OUTCOME_A), 0)]);
    Then(CORE, t, s0, RelayPay(0, false), s1, maxDeliver);
    t := t + [RelayPay(0, false)];
    Then(CORE, t, s1, DeliverCore(4, 0), RefusingState(), maxDeliver);
    t := t + [DeliverCore(4, 0)];
  }

  lemma RefuseStep()
    ensures Enabled(RefusingState(), Work(0, ENV_X, Clean), 1)
    ensures Next(RefusingState(), Work(0, ENV_X, Clean)) == RefusedState()
  {
    ExpireA();
    var s := RefusingState();
    assert s.stream[4] == E(OutcomeMsg(OUTCOME_A), 1);
    WorkStep(s, 0, 4, C.Settle("a", C.Confirmed), ENV_X, C.Rejected(C.InvalidTransition));
    assert AfterWork(s, 0, 4, false, C.Rejected(C.InvalidTransition)) == RefusedState();
  }

  /**
   The customer paid in time and is charged, yet the reservation is EXPIRED and stays so: its
   outcome was handled without a fault and can never be answered.
   */
  lemma ChargedButReleased(maxDeliver: nat) returns (t: seq<Action>)
    requires maxDeliver > 0
    ensures Run(CORE, t, maxDeliver) == Some(RefusedState()) && L.Seeded(CORE)
    ensures var s := RefusedState();
            && s.stream[4].msg == OutcomeMsg(OUTCOME_A) && 4 in s.landed && 4 !in s.handled
            && s.pay.calls == [KEY] && s.pay.payments[KEY].status == P.Succeeded
            && s.pay.payments[KEY].reservationId == "a" && s.core.reservations["a"].status == C.Expired
  {
    t := Refusing(maxDeliver);
    RefuseStep();
    Then(CORE, t, RefusingState(), Work(0, ENV_X, Clean), RefusedState(), maxDeliver);
    t := t + [Work(0, ENV_X, Clean)];
  }

  // ---- A key that pays for another reservation ----

  const RESERVE_B := ReserveCmd("b", "e", "v", 2)
  const PAY_B := PayCmd("b", "v", KEY, "m2")
  const CONTEXT_B := P.Context("b", "v", 200, "BRL", 100)
  const NAMED_B := P.Request("b", "v")

  /** The first run has died with its payment stored, and v has a reservation of the same event. */
  function BothReservedState(): State {
    ProjectedState().(
      core := CORE_AB, running := map[KEY := 2],
      pay := P.INIT.(contexts := map["a" := CONTEXT_A], payments := map[KEY := STORED]),
      stream := [E(RESERVE_A, 1), E(TicketMsg(TICKET_A), 1), E(PAY_A, 1), E(RESERVE_B, 1)],
      handled := {0, 1, 3}, landed := {0, 3}, applied := {0, 3})
  }

  function BothReservingState(): State {
    BothReservedState().(core := CORE_A, working := map[0 := 3], handled := {0, 1}, landed := {0}, applied := {0})
  }

  lemma BothReserving(maxDeliver: nat) returns (t: seq<Action>)
    requires maxDeliver > 0
    ensures Run(CORE, t, maxDeliver) == Some(BothReservingState())
  {
    t := Persisting(maxDeliver);
    var s0 := PayingState(map[KEY := STORED], P.HasPayment(P.Request("a", "u"), CONTEXT_A, STORED));
    var s1 := s0.(pay := BothReservedState().pay);
    var s2 := s1.(stream := s0.stream + [E(RESERVE_B, 0)]);
    assert P.Next(s0.pay, P.Die(KEY)) == s1.pay;
    Then(CORE, t, s0, PayStep(P.Die(KEY)), s1, maxDeliver);
    t := t + [PayStep(P.Die(KEY))];
    Then(CORE, t, s1, Gateway(RESERVE_B), s2, maxDeliver);
    t := t + [Gateway(RESERVE_B)];
    Then(CORE, t, s2, DeliverCore(3, 0), BothReservingState(), maxDeliver);
    t := t + [DeliverCore(3, 0)];
  }

  lemma ReserveBothStep()
    ensures Enabled(BothReservingState(), Work(0, ENV_B, Clean), 1)
    ensures Next(BothReservingState(), Work(0, ENV_B, Clean)) == BothReservedState()
  {
    ReserveB();
    var s := BothReservingState();
    WorkStep(s, 0, 3, C.Reserve("b", "e", "v", 2), ENV_B, C.Applied(CORE_AB, ROW_B));
    assert AfterWork(s, 0, 3, true, C.Applied(CORE_AB, ROW_B)) == BothReservedState();
  }

  lemma BothReserved(maxDeliver: nat) returns (t: seq<Action>)
    requires maxDeliver > 0
    ensures Run(CORE, t, maxDeliver) == Some(BothReservedState())
  {
    t := BothReserving(maxDeliver);
    ReserveBothStep();
    Then(CORE, t, BothReservingState(), Work(0, ENV_B, Clean), BothReservedState(), maxDeliver);
    t := t + [Work(0, ENV_B, Clean)];
  }

  function BothProjectedState(): State {
    BothReservedState().(
      pay := P.INIT.(contexts := map["a" := CONTEXT_A, "b" := CONTEXT_B], payments := map[KEY := STORED]),
      corePublished := {0, 1}, handled := {0, 1, 3, 4},
      stream := BothReservedState().stream + [E(TicketMsg(TICKET_B), 1)])
  }

  lemma BothProjected(maxDeliver: nat) returns (t: seq<Action>)
    requires maxDeliver > 0
    ensures Run(CORE, t, maxDeliver) == Some(BothProjectedState())
  {
    t := BothReserved(maxDeliver);
    var s0 := BothReservedState();
    var s1 := s0.(corePublished := {0, 1}, stream := s0.stream + [E(TicketMsg(TICKET_B), 0)]);
    Then(CORE, t, s0, RelayCore(1, false), s1, maxDeliver);
    t := t + [RelayCore(1, false)];
    Then(CORE, t, s1, DeliverTicket(4, true), BothProjectedState(), maxDeliver);
    t := t + [DeliverTicket(4, true)];
  }

  /** v's command for b at work under the same key. */
  function ReusingState(run: P.Run, calls: seq<string>): State {
    BothProjectedState().(
      pay := BothProjectedState().pay.(runs := map[KEY := run], calls := calls),
      stream := BothProjectedState().stream + [E(PAY_B, 1)], running := map[KEY := 5])
  }

  lemma Reusing(maxDeliver: nat) returns (t: seq<Action>)
    requires maxDeliver > 0
    ensures Run(CORE, t, maxDeliver) == Some(ReusingState(P.HasContext(NAMED_B, CONTEXT_B), []))
  {
    t := BothProjected(maxDeliver);
    var s0 := BothProjectedState();
    var s1 := s0.(stream := s0.stream + [E(PAY_B, 0)]);
    var s2, s3 := ReusingState(P.Waiting(NAMED_B), []), ReusingState(P.HasContext(NAMED_B, CONTEXT_B), []);
    Then(CORE, t, s0, Gateway(PAY_B), s1, maxDeliver);
    t := t + [Gateway(PAY_B)];
    Then(CORE, t, s1, DeliverPay(5), s2, maxDeliver);
    t := t + [DeliverPay(5)];
    assert P.Next(s2.pay, P.ReadContext(KEY)) == s3.pay;
    Then(CORE, t, s2, PayStep(P.ReadContext(KEY)), s3, maxDeliver);
    t := t + [PayStep(P.ReadContext(KEY))];
  }

  const LATE := P.Decide(KEY, 95, P.Approved("g"))

  lemma ChargedLate(maxDeliver: nat) returns (t: seq<Action>)
    requires maxDeliver > 0
    ensures Run(CORE, t + [PayStep(LATE)], maxDeliver)
         == Some(ReusingState(P.Finishing(NAMED_B, CONTEXT_B, STORED, P.Verdict(true, "g", "", true)), [KEY]))
  {
    t := Reusing(maxDeliver);
    var s0 := ReusingState(P.HasContext(NAMED_B, CONTEXT_B), []);
    var s1 := ReusingState(P.HasPayment(NAMED_B, CONTEXT_B, STORED), []);
    var s2 := ReusingState(P.Finishing(NAMED_B, CONTEXT_B, STORED, P.Verdict(true, "g", "", true)), [KEY]);
    assert P.Next(s0.pay, P.Persist(KEY, "q")) == s1.pay;
    Then(CORE, t, s0, PayStep(P.Persist(KEY, "q")), s1, maxDeliver);
    t := t + [PayStep(P.Persist(KEY, "q"))];
    assert P.Next(s1.pay, LATE) == s2.pay;
    Then(CORE, t, s1, PayStep(LATE), s2, maxDeliver);
  }

  function ReusedState(): State {
    ReusingState(P.Waiting(NAMED_B), []).(
      pay := P.State(map[KEY := PAID], BothProjectedState().pay.contexts, [OUTCOME_A], map[], [KEY], [], [KEY]),
      handled := {0, 1, 3, 4, 5})
  }

  lemma ConcludeStep()
    ensures var s := ReusingState(P.Finishing(NAMED_B, CONTEXT_B, STORED, P.Verdict(true, "g", "", true)), [KEY]);
            Enabled(s, PayStep(P.Conclude(KEY)), 1) && Next(s, PayStep(P.Conclude(KEY))) == ReusedState()
  {
    var s := ReusingState(P.Finishing(NAMED_B, CONTEXT_B, STORED, P.Verdict(true, "g", "", true)), [KEY]);
    assert P.Next(s.pay, P.Conclude(KEY)) == ReusedState().pay;
  }

  /**
   v's command for b is answered: the acquirer was called at 95 for u's payment of a, whose
   window ended at 10, and there is no payment for b.
   */
  lemma ReusedKeyPaysForAnother(maxDeliver: nat) returns (t: seq<Action>)
    requires maxDeliver > 0
    ensures L.Seeded(CORE)
    ensures Run(CORE, t + [PayStep(LATE), PayStep(P.Conclude(KEY))], maxDeliver) == Some(ReusedState())
    ensures var s := ReusedState();
            && s.stream[5].msg == PAY_B && 5 in s.handled
            && s.pay.calls == [KEY] && s.pay.outbox == [OUTCOME_A] && s.pay.payments == map[KEY := PAID]
            && s.core.reservations["a"].expiresAt < LATE.now <= s.core.reservations["b"].expiresAt
            && PAID.reservationId == "a" && PAID.userId == s.core.reservations["a"].userId != PAY_B.userId
  {
    t := ChargedLate(maxDeliver);
    var s0 := ReusingState(P.Finishing(NAMED_B, CONTEXT_B, STORED, P.Verdict(true, "g", "", true)), [KEY]);
    ConcludeStep();
    Then(CORE, t + [PayStep(LATE)], s0, PayStep(P.Conclude(KEY)), ReusedState(), maxDeliver);
    assert t + [PayStep(LATE)] + [PayStep(P.Conclude(KEY))] == t + [PayStep(LATE), PayStep(P.Conclude(KEY))];
  }
}
