/**
 No ticket without an approving answer: over every run of the whole system, a CONFIRMED
 reservation was approved by the acquirer, and a FAILED one was declined or out of time.
 */
module Approvals {
  import opened Common
  import PaymentLaws
  import opened Saga   // with its short names C, L, P and R

  /** The acquirer's answer that step `a` got, and for which key. */
  function AnswerBy(s: State, a: Action): set<(string, P.Charge)> {
    if a.PayStep? then PaymentLaws.AnswerBy(s.pay, a.a) else {}
  }

  /** All answers a run of the system got. */
  ghost function AnswersIn(core: C.Db, trace: seq<Action>, maxDeliver: nat): set<(string, P.Charge)> {
    if trace == [] then {} else
      var front := trace[..|trace| - 1];
      AnswersIn(core, front, maxDeliver) + match Run(core, front, maxDeliver)
                                           case None => {}
                                           case Some(s) => AnswerBy(s, trace[|trace| - 1])
  }

  /** Step `n` asked the acquirer for `key` and got `answer`. */
  predicate AnsweredAt(trace: seq<Action>, n: int, key: string, answer: P.Charge) {
    && 0 <= n < |trace| && trace[n].PayStep? && trace[n].a.Decide?
    && trace[n].a.key == key && trace[n].a.answer == answer
  }

  lemma {:induction false} AnswerHappened(
    core: C.Db, trace: seq<Action>, maxDeliver: nat, key: string, answer: P.Charge)
    ensures (key, answer) in AnswersIn(core, trace, maxDeliver) ==> exists n :: AnsweredAt(trace, n, key, answer)
  {
    if (key, answer) in AnswersIn(core, trace, maxDeliver) {
      var front := trace[..|trace| - 1];
      AnswerHappened(core, front, maxDeliver, key, answer);
      if (key, answer) in AnswersIn(core, front, maxDeliver) {
        var n :| AnsweredAt(front, n, key, answer);
        assert AnsweredAt(trace, n, key, answer);
      } else {
        assert AnsweredAt(trace, |trace| - 1, key, answer);
      }
    }
  }

  ghost predicate GroundedInv(pay: P.State, answers: set<(string, P.Charge)>) {
    PaymentLaws.RowsGrounded(pay.payments, answers) && PaymentLaws.RunsGrounded(pay.runs, answers)
  }

  lemma PaysGrounded(pay: P.State, b: P.Action, answers: set<(string, P.Charge)>)
    requires P.RowsInv(pay.payments) && P.RunsInv(pay) && P.Enabled(pay, b) && GroundedInv(pay, answers)
    ensures GroundedInv(P.Next(pay, b), answers + PaymentLaws.AnswerBy(pay, b))
  {
    PaymentLaws.NextKeepsRowsGrounded(pay, b, answers);
    PaymentLaws.NextKeepsRunsGrounded(pay, b, answers);
  }

  /** Whatever is not a payment step is a start, a projection, or nothing to the payment side. */
  lemma NextKeepsGrounded(s: State, a: Action, maxDeliver: nat, answers: set<(string, P.Charge)>)
    requires P.RowsInv(s.pay.payments) && P.RunsInv(s.pay) && Enabled(s, a, maxDeliver) && GroundedInv(s.pay, answers)
    ensures GroundedInv(Next(s, a).pay, answers + AnswerBy(s, a))
  {
    assert answers + {} == answers;
    match a {
      case PayStep(b) => PaysGrounded(s.pay, b, answers);
      case DeliverTicket(i, stored) => PaysGrounded(s.pay, P.Project(ContextOf(s.stream[i].msg.t)), answers);
      case DeliverPay(i) =>
        var start := P.Start(KeyOf(s.stream[i].msg), P.Request(s.stream[i].msg.rid, s.stream[i].msg.userId));
        if P.Enabled(s.pay, start) {
          PaysGrounded(s.pay, start, answers);
        }
      case _ => assert Next(s, a).pay == s.pay;
    }
  }

  lemma {:induction false} ReachableGrounded(core: C.Db, trace: seq<Action>, maxDeliver: nat)
    requires L.Seeded(core) && Run(core, trace, maxDeliver).Some?
    ensures GroundedInv(Run(core, trace, maxDeliver).value.pay, AnswersIn(core, trace, maxDeliver))
  {
    if trace != [] {
      var front := trace[..|trace| - 1];
      ReachableGrounded(core, front, maxDeliver);
      ReachableInv(core, front, maxDeliver);
      NextKeepsGrounded(Run(core, front, maxDeliver).value, trace[|trace| - 1], maxDeliver,
                        AnswersIn(core, front, maxDeliver));
    }
  }

  /** The payment stored under `k` is for `rid`, and an answer of the acquirer made it what it is. */
  ghost predicate Earned(s: State, trace: seq<Action>, rid: Id, k: string) {
    && k in s.pay.payments && s.pay.payments[k].reservationId == rid
    && var p := s.pay.payments[k];
       || (p.status == P.Succeeded && exists n :: AnsweredAt(trace, n, k, P.Approved(p.gatewayRef)))
       || (p.status == P.Failed && p.reason == "reservation window elapsed")
       || (p.status == P.Failed && exists n :: AnsweredAt(trace, n, k, P.Declined(p.reason)))
  }

  lemma DecidedIsEarned(core: C.Db, trace: seq<Action>, maxDeliver: nat, k: string)
    requires L.Seeded(core) && Run(core, trace, maxDeliver).Some?
    requires var s := Run(core, trace, maxDeliver).value;
             k in s.pay.payments && s.pay.payments[k].status != P.Pending
    ensures var s := Run(core, trace, maxDeliver).value; Earned(s, trace, s.pay.payments[k].reservationId, k)
  {
    ReachableGrounded(core, trace, maxDeliver);
    var p := Run(core, trace, maxDeliver).value.pay.payments[k];
    AnswerHappened(core, trace, maxDeliver, k, P.Approved(p.gatewayRef));
    AnswerHappened(core, trace, maxDeliver, k, P.Declined(p.reason));
  }

  /**
   In every reachable state a CONFIRMED reservation has a payment that the acquirer approved in
   this very run; a FAILED one has a payment it declined, or that came after its window.
   */
  lemma ConfirmedWasApproved(core: C.Db, trace: seq<Action>, maxDeliver: nat, rid: Id)
    requires L.Seeded(core) && Run(core, trace, maxDeliver).Some?
    requires rid in Run(core, trace, maxDeliver).value.core.reservations
    ensures var s := Run(core, trace, maxDeliver).value;
            var st := s.core.reservations[rid].status;
            && (st == C.Confirmed ==>
                  exists k :: Earned(s, trace, rid, k) && s.pay.payments[k].status == P.Succeeded)
            && (st == C.Failed ==>
                  exists k :: Earned(s, trace, rid, k) && s.pay.payments[k].status == P.Failed)
  {
    CoreAgreesWithPayments(core, trace, maxDeliver, rid);
    var s := Run(core, trace, maxDeliver).value;
    forall k | k in s.pay.payments && s.pay.payments[k].status != P.Pending
      ensures Earned(s, trace, s.pay.payments[k].reservationId, k)
    {
      DecidedIsEarned(core, trace, maxDeliver, k);
    }
  }
}
