/**
 What a payment run reads, stores, charges and announces, in terms of its request, its context,
 its stored row and the acquirer's answer alone; and, over every run, that no payment is
 SUCCEEDED without an approving answer nor FAILED without a reason.
 */
module PaymentLaws {
  import opened Common
  import opened Payment
  import Processor

  // ---- One run, step by step ----

  /** The answered wait: only the owner of the reservation goes on, with its context. */
  lemma ReadIs(s: State, key: string)
    requires key in s.runs && s.runs[key].Waiting?
    ensures var req, s' := s.runs[key].req, Next(s, ReadContext(key));
            if req.reservationId !in s.contexts then s' == s
            else if s.contexts[req.reservationId].userId != req.userId then s' == s.(runs := s.runs - {key})
            else s' == s.(runs := s.runs[key := HasContext(req, s.contexts[req.reservationId])])
  {
  }

  /** The payment row a run starts from. */
  predicate Starts(p: Pay, req: Request, ctx: Context, key: string, newId: Id) {
    && p.id == newId && p.key == key && p.status == Pending && p.gatewayRef == "" && p.reason == ""
    && p.reservationId == req.reservationId && p.userId == ctx.userId && p.amountCents == ctx.amountCents
    && p.currency == (if ctx.currency == "" then "BRL" else ctx.currency)
  }

  /** A run resumes the payment stored under its key, or stores a fresh one; it gives up if neither is possible. */
  lemma PersistIs(s: State, key: string, newId: Id)
    requires key in s.runs && s.runs[key].HasContext?
    ensures var run, s' := s.runs[key], Next(s, Persist(key, newId));
            var idUsed := exists k :: k in s.payments && s.payments[k].id == newId;
            if run.ctx.amountCents <= 0 || (key !in s.payments && idUsed) then s' == s.(runs := s.runs - {key})
            else
              && key in s'.payments
              && (key in s.payments ==> s'.payments == s.payments)
              && (key !in s.payments ==>
                    && s'.payments == s.payments[key := s'.payments[key]]
                    && Starts(s'.payments[key], run.req, run.ctx, key, newId))
              && s' == s.(payments := s'.payments,
                          runs := s.runs[key := HasPayment(run.req, run.ctx, s'.payments[key])])
  {
  }

  /** A decided payment is announced again as it stands, without a call. */
  lemma DecidedAgainIs(s: State, key: string, now: Time, answer: Charge)
    requires key in s.runs && s.runs[key].HasPayment? && s.runs[key].pay.status != Pending
    ensures var p := s.runs[key].pay;
            Next(s, Decide(key, now, answer)) == s.(runs := s.runs - {key}, outbox := s.outbox + [
              Outcome(p.status == Succeeded, p.reservationId, p.id, p.amountCents,
                      if p.status == Succeeded then p.gatewayRef else "",
                      if p.status == Succeeded then "" else p.reason)])
  {
  }

  /** How a payment stands once it is decided at `now` under `answer`, which counts only inside the window. */
  predicate DecidedBy(p: Pay, p': Pay, expiresAt: Time, now: Time, answer: Charge) {
    && p' == p.(status := p'.status, gatewayRef := p'.gatewayRef, reason := p'.reason)
    && (now <= expiresAt && answer.Approved? ==>
          p'.status == Succeeded && p'.gatewayRef == answer.gatewayRef && p'.reason == "")
    && (now <= expiresAt && answer.Declined? ==>
          p'.status == Failed && p'.gatewayRef == "" && p'.reason == answer.reason)
    && (now > expiresAt ==>
          p'.status == Failed && p'.gatewayRef == "" && p'.reason == "reservation window elapsed")
  }

  /** The event about a decided row says what the row says. */
  predicate Announces(o: Outcome, p: Pay) {
    && o.paymentId == p.id && o.reservationId == p.reservationId && o.amountCents == p.amountCents
    && (o.succeeded <==> p.status == Succeeded) && o.gatewayRef == p.gatewayRef && o.reason == p.reason
  }

  /**
   Decision and commit of an undecided payment: the acquirer is called exactly inside the window,
   the row becomes SUCCEEDED with its reference exactly if it approved, FAILED with its reason or
   with the elapsed window otherwise, and one event announces the row.
   */
  lemma DecisionIs(s: State, key: string, now: Time, answer: Charge)
    requires RowsInv(s.payments) && RunsInv(s) && key in s.runs && s.runs[key].HasPayment?
    requires s.runs[key].pay.status == Pending
    ensures var run := s.runs[key];
            var s1 := Next(s, Decide(key, now, answer));
            && key in s1.runs && s1.runs[key].Finishing?
            && var s' := Next(s1, Conclude(key));
               && s'.calls == (if now <= run.ctx.expiresAt then s.calls + [key] else s.calls)
               && key in s'.payments && s'.payments == s.payments[key := s'.payments[key]]
               && DecidedBy(run.pay, s'.payments[key], run.ctx.expiresAt, now, answer)
               && |s'.outbox| == |s.outbox| + 1 && s.outbox <= s'.outbox
               && Announces(s'.outbox[|s.outbox|], s'.payments[key])
  {
    var s1 := Next(s, Decide(key, now, answer));
    DecideKeepsRows(s, key, now, answer);
    SetStatusIsOwnRow(s1, key);
    assert RunInv(s.payments, key, s.runs[key]);
  }

  // ---- What the processor's code promises, in the same terms ----

  /** The row a delivery works on: the stored one of its key, or a fresh one. */
  predicate WorksOn(payments: map<string, Pay>, p: Pay, req: Request, ctx: Context, key: string, newId: Id) {
    if key in payments then p == payments[key] else Starts(p, req, ctx, key, newId)
  }

  lemma PersistWorksOn(s: State, key: string, newId: Id)
    requires RowsInv(s.payments) && RunsInv(s) && key in s.runs && s.runs[key].HasContext?
    requires key in Persisted(s, key, newId).runs
    ensures var s' := Persisted(s, key, newId);
            && RowsInv(s'.payments) && RunsInv(s') && s'.outbox == s.outbox && s'.calls == s.calls
            && s'.runs[key].HasPayment? && s'.runs[key].ctx == s.runs[key].ctx
            && s'.payments == s.payments[key := s'.runs[key].pay]
            && WorksOn(s.payments, s'.runs[key].pay, s.runs[key].req, s.runs[key].ctx, key, newId)
  {
    PersistKeepsRows(s, key, newId);
    PersistIs(s, key, newId);
    assert Next(s, Persist(key, newId)) == Persisted(s, key, newId);
  }

  /** What becomes of row `p` and of the calls: a decided row stays, an undecided one is decided by this answer. */
  predicate Pays(
    p: Pay, p': Pay, calls: seq<string>, calls': seq<string>, key: string, expiresAt: Time, now: Time, answer: Charge)
  {
    if p.status != Pending then p' == p && calls' == calls
    else DecidedBy(p, p', expiresAt, now, answer) && calls' == (if now <= expiresAt then calls + [key] else calls)
  }

  /** Which steps of the machine carry a run with its payment to its end. */
  lemma FromPaymentEnds(s: State, key: string, now: Time, answer: Charge)
    requires key in s.runs && s.runs[key].HasPayment?
    ensures var s1 := Next(s, Decide(key, now, answer));
            if s.runs[key].pay.status == Pending
            then key in s1.runs && s1.runs[key].Finishing?
                 && Processor.FromPayment(s, key, now, answer, 2) == Next(s1, Conclude(key))
            else Processor.FromPayment(s, key, now, answer, 2) == s1
  {
  }

  lemma PendingPays(s: State, key: string, now: Time, answer: Charge)
    requires RowsInv(s.payments) && RunsInv(s) && key in s.runs && s.runs[key].HasPayment?
    requires s.runs[key].pay.status == Pending
    ensures var run, s' := s.runs[key], Processor.FromPayment(s, key, now, answer, 2);
            && key in s'.payments && s'.payments == s.payments[key := s'.payments[key]]
            && Pays(run.pay, s'.payments[key], s.calls, s'.calls, key, run.ctx.expiresAt, now, answer)
            && |s'.outbox| == |s.outbox| + 1 && s.outbox <= s'.outbox
            && Announces(s'.outbox[|s.outbox|], s'.payments[key])
  {
    FromPaymentEnds(s, key, now, answer);
    DecisionIs(s, key, now, answer);
  }

  /** A run with its payment, carried to its end. */
  lemma FromPaymentIs(s: State, key: string, now: Time, answer: Charge)
    requires RowsInv(s.payments) && RunsInv(s) && key in s.runs && s.runs[key].HasPayment?
    ensures var run, s' := s.runs[key], Processor.FromPayment(s, key, now, answer, 2);
            && key in s'.payments && s'.payments == s.payments[key := s'.payments[key]]
            && Pays(run.pay, s'.payments[key], s.calls, s'.calls, key, run.ctx.expiresAt, now, answer)
            && |s'.outbox| == |s.outbox| + 1 && s.outbox <= s'.outbox
            && Announces(s'.outbox[|s.outbox|], s'.payments[key])
  {
    if s.runs[key].pay.status == Pending {
      PendingPays(s, key, now, answer);
    } else {
      FromPaymentEnds(s, key, now, answer);
      assert RunInv(s.payments, key, s.runs[key]);
      DecidedAgainIs(s, key, now, answer);
    }
  }

  /** The run a delivery is: its session with the context found. */
  ghost function SessionOf(d: Processor.Data, req: Request, key: string, ctx: Context): State {
    Processor.Session(d.payments, d.outbox, d.calls, key, HasContext(req, ctx))
  }

  lemma AcceptedRuns(
    d: Processor.Data, d': Processor.Data, req: Request, key: string, awaited: Processor.ReadResult,
    newId: Id, now: Time, answer: Charge)
    requires Processor.Handled(d, d', req, key, awaited, newId, now, answer, Ok(()))
    ensures key != "" && req.reservationId != "" && req.userId != ""
    ensures awaited.Found? && awaited.ctx.userId == req.userId
    ensures var s1 := Persisted(SessionOf(d, req, key, awaited.ctx), key, newId);
            && key in s1.runs && s1.runs[key].HasPayment?
            && Processor.SameData(Processor.FromPayment(s1, key, now, answer, 2), d'.payments, d'.outbox, d'.calls)
  {
  }

  /** From the row worked on to the end, in terms of the tables before and after. */
  lemma FromWorkedOn(
    d: Processor.Data, d': Processor.Data, s1: State, key: string, now: Time, answer: Charge)
    requires RowsInv(s1.payments) && RunsInv(s1) && key in s1.runs && s1.runs[key].HasPayment?
    requires s1.payments == d.payments[key := s1.runs[key].pay] && s1.outbox == d.outbox && s1.calls == d.calls
    requires Processor.SameData(Processor.FromPayment(s1, key, now, answer, 2), d'.payments, d'.outbox, d'.calls)
    ensures key in d'.payments && d'.payments == d.payments[key := d'.payments[key]]
    ensures Pays(s1.runs[key].pay, d'.payments[key], d.calls, d'.calls, key, s1.runs[key].ctx.expiresAt, now, answer)
    ensures |d'.outbox| == |d.outbox| + 1 && d.outbox <= d'.outbox
    ensures Announces(d'.outbox[|d.outbox|], d'.payments[key])
  {
    FromPaymentIs(s1, key, now, answer);
  }

  /**
   A delivery that returns no error was complete and sent by the owner. It leaves the payment of
   its key decided, by this answer if it was undecided; calls the acquirer only then, and only
   inside the window; and announces exactly what the row says.
   */
  lemma AcceptedDeliveryIs(
    d: Processor.Data, d': Processor.Data, req: Request, key: string, awaited: Processor.ReadResult,
    newId: Id, now: Time, answer: Charge) returns (p: Pay)
    requires RowsInv(d.payments)
    requires Processor.Handled(d, d', req, key, awaited, newId, now, answer, Ok(()))
    ensures key != "" && req.reservationId != "" && req.userId != ""
    ensures awaited.Found? && awaited.ctx.userId == req.userId
    ensures WorksOn(d.payments, p, req, awaited.ctx, key, newId)
    ensures key in d'.payments && d'.payments == d.payments[key := d'.payments[key]]
    ensures Pays(p, d'.payments[key], d.calls, d'.calls, key, awaited.ctx.expiresAt, now, answer)
    ensures |d'.outbox| == |d.outbox| + 1 && d.outbox <= d'.outbox
    ensures Announces(d'.outbox[|d.outbox|], d'.payments[key])
  {
    AcceptedRuns(d, d', req, key, awaited, newId, now, answer);
    var s := SessionOf(d, req, key, awaited.ctx);
    PersistWorksOn(s, key, newId);
    p := Persisted(s, key, newId).runs[key].pay;
    FromWorkedOn(d, d', Persisted(s, key, newId), key, now, answer);
  }

  // ---- Answers over whole runs ----

  /** The answer that step `a` got from the acquirer, and for which key. */
  function AnswerBy(s: State, a: Action): set<(string, Charge)> {
    if && a.Decide? && a.key in s.runs && s.runs[a.key].HasPayment?
       && s.runs[a.key].pay.status == Pending && a.now <= s.runs[a.key].ctx.expiresAt
    then {(a.key, a.answer)} else {}
  }

  /** A verdict or a decided row about `key` states an answer the acquirer gave for it, or the elapsed window. */
  predicate Grounded(key: string, succeeded: bool, gatewayRef: string, reason: string, answers: set<(string, Charge)>) {
    if succeeded then (key, Approved(gatewayRef)) in answers
    else (key, Declined(reason)) in answers || reason == "reservation window elapsed"
  }

  ghost predicate RowsGrounded(payments: map<string, Pay>, answers: set<(string, Charge)>) {
    forall k :: k in payments && payments[k].status != Pending ==>
      Grounded(k, payments[k].status == Succeeded, payments[k].gatewayRef, payments[k].reason, answers)
  }

  ghost predicate RunsGrounded(runs: map<string, Run>, answers: set<(string, Charge)>) {
    forall k :: k in runs && runs[k].Finishing? ==>
      Grounded(k, runs[k].verdict.ok, runs[k].verdict.gatewayRef, runs[k].verdict.reason, answers)
  }

  lemma NextKeepsRunsGrounded(s: State, a: Action, answers: set<(string, Charge)>)
    requires Enabled(s, a) && RunsGrounded(s.runs, answers)
    ensures RunsGrounded(Next(s, a).runs, answers + AnswerBy(s, a))
  {
  }

  lemma NextKeepsRowsGrounded(s: State, a: Action, answers: set<(string, Charge)>)
    requires RowsInv(s.payments) && RunsInv(s) && Enabled(s, a)
    requires RowsGrounded(s.payments, answers) && RunsGrounded(s.runs, answers)
    ensures RowsGrounded(Next(s, a).payments, answers + AnswerBy(s, a))
  {
    if a.Conclude? {
      SetStatusIsOwnRow(s, a.key);
    } else if a.Persist? {
      PersistIs(s, a.key, a.newId);
    }
  }

  /** All answers a run of the machine got. */
  function AnswersIn(trace: seq<Action>): set<(string, Charge)> {
    if trace == [] then {} else
      var front := trace[..|trace| - 1];
      AnswersIn(front) + match Exec(INIT, front)
                         case None => {}
                         case Some(s) => AnswerBy(s, trace[|trace| - 1])
  }

  lemma {:induction false} ExecGrounded(trace: seq<Action>)
    requires Exec(INIT, trace).Some?
    ensures var s := Exec(INIT, trace).value;
            RowsGrounded(s.payments, AnswersIn(trace)) && RunsGrounded(s.runs, AnswersIn(trace))
  {
    if trace != [] {
      var front := trace[..|trace| - 1];
      ExecGrounded(front);
      InitInv();
      ExecKeepsInv(INIT, front);
      NextKeepsRowsGrounded(Exec(INIT, front).value, trace[|trace| - 1], AnswersIn(front));
      NextKeepsRunsGrounded(Exec(INIT, front).value, trace[|trace| - 1], AnswersIn(front));
    }
  }

  lemma {:induction false} AnswerHappened(trace: seq<Action>, key: string, answer: Charge) returns (i: nat)
    requires (key, answer) in AnswersIn(trace)
    ensures i < |trace| && trace[i].Decide? && trace[i].key == key && trace[i].answer == answer
  {
    var front := trace[..|trace| - 1];
    if (key, answer) in AnswersIn(front) {
      i := AnswerHappened(front, key, answer);
    } else {
      i := |trace| - 1;
    }
  }

  /**
   Over every run: a SUCCEEDED payment was approved with the reference it shows, a FAILED one was
   declined with the reason it shows, or its window had elapsed.
   */
  lemma DecisionsAreGrounded(trace: seq<Action>, k: string)
    requires Exec(INIT, trace).Some? && k in Exec(INIT, trace).value.payments
    ensures var p := Exec(INIT, trace).value.payments[k];
            && (p.status == Succeeded ==>
                  exists i :: 0 <= i < |trace| && trace[i].Decide? && trace[i].key == k
                    && trace[i].answer == Approved(p.gatewayRef))
            && (p.status == Failed && p.reason != "reservation window elapsed" ==>
                  exists i :: 0 <= i < |trace| && trace[i].Decide? && trace[i].key == k
                    && trace[i].answer == Declined(p.reason))
  {
    ExecGrounded(trace);
    var p := Exec(INIT, trace).value.payments[k];
    if p.status == Succeeded {
      var i := AnswerHappened(trace, k, Approved(p.gatewayRef));
    } else if p.status == Failed && p.reason != "reservation window elapsed" {
      var i := AnswerHappened(trace, k, Declined(p.reason));
    }
  }
}
