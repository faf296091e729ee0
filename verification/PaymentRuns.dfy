/**
 A handled payment command, as the processor's code performs it over its own tables, is a run of
 the whole saga: its delivery, and then a prefix of the payment machine's steps under its key,
 among whatever everybody else does.
 */
module PaymentRuns {
  import opened Common
  import opened Saga   // with its short names C, L, P and R
  import opened Subscribers

  /** `acts` one after another from `s`. */
  function Steps(s: State, acts: seq<Action>, maxDeliver: nat): Option<State>
    decreases |acts|
  {
    if acts == [] then Some(s)
    else if Enabled(s, acts[0], maxDeliver) then Steps(Next(s, acts[0]), acts[1..], maxDeliver)
    else None
  }

  /** Steps of the run of `key` after its start. */
  predicate OwnSteps(acts: seq<Action>, key: string) {
    forall i :: 0 <= i < |acts| ==>
      acts[i].PayStep? && !acts[i].a.Start? && !acts[i].a.Project? && acts[i].a.key == key
  }

  /** `b`, in which only `key` runs, agrees with `a` on the tables, the calls and that run. */
  ghost predicate Agrees(a: P.State, b: P.State, key: string) {
    && a.payments == b.payments && a.outbox == b.outbox && a.calls == b.calls
    && (key in a.runs <==> key in b.runs)
    && (key in a.runs ==> a.runs[key] == b.runs[key])
  }

  lemma PersistAgrees(a: P.State, b: P.State, key: string, newId: Id)
    requires Agrees(a, b, key) && key in a.runs && a.runs[key].HasContext?
    ensures Agrees(P.Persisted(a, key, newId), P.Persisted(b, key, newId), key)
  {
  }

  lemma DecideAgrees(a: P.State, b: P.State, key: string, now: Time, answer: P.Charge)
    requires Agrees(a, b, key) && key in a.runs && a.runs[key].HasPayment?
    ensures Agrees(P.Decided(a, key, now, answer), P.Decided(b, key, now, answer), key)
  {
  }

  lemma ConcludeAgrees(a: P.State, b: P.State, key: string)
    requires Agrees(a, b, key) && key in a.runs && a.runs[key].Finishing?
    ensures Agrees(P.Concluded(a, key), P.Concluded(b, key), key)
  {
  }

  /** Entry `i` runs under `key`; nothing else about the saga matters to a payment step. */
  ghost predicate Runs(s: State, i: nat, key: string) {
    key in s.running && s.running[key] == i
  }

  /** What a payment step leaves alone. */
  ghost predicate OnlyPays(s: State, s': State) {
    s' == s.(pay := s'.pay, handled := s'.handled) && s.handled <= s'.handled
  }

  lemma PayStepIs(s: State, b: P.Action, maxDeliver: nat)
    requires !b.Start? && !b.Project? && P.Enabled(s.pay, b)
    ensures Enabled(s, PayStep(b), maxDeliver) && Next(s, PayStep(b)).pay == P.Next(s.pay, b)
    ensures OnlyPays(s, Next(s, PayStep(b)))
    ensures Answers(s.pay, b) && b.key in s.running ==> s.running[b.key] in Next(s, PayStep(b)).handled
  {
    assert Enabled(s, PayStep(b), maxDeliver);
  }

  lemma OneStep(s: State, x: Action, maxDeliver: nat)
    requires Enabled(s, x, maxDeliver)
    ensures Steps(s, [x], maxDeliver) == Some(Next(s, x))
  {
  }

  lemma {:induction false} MoreSteps(s: State, acts: seq<Action>, more: seq<Action>, maxDeliver: nat)
    requires Steps(s, acts, maxDeliver).Some?
    ensures Steps(s, acts + more, maxDeliver) == Steps(Steps(s, acts, maxDeliver).value, more, maxDeliver)
    decreases |acts|
  {
    if acts == [] {
      assert acts + more == more;
    } else {
      assert (acts + more)[0] == acts[0] && (acts + more)[1..] == acts[1..] + more;
      MoreSteps(Next(s, acts[0]), acts[1..], more, maxDeliver);
    }
  }

  /** The run so far: `s` is reached from `s0` by own steps and agrees with the session `b`. */
  ghost predicate RunSoFar(s0: State, acts: seq<Action>, s: State, b: P.State, key: string, maxDeliver: nat) {
    && OwnSteps(acts, key) && Steps(s0, acts, maxDeliver) == Some(s)
    && OnlyPays(s0, s) && Agrees(s.pay, b, key)
  }

  /** One more step of the run, mirrored by the session. */
  lemma RunOn(
    s0: State, acts: seq<Action>, s: State, b: P.State, key: string, step: P.Action, b': P.State, maxDeliver: nat)
    requires RunSoFar(s0, acts, s, b, key, maxDeliver)
    requires !step.Start? && !step.Project? && step.key == key && P.Enabled(s.pay, step)
    requires Agrees(P.Next(s.pay, step), b', key)
    ensures Enabled(s, PayStep(step), maxDeliver)
    ensures RunSoFar(s0, acts + [PayStep(step)], Next(s, PayStep(step)), b', key, maxDeliver)
  {
    PayStepIs(s, step, maxDeliver);
    OneStep(s, PayStep(step), maxDeliver);
    MoreSteps(s0, acts, [PayStep(step)], maxDeliver);
  }

  /** From a run with its payment: `n` of its two last steps. */
  lemma FromPaymentRuns(
    s0: State, acts: seq<Action>, s: State, b: P.State, i: nat, key: string, now: Time, answer: P.Charge, n: nat,
    maxDeliver: nat)
    returns (acts': seq<Action>, s': State)
    requires RunSoFar(s0, acts, s, b, key, maxDeliver) && key in b.runs && b.runs[key].HasPayment? && n <= 2
    requires Runs(s0, i, key)
    ensures RunSoFar(s0, acts', s', Processor.FromPayment(b, key, now, answer, n), key, maxDeliver)
    ensures n == 2 ==> i in s'.handled
  {
    acts', s' := acts, s;
    if n > 0 {
      var b1 := P.Decided(b, key, now, answer);
      DecideAgrees(s.pay, b, key, now, answer);
      PayStepIs(s, P.Decide(key, now, answer), maxDeliver);
      RunOn(s0, acts, s, b, key, P.Decide(key, now, answer), b1, maxDeliver);
      acts', s' := acts + [PayStep(P.Decide(key, now, answer))], Next(s, PayStep(P.Decide(key, now, answer)));
      if n == 2 && key in b1.runs {
        ConcludeAgrees(s'.pay, b1, key);
        PayStepIs(s', P.Conclude(key), maxDeliver);
        RunOn(s0, acts', s', b1, key, P.Conclude(key), P.Concluded(b1, key), maxDeliver);
        acts', s' := acts' + [PayStep(P.Conclude(key))], Next(s', PayStep(P.Conclude(key)));
      }
    }
  }

  /** From a run with its context: `n` of its three last steps. */
  lemma FromContextRuns(
    s0: State, acts: seq<Action>, s: State, b: P.State, i: nat, key: string, newId: Id, now: Time, answer: P.Charge,
    n: nat, maxDeliver: nat)
    returns (acts': seq<Action>, s': State)
    requires RunSoFar(s0, acts, s, b, key, maxDeliver) && key in b.runs && b.runs[key].HasContext? && n <= 3
    requires Runs(s0, i, key)
    ensures RunSoFar(s0, acts', s', Processor.FromContext(b, key, newId, now, answer, n), key, maxDeliver)
    ensures n == 3 && key in P.Persisted(b, key, newId).runs ==> i in s'.handled
  {
    acts', s' := acts, s;
    if n > 0 {
      var b1 := P.Persisted(b, key, newId);
      PersistAgrees(s.pay, b, key, newId);
      RunOn(s0, acts, s, b, key, P.Persist(key, newId), b1, maxDeliver);
      acts', s' := acts + [PayStep(P.Persist(key, newId))], Next(s, PayStep(P.Persist(key, newId)));
      if key in b1.runs {
        acts', s' := FromPaymentRuns(s0, acts', s', b1, i, key, now, answer, n - 1, maxDeliver);
      }
    }
  }

  /** However far a run got, its handler's return ends it. */
  lemma RunEnds(s0: State, acts: seq<Action>, s: State, b: P.State, key: string, maxDeliver: nat)
    returns (acts': seq<Action>, s': State)
    requires RunSoFar(s0, acts, s, b, key, maxDeliver)
    ensures OwnSteps(acts', key) && Steps(s0, acts', maxDeliver) == Some(s') && OnlyPays(s0, s')
    ensures key !in s'.pay.runs && Processor.SameData(s'.pay, b.payments, b.outbox, b.calls)
    ensures s.handled <= s'.handled
  {
    acts', s' := acts, s;
    if key in s.pay.runs {
      PayStepIs(s, P.Die(key), maxDeliver);
      OneStep(s, PayStep(P.Die(key)), maxDeliver);
      MoreSteps(s0, acts, [PayStep(P.Die(key))], maxDeliver);
      acts', s' := acts + [PayStep(P.Die(key))], Next(s, PayStep(P.Die(key)));
    }
  }

  /** The answered wait of the owner: the run reads its context. */
  lemma ReadRuns(s: State, key: string, maxDeliver: nat) returns (acts: seq<Action>, s': State)
    requires key in s.pay.runs && s.pay.runs[key].Waiting?
    requires var req := s.pay.runs[key].req;
             req.reservationId in s.pay.contexts && req.userId == s.pay.contexts[req.reservationId].userId
    ensures var req := s.pay.runs[key].req;
            RunSoFar(s, acts, s',
                     Processor.Session(s.pay.payments, s.pay.outbox, s.pay.calls, key,
                                       P.HasContext(req, s.pay.contexts[req.reservationId])),
                     key, maxDeliver)
  {
    var step := P.ReadContext(key);
    PayStepIs(s, step, maxDeliver);
    OneStep(s, PayStep(step), maxDeliver);
    acts, s' := [PayStep(step)], Next(s, PayStep(step));
  }

  // ---- Delivery, wait and work together ----

  /** The delivery of a complete payment command starts its run, and touches no table. */
  lemma DeliveryStartsRun(s: State, i: nat, maxDeliver: nat)
    requires Enabled(s, DeliverPay(i), maxDeliver)
    ensures var s', m := Next(s, DeliverPay(i)), s.stream[i].msg;
            && s'.pay == s.pay.(runs := s'.pay.runs) && s'.core == s.core
            && if Processor.Complete(RequestOf(m), KeyOf(m))
               then Runs(s', i, KeyOf(m)) && s'.pay.runs == s.pay.runs[KeyOf(m) := P.Waiting(RequestOf(m))]
               else s'.pay == s.pay
  {
  }

  /** A run that has to give up with its tables untouched. */
  lemma GivesUp(s: State, key: string, maxDeliver: nat) returns (acts: seq<Action>, s': State)
    requires key in s.pay.runs && s.pay.runs[key].Waiting?
    ensures OwnSteps(acts, key) && Steps(s, acts, maxDeliver) == Some(s') && OnlyPays(s, s')
    ensures key !in s'.pay.runs && Processor.SameData(s'.pay, s.pay.payments, s.pay.outbox, s.pay.calls)
  {
    PayStepIs(s, P.Die(key), maxDeliver);
    OneStep(s, PayStep(P.Die(key)), maxDeliver);
    acts, s' := [PayStep(P.Die(key))], Next(s, PayStep(P.Die(key)));
  }

  /** From the answered wait on. */
  lemma AnsweredWaitRuns(
    s: State, i: nat, awaited: Processor.ReadResult, newId: Id, now: Time, answer: P.Charge,
    d': Processor.Data, r: Result<(), Processor.HandleError>, maxDeliver: nat)
    returns (acts: seq<Action>, s': State)
    requires i < |s.stream| && s.stream[i].msg.PayCmd?
    requires var m := s.stream[i].msg;
             && Processor.Complete(RequestOf(m), KeyOf(m)) && Runs(s, i, KeyOf(m))
             && KeyOf(m) in s.pay.runs && s.pay.runs[KeyOf(m)] == P.Waiting(RequestOf(m))
             && (awaited.Found? ==> m.rid in s.pay.contexts && awaited.ctx == s.pay.contexts[m.rid])
             && Processor.Handled(Processor.Data(s.pay.payments, s.pay.outbox, s.pay.calls), d',
                                  RequestOf(m), KeyOf(m), awaited, newId, now, answer, r)
    ensures OwnSteps(acts, KeyOf(s.stream[i].msg)) && Steps(s, acts, maxDeliver) == Some(s') && OnlyPays(s, s')
    ensures KeyOf(s.stream[i].msg) !in s'.pay.runs
    ensures Processor.SameData(s'.pay, d'.payments, d'.outbox, d'.calls)
    ensures r.Ok? ==> i in s'.handled
  {
    var m := s.stream[i].msg;
    var key, req := KeyOf(m), RequestOf(m);
    if awaited.Found? && req.userId == awaited.ctx.userId {
      var b := Processor.Session(s.pay.payments, s.pay.outbox, s.pay.calls, key, P.HasContext(req, awaited.ctx));
      var n := 3;
      if r.Err? {
        n :| 0 <= n <= 3 && Processor.SameData(
          Processor.FromContext(b, key, newId, now, answer, n), d'.payments, d'.outbox, d'.calls);
      }
      var acts1, s1 := ReadRuns(s, key, maxDeliver);
      var acts2, s2 := FromContextRuns(s, acts1, s1, b, i, key, newId, now, answer, n, maxDeliver);
      acts, s' := RunEnds(s, acts2, s2, Processor.FromContext(b, key, newId, now, answer, n), key, maxDeliver);
    } else {
      acts, s' := GivesUp(s, key, maxDeliver);
    }
  }

  /** What goes on around a waiting run: anything but that run's own steps. */
  predicate OthersSteps(acts: seq<Action>, key: string) {
    forall i :: 0 <= i < |acts| ==>
      !(acts[i].PayStep? && !acts[i].a.Start? && !acts[i].a.Project? && acts[i].a.key == key)
  }

  lemma OtherKeepsRun(s: State, x: Action, key: string, i: nat, maxDeliver: nat)
    requires Enabled(s, x, maxDeliver) && OthersSteps([x], key)
    requires key in s.pay.runs && Runs(s, i, key) && i < |s.stream|
    ensures var s' := Next(s, x);
            && key in s'.pay.runs && s'.pay.runs[key] == s.pay.runs[key] && Runs(s', i, key)
            && i < |s'.stream| && s'.stream[i].msg == s.stream[i].msg
  {
    assert OthersSteps([x], key) && [x][0] == x;
    StreamGrows(s, x, maxDeliver);
    match x {
      case PayStep(b) => P.OtherKeyRun(s.pay, b, key);
      case _ =>
    }
  }

  lemma {:induction false} OthersKeepRun(s: State, acts: seq<Action>, key: string, i: nat, maxDeliver: nat)
    requires Steps(s, acts, maxDeliver).Some? && OthersSteps(acts, key)
    requires key in s.pay.runs && Runs(s, i, key) && i < |s.stream|
    ensures var s' := Steps(s, acts, maxDeliver).value;
            && key in s'.pay.runs && s'.pay.runs[key] == s.pay.runs[key] && Runs(s', i, key)
            && i < |s'.stream| && s'.stream[i].msg == s.stream[i].msg
    decreases |acts|
  {
    if acts != [] {
      assert [acts[0]][0] == acts[0];
      OtherKeepsRun(s, acts[0], key, i, maxDeliver);
      OthersKeepRun(Next(s, acts[0]), acts[1..], key, i, maxDeliver);
    }
  }

  /**
   A payment command from its delivery to the return of its handler: the delivery, whatever
   others do while it waits, and then what `Processor.Handle` promises of the tables and the
   acquirer. All of it is a run of the saga that leaves exactly those tables and calls behind and
   ends the command's own run; the message is answered if the code returns no error.
   */
  lemma HandledIsRun(
    s0: State, i: nat, others: seq<Action>, s: State, awaited: Processor.ReadResult, newId: Id, now: Time,
    answer: P.Charge, d': Processor.Data, r: Result<(), Processor.HandleError>, maxDeliver: nat)
    returns (acts: seq<Action>, s': State)
    requires Enabled(s0, DeliverPay(i), maxDeliver)
    requires OthersSteps(others, KeyOf(s0.stream[i].msg))
    requires Steps(Next(s0, DeliverPay(i)), others, maxDeliver) == Some(s)
    requires var m := s0.stream[i].msg;
             && (awaited.Found? ==> m.rid in s.pay.contexts && awaited.ctx == s.pay.contexts[m.rid])
             && Processor.Handled(Processor.Data(s.pay.payments, s.pay.outbox, s.pay.calls), d',
                                  RequestOf(m), KeyOf(m), awaited, newId, now, answer, r)
    ensures var m := s0.stream[i].msg;
            && OwnSteps(acts, KeyOf(m)) && OnlyPays(s, s')
            && Steps(s0, [DeliverPay(i)] + others + acts, maxDeliver) == Some(s')
            && Processor.SameData(s'.pay, d'.payments, d'.outbox, d'.calls)
            && (Processor.Complete(RequestOf(m), KeyOf(m)) ==> KeyOf(m) !in s'.pay.runs)
            && (r.Ok? ==> i in s'.handled)
  {
    var m, s1 := s0.stream[i].msg, Next(s0, DeliverPay(i));
    DeliveryStartsRun(s0, i, maxDeliver);
    if Processor.Complete(RequestOf(m), KeyOf(m)) {
      StreamGrows(s0, DeliverPay(i), maxDeliver);
      OthersKeepRun(s1, others, KeyOf(m), i, maxDeliver);
      acts, s' := AnsweredWaitRuns(s, i, awaited, newId, now, answer, d', r, maxDeliver);
    } else {
      acts, s' := [], s;
    }
    OneStep(s0, DeliverPay(i), maxDeliver);
    MoreSteps(s0, [DeliverPay(i)], others, maxDeliver);
    MoreSteps(s0, [DeliverPay(i)] + others, acts, maxDeliver);
  }
}
