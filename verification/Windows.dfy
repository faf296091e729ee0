/**
 Which window and which owner a charge is checked against. The processor compares both with
 the reservation the command names, and charges the payment stored under the idempotency key;
 these are the same reservation only as long as a key is not reused for another one.
 */
module Windows {
  import C = CoreModel
  import L = CoreLedger
  import P = Payment
  import S = Saga

  /** A run of `key` that is about to be charged or refused. */
  ghost predicate Due(s: S.State, key: string) {
    key in s.pay.runs && s.pay.runs[key].HasPayment? && s.pay.runs[key].pay.status == P.Pending
  }

  /** Whenever the acquirer is called for `key` now, it is inside the window of the reservation being paid. */
  ghost predicate ChargedInWindow(s: S.State, key: string)
    requires Due(s, key) && key in s.pay.payments && s.pay.payments[key].reservationId in s.core.reservations
  {
    forall now, answer :: P.Decided(s.pay, key, now, answer).calls != s.pay.calls ==>
      now <= s.core.reservations[s.pay.payments[key].reservationId].expiresAt
  }

  /** What a run that is due knows: its command's reservation, its own payment, and that payment's reservation. */
  lemma DueKnows(core: C.Db, trace: seq<S.Action>, maxDeliver: nat, key: string)
    requires L.Seeded(core) && S.Run(core, trace, maxDeliver).Some? && Due(S.Run(core, trace, maxDeliver).value, key)
    ensures var s := S.Run(core, trace, maxDeliver).value;
            var run := s.pay.runs[key];
            && key in s.pay.payments && s.pay.payments[key] == run.pay
            && run.pay.reservationId in s.core.reservations && run.req.reservationId in s.core.reservations
            && run.pay.userId == s.core.reservations[run.pay.reservationId].userId
            && run.req.userId == s.core.reservations[run.req.reservationId].userId
            && run.ctx.expiresAt == s.core.reservations[run.req.reservationId].expiresAt
  {
    S.ReachableInv(core, trace, maxDeliver);
    var s := S.Run(core, trace, maxDeliver).value;
    assert P.RunInv(s.pay.payments, key, s.pay.runs[key]);
    assert S.RunPriced(s.core, s.pay.runs[key]);
    assert S.PayPriced(s.core, s.pay.payments[key]);
  }

  /**
   The promise that charges stay inside the retention window of the reservation they pay holds
   if and only if the window of the reservation the command names does not outlast it.
   */
  lemma ChargedInWindowIff(core: C.Db, trace: seq<S.Action>, maxDeliver: nat, key: string)
    requires L.Seeded(core) && S.Run(core, trace, maxDeliver).Some? && Due(S.Run(core, trace, maxDeliver).value, key)
    ensures var s := S.Run(core, trace, maxDeliver).value;
            var named := s.pay.runs[key].req.reservationId;
            && key in s.pay.payments && named in s.core.reservations
            && s.pay.payments[key].reservationId in s.core.reservations
            && (ChargedInWindow(s, key) <==>
                  s.core.reservations[named].expiresAt
                    <= s.core.reservations[s.pay.payments[key].reservationId].expiresAt)
  {
    DueKnows(core, trace, maxDeliver, key);
    var s := S.Run(core, trace, maxDeliver).value;
    var last := s.pay.runs[key].ctx.expiresAt;
    assert P.Decided(s.pay, key, last, P.Approved("")).calls == s.pay.calls + [key];
  }

  /** The promise that only the owner pays holds if and only if both reservations have the same owner. */
  lemma ChargedToOwnerIff(core: C.Db, trace: seq<S.Action>, maxDeliver: nat, key: string)
    requires L.Seeded(core) && S.Run(core, trace, maxDeliver).Some? && Due(S.Run(core, trace, maxDeliver).value, key)
    ensures var s := S.Run(core, trace, maxDeliver).value;
            var run := s.pay.runs[key];
            && key in s.pay.payments && run.req.reservationId in s.core.reservations
            && s.pay.payments[key].reservationId in s.core.reservations
            && (run.req.userId == s.pay.payments[key].userId <==>
                  s.core.reservations[run.req.reservationId].userId
                    == s.core.reservations[s.pay.payments[key].reservationId].userId)
  {
    DueKnows(core, trace, maxDeliver, key);
  }

  /** So a command that names the reservation its key's payment is for is charged inside its window, to its owner. */
  lemma OwnReservationIsSafe(core: C.Db, trace: seq<S.Action>, maxDeliver: nat, key: string)
    requires L.Seeded(core) && S.Run(core, trace, maxDeliver).Some? && Due(S.Run(core, trace, maxDeliver).value, key)
    requires var s := S.Run(core, trace, maxDeliver).value;
             s.pay.runs[key].pay.reservationId == s.pay.runs[key].req.reservationId
    ensures var s := S.Run(core, trace, maxDeliver).value;
            && key in s.pay.payments && s.pay.payments[key].reservationId in s.core.reservations
            && ChargedInWindow(s, key)
            && s.pay.runs[key].req.userId == s.pay.payments[key].userId
  {
    ChargedInWindowIff(core, trace, maxDeliver, key);
    ChargedToOwnerIff(core, trace, maxDeliver, key);
    DueKnows(core, trace, maxDeliver, key);
  }
}
