/**
 Redelivery pacing: how long a failing message survives before its budget is spent, and what
 that means for commands that arrive before a sale opens. Durations are in milliseconds.
 */
module Delivery {
  import opened Common
  import C = CoreModel

  const DEFAULT_MAX_DELIVER := 10

  /** Pause after the n-th failed delivery. */
  function RedeliveryDelay(n: nat): nat {
    match n
    case 1 => 100
    case 2 => 250
    case 3 => 500
    case 4 => 1000
    case _ => 2000
  }

  datatype Disposition = Ack | Nak(delay: nat)

  /** All pauses between the first and the m-th delivery. */
  function Pauses(m: nat): nat {
    if m <= 1 then 0 else Pauses(m - 1) + RedeliveryDelay(m - 1)
  }

  lemma {:induction false} PausesFrom5(m: nat)
    requires m >= 5
    ensures Pauses(m) == 1850 + 2000 * (m - 5)
  {
    if m == 5 {
      assert Pauses(1) == 0;
      assert Pauses(2) == 100;
      assert Pauses(3) == 350;
      assert Pauses(4) == 850;
    } else {
      PausesFrom5(m - 1);
    }
  }

  /** Instants of the deliveries of one message that keeps failing. */
  ghost predicate Paced(times: seq<Time>) {
    forall i :: 0 <= i < |times| - 1 ==> times[i + 1] >= times[i] + RedeliveryDelay(i + 1)
  }

  lemma {:induction false} PacedSpan(times: seq<Time>, m: nat)
    requires Paced(times) && 0 < m <= |times|
    ensures times[m - 1] >= times[0] + Pauses(m)
  {
    if m > 1 {
      PacedSpan(times, m - 1);
      assert times[(m - 2) + 1] >= times[m - 2] + RedeliveryDelay(m - 2 + 1);
    }
  }

  /**
   A reserve command whose first delivery comes no earlier than 1850 + 2000 * (m - 5) ms before
   the opening is never rejected as not-open on its m-th and last delivery.
   */
  lemma OpeningTolerance(times: seq<Time>, db: C.Db, c: C.Cmd, env: C.Env)
    requires Paced(times) && |times| >= 5 && c.Reserve? && c.eid in db.events
    requires env.now >= times[|times| - 1]
    requires times[0] >= db.events[c.eid].saleOpensAt - (1850 + 2000 * (|times| - 5))
    ensures C.Exec(db, C.Op(c, env)) != C.Rejected(C.SaleNotOpen)
  {
    PacedSpan(times, |times|);
    PausesFrom5(|times|);
  }

  /**
   Deliveries that each come no earlier than the delay asked for after the one before: 100, 250,
   500 and 1000 ms, then 2 s every time. They are paced.
   */
  lemma AskedPausesPace(times: seq<Time>, pauses: seq<nat>)
    requires |times| == |pauses| + 1
    requires forall i :: 0 <= i < |pauses| ==>
               && (i == 0 ==> pauses[i] == 100) && (i == 1 ==> pauses[i] == 250)
               && (i == 2 ==> pauses[i] == 500) && (i == 3 ==> pauses[i] == 1000)
               && (i >= 4 ==> pauses[i] == 2000)
    requires forall i :: 0 <= i < |pauses| ==> times[i + 1] >= times[i] + pauses[i]
    ensures Paced(times)
  {
    forall i | 0 <= i < |times| - 1 ensures times[i + 1] >= times[i] + RedeliveryDelay(i + 1) {
      assert pauses[i] == RedeliveryDelay(i + 1);
    }
  }

  /** Deliveries that follow each other without any delay beyond the pauses. */
  ghost predicate Tight(times: seq<Time>) {
    forall i :: 0 <= i < |times| - 1 ==> times[i + 1] == times[i] + RedeliveryDelay(i + 1)
  }

  lemma {:induction false} TightSpan(times: seq<Time>, m: nat)
    requires Tight(times) && 0 < m <= |times|
    ensures times[m - 1] == times[0] + Pauses(m)
  {
    if m > 1 {
      TightSpan(times, m - 1);
      assert times[(m - 2) + 1] == times[m - 2] + RedeliveryDelay(m - 2 + 1);
    }
  }

  /**
   The bound is exact: handled at once on tight deliveries, a new valid command meets the
   opening iff it came in time.
   */
  lemma OpeningToleranceIsExact(times: seq<Time>, db: C.Db, c: C.Cmd, env: C.Env)
    requires Tight(times) && |times| >= 5 && c.Reserve? && c.eid in db.events
    requires C.ValidReserve(c, env) && c.rid !in db.reservations && env.now == times[|times| - 1]
    ensures C.Exec(db, C.Op(c, env)) == C.Rejected(C.SaleNotOpen)
       <==> times[0] < db.events[c.eid].saleOpensAt - (1850 + 2000 * (|times| - 5))
  {
    TightSpan(times, |times|);
    PausesFrom5(|times|);
  }

  /** The whole schedule, attempt by attempt: with the default budget the tolerance is 11.85 s. */
  lemma DefaultTolerance()
    ensures Pauses(1) == 0 && Pauses(2) == 100 && Pauses(3) == 350 && Pauses(4) == 850
    ensures forall m :: 5 <= m <= DEFAULT_MAX_DELIVER ==> Pauses(m) == 1850 + 2000 * (m - 5)
    ensures Pauses(DEFAULT_MAX_DELIVER) == 11850
  {
    forall m | 5 <= m <= DEFAULT_MAX_DELIVER ensures Pauses(m) == 1850 + 2000 * (m - 5) {
      PausesFrom5(m);
    }
    PausesFrom5(DEFAULT_MAX_DELIVER);
  }
}
