/**
 At-least-once delivery with exactly-once effect: erasing any later deliveries of
 commands that were already applied leaves the core database unchanged.
 */
module Replays {
  import opened Common
  import opened CoreModel
  import opened CoreLedger

  /** The command has nothing left to do, whatever a later delivery reads from its environment. */
  ghost predicate Done(db: Db, c: Cmd) {
    && c.rid in db.reservations
    && (c.Settle? ==> db.reservations[c.rid].status != Pending)
  }

  lemma AppliedIsDone(db: Db, op: Op)
    requires LedgerInv(db) && op.cmd.rid != "" && !Exec(db, op).Rejected?
    ensures Done(Exec(db, op).After(db), op.cmd)
  {
    if Exec(db, op).Applied? {
      var ev := AppliedWrites(db, op);
    }
  }

  lemma DoneIsStable(db: Db, c: Cmd, op: Op)
    requires LedgerInv(db) && Done(db, c)
    ensures Done(Exec(db, op).After(db), c)
  {
    ExecEvolves(db, op);
    EvolvesKeepsDone(db, Exec(db, op).After(db), c);
  }

  lemma DoneIsNoop(db: Db, op: Op)
    requires Done(db, op.cmd) && op.cmd.rid != ""
    ensures !Exec(db, op).Applied?
  {
  }

  /**
   A redelivery of a settled command never reports a different kind of settlement: any
   release answers any other release, and a release never undoes a confirmation.
   */
  lemma CrossCauseReplay(db: Db, op: Op)
    requires Done(db, op.cmd) && op.cmd.Settle? && op.cmd.rid != ""
    ensures var r := db.reservations[op.cmd.rid];
            if r.status == Confirmed <==> op.cmd.to == Confirmed
            then Exec(db, op) == Replayed(r)
            else Exec(db, op) == Rejected(InvalidTransition)
  {
  }

  /** A run in which `kept[i]` says whether delivery `i` takes place at all. */
  function Erased(db: Db, ops: seq<Op>, kept: seq<bool>): Db
    requires |ops| == |kept|
  {
    if ops == [] then db else
      var before := Erased(db, ops[..|ops| - 1], kept[..|ops| - 1]);
      if kept[|ops| - 1] then Exec(before, ops[|ops| - 1]).After(before) else before
  }

  /** Delivery `j` of the full run was applied or recognised as a replay. */
  ghost predicate Succeeded(db: Db, ops: seq<Op>, j: nat)
    requires j < |ops|
  {
    !Exec(Serial(db, ops[..j]), ops[j]).Rejected?
  }

  /**
   Once `c` has succeeded, `d` has nothing left to do: the same reservation, and a settlement
   is covered by any settlement, whatever its cause.
   */
  predicate Covers(c: Cmd, d: Cmd) {
    c.rid == d.rid && (d.Settle? ==> c.Settle?)
  }

  /** Every erased delivery is covered, with a non-empty id, by a command that succeeded earlier in the full run. */
  ghost predicate ErasesReplays(db: Db, ops: seq<Op>, kept: seq<bool>)
    requires |ops| == |kept|
  {
    forall i :: 0 <= i < |ops| && !kept[i] ==>
      && ops[i].cmd.rid != ""
      && exists j :: 0 <= j < i && Covers(ops[j].cmd, ops[i].cmd) && Succeeded(db, ops, j)
  }

  lemma EvolvesKeepsDone(db: Db, db': Db, c: Cmd)
    requires Evolves(db, db') && Done(db, c)
    ensures Done(db', c)
  {
    assert RowEvolves(db.reservations[c.rid], db'.reservations[c.rid]);
  }

  /** A run may be cut anywhere. */
  lemma {:induction false} SerialSplit(db: Db, ops: seq<Op>, n: nat)
    requires n <= |ops|
    ensures Serial(db, ops) == Serial(Serial(db, ops[..n]), ops[n..])
    decreases |ops|
  {
    if n == |ops| {
      assert ops[..n] == ops;
    } else {
      var front, last := ops[..|ops| - 1], ops[|ops| - 1];
      SerialSplit(db, front, n);
      assert front[..n] == ops[..n] && ops[n..] == front[n..] + [last] && ops == front + [last];
      SerialSnoc(Serial(db, ops[..n]), front[n..], last);
      SerialSnoc(db, front, last);
    }
  }

  lemma SucceededIsDoneAtOnce(db: Db, ops: seq<Op>, j: nat)
    requires LedgerInv(db) && j < |ops| && ops[j].cmd.rid != "" && Succeeded(db, ops, j)
    ensures Done(Serial(db, ops[..j + 1]), ops[j].cmd)
  {
    SerialKeepsLedger(db, ops[..j]);
    AppliedIsDone(Serial(db, ops[..j]), ops[j]);
    assert ops[..j + 1] == ops[..j] + [ops[j]];
    SerialSnoc(db, ops[..j], ops[j]);
  }

  lemma SucceededIsDone(db: Db, ops: seq<Op>, j: nat)
    requires LedgerInv(db) && j < |ops| && ops[j].cmd.rid != "" && Succeeded(db, ops, j)
    ensures Done(Serial(db, ops), ops[j].cmd)
  {
    var mid := Serial(db, ops[..j + 1]);
    SucceededIsDoneAtOnce(db, ops, j);
    SerialKeepsLedger(db, ops[..j + 1]);
    SerialSplit(db, ops, j + 1);
    SerialEvolves(mid, ops[j + 1..]);
    EvolvesKeepsDone(mid, Serial(mid, ops[j + 1..]), ops[j].cmd);
  }

  /** The condition holds of a run's front as well. */
  lemma ErasesFront(db: Db, ops: seq<Op>, kept: seq<bool>, n: nat)
    requires |ops| == |kept| && ErasesReplays(db, ops, kept) && n <= |ops|
    ensures ErasesReplays(db, ops[..n], kept[..n])
  {
    forall i | 0 <= i < n && !kept[..n][i]
      ensures ops[..n][i].cmd.rid != ""
      ensures exists j :: 0 <= j < i && Covers(ops[..n][j].cmd, ops[..n][i].cmd) && Succeeded(db, ops[..n], j)
    {
      var j :| 0 <= j < i && Covers(ops[j].cmd, ops[i].cmd) && Succeeded(db, ops, j);
      assert ops[..n][..j] == ops[..j];
      assert Succeeded(db, ops[..n], j);
    }
  }

  /** A covered delivery at the end of a run writes nothing. */
  lemma CoveredIsNoop(db: Db, front: seq<Op>, j: nat, op: Op)
    requires LedgerInv(db) && j < |front| && Succeeded(db, front, j)
    requires Covers(front[j].cmd, op.cmd) && op.cmd.rid != ""
    ensures !Exec(Serial(db, front), op).Applied?
  {
    SucceededIsDone(db, front, j);
    assert Done(Serial(db, front), op.cmd);
    DoneIsNoop(Serial(db, front), op);
  }

  /**
   An erased delivery would have written nothing. What it would have reported: a replay, unless it
   asks for a confirmation of a released reservation or for a release of a confirmed one.
   */
  lemma ErasedIsNoop(db: Db, ops: seq<Op>, kept: seq<bool>, last: nat)
    requires LedgerInv(db) && |ops| == |kept| && ErasesReplays(db, ops, kept) && last < |ops| && !kept[last]
    ensures !Exec(Serial(db, ops[..last]), ops[last]).Applied?
    ensures var before, c := Serial(db, ops[..last]), ops[last].cmd;
            c.Settle? ==>
              && c.rid in before.reservations
              && Exec(before, ops[last])
                   == if (before.reservations[c.rid].status == Confirmed) == (c.to == Confirmed)
                      then Replayed(before.reservations[c.rid]) else Rejected(InvalidTransition)
  {
    var j :| 0 <= j < last && Covers(ops[j].cmd, ops[last].cmd) && Succeeded(db, ops, j);
    assert ops[..last][..j] == ops[..j];
    CoveredIsNoop(db, ops[..last], j, ops[last]);
    if ops[last].cmd.Settle? {
      SucceededIsDone(db, ops[..last], j);
      CrossCauseReplay(Serial(db, ops[..last]), ops[last]);
    }
  }

  lemma ErasedStep(db: Db, ops: seq<Op>, kept: seq<bool>, last: nat)
    requires |ops| == |kept| && last == |ops| - 1
    requires Erased(db, ops[..last], kept[..last]) == Serial(db, ops[..last])
    requires kept[last] || !Exec(Serial(db, ops[..last]), ops[last]).Applied?
    ensures Erased(db, ops, kept) == Serial(db, ops)
  {
  }

  /**
   Erasing any set of covered deliveries leaves the database as it was: repeats of the same
   command, and other causes of a settlement that has already happened, such as
   payment.failed after the sweeper's expiry.
   */
  lemma {:induction false} ErasingReplaysChangesNothing(db: Db, ops: seq<Op>, kept: seq<bool>)
    requires LedgerInv(db) && |ops| == |kept| && ErasesReplays(db, ops, kept)
    ensures Erased(db, ops, kept) == Serial(db, ops)
    decreases |ops|
  {
    if ops != [] {
      var last := |ops| - 1;
      ErasesFront(db, ops, kept, last);
      ErasingReplaysChangesNothing(db, ops[..last], kept[..last]);
      if !kept[last] {
        ErasedIsNoop(db, ops, kept, last);
      }
      ErasedStep(db, ops, kept, last);
    }
  }

  /**
   When exactly a covered command writes again: accepted after a command that covers it
   succeeded, it changes the database if and only if it carries no reservation id; then it
   creates another reservation.
   */
  lemma ReplayWritesIffNoId(db: Db, ops: seq<Op>, j: nat, op: Op)
    requires LedgerInv(db) && j < |ops| && Succeeded(db, ops, j) && Covers(ops[j].cmd, op.cmd)
    requires !Exec(Serial(db, ops), op).Rejected?
    ensures Exec(Serial(db, ops), op).Applied? <==> op.cmd.rid == ""
    ensures op.cmd.rid == "" ==>
              && op.env.newId !in Serial(db, ops).reservations
              && op.env.newId in Exec(Serial(db, ops), op).After(Serial(db, ops)).reservations
  {
    if op.cmd.rid != "" {
      CoveredIsNoop(db, ops, j, op);
    } else {
      EmptyIdAlwaysWrites(Serial(db, ops), op);
    }
  }

  /**
   Without a reservation id the promise fails: every delivery of such a command that
   succeeds writes, so redelivering it after the first reservation expired reserves again.
   */
  lemma EmptyIdAlwaysWrites(db: Db, op: Op)
    requires op.cmd.Reserve? && op.cmd.rid == "" && !Exec(db, op).Rejected?
    ensures op.env.newId !in db.reservations && op.env.newId in Exec(db, op).After(db).reservations
  {
  }

  const EMPTY_ID_COMMAND := Reserve("", "e", "u", 2)
  const FIRST_ROW := Row("a", "e", "u", Pending, 2, 200, "BRL", 5, None, 1, 0, 0)
  const EXPIRED_ROW := Row("a", "e", "u", Expired, 2, 200, "BRL", 5, None, 2, 0, 6)

  lemma EmptyIdReservesTwice(d0: Db)
    requires d0 == Db(map["e" := EventRow(0, 100, 10, 0, 0)], map[], [])
    ensures var o1 := Exec(d0, Op(EMPTY_ID_COMMAND, Env(0, 5, "a", true)));
            && o1.Applied? && o1.row == FIRST_ROW
            && var o2 := Exec(o1.db, Op(Settle("a", Expired), Env(6, 5, "x", true)));
               && o2.Applied? && o2.row == EXPIRED_ROW
               && Exec(o2.db, Op(EMPTY_ID_COMMAND, Env(7, 5, "b", true))).Applied?
  {
    var o1 := Exec(d0, Op(EMPTY_ID_COMMAND, Env(0, 5, "a", true)));
    assert o1 == Applied(Db(map["e" := EventRow(0, 100, 10, 2, 0)], map["a" := FIRST_ROW], o1.db.outbox), FIRST_ROW);
    var o2 := Exec(o1.db, Op(Settle("a", Expired), Env(6, 5, "x", true)));
    assert o2.Applied? && o2.row == EXPIRED_ROW;
    var d2 := o2.db;
    assert d2.reservations == map["a" := EXPIRED_ROW] && d2.events["e"] == EventRow(0, 100, 10, 0, 0);
    assert !ActiveFor(d2.reservations, "u", "e");
  }
}
