/** Sums of reservation quantities over the reservations table. */
module Sums {
  import opened Common
  import opened CoreModel

  /** Which rows of one event are summed. */
  datatype Slice = InStatus(eid: Id, status: Status) | OverdueAt(eid: Id, now: Time)

  predicate Selects(sl: Slice, r: Row) {
    && r.eventId == sl.eid
    && match sl
       case InStatus(_, status) => r.status == status
       case OverdueAt(_, now) => r.status == Pending && r.expiresAt < now
  }

  function Weight(sl: Slice, r: Row): int {
    if Selects(sl, r) then r.quantity else 0
  }

  ghost function Sum(rows: map<Id, Row>, sl: Slice): int
    decreases |rows|
  {
    if rows == map[] then 0 else
      var k :| k in rows;
      Weight(sl, rows[k]) + Sum(rows - {k}, sl)
  }

  /** The sum does not depend on the order rows are visited in. */
  lemma {:induction false} SumSplit(rows: map<Id, Row>, sl: Slice, k: Id)
    requires k in rows
    ensures Sum(rows, sl) == Weight(sl, rows[k]) + Sum(rows - {k}, sl)
    decreases |rows|
  {
    var j :| j in rows && Sum(rows, sl) == Weight(sl, rows[j]) + Sum(rows - {j}, sl);
    if j != k {
      SumSplit(rows - {j}, sl, k);
      SumSplit(rows - {k}, sl, j);
      assert rows - {j} - {k} == rows - {k} - {j};
    }
  }

  lemma SumPut(rows: map<Id, Row>, sl: Slice, k: Id, r: Row)
    ensures Sum(rows[k := r], sl)
         == Sum(rows, sl) - (if k in rows then Weight(sl, rows[k]) else 0) + Weight(sl, r)
  {
    SumSplit(rows[k := r], sl, k);
    assert rows[k := r] - {k} == rows - {k};
    if k in rows {
      SumSplit(rows, sl, k);
    } else {
      assert rows - {k} == rows;
    }
  }

  lemma {:induction false} SumBounds(rows: map<Id, Row>, sl: Slice)
    requires forall k :: k in rows ==> rows[k].quantity > 0
    ensures Sum(rows, sl) >= 0
    ensures forall k :: k in rows ==> Weight(sl, rows[k]) <= Sum(rows, sl)
    ensures Sum(rows, sl) == 0 <==> forall k :: k in rows ==> !Selects(sl, rows[k])
    decreases |rows|
  {
    if rows == map[] {
      assert Sum(rows, sl) == 0;
    } else {
      var k :| k in rows && Sum(rows, sl) == Weight(sl, rows[k]) + Sum(rows - {k}, sl);
      var rest := rows - {k};
      SumBounds(rest, sl);
      assert Weight(sl, rows[k]) >= 0;
      assert Sum(rows, sl) == Weight(sl, rows[k]) + Sum(rest, sl);
      assert forall j :: j in rows ==> j == k || (j in rest && rest[j] == rows[j]);
    }
  }
}
