/**
 The core use cases statement by statement: any number of transactions in flight,
 READ COMMITTED reads, event rows and reservation keys locked from the first write
 to the end of the transaction, conditions checked when the statement runs, and a
 crash or rollback possible between any two statements.
 */
module Interleaving {
  import opened Common
  import opened CoreModel
  import opened CoreLedger
  import opened CoreLaws
  import opened Sums

  type TxId = nat

  /** Where a use case stands. `row` and `ev` are what it will write. */
  datatype Phase =
    | Begun                                // nothing read yet
    | Checked                              // Reserve: the id was looked up and is new
    | Loaded(row: Row)                     // all reads done, new row built in memory
    | Locked(row: Row, ev: EventRow)       // event counters updated, event row locked
    | Written(row: Row, ev: EventRow)      // reservation row written, its key locked
    | Enqueued(row: Row, ev: EventRow)     // outbox row inserted; only the commit is left
    | ReplayDone                           // replay recognised; commits without writes
    | Aborted(error: CoreError)            // a statement failed; only the rollback is left

  /** The sweeper's FOR UPDATE SKIP LOCKED select is a transaction of its own. */
  datatype Txn = UseCase(op: Op, phase: Phase) | Claim(rows: set<Id>)

  /** `commits` records which use cases committed, in order, and whether they wrote. */
  datatype Commit = Commit(op: Op, wrote: bool)

  datatype State = State(
    db: Db,
    eventLock: map<Id, TxId>,
    rowLock: map<Id, TxId>,
    txns: map<TxId, Txn>,
    commits: seq<Commit>)

  datatype Action =
    | Begin(t: TxId, op: Op)
    | BeginClaim(t: TxId, rows: set<Id>, now: Time)
    | Step(t: TxId)
    | Rollback(t: TxId)

  // ---- One statement ----

  /** Which transactions may own a lock: locks are kept to the end, by failed transactions too. */
  predicate HoldsEvent(x: Txn, e: Id) {
    && x.UseCase?
    && (x.phase.Aborted? || ((x.phase.Locked? || x.phase.Written? || x.phase.Enqueued?) && x.phase.row.eventId == e))
  }

  predicate HoldsRow(x: Txn, k: Id) {
    match x
    case UseCase(_, p) => (p.Written? || p.Enqueued?) && p.row.id == k
    case Claim(rows) => k in rows
  }

  /** An uncommitted row of another transaction occupies the same user-and-event slot. */
  predicate SlotInFlight(s: State, t: TxId, r: Row) {
    exists u :: u in s.txns && u != t && s.txns[u].UseCase?
      && (s.txns[u].phase.Written? || s.txns[u].phase.Enqueued?)
      && s.txns[u].phase.row.userId == r.userId && s.txns[u].phase.row.eventId == r.eventId
  }

  /** First read of a use case. */
  function FirstRead(db: Db, op: Op): Phase {
    var c := op.cmd;
    if c.Reserve? then
      if c.eid == "" || c.userId == "" || c.quantity <= 0 then Aborted(InvalidQuantity)
      else if c.rid != "" && !op.env.idValid then Aborted(InvalidId)
      else if c.rid != "" && c.rid in db.reservations then ReplayDone
      else Checked
    else if c.rid == "" || c.rid !in db.reservations then Aborted(NotFound)
    else
      var r := db.reservations[c.rid];
      match Settled(r, c.to)
      case Some(Replayed(_)) => ReplayDone
      case Some(Rejected(e)) => Aborted(e)
      case Some(Applied(_, _)) => Aborted(StoreError)
      case None =>
        match Transition(r, c.to, op.env.now)
        case Err(e) => Aborted(e)
        case Ok(r') => Loaded(r')
  }

  /** Second read of a reserve: the event row. */
  function ReadEvent(db: Db, op: Op): Phase
    requires op.cmd.Reserve?
  {
    if op.cmd.eid !in db.events then Aborted(NotFound)
    else if op.env.now < db.events[op.cmd.eid].saleOpensAt then Aborted(SaleNotOpen)
    else Loaded(NewRow(op.cmd, op.env, db.events[op.cmd.eid].priceCents))
  }

  function CountersUpdate(ev: EventRow, op: Op, quantity: int): Result<EventRow, CoreError> {
    if op.cmd.Reserve? then SqlReserve(ev, quantity) else SqlSettle(ev, quantity, op.cmd.to)
  }

  function UpdateEvent(db: Db, op: Op, row: Row): Phase {
    if row.eventId !in db.events then Aborted(NotFound)
    else
      match CountersUpdate(db.events[row.eventId], op, row.quantity)
      case Err(e) => Aborted(e)
      case Ok(ev) => Locked(row, ev)
  }

  function WriteRow(db: Db, op: Op, row: Row, ev: EventRow): Phase {
    match (if op.cmd.Reserve? then SqlInsert(db.reservations, row) else SqlUpdate(db.reservations, row))
    case Some(e) => Aborted(e)
    case None => Written(row, ev)
  }

  /**
   The next statement of `t` has to wait for a lock. An UPDATE waits only for a row whose
   committed version meets its condition; otherwise it affects no row and returns at once.
   */
  predicate Waits(s: State, t: TxId)
    requires t in s.txns
  {
    match s.txns[t]
    case Claim(_) => false
    case UseCase(op, phase) =>
      match phase
      case Loaded(row) => row.eventId in s.eventLock && UpdateEvent(s.db, op, row).Locked?
      case Locked(row, ev) =>
        if op.cmd.Reserve? then row.id in s.rowLock || SlotInFlight(s, t, row)
        else row.id in s.rowLock && WriteRow(s.db, op, row, ev).Written?
      case _ => false
  }

  function Unlock(m: map<Id, TxId>, t: TxId): map<Id, TxId> {
    map k | k in m && m[k] != t :: m[k]
  }

  /** The transaction ends: its locks are released and it is gone. */
  function End(s: State, t: TxId): State {
    s.(txns := s.txns - {t}, eventLock := Unlock(s.eventLock, t), rowLock := Unlock(s.rowLock, t))
  }

  function Goto(s: State, t: TxId, p: Phase): State
    requires t in s.txns && s.txns[t].UseCase?
  {
    s.(txns := s.txns[t := s.txns[t].(phase := p)])
  }

  function StepUseCase(s: State, t: TxId, op: Op, phase: Phase): State
    requires t in s.txns && s.txns[t] == UseCase(op, phase)
  {
    match phase
    case Begun => Goto(s, t, FirstRead(s.db, op))
    case Checked => if op.cmd.Reserve? then Goto(s, t, ReadEvent(s.db, op)) else s
    case Loaded(row) =>
      var p := UpdateEvent(s.db, op, row);
      if p.Locked? then Goto(s, t, p).(eventLock := s.eventLock[row.eventId := t]) else Goto(s, t, p)
    case Locked(row, ev) =>
      var p := WriteRow(s.db, op, row, ev);
      if p.Written? then Goto(s, t, p).(rowLock := s.rowLock[row.id := t]) else Goto(s, t, p)
    case Written(row, ev) => Goto(s, t, Enqueued(row, ev))
    case Enqueued(row, ev) => End(s, t).(db := Write(s.db, ev, row), commits := s.commits + [Commit(op, true)])
    case ReplayDone => End(s, t).(commits := s.commits + [Commit(op, false)])
    case Aborted(_) => End(s, t)
  }

  ghost predicate Enabled(s: State, a: Action) {
    match a
    case Begin(t, _) => t !in s.txns
    case BeginClaim(t, rows, now) =>
      && t !in s.txns
      && forall k :: k in rows ==>
           k in s.db.reservations && k !in s.rowLock
           && s.db.reservations[k].status == Pending && s.db.reservations[k].expiresAt < now
    case Step(t) => t in s.txns && !Waits(s, t)
    case Rollback(t) => t in s.txns
  }

  ghost function Next(s: State, a: Action): State
    requires Enabled(s, a)
  {
    match a
    case Begin(t, op) => s.(txns := s.txns[t := UseCase(op, Begun)])
    case BeginClaim(t, rows, _) =>
      s.(txns := s.txns[t := Claim(rows)], rowLock := s.rowLock + (map k | k in rows :: t))
    case Step(t) =>
      (match s.txns[t]
       case Claim(_) => End(s, t)
       case UseCase(op, phase) => StepUseCase(s, t, op, phase))
    case Rollback(t) => End(s, t)
  }

  function Init(db: Db): State {
    State(db, map[], map[], map[], [])
  }

  /** The state a fresh server over `db` reaches by `trace`, if every action was possible in its turn. */
  ghost function Run(db: Db, trace: seq<Action>): Option<State> {
    if trace == [] then Some(Init(db))
    else
      match Run(db, trace[..|trace| - 1])
      case None => None
      case Some(p) =>
        if Enabled(p, trace[|trace| - 1]) then Some(Next(p, trace[|trace| - 1])) else None
  }

  // ---- Serial reading of the commit log ----

  /** The committed use cases run one after another from `db`: none fails, and they write exactly when recorded. */
  function SerialRun(db: Db, commits: seq<Commit>): Option<Db> {
    if commits == [] then Some(db)
    else
      var last := commits[|commits| - 1];
      match SerialRun(db, commits[..|commits| - 1])
      case None => None
      case Some(before) =>
        match Exec(before, last.op)
        case Rejected(_) => None
        case Applied(after, _) => if last.wrote then Some(after) else None
        case Replayed(_) => if last.wrote then None else Some(before)
  }

  lemma SerialRunSnoc(db: Db, commits: seq<Commit>, c: Commit, before: Db, after: Db)
    requires SerialRun(db, commits) == Some(before)
    requires var o := Exec(before, c.op); !o.Rejected? && o.Applied? == c.wrote && after == o.After(before)
    ensures SerialRun(db, commits + [c]) == Some(after)
  {
    assert (commits + [c])[..|commits|] == commits;
  }

  function Ops(commits: seq<Commit>): seq<Op> {
    seq(|commits|, i requires 0 <= i < |commits| => commits[i].op)
  }

  lemma {:induction false} SerialRunIsSerial(db: Db, commits: seq<Commit>)
    requires SerialRun(db, commits).Some?
    ensures SerialRun(db, commits).value == Serial(db, Ops(commits))
  {
    if commits != [] {
      var front, last := commits[..|commits| - 1], commits[|commits| - 1];
      SerialRunIsSerial(db, front);
      assert Ops(commits) == Ops(front) + [last.op];
      SerialSnoc(db, Ops(front), last.op);
    }
  }

  // ---- Invariant ----

  /** `row` is what `op` makes of the committed reservation, as long as nobody else settled it. */
  ghost predicate RowFits(db: Db, op: Op, row: Row) {
    && row.eventId in db.events
    && if op.cmd.Reserve? then
         && ValidReserve(op.cmd, op.env)
         && op.env.now >= db.events[row.eventId].saleOpensAt
         && row == NewRow(op.cmd, op.env, db.events[row.eventId].priceCents)
       else
         && op.cmd.rid != "" && op.cmd.rid in db.reservations && row.id == op.cmd.rid
         && row.version == 2
         && var r := db.reservations[op.cmd.rid];
            && r.eventId == row.eventId && r.quantity == row.quantity && r.userId == row.userId
            && (r.version == 1 ==> Transition(r, op.cmd.to, op.env.now) == Ok(row))
  }

  ghost predicate PhaseInv(s: State, t: TxId, op: Op, p: Phase) {
    match p
    case Begun => true
    case Checked => op.cmd.Reserve? && ValidReserve(op.cmd, op.env)
    case Loaded(row) => RowFits(s.db, op, row)
    case Locked(row, ev) =>
      RowFits(s.db, op, row) && HasEventLock(s, t, op, row, ev)
    case Written(row, ev) =>
      RowFits(s.db, op, row) && HasEventLock(s, t, op, row, ev) && HasRowLock(s, t, op, row)
    case Enqueued(row, ev) =>
      RowFits(s.db, op, row) && HasEventLock(s, t, op, row, ev) && HasRowLock(s, t, op, row)
    case ReplayDone => op.cmd.rid != "" && ReplaySettled(s.db, op)
    case Aborted(_) => true
  }

  ghost predicate HasEventLock(s: State, t: TxId, op: Op, row: Row, ev: EventRow) {
    && row.eventId in s.db.events
    && row.eventId in s.eventLock && s.eventLock[row.eventId] == t
    && CountersUpdate(s.db.events[row.eventId], op, row.quantity) == Ok(ev)
  }

  ghost predicate HasRowLock(s: State, t: TxId, op: Op, row: Row) {
    && row.id in s.rowLock && s.rowLock[row.id] == t
    && (if op.cmd.Reserve? then SqlInsert(s.db.reservations, row) else SqlUpdate(s.db.reservations, row)) == None
  }

  ghost predicate ReplaySettled(db: Db, op: Op) {
    if op.cmd.Reserve? then ValidReserve(op.cmd, op.env) && op.cmd.rid in db.reservations
    else op.cmd.rid in db.reservations && Settled(db.reservations[op.cmd.rid], op.cmd.to).Some?
         && Settled(db.reservations[op.cmd.rid], op.cmd.to).value.Replayed?
  }

  ghost predicate LocksInv(s: State) {
    && (forall e :: e in s.eventLock ==> s.eventLock[e] in s.txns && HoldsEvent(s.txns[s.eventLock[e]], e))
    && (forall k :: k in s.rowLock ==> s.rowLock[k] in s.txns && HoldsRow(s.txns[s.rowLock[k]], k))
  }

  ghost predicate TxnsInv(s: State) {
    forall t :: t in s.txns && s.txns[t].UseCase? ==> PhaseInv(s, t, s.txns[t].op, s.txns[t].phase)
  }

  ghost predicate Inv(db0: Db, s: State) {
    && SerialRun(db0, s.commits) == Some(s.db)
    && LedgerInv(s.db)
    && LocksInv(s)
    && TxnsInv(s)
  }

  // ---- Preservation ----

  /** At its commit, a writing use case does what its serial execution would do now. */
  lemma CommitIsExec(s: State, t: TxId)
    requires LedgerInv(s.db) && TxnsInv(s) && t in s.txns && s.txns[t].UseCase? && s.txns[t].phase.Enqueued?
    ensures var row, ev := s.txns[t].phase.row, s.txns[t].phase.ev;
            Exec(s.db, s.txns[t].op) == Applied(Write(s.db, ev, row), row)
  {
    var op, row, ev := s.txns[t].op, s.txns[t].phase.row, s.txns[t].phase.ev;
    assert PhaseInv(s, t, op, Enqueued(row, ev));
  }

  lemma ReplayIsExec(s: State, t: TxId)
    requires TxnsInv(s) && t in s.txns && s.txns[t].UseCase? && s.txns[t].phase == ReplayDone
    ensures Exec(s.db, s.txns[t].op).Replayed?
  {
    assert PhaseInv(s, t, s.txns[t].op, ReplayDone);
  }

  /** Ending one transaction without writing disturbs no other. */
  lemma EndKeepsInv(db0: Db, s: State, t: TxId)
    requires Inv(db0, s) && t in s.txns
    ensures Inv(db0, End(s, t))
  {
    var s' := End(s, t);
    forall u | u in s'.txns && s'.txns[u].UseCase?
      ensures PhaseInv(s', u, s'.txns[u].op, s'.txns[u].phase)
    {
      assert PhaseInv(s, u, s.txns[u].op, s.txns[u].phase);
    }
  }

  lemma WriteKeepsFit(db: Db, ev: EventRow, r: Row, op: Op, row: Row)
    requires LedgerInv(db) && Writes(db, ev, r) && RowFits(db, op, row)
    ensures RowFits(Write(db, ev, r), op, row)
  {
  }

  /** What a commit writes, seen from outside: its own event and its own reservation only. */
  lemma CommitWrites(s: State, t: TxId)
    requires LedgerInv(s.db) && TxnsInv(s)
    requires t in s.txns && s.txns[t].UseCase? && s.txns[t].phase.Enqueued?
    ensures Writes(s.db, s.txns[t].phase.ev, s.txns[t].phase.row)
    ensures HasEventLock(s, t, s.txns[t].op, s.txns[t].phase.row, s.txns[t].phase.ev)
    ensures HasRowLock(s, t, s.txns[t].op, s.txns[t].phase.row)
  {
    var op, row, ev := s.txns[t].op, s.txns[t].phase.row, s.txns[t].phase.ev;
    assert PhaseInv(s, t, op, Enqueued(row, ev));
  }

  ghost function Committed(s: State, t: TxId): State
    requires t in s.txns && s.txns[t].UseCase? && s.txns[t].phase.Enqueued?
  {
    End(s, t).(db := Write(s.db, s.txns[t].phase.ev, s.txns[t].phase.row))
  }

  lemma CommitKeepsEventLockOf(s: State, t: TxId, u: TxId, op: Op, row: Row, ev: EventRow)
    requires LedgerInv(s.db) && TxnsInv(s) && u != t
    requires t in s.txns && s.txns[t].UseCase? && s.txns[t].phase.Enqueued?
    requires HasEventLock(s, u, op, row, ev)
    ensures HasEventLock(Committed(s, t), u, op, row, ev)
    ensures s.txns[t].phase.row.eventId != row.eventId
  {
    CommitWrites(s, t);
  }

  /** Writing one row keeps the other's unique keys free and its version in place. */
  lemma WriteKeepsFree(rows: map<Id, Row>, r: Row, op: Op, row: Row)
    requires r.id != row.id && r.eventId != row.eventId
    requires r.id in rows ==> rows[r.id].eventId == r.eventId
    requires (if op.cmd.Reserve? then SqlInsert(rows, row) else SqlUpdate(rows, row)) == None
    ensures (if op.cmd.Reserve? then SqlInsert(rows[r.id := r], row) else SqlUpdate(rows[r.id := r], row)) == None
  {
    assert forall k :: k in rows[r.id := r] && k != r.id ==> k in rows && rows[r.id := r][k] == rows[k];
  }

  lemma CommitKeepsRowLockOf(s: State, t: TxId, u: TxId, op: Op, row: Row)
    requires LedgerInv(s.db) && TxnsInv(s) && u != t
    requires t in s.txns && s.txns[t].UseCase? && s.txns[t].phase.Enqueued?
    requires s.txns[t].phase.row.eventId != row.eventId && HasRowLock(s, u, op, row)
    ensures HasRowLock(Committed(s, t), u, op, row)
  {
    CommitWrites(s, t);
    WriteKeepsFree(s.db.reservations, s.txns[t].phase.row, op, row);
  }

  /** A commit leaves every other transaction's knowledge true: it changed only rows it had locked. */
  lemma CommitKeepsOther(s: State, t: TxId, u: TxId)
    requires LedgerInv(s.db) && TxnsInv(s)
    requires t in s.txns && s.txns[t].UseCase? && s.txns[t].phase.Enqueued?
    requires u in s.txns && u != t && s.txns[u].UseCase?
    ensures PhaseInv(Committed(s, t), u, s.txns[u].op, s.txns[u].phase)
  {
    var op, p := s.txns[u].op, s.txns[u].phase;
    assert PhaseInv(s, u, op, p);
    CommitWrites(s, t);
    if p.Loaded? || p.Locked? || p.Written? || p.Enqueued? {
      WriteKeepsFit(s.db, s.txns[t].phase.ev, s.txns[t].phase.row, op, p.row);
      if !p.Loaded? {
        CommitKeepsEventLockOf(s, t, u, op, p.row, p.ev);
        if !p.Locked? {
          CommitKeepsRowLockOf(s, t, u, op, p.row);
        }
      }
    }
  }

  lemma CommitStep(s: State, t: TxId)
    requires t in s.txns && s.txns[t].UseCase? && s.txns[t].phase.Enqueued?
    ensures Next(s, Step(t)) == Committed(s, t).(commits := s.commits + [Commit(s.txns[t].op, true)])
  {
    var op, row, ev := s.txns[t].op, s.txns[t].phase.row, s.txns[t].phase.ev;
    assert s.txns[t] == UseCase(op, Enqueued(row, ev));
  }

  lemma CommitKeepsLocks(s: State, t: TxId)
    requires LocksInv(s) && t in s.txns && s.txns[t].UseCase? && s.txns[t].phase.Enqueued?
    ensures LocksInv(Committed(s, t))
  {
  }

  lemma CommitKeepsLedger(s: State, t: TxId)
    requires LedgerInv(s.db) && TxnsInv(s)
    requires t in s.txns && s.txns[t].UseCase? && s.txns[t].phase.Enqueued?
    ensures LedgerInv(Committed(s, t).db)
  {
    CommitWrites(s, t);
    WriteKeepsLedger(s.db, s.txns[t].phase.ev, s.txns[t].phase.row);
  }

  lemma CommitKeepsSerial(db0: Db, s: State, t: TxId)
    requires SerialRun(db0, s.commits) == Some(s.db) && LedgerInv(s.db) && TxnsInv(s)
    requires t in s.txns && s.txns[t].UseCase? && s.txns[t].phase.Enqueued?
    ensures SerialRun(db0, s.commits + [Commit(s.txns[t].op, true)]) == Some(Committed(s, t).db)
  {
    CommitIsExec(s, t);
    SerialRunSnoc(db0, s.commits, Commit(s.txns[t].op, true), s.db, Committed(s, t).db);
  }

  lemma CommitKeepsTxns(s: State, t: TxId)
    requires LedgerInv(s.db) && TxnsInv(s)
    requires t in s.txns && s.txns[t].UseCase? && s.txns[t].phase.Enqueued?
    ensures TxnsInv(Committed(s, t))
  {
    var s' := Committed(s, t);
    forall u | u in s'.txns && s'.txns[u].UseCase?
      ensures PhaseInv(s', u, s'.txns[u].op, s'.txns[u].phase)
    {
      CommitKeepsOther(s, t, u);
    }
  }

  /** The commit log matters to no lock and no transaction. */
  lemma Logged(db0: Db, s: State, commits: seq<Commit>)
    requires LocksInv(s) && TxnsInv(s) && LedgerInv(s.db) && SerialRun(db0, commits) == Some(s.db)
    ensures Inv(db0, s.(commits := commits))
  {
    var s' := s.(commits := commits);
    forall u | u in s'.txns && s'.txns[u].UseCase?
      ensures PhaseInv(s', u, s'.txns[u].op, s'.txns[u].phase)
    {
      SamePhaseInv(s, s', u);
    }
  }

  lemma CommitKeepsInv(db0: Db, s: State, t: TxId)
    requires Inv(db0, s) && t in s.txns && s.txns[t].UseCase? && s.txns[t].phase.Enqueued?
    ensures Inv(db0, Next(s, Step(t)))
  {
    CommitKeepsSerial(db0, s, t);
    CommitKeepsLedger(s, t);
    CommitKeepsLocks(s, t);
    CommitKeepsTxns(s, t);
    CommitStep(s, t);
    Logged(db0, Committed(s, t), s.commits + [Commit(s.txns[t].op, true)]);
  }

  /** Only the database and the lock tables matter to what a transaction knows. */
  lemma SamePhaseInv(s: State, s': State, u: TxId)
    requires u in s.txns && s.txns[u].UseCase? && PhaseInv(s, u, s.txns[u].op, s.txns[u].phase)
    requires s'.db == s.db && s'.eventLock == s.eventLock && s'.rowLock == s.rowLock
    ensures PhaseInv(s', u, s.txns[u].op, s.txns[u].phase)
  {
  }

  lemma ReplayKeepsInv(db0: Db, s: State, t: TxId)
    requires Inv(db0, s) && t in s.txns && s.txns[t].UseCase? && s.txns[t].phase == ReplayDone
    ensures Inv(db0, Next(s, Step(t)))
  {
    ReplayIsExec(s, t);
    EndKeepsInv(db0, s, t);
    SerialRunSnoc(db0, s.commits, Commit(s.txns[t].op, false), s.db, s.db);
    Logged(db0, End(s, t), s.commits + [Commit(s.txns[t].op, false)]);
  }

  lemma UpdateEventKnows(s: State, t: TxId)
    requires LedgerInv(s.db) && TxnsInv(s) && Enabled(s, Step(t)) && s.txns[t].UseCase? && s.txns[t].phase.Loaded?
    ensures var s' := Next(s, Step(t)); PhaseInv(s', t, s.txns[t].op, s'.txns[t].phase)
  {
    assert PhaseInv(s, t, s.txns[t].op, s.txns[t].phase);
  }

  lemma WriteRowKnows(s: State, t: TxId)
    requires LedgerInv(s.db) && TxnsInv(s) && Enabled(s, Step(t)) && s.txns[t].UseCase? && s.txns[t].phase.Locked?
    ensures var s' := Next(s, Step(t)); PhaseInv(s', t, s.txns[t].op, s'.txns[t].phase)
  {
    var op, row, ev := s.txns[t].op, s.txns[t].phase.row, s.txns[t].phase.ev;
    assert PhaseInv(s, t, op, Locked(row, ev));
    var s' := Next(s, Step(t));
    if s'.txns[t].phase.Written? {
      assert HasEventLock(s', t, op, row, ev);
      assert HasRowLock(s', t, op, row);
    }
  }

  /** The next step is a statement, not the end of the transaction. */
  predicate AtStatement(p: Phase) {
    p.Begun? || p.Checked? || p.Loaded? || p.Locked? || p.Written?
  }

  lemma FirstReadKnows(s: State, t: TxId)
    requires LedgerInv(s.db) && Enabled(s, Step(t)) && s.txns[t].UseCase? && s.txns[t].phase.Begun?
    ensures var s' := Next(s, Step(t)); PhaseInv(s', t, s.txns[t].op, s'.txns[t].phase)
  {
    FirstReadFits(s.db, s.txns[t].op);
  }

  lemma ReadEventKnows(s: State, t: TxId)
    requires TxnsInv(s) && Enabled(s, Step(t)) && s.txns[t].UseCase? && s.txns[t].phase.Checked?
    ensures var s' := Next(s, Step(t)); PhaseInv(s', t, s.txns[t].op, s'.txns[t].phase)
  {
    assert PhaseInv(s, t, s.txns[t].op, Checked);
  }

  lemma EnqueueKnows(s: State, t: TxId)
    requires TxnsInv(s) && Enabled(s, Step(t)) && s.txns[t].UseCase? && s.txns[t].phase.Written?
    ensures var s' := Next(s, Step(t)); PhaseInv(s', t, s.txns[t].op, s'.txns[t].phase)
  {
    var op, row, ev := s.txns[t].op, s.txns[t].phase.row, s.txns[t].phase.ev;
    assert PhaseInv(s, t, op, Written(row, ev));
  }

  /** The mover's own statement: its conditions were checked on committed data under its locks. */
  lemma StatementKnows(s: State, t: TxId)
    requires LedgerInv(s.db) && TxnsInv(s) && Enabled(s, Step(t)) && s.txns[t].UseCase?
    requires AtStatement(s.txns[t].phase)
    ensures var s' := Next(s, Step(t)); PhaseInv(s', t, s.txns[t].op, s'.txns[t].phase)
  {
    match s.txns[t].phase {
      case Begun => FirstReadKnows(s, t);
      case Checked => ReadEventKnows(s, t);
      case Loaded(_) => UpdateEventKnows(s, t);
      case Locked(_, _) => WriteRowKnows(s, t);
      case Written(_, _) => EnqueueKnows(s, t);
    }
  }

  lemma FirstReadFits(db: Db, op: Op)
    requires LedgerInv(db)
    ensures FirstRead(db, op).Loaded? ==> RowFits(db, op, FirstRead(db, op).row)
    ensures FirstRead(db, op).ReplayDone? ==> op.cmd.rid != "" && ReplaySettled(db, op)
    ensures FirstRead(db, op).Checked? ==> op.cmd.Reserve? && ValidReserve(op.cmd, op.env)
  {
  }

  /** Another transaction's statement takes only free locks, so it disturbs nobody. */
  lemma StatementKeepsOther(s: State, t: TxId, u: TxId)
    requires TxnsInv(s) && Enabled(s, Step(t)) && s.txns[t].UseCase?
    requires AtStatement(s.txns[t].phase)
    requires u in s.txns && u != t && s.txns[u].UseCase?
    ensures var s' := Next(s, Step(t));
            u in s'.txns && s'.txns[u] == s.txns[u] && PhaseInv(s', u, s.txns[u].op, s.txns[u].phase)
  {
    var s' := Next(s, Step(t));
    var op, p := s.txns[u].op, s.txns[u].phase;
    assert PhaseInv(s, u, op, p);
    assert s'.db == s.db;
    assert forall e :: e in s.eventLock ==> e in s'.eventLock && s'.eventLock[e] == s.eventLock[e];
    assert forall k :: k in s.rowLock ==> k in s'.rowLock && s'.rowLock[k] == s.rowLock[k];
  }

  /** A statement writes nothing that others can see, and moves only its own transaction. */
  lemma StatementReads(s: State, t: TxId)
    requires Enabled(s, Step(t)) && s.txns[t].UseCase? && AtStatement(s.txns[t].phase)
    ensures var s' := Next(s, Step(t));
            && s'.db == s.db && s'.commits == s.commits
            && t in s'.txns && s'.txns[t].UseCase? && s'.txns == s.txns[t := s'.txns[t]]
            && s'.txns[t].op == s.txns[t].op
  {
  }

  /** It takes at most one lock, which is free, and gives none back. */
  lemma StatementTakesEvent(s: State, t: TxId)
    requires Enabled(s, Step(t)) && s.txns[t].UseCase? && AtStatement(s.txns[t].phase)
    ensures var s', p := Next(s, Step(t)), s.txns[t].phase;
            s'.eventLock == if s'.txns[t].phase.Locked? then s.eventLock[p.row.eventId := t] else s.eventLock
  {
  }

  lemma StatementTakesRow(s: State, t: TxId)
    requires Enabled(s, Step(t)) && s.txns[t].UseCase? && AtStatement(s.txns[t].phase)
    ensures var s', p := Next(s, Step(t)), s.txns[t].phase;
            s'.rowLock == if p.Locked? && s'.txns[t].phase.Written? then s.rowLock[p.row.id := t] else s.rowLock
  {
  }

  /** Whatever a transaction held before its statement, it may still hold. */
  lemma StatementHolds(s: State, t: TxId)
    requires Enabled(s, Step(t)) && s.txns[t].UseCase? && AtStatement(s.txns[t].phase)
    ensures forall e :: HoldsEvent(s.txns[t], e) ==> HoldsEvent(Next(s, Step(t)).txns[t], e)
    ensures forall k :: HoldsRow(s.txns[t], k) ==> HoldsRow(Next(s, Step(t)).txns[t], k)
  {
  }

  lemma StatementKeepsLocks(s: State, t: TxId)
    requires LocksInv(s) && Enabled(s, Step(t)) && s.txns[t].UseCase? && AtStatement(s.txns[t].phase)
    ensures LocksInv(Next(s, Step(t)))
  {
    StatementReads(s, t);
    StatementTakesEvent(s, t);
    StatementTakesRow(s, t);
    StatementHolds(s, t);
  }

  lemma StatementKeepsInv(db0: Db, s: State, t: TxId)
    requires Inv(db0, s) && Enabled(s, Step(t)) && s.txns[t].UseCase?
    requires AtStatement(s.txns[t].phase)
    ensures Inv(db0, Next(s, Step(t)))
  {
    var s' := Next(s, Step(t));
    StatementReads(s, t);
    StatementKeepsLocks(s, t);
    StatementKnows(s, t);
    forall u | u in s'.txns && s'.txns[u].UseCase?
      ensures PhaseInv(s', u, s'.txns[u].op, s'.txns[u].phase)
    {
      if u != t {
        StatementKeepsOther(s, t, u);
      }
    }
  }

  /** A new transaction knows nothing and holds at most free row locks. */
  lemma BeginKeepsTxns(s: State, a: Action)
    requires TxnsInv(s) && Enabled(s, a) && (a.Begin? || a.BeginClaim?)
    ensures TxnsInv(Next(s, a))
  {
    var s' := Next(s, a);
    forall u | u in s'.txns && s'.txns[u].UseCase?
      ensures PhaseInv(s', u, s'.txns[u].op, s'.txns[u].phase)
    {
      if u != a.t {
        assert PhaseInv(s, u, s.txns[u].op, s.txns[u].phase);
      }
    }
  }

  lemma BeginKeepsLocks(s: State, a: Action)
    requires LocksInv(s) && Enabled(s, a) && (a.Begin? || a.BeginClaim?)
    ensures LocksInv(Next(s, a))
  {
  }

  lemma BeginKeepsInv(db0: Db, s: State, a: Action)
    requires Inv(db0, s) && Enabled(s, a) && (a.Begin? || a.BeginClaim?)
    ensures Inv(db0, Next(s, a))
  {
    BeginKeepsTxns(s, a);
    BeginKeepsLocks(s, a);
  }

  lemma StepKeepsInv(db0: Db, s: State, a: Action)
    requires Inv(db0, s) && Enabled(s, a)
    ensures Inv(db0, Next(s, a))
  {
    if a.Begin? || a.BeginClaim? {
      BeginKeepsInv(db0, s, a);
    } else if a.Rollback? || s.txns[a.t].Claim? || s.txns[a.t].phase.Aborted? {
      EndKeepsInv(db0, s, a.t);
    } else if s.txns[a.t].phase.Enqueued? {
      CommitKeepsInv(db0, s, a.t);
    } else if s.txns[a.t].phase.ReplayDone? {
      ReplayKeepsInv(db0, s, a.t);
    } else {
      StatementKeepsInv(db0, s, a.t);
    }
  }

  lemma {:induction false} ReachableInv(db0: Db, trace: seq<Action>)
    requires LedgerInv(db0) && Run(db0, trace).Some?
    ensures Inv(db0, Run(db0, trace).value)
    decreases |trace|
  {
    if trace != [] {
      var front := trace[..|trace| - 1];
      ReachableInv(db0, front);
      StepKeepsInv(db0, Run(db0, front).value, trace[|trace| - 1]);
    }
  }

  // ---- Results ----

  /**
   Refinement: whatever the interleaving, crashes and rollbacks, the committed database is
   the serial run of just the committed use cases, in commit order, none of which fails.
   */
  lemma InterleavingRefinesSerial(db0: Db, trace: seq<Action>, s: State)
    requires LedgerInv(db0) && Run(db0, trace) == Some(s)
    ensures s.db == Serial(db0, Ops(s.commits))
    ensures SerialRun(db0, s.commits) == Some(s.db)
    ensures LedgerInv(s.db)
  {
    ReachableInv(db0, trace);
    SerialRunIsSerial(db0, s.commits);
  }

  /** The outbox rebuilds counters and statuses in every reachable committed state as well. */
  lemma InterleavedOutboxIsLedger(db0: Db, trace: seq<Action>, s: State)
    requires Seeded(db0) && Run(db0, trace) == Some(s)
    ensures OutboxInv(s.db) && TicketsTrue(s.db)
  {
    SeededLedger(db0);
    InterleavingRefinesSerial(db0, trace, s);
    OutboxIsLedger(db0, Ops(s.commits));
  }

  /** Only a commit changes the database. */
  lemma OnlyCommitsWrite(s: State, a: Action)
    requires Enabled(s, a)
    requires a.Step? && s.txns[a.t].UseCase? ==> !s.txns[a.t].phase.Enqueued?
    ensures Next(s, a).db == s.db
  {
  }

  lemma EvolvesReflexive(db: Db)
    ensures Evolves(db, db)
  {
  }

  lemma NextEvolves(db0: Db, s: State, a: Action)
    requires LedgerInv(s.db) && TxnsInv(s) && Enabled(s, a)
    ensures Evolves(s.db, Next(s, a).db)
  {
    if a.Step? && s.txns[a.t].UseCase? && s.txns[a.t].phase.Enqueued? {
      CommitIsExec(s, a.t);
      ExecEvolves(s.db, s.txns[a.t].op);
    } else {
      OnlyCommitsWrite(s, a);
      EvolvesReflexive(s.db);
    }
  }

  /**
   Between any two moments of any interleaving: no committed row or ticket is lost, terms never
   change, a terminal reservation never changes at all.
   */
  lemma {:induction false} InterleavingEvolves(db0: Db, trace: seq<Action>, n: nat)
    requires LedgerInv(db0) && n <= |trace| && Run(db0, trace).Some?
    ensures Run(db0, trace[..n]).Some? && Evolves(Run(db0, trace[..n]).value.db, Run(db0, trace).value.db)
    decreases |trace|
  {
    if n == |trace| {
      assert trace[..n] == trace;
    } else {
      var front := trace[..|trace| - 1];
      assert front[..n] == trace[..n];
      InterleavingEvolves(db0, front, n);
      ReachableInv(db0, front);
      NextEvolves(db0, Run(db0, front).value, trace[|trace| - 1]);
      EvolvesTransitive(Run(db0, trace[..n]).value.db, Run(db0, front).value.db, Run(db0, trace).value.db);
    }
  }

  /** In every reachable committed state the version is the state machine. */
  lemma VersionIsStateMachine(db0: Db, trace: seq<Action>, s: State, k: Id)
    requires LedgerInv(db0) && Run(db0, trace) == Some(s) && k in s.db.reservations
    ensures var r := s.db.reservations[k];
            && r.version == (if r.status == Pending then 1 else 2)
            && r.confirmedAt == (if r.status == Confirmed then Some(r.updatedAt) else None)
            && (r.status == Expired ==> r.updatedAt > r.expiresAt)
  {
    ReachableInv(db0, trace);
    assert RowInv(k, s.db.reservations[k]);
  }

  /**
   The seat ledger in every reachable committed state: the checks of the inventory query, and
   one active reservation per user and event.
   */
  lemma SeatLedger(db0: Db, trace: seq<Action>, s: State)
    requires Seeded(db0) && Run(db0, trace) == Some(s)
    ensures forall e :: e in s.db.events ==>
              && s.db.events[e].reserved == Sum(s.db.reservations, InStatus(e, Pending))
              && s.db.events[e].sold == Sum(s.db.reservations, InStatus(e, Confirmed))
              && s.db.events[e].reserved + s.db.events[e].sold <= s.db.events[e].capacity
    ensures OneActiveInv(s.db)
  {
    SeededLedger(db0);
    ReachableInv(db0, trace);
  }

  /**
   A counter guard that fails means a lost race: the reservation was settled by someone
   else since it was read, so the version check would fail as well.
   */
  lemma GuardErrorMeansLostRace(db0: Db, trace: seq<Action>, s: State, t: TxId)
    requires LedgerInv(db0) && Run(db0, trace) == Some(s)
    requires t in s.txns && s.txns[t].UseCase? && s.txns[t].phase.Loaded? && s.txns[t].op.cmd.Settle?
    requires UpdateEvent(s.db, s.txns[t].op, s.txns[t].phase.row).Aborted?
    ensures UpdateEvent(s.db, s.txns[t].op, s.txns[t].phase.row) == Aborted(NotEnoughReserved)
    ensures SqlUpdate(s.db.reservations, s.txns[t].phase.row) == Some(Conflict)
    ensures s.txns[t].op.cmd.rid in s.db.reservations && s.db.reservations[s.txns[t].op.cmd.rid].status != Pending
  {
    ReachableInv(db0, trace);
    var op, row := s.txns[t].op, s.txns[t].phase.row;
    assert PhaseInv(s, t, op, Loaded(row));
    CountersCoverRows(s.db, op.cmd.rid);
  }

  /** A transaction whose reservation was settled by someone else never gets past the version check. */
  lemma LostRaceNeverCommits(db0: Db, trace: seq<Action>, s: State, t: TxId)
    requires LedgerInv(db0) && Run(db0, trace) == Some(s)
    requires t in s.txns && s.txns[t].UseCase? && s.txns[t].op.cmd.Settle?
    requires s.txns[t].op.cmd.rid in s.db.reservations && s.db.reservations[s.txns[t].op.cmd.rid].status != Pending
    ensures !s.txns[t].phase.Written? && !s.txns[t].phase.Enqueued?
  {
    ReachableInv(db0, trace);
    assert PhaseInv(s, t, s.txns[t].op, s.txns[t].phase);
  }

  /** The next statement of `t` fails with `e`. */
  ghost predicate Fails(s: State, t: TxId, e: CoreError) {
    && t in s.txns && s.txns[t].UseCase? && !s.txns[t].phase.Aborted? && Enabled(s, Step(t))
    && t in Next(s, Step(t)).txns && Next(s, Step(t)).txns[t] == UseCase(s.txns[t].op, Aborted(e))
  }

  /** The reservation `op` set out to settle was settled by someone else in the meantime. */
  ghost predicate LostRace(db: Db, op: Op) {
    && op.cmd.Settle? && op.cmd.rid in db.reservations && db.reservations[op.cmd.rid].status != Pending
  }

  /**
   `e` is the error the serial execution of `op` reports on `db`, unless somebody else did its
   work since it began (serially it would now be a replay), or settled its reservation.
   */
  ghost predicate Explained(db: Db, op: Op, e: CoreError) {
    || Exec(db, op) == Rejected(e)
    || Exec(db, op).Replayed?
    || (e in {NotEnoughReserved, Conflict} && LostRace(db, op))
  }

  lemma ReadFails(db: Db, op: Op, e: CoreError)
    ensures FirstRead(db, op) == Aborted(e) ==> Exec(db, op) == Rejected(e)
    ensures op.cmd.Reserve? && ValidReserve(op.cmd, op.env) && ReadEvent(db, op) == Aborted(e) ==> Explained(db, op, e)
  {
  }

  lemma ReserveUpdateFails(db: Db, op: Op, row: Row, e: CoreError)
    requires op.cmd.Reserve? && RowFits(db, op, row) && UpdateEvent(db, op, row) == Aborted(e)
    ensures Explained(db, op, e)
  {
  }

  lemma SettleUpdateFails(db: Db, op: Op, row: Row, e: CoreError)
    requires LedgerInv(db) && op.cmd.Settle? && RowFits(db, op, row) && UpdateEvent(db, op, row) == Aborted(e)
    ensures Explained(db, op, e)
  {
    CountersCoverRows(db, op.cmd.rid);
  }

  lemma WriteFails(db: Db, op: Op, row: Row, ev: EventRow, e: CoreError)
    requires LedgerInv(db) && RowFits(db, op, row) && WriteRow(db, op, row, ev) == Aborted(e)
    requires CountersUpdate(db.events[row.eventId], op, row.quantity) == Ok(ev)
    ensures Explained(db, op, e)
  {
    if op.cmd.Reserve? {
      assert SqlInsert(db.reservations, row) == Some(e);
    }
  }

  lemma FailureIsExplained(s: State, t: TxId, e: CoreError)
    requires LedgerInv(s.db) && TxnsInv(s) && Fails(s, t, e)
    ensures Explained(s.db, s.txns[t].op, e)
  {
    var op, p := s.txns[t].op, s.txns[t].phase;
    assert PhaseInv(s, t, op, p);
    match p {
      case Begun => ReadFails(s.db, op, e);
      case Checked => ReadFails(s.db, op, e);
      case Loaded(row) =>
        if op.cmd.Reserve? {
          ReserveUpdateFails(s.db, op, row, e);
        } else {
          SettleUpdateFails(s.db, op, row, e);
        }
      case Locked(row, ev) => WriteFails(s.db, op, row, ev, e);
      case _ =>
    }
  }

  /** Whatever error an aborted use case reports, in any interleaving, is explained. */
  lemma AbortIsExplained(db0: Db, trace: seq<Action>, s: State, t: TxId, e: CoreError)
    requires LedgerInv(db0) && Run(db0, trace) == Some(s) && Fails(s, t, e)
    ensures Explained(s.db, s.txns[t].op, e)
  {
    ReachableInv(db0, trace);
    FailureIsExplained(s, t, e);
  }

  lemma OnlyReservesSellOut(s: State, t: TxId)
    requires TxnsInv(s) && Fails(s, t, SoldOut)
    ensures s.txns[t].op.cmd.Reserve?
  {
    assert PhaseInv(s, t, s.txns[t].op, s.txns[t].phase);
  }

  /**
   Sold out, the one error that is acknowledged, is only ever reported of a reserve command
   whose serial execution is rejected as sold out too, because the PENDING and CONFIRMED
   quantities leave no room for it, or has become a replay.
   */
  lemma SoldOutIsSerial(db0: Db, trace: seq<Action>, s: State, t: TxId)
    requires LedgerInv(db0) && Run(db0, trace) == Some(s) && Fails(s, t, SoldOut)
    ensures var op := s.txns[t].op;
            && op.cmd.Reserve?
            && (|| (Exec(s.db, op) == Rejected(SoldOut) && Full(s.db, op.cmd.eid, op.cmd.quantity))
                || Exec(s.db, op).Replayed?)
  {
    AbortIsExplained(db0, trace, s, t, SoldOut);
    ReachableInv(db0, trace);
    OnlyReservesSellOut(s, t);
    SoldOutIff(s.db, s.txns[t].op);
  }

  /**
   No deadlock: event rows are locked before reservation keys and the sweeper never waits,
   so while transactions are open at least one of them can take its next step.
   */
  lemma NoDeadlock(db0: Db, trace: seq<Action>, s: State) returns (t: TxId)
    requires LedgerInv(db0) && Run(db0, trace) == Some(s) && s.txns != map[]
    ensures Enabled(s, Step(t))
  {
    ReachableInv(db0, trace);
    if u :| u in s.txns && s.txns[u].UseCase? && (s.txns[u].phase.Written? || s.txns[u].phase.Enqueued?) {
      t := u;
    } else if s.rowLock != map[] {
      var k :| k in s.rowLock;
      t := s.rowLock[k];
    } else if s.eventLock != map[] {
      var e :| e in s.eventLock;
      t := s.eventLock[e];
    } else {
      t :| t in s.txns;
    }
  }
}
