/**
 The saga over a core that runs its use cases statement by statement: every delivery begins a
 transaction, any number of them are in flight, and a handler answers when its own has ended.
 It refines `Saga`, in which each use case takes effect in one step.
 */
module Concurrent {
  import opened Common
  import C = CoreModel
  import L = CoreLedger
  import CoreLaws
  import P = Payment
  import I = Interleaving
  import S = Saga
  import A = Answers

  /** What a use-case transaction was begun for. */
  datatype Job = Message(i: nat) | Cancellation

  /** `world` is everything around the core server; its `core` is what the server has committed. */
  datatype State = State(world: S.State, server: I.State, jobs: map<I.TxId, Job>)

  datatype Action =
    | Elsewhere(a: S.Action)                            // gateway, relays, sweeps, payments, broker
    | Deliver(i: nat, t: I.TxId, env: C.Env)            // a handler starts its transaction
    | Cancel(rid: Id, t: I.TxId, env: C.Env)            // a user cancels
    | Claim(t: I.TxId, rows: set<Id>, now: Time)        // the sweeper's locking read
    | Step(t: I.TxId, answered: bool)                   // the next statement, or the end and its answer
    | Crash(t: I.TxId)

  function OpOf(s: State, i: nat, env: C.Env): C.Op
    requires i < |s.world.stream| && S.CommandOf(s.world.stream[i].msg).Some?
  {
    C.Op(S.CommandOf(s.world.stream[i].msg).value, env)
  }

  ghost predicate Enabled(s: State, a: Action, maxDeliver: nat) {
    match a
    case Elsewhere(b) => !b.DeliverCore? && !b.Work? && !b.UserCancel? && S.Enabled(s.world, b, maxDeliver)
    case Deliver(i, t, env) =>
      && S.Deliverable(s.world, i, maxDeliver) && S.CommandOf(s.world.stream[i].msg).Some?
      && I.Enabled(s.server, I.Begin(t, OpOf(s, i, env)))
    case Cancel(rid, t, env) => I.Enabled(s.server, I.Begin(t, C.Op(C.Settle(rid, C.Cancelled), env)))
    case Claim(t, rows, now) => I.Enabled(s.server, I.BeginClaim(t, rows, now))
    case Step(t, _) => I.Enabled(s.server, I.Step(t))
    case Crash(t) => I.Enabled(s.server, I.Rollback(t))
  }

  /** The transaction of message `m` is over and its handler returns no error, if it gets that far. */
  predicate Returns(m: S.Msg, p: I.Phase) {
    || p.Enqueued? || p.ReplayDone?
    || (p.Aborted? && m.ReserveCmd? && S.TerminalRejection(p.error))
  }

  /** The server made a step of transaction `t`; jobs end with their transactions. */
  ghost function Served(s: State, t: I.TxId, server': I.State, handled': set<nat>): State {
    State(s.world.(core := server'.db, handled := handled'), server',
          if t in server'.txns then s.jobs else s.jobs - {t})
  }

  ghost predicate AnsweredBy(s: State, t: I.TxId) {
    && t in s.jobs && s.jobs[t].Message? && s.jobs[t].i < |s.world.stream|
    && t in s.server.txns && s.server.txns[t].UseCase?
    && Returns(s.world.stream[s.jobs[t].i].msg, s.server.txns[t].phase)
  }

  ghost function HandledAfter(s: State, t: I.TxId, answered: bool): set<nat> {
    if answered && AnsweredBy(s, t) then s.world.handled + {s.jobs[t].i} else s.world.handled
  }

  ghost function Next(s: State, a: Action): State
    requires exists n :: Enabled(s, a, n)
  {
    match a
    case Elsewhere(b) => s.(world := S.Next(s.world, b))
    case Deliver(i, t, env) =>
      State(s.world.(stream := S.Delivered(s.world.stream, i)),
            I.Next(s.server, I.Begin(t, OpOf(s, i, env))), s.jobs[t := Message(i)])
    case Cancel(rid, t, env) =>
      s.(server := I.Next(s.server, I.Begin(t, C.Op(C.Settle(rid, C.Cancelled), env))),
         jobs := s.jobs[t := Cancellation])
    case Claim(t, rows, now) => s.(server := I.Next(s.server, I.BeginClaim(t, rows, now)))
    case Step(t, answered) => Served(s, t, I.Next(s.server, I.Step(t)), HandledAfter(s, t, answered))
    case Crash(t) => Served(s, t, I.Next(s.server, I.Rollback(t)), s.world.handled)
  }

  function Init(core: C.Db): State {
    State(S.Init(core), I.Init(core), map[])
  }

  ghost function Run(core: C.Db, trace: seq<Action>, maxDeliver: nat): Option<State> {
    if trace == [] then Some(Init(core))
    else
      match Run(core, trace[..|trace| - 1], maxDeliver)
      case None => None
      case Some(p) => if Enabled(p, trace[|trace| - 1], maxDeliver) then Some(Next(p, trace[|trace| - 1])) else None
  }

  // ---- Invariant and abstraction ----

  ghost predicate JobFits(stream: seq<S.Entry>, x: I.Txn, job: Job) {
    && x.UseCase?
    && match job
       case Message(i) =>
         i < |stream| && S.CommandOf(stream[i].msg).Some? && x.op.cmd == S.CommandOf(stream[i].msg).value
       case Cancellation => x.op.cmd.Settle? && x.op.cmd.to == C.Cancelled
  }

  ghost predicate JobsInv(stream: seq<S.Entry>, txns: map<I.TxId, I.Txn>, jobs: map<I.TxId, Job>) {
    && (forall t :: t in jobs ==> t in txns && JobFits(stream, txns[t], jobs[t]))
    && (forall t :: t in txns && txns[t].UseCase? ==> t in jobs)
  }

  ghost predicate Inv(core0: C.Db, s: State) {
    && I.Inv(core0, s.server)
    && s.world.core == s.server.db
    && JobsInv(s.world.stream, s.server.txns, s.jobs)
  }

  /** Handlers whose use case has not taken effect and may still do so. */
  function Working(txns: map<I.TxId, I.Txn>, jobs: map<I.TxId, Job>): map<nat, nat> {
    map t | t in jobs && jobs[t].Message? && t in txns && txns[t].UseCase? && !txns[t].phase.Aborted? :: jobs[t].i
  }

  predicate RolledBack(x: I.Txn) {
    x.UseCase? && x.phase.Aborted?
  }

  /** Handlers that will answer without error although their transaction is rolled back count as answered. */
  ghost predicate Rejections(s: State, handled: set<nat>) {
    forall t :: t in s.server.txns && RolledBack(s.server.txns[t]) && AnsweredBy(s, t) ==> s.jobs[t].i in handled
  }

  /** `a` is the saga state that `s` implements. */
  ghost predicate Implements(s: State, a: S.State) {
    && a == s.world.(handled := a.handled, landed := a.landed, applied := a.applied, working := a.working)
    && s.world.handled <= a.handled
    && a.working == Working(s.server.txns, s.jobs)
    && Rejections(s, a.handled)
  }

  // ---- Simulation, action by action ----

  /** What the saga does while the concurrent system makes one step: one step of its own, or none. */
  ghost predicate Follows(a: S.State, x: Option<S.Action>, a': S.State, maxDeliver: nat) {
    if x.None? then a' == a else S.Enabled(a, x.value, maxDeliver) && a' == S.Next(a, x.value)
  }

  lemma GrowingKeepsJobs(
    stream: seq<S.Entry>, stream': seq<S.Entry>, txns: map<I.TxId, I.Txn>, jobs: map<I.TxId, Job>)
    requires JobsInv(stream, txns, jobs) && |stream| <= |stream'|
    requires forall i :: 0 <= i < |stream| ==> stream'[i].msg == stream[i].msg
    ensures JobsInv(stream', txns, jobs)
  {
    forall t | t in jobs ensures t in txns && JobFits(stream', txns[t], jobs[t]) {
      assert JobFits(stream, txns[t], jobs[t]);
    }
  }

  lemma GrowingKeepsRejections(s: State, s': State, handled: set<nat>, handled': set<nat>)
    requires JobsInv(s.world.stream, s.server.txns, s.jobs) && Rejections(s, handled) && handled <= handled'
    requires s'.server == s.server && s'.jobs == s.jobs && |s.world.stream| <= |s'.world.stream|
    requires forall i :: 0 <= i < |s.world.stream| ==> s'.world.stream[i].msg == s.world.stream[i].msg
    ensures Rejections(s', handled')
  {
    forall t | t in s'.server.txns && RolledBack(s'.server.txns[t]) && AnsweredBy(s', t)
      ensures s'.jobs[t].i in handled'
    {
      assert JobFits(s.world.stream, s.server.txns[t], s.jobs[t]);
      assert AnsweredBy(s, t);
    }
  }

  /** Steps elsewhere depend on the answered entries only for acknowledgements, which more answers never disable. */
  lemma ElsewhereAgrees(w: S.State, a: S.State, b: S.Action, maxDeliver: nat)
    requires a == w.(handled := a.handled, landed := a.landed, applied := a.applied, working := a.working)
    requires w.handled <= a.handled
    requires !b.DeliverCore? && !b.Work? && !b.UserCancel? && S.Enabled(w, b, maxDeliver)
    ensures S.Enabled(a, b, maxDeliver)
    ensures var w', a' := S.Next(w, b), S.Next(a, b);
            && a' == w'.(handled := a'.handled, landed := a'.landed, applied := a'.applied, working := a'.working)
            && w'.handled <= a'.handled && a.handled <= a'.handled
            && w'.core == w.core && a'.working == a.working
  {
  }

  lemma ElsewhereSimulates(core0: C.Db, s: State, b: S.Action, a: S.State, maxDeliver: nat)
    requires Inv(core0, s) && Implements(s, a) && Enabled(s, Elsewhere(b), maxDeliver)
    ensures var s' := Next(s, Elsewhere(b));
            Inv(core0, s') && S.Enabled(a, b, maxDeliver) && Implements(s', S.Next(a, b))
  {
    var s' := Next(s, Elsewhere(b));
    ElsewhereAgrees(s.world, a, b, maxDeliver);
    S.StreamGrows(s.world, b, maxDeliver);
    GrowingKeepsJobs(s.world.stream, s'.world.stream, s.server.txns, s.jobs);
    GrowingKeepsRejections(s, s', a.handled, S.Next(a, b).handled);
  }

  /** A new transaction of its own changes no other. */
  lemma BeginSimulates(s: State, x: I.Txn, t: I.TxId, job: Job)
    requires JobsInv(s.world.stream, s.server.txns, s.jobs) && t !in s.server.txns
    requires JobFits(s.world.stream, x, job) && !x.phase.Aborted?
    ensures JobsInv(s.world.stream, s.server.txns[t := x], s.jobs[t := job])
    ensures Working(s.server.txns[t := x], s.jobs[t := job])
         == if job.Message? then Working(s.server.txns, s.jobs)[t := job.i] else Working(s.server.txns, s.jobs)
  {
  }

  lemma BeginKeepsRejections(s: State, s': State, t: I.TxId, handled: set<nat>)
    requires JobsInv(s.world.stream, s.server.txns, s.jobs) && Rejections(s, handled) && t !in s.server.txns
    requires s'.server.txns.Keys == s.server.txns.Keys + {t}
    requires s'.server.txns[t].UseCase? ==> !s'.server.txns[t].phase.Aborted?
    requires forall u :: u in s.server.txns ==> s'.server.txns[u] == s.server.txns[u]
    requires forall u :: u in s.jobs ==> u in s'.jobs && s'.jobs[u] == s.jobs[u]
    requires |s.world.stream| == |s'.world.stream|
    requires forall i :: 0 <= i < |s.world.stream| ==> s'.world.stream[i].msg == s.world.stream[i].msg
    ensures Rejections(s', handled)
  {
    forall u | u in s'.server.txns && RolledBack(s'.server.txns[u]) && AnsweredBy(s', u)
      ensures s'.jobs[u].i in handled
    {
      assert u in s.server.txns && u in s.jobs;
      assert JobFits(s.world.stream, s.server.txns[u], s.jobs[u]);
      assert AnsweredBy(s, u);
    }
  }

  lemma DeliverImplements(s: State, s': State, i: nat, t: I.TxId, x: I.Txn, a: S.State, a': S.State)
    requires JobsInv(s.world.stream, s.server.txns, s.jobs) && Implements(s, a) && t !in s.server.txns
    requires i < |s.world.stream| && S.CommandOf(s.world.stream[i].msg).Some?
    requires x.UseCase? && x.phase.Begun? && x.op.cmd == S.CommandOf(s.world.stream[i].msg).value
    requires s' == State(s.world.(stream := S.Delivered(s.world.stream, i)), s'.server, s.jobs[t := Message(i)])
    requires s'.server.txns == s.server.txns[t := x]
    requires a' == a.(stream := S.Delivered(a.stream, i), working := a.working[t := i])
    ensures JobsInv(s'.world.stream, s'.server.txns, s'.jobs) && Implements(s', a') && t !in a.working
  {
    BeginSimulates(s, x, t, Message(i));
    GrowingKeepsJobs(s.world.stream, s'.world.stream, s'.server.txns, s'.jobs);
    BeginKeepsRejections(s, s', t, a.handled);
  }

  lemma CancelBegins(s: State, s': State, t: I.TxId, x: I.Txn, a: S.State)
    requires JobsInv(s.world.stream, s.server.txns, s.jobs) && Implements(s, a) && t !in s.server.txns
    requires x.UseCase? && x.phase.Begun? && x.op.cmd.Settle? && x.op.cmd.to == C.Cancelled
    requires s' == State(s.world, s'.server, s.jobs[t := Cancellation]) && s'.server.txns == s.server.txns[t := x]
    ensures JobsInv(s'.world.stream, s'.server.txns, s'.jobs) && Implements(s', a)
  {
    BeginSimulates(s, x, t, Cancellation);
    BeginKeepsRejections(s, s', t, a.handled);
  }

  lemma ClaimBegins(s: State, s': State, t: I.TxId, x: I.Txn, a: S.State)
    requires JobsInv(s.world.stream, s.server.txns, s.jobs) && Implements(s, a) && t !in s.server.txns && x.Claim?
    requires s' == State(s.world, s'.server, s.jobs) && s'.server.txns == s.server.txns[t := x]
    ensures JobsInv(s'.world.stream, s'.server.txns, s'.jobs) && Implements(s', a)
  {
    assert t !in s.jobs;
    assert Working(s'.server.txns, s'.jobs) == Working(s.server.txns, s.jobs);
    BeginKeepsRejections(s, s', t, a.handled);
  }

  // ---- Simulation of the server's steps ----

  /** The end of a transaction: its job goes with it, the others stay as they are. */
  lemma EndKeepsJobs(stream: seq<S.Entry>, txns: map<I.TxId, I.Txn>, jobs: map<I.TxId, Job>, t: I.TxId)
    requires JobsInv(stream, txns, jobs)
    ensures JobsInv(stream, txns - {t}, jobs - {t})
    ensures Working(txns - {t}, jobs - {t}) == Working(txns, jobs) - {t}
  {
  }

  lemma EndKeepsRejections(s: State, t: I.TxId, server': I.State, handled': set<nat>, answers: set<nat>)
    requires Rejections(s, answers) && server'.txns == s.server.txns - {t}
    ensures Rejections(Served(s, t, server', handled'), answers)
  {
    var s' := Served(s, t, server', handled');
    forall u | u in s'.server.txns && RolledBack(s'.server.txns[u]) && AnsweredBy(s', u)
      ensures s'.jobs[u].i in answers
    {
      assert AnsweredBy(s, u);
    }
  }

  /** What a commit writes, and what a replay does not write, is the serial outcome at that moment. */
  lemma CommitIsSerial(server: I.State, t: I.TxId)
    requires L.LedgerInv(server.db) && I.TxnsInv(server) && t in server.txns && server.txns[t].UseCase?
    requires server.txns[t].phase.Enqueued? || server.txns[t].phase.ReplayDone?
    ensures !C.Exec(server.db, server.txns[t].op).Rejected?
    ensures I.Next(server, I.Step(t)).db == C.Exec(server.db, server.txns[t].op).After(server.db)
  {
    if server.txns[t].phase.Enqueued? {
      I.CommitIsExec(server, t);
      I.CommitStep(server, t);
    } else {
      I.ReplayIsExec(server, t);
    }
  }

  /** The next step ends the transaction. */
  predicate AtEnd(x: I.Txn) {
    x.Claim? || !I.AtStatement(x.phase)
  }

  lemma EndLeaves(server: I.State, t: I.TxId)
    requires t in server.txns && AtEnd(server.txns[t])
    ensures I.Enabled(server, I.Step(t)) && I.Next(server, I.Step(t)).txns == server.txns - {t}
    ensures I.Enabled(server, I.Rollback(t))
    ensures (RolledBack(server.txns[t]) || server.txns[t].Claim?) ==> I.Next(server, I.Step(t)).db == server.db
  {
  }

  /** The saga's handler `t` does its work now. */
  ghost function WorkedBy(a: S.State, t: nat, env: C.Env, fault: S.Fault): S.State
    requires t in a.working && a.working[t] < |a.stream| && S.CommandOf(a.stream[a.working[t]].msg).Some?
  {
    S.Worked(a, a.working[t], env, fault).(working := a.working - {t})
  }

  lemma WorkingJob(s: State, t: I.TxId, a: S.State)
    requires JobsInv(s.world.stream, s.server.txns, s.jobs) && Implements(s, a)
    requires t in s.jobs && s.jobs[t].Message? && !RolledBack(s.server.txns[t])
    ensures var i := s.jobs[t].i;
            && t in a.working && a.working[t] == i && i < |a.stream| && a.stream == s.world.stream
            && S.CommandOf(a.stream[i].msg) == Some(s.server.txns[t].op.cmd)
  {
    assert JobFits(s.world.stream, s.server.txns[t], s.jobs[t]);
  }

  /** How the saga's bookkeeping moves with one handler's work. */
  lemma WorkMoves(a: S.State, t: nat, op: C.Op, fault: S.Fault)
    requires t in a.working && a.working[t] < |a.stream|
    requires S.CommandOf(a.stream[a.working[t]].msg) == Some(op.cmd)
    ensures var a' := WorkedBy(a, t, op.env, fault);
            && a' == a.(core := a'.core, handled := a'.handled, landed := a'.landed, applied := a'.applied,
                        working := a.working - {t})
            && a'.core == (if fault == S.Lost then a.core else C.Exec(a.core, op).After(a.core))
            && a.handled <= a'.handled
    ensures fault == S.Clean && S.Answered(a.stream[a.working[t]].msg, C.Exec(a.core, op)) ==>
              a.working[t] in WorkedBy(a, t, op.env, fault).handled
  {
  }

  /** A handler's transaction ends with a commit: the saga's handler does its work at that moment. */
  lemma CommitImplements(s: State, t: I.TxId, server': I.State, answered: bool, a: S.State)
    requires JobsInv(s.world.stream, s.server.txns, s.jobs) && s.world.core == s.server.db && Implements(s, a)
    requires t in s.jobs && s.jobs[t].Message? && !RolledBack(s.server.txns[t])
    requires server'.txns == s.server.txns - {t}
    requires !C.Exec(s.server.db, s.server.txns[t].op).Rejected?
    requires server'.db == C.Exec(s.server.db, s.server.txns[t].op).After(s.server.db)
    ensures t in a.working && a.working[t] < |a.stream| && S.CommandOf(a.stream[a.working[t]].msg).Some?
    ensures Implements(Served(s, t, server', HandledAfter(s, t, answered)),
                       WorkedBy(a, t, s.server.txns[t].op.env, if answered then S.Clean else S.Unreported))
  {
    var fault := if answered then S.Clean else S.Unreported;
    var s' := Served(s, t, server', HandledAfter(s, t, answered));
    WorkingJob(s, t, a);
    WorkMoves(a, t, s.server.txns[t].op, fault);
    EndKeepsJobs(s.world.stream, s.server.txns, s.jobs, t);
    EndKeepsRejections(s, t, server', s'.world.handled, a.handled);
    MoreAnswers(s', a.handled, WorkedBy(a, t, s.server.txns[t].op.env, fault).handled);
  }

  /** A handler dies before its transaction ends: the saga's handler loses its work. */
  lemma CrashImplements(s: State, t: I.TxId, server': I.State, a: S.State, env: C.Env)
    requires JobsInv(s.world.stream, s.server.txns, s.jobs) && s.world.core == s.server.db && Implements(s, a)
    requires t in s.jobs && s.jobs[t].Message? && !RolledBack(s.server.txns[t])
    requires server'.txns == s.server.txns - {t} && server'.db == s.server.db
    ensures t in a.working && a.working[t] < |a.stream| && S.CommandOf(a.stream[a.working[t]].msg).Some?
    ensures Implements(Served(s, t, server', s.world.handled), WorkedBy(a, t, env, S.Lost))
  {
    WorkingJob(s, t, a);
    WorkMoves(a, t, C.Op(s.server.txns[t].op.cmd, env), S.Lost);
    EndKeepsJobs(s.world.stream, s.server.txns, s.jobs, t);
    EndKeepsRejections(s, t, server', s.world.handled, a.handled);
  }

  lemma MoreAnswers(s: State, handled: set<nat>, handled': set<nat>)
    requires Rejections(s, handled) && handled <= handled'
    ensures Rejections(s, handled')
  {
  }

  /** A cancellation commits: the saga's user cancels at that moment. */
  lemma CancelImplements(s: State, t: I.TxId, server': I.State, handled': set<nat>, a: S.State)
    requires JobsInv(s.world.stream, s.server.txns, s.jobs) && s.world.core == s.server.db && Implements(s, a)
    requires t in s.jobs && s.jobs[t].Cancellation? && handled' == s.world.handled
    requires server'.txns == s.server.txns - {t}
    requires server'.db == C.Exec(s.server.db, s.server.txns[t].op).After(s.server.db)
    ensures var op := s.server.txns[t].op;
            && op.cmd == C.Settle(op.cmd.rid, C.Cancelled)
            && Implements(Served(s, t, server', handled'), a.(core := S.RunCore(a.core, op.cmd, op.env, S.Clean)))
  {
    assert JobFits(s.world.stream, s.server.txns[t], s.jobs[t]);
    EndKeepsJobs(s.world.stream, s.server.txns, s.jobs, t);
    assert t !in a.working;
    EndKeepsRejections(s, t, server', handled', a.handled);
  }

  /** A transaction without unfinished work for the saga leaves. */
  lemma LeavingImplements(s: State, t: I.TxId, server': I.State, handled': set<nat>, a: S.State)
    requires JobsInv(s.world.stream, s.server.txns, s.jobs) && s.world.core == s.server.db && Implements(s, a)
    requires t !in a.working && server'.txns == s.server.txns - {t} && server'.db == s.server.db
    requires handled' <= a.handled
    ensures Implements(Served(s, t, server', handled'), a)
  {
    EndKeepsJobs(s.world.stream, s.server.txns, s.jobs, t);
    EndKeepsRejections(s, t, server', handled', a.handled);
  }

  // ---- Statements ----

  /** A transaction moves on: its job still fits, and it works on unless its statement failed. */
  lemma StatementKeepsJobs(stream: seq<S.Entry>, txns: map<I.TxId, I.Txn>, jobs: map<I.TxId, Job>, t: I.TxId, x: I.Txn)
    requires JobsInv(stream, txns, jobs) && t in txns && txns[t].UseCase? && !RolledBack(txns[t])
    requires x.UseCase? && x.op == txns[t].op
    ensures JobsInv(stream, txns[t := x], jobs)
    ensures Working(txns[t := x], jobs) == if RolledBack(x) then Working(txns, jobs) - {t} else Working(txns, jobs)
  {
    assert JobFits(stream, txns[t], jobs[t]);
  }

  lemma StatementKeepsRejections(s: State, s': State, t: I.TxId, answers: set<nat>, answers': set<nat>)
    requires Rejections(s, answers) && answers <= answers' && t in s'.server.txns
    requires s'.server.txns == s.server.txns[t := s'.server.txns[t]]
    requires s'.jobs == s.jobs && s'.world.stream == s.world.stream
    requires RolledBack(s'.server.txns[t]) && AnsweredBy(s', t) ==> s'.jobs[t].i in answers'
    ensures Rejections(s', answers')
  {
    forall u | u in s'.server.txns && RolledBack(s'.server.txns[u]) && AnsweredBy(s', u)
      ensures s'.jobs[u].i in answers'
    {
      if u != t {
        assert AnsweredBy(s, u);
      }
    }
  }

  /** A statement that succeeds, or fails in a cancellation: the saga does not notice. */
  lemma StatementImplements(s: State, t: I.TxId, server': I.State, a: S.State)
    requires JobsInv(s.world.stream, s.server.txns, s.jobs) && s.world.core == s.server.db && Implements(s, a)
    requires t in s.jobs && !RolledBack(s.server.txns[t]) && t in server'.txns && server'.db == s.server.db
    requires server'.txns == s.server.txns[t := server'.txns[t]]
    requires server'.txns[t].UseCase? && server'.txns[t].op == s.server.txns[t].op
    requires !RolledBack(server'.txns[t]) || s.jobs[t].Cancellation?
    ensures Implements(Served(s, t, server', s.world.handled), a)
  {
    assert JobFits(s.world.stream, s.server.txns[t], s.jobs[t]);
    StatementKeepsJobs(s.world.stream, s.server.txns, s.jobs, t, server'.txns[t]);
    StatementKeepsRejections(s, Served(s, t, server', s.world.handled), t, a.handled, a.handled);
  }

  /** How the saga sees a failed statement: sold out is answered, as the serial outcome allows; all else is lost. */
  predicate Sold(m: S.Msg, e: C.CoreError) {
    m.ReserveCmd? && S.TerminalRejection(e)
  }

  lemma FailureImplements(s: State, t: I.TxId, server': I.State, e: C.CoreError, a: S.State)
    requires JobsInv(s.world.stream, s.server.txns, s.jobs) && s.world.core == s.server.db && Implements(s, a)
    requires t in s.jobs && s.jobs[t].Message? && !RolledBack(s.server.txns[t])
    requires server'.txns == s.server.txns[t := I.UseCase(s.server.txns[t].op, I.Aborted(e))]
    requires server'.db == s.server.db && I.Explained(s.server.db, s.server.txns[t].op, e)
    ensures t in a.working && a.working[t] < |a.stream| && S.CommandOf(a.stream[a.working[t]].msg).Some?
    ensures var fault := if Sold(a.stream[a.working[t]].msg, e) then S.Clean else S.Lost;
            Implements(Served(s, t, server', s.world.handled), WorkedBy(a, t, s.server.txns[t].op.env, fault))
  {
    WorkingJob(s, t, a);
    var op, m := s.server.txns[t].op, a.stream[a.working[t]].msg;
    var fault := if Sold(m, e) then S.Clean else S.Lost;
    WorkMoves(a, t, op, fault);
    StatementKeepsJobs(s.world.stream, s.server.txns, s.jobs, t, server'.txns[t]);
    StatementKeepsRejections(
      s, Served(s, t, server', s.world.handled), t, a.handled, WorkedBy(a, t, op.env, fault).handled);
  }

  // ---- The invariant over the server's steps ----

  lemma ServedKeepsInv(core0: C.Db, s: State, t: I.TxId, server': I.State, handled': set<nat>)
    requires Inv(core0, s) && t in s.server.txns && I.Inv(core0, server')
    requires || server'.txns == s.server.txns - {t}
             || (&& t in server'.txns && server'.txns == s.server.txns[t := server'.txns[t]]
                 && s.server.txns[t].UseCase? && !RolledBack(s.server.txns[t])
                 && server'.txns[t].UseCase? && server'.txns[t].op == s.server.txns[t].op)
    ensures Inv(core0, Served(s, t, server', handled'))
  {
    if t in server'.txns {
      StatementKeepsJobs(s.world.stream, s.server.txns, s.jobs, t, server'.txns[t]);
    } else {
      EndKeepsJobs(s.world.stream, s.server.txns, s.jobs, t);
    }
  }

  lemma StepKeepsInv(core0: C.Db, s: State, t: I.TxId, handled': set<nat>)
    requires Inv(core0, s) && I.Enabled(s.server, I.Step(t))
    ensures Inv(core0, Served(s, t, I.Next(s.server, I.Step(t)), handled'))
  {
    I.StepKeepsInv(core0, s.server, I.Step(t));
    if AtEnd(s.server.txns[t]) {
      EndLeaves(s.server, t);
    } else {
      I.StatementReads(s.server, t);
    }
    ServedKeepsInv(core0, s, t, I.Next(s.server, I.Step(t)), handled');
  }

  lemma CrashKeepsInv(core0: C.Db, s: State, t: I.TxId)
    requires Inv(core0, s) && t in s.server.txns
    ensures Inv(core0, Served(s, t, I.Next(s.server, I.Rollback(t)), s.world.handled))
  {
    I.StepKeepsInv(core0, s.server, I.Rollback(t));
    ServedKeepsInv(core0, s, t, I.Next(s.server, I.Rollback(t)), s.world.handled);
  }

  // ---- One step ----

  lemma WorkIsStep(a: S.State, t: nat, env: C.Env, fault: S.Fault, maxDeliver: nat)
    requires t in a.working && a.working[t] < |a.stream| && S.CommandOf(a.stream[a.working[t]].msg).Some?
    ensures Follows(a, Some(S.Work(t, env, fault)), WorkedBy(a, t, env, fault), maxDeliver)
  {
    assert S.Enabled(a, S.Work(t, env, fault), maxDeliver);
  }

  lemma CancelIsStep(a: S.State, op: C.Op, maxDeliver: nat)
    requires op.cmd == C.Settle(op.cmd.rid, C.Cancelled)
    ensures Follows(a, Some(S.UserCancel(op.cmd.rid, op.env, S.Clean)),
                    a.(core := S.RunCore(a.core, op.cmd, op.env, S.Clean)), maxDeliver)
  {
    assert S.Enabled(a, S.UserCancel(op.cmd.rid, op.env, S.Clean), maxDeliver);
  }

  /**
   If the saga's step is a handler's work, it is the work of transaction `t` as it was begun, and
   sold out is answered only because the next statement of `t` fails with it.
   */
  ghost predicate Tied(s: State, t: I.TxId, x: Option<S.Action>) {
    x.Some? && x.value.Work? ==>
      && x.value.w == t && t in s.server.txns && s.server.txns[t].UseCase? && x.value.env == s.server.txns[t].op.env
      && (x.value.fault == S.Clean && C.Exec(s.server.db, s.server.txns[t].op).Rejected? ==>
            I.Fails(s.server, t, C.SoldOut))
  }

  lemma CommitFollows(core0: C.Db, s: State, t: I.TxId, answered: bool, a: S.State, maxDeliver: nat)
    returns (x: Option<S.Action>, a': S.State)
    requires Inv(core0, s) && Implements(s, a) && t in s.server.txns && s.server.txns[t].UseCase?
    requires s.server.txns[t].phase.Enqueued? || s.server.txns[t].phase.ReplayDone?
    ensures Follows(a, x, a', maxDeliver) && Tied(s, t, x)
    ensures Implements(Served(s, t, I.Next(s.server, I.Step(t)), HandledAfter(s, t, answered)), a')
  {
    var op, server' := s.server.txns[t].op, I.Next(s.server, I.Step(t));
    EndLeaves(s.server, t);
    CommitIsSerial(s.server, t);
    if s.jobs[t].Message? {
      var fault := if answered then S.Clean else S.Unreported;
      CommitImplements(s, t, server', answered, a);
      WorkIsStep(a, t, op.env, fault, maxDeliver);
      x, a' := Some(S.Work(t, op.env, fault)), WorkedBy(a, t, op.env, fault);
    } else {
      CancelImplements(s, t, server', HandledAfter(s, t, answered), a);
      CancelIsStep(a, op, maxDeliver);
      x := Some(S.UserCancel(op.cmd.rid, op.env, S.Clean));
      a' := a.(core := S.RunCore(a.core, op.cmd, op.env, S.Clean));
    }
  }

  lemma StatementFollows(core0: C.Db, s: State, t: I.TxId, answered: bool, a: S.State, maxDeliver: nat)
    returns (x: Option<S.Action>, a': S.State)
    requires Inv(core0, s) && Implements(s, a) && I.Enabled(s.server, I.Step(t)) && !AtEnd(s.server.txns[t])
    ensures Follows(a, x, a', maxDeliver) && Tied(s, t, x)
    ensures Implements(Served(s, t, I.Next(s.server, I.Step(t)), HandledAfter(s, t, answered)), a')
  {
    var op, server' := s.server.txns[t].op, I.Next(s.server, I.Step(t));
    I.StatementReads(s.server, t);
    assert HandledAfter(s, t, answered) == s.world.handled;
    if RolledBack(server'.txns[t]) && s.jobs[t].Message? {
      var e := server'.txns[t].phase.error;
      assert server'.txns[t] == I.UseCase(op, I.Aborted(e));
      assert I.Fails(s.server, t, e);
      I.FailureIsExplained(s.server, t, e);
      FailureImplements(s, t, server', e, a);
      var fault := if Sold(a.stream[a.working[t]].msg, e) then S.Clean else S.Lost;
      WorkIsStep(a, t, op.env, fault, maxDeliver);
      x, a' := Some(S.Work(t, op.env, fault)), WorkedBy(a, t, op.env, fault);
    } else {
      StatementImplements(s, t, server', a);
      x, a' := None, a;
    }
  }

  lemma StepFollows(core0: C.Db, s: State, t: I.TxId, answered: bool, a: S.State, maxDeliver: nat)
    returns (x: Option<S.Action>, a': S.State)
    requires Inv(core0, s) && Implements(s, a) && I.Enabled(s.server, I.Step(t))
    ensures Follows(a, x, a', maxDeliver) && Tied(s, t, x)
    ensures Implements(Served(s, t, I.Next(s.server, I.Step(t)), HandledAfter(s, t, answered)), a')
  {
    if !AtEnd(s.server.txns[t]) {
      x, a' := StatementFollows(core0, s, t, answered, a, maxDeliver);
    } else if s.server.txns[t].Claim? || RolledBack(s.server.txns[t]) {
      EndLeaves(s.server, t);
      assert t !in a.working;
      LeavingImplements(s, t, I.Next(s.server, I.Step(t)), HandledAfter(s, t, answered), a);
      x, a' := None, a;
    } else {
      x, a' := CommitFollows(core0, s, t, answered, a, maxDeliver);
    }
  }

  lemma CrashFollows(core0: C.Db, s: State, t: I.TxId, a: S.State, maxDeliver: nat)
    returns (x: Option<S.Action>, a': S.State)
    requires Inv(core0, s) && Implements(s, a) && t in s.server.txns
    ensures Follows(a, x, a', maxDeliver)
    ensures x.Some? ==> x.value.Work? && x.value.fault == S.Lost
    ensures Implements(Served(s, t, I.Next(s.server, I.Rollback(t)), s.world.handled), a')
  {
    var server' := I.Next(s.server, I.Rollback(t));
    if t in s.jobs && s.jobs[t].Message? && !RolledBack(s.server.txns[t]) {
      var env := s.server.txns[t].op.env;
      CrashImplements(s, t, server', a, env);
      WorkIsStep(a, t, env, S.Lost, maxDeliver);
      x, a' := Some(S.Work(t, env, S.Lost)), WorkedBy(a, t, env, S.Lost);
    } else {
      assert t !in a.working;
      LeavingImplements(s, t, server', s.world.handled, a);
      x, a' := None, a;
    }
  }

  lemma DeliverFollows(core0: C.Db, s: State, i: nat, t: I.TxId, env: C.Env, a: S.State, maxDeliver: nat)
    returns (a': S.State)
    requires Inv(core0, s) && Implements(s, a) && Enabled(s, Deliver(i, t, env), maxDeliver)
    ensures Follows(a, Some(S.DeliverCore(i, t)), a', maxDeliver)
    ensures Inv(core0, Next(s, Deliver(i, t, env))) && Implements(Next(s, Deliver(i, t, env)), a')
  {
    var op, s' := OpOf(s, i, env), Next(s, Deliver(i, t, env));
    I.StepKeepsInv(core0, s.server, I.Begin(t, op));
    a' := a.(stream := S.Delivered(a.stream, i), working := a.working[t := i]);
    DeliverImplements(s, s', i, t, I.UseCase(op, I.Begun), a, a');
    assert S.Enabled(a, S.DeliverCore(i, t), maxDeliver);
  }

  /** What begins without a delivery is none of the saga's business. */
  lemma BeginFollows(core0: C.Db, s: State, x: Action, a: S.State, maxDeliver: nat)
    requires Inv(core0, s) && Implements(s, a) && (x.Cancel? || x.Claim?) && Enabled(s, x, maxDeliver)
    ensures Inv(core0, Next(s, x)) && Implements(Next(s, x), a)
  {
    if x.Cancel? {
      var op := C.Op(C.Settle(x.rid, C.Cancelled), x.env);
      I.StepKeepsInv(core0, s.server, I.Begin(x.t, op));
      CancelBegins(s, Next(s, x), x.t, I.UseCase(op, I.Begun), a);
    } else {
      I.StepKeepsInv(core0, s.server, I.BeginClaim(x.t, x.rows, x.now));
      ClaimBegins(s, Next(s, x), x.t, I.Claim(x.rows), a);
    }
  }

  /** Every step of the concurrent system is one step of the saga, or none. */
  lemma NextFollows(core0: C.Db, s: State, b: Action, a: S.State, maxDeliver: nat)
    returns (x: Option<S.Action>, a': S.State)
    requires Inv(core0, s) && Implements(s, a) && Enabled(s, b, maxDeliver)
    ensures Inv(core0, Next(s, b))
    ensures Follows(a, x, a', maxDeliver) && Implements(Next(s, b), a')
    ensures x.Some? && x.value.Work? && x.value.fault == S.Clean ==> b.Step? && Tied(s, b.t, x)
  {
    match b {
      case Elsewhere(c) =>
        ElsewhereSimulates(core0, s, c, a, maxDeliver);
        x, a' := Some(c), S.Next(a, c);
      case Deliver(i, t, env) =>
        a' := DeliverFollows(core0, s, i, t, env, a, maxDeliver);
        x := Some(S.DeliverCore(i, t));
      case Step(t, answered) =>
        StepKeepsInv(core0, s, t, HandledAfter(s, t, answered));
        x, a' := StepFollows(core0, s, t, answered, a, maxDeliver);
      case Crash(t) =>
        CrashKeepsInv(core0, s, t);
        x, a' := CrashFollows(core0, s, t, a, maxDeliver);
      case _ =>
        BeginFollows(core0, s, b, a, maxDeliver);
        x, a' := None, a;
    }
  }

  // ---- Results ----

  lemma SagaRunSnoc(core: C.Db, trace: seq<S.Action>, x: S.Action, a: S.State, maxDeliver: nat)
    requires S.Run(core, trace, maxDeliver) == Some(a) && S.Enabled(a, x, maxDeliver)
    ensures S.Run(core, trace + [x], maxDeliver) == Some(S.Next(a, x))
    ensures A.SoldOuts(core, trace + [x], maxDeliver) == A.SoldOuts(core, trace, maxDeliver) + A.SoldBy(a, x)
  {
    assert (trace + [x])[..|trace|] == trace;
  }

  /**
   The transaction of reserve command `i` is about to fail as sold out; serially it would be
   rejected so too, and the committed quantities leave no room for its seats.
   */
  ghost predicate FailsSoldOut(s: State, t: I.TxId, i: nat) {
    && t in s.jobs && s.jobs[t] == Message(i) && i < |s.world.stream| && s.world.stream[i].msg.ReserveCmd?
    && I.Fails(s.server, t, C.SoldOut)
    && C.Exec(s.server.db, s.server.txns[t].op) == C.Rejected(C.SoldOut)
    && CoreLaws.Full(s.server.db, s.world.stream[i].msg.eid, s.world.stream[i].msg.quantity)
  }

  /** Step `n` of the run is where that happens. */
  ghost predicate SoldOutAt(core: C.Db, trace: seq<Action>, maxDeliver: nat, i: nat, n: nat) {
    && n < |trace| && trace[n].Step? && Run(core, trace[..n], maxDeliver).Some?
    && FailsSoldOut(Run(core, trace[..n], maxDeliver).value, trace[n].t, i)
  }

  lemma SoldByServer(core0: C.Db, s: State, t: I.TxId, a: S.State, x: S.Action, i: nat)
    requires Inv(core0, s) && Implements(s, a) && Tied(s, t, Some(x)) && i in A.SoldBy(a, x)
    ensures FailsSoldOut(s, t, i)
  {
    assert JobFits(s.world.stream, s.server.txns[t], s.jobs[t]);
    CoreLaws.SoldOutIff(s.server.db, s.server.txns[t].op);
  }

  lemma SoldOutEarlier(core: C.Db, trace: seq<Action>, maxDeliver: nat, i: nat, n: nat, len: nat)
    requires len <= |trace| && SoldOutAt(core, trace[..len], maxDeliver, i, n)
    ensures SoldOutAt(core, trace, maxDeliver, i, n)
  {
    assert trace[..len][..n] == trace[..n];
  }

  lemma InitImplements(core: C.Db)
    requires L.LedgerInv(core)
    ensures Inv(core, Init(core)) && Implements(Init(core), S.Init(core))
  {
  }

  /**
   Refinement: however the statements of concurrent use cases interleave, crash and roll back
   among everything else, the system is in a state that the saga of one-step use cases can
   reach, with the committed database as its core; and what the saga answers as sold out, a
   statement of the server has found sold out.
   */
  lemma {:induction false} ConcurrentRefinesSaga(core: C.Db, trace: seq<Action>, maxDeliver: nat)
    returns (saga: seq<S.Action>, a: S.State)
    requires L.LedgerInv(core) && Run(core, trace, maxDeliver).Some?
    ensures Inv(core, Run(core, trace, maxDeliver).value)
    ensures S.Run(core, saga, maxDeliver) == Some(a) && Implements(Run(core, trace, maxDeliver).value, a)
    ensures a.core == Run(core, trace, maxDeliver).value.server.db && |saga| <= |trace|
    ensures forall i :: i in A.SoldOuts(core, saga, maxDeliver) ==> exists n :: SoldOutAt(core, trace, maxDeliver, i, n)
  {
    if trace == [] {
      InitImplements(core);
      saga, a := [], S.Init(core);
    } else {
      var len := |trace| - 1;
      var saga0, a0 := ConcurrentRefinesSaga(core, trace[..len], maxDeliver);
      var s := Run(core, trace[..len], maxDeliver).value;
      var x;
      x, a := NextFollows(core, s, trace[len], a0, maxDeliver);
      saga := saga0;
      if x.Some? {
        SagaRunSnoc(core, saga0, x.value, a0, maxDeliver);
        saga := saga0 + [x.value];
      }
      forall i | i in A.SoldOuts(core, saga, maxDeliver) ensures exists n :: SoldOutAt(core, trace, maxDeliver, i, n) {
        if i in A.SoldOuts(core, saga0, maxDeliver) {
          var n :| SoldOutAt(core, trace[..len], maxDeliver, i, n);
          SoldOutEarlier(core, trace, maxDeliver, i, n, len);
        } else {
          SoldByServer(core, s, trace[len].t, a0, x.value, i);
          assert SoldOutAt(core, trace, maxDeliver, i, len);
        }
      }
    }
  }

  /** So the agreement of the two databases holds of what the interleaved transactions have committed. */
  lemma ConcurrentAgreement(core: C.Db, trace: seq<Action>, maxDeliver: nat, rid: Id)
    requires L.Seeded(core) && Run(core, trace, maxDeliver).Some?
    requires rid in Run(core, trace, maxDeliver).value.server.db.reservations
    ensures var s := Run(core, trace, maxDeliver).value;
            var r := s.server.db.reservations[rid];
            && (r.status == C.Confirmed ==> S.HasPayment(s.world.pay.payments, rid, P.Succeeded))
            && (r.status == C.Failed ==> S.HasPayment(s.world.pay.payments, rid, P.Failed))
  {
    L.SeededLedger(core);
    var saga, a := ConcurrentRefinesSaga(core, trace, maxDeliver);
    S.ReachableInv(core, saga, maxDeliver);
  }

  /**
   And an answered message is done for good, although its handler ran among any number of others;
   or it was a reserve command whose transaction found its event sold out.
   */
  lemma ConcurrentAnsweredIsDone(core: C.Db, trace: seq<Action>, maxDeliver: nat, i: nat)
    requires L.Seeded(core) && Run(core, trace, maxDeliver).Some?
    requires i in Run(core, trace, maxDeliver).value.world.handled
    ensures var s := Run(core, trace, maxDeliver).value;
            && i < |s.world.stream|
            && (|| A.WorkDone(s.server.db, s.world.pay, s.world.stream[i].msg)
                || (s.world.stream[i].msg.ReserveCmd? && exists n :: SoldOutAt(core, trace, maxDeliver, i, n)))
  {
    L.SeededLedger(core);
    var saga, a := ConcurrentRefinesSaga(core, trace, maxDeliver);
    A.ReachableAnswers(core, saga, maxDeliver);
  }
}
