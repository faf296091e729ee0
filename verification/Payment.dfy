/**
 The payment processor as a machine: any number of idempotency keys in flight, at most
 one run per key, every database write and the acquirer call a step of its own, and a
 crash possible between any two steps, including between the charge and its commit.
 */
module Payment {
  import opened Common

  datatype PayStatus = Pending | Succeeded | Failed

  /** The projection of ticket.reserved. */
  datatype Context = Context(reservationId: Id, userId: Id, amountCents: int, currency: string, expiresAt: Time)

  datatype Pay = Pay(
    id: Id,
    reservationId: Id,
    userId: Id,
    amountCents: int,
    currency: string,
    status: PayStatus,
    key: string,
    gatewayRef: string,
    reason: string)

  datatype Request = Request(reservationId: Id, userId: Id)

  /** payment.succeeded or payment.failed with its payload. */
  datatype Outcome = Outcome(
    succeeded: bool, reservationId: Id, paymentId: Id, amountCents: int, gatewayRef: string, reason: string)

  /** The acquirer's answer: a gateway reference or a rejection text. */
  datatype Charge = Approved(gatewayRef: string) | Declined(reason: string)

  const DEFAULT_CURRENCY := "BRL"
  const WINDOW_ELAPSED := "reservation window elapsed"

  /** A verdict about to be committed; `charged` tells whether the acquirer was called for it. */
  datatype Verdict = Verdict(ok: bool, gatewayRef: string, reason: string, charged: bool)

  datatype Run =
    | Waiting(req: Request)
    | HasContext(req: Request, ctx: Context)
    | HasPayment(req: Request, ctx: Context, pay: Pay)
    | Finishing(req: Request, ctx: Context, pay: Pay, verdict: Verdict)

  /**
   `payments` is keyed by its unique idempotency key. `calls` logs the acquirer calls,
   `lost` the charged runs that died before their commit, `billed` those that committed.
   */
  datatype State = State(
    payments: map<string, Pay>,
    contexts: map<Id, Context>,
    outbox: seq<Outcome>,
    runs: map<string, Run>,
    calls: seq<string>,
    lost: seq<string>,
    billed: seq<string>)

  datatype Action =
    | Start(key: string, req: Request)
    | ReadContext(key: string)
    | Persist(key: string, newId: Id)
    | Decide(key: string, now: Time, answer: Charge)
    | Conclude(key: string)
    | Die(key: string)                  // crash, store error or rollback: the run is gone
    | Project(ctx: Context)             // ticket.reserved handled

  // ---- Statements ----

  function FreshPay(ctx: Context, key: string, newId: Id, reservationId: Id): Pay {
    Pay(newId, reservationId, ctx.userId, ctx.amountCents,
        if ctx.currency == "" then DEFAULT_CURRENCY else ctx.currency, Pending, key, "", "")
  }

  /** Unique idempotency key and primary key, both reported as a duplicate. */
  predicate Duplicate(payments: map<string, Pay>, p: Pay) {
    p.key in payments || exists k :: k in payments && payments[k].id == p.id
  }

  /** UPDATE payments by id, without a guard on the old status. */
  function SetStatus(payments: map<string, Pay>, id: Id, v: Verdict): map<string, Pay> {
    map k | k in payments ::
      if payments[k].id == id
      then payments[k].(status := if v.ok then Succeeded else Failed, gatewayRef := v.gatewayRef, reason := v.reason)
      else payments[k]
  }

  /** The event built while finishing, before the row is updated. */
  function OutcomeOfVerdict(p: Pay, v: Verdict): Outcome {
    Outcome(v.ok, p.reservationId, p.id, p.amountCents, v.gatewayRef, v.reason)
  }

  /** The event rebuilt from a decided row. */
  function OutcomeOfRow(p: Pay): Outcome
    requires p.status != Pending
  {
    if p.status == Succeeded then Outcome(true, p.reservationId, p.id, p.amountCents, p.gatewayRef, "")
    else Outcome(false, p.reservationId, p.id, p.amountCents, "", p.reason)
  }

  function VerdictOf(answer: Charge): Verdict {
    match answer
    case Approved(gatewayRef) => Verdict(true, gatewayRef, "", true)
    case Declined(reason) => Verdict(false, "", reason, true)
  }

  const EXPIRED_VERDICT := Verdict(false, "", WINDOW_ELAPSED, false)

  // ---- Machine ----

  predicate Enabled(s: State, a: Action) {
    match a
    case Start(key, req) => key != "" && req.reservationId != "" && req.userId != "" && key !in s.runs
    case ReadContext(key) => key in s.runs && s.runs[key].Waiting?
    case Persist(key, _) => key in s.runs && s.runs[key].HasContext?
    case Decide(key, _, _) => key in s.runs && s.runs[key].HasPayment?
    case Conclude(key) => key in s.runs && s.runs[key].Finishing?
    case Die(key) => key in s.runs
    case Project(_) => true
  }

  function Stop(s: State, key: string): State {
    s.(runs := s.runs - {key})
  }

  function Read(s: State, key: string): State
    requires key in s.runs && s.runs[key].Waiting?
  {
    var req := s.runs[key].req;
    if req.reservationId !in s.contexts then s
    else if req.userId != s.contexts[req.reservationId].userId then Stop(s, key)
    else s.(runs := s.runs[key := HasContext(req, s.contexts[req.reservationId])])
  }

  function Persisted(s: State, key: string, newId: Id): State
    requires key in s.runs && s.runs[key].HasContext?
  {
    var run := s.runs[key];
    var p := FreshPay(run.ctx, key, newId, run.req.reservationId);
    if p.amountCents <= 0 then Stop(s, key)                   // column check, before the unique indexes
    else if !Duplicate(s.payments, p) then
      s.(payments := s.payments[key := p], runs := s.runs[key := HasPayment(run.req, run.ctx, p)])
    else if key in s.payments then s.(runs := s.runs[key := HasPayment(run.req, run.ctx, s.payments[key])])
    else Stop(s, key)
  }

  function Decided(s: State, key: string, now: Time, answer: Charge): State
    requires key in s.runs && s.runs[key].HasPayment?
  {
    var run := s.runs[key];
    if run.pay.status != Pending then Stop(s, key).(outbox := s.outbox + [OutcomeOfRow(run.pay)])
    else if now > run.ctx.expiresAt then
      s.(runs := s.runs[key := Finishing(run.req, run.ctx, run.pay, EXPIRED_VERDICT)])
    else
      s.(runs := s.runs[key := Finishing(run.req, run.ctx, run.pay, VerdictOf(answer))], calls := s.calls + [key])
  }

  function Concluded(s: State, key: string): State
    requires key in s.runs && s.runs[key].Finishing?
  {
    var run := s.runs[key];
    Stop(s, key).(
      payments := SetStatus(s.payments, run.pay.id, run.verdict),
      outbox := s.outbox + [OutcomeOfVerdict(run.pay, run.verdict)],
      billed := if run.verdict.charged then s.billed + [key] else s.billed)
  }

  function Next(s: State, a: Action): State
    requires Enabled(s, a)
  {
    match a
    case Start(key, req) => s.(runs := s.runs[key := Waiting(req)])
    case ReadContext(key) => Read(s, key)
    case Persist(key, newId) => Persisted(s, key, newId)
    case Decide(key, now, answer) => Decided(s, key, now, answer)
    case Conclude(key) => Concluded(s, key)
    case Die(key) => Stop(s, key).(lost := if Charging(s, key) then s.lost + [key] else s.lost)
    case Project(ctx) => s.(contexts := s.contexts[ctx.reservationId := ctx])
  }

  /** The acquirer has been called in the current run of `key`, and nothing is committed yet. */
  predicate Charging(s: State, key: string) {
    key in s.runs && s.runs[key].Finishing? && s.runs[key].verdict.charged
  }

  const INIT := State(map[], map[], [], map[], [], [], [])

  function Exec(s: State, trace: seq<Action>): Option<State> {
    if trace == [] then Some(s)
    else
      match Exec(s, trace[..|trace| - 1])
      case None => None
      case Some(p) => if Enabled(p, trace[|trace| - 1]) then Some(Next(p, trace[|trace| - 1])) else None
  }

  // ---- Invariant ----

  ghost predicate RowInv(key: string, p: Pay) {
    && p.key == key
    && p.amountCents > 0
    && (p.status == Succeeded ==> p.reason == "")
    && (p.status == Failed ==> p.gatewayRef == "")
  }

  ghost predicate UniqueIds(payments: map<string, Pay>) {
    forall j, k | j in payments && k in payments && j != k :: payments[j].id != payments[k].id
  }

  ghost predicate RowsInv(payments: map<string, Pay>) {
    (forall k :: k in payments ==> RowInv(k, payments[k])) && UniqueIds(payments)
  }

  /** A run holds the stored row: nobody else can have changed it. */
  ghost predicate RunInv(payments: map<string, Pay>, key: string, run: Run) {
    match run
    case HasPayment(_, _, pay) => key in payments && payments[key] == pay
    case Finishing(_, _, pay, v) =>
      && key in payments && payments[key] == pay && pay.status == Pending
      && (v.ok ==> v.reason == "" && v.charged) && (!v.ok ==> v.gatewayRef == "")
    case _ => true
  }

  ghost predicate RunsInv(s: State) {
    forall k :: k in s.runs ==> RunInv(s.payments, k, s.runs[k])
  }

  function StatusAt(payments: map<string, Pay>, k: string): Option<PayStatus> {
    if k in payments then Some(payments[k].status) else None
  }

  predicate Undecided(st: Option<PayStatus>) {
    st == None || st == Some(Pending)
  }

  /** Every call is in flight, lost or billed; a key is billed once, and only when decided. */
  predicate Balanced(calls: nat, lost: nat, billed: nat, charging: bool, st: Option<PayStatus>) {
    && calls == lost + billed + (if charging then 1 else 0)
    && billed <= (if Undecided(st) then 0 else 1)
    && (st == Some(Succeeded) ==> billed == 1)
  }

  ghost predicate CallsOk(s: State, k: string) {
    Balanced(Count(s.calls, k), Count(s.lost, k), Count(s.billed, k), Charging(s, k), StatusAt(s.payments, k))
  }

  ghost predicate CallsInv(s: State) {
    forall k :: CallsOk(s, k)
  }

  ghost predicate Backed(payments: map<string, Pay>, o: Outcome) {
    exists k :: k in payments && payments[k].status != Pending && OutcomeOfRow(payments[k]) == o
  }

  ghost predicate OutboxInv(s: State) {
    forall o :: o in s.outbox ==> Backed(s.payments, o)
  }

  ghost predicate Inv(s: State) {
    RowsInv(s.payments) && RunsInv(s) && CallsInv(s) && OutboxInv(s)
  }

  /** `p` may become `q`: terms never change, and a decided payment never changes at all. */
  ghost predicate PayEvolves(p: Pay, q: Pay) {
    && q == p.(status := q.status, gatewayRef := q.gatewayRef, reason := q.reason)
    && (p.status != Pending ==> q == p)
  }

  ghost predicate RowsEvolve(a: map<string, Pay>, b: map<string, Pay>) {
    forall k :: k in a ==> k in b && PayEvolves(a[k], b[k])
  }

  ghost predicate Evolves(s: State, s': State) {
    RowsEvolve(s.payments, s'.payments) && s.outbox <= s'.outbox
  }

  // ---- Preservation ----

  /** Finishing by id touches exactly the row of its own key. */
  lemma SetStatusIsOwnRow(s: State, key: string)
    requires RowsInv(s.payments) && RunsInv(s) && key in s.runs && s.runs[key].Finishing?
    ensures var run := s.runs[key];
            SetStatus(s.payments, run.pay.id, run.verdict)
              == s.payments[key := run.pay.(status := if run.verdict.ok then Succeeded else Failed,
                                            gatewayRef := run.verdict.gatewayRef, reason := run.verdict.reason)]
  {
    assert RunInv(s.payments, key, s.runs[key]);
  }

  /** Steps that leave the payments table alone and add no run that has read it. */
  lemma QuietKeepsRows(s: State, s': State)
    requires RunsInv(s)
    requires s'.payments == s.payments && s.outbox <= s'.outbox
    requires forall k :: k in s'.runs ==>
               (k in s.runs && s'.runs[k] == s.runs[k]) || s'.runs[k].Waiting? || s'.runs[k].HasContext?
    ensures RunsInv(s') && Evolves(s, s')
  {
  }

  lemma PutKeepsRows(payments: map<string, Pay>, key: string, p: Pay)
    requires RowsInv(payments) && RowInv(key, p)
    requires forall k :: k in payments && k != key ==> payments[k].id != p.id
    requires key in payments ==> PayEvolves(payments[key], p)
    ensures RowsInv(payments[key := p]) && RowsEvolve(payments, payments[key := p])
  {
  }

  /** One run moves on and at most its own row changes: the other runs still hold their rows. */
  lemma RunsKeep(s: State, s': State, key: string)
    requires RunsInv(s)
    requires forall k :: k in s.payments && k != key ==> k in s'.payments && s'.payments[k] == s.payments[k]
    requires forall k :: k in s'.runs && k != key ==> k in s.runs && s'.runs[k] == s.runs[k]
    requires key in s'.runs ==> RunInv(s'.payments, key, s'.runs[key])
    ensures RunsInv(s')
  {
    forall k | k in s'.runs ensures RunInv(s'.payments, k, s'.runs[k]) {
      if k != key {
        assert RunInv(s.payments, k, s.runs[k]);
      }
    }
  }

  lemma PersistKeepsRows(s: State, key: string, newId: Id)
    requires RowsInv(s.payments) && RunsInv(s) && key in s.runs && s.runs[key].HasContext?
    ensures var s' := Persisted(s, key, newId); RowsInv(s'.payments) && RunsInv(s') && Evolves(s, s')
  {
    var run := s.runs[key];
    var p := FreshPay(run.ctx, key, newId, run.req.reservationId);
    if p.amountCents > 0 && !Duplicate(s.payments, p) {
      PutKeepsRows(s.payments, key, p);
    }
    RunsKeep(s, Persisted(s, key, newId), key);
  }

  lemma DecideKeepsRows(s: State, key: string, now: Time, answer: Charge)
    requires RowsInv(s.payments) && RunsInv(s) && key in s.runs && s.runs[key].HasPayment?
    ensures var s' := Decided(s, key, now, answer); RowsInv(s'.payments) && RunsInv(s') && Evolves(s, s')
  {
    assert RunInv(s.payments, key, s.runs[key]);
    RunsKeep(s, Decided(s, key, now, answer), key);
  }

  lemma ConcludeKeepsRows(s: State, key: string)
    requires RowsInv(s.payments) && RunsInv(s) && key in s.runs && s.runs[key].Finishing?
    ensures var s' := Concluded(s, key); RowsInv(s'.payments) && RunsInv(s') && Evolves(s, s')
  {
    assert RunInv(s.payments, key, s.runs[key]);
    SetStatusIsOwnRow(s, key);
    PutKeepsRows(s.payments, key, Concluded(s, key).payments[key]);
    RunsKeep(s, Concluded(s, key), key);
  }

  lemma NextKeepsRows(s: State, a: Action)
    requires RowsInv(s.payments) && RunsInv(s) && Enabled(s, a)
    ensures RowsInv(Next(s, a).payments) && RunsInv(Next(s, a)) && Evolves(s, Next(s, a))
  {
    match a {
      case Persist(key, newId) => PersistKeepsRows(s, key, newId);
      case Decide(key, now, answer) => DecideKeepsRows(s, key, now, answer);
      case Conclude(key) => ConcludeKeepsRows(s, key);
      case _ => QuietKeepsRows(s, Next(s, a));
    }
  }

  predicate Calls(s: State, a: Action)
    requires Enabled(s, a)
  {
    a.Decide? && s.runs[a.key].pay.status == Pending && a.now <= s.runs[a.key].ctx.expiresAt
  }

  predicate Bills(s: State, a: Action)
    requires Enabled(s, a)
  {
    a.Conclude? && s.runs[a.key].verdict.charged
  }

  predicate Loses(s: State, a: Action) {
    a.Die? && Charging(s, a.key)
  }

  /** Which step writes which log. */
  lemma LogsGrow(s: State, a: Action)
    requires Enabled(s, a)
    ensures Next(s, a).calls == if Calls(s, a) then s.calls + [a.key] else s.calls
    ensures Next(s, a).billed == if Bills(s, a) then s.billed + [a.key] else s.billed
    ensures Next(s, a).lost == if Loses(s, a) then s.lost + [a.key] else s.lost
  {
  }

  lemma CountsGrow(s: State, a: Action, k: string)
    requires Enabled(s, a)
    ensures Count(Next(s, a).calls, k) == Count(s.calls, k) + (if Calls(s, a) && a.key == k then 1 else 0)
    ensures Count(Next(s, a).billed, k) == Count(s.billed, k) + (if Bills(s, a) && a.key == k then 1 else 0)
    ensures Count(Next(s, a).lost, k) == Count(s.lost, k) + (if Loses(s, a) && a.key == k then 1 else 0)
  {
    LogsGrow(s, a);
    if !a.Project? {
      CountAppend(s.calls, a.key, k);
      CountAppend(s.lost, a.key, k);
      CountAppend(s.billed, a.key, k);
    }
  }

  lemma OtherKeyRow(s: State, a: Action, k: string)
    requires RowsInv(s.payments) && RunsInv(s) && Enabled(s, a) && (a.Project? || a.key != k)
    ensures var s' := Next(s, a);
            (k in s'.payments <==> k in s.payments) && (k in s.payments ==> s'.payments[k] == s.payments[k])
  {
    if a.Conclude? {
      SetStatusIsOwnRow(s, a.key);
    }
  }

  lemma OtherKeyRun(s: State, a: Action, k: string)
    requires Enabled(s, a) && (a.Project? || a.key != k)
    ensures var s' := Next(s, a); (k in s'.runs <==> k in s.runs) && (k in s.runs ==> s'.runs[k] == s.runs[k])
  {
  }

  lemma OtherKeepsCalls(s: State, a: Action, k: string)
    requires RowsInv(s.payments) && RunsInv(s) && CallsOk(s, k) && Enabled(s, a) && (a.Project? || a.key != k)
    ensures CallsOk(Next(s, a), k)
  {
    OtherKeyRow(s, a, k);
    OtherKeyRun(s, a, k);
    CountsGrow(s, a, k);
  }

  /** A run is charging from the step that calls to the step that bills or loses the call. */
  lemma ChargingMoves(s: State, a: Action)
    requires Enabled(s, a) && !a.Project?
    ensures Charging(s, a.key) <==> Bills(s, a) || Loses(s, a)
    ensures Charging(Next(s, a), a.key) <==> Calls(s, a)
  {
  }

  /** Only billing makes a payment SUCCEEDED, billing decides an undecided payment, and decisions stay. */
  lemma StatusMoves(s: State, a: Action)
    requires RunsInv(s) && Enabled(s, a) && !a.Project?
    requires a.Conclude? ==> Next(s, a).payments == s.payments[a.key := Next(s, a).payments[a.key]]
    ensures var st, st' := StatusAt(s.payments, a.key), StatusAt(Next(s, a).payments, a.key);
            && (Bills(s, a) ==> Undecided(st) && !Undecided(st'))
            && (!Undecided(st) ==> st' == st)
            && (st' == Some(Succeeded) ==> st == st' || Bills(s, a))
  {
    match a {
      case Conclude(key) => assert RunInv(s.payments, key, s.runs[key]);
      case Persist(key, newId) => assert key in s.payments ==> Next(s, a).payments == s.payments;
      case _ =>
    }
  }

  lemma OwnKeepsCalls(s: State, a: Action)
    requires RowsInv(s.payments) && RunsInv(s) && Enabled(s, a) && !a.Project? && CallsOk(s, a.key)
    ensures CallsOk(Next(s, a), a.key)
  {
    if a.Conclude? {
      SetStatusIsOwnRow(s, a.key);
    }
    CountsGrow(s, a, a.key);
    ChargingMoves(s, a);
    StatusMoves(s, a);
  }

  lemma NextKeepsCalls(s: State, a: Action)
    requires Inv(s) && Enabled(s, a)
    ensures CallsInv(Next(s, a))
  {
    forall k ensures CallsOk(Next(s, a), k) {
      assert CallsOk(s, k);
      if a.Project? || a.key != k {
        OtherKeepsCalls(s, a, k);
      } else {
        OwnKeepsCalls(s, a);
      }
    }
  }

  lemma NextKeepsOutbox(s: State, a: Action)
    requires Inv(s) && Enabled(s, a)
    ensures OutboxInv(Next(s, a))
  {
    var s' := Next(s, a);
    NextKeepsRows(s, a);
    if a.Conclude? {
      SetStatusIsOwnRow(s, a.key);
    }
    forall o | o in s'.outbox ensures Backed(s'.payments, o) {
      if o in s.outbox {
        var k :| k in s.payments && s.payments[k].status != Pending && OutcomeOfRow(s.payments[k]) == o;
        assert k in s'.payments && s'.payments[k] == s.payments[k];
      } else {
        assert OutcomeOfRow(s'.payments[a.key]) == o;
      }
    }
  }

  lemma NextKeepsInv(s: State, a: Action)
    requires Inv(s) && Enabled(s, a)
    ensures Inv(Next(s, a)) && Evolves(s, Next(s, a))
  {
    NextKeepsRows(s, a);
    NextKeepsCalls(s, a);
    NextKeepsOutbox(s, a);
  }

  /** Where a run of the next state comes from: unchanged, started, or moved on with its request and one context. */
  ghost predicate RunMoves(s: State, key: string, run: Run) {
    || run.Waiting?
    || (&& key in s.runs
        && (|| run == s.runs[key]
            || (&& run.req == s.runs[key].req
                && if s.runs[key].Waiting?
                   then run.req.reservationId in s.contexts && run.ctx == s.contexts[run.req.reservationId]
                        && run.req.userId == run.ctx.userId
                   else run.ctx == s.runs[key].ctx)))
  }

  /** Where a row of the next state comes from: an old row, or a fresh one priced by its run's context. */
  ghost predicate RowMoves(s: State, key: string, p: Pay) {
    || (key in s.payments && PayEvolves(s.payments[key], p))
    || (&& key in s.runs && s.runs[key].HasContext?
        && p == FreshPay(s.runs[key].ctx, key, p.id, s.runs[key].req.reservationId))
  }

  lemma RunsMove(s: State, a: Action)
    requires Enabled(s, a)
    ensures forall k :: k in Next(s, a).runs ==> RunMoves(s, k, Next(s, a).runs[k])
  {
  }

  lemma RowsMove(s: State, a: Action)
    requires RowsInv(s.payments) && RunsInv(s) && Enabled(s, a)
    ensures forall k :: k in Next(s, a).payments ==> RowMoves(s, k, Next(s, a).payments[k])
  {
    NextKeepsRows(s, a);
    if a.Conclude? {
      SetStatusIsOwnRow(s, a.key);
    }
  }

  lemma StepMoves(s: State, a: Action)
    requires RowsInv(s.payments) && RunsInv(s) && Enabled(s, a)
    ensures forall k :: k in Next(s, a).runs ==> RunMoves(s, k, Next(s, a).runs[k])
    ensures forall k :: k in Next(s, a).payments ==> RowMoves(s, k, Next(s, a).payments[k])
    ensures !a.Project? ==> Next(s, a).contexts == s.contexts
  {
    RunsMove(s, a);
    RowsMove(s, a);
  }

  /** A run keeps the request it was started with. */
  lemma RequestsStay(s: State, a: Action)
    requires Enabled(s, a) && !a.Start?
    ensures forall k :: k in Next(s, a).runs ==> k in s.runs && Next(s, a).runs[k].req == s.runs[k].req
  {
  }

  lemma OutboxGrows(s: State, a: Action)
    requires Enabled(s, a)
    ensures s.outbox <= Next(s, a).outbox
  {
  }

  lemma InitInv()
    ensures Inv(INIT)
  {
  }

  lemma {:induction false} ExecKeepsInv(s: State, trace: seq<Action>)
    requires Inv(s) && Exec(s, trace).Some?
    ensures Inv(Exec(s, trace).value)
  {
    if trace != [] {
      ExecKeepsInv(s, trace[..|trace| - 1]);
      NextKeepsInv(Exec(s, trace[..|trace| - 1]).value, trace[|trace| - 1]);
    }
  }

  // ---- Results ----

  /** At most one call per key beyond the runs that charged and then died. */
  lemma ChargeBound(trace: seq<Action>, key: string)
    requires Exec(INIT, trace).Some?
    ensures var s := Exec(INIT, trace).value;
            Count(s.calls, key) <= 1 + Count(s.lost, key)
  {
    InitInv();
    ExecKeepsInv(INIT, trace);
    assert CallsOk(Exec(INIT, trace).value, key);
  }

  /** The acquirer is only ever called for a stored payment that is still undecided. */
  lemma NeverChargedOnceDecided(trace: seq<Action>, a: Action)
    requires Exec(INIT, trace).Some? && Enabled(Exec(INIT, trace).value, a)
    ensures var s := Exec(INIT, trace).value;
            Next(s, a).calls != s.calls ==>
              && a.Decide? && Next(s, a).calls == s.calls + [a.key]
              && a.key in s.payments && s.payments[a.key].status == Pending
              && a.now <= s.runs[a.key].ctx.expiresAt
  {
    InitInv();
    ExecKeepsInv(INIT, trace);
  }

  /** Every outcome event ever enqueued about one payment is the same event, and states what the row states. */
  lemma OutcomesAgree(trace: seq<Action>, o1: Outcome, o2: Outcome)
    requires Exec(INIT, trace).Some?
    requires o1 in Exec(INIT, trace).value.outbox && o2 in Exec(INIT, trace).value.outbox
    ensures o1.paymentId == o2.paymentId ==> o1 == o2
    ensures Backed(Exec(INIT, trace).value.payments, o1)
  {
    InitInv();
    ExecKeepsInv(INIT, trace);
    var s := Exec(INIT, trace).value;
    var k1 :| k1 in s.payments && s.payments[k1].status != Pending && OutcomeOfRow(s.payments[k1]) == o1;
    var k2 :| k2 in s.payments && s.payments[k2].status != Pending && OutcomeOfRow(s.payments[k2]) == o2;
  }

  lemma EvolvesTransitive(a: State, b: State, c: State)
    requires Evolves(a, b) && Evolves(b, c)
    ensures Evolves(a, c)
  {
    forall k | k in a.payments ensures k in c.payments && PayEvolves(a.payments[k], c.payments[k]) {
      assert PayEvolves(a.payments[k], b.payments[k]) && PayEvolves(b.payments[k], c.payments[k]);
    }
  }

  /** A decided payment is final over every run. */
  lemma {:induction false} DecidedIsFinal(s: State, trace: seq<Action>)
    requires Inv(s) && Exec(s, trace).Some?
    ensures Evolves(s, Exec(s, trace).value)
  {
    if trace != [] {
      var front := trace[..|trace| - 1];
      DecidedIsFinal(s, front);
      ExecKeepsInv(s, front);
      NextKeepsInv(Exec(s, front).value, trace[|trace| - 1]);
      EvolvesTransitive(s, Exec(s, front).value, Exec(s, trace).value);
    }
  }
}
