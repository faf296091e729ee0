/**
 The payment processor as the code runs it, over mutable tables in which every statement
 may fail, proved against the steps of the `Payment` machine.
 */
module Processor {
  import opened Common
  import opened Payment

  /** One read of the projection. */
  datatype ReadResult = Found(ctx: Context) | Missing | Broken

  datatype HandleError = BadRequest | ContextMissing | NotOwner | PaymentNotFound | StoreFailed

  // ---- Waiting for the projection ----

  /** The answer of the wait that starts at read `i`: reads follow each other as long as sleeps are not aborted. */
  ghost function Awaited(feed: nat -> ReadResult, wakes: nat -> bool, attempts: nat, i: nat): ReadResult
    requires i <= attempts
    decreases attempts - i
  {
    if feed(i) != Missing then feed(i)
    else if i == attempts || !wakes(i) then Missing
    else Awaited(feed, wakes, attempts, i + 1)
  }

  /** It is the first read that is not "not found", provided every sleep before it ran its course. */
  lemma {:induction false} AwaitedIsFirstAnswer(
    feed: nat -> ReadResult, wakes: nat -> bool, attempts: nat, i: nat, n: nat)
    requires i <= n <= attempts
    requires forall j: nat :: i <= j < n ==> feed(j) == Missing && wakes(j)
    requires feed(n) != Missing
    ensures Awaited(feed, wakes, attempts, i) == feed(n)
    decreases n - i
  {
    if i < n {
      AwaitedIsFirstAnswer(feed, wakes, attempts, i + 1, n);
    }
  }

  /** How often that wait sleeps: after every read that found nothing, until the attempts are used up. */
  ghost function Sleeps(feed: nat -> ReadResult, wakes: nat -> bool, attempts: nat, i: nat): nat
    requires i <= attempts
    decreases attempts - i
  {
    if feed(i) != Missing || i == attempts then 0
    else if !wakes(i) then 1
    else 1 + Sleeps(feed, wakes, attempts, i + 1)
  }

  /** At most once per attempt, and as often as that only if nothing is found or aborted before the last one. */
  lemma {:induction false} SleepsAtMost(feed: nat -> ReadResult, wakes: nat -> bool, attempts: nat, i: nat)
    requires i <= attempts
    ensures Sleeps(feed, wakes, attempts, i) <= attempts - i
    ensures Sleeps(feed, wakes, attempts, i) == attempts - i
       <==> forall j: nat :: i <= j < attempts ==> feed(j) == Missing && (j < attempts - 1 ==> wakes(j))
    decreases attempts - i
  {
    if i < attempts {
      SleepsAtMost(feed, wakes, attempts, i + 1);
    }
  }

  /**
   What happens around a waiting delivery: the table as each read meets it, failing reads,
   sleeps that run their course.
   */
  datatype Meanwhile = Meanwhile(contexts: nat -> map<Id, Context>, fails: nat -> bool, wakes: nat -> bool)

  function ReadOf(contexts: map<Id, Context>, rid: Id, fails: bool): ReadResult {
    if fails then Broken else if rid in contexts then Found(contexts[rid]) else Missing
  }

  /** The projection as the i-th read of a wait meets it. */
  function At(start: map<Id, Context>, w: Meanwhile, i: nat): map<Id, Context> {
    if i == 0 then start else w.contexts(i)
  }

  /** The reads of a wait for one reservation. */
  function Feed(start: map<Id, Context>, rid: Id, w: Meanwhile): nat -> ReadResult {
    (i: nat) => ReadOf(At(start, w, i), rid, w.fails(i))
  }

  /** What the j-th read of a wait says: broken only if the store fails, missing only if nothing is projected. */
  lemma FeedIs(start: map<Id, Context>, rid: Id, w: Meanwhile, j: nat)
    ensures var contexts := if j == 0 then start else w.contexts(j);
            && (w.fails(j) ==> Feed(start, rid, w)(j) == Broken)
            && (!w.fails(j) && rid !in contexts ==> Feed(start, rid, w)(j) == Missing)
            && (!w.fails(j) && rid in contexts ==> Feed(start, rid, w)(j) == Found(contexts[rid]))
  {
  }

  /** Reads `i` to `n` worked and found nothing projected. */
  ghost predicate NothingThere(start: map<Id, Context>, rid: Id, w: Meanwhile, i: nat, n: nat) {
    forall j: nat :: i <= j <= n ==> !w.fails(j) && rid !in (if j == 0 then start else w.contexts(j))
  }

  /**
   A wait that ends without an answer found nothing projected at every read it made: at all
   attempts + 1 of them, or up to a sleep that was aborted.
   */
  lemma {:induction false} MissingMeans(start: map<Id, Context>, rid: Id, w: Meanwhile, attempts: nat, i: nat)
    returns (n: nat)
    requires i <= attempts && Awaited(Feed(start, rid, w), w.wakes, attempts, i) == Missing
    ensures i <= n <= attempts && (n == attempts || !w.wakes(n)) && NothingThere(start, rid, w, i, n)
    decreases attempts - i
  {
    FeedIs(start, rid, w, i);
    if i < attempts && w.wakes(i) {
      n := MissingMeans(start, rid, w, attempts, i + 1);
    } else {
      n := i;
    }
  }

  // ---- Tables ----

  class PaymentStore {
    var payments: map<string, Pay>
    var contexts: map<Id, Context>
    var outbox: seq<Outcome>
    var savedPayments: map<string, Pay>
    var savedOutbox: seq<Outcome>

    method Begin()
      modifies this`savedPayments, this`savedOutbox
      ensures savedPayments == payments && savedOutbox == outbox
    {
      savedPayments, savedOutbox := payments, outbox;
    }

    /** Rollback on failure, else commit; a failed commit may or may not have taken effect. */
    method End(failed: bool) returns (commitFailed: bool)
      modifies this`payments, this`outbox
      ensures failed ==> !commitFailed && payments == savedPayments && outbox == savedOutbox
      ensures !failed && !commitFailed ==> payments == old(payments) && outbox == old(outbox)
      ensures commitFailed ==>
                || (payments == old(payments) && outbox == old(outbox))
                || (payments == savedPayments && outbox == savedOutbox)
    {
      commitFailed := false;
      var undo := failed;
      if !failed {
        if * {
          commitFailed, undo := true, true;
        } else if * {
          commitFailed := true;
        }
      }
      if undo {
        payments, outbox := savedPayments, savedOutbox;
      }
    }

    method Upsert(ctx: Context) returns (ok: bool)
      modifies this`contexts
      ensures contexts == if ok then old(contexts)[ctx.reservationId := ctx] else old(contexts)
    {
      if * {
        return false;
      }
      contexts := contexts[ctx.reservationId := ctx];
      return true;
    }

    method GetContext(rid: Id, fails: bool) returns (r: ReadResult)
      ensures r == ReadOf(contexts, rid, fails)
    {
      if fails {
        return Broken;
      }
      if rid !in contexts {
        return Missing;
      }
      return Found(contexts[rid]);
    }

    /** None: inserted. Some(true): duplicate key. Some(false): any other failure. */
    method Create(p: Pay) returns (e: Option<bool>)
      modifies this`payments
      ensures e == None ==> p.amountCents > 0 && !Duplicate(old(payments), p) && payments == old(payments)[p.key := p]
      ensures e.Some? ==> payments == old(payments)
      ensures e == Some(true) ==> p.amountCents > 0 && Duplicate(payments, p)
    {
      if * {
        return Some(false);
      }
      if p.amountCents <= 0 {
        return Some(false);
      }
      if Duplicate(payments, p) {
        return Some(true);
      }
      payments := payments[p.key := p];
      return None;
    }

    method GetByIdempotencyKey(key: string) returns (r: Result<Pay, HandleError>)
      ensures r.Ok? ==> key in payments && r.value == payments[key]
      ensures r == Err(PaymentNotFound) ==> key !in payments
      ensures r.Err? ==> r.error == StoreFailed || r.error == PaymentNotFound
    {
      if * {
        return Err(StoreFailed);
      }
      if key !in payments {
        return Err(PaymentNotFound);
      }
      return Ok(payments[key]);
    }

    method UpdateStatus(id: Id, v: Verdict) returns (ok: bool)
      modifies this`payments
      ensures payments == if ok then SetStatus(old(payments), id, v) else old(payments)
    {
      if * {
        return false;
      }
      payments := SetStatus(payments, id, v);
      return true;
    }

    method Enqueue(o: Outcome) returns (ok: bool)
      modifies this`outbox
      ensures outbox == if ok then old(outbox) + [o] else old(outbox)
    {
      if * {
        return false;
      }
      outbox := outbox + [o];
      return true;
    }
  }

  /** What the acquirer is asked to charge. */
  datatype ChargeRequest = ChargeRequest(reservationId: Id, userId: Id, amountCents: int, currency: string, key: string)

  /** The external gateway; the log of calls is what a run cannot take back. */
  class Acquirer {
    ghost var calls: seq<string>
    ghost var requests: seq<ChargeRequest>

    method Submit(request: ChargeRequest, answer: Charge) returns (r: Charge)
      modifies this
      ensures calls == old(calls) + [request.key] && requests == old(requests) + [request] && r == answer
    {
      calls := calls + [request.key];
      requests := requests + [request];
      return answer;
    }
  }

  // ---- Specification of one delivery ----

  /** The tables and the call log as a machine state in which only `key` runs. */
  ghost function Session(
    payments: map<string, Pay>, outbox: seq<Outcome>, calls: seq<string>, key: string, run: Run): State
  {
    State(payments, map[], outbox, map[key := run], calls, [], [])
  }

  /** Two machine states with the same tables and call log. */
  ghost predicate SameData(s: State, payments: map<string, Pay>, outbox: seq<Outcome>, calls: seq<string>) {
    s.payments == payments && s.outbox == outbox && s.calls == calls
  }

  /** What a run does once it holds its payment row, cut short after `n` steps. */
  ghost function FromPayment(s: State, key: string, now: Time, answer: Charge, n: nat): State
    requires key in s.runs && s.runs[key].HasPayment?
    requires n <= 2
  {
    if n == 0 then s else
      var s1 := Decided(s, key, now, answer);
      if n == 1 || key !in s1.runs then s1 else Concluded(s1, key)
  }

  /** What a run does once it has its context, cut short after `n` steps. */
  ghost function FromContext(s: State, key: string, newId: Id, now: Time, answer: Charge, n: nat): State
    requires key in s.runs && s.runs[key].HasContext?
    requires n <= 3
  {
    if n == 0 then s else
      var s1 := Persisted(s, key, newId);
      if key !in s1.runs then s1 else FromPayment(s1, key, now, answer, n - 1)
  }

  /** A request that gets as far as waiting for its context. */
  predicate Complete(req: Request, key: string) {
    key != "" && req.reservationId != "" && req.userId != ""
  }

  /** The answer and the sleeps of one delivery that begins with the projection `start`. */
  ghost function AnswerOf(req: Request, start: map<Id, Context>, w: Meanwhile, attempts: nat): ReadResult {
    Awaited(Feed(start, req.reservationId, w), w.wakes, attempts, 0)
  }

  ghost function SleepsOf(req: Request, key: string, start: map<Id, Context>, w: Meanwhile, attempts: nat): nat {
    if Complete(req, key) then Sleeps(Feed(start, req.reservationId, w), w.wakes, attempts, 0) else 0
  }

  /** Tables and call log at one moment. */
  datatype Data = Data(payments: map<string, Pay>, outbox: seq<Outcome>, calls: seq<string>)

  /**
   What one delivery does to them, given the answer of its wait: a prefix of the machine's steps,
   all of them on success; nothing at all for a request that is incomplete, unprojected or foreign.
   */
  ghost predicate Handled(
    d: Data, d': Data, req: Request, key: string, awaited: ReadResult, newId: Id, now: Time, answer: Charge,
    r: Result<(), HandleError>)
  {
    if Complete(req, key) && awaited.Found? && req.userId == awaited.ctx.userId then
      var s := Session(d.payments, d.outbox, d.calls, key, HasContext(req, awaited.ctx));
      if r.Ok? then
        && key in Persisted(s, key, newId).runs
        && SameData(FromContext(s, key, newId, now, answer, 3), d'.payments, d'.outbox, d'.calls)
      else
        exists n :: 0 <= n <= 3 &&
          SameData(FromContext(s, key, newId, now, answer, n), d'.payments, d'.outbox, d'.calls)
    else
      && d' == d
      && r == Err(if !Complete(req, key) then BadRequest
                  else if awaited.Missing? then ContextMissing
                  else if awaited.Broken? then StoreFailed else NotOwner)
  }

  /** At most one charge, of the user, amount and currency stored under the key, for the reservation named. */
  predicate Charged(
    req: Request, key: string, before: seq<ChargeRequest>, after: seq<ChargeRequest>, payments: map<string, Pay>)
  {
    after == before ||
    (&& key in payments
     && after == before + [ChargeRequest(req.reservationId, payments[key].userId, payments[key].amountCents,
                                         payments[key].currency, key)])
  }

  class PaymentProcessor {
    const db: PaymentStore
    const acquirer: Acquirer
    const attempts: nat

    constructor (db: PaymentStore, acquirer: Acquirer, attempts: nat)
      ensures this.db == db && this.acquirer == acquirer && this.attempts == attempts
    {
      this.db, this.acquirer, this.attempts := db, acquirer, attempts;
    }

    ghost function Now(): Data
      reads db, acquirer
    {
      Data(db.payments, db.outbox, acquirer.calls)
    }

    /** While a delivery sleeps, others go on projecting. */
    method Sleep(next: map<Id, Context>, wakes: bool) returns (ok: bool)
      modifies db`contexts
      ensures db.contexts == next && ok == wakes
    {
      db.contexts := next;
      return wakes;
    }

    /** Re-reads the projection inline; `nReads` and `nSleeps` count what it cost. */
    method WaitContext(rid: Id, w: Meanwhile) returns (r: ReadResult, nReads: nat, nSleeps: nat)
      modifies db`contexts
      ensures r == Awaited(Feed(old(db.contexts), rid, w), w.wakes, attempts, 0)
      ensures nSleeps == Sleeps(Feed(old(db.contexts), rid, w), w.wakes, attempts, 0)
      ensures 1 <= nReads <= attempts + 1 && nSleeps <= attempts
      ensures r != Missing ==> r == Feed(old(db.contexts), rid, w)(nReads - 1) && nSleeps == nReads - 1
      ensures r == Missing ==> nReads == attempts + 1 || (nSleeps == nReads && !w.wakes(nSleeps - 1))
      ensures forall j: nat :: j < nReads - 1 ==> Feed(old(db.contexts), rid, w)(j) == Missing && w.wakes(j)
      ensures r.Found? ==> rid in db.contexts && r.ctx == db.contexts[rid]
    {
      ghost var feed := Feed(db.contexts, rid, w);
      r := db.GetContext(rid, w.fails(0));
      nReads, nSleeps := 1, 0;
      if r != Missing {
        return;
      }
      for attempt := 0 to attempts
        invariant nReads == attempt + 1 && nSleeps == attempt && r == Missing
        invariant forall j: nat :: j < attempt ==> w.wakes(j)
        invariant forall j: nat :: j <= attempt ==> feed(j) == Missing
        invariant Awaited(feed, w.wakes, attempts, 0) == Awaited(feed, w.wakes, attempts, attempt)
        invariant Sleeps(feed, w.wakes, attempts, 0) == attempt + Sleeps(feed, w.wakes, attempts, attempt)
      {
        var woke := Sleep(w.contexts(attempt + 1), w.wakes(attempt));
        nSleeps := nSleeps + 1;
        if !woke {
          return Missing, nReads, nSleeps;
        }
        r := db.GetContext(rid, w.fails(attempt + 1));
        nReads := nReads + 1;
        assert r == feed(attempt + 1);
        if r != Missing {
          return;
        }
      }
    }

    /** Stores a fresh pending payment or returns the one its key already has. */
    method LoadOrCreate(req: Request, ctx: Context, key: string, newId: Id) returns (r: Result<Pay, HandleError>)
      modifies db`payments
      ensures r.Ok? ==>
                Persisted(Session(old(db.payments), db.outbox, acquirer.calls, key, HasContext(req, ctx)), key, newId)
                  == Session(db.payments, db.outbox, acquirer.calls, key, HasPayment(req, ctx, r.value))
      ensures r.Err? ==> db.payments == old(db.payments)
      ensures r.Ok? ==> key in db.payments && db.payments[key] == r.value
      ensures r.Err? ==> r.error == StoreFailed || r.error == PaymentNotFound
    {
      var p := FreshPay(ctx, key, newId, req.reservationId);
      var e := db.Create(p);
      if e == None {
        r := Ok(p);
      } else if e == Some(true) {
        r := db.GetByIdempotencyKey(key);
      } else {
        return Err(StoreFailed);
      }
      if r.Ok? {
        assert map[key := HasContext(req, ctx)][key := HasPayment(req, ctx, r.value)]
            == map[key := HasPayment(req, ctx, r.value)];
      }
    }

    /** Status and outcome event together, or neither. */
    method Finish(pay: Pay, v: Verdict) returns (ok: bool)
      modifies db`payments, db`outbox, db`savedPayments, db`savedOutbox
      ensures ok ==>
                && db.payments == SetStatus(old(db.payments), pay.id, v)
                && db.outbox == old(db.outbox) + [OutcomeOfVerdict(pay, v)]
      ensures !ok ==>
                || (db.payments == old(db.payments) && db.outbox == old(db.outbox))
                || (&& db.payments == SetStatus(old(db.payments), pay.id, v)
                    && db.outbox == old(db.outbox) + [OutcomeOfVerdict(pay, v)])
    {
      db.Begin();
      ok := db.UpdateStatus(pay.id, v);
      if ok {
        ok := db.Enqueue(OutcomeOfVerdict(pay, v));
      }
      var commitFailed := db.End(!ok);
      ok := ok && !commitFailed;
    }

    /** Re-records a decided payment; else checks the window, charges inside it and commits the verdict. */
    method Decide(req: Request, ctx: Context, pay: Pay, key: string, now: Time, answer: Payment.Charge)
      returns (ok: bool)
      modifies db`payments, db`outbox, db`savedPayments, db`savedOutbox, acquirer
      ensures var s := Session(old(db.payments), old(db.outbox), old(acquirer.calls), key, HasPayment(req, ctx, pay));
              if ok then SameData(FromPayment(s, key, now, answer, 2), db.payments, db.outbox, acquirer.calls)
              else
                exists n :: 0 <= n <= 2 &&
                  SameData(FromPayment(s, key, now, answer, n), db.payments, db.outbox, acquirer.calls)
      ensures acquirer.requests ==
                if pay.status == Pending && now <= ctx.expiresAt
                then old(acquirer.requests)
                     + [ChargeRequest(req.reservationId, pay.userId, pay.amountCents, pay.currency, key)]
                else old(acquirer.requests)
      ensures db.payments.Keys == old(db.payments).Keys
      ensures forall k :: k in db.payments ==>
                && db.payments[k].userId == old(db.payments)[k].userId
                && db.payments[k].amountCents == old(db.payments)[k].amountCents
                && db.payments[k].currency == old(db.payments)[k].currency
    {
      ghost var s := Session(db.payments, db.outbox, acquirer.calls, key, HasPayment(req, ctx, pay));
      if pay.status != Pending {
        ok := db.Enqueue(OutcomeOfRow(pay));
        assert SameData(FromPayment(s, key, now, answer, if ok then 2 else 0), db.payments, db.outbox, acquirer.calls);
        return;
      }
      var verdict := EXPIRED_VERDICT;
      if now <= ctx.expiresAt {
        var request := ChargeRequest(req.reservationId, pay.userId, pay.amountCents, pay.currency, key);
        var charged := acquirer.Submit(request, answer);
        verdict := VerdictOf(charged);
      }
      assert SameData(FromPayment(s, key, now, answer, 1), db.payments, db.outbox, acquirer.calls);
      label decided:
      ok := Finish(pay, verdict);
      if db.outbox != old@decided(db.outbox) {
        assert SameData(FromPayment(s, key, now, answer, 2), db.payments, db.outbox, acquirer.calls);
      }
    }

    /** `now` and `answer` are what the clock and the acquirer say if they are asked. */
    method Handle(req: Request, key: string, w: Meanwhile, newId: Id, now: Time, answer: Payment.Charge)
      returns (r: Result<(), HandleError>, nSleeps: nat)
      modifies db, acquirer
      ensures Handled(old(Now()), Now(), req, key, AnswerOf(req, old(db.contexts), w, attempts), newId, now, answer, r)
      ensures nSleeps == SleepsOf(req, key, old(db.contexts), w, attempts)
      ensures r == Err(BadRequest) <==> key == "" || req.reservationId == "" || req.userId == ""
      ensures r.Ok? ==> req.reservationId in db.contexts && db.contexts[req.reservationId].userId == req.userId
      ensures Charged(req, key, old(acquirer.requests), acquirer.requests, db.payments)
    {
      if key == "" || req.reservationId == "" || req.userId == "" {
        return Err(BadRequest), 0;
      }
      var found, _, slept := WaitContext(req.reservationId, w);
      nSleeps := slept;
      match found {
        case Missing => return Err(ContextMissing), nSleeps;
        case Broken => return Err(StoreFailed), nSleeps;
        case Found(ctx) =>
          if req.userId != ctx.userId {
            return Err(NotOwner), nSleeps;
          }
          r := Proceed(req, ctx, key, newId, now, answer);
      }
    }

    /** From the answered wait on. */
    method Proceed(req: Request, ctx: Context, key: string, newId: Id, now: Time, answer: Payment.Charge)
      returns (r: Result<(), HandleError>)
      requires Complete(req, key) && req.userId == ctx.userId
      modifies db`payments, db`outbox, db`savedPayments, db`savedOutbox, acquirer
      ensures Handled(old(Now()), Now(), req, key, Found(ctx), newId, now, answer, r)
      ensures r != Err(BadRequest)
      ensures Charged(req, key, old(acquirer.requests), acquirer.requests, db.payments)
    {
      ghost var s := Session(db.payments, db.outbox, acquirer.calls, key, HasContext(req, ctx));
      var loaded := LoadOrCreate(req, ctx, key, newId);
      if loaded.Err? {
        assert SameData(FromContext(s, key, newId, now, answer, 0), db.payments, db.outbox, acquirer.calls);
        return Err(loaded.error);
      }
      ghost var s1 := Persisted(s, key, newId);
      var ok := Decide(req, ctx, loaded.value, key, now, answer);
      if !ok {
        ghost var n :| 0 <= n <= 2
          && SameData(FromPayment(s1, key, now, answer, n), db.payments, db.outbox, acquirer.calls);
        assert SameData(FromContext(s, key, newId, now, answer, n + 1), db.payments, db.outbox, acquirer.calls);
        return Err(StoreFailed);
      }
      return Ok(());
    }
  }
}
