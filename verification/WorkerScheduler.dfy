/**
 The scheduler object and its leases.  Each method body is one lock-held
 section and is proved to take exactly the step of the module it is
 specified by.  ai2apps/worker_scheduler.py.
 */
module WorkerScheduler {
  import opened Base
  import opened Scheduling
  import Proofs = SchedulerProofs
  import SchedulerReport

  class WorkerJobScheduler {
    const c: Config
    var queued: map<TicketId, Ticket>
    var active: map<TicketId, Ticket>
    var waiters: set<TicketId>
    var reserved: set<TicketId>
    var slots: map<string, nat>
    var sequence: nat
    var closed: bool
    var completed: nat
    var failed: nat
    var cancelled: nat
    var expired: nat
    var dispatches: map<string, nat>
    var gates: set<string>
    var status: map<TicketId, Status>

    constructor (c: Config)
      requires ValidConfig(c)
      ensures this.c == c && Now() == Initial()
    {
      this.c := c;
      queued, active, waiters, reserved, slots := map[], map[], {}, {}, map[];
      sequence, closed, completed, failed, cancelled, expired := 0, false, 0, 0, 0, 0;
      dispatches, gates, status := map[], {}, map[];
    }

    function Now(): State
      reads this
    {
      State(queued, active, waiters, reserved, slots, sequence, closed, completed, failed, cancelled, expired,
            dispatches, gates, status)
    }

    /** Expire every queued ticket whose deadline has passed. */
    method ExpireLocked(now: real)
      requires Valid()
      modifies this
      ensures Valid() && Now() == Expire(old(Now()), now)
    {
      hide SetStatus, Dequeue, IsOverdue, Sorted, Overdue;
      ghost var before := Now();
      var todo := queued.Keys;
      NothingSorted(before, now);
      ghost var gone: set<TicketId> := {};
      NothingDequeued(before, Expired);
      while todo != {}
        invariant Valid() && gone !! todo && todo + gone <= before.queued.Keys
        invariant Sorted(before, now, gone, todo)
        invariant Now() == Dequeue(before, gone, Expired)
        decreases |todo|
      {
        var id :| id in todo;
        assert todo - {id} + {id} == todo;
        todo := todo - {id};
        StillQueued(before, gone, id, Expired);
        var deadline := queued[id].deadline;
        var overdue := deadline.Some? && deadline.value <= now;
        OverdueIs(queued[id], now);
        if overdue {
          RemoveOne(id, Expired);
          DequeueOneMore(before, gone, id, Expired);
          OverdueGone(before, now, gone, todo, id);
          gone := gone + {id};
        } else {
          NotOverdue(before, now, gone, todo, id);
        }
      }
      AllSorted(before, now, gone);
    }

    /** Pop one queued ticket, mark it, count it and wake its waiter. */
    method RemoveOne(id: TicketId, st: Status)
      requires Valid() && (st.Expired? || st.Cancelled?)
      modifies this
      ensures Valid() && Now() == Dequeue(old(Now()), {id}, st)
    {
      hide SetStatus, Dequeue;
      ghost var before := Now();
      queued := queued - {id};
      status := SetStatus(status, {id}, st);
      if st.Expired? { expired := expired + 1; } else { cancelled := cancelled + 1; }
      waiters := waiters - {id};
      DequeuedOne(before, id, st);
    }

    /** Ask for reservations in priority order until one is granted; the resource manager answers freely. */
    method TryCandidates(now: real) returns (p: Pass)
      requires Valid()
      requires |active| < c.maxHeavy && RunnableIds(c, Now()) != {}
      modifies this`reserved
      ensures ValidPass(c, old(Now()), now, p)
      ensures Valid() && Now() == WithReservation(c, old(Now()), p)
    {
      hide Runnable, Before;
      var s := Now();
      var candidates := RunnableIds(c, s);
      var rest := candidates;
      while rest != {}
        invariant rest <= candidates && (!c.managed ==> rest == candidates)
        invariant AllBefore(c, s, now, candidates - rest, rest)
        invariant Now() == s
        decreases |rest|
      {
        var candidate := FirstByPriority(c, s, rest, now);
        var granted := true;
        if c.managed { granted := *; }
        if granted {
          p := Pass(candidates - rest, Some(candidate));
          RefusedAreBefore(c, s, now, candidates, rest, candidate);
          if c.managed { reserved := reserved + {candidate}; }
          return;
        }
        TakenInOrder(c, s, now, candidates, rest, candidate);
        rest := rest - {candidate};
      }
      p := Pass(candidates, None);
    }

    /** Move a queued ticket with its reservation to the active set and hand its waiter a lease. */
    method StartTicket(id: TicketId)
      requires Valid() && id in queued && (c.managed ==> id in reserved)
      modifies this
      ensures Valid() && Now() == Start(c, old(Now()), id)
    {
      hide SetStatus, CountDispatch, Start;
      ghost var before := Now();
      var ticket := queued[id];
      queued := queued - {id};
      status := SetStatus(status, {id}, Running);
      active := active[id := ticket];
      CountServed(ticket.actor);
      waiters := waiters - {id};
      Started(c, before, id);
    }

    method CountServed(actor: Option<string>)
      modifies this`dispatches
      ensures dispatches == CountDispatch(old(dispatches), actor)
    {
      if actor.Some? {
        var served := if actor.value in dispatches then dispatches[actor.value] else 0;
        dispatches := dispatches[actor.value := served + 1];
      }
    }

    /** Start tickets until slots are full or nothing more can start. */
    method DispatchLocked(now: real) returns (passes: seq<Pass>)
      requires Valid()
      modifies this
      ensures Valid() && Dispatch(c, old(Now()), now, passes, Now())
    {
      hide SetStatus, Dispatched;
      ExpireLocked(now);
      passes := StartRunnable(now);
    }

    /** One round: find the first runnable ticket with a reservation and start it. */
    method StartNext(now: real) returns (p: Pass)
      requires Valid() && |active| < c.maxHeavy && RunnableIds(c, Now()) != {}
      modifies this
      ensures Valid() && ValidPass(c, old(Now()), now, p)
      ensures p.started.None? ==> Now() == old(Now())
      ensures p.started.Some? ==> p.started.value in old(queued) && Now() == Start(c, old(Now()), p.started.value)
      ensures p.started.Some? ==> |queued| < |old(queued)|
    {
      hide ValidPass, Start, RunnableIds, WithReservation;
      ghost var before := Now();
      p := TryCandidates(now);
      ReserveThenStart(c, before, now, p);
      if p.started.Some? {
        StartTicket(p.started.value);
        StartShrinks(c, before, p.started.value);
      }
    }

    method StartRunnable(now: real) returns (passes: seq<Pass>)
      requires Valid()
      modifies this
      ensures Valid() && Dispatched(c, old(Now()), now, passes, Now())
    {
      hide ValidPass, Start, Dispatched, RunnableIds, Extends;
      passes := [];
      ghost var begun := Now();
      NoRoundsYet(c, begun, now);
      while |active| < c.maxHeavy && RunnableIds(c, Now()) != {}
        invariant Valid() && Extends(c, begun, now, passes, Now())
        decreases |queued|
      {
        ghost var before := Now();
        var p := StartNext(now);
        if p.started.None? {
          LastRound(c, begun, now, passes, before, p);
          passes := passes + [p];
          return;
        }
        OneMoreRound(c, begun, now, passes, before, p);
        passes := passes + [p];
      }
      NoMoreRounds(c, begun, now, passes, Now());
    }

    /** Names and map keys of the queue agree; kept by every method. */
    ghost predicate Valid()
      reads this
    {
      ValidConfig(c) && forall id :: id in queued ==> queued[id].id == id
    }

    /** Admit a request to the queue, then dispatch; `now` and `later` are two readings of the clock. */
    method Acquire(requestId: string, serviceKey: string, workload: WorkloadClass, timeout: Option<real>,
                   actor: Option<string>, app: Option<string>, session: Option<string>,
                   newId: TicketId, now: real, later: real)
      returns (r: Result<TicketId>, ghost op: Op)
      requires Valid() && newId !in status
      modifies this
      ensures Valid()
      ensures op.Acquire? && op.t.id == newId && op.t.requestId == requestId && op.t.workload == workload
      ensures op.t.serviceKey == serviceKey && op.t.actor == actor && op.t.app == app && op.t.session == session
      ensures op.t.createdAt == now && op.timeout == timeout
      ensures Step(c, old(Now()), op, Now())
      ensures r.Ok? <==> !(timeout.Some? && timeout.value <= 0.0) && Refusal(c, old(Now()), actor, app).None?
      ensures r.Err? ==> Now() == old(Now())
      ensures timeout.Some? && timeout.value <= 0.0 ==> r == Err("Worker queue deadline expired")
      ensures r.Err? && !(timeout.Some? && timeout.value <= 0.0) ==>
                Refusal(c, old(Now()), actor, app) == Some(r.message)
    {
      hide SetStatus, Step, Dispatch, Refusal, Prelude, Quiet, Enqueue, WellIssued;
      var deadline := if timeout.None? then None else Some(now + timeout.value);
      var ticket := Ticket(newId, requestId, serviceKey, workload, now, sequence + 1, deadline, actor, app, session);
      op := Op.Acquire(ticket, timeout, Round(later, []));
      Issued(Now(), op);
      if timeout.Some? && timeout.value <= 0.0 {
        RefusedStep(c, Now(), op);
        return Err("Worker queue deadline expired"), op;
      }
      var refusal := Refuse(actor, app);
      if refusal.Some? {
        RefusedStep(c, Now(), op);
        return Err(refusal.value), op;
      }
      ghost var before := Now();
      Admit(ticket);
      var passes := DispatchLocked(later);
      op := Op.Acquire(ticket, timeout, Round(later, passes));
      Issued(before, op);
      AdmittedStep(c, before, op, Now());
      r := Ok(newId);
    }

    /** The checks before admission, in order. */
    method Refuse(actor: Option<string>, app: Option<string>) returns (refusal: Option<string>)
      ensures refusal == Refusal(c, Now(), actor, app)
    {
      if closed { return Some("Worker scheduler is shutting down"); }
      if |queued| >= c.maxDepth { return Some("Worker scheduler queue is full"); }
      if actor.Some? && |OfActor(queued, actor.value)| >= c.maxQueuedPerActor {
        return Some("Worker scheduler actor queue is full");
      }
      if app.Some? && |OfApp(queued, app.value)| >= c.maxQueuedPerApp {
        return Some("Worker scheduler App queue is full");
      }
      refusal := None;
    }

    method Admit(ticket: Ticket)
      requires Valid() && ticket.sequence == sequence + 1
      modifies this
      ensures Valid() && Now() == Enqueue(old(Now()), ticket)
    {
      hide SetStatus, Enqueue;
      ghost var before := Now();
      Enqueued(before, ticket);
      sequence := sequence + 1;
      queued := queued[ticket.id := ticket];
      waiters := waiters + {ticket.id};
      status := SetStatus(status, {ticket.id}, Queued);
    }

    method ExpireTicket(id: TicketId, now: real) returns (found: bool, ghost op: Op)
      requires Valid()
      modifies this
      ensures Valid() && found == (id in old(queued))
      ensures op.ExpireTicket? && op.id == id && Step(c, old(Now()), op, Now())
    {
      hide SetStatus, Step, Dispatch, Dequeue;
      op := Op.ExpireTicket(id, Round(now, []));
      ghost var before := Now();
      if id !in queued {
        QuietStep(c, before, op);
        return false, op;
      }
      RemoveOne(id, Expired);
      var passes := DispatchLocked(now);
      op := Op.ExpireTicket(id, Round(now, passes));
      BusyStep(c, before, op, Dequeue(before, {id}, Expired), Now());
      found := true;
    }

    method Cancel(id: TicketId, now: real) returns (found: bool, ghost op: Op)
      requires Valid()
      modifies this
      ensures Valid() && found == (id in old(queued))
      ensures op.Cancel? && op.id == id && Step(c, old(Now()), op, Now())
    {
      hide SetStatus, Step, Dispatch, Dequeue;
      op := Op.Cancel(id, Round(now, []));
      ghost var before := Now();
      if id !in queued {
        QuietStep(c, before, op);
        return false, op;
      }
      RemoveOne(id, Cancelled);
      var passes := DispatchLocked(now);
      op := Op.Cancel(id, Round(now, passes));
      BusyStep(c, before, op, Dequeue(before, {id}, Cancelled), Now());
      found := true;
    }

    /** Cancel matching queued work only; an active lease of the same request forbids it. */
    method CancelQueuedRequest(request: Request, now: real) returns (found: bool, ghost op: Op)
      requires Valid()
      modifies this
      ensures Valid()
      ensures op.CancelRequest? && op.request == request && Step(c, old(Now()), op, Now())
      ensures found <==> && request.actor != "" && request.requestId != ""
                         && (forall id :: id in old(active) ==> Fields(old(active)[id]) != FieldsWanted(request))
                         && (exists id :: id in old(queued) && Fields(old(queued)[id]) == FieldsWanted(request))
      ensures !found ==> Now() == old(Now())
    {
      hide SetStatus, Step, Dispatch, Dequeue, MatchingIds, Fields, FieldsWanted;
      op := Op.CancelRequest(request, Round(now, []));
      ghost var before := Now();
      MatchesAre(active, request);
      MatchesAre(queued, request);
      var busy := WithFields(active, FieldsWanted(request));
      assert forall id :: id in active ==> (id in busy <==> Fields(active[id]) == FieldsWanted(request));
      if request.actor == "" || request.requestId == "" || busy != {} {
        QuietStep(c, before, op);
        return false, op;
      }
      var matches := WithFields(queued, FieldsWanted(request));
      assert forall id :: id in queued && Fields(queued[id]) == FieldsWanted(request) ==> id in matches;
      if matches == {} {
        QuietStep(c, before, op);
        return false, op;
      }
      assert exists id :: id in queued && Fields(queued[id]) == FieldsWanted(request) by {
        var id :| id in matches;
        assert id in queued && Fields(queued[id]) == FieldsWanted(request);
      }
      RemoveAll(matches, Cancelled);
      var passes := DispatchLocked(now);
      op := Op.CancelRequest(request, Round(now, passes));
      BusyStep(c, before, op, Dequeue(before, matches, Cancelled), Now());
      found := true;
    }

    method RemoveAll(ids: set<TicketId>, st: Status)
      requires Valid() && (st.Expired? || st.Cancelled?)
      modifies this
      ensures Valid() && Now() == Dequeue(old(Now()), ids, st)
    {
      hide SetStatus, Dequeue;
      ghost var before := Now();
      NothingDequeued(before, st);
      assert ids - ids == {};
      var todo := ids;
      while todo != {}
        invariant Valid() && todo <= ids
        invariant Now() == Dequeue(before, ids - todo, st)
        decreases |todo|
      {
        var id :| id in todo;
        RemoveOne(id, st);
        DequeueOneMore(before, ids - todo, id, st);
        assert ids - (todo - {id}) == ids - todo + {id};
        todo := todo - {id};
      }
      assert ids - {} == ids;
    }

    method Release(id: TicketId, failedRun: bool, cancelledRun: bool, now: real) returns (ghost op: Op)
      requires Valid()
      modifies this
      ensures Valid()
      ensures op.Release? && op.id == id && op.failedRun == failedRun && op.cancelledRun == cancelledRun
      ensures Step(c, old(Now()), op, Now())
    {
      hide SetStatus, Step, Dispatch, Deactivate;
      op := Op.Release(id, failedRun, cancelledRun, Round(now, []));
      ghost var before := Now();
      if id !in active {
        QuietStep(c, before, op);
        return;
      }
      Count(id, failedRun, cancelledRun);
      var passes := DispatchLocked(now);
      op := Op.Release(id, failedRun, cancelledRun, Round(now, passes));
      BusyStep(c, before, op, Deactivate(before, id, Finished(failedRun, cancelledRun)), Now());
    }

    /** Pop an active ticket, give back its reservation and count its outcome. */
    method Count(id: TicketId, failedRun: bool, cancelledRun: bool)
      requires Valid()
      modifies this
      ensures Valid() && Now() == Deactivate(old(Now()), id, Finished(failedRun, cancelledRun))
    {
      hide SetStatus, Deactivate, Finished;
      Deactivated(Now(), id, Finished(failedRun, cancelledRun));
      active := active - {id};
      reserved := reserved - {id};
      var outcome := if cancelledRun then Cancelled else if failedRun then Failed else Succeeded;
      OutcomeIs(failedRun, cancelledRun);
      status := SetStatus(status, {id}, outcome);
      CountOutcome(failedRun, cancelledRun);
    }

    /** One outcome in exactly one counter; a cancelled run is not a failed one. */
    method CountOutcome(failedRun: bool, cancelledRun: bool)
      modifies this`cancelled, this`failed, this`completed
      ensures cancelled == old(cancelled) + if cancelledRun then 1 else 0
      ensures failed == old(failed) + if failedRun && !cancelledRun then 1 else 0
      ensures completed == old(completed) + if !failedRun && !cancelledRun then 1 else 0
    {
      if cancelledRun {
        cancelled := cancelled + 1;
      } else if failedRun {
        failed := failed + 1;
      } else {
        completed := completed + 1;
      }
    }

    /** Expire what is overdue, without dispatching, and report totals, counts and the queue in priority order. */
    method Snapshot(now: real) returns (report: SchedulerReport.Report)
      requires Valid()
      modifies this
      ensures Valid() && Step(c, old(Now()), Op.Snapshot(now), Now())
      ensures SchedulerReport.Reports(c, Now(), report)
      ensures Lists(report.tickets, queued.Keys)
      ensures forall i, j :: 0 <= i < j < |report.tickets| ==>
                && report.tickets[i] in queued && report.tickets[j] in queued
                && Before(c, Now(), now, report.tickets[i], report.tickets[j])
    {
      hide SetStatus, Step, Dequeue, Before, SchedulerReport.Reports;
      ghost var before := Now();
      ExpireLocked(now);
      ExpireShrinks(c, before, now);
      QuietStep(c, before, Op.Snapshot(now));
      var tickets := SortedQueue(c, Now(), now);
      report := SchedulerReport.ReportState(c, Now(), tickets);
    }

    method SetWorkerSlots(key: string, limit: int) returns (r: Result<nat>)
      requires Valid()
      modifies this
      ensures Valid() && (r.Ok? <==> limit >= 1)
      ensures r.Err? ==> Now() == old(Now())
      ensures r.Ok? ==> Step(c, old(Now()), Op.SetSlots(key, limit), Now())
    {
      hide Step;
      if limit < 1 {
        return Err("Worker slot limit must be positive");
      }
      ghost var before := Now();
      slots := slots[key := limit];
      QuietStep(c, before, Op.SetSlots(key, limit));
      r := Ok(limit);
    }

    /** Pause or resume background admission for one reason. */
    method SetBackgroundGate(reason: string, paused: bool, now: real) returns (r: Result<string>, ghost op: Op)
      requires Valid()
      modifies this
      ensures Valid() && (r.Ok? <==> reason != "")
      ensures r.Err? ==> Now() == old(Now())
      ensures r.Ok? ==> op.SetGate? && op.reason == reason && op.paused == paused && Step(c, old(Now()), op, Now())
    {
      hide Step, Dispatch;
      op := Op.SetGate(reason, paused, Round(now, []));
      if reason == "" {
        return Err("Background gate reason is required"), op;
      }
      ghost var before := Now();
      if paused { gates := gates + {reason}; } else { gates := gates - {reason}; }
      ghost var m := Now();
      var passes := DispatchLocked(now);
      op := Op.SetGate(reason, paused, Round(now, passes));
      BusyStep(c, before, op, m, Now());
      r := Ok(reason);
    }

    method NotifyResourcesChanged(now: real) returns (ghost op: Op)
      requires Valid()
      modifies this
      ensures Valid() && op.Notify? && Step(c, old(Now()), op, Now())
    {
      hide Step, Dispatch;
      ghost var before := Now();
      var passes := DispatchLocked(now);
      op := Op.Notify(Round(now, passes));
      BusyStep(c, before, op, before, Now());
    }

    method Shutdown()
      requires Valid()
      modifies this
      ensures Valid() && Step(c, old(Now()), Op.Shutdown, Now())
      ensures closed && queued == map[] && waiters == {} && active == old(active)
    {
      hide Step, SetStatus;
      ShutdownStep(c, Now());
      Clear(queued.Keys, |queued|);
    }

    /** Close, cancel everything queued and drop all waiters. */
    method Clear(ids: set<TicketId>, count: nat)
      modifies this
      ensures Now() == Cleared(old(Now()), ids, count)
    {
      hide SetStatus, Cleared;
      ClearedFields(Now(), ids, count);
      closed := true;
      status := SetStatus(status, ids, Cancelled);
      cancelled := cancelled + count;
      queued := map[];
      waiters := {};
    }
  }

  /** A scheduler with limits that must all be positive. */
  method MakeScheduler(maxHeavy: int, defaultSlots: int, maxDepth: int, agingInterval: real, maxActivePerActor: int,
                       maxQueuedPerActor: int, maxQueuedPerApp: int, managed: bool)
    returns (r: Result<WorkerJobScheduler>)
    ensures r.Ok? <==>
              && maxHeavy > 0 && defaultSlots > 0 && maxDepth > 0 && agingInterval > 0.0
              && maxActivePerActor > 0 && maxQueuedPerActor > 0 && maxQueuedPerApp > 0
    ensures r.Ok? ==> fresh(r.value) && r.value.Valid() && r.value.Now() == Initial()
    ensures r.Ok? ==> r.value.c == Config(maxHeavy, defaultSlots, maxDepth, agingInterval, maxActivePerActor,
                                          maxQueuedPerActor, maxQueuedPerApp, managed)
  {
    if maxHeavy < 1 || defaultSlots < 1 { return Err("Scheduler slot limits must be positive"); }
    if maxDepth < 1 || agingInterval <= 0.0 { return Err("Scheduler queue limits must be positive"); }
    if Min(Min(maxActivePerActor, maxQueuedPerActor), maxQueuedPerApp) < 1 {
      return Err("Scheduler actor/App limits must be positive");
    }
    var c := Config(maxHeavy, defaultSlots, maxDepth, agingInterval, maxActivePerActor, maxQueuedPerActor,
                    maxQueuedPerApp, managed);
    var scheduler := new WorkerJobScheduler(c);
    r := Ok(scheduler);
  }

  /** One admitted ticket; only the first release reaches the scheduler. */
  class SchedulerLease {
    const scheduler: WorkerJobScheduler
    const ticket: TicketId
    var released: bool

    constructor (scheduler: WorkerJobScheduler, ticket: TicketId)
      ensures this.scheduler == scheduler && this.ticket == ticket && !released
    {
      this.scheduler, this.ticket, released := scheduler, ticket, false;
    }

    method Release(failedRun: bool, cancelledRun: bool, now: real)
      requires scheduler.Valid()
      modifies this, scheduler
      ensures scheduler.Valid() && released
      ensures old(released) ==> scheduler.Now() == old(scheduler.Now())
      ensures !old(released) ==>
                exists round ::
                  Step(scheduler.c, old(scheduler.Now()), Op.Release(ticket, failedRun, cancelledRun, round),
                       scheduler.Now())
    {
      hide Step;
      if released {
        return;
      }
      released := true;
      ghost var op := scheduler.Release(ticket, failedRun, cancelledRun, now);
      assert op == Op.Release(ticket, failedRun, cancelledRun, op.round);
    }
  }

  /** What a cancellation compares. */
  function Fields(t: Ticket): (string, string, Option<string>, Option<string>, Option<string>) {
    (t.serviceKey, t.requestId, t.actor, t.app, t.session)
  }

  function FieldsWanted(r: Request): (string, string, Option<string>, Option<string>, Option<string>) {
    (r.serviceKey, r.requestId, Some(r.actor), r.app, r.session)
  }

  function WithFields(tickets: map<TicketId, Ticket>,
                      fields: (string, string, Option<string>, Option<string>, Option<string>)): set<TicketId>
  {
    set id | id in tickets && Fields(tickets[id]) == fields
  }

  /** A step that dispatches from the state `m`. */
  lemma BusyStep(c: Config, s: State, op: Op, m: State, s': State)
    requires c.agingInterval > 0.0 && WellIssued(s, op) && Prelude(c, s, op) == Some(m)
    requires Dispatch(c, m, op.round.now, op.round.passes, s')
    ensures Step(c, s, op, s')
  {
    hide Dispatch, Prelude, WellIssued;
  }

  lemma QuietStep(c: Config, s: State, op: Op)
    requires c.agingInterval > 0.0 && WellIssued(s, op) && Prelude(c, s, op) == None
    ensures Step(c, s, op, Quiet(s, op))
  {
    hide Dispatch, Prelude, WellIssued;
  }

  lemma Issued(s: State, op: Op)
    requires op.Acquire? && op.t.sequence == s.sequence + 1 && op.t.id !in s.status
    requires op.t.deadline == if op.timeout.None? then None else Some(op.t.createdAt + op.timeout.value)
    ensures WellIssued(s, op)
  {
  }

  /** Admission that is refused, for whichever reason. */
  lemma RefusedStep(c: Config, s: State, op: Op)
    requires c.agingInterval > 0.0 && WellIssued(s, op) && op.Acquire?
    requires (op.timeout.Some? && op.timeout.value <= 0.0) || Refusal(c, s, op.t.actor, op.t.app).Some?
    ensures Step(c, s, op, s)
  {
    hide Refusal, WellIssued, Dispatch;
    QuietStep(c, s, op);
  }

  lemma AdmittedStep(c: Config, s: State, op: Op, s': State)
    requires c.agingInterval > 0.0 && WellIssued(s, op) && op.Acquire?
    requires !(op.timeout.Some? && op.timeout.value <= 0.0) && Refusal(c, s, op.t.actor, op.t.app).None?
    requires Dispatch(c, Enqueue(s, op.t), op.round.now, op.round.passes, s')
    ensures Step(c, s, op, s')
  {
    hide Refusal, WellIssued, Dispatch, Enqueue;
    BusyStep(c, s, op, Enqueue(s, op.t), s');
  }

  function AfterShutdown(s: State): State {
    Cleared(s, s.queued.Keys, |s.queued|)
  }

  /** The closed state with an empty queue, once `count` tickets were cancelled. */
  function Cleared(s: State, ids: set<TicketId>, count: nat): State {
    s.(closed := true, queued := map[], waiters := {}, status := SetStatus(s.status, ids, Cancelled),
       cancelled := s.cancelled + count)
  }

  lemma ClearedFields(s: State, ids: set<TicketId>, count: nat)
    ensures Cleared(s, ids, count)
         == State(map[], s.active, {}, s.reserved, s.slots, s.sequence, true, s.completed, s.failed,
                  s.cancelled + count, s.expired,
                  s.dispatches, s.gates, SetStatus(s.status, ids, Cancelled))
  {
    hide SetStatus;
  }

  lemma NoneLeft(queued: map<TicketId, Ticket>)
    ensures queued - queued.Keys == map[] && |queued.Keys| == |queued|
  {
  }

  lemma QuietShutdown(s: State)
    ensures Quiet(s, Op.Shutdown) == AfterShutdown(s)
  {
    hide SetStatus;
    NoneLeft(s.queued);
  }

  lemma ShutdownStep(c: Config, s: State)
    requires c.agingInterval > 0.0
    ensures Step(c, s, Op.Shutdown, AfterShutdown(s))
  {
    QuietShutdown(s);
    QuietStep(c, s, Op.Shutdown);
    hide Step, Quiet, AfterShutdown;
  }

  lemma ExpireShrinks(c: Config, s: State, now: real)
    ensures Expire(s, now).queued.Keys <= s.queued.Keys
    ensures forall id :: id in Expire(s, now).queued ==> Expire(s, now).queued[id] == s.queued[id]
  {
    hide SetStatus;
  }

  /** The reservation granted in a round. */
  function WithReservation(c: Config, s: State, p: Pass): State {
    if c.managed && p.started.Some? then s.(reserved := s.reserved + {p.started.value}) else s
  }

  /** Reserving first and then starting is the same as starting. */
  lemma ReserveThenStart(c: Config, s: State, now: real, p: Pass)
    requires c.agingInterval > 0.0 && ValidPass(c, s, now, p)
    ensures WithReservation(c, s, p).queued == s.queued
    ensures p.started.None? ==> WithReservation(c, s, p) == s
    ensures p.started.Some? ==>
              && p.started.value in s.queued && (c.managed ==> p.started.value in WithReservation(c, s, p).reserved)
              && Start(c, WithReservation(c, s, p), p.started.value) == Start(c, s, p.started.value)
  {
    if p.started.Some? {
      RunnableIsQueued(c, s, now, p);
      hide ValidPass, SetStatus, CountDispatch;
      var id := p.started.value;
      assert s.reserved + {id} + {id} == s.reserved + {id};
    }
  }

  /** The queue in priority order. */
  method SortedQueue(c: Config, s: State, now: real) returns (order: seq<TicketId>)
    requires ValidConfig(c) && forall id :: id in s.queued ==> s.queued[id].id == id
    ensures NoDuplicates(order) && (forall id :: id in order <==> id in s.queued)
    ensures forall i, j :: 0 <= i < j < |order| ==>
              order[i] in s.queued && order[j] in s.queued && Before(c, s, now, order[i], order[j])
  {
    hide Before;
    order := [];
    var rest := s.queued.Keys;
    while rest != {}
      invariant rest <= s.queued.Keys && (forall id :: id in order <==> id in s.queued.Keys - rest)
      invariant NoDuplicates(order) && AllBefore(c, s, now, s.queued.Keys - rest, rest)
      invariant forall i, j :: 0 <= i < j < |order| ==> Before(c, s, now, order[i], order[j])
      decreases |rest|
    {
      var next := FirstByPriority(c, s, rest, now);
      TakenInOrder(c, s, now, s.queued.Keys, rest, next);
      order := order + [next];
      rest := rest - {next};
    }
  }

  /** The ticket of the given ones that comes first in priority order. */
  method FirstByPriority(c: Config, s: State, ids: set<TicketId>, now: real) returns (first: TicketId)
    requires ValidConfig(c) && ids != {} && ids <= s.queued.Keys
    requires forall id :: id in s.queued ==> s.queued[id].id == id
    ensures first in ids
    ensures AllBefore(c, s, now, {first}, ids - {first})
  {
    hide Before;
    first :| first in ids;
    var todo := ids - {first};
    while todo != {}
      invariant first in ids && first !in todo && todo <= ids
      invariant AllBefore(c, s, now, {first}, ids - todo - {first})
      decreases |todo|
    {
      var id :| id in todo;
      todo := todo - {id};
      BeforeIsTotal(c, s, now, id, first);
      if Before(c, s, now, id, first) {
        forall other | other in ids - todo - {id} && other != first ensures Before(c, s, now, id, other) {
          BeforeIsTransitive(c, s, now, id, first, other);
        }
        first := id;
      }
    }
  }

  /** Every ticket of the first set comes before every ticket of the second. */
  ghost predicate AllBefore(c: Config, s: State, now: real, firsts: set<TicketId>, lasts: set<TicketId>)
    requires c.agingInterval > 0.0
  {
    && firsts <= s.queued.Keys && lasts <= s.queued.Keys
    && forall a, b :: a in firsts && b in lasts ==> Before(c, s, now, a, b)
  }

  lemma BeforeIsTotal(c: Config, s: State, now: real, a: TicketId, b: TicketId)
    requires c.agingInterval > 0.0 && a in s.queued && b in s.queued && a != b
    requires s.queued[a].id == a && s.queued[b].id == b
    ensures Before(c, s, now, a, b) != Before(c, s, now, b, a)
  {
    var x, y := Priority(c, s.dispatches, s.queued[a], now), Priority(c, s.dispatches, s.queued[b], now);
    hide EffectiveRank;
    Proofs.PriorityIsStrictTotal(x, y, x);
  }

  lemma BeforeIsTransitive(c: Config, s: State, now: real, a: TicketId, b: TicketId, d: TicketId)
    requires c.agingInterval > 0.0 && a in s.queued && b in s.queued && d in s.queued && a != b
    requires s.queued[a].id == a && s.queued[b].id == b
    requires Before(c, s, now, a, b) && Before(c, s, now, b, d)
    ensures Before(c, s, now, a, d)
  {
    var x, y := Priority(c, s.dispatches, s.queued[a], now), Priority(c, s.dispatches, s.queued[b], now);
    hide EffectiveRank;
    Proofs.PriorityIsStrictTotal(x, y, Priority(c, s.dispatches, s.queued[d], now));
  }

  /** The refused tickets are exactly the candidates before the one that is tried next. */
  lemma RefusedAreBefore(c: Config, s: State, now: real, candidates: set<TicketId>, rest: set<TicketId>, next: TicketId)
    requires c.agingInterval > 0.0 && candidates <= s.queued.Keys && rest <= candidates && next in rest
    requires forall id :: id in s.queued ==> s.queued[id].id == id
    requires AllBefore(c, s, now, candidates - rest, rest) && AllBefore(c, s, now, {next}, rest - {next})
    ensures forall other :: other in candidates ==> (other in candidates - rest <==> Before(c, s, now, other, next))
  {
    hide Before;
    forall other | other in candidates ensures other in candidates - rest <==> Before(c, s, now, other, next) {
      if other == next {
        BeforeIsIrreflexive(c, s, now, next);
      } else {
        BeforeIsTotal(c, s, now, other, next);
      }
    }
  }

  lemma BeforeIsIrreflexive(c: Config, s: State, now: real, a: TicketId)
    requires c.agingInterval > 0.0 && a in s.queued
    ensures !Before(c, s, now, a, a)
  {
  }

  lemma TakenInOrder(c: Config, s: State, now: real, candidates: set<TicketId>, rest: set<TicketId>, next: TicketId)
    requires c.agingInterval > 0.0 && rest <= candidates && next in rest
    requires AllBefore(c, s, now, candidates - rest, rest) && AllBefore(c, s, now, {next}, rest - {next})
    ensures AllBefore(c, s, now, candidates - (rest - {next}), rest - {next})
  {
    hide Before;
  }

  /** Rounds so far: whatever dispatch continues from `s` continues the one begun at `begun`. */
  ghost predicate Extends(c: Config, begun: State, now: real, passes: seq<Pass>, s: State)
    requires c.agingInterval > 0.0
  {
    forall more, end :: Dispatched(c, s, now, more, end) ==> Dispatched(c, begun, now, passes + more, end)
  }

  lemma NoRoundsYet(c: Config, s: State, now: real)
    requires c.agingInterval > 0.0
    ensures Extends(c, s, now, [], s)
  {
    forall more: seq<Pass> ensures [] + more == more {}
  }

  lemma NoMoreRounds(c: Config, begun: State, now: real, passes: seq<Pass>, s: State)
    requires c.agingInterval > 0.0 && Extends(c, begun, now, passes, s)
    requires |s.active| >= c.maxHeavy || RunnableIds(c, s) == {}
    ensures Dispatched(c, begun, now, passes, s)
  {
    hide RunnableIds;
    assert Dispatched(c, s, now, [], s);
    assert passes + [] == passes;
  }

  lemma LastRound(c: Config, begun: State, now: real, passes: seq<Pass>, s: State, p: Pass)
    requires c.agingInterval > 0.0 && Extends(c, begun, now, passes, s)
    requires ValidPass(c, s, now, p) && p.started.None?
    ensures Dispatched(c, begun, now, passes + [p], s)
  {
    hide ValidPass;
    assert Dispatched(c, s, now, [p], s);
  }

  lemma OneMoreRound(c: Config, begun: State, now: real, passes: seq<Pass>, s: State, p: Pass)
    requires c.agingInterval > 0.0 && Extends(c, begun, now, passes, s)
    requires ValidPass(c, s, now, p) && p.started.Some? && p.started.value in s.queued
    ensures Extends(c, begun, now, passes + [p], Start(c, s, p.started.value))
  {
    hide ValidPass, Start;
    var s' := Start(c, s, p.started.value);
    forall more, end | Dispatched(c, s', now, more, end)
      ensures Dispatched(c, begun, now, passes + [p] + more, end)
    {
      assert ([p] + more)[1..] == more;
      assert Dispatched(c, s, now, [p] + more, end);
      assert passes + ([p] + more) == passes + [p] + more;
    }
  }

  lemma RunnableIsQueued(c: Config, s: State, now: real, p: Pass)
    requires c.agingInterval > 0.0 && ValidPass(c, s, now, p) && p.started.Some?
    ensures p.started.value in s.queued
  {
    hide Runnable;
  }

  lemma StartShrinks(c: Config, s: State, id: TicketId)
    requires id in s.queued
    ensures Start(c, s, id).queued == s.queued - {id} && |Start(c, s, id).queued| < |s.queued|
  {
    hide SetStatus;
    assert (s.queued - {id}).Keys == s.queued.Keys - {id};
    assert |s.queued.Keys - {id}| == |s.queued.Keys| - 1;
    assert |s.queued.Keys| == |s.queued| && |(s.queued - {id}).Keys| == |s.queued - {id}|;
  }

  /** The queued tickets seen so far are out exactly when they are overdue. */
  ghost predicate Sorted(s: State, now: real, gone: set<TicketId>, todo: set<TicketId>) {
    && gone <= s.queued.Keys && (forall id :: id in gone ==> IsOverdue(s.queued[id], now))
    && forall id :: id in s.queued && id !in gone && id !in todo ==> !IsOverdue(s.queued[id], now)
  }

  lemma NothingSorted(s: State, now: real)
    ensures Sorted(s, now, {}, s.queued.Keys)
  {
  }

  lemma OutcomeIs(failedRun: bool, cancelledRun: bool)
    ensures Finished(failedRun, cancelledRun)
            == if cancelledRun then Cancelled else if failedRun then Failed else Succeeded
  {
  }

  lemma OverdueIs(t: Ticket, now: real)
    ensures IsOverdue(t, now) <==> t.deadline.Some? && t.deadline.value <= now
  {
  }

  lemma MatchesAre(tickets: map<TicketId, Ticket>, request: Request)
    ensures MatchingIds(tickets, request) == WithFields(tickets, FieldsWanted(request))
  {
  }

  lemma OverdueGone(s: State, now: real, gone: set<TicketId>, todo: set<TicketId>, id: TicketId)
    requires Sorted(s, now, gone, todo + {id}) && id in s.queued && IsOverdue(s.queued[id], now)
    ensures Sorted(s, now, gone + {id}, todo)
  {
  }

  lemma NotOverdue(s: State, now: real, gone: set<TicketId>, todo: set<TicketId>, id: TicketId)
    requires Sorted(s, now, gone, todo + {id}) && id in s.queued && !IsOverdue(s.queued[id], now)
    ensures Sorted(s, now, gone, todo)
  {
  }

  lemma AllSorted(s: State, now: real, gone: set<TicketId>)
    requires Sorted(s, now, gone, {})
    ensures gone == Overdue(s, now)
  {
  }

  lemma Started(c: Config, s: State, id: TicketId)
    requires id in s.queued && (c.managed ==> id in s.reserved)
    ensures Start(c, s, id)
            == State(s.queued - {id}, s.active[id := s.queued[id]], s.waiters - {id}, s.reserved, s.slots, s.sequence,
                     s.closed, s.completed,
                     s.failed, s.cancelled, s.expired, CountDispatch(s.dispatches, s.queued[id].actor), s.gates,
                     SetStatus(s.status, {id}, Running))
  {
    hide SetStatus, CountDispatch;
    assert c.managed ==> s.reserved == s.reserved + {id};
  }

  lemma Deactivated(s: State, id: TicketId, st: Status)
    ensures Deactivate(s, id, st)
            == State(s.queued, s.active - {id}, s.waiters, s.reserved - {id}, s.slots, s.sequence, s.closed,
                     if st.Succeeded? then s.completed + 1 else s.completed,
                     if st.Failed? then s.failed + 1 else s.failed,
                     if st.Cancelled? then s.cancelled + 1 else s.cancelled,
                     s.expired, s.dispatches, s.gates, SetStatus(s.status, {id}, st))
  {
    hide SetStatus;
  }

  lemma Enqueued(s: State, t: Ticket)
    ensures Enqueue(s, t)
            == State(s.queued[t.id := t], s.active, s.waiters + {t.id}, s.reserved, s.slots, s.sequence + 1, s.closed,
                     s.completed, s.failed,
                     s.cancelled, s.expired, s.dispatches, s.gates, SetStatus(s.status, {t.id}, Queued))
  {
    hide SetStatus;
  }

  lemma DequeuedOne(s: State, id: TicketId, st: Status)
    requires st.Expired? || st.Cancelled?
    ensures Dequeue(s, {id}, st)
            == State(s.queued - {id}, s.active, s.waiters - {id}, s.reserved, s.slots, s.sequence, s.closed,
                     s.completed, s.failed,
                     if st.Cancelled? then s.cancelled + 1 else s.cancelled,
                     if st.Expired? then s.expired + 1 else s.expired,
                     s.dispatches, s.gates, SetStatus(s.status, {id}, st))
  {
    hide SetStatus;
  }

  lemma NothingDequeued(s: State, st: Status)
    requires st.Expired? || st.Cancelled?
    ensures Dequeue(s, {}, st) == s
  {
    assert s.queued - {} == s.queued;
    assert SetStatus(s.status, {}, st) == s.status;
  }

  lemma StillQueued(s: State, gone: set<TicketId>, id: TicketId, st: Status)
    requires (st.Expired? || st.Cancelled?) && id in s.queued && id !in gone
    ensures id in Dequeue(s, gone, st).queued && Dequeue(s, gone, st).queued[id] == s.queued[id]
  {
    hide SetStatus;
  }

  /** Taking one more ticket out is taking the larger set out. */
  lemma DequeueOneMore(s: State, gone: set<TicketId>, id: TicketId, st: Status)
    requires id !in gone && (st.Expired? || st.Cancelled?)
    ensures Dequeue(Dequeue(s, gone, st), {id}, st) == Dequeue(s, gone + {id}, st)
  {
    SetOneMoreStatus(s.status, gone, id, st);
    hide SetStatus;
    assert s.queued - gone - {id} == s.queued - (gone + {id});
    assert s.waiters - gone - {id} == s.waiters - (gone + {id});
  }

  lemma SetOneMoreStatus(status: map<TicketId, Status>, gone: set<TicketId>, id: TicketId, st: Status)
    ensures SetStatus(SetStatus(status, gone, st), {id}, st) == SetStatus(status, gone + {id}, st)
  {
  }
}
