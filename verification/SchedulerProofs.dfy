/** What every reachable scheduler state keeps, and what whole runs conserve. */
module SchedulerProofs {
  import opened Base
  import opened Scheduling

  /******* The invariant *******/

  ghost function WithStatus(status: map<TicketId, Status>, st: Status): set<TicketId> {
    set id | id in status && status[id] == st
  }

  /** Queue, active set, waiters and reservations fit together. */
  ghost predicate Consistent(c: Config, s: State) {
    && s.waiters == s.queued.Keys
    && s.reserved == (if c.managed then s.active.Keys else {})
    && s.queued.Keys == WithStatus(s.status, Queued)
    && s.active.Keys == WithStatus(s.status, Running)
    && (forall id :: id in s.queued ==> s.queued[id].id == id && s.queued[id].sequence <= s.sequence)
    && (s.closed ==> s.queued == map[])
  }

  ghost predicate Bounded(c: Config, s: State) {
    && |s.active| <= c.maxHeavy
    && (forall a :: |OfActor(s.active, a)| <= c.maxActivePerActor)
    && |s.queued| <= c.maxDepth
    && (forall a :: |OfActor(s.queued, a)| <= c.maxQueuedPerActor)
    && (forall a :: |OfApp(s.queued, a)| <= c.maxQueuedPerApp)
  }

  /** Every counter counts the tickets with its final status, and every issued ticket has one status. */
  ghost predicate Counted(s: State) {
    && |s.status| == s.sequence
    && s.completed == |WithStatus(s.status, Succeeded)|
    && s.failed == |WithStatus(s.status, Failed)|
    && s.cancelled == |WithStatus(s.status, Cancelled)|
    && s.expired == |WithStatus(s.status, Expired)|
  }

  ghost predicate Inv(c: Config, s: State) {
    ValidConfig(c) && Consistent(c, s) && Bounded(c, s) && Counted(s)
  }

  lemma SubsetSize<T>(a: set<T>, b: set<T>)
    requires a <= b
    ensures |a| <= |b|
  {
    assert b == a + (b - a);
  }

  /** Moving issued tickets from one status to another moves exactly them between the two classes. */
  lemma StatusMoves(status: map<TicketId, Status>, ids: set<TicketId>, from: Status, to: Status)
    requires ids <= WithStatus(status, from) && from != to
    ensures |SetStatus(status, ids, to)| == |status|
    ensures WithStatus(SetStatus(status, ids, to), to) == WithStatus(status, to) + ids
    ensures |WithStatus(SetStatus(status, ids, to), to)| == |WithStatus(status, to)| + |ids|
    ensures WithStatus(SetStatus(status, ids, to), from) == WithStatus(status, from) - ids
    ensures forall other :: other != to && other != from ==>
              WithStatus(SetStatus(status, ids, to), other) == WithStatus(status, other)
  {
    ClassesMove(status, ids, from, to);
    var after := SetStatus(status, ids, to);
    hide SetStatus;
    assert after.Keys == status.Keys;
    assert |after.Keys| == |after| && |status.Keys| == |status|;
    assert WithStatus(status, to) !! ids;
  }

  lemma ClassesMove(status: map<TicketId, Status>, ids: set<TicketId>, from: Status, to: Status)
    requires ids <= WithStatus(status, from) && from != to
    ensures WithStatus(SetStatus(status, ids, to), to) == WithStatus(status, to) + ids
    ensures WithStatus(SetStatus(status, ids, to), from) == WithStatus(status, from) - ids
    ensures forall other :: other != to && other != from ==>
              WithStatus(SetStatus(status, ids, to), other) == WithStatus(status, other)
  {
    hide SetStatus;
  }

  /** Moving tickets out of a live status keeps the counters exact when the target's counter moves along. */
  lemma MoveKeepsCount(s: State, s': State, ids: set<TicketId>, from: Status, to: Status)
    requires Counted(s) && ids <= WithStatus(s.status, from) && (from.Queued? || from.Running?) && from != to
    requires s'.status == SetStatus(s.status, ids, to) && s'.sequence == s.sequence
    requires s'.completed == s.completed + (if to.Succeeded? then |ids| else 0)
    requires s'.failed == s.failed + (if to.Failed? then |ids| else 0)
    requires s'.cancelled == s.cancelled + (if to.Cancelled? then |ids| else 0)
    requires s'.expired == s.expired + (if to.Expired? then |ids| else 0)
    ensures Counted(s')
    ensures WithStatus(s'.status, from) == WithStatus(s.status, from) - ids
    ensures WithStatus(s'.status, to) == WithStatus(s.status, to) + ids
    ensures forall other :: other != to && other != from ==> WithStatus(s'.status, other) == WithStatus(s.status, other)
  {
    hide SetStatus, WithStatus;
    StatusMoves(s.status, ids, from, to);
    assert s'.completed == |WithStatus(s'.status, Succeeded)|;
    assert s'.failed == |WithStatus(s'.status, Failed)|;
    assert s'.cancelled == |WithStatus(s'.status, Cancelled)|;
    assert s'.expired == |WithStatus(s'.status, Expired)|;
  }

  lemma NewStatus(status: map<TicketId, Status>, id: TicketId)
    requires id !in status
    ensures |SetStatus(status, {id}, Queued)| == |status| + 1
    ensures WithStatus(SetStatus(status, {id}, Queued), Queued) == WithStatus(status, Queued) + {id}
    ensures forall other :: other != Queued ==>
              WithStatus(SetStatus(status, {id}, Queued), other) == WithStatus(status, other)
  {
    var after := SetStatus(status, {id}, Queued);
    assert after.Keys == status.Keys + {id};
    assert |after.Keys| == |status.Keys| + 1;
    assert |after.Keys| == |after| && |status.Keys| == |status|;
  }

  /** Fewer queued tickets never break a queue bound. */
  lemma FewerQueued(c: Config, s: State, s': State)
    requires Bounded(c, s) && |s'.active| <= c.maxHeavy && (forall a :: |OfActor(s'.active, a)| <= c.maxActivePerActor)
    requires s'.queued.Keys <= s.queued.Keys && forall id :: id in s'.queued ==> s'.queued[id] == s.queued[id]
    ensures Bounded(c, s')
  {
    SubsetSize(s'.queued.Keys, s.queued.Keys);
    KeysSize(s'.queued);
    KeysSize(s.queued);
    forall a ensures |OfActor(s'.queued, a)| <= c.maxQueuedPerActor {
      SubsetSize(OfActor(s'.queued, a), OfActor(s.queued, a));
    }
    forall a ensures |OfApp(s'.queued, a)| <= c.maxQueuedPerApp {
      SubsetSize(OfApp(s'.queued, a), OfApp(s.queued, a));
    }
  }

  /** Consistency only needs the queue and active set to move along with the two live classes. */
  lemma StaysConsistent(c: Config, s: State, s': State)
    requires Consistent(c, s) && s'.closed == s.closed
    requires s'.waiters == s'.queued.Keys == WithStatus(s'.status, Queued)
    requires s'.active.Keys == WithStatus(s'.status, Running)
    requires s'.reserved == (if c.managed then s'.active.Keys else {})
    requires s'.queued.Keys <= s.queued.Keys && s'.sequence == s.sequence
    requires forall id :: id in s'.queued ==> s'.queued[id] == s.queued[id]
    ensures Consistent(c, s')
  {
    hide WithStatus;
  }

  lemma DequeueKeys(s: State, ids: set<TicketId>, st: Status)
    requires st.Expired? || st.Cancelled?
    ensures var s' := Dequeue(s, ids, st);
            && s'.queued.Keys == s.queued.Keys - ids && s'.waiters == s.waiters - ids && s'.active == s.active
            && s'.reserved == s.reserved && s'.closed == s.closed && s'.sequence == s.sequence
            && forall id :: id in s'.queued ==> id in s.queued && s'.queued[id] == s.queued[id]
  {
    hide SetStatus;
  }

  lemma DequeueCounted(s: State, ids: set<TicketId>, st: Status)
    requires Counted(s) && ids <= WithStatus(s.status, Queued) && (st.Expired? || st.Cancelled?)
    ensures var s' := Dequeue(s, ids, st);
            && Counted(s') && WithStatus(s'.status, Queued) == WithStatus(s.status, Queued) - ids
            && WithStatus(s'.status, Running) == WithStatus(s.status, Running)
  {
    hide SetStatus, WithStatus;
    MoveKeepsCount(s, Dequeue(s, ids, st), ids, Queued, st);
  }

  lemma DequeueConsistent(c: Config, s: State, ids: set<TicketId>, st: Status)
    requires Consistent(c, s) && Counted(s) && ids <= s.queued.Keys && (st.Expired? || st.Cancelled?)
    ensures Counted(Dequeue(s, ids, st)) && Consistent(c, Dequeue(s, ids, st))
  {
    hide WithStatus, Dequeue;
    DequeueCounted(s, ids, st);
    DequeueKeys(s, ids, st);
    hide Counted;
    StaysConsistent(c, s, Dequeue(s, ids, st));
  }

  lemma DequeueKeeps(c: Config, s: State, ids: set<TicketId>, st: Status)
    requires Inv(c, s) && ids <= s.queued.Keys && (st.Expired? || st.Cancelled?)
    ensures Inv(c, Dequeue(s, ids, st))
  {
    hide Consistent, Counted;
    DequeueConsistent(c, s, ids, st);
    FewerQueued(c, s, Dequeue(s, ids, st));
  }

  lemma OneMoreOfActor(tickets: map<TicketId, Ticket>, t: Ticket, more: map<TicketId, Ticket>, limit: nat)
    requires more == tickets[t.id := t] && t.id !in tickets && (forall a :: |OfActor(tickets, a)| <= limit)
    requires t.actor.Some? ==> |OfActor(tickets, t.actor.value)| < limit
    ensures forall a :: |OfActor(more, a)| <= limit
  {
    forall a ensures |OfActor(more, a)| <= limit {
      if t.actor == Some(a) {
        assert OfActor(more, a) == OfActor(tickets, a) + {t.id};
      } else {
        assert OfActor(more, a) == OfActor(tickets, a);
      }
    }
  }

  lemma OneMoreOfApp(tickets: map<TicketId, Ticket>, t: Ticket, more: map<TicketId, Ticket>, limit: nat)
    requires more == tickets[t.id := t] && t.id !in tickets && (forall a :: |OfApp(tickets, a)| <= limit)
    requires t.app.Some? ==> |OfApp(tickets, t.app.value)| < limit
    ensures forall a :: |OfApp(more, a)| <= limit
  {
    forall a ensures |OfApp(more, a)| <= limit {
      if t.app == Some(a) {
        assert OfApp(more, a) == OfApp(tickets, a) + {t.id};
      } else {
        assert OfApp(more, a) == OfApp(tickets, a);
      }
    }
  }

  lemma OneMoreTicket(tickets: map<TicketId, Ticket>, t: Ticket)
    requires t.id !in tickets
    ensures |tickets[t.id := t]| == |tickets| + 1
  {
    assert tickets[t.id := t].Keys == tickets.Keys + {t.id};
    KeysSize(tickets[t.id := t]);
    KeysSize(tickets);
  }

  lemma OneMoreQueued(c: Config, s: State, t: Ticket)
    requires Bounded(c, s) && Refusal(c, s, t.actor, t.app).None? && t.id !in s.queued
    ensures Bounded(c, Enqueue(s, t))
  {
    hide OfActor, OfApp, SetStatus;
    OneMoreTicket(s.queued, t);
    OneMoreOfActor(s.queued, t, s.queued[t.id := t], c.maxQueuedPerActor);
    OneMoreOfApp(s.queued, t, s.queued[t.id := t], c.maxQueuedPerApp);
  }

  /** One more active ticket of some actor who was below the limit. */
  lemma OneMoreActive(c: Config, s: State, id: TicketId)
    requires Bounded(c, s) && id in s.queued && s.queued[id].id == id && id !in s.active
    requires Runnable(c, s, s.queued[id]) && |s.active| < c.maxHeavy
    ensures |Start(c, s, id).active| <= c.maxHeavy
    ensures forall a :: |OfActor(Start(c, s, id).active, a)| <= c.maxActivePerActor
  {
    hide OfActor, OnWorker, SetStatus, CountDispatch;
    OneMoreTicket(s.active, s.queued[id]);
    OneMoreOfActor(s.active, s.queued[id], s.active[id := s.queued[id]], c.maxActivePerActor);
  }

  lemma StartCounted(c: Config, s: State, id: TicketId)
    requires Counted(s) && id in s.queued && id in WithStatus(s.status, Queued)
    ensures Counted(Start(c, s, id))
  {
    hide SetStatus, WithStatus;
    MoveKeepsCount(s, Start(c, s, id), {id}, Queued, Running);
  }

  lemma StartConsistent(c: Config, s: State, id: TicketId)
    requires Consistent(c, s) && id in s.queued
    ensures Consistent(c, Start(c, s, id)) && id !in s.active
  {
    hide SetStatus, WithStatus, CountDispatch;
    OneStatus(s.status, id, Queued);
    StatusMoves(s.status, {id}, Queued, Running);
    StartKeys(c, s, id);
    StartSequence(c, s, id);
    hide Start;
    StaysConsistent(c, s, Start(c, s, id));
  }

  lemma StartSequence(c: Config, s: State, id: TicketId)
    requires id in s.queued
    ensures var s' := Start(c, s, id);
            s'.closed == s.closed && s'.sequence == s.sequence && s'.status == SetStatus(s.status, {id}, Running)
            && forall other :: other in s'.queued ==> other in s.queued && s'.queued[other] == s.queued[other]
  {
    hide SetStatus, CountDispatch;
  }

  lemma StartKeys(c: Config, s: State, id: TicketId)
    requires id in s.queued
    ensures var s' := Start(c, s, id);
            && s'.active.Keys == s.active.Keys + {id} && s'.queued.Keys == s.queued.Keys - {id}
               && s'.waiters == s.waiters - {id}
            && s'.reserved == if c.managed then s.reserved + {id} else s.reserved
  {
    hide SetStatus, CountDispatch;
  }

  lemma StartKeeps(c: Config, s: State, id: TicketId)
    requires Inv(c, s) && id in s.queued && Runnable(c, s, s.queued[id]) && |s.active| < c.maxHeavy
    ensures Inv(c, Start(c, s, id))
  {
    hide Counted, Runnable, WithStatus, SetStatus, CountDispatch, OfActor, OfApp;
    StartConsistent(c, s, id);
    StartCounted(c, s, id);
    OneMoreActive(c, s, id);
    FewerQueued(c, s, Start(c, s, id));
  }

  lemma {:induction false} DispatchedKeeps(c: Config, s: State, now: real, passes: seq<Pass>, s': State)
    requires Inv(c, s) && Dispatched(c, s, now, passes, s')
    ensures Inv(c, s')
    decreases |passes|
  {
    if passes != [] && passes[0].started.Some? {
      var id := passes[0].started.value;
      StartKeeps(c, s, id);
      DispatchedKeeps(c, Start(c, s, id), now, passes[1..], s');
    }
  }

  lemma NotIssued(status: map<TicketId, Status>, id: TicketId)
    requires id !in status
    ensures forall st :: id !in WithStatus(status, st)
  {
  }

  lemma OneStatus(status: map<TicketId, Status>, id: TicketId, st: Status)
    requires id in WithStatus(status, st)
    ensures forall other :: other != st ==> id !in WithStatus(status, other)
  {
  }

  lemma EnqueuedTickets(s: State, t: Ticket, id: TicketId)
    requires id in Enqueue(s, t).queued
    requires forall other :: other in s.queued ==> s.queued[other].id == other && s.queued[other].sequence <= s.sequence
    requires t.sequence == s.sequence + 1
    ensures Enqueue(s, t).queued[id].id == id && Enqueue(s, t).queued[id].sequence <= Enqueue(s, t).sequence
  {
    hide SetStatus;
  }

  lemma EnqueuedKeys(s: State, t: Ticket)
    ensures Enqueue(s, t).queued.Keys == s.queued.Keys + {t.id}
    ensures Enqueue(s, t).waiters == s.waiters + {t.id}
    ensures Enqueue(s, t).status == SetStatus(s.status, {t.id}, Queued)
    ensures Enqueue(s, t)
            == s.(sequence := s.sequence + 1, queued := Enqueue(s, t).queued, waiters := Enqueue(s, t).waiters,
                                status := Enqueue(s, t).status)
  {
    hide SetStatus;
  }

  lemma EnqueueCounted(s: State, t: Ticket)
    requires Counted(s) && t.id !in s.status
    ensures var s' := Enqueue(s, t);
            && Counted(s') && WithStatus(s'.status, Queued) == WithStatus(s.status, Queued) + {t.id}
            && WithStatus(s'.status, Running) == WithStatus(s.status, Running)
            && t.id !in WithStatus(s.status, Queued)
  {
    hide SetStatus, WithStatus, Enqueue;
    NewStatus(s.status, t.id);
    NotIssued(s.status, t.id);
    EnqueuedKeys(s, t);
  }

  lemma EnqueueConsistent(c: Config, s: State, t: Ticket)
    requires Consistent(c, s) && Counted(s) && !s.closed && t.id !in s.status && t.sequence == s.sequence + 1
    ensures t.id !in s.queued && Counted(Enqueue(s, t)) && Consistent(c, Enqueue(s, t))
  {
    hide SetStatus, WithStatus, Enqueue, Counted;
    EnqueueCounted(s, t);
    EnqueuedKeys(s, t);
    forall id | id in Enqueue(s, t).queued
      ensures Enqueue(s, t).queued[id].id == id && Enqueue(s, t).queued[id].sequence <= Enqueue(s, t).sequence
    {
      EnqueuedTickets(s, t, id);
    }
  }

  lemma EnqueueKeeps(c: Config, s: State, t: Ticket)
    requires Inv(c, s) && Refusal(c, s, t.actor, t.app).None? && t.id !in s.status && t.sequence == s.sequence + 1
    ensures Inv(c, Enqueue(s, t))
  {
    EnqueueConsistent(c, s, t);
    hide Consistent, Counted, Enqueue;
    OneMoreQueued(c, s, t);
  }

  lemma DeactivateConsistent(c: Config, s: State, id: TicketId, st: Status)
    requires Consistent(c, s) && Counted(s) && id in s.active && (st.Cancelled? || st.Failed? || st.Succeeded?)
    ensures Counted(Deactivate(s, id, st)) && Consistent(c, Deactivate(s, id, st))
  {
    hide SetStatus, WithStatus;
    DeactivateCounted(s, id, st);
    DeactivateKeys(s, id, st);
    hide Deactivate, Counted;
    StaysConsistent(c, s, Deactivate(s, id, st));
  }

  lemma DeactivateCounted(s: State, id: TicketId, st: Status)
    requires Counted(s) && id in WithStatus(s.status, Running) && (st.Cancelled? || st.Failed? || st.Succeeded?)
    ensures var s' := Deactivate(s, id, st);
            && Counted(s') && WithStatus(s'.status, Running) == WithStatus(s.status, Running) - {id}
            && WithStatus(s'.status, Queued) == WithStatus(s.status, Queued)
  {
    hide SetStatus, WithStatus;
    MoveKeepsCount(s, Deactivate(s, id, st), {id}, Running, st);
  }

  lemma DeactivateKeys(s: State, id: TicketId, st: Status)
    ensures var s' := Deactivate(s, id, st);
            && s'.active.Keys == s.active.Keys - {id} && s'.reserved == s.reserved - {id} && s'.queued == s.queued
            && s'.waiters == s.waiters && s'.closed == s.closed && s'.sequence == s.sequence
  {
    hide SetStatus;
  }

  lemma DeactivateKeeps(c: Config, s: State, id: TicketId, st: Status)
    requires Inv(c, s) && id in s.active && (st.Cancelled? || st.Failed? || st.Succeeded?)
    ensures Inv(c, Deactivate(s, id, st))
  {
    hide Consistent, Counted;
    DeactivateConsistent(c, s, id, st);
    FewerActive(c, s, Deactivate(s, id, st));
  }

  lemma FewerActive(c: Config, s: State, s': State)
    requires Bounded(c, s) && s'.queued == s.queued
    requires s'.active.Keys <= s.active.Keys && forall id :: id in s'.active ==> s'.active[id] == s.active[id]
    ensures Bounded(c, s')
  {
    SubsetSize(s'.active.Keys, s.active.Keys);
    KeysSize(s'.active);
    KeysSize(s.active);
    forall a ensures |OfActor(s'.active, a)| <= c.maxActivePerActor {
      SubsetSize(OfActor(s'.active, a), OfActor(s.active, a));
    }
  }

  /** What a step does before its dispatch keeps the invariant. */
  lemma PreludeKeeps(c: Config, s: State, op: Op)
    requires Inv(c, s) && WellIssued(s, op) && Prelude(c, s, op).Some?
    ensures Inv(c, Prelude(c, s, op).value)
  {
    hide Inv, Enqueue, Dequeue, Deactivate, Refusal;
    match op {
      case Acquire(t, _, _) => EnqueueKeeps(c, s, t);
      case ExpireTicket(id, _) => DequeueKeeps(c, s, {id}, Expired);
      case Cancel(id, _) => DequeueKeeps(c, s, {id}, Cancelled);
      case CancelRequest(r, _) => DequeueKeeps(c, s, MatchingIds(s.queued, r), Cancelled);
      case Release(id, f, x, _) => DeactivateKeeps(c, s, id, Finished(f, x));
      case SetGate(_, _, _) => GateKeeps(c, s, Prelude(c, s, op).value);
      case Notify(_) =>
    }
  }

  lemma ShutdownKeeps(c: Config, s: State)
    requires Inv(c, s)
    ensures Inv(c, Quiet(s, Op.Shutdown))
  {
    hide Inv, Dequeue;
    DequeueKeeps(c, s, s.queued.Keys, Cancelled);
    EmptyQueue(s);
    CloseKeeps(c, Dequeue(s, s.queued.Keys, Cancelled));
  }

  lemma EmptyQueue(s: State)
    ensures Dequeue(s, s.queued.Keys, Cancelled).queued == map[]
  {
    hide SetStatus;
  }

  lemma QuietKeeps(c: Config, s: State, op: Op)
    requires Inv(c, s)
    ensures Inv(c, Quiet(s, op))
  {
    hide Inv, Dequeue;
    match op {
      case Snapshot(now) => DequeueKeeps(c, s, Overdue(s, now), Expired);
      case SetSlots(_, _) => GateKeeps(c, s, Quiet(s, op));
      case Shutdown => ShutdownKeeps(c, s);
      case _ =>
    }
  }

  lemma StepKeeps(c: Config, s: State, op: Op, s': State)
    requires Inv(c, s) && Step(c, s, op, s')
    ensures Inv(c, s')
  {
    var before := Prelude(c, s, op);
    if before.Some? {
      PreludeKeeps(c, s, op);
      DequeueKeeps(c, before.value, Overdue(before.value, op.round.now), Expired);
      DispatchedKeeps(c, Expire(before.value, op.round.now), op.round.now, op.round.passes, s');
    } else {
      QuietKeeps(c, s, op);
    }
  }

  lemma CloseKeeps(c: Config, s: State)
    requires Inv(c, s) && s.queued == map[]
    ensures Inv(c, s.(closed := true, waiters := {}))
  {
    forall st ensures WithStatus(s.(closed := true, waiters := {}).status, st) == WithStatus(s.status, st) {}
  }

  /** Gates, slot limits and the fairness counters do not enter the invariant. */
  lemma GateKeeps(c: Config, s: State, s': State)
    requires Inv(c, s) && s' == s.(gates := s'.gates, slots := s'.slots)
    ensures Inv(c, s')
  {
    forall st ensures WithStatus(s'.status, st) == WithStatus(s.status, st) {}
  }

  /******* Whole runs *******/

  lemma {:induction false} ExecutionKeeps(c: Config, s: State, ops: seq<Op>, s': State)
    requires Inv(c, s) && Execution(c, s, ops, s')
    ensures Inv(c, s')
    decreases |ops|
  {
    if ops != [] {
      var m :| Step(c, s, ops[0], m) && Execution(c, m, ops[1..], s');
      StepKeeps(c, s, ops[0], m);
      ExecutionKeeps(c, m, ops[1..], s');
    }
  }

  /** The reservation, queue and concurrency invariants hold in every reachable state. */
  lemma EveryReachableState(c: Config, ops: seq<Op>, s: State)
    requires ValidConfig(c) && Execution(c, Initial(), ops, s)
    ensures Inv(c, s)
    ensures s.queued.Keys !! s.active.Keys
    ensures forall a :: |set id | id in s.active && s.active[id].actor == Some(a)| <= c.maxActivePerActor
    ensures forall a :: |set id | id in s.queued && s.queued[id].actor == Some(a)| <= c.maxQueuedPerActor
    ensures forall a :: |set id | id in s.queued && s.queued[id].app == Some(a)| <= c.maxQueuedPerApp
  {
    forall st ensures WithStatus(Initial().status, st) == {} {}
    assert forall a :: OfActor(map[], a) == {} && OfApp(map[], a) == {};
    ExecutionKeeps(c, Initial(), ops, s);
    assert WithStatus(s.status, Queued) !! WithStatus(s.status, Running);
    LimitsAreKept(c, s);
  }

  /** The limits per actor and App, counted ticket by ticket. */
  lemma LimitsAreKept(c: Config, s: State)
    requires Bounded(c, s)
    ensures forall a :: |set id | id in s.active && s.active[id].actor == Some(a)| <= c.maxActivePerActor
    ensures forall a :: |set id | id in s.queued && s.queued[id].actor == Some(a)| <= c.maxQueuedPerActor
    ensures forall a :: |set id | id in s.queued && s.queued[id].app == Some(a)| <= c.maxQueuedPerApp
  {
    CountedByOwner(s.active);
    CountedByOwner(s.queued);
  }

  lemma CountedByOwner(tickets: map<TicketId, Ticket>)
    ensures forall a :: OfActor(tickets, a) == set id | id in tickets && tickets[id].actor == Some(a)
    ensures forall a :: OfApp(tickets, a) == set id | id in tickets && tickets[id].app == Some(a)
  {
  }

  lemma DisjointSizes(a: set<TicketId>, b: set<TicketId>, d: set<TicketId>)
    requires a !! b !! d
    ensures |a + b + d| == |a| + |b| + |d|
  {
    assert |a + b| == |a| + |b|;
  }

  lemma HasStatus(status: map<TicketId, Status>, id: TicketId)
    requires id in status
    ensures id in WithStatus(status, Queued) || id in WithStatus(status, Running) || id in WithStatus(status, Succeeded)
            || id in WithStatus(status, Failed) || id in WithStatus(status, Cancelled)
               || id in WithStatus(status, Expired)
  {
    match status[id] {
      case Queued =>
      case Running =>
      case Succeeded =>
      case Failed =>
      case Cancelled =>
      case Expired =>
    }
  }

  /** The six statuses share out the issued tickets. */
  lemma SixClasses(status: map<TicketId, Status>)
    ensures |status| == |WithStatus(status, Queued)| + |WithStatus(status, Running)| + |WithStatus(status, Succeeded)|
                        + |WithStatus(status, Failed)| + |WithStatus(status, Cancelled)| + |WithStatus(status, Expired)|
  {
    KeysAreAll(status);
    LiveAndDoneApart(status);
    hide WithStatus;
    var live := WithStatus(status, Queued) + WithStatus(status, Running) + WithStatus(status, Succeeded);
    var done := WithStatus(status, Failed) + WithStatus(status, Cancelled) + WithStatus(status, Expired);
    DisjointSizes(WithStatus(status, Queued), WithStatus(status, Running), WithStatus(status, Succeeded));
    DisjointSizes(WithStatus(status, Failed), WithStatus(status, Cancelled), WithStatus(status, Expired));
    assert |live + done| == |live| + |done|;
    KeysSize(status);
  }

  lemma LiveAndDoneApart(status: map<TicketId, Status>)
    ensures WithStatus(status, Queued) !! WithStatus(status, Running) !! WithStatus(status, Succeeded)
    ensures WithStatus(status, Failed) !! WithStatus(status, Cancelled) !! WithStatus(status, Expired)
    ensures WithStatus(status, Queued) + WithStatus(status, Running) + WithStatus(status, Succeeded)
            !! WithStatus(status, Failed) + WithStatus(status, Cancelled) + WithStatus(status, Expired)
  {
    forall a: Status, b: Status | a != b ensures WithStatus(status, a) !! WithStatus(status, b) { Apart(status, a, b); }
    hide WithStatus;
  }

  lemma KeysAreAll(status: map<TicketId, Status>)
    ensures status.Keys == All(status)
  {
    forall id | id in status ensures id in All(status) {
      HasStatus(status, id);
      hide WithStatus;
    }
    AllAreIssued(status);
  }

  ghost function All(status: map<TicketId, Status>): set<TicketId> {
    (WithStatus(status, Queued) + WithStatus(status, Running) + WithStatus(status, Succeeded))
    + (WithStatus(status, Failed) + WithStatus(status, Cancelled) + WithStatus(status, Expired))
  }

  lemma AllAreIssued(status: map<TicketId, Status>)
    ensures All(status) <= status.Keys
  {
  }

  lemma Apart(status: map<TicketId, Status>, a: Status, b: Status)
    requires a != b
    ensures WithStatus(status, a) !! WithStatus(status, b)
  {
  }

  /** Every issued ticket is in exactly one place: queued, active or counted once. */
  lemma Conservation(c: Config, s: State)
    requires Inv(c, s)
    ensures s.sequence == |s.queued| + |s.active| + s.completed + s.failed + s.cancelled + s.expired
  {
    hide WithStatus, Bounded;
    KeysSize(s.queued);
    KeysSize(s.active);
    SixClasses(s.status);
  }

  /******* A ticket's life only moves forward *******/

  function Stage(st: Status): nat {
    match st
    case Queued => 0
    case Running => 1
    case _ => 2
  }

  /** Nothing issued is forgotten, nothing moves back, and a final status is for ever. */
  ghost predicate Forward(a: map<TicketId, Status>, b: map<TicketId, Status>) {
    forall id :: id in a ==> id in b && (b[id] == a[id] || Stage(a[id]) < Stage(b[id]))
  }

  lemma StartForward(c: Config, s: State, id: TicketId)
    requires Inv(c, s) && id in s.queued
    ensures Forward(s.status, Start(c, s, id).status)
    ensures Start(c, s, id).closed == s.closed && !s.closed
  {
    assert id in WithStatus(s.status, Queued);
  }

  lemma ForwardTrans(a: map<TicketId, Status>, b: map<TicketId, Status>, d: map<TicketId, Status>)
    requires Forward(a, b) && Forward(b, d)
    ensures Forward(a, d)
  {
  }

  lemma {:induction false} DispatchedForward(c: Config, s: State, now: real, passes: seq<Pass>, s': State)
    requires Inv(c, s) && Dispatched(c, s, now, passes, s')
    ensures Forward(s.status, s'.status) && s'.closed == s.closed
    ensures s.closed ==> s' == s
    decreases |passes|
  {
    if passes != [] && passes[0].started.Some? {
      var id := passes[0].started.value;
      StartKeeps(c, s, id);
      StartForward(c, s, id);
      hide Inv, Start, Forward;
      DispatchedForward(c, Start(c, s, id), now, passes[1..], s');
      ForwardTrans(s.status, Start(c, s, id).status, s'.status);
    }
  }

  lemma DequeueForward(c: Config, s: State, ids: set<TicketId>, st: Status)
    requires Inv(c, s) && ids <= s.queued.Keys && (st.Expired? || st.Cancelled?)
    ensures Forward(s.status, Dequeue(s, ids, st).status) && Dequeue(s, ids, st).closed == s.closed
  {
    forall id | id in ids ensures s.status[id] == Queued && id in s.status {
      assert id in WithStatus(s.status, Queued);
    }
  }

  lemma EnqueueForward(s: State, t: Ticket)
    requires t.id !in s.status
    ensures Forward(s.status, Enqueue(s, t).status) && Enqueue(s, t).closed == s.closed
  {
  }

  lemma DeactivateForward(c: Config, s: State, id: TicketId, st: Status)
    requires Inv(c, s) && id in s.active && (st.Cancelled? || st.Failed? || st.Succeeded?)
    ensures Forward(s.status, Deactivate(s, id, st).status) && Deactivate(s, id, st).closed == s.closed
  {
    hide Bounded, Counted;
    assert id in WithStatus(s.status, Running);
  }

  lemma UnchangedForward(status: map<TicketId, Status>)
    ensures Forward(status, status)
  {
  }

  lemma PreludeForward(c: Config, s: State, op: Op)
    requires Inv(c, s) && WellIssued(s, op)
    ensures Prelude(c, s, op).Some? ==>
              Forward(s.status, Prelude(c, s, op).value.status) && Prelude(c, s, op).value.closed == s.closed
    ensures Prelude(c, s, op).None? ==> Forward(s.status, Quiet(s, op).status)
  {
    hide Inv, Forward, Refusal, Matches, SetStatus, Enqueue, Dequeue, Deactivate;
    UnchangedForward(s.status);
    match op {
      case Acquire(t, _, _) => EnqueueForward(s, t);
      case ExpireTicket(id, _) => if id in s.queued { DequeueForward(c, s, {id}, Expired); }
      case Cancel(id, _) => if id in s.queued { DequeueForward(c, s, {id}, Cancelled); }
      case CancelRequest(r, _) => DequeueForward(c, s, MatchingIds(s.queued, r), Cancelled);
      case Release(id, f, x, _) => if id in s.active { DeactivateForward(c, s, id, Finished(f, x)); }
      case Snapshot(now) => DequeueForward(c, s, Overdue(s, now), Expired);
      case Shutdown => DequeueForward(c, s, s.queued.Keys, Cancelled);
      case _ =>
    }
  }

  /** From the moment before a step's dispatch to the step's end, tickets only move forward. */
  lemma DispatchForward(c: Config, m: State, round: Round, s': State)
    requires Inv(c, m) && Dispatch(c, m, round.now, round.passes, s')
    ensures Forward(m.status, s'.status) && s'.closed == m.closed
    ensures m.closed ==> s' == Expire(m, round.now)
  {
    DequeueForward(c, m, Overdue(m, round.now), Expired);
    DequeueKeeps(c, m, Overdue(m, round.now), Expired);
    DispatchedForward(c, Expire(m, round.now), round.now, round.passes, s');
    ForwardTrans(m.status, Expire(m, round.now).status, s'.status);
  }

  lemma StepForward(c: Config, s: State, op: Op, s': State)
    requires Inv(c, s) && Step(c, s, op, s')
    ensures Forward(s.status, s'.status)
  {
    PreludeForward(c, s, op);
    var before := Prelude(c, s, op);
    if before.Some? {
      PreludeKeeps(c, s, op);
      DispatchForward(c, before.value, op.round, s');
      ForwardTrans(s.status, before.value.status, s'.status);
    }
  }

  /** Over any run, no ticket is re-queued, re-started or counted under a second outcome. */
  lemma {:induction false} RunForward(c: Config, s: State, ops: seq<Op>, s': State)
    requires Inv(c, s) && Execution(c, s, ops, s')
    ensures Forward(s.status, s'.status)
    decreases |ops|
  {
    if ops != [] {
      var m :| Step(c, s, ops[0], m) && Execution(c, m, ops[1..], s');
      StepKeeps(c, s, ops[0], m);
      StepForward(c, s, ops[0], m);
      RunForward(c, m, ops[1..], s');
      ForwardTrans(s.status, m.status, s'.status);
    }
  }

  /** Releasing a ticket that is no longer active, for instance a second time, changes nothing. */
  lemma SecondReleaseIsSilent(c: Config, s: State, id: TicketId, f: bool, x: bool, round: Round, s': State)
    requires Inv(c, s) && id in s.status && s.status[id] != Running && Step(c, s, Release(id, f, x, round), s')
    ensures s' == s
  {
    PlaceByStatus(c, s, id);
    StepOfNothing(c, s, Release(id, f, x, round), s');
  }

  lemma StepOfNothing(c: Config, s: State, op: Op, s': State)
    requires c.agingInterval > 0.0 && Step(c, s, op, s') && op.Release? && op.id !in s.active
    ensures s' == s
  {
    hide Dispatch, Deactivate, WellIssued;
    assert Prelude(c, s, op) == None && Quiet(s, op) == s;
  }

  /** In a reachable state the queue and the active set are exactly the two live classes. */
  lemma PlaceByStatus(c: Config, s: State, id: TicketId)
    requires Inv(c, s)
    ensures id in s.queued <==> id in s.status && s.status[id] == Queued
    ensures id in s.active <==> id in s.status && s.status[id] == Running
  {
    assert id in s.queued <==> id in WithStatus(s.status, Queued);
    assert id in s.active <==> id in WithStatus(s.status, Running);
  }

  /** A second release of a ticket, however much later and with whatever outcome, changes nothing. */
  lemma RepeatedReleaseIsSilent(c: Config, s: State, first: Op, s1: State, between: seq<Op>, s2: State, second: Op,
                                s3: State)
    requires Inv(c, s) && first.Release? && second.Release? && second.id == first.id && first.id in s.active
    requires Step(c, s, first, s1) && Execution(c, s1, between, s2) && Step(c, s2, second, s3)
    ensures s3 == s2
    ensures first.id in s2.status && s2.status[first.id] == Finished(first.failedRun, first.cancelledRun)
  {
    hide Inv, Step, Execution, Prelude, Quiet;
    StepKeeps(c, s, first, s1);
    ReleaseCounts(c, s, first, s1);
    ExecutionKeeps(c, s1, between, s2);
    RunForward(c, s1, between, s2);
    SecondReleaseIsSilent(c, s2, second.id, second.failedRun, second.cancelledRun, second.round, s3);
  }

  lemma ReleaseCounts(c: Config, s: State, op: Op, s': State)
    requires Inv(c, s) && op.Release? && op.id in s.active && Step(c, s, op, s')
    ensures op.id in s'.status && s'.status[op.id] == Finished(op.failedRun, op.cancelledRun)
  {
    hide Inv, Dispatched, Expire;
    var st := Finished(op.failedRun, op.cancelledRun);
    DeactivateKeeps(c, s, op.id, st);
    DispatchForward(c, Deactivate(s, op.id, st), op.round, s');
  }

  /**
   The clean-up of an abandoned wait: cancel, and if that found nothing queued, whatever happens
   in between, release.  The ticket ends finished, and by RunForward it is counted only once.
   */
  lemma AbandonedWaitFinishes(c: Config, s: State, id: TicketId, r1: Round, s1: State, between: seq<Op>, s2: State,
                              r2: Round, s3: State)
    requires Inv(c, s) && id in s.status
    requires Step(c, s, Cancel(id, r1), s1)
    requires Execution(c, s1, between, s2)
    requires if id in s.queued then s3 == s2 else Step(c, s2, Release(id, true, false, r2), s3)
    ensures id in s3.status && Stage(s3.status[id]) == 2
    ensures s.status[id] == Queued ==> s3.status[id] == Cancelled
    ensures Stage(s.status[id]) == 2 ==> s3.status[id] == s.status[id]
  {
    hide Inv, Dispatched, Expire;
    StepKeeps(c, s, Cancel(id, r1), s1);
    StepForward(c, s, Cancel(id, r1), s1);
    ExecutionKeeps(c, s1, between, s2);
    RunForward(c, s1, between, s2);
    PlaceByStatus(c, s, id);
    if id in s.queued {
      CancelFinishes(c, s, id, r1, s1);
    } else {
      ReleaseFinishes(c, s2, id, r2, s3);
    }
  }

  lemma CancelFinishes(c: Config, s: State, id: TicketId, round: Round, s': State)
    requires Inv(c, s) && id in s.queued && Step(c, s, Cancel(id, round), s')
    ensures id in s'.status && s'.status[id] == Cancelled
  {
    hide Inv, Dispatched, Expire;
    PlaceByStatus(c, s, id);
    PreludeKeeps(c, s, Cancel(id, round));
    DispatchForward(c, Dequeue(s, {id}, Cancelled), round, s');
  }

  lemma ReleaseFinishes(c: Config, s: State, id: TicketId, round: Round, s': State)
    requires Inv(c, s) && id in s.status && s.status[id] != Queued && Step(c, s, Release(id, true, false, round), s')
    ensures id in s'.status && Stage(s'.status[id]) == 2
    ensures Stage(s.status[id]) == 2 ==> s'.status[id] == s.status[id]
  {
    hide Inv, Dispatched, Expire;
    PlaceByStatus(c, s, id);
    if id in s.active {
      DeactivateKeeps(c, s, id, Failed);
      DispatchForward(c, Deactivate(s, id, Failed), round, s');
    }
  }

  /******* What a cancelled request takes along *******/

  lemma {:induction false} DispatchedCancelsNone(c: Config, s: State, now: real, passes: seq<Pass>, s': State,
                                                 id: TicketId)
    requires Inv(c, s) && Dispatched(c, s, now, passes, s') && id in s.status && s.status[id] != Cancelled
    ensures id in s'.status && s'.status[id] != Cancelled
    decreases |passes|
  {
    if passes != [] && passes[0].started.Some? {
      var first := passes[0].started.value;
      StartKeeps(c, s, first);
      hide Inv, Dispatched;
      assert Start(c, s, first).status == SetStatus(s.status, {first}, Running);
      hide Start;
      FirstRound(c, s, now, passes, s');
      DispatchedCancelsNone(c, Start(c, s, first), now, passes[1..], s', id);
    }
  }

  /** A request's cancellation cancels the queued tickets that carry its five fields, and no other. */
  lemma CancelledExactly(c: Config, s: State, request: Request, round: Round, s': State, id: TicketId)
    requires Inv(c, s) && Step(c, s, CancelRequest(request, round), s') && id in s.queued
    requires request.actor != "" && request.requestId != ""
    requires forall other :: other in s.active ==> !Matches(s.active[other], request)
    ensures var t := s.queued[id];
            id in s'.status && (s'.status[id] == Cancelled <==>
              (t.serviceKey, t.requestId, t.actor, t.app, t.session)
              == (request.serviceKey, request.requestId, Some(request.actor), request.app, request.session))
  {
    var op := CancelRequest(request, round);
    PlaceByStatus(c, s, id);
    StepForward(c, s, op, s');
    hide Inv, Forward, Step, Dispatched;
    if Matches(s.queued[id], request) {
      MatchedIsCancelled(c, s, request, round, s', id);
    } else {
      OthersNotCancelled(c, s, request, round, s', id);
    }
  }

  lemma MatchedIsCancelled(c: Config, s: State, request: Request, round: Round, s': State, id: TicketId)
    requires Inv(c, s) && Step(c, s, CancelRequest(request, round), s') && id in s.queued
    requires request.actor != "" && request.requestId != "" && MatchingIds(s.active, request) == {}
    requires id in MatchingIds(s.queued, request)
    ensures id in s'.status && s'.status[id] == Cancelled
  {
    hide Inv, Dispatch, MatchingIds, WellIssued, Dequeue, SetStatus;
    PreludeKeeps(c, s, CancelRequest(request, round));
    DequeuedStatus(s, MatchingIds(s.queued, request), Cancelled);
    DispatchForward(c, Dequeue(s, MatchingIds(s.queued, request), Cancelled), round, s');
  }

  lemma DequeuedStatus(s: State, ids: set<TicketId>, st: Status)
    requires st.Expired? || st.Cancelled?
    ensures Dequeue(s, ids, st).status == SetStatus(s.status, ids, st)
  {
  }

  lemma OthersNotCancelled(c: Config, s: State, request: Request, round: Round, s': State, id: TicketId)
    requires Inv(c, s) && Step(c, s, CancelRequest(request, round), s') && id in s.queued
    requires id in s.status && s.status[id] == Queued && id !in MatchingIds(s.queued, request)
    ensures id in s'.status && s'.status[id] != Cancelled
  {
    hide Inv, Dispatched, Matches;
    var op := CancelRequest(request, round);
    var before := Prelude(c, s, op);
    if before.Some? {
      PreludeKeeps(c, s, op);
      DequeueKeeps(c, before.value, Overdue(before.value, round.now), Expired);
      assert id in before.value.status && before.value.status[id] == Queued;
      DispatchedCancelsNone(c, Expire(before.value, round.now), round.now, round.passes, s', id);
    }
  }

  /******* Active until released *******/

  predicate Releases(op: Op, id: TicketId) {
    op.Release? && op.id == id
  }

  lemma {:induction false} DispatchedKeepsActive(c: Config, s: State, now: real, passes: seq<Pass>, s': State,
                                                 id: TicketId)
    requires c.agingInterval > 0.0 && Dispatched(c, s, now, passes, s') && id in s.active
    ensures id in s'.active
    decreases |passes|
  {
    if passes != [] && passes[0].started.Some? {
      hide ValidPass;
      StartKeys(c, s, passes[0].started.value);
      DispatchedKeepsActive(c, Start(c, s, passes[0].started.value), now, passes[1..], s', id);
    }
  }

  lemma StepKeepsActive(c: Config, s: State, op: Op, s': State, id: TicketId)
    requires c.agingInterval > 0.0 && Step(c, s, op, s') && id in s.active && !Releases(op, id)
    ensures id in s'.active
  {
    hide SetStatus, WellIssued, Refusal, Dispatched;
    var before := Prelude(c, s, op);
    if before.Some? {
      assert id in before.value.active && id in Expire(before.value, op.round.now).active;
      DispatchedKeepsActive(c, Expire(before.value, op.round.now), op.round.now, op.round.passes, s', id);
    }
  }

  /** Nothing but its own release ends a ticket's active time: no expiry, cancellation, snapshot or shutdown does. */
  lemma {:induction false} ActiveUntilReleased(c: Config, s: State, ops: seq<Op>, s': State, id: TicketId)
    requires c.agingInterval > 0.0 && Execution(c, s, ops, s') && id in s.active
    requires forall op :: op in ops ==> !Releases(op, id)
    ensures id in s'.active
    decreases |ops|
  {
    if ops != [] {
      var m :| Step(c, s, ops[0], m) && Execution(c, m, ops[1..], s');
      assert ops[0] in ops;
      StepKeepsActive(c, s, ops[0], m, id);
      forall op | op in ops[1..] ensures !Releases(op, id) { assert op in ops; }
      ActiveUntilReleased(c, m, ops[1..], s', id);
    }
  }

  /**
   What a wait that timed out leaves behind, when all that follows is the expiry of its ticket: the place is given
   back exactly when the ticket was not active by then; a queued ticket ends expired, for ever.
   */
  lemma TimedOutWait(c: Config, s: State, id: TicketId, round: Round, s1: State, ops: seq<Op>, s': State)
    requires Inv(c, s) && id in s.status && Step(c, s, ExpireTicket(id, round), s1) && Execution(c, s1, ops, s')
    requires forall op :: op in ops ==> !Releases(op, id)
    ensures id in s'.active <==> id in s.active
    ensures id in s.queued ==> id in s'.status && s'.status[id] == Expired
  {
    hide Inv, Step, Execution;
    var op := ExpireTicket(id, round);
    StepKeeps(c, s, op, s1);
    StepForward(c, s, op, s1);
    ExecutionKeeps(c, s1, ops, s');
    RunForward(c, s1, ops, s');
    PlaceByStatus(c, s, id);
    PlaceByStatus(c, s', id);
    RoundIsPositive(c, s);
    if id in s.active {
      StepKeepsActive(c, s, op, s1, id);
      ActiveUntilReleased(c, s1, ops, s', id);
    } else if id in s.queued {
      ExpiryFinishes(c, s, id, round, s1);
    }
  }

  lemma RoundIsPositive(c: Config, s: State)
    requires Inv(c, s)
    ensures c.agingInterval > 0.0
  {
  }

  lemma ExpiryFinishes(c: Config, s: State, id: TicketId, round: Round, s': State)
    requires Inv(c, s) && id in s.queued && Step(c, s, ExpireTicket(id, round), s')
    ensures id in s'.status && s'.status[id] == Expired
  {
    hide Inv, Dispatched, Expire;
    PlaceByStatus(c, s, id);
    PreludeKeeps(c, s, ExpireTicket(id, round));
    DispatchForward(c, Dequeue(s, {id}, Expired), round, s');
  }

  /******* Shutdown *******/

  lemma ClosedStep(c: Config, s: State, op: Op, s': State)
    requires Inv(c, s) && s.closed && Step(c, s, op, s')
    ensures s'.closed && s'.queued == map[] && s'.active.Keys <= s.active.Keys
  {
    StepKeeps(c, s, op, s');
    ClosedIsEmpty(c, s');
    ClosedIsEmpty(c, s);
    hide Inv, Dispatched, Prelude, Quiet, Start;
    ClosedPrelude(c, s, op);
    var before := Prelude(c, s, op);
    if before.Some? {
      PreludeKeeps(c, s, op);
      DispatchForward(c, before.value, op.round, s');
    }
  }

  lemma ClosedPrelude(c: Config, s: State, op: Op)
    requires s.closed
    ensures match Prelude(c, s, op)
            case Some(m) => m.closed && m.active.Keys <= s.active.Keys
            case None => Quiet(s, op).closed && Quiet(s, op).active.Keys <= s.active.Keys
  {
  }

  lemma ClosedIsEmpty(c: Config, s: State)
    requires Inv(c, s)
    ensures s.closed ==> s.queued == map[]
  {
  }

  /** After shutdown the queue stays empty and the active set only shrinks. */
  lemma {:induction false} ShutdownIsFinal(c: Config, s: State, ops: seq<Op>, s': State)
    requires Inv(c, s) && s.closed && Execution(c, s, ops, s')
    ensures s'.closed && s'.queued == map[] && s'.active.Keys <= s.active.Keys
    decreases |ops|
  {
    if ops != [] {
      var m :| Step(c, s, ops[0], m) && Execution(c, m, ops[1..], s');
      ClosedStep(c, s, ops[0], m);
      StepKeeps(c, s, ops[0], m);
      ShutdownIsFinal(c, m, ops[1..], s');
    }
  }

  /******* What a dispatch may start, and when it may stop *******/

  /** The state before round k of a dispatch. */
  ghost function StateBefore(c: Config, s: State, passes: seq<Pass>, k: nat): State
    requires k <= |passes|
    decreases k
  {
    if k == 0 then s
    else match passes[0].started
      case Some(id) => if id in s.queued then StateBefore(c, Start(c, s, id), passes[1..], k - 1) else s
      case None => s
  }

  /** One round of a dispatch, unfolded. */
  lemma FirstRound(c: Config, s: State, now: real, passes: seq<Pass>, s': State)
    requires c.agingInterval > 0.0 && Dispatched(c, s, now, passes, s') && passes != []
    ensures ValidPass(c, s, now, passes[0])
    ensures match passes[0].started
            case None => |passes| == 1 && s' == s
            case Some(id) => id in s.queued && Dispatched(c, Start(c, s, id), now, passes[1..], s')
  {
    hide ValidPass, Start;
  }

  lemma {:induction false} RoundIsValid(c: Config, s: State, now: real, passes: seq<Pass>, s': State, k: nat)
    requires c.agingInterval > 0.0 && Dispatched(c, s, now, passes, s') && k < |passes|
    ensures ValidPass(c, StateBefore(c, s, passes, k), now, passes[k])
    decreases k
  {
    hide ValidPass, Start, Dispatched;
    FirstRound(c, s, now, passes, s');
    if k > 0 {
      var id := passes[0].started.value;
      RoundIsValid(c, Start(c, s, id), now, passes[1..], s', k - 1);
      assert passes[1..][k - 1] == passes[k];
    }
  }

  /**
   A started ticket fits its actor, its worker and the device; it is background work only when no
   foreground work is queued and no gate is closed; and every runnable ticket before it was refused.
   */
  lemma StartedInOrder(c: Config, s: State, now: real, passes: seq<Pass>, s': State, k: nat)
    requires c.agingInterval > 0.0 && Dispatched(c, s, now, passes, s') && k < |passes| && passes[k].started.Some?
    ensures var m, id := StateBefore(c, s, passes, k), passes[k].started.value;
            && id in m.queued && |m.active| < c.maxHeavy
            && |set x | x in m.active && m.active[x].serviceKey == m.queued[id].serviceKey| <
               (if m.queued[id].serviceKey in m.slots then m.slots[m.queued[id].serviceKey] else c.defaultSlots)
            && (m.queued[id].actor.Some? ==>
                  |set x | x in m.active && m.active[x].actor == m.queued[id].actor| < c.maxActivePerActor)
            && (m.queued[id].workload in {LocalBackground, Maintenance} ==>
                  && m.gates == {}
                  && forall other :: other in m.queued && other != m.queued[id].id ==>
                       m.queued[other].workload !in {LocalInteractive, LocalForeground})
            && (forall other :: other in m.queued && Runnable(c, m, m.queued[other]) && Before(c, m, now, other, id) ==>
                  other in passes[k].refused)
  {
    hide Dispatched, StateBefore, Less, OnWorker, OfActor, Priority;
    RoundIsValid(c, s, now, passes, s', k);
    var m := StateBefore(c, s, passes, k);
    var id := passes[k].started.value;
    assert id in RunnableIds(c, m);
    CountedOneByOne(m.active, m.queued[id]);
  }

  /** The tickets of a ticket's worker and of its actor. */
  lemma CountedOneByOne(active: map<TicketId, Ticket>, t: Ticket)
    ensures OnWorker(active, t.serviceKey) == set x | x in active && active[x].serviceKey == t.serviceKey
    ensures t.actor.Some? ==> OfActor(active, t.actor.value) == set x | x in active && active[x].actor == t.actor
  {
  }

  /**
   No ticket is started while an equally old, runnable one of an earlier class was not refused, unless both count as
   foreground work by then.
   */
  lemma StartedByClass(c: Config, s: State, now: real, passes: seq<Pass>, s': State, k: nat, other: TicketId)
    requires c.agingInterval > 0.0 && Dispatched(c, s, now, passes, s') && k < |passes| && passes[k].started.Some?
    requires var m := StateBefore(c, s, passes, k);
             other in m.queued && Runnable(c, m, m.queued[other]) && other !in passes[k].refused
    ensures var m, id := StateBefore(c, s, passes, k), passes[k].started.value;
            && id in m.queued
            && (m.queued[other].createdAt == m.queued[id].createdAt
                && EarlierClass(m.queued[other].workload, m.queued[id].workload) ==>
                  !m.queued[other].workload.LocalInteractive? && Risen(c, m.queued[id], now))
  {
    hide Dispatched, StateBefore, Less, OnWorker, OfActor, Priority, Risen, EarlierClass;
    StartedInOrder(c, s, now, passes, s', k);
    var m, id := StateBefore(c, s, passes, k), passes[k].started.value;
    assert !Before(c, m, now, other, id);
    if m.queued[other].createdAt == m.queued[id].createdAt
       && EarlierClass(m.queued[other].workload, m.queued[id].workload) {
      ClassesInOrder(c, m.dispatches, m.queued[other], m.queued[id], now);
    }
  }

  /** A dispatch leaves nothing runnable idle, unless slots are full or its last round saw everything refused. */
  lemma {:induction false} NothingLeftIdle(c: Config, s: State, now: real, passes: seq<Pass>, s': State, id: TicketId)
    requires c.agingInterval > 0.0 && Dispatched(c, s, now, passes, s')
    requires |s'.active| < c.maxHeavy && id in s'.queued && Runnable(c, s', s'.queued[id])
    ensures c.managed && passes != []
    ensures passes[|passes| - 1].started.None? && id in passes[|passes| - 1].refused
    decreases |passes|
  {
    hide ValidPass, Runnable, Start;
    assert id in RunnableIds(c, s');
    if passes != [] {
      FirstRound(c, s, now, passes, s');
      if passes[0].started.Some? {
        NothingLeftIdle(c, Start(c, s, passes[0].started.value), now, passes[1..], s', id);
      } else {
        AllRefused(c, s, now, passes[0], id);
      }
    }
  }

  lemma AllRefused(c: Config, s: State, now: real, p: Pass, id: TicketId)
    requires c.agingInterval > 0.0 && ValidPass(c, s, now, p) && p.started.None? && id in RunnableIds(c, s)
    ensures c.managed && id in p.refused
  {
    hide RunnableIds;
  }

  /******* Limits are neither exceeded nor tightened *******/

  /** Admission refuses exactly what would break a queue limit, and everything once closed. */
  lemma AdmissionIsExact(c: Config, s: State, t: Ticket)
    requires Bounded(c, s) && t.id !in s.queued
    ensures Refusal(c, s, t.actor, t.app).None? <==>
              var queued := s.queued[t.id := t];
              && !s.closed && |queued| <= c.maxDepth
              && (forall a :: |set id | id in queued && queued[id].actor == Some(a)| <= c.maxQueuedPerActor)
              && (forall a :: |set id | id in queued && queued[id].app == Some(a)| <= c.maxQueuedPerApp)
  {
    Enqueued(s, t);
    CountedByOwner(s.queued[t.id := t]);
    var queued := s.queued[t.id := t];
    OneMoreTicket(s.queued, t);
    if Refusal(c, s, t.actor, t.app).None? {
      OneMoreQueued(c, s, t);
    } else {
      hide Enqueue;
      if t.actor.Some? { MoreOfActor(s.queued, t, queued); }
      if t.app.Some? { MoreOfApp(s.queued, t, queued); }
    }
  }

  lemma Enqueued(s: State, t: Ticket)
    ensures Enqueue(s, t).queued == s.queued[t.id := t]
  {
    hide SetStatus;
  }

  lemma MoreOfActor(tickets: map<TicketId, Ticket>, t: Ticket, more: map<TicketId, Ticket>)
    requires t.id !in tickets && t.actor.Some? && more == tickets[t.id := t]
    ensures |OfActor(more, t.actor.value)| == |OfActor(tickets, t.actor.value)| + 1
  {
    assert OfActor(more, t.actor.value) == OfActor(tickets, t.actor.value) + {t.id};
  }

  lemma MoreOfApp(tickets: map<TicketId, Ticket>, t: Ticket, more: map<TicketId, Ticket>)
    requires t.id !in tickets && t.app.Some? && more == tickets[t.id := t]
    ensures |OfApp(more, t.app.value)| == |OfApp(tickets, t.app.value)| + 1
  {
    assert OfApp(more, t.app.value) == OfApp(tickets, t.app.value) + {t.id};
  }

  lemma MoreOnWorker(tickets: map<TicketId, Ticket>, t: Ticket, more: map<TicketId, Ticket>)
    requires t.id !in tickets && more == tickets[t.id := t]
    ensures |OnWorker(more, t.serviceKey)| == |OnWorker(tickets, t.serviceKey)| + 1
  {
    assert OnWorker(more, t.serviceKey) == OnWorker(tickets, t.serviceKey) + {t.id};
  }

  /** A ticket is runnable exactly when starting it breaks no actor's and no worker's limit and no background rule. */
  lemma RunnableIsExact(c: Config, s: State, id: TicketId)
    requires id in s.queued && s.queued[id].id == id && id !in s.active
    ensures var t, active := s.queued[id], Start(c, s, id).active;
            Runnable(c, s, t) <==>
              && (t.actor.Some? ==> |set x | x in active && active[x].actor == t.actor| <= c.maxActivePerActor)
              && |set x | x in active && active[x].serviceKey == t.serviceKey| <=
                 (if t.serviceKey in s.slots then s.slots[t.serviceKey] else c.defaultSlots)
              && (t.workload in {LocalBackground, Maintenance} ==>
                    && s.gates == {}
                    && forall other :: other in s.queued && other != id ==>
                         s.queued[other].workload !in {LocalInteractive, LocalForeground})
  {
    hide SetStatus, CountDispatch;
    var t, active := s.queued[id], s.active[id := s.queued[id]];
    CountedOneByOne(active, t);
    if t.actor.Some? { MoreOfActor(s.active, t, active); }
    MoreOnWorker(s.active, t, active);
  }

  /******* Priority *******/

  /** Among tickets of distinct names the priority order is a strict total order. */
  lemma PriorityIsStrictTotal(x: Key, y: Key, z: Key)
    requires x.id != y.id
    ensures !Less(x, x)
    ensures Less(x, y) != Less(y, x)
    ensures Less(x, y) && Less(y, z) ==> Less(x, z)
  {
  }

  /** One class of work goes before another. */
  predicate EarlierClass(a: WorkloadClass, b: WorkloadClass) {
    match b
    case LocalInteractive => false
    case LocalForeground => a.LocalInteractive?
    case RemoteCommitted => a.LocalInteractive? || a.LocalForeground?
    case LocalBackground => a.LocalInteractive? || a.LocalForeground? || a.RemoteCommitted?
    case Maintenance => !a.Maintenance?
  }

  /** Foreground work, or other work that has waited long enough to count as such. */
  predicate Risen(c: Config, t: Ticket, now: real) {
    match t.workload
    case LocalInteractive => false
    case LocalForeground => true
    case RemoteCommitted => now - t.createdAt >= c.agingInterval
    case LocalBackground => now - t.createdAt >= 2.0 * c.agingInterval
    case Maintenance => now - t.createdAt >= 3.0 * c.agingInterval
  }

  /** Every class's rank at every moment. */
  lemma RankByClass(c: Config, t: Ticket, now: real)
    requires c.agingInterval > 0.0
    ensures var r, waited := EffectiveRank(c, t, now), now - t.createdAt;
            match t.workload
            case LocalInteractive => r == 0
            case LocalForeground => r == 1
            case RemoteCommitted => r == if waited < c.agingInterval then 2 else 1
            case LocalBackground =>
              r == if waited < c.agingInterval then 3 else if waited < 2.0 * c.agingInterval then 2 else 1
            case Maintenance =>
              r == if waited < c.agingInterval then 4 else if waited < 2.0 * c.agingInterval then 3
                   else if waited < 3.0 * c.agingInterval then 2 else 1
  {
    hide Aged;
    AgedAtLeast(c, t, now, 1);
    AgedAtLeast(c, t, now, 2);
    AgedAtLeast(c, t, now, 3);
  }

  /** A ticket has aged n times once it has waited n intervals. */
  lemma AgedAtLeast(c: Config, t: Ticket, now: real, n: nat)
    requires c.agingInterval > 0.0 && n > 0
    ensures Aged(c, t, now) >= n <==> now - t.createdAt >= n as real * c.agingInterval
  {
    var waited := (now - t.createdAt) / c.agingInterval;
    if now - t.createdAt >= n as real * c.agingInterval {
      assert n as real * c.agingInterval > 0.0;
      DivideMonotone(n as real * c.agingInterval, now - t.createdAt, c.agingInterval);
      assert n as real * c.agingInterval / c.agingInterval == n as real;
      FloorMonotone(n as real, waited);
      assert waited.Floor >= n;
    } else if now > t.createdAt {
      QuotientBelow(now - t.createdAt, c.agingInterval, n as real);
      assert waited.Floor < n;
    }
  }

  /** Of two tickets created together the one of the earlier class comes first, until the other counts as foreground. */
  lemma ClassesInOrder(c: Config, dispatches: map<string, nat>, a: Ticket, b: Ticket, now: real)
    requires c.agingInterval > 0.0 && a.createdAt == b.createdAt && EarlierClass(a.workload, b.workload)
    ensures a.workload.LocalInteractive? || !Risen(c, b, now) ==>
              Less(Priority(c, dispatches, a, now), Priority(c, dispatches, b, now))
    ensures !a.workload.LocalInteractive? && Risen(c, b, now) ==>
              EffectiveRank(c, a, now) == EffectiveRank(c, b, now) == 1
  {
    RankByClass(c, a, now);
    RankByClass(c, b, now);
    hide EffectiveRank;
  }

  /**
   Within one rank an earlier deadline comes before a later or missing one; then the actor served less often; then
   the ticket created or numbered first.
   */
  lemma PriorityServes(c: Config, dispatches: map<string, nat>, a: Ticket, b: Ticket, now: real)
    requires c.agingInterval > 0.0
    ensures a.workload.LocalInteractive? && !b.workload.LocalInteractive? ==>
              Less(Priority(c, dispatches, a, now), Priority(c, dispatches, b, now))
    ensures EffectiveRank(c, a, now) == EffectiveRank(c, b, now) ==>
              var first := Less(Priority(c, dispatches, a, now), Priority(c, dispatches, b, now));
              && (a.deadline.Some? && (b.deadline.None? || a.deadline.value < b.deadline.value) ==> first)
              && (a.deadline == b.deadline && Served(dispatches, a) < Served(dispatches, b) ==> first)
              && (a.deadline == b.deadline && Served(dispatches, a) == Served(dispatches, b) ==>
                    && (a.createdAt < b.createdAt ==> first)
                    && (a.createdAt == b.createdAt && a.sequence < b.sequence ==> first))
    ensures a.workload == b.workload && a.deadline == b.deadline && a.actor == b.actor
            && (a.createdAt < b.createdAt || (a.createdAt == b.createdAt && a.sequence < b.sequence)) ==>
              Less(Priority(c, dispatches, a, now), Priority(c, dispatches, b, now))
  {
    RankByClass(c, a, now);
    RankByClass(c, b, now);
    if a.workload == b.workload && a.createdAt <= b.createdAt { OlderRanksNoWorse(c, a, b, now); }
    hide EffectiveRank;
  }

  /** How often a ticket's actor has been served; tickets without one count as never served. */
  function Served(dispatches: map<string, nat>, t: Ticket): nat {
    match t.actor
    case None => 0
    case Some(actor) => if actor in dispatches then dispatches[actor] else 0
  }

  lemma FloorMonotone(a: real, b: real)
    requires a <= b
    ensures a.Floor <= b.Floor
  {
  }

  lemma DivideMonotone(a: real, b: real, d: real)
    requires a <= b && d > 0.0
    ensures a / d <= b / d
  {
  }

  lemma QuotientBelow(x: real, d: real, n: real)
    requires d > 0.0 && x < n * d
    ensures x / d < n
  {
    var q := x / d;
    assert x == q * d;
    assert (n - q) * d > 0.0;
  }

  /** Waiting longer never gives a worse rank, and ageing alone never reaches the interactive rank. */
  lemma AgeingImprovesRank(c: Config, t: Ticket, now: real, later: real)
    requires c.agingInterval > 0.0 && now <= later
    ensures EffectiveRank(c, t, later) <= EffectiveRank(c, t, now) <= BaseRank(t.workload)
    ensures EffectiveRank(c, t, later) == 0 <==> t.workload.LocalInteractive?
  {
    if now > t.createdAt {
      DivideMonotone(now - t.createdAt, later - t.createdAt, c.agingInterval);
      FloorMonotone((now - t.createdAt) / c.agingInterval, (later - t.createdAt) / c.agingInterval);
    } else if later > t.createdAt {
      DivideMonotone(0.0, later - t.createdAt, c.agingInterval);
    }
    if now > t.createdAt {
      DivideMonotone(0.0, now - t.createdAt, c.agingInterval);
    }
  }

  /** Of two tickets of one class the older never ranks worse. */
  lemma OlderRanksNoWorse(c: Config, older: Ticket, newer: Ticket, now: real)
    requires c.agingInterval > 0.0 && older.workload == newer.workload && older.createdAt <= newer.createdAt
    ensures EffectiveRank(c, older, now) <= EffectiveRank(c, newer, now)
  {
    if now > newer.createdAt {
      DivideMonotone(now - newer.createdAt, now - older.createdAt, c.agingInterval);
      FloorMonotone((now - newer.createdAt) / c.agingInterval, (now - older.createdAt) / c.agingInterval);
    } else if now > older.createdAt {
      DivideMonotone(0.0, now - older.createdAt, c.agingInterval);
    }
  }

  /** A ticket of base rank b reaches rank 1 after b - 1 whole intervals, and not before. */
  lemma AgedToForeground(c: Config, t: Ticket, now: real)
    requires c.agingInterval > 0.0 && now >= t.createdAt && BaseRank(t.workload) > 0
    ensures EffectiveRank(c, t, now) == 1
            <==> now - t.createdAt >= (BaseRank(t.workload) - 1) as real * c.agingInterval
  {
    var waited, n := (now - t.createdAt) / c.agingInterval, BaseRank(t.workload) - 1;
    if now - t.createdAt >= n as real * c.agingInterval {
      DivideMonotone(n as real * c.agingInterval, now - t.createdAt, c.agingInterval);
      assert n as real * c.agingInterval / c.agingInterval == n as real;
      FloorMonotone(n as real, waited);
      assert waited.Floor >= n;
    } else {
      QuotientBelow(now - t.createdAt, c.agingInterval, n as real);
      assert waited.Floor < n;
    }
  }
}
