/**
 States and atomic steps of the worker scheduler: every lock-held section is
 one step.  ai2apps/worker_scheduler.py.
 */
module Scheduling {
  import opened Base

  datatype WorkloadClass = LocalInteractive | LocalForeground | RemoteCommitted | LocalBackground | Maintenance

  datatype Status = Queued | Running | Succeeded | Failed | Cancelled | Expired

  /** The 128-bit random part of a ticket's name; names compare like these numbers. */
  type TicketId = nat

  datatype Ticket = Ticket(id: TicketId, requestId: string, serviceKey: string, workload: WorkloadClass,
                           createdAt: real, sequence: nat, deadline: Option<real>,
                           actor: Option<string>, app: Option<string>, session: Option<string>)

  datatype Config = Config(maxHeavy: nat, defaultSlots: nat, maxDepth: nat, agingInterval: real,
                           maxActivePerActor: nat, maxQueuedPerActor: nat, maxQueuedPerApp: nat,
                           managed: bool)   // whether a resource manager is attached

  predicate ValidConfig(c: Config) {
    && c.maxHeavy >= 1 && c.defaultSlots >= 1 && c.maxDepth >= 1 && c.agingInterval > 0.0
    && c.maxActivePerActor >= 1 && c.maxQueuedPerActor >= 1 && c.maxQueuedPerApp >= 1
  }

  /** `status` records every ticket ever issued; finished tickets are only there. */
  datatype State = State(queued: map<TicketId, Ticket>, active: map<TicketId, Ticket>,
                         waiters: set<TicketId>, reserved: set<TicketId>, slots: map<string, nat>,
                         sequence: nat, closed: bool,
                         completed: nat, failed: nat, cancelled: nat, expired: nat,
                         dispatches: map<string, nat>, gates: set<string>,
                         status: map<TicketId, Status>)

  function Initial(): State {
    State(map[], map[], {}, {}, map[], 0, false, 0, 0, 0, 0, map[], {}, map[])
  }

  /******* Priority *******/

  function BaseRank(w: WorkloadClass): nat {
    match w
    case LocalInteractive => 0
    case LocalForeground => 1
    case RemoteCommitted => 2
    case LocalBackground => 3
    case Maintenance => 4
  }

  /** Whole ageing intervals that a ticket has waited; a clock running backwards counts as no wait. */
  function Aged(c: Config, t: Ticket, now: real): nat
    requires c.agingInterval > 0.0
  {
    if now <= t.createdAt then 0 else ((now - t.createdAt) / c.agingInterval).Floor
  }

  function EffectiveRank(c: Config, t: Ticket, now: real): nat
    requires c.agingInterval > 0.0
  {
    var base := BaseRank(t.workload);
    if base == 0 then 0 else Max(1, base - Aged(c, t, now))
  }

  /** A missing deadline counts as infinitely far away. */
  datatype Key = Key(rank: nat, deadline: Option<real>, dispatches: nat, createdAt: real, sequence: nat, id: TicketId)

  function Priority(c: Config, dispatches: map<string, nat>, t: Ticket, now: real): Key
    requires c.agingInterval > 0.0
  {
    Key(EffectiveRank(c, t, now), t.deadline,
        Dispatches(dispatches, t.actor), t.createdAt, t.sequence, t.id)
  }

  predicate Sooner(a: Option<real>, b: Option<real>) {
    a.Some? && (b.None? || a.value < b.value)
  }

  /** Tuples compare component by component. */
  predicate Less(a: Key, b: Key) {
    if a.rank != b.rank then a.rank < b.rank
    else if a.deadline != b.deadline then Sooner(a.deadline, b.deadline)
    else if a.dispatches != b.dispatches then a.dispatches < b.dispatches
    else if a.createdAt != b.createdAt then a.createdAt < b.createdAt
    else if a.sequence != b.sequence then a.sequence < b.sequence
    else a.id < b.id
  }

  predicate Before(c: Config, s: State, now: real, a: TicketId, b: TicketId)
    requires c.agingInterval > 0.0 && a in s.queued && b in s.queued
  {
    Less(Priority(c, s.dispatches, s.queued[a], now), Priority(c, s.dispatches, s.queued[b], now))
  }

  /******* Admission *******/

  predicate IsBackground(w: WorkloadClass) {
    w.LocalBackground? || w.Maintenance?
  }

  predicate IsForeground(w: WorkloadClass) {
    w.LocalInteractive? || w.LocalForeground?
  }

  function OfActor(tickets: map<TicketId, Ticket>, actor: string): set<TicketId> {
    set id | id in tickets && tickets[id].actor == Some(actor)
  }

  function OfApp(tickets: map<TicketId, Ticket>, app: string): set<TicketId> {
    set id | id in tickets && tickets[id].app == Some(app)
  }

  function OnWorker(tickets: map<TicketId, Ticket>, key: string): set<TicketId> {
    set id | id in tickets && tickets[id].serviceKey == key
  }

  function SlotLimit(c: Config, s: State, key: string): nat {
    if key in s.slots then s.slots[key] else c.defaultSlots
  }

  predicate Runnable(c: Config, s: State, t: Ticket) {
    && (IsBackground(t.workload) ==>
          s.gates == {} && forall id :: id in s.queued && id != t.id ==> !IsForeground(s.queued[id].workload))
    && (t.actor.Some? ==> |OfActor(s.active, t.actor.value)| < c.maxActivePerActor)
    && |OnWorker(s.active, t.serviceKey)| < SlotLimit(c, s, t.serviceKey)
  }

  function RunnableIds(c: Config, s: State): set<TicketId> {
    set id | id in s.queued && Runnable(c, s, s.queued[id])
  }

  /******* Building blocks of the steps *******/

  function SetStatus(status: map<TicketId, Status>, ids: set<TicketId>, st: Status): (r: map<TicketId, Status>)
    ensures r.Keys == status.Keys + ids
    ensures forall id :: id in r ==> r[id] == if id in ids then st else status[id]
  {
    map id | id in status.Keys + ids :: if id in ids then st else status[id]
  }

  /** Take tickets out of the queue with a final status, waking their waiters. */
  function Dequeue(s: State, ids: set<TicketId>, st: Status): State
    requires st.Expired? || st.Cancelled?
  {
    s.(queued := s.queued - ids, waiters := s.waiters - ids, status := SetStatus(s.status, ids, st),
       expired := s.expired + (if st.Expired? then |ids| else 0),
       cancelled := s.cancelled + (if st.Cancelled? then |ids| else 0))
  }

  predicate IsOverdue(t: Ticket, now: real) {
    t.deadline.Some? && t.deadline.value <= now
  }

  function Overdue(s: State, now: real): set<TicketId> {
    set id | id in s.queued && IsOverdue(s.queued[id], now)
  }

  function Expire(s: State, now: real): State {
    Dequeue(s, Overdue(s, now), Expired)
  }

  function Start(c: Config, s: State, id: TicketId): State
    requires id in s.queued
  {
    var t := s.queued[id];
    s.(queued := s.queued - {id}, active := s.active[id := t], waiters := s.waiters - {id},
       reserved := if c.managed then s.reserved + {id} else s.reserved,
       status := SetStatus(s.status, {id}, Running),
       dispatches := CountDispatch(s.dispatches, t.actor))
  }

  function Dispatches(dispatches: map<string, nat>, actor: Option<string>): nat {
    if actor.Some? && actor.value in dispatches then dispatches[actor.value] else 0
  }

  function CountDispatch(dispatches: map<string, nat>, actor: Option<string>): map<string, nat> {
    if actor.Some? then dispatches[actor.value := Dispatches(dispatches, actor) + 1] else dispatches
  }

  /******* Dispatching *******/

  /** One round of the loop: which runnable tickets were refused a reservation, and which one started. */
  datatype Pass = Pass(refused: set<TicketId>, started: Option<TicketId>)

  /** The started ticket is the first in priority order whose reservation was not refused. */
  ghost predicate ValidPass(c: Config, s: State, now: real, p: Pass)
    requires c.agingInterval > 0.0
  {
    var runnable := RunnableIds(c, s);
    && |s.active| < c.maxHeavy && runnable != {}
    && p.refused <= runnable
    && (!c.managed ==> p.refused == {})
    && (match p.started
        case None => p.refused == runnable
        case Some(id) =>
          && id in runnable
          && (forall other :: other in runnable ==> (other in p.refused <==> Before(c, s, now, other, id))))
  }

  /** The rounds of one dispatch: it goes on until slots are full, nothing is runnable or all is refused. */
  ghost predicate Dispatched(c: Config, s: State, now: real, passes: seq<Pass>, s': State)
    requires c.agingInterval > 0.0
    decreases |passes|
  {
    if passes == [] then
      s' == s && (|s.active| >= c.maxHeavy || RunnableIds(c, s) == {})
    else
      && ValidPass(c, s, now, passes[0])
      && (match passes[0].started
          case None => |passes| == 1 && s' == s
          case Some(id) => id in s.queued && Dispatched(c, Start(c, s, id), now, passes[1..], s'))
  }

  ghost predicate Dispatch(c: Config, s: State, now: real, passes: seq<Pass>, s': State)
    requires c.agingInterval > 0.0
  {
    Dispatched(c, Expire(s, now), now, passes, s')
  }

  /******* Steps *******/

  /** What identifies a request when its queued work is cancelled. */
  datatype Request = Request(serviceKey: string, requestId: string, actor: string, app: Option<string>,
                             session: Option<string>)

  predicate Matches(t: Ticket, r: Request) {
    t.serviceKey == r.serviceKey && t.requestId == r.requestId && t.actor == Some(r.actor) && t.app == r.app
      && t.session == r.session
  }

  /** A dispatch inside a step: the clock reading and the rounds it took. */
  datatype Round = Round(now: real, passes: seq<Pass>)

  datatype Op =
    | Acquire(t: Ticket, timeout: Option<real>, round: Round)
    | ExpireTicket(id: TicketId, round: Round)
    | Cancel(id: TicketId, round: Round)
    | CancelRequest(request: Request, round: Round)
    | Release(id: TicketId, failedRun: bool, cancelledRun: bool, round: Round)
    | Snapshot(now: real)
    | SetGate(reason: string, paused: bool, round: Round)
    | Notify(round: Round)
    | SetSlots(key: string, slots: nat)
    | Shutdown

  /** The four refusals of `acquire`, in the code's order. */
  function Refusal(c: Config, s: State, actor: Option<string>, app: Option<string>): Option<string> {
    if s.closed then Some("Worker scheduler is shutting down")
    else if |s.queued| >= c.maxDepth then Some("Worker scheduler queue is full")
    else if actor.Some? && |OfActor(s.queued, actor.value)| >= c.maxQueuedPerActor
    then Some("Worker scheduler actor queue is full")
    else if app.Some? && |OfApp(s.queued, app.value)| >= c.maxQueuedPerApp
    then Some("Worker scheduler App queue is full")
    else None
  }

  function Enqueue(s: State, t: Ticket): State {
    s.(sequence := s.sequence + 1, queued := s.queued[t.id := t], waiters := s.waiters + {t.id},
       status := SetStatus(s.status, {t.id}, Queued))
  }

  function Finished(failedRun: bool, cancelledRun: bool): Status {
    if cancelledRun then Cancelled else if failedRun then Failed else Succeeded
  }

  /** Give back an active ticket's place with its outcome. */
  function Deactivate(s: State, id: TicketId, st: Status): State {
    s.(active := s.active - {id}, reserved := s.reserved - {id}, status := SetStatus(s.status, {id}, st),
       cancelled := s.cancelled + (if st.Cancelled? then 1 else 0),
       failed := s.failed + (if st.Failed? then 1 else 0),
       completed := s.completed + (if st.Succeeded? then 1 else 0))
  }

  function MatchingIds(tickets: map<TicketId, Ticket>, r: Request): set<TicketId> {
    set id | id in tickets && Matches(tickets[id], r)
  }

  /** The state right before the step's dispatch, or None when the step does not dispatch. */
  function Prelude(c: Config, s: State, op: Op): Option<State> {
    match op
    case Acquire(t, timeout, _) =>
      if (timeout.Some? && timeout.value <= 0.0) || Refusal(c, s, t.actor, t.app).Some? then None
      else Some(Enqueue(s, t))
    case ExpireTicket(id, _) => if id in s.queued then Some(Dequeue(s, {id}, Expired)) else None
    case Cancel(id, _) => if id in s.queued then Some(Dequeue(s, {id}, Cancelled)) else None
    case CancelRequest(r, _) =>
      if r.actor == "" || r.requestId == "" || MatchingIds(s.active, r) != {} || MatchingIds(s.queued, r) == {}
      then None
      else Some(Dequeue(s, MatchingIds(s.queued, r), Cancelled))
    case Release(id, f, x, _) => if id in s.active then Some(Deactivate(s, id, Finished(f, x))) else None
    case SetGate(reason, paused, _) => Some(s.(gates := if paused then s.gates + {reason} else s.gates - {reason}))
    case Notify(_) => Some(s)
    case Snapshot(_) => None
    case SetSlots(_, _) => None
    case Shutdown => None
  }

  /** The state after a step that does not dispatch. */
  function Quiet(s: State, op: Op): State {
    match op
    case Snapshot(now) => Expire(s, now)
    case SetSlots(key, slots) => s.(slots := s.slots[key := slots])
    case Shutdown => Dequeue(s, s.queued.Keys, Cancelled).(closed := true, waiters := {})
    case _ => s
  }

  /** New tickets carry the next sequence number, a fresh name and their own deadline. */
  ghost predicate WellIssued(s: State, op: Op) {
    op.Acquire? ==>
      && op.t.sequence == s.sequence + 1 && op.t.id !in s.status
      && op.t.deadline == (if op.timeout.None? then None else Some(op.t.createdAt + op.timeout.value))
  }

  ghost predicate Step(c: Config, s: State, op: Op, s': State)
    requires c.agingInterval > 0.0
  {
    && WellIssued(s, op)
    && (match Prelude(c, s, op)
        case Some(m) => Dispatch(c, m, op.round.now, op.round.passes, s')
        case None => s' == Quiet(s, op))
  }

  ghost predicate Execution(c: Config, s: State, ops: seq<Op>, s': State)
    requires c.agingInterval > 0.0
    decreases |ops|
  {
    if ops == [] then s' == s
    else exists m :: Step(c, s, ops[0], m) && Execution(c, m, ops[1..], s')
  }
}
