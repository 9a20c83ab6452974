/**
 What the scheduler tells about itself: totals, counts by class and by worker,
 and the queue in priority order.  ai2apps/worker_scheduler.py, snapshot.
 */
module SchedulerReport {
  import opened Base
  import opened Scheduling
  import Proofs = SchedulerProofs

  type Tickets = map<TicketId, Ticket>

  type Counts = map<WorkloadClass, nat>

  datatype WorkerReport = WorkerReport(queued: nat, running: nat, queuedByClass: Counts, runningByClass: Counts)

  datatype Report = Report(queued: nat, running: nat, available: nat, queuedByClass: Counts, runningByClass: Counts,
                           workers: map<string, WorkerReport>, tickets: seq<TicketId>)

  ghost function OfClass(tickets: Tickets, ids: set<TicketId>, w: WorkloadClass): set<TicketId> {
    set id | id in ids && id in tickets && tickets[id].workload == w
  }

  ghost predicate Counted(tickets: Tickets, ids: set<TicketId>, counts: Counts) {
    forall w: WorkloadClass :: w in counts && counts[w] == |OfClass(tickets, ids, w)|
  }

  function Keys(tickets: Tickets): set<string> {
    set id | id in tickets :: tickets[id].serviceKey
  }

  ghost predicate WorkerCounted(s: State, key: string, r: WorkerReport) {
    && r.queued == |OnWorker(s.queued, key)| && r.running == |OnWorker(s.active, key)|
    && Counted(s.queued, OnWorker(s.queued, key), r.queuedByClass)
    && Counted(s.active, OnWorker(s.active, key), r.runningByClass)
  }

  /** The report counts the state. */
  ghost predicate Reports(c: Config, s: State, r: Report) {
    && r.queued == |s.queued| && r.running == |s.active| && r.available == Max(0, c.maxHeavy - |s.active|)
    && Counted(s.queued, s.queued.Keys, r.queuedByClass) && Counted(s.active, s.active.Keys, r.runningByClass)
    && r.workers.Keys == Keys(s.queued) + Keys(s.active)
    && (forall key :: key in r.workers ==> WorkerCounted(s, key, r.workers[key]))
  }

  function NoCounts(): Counts {
    map[LocalInteractive := 0, LocalForeground := 0, RemoteCommitted := 0, LocalBackground := 0, Maintenance := 0]
  }

  method CountClasses(tickets: Tickets, ids: set<TicketId>) returns (counts: Counts)
    requires ids <= tickets.Keys
    ensures Counted(tickets, ids, counts)
  {
    counts := NoCounts();
    NothingCounted(tickets, counts);
    var todo := ids;
    ghost var done: set<TicketId> := {};
    while todo != {}
      invariant done + todo == ids && done !! todo && Counted(tickets, done, counts)
      decreases |todo|
    {
      var id :| id in todo;
      CountOne(tickets, done, counts, id);
      counts := counts[tickets[id].workload := counts[tickets[id].workload] + 1];
      done, todo := done + {id}, todo - {id};
    }
    assert done == ids;
  }

  lemma NothingCounted(tickets: Tickets, counts: Counts)
    requires counts == NoCounts()
    ensures Counted(tickets, {}, counts)
  {
    forall w: WorkloadClass ensures w in counts && counts[w] == |OfClass(tickets, {}, w)| {
      assert OfClass(tickets, {}, w) == {};
      match w {
        case LocalInteractive =>
        case LocalForeground =>
        case RemoteCommitted =>
        case LocalBackground =>
        case Maintenance =>
      }
    }
  }

  lemma CountOne(tickets: Tickets, done: set<TicketId>, counts: Counts, id: TicketId)
    requires Counted(tickets, done, counts) && id in tickets && id !in done
    ensures tickets[id].workload in counts
    ensures Counted(tickets, done + {id}, counts[tickets[id].workload := counts[tickets[id].workload] + 1])
  {
    hide OfClass;
    forall w: WorkloadClass
      ensures |OfClass(tickets, done + {id}, w)| == |OfClass(tickets, done, w)|
             + (if w == tickets[id].workload then 1 else 0)
    {
      OneMoreOfClass(tickets, done, id, w);
    }
  }

  method ReportWorker(s: State, key: string) returns (r: WorkerReport)
    ensures WorkerCounted(s, key, r)
  {
    var waiting, running := OnWorker(s.queued, key), OnWorker(s.active, key);
    var queuedByClass := CountClasses(s.queued, waiting);
    var runningByClass := CountClasses(s.active, running);
    r := WorkerReport(|waiting|, |running|, queuedByClass, runningByClass);
  }

  method ReportWorkers(s: State) returns (workers: map<string, WorkerReport>)
    ensures workers.Keys == Keys(s.queued) + Keys(s.active)
    ensures forall key :: key in workers ==> WorkerCounted(s, key, workers[key])
  {
    hide WorkerCounted, Keys;
    var keys := Keys(s.queued) + Keys(s.active);
    workers := map[];
    var todo := keys;
    while todo != {}
      invariant todo <= keys && workers.Keys == keys - todo
      invariant forall key :: key in workers ==> WorkerCounted(s, key, workers[key])
      decreases |todo|
    {
      var key :| key in todo;
      var worker := ReportWorker(s, key);
      workers, todo := workers[key := worker], todo - {key};
    }
  }

  method ReportState(c: Config, s: State, order: seq<TicketId>) returns (r: Report)
    ensures Reports(c, s, r) && r.tickets == order
  {
    hide Counted, WorkerCounted, Keys;
    var queuedByClass := CountClasses(s.queued, s.queued.Keys);
    var runningByClass := CountClasses(s.active, s.active.Keys);
    var workers := ReportWorkers(s);
    r := Report(|s.queued|, |s.active|, Max(0, c.maxHeavy - |s.active|), queuedByClass, runningByClass, workers, order);
  }

  function Sum(counts: Counts): nat
    requires forall w: WorkloadClass :: w in counts
  {
    counts[LocalInteractive] + counts[LocalForeground] + counts[RemoteCommitted] + counts[LocalBackground]
      + counts[Maintenance]
  }

  lemma UncountOne(tickets: Tickets, ids: set<TicketId>, counts: Counts, id: TicketId)
    requires Counted(tickets, ids, counts) && id in tickets && id in ids
    ensures tickets[id].workload in counts && counts[tickets[id].workload] > 0
    ensures Counted(tickets, ids - {id}, counts[tickets[id].workload := counts[tickets[id].workload] - 1])
  {
    hide OfClass;
    forall w: WorkloadClass
      ensures |OfClass(tickets, ids, w)| == |OfClass(tickets, ids - {id}, w)|
             + (if w == tickets[id].workload then 1 else 0)
    {
      OneMoreOfClass(tickets, ids - {id}, id, w);
      assert ids - {id} + {id} == ids;
    }
  }

  lemma OneMoreOfClass(tickets: Tickets, done: set<TicketId>, id: TicketId, w: WorkloadClass)
    requires id in tickets && id !in done
    ensures |OfClass(tickets, done + {id}, w)| == |OfClass(tickets, done, w)|
             + (if w == tickets[id].workload then 1 else 0)
  {
    if w == tickets[id].workload {
      assert OfClass(tickets, done + {id}, w) == OfClass(tickets, done, w) + {id};
    } else {
      assert OfClass(tickets, done + {id}, w) == OfClass(tickets, done, w);
    }
  }

  lemma SumOfLess(counts: Counts, w: WorkloadClass)
    requires (forall x: WorkloadClass :: x in counts) && counts[w] > 0
    ensures Sum(counts[w := counts[w] - 1]) == Sum(counts) - 1
  {
  }

  lemma AllClasses(tickets: Tickets, ids: set<TicketId>, counts: Counts)
    requires Counted(tickets, ids, counts)
    ensures forall w: WorkloadClass :: w in counts
    ensures ids == {} ==> Sum(counts) == 0
  {
    assert ids == {} ==> forall w: WorkloadClass :: OfClass(tickets, ids, w) == {};
  }

  /** The five classes share out the tickets. */
  lemma {:induction false} ClassesShareOut(tickets: Tickets, ids: set<TicketId>, counts: Counts)
    requires ids <= tickets.Keys && Counted(tickets, ids, counts)
    ensures (forall w: WorkloadClass :: w in counts) && Sum(counts) == |ids|
    decreases |ids|
  {
    hide Counted, Sum;
    AllClasses(tickets, ids, counts);
    if ids != {} {
      var id :| id in ids;
      UncountOne(tickets, ids, counts, id);
      SumOfLess(counts, tickets[id].workload);
      ClassesShareOut(tickets, ids - {id}, counts[tickets[id].workload := counts[tickets[id].workload] - 1]);
    }
  }

  /** In a reachable state the figures of a report add up, and running and available places are all there are. */
  lemma ReportAddsUp(c: Config, s: State, r: Report)
    requires Proofs.Inv(c, s) && Reports(c, s, r)
    ensures r.running + r.available == c.maxHeavy
    ensures s.sequence == r.queued + r.running + s.completed + s.failed + s.cancelled + s.expired
    ensures Sum(r.queuedByClass) == r.queued && Sum(r.runningByClass) == r.running
    ensures forall key :: key in r.workers ==>
              && Sum(r.workers[key].queuedByClass) == r.workers[key].queued
              && Sum(r.workers[key].runningByClass) == r.workers[key].running
  {
    Proofs.Conservation(c, s);
    KeysSize(s.queued);
    KeysSize(s.active);
    ClassesShareOut(s.queued, s.queued.Keys, r.queuedByClass);
    ClassesShareOut(s.active, s.active.Keys, r.runningByClass);
    forall key | key in r.workers
      ensures Sum(r.workers[key].queuedByClass) == r.workers[key].queued
      ensures Sum(r.workers[key].runningByClass) == r.workers[key].running
    {
      assert WorkerCounted(s, key, r.workers[key]);
      ClassesShareOut(s.queued, OnWorker(s.queued, key), r.workers[key].queuedByClass);
      ClassesShareOut(s.active, OnWorker(s.active, key), r.workers[key].runningByClass);
    }
  }
}
