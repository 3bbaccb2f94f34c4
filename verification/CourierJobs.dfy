/** Courier jobs: the second state machine over the order identifiers. */
module CourierJobs {
  import opened Collections
  import opened DomainEvents
  import opened OrderLifecycle

  datatype JobStatus = Available | Accepted | JobPickedUp | DroppedOff

  datatype Job = Job(
    jobId: string, orderId: string, status: JobStatus, courierId: Option<string>,
    acceptedAt: Option<int>, pickedUpAt: Option<int>, droppedOffAt: Option<int>)

  datatype JobError = JobNotFound | StateConflict | CourierMismatch

  datatype JobCommand = Accept | Pickup | Dropoff

  type Jobs = map<string, Job>

  function AvailableJob(orderId: string): Job {
    Job(orderId, orderId, Available, None, None, None, None)
  }

  predicate NeedsJob(orders: map<string, Order>, jobs: Jobs, id: string)
    requires id in orders
  {
    orders[id].status == DispatchPending && id !in jobs
  }

  /** The jobs once the dispatch-pending orders among `seen` without one have been given one. */
  function SyncedOver(orders: map<string, Order>, jobs: Jobs, seen: set<string>): Jobs {
    jobs + map id | id in orders && id in seen && NeedsJob(orders, jobs, id) :: AvailableJob(id)
  }

  function Synced(orders: map<string, Order>, jobs: Jobs): Jobs {
    SyncedOver(orders, jobs, orders.Keys)
  }

  lemma SyncOneMore(orders: map<string, Order>, jobs: Jobs, seen: set<string>, id: string)
    requires id in orders && id !in seen
    ensures SyncedOver(orders, jobs, seen + {id}) ==
              if NeedsJob(orders, jobs, id) then SyncedOver(orders, jobs, seen)[id := AvailableJob(id)]
              else SyncedOver(orders, jobs, seen)
    ensures orders[id].status == DispatchPending ==>
              (NeedsJob(orders, jobs, id) <==> id !in SyncedOver(orders, jobs, seen))
  {
  }

  /** What a job command does to a job, or why it throws. */
  function DecideJob(job: Job, c: JobCommand, courierId: string, now: int): Result<Job, JobError> {
    match c
    case Accept =>
      if job.status == Accepted && job.courierId == Some(courierId) then Ok(job)
      else if job.status != Available then Err(StateConflict)
      else Ok(job.(status := Accepted, courierId := Some(courierId), acceptedAt := Some(now)))
    case Pickup =>
      if job.status == JobPickedUp && job.courierId == Some(courierId) then Ok(job)
      else if job.status != Accepted then Err(StateConflict)
      else if job.courierId != Some(courierId) then Err(CourierMismatch)
      else Ok(job.(status := JobPickedUp, pickedUpAt := Some(now)))
    case Dropoff =>
      if job.status == DroppedOff && job.courierId == Some(courierId) then Ok(job)
      else if job.status != JobPickedUp then Err(StateConflict)
      else if job.courierId != Some(courierId) then Err(CourierMismatch)
      else Ok(job.(status := DroppedOff, droppedOffAt := Some(now)))
  }

  /** A whole service call: synchronise, look up, decide. */
  function CallJob(orders: map<string, Order>, jobs: Jobs, id: string, c: JobCommand, courierId: string, now: int)
    : (Jobs, Result<Job, JobError>)
  {
    var synced := Synced(orders, jobs);
    if id !in synced then (synced, Err(JobNotFound))
    else
      var r := DecideJob(synced[id], c, courierId, now);
      (if r.Ok? then synced[r.value.jobId := r.value] else synced, r)
  }

  class InMemoryCourierJobRepository {
    var jobs: Jobs

    constructor ()
      ensures jobs == map[]
    {
      jobs := map[];
    }

    method Save(job: Job)
      modifies this
      ensures jobs == old(jobs)[job.jobId := job]
    {
      jobs := jobs[job.jobId := job];
    }

    method FindById(id: string) returns (found: Option<Job>)
      ensures found == if id in jobs then Some(jobs[id]) else None
    {
      found := if id in jobs then Some(jobs[id]) else None;
    }
  }

  class CourierJobService {
    const orders: InMemoryOrderRepository
    const jobs: InMemoryCourierJobRepository

    constructor (orders: InMemoryOrderRepository, jobs: InMemoryCourierJobRepository)
      ensures this.orders == orders && this.jobs == jobs
    {
      this.orders, this.jobs := orders, jobs;
    }

    /** Orders are stored under their own identifier. */
    ghost predicate WellKeyed()
      reads orders, jobs
    {
      && (forall id :: id in orders.orders ==> orders.orders[id].id == id)
      && (forall id :: id in jobs.jobs ==> jobs.jobs[id].jobId == id)
    }

    method SyncDispatchPendingOrders()
      requires WellKeyed()
      modifies jobs
      ensures jobs.jobs == Synced(orders.orders, old(jobs.jobs)) && WellKeyed()
    {
      var todo := orders.orders.Keys;
      ghost var before := jobs.jobs;
      ghost var seen: set<string> := {};
      while todo != {}
        invariant WellKeyed() && seen + todo == orders.orders.Keys && seen !! todo
        invariant jobs.jobs == SyncedOver(orders.orders, before, seen)
        decreases todo
      {
        var id :| id in todo;
        SyncOneMore(orders.orders, before, seen, id);
        todo, seen := todo - {id}, seen + {id};
        var order := orders.orders[id];
        if order.status != DispatchPending {
          continue;
        }
        var existing := jobs.FindById(order.id);
        if existing.Some? {
          continue;
        }
        jobs.Save(AvailableJob(order.id));
      }
      assert seen == orders.orders.Keys;
    }

    method AcceptJob(jobId: string, courierId: string, now: int) returns (r: Result<Job, JobError>)
      requires WellKeyed()
      modifies jobs
      ensures (jobs.jobs, r) == CallJob(orders.orders, old(jobs.jobs), jobId, Accept, courierId, now)
      ensures WellKeyed()
    {
      SyncDispatchPendingOrders();
      var found := jobs.FindById(jobId);
      if found.None? {
        return Err(JobNotFound);
      }
      var job := found.value;
      if job.status == Accepted && job.courierId == Some(courierId) {
        assert jobs.jobs[job.jobId := job] == jobs.jobs;
        return Ok(job);
      }
      if job.status != Available {
        return Err(StateConflict);
      }
      var updated := job.(status := Accepted, courierId := Some(courierId), acceptedAt := Some(now));
      jobs.Save(updated);
      return Ok(updated);
    }

    method PickupJob(jobId: string, courierId: string, now: int) returns (r: Result<Job, JobError>)
      requires WellKeyed()
      modifies jobs
      ensures (jobs.jobs, r) == CallJob(orders.orders, old(jobs.jobs), jobId, Pickup, courierId, now)
      ensures WellKeyed()
    {
      SyncDispatchPendingOrders();
      var found := jobs.FindById(jobId);
      if found.None? {
        return Err(JobNotFound);
      }
      var job := found.value;
      if job.status == JobPickedUp && job.courierId == Some(courierId) {
        assert jobs.jobs[job.jobId := job] == jobs.jobs;
        return Ok(job);
      }
      if job.status != Accepted {
        return Err(StateConflict);
      }
      if job.courierId != Some(courierId) {
        return Err(CourierMismatch);
      }
      var updated := job.(status := JobPickedUp, pickedUpAt := Some(now));
      jobs.Save(updated);
      return Ok(updated);
    }

    method DropoffJob(jobId: string, courierId: string, now: int) returns (r: Result<Job, JobError>)
      requires WellKeyed()
      modifies jobs
      ensures (jobs.jobs, r) == CallJob(orders.orders, old(jobs.jobs), jobId, Dropoff, courierId, now)
      ensures WellKeyed()
    {
      SyncDispatchPendingOrders();
      var found := jobs.FindById(jobId);
      if found.None? {
        return Err(JobNotFound);
      }
      var job := found.value;
      if job.status == DroppedOff && job.courierId == Some(courierId) {
        assert jobs.jobs[job.jobId := job] == jobs.jobs;
        return Ok(job);
      }
      if job.status != JobPickedUp {
        return Err(StateConflict);
      }
      if job.courierId != Some(courierId) {
        return Err(CourierMismatch);
      }
      var updated := job.(status := DroppedOff, droppedOffAt := Some(now));
      jobs.Save(updated);
      return Ok(updated);
    }
  }
}
