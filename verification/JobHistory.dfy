/** Where a job's courier and times come from, and which job calls succeed. */
module JobHistory {
  import opened Collections
  import opened DomainEvents
  import opened OrderLifecycle
  import opened CourierJobs
  import opened DispatchRoutes

  /** The job is held by this courier. */
  predicate HeldBy(job: Job, courierId: string) {
    job.courierId == Some(courierId)
  }

  /** A call succeeds on a job one stage earlier, or repeats the last success of the same
      courier; past the first stage only the holder succeeds. Another courier one stage
      earlier is told of the mismatch, every other call of the conflict. */
  lemma JobCallsSucceedInTurn(orders: map<string, Order>, jobs: Jobs, id: string, c: JobCommand, courierId: string,
                              now: int)
    ensures var r := CallJob(orders, jobs, id, c, courierId, now).1;
            var known := id in jobs || (id in orders && orders[id].status == DispatchPending);
            var job := if id in jobs then jobs[id] else AvailableJob(id);
            var stage, next := JobRank(job.status), CommandRank(c);
            && (r.Ok? <==> known && if c == Accept then stage == 0 || (stage == 1 && HeldBy(job, courierId))
                                    else HeldBy(job, courierId) && stage in {next - 1, next})
            && (r == Err(JobNotFound) <==> !known)
            && (r == Err(CourierMismatch) <==> known && c != Accept && stage == next - 1 && !HeldBy(job, courierId))
            && (r == Err(StateConflict) <==>
                  known && stage != next - 1 && !(stage == next && HeldBy(job, courierId)))
            && (r.Ok? ==> JobRank(r.value.status) == next && HeldBy(r.value, courierId))
  {
  }

  /** A successful call stores the job it answers; any other leaves the jobs as synchronising
      leaves them; and no call touches another job. */
  lemma JobCallsStoreTheAnswer(s: System, id: string, c: JobCommand, courierId: string, now: int, other: string)
    requires Safe(s)
    ensures var (jobs, r) := CallJob(s.ledger.orders, s.jobs, id, c, courierId, now);
            && (r.Ok? ==> id in jobs && jobs[id] == r.value)
            && (other != id || r.Err? ==>
                  && (other in jobs <==>
                        || other in s.jobs
                        || (other in s.ledger.orders && s.ledger.orders[other].status == DispatchPending))
                  && (other in s.jobs ==> jobs[other] == s.jobs[other])
                  && (other in jobs && other !in s.jobs ==> jobs[other] == AvailableJob(other)))
  {
    var synced := Synced(s.ledger.orders, s.jobs);
    SyncIsSafe(s);
    assert JobInvariant(s.(jobs := synced), id);
  }

  /** The dispatch client is asked exactly while the order waits for dispatch; whoever else
      waits for an answer goes on waiting. */
  lemma ClientIsAskedWhilePending(s: System, id: string, now: int)
    requires Safe(s)
    ensures var t := Next(s, DispatchWithClient(id, now));
            && t.jobs == s.jobs
            && t.pending == s.pending + if id in t.ledger.orders && t.ledger.orders[id].status == DispatchPending
                                        then multiset{ClientAnswer(id)} else multiset{}
  {
    assert OrderInvariant(s, id);
    assert s.pending + multiset{} == s.pending;
  }

  // ----- stamps -----

  /** Some call of the run was this command on this job, by this courier, at this time. */
  ghost predicate CalledIn(labels: seq<Label>, c: JobCommand, id: string, courierId: Option<string>, at: int) {
    exists i :: 0 <= i < |labels| && IsCall(labels[i], c, id, courierId, at)
  }

  predicate IsCall(l: Label, c: JobCommand, id: string, courierId: Option<string>, at: int) {
    l.JobCall? && l.command == c && l.id == id && courierId == Some(l.courierId) && l.at == at
  }

  /** A job has exactly the stamps of the stages it has passed, each from a call of its courier. */
  ghost predicate Stamped(labels: seq<Label>, id: string, job: Job) {
    && (job.acceptedAt.Some? <==> JobRank(job.status) >= 1)
    && (job.pickedUpAt.Some? <==> JobRank(job.status) >= 2)
    && (job.droppedOffAt.Some? <==> JobRank(job.status) >= 3)
    && (job.acceptedAt.Some? ==> CalledIn(labels, Accept, id, job.courierId, job.acceptedAt.value))
    && (job.pickedUpAt.Some? ==> CalledIn(labels, Pickup, id, job.courierId, job.pickedUpAt.value))
    && (job.droppedOffAt.Some? ==> CalledIn(labels, Dropoff, id, job.courierId, job.droppedOffAt.value))
  }

  lemma {:induction false} CalledInLonger(labels: seq<Label>, l: Label, c: JobCommand, id: string,
                                          courierId: Option<string>, at: int)
    requires CalledIn(labels, c, id, courierId, at) || IsCall(l, c, id, courierId, at)
    ensures CalledIn(labels + [l], c, id, courierId, at)
  {
    if IsCall(l, c, id, courierId, at) {
      assert IsCall((labels + [l])[|labels|], c, id, courierId, at);
    } else {
      var i :| 0 <= i < |labels| && IsCall(labels[i], c, id, courierId, at);
      assert (labels + [l])[i] == labels[i];
    }
  }

  lemma {:induction false} StampedLonger(labels: seq<Label>, l: Label, id: string, job: Job)
    requires Stamped(labels, id, job)
    ensures Stamped(labels + [l], id, job)
  {
    if job.acceptedAt.Some? { CalledInLonger(labels, l, Accept, id, job.courierId, job.acceptedAt.value); }
    if job.pickedUpAt.Some? { CalledInLonger(labels, l, Pickup, id, job.courierId, job.pickedUpAt.value); }
    if job.droppedOffAt.Some? { CalledInLonger(labels, l, Dropoff, id, job.courierId, job.droppedOffAt.value); }
  }

  /** A successful call stamps its own stage and leaves the earlier stamps. */
  lemma DecisionStamps(labels: seq<Label>, l: Label, job: Job)
    requires l.JobCall? && Stamped(labels, l.id, job) && DecideJob(job, l.command, l.courierId, l.at).Ok?
    requires job.courierId == None <==> job.status == Available
    ensures Stamped(labels + [l], l.id, DecideJob(job, l.command, l.courierId, l.at).value)
  {
    var done := DecideJob(job, l.command, l.courierId, l.at).value;
    if done == job {
      StampedLonger(labels, l, l.id, job);
    } else {
      assert IsCall(l, l.command, l.id, done.courierId, l.at);
      CalledInLonger(labels, l, l.command, l.id, done.courierId, l.at);
      if job.acceptedAt.Some? { CalledInLonger(labels, l, Accept, l.id, job.courierId, job.acceptedAt.value); }
      if job.pickedUpAt.Some? { CalledInLonger(labels, l, Pickup, l.id, job.courierId, job.pickedUpAt.value); }
    }
  }

  lemma NewJobsAreUnstamped(labels: seq<Label>, s: System, id: string)
    requires id in s.jobs ==> Stamped(labels, id, s.jobs[id])
    requires id in Synced(s.ledger.orders, s.jobs)
    ensures Stamped(labels, id, Synced(s.ledger.orders, s.jobs)[id])
  {
  }

  lemma JobCallStamps(labels: seq<Label>, s: System, l: Label, id: string)
    requires Safe(s) && l.JobCall? && (id in s.jobs ==> Stamped(labels, id, s.jobs[id]))
    ensures id in Next(s, l).jobs ==> Stamped(labels + [l], id, Next(s, l).jobs[id])
  {
    var synced := Synced(s.ledger.orders, s.jobs);
    SyncIsSafe(s);
    if id in synced {
      NewJobsAreUnstamped(labels, s, id);
      StampedLonger(labels, l, id, synced[id]);
      assert JobInvariant(s.(jobs := synced), id) && JobInvariant(s.(jobs := synced), l.id);
      if l.id == id && DecideJob(synced[id], l.command, l.courierId, l.at).Ok? {
        DecisionStamps(labels, l, synced[id]);
      }
    } else if l.id in synced {
      assert JobInvariant(s.(jobs := synced), l.id);
    }
  }

  ghost predicate StampedIn(labels: seq<Label>, s: System, id: string) {
    id in s.jobs ==> Stamped(labels, id, s.jobs[id])
  }

  lemma StepStamps(labels: seq<Label>, s: System, l: Label, id: string)
    requires Safe(s) && StampedIn(labels, s, id)
    ensures StampedIn(labels + [l], Next(s, l), id)
  {
    if l.JobCall? {
      JobCallStamps(labels, s, l, id);
    } else if id in Next(s, l).jobs {
      if l.ListJobs? { NewJobsAreUnstamped(labels, s, id); }
      StampedLonger(labels, l, id, Next(s, l).jobs[id]);
    }
  }

  lemma {:induction false} RunIsStamped(labels: seq<Label>, id: string)
    requires labels != [] && StampedIn(labels[..|labels| - 1], Run(START, labels[..|labels| - 1]), id)
    ensures StampedIn(labels, Run(START, labels), id)
  {
    var init, l := labels[..|labels| - 1], labels[|labels| - 1];
    var s := Run(START, init);
    assert init + [l] == labels && Run(START, labels) == Next(s, l);
    StartIsSafe();
    RunIsSafe(START, init);
    StepStamps(init, s, l, id);
  }

  /** In every interleaving a job has exactly the stamps of the stages it has passed, and each
      is the time of a call of that very stage by the courier who holds the job. */
  lemma {:induction false} StampsComeFromCalls(labels: seq<Label>, id: string)
    ensures StampedIn(labels, Run(START, labels), id)
  {
    if labels != [] {
      StampsComeFromCalls(labels[..|labels| - 1], id);
      RunIsStamped(labels, id);
    }
  }
}
