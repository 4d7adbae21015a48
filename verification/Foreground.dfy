/** A foreground tool call that may move to the background while it runs:
    promotion and settlement exclude each other, and a rich result is committed
    by one owner only. */
module Foreground {
  import opened SessionEvents

  /** A tool's result: with a payload that still has to be committed, already
      plain, or a failure. */
  datatype Payload = Rich | Plain | Failure

  datatype Consumer = Waiting | Took(payload: Payload) | InBackground | Gone

  /** The consumer's lease ends its wait first, and cancels unpromoted work next. */
  datatype Lease = Held | Ended | Dropped

  /** One tool call: its durable job, the worker that runs it, the channel to the
      foreground, and the foreground consumer with its lease. */
  class ForegroundJob {
    var registered: bool
    var promoted: bool
    var delivery: Delivery
    var settled: bool
    var cancelRequested: bool
    var running: bool
    var channel: Option<Payload>
    var consumer: Consumer
    var lease: Lease
    /** How many callers have fetched the control of a registered wait. */
    var fetched: nat
    var commits: nat
    var writes: nat
    const store: nat -> bool
    /** Whether promotion came before the worker settled. */
    ghost var promotedFirst: bool

    ghost predicate Valid()
      reads this
    {
      && commits <= 1
      && (running ==> channel == None && commits == 0 && !settled && !consumer.Took?)
      && (!running && settled && !promotedFirst ==> !promoted)
      && (promotedFirst ==> promoted && !running)
      && (channel == Some(Rich) ==> !promotedFirst && settled && commits == 0 && consumer.Waiting?)
      && (consumer == Took(Rich) ==> !promotedFirst && settled && commits == 1)
      && (commits == 1 ==> promotedFirst || consumer == Took(Rich))
      && (promoted ==> delivery.FollowUp?)
      && (consumer.InBackground? ==> promoted)
      && (registered ==> lease.Held?) && (consumer.Waiting? ==> lease.Held?)
      && (lease.Dropped? ==> cancelRequested || promoted || settled)
    }

    constructor (store: nat -> bool)
      ensures Valid() && running && !promoted && !registered && commits == 0 && consumer.Waiting? && this.store == store
      ensures lease.Held? && fetched == 0
    {
      this.store := store;
      registered, promoted, delivery, settled, cancelRequested, running := false, false, Inject, false, false, true;
      channel, consumer, lease, fetched, commits, writes, promotedFirst := None, Waiting, Held, 0, 0, 0, false;
    }

    /** The wait is registered only after the worker was spawned. */
    method Register()
      requires Valid() && consumer.Waiting?
      modifies this`registered
      ensures Valid() && registered
    {
      registered := true;
    }

    /** Change the delivery of a job that has not settled. */
    method SetDelivery(to: Delivery) returns (ok: bool)
      modifies this`delivery, this`writes
      ensures ok == (!settled && store(old(writes))) && delivery == if ok then to else old(delivery)
      ensures writes == old(writes) + if settled then 0 else 1
    {
      if settled {
        return false;
      }
      ok := store(writes);
      writes := writes + 1;
      if ok {
        delivery := to;
      }
    }

    /** The first half of a promotion: find the control of a registered wait. */
    method Fetch() returns (found: bool)
      requires Valid()
      modifies this`fetched
      ensures Valid() && found == registered && fetched == old(fetched) + (if found then 1 else 0)
    {
      found := registered;
      if found {
        fetched := fetched + 1;
      }
    }

    /** The second half, under the lock that settlement takes. The wait may have
        ended since its control was fetched. */
    method Promote() returns (ok: bool)
      requires Valid() && fetched > 0
      modifies this`promoted, this`delivery, this`writes, this`fetched
      ensures Valid() && promoted == (old(promoted) || ok) && fetched == old(fetched) - 1
      ensures ok <==> old(promoted) || (!settled && store(old(writes)))
      ensures !running && !promotedFirst && settled ==> !ok
    {
      fetched := fetched - 1;
      if promoted {
        return true;
      }
      ok := SetDelivery(FollowUp);
      if ok {
        promoted := true;
      }
    }

    /** The worker's end, under the lock that promotion takes: a promoted result is
        converted here, any other goes to the foreground as it is, and a result
        whose settlement failed is replaced by that failure. */
    method Settle(result: Payload, converts: bool, settles: bool)
      requires Valid() && running
      modifies this`running, this`settled, this`channel, this`commits, this`promotedFirst
      ensures Valid() && !running && settled == settles && promotedFirst == promoted
      ensures commits == if promoted && result.Rich? && converts then 1 else 0
      ensures consumer.Waiting? && settles && !promoted ==> channel == Some(result)
      ensures consumer.Waiting? && settles && promoted ==>
                channel == Some(if result.Failure? || !converts then Failure else Plain)
      ensures consumer.Waiting? && !settles ==> channel == Some(Failure)
      ensures !consumer.Waiting? ==> channel == None
    {
      var outcome := result;
      promotedFirst := promoted;
      if promoted && !outcome.Failure? {
        if outcome.Rich? && converts {
          commits := commits + 1;
        }
        outcome := if converts then Plain else Failure;
      }
      if settles {
        settled := true;
      } else {
        outcome := Failure;
      }
      running := false;
      if consumer.Waiting? {
        channel := Some(outcome);
      }
    }

    /** A consumer that has left ends its wait: no promotion is fetched any more. */
    method EndWait()
      requires Valid() && !consumer.Waiting? && lease.Held?
      modifies this`registered, this`lease
      ensures Valid() && !registered && lease.Ended?
    {
      registered, lease := false, Ended;
    }

    /** And then cancels work that was not promoted. A promotion fetched before the
        wait ended may still have come first. */
    method DropLease()
      requires Valid() && lease.Ended?
      modifies this`lease, this`cancelRequested
      ensures Valid() && lease.Dropped? && cancelRequested == (old(cancelRequested) || (!promoted && !settled))
    {
      lease := Dropped;
      if !promoted && !settled {
        cancelRequested := true;
      }
    }

    /** The foreground receives the result, and commits a payload that is still rich. */
    method Take() returns (payload: Option<Payload>)
      requires Valid() && consumer.Waiting?
      modifies this`consumer, this`channel, this`commits
      ensures Valid() && payload == old(channel)
      ensures payload.Some? ==> consumer == Took(payload.value)
      ensures commits == old(commits) + (if payload == Some(Rich) then 1 else 0)
      ensures payload.None? ==> consumer.Waiting?
    {
      payload := channel;
      if payload.None? {
        return;
      }
      consumer, channel := Took(payload.value), None;
      if payload.value.Rich? {
        commits := commits + 1;
      }
    }

    /** The foreground timer: leave the call to the background if it can be promoted,
        and otherwise keep waiting for its result. */
    method AutomaticPromotion()
      requires Valid() && consumer.Waiting? && fetched > 0
      modifies this`promoted, this`delivery, this`writes, this`consumer, this`channel, this`fetched
      ensures Valid() && (consumer.InBackground? || consumer.Waiting?)
      ensures consumer.InBackground? ==> promoted
      ensures consumer.InBackground? <==> old(promoted) || (!settled && store(old(writes)))
      ensures consumer.Waiting? ==> channel == old(channel)
    {
      var ok := Promote();
      if ok {
        consumer, channel := InBackground, None;
      }
    }

    /** The foreground sees that someone promoted its call, and leaves it. */
    method NoticePromotion()
      requires Valid() && consumer.Waiting? && promoted
      modifies this`consumer, this`channel
      ensures Valid() && consumer.InBackground?
    {
      consumer, channel := InBackground, None;
    }

    /** The turn is cancelled: its foreground work is cancelled even if promoted. The
        lease is dropped later, after a wait for the settlement. */
    method CancelForeground()
      requires Valid() && consumer.Waiting?
      modifies this`consumer, this`channel, this`cancelRequested
      ensures Valid() && consumer.Gone? && (cancelRequested || settled)
    {
      if !settled {
        cancelRequested := true;
      }
      consumer, channel := Gone, None;
    }

    /** The foreground call is dropped: its work goes on only if it was promoted by
        the time its lease is dropped. */
    method Abandon()
      requires Valid() && consumer.Waiting?
      modifies this`consumer, this`channel
      ensures Valid() && consumer.Gone?
    {
      consumer, channel := Gone, None;
    }
  }

  datatype Step =
    | Registering
    | Fetching
    | Promoting
    | Settling(result: Payload, converts: bool, settles: bool)
    | Taking
    | Timer
    | Noticing
    | Canceling
    | Abandoning
    | EndingWait
    | DroppingLease

  method Perform(job: ForegroundJob, step: Step)
    requires job.Valid()
    modifies job
    ensures job.Valid()
    ensures old(!job.running && job.settled && !job.promotedFirst) ==>
              !job.promoted && !job.running && job.settled && !job.promotedFirst
    ensures old(job.promotedFirst) ==> job.promotedFirst
  {
    match step
    case Registering => if job.consumer.Waiting? { job.Register(); }
    case Fetching => var _ := job.Fetch();
    case Promoting => if job.fetched > 0 { var _ := job.Promote(); }
    case Settling(result, converts, settles) => if job.running { job.Settle(result, converts, settles); }
    case Taking => if job.consumer.Waiting? { var _ := job.Take(); }
    case Timer => if job.consumer.Waiting? && job.fetched > 0 { job.AutomaticPromotion(); }
    case Noticing => if job.consumer.Waiting? && job.promoted { job.NoticePromotion(); }
    case Canceling => if job.consumer.Waiting? { job.CancelForeground(); }
    case Abandoning => if job.consumer.Waiting? { job.Abandon(); }
    case EndingWait => if !job.consumer.Waiting? && job.lease.Held? { job.EndWait(); }
    case DroppingLease => if job.lease.Ended? { job.DropLease(); }
  }

  /** In every interleaving the payload is committed at most once: by the worker if
      promotion came first, and by the foreground that took it otherwise. Whoever
      has dropped its lease leaves no work running that nobody asked to go on. */
  method Run(store: nat -> bool, steps: seq<Step>) returns (job: ForegroundJob)
    ensures job.Valid() && job.commits <= 1
    ensures job.commits == 1 ==> job.promotedFirst || job.consumer == Took(Rich)
    ensures !job.running && job.settled ==> (job.promoted <==> job.promotedFirst)
    ensures job.promotedFirst ==> job.consumer != Took(Rich)
    ensures job.lease.Dropped? ==> job.cancelRequested || job.promoted || job.settled
  {
    job := new ForegroundJob(store);
    for i := 0 to |steps|
      invariant job.Valid()
    {
      Perform(job, steps[i]);
    }
  }
}
