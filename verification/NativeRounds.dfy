/** What one submission, one command and one breakdown of the native channel do, from request to resolution. */
module NativeRounds {
  import opened Wrappers
  import opened NativeChannelModel
  import opened NativeChannelProofs

  /** A new job was queued, and is pending and unresolved. */
  predicate Queues(c: Channel, job: Job, d: Channel) {
    d == c.(queue := [Some(job)], pending := c.pending[job.id := job], jobs := c.jobs[job.id := job], futures := c.futures[job.id := []])
  }

  /** The channel takes a new command exactly while it is open and its queue is empty, and every identifier once; a
      refused one changes nothing. */
  lemma CommandsAreTakenOnce(c: Channel, job: Job)
    ensures var d := Step(c, DoSubmit(job));
            if job.kind != FenceJob && job.frames > 0 && !c.closed && job.id !in c.jobs && c.queue == [] then Queues(c, job, d) else d == c
  {
  }

  /** A fence is ordered exactly while nothing is pending, behind the command completed last: none if none was, and
      otherwise one that was answered to its end, a fence itself only if it found the browser quiescent. A probe is a
      fence behind whatever was last. */
  lemma FencesFollowTheLast(c: Channel, id: Id, preceding: Option<Id>)
    requires Sound(c)
    ensures var free := !c.closed && id !in c.jobs && c.queue == [] && c.pending == map[];
            var answered := match preceding
                            case None => true
                            case Some(p) =>
                              p in c.futures && exists ack :: (&& c.futures[p] == [Resolved(ack)] && (ack.AgentAck? ==> ack.completed)
                                                               && (ack.HumanAck? ==> ack.completed) && (ack.FenceAck? ==> ack.quiescent));
            && (if free && preceding == c.last && answered then Queues(c, Job(id, FenceJob, 1, preceding), Step(c, DoFence(id, preceding)))
                else Step(c, DoFence(id, preceding)) == c)
            && (if free then Queues(c, Job(id, FenceJob, 1, c.last), Step(c, DoProbe(id))) else Step(c, DoProbe(id)) == c)
  {
    if preceding.Some? && preceding.value in c.futures && c.futures[preceding.value] != [] {
      assert c.futures[preceding.value] == [c.futures[preceding.value][0]];
    }
  }

  /** The worker takes what is queued, and begins it unless the channel was closed meanwhile; a stop signal ends it. */
  lemma TheWorkerTakesTheQueue(c: Channel, job: Job)
    ensures c.worker == Waiting && c.queue == [Some(job)] ==> Step(c, DoTake) == c.(queue := [], worker := Taken(job))
    ensures c.worker == Waiting && c.queue == [None] ==> Step(c, DoTake) == c.(queue := [], worker := Stopped)
    ensures c.worker != Waiting || c.queue == [] ==> Step(c, DoTake) == c
    ensures c.worker == Taken(job) ==>
              Step(c, DoBegin) == if c.closed then c.(queue := [], worker := Stopped) else c.(worker := Executing(job, 0, false, |c.wire|))
  {
  }

  /** Frame after frame: a frame that was sent and answered with success is followed by the next one, and nothing is
      resolved yet. */
  lemma GesturesGoOn(c: Channel, job: Job, index: nat, start: nat, connected: bool)
    requires !c.closed && c.worker == Executing(job, index, false, start) && index + 1 < job.frames
    ensures Step(Step(c, DoSend(true)), DoReceive(true, connected, true))
            == c.(wire := c.wire + [Sent(job.id, index)] + [Answered(job.id, index, true, true)],
                  worker := Executing(job, index + 1, false, start))
  {
  }

  /** The last frame, or the first that fails, decides: its answer resolves the future in the job's own kind, a fence as
      quiescent only if the browser was also still connected; the job is the last completed one, no longer pending, and
      the worker is free again. */
  lemma LastAnswersResolve(c: Channel, job: Job, index: nat, start: nat, success: bool, connected: bool)
    requires Kept(c) && !c.closed && c.worker == Executing(job, index, false, start) && (index + 1 == job.frames || !success)
    ensures var d := Step(Step(Step(c, DoSend(true)), DoReceive(success, connected, true)), DoComplete);
            var ack := match job.kind
                       case HumanJob => HumanAck(job.id, true, success)
                       case FenceJob => FenceAck(job.id, job.preceding, success && connected)
                       case _ => AgentAck(job.id, true, success);
            d == c.(wire := c.wire + [Sent(job.id, index)] + [Answered(job.id, index, success, true)],
                    futures := c.futures[job.id := [Resolved(ack)]], pending := c.pending - {job.id}, last := Some(job.id),
                    worker := if job.kind == CloseJob then Closing else Waiting)
  {
    assert job.id in c.pending.Keys;
  }

  /** What a breakdown leaves: the channel is closed, every command that was pending is resolved, a gesture as uncertain
      and anything else with an error, each as completed only if its own answer had come; what was resolved before stays. */
  predicate Breaks(c: Channel, d: Channel, answered: Option<Id>)
    requires c.futures.Keys <= c.jobs.Keys
  {
    && d.closed && d.pending == map[] && d.jobs == c.jobs && d.last == c.last && d.futures.Keys == c.futures.Keys
    && forall i <- c.futures ::
         d.futures[i] == if c.futures[i] != [] then c.futures[i]
                         else if c.jobs[i].kind == HumanJob then [Resolved(HumanAck(i, answered == Some(i), false))]
                         else [Raised(answered == Some(i))]
  }

  lemma PoisonBreaks(c: Channel, current: Option<Id>, completed: bool)
    requires FuturesLaw(c)
    ensures Breaks(c, Poison(c, current, completed), if completed then current else None)
    ensures Poison(c, current, completed).queue == c.queue && Poison(c, current, completed).worker == c.worker
    ensures Poison(c, current, completed).wire == c.wire
  {
    forall i <- c.futures | c.futures[i] == [] ensures i in c.pending && c.pending[i] == c.jobs[i] && c.jobs[i].id == i { }
  }

  /** Closing breaks the channel and leaves the worker a stop signal, unless a command is still queued; a frame that
      cannot be sent and a lost connection break it and stop the worker. None of them has heard an answer. */
  lemma BreakdownsResolveEverything(c: Channel)
    requires FuturesLaw(c)
    ensures var d := Step(c, DoClose);
            Breaks(c, d, None) && d.wire == c.wire && d.worker == c.worker && d.queue == if c.queue == [] then [None] else c.queue
    ensures c.worker.Executing? && !c.worker.awaiting ==>
              var d := Step(c, DoSend(false)); Breaks(c, d, None) && d.wire == c.wire && d.worker == Stopped && d.queue == []
    ensures !c.worker.Executing? || !c.worker.awaiting ==> Step(c, DoLose) == c
    ensures c.worker.Executing? && c.worker.awaiting ==>
              var d := Step(c, DoLose); Breaks(c, d, None) && d.wire == c.wire && d.worker == Stopped && d.queue == []
    ensures c.worker == Closing ==>
              var d := Step(c, DoCloseAfterJob); Breaks(c, d, None) && d.wire == c.wire && d.worker == Stopped && d.queue == []
  {
    PoisonBreaks(c, None, false);
    if c.worker.Executing? { PoisonBreaks(c, Some(c.worker.job.id), false); }
  }

  /** An answer of another browser is heard, and breaks the channel: its own command alone is resolved as completed. On a
      closed channel nothing is heard, and nothing is sent. */
  lemma ReplacedBrowsersBreakTheChannel(c: Channel, success: bool, connected: bool, intact: bool)
    requires FuturesLaw(c) && c.worker.Executing?
    ensures c.worker.awaiting && !c.closed ==>
              var d := Step(c, DoReceive(success, connected, false));
              && Breaks(c, d, Some(c.worker.job.id)) && d.worker == Stopped && d.queue == []
              && d.wire == c.wire + [Answered(c.worker.job.id, c.worker.index, success, false)]
    ensures c.closed && c.worker.awaiting ==> Step(c, DoReceive(success, connected, intact)) == c
    ensures c.closed ==> Step(c, DoSend(true)).wire == c.wire
  {
    var heard := c.(wire := c.wire + [Answered(c.worker.job.id, c.worker.index, success, false)]);
    PoisonBreaks(heard, Some(c.worker.job.id), true);
  }
}
