/** One owned native channel: submitters under a lock, one worker, a queue of one, and a poison path that may strike
    at any point. The steps are those the lock and the worker's blocking calls separate. */
module NativeChannelModel {
  import opened Wrappers

  type Id = string

  datatype Kind = AgentJob | HumanJob | TrustedJob | CloseJob | FenceJob

  /** A gesture is one or more frames; a fence also carries the command it was ordered after. */
  datatype Job = Job(id: Id, kind: Kind, frames: nat, preceding: Option<Id>)

  datatype Ack =
    | AgentAck(id: Id, completed: bool, success: bool)
    | HumanAck(id: Id, completed: bool, applied: bool)
    | FenceAck(id: Id, preceding: Option<Id>, quiescent: bool)

  datatype Resolution = Resolved(ack: Ack) | Raised(completed: bool)

  /** An answer is `intact` unless it shows that the browser incarnation or the generation changed. */
  datatype Frame = Sent(id: Id, index: nat) | Answered(id: Id, index: nat, success: bool, intact: bool)

  /** `start` is the length of the wire when the job began. */
  datatype Worker =
    | Waiting
    | Taken(job: Job)
    | Executing(job: Job, index: nat, awaiting: bool, start: nat)
    | Finished(job: Job, ack: Ack, start: nat)
    | Closing
    | Stopped

  /** `jobs` remembers everything ever submitted (its keys are the seen identifiers); `futures` every resolution. */
  datatype Channel = Channel(closed: bool, queue: seq<Option<Job>>, pending: map<Id, Job>, jobs: map<Id, Job>,
                             last: Option<Id>, worker: Worker, futures: map<Id, seq<Resolution>>, wire: seq<Frame>)

  datatype Refusal = ChannelClosed | AlreadySubmitted | ChannelBusy | AckPending | FenceOrderUnavailable

  const NEW_CHANNEL := Channel(false, [], map[], map[], None, Waiting, map[], [])

  function SubmitError(c: Channel, id: Id): Option<Refusal> {
    if c.closed then Some(ChannelClosed)
    else if id in c.jobs then Some(AlreadySubmitted)
    else if |c.queue| >= 1 then Some(ChannelBusy)
    else None
  }

  function Submit(c: Channel, job: Job): Channel {
    if SubmitError(c, job.id).Some? then c
    else c.(queue := [Some(job)], pending := c.pending[job.id := job], jobs := c.jobs[job.id := job],
            futures := c.futures[job.id := []])
  }

  /** The predecessor's future is resolved with a positively completed acknowledgement. */
  predicate CompletedAck(c: Channel, id: Id) {
    && id in c.futures && c.futures[id] != [] && c.futures[id][0].Resolved?
    && match c.futures[id][0].ack
       case AgentAck(_, completed, _) => completed
       case HumanAck(_, completed, _) => completed
       case FenceAck(_, _, quiescent) => quiescent
  }

  function FenceError(c: Channel, preceding: Option<Id>): Option<Refusal> {
    if c.pending != map[] then Some(AckPending)
    else if preceding.Some? then
      if preceding != c.last || !CompletedAck(c, preceding.value) then Some(FenceOrderUnavailable) else None
    else if c.last.Some? then Some(FenceOrderUnavailable) else None
  }

  function FenceAfter(c: Channel, id: Id, preceding: Option<Id>): Channel {
    if FenceError(c, preceding).Some? then c else Submit(c, Job(id, FenceJob, 1, preceding))
  }

  function ProbeStatus(c: Channel, id: Id): Channel {
    if c.pending != map[] then c else Submit(c, Job(id, FenceJob, 1, c.last))
  }

  /** Every pending command is resolved: a human gesture as uncertain, anything else with an error. */
  function PoisonedResolution(job: Job, current: Option<Id>, completed: bool): Resolution {
    var done := completed && current == Some(job.id);
    if job.kind == HumanJob then Resolved(HumanAck(job.id, done, false)) else Raised(done)
  }

  function PoisonFutures(futures: map<Id, seq<Resolution>>, pending: map<Id, Job>, current: Option<Id>, completed: bool): map<Id, seq<Resolution>> {
    map i | i in futures ::
      if i in pending && futures[i] == [] then [PoisonedResolution(pending[i], current, completed)] else futures[i]
  }

  function Poison(c: Channel, current: Option<Id>, completed: bool): Channel {
    c.(closed := true, pending := map[], futures := PoisonFutures(c.futures, c.pending, current, completed))
  }

  /** The worker's last act, however it ends, is to empty the queue. */
  function Stop(c: Channel): Channel {
    c.(worker := Stopped, queue := [])
  }

  function Close(c: Channel): Channel {
    var p := Poison(c, None, false);
    if |p.queue| >= 1 then p else p.(queue := [None])
  }

  function Take(c: Channel): Channel {
    if c.worker != Waiting || c.queue == [] then c
    else if c.queue[0].None? then Stop(c)
    else c.(queue := c.queue[1..], worker := Taken(c.queue[0].value))
  }

  function Begin(c: Channel): Channel {
    if !c.worker.Taken? then c
    else if c.closed then Stop(c)
    else c.(worker := Executing(c.worker.job, 0, false, |c.wire|))
  }

  /** Generation check and send of the next frame; either can fail, and a closed socket always does. */
  function Send(c: Channel, ok: bool): Channel {
    if !c.worker.Executing? || c.worker.awaiting then c
    else if !ok || c.closed then Stop(Poison(c, Some(c.worker.job.id), false))
    else c.(wire := c.wire + [Sent(c.worker.job.id, c.worker.index)], worker := c.worker.(awaiting := true))
  }

  function Outcome(job: Job, success: bool, connected: bool): Ack {
    if job.kind == HumanJob then HumanAck(job.id, true, success)
    else if job.kind == FenceJob then FenceAck(job.id, job.preceding, success && connected)
    else AgentAck(job.id, true, success)
  }

  /** A matching acknowledgement. */
  function Receive(c: Channel, success: bool, connected: bool, intact: bool): Channel {
    if !c.worker.Executing? || !c.worker.awaiting || c.closed then c
    else
      var w := c.worker;
      var heard := c.(wire := c.wire + [Answered(w.job.id, w.index, success, intact)]);
      if !intact then Stop(Poison(heard, Some(w.job.id), true))
      else if !success || w.index + 1 >= w.job.frames then
        heard.(worker := Finished(w.job, Outcome(w.job, success, connected), w.start))
      else heard.(worker := Executing(w.job, w.index + 1, false, w.start))
  }

  /** Connection lost, an invalid response, or one that is too large. */
  function Lose(c: Channel): Channel {
    if !c.worker.Executing? || !c.worker.awaiting then c else Stop(Poison(c, Some(c.worker.job.id), false))
  }

  function Complete(c: Channel): Channel {
    if !c.worker.Finished? then c
    else
      var id := c.worker.job.id;
      c.(futures := if id in c.futures && c.futures[id] == [] then c.futures[id := [Resolved(c.worker.ack)]] else c.futures,
         pending := c.pending - {id}, last := Some(id),
         worker := if c.worker.job.kind == CloseJob then Closing else Waiting)
  }

  function CloseAfterJob(c: Channel): Channel {
    if c.worker != Closing then c else Stop(Close(c))
  }

  datatype Action =
    | DoSubmit(job: Job)
    | DoFence(id: Id, preceding: Option<Id>)
    | DoProbe(id: Id)
    | DoClose
    | DoTake
    | DoBegin
    | DoSend(ok: bool)
    | DoReceive(success: bool, connected: bool, intact: bool)
    | DoLose
    | DoComplete
    | DoCloseAfterJob

  /** Ordinary submissions are never fences and have at least one frame. */
  function Step(c: Channel, a: Action): Channel {
    match a
    case DoSubmit(job) => if job.kind == FenceJob || job.frames == 0 then c else Submit(c, job)
    case DoFence(id, preceding) => FenceAfter(c, id, preceding)
    case DoProbe(id) => ProbeStatus(c, id)
    case DoClose => Close(c)
    case DoTake => Take(c)
    case DoBegin => Begin(c)
    case DoSend(ok) => Send(c, ok)
    case DoReceive(success, connected, intact) => Receive(c, success, connected, intact)
    case DoLose => Lose(c)
    case DoComplete => Complete(c)
    case DoCloseAfterJob => CloseAfterJob(c)
  }

  function Steps(c: Channel, actions: seq<Action>): Channel
    decreases |actions|
  {
    if actions == [] then c else Steps(Step(c, actions[0]), actions[1..])
  }
}
