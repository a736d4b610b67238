/** Ordering on the wire and resolution of futures, for every interleaving of submitters, worker, close and poison. */
module NativeChannelProofs {
  import opened Wrappers
  import opened NativeChannelModel

  function WorkerJob(w: Worker): Option<Job> {
    match w
    case Taken(job) => Some(job)
    case Executing(job, _, _, _) => Some(job)
    case Finished(job, _, _) => Some(job)
    case _ => None
  }

  function Queued(c: Channel): Option<Job> {
    if c.queue == [] then None else c.queue[0]
  }

  // ---------------------------------------------------------------- futures

  predicate FuturesLaw(c: Channel) {
    && c.futures.Keys == c.jobs.Keys && c.pending.Keys <= c.jobs.Keys && |c.queue| <= 1
    && (forall i | i in c.jobs :: c.jobs[i].id == i && 1 <= c.jobs[i].frames)
    && (forall i | i in c.pending :: c.pending[i] == c.jobs[i] && c.futures[i] == [])
    && (forall i | i in c.jobs && i !in c.pending :: |c.futures[i]| == 1)
    && (c.closed ==> c.pending == map[])
  }

  /** While the channel is open its pending commands are the queued one and the worker's. */
  predicate CustodyLaw(c: Channel) {
    && (Queued(c).Some? ==> var j := Queued(c).value; j.id in c.jobs && c.jobs[j.id] == j)
    && (WorkerJob(c.worker).Some? ==> var j := WorkerJob(c.worker).value; j.id in c.jobs && c.jobs[j.id] == j)
    && (Queued(c).Some? && WorkerJob(c.worker).Some? ==> Queued(c).value.id != WorkerJob(c.worker).value.id)
    && (!c.closed ==>
          && c.worker != Stopped && (c.queue != [] ==> c.queue[0].Some?)
          && c.pending.Keys == (if Queued(c).Some? then {Queued(c).value.id} else {})
                               + (if WorkerJob(c.worker).Some? then {WorkerJob(c.worker).value.id} else {}))
  }

  // ---------------------------------------------------------------- the wire

  predicate Ends(j: Job, f: Frame) {
    f.Answered? && f.id == j.id && (!f.success || f.index + 1 == j.frames)
  }

  /** A prefix of the wire ends with the final acknowledgement of the last completed command, or is empty. */
  predicate EndsWithLast(c: Channel, prefix: seq<Frame>) {
    match c.last
    case None => prefix == []
    case Some(p) => p in c.jobs && prefix != [] && Ends(c.jobs[p], prefix[|prefix| - 1])
  }

  /** What a job has put on the wire by the time it is at `index`. */
  function Progress(id: Id, index: nat, awaiting: bool): seq<Frame> {
    if index == 0 then (if awaiting then [Sent(id, 0)] else [])
    else Progress(id, index - 1, true) + [Answered(id, index - 1, true, true)] + (if awaiting then [Sent(id, index)] else [])
  }

  predicate WireLaw(c: Channel) {
    !c.closed ==>
      match c.worker
      case Executing(job, index, awaiting, start) =>
        && start <= |c.wire| && index < job.frames && EndsWithLast(c, c.wire[..start])
        && c.wire[start..] == Progress(job.id, index, awaiting)
      case Finished(job, ack, start) =>
        && start < |c.wire| && EndsWithLast(c, c.wire[..start]) && Ends(job, c.wire[|c.wire| - 1])
        && (job.kind == FenceJob ==> c.wire[start..] == [Sent(job.id, 0), c.wire[|c.wire| - 1]] && ack.FenceAck?
                                     && ack.preceding == job.preceding && (ack.quiescent ==> c.wire[|c.wire| - 1].success))
        && (ack.FenceAck? ==> job.kind == FenceJob)
      case _ => EndsWithLast(c, c.wire)
  }

  /** A fence not yet completed still stands right behind the last completed command. */
  predicate FenceLaw(c: Channel) {
    && (!c.closed && Queued(c).Some? && Queued(c).value.kind == FenceJob ==>
          Queued(c).value.preceding == c.last && WorkerJob(c.worker).None?)
    && (!c.closed && WorkerJob(c.worker).Some? && WorkerJob(c.worker).value.kind == FenceJob ==>
          WorkerJob(c.worker).value.preceding == c.last)
    && (forall i | i in c.jobs && c.jobs[i].kind == FenceJob :: c.jobs[i].frames == 1)
  }

  /** The fence frame and its answer are adjacent, and the fence directly follows the final acknowledgement of the
      command it names; a fence that names none is the very first frame on the wire. */
  predicate FenceHolds(c: Channel, f: Id, preceding: Option<Id>, quiescent: bool) {
    exists k: nat {:trigger c.wire[k]} :: k + 1 < |c.wire| && c.wire[k] == Sent(f, 0)
      && c.wire[k + 1].Answered? && c.wire[k + 1].id == f && (quiescent ==> c.wire[k + 1].success)
      && (preceding.None? ==> k == 0)
      && (preceding.Some? ==> 0 < k && preceding.value in c.jobs && Ends(c.jobs[preceding.value], c.wire[k - 1]))
  }

  predicate FenceAcksLaw(c: Channel) {
    forall i | i in c.futures && |c.futures[i]| == 1 && c.futures[i][0].Resolved? && c.futures[i][0].ack.FenceAck? ::
      FenceHolds(c, i, c.futures[i][0].ack.preceding, c.futures[i][0].ack.quiescent)
  }

  /** A later step of a gesture is sent only directly after the step before it was answered with success. */
  predicate GestureLaw(c: Channel) {
    forall m | 0 <= m < |c.wire| && c.wire[m].Sent? && 0 < c.wire[m].index ::
      0 < m && c.wire[m - 1] == Answered(c.wire[m].id, c.wire[m].index - 1, true, true)
  }

  predicate Kept(c: Channel) {
    FuturesLaw(c) && CustodyLaw(c)
  }

  predicate Ordered(c: Channel) {
    WireLaw(c) && FenceLaw(c) && GestureLaw(c)
  }

  predicate Sound(c: Channel) {
    Kept(c) && Ordered(c) && FenceAcksLaw(c)
  }

  lemma FenceHoldsStays(c: Channel, d: Channel, f: Id, preceding: Option<Id>, quiescent: bool)
    requires FenceHolds(c, f, preceding, quiescent) && c.wire <= d.wire
    requires forall i | i in c.jobs :: i in d.jobs && d.jobs[i] == c.jobs[i]
    ensures FenceHolds(d, f, preceding, quiescent)
  {
    var k: nat :| k + 1 < |c.wire| && c.wire[k] == Sent(f, 0)
      && c.wire[k + 1].Answered? && c.wire[k + 1].id == f && (quiescent ==> c.wire[k + 1].success)
      && (preceding.None? ==> k == 0)
      && (preceding.Some? ==> 0 < k && preceding.value in c.jobs && Ends(c.jobs[preceding.value], c.wire[k - 1]));
    assert d.wire[k] == c.wire[k] && d.wire[k + 1] == c.wire[k + 1];
    assert 0 < k ==> d.wire[k - 1] == c.wire[k - 1];
  }

  /** A step that resolves no fence keeps every fence already acknowledged. */
  lemma OldFencesStay(c: Channel, d: Channel)
    requires FenceAcksLaw(c) && c.wire <= d.wire
    requires forall i | i in c.jobs :: i in d.jobs && d.jobs[i] == c.jobs[i]
    requires forall i | i in d.futures && |d.futures[i]| == 1 && d.futures[i][0].Resolved? && d.futures[i][0].ack.FenceAck? ::
               i in c.futures && c.futures[i] == d.futures[i]
    ensures FenceAcksLaw(d)
  {
    forall i | i in d.futures && |d.futures[i]| == 1 && d.futures[i][0].Resolved? && d.futures[i][0].ack.FenceAck?
      ensures FenceHolds(d, i, d.futures[i][0].ack.preceding, d.futures[i][0].ack.quiescent)
    {
      FenceHoldsStays(c, d, i, d.futures[i][0].ack.preceding, d.futures[i][0].ack.quiescent);
    }
  }

  lemma SubmitKept(c: Channel, job: Job)
    requires Kept(c) && 1 <= job.frames
    ensures Kept(Submit(c, job))
  {
  }

  lemma SubmitOrdered(c: Channel, job: Job)
    requires Kept(c) && Ordered(c)
    requires job.kind == FenceJob ==> job.frames == 1 && job.preceding == c.last && c.pending == map[]
    ensures Ordered(Submit(c, job))
  {
    if SubmitError(c, job.id).None? {
      var d := Submit(c, job);
      assert forall prefix :: EndsWithLast(c, prefix) ==> EndsWithLast(d, prefix);
      assert c.pending == map[] ==> WorkerJob(c.worker).None? by {
        if WorkerJob(c.worker).Some? { assert WorkerJob(c.worker).value.id in c.pending.Keys; }
      }
    }
  }

  lemma SubmitKeepsSound(c: Channel, job: Job)
    requires Sound(c) && 1 <= job.frames
    requires job.kind == FenceJob ==> job.frames == 1 && job.preceding == c.last && c.pending == map[]
    ensures Sound(Submit(c, job))
  {
    SubmitKept(c, job);
    SubmitOrdered(c, job);
    if SubmitError(c, job.id).None? { OldFencesStay(c, Submit(c, job)); }
  }

  /** Closing is all that ordering needs to hear: nothing is claimed of a closed wire but what is already on it. */
  lemma ClosedOrdered(c: Channel, d: Channel)
    requires Ordered(c) && d.closed && d.wire == c.wire && d.jobs == c.jobs
    ensures Ordered(d)
  {
  }

  lemma PoisonKept(c: Channel, current: Option<Id>, completed: bool)
    requires Kept(c)
    ensures Kept(Poison(c, current, completed)) && Kept(Stop(Poison(c, current, completed)))
  {
    var p := Poison(c, current, completed);
    assert forall i | i in c.jobs :: |p.futures[i]| == 1;
  }

  lemma PoisonKeepsSound(c: Channel, current: Option<Id>, completed: bool)
    requires Sound(c)
    ensures Sound(Poison(c, current, completed)) && Sound(Stop(Poison(c, current, completed)))
  {
    var p := Poison(c, current, completed);
    PoisonKept(c, current, completed);
    ClosedOrdered(c, p);
    ClosedOrdered(c, Stop(p));
    OldFencesStay(c, p);
    OldFencesStay(c, Stop(p));
  }

  lemma CloseKeepsSound(c: Channel)
    requires Sound(c)
    ensures Sound(Close(c)) && Sound(Stop(Close(c)))
  {
    PoisonKeepsSound(c, None, false);
    var p := Poison(c, None, false);
    QueueChangeKeepsSound(p, Close(c));
    QueueChangeKeepsSound(p, Stop(Close(c)));
  }

  /** On a closed channel the queue may be emptied or hold the worker's stop signal. */
  lemma QueueChangeKeepsSound(c: Channel, d: Channel)
    requires Sound(c) && c.closed && d == c.(queue := d.queue, worker := d.worker)
    requires d.queue == c.queue || d.queue == [] || d.queue == [None]
    requires d.worker == c.worker || d.worker == Stopped
    ensures Sound(d)
  {
    ClosedOrdered(c, d);
    OldFencesStay(c, d);
  }

  lemma TakeKeepsSound(c: Channel)
    requires Sound(c)
    ensures Sound(Take(c))
  {
    if c.worker == Waiting && c.queue != [] {
      if c.queue[0].None? {
        QueueChangeKeepsSound(c, Take(c));
      } else {
        var d := Take(c);
        assert d.queue == [];
        OldFencesStay(c, d);
      }
    }
  }

  lemma BeginKeepsSound(c: Channel)
    requires Sound(c)
    ensures Sound(Begin(c))
  {
    if c.worker.Taken? {
      if c.closed {
        QueueChangeKeepsSound(c, Begin(c));
      } else {
        var d := Begin(c);
        assert c.wire[..|c.wire|] == c.wire && c.wire[|c.wire|..] == [];
        OldFencesStay(c, d);
      }
    }
  }

  lemma SendKeepsGestures(c: Channel)
    requires WireLaw(c) && GestureLaw(c) && c.worker.Executing? && !c.worker.awaiting && !c.closed
    ensures GestureLaw(Send(c, true))
  {
    var d, w := Send(c, true), c.worker;
    if 0 < w.index {
      var tail := Progress(w.job.id, w.index, false);
      assert tail[|tail| - 1] == Answered(w.job.id, w.index - 1, true, true);
      assert c.wire[|c.wire| - 1] == c.wire[w.start..][|tail| - 1];
    }
    assert forall m | 0 <= m < |c.wire| :: d.wire[m] == c.wire[m];
  }

  lemma SendOrdered(c: Channel)
    requires Ordered(c) && c.worker.Executing? && !c.worker.awaiting && !c.closed
    ensures Ordered(Send(c, true))
  {
    var d, w := Send(c, true), c.worker;
    SendKeepsGestures(c);
    assert d.wire[..w.start] == c.wire[..w.start];
    assert d.wire[w.start..] == c.wire[w.start..] + [Sent(w.job.id, w.index)];
  }

  lemma SendKeepsSound(c: Channel, ok: bool)
    requires Sound(c)
    ensures Sound(Send(c, ok))
  {
    if c.worker.Executing? && !c.worker.awaiting {
      if ok && !c.closed {
        SendOrdered(c);
        OldFencesStay(c, Send(c, ok));
      } else {
        PoisonKeepsSound(c, Some(c.worker.job.id), false);
      }
    }
  }

  lemma AnswerKeepsGestures(c: Channel, f: Frame)
    requires GestureLaw(c) && f.Answered?
    ensures GestureLaw(c.(wire := c.wire + [f]))
  {
    var d := c.(wire := c.wire + [f]);
    assert forall m | 0 <= m < |c.wire| :: d.wire[m] == c.wire[m];
  }

  lemma AnswerExtends(c: Channel, f: Frame)
    requires c.worker.Executing? && c.worker.start <= |c.wire|
    ensures var d := c.(wire := c.wire + [f]);
            && d.wire[..c.worker.start] == c.wire[..c.worker.start] && d.wire[|d.wire| - 1] == f
            && d.wire[c.worker.start..] == c.wire[c.worker.start..] + [f]
  {
  }

  lemma NextStepOrdered(c: Channel, connected: bool)
    requires Kept(c) && Ordered(c) && c.worker.Executing? && c.worker.awaiting && !c.closed
    requires c.worker.index + 1 < c.worker.job.frames
    ensures Ordered(Receive(c, true, connected, true))
  {
    var answer := Answered(c.worker.job.id, c.worker.index, true, true);
    AnswerKeepsGestures(c, answer);
    AnswerExtends(c, answer);
    assert Progress(c.worker.job.id, c.worker.index + 1, false) == Progress(c.worker.job.id, c.worker.index, true) + [answer];
  }

  lemma LastStepWire(c: Channel, success: bool, connected: bool)
    requires WireLaw(c) && FenceLaw(c) && CustodyLaw(c) && c.worker.Executing? && c.worker.awaiting && !c.closed
    requires !success || c.worker.index + 1 >= c.worker.job.frames
    ensures WireLaw(Receive(c, success, connected, true))
  {
    AnswerExtends(c, Answered(c.worker.job.id, c.worker.index, success, true));
    assert c.worker.job.kind == FenceJob ==> c.worker.index == 0 && Progress(c.worker.job.id, 0, true) == [Sent(c.worker.job.id, 0)];
  }

  lemma LastStepOrdered(c: Channel, success: bool, connected: bool)
    requires Kept(c) && Ordered(c) && c.worker.Executing? && c.worker.awaiting && !c.closed
    requires !success || c.worker.index + 1 >= c.worker.job.frames
    ensures Ordered(Receive(c, success, connected, true))
  {
    AnswerKeepsGestures(c, Answered(c.worker.job.id, c.worker.index, success, true));
    LastStepWire(c, success, connected);
  }

  lemma ReceiveKept(c: Channel, success: bool, connected: bool, intact: bool)
    requires Kept(c)
    ensures Kept(Receive(c, success, connected, intact))
  {
    if c.worker.Executing? && !intact {
      var heard := c.(wire := c.wire + [Answered(c.worker.job.id, c.worker.index, success, intact)]);
      PoisonKept(heard, Some(c.worker.job.id), true);
    } else {
      HeardKept(c, success, connected);
    }
  }

  lemma HeardKept(c: Channel, success: bool, connected: bool)
    requires Kept(c)
    ensures Kept(Receive(c, success, connected, true))
  {
    var d := Receive(c, success, connected, true);
    assert WorkerJob(d.worker) == WorkerJob(c.worker);
  }

  lemma BrokenReceiveOrdered(c: Channel, success: bool, connected: bool)
    requires Ordered(c) && c.worker.Executing?
    ensures Ordered(Receive(c, success, connected, false))
  {
    AnswerKeepsGestures(c, Answered(c.worker.job.id, c.worker.index, success, false));
  }

  lemma ReceiveKeepsSound(c: Channel, success: bool, connected: bool, intact: bool)
    requires Sound(c)
    ensures Sound(Receive(c, success, connected, intact))
  {
    if c.worker.Executing? && c.worker.awaiting && !c.closed {
      ReceiveKept(c, success, connected, intact);
      ReceiveResolvesNoFence(c, success, connected, intact);
      if !intact {
        BrokenReceiveOrdered(c, success, connected);
      } else if !success || c.worker.index + 1 >= c.worker.job.frames {
        LastStepOrdered(c, success, connected);
      } else {
        NextStepOrdered(c, connected);
      }
    }
  }

  lemma ReceiveResolvesNoFence(c: Channel, success: bool, connected: bool, intact: bool)
    requires FenceAcksLaw(c)
    ensures FenceAcksLaw(Receive(c, success, connected, intact))
  {
    OldFencesStay(c, Receive(c, success, connected, intact));
  }

  lemma LoseKeepsSound(c: Channel)
    requires Sound(c)
    ensures Sound(Lose(c))
  {
    if c.worker.Executing? {
      PoisonKeepsSound(c, Some(c.worker.job.id), false);
    }
  }

  lemma CompleteKept(c: Channel)
    requires Kept(c)
    ensures Kept(Complete(c))
  {
    if c.worker.Finished? {
      var d, id := Complete(c), c.worker.job.id;
      assert d.pending.Keys == c.pending.Keys - {id};
      assert !c.closed ==> id in c.pending;
    }
  }

  lemma CompleteOrdered(c: Channel)
    requires Kept(c) && Ordered(c)
    ensures Ordered(Complete(c))
  {
    if c.worker.Finished? && !c.closed {
      assert c.wire != [];
      if Queued(c).Some? { assert Queued(c).value.kind != FenceJob; }
    }
  }

  /** The acknowledgement of a fence is recorded while its two frames are the last on the wire. */
  lemma FenceResolvesInPlace(c: Channel)
    requires Kept(c) && Ordered(c) && c.worker.Finished? && !c.closed && c.worker.ack.FenceAck?
    ensures FenceHolds(Complete(c), c.worker.job.id, c.worker.ack.preceding, c.worker.ack.quiescent)
  {
    var d, j, s := Complete(c), c.worker.job, c.worker.start;
    assert c.wire[s..] == [Sent(j.id, 0), c.wire[|c.wire| - 1]];
    assert d.wire[s] == c.wire[s..][0] && d.wire[s + 1] == c.wire[s..][1];
    assert 0 < s ==> c.wire[..s][s - 1] == d.wire[s - 1];
    assert EndsWithLast(c, c.wire[..s]) && j.preceding == c.last;
  }

  lemma CompleteKeepsSound(c: Channel)
    requires Sound(c)
    ensures Sound(Complete(c))
  {
    CompleteKept(c);
    CompleteOrdered(c);
    if c.worker.Finished? {
      var d := Complete(c);
      forall i | i in d.futures && |d.futures[i]| == 1 && d.futures[i][0].Resolved? && d.futures[i][0].ack.FenceAck?
        ensures FenceHolds(d, i, d.futures[i][0].ack.preceding, d.futures[i][0].ack.quiescent)
      {
        if d.futures[i] == c.futures[i] {
          FenceHoldsStays(c, d, i, d.futures[i][0].ack.preceding, d.futures[i][0].ack.quiescent);
        } else {
          FenceResolvesInPlace(c);
        }
      }
    }
  }

  lemma StepKeepsSound(c: Channel, a: Action)
    requires Sound(c)
    ensures Sound(Step(c, a))
  {
    match a
    case DoSubmit(job) => if job.kind != FenceJob && job.frames != 0 { SubmitKeepsSound(c, job); }
    case DoFence(id, preceding) => if FenceError(c, preceding).None? { SubmitKeepsSound(c, Job(id, FenceJob, 1, preceding)); }
    case DoProbe(id) => if c.pending == map[] { SubmitKeepsSound(c, Job(id, FenceJob, 1, c.last)); }
    case DoClose => CloseKeepsSound(c);
    case DoTake => TakeKeepsSound(c);
    case DoBegin => BeginKeepsSound(c);
    case DoSend(ok) => SendKeepsSound(c, ok);
    case DoReceive(success, connected, intact) => ReceiveKeepsSound(c, success, connected, intact);
    case DoLose => LoseKeepsSound(c);
    case DoComplete => CompleteKeepsSound(c);
    case DoCloseAfterJob => if c.worker == Closing { CloseKeepsSound(c); }
  }

  lemma {:induction false} EveryInterleavingIsSound(c: Channel, actions: seq<Action>)
    requires Sound(c)
    ensures Sound(Steps(c, actions))
    decreases |actions|
  {
    if actions != [] {
      StepKeepsSound(c, actions[0]);
      EveryInterleavingIsSound(Step(c, actions[0]), actions[1..]);
    }
  }

  // ---------------------------------------------------------------- main results

  /** A fence acknowledged for a predecessor directly follows that predecessor's final answer on the wire, with its own
      answer next and no frame between; one acknowledged for no predecessor is the first frame ever sent. A quiescent
      one was answered with success. This holds on the channel's wire ever after. */
  lemma {:induction false} FencesFollowTheirPredecessor(actions: seq<Action>, f: Id)
    ensures var c := Steps(NEW_CHANNEL, actions);
            f in c.futures && |c.futures[f]| == 1 && c.futures[f][0].Resolved? && c.futures[f][0].ack.FenceAck? ==>
              FenceHolds(c, f, c.futures[f][0].ack.preceding, c.futures[f][0].ack.quiescent)
  {
    EveryInterleavingIsSound(NEW_CHANNEL, actions);
  }

  /** Every submitted command is resolved at most once; a command is unresolved exactly while it is pending, and once
      the channel is closed, however it got there, all of them are resolved. */
  lemma {:induction false} EveryFutureResolvesOnce(actions: seq<Action>, id: Id)
    ensures var c := Steps(NEW_CHANNEL, actions);
            && (id in c.futures <==> id in c.jobs)
            && (id in c.futures ==> |c.futures[id]| == (if id in c.pending then 0 else 1))
            && (c.closed ==> c.pending == map[])
  {
    EveryInterleavingIsSound(NEW_CHANNEL, actions);
  }

  /** No frame of a gesture is sent unless the one before it was answered with success, directly before it. */
  lemma {:induction false} FailedStepsStopTheGesture(actions: seq<Action>, m: nat)
    ensures var wire := Steps(NEW_CHANNEL, actions).wire;
            m < |wire| && wire[m].Sent? && 0 < wire[m].index ==>
              0 < m && wire[m - 1] == Answered(wire[m].id, wire[m].index - 1, true, true)
  {
    EveryInterleavingIsSound(NEW_CHANNEL, actions);
  }

  /** What can no longer change: a submitted job, a resolution, the wire already written, and a closed channel. */
  predicate Settled(c: Channel, d: Channel) {
    && (forall i | i in c.jobs :: i in d.jobs && d.jobs[i] == c.jobs[i])
    && (forall i | i in c.futures && c.futures[i] != [] :: i in d.futures && d.futures[i] == c.futures[i])
    && c.wire <= d.wire && (c.closed ==> d.closed && d.jobs == c.jobs)
  }

  lemma SubmitSettles(c: Channel, job: Job)
    requires FuturesLaw(c)
    ensures Settled(c, Submit(c, job))
  {
  }

  lemma PoisonSettles(c: Channel, d: Channel, current: Option<Id>, completed: bool)
    requires FuturesLaw(c) && d.jobs == c.jobs && c.wire <= d.wire && d.futures == Poison(c, current, completed).futures && d.closed
    ensures Settled(c, d)
  {
  }

  lemma ReceiveSettles(c: Channel, success: bool, connected: bool, intact: bool)
    requires FuturesLaw(c)
    ensures Settled(c, Receive(c, success, connected, intact))
  {
    if c.worker.Executing? && c.worker.awaiting && !c.closed && !intact {
      PoisonSettles(c, Receive(c, success, connected, intact), Some(c.worker.job.id), true);
    }
  }

  lemma SendSettles(c: Channel, ok: bool)
    requires FuturesLaw(c)
    ensures Settled(c, Send(c, ok)) && Settled(c, Lose(c))
  {
    if c.worker.Executing? {
      PoisonSettles(c, Stop(Poison(c, Some(c.worker.job.id), false)), Some(c.worker.job.id), false);
    }
  }

  lemma SubmissionsSettle(c: Channel, a: Action)
    requires FuturesLaw(c) && (a.DoSubmit? || a.DoFence? || a.DoProbe?)
    ensures Settled(c, Step(c, a))
  {
    match a
    case DoSubmit(job) => SubmitSettles(c, job);
    case DoFence(id, preceding) => SubmitSettles(c, Job(id, FenceJob, 1, preceding));
    case DoProbe(id) => SubmitSettles(c, Job(id, FenceJob, 1, c.last));
  }

  lemma StepSettles(c: Channel, a: Action)
    requires FuturesLaw(c)
    ensures Settled(c, Step(c, a))
  {
    match a
    case DoSubmit(_) => SubmissionsSettle(c, a);
    case DoFence(_, _) => SubmissionsSettle(c, a);
    case DoProbe(_) => SubmissionsSettle(c, a);
    case DoClose => PoisonSettles(c, Close(c), None, false);
    case DoTake =>
    case DoBegin =>
    case DoSend(ok) => SendSettles(c, ok);
    case DoReceive(success, connected, intact) => ReceiveSettles(c, success, connected, intact);
    case DoLose => SendSettles(c, true);
    case DoComplete =>
    case DoCloseAfterJob => PoisonSettles(c, Stop(Close(c)), None, false);
  }

  /** Submitted jobs, resolutions and the wire stay as they are, and a closed channel stays closed with what it had. */
  lemma {:induction false} SettledForever(c: Channel, actions: seq<Action>)
    requires Sound(c)
    ensures Settled(c, Steps(c, actions))
    decreases |actions|
  {
    if actions != [] {
      StepSettles(c, actions[0]);
      StepKeepsSound(c, actions[0]);
      SettledForever(Step(c, actions[0]), actions[1..]);
    }
  }

  lemma ResubmissionIsRefused(c: Channel, job: Job)
    requires job.id in c.jobs || c.closed
    ensures Submit(c, job) == c && (forall p :: FenceAfter(c, job.id, p) == c) && ProbeStatus(c, job.id) == c
  {
  }

  /** No identifier is submitted twice, and nothing after close: at every later time such a submission, as a command, a
      fence or a probe, changes nothing. */
  lemma SubmittedOnceAndForAll(actions: seq<Action>, later: seq<Action>, job: Job)
    requires var c := Steps(NEW_CHANNEL, actions); job.id in c.jobs || c.closed
    ensures var d := Steps(Steps(NEW_CHANNEL, actions), later);
            Submit(d, job) == d && (forall p :: FenceAfter(d, job.id, p) == d) && ProbeStatus(d, job.id) == d
  {
    EveryInterleavingIsSound(NEW_CHANNEL, actions);
    SettledForever(Steps(NEW_CHANNEL, actions), later);
    ResubmissionIsRefused(Steps(Steps(NEW_CHANNEL, actions), later), job);
  }
}
