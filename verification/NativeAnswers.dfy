/** What a resolved future says is what the wire shows, for every interleaving. */
module NativeAnswers {
  import opened Wrappers
  import opened NativeChannelModel
  import opened NativeChannelProofs

  /** Every frame of the job was answered with success, down to the last one. */
  predicate Succeeded(wire: seq<Frame>, job: Job) {
    job.frames > 0 && Answered(job.id, job.frames - 1, true, true) in wire
  }

  predicate FailedAnswer(wire: seq<Frame>, id: Id) {
    exists k <- wire :: k.Answered? && k.id == id && !k.success && k.intact
  }

  /** The browser that answered was no longer the one the channel was opened for. */
  predicate BrokenAnswer(wire: seq<Frame>, id: Id) {
    exists k <- wire :: k.Answered? && k.id == id && !k.intact
  }

  /** The resolution of this job's future is borne out by the wire. */
  predicate Tells(wire: seq<Frame>, job: Job, r: Resolution) {
    match r
    case Resolved(HumanAck(id, completed, applied)) =>
      && job.kind == HumanJob && id == job.id && (applied ==> completed)
      && (completed ==> applied == Succeeded(wire, job))
      && (completed && !applied ==> FailedAnswer(wire, id) || BrokenAnswer(wire, id))
    case Resolved(AgentAck(id, completed, success)) =>
      && job.kind != HumanJob && job.kind != FenceJob && id == job.id && completed
      && success == Succeeded(wire, job) && (!success ==> FailedAnswer(wire, id))
    case Resolved(FenceAck(id, preceding, quiescent)) =>
      && job.kind == FenceJob && id == job.id && preceding == job.preceding && (quiescent ==> Succeeded(wire, job))
    case Raised(completed) => job.kind != HumanJob && (completed ==> BrokenAnswer(wire, job.id))
  }

  predicate Untouched(wire: seq<Frame>, id: Id) {
    forall f <- wire :: f.id != id
  }

  /** Of a job at this frame, only earlier frames were answered, all with success. */
  predicate SucceedsSoFar(wire: seq<Frame>, id: Id, index: nat) {
    forall f <- wire :: f.Answered? && f.id == id ==> f.success && f.intact && f.index < index
  }

  predicate WorkerTells(c: Channel) {
    match c.worker
    case Taken(job) => Untouched(c.wire, job.id)
    case Executing(job, index, _, _) => SucceedsSoFar(c.wire, job.id, index)
    case Finished(job, ack, _) => Tells(c.wire, job, Resolved(ack))
    case _ => true
  }

  predicate AnswersLaw(c: Channel) {
    && (forall i <- c.futures :: c.futures[i] != [] ==> i in c.jobs && Tells(c.wire, c.jobs[i], c.futures[i][0]))
    && (forall f <- c.wire :: f.id in c.jobs)
    && (!c.closed ==> WorkerTells(c) && (Queued(c).Some? ==> Untouched(c.wire, Queued(c).value.id)))
  }

  // ---------------------------------------------------------------- every step keeps it

  /** Frames of another job take nothing away from what a resolution says. */
  lemma TellsStays(wire: seq<Frame>, longer: seq<Frame>, job: Job, r: Resolution)
    requires Tells(wire, job, r) && wire <= longer && forall k | |wire| <= k < |longer| :: longer[k].id != job.id || longer[k].Sent?
    ensures Tells(longer, job, r)
  {
    assert forall f <- wire :: f in longer;
    assert forall f <- longer :: f in wire || f.id != job.id || f.Sent?;
  }

  /** A step that resolves nothing and sends nothing. */
  lemma QuietStep(c: Channel, d: Channel)
    requires AnswersLaw(c) && d.wire == c.wire && d.futures == c.futures && d.jobs == c.jobs && (d.closed || !c.closed)
    requires !d.closed ==> WorkerTells(d) && (Queued(d).Some? ==> Queued(d) == Queued(c))
    ensures AnswersLaw(d)
  {
  }

  lemma SubmitTells(c: Channel, job: Job)
    requires FuturesLaw(c) && AnswersLaw(c)
    ensures AnswersLaw(Submit(c, job))
  {
  }

  lemma PoisonTells(c: Channel, current: Option<Id>)
    requires FuturesLaw(c) && AnswersLaw(c)
    ensures AnswersLaw(Poison(c, current, false)) && AnswersLaw(Stop(Poison(c, current, false)))
  {
    var p := Poison(c, current, false);
    forall i <- p.futures ensures p.futures[i] != [] ==> i in p.jobs && Tells(p.wire, p.jobs[i], p.futures[i][0]) {
      if i in c.pending && c.futures[i] == [] { assert c.jobs[i].id == i; }
    }
  }

  lemma SendTells(c: Channel)
    requires Kept(c) && AnswersLaw(c) && c.worker.Executing? && !c.worker.awaiting && !c.closed
    ensures AnswersLaw(Send(c, true))
  {
    var d := Send(c, true);
    forall i <- d.futures ensures d.futures[i] != [] ==> i in d.jobs && Tells(d.wire, d.jobs[i], d.futures[i][0]) {
      if c.futures[i] != [] { TellsStays(c.wire, d.wire, c.jobs[i], c.futures[i][0]); }
    }
  }

  /** While the channel is open nothing of the worker's job is resolved, so its answers concern no resolution. */
  lemma HeardTells(c: Channel, f: Frame)
    requires Kept(c) && AnswersLaw(c) && c.worker.Executing? && !c.closed && f.Answered? && f.id == c.worker.job.id
    ensures var d := c.(wire := c.wire + [f]);
            && (forall i <- d.futures :: d.futures[i] != [] ==> i in d.jobs && Tells(d.wire, d.jobs[i], d.futures[i][0]))
            && (forall g <- d.wire :: g.id in d.jobs) && (Queued(d).Some? ==> Untouched(d.wire, Queued(d).value.id))
  {
    var d := c.(wire := c.wire + [f]);
    assert f.id in c.pending.Keys;
    forall i <- d.futures ensures d.futures[i] != [] ==> i in d.jobs && Tells(d.wire, d.jobs[i], d.futures[i][0]) {
      if c.futures[i] != [] { TellsStays(c.wire, d.wire, c.jobs[i], c.futures[i][0]); }
    }
  }

  /** The final answer decides the acknowledgement. */
  lemma FinalAnswerTells(c: Channel, success: bool, connected: bool)
    requires Kept(c) && FenceLaw(c) && AnswersLaw(c) && c.worker.Executing? && !c.closed
    requires c.worker.index < c.worker.job.frames && (!success || c.worker.index + 1 == c.worker.job.frames)
    ensures var f := Answered(c.worker.job.id, c.worker.index, success, true);
            Tells(c.wire + [f], c.worker.job, Resolved(Outcome(c.worker.job, success, connected)))
  {
    var f := Answered(c.worker.job.id, c.worker.index, success, true);
    var wire := c.wire + [f];
    assert f in wire;
    assert forall g <- wire :: g in c.wire || g == f;
  }

  lemma FinalReceiveTells(c: Channel, success: bool, connected: bool)
    requires Kept(c) && FenceLaw(c) && AnswersLaw(c) && c.worker.Executing? && c.worker.awaiting && !c.closed
    requires c.worker.index < c.worker.job.frames && (!success || c.worker.index + 1 >= c.worker.job.frames)
    ensures AnswersLaw(Receive(c, success, connected, true))
  {
    HeardTells(c, Answered(c.worker.job.id, c.worker.index, success, true));
    FinalAnswerTells(c, success, connected);
  }

  lemma NextReceiveTells(c: Channel, connected: bool)
    requires Kept(c) && AnswersLaw(c) && c.worker.Executing? && c.worker.awaiting && !c.closed
    requires c.worker.index + 1 < c.worker.job.frames
    ensures AnswersLaw(Receive(c, true, connected, true))
  {
    var f := Answered(c.worker.job.id, c.worker.index, true, true);
    HeardTells(c, f);
    assert forall g <- c.wire + [f] :: g in c.wire || g == f;
  }

  lemma BrokenReceiveTells(c: Channel, success: bool, connected: bool)
    requires Kept(c) && AnswersLaw(c) && c.worker.Executing? && c.worker.awaiting && !c.closed
    requires c.worker.index < c.worker.job.frames
    ensures AnswersLaw(Receive(c, success, connected, false))
  {
    var f := Answered(c.worker.job.id, c.worker.index, success, false);
    HeardTells(c, f);
    assert forall g <- c.wire + [f] :: g in c.wire || g == f;
    BrokenTells(c.(wire := c.wire + [f]), f);
  }

  lemma ReceiveTells(c: Channel, success: bool, connected: bool, intact: bool)
    requires Sound(c) && AnswersLaw(c)
    ensures AnswersLaw(Receive(c, success, connected, intact))
  {
    if c.worker.Executing? && c.worker.awaiting && !c.closed {
      if !intact { BrokenReceiveTells(c, success, connected); }
      else if !success || c.worker.index + 1 >= c.worker.job.frames { FinalReceiveTells(c, success, connected); }
      else { NextReceiveTells(c, connected); }
    }
  }

  lemma BrokenTells(heard: Channel, f: Frame)
    requires FuturesLaw(heard) && f in heard.wire && f.Answered? && !f.intact
    requires forall i <- heard.futures :: heard.futures[i] != [] ==> i in heard.jobs && Tells(heard.wire, heard.jobs[i], heard.futures[i][0])
    requires forall g <- heard.wire :: g.id in heard.jobs
    requires f.id in heard.jobs && !Succeeded(heard.wire, heard.jobs[f.id])
    ensures AnswersLaw(Stop(Poison(heard, Some(f.id), true)))
  {
    var p := Poison(heard, Some(f.id), true);
    assert BrokenAnswer(heard.wire, f.id);
    forall i <- p.futures ensures p.futures[i] != [] ==> i in p.jobs && Tells(p.wire, p.jobs[i], p.futures[i][0]) {
      if i in heard.pending && heard.futures[i] == [] { assert heard.jobs[i].id == i; }
    }
  }

  lemma CompleteTells(c: Channel)
    requires Kept(c) && AnswersLaw(c)
    ensures AnswersLaw(Complete(c))
  {
    if c.worker.Finished? {
      var job := c.worker.job;
      assert c.closed ==> job.id in c.futures && c.futures[job.id] != [];
    }
  }

  lemma SubmissionTells(c: Channel, a: Action)
    requires FuturesLaw(c) && AnswersLaw(c) && (a.DoSubmit? || a.DoFence? || a.DoProbe?)
    ensures AnswersLaw(Step(c, a))
  {
    match a
    case DoSubmit(job) => SubmitTells(c, job);
    case DoFence(id, preceding) => SubmitTells(c, Job(id, FenceJob, 1, preceding));
    case DoProbe(id) => SubmitTells(c, Job(id, FenceJob, 1, c.last));
  }

  lemma BreakingTells(c: Channel, a: Action)
    requires FuturesLaw(c) && AnswersLaw(c) && (a.DoClose? || a.DoLose? || a.DoCloseAfterJob?)
    ensures AnswersLaw(Step(c, a))
  {
    PoisonTells(c, None);
    if c.worker.Executing? { PoisonTells(c, Some(c.worker.job.id)); }
  }

  lemma SendingTells(c: Channel, ok: bool)
    requires Sound(c) && AnswersLaw(c)
    ensures AnswersLaw(Send(c, ok))
  {
    if c.worker.Executing? && !c.worker.awaiting {
      if ok && !c.closed { SendTells(c); } else { PoisonTells(c, Some(c.worker.job.id)); }
    }
  }

  lemma StepTells(c: Channel, a: Action)
    requires Sound(c) && AnswersLaw(c)
    ensures AnswersLaw(Step(c, a))
  {
    if a.DoSubmit? || a.DoFence? || a.DoProbe? { SubmissionTells(c, a); }
    else if a.DoClose? || a.DoLose? || a.DoCloseAfterJob? { BreakingTells(c, a); }
    else {
      match a
      case DoTake => QuietStep(c, Take(c));
      case DoBegin => QuietStep(c, Begin(c));
      case DoSend(ok) => SendingTells(c, ok);
      case DoReceive(success, connected, intact) => ReceiveTells(c, success, connected, intact);
      case DoComplete => CompleteTells(c);
    }
  }

  lemma {:induction false} EveryInterleavingTells(c: Channel, actions: seq<Action>)
    requires Sound(c) && AnswersLaw(c)
    ensures Sound(Steps(c, actions)) && AnswersLaw(Steps(c, actions))
    decreases |actions|
  {
    if actions == [] {
    } else {
      StepTells(c, actions[0]);
      StepKeepsSound(c, actions[0]);
      EveryInterleavingTells(Step(c, actions[0]), actions[1..]);
    }
  }

  /** Whatever the interleaving, a resolved future is of its own job, in the job's kind, and tells what the wire shows. A
      gesture or command answered to its end is reported as applied exactly if its last frame was answered with success;
      otherwise an answer of failure is on the wire, or, for a gesture, one that shows another browser. */
  lemma FuturesTellWhatTheWireShows(actions: seq<Action>, i: Id)
    ensures var c := Steps(NEW_CHANNEL, actions);
            i in c.futures && c.futures[i] != [] ==>
              && i in c.jobs && c.jobs[i].id == i && c.jobs[i].frames > 0
              && var job, last := c.jobs[i], Answered(i, c.jobs[i].frames - 1, true, true);
                 match c.futures[i][0]
                 case Resolved(HumanAck(j, completed, applied)) =>
                   && j == i && job.kind == HumanJob && (applied ==> completed) && (completed ==> (applied <==> last in c.wire))
                   && (completed && !applied ==> FailedAnswer(c.wire, i) || BrokenAnswer(c.wire, i))
                 case Resolved(AgentAck(j, completed, success)) =>
                   && j == i && job.kind in {AgentJob, TrustedJob, CloseJob} && completed && (success <==> last in c.wire)
                   && (!success ==> FailedAnswer(c.wire, i))
                 case Resolved(FenceAck(j, preceding, quiescent)) =>
                   j == i && job.kind == FenceJob && preceding == job.preceding && (quiescent ==> last in c.wire)
                 case Raised(completed) => job.kind != HumanJob && (completed ==> BrokenAnswer(c.wire, i))
  {
    EveryInterleavingTells(NEW_CHANNEL, actions);
  }

  /** An answer of success can still be no application: if it shows that the browser was replaced, the gesture is
      uncertain. */
  lemma ReplacedBrowsersAnswerNothing(id: Id)
    ensures var sent := Step(Step(Step(Step(NEW_CHANNEL, DoSubmit(Job(id, HumanJob, 1, None))), DoTake), DoBegin), DoSend(true));
            var c := Step(sent, DoReceive(true, true, false));
            && c.wire == [Sent(id, 0), Answered(id, 0, true, false)] && c.futures == map[id := [Resolved(HumanAck(id, true, false))]]
            && c.closed
  {
    var job := Job(id, HumanJob, 1, None);
    var taken := Step(Step(NEW_CHANNEL, DoSubmit(job)), DoTake);
    assert taken == Channel(false, [], map[id := job], map[id := job], None, Taken(job), map[id := []], []);
    var sent := Step(Step(taken, DoBegin), DoSend(true));
    assert sent == taken.(worker := Executing(job, 0, true, 0), wire := [Sent(id, 0)]);
  }
}
