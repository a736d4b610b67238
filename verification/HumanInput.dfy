/** One gesture of the owner: a durable reservation, at most one submission to the native channel, and a completion. */
module HumanInputs {
  import opened Wrappers
  import opened ControlModel
  import opened ControlProofs
  import opened ControlLedger
  import opened BrowserControllers

  /** How validation and submission ended: an answer, a native rejection, or any other failure. */
  datatype Ending = Answered(outcome: Outcome) | NativelyRejected | Raised

  function OutcomeOf(ending: Ending, sent: bool): Outcome {
    match ending
    case Answered(outcome) => outcome
    case NativelyRejected => Rejected
    case Raised => if sent then Uncertain else Rejected
  }

  /** What the row and the reply say about a gesture that was handed out for execution and then ended. */
  predicate Recorded(t: ControlState, reply: Reply, lease: Id, sequence: int, sent: bool, ending: Ending) {
    && reply.AckReply? && t.lastInput == Some(InputReceipt(lease, sequence, reply.ack.command, reply.ack.outcome))
    && reply.ack.sequence == sequence && !reply.ack.execute
    && (ending.Answered? ==> reply.ack.outcome == ending.outcome)
    && (reply.ack.outcome == Rejected <==>
          ending == NativelyRejected || ending == Answered(Rejected) || (ending == Raised && !sent))
    && (reply.ack.outcome == Applied ==> ending == Answered(Applied))
    && (reply.ack.outcome == Uncertain <==> t.active.Some?)
    && (reply.ack.outcome == Uncertain ==>
          t.mode == Recovering && t.lease.None? && t.active == Some(HumanCommand(reply.ack.command, lease, sequence)))
    && (sent && ending == Raised ==> reply.ack.outcome == Uncertain)
  }

  /** The command of a gesture handed out for execution stays outstanding until its completion, even if the lease expires. */
  lemma EndingsAreRecorded(store: Store, e: Env, f: Env, id: BrowserIdentity, owner: OwnerBinding, lease: Id, revision: int,
                           sequence: int, sent: bool, ending: Ending)
    requires var reserved := ApplyRow(store, e, id, RowOp.ReserveInput(owner, lease, revision, sequence));
             reserved.Success? && reserved.value.1.AckReply? && reserved.value.1.ack.execute
    ensures var reserved := ApplyRow(store, e, id, RowOp.ReserveInput(owner, lease, revision, sequence)).value;
            var done := ApplyRow(reserved.0, f, id,
                                 RowOp.CompleteInput(lease, reserved.1.ack.sequence, reserved.1.ack.command, OutcomeOf(ending, sent)));
            && (done.Success? <==> f.now.Some? && ending != Answered(Reserved))
            && (done.Success? ==> id.conversation in done.value.0
                                  && Recorded(done.value.0[id.conversation], done.value.1, lease, sequence, sent, ending))
  {
  }

  class Gestures {
    const controller: BrowserController
    ghost var submitted: seq<(Id, int)>

    constructor (controller: BrowserController)
      ensures this.controller == controller && submitted == []
    {
      this.controller := controller;
      submitted := [];
    }

    /** A retry is answered from the receipt; only the first reservation of a sequence submits, and its ending is recorded. */
    method HumanInput(reserving: Env, completing: Env, id: BrowserIdentity, owner: OwnerBinding, lease: Id, revision: int,
                      sequence: int, sent: bool, ending: Ending)
      returns (r: Result<Reply, ControlError>)
      modifies this, controller
      ensures var reserved := ApplyRow(old(controller.rows), reserving, id, RowOp.ReserveInput(owner, lease, revision, sequence));
              if reserved.Failure? || !reserved.value.1.AckReply? || !reserved.value.1.ack.execute then
                Commits(reserved, old(controller.rows), controller.rows, r) && submitted == old(submitted)
              else
                && submitted == old(submitted) + (if sent then [(lease, sequence)] else [])
                && Commits(ApplyRow(reserved.value.0, completing, id,
                             RowOp.CompleteInput(lease, reserved.value.1.ack.sequence, reserved.value.1.ack.command, OutcomeOf(ending, sent))),
                           reserved.value.0, controller.rows, r)
                && (r.Success? <==> completing.now.Some? && ending != Answered(Reserved))
                && (r.Success? ==> id.conversation in controller.rows
                                   && Recorded(controller.rows[id.conversation], r.value, lease, sequence, sent, ending))
    {
      ghost var before := controller.rows;
      r := controller.ReserveInput(reserving, id, owner, lease, revision, sequence);
      if r.Failure? || !r.value.AckReply? || !r.value.ack.execute { return; }
      EndingsAreRecorded(before, reserving, completing, id, owner, lease, revision, sequence, sent, ending);
      var ack := r.value.ack;
      var outcome := OutcomeOf(ending, sent);
      if sent { submitted := submitted + [(lease, sequence)]; }
      r := controller.CompleteInput(completing, id, lease, ack.sequence, ack.command, outcome);
    }
  }

  /** Any controller call, or the part of a gesture from its reservation to its submission. */
  datatype Moment =
    | Call(env: Env, op: Op)
    | Gesture(env: Env, id: BrowserIdentity, owner: OwnerBinding, lease: Id, revision: int, sequence: int, sent: bool)

  datatype World = World(traced: Traced, submitted: seq<(Id, int)>)

  function OpOf(m: Moment): Op {
    match m
    case Call(env, op) => op
    case Gesture(env, id, owner, lease, revision, sequence, sent) => OnRow(id, RowOp.ReserveInput(owner, lease, revision, sequence))
  }

  function Advance(w: World, m: Moment): World {
    var ack := Executes(w.traced.store, m.env, OpOf(m));
    World(Track(w.traced, m.env, OpOf(m)),
          w.submitted + if m.Gesture? && ack.Some? && m.sent then [(m.lease, ack.value.sequence)] else [])
  }

  function AdvanceAll(w: World, moments: seq<Moment>): World
    decreases |moments|
  {
    if moments == [] then w else AdvanceAll(Advance(w, moments[0]), moments[1..])
  }

  predicate FreshMoments(used: set<Id>, moments: seq<Moment>)
    decreases |moments|
  {
    moments == [] || (moments[0].env.uuid !in used && FreshMoments(used + {moments[0].env.uuid}, moments[1..]))
  }

  /** Submissions are distinct and were all handed out by the ledger. */
  predicate SubmittedOnce(w: World) {
    && (forall i, j | 0 <= i < j < |w.submitted| :: w.submitted[i] != w.submitted[j])
    && (forall i | 0 <= i < |w.submitted| :: w.submitted[i].1 <= |Issued(w.traced.ledger, w.submitted[i].0)|)
  }

  lemma AdvanceKeepsOnce(w: World, m: Moment)
    requires Sound(w.traced) && m.env.uuid !in w.traced.ledger.used && SubmittedOnce(w)
    ensures Sound(Advance(w, m).traced) && SubmittedOnce(Advance(w, m))
  {
    TrackKeepsSound(w.traced, m.env, OpOf(m));
    forall i | 0 <= i < |w.submitted|
      ensures |Issued(w.traced.ledger, w.submitted[i].0)| <= |Issued(Advance(w, m).traced.ledger, w.submitted[i].0)|
    {
      TrackIssues(w.traced, m.env, OpOf(m), w.submitted[i].0);
    }
    if m.Gesture? { TrackIssues(w.traced, m.env, OpOf(m), m.lease); }
  }

  /** Across any controller calls, retries and lost replies, no gesture of a lease is submitted twice. */
  lemma {:induction false} GesturesAreSubmittedOnce(w: World, moments: seq<Moment>)
    requires Sound(w.traced) && SubmittedOnce(w) && FreshMoments(w.traced.ledger.used, moments)
    ensures Sound(AdvanceAll(w, moments).traced) && SubmittedOnce(AdvanceAll(w, moments))
    decreases |moments|
  {
    if moments == [] {
    } else {
      AdvanceKeepsOnce(w, moments[0]);
      GesturesAreSubmittedOnce(Advance(w, moments[0]), moments[1..]);
    }
  }

  /** From the empty store on. */
  lemma EveryGestureIsSubmittedOnce(moments: seq<Moment>)
    requires FreshMoments({}, moments)
    ensures SubmittedOnce(AdvanceAll(World(NO_HISTORY, []), moments))
  {
    GesturesAreSubmittedOnce(World(NO_HISTORY, []), moments);
  }
}
