/** The streaming input boundary over the controller, as the atomic steps between two awaits.

    Whoever holds the transition lock is the one `transition` in progress, whoever holds the input lock is `input`;
    a coroutine waiting for a lock has no effect until it gets it, so any call may start whenever its lock is free,
    with arguments captured at any earlier time. The log is history only: no step reads it. */
module StreamingModel {
  import opened Wrappers
  import opened ControlModel

  /** Why the boundary is being drained, with what the coroutine does next. */
  datatype Purpose =
    | ForGrant(pending: ControlState, moving: bool)
    | ForMove(to: OwnerBinding, request: Id, revision: int, auth: Option<Time>)
    | ForHandback(from: OwnerBinding, revision: int)
    | ForRevocation

  datatype Transition =
    | Idle
    | Publishing(purpose: Purpose)
    | WaitingToDrain(purpose: Purpose)
    | Draining(purpose: Purpose)
    | Fencing(pending: ControlState, moving: bool)
    | Confirming(pending: ControlState, moving: bool, observation: FenceObservation)
    | Announcing(moving: bool)
    | AwaitingReturn(who: OwnerBinding, lease: Id, revision: int)
    | CheckingSensitive(who: OwnerBinding, lease: Id, revision: int)
    | Observing(who: OwnerBinding, revision: int)
    | Resuming(who: OwnerBinding, revision: int)

  datatype InputLock = Free | Dispatching(token: Id) | HeldByTransition | HeldByObserver

  /** History: inputs accepted and finished, handbacks revoked and drained, runs admitted on a handover, and every
      lease seen standing after a step. */
  datatype Mark =
    | Accepted(token: Id, lease: Id)
    | Finished(token: Id)
    | ClipboardSent(token: Id, lease: Id)
    | Revoked(revision: int)
    | Drained(revision: int)
    | Admitted(revision: int)
    | LeaseHeld(lease: Id)

  /** `granted` remembers under which lease each input token was published. */
  datatype World = World(store: Store, id: BrowserIdentity, token: Option<Id>, owner: Option<OwnerBinding>, blocked: bool,
                         transition: Transition, input: InputLock, handover: Option<HumanReturn>,
                         granted: map<Id, Id>, log: seq<Mark>)

  datatype Action =
    | Outside(e: Env, op: Op)
    | Take(e: Env, who: OwnerBinding, request: Id, revision: int, auth: Option<Time>)
    | Settle(e: Env)
    | Move(e: Env, f: Env, who: OwnerBinding, request: Id, revision: int, auth: Option<Time>)
    | Handback(who: OwnerBinding, lease: Id, revision: int)
    | Reconcile(e: Env, f: Env, g: Env, live: bool)
    | Disconnect(e: Env, f: Env, token: Id)
    | Published(ok: bool)
    | DrainStarts
    | DrainEnds(ok: bool, e: Env)
    | FenceReplied(proof: Option<FenceObservation>)
    | Confirm(e: Env, token: Id)
    | Announced(ok: bool, e: Env)
    | ReturnLocked(e: Env)
    | SensitiveChecked(clear: bool, e: Env)
    | Observed(ok: bool)
    | Resumed(ok: bool)
    | Dispatch(e: Env, epoch: Id, live: bool)
    | DispatchEnds
    | SendClipboard(e: Env, live: bool)
    | RepeatKey(e: Env, live: bool)
    | ObserverLocks
    | ObserverUnlocks
    | Shutdown
    | Cancelled
    | Admit(e: Env, who: OwnerBinding, run: RunBinding, revision: int, ended: Option<RunTerminal>)

  /** Calls made by anyone else: only the boundary confirms takeovers, and a handover proof is only ever presented
      by the admission step below. */
  predicate IsOutside(op: Op) {
    op.OnRow? ==> !op.row.ConfirmTakeover? && (op.row.AdmitRun? ==> op.row.handover.None?)
  }

  /** One controller call; None is a rejection. */
  function Ask(w: World, e: Env, op: RowOp): (World, Option<ControlState>) {
    var r := ApplyRow(w.store, e, w.id, op);
    if r.Success? && r.value.1.StateReply? then (w.(store := r.value.0), Some(r.value.1.state)) else (w, None)
  }

  function Logged(w: World, m: Mark): World {
    w.(log := w.log + [m])
  }

  function Released(w: World): World {
    w.(transition := Idle, input := if w.input.HeldByTransition? then Free else w.input)
  }

  /** A failure after revocation closes the boundary for good. */
  function Failed(w: World): World {
    Released(w).(blocked := true)
  }

  function Aborted(w: World, moving: bool): World {
    if moving then Failed(w) else Released(w)
  }

  /** `authorized`: the token is current, the browser is alive, and the durable lease belongs to the token's owner
      with no command outstanding. Only the owner is compared, not the lease. */
  function Authorized(w: World, e: Env, live: bool, token: Id): (World, bool) {
    if w.blocked || w.token != Some(token) || !live then (w, false)
    else
      var (v, s) := Ask(w, e, Read);
      (v, s.Some? && s.value.mode == Human && s.value.lease.Some? && Some(s.value.lease.value.owner) == w.owner
          && !s.value.retired && s.value.active.None?)
  }

  function LeaseNow(w: World): Id {
    if w.id.conversation in w.store && w.store[w.id.conversation].lease.Some?
    then w.store[w.id.conversation].lease.value.id else ""
  }

  // ---------------------------------------------------------------- input

  function DispatchInput(w: World, e: Env, epoch: Id, live: bool): World {
    if w.input != Free then w else
    var (v, ok) := Authorized(w, e, live, epoch);
    if ok then Logged(v.(input := Dispatching(epoch)), Accepted(epoch, LeaseNow(v))) else v
  }

  function EndDispatch(w: World): World {
    if w.input.Dispatching? then Logged(w.(input := Free), Finished(w.input.token)) else w
  }

  /** A clipboard read inside an accepted operation is authorized again before anything is sent. */
  function SendClipboardData(w: World, e: Env, live: bool): World {
    if !w.input.Dispatching? then w else
    var (v, ok) := Authorized(w, e, live, w.input.token);
    if ok then Logged(v, ClipboardSent(w.input.token, LeaseNow(v))) else v
  }

  /** The synchronous key-repeat path runs only while nobody holds the input lock. */
  function RepeatHeldKey(w: World, e: Env, live: bool): World {
    if w.input != Free || w.token.None? then w else
    var (v, ok) := Authorized(w, e, live, w.token.value);
    if ok then Logged(Logged(v, Accepted(w.token.value, LeaseNow(v))), Finished(w.token.value)) else v
  }

  /** Page observation and file commits hold the input lock without injecting anything. */
  function LockForObserver(w: World): World {
    if w.input == Free then w.(input := HeldByObserver) else w
  }

  function UnlockObserver(w: World): World {
    if w.input == HeldByObserver then w.(input := Free) else w
  }

  /** The watcher's failure path and every teardown. */
  function ShutDown(w: World): World {
    w.(blocked := true, token := None)
  }

  /** Whoever awaits inside a transition may be cancelled there. Cancellation is no failure to the handlers: both locks
      are given back, and neither the blocked flag nor token nor owner is touched. (A cancelled dispatch or observation
      ends like a finished one.) */
  function CancelTransition(w: World): World {
    if w.transition == Idle then w else Released(w)
  }

  // ---------------------------------------------------------------- granting

  /** The start of `_grant`: a former holder is revoked and drained before anything else. */
  function BeginGrant(w: World, pending: ControlState, moving: bool): World {
    if w.token.Some? then w.(token := None, transition := Publishing(ForGrant(pending, moving)))
    else w.(transition := Fencing(pending, moving))
  }

  function TakeControl(w: World, e: Env, who: OwnerBinding, request: Id, revision: int, auth: Option<Time>): World {
    if w.transition != Idle then w else
    var (v, s) := Ask(w, e, RequestTakeover(who, request, revision, auth));
    if s.None? || s.value.mode == Human || s.value.active.Some? then v else BeginGrant(v, s.value, false)
  }

  function SettleTakeover(w: World, e: Env): World {
    if w.transition != Idle then w else
    var (v, s) := Ask(w, e, Read);
    if s.Some? && s.value.mode == TakeoverPending && s.value.active.None? then BeginGrant(v, s.value, false) else v
  }

  function MoveControl(w: World, e: Env, f: Env, who: OwnerBinding, request: Id, revision: int, auth: Option<Time>): World {
    if w.transition != Idle || ArgumentError(w.id, RequestTakeover(who, request, revision, auth), e).Some? then w else
    var (v, s) := Ask(w, e, Read);
    if s.None? || s.value.principal != who.principal || s.value.mode != Human || s.value.lease.None?
       || s.value.lease.value.owner == who || s.value.revision != revision || s.value.active.Some? then v
    else
      var (u, t) := Ask(v, f, Pause(s.value.lease.value.owner));
      if t.None? then v else u.(token := None, transition := Publishing(ForMove(who, request, t.value.revision, auth)))
  }

  function FenceAnswered(w: World, proof: Option<FenceObservation>): World {
    if !w.transition.Fencing? then w
    else if proof.None? then Aborted(w, w.transition.moving)
    else w.(transition := Confirming(w.transition.pending, w.transition.moving, proof.value))
  }

  function ConfirmGrant(w: World, e: Env, token: Id): World {
    if !w.transition.Confirming? || w.input != Free || token in w.granted then w else
    var (v, s) := Ask(w, e, ConfirmTakeover(w.transition.pending.revision, w.transition.observation));
    if s.None? || s.value.lease.None? then Aborted(v, w.transition.moving)
    else v.(owner := Some(s.value.lease.value.owner), token := Some(token), input := HeldByTransition,
            transition := Announcing(w.transition.moving), granted := v.granted[token := s.value.lease.value.id])
  }

  function GrantAnnounced(w: World, ok: bool, e: Env): World {
    if !w.transition.Announcing? then w
    else if ok then Released(w)
    else
      var v := w.(token := None, blocked := true);
      Released(if v.owner.Some? then Ask(v, e, Pause(v.owner.value)).0 else v)
  }

  // ---------------------------------------------------------------- revoking

  function ReconcileInput(w: World, e: Env, f: Env, g: Env, live: bool): World {
    if w.transition != Idle then w else
    var (v, s) := Ask(w, e, Read);
    if s.None? || v.token.None? then v else
    var (u, ok) := Authorized(v, f, live, v.token.value);
    if ok then u
    else if s.value.mode == Human then
      if u.owner.None? then u else
      var (x, t) := Ask(u, g, Pause(u.owner.value));
      if t.None? then x else x.(token := None, transition := Publishing(ForRevocation))
    else u.(token := None, transition := Publishing(ForRevocation))
  }

  function DisconnectViewer(w: World, e: Env, f: Env, token: Id): World {
    if w.transition != Idle || w.token != Some(token) then w else
    var (v, s) := Ask(w, e, Read);
    if s.None? then v
    else if s.value.mode == Human && s.value.lease.Some? && Some(s.value.lease.value.owner) == v.owner then
      var (u, t) := Ask(v, f, Pause(s.value.lease.value.owner));
      if t.None? then u else u.(token := None, transition := Publishing(ForRevocation))
    else v.(token := None, transition := Publishing(ForRevocation))
  }

  function PublishAnswered(w: World, ok: bool): World {
    if !w.transition.Publishing? then w
    else if ok then w.(transition := WaitingToDrain(w.transition.purpose)) else Failed(w)
  }

  function StartDrain(w: World): World {
    if w.transition.WaitingToDrain? && w.input == Free
    then w.(input := HeldByTransition, transition := Draining(w.transition.purpose)) else w
  }

  function EndDrain(w: World, ok: bool, e: Env): World {
    if !w.transition.Draining? then w
    else if !ok then Failed(w)
    else
      var v := Released(w);
      match w.transition.purpose
      case ForRevocation => v.(owner := None)
      case ForGrant(pending, moving) => v.(owner := None, transition := Fencing(pending, moving))
      case ForHandback(who, revision) => Logged(v.(transition := Observing(who, revision)), Drained(revision))
      case ForMove(to, request, revision, auth) =>
        var (u, s) := Ask(v.(owner := None), e, RequestTakeover(to, request, revision, auth));
        if s.None? then Failed(u) else BeginGrant(u, s.value, true)
  }

  // ---------------------------------------------------------------- handing back

  function BeginHandback(w: World, who: OwnerBinding, lease: Id, revision: int): World {
    if w.transition != Idle then w else w.(transition := AwaitingReturn(who, lease, revision))
  }

  function LockReturn(w: World, e: Env): World {
    if !w.transition.AwaitingReturn? || w.input != Free then w else
    var t := w.transition;
    var (v, s) := Ask(w, e, Read);
    if s.None? || s.value.mode != Human || s.value.lease.None? || s.value.lease.value.owner != t.who
       || s.value.lease.value.id != t.lease || s.value.revision != t.revision then Released(v)
    else v.(input := HeldByTransition, transition := CheckingSensitive(t.who, t.lease, t.revision))
  }

  /** Revokes durable authority first; nothing has failed yet if the page was not clear or the lease was gone. */
  function RevokeForReturn(w: World, clear: bool, e: Env): World {
    if !w.transition.CheckingSensitive? then w
    else if !clear then Released(w)
    else
      var t := w.transition;
      var (v, s) := Ask(w, e, BeginReturn(t.who, t.lease, t.revision));
      if s.None? then Released(v)
      else Logged(Released(v).(token := None, transition := Publishing(ForHandback(t.who, s.value.revision))),
                  Revoked(s.value.revision))
  }

  function ObservationAnswered(w: World, ok: bool): World {
    if !w.transition.Observing? then w
    else if ok then w.(transition := Resuming(w.transition.who, w.transition.revision)) else Failed(w)
  }

  function ResumeAnswered(w: World, ok: bool): World {
    if !w.transition.Resuming? then w
    else if !ok then Failed(w)
    else w.(handover := Some(HumanReturn(w.id, w.transition.who, w.transition.revision, true)), owner := None, transition := Idle)
  }

  /** The follow-up run is admitted on the handover; a failed admission keeps it. */
  function AdmitFollowUp(w: World, e: Env, who: OwnerBinding, run: RunBinding, revision: int, ended: Option<RunTerminal>): World {
    var paused := match Load(w.store, e, w.id) case Success(s) => s.mode == Paused case Failure(_) => false;
    var (v, s) := Ask(w, e, AdmitRun(who, run, None, revision, ended, w.handover));
    if s.None? then v
    else if paused then Logged(v.(handover := None), Admitted(revision))
    else v.(handover := None)
  }

  // ---------------------------------------------------------------- steps and runs

  function Core(w: World, a: Action): World {
    match a
    case Outside(e, op) => if IsOutside(op) then w.(store := Exec(w.store, e, op)) else w
    case Take(e, who, request, revision, auth) => TakeControl(w, e, who, request, revision, auth)
    case Settle(e) => SettleTakeover(w, e)
    case Move(e, f, who, request, revision, auth) => MoveControl(w, e, f, who, request, revision, auth)
    case Handback(who, lease, revision) => BeginHandback(w, who, lease, revision)
    case Reconcile(e, f, g, live) => ReconcileInput(w, e, f, g, live)
    case Disconnect(e, f, token) => DisconnectViewer(w, e, f, token)
    case Published(ok) => PublishAnswered(w, ok)
    case DrainStarts => StartDrain(w)
    case DrainEnds(ok, e) => EndDrain(w, ok, e)
    case FenceReplied(proof) => FenceAnswered(w, proof)
    case Confirm(e, token) => ConfirmGrant(w, e, token)
    case Announced(ok, e) => GrantAnnounced(w, ok, e)
    case ReturnLocked(e) => LockReturn(w, e)
    case SensitiveChecked(clear, e) => RevokeForReturn(w, clear, e)
    case Observed(ok) => ObservationAnswered(w, ok)
    case Resumed(ok) => ResumeAnswered(w, ok)
    case Dispatch(e, epoch, live) => DispatchInput(w, e, epoch, live)
    case DispatchEnds => EndDispatch(w)
    case SendClipboard(e, live) => SendClipboardData(w, e, live)
    case RepeatKey(e, live) => RepeatHeldKey(w, e, live)
    case ObserverLocks => LockForObserver(w)
    case ObserverUnlocks => UnlockObserver(w)
    case Shutdown => ShutDown(w)
    case Cancelled => CancelTransition(w)
    case Admit(e, who, run, revision, ended) => AdmitFollowUp(w, e, who, run, revision, ended)
  }

  /** The history also records every lease that stands after a step. */
  function Noted(w: World): World {
    if w.id.conversation in w.store && w.store[w.id.conversation].lease.Some?
    then Logged(w, LeaseHeld(w.store[w.id.conversation].lease.value.id)) else w
  }

  function Step(w: World, a: Action): World {
    Noted(Core(w, a))
  }

  function Steps(w: World, actions: seq<Action>): World
    decreases |actions|
  {
    if actions == [] then w else Steps(Step(w, actions[0]), actions[1..])
  }
}
