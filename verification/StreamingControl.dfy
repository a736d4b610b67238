/** The boundary object. Each method is the stretch of one coroutine between two awaits; together they are the atomic
    steps of StreamingModel, taken on the object's own fields and on the controller it shares with everyone else. */
module StreamingControls {
  import opened Wrappers
  import opened ControlModel
  import opened BrowserControllers
  import opened StreamingModel

  function StateOf(r: Result<Reply, ControlError>): Option<ControlState> {
    if r.Success? && r.value.StateReply? then Some(r.value.state) else None
  }

  class StreamingControl {
    const controller: BrowserController
    const identity: BrowserIdentity
    var inputToken: Option<Id>
    var inputOwner: Option<OwnerBinding>
    var blocked: bool
    var transition: Transition
    var input: InputLock
    var handover: Option<HumanReturn>
    ghost var granted: map<Id, Id>
    ghost var log: seq<Mark>

    ghost function View(): World
      reads this, controller
    {
      World(controller.rows, identity, inputToken, inputOwner, blocked, transition, input, handover, granted, log)
    }

    constructor (controller: BrowserController, identity: BrowserIdentity)
      ensures this.controller == controller && this.identity == identity
      ensures View() == World(controller.rows, identity, None, None, false, Idle, Free, None, map[], [])
    {
      this.controller, this.identity := controller, identity;
      inputToken, inputOwner, blocked := None, None, false;
      transition, input, handover := Idle, Free, None;
      granted, log := map[], [];
    }

    method Release()
      modifies `transition, `input
      ensures View() == Released(old(View()))
    {
      transition := Idle;
      if input == HeldByTransition { input := Free; }
    }

    method Fail()
      modifies `transition, `input, `blocked
      ensures View() == Failed(old(View()))
    {
      Release();
      blocked := true;
    }

    /** The controller's own view of this browser; None when it refuses. */
    method ReadState(e: Env) returns (state: Option<ControlState>)
      modifies controller`rows
      ensures (View(), state) == Ask(old(View()), e, Read)
    {
      var r := controller.State(e, identity);
      state := StateOf(r);
    }

    method PauseOwned(e: Env, owner: OwnerBinding) returns (state: Option<ControlState>)
      modifies controller`rows
      ensures (View(), state) == Ask(old(View()), e, Pause(owner))
    {
      var r := controller.Pause(e, identity, owner);
      state := StateOf(r);
    }

    method Authorize(e: Env, live: bool, token: Id) returns (ok: bool)
      modifies controller`rows
      ensures (View(), ok) == Authorized(old(View()), e, live, token)
    {
      if blocked || inputToken != Some(token) { return false; }
      if !live { return false; }
      var r := controller.State(e, identity);
      if r.Failure? { return false; }
      var state := r.value.state;
      return state.mode == Human && state.lease.Some? && Some(state.lease.value.owner) == inputOwner
             && !state.retired && state.active.None?;
    }

    method Dispatch(e: Env, epoch: Id, live: bool)
      modifies this, controller
      ensures View() == DispatchInput(old(View()), e, epoch, live)
    {
      if input == Free {
        var ok := Authorize(e, live, epoch);
        if ok {
          input := Dispatching(epoch);
          log := log + [Accepted(epoch, LeaseNow(View()))];
        }
      }
    }

    method EndDispatch()
      modifies this
      ensures View() == StreamingModel.EndDispatch(old(View()))
    {
      if input.Dispatching? {
        log := log + [Finished(input.token)];
        input := Free;
      }
    }

    method SendClipboard(e: Env, live: bool) returns (sent: bool)
      modifies this, controller
      ensures View() == SendClipboardData(old(View()), e, live)
    {
      sent := false;
      if input.Dispatching? {
        sent := Authorize(e, live, input.token);
        if sent { log := log + [ClipboardSent(input.token, LeaseNow(View()))]; }
      }
    }

    method RepeatKey(e: Env, live: bool) returns (pressed: bool)
      modifies this, controller
      ensures View() == RepeatHeldKey(old(View()), e, live)
    {
      pressed := false;
      if input == Free && inputToken.Some? {
        pressed := Authorize(e, live, inputToken.value);
        if pressed { log := log + [Accepted(inputToken.value, LeaseNow(View())), Finished(inputToken.value)]; }
      }
    }

    /** The opening of `_grant`. */
    method Grant(pending: ControlState, moving: bool)
      modifies `inputToken, `transition
      ensures View() == BeginGrant(old(View()), pending, moving)
    {
      if inputToken.Some? {
        inputToken := None;
        transition := Publishing(ForGrant(pending, moving));
      } else {
        transition := StreamingModel.Fencing(pending, moving);
      }
    }

    method Take(e: Env, viewer: OwnerBinding, request: Id, revision: int, auth: Option<Time>)
      modifies this, controller
      ensures View() == TakeControl(old(View()), e, viewer, request, revision, auth)
    {
      if transition == Idle {
        var r := controller.RequestTakeover(e, identity, viewer, request, revision, auth);
        var state := StateOf(r);
        if state.Some? && state.value.mode != Human && state.value.active.None? { Grant(state.value, false); }
      }
    }

    method SettleTakeover(e: Env)
      modifies this, controller
      ensures View() == StreamingModel.SettleTakeover(old(View()), e)
    {
      if transition == Idle {
        var state := ReadState(e);
        if state.Some? && state.value.mode == TakeoverPending && state.value.active.None? { Grant(state.value, false); }
      }
    }

    method Move(e: Env, f: Env, viewer: OwnerBinding, request: Id, revision: int, auth: Option<Time>)
      modifies this, controller
      ensures View() == MoveControl(old(View()), e, f, viewer, request, revision, auth)
    {
      if transition == Idle && ArgumentError(identity, RequestTakeover(viewer, request, revision, auth), e).None? {
        var state := ReadState(e);
        if state.Some? && state.value.principal == viewer.principal && state.value.mode == Human && state.value.lease.Some?
           && state.value.lease.value.owner != viewer && state.value.revision == revision && state.value.active.None? {
          var paused := PauseOwned(f, state.value.lease.value.owner);
          if paused.Some? {
            inputToken := None;
            transition := Publishing(ForMove(viewer, request, paused.value.revision, auth));
          }
        }
      }
    }

    method FenceReply(proof: Option<FenceObservation>)
      modifies this
      ensures View() == FenceAnswered(old(View()), proof)
    {
      if transition.Fencing? {
        if proof.Some? {
          transition := Confirming(transition.pending, transition.moving, proof.value);
        } else if transition.moving {
          Fail();
        } else {
          Release();
        }
      }
    }

    /** The confirmation, the token and its owner change together, under the input lock. */
    method ConfirmTakeover(e: Env, token: Id)
      requires token !in granted
      modifies this, controller
      ensures View() == ConfirmGrant(old(View()), e, token)
    {
      if transition.Confirming? && input == Free {
        var moving := transition.moving;
        var r := controller.ConfirmTakeover(e, identity, transition.pending.revision, transition.observation);
        var state := StateOf(r);
        if state.None? || state.value.lease.None? {
          if moving { Fail(); } else { Release(); }
        } else {
          inputOwner, inputToken := Some(state.value.lease.value.owner), Some(token);
          input, transition := HeldByTransition, Announcing(moving);
          granted := granted[token := state.value.lease.value.id];
        }
      }
    }

    method AnnounceGrant(ok: bool, e: Env)
      modifies this, controller
      ensures View() == GrantAnnounced(old(View()), ok, e)
    {
      if transition.Announcing? {
        if !ok {
          inputToken := None;
          blocked := true;
          if inputOwner.Some? { var _ := controller.Pause(e, identity, inputOwner.value); }
        }
        Release();
      }
    }

    method Reconcile(e: Env, f: Env, g: Env, live: bool)
      modifies this, controller
      ensures View() == ReconcileInput(old(View()), e, f, g, live)
    {
      if transition == Idle {
        var state := ReadState(e);
        if state.Some? && inputToken.Some? {
          var ok := Authorize(f, live, inputToken.value);
          if !ok {
            var revoked := state.value.mode != Human;
            if !revoked && inputOwner.Some? {
              var paused := PauseOwned(g, inputOwner.value);
              revoked := paused.Some?;
            }
            if revoked {
              inputToken := None;
              transition := Publishing(ForRevocation);
            }
          }
        }
      }
    }

    method Disconnect(e: Env, f: Env, token: Id)
      modifies this, controller
      ensures View() == DisconnectViewer(old(View()), e, f, token)
    {
      if transition == Idle && inputToken == Some(token) {
        var state := ReadState(e);
        if state.Some? {
          var revoked := true;
          if state.value.mode == Human && state.value.lease.Some? && Some(state.value.lease.value.owner) == inputOwner {
            var paused := PauseOwned(f, state.value.lease.value.owner);
            revoked := paused.Some?;
          }
          if revoked {
            inputToken := None;
            transition := Publishing(ForRevocation);
          }
        }
      }
    }

    method PublishReply(ok: bool)
      modifies this
      ensures View() == PublishAnswered(old(View()), ok)
    {
      if transition.Publishing? {
        if ok { transition := WaitingToDrain(transition.purpose); } else { Fail(); }
      }
    }

    method BeginDrain()
      modifies this
      ensures View() == StartDrain(old(View()))
    {
      if transition.WaitingToDrain? && input == Free {
        input := HeldByTransition;
        transition := Draining(transition.purpose);
      }
    }

    method EndDrain(ok: bool, e: Env)
      modifies this, controller
      ensures View() == StreamingModel.EndDrain(old(View()), ok, e)
    {
      if transition.Draining? {
        var purpose := transition.purpose;
        if !ok {
          Fail();
        } else {
          Release();
          match purpose
          case ForRevocation => inputOwner := None;
          case ForGrant(pending, moving) =>
            inputOwner := None;
            transition := StreamingModel.Fencing(pending, moving);
          case ForHandback(viewer, revision) =>
            transition := Observing(viewer, revision);
            log := log + [Drained(revision)];
          case ForMove(viewer, request, revision, auth) =>
            inputOwner := None;
            var r := controller.RequestTakeover(e, identity, viewer, request, revision, auth);
            var state := StateOf(r);
            if state.Some? { Grant(state.value, true); } else { Fail(); }
        }
      }
    }

    method Handback(viewer: OwnerBinding, lease: Id, revision: int)
      modifies this
      ensures View() == BeginHandback(old(View()), viewer, lease, revision)
    {
      if transition == Idle { transition := AwaitingReturn(viewer, lease, revision); }
    }

    method LockReturn(e: Env)
      modifies this, controller
      ensures View() == StreamingModel.LockReturn(old(View()), e)
    {
      if transition.AwaitingReturn? && input == Free {
        var viewer, lease, revision := transition.who, transition.lease, transition.revision;
        var state := ReadState(e);
        if state.Some? && state.value.mode == Human && state.value.lease.Some? && state.value.lease.value.owner == viewer
           && state.value.lease.value.id == lease && state.value.revision == revision {
          input := HeldByTransition;
          transition := CheckingSensitive(viewer, lease, revision);
        } else {
          Release();
        }
      }
    }

    method RevokeForReturn(clear: bool, e: Env)
      modifies this, controller
      ensures View() == StreamingModel.RevokeForReturn(old(View()), clear, e)
    {
      if transition.CheckingSensitive? {
        var viewer, lease, revision := transition.who, transition.lease, transition.revision;
        if clear {
          var r := controller.BeginReturn(e, identity, viewer, lease, revision);
          var state := StateOf(r);
          Release();
          if state.Some? {
            inputToken := None;
            transition := Publishing(ForHandback(viewer, state.value.revision));
            log := log + [Revoked(state.value.revision)];
          }
        } else {
          Release();
        }
      }
    }

    method ObserveReply(ok: bool)
      modifies this
      ensures View() == ObservationAnswered(old(View()), ok)
    {
      if transition.Observing? {
        if ok { transition := Resuming(transition.who, transition.revision); } else { Fail(); }
      }
    }

    method ResumeReply(ok: bool)
      modifies this
      ensures View() == ResumeAnswered(old(View()), ok)
    {
      if transition.Resuming? {
        if ok {
          handover := Some(HumanReturn(identity, transition.who, transition.revision, true));
          inputOwner := None;
          transition := Idle;
        } else {
          Fail();
        }
      }
    }

    /** The coroutine of the transition is cancelled at its await. */
    method Cancel()
      modifies this
      ensures View() == CancelTransition(old(View()))
    {
      if transition != Idle { Release(); }
    }

    method Shutdown()
      modifies this
      ensures View() == ShutDown(old(View()))
    {
      blocked := true;
      inputToken := None;
    }

    /** The admission of the follow-up run consumes the handover only if it succeeds. */
    method AdmitFollowUp(e: Env, owner: OwnerBinding, run: RunBinding, revision: int, ended: Option<RunTerminal>) returns (admitted: bool)
      modifies this, controller
      ensures View() == StreamingModel.AdmitFollowUp(old(View()), e, owner, run, revision, ended)
    {
      ghost var loaded := Load(controller.rows, e, identity);
      var r := controller.AdmitRun(e, identity, owner, run, None, revision, ended, handover);
      admitted := StateOf(r).Some?;
      if admitted {
        handover := None;
        if loaded.Success? && loaded.value.mode == Paused { log := log + [Admitted(revision)]; }
      }
    }
  }
}
