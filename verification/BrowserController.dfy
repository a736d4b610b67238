/** The controller object: each method is one transaction over the stored rows, written step by step,
    and commits exactly what the transition function of ControlModel says or nothing at all. */
module BrowserControllers {
  import opened Wrappers
  import opened ControlModel

  /** A call either commits the specified store and answer, or is rejected and commits nothing. */
  ghost predicate Commits(spec: Result<(Store, Reply), ControlError>, before: Store, after: Store, r: Result<Reply, ControlError>) {
    match spec
    case Success(committed) => after == committed.0 && r == Success(committed.1)
    case Failure(error) => after == before && r == Failure(error)
  }

  class BrowserController {
    var rows: Store

    constructor ()
      ensures rows == map[]
    {
      rows := map[];
    }

    /** Opens a transaction: admission if the call needs it, then the row, lazily expired. */
    method Begin(e: Env, id: BrowserIdentity, admission: bool) returns (r: Result<ControlState, ControlError>)
      ensures r == if admission && Admission(e).Some? then Failure(Admission(e).value) else Load(rows, e, id)
    {
      if admission {
        var refused := Admission(e);
        if refused.Some? { return Failure(refused.value); }
      }
      if id.conversation !in rows { return Failure(BrowserUnknown); }
      var state := rows[id.conversation];
      if state.identity != id { return Failure(StaleBrowser); }
      r := LazyExpiry(state, e);
    }

    method LazyExpiry(stored: ControlState, e: Env) returns (r: Result<ControlState, ControlError>)
      ensures r == Expire(stored, e)
    {
      var state := stored;
      if state.lease.Some? {
        if e.now.None? { return Failure(ClockUnavailable); }
        if state.lease.value.expires <= e.now.value {
          var interrupted := state.active.Some? && state.active.value.HumanCommand?;
          state := state.(mode := if interrupted then Recovering else Paused, revision := state.revision + 1, lease := None);
        }
      }
      return Success(state);
    }

    method Save(state: ControlState)
      modifies `rows
      ensures rows == old(rows)[state.identity.conversation := state]
    {
      rows := rows[state.identity.conversation := state];
    }

    method BindBrowser(e: Env, id: BrowserIdentity, run: Option<RunBinding>, principal: Id) returns (r: Result<Reply, ControlError>)
      requires forall c | c in rows :: rows[c].identity.conversation == c
      modifies `rows
      ensures Commits(Apply(old(rows), e, Bind(id, run, principal)), old(rows), rows, r)
    {
      if !IsIdentifier(principal) { return Failure(InvalidBinding); }
      if run.Some? && run.value.session != id.session { return Failure(RunMismatch); }
      var refused := Admission(e);
      if refused.Some? { return Failure(refused.value); }
      if exists c | c in rows :: !rows[c].retired && rows[c].identity.session == id.session && c != id.conversation {
        return Failure(NativeSessionAlreadyBound);
      }
      var revision, previousPage := 1, None;
      if id.conversation in rows {
        var existing :- LazyExpiry(rows[id.conversation], e);
        if existing.identity == id {
          if existing.retired { return Failure(BrowserRetired); }
          if existing.admitted != run || existing.principal != principal { return Failure(RunMismatch); }
          Save(existing);
          return Success(StateReply(existing));
        }
        if !existing.retired { return Failure(PreviousGenerationUnresolved); }
        if existing.principal != principal { return Failure(OwnerMismatch); }
        revision, previousPage := existing.revision + 1, existing.previousPage;
      }
      var state := ControlState(id, principal, if run.Some? then Agent else Paused, revision, run, None, None, None, 0, None,
                                false, None, previousPage);
      Save(state);
      return Success(StateReply(state));
    }

    method State(e: Env, id: BrowserIdentity) returns (r: Result<Reply, ControlError>)
      modifies `rows
      ensures Commits(ApplyRow(old(rows), e, id, Read), old(rows), rows, r)
    {
      var state :- Begin(e, id, false);
      Save(state);
      return Success(StateReply(state));
    }

    method RecordPage(e: Env, id: BrowserIdentity, current: Option<Page>, previous: Option<Page>) returns (r: Result<Reply, ControlError>)
      modifies `rows
      ensures Commits(ApplyRow(old(rows), e, id, RowOp.RecordPage(current, previous)), old(rows), rows, r)
    {
      if current.Some? && !IsPage(current.value) { return Failure(InvalidPageContext); }
      if previous.Some? && !IsPage(previous.value) { return Failure(InvalidPageContext); }
      var state :- Begin(e, id, false);
      if state.retired { return Failure(BrowserRetired); }
      Save(state.(currentPage := current, previousPage := previous));
      return Success(NoReply);
    }

    method AdmitRun(e: Env, id: BrowserIdentity, owner: OwnerBinding, run: RunBinding, leaseId: Option<Id>, revision: int,
                    ended: Option<RunTerminal>, handover: Option<HumanReturn>) returns (r: Result<Reply, ControlError>)
      modifies `rows
      ensures Commits(ApplyRow(old(rows), e, id, RowOp.AdmitRun(owner, run, leaseId, revision, ended, handover)), old(rows), rows, r)
    {
      if run.session != id.session { return Failure(RunMismatch); }
      var state :- Begin(e, id, true);
      if state.mode == Human {
        var denied := LeaseError(state, owner, leaseId, revision);
        if denied.Some? { return Failure(denied.value); }
      } else if state.mode == Agent && leaseId.None? {
        if owner.principal != state.principal { return Failure(OwnerMismatch); }
        if state.retired || state.revision != revision { return Failure(StaleControl); }
      } else if state.mode == Paused && leaseId.None? {
        if owner.principal != state.principal { return Failure(OwnerMismatch); }
        if state.retired || state.revision != revision || handover.None? || handover.value.identity != id
           || handover.value.owner != owner || handover.value.revision != revision || !handover.value.quiescent {
          return Failure(QuiescenceUnproven);
        }
      } else {
        return Failure(ControlLeaseUnavailable);
      }
      if state.active.Some? { return Failure(BrowserControlBusy); }
      var prior := state.admitted;
      if prior.Some? && (run.run == prior.value.run || run.dispatchKey == prior.value.dispatchKey
                         || !ProvesEnd(ended, prior.value)) {
        return Failure(PreviousRunNotTerminal);
      }
      if prior.None? && ended.Some? { return Failure(RunMismatch); }
      state := state.(mode := Agent, revision := state.revision + 1, admitted := Some(run), lease := None, takeoverAfter := None);
      Save(state);
      return Success(StateReply(state));
    }

    method ReserveAgent(e: Env, id: BrowserIdentity, run: RunBinding, command: Id) returns (r: Result<Reply, ControlError>)
      modifies `rows
      ensures Commits(ApplyRow(old(rows), e, id, RowOp.ReserveAgent(run, command)), old(rows), rows, r)
    {
      if !IsIdentifier(command) { return Failure(InvalidBinding); }
      var state :- Begin(e, id, true);
      if state.retired || state.admitted != Some(run) { return Failure(RunMismatch); }
      if state.mode != Agent || state.active.Some? { return Failure(BrowserControlBlocked); }
      var reserved := AgentCommand(command, run);
      Save(state.(active := Some(reserved)));
      return Success(CommandReply(reserved));
    }

    /** `Applied` stands for the outcome "completed". */
    method CompleteAgent(e: Env, id: BrowserIdentity, run: RunBinding, command: Id, outcome: Outcome) returns (r: Result<Reply, ControlError>)
      modifies `rows
      ensures Commits(ApplyRow(old(rows), e, id, RowOp.CompleteAgent(run, command, outcome)), old(rows), rows, r)
    {
      if outcome != Applied && outcome != Uncertain { return Failure(InvalidOutcome); }
      var state :- Begin(e, id, false);
      var active := state.active;
      if active.None? || !active.value.AgentCommand? || active.value.run != run || active.value.id != command
         || state.admitted != Some(run) {
        return Failure(CommandMismatch);
      }
      if outcome == Applied {
        state := state.(active := None);
      } else {
        state := state.(mode := Recovering, revision := state.revision + 1, lease := None);
      }
      Save(state);
      return Success(StateReply(state));
    }

    method RequestTakeover(e: Env, id: BrowserIdentity, owner: OwnerBinding, request: Id, revision: int, authExpires: Option<Time>)
      returns (r: Result<Reply, ControlError>)
      modifies `rows
      ensures Commits(ApplyRow(old(rows), e, id, RowOp.RequestTakeover(owner, request, revision, authExpires)), old(rows), rows, r)
    {
      if !IsIdentifier(request) || revision < 1 { return Failure(InvalidBinding); }
      if e.earlier.None? { return Failure(ClockUnavailable); }
      if authExpires.None? || authExpires.value <= e.earlier.value { return Failure(AuthenticationExpired); }
      var state :- Begin(e, id, true);
      if owner.principal != state.principal { return Failure(OwnerMismatch); }
      if state.lease.Some? {
        var held := state.lease.value;
        if held.owner != owner || held.request != request || held.requestRevision != revision {
          return Failure(BrowserControlBusy);
        }
        Save(state);
        return Success(StateReply(state));
      }
      if state.revision != revision { return Failure(StaleControl); }
      if state.retired || state.mode !in {Agent, Paused} { return Failure(BrowserControlBlocked); }
      var expires := e.earlier.value + e.leaseSeconds;
      if authExpires.value < expires { expires := authExpires.value; }
      var lease := HumanLease(e.uuid, owner, request, revision, expires, authExpires.value, false, 0);
      var takeoverAfter := None;
      if state.active.Some? { takeoverAfter := Some(state.active.value.id); }
      state := state.(mode := TakeoverPending, revision := state.revision + 1, lease := Some(lease),
                      takeoverAfter := takeoverAfter, lastSequence := 0);
      Save(state);
      return Success(StateReply(state));
    }

    method ConfirmTakeover(e: Env, id: BrowserIdentity, revision: int, observation: FenceObservation) returns (r: Result<Reply, ControlError>)
      modifies `rows
      ensures Commits(ApplyRow(old(rows), e, id, RowOp.ConfirmTakeover(revision, observation)), old(rows), rows, r)
    {
      var state :- Begin(e, id, true);
      if state.mode != TakeoverPending || state.lease.None? || state.active.Some? || state.revision != revision
         || observation.identity != id || !observation.quiescent || observation.preceding != state.takeoverAfter {
        return Failure(QuiescenceUnproven);
      }
      state := state.(mode := Human, revision := state.revision + 1, takeoverAfter := None);
      Save(state);
      return Success(StateReply(state));
    }

    method ReserveInput(e: Env, id: BrowserIdentity, owner: OwnerBinding, lease: Id, revision: int, sequence: int)
      returns (r: Result<Reply, ControlError>)
      modifies `rows
      ensures Commits(ApplyRow(old(rows), e, id, RowOp.ReserveInput(owner, lease, revision, sequence)), old(rows), rows, r)
    {
      if sequence < 1 { return Failure(InvalidBinding); }
      var state :- Begin(e, id, true);
      var denied := LeaseError(state, owner, Some(lease), revision);
      if denied.Some? { return Failure(denied.value); }
      if state.lastInput.Some? && state.lastInput.value.lease == lease && state.lastInput.value.sequence == sequence {
        Save(state);
        return Success(AckReply(Ack(state, state.lastInput.value, false)));
      }
      if sequence <= state.lastSequence { return Failure(StaleInput); }
      if sequence != state.lastSequence + 1 { return Failure(InputSequenceMismatch); }
      if state.active.Some? { return Failure(BrowserControlBusy); }
      var receipt := InputReceipt(lease, sequence, e.uuid, Reserved);
      var command := HumanCommand(receipt.command, lease, sequence);
      state := state.(active := Some(command), lastSequence := sequence, lastInput := Some(receipt));
      Save(state);
      return Success(AckReply(Ack(state, receipt, true)));
    }

    method CompleteInput(e: Env, id: BrowserIdentity, lease: Id, sequence: int, command: Id, outcome: Outcome)
      returns (r: Result<Reply, ControlError>)
      modifies `rows
      ensures Commits(ApplyRow(old(rows), e, id, RowOp.CompleteInput(lease, sequence, command, outcome)), old(rows), rows, r)
    {
      if sequence < 1 { return Failure(InvalidBinding); }
      if outcome == Reserved { return Failure(InvalidOutcome); }
      var state :- Begin(e, id, false);
      if state.lastInput.None? { return Failure(CommandMismatch); }
      var receipt := state.lastInput.value;
      if receipt.lease != lease || receipt.sequence != sequence || receipt.command != command { return Failure(CommandMismatch); }
      if receipt.outcome == Applied || receipt.outcome == Rejected {
        if receipt.outcome != outcome { return Failure(AckConflict); }
        Save(state);
        return Success(AckReply(Ack(state, receipt, false)));
      }
      if state.active != Some(HumanCommand(command, lease, sequence)) { return Failure(CommandMismatch); }
      receipt := receipt.(outcome := outcome);
      state := state.(lastInput := Some(receipt));
      if outcome == Uncertain {
        state := state.(mode := Recovering, revision := state.revision + 1, lease := None);
      } else {
        state := state.(active := None);
      }
      Save(state);
      return Success(AckReply(Ack(state, receipt, false)));
    }

    method Heartbeat(e: Env, id: BrowserIdentity, owner: OwnerBinding, lease: Id, revision: int, renewed: Option<Time>)
      returns (r: Result<Reply, ControlError>)
      modifies `rows
      ensures Commits(ApplyRow(old(rows), e, id, RowOp.Heartbeat(owner, lease, revision, renewed)), old(rows), rows, r)
    {
      var state :- Begin(e, id, true);
      var denied := LeaseError(state, owner, Some(lease), revision);
      if denied.Some? { return Failure(denied.value); }
      var held := state.lease.value;
      if renewed.Some? {
        if e.later.None? { return Failure(ClockUnavailable); }
        if renewed.value <= e.later.value { return Failure(AuthenticationExpired); }
        held := held.(authExpires := renewed.value);
      }
      if e.latest.None? { return Failure(ClockUnavailable); }
      held := held.(expires := MinTime(e.latest.value + e.leaseSeconds, held.authExpires));
      state := state.(lease := Some(held));
      Save(state);
      return Success(StateReply(state));
    }

    method ObservationMode(e: Env, id: BrowserIdentity, owner: OwnerBinding, lease: Id, revision: int, observe: bool)
      returns (r: Result<Reply, ControlError>)
      modifies `rows
      ensures Commits(ApplyRow(old(rows), e, id, RowOp.ObservationMode(owner, lease, revision, observe)), old(rows), rows, r)
    {
      var state :- Begin(e, id, true);
      var denied := LeaseError(state, owner, Some(lease), revision);
      if denied.Some? { return Failure(denied.value); }
      var held := state.lease.value;
      if held.observing != observe {
        held := held.(observing := observe, epoch := held.epoch + 1);
        state := state.(lease := Some(held), revision := state.revision + 1);
      }
      Save(state);
      return Success(StateReply(state));
    }

    method AuthorizeObservation(e: Env, id: BrowserIdentity, owner: OwnerBinding, lease: Id, epoch: int)
      returns (r: Result<Reply, ControlError>)
      modifies `rows
      ensures Commits(ApplyRow(old(rows), e, id, RowOp.AuthorizeObservation(owner, lease, epoch)), old(rows), rows, r)
    {
      var state :- Begin(e, id, true);
      if owner.principal != state.principal { return Failure(OwnerMismatch); }
      var held := state.lease;
      if state.retired || state.mode != Human || held.None? || held.value.owner != owner || held.value.id != lease
         || !held.value.observing || held.value.epoch != epoch {
        return Failure(BrowserObservationDenied);
      }
      Save(state);
      return Success(StateReply(state));
    }

    method BeginReturn(e: Env, id: BrowserIdentity, owner: OwnerBinding, lease: Id, revision: int) returns (r: Result<Reply, ControlError>)
      modifies `rows
      ensures Commits(ApplyRow(old(rows), e, id, RowOp.BeginReturn(owner, lease, revision)), old(rows), rows, r)
    {
      var state :- Begin(e, id, false);
      var denied := LeaseError(state, owner, Some(lease), revision);
      if denied.Some? { return Failure(denied.value); }
      state := state.(mode := Paused, revision := state.revision + 1, lease := None);
      Save(state);
      return Success(StateReply(state));
    }

    method Presence(e: Env, id: BrowserIdentity, owner: OwnerBinding, revision: int) returns (r: Result<Reply, ControlError>)
      modifies `rows
      ensures Commits(ApplyRow(old(rows), e, id, RowOp.Presence(owner, revision)), old(rows), rows, r)
    {
      var state :- Begin(e, id, true);
      if owner.principal != state.principal { return Failure(OwnerMismatch); }
      if state.retired || state.mode !in {Agent, Paused} || state.revision != revision { return Failure(StaleControl); }
      Save(state);
      return Success(StateReply(state));
    }

    method BeginClose(e: Env, id: BrowserIdentity, owner: OwnerBinding, revision: int, ended: Option<RunTerminal>)
      returns (r: Result<Reply, ControlError>)
      modifies `rows
      ensures Commits(ApplyRow(old(rows), e, id, RowOp.BeginClose(owner, revision, ended)), old(rows), rows, r)
    {
      var state :- Begin(e, id, true);
      if owner.principal != state.principal { return Failure(OwnerMismatch); }
      if state.retired || state.mode !in {Agent, Paused} || state.revision != revision || state.active.Some? {
        return Failure(BrowserControlBusy);
      }
      if state.admitted.Some? && !ProvesEnd(ended, state.admitted.value) { return Failure(PreviousRunNotTerminal); }
      state := state.(mode := Paused, revision := state.revision + 1, lease := None);
      Save(state);
      return Success(StateReply(state));
    }

    method Pause(e: Env, id: BrowserIdentity, owner: OwnerBinding) returns (r: Result<Reply, ControlError>)
      modifies `rows
      ensures Commits(ApplyRow(old(rows), e, id, RowOp.Pause(owner)), old(rows), rows, r)
    {
      var state :- Begin(e, id, false);
      if owner.principal != state.principal { return Failure(OwnerMismatch); }
      if state.lease.None? || state.lease.value.owner != owner { return Failure(ControlLeaseUnavailable); }
      state := state.(mode := Paused, revision := state.revision + 1, lease := None);
      Save(state);
      return Success(StateReply(state));
    }

    /** Exclusive startup: visits every stored row once, in whatever order the query returns them. */
    /** One row found by a restart. */
    method RecoverRow(c: Id)
      requires c in rows && rows[c].identity.conversation == c
      modifies `rows
      ensures rows == old(rows)[c := Recovered(old(rows)[c])]
    {
      var state := rows[c];
      if !state.retired {
        if state.active.Some? {
          var receipt := state.lastInput;
          if receipt.Some? && receipt.value.outcome == Reserved {
            receipt := Some(receipt.value.(outcome := Uncertain));
          }
          Save(state.(mode := Recovering, revision := state.revision + 1, lease := None, lastInput := receipt));
        } else if state.mode in {Agent, Human, TakeoverPending} {
          Save(state.(mode := Paused, revision := state.revision + 1, lease := None));
        }
      }
    }

    method RecoverStartup(e: Env) returns (r: Result<Reply, ControlError>)
      requires forall c | c in rows :: rows[c].identity.conversation == c
      modifies `rows
      ensures Commits(Apply(old(rows), e, Op.RecoverStartup), old(rows), rows, r)
    {
      var pending := rows.Keys;
      while pending != {}
        invariant pending <= rows.Keys == old(rows).Keys
        invariant forall c | c in rows :: rows[c] == if c in pending then old(rows)[c] else Recovered(old(rows)[c])
        decreases |pending|
      {
        var c :| c in pending;
        pending := pending - {c};
        RecoverRow(c);
      }
      return Success(NoReply);
    }

    method RetireBrowser(e: Env, id: BrowserIdentity, observed: Retirement) returns (r: Result<Reply, ControlError>)
      modifies `rows
      ensures Commits(ApplyRow(old(rows), e, id, RowOp.Retire(observed)), old(rows), rows, r)
    {
      if observed.identity != id || !observed.processGone || !observed.channelClosed { return Failure(RetirementUnproven); }
      var state :- Begin(e, id, false);
      if !state.retired {
        var receipt := state.lastInput;
        if receipt.Some? && receipt.value.outcome == Reserved {
          receipt := Some(receipt.value.(outcome := Uncertain));
        }
        var previousPage := state.previousPage;
        if state.currentPage.Some? { previousPage := state.currentPage; }
        state := state.(mode := Paused, revision := state.revision + 1, admitted := None, active := None, lease := None,
                        takeoverAfter := None, lastInput := receipt, retired := true, currentPage := None,
                        previousPage := previousPage);
      }
      Save(state);
      return Success(StateReply(state));
    }
  }
}
