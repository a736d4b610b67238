/** What each call of the controller does, in the row's own terms and in both directions: exactly when it succeeds and
    exactly what it leaves, and what one call undoes of another. */
module ControlEffects {
  import opened Wrappers
  import opened ControlModel
  import opened ControlProofs

  /** The stored row of this generation, with no lease that has run out. */
  predicate Stands(store: Store, e: Env, id: BrowserIdentity, s: ControlState) {
    && id.conversation in store && store[id.conversation] == s && s.identity == id
    && (s.lease.Some? ==> e.now.Some? && e.now.value < s.lease.value.expires)
  }

  predicate Admitting(e: Env) {
    e.held == Some(false)
  }

  /** The owner holds the browser under this lease at this revision. */
  predicate HeldBy(s: ControlState, owner: OwnerBinding, lease: Id, revision: int) {
    && s.mode == Human && !s.retired && s.revision == revision && s.principal == owner.principal
    && s.lease.Some? && s.lease.value.id == lease && s.lease.value.owner == owner
  }

  /** A terminal record of exactly this run. */
  predicate Over(run: RunBinding, ended: Option<RunTerminal>) {
    exists status :: status in TERMINAL_STATUSES && ended == Some(RunTerminal(run.run, run.session, status))
  }

  /** The call committed row t, changed no other row, and answered the row. */
  predicate Leaves(store: Store, id: BrowserIdentity, t: ControlState, r: Result<(Store, Reply), ControlError>) {
    r == Success((store[id.conversation := t], StateReply(t)))
  }

  // ---------------------------------------------------------------- before any call: the row, its expiry, maintenance

  /** A read shows the row as it is until its lease runs out; from then on the lease is gone, at a new revision, and the
      row is paused, or stuck if an input of the owner was outstanding. */
  lemma LeasesEndAtTheirExpiry(store: Store, e: Env, id: BrowserIdentity)
    requires id.conversation in store && store[id.conversation].identity == id
    ensures var s, r := store[id.conversation], ApplyRow(store, e, id, Read);
            && (r.Failure? <==> s.lease.Some? && e.now.None?)
            && (s.lease.None? || (e.now.Some? && e.now.value < s.lease.value.expires) ==> Leaves(store, id, s, r))
            && (s.lease.Some? && e.now.Some? && s.lease.value.expires <= e.now.value ==>
                  var inputLost := exists i, l, n :: s.active == Some(HumanCommand(i, l, n));
                  Leaves(store, id, s.(mode := if inputLost then Recovering else Paused, revision := s.revision + 1, lease := None), r))
  {
    var s := store[id.conversation];
    if s.active.Some? && s.active.value.HumanCommand? {
      assert s.active == Some(HumanCommand(s.active.value.id, s.active.value.lease, s.active.value.sequence));
    }
  }

  /** Every call finds the row just as a read at the same moment would have left it. */
  lemma ReadingFirstChangesNothing(store: Store, e: Env, id: BrowserIdentity, op: RowOp)
    ensures var read := ApplyRow(store, e, id, Read);
            if read.Success? then ApplyRow(read.value.0, e, id, op) == ApplyRow(store, e, id, op)
            else ApplyRow(store, e, id, op).Failure?
  {
    var read := ApplyRow(store, e, id, Read);
    if read.Success? {
      var s := read.value.1.state;
      assert Load(read.value.0, e, id) == Success(s);
      if ApplyRow(store, e, id, op).Success? {
        var t := ApplyRow(store, e, id, op).value.0[id.conversation];
        assert store[id.conversation := s][id.conversation := t] == store[id.conversation := t];
      }
    }
  }

  /** A browser nobody bound, or another generation of it, is never touched. */
  lemma OtherGenerationsAreRefused(store: Store, e: Env, id: BrowserIdentity, op: RowOp)
    requires id.conversation !in store || store[id.conversation].identity != id
    ensures ApplyRow(store, e, id, op).Failure?
  {
  }

  /** Maintenance, or not knowing about it, refuses new work; what ends work goes on as if there were none. */
  lemma MaintenanceOnlyLetsWorkEnd(store: Store, e: Env, id: BrowserIdentity, op: RowOp, held: Option<bool>)
    ensures match op
            case Read | RecordPage(_, _) | CompleteAgent(_, _, _) | CompleteInput(_, _, _, _) | BeginReturn(_, _, _) | Pause(_)
              | Retire(_) => ApplyRow(store, e.(held := held), id, op) == ApplyRow(store, e, id, op)
            case _ => e.held != Some(false) ==> ApplyRow(store, e, id, op).Failure?
  {
  }

  // ---------------------------------------------------------------- runs

  /** Who may admit a run: the owner out of the human lease, the platform between runs of the agent, or out of a pause
      whoever proves that the owner handed back at exactly this revision. */
  predicate MayAdmit(s: ControlState, owner: OwnerBinding, lease: Option<Id>, revision: int, handover: Option<HumanReturn>) {
    match lease
    case Some(l) => HeldBy(s, owner, l, revision)
    case None =>
      && !s.retired && s.principal == owner.principal && s.revision == revision
      && (s.mode == Agent || (s.mode == Paused && handover == Some(HumanReturn(s.identity, owner, revision, true))))
  }

  /** Runs follow one another: a run is admitted exactly on authority, with no command outstanding, and with proof that
      the run before it, if any, has ended; it is another run under another dispatch key. The lease is gone with its
      admission. */
  lemma RunsFollowOneAnother(store: Store, e: Env, id: BrowserIdentity, s: ControlState, owner: OwnerBinding, run: RunBinding,
                             lease: Option<Id>, revision: int, ended: Option<RunTerminal>, handover: Option<HumanReturn>)
    requires Stands(store, e, id, s) && Admitting(e)
    ensures var r := ApplyRow(store, e, id, RowOp.AdmitRun(owner, run, lease, revision, ended, handover));
            && (r.Success? <==>
                  && MayAdmit(s, owner, lease, revision, handover) && run.session == id.session && s.active.None?
                  && match s.admitted
                     case None => ended.None?
                     case Some(prior) => Over(prior, ended) && run.run != prior.run && run.dispatchKey != prior.dispatchKey)
            && (r.Success? ==>
                  Leaves(store, id, s.(mode := Agent, revision := s.revision + 1, admitted := Some(run), lease := None,
                                       takeoverAfter := None), r))
  {
    if s.admitted.Some? && ProvesEnd(ended, s.admitted.value) {
      assert ended == Some(RunTerminal(s.admitted.value.run, s.admitted.value.session, ended.value.status));
    }
  }

  /** A command of the agent leaves no trace once it was positively completed: the row is the row from before its
      reservation, and the next command of the run can be reserved. */
  lemma AgentCommandsComeAndGo(store: Store, e: Env, f: Env, g: Env, id: BrowserIdentity, run: RunBinding, command: Id, next: Id)
    requires ApplyRow(store, e, id, RowOp.ReserveAgent(run, command)).Success?
    requires StoreConsistent(store) && Admitting(g) && IsIdentifier(next)
    ensures var reserved := ApplyRow(store, e, id, RowOp.ReserveAgent(run, command));
            var done := ApplyRow(reserved.value.0, f, id, RowOp.CompleteAgent(run, command, Applied));
            && reserved.value.1 == CommandReply(AgentCommand(command, run))
            && Leaves(store, id, store[id.conversation], done) && done.value.0 == store
            && ApplyRow(done.value.0, g, id, RowOp.ReserveAgent(run, next)).Success?
  {
    assert Consistent(store[id.conversation]);
    var s := store[id.conversation];
    var t := s.(active := Some(AgentCommand(command, run)));
    assert ApplyRow(store, e, id, RowOp.ReserveAgent(run, command)).value.0 == store[id.conversation := t];
    assert t.(active := None) == s;
    assert store[id.conversation := t][id.conversation := s] == store;
    assert store[id.conversation := s] == store;
  }

  /** The slot goes to the admitted run in agent mode, one command at a time; only its own completion is accepted, and an
      uncertain one leaves the command in the slot of a row that is stuck at a new revision. */
  lemma TheSlotBelongsToTheRun(store: Store, e: Env, id: BrowserIdentity, s: ControlState, run: RunBinding, command: Id, outcome: Outcome)
    requires Stands(store, e, id, s)
    ensures Admitting(e) ==>
              var r := ApplyRow(store, e, id, RowOp.ReserveAgent(run, command));
              && (r.Success? <==> 1 <= |command| <= 512 && s.mode == Agent && !s.retired && s.admitted == Some(run) && s.active.None?)
              && (r.Success? ==> r.value == (store[id.conversation := s.(active := Some(AgentCommand(command, run)))],
                                             CommandReply(AgentCommand(command, run))))
    ensures var r := ApplyRow(store, e, id, RowOp.CompleteAgent(run, command, outcome));
            && (r.Success? <==> outcome in {Applied, Uncertain} && s.admitted == Some(run) && s.active == Some(AgentCommand(command, run)))
            && (r.Success? && outcome == Uncertain ==>
                  Leaves(store, id, s.(mode := Recovering, revision := s.revision + 1, lease := None), r))
  {
  }

  // ---------------------------------------------------------------- takeover

  /** A takeover is requested exactly at the current revision of a free agent or paused browser; it opens a lease in the
      owner's name, until the lease term or the end of the owner's authentication, behind the command outstanding now. The
      same request again shows the standing lease and changes nothing. */
  lemma RequestsOpenOneLease(store: Store, e: Env, id: BrowserIdentity, s: ControlState, owner: OwnerBinding, request: Id,
                             revision: int, auth: Option<Time>)
    requires Stands(store, e, id, s) && Admitting(e)
    ensures var r := ApplyRow(store, e, id, RowOp.RequestTakeover(owner, request, revision, auth));
            && (r.Success? <==>
                  && 1 <= |request| <= 512 && 1 <= revision && e.earlier.Some? && auth.Some? && e.earlier.value < auth.value
                  && owner.principal == s.principal
                  && match s.lease
                     case Some(l) => l.owner == owner && l.request == request && l.requestRevision == revision
                     case None => !s.retired && s.mode in {Agent, Paused} && s.revision == revision)
            && (r.Success? && s.lease.Some? ==> Leaves(store, id, s, r))
            && (r.Success? && s.lease.None? ==>
                  exists l: HumanLease ::
                    && Leaves(store, id, s.(mode := TakeoverPending, revision := revision + 1, lease := Some(l), lastSequence := 0,
                                            takeoverAfter := match s.active case Some(c) => Some(c.id) case None => None), r)
                    && l.id == e.uuid && l.owner == owner && l.request == request && l.requestRevision == revision
                    && l.authExpires == auth.value && l.expires <= auth.value && l.expires <= e.earlier.value + e.leaseSeconds
                    && (l.expires == auth.value || l.expires == e.earlier.value + e.leaseSeconds)
                    && !l.observing && l.epoch == 0)
  {
    var r := ApplyRow(store, e, id, RowOp.RequestTakeover(owner, request, revision, auth));
    if r.Success? && s.lease.None? {
      var t := r.value.1.state;
      assert r.value.0 == store[id.conversation := t];
      var l := t.lease.value;
      assert t == s.(mode := TakeoverPending, revision := revision + 1, lease := Some(l), lastSequence := 0,
                     takeoverAfter := match s.active case Some(c) => Some(c.id) case None => None);
    }
  }

  /** A takeover is confirmed exactly once nothing is outstanding and the browser itself is observed quiescent behind the
      very command that the request found; the lease is the one requested. */
  lemma ConfirmationNeedsTheFence(store: Store, e: Env, id: BrowserIdentity, s: ControlState, revision: int, o: FenceObservation)
    requires Stands(store, e, id, s) && Admitting(e)
    ensures var r := ApplyRow(store, e, id, RowOp.ConfirmTakeover(revision, o));
            && (r.Success? <==> && s.mode == TakeoverPending && s.lease.Some? && s.active.None? && s.revision == revision
                                && o == FenceObservation(id, s.takeoverAfter, true))
            && (r.Success? ==> Leaves(store, id, s.(mode := Human, revision := revision + 1, takeoverAfter := None), r))
  {
  }

  // ---------------------------------------------------------------- the owner's input

  /** The holder's inputs are reserved one at a time, each by the next number; the latest one asked for again is answered
      from its receipt, with nothing to execute; earlier numbers are stale, and later ones out of sequence. */
  lemma InputsAreReservedInOrder(store: Store, e: Env, id: BrowserIdentity, s: ControlState, owner: OwnerBinding, lease: Id,
                                 revision: int, sequence: int)
    requires Stands(store, e, id, s) && Admitting(e)
    ensures var r := ApplyRow(store, e, id, RowOp.ReserveInput(owner, lease, revision, sequence));
            var latest := s.lastInput.Some? && s.lastInput.value.lease == lease && s.lastInput.value.sequence == sequence;
            && (r.Success? <==> && HeldBy(s, owner, lease, revision) && 1 <= sequence
                                && (latest || (sequence == s.lastSequence + 1 && s.active.None?)))
            && (r.Success? && latest ==>
                  r.value == (store, AckReply(InputAck(id, sequence, s.lastInput.value.outcome, false, s.lastInput.value.command, revision))))
            && (r.Success? && !latest ==>
                  && r.value.1 == AckReply(InputAck(id, sequence, Reserved, true, e.uuid, revision))
                  && r.value.0 == store[id.conversation := s.(active := Some(HumanCommand(e.uuid, lease, sequence)),
                                                              lastSequence := sequence,
                                                              lastInput := Some(InputReceipt(lease, sequence, e.uuid, Reserved)))])
            && (HeldBy(s, owner, lease, revision) && 1 <= sequence && !latest ==>
                  && (r == Failure(StaleInput) <==> sequence <= s.lastSequence)
                  && (r == Failure(InputSequenceMismatch) <==> sequence > s.lastSequence + 1))
  {
    assert store[id.conversation := s] == store;
  }

  /** An executed input that was applied or rejected leaves only its receipt and its number: the slot is empty again, the
      lease stands as it was, and the next number can be reserved. */
  lemma InputsComeAndGo(store: Store, e: Env, f: Env, g: Env, id: BrowserIdentity, s: ControlState, owner: OwnerBinding,
                        lease: Id, revision: int, sequence: int, outcome: Outcome)
    requires Stands(store, e, id, s) && Stands(store, f, id, s) && Stands(store, g, id, s) && Admitting(g)
    requires outcome in {Applied, Rejected} && s.lastSequence + 1 == sequence
    requires var r := ApplyRow(store, e, id, RowOp.ReserveInput(owner, lease, revision, sequence));
             r.Success? && r.value.1.AckReply? && r.value.1.ack.execute
    ensures var reserved := ApplyRow(store, e, id, RowOp.ReserveInput(owner, lease, revision, sequence)).value;
            var done := ApplyRow(reserved.0, f, id, RowOp.CompleteInput(lease, sequence, reserved.1.ack.command, outcome));
            && done.Success?
            && done.value.0 == store[id.conversation := s.(lastSequence := sequence,
                                                           lastInput := Some(InputReceipt(lease, sequence, reserved.1.ack.command, outcome)))]
            && done.value.1 == AckReply(InputAck(id, sequence, outcome, false, reserved.1.ack.command, revision))
            && ApplyRow(done.value.0, g, id, RowOp.ReserveInput(owner, lease, revision, sequence + 1)).Success?
  {
    var receipt := InputReceipt(lease, sequence, e.uuid, Reserved);
    var t := s.(active := Some(HumanCommand(e.uuid, lease, sequence)), lastSequence := sequence, lastInput := Some(receipt));
    assert s.active.None?;
    assert ApplyRow(store, e, id, RowOp.ReserveInput(owner, lease, revision, sequence)).value.0 == store[id.conversation := t];
    var u := t.(lastInput := Some(receipt.(outcome := outcome)), active := None);
    assert store[id.conversation := t][id.conversation := u] == store[id.conversation := u];
  }

  /** A completion is accepted exactly for the latest input: the first one while its command is outstanding, and after a
      positive one only the same again. An uncertain one takes the lease and leaves the command outstanding. */
  lemma CompletionsMatchTheirInput(store: Store, e: Env, id: BrowserIdentity, s: ControlState, lease: Id, sequence: int, command: Id,
                                   outcome: Outcome)
    requires Stands(store, e, id, s)
    ensures var r := ApplyRow(store, e, id, RowOp.CompleteInput(lease, sequence, command, outcome));
            && (r.Success? <==>
                  && 1 <= sequence && outcome != Reserved
                  && exists recorded :: && s.lastInput == Some(InputReceipt(lease, sequence, command, recorded))
                                        && if recorded in {Applied, Rejected} then outcome == recorded
                                           else s.active == Some(HumanCommand(command, lease, sequence)))
            && (r.Success? && s.lastInput.value.outcome in {Applied, Rejected} ==>
                  r.value == (store, AckReply(InputAck(id, sequence, outcome, false, command, s.revision))))
            && (r.Success? && s.lastInput.value.outcome !in {Applied, Rejected} && outcome == Uncertain ==>
                  && r.value.0 == store[id.conversation := s.(lastInput := Some(InputReceipt(lease, sequence, command, Uncertain)),
                                                              mode := Recovering, revision := s.revision + 1, lease := None)]
                  && r.value.1 == AckReply(InputAck(id, sequence, Uncertain, false, command, s.revision + 1)))
            && (r.Success? && s.lastInput.value.outcome !in {Applied, Rejected} && outcome != Uncertain ==>
                  && r.value.0 == store[id.conversation := s.(lastInput := Some(InputReceipt(lease, sequence, command, outcome)),
                                                              active := None)]
                  && r.value.1 == AckReply(InputAck(id, sequence, outcome, false, command, s.revision)))
  {
    assert store[id.conversation := s] == store;
    if s.lastInput.Some? {
      var l := s.lastInput.value;
      assert s.lastInput == Some(InputReceipt(l.lease, l.sequence, l.command, l.outcome));
    }
  }

  // ---------------------------------------------------------------- keeping, watching and returning the lease

  /** The holder's heartbeat moves the end of the lease to one term from now, but never past the authentication, which
      only a still valid renewal replaces. Neither revision nor anything else moves. */
  lemma HeartbeatsExtendTheLease(store: Store, e: Env, id: BrowserIdentity, s: ControlState, owner: OwnerBinding, lease: Id,
                                 revision: int, renewed: Option<Time>)
    requires Stands(store, e, id, s) && Admitting(e)
    ensures var r := ApplyRow(store, e, id, RowOp.Heartbeat(owner, lease, revision, renewed));
            && (r.Success? <==> && HeldBy(s, owner, lease, revision) && e.latest.Some?
                                && (renewed.Some? ==> e.later.Some? && e.later.value < renewed.value))
            && (r.Success? ==>
                  && r.value.1.StateReply? && r.value.1.state.lease.Some? && Leaves(store, id, r.value.1.state, r)
                  && var expires := r.value.1.state.lease.value.expires;
                     var auth := match renewed case Some(a) => a case None => s.lease.value.authExpires;
                  && r.value.1.state == s.(lease := Some(s.lease.value.(expires := expires, authExpires := auth)))
                  && expires <= auth && expires <= e.latest.value + e.leaseSeconds
                  && (expires == auth || expires == e.latest.value + e.leaseSeconds))
  {
  }

  /** The holder alone lets the observer in or out; every change is a new epoch at a new revision. Exactly the standing
      grant of the current epoch authorizes an observation, which changes nothing. */
  lemma ObservationFollowsTheGrant(store: Store, e: Env, id: BrowserIdentity, s: ControlState, owner: OwnerBinding, lease: Id,
                                   revision: int, observe: bool, epoch: int)
    requires Stands(store, e, id, s) && Admitting(e)
    ensures var r := ApplyRow(store, e, id, RowOp.ObservationMode(owner, lease, revision, observe));
            && (r.Success? <==> HeldBy(s, owner, lease, revision))
            && (r.Success? && s.lease.value.observing == observe ==> Leaves(store, id, s, r))
            && (r.Success? && s.lease.value.observing != observe ==>
                  Leaves(store, id, s.(lease := Some(s.lease.value.(observing := observe, epoch := s.lease.value.epoch + 1)),
                                       revision := revision + 1), r))
    ensures var r := ApplyRow(store, e, id, RowOp.AuthorizeObservation(owner, lease, epoch));
            && (r.Success? <==> HeldBy(s, owner, lease, s.revision) && s.lease.value.observing && s.lease.value.epoch == epoch)
            && (r.Success? ==> Leaves(store, id, s, r))
  {
  }

  /** The holder hands back, or the owner of a standing or requested lease is paused: the lease is gone at a new revision,
      and nothing else has changed. */
  lemma ReturningPauses(store: Store, e: Env, id: BrowserIdentity, s: ControlState, owner: OwnerBinding, lease: Id, revision: int)
    requires Stands(store, e, id, s)
    ensures var r := ApplyRow(store, e, id, RowOp.BeginReturn(owner, lease, revision));
            && (r.Success? <==> HeldBy(s, owner, lease, revision))
            && (r.Success? ==> Leaves(store, id, s.(mode := Paused, revision := s.revision + 1, lease := None), r))
    ensures var r := ApplyRow(store, e, id, RowOp.Pause(owner));
            && (r.Success? <==> owner.principal == s.principal && s.lease.Some? && s.lease.value.owner == owner)
            && (r.Success? ==> Leaves(store, id, s.(mode := Paused, revision := s.revision + 1, lease := None), r))
  {
  }

  /** An owner is present, changing nothing, in any browser of theirs that is not under human control; closing it also
      needs an idle slot and the proven end of the admitted run, and pauses it. */
  lemma ClosingNeedsAnIdleBrowser(store: Store, e: Env, id: BrowserIdentity, s: ControlState, owner: OwnerBinding, revision: int,
                                  ended: Option<RunTerminal>)
    requires Stands(store, e, id, s) && Admitting(e)
    ensures var present := ApplyRow(store, e, id, RowOp.Presence(owner, revision));
            var r := ApplyRow(store, e, id, RowOp.BeginClose(owner, revision, ended));
            && (present.Success? <==> owner.principal == s.principal && !s.retired && s.mode in {Agent, Paused} && s.revision == revision)
            && (present.Success? ==> Leaves(store, id, s, present))
            && (r.Success? <==> present.Success? && s.active.None? && (s.admitted.Some? ==> Over(s.admitted.value, ended)))
            && (r.Success? ==> Leaves(store, id, s.(mode := Paused, revision := s.revision + 1, lease := None), r))
  {
    if s.admitted.Some? && ProvesEnd(ended, s.admitted.value) {
      assert ended == Some(RunTerminal(s.admitted.value.run, s.admitted.value.session, ended.value.status));
    }
  }

  // ---------------------------------------------------------------- generations

  /** A generation is retired exactly on proof that its own process is gone and its own channel closed. Only its identity,
      its owner and what it showed last are kept; an input still reserved becomes uncertain. Retiring again changes
      nothing. */
  lemma RetiringEmptiesTheRow(store: Store, e: Env, id: BrowserIdentity, s: ControlState, observed: Retirement)
    requires Stands(store, e, id, s)
    ensures var r := ApplyRow(store, e, id, RowOp.Retire(observed));
            && (r.Success? <==> observed == Retirement(id, true, true))
            && (r.Success? && s.retired ==> Leaves(store, id, s, r))
            && (r.Success? && !s.retired ==>
                  && r.value.1.StateReply?
                  && var t := r.value.1.state;
                  && Leaves(store, id, t, r) && t.retired && t.revision == s.revision + 1 && t.identity == id && t.mode == Paused
                  && t.principal == s.principal && t.admitted.None? && t.active.None? && t.lease.None? && t.takeoverAfter.None?
                  && t.lastSequence == s.lastSequence && t.currentPage.None?
                  && t.previousPage == (match s.currentPage case Some(p) => Some(p) case None => s.previousPage)
                  && match s.lastInput
                     case Some(InputReceipt(l, n, c, Reserved)) => t.lastInput == Some(InputReceipt(l, n, c, Uncertain))
                     case _ => t.lastInput == s.lastInput)
  {
  }

  /** What a browser shows is replaced while it is not retired, within bounds, at no new revision. */
  lemma PagesAreReplaced(store: Store, e: Env, id: BrowserIdentity, s: ControlState, current: Option<Page>, previous: Option<Page>)
    requires Stands(store, e, id, s)
    ensures var r := ApplyRow(store, e, id, RowOp.RecordPage(current, previous));
            && (r.Success? <==> && !s.retired
                                && (current.Some? ==> |current.value.url| <= 2048 && |current.value.title| <= 2048)
                                && (previous.Some? ==> |previous.value.url| <= 2048 && |previous.value.title| <= 2048))
            && (r.Success? ==> r.value == (store[id.conversation := s.(currentPage := current, previousPage := previous)], NoReply))
  {
  }

  /** A bind finds the row just as a read at the same moment would have left it. */
  lemma BindingFindsTheExpiredRow(store: Store, e: Env, id: BrowserIdentity, run: Option<RunBinding>, principal: Id)
    requires id.conversation in store && store[id.conversation].identity.conversation == id.conversation
    ensures var read, bind := ApplyRow(store, e, store[id.conversation].identity, Read), Bind(id, run, principal);
            if read.Success? then Apply(read.value.0, e, bind) == Apply(store, e, bind) else Apply(store, e, bind).Failure?
  {
    var read := ApplyRow(store, e, store[id.conversation].identity, Read);
    if read.Success? {
      var s := read.value.1.state;
      assert read.value.0 == store[id.conversation := s];
      assert SessionClaimed(read.value.0, id) == SessionClaimed(store, id) by {
        if SessionClaimed(store, id) {
          var c :| c in store && !store[c].retired && store[c].identity.session == id.session && c != id.conversation;
          assert read.value.0[c] == store[c];
        }
      }
      if Apply(store, e, Bind(id, run, principal)).Success? {
        var t := Apply(store, e, Bind(id, run, principal)).value.0[id.conversation];
        assert store[id.conversation := s][id.conversation := t] == store[id.conversation := t];
      }
    }
  }

  /** A conversation is bound to a browser generation exactly while its session serves no other conversation and the
      generation before it, of the same owner, is retired. Only the last page is inherited, and the revision goes on.
      Binding the standing generation again needs the same run and owner, and changes nothing. */
  lemma GenerationsFollowOneAnother(store: Store, e: Env, id: BrowserIdentity, run: Option<RunBinding>, principal: Id)
    requires id.conversation in store ==> Stands(store, e, store[id.conversation].identity, store[id.conversation])
    ensures var r, known := Apply(store, e, Bind(id, run, principal)), id.conversation in store;
            && (r.Success? <==>
                  && 1 <= |principal| <= 512 && (run.Some? ==> run.value.session == id.session) && Admitting(e)
                  && (forall c <- store :: store[c].identity.session == id.session && c != id.conversation ==> store[c].retired)
                  && (known ==> var s := store[id.conversation];
                                s.principal == principal && if s.identity == id then !s.retired && s.admitted == run else s.retired))
            && (r.Success? && known && store[id.conversation].identity == id ==> Leaves(store, id, store[id.conversation], r))
            && (r.Success? && !(known && store[id.conversation].identity == id) ==>
                  Leaves(store, id, ControlState(id, principal, if run.Some? then Agent else Paused,
                                                 if known then store[id.conversation].revision + 1 else 1, run, None, None, None, 0, None,
                                                 false, None, if known then store[id.conversation].previousPage else None), r))
  {
  }

  /** A restart keeps every conversation. A row with a command outstanding is stuck, its reserved input uncertain; any
      other authority is paused; a paused, stuck or retired row stays as it is. */
  lemma RestartsPauseEverything(store: Store, e: Env, c: Id)
    requires StoreConsistent(store) && c in store
    ensures var r := Apply(store, e, Op.RecoverStartup);
            && r.Success? && r.value.0.Keys == store.Keys && r.value.1 == NoReply
            && var s, t := store[c], r.value.0[c];
            && (s.active.Some? ==>
                  && t == s.(mode := Recovering, revision := s.revision + 1, lease := None, lastInput := t.lastInput)
                  && t.lastInput == match s.lastInput
                                    case Some(InputReceipt(l, n, i, Reserved)) => Some(InputReceipt(l, n, i, Uncertain))
                                    case _ => s.lastInput)
            && (s.active.None? && !s.retired && s.mode in {Agent, TakeoverPending, Human} ==>
                  t == s.(mode := Paused, revision := s.revision + 1, lease := None))
            && (s.active.None? && (s.retired || s.mode in {Paused, Recovering}) ==> t == s)
  {
    assert Consistent(store[c]);
  }
}
