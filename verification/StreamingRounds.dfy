/** What the streaming boundary gives an owner when every answer is positive: a takeover, a handback, a move, a
    withdrawal, each from its first step to its last. */
module StreamingRounds {
  import opened Wrappers
  import opened ControlModel
  import opened ControlProofs
  import opened StreamingModel
  import opened StreamingProofs
  import opened StreamingCancellation
  import ControlEffects

  /** The row has no lease, so steps note none. */
  predicate Unleased(w: World) {
    w.id.conversation in w.store && w.store[w.id.conversation].lease.None?
  }

  /** The withdrawal was announced, and its drain began. */
  function Withdrawn(w: World): World {
    Step(Step(w, Published(true)), DrainStarts)
  }

  lemma WithdrawalsBeginToDrain(w: World, purpose: Purpose)
    requires Unleased(w) && w.transition == Publishing(purpose) && w.input == Free
    ensures Withdrawn(w) == w.(transition := Draining(purpose), input := HeldByTransition)
  {
    assert Step(w, Published(true)) == w.(transition := WaitingToDrain(purpose));
  }

  lemma HandbackDrains(w: World, e: Env, who: OwnerBinding, revision: int)
    requires Unleased(w) && w.transition == Draining(ForHandback(who, revision)) && w.input == HeldByTransition
    ensures Step(w, DrainEnds(true, e))
            == w.(transition := StreamingModel.Observing(who, revision), input := Free, log := w.log + [Drained(revision)])
  {
  }

  lemma ObservedHandbackResumes(w: World, who: OwnerBinding, revision: int)
    requires Unleased(w) && w.transition == StreamingModel.Observing(who, revision)
    ensures Step(Step(w, Observed(true)), Resumed(true))
            == w.(transition := Idle, owner := None, handover := Some(HumanReturn(w.id, who, revision, true)))
  {
    assert Step(w, Observed(true)) == w.(transition := StreamingModel.Resuming(who, revision));
  }

  /** A revoked handback whose every further answer is positive offers exactly one handover, of its own revision: the
      former owner is forgotten, both locks are free, and the history shows the drain. */
  lemma ReturnsAreOffered(w: World, e: Env, who: OwnerBinding, revision: int) returns (drained: World)
    requires Unleased(w) && w.transition == Publishing(ForHandback(who, revision)) && w.input == Free
    ensures drained == Step(Withdrawn(w), DrainEnds(true, e))
    ensures Step(Step(drained, Observed(true)), Resumed(true))
            == w.(transition := Idle, owner := None, handover := Some(HumanReturn(w.id, who, revision, true)),
                  log := w.log + [Drained(revision)])
  {
    WithdrawalsBeginToDrain(w, ForHandback(who, revision));
    HandbackDrains(Withdrawn(w), e, who, revision);
    drained := Step(Withdrawn(w), DrainEnds(true, e));
    ObservedHandbackResumes(drained, who, revision);
  }

  /** The follow-up run of the owner who handed back is admitted on the offered handover, which is used up; a refused
      admission keeps it. */
  lemma HandoversAdmitTheNextRun(w: World, s: ControlState, e: Env, who: OwnerBinding, run: RunBinding, revision: int,
                                 ended: Option<RunTerminal>)
    requires Row(w, s) && ControlEffects.Admitting(e) && s.mode == Paused && s.lease.None? && s.principal == who.principal
    ensures var v := Step(w, Admit(e, who, run, revision, ended));
            var admitted :=
              && w.handover == Some(HumanReturn(w.id, who, revision, true)) && revision == s.revision
              && run.session == w.id.session && s.active.None?
              && match s.admitted
                 case None => ended.None?
                 case Some(prior) => ControlEffects.Over(prior, ended) && run.run != prior.run && run.dispatchKey != prior.dispatchKey;
            v == if !admitted then w
                 else w.(store := w.store[w.id.conversation := s.(mode := Agent, revision := revision + 1, admitted := Some(run),
                                                                  takeoverAfter := None)],
                         handover := None, log := w.log + [Admitted(revision)])
  {
    ControlEffects.RunsFollowOneAnother(w.store, e, w.id, s, who, run, None, revision, ended, w.handover);
    assert Load(w.store, e, w.id) == Success(s);
    assert w.(store := w.store) == w;
  }

  /** A withdrawal that is drained leaves nobody in control of an open boundary. */
  lemma RevokedTokensAreDrained(w: World, e: Env)
    requires Unleased(w) && w.transition == Publishing(ForRevocation) && w.input == Free
    ensures Step(Withdrawn(w), DrainEnds(true, e)) == w.(transition := Idle, owner := None)
  {
    WithdrawalsBeginToDrain(w, ForRevocation);
  }

  // ---------------------------------------------------------------- input

  /** The row stands as it is read at these moments. */
  predicate Seen(w: World, s: ControlState, e: Env) {
    ControlEffects.Stands(w.store, e, w.id, s)
  }

  /** This token is the holder's: the boundary is open, the browser alive, and the standing lease its owner's with an
      empty slot. */
  predicate Holder(w: World, s: ControlState, token: Id, live: bool) {
    && !w.blocked && live && w.token == Some(token) && s.mode == Human && !s.retired && s.active.None?
    && s.lease.Some? && w.owner == Some(s.lease.value.owner)
  }

  lemma ReadingShowsTheRow(w: World, s: ControlState, e: Env)
    requires Seen(w, s, e)
    ensures Ask(w, e, Read) == (w, Some(s))
  {
    assert w.store[w.id.conversation := s] == w.store;
    assert w.(store := w.store) == w;
  }

  lemma AuthorizingAsksTheRow(w: World, s: ControlState, e: Env, token: Id, live: bool)
    requires Seen(w, s, e)
    ensures Authorized(w, e, live, token) == (w, Holder(w, s, token, live))
    ensures LeaseNow(w) == if s.lease.Some? then s.lease.value.id else ""
  {
    ReadingShowsTheRow(w, s, e);
  }

  /** An event is accepted exactly from the holder while nobody else has the input lock, and holds it from then on; any
      other event is dropped. */
  lemma EventsAreTheHolders(w: World, s: ControlState, e: Env, token: Id, live: bool)
    requires Seen(w, s, e)
    ensures Core(w, Dispatch(e, token, live))
            == if w.input == Free && Holder(w, s, token, live)
               then w.(input := Dispatching(token), log := w.log + [Accepted(token, s.lease.value.id)]) else w
  {
    AuthorizingAsksTheRow(w, s, e, token, live);
  }

  /** A held key is repeated under the same conditions, and is over at once. */
  lemma RepeatsAreTheHolders(w: World, s: ControlState, e: Env, live: bool)
    requires Seen(w, s, e)
    ensures Core(w, RepeatKey(e, live))
            == if w.input == Free && w.token.Some? && Holder(w, s, w.token.value, live)
               then w.(log := w.log + [Accepted(w.token.value, s.lease.value.id)] + [Finished(w.token.value)]) else w
  {
    if w.token.Some? { AuthorizingAsksTheRow(w, s, e, w.token.value, live); }
  }

  /** A clipboard is sent only while the accepted event it belongs to still is the holder's. */
  lemma ClipboardsAreTheHolders(w: World, s: ControlState, e: Env, live: bool)
    requires Seen(w, s, e)
    ensures Core(w, SendClipboard(e, live))
            == if w.input.Dispatching? && Holder(w, s, w.input.token, live)
               then w.(log := w.log + [ClipboardSent(w.input.token, s.lease.value.id)]) else w
  {
    if w.input.Dispatching? { AuthorizingAsksTheRow(w, s, e, w.input.token, live); }
  }

  /** The input lock is given back by whoever has it: a dispatch, which is then finished, or an observer. */
  lemma LocksAreGivenBack(w: World)
    ensures Core(w, DispatchEnds)
            == if w.input.Dispatching? then w.(input := Free, log := w.log + [Finished(w.input.token)]) else w
    ensures Core(w, ObserverLocks) == if w.input == Free then w.(input := HeldByObserver) else w
    ensures Core(w, ObserverUnlocks) == if w.input == HeldByObserver then w.(input := Free) else w
  {
  }

  // ---------------------------------------------------------------- granting

  /** A grant first withdraws a token that is still out, and otherwise asks for the fence at once. */
  function Begun(w: World, pending: ControlState, moving: bool): World {
    if w.token.None? then w.(transition := StreamingModel.Fencing(pending, moving))
    else w.(token := None, transition := Publishing(ForGrant(pending, moving)))
  }

  /** A takeover asked for begins its grant unless a command is outstanding; then it is left pending, and settled once the
      slot is empty. Asking again under the lease that was granted changes nothing. */
  lemma TakeoversBeginOnAnEmptySlot(w: World, s: ControlState, e: Env, who: OwnerBinding, request: Id, revision: int, auth: Option<Time>)
    requires Seen(w, s, e) && ControlEffects.Admitting(e) && w.transition == Idle && !s.retired
    ensures var r := ApplyRow(w.store, e, w.id, RequestTakeover(who, request, revision, auth));
            Core(w, Take(e, who, request, revision, auth))
            == if r.Failure? || (s.lease.Some? && (s.mode == Human || s.active.Some?)) then w
               else if s.active.Some? then w.(store := r.value.0)
               else Begun(w.(store := r.value.0), r.value.0[w.id.conversation], false)
    ensures Core(w, Settle(e)) == if s.mode == TakeoverPending && s.active.None? then Begun(w, s, false) else w
  {
    ControlEffects.RequestsOpenOneLease(w.store, e, w.id, s, who, request, revision, auth);
    ReadingShowsTheRow(w, s, e);
    assert w.store[w.id.conversation := s] == w.store && w.(store := w.store) == w;
  }

  /** A grant is confirmed exactly behind the fence it was given, of the pending takeover it is for: the row is the
      owner's, and the boundary, with its input lock held, has a fresh token for that lease. Without it a takeover just
      ends, and a move, whose former owner has lost control already, closes the boundary. */
  lemma GrantsConfirmTheirFence(w: World, s: ControlState, e: Env, token: Id)
    requires Seen(w, s, e) && ControlEffects.Admitting(e) && w.transition.Confirming? && w.input == Free && token !in w.granted
    ensures var t := w.transition;
            var proven := && s.mode == TakeoverPending && s.lease.Some? && s.active.None? && s.revision == t.pending.revision
                          && t.observation == FenceObservation(w.id, s.takeoverAfter, true);
            Core(w, Confirm(e, token))
            == if proven then
                 w.(store := w.store[w.id.conversation := s.(mode := Human, revision := s.revision + 1, takeoverAfter := None)],
                    owner := Some(s.lease.value.owner), token := Some(token), input := HeldByTransition,
                    transition := Announcing(t.moving), granted := w.granted[token := s.lease.value.id])
               else w.(transition := Idle, blocked := w.blocked || t.moving)
  {
    ControlEffects.ConfirmationNeedsTheFence(w.store, e, w.id, s, w.transition.pending.revision, w.transition.observation);
  }

  /** Fences that were not proven end a takeover and close the boundary of a move; a grant that was announced is over, and
      one that could not be announced takes token and lease back and closes the boundary. */
  lemma GrantsAreAnnounced(w: World, s: ControlState, e: Env, proof: Option<FenceObservation>)
    requires Seen(w, s, e)
    ensures w.transition.Fencing? && w.input != HeldByTransition ==>
              Core(w, FenceReplied(proof))
              == match proof
                 case Some(o) => w.(transition := StreamingModel.Confirming(w.transition.pending, w.transition.moving, o))
                 case None => w.(transition := Idle, blocked := w.blocked || w.transition.moving)
    ensures w.transition.Announcing? && w.input == HeldByTransition ==>
              && Core(w, Announced(true, e)) == w.(transition := Idle, input := Free)
              && (s.lease.Some? && w.owner == Some(s.lease.value.owner) && s.lease.value.owner.principal == s.principal ==>
                    Core(w, Announced(false, e))
                    == w.(store := w.store[w.id.conversation := s.(mode := Paused, revision := s.revision + 1, lease := None)],
                          token := None, blocked := true, transition := Idle, input := Free))
  {
    if s.lease.Some? { ControlEffects.ReturningPauses(w.store, e, w.id, s, s.lease.value.owner, "", 0); }
  }

  // ---------------------------------------------------------------- withdrawing

  /** The row of a lease that was taken back. */
  function TakenBack(s: ControlState): ControlState {
    s.(mode := Paused, revision := s.revision + 1, lease := None)
  }

  lemma PausingTakesTheLease(w: World, s: ControlState, e: Env, owner: OwnerBinding)
    requires Seen(w, s, e)
    ensures Ask(w, e, Pause(owner))
            == if owner.principal == s.principal && s.lease.Some? && s.lease.value.owner == owner
               then (w.(store := w.store[w.id.conversation := TakenBack(s)]), Some(TakenBack(s))) else (w, None)
  {
    ControlEffects.ReturningPauses(w.store, e, w.id, s, owner, "", 0);
  }

  /** Control moves exactly out of the hands of another owner of the same principal, at the revision the new one saw and
      with an empty slot: the lease is taken back first, then the token is withdrawn. */
  lemma MovesTakeTheLeaseFirst(w: World, s: ControlState, e: Env, f: Env, who: OwnerBinding, request: Id, revision: int,
                               auth: Option<Time>)
    requires Seen(w, s, e) && Seen(w, s, f) && w.transition == Idle
    requires s.lease.Some? ==> s.lease.value.owner.principal == s.principal
    ensures var valid := && 1 <= |request| <= 512 && 1 <= revision && e.earlier.Some? && auth.Some? && e.earlier.value < auth.value;
            var moves := && valid && s.mode == Human && s.lease.Some? && s.active.None? && s.revision == revision
                         && who.principal == s.principal && s.lease.value.owner != who;
            Core(w, Move(e, f, who, request, revision, auth))
            == if moves then w.(store := w.store[w.id.conversation := TakenBack(s)], token := None,
                                transition := Publishing(ForMove(who, request, revision + 1, auth)))
               else w
  {
    ReadingShowsTheRow(w, s, e);
    if s.lease.Some? { PausingTakesTheLease(w, s, f, s.lease.value.owner); }
  }

  /** A token that is no longer the holder's is withdrawn, after the lease, if the row is still under its owner, was taken
      back; the holder's own stays. */
  lemma StaleTokensAreWithdrawn(w: World, s: ControlState, e: Env, f: Env, g: Env, live: bool)
    requires Seen(w, s, e) && Seen(w, s, f) && Seen(w, s, g) && w.transition == Idle && w.token.Some?
    ensures var owned := s.lease.Some? && w.owner == Some(s.lease.value.owner) && s.lease.value.owner.principal == s.principal;
            Core(w, Reconcile(e, f, g, live))
            == if Holder(w, s, w.token.value, live) then w
               else if s.mode != Human then w.(token := None, transition := Publishing(ForRevocation))
               else if owned then w.(store := w.store[w.id.conversation := TakenBack(s)], token := None,
                                     transition := Publishing(ForRevocation))
               else w
  {
    ReadingShowsTheRow(w, s, e);
    ReadingShowsTheRow(w, s, f);
    if w.owner.Some? { PausingTakesTheLease(w, s, g, w.owner.value); }
  }

  /** The viewer that has the token went away: its lease is taken back, if it stands, and the token withdrawn. A viewer
      without the token changes nothing. */
  lemma ViewersThatLeaveLoseControl(w: World, s: ControlState, e: Env, f: Env, token: Id)
    requires Seen(w, s, e) && Seen(w, s, f) && w.transition == Idle
    requires s.lease.Some? ==> s.lease.value.owner.principal == s.principal
    ensures Core(w, Disconnect(e, f, token))
            == if w.token != Some(token) then w
               else if s.mode == Human && s.lease.Some? && w.owner == Some(s.lease.value.owner)
                 then w.(store := w.store[w.id.conversation := TakenBack(s)], token := None, transition := Publishing(ForRevocation))
               else w.(token := None, transition := Publishing(ForRevocation))
  {
    ReadingShowsTheRow(w, s, e);
    if s.lease.Some? { PausingTakesTheLease(w, s, f, s.lease.value.owner); }
  }

  /** What a successful drain goes on to: nothing, the fence of the grant, or the request of the owner it moves to, whose
      refusal closes the boundary. Whoever had the token is forgotten. */
  lemma DrainsGoOn(w: World, e: Env)
    requires w.transition.Draining? && w.input == HeldByTransition
    ensures var v := w.(transition := Idle, input := Free, owner := None);
            match w.transition.purpose
            case ForRevocation => Core(w, DrainEnds(true, e)) == v
            case ForGrant(pending, moving) => Core(w, DrainEnds(true, e)) == v.(transition := StreamingModel.Fencing(pending, moving))
            case ForMove(to, request, revision, auth) =>
              var r := ApplyRow(w.store, e, w.id, RequestTakeover(to, request, revision, auth));
              Core(w, DrainEnds(true, e))
              == if r.Success? then Begun(v.(store := r.value.0), r.value.1.state, true) else v.(blocked := true)
            case ForHandback(_, _) => true
    ensures Core(w, DrainEnds(false, e)) == w.(transition := Idle, input := Free, blocked := true)
  {
  }

  // ---------------------------------------------------------------- returning

  /** Under the input lock a handback goes on to the privacy check exactly if the lease it names still stands, at the
      revision the owner saw; otherwise it ends, and nothing has happened. */
  lemma ReturnsCheckTheLease(w: World, s: ControlState, e: Env, who: OwnerBinding, lease: Id, revision: int)
    requires Seen(w, s, e) && w.transition == AwaitingReturn(who, lease, revision) && w.input == Free
    ensures Core(w, ReturnLocked(e))
            == if s.mode == Human && s.lease.Some? && s.lease.value.owner == who && s.lease.value.id == lease && s.revision == revision
               then w.(input := HeldByTransition, transition := CheckingSensitive(who, lease, revision)) else w.(transition := Idle)
  {
    ReadingShowsTheRow(w, s, e);
  }

  /** A handback waits for its turn and then for the input lock, as a drain does; a shutdown waits for nothing. */
  lemma TransitionsWait(w: World, e: Env, who: OwnerBinding, lease: Id, revision: int)
    ensures Core(w, Handback(who, lease, revision))
            == if w.transition == Idle then w.(transition := AwaitingReturn(who, lease, revision)) else w
    ensures w.input != Free ==> Core(w, ReturnLocked(e)) == w && Core(w, DrainStarts) == w
    ensures Core(w, Shutdown) == w.(blocked := true, token := None)
  {
  }

  /** Everybody else's calls move the store alone, to whatever the controller makes of them. */
  lemma OutsideCallsMoveTheStore(w: World, e: Env, op: Op)
    requires IsOutside(op)
    ensures Core(w, Outside(e, op)) == w.(store := Exec(w.store, e, op))
  {
  }
}
