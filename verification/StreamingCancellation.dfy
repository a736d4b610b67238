/** How transitions of the streaming boundary end: which endings close it for good, and what a cancellation leaves open. */
module StreamingCancellation {
  import opened Wrappers
  import opened ControlModel
  import opened ControlProofs
  import opened StreamingModel
  import opened StreamingProofs

  /** Between the revocation of a handback and its handover. */
  predicate InHandback(t: Transition) {
    Returning(t).Some? || Returned(t).Some?
  }

  /** A token was withdrawn, for whatever purpose, and its drain is not finished. */
  predicate Withdrawing(t: Transition) {
    t.Publishing? || t.WaitingToDrain? || t.Draining?
  }

  predicate Granting(t: Transition) {
    t.Fencing? || t.Confirming? || t.Announcing?
  }

  /** What was awaited answered, and the answer was a failure. */
  predicate AnsweredFailure(a: Action) {
    a == Published(false) || (a.DrainEnds? && !a.ok) || a == Observed(false) || a == Resumed(false)
  }

  /** After a successful drain a move asks for the new lease at once, and may be refused. */
  predicate MoveRefused(w: World, a: Action) {
    && w.transition.Draining? && w.transition.purpose.ForMove? && a.DrainEnds? && a.ok
    && var p := w.transition.purpose;
       Ask(Released(w).(owner := None), a.e, RequestTakeover(p.to, p.request, p.revision, p.auth)).1.None?
  }

  /** Steps that start another transition wait while one is in progress. */
  lemma NothingElseStarts(w: World, a: Action)
    requires w.transition != Idle && (StartsTransition(a) || a.Handback?)
    ensures Core(w, a) == w
  {
  }

  /** Input, other controller calls, observers, admissions and a shutdown do not move the transition. */
  predicate Bystands(a: Action) {
    a.Outside? || a.Dispatch? || a.DispatchEnds? || a.SendClipboard? || a.RepeatKey? || a.ObserverLocks? || a.ObserverUnlocks?
    || a.Shutdown? || a.Admit?
  }

  lemma InputKeepsTheTransition(w: World, a: Action)
    requires IsInput(a)
    ensures Core(w, a).transition == w.transition
  {
    match a
    case Dispatch(e, epoch, live) => AskOnlyStores(w, e, Read);
    case DispatchEnds =>
    case SendClipboard(e, live) => AskOnlyStores(w, e, Read);
    case RepeatKey(e, live) => AskOnlyStores(w, e, Read);
  }

  lemma BystandersKeepTheTransition(w: World, a: Action)
    requires Bystands(a)
    ensures Core(w, a).transition == w.transition
  {
    if IsInput(a) {
      InputKeepsTheTransition(w, a);
    } else if a.Admit? {
      AskOnlyStores(w, a.e, RowOp.AdmitRun(a.who, a.run, None, a.revision, a.ended, w.handover));
    }
  }

  /** Only these steps can end a transition in progress. */
  lemma WhatMovesATransition(w: World, a: Action)
    requires w.transition != Idle && Core(w, a).transition != w.transition
    ensures ContinuesTransition(a) || a.Published? || a.DrainStarts? || a.FenceReplied? || a.Observed? || a.Resumed? || a.Cancelled?
  {
    if Bystands(a) { BystandersKeepTheTransition(w, a); }
    else if StartsTransition(a) || a.Handback? { NothingElseStarts(w, a); }
  }

  lemma GrantingStepsWait(w: World, a: Action)
    requires InHandback(w.transition) && (a.Confirm? || a.Announced? || a.ReturnLocked? || a.SensitiveChecked? || a.FenceReplied?)
    ensures Core(w, a) == w
  {
  }

  /** A step that ends a handback between its revocation and its handover blocks the boundary exactly when it is an answered
      failure. Otherwise it is the handover, or a cancellation, which leaves everything but the transition as it was. */
  lemma HandbackEndings(w: World, a: Action)
    requires !w.blocked && InHandback(w.transition) && !InHandback(Step(w, a).transition)
    ensures Step(w, a).blocked <==> AnsweredFailure(a)
    ensures !Step(w, a).blocked <==> a == Cancelled || a == Resumed(true)
    ensures a == Resumed(true) ==>
              && w.transition.Resuming?
              && Step(w, a).handover == Some(HumanReturn(w.id, w.transition.who, w.transition.revision, true))
    ensures a == Cancelled ==> Core(w, a) == w.(transition := Idle, input := Core(w, a).input)
  {
    WhatMovesATransition(w, a);
    if a.Confirm? || a.Announced? || a.ReturnLocked? || a.SensitiveChecked? || a.FenceReplied? { GrantingStepsWait(w, a); }
  }

  /** The same for every withdrawal of a token, also in a move, a grant, a reconciliation and a disconnection: leaving it
      blocks the boundary exactly on an answered failure, or when a move is then refused its lease. */
  lemma WithdrawalEndings(w: World, a: Action)
    requires !w.blocked && Withdrawing(w.transition) && !Withdrawing(Step(w, a).transition)
    ensures Step(w, a).blocked <==> AnsweredFailure(a) || MoveRefused(w, a)
  {
    WhatMovesATransition(w, a);
    if a.DrainEnds? && w.transition.Draining? && w.transition.purpose.ForMove? {
      var p := w.transition.purpose;
      AskOnlyStores(Released(w).(owner := None), a.e, RequestTakeover(p.to, p.request, p.revision, p.auth));
    }
  }

  /** A grant that ends blocks the boundary exactly if its announcement failed, or if it belonged to a move and failed. */
  lemma GrantEndings(w: World, a: Action)
    requires !w.blocked && Granting(w.transition) && Step(w, a).transition == Idle
    ensures Step(w, a).blocked <==> (a.Announced? && !a.ok) || (w.transition.moving && !a.Announced? && a != Cancelled)
  {
    WhatMovesATransition(w, a);
    match a
    case Confirm(e, token) =>
      if w.transition.Confirming? { AskOnlyStores(w, e, ConfirmTakeover(w.transition.pending.revision, w.transition.observation)); }
    case Announced(ok, e) =>
      if w.owner.Some? { AskOnlyStores(w.(token := None, blocked := true), e, Pause(w.owner.value)); }
    case _ =>
  }

  // ---------------------------------------------------------------- what a cancelled handback leaves open

  /** A call at this moment finds its clock, the browser free of maintenance, and the row as it stands. */
  predicate Calls(e: Env, t: Time) {
    e.held == Some(false) && e.earlier == Some(t) && e.now == Some(t) && e.leaseSeconds > 0.0
  }

  predicate Row(w: World, s: ControlState) {
    w.id.conversation in w.store && w.store[w.id.conversation] == s && s.identity == w.id && !s.retired
  }

  predicate HoldsNow(s: ControlState, t: Time) {
    && s.mode == Human && s.lease.Some? && s.lease.value.expires > t && s.lease.value.owner.principal == s.principal
    && s.active.None?
  }

  lemma ReadingAnswersTheRow(w: World, s: ControlState, e: Env, t: Time)
    requires Row(w, s) && Calls(e, t) && HoldsNow(s, t)
    ensures Ask(w, e, Read) == (w, Some(s))
  {
    assert w.store[w.id.conversation := s] == w.store;
    assert w.(store := w.store) == w;
  }

  lemma ReturningPausesTheRow(w: World, s: ControlState, e: Env, t: Time)
    requires Row(w, s) && Calls(e, t) && HoldsNow(s, t)
    ensures var l := s.lease.value;
            Ask(w, e, BeginReturn(l.owner, l.id, s.revision))
            == (w.(store := w.store[w.id.conversation := PausedNow(s)]), Some(PausedNow(s)))
  {
  }

  /** A takeover that was asked for, with nothing outstanding, under a lease that has not expired. */
  predicate Pending(s: ControlState, lease: Id, t: Time) {
    && s.mode == TakeoverPending && s.active.None? && s.takeoverAfter.None?
    && s.lease.Some? && s.lease.value.id == lease && s.lease.value.expires > t && s.lease.value.owner.principal == s.principal
  }

  lemma TakeoverOpensALease(w: World, s: ControlState, e: Env, t: Time, who: OwnerBinding, request: Id, auth: Time)
    returns (pending: ControlState)
    requires Row(w, s) && Calls(e, t) && s.mode == Paused && s.lease.None? && s.active.None? && s.revision >= 1
    requires who.principal == s.principal && IsIdentifier(request) && auth > t
    ensures Pending(pending, e.uuid, t) && Row(w.(store := w.store[w.id.conversation := pending]), pending)
    ensures Ask(w, e, RequestTakeover(who, request, s.revision, Some(auth)))
            == (w.(store := w.store[w.id.conversation := pending]), Some(pending))
  {
    pending := Ask(w, e, RequestTakeover(who, request, s.revision, Some(auth))).1.value;
  }

  lemma ConfirmationGivesTheLease(w: World, s: ControlState, e: Env, t: Time, lease: Id)
    returns (held: ControlState)
    requires Row(w, s) && Calls(e, t) && Pending(s, lease, t)
    ensures HoldsNow(held, t) && held.lease == s.lease && Row(w.(store := w.store[w.id.conversation := held]), held)
    ensures Ask(w, e, ConfirmTakeover(s.revision, FenceObservation(w.id, None, true)))
            == (w.(store := w.store[w.id.conversation := held]), Some(held))
  {
    held := s.(mode := Human, revision := s.revision + 1, takeoverAfter := None);
  }

  lemma TakeStep(w: World, s: ControlState, e: Env, t: Time, who: OwnerBinding, request: Id, auth: Time)
    returns (pending: ControlState)
    requires Row(w, s) && Calls(e, t) && s.mode == Paused && s.lease.None? && s.active.None? && s.revision >= 1
    requires who.principal == s.principal && IsIdentifier(request) && auth > t && w.transition == Idle && w.token.None?
    ensures Pending(pending, e.uuid, t)
    ensures var v := Step(w, Take(e, who, request, s.revision, Some(auth)));
            Row(v, pending) && v == w.(store := v.store, transition := Fencing(pending, false), log := w.log + [LeaseHeld(e.uuid)])
  {
    pending := TakeoverOpensALease(w, s, e, t, who, request, auth);
  }

  lemma FenceStep(w: World, pending: ControlState, lease: Id, t: Time)
    requires Row(w, pending) && Pending(pending, lease, t) && w.transition == Fencing(pending, false)
    ensures var proof := FenceObservation(w.id, None, true);
            Step(w, FenceReplied(Some(proof)))
            == w.(transition := Confirming(pending, false, proof), log := w.log + [LeaseHeld(lease)])
  {
  }

  lemma ConfirmStep(w: World, pending: ControlState, lease: Id, e: Env, t: Time, token: Id)
    returns (held: ControlState)
    requires Row(w, pending) && Pending(pending, lease, t) && Calls(e, t) && w.input == Free && token !in w.granted
    requires w.transition == Confirming(pending, false, FenceObservation(w.id, None, true))
    ensures HoldsNow(held, t) && held.lease == pending.lease
    ensures var v := Step(w, Confirm(e, token));
            && Row(v, held) && v.transition == Announcing(false) && v.token == Some(token) && v.input == HeldByTransition
            && v.owner == Some(held.lease.value.owner) && v.blocked == w.blocked && v.id == w.id
            && v.log == w.log + [LeaseHeld(lease)]
  {
    held := ConfirmationGivesTheLease(w, pending, e, t, lease);
  }

  lemma AnnounceStep(w: World, held: ControlState, e: Env, t: Time)
    requires Row(w, held) && HoldsNow(held, t) && w.transition == Announcing(false) && w.input == HeldByTransition
    ensures Step(w, Announced(true, e)) == w.(transition := Idle, input := Free, log := w.log + [LeaseHeld(held.lease.value.id)])
  {
  }

  lemma DispatchStep(w: World, held: ControlState, e: Env, t: Time, token: Id)
    requires Row(w, held) && HoldsNow(held, t) && Calls(e, t) && w.input == Free && !w.blocked
    requires w.token == Some(token) && w.owner == Some(held.lease.value.owner)
    ensures var l := held.lease.value.id; Step(w, Dispatch(e, token, true)).log == w.log + [Accepted(token, l), LeaseHeld(l)]
  {
    ReadingAnswersTheRow(w, held, e, t);
    var l := held.lease.value.id;
    assert w.log + [Accepted(token, l)] + [LeaseHeld(l)] == w.log + [Accepted(token, l), LeaseHeld(l)];
  }

  lemma ReturnBegins(w: World, s: ControlState, t: Time)
    requires Row(w, s) && w.transition == Idle && HoldsNow(s, t)
    ensures var l := s.lease.value;
            Step(w, Handback(l.owner, l.id, s.revision))
            == w.(transition := AwaitingReturn(l.owner, l.id, s.revision), log := w.log + [LeaseHeld(l.id)])
  {
  }

  lemma ReturnLocks(w: World, s: ControlState, e: Env, t: Time)
    requires Row(w, s) && Calls(e, t) && HoldsNow(s, t) && w.input == Free
    requires w.transition == AwaitingReturn(s.lease.value.owner, s.lease.value.id, s.revision)
    ensures var l := s.lease.value;
            Step(w, ReturnLocked(e)) == w.(transition := CheckingSensitive(l.owner, l.id, s.revision), input := HeldByTransition,
                                           log := w.log + [LeaseHeld(l.id)])
  {
    ReadingAnswersTheRow(w, s, e, t);
  }

  lemma ReturnRevokes(w: World, s: ControlState, e: Env, t: Time)
    requires Row(w, s) && Calls(e, t) && HoldsNow(s, t) && w.input == HeldByTransition
    requires w.transition == CheckingSensitive(s.lease.value.owner, s.lease.value.id, s.revision)
    ensures var l := s.lease.value;
            Step(w, SensitiveChecked(true, e))
            == w.(store := w.store[w.id.conversation := PausedNow(s)], token := None, input := Free,
                  transition := Publishing(ForHandback(l.owner, s.revision + 1)), log := w.log + [Revoked(s.revision + 1)])
  {
    ReturningPausesTheRow(w, s, e, t);
  }

  /** The owner holds the browser and hands it back: the lease is revoked, and the token withdrawn. */
  lemma HandbackRevokes(w: World, s: ControlState, e: Env, t: Time) returns (v: World)
    requires Row(w, s) && w.transition == Idle && w.input == Free && Calls(e, t) && HoldsNow(s, t)
    ensures v == AfterRevocation(w, s.lease.value, s.revision, e)
    ensures Row(v, PausedNow(s)) && v.transition == Publishing(ForHandback(s.lease.value.owner, s.revision + 1)) && v.input == Free
    ensures v.token.None? && v.blocked == w.blocked && v.granted == w.granted
    ensures v.log == w.log + [LeaseHeld(s.lease.value.id)] + [LeaseHeld(s.lease.value.id)] + [Revoked(s.revision + 1)]
  {
    var l := s.lease.value;
    var begun := Step(w, Handback(l.owner, l.id, s.revision));
    ReturnBegins(w, s, t);
    ReturnLocks(begun, s, e, t);
    var locked := Step(begun, ReturnLocked(e));
    ReturnRevokes(locked, s, e, t);
    v := Step(locked, SensitiveChecked(true, e));
  }

  /** A paused, idle boundary without a token: a takeover is granted without any drain, and input is accepted. */
  lemma TakeoverAcceptsInput(w: World, s: ControlState, e: Env, t: Time, who: OwnerBinding, request: Id, auth: Time, token: Id)
    requires Row(w, s) && Calls(e, t) && s.mode == Paused && s.lease.None? && s.active.None? && s.revision >= 1
    requires who.principal == s.principal && IsIdentifier(request) && auth > t
    requires w.transition == Idle && w.input == Free && w.token.None? && !w.blocked && token !in w.granted
    ensures var v, held := Granted(w, s, e, who, request, auth, token), LeaseHeld(e.uuid);
            && v.log == w.log + [held] + [held] + [held] + [held]
            && Step(v, Dispatch(e, token, true)).log == v.log + [Accepted(token, e.uuid), held]
  {
    var pending := TakeStep(w, s, e, t, who, request, auth);
    var taken := Step(w, Take(e, who, request, s.revision, Some(auth)));
    FenceStep(taken, pending, e.uuid, t);
    var fenced := Step(taken, FenceReplied(Some(FenceObservation(w.id, None, true))));
    var held := ConfirmStep(fenced, pending, e.uuid, e, t, token);
    AnnounceStep(Step(fenced, Confirm(e, token)), held, e, t);
    DispatchStep(Granted(w, s, e, who, request, auth, token), held, e, t, token);
  }

  function Granted(w: World, s: ControlState, e: Env, who: OwnerBinding, request: Id, auth: Time, token: Id): World {
    var taken := Step(w, Take(e, who, request, s.revision, Some(auth)));
    var fenced := Step(taken, FenceReplied(Some(FenceObservation(w.id, None, true))));
    Step(Step(fenced, Confirm(e, token)), Announced(true, e))
  }

  function AfterRevocation(w: World, l: HumanLease, revision: int, e: Env): World {
    Step(Step(Step(w, Handback(l.owner, l.id, revision)), ReturnLocked(e)), SensitiveChecked(true, e))
  }

  lemma CancelledStep(w: World, s: ControlState)
    requires Row(w, s) && s.lease.None? && w.transition != Idle && w.input == Free
    ensures Step(w, Cancelled) == w.(transition := Idle)
  {
  }

  /** The same from the moment of the revocation on. */
  lemma CancelledReturnReopens(w: World, s: ControlState, e: Env, t: Time, who: OwnerBinding, request: Id, auth: Time, token: Id)
    returns (cancelled: World, v: World)
    requires Row(w, s) && s.mode == Paused && s.lease.None? && s.active.None? && s.revision >= 1
    requires InHandback(w.transition) && w.input == Free && w.token.None? && !w.blocked && token !in w.granted
    requires Calls(e, t) && who.principal == s.principal && IsIdentifier(request) && auth > t
    ensures cancelled == Step(w, Cancelled) && !cancelled.blocked
    ensures v == Step(Granted(cancelled, s, e, who, request, auth, token), Dispatch(e, token, true))
    ensures var held := LeaseHeld(e.uuid); v.log == w.log + [held] + [held] + [held] + [held] + [Accepted(token, e.uuid), held]
  {
    cancelled := Step(w, Cancelled);
    CancelledStep(w, s);
    TakeoverAcceptsInput(cancelled, s, e, t, who, request, auth, token);
    v := Step(Granted(cancelled, s, e, who, request, auth, token), Dispatch(e, token, true));
  }

  /** So the boundary that any answered failure would have closed is open after a cancelled handback: the run that revokes
      the owner's lease, is cancelled before it drained, and grants the next takeover accepts input again, with no drain
      in between. */
  lemma CancelledHandbacksReopen(w: World, s: ControlState, e: Env, f: Env, t: Time, who: OwnerBinding, request: Id, auth: Time,
                                 token: Id)
    returns (returned: World, cancelled: World, v: World)
    requires Row(w, s) && w.transition == Idle && w.input == Free && !w.blocked && token !in w.granted
    requires Calls(e, t) && Calls(f, t) && HoldsNow(s, t) && s.revision >= 1
    requires who.principal == s.principal && IsIdentifier(request) && auth > t
    ensures returned == AfterRevocation(w, s.lease.value, s.revision, e) && cancelled == Step(returned, Cancelled)
    ensures v == Step(Granted(cancelled, PausedNow(s), f, who, request, auth, token), Dispatch(f, token, true))
    ensures InHandback(returned.transition) && Revoked(s.revision + 1) in returned.log && !cancelled.blocked
    ensures returned.log <= v.log && Accepted(token, f.uuid) in v.log[|returned.log|..]
    ensures forall k | |w.log| <= k < |v.log| :: !v.log[k].Drained?
  {
    returned := HandbackRevokes(w, s, e, t);
    cancelled, v := CancelledReturnReopens(returned, PausedNow(s), f, t, who, request, auth, token);
    LogOfReopening(w.log, returned.log, v.log, s.lease.value.id, s.revision + 1, token, f.uuid);
  }

  lemma LogOfReopening(log: seq<Mark>, returned: seq<Mark>, v: seq<Mark>, lease: Id, revision: int, token: Id, next: Id)
    requires returned == log + [LeaseHeld(lease)] + [LeaseHeld(lease)] + [Revoked(revision)]
    requires var held := LeaseHeld(next); v == returned + [held] + [held] + [held] + [held] + [Accepted(token, next), held]
    ensures Revoked(revision) in returned && returned <= v && Accepted(token, next) in v[|returned|..]
    ensures forall k | |log| <= k < |v| :: !v[k].Drained?
  {
    assert returned[|log| + 2] == Revoked(revision);
    assert v[|returned|..][4] == Accepted(token, next);
  }
}
