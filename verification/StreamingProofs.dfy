/** Safety of the streaming boundary over every interleaving of its coroutines, of lease expiry and of every outside
    controller call. */
module StreamingProofs {
  import opened Wrappers
  import opened ControlModel
  import opened ControlProofs
  import opened StreamingModel

  predicate LeaseStands(w: World) {
    w.id.conversation in w.store && w.store[w.id.conversation].lease.Some?
  }

  /** This generation is under human control. */
  predicate UnderHuman(w: World) {
    LeaseStands(w) && w.store[w.id.conversation].identity == w.id && w.store[w.id.conversation].mode == Human
  }

  function Revision(w: World): int {
    if w.id.conversation in w.store then w.store[w.id.conversation].revision else 0
  }

  // ---------------------------------------------------------------- the invariant

  /** Although authorization compares only owners, a published token can only meet the lease it was granted under. */
  predicate TokenLaw(w: World) {
    w.token.Some? ==> w.token.value in w.granted && (UnderHuman(w) ==> LeaseNow(w) == w.granted[w.token.value])
  }

  predicate LockLaw(w: World) {
    && (w.input.HeldByTransition? <==> w.transition.Draining? || w.transition.Announcing? || w.transition.CheckingSensitive?)
    && (w.token.Some? ==> w.transition.Idle? || w.transition.Announcing? || w.transition.AwaitingReturn? || w.transition.CheckingSensitive?)
  }

  predicate AcceptLaw(w: World) {
    forall k | 0 <= k < |w.log| && (w.log[k].Accepted? || w.log[k].ClipboardSent?) ::
      w.log[k].token in w.granted && w.granted[w.log[k].token] == w.log[k].lease
  }

  predicate NoControlIn(log: seq<Mark>, from: int, to: int) {
    forall j | 0 <= j < |log| && from < j < to :: !log[j].Accepted? && !log[j].LeaseHeld?
  }

  predicate NothingFinishesIn(log: seq<Mark>, from: int, to: int) {
    forall j | 0 <= j < |log| && from < j < to :: !log[j].Finished?
  }

  /** A handback revokes authority at some revision; while that revision stands there is no lease and no input. */
  predicate RevokedLaw(w: World) {
    forall i | 0 <= i < |w.log| && w.log[i].Revoked? ::
      && w.id.conversation in w.store && w.log[i].revision <= Revision(w)
      && (Revision(w) == w.log[i].revision ==>
            !LeaseStands(w) && w.store[w.id.conversation].mode == Paused && NoControlIn(w.log, i, |w.log|))
  }

  predicate RevokedBefore(log: seq<Mark>, d: int, revision: int) {
    exists i :: 0 <= i < d && i < |log| && log[i] == Revoked(revision)
  }

  /** A drain follows its revocation; while that revision stands nothing is in flight. */
  predicate DrainedLaw(w: World) {
    forall d | 0 <= d < |w.log| && w.log[d].Drained? ::
      && RevokedBefore(w.log, d, w.log[d].revision)
      && (Revision(w) == w.log[d].revision ==> !w.input.Dispatching? && NothingFinishesIn(w.log, d, |w.log|))
  }

  function Returning(t: Transition): Option<int> {
    match t
    case Publishing(p) => if p.ForHandback? then Some(p.revision) else None
    case WaitingToDrain(p) => if p.ForHandback? then Some(p.revision) else None
    case Draining(p) => if p.ForHandback? then Some(p.revision) else None
    case _ => None
  }

  function Returned(t: Transition): Option<int> {
    match t
    case Observing(_, revision) => Some(revision)
    case Resuming(_, revision) => Some(revision)
    case _ => None
  }

  predicate ProgressLaw(w: World) {
    && (Returning(w.transition).Some? ==> Revoked(Returning(w.transition).value) in w.log)
    && (Returned(w.transition).Some? ==> Drained(Returned(w.transition).value) in w.log)
    && (w.handover.Some? ==> Drained(w.handover.value.revision) in w.log)
  }

  /** A run admitted on a handover at log position k: the handback revoked authority and then drained the input
      boundary; from the revocation on no lease existed and no input was accepted, and from the drain on no earlier
      input was still being injected. */
  predicate Backed(log: seq<Mark>, k: int)
    requires 0 <= k < |log| && log[k].Admitted?
  {
    exists i, d :: 0 <= i < d < k && log[i] == Revoked(log[k].revision) && log[d] == Drained(log[k].revision)
                   && NoControlIn(log, i, k) && NothingFinishesIn(log, d, k)
  }

  predicate AdmittedLaw(w: World) {
    forall k | 0 <= k < |w.log| && w.log[k].Admitted? :: Backed(w.log, k)
  }

  predicate Safe(w: World) {
    && StoreConsistent(w.store) && TokenLaw(w) && LockLaw(w) && AcceptLaw(w)
    && RevokedLaw(w) && DrainedLaw(w) && ProgressLaw(w) && AdmittedLaw(w)
  }

  // ---------------------------------------------------------------- ordinary steps

  /** A mark an ordinary step may add. */
  predicate MarkFits(w: World, v: World, m: Mark) {
    match m
    case Accepted(token, lease) => w.token == Some(token) && UnderHuman(v) && LeaseNow(v) == lease
    case ClipboardSent(token, lease) => w.token == Some(token) && UnderHuman(v) && LeaseNow(v) == lease
    case LeaseHeld(_) => LeaseStands(v)
    case Finished(_) => w.input.Dispatching? || LeaseStands(v)
    case _ => false
  }

  /** What calls on the controller can do: the revision fences, and human control is not created. */
  predicate StoreMoves(w: World, v: World) {
    && v.id == w.id && StoreConsistent(v.store)
    && (w.id.conversation in w.store ==>
          v.id.conversation in v.store && Fenced(w.store[w.id.conversation], v.store[w.id.conversation]))
    && (UnderHuman(v) ==> UnderHuman(w) && LeaseNow(w) == LeaseNow(v))
  }

  predicate Ordinary(w: World, v: World) {
    && StoreMoves(w, v) && v.granted == w.granted && (v.token == w.token || v.token.None?)
    && w.log <= v.log && (forall k | |w.log| <= k < |v.log| :: MarkFits(w, v, v.log[k]))
    && (v.input.Dispatching? ==> w.input.Dispatching? || LeaseStands(v))
    && (Returning(v.transition).Some? ==> Returning(v.transition) == Returning(w.transition))
    && (Returned(v.transition).Some? ==> Returned(v.transition) == Returned(w.transition))
    && (v.handover.Some? && v.handover != w.handover ==> Returned(w.transition) == Some(v.handover.value.revision))
  }

  lemma OrdinaryKeepsSafe(w: World, v: World)
    requires Safe(w) && Ordinary(w, v) && LockLaw(v)
    ensures Safe(v)
  {
    OrdinaryKeepsTokens(w, v);
    OrdinaryKeepsReturns(w, v);
    forall k | 0 <= k < |v.log| && v.log[k].Admitted? ensures Backed(v.log, k) {
      assert k < |w.log| && v.log[k] == w.log[k];
      BackedPersists(w.log, v.log, k);
    }
  }

  lemma BackedPersists(log: seq<Mark>, longer: seq<Mark>, k: int)
    requires log <= longer && 0 <= k < |log| && log[k].Admitted? && Backed(log, k)
    ensures Backed(longer, k)
  {
    var i, d :| 0 <= i < d < k && log[i] == Revoked(log[k].revision) && log[d] == Drained(log[k].revision)
                && NoControlIn(log, i, k) && NothingFinishesIn(log, d, k);
    assert longer[i] == log[i] && longer[d] == log[d];
    assert NoControlIn(longer, i, k) && NothingFinishesIn(longer, d, k);
  }

  lemma OrdinaryKeepsTokens(w: World, v: World)
    requires Safe(w) && Ordinary(w, v)
    ensures TokenLaw(v) && AcceptLaw(v)
  {
    forall k | 0 <= k < |v.log| && (v.log[k].Accepted? || v.log[k].ClipboardSent?)
      ensures v.log[k].token in v.granted && v.granted[v.log[k].token] == v.log[k].lease
    {
      if k < |w.log| {
        assert v.log[k] == w.log[k];
      } else {
        assert MarkFits(w, v, v.log[k]);
      }
    }
  }

  lemma OrdinaryKeepsReturns(w: World, v: World)
    requires Safe(w) && Ordinary(w, v)
    ensures RevokedLaw(v) && DrainedLaw(v) && ProgressLaw(v)
  {
    forall i | 0 <= i < |v.log| && v.log[i].Revoked?
      ensures v.id.conversation in v.store && v.log[i].revision <= Revision(v)
      ensures Revision(v) == v.log[i].revision ==>
                !LeaseStands(v) && v.store[v.id.conversation].mode == Paused && NoControlIn(v.log, i, |v.log|)
    {
      NewMarksFit(w, v, i);
      assert w.log[i] == v.log[i];
      if Revision(v) == v.log[i].revision {
        forall j | 0 <= j < |v.log| && i < j < |v.log| ensures !v.log[j].Accepted? && !v.log[j].LeaseHeld? {
          if j < |w.log| { assert v.log[j] == w.log[j]; } else { assert MarkFits(w, v, v.log[j]); }
        }
      }
    }
    forall d | 0 <= d < |v.log| && v.log[d].Drained?
      ensures RevokedBefore(v.log, d, v.log[d].revision)
      ensures Revision(v) == v.log[d].revision ==> !v.input.Dispatching? && NothingFinishesIn(v.log, d, |v.log|)
    {
      NewMarksFit(w, v, d);
      assert w.log[d] == v.log[d];
      var i :| 0 <= i < d && i < |w.log| && w.log[i] == Revoked(w.log[d].revision);
      assert v.log[i] == w.log[i];
      if Revision(v) == v.log[d].revision {
        assert !LeaseStands(v);
        forall j | 0 <= j < |v.log| && d < j < |v.log| ensures !v.log[j].Finished? {
          if j < |w.log| { assert v.log[j] == w.log[j]; } else { assert MarkFits(w, v, v.log[j]); }
        }
      }
    }
  }

  lemma NewMarksFit(w: World, v: World, k: int)
    requires Ordinary(w, v) && 0 <= k < |v.log| && (v.log[k].Revoked? || v.log[k].Drained? || v.log[k].Admitted?)
    ensures k < |w.log|
  {
  }

  // ---------------------------------------------------------------- controller calls

  lemma HumanOnlyByConfirmation(s: ControlState, e: Env, op: RowOp)
    requires Ready(e, op) && RowStep(s, e, op).Success? && !op.ConfirmTakeover?
    ensures var t := RowStep(s, e, op).value.0;
            t.mode == Human ==> s.mode == Human && (t.lease.Some? ==> s.lease.Some? && t.lease.value.id == s.lease.value.id)
  {
  }

  /** Human control of a row after a call was there before it, under the same lease. */
  predicate KeepsHuman(store: Store, after: Store, c: Id) {
    c in after && after[c].mode == Human ==>
      && c in store && store[c].mode == Human && store[c].identity == after[c].identity
      && store[c].lease.Some? && after[c].lease.Some? && store[c].lease.value.id == after[c].lease.value.id
  }

  lemma RowCallKeepsHuman(store: Store, e: Env, id: BrowserIdentity, op: RowOp, c: Id)
    requires StoreConsistent(store) && !op.ConfirmTakeover? && ApplyRow(store, e, id, op).Success?
    ensures KeepsHuman(store, ApplyRow(store, e, id, op).value.0, c)
  {
    var s := Load(store, e, id).value;
    ExpiryAdvances(store[id.conversation], e);
    StepAdvances(s, e, id, op);
    HumanOnlyByConfirmation(s, e, op);
    assert c in store ==> Consistent(store[c]);
  }

  lemma OtherCallKeepsHuman(store: Store, e: Env, op: Op, c: Id)
    requires StoreConsistent(store) && (Apply(store, e, op).Failure? || !op.OnRow?)
    ensures KeepsHuman(store, Exec(store, e, op), c)
  {
    assert c in store ==> Consistent(store[c]);
  }

  lemma ExecMoves(w: World, e: Env, op: Op)
    requires StoreConsistent(w.store) && (op.OnRow? ==> !op.row.ConfirmTakeover?)
    ensures StoreMoves(w, w.(store := Exec(w.store, e, op)))
  {
    CallAdvances(w.store, e, op);
    if Apply(w.store, e, op).Failure? || !op.OnRow? {
      OtherCallKeepsHuman(w.store, e, op, w.id.conversation);
    } else {
      RowCallKeepsHuman(w.store, e, op.id, op.row, w.id.conversation);
    }
    KeptHumanMoves(w, Exec(w.store, e, op), op);
  }

  lemma KeptHumanMoves(w: World, after: Store, op: Op)
    requires StoreAdvances(w.store, op, after) && KeepsHuman(w.store, after, w.id.conversation)
    ensures StoreMoves(w, w.(store := after))
  {
  }

  lemma AskMoves(w: World, e: Env, op: RowOp)
    requires StoreConsistent(w.store) && !op.ConfirmTakeover?
    ensures var (v, s) := Ask(w, e, op);
            && v == w.(store := v.store) && StoreMoves(w, v)
            && (s.Some? ==> w.id.conversation in v.store && s.value == v.store[w.id.conversation] && s.value.identity == w.id)
  {
    ExecMoves(w, e, OnRow(w.id, op));
    if ApplyRow(w.store, e, w.id, op).Success? {
      ReplyIsTheRow(w, e, op);
    } else {
      assert w.(store := w.store) == w;
    }
  }

  lemma ReplyIsTheRow(w: World, e: Env, op: RowOp)
    requires ApplyRow(w.store, e, w.id, op).Success?
    ensures var r := ApplyRow(w.store, e, w.id, op).value;
            w.id.conversation in r.0 && (r.1.StateReply? ==> r.1.state == r.0[w.id.conversation])
            && r.0[w.id.conversation].identity == w.id
  {
  }

  lemma MovesCompose(w: World, v: World, u: World)
    requires StoreMoves(w, v) && StoreMoves(v, u)
    ensures StoreMoves(w, u)
  {
  }

  /** An authorized token meets exactly the lease it was granted under. */
  lemma AuthorizedMeetsItsLease(w: World, e: Env, live: bool, token: Id)
    requires StoreConsistent(w.store) && TokenLaw(w)
    ensures var (v, ok) := Authorized(w, e, live, token);
            && v == w.(store := v.store) && StoreMoves(w, v)
            && (ok ==> && !w.blocked && w.token == Some(token) && token in w.granted && UnderHuman(v)
                       && LeaseNow(v) == w.granted[token] && v.store[w.id.conversation].active.None?)
  {
    AskMoves(w, e, Read);
  }

  // ---------------------------------------------------------------- each coroutine segment

  lemma DispatchKeepsSafe(w: World, e: Env, epoch: Id, live: bool)
    requires Safe(w)
    ensures Safe(DispatchInput(w, e, epoch, live))
  {
    AuthorizedMeetsItsLease(w, e, live, epoch);
    OrdinaryKeepsSafe(w, DispatchInput(w, e, epoch, live));
  }

  lemma EndDispatchKeepsSafe(w: World)
    requires Safe(w)
    ensures Safe(EndDispatch(w))
  {
    SameStore(w, EndDispatch(w));
    OrdinaryKeepsSafe(w, EndDispatch(w));
  }

  lemma SendClipboardKeepsSafe(w: World, e: Env, live: bool)
    requires Safe(w)
    ensures Safe(SendClipboardData(w, e, live))
  {
    if w.input.Dispatching? {
      AuthorizedMeetsItsLease(w, e, live, w.input.token);
      OrdinaryKeepsSafe(w, SendClipboardData(w, e, live));
    }
  }

  lemma RepeatKeyKeepsSafe(w: World, e: Env, live: bool)
    requires Safe(w)
    ensures Safe(RepeatHeldKey(w, e, live))
  {
    if w.input == Free && w.token.Some? {
      AuthorizedMeetsItsLease(w, e, live, w.token.value);
      OrdinaryKeepsSafe(w, RepeatHeldKey(w, e, live));
    }
  }

  lemma SameStore(w: World, v: World)
    requires StoreConsistent(w.store) && v.store == w.store && v.id == w.id
    ensures StoreMoves(w, v)
  {
  }

  /** After some controller calls a step may drop the token and move its own fields. */
  lemma ChangesKeepSafe(w: World, v: World, x: World)
    requires Safe(w) && StoreMoves(w, v) && v == w.(store := v.store) && LockLaw(x)
    requires x == v.(token := x.token, owner := x.owner, blocked := x.blocked, transition := x.transition, input := x.input)
    requires (x.token == w.token || x.token.None?) && (x.input.Dispatching? ==> x.input == w.input)
    requires Returning(x.transition).None? || Returning(x.transition) == Returning(w.transition)
    requires Returned(x.transition).None? || Returned(x.transition) == Returned(w.transition)
    ensures Safe(x)
  {
    assert UnderHuman(x) == UnderHuman(v) && LeaseNow(x) == LeaseNow(v) && LeaseStands(x) == LeaseStands(v);
    OrdinaryKeepsSafe(w, x);
  }

  lemma BeginGrantKeepsSafe(w: World, v: World, pending: ControlState, moving: bool)
    requires Safe(w) && StoreMoves(w, v) && v == w.(store := v.store) && w.transition == Idle
    ensures Safe(BeginGrant(v, pending, moving)) && Safe(v)
  {
    ChangesKeepSafe(w, v, BeginGrant(v, pending, moving));
    ChangesKeepSafe(w, v, v);
  }

  lemma RevocationKeepsSafe(w: World, v: World, purpose: Purpose)
    requires Safe(w) && StoreMoves(w, v) && v == w.(store := v.store) && w.transition == Idle && !purpose.ForHandback?
    ensures Safe(v.(token := None, transition := Publishing(purpose))) && Safe(v)
  {
    ChangesKeepSafe(w, v, v.(token := None, transition := Publishing(purpose)));
    ChangesKeepSafe(w, v, v);
  }

  lemma TakeKeepsSafe(w: World, e: Env, who: OwnerBinding, request: Id, revision: int, auth: Option<Time>)
    requires Safe(w)
    ensures Safe(TakeControl(w, e, who, request, revision, auth))
  {
    if w.transition == Idle {
      var (v, s) := Ask(w, e, RequestTakeover(who, request, revision, auth));
      AskMoves(w, e, RequestTakeover(who, request, revision, auth));
      if s.Some? { BeginGrantKeepsSafe(w, v, s.value, false); } else { ChangesKeepSafe(w, v, v); }
    }
  }

  lemma SettleKeepsSafe(w: World, e: Env)
    requires Safe(w)
    ensures Safe(SettleTakeover(w, e))
  {
    if w.transition == Idle {
      var (v, s) := Ask(w, e, Read);
      AskMoves(w, e, Read);
      if s.Some? { BeginGrantKeepsSafe(w, v, s.value, false); } else { ChangesKeepSafe(w, v, v); }
    }
  }

  /** A pause of the standing lease, right after reading the row, then revocation for the given purpose. */
  lemma PauseKeepsSafe(w: World, v: World, e: Env, owner: OwnerBinding, purpose: Purpose)
    requires Safe(w) && StoreMoves(w, v) && v == w.(store := v.store) && w.transition == Idle && !purpose.ForHandback?
    ensures var u := Ask(v, e, Pause(owner)).0; Safe(u) && Safe(u.(token := None, transition := Publishing(purpose)))
    ensures StoreMoves(w, Ask(v, e, Pause(owner)).0)
  {
    AskMoves(v, e, Pause(owner));
    var u := Ask(v, e, Pause(owner)).0;
    MovesCompose(w, v, u);
    RevocationKeepsSafe(w, u, purpose);
  }

  lemma MoveKeepsSafe(w: World, e: Env, f: Env, who: OwnerBinding, request: Id, revision: int, auth: Option<Time>)
    requires Safe(w)
    ensures Safe(MoveControl(w, e, f, who, request, revision, auth))
  {
    if w.transition == Idle {
      var (v, s) := Ask(w, e, Read);
      AskMoves(w, e, Read);
      RevocationKeepsSafe(w, v, ForRevocation);
      if s.Some? && s.value.lease.Some? {
        var (u, t) := Ask(v, f, Pause(s.value.lease.value.owner));
        PauseKeepsSafe(w, v, f, s.value.lease.value.owner,
                       ForMove(who, request, if t.Some? then t.value.revision else 0, auth));
      }
    }
  }

  lemma ReauthorizationKeepsSafe(w: World, v: World, f: Env, g: Env, live: bool)
    requires Safe(w) && Safe(v) && StoreMoves(w, v) && v == w.(store := v.store) && w.transition == Idle && v.token.Some?
    ensures var u := Authorized(v, f, live, v.token.value).0;
            && Safe(u) && Safe(u.(token := None, transition := Publishing(ForRevocation)))
            && (u.owner.Some? ==>
                  var x := Ask(u, g, Pause(u.owner.value)).0;
                  Safe(x) && Safe(x.(token := None, transition := Publishing(ForRevocation))))
  {
    var u := Authorized(v, f, live, v.token.value).0;
    AuthorizedMeetsItsLease(v, f, live, v.token.value);
    MovesCompose(w, v, u);
    RevocationKeepsSafe(w, u, ForRevocation);
    if u.owner.Some? { PauseKeepsSafe(w, u, g, u.owner.value, ForRevocation); }
  }

  lemma ReconcileKeepsSafe(w: World, e: Env, f: Env, g: Env, live: bool)
    requires Safe(w)
    ensures Safe(ReconcileInput(w, e, f, g, live))
  {
    if w.transition == Idle {
      var (v, s) := Ask(w, e, Read);
      AskMoves(w, e, Read);
      ChangesKeepSafe(w, v, v);
      if s.Some? && v.token.Some? {
        ReauthorizationKeepsSafe(w, v, f, g, live);
      }
    }
  }

  lemma DisconnectKeepsSafe(w: World, e: Env, f: Env, token: Id)
    requires Safe(w)
    ensures Safe(DisconnectViewer(w, e, f, token))
  {
    if w.transition == Idle {
      var (v, s) := Ask(w, e, Read);
      AskMoves(w, e, Read);
      RevocationKeepsSafe(w, v, ForRevocation);
      if s.Some? && s.value.lease.Some? {
        PauseKeepsSafe(w, v, f, s.value.lease.value.owner, ForRevocation);
      }
    }
  }

  lemma AnnounceKeepsSafe(w: World, ok: bool, e: Env)
    requires Safe(w)
    ensures Safe(GrantAnnounced(w, ok, e))
  {
    if w.transition.Announcing? {
      var v := w.(token := None, blocked := true);
      SameStore(w, w);
      ChangesKeepSafe(w, w, if ok then Released(w) else Released(v));
      if !ok && v.owner.Some? {
        AskMoves(w, e, Pause(v.owner.value));
        var u := Ask(w, e, Pause(v.owner.value)).0;
        ChangesKeepSafe(w, u, Released(u.(token := None, blocked := true)));
      }
    }
  }

  lemma LockReturnKeepsSafe(w: World, e: Env)
    requires Safe(w)
    ensures Safe(LockReturn(w, e))
  {
    if w.transition.AwaitingReturn? && w.input == Free {
      AskMoves(w, e, Read);
      ChangesKeepSafe(w, Ask(w, e, Read).0, LockReturn(w, e));
    }
  }

  /** Steps that only move the boundary's own fields. */
  lemma LocalStepKeepsSafe(w: World, x: World)
    requires Safe(w) && LockLaw(x)
    requires x == w.(token := x.token, owner := x.owner, blocked := x.blocked, transition := x.transition, input := x.input)
    requires (x.token == w.token || x.token.None?) && (x.input.Dispatching? ==> x.input == w.input)
    requires Returning(x.transition).None? || Returning(x.transition) == Returning(w.transition)
    requires Returned(x.transition).None? || Returned(x.transition) == Returned(w.transition)
    ensures Safe(x)
  {
    SameStore(w, w);
    ChangesKeepSafe(w, w, x);
  }

  lemma ResumeKeepsSafe(w: World, ok: bool)
    requires Safe(w)
    ensures Safe(ResumeAnswered(w, ok))
  {
    SameStore(w, ResumeAnswered(w, ok));
    OrdinaryKeepsSafe(w, ResumeAnswered(w, ok));
  }

  lemma OutsideKeepsSafe(w: World, e: Env, op: Op)
    requires Safe(w) && IsOutside(op)
    ensures Safe(w.(store := Exec(w.store, e, op)))
  {
    ExecMoves(w, e, op);
    OrdinaryKeepsSafe(w, w.(store := Exec(w.store, e, op)));
  }

  lemma NotingKeepsSafe(w: World)
    requires Safe(w)
    ensures Safe(Noted(w))
  {
    SameStore(w, Noted(w));
    OrdinaryKeepsSafe(w, Noted(w));
  }

  // ---------------------------------------------------------------- the four steps that write history

  /** Anything recorded about an earlier revision stays true once the revision has moved on. */
  lemma NewRevisionKeepsReturns(w: World, v: World)
    requires Safe(w) && w.id == v.id && v.log == w.log && v.id.conversation in v.store && Revision(w) < Revision(v)
    ensures RevokedLaw(v) && DrainedLaw(v)
  {
    forall d | 0 <= d < |v.log| && v.log[d].Drained? ensures v.log[d].revision < Revision(v) {
      var i :| 0 <= i < d && i < |w.log| && w.log[i] == Revoked(w.log[d].revision);
      assert w.log[i].Revoked?;
    }
  }

  lemma ConfirmKeepsSafe(w: World, e: Env, token: Id)
    requires Safe(w)
    ensures Safe(ConfirmGrant(w, e, token))
  {
    var v := ConfirmGrant(w, e, token);
    if w.transition.Confirming? && w.input == Free && token !in w.granted {
      var op := ConfirmTakeover(w.transition.pending.revision, w.transition.observation);
      var (u, s) := Ask(w, e, op);
      ConfirmationMoves(w, e, op);
      if s.None? || s.value.lease.None? {
        SameStore(w, w);
        ChangesKeepSafe(w, w, Aborted(w, w.transition.moving));
      } else {
        GrantKeepsSafe(w, u, s.value, token);
      }
    }
  }

  lemma ConfirmationMoves(w: World, e: Env, op: RowOp)
    requires StoreConsistent(w.store) && op.ConfirmTakeover?
    ensures var (u, s) := Ask(w, e, op);
            && u == w.(store := u.store) && StoreConsistent(u.store) && (s.None? ==> u == w)
            && (s.Some? ==> w.id.conversation in u.store && s.value == u.store[w.id.conversation] && s.value.lease.Some?
                            && Revision(w) < Revision(u))
  {
    if ApplyRow(w.store, e, w.id, op).Success? {
      CallAdvances(w.store, e, OnRow(w.id, op));
      ReplyIsTheRow(w, e, op);
      ExpiryAdvances(w.store[w.id.conversation], e);
    }
  }

  lemma GrantKeepsSafe(w: World, u: World, s: ControlState, token: Id)
    requires Safe(w) && w.transition.Confirming? && w.input == Free && token !in w.granted
    requires u == w.(store := u.store) && StoreConsistent(u.store) && u.id.conversation in u.store
    requires s == u.store[u.id.conversation] && s.lease.Some? && Revision(w) < Revision(u)
    ensures Safe(u.(owner := Some(s.lease.value.owner), token := Some(token), input := HeldByTransition,
                    transition := Announcing(w.transition.moving), granted := u.granted[token := s.lease.value.id]))
  {
    var v := u.(owner := Some(s.lease.value.owner), token := Some(token), input := HeldByTransition,
                transition := Announcing(w.transition.moving), granted := u.granted[token := s.lease.value.id]);
    NewRevisionKeepsReturns(w, v);
  }

  lemma RevokeKeepsSafe(w: World, clear: bool, e: Env)
    requires Safe(w)
    ensures Safe(RevokeForReturn(w, clear, e))
  {
    if w.transition.CheckingSensitive? {
      var op := BeginReturn(w.transition.who, w.transition.lease, w.transition.revision);
      var (u, s) := Ask(w, e, op);
      AskMoves(w, e, op);
      SameStore(w, w);
      ChangesKeepSafe(w, w, Released(w));
      ChangesKeepSafe(w, u, Released(u));
      if clear && s.Some? {
        ReturnPausesTheRow(w, e, op);
        var v := Released(u).(token := None, transition := Publishing(ForHandback(w.transition.who, s.value.revision)));
        NewRevisionKeepsReturns(w, v);
        RevokedKeepsSafe(w, v, s.value.revision);
      }
    }
  }

  lemma ReturnPausesTheRow(w: World, e: Env, op: RowOp)
    requires StoreConsistent(w.store) && op.BeginReturn? && Ask(w, e, op).1.Some?
    ensures var (u, s) := Ask(w, e, op);
            s.value.mode == Paused && s.value.lease.None? && s.value.revision == Revision(u) && Revision(w) < Revision(u)
  {
    ReplyIsTheRow(w, e, op);
    ExpiryAdvances(w.store[w.id.conversation], e);
  }

  /** The part of the invariant that speaks of the log alone. */
  predicate HistoryLaw(log: seq<Mark>) {
    && (forall d | 0 <= d < |log| && log[d].Drained? :: RevokedBefore(log, d, log[d].revision))
    && (forall k | 0 <= k < |log| && log[k].Admitted? :: Backed(log, k))
  }

  lemma MarkKeepsHistory(log: seq<Mark>, m: Mark)
    requires HistoryLaw(log)
    requires m.Drained? ==> RevokedBefore(log, |log|, m.revision)
    requires m.Admitted? ==> Backed(log + [m], |log|)
    ensures HistoryLaw(log + [m])
  {
    var x := log + [m];
    forall d | 0 <= d < |x| && x[d].Drained? ensures RevokedBefore(x, d, x[d].revision) {
      var i :| 0 <= i < d && i < |log| && log[i] == Revoked(x[d].revision);
      assert x[i] == log[i];
    }
    forall k | 0 <= k < |x| && x[k].Admitted? ensures Backed(x, k) {
      if k < |log| { BackedPersists(log, x, k); }
    }
  }

  lemma MarkKeepsRevoked(w: World, m: Mark)
    requires RevokedLaw(w) && (m.Revoked? || m.Drained? || m.Admitted?)
    requires m.Revoked? ==> && w.id.conversation in w.store && m.revision <= Revision(w)
                            && (Revision(w) == m.revision ==> !LeaseStands(w) && w.store[w.id.conversation].mode == Paused)
    ensures RevokedLaw(Logged(w, m))
  {
    var x := Logged(w, m);
    assert forall k | 0 <= k < |w.log| :: x.log[k] == w.log[k];
    assert x.log[|w.log|] == m;
  }

  /** A mark that neither accepts nor finishes input keeps what is promised since every revocation and drain. */
  lemma MarkKeepsLaws(w: World, m: Mark)
    requires RevokedLaw(w) && DrainedLaw(w) && HistoryLaw(w.log) && (m.Revoked? || m.Drained? || m.Admitted?)
    requires m.Revoked? ==> && w.id.conversation in w.store && m.revision <= Revision(w)
                            && (Revision(w) == m.revision ==> !LeaseStands(w) && w.store[w.id.conversation].mode == Paused)
    requires m.Drained? ==> RevokedBefore(w.log, |w.log|, m.revision) && (Revision(w) == m.revision ==> !w.input.Dispatching?)
    requires m.Admitted? ==> Backed(w.log + [m], |w.log|)
    ensures RevokedLaw(Logged(w, m)) && DrainedLaw(Logged(w, m)) && HistoryLaw(Logged(w, m).log)
  {
    MarkKeepsRevoked(w, m);
    MarkKeepsHistory(w.log, m);
    var x := Logged(w, m);
    forall d | 0 <= d < |x.log| && x.log[d].Drained? && Revision(x) == x.log[d].revision
      ensures !x.input.Dispatching? && NothingFinishesIn(x.log, d, |x.log|)
    {
      assert d < |w.log| ==> w.log[d] == x.log[d] && NothingFinishesIn(w.log, d, |w.log|);
    }
  }

  lemma RevokedKeepsSafe(w: World, v: World, revision: int)
    requires Safe(w) && v.log == w.log && v.granted == w.granted && v.handover == w.handover && StoreConsistent(v.store)
    requires TokenLaw(v) && LockLaw(v) && RevokedLaw(v) && DrainedLaw(v) && v.id.conversation in v.store && !v.input.Dispatching?
    requires Revision(v) == revision && !LeaseStands(v) && v.store[v.id.conversation].mode == Paused
    requires Returning(v.transition) == Some(revision)
    requires forall k | 0 <= k < |v.log| && v.log[k].Drained? :: v.log[k].revision < revision
    ensures Safe(Logged(v, Revoked(revision)))
  {
    var x := Logged(v, Revoked(revision));
    assert x.log[|v.log|] == Revoked(revision);
    assert forall k | 0 <= k < |v.log| :: x.log[k] == v.log[k];
    MarkKeepsLaws(v, Revoked(revision));
  }

  lemma DrainKeepsSafe(w: World, ok: bool, e: Env)
    requires Safe(w)
    ensures Safe(EndDrain(w, ok, e))
  {
    if w.transition.Draining? {
      var v := Released(w);
      if !ok {
        LocalStepKeepsSafe(w, Failed(w));
      } else {
        match w.transition.purpose
        case ForRevocation => LocalStepKeepsSafe(w, v.(owner := None));
        case ForGrant(pending, moving) => LocalStepKeepsSafe(w, v.(owner := None, transition := StreamingModel.Fencing(pending, moving)));
        case ForHandback(who, revision) => HandbackDrainKeepsSafe(w, who, revision);
        case ForMove(to, request, revision, auth) =>
          var x := v.(owner := None);
          LocalStepKeepsSafe(w, x);
          var (u, s) := Ask(x, e, RequestTakeover(to, request, revision, auth));
          AskMoves(x, e, RequestTakeover(to, request, revision, auth));
          if s.Some? { BeginGrantKeepsSafe(x, u, s.value, true); } else { ChangesKeepSafe(x, u, Failed(u)); }
      }
    }
  }

  lemma HandbackDrainKeepsSafe(w: World, who: OwnerBinding, revision: int)
    requires Safe(w) && w.transition == Draining(ForHandback(who, revision))
    ensures Safe(Logged(Released(w).(transition := Observing(who, revision)), Drained(revision)))
  {
    var y := Released(w).(transition := Observing(who, revision));
    var x := Logged(y, Drained(revision));
    LocalStepKeepsSafe(w, Released(w));
    assert forall k | 0 <= k < |w.log| :: x.log[k] == w.log[k];
    assert x.log[|w.log|] == Drained(revision);
    assert RevokedBefore(w.log, |w.log|, revision);
    MarkKeepsLaws(y, Drained(revision));
  }

  /** A run admitted from a paused browser presents the handover of the standing revision. */
  lemma AdmissionPresentsItsRevision(w: World, e: Env, op: RowOp)
    requires StoreConsistent(w.store) && op.AdmitRun? && op.leaseId.None? && Ask(w, e, op).1.Some?
    requires Load(w.store, e, w.id).Success? && Load(w.store, e, w.id).value.mode == Paused
    ensures op.handover.Some? && op.handover.value.revision == op.revision == Load(w.store, e, w.id).value.revision
    ensures Revision(w) < Revision(Ask(w, e, op).0) && Revision(w) <= op.revision
    ensures Load(w.store, e, w.id).value != w.store[w.id.conversation] ==> Revision(w) < op.revision
  {
    ReplyIsTheRow(w, e, op);
    ExpiryAdvances(w.store[w.id.conversation], e);
  }

  lemma AdmitKeepsSafe(w: World, e: Env, who: OwnerBinding, run: RunBinding, revision: int, ended: Option<RunTerminal>)
    requires Safe(w)
    ensures Safe(AdmitFollowUp(w, e, who, run, revision, ended))
  {
    var op := RowOp.AdmitRun(who, run, None, revision, ended, w.handover);
    AskMoves(w, e, op);
    var (v, s) := Ask(w, e, op);
    DroppedHandoverKeepsSafe(w, v);
    if s.Some? && Load(w.store, e, w.id).Success? && Load(w.store, e, w.id).value.mode == Paused {
      AdmissionPresentsItsRevision(w, e, op);
      AdmissionIsBacked(w, revision);
      AdmittedKeepsSafe(w, v, revision);
    }
  }

  lemma DroppedHandoverKeepsSafe(w: World, v: World)
    requires Safe(w) && StoreMoves(w, v) && v == w.(store := v.store)
    ensures Safe(v) && Safe(v.(handover := None))
  {
    ChangesKeepSafe(w, v, v);
    SameStore(v, v.(handover := None));
    OrdinaryKeepsSafe(v, v.(handover := None));
  }

  /** At the moment of admission the history already shows the revocation, the drain, and nothing since. */
  lemma AdmissionIsBacked(w: World, revision: int)
    requires Safe(w) && w.handover.Some? && w.handover.value.revision == revision && Revision(w) <= revision
    ensures Revision(w) == revision
    ensures Backed(w.log + [Admitted(revision)], |w.log|)
  {
    var log := w.log + [Admitted(revision)];
    var d :| 0 <= d < |w.log| && w.log[d] == Drained(revision);
    assert w.log[d].Drained?;
    var i :| 0 <= i < d && i < |w.log| && w.log[i] == Revoked(revision);
    assert w.log[i].Revoked?;
    assert log[i] == w.log[i] && log[d] == w.log[d];
    assert NoControlIn(log, i, |w.log|) && NothingFinishesIn(log, d, |w.log|);
  }

  lemma AdmittedKeepsSafe(w: World, v: World, revision: int)
    requires Safe(w) && v == w.(store := v.store) && Safe(v) && Safe(v.(handover := None)) && Revision(w) < Revision(v)
    requires Backed(w.log + [Admitted(revision)], |w.log|)
    ensures Safe(Logged(v.(handover := None), Admitted(revision)))
  {
    var u := v.(handover := None);
    var x := Logged(u, Admitted(revision));
    assert forall k | 0 <= k < |u.log| :: x.log[k] == u.log[k];
    MarkKeepsLaws(u, Admitted(revision));
  }

  // ---------------------------------------------------------------- every interleaving

  lemma WaitingStepsKeepSafe(w: World, who: OwnerBinding, lease: Id, revision: int)
    requires Safe(w)
    ensures Safe(BeginHandback(w, who, lease, revision)) && Safe(StartDrain(w))
  {
    LocalStepKeepsSafe(w, BeginHandback(w, who, lease, revision));
    LocalStepKeepsSafe(w, StartDrain(w));
  }

  lemma PublishKeepsSafe(w: World, ok: bool)
    requires Safe(w)
    ensures Safe(PublishAnswered(w, ok))
  {
    LocalStepKeepsSafe(w, PublishAnswered(w, ok));
  }

  lemma AnswersKeepSafe(w: World, ok: bool, proof: Option<FenceObservation>)
    requires Safe(w)
    ensures Safe(FenceAnswered(w, proof)) && Safe(ObservationAnswered(w, ok))
  {
    if w.transition.Fencing? {
      LocalStepKeepsSafe(w, FenceAnswered(w, proof));
    } else if w.transition.Observing? {
      LocalStepKeepsSafe(w, ObservationAnswered(w, ok));
    }
  }

  lemma LockStepsKeepSafe(w: World)
    requires Safe(w)
    ensures Safe(LockForObserver(w)) && Safe(UnlockObserver(w))
  {
    LocalStepKeepsSafe(w, LockForObserver(w));
    LocalStepKeepsSafe(w, UnlockObserver(w));
  }

  lemma ShutdownKeepsSafe(w: World)
    requires Safe(w)
    ensures Safe(ShutDown(w))
  {
    LocalStepKeepsSafe(w, ShutDown(w));
  }

  lemma CancellationKeepsSafe(w: World)
    requires Safe(w)
    ensures Safe(CancelTransition(w))
  {
    LocalStepKeepsSafe(w, CancelTransition(w));
  }

  predicate IsControl(a: Action) {
    a.Outside? || a.Take? || a.Settle? || a.Move? || a.Reconcile? || a.Disconnect? || a.DrainEnds? || a.Confirm? || a.Announced?
    || a.ReturnLocked? || a.SensitiveChecked? || a.Admit?
  }

  lemma ControlStepKeepsSafe(w: World, a: Action)
    requires Safe(w) && IsControl(a)
    ensures Safe(Core(w, a))
  {
    match a
    case Outside(e, op) => if IsOutside(op) { OutsideKeepsSafe(w, e, op); }
    case Take(e, who, request, revision, auth) => TakeKeepsSafe(w, e, who, request, revision, auth);
    case Settle(e) => SettleKeepsSafe(w, e);
    case Move(e, f, who, request, revision, auth) => MoveKeepsSafe(w, e, f, who, request, revision, auth);
    case Reconcile(e, f, g, live) => ReconcileKeepsSafe(w, e, f, g, live);
    case Disconnect(e, f, token) => DisconnectKeepsSafe(w, e, f, token);
    case DrainEnds(ok, e) => DrainKeepsSafe(w, ok, e);
    case Confirm(e, token) => ConfirmKeepsSafe(w, e, token);
    case Announced(ok, e) => AnnounceKeepsSafe(w, ok, e);
    case ReturnLocked(e) => LockReturnKeepsSafe(w, e);
    case SensitiveChecked(clear, e) => RevokeKeepsSafe(w, clear, e);
    case Admit(e, who, run, revision, ended) => AdmitKeepsSafe(w, e, who, run, revision, ended);
  }

  predicate IsInput(a: Action) {
    a.Dispatch? || a.DispatchEnds? || a.SendClipboard? || a.RepeatKey?
  }

  lemma InputStepKeepsSafe(w: World, a: Action)
    requires Safe(w) && IsInput(a)
    ensures Safe(Core(w, a))
  {
    match a
    case Dispatch(e, epoch, live) => DispatchKeepsSafe(w, e, epoch, live);
    case DispatchEnds => EndDispatchKeepsSafe(w);
    case SendClipboard(e, live) => SendClipboardKeepsSafe(w, e, live);
    case RepeatKey(e, live) => RepeatKeyKeepsSafe(w, e, live);
  }

  lemma CoreKeepsSafe(w: World, a: Action)
    requires Safe(w)
    ensures Safe(Core(w, a))
  {
    if IsControl(a) {
      ControlStepKeepsSafe(w, a);
    } else if IsInput(a) {
      InputStepKeepsSafe(w, a);
    } else {
      match a
      case Handback(who, lease, revision) => WaitingStepsKeepSafe(w, who, lease, revision);
      case Published(ok) => PublishKeepsSafe(w, ok);
      case DrainStarts => WaitingStepsKeepSafe(w, OwnerBinding("", "", 0, ""), "", 0);
      case FenceReplied(proof) => AnswersKeepSafe(w, true, proof);
      case Observed(ok) => AnswersKeepSafe(w, ok, None);
      case Resumed(ok) => ResumeKeepsSafe(w, ok);
      case ObserverLocks => LockStepsKeepSafe(w);
      case ObserverUnlocks => LockStepsKeepSafe(w);
      case Shutdown => ShutdownKeepsSafe(w);
      case Cancelled => CancellationKeepsSafe(w);
    }
  }

  /** A boundary as constructed: no token, nothing in progress, no history. */
  predicate Fresh(w: World) {
    && StoreConsistent(w.store) && w.token.None? && !w.blocked && w.transition == Idle && w.input == Free
    && w.handover.None? && w.granted == map[] && w.log == []
  }

  lemma {:induction false} EveryInterleavingIsSafe(w: World, actions: seq<Action>)
    requires Safe(w)
    ensures Safe(Steps(w, actions))
    decreases |actions|
  {
    if actions != [] {
      CoreKeepsSafe(w, actions[0]);
      NotingKeepsSafe(Core(w, actions[0]));
      EveryInterleavingIsSafe(Step(w, actions[0]), actions[1..]);
    }
  }

  // ---------------------------------------------------------------- main results

  /** A step that marked something beyond w's log did so under human control, by the very lease its token was granted. */
  predicate MarkedUnderItsLease(w: World, v: World, token: Id, marks: seq<Mark>) {
    v.log != w.log ==>
      && v.log == w.log + marks && !w.blocked && token in w.granted && UnderHuman(v) && LeaseNow(v) == w.granted[token]
      && v.store[v.id.conversation].active.None?
  }

  /** From a freshly constructed boundary, whatever the interleaving: every input ever accepted, dispatched or repeated, and
      every clipboard sent, was so while the very lease its token was granted under was the current human lease. */
  lemma {:induction false} InputIsAcceptedOnlyUnderItsLease(start: World, actions: seq<Action>, e: Env, epoch: Id, live: bool)
    requires Fresh(start)
    ensures var w := Steps(start, actions);
            && AcceptLaw(w)
            && (var v := DispatchInput(w, e, epoch, live);
                (v.log != w.log ==> w.token == Some(epoch)) && MarkedUnderItsLease(w, v, epoch, [Accepted(epoch, LeaseNow(v))]))
            && (w.token.Some? ==>
                  var token, v := w.token.value, RepeatHeldKey(w, e, live);
                  MarkedUnderItsLease(w, v, token, [Accepted(token, LeaseNow(v)), Finished(token)]))
            && (w.token.None? ==> RepeatHeldKey(w, e, live) == w)
            && (w.input.Dispatching? ==>
                  var token, v := w.input.token, SendClipboardData(w, e, live);
                  (v.log != w.log ==> w.token == Some(token)) && MarkedUnderItsLease(w, v, token, [ClipboardSent(token, LeaseNow(v))]))
  {
    assert Safe(start);
    EveryInterleavingIsSafe(start, actions);
    var w := Steps(start, actions);
    AuthorizedMeetsItsLease(w, e, live, epoch);
    if w.token.Some? {
      RepeatMeetsItsLease(w, e, live);
    }
    if w.input.Dispatching? { AuthorizedMeetsItsLease(w, e, live, w.input.token); }
  }

  lemma RepeatMeetsItsLease(w: World, e: Env, live: bool)
    requires StoreConsistent(w.store) && TokenLaw(w) && w.token.Some?
    ensures var token, v := w.token.value, RepeatHeldKey(w, e, live);
            MarkedUnderItsLease(w, v, token, [Accepted(token, LeaseNow(v)), Finished(token)])
  {
    var token, v := w.token.value, RepeatHeldKey(w, e, live);
    AuthorizedMeetsItsLease(w, e, live, token);
    assert w.log + [Accepted(token, LeaseNow(v))] + [Finished(token)] == w.log + [Accepted(token, LeaseNow(v)), Finished(token)];
  }

  /** Every run admitted on a handover is backed by a completed revoke and drain, with no lease, no accepted input and
      no input still being injected since. */
  lemma {:induction false} HandoversAreBacked(start: World, actions: seq<Action>, k: int)
    requires Fresh(start) && 0 <= k < |Steps(start, actions).log| && Steps(start, actions).log[k].Admitted?
    ensures Backed(Steps(start, actions).log, k)
  {
    assert Safe(start);
    EveryInterleavingIsSafe(start, actions);
  }

  predicate AddsNoInput(w: World, v: World) {
    w.log <= v.log && forall k | |w.log| <= k < |v.log| :: !v.log[k].Accepted? && !v.log[k].ClipboardSent?
  }

  /** No segment unblocks the boundary, accepts input while it is blocked, or publishes a token a second time. */
  predicate Calm(w: World, v: World) {
    && w.log <= v.log && w.granted.Keys <= v.granted.Keys
    && (w.blocked ==> v.blocked && AddsNoInput(w, v))
    && (v.token.Some? && v.token != w.token ==> v.token.value !in w.granted && v.token.value in v.granted)
  }

  lemma AskOnlyStores(w: World, e: Env, op: RowOp)
    ensures Ask(w, e, op).0 == w.(store := Ask(w, e, op).0.store)
  {
  }

  lemma InputStepsAreCalm(w: World, e: Env, epoch: Id, live: bool)
    ensures Calm(w, DispatchInput(w, e, epoch, live)) && Calm(w, EndDispatch(w))
    ensures Calm(w, SendClipboardData(w, e, live)) && Calm(w, RepeatHeldKey(w, e, live))
  {
    AskOnlyStores(w, e, Read);
  }

  lemma TakeIsCalm(w: World, e: Env, f: Env, who: OwnerBinding, request: Id, revision: int, auth: Option<Time>)
    ensures Calm(w, TakeControl(w, e, who, request, revision, auth)) && Calm(w, SettleTakeover(w, e))
  {
    AskOnlyStores(w, e, RequestTakeover(who, request, revision, auth));
    AskOnlyStores(w, e, Read);
  }

  lemma MoveIsCalm(w: World, e: Env, f: Env, who: OwnerBinding, request: Id, revision: int, auth: Option<Time>)
    ensures Calm(w, MoveControl(w, e, f, who, request, revision, auth))
  {
    var (v, s) := Ask(w, e, Read);
    AskOnlyStores(w, e, Read);
    if s.Some? && s.value.lease.Some? { AskOnlyStores(v, f, Pause(s.value.lease.value.owner)); }
  }

  lemma ReconcileIsCalm(w: World, e: Env, f: Env, g: Env, live: bool)
    ensures Calm(w, ReconcileInput(w, e, f, g, live))
  {
    var (v, s) := Ask(w, e, Read);
    AskOnlyStores(w, e, Read);
    AskOnlyStores(v, f, Read);
    if v.token.Some? {
      var u := Authorized(v, f, live, v.token.value).0;
      if u.owner.Some? { AskOnlyStores(u, g, Pause(u.owner.value)); }
    }
  }

  lemma DisconnectIsCalm(w: World, e: Env, f: Env, token: Id)
    ensures Calm(w, DisconnectViewer(w, e, f, token))
  {
    var (v, s) := Ask(w, e, Read);
    AskOnlyStores(w, e, Read);
    if s.Some? && s.value.lease.Some? { AskOnlyStores(v, f, Pause(s.value.lease.value.owner)); }
  }

  lemma GrantIsCalm(w: World, e: Env, token: Id, ok: bool)
    ensures Calm(w, ConfirmGrant(w, e, token)) && Calm(w, GrantAnnounced(w, ok, e))
  {
    if w.transition.Confirming? {
      AskOnlyStores(w, e, ConfirmTakeover(w.transition.pending.revision, w.transition.observation));
    }
    if w.owner.Some? { AskOnlyStores(w.(token := None, blocked := true), e, Pause(w.owner.value)); }
  }

  lemma ReturnIsCalm(w: World, e: Env, clear: bool)
    ensures Calm(w, LockReturn(w, e)) && Calm(w, RevokeForReturn(w, clear, e))
  {
    AskOnlyStores(w, e, Read);
    if w.transition.CheckingSensitive? {
      AskOnlyStores(w, e, BeginReturn(w.transition.who, w.transition.lease, w.transition.revision));
    }
  }

  lemma DrainIsCalm(w: World, ok: bool, e: Env)
    ensures Calm(w, EndDrain(w, ok, e))
  {
    if w.transition.Draining? && w.transition.purpose.ForMove? {
      var p := w.transition.purpose;
      AskOnlyStores(Released(w).(owner := None), e, RequestTakeover(p.to, p.request, p.revision, p.auth));
    }
  }

  lemma AdmitIsCalm(w: World, e: Env, who: OwnerBinding, run: RunBinding, revision: int, ended: Option<RunTerminal>)
    ensures Calm(w, AdmitFollowUp(w, e, who, run, revision, ended))
  {
    AskOnlyStores(w, e, RowOp.AdmitRun(who, run, None, revision, ended, w.handover));
  }

  predicate StartsTransition(a: Action) {
    a.Take? || a.Settle? || a.Move? || a.Reconcile? || a.Disconnect?
  }

  lemma StartsAreCalm(w: World, a: Action)
    requires StartsTransition(a)
    ensures Calm(w, Core(w, a))
  {
    match a
    case Take(e, who, request, revision, auth) => TakeIsCalm(w, e, e, who, request, revision, auth);
    case Settle(e) => TakeIsCalm(w, e, e, OwnerBinding("", "", 0, ""), "", 0, None);
    case Move(e, f, who, request, revision, auth) => MoveIsCalm(w, e, f, who, request, revision, auth);
    case Reconcile(e, f, g, live) => ReconcileIsCalm(w, e, f, g, live);
    case Disconnect(e, f, token) => DisconnectIsCalm(w, e, f, token);
  }

  predicate ContinuesTransition(a: Action) {
    a.DrainEnds? || a.Confirm? || a.Announced? || a.ReturnLocked? || a.SensitiveChecked?
  }

  lemma ContinuationsAreCalm(w: World, a: Action)
    requires ContinuesTransition(a)
    ensures Calm(w, Core(w, a))
  {
    match a
    case DrainEnds(ok, e) => DrainIsCalm(w, ok, e);
    case Confirm(e, token) => GrantIsCalm(w, e, token, true);
    case Announced(ok, e) => GrantIsCalm(w, e, "", ok);
    case ReturnLocked(e) => ReturnIsCalm(w, e, true);
    case SensitiveChecked(clear, e) => ReturnIsCalm(w, e, clear);
  }

  lemma CoreIsCalm(w: World, a: Action)
    ensures Calm(w, Core(w, a))
  {
    if StartsTransition(a) {
      StartsAreCalm(w, a);
    } else if ContinuesTransition(a) {
      ContinuationsAreCalm(w, a);
    } else {
      match a
      case Dispatch(e, epoch, live) => InputStepsAreCalm(w, e, epoch, live);
      case DispatchEnds => InputStepsAreCalm(w, Env(None, None, None, None, None, "", 0.0), "", true);
      case SendClipboard(e, live) => InputStepsAreCalm(w, e, "", live);
      case RepeatKey(e, live) => InputStepsAreCalm(w, e, "", live);
      case Admit(e, who, run, revision, ended) => AdmitIsCalm(w, e, who, run, revision, ended);
      case _ =>
    }
  }

  lemma StepIsCalm(w: World, a: Action)
    ensures Calm(w, Step(w, a))
  {
    CoreIsCalm(w, a);
  }

  /** Once blocked, always blocked, and no input is ever accepted again. */
  lemma {:induction false} BlockedForever(w: World, actions: seq<Action>)
    requires w.blocked
    ensures Steps(w, actions).blocked && AddsNoInput(w, Steps(w, actions))
    decreases |actions|
  {
    if actions != [] {
      StepIsCalm(w, actions[0]);
      BlockedForever(Step(w, actions[0]), actions[1..]);
    }
  }

  /** Any failure answered after a handback has revoked authority, in publishing, draining, observing or resuming, closes
      the boundary: it is blocked and no later step of any interleaving accepts input. A cancellation is no answer. */
  lemma {:induction false} FailedHandbackClosesTheBoundary(w: World, a: Action, actions: seq<Action>)
    requires Returning(w.transition).Some? || Returned(w.transition).Some?
    requires a == Published(false) || (a.DrainEnds? && !a.ok) || a == Observed(false) || a == Resumed(false)
    requires Step(w, a).transition != w.transition
    ensures Step(w, a).blocked && AddsNoInput(Step(w, a), Steps(Step(w, a), actions))
  {
    BlockedForever(Step(w, a), actions);
  }

  /** A token that is no longer current is dead: it never becomes current again, so an event queued under it before
      the revocation is dropped whenever its turn comes. */
  lemma {:induction false} OldTokensNeverAuthorize(w: World, actions: seq<Action>, token: Id, e: Env, live: bool)
    requires token in w.granted && w.token != Some(token)
    ensures Steps(w, actions).token != Some(token)
    ensures DispatchInput(Steps(w, actions), e, token, live) == Steps(w, actions)
    decreases |actions|
  {
    if actions != [] {
      StepIsCalm(w, actions[0]);
      OldTokensNeverAuthorize(Step(w, actions[0]), actions[1..], token, e, live);
    }
  }
}
