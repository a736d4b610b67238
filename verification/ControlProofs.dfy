/** What every transition of the controller keeps, and what follows over whole histories. */
module ControlProofs {
  import opened Wrappers
  import opened ControlModel

  // ---------------------------------------------------------------- consistency of one row

  predicate AuthorityMatchesMode(s: ControlState) {
    && (s.lease.Some? <==> s.mode in {TakeoverPending, Human})
    && (s.mode == Agent ==> s.admitted.Some?)
    && (s.lease.Some? ==> s.lease.value.expires <= s.lease.value.authExpires
                          && 1 <= s.lease.value.requestRevision < s.revision)
    && 1 <= s.revision && 0 <= s.lastSequence
    && (s.mode == TakeoverPending ==> s.lastSequence == 0)
  }

  /** The single command slot belongs to whoever holds the browser. */
  predicate CommandMatchesHolder(s: ControlState) {
    s.active.Some? ==>
      match s.mode
      case Agent => s.active.value.AgentCommand? && s.admitted == Some(s.active.value.run)
      case Human => s.active.value.HumanCommand? && s.lease.Some? && s.active.value.lease == s.lease.value.id
      case _ => true
  }

  /** An outstanding human command is the one of the retained receipt, and only it can be "reserved". */
  predicate ReceiptMatchesCommand(s: ControlState) {
    && (s.active.Some? && s.active.value.HumanCommand? ==>
          && s.lastInput.Some? && s.lastInput.value.outcome in {Reserved, Uncertain}
          && s.active.value == HumanCommand(s.lastInput.value.command, s.lastInput.value.lease, s.lastInput.value.sequence))
    && (s.lastInput.Some? && s.lastInput.value.outcome == Reserved ==> s.active.Some? && s.active.value.HumanCommand?)
  }

  predicate EmptiedIfRetired(s: ControlState) {
    s.retired ==> s.mode == Paused && s.admitted.None? && s.active.None? && s.lease.None? && s.takeoverAfter.None?
                  && s.currentPage.None?
  }

  predicate Consistent(s: ControlState) {
    AuthorityMatchesMode(s) && CommandMatchesHolder(s) && ReceiptMatchesCommand(s) && EmptiedIfRetired(s)
  }

  predicate StoreConsistent(store: Store) {
    && (forall c | c in store :: store[c].identity.conversation == c && Consistent(store[c]))
    && (forall c, d | c in store && d in store && !store[c].retired && !store[d].retired
                      && store[c].identity.session == store[d].identity.session :: c == d)
  }

  // ---------------------------------------------------------------- the revision as a fence

  /** The part of a lease that conveys authority: renewals of its expiry are not part of it. */
  function Grant(s: ControlState): Option<(Id, OwnerBinding, Id, int, bool, nat)> {
    if s.lease.None? then None
    else Some((s.lease.value.id, s.lease.value.owner, s.lease.value.request, s.lease.value.requestRevision,
               s.lease.value.observing, s.lease.value.epoch))
  }

  predicate SameAuthority(s: ControlState, t: ControlState) {
    && s.identity == t.identity && s.mode == t.mode && Grant(s) == Grant(t) && s.admitted == t.admitted
    && s.retired == t.retired && s.principal == t.principal
  }

  predicate Fenced(s: ControlState, t: ControlState) {
    s.revision <= t.revision && (s.revision == t.revision ==> SameAuthority(s, t))
  }

  predicate Stuck(s: ControlState) {
    s.mode == Recovering && !s.retired
  }

  /** The law of one transition of a row. */
  predicate Advances(s: ControlState, t: ControlState) {
    && Consistent(t) && Fenced(s, t) && t.identity == s.identity
    && (s.retired ==> t == s)
    && (Stuck(s) && !t.retired ==> Stuck(t))
  }

  lemma ExpiryAdvances(s: ControlState, e: Env)
    requires Consistent(s) && Expire(s, e).Success?
    ensures Advances(s, Expire(s, e).value)
    ensures var t := Expire(s, e).value; t == s || (t.revision == s.revision + 1 && t.lease.None? && t.mode in {Paused, Recovering})
  {
  }

  predicate Ready(e: Env, op: RowOp) {
    op.RequestTakeover? ==> op.authExpires.Some? && e.earlier.Some?
  }

  lemma InputStepAdvances(s: ControlState, e: Env, id: BrowserIdentity, op: RowOp)
    requires Consistent(s) && ArgumentError(id, op, e).None? && RowStep(s, e, op).Success?
    requires op.ReserveInput? || op.CompleteInput? || op.ReserveAgent? || op.CompleteAgent?
    ensures Advances(s, RowStep(s, e, op).value.0)
    ensures Stuck(s) ==> !RowStep(s, e, op).value.0.retired
  {
  }

  lemma LeaseStepAdvances(s: ControlState, e: Env, id: BrowserIdentity, op: RowOp)
    requires Consistent(s) && ArgumentError(id, op, e).None? && RowStep(s, e, op).Success?
    requires op.RequestTakeover? || op.ConfirmTakeover? || op.Heartbeat? || op.ObservationMode? || op.AuthorizeObservation?
    ensures Advances(s, RowStep(s, e, op).value.0)
    ensures Stuck(s) ==> !RowStep(s, e, op).value.0.retired
  {
  }

  lemma StepAdvances(s: ControlState, e: Env, id: BrowserIdentity, op: RowOp)
    requires Consistent(s) && ArgumentError(id, op, e).None? && RowStep(s, e, op).Success?
    ensures Advances(s, RowStep(s, e, op).value.0)
    ensures Stuck(s) && !op.Retire? ==> !RowStep(s, e, op).value.0.retired
  {
    if op.ReserveInput? || op.CompleteInput? || op.ReserveAgent? || op.CompleteAgent? {
      InputStepAdvances(s, e, id, op);
    } else if op.RequestTakeover? || op.ConfirmTakeover? || op.Heartbeat? || op.ObservationMode? || op.AuthorizeObservation? {
      LeaseStepAdvances(s, e, id, op);
    }
  }

  lemma RestartAdvances(s: ControlState)
    requires Consistent(s)
    ensures Advances(s, Recovered(s))
  {
  }

  // ---------------------------------------------------------------- one call on the whole store

  predicate Retires(op: Op, c: Id) {
    op.OnRow? && op.row.Retire? && op.id.conversation == c
  }

  /** One call moves every conversation forward; only a bind replaces a row, and only a retired one. */
  predicate StoreAdvances(store: Store, op: Op, after: Store) {
    && StoreConsistent(after) && store.Keys <= after.Keys
    && (forall c | c in store :: Fenced(store[c], after[c]) && store[c].principal == after[c].principal)
    && (forall c | c in store && store[c].retired && !op.Bind? :: after[c] == store[c])
    && (forall c | c in store && Stuck(store[c]) && !Retires(op, c) :: Stuck(after[c]) && after[c].identity == store[c].identity)
  }

  lemma AdvancesCompose(s: ControlState, t: ControlState, u: ControlState)
    requires Consistent(s) && Advances(s, t) && Advances(t, u)
    ensures Advances(s, u)
  {
  }

  /** Replacing one row by its successor moves the whole store forward. */
  lemma UpdateAdvances(store: Store, op: Op, c: Id, t: ControlState)
    requires StoreConsistent(store) && c in store && Advances(store[c], t) && t.principal == store[c].principal
    requires Stuck(store[c]) && !Retires(op, c) ==> !t.retired
    ensures StoreAdvances(store, op, store[c := t])
  {
  }

  /** Binding a fresh generation: the session is unclaimed and the generation before it, if any, is retired. */
  lemma InsertAdvances(store: Store, op: Op, c: Id, t: ControlState)
    requires StoreConsistent(store) && op.Bind? && Consistent(t) && t.identity.conversation == c && !t.retired
    requires forall d | d in store && !store[d].retired && store[d].identity.session == t.identity.session :: d == c
    requires c in store ==> store[c].retired && store[c].revision < t.revision && store[c].principal == t.principal
    ensures StoreAdvances(store, op, store[c := t])
  {
  }

  lemma RowCallAdvances(store: Store, e: Env, id: BrowserIdentity, op: RowOp)
    requires StoreConsistent(store) && ApplyRow(store, e, id, op).Success?
    ensures StoreAdvances(store, OnRow(id, op), ApplyRow(store, e, id, op).value.0)
  {
    var stored, s := store[id.conversation], Load(store, e, id).value;
    var t := RowStep(s, e, op).value.0;
    ExpiryAdvances(stored, e);
    StepAdvances(s, e, id, op);
    AdvancesCompose(stored, s, t);
    PrincipalKept(s, e, op);
    UpdateAdvances(store, OnRow(id, op), id.conversation, t);
  }

  lemma PrincipalKept(s: ControlState, e: Env, op: RowOp)
    requires Ready(e, op) && RowStep(s, e, op).Success?
    ensures RowStep(s, e, op).value.0.principal == s.principal
  {
  }

  lemma RebindAdvances(store: Store, e: Env, id: BrowserIdentity, run: Option<RunBinding>, principal: Id)
    requires StoreConsistent(store) && id.conversation in store && BindBrowser(store, e, id, run, principal).Success?
    requires Expire(store[id.conversation], e).value.identity != id
    ensures StoreAdvances(store, Bind(id, run, principal), BindBrowser(store, e, id, run, principal).value.0)
  {
    var c := id.conversation;
    var s := Expire(store[c], e).value;
    ExpiryAdvances(store[c], e);
    assert store[c].retired;
    InsertAdvances(store, Bind(id, run, principal), c, Bound(id, run, principal, s.revision + 1, s.previousPage));
  }

  lemma BindAdvances(store: Store, e: Env, id: BrowserIdentity, run: Option<RunBinding>, principal: Id)
    requires StoreConsistent(store) && BindBrowser(store, e, id, run, principal).Success?
    ensures StoreAdvances(store, Bind(id, run, principal), BindBrowser(store, e, id, run, principal).value.0)
  {
    var op, c := Bind(id, run, principal), id.conversation;
    if c !in store {
      InsertAdvances(store, op, c, Bound(id, run, principal, 1, None));
    } else {
      var s := Expire(store[c], e).value;
      ExpiryAdvances(store[c], e);
      if s.identity == id {
        UpdateAdvances(store, op, c, s);
      } else {
        RebindAdvances(store, e, id, run, principal);
      }
    }
  }

  lemma CallAdvances(store: Store, e: Env, op: Op)
    requires StoreConsistent(store)
    ensures StoreAdvances(store, op, Exec(store, e, op))
  {
    if Apply(store, e, op).Success? {
      match op
      case Bind(id, run, principal) => BindAdvances(store, e, id, run, principal);
      case OnRow(id, row) => RowCallAdvances(store, e, id, row);
      case RecoverStartup =>
        forall c | c in store ensures Advances(store[c], Recovered(store[c])) { RestartAdvances(store[c]); }
    }
  }

  // ---------------------------------------------------------------- histories

  /** Every reachable store is consistent: a history from the empty store, whoever makes the calls. */
  lemma {:induction false} EveryHistoryIsConsistent(store: Store, events: seq<Event>)
    requires StoreConsistent(store)
    ensures StoreConsistent(Run(store, events)) && store.Keys <= Run(store, events).Keys
    decreases |events|
  {
    if events != [] {
      CallAdvances(store, events[0].env, events[0].op);
      EveryHistoryIsConsistent(Exec(store, events[0].env, events[0].op), events[1..]);
    }
  }

  /** The revision never goes back, across expiry, restart, retirement and new generations, and while it stays
      the same nothing that conveys authority has changed. */
  lemma {:induction false} RevisionIsAFence(store: Store, events: seq<Event>, c: Id)
    requires StoreConsistent(store) && c in store
    ensures c in Run(store, events) && Fenced(store[c], Run(store, events)[c])
    ensures Run(store, events)[c].principal == store[c].principal
    decreases |events|
  {
    if events != [] {
      CallAdvances(store, events[0].env, events[0].op);
      RevisionIsAFence(Exec(store, events[0].env, events[0].op), events[1..], c);
    }
  }

  lemma {:induction false} RunSplits(store: Store, xs: seq<Event>, ys: seq<Event>)
    ensures Run(store, xs + ys) == Run(Run(store, xs), ys)
    decreases |xs|
  {
    if xs == [] {
      assert xs + ys == ys;
    } else {
      assert (xs + ys)[0] == xs[0] && (xs + ys)[1..] == xs[1..] + ys;
      RunSplits(Exec(store, xs[0].env, xs[0].op), xs[1..], ys);
    }
  }

  /** If two moments of a history show the same revision, so does every moment between them, with the same
      generation, mode, lease, observation grant, admitted run and retirement. */
  lemma {:induction false} EqualRevisionsBracketOneAuthority(store: Store, xs: seq<Event>, ys: seq<Event>, c: Id)
    requires StoreConsistent(store) && c in store
    ensures c in Run(store, xs) && c in Run(store, xs + ys)
    ensures Run(store, xs + ys)[c].revision == store[c].revision ==>
              && Run(store, xs)[c].revision == store[c].revision
              && SameAuthority(store[c], Run(store, xs)[c]) && SameAuthority(Run(store, xs)[c], Run(store, xs + ys)[c])
  {
    RunSplits(store, xs, ys);
    EveryHistoryIsConsistent(store, xs);
    RevisionIsAFence(store, xs, c);
    RevisionIsAFence(Run(store, xs), ys, c);
  }

  lemma RetiredRowStays(store: Store, e: Env, op: Op, c: Id)
    requires StoreConsistent(store) && c in store && store[c].retired && (op.Bind? ==> op.id.conversation != c)
    ensures var next := Exec(store, e, op); StoreConsistent(next) && c in next && next[c] == store[c]
  {
    CallAdvances(store, e, op);
  }

  /** A retired generation is frozen until its conversation is bound again. */
  lemma {:induction false} RetiredRowsAreFrozen(store: Store, events: seq<Event>, c: Id)
    requires StoreConsistent(store) && c in store && store[c].retired
    requires forall i | 0 <= i < |events| :: events[i].op.Bind? ==> events[i].op.id.conversation != c
    ensures c in Run(store, events) && Run(store, events)[c] == store[c]
    decreases |events|
  {
    if events != [] {
      RetiredRowStays(store, events[0].env, events[0].op, c);
      RetiredRowsAreFrozen(Exec(store, events[0].env, events[0].op), events[1..], c);
    }
  }

  // ---------------------------------------------------------------- uncertainty is sticky

  /** Every way an outcome can stay unknown leaves the row stuck: an uncertain agent or human outcome, and a lease
      expiry or a restart that finds a human command outstanding (a restart: any command). */
  lemma UncertaintySticks(s: ControlState, e: Env, id: BrowserIdentity, op: RowOp)
    requires Consistent(s) && !s.retired
    ensures op.CompleteAgent? && op.outcome == Uncertain && RowStep(s, e, op).Success? ==> Stuck(RowStep(s, e, op).value.0)
    ensures op.CompleteInput? && op.outcome == Uncertain && RowStep(s, e, op).Success? ==> Stuck(RowStep(s, e, op).value.0)
    ensures s.lease.Some? && s.active.Some? && s.active.value.HumanCommand? && e.now.Some? && s.lease.value.expires <= e.now.value
            ==> Stuck(Expire(s, e).value)
    ensures s.active.Some? ==> Stuck(Recovered(s))
  {
  }

  /** Pausing takes the lease but not the command: the paused row may still hold it. */
  lemma PausingKeepsTheCommand(store: Store, e: Env, id: BrowserIdentity, op: RowOp)
    requires StoreConsistent(store) && (op.Pause? || op.BeginReturn?) && ApplyRow(store, e, id, op).Success?
    ensures var s, t := store[id.conversation], ApplyRow(store, e, id, op).value.0[id.conversation];
            s.lease.Some? && t == s.(mode := Paused, revision := s.revision + 1, lease := None)
  {
    assert Load(store, e, id).value == store[id.conversation];
  }

  /** A completion that arrives late empties the slot of a recovering row and frees nothing else. */
  lemma LateCompletionsStayRecovering(store: Store, e: Env, id: BrowserIdentity, op: RowOp)
    requires StoreConsistent(store) && (op.CompleteAgent? || op.CompleteInput?) && ApplyRow(store, e, id, op).Success?
    requires store[id.conversation].mode == Recovering && op.outcome != Uncertain
    ensures var s, t := store[id.conversation], ApplyRow(store, e, id, op).value.0[id.conversation];
            t == s.(active := t.active, lastInput := t.lastInput) && t.mode == Recovering
            && (t == s || t.active.None?)
  {
    assert Load(store, e, id).value == store[id.conversation];
  }

  predicate GivesAuthority(op: RowOp) {
    op.ReserveAgent? || op.ReserveInput? || op.RequestTakeover? || op.ConfirmTakeover? || op.AdmitRun? || op.Heartbeat?
  }

  /** Until that generation is positively retired the row stays stuck, even if a late completion clears the
      command, and no reservation, takeover or run admission succeeds for the conversation. */
  lemma {:induction false} UncertaintyIsSticky(store: Store, events: seq<Event>, c: Id, e: Env, id: BrowserIdentity, op: RowOp)
    requires StoreConsistent(store) && c in store && Stuck(store[c])
    requires forall i | 0 <= i < |events| :: !Retires(events[i].op, c)
    ensures c in Run(store, events) && Stuck(Run(store, events)[c]) && Run(store, events)[c].identity == store[c].identity
    ensures id.conversation == c && GivesAuthority(op) ==> ApplyRow(Run(store, events), e, id, op).Failure?
    ensures id.conversation == c && id != store[c].identity ==>
              forall run, principal :: BindBrowser(Run(store, events), e, id, run, principal).Failure?
    decreases |events|
  {
    if events == [] {
      if id.conversation == c { NoAuthorityWhileStuck(store, e, id, op); }
    } else {
      assert !Retires(events[0].op, c);
      CallAdvances(store, events[0].env, events[0].op);
      UncertaintyIsSticky(Exec(store, events[0].env, events[0].op), events[1..], c, e, id, op);
    }
  }

  lemma NoAuthorityWhileStuck(store: Store, e: Env, id: BrowserIdentity, op: RowOp)
    requires StoreConsistent(store) && id.conversation in store && Stuck(store[id.conversation])
    ensures GivesAuthority(op) ==> ApplyRow(store, e, id, op).Failure?
    ensures id != store[id.conversation].identity ==>
              forall run, principal :: BindBrowser(store, e, id, run, principal).Failure?
  {
  }
}
